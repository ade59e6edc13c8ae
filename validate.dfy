/** The repository validation engine: collection schemas, stored queries and search views are
    checked in three fail-fast passes, each with its own accumulator of accepted names. */
module Validate {
  import opened Wrappers
  import opened Paths
  import opened FailFast

  /** A user-authored JSON schema embedded in a definition (a collection's document schema or a
      stored query's `params`), reduced to the keywords the engine reads. */
  datatype SubSchema = SubSchema(
    typ: Option<string>,              // the top-level `type` keyword, if present
    required: Option<seq<string>>,    // the `required` list, if present
    properties: Option<set<string>>,  // the keys of `properties`, if present
    otherKeywords: set<string>,       // the names of any other top-level keywords
    usable: bool)                     // the empty-object probe raised no error other than a validation error
  {
    /** The schema is the empty mapping `{}`, which Python treats as false. */
    predicate IsEmpty() {
      typ.None? && required.None? && properties.None? && otherKeywords == {}
    }
  }

  /** A collection-schema file's content: the `name`, `type` and `schema` keys the meta-schema
      requires (None when missing or not of the required JSON type) and the truth of `delta`. */
  datatype SchemaData = SchemaData(name: Option<string>, typ: Option<string>,
                                   schema: Option<SubSchema>, delta: bool)
  datatype SchemaFile = SchemaFile(path: string, data: SchemaData)

  /** A stored-query file's content. */
  datatype QueryData = QueryData(name: Option<string>, query: Option<string>,
                                 queryPrefix: Option<string>, params: Option<SubSchema>)
  datatype QueryFile = QueryFile(path: string, data: QueryData)

  /** A search-view file's content. */
  datatype ViewData = ViewData(name: Option<string>, typ: Option<string>)
  datatype ViewFile = ViewFile(path: string, data: ViewData)

  /** What the query engine answers for a query text: a parse error, or the bind-variable names
      the text uses. */
  datatype EngineReply = EngineError(message: string) | BindVars(names: set<string>)

  /** The fatal errors that end a validation run, with what each message names. */
  datatype Fatal =
    | SchemaViolation(path: string)              // the file does not match its meta-schema
    | DuplicateSchemaName(name: string)          // "Duplicate schemas for name <name>"
    | UnusableSchema(path: string)               // "Unable to load schema in <path>"
    | MissingSchemaType(path: string)            // the document schema has no `type` (a KeyError)
    | SchemaNotObject(path: string)              // "Schemas must be an object. ..."
    | DeltaEdgeFields(path: string)              // time-travel edge lacks "from" and "to"
    | EdgeFields(path: string)                   // edge lacks "_from" and "_to"
    | DeltaVertexId(path: string)                // time-travel vertex lacks "id"
    | VertexKey(path: string)                    // vertex lacks "_key"
    | NameMismatch(name: string, filename: string) // "Name key should match filename: ..."
    | DuplicateName(name: string)                // "Duplicate queries named <name>" (queries and views)
    | UnusableParams(path: string)               // the params schema raised while probing it
    | ParamsNotObject                            // "Params schema must have type 'object'"
    | QuerySyntax(message: string)               // the engine's error message, verbatim
    | BindVarMismatch(extraInQuery: set<string>, extraInSchema: set<string>)

  // ---------------------------------------------------------------- collection schemas

  /** The meta-schema of collection schemas: `name`, `type` and `schema` are present and `type`
      is one of its enum values. */
  predicate SchemaShapeOk(d: SchemaData) {
    d.name.Some? && d.typ.Some? && (d.typ.value == "vertex" || d.typ.value == "edge") && d.schema.Some?
  }

  /** The required-field table for vertex and edge collections, live and time-travel. */
  function RequiredFields(kind: string, delta: bool, required: seq<string>, path: string): (r: Outcome<Fatal>)
    ensures r.Pass? <==>
            && (kind == "edge" ==> if delta then "from" in required && "to" in required
                                   else "_from" in required && "_to" in required)
            && (kind == "vertex" ==> if delta then "id" in required else "_key" in required)
    ensures r.Fail? ==> r.error in {DeltaEdgeFields(path), EdgeFields(path), DeltaVertexId(path), VertexKey(path)}
  {
    var hasEdgeFields := "_from" in required && "_to" in required;
    var hasDeltaEdgeFields := "from" in required && "to" in required;
    if kind == "edge" && delta && !hasDeltaEdgeFields then Fail(DeltaEdgeFields(path))
    else if kind == "edge" && !delta && !hasEdgeFields then Fail(EdgeFields(path))
    else if kind == "vertex" && delta && "id" !in required then Fail(DeltaVertexId(path))
    else if kind == "vertex" && !delta && "_key" !in required then Fail(VertexKey(path))
    else Pass
  }

  /** The checks of one collection-schema file, in the engine's order, against the basenames
      already accepted in the pass. */
  function CheckSchema(f: SchemaFile, names: set<string>): (r: Outcome<Fatal>)
    ensures r.Pass? <==> ReachesFieldTable(f, names)
                         && RequiredFields(f.data.typ.value, f.data.delta, RequiredOf(f), f.path).Pass?
  {
    if !SchemaShapeOk(f.data) then Fail(SchemaViolation(f.path))
    else if Basename(f.path) in names then Fail(DuplicateSchemaName(Basename(f.path)))
    else
      var body := f.data.schema.value;
      if !body.usable then Fail(UnusableSchema(f.path))
      else if body.typ.None? then Fail(MissingSchemaType(f.path))
      else if body.typ.value != "object" then Fail(SchemaNotObject(f.path))
      else RequiredFields(f.data.typ.value, f.data.delta, body.required.GetOr([]), f.path)
  }

  /** Collection schemas are told apart by file basename, extension included. */
  function SchemaKey(f: SchemaFile): string {
    Basename(f.path)
  }

  /** The file gets past every check that precedes the required-field table. */
  predicate ReachesFieldTable(f: SchemaFile, names: set<string>) {
    SchemaShapeOk(f.data) && Basename(f.path) !in names && f.data.schema.value.usable
    && f.data.schema.value.typ == Some("object")
  }

  /** The required fields (an absent list counting as empty) of a file whose body schema exists. */
  function RequiredOf(f: SchemaFile): seq<string>
    requires f.data.schema.Some?
  {
    f.data.schema.value.required.GetOr([])
  }

  /** An edge schema is accepted iff it requires "from" and "to" when it is a time-travel schema,
      and "_from" and "_to" otherwise; the time-travel rule does not ask for "_from" or "_to". */
  lemma EdgeSchemaAccepted(f: SchemaFile, names: set<string>)
    requires ReachesFieldTable(f, names) && f.data.typ == Some("edge")
    ensures CheckSchema(f, names).Pass? <==>
            if f.data.delta then "from" in RequiredOf(f) && "to" in RequiredOf(f)
            else "_from" in RequiredOf(f) && "_to" in RequiredOf(f)
    ensures CheckSchema(f, names).Fail? ==>
            CheckSchema(f, names).error == if f.data.delta then DeltaEdgeFields(f.path) else EdgeFields(f.path)
  {
    var req := RequiredOf(f);
    assert CheckSchema(f, names) == RequiredFields("edge", f.data.delta, req, f.path);
    if f.data.delta {
      assert RequiredFields("edge", true, req, f.path)
             == if "from" in req && "to" in req then Pass else Fail(DeltaEdgeFields(f.path));
    } else {
      assert RequiredFields("edge", false, req, f.path)
             == if "_from" in req && "_to" in req then Pass else Fail(EdgeFields(f.path));
    }
  }

  /** A vertex schema is accepted iff it requires "id" when it is a time-travel schema, and "_key"
      otherwise. */
  lemma VertexSchemaAccepted(f: SchemaFile, names: set<string>)
    requires ReachesFieldTable(f, names) && f.data.typ == Some("vertex")
    ensures CheckSchema(f, names).Pass? <==>
            if f.data.delta then "id" in RequiredOf(f) else "_key" in RequiredOf(f)
    ensures CheckSchema(f, names).Fail? ==>
            CheckSchema(f, names).error == if f.data.delta then DeltaVertexId(f.path) else VertexKey(f.path)
  {
    assert "vertex" != "edge";
    assert CheckSchema(f, names) == RequiredFields("vertex", f.data.delta, RequiredOf(f), f.path);
  }

  /** A body schema whose type is not "object" is rejected before the table is consulted. */
  lemma NonObjectRejected(f: SchemaFile, names: set<string>)
    requires SchemaShapeOk(f.data) && Basename(f.path) !in names && f.data.schema.value.usable
    requires f.data.schema.value.typ.Some? && f.data.schema.value.typ.value != "object"
    ensures CheckSchema(f, names) == Fail(SchemaNotObject(f.path))
  {
  }

  /** An empty list of required fields fails every row of the table. */
  lemma NoRequiredFieldsFail(kind: string, delta: bool, path: string)
    requires kind == "vertex" || kind == "edge"
    ensures RequiredFields(kind, delta, [], path).Fail?
  {
  }

  /** A body schema without a `required` list fails every row of the table. */
  lemma UnrequiredRejected(f: SchemaFile, names: set<string>)
    requires ReachesFieldTable(f, names) && f.data.schema.value.required.None?
    ensures CheckSchema(f, names).Fail?
  {
    assert RequiredOf(f) == [];
    NoRequiredFieldsFail(f.data.typ.value, f.data.delta, f.path);
  }

  /** A later file with the basename of an earlier one makes the schema pass fail; when every
      file before it was accepted, the error is the duplicate-name error for that basename. */
  lemma SchemaDuplicateFatal(files: seq<SchemaFile>, i: nat, j: nat)
    requires i < j < |files| && Basename(files[i].path) == Basename(files[j].path)
    ensures RunPass(files, {}, CheckSchema, SchemaKey).Fail?
    ensures SchemaShapeOk(files[j].data)
            && (forall k :: 0 <= k < j ==> CheckSchema(files[k], NamesBefore(files, k, {}, SchemaKey)).Pass?)
            ==> RunPass(files, {}, CheckSchema, SchemaKey) == Fail(DuplicateSchemaName(Basename(files[j].path)))
  {
    RepeatedNameFails(files, {}, CheckSchema, SchemaKey, i, j);
    var e := DuplicateSchemaName(Basename(files[j].path));
    if SchemaShapeOk(files[j].data)
       && (forall k :: 0 <= k < j ==> CheckSchema(files[k], NamesBefore(files, k, {}, SchemaKey)).Pass?) {
      assert files[..j][i] == files[i];
      assert SchemaKey(files[i]) in NamesBefore(files, j, {}, SchemaKey);
      assert CheckSchema(files[j], NamesBefore(files, j, {}, SchemaKey)) == Fail(e);
      FailIff(files, {}, CheckSchema, SchemaKey, e);
    }
  }

  /** Two individually valid collection schemas with the same basename fail the pass on the
      second one, whichever comes first. */
  lemma SchemaDuplicateSymmetric(a: SchemaFile, b: SchemaFile)
    requires CheckSchema(a, {}).Pass? && CheckSchema(b, {}).Pass? && Basename(a.path) == Basename(b.path)
    ensures RunPass([a, b], {}, CheckSchema, SchemaKey) == Fail(DuplicateSchemaName(Basename(a.path)))
    ensures RunPass([b, a], {}, CheckSchema, SchemaKey) == RunPass([a, b], {}, CheckSchema, SchemaKey)
  {
    var e := DuplicateSchemaName(Basename(a.path));
    assert SchemaShapeOk(a.data) && SchemaShapeOk(b.data);
    assert CheckSchema(b, {SchemaKey(a)}) == Fail(e);
    assert CheckSchema(a, {SchemaKey(b)}) == Fail(e);
    PairFails(a, b, CheckSchema, SchemaKey, e);
    PairFails(b, a, CheckSchema, SchemaKey, e);
  }

  /** The collection-schema pass: every file under `schemas/`, in enumeration order. */
  method ValidateJsonSchemas(files: seq<SchemaFile>) returns (r: Outcome<Fatal>)
    ensures r == RunPass(files, {}, CheckSchema, SchemaKey)
  {
    var names: set<string> := {};
    var i := 0;
    while i < |files|
      invariant 0 <= i <= |files|
      invariant names == KeysOf(files[..i], SchemaKey)
      invariant RunPass(files[i..], names, CheckSchema, SchemaKey) == RunPass(files, {}, CheckSchema, SchemaKey)
    {
      var outcome := CheckSchema(files[i], names);
      assert files[i..][0] == files[i] && files[i..][1..] == files[i + 1..];
      if outcome.Fail? {
        return outcome;
      }
      names := names + {Basename(files[i].path)};
      KeysOfSnoc(files, i, SchemaKey);
      i := i + 1;
    }
    return Pass;
  }

  // ---------------------------------------------------------------- stored queries

  /** The meta-schema of stored queries: `query` and `name` are present. */
  predicate QueryShapeOk(d: QueryData) {
    d.name.Some? && d.query.Some?
  }

  /** The text submitted to the query engine: the prefix (empty by default), one space, the query. */
  function SubmissionText(d: QueryData): (text: string)
    requires d.query.Some?
    ensures var p := d.queryPrefix.GetOr("");
            && |text| == |p| + 1 + |d.query.value|
            && text[..|p|] == p && text[|p|] == ' ' && text[|p| + 1..] == d.query.value
    ensures d.queryPrefix.None? ==> text == [' '] + d.query.value
  {
    d.queryPrefix.GetOr("") + " " + d.query.value
  }

  /** The declared bind variables: the keys of `params.properties`, none when either is absent. */
  function DeclaredParams(d: QueryData): set<string> {
    if d.params.Some? && d.params.value.properties.Some? then d.params.value.properties.value else {}
  }

  /** `params` is present and not the empty mapping. */
  predicate HasParams(d: QueryData) {
    d.params.Some? && !d.params.value.IsEmpty()
  }

  /** The checks of one stored-query file against the names already accepted in the pass, with
      `engine` standing for the database's query-parsing endpoint. */
  function CheckQuery(f: QueryFile, names: set<string>, engine: string -> EngineReply): (r: Outcome<Fatal>)
    ensures r.Pass? <==> ReachesEngine(f, names)
                         && (HasParams(f.data) ==> f.data.params.value.typ == Some("object"))
                         && engine(SubmissionText(f.data)) == BindVars(DeclaredParams(f.data))
  {
    if !QueryShapeOk(f.data) then Fail(SchemaViolation(f.path))
    else if f.data.name.value != Stem(f.path) then Fail(NameMismatch(f.data.name.value, Stem(f.path)))
    else if f.data.name.value in names then Fail(DuplicateName(f.data.name.value))
    else if HasParams(f.data) && !f.data.params.value.usable then Fail(UnusableParams(f.path))
    else if HasParams(f.data) && f.data.params.value.typ != Some("object") then Fail(ParamsNotObject)
    else
      match engine(SubmissionText(f.data))
      case EngineError(msg) => Fail(QuerySyntax(msg))
      case BindVars(used) =>
        var declared := DeclaredParams(f.data);
        if declared != used then Fail(BindVarMismatch(used - declared, declared - used)) else Pass
  }

  /** The per-file check of the stored-query pass for a given engine. */
  function QueryCheck(engine: string -> EngineReply): (QueryFile, set<string>) -> Outcome<Fatal> {
    (f, names) => CheckQuery(f, names, engine)
  }

  /** Stored queries are told apart by their `name`. */
  function QueryKey(f: QueryFile): string {
    f.data.name.GetOr("")
  }

  /** A query whose name differs from its file stem is rejected whatever else it holds. */
  lemma QueryNameMismatchRejected(f: QueryFile, names: set<string>, engine: string -> EngineReply)
    requires QueryShapeOk(f.data) && f.data.name.value != Stem(f.path)
    ensures CheckQuery(f, names, engine) == Fail(NameMismatch(f.data.name.value, Stem(f.path)))
  {
  }

  /** The file gets past the name, duplicate and params checks: it reaches the engine. */
  predicate ReachesEngine(f: QueryFile, names: set<string>) {
    QueryShapeOk(f.data) && f.data.name.value == Stem(f.path) && f.data.name.value !in names
    && (HasParams(f.data) ==> f.data.params.value.usable)
  }

  /** A non-empty params schema must have type "object"; an empty or absent one is not checked. */
  lemma ParamsMustBeObject(f: QueryFile, names: set<string>, engine: string -> EngineReply)
    requires ReachesEngine(f, names)
    ensures HasParams(f.data) && f.data.params.value.typ != Some("object") ==>
            CheckQuery(f, names, engine) == Fail(ParamsNotObject)
    ensures !HasParams(f.data) ==> CheckQuery(f, names, engine) != Fail(ParamsNotObject)
  {
    if !HasParams(f.data) {
      var used := engine(SubmissionText(f.data));
      var declared := DeclaredParams(f.data);
      if used.EngineError? {
        assert CheckQuery(f, names, engine) == Fail(QuerySyntax(used.message));
      } else if declared != used.names {
        assert CheckQuery(f, names, engine) == Fail(BindVarMismatch(used.names - declared, declared - used.names));
      } else {
        assert CheckQuery(f, names, engine) == Pass;
      }
    }
  }

  /** The engine is asked about the submission text and nothing else: two engines that agree on
      it give the same outcome. */
  lemma OnlySubmissionTextMatters(f: QueryFile, names: set<string>, e1: string -> EngineReply, e2: string -> EngineReply)
    requires QueryShapeOk(f.data) && e1(SubmissionText(f.data)) == e2(SubmissionText(f.data))
    ensures CheckQuery(f, names, e1) == CheckQuery(f, names, e2)
  {
  }

  /** For a query that reaches the engine and passes the params check: an engine error is fatal
      with the engine's message; otherwise the query passes iff the declared parameters are exactly
      the bind variables used, and a mismatch reports both differences. */
  lemma BindVarsContract(f: QueryFile, names: set<string>, engine: string -> EngineReply)
    requires ReachesEngine(f, names)
    requires HasParams(f.data) ==> f.data.params.value.typ == Some("object")
    ensures engine(SubmissionText(f.data)).EngineError? ==>
            CheckQuery(f, names, engine) == Fail(QuerySyntax(engine(SubmissionText(f.data)).message))
    ensures engine(SubmissionText(f.data)).BindVars? ==>
            var used := engine(SubmissionText(f.data)).names;
            var declared := DeclaredParams(f.data);
            (CheckQuery(f, names, engine).Pass? <==> declared == used)
            && (declared != used ==> CheckQuery(f, names, engine) == Fail(BindVarMismatch(used - declared, declared - used)))
  {
  }

  /** A single undeclared bind variable, or a single unused parameter, is named on its own. */
  lemma SingleBindVarReported(f: QueryFile, names: set<string>, engine: string -> EngineReply, x: string)
    requires ReachesEngine(f, names)
    requires HasParams(f.data) ==> f.data.params.value.typ == Some("object")
    requires engine(SubmissionText(f.data)).BindVars?
    ensures x !in DeclaredParams(f.data) && engine(SubmissionText(f.data)).names == DeclaredParams(f.data) + {x} ==>
            CheckQuery(f, names, engine) == Fail(BindVarMismatch({x}, {}))
    ensures x in DeclaredParams(f.data) && engine(SubmissionText(f.data)).names == DeclaredParams(f.data) - {x} ==>
            CheckQuery(f, names, engine) == Fail(BindVarMismatch({}, {x}))
  {
    BindVarsContract(f, names, engine);
    SetDifferencesOfOne(DeclaredParams(f.data), engine(SubmissionText(f.data)).names, x);
  }

  /** The two differences of a set and that set with one element added, or with one removed. */
  lemma SetDifferencesOfOne(declared: set<string>, used: set<string>, x: string)
    ensures x !in declared && used == declared + {x} ==>
            declared != used && used - declared == {x} && declared - used == {}
    ensures x in declared && used == declared - {x} ==>
            declared != used && declared - used == {x} && used - declared == {}
  {
    if x !in declared && used == declared + {x} {
      assert x in used;
    }
    if x in declared && used == declared - {x} {
      assert x !in used;
    }
  }

  /** A second query with the name of an earlier one makes the stored-query pass fail. */
  lemma QueryDuplicateFatal(files: seq<QueryFile>, engine: string -> EngineReply, i: nat, j: nat)
    requires i < j < |files| && files[i].data.name.Some? && files[i].data.name == files[j].data.name
    ensures RunPass(files, {}, QueryCheck(engine), QueryKey).Fail?
  {
    RepeatedNameFails(files, {}, QueryCheck(engine), QueryKey, i, j);
  }

  /** Two individually valid stored queries with the same name fail the pass on the second one,
      whichever comes first. */
  lemma QueryDuplicateSymmetric(a: QueryFile, b: QueryFile, engine: string -> EngineReply)
    requires CheckQuery(a, {}, engine).Pass? && CheckQuery(b, {}, engine).Pass? && a.data.name == b.data.name
    ensures RunPass([a, b], {}, QueryCheck(engine), QueryKey) == Fail(DuplicateName(a.data.name.value))
    ensures RunPass([b, a], {}, QueryCheck(engine), QueryKey) == RunPass([a, b], {}, QueryCheck(engine), QueryKey)
  {
    var e := DuplicateName(a.data.name.value);
    assert QueryShapeOk(a.data) && QueryShapeOk(b.data);
    var check := QueryCheck(engine);
    assert check(a, {}) == Pass && check(b, {}) == Pass;
    assert CheckQuery(b, {QueryKey(a)}, engine) == Fail(e) && CheckQuery(a, {QueryKey(b)}, engine) == Fail(e);
    assert check(b, {QueryKey(a)}) == Fail(e) && check(a, {QueryKey(b)}) == Fail(e);
    PairFails(a, b, check, QueryKey, e);
    PairFails(b, a, check, QueryKey, e);
  }

  /** The stored-query pass: every file under `stored_queries/`, in enumeration order. */
  method ValidateStoredQueries(files: seq<QueryFile>, engine: string -> EngineReply) returns (r: Outcome<Fatal>)
    ensures r == RunPass(files, {}, QueryCheck(engine), QueryKey)
  {
    var names: set<string> := {};
    var i := 0;
    while i < |files|
      invariant 0 <= i <= |files|
      invariant names == KeysOf(files[..i], QueryKey)
      invariant RunPass(files[i..], names, QueryCheck(engine), QueryKey) == RunPass(files, {}, QueryCheck(engine), QueryKey)
    {
      var outcome := CheckQuery(files[i], names, engine);
      assert files[i..][0] == files[i] && files[i..][1..] == files[i + 1..];
      if outcome.Fail? {
        return outcome;
      }
      names := names + {files[i].data.name.value};
      KeysOfSnoc(files, i, QueryKey);
      i := i + 1;
    }
    return Pass;
  }

  // ---------------------------------------------------------------- views

  /** The meta-schema of views: `name` and `type` are present and `type` is "arangosearch". */
  predicate ViewShapeOk(d: ViewData) {
    d.name.Some? && d.typ == Some("arangosearch")
  }

  /** The checks of one view file against the names already accepted in the pass. */
  function CheckView(f: ViewFile, names: set<string>): (r: Outcome<Fatal>)
    ensures r.Pass? <==> ViewShapeOk(f.data) && f.data.name.value == Stem(f.path) && f.data.name.value !in names
  {
    if !ViewShapeOk(f.data) then Fail(SchemaViolation(f.path))
    else if f.data.name.value != Stem(f.path) then Fail(NameMismatch(f.data.name.value, Stem(f.path)))
    else if f.data.name.value in names then Fail(DuplicateName(f.data.name.value))
    else Pass
  }

  /** Views are told apart by their `name`. */
  function ViewKey(f: ViewFile): string {
    f.data.name.GetOr("")
  }

  /** A view whose name differs from its file stem is rejected, and an otherwise valid view is
      accepted exactly when its name is new to the pass. */
  lemma ViewChecked(f: ViewFile, names: set<string>)
    requires ViewShapeOk(f.data)
    ensures f.data.name.value != Stem(f.path) ==> CheckView(f, names) == Fail(NameMismatch(f.data.name.value, Stem(f.path)))
    ensures f.data.name.value == Stem(f.path) ==> (CheckView(f, names).Pass? <==> f.data.name.value !in names)
  {
  }

  /** Two individually valid views with the same name fail the pass on the second one, whichever
      comes first. */
  lemma ViewDuplicateSymmetric(a: ViewFile, b: ViewFile)
    requires CheckView(a, {}).Pass? && CheckView(b, {}).Pass? && a.data.name == b.data.name
    ensures RunPass([a, b], {}, CheckView, ViewKey) == Fail(DuplicateName(a.data.name.value))
    ensures RunPass([b, a], {}, CheckView, ViewKey) == RunPass([a, b], {}, CheckView, ViewKey)
  {
    var e := DuplicateName(a.data.name.value);
    assert CheckView(b, {ViewKey(a)}) == Fail(e) && CheckView(a, {ViewKey(b)}) == Fail(e);
    PairFails(a, b, CheckView, ViewKey, e);
    PairFails(b, a, CheckView, ViewKey, e);
  }

  /** A second view with the name of an earlier one makes the view pass fail. */
  lemma ViewDuplicateFatal(files: seq<ViewFile>, i: nat, j: nat)
    requires i < j < |files| && files[i].data.name.Some? && files[i].data.name == files[j].data.name
    ensures RunPass(files, {}, CheckView, ViewKey).Fail?
  {
    RepeatedNameFails(files, {}, CheckView, ViewKey, i, j);
  }

  /** The view pass: every file under `views/`, in enumeration order. */
  method ValidateViews(files: seq<ViewFile>) returns (r: Outcome<Fatal>)
    ensures r == RunPass(files, {}, CheckView, ViewKey)
  {
    var names: set<string> := {};
    var i := 0;
    while i < |files|
      invariant 0 <= i <= |files|
      invariant names == KeysOf(files[..i], ViewKey)
      invariant RunPass(files[i..], names, CheckView, ViewKey) == RunPass(files, {}, CheckView, ViewKey)
    {
      var outcome := CheckView(files[i], names);
      assert files[i..][0] == files[i] && files[i..][1..] == files[i + 1..];
      if outcome.Fail? {
        return outcome;
      }
      names := names + {files[i].data.name.value};
      KeysOfSnoc(files, i, ViewKey);
      i := i + 1;
    }
    return Pass;
  }

  // ---------------------------------------------------------------- the whole run

  /** A validation run: the schema pass, then the stored-query pass, then the view pass, each
      starting from an empty name set; the first fatal error ends the run. */
  method ValidateRepository(schemas: seq<SchemaFile>, queries: seq<QueryFile>, views: seq<ViewFile>,
                            engine: string -> EngineReply) returns (r: Outcome<Fatal>)
    ensures r.Pass? <==> RunPass(schemas, {}, CheckSchema, SchemaKey).Pass?
                         && RunPass(queries, {}, QueryCheck(engine), QueryKey).Pass?
                         && RunPass(views, {}, CheckView, ViewKey).Pass?
    ensures RunPass(schemas, {}, CheckSchema, SchemaKey).Fail? ==> r == RunPass(schemas, {}, CheckSchema, SchemaKey)
    ensures RunPass(schemas, {}, CheckSchema, SchemaKey).Pass? && RunPass(queries, {}, QueryCheck(engine), QueryKey).Fail?
            ==> r == RunPass(queries, {}, QueryCheck(engine), QueryKey)
    ensures RunPass(schemas, {}, CheckSchema, SchemaKey).Pass? && RunPass(queries, {}, QueryCheck(engine), QueryKey).Pass?
            ==> r == RunPass(views, {}, CheckView, ViewKey)
  {
    r := ValidateJsonSchemas(schemas);
    if r.Fail? {
      return;
    }
    r := ValidateStoredQueries(queries, engine);
    if r.Fail? {
      return;
    }
    r := ValidateViews(views);
  }
}
