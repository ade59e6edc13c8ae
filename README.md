# Relation-engine validation and DJORNL row logic in Dafny

This project models two parts of the relation-engine repository and proves properties of them.

**The repository validation engine** (`test/validate.py`) walks the definitions of the
repository in three fail-fast passes:

- **Collection schemas.** The checks are the meta-schema shape, duplicate file basenames, the
  probe that the body schema is usable, a body of `type: object`, and the vertex/edge ×
  live/time-travel required-field table.
- **Stored queries.** The checks are the name against the file stem, duplicate names, and the
  `params` schema. Then the submission text `query_prefix + ' ' + query` goes to the query
  engine, and the declared parameters are compared with the bind variables it reports.
- **Search views.** The checks are the name against the file stem and duplicate names.

Each pass keeps its own set of accepted names. The first fatal error ends the run.
In the model:

- A pass is a `while` loop over the definition records. It is proved equal to a recursive
  reference function, `FailFast.RunPass`.
- The first-failure, stop-at-failure and duplicate-name properties are proved once for that
  function.
- The per-file checks are pure functions with lemmas for each rule.
- The query engine is a function parameter from query text to `EngineError(message)` or
  `BindVars(names)`.

**The DJORNL importer's row logic** (`importers/djornl/parser.py`) has three loaders, modelled as
methods over rows given as sequences of cells:

- **`load_edges`** checks the column count, strips the cells, and whitelists and remaps the edge
  type. It builds the edge documents and gathers the endpoint keys into an insertion-ordered
  node index.
- **`load_node_metadata`** checks the column count and the node type, and splits `go_terms`.
- **`load_cluster_data`** fills a nested index in place through `_parse_cluster_row`. It then
  flattens each node's index into `label:id` strings.

The node index of the cluster loader is a class, `DjornlClusters.NodeIndex`. Its fields are the
key order and the entries of the dictionary, and `ParseClusterRow` updates them in place. Every
method is proved against a function on values (`AddRow`, `BuildIndex`, `ClusterNodes`), and the
lemmas state what those functions mean:

- which ids each key and label collects;
- the key and label orders, which are first appearance across the files;
- the membership of the `clusters` strings.

Python behaviour that the code relies on is written out in the model:

- `str.strip` uses the `str.isspace` character set.
- `str.split` round-trips with a join.
- `str.replace(pat, '')` removes occurrences left to right.
- Dictionary key order is insertion order (`Seqs.Insert`, `Seqs.InsertAll`, `Seqs.Dedup`).
- f-string rendering of line numbers is `Text.NatToString`.

Modules: `Wrappers`, `Seqs`, `Text`, `Paths`, `FailFast`, `Validate`, `Djornl`, `DjornlClusters`.

## Model

| member | source | states |
|---|---|---|
| Seqs.DedupContract | importers/djornl/parser.py:93-94 | the keys of a dictionary filled with the elements of a sequence are every element once and nothing else |
| Seqs.DedupFirstSeenOrder | importers/djornl/parser.py:93-94 | those keys come in order of first appearance |
| Seqs.InsertAllDedup | importers/djornl/parser.py:201-204 | inserting keys one by one into a duplicate-free key order gives that same first-appearance order |
| Seqs.InsertAllAppend | importers/djornl/parser.py:169-174 | inserting two runs of keys is inserting the first run and then the second |
| Text.Strip | importers/djornl/parser.py:88 | the result is the piece of the cell left after white space is removed at both ends and only there: it is a contiguous piece of the cell with only white space before and after it, it has no white space at either end, and an already trimmed cell is unchanged |
| Text.StripAllAt | importers/djornl/parser.py:88 | cell `i` of the stripped row is cell `i` of the row, stripped |
| Text.Split | importers/djornl/parser.py:135 | the parts hold no separator and join back to the cell |
| Text.SplitJoin | importers/djornl/parser.py:135 | splitting separator-free parts joined with the separator gives the parts back |
| Text.RemoveAllAbsent | importers/djornl/parser.py:197 | `RemoveAll`, the model of `replace(pat, '')`, leaves a cell without `pat` unchanged |
| Text.NatToStringValue | importers/djornl/parser.py:91 | the rendered line number reads back as the number |
| Paths.Basename | test/validate.py:41 | the basename holds no `/`, is a suffix of the path, and is preceded by a `/` unless it is the whole path |
| Paths.SplitExtRoot | test/validate.py:104 | the root is a prefix of the name. When it is shorter, it is everything before the last dot and is not made of dots only. When it is the whole name, every dot after the first character has only dots before it, so a leading-dot name such as `.yaml` keeps its dot |
| Paths.Stem | test/validate.py:104 | the stem holds no `/`; it is the basename cut before its last dot, unless only dots precede that dot, in which case it is the whole basename |
| Paths.BasenameInDirectory | test/validate.py:41 | the basename of `dir/name` is `name`, extension included |
| Paths.StemOfDefinitionFile | test/validate.py:104 | the stem of `dir/name.ext` is `name` |
| FailFast.PassIff | test/validate.py:39-50 | `RunPass`, the reference model of one pass, succeeds iff every file passes its check against the names of all files before it |
| FailFast.FailIff | test/validate.py:180-183 | a pass fails with `e` iff some file fails with `e` and every file before it passed, so the first fatal error is the one reported |
| FailFast.StopsAtFailure | test/validate.py:180-183 | once a pass has failed, the files after it do not change the outcome |
| FailFast.KeysOfSnoc | test/validate.py:47-50 | the name set grows by exactly the name of each accepted file |
| FailFast.RepeatedNameFails | test/validate.py:47-48 | a later file with the name of an earlier one makes the pass fail |
| Validate.RequiredFields | test/validate.py:66-77 | the required-field table accepts exactly when an edge requires `from` and `to` (time-travel) or `_from` and `_to` (live) and a vertex requires `id` (time-travel) or `_key` (live); every error it gives names the file |
| Validate.CheckSchema | test/validate.py:45-77 | a collection schema is accepted exactly when it matches its meta-schema, its basename is new to the pass, its body schema is usable and of type `object`, and the field table accepts its required fields |
| Validate.EdgeSchemaAccepted | test/validate.py:67-73 | an edge schema is accepted iff it requires `from` and `to` (time-travel) or `_from` and `_to` (live); otherwise the error is the matching one |
| Validate.VertexSchemaAccepted | test/validate.py:74-77 | a vertex schema is accepted iff it requires `id` (time-travel) or `_key` (live); otherwise the error is the matching one |
| Validate.NonObjectRejected | test/validate.py:63-65 | a body schema whose type is not `object` is rejected before the field table |
| Validate.UnrequiredRejected | test/validate.py:66-77 | a body schema with no `required` list fails the field table |
| Validate.SchemaDuplicateFatal | test/validate.py:41-50 | a second file with the same basename makes the schema pass fail; when all files before it were accepted, the error is the duplicate-name error for that basename |
| Validate.SchemaDuplicateSymmetric | test/validate.py:41-50 | two valid collection schemas with one basename fail on the second with the duplicate-schema error, whichever comes first |
| Validate.ValidateJsonSchemas | test/validate.py:36-79 | the schema pass loop returns exactly the outcome of the reference pass from an empty name set |
| Validate.SubmissionText | test/validate.py:123 | the submitted text is one longer than prefix and query together, starts with the prefix, has a single space right after it and ends with the query; with no prefix it is a space followed by the query |
| Validate.CheckQuery | test/validate.py:102-135 | a stored query is accepted exactly when it matches its meta-schema, its name is its file stem and new to the pass, a non-empty params schema is usable and of type `object`, and the engine reports exactly the declared parameters as the bind variables of the submission text |
| Validate.QueryNameMismatchRejected | test/validate.py:103-106 | a query whose name differs from its file stem is rejected whatever else it holds |
| Validate.ParamsMustBeObject | test/validate.py:112-122 | a non-empty params schema must have type `object`; an absent or empty one is never rejected for its type |
| Validate.OnlySubmissionTextMatters | test/validate.py:123-129 | the engine is asked only about the submission text: two engines that agree on it give the same outcome |
| Validate.BindVarsContract | test/validate.py:128-135 | an engine error is fatal with the engine's message; otherwise the query passes iff the declared parameters equal the bind variables, and a mismatch reports both differences |
| Validate.SingleBindVarReported | test/validate.py:130-135 | one undeclared bind variable, or one unused parameter, is reported on its own in the matching difference |
| Validate.QueryDuplicateSymmetric | test/validate.py:107-110 | two valid stored queries with one name fail on the second with the duplicate-name error, whichever comes first |
| Validate.QueryDuplicateFatal | test/validate.py:107-110 | a second query with an earlier query's name makes the stored-query pass fail |
| Validate.ValidateStoredQueries | test/validate.py:94-137 | the stored-query pass loop returns exactly the outcome of the reference pass from an empty name set |
| Validate.CheckView | test/validate.py:166-174 | a view is accepted exactly when it matches its meta-schema and its name is its file stem and new to the pass |
| Validate.ViewChecked | test/validate.py:167-174 | a view whose name differs from its stem is rejected; otherwise it is accepted iff its name is new to the pass |
| Validate.ViewDuplicateSymmetric | test/validate.py:171-174 | two valid views with one name fail on the second, whichever comes first |
| Validate.ViewDuplicateFatal | test/validate.py:171-174 | a second view with an earlier view's name makes the view pass fail |
| Validate.ValidateViews | test/validate.py:158-177 | the view pass loop returns exactly the outcome of the reference pass from an empty name set |
| Validate.ValidateRepository | test/validate.py:186-190 | the run passes iff all three passes pass, each from its own empty name set; otherwise the outcome is the first failing pass's error, in schema, query, view order |
| Djornl.EdgeRowContract | importers/djornl/parser.py:88-105 | `EdgeRow`, with `EdgeOf`, the model of one row of `load_edges`: an edge row is accepted iff it has 5 cells and a known edge type; the errors name the line and the fault; the edge's key, from, to, score and type are those of the stripped cells |
| Djornl.EdgeNodesFirstSeen | importers/djornl/parser.py:93-94 | the node list has no repeats, holds exactly the endpoint keys and lists them in order of first appearance |
| Djornl.EndpointsStep | importers/djornl/parser.py:93-94 | an accepted row inserts its two endpoint keys into the node index, first then second |
| Djornl.LoadEdges | importers/djornl/parser.py:63-110 | success iff every data row is accepted, with one edge per row in row order and the node list of first-seen endpoints; otherwise the error of the first faulty row; a file with only a header gives no nodes and no edges |
| Djornl.GoTermsContract | importers/djornl/parser.py:135 | for `GoTerms`: an empty cell gives no GO terms; otherwise there is one stripped term per comma-separated part |
| Djornl.GoTermsOfJoin | importers/djornl/parser.py:135 | trimmed comma-free terms joined with commas come back unchanged |
| Djornl.NodeRowContract | importers/djornl/parser.py:125-158 | `NodeRow`, with `NodeOf`, the model of one row of `load_node_metadata`: a node row is accepted iff it has 20 cells and its type cell strips to `gene` or `pheno`; the errors name the line and the fault; each of the document's twenty fields is the stripped cell of its column, with the GO-terms cell split into terms |
| Djornl.LoadNodeMetadata | importers/djornl/parser.py:113-161 | success iff every data row is accepted, with one document per row in row order; otherwise the error of the first faulty row |
| Djornl.EdgeTypeTestMessage | test/stored_queries/test_djornl_parser.py:82 | the unknown-type message of the first data row is `line 2: invalid edge type: <type>` |
| Djornl.NodeTypeTestMessage | test/stored_queries/test_djornl_parser.py:87 | the unknown-type message of the third data row is `line 4: invalid node type: <type>` |
| Djornl.EdgeColCountTestMessage | test/stored_queries/test_djornl_parser.py:100 | a three-cell fifth edge row gives `line 6: expected 5 cols, found 3` |
| Djornl.NodeColCountTestMessage | test/stored_queries/test_djornl_parser.py:105 | a 22-cell second node row gives `line 3: expected 20 cols, found 22` |
| DjornlClusters.ClusterIdOfTaggedCell | importers/djornl/parser.py:197 | for `ClusterId`: the first cell `Cluster<n>` gives the cluster id `<n>` |
| DjornlClusters.AddIdLookup | importers/djornl/parser.py:201-206 | for `AddId`, one turn of the row loop: recording one id appends it to the list of its own key and label, and to no other list |
| DjornlClusters.AddIdsLookup | importers/djornl/parser.py:200-206 | for `AddIds`: the loop over a row's keys appends the id to the label's list of each key, once per occurrence of the key, and changes no other list |
| DjornlClusters.AddRowLookup | importers/djornl/parser.py:194-206 | for `AddRow`, the model of `_parse_cluster_row`: a row whose first cell is exactly `#` changes nothing; any other row appends its cluster id as above |
| DjornlClusters.IndexRowsLookup | importers/djornl/parser.py:172-175 | for `IndexRows` and `ReadRow`, which skips rows of at most one cell: reading a file appends to its own label's lists exactly the ids its rows record, in row order |
| DjornlClusters.BuildIndexLookup | importers/djornl/parser.py:169-175 | for `BuildIndex`: after all files, each key and label's list is the ids the files with that label record for that key, in file and row order |
| DjornlClusters.AddIdValid | importers/djornl/parser.py:202-203 | recording an id keeps the index well formed and inserts the key into the key order |
| DjornlClusters.AddToLabelsValid | importers/djornl/parser.py:204-206 | recording an id keeps the inner dictionary well formed and inserts the label into its label order |
| DjornlClusters.BuildIndexKeys | importers/djornl/parser.py:169-174 | reading the files inserts their node keys into the key order, file after file and row after row |
| DjornlClusters.BuildIndexLabels | importers/djornl/parser.py:169-174 | reading the files inserts into a node's label order the labels of the files that record it |
| DjornlClusters.ClusterIndexOrder | importers/djornl/parser.py:166-174 | the index built from nothing is well formed; its keys are the node keys of all files, each once, in order of first appearance; each node's labels are those of the files recording it, each once, in file order |
| DjornlClusters.FlattenAppend | importers/djornl/parser.py:180-182 | the clusters are grouped by label: flattening two runs of labels is flattening each |
| DjornlClusters.FlattenMembers | importers/djornl/parser.py:182-183 | for `Flatten` and `Tagged`: a string is among the flattened clusters iff it is a listed label, a colon and one of that label's ids |
| DjornlClusters.ClustersMembers | importers/djornl/parser.py:180-183 | for `Clusters`: a node's clusters are exactly the strings `label:id` for a label recorded for it and an id in that label's list |
| DjornlClusters.NodesOfContract | importers/djornl/parser.py:179-188 | for `NodesOf` and `ClusterNodes`: one node document per indexed key, in key order, each with that key's clusters |
| DjornlClusters.NodeIndex.constructor | importers/djornl/parser.py:167 | the index starts empty |
| DjornlClusters.ParseClusterRow | importers/djornl/parser.py:193-206 | the in-place update leaves the index equal to `AddRow` of the old index |
| DjornlClusters.TagClusters | importers/djornl/parser.py:180-182 | the inner loops give the flattened tagged ids of a node, label after label |
| DjornlClusters.ReadClusterFiles | importers/djornl/parser.py:169-174 | the file loop leaves the index equal to `BuildIndex` of the old index |
| DjornlClusters.LoadClusterData | importers/djornl/parser.py:164-189 | the result is the node list of the index built from all files |

## Notes on the code

- Collection schemas are told apart by file basename with its extension (`os.path.basename`,
  `test/validate.py:41`). They are not told apart by their `name` field. The model follows the
  code.
- The submission text joins the prefix and the query with exactly one space
  (`test/validate.py:123`).
- The view pass reports a repeated name with the same message as the stored-query pass
  (`Duplicate queries named …`, `test/validate.py:172`). Both use one error, `DuplicateName`.
- `_parse_cluster_row` tests `row[0] != '#'`, which is exact equality, although its comment
  speaks of rows that start with `#` (`importers/djornl/parser.py:194-195`). The model follows the
  code, so a first cell such as `#note` is read as a cluster row.
- In `load_edges` the two endpoint keys enter the node index before the edge type is checked
  (`importers/djornl/parser.py:93-97`). This has no visible effect, because a bad type raises.
  The loop keeps that order.
- All three passes add a name to their name set in the middle of a file's checks, once the
  duplicate test has passed (`test/validate.py:50`, `:110`, `:174`). The model, `FailFast.RunPass`,
  adds it once the whole file has passed. The outcome is the same in every pass, because each
  later check of that file is fatal.

## Left out

- The `jsonschema` library:
  - Meta-schema validation is reduced to the keys and enum values the meta-schemas require. They
    become `Option` fields and the `SchemaShapeOk`, `QueryShapeOk` and `ViewShapeOk` predicates.
  - The `format` regex on names is not modelled.
  - The probe that validates `{}` against a definition's own schema is an input flag, `usable`.
- The HTTP request to the database's query endpoint is the function parameter `engine`, along
  with its JSON reply and the database URL and credentials.
- `wait_for_arangodb` is left out. It is a timed wait on a remote service.
- The following I/O is not modelled: `glob.iglob` enumeration, `open`, YAML/JSON/CSV parsing, and
  the progress output on standard output. Definitions arrive as records in enumeration order, and
  importer files arrive as rows of cells. The header row is the first row, and the cluster files
  come in the order of the configured label table.
- `_fatal` is modelled as the `Fail` outcome that ends its pass and the run.
  - Writing the message to standard error and the exit status are not modelled.
  - Messages that embed Python set representations are kept as structured errors, not rendered.
  - An exception that the code leaves uncaught also ends the run with a `Fail` outcome: a
    missing `type` in a body schema, or an unusable `params` schema in the stored-query pass.
- Djornl.LoadEdges: the score stays the text of its cell. `float(cols[2])` and the `ValueError`
  it raises on a non-numeric score are not modelled, because they are floating-point parsing.
  So a row with a non-numeric score is accepted.
- Djornl.EdgeRowContract: the same gap. A row counts as accepted when it has five cells and a
  known edge type, although the importer also raises on a score that is not a number.
- `_configure`, `config()` and `importers/utils/config.py` are environment configuration. The
  collection name `djornl_node`, the column counts 5 and 20 and the edge-type table are constants
  of the model. The cluster file paths are replaced by the files given with their labels.
- `save_dataset`, `save_docs`, `load_data` and `importers/djornl/main.py` are database upload
  and an entry point.
- DjornlClusters.ParseClusterRow requires at least one cell. The code reads `row[0]` and is only
  called for rows with more than one cell.
- The inner dictionaries of the cluster index are values (`Labels`) inside the class's entry map.
  They are only reachable through the index, so no aliasing is lost.
- The test helpers and the integration tests against a live database are not modelled.
