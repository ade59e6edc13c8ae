/** The row logic of the DJORNL importer: the edge table and the node-metadata table, each a
    header line followed by data rows already split into cells. */
module Djornl {
  import opened Wrappers
  import opened Seqs
  import opened Text

  /** The node collection that edge endpoints refer to. */
  const NodeCollection := "djornl_node"
  /** Cells per row of the edge table and of the node table. */
  const EdgeColCount := 5
  const NodeColCount := 20

  /** The edge types the importer accepts, with the short name each is stored under. */
  const EdgeRemap: map<string, string> := map[
    "AraGWAS-Phenotype_Associations" := "pheno_assn",
    "AraNetv2-CX_pairwise-gene-coexpression" := "gene_coexpr",
    "AraNetv2-DC_domain-co-occurrence" := "domain_co_occur",
    "AraNetv2-HT_high-throughput-ppi" := "ppi_hithru",
    "AraNetv2-LC_lit-curated-ppi" := "ppi_liter"
  ]

  /** The errors the loaders raise, each naming the line of the file it was found on. */
  datatype ParseError =
    | ColCount(line: nat, expected: nat, found: nat)
    | InvalidEdgeType(line: nat, edgeType: string)
    | InvalidNodeType(line: nat, nodeType: string)

  /** The text of the error. */
  function Message(e: ParseError): string {
    match e
    case ColCount(line, expected, found) =>
      "line " + NatToString(line) + ": expected " + NatToString(expected) + " cols, found " + NatToString(found)
    case InvalidEdgeType(line, t) => "line " + NatToString(line) + ": invalid edge type: " + t
    case InvalidNodeType(line, t) => "line " + NatToString(line) + ": invalid node type: " + t
  }

  /** The rows after the header; a file with no lines has none. */
  function DataRows(lines: seq<seq<string>>): seq<seq<string>> {
    if lines == [] then [] else lines[1..]
  }

  /** The line number of the data row at index `j`: the header is line 1. */
  function LineOf(j: nat): nat {
    j + 2
  }

  // ---------------------------------------------------------------- edges

  /** An edge document; the score stays the text of its cell. */
  datatype Edge = Edge(key: string, from: string, to: string, score: string, edgeType: string)

  /** What `load_edges` returns: the `_key` of every node document, and the edge documents. */
  datatype EdgeData = EdgeData(nodes: seq<string>, edges: seq<Edge>)

  /** The edge document built from the stripped cells of an accepted row. */
  function EdgeOf(cols: seq<string>): Edge
    requires |cols| == EdgeColCount && cols[4] in EdgeRemap
  {
    var t := EdgeRemap[cols[4]];
    Edge(cols[0] + "__" + cols[1] + "__" + t + "__" + cols[2],
         NodeCollection + "/" + cols[0], NodeCollection + "/" + cols[1], cols[2], t)
  }

  /** The edge, or the error, for one data row found on line `line`. */
  function EdgeRow(row: seq<string>, line: nat): Result<Edge, ParseError> {
    var cols := StripAll(row);
    if |cols| != EdgeColCount then Err(ColCount(line, EdgeColCount, |cols|))
    else if cols[4] !in EdgeRemap then Err(InvalidEdgeType(line, cols[4]))
    else Ok(EdgeOf(cols))
  }

  /** The endpoint keys of the rows, two per row, in file order. */
  function Endpoints(rows: seq<seq<string>>): seq<string> {
    if rows == [] then []
    else
      var last := StripAll(rows[|rows| - 1]);
      Endpoints(rows[..|rows| - 1]) + (if |last| >= 2 then [last[0], last[1]] else [])
  }

  /** An edge row is accepted iff it has five cells and its fifth is a known edge type; the edge
      it yields joins the endpoints, the short type and the score cell into its key, and points
      from and to the endpoint nodes. Otherwise the error names the line and the fault. */
  lemma EdgeRowContract(row: seq<string>, line: nat)
    ensures EdgeRow(row, line).Ok? <==> |row| == 5 && Strip(row[4]) in EdgeRemap
    ensures |row| != 5 ==> EdgeRow(row, line) == Err(ColCount(line, 5, |row|))
    ensures |row| == 5 && Strip(row[4]) !in EdgeRemap ==>
            EdgeRow(row, line) == Err(InvalidEdgeType(line, Strip(row[4])))
    ensures EdgeRow(row, line).Ok? ==>
            var e := EdgeRow(row, line).value;
            var t := EdgeRemap[Strip(row[4])];
            && e.key == Strip(row[0]) + "__" + Strip(row[1]) + "__" + t + "__" + Strip(row[2])
            && e.from == "djornl_node/" + Strip(row[0])
            && e.to == "djornl_node/" + Strip(row[1])
            && e.score == Strip(row[2])
            && e.edgeType == t
  {
    var cols := StripAll(row);
    if |row| != 5 {
      assert EdgeRow(row, line) == Err(ColCount(line, 5, |row|));
    } else {
      StripAllAt(row, 4);
      if Strip(row[4]) !in EdgeRemap {
        assert EdgeRow(row, line) == Err(InvalidEdgeType(line, Strip(row[4])));
      } else {
        StripAllAt(row, 0); StripAllAt(row, 1); StripAllAt(row, 2);
        assert NodeCollection + "/" == "djornl_node/";
        assert EdgeRow(row, line) == Ok(EdgeOf(cols));
      }
    }
  }

  /** The node list of `load_edges` holds every endpoint exactly once, in order of first
      appearance. */
  lemma EdgeNodesFirstSeen(rows: seq<seq<string>>)
    ensures Distinct(Dedup(Endpoints(rows)))
    ensures forall n :: n in Endpoints(rows) <==> n in Dedup(Endpoints(rows))
    ensures forall i, j :: 0 <= i < j < |Dedup(Endpoints(rows))| ==>
              FirstIndex(Endpoints(rows), Dedup(Endpoints(rows))[i]) < FirstIndex(Endpoints(rows), Dedup(Endpoints(rows))[j])
  {
    DedupContract(Endpoints(rows));
    forall i, j | 0 <= i < j < |Dedup(Endpoints(rows))|
      ensures FirstIndex(Endpoints(rows), Dedup(Endpoints(rows))[i]) < FirstIndex(Endpoints(rows), Dedup(Endpoints(rows))[j])
    {
      DedupFirstSeenOrder(Endpoints(rows), i, j);
    }
  }

  /** The node index after the first `i` rows. */
  function NodesAfter(rows: seq<seq<string>>, i: nat): seq<string>
    requires i <= |rows|
  {
    Dedup(Endpoints(rows[..i]))
  }

  /** One more accepted row inserts its two endpoint keys into the node index. */
  lemma EndpointsStep(rows: seq<seq<string>>, i: nat)
    requires i < |rows| && |StripAll(rows[i])| >= 2
    ensures NodesAfter(rows, i + 1) == Insert(Insert(NodesAfter(rows, i), StripAll(rows[i])[0]), StripAll(rows[i])[1])
  {
    var ends := Endpoints(rows[..i]);
    var a, b := StripAll(rows[i])[0], StripAll(rows[i])[1];
    assert rows[..i + 1][..i] == rows[..i];
    assert Endpoints(rows[..i + 1]) == ends + [a] + [b];
    DedupSnoc(ends, a);
    DedupSnoc(ends + [a], b);
  }

  /** The first rows of `rows` give the edges `edges`, one each. */
  predicate RowsGive(rows: seq<seq<string>>, edges: seq<Edge>) {
    |edges| <= |rows| && forall j :: 0 <= j < |edges| ==> EdgeRow(rows[j], LineOf(j)) == Ok(edges[j])
  }

  /** One more row that gives an edge. */
  lemma RowsGiveSnoc(rows: seq<seq<string>>, edges: seq<Edge>, e: Edge)
    requires RowsGive(rows, edges) && |edges| < |rows| && EdgeRow(rows[|edges|], LineOf(|edges|)) == Ok(e)
    ensures RowsGive(rows, edges + [e])
  {
  }

  /** `load_edges`: every data row becomes one edge, the endpoint keys are gathered in a
      first-seen order, and the first faulty row raises its error. */
  method LoadEdges(lines: seq<seq<string>>) returns (r: Result<EdgeData, ParseError>)
    ensures r.Ok? <==> forall j :: 0 <= j < |DataRows(lines)| ==> EdgeRow(DataRows(lines)[j], LineOf(j)).Ok?
    ensures r.Ok? ==> |r.value.edges| == |DataRows(lines)|
                      && (forall j :: 0 <= j < |DataRows(lines)| ==> EdgeRow(DataRows(lines)[j], LineOf(j)) == Ok(r.value.edges[j]))
                      && r.value.nodes == Dedup(Endpoints(DataRows(lines)))
    ensures r.Err? ==> exists k :: 0 <= k < |DataRows(lines)|
                                   && (forall j :: 0 <= j < k ==> EdgeRow(DataRows(lines)[j], LineOf(j)).Ok?)
                                   && EdgeRow(DataRows(lines)[k], LineOf(k)) == Err(r.error)
    ensures |lines| <= 1 ==> r == Ok(EdgeData([], []))
  {
    var rows := DataRows(lines);
    var nodeIx: seq<string> := [];   // the keys of the node index, in insertion order
    var edges: seq<Edge> := [];
    var i := 0;
    while i < |rows|
      invariant 0 <= i <= |rows|
      invariant |edges| == i
      invariant RowsGive(rows, edges)
      invariant nodeIx == NodesAfter(rows, i)
    {
      var lineNo := LineOf(i);
      var cols := StripAll(rows[i]);
      if |cols| != EdgeColCount {
        assert EdgeRow(rows[i], lineNo) == Err(ColCount(lineNo, EdgeColCount, |cols|));
        return Err(ColCount(lineNo, EdgeColCount, |cols|));
      }
      EndpointsStep(rows, i);
      ghost var before := nodeIx;
      if cols[0] !in nodeIx { nodeIx := nodeIx + [cols[0]]; }
      if cols[1] !in nodeIx { nodeIx := nodeIx + [cols[1]]; }
      assert nodeIx == Insert(Insert(before, cols[0]), cols[1]);
      var edgeType := cols[4];
      if edgeType !in EdgeRemap {
        assert EdgeRow(rows[i], lineNo) == Err(InvalidEdgeType(lineNo, edgeType));
        return Err(InvalidEdgeType(lineNo, edgeType));
      }
      assert EdgeRow(rows[i], lineNo) == Ok(EdgeOf(cols));
      RowsGiveSnoc(rows, edges, EdgeOf(cols));
      edges := edges + [EdgeOf(cols)];
      i := i + 1;
    }
    assert rows[..|rows|] == rows;
    assert nodeIx == Dedup(Endpoints(rows));
    return Ok(EdgeData(nodeIx, edges));
  }

  // ---------------------------------------------------------------- node metadata

  /** A node document. */
  datatype NodeDoc = NodeDoc(
    key: string, nodeType: string, transcript: string, geneSymbol: string, geneFullName: string,
    geneModelType: string, tairComputationalDesc: string, tairCuratorSummary: string,
    tairShortDesc: string, goDescr: string, goTerms: seq<string>, mapmanBin: string,
    mapmanName: string, mapmanDesc: string, phenoAragwasId: string, phenoDesc1: string,
    phenoDesc2: string, phenoDesc3: string, phenoRef: string, userNotes: string)

  /** The GO terms of a cell: none for an empty cell, else its comma-separated parts, stripped. */
  function GoTerms(cell: string): seq<string> {
    if |cell| > 0 then StripAll(Split(cell, ',')) else []
  }

  /** The GO terms of a non-empty cell, joined again with commas, give back the cell up to the
      white space around each term; an empty cell has none. */
  lemma GoTermsContract(cell: string)
    ensures cell == "" ==> GoTerms(cell) == []
    ensures cell != "" ==> |GoTerms(cell)| == |Split(cell, ',')|
                           && Join(Split(cell, ','), ',') == cell
                           && forall i :: 0 <= i < |GoTerms(cell)| ==>
                                GoTerms(cell)[i] == Strip(Split(cell, ',')[i]) && ',' !in GoTerms(cell)[i]
  {
    if cell != "" {
      var parts := Split(cell, ',');
      forall i | 0 <= i < |parts| ensures GoTerms(cell)[i] == Strip(parts[i]) && ',' !in GoTerms(cell)[i] {
        StripAllAt(parts, i);
        var t := Strip(parts[i]);
        var l := StripLeft(parts[i]);
        assert t == StripRight(l) && l == parts[i][|parts[i]| - |l|..] && t == l[..|t|];
      }
    }
  }

  /** Terms that are already stripped and comma-free are read back from their comma-joined cell. */
  lemma GoTermsOfJoin(terms: seq<string>)
    requires |terms| >= 1 && Join(terms, ',') != ""
    requires forall i :: 0 <= i < |terms| ==> ',' !in terms[i] && Strip(terms[i]) == terms[i]
    ensures GoTerms(Join(terms, ',')) == terms
  {
    SplitJoin(terms, ',');
    StripAllTrimmed(terms);
  }

  /** The node document built from the stripped cells of an accepted row. */
  function NodeOf(c: seq<string>): NodeDoc
    requires |c| == NodeColCount
  {
    NodeDoc(c[0], c[1], c[2], c[3], c[4], c[5], c[6], c[7], c[8], c[9], GoTerms(c[10]),
            c[11], c[12], c[13], c[14], c[15], c[16], c[17], c[18], c[19])
  }

  /** The node document, or the error, for one data row found on line `line`. */
  function NodeRow(row: seq<string>, line: nat): Result<NodeDoc, ParseError> {
    var c := StripAll(row);
    if |c| != NodeColCount then Err(ColCount(line, NodeColCount, |c|))
    else if c[1] != "gene" && c[1] != "pheno" then Err(InvalidNodeType(line, c[1]))
    else Ok(NodeOf(c))
  }

  /** A node row is accepted iff it has twenty cells and its type is exactly "gene" or "pheno";
      the document's fields are the stripped cells in column order, with the GO-terms cell split. */
  lemma NodeRowContract(row: seq<string>, line: nat)
    ensures NodeRow(row, line).Ok? <==> |row| == 20 && (Strip(row[1]) == "gene" || Strip(row[1]) == "pheno")
    ensures |row| != 20 ==> NodeRow(row, line) == Err(ColCount(line, 20, |row|))
    ensures |row| == 20 && Strip(row[1]) != "gene" && Strip(row[1]) != "pheno" ==>
            NodeRow(row, line) == Err(InvalidNodeType(line, Strip(row[1])))
    ensures NodeRow(row, line).Ok? ==>
            var d := NodeRow(row, line).value;
            && d.key == Strip(row[0]) && d.nodeType == Strip(row[1])
            && d.transcript == Strip(row[2]) && d.geneSymbol == Strip(row[3])
            && d.geneFullName == Strip(row[4]) && d.geneModelType == Strip(row[5])
            && d.tairComputationalDesc == Strip(row[6]) && d.tairCuratorSummary == Strip(row[7])
            && d.tairShortDesc == Strip(row[8]) && d.goDescr == Strip(row[9])
            && d.goTerms == GoTerms(Strip(row[10]))
            && d.mapmanBin == Strip(row[11]) && d.mapmanName == Strip(row[12])
            && d.mapmanDesc == Strip(row[13]) && d.phenoAragwasId == Strip(row[14])
            && d.phenoDesc1 == Strip(row[15]) && d.phenoDesc2 == Strip(row[16])
            && d.phenoDesc3 == Strip(row[17]) && d.phenoRef == Strip(row[18])
            && d.userNotes == Strip(row[19])
  {
    if |row| == 20 {
      forall i | 0 <= i < 20 ensures StripAll(row)[i] == Strip(row[i]) {
        StripAllAt(row, i);
      }
    }
  }

  /** The first rows of `rows` give the node documents `nodes`, one each. */
  predicate RowsGiveNodes(rows: seq<seq<string>>, nodes: seq<NodeDoc>) {
    |nodes| <= |rows| && forall j :: 0 <= j < |nodes| ==> NodeRow(rows[j], LineOf(j)) == Ok(nodes[j])
  }

  /** One more row that gives a node document. */
  lemma RowsGiveNodesSnoc(rows: seq<seq<string>>, nodes: seq<NodeDoc>, doc: NodeDoc)
    requires RowsGiveNodes(rows, nodes) && |nodes| < |rows| && NodeRow(rows[|nodes|], LineOf(|nodes|)) == Ok(doc)
    ensures RowsGiveNodes(rows, nodes + [doc])
  {
  }

  /** `load_node_metadata`: every data row becomes one node document, and the first faulty row
      raises its error. */
  method LoadNodeMetadata(lines: seq<seq<string>>) returns (r: Result<seq<NodeDoc>, ParseError>)
    ensures r.Ok? <==> forall j :: 0 <= j < |DataRows(lines)| ==> NodeRow(DataRows(lines)[j], LineOf(j)).Ok?
    ensures r.Ok? ==> |r.value| == |DataRows(lines)|
                      && forall j :: 0 <= j < |DataRows(lines)| ==> NodeRow(DataRows(lines)[j], LineOf(j)) == Ok(r.value[j])
    ensures r.Err? ==> exists k :: 0 <= k < |DataRows(lines)|
                                   && (forall j :: 0 <= j < k ==> NodeRow(DataRows(lines)[j], LineOf(j)).Ok?)
                                   && NodeRow(DataRows(lines)[k], LineOf(k)) == Err(r.error)
    ensures |lines| <= 1 ==> r == Ok([])
  {
    var rows := DataRows(lines);
    var nodes: seq<NodeDoc> := [];
    var i := 0;
    while i < |rows|
      invariant 0 <= i <= |rows|
      invariant |nodes| == i
      invariant RowsGiveNodes(rows, nodes)
    {
      var lineNo := LineOf(i);
      var cols := StripAll(rows[i]);
      if |cols| != NodeColCount {
        assert NodeRow(rows[i], lineNo) == Err(ColCount(lineNo, NodeColCount, |cols|));
        return Err(ColCount(lineNo, NodeColCount, |cols|));
      }
      var nodeType := cols[1];
      if nodeType != "gene" && nodeType != "pheno" {
        assert NodeRow(rows[i], lineNo) == Err(InvalidNodeType(lineNo, nodeType));
        return Err(InvalidNodeType(lineNo, nodeType));
      }
      var doc := NodeOf(cols);
      assert NodeRow(rows[i], lineNo) == Ok(doc);
      RowsGiveNodesSnoc(rows, nodes, doc);
      nodes := nodes + [doc];
      i := i + 1;
    }
    return Ok(nodes);
  }

  /** The message for an unknown edge type on the first data row, as the importer's test expects
      it for the type `AraGWAS-Some-Old-Rubbish-I-Made-Up`. */
  lemma EdgeTypeTestMessage(edgeType: string)
    ensures Message(InvalidEdgeType(LineOf(0), edgeType)) == "line 2: invalid edge type: " + edgeType
  {
    assert NatToString(2) == "2";
    assert "line " + "2" == "line 2";
    assert "line 2" + ": invalid edge type: " == "line 2: invalid edge type: ";
  }

  /** The message for an unknown node type on the third data row, as the importer's test expects
      it for the type `Monkey`. */
  lemma NodeTypeTestMessage(nodeType: string)
    ensures Message(InvalidNodeType(LineOf(2), nodeType)) == "line 4: invalid node type: " + nodeType
  {
    assert NatToString(4) == "4";
    assert "line " + "4" == "line 4";
    assert "line 4" + ": invalid node type: " == "line 4: invalid node type: ";
  }

  /** The start of the message of the importer's test for a three-cell edge row. */
  lemma EdgeColCountTestPrefix()
    ensures "line " + NatToString(LineOf(4)) + ": expected " + NatToString(EdgeColCount) == "line 6: expected 5"
  {
    assert NatToString(6) == "6" && NatToString(5) == "5";
    assert "line " + "6" == "line 6";
    assert "line 6" + ": expected " == "line 6: expected ";
  }

  /** The message of the importer's test for a three-cell edge row on the fifth data row. */
  lemma EdgeColCountTestMessage()
    ensures Message(ColCount(LineOf(4), EdgeColCount, 3)) == "line 6: expected 5 cols, found 3"
  {
    EdgeColCountTestPrefix();
    assert NatToString(3) == "3";
    assert "line 6: expected 5" + " cols, found " == "line 6: expected 5 cols, found ";
  }

  /** The start of the message of the importer's test for a 22-cell node row. */
  lemma NodeColCountTestPrefix()
    ensures "line " + NatToString(LineOf(1)) + ": expected " + NatToString(NodeColCount) == "line 3: expected 20"
  {
    assert NatToString(3) == "3" && NatToString(20) == "20";
    assert "line " + "3" == "line 3";
    assert "line 3" + ": expected " == "line 3: expected ";
  }

  /** The message of the importer's test for a 22-cell node row on the second data row. */
  lemma NodeColCountTestMessage()
    ensures Message(ColCount(LineOf(1), NodeColCount, 22)) == "line 3: expected 20 cols, found 22"
  {
    NodeColCountTestPrefix();
    assert NatToString(22) == "22";
    assert "line 3: expected 20" + " cols, found " == "line 3: expected 20 cols, found ";
  }
}
