/** The cluster loader of the DJORNL importer. Each cluster file is a list of rows; a row names a
    cluster in its first cell and the nodes that belong to it in the others. The loader fills a
    nested index in place (node key, then cluster clusterLabel, then the ids recorded), with Python's
    insertion order at both levels, and then flattens it into one list of `clusterLabel:id` strings per
    node. */
module DjornlClusters {
  import opened Seqs
  import opened Text

  // ---------------------------------------------------------------- the index as a value

  /** The inner dictionary of one node: cluster label to the ids recorded under it, with its
      labels in insertion order. */
  datatype Labels = Labels(order: seq<string>, ids: map<string, seq<string>>)

  /** `node_ix`: node key to its inner dictionary, with its keys in insertion order. */
  datatype Index = Index(order: seq<string>, entries: map<string, Labels>)

  /** The order of an inner dictionary lists exactly its labels, each once. */
  predicate LabelsValid(l: Labels) {
    && Distinct(l.order)
    && (forall x :: x in l.order ==> x in l.ids)
    && (forall x :: x in l.ids ==> x in l.order)
  }

  /** The order of the index lists exactly its keys, each once, and every inner dictionary is
      well formed. */
  predicate IndexValid(ix: Index) {
    && KeysValid(ix)
    && (forall k :: k in ix.entries ==> LabelsValid(ix.entries[k]))
  }

  /** The order of the index lists exactly its keys, each once. */
  predicate KeysValid(ix: Index) {
    && Distinct(ix.order)
    && (forall k :: k in ix.order ==> k in ix.entries)
    && (forall k :: k in ix.entries ==> k in ix.order)
  }

  /** The index before the first file is read. */
  const EmptyIndex := Index([], map[])

  /** The ids recorded for `key` under `clusterLabel`; none when either is absent. */
  function Lookup(ix: Index, key: string, clusterLabel: string): seq<string> {
    if key in ix.entries && clusterLabel in ix.entries[key].ids then ix.entries[key].ids[clusterLabel] else []
  }

  /** The labels recorded for `key`, in insertion order; none for an absent key. */
  function LabelsOf(ix: Index, key: string): seq<string> {
    if key in ix.entries then ix.entries[key].order else []
  }

  // ---------------------------------------------------------------- filling the index

  /** The inner dictionary of a node with an empty id list added under `clusterLabel` when that
      label is new to it. */
  function WithLabel(inner: Labels, clusterLabel: string): Labels {
    if clusterLabel in inner.ids then inner
    else Labels(inner.order + [clusterLabel], inner.ids[clusterLabel := []])
  }

  /** The inner dictionary after `id` is recorded under `clusterLabel`: the label gets an empty
      list first if it is new, and then `id` is appended to its list. */
  function AddToLabels(inner: Labels, clusterLabel: string, id: string): Labels {
    var w := WithLabel(inner, clusterLabel);
    Labels(w.order, w.ids[clusterLabel := w.ids[clusterLabel] + [id]])
  }

  /** The index with an empty inner dictionary added for `key` when that key is new to it. */
  function WithKey(ix: Index, key: string): Index {
    if key in ix.entries then ix else Index(ix.order + [key], ix.entries[key := Labels([], map[])])
  }

  /** One turn of the loop of `_parse_cluster_row`: the key gets an empty inner dictionary first
      if it is new, and then `id` is recorded in it. */
  function AddId(ix: Index, key: string, clusterLabel: string, id: string): Index {
    var w := WithKey(ix, key);
    Index(w.order, w.entries[key := AddToLabels(w.entries[key], clusterLabel, id)])
  }

  /** The loop of `_parse_cluster_row` over the node keys of one row. */
  function AddIds(ix: Index, keys: seq<string>, clusterLabel: string, id: string): Index
    decreases keys
  {
    if keys == [] then ix else AddIds(AddId(ix, keys[0], clusterLabel, id), keys[1..], clusterLabel, id)
  }

  /** The cluster id of a first cell: every `Cluster` in it removed. */
  function ClusterId(cell: string): string {
    RemoveAll(cell, "Cluster")
  }

  /** A first cell `Cluster<n>` gives the cluster id `<n>` when `<n>` holds no further `Cluster`. */
  lemma ClusterIdOfTaggedCell(n: string)
    requires !Contains(n, "Cluster")
    ensures ClusterId("Cluster" + n) == n
  {
    var cell := "Cluster" + n;
    assert cell[..|"Cluster"|] == "Cluster" && cell[|"Cluster"|..] == n;
    RemoveAllAbsent(n, "Cluster");
  }

  /** `_parse_cluster_row`: a row whose first cell is exactly `#` is metadata and changes
      nothing; any other row records its cluster id for each of its node keys. */
  function AddRow(ix: Index, row: seq<string>, clusterLabel: string): Index
    requires |row| >= 1
  {
    if row[0] == "#" then ix else AddIds(ix, row[1..], clusterLabel, ClusterId(row[0]))
  }

  /** A cluster file: its label and its rows. */
  datatype ClusterFile = ClusterFile(clusterLabel: string, rows: seq<seq<string>>)

  /** One row of a file as `load_cluster_data` reads it: a row with at most one cell is skipped. */
  function ReadRow(ix: Index, row: seq<string>, clusterLabel: string): Index {
    if |row| > 1 then AddRow(ix, row, clusterLabel) else ix
  }

  /** The rows of one file, in order. */
  function IndexRows(ix: Index, rows: seq<seq<string>>, clusterLabel: string): Index
    decreases rows
  {
    if rows == [] then ix else IndexRows(ReadRow(ix, rows[0], clusterLabel), rows[1..], clusterLabel)
  }

  /** The files, in order. */
  function BuildIndex(ix: Index, files: seq<ClusterFile>): Index
    decreases files
  {
    if files == [] then ix else BuildIndex(IndexRows(ix, files[0].rows, files[0].clusterLabel), files[1..])
  }

  // ---------------------------------------------------------------- what the index records

  /** The ids that the rows record for `key`, in row order: a row that is read and is not
      metadata records its cluster id once for every occurrence of `key` among its node keys. */
  function RowIds(rows: seq<seq<string>>, key: string): seq<string> {
    if rows == [] then []
    else
      var row := rows[0];
      (if |row| > 1 && row[0] != "#" then Repeat(ClusterId(row[0]), Count(row[1..], key)) else [])
      + RowIds(rows[1..], key)
  }

  /** The ids that the files labelled `clusterLabel` record for `key`, in file order. */
  function FileIds(files: seq<ClusterFile>, key: string, clusterLabel: string): seq<string> {
    if files == [] then []
    else (if files[0].clusterLabel == clusterLabel then RowIds(files[0].rows, key) else []) + FileIds(files[1..], key, clusterLabel)
  }

  /** The node keys of a row that is read and is not metadata; none for any other row. */
  function ReadKeys(row: seq<string>): seq<string> {
    if |row| > 1 && row[0] != "#" then row[1..] else []
  }

  /** The node keys of the rows, in file order. */
  function RowKeys(rows: seq<seq<string>>): seq<string> {
    if rows == [] then [] else ReadKeys(rows[0]) + RowKeys(rows[1..])
  }

  /** The node keys of all files, in file order. */
  function FileKeys(files: seq<ClusterFile>): seq<string> {
    if files == [] then [] else RowKeys(files[0].rows) + FileKeys(files[1..])
  }

  /** One recorded id lands at the end of its own list and nowhere else. */
  lemma AddIdLookup(ix: Index, key: string, clusterLabel: string, id: string, k: string, l: string)
    ensures Lookup(AddId(ix, key, clusterLabel, id), k, l) == Lookup(ix, k, l) + (if k == key && l == clusterLabel then [id] else [])
  {
  }

  /** The ids of one row land at the end of the list of `clusterLabel` for each of its keys, once per
      occurrence of the key; every other list is unchanged. */
  lemma {:induction false} AddIdsLookup(ix: Index, keys: seq<string>, clusterLabel: string, id: string, k: string, l: string)
    ensures Lookup(AddIds(ix, keys, clusterLabel, id), k, l)
            == Lookup(ix, k, l) + (if l == clusterLabel then Repeat(id, Count(keys, k)) else [])
    decreases keys
  {
    if keys != [] {
      var next := AddId(ix, keys[0], clusterLabel, id);
      AddIdLookup(ix, keys[0], clusterLabel, id, k, l);
      AddIdsLookup(next, keys[1..], clusterLabel, id, k, l);
      if l == clusterLabel && keys[0] == k {
        assert Repeat(id, Count(keys, k)) == [id] + Repeat(id, Count(keys[1..], k));
      }
    }
  }

  /** `_parse_cluster_row`: a metadata row leaves every list unchanged; any other row appends its
      cluster id to the list of `clusterLabel` of each of its node keys, once per occurrence, and
      changes no other list. */
  lemma AddRowLookup(ix: Index, row: seq<string>, clusterLabel: string, k: string, l: string)
    requires |row| >= 1
    ensures Lookup(AddRow(ix, row, clusterLabel), k, l)
            == Lookup(ix, k, l) + (if l == clusterLabel && row[0] != "#" then Repeat(ClusterId(row[0]), Count(row[1..], k)) else [])
  {
    if row[0] != "#" {
      AddIdsLookup(ix, row[1..], clusterLabel, ClusterId(row[0]), k, l);
    }
  }

  /** Reading a file appends to the list of its own label exactly the ids its rows record. */
  lemma {:induction false} IndexRowsLookup(ix: Index, rows: seq<seq<string>>, clusterLabel: string, k: string, l: string)
    ensures Lookup(IndexRows(ix, rows, clusterLabel), k, l) == Lookup(ix, k, l) + (if l == clusterLabel then RowIds(rows, k) else [])
    decreases rows
  {
    if rows != [] {
      var next := ReadRow(ix, rows[0], clusterLabel);
      if |rows[0]| > 1 {
        AddRowLookup(ix, rows[0], clusterLabel, k, l);
      }
      IndexRowsLookup(next, rows[1..], clusterLabel, k, l);
    }
  }

  /** After all files are read, the list of a key under a label holds the ids recorded by the
      files with that label, in file and row order. */
  lemma {:induction false} BuildIndexLookup(ix: Index, files: seq<ClusterFile>, k: string, l: string)
    ensures Lookup(BuildIndex(ix, files), k, l) == Lookup(ix, k, l) + FileIds(files, k, l)
    decreases files
  {
    if files != [] {
      IndexRowsLookup(ix, files[0].rows, files[0].clusterLabel, k, l);
      BuildIndexLookup(IndexRows(ix, files[0].rows, files[0].clusterLabel), files[1..], k, l);
    }
  }

  /** Recording an id keeps an inner dictionary well formed and inserts the label into its
      order. */
  lemma AddToLabelsValid(inner: Labels, clusterLabel: string, id: string)
    requires LabelsValid(inner)
    ensures LabelsValid(AddToLabels(inner, clusterLabel, id))
    ensures AddToLabels(inner, clusterLabel, id).order == Insert(inner.order, clusterLabel)
  {
    InsertDistinct(inner.order, clusterLabel);
  }

  /** One recorded id keeps the index well formed and inserts its key into the key order. */
  lemma AddIdValid(ix: Index, key: string, clusterLabel: string, id: string)
    requires IndexValid(ix)
    ensures IndexValid(AddId(ix, key, clusterLabel, id))
    ensures AddId(ix, key, clusterLabel, id).order == Insert(ix.order, key)
  {
    var inner := WithKey(ix, key).entries[key];
    AddToLabelsValid(inner, clusterLabel, id);
    InsertDistinct(ix.order, key);
    var r := AddId(ix, key, clusterLabel, id);
    forall k | k in r.entries
      ensures k in r.order && LabelsValid(r.entries[k])
    {
      if k != key {
        assert r.entries[k] == ix.entries[k];
      }
    }
  }

  /** One recorded id inserts its label into the label order of its own key and no other. */
  lemma AddIdLabels(ix: Index, key: string, clusterLabel: string, id: string, k: string)
    requires IndexValid(ix)
    ensures LabelsOf(AddId(ix, key, clusterLabel, id), k)
            == if k == key then Insert(LabelsOf(ix, k), clusterLabel) else LabelsOf(ix, k)
  {
    if k == key {
      AddToLabelsValid(WithKey(ix, key).entries[key], clusterLabel, id);
    }
  }

  /** The node keys of one row keep the index well formed. */
  lemma {:induction false} AddIdsValid(ix: Index, keys: seq<string>, clusterLabel: string, id: string)
    requires IndexValid(ix)
    ensures IndexValid(AddIds(ix, keys, clusterLabel, id))
    decreases keys
  {
    if keys != [] {
      AddIdValid(ix, keys[0], clusterLabel, id);
      AddIdsValid(AddId(ix, keys[0], clusterLabel, id), keys[1..], clusterLabel, id);
    }
  }

  /** The node keys of one row are inserted into the key order one after another. */
  lemma {:induction false} AddIdsKeys(ix: Index, keys: seq<string>, clusterLabel: string, id: string)
    requires IndexValid(ix)
    ensures AddIds(ix, keys, clusterLabel, id).order == InsertAll(ix.order, keys)
    decreases keys
  {
    if keys != [] {
      AddIdValid(ix, keys[0], clusterLabel, id);
      AddIdsKeys(AddId(ix, keys[0], clusterLabel, id), keys[1..], clusterLabel, id);
    }
  }

  /** Each node key of one row gets the label inserted into its label order; the other keys keep
      theirs. */
  lemma {:induction false} AddIdsLabels(ix: Index, keys: seq<string>, clusterLabel: string, id: string, k: string)
    requires IndexValid(ix)
    ensures LabelsOf(AddIds(ix, keys, clusterLabel, id), k)
            == if k in keys then Insert(LabelsOf(ix, k), clusterLabel) else LabelsOf(ix, k)
    decreases keys
  {
    if keys != [] {
      AddIdValid(ix, keys[0], clusterLabel, id);
      AddIdLabels(ix, keys[0], clusterLabel, id, k);
      AddIdsLabels(AddId(ix, keys[0], clusterLabel, id), keys[1..], clusterLabel, id, k);
      assert k in keys <==> k == keys[0] || k in keys[1..];
    }
  }

  /** A row that is read inserts its node keys into the key order, and its label into the label
      order of each of them; any other row changes neither. */
  lemma ReadRowValid(ix: Index, row: seq<string>, clusterLabel: string, k: string)
    requires IndexValid(ix)
    ensures IndexValid(ReadRow(ix, row, clusterLabel))
    ensures ReadRow(ix, row, clusterLabel).order == InsertAll(ix.order, ReadKeys(row))
    ensures LabelsOf(ReadRow(ix, row, clusterLabel), k)
            == if k in ReadKeys(row) then Insert(LabelsOf(ix, k), clusterLabel) else LabelsOf(ix, k)
  {
    if |row| > 1 && row[0] != "#" {
      AddIdsValid(ix, row[1..], clusterLabel, ClusterId(row[0]));
      AddIdsKeys(ix, row[1..], clusterLabel, ClusterId(row[0]));
      AddIdsLabels(ix, row[1..], clusterLabel, ClusterId(row[0]), k);
    }
  }

  /** Reading a file keeps the index well formed. */
  lemma {:induction false} IndexRowsValid(ix: Index, rows: seq<seq<string>>, clusterLabel: string)
    requires IndexValid(ix)
    ensures IndexValid(IndexRows(ix, rows, clusterLabel))
    decreases rows
  {
    if rows != [] {
      ReadRowValid(ix, rows[0], clusterLabel, "");
      IndexRowsValid(ReadRow(ix, rows[0], clusterLabel), rows[1..], clusterLabel);
    }
  }

  /** A file inserts the node keys of its rows into the key order, row after row. */
  lemma {:induction false} IndexRowsKeys(ix: Index, rows: seq<seq<string>>, clusterLabel: string)
    requires IndexValid(ix)
    ensures IndexRows(ix, rows, clusterLabel).order == InsertAll(ix.order, RowKeys(rows))
    decreases rows
  {
    if rows != [] {
      ReadRowValid(ix, rows[0], clusterLabel, "");
      IndexRowsKeys(ReadRow(ix, rows[0], clusterLabel), rows[1..], clusterLabel);
      InsertAllAppend(ix.order, ReadKeys(rows[0]), RowKeys(rows[1..]));
    }
  }

  /** A file inserts its label into the label order of each node key of its rows. */
  lemma {:induction false} IndexRowsLabels(ix: Index, rows: seq<seq<string>>, clusterLabel: string, k: string)
    requires IndexValid(ix)
    ensures LabelsOf(IndexRows(ix, rows, clusterLabel), k)
            == if k in RowKeys(rows) then Insert(LabelsOf(ix, k), clusterLabel) else LabelsOf(ix, k)
    decreases rows
  {
    if rows != [] {
      ReadRowValid(ix, rows[0], clusterLabel, k);
      IndexRowsLabels(ReadRow(ix, rows[0], clusterLabel), rows[1..], clusterLabel, k);
      assert k in RowKeys(rows) <==> k in ReadKeys(rows[0]) || k in RowKeys(rows[1..]);
    }
  }

  /** The labels of the files that record `key`, in file order. */
  function FileLabels(files: seq<ClusterFile>, key: string): seq<string> {
    if files == [] then []
    else (if key in RowKeys(files[0].rows) then [files[0].clusterLabel] else []) + FileLabels(files[1..], key)
  }

  /** Reading all files keeps the index well formed. */
  lemma {:induction false} BuildIndexValid(ix: Index, files: seq<ClusterFile>)
    requires IndexValid(ix)
    ensures IndexValid(BuildIndex(ix, files))
    decreases files
  {
    if files != [] {
      IndexRowsValid(ix, files[0].rows, files[0].clusterLabel);
      BuildIndexValid(IndexRows(ix, files[0].rows, files[0].clusterLabel), files[1..]);
    }
  }

  /** Reading all files inserts their node keys into the key order, file after file. */
  lemma {:induction false} BuildIndexKeys(ix: Index, files: seq<ClusterFile>)
    requires IndexValid(ix)
    ensures BuildIndex(ix, files).order == InsertAll(ix.order, FileKeys(files))
    decreases files
  {
    if files != [] {
      var rows := files[0].rows;
      IndexRowsValid(ix, rows, files[0].clusterLabel);
      IndexRowsKeys(ix, rows, files[0].clusterLabel);
      BuildIndexKeys(IndexRows(ix, rows, files[0].clusterLabel), files[1..]);
      InsertAllAppend(ix.order, RowKeys(rows), FileKeys(files[1..]));
    }
  }

  /** Reading all files inserts into the label order of a node the labels of the files that
      record it, file after file. */
  lemma {:induction false} BuildIndexLabels(ix: Index, files: seq<ClusterFile>, k: string)
    requires IndexValid(ix)
    ensures LabelsOf(BuildIndex(ix, files), k) == InsertAll(LabelsOf(ix, k), FileLabels(files, k))
    decreases files
  {
    if files != [] {
      var clusterLabel := files[0].clusterLabel;
      var rows := files[0].rows;
      var first := if k in RowKeys(rows) then [clusterLabel] else [];
      IndexRowsValid(ix, rows, clusterLabel);
      IndexRowsLabels(ix, rows, clusterLabel, k);
      BuildIndexLabels(IndexRows(ix, rows, clusterLabel), files[1..], k);
      InsertAllAppend(LabelsOf(ix, k), first, FileLabels(files[1..], k));
      assert first + FileLabels(files[1..], k) == FileLabels(files, k);
    }
  }

  /** `load_cluster_data` builds a well-formed index whose node keys are those of all files, each
      once, in order of first appearance, and which gives each node the labels of the files that
      record it, each once, in file order. */
  lemma ClusterIndexOrder(files: seq<ClusterFile>)
    ensures IndexValid(BuildIndex(EmptyIndex, files))
    ensures BuildIndex(EmptyIndex, files).order == Dedup(FileKeys(files))
    ensures forall k :: LabelsOf(BuildIndex(EmptyIndex, files), k) == Dedup(FileLabels(files, k))
  {
    BuildIndexValid(EmptyIndex, files);
    BuildIndexKeys(EmptyIndex, files);
    InsertAllDedup([], FileKeys(files));
    assert [] + FileKeys(files) == FileKeys(files);
    forall k ensures LabelsOf(BuildIndex(EmptyIndex, files), k) == Dedup(FileLabels(files, k)) {
      BuildIndexLabels(EmptyIndex, files, k);
      InsertAllDedup([], FileLabels(files, k));
      assert [] + FileLabels(files, k) == FileLabels(files, k);
    }
  }

  // ---------------------------------------------------------------- flattening

  /** The ids under `clusterLabel`; none when it is absent. */
  function IdsOf(ids: map<string, seq<string>>, clusterLabel: string): seq<string> {
    if clusterLabel in ids then ids[clusterLabel] else []
  }

  /** Each id of a list prefixed with the label and a colon, in list order. */
  function Tagged(clusterLabel: string, ids: seq<string>): seq<string> {
    seq(|ids|, i requires 0 <= i < |ids| => clusterLabel + ":" + ids[i])
  }

  /** The `clusters` list of one node: the tagged ids of each label, label after label. */
  function Flatten(labels: seq<string>, ids: map<string, seq<string>>): seq<string> {
    if labels == [] then []
    else Flatten(labels[..|labels| - 1], ids) + Tagged(labels[|labels| - 1], IdsOf(ids, labels[|labels| - 1]))
  }

  /** The `clusters` list of the node `key`. */
  function Clusters(ix: Index, key: string): seq<string> {
    if key in ix.entries then Flatten(ix.entries[key].order, ix.entries[key].ids) else []
  }

  /** A node document of the cluster loader. */
  datatype ClusterNode = ClusterNode(key: string, clusters: seq<string>)

  /** The node documents of the keys, in order. */
  function NodesOf(keys: seq<string>, ix: Index): seq<ClusterNode> {
    if keys == [] then []
    else NodesOf(keys[..|keys| - 1], ix) + [ClusterNode(keys[|keys| - 1], Clusters(ix, keys[|keys| - 1]))]
  }

  /** What `load_cluster_data` returns: one node document per indexed key, in key order. */
  function ClusterNodes(ix: Index): seq<ClusterNode> {
    NodesOf(ix.order, ix)
  }

  /** There is one node document per key of the index, in key order, each with that key's
      clusters. */
  lemma {:induction false} NodesOfContract(keys: seq<string>, ix: Index)
    ensures |NodesOf(keys, ix)| == |keys|
    ensures forall i :: 0 <= i < |keys| ==> NodesOf(keys, ix)[i] == ClusterNode(keys[i], Clusters(ix, keys[i]))
  {
    if keys != [] {
      NodesOfContract(keys[..|keys| - 1], ix);
    }
  }

  /** The clusters of a node are grouped by label: flattening two runs of labels is flattening
      each and concatenating. */
  lemma {:induction false} FlattenAppend(a: seq<string>, b: seq<string>, ids: map<string, seq<string>>)
    ensures Flatten(a + b, ids) == Flatten(a, ids) + Flatten(b, ids)
  {
    if b != [] {
      var n := |b| - 1;
      FlattenAppend(a, b[..n], ids);
      assert (a + b)[..|a + b| - 1] == a + b[..n];
      assert (a + b)[|a + b| - 1] == b[n];
    } else {
      assert a + b == a;
    }
  }

  /** A string is among the flattened clusters iff it is some listed label, a colon and one of
      the ids under that label. */
  lemma {:induction false} FlattenMembers(labels: seq<string>, ids: map<string, seq<string>>, s: string)
    ensures s in Flatten(labels, ids) <==>
            exists j, m :: 0 <= j < |labels| && 0 <= m < |IdsOf(ids, labels[j])|
                           && s == labels[j] + ":" + IdsOf(ids, labels[j])[m]
  {
    if labels != [] {
      var n := |labels| - 1;
      var init := labels[..n];
      var last := labels[n];
      var tail := Tagged(last, IdsOf(ids, last));
      FlattenMembers(init, ids, s);
      if s in Flatten(labels, ids) {
        if s in Flatten(init, ids) {
          var j, m :| 0 <= j < |init| && 0 <= m < |IdsOf(ids, init[j])| && s == init[j] + ":" + IdsOf(ids, init[j])[m];
          assert labels[j] == init[j];
        } else {
          assert s in tail;
          var m :| 0 <= m < |tail| && tail[m] == s;
          assert s == labels[n] + ":" + IdsOf(ids, labels[n])[m];
        }
      } else {
        forall j, m | 0 <= j < |labels| && 0 <= m < |IdsOf(ids, labels[j])|
          ensures s != labels[j] + ":" + IdsOf(ids, labels[j])[m]
        {
          if j < n {
            assert labels[j] == init[j];
          } else {
            assert tail[m] == labels[j] + ":" + IdsOf(ids, labels[j])[m];
          }
        }
      }
    }
  }

  /** The clusters of a node are exactly the strings `label:id` for a label recorded for it and
      an id in that label's list. */
  lemma ClustersMembers(ix: Index, key: string, s: string)
    ensures s in Clusters(ix, key) <==>
            exists j, m :: 0 <= j < |LabelsOf(ix, key)| && 0 <= m < |Lookup(ix, key, LabelsOf(ix, key)[j])|
                           && s == LabelsOf(ix, key)[j] + ":" + Lookup(ix, key, LabelsOf(ix, key)[j])[m]
  {
    if key in ix.entries {
      var inner := ix.entries[key];
      var labels := LabelsOf(ix, key);
      assert labels == inner.order;
      FlattenMembers(inner.order, inner.ids, s);
      if s in Clusters(ix, key) {
        var j, m :| 0 <= j < |inner.order| && 0 <= m < |IdsOf(inner.ids, inner.order[j])|
                    && s == inner.order[j] + ":" + IdsOf(inner.ids, inner.order[j])[m];
        assert IdsOf(inner.ids, labels[j]) == Lookup(ix, key, labels[j]);
      } else {
        forall j, m | 0 <= j < |labels| && 0 <= m < |Lookup(ix, key, labels[j])|
          ensures s != labels[j] + ":" + Lookup(ix, key, labels[j])[m]
        {
          assert IdsOf(inner.ids, labels[j]) == Lookup(ix, key, labels[j]);
        }
      }
    }
  }

  // ---------------------------------------------------------------- the loader

  /** `node_ix`, updated in place: its keys in insertion order and its entries. */
  class NodeIndex {
    var order: seq<string>
    var entries: map<string, Labels>

    /** The index as a value. */
    function Value(): Index
      reads this
    {
      Index(order, entries)
    }

    /** The index starts with no keys. */
    constructor ()
      ensures Value() == EmptyIndex
    {
      order := [];
      entries := map[];
    }
  }

  /** `_parse_cluster_row`: records the row in `ix` in place. */
  method ParseClusterRow(row: seq<string>, clusterLabel: string, ix: NodeIndex)
    requires |row| >= 1
    modifies ix
    ensures ix.Value() == AddRow(old(ix.Value()), row, clusterLabel)
  {
    if row[0] != "#" {
      var clusterId := ClusterId(row[0]);
      var nodeKeys := row[1..];
      var i := 0;
      while i < |nodeKeys|
        invariant 0 <= i <= |nodeKeys|
        invariant AddIds(ix.Value(), nodeKeys[i..], clusterLabel, clusterId) == AddRow(old(ix.Value()), row, clusterLabel)
      {
        ghost var before := ix.Value();
        var key := nodeKeys[i];
        if key !in ix.entries {
          ix.entries := ix.entries[key := Labels([], map[])];
          ix.order := ix.order + [key];
        }
        assert ix.Value() == WithKey(before, key);
        var inner := ix.entries[key];
        if clusterLabel !in inner.ids {
          inner := Labels(inner.order + [clusterLabel], inner.ids[clusterLabel := []]);
        }
        assert inner == WithLabel(ix.entries[key], clusterLabel);
        inner := Labels(inner.order, inner.ids[clusterLabel := inner.ids[clusterLabel] + [clusterId]]);
        ix.entries := ix.entries[key := inner];
        assert nodeKeys[i..][1..] == nodeKeys[i + 1..];
        i := i + 1;
      }
    }
  }

  /** The inner loops of `load_cluster_data`: the tagged ids of each label, label after label. */
  method TagClusters(clusterData: Labels) returns (clusters: seq<string>)
    requires LabelsValid(clusterData)
    ensures clusters == Flatten(clusterData.order, clusterData.ids)
  {
    clusters := [];
    var j := 0;
    while j < |clusterData.order|
      invariant 0 <= j <= |clusterData.order|
      invariant clusters == Flatten(clusterData.order[..j], clusterData.ids)
    {
      var l := clusterData.order[j];
      clusters := clusters + Tagged(l, clusterData.ids[l]);
      assert clusterData.order[..j + 1][..j] == clusterData.order[..j];
      j := j + 1;
    }
    assert clusterData.order[..j] == clusterData.order;
  }

  /** The file loop of `load_cluster_data`: every row with more than one cell goes through
      `_parse_cluster_row`, file after file. */
  method ReadClusterFiles(files: seq<ClusterFile>, ix: NodeIndex)
    modifies ix
    ensures ix.Value() == BuildIndex(old(ix.Value()), files)
  {
    var f := 0;
    while f < |files|
      invariant 0 <= f <= |files|
      invariant BuildIndex(ix.Value(), files[f..]) == BuildIndex(old(ix.Value()), files)
    {
      var clusterLabel := files[f].clusterLabel;
      var rows := files[f].rows;
      var r := 0;
      while r < |rows|
        invariant 0 <= r <= |rows|
        invariant BuildIndex(IndexRows(ix.Value(), rows[r..], clusterLabel), files[f + 1..])
                  == BuildIndex(old(ix.Value()), files)
      {
        if |rows[r]| > 1 {
          ParseClusterRow(rows[r], clusterLabel, ix);
        }
        assert rows[r..][1..] == rows[r + 1..];
        r := r + 1;
      }
      assert files[f..][1..] == files[f + 1..];
      f := f + 1;
    }
    assert files[f..] == [];
  }

  /** `load_cluster_data`: reads every file into a fresh index, then lists each indexed node
      with its clusters. */
  method LoadClusterData(files: seq<ClusterFile>) returns (nodes: seq<ClusterNode>)
    ensures nodes == ClusterNodes(BuildIndex(EmptyIndex, files))
  {
    var ix := new NodeIndex();
    ReadClusterFiles(files, ix);
    var index := ix.Value();
    BuildIndexValid(EmptyIndex, files);
    nodes := [];
    var i := 0;
    while i < |index.order|
      invariant 0 <= i <= |index.order|
      invariant nodes == NodesOf(index.order[..i], index)
    {
      var key := index.order[i];
      assert key in index.entries && LabelsValid(index.entries[key]);
      var clusters := TagClusters(index.entries[key]);
      nodes := nodes + [ClusterNode(key, clusters)];
      assert index.order[..i + 1][..i] == index.order[..i];
      i := i + 1;
    }
    assert index.order[..i] == index.order;
  }
}
