/** Facts about sequences used by both components: duplicate-free sequences, the key order that
    an insertion-ordered dictionary keeps, occurrence counts. */
module Seqs {

  /** No element occurs twice. */
  predicate Distinct<T(==)>(s: seq<T>) {
    forall i, j :: 0 <= i < j < |s| ==> s[i] != s[j]
  }

  /** The elements of `s`, each once, in order of first appearance: the key order of a Python
      dictionary into which the elements of `s` are inserted one after another. */
  function Dedup<T(==)>(s: seq<T>): seq<T> {
    if s == [] then []
    else
      var init := Dedup(s[..|s| - 1]);
      if s[|s| - 1] in init then init else init + [s[|s| - 1]]
  }

  /** Dedup holds every element of `s` and nothing else, each once. */
  lemma {:induction false} DedupContract<T>(s: seq<T>)
    ensures Distinct(Dedup(s))
    ensures forall x :: x in Dedup(s) ==> x in s
    ensures forall x :: x in s ==> x in Dedup(s)
  {
    if s != [] {
      var n := |s| - 1;
      DedupContract(s[..n]);
      assert s == s[..n] + [s[n]];
    }
  }

  /** The position of the first occurrence of `x` in `s`. */
  function FirstIndex<T(==)>(s: seq<T>, x: T): (i: nat)
    requires x in s
    ensures i < |s| && s[i] == x
    ensures forall k :: 0 <= k < i ==> s[k] != x
  {
    if s[0] == x then 0 else 1 + FirstIndex(s[1..], x)
  }

  /** Appending at the end does not move the first occurrence of an element already present. */
  lemma FirstIndexPrefix<T>(s: seq<T>, n: nat, x: T)
    requires n <= |s| && x in s[..n]
    ensures x in s && FirstIndex(s, x) == FirstIndex(s[..n], x)
  {
    var i := FirstIndex(s[..n], x);
    assert forall k :: 0 <= k < i ==> s[k] == s[..n][k] != x;
    assert s[i] == x;
  }

  /** Inserting one more element appends it unless it is already present. */
  lemma DedupSnoc<T>(s: seq<T>, x: T)
    ensures Dedup(s + [x]) == if x in Dedup(s) then Dedup(s) else Dedup(s) + [x]
  {
    assert (s + [x])[..|s|] == s;
  }

  /** Dedup keeps the order of first appearance. */
  lemma {:induction false} DedupFirstSeenOrder<T>(s: seq<T>, i: nat, j: nat)
    requires i < j < |Dedup(s)|
    ensures Dedup(s)[i] in s && Dedup(s)[j] in s
    ensures FirstIndex(s, Dedup(s)[i]) < FirstIndex(s, Dedup(s)[j])
  {
    var n := |s| - 1;
    var init := Dedup(s[..n]);
    var d := Dedup(s);
    DedupContract(s);
    DedupContract(s[..n]);
    assert d[i] in d && d[j] in d;
    if s[n] in init {
      assert d == init;
      DedupFirstSeenOrder(s[..n], i, j);
      FirstIndexPrefix(s, n, d[i]);
      FirstIndexPrefix(s, n, d[j]);
    } else {
      assert d == init + [s[n]];
      assert d[i] == init[i] && init[i] in init;
      assert init[i] in s[..n];
      FirstIndexPrefix(s, n, d[i]);
      if j < |init| {
        assert d[j] == init[j] && init[j] in init;
        DedupFirstSeenOrder(s[..n], i, j);
        FirstIndexPrefix(s, n, d[j]);
      } else {
        assert d[j] == s[n] && s[n] !in s[..n];
        assert FirstIndex(s[..n], d[i]) < n;
      }
    }
  }

  /** A sequence that already has no duplicates is its own Dedup. */
  lemma {:induction false} DedupDistinct<T>(s: seq<T>)
    requires Distinct(s)
    ensures Dedup(s) == s
  {
    if s != [] {
      var n := |s| - 1;
      assert Distinct(s[..n]);
      DedupDistinct(s[..n]);
      assert s[n] !in s[..n];
      assert s[..n] + [s[n]] == s;
    }
  }

  /** Inserting the elements of `a` and then those of `b` gives the same key order whether or not
      the duplicates of `a` were first removed. */
  lemma {:induction false} DedupAppend<T>(a: seq<T>, b: seq<T>)
    ensures Dedup(Dedup(a) + b) == Dedup(a + b)
  {
    if b == [] {
      DedupContract(a);
      assert Dedup(a) + b == Dedup(a);
      assert a + b == a;
      DedupDistinct(Dedup(a));
    } else {
      var m := |b| - 1;
      DedupAppend(a, b[..m]);
      assert (Dedup(a) + b)[..|Dedup(a) + b| - 1] == Dedup(a) + b[..m];
      assert (a + b)[..|a + b| - 1] == a + b[..m];
    }
  }

  /** The key order of a dictionary after `x` is inserted: unchanged if `x` is already a key,
      else `x` at the end. */
  function Insert<T(==)>(s: seq<T>, x: T): seq<T> {
    if x in s then s else s + [x]
  }

  /** Inserting keeps an order free of duplicates. */
  lemma InsertDistinct<T>(s: seq<T>, x: T)
    requires Distinct(s)
    ensures Distinct(Insert(s, x))
  {
  }

  /** The key order after the elements of `xs` are inserted one after another. */
  function InsertAll<T(==)>(s: seq<T>, xs: seq<T>): seq<T>
    decreases xs
  {
    if xs == [] then s else InsertAll(Insert(s, xs[0]), xs[1..])
  }

  /** Inserting `a + b` is inserting `a` and then `b`. */
  lemma {:induction false} InsertAllAppend<T>(s: seq<T>, a: seq<T>, b: seq<T>)
    ensures InsertAll(s, a + b) == InsertAll(InsertAll(s, a), b)
    decreases a
  {
    if a == [] {
      assert a + b == b;
    } else {
      assert (a + b)[0] == a[0] && (a + b)[1..] == a[1..] + b;
      InsertAllAppend(Insert(s, a[0]), a[1..], b);
    }
  }

  /** Inserting into a duplicate-free order gives the elements, each once, in order of first
      appearance. */
  lemma {:induction false} InsertAllDedup<T>(s: seq<T>, xs: seq<T>)
    requires Distinct(s)
    ensures InsertAll(s, xs) == Dedup(s + xs)
    decreases xs
  {
    if xs == [] {
      assert s + xs == s;
      DedupDistinct(s);
    } else {
      var next := Insert(s, xs[0]);
      InsertDistinct(s, xs[0]);
      assert next == Dedup(s + [xs[0]]) by {
        DedupDistinct(s);
        DedupSnoc(s, xs[0]);
      }
      assert InsertAll(s, xs) == InsertAll(next, xs[1..]);
      InsertAllDedup(next, xs[1..]);
      DedupAppend(s + [xs[0]], xs[1..]);
      AppendHead(s, xs);
      assert InsertAll(s, xs) == Dedup(Dedup(s + [xs[0]]) + xs[1..]);
    }
  }

  /** Moving the head of `xs` onto the end of `s` keeps the concatenation. */
  lemma AppendHead<T>(s: seq<T>, xs: seq<T>)
    requires xs != []
    ensures s + [xs[0]] + xs[1..] == s + xs
  {
    assert [xs[0]] + xs[1..] == xs;
  }

  /** The number of occurrences of `x` in `s`. */
  function Count<T(==)>(s: seq<T>, x: T): (n: nat)
    ensures n <= |s|
    ensures n == 0 <==> x !in s
  {
    if s == [] then 0 else (if s[0] == x then 1 else 0) + Count(s[1..], x)
  }

  /** `n` copies of `x`. */
  function Repeat<T>(x: T, n: nat): (r: seq<T>)
    ensures |r| == n
    ensures forall i :: 0 <= i < n ==> r[i] == x
  {
    if n == 0 then [] else [x] + Repeat(x, n - 1)
  }
}
