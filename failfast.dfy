/** The shape shared by the three passes of the validation engine: definitions are checked one
    after another against the set of names accepted so far in the same pass, and the first fatal
    error ends the pass. */
module FailFast {
  import opened Wrappers

  /** The names that the files `fs` contribute to a pass's accumulator. */
  function KeysOf<F>(fs: seq<F>, key: F -> string): set<string> {
    set j | 0 <= j < |fs| :: key(fs[j])
  }

  /** The accumulator grows by exactly one name per accepted file. */
  lemma KeysOfSnoc<F>(fs: seq<F>, i: nat, key: F -> string)
    requires i < |fs|
    ensures KeysOf(fs[..i + 1], key) == KeysOf(fs[..i], key) + {key(fs[i])}
  {
    var a, b := KeysOf(fs[..i + 1], key), KeysOf(fs[..i], key) + {key(fs[i])};
    forall x | x in a ensures x in b {
      var j :| 0 <= j < i + 1 && key(fs[..i + 1][j]) == x;
      if j < i { assert fs[..i][j] == fs[j]; }
    }
    forall x | x in b ensures x in a {
      if x == key(fs[i]) {
        assert fs[..i + 1][i] == fs[i];
      } else {
        var j :| 0 <= j < i && key(fs[..i][j]) == x;
        assert fs[..i + 1][j] == fs[j];
      }
    }
  }

  /** The file at the head of a pass contributes its name first. */
  lemma KeysOfCons<F>(fs: seq<F>, i: nat, key: F -> string)
    requires 0 < |fs| && i < |fs|
    ensures KeysOf(fs[..i + 1], key) == {key(fs[0])} + KeysOf(fs[1..][..i], key)
  {
    var a, b := KeysOf(fs[..i + 1], key), {key(fs[0])} + KeysOf(fs[1..][..i], key);
    forall x | x in a ensures x in b {
      var j :| 0 <= j < i + 1 && key(fs[..i + 1][j]) == x;
      if j > 0 { assert fs[1..][..i][j - 1] == fs[j]; }
    }
    forall x | x in b ensures x in a {
      if x == key(fs[0]) {
        assert fs[..i + 1][0] == fs[0];
      } else {
        var j :| 0 <= j < i && key(fs[1..][..i][j]) == x;
        assert fs[..i + 1][j + 1] == fs[1..][..i][j];
      }
    }
  }

  /** A pass over `fs` that starts with the accumulator `names`: each file is checked against the
      names accepted before it; an accepted file adds its name; the first failure is the outcome. */
  function RunPass<F, E>(fs: seq<F>, names: set<string>,
                         check: (F, set<string>) -> Outcome<E>, key: F -> string): Outcome<E>
    decreases |fs|
  {
    if fs == [] then Pass
    else
      match check(fs[0], names)
      case Fail(e) => Fail(e)
      case Pass => RunPass(fs[1..], names + {key(fs[0])}, check, key)
  }

  /** The accumulator that the file at position `i` is checked against. */
  function NamesBefore<F>(fs: seq<F>, i: nat, names: set<string>, key: F -> string): set<string>
    requires i <= |fs|
  {
    names + KeysOf(fs[..i], key)
  }

  /** A pass over two files whose first is accepted and whose second then fails. */
  lemma PairFails<F, E>(a: F, b: F, check: (F, set<string>) -> Outcome<E>, key: F -> string, e: E)
    requires check(a, {}) == Pass && check(b, {key(a)}) == Fail(e)
    ensures RunPass([a, b], {}, check, key) == Fail(e)
  {
    assert [a, b][0] == a && [a, b][1..] == [b] && [b][1..] == [];
    assert {} + {key(a)} == {key(a)};
  }

  /** A pass succeeds exactly when every file passes its check against the names of all the files
      before it. */
  lemma {:induction false} PassIff<F, E>(fs: seq<F>, names: set<string>,
                                         check: (F, set<string>) -> Outcome<E>, key: F -> string)
    ensures RunPass(fs, names, check, key).Pass? <==>
            forall i :: 0 <= i < |fs| ==> check(fs[i], NamesBefore(fs, i, names, key)).Pass?
    decreases |fs|
  {
    if fs != [] {
      assert fs[..0] == [];
      assert NamesBefore(fs, 0, names, key) == names;
      var names' := names + {key(fs[0])};
      PassIff(fs[1..], names', check, key);
      forall i | 0 <= i < |fs| - 1
        ensures NamesBefore(fs, i + 1, names, key) == NamesBefore(fs[1..], i, names', key)
      {
        KeysOfCons(fs, i, key);
      }
      if check(fs[0], names).Pass? {
        if forall i :: 0 <= i < |fs[1..]| ==> check(fs[1..][i], NamesBefore(fs[1..], i, names', key)).Pass? {
          forall i | 0 <= i < |fs| ensures check(fs[i], NamesBefore(fs, i, names, key)).Pass? {
            if i > 0 { assert fs[1..][i - 1] == fs[i]; }
          }
        } else {
          var i :| 0 <= i < |fs[1..]| && !check(fs[1..][i], NamesBefore(fs[1..], i, names', key)).Pass?;
          assert !check(fs[i + 1], NamesBefore(fs, i + 1, names, key)).Pass?;
        }
      }
    }
  }

  /** The file at position `i + 1` of a pass is checked against what the file at position `i` of
      the rest of the pass is checked against, once the head's name is accepted. */
  lemma NamesBeforeTail<F>(fs: seq<F>, i: nat, names: set<string>, key: F -> string)
    requires i < |fs| - 1
    ensures fs[1..][i] == fs[i + 1]
    ensures NamesBefore(fs, i + 1, names, key) == NamesBefore(fs[1..], i, names + {key(fs[0])}, key)
  {
    KeysOfCons(fs, i, key);
  }

  /** A failed pass has a first failing file, and its error is the outcome. */
  lemma {:induction false} FailFound<F, E>(fs: seq<F>, names: set<string>,
                                           check: (F, set<string>) -> Outcome<E>, key: F -> string, e: E)
    requires RunPass(fs, names, check, key) == Fail(e)
    ensures exists k :: 0 <= k < |fs|
                        && (forall i :: 0 <= i < k ==> check(fs[i], NamesBefore(fs, i, names, key)).Pass?)
                        && check(fs[k], NamesBefore(fs, k, names, key)) == Fail(e)
    decreases |fs|
  {
    assert fs[..0] == [];
    assert NamesBefore(fs, 0, names, key) == names;
    if check(fs[0], names).Pass? {
      var names' := names + {key(fs[0])};
      FailFound(fs[1..], names', check, key, e);
      var k :| 0 <= k < |fs[1..]|
               && (forall i :: 0 <= i < k ==> check(fs[1..][i], NamesBefore(fs[1..], i, names', key)).Pass?)
               && check(fs[1..][k], NamesBefore(fs[1..], k, names', key)) == Fail(e);
      forall i | 0 <= i < k + 1 ensures check(fs[i], NamesBefore(fs, i, names, key)).Pass? {
        if i > 0 { NamesBeforeTail(fs, i - 1, names, key); }
      }
      NamesBeforeTail(fs, k, names, key);
      assert check(fs[k + 1], NamesBefore(fs, k + 1, names, key)) == Fail(e);
    }
  }

  /** A file that fails with `e` while every file before it passed makes the pass fail with `e`. */
  lemma {:induction false} FailAt<F, E>(fs: seq<F>, names: set<string>,
                                        check: (F, set<string>) -> Outcome<E>, key: F -> string, e: E, k: nat)
    requires k < |fs|
    requires forall i :: 0 <= i < k ==> check(fs[i], NamesBefore(fs, i, names, key)).Pass?
    requires check(fs[k], NamesBefore(fs, k, names, key)) == Fail(e)
    ensures RunPass(fs, names, check, key) == Fail(e)
    decreases k
  {
    assert fs[..0] == [];
    assert NamesBefore(fs, 0, names, key) == names;
    if k > 0 {
      var names' := names + {key(fs[0])};
      assert check(fs[0], names).Pass?;
      forall i | 0 <= i < k - 1 ensures check(fs[1..][i], NamesBefore(fs[1..], i, names', key)).Pass? {
        NamesBeforeTail(fs, i, names, key);
      }
      NamesBeforeTail(fs, k - 1, names, key);
      FailAt(fs[1..], names', check, key, e, k - 1);
    }
  }

  /** A pass fails with `e` exactly when some file fails with `e` while every file before it
      passed: the first fatal error is the one reported. */
  lemma FailIff<F, E>(fs: seq<F>, names: set<string>,
                      check: (F, set<string>) -> Outcome<E>, key: F -> string, e: E)
    ensures RunPass(fs, names, check, key) == Fail(e) <==>
            exists k :: 0 <= k < |fs|
                        && (forall i :: 0 <= i < k ==> check(fs[i], NamesBefore(fs, i, names, key)).Pass?)
                        && check(fs[k], NamesBefore(fs, k, names, key)) == Fail(e)
  {
    if RunPass(fs, names, check, key) == Fail(e) {
      FailFound(fs, names, check, key, e);
    }
    if exists k :: 0 <= k < |fs|
                   && (forall i :: 0 <= i < k ==> check(fs[i], NamesBefore(fs, i, names, key)).Pass?)
                   && check(fs[k], NamesBefore(fs, k, names, key)) == Fail(e) {
      var k :| 0 <= k < |fs|
               && (forall i :: 0 <= i < k ==> check(fs[i], NamesBefore(fs, i, names, key)).Pass?)
               && check(fs[k], NamesBefore(fs, k, names, key)) == Fail(e);
      FailAt(fs, names, check, key, e, k);
    }
  }

  /** Once a pass has failed, the files after it are never examined. */
  lemma {:induction false} StopsAtFailure<F, E>(a: seq<F>, b: seq<F>, names: set<string>,
                                                check: (F, set<string>) -> Outcome<E>, key: F -> string)
    requires RunPass(a, names, check, key).Fail?
    ensures RunPass(a + b, names, check, key) == RunPass(a, names, check, key)
    decreases |a|
  {
    assert (a + b)[0] == a[0];
    if check(a[0], names).Pass? {
      assert (a + b)[1..] == a[1..] + b;
      StopsAtFailure(a[1..], b, names + {key(a[0])}, check, key);
    }
  }

  /** If a file fails its check whenever its name was already accepted, a second file with the
      name of an earlier one makes the pass fail. */
  lemma RepeatedNameFails<F, E>(fs: seq<F>, names: set<string>,
                                check: (F, set<string>) -> Outcome<E>, key: F -> string, i: nat, j: nat)
    requires i < j < |fs| && key(fs[i]) == key(fs[j])
    requires forall ns :: key(fs[j]) in ns ==> check(fs[j], ns).Fail?
    ensures RunPass(fs, names, check, key).Fail?
  {
    PassIff(fs, names, check, key);
    assert fs[..j][i] == fs[i];
    assert key(fs[j]) in NamesBefore(fs, j, names, key);
  }
}
