/**
 * Python dictionaries with string keys where their insertion order matters,
 * as lists of key-value pairs: reading a key, and storing under a key, which
 * keeps an existing key in place and puts a new one last.
 */
module Dicts {
  import opened Wrappers

  /** The keys of an ordered dictionary. */
  function KeysOf<V>(m: seq<(string, V)>): set<string>
  {
    set i | 0 <= i < |m| :: m[i].0
  }

  /** No key occurs twice, as in a Python dictionary. */
  predicate DistinctKeys<V>(m: seq<(string, V)>)
  {
    forall i, j :: 0 <= i < j < |m| ==> m[i].0 != m[j].0
  }

  /** `d.get(k)`: the value stored under `k`. */
  function Get<V>(m: seq<(string, V)>, k: string): (r: Option<V>)
    ensures r.Some? <==> k in KeysOf(m)
  {
    if m == [] then None
    else if m[0].0 == k then Some(m[0].1)
    else
      assert KeysOf(m) == {m[0].0} + KeysOf(m[1..]) by {
        assert forall i :: 1 <= i < |m| ==> m[i].0 == m[1..][i - 1].0;
      }
      Get(m[1..], k)
  }

  /** `d[k] = v`: an existing key keeps its place, a new key goes last. */
  function Put<V>(m: seq<(string, V)>, k: string, v: V): (r: seq<(string, V)>)
  {
    if m == [] then [(k, v)]
    else if m[0].0 == k then [(k, v)] + m[1..]
    else [m[0]] + Put(m[1..], k, v)
  }

  lemma KeysOfCons<V>(m: seq<(string, V)>)
    requires m != []
    ensures KeysOf(m) == {m[0].0} + KeysOf(m[1..])
  {
    assert forall i :: 1 <= i < |m| ==> m[i].0 == m[1..][i - 1].0;
  }

  lemma KeysOfSnoc<V>(m: seq<(string, V)>)
    requires m != []
    ensures KeysOf(m) == KeysOf(m[..|m| - 1]) + {m[|m| - 1].0}
  {
    var init := m[..|m| - 1];
    forall k | k in KeysOf(m) ensures k in KeysOf(init) + {m[|m| - 1].0} {
      var i :| 0 <= i < |m| && m[i].0 == k;
      if i < |init| { assert init[i].0 == k; }
    }
    forall k | k in KeysOf(init) ensures k in KeysOf(m) {
      var i :| 0 <= i < |init| && init[i].0 == k;
      assert m[i].0 == k;
    }
  }

  /** Without its last entry a dictionary still has distinct keys, none of them the last entry's. */
  lemma DistinctInit<V>(m: seq<(string, V)>)
    requires m != [] && DistinctKeys(m)
    ensures DistinctKeys(m[..|m| - 1])
    ensures m[|m| - 1].0 !in KeysOf(m[..|m| - 1])
  {
    var init := m[..|m| - 1];
    forall i | 0 <= i < |init| ensures init[i].0 != m[|m| - 1].0 {
      assert init[i] == m[i];
    }
  }

  /** Storing a value makes it the one read back under its key and leaves every other key alone. */
  lemma {:induction false} PutSpec<V>(m: seq<(string, V)>, k: string, v: V)
    ensures KeysOf(Put(m, k, v)) == KeysOf(m) + {k}
    ensures Get(Put(m, k, v), k) == Some(v)
    ensures forall k' :: k' != k ==> Get(Put(m, k, v), k') == Get(m, k')
    ensures k !in KeysOf(m) ==> Put(m, k, v) == m + [(k, v)]
  {
    var r := Put(m, k, v);
    KeysOfCons(r);
    if m != [] {
      KeysOfCons(m);
      if m[0].0 != k {
        assert r[1..] == Put(m[1..], k, v);
        PutSpec(m[1..], k, v);
      } else {
        assert r[1..] == m[1..];
      }
    }
  }

  /** Storing into a dictionary keeps its keys distinct. */
  lemma {:induction false} PutDistinct<V>(m: seq<(string, V)>, k: string, v: V)
    requires DistinctKeys(m)
    ensures DistinctKeys(Put(m, k, v))
  {
    var r := Put(m, k, v);
    if m != [] {
      if m[0].0 != k {
        PutSpec(m[1..], k, v);
        PutDistinct(m[1..], k, v);
        KeysOfCons(m);
        forall i, j | 0 <= i < j < |r| ensures r[i].0 != r[j].0 {
          if i == 0 {
            assert r[1..] == Put(m[1..], k, v);
            assert r[j].0 == r[1..][j - 1].0;
            assert r[1..][j - 1].0 in KeysOf(r[1..]);
            assert m[0].0 !in KeysOf(m[1..]) by {
              forall t | 0 <= t < |m[1..]| ensures m[1..][t].0 != m[0].0 {
                assert m[1..][t] == m[t + 1];
              }
            }
          } else {
            assert r[i] == r[1..][i - 1] && r[j] == r[1..][j - 1];
          }
        }
      } else {
        forall i, j | 0 <= i < j < |r| ensures r[i].0 != r[j].0 {
          assert r[i].0 == m[i].0 && r[j].0 == m[j].0;
        }
      }
    }
  }

  lemma {:induction false} PutLength<V>(m: seq<(string, V)>, k: string, v: V)
    ensures |Put(m, k, v)| <= |m| + 1
  {
    if m != [] && m[0].0 != k {
      PutLength(m[1..], k, v);
    }
  }

  /** The sum of the counters of a counting dictionary. */
  function SumValues(m: seq<(string, nat)>): nat
  {
    if m == [] then 0 else m[0].1 + SumValues(m[1..])
  }

  /** `d[k] = d.get(k, 0) + 1`. */
  function Increment(m: seq<(string, nat)>, k: string): seq<(string, nat)>
  {
    Put(m, k, Get(m, k).GetOr(0) + 1)
  }

  /** The counting dictionary a loop of `Increment`s builds over `ks`, in first-seen order. */
  function Tally(ks: seq<string>): seq<(string, nat)>
  {
    if ks == [] then [] else Increment(Tally(ks[..|ks| - 1]), ks[|ks| - 1])
  }

  /** How often `k` occurs in `ks`. */
  function Occurrences(ks: seq<string>, k: string): nat
  {
    if ks == [] then 0
    else Occurrences(ks[..|ks| - 1], k) + (if ks[|ks| - 1] == k then 1 else 0)
  }

  /** Storing `v` under `k` trades the counter it replaces, if any, for `v`. */
  lemma {:induction false} PutSum(m: seq<(string, nat)>, k: string, v: nat)
    ensures SumValues(Put(m, k, v)) + Get(m, k).GetOr(0) == SumValues(m) + v
  {
    if m != [] && m[0].0 != k {
      var r := Put(m, k, v);
      assert r[1..] == Put(m[1..], k, v);
      PutSum(m[1..], k, v);
    } else if m != [] {
      assert Put(m, k, v)[1..] == m[1..];
    }
  }

  /** The tally keeps one counter per distinct key. */
  lemma {:induction false} TallyDistinct(ks: seq<string>)
    ensures DistinctKeys(Tally(ks))
  {
    if ks != [] {
      var t := Tally(ks[..|ks| - 1]);
      TallyDistinct(ks[..|ks| - 1]);
      PutDistinct(t, ks[|ks| - 1], Get(t, ks[|ks| - 1]).GetOr(0) + 1);
    }
  }

  /** Each counter of the tally is the number of occurrences of its key. */
  lemma {:induction false} TallyCounts(ks: seq<string>, k: string)
    ensures Get(Tally(ks), k).GetOr(0) == Occurrences(ks, k)
    ensures k in KeysOf(Tally(ks)) <==> Occurrences(ks, k) > 0
  {
    if ks != [] {
      var last := ks[|ks| - 1];
      var t := Tally(ks[..|ks| - 1]);
      TallyCounts(ks[..|ks| - 1], k);
      PutGet(t, last, Get(t, last).GetOr(0) + 1, k);
    }
  }

  /** Reading `k` after storing under `key`. */
  lemma PutGet<V>(m: seq<(string, V)>, key: string, v: V, k: string)
    ensures Get(Put(m, key, v), k) == if k == key then Some(v) else Get(m, k)
    ensures Get(Put(m, key, v), k).Some? <==> k in KeysOf(m) || k == key
  {
    PutSpec(m, key, v);
  }

  /** The counters add up to the number of keys counted. */
  lemma {:induction false} TallySum(ks: seq<string>)
    ensures SumValues(Tally(ks)) == |ks|
  {
    if ks != [] {
      var last := ks[|ks| - 1];
      var t := Tally(ks[..|ks| - 1]);
      TallySum(ks[..|ks| - 1]);
      PutSum(t, last, Get(t, last).GetOr(0) + 1);
    }
  }
}
