/** Sequence operations behind the source's array idioms: `slice(0, n)`,
    `filter`, and first-occurrence de-duplication (`[...new Set(xs)]`, or a
    `seen` set beside an output array). */
module Seqs {

  /** `s.slice(0, n)`: the first `n` elements, or all of them if fewer. */
  function Take<T>(s: seq<T>, n: nat): (r: seq<T>)
    ensures |r| == if |s| < n then |s| else n
    ensures r == s[..|r|]
  {
    if |s| <= n then s else s[..n]
  }

  /** `s.filter(keep)`: the elements that satisfy `keep`, in their order. */
  function Filter<T(!new)>(s: seq<T>, keep: T -> bool): (r: seq<T>)
    ensures |r| <= |s|
    decreases |s|
  {
    if |s| == 0 then []
    else Filter(s[..|s| - 1], keep) + (if keep(s[|s| - 1]) then [s[|s| - 1]] else [])
  }

  /** An element is kept exactly when it occurs and satisfies `keep`. */
  lemma {:induction false} FilterMembers<T(!new)>(s: seq<T>, keep: T -> bool)
    ensures forall x :: x in Filter(s, keep) <==> x in s && keep(x)
    decreases |s|
  {
    if |s| > 0 {
      FilterMembers(s[..|s| - 1], keep);
      assert s == s[..|s| - 1] + [s[|s| - 1]];
    }
  }

  lemma FilterSnoc<T(!new)>(s: seq<T>, x: T, keep: T -> bool)
    ensures keep(x) ==> Filter(s + [x], keep) == Filter(s, keep) + [x]
    ensures !keep(x) ==> Filter(s + [x], keep) == Filter(s, keep)
  {
    assert (s + [x])[..|s|] == s;
  }

  /** Filtering keeps an element exactly when its predicate holds, so one that
      every element satisfies changes nothing. */
  lemma {:induction false} FilterAll<T(!new)>(s: seq<T>, keep: T -> bool)
    requires forall i :: 0 <= i < |s| ==> keep(s[i])
    ensures Filter(s, keep) == s
    decreases |s|
  {
    if |s| > 0 {
      FilterAll(s[..|s| - 1], keep);
      assert s[..|s| - 1] + [s[|s| - 1]] == s;
    }
  }

  // ---------------------------------------------------------------- keys

  /** The keys of the elements of `s` (a `Set` of ids). */
  function KeysOf<T, K(==)>(s: seq<T>, key: T -> K): set<K> {
    set i | 0 <= i < |s| :: key(s[i])
  }

  lemma KeysOfSnoc<T(!new), K>(s: seq<T>, x: T, key: T -> K)
    ensures KeysOf(s + [x], key) == KeysOf(s, key) + {key(x)}
  {
    var t := s + [x];
    assert key(t[|s|]) == key(x);
    forall k | k in KeysOf(s, key) ensures k in KeysOf(t, key) {
      var i :| 0 <= i < |s| && key(s[i]) == k;
      assert t[i] == s[i];
    }
  }

  /** No two elements of `s` share a key. */
  predicate DistinctKeys<T, K(==)>(s: seq<T>, key: T -> K) {
    forall i, j :: 0 <= i < j < |s| ==> key(s[i]) != key(s[j])
  }

  /** The elements of `s` whose key has not occurred earlier, in order:
      what a loop computes that pushes an element only when its key is not in
      a `seen` set, and then adds the key to `seen`. */
  function DedupBy<T(!new), K(==)>(s: seq<T>, key: T -> K): (r: seq<T>)
    ensures |r| <= |s|
    decreases |s|
  {
    if |s| == 0 then []
    else
      var p, x := s[..|s| - 1], s[|s| - 1];
      var d := DedupBy(p, key);
      if key(x) in KeysOf(p, key) then d else d + [x]
  }

  /** The de-duplication has distinct keys, the same keys as its input, and
      only elements of its input. */
  lemma {:induction false} DedupByKeys<T(!new), K>(s: seq<T>, key: T -> K)
    ensures var r := DedupBy(s, key);
      DistinctKeys(r, key) && KeysOf(r, key) == KeysOf(s, key) && forall x :: x in r ==> x in s
    decreases |s|
  {
    if |s| > 0 {
      var p, x := s[..|s| - 1], s[|s| - 1];
      assert s == p + [x];
      var d := DedupBy(p, key);
      DedupByKeys(p, key);
      KeysOfSnoc(d, x, key);
      KeysOfSnoc(p, x, key);
      if key(x) !in KeysOf(p, key) {
        var r := d + [x];
        forall i | 0 <= i < |d| ensures key(r[i]) != key(x) {
          assert key(d[i]) in KeysOf(d, key);
        }
      }
    }
  }

  lemma DedupBySnoc<T(!new), K>(s: seq<T>, x: T, key: T -> K)
    ensures DedupBy(s + [x], key) ==
      if key(x) in KeysOf(s, key) then DedupBy(s, key) else DedupBy(s, key) + [x]
  {
    assert (s + [x])[..|s|] == s;
  }

  /** One step of the `seen`-set loop: with `seen` the keys pushed so far,
      pushing `x` exactly when its key is unseen extends the de-duplication
      of the input by `x`. */
  lemma DedupByStep<T(!new), K>(s: seq<T>, x: T, key: T -> K, pushed: seq<T>, seen: set<K>)
    requires pushed == DedupBy(s, key) && seen == KeysOf(pushed, key)
    ensures var pushed' := if key(x) in seen then pushed else pushed + [x];
      pushed' == DedupBy(s + [x], key) && seen + {key(x)} == KeysOf(pushed', key)
  {
    DedupByKeys(s, key);
    DedupBySnoc(s, x, key);
    KeysOfSnoc(pushed, x, key);
  }

  /** The position of the first element of `s` whose key is `k`. */
  function FirstKeyIndex<T(!new), K(==)>(s: seq<T>, key: T -> K, k: K): (i: nat)
    requires k in KeysOf(s, key)
    ensures i < |s| && key(s[i]) == k
    ensures forall j :: 0 <= j < i ==> key(s[j]) != k
    decreases |s|
  {
    var p := s[..|s| - 1];
    KeysOfSnoc(p, s[|s| - 1], key);
    assert s == p + [s[|s| - 1]];
    if k in KeysOf(p, key) then FirstKeyIndex(p, key, k) else |s| - 1
  }

  /** Appending an element leaves the first positions of earlier keys alone
      and gives a new key the appended position. */
  lemma FirstKeyIndexSnoc<T(!new), K>(p: seq<T>, x: T, key: T -> K, k: K)
    ensures k in KeysOf(p, key) ==> k in KeysOf(p + [x], key) && FirstKeyIndex(p + [x], key, k) == FirstKeyIndex(p, key, k)
    ensures k !in KeysOf(p, key) && k == key(x) ==> k in KeysOf(p + [x], key) && FirstKeyIndex(p + [x], key, k) == |p|
  {
    KeysOfSnoc(p, x, key);
    assert (p + [x])[..|p|] == p;
  }

  /** `DedupBy` keeps, for every key, the element at that key's first
      position. */
  lemma {:induction false} DedupByKeepsFirst<T(!new), K>(s: seq<T>, key: T -> K)
    ensures var r := DedupBy(s, key);
      forall i :: 0 <= i < |r| ==> key(r[i]) in KeysOf(s, key) && r[i] == s[FirstKeyIndex(s, key, key(r[i]))]
    decreases |s|
  {
    if |s| > 0 {
      var p, x := s[..|s| - 1], s[|s| - 1];
      assert s == p + [x];
      var d := DedupBy(p, key);
      var r := DedupBy(s, key);
      DedupByKeepsFirst(p, key);
      DedupBySnoc(p, x, key);
      forall i | 0 <= i < |r|
        ensures key(r[i]) in KeysOf(s, key) && r[i] == s[FirstKeyIndex(s, key, key(r[i]))]
      {
        if i < |d| {
          FirstKeyIndexSnoc(p, x, key, key(d[i]));
          assert r[i] == d[i];
        } else {
          FirstKeyIndexSnoc(p, x, key, key(x));
        }
      }
    }
  }

  /** `DedupBy` lists the kept elements in the order of their keys' first
      positions. */
  lemma {:induction false} DedupByOrdered<T(!new), K>(s: seq<T>, key: T -> K)
    ensures var r := DedupBy(s, key);
      forall i, j :: 0 <= i < j < |r| ==>
        key(r[i]) in KeysOf(s, key) && key(r[j]) in KeysOf(s, key) &&
        FirstKeyIndex(s, key, key(r[i])) < FirstKeyIndex(s, key, key(r[j]))
    decreases |s|
  {
    if |s| > 0 {
      var p, x := s[..|s| - 1], s[|s| - 1];
      assert s == p + [x];
      var d := DedupBy(p, key);
      var r := DedupBy(s, key);
      DedupByOrdered(p, key);
      DedupByKeys(p, key);
      DedupBySnoc(p, x, key);
      KeysOfSnoc(p, x, key);
      forall i, j | 0 <= i < j < |r|
        ensures key(r[i]) in KeysOf(s, key) && key(r[j]) in KeysOf(s, key) &&
          FirstKeyIndex(s, key, key(r[i])) < FirstKeyIndex(s, key, key(r[j]))
      {
        FirstKeyIndexSnoc(p, x, key, key(r[i]));
        FirstKeyIndexSnoc(p, x, key, key(r[j]));
        assert r[i] == d[i];
        if j < |d| {
          assert r[j] == d[j];
        } else {
          assert r[j] == x && key(x) !in KeysOf(p, key);
        }
      }
    }
  }

  // ---------------------------------------------------------------- plain dedup

  function Id<T>(x: T): T { x }

  predicate NoDuplicates<T(==)>(s: seq<T>) {
    forall i, j :: 0 <= i < j < |s| ==> s[i] != s[j]
  }

  lemma KeysOfId<T(!new)>(s: seq<T>)
    ensures KeysOf(s, Id) == set x | x in s
  {
    forall x | x in s ensures x in KeysOf(s, Id) {
      var i :| 0 <= i < |s| && s[i] == x;
      assert Id(s[i]) == x;
    }
  }

  /** `[...new Set(s)]`: the first occurrence of each distinct element, in
      order of first occurrence (exact equality). */
  function Dedup<T(==,!new)>(s: seq<T>): (r: seq<T>)
    ensures |r| <= |s|
    ensures NoDuplicates(r)
    ensures forall x :: x in r <==> x in s
    decreases |s|
  {
    if |s| == 0 then []
    else
      var d := Dedup(s[..|s| - 1]);
      assert s == s[..|s| - 1] + [s[|s| - 1]];
      if s[|s| - 1] in d then d else d + [s[|s| - 1]]
  }

  /** Value de-duplication is de-duplication keyed by the value itself. */
  lemma {:induction false} DedupIsDedupById<T(!new)>(s: seq<T>)
    ensures Dedup(s) == DedupBy(s, Id)
    decreases |s|
  {
    if |s| > 0 {
      var p, x := s[..|s| - 1], s[|s| - 1];
      DedupIsDedupById(p);
      KeysOfId(DedupBy(p, Id));
      assert Id(x) == x;
    }
  }

  lemma DedupSnoc<T(!new)>(s: seq<T>, x: T)
    ensures x in s ==> Dedup(s + [x]) == Dedup(s)
    ensures x !in s ==> Dedup(s + [x]) == Dedup(s) + [x]
  {
    assert (s + [x])[..|s|] == s;
  }

  /** De-duplicating and filtering commute: dropping the elements that fail
      `keep` before or after de-duplication gives the same sequence. */
  lemma {:induction false} DedupFilterCommute<T(!new)>(s: seq<T>, keep: T -> bool)
    ensures Filter(Dedup(s), keep) == Dedup(Filter(s, keep))
    decreases |s|
  {
    if |s| > 0 {
      var p, x := s[..|s| - 1], s[|s| - 1];
      assert s == p + [x];
      DedupFilterCommute(p, keep);
      if x in p {
        DedupFilterSeen(p, x, keep);
      } else {
        DedupFilterFresh(p, x, keep);
      }
    }
  }

  lemma DedupFilterSeen<T(!new)>(p: seq<T>, x: T, keep: T -> bool)
    requires x in p
    requires Filter(Dedup(p), keep) == Dedup(Filter(p, keep))
    ensures Filter(Dedup(p + [x]), keep) == Dedup(Filter(p + [x], keep))
  {
    var fp := Filter(p, keep);
    assert Dedup(p + [x]) == Dedup(p) by { DedupSnoc(p, x); }
    if keep(x) {
      assert Filter(p + [x], keep) == fp + [x] by { FilterSnoc(p, x, keep); }
      assert Dedup(fp + [x]) == Dedup(fp) by {
        FilterMembers(p, keep);
        DedupSnoc(fp, x);
      }
    } else {
      assert Filter(p + [x], keep) == fp by { FilterSnoc(p, x, keep); }
    }
  }

  lemma DedupFilterFresh<T(!new)>(p: seq<T>, x: T, keep: T -> bool)
    requires x !in p
    requires Filter(Dedup(p), keep) == Dedup(Filter(p, keep))
    ensures Filter(Dedup(p + [x]), keep) == Dedup(Filter(p + [x], keep))
  {
    var fp, dp := Filter(p, keep), Dedup(p);
    assert Dedup(p + [x]) == dp + [x] by { DedupSnoc(p, x); }
    if keep(x) {
      assert Filter(dp + [x], keep) == Filter(dp, keep) + [x] by { FilterSnoc(dp, x, keep); }
      assert Filter(p + [x], keep) == fp + [x] by { FilterSnoc(p, x, keep); }
      assert Dedup(fp + [x]) == Dedup(fp) + [x] by {
        FilterMembers(p, keep);
        assert x !in fp;
        DedupSnoc(fp, x);
      }
    } else {
      assert Filter(dp + [x], keep) == Filter(dp, keep) by { FilterSnoc(dp, x, keep); }
      assert Filter(p + [x], keep) == fp by { FilterSnoc(p, x, keep); }
    }
  }
}
