/** The outcome of each promise given to `Promise.allSettled`, listed in the
    order of the promises (not in the order they complete). */
module AllSettled {

  datatype Settled<T> = Fulfilled(value: T) | Rejected

  /** The values of the fulfilled outcomes, in input order (`results.filter(r
      => r.status === "fulfilled").map(r => r.value)`). */
  function FulfilledValues<T>(rs: seq<Settled<T>>): (vs: seq<T>)
    ensures |vs| <= |rs|
    decreases |rs|
  {
    if |rs| == 0 then []
    else
      var last := rs[|rs| - 1];
      FulfilledValues(rs[..|rs| - 1]) + (if last.Fulfilled? then [last.value] else [])
  }

  /** When nothing was rejected, the values are exactly the outcomes' values. */
  lemma {:induction false} FulfilledValuesAll<T>(rs: seq<Settled<T>>)
    requires forall i :: 0 <= i < |rs| ==> rs[i].Fulfilled?
    ensures |FulfilledValues(rs)| == |rs|
    ensures forall i :: 0 <= i < |rs| ==> FulfilledValues(rs)[i] == rs[i].value
    decreases |rs|
  {
    if |rs| > 0 {
      FulfilledValuesAll(rs[..|rs| - 1]);
    }
  }

  /** The concatenation of the fulfilled lists, in input order: what a loop
      computes that skips rejected outcomes and appends each fulfilled one. */
  function MergeFulfilled<T>(rs: seq<Settled<seq<T>>>): (r: seq<T>)
    decreases |rs|
  {
    if |rs| == 0 then []
    else
      var last := rs[|rs| - 1];
      MergeFulfilled(rs[..|rs| - 1]) + (if last.Fulfilled? then last.value else [])
  }

  lemma MergeFulfilledSnoc<T>(rs: seq<Settled<seq<T>>>, r: Settled<seq<T>>)
    ensures MergeFulfilled(rs + [r]) == MergeFulfilled(rs) + (if r.Fulfilled? then r.value else [])
  {
    assert (rs + [r])[..|rs|] == rs;
  }

  /** Extending the prefix of outcomes by one: a rejected outcome adds
      nothing, a fulfilled one adds its list. */
  lemma MergeFulfilledPrefix<T>(rs: seq<Settled<seq<T>>>, i: nat)
    requires i < |rs|
    ensures rs[i].Rejected? ==> MergeFulfilled(rs[..i + 1]) == MergeFulfilled(rs[..i])
    ensures rs[i].Fulfilled? ==> MergeFulfilled(rs[..i + 1]) == MergeFulfilled(rs[..i]) + rs[i].value
  {
    assert rs[..i + 1] == rs[..i] + [rs[i]];
    MergeFulfilledSnoc(rs[..i], rs[i]);
  }

  /** An element is merged exactly when some fulfilled outcome holds it;
      rejected outcomes contribute nothing. */
  lemma {:induction false} MergeFulfilledMembers<T>(rs: seq<Settled<seq<T>>>, x: T)
    ensures x in MergeFulfilled(rs) <==> exists i :: 0 <= i < |rs| && rs[i].Fulfilled? && x in rs[i].value
    decreases |rs|
  {
    if |rs| > 0 {
      var p := rs[..|rs| - 1];
      MergeFulfilledMembers(p, x);
      assert forall i :: 0 <= i < |p| ==> p[i] == rs[i];
      if x in MergeFulfilled(rs) && x !in MergeFulfilled(p) {
        assert rs[|rs| - 1].Fulfilled? && x in rs[|rs| - 1].value;
      }
    }
  }
}
