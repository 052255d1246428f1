/**
 * The two selection rules both predictors use: scan the classes upward
 * and replace the running choice only on a STRICT improvement, so that
 * ties go to the smallest index.
 */
module Selection {

  /**
   * The position in [lo, hi) that a scan from `lo` upward keeps when it
   * replaces its choice only on a strictly smaller value.
   */
  function FirstArgMin(v: seq<real>, lo: nat, hi: nat): (k: nat)
    requires lo < hi <= |v|
    ensures lo <= k < hi
    ensures forall t :: lo <= t < hi ==> v[k] <= v[t]
    ensures forall t :: lo <= t < k ==> v[k] < v[t]
    decreases hi
  {
    if hi == lo + 1 then lo
    else
      var k := FirstArgMin(v, lo, hi - 1);
      if v[hi - 1] < v[k] then hi - 1 else k
  }

  /**
   * The position in [lo, hi) that `std::max_element` returns: it replaces
   * its choice only on a strictly larger value.
   */
  function FirstArgMax(v: seq<real>, lo: nat, hi: nat): (k: nat)
    requires lo < hi <= |v|
    ensures lo <= k < hi
    ensures forall t :: lo <= t < hi ==> v[t] <= v[k]
    ensures forall t :: lo <= t < k ==> v[t] < v[k]
    decreases hi
  {
    if hi == lo + 1 then lo
    else
      var k := FirstArgMax(v, lo, hi - 1);
      if v[k] < v[hi - 1] then hi - 1 else k
  }

  /**
   * The scan's choice is THE first minimum: any position that is minimal
   * and strictly below everything before it is the one FirstArgMin picks.
   */
  lemma FirstArgMinUnique(v: seq<real>, lo: nat, hi: nat, k: nat)
    requires lo <= k < hi <= |v|
    requires forall t :: lo <= t < hi ==> v[k] <= v[t]
    requires forall t :: lo <= t < k ==> v[k] < v[t]
    ensures FirstArgMin(v, lo, hi) == k
  {
  }

  /** The same for the first maximum. */
  lemma FirstArgMaxUnique(v: seq<real>, lo: nat, hi: nat, k: nat)
    requires lo <= k < hi <= |v|
    requires forall t :: lo <= t < hi ==> v[t] <= v[k]
    requires forall t :: lo <= t < k ==> v[t] < v[k]
    ensures FirstArgMax(v, lo, hi) == k
  {
  }
}
