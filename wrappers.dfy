/** Small value types and sequence searches shared by the door-pricing model. */
module Wrappers {

  datatype Option<+T> = None | Some(value: T)

  /** Index of the first element satisfying `p`: the "filter then take row 0" lookup the
      pricing tables use (`df[cond].iloc[0]`). */
  function FirstIndex<T>(s: seq<T>, p: T -> bool): (r: Option<nat>)
    ensures r.Some? ==> r.value < |s| && p(s[r.value])
    ensures r.Some? ==> forall j :: 0 <= j < r.value ==> !p(s[j])
    ensures r.None? <==> forall j :: 0 <= j < |s| ==> !p(s[j])
  {
    if |s| == 0 then None
    else if p(s[0]) then Some(0)
    else
      match FirstIndex(s[1..], p)
      case None => None
      case Some(i) => Some(i + 1)
  }

  /** A sequence searched by FirstIndex has exactly one answer: the first hit. */
  lemma FirstIndexIsFirstHit<T>(s: seq<T>, p: T -> bool, i: nat)
    requires i < |s| && p(s[i])
    requires forall j :: 0 <= j < i ==> !p(s[j])
    ensures FirstIndex(s, p) == Some(i)
  {
    var r := FirstIndex(s, p);
    if r.Some? {
      assert !(r.value < i);
      assert !(i < r.value);
    }
  }
}
