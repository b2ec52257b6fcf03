/**
 * First-match and last-match selection over a list, and the preference rule
 * the caption-track loops share: the first element that is both a candidate
 * and preferred, otherwise the last candidate.
 */
module Selection {
  import opened Options

  /** The index of the first element satisfying `p`, if any. */
  function FirstWhere<T>(xs: seq<T>, p: T -> bool): (r: Option<nat>)
    ensures r.Some? ==> r.value < |xs| && p(xs[r.value])
    ensures r.Some? ==> forall j :: 0 <= j < r.value ==> !p(xs[j])
    ensures r.None? <==> forall j :: 0 <= j < |xs| ==> !p(xs[j])
  {
    if xs == [] then None
    else if p(xs[0]) then Some(0)
    else match FirstWhere(xs[1..], p)
      case None => None
      case Some(i) => Some(i + 1)
  }

  /** The index of the last element satisfying `p`, if any. */
  function LastWhere<T>(xs: seq<T>, p: T -> bool): (r: Option<nat>)
    ensures r.Some? ==> r.value < |xs| && p(xs[r.value])
    ensures r.Some? ==> forall j :: r.value < j < |xs| ==> !p(xs[j])
    ensures r.None? <==> forall j :: 0 <= j < |xs| ==> !p(xs[j])
  {
    if xs == [] then None
    else if p(xs[|xs| - 1]) then Some(|xs| - 1)
    else LastWhere(xs[..|xs| - 1], p)
  }

  /** An element satisfying `p` after none that does is the first such. */
  lemma FirstWhereAt<T>(xs: seq<T>, i: nat, p: T -> bool)
    requires i < |xs| && p(xs[i])
    requires forall j :: 0 <= j < i ==> !p(xs[j])
    ensures FirstWhere(xs, p) == Some(i)
  {
    assert FirstWhere(xs, p).Some?;
  }

  /** The test "both a candidate and preferred". */
  function Both<T(!new)>(cand: T -> bool, strong: T -> bool): (p: T -> bool)
    ensures forall x :: p(x) == (cand(x) && strong(x))
  {
    x => cand(x) && strong(x)
  }

  /**
   * The index the selection loops settle on: the first candidate that is
   * also preferred, otherwise the last candidate, otherwise none.
   */
  function Preferred<T(!new)>(xs: seq<T>, cand: T -> bool, strong: T -> bool): (r: Option<nat>)
    ensures r.Some? ==> r.value < |xs| && cand(xs[r.value])
    ensures r.None? <==> forall j :: 0 <= j < |xs| ==> !cand(xs[j])
    ensures (exists j :: 0 <= j < |xs| && cand(xs[j]) && strong(xs[j])) ==>
      r.Some? && strong(xs[r.value]) &&
      forall j :: 0 <= j < r.value ==> !(cand(xs[j]) && strong(xs[j]))
    ensures (forall j :: 0 <= j < |xs| ==> !(cand(xs[j]) && strong(xs[j]))) ==>
      r.Some? ==> forall j :: r.value < j < |xs| ==> !cand(xs[j])
  {
    var first := FirstWhere(xs, Both(cand, strong));
    if first.Some? then first else LastWhere(xs, cand)
  }

  /**
   * Adding one element to the end: the preferred index of the longer list
   * is the old one if it already had a preferred candidate, and otherwise
   * moves to the new element when that one is a candidate.
   */
  lemma PreferredSnoc<T(!new)>(xs: seq<T>, x: T, cand: T -> bool, strong: T -> bool)
    requires forall j :: 0 <= j < |xs| ==> !(cand(xs[j]) && strong(xs[j]))
    ensures Preferred(xs + [x], cand, strong) ==
      if cand(x) then Some(|xs|) else Preferred(xs, cand, strong)
  {
    var ys := xs + [x];
    assert ys[..|ys| - 1] == xs;
    assert ys[|xs|] == x;
    if cand(x) && strong(x) {
      assert FirstWhere(ys, Both(cand, strong)) == Some(|xs|);
    } else {
      assert FirstWhere(ys, Both(cand, strong)).None?;
    }
  }

  /** An element that is both a candidate and preferred, after none that is, is the preferred index. */
  lemma PreferredHit<T(!new)>(xs: seq<T>, i: nat, cand: T -> bool, strong: T -> bool)
    requires i < |xs| && cand(xs[i]) && strong(xs[i])
    requires forall j :: 0 <= j < i ==> !(cand(xs[j]) && strong(xs[j]))
    ensures Preferred(xs, cand, strong) == Some(i)
  {
    var first := FirstWhere(xs, Both(cand, strong));
    assert Both(cand, strong)(xs[i]);
    assert first.Some?;
  }

  /**
   * One step of a selection loop over `xs` that has not yet met a preferred
   * candidate: after element `i`, still none has been met, and the
   * preferred index of `xs[..i + 1]` follows from `PreferredSnoc`.
   */
  lemma PreferredStep<T(!new)>(xs: seq<T>, i: nat, cand: T -> bool, strong: T -> bool)
    requires i < |xs| && !(cand(xs[i]) && strong(xs[i]))
    requires forall j :: 0 <= j < i ==> !(cand(xs[j]) && strong(xs[j]))
    ensures forall j :: 0 <= j < i + 1 ==> !(cand(xs[j]) && strong(xs[j]))
    ensures Preferred(xs[..i + 1], cand, strong) == if cand(xs[i]) then Some(i) else Preferred(xs[..i], cand, strong)
  {
    assert xs[..i + 1] == xs[..i] + [xs[i]];
    assert forall j :: 0 <= j < i ==> xs[..i][j] == xs[j];
    PreferredSnoc(xs[..i], xs[i], cand, strong);
  }
}
