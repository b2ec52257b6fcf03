/**
 * The shape shared by the scripts' filtering loops: each element of a list
 * contributes zero or more results, appended in order.
 */
module Lists {

  /** The contributions of `xs`, in order (defined from the last element). */
  function FlatMap<T, U>(xs: seq<T>, f: T -> seq<U>): (r: seq<U>)
    decreases |xs|
  {
    if xs == [] then [] else FlatMap(xs[..|xs| - 1], f) + f(xs[|xs| - 1])
  }

  /** One more element adds its own contribution at the end. */
  lemma FlatMapSnoc<T, U>(xs: seq<T>, x: T, f: T -> seq<U>)
    ensures FlatMap(xs + [x], f) == FlatMap(xs, f) + f(x)
  {
    assert (xs + [x])[..|xs|] == xs;
  }

  /** The first `i + 1` elements contribute what the first `i` do, then the `i`-th element's part. */
  lemma FlatMapPrefix<T, U>(xs: seq<T>, i: nat, f: T -> seq<U>)
    requires i < |xs|
    ensures FlatMap(xs[..i + 1], f) == FlatMap(xs[..i], f) + f(xs[i])
  {
    assert xs[..i + 1] == xs[..i] + [xs[i]];
    FlatMapSnoc(xs[..i], xs[i], f);
  }

  /** A one-element list contributes exactly that element's part. */
  lemma FlatMapOne<T, U>(x: T, f: T -> seq<U>)
    ensures FlatMap([x], f) == f(x)
  {
    assert [x][..0] == [];
  }

  /** The contributions of a concatenation are those of each part: order is kept and nothing moves across. */
  lemma {:induction false} FlatMapAppend<T, U>(a: seq<T>, b: seq<T>, f: T -> seq<U>)
    ensures FlatMap(a + b, f) == FlatMap(a, f) + FlatMap(b, f)
    decreases |b|
  {
    if b == [] {
      assert a + b == a;
    } else {
      var b', x := b[..|b| - 1], b[|b| - 1];
      assert a + b == (a + b') + [x];
      FlatMapSnoc(a + b', x, f);
      FlatMapAppend(a, b', f);
      FlatMapSnoc(b', x, f);
      assert b == b' + [x];
    }
  }

  /** When every contribution satisfies `p` element-wise, so does the whole. */
  lemma {:induction false} FlatMapAll<T, U>(xs: seq<T>, f: T -> seq<U>, p: U -> bool)
    requires forall k :: 0 <= k < |xs| ==> forall j :: 0 <= j < |f(xs[k])| ==> p(f(xs[k])[j])
    ensures forall j :: 0 <= j < |FlatMap(xs, f)| ==> p(FlatMap(xs, f)[j])
    decreases |xs|
  {
    if xs != [] {
      var init := xs[..|xs| - 1];
      FlatMapAll(init, f, p);
      var r, e := FlatMap(init, f), f(xs[|xs| - 1]);
      forall j | 0 <= j < |r + e| ensures p((r + e)[j]) {
        if j >= |r| {
          assert (r + e)[j] == e[j - |r|];
        }
      }
    }
  }

  /** Cutting a list at `n` and at `m` and putting the pieces back together gives the list. */
  lemma Slices<T>(s: seq<T>, n: nat, m: nat)
    requires n <= m <= |s|
    ensures s[..n] + s[n..m] == s[..m]
    ensures s[..m] + s[m..] == s
  {
  }

  /** A non-empty list is its prefix followed by its last element. */
  lemma LastSplit<T>(s: seq<T>)
    requires s != []
    ensures s == s[..|s| - 1] + [s[|s| - 1]]
  {
  }

  /** `[f(x) for x in xs]` */
  function Map<T, U>(xs: seq<T>, f: T -> U): (r: seq<U>)
    ensures |r| == |xs|
    ensures forall i :: 0 <= i < |xs| ==> r[i] == f(xs[i])
  {
    seq(|xs|, i requires 0 <= i < |xs| => f(xs[i]))
  }

  /** The first `i + 1` elements map to the images of the first `i`, then the image of the `i`-th. */
  lemma MapPrefix<T, U>(xs: seq<T>, i: nat, f: T -> U)
    requires i < |xs|
    ensures Map(xs[..i + 1], f) == Map(xs[..i], f) + [f(xs[i])]
  {
    var l, r := Map(xs[..i + 1], f), Map(xs[..i], f) + [f(xs[i])];
    assert forall j :: 0 <= j < |l| ==> l[j] == r[j];
  }

  /** A middle slice that contributes nothing can be skipped. */
  lemma FlatMapSkip<T, U>(s: seq<T>, n: nat, m: nat, f: T -> seq<U>)
    requires n <= m <= |s|
    requires FlatMap(s[n..m], f) == []
    ensures FlatMap(s, f) == FlatMap(s[..n], f) + FlatMap(s[m..], f)
  {
    Slices(s, n, m);
    FlatMapAppend(s[..n], s[n..m], f);
    assert FlatMap(s[..n], f) + [] == FlatMap(s[..n], f);
    FlatMapAppend(s[..m], s[m..], f);
  }

  /** Five lists, each made of one repeated element, concatenated: where each element sits. */
  lemma FiveBlocks<T>(p1: seq<T>, p2: seq<T>, p3: seq<T>, p4: seq<T>, p5: seq<T>, x1: T, x2: T, x3: T, x4: T, x5: T)
    requires forall k :: 0 <= k < |p1| ==> p1[k] == x1
    requires forall k :: 0 <= k < |p2| ==> p2[k] == x2
    requires forall k :: 0 <= k < |p3| ==> p3[k] == x3
    requires forall k :: 0 <= k < |p4| ==> p4[k] == x4
    requires forall k :: 0 <= k < |p5| ==> p5[k] == x5
    ensures var parts, a := p1 + p2 + p3 + p4 + p5, |p1|;
      var b, c, d := a + |p2|, a + |p2| + |p3|, a + |p2| + |p3| + |p4|;
      && |parts| == d + |p5|
      && (forall k :: 0 <= k < a ==> parts[k] == x1)
      && (forall k :: a <= k < b ==> parts[k] == x2)
      && (forall k :: b <= k < c ==> parts[k] == x3)
      && (forall k :: c <= k < d ==> parts[k] == x4)
      && (forall k :: d <= k < |parts| ==> parts[k] == x5)
  {
    var parts, a := p1 + p2 + p3 + p4 + p5, |p1|;
    var b, c, d := a + |p2|, a + |p2| + |p3|, a + |p2| + |p3| + |p4|;
    assert forall k :: a <= k < b ==> parts[k] == p2[k - a];
    assert forall k :: b <= k < c ==> parts[k] == p3[k - b];
    assert forall k :: c <= k < d ==> parts[k] == p4[k - c];
    assert forall k :: d <= k < |parts| ==> parts[k] == p5[k - d];
  }
}
