/** The arithmetic behind blending, on plain sequences of reals: the sum
    of the weights, the weighted sum of the coordinates, and the least and
    greatest coordinate. */
module WeightedSums {

  /** `sum(ws[:m])`, adding from the left. */
  function Sum(ws: seq<real>): real
  {
    if |ws| == 0 then 0.0 else Sum(ws[..|ws| - 1]) + ws[|ws| - 1]
  }

  /** Each weight divided by the same non-zero total. */
  function DividedBy(ws: seq<real>, total: real): (r: seq<real>)
    requires total != 0.0
    ensures |r| == |ws| && forall k :: 0 <= k < |ws| ==> r[k] == ws[k] / total
  {
    seq(|ws|, k requires 0 <= k < |ws| => ws[k] / total)
  }

  lemma {:induction false} DividedSum(ws: seq<real>, total: real)
    requires total != 0.0
    ensures Sum(DividedBy(ws, total)) == Sum(ws) / total
    decreases |ws|
  {
    if |ws| > 0 {
      var n := |ws| - 1;
      DividedSum(ws[..n], total);
      assert DividedBy(ws, total)[..n] == DividedBy(ws[..n], total);
    }
  }

  /** Weights divided by their own positive total sum to 1. */
  lemma NormalizedSum(ws: seq<real>)
    requires Sum(ws) > 0.0
    ensures Sum(DividedBy(ws, Sum(ws))) == 1.0
  {
    var total := Sum(ws);
    DividedSum(ws, total);
    assert total / total == 1.0;
  }

  /** `val` after the first m terms: the sum of cs[k] * ws[k]. */
  function Dot(cs: seq<real>, ws: seq<real>, m: nat): real
    requires m <= |cs| && m <= |ws|
  {
    if m == 0 then 0.0 else Dot(cs, ws, m - 1) + cs[m - 1] * ws[m - 1]
  }

  lemma DotStep(cs: seq<real>, ws: seq<real>, k: nat)
    requires k < |cs| && k < |ws|
    ensures Dot(cs, ws, k + 1) == Dot(cs, ws, k) + cs[k] * ws[k]
  {
  }

  /** The loop `val += c * w` over the first |cs| terms. */
  method DotAlong(cs: seq<real>, ws: seq<real>) returns (val: real)
    requires |cs| <= |ws|
    ensures val == Dot(cs, ws, |cs|)
  {
    val := 0.0;
    var k := 0;
    while k < |cs|
      invariant 0 <= k <= |cs|
      invariant val == Dot(cs, ws, k)
    {
      DotStep(cs, ws, k);
      val := val + cs[k] * ws[k];
      k := k + 1;
    }
  }

  lemma SingleSum(w: real)
    ensures Sum([w]) == w
  {
    assert [w][..0] == [];
  }

  lemma PairSum(w0: real, w1: real)
    ensures Sum([w0, w1]) == w0 + w1
  {
    assert [w0, w1][..1] == [w0];
    SingleSum(w0);
  }

  lemma PairEquals(s: seq<real>, a: real, b: real)
    requires |s| == 2 && s[0] == a && s[1] == b
    ensures s == [a, b]
  {
  }

  lemma SingleDot(c: real, w: real)
    ensures Dot([c], [w], 1) == c * w
  {
  }

  lemma TwoMinusOneDot(c0: real, c1: real)
    ensures Dot([c0, c1], [2.0, -1.0], 2) == 2.0 * c0 - c1
  {
    assert Dot([c0, c1], [2.0, -1.0], 1) == c0 * 2.0;
  }

  lemma MultiplyMonotone(a: real, b: real, w: real)
    requires a <= b && w >= 0.0
    ensures a * w <= b * w
  {
  }

  /** With non-negative weights, a weighted sum of values between lo and hi
      lies between lo and hi times the total weight. */
  lemma {:induction false} DotBounds(cs: seq<real>, ws: seq<real>, m: nat, lo: real, hi: real)
    requires m <= |cs| && m <= |ws|
    requires forall k :: 0 <= k < m ==> ws[k] >= 0.0 && lo <= cs[k] <= hi
    ensures lo * Sum(ws[..m]) <= Dot(cs, ws, m) <= hi * Sum(ws[..m])
    decreases m
  {
    if m > 0 {
      DotBounds(cs, ws, m - 1, lo, hi);
      assert ws[..m][..m - 1] == ws[..m - 1];
      var c, w, s := cs[m - 1], ws[m - 1], Sum(ws[..m - 1]);
      MultiplyMonotone(lo, c, w);
      MultiplyMonotone(c, hi, w);
      assert lo * (s + w) == lo * s + lo * w;
      assert hi * (s + w) == hi * s + hi * w;
    }
  }

  /** The least and the greatest element of a non-empty sequence. */
  function Least(cs: seq<real>): (lo: real)
    requires |cs| > 0
    ensures forall k :: 0 <= k < |cs| ==> lo <= cs[k]
    ensures lo in cs
  {
    if |cs| == 1 then cs[0]
    else
      var rest := Least(cs[1..]);
      assert forall k :: 1 <= k < |cs| ==> cs[k] == cs[1..][k - 1];
      if cs[0] <= rest then cs[0] else rest
  }

  function Greatest(cs: seq<real>): (hi: real)
    requires |cs| > 0
    ensures forall k :: 0 <= k < |cs| ==> cs[k] <= hi
    ensures hi in cs
  {
    if |cs| == 1 then cs[0]
    else
      var rest := Greatest(cs[1..]);
      assert forall k :: 1 <= k < |cs| ==> cs[k] == cs[1..][k - 1];
      if cs[0] >= rest then cs[0] else rest
  }

  /** A convex combination lies between the least and the greatest value. */
  lemma ConvexCombination(cs: seq<real>, ws: seq<real>)
    requires |cs| == |ws| > 0 && Sum(ws) == 1.0
    requires forall k :: 0 <= k < |ws| ==> ws[k] >= 0.0
    ensures Least(cs) <= Dot(cs, ws, |cs|) <= Greatest(cs)
  {
    DotBounds(cs, ws, |cs|, Least(cs), Greatest(cs));
    assert ws[..|cs|] == ws;
  }
}
