/** Python's built-in `round` on exact reals: `round(x)` gives the nearest
    integer with ties to the even one, and `round(x, n)` rounds to n decimal
    places in the same way. */
module PyRound {

  /** 10^places */
  function Pow10(places: nat): (r: nat)
    ensures r >= 1
  {
    if places == 0 then 1 else 10 * Pow10(places - 1)
  }

  function Scale(places: nat): (r: real)
    ensures r >= 1.0
  {
    Pow10(places) as real
  }

  /** x has at most `places` decimal places. */
  predicate OnGrid(x: real, places: nat)
  {
    (x * Scale(places)).Floor as real == x * Scale(places)
  }

  /** `round(x)`: the nearest integer, ties to even. */
  function RoundHalfEven(x: real): (k: int)
    ensures k as real - 0.5 <= x <= k as real + 0.5
    ensures (x == k as real - 0.5 || x == k as real + 0.5) ==> k % 2 == 0
  {
    var f := x.Floor;
    var frac := x - f as real;
    if frac < 0.5 then f
    else if frac > 0.5 then f + 1
    else if f % 2 == 0 then f
    else f + 1
  }

  /** The two postconditions of RoundHalfEven pin its result down. */
  lemma RoundHalfEvenUnique(x: real, k: int)
    requires k as real - 0.5 <= x <= k as real + 0.5
    requires (x == k as real - 0.5 || x == k as real + 0.5) ==> k % 2 == 0
    ensures RoundHalfEven(x) == k
  {
  }

  lemma RoundHalfEvenOfInt(k: int)
    ensures RoundHalfEven(k as real) == k
  {
  }

  lemma RoundHalfEvenMonotone(x: real, y: real)
    requires x <= y
    ensures RoundHalfEven(x) <= RoundHalfEven(y)
  {
  }

  /** `round(x, places)` */
  function Round(x: real, places: nat): (r: real)
    ensures OnGrid(r, places)
    ensures x - 0.5 / Scale(places) <= r <= x + 0.5 / Scale(places)
  {
    var k := RoundHalfEven(x * Scale(places));
    QuotientOnGrid(k, places);
    QuotientBounds(x, k, Scale(places));
    k as real / Scale(places)
  }

  lemma QuotientOnGrid(k: int, places: nat)
    ensures OnGrid(k as real / Scale(places), places)
  {
    var s := Scale(places);
    assert (k as real / s) * s == k as real;
  }

  lemma QuotientBounds(x: real, k: int, s: real)
    requires s >= 1.0
    requires k as real - 0.5 <= x * s <= k as real + 0.5
    ensures x - 0.5 / s <= k as real / s <= x + 0.5 / s
  {
    assert (k as real - 0.5) / s <= (x * s) / s <= (k as real + 0.5) / s;
    assert (x * s) / s == x;
  }

  lemma QuotientMonotone(a: int, b: int, s: real)
    requires s >= 1.0 && a <= b
    ensures a as real / s <= b as real / s
  {
  }

  lemma GridValue(x: real, places: nat)
    requires OnGrid(x, places)
    ensures x * Scale(places) == (x * Scale(places)).Floor as real
  {
  }

  lemma ProductQuotient(x: real, s: real, m: int)
    requires s >= 1.0 && x * s == m as real
    ensures m as real / s == x
  {
  }

  /** A value that already has `places` decimals is left unchanged. */
  lemma RoundOnGrid(x: real, places: nat)
    requires OnGrid(x, places)
    ensures Round(x, places) == x
  {
    GridValue(x, places);
    var m := (x * Scale(places)).Floor;
    RoundHalfEvenOfInt(m);
    ProductQuotient(x, Scale(places), m);
    RoundDef(x, places);
  }

  lemma RoundDef(x: real, places: nat)
    ensures Round(x, places) == RoundHalfEven(x * Scale(places)) as real / Scale(places)
  {
  }

  lemma RoundMonotone(x: real, y: real, places: nat)
    requires x <= y
    ensures Round(x, places) <= Round(y, places)
  {
    ScaleMonotone(x, y, Scale(places));
    RoundHalfEvenMonotone(x * Scale(places), y * Scale(places));
    QuotientMonotone(RoundHalfEven(x * Scale(places)), RoundHalfEven(y * Scale(places)), Scale(places));
    RoundDef(x, places);
    RoundDef(y, places);
  }

  lemma ScaleMonotone(x: real, y: real, s: real)
    requires x <= y && s >= 0.0
    ensures x * s <= y * s
  {
  }

  /** Rounding keeps a value in an interval whose ends have `places` decimals. */
  lemma RoundWithin(x: real, lo: real, hi: real, places: nat)
    requires OnGrid(lo, places) && OnGrid(hi, places)
    requires lo <= x <= hi
    ensures lo <= Round(x, places) <= hi
  {
    RoundMonotone(lo, x, places);
    RoundMonotone(x, hi, places);
    RoundOnGrid(lo, places);
    RoundOnGrid(hi, places);
  }

  lemma ZeroAndOneOnGrid(places: nat)
    ensures OnGrid(0.0, places) && OnGrid(1.0, places)
  {
  }

  lemma Scale4()
    ensures Scale(4) == 10000.0
  {
    assert Pow10(4) == 10000;
  }

  /** A whole number of hundredths has at most four decimals. */
  lemma HundredthsOnGrid(k: int)
    ensures OnGrid(k as real / 100.0, 4)
  {
    Scale4();
    var x := k as real / 100.0;
    var y := (100 * k) as real;
    assert x * Scale(4) == y by {
      assert x * 10000.0 == y;
    }
    assert y.Floor == 100 * k;
  }

  /** Ties go to the even neighbour, so rounding commutes with negation. */
  lemma RoundHalfEvenNegate(x: real)
    ensures RoundHalfEven(-x) == -RoundHalfEven(x)
  {
    var k := RoundHalfEven(x);
    assert (-k) % 2 == 0 <== k % 2 == 0;
    RoundHalfEvenUnique(-x, -k);
  }

  lemma RoundNegate(x: real, places: nat)
    ensures Round(-x, places) == -Round(x, places)
  {
    assert -x * Scale(places) == -(x * Scale(places));
    RoundHalfEvenNegate(x * Scale(places));
    RoundDef(x, places);
    RoundDef(-x, places);
  }
}
