/** `round` on reals: to the nearest grid value, ties to the even one. */
module Rounding {
  function RoundInt(y: real): int {
    var f := y.Floor;
    var over := y - f as real;
    if over < 0.5 || (over == 0.5 && f % 2 == 0) then f else f + 1
  }

  function Scaled(x: real, scale: nat): real {
    x * scale as real
  }

  function Unscaled(k: int, scale: nat): real
    requires scale > 0
  {
    k as real / scale as real
  }

  /** Round to `scale` steps per unit: 100 for two decimals. */
  function RoundTo(x: real, scale: nat): real
    requires scale > 0
  {
    Unscaled(RoundInt(Scaled(x, scale)), scale)
  }

  lemma RoundIntMonotone(a: real, b: real)
    requires a <= b
    ensures RoundInt(a) <= RoundInt(b)
  {
  }

  lemma ScaledMonotone(x: real, y: real, scale: nat)
    requires x <= y
    ensures Scaled(x, scale) <= Scaled(y, scale)
  {
  }

  lemma UnscaledMonotone(k: int, m: int, scale: nat)
    requires scale > 0 && k <= m
    ensures Unscaled(k, scale) <= Unscaled(m, scale)
  {
    var a, b, c := k as real, m as real, scale as real;
    assert b / c - a / c == (b - a) / c;
  }

  /** Rounding is monotone. */
  lemma RoundMonotone(x: real, y: real, scale: nat)
    requires scale > 0 && x <= y
    ensures RoundTo(x, scale) <= RoundTo(y, scale)
  {
    ScaledMonotone(x, y, scale);
    RoundIntMonotone(Scaled(x, scale), Scaled(y, scale));
    UnscaledMonotone(RoundInt(Scaled(x, scale)), RoundInt(Scaled(y, scale)), scale);
  }

  predicate OnGrid(x: real, scale: nat)
    requires scale > 0
  {
    RoundTo(x, scale) == x
  }

  /** Grid values are left alone, and rounding lands on the grid. */
  lemma GridIsFixed(k: int, scale: nat)
    requires scale > 0
    ensures OnGrid(Unscaled(k, scale), scale)
  {
    assert Scaled(Unscaled(k, scale), scale) == k as real;
  }

  lemma RoundLands(x: real, scale: nat)
    requires scale > 0
    ensures OnGrid(RoundTo(x, scale), scale)
  {
    GridIsFixed(RoundInt(Scaled(x, scale)), scale);
  }

  /** Between two grid values, rounding stays between them. */
  lemma RoundBetween(x: real, lo: real, hi: real, scale: nat)
    requires scale > 0 && OnGrid(lo, scale) && OnGrid(hi, scale) && lo <= x <= hi
    ensures lo <= RoundTo(x, scale) <= hi
  {
    RoundMonotone(lo, x, scale);
    RoundMonotone(x, hi, scale);
  }
}
