/** Integer forms of the JavaScript number operations the model uses. */
module Numbers {
  /** `Math.round(a / d)`: the nearest integer, halves rounded up. */
  function RoundDiv(a: int, d: int): (r: int)
    requires d > 0
    ensures 2 * r * d - d <= 2 * a < 2 * r * d + d
  {
    var q := (2 * a + d) / (2 * d);
    assert q * (2 * d) <= 2 * a + d < q * (2 * d) + 2 * d;
    q
  }

  lemma MulLe(x: int, y: int, d: int)
    requires x <= y && d >= 0
    ensures x * d <= y * d
  {
    var k := y - x;
    assert y * d == x * d + k * d;
  }

  /** A rounded quotient of a value between `lo * d` and `hi * d` lies between `lo` and `hi`. */
  lemma RoundDivBounds(a: int, d: int, lo: int, hi: int)
    requires d > 0 && lo * d <= a <= hi * d
    ensures lo <= RoundDiv(a, d) <= hi
  {
    var r := RoundDiv(a, d);
    if r > hi {
      MulLe(hi + 1, r, d);
      assert false;
    }
    if r < lo {
      MulLe(r + 1, lo, d);
      assert false;
    }
  }
}
