/** How the number of whole windows in a span of time changes with the span. */
module Division {

  lemma TimesAtLeast(d: int, k: int)
    requires d > 0 && k >= 1
    ensures d * k >= d
  {
  }

  lemma DivideLess(x: int, y: int, d: int)
    requires d > 0 && 0 <= x <= y
    ensures 0 <= x / d <= y / d
  {
    var p, q := x / d, y / d;
    assert x == d * p + x % d && y == d * q + y % d;
    if p > q {
      assert d * (p - q) >= d by { TimesAtLeast(d, p - q); }
    }
    assert p >= 0;
  }

  lemma DivideUnique(x: int, d: int, q: int, r: int)
    requires d > 0 && x == d * q + r && 0 <= r < d
    ensures x / d == q
  {
    var p, t := x / d, x % d;
    assert d * (p - q) == r - t && d * (q - p) == t - r;
    if p > q {
      TimesAtLeast(d, p - q);
    } else if q > p {
      TimesAtLeast(d, q - p);
    }
  }

  lemma DivideStep(x: int, d: int)
    requires 0 < d <= x
    ensures (x - d) / d == x / d - 1
  {
    var q, r := x / d, x % d;
    assert x - d == d * (q - 1) + r;
    DivideUnique(x - d, d, q - 1, r);
  }
}
