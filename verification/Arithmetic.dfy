/** Division facts that the solver does not find by itself. */
module Arithmetic {
  lemma ModStep(v: int, m: nat)
    requires m >= 1
    ensures v % (2 * m) == 2 * ((v / 2) % m) + v % 2
  {
    var h := v / 2;
    var q, d := h / m, 2 * (h % m) + v % 2;
    assert h == q * m + h % m;
    assert v == q * (2 * m) + d;
    assert 0 <= d < 2 * m;
    ModUnique(v, 2 * m, q, d);
  }

  lemma ModUnique(v: int, m: nat, q: int, d: nat)
    requires m >= 1 && v == q * m + d && d < m
    ensures v % m == d
  {
    MulStep(v / m, q, m);
    MulStep(q, v / m, m);
  }

  lemma MulStep(a: int, b: int, m: nat)
    ensures a < b ==> a * m + m <= b * m
  {
    var d := b - a - 1;
    assert b * m == a * m + m + d * m;
  }

  lemma DivMonotone(a: nat, b: nat, d: nat)
    requires a <= b && d > 0
    ensures a / d <= b / d
  {
    if a / d > b / d {
      MulStep(b / d, a / d, d);
    }
  }
}
