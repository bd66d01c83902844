/** The few facts about products and quotients the other modules lean on. */
module Arithmetic {

  lemma MulMono(a: int, b: int, k: int)
    requires a <= b && 0 <= k
    ensures a * k <= b * k
  {
  }

  lemma DivMono(a: int, b: int, d: int)
    requires a <= b && d > 0
    ensures a / d <= b / d
  {
    var e := a / d - b / d;
    assert a - b == e * d + (a % d - b % d);
    if e >= 1 { MulMono(1, e, d); }
  }

  lemma DivUnique(q: int, d: int, r: int)
    requires 0 <= r < d
    ensures (q * d + r) / d == q && (q * d + r) % d == r
  {
    var x := q * d + r;
    var e := x / d - q;
    assert x == (x / d) * d + x % d;
    assert e * d == r - x % d;
    if e >= 1 { MulMono(1, e, d); }
    if e <= -1 { MulMono(e, -1, d); }
  }

  lemma DivShift(x: int, d: int)
    requires d > 0
    ensures x / d == (x - d) / d + 1
  {
    var q, r := (x - d) / d, (x - d) % d;
    assert x == (q + 1) * d + r;
    DivUnique(q + 1, d, r);
  }

  lemma MultipleSum(x: int, y: int, d: int, c: int)
    requires d > 0 && x % d == 0 && y % d == 0
    ensures (x + c * y) % d == 0
  {
    var a, b := x / d, y / d;
    assert x == a * d && y == b * d;
    assert c * (b * d) == (c * b) * d;
    assert (a + c * b) * d == a * d + (c * b) * d;
    DivUnique(a + c * b, d, 0);
  }

  lemma MultipleAtLeast(x: int, d: int)
    requires d > 0 && x > 0 && x % d == 0
    ensures x / d >= 1
  {
    if x / d <= 0 {
      MulMono(x / d, 0, d);
    }
  }
}
