/** Arithmetic shared by the fit gate and the gateway: exact reals, truncated where the source truncates. */
module Numbers {

  function Max(a: int, b: int): int { if a < b then b else a }

  function Min(a: int, b: int): int { if a < b then a else b }

  /** Python's `int()` on a number: truncation toward zero. */
  function Trunc(x: real): int {
    if x >= 0.0 then x.Floor else -(-x).Floor
  }

  function CeilDiv(a: nat, b: nat): nat
    requires 1 <= b
  {
    (a + b - 1) / b
  }

  lemma TruncMono(x: real, y: real)
    requires x <= y
    ensures Trunc(x) <= Trunc(y)
  {
    if 0.0 <= x {
      assert x.Floor <= y.Floor;
    } else if y < 0.0 {
      assert (-y).Floor <= (-x).Floor;
    }
  }

  lemma MulMono(a: real, b: real, c: real)
    requires a <= b && 0.0 <= c
    ensures a * c <= b * c
  {
    assert 0.0 <= (b - a) * c;
  }

  lemma MulNonneg(a: real, b: real)
    requires 0.0 <= a && 0.0 <= b
    ensures 0.0 <= a * b
  {}

  lemma MulMono2(a: real, b: real, c: real, d: real)
    requires 0.0 <= a <= b && 0.0 <= c <= d
    ensures a * c <= b * d
  {
    MulMono(a, b, c);
    MulMono(c, d, b);
  }

  /** Dividing by more gives less. */
  lemma DivAnti(x: real, p: real, q: real)
    requires 0.0 <= x && 0.0 < p <= q
    ensures x / q <= x / p
  {
    var y := x / q;
    assert y * q == x;
    MulMono(p, q, y);
    assert y * p <= x;
  }

  lemma DivMono(x: real, y: real, p: real)
    requires x <= y && 0.0 < p
    ensures x / p <= y / p
  {}

  lemma IntMulMono(a: int, b: int, c: int)
    requires a <= b && 0 <= c
    ensures a * c <= b * c
  {}
}
