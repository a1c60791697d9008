/** Go's integer division truncates toward zero; Dafny's is Euclidean. */
module GoInt {

  function Div(a: int, b: int): int
    requires b > 0
  {
    if a >= 0 then a / b else -((-a) / b)
  }

  lemma Distribute(a: int, b: int, k: int)
    ensures (a - b) * k == a * k - b * k && (a + b) * k == a * k + b * k
  {
  }

  /** For a non-negative dividend and for a non-positive one, what truncation leaves over. */
  lemma DivBounds(a: int, b: int)
    requires b > 0
    ensures a >= 0 ==> 0 <= a - Div(a, b) * b < b
    ensures a <= 0 ==> -b < a - Div(a, b) * b <= 0
  {
    if a < 0 {
      Distribute(0, (-a) / b, b);
    }
  }

  lemma DivFloor(x: nat, y: nat, b: int)
    requires b > 0
    ensures var q := Div(x * y, b); q >= 0 && b * q <= x * y < b * q + b
  {
    MulMonotone(0, x, y);
    var a := x * y;
    assert a == b * (a / b) + a % b;
  }

  lemma MulMonotone(a: int, b: int, k: nat)
    requires a <= b
    ensures a * k <= b * k && k * a <= k * b
  {
  }

  lemma QuotientAtMost(p: int, q: int, b: nat)
    requires p * b < q * b + b
    ensures p <= q
  {
    assert p * b - q * b == (p - q) * b;
    if p - q >= 1 { MulMonotone(1, p - q, b); }
  }

  /** Quotient from its defining bounds. */
  lemma DivUnique(a: int, b: int, q: int)
    requires b > 0 && q * b <= a < q * b + b
    ensures a / b == q
  {
    var r := a / b;
    assert r * b <= a < r * b + b;
    QuotientAtMost(r, q, b);
    QuotientAtMost(q, r, b);
  }

  lemma DivMonotone(a: int, c: int, b: int)
    requires b > 0 && a <= c
    ensures a / b <= c / b
  {
    var p, q := a / b, c / b;
    assert p * b <= a && c < q * b + b;
    QuotientAtMost(p, q, b);
  }
}
