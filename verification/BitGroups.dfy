/** Regrouping a number's bits: `fromBits`-bit digits into `toBits`-bit digits. */
module BitGroups {
  import opened Options
  import GoInt

  function Pow2(n: nat): (r: nat)
    ensures r > 0
  {
    if n == 0 then 1 else 2 * Pow2(n - 1)
  }

  lemma {:induction false} Pow2Add(a: nat, b: nat)
    ensures Pow2(a + b) == Pow2(a) * Pow2(b)
  {
    if a > 0 { Pow2Add(a - 1, b); }
  }

  predicate Digits(s: seq<nat>, width: nat) {
    forall i :: 0 <= i < |s| ==> s[i] < Pow2(width)
  }

  /** The number written by big-endian digits of `width` bits. */
  function Val(s: seq<nat>, width: nat): nat {
    if s == [] then 0 else Val(s[..|s| - 1], width) * Pow2(width) + s[|s| - 1]
  }

  lemma ValAppend(s: seq<nat>, x: nat, width: nat)
    ensures Val(s + [x], width) == Val(s, width) * Pow2(width) + x
  {
    assert (s + [x])[..|s|] == s;
  }

  /** Digits are determined by their number and the value they write. */
  lemma {:induction false} DigitsUnique(a: seq<nat>, b: seq<nat>, width: nat)
    requires |a| == |b| && Digits(a, width) && Digits(b, width) && Val(a, width) == Val(b, width)
    ensures a == b
  {
    hide Pow2;
    if a != [] {
      var n := |a| - 1;
      var p, x, y := Pow2(width), Val(a[..n], width), Val(b[..n], width);
      GoInt.DivUnique(x * p + a[n], p, x);
      GoInt.DivUnique(y * p + b[n], p, y);
      DigitsUnique(a[..n], b[..n], width);
      assert a == a[..n] + [a[n]] && b == b[..n] + [b[n]];
    }
  }

  lemma DivDiv(a: nat, b: nat, c: nat)
    requires b > 0 && c > 0
    ensures b * c > 0 && a / b / c == a / (b * c)
  {
    var x := a / b;
    var q := x / c;
    var r, s := a % b, x % c;
    GoInt.MulMonotone(1, b, c);
    assert a == x * b + r && x == q * c + s;
    assert x * b == q * (b * c) + s * b by { assert (q * c + s) * b == q * c * b + s * b; assert q * c * b == q * (b * c); }
    GoInt.MulMonotone(s, c - 1, b);
    assert (c - 1) * b == b * c - b;
    GoInt.DivUnique(a, b * c, q);
  }

  /** Taking in one more digit leaves what lies above the pending bits alone. */
  lemma TakeIn(acc: nat, v: nat, bits: nat, from: nat)
    requires v < Pow2(from)
    ensures (acc * Pow2(from) + v) / Pow2(bits + from) == acc / Pow2(bits)
  {
    GoInt.DivUnique(acc * Pow2(from) + v, Pow2(from), acc);
    Pow2Add(from, bits);
    DivDiv(acc * Pow2(from) + v, Pow2(from), Pow2(bits));
  }

  /** Giving out the next digit. */
  lemma GiveOut(acc: nat, bits: nat, to: nat)
    ensures acc / Pow2(bits + to) * Pow2(to) + acc / Pow2(bits) % Pow2(to) == acc / Pow2(bits)
  {
    Pow2Add(bits, to);
    DivDiv(acc, Pow2(bits), Pow2(to));
  }

  lemma ScaledMod(a: nat, b: nat, up: nat)
    requires b > 0 && up > 0
    ensures b * up > 0 && a * up / (b * up) == a / b && a * up % (b * up) == a % b * up
  {
    var q, r := a / b, a % b;
    GoInt.MulMonotone(1, b, up);
    assert a == q * b + r;
    assert a * up == q * (b * up) + r * up by {
      assert (q * b + r) * up == q * b * up + r * up;
      assert q * b * up == q * (b * up);
    }
    GoInt.MulMonotone(r, b - 1, up);
    assert (b - 1) * up == b * up - up;
    GoInt.DivUnique(a * up, b * up, q);
    assert a * up == (a * up / (b * up)) * (b * up) + a * up % (b * up);
  }

  lemma ProductZero(r: nat, up: nat)
    requires up > 0
    ensures r * up == 0 <==> r == 0
  {
    if r > 0 { GoInt.MulMonotone(1, r, up); }
  }

  lemma ScaledDigit(a: nat, b: nat, up: nat, p: nat)
    requires b > 0 && up > 0 && p == b * up > 0
    ensures a / b * p + a * up % p == a * up
    ensures a * up % p == 0 <==> a % b == 0
  {
    ScaledMod(a, b, up);
    ProductZero(a % b, up);
    var total := a * up;
    assert total == total / p * p + total % p;
  }

  /** The digit made of the pending bits, shifted up to a full digit. */
  lemma LastDigit(acc: nat, bits: nat, to: nat)
    requires bits <= to
    ensures var x := acc * Pow2(to - bits) % Pow2(to);
      && acc / Pow2(bits) * Pow2(to) + x == acc * Pow2(to - bits)
      && (x == 0 <==> acc % Pow2(bits) == 0)
  {
    Pow2Add(bits, to - bits);
    ScaledDigit(acc, Pow2(bits), Pow2(to - bits), Pow2(to));
  }

  /** `out` is `data` regrouped with zero padding: as many digits as needed, all in range,
      writing the same number shifted left by the padding. */
  predicate Padded(data: seq<nat>, from: nat, out: seq<nat>, to: nat) {
    && to > 0
    && from * |data| <= to * |out| < from * |data| + to
    && Digits(out, to)
    && Val(out, to) == Val(data, from) * Pow2(to * |out| - from * |data|)
  }

  /** The result without padding: refused when a whole digit or a set bit is left over,
      else the leading digits. */
  predicate Unpadded(data: seq<nat>, from: nat, out: Option<seq<nat>>, to: nat) {
    && to > 0
    && var rest := from * |data| % to;
    && (out.None? <==> rest >= from || Val(data, from) % Pow2(rest) != 0)
    && (out.Some? ==>
          && to * |out.value| + rest == from * |data|
          && Digits(out.value, to)
          && Val(out.value, to) == Val(data, from) / Pow2(rest))
  }

  /** One round of the inner loop. */
  method Drain(acc: nat, bits0: nat, result0: seq<nat>, to: nat) returns (bits: nat, result: seq<nat>)
    requires to > 0 && Digits(result0, to) && Val(result0, to) == acc / Pow2(bits0)
    ensures bits < to && to * |result| + bits == to * |result0| + bits0
    ensures Digits(result, to) && Val(result, to) == acc / Pow2(bits)
  {
    hide Pow2, Val;
    bits, result := bits0, result0;
    while bits >= to
      invariant to * |result| + bits == to * |result0| + bits0
      invariant Digits(result, to) && Val(result, to) == acc / Pow2(bits)
    {
      GiveOut(acc, bits - to, to);
      bits := bits - to;
      var b := acc / Pow2(bits) % Pow2(to);
      ValAppend(result, b, to);
      assert to * |result + [b]| == to * |result| + to;
      result := result + [b];
    }
  }

  /** The accumulator is never masked, so `acc` is the whole number read so far. */
  method ConvertBits(data: seq<nat>, from: nat, to: nat, pad: bool) returns (r: Option<seq<nat>>)
    requires from > 0 && to > 0 && Digits(data, from)
    ensures pad ==> r.Some? && Padded(data, from, r.value, to)
    ensures !pad ==> Unpadded(data, from, r, to)
  {
    hide Pow2;
    var acc: nat, bits: nat, result: seq<nat> := 0, 0, [];
    for i := 0 to |data|
      invariant acc == Val(data[..i], from)
      invariant bits < to && to * |result| + bits == from * i
      invariant Digits(result, to) && Val(result, to) == acc / Pow2(bits)
    {
      assert data[..i + 1][..i] == data[..i];
      TakeIn(acc, data[i], bits, from);
      acc := acc * Pow2(from) + data[i];
      assert from * (i + 1) == from * i + from;
      bits, result := Drain(acc, bits + from, result, to);
    }
    assert data[..|data|] == data;
    if pad {
      PadDone(data, from, acc, bits, result, to);
      if bits > 0 {
        result := result + [acc * Pow2(to - bits) % Pow2(to)];
      }
    } else {
      LastDigit(acc, bits, to);
      RestIs(from * |data|, to, |result|, bits);
      if bits >= from || acc * Pow2(to - bits) % Pow2(to) != 0 {
        return None;
      }
    }
    return Some(result);
  }

  lemma PowZero()
    ensures Pow2(0) == 1
  {
  }

  lemma PadDone(data: seq<nat>, from: nat, acc: nat, bits: nat, result: seq<nat>, to: nat)
    requires to > 0 && acc == Val(data, from) && bits < to && to * |result| + bits == from * |data|
    requires Digits(result, to) && Val(result, to) == acc / Pow2(bits)
    ensures Padded(data, from, if bits > 0 then result + [acc * Pow2(to - bits) % Pow2(to)] else result, to)
  {
    hide Pow2, Val;
    if bits > 0 {
      var x := acc * Pow2(to - bits) % Pow2(to);
      LastDigit(acc, bits, to);
      ValAppend(result, x, to);
      assert to * |result + [x]| == to * |result| + to;
    } else {
      PowZero();
      assert acc / 1 == acc == acc * 1;
    }
  }

  lemma RestIs(total: nat, to: nat, q: nat, rest: nat)
    requires to > 0 && to * q + rest == total && rest < to
    ensures total % to == rest
  {
    GoInt.DivUnique(total, to, q);
  }

  /** Bytes to 5-bit groups and back: the groups number ceil(8n/5), are below 32, and
      regrouping them without padding is never refused and gives the bytes back. */
  lemma RoundTrip(data: seq<nat>, mid: seq<nat>, back: Option<seq<nat>>)
    requires Digits(data, 8) && Padded(data, 8, mid, 5) && Unpadded(mid, 5, back, 8)
    ensures |mid| == (8 * |data| + 4) / 5 && (forall i :: 0 <= i < |mid| ==> mid[i] < 32)
    ensures back == Some(data)
  {
    var shift := 5 * |mid| - 8 * |data|;
    assert Pow2(5) == 32;
    RestIs(5 * |mid|, 8, |data|, shift);
    var v, p := Val(data, 8), Pow2(shift);
    assert v * p / p == v && v * p % p == 0 by { GoInt.DivUnique(v * p, p, v); }
    DigitsUnique(back.value, data, 8);
  }

  /** Different bytes never share their groups. */
  lemma GroupsInjective(a: seq<nat>, b: seq<nat>, mid: seq<nat>)
    requires Digits(a, 8) && Digits(b, 8) && Padded(a, 8, mid, 5) && Padded(b, 8, mid, 5)
    ensures a == b
  {
    assert |a| == |b|;
    var p := Pow2(5 * |mid| - 8 * |a|);
    GoInt.DivUnique(Val(a, 8) * p, p, Val(a, 8));
    GoInt.DivUnique(Val(b, 8) * p, p, Val(b, 8));
    DigitsUnique(a, b, 8);
  }
}
