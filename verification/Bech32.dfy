/** The checksum of BIP-173 (section "Bech32", subsection "Checksum"). */
module Bech32 {

  /** The code works on bytes; a symbol is a byte below 32. */
  type Byte = bv8

  const STATE_BOUND: bv32 := 0x4000_0000

  /** One generator constant, taken in when its bit is set. */
  function Tap(c: bv32, bit: bv32): bv32 {
    c * bit
  }

  /** Bit k of the five bits that fall out of the register. */
  function Bit(x: bv32, k: bv32): bv32
    requires k < 32
  {
    (x >> 25 >> k) & 1
  }

  function Kept(x: bv32): bv32 {
    (x & 0x1FFFFFF) << 5
  }

  function Xor(a: bv32, b: bv32): bv32 {
    a ^ b
  }

  function Xor6(a: bv32, b: bv32, c: bv32, d: bv32, e: bv32, f: bv32): bv32 {
    Xor(Xor(Xor(Xor(Xor(a, b), c), d), e), f)
  }

  function PolymodStep(pre: bv32): bv32 {
    Xor6(Kept(pre),
         Tap(0x3b6a57b2, Bit(pre, 0)),
         Tap(0x26508e6d, Bit(pre, 1)),
         Tap(0x1ea119fa, Bit(pre, 2)),
         Tap(0x3d4233dd, Bit(pre, 3)),
         Tap(0x2a1462b3, Bit(pre, 4)))
  }

  /** The register after feeding `values` into the state `p`. */
  function Feed(p: bv32, values: seq<Byte>): bv32 {
    if values == [] then p
    else PolymodStep(Feed(p, values[..|values| - 1])) ^ (values[|values| - 1] as bv32)
  }

  function High(c: Byte): Byte {
    c >> 5
  }

  function Low(c: Byte): Byte {
    c & 31
  }

  function HrpExpand(hrp: seq<Byte>): seq<Byte> {
    seq(|hrp|, i requires 0 <= i < |hrp| => High(hrp[i])) + [0] + seq(|hrp|, i requires 0 <= i < |hrp| => Low(hrp[i]))
  }

  predicate Symbols(s: seq<Byte>) {
    forall i :: 0 <= i < |s| ==> s[i] < 32
  }

  /** `k` steps on zero symbols. */
  function Steps(p: bv32, k: nat): bv32 {
    if k == 0 then p else PolymodStep(Steps(p, k - 1))
  }

  /** The shift 5 * (5 - i) of the i-th checksum symbol. */
  function Shift(i: nat): bv32
    requires i < 6
  {
    [25, 20, 15, 10, 5, 0][i]
  }

  function Digit(m: bv32, i: nat): Byte
    requires i < 6
  {
    ((m >> Shift(i)) & 31) as bv8
  }

  function Digits(m: bv32): seq<Byte> {
    seq(6, i requires 0 <= i < 6 => Digit(m, i))
  }

  function Checksum(hrp: seq<Byte>, data: seq<Byte>): seq<Byte> {
    Digits(Steps(Feed(1, HrpExpand(hrp) + data), 6) ^ 1)
  }

  /** What a decoder accepts: the register ends at 1. */
  predicate Valid(hrp: seq<Byte>, word: seq<Byte>) {
    Feed(1, HrpExpand(hrp) + word) == 1
  }

  // ----- the code -----

  method Bech32HrpExpand(hrp: seq<Byte>) returns (ret: seq<Byte>)
    ensures ret == HrpExpand(hrp)
  {
    var n := |hrp|;
    var a := new Byte[2 * n + 1](_ => 0);
    for i := 0 to n
      invariant forall k :: 0 <= k < i ==> a[k] == High(hrp[k]) && a[k + n + 1] == Low(hrp[k])
      invariant a[n] == 0
    {
      a[i] := High(hrp[i]);
      a[i + n + 1] := Low(hrp[i]);
    }
    a[n] := 0;
    assert a[..] == HrpExpand(hrp);
    return a[..];
  }

  method FeedValues(values: seq<Byte>) returns (polymod: bv32)
    ensures polymod == Feed(1, values)
  {
    hide PolymodStep;
    polymod := 1;
    for i := 0 to |values|
      invariant polymod == Feed(1, values[..i])
    {
      FeedLast(1, values[..i + 1]);
      assert values[..i + 1][..i] == values[..i];
      polymod := PolymodStep(polymod) ^ (values[i] as bv32);
    }
    assert values[..|values|] == values;
  }

  method Bech32Checksum(hrp: seq<Byte>, data: seq<Byte>) returns (ret: seq<Byte>)
    ensures ret == Checksum(hrp, data)
  {
    hide PolymodStep, Digit, HrpExpand, Feed;
    var expanded := Bech32HrpExpand(hrp);
    var values := expanded + data;
    var polymod := FeedValues(values);
    for k := 0 to 6
      invariant polymod == Steps(Feed(1, values), k)
    {
      StepsLast(Feed(1, values), k);
      polymod := PolymodStep(polymod);
    }
    polymod := polymod ^ 1;
    var a := new Byte[6](_ => 0);
    for i := 0 to 6
      invariant forall j :: 0 <= j < i ==> a[j] == Digit(polymod, j)
    {
      a[i] := Digit(polymod, i);
    }
    assert a[..] == Digits(polymod);
    return a[..];
  }

  // ----- the step over GF(2) -----

  lemma StepBound(x: bv32)
    ensures PolymodStep(x) < STATE_BOUND
  {
  }

  lemma NoBits(x: bv32, k: bv32)
    requires x < 0x200_0000 && k < 32
    ensures Bit(x, k) == 0
  {
  }

  lemma KeptSmall(x: bv32)
    requires x < 0x200_0000
    ensures Kept(x) == x << 5
  {
  }

  lemma TapZero(c: bv32)
    ensures Tap(c, 0) == 0
  {
  }

  lemma XorZero(x: bv32)
    ensures Xor(x, 0) == x
  {
  }

  /** Nothing falls out of a small register. */
  lemma StepSmall(x: bv32)
    requires x < 0x200_0000
    ensures PolymodStep(x) == x << 5
  {
    hide Xor, Kept, Tap, Bit;
    NoBits(x, 0);
    NoBits(x, 1);
    NoBits(x, 2);
    NoBits(x, 3);
    NoBits(x, 4);
    TapZero(0x3b6a57b2);
    TapZero(0x26508e6d);
    TapZero(0x1ea119fa);
    TapZero(0x3d4233dd);
    TapZero(0x2a1462b3);
    KeptSmall(x);
    XorZero(x << 5);
  }

  /** Only the zero state steps to zero. */
  lemma StepKernel(x: bv32)
    requires x < STATE_BOUND && PolymodStep(x) == 0
    ensures x == 0
  {
  }

  lemma TapLinear(c: bv32, p: bv32, q: bv32)
    requires p <= 1 && q <= 1
    ensures Tap(c, p ^ q) == Xor(Tap(c, p), Tap(c, q))
  {
    if p == 0 {
      assert p ^ q == q && c * p == 0;
      assert 0 ^ (c * q) == c * q;
    } else if q == 0 {
      assert p ^ q == p;
    } else {
      assert p == 1 && q == 1 && p ^ q == 0 && c * p == c && c ^ c == 0;
    }
  }

  lemma KeptLinear(x: bv32, y: bv32)
    ensures Kept(Xor(x, y)) == Xor(Kept(x), Kept(y))
  {
  }

  lemma XorShiftRight(x: bv32, y: bv32, k: bv32)
    requires k < 32
    ensures ((x ^ y) >> 25 >> k) & 1 == ((x >> 25 >> k) & 1) ^ ((y >> 25 >> k) & 1)
  {
  }

  lemma LastBit(x: bv32)
    ensures x & 1 <= 1
  {
  }

  lemma BitLinear(x: bv32, y: bv32, k: bv32)
    requires k < 32
    ensures Bit(Xor(x, y), k) == Bit(x, k) ^ Bit(y, k)
    ensures Bit(x, k) <= 1 && Bit(y, k) <= 1
  {
    XorShiftRight(x, y, k);
    LastBit(x >> 25 >> k);
    LastBit(y >> 25 >> k);
  }

  lemma TapBitLinear(c: bv32, x: bv32, y: bv32, k: bv32)
    requires k < 32
    ensures Tap(c, Bit(Xor(x, y), k)) == Xor(Tap(c, Bit(x, k)), Tap(c, Bit(y, k)))
  {
    hide *;
    BitLinear(x, y, k);
    TapLinear(c, Bit(x, k), Bit(y, k));
  }

  lemma XorCommutes(a: bv32, b: bv32)
    ensures Xor(a, b) == Xor(b, a)
  {
  }

  lemma XorAssociates(a: bv32, b: bv32, c: bv32)
    ensures Xor(Xor(a, b), c) == Xor(a, Xor(b, c))
  {
  }

  lemma Swap(a: bv32, a': bv32, b: bv32, b': bv32)
    ensures Xor(Xor(a, a'), Xor(b, b')) == Xor(Xor(a, b), Xor(a', b'))
  {
    hide Xor;
    XorAssociates(a, a', Xor(b, b'));
    XorAssociates(a', b, b');
    XorCommutes(a', b);
    XorAssociates(b, a', b');
    XorAssociates(a, b, Xor(a', b'));
  }

  lemma XorOfXors(a: bv32, b: bv32, c: bv32, d: bv32, e: bv32, f: bv32, a': bv32, b': bv32, c': bv32, d': bv32, e': bv32, f': bv32)
    ensures Xor6(Xor(a, a'), Xor(b, b'), Xor(c, c'), Xor(d, d'), Xor(e, e'), Xor(f, f'))
            == Xor(Xor6(a, b, c, d, e, f), Xor6(a', b', c', d', e', f'))
  {
    hide Xor;
    Swap(a, a', b, b');
    Swap(Xor(a, b), Xor(a', b'), c, c');
    Swap(Xor(Xor(a, b), c), Xor(Xor(a', b'), c'), d, d');
    Swap(Xor(Xor(Xor(a, b), c), d), Xor(Xor(Xor(a', b'), c'), d'), e, e');
    Swap(Xor(Xor(Xor(Xor(a, b), c), d), e), Xor(Xor(Xor(Xor(a', b'), c'), d'), e'), f, f');
  }

  /** The step is linear over GF(2). */
  lemma StepLinear(x: bv32, y: bv32)
    ensures PolymodStep(Xor(x, y)) == Xor(PolymodStep(x), PolymodStep(y))
  {
    hide Xor, Xor6, Kept, Tap, Bit;
    KeptLinear(x, y);
    TapBitLinear(0x3b6a57b2, x, y, 0);
    TapBitLinear(0x26508e6d, x, y, 1);
    TapBitLinear(0x1ea119fa, x, y, 2);
    TapBitLinear(0x3d4233dd, x, y, 3);
    TapBitLinear(0x2a1462b3, x, y, 4);
    XorOfXors(Kept(x), Tap(0x3b6a57b2, Bit(x, 0)), Tap(0x26508e6d, Bit(x, 1)), Tap(0x1ea119fa, Bit(x, 2)),
              Tap(0x3d4233dd, Bit(x, 3)), Tap(0x2a1462b3, Bit(x, 4)),
              Kept(y), Tap(0x3b6a57b2, Bit(y, 0)), Tap(0x26508e6d, Bit(y, 1)), Tap(0x1ea119fa, Bit(y, 2)),
              Tap(0x3d4233dd, Bit(y, 3)), Tap(0x2a1462b3, Bit(y, 4)));
  }

  // ----- six symbols -----

  lemma SymbolBits(x: Byte)
    requires x < 32
    ensures (x as bv32) < 32 && (x as bv32) as bv8 == x
  {
  }

  function Push(e: bv32, v: bv32): bv32 {
    (e << 5) ^ v
  }

  /** Symbols packed five bits each. */
  function Pack(c: seq<Byte>): bv32 {
    if c == [] then 0 else Push(Pack(c[..|c| - 1]), c[|c| - 1] as bv32)
  }

  function Bound(n: nat): bv32
    requires n <= 6
  {
    [1, 0x20, 0x400, 0x8000, 0x10_0000, 0x200_0000, 0x4000_0000][n]
  }

  lemma XorShift(a: bv32, e: bv32, v: bv32)
    ensures Xor(Xor(a, e << 5), v) == Xor(a, Push(e, v))
  {
  }

  /** A symbol entering a register that is offset by packed symbols. */
  lemma StepXor(p: bv32, e: bv32, v: bv32)
    requires e < 0x200_0000
    ensures Xor(PolymodStep(Xor(p, e)), v) == Xor(PolymodStep(p), Push(e, v))
  {
    hide *;
    StepLinear(p, e);
    StepSmall(e);
    XorShift(PolymodStep(p), e, v);
  }

  lemma PushBound(e: bv32, v: bv32)
    requires v < 32
    ensures e < 1 ==> Push(e, v) < 0x20
    ensures e < 0x20 ==> Push(e, v) < 0x400
    ensures e < 0x400 ==> Push(e, v) < 0x8000
    ensures e < 0x8000 ==> Push(e, v) < 0x10_0000
    ensures e < 0x10_0000 ==> Push(e, v) < 0x200_0000
    ensures e < 0x200_0000 ==> Push(e, v) < 0x4000_0000
  {
  }

  lemma {:induction false} PackBound(c: seq<Byte>)
    requires |c| <= 6 && Symbols(c)
    ensures Pack(c) < Bound(|c|)
  {
    if c != [] {
      var n := |c| - 1;
      PackBound(c[..n]);
      SymbolBits(c[n]);
      PushBound(Pack(c[..n]), c[n] as bv32);
    }
  }

  lemma BoundTop(n: nat, x: bv32)
    requires n <= 5 && x < Bound(n)
    ensures x < 0x200_0000
  {
  }

  lemma FeedLast(p: bv32, c: seq<Byte>)
    requires c != []
    ensures var n := |c| - 1; Feed(p, c) == Xor(PolymodStep(Feed(p, c[..n])), c[n] as bv32)
  {
    hide PolymodStep;
  }

  lemma PackLast(c: seq<Byte>)
    requires c != []
    ensures var n := |c| - 1; Pack(c) == Push(Pack(c[..n]), c[n] as bv32)
  {
  }

  lemma StepsLast(p: bv32, n: nat)
    ensures Steps(p, n + 1) == PolymodStep(Steps(p, n))
  {
    hide PolymodStep;
  }

  /** Up to six symbols reach the register unchanged: they are XORed onto as many empty steps. */
  lemma {:induction false} FeedIsXor(p: bv32, c: seq<Byte>)
    requires |c| <= 6 && Symbols(c)
    ensures Feed(p, c) == Xor(Steps(p, |c|), Pack(c))
    decreases |c|, 1
  {
    hide PolymodStep;
    if c == [] {
      XorZero(p);
    } else {
      FeedIsXorStep(p, c);
    }
  }

  lemma {:induction false} FeedIsXorStep(p: bv32, c: seq<Byte>)
    requires 0 < |c| <= 6 && Symbols(c)
    ensures Feed(p, c) == Xor(Steps(p, |c|), Pack(c))
    decreases |c|, 0
  {
    hide PolymodStep, Feed, Pack, Steps, Bound, Xor, Push;
    var n := |c| - 1;
    FeedIsXor(p, c[..n]);
    assert |c[..n]| == n;
    PackBound(c[..n]);
    BoundTop(n, Pack(c[..n]));
    FeedLast(p, c);
    PackLast(c);
    StepsLast(p, n);
    StepXor(Steps(p, n), Pack(c[..n]), c[n] as bv32);
  }

  // ----- the checksum -----

  function Packed(a: bv32, b: bv32, c: bv32, d: bv32, e: bv32, f: bv32): bv32 {
    Push(Push(Push(Push(Push(Push(0, a), b), c), d), e), f)
  }

  lemma PackSix(c: seq<Byte>)
    requires |c| == 6
    ensures Pack(c) == Packed(c[0] as bv32, c[1] as bv32, c[2] as bv32, c[3] as bv32, c[4] as bv32, c[5] as bv32)
  {
    hide Push;
    PackLast(c);
    PackLast(c[..5]);
    PackLast(c[..4]);
    PackLast(c[..3]);
    PackLast(c[..2]);
    PackLast(c[..1]);
    assert c[..5][..4] == c[..4] && c[..4][..3] == c[..3] && c[..3][..2] == c[..2] && c[..2][..1] == c[..1] && c[..1][..0] == [];
  }

  lemma PackedDigits(m: bv32)
    requires m < STATE_BOUND
    ensures Packed((m >> 25) & 31, (m >> 20) & 31, (m >> 15) & 31, (m >> 10) & 31, (m >> 5) & 31, (m >> 0) & 31) == m
  {
  }

  lemma DigitsPacked(a: bv32, b: bv32, c: bv32, d: bv32, e: bv32, f: bv32)
    requires a < 32 && b < 32 && c < 32 && d < 32 && e < 32 && f < 32
    ensures var m := Packed(a, b, c, d, e, f);
      && (m >> 25) & 31 == a && (m >> 20) & 31 == b && (m >> 15) & 31 == c
      && (m >> 10) & 31 == d && (m >> 5) & 31 == e && (m >> 0) & 31 == f
  {
  }

  lemma DigitWide(m: bv32, i: nat)
    requires i < 6
    ensures Digit(m, i) as bv32 == (m >> Shift(i)) & 31
    ensures Digit(m, i) < 32
  {
  }

  lemma DigitIs(m: bv32, i: nat, c: Byte)
    requires i < 6 && (m >> Shift(i)) & 31 == c as bv32
    ensures Digit(m, i) == c
  {
  }

  lemma DigitsAreSymbols(m: bv32)
    ensures Symbols(Digits(m))
  {
    hide Digit;
    forall i | 0 <= i < 6 ensures Digits(m)[i] < 32 { DigitWide(m, i); }
  }

  /** Taking a 30-bit state apart into six symbols and packing them is the identity. */
  lemma PackDigits(m: bv32)
    requires m < STATE_BOUND
    ensures Pack(Digits(m)) == m
  {
    hide Pack, Packed, Digit;
    PackSix(Digits(m));
    DigitWide(m, 0);
    DigitWide(m, 1);
    DigitWide(m, 2);
    DigitWide(m, 3);
    DigitWide(m, 4);
    DigitWide(m, 5);
    PackedDigits(m);
  }

  /** And back: six symbols are the digits of their packing. */
  lemma DigitsPack(c: seq<Byte>)
    requires |c| == 6 && Symbols(c)
    ensures Digits(Pack(c)) == c
  {
    hide Pack, Packed, Digit;
    PackSix(c);
    forall i | 0 <= i < 6 ensures c[i] as bv32 < 32 && (c[i] as bv32) as bv8 == c[i] { SymbolBits(c[i]); }
    var m := Pack(c);
    DigitsPacked(c[0] as bv32, c[1] as bv32, c[2] as bv32, c[3] as bv32, c[4] as bv32, c[5] as bv32);
    DigitIs(m, 0, c[0]);
    DigitIs(m, 1, c[1]);
    DigitIs(m, 2, c[2]);
    DigitIs(m, 3, c[3]);
    DigitIs(m, 4, c[4]);
    DigitIs(m, 5, c[5]);
  }

  // ----- what the checksum is for -----

  lemma {:induction false} FeedConcat(p: bv32, a: seq<Byte>, b: seq<Byte>)
    ensures Feed(p, a + b) == Feed(Feed(p, a), b)
  {
    hide Xor, PolymodStep;
    if b == [] {
      assert a + b == a;
    } else {
      var n := |b| - 1;
      FeedConcat(p, a, b[..n]);
      assert (a + b)[..|a + b| - 1] == a + b[..n];
      FeedLast(p, a + b);
      FeedLast(Feed(p, a), b);
    }
  }

  lemma XorBound(m: bv32)
    requires m < STATE_BOUND
    ensures m ^ 1 < STATE_BOUND
  {
  }

  lemma XorSelf(v: bv32)
    ensures Xor(v, v) == 0
  {
  }

  lemma XorBack(s: bv32, e: bv32)
    ensures Xor(s, Xor(s, e)) == e
  {
    hide Xor;
    XorAssociates(s, s, e);
    XorSelf(s);
    XorCommutes(0, e);
    XorZero(e);
  }

  lemma XorIs(s: bv32, v: bv32)
    ensures Xor(s, v) == s ^ v
  {
  }

  lemma XorSolve(s: bv32, e: bv32)
    ensures Xor(s, e) == 1 <==> e == s ^ 1
  {
    hide Xor;
    XorIs(s, 1);
    XorBack(s, e);
    XorBack(s, 1);
  }

  /** Of all six-symbol endings exactly the checksum makes a word valid, whatever the prefix and the data. */
  lemma ChecksumExact(hrp: seq<Byte>, data: seq<Byte>, c: seq<Byte>)
    requires |c| == 6 && Symbols(c)
    ensures Valid(hrp, data + c) <==> c == Checksum(hrp, data)
  {
    hide Digits, Steps, HrpExpand, Xor, Pack, PolymodStep;
    var s := Feed(1, HrpExpand(hrp) + data);
    assert HrpExpand(hrp) + (data + c) == (HrpExpand(hrp) + data) + c;
    FeedConcat(1, HrpExpand(hrp) + data, c);
    FeedIsXor(s, c);
    var m := Steps(s, 6);
    StepsLast(s, 5);
    StepBound(Steps(s, 5));
    XorBound(m);
    XorSolve(m, Pack(c));
    PackDigits(m ^ 1);
    DigitsAreSymbols(m ^ 1);
    DigitsPack(c);
  }

  /** The computed checksum is a valid ending made of symbols. */
  lemma ChecksumValid(hrp: seq<Byte>, data: seq<Byte>)
    ensures |Checksum(hrp, data)| == 6 && Symbols(Checksum(hrp, data))
    ensures Valid(hrp, data + Checksum(hrp, data))
  {
    hide Digit, Valid, HrpExpand, Feed, Steps;
    DigitsAreSymbols(Steps(Feed(1, HrpExpand(hrp) + data), 6) ^ 1);
    ChecksumExact(hrp, data, Checksum(hrp, data));
  }

  lemma XorCancels(p: bv32, q: bv32, v: bv32)
    ensures Xor(Xor(p, v), Xor(q, v)) == Xor(p, q)
  {
    hide Xor;
    Swap(p, v, q, v);
    XorSelf(v);
    XorZero(Xor(p, q));
  }

  lemma XorSame(p: bv32, q: bv32)
    ensures Xor(p, q) == 0 <==> p == q
  {
    hide Xor;
    XorBack(p, q);
    XorZero(p);
    XorSelf(p);
  }

  /** The register never leaves 30 bits. */
  predicate IsState(x: bv32) {
    x < STATE_BOUND
  }

  /** A difference that has not vanished. */
  predicate Live(x: bv32) {
    x != 0 && x < STATE_BOUND
  }

  /** Two registers fed the same values differ as if nothing but their difference were stepped. */
  lemma {:induction false} FeedDifference(p: bv32, q: bv32, b: seq<Byte>)
    ensures Xor(Feed(p, b), Feed(q, b)) == Steps(Xor(p, q), |b|)
  {
    hide Xor, PolymodStep;
    if b != [] {
      var n := |b| - 1;
      FeedDifference(p, q, b[..n]);
      FeedLast(p, b);
      FeedLast(q, b);
      var p', q' := Feed(p, b[..n]), Feed(q, b[..n]);
      XorCancels(PolymodStep(p'), PolymodStep(q'), b[n] as bv32);
      StepLinear(p', q');
    }
  }

  lemma {:induction false} StepsNonZero(d: bv32, n: nat)
    requires Live(d)
    ensures Live(Steps(d, n))
  {
    hide PolymodStep;
    if n > 0 {
      StepsNonZero(d, n - 1);
      StepBound(Steps(d, n - 1));
      if PolymodStep(Steps(d, n - 1)) == 0 { StepKernel(Steps(d, n - 1)); }
    }
  }

  lemma PushInjective(e: bv32, v: bv32, e': bv32, v': bv32)
    requires IsSymbol(v) && IsSymbol(v') && Small(e) && Small(e') && Push(e, v) == Push(e', v')
    ensures e == e' && v == v'
  {
  }

  predicate Small(x: bv32) {
    x < 0x200_0000
  }

  predicate IsSymbol(v: bv32) {
    v < 32
  }

  lemma PackSmall(c: seq<Byte>)
    requires |c| <= 5 && Symbols(c)
    ensures Small(Pack(c))
  {
    hide Pack, Bound, Symbols;
    PackBound(c);
    BoundTop(|c|, Pack(c));
  }

  lemma SymbolWide(c: seq<Byte>, i: nat)
    requires i < |c| && Symbols(c)
    ensures IsSymbol(c[i] as bv32) && (c[i] as bv32) as bv8 == c[i]
  {
    SymbolBits(c[i]);
  }

  lemma PackLastSymbol(c: seq<Byte>, c': seq<Byte>)
    requires 0 < |c| == |c'| <= 6 && Symbols(c) && Symbols(c') && Pack(c) == Pack(c')
    ensures var n := |c| - 1; Pack(c[..n]) == Pack(c'[..n]) && c[n] == c'[n]
  {
    hide Push, Pack, Small, IsSymbol;
    var n := |c| - 1;
    PackLast(c);
    PackLast(c');
    PackSmall(c[..n]);
    PackSmall(c'[..n]);
    SymbolWide(c, n);
    SymbolWide(c', n);
    PushInjective(Pack(c[..n]), c[n] as bv32, Pack(c'[..n]), c'[n] as bv32);
  }

  lemma {:induction false} PackInjective(c: seq<Byte>, c': seq<Byte>)
    requires |c| == |c'| <= 6 && Symbols(c) && Symbols(c') && Pack(c) == Pack(c')
    ensures c == c'
  {
    hide Pack;
    if c != [] {
      var n := |c| - 1;
      PackLastSymbol(c, c');
      PackInjective(c[..n], c'[..n]);
      assert c == c[..n] + [c[n]] && c' == c'[..n] + [c'[n]];
    }
  }

  lemma XorBelow(e: bv32, e': bv32)
    requires IsState(e) && IsState(e') && e != e'
    ensures Live(Xor(e, e'))
  {
  }

  lemma BoundSix(n: nat, x: bv32)
    requires n <= 6 && x < Bound(n)
    ensures x < STATE_BOUND
  {
  }

  /** Damage confined to six neighbouring symbols never turns one valid word into another. */
  lemma BurstDetected(hrp: seq<Byte>, a: seq<Byte>, c: seq<Byte>, c': seq<Byte>, b: seq<Byte>)
    requires |c| == |c'| <= 6 && Symbols(c) && Symbols(c') && c != c'
    ensures !(Valid(hrp, a + c + b) && Valid(hrp, a + c' + b))
  {
    hide Steps, HrpExpand, Xor, Pack, PolymodStep, Bound, Feed;
    var h := HrpExpand(hrp) + a;
    assert HrpExpand(hrp) + (a + c + b) == h + c + b;
    assert HrpExpand(hrp) + (a + c' + b) == h + c' + b;
    FeedConcat(1, h + c, b);
    FeedConcat(1, h, c);
    FeedConcat(1, h + c', b);
    FeedConcat(1, h, c');
    var s := Feed(1, h);
    WindowDiffers(s, c, c');
    var p, q := Feed(s, c), Feed(s, c');
    FeedDifference(p, q, b);
    StepsNonZero(Xor(p, q), |b|);
    XorSame(Feed(p, b), Feed(q, b));
  }

  lemma WindowDiffers(s: bv32, c: seq<Byte>, c': seq<Byte>)
    requires |c| == |c'| <= 6 && Symbols(c) && Symbols(c') && c != c'
    ensures Live(Xor(Feed(s, c), Feed(s, c')))
  {
    hide Steps, Xor, Pack, PolymodStep, Bound, Feed;
    FeedIsXor(s, c);
    FeedIsXor(s, c');
    XorCommutes(Steps(s, |c|), Pack(c));
    XorCommutes(Steps(s, |c|), Pack(c'));
    XorCancels(Pack(c), Pack(c'), Steps(s, |c|));
    PacksDiffer(c, c');
  }

  lemma PackBelow(c: seq<Byte>)
    requires |c| <= 6 && Symbols(c)
    ensures IsState(Pack(c))
  {
    hide Pack, Bound, Symbols;
    PackBound(c);
    BoundSix(|c|, Pack(c));
  }

  lemma PacksDiffer(c: seq<Byte>, c': seq<Byte>)
    requires |c| == |c'| <= 6 && Symbols(c) && Symbols(c') && c != c'
    ensures Live(Xor(Pack(c), Pack(c')))
  {
    hide *;
    PackBelow(c);
    PackBelow(c');
    if Pack(c) == Pack(c') { PackInjective(c, c'); }
    XorBelow(Pack(c), Pack(c'));
  }
}
