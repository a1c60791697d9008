/** The checksum step as arithmetic: polynomials over GF(32), modulo the generator of BIP-173
    (section "Bech32", subsection "Checksum"). */
module Generator {
  import opened Bech32

  // ----- the field -----

  /** Twice a symbol: the bits shift, and x^5 is x^3 + 1. */
  function Twice(a: Byte): Byte {
    if a & 16 != 0 then ((a << 1) & 31) ^ 9 else (a << 1) & 31
  }

  function When(bit: Byte, a: Byte): Byte {
    if bit != 0 then a else 0
  }

  /** The product of two symbols as polynomials over GF(2), modulo x^5 + x^3 + 1. */
  function Mul(a: Byte, b: Byte): Byte {
    When(b & 1, a) ^ When(b & 2, Twice(a)) ^ When(b & 4, Twice(Twice(a)))
    ^ When(b & 8, Twice(Twice(Twice(a)))) ^ When(b & 16, Twice(Twice(Twice(Twice(a)))))
  }

  lemma TwiceIsSymbol(a: Byte)
    ensures Twice(a) < 32
  {
  }

  lemma TwiceAdds(a: Byte, b: Byte)
    requires a < 32 && b < 32
    ensures a ^ b < 32 && Twice(a ^ b) == Twice(a) ^ Twice(b)
  {
  }

  /** One is neutral, and no two non-zero symbols make zero. */
  lemma MulOne(a: Byte)
    requires a < 32
    ensures Mul(a, 1) == a && Mul(1, a) == a
  {
  }

  lemma MulNonZero(a: Byte, b: Byte)
    requires 0 < a < 32 && 0 < b < 32
    ensures Mul(a, b) != 0
  {
  }

  function Add(a: Byte, b: Byte): Byte {
    a ^ b
  }

  // ----- the generator -----

  /** x^6 + 29 x^5 + 22 x^4 + 20 x^3 + 21 x^2 + 29 x + 18, leading coefficient first. */
  const GENERATOR: seq<Byte> := [1, 29, 22, 20, 21, 29, 18]

  /** Seven coefficients modulo the generator: the leading one times the generator is taken off. */
  function ModGenerator(c: seq<Byte>): seq<Byte>
    requires |c| == 7
  {
    seq(6, i requires 0 <= i < 6 => Add(c[i + 1], Mul(c[0], GENERATOR[i + 1])))
  }

  /** Six coefficients times x. */
  function TimesX(c: seq<Byte>): seq<Byte>
    requires |c| == 6
  {
    ModGenerator(c + [0])
  }

  /** The leading coefficient is gone: the generator's is one. */
  lemma TakenOff(c: Byte)
    requires c < 32
    ensures Add(c, Mul(c, GENERATOR[0])) == 0
  {
    hide Mul;
    MulOne(c);
  }

  // ----- the step -----

  /** The leading symbol of a register, and the register of that symbol alone. */
  function Top(x: bv32): bv32 {
    x >> 25
  }

  function Alone(top: bv32): bv32 {
    top << 25
  }

  /** The rest of a register, and where the step moves it. */
  function Rest(x: bv32): bv32 {
    x & 0x1FF_FFFF
  }

  function Up(x: bv32): bv32 {
    x << 5
  }

  lemma Parts(x: bv32)
    requires x < STATE_BOUND
    ensures x == Xor(Alone(Top(x)), Rest(x)) && Top(x) < 32 && Digit(x, 0) == Top(x) as bv8
  {
  }

  lemma StepParts(x: bv32)
    requires x < STATE_BOUND
    ensures PolymodStep(x) == Xor(PolymodStep(Alone(Top(x))), Up(Rest(x)))
  {
    hide *;
    Parts(x);
    StepLinear(Alone(Top(x)), Rest(x));
    StepRest(x);
  }

  lemma StepRest(x: bv32)
    ensures PolymodStep(Rest(x)) == Up(Rest(x))
  {
    hide PolymodStep, Rest;
    RestSmall(x);
    StepSmall(Rest(x));
  }

  lemma RestSmall(x: bv32)
    ensures Rest(x) < 0x200_0000
  {
  }

  /** What a leading symbol alone steps to. */
  lemma TopDigits(top: bv32)
    requires top < 32
    ensures var y, a := PolymodStep(Alone(top)), top as bv8;
      && Digit(y, 0) == Mul(a, 29) && Digit(y, 1) == Mul(a, 22) && Digit(y, 2) == Mul(a, 20)
      && Digit(y, 3) == Mul(a, 21) && Digit(y, 4) == Mul(a, 29) && Digit(y, 5) == Mul(a, 18)
  {
  }

  /** The rest moves up one place. */
  lemma RestDigits(x: bv32)
    ensures var y := Up(Rest(x));
      && Digit(y, 0) == Digit(x, 1) && Digit(y, 1) == Digit(x, 2) && Digit(y, 2) == Digit(x, 3)
      && Digit(y, 3) == Digit(x, 4) && Digit(y, 4) == Digit(x, 5) && Digit(y, 5) == 0
  {
  }

  // Digits of a sum, by way of five wide bits.
  function Five(x: bv32, k: bv32): bv32
    requires k < 32
  {
    (x >> k) & 31
  }

  function Narrow(x: bv32): Byte
    requires x < 32
  {
    x as bv8
  }

  lemma FiveSmall(x: bv32, k: bv32)
    requires k < 32
    ensures Five(x, k) < 32
  {
  }

  lemma FiveXor(a: bv32, b: bv32, k: bv32)
    requires k < 32
    ensures Five(a ^ b, k) == Five(a, k) ^ Five(b, k)
  {
  }

  lemma NarrowXor(a: bv32, b: bv32)
    requires a < 32 && b < 32
    ensures a ^ b < 32 && Narrow(a ^ b) == Add(Narrow(a), Narrow(b))
  {
  }

  lemma ShiftSmall(i: nat)
    requires i < 6
    ensures Shift(i) < 32
  {
  }

  lemma DigitIsFive(x: bv32, i: nat)
    requires i < 6
    ensures Shift(i) < 32 && Five(x, Shift(i)) < 32 && Digit(x, i) == Narrow(Five(x, Shift(i)))
  {
    ShiftSmall(i);
    FiveSmall(x, Shift(i));
    hide Shift;
  }

  lemma DigitXor(a: bv32, b: bv32, i: nat)
    requires i < 6
    ensures Digit(Xor(a, b), i) == Add(Digit(a, i), Digit(b, i))
  {
    hide *;
    DigitIsFive(a, i);
    DigitIsFive(b, i);
    XorIs(a, b);
    DigitIsFive(a ^ b, i);
    FiveXor(a, b, Shift(i));
    NarrowXor(Five(a, Shift(i)), Five(b, Shift(i)));
  }

  lemma AddCommutes(a: Byte, b: Byte)
    ensures Add(a, b) == Add(b, a)
  {
  }

  lemma Coefficients()
    ensures GENERATOR[1] == 29 && GENERATOR[2] == 22 && GENERATOR[3] == 20
    ensures GENERATOR[4] == 21 && GENERATOR[5] == 29 && GENERATOR[6] == 18
  {
  }

  /** One coefficient of the step. */
  lemma StepDigit(x: bv32, i: nat)
    requires x < STATE_BOUND && i < 6
    ensures Digit(PolymodStep(x), i) == Add(if i < 5 then Digit(x, i + 1) else 0, Mul(Digit(x, 0), GENERATOR[i + 1]))
  {
    hide *;
    StepParts(x);
    DigitXor(PolymodStep(Alone(Top(x))), Up(Rest(x)), i);
    Parts(x);
    TopDigits(Top(x));
    RestDigits(x);
    Coefficients();
    AddCommutes(Digit(PolymodStep(Alone(Top(x))), i), Digit(Up(Rest(x)), i));
  }

  /** The step of the register is multiplication by x modulo the generator, for every register. */
  lemma StepIsTimesX(x: bv32)
    requires x < STATE_BOUND
    ensures Digits(PolymodStep(x)) == TimesX(Digits(x)) && PolymodStep(x) < STATE_BOUND
  {
    StepBound(x);
    DigitsOfStep(x);
  }

  lemma DigitsOfStep(x: bv32)
    requires x < STATE_BOUND
    ensures Digits(PolymodStep(x)) == TimesX(Digits(x))
  {
    hide PolymodStep, Digit, Mul, Add, GENERATOR;
    forall i | 0 <= i < 6 ensures Digits(PolymodStep(x))[i] == TimesX(Digits(x))[i] { StepDigit(x, i); }
  }

  // ----- words -----

  /** Six coefficients with a symbol added to the last one. */
  function PlusLast(c: seq<Byte>, v: Byte): seq<Byte>
    requires |c| == 6
  {
    c[5 := Add(c[5], v)]
  }

  /** The remainder of `c` followed by `values` modulo the generator, by Horner's rule. */
  function Remainder(c: seq<Byte>, values: seq<Byte>): (r: seq<Byte>)
    requires |c| == 6
    ensures |r| == 6
  {
    if values == [] then c
    else PlusLast(TimesX(Remainder(c, values[..|values| - 1])), values[|values| - 1])
  }

  lemma SymbolDigits(v: Byte)
    requires v < 32
    ensures var x := v as bv32;
      && Digit(x, 0) == 0 && Digit(x, 1) == 0 && Digit(x, 2) == 0 && Digit(x, 3) == 0 && Digit(x, 4) == 0 && Digit(x, 5) == v
  {
  }

  lemma AddZero(a: Byte)
    ensures Add(a, 0) == a
  {
  }

  lemma LastAdds(y: bv32, v: Byte)
    requires v < 32
    ensures Digits(Xor(y, v as bv32)) == PlusLast(Digits(y), v)
  {
    hide Digit, Add, Xor;
    SymbolDigits(v);
    forall i | 0 <= i < 6 ensures Digits(Xor(y, v as bv32))[i] == PlusLast(Digits(y), v)[i] {
      DigitXor(y, v as bv32, i);
      AddZero(Digit(y, i));
    }
  }

  lemma XorState(y: bv32, v: Byte)
    requires y < STATE_BOUND && v < 32
    ensures Xor(y, v as bv32) < STATE_BOUND
  {
  }

  /** The register holds the remainder of what it was fed. */
  lemma {:induction false} FeedIsRemainder(p: bv32, values: seq<Byte>)
    requires p < STATE_BOUND && Symbols(values)
    ensures Feed(p, values) < STATE_BOUND && Digits(Feed(p, values)) == Remainder(Digits(p), values)
  {
    hide PolymodStep, Digits, TimesX, PlusLast, Xor;
    if values != [] {
      var n := |values| - 1;
      FeedIsRemainder(p, values[..n]);
      FeedLast(p, values);
      StepIsTimesX(Feed(p, values[..n]));
      LastAdds(PolymodStep(Feed(p, values[..n])), values[n]);
      XorState(PolymodStep(Feed(p, values[..n])), values[n]);
    }
  }

  lemma ExpandedSymbols(hrp: seq<Byte>)
    ensures Symbols(HrpExpand(hrp))
  {
    forall i | 0 <= i < |hrp| ensures High(hrp[i]) < 32 && Low(hrp[i]) < 32 { HalvesSmall(hrp[i]); }
  }

  lemma HalvesSmall(c: Byte)
    ensures High(c) < 32 && Low(c) < 32
  {
  }

  const ONE: seq<Byte> := [0, 0, 0, 0, 0, 1]

  lemma DigitsOfOne()
    ensures Digits(1) == ONE
  {
    hide Digit;
    SymbolDigits(1);
  }

  /** What a decoder of BIP-173 accepts: one, the expanded prefix and the word, as one polynomial over
      GF(32), leave the remainder one modulo the generator. */
  lemma ValidExactly(hrp: seq<Byte>, word: seq<Byte>)
    requires Symbols(word)
    ensures Valid(hrp, word) <==> Remainder(ONE, HrpExpand(hrp) + word) == ONE
  {
    hide Feed, HrpExpand, Digits, Remainder;
    ExpandedSymbols(hrp);
    FeedIsRemainder(1, HrpExpand(hrp) + word);
    DigitsOfOne();
    PackDigits(Feed(1, HrpExpand(hrp) + word));
    PackDigits(1);
  }
}
