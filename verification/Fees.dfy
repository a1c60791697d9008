/** The fee schedule, and what a refund row or a withdraw offer is worth after fees. */
module Fees {
  import GoInt

  /** Configured fee schedule. The configuration parser does not reject negative
      values; the model assumes an operator sets none. */
  datatype Schedule = Schedule(redeemBps: nat, minRedeemFee: nat, internalBps: nat, minInternalFee: nat)

  /** Whole sats (in msat) that remain once `bps` on the net amount are taken. */
  function NetOf(bps: nat, amount: int): int {
    GoInt.Div(GoInt.Div(amount * 10000, 10000 + bps), 1000) * 1000
  }

  function FeeOf(bps: nat, minFee: nat, amount: int): int {
    var bpsFee := amount - NetOf(bps, amount);
    var floor := minFee / 1000 * 1000;
    if bpsFee > floor then bpsFee else floor
  }

  function CalculateRedeemFee(c: Schedule, balance: int): int {
    FeeOf(c.redeemBps, c.minRedeemFee, balance)
  }

  function CalculateInternalFee(c: Schedule, amount: int): int {
    FeeOf(c.internalBps, c.minInternalFee, amount)
  }

  lemma NetBounds(bps: nat, amount: nat)
    ensures 0 <= NetOf(bps, amount) <= amount
    ensures NetOf(bps, amount) * (10000 + bps) <= amount * 10000
    ensures amount * 10000 < (NetOf(bps, amount) + 1000) * (10000 + bps)
  {
    hide GoInt.Div;
    var d := 10000 + bps;
    var x := GoInt.Div(amount * 10000, d);
    var n := NetOf(bps, amount);
    GoInt.DivBounds(amount * 10000, d);
    GoInt.QuotientAtMost(0, x, d);
    GoInt.DivBounds(x, 1000);
    GoInt.MulMonotone(n, x, d);
    GoInt.MulMonotone(x + 1, n + 1000, d);
    GoInt.Distribute(x, 1, d);
    GoInt.MulMonotone(10000, d, n);
  }

  /** The fee covers `bps` on what is actually sent, is at least the whole-sat
      minimum, and overshoots the ideal bps fee by less than one sat unless the
      minimum applies. (`ideal fee` is amount * bps / (10000 + bps).) */
  lemma FeeBounds(bps: nat, minFee: nat, amount: nat)
    ensures FeeOf(bps, minFee, amount) >= minFee / 1000 * 1000 > minFee - 1000
    ensures (amount - FeeOf(bps, minFee, amount)) * bps <= FeeOf(bps, minFee, amount) * 10000
    ensures FeeOf(bps, minFee, amount) <= minFee
            || FeeOf(bps, minFee, amount) * (10000 + bps) < amount * bps + 1000 * (10000 + bps)
    ensures amount - FeeOf(bps, minFee, amount) <= NetOf(bps, amount)
  {
    NetBounds(bps, amount);
    var n, f, d := NetOf(bps, amount), FeeOf(bps, minFee, amount), 10000 + bps;
    assert (amount - f) * d <= n * d by { GoInt.MulMonotone(amount - f, n, d); }
    assert (amount - f) * d == (amount - f) * 10000 + (amount - f) * bps;
    assert (amount - n) * d == amount * d - n * d;
    assert amount * d == amount * 10000 + amount * bps;
    assert (n + 1000) * d == n * d + 1000 * d;
  }

  // ----- which rate and minimum are charged -----

  /** The smallest fee that leaves whole sats and covers `bps` on what it leaves. */
  predicate IsBpsFee(bps: nat, amount: int, fee: int) {
    && (amount - fee) % 1000 == 0
    && (amount - fee) * bps <= fee * 10000
    && (amount - fee + 1000) * bps > (fee - 1000) * 10000
  }

  function Greater(a: int, b: int): int {
    if a > b then a else b
  }

  /** That fee or the minimum in whole sats, whichever is greater. */
  ghost predicate Charged(bps: nat, minFee: nat, amount: int, fee: int) {
    exists f :: IsBpsFee(bps, amount, f) && fee == Greater(f, minFee / 1000 * 1000)
  }

  lemma BpsFeeExists(bps: nat, amount: nat)
    ensures IsBpsFee(bps, amount, amount - NetOf(bps, amount))
  {
    NetBounds(bps, amount);
    var n, d := NetOf(bps, amount), 10000 + bps;
    WholeSats(bps, amount);
    assert n * d == n * 10000 + n * bps;
    assert (n + 1000) * d == (n + 1000) * 10000 + (n + 1000) * bps;
  }

  lemma WholeSats(bps: nat, amount: int)
    ensures NetOf(bps, amount) % 1000 == 0
  {
    hide GoInt.Div;
  }

  /** There is only one such fee, so `Charged` leaves no choice. */
  lemma ChargedOnce(bps: nat, minFee: nat, amount: int, fee: int, fee': int)
    requires Charged(bps, minFee, amount, fee) && Charged(bps, minFee, amount, fee')
    ensures fee == fee'
  {
    var f :| IsBpsFee(bps, amount, f) && fee == Greater(f, minFee / 1000 * 1000);
    var f' :| IsBpsFee(bps, amount, f') && fee' == Greater(f', minFee / 1000 * 1000);
    BpsFeeLeast(bps, amount, f, f');
    BpsFeeLeast(bps, amount, f', f);
  }

  lemma BpsFeeLeast(bps: nat, amount: int, f: int, g: int)
    requires IsBpsFee(bps, amount, f) && IsBpsFee(bps, amount, g)
    ensures g <= f
  {
    if f < g {
      assert g - f >= 1000;
      GoInt.MulMonotone(amount - g + 1000, amount - f, bps);
    }
  }

  lemma FeeCharged(bps: nat, minFee: nat, amount: nat)
    ensures Charged(bps, minFee, amount, FeeOf(bps, minFee, amount))
  {
    BpsFeeExists(bps, amount);
    assert FeeOf(bps, minFee, amount) == Greater(amount - NetOf(bps, amount), minFee / 1000 * 1000);
  }

  /** Redeems, offers and refunds are charged the redeem rate and minimum. */
  lemma RedeemCharge(c: Schedule, balance: nat)
    ensures var fee := CalculateRedeemFee(c, balance);
      && Charged(c.redeemBps, c.minRedeemFee, balance, fee)
      && fee >= c.minRedeemFee / 1000 * 1000
      && (balance - fee) * c.redeemBps <= fee * 10000
      && (fee <= c.minRedeemFee || fee * (10000 + c.redeemBps) < balance * c.redeemBps + 1000 * (10000 + c.redeemBps))
  {
    FeeCharged(c.redeemBps, c.minRedeemFee, balance);
    FeeBounds(c.redeemBps, c.minRedeemFee, balance);
  }

  /** Transfers are charged the internal rate and minimum. */
  lemma InternalCharge(c: Schedule, amount: nat)
    ensures var fee := CalculateInternalFee(c, amount);
      && Charged(c.internalBps, c.minInternalFee, amount, fee)
      && fee >= c.minInternalFee / 1000 * 1000
      && (amount - fee) * c.internalBps <= fee * 10000
      && (fee <= c.minInternalFee || fee * (10000 + c.internalBps) < amount * c.internalBps + 1000 * (10000 + c.internalBps))
  {
    FeeCharged(c.internalBps, c.minInternalFee, amount);
    FeeBounds(c.internalBps, c.minInternalFee, amount);
  }

  /** A bigger balance never pays out less. */
  lemma PayoutMonotone(bps: nat, minFee: nat, a: nat, b: nat)
    requires a <= b
    ensures a - FeeOf(bps, minFee, a) <= b - FeeOf(bps, minFee, b)
  {
    GoInt.DivMonotone(a * 10000, b * 10000, 10000 + bps);
    GoInt.DivMonotone(a * 10000 / (10000 + bps), b * 10000 / (10000 + bps), 1000);
    assert NetOf(bps, a) <= NetOf(bps, b);
  }

  // ----- refund rows -----

  const DUST_THRESHOLD := 1000

  datatype Priced = BelowMin | Row(amount: int, fee: int, dust: int)

  /** What one split becomes: dropped, or a payable whole-sat amount, a reserved
      fee and the sub-sat rest. Also how an abandoned row is repriced from its gross. */
  function PriceRefund(c: Schedule, gross: int): Priced {
    var fee := CalculateRedeemFee(c, gross);
    var net := gross - fee;
    if net < DUST_THRESHOLD then BelowMin else Row(net - net % 1000, fee, net % 1000)
  }

  lemma PriceConserves(c: Schedule, gross: int)
    requires PriceRefund(c, gross).Row?
    ensures var p := PriceRefund(c, gross);
      && p.amount + p.fee + p.dust == gross
      && p.amount % 1000 == 0 && p.amount >= DUST_THRESHOLD
      && 0 <= p.dust < 1000
      && p.fee >= 0
      && PriceRefund(c, p.amount + p.fee + p.dust) == p
  {
    hide NetOf;
  }

  /** A split is dropped exactly when less than a sat is left after the redeem fee, and what is paid
      is that rest in whole sats. */
  lemma PriceExactly(c: Schedule, gross: nat)
    ensures var fee := CalculateRedeemFee(c, gross);
      && Charged(c.redeemBps, c.minRedeemFee, gross, fee)
      && (PriceRefund(c, gross).BelowMin? <==> gross - fee < 1000)
      && (PriceRefund(c, gross).Row? ==> PriceRefund(c, gross).fee == fee)
  {
    hide FeeOf;
    RedeemCharge(c, gross);
  }

  // ----- the withdraw offer -----

  /** What the status endpoint shows as redeemable (0 unless positive). */
  function StatusBalance(c: Schedule, balance: int, maxRedeem: int): int {
    var raw := if 0 < maxRedeem < balance then maxRedeem else balance;
    var fee := CalculateRedeemFee(c, raw);
    if raw > fee then raw - fee else 0
  }

  /** maxWithdrawable of the LNURL-withdraw offer. */
  function OfferMax(c: Schedule, balance: int, maxRedeem: int): int {
    var m := balance - CalculateRedeemFee(c, balance);
    if 0 < maxRedeem < m then maxRedeem else m
  }

  predicate OfferAccepted(c: Schedule, balance: int, maxRedeem: int) {
    1000 <= OfferMax(c, balance, maxRedeem)
  }

  /** The checks a redeem callback makes on the amount for an unchanged voucher. */
  predicate RedeemPasses(c: Schedule, balance: int, maxRedeem: int, amount: int) {
    && !(maxRedeem > 0 && amount > maxRedeem)
    && !(amount + CalculateRedeemFee(c, balance) > balance)
  }

  /** The status never shows more than the offer advertises, and the callback accepts
      exactly the amounts up to the advertised maximum: the offer is tight. */
  lemma OfferAgreement(c: Schedule, balance: nat, maxRedeem: int)
    ensures OfferAccepted(c, balance, maxRedeem) ==>
              StatusBalance(c, balance, maxRedeem) <= OfferMax(c, balance, maxRedeem)
    ensures forall amount :: RedeemPasses(c, balance, maxRedeem, amount) <==> amount <= OfferMax(c, balance, maxRedeem)
  {
    if 0 < maxRedeem < balance {
      PayoutMonotone(c.redeemBps, c.minRedeemFee, maxRedeem, balance);
      FeeBounds(c.redeemBps, c.minRedeemFee, maxRedeem);
    }
    FeeBounds(c.redeemBps, c.minRedeemFee, balance);
  }

  /** Without a limit the offer is the balance less the redeem fee; a limit only caps it. What the
      status shows is the offer of a voucher that holds no more than the limit, if it is positive. An
      offer is made exactly when one sat could be redeemed. */
  lemma OfferExactly(c: Schedule, balance: nat, maxRedeem: int)
    ensures exists fee :: Charged(c.redeemBps, c.minRedeemFee, balance, fee) && OfferMax(c, balance, 0) == balance - fee
    ensures OfferMax(c, balance, maxRedeem)
            == if 0 < maxRedeem < OfferMax(c, balance, 0) then maxRedeem else OfferMax(c, balance, 0)
    ensures var shown := if 0 < maxRedeem < balance then maxRedeem else balance;
      StatusBalance(c, balance, maxRedeem) == Greater(OfferMax(c, shown, 0), 0)
    ensures OfferAccepted(c, balance, maxRedeem) <==> RedeemPasses(c, balance, maxRedeem, 1000)
  {
    hide FeeOf;
    RedeemCharge(c, balance);
    assert OfferMax(c, balance, 0) == balance - CalculateRedeemFee(c, balance);
  }
}
