/** The operator's withdraw: budget, amount, and what is left after it. */
module Operator {
  import opened Options
  import opened Sums
  import opened Schema
  import opened Ledger
  import opened LedgerEffects
  import opened Service
  import opened ServiceSteps
  import opened Statement

  function SatRound(msat: int): int {
    if msat < 0 then 0 else msat / 1000 * 1000
  }

  /** The gross budget (amount plus routing fee) read off a finalized statement. */
  function WithdrawCap(s: LedgerStatement): int
    reads s
  {
    CapOf(s.walletMsat, s.activeBalance + s.inactiveBalance + s.refundsHeld + s.redeemsHeld, s.available)
  }

  function CapOf(wallet: int, liabilities: int, available: int): int {
    var headroom := wallet - liabilities;
    var cap := if headroom < available then headroom else available;
    if cap < 0 then 0 else cap
  }

  /** Taking out `x` leaves the equity non-negative and the customers covered. */
  predicate Affordable(t: Tables, wallet: int, x: int) {
    EquityOf(t) - x >= 0 && wallet - x >= LiabilitiesOf(t)
  }

  /** The budget is the most that can be taken out. */
  lemma CapFits(t: Tables, wallet: int, x: int)
    requires x > 0
    ensures x <= CapOf(wallet, LiabilitiesOf(t), EquityOf(t)) <==> Affordable(t, wallet, x)
  {
    hide EquityOf, LiabilitiesOf;
  }

  /** The budget as the withdraw handler reads it: a fresh statement, finalized with the wallet. */
  method ReadCap(t: Tables, wallet: int) returns (cap: int)
    ensures cap >= 0 && cap == CapOf(wallet, LiabilitiesOf(t) - Sum(Negatives(t.vouchers)), EquityOf(t))
    ensures NonNegativeBalances(t.vouchers) ==> cap == CapOf(wallet, LiabilitiesOf(t), EquityOf(t))
    ensures NonNegativeBalances(t.vouchers) ==> forall x :: x > 0 ==> (x <= cap <==> Affordable(t, wallet, x))
  {
    hide EquityOf, LiabilitiesOf, Negatives, NonNegativeBalances, Affordable;
    var s := new LedgerStatement(t);
    s.Finalize(wallet, t);
    if NonNegativeBalances(t.vouchers) { NoNegatives(t.vouchers); }
    forall x | x > 0 ensures x <= CapOf(wallet, LiabilitiesOf(t), EquityOf(t)) <==> Affordable(t, wallet, x) {
      CapFits(t, wallet, x);
    }
    cap := WithdrawCap(s);
  }

  /** Zero asks for everything; an explicit amount must fit with the fee inside the cap. */
  function ResolveWithdrawAmount(requested: int, cap: int, estimate: int): Option<int> {
    var amount := SatRound(if requested == 0 then cap - estimate else requested);
    if amount < 1000 then None
    else if amount + estimate > cap then None
    else Some(amount)
  }

  /** An accepted amount is whole sats, at least one, and fits the cap with its fee. The
      blank form leaves less than one sat of the cap, an explicit one is rounded down by
      less than a sat, and it is refused exactly when that does not fit. */
  lemma ResolveExact(requested: int, cap: int, estimate: nat)
    ensures var r := ResolveWithdrawAmount(requested, cap, estimate);
      && (r.Some? ==> r.value % 1000 == 0 && r.value >= 1000 && r.value + estimate <= cap)
      && (r.Some? && requested == 0 ==> 0 <= cap - (r.value + estimate) < 1000)
      && (r.Some? && requested != 0 ==> 0 <= requested - r.value < 1000)
      && (requested == 0 ==> (r.Some? <==> cap - estimate >= 1000))
      && (requested != 0 ==> (r.Some? <==> requested >= 1000 && requested / 1000 * 1000 + estimate <= cap))
  {
  }

  /** The LNURL path: the amount is resolved with an estimate, then the final quote must
      fit the cap too. */
  function LnurlWithdraw(requested: int, cap: int, estimate: int, finalFee: int): Option<int> {
    match ResolveWithdrawAmount(requested, cap, estimate)
    case None => None
    case Some(amount) => if amount + finalFee > cap then None else Some(amount)
  }

  /** The bolt11 path: the invoice amount is checked after rounding but sent unrounded. */
  function Bolt11Withdraw(requested: int, invoice: int, cap: int, estimate: int): Option<int> {
    if requested != 0 && invoice != requested then None
    else if ResolveWithdrawAmount(invoice, cap, estimate).None? then None
    else Some(invoice)
  }

  /** An accepted bolt11 amount exceeds the cap by less than one sat, and an invoice of whole
      sats does not exceed it. */
  lemma Bolt11Overshoot(requested: int, invoice: int, cap: int, estimate: nat)
    requires invoice > 0 && Bolt11Withdraw(requested, invoice, cap, estimate).Some?
    ensures Bolt11Withdraw(requested, invoice, cap, estimate).value == invoice
    ensures invoice + estimate < cap + 1000
    ensures invoice % 1000 == 0 ==> invoice + estimate <= cap
  {
  }

  /** It does happen: 1999 msat against a cap of 1000. */
  lemma Bolt11OvershootHappens()
    ensures Bolt11Withdraw(0, 1999, 1000, 0) == Some(1999)
  {
  }

  // ----- what a withdraw leaves behind -----

  /** The world once the payment of a new withdraw row has left. */
  function Wiring(w: World, c: Config, amount: int, p: Payment, quote: nat): World
    requires Inv(w) && Honest(p, amount, quote)
  {
    var w1 := Next(w, c, Step.Withdraw(amount));
    assert KWithdraw(|w.t.operators|) !in w.sdk.sent;
    Next(w1, c, WithdrawSends(|w.t.operators|, p, quote))
  }

  lemma WiringEffect(w: World, c: Config, amount: int, p: Payment, quote: nat)
    requires Inv(w) && Honest(p, amount, quote)
    ensures var v := Wiring(w, c, amount, p, quote);
      && v.t == w.t.(operators := w.t.operators + [OperatorTx(OpWithdraw, Pending, amount, 0, false)])
      && v.sdk.wallet == w.sdk.wallet - amount - p.trueFee
      && |w.t.operators| in v.withdrawing && v.withdrawing[|w.t.operators|] == Wired(p.trueFee)
  {
    hide InvFunds, InvRedeems, InvRefunds, InvSdk, RedeemNext, RefundNext, WalletNext, BooksNext;
    assert KWithdraw(|w.t.operators|) !in w.sdk.sent;
  }

  /** The world after a withdraw of `amount` went through undisturbed. */
  function Withdrawn(w: World, c: Config, amount: int, p: Payment, quote: nat): World
    requires Inv(w) && Honest(p, amount, quote)
  {
    WiringEffect(w, c, amount, p, quote);
    var i := |w.t.operators|;
    Next(Next(Wiring(w, c, amount, p, quote), c, WithdrawNotes(i)), c, WithdrawEnds(i))
  }

  lemma WithdrawnTables(w: World, c: Config, amount: int, p: Payment, quote: nat)
    requires Inv(w) && Honest(p, amount, quote)
    ensures var v := Withdrawn(w, c, amount, p, quote);
      && v.t == w.t.(operators := w.t.operators + [OperatorTx(OpWithdraw, Confirmed, amount, p.trueFee, true)])
      && v.sdk.wallet == w.sdk.wallet - amount - p.trueFee
  {
    hide Wiring, Inv, Send, SendResult, Honest, RedeemNext, RefundNext, WalletNext, BooksNext;
    WiringEffect(w, c, amount, p, quote);
  }

  /** A withdraw comes out of equity alone. */
  lemma WithdrawnBooks(w: World, c: Config, amount: int, p: Payment, quote: nat)
    requires Inv(w) && Honest(p, amount, quote)
    ensures var v := Withdrawn(w, c, amount, p, quote);
      && v.sdk.wallet == w.sdk.wallet - amount - p.trueFee
      && LiabilitiesOf(v.t) == LiabilitiesOf(w.t) && EquityOf(v.t) == EquityOf(w.t) - amount - p.trueFee
  {
    hide Withdrawn, Inv, Honest;
    WithdrawnTables(w, c, amount, p, quote);
    OperatorAdd(w.t.operators, OperatorTx(OpWithdraw, Confirmed, amount, p.trueFee, true));
  }

  /** A withdraw whose amount and true fee fit the cap leaves every customer covered and
      the equity non-negative; what it costs comes out of equity alone. */
  lemma WithdrawSafe(w: World, c: Config, amount: int, p: Payment, quote: nat)
    requires Inv(w) && Honest(p, amount, quote)
    requires 0 < amount + p.trueFee <= CapOf(w.sdk.wallet, LiabilitiesOf(w.t), EquityOf(w.t))
    ensures var v := Withdrawn(w, c, amount, p, quote);
      && LiabilitiesOf(v.t) == LiabilitiesOf(w.t) <= v.sdk.wallet
      && EquityOf(v.t) == EquityOf(w.t) - amount - p.trueFee >= 0
  {
    hide Withdrawn, Inv, Honest;
    WithdrawnBooks(w, c, amount, p, quote);
  }

  /** The bolt11 path end to end, when the fee paid is at most the estimate: less than a sat of
      customers' money or of equity can be missing afterwards. Nothing is missing if and only
      if the amount sent and the fee fit the cap, and for an invoice of whole sats they do. */
  lemma Bolt11WithdrawSafe(w: World, c: Config, requested: int, invoice: int, estimate: nat, quote: nat, p: Payment)
    requires Inv(w) && invoice > 0 && Honest(p, invoice, quote) && p.trueFee <= estimate
    requires Bolt11Withdraw(requested, invoice, CapOf(w.sdk.wallet, LiabilitiesOf(w.t), EquityOf(w.t)), estimate).Some?
    ensures var v := Withdrawn(w, c, invoice, p, quote);
      var cap := CapOf(w.sdk.wallet, LiabilitiesOf(w.t), EquityOf(w.t));
      && EquityOf(v.t) > -1000 && LiabilitiesOf(v.t) - v.sdk.wallet < 1000
      && (EquityOf(v.t) >= 0 && LiabilitiesOf(v.t) <= v.sdk.wallet <==> invoice + p.trueFee <= cap)
      && (invoice % 1000 == 0 ==> EquityOf(v.t) >= 0 && LiabilitiesOf(v.t) <= v.sdk.wallet)
  {
    hide Withdrawn, Inv, Honest;
    Bolt11Overshoot(requested, invoice, CapOf(w.sdk.wallet, LiabilitiesOf(w.t), EquityOf(w.t)), estimate);
    WithdrawnBooks(w, c, invoice, p, quote);
  }

  /** The LNURL path end to end: whatever was asked for, if the fee paid is at most the final
      quote, customers stay covered and equity stays non-negative. */
  lemma LnurlWithdrawSafe(w: World, c: Config, requested: int, estimate: nat, finalFee: nat, p: Payment)
    requires Inv(w)
    requires LnurlWithdraw(requested, CapOf(w.sdk.wallet, LiabilitiesOf(w.t), EquityOf(w.t)), estimate, finalFee).Some?
    requires Honest(p, LnurlWithdraw(requested, CapOf(w.sdk.wallet, LiabilitiesOf(w.t), EquityOf(w.t)), estimate, finalFee).value, finalFee)
    requires p.trueFee <= finalFee
    ensures var v := Withdrawn(w, c, p.amount, p, finalFee);
      LiabilitiesOf(v.t) == LiabilitiesOf(w.t) <= v.sdk.wallet && EquityOf(v.t) >= 0
  {
    ResolveExact(requested, CapOf(w.sdk.wallet, LiabilitiesOf(w.t), EquityOf(w.t)), estimate);
    WithdrawSafe(w, c, p.amount, p, finalFee);
  }

  /** What the operator may ask for: whole sats go through on the LNURL path if and only if they are
      affordable with the estimate and with the final quote alike; nothing that fits is refused. */
  lemma LnurlWithdrawComplete(t: Tables, wallet: int, requested: int, estimate: nat, finalFee: nat)
    requires requested >= 1000 && requested % 1000 == 0
    ensures LnurlWithdraw(requested, CapOf(wallet, LiabilitiesOf(t), EquityOf(t)), estimate, finalFee) == Some(requested) <==>
      Affordable(t, wallet, requested + estimate) && Affordable(t, wallet, requested + finalFee)
  {
    hide EquityOf, LiabilitiesOf, Affordable, CapOf;
    CapFits(t, wallet, requested + estimate);
    CapFits(t, wallet, requested + finalFee);
  }

  /** The same for an invoice of whole sats, with the one quote there is, when the amount asked for is
      blank or that of the invoice. */
  lemma Bolt11WithdrawComplete(t: Tables, wallet: int, requested: int, invoice: int, estimate: nat)
    requires invoice >= 1000 && invoice % 1000 == 0
    ensures Bolt11Withdraw(requested, invoice, CapOf(wallet, LiabilitiesOf(t), EquityOf(t)), estimate) == Some(invoice) <==>
      (requested == 0 || requested == invoice) && Affordable(t, wallet, invoice + estimate)
  {
    hide EquityOf, LiabilitiesOf, Affordable, CapOf;
    CapFits(t, wallet, invoice + estimate);
  }

  /** A blank request takes out everything but less than a sat: one sat more would not be affordable.
      It is refused only when not even one sat is. */
  lemma BlankWithdrawTakesAll(t: Tables, wallet: int, estimate: nat)
    ensures var r := ResolveWithdrawAmount(0, CapOf(wallet, LiabilitiesOf(t), EquityOf(t)), estimate);
      && (r.Some? ==> Affordable(t, wallet, r.value + estimate) && !Affordable(t, wallet, r.value + estimate + 1000))
      && (r.None? <==> !Affordable(t, wallet, 1000 + estimate))
  {
    hide EquityOf, LiabilitiesOf, Affordable, CapOf;
    var cap := CapOf(wallet, LiabilitiesOf(t), EquityOf(t));
    ResolveExact(0, cap, estimate);
    CapFits(t, wallet, 1000 + estimate);
    var r := ResolveWithdrawAmount(0, cap, estimate);
    if r.Some? {
      CapFits(t, wallet, r.value + estimate);
      CapFits(t, wallet, r.value + estimate + 1000);
    }
  }
}
