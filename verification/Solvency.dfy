/** The wallet identity over whole runs. */
module Solvency {
  import opened Options
  import opened Sums
  import opened Split
  import opened Schema
  import opened Fees
  import opened Ledger
  import opened LedgerEffects
  import opened Service
  import opened Frames
  import opened ServiceSteps

  /** A run: each step is taken under the configuration of its process. */
  ghost predicate Run(ws: seq<World>, cs: seq<Config>, ss: seq<Step>) {
    && |ws| == |ss| + 1 && |cs| == |ss|
    && forall i :: 0 <= i < |ss| ==> Enabled(ws[i], cs[i], ss[i]) && ws[i + 1] == Next(ws[i], cs[i], ss[i])
  }

  ghost function Rises(ws: seq<World>, cs: seq<Config>, ss: seq<Step>): seq<int>
    requires Run(ws, cs, ss)
  {
    seq(|ss|, i requires 0 <= i < |ss| => Rise(ws[i], cs[i], ss[i]))
  }

  lemma RunPrefix(ws: seq<World>, cs: seq<Config>, ss: seq<Step>)
    requires Run(ws, cs, ss) && ss != []
    ensures Run(ws[..|ss|], cs[..|ss| - 1], ss[..|ss| - 1])
    ensures Rises(ws, cs, ss) == Rises(ws[..|ss|], cs[..|ss| - 1], ss[..|ss| - 1]) + [Rise(ws[|ss| - 1], cs[|ss| - 1], ss[|ss| - 1])]
  {
  }

  /** Over any run, under any mix of fee schedules, with crashes anywhere, the corrected
      balance moves by exactly the sum of the steps' rises and nothing else. */
  lemma {:induction false} RunExact(ws: seq<World>, cs: seq<Config>, ss: seq<Step>)
    requires Run(ws, cs, ss) && Inv(ws[0])
    ensures Inv(ws[|ss|])
    ensures Balance(ws[|ss|]) == Balance(ws[0]) + Sum(Rises(ws, cs, ss))
    decreases |ss|
  {
    hide Next, Enabled, Rise, Inv, Balance;
    if ss != [] {
      var n := |ss| - 1;
      RunPrefix(ws, cs, ss);
      RunExact(ws[..|ss|], cs[..n], ss[..n]);
      StepExact(ws[n], cs[n], ss[n]);
      SumAppend(Rises(ws[..|ss|], cs[..n], ss[..n]), Rise(ws[n], cs[n], ss[n]));
    }
  }

  // ----- what is lost for good -----

  predicate Paid(sent: map<Key, Payment>, owner: Owner) {
    KeyOf(owner) in sent && sent[KeyOf(owner)].status != Returned
  }

  /** Money left under a row that no request and no startup will ever book. */
  predicate LostRow(w: World, owner: Owner) {
    Paid(w.sdk.sent, owner) &&
    match owner
    case Redeem(i) => Stranded(w.t.redeems, i, w.redeeming)
    case Refund(_) => false
    case Withdraw(i) => Forsaken(w.t.operators, i, w.withdrawing)
  }

  /** The process dies between a send and storing its payment id. */
  predicate LosesTrack(w: World, s: Step, owner: Owner) {
    s.Crash? && Paid(w.sdk.sent, owner) &&
    match owner
    case Redeem(i) => i in w.redeeming && i < |w.t.redeems| && !w.t.redeems[i].paymentStored
    case Refund(_) => false
    case Withdraw(i) => i in w.withdrawing && i < |w.t.operators| && !w.t.operators[i].paymentStored
  }

  /** For every step and row: money is lost by that crash and by nothing else, and is found again
      only if the payment comes back. In particular nothing ever books it. */
  lemma LostExactly(w: World, c: Config, s: Step, owner: Owner)
    requires Inv(w) && Enabled(w, c, s)
    ensures LostRow(Next(w, c, s), owner) <==>
      (LostRow(w, owner) && s != Return(KeyOf(owner))) || LosesTrack(w, s, owner)
  {
    hide *;
    ByKind(w, c, s);
    NotThisKind(w, s, owner);
    InvParts(w);
    if IsRedeemStep(s) { LostByRedeem(w, c, s, owner); }
    else if IsRefundStep(s) { LostByRefund(w, c, s, owner); }
    else if IsOperatorStep(s) { LostByOperator(w, c, s, owner); }
    else if IsWalletStep(s) { LostByWallet(w, c, s, owner); }
    else { LostByBooks(w, c, s, owner); }
  }

  lemma InvParts(w: World)
    requires Inv(w)
    ensures InvRedeems(w.t.redeems, |w.t.vouchers|, w.sdk.sent, w.redeeming)
    ensures InvOperators(w.t.operators, w.sdk.sent, w.withdrawing)
    ensures w.worker.Marked? ==> w.worker.key == KRefund(w.worker.id)
  {
  }

  lemma NotThisKind(w: World, s: Step, owner: Owner)
    ensures IsRedeemStep(s) || IsRefundStep(s) || IsOperatorStep(s) || IsBooksStep(s) ==>
      !LosesTrack(w, s, owner) && s != Return(KeyOf(owner))
  {
  }

  lemma LostByRedeem(w: World, c: Config, s: Step, owner: Owner)
    requires InvRedeems(w.t.redeems, |w.t.vouchers|, w.sdk.sent, w.redeeming) && IsRedeemStep(s) && RedeemEnabled(w, c, s)
    ensures LostRow(RedeemNext(w, c, s), owner) <==> LostRow(w, owner)
  {
    if s.RedeemSends? {
      hide InvRedeems;
      assert owner.Redeem? ==> KeyOf(owner) == KRedeem(owner.id);
    } else {
      hide RedeemEnabled, RedeemNext, InvRedeems, Stranded;
      RedeemFrame(w, c, s);
      OtherRequests(w, c, s);
      if owner.Redeem? { StrandedByRedeem(w, c, s, owner.id); }
    }
  }

  lemma OtherRequests(w: World, c: Config, s: Step)
    requires IsRedeemStep(s) && RedeemEnabled(w, c, s)
    ensures RedeemNext(w, c, s).withdrawing == w.withdrawing
  {
    hide BeginRedeem;
  }

  lemma LostByRefund(w: World, c: Config, s: Step, owner: Owner)
    requires (w.worker.Marked? ==> w.worker.key == KRefund(w.worker.id)) && IsRefundStep(s) && RefundEnabled(w, c, s)
    ensures LostRow(RefundNext(w, c, s), owner) <==> LostRow(w, owner)
  {
    RefundTables(w, c, s);
  }

  lemma LostByOperator(w: World, c: Config, s: Step, owner: Owner)
    requires InvOperators(w.t.operators, w.sdk.sent, w.withdrawing) && IsOperatorStep(s) && OperatorEnabled(w, c, s)
    ensures LostRow(OperatorNext(w, c, s), owner) <==> LostRow(w, owner)
  {
    if s.WithdrawSends? {
      assert owner.Withdraw? ==> KeyOf(owner) == KWithdraw(owner.id);
    } else {
      hide OperatorEnabled, OperatorNext, InvOperators, Stranded, Forsaken;
      OperatorFrame(w, c, s);
      if owner.Withdraw? && Paid(w.sdk.sent, owner) { ForsakenByOperator(w, c, s, owner.id); }
    }
  }

  lemma ForsakenByOperator(w: World, c: Config, s: Step, i: nat)
    requires InvOperators(w.t.operators, w.sdk.sent, w.withdrawing) && IsOperatorStep(s) && OperatorEnabled(w, c, s)
    requires Paid(w.sdk.sent, Owner.Withdraw(i)) && !s.WithdrawSends?
    ensures var v := OperatorNext(w, c, s);
      Forsaken(v.t.operators, i, v.withdrawing) <==> Forsaken(w.t.operators, i, w.withdrawing)
  {
    assert KWithdraw(i) in w.sdk.sent;
    hide ActualSendFee, Send, SendResult;
  }

  lemma LostByWallet(w: World, c: Config, s: Step, owner: Owner)
    requires Inv(w) && IsWalletStep(s) && WalletEnabled(w, c, s)
    ensures LostRow(WalletNext(w, c, s), owner) <==>
      (LostRow(w, owner) && s != Return(KeyOf(owner))) || LosesTrack(w, s, owner)
  {
    hide Inv, LostRow, LosesTrack;
    if s.Crash? { LostByCrash(w, owner); } else { LostByEvent(w, c, s, owner); }
  }

  lemma LostByEvent(w: World, c: Config, s: Step, owner: Owner)
    requires IsWalletStep(s) && WalletEnabled(w, c, s) && !s.Crash?
    ensures LostRow(WalletNext(w, c, s), owner) <==> LostRow(w, owner) && s != Return(KeyOf(owner))
    ensures !LosesTrack(w, s, owner)
  {
    hide Stranded, Forsaken;
  }

  lemma LostByCrash(w: World, owner: Owner)
    requires Inv(w)
    ensures LostRow(w.(redeeming := map[], withdrawing := map[], worker := Idle), owner) <==>
      LostRow(w, owner) || LosesTrack(w, Crash, owner)
  {
    hide InvFunds, InvRefunds, InvSdk;
  }

  lemma LostByBooks(w: World, c: Config, s: Step, owner: Owner)
    requires IsBooksStep(s) && BooksEnabled(w, c, s)
    ensures LostRow(BooksNext(w, c, s), owner) <==> LostRow(w, owner)
  {
    hide BooksEnabled;
    BooksFrame(w, c, s);
  }

  lemma NoneLost(w: World)
    requires forall owner :: !LostRow(w, owner)
    ensures LostMoney(w) == 0
  {
    var redeems := LostRedeems(w.t.redeems, w.sdk.sent, w.redeeming);
    forall i | 0 <= i < |redeems| ensures redeems[i] == 0 { assert !LostRow(w, Owner.Redeem(i)); }
    SumZeros(redeems);
    var withdraws := LostWithdraws(w.t.operators, w.sdk.sent, w.withdrawing);
    forall i | 0 <= i < |withdraws| ensures withdraws[i] == 0 { assert !LostRow(w, Owner.Withdraw(i)); }
    SumZeros(withdraws);
  }

  /** A run in which no crash falls between a send and storing its payment id loses nothing. */
  lemma {:induction false} NothingLost(ws: seq<World>, cs: seq<Config>, ss: seq<Step>)
    requires Run(ws, cs, ss) && Inv(ws[0]) && forall owner :: !LostRow(ws[0], owner)
    requires forall k, owner :: 0 <= k < |ss| ==> !LosesTrack(ws[k], ss[k], owner)
    ensures forall owner :: !LostRow(ws[|ss|], owner)
    ensures LostMoney(ws[|ss|]) == 0
    decreases |ss|
  {
    hide Next, Enabled, Inv, LosesTrack, LostRow;
    if ss != [] {
      var n := |ss| - 1;
      RunPrefix(ws, cs, ss);
      NothingLost(ws[..|ss|], cs[..n], ss[..n]);
      RunExact(ws[..|ss|], cs[..n], ss[..n]);
      forall owner ensures !LostRow(ws[|ss|], owner) { LostExactly(ws[n], cs[n], ss[n], owner); }
    }
    NoneLost(ws[|ss|]);
  }

  // ----- stranded redeems -----

  /** Exactly when a redeem is stranded, paid or not: it was already, and then the step leaves its
      row alone, or the process dies while its request had stored no payment id. */
  lemma StrandedExactly(w: World, c: Config, s: Step, i: nat)
    requires Inv(w) && Enabled(w, c, s)
    ensures var v := Next(w, c, s);
      && (Stranded(v.t.redeems, i, v.redeeming) <==>
            Stranded(w.t.redeems, i, w.redeeming) || (s.Crash? && i in w.redeeming && !w.t.redeems[i].paymentStored))
      && (Stranded(w.t.redeems, i, w.redeeming) ==> v.t.redeems[i] == w.t.redeems[i])
  {
    hide *;
    ByKind(w, c, s);
    InvParts(w);
    StrandsKind(w, i);
    if IsRedeemStep(s) { StrandedByRedeem(w, c, s, i); }
    else { StrandedElsewhere(w, c, s, i); }
  }

  lemma StrandsKind(w: World, i: nat)
    requires InvRedeems(w.t.redeems, |w.t.vouchers|, w.sdk.sent, w.redeeming)
    ensures i in w.redeeming ==> i < |w.t.redeems| && w.t.redeems[i].status == Pending
    ensures Stranded(w.t.redeems, i, w.redeeming) ==> i < |w.t.redeems|
  {
  }

  lemma StrandedByRedeem(w: World, c: Config, s: Step, i: nat)
    requires InvRedeems(w.t.redeems, |w.t.vouchers|, w.sdk.sent, w.redeeming) && IsRedeemStep(s) && RedeemEnabled(w, c, s)
    ensures var v := RedeemNext(w, c, s);
      && !s.Crash?
      && (Stranded(v.t.redeems, i, v.redeeming) <==> Stranded(w.t.redeems, i, w.redeeming))
      && (Stranded(w.t.redeems, i, w.redeeming) ==> i < |v.t.redeems| && v.t.redeems[i] == w.t.redeems[i])
  {
    if s.Redeem? {
      StrandedByBegin(w, c.fees, s.voucher, s.amount, s.now, i);
    } else {
      hide AddVoucherBalance, Send, SendResult, ActualSendFee, Honest;
      assert s.redeem in w.redeeming ==> s.redeem < |w.t.redeems| && w.t.redeems[s.redeem].status == Pending;
      hide InvRedeems;
    }
  }

  lemma StrandedByBegin(w: World, c: Schedule, id: nat, amount: int, now: int, i: nat)
    ensures var v := match BeginRedeem(w.t, c, id, amount, now)
              case None => w
              case Some(u) => w.(t := u, redeeming := w.redeeming[|w.t.redeems| := Deducted]);
      && (Stranded(v.t.redeems, i, v.redeeming) <==> Stranded(w.t.redeems, i, w.redeeming))
      && (Stranded(w.t.redeems, i, w.redeeming) ==> i < |v.t.redeems| && v.t.redeems[i] == w.t.redeems[i])
  {
    hide CalculateRedeemFee, UpdateVoucherBalance;
  }

  lemma StrandedElsewhere(w: World, c: Config, s: Step, i: nat)
    requires Enabled(w, c, s) && !IsRedeemStep(s)
    requires i in w.redeeming ==> i < |w.t.redeems| && w.t.redeems[i].status == Pending
    ensures var v := Next(w, c, s);
      && (Stranded(v.t.redeems, i, v.redeeming) <==>
            Stranded(w.t.redeems, i, w.redeeming) || (s.Crash? && i in w.redeeming && !w.t.redeems[i].paymentStored))
      && (Stranded(w.t.redeems, i, w.redeeming) ==> i < |v.t.redeems| && v.t.redeems[i] == w.t.redeems[i])
  {
    hide Next, Enabled;
    TableFrame(w, c, s);
  }

  /** A stranded redeem is never confirmed and never given back to its voucher, in any run. */
  lemma {:induction false} StrandedForever(ws: seq<World>, cs: seq<Config>, ss: seq<Step>, i: nat)
    requires Run(ws, cs, ss) && Inv(ws[0]) && Stranded(ws[0].t.redeems, i, ws[0].redeeming)
    ensures Stranded(ws[|ss|].t.redeems, i, ws[|ss|].redeeming) && ws[|ss|].t.redeems[i] == ws[0].t.redeems[i]
    decreases |ss|
  {
    hide Next, Enabled, Inv;
    if ss != [] {
      var n := |ss| - 1;
      RunPrefix(ws, cs, ss);
      StrandedForever(ws[..|ss|], cs[..n], ss[..n], i);
      RunExact(ws[..|ss|], cs[..n], ss[..n]);
      StrandedExactly(ws[n], cs[n], ss[n], i);
    }
  }

  /** What counts as in transit can still be booked: a redeem that was paid and is not stranded
      is confirmed by its request, or by startup once its payment completed. */
  lemma RedeemCanBeBooked(w: World, c: Config, i: nat) returns (ws: seq<World>, cs: seq<Config>, ss: seq<Step>)
    requires Inv(w) && i < |w.t.redeems| && w.t.redeems[i].status == Pending && !Stranded(w.t.redeems, i, w.redeeming)
    requires Paid(w.sdk.sent, Owner.Redeem(i))
    ensures Run(ws, cs, ss) && ws[0] == w
    ensures i < |ws[|ss|].t.redeems| && ws[|ss|].t.redeems[i].status == Confirmed
  {
    hide Next, Enabled;
    ws, cs, ss := [w], [], [];
    if i !in w.redeeming && w.sdk.sent[KRedeem(i)].status == Open { ws, cs, ss := AfterSettle(w, c, KRedeem(i)); }
    var v := ws[|ss|];
    var last := if i in w.redeeming then RedeemEnds(i) else ResolveRedeem(i, 0);
    RedeemBooks(v, c, i);
    ws, cs, ss := ws + [Next(v, c, last)], cs + [c], ss + [last];
  }

  lemma AfterSettle(w: World, c: Config, k: Key) returns (ws: seq<World>, cs: seq<Config>, ss: seq<Step>)
    requires k in w.sdk.sent && w.sdk.sent[k].status == Open
    ensures Run(ws, cs, ss) && ws[0] == w
    ensures ws[|ss|] == w.(sdk := w.sdk.(sent := w.sdk.sent[k := w.sdk.sent[k].(status := Completed)]))
  {
    hide RedeemNext, RefundNext, OperatorNext, BooksNext, RedeemEnabled, RefundEnabled, OperatorEnabled, BooksEnabled;
    ws, cs, ss := [w, Next(w, c, Settle(k))], [c], [Settle(k)];
  }

  lemma RedeemBooks(w: World, c: Config, i: nat)
    requires i < |w.t.redeems| && w.t.redeems[i].status == Pending && KRedeem(i) in w.sdk.sent
    requires if i in w.redeeming then !w.redeeming[i].Deducted?
             else w.t.redeems[i].paymentStored && w.sdk.sent[KRedeem(i)].status == Completed
    ensures var last := if i in w.redeeming then RedeemEnds(i) else ResolveRedeem(i, 0);
      && Enabled(w, c, last) && i < |Next(w, c, last).t.redeems| && Next(w, c, last).t.redeems[i].status == Confirmed
  {
    hide RefundNext, OperatorNext, WalletNext, BooksNext, RefundEnabled, OperatorEnabled, WalletEnabled, BooksEnabled;
  }

  lemma WithdrawCanBeBooked(w: World, c: Config, i: nat) returns (ws: seq<World>, cs: seq<Config>, ss: seq<Step>)
    requires Inv(w) && i < |w.t.operators| && w.t.operators[i].status == Pending && !Forsaken(w.t.operators, i, w.withdrawing)
    requires Paid(w.sdk.sent, Owner.Withdraw(i))
    ensures Run(ws, cs, ss) && ws[0] == w
    ensures i < |ws[|ss|].t.operators| && ws[|ss|].t.operators[i].status == Confirmed
  {
    hide Next, Enabled;
    ws, cs, ss := [w], [], [];
    if i !in w.withdrawing && w.sdk.sent[KWithdraw(i)].status == Open { ws, cs, ss := AfterSettle(w, c, KWithdraw(i)); }
    var v := ws[|ss|];
    var last := if i in w.withdrawing then WithdrawEnds(i) else ResolveWithdraw(i);
    WithdrawBooks(v, c, i);
    ws, cs, ss := ws + [Next(v, c, last)], cs + [c], ss + [last];
  }

  lemma WithdrawBooks(w: World, c: Config, i: nat)
    requires i < |w.t.operators| && w.t.operators[i].kind == OpWithdraw && w.t.operators[i].status == Pending
    requires KWithdraw(i) in w.sdk.sent
    requires if i in w.withdrawing then !w.withdrawing[i].Inserted?
             else w.t.operators[i].paymentStored && w.sdk.sent[KWithdraw(i)].status == Completed
    ensures var last := if i in w.withdrawing then WithdrawEnds(i) else ResolveWithdraw(i);
      && Enabled(w, c, last) && i < |Next(w, c, last).t.operators| && Next(w, c, last).t.operators[i].status == Confirmed
  {
    hide RedeemNext, RefundNext, WalletNext, BooksNext, RedeemEnabled, RefundEnabled, WalletEnabled, BooksEnabled;
  }

  /** A redeem that failed, and whose balance was given back, was never paid or was paid back. */
  lemma FailedNeverPaid(ws: seq<World>, cs: seq<Config>, ss: seq<Step>, i: nat)
    requires Run(ws, cs, ss) && Inv(ws[0])
    requires i < |ws[|ss|].t.redeems| && ws[|ss|].t.redeems[i].status == Failed
    ensures GrossOut(ws[|ss|].sdk.sent, KRedeem(i)) == 0
  {
    RunExact(ws, cs, ss);
  }

  // ----- under any mix of fee schedules -----

  /** An unpaid row whose payment already left still holds at least the amount that left. */
  ghost predicate Backed(s: seq<RefundTx>, sent: map<Key, Payment>) {
    forall i :: 0 <= i < |s| && !s[i].refunded ==> s[i].amount >= 0 && RowBacked(s[i], sent, i)
  }

  predicate RowBacked(r: RefundTx, sent: map<Key, Payment>, i: nat) {
    KRefund(i) in sent && sent[KRefund(i)].status != Returned ==> r.amount >= sent[KRefund(i)].amount
  }

  /** What the requests in progress believe they paid in fees is what they paid; the worker
      may be wrong about a payment that went over Spark. */
  ghost predicate FeesKnown(w: World) {
    && PaymentsKnown(w.sdk.sent)
    && (forall i :: i in w.redeeming && !w.redeeming[i].Deducted? && KRedeem(i) in w.sdk.sent ==>
          w.redeeming[i].fee == w.sdk.sent[KRedeem(i)].trueFee)
    && (forall i :: i in w.withdrawing && !w.withdrawing[i].Inserted? && KWithdraw(i) in w.sdk.sent ==>
          w.withdrawing[i].fee == w.sdk.sent[KWithdraw(i)].trueFee)
    && (w.worker.PaidOut? ==> w.worker.fee >= 0)
    && (w.worker.PaidOut? && KRefund(w.worker.id) in w.sdk.sent && w.sdk.sent[KRefund(w.worker.id)].via == Lightning ==>
          w.worker.fee == w.sdk.sent[KRefund(w.worker.id)].trueFee)
  }

  ghost predicate PaymentsKnown(sent: map<Key, Payment>) {
    && (forall k :: k in sent ==> sent[k].amount >= 0)
    && (forall k :: k in sent && sent[k].via == Lightning ==> ActualSendFee(sent[k], 0) == sent[k].trueFee)
  }

  ghost predicate Sound(w: World) {
    Inv(w) && Backed(w.t.refunds, w.sdk.sent) && FeesKnown(w)
  }

  /** A send keeps what is remembered of earlier payments. */
  lemma SendKnown(sdk: Sdk, owner: Owner, p: Payment, amount: int, quote: nat)
    requires PaymentsKnown(sdk.sent) && Honest(p, amount, quote)
    ensures PaymentsKnown(Send(sdk, owner, KeyOf(owner), p).sent)
  {
  }

  lemma RedeemFees(w: World, c: Config, s: Step)
    requires Inv(w) && FeesKnown(w) && IsRedeemStep(s) && RedeemEnabled(w, c, s)
    ensures FeesKnown(RedeemNext(w, c, s))
  {
    hide InvFunds, InvOperators, InvRefunds, InvSdk, PaymentsKnown, BeginRedeem, FailRedeem;
    if s.RedeemSends? { SendKnown(w.sdk, Owner.Redeem(s.redeem), s.p, w.t.redeems[s.redeem].msat, s.quote); }
  }

  lemma RefundFees(w: World, c: Config, s: Step)
    requires Inv(w) && FeesKnown(w) && IsRefundStep(s) && RefundEnabled(w, c, s)
    ensures FeesKnown(RefundNext(w, c, s))
  {
    hide InvFunds, InvRedeems, InvOperators, InvSdk;
    if s.RefundSends? { SendKnown(w.sdk, Owner.Refund(w.worker.id), s.p, w.worker.row.amount / 1000 * 1000, s.quote); }
  }

  lemma OperatorFees(w: World, c: Config, s: Step)
    requires Inv(w) && FeesKnown(w) && IsOperatorStep(s) && OperatorEnabled(w, c, s)
    ensures FeesKnown(OperatorNext(w, c, s))
  {
    hide InvFunds, InvRedeems, InvRefunds, InvSdk, PaymentsKnown;
    if s.WithdrawSends? { SendKnown(w.sdk, Owner.Withdraw(s.op), s.p, w.t.operators[s.op].amount, s.quote); }
  }

  lemma WalletFees(w: World, c: Config, s: Step)
    requires FeesKnown(w) && IsWalletStep(s) && WalletEnabled(w, c, s)
    ensures FeesKnown(WalletNext(w, c, s))
  {
  }

  lemma BooksFees(w: World, c: Config, s: Step)
    requires FeesKnown(w) && IsBooksStep(s) && BooksEnabled(w, c, s)
    ensures FeesKnown(BooksNext(w, c, s))
  {
    hide PaymentsKnown, ConfirmFund, Transfer, ExpireVoucher, RegularVoucher, FundOrdersOk, OrderOk;
  }

  lemma StepFees(w: World, c: Config, s: Step)
    requires Inv(w) && FeesKnown(w) && Enabled(w, c, s)
    ensures FeesKnown(Next(w, c, s))
  {
    hide *;
    ByKind(w, c, s);
    if IsRedeemStep(s) { RedeemFees(w, c, s); }
    else if IsRefundStep(s) { RefundFees(w, c, s); }
    else if IsOperatorStep(s) { OperatorFees(w, c, s); }
    else if IsWalletStep(s) { WalletFees(w, c, s); }
    else { BooksFees(w, c, s); }
  }

  /** The refund rows and their payments are as before. */
  ghost predicate RefundsUntouched(w: World, v: World) {
    v.t.refunds == w.t.refunds && SameRefunds(w.sdk, v.sdk)
  }

  /** Fundings, expiries and regular refunds append fresh rows priced by the schedule in force. */
  lemma RowsAppended(w: World, c: Config, s: Step)
    requires Inv(w) && Enabled(w, c, s) && (s.Fund? || s.Expire? || s.Regular?)
    ensures Appends(c.fees, w.t.refunds, Next(w, c, s).t.refunds) && Next(w, c, s).sdk == w.sdk
  {
    hide ConfirmFund, ExpireVoucher, RegularVoucher, FundOrdersOk, OrderOk, Appends, InvRedeems, InvOperators,
         InvRefunds, InvSdk;
    match s {
      case Fund(i, orders, now) => ConfirmFundEffect(w.t, c.fees, i, w.sdk.receipts[i], orders, now);
      case Expire(id, codes, order, now) => ExpireEffect(w.t, c.fees, id, codes, order, now);
      case Regular(id, codes, order, last) => RegularEffect(w.t, c.fees, id, codes, order, last);
    }
  }

  lemma PricedAmount(c: Schedule, r: RefundTx)
    requires WellPriced(c, r) && !r.refunded
    ensures r.amount >= 1000 && r.amount % 1000 == 0
  {
    PriceConserves(c, r.amount + r.dbTxFee + r.dust);
  }

  lemma BackedAppend(c: Schedule, s: seq<RefundTx>, u: seq<RefundTx>, sent: map<Key, Payment>, worker: WorkerPc)
    requires Backed(s, sent) && InvRefunds(s, sent, worker) && Appends(c, s, u)
    ensures Backed(u, sent)
  {
    forall i | 0 <= i < |u| && !u[i].refunded ensures u[i].amount >= 0 && RowBacked(u[i], sent, i) {
      if i < |s| { assert u[i] == u[..|s|][i]; } else { PricedAmount(c, u[i]); }
    }
  }

  /** The guard a schedule change can break: a row whose payment left is repriced to a payable
      amount at least as large. */
  predicate FairPrice(c: Schedule, r: RefundTx, sent: map<Key, Payment>, i: nat) {
    var p := PriceRefund(c, r.amount + r.dbTxFee + r.dust);
    GrossOut(sent, KRefund(i)) == 0 || (p.Row? && p.amount >= sent[KRefund(i)].amount)
  }

  predicate Fair(w: World, c: Config, s: Step) {
    s.Reprice? && s.refund < |w.t.refunds| && IsAbandoned(w.t.refunds[s.refund]) ==>
      FairPrice(c.fees, w.t.refunds[s.refund], w.sdk.sent, s.refund)
  }

  lemma RepriceBacked(c: Schedule, s: seq<RefundTx>, sent: map<Key, Payment>, i: nat)
    requires Backed(s, sent) && PaymentsKnown(sent) && i < |s| && IsAbandoned(s[i])
    ensures var u := RepriceAbandoned(s, c, i);
      && |u| == |s| && (forall j :: 0 <= j < |s| && j != i ==> u[j] == s[j])
      && (Backed(u, sent) <==> u[i].refunded || RowBacked(u[i], sent, i))
  {
    var u := RepriceAbandoned(s, c, i);
    RepriceEffect(c, s[i]);
    if !u[i].refunded { PricedAmount(c, u[i]); }
    assert Backed(u, sent) && !u[i].refunded ==> RowBacked(u[i], sent, i);
  }

  /** Exactly when repricing is safe: the corrected balance does not fall now, and the row
      stays backed for the booking to come, if and only if the guard holds. The balance alone
      falls exactly when a row whose money is gone is retained as dust. */
  lemma RepriceExactly(w: World, c: Config, i: nat)
    requires Sound(w) && Enabled(w, c, Reprice(i)) && IsAbandoned(w.t.refunds[i])
    ensures var r, v := w.t.refunds[i], Next(w, c, Reprice(i));
      && (Balance(v) >= Balance(w) <==>
            PriceRefund(c.fees, r.amount + r.dbTxFee + r.dust).Row? || GrossOut(w.sdk.sent, KRefund(i)) <= 0)
      && (Balance(v) >= Balance(w) && Backed(v.t.refunds, v.sdk.sent) <==> FairPrice(c.fees, r, w.sdk.sent, i))
  {
    hide Inv, Balance, Backed, PaymentsKnown, PriceRefund;
    StepExact(w, c, Reprice(i));
    RepriceBacked(c.fees, w.t.refunds, w.sdk.sent, i);
    KnownAmount(w.sdk.sent, KRefund(i));
    RepricedRow(c.fees, w.t.refunds[i]);
  }

  lemma RepricedRow(c: Schedule, r: RefundTx)
    requires !r.refunded
    ensures var p := PriceRefund(c, r.amount + r.dbTxFee + r.dust);
      && (Repriced(c, r).refunded <==> p.BelowMin?) && (p.Row? ==> Repriced(c, r).amount == p.amount >= 1000)
  {
    var gross := r.amount + r.dbTxFee + r.dust;
    if PriceRefund(c, gross).Row? { PriceConserves(c, gross); }
  }

  lemma KnownAmount(sent: map<Key, Payment>, k: Key)
    requires PaymentsKnown(sent)
    ensures GrossOut(sent, k) >= 0 && (k in sent ==> sent[k].amount >= 0)
    ensures k in sent && sent[k].status != Returned && GrossOut(sent, k) == 0 ==> sent[k].amount == 0
  {
  }

  /** A guard the worker itself can check: the row never stored a key, or it is repriced to a
      payable amount no smaller than the one it holds. */
  lemma CheckableFair(w: World, c: Schedule, i: nat)
    requires Sound(w) && i < |w.t.refunds| && IsAbandoned(w.t.refunds[i])
    requires var r := w.t.refunds[i]; var p := PriceRefund(c, r.amount + r.dbTxFee + r.dust);
      r.key == NoKey || (p.Row? && p.amount >= r.amount)
    ensures FairPrice(c, w.t.refunds[i], w.sdk.sent, i)
  {
    hide PriceRefund, InvFunds, InvRedeems, InvOperators, InvSdk, FeesKnown;
    assert RowBacked(w.t.refunds[i], w.sdk.sent, i);
  }

  lemma RefundBacked(w: World, c: Config, s: Step)
    requires Sound(w) && IsRefundStep(s) && RefundEnabled(w, c, s) && !s.Reprice?
    ensures Backed(RefundNext(w, c, s).t.refunds, RefundNext(w, c, s).sdk.sent)
  {
    hide InvFunds, InvRedeems, InvOperators, InvSdk, PaymentsKnown;
  }

  lemma WalletBacked(w: World, c: Config, s: Step)
    requires Sound(w) && IsWalletStep(s) && WalletEnabled(w, c, s)
    ensures Backed(WalletNext(w, c, s).t.refunds, WalletNext(w, c, s).sdk.sent)
  {
    hide InvFunds, InvRedeems, InvOperators, InvRefunds, InvSdk;
  }

  lemma StepBacked(w: World, c: Config, s: Step)
    requires Sound(w) && Enabled(w, c, s) && Fair(w, c, s)
    ensures Backed(Next(w, c, s).t.refunds, Next(w, c, s).sdk.sent)
  {
    hide *;
    ByKind(w, c, s);
    if s.Reprice? {
      RepriceStepBacked(w, c, s.refund);
    } else if IsRefundStep(s) {
      RefundBacked(w, c, s);
    } else if IsWalletStep(s) {
      WalletBacked(w, c, s);
    } else {
      OtherBacked(w, c, s);
    }
  }

  lemma RepriceStepBacked(w: World, c: Config, i: nat)
    requires Sound(w) && Enabled(w, c, Reprice(i)) && Fair(w, c, Reprice(i))
    ensures Backed(Next(w, c, Reprice(i)).t.refunds, Next(w, c, Reprice(i)).sdk.sent)
  {
    hide Inv, Backed, FeesKnown, FairPrice, Repriced, Balance;
    if IsAbandoned(w.t.refunds[i]) { RepriceExactly(w, c, i); }
  }

  lemma OtherBacked(w: World, c: Config, s: Step)
    requires Sound(w) && Enabled(w, c, s) && !IsRefundStep(s) && !IsWalletStep(s)
    ensures Backed(Next(w, c, s).t.refunds, Next(w, c, s).sdk.sent)
  {
    hide Next, Enabled, Backed, FeesKnown, Appends, InvFunds, InvRedeems, InvOperators, InvRefunds, InvSdk;
    if s.Fund? || s.Expire? || s.Regular? {
      RowsAppended(w, c, s);
      BackedAppend(c.fees, w.t.refunds, Next(w, c, s).t.refunds, w.sdk.sent, w.worker);
    } else {
      TableFrame(w, c, s);
      SdkFrame(w, c, s);
      BackedSame(w, Next(w, c, s));
    }
  }

  lemma BackedSame(w: World, v: World)
    requires Backed(w.t.refunds, w.sdk.sent) && RefundsUntouched(w, v)
    ensures Backed(v.t.refunds, v.sdk.sent)
  {
    forall i | 0 <= i < |v.t.refunds| && !v.t.refunds[i].refunded ensures RowBacked(v.t.refunds[i], v.sdk.sent, i) {
      assert SameUnder(w.sdk, v.sdk, KRefund(i)) && RowBacked(w.t.refunds[i], w.sdk.sent, i);
    }
  }

  /** A booking without a prepare quote of its own: startup assumes fee 0 for a Spark payment,
      and a refund answered with an earlier payment assumes the fee just quoted. */
  predicate FeeCovered(w: World, c: Config, s: Step)
    requires Enabled(w, c, s)
  {
    match s
    case ResolveRedeem(i, _) =>
      w.t.redeems[i].paymentStored && KRedeem(i) in w.sdk.sent && w.sdk.sent[KRedeem(i)].status == Completed ==>
        w.sdk.sent[KRedeem(i)].via == Lightning || w.sdk.sent[KRedeem(i)].trueFee == 0
    case ResolveWithdraw(i) =>
      w.t.operators[i].paymentStored && KWithdraw(i) in w.sdk.sent && w.sdk.sent[KWithdraw(i)].status == Completed ==>
        w.sdk.sent[KWithdraw(i)].via == Lightning || w.sdk.sent[KWithdraw(i)].trueFee == 0
    case RefundEnds =>
      KRefund(w.worker.id) in w.sdk.sent && w.sdk.sent[KRefund(w.worker.id)].status != Returned ==>
        w.worker.fee >= w.sdk.sent[KRefund(w.worker.id)].trueFee
    case _ => true
  }

  /** What of a payment came back although its row is booked as paid. */
  function CameBack(sent: map<Key, Payment>, k: Key): int {
    if k in sent && sent[k].status == Returned then sent[k].amount + sent[k].trueFee else 0
  }

  /** The only sources of surplus: money the books do not claim (operator deposits), splits
      below the minimum payout, invoices overpaid beyond their amount, payments that came back
      after their row was booked, and a refund fee booked above the one paid. */
  function Surplus(w: World, c: Config, s: Step): int
    requires Enabled(w, c, s)
  {
    match s
    case ReceiveOther(arrived) => arrived
    case Fund(i, orders, now) =>
      var received := w.sdk.receipts[i];
      if !Confirms(w.t, Next(w, c, s).t, i) then 0
      else (if received > w.t.funds[i].msat then received - Booked(w.t, i, received, now) else 0)
           + FundSkipped(w.t, c.fees, i, received, orders, now)
    case Expire(id, codes, order, _) => ExpireSkipped(w.t, c.fees, id, codes, order)
    case Regular(id, codes, order, _) => RegularSkipped(w.t, c.fees, id, codes, order)
    case RedeemEnds(i) => CameBack(w.sdk.sent, KRedeem(i))
    case RefundEnds =>
      CameBack(w.sdk.sent, KRefund(w.worker.id))
      + if KRefund(w.worker.id) in w.sdk.sent then w.worker.fee - w.sdk.sent[KRefund(w.worker.id)].trueFee else 0
    case WithdrawEnds(i) => CameBack(w.sdk.sent, KWithdraw(i))
    case Return(k) => if k.KeyOf? && RowBooked(w.t, k.owner) then w.sdk.sent[k].amount + w.sdk.sent[k].trueFee else 0
    case _ => 0
  }

  /** A redeem step loses money exactly when its booking does not cover the fee. */
  lemma RedeemRiseIs(w: World, c: Config, s: Step)
    requires Inv(w) && FeesKnown(w) && IsRedeemStep(s) && Enabled(w, c, s)
    ensures RedeemRise(w, c, s) >= 0 <==> FeeCovered(w, c, s)
    ensures FeeCovered(w, c, s) ==> RedeemRise(w, c, s) == Surplus(w, c, s)
  {
    hide RefundEnabled, OperatorEnabled, WalletEnabled, BooksEnabled, InvFunds, InvOperators, InvRefunds, InvSdk;
    if s.RedeemEnds? { assert KRedeem(s.redeem) in w.sdk.sent; }
  }

  lemma OperatorRiseIs(w: World, c: Config, s: Step)
    requires Inv(w) && FeesKnown(w) && IsOperatorStep(s) && Enabled(w, c, s)
    ensures OperatorRise(w, c, s) >= 0 <==> FeeCovered(w, c, s)
    ensures FeeCovered(w, c, s) ==> OperatorRise(w, c, s) == Surplus(w, c, s)
  {
    hide RedeemEnabled, RefundEnabled, WalletEnabled, BooksEnabled, InvFunds, InvRedeems, InvRefunds, InvSdk;
    if s.WithdrawEnds? { assert KWithdraw(s.op) in w.sdk.sent; }
  }

  lemma RefundEndRise(w: World)
    requires Sound(w) && w.worker.PaidOut?
    ensures var p := w.sdk.sent[KRefund(w.worker.id)];
      KRefund(w.worker.id) in w.sdk.sent && w.worker.id < |w.t.refunds|
      && BookingGap(w.sdk.sent, KRefund(w.worker.id), w.worker.row.amount, w.worker.fee)
         == CameBack(w.sdk.sent, KRefund(w.worker.id)) + (w.t.refunds[w.worker.id].amount - p.amount) + (w.worker.fee - p.trueFee)
      && w.worker.row.amount >= 0 && w.worker.fee >= 0
      && (p.status != Returned ==> w.worker.row.amount >= p.amount)
  {
    hide InvFunds, InvRedeems, InvOperators, InvSdk, PaymentsKnown;
    assert !w.t.refunds[w.worker.id].refunded;
  }

  lemma RefundRiseIs(w: World, c: Config, s: Step)
    requires Sound(w) && IsRefundStep(s) && Enabled(w, c, s) && Fair(w, c, s) && FeeCovered(w, c, s)
    ensures RefundRise(w, c, s) >= 0
  {
    hide RedeemEnabled, OperatorEnabled, WalletEnabled, BooksEnabled, Inv, Backed, PaymentsKnown, PriceRefund;
    if s.RefundEnds? {
      RefundEndRise(w);
    } else if s.Reprice? && IsAbandoned(w.t.refunds[s.refund]) {
      RepricedRow(c.fees, w.t.refunds[s.refund]);
    }
  }

  lemma WalletRiseIs(w: World, c: Config, s: Step)
    requires FeesKnown(w) && IsWalletStep(s) && WalletEnabled(w, c, s)
    ensures WalletRise(w, c, s) >= 0
  {
  }

  lemma BooksRiseIs(w: World, c: Config, s: Step)
    requires Inv(w) && IsBooksStep(s) && BooksEnabled(w, c, s)
    ensures BooksRise(w, c, s) >= 0
    ensures s.Fund? ==> var received := w.sdk.receipts[s.fund];
      BooksRise(w, c, s) == if !Confirms(w.t, BooksNext(w, c, s).t, s.fund) then 0
        else (if received > w.t.funds[s.fund].msat then received - Booked(w.t, s.fund, received, s.now) else 0)
             + FundSkipped(w.t, c.fees, s.fund, received, s.orders, s.now)
  {
    hide ConfirmFund, ExpireVoucher, RegularVoucher, Transfer, Explained, Appends, FundSkipped, ExpireSkipped,
         RegularSkipped, OrderOk, InvRedeems, InvOperators, InvRefunds, InvSdk;
    match s {
      case Fund(i, orders, now) =>
        ConfirmFundEffect(w.t, c.fees, i, w.sdk.receipts[i], orders, now);
        if Confirms(w.t, BooksNext(w, c, s).t, i) { BookedBounds(w.t, i, w.sdk.receipts[i], now); }
      case Expire(id, codes, order, now) => ExpireEffect(w.t, c.fees, id, codes, order, now);
      case Regular(id, codes, order, last) => RegularEffect(w.t, c.fees, id, codes, order, last);
      case _ =>
    }
  }

  lemma SoundParts(w: World)
    ensures Sound(w) <==> Inv(w) && Backed(w.t.refunds, w.sdk.sent) && FeesKnown(w)
  {
  }

  /** Under any schedule, a step that prices fairly and covers its fee never lowers the
      corrected balance, and keeps the state sound. */
  lemma StepSound(w: World, c: Config, s: Step)
    requires Sound(w) && Enabled(w, c, s) && Fair(w, c, s) && FeeCovered(w, c, s)
    ensures Sound(Next(w, c, s)) && Rise(w, c, s) >= 0
  {
    hide *;
    ByKind(w, c, s);
    SoundParts(w);
    StepExact(w, c, s);
    StepFees(w, c, s);
    StepBacked(w, c, s);
    if IsRedeemStep(s) { RedeemRiseIs(w, c, s); }
    else if IsRefundStep(s) { RefundRiseIs(w, c, s); }
    else if IsOperatorStep(s) { OperatorRiseIs(w, c, s); }
    else if IsWalletStep(s) { WalletRiseIs(w, c, s); }
    else { BooksRiseIs(w, c, s); }
    SoundParts(Next(w, c, s));
  }

  /** Every reprice is fair and every blind booking covers its fee. */
  ghost predicate FairRun(ws: seq<World>, cs: seq<Config>, ss: seq<Step>)
    requires Run(ws, cs, ss)
  {
    forall i :: 0 <= i < |ss| ==> Fair(ws[i], cs[i], ss[i]) && FeeCovered(ws[i], cs[i], ss[i])
  }

  /** Whole-run solvency under any mix of fee schedules: the corrected balance never falls. */
  lemma {:induction false} MixedSolvent(ws: seq<World>, cs: seq<Config>, ss: seq<Step>)
    requires Run(ws, cs, ss) && FairRun(ws, cs, ss) && Sound(ws[0])
    ensures Sound(ws[|ss|]) && Balance(ws[|ss|]) >= Balance(ws[0])
    decreases |ss|
  {
    hide Next, Enabled, Rise, Sound, Balance, Fair, FeeCovered;
    if ss != [] {
      var n := |ss| - 1;
      RunPrefix(ws, cs, ss);
      assert FairRun(ws[..|ss|], cs[..n], ss[..n]);
      MixedSolvent(ws[..|ss|], cs[..n], ss[..n]);
      StepSound(ws[n], cs[n], ss[n]);
      SoundExact(ws[n], cs[n], ss[n]);
    }
  }

  lemma SoundExact(w: World, c: Config, s: Step)
    requires Sound(w) && Enabled(w, c, s)
    ensures Balance(Next(w, c, s)) == Balance(w) + Rise(w, c, s)
  {
    hide Next, Enabled, Rise, Inv, Balance, FeesKnown, Backed;
    StepExact(w, c, s);
  }

  /** The same on the ledger's own terms, at every point of the run: what is missing is in
      transit under a row that can still be booked, or was lost in a crash. */
  lemma BooksStayCovered(ws: seq<World>, cs: seq<Config>, ss: seq<Step>)
    requires Run(ws, cs, ss) && FairRun(ws, cs, ss) && Sound(ws[0]) && Balance(ws[0]) >= 0
    ensures forall i :: 0 <= i < |ws| ==>
      ws[i].sdk.wallet - Explained(ws[i].t) >= ReceivedUnbooked(ws[i]) - SentUnbooked(ws[i]) - LostMoney(ws[i])
  {
    hide Next, Enabled, Sound, Fair, FeeCovered, Explained, SentUnbooked, ReceivedUnbooked, LostMoney;
    forall i | 0 <= i < |ws|
      ensures ws[i].sdk.wallet - Explained(ws[i].t) >= ReceivedUnbooked(ws[i]) - SentUnbooked(ws[i]) - LostMoney(ws[i])
    {
      assert Run(ws[..i + 1], cs[..i], ss[..i]);
      assert FairRun(ws[..i + 1], cs[..i], ss[..i]);
      MixedSolvent(ws[..i + 1], cs[..i], ss[..i]);
    }
  }

  /** Nothing is under way: no request, no attempt, and no payment left under a row that can
      still be booked. */
  ghost predicate Quiet(w: World) {
    && w.redeeming == map[] && w.withdrawing == map[] && w.worker == Idle
    && (forall i: nat :: i < |w.t.redeems| && w.t.redeems[i].status == Pending && w.t.redeems[i].paymentStored ==>
          GrossOut(w.sdk.sent, KRedeem(i)) == 0)
    && (forall i: nat :: i < |w.t.refunds| && !w.t.refunds[i].refunded ==> GrossOut(w.sdk.sent, KRefund(i)) == 0)
    && (forall i: nat :: i < |w.t.operators| && w.t.operators[i].status == Pending && w.t.operators[i].paymentStored ==>
          GrossOut(w.sdk.sent, KWithdraw(i)) == 0)
  }

  lemma QuietSums(w: World)
    requires Quiet(w)
    ensures SentUnbooked(w) == 0
  {
    SumZeros(UnbookedRedeems(w.t.redeems, w.sdk.sent, w.redeeming));
    SumZeros(UnbookedRefunds(w.t.refunds, w.sdk.sent));
    SumZeros(UnbookedWithdraws(w.t.operators, w.sdk.sent, w.withdrawing));
  }

  /** When nothing is under way, and no crash fell between a send and storing its payment id, the
      wallet covers the books outright, together with every receipt still to be credited. */
  lemma QuietBooksCovered(ws: seq<World>, cs: seq<Config>, ss: seq<Step>)
    requires Run(ws, cs, ss) && FairRun(ws, cs, ss) && Sound(ws[0]) && Balance(ws[0]) >= 0
    requires forall owner :: !LostRow(ws[0], owner)
    requires forall k, owner :: 0 <= k < |ss| ==> !LosesTrack(ws[k], ss[k], owner)
    requires Quiet(ws[|ss|])
    ensures ws[|ss|].sdk.wallet >= Explained(ws[|ss|].t) + ReceivedUnbooked(ws[|ss|])
  {
    hide Next, Enabled, Fair, FeeCovered, Inv, Backed, FeesKnown, Explained, SentUnbooked, ReceivedUnbooked, LostMoney,
         LostRow, LosesTrack, Quiet;
    MixedSolvent(ws, cs, ss);
    NothingLost(ws, cs, ss);
    QuietSums(ws[|ss|]);
  }

  // ----- under one fee schedule -----

  /** Unpaid rows are priced by `c`, and a row whose payment already left still holds the
      amount that left. */
  ghost predicate Priced(c: Schedule, s: seq<RefundTx>, sent: map<Key, Payment>) {
    && (forall i :: 0 <= i < |s| ==> WellPriced(c, s[i]))
    && (forall i: nat :: KRefund(i) in sent && i < |s| && !s[i].refunded ==> sent[KRefund(i)].amount == s[i].amount)
  }

  ghost predicate Steady(c: Schedule, w: World) {
    Inv(w) && Priced(c, w.t.refunds, w.sdk.sent) && FeesKnown(w)
  }

  lemma PricedIsBacked(c: Schedule, s: seq<RefundTx>, sent: map<Key, Payment>)
    requires Priced(c, s, sent)
    ensures Backed(s, sent)
  {
    forall i | 0 <= i < |s| && !s[i].refunded ensures s[i].amount >= 0 { PricedAmount(c, s[i]); }
  }

  /** Repricing under the schedule that priced the rows is fair and changes no amount. */
  lemma SteadyIsFair(c: Config, w: World, s: Step)
    requires Steady(c.fees, w)
    ensures Sound(w) && Fair(w, c, s)
  {
    hide Inv, FeesKnown, PriceRefund;
    PricedIsBacked(c.fees, w.t.refunds, w.sdk.sent);
    if s.Reprice? && s.refund < |w.t.refunds| { assert WellPriced(c.fees, w.t.refunds[s.refund]); }
  }

  lemma PricedAppend(c: Schedule, s: seq<RefundTx>, u: seq<RefundTx>, sent: map<Key, Payment>, worker: WorkerPc)
    requires Priced(c, s, sent) && InvRefunds(s, sent, worker) && Appends(c, s, u)
    ensures Priced(c, u, sent)
  {
    assert forall i :: 0 <= i < |s| ==> u[i] == u[..|s|][i] == s[i];
  }

  predicate SameMoney(r: RefundTx, u: RefundTx) {
    r.refunded == u.refunded && r.amount == u.amount && r.dbTxFee == u.dbTxFee && r.dust == u.dust
  }

  lemma PricedSameMoney(c: Schedule, s: seq<RefundTx>, u: seq<RefundTx>, sent: map<Key, Payment>)
    requires Priced(c, s, sent) && |u| == |s|
    requires forall i :: 0 <= i < |s| ==> u[i].refunded || SameMoney(s[i], u[i])
    ensures Priced(c, u, sent)
  {
    forall i | 0 <= i < |u| ensures WellPriced(c, u[i]) { assert WellPriced(c, s[i]); }
  }

  lemma RefundPriced(w: World, c: Config, s: Step)
    requires Steady(c.fees, w) && IsRefundStep(s) && RefundEnabled(w, c, s)
    ensures Priced(c.fees, RefundNext(w, c, s).t.refunds, RefundNext(w, c, s).sdk.sent)
  {
    hide InvFunds, InvRedeems, InvOperators, InvSdk, PriceRefund, PaymentsKnown;
    if s.RefundSends? {
      PricedAmount(c.fees, w.t.refunds[w.worker.id]);
    } else if s.Reprice? {
      RepriceSame(c.fees, w.t.refunds, w.sdk.sent, s.refund);
    } else {
      PricedSameMoney(c.fees, w.t.refunds, RefundNext(w, c, s).t.refunds, w.sdk.sent);
    }
  }

  lemma RepriceSame(c: Schedule, s: seq<RefundTx>, sent: map<Key, Payment>, i: nat)
    requires Priced(c, s, sent) && i < |s|
    ensures Priced(c, RepriceAbandoned(s, c, i), sent)
  {
    hide PriceRefund;
    if IsAbandoned(s[i]) {
      RepriceEffect(c, s[i]);
      assert WellPriced(c, s[i]);
      PricedSameMoney(c, s, RepriceAbandoned(s, c, i), sent);
    }
  }

  lemma PricedSame(c: Schedule, w: World, v: World)
    requires Priced(c, w.t.refunds, w.sdk.sent) && RefundsUntouched(w, v)
    ensures Priced(c, v.t.refunds, v.sdk.sent)
  {
    forall i: nat | KRefund(i) in v.sdk.sent && i < |v.t.refunds| && !v.t.refunds[i].refunded
      ensures v.sdk.sent[KRefund(i)].amount == v.t.refunds[i].amount
    {
      assert SameUnder(w.sdk, v.sdk, KRefund(i));
    }
  }

  lemma WalletPriced(w: World, c: Config, s: Step)
    requires Steady(c.fees, w) && IsWalletStep(s) && WalletEnabled(w, c, s)
    ensures Priced(c.fees, WalletNext(w, c, s).t.refunds, WalletNext(w, c, s).sdk.sent)
  {
    hide Inv, PaymentsKnown;
  }

  lemma StepSteady(w: World, c: Config, s: Step)
    requires Steady(c.fees, w) && Enabled(w, c, s)
    ensures Steady(c.fees, Next(w, c, s))
  {
    hide RedeemNext, RedeemEnabled, RedeemRise, RefundNext, RefundEnabled, RefundRise, OperatorNext, OperatorEnabled,
         OperatorRise, WalletNext, WalletEnabled, WalletRise, BooksNext, BooksEnabled, BooksRise, Priced, FeesKnown,
         Appends, InvFunds, InvRedeems, InvOperators, InvRefunds, InvSdk, Balance;
    StepExact(w, c, s);
    StepFees(w, c, s);
    if IsRefundStep(s) {
      RefundPriced(w, c, s);
    } else if IsWalletStep(s) {
      WalletPriced(w, c, s);
    } else if s.Fund? || s.Expire? || s.Regular? {
      RowsAppended(w, c, s);
      PricedAppend(c.fees, w.t.refunds, Next(w, c, s).t.refunds, w.sdk.sent, w.worker);
    } else {
      TableFrame(w, c, s);
      SdkFrame(w, c, s);
      PricedSame(c.fees, w, Next(w, c, s));
    }
  }

  lemma RefundSurplus(w: World, c: Config, s: Step)
    requires Steady(c.fees, w) && IsRefundStep(s) && Enabled(w, c, s)
    ensures FeeCovered(w, c, s) ==> RefundRise(w, c, s) == Surplus(w, c, s)
    ensures RefundRise(w, c, s) >= 0 <==> FeeCovered(w, c, s)
  {
    hide RedeemEnabled, OperatorEnabled, WalletEnabled, BooksEnabled, Backed, PaymentsKnown, PriceRefund,
         InvFunds, InvRedeems, InvOperators, InvSdk;
    SteadyIsFair(c, w, s);
    if s.RefundEnds? {
      RefundEndRise(w);
      KnownAmount(w.sdk.sent, KRefund(w.worker.id));
      assert !w.t.refunds[w.worker.id].refunded;
    } else if s.Reprice? && IsAbandoned(w.t.refunds[s.refund]) {
      assert WellPriced(c.fees, w.t.refunds[s.refund]);
    }
  }

  lemma WalletSurplus(w: World, c: Config, s: Step)
    requires IsWalletStep(s) && Enabled(w, c, s)
    ensures WalletRise(w, c, s) == Surplus(w, c, s) && FeeCovered(w, c, s)
  {
    hide RedeemEnabled, RefundEnabled, OperatorEnabled, BooksEnabled, RowBooked;
  }

  lemma BooksSurplus(w: World, c: Config, s: Step)
    requires Inv(w) && IsBooksStep(s) && Enabled(w, c, s)
    ensures BooksRise(w, c, s) == Surplus(w, c, s) && FeeCovered(w, c, s)
  {
    hide RedeemEnabled, RefundEnabled, OperatorEnabled, WalletEnabled, ConfirmFund, Confirms, Booked, FundSkipped,
         ExpireSkipped, RegularSkipped, FundOrdersOk, OrderOk, Inv;
    BooksRiseIs(w, c, s);
  }

  lemma SteadyParts(c: Schedule, w: World)
    ensures Steady(c, w) <==> Inv(w) && Priced(c, w.t.refunds, w.sdk.sent) && FeesKnown(w)
  {
  }

  /** Under one fee schedule, exactly when a step loses money: it does not if and only if its
      booking covers the fee that was paid, and then it moves the corrected balance by its
      surplus. */
  lemma StepSurplus(w: World, c: Config, s: Step)
    requires Steady(c.fees, w) && Enabled(w, c, s)
    ensures Rise(w, c, s) >= 0 <==> FeeCovered(w, c, s)
    ensures FeeCovered(w, c, s) ==> Rise(w, c, s) == Surplus(w, c, s)
  {
    hide *;
    ByKind(w, c, s);
    SteadyParts(c.fees, w);
    if IsRedeemStep(s) { RedeemRiseIs(w, c, s); }
    else if IsRefundStep(s) { RefundSurplus(w, c, s); }
    else if IsOperatorStep(s) { OperatorRiseIs(w, c, s); }
    else if IsWalletStep(s) { WalletRiseIs(w, c, s); WalletSurplus(w, c, s); }
    else { BooksRiseIs(w, c, s); BooksSurplus(w, c, s); }
  }

  ghost function Surpluses(ws: seq<World>, cs: seq<Config>, ss: seq<Step>): seq<int>
    requires Run(ws, cs, ss)
  {
    seq(|ss|, i requires 0 <= i < |ss| => Surplus(ws[i], cs[i], ss[i]))
  }

  lemma SurplusesLast(ws: seq<World>, cs: seq<Config>, ss: seq<Step>)
    requires Run(ws, cs, ss) && ss != [] && Run(ws[..|ss|], cs[..|ss| - 1], ss[..|ss| - 1])
    ensures Surpluses(ws, cs, ss)
            == Surpluses(ws[..|ss|], cs[..|ss| - 1], ss[..|ss| - 1]) + [Surplus(ws[|ss| - 1], cs[|ss| - 1], ss[|ss| - 1])]
  {
    hide Next, Enabled, Surplus;
  }

  lemma LastStep(w: World, c: Config, s: Step, total: seq<int>)
    requires Steady(c.fees, w) && Enabled(w, c, s) && FeeCovered(w, c, s)
    ensures Steady(c.fees, Next(w, c, s))
    ensures Balance(Next(w, c, s)) + Sum(total) == Balance(w) + Sum(total + [Surplus(w, c, s)])
    ensures Surplus(w, c, s) >= 0
  {
    hide Next, Enabled, Inv, Balance, FeeCovered, Priced, FeesKnown, Surplus;
    StepSteady(w, c, s);
    StepExact(w, c, s);
    StepSurplus(w, c, s);
    SumAppend(total, Surplus(w, c, s));
  }

  /** Whole-run solvency under one schedule: the corrected balance rises by exactly the
      surpluses and never falls. */
  lemma {:induction false} Solvent(c: Config, ws: seq<World>, cs: seq<Config>, ss: seq<Step>)
    requires Run(ws, cs, ss) && (forall i :: 0 <= i < |cs| ==> cs[i] == c) && Steady(c.fees, ws[0])
    requires forall i :: 0 <= i < |ss| ==> FeeCovered(ws[i], c, ss[i])
    ensures Steady(c.fees, ws[|ss|])
    ensures Balance(ws[|ss|]) == Balance(ws[0]) + Sum(Surpluses(ws, cs, ss)) >= Balance(ws[0])
    decreases |ss|
  {
    hide Next, Enabled, Rise, Surplus, Steady, Balance, FeeCovered;
    if ss != [] {
      var n := |ss| - 1;
      RunPrefix(ws, cs, ss);
      SurplusesLast(ws, cs, ss);
      Solvent(c, ws[..|ss|], cs[..n], ss[..n]);
      LastStep(ws[n], c, ss[n], Surpluses(ws[..|ss|], cs[..n], ss[..n]));
    }
  }

  /** A fresh service is a state the theorems start from. */
  lemma FreshStart(c: Schedule, wallet: nat)
    ensures var w := World(Tables([], [], [], [], [], [], {}, map[]), Sdk(wallet, map[], map[], []), map[], map[], Idle);
      && Steady(c, w) && Sound(w) && Balance(w) == wallet && Quiet(w)
      && (forall owner :: !LostRow(w, owner))
  {
  }

  // ----- exactly when each booking loses money -----

  /** Startup recovery of a redeem books fee 0 for a Spark payment: it loses exactly that fee. */
  lemma RecoveryGap(w: World, c: Config, i: nat, now: int)
    requires Inv(w) && PaymentsKnown(w.sdk.sent) && Enabled(w, c, ResolveRedeem(i, now))
    requires w.t.redeems[i].paymentStored && KRedeem(i) in w.sdk.sent && w.sdk.sent[KRedeem(i)].status == Completed
    ensures var p := w.sdk.sent[KRedeem(i)];
      Balance(Next(w, c, ResolveRedeem(i, now))) == Balance(w) - (if p.via == Spark then p.trueFee as int else 0)
  {
    hide RedeemNext, InvFunds, InvOperators, InvRefunds, InvSdk, Balance;
    StepExact(w, c, ResolveRedeem(i, now));
  }

  /** So does startup recovery of an operator withdraw. */
  lemma WithdrawRecoveryGap(w: World, c: Config, i: nat)
    requires Inv(w) && PaymentsKnown(w.sdk.sent) && Enabled(w, c, ResolveWithdraw(i))
    requires w.t.operators[i].paymentStored && KWithdraw(i) in w.sdk.sent && w.sdk.sent[KWithdraw(i)].status == Completed
    ensures var p := w.sdk.sent[KWithdraw(i)];
      Balance(Next(w, c, ResolveWithdraw(i))) == Balance(w) - (if p.via == Spark then p.trueFee as int else 0)
  {
    hide OperatorNext, InvFunds, InvRedeems, InvRefunds, InvSdk, Balance;
    StepExact(w, c, ResolveWithdraw(i));
  }

  /** A refund send followed by its booking, under any mix of schedules: it loses money if and only
      if the payment that answers the send did not come back and cost more, amount and fee, than
      the row holds now plus the fee that is booked. */
  lemma RefundAnswerGap(w: World, c: Config, p: Payment, quote: nat)
    requires Sound(w) && Enabled(w, c, RefundSends(p, quote))
    ensures var v := Next(w, c, RefundSends(p, quote));
      var a := SendResult(w.sdk, w.worker.key, p);
      && Enabled(v, c, RefundEnds)
      && (Balance(Next(v, c, RefundEnds)) >= Balance(w) <==>
            a.status == Returned || w.worker.row.amount - a.amount + ActualSendFee(a, quote) >= a.trueFee)
  {
    hide Balance, Backed, InvFunds, InvRedeems, InvOperators, InvSdk;
    var v := Next(w, c, RefundSends(p, quote));
    StepExact(w, c, RefundSends(p, quote));
    StepExact(v, c, RefundEnds);
    AnsweredRow(w, SendResult(w.sdk, w.worker.key, p));
  }

  /** The row being paid is open, and its answer, if it left earlier, was at most what it holds. */
  lemma AnsweredRow(w: World, a: Payment)
    requires Sound(w) && w.worker.Marked?
    requires w.worker.key in w.sdk.sent ==> a == w.sdk.sent[w.worker.key]
    requires w.worker.key !in w.sdk.sent ==> a.amount == w.worker.row.amount / 1000 * 1000 && a.status != Returned
    ensures w.worker.row.amount >= 0 && (a.status != Returned ==> w.worker.row.amount >= a.amount)
    ensures w.worker.key in w.sdk.sent && a.via == Lightning ==> ActualSendFee(a, 0) == a.trueFee
  {
    hide InvFunds, InvRedeems, InvOperators, InvSdk;
    assert !w.t.refunds[w.worker.id].refunded;
    assert RowBacked(w.t.refunds[w.worker.id], w.sdk.sent, w.worker.id);
  }

  /** Under one schedule that is so if and only if the answer went over Spark at a fee above the
      one now quoted. */
  lemma RefundAnswerSteady(w: World, c: Config, p: Payment, quote: nat)
    requires Steady(c.fees, w) && Enabled(w, c, RefundSends(p, quote))
    ensures var v := Next(w, c, RefundSends(p, quote));
      var a := SendResult(w.sdk, w.worker.key, p);
      && Enabled(v, c, RefundEnds)
      && (Balance(Next(v, c, RefundEnds)) >= Balance(w) <==>
            a.status == Returned || a.via == Lightning || quote >= a.trueFee)
  {
    hide Next, Balance, WellPriced, Backed, InvFunds, InvRedeems, InvOperators, InvSdk;
    PricedIsBacked(c.fees, w.t.refunds, w.sdk.sent);
    RefundAnswerGap(w, c, p, quote);
    PricedAmount(c.fees, w.t.refunds[w.worker.id]);
  }

  /** After fair or unfair pricing alike: booking a refund at the fee that was paid loses money
      if and only if the row was repriced below what left under its key. */
  lemma RefundBookingGap(w: World, c: Config)
    requires Inv(w) && Enabled(w, c, RefundEnds) && GrossOut(w.sdk.sent, KRefund(w.worker.id)) != 0
    requires w.worker.fee == w.sdk.sent[KRefund(w.worker.id)].trueFee
    ensures Balance(Next(w, c, RefundEnds)) >= Balance(w) <==> RowBacked(w.t.refunds[w.worker.id], w.sdk.sent, w.worker.id)
  {
    hide RefundNext, Balance, InvFunds, InvRedeems, InvOperators, InvSdk;
    StepExact(w, c, RefundEnds);
  }
}
