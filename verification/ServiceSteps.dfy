/** Every step keeps the invariant and changes `Balance` by exactly `Rise`. Each effect is
    stated on the world it leads to; the lemmas at the end match the steps with their effects. */
module ServiceSteps {
  import opened Options
  import opened Sums
  import opened Split
  import opened Schema
  import opened Fees
  import opened Ledger
  import opened LedgerEffects
  import opened Service

  // ----- everything that is gone under a row -----

  /** Rows in transit and lost ones together. */
  function GoneRedeems(s: seq<RedeemTx>, sent: map<Key, Payment>): seq<int> {
    seq(|s|, i requires 0 <= i < |s| => if s[i].status == Pending then GrossOut(sent, KRedeem(i)) else 0)
  }

  function GoneWithdraws(s: seq<OperatorTx>, sent: map<Key, Payment>): seq<int> {
    seq(|s|, i requires 0 <= i < |s| => if s[i].status == Confirmed then 0 else GrossOut(sent, KWithdraw(i)))
  }

  function Gone(t: Tables, sent: map<Key, Payment>): int {
    Sum(GoneRedeems(t.redeems, sent)) + Sum(UnbookedRefunds(t.refunds, sent)) + Sum(GoneWithdraws(t.operators, sent))
  }

  function Corrected(w: World): int {
    w.sdk.wallet + Gone(w.t, w.sdk.sent) - ReceivedUnbooked(w) - Explained(w.t)
  }

  lemma CorrectedIsBalance(w: World)
    ensures Corrected(w) == Balance(w)
  {
    SumOfTwo(UnbookedRedeems(w.t.redeems, w.sdk.sent, w.redeeming), LostRedeems(w.t.redeems, w.sdk.sent, w.redeeming),
             GoneRedeems(w.t.redeems, w.sdk.sent));
    SumOfTwo(UnbookedWithdraws(w.t.operators, w.sdk.sent, w.withdrawing),
             LostWithdraws(w.t.operators, w.sdk.sent, w.withdrawing), GoneWithdraws(w.t.operators, w.sdk.sent));
  }

  /** `v` keeps the invariant, `rise` above `w`. */
  ghost predicate Kept(w: World, v: World, rise: int) {
    Inv(v) && Corrected(v) == Corrected(w) + rise
  }

  lemma KeptIs(w: World, v: World, rise: int)
    requires Kept(w, v, rise)
    ensures Inv(v) && Balance(v) == Balance(w) + rise
  {
    hide Inv, Balance, Corrected;
    CorrectedIsBalance(w);
    CorrectedIsBalance(v);
  }

  // ----- sums over rows in transit -----

  lemma RedeemsPoint(s: seq<RedeemTx>, sent: map<Key, Payment>, u: seq<RedeemTx>, sent': map<Key, Payment>, i: nat)
    requires i < |s| == |u|
    requires forall j :: 0 <= j < |s| && j != i ==> u[j] == s[j] && GrossOut(sent', KRedeem(j)) == GrossOut(sent, KRedeem(j))
    ensures Sum(GoneRedeems(u, sent'))
            == Sum(GoneRedeems(s, sent)) - GoneRedeems(s, sent)[i] + GoneRedeems(u, sent')[i]
  {
    assert GoneRedeems(u, sent') == GoneRedeems(s, sent)[i := GoneRedeems(u, sent')[i]];
    SumUpdate(GoneRedeems(s, sent), i, GoneRedeems(u, sent')[i]);
  }

  lemma RefundsPoint(s: seq<RefundTx>, sent: map<Key, Payment>, u: seq<RefundTx>, sent': map<Key, Payment>, i: nat)
    requires i < |s| == |u|
    requires forall j :: 0 <= j < |s| && j != i ==> u[j] == s[j] && GrossOut(sent', KRefund(j)) == GrossOut(sent, KRefund(j))
    ensures Sum(UnbookedRefunds(u, sent'))
            == Sum(UnbookedRefunds(s, sent)) - UnbookedRefunds(s, sent)[i] + UnbookedRefunds(u, sent')[i]
  {
    assert UnbookedRefunds(u, sent') == UnbookedRefunds(s, sent)[i := UnbookedRefunds(u, sent')[i]];
    SumUpdate(UnbookedRefunds(s, sent), i, UnbookedRefunds(u, sent')[i]);
  }

  lemma WithdrawsPoint(s: seq<OperatorTx>, sent: map<Key, Payment>, u: seq<OperatorTx>, sent': map<Key, Payment>, i: nat)
    requires i < |s| == |u|
    requires forall j :: 0 <= j < |s| && j != i ==> u[j] == s[j] && GrossOut(sent', KWithdraw(j)) == GrossOut(sent, KWithdraw(j))
    ensures Sum(GoneWithdraws(u, sent'))
            == Sum(GoneWithdraws(s, sent)) - GoneWithdraws(s, sent)[i] + GoneWithdraws(u, sent')[i]
  {
    assert GoneWithdraws(u, sent') == GoneWithdraws(s, sent)[i := GoneWithdraws(u, sent')[i]];
    SumUpdate(GoneWithdraws(s, sent), i, GoneWithdraws(u, sent')[i]);
  }

  lemma FundsPoint(s: seq<FundTx>, r: map<nat, int>, u: seq<FundTx>, r': map<nat, int>, i: nat)
    requires i < |s| == |u|
    requires forall j :: 0 <= j < |s| && j != i ==> u[j].status == s[j].status && (j in r <==> j in r') && (j in r ==> r[j] == r'[j])
    ensures Sum(UnbookedFunds(u, r')) == Sum(UnbookedFunds(s, r)) - UnbookedFunds(s, r)[i] + UnbookedFunds(u, r')[i]
  {
    assert UnbookedFunds(u, r') == UnbookedFunds(s, r)[i := UnbookedFunds(u, r')[i]];
    SumUpdate(UnbookedFunds(s, r), i, UnbookedFunds(u, r')[i]);
  }

  lemma RefundsGrow(s: seq<RefundTx>, u: seq<RefundTx>, sent: map<Key, Payment>)
    requires |s| <= |u| && u[..|s|] == s
    requires forall i: nat :: |s| <= i < |u| ==> KRefund(i) !in sent
    ensures Sum(UnbookedRefunds(u, sent)) == Sum(UnbookedRefunds(s, sent))
    decreases |u|
  {
    if |u| == |s| {
      assert u == s;
    } else {
      var n := |u| - 1;
      assert u[..n][..|s|] == s;
      RefundsGrow(s, u[..n], sent);
      assert UnbookedRefunds(u, sent) == UnbookedRefunds(u[..n], sent) + [0];
      SumAppend(UnbookedRefunds(u[..n], sent), 0);
    }
  }

  /** A new row whose key was never used adds nothing in transit. */
  lemma RedeemsAdd(s: seq<RedeemTx>, r: RedeemTx, sent: map<Key, Payment>)
    requires KRedeem(|s|) !in sent
    ensures Sum(GoneRedeems(s + [r], sent)) == Sum(GoneRedeems(s, sent))
  {
    assert GoneRedeems(s + [r], sent) == GoneRedeems(s, sent) + [0];
    SumAppend(GoneRedeems(s, sent), 0);
  }

  lemma WithdrawsAdd(s: seq<OperatorTx>, o: OperatorTx, sent: map<Key, Payment>)
    requires KWithdraw(|s|) !in sent
    ensures Sum(GoneWithdraws(s + [o], sent)) == Sum(GoneWithdraws(s, sent))
  {
    assert GoneWithdraws(s + [o], sent) == GoneWithdraws(s, sent) + [0];
    SumAppend(GoneWithdraws(s, sent), 0);
  }

  lemma FundsAdd(s: seq<FundTx>, f: FundTx, r: map<nat, int>)
    requires |s| !in r
    ensures Sum(UnbookedFunds(s + [f], r)) == Sum(UnbookedFunds(s, r))
  {
    assert UnbookedFunds(s + [f], r) == UnbookedFunds(s, r) + [0];
    SumAppend(UnbookedFunds(s, r), 0);
  }

  predicate RowExists(t: Tables, owner: Owner) {
    match owner
    case Redeem(i) => i < |t.redeems|
    case Refund(i) => i < |t.refunds|
    case Withdraw(i) => i < |t.operators|
  }

  /** A payment of this row is part of what is gone. */
  predicate RowCounts(t: Tables, owner: Owner) {
    RowExists(t, owner) &&
    match owner
    case Redeem(i) => t.redeems[i].status == Pending
    case Refund(i) => !t.refunds[i].refunded
    case Withdraw(i) => t.operators[i].status != Confirmed
  }

  /** A change under one key moves only that row's part of what is gone. */
  lemma GoneAt(t: Tables, sent: map<Key, Payment>, sent': map<Key, Payment>, owner: Owner)
    requires forall k :: k != KeyOf(owner) ==> GrossOut(sent', k) == GrossOut(sent, k)
    ensures Gone(t, sent') == Gone(t, sent)
            + if RowCounts(t, owner) then GrossOut(sent', KeyOf(owner)) - GrossOut(sent, KeyOf(owner)) else 0
  {
    if !owner.Redeem? || !RowExists(t, owner) {
      assert GoneRedeems(t.redeems, sent') == GoneRedeems(t.redeems, sent);
    } else {
      RedeemsPoint(t.redeems, sent, t.redeems, sent', owner.id);
    }
    if !owner.Refund? || !RowExists(t, owner) {
      assert UnbookedRefunds(t.refunds, sent') == UnbookedRefunds(t.refunds, sent);
    } else {
      RefundsPoint(t.refunds, sent, t.refunds, sent', owner.id);
    }
    if !owner.Withdraw? || !RowExists(t, owner) {
      assert GoneWithdraws(t.operators, sent') == GoneWithdraws(t.operators, sent);
    } else {
      WithdrawsPoint(t.operators, sent, t.operators, sent', owner.id);
    }
  }

  /** A send for an open row: the wallet's loss is accounted as gone, and keys stay unique. */
  lemma SendEffect(t: Tables, s: Sdk, owner: Owner, p: Payment)
    requires InvSdk(s.sent, s.outflows) && RowCounts(t, owner) && p.status != Returned
    ensures var s' := Send(s, owner, KeyOf(owner), p);
      && s'.wallet + Gone(t, s'.sent) == s.wallet + Gone(t, s.sent)
      && InvSdk(s'.sent, s'.outflows) && s'.receipts == s.receipts
      && KeyOf(owner) in s'.sent && s'.sent.Keys == s.sent.Keys + {KeyOf(owner)}
      && (forall k :: k in s.sent ==> s'.sent[k] == s.sent[k])
      && (KeyOf(owner) !in s.sent ==> s'.sent[KeyOf(owner)] == p)
  {
    if KeyOf(owner) !in s.sent {
      GoneAt(t, s.sent, s.sent[KeyOf(owner) := p], owner);
    }
  }

  // ----- vouchers, funding, transfers, sessions -----

  /** Freshly appended refund rows were never paid and carry no key. */
  lemma RefundRowsAdded(c: Schedule, s: seq<RefundTx>, u: seq<RefundTx>, sent: map<Key, Payment>, worker: WorkerPc)
    requires InvRefunds(s, sent, worker) && Appends(c, s, u)
    ensures InvRefunds(u, sent, worker)
    ensures Sum(UnbookedRefunds(u, sent)) == Sum(UnbookedRefunds(s, sent))
  {
    assert forall i :: 0 <= i < |s| ==> u[i] == u[..|s|][i] == s[i];
    RefundsGrow(s, u, sent);
  }

  /** A transaction on vouchers, transfers and sessions that may append refund rows. */
  lemma Booking(w: World, c: Schedule, u: Tables)
    requires Inv(w) && NonNegativeBalances(u.vouchers) && |u.vouchers| >= |w.t.vouchers|
    requires u == w.t.(vouchers := u.vouchers, refunds := u.refunds, transfers := u.transfers,
                       fingerprints := u.fingerprints, sessions := u.sessions)
    requires u.refunds == w.t.refunds || Appends(c, w.t.refunds, u.refunds)
    ensures Kept(w, w.(t := u), Explained(w.t) - Explained(u))
  {
    hide Explained, Sum, GoneRedeems, UnbookedRefunds, GoneWithdraws, UnbookedFunds, InvFunds, InvOperators,
         InvRefunds, InvSdk;
    if u.refunds != w.t.refunds { RefundRowsAdded(c, w.t.refunds, u.refunds, w.sdk.sent, w.worker); }
  }

  lemma VouchersWritten(w: World, vs: seq<Voucher>)
    requires Inv(w) && NonNegativeBalances(vs) && |vs| >= |w.t.vouchers|
    requires Sum(VoucherValues(vs)) == Sum(VoucherValues(w.t.vouchers))
    ensures Kept(w, w.(t := w.t.(vouchers := vs)), 0)
  {
    hide Inv, Sum, Kept;
    Booking(w, Schedule(0, 0, 0, 0), w.t.(vouchers := vs));
  }

  lemma VoucherWritten(w: World, id: nat, v: Voucher)
    requires Inv(w) && id < |w.t.vouchers| && v.balance == w.t.vouchers[id].balance
    ensures Kept(w, w.(t := w.t.(vouchers := w.t.vouchers[id := v])), 0)
  {
    hide Kept, VoucherValues, Sum, InvFunds, InvRedeems, InvOperators, InvRefunds, InvSdk;
    VoucherPut(w.t.vouchers, id, v);
    VouchersWritten(w, w.t.vouchers[id := v]);
  }

  lemma VoucherCreated(w: World, p: Voucher, now: int)
    requires Inv(w)
    ensures Kept(w, w.(t := w.t.(vouchers := w.t.vouchers + [NewVoucher(p, now)])), 0)
  {
    hide Kept, VoucherValues, Sum;
    VoucherAdd(w.t.vouchers, NewVoucher(p, now));
    VouchersWritten(w, w.t.vouchers + [NewVoucher(p, now)]);
  }

  lemma FundCreated(w: World, target: FundTarget, msat: int, fee: nat)
    requires Inv(w)
    ensures Kept(w, w.(t := w.t.(funds := w.t.funds + [FundTx(target, msat, fee, 0, Pending)])), 0)
  {
    hide FundValues, UnbookedFunds, Sum, InvRedeems, InvOperators, InvRefunds, InvSdk;
    var f := FundTx(target, msat, fee, 0, Pending);
    FundAdd(w.t.funds, f);
    FundsAdd(w.t.funds, f, w.sdk.receipts);
  }

  lemma FundConfirmed(w: World, c: Schedule, i: nat, orders: map<nat, seq<string>>, now: int)
    requires Inv(w) && i in w.sdk.receipts && FundOrdersOk(w.t, c, i, w.sdk.receipts[i], orders, now)
    ensures var received := w.sdk.receipts[i];
      var u := ConfirmFund(w.t, c, i, received, orders, now);
      Kept(w, w.(t := u), if Confirms(w.t, u, i)
                          then received - Booked(w.t, i, received, now) + FundSkipped(w.t, c, i, received, orders, now) else 0)
  {
    hide ConfirmFund, Booked, FundSkipped, FundOrdersOk, Appends, Explained, Sum, InvOperators, InvSdk;
    var received := w.sdk.receipts[i];
    ConfirmFundEffect(w.t, c, i, received, orders, now);
    var u := ConfirmFund(w.t, c, i, received, orders, now);
    RefundRowsAdded(c, w.t.refunds, u.refunds, w.sdk.sent, w.worker);
    FundsPoint(w.t.funds, w.sdk.receipts, u.funds, w.sdk.receipts, i);
  }

  // ----- the wallet -----

  lemma Received(w: World, i: nat, amount: nat)
    requires Inv(w) && i < |w.t.funds| && i !in w.sdk.receipts
    ensures Kept(w, w.(sdk := w.sdk.(wallet := w.sdk.wallet + amount, receipts := w.sdk.receipts[i := amount])), 0)
  {
    hide Explained, Gone, Sum, InvRedeems, InvOperators, InvRefunds, InvSdk;
    FundsPoint(w.t.funds, w.sdk.receipts, w.t.funds, w.sdk.receipts[i := amount], i);
  }

  /** Every payment the SDK remembers belongs to a row. */
  lemma SentHasRow(w: World, k: Key)
    requires Inv(w) && k in w.sdk.sent
    ensures k.KeyOf? && RowExists(w.t, k.owner)
  {
    match k.owner {
      case Redeem(i) => assert KRedeem(i) == k;
      case Refund(i) => assert KRefund(i) == k;
      case Withdraw(i) => assert KWithdraw(i) == k;
    }
  }

  /** An open payment is not that of a failed redeem. */
  lemma OpenCounts(w: World, k: Key)
    requires Inv(w) && k in w.sdk.sent && w.sdk.sent[k].status == Open
    ensures k.KeyOf? && (RowCounts(w.t, k.owner) <==> !RowBooked(w.t, k.owner))
  {
    SentHasRow(w, k);
    match k.owner {
      case Redeem(i) => assert KRedeem(i) == k;
      case Refund(i) => assert KRefund(i) == k;
      case Withdraw(i) => assert KWithdraw(i) == k;
    }
  }

  lemma StatusChange(w: World, k: Key, status: PayStatus)
    requires Inv(w) && k in w.sdk.sent && w.sdk.sent[k].status == Open
    ensures var sent' := w.sdk.sent[k := w.sdk.sent[k].(status := status)];
      && InvRedeems(w.t.redeems, |w.t.vouchers|, sent', w.redeeming)
      && InvOperators(w.t.operators, sent', w.withdrawing)
      && InvRefunds(w.t.refunds, sent', w.worker)
      && InvSdk(sent', w.sdk.outflows)
  {
  }

  lemma Settled(w: World, k: Key, status: PayStatus)
    requires Inv(w) && k in w.sdk.sent && w.sdk.sent[k].status == Open && status != Open
    ensures var p := w.sdk.sent[k];
      var back := if status == Returned then p.amount + p.trueFee else 0;
      var v := w.(sdk := w.sdk.(wallet := w.sdk.wallet + back, sent := w.sdk.sent[k := p.(status := status)]));
      Kept(w, v, if k.KeyOf? && RowBooked(w.t, k.owner) then back else 0)
  {
    hide Explained, Gone, RowCounts, RowBooked, InvFunds, InvRedeems, InvOperators, InvRefunds, InvSdk;
    OpenCounts(w, k);
    StatusChange(w, k, status);
    GoneAt(w.t, w.sdk.sent, w.sdk.sent[k := w.sdk.sent[k].(status := status)], k.owner);
  }

  lemma Crashed(w: World)
    requires Inv(w)
    ensures Kept(w, w.(redeeming := map[], withdrawing := map[], worker := Idle), 0)
  {
  }

  // ----- redeems -----

  lemma RedeemBegun(w: World, c: Schedule, id: nat, amount: int, now: int)
    requires Inv(w) && amount > 0 && BeginRedeem(w.t, c, id, amount, now).Some?
    ensures var u := BeginRedeem(w.t, c, id, amount, now).value;
      Kept(w, w.(t := u, redeeming := w.redeeming[|w.t.redeems| := Deducted]), 0)
  {
    hide CalculateRedeemFee, Explained, GoneRedeems, Sum, InvFunds, InvOperators, InvRefunds, InvSdk;
    BeginRedeemEffect(w.t, c, id, amount, now);
    RedeemsAdd(w.t.redeems, BeginRedeem(w.t, c, id, amount, now).value.redeems[|w.t.redeems|], w.sdk.sent);
  }

  /** Giving back is right only if nothing left, or what left came back. */
  lemma RedeemFailed(w: World, i: nat, now: int, redeeming: map<nat, RedeemPc>)
    requires Inv(w) && i < |w.t.redeems| && w.t.redeems[i].status == Pending && redeeming == w.redeeming - {i}
    requires KRedeem(i) in w.sdk.sent ==> w.sdk.sent[KRedeem(i)].status == Returned
    ensures Kept(w, w.(t := FailRedeem(w.t, i, now), redeeming := redeeming), 0)
  {
    hide Explained, Sum, InvFunds, InvOperators, InvRefunds, InvSdk;
    FailRedeemEffect(w.t, i, now);
    RedeemsPoint(w.t.redeems, w.sdk.sent, FailRedeem(w.t, i, now).redeems, w.sdk.sent, i);
  }

  lemma RedeemBooked(w: World, i: nat, fee: int, redeeming: map<nat, RedeemPc>)
    requires Inv(w) && i < |w.t.redeems| && w.t.redeems[i].status == Pending && redeeming == w.redeeming - {i}
    ensures Kept(w, w.(t := ConfirmRedeem(w.t, i, fee), redeeming := redeeming),
                 BookingGap(w.sdk.sent, KRedeem(i), w.t.redeems[i].msat, fee))
  {
    hide RedeemValues, Sum, InvFunds, InvOperators, InvRefunds, InvSdk;
    var u := ConfirmRedeem(w.t, i, fee).redeems;
    RedeemPut(w.t.redeems, i, u[i]);
    RedeemsPoint(w.t.redeems, w.sdk.sent, u, w.sdk.sent, i);
  }

  lemma RedeemNoted(w: World, i: nat)
    requires Inv(w) && i in w.redeeming && !w.redeeming[i].Deducted?
    ensures Kept(w, w.(t := StoreRedeemPayment(w.t, i), redeeming := w.redeeming[i := Noted(w.redeeming[i].fee)]), 0)
  {
    hide RedeemValues, Sum, InvFunds, InvOperators, InvRefunds, InvSdk;
    var u := StoreRedeemPayment(w.t, i).redeems;
    RedeemPut(w.t.redeems, i, u[i]);
    RedeemsPoint(w.t.redeems, w.sdk.sent, u, w.sdk.sent, i);
  }

  lemma RedeemSent(w: World, i: nat, p: Payment, fee: int)
    requires Inv(w) && i in w.redeeming && p.amount == w.t.redeems[i].msat && p.status != Returned
    ensures Kept(w, w.(sdk := Send(w.sdk, Owner.Redeem(i), KRedeem(i), p), redeeming := w.redeeming[i := Sent(fee)]), 0)
  {
    hide Explained, Gone, Send, InvFunds;
    SendEffect(w.t, w.sdk, Owner.Redeem(i), p);
  }

  /** The redeem steps and their effects. */
  lemma RedeemExact(w: World, c: Config, s: Step)
    requires Inv(w) && IsRedeemStep(s) && RedeemEnabled(w, c, s)
    ensures Kept(w, RedeemNext(w, c, s), RedeemRise(w, c, s))
  {
    hide Kept, Send, SendResult, BookingGap, ActualSendFee, FailRedeem, ConfirmRedeem, StoreRedeemPayment, BeginRedeem,
         InvFunds, InvOperators, InvRefunds, InvSdk;
    Unchanged(w);
    match s {
      case Redeem(v, amount, now) =>
        if BeginRedeem(w.t, c.fees, v, amount, now).Some? { RedeemBegun(w, c.fees, v, amount, now); }
      case RedeemFails(i, now) => RedeemFailed(w, i, now, w.redeeming - {i});
      case RedeemSends(i, p, quote) => RedeemSent(w, i, p, ActualSendFee(SendResult(w.sdk, KRedeem(i), p), quote));
      case RedeemNotes(i) => RedeemNoted(w, i);
      case RedeemEnds(i) => RedeemBooked(w, i, w.redeeming[i].fee, w.redeeming - {i});
      case ResolveRedeem(i, now) =>
        assert w.redeeming == w.redeeming - {i};
        if KRedeem(i) in w.sdk.sent {
          if w.sdk.sent[KRedeem(i)].status == Returned { RedeemFailed(w, i, now, w.redeeming); }
          RedeemBooked(w, i, ActualSendFee(w.sdk.sent[KRedeem(i)], 0), w.redeeming);
        }
    }
  }

  lemma Unchanged(w: World)
    requires Inv(w)
    ensures Kept(w, w, 0)
  {
  }

  // ----- refunds -----

  lemma RefundRowChange(w: World, i: nat, r: RefundTx, worker: WorkerPc)
    requires Inv(w) && i < |w.t.refunds| && r.refunded == w.t.refunds[i].refunded && RefundValue(r) == RefundValue(w.t.refunds[i])
    requires InvRefunds(w.t.refunds[i := r], w.sdk.sent, worker)
    ensures Kept(w, w.(t := w.t.(refunds := w.t.refunds[i := r]), worker := worker), 0)
  {
    hide RefundValues, Sum, InvFunds, InvRedeems, InvOperators, InvRefunds, InvSdk;
    RefundPut(w.t.refunds, i, r);
    RefundsPoint(w.t.refunds, w.sdk.sent, w.t.refunds[i := r], w.sdk.sent, i);
  }

  lemma RefundRefusedEffect(w: World)
    requires Inv(w) && (w.worker.Chosen? || w.worker.Marked?)
    ensures Kept(w, w.(t := w.t.(refunds := MarkRefundFailed(w.t.refunds, w.worker.id)), worker := Idle), 0)
  {
    hide Kept, InvFunds, InvRedeems, InvOperators, InvSdk;
    RefundRowChange(w, w.worker.id, MarkRefundFailed(w.t.refunds, w.worker.id)[w.worker.id], Idle);
  }

  lemma RefundMarkedEffect(w: World)
    requires Inv(w) && w.worker.Chosen?
    ensures var key := AttemptKey(w.worker.id, w.worker.row);
      Kept(w, w.(t := w.t.(refunds := MarkInFlight(w.t.refunds, w.worker.id, key)),
                 worker := Marked(w.worker.id, w.worker.row, key)), 0)
  {
    hide Kept, InvFunds, InvRedeems, InvOperators, InvSdk;
    var key := AttemptKey(w.worker.id, w.worker.row);
    RefundRowChange(w, w.worker.id, MarkInFlight(w.t.refunds, w.worker.id, key)[w.worker.id],
                    Marked(w.worker.id, w.worker.row, key));
  }

  lemma RefundChosen(w: World, worker: WorkerPc)
    requires Inv(w) && InvRefunds(w.t.refunds, w.sdk.sent, worker)
    ensures Kept(w, w.(worker := worker), 0)
  {
  }

  lemma RefundSent(w: World, p: Payment, fee: int)
    requires Inv(w) && w.worker.Marked? && p.status != Returned
    ensures Kept(w, w.(sdk := Send(w.sdk, Owner.Refund(w.worker.id), w.worker.key, p),
                       worker := PaidOut(w.worker.id, w.worker.row, fee)), 0)
  {
    hide Explained, Gone, Send, InvFunds;
    SendEffect(w.t, w.sdk, Owner.Refund(w.worker.id), p);
  }

  lemma RefundBooked(w: World)
    requires Inv(w) && w.worker.PaidOut?
    ensures var id, row, fee := w.worker.id, w.worker.row, w.worker.fee;
      Kept(w, w.(t := w.t.(refunds := MarkPaid(w.t.refunds, id, row.dbTxFee - fee, fee)), worker := Idle),
           BookingGap(w.sdk.sent, KRefund(id), row.amount, fee))
  {
    hide RefundValues, Sum, InvFunds, InvRedeems, InvOperators, InvSdk;
    var i := w.worker.id;
    var u := MarkPaid(w.t.refunds, i, w.worker.row.dbTxFee - w.worker.fee, w.worker.fee);
    RefundPut(w.t.refunds, i, u[i]);
    RefundsPoint(w.t.refunds, w.sdk.sent, u, w.sdk.sent, i);
  }

  lemma RefundRepriced(w: World, c: Schedule, i: nat)
    requires Inv(w) && w.worker == Idle && i < |w.t.refunds|
    ensures Kept(w, w.(t := w.t.(refunds := RepriceAbandoned(w.t.refunds, c, i))),
                 if IsAbandoned(w.t.refunds[i]) && Repriced(c, w.t.refunds[i]).refunded then -GrossOut(w.sdk.sent, KRefund(i)) else 0)
  {
    hide RefundValues, Sum, PriceRefund, InvFunds, InvRedeems, InvOperators, InvSdk;
    var u := RepriceAbandoned(w.t.refunds, c, i);
    if IsAbandoned(w.t.refunds[i]) {
      RepriceEffect(c, w.t.refunds[i]);
      RefundPut(w.t.refunds, i, u[i]);
      RefundsPoint(w.t.refunds, w.sdk.sent, u, w.sdk.sent, i);
    }
  }

  lemma RefundsRequeued(w: World)
    requires Inv(w) && w.worker == Idle
    ensures Kept(w, w.(t := w.t.(refunds := ResetKeyedInFlight(w.t.refunds))), 0)
  {
    hide Sum, InvFunds, InvRedeems, InvOperators, InvSdk;
    var u := ResetKeyedInFlight(w.t.refunds);
    assert RefundValues(u) == RefundValues(w.t.refunds);
    assert UnbookedRefunds(u, w.sdk.sent) == UnbookedRefunds(w.t.refunds, w.sdk.sent);
  }

  /** The refund steps and their effects. */
  lemma RefundExact(w: World, c: Config, s: Step)
    requires Inv(w) && IsRefundStep(s) && RefundEnabled(w, c, s)
    ensures Kept(w, RefundNext(w, c, s), RefundRise(w, c, s))
  {
    hide Kept, Send, SendResult, BookingGap, ActualSendFee, MarkInFlight, MarkRefundFailed, MarkPaid, RepriceAbandoned,
         ResetKeyedInFlight, AttemptKey, Repriced, GrossOut, InvFunds, InvRedeems, InvOperators, InvSdk;
    match s {
      case RefundStarts(i) => RefundChosen(w, Chosen(i, w.t.refunds[i]));
      case RefundRefused => RefundRefusedEffect(w);
      case RefundMarks => RefundMarkedEffect(w);
      case RefundSends(p, quote) => RefundSent(w, p, ActualSendFee(SendResult(w.sdk, w.worker.key, p), quote));
      case RefundEnds => RefundBooked(w);
      case RefundDropped => RefundChosen(w, Idle);
      case Reprice(i) => RefundRepriced(w, c.fees, i);
      case Requeue => RefundsRequeued(w);
    }
  }

  // ----- operator -----

  lemma OperatorBegun(w: World, o: OperatorTx, withdrawing: map<nat, WithdrawPc>)
    requires Inv(w) && o.status == Pending
    requires withdrawing == w.withdrawing || (o.kind == OpWithdraw && withdrawing == w.withdrawing[|w.t.operators| := Inserted])
    ensures Kept(w, w.(t := w.t.(operators := w.t.operators + [o]), withdrawing := withdrawing), 0)
  {
    hide OperatorValues, Sum, GoneWithdraws, InvFunds, InvRedeems, InvRefunds, InvSdk;
    OperatorAdd(w.t.operators, o);
    WithdrawsAdd(w.t.operators, o, w.sdk.sent);
  }

  /** A pending row becomes `o`; for a withdraw that is booked, the rise is what the booking misses. */
  lemma OperatorRowChange(w: World, i: nat, o: OperatorTx, withdrawing: map<nat, WithdrawPc>)
    requires Inv(w) && i < |w.t.operators| && w.t.operators[i].status == Pending && o.kind == w.t.operators[i].kind
    requires o.kind == OpDeposit || o.amount == w.t.operators[i].amount
    requires InvOperators(w.t.operators[i := o], w.sdk.sent, withdrawing)
    ensures Kept(w, w.(t := w.t.(operators := w.t.operators[i := o]), withdrawing := withdrawing),
                 if o.status == Confirmed && o.kind == OpWithdraw then BookingGap(w.sdk.sent, KWithdraw(i), o.amount, o.fee) else 0)
  {
    hide OperatorValues, Sum, InvFunds, InvRedeems, InvRefunds, InvSdk;
    OperatorPut(w.t.operators, i, o);
    WithdrawsPoint(w.t.operators, w.sdk.sent, w.t.operators[i := o], w.sdk.sent, i);
  }

  lemma WithdrawSent(w: World, i: nat, p: Payment, fee: int)
    requires Inv(w) && i in w.withdrawing && p.amount == w.t.operators[i].amount && p.status != Returned
    ensures Kept(w, w.(sdk := Send(w.sdk, Owner.Withdraw(i), KWithdraw(i), p), withdrawing := w.withdrawing[i := Wired(fee)]), 0)
  {
    hide Explained, Gone, Send, InvFunds;
    SendEffect(w.t, w.sdk, Owner.Withdraw(i), p);
  }

  lemma WithdrawNoted(w: World, i: nat)
    requires Inv(w) && i in w.withdrawing && !w.withdrawing[i].Inserted?
    ensures Kept(w, w.(t := w.t.(operators := StoreOperatorPayment(w.t.operators, i)),
                       withdrawing := w.withdrawing[i := Filed(w.withdrawing[i].fee)]), 0)
  {
    hide Kept, InvFunds, InvRedeems, InvRefunds, InvSdk;
    OperatorRowChange(w, i, w.t.operators[i].(paymentStored := true), w.withdrawing[i := Filed(w.withdrawing[i].fee)]);
  }

  lemma WithdrawFailed(w: World, i: nat, withdrawing: map<nat, WithdrawPc>)
    requires Inv(w) && i < |w.t.operators| && w.t.operators[i].kind == OpWithdraw && w.t.operators[i].status == Pending
    requires withdrawing == w.withdrawing - {i}
    ensures Kept(w, w.(t := w.t.(operators := FailOperator(w.t.operators, i)), withdrawing := withdrawing), 0)
  {
    hide Kept, InvFunds, InvRedeems, InvRefunds, InvSdk;
    OperatorRowChange(w, i, w.t.operators[i].(status := Failed), withdrawing);
  }

  lemma WithdrawBooked(w: World, i: nat, fee: int, withdrawing: map<nat, WithdrawPc>)
    requires Inv(w) && i < |w.t.operators| && w.t.operators[i].kind == OpWithdraw && w.t.operators[i].status == Pending
    requires withdrawing == w.withdrawing - {i}
    ensures Kept(w, w.(t := w.t.(operators := ConfirmOperator(w.t.operators, i, fee)), withdrawing := withdrawing),
                 BookingGap(w.sdk.sent, KWithdraw(i), w.t.operators[i].amount, fee))
  {
    hide Kept, InvFunds, InvRedeems, InvRefunds, InvSdk;
    OperatorRowChange(w, i, w.t.operators[i].(status := Confirmed, fee := fee), withdrawing);
  }

  lemma DepositArrived(w: World, i: nat, amount: int)
    requires Inv(w) && i < |w.t.operators| && w.t.operators[i].kind == OpDeposit && w.t.operators[i].status == Pending
    ensures Kept(w, w.(t := w.t.(operators := w.t.operators[i := w.t.operators[i].(status := Confirmed, amount := amount)])), 0)
  {
    hide Kept, InvFunds, InvRedeems, InvRefunds, InvSdk;
    OperatorRowChange(w, i, w.t.operators[i].(status := Confirmed, amount := amount), w.withdrawing);
  }

  /** The operator steps and their effects. */
  lemma OperatorExact(w: World, c: Config, s: Step)
    requires Inv(w) && IsOperatorStep(s) && OperatorEnabled(w, c, s)
    ensures Kept(w, OperatorNext(w, c, s), OperatorRise(w, c, s))
  {
    hide Kept, Send, SendResult, BookingGap, ActualSendFee, ConfirmOperator, FailOperator, StoreOperatorPayment,
         InvFunds, InvRedeems, InvRefunds, InvSdk;
    Unchanged(w);
    match s {
      case Withdraw(amount) =>
        OperatorBegun(w, OperatorTx(OpWithdraw, Pending, amount, 0, false), w.withdrawing[|w.t.operators| := Inserted]);
      case WithdrawSends(i, p, quote) => WithdrawSent(w, i, p, ActualSendFee(SendResult(w.sdk, KWithdraw(i), p), quote));
      case WithdrawFails(i) => WithdrawFailed(w, i, w.withdrawing - {i});
      case WithdrawNotes(i) => WithdrawNoted(w, i);
      case WithdrawEnds(i) => WithdrawBooked(w, i, w.withdrawing[i].fee, w.withdrawing - {i});
      case Deposit(amount) => OperatorBegun(w, OperatorTx(OpDeposit, Pending, amount, 0, false), w.withdrawing);
      case DepositArrives(i, amount) => if w.t.operators[i].status == Pending { DepositArrived(w, i, amount); }
      case ResolveWithdraw(i) =>
        assert w.withdrawing == w.withdrawing - {i};
        WithdrawFailed(w, i, w.withdrawing);
        if KWithdraw(i) in w.sdk.sent { WithdrawBooked(w, i, ActualSendFee(w.sdk.sent[KWithdraw(i)], 0), w.withdrawing); }
    }
  }

  // ----- all steps -----

  lemma WalletExact(w: World, c: Config, s: Step)
    requires Inv(w) && IsWalletStep(s) && WalletEnabled(w, c, s)
    ensures Kept(w, WalletNext(w, c, s), WalletRise(w, c, s))
  {
    hide InvFunds, InvRedeems, InvOperators, InvRefunds, InvSdk, RowBooked, Gone, Explained;
    match s {
      case Receive(i, amount) => Received(w, i, amount);
      case ReceiveOther(amount) =>
      case Settle(k) => Settled(w, k, Completed);
      case Return(k) => Settled(w, k, Returned);
      case Crash => Crashed(w);
    }
  }

  lemma MoveExact(w: World, c: Config, src: nat, read: Voucher, amount: int, d: Destination, fp: string, now: int)
    requires Inv(w)
    ensures Kept(w, w.(t := Or(Transfer(w.t, c, src, read, amount, d, fp, now), w.t)), 0)
  {
    hide Transfer, Kept, Explained, Appends, InvFunds, InvRedeems, InvOperators, InvRefunds, InvSdk;
    Unchanged(w);
    if Transfer(w.t, c, src, read, amount, d, fp, now).Some? {
      TransferEffect(w.t, c, src, read, amount, d, fp, now);
      Booking(w, c.fees, Transfer(w.t, c, src, read, amount, d, fp, now).value);
    }
  }

  lemma FanOutBooked(w: World, c: Schedule, id: nat, codes: seq<RefundCode>, order: seq<string>, now: int)
    requires Inv(w) && OrderOk(w.t, id, codes, order)
    ensures Kept(w, w.(t := ExpireVoucher(w.t, c, id, codes, order, now)), ExpireSkipped(w.t, c, id, codes, order))
    ensures Kept(w, w.(t := RegularVoucher(w.t, c, id, codes, order, now)), RegularSkipped(w.t, c, id, codes, order))
  {
    hide ExpireVoucher, RegularVoucher, ExpireSkipped, RegularSkipped, OrderOk, Kept, Explained, Appends,
         InvFunds, InvRedeems, InvOperators, InvRefunds, InvSdk;
    ExpireEffect(w.t, c, id, codes, order, now);
    RegularEffect(w.t, c, id, codes, order, now);
    Booking(w, c, ExpireVoucher(w.t, c, id, codes, order, now));
    Booking(w, c, RegularVoucher(w.t, c, id, codes, order, now));
  }

  lemma SessionsExact(w: World, sessions: map<string, Session>)
    requires Inv(w)
    ensures Kept(w, w.(t := w.t.(sessions := sessions)), 0)
  {
  }

  lemma BooksExact(w: World, c: Config, s: Step)
    requires Inv(w) && IsBooksStep(s) && BooksEnabled(w, c, s)
    ensures Kept(w, BooksNext(w, c, s), BooksRise(w, c, s))
  {
    hide Kept, Inv, ConfirmFund, Transfer, ExpireVoucher, RegularVoucher, FundOrdersOk,
         OrderOk, ExpireSkipped, RegularSkipped, FundSkipped, Booked, Confirms, NewVoucher;
    Unchanged(w);
    match s {
      case CreateVoucher(p, now) => VoucherCreated(w, p, now);
      case Edit(id, p, now) =>
        if id < |w.t.vouchers| { VoucherWritten(w, id, EditVoucher(w.t.vouchers, id, p, now)[id]); }
      case Advance(id, last) =>
        if id < |w.t.vouchers| { VoucherWritten(w, id, w.t.vouchers[id].(lastAt := last)); }
      case CreateFund(target, msat, fee) => FundCreated(w, target, msat, fee);
      case Fund(i, orders, now) => FundConfirmed(w, c.fees, i, orders, now);
      case Move(src, read, amount, d, fp, now) => MoveExact(w, c, src, read, amount, d, fp, now);
      case OpenSession(k1, v, now) => SessionsExact(w, BooksNext(w, c, s).t.sessions);
      case UseSession(k1, v, now) => SessionsExact(w, BooksNext(w, c, s).t.sessions);
      case Expire(id, codes, order, now) => FanOutBooked(w, c.fees, id, codes, order, now);
      case Regular(id, codes, order, last) => FanOutBooked(w, c.fees, id, codes, order, last);
    }
  }

  /** The exact identity, step by step, for every step and every fee schedule. */
  lemma StepExact(w: World, c: Config, s: Step)
    requires Inv(w) && Enabled(w, c, s)
    ensures Inv(Next(w, c, s)) && Balance(Next(w, c, s)) == Balance(w) + Rise(w, c, s)
  {
    hide *;
    ByKind(w, c, s);
    if IsRedeemStep(s) { RedeemExact(w, c, s); }
    else if IsRefundStep(s) { RefundExact(w, c, s); }
    else if IsOperatorStep(s) { OperatorExact(w, c, s); }
    else if IsWalletStep(s) { WalletExact(w, c, s); }
    else { BooksExact(w, c, s); }
    KeptIs(w, Next(w, c, s), Rise(w, c, s));
  }
}
