/** What each kind of step leaves alone. */
module Frames {
  import opened Options
  import opened Fees
  import opened Split
  import opened Schema
  import opened Ledger
  import opened LedgerEffects
  import opened Service

  /** The SDK remembers the same under this key. */
  predicate SameUnder(a: Sdk, b: Sdk, k: Key) {
    (k in a.sent <==> k in b.sent) && (k in a.sent ==> a.sent[k] == b.sent[k])
  }

  ghost predicate SameRefunds(a: Sdk, b: Sdk) {
    forall i: nat :: SameUnder(a, b, KRefund(i))
  }

  ghost predicate SameWithdraws(a: Sdk, b: Sdk) {
    forall i: nat :: SameUnder(a, b, KWithdraw(i))
  }

  lemma RedeemTables(w: World, c: Config, s: Step)
    requires IsRedeemStep(s) && RedeemEnabled(w, c, s)
    ensures var u := RedeemNext(w, c, s).t;
      u == w.t.(vouchers := u.vouchers, redeems := u.redeems) && (s.RedeemSends? ==> u == w.t)
  {
    hide CalculateRedeemFee, UpdateVoucherBalance, AddVoucherBalance, Send, SendResult, ActualSendFee, Honest;
  }

  lemma RedeemFrame(w: World, c: Config, s: Step)
    requires IsRedeemStep(s) && RedeemEnabled(w, c, s)
    ensures var u := RedeemNext(w, c, s);
      && u.t == w.t.(vouchers := u.t.vouchers, redeems := u.t.redeems)
      && SameRefunds(w.sdk, u.sdk) && SameWithdraws(w.sdk, u.sdk)
      && (s.RedeemSends? ==> u.t == w.t && forall k :: |w.sdk.outflows| <= k < |u.sdk.outflows| ==> u.sdk.outflows[k].owner.Redeem?)
      && (!s.RedeemSends? ==> u.sdk == w.sdk)
  {
    hide BeginRedeem, FailRedeem, ConfirmRedeem, StoreRedeemPayment, ActualSendFee, Honest;
    RedeemTables(w, c, s);
  }

  lemma RefundTables(w: World, c: Config, s: Step)
    requires IsRefundStep(s) && RefundEnabled(w, c, s)
    ensures var u := RefundNext(w, c, s);
      && u.t == w.t.(refunds := u.t.refunds) && (!s.RefundSends? ==> u.sdk == w.sdk)
      && u.redeeming == w.redeeming && u.withdrawing == w.withdrawing
  {
  }

  lemma OperatorTables(w: World, c: Config, s: Step)
    requires IsOperatorStep(s) && OperatorEnabled(w, c, s)
    ensures var u := OperatorNext(w, c, s);
      && u.t == w.t.(operators := u.t.operators) && u.redeeming == w.redeeming
      && (!s.WithdrawSends? ==> u.sdk == w.sdk)
      && (s.WithdrawSends? ==> u.sdk == Send(w.sdk, Owner.Withdraw(s.op), KWithdraw(s.op), s.p))
  {
    hide ConfirmOperator, FailOperator, StoreOperatorPayment, ActualSendFee, Send, SendResult, Honest;
  }

  lemma OperatorFrame(w: World, c: Config, s: Step)
    requires IsOperatorStep(s) && OperatorEnabled(w, c, s)
    ensures var u := OperatorNext(w, c, s);
      && u.t == w.t.(operators := u.t.operators)
      && SameRefunds(w.sdk, u.sdk) && (!s.WithdrawSends? ==> u.sdk == w.sdk) && u.redeeming == w.redeeming
      && forall k :: |w.sdk.outflows| <= k < |u.sdk.outflows| ==> u.sdk.outflows[k].owner.Withdraw?
  {
    hide OperatorNext, OperatorEnabled;
    OperatorTables(w, c, s);
  }

  lemma WalletFrame(w: World, c: Config, s: Step)
    requires IsWalletStep(s) && WalletEnabled(w, c, s)
    ensures WalletNext(w, c, s).t == w.t && WalletNext(w, c, s).sdk.outflows == w.sdk.outflows
    ensures WalletNext(w, c, s).redeeming == if s.Crash? then map[] else w.redeeming
  {
  }

  lemma MoveFrame(t: Tables, c: Config, src: nat, read: Voucher, amount: int, d: Destination, fp: string, now: int)
    ensures var u := Or(Transfer(t, c, src, read, amount, d, fp, now), t);
      u == t.(vouchers := u.vouchers, transfers := u.transfers, fingerprints := u.fingerprints)
  {
    hide Transfer;
    if Transfer(t, c, src, read, amount, d, fp, now).Some? { TransferEffect(t, c, src, read, amount, d, fp, now); }
  }

  lemma BooksFrame(w: World, c: Config, s: Step)
    requires IsBooksStep(s) && BooksEnabled(w, c, s)
    ensures var u := BooksNext(w, c, s);
      && u.sdk == w.sdk && u.t.redeems == w.t.redeems && u.t.operators == w.t.operators
      && u.redeeming == w.redeeming && u.withdrawing == w.withdrawing
      && (!s.Fund? ==> |w.t.funds| <= |u.t.funds| && u.t.funds[..|w.t.funds|] == w.t.funds)
      && (!s.Fund? && !s.Expire? && !s.Regular? ==> u.t.refunds == w.t.refunds)
      && (!s.Move? ==> u.t.fingerprints == w.t.fingerprints)
      && (!s.OpenSession? && !s.UseSession? ==> u.t.sessions == w.t.sessions)
      && (s.OpenSession? || s.UseSession? || s.CreateFund? ==> u.t.vouchers == w.t.vouchers)
  {
    hide ConfirmFund, Transfer, FundOrdersOk, OrderOk, SplitOf, FanOutRows, AnyAboveMin, EditVoucher, NewVoucher;
    assert w.t.funds[..|w.t.funds|] == w.t.funds;
    match s {
      case Fund(i, orders, now) => ConfirmFundFrame(w.t, c.fees, i, w.sdk.receipts[i], orders, now);
      case Move(src, read, amount, d, fp, now) => MoveFrame(w.t, c, src, read, amount, d, fp, now);
      case _ =>
    }
  }

  lemma CrashIsWallet(s: Step)
    ensures s.Crash? ==> !IsRedeemStep(s) && !IsRefundStep(s) && !IsOperatorStep(s) && !IsBooksStep(s)
  {
  }

  /** The tables a step leaves alone, and the redeems in progress. */
  lemma TableFrame(w: World, c: Config, s: Step)
    requires Enabled(w, c, s)
    ensures var u := Next(w, c, s).t;
      && (!s.Fund? ==> |w.t.funds| <= |u.funds| && u.funds[..|w.t.funds|] == w.t.funds)
      && (!s.Move? ==> u.fingerprints == w.t.fingerprints)
      && (!s.OpenSession? && !s.UseSession? ==> u.sessions == w.t.sessions)
      && (!IsRefundStep(s) && !s.Fund? && !s.Expire? && !s.Regular? ==> u.refunds == w.t.refunds)
      && (!IsOperatorStep(s) ==> u.operators == w.t.operators)
      && (!IsRedeemStep(s) ==> u.redeems == w.t.redeems)
      && (!IsRedeemStep(s) && !IsBooksStep(s) ==> u.vouchers == w.t.vouchers)
      && (!IsRedeemStep(s) ==> Next(w, c, s).redeeming == if s.Crash? then map[] else w.redeeming)
  {
    hide *;
    ByKind(w, c, s);
    CrashIsWallet(s);
    SameSelf(w.sdk);
    if IsRedeemStep(s) {
      RedeemFrame(w, c, s);
    } else if IsRefundStep(s) {
      RefundTables(w, c, s);
    } else if IsOperatorStep(s) {
      OperatorFrame(w, c, s);
    } else if IsWalletStep(s) {
      WalletFrame(w, c, s);
    } else {
      BooksFrame(w, c, s);
    }
  }

  /** What the SDK keeps: only a send adds an outflow, and its own. */
  lemma SdkFrame(w: World, c: Config, s: Step)
    requires Enabled(w, c, s)
    ensures var u := Next(w, c, s).sdk;
      && (!s.RedeemSends? && !s.RefundSends? && !s.WithdrawSends? ==> u.outflows == w.sdk.outflows)
      && (!IsRefundStep(s) && !IsWalletStep(s) ==> SameRefunds(w.sdk, u))
      && (!IsRefundStep(s) ==> forall k :: |w.sdk.outflows| <= k < |u.outflows| ==> !u.outflows[k].owner.Refund?)
  {
    hide *;
    ByKind(w, c, s);
    SameSelf(w.sdk);
    if IsRedeemStep(s) {
      RedeemFrame(w, c, s);
    } else if IsRefundStep(s) {
      RefundTables(w, c, s);
    } else if IsOperatorStep(s) {
      OperatorFrame(w, c, s);
    } else if IsWalletStep(s) {
      WalletFrame(w, c, s);
    } else {
      BooksFrame(w, c, s);
    }
  }

  lemma SameSelf(a: Sdk)
    ensures SameRefunds(a, a) && SameWithdraws(a, a)
  {
  }
}
