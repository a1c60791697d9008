/** What happens at most once, whatever interleaves and wherever the process crashes. */
module OnceOnly {
  import opened Options
  import opened Sums
  import opened Split
  import opened Schema
  import opened Fees
  import opened Ledger
  import opened LedgerEffects
  import opened Service
  import opened Frames
  import opened ServiceSteps
  import opened Solvency

  // ----- payments -----

  /** Each row causes at most one payment, and each payment has a key of its own. */
  ghost predicate PaidAtMostOnce(outflows: seq<Outflow>) {
    forall i, j :: 0 <= i < j < |outflows| ==> outflows[i].owner != outflows[j].owner && outflows[i].key != outflows[j].key
  }

  /** Crashes at any point of a payment, restarts, failures, abandonment, repricing and
      schedule changes included: no redeem, refund or withdraw row is ever paid twice. */
  lemma EveryRowPaidAtMostOnce(ws: seq<World>, cs: seq<Config>, ss: seq<Step>)
    requires Run(ws, cs, ss) && Inv(ws[0])
    ensures PaidAtMostOnce(ws[|ss|].sdk.outflows)
  {
    RunExact(ws, cs, ss);
    var o := ws[|ss|].sdk.outflows;
    forall i, j | 0 <= i < j < |o| ensures o[i].owner != o[j].owner {
      assert o[i].key == KeyOf(o[i].owner) && o[j].key == KeyOf(o[j].owner);
    }
  }

  /** When a payment for a refund row leaves, the row is unpaid, marked in flight, and
      already stores the key the payment is made under. */
  lemma RefundKeyStoredFirst(w: World, c: Config, s: Step, i: nat)
    requires Inv(w) && Enabled(w, c, s)
    requires |Next(w, c, s).sdk.outflows| > |w.sdk.outflows|
    requires Next(w, c, s).sdk.outflows[|w.sdk.outflows|].owner == Owner.Refund(i)
    ensures i < |w.t.refunds|
    ensures var row := w.t.refunds[i];
      !row.refunded && row.inFlight && row.key == Next(w, c, s).sdk.outflows[|w.sdk.outflows|].key == KRefund(i)
  {
    if !s.RedeemSends? && !s.RefundSends? && !s.WithdrawSends? {
      SdkFrame(w, c, s);
    } else if s.RefundSends? {
      assert Next(w, c, s).sdk == Send(w.sdk, Owner.Refund(w.worker.id), w.worker.key, s.p);
    }
  }

  /** Paid or retained rows, and rows left in flight by a version that stored no key. */
  predicate Frozen(r: RefundTx) {
    r.refunded || (r.inFlight && r.key == NoKey)
  }

  lemma RefundRowsOnly(w: World, c: Config, s: Step, i: nat)
    requires Inv(w) && IsRefundStep(s) && RefundEnabled(w, c, s) && i < |w.t.refunds| && Frozen(w.t.refunds[i])
    ensures var u := RefundNext(w, c, s);
      && i < |u.t.refunds| && u.t.refunds[i] == w.t.refunds[i]
      && forall k :: |w.sdk.outflows| <= k < |u.sdk.outflows| ==> u.sdk.outflows[k].owner != Owner.Refund(i)
  {
    hide InvFunds, InvRedeems, InvOperators, InvSdk;
  }

  lemma AppendedRows(c: Schedule, s: seq<RefundTx>, u: seq<RefundTx>, i: nat)
    requires Appends(c, s, u) && i < |s|
    ensures i < |u| && u[i] == s[i]
  {
    assert u[i] == u[..|s|][i];
  }

  lemma OtherRowsOnly(w: World, c: Config, s: Step, i: nat)
    requires Inv(w) && Enabled(w, c, s) && !IsRefundStep(s) && i < |w.t.refunds|
    ensures var u := Next(w, c, s);
      && i < |u.t.refunds| && u.t.refunds[i] == w.t.refunds[i]
      && forall k :: |w.sdk.outflows| <= k < |u.sdk.outflows| ==> u.sdk.outflows[k].owner != Owner.Refund(i)
  {
    hide Next, Enabled, Appends, Inv;
    TableFrame(w, c, s);
    SdkFrame(w, c, s);
    if s.Fund? || s.Expire? || s.Regular? {
      RowsAppended(w, c, s);
      AppendedRows(c.fees, w.t.refunds, Next(w, c, s).t.refunds, i);
    }
  }

  /** Paid is absorbing and keyless in-flight rows are never resent: no step touches such a
      row or pays for it. */
  lemma FrozenStep(w: World, c: Config, s: Step, i: nat)
    requires Inv(w) && Enabled(w, c, s) && i < |w.t.refunds| && Frozen(w.t.refunds[i])
    ensures var u := Next(w, c, s);
      && i < |u.t.refunds| && u.t.refunds[i] == w.t.refunds[i]
      && forall k :: |w.sdk.outflows| <= k < |u.sdk.outflows| ==> u.sdk.outflows[k].owner != Owner.Refund(i)
  {
    hide *;
    ByKind(w, c, s);
    if IsRefundStep(s) { RefundRowsOnly(w, c, s, i); } else { OtherRowsOnly(w, c, s, i); }
  }

  lemma {:induction false} FrozenForever(ws: seq<World>, cs: seq<Config>, ss: seq<Step>, i: nat)
    requires Run(ws, cs, ss) && Inv(ws[0]) && i < |ws[0].t.refunds| && Frozen(ws[0].t.refunds[i])
    ensures i < |ws[|ss|].t.refunds| && ws[|ss|].t.refunds[i] == ws[0].t.refunds[i]
    decreases |ss|
  {
    hide Next, Enabled, Inv, Frozen;
    if ss != [] {
      var n := |ss| - 1;
      RunPrefix(ws, cs, ss);
      FrozenForever(ws[..|ss|], cs[..n], ss[..n], i);
      RunExact(ws[..|ss|], cs[..n], ss[..n]);
      FrozenStep(ws[n], cs[n], ss[n], i);
    }
  }

  // ----- funding -----

  /** A confirmed row stays confirmed, and a confirmation finds the row pending. */
  lemma CreditedOnce(w: World, c: Config, s: Step, i: nat)
    requires Inv(w) && Enabled(w, c, s)
    ensures i < |w.t.funds| && w.t.funds[i].status == Confirmed ==>
      i < |Next(w, c, s).t.funds| && Next(w, c, s).t.funds[i].status == Confirmed && (s.Fund? && s.fund == i ==> Next(w, c, s) == w)
    ensures Confirms(w.t, Next(w, c, s).t, i) ==> s.Fund? && s.fund == i && w.t.funds[i].status == Pending
  {
    hide RedeemNext, RedeemEnabled, RefundNext, RefundEnabled, OperatorNext, OperatorEnabled, WalletNext,
         WalletEnabled, Inv;
    if s.Fund? {
      ConfirmFundFrame(w.t, c.fees, s.fund, w.sdk.receipts[s.fund], s.orders, s.now);
    } else {
      TableFrame(w, c, s);
      assert i < |w.t.funds| ==> Next(w, c, s).t.funds[i] == Next(w, c, s).t.funds[..|w.t.funds|][i];
    }
  }

  lemma {:induction false} ConfirmedStays(ws: seq<World>, cs: seq<Config>, ss: seq<Step>, i: nat, j: nat, f: nat)
    requires Run(ws, cs, ss) && Inv(ws[0]) && i <= j <= |ss|
    requires f < |ws[i].t.funds| && ws[i].t.funds[f].status == Confirmed
    ensures f < |ws[j].t.funds| && ws[j].t.funds[f].status == Confirmed
    decreases j
  {
    hide Next, Enabled, Inv;
    if i < j {
      ConfirmedStays(ws, cs, ss, i, j - 1, f);
      assert Run(ws[..j], cs[..j - 1], ss[..j - 1]);
      RunExact(ws[..j], cs[..j - 1], ss[..j - 1]);
      CreditedOnce(ws[j - 1], cs[j - 1], ss[j - 1], f);
    }
  }

  /** In any run, under any interleaving and repetition of payment events and startup
      catch-up, a fund row is confirmed at most once. */
  lemma CreditedAtMostOnce(ws: seq<World>, cs: seq<Config>, ss: seq<Step>, i: nat, j: nat, f: nat)
    requires Run(ws, cs, ss) && Inv(ws[0]) && i < j < |ss|
    ensures !(Confirms(ws[i].t, ws[i + 1].t, f) && Confirms(ws[j].t, ws[j + 1].t, f))
  {
    hide Next, Enabled, Inv;
    if Confirms(ws[i].t, ws[i + 1].t, f) { ConfirmedStays(ws, cs, ss, i + 1, j, f); }
  }

  /** What the confirmation of an invoice books, before sub-minimum splits of immediate
      vouchers are skipped, is what arrived for it; less only if it was overpaid. */
  lemma CreditedWhatArrived(w: World, c: Config, s: Step)
    requires Inv(w) && Enabled(w, c, s) && s.Fund? && Confirms(w.t, Next(w, c, s).t, s.fund)
    ensures var received, booked := w.sdk.receipts[s.fund], Booked(w.t, s.fund, w.sdk.receipts[s.fund], s.now);
      && booked <= received
      && (received <= w.t.funds[s.fund].msat ==> booked == received)
      && Explained(Next(w, c, s).t) == Explained(w.t) + booked
           - FundSkipped(w.t, c.fees, s.fund, received, s.orders, s.now)
  {
    hide RedeemNext, RedeemEnabled, RefundNext, RefundEnabled, OperatorNext, OperatorEnabled, WalletNext,
         WalletEnabled;
    ConfirmFundEffect(w.t, c.fees, s.fund, w.sdk.receipts[s.fund], s.orders, s.now);
    BookedBounds(w.t, s.fund, w.sdk.receipts[s.fund], s.now);
  }

  // ----- transfers with a fingerprint, redeem sessions -----

  /** A transfer that read the unique flag as set and committed. */
  predicate Claims(w: World, c: Config, s: Step, src: nat, fp: string) {
    s.Move? && s.src == src && s.fingerprint == fp && s.read.unique
    && Transfer(w.t, c, s.src, s.read, s.amount, s.d, s.fingerprint, s.now).Some?
  }

  predicate SessionUsed(t: Tables, k1: string) {
    k1 in t.sessions && t.sessions[k1].used
  }

  /** A redeem callback that got through `markRedeemSessionUsed`. */
  predicate Enters(w: World, s: Step, k1: string) {
    s.UseSession? && s.k1 == k1 && MarkSessionUsed(w.t, s.k1, s.voucher, s.now).Some?
  }

  lemma ClaimsStay(w: World, c: Config, s: Step, src: nat, fp: string)
    requires Enabled(w, c, s)
    ensures (src, fp) in w.t.fingerprints || Claims(w, c, s, src, fp) ==> (src, fp) in Next(w, c, s).t.fingerprints
    ensures Claims(w, c, s, src, fp) ==> (src, fp) !in w.t.fingerprints
  {
    hide RedeemNext, RedeemEnabled, RefundNext, RefundEnabled, OperatorNext, OperatorEnabled, WalletNext,
         WalletEnabled, ConfirmFund, ExpireVoucher, RegularVoucher, FundOrdersOk, OrderOk;
    TableFrame(w, c, s);
    if s.Move? && Transfer(w.t, c, s.src, s.read, s.amount, s.d, s.fingerprint, s.now).Some? {
      TransferEffect(w.t, c, s.src, s.read, s.amount, s.d, s.fingerprint, s.now);
    }
  }

  lemma SessionStaysUsed(w: World, c: Config, s: Step, k1: string)
    requires Enabled(w, c, s)
    ensures SessionUsed(w.t, k1) || Enters(w, s, k1) ==> SessionUsed(Next(w, c, s).t, k1)
    ensures Enters(w, s, k1) ==> !SessionUsed(w.t, k1)
  {
    hide RedeemNext, RedeemEnabled, RefundNext, RefundEnabled, OperatorNext, OperatorEnabled, WalletNext,
         WalletEnabled, ConfirmFund, Transfer, ExpireVoucher, RegularVoucher, FundOrdersOk, OrderOk;
    TableFrame(w, c, s);
  }

  lemma {:induction false} ClaimsStayOn(ws: seq<World>, cs: seq<Config>, ss: seq<Step>, i: nat, src: nat, fp: string, k1: string)
    requires Run(ws, cs, ss) && i < |ss|
    ensures Claims(ws[i], cs[i], ss[i], src, fp) ==> (src, fp) in ws[|ss|].t.fingerprints
    ensures Enters(ws[i], ss[i], k1) ==> SessionUsed(ws[|ss|].t, k1)
    decreases |ss|
  {
    hide Next, Enabled, Claims, Enters, SessionUsed;
    var n := |ss| - 1;
    ClaimsStay(ws[n], cs[n], ss[n], src, fp);
    SessionStaysUsed(ws[n], cs[n], ss[n], k1);
    if i < n {
      RunPrefix(ws, cs, ss);
      ClaimsStayOn(ws[..|ss|], cs[..n], ss[..n], i, src, fp, k1);
    }
  }

  /** In any run a (voucher, fingerprint) pair is claimed by at most one committed transfer
      and a k1 admits at most one redeem. */
  lemma ClaimedAtMostOnce(ws: seq<World>, cs: seq<Config>, ss: seq<Step>, i: nat, j: nat, src: nat, fp: string, k1: string)
    requires Run(ws, cs, ss) && i < j < |ss|
    ensures !(Claims(ws[i], cs[i], ss[i], src, fp) && Claims(ws[j], cs[j], ss[j], src, fp))
    ensures !(Enters(ws[i], ss[i], k1) && Enters(ws[j], ss[j], k1))
  {
    hide Next, Enabled, Claims, Enters, SessionUsed;
    assert Run(ws[..j + 1], cs[..j], ss[..j]);
    ClaimsStayOn(ws[..j + 1], cs[..j], ss[..j], i, src, fp, k1);
    ClaimsStay(ws[j], cs[j], ss[j], src, fp);
    SessionStaysUsed(ws[j], cs[j], ss[j], k1);
  }

  /** A k1 opened for a voucher admits a redeem of that voucher within half an hour, and of no other and
      not later; unless it was known before, when opening it again changes nothing. */
  lemma SessionAdmits(t: Tables, k1: string, voucher: nat, since: int, other: nat, now: int)
    requires k1 !in t.sessions
    ensures var u := t.(sessions := t.sessions[k1 := Session(voucher, false, since)]);
      && MarkSessionUsed(t, k1, other, now).None?
      && (MarkSessionUsed(u, k1, other, now).Some? <==> other == voucher && now <= since + 1800)
      && (MarkSessionUsed(u, k1, other, now).Some? ==>
            forall v, later :: MarkSessionUsed(MarkSessionUsed(u, k1, other, now).value, k1, v, later).None?)
  {
  }
}
