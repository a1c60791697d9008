/** Exactly when a received invoice is credited. */
module Crediting {
  import opened Options
  import opened Schema
  import opened Fees
  import opened Ledger
  import opened LedgerEffects
  import opened Database

  /** The guarded update goes through, and an immediate voucher has somewhere to refund to. */
  predicate Creditable(v: Voucher, amount: int) {
    v.balance + amount >= 0 && (v.immediate && v.balance + amount != 0 ==> v.codes != [])
  }

  predicate CanCredit(vs: seq<Voucher>, target: FundTarget, total: int, now: int) {
    match target
    case ToVoucher(id) => id < |vs| && Usable(vs[id], now) && Creditable(vs[id], total)
    case ToBatch(batch) =>
      var ids := LiveInBatch(vs, batch, now);
      ids != [] && forall id :: id in ids ==> id < |vs| && Creditable(vs[id], Share(total, |ids|))
  }

  /** The row as a credit leaves it, as far as the immediate refund looks at it. */
  predicate Credited(v: Voucher, w: Voucher, amount: int) {
    w.balance == v.balance + amount && w.codes == v.codes && w.immediate == v.immediate
  }

  lemma Shorter(ids: seq<nat>)
    requires Distinct(ids) && ids != []
    ensures var n := |ids| - 1;
      && Distinct(ids[..n]) && ids[n] !in ids[..n]
      && forall id :: id in ids <==> id in ids[..n] || id == ids[n]
  {
    var n := |ids| - 1;
    assert ids == ids[..n] + [ids[n]];
    assert forall i :: 0 <= i < n ==> ids[..n][i] == ids[i];
  }

  lemma {:induction false} CreditAllExactly(vs: seq<Voucher>, ids: seq<nat>, share: int, now: int)
    requires Distinct(ids) && forall id :: id in ids ==> id < |vs|
    ensures var w := CreditAll(vs, ids, share, now);
      && (w.Some? <==> forall id :: id in ids ==> vs[id].balance + share >= 0)
      && (w.Some? ==> |w.value| == |vs|)
      && (w.Some? ==> forall id: nat :: id < |vs| ==> Credited(vs[id], w.value[id], if id in ids then share else 0))
  {
    if ids != [] {
      var n := |ids| - 1;
      assert ids == ids[..n] + [ids[n]];
      Shorter(ids);
      CreditAllExactly(vs, ids[..n], share, now);
      var before := CreditAll(vs, ids[..n], share, now);
      if before.Some? { assert Credited(vs[ids[n]], before.value[ids[n]], 0); }
    }
  }

  lemma OneImmediate(t: Tables, c: Schedule, id: nat, order: seq<string>, now: int)
    requires id < |t.vouchers|
    ensures var v := t.vouchers[id];
      ImmediateVoucher(t, c, id, order, now).Some? <==> (v.immediate && v.balance != 0 ==> v.codes != [])
  {
  }

  lemma {:induction false} ImmediateExactly(t: Tables, c: Schedule, ids: seq<nat>, orders: map<nat, seq<string>>, now: int)
    requires Distinct(ids) && forall id :: id in ids ==> id < |t.vouchers|
    ensures ImmediateAll(t, c, ids, orders, now).Some? <==>
      forall id :: id in ids ==> t.vouchers[id].immediate && t.vouchers[id].balance != 0 ==> t.vouchers[id].codes != []
  {
    hide ImmediateVoucher;
    if ids != [] {
      var n := |ids| - 1;
      assert ids == ids[..n] + [ids[n]];
      Shorter(ids);
      ImmediateExactly(t, c, ids[..n], orders, now);
      var before := ImmediateAll(t, c, ids[..n], orders, now);
      if before.Some? {
        ImmediateFrame(t, c, ids[..n], orders, now);
        OneImmediate(before.value, c, ids[n], OrderFor(orders, ids[n]), now);
      }
    }
  }

  lemma BatchThenRefund(t: Tables, c: Schedule, batch: string, total: int, funds: seq<FundTx>,
                        orders: map<nat, seq<string>>, now: int)
    ensures var o := UpdateFundBalance(t.vouchers, ToBatch(batch), total, now);
      (o.Some? && ImmediateAll(t.(vouchers := o.value.vouchers, funds := funds), c, o.value.credited, orders, now).Some?)
      <==> CanCredit(t.vouchers, ToBatch(batch), total, now)
  {
    hide ImmediateAll, CreditAll, LiveInBatch, Distinct, Share, Dust;
    var o := UpdateFundBalance(t.vouchers, ToBatch(batch), total, now);
    var ids := LiveInBatch(t.vouchers, batch, now);
    LiveDistinct(t.vouchers, batch, now);
    if ids != [] {
      CreditAllExactly(t.vouchers, ids, Share(total, |ids|), now);
      if o.Some? {
        ImmediateExactly(t.(vouchers := o.value.vouchers, funds := funds), c, ids, orders, now);
        assert forall id :: id in ids ==> Credited(t.vouchers[id], o.value.vouchers[id], Share(total, |ids|));
      }
    }
  }

  lemma CreditThenRefund(t: Tables, c: Schedule, target: FundTarget, total: int, funds: seq<FundTx>,
                         orders: map<nat, seq<string>>, now: int)
    ensures var o := UpdateFundBalance(t.vouchers, target, total, now);
      (o.Some? && ImmediateAll(t.(vouchers := o.value.vouchers, funds := funds), c, o.value.credited, orders, now).Some?)
      <==> CanCredit(t.vouchers, target, total, now)
  {
    if target.ToBatch? {
      hide *;
      BatchThenRefund(t, c, target.batch, total, funds, orders, now);
    } else {
      hide ImmediateAll;
      var o := UpdateFundBalance(t.vouchers, target, total, now);
      if o.Some? {
        ImmediateExactly(t.(vouchers := o.value.vouchers, funds := funds), c, [target.id], orders, now);
        assert target.id in [target.id];
      }
    }
  }

  /** A pending invoice that was paid is credited if and only if its voucher, or some voucher of its
      batch, is active and unexpired, no balance would go negative, and every immediate voucher it
      credits has refund codes. If not, its row stays pending and its money uncredited. */
  lemma CreditedExactly(t: Tables, c: Schedule, i: nat, received: int, orders: map<nat, seq<string>>, now: int)
    requires i < |t.funds| && t.funds[i].status == Pending
    ensures var u := ConfirmFund(t, c, i, received, orders, now);
      var total := t.funds[i].msat - ReceiveFee(t.funds[i], received);
      && (Confirms(t, u, i) <==> CanCredit(t.vouchers, t.funds[i].target, total, now))
      && (!CanCredit(t.vouchers, t.funds[i].target, total, now) ==> u == t)
  {
    hide UpdateFundBalance, ImmediateAll, CanCredit;
    var f := t.funds[i];
    var fee := ReceiveFee(f, received);
    CreditThenRefund(t, c, f.target, f.msat - fee, t.funds[i := f.(status := Confirmed, fee := fee)], orders, now);
    ConfirmFundFrame(t, c, i, received, orders, now);
    var o := UpdateFundBalance(t.vouchers, f.target, f.msat - fee, now);
    if o.Some? {
      var mid := t.(vouchers := o.value.vouchers, funds := t.funds[i := f.(status := Confirmed, fee := fee)]);
      if ImmediateAll(mid, c, o.value.credited, orders, now).Some? { ImmediateAllFrame(mid, c, o.value.credited, orders, now); }
    }
  }

  predicate HasCodes(v: Voucher, amount: int) {
    v.immediate && v.balance + amount != 0 ==> v.codes != []
  }

  /** A live target whose immediate vouchers have refund codes. */
  predicate LiveTarget(vs: seq<Voucher>, target: FundTarget, total: int, now: int) {
    match target
    case ToVoucher(id) => id < |vs| && Usable(vs[id], now) && HasCodes(vs[id], total)
    case ToBatch(batch) =>
      var ids := LiveInBatch(vs, batch, now);
      ids != [] && forall id :: id in ids ==> id < |vs| && HasCodes(vs[id], Share(total, |ids|))
  }

  /** On balances that are not negative, an invoice that was not overpaid fails for want of a live
      voucher or of refund codes only. */
  lemma NotOverpaid(vs: seq<Voucher>, target: FundTarget, total: nat, now: int)
    requires NonNegativeBalances(vs)
    ensures CanCredit(vs, target, total, now) <==> LiveTarget(vs, target, total, now)
  {
    hide Share, Dust;
    if target.ToBatch? {
      var ids := LiveInBatch(vs, target.batch, now);
      if ids != [] { ShareExact(total, |ids|); }
    }
  }
}
