/** What every transaction does to the sum of the books, and that no balance goes negative. */
module LedgerEffects {
  import opened Options
  import opened Sums
  import opened Split
  import opened Fees
  import opened Schema
  import opened Ledger
  import GoInt

  // ----- voucher balances -----

  lemma UpdateBalanceEffect(vs: seq<Voucher>, id: nat, msats: int, now: int)
    requires UpdateVoucherBalance(vs, id, msats, now).Some?
    ensures var w := UpdateVoucherBalance(vs, id, msats, now).value;
      && |w| == |vs|
      && Sum(VoucherValues(w)) == Sum(VoucherValues(vs)) + msats
      && (NonNegativeBalances(vs) ==> NonNegativeBalances(w))
  {
    VoucherPut(vs, id, UpdateVoucherBalance(vs, id, msats, now).value[id]);
  }

  lemma AddBalanceEffect(vs: seq<Voucher>, id: nat, msats: int, now: int)
    requires id < |vs|
    ensures var w := AddVoucherBalance(vs, id, msats, now);
      && |w| == |vs|
      && Sum(VoucherValues(w)) == Sum(VoucherValues(vs)) + msats
      && (NonNegativeBalances(vs) && msats >= 0 ==> NonNegativeBalances(w))
  {
    VoucherPut(vs, id, AddVoucherBalance(vs, id, msats, now)[id]);
  }

  lemma {:induction false} CreditAllEffect(vs: seq<Voucher>, ids: seq<nat>, share: int, now: int)
    requires CreditAll(vs, ids, share, now).Some?
    ensures var w := CreditAll(vs, ids, share, now).value;
      && |w| == |vs|
      && Sum(VoucherValues(w)) == Sum(VoucherValues(vs)) + share * |ids|
      && (NonNegativeBalances(vs) ==> NonNegativeBalances(w))
  {
    if ids != [] {
      var n := |ids| - 1;
      CreditAllEffect(vs, ids[..n], share, now);
      UpdateBalanceEffect(CreditAll(vs, ids[..n], share, now).value, ids[n], share, now);
      assert share * |ids| == share * n + share;
    }
  }

  /** A batch share is a whole number of sats, all shares and the dust make the
      total, and the dust of a non-negative total is below one sat per voucher. */
  lemma ShareExact(total: int, n: int)
    requires n > 0
    ensures Share(total, n) * n + Dust(total, n) == total
    ensures Share(total, n) % 1000 == 0
    ensures total >= 0 ==> Share(total, n) >= 0 && 0 <= Dust(total, n) < 1000 * n
    ensures total <= 0 ==> Share(total, n) <= 0 && -1000 * n < Dust(total, n) <= 0
  {
    hide GoInt.Div;
    var q := GoInt.Div(total, n);
    var share := Share(total, n);
    GoInt.DivBounds(total, n);
    GoInt.DivBounds(q, 1000);
    GoInt.Distribute(q, share, n);
    if total >= 0 {
      GoInt.QuotientAtMost(0, q, n);
      GoInt.MulMonotone(0, q - share, n);
      GoInt.MulMonotone(q - share, 999, n);
    }
    if total <= 0 {
      GoInt.QuotientAtMost(q, 0, n);
      GoInt.MulMonotone(q - share, 0, n);
      GoInt.MulMonotone(-999, q - share, n);
    }
  }

  // ----- refund fan-out -----

  /** An unpaid row holds exactly what the schedule makes of its gross. */
  predicate WellPriced(c: Schedule, r: RefundTx) {
    !r.refunded ==> PriceRefund(c, r.amount + r.dbTxFee + r.dust) == Row(r.amount, r.dbTxFee, r.dust)
  }

  predicate FreshRow(r: RefundTx) {
    !r.inFlight && r.key == NoKey && r.retry == 0
  }

  /** A payable row for one split: a whole number of sats of at least one sat, the
      reserved fee and less than a sat of dust, which together are the split. */
  predicate Pays(c: Schedule, id: nat, m: map<string, int>, r: RefundTx) {
    && WellPriced(c, r) && FreshRow(r) && !r.refunded && r.voucher == id
    && r.amount % 1000 == 0 && r.amount >= 1000 && 0 <= r.dust < 1000
    && r.code in m && m[r.code] == r.amount + r.dbTxFee + r.dust
  }

  lemma FanOutRowExact(c: Schedule, id: nat, m: map<string, int>, code: string)
    requires code in m
    ensures var tail := FanOutRow(c, id, m, code);
      && Sum(RefundValues(tail)) + (if PriceRefund(c, m[code]).BelowMin? then m[code] else 0) == m[code]
      && forall r :: r in tail ==> Pays(c, id, m, r)
  {
    var tail := FanOutRow(c, id, m, code);
    if PriceRefund(c, m[code]).Row? {
      PriceConserves(c, m[code]);
      assert RefundValues(tail) == [] + [m[code]];
      SumAppend([], m[code]);
    } else {
      assert RefundValues(tail) == [];
    }
  }

  /** Rows and skipped splits together are the splits, and every row pays its split. */
  lemma {:induction false} FanOutExact(c: Schedule, id: nat, m: map<string, int>, order: seq<string>)
    requires forall i :: 0 <= i < |order| ==> order[i] in m
    ensures Sum(RefundValues(FanOutRows(c, id, m, order))) + Skipped(c, m, order) == Sum(Picked(order, m))
    ensures forall r :: r in FanOutRows(c, id, m, order) ==> Pays(c, id, m, r)
  {
    if order != [] {
      var n := |order| - 1;
      FanOutExact(c, id, m, order[..n]);
      FanOutRowExact(c, id, m, order[n]);
      assert Picked(order, m)[..n] == Picked(order[..n], m);
      RefundAddAll(FanOutRows(c, id, m, order[..n]), FanOutRow(c, id, m, order[n]));
    }
  }

  lemma {:induction false} SkippedBounds(c: Schedule, m: map<string, int>, order: seq<string>)
    requires forall k :: k in m ==> m[k] >= 0
    ensures Skipped(c, m, order) >= 0
  {
    if order != [] { SkippedBounds(c, m, order[..|order| - 1]); }
  }

  predicate AllBelow(c: Schedule, m: map<string, int>, order: seq<string>) {
    forall i :: 0 <= i < |order| ==> order[i] in m && PriceRefund(c, m[order[i]]).BelowMin?
  }

  lemma AllBelowAdd(c: Schedule, m: map<string, int>, front: seq<string>, code: string)
    requires code in m
    ensures AllBelow(c, m, front + [code]) <==> AllBelow(c, m, front) && PriceRefund(c, m[code]).BelowMin?
  {
    hide PriceRefund;
    var order := front + [code];
    assert order[|front|] == code && forall i :: 0 <= i < |front| ==> order[i] == front[i];
    if AllBelow(c, m, order) {
      forall i | 0 <= i < |front| ensures front[i] in m && PriceRefund(c, m[front[i]]).BelowMin? { assert order[i] == front[i]; }
    }
  }

  lemma FanOutRowEmpty(c: Schedule, id: nat, m: map<string, int>, code: string)
    requires code in m
    ensures FanOutRow(c, id, m, code) == [] <==> PriceRefund(c, m[code]).BelowMin?
  {
    hide PriceRefund;
  }

  lemma {:induction false} FanOutEmpty(c: Schedule, id: nat, m: map<string, int>, order: seq<string>)
    requires forall i :: 0 <= i < |order| ==> order[i] in m
    ensures FanOutRows(c, id, m, order) == [] <==> AllBelow(c, m, order)
  {
    hide PriceRefund, FanOutRow;
    if order != [] {
      var n := |order| - 1;
      FanOutEmpty(c, id, m, order[..n]);
      FanOutRowEmpty(c, id, m, order[n]);
      AllBelowAdd(c, m, order[..n], order[n]);
      assert order == order[..n] + [order[n]];
    }
  }

  /** Whatever order the map is walked in, a voucher's balance is what its rows hold
      plus what was skipped. */
  lemma FanOutConserves(c: Schedule, id: nat, balance: nat, codes: seq<RefundCode>, order: seq<string>)
    requires codes != [] && Enumerates(order, SplitOf(balance, codes))
    ensures var m := SplitOf(balance, codes);
      && Sum(RefundValues(FanOutRows(c, id, m, order))) + Skipped(c, m, order) == balance
      && 0 <= Skipped(c, m, order)
      && (FanOutRows(c, id, m, order) != [] <==> AnyAboveMin(c, m))
      && forall r :: r in FanOutRows(c, id, m, order) ==> Pays(c, id, m, r)
  {
    var m := SplitOf(balance, codes);
    SplitExact(balance, codes);
    SumPicked(order, m);
    FanOutExact(c, id, m, order);
    SkippedBounds(c, m, order);
    FanOutEmpty(c, id, m, order);
    if AnyAboveMin(c, m) {
      var k :| k in m && PriceRefund(c, m[k]).Row?;
      assert k in order;
      var i :| 0 <= i < |order| && order[i] == k;
    }
  }

  /** What an expiry, a regular refund or an immediate refund takes off the books. */
  function ExpireSkipped(t: Tables, c: Schedule, id: nat, codes: seq<RefundCode>, order: seq<string>): int {
    if id >= |t.vouchers| || t.vouchers[id].balance <= 0 then 0 else
      var m := SplitOf(t.vouchers[id].balance, codes);
      if FanOutRows(c, id, m, order) == [] then 0 else Skipped(c, m, order)
  }

  function RegularSkipped(t: Tables, c: Schedule, id: nat, codes: seq<RefundCode>, order: seq<string>): int {
    if id >= |t.vouchers| then 0 else
      var m := SplitOf(t.vouchers[id].balance, codes);
      if t.vouchers[id].balance == 0 || !AnyAboveMin(c, m) then 0 else Skipped(c, m, order)
  }

  predicate OrderOk(t: Tables, id: nat, codes: seq<RefundCode>, order: seq<string>) {
    id < |t.vouchers| ==> Enumerates(order, SplitOf(t.vouchers[id].balance, codes))
  }

  predicate SameButVouchersRefunds(t: Tables, u: Tables) {
    u == t.(vouchers := u.vouchers, refunds := u.refunds)
  }

  /** Appended rows are fresh, priced by the schedule, and the rest is as it was. */
  predicate Appends(c: Schedule, s: seq<RefundTx>, u: seq<RefundTx>) {
    && |s| <= |u|
    && u[..|s|] == s
    && forall i :: |s| <= i < |u| ==> WellPriced(c, u[i]) && FreshRow(u[i])
  }

  lemma AppendsRows(c: Schedule, s: seq<RefundTx>, rows: seq<RefundTx>)
    requires forall r :: r in rows ==> WellPriced(c, r) && FreshRow(r)
    ensures Appends(c, s, s + rows)
  {
    forall i | |s| <= i < |s + rows| ensures WellPriced(c, (s + rows)[i]) && FreshRow((s + rows)[i]) {
      assert (s + rows)[i] == rows[i - |s|];
    }
  }

  /** Swapping a balance for rows worth `rows` changes the books by the difference. */
  lemma SwapEffect(t: Tables, id: nat, v: Voucher, rows: seq<RefundTx>)
    requires id < |t.vouchers| && v.balance == 0
    ensures Explained(t.(refunds := t.refunds + rows, vouchers := t.vouchers[id := v]))
            == Explained(t) - t.vouchers[id].balance + Sum(RefundValues(rows))
  {
    VoucherPut(t.vouchers, id, v);
    RefundAddAll(t.refunds, rows);
  }

  lemma RetainedEffect(c: Schedule, s: seq<RefundTx>, id: nat, codes: seq<RefundCode>, balance: int)
    ensures Sum(RefundValues([RetainedDust(id, codes, balance)])) == balance
    ensures Appends(c, s, s + [RetainedDust(id, codes, balance)])
  {
    assert RefundValues([RetainedDust(id, codes, balance)]) == [] + [balance];
    SumAppend([], balance);
    AppendsRows(c, s, [RetainedDust(id, codes, balance)]);
  }

  lemma ExpireEffect(t: Tables, c: Schedule, id: nat, codes: seq<RefundCode>, order: seq<string>, now: int)
    requires NonNegativeBalances(t.vouchers) && OrderOk(t, id, codes, order)
    ensures var u := ExpireVoucher(t, c, id, codes, order, now);
      && Explained(u) == Explained(t) - ExpireSkipped(t, c, id, codes, order)
      && ExpireSkipped(t, c, id, codes, order) >= 0
      && NonNegativeBalances(u.vouchers) && |u.vouchers| == |t.vouchers|
      && SameButVouchersRefunds(t, u) && Appends(c, t.refunds, u.refunds)
  {
    if id < |t.vouchers| && t.vouchers[id].balance > 0 {
      var v := t.vouchers[id];
      var rows := FanOutRows(c, id, SplitOf(v.balance, codes), order);
      var w := v.(balance := 0, active := false, updatedAt := now);
      if rows == [] {
        RetainedEffect(c, t.refunds, id, codes, v.balance);
        SwapEffect(t, id, w, [RetainedDust(id, codes, v.balance)]);
      } else {
        DrainSum(c, id, v.balance, codes, order, t.refunds);
        SwapEffect(t, id, w, rows);
      }
    }
  }

  lemma NoCodesNoRows(c: Schedule, id: nat, balance: nat, codes: seq<RefundCode>, order: seq<string>)
    requires Enumerates(order, SplitOf(balance, codes))
    ensures codes == [] ==> FanOutRows(c, id, SplitOf(balance, codes), order) == []
  {
    FanOutEmpty(c, id, SplitOf(balance, codes), order);
  }

  lemma DrainSum(c: Schedule, id: nat, balance: nat, codes: seq<RefundCode>, order: seq<string>, s: seq<RefundTx>)
    requires Enumerates(order, SplitOf(balance, codes))
    requires codes != [] || FanOutRows(c, id, SplitOf(balance, codes), order) != []
    ensures var m := SplitOf(balance, codes);
      && Sum(RefundValues(FanOutRows(c, id, m, order))) == balance - Skipped(c, m, order)
      && Skipped(c, m, order) >= 0
      && Appends(c, s, s + FanOutRows(c, id, m, order))
  {
    SplitExact(balance, codes);
    NoCodesNoRows(c, id, balance, codes, order);
    FanOutConserves(c, id, balance, codes, order);
    FanOutExact(c, id, SplitOf(balance, codes), order);
    AppendsRows(c, s, FanOutRows(c, id, SplitOf(balance, codes), order));
  }

  lemma DrainEffect(t: Tables, c: Schedule, id: nat, codes: seq<RefundCode>, order: seq<string>, last: int)
    requires NonNegativeBalances(t.vouchers) && id < |t.vouchers| && codes != []
    requires Enumerates(order, SplitOf(t.vouchers[id].balance, codes))
    ensures var m := SplitOf(t.vouchers[id].balance, codes);
      var u := t.(refunds := t.refunds + FanOutRows(c, id, m, order),
                  vouchers := t.vouchers[id := t.vouchers[id].(balance := 0, lastAt := last)]);
      && Explained(u) == Explained(t) - Skipped(c, m, order)
      && Skipped(c, m, order) >= 0
      && NonNegativeBalances(u.vouchers) && Appends(c, t.refunds, u.refunds)
  {
    var v := t.vouchers[id];
    DrainSum(c, id, v.balance, codes, order, t.refunds);
    SwapEffect(t, id, v.(balance := 0, lastAt := last), FanOutRows(c, id, SplitOf(v.balance, codes), order));
  }

  lemma RegularEffect(t: Tables, c: Schedule, id: nat, codes: seq<RefundCode>, order: seq<string>, last: int)
    requires NonNegativeBalances(t.vouchers) && OrderOk(t, id, codes, order)
    ensures var u := RegularVoucher(t, c, id, codes, order, last);
      && Explained(u) == Explained(t) - RegularSkipped(t, c, id, codes, order)
      && RegularSkipped(t, c, id, codes, order) >= 0
      && NonNegativeBalances(u.vouchers) && |u.vouchers| == |t.vouchers|
      && SameButVouchersRefunds(t, u) && Appends(c, t.refunds, u.refunds)
  {
    if id < |t.vouchers| {
      var v := t.vouchers[id];
      if v.balance == 0 || !AnyAboveMin(c, SplitOf(v.balance, codes)) {
        VoucherPut(t.vouchers, id, v.(lastAt := last));
      } else {
        assert codes != [] by { SplitExact(v.balance, codes); }
        DrainEffect(t, c, id, codes, order, last);
      }
    }
  }

  // ----- immediate refunds -----

  function ImmediateSkipped(t: Tables, c: Schedule, id: nat, order: seq<string>): int {
    if id >= |t.vouchers| || !t.vouchers[id].immediate then 0
    else RegularSkipped(t, c, id, t.vouchers[id].codes, order)
  }

  predicate ImmediateOrderOk(t: Tables, id: nat, order: seq<string>) {
    id < |t.vouchers| && t.vouchers[id].immediate ==> OrderOk(t, id, t.vouchers[id].codes, order)
  }

  lemma ImmediateEffect(t: Tables, c: Schedule, id: nat, order: seq<string>, now: int)
    requires NonNegativeBalances(t.vouchers) && ImmediateOrderOk(t, id, order)
    requires ImmediateVoucher(t, c, id, order, now).Some?
    ensures var u := ImmediateVoucher(t, c, id, order, now).value;
      && Explained(u) == Explained(t) - ImmediateSkipped(t, c, id, order)
      && ImmediateSkipped(t, c, id, order) >= 0
      && NonNegativeBalances(u.vouchers) && |u.vouchers| == |t.vouchers|
      && SameButVouchersRefunds(t, u) && Appends(c, t.refunds, u.refunds)
  {
    var v := t.vouchers[id];
    if v.immediate && v.balance != 0 && AnyAboveMin(c, SplitOf(v.balance, v.codes)) {
      DrainEffect(t, c, id, v.codes, order, now);
    }
  }

  function ImmediateAllSkipped(t: Tables, c: Schedule, ids: seq<nat>, orders: map<nat, seq<string>>, now: int): int {
    if ids == [] then 0 else
      var n := |ids| - 1;
      ImmediateAllSkipped(t, c, ids[..n], orders, now)
      + match ImmediateAll(t, c, ids[..n], orders, now)
        case None => 0
        case Some(u) => ImmediateSkipped(u, c, ids[n], OrderFor(orders, ids[n]))
  }

  predicate ImmediateOrdersOk(t: Tables, c: Schedule, ids: seq<nat>, orders: map<nat, seq<string>>, now: int) {
    ids == [] ||
    var n := |ids| - 1;
    && ImmediateOrdersOk(t, c, ids[..n], orders, now)
    && (ImmediateAll(t, c, ids[..n], orders, now).Some? ==>
          ImmediateOrderOk(ImmediateAll(t, c, ids[..n], orders, now).value, ids[n], OrderFor(orders, ids[n])))
  }

  lemma AppendsTransitive(c: Schedule, a: seq<RefundTx>, b: seq<RefundTx>, d: seq<RefundTx>)
    requires Appends(c, a, b) && Appends(c, b, d)
    ensures Appends(c, a, d)
  {
    assert d[..|a|] == d[..|b|][..|a|];
    forall i | |a| <= i < |d| ensures WellPriced(c, d[i]) && FreshRow(d[i]) {
      if i < |b| { assert d[i] == d[..|b|][i] == b[i]; }
    }
  }

  lemma {:induction false} ImmediateAllEffect(t: Tables, c: Schedule, ids: seq<nat>, orders: map<nat, seq<string>>, now: int)
    requires NonNegativeBalances(t.vouchers) && ImmediateOrdersOk(t, c, ids, orders, now)
    requires ImmediateAll(t, c, ids, orders, now).Some?
    ensures var u := ImmediateAll(t, c, ids, orders, now).value;
      && Explained(u) == Explained(t) - ImmediateAllSkipped(t, c, ids, orders, now)
      && ImmediateAllSkipped(t, c, ids, orders, now) >= 0
      && NonNegativeBalances(u.vouchers) && |u.vouchers| == |t.vouchers|
      && SameButVouchersRefunds(t, u) && Appends(c, t.refunds, u.refunds)
  {
    if ids != [] {
      var n := |ids| - 1;
      ImmediateAllEffect(t, c, ids[..n], orders, now);
      var u := ImmediateAll(t, c, ids[..n], orders, now).value;
      ImmediateEffect(u, c, ids[n], OrderFor(orders, ids[n]), now);
      AppendsTransitive(c, t.refunds, u.refunds, ImmediateAll(t, c, ids, orders, now).value.refunds);
    }
  }

  // ----- funding -----

  predicate Confirms(t: Tables, u: Tables, i: nat) {
    i < |t.funds| && t.funds[i].status == Pending && i < |u.funds| && u.funds[i].status == Confirmed
  }

  /** What a confirmation adds to balances and fund dust, before immediate refunds skip anything. */
  function Booked(t: Tables, i: nat, received: int, now: int): int
    requires i < |t.funds|
  {
    var f := t.funds[i];
    var total := f.msat - ReceiveFee(f, received);
    match f.target
    case ToVoucher(_) => total
    case ToBatch(batch) =>
      var n := |LiveInBatch(t.vouchers, batch, now)|;
      if n == 0 || total >= 0 then total else Share(total, n) * n
  }

  function FundSkipped(t: Tables, c: Schedule, i: nat, received: int, orders: map<nat, seq<string>>, now: int): int {
    if i >= |t.funds| || t.funds[i].status != Pending then 0 else
      var f := t.funds[i];
      var fee := ReceiveFee(f, received);
      match UpdateFundBalance(t.vouchers, f.target, f.msat - fee, now)
      case None => 0
      case Some(cr) =>
        ImmediateAllSkipped(t.(vouchers := cr.vouchers, funds := t.funds[i := f.(status := Confirmed, fee := fee)]),
                            c, cr.credited, orders, now)
  }

  predicate FundOrdersOk(t: Tables, c: Schedule, i: nat, received: int, orders: map<nat, seq<string>>, now: int) {
    i < |t.funds| && t.funds[i].status == Pending ==>
      var f := t.funds[i];
      var fee := ReceiveFee(f, received);
      match UpdateFundBalance(t.vouchers, f.target, f.msat - fee, now)
      case None => true
      case Some(cr) =>
        ImmediateOrdersOk(t.(vouchers := cr.vouchers, funds := t.funds[i := f.(status := Confirmed, fee := fee)]),
                          c, cr.credited, orders, now)
  }

  lemma FundBalanceEffect(t: Tables, i: nat, received: int, now: int)
    requires i < |t.funds|
    requires NonNegativeBalances(t.vouchers)
    requires UpdateFundBalance(t.vouchers, t.funds[i].target, t.funds[i].msat - ReceiveFee(t.funds[i], received), now).Some?
    ensures var cr := UpdateFundBalance(t.vouchers, t.funds[i].target, t.funds[i].msat - ReceiveFee(t.funds[i], received), now).value;
      && Sum(VoucherValues(cr.vouchers)) + (if cr.dust > 0 then cr.dust else 0)
         == Sum(VoucherValues(t.vouchers)) + Booked(t, i, received, now)
      && NonNegativeBalances(cr.vouchers) && |cr.vouchers| == |t.vouchers|
  {
    var f := t.funds[i];
    var total := f.msat - ReceiveFee(f, received);
    match f.target
    case ToVoucher(id) => UpdateBalanceEffect(t.vouchers, id, total, now);
    case ToBatch(batch) =>
      var ids := LiveInBatch(t.vouchers, batch, now);
      ShareExact(total, |ids|);
      CreditAllEffect(t.vouchers, ids, Share(total, |ids|), now);
  }

  /** Never more is booked than arrived, and all of it when no more than the invoice arrived. */
  lemma BookedBounds(t: Tables, i: nat, received: nat, now: int)
    requires i < |t.funds| && t.funds[i].fee >= 0
    ensures Booked(t, i, received, now) <= received
    ensures received <= t.funds[i].msat ==> Booked(t, i, received, now) == received
  {
    var f := t.funds[i];
    var total := f.msat - ReceiveFee(f, received);
    if f.target.ToBatch? {
      var n := |LiveInBatch(t.vouchers, f.target.batch, now)|;
      if n > 0 && total < 0 {
        ShareExact(total, n);
        GoInt.MulMonotone(Share(total, n), 0, n);
      }
    }
  }

  lemma {:induction false} ImmediateAllFrame(t: Tables, c: Schedule, ids: seq<nat>, orders: map<nat, seq<string>>, now: int)
    requires ImmediateAll(t, c, ids, orders, now).Some?
    ensures SameButVouchersRefunds(t, ImmediateAll(t, c, ids, orders, now).value)
  {
    if ids != [] { ImmediateAllFrame(t, c, ids[..|ids| - 1], orders, now); }
  }

  lemma ConfirmFundFrame(t: Tables, c: Schedule, i: nat, received: int, orders: map<nat, seq<string>>, now: int)
    ensures var u := ConfirmFund(t, c, i, received, orders, now);
      && u == t.(vouchers := u.vouchers, refunds := u.refunds, funds := u.funds)
      && |u.funds| == |t.funds|
      && forall j :: 0 <= j < |t.funds| ==>
           u.funds[j] == t.funds[j] || (j == i && t.funds[j].status == Pending && u.funds[j].status == Confirmed)
  {
    hide UpdateFundBalance, ImmediateAll;
    if i < |t.funds| && t.funds[i].status == Pending {
      var f := t.funds[i];
      var fee := ReceiveFee(f, received);
      var o := UpdateFundBalance(t.vouchers, f.target, f.msat - fee, now);
      if o.Some? {
        var u := t.(vouchers := o.value.vouchers, funds := t.funds[i := f.(status := Confirmed, fee := fee)]);
        if ImmediateAll(u, c, o.value.credited, orders, now).Some? { ImmediateAllFrame(u, c, o.value.credited, orders, now); }
      }
    }
  }

  lemma ConfirmFundEffect(t: Tables, c: Schedule, i: nat, received: int, orders: map<nat, seq<string>>, now: int)
    requires NonNegativeBalances(t.vouchers) && FundOrdersOk(t, c, i, received, orders, now)
    requires i < |t.funds| ==> t.funds[i].status == Pending ==> t.funds[i].dust == 0
    ensures var u := ConfirmFund(t, c, i, received, orders, now);
      && (u == t || Confirms(t, u, i))
      && (Confirms(t, u, i) ==>
            Explained(u) == Explained(t) + Booked(t, i, received, now) - FundSkipped(t, c, i, received, orders, now)
            && FundSkipped(t, c, i, received, orders, now) >= 0)
      && NonNegativeBalances(u.vouchers) && |u.vouchers| == |t.vouchers|
      && u == t.(vouchers := u.vouchers, refunds := u.refunds, funds := u.funds) && Appends(c, t.refunds, u.refunds)
      && (Confirms(t, u, i) ==> u.funds[i].fee == ReceiveFee(t.funds[i], received))
      && |u.funds| == |t.funds| && forall j :: 0 <= j < |t.funds| && j != i ==> u.funds[j] == t.funds[j]
  {
    hide UpdateFundBalance, ImmediateAll, ImmediateAllSkipped, ImmediateOrdersOk, VoucherValues, FundValues,
         RefundValues, Sum;
    var u := ConfirmFund(t, c, i, received, orders, now);
    if u != t {
      var f := t.funds[i];
      var fee := ReceiveFee(f, received);
      FundBalanceEffect(t, i, received, now);
      var cr := UpdateFundBalance(t.vouchers, f.target, f.msat - fee, now).value;
      var confirmed := f.(status := Confirmed, fee := fee);
      var mid := t.(vouchers := cr.vouchers, funds := t.funds[i := confirmed]);
      FundPut(t.funds, i, confirmed);
      ImmediateAllEffect(mid, c, cr.credited, orders, now);
      var w := ImmediateAll(mid, c, cr.credited, orders, now).value;
      if cr.dust > 0 { FundPut(w.funds, i, w.funds[i].(dust := cr.dust)); }
    }
  }

  // ----- transfers and redeems -----

  /** A committed transfer moves money only: even when the fee exceeds the amount, what
      leaves the source is what arrives plus fee plus dust. */
  lemma TransferEffect(t: Tables, cfg: Config, src: nat, read: Voucher, amount: int, d: Destination, fp: string, now: int)
    requires Transfer(t, cfg, src, read, amount, d, fp, now).Some?
    ensures var u := Transfer(t, cfg, src, read, amount, d, fp, now).value;
      && Explained(u) == Explained(t)
      && (NonNegativeBalances(t.vouchers) ==> NonNegativeBalances(u.vouchers)) && |u.vouchers| == |t.vouchers|
      && u == t.(vouchers := u.vouchers, transfers := u.transfers, fingerprints := u.fingerprints)
      && t.fingerprints <= u.fingerprints
      && (read.unique ==> (src, fp) !in t.fingerprints && (src, fp) in u.fingerprints)
  {
    hide UpdateVoucherBalance, CreditAll, CalculateInternalFee, Share, Dust, VoucherValues, TransferValues, Sum;
    var fee := CalculateInternalFee(cfg.fees, amount);
    var net := amount - fee;
    UpdateBalanceEffect(t.vouchers, src, -amount, now);
    var vs := UpdateVoucherBalance(t.vouchers, src, -amount, now).value;
    match d {
      case Single(id) =>
        UpdateBalanceEffect(vs, id, net, now);
        TransferAdd(t.transfers, TransferTx(amount, fee, net, 0));
      case Batch(ids) =>
        ShareExact(net, |ids|);
        CreditAllEffect(vs, ids, Share(net, |ids|), now);
        TransferAdd(t.transfers, TransferTx(amount, fee, net, Dust(net, |ids|)));
    }
  }

  lemma BeginRedeemEffect(t: Tables, c: Schedule, id: nat, amount: int, now: int)
    requires BeginRedeem(t, c, id, amount, now).Some?
    ensures var u := BeginRedeem(t, c, id, amount, now).value;
      && Explained(u) == Explained(t)
      && (NonNegativeBalances(t.vouchers) ==> NonNegativeBalances(u.vouchers)) && |u.vouchers| == |t.vouchers|
      && |u.redeems| == |t.redeems| + 1 && u.redeems[..|t.redeems|] == t.redeems
      && u.redeems[|t.redeems|].voucher == id && u.redeems[|t.redeems|].msat == amount
      && u.redeems[|t.redeems|].lnFee >= 0
  {
    var fee := CalculateRedeemFee(c, t.vouchers[id].balance);
    UpdateBalanceEffect(t.vouchers, id, -amount - fee, now);
    RedeemAdd(t.redeems, RedeemTx(id, amount, fee, 0, 0, Pending, false));
  }

  /** On an active voucher the transaction commits exactly the amounts up to what the offer
      advertises when no per-redeem limit is set. */
  lemma RedeemAccepted(t: Tables, c: Schedule, id: nat, amount: int, now: int, maxRedeem: int)
    requires id < |t.vouchers| && t.vouchers[id].active
    ensures BeginRedeem(t, c, id, amount, now).Some? <==> amount <= OfferMax(c, t.vouchers[id].balance, 0)
    ensures RedeemPasses(c, t.vouchers[id].balance, maxRedeem, amount)
            <==> BeginRedeem(t, c, id, amount, now).Some? && !(maxRedeem > 0 && amount > maxRedeem)
  {
    hide CalculateRedeemFee;
  }

  lemma FailRedeemEffect(t: Tables, i: nat, now: int)
    requires i < |t.redeems| && t.redeems[i].status == Pending && t.redeems[i].voucher < |t.vouchers|
    ensures var u := FailRedeem(t, i, now);
      && Explained(u) == Explained(t) && |u.vouchers| == |t.vouchers|
      && (NonNegativeBalances(t.vouchers) && t.redeems[i].msat + t.redeems[i].lnFee >= 0 ==> NonNegativeBalances(u.vouchers))
  {
    var r := t.redeems[i];
    AddBalanceEffect(t.vouchers, r.voucher, r.msat + r.lnFee, now);
    RedeemPut(t.redeems, i, FailRedeem(t, i, now).redeems[i]);
  }

  /** Failing a redeem undoes it: its voucher is as it was before, active again and with the
      old balance, apart from the change time, and no other voucher is touched. */
  lemma RedeemUndone(t: Tables, c: Schedule, id: nat, amount: int, now: int, later: int)
    requires BeginRedeem(t, c, id, amount, now).Some?
    ensures var u := BeginRedeem(t, c, id, amount, now).value;
      FailRedeem(u, |t.redeems|, later).vouchers == t.vouchers[id := t.vouchers[id].(updatedAt := later)]
  {
    hide CalculateRedeemFee;
  }

  /** A repriced row keeps its gross on the books in both branches; a row priced by the
      same schedule comes out as it went in, apart from its retry count. */
  lemma RepriceEffect(c: Schedule, r: RefundTx)
    requires !r.refunded
    ensures RefundValue(Repriced(c, r)) == RefundValue(r)
    ensures WellPriced(c, r) <==> Repriced(c, r) == r.(retry := 0)
    ensures WellPriced(c, Repriced(c, r))
  {
    var gross := r.amount + r.dbTxFee + r.dust;
    if PriceRefund(c, gross).Row? { PriceConserves(c, gross); }
  }

  // ----- rows that credits, fundings and transfers write -----

  /** Only balance, activity, the change time and, for an immediate voucher, the time of the
      last refund may change; an inactive voucher stays inactive. */
  predicate CalmRow(v: Voucher, w: Voucher) {
    && w == v.(balance := w.balance, active := w.active, updatedAt := w.updatedAt, lastAt := w.lastAt)
    && (w.active ==> v.active)
    && (!v.immediate ==> w.lastAt == v.lastAt)
  }

  ghost predicate Calmer(vs: seq<Voucher>, us: seq<Voucher>) {
    && |vs| == |us|
    && forall i :: 0 <= i < |vs| ==> CalmRow(vs[i], us[i])
  }

  lemma {:induction false} CreditAllCalmer(vs: seq<Voucher>, ids: seq<nat>, share: int, now: int)
    requires CreditAll(vs, ids, share, now).Some?
    ensures Calmer(vs, CreditAll(vs, ids, share, now).value)
  {
    if ids != [] { CreditAllCalmer(vs, ids[..|ids| - 1], share, now); }
  }

  lemma {:induction false} ImmediateAllCalmer(t: Tables, c: Schedule, ids: seq<nat>, orders: map<nat, seq<string>>, now: int)
    requires ImmediateAll(t, c, ids, orders, now).Some?
    ensures Calmer(t.vouchers, ImmediateAll(t, c, ids, orders, now).value.vouchers)
  {
    if ids != [] { ImmediateAllCalmer(t, c, ids[..|ids| - 1], orders, now); }
  }

  lemma CreditCalmer(vs: seq<Voucher>, target: FundTarget, total: int, now: int)
    requires UpdateFundBalance(vs, target, total, now).Some?
    ensures Calmer(vs, UpdateFundBalance(vs, target, total, now).value.vouchers)
  {
    if target.ToBatch? {
      var ids := LiveInBatch(vs, target.batch, now);
      CreditAllCalmer(vs, ids, Share(total, |ids|), now);
    }
  }

  lemma CalmerTransitive(a: seq<Voucher>, b: seq<Voucher>, d: seq<Voucher>)
    requires Calmer(a, b) && Calmer(b, d)
    ensures Calmer(a, d)
  {
    forall i | 0 <= i < |a| ensures CalmRow(a[i], d[i]) {
      assert CalmRow(a[i], b[i]) && CalmRow(b[i], d[i]);
    }
  }

  lemma FundCalmer(t: Tables, c: Schedule, i: nat, received: int, orders: map<nat, seq<string>>, now: int)
    ensures Calmer(t.vouchers, ConfirmFund(t, c, i, received, orders, now).vouchers)
  {
    hide UpdateFundBalance, ImmediateAll, CalmRow;
    SameIsCalm(t.vouchers);
    if i < |t.funds| && t.funds[i].status == Pending {
      var f := t.funds[i];
      var fee := ReceiveFee(f, received);
      var o := UpdateFundBalance(t.vouchers, f.target, f.msat - fee, now);
      if o.Some? {
        CreditCalmer(t.vouchers, f.target, f.msat - fee, now);
        var u := t.(vouchers := o.value.vouchers, funds := t.funds[i := f.(status := Confirmed, fee := fee)]);
        var w := ImmediateAll(u, c, o.value.credited, orders, now);
        if w.Some? {
          ImmediateAllCalmer(u, c, o.value.credited, orders, now);
          CalmerTransitive(t.vouchers, o.value.vouchers, w.value.vouchers);
        }
      }
    }
  }

  lemma SameIsCalm(vs: seq<Voucher>)
    ensures Calmer(vs, vs)
  {
  }

  lemma TransferCalmer(t: Tables, cfg: Config, src: nat, read: Voucher, amount: int, d: Destination, fp: string, now: int)
    requires Transfer(t, cfg, src, read, amount, d, fp, now).Some?
    ensures Calmer(t.vouchers, Transfer(t, cfg, src, read, amount, d, fp, now).value.vouchers)
  {
    if d.Batch? {
      var net := amount - CalculateInternalFee(cfg.fees, amount);
      CreditAllCalmer(UpdateVoucherBalance(t.vouchers, src, -amount, now).value, d.ids, Share(net, |d.ids|), now);
    }
  }
}
