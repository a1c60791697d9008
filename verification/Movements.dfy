/** Who gets the money: what each transaction does to every single voucher and row. */
module Movements {
  import opened Options
  import opened Sums
  import opened Split
  import opened Schema
  import opened Fees
  import opened Ledger
  import opened LedgerEffects
  import opened Crediting
  import opened Database
  import opened RefundClock
  import opened Uncredited

  // ----- transfers -----

  /** Whether the destination names this voucher. */
  predicate Receives(d: Destination, i: nat) {
    match d
    case Single(id) => i == id
    case Batch(ids) => i in ids
  }

  /** What a destination of a net amount gets for each voucher it names. */
  function PartOf(d: Destination, net: int): int
    requires DestinationCount(d) > 0
  {
    match d
    case Single(_) => net
    case Batch(ids) => Share(net, |ids|)
  }

  /** The change of one balance by a transfer. */
  function Moved(d: Destination, src: nat, amount: int, net: int, i: nat): int
    requires DestinationCount(d) > 0
  {
    (if i == src then -amount else 0) + (if Receives(d, i) then PartOf(d, net) else 0)
  }

  predicate DistinctIds(d: Destination) {
    d.Batch? ==> Distinct(d.ids)
  }

  /** The rows of a credit: named ones get the share and a new change time, others are untouched. */
  lemma {:induction false} CreditAllRows(vs: seq<Voucher>, ids: seq<nat>, share: int, now: int)
    requires Distinct(ids) && CreditAll(vs, ids, share, now).Some?
    ensures var us := CreditAll(vs, ids, share, now).value;
      && |us| == |vs| && (forall id :: id in ids ==> id < |vs|)
      && forall i: nat :: i < |vs| ==> us[i] == if i in ids then Touched(vs[i], share, now) else vs[i]
  {
    if ids != [] {
      Shorter(ids);
      CreditAllRows(vs, ids[..|ids| - 1], share, now);
    }
  }

  /** One row after a guarded change of its balance. */
  function Touched(v: Voucher, msats: int, now: int): Voucher {
    v.(balance := v.balance + msats, active := v.active && !(msats < 0 && v.singleUse), updatedAt := now)
  }

  lemma DestinationRows(vs: seq<Voucher>, d: Destination, net: int, now: int)
    requires DestinationCount(d) > 0 && DistinctIds(d) && CreditDestination(vs, d, net, now).Some?
    ensures var us := CreditDestination(vs, d, net, now).value.0;
      && |us| == |vs|
      && (forall i: nat :: Receives(d, i) ==> i < |vs|)
      && forall i: nat :: i < |vs| ==> us[i] == if Receives(d, i) then Touched(vs[i], PartOf(d, net), now) else vs[i]
  {
    if d.Batch? { CreditAllRows(vs, d.ids, Share(net, |d.ids|), now); }
  }

  /** Who receives a transfer's money: the source pays the amount, each voucher the destination
      names gets the net, or the same whole-sat share of it, and nobody else's row is touched. The
      recorded fee is the internal fee of the amount, and the net is what is left. */
  lemma TransferPays(t: Tables, cfg: Config, src: nat, read: Voucher, amount: int, d: Destination, fp: string, now: int)
    requires DistinctIds(d) && Transfer(t, cfg, src, read, amount, d, fp, now).Some?
    ensures DestinationCount(d) > 0 && src < |t.vouchers|
    ensures var u := Transfer(t, cfg, src, read, amount, d, fp, now).value;
      && |u.transfers| == |t.transfers| + 1 && u.transfers[..|t.transfers|] == t.transfers
      && |u.vouchers| == |t.vouchers|
      && var x := u.transfers[|t.transfers|];
         && x.amount == amount && x.net == amount - x.fee && Charged(cfg.fees.internalBps, cfg.fees.minInternalFee, amount, x.fee)
         && (amount - x.fee) * cfg.fees.internalBps <= x.fee * 10000 && x.fee >= cfg.fees.minInternalFee / 1000 * 1000
         && forall i: nat :: i < |t.vouchers| ==>
              && u.vouchers[i].balance == t.vouchers[i].balance + Moved(d, src, amount, x.net, i)
              && (i != src && !Receives(d, i) ==> u.vouchers[i] == t.vouchers[i])
              && (i == src || Receives(d, i) ==> u.vouchers[i].updatedAt == now)
  {
    hide CreditDestination, CreditAll, FeeOf, Share, Dust, Charged;
    var fee := CalculateInternalFee(cfg.fees, amount);
    InternalCharge(cfg.fees, amount);
    DestinationRows(UpdateVoucherBalance(t.vouchers, src, -amount, now).value, d, amount - fee, now);
  }

  lemma DestinationExactly(vs: seq<Voucher>, d: Destination, net: int, now: int)
    requires DestinationCount(d) > 0 && DistinctIds(d)
    ensures CreditDestination(vs, d, net, now).Some? <==>
      forall i: nat :: Receives(d, i) ==> i < |vs| && vs[i].balance + PartOf(d, net) >= 0
  {
    match d {
      case Single(id) => assert Receives(d, id);
      case Batch(ids) =>
        if forall id :: id in ids ==> id < |vs| {
          CreditAllExactly(vs, ids, Share(net, |ids|), now);
          forall id: nat | id in ids ensures Receives(d, id) {}
        } else {
          var id :| id in ids && id >= |vs|;
          assert Receives(d, id);
          if CreditAll(vs, ids, Share(net, |ids|), now).Some? { CreditAllRows(vs, ids, Share(net, |ids|), now); }
        }
    }
  }

  /** What a transfer is admitted on, all but the fee: at least a sat and at most the funding limit
      for each voucher, within the balance and the limit that were read, from no single-use voucher,
      with a fingerprint not seen before if the voucher asks for one, and not to itself. */
  predicate Admissible(t: Tables, cfg: Config, src: nat, read: Voucher, amount: int, d: Destination, fp: string) {
    var n := DestinationCount(d);
    && src < |t.vouchers| && d != Single(src)
    && n > 0 && 1000 * n <= amount <= cfg.maxFund * n
    && amount <= read.balance && amount <= t.vouchers[src].balance && (read.maxRedeem > 0 ==> amount <= read.maxRedeem)
    && !read.singleUse && (read.unique ==> fp != "" && (src, fp) !in t.fingerprints)
  }

  /** A transfer commits if and only if it is admissible and every voucher it names exists and does
      not go negative. */
  lemma TransferExactly(t: Tables, cfg: Config, src: nat, read: Voucher, amount: int, d: Destination, fp: string, now: int)
    requires DistinctIds(d)
    ensures Transfer(t, cfg, src, read, amount, d, fp, now).Some? <==>
      && Admissible(t, cfg, src, read, amount, d, fp)
      && var net := amount - CalculateInternalFee(cfg.fees, amount);
         forall i: nat :: Receives(d, i) ==>
           i < |t.vouchers| && t.vouchers[i].balance + Moved(d, src, amount, net, i) >= 0
  {
    hide CreditDestination, FeeOf, Share, Dust, Distinct;
    var o := UpdateVoucherBalance(t.vouchers, src, -amount, now);
    if DestinationCount(d) > 0 && o.Some? {
      DestinationExactly(o.value, d, amount - CalculateInternalFee(cfg.fees, amount), now);
    }
  }

  // ----- refund rows -----

  /** A payable row for a split of this voucher's balance over these codes. */
  predicate PaysFor(c: Schedule, id: nat, balance: int, codes: seq<RefundCode>, r: RefundTx) {
    Pays(c, id, SplitOf(balance, codes), r)
  }

  /** The reserved fee of a payable row is the redeem fee of its split. */
  lemma RowCharged(c: Schedule, r: RefundTx)
    requires WellPriced(c, r) && !r.refunded && r.amount + r.dbTxFee + r.dust >= 0
    ensures Charged(c.redeemBps, c.minRedeemFee, r.amount + r.dbTxFee + r.dust, r.dbTxFee)
  {
    hide FeeOf, Charged;
    PriceExactly(c, r.amount + r.dbTxFee + r.dust);
  }

  predicate NoCodeTwice(rows: seq<RefundTx>) {
    forall i, j :: 0 <= i < j < |rows| ==> rows[i].code != rows[j].code
  }

  /** One row for every split above the minimum and none for the others. */
  lemma {:induction false} FanOutComplete(c: Schedule, id: nat, m: map<string, int>, order: seq<string>)
    requires forall i :: 0 <= i < |order| ==> order[i] in m
    requires forall i, j :: 0 <= i < j < |order| ==> order[i] != order[j]
    ensures var rows := FanOutRows(c, id, m, order);
      && NoCodeTwice(rows)
      && (forall code :: code in order && PriceRefund(c, m[code]).Row? ==> exists r: RefundTx :: r in rows && r.code == code)
      && (forall r :: r in rows ==> r.code in order && PriceRefund(c, m[r.code]).Row?)
  {
    hide PriceRefund;
    if order != [] {
      var n := |order| - 1;
      FanOutComplete(c, id, m, order[..n]);
      var front, last := FanOutRows(c, id, m, order[..n]), FanOutRow(c, id, m, order[n]);
      assert order == order[..n] + [order[n]];
      forall code | code in order && PriceRefund(c, m[code]).Row?
        ensures exists r: RefundTx :: r in front + last && r.code == code
      {
        if code in order[..n] {
          var r: RefundTx :| r in front && r.code == code;
          assert r in front + last;
        } else {
          assert last[0] in front + last;
        }
      }
    }
  }

  /** One row for each payable split of a balance, which pays it, and no others. */
  ghost predicate RowsFor(c: Schedule, id: nat, balance: int, codes: seq<RefundCode>, rows: seq<RefundTx>) {
    var m := SplitOf(balance, codes);
    && NoCodeTwice(rows) && (forall r :: r in rows ==> PaysFor(c, id, balance, codes, r))
    && (forall code :: code in m && PriceRefund(c, m[code]).Row? ==> exists r: RefundTx :: r in rows && r.code == code)
  }

  lemma BalanceRows(c: Schedule, id: nat, balance: nat, codes: seq<RefundCode>, order: seq<string>)
    requires Enumerates(order, SplitOf(balance, codes))
    ensures RowsFor(c, id, balance, codes, FanOutRows(c, id, SplitOf(balance, codes), order))
  {
    hide PriceRefund, SplitOf;
    FanOutExact(c, id, SplitOf(balance, codes), order);
    FanOutComplete(c, id, SplitOf(balance, codes), order);
  }

  /** What `u` appends to `t`'s refund rows. */
  function Appended(t: Tables, u: Tables): seq<RefundTx>
    requires |t.refunds| <= |u.refunds|
  {
    u.refunds[|t.refunds|..]
  }

  /** What expiry leaves: the voucher is empty and inactive, no other voucher is touched, and its
      balance is now rows of its own, one for each payable split, or one row of retained dust when
      no split is payable. */
  lemma ExpireExactly(t: Tables, c: Schedule, id: nat, codes: seq<RefundCode>, order: seq<string>, now: int)
    requires id < |t.vouchers| && OrderOk(t, id, codes, order)
    ensures var u, v := ExpireVoucher(t, c, id, codes, order, now), t.vouchers[id];
      && u == t.(vouchers := u.vouchers, refunds := u.refunds) && |t.refunds| <= |u.refunds| && u.refunds[..|t.refunds|] == t.refunds
      && (v.balance <= 0 ==> u == t)
      && (v.balance > 0 ==> u.vouchers == t.vouchers[id := v.(balance := 0, active := false, updatedAt := now)])
      && (v.balance > 0 && AnyAboveMin(c, SplitOf(v.balance, codes)) ==> RowsFor(c, id, v.balance, codes, Appended(t, u)))
      && (v.balance > 0 && !AnyAboveMin(c, SplitOf(v.balance, codes)) ==>
            |Appended(t, u)| == 1 && var r := Appended(t, u)[0];
              r == RefundTx(id, if codes == [] then "" else codes[0].code, 0, 0, v.balance, 0, true, false, NoKey, 0))
  {
    hide PriceRefund, SplitOf, FanOutRows, PaysFor;
    var v := t.vouchers[id];
    if v.balance > 0 {
      BalanceRows(c, id, v.balance, codes, order);
      AnyRows(c, id, SplitOf(v.balance, codes), order);
    }
  }

  lemma AnyRows(c: Schedule, id: nat, m: map<string, int>, order: seq<string>)
    requires Enumerates(order, m)
    ensures FanOutRows(c, id, m, order) != [] <==> AnyAboveMin(c, m)
  {
    FanOutEmpty(c, id, m, order);
    if AnyAboveMin(c, m) {
      var k :| k in m && PriceRefund(c, m[k]).Row?;
      assert k in order;
      var i :| 0 <= i < |order| && order[i] == k;
    }
  }

  /** A regular refund leaves the voucher active, empties it if some split is payable, and moves its
      schedule in any case. */
  lemma RegularExactly(t: Tables, c: Schedule, id: nat, codes: seq<RefundCode>, order: seq<string>, last: int)
    requires id < |t.vouchers| && t.vouchers[id].balance >= 0 && OrderOk(t, id, codes, order)
    ensures var u, v := RegularVoucher(t, c, id, codes, order, last), t.vouchers[id];
      var drains := AnyAboveMin(c, SplitOf(v.balance, codes)) && v.balance > 0;
      && u == t.(vouchers := t.vouchers[id := v.(balance := if drains then 0 else v.balance, lastAt := last)], refunds := u.refunds)
      && |t.refunds| <= |u.refunds| && u.refunds[..|t.refunds|] == t.refunds
      && (drains ==> RowsFor(c, id, v.balance, codes, Appended(t, u)))
      && (!drains ==> u.refunds == t.refunds)
  {
    hide PriceRefund, SplitOf, FanOutRows, PaysFor, AnyAboveMin;
    BalanceRows(c, id, t.vouchers[id].balance, codes, order);
  }

  // ----- funding -----

  /** One row after an immediate refund. */
  function Drained(c: Schedule, v: Voucher, now: int): Voucher {
    if v.immediate && v.balance != 0 && AnyAboveMin(c, SplitOf(v.balance, v.codes)) then v.(balance := 0, lastAt := now) else v
  }

  /** A refund row for a voucher of `vs` among `ids`, paying one of its own codes. */
  predicate PaysOne(c: Schedule, vs: seq<Voucher>, ids: seq<nat>, r: RefundTx) {
    r.voucher in ids && r.voucher < |vs| && PaysFor(c, r.voucher, vs[r.voucher].balance, vs[r.voucher].codes, r)
  }

  lemma ImmediateRow(t: Tables, c: Schedule, id: nat, order: seq<string>, now: int)
    requires ImmediateVoucher(t, c, id, order, now).Some? && id < |t.vouchers| && ImmediateOrderOk(t, id, order)
    ensures var u, v := ImmediateVoucher(t, c, id, order, now).value, t.vouchers[id];
      && u.vouchers == t.vouchers[id := Drained(c, v, now)]
      && |t.refunds| <= |u.refunds| && u.refunds[..|t.refunds|] == t.refunds
      && forall r :: r in Appended(t, u) ==> PaysFor(c, id, v.balance, v.codes, r)
  {
    hide PriceRefund, SplitOf, FanOutRows, AnyAboveMin;
    var v := t.vouchers[id];
    if v.immediate { FanOutExact(c, id, SplitOf(v.balance, v.codes), order); }
  }

  /** The vouchers and rows after immediate refunds of `ids`. */
  ghost predicate Refunded(c: Schedule, t: Tables, u: Tables, ids: seq<nat>, now: int) {
    && |u.vouchers| == |t.vouchers| && |t.refunds| <= |u.refunds| && u.refunds[..|t.refunds|] == t.refunds
    && (forall i: nat :: i < |t.vouchers| ==> u.vouchers[i] == if i in ids then Drained(c, t.vouchers[i], now) else t.vouchers[i])
    && forall r :: r in Appended(t, u) ==> PaysOne(c, t.vouchers, ids, r)
  }

  lemma GrownTwice(a: seq<RefundTx>, b: seq<RefundTx>, d: seq<RefundTx>)
    requires |a| <= |b| <= |d| && b[..|a|] == a && d[..|b|] == b
    ensures d[..|a|] == a && d[|a|..] == b[|a|..] + d[|b|..]
  {
    assert d[..|a|] == d[..|b|][..|a|];
  }

  lemma PaysOneMore(c: Schedule, vs: seq<Voucher>, ids: seq<nat>, id: nat, r: RefundTx)
    requires PaysOne(c, vs, ids, r) || (id < |vs| && PaysFor(c, id, vs[id].balance, vs[id].codes, r))
    ensures PaysOne(c, vs, ids + [id], r)
  {
    hide SplitOf;
  }

  lemma RefundedMore(c: Schedule, t: Tables, mid: Tables, u: Tables, ids: seq<nat>, id: nat, now: int)
    requires Refunded(c, t, mid, ids, now) && id < |t.vouchers| && id !in ids
    requires u.vouchers == mid.vouchers[id := Drained(c, mid.vouchers[id], now)]
    requires |mid.refunds| <= |u.refunds| && u.refunds[..|mid.refunds|] == mid.refunds
    requires forall r :: r in Appended(mid, u) ==> PaysFor(c, id, mid.vouchers[id].balance, mid.vouchers[id].codes, r)
    ensures Refunded(c, t, u, ids + [id], now)
  {
    hide Drained, PaysFor, PaysOne;
    GrownTwice(t.refunds, mid.refunds, u.refunds);
    forall r | r in Appended(t, u) ensures PaysOne(c, t.vouchers, ids + [id], r) {
      assert r in Appended(t, mid) || r in Appended(mid, u);
      PaysOneMore(c, t.vouchers, ids, id, r);
    }
  }

  lemma {:induction false} ImmediateRows(t: Tables, c: Schedule, ids: seq<nat>, orders: map<nat, seq<string>>, now: int)
    requires Distinct(ids) && ImmediateAll(t, c, ids, orders, now).Some? && ImmediateOrdersOk(t, c, ids, orders, now)
    ensures Refunded(c, t, ImmediateAll(t, c, ids, orders, now).value, ids, now)
    decreases |ids|, 1
  {
    if ids == [] {
      assert ImmediateAll(t, c, ids, orders, now) == Some(t);
    } else {
      ImmediateRowsStep(t, c, ids, orders, now);
    }
  }

  lemma {:induction false} ImmediateRowsStep(t: Tables, c: Schedule, ids: seq<nat>, orders: map<nat, seq<string>>, now: int)
    requires ids != [] && Distinct(ids) && ImmediateAll(t, c, ids, orders, now).Some? && ImmediateOrdersOk(t, c, ids, orders, now)
    ensures Refunded(c, t, ImmediateAll(t, c, ids, orders, now).value, ids, now)
    decreases |ids|, 0
  {
    hide *;
    var n := |ids| - 1;
    Shorter(ids);
    ImmediateLast(t, c, ids, orders, now);
    OrdersLast(t, c, ids, orders, now);
    ImmediateRows(t, c, ids[..n], orders, now);
    var mid := ImmediateAll(t, c, ids[..n], orders, now).value;
    ImmediateFrame(t, c, ids, orders, now);
    RefundedLength(c, t, mid, ids[..n], now);
    ImmediateRow(mid, c, ids[n], OrderFor(orders, ids[n]), now);
    RefundedMore(c, t, mid, ImmediateAll(t, c, ids, orders, now).value, ids[..n], ids[n], now);
  }

  lemma OrdersLast(t: Tables, c: Schedule, ids: seq<nat>, orders: map<nat, seq<string>>, now: int)
    requires ids != [] && ImmediateOrdersOk(t, c, ids, orders, now)
    ensures var n := |ids| - 1;
      && ImmediateOrdersOk(t, c, ids[..n], orders, now)
      && (ImmediateAll(t, c, ids[..n], orders, now).Some? ==>
            ImmediateOrderOk(ImmediateAll(t, c, ids[..n], orders, now).value, ids[n], OrderFor(orders, ids[n])))
  {
    hide ImmediateVoucher, ImmediateOrderOk;
  }

  lemma RefundedLength(c: Schedule, t: Tables, u: Tables, ids: seq<nat>, now: int)
    requires Refunded(c, t, u, ids, now)
    ensures |u.vouchers| == |t.vouchers|
  {
  }

  /** Whether an invoice for this target, confirmed at `now`, credits this voucher. */
  predicate Named(vs: seq<Voucher>, target: FundTarget, now: int, i: nat) {
    Concerns(vs, i, target) && Usable(vs[i], now)
  }

  /** What each voucher it names gets: all of it, or the same whole-sat share. */
  function FundPart(vs: seq<Voucher>, target: FundTarget, total: int, now: int): int {
    match target
    case ToVoucher(_) => total
    case ToBatch(batch) =>
      var n := |LiveInBatch(vs, batch, now)|;
      if n == 0 then 0 else Share(total, n)
  }

  lemma CreditRows(vs: seq<Voucher>, target: FundTarget, total: int, now: int)
    requires UpdateFundBalance(vs, target, total, now).Some?
    ensures var cr := UpdateFundBalance(vs, target, total, now).value;
      && |cr.vouchers| == |vs| && Distinct(cr.credited)
      && (forall i: nat :: i < |vs| ==> (i in cr.credited <==> Named(vs, target, now, i)))
      && forall i: nat :: i < |vs| ==>
           cr.vouchers[i] == if Named(vs, target, now, i) then Touched(vs[i], FundPart(vs, target, total, now), now) else vs[i]
  {
    hide Usable, Share, Dust;
    if target.ToBatch? {
      var ids := LiveInBatch(vs, target.batch, now);
      LiveIsUsable(vs, target.batch, now);
      LiveDistinct(vs, target.batch, now);
      CreditAllRows(vs, ids, Share(total, |ids|), now);
    }
  }

  /** What is credited: all that arrived, or, when more arrived than was invoiced, the invoice less the
      estimated fee. */
  function ToCredit(f: FundTx, received: int): int {
    if received <= f.msat then received else f.msat - f.fee
  }

  /** Who receives a paid invoice: exactly the live vouchers it is for, each its part, from which an
      immediate voucher is refunded over its own codes at once; nobody else's row is touched. */
  lemma FundPays(t: Tables, c: Schedule, f: nat, received: int, orders: map<nat, seq<string>>, now: int)
    requires FundOrdersOk(t, c, f, received, orders, now) && Confirms(t, ConfirmFund(t, c, f, received, orders, now), f)
    ensures var u, target := ConfirmFund(t, c, f, received, orders, now), t.funds[f].target;
      var part := FundPart(t.vouchers, target, ToCredit(t.funds[f], received), now);
      && |u.vouchers| == |t.vouchers| && |t.refunds| <= |u.refunds| && u.refunds[..|t.refunds|] == t.refunds
      && (forall i: nat :: i < |t.vouchers| ==>
            u.vouchers[i] == if Named(t.vouchers, target, now, i) then Drained(c, Touched(t.vouchers[i], part, now), now) else t.vouchers[i])
      && forall r :: r in Appended(t, u) ==>
           && r.voucher < |t.vouchers| && Named(t.vouchers, target, now, r.voucher)
           && PaysFor(c, r.voucher, t.vouchers[r.voucher].balance + part, t.vouchers[r.voucher].codes, r)
  {
    hide UpdateFundBalance, FundPart, Drained, Named, Touched, PaysFor, Refunded, ConfirmFund, FundOrdersOk;
    FundSteps(t, c, f, received, orders, now);
    CreditRows(t.vouchers, t.funds[f].target, t.funds[f].msat - ReceiveFee(t.funds[f], received), now);
    PartsPaid(c, t, ConfirmFund(t, c, f, received, orders, now), t.funds[f].target, t.funds[f].msat - ReceiveFee(t.funds[f], received), now);
  }

  /** Rows and balances put together. */
  lemma PartsPaid(c: Schedule, t: Tables, u: Tables, target: FundTarget, total: int, now: int)
    requires UpdateFundBalance(t.vouchers, target, total, now).Some?
    requires var cr := UpdateFundBalance(t.vouchers, target, total, now).value;
      Refunded(c, t.(vouchers := cr.vouchers), u, cr.credited, now)
    ensures var part := FundPart(t.vouchers, target, total, now);
      && |u.vouchers| == |t.vouchers| && |t.refunds| <= |u.refunds| && u.refunds[..|t.refunds|] == t.refunds
      && (forall i: nat :: i < |t.vouchers| ==>
            u.vouchers[i] == if Named(t.vouchers, target, now, i) then Drained(c, Touched(t.vouchers[i], part, now), now) else t.vouchers[i])
      && forall r :: r in Appended(t, u) ==>
           && r.voucher < |t.vouchers| && Named(t.vouchers, target, now, r.voucher)
           && PaysFor(c, r.voucher, t.vouchers[r.voucher].balance + part, t.vouchers[r.voucher].codes, r)
  {
    hide UpdateFundBalance, FundPart, Drained, Named, Touched, PaysFor, Distinct;
    CreditRows(t.vouchers, target, total, now);
    var cr := UpdateFundBalance(t.vouchers, target, total, now).value;
    forall r | r in Appended(t, u)
      ensures r.voucher < |t.vouchers| && Named(t.vouchers, target, now, r.voucher)
      ensures PaysFor(c, r.voucher, t.vouchers[r.voucher].balance + FundPart(t.vouchers, target, total, now), t.vouchers[r.voucher].codes, r)
    {
      assert PaysOne(c, cr.vouchers, cr.credited, r);
      TouchedParts(t.vouchers[r.voucher], FundPart(t.vouchers, target, total, now), now);
    }
  }

  lemma TouchedParts(v: Voucher, msats: int, now: int)
    ensures Touched(v, msats, now).balance == v.balance + msats && Touched(v, msats, now).codes == v.codes
  {
  }

  /** A confirmation is the credit followed by the immediate refunds. */
  lemma FundSteps(t: Tables, c: Schedule, f: nat, received: int, orders: map<nat, seq<string>>, now: int)
    requires FundOrdersOk(t, c, f, received, orders, now) && Confirms(t, ConfirmFund(t, c, f, received, orders, now), f)
    ensures var o := UpdateFundBalance(t.vouchers, t.funds[f].target, t.funds[f].msat - ReceiveFee(t.funds[f], received), now);
      o.Some? && Refunded(c, t.(vouchers := o.value.vouchers), ConfirmFund(t, c, f, received, orders, now), o.value.credited, now)
  {
    hide UpdateFundBalance, ImmediateAll, ImmediateOrdersOk, Drained, PaysOne, Distinct, Named, FundPart;
    var f', fee := t.funds[f], ReceiveFee(t.funds[f], received);
    CreditRows(t.vouchers, f'.target, f'.msat - fee, now);
    var cr := UpdateFundBalance(t.vouchers, f'.target, f'.msat - fee, now).value;
    ImmediateRows(t.(vouchers := cr.vouchers, funds := t.funds[f := f'.(status := Confirmed, fee := fee)]), c, cr.credited, orders, now);
  }

  /** What the confirmed row records: the receive fee is what the invoice is short of, or the estimate
      when more arrived, and of the rest each voucher named has its part and the row the dust. */
  lemma FundRow(t: Tables, c: Schedule, f: nat, received: nat, orders: map<nat, seq<string>>, now: int)
    requires FundOrdersOk(t, c, f, received, orders, now) && Confirms(t, ConfirmFund(t, c, f, received, orders, now), f)
    requires t.funds[f].dust == 0 && ToCredit(t.funds[f], received) >= 0
    ensures var u, row := ConfirmFund(t, c, f, received, orders, now), t.funds[f];
      var total := ToCredit(row, received);
      var part := FundPart(t.vouchers, row.target, total, now);
      var n := if row.target.ToVoucher? then 1 else |LiveInBatch(t.vouchers, row.target.batch, now)|;
      && f < |u.funds| && u.funds[f].status == Confirmed && u.funds[f].fee == row.msat - total
      && n > 0 && part * n + u.funds[f].dust == total && part >= 0 && u.funds[f].dust >= 0
      && (row.target.ToBatch? ==> part % 1000 == 0 && u.funds[f].dust < 1000 * n)
  {
    hide ImmediateAll, CreditAll, LiveInBatch, Share, Dust, ImmediateOrdersOk;
    ConfirmFundFrame(t, c, f, received, orders, now);
    var row, total := t.funds[f], ToCredit(t.funds[f], received);
    if row.target.ToBatch? { ShareExact(total, |LiveInBatch(t.vouchers, row.target.batch, now)|); }
    var cr := UpdateFundBalance(t.vouchers, row.target, total, now).value;
    ImmediateAllFrame(t.(vouchers := cr.vouchers, funds := t.funds[f := row.(status := Confirmed, fee := row.msat - total)]),
                      c, cr.credited, orders, now);
  }

  // ----- redeems -----

  /** A redeem takes amount and fee from its own voucher, the fee being the redeem fee of the balance
      it finds, deactivates it if it is for single use, and touches no other row. */
  lemma RedeemTakes(t: Tables, c: Schedule, id: nat, amount: int, now: int)
    requires amount > 0 && BeginRedeem(t, c, id, amount, now).Some? && t.vouchers[id].balance >= 0
    ensures var u, v := BeginRedeem(t, c, id, amount, now).value, t.vouchers[id];
      && u == t.(vouchers := u.vouchers, redeems := u.redeems)
      && |u.redeems| == |t.redeems| + 1 && u.redeems[..|t.redeems|] == t.redeems
      && var r := u.redeems[|t.redeems|];
         && r == RedeemTx(id, amount, r.lnFee, 0, 0, Pending, false)
         && Charged(c.redeemBps, c.minRedeemFee, v.balance, r.lnFee)
         && (v.balance - r.lnFee) * c.redeemBps <= r.lnFee * 10000 && r.lnFee >= c.minRedeemFee / 1000 * 1000
         && u.vouchers == t.vouchers[id := v.(balance := v.balance - amount - r.lnFee, active := !v.singleUse, updatedAt := now)]
  {
    hide FeeOf, Charged;
    RedeemCharge(c, t.vouchers[id].balance);
  }

  // ----- when a voucher lapses -----

  /** The lookups refuse a voucher exactly when it is inactive or was due for expiry a second ago, as
      the expiry query sees it. */
  lemma UsableUntilDue(v: Voucher, now: int)
    requires v.updatedAt >= 0
    ensures Usable(v, now) <==> v.active && !ExpiredDue(v.(balance := 1), now - 1)
    ensures v.balance > 0 ==> (Lapsed(v, now) <==> ExpiredDue(v, now - 1))
  {
  }

  /** A regular refund is due from its scheduled time on, as long as the voucher is active and not due
      for expiry; a due voucher is usable. */
  lemma RegularUntilExpiry(v: Voucher, now: int)
    requires v.updatedAt >= 0 && v.lastAt >= 0
    ensures RegularDue(v, now) <==>
      v.active && v.firstAt > 0 && !v.immediate && DueAt(v) <= now && !ExpiredDue(v.(balance := 1), now)
    ensures RegularDue(v, now) ==> Usable(v, now)
  {
  }

  /** How long a row written at `now` lives: one interval of its own rule from the writing, or from its
      creation when expiry is absolute. */
  lemma LivesUntil(v: Voucher, now: int, later: int)
    requires now > 0 && v.updatedAt == now
    ensures Lapsed(v, later) <==> later > (if v.absoluteExpiry then v.createdAt else now) + v.refundAfter
  {
  }

  /** A credited invoice renews every voucher it names: with relative expiry it lapses exactly after
      its refund time has passed from then on. */
  lemma FundRenews(t: Tables, c: Schedule, f: nat, received: int, orders: map<nat, seq<string>>, now: int, i: nat, later: int)
    requires FundOrdersOk(t, c, f, received, orders, now) && Confirms(t, ConfirmFund(t, c, f, received, orders, now), f)
    requires now > 0 && i < |t.vouchers| && Named(t.vouchers, t.funds[f].target, now, i)
    ensures var v, us := t.vouchers[i], ConfirmFund(t, c, f, received, orders, now).vouchers;
      i < |us| && (Lapsed(us[i], later) <==> later > (if v.absoluteExpiry then v.createdAt else now) + v.refundAfter)
  {
    hide ConfirmFund, FundPart, Named, AnyAboveMin, Lapsed;
    FundPays(t, c, f, received, orders, now);
    LivesUntil(ConfirmFund(t, c, f, received, orders, now).vouchers[i], now, later);
  }

  /** A new voucher with relative expiry does not lapse before it is first written. */
  lemma NewLives(p: Voucher, now: int, later: int)
    ensures var v := NewVoucher(p, now);
      v.balance == 0 && v.active && (Lapsed(v, later) <==> p.absoluteExpiry && later > now + p.refundAfter)
  {
  }

  /** An edit renews the voucher and starts its schedule again, and leaves its money and batch alone. */
  lemma EditRenews(vs: seq<Voucher>, id: nat, p: Voucher, now: int, later: int)
    requires id < |vs| && now > 0
    ensures var u := EditVoucher(vs, id, p, now)[id];
      && u.active && u.balance == vs[id].balance && u.batch == vs[id].batch && DueAt(u) == p.firstAt
      && (Lapsed(u, later) <==> later > (if p.absoluteExpiry then vs[id].createdAt else now) + p.refundAfter)
  {
  }

  /** The batch lookup finds the vouchers of the batch that are active and were not due for expiry a
      second ago. */
  lemma LiveUntilDue(vs: seq<Voucher>, batch: string, now: int)
    requires forall i :: 0 <= i < |vs| ==> vs[i].updatedAt >= 0
    ensures forall id: nat :: id in LiveInBatch(vs, batch, now) <==>
      id < |vs| && vs[id].batch == batch && vs[id].active && !ExpiredDue(vs[id].(balance := 1), now - 1)
  {
    hide Usable, ExpiredDue, LiveInBatch;
    LiveIsUsable(vs, batch, now);
    forall id: nat | id < |vs| ensures Usable(vs[id], now) <==> vs[id].active && !ExpiredDue(vs[id].(balance := 1), now - 1) {
      UsableUntilDue(vs[id], now);
    }
  }

  /** The same for the voucher of a single invoice: it is credited if and only if it is active, was not
      due for expiry a second ago, and can take the money. */
  lemma CreditedUntilDue(t: Tables, c: Schedule, f: nat, received: int, orders: map<nat, seq<string>>, now: int)
    requires f < |t.funds| && t.funds[f].status == Pending && t.funds[f].target.ToVoucher?
    requires forall i :: 0 <= i < |t.vouchers| ==> t.vouchers[i].updatedAt >= 0
    ensures var id, total := t.funds[f].target.id, t.funds[f].msat - ReceiveFee(t.funds[f], received);
      Confirms(t, ConfirmFund(t, c, f, received, orders, now), f) <==>
        && id < |t.vouchers| && t.vouchers[id].active && !ExpiredDue(t.vouchers[id].(balance := 1), now - 1)
        && Creditable(t.vouchers[id], total)
  {
    hide ConfirmFund, Confirms, Usable, ExpiredDue, Creditable;
    CreditedExactly(t, c, f, received, orders, now);
    var id := t.funds[f].target.id;
    if id < |t.vouchers| { UsableUntilDue(t.vouchers[id], now); }
  }
}
