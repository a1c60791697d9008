/** The database as the code drives it: statements, loops over rows, transactions that are
    rolled back. Each method is shown to have the effect the ledger functions describe. */
module Database {
  import opened Options
  import opened Sums
  import opened Split
  import opened Fees
  import opened Schema
  import opened LedgerEffects
  import Ledger
  import GoInt

  // ----- prefixes of the batch functions -----

  lemma {:induction false} CreditStops(vs: seq<Voucher>, ids: seq<nat>, k: nat, share: int, now: int)
    requires k <= |ids| && Ledger.CreditAll(vs, ids[..k], share, now).None?
    ensures Ledger.CreditAll(vs, ids, share, now).None?
  {
    if k == |ids| {
      assert ids[..k] == ids;
    } else {
      var n := |ids| - 1;
      assert ids[..n][..k] == ids[..k];
      CreditStops(vs, ids[..n], k, share, now);
    }
  }

  lemma {:induction false} ImmediateStops(t: Tables, c: Schedule, ids: seq<nat>, k: nat, orders: map<nat, seq<string>>, now: int)
    requires k <= |ids| && Ledger.ImmediateAll(t, c, ids[..k], orders, now).None?
    ensures Ledger.ImmediateAll(t, c, ids, orders, now).None?
  {
    if k == |ids| {
      assert ids[..k] == ids;
    } else {
      var n := |ids| - 1;
      assert ids[..n][..k] == ids[..k];
      ImmediateStops(t, c, ids[..n], k, orders, now);
    }
  }

  lemma FanOutAdd(c: Schedule, id: nat, m: map<string, int>, order: seq<string>, code: string)
    ensures Ledger.FanOutRows(c, id, m, order + [code]) == Ledger.FanOutRows(c, id, m, order) + Ledger.FanOutRow(c, id, m, code)
  {
    assert (order + [code])[..|order|] == order;
  }

  /** `order` lists the keys of `m` that a walk has taken out, `left` the ones to come. */
  ghost predicate Walked(order: seq<string>, left: set<string>, m: map<string, int>) {
    && left <= m.Keys
    && (forall i :: 0 <= i < |order| ==> order[i] in m && order[i] !in left)
    && (forall k :: k in m ==> k in left || k in order)
    && (forall i, j :: 0 <= i < j < |order| ==> order[i] != order[j])
  }

  lemma WalkOn(order: seq<string>, left: set<string>, m: map<string, int>, code: string)
    requires Walked(order, left, m) && code in left
    ensures Walked(order + [code], left - {code}, m)
  {
    forall k | k in m ensures k in left - {code} || k in order + [code] {
      if k == code { assert (order + [code])[|order|] == k; }
    }
  }

  lemma WalkIn(order: seq<string>, left: set<string>, m: map<string, int>)
    requires Walked(order, left, m)
    ensures left <= m.Keys
  {
  }

  lemma WalkStart(c: Schedule, id: nat, m: map<string, int>)
    ensures Walked([], m.Keys, m) && Ledger.FanOutRows(c, id, m, []) == []
  {
  }

  lemma WalkEnd(order: seq<string>, m: map<string, int>)
    requires Walked(order, {}, m)
    ensures Enumerates(order, m)
  {
  }

  lemma AnyWalk(m: map<string, int>, left: set<string>, before: seq<string>) returns (order: seq<string>)
    requires Walked(before, left, m)
    ensures Enumerates(order, m)
    decreases left
  {
    if left == {} {
      order := before;
    } else {
      var code :| code in left;
      WalkOn(before, left, m, code);
      order := AnyWalk(m, left - {code}, before + [code]);
    }
  }

  /** Where no row is written the order does not matter: there is one. */
  lemma AnOrder(t: Tables, id: nat, codes: seq<RefundCode>) returns (order: seq<string>)
    ensures OrderOk(t, id, codes, order)
  {
    order := [];
    if id < |t.vouchers| {
      var m := SplitOf(t.vouchers[id].balance, codes);
      order := AnyWalk(m, m.Keys, []);
    }
  }

  // ----- immediate refunds of several vouchers -----

  /** The ids with later repetitions left out. */
  function FirstSeen(ids: seq<nat>): seq<nat> {
    if ids == [] then [] else
      var n := |ids| - 1;
      FirstSeen(ids[..n]) + if ids[n] in ids[..n] then [] else [ids[n]]
  }

  predicate Distinct(ids: seq<nat>) {
    forall i, j :: 0 <= i < j < |ids| ==> ids[i] != ids[j]
  }

  lemma {:induction false} FirstSeenDistinct(ids: seq<nat>)
    ensures Distinct(FirstSeen(ids)) && (forall x :: x in FirstSeen(ids) <==> x in ids)
    ensures Distinct(ids) ==> FirstSeen(ids) == ids
  {
    if ids != [] {
      var n := |ids| - 1;
      FirstSeenDistinct(ids[..n]);
      assert ids == ids[..n] + [ids[n]];
      assert forall i :: 0 <= i < n ==> ids[..n][i] == ids[i];
    }
  }

  predicate Wants(v: Voucher) {
    v.immediate && v.balance != 0
  }

  function Wanted(vs: seq<Voucher>, ids: seq<nat>): seq<nat> {
    if ids == [] then [] else
      var n := |ids| - 1;
      Wanted(vs, ids[..n]) + if ids[n] < |vs| && Wants(vs[ids[n]]) then [ids[n]] else []
  }

  lemma {:induction false} WantedFrom(vs: seq<Voucher>, ids: seq<nat>)
    requires Distinct(ids)
    ensures Distinct(Wanted(vs, ids))
    ensures forall x :: x in Wanted(vs, ids) ==> x in ids && x < |vs| && Wants(vs[x])
  {
    if ids != [] {
      var n := |ids| - 1;
      WantedFrom(vs, ids[..n]);
      assert forall i :: 0 <= i < n ==> ids[..n][i] == ids[i];
    }
  }

  ghost predicate OnlyTouches(t: Tables, u: Tables, ids: seq<nat>) {
    && |u.vouchers| == |t.vouchers|
    && (forall i :: 0 <= i < |t.vouchers| ==> u.vouchers[i].codes == t.vouchers[i].codes)
    && (forall i: nat :: i < |t.vouchers| && i !in ids ==> u.vouchers[i] == t.vouchers[i])
  }

  lemma OneFrame(t: Tables, c: Schedule, id: nat, order: seq<string>, now: int)
    requires Ledger.ImmediateVoucher(t, c, id, order, now).Some?
    ensures OnlyTouches(t, Ledger.ImmediateVoucher(t, c, id, order, now).value, [id]) && id < |t.vouchers|
  {
  }

  lemma TouchesMore(t: Tables, u: Tables, w: Tables, ids: seq<nat>, id: nat)
    requires OnlyTouches(t, u, ids) && OnlyTouches(u, w, [id]) && id < |u.vouchers|
    ensures OnlyTouches(t, w, ids + [id]) && id < |t.vouchers|
  {
  }

  lemma ImmediateLast(t: Tables, c: Schedule, ids: seq<nat>, orders: map<nat, seq<string>>, now: int)
    requires ids != [] && Ledger.ImmediateAll(t, c, ids, orders, now).Some?
    ensures var n := |ids| - 1;
      var before := Ledger.ImmediateAll(t, c, ids[..n], orders, now);
      && ids == ids[..n] + [ids[n]] && before.Some?
      && Ledger.ImmediateAll(t, c, ids, orders, now)
         == Ledger.ImmediateVoucher(before.value, c, ids[n], Ledger.OrderFor(orders, ids[n]), now)
  {
    hide Ledger.ImmediateVoucher;
  }

  /** What immediate refunds leave alone. */
  lemma {:induction false} ImmediateFrame(t: Tables, c: Schedule, ids: seq<nat>, orders: map<nat, seq<string>>, now: int)
    requires Ledger.ImmediateAll(t, c, ids, orders, now).Some?
    ensures OnlyTouches(t, Ledger.ImmediateAll(t, c, ids, orders, now).value, ids)
    ensures forall i :: 0 <= i < |ids| ==> ids[i] < |t.vouchers|
  {
    if ids != [] {
      hide *;
      var n := |ids| - 1;
      ImmediateLast(t, c, ids, orders, now);
      ImmediateFrame(t, c, ids[..n], orders, now);
      var u := Ledger.ImmediateAll(t, c, ids[..n], orders, now).value;
      OneFrame(u, c, ids[n], Ledger.OrderFor(orders, ids[n]), now);
      TouchesMore(t, u, Ledger.ImmediateAll(t, c, ids, orders, now).value, ids[..n], ids[n]);
    }
  }

  lemma Unwanted(t: Tables, c: Schedule, id: nat, order: seq<string>, now: int)
    requires id < |t.vouchers| && !Wants(t.vouchers[id])
    ensures Ledger.ImmediateVoucher(t, c, id, order, now) == Some(t)
  {
  }

  /** Filtering first changes nothing: each voucher is read as it was. */
  lemma {:induction false} WantedSame(t: Tables, c: Schedule, ids: seq<nat>, orders: map<nat, seq<string>>, now: int)
    requires Distinct(ids) && forall i :: 0 <= i < |ids| ==> ids[i] < |t.vouchers|
    ensures Ledger.ImmediateAll(t, c, ids, orders, now) == Ledger.ImmediateAll(t, c, Wanted(t.vouchers, ids), orders, now)
  {
    if ids != [] {
      hide Ledger.ImmediateVoucher;
      var n := |ids| - 1;
      WantedSame(t, c, ids[..n], orders, now);
      var w := Wanted(t.vouchers, ids[..n]);
      WantedFrom(t.vouchers, ids[..n]);
      assert (w + [ids[n]])[..|w|] == w;
      var p := Ledger.ImmediateAll(t, c, w, orders, now);
      assert Ledger.ImmediateAll(t, c, ids[..n], orders, now) == p;
      if Wants(t.vouchers[ids[n]]) {
        assert Wanted(t.vouchers, ids) == w + [ids[n]];
      } else {
        assert Wanted(t.vouchers, ids) == w;
        if p.Some? {
          ImmediateFrame(t, c, w, orders, now);
          assert ids[n] !in ids[..n];
          Unwanted(p.value, c, ids[n], Ledger.OrderFor(orders, ids[n]), now);
        }
      }
    }
  }

  lemma {:induction false} OrdersFrame(t: Tables, c: Schedule, ids: seq<nat>, o: map<nat, seq<string>>, p: map<nat, seq<string>>, now: int)
    requires forall id :: id in ids ==> Ledger.OrderFor(o, id) == Ledger.OrderFor(p, id)
    ensures Ledger.ImmediateAll(t, c, ids, o, now) == Ledger.ImmediateAll(t, c, ids, p, now)
  {
    if ids != [] { OrdersFrame(t, c, ids[..|ids| - 1], o, p, now); }
  }

  /** The keys of a split are the codes, whatever the balance. */
  lemma SplitKeys(a: int, b: int, codes: seq<RefundCode>, order: seq<string>)
    ensures Enumerates(order, SplitOf(a, codes)) ==> Enumerates(order, SplitOf(b, codes))
  {
    assert SplitOf(a, codes).Keys == SplitOf(b, codes).Keys;
  }

  ghost predicate AllOrders(t: Tables, ids: seq<nat>, orders: map<nat, seq<string>>) {
    forall id :: id in ids && id < |t.vouchers| ==> OrderOk(t, id, t.vouchers[id].codes, Ledger.OrderFor(orders, id))
  }

  lemma {:induction false} OrdersGood(t: Tables, c: Schedule, ids: seq<nat>, orders: map<nat, seq<string>>, now: int)
    requires AllOrders(t, ids, orders)
    ensures ImmediateOrdersOk(t, c, ids, orders, now)
  {
    if ids != [] {
      var n := |ids| - 1;
      OrdersGood(t, c, ids[..n], orders, now);
      if Ledger.ImmediateAll(t, c, ids[..n], orders, now).Some? {
        ImmediateFrame(t, c, ids[..n], orders, now);
        var u := Ledger.ImmediateAll(t, c, ids[..n], orders, now).value;
        if ids[n] < |t.vouchers| {
          SplitKeys(t.vouchers[ids[n]].balance, u.vouchers[ids[n]].balance, t.vouchers[ids[n]].codes, Ledger.OrderFor(orders, ids[n]));
        }
      }
    }
  }

  lemma {:induction false} LiveDistinct(vs: seq<Voucher>, batch: string, now: int)
    ensures Distinct(Ledger.LiveInBatch(vs, batch, now))
    ensures forall id :: id in Ledger.LiveInBatch(vs, batch, now) ==> id < |vs|
  {
    if vs != [] {
      var n := |vs| - 1;
      LiveDistinct(vs[..n], batch, now);
      assert n !in Ledger.LiveInBatch(vs[..n], batch, now);
    }
  }

  lemma CreditedDistinct(vs: seq<Voucher>, target: FundTarget, total: int, now: int)
    requires Ledger.UpdateFundBalance(vs, target, total, now).Some?
    ensures var ids := Ledger.UpdateFundBalance(vs, target, total, now).value.credited; FirstSeen(ids) == ids
  {
    match target {
      case ToVoucher(id) =>
        FirstSeenDistinct([id]);
      case ToBatch(batch) =>
        LiveDistinct(vs, batch, now);
        FirstSeenDistinct(Ledger.LiveInBatch(vs, batch, now));
    }
  }

  /** One more of the picked vouchers. */
  lemma ImmediateOn(t: Tables, c: Schedule, ids: seq<nat>, k: nat, o: map<nat, seq<string>>, order: seq<string>, now: int)
    requires k < |ids| && Distinct(ids) && Ledger.ImmediateAll(t, c, ids[..k], o, now).Some?
    ensures var p := o[ids[k] := order];
      && Ledger.ImmediateAll(t, c, ids[..k], p, now) == Ledger.ImmediateAll(t, c, ids[..k], o, now)
      && Ledger.ImmediateAll(t, c, ids[..k + 1], p, now)
         == Ledger.ImmediateVoucher(Ledger.ImmediateAll(t, c, ids[..k], o, now).value, c, ids[k], order, now)
      && (forall j :: k <= j < |ids| && ids[j] < |t.vouchers| ==>
            ids[j] < |Ledger.ImmediateAll(t, c, ids[..k], o, now).value.vouchers|
            && Ledger.ImmediateAll(t, c, ids[..k], o, now).value.vouchers[ids[j]] == t.vouchers[ids[j]])
  {
    hide Ledger.ImmediateVoucher;
    var p := o[ids[k] := order];
    assert ids[..k + 1][..k] == ids[..k];
    OrdersFrame(t, c, ids[..k], o, p, now);
    ImmediateFrame(t, c, ids[..k], o, now);
    assert forall i :: 0 <= i < k ==> ids[..k][i] == ids[i];
  }

  lemma MissingFails(t: Tables, c: Schedule, ids: seq<nat>, orders: map<nat, seq<string>>, now: int)
    requires exists id :: id in ids && id >= |t.vouchers|
    ensures Ledger.ImmediateAll(t, c, ids, orders, now).None?
  {
    if Ledger.ImmediateAll(t, c, ids, orders, now).Some? { ImmediateFrame(t, c, ids, orders, now); }
  }

  lemma OrdersAnyhow(t: Tables, ids: seq<nat>) returns (orders: map<nat, seq<string>>)
    ensures AllOrders(t, ids, orders)
  {
    orders := map[];
    for k := 0 to |ids|
      invariant AllOrders(t, ids[..k], orders)
    {
      var order := [];
      if ids[k] < |t.vouchers| { order := AnOrder(t, ids[k], t.vouchers[ids[k]].codes); }
      assert ids[..k + 1] == ids[..k] + [ids[k]];
      orders := orders[ids[k] := order];
    }
    assert ids[..|ids|] == ids;
  }

  lemma AllNone(t: Tables, c: Schedule, ids: seq<nat>, orders: map<nat, seq<string>>, now: int)
    ensures Ledger.ImmediateAll(t, c, ids[..0], orders, now) == Some(t)
  {
  }

  lemma OrderHere(t: Tables, u: Tables, id: nat, order: seq<string>)
    requires id < |t.vouchers| && id < |u.vouchers| && t.vouchers[id] == u.vouchers[id]
    requires OrderOk(u, id, u.vouchers[id].codes, order)
    ensures OrderOk(t, id, t.vouchers[id].codes, order)
  {
  }

  lemma OrdersPut(t: Tables, ids: seq<nat>, orders: map<nat, seq<string>>, id: nat, order: seq<string>)
    requires AllOrders(t, ids, orders) && (id < |t.vouchers| ==> OrderOk(t, id, t.vouchers[id].codes, order))
    ensures AllOrders(t, ids, orders[id := order])
  {
  }

  /** One split in the walk. */
  lemma FanOutNext(c: Schedule, id: nat, m: map<string, int>, order: seq<string>, code: string)
    requires code in m
    ensures var net := m[code] - CalculateRedeemFee(c, m[code]);
      Ledger.FanOutRows(c, id, m, order + [code]) == Ledger.FanOutRows(c, id, m, order)
        + if net < DUST_THRESHOLD then []
          else [RefundTx(id, code, net - net % 1000, CalculateRedeemFee(c, m[code]), net % 1000, 0, false, false, NoKey, 0)]
  {
    FanOutAdd(c, id, m, order, code);
  }

  class Db {
    var vouchers: seq<Voucher>
    var funds: seq<FundTx>
    var redeems: seq<RedeemTx>
    var refunds: seq<RefundTx>
    var transfers: seq<TransferTx>
    var operators: seq<OperatorTx>
    var fingerprints: set<(nat, string)>
    var sessions: map<string, Session>

    function View(): Tables
      reads this
    {
      Tables(vouchers, funds, redeems, refunds, transfers, operators, fingerprints, sessions)
    }

    /** Undo everything since the transaction began. */
    method Rollback(saved: Tables)
      modifies this
      ensures View() == saved
    {
      vouchers, funds, redeems, refunds := saved.vouchers, saved.funds, saved.redeems, saved.refunds;
      transfers, operators, fingerprints, sessions := saved.transfers, saved.operators, saved.fingerprints, saved.sessions;
    }

    // ----- voucher balances -----

    method UpdateVoucherBalance(id: nat, msats: int, now: int) returns (ok: bool)
      modifies `vouchers
      ensures match Ledger.UpdateVoucherBalance(old(vouchers), id, msats, now)
              case None => !ok && vouchers == old(vouchers)
              case Some(w) => ok && vouchers == w
    {
      if id >= |vouchers| || vouchers[id].balance < -msats {
        return false;
      }
      var v := vouchers[id];
      var active := v.active;
      if msats < 0 && v.singleUse {
        active := false;
      }
      vouchers := vouchers[id := v.(balance := v.balance + msats, active := active, updatedAt := now)];
      return true;
    }

    method AddVoucherBalance(id: nat, msats: int, now: int)
      modifies `vouchers
      ensures vouchers == Ledger.AddVoucherBalance(old(vouchers), id, msats, now)
    {
      if id < |vouchers| {
        var v := vouchers[id];
        vouchers := vouchers[id := v.(balance := v.balance + msats, active := true, updatedAt := now)];
      }
    }

    method CreditEach(ids: seq<nat>, share: int, now: int) returns (ok: bool)
      modifies `vouchers
      ensures match Ledger.CreditAll(old(vouchers), ids, share, now)
              case None => !ok
              case Some(w) => ok && vouchers == w
    {
      for k := 0 to |ids|
        invariant Ledger.CreditAll(old(vouchers), ids[..k], share, now) == Some(vouchers)
      {
        assert ids[..k + 1][..k] == ids[..k];
        var done := UpdateVoucherBalance(ids[k], share, now);
        if !done {
          CreditStops(old(vouchers), ids, k + 1, share, now);
          return false;
        }
      }
      assert ids[..|ids|] == ids;
      return true;
    }

    method VouchersByBatch(batch: string, now: int) returns (ids: seq<nat>)
      ensures ids == Ledger.LiveInBatch(vouchers, batch, now)
    {
      ids := [];
      for k := 0 to |vouchers|
        invariant ids == Ledger.LiveInBatch(vouchers[..k], batch, now)
      {
        assert vouchers[..k + 1][..k] == vouchers[..k];
        var v := vouchers[k];
        if v.batch == batch && v.active {
          var expired;
          if v.absoluteExpiry {
            expired := v.createdAt + v.refundAfter < now;
          } else {
            expired := v.updatedAt != 0 && v.updatedAt + v.refundAfter < now;
          }
          if expired {
            continue;
          }
          ids := ids + [k];
        }
      }
      assert vouchers[..|vouchers|] == vouchers;
    }

    // ----- refund rows out of a balance -----

    /** The loop over the splits, in whatever order the map yields them. */
    method InsertRefunds(c: Schedule, id: nat, splits: map<string, int>) returns (anyInserted: bool, ghost order: seq<string>)
      modifies `refunds
      ensures Enumerates(order, splits)
      ensures refunds == old(refunds) + Ledger.FanOutRows(c, id, splits, order)
      ensures anyInserted <==> Ledger.FanOutRows(c, id, splits, order) != []
    {
      hide Ledger.FanOutRows, CalculateRedeemFee, Walked;
      anyInserted, order := false, [];
      var left := splits.Keys;
      WalkStart(c, id, splits);
      while left != {}
        invariant Walked(order, left, splits)
        invariant refunds == old(refunds) + Ledger.FanOutRows(c, id, splits, order)
        invariant anyInserted <==> Ledger.FanOutRows(c, id, splits, order) != []
      {
        var code :| code in left;
        WalkIn(order, left, splits);
        WalkOn(order, left, splits, code);
        FanOutNext(c, id, splits, order, code);
        left, order := left - {code}, order + [code];
        var dbTxFee := CalculateRedeemFee(c, splits[code]);
        var net := splits[code] - dbTxFee;
        if net < DUST_THRESHOLD {
          continue;
        }
        var dust := net % 1000;
        net := net - dust;
        refunds := refunds + [RefundTx(id, code, net, dbTxFee, dust, 0, false, false, NoKey, 0)];
        anyInserted := true;
      }
      WalkEnd(order, splits);
    }

    method AnyAboveMin(c: Schedule, splits: map<string, int>) returns (any: bool)
      ensures any == Ledger.AnyAboveMin(c, splits)
    {
      var left := splits.Keys;
      while left != {}
        invariant left <= splits.Keys
        invariant forall k :: k in splits && k !in left ==> PriceRefund(c, splits[k]).BelowMin?
      {
        var code :| code in left;
        left := left - {code};
        if splits[code] - CalculateRedeemFee(c, splits[code]) >= DUST_THRESHOLD {
          assert PriceRefund(c, splits[code]).Row?;
          return true;
        }
      }
      return false;
    }

    /** One voucher of the expiry pass; `codes` were read before the transaction. */
    method ProcessExpired(c: Schedule, id: nat, codes: seq<RefundCode>, now: int) returns (ghost order: seq<string>)
      modifies this
      ensures OrderOk(old(View()), id, codes, order)
      ensures View() == Ledger.ExpireVoucher(old(View()), c, id, codes, order, now)
    {
      if id >= |vouchers| || vouchers[id].balance <= 0 {
        order := AnOrder(View(), id, codes);
        return;
      }
      var currentBalance := vouchers[id].balance;
      var splits := SplitBalance(currentBalance, codes);
      var anyInserted;
      anyInserted, order := InsertRefunds(c, id, splits);
      if !anyInserted {
        var refundCode := "";
        if |codes| > 0 {
          refundCode := codes[0].code;
        }
        refunds := refunds + [RefundTx(id, refundCode, 0, 0, currentBalance, 0, true, false, NoKey, 0)];
      }
      vouchers := vouchers[id := vouchers[id].(balance := 0, active := false, updatedAt := now)];
    }

    /** One voucher of the regular pass; `readBalance` is what the pass had seen before. */
    method ProcessRegular(c: Schedule, id: nat, readBalance: int, codes: seq<RefundCode>, newLastAt: int)
      returns (ghost order: seq<string>)
      modifies this
      ensures OrderOk(old(View()), id, codes, order)
      ensures readBalance == 0 ==>
        View() == old(View()).(vouchers := Ledger.AdvanceSchedule(old(vouchers), id, newLastAt))
      ensures readBalance != 0 ==>
        View() == Ledger.RegularVoucher(old(View()), c, id, codes, order, newLastAt)
    {
      if id >= |vouchers| {
        return [];
      }
      var v := vouchers[id];
      order := AnOrder(View(), id, codes);
      if readBalance == 0 {
        vouchers := vouchers[id := v.(lastAt := newLastAt)];
        return;
      }
      var splits := SplitBalance(v.balance, codes);
      var anyAboveMin := AnyAboveMin(c, splits);
      if v.balance == 0 || !anyAboveMin {
        vouchers := vouchers[id := v.(lastAt := newLastAt)];
      } else {
        var anyInserted;
        anyInserted, order := InsertRefunds(c, id, splits);
        vouchers := vouchers[id := v.(balance := 0, lastAt := newLastAt)];
      }
    }

    /** One voucher of the immediate refunds. */
    method ImmediateOne(c: Schedule, id: nat, now: int) returns (ok: bool, ghost order: seq<string>)
      requires id < |vouchers| && vouchers[id].immediate
      modifies `vouchers, `refunds
      ensures OrderOk(old(View()), id, old(vouchers[id].codes), order)
      ensures match Ledger.ImmediateVoucher(old(View()), c, id, order, now)
              case None => !ok
              case Some(u) => ok && View() == u
    {
      var v := vouchers[id];
      order := AnOrder(View(), id, v.codes);
      if v.balance == 0 {
        return true, order;
      }
      if |v.codes| == 0 {
        return false, order;
      }
      var splits := SplitBalance(v.balance, v.codes);
      var anyAboveMin := AnyAboveMin(c, splits);
      if !anyAboveMin {
        return true, order;
      }
      var anyInserted;
      anyInserted, order := InsertRefunds(c, id, splits);
      vouchers := vouchers[id := v.(balance := 0, lastAt := now)];
      ok := true;
    }

    method Dedupe(ids: seq<nat>) returns (unique: seq<nat>)
      ensures unique == FirstSeen(ids)
    {
      var seen: set<nat> := {};
      unique := [];
      for k := 0 to |ids|
        invariant seen == (set x | x in ids[..k]) && unique == FirstSeen(ids[..k])
      {
        assert ids[..k + 1][..k] == ids[..k];
        assert ids[..k + 1] == ids[..k] + [ids[k]];
        if ids[k] in seen {
          continue;
        }
        seen := seen + {ids[k]};
        unique := unique + [ids[k]];
      }
      assert ids[..|ids|] == ids;
    }

    /** The ids that want an immediate refund; refused when one does not exist. */
    method PickImmediate(unique: seq<nat>) returns (ok: bool, immediateIDs: seq<nat>)
      ensures ok <==> forall id :: id in unique ==> id < |vouchers|
      ensures ok ==> immediateIDs == Wanted(vouchers, unique)
    {
      immediateIDs := [];
      for k := 0 to |unique|
        invariant forall j :: 0 <= j < k ==> unique[j] < |vouchers|
        invariant immediateIDs == Wanted(vouchers, unique[..k])
      {
        assert unique[..k + 1][..k] == unique[..k];
        if unique[k] >= |vouchers| {
          assert unique[k] in unique;
          return false, [];
        }
        if !vouchers[unique[k]].immediate || vouchers[unique[k]].balance == 0 {
          continue;
        }
        immediateIDs := immediateIDs + [unique[k]];
      }
      assert unique[..|unique|] == unique;
      return true, immediateIDs;
    }

    /** Drain every credited voucher that wants its refunds at once. */
    method InsertImmediateRefunds(c: Schedule, voucherIDs: seq<nat>, now: int) returns (ok: bool, ghost orders: map<nat, seq<string>>)
      modifies `vouchers, `refunds
      ensures ImmediateOrdersOk(old(View()), c, FirstSeen(voucherIDs), orders, now)
      ensures match Ledger.ImmediateAll(old(View()), c, FirstSeen(voucherIDs), orders, now)
              case None => !ok
              case Some(u) => ok && View() == u
    {
      hide Ledger.ImmediateVoucher, Ledger.ImmediateAll, OrderOk, ImmediateOrdersOk, AllOrders, FirstSeen, Wanted;
      ghost var t := View();
      var unique := Dedupe(voucherIDs);
      FirstSeenDistinct(voucherIDs);
      orders := OrdersAnyhow(t, unique);
      OrdersGood(t, c, unique, orders, now);
      var found, immediateIDs := PickImmediate(unique);
      if !found {
        MissingFails(t, c, unique, orders, now);
        return false, orders;
      }
      WantedFrom(vouchers, unique);
      assert forall i :: 0 <= i < |unique| ==> unique[i] in unique;
      AllNone(t, c, immediateIDs, orders, now);
      for k := 0 to |immediateIDs|
        invariant AllOrders(t, unique, orders)
        invariant Ledger.ImmediateAll(t, c, immediateIDs[..k], orders, now) == Some(View())
      {
        ImmediateOn(t, c, immediateIDs, k, orders, [], now);
        var id := immediateIDs[k];
        assert id in immediateIDs;
        ghost var before, u := orders, View();
        ghost var order;
        ok, order := ImmediateOne(c, id, now);
        ImmediateOn(t, c, immediateIDs, k, before, order, now);
        OrderHere(t, u, id, order);
        OrdersPut(t, unique, before, id, order);
        orders := orders[id := order];
        if !ok {
          ImmediateStops(t, c, immediateIDs, k + 1, orders, now);
          WantedSame(t, c, unique, orders, now);
          OrdersGood(t, c, unique, orders, now);
          return;
        }
      }
      assert immediateIDs[..|immediateIDs|] == immediateIDs;
      WantedSame(t, c, unique, orders, now);
      OrdersGood(t, c, unique, orders, now);
      ok := true;
    }

    // ----- transactions -----

    /** Credits for a confirmed fund row. On failure the caller rolls back. */
    method UpdateFundBalance(target: FundTarget, total: int, now: int) returns (ok: bool, dust: int, creditedIDs: seq<nat>)
      modifies `vouchers
      ensures match Ledger.UpdateFundBalance(old(vouchers), target, total, now)
              case None => !ok
              case Some(cr) => ok && cr == Ledger.Credit(vouchers, dust, creditedIDs)
    {
      dust, creditedIDs := 0, [];
      match target {
        case ToVoucher(id) =>
          if id >= |vouchers| || !Ledger.Usable(vouchers[id], now) {
            return false, dust, creditedIDs;
          }
          ok := UpdateVoucherBalance(id, total, now);
          creditedIDs := [id];
        case ToBatch(batch) =>
          var ids := VouchersByBatch(batch, now);
          if |ids| == 0 {
            return false, dust, creditedIDs;
          }
          var share := GoInt.Div(total, |ids|);
          share := GoInt.Div(share, 1000) * 1000;
          dust := total - share * |ids|;
          ok := CreditEach(ids, share, now);
          creditedIDs := ids;
      }
    }

    /** Confirmation of a fund row, all or nothing; a row no longer pending is left alone. */
    method ConfirmFund(c: Schedule, i: nat, received: int, now: int) returns (ghost orders: map<nat, seq<string>>)
      modifies this
      ensures FundOrdersOk(old(View()), c, i, received, orders, now)
      ensures View() == Ledger.ConfirmFund(old(View()), c, i, received, orders, now)
    {
      hide Ledger.ImmediateAll, Ledger.UpdateFundBalance, ImmediateOrdersOk, FirstSeen;
      orders := map[];
      var saved := View();
      if i >= |funds| || funds[i].status != Pending {
        return;
      }
      var f := funds[i];
      var fee := f.msat - received;
      if fee < 0 {
        fee := f.fee;
      }
      funds := funds[i := f.(status := Confirmed, fee := fee)];
      var ok, dust, creditedIDs := UpdateFundBalance(f.target, f.msat - fee, now);
      if !ok {
        Rollback(saved);
        return;
      }
      CreditedDistinct(saved.vouchers, f.target, f.msat - fee, now);
      ok, orders := InsertImmediateRefunds(c, creditedIDs, now);
      if !ok {
        Rollback(saved);
        return;
      }
      if dust > 0 {
        funds := funds[i := funds[i].(dust := dust)];
      }
    }

    /** A transfer; `read` is the source as it was looked up before the transaction. */
    method HandleTransfer(cfg: Ledger.Config, src: nat, read: Voucher, amount: int, d: Ledger.Destination,
                          fingerprint: string, now: int) returns (committed: bool)
      modifies this
      ensures match Ledger.Transfer(old(View()), cfg, src, read, amount, d, fingerprint, now)
              case None => !committed && View() == old(View())
              case Some(u) => committed && View() == u
    {
      hide Ledger.UpdateVoucherBalance, Ledger.CreditAll, CalculateInternalFee;
      if read.singleUse || (read.unique && fingerprint == "") || d == Ledger.Single(src) {
        return false;
      }
      var count := if d.Single? then 1 else |d.ids|;
      if count == 0 || amount < 1000 * count || amount > cfg.maxFund * count {
        return false;
      }
      if amount > read.balance || (read.maxRedeem > 0 && amount > read.maxRedeem) {
        return false;
      }
      var fee := CalculateInternalFee(cfg.fees, amount);
      var net := amount - fee;
      var saved := View();
      var ok := UpdateVoucherBalance(src, -amount, now);
      if !ok {
        Rollback(saved);
        return false;
      }
      var dust := 0;
      if d.Single? {
        ok := UpdateVoucherBalance(d.id, net, now);
      } else {
        var share := GoInt.Div(GoInt.Div(net, |d.ids|), 1000) * 1000;
        dust := net - share * |d.ids|;
        ok := CreditEach(d.ids, share, now);
      }
      if !ok {
        Rollback(saved);
        return false;
      }
      transfers := transfers + [TransferTx(amount, fee, net, dust)];
      if read.unique {
        if (src, fingerprint) in fingerprints {
          Rollback(saved);
          return false;
        }
        fingerprints := fingerprints + {(src, fingerprint)};
      }
      return true;
    }

    method InsertRedeemAndBalance(c: Schedule, id: nat, amount: int, now: int) returns (redeemID: Option<nat>)
      modifies this
      ensures match Ledger.BeginRedeem(old(View()), c, id, amount, now)
              case None => redeemID.None? && View() == old(View())
              case Some(u) => redeemID == Some(old(|redeems|)) && View() == u
    {
      hide CalculateRedeemFee;
      if id >= |vouchers| || !vouchers[id].active {
        return None;
      }
      var currentBalance := vouchers[id].balance;
      var dbTxFee := CalculateRedeemFee(c, currentBalance);
      if amount + dbTxFee > currentBalance {
        return None;
      }
      var ok := UpdateVoucherBalance(id, -amount - dbTxFee, now);
      assert ok;  // the balance covers both, so the guarded update takes effect
      redeems := redeems + [RedeemTx(id, amount, dbTxFee, 0, 0, Pending, false)];
      return Some(|redeems| - 1);
    }

    method UpdateRedeemTx(i: nat, status: Status, netFee: int, actualFee: int)
      modifies `redeems
      ensures |redeems| == |old(redeems)|
      ensures forall j :: 0 <= j < |redeems| && j != i ==> redeems[j] == old(redeems[j])
      ensures i < |redeems| ==> redeems[i] == old(redeems[i]).(status := status, dbTxFee := netFee, actualLnFee := actualFee)
    {
      if i < |redeems| {
        redeems := redeems[i := redeems[i].(status := status, dbTxFee := netFee, actualLnFee := actualFee)];
      }
    }

    /** A failed send: the row fails and the whole deduction is given back. */
    method PaymentFailed(i: nat, now: int)
      modifies this
      ensures View() == Ledger.FailRedeem(old(View()), i, now)
    {
      if i < |redeems| {
        var r := redeems[i];
        UpdateRedeemTx(i, Failed, 0, 0);
        AddVoucherBalance(r.voucher, r.msat + r.lnFee, now);
        assert redeems == old(redeems)[i := r.(status := Failed, dbTxFee := 0, actualLnFee := 0)];
      }
    }

    method MarkRedeemSessionUsed(k1: string, voucher: nat, now: int) returns (ok: bool)
      modifies `sessions
      ensures match Ledger.MarkSessionUsed(old(View()), k1, voucher, now)
              case None => !ok && View() == old(View())
              case Some(u) => ok && View() == u
    {
      if k1 !in sessions {
        return false;
      }
      var s := sessions[k1];
      if s.voucher != voucher || s.used || s.createdAt < now - Ledger.SESSION_WINDOW {
        return false;
      }
      sessions := sessions[k1 := s.(used := true)];
      return true;
    }

    // ----- refund rows -----

    method ResetKeyedInFlightRefunds() returns (n: nat)
      modifies `refunds
      ensures refunds == Ledger.ResetKeyedInFlight(old(refunds))
    {
      n := 0;
      for k := 0 to |refunds|
        invariant |refunds| == |old(refunds)|
        invariant forall j :: 0 <= j < k ==> refunds[j] == Ledger.Requeue(old(refunds)[j])
        invariant forall j :: k <= j < |refunds| ==> refunds[j] == old(refunds)[j]
      {
        var r := refunds[k];
        if r.inFlight && !r.refunded && r.key != NoKey {
          refunds := refunds[k := r.(inFlight := false)];
          n := n + 1;
        }
      }
    }

    /** Both updates are guarded by the row still being abandoned. */
    method RepriceAbandonedRefund(c: Schedule, i: nat)
      modifies `refunds
      ensures refunds == Ledger.RepriceAbandoned(old(refunds), c, i)
    {
      if i >= |refunds| || !Ledger.IsAbandoned(refunds[i]) {
        return;
      }
      var r := refunds[i];
      var gross := r.amount + r.dbTxFee + r.dust;
      var newFee := CalculateRedeemFee(c, gross);
      var net := gross - newFee;
      if net < DUST_THRESHOLD {
        refunds := refunds[i := r.(amount := 0, dbTxFee := 0, dust := gross, refunded := true, retry := 0)];
        return;
      }
      var dust := net % 1000;
      net := net - dust;
      refunds := refunds[i := r.(amount := net, dbTxFee := newFee, dust := dust, retry := 0)];
    }

    method RequeueAbandonedRefunds(c: Schedule)
      modifies `refunds
      ensures |refunds| == |old(refunds)|
      ensures forall j :: 0 <= j < |refunds| ==>
        refunds[j] == if Ledger.IsAbandoned(old(refunds)[j]) then Ledger.Repriced(c, old(refunds)[j]) else old(refunds)[j]
    {
      hide Ledger.Repriced;
      for k := 0 to |refunds|
        invariant |refunds| == |old(refunds)|
        invariant forall j :: 0 <= j < k ==>
          refunds[j] == if Ledger.IsAbandoned(old(refunds)[j]) then Ledger.Repriced(c, old(refunds)[j]) else old(refunds)[j]
        invariant forall j :: k <= j < |refunds| ==> refunds[j] == old(refunds)[j]
      {
        RepriceAbandonedRefund(c, k);
      }
    }

    // ----- operator rows -----

    method MarkOperatorTxConfirmed(i: nat, fee: int) returns (changed: bool)
      modifies `operators
      ensures operators == Ledger.ConfirmOperator(old(operators), i, fee)
      ensures changed <==> i < |old(operators)| && old(operators[i]).status == Pending
    {
      if i >= |operators| || operators[i].status != Pending {
        return false;
      }
      operators := operators[i := operators[i].(status := Confirmed, fee := fee)];
      return true;
    }
  }
}
