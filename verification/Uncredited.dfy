/** Paid invoices that stay uncredited: over any run nobody edits, and over restarts. */
module Uncredited {
  import opened Options
  import opened Fees
  import opened Schema
  import opened Ledger
  import opened LedgerEffects
  import opened Service
  import opened Frames
  import opened Solvency
  import opened RegularRuns
  import opened Crediting
  import Database

  lemma {:induction false} LiveIsUsable(vs: seq<Voucher>, batch: string, now: int)
    ensures forall id: nat :: id in LiveInBatch(vs, batch, now) <==> id < |vs| && vs[id].batch == batch && Usable(vs[id], now)
  {
    if vs != [] {
      var n := |vs| - 1;
      LiveIsUsable(vs[..n], batch, now);
      forall id: nat ensures id in LiveInBatch(vs, batch, now) <==> id < |vs| && vs[id].batch == batch && Usable(vs[id], now) {
        if id < n { assert vs[..n][id] == vs[id]; }
      }
    }
  }

  /** A lapsed voucher stays lapsed as time goes by. */
  lemma UnusableLater(v: Voucher, now: int, later: int)
    requires !Usable(v, now) && now <= later
    ensures !Usable(v, later)
  {
  }

  predicate Concerns(vs: seq<Voucher>, i: nat, target: FundTarget) {
    i < |vs| &&
    match target
    case ToVoucher(id) => id == i
    case ToBatch(batch) => vs[i].batch == batch
  }

  /** No voucher the invoice could credit is usable. */
  ghost predicate Dead(vs: seq<Voucher>, target: FundTarget, now: int) {
    forall i: nat :: Concerns(vs, i, target) ==> !Usable(vs[i], now)
  }

  lemma DeadCannot(vs: seq<Voucher>, target: FundTarget, total: int, now: int, later: int)
    requires Dead(vs, target, now) && now <= later
    ensures !CanCredit(vs, target, total, later)
  {
    forall i: nat | Concerns(vs, i, target) ensures !Usable(vs[i], later) { UnusableLater(vs[i], now, later); }
    match target {
      case ToVoucher(id) => assert id < |vs| ==> Concerns(vs, id, target);
      case ToBatch(batch) =>
        LiveIsUsable(vs, batch, later);
        var ids := LiveInBatch(vs, batch, later);
        if ids != [] { assert ids[0] in ids && Concerns(vs, ids[0], target); }
    }
  }

  /** The row of the invoice is left alone by every step whose clock is late enough. */
  lemma RowStays(w: World, c: Config, s: Step, f: nat, now: int)
    requires Enabled(w, c, s) && f < |w.t.funds| && w.t.funds[f].status == Pending && Dead(w.t.vouchers, w.t.funds[f].target, now)
    requires s.Fund? ==> now <= s.now
    ensures f < |Next(w, c, s).t.funds| && Next(w, c, s).t.funds[f] == w.t.funds[f]
  {
    hide ConfirmFund, Dead, CanCredit, RedeemNext, RedeemEnabled, RefundNext, RefundEnabled, OperatorNext, OperatorEnabled,
         WalletNext, WalletEnabled;
    if s.Fund? {
      var received := w.sdk.receipts[s.fund];
      ConfirmFundFrame(w.t, c.fees, s.fund, received, s.orders, s.now);
      if s.fund == f {
        CreditedExactly(w.t, c.fees, f, received, s.orders, s.now);
        DeadCannot(w.t.vouchers, w.t.funds[f].target, w.t.funds[f].msat - ReceiveFee(w.t.funds[f], received), now, s.now);
      }
    } else {
      TableFrame(w, c, s);
      assert Next(w, c, s).t.funds[f] == Next(w, c, s).t.funds[..|w.t.funds|][f];
    }
  }

  // ----- restarts -----

  lemma {:induction false} CreditAllOthers(vs: seq<Voucher>, ids: seq<nat>, share: int, now: int, i: nat)
    requires CreditAll(vs, ids, share, now).Some? && i < |vs| && i !in ids
    ensures var us := CreditAll(vs, ids, share, now).value; i < |us| && us[i] == vs[i]
  {
    if ids != [] { CreditAllOthers(vs, ids[..|ids| - 1], share, now, i); }
  }

  lemma CreditSpares(vs: seq<Voucher>, target: FundTarget, total: int, now: int, i: nat)
    requires UpdateFundBalance(vs, target, total, now).Some? && i < |vs| && !Usable(vs[i], now)
    ensures var cr := UpdateFundBalance(vs, target, total, now).value;
      i < |cr.vouchers| && cr.vouchers[i] == vs[i] && i !in cr.credited
  {
    if target.ToBatch? {
      var ids := LiveInBatch(vs, target.batch, now);
      LiveIsUsable(vs, target.batch, now);
      CreditAllOthers(vs, ids, Share(total, |ids|), now, i);
    }
  }

  /** A confirmation does not touch a voucher that is not usable. */
  lemma FundSpares(t: Tables, c: Schedule, f: nat, received: int, orders: map<nat, seq<string>>, now: int, i: nat)
    requires i < |t.vouchers| && !Usable(t.vouchers[i], now)
    ensures var us := ConfirmFund(t, c, f, received, orders, now).vouchers;
      |us| == |t.vouchers| && us[i] == t.vouchers[i]
  {
    hide UpdateFundBalance, ImmediateAll, Usable;
    FundCalmer(t, c, f, received, orders, now);
    if f < |t.funds| && t.funds[f].status == Pending {
      var fee := ReceiveFee(t.funds[f], received);
      var o := UpdateFundBalance(t.vouchers, t.funds[f].target, t.funds[f].msat - fee, now);
      if o.Some? {
        CreditSpares(t.vouchers, t.funds[f].target, t.funds[f].msat - fee, now, i);
        var u := t.(vouchers := o.value.vouchers, funds := t.funds[f := t.funds[f].(status := Confirmed, fee := fee)]);
        if ImmediateAll(u, c, o.value.credited, orders, now).Some? {
          Database.ImmediateFrame(u, c, o.value.credited, orders, now);
        }
      }
    }
  }

  /** What happens while the process restarts: it dies, payments end or arrive, and the catch-up
      confirms invoices. */
  predicate Restarting(s: Step, now: int) {
    IsWalletStep(s) || (s.Fund? && now <= s.now)
  }

  lemma DeadStays(w: World, c: Config, s: Step, target: FundTarget, now: int)
    requires Enabled(w, c, s) && Restarting(s, now) && Dead(w.t.vouchers, target, now)
    ensures Dead(Next(w, c, s).t.vouchers, target, now)
  {
    hide ConfirmFund, Usable, RedeemNext, RedeemEnabled, RefundNext, RefundEnabled, OperatorNext, OperatorEnabled;
    if s.Fund? {
      var us := Next(w, c, s).t.vouchers;
      FundCalmer(w.t, c.fees, s.fund, w.sdk.receipts[s.fund], s.orders, s.now);
      forall i: nat | Concerns(us, i, target) ensures !Usable(us[i], now) {
        assert CalmRow(w.t.vouchers[i], us[i]);
        assert Concerns(w.t.vouchers, i, target);
        UnusableLater(w.t.vouchers[i], now, s.now);
        FundSpares(w.t, c.fees, s.fund, w.sdk.receipts[s.fund], s.orders, s.now, i);
      }
    } else {
      hide Next, Enabled;
      WalletTables(w, c, s);
    }
  }

  lemma WalletTables(w: World, c: Config, s: Step)
    requires Enabled(w, c, s) && IsWalletStep(s)
    ensures Next(w, c, s).t == w.t
  {
    hide *;
    ByKind(w, c, s);
    WalletFrame(w, c, s);
  }

  /** A paid invoice with no usable voucher stops every restart: however often the process dies and
      catches up, the row stays pending and its confirmation fails again. */
  lemma {:induction false} StuckAtStartup(ws: seq<World>, cs: seq<Config>, ss: seq<Step>, f: nat, now: int)
    requires Run(ws, cs, ss) && f < |ws[0].t.funds| && ws[0].t.funds[f].status == Pending
    requires Dead(ws[0].t.vouchers, ws[0].t.funds[f].target, now)
    requires forall k :: 0 <= k < |ss| ==> Restarting(ss[k], now)
    ensures var t := ws[|ss|].t;
      && f < |t.funds| && t.funds[f] == ws[0].t.funds[f] && Dead(t.vouchers, t.funds[f].target, now)
      && forall total, later :: now <= later ==> !CanCredit(t.vouchers, t.funds[f].target, total, later)
    decreases |ss|
  {
    hide Next, Enabled, Dead, CanCredit;
    if ss != [] {
      var n := |ss| - 1;
      RunPrefix(ws, cs, ss);
      StuckAtStartup(ws[..|ss|], cs[..n], ss[..n], f, now);
      DeadStays(ws[n], cs[n], ss[n], ws[0].t.funds[f].target, now);
      FundClock(ss[n], now);
      RowStays(ws[n], cs[n], ss[n], f, now);
    }
    forall total, later | now <= later ensures !CanCredit(ws[|ss|].t.vouchers, ws[0].t.funds[f].target, total, later) {
      DeadCannot(ws[|ss|].t.vouchers, ws[0].t.funds[f].target, total, now, later);
    }
  }

  lemma FundClock(s: Step, now: int)
    requires Restarting(s, now)
    ensures s.Fund? ==> now <= s.now
  {
  }

  // ----- absolute expiry -----

  /** Past a date that does not move. */
  predicate Past(v: Voucher, now: int) {
    v.absoluteExpiry && v.createdAt + v.refundAfter < now
  }

  ghost predicate Barred(vs: seq<Voucher>, target: FundTarget, now: int) {
    forall i: nat :: Concerns(vs, i, target) ==> Past(vs[i], now)
  }

  lemma BarredIsDead(vs: seq<Voucher>, target: FundTarget, now: int)
    requires Barred(vs, target, now)
    ensures Dead(vs, target, now)
  {
  }

  predicate Fixed(v: Voucher, u: Voucher) {
    u == v.(balance := u.balance, active := u.active, updatedAt := u.updatedAt, lastAt := u.lastAt)
  }

  /** Rows are kept, and keep what `Fixed` says. */
  ghost predicate AllFixed(vs: seq<Voucher>, us: seq<Voucher>, created: bool) {
    |us| == |vs| + (if created then 1 else 0) && forall i :: 0 <= i < |vs| ==> Fixed(vs[i], us[i])
  }

  lemma RedeemFixed(t: Tables, c: Schedule, v: nat, amount: int, now: int, i: nat)
    ensures BeginRedeem(t, c, v, amount, now).Some? ==>
      AllFixed(t.vouchers, BeginRedeem(t, c, v, amount, now).value.vouchers, false)
    ensures AllFixed(t.vouchers, FailRedeem(t, i, now).vouchers, false)
  {
    hide CalculateRedeemFee;
  }

  lemma SameIsFixed(vs: seq<Voucher>)
    ensures AllFixed(vs, vs, false)
  {
  }

  lemma FixedByRedeem(w: World, c: Config, s: Step)
    requires IsRedeemStep(s) && RedeemEnabled(w, c, s)
    ensures AllFixed(w.t.vouchers, RedeemNext(w, c, s).t.vouchers, false)
  {
    hide BeginRedeem, FailRedeem, AllFixed, Honest;
    SameIsFixed(w.t.vouchers);
    match s {
      case Redeem(v, amount, now) => RedeemFixed(w.t, c.fees, v, amount, now, 0);
      case RedeemFails(i, now) => RedeemFixed(w.t, c.fees, 0, 0, now, i);
      case ResolveRedeem(i, now) => RedeemFixed(w.t, c.fees, 0, 0, now, i);
      case _ =>
    }
  }

  lemma CalmIsFixed(vs: seq<Voucher>, us: seq<Voucher>)
    requires Calmer(vs, us)
    ensures AllFixed(vs, us, false)
  {
    forall i | 0 <= i < |vs| ensures Fixed(vs[i], us[i]) { assert CalmRow(vs[i], us[i]); }
  }

  lemma FixedByBooks(w: World, c: Config, s: Step)
    requires IsBooksStep(s) && BooksEnabled(w, c, s) && !s.Edit?
    ensures AllFixed(w.t.vouchers, BooksNext(w, c, s).t.vouchers, s.CreateVoucher?)
  {
    hide RegularVoucher, ConfirmFund, Transfer, ExpireVoucher, OrderOk, FundOrdersOk, Calmer;
    if s.Fund? || s.Move? || s.Expire? {
      WrittenRows(w, c, s);
      CalmIsFixed(w.t.vouchers, BooksNext(w, c, s).t.vouchers);
    } else if s.Regular? && s.id < |w.t.vouchers| {
      RegularWrites(w.t, c.fees, s.id, s.codes, s.order, s.last);
    } else if s.Regular? {
      NoVoucher(w, c, s);
    }
  }

  /** Every step but an edit leaves the batch, the expiry rule and the dates of every voucher alone. */
  lemma VouchersFixed(w: World, c: Config, s: Step)
    requires Enabled(w, c, s) && !s.Edit?
    ensures AllFixed(w.t.vouchers, Next(w, c, s).t.vouchers, s.CreateVoucher?)
  {
    hide *;
    ByKind(w, c, s);
    CreatesByBooks(s);
    SameIsFixed(w.t.vouchers);
    if IsRedeemStep(s) { FixedByRedeem(w, c, s); }
    else if IsBooksStep(s) { FixedByBooks(w, c, s); }
    else { TableFrame(w, c, s); }
  }

  lemma CreatesByBooks(s: Step)
    ensures s.CreateVoucher? ==> IsBooksStep(s) && !IsRedeemStep(s)
  {
  }

  /** The step neither edits a voucher of the target nor adds one, and reads a clock past `now` if it
      confirms an invoice. */
  predicate Apart(vs: seq<Voucher>, s: Step, target: FundTarget, now: int) {
    match s
    case Edit(id, _, _) => !Concerns(vs, id, target)
    case CreateVoucher(p, later) => !Concerns(vs + [NewVoucher(p, later)], |vs|, target)
    case Fund(_, _, later) => now <= later
    case _ => true
  }

  lemma BarredStays(w: World, c: Config, s: Step, target: FundTarget, now: int)
    requires Enabled(w, c, s) && Apart(w.t.vouchers, s, target, now) && Barred(w.t.vouchers, target, now)
    ensures Barred(Next(w, c, s).t.vouchers, target, now)
  {
    var vs, us := w.t.vouchers, Next(w, c, s).t.vouchers;
    if s.Edit? {
      EditedRows(vs, s.id, s.params, s.now);
      assert us == EditVoucher(vs, s.id, s.params, s.now);
      forall i: nat | Concerns(us, i, target) ensures Past(us[i], now) { assert Concerns(vs, i, target); }
    } else {
      if s.CreateVoucher? { assert us == vs + [NewVoucher(s.params, s.now)]; }
      hide Next, Enabled;
      VouchersFixed(w, c, s);
      forall i: nat | Concerns(us, i, target) ensures Past(us[i], now) {
        if i < |vs| { assert Fixed(vs[i], us[i]) && Concerns(vs, i, target); }
      }
    }
  }

  lemma EditedRows(vs: seq<Voucher>, id: nat, p: Voucher, now: int)
    ensures var us := EditVoucher(vs, id, p, now);
      |us| == |vs| && forall i :: 0 <= i < |vs| ==> us[i].batch == vs[i].batch && (i != id ==> us[i] == vs[i])
  {
  }

  /** A paid invoice whose vouchers are past an absolute expiry is never credited, in any run that
      leaves them unedited: not by what funds, moves, redeems, restores or refunds them. */
  lemma {:induction false} NeverCredited(ws: seq<World>, cs: seq<Config>, ss: seq<Step>, f: nat, now: int)
    requires Run(ws, cs, ss) && f < |ws[0].t.funds| && ws[0].t.funds[f].status == Pending
    requires Barred(ws[0].t.vouchers, ws[0].t.funds[f].target, now)
    requires forall k :: 0 <= k < |ss| ==> Apart(ws[k].t.vouchers, ss[k], ws[0].t.funds[f].target, now)
    ensures var t := ws[|ss|].t;
      && f < |t.funds| && t.funds[f] == ws[0].t.funds[f] && Barred(t.vouchers, t.funds[f].target, now)
      && forall total, later :: now <= later ==> !CanCredit(t.vouchers, t.funds[f].target, total, later)
    decreases |ss|
  {
    hide Next, Enabled, Dead, Barred, Apart, CanCredit;
    var target := ws[0].t.funds[f].target;
    if ss != [] {
      var n := |ss| - 1;
      RunPrefix(ws, cs, ss);
      NeverCredited(ws[..|ss|], cs[..n], ss[..n], f, now);
      BarredIsDead(ws[n].t.vouchers, target, now);
      ApartClock(ws[n].t.vouchers, ss[n], target, now);
      BarredStays(ws[n], cs[n], ss[n], target, now);
      RowStays(ws[n], cs[n], ss[n], f, now);
    }
    BarredIsDead(ws[|ss|].t.vouchers, target, now);
    forall total, later | now <= later ensures !CanCredit(ws[|ss|].t.vouchers, target, total, later) {
      DeadCannot(ws[|ss|].t.vouchers, target, total, now, later);
    }
  }

  lemma ApartClock(vs: seq<Voucher>, s: Step, target: FundTarget, now: int)
    requires Apart(vs, s, target, now)
    ensures s.Fund? ==> now <= s.now
  {
  }
}
