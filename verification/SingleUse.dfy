/** A single-use voucher is redeemed at most once. */
module SingleUseVouchers {
  import opened Options
  import opened Sums
  import opened Split
  import opened Schema
  import opened Fees
  import opened Ledger
  import opened LedgerEffects
  import opened Service
  import opened Frames
  import opened Solvency

  /** Redeems of a voucher that are pending or went through. */
  function Uses(s: seq<RedeemTx>, v: nat): seq<int> {
    seq(|s|, i requires 0 <= i < |s| => if s[i].voucher == v && s[i].status != Failed then 1 else 0)
  }

  function UsesPlusActive(t: Tables, v: nat): int
    requires v < |t.vouchers|
  {
    Sum(Uses(t.redeems, v)) + if t.vouchers[v].active then 1 else 0
  }

  /** Once the voucher exists: active and unused, or one pending or successful redeem, or neither. */
  predicate AtMostOneUse(t: Tables, v: nat) {
    v < |t.vouchers| && t.vouchers[v].singleUse ==> UsesPlusActive(t, v) <= 1
  }

  lemma UsesPut(s: seq<RedeemTx>, i: nat, r: RedeemTx, v: nat)
    requires i < |s|
    ensures Sum(Uses(s[i := r], v)) == Sum(Uses(s, v)) - Uses(s, v)[i] + Uses([r], v)[0]
  {
    assert Uses(s[i := r], v) == Uses(s, v)[i := Uses([r], v)[0]];
    SumUpdate(Uses(s, v), i, Uses([r], v)[0]);
  }

  lemma UsesAdd(s: seq<RedeemTx>, r: RedeemTx, v: nat)
    ensures Sum(Uses(s + [r], v)) == Sum(Uses(s, v)) + Uses([r], v)[0]
  {
    assert Uses(s + [r], v) == Uses(s, v) + Uses([r], v);
    assert Uses([r], v) == [Uses([r], v)[0]];
    SumAppend(Uses(s, v), Uses([r], v)[0]);
  }

  /** No voucher becomes active or changes kind, and none appears. */
  ghost predicate Tamer(vs: seq<Voucher>, us: seq<Voucher>) {
    |us| == |vs| && forall i :: 0 <= i < |vs| ==> us[i].singleUse == vs[i].singleUse && (us[i].active ==> vs[i].active)
  }

  lemma StillOneUse(t: Tables, u: Tables, v: nat)
    requires AtMostOneUse(t, v) && u.redeems == t.redeems && |u.vouchers| == |t.vouchers|
    requires v < |t.vouchers| ==>
      u.vouchers[v].singleUse == t.vouchers[v].singleUse && (u.vouchers[v].active ==> t.vouchers[v].active)
    ensures AtMostOneUse(u, v)
  {
  }

  lemma CalmIsTame(vs: seq<Voucher>, us: seq<Voucher>)
    requires Calmer(vs, us)
    ensures Tamer(vs, us)
  {
    forall i | 0 <= i < |vs| ensures us[i].singleUse == vs[i].singleUse && (us[i].active ==> vs[i].active) {
      assert CalmRow(vs[i], us[i]);
    }
  }

  // ----- redeem rows -----

  lemma BegunUse(t: Tables, c: Schedule, id: nat, amount: int, now: int, v: nat)
    requires AtMostOneUse(t, v) && amount > 0 && BeginRedeem(t, c, id, amount, now).Some?
    ensures AtMostOneUse(BeginRedeem(t, c, id, amount, now).value, v)
  {
    hide CalculateRedeemFee, Uses, Sum;
    BeginRedeemEffect(t, c, id, amount, now);
    var u := BeginRedeem(t, c, id, amount, now).value;
    UsesAdd(t.redeems, u.redeems[|t.redeems|], v);
    OneMore(u.redeems[|t.redeems|], v);
  }

  lemma OneMore(r: RedeemTx, v: nat)
    requires r.status != Failed
    ensures Uses([r], v)[0] == if r.voucher == v then 1 else 0
  {
  }

  /** A pending row changed, on a voucher that is as active as before or gave up a use. */
  lemma RowUse(t: Tables, i: nat, r: RedeemTx, us: seq<Voucher>, v: nat)
    requires AtMostOneUse(t, v) && i < |t.redeems| && r.voucher == t.redeems[i].voucher && t.redeems[i].status == Pending
    requires |us| == |t.vouchers| && (v < |us| ==> us[v].singleUse == t.vouchers[v].singleUse)
    requires v < |us| ==> (us[v].active ==> t.vouchers[v].active) || (r.status == Failed && r.voucher == v)
    ensures AtMostOneUse(t.(redeems := t.redeems[i := r], vouchers := us), v)
  {
    UsesPut(t.redeems, i, r, v);
  }

  lemma BookedUse(t: Tables, i: nat, fee: int, v: nat)
    requires AtMostOneUse(t, v) && i < |t.redeems| && t.redeems[i].status == Pending
    ensures AtMostOneUse(ConfirmRedeem(t, i, fee), v) && AtMostOneUse(StoreRedeemPayment(t, i), v)
  {
    hide AtMostOneUse;
    RowUse(t, i, ConfirmRedeem(t, i, fee).redeems[i], t.vouchers, v);
    RowUse(t, i, StoreRedeemPayment(t, i).redeems[i], t.vouchers, v);
  }

  lemma FailedUse(t: Tables, i: nat, now: int, v: nat)
    requires AtMostOneUse(t, v) && i < |t.redeems| && t.redeems[i].status == Pending
    ensures AtMostOneUse(FailRedeem(t, i, now), v)
  {
    hide AtMostOneUse;
    var u := FailRedeem(t, i, now);
    RowUse(t, i, u.redeems[i], u.vouchers, v);
  }

  lemma RedeemUse(w: World, c: Config, s: Step, v: nat)
    requires Inv(w) && IsRedeemStep(s) && RedeemEnabled(w, c, s) && AtMostOneUse(w.t, v)
    ensures AtMostOneUse(RedeemNext(w, c, s).t, v)
  {
    hide AtMostOneUse, BeginRedeem, ConfirmRedeem, StoreRedeemPayment, FailRedeem, InvFunds, InvOperators, InvRefunds, InvSdk;
    match s {
      case Redeem(id, amount, now) =>
        if BeginRedeem(w.t, c.fees, id, amount, now).Some? { BegunUse(w.t, c.fees, id, amount, now, v); }
      case RedeemFails(i, now) => FailedUse(w.t, i, now, v);
      case RedeemSends(i, p, quote) =>
      case RedeemNotes(i) => BookedUse(w.t, i, 0, v);
      case RedeemEnds(i) => BookedUse(w.t, i, w.redeeming[i].fee, v);
      case ResolveRedeem(i, now) =>
        FailedUse(w.t, i, now, v);
        if KRedeem(i) in w.sdk.sent { BookedUse(w.t, i, ActualSendFee(w.sdk.sent[KRedeem(i)], 0), v); }
    }
  }

  // ----- the other steps -----

  /** A new voucher has no redeems: no row points past the table. */
  lemma CreatedUse(w: World, p: Voucher, now: int, v: nat)
    requires Inv(w) && AtMostOneUse(w.t, v)
    ensures AtMostOneUse(w.t.(vouchers := w.t.vouchers + [NewVoucher(p, now)]), v)
  {
    if v == |w.t.vouchers| { SumZeros(Uses(w.t.redeems, v)); }
  }

  lemma MoneyTamer(w: World, c: Config, s: Step)
    requires BooksEnabled(w, c, s) && (s.Fund? || s.Move?)
    ensures Tamer(w.t.vouchers, BooksNext(w, c, s).t.vouchers)
  {
    hide ConfirmFund, Transfer, FundOrdersOk, Calmer, Tamer;
    SameIsCalm(w.t.vouchers);
    match s {
      case Fund(i, orders, now) => FundCalmer(w.t, c.fees, i, w.sdk.receipts[i], orders, now);
      case Move(src, read, amount, d, fp, now) =>
        if Transfer(w.t, c, src, read, amount, d, fp, now).Some? { TransferCalmer(w.t, c, src, read, amount, d, fp, now); }
    }
    CalmIsTame(w.t.vouchers, BooksNext(w, c, s).t.vouchers);
  }

  lemma BooksUse(w: World, c: Config, s: Step, v: nat)
    requires Inv(w) && IsBooksStep(s) && BooksEnabled(w, c, s) && AtMostOneUse(w.t, v) && (s.Edit? ==> s.id != v)
    ensures AtMostOneUse(BooksNext(w, c, s).t, v)
  {
    hide Inv, ConfirmFund, Transfer, FundOrdersOk, OrderOk, FanOutRows, UsesPlusActive;
    if s.CreateVoucher? {
      CreatedUse(w, s.params, s.now, v);
    } else {
      BooksFrame(w, c, s);
      if s.Fund? || s.Move? { MoneyTamer(w, c, s); }
      StillOneUse(w.t, BooksNext(w, c, s).t, v);
    }
  }

  lemma SingleUseStep(w: World, c: Config, s: Step, v: nat)
    requires Inv(w) && Enabled(w, c, s) && AtMostOneUse(w.t, v) && (s.Edit? ==> s.id != v)
    ensures AtMostOneUse(Next(w, c, s).t, v)
  {
    hide *;
    ByKind(w, c, s);
    if IsRedeemStep(s) {
      RedeemUse(w, c, s, v);
    } else if IsBooksStep(s) {
      BooksUse(w, c, s, v);
    } else {
      TableFrame(w, c, s);
      StillOneUse(w.t, Next(w, c, s).t, v);
    }
  }

  /** A single-use voucher nobody edits, created before or during the run, is redeemed at most
      once: in every reachable state its pending and successful redeems, plus one while it is
      active, are at most one, across failures, restores and startup recovery. */
  lemma {:induction false} SingleUse(ws: seq<World>, cs: seq<Config>, ss: seq<Step>, v: nat)
    requires Run(ws, cs, ss) && Inv(ws[0]) && AtMostOneUse(ws[0].t, v)
    requires forall i :: 0 <= i < |ss| && ss[i].Edit? ==> ss[i].id != v
    ensures AtMostOneUse(ws[|ss|].t, v)
    decreases |ss|
  {
    hide Next, Enabled, Inv, AtMostOneUse;
    if ss != [] {
      var n := |ss| - 1;
      RunPrefix(ws, cs, ss);
      SingleUse(ws[..|ss|], cs[..n], ss[..n], v);
      RunExact(ws[..|ss|], cs[..n], ss[..n]);
      SingleUseStep(ws[n], cs[n], ss[n], v);
    }
  }
}
