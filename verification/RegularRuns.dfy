/** The regular schedule over whole runs of the service. */
module RegularRuns {
  import opened Options
  import opened Schema
  import opened Ledger
  import opened LedgerEffects
  import opened Service
  import opened Frames
  import opened Solvency
  import opened Fees
  import opened Split
  import opened RefundClock

  predicate SameSchedule(v: Voucher, read: Voucher) {
    read.firstAt == v.firstAt && read.interval == v.interval && read.lastAt == v.lastAt && read.immediate == v.immediate
  }

  /** How a pass comes to a mark: it reads its clock, queries the due vouchers on a later clock, and
      computes the anchor of the copy it read on the first. Only the schedule fields must still be
      the same when the row is marked. */
  predicate MarkOf(v: Voucher, read: Voucher, passNow: int, queried: int, last: int) {
    && SameSchedule(v, read) && RegularDue(read, queried) && passNow <= queried && read.interval > 0
    && last == Anchor(Start(read.firstAt, read.lastAt), read.interval, passNow)
  }

  /** The mark of some pass; of one that found the voucher due on its first clock too, if `prompt`. */
  ghost predicate OnTime(vs: seq<Voucher>, id: nat, last: int, prompt: bool) {
    id < |vs| ==> exists read, passNow, queried :: MarkOf(vs[id], read, passNow, queried, last) && (prompt ==> DueAt(read) <= passNow)
  }

  /** A pass marks what it read. Edits and new vouchers have passed validation. */
  ghost predicate Punctual(w: World, s: Step, prompt: bool) {
    match s
    case Regular(id, _, _, last) => OnTime(w.t.vouchers, id, last, prompt)
    case Advance(id, last) => OnTime(w.t.vouchers, id, last, prompt)
    case Edit(_, p, _) => Scheduled(p)
    case CreateVoucher(p, _) => Scheduled(p)
    case _ => true
  }

  predicate AllOnGrid(vs: seq<Voucher>, strict: bool) {
    forall i :: 0 <= i < |vs| ==> OnGrid(vs[i], strict)
  }

  lemma CalmerOnGrid(vs: seq<Voucher>, us: seq<Voucher>, strict: bool)
    requires AllOnGrid(vs, strict) && Calmer(vs, us)
    ensures AllOnGrid(us, strict)
  {
    forall i | 0 <= i < |us| ensures OnGrid(us[i], strict) { assert OnGrid(vs[i], strict) && CalmRow(vs[i], us[i]); }
  }

  /** The anchor of the copy that was read moves the row as it is now. */
  lemma MarkMoves(v: Voucher, read: Voucher, passNow: int, queried: int, last: int, strict: bool)
    requires OnGrid(v, strict) && MarkOf(v, read, passNow, queried, last) && (strict ==> DueAt(read) <= passNow)
    ensures OnGrid(v.(lastAt := last), strict)
  {
    if strict { AnchorAdvances(read, passNow, queried); } else { MarkOnGrid(read, passNow); }
  }

  lemma RegularWrites(t: Tables, c: Schedule, id: nat, codes: seq<RefundCode>, order: seq<string>, last: int)
    requires id < |t.vouchers|
    ensures var u := RegularVoucher(t, c, id, codes, order, last).vouchers;
      |u| == |t.vouchers| && u == t.vouchers[id := t.vouchers[id].(balance := u[id].balance, lastAt := last)]
  {
    hide SplitOf, FanOutRows, AnyAboveMin;
  }

  lemma PassWrites(w: World, c: Config, s: Step)
    requires BooksEnabled(w, c, s) && (s.Regular? || s.Advance?) && s.id < |w.t.vouchers|
    ensures var u := BooksNext(w, c, s).t.vouchers;
      && |u| == |w.t.vouchers| && u[s.id].lastAt == s.last
      && (forall strict :: OnGrid(w.t.vouchers[s.id].(lastAt := s.last), strict) <==> OnGrid(u[s.id], strict))
      && (forall t :: RegularDue(u[s.id], t) ==> RegularDue(w.t.vouchers[s.id].(lastAt := s.last), t))
      && forall i :: 0 <= i < |u| && i != s.id ==> u[i] == w.t.vouchers[i]
  {
    hide RegularVoucher, OrderOk;
    if s.Regular? { RegularWrites(w.t, c.fees, s.id, s.codes, s.order, s.last); }
  }

  /** A pass moves one voucher strictly forward on its lattice if and only if it was due already at
      the pass's own clock, and then it is not due again before one interval passed, whatever
      happened to its balance or activity since it was read. */
  lemma RegularStep(w: World, c: Config, s: Step, read: Voucher, passNow: int, queried: int)
    requires BooksEnabled(w, c, s) && (s.Regular? || s.Advance?) && s.id < |w.t.vouchers|
    requires MarkOf(w.t.vouchers[s.id], read, passNow, queried, s.last) && AllOnGrid(w.t.vouchers, true)
    ensures var v, u := w.t.vouchers[s.id], BooksNext(w, c, s).t.vouchers;
      && u[s.id].lastAt == s.last
      && (s.last > v.lastAt && AllOnGrid(u, true) <==> DueAt(v) <= passNow)
      && (DueAt(v) <= passNow ==> forall later :: later < s.last + v.interval ==> !RegularDue(u[s.id], later))
  {
    hide BooksNext, BooksEnabled, RegularDue, OnGrid, Anchor;
    var v := w.t.vouchers[s.id];
    SameLattice(v, read, queried, s.last);
    AnchorAdvances(read, passNow, queried);
    PassWrites(w, c, s);
    var u := BooksNext(w, c, s).t.vouchers;
    forall i | 0 <= i < |u| && i != s.id ensures OnGrid(u[i], true) { assert u[i] == w.t.vouchers[i]; }
    assert AllOnGrid(u, true) ==> OnGrid(u[s.id], true);
  }

  lemma SameLattice(v: Voucher, read: Voucher, queried: int, last: int)
    requires SameSchedule(v, read) && OnGrid(v, true) && RegularDue(read, queried)
    ensures OnLattice(read) && DueAt(read) == DueAt(v)
    ensures OnLattice(read.(lastAt := last)) <==> OnGrid(v.(lastAt := last), true)
    ensures last >= DueAt(v) ==> forall t :: RegularDue(v.(lastAt := last), t) ==> t >= last + v.interval
  {
  }

  lemma PassOnGrid(w: World, c: Config, s: Step, strict: bool)
    requires BooksEnabled(w, c, s) && (s.Regular? || s.Advance?) && Punctual(w, s, strict) && AllOnGrid(w.t.vouchers, strict)
    requires s.id < |w.t.vouchers|
    ensures AllOnGrid(BooksNext(w, c, s).t.vouchers, strict)
  {
    hide BooksNext, BooksEnabled, OnGrid, MarkOf;
    var v := w.t.vouchers[s.id];
    assert OnTime(w.t.vouchers, s.id, s.last, strict);
    var read, passNow, queried :| MarkOf(v, read, passNow, queried, s.last) && (strict ==> DueAt(read) <= passNow);
    MarkMoves(v, read, passNow, queried, s.last, strict);
    PassWrites(w, c, s);
    var u := BooksNext(w, c, s).t.vouchers;
    forall i | 0 <= i < |u| ensures OnGrid(u[i], strict) {
      if i != s.id { assert u[i] == w.t.vouchers[i]; }
    }
  }

  lemma WrittenRows(w: World, c: Config, s: Step)
    requires BooksEnabled(w, c, s) && (s.Fund? || s.Move? || s.Expire?)
    ensures Calmer(w.t.vouchers, BooksNext(w, c, s).t.vouchers)
  {
    hide ConfirmFund, Transfer, ExpireVoucher, Calmer, FundOrdersOk, OrderOk;
    SameIsCalm(w.t.vouchers);
    match s {
      case Fund(i, orders, now) => FundCalmer(w.t, c.fees, i, w.sdk.receipts[i], orders, now);
      case Move(src, read, amount, d, fp, now) =>
        if Transfer(w.t, c, src, read, amount, d, fp, now).Some? { TransferCalmer(w.t, c, src, read, amount, d, fp, now); }
      case Expire(id, codes, order, now) => ExpireCalmer(w.t, c.fees, id, codes, order, now);
    }
  }

  lemma ExpireCalmer(t: Tables, c: Schedule, id: nat, codes: seq<RefundCode>, order: seq<string>, now: int)
    ensures Calmer(t.vouchers, ExpireVoucher(t, c, id, codes, order, now).vouchers)
  {
  }

  lemma RedeemRows(t: Tables, c: Schedule, v: nat, amount: int, now: int, i: nat, strict: bool)
    requires AllOnGrid(t.vouchers, strict)
    ensures BeginRedeem(t, c, v, amount, now).Some? ==> AllOnGrid(BeginRedeem(t, c, v, amount, now).value.vouchers, strict)
    ensures AllOnGrid(FailRedeem(t, i, now).vouchers, strict)
  {
    hide CalculateRedeemFee;
  }

  lemma RedeemsOnGrid(w: World, c: Config, s: Step, strict: bool)
    requires IsRedeemStep(s) && RedeemEnabled(w, c, s) && AllOnGrid(w.t.vouchers, strict)
    ensures AllOnGrid(RedeemNext(w, c, s).t.vouchers, strict)
  {
    hide BeginRedeem, FailRedeem, AllOnGrid, Honest;
    match s {
      case Redeem(v, amount, now) => RedeemRows(w.t, c.fees, v, amount, now, 0, strict);
      case RedeemFails(i, now) => RedeemRows(w.t, c.fees, 0, 0, now, i, strict);
      case ResolveRedeem(i, now) => RedeemRows(w.t, c.fees, 0, 0, now, i, strict);
      case _ =>
    }
  }

  lemma BooksOnGrid(w: World, c: Config, s: Step, strict: bool)
    requires IsBooksStep(s) && BooksEnabled(w, c, s) && Punctual(w, s, strict) && AllOnGrid(w.t.vouchers, strict)
    ensures AllOnGrid(BooksNext(w, c, s).t.vouchers, strict)
  {
    if s.Fund? || s.Move? || s.Expire? {
      hide BooksNext, BooksEnabled, AllOnGrid;
      WrittenRows(w, c, s);
      CalmerOnGrid(w.t.vouchers, BooksNext(w, c, s).t.vouchers, strict);
    } else {
      PassOrEdit(w, c, s, strict);
    }
  }

  lemma PassOrEdit(w: World, c: Config, s: Step, strict: bool)
    requires IsBooksStep(s) && BooksEnabled(w, c, s) && Punctual(w, s, strict) && AllOnGrid(w.t.vouchers, strict)
    requires !s.Fund? && !s.Move? && !s.Expire?
    ensures AllOnGrid(BooksNext(w, c, s).t.vouchers, strict)
  {
    hide RegularVoucher, OrderOk;
    if s.Regular? || s.Advance? {
      if s.id < |w.t.vouchers| { PassOnGrid(w, c, s, strict); } else { NoVoucher(w, c, s); }
    }
  }

  lemma NoVoucher(w: World, c: Config, s: Step)
    requires BooksEnabled(w, c, s) && (s.Regular? || s.Advance?) && s.id >= |w.t.vouchers|
    ensures BooksNext(w, c, s).t.vouchers == w.t.vouchers
  {
  }

  lemma StepOnGrid(w: World, c: Config, s: Step, strict: bool)
    requires Enabled(w, c, s) && Punctual(w, s, strict) && AllOnGrid(w.t.vouchers, strict)
    ensures AllOnGrid(Next(w, c, s).t.vouchers, strict)
  {
    hide *;
    ByKind(w, c, s);
    if IsRedeemStep(s) { RedeemsOnGrid(w, c, s, strict); }
    else if IsBooksStep(s) { BooksOnGrid(w, c, s, strict); }
    else { TableFrame(w, c, s); }
  }

  lemma {:induction false} RunOnGridOf(ws: seq<World>, cs: seq<Config>, ss: seq<Step>, strict: bool)
    requires Run(ws, cs, ss) && AllOnGrid(ws[0].t.vouchers, strict)
    requires forall i :: 0 <= i < |ss| ==> Punctual(ws[i], ss[i], strict)
    ensures AllOnGrid(ws[|ss|].t.vouchers, strict)
    decreases |ss|
  {
    hide Next, Enabled, Punctual, AllOnGrid;
    if ss != [] {
      var n := |ss| - 1;
      RunPrefix(ws, cs, ss);
      RunOnGridOf(ws[..|ss|], cs[..n], ss[..n], strict);
      StepOnGrid(ws[n], cs[n], ss[n], strict);
    }
  }

  /** In every reachable state, whatever falls between the two clocks of a pass, every voucher's last
      regular refund is unset or a whole number of intervals away from its first time. */
  lemma RunOnGrid(ws: seq<World>, cs: seq<Config>, ss: seq<Step>)
    requires Run(ws, cs, ss) && AllOnGrid(ws[0].t.vouchers, false)
    requires forall i :: 0 <= i < |ss| ==> Punctual(ws[i], ss[i], false)
    ensures AllOnGrid(ws[|ss|].t.vouchers, false)
  {
    RunOnGridOf(ws, cs, ss, false);
  }

  /** If every pass found its voucher due on its first clock too, it is unset or a scheduled time. */
  lemma RunOnLattice(ws: seq<World>, cs: seq<Config>, ss: seq<Step>)
    requires Run(ws, cs, ss) && AllOnGrid(ws[0].t.vouchers, true)
    requires forall i :: 0 <= i < |ss| ==> Punctual(ws[i], ss[i], true)
    ensures forall i :: 0 <= i < |ws[|ss|].t.vouchers| ==> OnLattice(ws[|ss|].t.vouchers[i])
  {
    RunOnGridOf(ws, cs, ss, true);
  }
}
