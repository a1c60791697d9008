/** One fee schedule is needed for solvency: a run across a schedule change that ends
    with the wallet short of the books. */
module ScheduleChange {
  import opened Options
  import opened Sums
  import opened Schema
  import opened Fees
  import opened Ledger
  import opened LedgerEffects
  import opened Service
  import opened ServiceSteps
  import opened Solvency

  const OLD := Config(Schedule(0, 1000, 0, 0), 0)
  const NEW := Config(Schedule(0, 2000, 0, 0), 0)
  const STEEP := Config(Schedule(0, 6000, 0, 0), 0)

  function RowOf(amount: int, fee: int, refunded: bool, inFlight: bool, key: Key, retry: nat): RefundTx {
    RefundTx(0, "c", amount, fee, 0, 0, refunded, inFlight, key, retry)
  }

  function TablesOf(r: RefundTx): Tables {
    Tables([], [], [], [r], [], [], {}, map[])
  }

  const START := World(TablesOf(RowOf(5000, 1000, false, false, NoKey, 0)), Sdk(6000, map[], map[], []), map[], map[], Idle)

  const FIRST := Payment(Lightning, 5000, 0, Some(0), Completed)
  const SECOND := Payment(Lightning, 4000, 0, Some(0), Completed)

  /** Worlds along the run: the same row with other prices, the same SDK after the send. */
  function At(r: RefundTx, paid: bool, worker: WorkerPc): World {
    START.(t := TablesOf(r), worker := worker,
           sdk := if paid then Sdk(1000, map[], map[KRefund(0) := FIRST], [Outflow(Owner.Refund(0), KRefund(0), 5000, 0)]) else START.sdk)
  }

  lemma Extend(ws: seq<World>, cs: seq<Config>, ss: seq<Step>, c: Config, s: Step) returns (wr: seq<World>, cr: seq<Config>, sr: seq<Step>)
    requires Run(ws, cs, ss) && Enabled(ws[|ss|], c, s)
    ensures Run(wr, cr, sr) && wr[0] == ws[0] && wr[|sr|] == Next(ws[|ss|], c, s)
  {
    wr, cr, sr := ws + [Next(ws[|ss|], c, s)], cs + [c], ss + [s];
  }

  /** A pending row is picked up and marked in flight under its key. */
  lemma PickedUp(ws: seq<World>, cs: seq<Config>, ss: seq<Step>, c: Config, r: RefundTx, paid: bool)
    returns (wr: seq<World>, cr: seq<Config>, sr: seq<Step>)
    requires Run(ws, cs, ss) && IsPending(r) && (r.key == NoKey || r.key == KRefund(0))
    requires ws[|ss|] == At(r, paid, Idle)
    ensures Run(wr, cr, sr) && wr[0] == ws[0]
    ensures wr[|sr|] == At(r.(inFlight := true, key := KRefund(0)), paid, Marked(0, r, KRefund(0)))
  {
    hide RedeemNext, RedeemEnabled, OperatorNext, OperatorEnabled, WalletNext, WalletEnabled, BooksNext, BooksEnabled,
         Run;
    wr, cr, sr := Extend(ws, cs, ss, c, RefundStarts(0));
    assert wr[|sr|] == At(r, paid, Chosen(0, r));
    wr, cr, sr := Extend(wr, cr, sr, c, RefundMarks);
    assert wr[|sr|].t.refunds == [r.(inFlight := true, key := KRefund(0))];
  }

  /** One attempt: picked up, then paid. */
  lemma Attempt(ws: seq<World>, cs: seq<Config>, ss: seq<Step>, c: Config, r: RefundTx, paid: bool, p: Payment)
    returns (wr: seq<World>, cr: seq<Config>, sr: seq<Step>)
    requires Run(ws, cs, ss) && IsPending(r) && (r.key == NoKey || r.key == KRefund(0))
    requires ws[|ss|] == At(r, paid, Idle) && (!paid ==> p == FIRST) && Honest(p, r.amount / 1000 * 1000, 0)
    ensures Run(wr, cr, sr) && wr[0] == ws[0]
    ensures wr[|sr|] == At(r.(inFlight := true, key := KRefund(0)), true, PaidOut(0, r, 0))
  {
    hide RedeemNext, RedeemEnabled, OperatorNext, OperatorEnabled, WalletNext, WalletEnabled, BooksNext, BooksEnabled,
         Run;
    wr, cr, sr := PickedUp(ws, cs, ss, c, r, paid);
    wr, cr, sr := Extend(wr, cr, sr, c, RefundSends(p, 0));
  }

  lemma Crashed(ws: seq<World>, cs: seq<Config>, ss: seq<Step>) returns (wr: seq<World>, cr: seq<Config>, sr: seq<Step>)
    requires Run(ws, cs, ss)
    requires ws[|ss|] == At(RowOf(5000, 1000, false, true, KRefund(0), 0), true, PaidOut(0, RowOf(5000, 1000, false, false, NoKey, 0), 0))
    ensures Run(wr, cr, sr) && wr[0] == ws[0]
    ensures wr[|sr|] == At(RowOf(5000, 1000, false, true, KRefund(0), 0), true, Idle)
  {
    hide Run, RedeemNext, RedeemEnabled, RefundNext, RefundEnabled, OperatorNext, OperatorEnabled, BooksNext,
         BooksEnabled;
    wr, cr, sr := Extend(ws, cs, ss, OLD, Crash);
  }

  lemma Restart(ws: seq<World>, cs: seq<Config>, ss: seq<Step>) returns (wr: seq<World>, cr: seq<Config>, sr: seq<Step>)
    requires Run(ws, cs, ss)
    requires ws[|ss|] == At(RowOf(5000, 1000, false, true, KRefund(0), 0), true, PaidOut(0, RowOf(5000, 1000, false, false, NoKey, 0), 0))
    ensures Run(wr, cr, sr) && wr[0] == ws[0]
    ensures wr[|sr|] == At(RowOf(5000, 1000, false, false, KRefund(0), 0), true, Idle)
  {
    hide Run, RedeemNext, RedeemEnabled, OperatorNext, OperatorEnabled, WalletNext, WalletEnabled, BooksNext,
         BooksEnabled;
    wr, cr, sr := Crashed(ws, cs, ss);
    wr, cr, sr := Extend(wr, cr, sr, OLD, Requeue);
    assert wr[|sr|].t.refunds == [RowOf(5000, 1000, false, false, KRefund(0), 0)];
  }

  /** Marked and paid, then the process dies before booking. */
  lemma PaidThenCrashed() returns (ws: seq<World>, cs: seq<Config>, ss: seq<Step>)
    ensures Run(ws, cs, ss) && ws[0] == START
    ensures ws[|ss|] == At(RowOf(5000, 1000, false, false, KRefund(0), 0), true, Idle)
  {
    hide Next, Enabled;
    ws, cs, ss := [START], [], [];
    ws, cs, ss := Attempt(ws, cs, ss, OLD, RowOf(5000, 1000, false, false, NoKey, 0), false, FIRST);
    ws, cs, ss := Restart(ws, cs, ss);
  }

  lemma Refused(ws: seq<World>, cs: seq<Config>, ss: seq<Step>, retry: nat) returns (wr: seq<World>, cr: seq<Config>, sr: seq<Step>)
    requires Run(ws, cs, ss) && retry < MAX_RETRIES
    requires ws[|ss|] == At(RowOf(5000, 1000, false, false, KRefund(0), retry), true, Idle)
    ensures Run(wr, cr, sr) && wr[0] == ws[0]
    ensures wr[|sr|] == At(RowOf(5000, 1000, false, false, KRefund(0), retry + 1), true, Idle)
  {
    hide RedeemNext, RedeemEnabled, OperatorNext, OperatorEnabled, WalletNext, WalletEnabled, BooksNext, BooksEnabled;
    wr, cr, sr := Extend(ws, cs, ss, OLD, RefundStarts(0));
    wr, cr, sr := Extend(wr, cr, sr, OLD, RefundRefused);
    assert wr[|sr|].t.refunds == [RowOf(5000, 1000, false, false, KRefund(0), retry + 1)];
  }

  /** Repriced under the new schedule, answered with the old payment, booked. */
  lemma RepricedAndBooked(ws: seq<World>, cs: seq<Config>, ss: seq<Step>) returns (wr: seq<World>, cr: seq<Config>, sr: seq<Step>)
    requires Run(ws, cs, ss)
    requires ws[|ss|] == At(RowOf(5000, 1000, false, false, KRefund(0), 3), true, Idle)
    ensures Run(wr, cr, sr) && wr[0] == ws[0]
    ensures wr[|sr|] == At(RowOf(4000, 2000, true, false, KRefund(0), 0), true, Idle)
  {
    hide RedeemNext, RedeemEnabled, OperatorNext, OperatorEnabled, WalletNext, WalletEnabled, BooksNext, BooksEnabled;
    wr, cr, sr := Extend(ws, cs, ss, NEW, Reprice(0));
    var r := RowOf(4000, 2000, false, false, KRefund(0), 0);
    assert wr[|sr|].t.refunds == [r];
    wr, cr, sr := Attempt(wr, cr, sr, NEW, r, true, SECOND);
    wr, cr, sr := Extend(wr, cr, sr, NEW, RefundEnds);
    assert wr[|sr|].t.refunds == [RowOf(4000, 2000, true, false, KRefund(0), 0)];
  }

  lemma BalanceOf(r: RefundTx, paid: bool)
    ensures Balance(At(r, paid, Idle))
            == (if paid then 1000 + (if r.refunded then 0 else 5000) else 6000) - RefundValue(r)
  {
    var w := At(r, paid, Idle);
    assert RefundValues(w.t.refunds) == [] + [RefundValue(r)];
    SumAppend([], RefundValue(r));
    var u := if r.refunded then 0 else GrossOut(w.sdk.sent, KRefund(0));
    assert UnbookedRefunds(w.t.refunds, w.sdk.sent) == [] + [u];
    SumAppend([], u);
  }

  lemma StartSteady()
    ensures Steady(OLD.fees, START)
  {
  }

  lemma EndShort()
    ensures var w := At(RowOf(4000, 2000, true, false, KRefund(0), 0), true, Idle);
      SentUnbooked(w) == 0 && w.sdk.wallet < Explained(w.t)
  {
    var r := RowOf(4000, 2000, true, false, KRefund(0), 0);
    var w := At(r, true, Idle);
    assert UnbookedRefunds(w.t.refunds, w.sdk.sent) == [0];
    assert RefundValues(w.t.refunds) == [] + [RefundValue(r)];
    SumAppend([], RefundValue(r));
  }

  /** The wallet starts exactly covering the books and ends 1000 msat short: the payment of
      5000 that left is booked at the repriced 4000. */
  lemma ScheduleChangeLosesMoney() returns (ws: seq<World>, cs: seq<Config>, ss: seq<Step>)
    ensures Run(ws, cs, ss) && Steady(OLD.fees, ws[0])
    ensures Balance(ws[0]) == 0 && Balance(ws[|ss|]) == -1000
    ensures SentUnbooked(ws[|ss|]) == 0 && ws[|ss|].sdk.wallet < Explained(ws[|ss|].t)
  {
    hide Next, Enabled, Balance, SentUnbooked, Explained, Steady;
    ws, cs, ss := AbandonedAfterPayment();
    ws, cs, ss := RepricedAndBooked(ws, cs, ss);
    StartSteady();
    BalanceOf(RowOf(5000, 1000, false, false, NoKey, 0), false);
    BalanceOf(RowOf(4000, 2000, true, false, KRefund(0), 0), true);
    EndShort();
  }

  /** Paid, forgotten in a crash, refused three times. */
  lemma AbandonedAfterPayment() returns (ws: seq<World>, cs: seq<Config>, ss: seq<Step>)
    ensures Run(ws, cs, ss) && ws[0] == START && ws[|ss|] == At(RowOf(5000, 1000, false, false, KRefund(0), 3), true, Idle)
  {
    hide Next, Enabled;
    ws, cs, ss := PaidThenCrashed();
    ws, cs, ss := Refused(ws, cs, ss, 0);
    ws, cs, ss := Refused(ws, cs, ss, 1);
    ws, cs, ss := Refused(ws, cs, ss, 2);
  }

  /** The other way to lose: under a steeper minimum fee the row is not payable any more and is
      retained as dust, all of it, although 5000 of it left. No booking follows. */
  lemma RetainedAfterPayment() returns (ws: seq<World>, cs: seq<Config>, ss: seq<Step>)
    ensures Run(ws, cs, ss) && Steady(OLD.fees, ws[0])
    ensures Balance(ws[0]) == 0 && Balance(ws[|ss|]) == -5000
  {
    hide RedeemNext, RedeemEnabled, OperatorNext, OperatorEnabled, WalletNext, WalletEnabled, BooksNext, BooksEnabled,
         Run, Balance, Steady;
    ws, cs, ss := AbandonedAfterPayment();
    ws, cs, ss := Extend(ws, cs, ss, STEEP, Reprice(0));
    var r := RefundTx(0, "c", 0, 0, 6000, 0, true, false, KRefund(0), 0);
    assert ws[|ss|].t.refunds == [r];
    StartSteady();
    BalanceOf(RowOf(5000, 1000, false, false, NoKey, 0), false);
    BalanceOf(r, true);
  }
}
