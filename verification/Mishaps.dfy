/** Concrete runs in which a crash costs money or loses sight of it, or a schedule is missed. */
module Mishaps {
  import opened Options
  import opened Sums
  import opened Schema
  import opened Fees
  import opened Ledger
  import opened LedgerEffects
  import opened Service
  import opened ServiceSteps
  import opened Solvency
  import opened RefundClock
  import opened RegularRuns
  import ScheduleChange

  const CONFIG := Config(Schedule(0, 1000, 0, 0), 0)

  function Fresh(wallet: nat): World {
    World(Tables([], [], [], [], [], [], {}, map[]), Sdk(wallet, map[], map[], []), map[], map[], Idle)
  }

  // ----- building runs -----

  /** From `w` the step leads to `v`, and its rise is `rise`. */
  ghost predicate Leads(w: World, s: Step, v: World, rise: int) {
    Enabled(w, CONFIG, s) && Next(w, CONFIG, s) == v && Rise(w, CONFIG, s) == rise
  }

  lemma Started(w: World) returns (ws: seq<World>, cs: seq<Config>, ss: seq<Step>)
    ensures Run(ws, cs, ss) && ss == [] && ws[0] == w
  {
    ws, cs, ss := [w], [], [];
  }

  /** One more step: the run goes on, and the corrected balance moves by the step's rise. */
  lemma Extend(ws: seq<World>, cs: seq<Config>, ss: seq<Step>, s: Step, v: World, rise: int)
    returns (wr: seq<World>, cr: seq<Config>, sr: seq<Step>)
    requires Run(ws, cs, ss) && Inv(ws[|ss|]) && Leads(ws[|ss|], s, v, rise)
    ensures Run(wr, cr, sr) && wr[0] == ws[0] && wr[|sr|] == v && Inv(v) && Balance(v) == Balance(ws[|ss|]) + rise
  {
    hide Inv, Balance, Rise, Next, Enabled;
    StepExact(ws[|ss|], CONFIG, s);
    wr, cr, sr := ws + [v], cs + [CONFIG], ss + [s];
  }

  function Dead(w: World): World {
    w.(redeeming := map[], withdrawing := map[], worker := Idle)
  }

  lemma Dying(w: World)
    ensures Leads(w, Crash, Dead(w), 0)
  {
    hide RedeemNext, RedeemRise, RefundNext, RefundRise, OperatorNext, OperatorRise, BooksNext, BooksRise;
  }

  /** A Spark payment of 5000 at a fee of 1000. */
  const SPARK := Payment(Spark, 5000, 1000, None, Completed)

  function Left(owner: Owner): Sdk {
    Sdk(4000, map[], map[KeyOf(owner) := SPARK], [Outflow(owner, KeyOf(owner), 5000, 1000)])
  }

  // ----- withdraws -----

  function Withdrawing(sdk: Sdk, row: OperatorTx, withdrawing: map<nat, WithdrawPc>): World {
    World(Tables([], [], [], [], [], [row], {}, map[]), sdk, map[], withdrawing, Idle)
  }

  function Withdraw5000(status: Status, stored: bool): OperatorTx {
    OperatorTx(OpWithdraw, status, 5000, 0, stored)
  }

  const UNSENT := Sdk(10000, map[], map[], [])

  lemma WithdrawBegins()
    ensures Leads(Fresh(10000), Step.Withdraw(5000), Withdrawing(UNSENT, Withdraw5000(Pending, false), map[0 := Inserted]), 0)
  {
    hide RedeemNext, RedeemRise, RefundNext, RefundRise, WalletNext, WalletRise, BooksNext, BooksRise,
         RedeemEnabled, RefundEnabled, WalletEnabled, BooksEnabled;
  }

  lemma WithdrawGoes()
    ensures Leads(Withdrawing(UNSENT, Withdraw5000(Pending, false), map[0 := Inserted]), WithdrawSends(0, SPARK, 1000),
                  Withdrawing(Left(Owner.Withdraw(0)), Withdraw5000(Pending, false), map[0 := Wired(1000)]), 0)
  {
    hide RedeemNext, RedeemRise, RefundNext, RefundRise, WalletNext, WalletRise, BooksNext, BooksRise,
         RedeemEnabled, RefundEnabled, WalletEnabled, BooksEnabled;
  }

  lemma WithdrawFiled(sdk: Sdk)
    ensures Leads(Withdrawing(sdk, Withdraw5000(Pending, false), map[0 := Wired(1000)]), WithdrawNotes(0),
                  Withdrawing(sdk, Withdraw5000(Pending, true), map[0 := Filed(1000)]), 0)
  {
    hide RedeemNext, RedeemRise, RefundNext, RefundRise, WalletNext, WalletRise, BooksNext, BooksRise,
         RedeemEnabled, RefundEnabled, WalletEnabled, BooksEnabled;
  }

  lemma WithdrawResolved(stored: bool)
    ensures var gone := Left(Owner.Withdraw(0));
      Leads(Withdrawing(gone, Withdraw5000(Pending, stored), map[]), ResolveWithdraw(0),
            Withdrawing(gone, Withdraw5000(if stored then Confirmed else Failed, stored), map[]), if stored then -1000 else 0)
  {
    hide RedeemNext, RedeemRise, RefundNext, RefundRise, WalletNext, WalletRise, BooksNext, BooksRise,
         RedeemEnabled, RefundEnabled, WalletEnabled, BooksEnabled;
  }

  /** A withdraw of 5000 leaves a wallet of 10000. */
  lemma WithdrawLeaves() returns (ws: seq<World>, cs: seq<Config>, ss: seq<Step>)
    ensures Run(ws, cs, ss) && ws[0] == Fresh(10000) && Inv(ws[|ss|])
    ensures ws[|ss|] == Withdrawing(Left(Owner.Withdraw(0)), Withdraw5000(Pending, false), map[0 := Wired(1000)])
    ensures Balance(ws[|ss|]) == Balance(ws[0]) == 10000
  {
    hide *;
    FreshBalance(10000);
    WithdrawBegins();
    WithdrawGoes();
    ws, cs, ss := Started(Fresh(10000));
    ws, cs, ss := Extend(ws, cs, ss, Step.Withdraw(5000),
                         Withdrawing(UNSENT, Withdraw5000(Pending, false), map[0 := Inserted]), 0);
    ws, cs, ss := Extend(ws, cs, ss, WithdrawSends(0, SPARK, 1000),
                         Withdrawing(Left(Owner.Withdraw(0)), Withdraw5000(Pending, false), map[0 := Wired(1000)]), 0);
  }

  lemma FreshBalance(wallet: nat)
    ensures Inv(Fresh(wallet)) && Balance(Fresh(wallet)) == wallet && Explained(Fresh(wallet).t) == 0
  {
    FreshStart(CONFIG.fees, wallet);
  }

  /** The process dies after the send; startup marks the withdraw failed. Of 10000 only 4000 are
      left, the books record no withdraw, and nothing is in transit. */
  lemma WithdrawLost() returns (ws: seq<World>, cs: seq<Config>, ss: seq<Step>)
    ensures Run(ws, cs, ss) && ws[0] == Fresh(10000)
    ensures ws[|ss|] == Withdrawing(Left(Owner.Withdraw(0)), Withdraw5000(Failed, false), map[])
    ensures LostRow(ws[|ss|], Owner.Withdraw(0)) && LostMoney(ws[|ss|]) == 6000 && SentUnbooked(ws[|ss|]) == 0
  {
    hide *;
    WithdrawResolved(false);
    WithdrawMissing();
    ws, cs, ss := WithdrawLeaves();
    ws, cs, ss := WithdrawDies(ws, cs, ss, false, map[0 := Wired(1000)]);
    ws, cs, ss := Extend(ws, cs, ss, ResolveWithdraw(0),
                         Withdrawing(Left(Owner.Withdraw(0)), Withdraw5000(Failed, false), map[]), 0);
  }

  lemma WithdrawDies(ws: seq<World>, cs: seq<Config>, ss: seq<Step>, stored: bool, withdrawing: map<nat, WithdrawPc>)
    returns (wr: seq<World>, cr: seq<Config>, sr: seq<Step>)
    requires Run(ws, cs, ss) && Inv(ws[|ss|])
    requires ws[|ss|] == Withdrawing(Left(Owner.Withdraw(0)), Withdraw5000(Pending, stored), withdrawing)
    ensures Run(wr, cr, sr) && wr[0] == ws[0] && Inv(wr[|sr|]) && Balance(wr[|sr|]) == Balance(ws[|ss|])
    ensures wr[|sr|] == Withdrawing(Left(Owner.Withdraw(0)), Withdraw5000(Pending, stored), map[])
  {
    hide *;
    var w := Withdrawing(Left(Owner.Withdraw(0)), Withdraw5000(Pending, stored), withdrawing);
    Dying(w);
    DeadWithdraw(Left(Owner.Withdraw(0)), Withdraw5000(Pending, stored), withdrawing);
    wr, cr, sr := Extend(ws, cs, ss, Crash, Dead(w), 0);
  }

  lemma DeadWithdraw(sdk: Sdk, row: OperatorTx, withdrawing: map<nat, WithdrawPc>)
    ensures Dead(Withdrawing(sdk, row, withdrawing)) == Withdrawing(sdk, row, map[])
  {
  }

  lemma WithdrawMissing()
    ensures var w := Withdrawing(Left(Owner.Withdraw(0)), Withdraw5000(Failed, false), map[]);
      LostRow(w, Owner.Withdraw(0)) && LostMoney(w) == 6000 && SentUnbooked(w) == 0
  {
    var w := Withdrawing(Left(Owner.Withdraw(0)), Withdraw5000(Failed, false), map[]);
    assert LostWithdraws(w.t.operators, w.sdk.sent, w.withdrawing) == [] + [6000];
    SumAppend([], 6000);
    SumZeros(UnbookedWithdraws(w.t.operators, w.sdk.sent, w.withdrawing));
  }

  /** The id is stored this time: startup confirms the withdraw at fee 0, and 1000 are missing. */
  lemma WithdrawFeeLost() returns (ws: seq<World>, cs: seq<Config>, ss: seq<Step>)
    ensures Run(ws, cs, ss) && ws[0] == Fresh(10000)
    ensures ws[|ss|] == Withdrawing(Left(Owner.Withdraw(0)), Withdraw5000(Confirmed, true), map[])
    ensures Balance(ws[0]) == 10000 && Balance(ws[|ss|]) == 9000
  {
    hide *;
    WithdrawFiled(Left(Owner.Withdraw(0)));
    WithdrawResolved(true);
    ws, cs, ss := WithdrawLeaves();
    ws, cs, ss := Extend(ws, cs, ss, WithdrawNotes(0),
                         Withdrawing(Left(Owner.Withdraw(0)), Withdraw5000(Pending, true), map[0 := Filed(1000)]), 0);
    ws, cs, ss := WithdrawDies(ws, cs, ss, true, map[0 := Filed(1000)]);
    ws, cs, ss := Extend(ws, cs, ss, ResolveWithdraw(0),
                         Withdrawing(Left(Owner.Withdraw(0)), Withdraw5000(Confirmed, true), map[]), -1000);
  }

  // ----- redeems -----

  function Plain(balance: int, created: int, updated: int): Voucher {
    Voucher("", [], 1000, true, balance, false, false, 0, false, 0, 0, 0, false, true, created, updated)
  }

  function Funding(voucher: Voucher, funds: seq<FundTx>, sdk: Sdk): World {
    World(Tables([voucher], funds, [], [], [], [], {}, map[]), sdk, map[], map[], Idle)
  }

  function Invoice(status: Status): FundTx {
    FundTx(ToVoucher(0), 10000, 0, 0, status)
  }

  const EMPTY := Sdk(0, map[], map[], [])
  const PAID := Sdk(10000, map[0 := 10000], map[], [])

  lemma VoucherMade()
    ensures Leads(Fresh(0), CreateVoucher(Plain(0, 0, 0), 1), Funding(Plain(0, 1, 0), [], EMPTY), 0)
  {
    hide RedeemNext, RedeemRise, RefundNext, RefundRise, OperatorNext, OperatorRise, ConfirmFund, Transfer, ExpireVoucher,
         RegularVoucher, RedeemEnabled, RefundEnabled, OperatorEnabled, FundOrdersOk, OrderOk;
  }

  lemma InvoiceMade()
    ensures Leads(Funding(Plain(0, 1, 0), [], EMPTY), CreateFund(ToVoucher(0), 10000, 0),
                  Funding(Plain(0, 1, 0), [Invoice(Pending)], EMPTY), 0)
  {
    hide RedeemNext, RedeemRise, RefundNext, RefundRise, OperatorNext, OperatorRise, ConfirmFund, Transfer, ExpireVoucher,
         RegularVoucher, RedeemEnabled, RefundEnabled, OperatorEnabled, FundOrdersOk, OrderOk;
  }

  lemma InvoicePaid()
    ensures Leads(Funding(Plain(0, 1, 0), [Invoice(Pending)], EMPTY), Receive(0, 10000),
                  Funding(Plain(0, 1, 0), [Invoice(Pending)], PAID), 0)
  {
    hide RedeemNext, RedeemRise, RefundNext, RefundRise, OperatorNext, OperatorRise, ConfirmFund, Transfer, ExpireVoucher,
         RegularVoucher, RedeemEnabled, RefundEnabled, OperatorEnabled, FundOrdersOk, OrderOk;
  }

  lemma Refundless(t: Tables)
    requires |t.vouchers| == 1 && !t.vouchers[0].immediate
    ensures ImmediateAll(t, CONFIG.fees, [0], map[], 2) == Some(t)
    ensures ImmediateAllSkipped(t, CONFIG.fees, [0], map[], 2) == 0 && ImmediateOrdersOk(t, CONFIG.fees, [0], map[], 2)
  {
    assert [0][..0] == [];
    assert ImmediateAll(t, CONFIG.fees, [], map[], 2) == Some(t);
  }

  /** The invoice as the confirmation books it. */
  lemma InvoiceBooked()
    ensures Leads(Funding(Plain(0, 1, 0), [Invoice(Pending)], PAID), Fund(0, map[], 2),
                  Funding(Plain(10000, 1, 2), [Invoice(Confirmed)], PAID), 0)
  {
    hide RedeemNext, RedeemRise, RefundNext, RefundRise, OperatorNext, OperatorRise, WalletNext, WalletRise, Transfer,
         ExpireVoucher, RegularVoucher, RedeemEnabled, RefundEnabled, OperatorEnabled, WalletEnabled, OrderOk,
         ImmediateAll, ImmediateAllSkipped, ImmediateOrdersOk;
    var t := Funding(Plain(10000, 1, 2), [Invoice(Confirmed)], PAID).t;
    Refundless(t);
    assert [Plain(0, 1, 0)][0 := Plain(10000, 1, 2)] == [Plain(10000, 1, 2)];
    assert [Invoice(Pending)][0 := Invoice(Confirmed)] == [Invoice(Confirmed)];
    assert UpdateVoucherBalance([Plain(0, 1, 0)], 0, 10000, 2) == Some([Plain(10000, 1, 2)]);
  }

  /** A voucher of 10000, funded through an invoice. */
  lemma Funded() returns (ws: seq<World>, cs: seq<Config>, ss: seq<Step>)
    ensures Run(ws, cs, ss) && ws[0] == Fresh(0) && Inv(ws[|ss|])
    ensures ws[|ss|] == Funding(Plain(10000, 1, 2), [Invoice(Confirmed)], PAID)
    ensures Balance(ws[|ss|]) == Balance(ws[0]) == 0
  {
    hide *;
    FreshBalance(0);
    VoucherMade();
    InvoiceMade();
    InvoicePaid();
    InvoiceBooked();
    ws, cs, ss := Started(Fresh(0));
    ws, cs, ss := Extend(ws, cs, ss, CreateVoucher(Plain(0, 0, 0), 1), Funding(Plain(0, 1, 0), [], EMPTY), 0);
    ws, cs, ss := Extend(ws, cs, ss, CreateFund(ToVoucher(0), 10000, 0), Funding(Plain(0, 1, 0), [Invoice(Pending)], EMPTY), 0);
    ws, cs, ss := Extend(ws, cs, ss, Receive(0, 10000), Funding(Plain(0, 1, 0), [Invoice(Pending)], PAID), 0);
    ws, cs, ss := Extend(ws, cs, ss, Fund(0, map[], 2), Funding(Plain(10000, 1, 2), [Invoice(Confirmed)], PAID), 0);
  }

  function Redeeming(row: RedeemTx, sent: bool, redeeming: map<nat, RedeemPc>): World {
    var sdk := if sent then Left(Owner.Redeem(0)).(receipts := map[0 := 10000]) else PAID;
    World(Tables([Plain(4000, 1, 3)], [Invoice(Confirmed)], [row], [], [], [], {}, map[]), sdk, redeeming, map[], Idle)
  }

  function Redeem5000(stored: bool): RedeemTx {
    RedeemTx(0, 5000, 1000, 0, 0, Pending, stored)
  }

  lemma RedeemBegins()
    ensures Leads(Funding(Plain(10000, 1, 2), [Invoice(Confirmed)], PAID), Step.Redeem(0, 5000, 3),
                  Redeeming(Redeem5000(false), false, map[0 := Deducted]), 0)
  {
    hide RefundNext, RefundRise, OperatorNext, OperatorRise, WalletNext, WalletRise, BooksNext, BooksRise,
         RefundEnabled, OperatorEnabled, WalletEnabled, BooksEnabled;
  }

  lemma RedeemGoes()
    ensures Leads(Redeeming(Redeem5000(false), false, map[0 := Deducted]), RedeemSends(0, SPARK, 1000),
                  Redeeming(Redeem5000(false), true, map[0 := Sent(1000)]), 0)
  {
    hide RefundNext, RefundRise, OperatorNext, OperatorRise, WalletNext, WalletRise, BooksNext, BooksRise,
         RefundEnabled, OperatorEnabled, WalletEnabled, BooksEnabled;
  }

  lemma RedeemFiled()
    ensures Leads(Redeeming(Redeem5000(false), true, map[0 := Sent(1000)]), RedeemNotes(0),
                  Redeeming(Redeem5000(true), true, map[0 := Noted(1000)]), 0)
  {
    hide RefundNext, RefundRise, OperatorNext, OperatorRise, WalletNext, WalletRise, BooksNext, BooksRise,
         RefundEnabled, OperatorEnabled, WalletEnabled, BooksEnabled;
  }

  lemma RedeemResolved()
    ensures Leads(Redeeming(Redeem5000(true), true, map[]), ResolveRedeem(0, 4),
                  Redeeming(RedeemTx(0, 5000, 1000, 1000, 0, Confirmed, true), true, map[]), -1000)
  {
    hide RefundNext, RefundRise, OperatorNext, OperatorRise, WalletNext, WalletRise, BooksNext, BooksRise,
         RefundEnabled, OperatorEnabled, WalletEnabled, BooksEnabled;
  }

  /** A redeem of 5000 leaves over Spark. */
  lemma RedeemLeaves() returns (ws: seq<World>, cs: seq<Config>, ss: seq<Step>)
    ensures Run(ws, cs, ss) && ws[0] == Fresh(0) && Inv(ws[|ss|])
    ensures ws[|ss|] == Redeeming(Redeem5000(false), true, map[0 := Sent(1000)])
    ensures Balance(ws[|ss|]) == Balance(ws[0]) == 0
  {
    hide *;
    RedeemBegins();
    RedeemGoes();
    ws, cs, ss := Funded();
    ws, cs, ss := Extend(ws, cs, ss, Step.Redeem(0, 5000, 3), Redeeming(Redeem5000(false), false, map[0 := Deducted]), 0);
    ws, cs, ss := Extend(ws, cs, ss, RedeemSends(0, SPARK, 1000), Redeeming(Redeem5000(false), true, map[0 := Sent(1000)]), 0);
  }

  lemma DeadRedeem(row: RedeemTx, redeeming: map<nat, RedeemPc>)
    ensures Dead(Redeeming(row, true, redeeming)) == Redeeming(row, true, map[])
  {
  }

  /** The process dies after the send: the row is stranded, and the 6000 that left are never booked. */
  lemma RedeemStranded() returns (ws: seq<World>, cs: seq<Config>, ss: seq<Step>)
    ensures Run(ws, cs, ss) && ws[0] == Fresh(0)
    ensures ws[|ss|] == Redeeming(Redeem5000(false), true, map[])
    ensures Stranded(ws[|ss|].t.redeems, 0, ws[|ss|].redeeming) && LostRow(ws[|ss|], Owner.Redeem(0))
    ensures LostMoney(ws[|ss|]) == 6000 && SentUnbooked(ws[|ss|]) == 0
  {
    hide *;
    RedeemMissing();
    ws, cs, ss := RedeemLeaves();
    var w := Redeeming(Redeem5000(false), true, map[0 := Sent(1000)]);
    Dying(w);
    DeadRedeem(Redeem5000(false), map[0 := Sent(1000)]);
    ws, cs, ss := Extend(ws, cs, ss, Crash, Dead(w), 0);
  }

  lemma RedeemMissing()
    ensures var w := Redeeming(Redeem5000(false), true, map[]);
      Stranded(w.t.redeems, 0, w.redeeming) && LostRow(w, Owner.Redeem(0)) && LostMoney(w) == 6000 && SentUnbooked(w) == 0
  {
    var w := Redeeming(Redeem5000(false), true, map[]);
    assert LostRedeems(w.t.redeems, w.sdk.sent, w.redeeming) == [] + [6000];
    SumAppend([], 6000);
    SumZeros(UnbookedRedeems(w.t.redeems, w.sdk.sent, w.redeeming));
  }

  /** With the id stored startup confirms it at fee 0, and 1000 are missing. */
  lemma RedeemFeeLost() returns (ws: seq<World>, cs: seq<Config>, ss: seq<Step>)
    ensures Run(ws, cs, ss) && ws[0] == Fresh(0)
    ensures ws[|ss|] == Redeeming(RedeemTx(0, 5000, 1000, 1000, 0, Confirmed, true), true, map[])
    ensures Balance(ws[0]) == 0 && Balance(ws[|ss|]) == -1000
  {
    hide *;
    RedeemFiled();
    RedeemResolved();
    ws, cs, ss := RedeemLeaves();
    var w := Redeeming(Redeem5000(true), true, map[0 := Noted(1000)]);
    ws, cs, ss := Extend(ws, cs, ss, RedeemNotes(0), w, 0);
    Dying(w);
    DeadRedeem(Redeem5000(true), map[0 := Noted(1000)]);
    ws, cs, ss := Extend(ws, cs, ss, Crash, Dead(w), 0);
    ws, cs, ss := Extend(ws, cs, ss, ResolveRedeem(0, 4),
                         Redeeming(RedeemTx(0, 5000, 1000, 1000, 0, Confirmed, true), true, map[]), -1000);
  }

  // ----- refunds -----

  function Refunding(inFlight: bool, key: Key, sent: bool, worker: WorkerPc): World {
    ScheduleChange.START.(t := ScheduleChange.TablesOf(Refund5000(inFlight, key)), worker := worker,
                          sdk := if sent then Left(Owner.Refund(0)).(wallet := 0) else ScheduleChange.START.sdk)
  }

  function Refund5000(inFlight: bool, key: Key): RefundTx {
    ScheduleChange.RowOf(5000, 1000, false, inFlight, key, 0)
  }

  lemma AttemptMarks(key: Key, sent: bool)
    requires key == NoKey || key == KRefund(0)
    ensures var row, k := Refund5000(false, key), KRefund(0);
      && Leads(Refunding(false, key, sent, Idle), RefundStarts(0), Refunding(false, key, sent, Chosen(0, row)), 0)
      && Leads(Refunding(false, key, sent, Chosen(0, row)), RefundMarks, Refunding(true, k, sent, Marked(0, row, k)), 0)
  {
    hide RedeemNext, RedeemRise, OperatorNext, OperatorRise, WalletNext, WalletRise, BooksNext, BooksRise,
         RedeemEnabled, OperatorEnabled, WalletEnabled, BooksEnabled;
  }

  /** What the attempt sends the first time, and after the payment left. */
  function Quoted(sent: bool): (Payment, nat) {
    if sent then (ScheduleChange.FIRST, 0) else (SPARK, 1000)
  }

  lemma AttemptSends(key: Key, sent: bool)
    ensures var row, k := Refund5000(false, key), KRefund(0);
      Leads(Refunding(true, k, sent, Marked(0, row, k)), RefundSends(Quoted(sent).0, Quoted(sent).1),
            Refunding(true, k, true, PaidOut(0, row, Quoted(sent).1)), 0)
  {
    hide RedeemNext, RedeemRise, OperatorNext, OperatorRise, WalletNext, WalletRise, BooksNext, BooksRise,
         RedeemEnabled, OperatorEnabled, WalletEnabled, BooksEnabled;
  }

  lemma Attempt(ws: seq<World>, cs: seq<Config>, ss: seq<Step>, key: Key, sent: bool)
    returns (wr: seq<World>, cr: seq<Config>, sr: seq<Step>)
    requires key == NoKey || key == KRefund(0)
    requires Run(ws, cs, ss) && Inv(ws[|ss|]) && ws[|ss|] == Refunding(false, key, sent, Idle)
    ensures Run(wr, cr, sr) && wr[0] == ws[0] && Inv(wr[|sr|]) && Balance(wr[|sr|]) == Balance(ws[|ss|])
    ensures wr[|sr|] == Refunding(true, KRefund(0), true, PaidOut(0, Refund5000(false, key), Quoted(sent).1))
  {
    hide *;
    AttemptMarks(key, sent);
    AttemptSends(key, sent);
    var row, k := Refund5000(false, key), KRefund(0);
    wr, cr, sr := Extend(ws, cs, ss, RefundStarts(0), Refunding(false, key, sent, Chosen(0, row)), 0);
    wr, cr, sr := Extend(wr, cr, sr, RefundMarks, Refunding(true, k, sent, Marked(0, row, k)), 0);
    wr, cr, sr := Extend(wr, cr, sr, RefundSends(Quoted(sent).0, Quoted(sent).1),
                         Refunding(true, k, true, PaidOut(0, row, Quoted(sent).1)), 0);
  }

  lemma RefundSteps()
    ensures var k, paid := KRefund(0), PaidOut(0, Refund5000(false, NoKey), Quoted(false).1);
      && Dead(Refunding(true, k, true, paid)) == Refunding(true, k, true, Idle)
      && Leads(Refunding(true, k, true, Idle), Requeue, Refunding(false, k, true, Idle), 0)
  {
    hide RedeemNext, RedeemRise, OperatorNext, OperatorRise, WalletNext, WalletRise, BooksNext, BooksRise,
         RedeemEnabled, OperatorEnabled, WalletEnabled, BooksEnabled;
    assert ResetKeyedInFlight([Refund5000(true, KRefund(0))]) == [Refund5000(false, KRefund(0))];
  }

  function Booked(): World {
    Refunding(true, KRefund(0), true, Idle).(t := ScheduleChange.TablesOf(
      Refund5000(false, KRefund(0)).(refunded := true)))
  }

  lemma RefundBooks()
    ensures Leads(Refunding(true, KRefund(0), true, PaidOut(0, Refund5000(false, KRefund(0)), Quoted(true).1)), RefundEnds, Booked(), -1000)
  {
    hide RedeemNext, RedeemRise, OperatorNext, OperatorRise, WalletNext, WalletRise, BooksNext, BooksRise,
         RedeemEnabled, OperatorEnabled, WalletEnabled, BooksEnabled;
  }

  lemma RefundStart()
    ensures ScheduleChange.START == Refunding(false, NoKey, false, Idle)
    ensures Steady(CONFIG.fees, ScheduleChange.START) && Inv(ScheduleChange.START) && Balance(ScheduleChange.START) == 0
  {
    ScheduleChange.StartSteady();
    ScheduleChange.BalanceOf(Refund5000(false, NoKey), false);
  }

  /** Paid over Spark, then the process dies before booking. The second attempt is quoted no fee and
      is answered with the first payment: it is booked at fee 0, and 1000 are missing. */
  lemma RefundFeeLost() returns (ws: seq<World>, cs: seq<Config>, ss: seq<Step>)
    ensures Run(ws, cs, ss) && Steady(CONFIG.fees, ws[0]) && ws[|ss|] == Booked()
    ensures Balance(ws[0]) == 0 && Balance(ws[|ss|]) == -1000
  {
    hide *;
    RefundStart();
    RefundSteps();
    RefundBooks();
    ws, cs, ss := Started(ScheduleChange.START);
    ws, cs, ss := Attempt(ws, cs, ss, NoKey, false);
    Dying(Refunding(true, KRefund(0), true, PaidOut(0, Refund5000(false, NoKey), Quoted(false).1)));
    ws, cs, ss := Extend(ws, cs, ss, Crash, Refunding(true, KRefund(0), true, Idle), 0);
    ws, cs, ss := Extend(ws, cs, ss, Requeue, Refunding(false, KRefund(0), true, Idle), 0);
    ws, cs, ss := Attempt(ws, cs, ss, KRefund(0), true);
    ws, cs, ss := Extend(ws, cs, ss, RefundEnds, Booked(), -1000);
  }

  // ----- the regular schedule -----

  /** First time 1001, then every 100. */
  function Timed(created: int, lastAt: int): Voucher {
    Voucher("", [], 100000, true, 0, false, false, 0, false, 1001, 100, lastAt, false, true, created, 0)
  }

  lemma TimedMade()
    ensures Leads(Fresh(0), CreateVoucher(Timed(0, 0), 1), Funding(Timed(1, 0), [], EMPTY), 0)
  {
    hide RedeemNext, RedeemRise, RefundNext, RefundRise, OperatorNext, OperatorRise, ConfirmFund, Transfer, ExpireVoucher,
         RegularVoucher, RedeemEnabled, RefundEnabled, OperatorEnabled, FundOrdersOk, OrderOk;
  }

  lemma TimedMarked()
    ensures Leads(Funding(Timed(1, 0), [], EMPTY), Advance(0, 901), Funding(Timed(1, 901), [], EMPTY), 0)
  {
    hide RedeemNext, RedeemRise, RefundNext, RefundRise, OperatorNext, OperatorRise, ConfirmFund, Transfer, ExpireVoucher,
         RegularVoucher, RedeemEnabled, RefundEnabled, OperatorEnabled, FundOrdersOk, OrderOk;
    assert [Timed(1, 0)][0 := Timed(1, 901)] == [Timed(1, 901)];
  }

  /** A pass reads its clock at 1000 and queries at 1001: that is its mark. */
  lemma EarlyPass()
    ensures MarkOf(Timed(1, 0), Timed(1, 0), 1000, 1001, 901)
    ensures Punctual(Funding(Timed(1, 0), [], EMPTY), Advance(0, 901), false)
  {
    assert Timed(1, 0).lastAt == 0 && 1000 < Timed(1, 0).firstAt;
    var vs := Funding(Timed(1, 0), [], EMPTY).t.vouchers;
    assert MarkOf(vs[0], Timed(1, 0), 1000, 1001, 901);
    assert OnTime(vs, 0, 901, false);
  }

  lemma EarlyAlarm()
    ensures var vs := [Timed(1, 901)];
      !AllOnGrid(vs, true) && RegularDue(vs[0], 1001) && NextRefundAt(vs, 1001) == None && WakeAt(vs, 1001) == 1001 + MAX_SLEEP
  {
    var vs := [Timed(1, 901)];
    assert !OnGrid(vs[0], true);
    assert vs[..0] == [] && NextRefundAt([], 1001) == None;
  }

  /** The last refund of the voucher is booked at 901, before its first time. It is still due, and the
      worker sleeps for an hour. */
  lemma MarkedEarly() returns (ws: seq<World>, cs: seq<Config>, ss: seq<Step>)
    ensures Run(ws, cs, ss) && ws[0] == Fresh(0) && ss == [CreateVoucher(Timed(0, 0), 1), Advance(0, 901)]
    ensures Punctual(ws[1], ss[1], false) && MarkOf(ws[1].t.vouchers[0], Timed(1, 0), 1000, 1001, 901)
    ensures var vs := ws[|ss|].t.vouchers;
      && vs == [Timed(1, 901)] && !AllOnGrid(vs, true)
      && RegularDue(vs[0], 1001) && WakeAt(vs, 1001) == 1001 + MAX_SLEEP
  {
    TimedMade();
    TimedMarked();
    EarlyPass();
    EarlyAlarm();
    hide Next, Enabled, Punctual, MarkOf, RegularDue, WakeAt, AllOnGrid;
    var w, v := Funding(Timed(1, 0), [], EMPTY), Funding(Timed(1, 901), [], EMPTY);
    ws, cs, ss := [Fresh(0), w, v], [CONFIG, CONFIG], [CreateVoucher(Timed(0, 0), 1), Advance(0, 901)];
  }
}
