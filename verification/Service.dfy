/** The whole service as a state machine: the database, the Lightning wallet behind its
    SDK, the requests in progress and the refund worker. One step is one database
    transaction or one SDK call; any number of requests interleave and a crash may
    fall between any two steps. */
module Service {
  import opened Options
  import opened Sums
  import opened Split
  import opened Schema
  import opened Ledger
  import opened LedgerEffects

  // ----- the wallet -----

  datatype PayStatus = Open | Completed | Returned
  datatype Rail = Lightning | Spark

  /** An outgoing payment: what left the wallet (`amount + trueFee`) and the fee the SDK
      reports for it. A payment may come back later (`Returned`). */
  datatype Payment = Payment(via: Rail, amount: int, trueFee: nat, reported: Option<int>, status: PayStatus)

  /** The fee booked for a send: the prepare quote for a Spark transfer, else what the SDK reports. */
  function ActualSendFee(p: Payment, quote: nat): int {
    if p.via == Spark then quote
    else if p.reported.Some? then p.reported.value
    else 0
  }

  datatype Outflow = Outflow(owner: Owner, key: Key, amount: int, fee: int)

  /** `receipts` holds what arrived for the invoice of a fund row; `sent` what the SDK
      remembers under each idempotency key; `outflows` every payment that left. */
  datatype Sdk = Sdk(wallet: int, receipts: map<nat, int>, sent: map<Key, Payment>, outflows: seq<Outflow>)

  /** A keyed send: a key seen before moves nothing. */
  function Send(s: Sdk, owner: Owner, key: Key, p: Payment): Sdk {
    if key in s.sent then s
    else s.(wallet := s.wallet - p.amount - p.trueFee, sent := s.sent[key := p],
            outflows := s.outflows + [Outflow(owner, key, p.amount, p.trueFee)])
  }

  /** What the send call gives back: the original payment for a repeated key. */
  function SendResult(s: Sdk, key: Key, p: Payment): Payment {
    if key in s.sent then s.sent[key] else p
  }

  /** An honest SDK: pays the amount asked for, reports a Lightning fee exactly (none is none), and
      charges for a Spark transfer what it quoted. */
  predicate Honest(p: Payment, amount: int, quote: nat) {
    && p.amount == amount >= 0 && p.status != Returned
    && (p.via == Spark ==> p.trueFee == quote)
    && (p.via == Lightning ==> p.reported == Some(p.trueFee as int) || (p.reported == None && p.trueFee == 0))
  }

  /** The fee booked for a payment just made is the fee that was paid. */
  lemma FeeIsTrue(p: Payment, amount: int, quote: nat)
    requires Honest(p, amount, quote)
    ensures ActualSendFee(p, quote) == p.trueFee
  {
  }

  // ----- requests in progress -----

  datatype RedeemPc = Deducted | Sent(fee: int) | Noted(fee: int)
  datatype WithdrawPc = Inserted | Wired(fee: int) | Filed(fee: int)

  /** The refund worker pays one row at a time from the copy it read. */
  datatype WorkerPc =
    | Idle
    | Chosen(id: nat, row: RefundTx)
    | Marked(id: nat, row: RefundTx, key: Key)
    | PaidOut(id: nat, row: RefundTx, fee: int)

  datatype World = World(t: Tables, sdk: Sdk, redeeming: map<nat, RedeemPc>, withdrawing: map<nat, WithdrawPc>, worker: WorkerPc)

  datatype Step =
    | CreateVoucher(params: Voucher, now: int)
    | Edit(id: nat, params: Voucher, now: int)
    | CreateFund(target: FundTarget, msat: int, estimate: nat)
    | Receive(fund: nat, arrived: nat)
    | ReceiveOther(arrived: nat)
    | Fund(fund: nat, orders: map<nat, seq<string>>, now: int)
    | Move(src: nat, read: Voucher, amount: int, d: Destination, fingerprint: string, now: int)
    | OpenSession(k1: string, voucher: nat, now: int)
    | UseSession(k1: string, voucher: nat, now: int)
    | Redeem(voucher: nat, amount: int, now: int)
    | RedeemFails(redeem: nat, now: int)
    | RedeemSends(redeem: nat, p: Payment, quote: nat)
    | RedeemNotes(redeem: nat)
    | RedeemEnds(redeem: nat)
    | Expire(id: nat, codes: seq<RefundCode>, order: seq<string>, now: int)
    | Regular(id: nat, codes: seq<RefundCode>, order: seq<string>, last: int)
    | Advance(id: nat, last: int)
    | RefundStarts(refund: nat)
    | RefundRefused
    | RefundMarks
    | RefundSends(p: Payment, quote: nat)
    | RefundEnds
    | RefundDropped
    | Reprice(refund: nat)
    | Withdraw(amount: int)
    | WithdrawSends(op: nat, p: Payment, quote: nat)
    | WithdrawFails(op: nat)
    | WithdrawNotes(op: nat)
    | WithdrawEnds(op: nat)
    | Deposit(amount: int)
    | DepositArrives(op: nat, arrived: nat)
    | Settle(key: Key)
    | Return(key: Key)
    | Crash
    | Requeue
    | ResolveRedeem(redeem: nat, now: int)
    | ResolveWithdraw(op: nat)

  function KRedeem(i: nat): Key { KeyOf(Owner.Redeem(i)) }
  function KRefund(i: nat): Key { KeyOf(Owner.Refund(i)) }
  function KWithdraw(i: nat): Key { KeyOf(Owner.Withdraw(i)) }

  /** The key a refund is attempted under: the stored one, or the one derived from its id. */
  function AttemptKey(id: nat, row: RefundTx): Key {
    if row.key == NoKey then KRefund(id) else row.key
  }

  predicate IsRedeemStep(s: Step) {
    s.Redeem? || s.RedeemSends? || s.RedeemNotes? || s.RedeemFails? || s.RedeemEnds? || s.ResolveRedeem?
  }

  predicate IsRefundStep(s: Step) {
    s.RefundStarts? || s.RefundRefused? || s.RefundMarks? || s.RefundSends? || s.RefundEnds? || s.RefundDropped?
    || s.Reprice? || s.Requeue?
  }

  predicate IsOperatorStep(s: Step) {
    s.Withdraw? || s.WithdrawSends? || s.WithdrawFails? || s.WithdrawNotes? || s.WithdrawEnds? || s.ResolveWithdraw?
    || s.Deposit? || s.DepositArrives?
  }

  predicate IsWalletStep(s: Step) {
    s.Receive? || s.ReceiveOther? || s.Settle? || s.Return? || s.Crash?
  }

  predicate IsBooksStep(s: Step) {
    !IsRedeemStep(s) && !IsRefundStep(s) && !IsOperatorStep(s) && !IsWalletStep(s)
  }

  predicate RedeemEnabled(w: World, c: Config, s: Step) {
    match s
    case Redeem(_, amount, _) => amount > 0
    case RedeemFails(i, _) => i in w.redeeming && w.redeeming[i] == Deducted && i < |w.t.redeems|
    case RedeemSends(i, p, quote) =>
      i in w.redeeming && w.redeeming[i] == Deducted && i < |w.t.redeems| && Honest(p, w.t.redeems[i].msat, quote)
    case RedeemNotes(i) => i in w.redeeming && w.redeeming[i].Sent?
    case RedeemEnds(i) => i in w.redeeming && !w.redeeming[i].Deducted? && i < |w.t.redeems|
    case ResolveRedeem(i, _) => i !in w.redeeming && i < |w.t.redeems| && w.t.redeems[i].status == Pending
    case _ => true
  }

  predicate RefundEnabled(w: World, c: Config, s: Step) {
    match s
    case RefundStarts(i) => w.worker == Idle && i < |w.t.refunds| && IsPending(w.t.refunds[i])
    case RefundRefused => w.worker.Chosen? || w.worker.Marked?
    case RefundMarks => w.worker.Chosen?
    case RefundSends(p, quote) => w.worker.Marked? && Honest(p, w.worker.row.amount / 1000 * 1000, quote)
    case RefundEnds => w.worker.PaidOut?
    case Reprice(i) => w.worker == Idle && i < |w.t.refunds|
    case Requeue => w.worker == Idle
    case _ => true
  }

  predicate OperatorEnabled(w: World, c: Config, s: Step) {
    match s
    case WithdrawSends(i, p, quote) =>
      i in w.withdrawing && w.withdrawing[i] == Inserted && i < |w.t.operators| && Honest(p, w.t.operators[i].amount, quote)
    case WithdrawFails(i) => i in w.withdrawing && w.withdrawing[i] == Inserted
    case WithdrawNotes(i) => i in w.withdrawing && w.withdrawing[i].Wired?
    case WithdrawEnds(i) => i in w.withdrawing && !w.withdrawing[i].Inserted? && i < |w.t.operators|
    case DepositArrives(i, _) => i < |w.t.operators| && w.t.operators[i].kind == OpDeposit
    case ResolveWithdraw(i) => i !in w.withdrawing && i < |w.t.operators|
      && w.t.operators[i].kind == OpWithdraw && w.t.operators[i].status == Pending
    case _ => true
  }

  predicate WalletEnabled(w: World, c: Config, s: Step) {
    match s
    case Receive(i, _) => i < |w.t.funds| && i !in w.sdk.receipts
    case Settle(k) => k in w.sdk.sent && w.sdk.sent[k].status == Open
    case Return(k) => k in w.sdk.sent && w.sdk.sent[k].status == Open
    case _ => true
  }

  predicate BooksEnabled(w: World, c: Config, s: Step) {
    match s
    case Fund(i, orders, now) => i in w.sdk.receipts && FundOrdersOk(w.t, c.fees, i, w.sdk.receipts[i], orders, now)
    case Expire(id, codes, order, _) => OrderOk(w.t, id, codes, order)
    case Regular(id, codes, order, _) => OrderOk(w.t, id, codes, order)
    case _ => true
  }

  /** What must be so for a step to happen: control has got there, and the SDK behaves. */
  predicate Enabled(w: World, c: Config, s: Step) {
    if IsRedeemStep(s) then RedeemEnabled(w, c, s)
    else if IsRefundStep(s) then RefundEnabled(w, c, s)
    else if IsOperatorStep(s) then OperatorEnabled(w, c, s)
    else if IsWalletStep(s) then WalletEnabled(w, c, s)
    else BooksEnabled(w, c, s)
  }

  function Or<T>(o: Option<T>, d: T): T {
    match o
    case None => d
    case Some(x) => x
  }

  function RedeemNext(w: World, c: Config, s: Step): World
    requires RedeemEnabled(w, c, s)
  {
    var t := w.t;
    match s
    case Redeem(v, amount, now) => NextRedeem(w, c, v, amount, now)
    case RedeemFails(i, now) => w.(t := FailRedeem(t, i, now), redeeming := w.redeeming - {i})
    case RedeemSends(i, p, quote) =>
      w.(sdk := Send(w.sdk, Owner.Redeem(i), KRedeem(i), p),
         redeeming := w.redeeming[i := Sent(ActualSendFee(SendResult(w.sdk, KRedeem(i), p), quote))])
    case RedeemNotes(i) =>
      w.(t := StoreRedeemPayment(t, i), redeeming := w.redeeming[i := Noted(w.redeeming[i].fee)])
    case RedeemEnds(i) => w.(t := ConfirmRedeem(t, i, w.redeeming[i].fee), redeeming := w.redeeming - {i})
    case ResolveRedeem(i, now) => w.(t := ResolveRow(t, w.sdk.sent, i, now))
    case _ => w
  }

  function RefundNext(w: World, c: Config, s: Step): World
    requires RefundEnabled(w, c, s)
  {
    var t := w.t;
    match s
    case RefundStarts(i) => w.(worker := Chosen(i, t.refunds[i]))
    case RefundRefused => w.(t := t.(refunds := MarkRefundFailed(t.refunds, w.worker.id)), worker := Idle)
    case RefundMarks =>
      var key := AttemptKey(w.worker.id, w.worker.row);
      w.(t := t.(refunds := MarkInFlight(t.refunds, w.worker.id, key)), worker := Marked(w.worker.id, w.worker.row, key))
    case RefundSends(p, quote) =>
      var k := w.worker.key;
      w.(sdk := Send(w.sdk, Owner.Refund(w.worker.id), k, p),
         worker := PaidOut(w.worker.id, w.worker.row, ActualSendFee(SendResult(w.sdk, k, p), quote)))
    case RefundEnds =>
      w.(t := t.(refunds := MarkPaid(t.refunds, w.worker.id, w.worker.row.dbTxFee - w.worker.fee, w.worker.fee)), worker := Idle)
    case RefundDropped => w.(worker := Idle)
    case Reprice(i) => w.(t := t.(refunds := RepriceAbandoned(t.refunds, c.fees, i)))
    case Requeue => w.(t := t.(refunds := ResetKeyedInFlight(t.refunds)))
    case _ => w
  }

  function OperatorNext(w: World, c: Config, s: Step): World
    requires OperatorEnabled(w, c, s)
  {
    var t := w.t;
    match s
    case Withdraw(amount) =>
      w.(t := t.(operators := t.operators + [OperatorTx(OpWithdraw, Pending, amount, 0, false)]),
         withdrawing := w.withdrawing[|t.operators| := Inserted])
    case WithdrawSends(i, p, quote) =>
      w.(sdk := Send(w.sdk, Owner.Withdraw(i), KWithdraw(i), p),
         withdrawing := w.withdrawing[i := Wired(ActualSendFee(SendResult(w.sdk, KWithdraw(i), p), quote))])
    case WithdrawFails(i) => w.(t := t.(operators := FailOperator(t.operators, i)), withdrawing := w.withdrawing - {i})
    case WithdrawNotes(i) =>
      w.(t := t.(operators := StoreOperatorPayment(t.operators, i)), withdrawing := w.withdrawing[i := Filed(w.withdrawing[i].fee)])
    case WithdrawEnds(i) =>
      w.(t := t.(operators := ConfirmOperator(t.operators, i, w.withdrawing[i].fee)), withdrawing := w.withdrawing - {i})
    case Deposit(amount) => w.(t := t.(operators := t.operators + [OperatorTx(OpDeposit, Pending, amount, 0, false)]))
    case DepositArrives(i, amount) =>
      w.(t := if t.operators[i].status == Pending
              then t.(operators := t.operators[i := t.operators[i].(status := Confirmed, amount := amount)]) else t)
    case ResolveWithdraw(i) => NextResolveWithdraw(w, i)
    case _ => w
  }

  function WalletNext(w: World, c: Config, s: Step): World
    requires WalletEnabled(w, c, s)
  {
    match s
    case Receive(i, amount) =>
      w.(sdk := w.sdk.(wallet := w.sdk.wallet + amount, receipts := w.sdk.receipts[i := amount]))
    case ReceiveOther(amount) => w.(sdk := w.sdk.(wallet := w.sdk.wallet + amount))
    case Settle(k) => w.(sdk := w.sdk.(sent := w.sdk.sent[k := w.sdk.sent[k].(status := Completed)]))
    case Return(k) =>
      w.(sdk := w.sdk.(wallet := w.sdk.wallet + w.sdk.sent[k].amount + w.sdk.sent[k].trueFee,
                       sent := w.sdk.sent[k := w.sdk.sent[k].(status := Returned)]))
    case Crash => w.(redeeming := map[], withdrawing := map[], worker := Idle)
    case _ => w
  }

  function BooksNext(w: World, c: Config, s: Step): World
    requires BooksEnabled(w, c, s)
  {
    var t := w.t;
    match s
    case CreateVoucher(p, now) => w.(t := t.(vouchers := t.vouchers + [NewVoucher(p, now)]))
    case Edit(id, p, now) => w.(t := t.(vouchers := EditVoucher(t.vouchers, id, p, now)))
    case CreateFund(target, msat, fee) => w.(t := t.(funds := t.funds + [FundTx(target, msat, fee, 0, Pending)]))
    case Fund(i, orders, now) => w.(t := ConfirmFund(t, c.fees, i, w.sdk.receipts[i], orders, now))
    case Move(src, read, amount, d, fp, now) => w.(t := Or(Transfer(t, c, src, read, amount, d, fp, now), t))
    case OpenSession(k1, v, now) =>
      w.(t := if k1 in t.sessions then t else t.(sessions := t.sessions[k1 := Session(v, false, now)]))
    case UseSession(k1, v, now) => w.(t := Or(MarkSessionUsed(t, k1, v, now), t))
    case Expire(id, codes, order, now) => w.(t := ExpireVoucher(t, c.fees, id, codes, order, now))
    case Regular(id, codes, order, last) => w.(t := RegularVoucher(t, c.fees, id, codes, order, last))
    case Advance(id, last) => w.(t := t.(vouchers := AdvanceSchedule(t.vouchers, id, last)))
    case _ => w
  }

  function Next(w: World, c: Config, s: Step): World
    requires Enabled(w, c, s)
  {
    if IsRedeemStep(s) then RedeemNext(w, c, s)
    else if IsRefundStep(s) then RefundNext(w, c, s)
    else if IsOperatorStep(s) then OperatorNext(w, c, s)
    else if IsWalletStep(s) then WalletNext(w, c, s)
    else BooksNext(w, c, s)
  }

  function NextRedeem(w: World, c: Config, v: nat, amount: int, now: int): World {
    match BeginRedeem(w.t, c.fees, v, amount, now)
    case None => w
    case Some(u) => w.(t := u, redeeming := w.redeeming[|w.t.redeems| := Deducted])
  }

  /** Startup: a pending redeem without a stored payment id is left alone; else the SDK decides. */
  function ResolveRow(t: Tables, sent: map<Key, Payment>, i: nat, now: int): Tables {
    if i >= |t.redeems| || t.redeems[i].status != Pending || !t.redeems[i].paymentStored || KRedeem(i) !in sent then t else
      match sent[KRedeem(i)].status
      case Completed => ConfirmRedeem(t, i, ActualSendFee(sent[KRedeem(i)], 0))
      case Returned => FailRedeem(t, i, now)
      case Open => t
  }

  /** Startup: a withdraw without a stored payment id is declared never sent. */
  function NextResolveWithdraw(w: World, i: nat): World
    requires i < |w.t.operators|
  {
    if !w.t.operators[i].paymentStored then w.(t := w.t.(operators := FailOperator(w.t.operators, i)))
    else if KWithdraw(i) !in w.sdk.sent then w
    else
      var p := w.sdk.sent[KWithdraw(i)];
      match p.status
      case Completed => w.(t := w.t.(operators := ConfirmOperator(w.t.operators, i, ActualSendFee(p, 0))))
      case Returned => w.(t := w.t.(operators := FailOperator(w.t.operators, i)))
      case Open => w
  }

  // ----- the identity -----

  /** What is gone from the wallet under a key. */
  function GrossOut(sent: map<Key, Payment>, k: Key): int {
    if k in sent && sent[k].status != Returned then sent[k].amount + sent[k].trueFee else 0
  }

  /** A pending redeem nobody will come back to: no request is in progress, and startup has no
      payment id to ask for. */
  predicate Stranded(s: seq<RedeemTx>, i: nat, redeeming: map<nat, RedeemPc>) {
    i < |s| && s[i].status == Pending && !s[i].paymentStored && i !in redeeming
  }

  /** A withdraw given up as never sent, or in the state in which startup will give it up. */
  predicate Forsaken(s: seq<OperatorTx>, i: nat, withdrawing: map<nat, WithdrawPc>) {
    i < |s| && (s[i].status == Failed || (s[i].status == Pending && !s[i].paymentStored && i !in withdrawing))
  }

  function UnbookedRedeems(s: seq<RedeemTx>, sent: map<Key, Payment>, redeeming: map<nat, RedeemPc>): seq<int> {
    seq(|s|, i requires 0 <= i < |s| =>
      if s[i].status == Pending && !Stranded(s, i, redeeming) then GrossOut(sent, KRedeem(i)) else 0)
  }

  function UnbookedRefunds(s: seq<RefundTx>, sent: map<Key, Payment>): seq<int> {
    seq(|s|, i requires 0 <= i < |s| => if s[i].refunded then 0 else GrossOut(sent, KRefund(i)))
  }

  function UnbookedWithdraws(s: seq<OperatorTx>, sent: map<Key, Payment>, withdrawing: map<nat, WithdrawPc>): seq<int> {
    seq(|s|, i requires 0 <= i < |s| =>
      if s[i].status == Pending && !Forsaken(s, i, withdrawing) then GrossOut(sent, KWithdraw(i)) else 0)
  }

  function UnbookedFunds(s: seq<FundTx>, receipts: map<nat, int>): seq<int> {
    seq(|s|, i requires 0 <= i < |s| => if s[i].status == Pending && i in receipts then receipts[i] else 0)
  }

  function LostRedeems(s: seq<RedeemTx>, sent: map<Key, Payment>, redeeming: map<nat, RedeemPc>): seq<int> {
    seq(|s|, i requires 0 <= i < |s| => if Stranded(s, i, redeeming) then GrossOut(sent, KRedeem(i)) else 0)
  }

  function LostWithdraws(s: seq<OperatorTx>, sent: map<Key, Payment>, withdrawing: map<nat, WithdrawPc>): seq<int> {
    seq(|s|, i requires 0 <= i < |s| => if Forsaken(s, i, withdrawing) then GrossOut(sent, KWithdraw(i)) else 0)
  }

  /** Sent and still to be booked: under redeems and withdraws with a request in progress or a
      stored payment id, and under unpaid refunds. */
  function SentUnbooked(w: World): int {
    Sum(UnbookedRedeems(w.t.redeems, w.sdk.sent, w.redeeming)) + Sum(UnbookedRefunds(w.t.refunds, w.sdk.sent))
    + Sum(UnbookedWithdraws(w.t.operators, w.sdk.sent, w.withdrawing))
  }

  /** Sent and never going to be booked. */
  function LostMoney(w: World): int {
    Sum(LostRedeems(w.t.redeems, w.sdk.sent, w.redeeming)) + Sum(LostWithdraws(w.t.operators, w.sdk.sent, w.withdrawing))
  }

  function ReceivedUnbooked(w: World): int {
    Sum(UnbookedFunds(w.t.funds, w.sdk.receipts))
  }

  /** The wallet against the books, corrected for what is in transit and for what is lost. */
  function Balance(w: World): int {
    w.sdk.wallet + SentUnbooked(w) + LostMoney(w) - ReceivedUnbooked(w) - Explained(w.t)
  }

  predicate RowBooked(t: Tables, owner: Owner) {
    match owner
    case Redeem(i) => i < |t.redeems| && t.redeems[i].status == Confirmed
    case Refund(i) => i < |t.refunds| && t.refunds[i].refunded
    case Withdraw(i) => i < |t.operators| && t.operators[i].status == Confirmed
  }

  /** What booking an amount and a fee misses of what really left. */
  function BookingGap(sent: map<Key, Payment>, k: Key, amount: int, fee: int): int {
    amount + fee - GrossOut(sent, k)
  }

  function RedeemRise(w: World, c: Config, s: Step): int
    requires RedeemEnabled(w, c, s)
  {
    var t := w.t;
    match s
    case RedeemEnds(i) => BookingGap(w.sdk.sent, KRedeem(i), t.redeems[i].msat, w.redeeming[i].fee)
    case ResolveRedeem(i, _) =>
      if t.redeems[i].paymentStored && KRedeem(i) in w.sdk.sent && w.sdk.sent[KRedeem(i)].status == Completed
      then BookingGap(w.sdk.sent, KRedeem(i), t.redeems[i].msat, ActualSendFee(w.sdk.sent[KRedeem(i)], 0)) else 0
    case _ => 0
  }

  function RefundRise(w: World, c: Config, s: Step): int
    requires RefundEnabled(w, c, s)
  {
    var t := w.t;
    match s
    case RefundEnds => BookingGap(w.sdk.sent, KRefund(w.worker.id), w.worker.row.amount, w.worker.fee)
    case Reprice(i) =>
      if IsAbandoned(t.refunds[i]) && Repriced(c.fees, t.refunds[i]).refunded then -GrossOut(w.sdk.sent, KRefund(i)) else 0
    case _ => 0
  }

  function OperatorRise(w: World, c: Config, s: Step): int
    requires OperatorEnabled(w, c, s)
  {
    var t := w.t;
    match s
    case WithdrawEnds(i) => BookingGap(w.sdk.sent, KWithdraw(i), t.operators[i].amount, w.withdrawing[i].fee)
    case ResolveWithdraw(i) =>
      if t.operators[i].paymentStored && KWithdraw(i) in w.sdk.sent && w.sdk.sent[KWithdraw(i)].status == Completed
      then BookingGap(w.sdk.sent, KWithdraw(i), t.operators[i].amount, ActualSendFee(w.sdk.sent[KWithdraw(i)], 0)) else 0
    case _ => 0
  }

  function WalletRise(w: World, c: Config, s: Step): int
    requires WalletEnabled(w, c, s)
  {
    var t := w.t;
    match s
    case ReceiveOther(amount) => amount
    case Return(k) =>
      if k.KeyOf? && RowBooked(t, k.owner) then w.sdk.sent[k].amount + w.sdk.sent[k].trueFee else 0
    case _ => 0
  }

  function BooksRise(w: World, c: Config, s: Step): int
    requires BooksEnabled(w, c, s)
  {
    var t := w.t;
    match s
    case Fund(i, orders, now) =>
      if Confirms(t, BooksNext(w, c, s).t, i)
      then w.sdk.receipts[i] - Booked(t, i, w.sdk.receipts[i], now) + FundSkipped(t, c.fees, i, w.sdk.receipts[i], orders, now)
      else 0
    case Expire(id, codes, order, _) => ExpireSkipped(t, c.fees, id, codes, order)
    case Regular(id, codes, order, _) => RegularSkipped(t, c.fees, id, codes, order)
    case _ => 0
  }

  /** The exact change of `Balance` a step makes. */
  function Rise(w: World, c: Config, s: Step): int
    requires Enabled(w, c, s)
  {
    if IsRedeemStep(s) then RedeemRise(w, c, s)
    else if IsRefundStep(s) then RefundRise(w, c, s)
    else if IsOperatorStep(s) then OperatorRise(w, c, s)
    else if IsWalletStep(s) then WalletRise(w, c, s)
    else BooksRise(w, c, s)
  }

  lemma OneKind(s: Step)
    ensures IsRedeemStep(s) ==> !IsRefundStep(s) && !IsOperatorStep(s) && !IsWalletStep(s)
    ensures IsRefundStep(s) ==> !IsOperatorStep(s) && !IsWalletStep(s)
    ensures IsOperatorStep(s) ==> !IsWalletStep(s)
    ensures IsBooksStep(s) <==> !IsRedeemStep(s) && !IsRefundStep(s) && !IsOperatorStep(s) && !IsWalletStep(s)
  {
  }

  /** A step is of one kind, and its kind says what it needs and does. */
  lemma ByKind(w: World, c: Config, s: Step)
    requires Enabled(w, c, s)
    ensures IsRedeemStep(s) ==> RedeemEnabled(w, c, s) && Next(w, c, s) == RedeemNext(w, c, s) && Rise(w, c, s) == RedeemRise(w, c, s)
    ensures IsRefundStep(s) ==> RefundEnabled(w, c, s) && Next(w, c, s) == RefundNext(w, c, s) && Rise(w, c, s) == RefundRise(w, c, s)
    ensures IsOperatorStep(s) ==>
      OperatorEnabled(w, c, s) && Next(w, c, s) == OperatorNext(w, c, s) && Rise(w, c, s) == OperatorRise(w, c, s)
    ensures IsWalletStep(s) ==> WalletEnabled(w, c, s) && Next(w, c, s) == WalletNext(w, c, s) && Rise(w, c, s) == WalletRise(w, c, s)
    ensures IsBooksStep(s) ==> BooksEnabled(w, c, s) && Next(w, c, s) == BooksNext(w, c, s) && Rise(w, c, s) == BooksRise(w, c, s)
    ensures IsRedeemStep(s) || IsRefundStep(s) || IsOperatorStep(s) || IsWalletStep(s) || IsBooksStep(s)
  {
    hide IsRedeemStep, IsRefundStep, IsOperatorStep, IsWalletStep, IsBooksStep, RedeemNext, RedeemEnabled, RedeemRise,
         RefundNext, RefundEnabled, RefundRise, OperatorNext, OperatorEnabled, OperatorRise, WalletNext, WalletEnabled,
         WalletRise, BooksNext, BooksEnabled, BooksRise;
    OneKind(s);
  }

  // ----- the invariant -----

  ghost predicate InvFunds(funds: seq<FundTx>, receipts: map<nat, int>) {
    && (forall i :: 0 <= i < |funds| && funds[i].status == Pending ==> funds[i].dust == 0)
    && (forall i :: 0 <= i < |funds| ==> funds[i].fee >= 0)
    && (forall i :: i in receipts ==> receipts[i] >= 0)
    && (forall i :: 0 <= i < |funds| && funds[i].status != Pending ==> i in receipts)
    && (forall i :: i in receipts ==> i < |funds|)
  }

  ghost predicate InvRedeems(s: seq<RedeemTx>, vouchers: nat, sent: map<Key, Payment>, redeeming: map<nat, RedeemPc>) {
    && (forall i :: 0 <= i < |s| ==> s[i].voucher < vouchers && s[i].msat > 0 && s[i].lnFee >= 0)
    && (forall i: nat :: KRedeem(i) in sent ==> i < |s| && sent[KRedeem(i)].amount == s[i].msat)
    && (forall i: nat :: KRedeem(i) in sent && i < |s| && s[i].status == Failed ==> sent[KRedeem(i)].status == Returned)
    && (forall i: nat :: i in redeeming ==>
          && i < |s| && s[i].status == Pending
          && (redeeming[i].Deducted? <==> KRedeem(i) !in sent))
  }

  ghost predicate InvOperators(s: seq<OperatorTx>, sent: map<Key, Payment>, withdrawing: map<nat, WithdrawPc>) {
    && (forall i: nat :: KWithdraw(i) in sent ==> i < |s| && s[i].kind == OpWithdraw && sent[KWithdraw(i)].amount == s[i].amount)
    && (forall i: nat :: i in withdrawing ==>
          && i < |s| && s[i].kind == OpWithdraw && s[i].status == Pending
          && (withdrawing[i].Inserted? <==> KWithdraw(i) !in sent))
  }

  ghost predicate InvRefunds(s: seq<RefundTx>, sent: map<Key, Payment>, worker: WorkerPc) {
    && (forall i :: 0 <= i < |s| ==> s[i].key == NoKey || s[i].key == KRefund(i))
    && (forall i: nat :: KRefund(i) in sent ==> i < |s| && s[i].key == KRefund(i))
    && (worker.Idle? || (worker.id < |s| && !worker.row.refunded && !worker.row.inFlight))
    && (worker.Chosen? ==> s[worker.id] == worker.row)
    && (worker.Marked? ==>
          && worker.key == KRefund(worker.id)
          && s[worker.id] == worker.row.(inFlight := true, key := worker.key))
    && (worker.PaidOut? ==>
          && KRefund(worker.id) in sent
          && s[worker.id] == worker.row.(inFlight := true, key := KRefund(worker.id)))
  }

  /** No key is used for two payments, and a key belongs to the row it was derived from. */
  ghost predicate InvSdk(sent: map<Key, Payment>, outflows: seq<Outflow>) {
    && NoKey !in sent
    && (forall i :: 0 <= i < |outflows| ==> outflows[i].key in sent && outflows[i].key == KeyOf(outflows[i].owner))
    && (forall i, j :: 0 <= i < j < |outflows| ==> outflows[i].key != outflows[j].key)
  }

  ghost predicate Inv(w: World) {
    && NonNegativeBalances(w.t.vouchers)
    && InvFunds(w.t.funds, w.sdk.receipts)
    && InvRedeems(w.t.redeems, |w.t.vouchers|, w.sdk.sent, w.redeeming)
    && InvOperators(w.t.operators, w.sdk.sent, w.withdrawing)
    && InvRefunds(w.t.refunds, w.sdk.sent, w.worker)
    && InvSdk(w.sdk.sent, w.sdk.outflows)
  }
}
