/** Every database transaction as a function from the tables before it to the
    tables after it; `None` is a rollback. */
module Ledger {
  import opened Options
  import opened Sums
  import opened Split
  import opened Fees
  import opened Schema
  import GoInt

  datatype Config = Config(fees: Schedule, maxFund: nat)

  /** Expiry as the lookups test it. */
  predicate Lapsed(v: Voucher, now: int) {
    if v.absoluteExpiry then v.createdAt + v.refundAfter < now
    else v.updatedAt != 0 && v.updatedAt + v.refundAfter < now
  }

  predicate Usable(v: Voucher, now: int) {
    v.active && !Lapsed(v, now)
  }

  // ----- voucher rows -----

  /** Guarded balance change; taking from a single-use voucher deactivates it. */
  function UpdateVoucherBalance(vs: seq<Voucher>, id: nat, msats: int, now: int): Option<seq<Voucher>> {
    if id < |vs| && vs[id].balance >= -msats then
      var v := vs[id];
      Some(vs[id := v.(balance := v.balance + msats,
                       active := if msats < 0 && v.singleUse then false else v.active,
                       updatedAt := now)])
    else None
  }

  /** Unguarded: gives back what a failed payment had taken, and reactivates. */
  function AddVoucherBalance(vs: seq<Voucher>, id: nat, msats: int, now: int): seq<Voucher> {
    if id < |vs| then
      vs[id := vs[id].(balance := vs[id].balance + msats, active := true, updatedAt := now)]
    else vs
  }

  function EditVoucher(vs: seq<Voucher>, id: nat, p: Voucher, now: int): seq<Voucher> {
    if id < |vs| then
      vs[id := p.(batch := vs[id].batch, balance := vs[id].balance, createdAt := vs[id].createdAt,
                  lastAt := 0, active := true, updatedAt := now)]
    else vs
  }

  function NewVoucher(p: Voucher, now: int): Voucher {
    p.(balance := 0, lastAt := 0, active := true, createdAt := now, updatedAt := 0)
  }

  // ----- batch credits -----

  function LiveInBatch(vs: seq<Voucher>, batch: string, now: int): seq<nat> {
    if vs == [] then [] else
      var n := |vs| - 1;
      LiveInBatch(vs[..n], batch, now) + if vs[n].batch == batch && Usable(vs[n], now) then [n] else []
  }

  function CreditAll(vs: seq<Voucher>, ids: seq<nat>, share: int, now: int): Option<seq<Voucher>> {
    if ids == [] then Some(vs) else
      var n := |ids| - 1;
      match CreditAll(vs, ids[..n], share, now)
      case None => None
      case Some(w) => UpdateVoucherBalance(w, ids[n], share, now)
  }

  /** The whole-sat share of each of `n` vouchers. */
  function Share(total: int, n: int): int
    requires n > 0
  {
    GoInt.Div(GoInt.Div(total, n), 1000) * 1000
  }

  function Dust(total: int, n: int): int
    requires n > 0
  {
    total - Share(total, n) * n
  }

  // ----- refund rows from a balance -----

  function RefundRow(id: nat, code: string, p: Priced): RefundTx
    requires p.Row?
  {
    RefundTx(id, code, p.amount, p.fee, p.dust, 0, false, false, NoKey, 0)
  }

  /** Rows for the splits in the order the map is walked; sub-minimum ones are skipped. */
  function FanOutRows(c: Schedule, id: nat, m: map<string, int>, order: seq<string>): seq<RefundTx> {
    if order == [] then [] else
      var n := |order| - 1;
      FanOutRows(c, id, m, order[..n]) + FanOutRow(c, id, m, order[n])
  }

  function FanOutRow(c: Schedule, id: nat, m: map<string, int>, code: string): seq<RefundTx> {
    if code in m && PriceRefund(c, m[code]).Row? then [RefundRow(id, code, PriceRefund(c, m[code]))] else []
  }

  predicate AnyAboveMin(c: Schedule, m: map<string, int>) {
    exists code | code in m :: PriceRefund(c, m[code]).Row?
  }

  /** What the skipped splits add up to. */
  function Skipped(c: Schedule, m: map<string, int>, order: seq<string>): int {
    if order == [] then 0 else
      var n := |order| - 1;
      Skipped(c, m, order[..n])
      + if order[n] in m && PriceRefund(c, m[order[n]]).BelowMin? then m[order[n]] else 0
  }

  function RetainedDust(id: nat, codes: seq<RefundCode>, balance: int): RefundTx {
    RefundTx(id, if codes == [] then "" else codes[0].code, 0, 0, balance, 0, true, false, NoKey, 0)
  }

  /** Expiry of one voucher: its balance becomes refund rows, or one retained-dust row. */
  function ExpireVoucher(t: Tables, c: Schedule, id: nat, codes: seq<RefundCode>, order: seq<string>, now: int): Tables {
    if id >= |t.vouchers| || t.vouchers[id].balance <= 0 then t else
      var v := t.vouchers[id];
      var rows := FanOutRows(c, id, SplitOf(v.balance, codes), order);
      t.(refunds := t.refunds + (if rows == [] then [RetainedDust(id, codes, v.balance)] else rows),
         vouchers := t.vouchers[id := v.(balance := 0, active := false, updatedAt := now)])
  }

  /** A regular refund of one voucher: rows and a drained balance, or only the schedule moves. */
  function RegularVoucher(t: Tables, c: Schedule, id: nat, codes: seq<RefundCode>, order: seq<string>, newLast: int): Tables {
    if id >= |t.vouchers| then t else
      var v := t.vouchers[id];
      var m := SplitOf(v.balance, codes);
      if v.balance == 0 || !AnyAboveMin(c, m) then t.(vouchers := t.vouchers[id := v.(lastAt := newLast)])
      else
        t.(refunds := t.refunds + FanOutRows(c, id, m, order),
           vouchers := t.vouchers[id := v.(balance := 0, lastAt := newLast)])
  }

  /** Only the schedule moves: the pass had read a balance of zero. */
  function AdvanceSchedule(vs: seq<Voucher>, id: nat, newLast: int): seq<Voucher> {
    if id < |vs| then vs[id := vs[id].(lastAt := newLast)] else vs
  }

  /** Immediate refund of one just-credited voucher. */
  function ImmediateVoucher(t: Tables, c: Schedule, id: nat, order: seq<string>, now: int): Option<Tables> {
    if id >= |t.vouchers| then None else
      var v := t.vouchers[id];
      if !v.immediate || v.balance == 0 then Some(t)
      else if v.codes == [] then None
      else
        var m := SplitOf(v.balance, v.codes);
        if !AnyAboveMin(c, m) then Some(t)
        else
          Some(t.(refunds := t.refunds + FanOutRows(c, id, m, order),
                  vouchers := t.vouchers[id := v.(balance := 0, lastAt := now)]))
  }

  function OrderFor(orders: map<nat, seq<string>>, id: nat): seq<string> {
    if id in orders then orders[id] else []
  }

  function ImmediateAll(t: Tables, c: Schedule, ids: seq<nat>, orders: map<nat, seq<string>>, now: int): Option<Tables> {
    if ids == [] then Some(t) else
      var n := |ids| - 1;
      match ImmediateAll(t, c, ids[..n], orders, now)
      case None => None
      case Some(u) => ImmediateVoucher(u, c, ids[n], OrderFor(orders, ids[n]), now)
  }

  // ----- funding -----

  /** Receive fee from what arrived; the estimate stays when more arrived than was invoiced. */
  function ReceiveFee(f: FundTx, received: int): int {
    if f.msat - received >= 0 then f.msat - received else f.fee
  }

  datatype Credit = Credit(vouchers: seq<Voucher>, dust: int, credited: seq<nat>)

  function UpdateFundBalance(vs: seq<Voucher>, target: FundTarget, total: int, now: int): Option<Credit> {
    match target
    case ToVoucher(id) =>
      if id < |vs| && Usable(vs[id], now) then
        (match UpdateVoucherBalance(vs, id, total, now)
         case None => None
         case Some(w) => Some(Credit(w, 0, [id])))
      else None
    case ToBatch(batch) =>
      var ids := LiveInBatch(vs, batch, now);
      if ids == [] then None else
        match CreditAll(vs, ids, Share(total, |ids|), now)
        case None => None
        case Some(w) => Some(Credit(w, Dust(total, |ids|), ids))
  }

  /** Confirmation of one fund transaction; a second one finds it no longer pending. */
  function ConfirmFund(t: Tables, c: Schedule, i: nat, received: int, orders: map<nat, seq<string>>, now: int): Tables {
    if i >= |t.funds| || t.funds[i].status != Pending then t else
      var f := t.funds[i];
      var fee := ReceiveFee(f, received);
      match UpdateFundBalance(t.vouchers, f.target, f.msat - fee, now)
      case None => t
      case Some(cr) =>
        var u := t.(vouchers := cr.vouchers, funds := t.funds[i := f.(status := Confirmed, fee := fee)]);
        match ImmediateAll(u, c, cr.credited, orders, now)
        case None => t
        case Some(w) =>
          if cr.dust > 0 && i < |w.funds| then w.(funds := w.funds[i := w.funds[i].(dust := cr.dust)]) else w
  }

  // ----- transfers -----

  datatype Destination = Single(id: nat) | Batch(ids: seq<nat>)

  function DestinationCount(d: Destination): int {
    if d.Single? then 1 else |d.ids|
  }

  /** The checks made on the source as it was read before the transaction. */
  predicate TransferAdmitted(cfg: Config, src: nat, read: Voucher, amount: int, d: Destination, fingerprint: string) {
    && !read.singleUse
    && !(read.unique && fingerprint == "")
    && d != Single(src)
    && DestinationCount(d) > 0
    && 1000 * DestinationCount(d) <= amount <= cfg.maxFund * DestinationCount(d)
    && amount <= read.balance
    && !(read.maxRedeem > 0 && amount > read.maxRedeem)
  }

  function CreditDestination(vs: seq<Voucher>, d: Destination, net: int, now: int): Option<(seq<Voucher>, int)>
    requires DestinationCount(d) > 0
  {
    match d
    case Single(id) =>
      (match UpdateVoucherBalance(vs, id, net, now)
       case None => None
       case Some(w) => Some((w, 0)))
    case Batch(ids) =>
      match CreditAll(vs, ids, Share(net, |ids|), now)
      case None => None
      case Some(w) => Some((w, Dust(net, |ids|)))
  }

  function Transfer(t: Tables, cfg: Config, src: nat, read: Voucher, amount: int, d: Destination,
                    fingerprint: string, now: int): Option<Tables>
  {
    if !TransferAdmitted(cfg, src, read, amount, d, fingerprint) then None else
      var fee := CalculateInternalFee(cfg.fees, amount);
      match UpdateVoucherBalance(t.vouchers, src, -amount, now)
      case None => None
      case Some(vs) =>
        match CreditDestination(vs, d, amount - fee, now)
        case None => None
        case Some(p) =>
          if read.unique && (src, fingerprint) in t.fingerprints then None
          else Some(t.(vouchers := p.0,
                       transfers := t.transfers + [TransferTx(amount, fee, amount - fee, p.1)],
                       fingerprints := if read.unique then t.fingerprints + {(src, fingerprint)} else t.fingerprints))
  }

  // ----- redeems -----

  /** Deduct amount and fee, both against the balance read inside the transaction. */
  function BeginRedeem(t: Tables, c: Schedule, id: nat, amount: int, now: int): Option<Tables> {
    if id >= |t.vouchers| || !t.vouchers[id].active then None else
      var fee := CalculateRedeemFee(c, t.vouchers[id].balance);
      if amount + fee > t.vouchers[id].balance then None else
        match UpdateVoucherBalance(t.vouchers, id, -amount - fee, now)
        case None => None
        case Some(vs) =>
          Some(t.(vouchers := vs, redeems := t.redeems + [RedeemTx(id, amount, fee, 0, 0, Pending, false)]))
  }

  /** The row fails and the deducted balance is restored. */
  function FailRedeem(t: Tables, i: nat, now: int): Tables {
    if i >= |t.redeems| then t else
      var r := t.redeems[i];
      t.(redeems := t.redeems[i := r.(status := Failed, dbTxFee := 0, actualLnFee := 0)],
         vouchers := AddVoucherBalance(t.vouchers, r.voucher, r.msat + r.lnFee, now))
  }

  function ConfirmRedeem(t: Tables, i: nat, actualFee: int): Tables {
    if i >= |t.redeems| then t else
      var r := t.redeems[i];
      t.(redeems := t.redeems[i := r.(status := Confirmed, dbTxFee := r.lnFee - actualFee, actualLnFee := actualFee)])
  }

  function StoreRedeemPayment(t: Tables, i: nat): Tables {
    if i >= |t.redeems| then t else t.(redeems := t.redeems[i := t.redeems[i].(paymentStored := true)])
  }

  const SESSION_WINDOW := 1800

  /** One-shot session: `Some` only for an unused, unexpired k1 of this voucher. */
  function MarkSessionUsed(t: Tables, k1: string, voucher: nat, now: int): Option<Tables> {
    if k1 in t.sessions && t.sessions[k1].voucher == voucher && !t.sessions[k1].used
       && t.sessions[k1].createdAt >= now - SESSION_WINDOW
    then Some(t.(sessions := t.sessions[k1 := t.sessions[k1].(used := true)]))
    else None
  }

  // ----- refund rows -----

  const MAX_RETRIES := 3

  predicate IsPending(r: RefundTx) { !r.refunded && !r.inFlight && r.retry < MAX_RETRIES }
  predicate IsInFlight(r: RefundTx) { !r.refunded && r.inFlight }
  predicate IsAbandoned(r: RefundTx) { !r.refunded && !r.inFlight && r.retry >= MAX_RETRIES }

  function MarkInFlight(s: seq<RefundTx>, i: nat, key: Key): seq<RefundTx> {
    if i < |s| then s[i := s[i].(inFlight := true, key := key)] else s
  }

  function MarkRefundFailed(s: seq<RefundTx>, i: nat): seq<RefundTx> {
    if i < |s| then s[i := s[i].(inFlight := false, retry := s[i].retry + 1)] else s
  }

  function MarkPaid(s: seq<RefundTx>, i: nat, netFee: int, actualFee: int): seq<RefundTx> {
    if i < |s| then s[i := s[i].(refunded := true, inFlight := false, actualFee := actualFee, dbTxFee := netFee)] else s
  }

  function Requeue(r: RefundTx): RefundTx {
    if r.inFlight && !r.refunded && r.key != NoKey then r.(inFlight := false) else r
  }

  /** At worker start: in-flight rows that have a key go back to pending. */
  function ResetKeyedInFlight(s: seq<RefundTx>): seq<RefundTx> {
    seq(|s|, i requires 0 <= i < |s| => Requeue(s[i]))
  }

  /** A row priced again from its gross under the current schedule. */
  function Repriced(c: Schedule, r: RefundTx): RefundTx {
    var gross := r.amount + r.dbTxFee + r.dust;
    match PriceRefund(c, gross)
    case BelowMin => r.(amount := 0, dbTxFee := 0, dust := gross, refunded := true, retry := 0)
    case Row(amount, fee, dust) => r.(amount := amount, dbTxFee := fee, dust := dust, retry := 0)
  }

  function RepriceAbandoned(s: seq<RefundTx>, c: Schedule, i: nat): seq<RefundTx> {
    if i < |s| && IsAbandoned(s[i]) then s[i := Repriced(c, s[i])] else s
  }

  // ----- operator rows -----

  function ConfirmOperator(s: seq<OperatorTx>, i: nat, fee: int): seq<OperatorTx> {
    if i < |s| && s[i].status == Pending then s[i := s[i].(status := Confirmed, fee := fee)] else s
  }

  function FailOperator(s: seq<OperatorTx>, i: nat): seq<OperatorTx> {
    if i < |s| then s[i := s[i].(status := Failed)] else s
  }

  function StoreOperatorPayment(s: seq<OperatorTx>, i: nat): seq<OperatorTx> {
    if i < |s| then s[i := s[i].(paymentStored := true)] else s
  }
}
