/** The ledger statement: bucketed totals of the tables and the derived identity. */
module Statement {
  import opened Sums
  import opened Schema
  import opened Ledger

  // ----- the conditional sums of the statement query -----

  function When(c: bool, x: int): int { if c then x else 0 }

  function VoucherBucket(s: seq<Voucher>, active: bool): seq<int> {
    seq(|s|, i requires 0 <= i < |s| => When(s[i].active == active && s[i].balance > 0, s[i].balance))
  }

  predicate InRefundBucket(r: RefundTx, b: RefundBucket) {
    match b
    case PendingRefunds => IsPending(r)
    case InFlightRefunds => IsInFlight(r)
    case AbandonedRefunds => IsAbandoned(r)
    case PaidRefunds => r.refunded
  }

  datatype RefundBucket = PendingRefunds | InFlightRefunds | AbandonedRefunds | PaidRefunds

  function RefundAmounts(s: seq<RefundTx>, b: RefundBucket): seq<int> {
    seq(|s|, i requires 0 <= i < |s| => When(InRefundBucket(s[i], b), s[i].amount))
  }
  function RefundFees(s: seq<RefundTx>, b: RefundBucket): seq<int> {
    seq(|s|, i requires 0 <= i < |s| => When(InRefundBucket(s[i], b), s[i].dbTxFee))
  }
  function PaidServiceFees(s: seq<RefundTx>): seq<int> {
    seq(|s|, i requires 0 <= i < |s| => When(s[i].refunded, s[i].dbTxFee + s[i].actualFee))
  }
  function PaidLnFees(s: seq<RefundTx>): seq<int> {
    seq(|s|, i requires 0 <= i < |s| => When(s[i].refunded, s[i].actualFee))
  }
  function RefundDusts(s: seq<RefundTx>): seq<int> {
    seq(|s|, i requires 0 <= i < |s| => s[i].dust)
  }

  function RedeemMsats(s: seq<RedeemTx>, status: Status): seq<int> {
    seq(|s|, i requires 0 <= i < |s| => When(s[i].status == status, s[i].msat))
  }
  function RedeemLnFees(s: seq<RedeemTx>, status: Status): seq<int> {
    seq(|s|, i requires 0 <= i < |s| => When(s[i].status == status, s[i].lnFee))
  }
  function RedeemActualFees(s: seq<RedeemTx>): seq<int> {
    seq(|s|, i requires 0 <= i < |s| => When(s[i].status == Confirmed, s[i].actualLnFee))
  }

  function TransferFees(s: seq<TransferTx>): seq<int> { seq(|s|, i requires 0 <= i < |s| => s[i].fee) }
  function TransferDusts(s: seq<TransferTx>): seq<int> { seq(|s|, i requires 0 <= i < |s| => s[i].dust) }

  function WithdrawnGross(s: seq<OperatorTx>): seq<int> {
    seq(|s|, i requires 0 <= i < |s| => When(s[i].kind == OpWithdraw && s[i].status == Confirmed, s[i].amount + s[i].fee))
  }

  function DepositAmounts(s: seq<OperatorTx>): seq<int> {
    seq(|s|, i requires 0 <= i < |s| => When(s[i].kind == OpDeposit && s[i].status == Confirmed, s[i].amount))
  }

  // ----- the statement object -----

  class LedgerStatement {
    // totals scanned from the query
    const activeBalance: int
    const inactiveBalance: int
    const pendingAmount: int
    const pendingFee: int
    const inFlightAmount: int
    const inFlightFee: int
    const abandonedAmount: int
    const abandonedFee: int
    const redeemsPendingAmount: int
    const redeemsPendingFee: int
    const redeemServiceFee: int
    const redeemLnFee: int
    const refundServiceFee: int
    const refundLnFee: int
    const refundDust: int
    const transferFee: int
    const transferDust: int
    const fundDust: int
    const deposits: int
    const withdrawn: int
    // filled in by Finalize
    var walletMsat: int
    var refundsHeld: int
    var redeemsHeld: int
    var feesTotal: int
    var dustTotal: int
    var available: int
    var explainedMsat: int
    var imbalanceMsat: int
    var balanced: bool

    /** The aggregation query, one conditional sum per field. */
    constructor (t: Tables)
      ensures FromTables(t)
    {
      activeBalance := Sum(VoucherBucket(t.vouchers, true));
      inactiveBalance := Sum(VoucherBucket(t.vouchers, false));
      pendingAmount := Sum(RefundAmounts(t.refunds, PendingRefunds));
      pendingFee := Sum(RefundFees(t.refunds, PendingRefunds));
      inFlightAmount := Sum(RefundAmounts(t.refunds, InFlightRefunds));
      inFlightFee := Sum(RefundFees(t.refunds, InFlightRefunds));
      abandonedAmount := Sum(RefundAmounts(t.refunds, AbandonedRefunds));
      abandonedFee := Sum(RefundFees(t.refunds, AbandonedRefunds));
      redeemsPendingAmount := Sum(RedeemMsats(t.redeems, Pending));
      redeemsPendingFee := Sum(RedeemLnFees(t.redeems, Pending));
      redeemServiceFee := Sum(RedeemLnFees(t.redeems, Confirmed));
      redeemLnFee := Sum(RedeemActualFees(t.redeems));
      refundServiceFee := Sum(PaidServiceFees(t.refunds));
      refundLnFee := Sum(PaidLnFees(t.refunds));
      refundDust := Sum(RefundDusts(t.refunds));
      transferFee := Sum(TransferFees(t.transfers));
      transferDust := Sum(TransferDusts(t.transfers));
      fundDust := Sum(FundValues(t.funds));
      deposits := Sum(DepositAmounts(t.operators));
      withdrawn := Sum(WithdrawnGross(t.operators));
    }

    ghost predicate FromTables(t: Tables) {
      && activeBalance == Sum(VoucherBucket(t.vouchers, true))
      && inactiveBalance == Sum(VoucherBucket(t.vouchers, false))
      && pendingAmount == Sum(RefundAmounts(t.refunds, PendingRefunds))
      && pendingFee == Sum(RefundFees(t.refunds, PendingRefunds))
      && inFlightAmount == Sum(RefundAmounts(t.refunds, InFlightRefunds))
      && inFlightFee == Sum(RefundFees(t.refunds, InFlightRefunds))
      && abandonedAmount == Sum(RefundAmounts(t.refunds, AbandonedRefunds))
      && abandonedFee == Sum(RefundFees(t.refunds, AbandonedRefunds))
      && redeemsPendingAmount == Sum(RedeemMsats(t.redeems, Pending))
      && redeemsPendingFee == Sum(RedeemLnFees(t.redeems, Pending))
      && redeemServiceFee == Sum(RedeemLnFees(t.redeems, Confirmed))
      && redeemLnFee == Sum(RedeemActualFees(t.redeems))
      && refundServiceFee == Sum(PaidServiceFees(t.refunds))
      && refundLnFee == Sum(PaidLnFees(t.refunds))
      && refundDust == Sum(RefundDusts(t.refunds))
      && transferFee == Sum(TransferFees(t.transfers))
      && transferDust == Sum(TransferDusts(t.transfers))
      && fundDust == Sum(FundValues(t.funds))
      && deposits == Sum(DepositAmounts(t.operators))
      && withdrawn == Sum(WithdrawnGross(t.operators))
    }

    /** Derived totals. The buckets and the derived fields come to exactly one value per
        row, the books of the model; only negative balances would escape them. */
    method Finalize(wallet: int, ghost t: Tables)
      requires FromTables(t)
      modifies this
      ensures walletMsat == wallet
      ensures Liabilities() == LiabilitiesOf(t) - Sum(Negatives(t.vouchers)) && available == EquityOf(t)
      ensures explainedMsat == Explained(t) - Sum(Negatives(t.vouchers))
      ensures imbalanceMsat == wallet - explainedMsat && (balanced <==> wallet >= explainedMsat)
      ensures NonNegativeBalances(t.vouchers) ==> (balanced <==> wallet >= Explained(t))
    {
      walletMsat := wallet;
      refundsHeld := (pendingAmount + pendingFee) + (inFlightAmount + inFlightFee) + abandonedAmount + abandonedFee;
      redeemsHeld := redeemsPendingAmount + redeemsPendingFee;
      feesTotal := transferFee + (redeemServiceFee - redeemLnFee) + (refundServiceFee - refundLnFee);
      dustTotal := fundDust + transferDust + refundDust;
      available := feesTotal + dustTotal - withdrawn;
      explainedMsat := activeBalance + inactiveBalance + refundsHeld + redeemsHeld + available;
      imbalanceMsat := walletMsat - explainedMsat;
      balanced := imbalanceMsat >= 0;
      BucketsMakeBooks(t);
      if NonNegativeBalances(t.vouchers) { NoNegatives(t.vouchers); }
    }

    function Liabilities(): int
      reads this
    {
      activeBalance + inactiveBalance + refundsHeld + redeemsHeld
    }
  }

  // ----- the books, row by row -----

  function UnpaidRefunds(s: seq<RefundTx>): seq<int> {
    seq(|s|, i requires 0 <= i < |s| => When(!s[i].refunded, s[i].amount + s[i].dbTxFee))
  }

  function PendingRedeems(s: seq<RedeemTx>): seq<int> {
    seq(|s|, i requires 0 <= i < |s| => When(s[i].status == Pending, s[i].msat + s[i].lnFee))
  }

  /** What customers are owed. */
  function LiabilitiesOf(t: Tables): int {
    Sum(VoucherValues(t.vouchers)) + Sum(UnpaidRefunds(t.refunds)) + Sum(PendingRedeems(t.redeems))
  }

  /** What the operator may take out. */
  function EquityOf(t: Tables): int {
    Explained(t) - LiabilitiesOf(t)
  }

  /** A refund row is in exactly one bucket. */
  lemma OneBucket(r: RefundTx)
    ensures exists b :: InRefundBucket(r, b)
    ensures forall a, b :: InRefundBucket(r, a) && InRefundBucket(r, b) ==> a == b
  {
    assert InRefundBucket(r, PendingRefunds) || InRefundBucket(r, InFlightRefunds)
        || InRefundBucket(r, AbandonedRefunds) || InRefundBucket(r, PaidRefunds);
  }

  /** How the updates of a refund row move it between the buckets, and what they do to the
      books: an attempt, its failure and a restart move nothing but the bucket, the third
      failure abandons, and a payment takes off what left, amount and fee. */
  lemma RefundMoves(t: Tables, i: nat, key: Key, fee: int)
    requires i < |t.refunds| && !t.refunds[i].refunded
    ensures var marked := MarkInFlight(t.refunds, i, key);
      && InRefundBucket(marked[i], InFlightRefunds) && Explained(t.(refunds := marked)) == Explained(t)
    ensures var failed := MarkRefundFailed(t.refunds, i);
      && InRefundBucket(failed[i], if t.refunds[i].retry + 1 < MAX_RETRIES then PendingRefunds else AbandonedRefunds)
      && Explained(t.(refunds := failed)) == Explained(t)
    ensures var paid := MarkPaid(t.refunds, i, t.refunds[i].dbTxFee - fee, fee);
      && InRefundBucket(paid[i], PaidRefunds)
      && Explained(t.(refunds := paid)) == Explained(t) - t.refunds[i].amount - fee
  {
    RefundPut(t.refunds, i, MarkInFlight(t.refunds, i, key)[i]);
    RefundPut(t.refunds, i, MarkRefundFailed(t.refunds, i)[i]);
    RefundPut(t.refunds, i, MarkPaid(t.refunds, i, t.refunds[i].dbTxFee - fee, fee)[i]);
  }

  /** Giving up a withdraw changes nothing on the books; confirming it takes its gross out of equity. */
  lemma WithdrawMoves(t: Tables, i: nat, fee: int)
    requires i < |t.operators| && t.operators[i].kind == OpWithdraw && t.operators[i].status == Pending
    ensures Explained(t.(operators := FailOperator(t.operators, i))) == Explained(t)
    ensures var u := t.(operators := ConfirmOperator(t.operators, i, fee));
      EquityOf(u) == EquityOf(t) - t.operators[i].amount - fee && LiabilitiesOf(u) == LiabilitiesOf(t)
  {
    OperatorPut(t.operators, i, FailOperator(t.operators, i)[i]);
    OperatorPut(t.operators, i, ConfirmOperator(t.operators, i, fee)[i]);
  }

  /** Overdrawn balances, which neither voucher bucket counts. */
  function Negatives(s: seq<Voucher>): seq<int> {
    seq(|s|, i requires 0 <= i < |s| => When(s[i].balance < 0, s[i].balance))
  }

  lemma NoNegatives(s: seq<Voucher>)
    requires NonNegativeBalances(s)
    ensures Sum(Negatives(s)) == 0
  {
    assert Negatives(s) == Zeros(|s|);
    SumZeros(Zeros(|s|));
  }

  /** What one voucher adds to the bucket of the active or of the inactive ones. */
  lemma BucketPut(s: seq<Voucher>, i: nat, v: Voucher, active: bool)
    requires i < |s|
    ensures Sum(VoucherBucket(s[i := v], active))
            == Sum(VoucherBucket(s, active)) - (if s[i].active == active && s[i].balance > 0 then s[i].balance else 0)
               + (if v.active == active && v.balance > 0 then v.balance else 0)
  {
    assert VoucherBucket(s[i := v], active) == VoucherBucket(s, active)[i := When(v.active == active && v.balance > 0, v.balance)];
    SumUpdate(VoucherBucket(s, active), i, When(v.active == active && v.balance > 0, v.balance));
  }

  /** Deactivating a voucher moves just its balance from the active to the inactive bucket, and a
      change of an active balance shows in the active bucket alone. */
  lemma BucketMoves(s: seq<Voucher>, i: nat, balance: nat)
    requires i < |s| && s[i].active && s[i].balance >= 0
    ensures var off := s[i := s[i].(active := false)];
      && Sum(VoucherBucket(off, true)) == Sum(VoucherBucket(s, true)) - s[i].balance
      && Sum(VoucherBucket(off, false)) == Sum(VoucherBucket(s, false)) + s[i].balance
    ensures var set' := s[i := s[i].(balance := balance)];
      && Sum(VoucherBucket(set', true)) == Sum(VoucherBucket(s, true)) - s[i].balance + balance
      && Sum(VoucherBucket(set', false)) == Sum(VoucherBucket(s, false))
  {
    BucketPut(s, i, s[i].(active := false), true);
    BucketPut(s, i, s[i].(active := false), false);
    BucketPut(s, i, s[i].(balance := balance), true);
    BucketPut(s, i, s[i].(balance := balance), false);
  }

  lemma RefundBucketPut(s: seq<RefundTx>, i: nat, r: RefundTx, b: RefundBucket)
    requires i < |s|
    ensures Sum(RefundAmounts(s[i := r], b))
            == Sum(RefundAmounts(s, b)) - When(InRefundBucket(s[i], b), s[i].amount) + When(InRefundBucket(r, b), r.amount)
    ensures Sum(RefundFees(s[i := r], b))
            == Sum(RefundFees(s, b)) - When(InRefundBucket(s[i], b), s[i].dbTxFee) + When(InRefundBucket(r, b), r.dbTxFee)
  {
    assert RefundAmounts(s[i := r], b) == RefundAmounts(s, b)[i := When(InRefundBucket(r, b), r.amount)];
    assert RefundFees(s[i := r], b) == RefundFees(s, b)[i := When(InRefundBucket(r, b), r.dbTxFee)];
    SumUpdate(RefundAmounts(s, b), i, When(InRefundBucket(r, b), r.amount));
    SumUpdate(RefundFees(s, b), i, When(InRefundBucket(r, b), r.dbTxFee));
  }

  /** An attempt moves amount and reserved fee of its row, each for itself, from the pending to the
      in-flight bucket; a payment takes the amount out of all the unpaid ones. */
  lemma AttemptMoves(s: seq<RefundTx>, i: nat, key: Key, netFee: int, actualFee: int)
    requires i < |s| && IsPending(s[i])
    ensures var marked, row := MarkInFlight(s, i, key), s[i];
      && Sum(RefundAmounts(marked, PendingRefunds)) == Sum(RefundAmounts(s, PendingRefunds)) - row.amount
      && Sum(RefundFees(marked, PendingRefunds)) == Sum(RefundFees(s, PendingRefunds)) - row.dbTxFee
      && Sum(RefundAmounts(marked, InFlightRefunds)) == Sum(RefundAmounts(s, InFlightRefunds)) + row.amount
      && Sum(RefundFees(marked, InFlightRefunds)) == Sum(RefundFees(s, InFlightRefunds)) + row.dbTxFee
    ensures var paid := MarkPaid(MarkInFlight(s, i, key), i, netFee, actualFee);
      && Sum(RefundAmounts(paid, InFlightRefunds)) == Sum(RefundAmounts(s, InFlightRefunds))
      && Sum(RefundAmounts(paid, PaidRefunds)) == Sum(RefundAmounts(s, PaidRefunds)) + s[i].amount
      && Sum(RefundFees(paid, PaidRefunds)) == Sum(RefundFees(s, PaidRefunds)) + netFee
  {
    var marked := MarkInFlight(s, i, key);
    var paid := MarkPaid(marked, i, netFee, actualFee);
    RefundBucketPut(s, i, marked[i], PendingRefunds);
    RefundBucketPut(s, i, marked[i], InFlightRefunds);
    RefundBucketPut(s, i, marked[i], PaidRefunds);
    RefundBucketPut(marked, i, paid[i], InFlightRefunds);
    RefundBucketPut(marked, i, paid[i], PaidRefunds);
  }

  /** A deposit that arrives counts as a deposit with what arrived, and is no part of the books. */
  lemma DepositMoves(t: Tables, i: nat, amount: int)
    requires i < |t.operators| && t.operators[i].kind == OpDeposit && t.operators[i].status == Pending
    ensures var u := t.(operators := t.operators[i := t.operators[i].(status := Confirmed, amount := amount)]);
      && Sum(DepositAmounts(u.operators)) == Sum(DepositAmounts(t.operators)) + amount
      && Sum(WithdrawnGross(u.operators)) == Sum(WithdrawnGross(t.operators)) && Explained(u) == Explained(t)
  {
    var o := t.operators[i].(status := Confirmed, amount := amount);
    assert DepositAmounts(t.operators[i := o]) == DepositAmounts(t.operators)[i := amount];
    SumUpdate(DepositAmounts(t.operators), i, amount);
    assert WithdrawnGross(t.operators[i := o]) == WithdrawnGross(t.operators);
    OperatorPut(t.operators, i, o);
  }

  /** Confirming a redeem takes its amount and the actual fee off the books and splits the reserved fee
      into the two; failing it takes off the whole row. */
  lemma RedeemMoves(t: Tables, i: nat, fee: int, now: int)
    requires i < |t.redeems| && t.redeems[i].status == Pending
    ensures var u := ConfirmRedeem(t, i, fee);
      && Explained(u) == Explained(t) - t.redeems[i].msat - fee
      && u.redeems[i].dbTxFee + u.redeems[i].actualLnFee == t.redeems[i].lnFee && u.redeems[i].actualLnFee == fee
      && LiabilitiesOf(u) == LiabilitiesOf(t) - t.redeems[i].msat - t.redeems[i].lnFee
  {
    var u := ConfirmRedeem(t, i, fee);
    RedeemPut(t.redeems, i, u.redeems[i]);
    var r := When(u.redeems[i].status == Pending, u.redeems[i].msat + u.redeems[i].lnFee);
    assert PendingRedeems(u.redeems) == PendingRedeems(t.redeems)[i := r];
    SumUpdate(PendingRedeems(t.redeems), i, r);
  }

  lemma VoucherBuckets(s: seq<Voucher>)
    ensures Sum(VoucherBucket(s, true)) + Sum(VoucherBucket(s, false)) == Sum(VoucherValues(s)) - Sum(Negatives(s))
  {
    SumOfThree(VoucherBucket(s, true), VoucherBucket(s, false), Negatives(s), VoucherValues(s));
  }

  function HeldIn(s: seq<RefundTx>, b: RefundBucket): seq<int> {
    seq(|s|, i requires 0 <= i < |s| => When(InRefundBucket(s[i], b), s[i].amount + s[i].dbTxFee))
  }

  lemma RefundBuckets(s: seq<RefundTx>)
    ensures Sum(RefundAmounts(s, PendingRefunds)) + Sum(RefundFees(s, PendingRefunds))
            + Sum(RefundAmounts(s, InFlightRefunds)) + Sum(RefundFees(s, InFlightRefunds))
            + Sum(RefundAmounts(s, AbandonedRefunds)) + Sum(RefundFees(s, AbandonedRefunds)) == Sum(UnpaidRefunds(s))
  {
    SumOfTwo(RefundAmounts(s, PendingRefunds), RefundFees(s, PendingRefunds), HeldIn(s, PendingRefunds));
    SumOfTwo(RefundAmounts(s, InFlightRefunds), RefundFees(s, InFlightRefunds), HeldIn(s, InFlightRefunds));
    SumOfTwo(RefundAmounts(s, AbandonedRefunds), RefundFees(s, AbandonedRefunds), HeldIn(s, AbandonedRefunds));
    SumOfThree(HeldIn(s, PendingRefunds), HeldIn(s, InFlightRefunds), HeldIn(s, AbandonedRefunds), UnpaidRefunds(s));
  }

  function PaidNet(s: seq<RefundTx>): seq<int> {
    seq(|s|, i requires 0 <= i < |s| => When(s[i].refunded, s[i].dbTxFee))
  }

  lemma RefundEquity(s: seq<RefundTx>)
    ensures Sum(PaidServiceFees(s)) - Sum(PaidLnFees(s)) + Sum(RefundDusts(s)) + Sum(UnpaidRefunds(s)) == Sum(RefundValues(s))
  {
    SumOfTwo(PaidNet(s), PaidLnFees(s), PaidServiceFees(s));
    SumOfThree(PaidNet(s), RefundDusts(s), UnpaidRefunds(s), RefundValues(s));
  }

  function ConfirmedNet(s: seq<RedeemTx>): seq<int> {
    seq(|s|, i requires 0 <= i < |s| => When(s[i].status == Confirmed, s[i].lnFee - s[i].actualLnFee))
  }

  lemma RedeemBuckets(s: seq<RedeemTx>)
    ensures Sum(RedeemMsats(s, Pending)) + Sum(RedeemLnFees(s, Pending)) == Sum(PendingRedeems(s))
    ensures Sum(RedeemLnFees(s, Confirmed)) - Sum(RedeemActualFees(s)) + Sum(PendingRedeems(s)) == Sum(RedeemValues(s))
  {
    SumOfTwo(RedeemMsats(s, Pending), RedeemLnFees(s, Pending), PendingRedeems(s));
    SumOfTwo(ConfirmedNet(s), RedeemActualFees(s), RedeemLnFees(s, Confirmed));
    SumOfTwo(ConfirmedNet(s), PendingRedeems(s), RedeemValues(s));
  }

  lemma OperatorBuckets(s: seq<OperatorTx>)
    ensures Sum(OperatorValues(s)) == -Sum(WithdrawnGross(s))
  {
    SumOfTwo(OperatorValues(s), WithdrawnGross(s), Zeros(|s|));
    SumZeros(Zeros(|s|));
  }

  /** All the buckets together are one value per row. */
  lemma BucketsMakeBooks(t: Tables)
    ensures LiabilitiesOf(t) - Sum(Negatives(t.vouchers))
            == Sum(VoucherBucket(t.vouchers, true)) + Sum(VoucherBucket(t.vouchers, false))
               + (Sum(RefundAmounts(t.refunds, PendingRefunds)) + Sum(RefundFees(t.refunds, PendingRefunds))
                  + Sum(RefundAmounts(t.refunds, InFlightRefunds)) + Sum(RefundFees(t.refunds, InFlightRefunds))
                  + Sum(RefundAmounts(t.refunds, AbandonedRefunds)) + Sum(RefundFees(t.refunds, AbandonedRefunds)))
               + (Sum(RedeemMsats(t.redeems, Pending)) + Sum(RedeemLnFees(t.redeems, Pending)))
    ensures EquityOf(t)
            == Sum(TransferFees(t.transfers)) + (Sum(RedeemLnFees(t.redeems, Confirmed)) - Sum(RedeemActualFees(t.redeems)))
               + (Sum(PaidServiceFees(t.refunds)) - Sum(PaidLnFees(t.refunds)))
               + Sum(FundValues(t.funds)) + Sum(TransferDusts(t.transfers)) + Sum(RefundDusts(t.refunds))
               - Sum(WithdrawnGross(t.operators))
  {
    VoucherBuckets(t.vouchers);
    RefundBuckets(t.refunds);
    RefundEquity(t.refunds);
    RedeemBuckets(t.redeems);
    OperatorBuckets(t.operators);
    SumOfTwo(TransferFees(t.transfers), TransferDusts(t.transfers), TransferValues(t.transfers));
  }
}
