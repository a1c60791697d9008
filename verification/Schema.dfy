/** The rows of the database and what each row adds to the books. */
module Schema {
  import opened Sums
  import opened Split

  /** A voucher row; its refund codes (a table of their own in the database) are
      kept with it in insertion order. */
  datatype Voucher = Voucher(
    batch: string, codes: seq<RefundCode>,
    refundAfter: int, absoluteExpiry: bool,
    balance: int, singleUse: bool, transfersOnly: bool, maxRedeem: int, unique: bool,
    firstAt: int, interval: int, lastAt: int, immediate: bool,
    active: bool, createdAt: int, updatedAt: int)

  datatype Status = Pending | Confirmed | Failed

  datatype FundTarget = ToVoucher(id: nat) | ToBatch(batch: string)

  datatype FundTx = FundTx(target: FundTarget, msat: int, fee: int, dust: int, status: Status)

  datatype RedeemTx = RedeemTx(voucher: nat, msat: int, lnFee: int, dbTxFee: int, actualLnFee: int,
                               status: Status, paymentStored: bool)

  /** Who a payment is made for. Its idempotency key is derived from this alone. */
  datatype Owner = Redeem(id: nat) | Refund(id: nat) | Withdraw(id: nat)
  datatype Key = NoKey | KeyOf(owner: Owner)

  datatype RefundTx = RefundTx(voucher: nat, code: string, amount: int, dbTxFee: int, dust: int, actualFee: int,
                               refunded: bool, inFlight: bool, key: Key, retry: nat)

  datatype TransferTx = TransferTx(amount: int, fee: int, net: int, dust: int)

  datatype OperatorKind = OpDeposit | OpWithdraw
  datatype OperatorTx = OperatorTx(kind: OperatorKind, status: Status, amount: int, fee: int, paymentStored: bool)

  datatype Session = Session(voucher: nat, used: bool, createdAt: int)

  datatype Tables = Tables(
    vouchers: seq<Voucher>, funds: seq<FundTx>, redeems: seq<RedeemTx>, refunds: seq<RefundTx>,
    transfers: seq<TransferTx>, operators: seq<OperatorTx>,
    fingerprints: set<(nat, string)>, sessions: map<string, Session>)

  // ----- what one row is worth on the books -----

  function RefundValue(r: RefundTx): int {
    (if r.refunded then 0 else r.amount) + r.dbTxFee + r.dust
  }

  function RedeemValue(r: RedeemTx): int {
    match r.status
    case Pending => r.msat + r.lnFee
    case Confirmed => r.lnFee - r.actualLnFee
    case Failed => 0
  }

  function OperatorValue(o: OperatorTx): int {
    if o.kind == OpWithdraw && o.status == Confirmed then -(o.amount + o.fee) else 0
  }

  function VoucherValues(s: seq<Voucher>): seq<int> { seq(|s|, i requires 0 <= i < |s| => s[i].balance) }
  function FundValues(s: seq<FundTx>): seq<int> { seq(|s|, i requires 0 <= i < |s| => s[i].dust) }
  function RedeemValues(s: seq<RedeemTx>): seq<int> { seq(|s|, i requires 0 <= i < |s| => RedeemValue(s[i])) }
  function RefundValues(s: seq<RefundTx>): seq<int> { seq(|s|, i requires 0 <= i < |s| => RefundValue(s[i])) }
  function TransferValues(s: seq<TransferTx>): seq<int> { seq(|s|, i requires 0 <= i < |s| => s[i].fee + s[i].dust) }
  function OperatorValues(s: seq<OperatorTx>): seq<int> { seq(|s|, i requires 0 <= i < |s| => OperatorValue(s[i])) }

  /** Everything the wallet has to cover. */
  function Explained(t: Tables): int {
    Sum(VoucherValues(t.vouchers)) + Sum(FundValues(t.funds)) + Sum(RedeemValues(t.redeems))
    + Sum(RefundValues(t.refunds)) + Sum(TransferValues(t.transfers)) + Sum(OperatorValues(t.operators))
  }

  lemma VoucherPut(s: seq<Voucher>, i: nat, v: Voucher)
    requires i < |s|
    ensures Sum(VoucherValues(s[i := v])) == Sum(VoucherValues(s)) - s[i].balance + v.balance
  {
    assert VoucherValues(s[i := v]) == VoucherValues(s)[i := v.balance];
    SumUpdate(VoucherValues(s), i, v.balance);
  }

  lemma VoucherAdd(s: seq<Voucher>, v: Voucher)
    ensures Sum(VoucherValues(s + [v])) == Sum(VoucherValues(s)) + v.balance
  {
    assert VoucherValues(s + [v]) == VoucherValues(s) + [v.balance];
    SumAppend(VoucherValues(s), v.balance);
  }

  lemma FundPut(s: seq<FundTx>, i: nat, f: FundTx)
    requires i < |s|
    ensures Sum(FundValues(s[i := f])) == Sum(FundValues(s)) - s[i].dust + f.dust
  {
    assert FundValues(s[i := f]) == FundValues(s)[i := f.dust];
    SumUpdate(FundValues(s), i, f.dust);
  }

  lemma FundAdd(s: seq<FundTx>, f: FundTx)
    ensures Sum(FundValues(s + [f])) == Sum(FundValues(s)) + f.dust
  {
    assert FundValues(s + [f]) == FundValues(s) + [f.dust];
    SumAppend(FundValues(s), f.dust);
  }

  lemma RedeemPut(s: seq<RedeemTx>, i: nat, r: RedeemTx)
    requires i < |s|
    ensures Sum(RedeemValues(s[i := r])) == Sum(RedeemValues(s)) - RedeemValue(s[i]) + RedeemValue(r)
  {
    assert RedeemValues(s[i := r]) == RedeemValues(s)[i := RedeemValue(r)];
    SumUpdate(RedeemValues(s), i, RedeemValue(r));
  }

  lemma RedeemAdd(s: seq<RedeemTx>, r: RedeemTx)
    ensures Sum(RedeemValues(s + [r])) == Sum(RedeemValues(s)) + RedeemValue(r)
  {
    assert RedeemValues(s + [r]) == RedeemValues(s) + [RedeemValue(r)];
    SumAppend(RedeemValues(s), RedeemValue(r));
  }

  lemma RefundPut(s: seq<RefundTx>, i: nat, r: RefundTx)
    requires i < |s|
    ensures Sum(RefundValues(s[i := r])) == Sum(RefundValues(s)) - RefundValue(s[i]) + RefundValue(r)
  {
    assert RefundValues(s[i := r]) == RefundValues(s)[i := RefundValue(r)];
    SumUpdate(RefundValues(s), i, RefundValue(r));
  }

  lemma RefundAddAll(s: seq<RefundTx>, rows: seq<RefundTx>)
    ensures Sum(RefundValues(s + rows)) == Sum(RefundValues(s)) + Sum(RefundValues(rows))
  {
    assert RefundValues(s + rows) == RefundValues(s) + RefundValues(rows);
    SumConcat(RefundValues(s), RefundValues(rows));
  }

  lemma TransferAdd(s: seq<TransferTx>, x: TransferTx)
    ensures Sum(TransferValues(s + [x])) == Sum(TransferValues(s)) + x.fee + x.dust
  {
    assert TransferValues(s + [x]) == TransferValues(s) + [x.fee + x.dust];
    SumAppend(TransferValues(s), x.fee + x.dust);
  }

  lemma OperatorPut(s: seq<OperatorTx>, i: nat, o: OperatorTx)
    requires i < |s|
    ensures Sum(OperatorValues(s[i := o])) == Sum(OperatorValues(s)) - OperatorValue(s[i]) + OperatorValue(o)
  {
    assert OperatorValues(s[i := o]) == OperatorValues(s)[i := OperatorValue(o)];
    SumUpdate(OperatorValues(s), i, OperatorValue(o));
  }

  lemma OperatorAdd(s: seq<OperatorTx>, o: OperatorTx)
    ensures Sum(OperatorValues(s + [o])) == Sum(OperatorValues(s)) + OperatorValue(o)
  {
    assert OperatorValues(s + [o]) == OperatorValues(s) + [OperatorValue(o)];
    SumAppend(OperatorValues(s), OperatorValue(o));
  }

  predicate NonNegativeBalances(s: seq<Voucher>) {
    forall i :: 0 <= i < |s| ==> s[i].balance >= 0
  }
}
