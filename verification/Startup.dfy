/** The pass over pending redeems when the process starts. */
module Startup {
  import opened Options
  import opened Schema
  import opened Service
  import opened ServiceSteps
  import opened Solvency
  import opened Database
  import Ledger

  /** The SDK's answer for the first `n` rows, one after the other. */
  function ResolveRows(t: Tables, sent: map<Key, Payment>, n: nat, now: int): Tables {
    if n == 0 then t else ResolveRow(ResolveRows(t, sent, n - 1, now), sent, n - 1, now)
  }

  method ResolvePendingRedeems(db: Db, sent: map<Key, Payment>, now: int)
    modifies db
    ensures db.View() == ResolveRows(old(db.View()), sent, |old(db.redeems)|, now)
  {
    for i := 0 to |db.redeems|
      invariant |db.redeems| == |old(db.redeems)|
      invariant db.View() == ResolveRows(old(db.View()), sent, i, now)
    {
      var r := db.redeems[i];
      if r.status != Pending {
        continue;
      }
      if !r.paymentStored || KRedeem(i) !in sent {
        continue;
      }
      var p := sent[KRedeem(i)];
      match p.status {
        case Completed =>
          var actualFee := ActualSendFee(p, 0);
          ghost var before := db.View();
          db.UpdateRedeemTx(i, Confirmed, r.lnFee - actualFee, actualFee);
          assert db.redeems == Ledger.ConfirmRedeem(before, i, actualFee).redeems;
        case Returned =>
          db.PaymentFailed(i, now);
        case Open =>
      }
    }
  }

  lemma RowStep(w: World, c: Ledger.Config, i: nat, now: int)
    requires i < |w.t.redeems| && i !in w.redeeming && w.t.redeems[i].status == Pending
    ensures Enabled(w, c, ResolveRedeem(i, now))
    ensures Next(w, c, ResolveRedeem(i, now)) == w.(t := ResolveRow(w.t, w.sdk.sent, i, now))
  {
    hide RefundNext, OperatorNext, WalletNext, BooksNext;
  }

  lemma {:induction false} RowsLeft(t: Tables, sent: map<Key, Payment>, n: nat, now: int)
    ensures var u := ResolveRows(t, sent, n, now);
      && |u.redeems| == |t.redeems|
      && (forall j :: n <= j < |t.redeems| ==> u.redeems[j] == t.redeems[j])
      && (forall j :: 0 <= j < n && j < |t.redeems| ==> Settled(t.redeems[j], u.redeems[j], sent, j))
  {
    if n > 0 { RowsLeft(t, sent, n - 1, now); }
  }

  /** What becomes of a row: a pending one whose payment is known to have ended is ended the same way. */
  predicate Settled(before: RedeemTx, after: RedeemTx, sent: map<Key, Payment>, i: nat) {
    var ended := before.status == Pending && before.paymentStored && KRedeem(i) in sent && sent[KRedeem(i)].status != Open;
    if !ended then after == before
    else after.status == if sent[KRedeem(i)].status == Completed then Confirmed else Failed
  }

  /** What startup makes of a pending withdraw: given up without a stored payment id, otherwise ended as
      its payment ended, and left alone while that is open or unknown. */
  lemma WithdrawLeft(w: World, c: Ledger.Config, i: nat)
    requires Enabled(w, c, ResolveWithdraw(i))
    ensures var before, v := w.t.operators[i], Next(w, c, ResolveWithdraw(i));
      && |v.t.operators| == |w.t.operators| && v == w.(t := w.t.(operators := w.t.operators[i := v.t.operators[i]]))
      && var after, paid := v.t.operators[i], KWithdraw(i) in w.sdk.sent;
         && (!before.paymentStored ==> after.status == Failed)
         && (before.paymentStored && paid && w.sdk.sent[KWithdraw(i)].status == Completed ==> after.status == Confirmed)
         && (before.paymentStored && paid && w.sdk.sent[KWithdraw(i)].status == Returned ==> after.status == Failed)
         && (before.paymentStored && (!paid || w.sdk.sent[KWithdraw(i)].status == Open) ==> after == before)
  {
    hide RedeemNext, RefundNext, WalletNext, BooksNext, RedeemEnabled, RefundEnabled, WalletEnabled, BooksEnabled;
  }

  /** The pass is a run of single-row steps of the service, right after a crash. */
  lemma {:induction false} PassIsRun(w: World, c: Ledger.Config, n: nat, now: int)
    returns (ws: seq<World>, cs: seq<Ledger.Config>, ss: seq<Step>)
    requires w.redeeming == map[] && n <= |w.t.redeems|
    ensures Run(ws, cs, ss) && ws[0] == w && ws[|ss|] == w.(t := ResolveRows(w.t, w.sdk.sent, n, now))
    ensures forall s :: s in ss ==> s.ResolveRedeem?
    decreases n
  {
    hide Next, Enabled, ResolveRow, Settled;
    if n == 0 {
      ws, cs, ss := [w], [], [];
    } else {
      ws, cs, ss := PassIsRun(w, c, n - 1, now);
      RowsLeft(w.t, w.sdk.sent, n - 1, now);
      var last := ws[|ss|];
      if last.t.redeems[n - 1].status == Pending {
        RowStep(last, c, n - 1, now);
        ws, cs, ss := ws + [w.(t := ResolveRows(w.t, w.sdk.sent, n, now))], cs + [c], ss + [ResolveRedeem(n - 1, now)];
      } else {
        NotPending(last.t, w.sdk.sent, n - 1, now);
      }
    }
  }

  lemma NotPending(t: Tables, sent: map<Key, Payment>, i: nat, now: int)
    requires i < |t.redeems| && t.redeems[i].status != Pending
    ensures ResolveRow(t, sent, i, now) == t
  {
  }
}
