/** The payment semaphore: a one-slot channel, a counter of waiting withdrawals and a
    broadcast channel that every release swaps for a new one and then closes. One step is
    one atomic action of one thread; any number of threads interleave. */
module PaymentSemaphore {
  import opened Sums

  /** Where a thread is. The first line is `acquireForWithdrawal`, the second
      `acquireForRefund`, the last `doRelease`; `again` marks a release by a refund that
      yields and then starts over. */
  datatype Pc =
    | Entering | Looking | Selecting(ch: nat) | Acquired | TimedOut
    | Reading | Blocking | Blocked(ch: nat) | Snapping | Trying(ch: nat) | Rereading
    | Paying | Cooling
    | Swapping(again: bool) | Draining(retired: nat, again: bool) | Closing(retired: nat, again: bool)
    | Finished

  /** Channels are numbered as they are made, `released` being the newest; `closed` counts the
      closings of each. `intruders` counts the withdrawals that went on without the slot. */
  datatype Sema = Sema(slot: bool, waiters: int, released: nat, closed: multiset<nat>, threads: seq<Pc>, intruders: nat)

  const FRESH := Sema(false, 0, 0, multiset{}, [], 0)

  datatype Step =
    | Spawn(refund: bool)
    | Enter(i: nat) | Look(i: nat) | Take(i: nat) | Retry(i: nat) | Expire(i: nat) | Leave(i: nat) | Intrude(i: nat)
    | ReadWaiters(i: nat) | Block(i: nat) | Wake(i: nat) | Snap(i: nat) | Try(i: nat) | Reread(i: nat)
    | Cool(i: nat) | Release(i: nat) | Swap(i: nat) | Drain(i: nat) | Close(i: nat)

  /** Control is there, and a blocking action can go through. */
  predicate Enabled(s: Sema, step: Step) {
    match step
    case Spawn(_) => true
    case Enter(i) => i < |s.threads| && s.threads[i] == Entering
    case Look(i) => i < |s.threads| && s.threads[i] == Looking
    case Take(i) => i < |s.threads| && s.threads[i].Selecting? && !s.slot
    case Retry(i) => i < |s.threads| && s.threads[i].Selecting? && s.threads[i].ch in s.closed
    case Expire(i) => i < |s.threads| && s.threads[i].Selecting?
    case Leave(i) => i < |s.threads| && (s.threads[i] == Acquired || s.threads[i] == TimedOut)
    case Intrude(i) => i < |s.threads| && s.threads[i] == TimedOut
    case ReadWaiters(i) => i < |s.threads| && s.threads[i] == Reading
    case Block(i) => i < |s.threads| && s.threads[i] == Blocking
    case Wake(i) => i < |s.threads| && s.threads[i].Blocked? && s.threads[i].ch in s.closed
    case Snap(i) => i < |s.threads| && s.threads[i] == Snapping
    case Try(i) => i < |s.threads| && s.threads[i].Trying?
    case Reread(i) => i < |s.threads| && s.threads[i] == Rereading
    case Cool(i) => i < |s.threads| && s.threads[i] == Paying
    case Release(i) => i < |s.threads| && s.threads[i] == Cooling
    case Swap(i) => i < |s.threads| && s.threads[i].Swapping?
    case Drain(i) => i < |s.threads| && s.threads[i].Draining? && s.slot
    case Close(i) => i < |s.threads| && s.threads[i].Closing?
  }

  function At(s: Sema, i: nat, pc: Pc): Sema
    requires i < |s.threads|
  {
    s.(threads := s.threads[i := pc])
  }

  function Next(s: Sema, step: Step): Sema
    requires Enabled(s, step)
  {
    match step
    case Spawn(refund) => s.(threads := s.threads + [if refund then Reading else Entering])
    case Enter(i) => At(s, i, Looking).(waiters := s.waiters + 1)
    case Look(i) => At(s, i, Selecting(s.released))
    case Take(i) => At(s, i, Acquired).(slot := true)
    case Retry(i) => At(s, i, Looking)
    case Expire(i) => At(s, i, TimedOut)
    case Leave(i) => At(s, i, if s.threads[i] == Acquired then Paying else Finished).(waiters := s.waiters - 1)
    case Intrude(i) => At(s, i, Paying).(waiters := s.waiters - 1, intruders := s.intruders + 1)
    case ReadWaiters(i) => At(s, i, if s.waiters > 0 then Blocking else Snapping)
    case Block(i) => At(s, i, Blocked(s.released))
    case Wake(i) => At(s, i, Reading)
    case Snap(i) => At(s, i, Trying(s.released))
    case Try(i) => if s.slot then At(s, i, Blocked(s.threads[i].ch)) else At(s, i, Rereading).(slot := true)
    case Reread(i) => At(s, i, if s.waiters > 0 then Swapping(true) else Paying)
    case Cool(i) => At(s, i, Cooling)
    case Release(i) => At(s, i, Swapping(false))
    case Swap(i) => At(s, i, Draining(s.released, s.threads[i].again)).(released := s.released + 1)
    case Drain(i) => At(s, i, Closing(s.threads[i].retired, s.threads[i].again)).(slot := false)
    case Close(i) =>
      At(s, i, if s.threads[i].again then Reading else Finished).(closed := s.closed + multiset{s.threads[i].retired})
  }

  // ----- who holds, waits, owns -----

  /** From the acquisition to the drain, the cooldown included. */
  predicate Holds(pc: Pc) {
    pc.Acquired? || pc.Rereading? || pc.Paying? || pc.Cooling? || pc.Swapping? || pc.Draining?
  }

  predicate Waits(pc: Pc) {
    pc.Looking? || pc.Selecting? || pc.Acquired? || pc.TimedOut?
  }

  /** Between the swap and the close of `ch`. */
  predicate Owns(pc: Pc, ch: nat) {
    (pc.Draining? || pc.Closing?) && pc.retired == ch
  }

  predicate Listens(pc: Pc) {
    pc.Selecting? || pc.Blocked? || pc.Trying?
  }

  function One(b: bool): int {
    if b then 1 else 0
  }

  function Holders(ts: seq<Pc>): seq<int> {
    seq(|ts|, i requires 0 <= i < |ts| => One(Holds(ts[i])))
  }

  function Waiting(ts: seq<Pc>): seq<int> {
    seq(|ts|, i requires 0 <= i < |ts| => One(Waits(ts[i])))
  }

  function Owners(ts: seq<Pc>, ch: nat): seq<int> {
    seq(|ts|, i requires 0 <= i < |ts| => One(Owns(ts[i], ch)))
  }

  /** The equations every step keeps. */
  ghost predicate Inv(s: Sema) {
    && Sum(Holders(s.threads)) == One(s.slot) + s.intruders
    && Sum(Waiting(s.threads)) == s.waiters
    && (forall ch: nat :: Sum(Owners(s.threads, ch)) + s.closed[ch] == One(ch < s.released))
    && (forall i :: 0 <= i < |s.threads| && Listens(s.threads[i]) ==> s.threads[i].ch <= s.released)
  }

  lemma MoveCounts(ts: seq<Pc>, i: nat, pc: Pc)
    requires i < |ts|
    ensures Sum(Holders(ts[i := pc])) == Sum(Holders(ts)) - One(Holds(ts[i])) + One(Holds(pc))
    ensures Sum(Waiting(ts[i := pc])) == Sum(Waiting(ts)) - One(Waits(ts[i])) + One(Waits(pc))
  {
    assert Holders(ts[i := pc]) == Holders(ts)[i := One(Holds(pc))];
    assert Waiting(ts[i := pc]) == Waiting(ts)[i := One(Waits(pc))];
    SumUpdate(Holders(ts), i, One(Holds(pc)));
    SumUpdate(Waiting(ts), i, One(Waits(pc)));
  }

  lemma MoveOwners(ts: seq<Pc>, i: nat, pc: Pc, ch: nat)
    requires i < |ts|
    ensures Sum(Owners(ts[i := pc], ch)) == Sum(Owners(ts, ch)) - One(Owns(ts[i], ch)) + One(Owns(pc, ch))
  {
    assert Owners(ts[i := pc], ch) == Owners(ts, ch)[i := One(Owns(pc, ch))];
    SumUpdate(Owners(ts, ch), i, One(Owns(pc, ch)));
  }

  lemma SpawnCounts(ts: seq<Pc>, pc: Pc)
    requires pc == Reading || pc == Entering
    ensures Sum(Holders(ts + [pc])) == Sum(Holders(ts)) && Sum(Waiting(ts + [pc])) == Sum(Waiting(ts))
    ensures forall ch: nat :: Sum(Owners(ts + [pc], ch)) == Sum(Owners(ts, ch))
  {
    assert Holders(ts + [pc]) == Holders(ts) + [0];
    assert Waiting(ts + [pc]) == Waiting(ts) + [0];
    SumAppend(Holders(ts), 0);
    SumAppend(Waiting(ts), 0);
    forall ch: nat ensures Sum(Owners(ts + [pc], ch)) == Sum(Owners(ts, ch)) {
      assert Owners(ts + [pc], ch) == Owners(ts, ch) + [0];
      SumAppend(Owners(ts, ch), 0);
    }
  }

  /** The thread a step moves, and where to. */
  lemma StepMoves(s: Sema, step: Step)
    requires Enabled(s, step) && !step.Spawn?
    ensures step.i < |s.threads| == |Next(s, step).threads|
    ensures Next(s, step).threads == s.threads[step.i := Next(s, step).threads[step.i]]
  {
  }

  lemma StepHolders(s: Sema, step: Step)
    requires Enabled(s, step) && Sum(Holders(s.threads)) == One(s.slot) + s.intruders
    ensures var n := Next(s, step); Sum(Holders(n.threads)) == One(n.slot) + n.intruders
  {
    hide Holders, Waiting, Owners, Waits, Owns, Listens;
    if step.Spawn? {
      SpawnCounts(s.threads, if step.refund then Reading else Entering);
    } else {
      StepMoves(s, step);
      MoveCounts(s.threads, step.i, Next(s, step).threads[step.i]);
    }
  }

  lemma StepWaiting(s: Sema, step: Step)
    requires Enabled(s, step) && Sum(Waiting(s.threads)) == s.waiters
    ensures var n := Next(s, step); Sum(Waiting(n.threads)) == n.waiters
  {
    hide Holders, Waiting, Owners, Holds, Owns, Listens;
    if step.Spawn? {
      SpawnCounts(s.threads, if step.refund then Reading else Entering);
    } else {
      StepMoves(s, step);
      MoveCounts(s.threads, step.i, Next(s, step).threads[step.i]);
    }
  }

  lemma StepOwners(s: Sema, step: Step, ch: nat)
    requires Enabled(s, step) && Sum(Owners(s.threads, ch)) + s.closed[ch] == One(ch < s.released)
    ensures var n := Next(s, step); Sum(Owners(n.threads, ch)) + n.closed[ch] == One(ch < n.released)
  {
    hide Holders, Waiting, Holds, Waits, Listens, Owners;
    if step.Spawn? {
      SpawnCounts(s.threads, if step.refund then Reading else Entering);
    } else {
      StepMoves(s, step);
      MoveOwners(s.threads, step.i, Next(s, step).threads[step.i], ch);
    }
  }

  lemma StepListens(s: Sema, step: Step)
    requires Inv(s) && Enabled(s, step)
    ensures var n := Next(s, step);
      forall i :: 0 <= i < |n.threads| && Listens(n.threads[i]) ==> n.threads[i].ch <= n.released
  {
    hide Holders, Waiting, Owners, Holds, Waits, Owns;
  }

  /** Every step keeps the equations. */
  lemma StepKeeps(s: Sema, step: Step)
    requires Inv(s) && Enabled(s, step)
    ensures Inv(Next(s, step))
  {
    hide Next, Enabled, Holders, Waiting, Owners;
    StepHolders(s, step);
    StepWaiting(s, step);
    StepListens(s, step);
    forall ch: nat { StepOwners(s, step, ch); }
  }

  // ----- runs -----

  ghost predicate Run(ss: seq<Sema>, steps: seq<Step>) {
    && |ss| == |steps| + 1 && ss[0] == FRESH
    && forall k :: 0 <= k < |steps| ==> Enabled(ss[k], steps[k]) && ss[k + 1] == Next(ss[k], steps[k])
  }

  lemma NoThreads(ch: nat)
    ensures Sum(Holders([])) == 0 && Sum(Waiting([])) == 0 && Sum(Owners([], ch)) == 0
  {
  }

  lemma {:induction false} RunKeeps(ss: seq<Sema>, steps: seq<Step>, k: nat)
    requires Run(ss, steps) && k < |ss|
    ensures Inv(ss[k])
  {
    if k == 0 {
      forall ch: nat ensures Sum(Owners([], ch)) == 0 { NoThreads(ch); }
    } else {
      RunKeeps(ss, steps, k - 1);
      StepKeeps(ss[k - 1], steps[k - 1]);
    }
  }

  // ----- safety -----

  lemma SomeHolder(ts: seq<Pc>)
    requires forall i :: 0 <= i < |ts| ==> !Holds(ts[i])
    ensures Sum(Holders(ts)) == 0
  {
    SumZeros(Holders(ts));
  }

  /** As long as no withdrawal has gone on without the slot, the slot is full exactly when
      some client holds it, no two clients hold it, and a drain never blocks. */
  lemma Exclusion(ss: seq<Sema>, steps: seq<Step>, k: nat)
    requires Run(ss, steps) && k < |ss| && ss[k].intruders == 0
    ensures var s := ss[k];
      && (s.slot <==> exists i :: 0 <= i < |s.threads| && Holds(s.threads[i]))
      && Exclusive(s.threads)
      && (forall i :: 0 <= i < |s.threads| && s.threads[i].Draining? ==> Enabled(s, Drain(i)))
  {
    RunKeeps(ss, steps, k);
    var s := ss[k];
    var h := Holders(s.threads);
    SumNonNegative(h);
    ExclusiveCount(s.threads);
    forall i | 0 <= i < |s.threads| && Holds(s.threads[i]) ensures s.slot { assert h[i] == 1; }
    if forall i :: 0 <= i < |s.threads| ==> !Holds(s.threads[i]) { SomeHolder(s.threads); }
  }

  lemma {:induction false} TwoHolders(ts: seq<Pc>) returns (i: nat, j: nat)
    requires Sum(Holders(ts)) >= 2
    ensures i < j < |ts| && Holds(ts[i]) && Holds(ts[j])
  {
    var n := |ts| - 1;
    assert Holders(ts)[..n] == Holders(ts[..n]);
    if Sum(Holders(ts[..n])) >= 2 {
      i, j := TwoHolders(ts[..n]);
    } else {
      if forall k :: 0 <= k < n ==> !Holds(ts[..n][k]) { SomeHolder(ts[..n]); }
      i :| 0 <= i < n && Holds(ts[..n][i]);
      j := n;
    }
  }

  predicate Exclusive(ts: seq<Pc>) {
    forall i, j :: 0 <= i < |ts| && 0 <= j < |ts| && Holds(ts[i]) && Holds(ts[j]) ==> i == j
  }

  lemma ExclusiveCount(ts: seq<Pc>)
    ensures Exclusive(ts) <==> Sum(Holders(ts)) <= 1
  {
    var h := Holders(ts);
    if Sum(h) >= 2 {
      var i, j := TwoHolders(ts);
    }
    forall i, j | 0 <= i < |ts| && 0 <= j < |ts| && Holds(ts[i]) && Holds(ts[j]) && i != j ensures Sum(h) >= 2 {
      assert h[i] == 1 && h[j] == 1;
      SumPair(h, i, j);
    }
  }

  /** Exactly when exclusion holds, in any state of any run: no two clients hold the slot if
      and only if the slot and the withdrawals that went on without it make at most one. */
  lemma ExclusionExactly(ss: seq<Sema>, steps: seq<Step>, k: nat)
    requires Run(ss, steps) && k < |ss|
    ensures Exclusive(ss[k].threads) <==> One(ss[k].slot) + ss[k].intruders <= 1
  {
    RunKeeps(ss, steps, k);
    ExclusiveCount(ss[k].threads);
  }

  /** The number of clients past an acquisition and before their drain is the slot plus the
      intruders, and intruders are never paid back. */
  lemma {:induction false} IntrudersStay(ss: seq<Sema>, steps: seq<Step>, j: nat, k: nat)
    requires Run(ss, steps) && j <= k < |ss|
    ensures ss[j].intruders <= ss[k].intruders <= Sum(Holders(ss[k].threads)) <= ss[k].intruders + 1
    decreases k
  {
    RunKeeps(ss, steps, k);
    if j < k { IntrudersStay(ss, steps, j, k - 1); }
  }

  /** Whatever the clients do: a channel is closed at most once, a thread about to close one
      is the first to, and a replaced channel is either closed or about to be closed by
      exactly one release. */
  lemma Broadcasts(ss: seq<Sema>, steps: seq<Step>, k: nat, ch: nat)
    requires Run(ss, steps) && k < |ss|
    ensures var s := ss[k];
      && s.closed[ch] <= 1
      && (forall i :: 0 <= i < |s.threads| && Owns(s.threads[i], ch) ==> s.closed[ch] == 0)
      && (forall i, j :: 0 <= i < |s.threads| && 0 <= j < |s.threads| && Owns(s.threads[i], ch) && Owns(s.threads[j], ch) ==> i == j)
      && (ch < s.released <==> ch in s.closed || exists i :: 0 <= i < |s.threads| && Owns(s.threads[i], ch))
  {
    RunKeeps(ss, steps, k);
    OwnersFate(ss[k], ch);
  }

  lemma OwnersFate(s: Sema, ch: nat)
    requires Inv(s)
    ensures s.closed[ch] <= 1
    ensures forall i :: 0 <= i < |s.threads| && Owns(s.threads[i], ch) ==> s.closed[ch] == 0
    ensures forall i, j :: 0 <= i < |s.threads| && 0 <= j < |s.threads| && Owns(s.threads[i], ch) && Owns(s.threads[j], ch) ==> i == j
    ensures ch < s.released <==> ch in s.closed || exists i :: 0 <= i < |s.threads| && Owns(s.threads[i], ch)
  {
    var o := Owners(s.threads, ch);
    SumNonNegative(o);
    forall i, j | 0 <= i < |s.threads| && 0 <= j < |s.threads| && Owns(s.threads[i], ch) && Owns(s.threads[j], ch)
      ensures i == j
    {
      assert o[i] == 1 && o[j] == 1;
      if i != j { SumPair(o, i, j); }
    }
    forall i | 0 <= i < |s.threads| && Owns(s.threads[i], ch) ensures s.closed[ch] == 0 && ch < s.released { assert o[i] == 1; }
    if forall i :: 0 <= i < |s.threads| ==> !Owns(s.threads[i], ch) { SumZeros(o); }
  }

  /** A refund that gets through was alone: at its second look no withdrawal was waiting. */
  lemma RefundYields(ss: seq<Sema>, steps: seq<Step>, k: nat)
    requires Run(ss, steps) && k < |steps| && steps[k].Reread?
    ensures var s, n, i := ss[k], ss[k + 1], steps[k].i;
      && Holds(s.threads[i])
      && (n.threads[i] == Paying <==> forall j :: 0 <= j < |s.threads| ==> !Waits(s.threads[j]))
  {
    RunKeeps(ss, steps, k);
    var s := ss[k];
    var w := Waiting(s.threads);
    SumNonNegative(w);
    forall j | 0 <= j < |s.threads| && Waits(s.threads[j]) ensures s.waiters > 0 { assert w[j] == 1; }
    if forall j :: 0 <= j < |s.threads| ==> !Waits(s.threads[j]) { SumZeros(w); }
  }

  /** A refund goes on to the slot at its first look if and only if no withdrawal was waiting then. */
  lemma RefundHoldsBack(ss: seq<Sema>, steps: seq<Step>, k: nat)
    requires Run(ss, steps) && k < |steps| && steps[k].ReadWaiters?
    ensures var s, n, i := ss[k], ss[k + 1], steps[k].i;
      n.threads[i] == Snapping <==> forall j :: 0 <= j < |s.threads| ==> !Waits(s.threads[j])
  {
    RunKeeps(ss, steps, k);
    var s := ss[k];
    var w := Waiting(s.threads);
    SumNonNegative(w);
    forall j | 0 <= j < |s.threads| && Waits(s.threads[j]) ensures s.waiters > 0 { assert w[j] == 1; }
    if forall j :: 0 <= j < |s.threads| ==> !Waits(s.threads[j]) { SumZeros(w); }
  }

  // ----- waking up -----

  /** Someone will close `ch`: it is closed, a release is about to, or a client that still has
      to release will. */
  ghost predicate Promised(s: Sema, ch: nat) {
    || ch in s.closed
    || (exists i :: 0 <= i < |s.threads| && Owns(s.threads[i], ch))
    || (ch == s.released && exists i :: 0 <= i < |s.threads| && Holds(s.threads[i]) && !s.threads[i].Draining?)
  }

  lemma OwnerKeeps(s: Sema, step: Step, ch: nat, i: nat)
    requires Enabled(s, step) && i < |s.threads| && Owns(s.threads[i], ch)
    ensures var n := Next(s, step); i < |n.threads| && (Owns(n.threads[i], ch) || ch in n.closed)
  {
    hide Owners, Holds, Waits, Listens;
  }

  lemma HolderKeeps(s: Sema, step: Step, i: nat)
    requires Enabled(s, step) && i < |s.threads| && Holds(s.threads[i]) && !s.threads[i].Draining?
    ensures i < |Next(s, step).threads|
    ensures step.Swap? ==> step.i < |s.threads| == |Next(s, step).threads| && Owns(Next(s, step).threads[step.i], s.released)
    ensures !step.Swap? ==>
      var n := Next(s, step); n.released == s.released && Holds(n.threads[i]) && !n.threads[i].Draining?
  {
    hide Owners, Waits, Listens;
  }

  lemma ClosedStays(s: Sema, step: Step, ch: nat)
    requires Enabled(s, step) && ch in s.closed
    ensures ch in Next(s, step).closed
  {
  }

  /** A promise is kept by every step. */
  lemma PromiseKept(s: Sema, step: Step, ch: nat)
    requires Enabled(s, step) && Promised(s, ch)
    ensures Promised(Next(s, step), ch)
  {
    hide Next, Enabled, Holds, Owns;
    if ch in s.closed {
      ClosedStays(s, step, ch);
    } else if i :| 0 <= i < |s.threads| && Owns(s.threads[i], ch) {
      OwnerKeeps(s, step, ch, i);
    } else {
      var i :| 0 <= i < |s.threads| && Holds(s.threads[i]) && !s.threads[i].Draining?;
      HolderKeeps(s, step, i);
    }
  }

  /** A refund parked on a channel has that promise exactly when the channel was replaced
      already or a client that has not begun to release holds the slot. */
  lemma ParkFate(s: Sema, ch: nat)
    requires Inv(s) && ch <= s.released
    ensures Promised(s, ch) <==>
      || ch < s.released
      || exists i :: 0 <= i < |s.threads| && Holds(s.threads[i]) && !s.threads[i].Draining?
  {
    OwnersFate(s, ch);
  }

  // ----- what each client comes to -----

  /** A refund on its way to a payment, giving the slot back included. */
  predicate Refunding(pc: Pc) {
    || pc.Reading? || pc.Blocking? || pc.Blocked? || pc.Snapping? || pc.Trying? || pc.Rereading?
    || (pc.Swapping? && pc.again) || (pc.Draining? && pc.again) || (pc.Closing? && pc.again)
  }

  /** A withdrawal that has neither the slot nor a timeout yet. */
  predicate Asking(pc: Pc) {
    pc.Entering? || pc.Looking? || pc.Selecting?
  }

  predicate Paid(pc: Pc) {
    pc.Paying? || pc.Cooling? || (pc.Swapping? && !pc.again) || (pc.Draining? && !pc.again) || (pc.Closing? && !pc.again) || pc.Finished?
  }

  /** A client goes nowhere but on: a refund keeps trying until it pays, whatever it yields to; a
      withdrawal keeps asking until it has the slot or its timeout ends; and who pays gives back. */
  predicate OnItsWay(pc: Pc, step: Step, i: nat, after: Pc) {
    && (Refunding(pc) ==> Refunding(after) || after == Paying)
    && (Asking(pc) ==> Asking(after) || after == Acquired || (step == Expire(i) && after == TimedOut))
    && (pc == Acquired ==> after == Acquired || after == Paying)
    && (Paid(pc) ==> Paid(after) && (pc == Finished ==> after == Finished))
  }

  /** Every action leaves every client on its way. */
  lemma Persists(s: Sema, step: Step, i: nat)
    requires Enabled(s, step) && i < |s.threads|
    ensures i < |Next(s, step).threads|
    ensures OnItsWay(s.threads[i], step, i, Next(s, step).threads[i])
  {
    if step.Spawn? || step.i != i {
      hide *;
      OthersStay(s, step, i);
      StaysOnItsWay(s.threads[i], step, i);
    }
  }

  lemma OthersStay(s: Sema, step: Step, i: nat)
    requires Enabled(s, step) && i < |s.threads| && (step.Spawn? || step.i != i)
    ensures i < |Next(s, step).threads| && Next(s, step).threads[i] == s.threads[i]
  {
    if !step.Spawn? { StepMoves(s, step); }
  }

  lemma StaysOnItsWay(pc: Pc, step: Step, i: nat)
    ensures OnItsWay(pc, step, i, pc)
  {
  }

  /** Over a run: a refund that is through has paid. */
  lemma {:induction false} RefundsPay(ss: seq<Sema>, steps: seq<Step>, j: nat, k: nat, i: nat)
    requires Run(ss, steps) && j <= k < |ss| && i < |ss[j].threads| && Refunding(ss[j].threads[i])
    ensures i < |ss[k].threads|
    ensures Refunding(ss[k].threads[i]) || exists m :: j < m <= k && i < |ss[m].threads| && ss[m].threads[i] == Paying
    decreases k
  {
    hide Next, Enabled, Refunding, Paid, Asking;
    if j < k {
      RefundsPay(ss, steps, j, k - 1, i);
      Persists(ss[k - 1], steps[k - 1], i);
    }
  }

  /** Whoever starts to listen, listens for the next release: nothing wakes it before one. */
  lemma ListensForRelease(ss: seq<Sema>, steps: seq<Step>, k: nat)
    requires Run(ss, steps) && k < |steps|
    ensures steps[k].Block? ==> ss[k + 1].threads[steps[k].i] == Blocked(ss[k].released) && !Enabled(ss[k + 1], Wake(steps[k].i))
    ensures steps[k].Look? ==> ss[k + 1].threads[steps[k].i] == Selecting(ss[k].released) && !Enabled(ss[k + 1], Retry(steps[k].i))
  {
    RunKeeps(ss, steps, k);
    OwnersFate(ss[k], ss[k].released);
  }

  /** A refund that finds the slot full parks on the channel it had before it looked: a release that
      swapped in between will wake it. */
  lemma SwapIsNotMissed(ss: seq<Sema>, steps: seq<Step>, k: nat)
    requires Run(ss, steps) && k < |steps| && steps[k].Try? && ss[k].slot
    requires ss[k].threads[steps[k].i].ch < ss[k].released
    ensures var after := ss[k + 1].threads[steps[k].i]; after.Blocked? && Promised(ss[k + 1], after.ch)
  {
    RunKeeps(ss, steps, k + 1);
    OwnersFate(ss[k + 1], ss[k].threads[steps[k].i].ch);
  }

  // ----- stuck states -----

  /** Nothing can happen but the arrival of a new client. */
  ghost predicate Stuck(s: Sema) {
    forall step :: Enabled(s, step) ==> step.Spawn?
  }

  /** The step a thread can always take when it is neither finished nor parked nor draining. */
  function Move(pc: Pc, i: nat): Step
    requires !pc.Finished? && !pc.Blocked?
  {
    match pc
    case Entering => Enter(i)
    case Looking => Look(i)
    case Selecting(_) => Expire(i)
    case Acquired => Leave(i)
    case TimedOut => Leave(i)
    case Reading => ReadWaiters(i)
    case Blocking => Block(i)
    case Snapping => Snap(i)
    case Trying(_) => Try(i)
    case Rereading => Reread(i)
    case Paying => Cool(i)
    case Cooling => Release(i)
    case Swapping(_) => Swap(i)
    case Draining(_, _) => Drain(i)
    case Closing(_, _) => Close(i)
  }

  /** Every stuck state, as long as no withdrawal went on without the slot: the slot is free and
      each client is finished or a refund parked on the current channel; and every such state
      is stuck. */
  lemma StuckExactly(s: Sema)
    requires Inv(s) && s.intruders == 0
    ensures Stuck(s) <==>
      !s.slot && forall i :: 0 <= i < |s.threads| ==> s.threads[i] == Finished || s.threads[i] == Blocked(s.released)
  {
    if Stuck(s) {
      forall i | 0 <= i < |s.threads| ensures s.threads[i] == Finished || s.threads[i].Blocked? {
        if !s.threads[i].Finished? && !s.threads[i].Blocked? { CanMove(s, i); }
      }
      SomeHolder(s.threads);
      forall i | 0 <= i < |s.threads| && s.threads[i].Blocked? ensures s.threads[i].ch == s.released {
        OwnersFate(s, s.threads[i].ch);
        assert !Enabled(s, Wake(i));
      }
    }
    OwnersFate(s, s.released);
  }

  lemma CanMove(s: Sema, i: nat)
    requires Inv(s) && s.intruders == 0 && i < |s.threads| && !s.threads[i].Finished? && !s.threads[i].Blocked?
    ensures Enabled(s, Move(s.threads[i], i)) && !Move(s.threads[i], i).Spawn?
  {
    if s.threads[i].Draining? {
      SumNonNegative(Holders(s.threads));
      assert Holders(s.threads)[i] == 1;
    }
  }

  // ----- what goes wrong -----

  lemma Extend(ss: seq<Sema>, steps: seq<Step>, step: Step) returns (sr: seq<Sema>, tr: seq<Step>)
    requires Run(ss, steps) && Enabled(ss[|steps|], step)
    ensures Run(sr, tr) && sr[|tr|] == Next(ss[|steps|], step)
  {
    sr, tr := ss + [Next(ss[|steps|], step)], steps + [step];
  }

  /** A withdrawal gets the slot, pays and starts to release. */
  lemma OneWithdrawal() returns (ss: seq<Sema>, steps: seq<Step>)
    ensures Run(ss, steps) && ss[|steps|] == Sema(true, 0, 0, multiset{}, [Paying], 0)
  {
    ss, steps := [FRESH], [];
    ss, steps := Extend(ss, steps, Spawn(false));
    assert ss[|steps|] == Sema(false, 0, 0, multiset{}, [Entering], 0);
    ss, steps := Extend(ss, steps, Enter(0));
    ss, steps := Extend(ss, steps, Look(0));
    ss, steps := Extend(ss, steps, Take(0));
    ss, steps := Extend(ss, steps, Leave(0));
    assert ss[|steps|].threads == [Paying];
  }

  lemma Swapped() returns (ss: seq<Sema>, steps: seq<Step>)
    ensures Run(ss, steps) && ss[|steps|] == Sema(true, 0, 1, multiset{}, [Draining(0, false), Reading], 0)
  {
    ss, steps := OneWithdrawal();
    ss, steps := Extend(ss, steps, Spawn(true));
    assert ss[|steps|].threads == [Paying, Reading];
    ss, steps := Extend(ss, steps, Cool(0));
    ss, steps := Extend(ss, steps, Release(0));
    ss, steps := Extend(ss, steps, Swap(0));
    assert ss[|steps|].threads == [Draining(0, false), Reading];
  }

  lemma Parked() returns (ss: seq<Sema>, steps: seq<Step>)
    ensures Run(ss, steps) && ss[|steps|] == Sema(true, 0, 1, multiset{}, [Draining(0, false), Blocked(1)], 0)
  {
    ss, steps := Swapped();
    ss, steps := Extend(ss, steps, ReadWaiters(1));
    ss, steps := Extend(ss, steps, Snap(1));
    ss, steps := Extend(ss, steps, Try(1));
    assert ss[|steps|].threads == [Draining(0, false), Blocked(1)];
  }

  /** A refund that looks at the new channel after the swap and at the slot before the drain
      parks for good: from then on no step is possible but the arrival of a new client. */
  lemma LostWakeup() returns (ss: seq<Sema>, steps: seq<Step>)
    ensures Run(ss, steps)
    ensures ss[|steps|] == Sema(false, 0, 1, multiset{0}, [Finished, Blocked(1)], 0)
    ensures Stuck(ss[|steps|])
  {
    ss, steps := Parked();
    ss, steps := Extend(ss, steps, Drain(0));
    ss, steps := Extend(ss, steps, Close(0));
    assert ss[|steps|].threads == [Finished, Blocked(1)];
  }

  /** A withdrawal that ignores its timeout pays beside the holder. */
  lemma TimeoutBreaksExclusion() returns (ss: seq<Sema>, steps: seq<Step>)
    ensures Run(ss, steps)
    ensures ss[|steps|] == Sema(true, 0, 0, multiset{}, [Paying, Paying], 1)
  {
    ss, steps := OneWithdrawal();
    ss, steps := Extend(ss, steps, Spawn(false));
    assert ss[|steps|].threads == [Paying, Entering];
    ss, steps := Extend(ss, steps, Enter(1));
    ss, steps := Extend(ss, steps, Look(1));
    ss, steps := Extend(ss, steps, Expire(1));
    ss, steps := Extend(ss, steps, Intrude(1));
    assert ss[|steps|].threads == [Paying, Paying];
  }
}
