/** When refunds are due, how the regular schedule moves, and when the worker wakes. */
module RefundClock {
  import opened Options
  import opened Schema
  import opened Ledger
  import opened Fees
  import opened Split
  import GoInt

  // ----- the regular schedule -----

  /** Where the walk of the schedule starts. */
  function Start(firstAt: int, lastAt: int): int {
    if lastAt > 0 then lastAt else firstAt
  }

  /** The last occurrence on or before `now`, counting intervals from `start`. */
  function Anchor(start: int, interval: int, now: int): int
    requires interval > 0
  {
    if start <= now then start + (now - start) / interval * interval else start - interval
  }

  method NextRegularRefundAnchor(firstAt: int, lastAt: int, interval: int, now: int) returns (r: int)
    requires interval > 0
    ensures r == Anchor(Start(firstAt, lastAt), interval, now)
    ensures Start(firstAt, lastAt) <= now ==> r <= now < r + interval
  {
    var start := firstAt;
    if lastAt > 0 {
      start := lastAt;
    }
    var anchor := start;
    ghost var k := 0;
    while anchor <= now
      invariant k >= 0 && anchor == start + k * interval
      invariant k > 0 ==> anchor - interval <= now
      decreases now - anchor
    {
      assert (k + 1) * interval == k * interval + interval;
      anchor := anchor + interval;
      k := k + 1;
    }
    if start <= now {
      assert (k - 1) * interval == k * interval - interval;
      GoInt.DivUnique(now - start, interval, k - 1);
    }
    return anchor - interval;
  }

  predicate NotExpired(v: Voucher, now: int) {
    if v.absoluteExpiry then v.createdAt + v.refundAfter > now
    else v.updatedAt == 0 || v.updatedAt + v.refundAfter > now
  }

  predicate ExpiredDue(v: Voucher, now: int) {
    v.balance > 0
    && (if v.absoluteExpiry then v.createdAt + v.refundAfter <= now
        else v.updatedAt > 0 && v.updatedAt + v.refundAfter <= now)
  }

  predicate RegularDue(v: Voucher, now: int) {
    && v.active && v.firstAt > 0 && !v.immediate
    && NotExpired(v, now)
    && (if v.lastAt > 0 then v.lastAt + v.interval <= now else v.lastAt == 0 && v.firstAt <= now)
  }

  /** What validation admits: a first time comes with a positive interval. */
  predicate Scheduled(v: Voucher) {
    v.firstAt > 0 ==> v.interval > 0
  }

  /** `lastAt` is unset or a whole number of intervals away from `firstAt`, and not before it if
      `strict`; an immediate voucher has no such schedule. */
  predicate OnGrid(v: Voucher, strict: bool) {
    && Scheduled(v)
    && (v.immediate || v.lastAt == 0
        || (v.firstAt > 0 && (strict ==> v.lastAt >= v.firstAt) && (v.lastAt - v.firstAt) % v.interval == 0))
  }

  /** `lastAt` is unset or one of firstAt, firstAt + interval, firstAt + 2 * interval, ... */
  predicate OnLattice(v: Voucher) {
    OnGrid(v, true)
  }

  /** The next scheduled time. */
  function DueAt(v: Voucher): int {
    if v.lastAt > 0 then v.lastAt + v.interval else v.firstAt
  }

  /** A pass reads its own clock first and the due query reads another: `passNow` is what the anchor
      is computed from, `queried` what the voucher was found due at. The mark moves forward on the
      lattice if and only if the voucher was due already at the pass's clock, and then it is not
      due again before one interval passed. */
  lemma AnchorAdvances(v: Voucher, passNow: int, queried: int)
    requires OnLattice(v) && RegularDue(v, queried) && passNow <= queried
    ensures var r := Anchor(Start(v.firstAt, v.lastAt), v.interval, passNow);
      && (r > v.lastAt && OnLattice(v.(lastAt := r)) <==> DueAt(v) <= passNow)
      && (DueAt(v) <= passNow ==> DueAt(v) <= r <= passNow < r + v.interval)
      && (DueAt(v) <= passNow ==> forall later :: later < r + v.interval ==> !RegularDue(v.(lastAt := r), later))
  {
    if DueAt(v) <= passNow { WalkAdvances(v, passNow); } else { EarlyMark(v, passNow, queried); }
  }

  /** The mark of a voucher due at `now` is a scheduled time. That holds also for one that an early
      mark had set one interval before its first time: the next pass puts it back. */
  lemma WalkAdvances(v: Voucher, now: int)
    requires OnGrid(v, false) && v.firstAt > 0 && !v.immediate && DueAt(v) <= now
    requires v.lastAt == 0 || (v.lastAt > 0 && v.lastAt >= v.firstAt - v.interval)
    ensures var r := Anchor(Start(v.firstAt, v.lastAt), v.interval, now);
      DueAt(v) <= r <= now < r + v.interval && OnLattice(v.(lastAt := r))
  {
    var s := Start(v.firstAt, v.lastAt);
    var q := (now - s) / v.interval;
    assert now - s == q * v.interval + (now - s) % v.interval;
    GridStep(s - v.firstAt, q, v.interval);
    if v.lastAt > 0 {
      GoInt.QuotientAtMost(1, q, v.interval);
      GoInt.MulMonotone(1, q, v.interval);
    } else {
      GoInt.QuotientAtMost(0, q, v.interval);
      GoInt.MulMonotone(0, q, v.interval);
    }
  }

  /** What the mark is when the voucher fell due between the two clocks: where it was, or one interval
      before the first time (or one back, if the clock is behind the last mark). The voucher stays
      due, or with a negative mark is never due again, and from then on it adds no scheduled refund
      to the alarm. */
  lemma EarlyMark(v: Voucher, passNow: int, queried: int)
    requires OnLattice(v) && RegularDue(v, queried) && passNow < DueAt(v)
    ensures var r := Anchor(Start(v.firstAt, v.lastAt), v.interval, passNow);
      && (v.lastAt > 0 && v.lastAt <= passNow ==> r == v.lastAt)
      && (v.lastAt > 0 && v.lastAt > passNow ==> r == v.lastAt - v.interval)
      && (v.lastAt == 0 ==> r == v.firstAt - v.interval)
      && (r >= 0 ==> RegularDue(v.(lastAt := r), queried))
      && (r < 0 ==> forall t :: !RegularDue(v.(lastAt := r), t))
      && (forall t :: t >= queried ==> RegularAt(v.(lastAt := r), t) == None)
      && !(r > v.lastAt && OnLattice(v.(lastAt := r)))
  {
    if v.lastAt > 0 && v.lastAt <= passNow { GoInt.DivUnique(passNow - v.lastAt, v.interval, 0); }
  }

  /** Whatever the two clocks are, the mark is a whole number of intervals away from `firstAt`. */
  lemma MarkOnGrid(v: Voucher, passNow: int)
    requires OnGrid(v, false) && v.firstAt > 0 && !v.immediate
    ensures OnGrid(v.(lastAt := Anchor(Start(v.firstAt, v.lastAt), v.interval, passNow)), false)
  {
    var s := Start(v.firstAt, v.lastAt);
    AnchorStep(s, v.interval, passNow, v.firstAt);
  }

  lemma AnchorStep(s: int, n: int, now: int, first: int)
    requires n > 0 && (s - first) % n == 0
    ensures (Anchor(s, n, now) - first) % n == 0
  {
    var q := if s <= now then (now - s) / n else -1;
    GridStep(s - first, q, n);
    assert Anchor(s, n, now) - first == (s - first) + q * n;
  }

  lemma GridStep(a: int, q: int, n: int)
    requires n > 0 && a % n == 0
    ensures (a + q * n) % n == 0
  {
    var k := a / n;
    assert a + q * n == (k + q) * n;
    GoInt.DivUnique(a + q * n, n, k + q);
  }

  // ----- the worker's alarm -----

  function Sooner(a: Option<int>, b: Option<int>): Option<int> {
    if a.None? then b else if b.None? then a else if a.value <= b.value then a else b
  }

  function After(at: int, now: int): Option<int> {
    if at > now then Some(at) else None
  }

  function ExpiryAt(v: Voucher, now: int): Option<int> {
    if v.balance > 0 && (v.absoluteExpiry || v.updatedAt > 0)
    then After((if v.absoluteExpiry then v.createdAt else v.updatedAt) + v.refundAfter, now) else None
  }

  function RegularAt(v: Voucher, now: int): Option<int> {
    if v.active && v.firstAt > 0 && !v.immediate then After(DueAt(v), now) else None
  }

  function NextRefundAt(vs: seq<Voucher>, now: int): Option<int> {
    if vs == [] then None else
      var v := vs[|vs| - 1];
      Sooner(NextRefundAt(vs[..|vs| - 1], now), Sooner(ExpiryAt(v, now), RegularAt(v, now)))
  }

  const MAX_SLEEP := 3600

  /** When the worker, asleep since `now`, runs again at the latest. */
  function WakeAt(vs: seq<Voucher>, now: int): int {
    match NextRefundAt(vs, now)
    case None => now + MAX_SLEEP
    case Some(at) => if at - now > MAX_SLEEP then now + MAX_SLEEP else at
  }

  lemma {:induction false} NextIsEarliest(vs: seq<Voucher>, now: int, i: nat)
    requires i < |vs|
    ensures var n := NextRefundAt(vs, now);
      && (n.Some? ==> n.value > now)
      && (ExpiryAt(vs[i], now).Some? ==> n.Some? && n.value <= ExpiryAt(vs[i], now).value)
      && (RegularAt(vs[i], now).Some? ==> n.Some? && n.value <= RegularAt(vs[i], now).value)
  {
    var last := |vs| - 1;
    if last > 0 { NextIsEarliest(vs[..last], now, if i < last then i else 0); }
  }

  /** The worker never oversleeps: a voucher that is not due now and would be due at `t`
      has the alarm set no later than `t`. */
  lemma NeverOversleeps(vs: seq<Voucher>, now: int, i: nat, t: int)
    requires i < |vs| && t > now
    requires (ExpiredDue(vs[i], t) && !ExpiredDue(vs[i], now)) || (RegularDue(vs[i], t) && !RegularDue(vs[i], now))
    ensures NextRefundAt(vs, now).Some? && now < NextRefundAt(vs, now).value <= t
    ensures now < WakeAt(vs, now) <= t
  {
    NextIsEarliest(vs, now, i);
  }

  /** The alarm goes off for a reason: some voucher with a balance expires exactly then, or
      has its next scheduled refund exactly then. */
  lemma {:induction false} AlarmIsTight(vs: seq<Voucher>, now: int) returns (i: nat)
    requires NextRefundAt(vs, now).Some?
    ensures i < |vs|
    ensures var at := NextRefundAt(vs, now).value;
      || (ExpiredDue(vs[i], at) && forall t :: t < at ==> !ExpiredDue(vs[i], t))
      || RegularAt(vs[i], now) == Some(at)
    ensures var at := NextRefundAt(vs, now).value;
      RegularAt(vs[i], now) == Some(at) && vs[i].lastAt >= 0 ==>
        (NotExpired(vs[i], at) <==> RegularDue(vs[i], at)) && forall t :: t < at ==> !RegularDue(vs[i], t)
  {
    var last := |vs| - 1;
    var at := NextRefundAt(vs, now).value;
    if ExpiryAt(vs[last], now) == Some(at) || RegularAt(vs[last], now) == Some(at) {
      i := last;
    } else {
      i := AlarmIsTight(vs[..last], now);
    }
  }

  function Without(vs: seq<Voucher>, i: nat): seq<Voucher>
    requires i < |vs|
  {
    vs[..i] + vs[i + 1..]
  }

  lemma SoonerRegroups(a: Option<int>, b: Option<int>, c: Option<int>)
    ensures Sooner(Sooner(a, b), c) == Sooner(Sooner(a, c), b)
  {
  }

  /** What one voucher of any table adds to the alarm: its expiry if that is after the clock the
      alarm reads, its next scheduled refund if that is, and otherwise nothing at all. */
  lemma {:induction false} AlarmContribution(vs: seq<Voucher>, i: nat, now: int)
    requires i < |vs|
    ensures NextRefundAt(vs, now)
            == Sooner(NextRefundAt(Without(vs, i), now), Sooner(ExpiryAt(vs[i], now), RegularAt(vs[i], now)))
  {
    var n := |vs| - 1;
    if i == n {
      assert Without(vs, i) == vs[..n];
    } else {
      AlarmContribution(vs[..n], i, now);
      assert Without(vs, i)[..n - 1] == Without(vs[..n], i);
      var own := Sooner(ExpiryAt(vs[n], now), RegularAt(vs[n], now));
      SoonerRegroups(NextRefundAt(Without(vs[..n], i), now), Sooner(ExpiryAt(vs[i], now), RegularAt(vs[i], now)), own);
    }
  }

  /** A voucher first due at `d` for this reason. */
  ghost predicate FirstExpires(v: Voucher, d: int) {
    ExpiredDue(v, d) && forall t :: t < d ==> !ExpiredDue(v, t)
  }

  ghost predicate FirstRegular(v: Voucher, d: int) {
    RegularDue(v, d) && forall t :: t < d ==> !RegularDue(v, t)
  }

  lemma AlarmTimes(v: Voucher, d: int, now: int)
    ensures FirstExpires(v, d) ==> ExpiryAt(v, now) == After(d, now)
    ensures FirstRegular(v, d) ==> RegularAt(v, now) == After(d, now)
  {
    if FirstExpires(v, d) {
      var e := (if v.absoluteExpiry then v.createdAt else v.updatedAt) + v.refundAfter;
      assert ExpiredDue(v, e);
    }
    if FirstRegular(v, d) {
      assert RegularDue(v, DueAt(v));
    }
  }

  /** The alarm is read on a later clock than the pass before it. A voucher of any table that
      falls due at `d` is waited for if and only if `d` is still ahead when the alarm is read;
      if not, the worker is woken as if the voucher had no such reason, although it is due. */
  lemma DueBetweenScanAndAlarm(vs: seq<Voucher>, i: nat, d: int, now: int)
    requires i < |vs|
    ensures FirstExpires(vs[i], d) ==>
      NextRefundAt(vs, now) == Sooner(NextRefundAt(Without(vs, i), now), Sooner(After(d, now), RegularAt(vs[i], now)))
    ensures FirstRegular(vs[i], d) ==>
      NextRefundAt(vs, now) == Sooner(NextRefundAt(Without(vs, i), now), Sooner(ExpiryAt(vs[i], now), After(d, now)))
    ensures FirstExpires(vs[i], d) && d <= now && RegularAt(vs[i], now).None? ==>
      NextRefundAt(vs, now) == NextRefundAt(Without(vs, i), now)
    ensures FirstRegular(vs[i], d) && d <= now && ExpiryAt(vs[i], now).None? ==>
      NextRefundAt(vs, now) == NextRefundAt(Without(vs, i), now)
    ensures (FirstExpires(vs[i], d) || FirstRegular(vs[i], d)) && now < d ==> now < WakeAt(vs, now) <= d
  {
    AlarmContribution(vs, i, now);
    AlarmTimes(vs[i], d, now);
    NextIsEarliest(vs, now, i);
  }

  /** It does happen: a voucher that expires at 10, just when the alarm is read, is slept past for
      the whole hour. */
  lemma SleptPast(v: Voucher)
    requires v.absoluteExpiry && v.createdAt + v.refundAfter == 10 && v.balance > 0 && v.firstAt == 0
    ensures FirstExpires(v, 10) && WakeAt([v], 10) == 3610
    ensures forall t :: 10 <= t <= 3610 ==> ExpiredDue(v, t)
  {
    assert [v][..0] == [] && NextRefundAt([], 10) == None;
    assert NextRefundAt([v], 10) == None;
  }
}
