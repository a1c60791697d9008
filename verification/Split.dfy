/** Distributing a balance over weighted refund codes. */
module Split {
  import opened Sums
  import GoInt

  /** Validation admits only shares above zero. */
  type Weight = x: int | x > 0 witness 1

  datatype RefundCode = RefundCode(code: string, share: Weight)

  function TotalShares(codes: seq<RefundCode>): nat {
    if codes == [] then 0 else TotalShares(codes[..|codes| - 1]) + codes[|codes| - 1].share
  }

  /** The proportional part of one entry, rounded toward zero. */
  function Floor(balance: int, codes: seq<RefundCode>, i: nat): int
    requires i < |codes|
  {
    TotalPositive(codes);
    GoInt.Div(balance * codes[i].share, TotalShares(codes))
  }

  lemma TotalPositive(codes: seq<RefundCode>)
    requires codes != []
    ensures TotalShares(codes) > 0
  {
  }

  function Floors(balance: int, codes: seq<RefundCode>, n: nat): int
    requires n <= |codes|
  {
    if n == 0 then 0 else Floors(balance, codes, n - 1) + Floor(balance, codes, n - 1)
  }

  /** What the entry at `i` is given: its floor, or the whole rest for the last one. */
  function Alloc(balance: int, codes: seq<RefundCode>, i: nat): int
    requires i < |codes|
  {
    if i == |codes| - 1 then balance - Floors(balance, codes, i) else Floor(balance, codes, i)
  }

  /** What a code collects over the first `n` entries; a code may be listed twice. */
  function Collected(balance: int, codes: seq<RefundCode>, n: nat, code: string): int
    requires n <= |codes|
  {
    if n == 0 then 0
    else Collected(balance, codes, n - 1, code)
         + if codes[n - 1].code == code then Alloc(balance, codes, n - 1) else 0
  }

  function Codes(codes: seq<RefundCode>): set<string> {
    set i | 0 <= i < |codes| :: codes[i].code
  }

  function SplitOf(balance: int, codes: seq<RefundCode>): map<string, int> {
    map c | c in Codes(codes) :: Collected(balance, codes, |codes|, c)
  }

  method SplitBalance(balance: int, codes: seq<RefundCode>) returns (out: map<string, int>)
    ensures out == SplitOf(balance, codes)
  {
    var totalShares := SumShares(codes);
    out := map[];
    var given := 0;
    for i := 0 to |codes|
      invariant i < |codes| ==> given == Floors(balance, codes, i)
      invariant out == CollectedMap(balance, codes, i)
    {
      var alloc;
      if i == |codes| - 1 {
        alloc := balance - given;
      } else {
        TotalPositive(codes);
        alloc := GoInt.Div(balance * codes[i].share, totalShares);
      }
      var c := codes[i].code;
      CollectedStep(balance, codes, i);
      out := out[c := (if c in out then out[c] else 0) + alloc];
      given := given + alloc;
    }
    assert codes[..|codes|] == codes;
  }

  method SumShares(codes: seq<RefundCode>) returns (total: int)
    ensures total == TotalShares(codes)
  {
    total := 0;
    for i := 0 to |codes|
      invariant total == TotalShares(codes[..i])
    {
      assert codes[..i + 1][..i] == codes[..i];
      total := total + codes[i].share;
    }
    assert codes[..|codes|] == codes;
  }

  // ----- the split is exact and fair -----

  lemma FloorBounds(balance: nat, codes: seq<RefundCode>, i: nat)
    requires i < |codes|
    ensures var t, f := TotalShares(codes), Floor(balance, codes, i);
      && f >= 0 && t > 0
      && t * f <= balance * codes[i].share < t * f + t
  {
    var t, s := TotalShares(codes), codes[i].share;
    TotalPositive(codes);
    GoInt.DivFloor(balance, s, t);
  }

  lemma FloorsStep(t: int, a: int, f: int, b: int, total: int, s: int, n: int)
    requires t * a <= b * total <= t * a + (n - 1) * (t - 1)
    requires t * f <= b * s < t * f + t
    ensures t * (a + f) <= b * (total + s) <= t * (a + f) + n * (t - 1)
  {
    assert b * (total + s) == b * total + b * s;
    assert t * (a + f) == t * a + t * f;
    assert n * (t - 1) == (n - 1) * (t - 1) + (t - 1);
  }

  lemma {:induction false} FloorsBounds(balance: nat, codes: seq<RefundCode>, n: nat)
    requires n <= |codes| && codes != []
    ensures var t, a := TotalShares(codes), Floors(balance, codes, n);
      t * a <= balance * TotalShares(codes[..n]) <= t * a + n * (t - 1)
  {
    if n > 0 {
      FloorsBounds(balance, codes, n - 1);
      FloorBounds(balance, codes, n - 1);
      assert codes[..n][..n - 1] == codes[..n - 1];
      FloorsStep(TotalShares(codes), Floors(balance, codes, n - 1), Floor(balance, codes, n - 1), balance,
                 TotalShares(codes[..n - 1]), codes[n - 1].share, n);
    }
  }

  lemma LastStep(t: nat, a: int, f: int, b: int, total: int, s: int, last: nat)
    requires t > 0 && t == total + s
    requires t * a <= b * total <= t * a + last * (t - 1)
    requires t * f <= b * s < t * f + t
    ensures f <= b - a <= f + last
  {
    var x := b - a;
    assert x * t == b * total + b * s - t * a by {
      assert b * t == b * total + b * s;
      assert x * t == b * t - a * t;
    }
    assert f * t < x * t + t;
    GoInt.QuotientAtMost(f, x, t);
    assert x * t < (f + last) * t + t by {
      assert last * (t - 1) == last * t - last;
      assert (f + last) * t == f * t + last * t;
    }
    GoInt.QuotientAtMost(x, f + last, t);
  }

  /** The last entry is given its floor and less than one msat more per code. */
  lemma LastEntry(balance: nat, codes: seq<RefundCode>)
    requires codes != []
    ensures var last := |codes| - 1;
      Floor(balance, codes, last) <= Alloc(balance, codes, last) < Floor(balance, codes, last) + |codes|
  {
    var last := |codes| - 1;
    FloorsBounds(balance, codes, last);
    FloorBounds(balance, codes, last);
    LastStep(TotalShares(codes), Floors(balance, codes, last), Floor(balance, codes, last), balance,
             TotalShares(codes[..last]), codes[last].share, last);
  }

  lemma AllocNonNegative(balance: nat, codes: seq<RefundCode>, i: nat)
    requires i < |codes|
    ensures Alloc(balance, codes, i) >= 0
  {
    FloorBounds(balance, codes, i);
    if i == |codes| - 1 { LastEntry(balance, codes); }
  }

  function Allocs(balance: int, codes: seq<RefundCode>, n: nat): seq<int>
    requires n <= |codes|
  {
    seq(n, i requires 0 <= i < n => Alloc(balance, codes, i))
  }

  lemma {:induction false} AllocsSum(balance: int, codes: seq<RefundCode>, n: nat)
    requires n <= |codes|
    ensures Sum(Allocs(balance, codes, n)) == if n == |codes| > 0 then balance else Floors(balance, codes, n)
  {
    if n > 0 {
      AllocsSum(balance, codes, n - 1);
      assert Allocs(balance, codes, n) == Allocs(balance, codes, n - 1) + [Alloc(balance, codes, n - 1)];
      SumAppend(Allocs(balance, codes, n - 1), Alloc(balance, codes, n - 1));
    }
  }

  ghost function CollectedMap(balance: int, codes: seq<RefundCode>, n: nat): map<string, int>
    requires n <= |codes|
  {
    map c | c in Codes(codes[..n]) :: Collected(balance, codes, n, c)
  }

  lemma {:induction false} NotListed(balance: int, codes: seq<RefundCode>, n: nat, c: string)
    requires n <= |codes| && forall j :: 0 <= j < n ==> codes[j].code != c
    ensures Collected(balance, codes, n, c) == 0
  {
    if n > 0 { NotListed(balance, codes, n - 1, c); }
  }

  lemma CodesGrow(codes: seq<RefundCode>, n: nat)
    requires n < |codes|
    ensures Codes(codes[..n + 1]) == Codes(codes[..n]) + {codes[n].code}
  {
    forall k | k in Codes(codes[..n]) + {codes[n].code} ensures k in Codes(codes[..n + 1]) {
      if k == codes[n].code {
        assert codes[..n + 1][n].code == k;
      } else {
        var j :| 0 <= j < n && codes[..n][j].code == k;
        assert codes[..n + 1][j].code == k;
      }
    }
  }

  lemma CollectedStep(balance: int, codes: seq<RefundCode>, n: nat)
    requires n < |codes|
    ensures var p, c := CollectedMap(balance, codes, n), codes[n].code;
      CollectedMap(balance, codes, n + 1) == p[c := (if c in p then p[c] else 0) + Alloc(balance, codes, n)]
  {
    CodesGrow(codes, n);
    var c := codes[n].code;
    if c !in Codes(codes[..n]) {
      forall j | 0 <= j < n ensures codes[j].code != c { assert codes[..n][j].code == codes[j].code; }
      NotListed(balance, codes, n, c);
    }
  }

  lemma NothingCollected(balance: int, codes: seq<RefundCode>)
    ensures CollectedMap(balance, codes, 0) == map[]
  {
    assert codes[..0] == [];
  }

  lemma {:induction false} CollectedSum(balance: int, codes: seq<RefundCode>, n: nat)
    requires n <= |codes|
    ensures SumMap(CollectedMap(balance, codes, n)) == Sum(Allocs(balance, codes, n))
  {
    hide Alloc, Collected, Codes;
    if n == 0 {
      NothingCollected(balance, codes);
    } else {
      var p, c, a := CollectedMap(balance, codes, n - 1), codes[n - 1].code, Alloc(balance, codes, n - 1);
      CollectedSum(balance, codes, n - 1);
      CollectedStep(balance, codes, n - 1);
      SumMapPut(p, c, (if c in p then p[c] else 0) + a);
      assert Allocs(balance, codes, n) == Allocs(balance, codes, n - 1) + [a];
      SumAppend(Allocs(balance, codes, n - 1), a);
    }
  }

  lemma {:induction false} CollectedNonNegative(balance: nat, codes: seq<RefundCode>, n: nat, c: string)
    requires n <= |codes|
    ensures Collected(balance, codes, n, c) >= 0
  {
    if n > 0 {
      CollectedNonNegative(balance, codes, n - 1, c);
      AllocNonNegative(balance, codes, n - 1);
    }
  }

  /** Every split of a non-negative balance is non-negative and they add up to it. */
  lemma SplitExact(balance: nat, codes: seq<RefundCode>)
    ensures codes != [] ==> SumMap(SplitOf(balance, codes)) == balance
    ensures codes == [] ==> SplitOf(balance, codes) == map[]
    ensures forall c :: c in SplitOf(balance, codes) ==> 0 <= SplitOf(balance, codes)[c]
  {
    var n := |codes|;
    assert codes[..n] == codes;
    assert SplitOf(balance, codes) == CollectedMap(balance, codes, n);
    CollectedSum(balance, codes, n);
    AllocsSum(balance, codes, n);
    forall c | c in SplitOf(balance, codes) ensures 0 <= SplitOf(balance, codes)[c] {
      CollectedNonNegative(balance, codes, n, c);
    }
  }

  /** The shares a code is listed with. */
  function WeightOf(codes: seq<RefundCode>, n: nat, code: string): nat
    requires n <= |codes|
  {
    if n == 0 then 0 else WeightOf(codes, n - 1, code) + if codes[n - 1].code == code then codes[n - 1].share else 0
  }

  lemma AllocBounds(balance: nat, codes: seq<RefundCode>, i: nat)
    requires i < |codes|
    ensures var t, a := TotalShares(codes), Alloc(balance, codes, i);
      && t > 0
      && t * a > balance * codes[i].share - t
      && t * a < balance * codes[i].share + t * |codes|
      && (i < |codes| - 1 ==> t * a <= balance * codes[i].share)
  {
    var t, f, a := TotalShares(codes), Floor(balance, codes, i), Alloc(balance, codes, i);
    FloorBounds(balance, codes, i);
    if i == |codes| - 1 {
      LastEntry(balance, codes);
      GoInt.MulMonotone(f, a, t);
      GoInt.MulMonotone(a, f + |codes| - 1, t);
      assert t * (f + |codes| - 1) == t * f + t * |codes| - t;
    } else {
      GoInt.MulMonotone(1, |codes|, t);
    }
  }

  lemma CollectStep(t: int, c: int, a: int, b: int, w: int, s: int, n: int, k: int)
    requires b * w - t * n <= t * c <= b * w + t * k * n
    requires b * s - t <= t * a <= b * s + t * k
    ensures b * (w + s) - t * (n + 1) <= t * (c + a) <= b * (w + s) + t * k * (n + 1)
  {
    assert b * (w + s) == b * w + b * s && t * (c + a) == t * c + t * a;
    assert t * (n + 1) == t * n + t && t * k * (n + 1) == t * k * n + t * k;
  }

  lemma {:induction false} CollectedBounds(balance: nat, codes: seq<RefundCode>, n: nat, code: string)
    requires n <= |codes| && codes != []
    ensures var t, c, w := TotalShares(codes), Collected(balance, codes, n, code), WeightOf(codes, n, code);
      balance * w - t * n <= t * c <= balance * w + t * |codes| * n
  {
    hide Alloc, TotalShares;
    if n > 0 {
      var t, listed := TotalShares(codes), codes[n - 1].code == code;
      CollectedBounds(balance, codes, n - 1, code);
      AllocBounds(balance, codes, n - 1);
      GoInt.MulMonotone(0, |codes|, t);
      CollectStep(t, Collected(balance, codes, n - 1, code), if listed then Alloc(balance, codes, n - 1) else 0, balance,
                  WeightOf(codes, n - 1, code), if listed then codes[n - 1].share else 0, n - 1, |codes|);
    }
  }

  /** Who gets how much: every code collects its weight's proportion of the balance, up to rounding by
      a number of msats that depends on the number of codes only. */
  lemma SplitFair(balance: nat, codes: seq<RefundCode>, code: string)
    requires codes != [] && code in SplitOf(balance, codes)
    ensures var t, n := TotalShares(codes), |codes|;
      var m, w := SplitOf(balance, codes)[code], WeightOf(codes, n, code);
      balance * w - t * n <= t * m <= balance * w + t * n * n
  {
    CollectedBounds(balance, codes, |codes|, code);
  }

  lemma {:induction false} ListedOnce(balance: nat, codes: seq<RefundCode>, n: nat, i: nat)
    requires n <= |codes| && i < |codes| && forall j :: 0 <= j < |codes| && j != i ==> codes[j].code != codes[i].code
    ensures Collected(balance, codes, n, codes[i].code) == if i < n then Alloc(balance, codes, i) else 0
  {
    hide Alloc;
    if n > 0 { ListedOnce(balance, codes, n - 1, i); }
  }

  /** A code listed once, and not last, gets exactly its proportion rounded down. */
  lemma SplitFloor(balance: nat, codes: seq<RefundCode>, i: nat)
    requires i < |codes| - 1 && forall j :: 0 <= j < |codes| && j != i ==> codes[j].code != codes[i].code
    ensures codes[i].code in SplitOf(balance, codes)
    ensures var t, m := TotalShares(codes), SplitOf(balance, codes)[codes[i].code];
      t * m <= balance * codes[i].share < t * m + t
  {
    ListedOnce(balance, codes, |codes|, i);
    FloorBounds(balance, codes, i);
  }
}
