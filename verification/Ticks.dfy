/** Tick counts of N bits, `m` standing for 2^N, beside unbounded time.

    `Low` is what an N-bit counter shows at an unbounded time, `Origin` is the time of the
    last wrap to zero.  `WrapAdd` and `WrapSub` are `TickType_t` addition and subtraction. */
module Ticks {

  function WrapAdd(a: nat, b: nat, m: nat): (r: nat)
    requires a < m && b < m
    ensures r < m
  {
    if a + b < m then a + b else a + b - m
  }

  function WrapSub(a: nat, b: nat, m: nat): (r: nat)
    requires a < m && b < m
    ensures r < m
  {
    if a >= b then a - b else a + m - b
  }

  ghost predicate Closed(s: iset<nat>, m: nat) {
    0 in s && forall r :: r in s ==> r + m in s
  }

  /** The multiples of m are the least set with zero that is closed under adding m. */
  ghost predicate Multiple(r: nat, m: nat) {
    forall s: iset<nat> :: Closed(s, m) ==> r in s
  }

  lemma MultipleSteps(r: nat, m: nat)
    ensures Multiple(0, m) && (Multiple(r, m) ==> Multiple(r + m, m))
  {
  }

  ghost predicate FirstOrNext(r: nat, m: nat) {
    r == 0 || (r >= m && Multiple(r - m, m))
  }

  lemma NextIsNext(r: nat, m: nat)
    requires FirstOrNext(r, m)
    ensures FirstOrNext(r + m, m)
  {
    if r > 0 { MultipleSteps(r - m, m); }
  }

  lemma MultipleIs(r: nat, m: nat)
    requires Multiple(r, m)
    ensures FirstOrNext(r, m)
  {
    var s := iset x: nat | FirstOrNext(x, m);
    forall x | x in s ensures x + m in s { NextIsNext(x, m); }
    assert Closed(s, m);
  }

  lemma {:induction false} MultipleBelow(t: nat, m: nat) returns (r: nat)
    requires m > 0
    ensures Multiple(r, m) && r <= t < r + m
  {
    if t < m {
      r := 0;
    } else {
      var q := MultipleBelow(t - m, m);
      MultipleSteps(q, m);
      r := q + m;
    }
  }

  lemma {:induction false} MultiplesApart(a: nat, b: nat, m: nat)
    requires m > 0 && Multiple(a, m) && Multiple(b, m) && a < b
    ensures a + m <= b
  {
    MultipleIs(b, m);
    if a > 0 {
      MultipleIs(a, m);
      MultiplesApart(a - m, b - m, m);
    }
  }

  ghost function Origin(t: nat, m: nat): (r: nat)
    requires m > 0
    ensures r <= t < r + m
  {
    assert exists r: nat :: Multiple(r, m) && r <= t < r + m by {
      var q := MultipleBelow(t, m);
      assert Multiple(q, m);
    }
    var r: nat :| Multiple(r, m) && r <= t < r + m;
    r
  }

  ghost function Low(t: nat, m: nat): (r: nat)
    requires m > 0
    ensures r < m
  {
    t - Origin(t, m)
  }

  lemma OriginIs(t: nat, m: nat, r: nat)
    requires m > 0 && Multiple(r, m) && r <= t < r + m
    ensures Origin(t, m) == r && Low(t, m) == t - r
  {
    if r < Origin(t, m) { MultiplesApart(r, Origin(t, m), m); }
    if Origin(t, m) < r { MultiplesApart(Origin(t, m), r, m); }
  }

  /** A time in the same or the next wrap period. */
  lemma OriginNear(t: nat, u: nat, m: nat)
    requires m > 0
    ensures Origin(t, m) <= u < Origin(t, m) + m ==> Origin(u, m) == Origin(t, m)
    ensures Origin(t, m) + m <= u < Origin(t, m) + m + m ==> Origin(u, m) == Origin(t, m) + m
  {
    if Origin(t, m) <= u < Origin(t, m) + m { OriginIs(u, m, Origin(t, m)); }
    if Origin(t, m) + m <= u < Origin(t, m) + m + m {
      MultipleSteps(Origin(t, m), m);
      OriginIs(u, m, Origin(t, m) + m);
    }
  }

  /** N-bit addition shows the sum of the unbounded times. */
  lemma LowAdd(t: nat, d: nat, m: nat)
    requires d < m
    ensures WrapAdd(Low(t, m), d, m) == Low(t + d, m)
    ensures Origin(t + d, m) == if Low(t, m) + d < m then Origin(t, m) else Origin(t, m) + m
  {
    OriginNear(t, t + d, m);
  }

  /** N-bit subtraction shows the distance of two times less than 2^N apart. */
  lemma LowSub(t: nat, u: nat, m: nat)
    requires u <= t < u + m
    ensures WrapSub(Low(t, m), Low(u, m), m) == t - u
    ensures Low(t, m) < Low(u, m) <==> Origin(t, m) == Origin(u, m) + m
    ensures Low(u, m) <= Low(t, m) <==> Origin(t, m) == Origin(u, m)
  {
    OriginNear(u, t, m);
  }

  lemma {:induction false} MultipleSum(a: nat, b: nat, m: nat)
    requires m > 0 && Multiple(a, m) && Multiple(b, m)
    ensures Multiple(a + b, m)
  {
    if a > 0 {
      MultipleIs(a, m);
      MultipleSum(a - m, b, m);
      MultipleSteps(a - m + b, m);
    }
  }

  lemma OriginIsMultiple(t: nat, m: nat)
    requires m > 0
    ensures Multiple(Origin(t, m), m)
  {
  }

  /** Adding a multiple of 2^N does not show. */
  lemma LowShift(t: nat, r: nat, m: nat)
    requires m > 0 && Multiple(r, m)
    ensures Low(r + t, m) == Low(t, m)
  {
    OriginIsMultiple(t, m);
    MultipleSum(r, Origin(t, m), m);
    OriginIs(r + t, m, r + Origin(t, m));
  }
}
