/** The urgency multiplier `1 + 11 * 0.5 ** (slack / 18)`, rounded to four places, without leaving the integers.
    Slack is in hundredths of an hour and the multiplier in ten-thousandths. */
module UrgencyDecay {
  import opened Common

  const HALF_LIFE := 1800

  const NO_URGENCY := 1_0000

  function Power(b: nat, n: nat): nat { if n == 0 then 1 else b * Power(b, n - 1) }

  /** The multiplier is at most `r + 1/2`: the inequality with both sides raised to the power of the half-life. */
  predicate Reaches(r: nat, slack: nat)
    requires r >= 1_0000
  {
    Power(220000, HALF_LIFE) <= Power(2 * r - 19999, HALF_LIFE) * Power(2, slack)
  }

  function LeastFrom(r: nat, slack: nat): (least: nat)
    requires 1_0000 <= r <= 12_0000
    ensures r <= least <= 12_0000
    ensures least == 12_0000 || Reaches(least, slack)
    ensures forall q :: r <= q < least ==> !Reaches(q, slack)
    decreases 12_0000 - r
  {
    if r == 12_0000 || Reaches(r, slack) then r else LeastFrom(r + 1, slack)
  }

  /** The multiplier is exactly `r + 1/2`. */
  predicate HalfAbove(r: nat, slack: nat)
    requires r >= 1_0000
  {
    Power(220000, HALF_LIFE) == Power(2 * r - 19999, HALF_LIFE) * Power(2, slack)
  }

  /** `urgency`, for a job with slack left: the nearest value, the even one of two that are equally near. */
  function UrgencyAt(slack: nat): (r: nat)
    ensures 1_0000 <= r <= 12_0000
  {
    var least := LeastFrom(NO_URGENCY, slack);
    if least % 2 == 1 && HalfAbove(least, slack) then least + 1 else least
  }

  /** `urgency`: its value at the deadline once there is no slack. */
  function Pull(slack: int): (r: int)
    ensures 1_0000 <= r <= 12_0000
  {
    if slack <= 0 then 12_0000 else UrgencyAt(slack)
  }

  // ------------------------------------------------------------------ powers

  lemma ProductMonotone(a: nat, b: nat, x: nat, y: nat)
    requires a <= x && b <= y
    ensures 0 <= a * b <= x * y
  {
    assert a * (y - b) >= 0 && (x - a) * y >= 0;
    assert a * (y - b) == a * y - a * b && (x - a) * y == x * y - a * y;
  }

  lemma {:induction false} PowerMonotone(a: nat, b: nat, n: nat)
    requires a <= b
    ensures Power(a, n) <= Power(b, n)
  {
    if n > 0 {
      PowerMonotone(a, b, n - 1);
      ProductMonotone(a, Power(a, n - 1), b, Power(b, n - 1));
    }
  }

  lemma {:induction false} PowerGrows(b: nat, m: nat, n: nat)
    requires b >= 1 && m <= n
    ensures 1 <= Power(b, m) <= Power(b, n)
    decreases n
  {
    if n > m {
      PowerGrows(b, m, n - 1);
      ProductMonotone(1, Power(b, n - 1), b, Power(b, n - 1));
    } else if n > 0 {
      PowerGrows(b, m - 1, n - 1);
      ProductMonotone(1, 1, b, Power(b, n - 1));
    }
  }

  lemma PowerOfZero(n: nat)
    requires n > 0
    ensures Power(0, n) == 0
  {
  }

  lemma ProductStrict(a: nat, b: nat, x: nat)
    requires a < b && x > 0
    ensures a * x < b * x
  {
    var d := b - a;
    ProductMonotone(1, x, d, x);
    assert (a + d) * x == a * x + d * x;
  }

  lemma {:induction false} PowerStrict(a: nat, b: nat, n: nat)
    requires a < b && n > 0
    ensures Power(a, n) < Power(b, n)
  {
    if n == 1 {
      assert Power(a, 0) == Power(b, 0) == 1;
    } else {
      PowerStrict(a, b, n - 1);
      ProductMonotone(a, Power(a, n - 1), a, Power(b, n - 1));
      ProductStrict(a, b, Power(b, n - 1));
    }
  }

  lemma PowerOfTwoStrict(m: nat, n: nat)
    requires m < n
    ensures Power(2, m) < Power(2, n)
  {
    PowerGrows(2, m, n - 1);
    PowerGrows(2, 0, n - 1);
  }

  // ------------------------------------------------------------------ what the multiplier is

  /** `r` lies within half a ten-thousandth of the multiplier, in the same form. */
  ghost predicate Nearest(r: nat, slack: nat) {
    && r >= 1_0000
    && Power(Max(2 * r - 20001, 0), HALF_LIFE) * Power(2, slack) <= Power(220000, HALF_LIFE)
    && Power(220000, HALF_LIFE) <= Power(2 * r - 19999, HALF_LIFE) * Power(2, slack)
  }

  /** The whole multiplier is reached at the latest at its value at the deadline. */
  lemma DeadlineReaches(slack: nat)
    ensures Reaches(12_0000, slack)
  {
    PowerMonotone(220000, 220001, HALF_LIFE);
    PowerGrows(2, 0, slack);
    ProductMonotone(Power(220000, HALF_LIFE), 1, Power(220001, HALF_LIFE), Power(2, slack));
  }

  lemma NearestWhenLeast(r: nat, low: nat, slack: nat)
    requires r >= 1_0000 && Reaches(r, slack) && low == Max(2 * r - 20001, 0)
    requires Power(low, HALF_LIFE) * Power(2, slack) <= Power(220000, HALF_LIFE)
    ensures Nearest(r, slack)
  {
  }

  lemma BelowIsNotReached(r: nat, slack: nat)
    requires r > 1_0000 && !Reaches(r - 1, slack)
    ensures Power(2 * r - 20001, HALF_LIFE) * Power(2, slack) <= Power(220000, HALF_LIFE)
  {
    assert 2 * (r - 1) - 19999 == 2 * r - 20001;
  }

  lemma NothingBelow(low: nat, slack: nat)
    requires low == 0
    ensures Power(low, HALF_LIFE) * Power(2, slack) <= Power(220000, HALF_LIFE)
  {
    PowerOfZero(HALF_LIFE);
    PowerGrows(220000, 0, HALF_LIFE);
  }

  lemma LeastIsNearest(r: nat, slack: nat)
    requires r >= 1_0000 && Reaches(r, slack) && (r > 1_0000 ==> !Reaches(r - 1, slack))
    ensures Nearest(r, slack)
  {
    var low := Max(2 * r - 20001, 0);
    if low == 0 { NothingBelow(low, slack); } else { BelowIsNotReached(r, slack); }
    NearestWhenLeast(r, low, slack);
  }

  /** Of a value that lies halfway, the next one up is as near. */
  lemma HalfwayIsNearest(r: nat, slack: nat)
    requires r >= 1_0000 && HalfAbove(r, slack)
    ensures Nearest(r + 1, slack)
  {
    var low, high, two := Power(2 * r - 19999, HALF_LIFE), Power(2 * r - 19997, HALF_LIFE), Power(2, slack);
    assert 2 * (r + 1) - 20001 == 2 * r - 19999 && 2 * (r + 1) - 19999 == 2 * r - 19997;
    PowerMonotone(2 * r - 19999, 2 * r - 19997, HALF_LIFE);
    ProductMonotone(low, two, high, two);
  }

  /** If the multiplier lies halfway between `r` and a neighbour, `r` is the even one. */
  ghost predicate TieIsEven(r: nat, slack: nat)
    requires r >= 1_0000
  {
    HalfAbove(r, slack) || (r > 1_0000 && HalfAbove(r - 1, slack)) ==> r % 2 == 0
  }

  lemma HalfIsReached(r: nat, slack: nat)
    requires r >= 1_0000 && HalfAbove(r, slack)
    ensures Reaches(r, slack)
  {
  }

  lemma LeastOrNext(least: nat, r: nat, slack: nat)
    requires least >= 1_0000 && Reaches(least, slack) && (least > 1_0000 ==> !Reaches(least - 1, slack))
    requires r == if least % 2 == 1 && HalfAbove(least, slack) then least + 1 else least
    ensures Nearest(r, slack) && TieIsEven(r, slack)
  {
    if r == least {
      LeastIsNearest(least, slack);
      if least > 1_0000 && HalfAbove(least - 1, slack) { HalfIsReached(least - 1, slack); }
    } else {
      HalfwayIsNearest(least, slack);
    }
  }

  /** The multiplier is the real one rounded to the nearest ten-thousandth, halves to the even one. */
  lemma UrgencyIsNearest(slack: nat)
    ensures Nearest(UrgencyAt(slack), slack) && TieIsEven(UrgencyAt(slack), slack)
  {
    DeadlineReaches(slack);
    LeastOrNext(LeastFrom(NO_URGENCY, slack), UrgencyAt(slack), slack);
  }

  lemma ReachesWithSlack(r: nat, less: nat, more: nat)
    requires r >= 1_0000 && less <= more && Reaches(r, less)
    ensures Reaches(r, more)
  {
    PowerGrows(2, less, more);
    var p := Power(2 * r - 19999, HALF_LIFE);
    ProductMonotone(p, Power(2, less), p, Power(2, more));
  }

  /** With less slack a value that lay halfway is no longer reached. */
  lemma HalfwayNeedsSlack(r: nat, less: nat, more: nat)
    requires r >= 1_0000 && less < more && HalfAbove(r, more)
    ensures !Reaches(r, less)
  {
    var p := Power(2 * r - 19999, HALF_LIFE);
    PowerOfTwoStrict(less, more);
    PowerGrows(2 * r - 19999, 0, HALF_LIFE);
    ProductStrict(Power(2, less), Power(2, more), p);
  }

  /** The closer the deadline, the stronger the pull. */
  lemma PullGrows(less: int, more: int)
    requires less <= more
    ensures Pull(more) <= Pull(less)
  {
    if 0 < less < more {
      var near, far := LeastFrom(NO_URGENCY, less), LeastFrom(NO_URGENCY, more);
      DeadlineReaches(less);
      ReachesWithSlack(near, less, more);
      if HalfAbove(far, more) { HalfwayNeedsSlack(far, less, more); }
    }
  }

  // ------------------------------------------------------------------ the one tie

  lemma Regroup(a: nat, x: nat, y: nat)
    ensures (32 * a) * (x * y) == (a * x) * (32 * y)
  {
    assert (a * x) * (32 * y) == a * x * 32 * y;
  }

  lemma PowerStep(b: nat, n: nat)
    requires n > 0
    ensures Power(b, n) == b * Power(b, n - 1)
  {
  }

  lemma {:induction false} TimesThirtyTwo(a: nat, n: nat)
    ensures Power(32 * a, n) == Power(a, n) * Power(2, 5 * n)
  {
    if n > 0 {
      TimesThirtyTwo(a, n - 1);
      PowerStep(32 * a, n);
      PowerStep(a, n);
      FiveDoublings(5 * (n - 1));
      assert 5 * (n - 1) + 5 == 5 * n;
      Regroup(a, Power(a, n - 1), Power(2, 5 * (n - 1)));
    }
  }

  lemma FiveDoublings(n: nat)
    ensures Power(2, n + 5) == 32 * Power(2, n)
  {
    assert Power(2, n + 5) == 2 * Power(2, n + 4) && Power(2, n + 4) == 2 * Power(2, n + 3);
    assert Power(2, n + 3) == 2 * Power(2, n + 2) && Power(2, n + 2) == 2 * Power(2, n + 1);
  }

  /** A value halfway above an odd one is rounded up. */
  lemma HalfwayRoundsUp(odd: nat, slack: nat)
    requires 1_0000 <= odd <= 12_0000 && odd % 2 == 1 && HalfAbove(odd, slack)
    ensures UrgencyAt(slack) == odd + 1
  {
    forall q | 1_0000 <= q < odd ensures !Reaches(q, slack) { BelowTie(q, odd, slack); }
    assert Reaches(odd, slack);
  }

  lemma HalfwayAfterFive(odd: nat, base: nat, slack: nat)
    requires odd >= 1_0000 && base == 2 * odd - 19999 && 32 * base == 220000 && slack == 5 * HALF_LIFE
    ensures HalfAbove(odd, slack)
  {
    TimesThirtyTwo(base, HALF_LIFE);
  }

  /** 90 hours before the deadline, five half-lives, the multiplier is 1.34375: it is rounded up to the even 1.3438. */
  lemma TieGoesToEven(slack: nat)
    requires slack == 90_00
    ensures UrgencyAt(slack) == 1_3438
  {
    var odd: nat :| odd == 1_3437;
    HalfwayAfterFive(odd, 2 * odd - 19999, slack);
    HalfwayRoundsUp(odd, slack);
  }

  lemma BelowTie(q: nat, r: nat, slack: nat)
    requires 1_0000 <= q < r && HalfAbove(r, slack)
    ensures !Reaches(q, slack)
  {
    PowerStrict(2 * q - 19999, 2 * r - 19999, HALF_LIFE);
    PowerGrows(2, 0, slack);
    ProductStrict(Power(2 * q - 19999, HALF_LIFE), Power(2 * r - 19999, HALF_LIFE), Power(2, slack));
  }
}
