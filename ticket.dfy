/** The fee model of a parking ticket: the ticket record, the compounding
    increase rule and the tiered charge computed from the time parked. */
module Tickets {
  import opened GoInts

  /** An instant, in nanoseconds since Go's zero `time.Time` (January 1 of year 1,
      UTC). Go's unset time is that zero instant. */
  type Time = int

  /** Go's `time.Duration`: a signed 64-bit count of nanoseconds. */
  type Duration = Int64

  const ZeroTime: Time := 0
  const Minute: int := 60_000_000_000
  const Hour: int := 3_600_000_000_000

  /** The charge for the first hour, in cents. */
  const BaseRate: int := 300

  /** One parking session. `paid` is in cents; `card` is the payment token,
      stored as given. */
  datatype Ticket = Ticket(id: Int64, timeIn: Time, timePaid: Time, paid: Int64, card: string)

  // ---------------------------------------------------------------------------
  // The increase rule

  /** One pass of the increase loop, `owing += owing / 2`: a 150% multiplier
      whose half is truncated toward zero as Go's integer division does. */
  function Increase(owing: int): (r: int)
    ensures 0 <= owing ==> owing <= r && 3 * owing - 1 <= 2 * r <= 3 * owing
    ensures owing <= 0 ==> r <= owing && 3 * owing <= 2 * r <= 3 * owing + 1
  {
    GoDivision(owing, 2);
    owing + GoQuo(owing, 2)
  }

  /** `owing` after `times` passes of the increase; a count of zero or below
      runs no pass. */
  function Compounded(owing: int, times: int): int
    decreases times
  {
    if times <= 0 then owing else Compounded(Increase(owing), times - 1)
  }

  /** increaseRate: the counting loop that applies the increase `times` times. */
  method IncreaseRate(owing: int, times: int) returns (r: int)
    ensures r == Compounded(owing, times)
    ensures times <= 0 ==> r == owing
  {
    r := owing;
    var i := 1;
    while i <= times
      invariant 1 <= i && (i <= times + 1 || i == 1)
      invariant Compounded(r, times - i + 1) == Compounded(owing, times)
    {
      var increase := GoQuo(r, 2);
      r := r + increase;
      i := i + 1;
    }
  }

  /** Each further pass applies one more truncating increase to the amount
      reached so far: the truncation happens at every step, not once at the end. */
  lemma {:induction false} CompoundedStep(owing: int, n: nat)
    ensures Compounded(owing, n + 1) == Increase(Compounded(owing, n))
    decreases n
  {
    if n > 0 {
      CompoundedStep(Increase(owing), n - 1);
    }
  }

  /** For a non-negative amount, more passes never give less, and never less
      than the amount itself. */
  lemma {:induction false} CompoundedMonotone(owing: int, m: int, n: int)
    requires 0 <= owing && m <= n
    ensures owing <= Compounded(owing, m) <= Compounded(owing, n)
    decreases n
  {
    if m <= 0 {
      if n > 0 {
        CompoundedMonotone(Increase(owing), 0, n - 1);
      }
    } else {
      CompoundedMonotone(Increase(owing), m - 1, n - 1);
    }
  }

  /** Because Go truncates toward zero, a negative amount compounds exactly as
      its magnitude does, with the sign flipped. */
  lemma {:induction false} CompoundedNegated(owing: int, n: int)
    ensures Compounded(-owing, n) == -Compounded(owing, n)
    decreases n
  {
    if n > 0 {
      GoDivision(owing, 2);
      assert Increase(-owing) == -Increase(owing);
      CompoundedNegated(Increase(owing), n - 1);
    }
  }

  /** The reference amounts of the schedule: 300, 450, 675 and 1012 cents. */
  lemma BaseRateSchedule()
    ensures Compounded(BaseRate, 0) == 300
    ensures Compounded(BaseRate, 1) == 450
    ensures Compounded(BaseRate, 2) == 675
    ensures Compounded(BaseRate, 3) == 1012
  {
    assert Increase(300) == 450;
    assert Increase(450) == 675;
    assert Increase(675) == 1012;
  }

  // ---------------------------------------------------------------------------
  // Elapsed hours

  /** `d.Hours() > k`. Go's Hours() adds the whole hours `d / Hour` to the
      fraction `(d % Hour) / Hour`, whose magnitude stays below one, so against a
      whole number the value compares as the pair (whole, remainder) does against
      (k, 0). */
  predicate HoursAbove(d: Duration, k: int)
  {
    var whole, rest := GoQuo(d, Hour), GoRem(d, Hour);
    whole > k || (whole == k && rest > 0)
  }

  /** `d.Hours() < k`, read the same way. */
  predicate HoursBelow(d: Duration, k: int)
  {
    var whole, rest := GoQuo(d, Hour), GoRem(d, Hour);
    whole < k || (whole == k && rest < 0)
  }

  /** Elapsed hours exceed k exactly when the duration exceeds k whole hours. */
  lemma HoursAboveExactly(d: Duration, k: int)
    ensures HoursAbove(d, k) <==> d > k * Hour
  {
    GoDivision(d, Hour);
    var whole := GoQuo(d, Hour);
    if whole > k {
      assert whole * Hour >= k * Hour + Hour;
    } else if whole < k {
      assert whole * Hour <= k * Hour - Hour;
    }
  }

  /** Elapsed hours fall short of k exactly when the duration does. */
  lemma HoursBelowExactly(d: Duration, k: int)
    ensures HoursBelow(d, k) <==> d < k * Hour
  {
    GoDivision(d, Hour);
    var whole := GoQuo(d, Hour);
    if whole > k {
      assert whole * Hour >= k * Hour + Hour;
    } else if whole < k {
      assert whole * Hour <= k * Hour - Hour;
    }
  }

  // ---------------------------------------------------------------------------
  // The tiered charge

  /** The charge, in cents, after `elapsed` has passed since the ticket was
      issued, with the schedule's tests in the order the source makes them. */
  function OwingAfter(elapsed: Duration): (r: int)
    ensures r == 300 || r == 450 || r == 675 || r == 1012
  {
    BaseRateSchedule();
    if HoursAbove(elapsed, 1) && HoursBelow(elapsed, 3) then Compounded(BaseRate, 1)
    else if !HoursBelow(elapsed, 3) && !HoursAbove(elapsed, 6) then Compounded(BaseRate, 2)
    else if HoursAbove(elapsed, 6) then Compounded(BaseRate, 3)
    else BaseRate
  }

  /** The four tiers with their exact boundaries: up to and including one hour
      (and any negative time) is the base rate; strictly between one and three
      hours is one increase; three to six hours, both ends included, is two;
      beyond six hours is three. */
  lemma OwingTiers(elapsed: Duration)
    ensures elapsed <= Hour ==> OwingAfter(elapsed) == 300
    ensures Hour < elapsed < 3 * Hour ==> OwingAfter(elapsed) == 450
    ensures 3 * Hour <= elapsed <= 6 * Hour ==> OwingAfter(elapsed) == 675
    ensures 6 * Hour < elapsed ==> OwingAfter(elapsed) == 1012
  {
    BaseRateSchedule();
    HoursAboveExactly(elapsed, 1);
    HoursBelowExactly(elapsed, 3);
    HoursAboveExactly(elapsed, 6);
  }

  /** The charge never goes down as time passes. */
  lemma OwingMonotone(earlier: Duration, later: Duration)
    requires earlier <= later
    ensures OwingAfter(earlier) <= OwingAfter(later)
  {
    OwingTiers(earlier);
    OwingTiers(later);
  }

  // ---------------------------------------------------------------------------
  // Ticket operations

  /** Go's `t.Sub(u)`: the duration from u to t, saturated to the largest or
      smallest Duration when it does not fit. */
  function Sub(t: Time, u: Time): (d: Duration)
    ensures MinInt64 <= t - u <= MaxInt64 ==> d == t - u
    ensures t - u <= d <= 0 || 0 <= d <= t - u
    ensures (d < 0 <==> t < u) && (d == 0 <==> t == u)
  {
    if t - u < MinInt64 then MinInt64
    else if t - u > MaxInt64 then MaxInt64
    else t - u
  }

  /** A later clock reading never gives a shorter elapsed time. */
  lemma SubMonotone(since: Time, now: Time, later: Time)
    requires now <= later
    ensures Sub(now, since) <= Sub(later, since)
  {
  }

  /** CalculateOwing, with the clock reading `now` passed in: the charge for the
      time elapsed since the ticket's `timeIn`. */
  function CalculateOwing(t: Ticket, now: Time): (r: int)
    ensures BaseRate <= r <= Compounded(BaseRate, 3)
  {
    BaseRateSchedule();
    OwingAfter(Sub(now, t.timeIn))
  }

  /** Asking for the charge later never gives a smaller amount. */
  lemma CalculateOwingMonotone(t: Ticket, now: Time, later: Time)
    requires now <= later
    ensures CalculateOwing(t, now) <= CalculateOwing(t, later)
  {
    SubMonotone(t.timeIn, now, later);
    OwingMonotone(Sub(now, t.timeIn), Sub(later, t.timeIn));
  }

  // ---------------------------------------------------------------------------
  // Showing the charge

  predicate IsDigit(c: char)
  {
    '0' <= c <= '9'
  }

  predicate AllDigits(s: string)
  {
    forall i :: 0 <= i < |s| ==> IsDigit(s[i])
  }

  /** The number a string of decimal digits denotes, most significant first. */
  function DigitsValue(s: string): nat
    requires AllDigits(s)
  {
    if s == [] then 0
    else
      assert IsDigit(s[|s| - 1]);
      DigitsValue(s[..|s| - 1]) * 10 + (s[|s| - 1] as int - '0' as int)
  }

  function Digit(d: nat): (c: char)
    requires d < 10
    ensures IsDigit(c) && c as int - '0' as int == d
  {
    ('0' as int + d) as char
  }

  /** The decimal numeral of n, without leading zeros. */
  function Decimal(n: nat): (s: string)
    ensures 0 < |s| && AllDigits(s) && DigitsValue(s) == n
    ensures |s| > 1 ==> s[0] != '0'
  {
    if n < 10 then [Digit(n)]
    else
      var s := Decimal(n / 10) + [Digit(n % 10)];
      assert s[..|s| - 1] == Decimal(n / 10);
      s
  }

  /** An amount in cents written as dollars with two decimals, "$d.cc". */
  function FormatCents(cents: nat): (s: string)
    ensures 5 <= |s| && s[0] == '$' && s[|s| - 3] == '.'
    ensures AllDigits(s[1..|s| - 3]) && AllDigits(s[|s| - 2..])
    ensures DigitsValue(s[1..|s| - 3]) * 100 + DigitsValue(s[|s| - 2..]) == cents
    ensures |s| > 5 ==> s[1] != '0'
  {
    var dollars := Decimal(cents / 100);
    var s := "$" + dollars + "." + [Digit(cents % 100 / 10), Digit(cents % 10)];
    assert s[1..|s| - 3] == dollars;
    var cc := s[|s| - 2..];
    assert cc == [Digit(cents % 100 / 10), Digit(cents % 10)];
    assert cc[..1] == [Digit(cents % 100 / 10)] && cc[..1][..0] == [];
    assert DigitsValue(cc[..1]) == cents % 100 / 10;
    assert DigitsValue(cc) == cents % 100;
    s
  }

  /** ShowOwing's returned string, for the clock reading `now`. */
  function ShowOwing(t: Ticket, now: Time): (s: string)
    ensures 5 <= |s| && s[0] == '$' && s[|s| - 3] == '.'
    ensures AllDigits(s[1..|s| - 3]) && AllDigits(s[|s| - 2..])
    ensures DigitsValue(s[1..|s| - 3]) * 100 + DigitsValue(s[|s| - 2..]) == CalculateOwing(t, now)
    ensures |s| > 5 ==> s[1] != '0'
  {
    FormatCents(CalculateOwing(t, now))
  }

  /** The four strings a customer can be shown. */
  lemma ShownAmounts()
    ensures FormatCents(300) == "$3.00"
    ensures FormatCents(450) == "$4.50"
    ensures FormatCents(675) == "$6.75"
    ensures FormatCents(1012) == "$10.12"
  {
  }
}
