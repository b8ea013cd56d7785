// Conversion between a realm's timestamps and dates measured from 2001 (RLMUtil.hpp), in
// exact arithmetic.
module Timestamps {
  import opened Options

  /** Seconds and nanoseconds since 1970; a valid pair has no opposite signs. */
  datatype Timestamp = Timestamp(seconds: int, nanoseconds: int)

  /** A time interval since the reference date. */
  datatype Interval = NaN | MinusInfinity | PlusInfinity | Secs(value: real)

  const INT64_MAX: int := 0x7fff_ffff_ffff_ffff
  const INT64_MIN: int := -0x8000_0000_0000_0000
  const BILLION: int := 1_000_000_000

  /** Seconds from 1970 to the reference date, 1 January 2001. */
  const EPOCH: int := 978307200

  function DaysIn(year: nat): nat {
    if year % 4 == 0 && (year % 100 != 0 || year % 400 == 0) then 366 else 365
  }

  /** The days from the start of one year to the start of another. */
  function DaysBetween(year: nat, later: nat): nat {
    if year >= later then 0 else DaysIn(later - 1) + DaysBetween(year, later - 1)
  }

  lemma {:induction false} DaysUntil(year: nat)
    requires 1970 <= year < 2100
    ensures DaysBetween(1970, year) == 365 * (year - 1970) + (year - 1969) / 4
  {
    if year > 1970 {
      DaysUntil(year - 1);
    }
  }

  /** The reference date is that many days after 1970. */
  lemma EpochCountsDays()
    ensures EPOCH == 24 * 60 * 60 * DaysBetween(1970, 2001)
  {
    DaysUntil(2001);
  }

  predicate IsInt64(n: int) { INT64_MIN <= n <= INT64_MAX }

  predicate ValidTimestamp(ts: Timestamp) {
    && IsInt64(ts.seconds)
    && -BILLION < ts.nanoseconds < BILLION
    && (ts.seconds > 0 ==> ts.nanoseconds >= 0)
    && (ts.seconds < 0 ==> ts.nanoseconds <= 0)
  }

  /** The instant a timestamp stands for, in nanoseconds since 1970. */
  function Instant(ts: Timestamp): int {
    ts.seconds * BILLION + ts.nanoseconds
  }

  /** The instant of an interval, in nanoseconds since 1970. */
  function RealInstant(x: real): real {
    (x + EPOCH as real) * BILLION as real
  }

  /** `RLMTimestampToNSDate`. */
  function ToDate(ts: Option<Timestamp>): Option<Interval> {
    match ts
    case None => None
    case Some(t) => Some(Secs(ToInterval(t)))
  }

  function ToInterval(ts: Timestamp): real {
    ts.seconds as real - EPOCH as real + ts.nanoseconds as real / BILLION as real
  }

  /** A cast to an integer type: truncation toward zero. */
  function Truncate(x: real): (n: int)
    ensures x >= 0.0 ==> n as real <= x < n as real + 1.0
    ensures x <= 0.0 ==> n as real - 1.0 < x <= n as real
  {
    if x >= 0.0 then x.Floor else -((-x).Floor)
  }

  predicate ClampsHigh(x: real) { x >= INT64_MAX as real - EPOCH as real }

  predicate ClampsLow(x: real) { x - EPOCH as real < INT64_MIN as real }

  /** `RLMTimestampForNSDate`. The casts and the epoch shift stay within their types. */
  method FromDate(date: Option<Interval>) returns (ts: Option<Timestamp>)
    ensures ts == ForDate(date)
  {
    if date.None? {
      return None;
    }
    if date.value.NaN? {
      return Some(Timestamp(0, 0));
    }
    if date.value.PlusInfinity? || (date.value.Secs? && ClampsHigh(date.value.value)) {
      return Some(Timestamp(INT64_MAX, BILLION - 1));
    }
    if date.value.MinusInfinity? || (date.value.Secs? && ClampsLow(date.value.value)) {
      return Some(Timestamp(INT64_MIN, -BILLION + 1));
    }
    var timeInterval := date.value.value;
    var seconds := Truncate(timeInterval);
    assert IsInt64(seconds);
    var nanoseconds := Truncate((timeInterval - seconds as real) * BILLION as real);
    assert -BILLION < nanoseconds < BILLION;
    seconds := seconds + EPOCH;
    assert IsInt64(seconds);
    if nanoseconds < 0 && seconds > 0 {
      nanoseconds := nanoseconds + BILLION;
      seconds := seconds - 1;
    }
    return Some(Timestamp(seconds, nanoseconds));
  }

  function ForDate(date: Option<Interval>): Option<Timestamp> {
    match date
    case None => None
    case Some(NaN) => Some(Timestamp(0, 0))
    case Some(PlusInfinity) => Some(Timestamp(INT64_MAX, BILLION - 1))
    case Some(MinusInfinity) => Some(Timestamp(INT64_MIN, -BILLION + 1))
    case Some(Secs(x)) => Some(ForInterval(x))
  }

  function ForInterval(x: real): Timestamp {
    if ClampsHigh(x) then Timestamp(INT64_MAX, BILLION - 1)
    else if ClampsLow(x) then Timestamp(INT64_MIN, -BILLION + 1)
    else
      var whole := Truncate(x);
      var nanos := Truncate((x - whole as real) * BILLION as real);
      if nanos < 0 && whole + EPOCH > 0 then Timestamp(whole + EPOCH - 1, nanos + BILLION)
      else Timestamp(whole + EPOCH, nanos)
  }

  /** An unclamped date becomes a valid timestamp less than a nanosecond away, on the side
      of the reference date. */
  lemma Unclamped(x: real)
    requires !ClampsHigh(x) && !ClampsLow(x)
    ensures ValidTimestamp(ForInterval(x))
    ensures var i := Instant(ForInterval(x)) as real;
      && (x >= 0.0 ==> i <= RealInstant(x) < i + 1.0)
      && (x <= 0.0 ==> i - 1.0 < RealInstant(x) <= i)
  {
    var whole := Truncate(x);
    var frac := (x - whole as real) * BILLION as real;
    assert RealInstant(x) == ((whole + EPOCH) * BILLION) as real + frac;
  }

  /** Every date becomes a valid timestamp. */
  lemma AlwaysValid(x: real)
    ensures ValidTimestamp(ForInterval(x))
  {
    if !ClampsHigh(x) && !ClampsLow(x) {
      Unclamped(x);
    }
  }

  /** For valid timestamps the order of instants is the order of the pairs. */
  lemma InstantOrder(a: Timestamp, b: Timestamp)
    requires ValidTimestamp(a) && ValidTimestamp(b)
    ensures Instant(a) <= Instant(b) <==> a.seconds < b.seconds || (a.seconds == b.seconds && a.nanoseconds <= b.nanoseconds)
    ensures Instant(a) == Instant(b) <==> a == b
  {
  }

  /** Earlier dates never become later timestamps, also across the clamps, the reference
      date and the sign correction. */
  lemma Monotone(x: real, y: real)
    requires x <= y
    ensures Instant(ForInterval(x)) <= Instant(ForInterval(y))
  {
    AlwaysValid(x);
    AlwaysValid(y);
    if !ClampsHigh(x) && !ClampsLow(x) && !ClampsHigh(y) && !ClampsLow(y) {
      Unclamped(x);
      Unclamped(y);
      var i, j := Instant(ForInterval(x)), Instant(ForInterval(y));
      assert RealInstant(x) <= RealInstant(y);
      if x < 0.0 && y >= 0.0 {
        var origin := EPOCH * BILLION;
        assert RealInstant(x) <= origin as real <= RealInstant(y);
        assert i <= origin && origin <= j;
      }
    }
  }

  /** The infinities become the least and the greatest valid timestamp, and NaN the origin. */
  lemma Extremes(ts: Timestamp)
    requires ValidTimestamp(ts)
    ensures var least, greatest := ForDate(Some(MinusInfinity)), ForDate(Some(PlusInfinity));
      && least.Some? && greatest.Some? && ValidTimestamp(least.value) && ValidTimestamp(greatest.value)
      && Instant(least.value) <= Instant(ts) <= Instant(greatest.value)
    ensures ForDate(Some(NaN)).Some? && Instant(ForDate(Some(NaN)).value) == 0
  {
    InstantOrder(ForDate(Some(MinusInfinity)).value, ts);
    InstantOrder(ts, ForDate(Some(PlusInfinity)).value);
  }

  lemma MonotoneDates(d: Interval, e: Interval)
    requires !d.NaN? && !e.NaN?
    requires d.MinusInfinity? || e.PlusInfinity? || (d.Secs? && e.Secs? && d.value <= e.value)
    ensures var p := ForDate(Some(d)); var q := ForDate(Some(e));
      p.Some? && q.Some? && ValidTimestamp(p.value) && ValidTimestamp(q.value) && Instant(p.value) <= Instant(q.value)
  {
    if d.Secs? {
      AlwaysValid(d.value);
    }
    if e.Secs? {
      AlwaysValid(e.value);
    }
    if d.Secs? && e.Secs? && d.value <= e.value {
      Monotone(d.value, e.value);
    }
  }

  /** The timestamps that the conversion to a date and back returns unchanged: all valid
      ones but those of the last second, which clamp to its last nanosecond, and those
      earlier than twice the epoch shift after the least second, which clamp to the least
      timestamp (the lower guard subtracts the shift that the conversion adds). */
  predicate Survives(ts: Timestamp) {
    && (ts.seconds == INT64_MAX ==> ts.nanoseconds == BILLION - 1)
    && (Instant(ts) < (INT64_MIN + 2 * EPOCH) * BILLION ==> ts == Timestamp(INT64_MIN, -BILLION + 1))
  }

  lemma RoundTrip(ts: Timestamp)
    requires ValidTimestamp(ts)
    ensures ForInterval(ToInterval(ts)) == ts <==> Survives(ts)
  {
    var x := ToInterval(ts);
    assert RealInstant(x) == Instant(ts) as real;
    assert ClampsHigh(x) <==> RealInstant(x) >= (INT64_MAX * BILLION) as real;
    assert ClampsLow(x) <==> RealInstant(x) < ((INT64_MIN + 2 * EPOCH) * BILLION) as real;
    if !ClampsHigh(x) && !ClampsLow(x) {
      Unclamped(x);
      InstantOrder(ForInterval(x), ts);
    }
  }

  /** Null dates and null timestamps correspond, and so do all timestamps that survive. */
  lemma RoundTripDates(ts: Option<Timestamp>)
    requires ts.Some? ==> ValidTimestamp(ts.value)
    ensures ForDate(ToDate(ts)) == ts <==> (ts.Some? ==> Survives(ts.value))
  {
    if ts.Some? {
      RoundTrip(ts.value);
    }
  }

  /** The opposite trip moves an unclamped date by less than a nanosecond. */
  lemma RoundTripInterval(x: real)
    requires !ClampsHigh(x) && !ClampsLow(x)
    ensures var y := ToInterval(ForInterval(x));
      -1.0 < (y - x) * BILLION as real < 1.0
  {
    Unclamped(x);
    var ts := ForInterval(x);
    assert RealInstant(ToInterval(ts)) == Instant(ts) as real;
  }

  /** A valid timestamp, one epoch shift above the least second, that does not survive. */
  lemma LowerGuardClampsTooMuch()
    ensures ValidTimestamp(Timestamp(INT64_MIN + EPOCH, 0))
    ensures ForInterval(ToInterval(Timestamp(INT64_MIN + EPOCH, 0))) == Timestamp(INT64_MIN, -BILLION + 1)
  {
    RoundTrip(Timestamp(INT64_MIN + EPOCH, 0));
  }
}
