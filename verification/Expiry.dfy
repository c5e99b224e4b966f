/** Time to expiry in trading years. Days are ordinals; times are microseconds of the day. */
module Expiry {
  import opened Orders

  const SESSIONS_PER_YEAR := 252.0
  const SESSION_MINUTES := 375.0
  const MINUTE := 60_000_000
  const SECOND := 1_000_000
  const SESSION_OPEN := (9 * 60 + 15) * MINUTE
  const SESSION_CLOSE := (15 * 60 + 30) * MINUTE
  const DAY := 24 * 60 * MINUTE
  const FLOOR := 0.1 / SESSIONS_PER_YEAR

  /** A moment: a day's ordinal and a time of that day. */
  datatype Moment = Moment(day: int, time: int)

  predicate IsTime(m: Moment) {
    0 <= m.time < DAY
  }

  /** `date.weekday() < 5`; day 1 was a Monday. */
  predicate Weekday(day: int) {
    (day + 6) % 7 < 5
  }

  /** `_session_fraction_remaining`. Seconds count, microseconds do not. */
  function FractionRemaining(now: Moment): real {
    if !Weekday(now.day) then 0.0
    else if now.time <= SESSION_OPEN then 1.0
    else if now.time >= SESSION_CLOSE then 0.0
    else
      var seconds := now.time / SECOND;
      var elapsed := seconds as real / 60.0 - 555.0;
      Max(0.0, 1.0 - elapsed / SESSION_MINUTES)
  }

  function Max(a: real, b: real): real {
    if a >= b then a else b
  }

  /** Weekdays strictly after `day`, up to `expiry`. */
  function Sessions(day: int, expiry: int): nat
    decreases if day < expiry then expiry - day else 0
  {
    if day >= expiry then 0 else (if Weekday(day + 1) then 1 else 0) + Sessions(day + 1, expiry)
  }

  function SessionsLeft(now: Moment, expiry: int): real {
    Sessions(now.day, expiry) as real + if now.day <= expiry then FractionRemaining(now) else 0.0
  }

  function TimeToExpiry(now: Moment, expiry: int): real {
    Max(SessionsLeft(now, expiry) / SESSIONS_PER_YEAR, FLOOR)
  }

  /** `time_to_expiry_years`; an expiry that is not a date gives None. */
  method TimeToExpiryYears(expiry: Option<int>, now: Moment) returns (years: Option<real>)
    ensures expiry.None? ==> years.None?
    ensures expiry.Some? ==> years == Some(TimeToExpiry(now, expiry.value))
  {
    if expiry.None? {
      return None;
    }
    var full := 0;
    var d := now.day;
    while d < expiry.value
      invariant full + Sessions(d, expiry.value) == Sessions(now.day, expiry.value)
      decreases expiry.value - d
    {
      d := d + 1;
      if Weekday(d) {
        full := full + 1;
      }
    }
    var fraction := if now.day <= expiry.value then FractionRemaining(now) else 0.0;
    return Some(Max((full as real + fraction) / SESSIONS_PER_YEAR, FLOOR));
  }

  predicate NoLater(a: Moment, b: Moment) {
    a.day < b.day || (a.day == b.day && a.time <= b.time)
  }

  lemma FractionInUnit(now: Moment)
    requires IsTime(now)
    ensures 0.0 <= FractionRemaining(now) <= 1.0
    ensures !Weekday(now.day) ==> FractionRemaining(now) == 0.0
  {
    if SESSION_OPEN < now.time < SESSION_CLOSE {
      assert now.time / SECOND >= 33300;
    }
  }

  /** Within a day the fraction only falls. */
  lemma FractionFalls(a: Moment, b: Moment)
    requires IsTime(a) && IsTime(b) && a.day == b.day && a.time <= b.time
    ensures FractionRemaining(a) >= FractionRemaining(b)
  {
    FractionInUnit(a);
    FractionInUnit(b);
    assert a.time / SECOND <= b.time / SECOND;
  }

  /** Each weekday passed drops out of the count. */
  lemma {:induction false} SessionsFall(a: int, b: int, expiry: int)
    requires a < b <= expiry
    ensures Sessions(a, expiry) >= Sessions(b, expiry) + if Weekday(b) then 1 else 0
    decreases b - a
  {
    if a + 1 < b {
      SessionsFall(a + 1, b, expiry);
    }
  }

  lemma SessionsLeftFall(a: Moment, b: Moment, expiry: int)
    requires IsTime(a) && IsTime(b) && NoLater(a, b)
    ensures SessionsLeft(a, expiry) >= SessionsLeft(b, expiry)
  {
    FractionInUnit(a);
    FractionInUnit(b);
    if a.day == b.day {
      FractionFalls(a, b);
    } else if b.day <= expiry {
      SessionsFall(a.day, b.day, expiry);
    }
  }

  lemma Scale(x: real, y: real)
    requires x >= y
    ensures x / SESSIONS_PER_YEAR >= y / SESSIONS_PER_YEAR
  {
  }

  /** Time to expiry never rises as the clock advances, through sessions, nights, weekends and expiry
      itself, and never falls below its floor, which is above zero. */
  lemma TimeNeverRises(a: Moment, b: Moment, expiry: int)
    requires IsTime(a) && IsTime(b) && NoLater(a, b)
    ensures TimeToExpiry(a, expiry) >= TimeToExpiry(b, expiry) >= FLOOR > 0.0
  {
    SessionsLeftFall(a, b, expiry);
    Scale(SessionsLeft(a, expiry), SessionsLeft(b, expiry));
  }

  /** Overnight nothing is lost or gained: from a close to the next day's open the sessions left are the
      same, so what a session gives up minute by minute is what the count drops at the next midnight. */
  lemma NightIsContinuous(day: int, evening: int, morning: int, expiry: int)
    requires day < expiry && SESSION_CLOSE <= evening < DAY && 0 <= morning <= SESSION_OPEN
    ensures SessionsLeft(Moment(day, evening), expiry) == SessionsLeft(Moment(day + 1, morning), expiry)
  {
  }

  /** Over one whole weekday exactly one session is used, over a weekend day none. */
  lemma {:induction false} DayUsesItsSession(day: int, days: nat, morning: int, expiry: int)
    requires 0 <= morning <= SESSION_OPEN && day + days <= expiry
    ensures SessionsLeft(Moment(day, morning), expiry) - SessionsLeft(Moment(day + days, morning), expiry)
            == Sessions(day - 1, day + days - 1) as real
    decreases days
  {
    if days > 0 {
      DayUsesItsSession(day, days - 1, morning, expiry);
      SessionsSnoc(day - 1, day + days - 2);
    }
  }

  lemma {:induction false} SessionsSnoc(from: int, last: int)
    requires from <= last
    ensures Sessions(from, last + 1) == Sessions(from, last) + (if Weekday(last + 1) then 1 else 0)
    decreases last - from
  {
    if from < last {
      SessionsSnoc(from + 1, last);
    }
  }

  /** The floor is reached exactly when at most a tenth of a session is left. */
  lemma FloorExactly(now: Moment, expiry: int)
    requires IsTime(now)
    ensures TimeToExpiry(now, expiry) == FLOOR <==> SessionsLeft(now, expiry) <= 0.1
  {
  }

  // ---- the calendar and the clock, in numbers

  /** Day 719165 was Saturday, January 3, 1970; Saturdays and Sundays are no weekdays. */
  lemma WeekendsAre(day: int)
    ensures Weekday(day) <==> (day - 719165) % 7 != 0 && (day - 719165) % 7 != 1
  {
  }

  /** Every week has five sessions. */
  lemma {:induction false} FiveAWeek(day: int, weeks: nat)
    ensures Sessions(day, day + 7 * weeks) == 5 * weeks
    decreases weeks
  {
    if weeks > 0 {
      OneWeek(day, day + 7 * weeks);
      FiveAWeek(day + 7, weeks - 1);
      assert day + 7 * weeks == day + 7 + 7 * (weeks - 1);
    }
  }

  lemma OneWeek(day: int, expiry: int)
    requires day + 7 <= expiry
    ensures Sessions(day, expiry) == 5 + Sessions(day + 7, expiry)
  {
    FiveOfSeven(day);
    NextSession(day, expiry);
    NextSession(day + 1, expiry);
    NextSession(day + 2, expiry);
    NextSession(day + 3, expiry);
    NextSession(day + 4, expiry);
    NextSession(day + 5, expiry);
    NextSession(day + 6, expiry);
  }

  function One(day: int): nat {
    if Weekday(day) then 1 else 0
  }

  lemma FiveOfSeven(day: int)
    ensures One(day + 1) + One(day + 2) + One(day + 3) + One(day + 4) + One(day + 5) + One(day + 6) + One(day + 7) == 5
  {
    OneIs(day, 1);
    OneIs(day, 2);
    OneIs(day, 3);
    OneIs(day, 4);
    OneIs(day, 5);
    OneIs(day, 6);
    OneIs(day, 7);
  }

  lemma OneIs(day: int, k: int)
    requires 1 <= k <= 7
    ensures var at := (day + 6) % 7 + k;
      0 <= (day + 6) % 7 < 7 && One(day + k) == if (if at >= 7 then at - 7 else at) < 5 then 1 else 0
  {
    var q, r := (day + 6) / 7, (day + 6) % 7;
    assert day + k + 6 == 7 * q + (r + k);
  }

  lemma NextSession(day: int, expiry: int)
    requires day < expiry
    ensures Sessions(day, expiry) == One(day + 1) + Sessions(day + 1, expiry)
  {
  }

  /** `at` seconds into a session, which runs 22500 seconds from 9:15, the fraction left is the share of the seconds
      left; before it the whole session is left, and after it or at a weekend nothing. */
  lemma SessionFraction(day: int, at: int, micros: int)
    requires 0 <= micros < 1_000_000
    requires (day - 719165) % 7 != 0 && (day - 719165) % 7 != 1
    ensures 0 <= at < 22500 ==>
              FractionRemaining(Moment(day, (33300 + at) * 1_000_000 + micros)) * 22500.0 == (22500 - at) as real
    ensures at < 0 ==> FractionRemaining(Moment(day, (33300 + at) * 1_000_000 + micros)) == 1.0
    ensures at >= 22500 ==> FractionRemaining(Moment(day, (33300 + at) * 1_000_000 + micros)) == 0.0
  {
    if 0 <= at < 22500 {
      var time := (33300 + at) * 1_000_000 + micros;
      assert time / 1_000_000 == 33300 + at;
      FractionAt(day, time, at);
    }
  }

  lemma FractionAt(day: int, time: int, at: int)
    requires Weekday(day) && 0 <= at < 22500 && time / 1_000_000 == 33300 + at
    ensures FractionRemaining(Moment(day, time)) * 22500.0 == (22500 - at) as real
  {
  }

  /** In years: the sessions left over 252, or a tenth of a session if that is more. */
  lemma YearsAre(now: Moment, expiry: int)
    ensures TimeToExpiry(now, expiry) * 252.0
            == if SessionsLeft(now, expiry) >= 0.1 then SessionsLeft(now, expiry) else 0.1
    ensures now.day > expiry ==> SessionsLeft(now, expiry) == 0.0
    ensures now.day == expiry ==> SessionsLeft(now, expiry) == FractionRemaining(now)
    ensures now.day < expiry ==>
              SessionsLeft(now, expiry) == Sessions(now.day, expiry) as real + FractionRemaining(now)
  {
  }
}
