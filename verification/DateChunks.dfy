/** Splitting a date range into chunks the history API accepts. Dates are proleptic Gregorian ordinals,
    day 1 being 0001-01-01, as Python counts them. */
module DateChunks {

  // ---- the calendar

  datatype Date = Date(year: nat, month: nat, day: nat)

  predicate Leap(y: nat) {
    y % 4 == 0 && (y % 100 != 0 || y % 400 == 0)
  }

  function DaysIn(y: nat, m: nat): nat {
    if m == 2 then (if Leap(y) then 29 else 28)
    else if m == 4 || m == 6 || m == 9 || m == 11 then 30
    else 31
  }

  predicate Real(d: Date) {
    d.year >= 1 && 1 <= d.month <= 12 && 1 <= d.day <= DaysIn(d.year, d.month)
  }

  function DaysBeforeYear(y: nat): nat
    requires y >= 1
  {
    var n := y - 1;
    n * 365 + n / 4 - n / 100 + n / 400
  }

  function DaysBeforeMonth(y: nat, m: nat): nat
    requires 1 <= m <= 12
  {
    if m == 1 then 0 else DaysBeforeMonth(y, m - 1) + DaysIn(y, m - 1)
  }

  /** `date.toordinal`. */
  function Ordinal(d: Date): nat
    requires Real(d)
  {
    DaysBeforeYear(d.year) + DaysBeforeMonth(d.year, d.month) + d.day
  }

  function NextMonth(d: Date): (nat, nat) {
    if d.month == 12 then (d.year + 1, 1) else (d.year, d.month + 1)
  }

  /** The same day one month later, or that month's last day. */
  function MonthLater(d: Date): Date {
    var (y, m) := NextMonth(d);
    Date(y, m, if d.day <= DaysIn(y, m) then d.day else DaysIn(y, m))
  }

  function NextDay(d: Date): Date {
    if d.day < DaysIn(d.year, d.month) then d.(day := d.day + 1)
    else
      var (y, m) := NextMonth(d);
      Date(y, m, 1)
  }

  lemma QuotientSteps(y: nat, k: nat)
    requires y >= 1 && k >= 1
    ensures y / k == (y - 1) / k + if y % k == 0 then 1 else 0
  {
    var q, r := (y - 1) / k, (y - 1) % k;
    assert y == q * k + r + 1;
    if r + 1 == k {
      assert y == (q + 1) * k;
      DivModUnique(y, k, q + 1, 0);
    } else {
      DivModUnique(y, k, q, r + 1);
    }
  }

  lemma DivModUnique(y: nat, k: nat, q: nat, r: nat)
    requires k >= 1 && y == q * k + r && r < k
    ensures y / k == q && y % k == r
  {
    var d := y / k - q;
    assert d * k == r - y % k;
    Multiples(d, k);
  }

  lemma Multiples(d: int, k: nat)
    ensures d > 0 ==> d * k >= k
    ensures d < 0 ==> d * k + k <= 0
  {
  }

  /** A year's days: 4-, 100- and 400-year counts step exactly at leap years. */
  lemma YearLength(y: nat)
    requires y >= 1
    ensures DaysBeforeYear(y + 1) == DaysBeforeYear(y) + 365 + if Leap(y) then 1 else 0
  {
    QuotientSteps(y, 4);
    QuotientSteps(y, 100);
    QuotientSteps(y, 400);
    CenturiesAreFourths(y);
  }

  lemma CenturiesAreFourths(y: nat)
    ensures y % 400 == 0 ==> y % 100 == 0
    ensures y % 100 == 0 ==> y % 4 == 0
  {
    if y % 400 == 0 {
      DivModUnique(y, 100, 4 * (y / 400), 0);
    }
    if y % 100 == 0 {
      DivModUnique(y, 4, 25 * (y / 100), 0);
    }
  }

  lemma DaysBeforeNextMonth(y: nat, m: nat)
    requires 1 <= m <= 12
    ensures m < 12 ==> DaysBeforeMonth(y, m + 1) == DaysBeforeMonth(y, m) + DaysIn(y, m)
    ensures m == 12 ==> DaysBeforeMonth(y, m) + DaysIn(y, m) == 365 + if Leap(y) then 1 else 0
  {
    if m == 12 {
      var f := DaysIn(y, 2);
      assert DaysBeforeMonth(y, 2) == 31;
      assert DaysBeforeMonth(y, 3) == 31 + f;
      assert DaysBeforeMonth(y, 4) == 62 + f;
      assert DaysBeforeMonth(y, 5) == 92 + f;
      assert DaysBeforeMonth(y, 6) == 123 + f;
      assert DaysBeforeMonth(y, 7) == 153 + f;
      assert DaysBeforeMonth(y, 8) == 184 + f;
      assert DaysBeforeMonth(y, 9) == 215 + f;
      assert DaysBeforeMonth(y, 10) == 245 + f;
      assert DaysBeforeMonth(y, 11) == 276 + f;
      assert DaysBeforeMonth(y, 12) == 306 + f;
    }
  }

  /** The first of next month comes right after this month's last day, across the turn of the year too. */
  lemma FirstOfNextMonth(d: Date)
    requires Real(d)
    ensures var (y, m) := NextMonth(d);
      Real(Date(y, m, 1)) && Ordinal(Date(y, m, 1)) == Ordinal(d) - d.day + DaysIn(d.year, d.month) + 1
  {
    DaysBeforeNextMonth(d.year, d.month);
    if d.month == 12 {
      YearLength(d.year);
    }
  }

  lemma NextDayIsNext(d: Date)
    requires Real(d)
    ensures Real(NextDay(d)) && Ordinal(NextDay(d)) == Ordinal(d) + 1
  {
    FirstOfNextMonth(d);
  }

  /** Every ordinal is a date. */
  lemma {:induction false} DateOf(n: nat) returns (d: Date)
    requires n >= 1
    ensures Real(d) && Ordinal(d) == n
  {
    if n == 1 {
      d := Date(1, 1, 1);
    } else {
      var e := DateOf(n - 1);
      NextDayIsNext(e);
      d := NextDay(e);
    }
  }

  /** A month from any date is 28 days or more: exactly the month's length, or less when the next month is
      too short for the day. */
  lemma MonthLaterIsFar(d: Date)
    requires Real(d)
    ensures var (y, m) := NextMonth(d);
      && Real(MonthLater(d))
      && Ordinal(MonthLater(d)) - Ordinal(d)
         == DaysIn(d.year, d.month) - (if d.day <= DaysIn(y, m) then 0 else d.day - DaysIn(y, m))
      && Ordinal(MonthLater(d)) - Ordinal(d) >= 28
  {
    FirstOfNextMonth(d);
  }

  /** The old cap of 29 days overshoots a month exactly from a February, or from January 31, of a common
      year: not from every February, and not only from Februaries. */
  lemma TwentyNineDaysOvershoot(d: Date)
    requires Real(d)
    ensures Ordinal(d) + 29 > Ordinal(MonthLater(d)) <==>
            !Leap(d.year) && (d.month == 2 || (d.month == 1 && d.day == 31))
  {
    MonthLaterIsFar(d);
  }

  // ---- chunks

  datatype Chunk = Chunk(from: int, to: int)

  datatype Unit = Minutes | Hours | Days

  /** `get_date_chunks` in fetch_upstox_historical.py. */
  function HistoricalCap(u: Unit): nat {
    match u
    case Minutes => 27
    case Hours => 89
    case Days => 3650
  }

  /** The copy in fetch_intermarket_data.py. */
  function IntermarketCap(u: Unit): nat {
    match u
    case Minutes => 10
    case Hours => 89
    case Days => 3650
  }

  /** Latest first, each chunk ends the day before the one listed before it starts; together they are
      [from, to] exactly, and each spans at most `cap` days beyond its first. */
  predicate Partitions(chunks: seq<Chunk>, from: int, to: int, cap: nat) {
    && (chunks == [] <==> from > to)
    && (chunks != [] ==> chunks[0].to == to && chunks[|chunks| - 1].from == from)
    && (forall i :: 0 <= i < |chunks| ==> chunks[i].from <= chunks[i].to <= chunks[i].from + cap)
    && (forall i :: 0 < i < |chunks| ==> chunks[i].to == chunks[i - 1].from - 1)
    // Only the oldest chunk may be shorter than the cap.
    && (forall i :: 0 <= i < |chunks| - 1 ==> chunks[i].to == chunks[i].from + cap)
  }

  /** The chunks taken so far leave the days up to `upTo`. */
  predicate ChunkedDownTo(chunks: seq<Chunk>, from: int, to: int, cap: nat, upTo: int) {
    && (chunks == [] ==> upTo == to)
    && (chunks != [] ==> from <= to && chunks[0].to == to && chunks[|chunks| - 1].from == upTo + 1 >= from)
    && (forall i :: 0 <= i < |chunks| ==> chunks[i].from <= chunks[i].to <= chunks[i].from + cap)
    && (forall i :: 0 < i < |chunks| ==> chunks[i].to == chunks[i - 1].from - 1)
    && (forall i :: 0 <= i < |chunks| ==> i < |chunks| - 1 || upTo >= from ==> chunks[i].to == chunks[i].from + cap)
  }

  lemma OneMoreChunk(chunks: seq<Chunk>, from: int, to: int, cap: nat, upTo: int, currentFrom: int)
    requires ChunkedDownTo(chunks, from, to, cap, upTo) && upTo >= from
    requires currentFrom == if from > upTo - cap then from else upTo - cap
    ensures ChunkedDownTo(chunks + [Chunk(currentFrom, upTo)], from, to, cap, currentFrom - 1)
  {
    var more := chunks + [Chunk(currentFrom, upTo)];
    assert forall i :: 0 <= i < |chunks| ==> more[i] == chunks[i];
  }

  /** The loop of `get_date_chunks`. */
  method GetDateChunks(from: int, to: int, cap: nat) returns (chunks: seq<Chunk>)
    ensures Partitions(chunks, from, to, cap)
  {
    chunks := [];
    var currentTo := to;
    while currentTo >= from
      invariant ChunkedDownTo(chunks, from, to, cap, currentTo)
      decreases currentTo - from + 1
    {
      var currentFrom := if from > currentTo - cap then from else currentTo - cap;
      OneMoreChunk(chunks, from, to, cap, currentTo, currentFrom);
      chunks := chunks + [Chunk(currentFrom, currentTo)];
      currentTo := currentFrom - 1;
    }
  }

  predicate Covers(c: Chunk, day: int) {
    c.from <= day <= c.to
  }

  lemma {:induction false} ChunksDescend(chunks: seq<Chunk>, from: int, to: int, cap: nat, i: nat, j: nat)
    requires Partitions(chunks, from, to, cap) && i < j < |chunks|
    ensures chunks[j].to < chunks[i].from
    decreases j - i
  {
    if j > i + 1 {
      ChunksDescend(chunks, from, to, cap, i, j - 1);
    }
  }

  lemma {:induction false} DayFromChunkOn(chunks: seq<Chunk>, from: int, to: int, cap: nat, day: int, i: nat)
    returns (k: nat)
    requires Partitions(chunks, from, to, cap) && i < |chunks| && from <= day <= chunks[i].to
    ensures k < |chunks| && Covers(chunks[k], day)
    decreases |chunks| - i
  {
    if day >= chunks[i].from {
      k := i;
    } else {
      k := DayFromChunkOn(chunks, from, to, cap, day, i + 1);
    }
  }

  /** Every day of the range is in exactly one chunk, and no other day is in any. */
  lemma EachDayOnce(chunks: seq<Chunk>, from: int, to: int, cap: nat, day: int)
    requires Partitions(chunks, from, to, cap)
    ensures from <= day <= to <==> exists i :: 0 <= i < |chunks| && Covers(chunks[i], day)
    ensures forall i, j :: 0 <= i < j < |chunks| ==> !(Covers(chunks[i], day) && Covers(chunks[j], day))
  {
    forall i, j | 0 <= i < j < |chunks|
      ensures chunks[j].to < chunks[i].from
    {
      ChunksDescend(chunks, from, to, cap, i, j);
    }
    if from <= day <= to {
      var k := DayFromChunkOn(chunks, from, to, cap, day, 0);
    }
  }

  /** With the cap of either copy every chunk of minutes lies within one calendar month of its start,
      whatever the date. */
  lemma MinuteChunksFitAMonth(chunks: seq<Chunk>, from: int, to: int, cap: nat, i: nat, start: Date)
    requires cap == HistoricalCap(Minutes) || cap == IntermarketCap(Minutes)
    requires Partitions(chunks, from, to, cap) && i < |chunks|
    requires Real(start) && Ordinal(start) == chunks[i].from
    ensures chunks[i].to <= Ordinal(MonthLater(start))
  {
    MonthLaterIsFar(start);
  }

  /** And 28 is the largest cap for which that holds: from the first of a common February 29 days are
      too many. */
  lemma LargestSafeCap(cap: nat)
    ensures (forall d: Date :: Real(d) ==> Ordinal(d) + cap <= Ordinal(MonthLater(d))) <==> cap <= 28
  {
    var feb := Date(2023, 2, 1);
    MonthLaterIsFar(feb);
    forall d: Date | Real(d)
      ensures Ordinal(d) + 28 <= Ordinal(MonthLater(d))
    {
      MonthLaterIsFar(d);
    }
  }

  /** The days of either copy's caps, by unit. */
  lemma CapsAre(u: Unit)
    ensures HistoricalCap(u) == (if u == Minutes then 27 else if u == Hours then 89 else 3650)
    ensures IntermarketCap(u) == (if u == Minutes then 10 else if u == Hours then 89 else 3650)
  {
  }

  /** The calendar: thirty days have April, June, September and November, and day 1 is January 1 of year 1. With
      `NextDayIsNext` that fixes every day's number. */
  lemma CalendarIs(y: nat, m: nat)
    requires 1 <= m <= 12
    ensures DaysIn(y, m) == if m == 4 || m == 6 || m == 9 || m == 11 then 30
                            else if m != 2 then 31
                            else if y % 400 == 0 || (y % 4 == 0 && y % 100 != 0) then 29
                            else 28
    ensures Ordinal(Date(1, 1, 1)) == 1
  {
  }
}
