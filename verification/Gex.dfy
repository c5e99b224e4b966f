/** Dealer gamma exposure of an option chain, and the strike where it changes sign. */
module Gex {
  import opened InsertionDict
  import opened Orders

  const PCT_MOVE := 0.01
  const CRORE := 10000000.0
  const MIN_PRICE_MOVE_FRAC := 0.005
  const NEUTRAL_BAND_CR := 100.0
  const THETA_DRIFT_SHARE := 0.8

  /** A row's option type is text; anything but the two is neither. */
  datatype OptionType = CE | PE | Other(text: string)

  /** Sums are kept for calls and for everything else. */
  datatype Leg = Calls | Rest

  function LegOf(kind: OptionType): Leg {
    if kind.CE? then Calls else Rest
  }

  datatype Row = Row(strike: real, kind: OptionType, gamma: Option<real>, oi: int, lot: Option<int>,
                     ltp: Option<real>, close: Option<real>, oiChange: int)

  datatype Mode = Assumed | Inferred | UnknownMode

  datatype DealerSide = Short | Long

  /** One entry of `gamma_distribution`. */
  datatype Entry = Entry(strike: real, kind: OptionType, exposure: real)

  type ByStrike = Dict<real, real>

  /** `side_by_strike`: the dealer side last inferred for each contract, None when ambiguous. */
  type Sides = map<(real, OptionType), Option<DealerSide>>

  datatype Regime = Neutral | Positive | Negative

  datatype Result = Result(netTotal: real, netCe: real, netPe: real, gamma: ByStrike, netCr: real, cr: ByStrike,
                           ceMass: ByStrike, peMass: ByStrike, sides: Sides, distribution: seq<Entry>,
                           zero: Option<real>, regime: Regime, coverage: Option<real>, reliable: Option<bool>)

  // ---- one row

  function Lot(row: Row, lotSize: Option<int>): int {
    if lotSize.Some? && lotSize.value != 0 then lotSize.value
    else if row.lot.Some? && row.lot.value != 0 then row.lot.value
    else 75
  }

  function Mass(row: Row, lotSize: Option<int>): real
    requires row.gamma.Some?
  {
    row.gamma.value * row.oi as real * Lot(row, lotSize) as real
  }

  /** `_infer_dealer_side`. */
  function DealerSideOf(row: Row): Option<DealerSide> {
    if row.close.None? || row.ltp.None? || row.close.value <= 0.0 || row.oiChange == 0 then None
    else
      var dp := (row.ltp.value - row.close.value) / row.close.value;
      if -MIN_PRICE_MOVE_FRAC < dp < MIN_PRICE_MOVE_FRAC then None
      else if (row.oiChange > 0) == (dp > 0.0) then Some(Short)
      else Some(Long)
  }

  predicate Counted(row: Row) {
    row.gamma.Some? && row.gamma.value != 0.0
  }

  predicate Placed(row: Row, mode: Mode) {
    Counted(row) && (mode.Inferred? ==> DealerSideOf(row).Some?)
  }

  function Exposure(row: Row, lotSize: Option<int>, mode: Mode): real
    requires Placed(row, mode)
  {
    var short := if mode.Inferred? then DealerSideOf(row) == Some(Short) else row.kind.PE?;
    if short then -Mass(row, lotSize) else Mass(row, lotSize)
  }

  /** What the loop takes from one row. */
  datatype Reading = Reading(strike: real, kind: OptionType, counted: bool, mass: real, placed: bool, exposure: real,
                             down: bool, side: Option<DealerSide>)

  function Read(row: Row, lotSize: Option<int>, mode: Mode): Reading {
    var placed := Placed(row, mode);
    Reading(row.strike, row.kind,
            Counted(row), if Counted(row) then Mass(row, lotSize) else 0.0,
            placed, if placed then Exposure(row, lotSize, mode) else 0.0,
            mode.Inferred? && placed && row.ltp.value < row.close.value,
            DealerSideOf(row))
  }

  function Readings(chain: seq<Row>, lotSize: Option<int>, mode: Mode): seq<Reading> {
    seq(|chain|, i requires 0 <= i < |chain| => Read(chain[i], lotSize, mode))
  }

  // ---- the chain's distribution, and sums over it

  function EntryOf(x: Reading): Entry {
    Entry(x.strike, x.kind, x.exposure)
  }

  /** The distribution of the first `n` rows. */
  function Distribution(rs: seq<Reading>, n: nat): seq<Entry>
    requires n <= |rs|
  {
    if n == 0 then []
    else if rs[n - 1].placed then Distribution(rs, n - 1) + [EntryOf(rs[n - 1])]
    else Distribution(rs, n - 1)
  }

  function Total(d: seq<Entry>): real {
    if d == [] then 0.0 else Total(d[..|d| - 1]) + d[|d| - 1].exposure
  }

  function TotalOf(d: seq<Entry>, leg: Leg): real {
    if d == [] then 0.0
    else TotalOf(d[..|d| - 1], leg) + if LegOf(d[|d| - 1].kind) == leg then d[|d| - 1].exposure else 0.0
  }

  function TotalAt(d: seq<Entry>, strike: real): real {
    if d == [] then 0.0
    else TotalAt(d[..|d| - 1], strike) + if d[|d| - 1].strike == strike then d[|d| - 1].exposure else 0.0
  }

  /** Unsigned mass of one leg at a strike, over the counted ones of the first `n` rows. */
  function MassAt(rs: seq<Reading>, n: nat, leg: Leg, strike: real): real
    requires n <= |rs|
  {
    if n == 0 then 0.0
    else
      var x := rs[n - 1];
      MassAt(rs, n - 1, leg, strike)
      + if x.counted && LegOf(x.kind) == leg && x.strike == strike then x.mass else 0.0
  }

  /** The part of it that is of neither option type. */
  function OddMassAt(rs: seq<Reading>, n: nat, strike: real): real
    requires n <= |rs|
  {
    if n == 0 then 0.0
    else
      var x := rs[n - 1];
      OddMassAt(rs, n - 1, strike) + if x.counted && x.kind.Other? && x.strike == strike then x.mass else 0.0
  }

  // The same sums, taken row by row.

  function SumTo(rs: seq<Reading>, n: nat): real
    requires n <= |rs|
  {
    if n == 0 then 0.0 else SumTo(rs, n - 1) + rs[n - 1].exposure
  }

  function NetOf(rs: seq<Reading>, n: nat, leg: Leg): real
    requires n <= |rs|
  {
    if n == 0 then 0.0 else NetOf(rs, n - 1, leg) + if LegOf(rs[n - 1].kind) == leg then rs[n - 1].exposure else 0.0
  }

  function SumAt(rs: seq<Reading>, n: nat, strike: real): real
    requires n <= |rs|
  {
    if n == 0 then 0.0 else SumAt(rs, n - 1, strike) + if rs[n - 1].strike == strike then rs[n - 1].exposure else 0.0
  }

  /** Only placed rows are down, only counted ones are, and only placed ones have exposure. */
  predicate Nested(rs: seq<Reading>) {
    forall i :: 0 <= i < |rs| ==>
      && (rs[i].down ==> rs[i].placed) && (rs[i].placed ==> rs[i].counted)
      && (!rs[i].placed ==> rs[i].exposure == 0.0)
  }

  lemma {:induction false} KindsAreAll(rs: seq<Reading>, n: nat)
    requires n <= |rs|
    ensures NetOf(rs, n, Calls) + NetOf(rs, n, Rest) == SumTo(rs, n)
  {
    if n > 0 {
      KindsAreAll(rs, n - 1);
    }
  }

  lemma {:induction false} DistributionSums(rs: seq<Reading>, n: nat, leg: Leg, strike: real)
    returns (d: seq<Entry>)
    requires n <= |rs| && Nested(rs)
    ensures d == Distribution(rs, n)
    ensures Total(d) == SumTo(rs, n) && TotalOf(d, leg) == NetOf(rs, n, leg)
    ensures TotalAt(d, strike) == SumAt(rs, n, strike)
  {
    if n == 0 {
      d := [];
    } else {
      var x := rs[n - 1];
      var before := DistributionSums(rs, n - 1, leg, strike);
      d := before;
      if x.placed {
        d := before + [EntryOf(x)];
        TotalsAppend(before, EntryOf(x), leg, strike);
      }
    }
  }

  lemma TotalsAppend(d: seq<Entry>, e: Entry, leg: Leg, strike: real)
    ensures Total(d + [e]) == Total(d) + e.exposure
    ensures TotalOf(d + [e], leg) == TotalOf(d, leg) + if LegOf(e.kind) == leg then e.exposure else 0.0
    ensures TotalAt(d + [e], strike) == TotalAt(d, strike) + if e.strike == strike then e.exposure else 0.0
  {
    assert (d + [e])[..|d|] == d;
  }

  // ---- sums over a dictionary

  function Get(d: ByStrike, k: real): real {
    if k in d.vals then d.vals[k] else 0.0
  }

  function SumOver(keys: seq<real>, vals: map<real, real>): real
    requires forall i :: 0 <= i < |keys| ==> keys[i] in vals
  {
    if keys == [] then 0.0
    else
      vals[keys[0]] + SumOver(keys[1..], vals)
  }

  ghost function SumVals(d: ByStrike): real {
    KeysHaveVals(d);
    SumOver(d.keys, d.vals)
  }

  lemma KeysHaveVals(d: ByStrike)
    ensures forall k :: k in d.keys <==> k in d.vals
    ensures forall i :: 0 <= i < |d.keys| ==> d.keys[i] in d.vals
  {
    forall k: real
      ensures k in d.keys <==> k in d.vals
    {
      KeysAndValues(d, k);
    }
  }

  lemma {:induction false} SumUnaffected(keys: seq<real>, vals: map<real, real>, k: real, v: real)
    requires (forall i :: 0 <= i < |keys| ==> keys[i] in vals) && k !in keys
    ensures SumOver(keys, vals[k := v]) == SumOver(keys, vals)
  {
    if keys != [] {
      SumUnaffected(keys[1..], vals, k, v);
    }
  }

  lemma {:induction false} SumReplaced(keys: seq<real>, vals: map<real, real>, k: real, v: real)
    requires (forall i :: 0 <= i < |keys| ==> keys[i] in vals) && NoDup(keys) && k in keys
    ensures SumOver(keys, vals[k := v]) == SumOver(keys, vals) - vals[k] + v
  {
    if keys[0] == k {
      SumUnaffected(keys[1..], vals, k, v);
    } else {
      SumReplaced(keys[1..], vals, k, v);
    }
  }

  lemma {:induction false} SumExtended(keys: seq<real>, vals: map<real, real>, k: real)
    requires (forall i :: 0 <= i < |keys| ==> keys[i] in vals) && k in vals
    ensures SumOver(keys + [k], vals) == SumOver(keys, vals) + vals[k]
  {
    if keys == [] {
      assert [] + [k] == [k];
    } else {
      assert (keys + [k])[1..] == keys[1..] + [k];
      SumExtended(keys[1..], vals, k);
    }
  }

  /** `d[k] = d.get(k, 0.0) + x`. */
  function Accumulate(d: ByStrike, k: real, x: real): ByStrike {
    Put(d, k, Get(d, k) + x)
  }

  lemma Accumulates(d: ByStrike, k: real, x: real)
    ensures SumVals(Accumulate(d, k, x)) == SumVals(d) + x
    ensures forall j :: Get(Accumulate(d, k, x), j) == Get(d, j) + if j == k then x else 0.0
  {
    KeysHaveVals(d);
    var v := Get(d, k) + x;
    if k in d.vals {
      SumReplaced(d.keys, d.vals, k, v);
    } else {
      SumUnaffected(d.keys, d.vals, k, v);
      SumExtended(d.keys, d.vals[k := v], k);
    }
  }

  // ---- the strike where cumulative gamma crosses zero

  predicate Increasing(s: seq<real>) {
    forall i, j :: 0 <= i < j < |s| ==> s[i] < s[j]
  }

  function Inserted(s: seq<real>, x: real): seq<real> {
    if s == [] then [x]
    else if x < s[0] then [x] + s
    else [s[0]] + Inserted(s[1..], x)
  }

  /** `sorted(d.keys())`. */
  function Sorted(s: seq<real>): seq<real> {
    if s == [] then [] else Inserted(Sorted(s[1..]), s[0])
  }

  lemma {:induction false} InsertedHolds(s: seq<real>, x: real)
    requires Increasing(s) && x !in s
    ensures Increasing(Inserted(s, x))
    ensures forall y :: y in Inserted(s, x) <==> y == x || y in s
  {
    if s != [] && x >= s[0] {
      var rest := Inserted(s[1..], x);
      assert forall y :: y in s <==> y == s[0] || y in s[1..] by {
        assert s == [s[0]] + s[1..];
      }
      InsertedHolds(s[1..], x);
      forall i | 0 <= i < |rest|
        ensures s[0] < rest[i]
      {
        assert rest[i] in rest;
        assert s[0] in s;
        if rest[i] != x {
          var j :| 0 <= j < |s[1..]| && s[1..][j] == rest[i];
          assert s[j + 1] == rest[i];
        }
      }
    }
  }

  lemma {:induction false} SortedHolds(s: seq<real>)
    requires NoDup(s)
    ensures Increasing(Sorted(s))
    ensures forall y :: y in Sorted(s) <==> y in s
  {
    if s != [] {
      SortedHolds(s[1..]);
      InsertedHolds(Sorted(s[1..]), s[0]);
      assert s == [s[0]] + s[1..];
    }
  }

  /** Gamma of the `n` lowest strikes together. */
  function Cumulative(strikes: seq<real>, g: ByStrike, n: nat): real
    requires n <= |strikes|
  {
    if n == 0 then 0.0 else Cumulative(strikes, g, n - 1) + Get(g, strikes[n - 1])
  }

  predicate Crosses(previous: real, current: real) {
    (previous < 0.0 && current >= 0.0) || (previous >= 0.0 && current < 0.0)
  }

  /** The cumulative gamma crosses zero between strike `i - 1` and strike `i`. */
  predicate CrossesAt(strikes: seq<real>, g: ByStrike, i: nat)
    requires i < |strikes|
  {
    i > 0 && Crosses(Cumulative(strikes, g, i), Cumulative(strikes, g, i + 1))
  }

  function Interpolated(low: real, high: real, previous: real, current: real): real
    requires current != previous
  {
    low + (0.0 - previous) / (current - previous) * (high - low)
  }

  ghost predicate NoCrossing(strikes: seq<real>, g: ByStrike) {
    forall i: nat :: i < |strikes| ==> !CrossesAt(strikes, g, i)
  }

  ghost predicate FirstCrossing(strikes: seq<real>, g: ByStrike, i: nat) {
    0 < i < |strikes| && CrossesAt(strikes, g, i) && forall j: nat :: j < i ==> !CrossesAt(strikes, g, j)
  }

  /** The level of the first crossing between adjacent strikes; none exactly when there is none. */
  ghost predicate IsZeroLevel(g: ByStrike, level: Option<real>) {
    var strikes := Sorted(g.keys);
    match level
    case None => NoCrossing(strikes, g)
    case Some(z) =>
      exists i: nat ::
        && FirstCrossing(strikes, g, i)
        && z == Interpolated(strikes[i - 1], strikes[i], Cumulative(strikes, g, i), Cumulative(strikes, g, i + 1))
  }

  /** `_find_zero_gamma_level`. */
  method FindZeroGammaLevel(g: ByStrike) returns (level: Option<real>)
    ensures IsZeroLevel(g, level)
  {
    var strikes := Sorted(g.keys);
    var cumulative := 0.0;
    var previousStrike, previous := 0.0, 0.0;
    var i := 0;
    while i < |strikes|
      invariant 0 <= i <= |strikes|
      invariant cumulative == Cumulative(strikes, g, i)
      invariant i > 0 ==> previousStrike == strikes[i - 1] && previous == cumulative
      invariant forall j: nat :: j < i ==> !CrossesAt(strikes, g, j)
    {
      cumulative := cumulative + Get(g, strikes[i]);
      if i > 0 {
        if Crosses(previous, cumulative) {
          assert FirstCrossing(strikes, g, i);
          return Some(Interpolated(previousStrike, strikes[i], previous, cumulative));
        }
      }
      previousStrike := strikes[i];
      previous := cumulative;
      i := i + 1;
    }
    return None;
  }

  lemma ShareBetween(a: real, b: real)
    requires Crosses(a, b)
    ensures b != a && 0.0 <= (0.0 - a) / (b - a) <= 1.0
    ensures (0.0 - a) / (b - a) * (b - a) == 0.0 - a
  {
  }

  lemma Between(low: real, high: real, share: real)
    requires low < high && 0.0 <= share <= 1.0
    ensures low <= low + share * (high - low) <= high
  {
  }

  predicate OnZeroOfLine(low: real, high: real, previous: real, current: real, z: real) {
    low <= z <= high && previous * (high - low) + (z - low) * (current - previous) == 0.0
  }

  /** The level lies between the two strikes, where the straight line through their cumulative gammas is
      zero. */
  lemma LevelIsZeroOfTheLine(low: real, high: real, previous: real, current: real)
    requires low < high && Crosses(previous, current)
    ensures OnZeroOfLine(low, high, previous, current, Interpolated(low, high, previous, current))
  {
    var width, rise := high - low, current - previous;
    var share := (0.0 - previous) / rise;
    var z := low + share * width;
    ShareBetween(previous, current);
    Between(low, high, share);
    Rearranged(share, width, rise);
    assert (z - low) * rise == (share * width) * rise == (share * rise) * width == (0.0 - previous) * width;
    assert z == Interpolated(low, high, previous, current);
    Cancels(previous, width);
  }

  lemma Cancels(x: real, y: real)
    ensures x * y + (0.0 - x) * y == 0.0
  {
  }

  lemma Rearranged(share: real, width: real, rise: real)
    ensures (share * width) * rise == (share * rise) * width
  {
  }

  /** No crossing means the cumulative gamma stays on one side of zero at every strike. */
  lemma {:induction false} NoCrossingMeansOneSide(strikes: seq<real>, g: ByStrike, n: nat)
    requires n < |strikes| && NoCrossing(strikes, g)
    ensures Cumulative(strikes, g, n + 1) < 0.0 <==> Cumulative(strikes, g, 1) < 0.0
  {
    if n > 0 {
      NoCrossingMeansOneSide(strikes, g, n - 1);
      assert !CrossesAt(strikes, g, n);
    }
  }

  /** What a level tells: it lies between two adjacent strikes, the first pair between which the cumulative
      gamma crosses zero, where the straight line through their cumulative gammas is zero. */
  lemma LevelMeans(g: ByStrike, z: real) returns (i: nat)
    requires IsZeroLevel(g, Some(z))
    ensures var s := Sorted(g.keys);
      && Increasing(s) && FirstCrossing(s, g, i)
      && OnZeroOfLine(s[i - 1], s[i], Cumulative(s, g, i), Cumulative(s, g, i + 1), z)
  {
    var s := Sorted(g.keys);
    SortedHolds(g.keys);
    i :| && FirstCrossing(s, g, i)
         && z == Interpolated(s[i - 1], s[i], Cumulative(s, g, i), Cumulative(s, g, i + 1));
    LevelIsZeroOfTheLine(s[i - 1], s[i], Cumulative(s, g, i), Cumulative(s, g, i + 1));
  }

  /** And what its absence tells: the cumulative gamma is on one side of zero at every strike. */
  lemma NoLevelMeans(g: ByStrike, n: nat)
    requires IsZeroLevel(g, None) && n < |g.keys|
    ensures var s := Sorted(g.keys);
      |s| == |g.keys| && (Cumulative(s, g, n + 1) < 0.0 <==> Cumulative(s, g, 1) < 0.0)
  {
    SortedLength(g.keys);
    NoCrossingMeansOneSide(Sorted(g.keys), g, n);
  }

  lemma SortedLength(s: seq<real>)
    ensures |Sorted(s)| == |s|
  {
    if s != [] {
      InsertedLength(Sorted(s[1..]), s[0]);
    }
  }

  lemma InsertedLength(s: seq<real>, x: real)
    ensures |Inserted(s, x)| == |s| + 1
  {
  }

  // ---- calculate_gex

  function CrScale(ltp: real): real {
    ltp * ltp * PCT_MOVE / CRORE
  }

  function Scaled(x: real, scale: real): real {
    x * scale
  }

  lemma ScaledSum(a: real, b: real, scale: real)
    ensures Scaled(a + b, scale) == Scaled(a, scale) + Scaled(b, scale)
    ensures Scaled(0.0, scale) == 0.0
  {
  }

  /** Every total the chain is summed into agrees with its distribution. */
  ghost predicate Conserved(d: seq<Entry>, scale: real, gamma: ByStrike, cr: ByStrike, netCe: real, netPe: real) {
    && netCe == TotalOf(d, Calls) && netPe == TotalOf(d, Rest) && netCe + netPe == Total(d)
    && SumVals(gamma) == Total(d)
    && SumVals(cr) == Scaled(Total(d), scale)
    && (forall k :: Get(gamma, k) == TotalAt(d, k))
    && (forall k :: Get(cr, k) == Scaled(TotalAt(d, k), scale))
  }

  /** A dictionary sums the first `n` rows by strike. */
  ghost predicate Summed(rs: seq<Reading>, n: nat, g: ByStrike)
    requires n <= |rs|
  {
    SumVals(g) == SumTo(rs, n) && forall k :: Get(g, k) == SumAt(rs, n, k)
  }

  lemma SummedStep(rs: seq<Reading>, n: nat, g: ByStrike)
    requires n < |rs| && Summed(rs, n, g) && Nested(rs)
    ensures Summed(rs, n + 1, if rs[n].placed then Accumulate(g, rs[n].strike, rs[n].exposure) else g)
  {
    Accumulates(g, rs[n].strike, rs[n].exposure);
  }

  function ScaledAll(rs: seq<Reading>, scale: real): seq<Reading> {
    seq(|rs|, i requires 0 <= i < |rs| => rs[i].(exposure := Scaled(rs[i].exposure, scale)))
  }

  /** And so for its crores, the exposures scaled. */
  ghost predicate SummedScaled(rs: seq<Reading>, n: nat, scale: real, g: ByStrike)
    requires n <= |rs|
  {
    Summed(ScaledAll(rs, scale), n, g)
  }

  lemma SummedScaledStep(rs: seq<Reading>, n: nat, scale: real, g: ByStrike)
    requires n < |rs| && SummedScaled(rs, n, scale, g) && Nested(rs)
    ensures SummedScaled(rs, n + 1, scale,
                         if rs[n].placed then Accumulate(g, rs[n].strike, Scaled(rs[n].exposure, scale)) else g)
  {
    ScaledIsNested(rs, scale);
    SummedStep(ScaledAll(rs, scale), n, g);
  }

  lemma ZerosAreSummed(rs: seq<Reading>, scale: real)
    ensures Summed(rs, 0, Empty()) && SummedScaled(rs, 0, scale, Empty())
  {
  }

  lemma ScaledIsNested(rs: seq<Reading>, scale: real)
    requires Nested(rs)
    ensures Nested(ScaledAll(rs, scale))
  {
  }

  lemma {:induction false} ScaledSums(rs: seq<Reading>, n: nat, scale: real, strike: real)
    requires n <= |rs|
    ensures SumTo(ScaledAll(rs, scale), n) == Scaled(SumTo(rs, n), scale)
    ensures SumAt(ScaledAll(rs, scale), n, strike) == Scaled(SumAt(rs, n, strike), scale)
  {
    ScaledSum(0.0, 0.0, scale);
    if n > 0 {
      ScaledSums(rs, n - 1, scale, strike);
      ScaledSum(SumTo(rs, n - 1), rs[n - 1].exposure, scale);
      ScaledSum(SumAt(rs, n - 1, strike), rs[n - 1].exposure, scale);
    }
  }

  lemma SumsAreConserved(rs: seq<Reading>, scale: real, gamma: ByStrike, cr: ByStrike)
    requires Nested(rs) && Summed(rs, |rs|, gamma) && SummedScaled(rs, |rs|, scale, cr)
    ensures Conserved(Distribution(rs, |rs|), scale, gamma, cr, NetOf(rs, |rs|, Calls), NetOf(rs, |rs|, Rest))
  {
    KindsAreAll(rs, |rs|);
    var d := DistributionSums(rs, |rs|, Calls, 0.0);
    d := DistributionSums(rs, |rs|, Rest, 0.0);
    ScaledSums(rs, |rs|, scale, 0.0);
    forall k: real
      ensures TotalAt(d, k) == SumAt(rs, |rs|, k) && Get(cr, k) == Scaled(TotalAt(d, k), scale)
    {
      var same := DistributionSums(rs, |rs|, Calls, k);
      ScaledSums(rs, |rs|, scale, k);
    }
  }

  /** A dictionary holds one leg's mass at every strike. */
  ghost predicate LegMass(rs: seq<Reading>, n: nat, leg: Leg, g: ByStrike)
    requires n <= |rs|
  {
    forall k :: Get(g, k) == MassAt(rs, n, leg, k)
  }

  ghost predicate Massed(rs: seq<Reading>, n: nat, ceMass: ByStrike, peMass: ByStrike)
    requires n <= |rs|
  {
    LegMass(rs, n, Calls, ceMass) && LegMass(rs, n, Rest, peMass)
  }

  lemma LegStep(rs: seq<Reading>, n: nat, leg: Leg, g: ByStrike)
    requires n < |rs| && LegMass(rs, n, leg, g)
    ensures LegMass(rs, n + 1, leg,
                    if rs[n].counted && LegOf(rs[n].kind) == leg then Accumulate(g, rs[n].strike, rs[n].mass) else g)
  {
    Accumulates(g, rs[n].strike, rs[n].mass);
  }

  /** In assumed mode every counted row is exposed, calls by their mass and puts by its negative. */
  predicate Signed(rs: seq<Reading>) {
    forall i :: 0 <= i < |rs| ==>
      rs[i].exposure == if !rs[i].counted then 0.0 else if rs[i].kind.PE? then -rs[i].mass else rs[i].mass
  }

  lemma AssumedIsSigned(chain: seq<Row>, lotSize: Option<int>)
    ensures Signed(Readings(chain, lotSize, Assumed))
  {
  }

  /** In assumed mode a strike's exposure is its call mass less its other mass, except that rows of neither
      type, kept among the puts, count as calls do. */
  lemma {:induction false} AssumedIsDifference(rs: seq<Reading>, n: nat, k: real)
    requires n <= |rs| && Signed(rs)
    ensures SumAt(rs, n, k) == MassAt(rs, n, Calls, k) - MassAt(rs, n, Rest, k) + 2.0 * OddMassAt(rs, n, k)
  {
    if n > 0 {
      AssumedIsDifference(rs, n - 1, k);
    }
  }

  function RegimeOf(mode: Mode, netCr: real, net: real): Regime {
    if mode.Inferred? && -NEUTRAL_BAND_CR < netCr < NEUTRAL_BAND_CR then Neutral
    else if net > 0.0 then Positive
    else if net < 0.0 then Negative
    else Neutral
  }

  function CountedRows(rs: seq<Reading>, n: nat): nat
    requires n <= |rs|
  {
    if n == 0 then 0 else CountedRows(rs, n - 1) + if rs[n - 1].counted then 1 else 0
  }

  /** Classified rows whose price is down. */
  function PriceDownRows(rs: seq<Reading>, n: nat): nat
    requires n <= |rs|
  {
    if n == 0 then 0 else PriceDownRows(rs, n - 1) + if rs[n - 1].down then 1 else 0
  }

  function Coverage(mode: Mode, classified: nat, rows: nat): Option<real> {
    if !mode.Inferred? then None
    else if rows == 0 then Some(0.0)
    else Some(classified as real / rows as real)
  }

  lemma AssumedGamma(rs: seq<Reading>, gamma: ByStrike, ceMass: ByStrike, peMass: ByStrike)
    requires Signed(rs) && Massed(rs, |rs|, ceMass, peMass)
    requires forall k :: Get(gamma, k) == SumAt(rs, |rs|, k)
    ensures forall k :: Get(gamma, k) == Get(ceMass, k) - Get(peMass, k) <==> OddMassAt(rs, |rs|, k) == 0.0
  {
    forall k: real
      ensures Get(gamma, k) == Get(ceMass, k) - Get(peMass, k) <==> OddMassAt(rs, |rs|, k) == 0.0
    {
      AssumedIsDifference(rs, |rs|, k);
    }
  }

  lemma {:induction false} NoOddRows(rs: seq<Reading>, n: nat, k: real)
    requires n <= |rs| && forall i :: 0 <= i < |rs| ==> !rs[i].kind.Other?
    ensures OddMassAt(rs, n, k) == 0.0
  {
    if n > 0 {
      NoOddRows(rs, n - 1, k);
    }
  }

  // ---- the inferred sides

  function SidesOf(rs: seq<Reading>, n: nat): Sides
    requires n <= |rs|
  {
    if n == 0 then map[]
    else if rs[n - 1].counted then SidesOf(rs, n - 1)[(rs[n - 1].strike, rs[n - 1].kind) := rs[n - 1].side]
    else SidesOf(rs, n - 1)
  }

  predicate CountedAt(rs: seq<Reading>, key: (real, OptionType), i: nat) {
    i < |rs| && rs[i].counted && (rs[i].strike, rs[i].kind) == key
  }

  lemma {:induction false} CountedIsSided(rs: seq<Reading>, n: nat, key: (real, OptionType), i: nat)
    requires i < n <= |rs| && CountedAt(rs, key, i)
    ensures key in SidesOf(rs, n)
  {
    if i < n - 1 {
      CountedIsSided(rs, n - 1, key, i);
    }
  }

  lemma {:induction false} LastCounted(rs: seq<Reading>, n: nat, key: (real, OptionType)) returns (i: nat)
    requires n <= |rs| && key in SidesOf(rs, n)
    ensures i < n && CountedAt(rs, key, i) && SidesOf(rs, n)[key] == rs[i].side
    ensures forall j: nat :: i < j < n ==> !CountedAt(rs, key, j)
  {
    if CountedAt(rs, key, n - 1) {
      i := n - 1;
    } else {
      i := LastCounted(rs, n - 1, key);
    }
  }

  /** A contract has a side exactly when one of its rows is counted, and it is that of the last such row. */
  lemma SidesAreLast(rs: seq<Reading>, key: (real, OptionType))
    ensures key in SidesOf(rs, |rs|) <==> exists i: nat :: CountedAt(rs, key, i)
    ensures key in SidesOf(rs, |rs|) ==>
              exists i: nat ::
                && CountedAt(rs, key, i) && SidesOf(rs, |rs|)[key] == rs[i].side
                && forall j: nat :: CountedAt(rs, key, j) ==> j <= i
  {
    if key in SidesOf(rs, |rs|) {
      var i := LastCounted(rs, |rs|, key);
    }
    if i: nat :| CountedAt(rs, key, i) {
      CountedIsSided(rs, |rs|, key, i);
    }
  }

  function Reliability(mode: Mode, down: nat, classified: nat): Option<bool> {
    if mode.Inferred? && classified != 0 then Some(down as real / classified as real < THETA_DRIFT_SHARE) else None
  }

  /** The loop's totals. */
  datatype Tally = Tally(distribution: seq<Entry>, gamma: ByStrike, cr: ByStrike, netCe: real, netPe: real,
                         ceMass: ByStrike, peMass: ByStrike, sides: Sides, rows: nat, classified: nat,
                         priceDown: nat)

  /** The loop of `calculate_gex`; `rs` is what it reads of each row. */
  method SumRows(chain: seq<Row>, lotSize: Option<int>, mode: Mode, scale: real, ghost rs: seq<Reading>)
    returns (t: Tally)
    requires |rs| == |chain|
    requires forall i {:trigger chain[i]} :: 0 <= i < |chain| ==> rs[i] == Read(chain[i], lotSize, mode)
    requires Nested(rs)
    ensures t.distribution == Distribution(rs, |rs|)
    ensures t.netCe == NetOf(rs, |rs|, Calls) && t.netPe == NetOf(rs, |rs|, Rest)
    ensures Summed(rs, |rs|, t.gamma) && SummedScaled(rs, |rs|, scale, t.cr)
    ensures Massed(rs, |rs|, t.ceMass, t.peMass)
    ensures t.sides == if mode.Inferred? then SidesOf(rs, |rs|) else map[]
    ensures t.rows == CountedRows(rs, |rs|) && t.priceDown == PriceDownRows(rs, |rs|)
    ensures mode.Inferred? ==> t.classified == |t.distribution|
  {
    var gamma, cr, ceMass, peMass: ByStrike := Empty(), Empty(), Empty(), Empty();
    var distribution: seq<Entry> := [];
    var sides: Sides := map[];
    var netCe, netPe := 0.0, 0.0;
    var rows, classified, priceDown := 0, 0, 0;
    ZerosAreSummed(rs, scale);
    var i := 0;
    while i < |chain|
      invariant 0 <= i <= |chain|
      invariant distribution == Distribution(rs, i)
      invariant netCe == NetOf(rs, i, Calls) && netPe == NetOf(rs, i, Rest)
      invariant Summed(rs, i, gamma) && SummedScaled(rs, i, scale, cr)
      invariant Massed(rs, i, ceMass, peMass)
      invariant sides == if mode.Inferred? then SidesOf(rs, i) else map[]
      invariant rows == CountedRows(rs, i) && priceDown == PriceDownRows(rs, i)
      invariant mode.Inferred? ==> classified == |distribution|
    {
      var x := Read(chain[i], lotSize, mode);
      LegStep(rs, i, Calls, ceMass);
      LegStep(rs, i, Rest, peMass);
      SummedStep(rs, i, gamma);
      SummedScaledStep(rs, i, scale, cr);
      if x.counted {
        rows := rows + 1;
        if x.kind.CE? {
          ceMass := Accumulate(ceMass, x.strike, x.mass);
        } else {
          peMass := Accumulate(peMass, x.strike, x.mass);
        }
        if mode.Inferred? {
          sides := sides[(x.strike, x.kind) := x.side];
        }
        if x.placed {
          if mode.Inferred? {
            classified := classified + 1;
          }
          if x.down {
            priceDown := priceDown + 1;
          }
          gamma := Accumulate(gamma, x.strike, x.exposure);
          cr := Accumulate(cr, x.strike, Scaled(x.exposure, scale));
          if x.kind.CE? {
            netCe := netCe + x.exposure;
          } else {
            netPe := netPe + x.exposure;
          }
          distribution := distribution + [EntryOf(x)];
        }
      }
      i := i + 1;
    }
    t := Tally(distribution, gamma, cr, netCe, netPe, ceMass, peMass, sides, rows, classified, priceDown);
  }

  /** `calculate_gex`; None stands for its ValueError. */
  method CalculateGex(chain: seq<Row>, ltp: real, lotSize: Option<int>, mode: Mode) returns (result: Option<Result>)
    ensures result.None? <==> mode.UnknownMode?
    ensures result.Some? ==>
      var r, rs := result.value, Readings(chain, lotSize, mode);
      var d := Distribution(rs, |rs|);
      && r.distribution == d
      && Conserved(d, CrScale(ltp), r.gamma, r.cr, r.netCe, r.netPe)
      && r.netTotal == Total(d) && r.netCr == Scaled(Total(d), CrScale(ltp))
      && Massed(rs, |rs|, r.ceMass, r.peMass)
      && r.sides == (if mode.Inferred? then SidesOf(rs, |rs|) else map[])
      && r.regime == RegimeOf(mode, r.netCr, r.netTotal)
      && r.coverage == Coverage(mode, |d|, CountedRows(rs, |rs|))
      && r.reliable == Reliability(mode, PriceDownRows(rs, |rs|), |d|)
      && IsZeroLevel(r.gamma, r.zero)
    ensures result.Some? && mode.Assumed? ==>
      forall k :: Get(result.value.gamma, k) == Get(result.value.ceMass, k) - Get(result.value.peMass, k)
                  <==> OddMassAt(Readings(chain, lotSize, mode), |chain|, k) == 0.0
    ensures result.Some? && mode.Assumed? && (forall i :: 0 <= i < |chain| ==> !chain[i].kind.Other?) ==>
      forall k :: Get(result.value.gamma, k) == Get(result.value.ceMass, k) - Get(result.value.peMass, k)
  {
    if mode.UnknownMode? {
      return None;
    }
    var scale := CrScale(ltp);
    ghost var rs := Readings(chain, lotSize, mode);
    var t := SumRows(chain, lotSize, mode, scale, rs);
    SumsAreConserved(rs, scale, t.gamma, t.cr);
    var netTotal := t.netCe + t.netPe;
    var netCr := Scaled(netTotal, scale);
    var zero := FindZeroGammaLevel(t.gamma);
    if mode.Assumed? {
      AssumedIsSigned(chain, lotSize);
      AssumedGamma(rs, t.gamma, t.ceMass, t.peMass);
      if forall i :: 0 <= i < |chain| ==> !chain[i].kind.Other? {
        forall k: real
          ensures OddMassAt(rs, |rs|, k) == 0.0
        {
          NoOddRows(rs, |rs|, k);
        }
      }
    }
    var coverage := Coverage(mode, t.classified, t.rows);
    var reliable := Reliability(mode, t.priceDown, t.classified);
    result := Some(Result(netTotal, t.netCe, t.netPe, t.gamma, netCr, t.cr, t.ceMass, t.peMass, t.sides,
                          t.distribution, zero, RegimeOf(mode, netCr, netTotal), coverage, reliable));
  }
}
