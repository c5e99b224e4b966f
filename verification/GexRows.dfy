/** What one row of an option chain contributes to gamma exposure, and what the totals are quoted as. */
module GexRows {
  import opened InsertionDict
  import opened Orders
  import opened Gex

  predicate Unset(n: Option<int>) {
    n == None || n == Some(0)
  }

  /** The lot: the caller's, or failing that the row's, or failing that 75; none of them zero. */
  predicate IsLot(n: int, row: Row, lotSize: Option<int>) {
    || (lotSize == Some(n) && n != 0)
    || (Unset(lotSize) && row.lot == Some(n) && n != 0)
    || (Unset(lotSize) && Unset(row.lot) && n == 75)
  }

  lemma MassIs(row: Row, lotSize: Option<int>, n: int)
    requires row.gamma.Some? && IsLot(n, row, lotSize)
    ensures Mass(row, lotSize) == row.gamma.value * row.oi as real * n as real
  {
  }

  /** A row tells no side without both prices, with a close that is not positive, with no change in open interest, or
      with a move under half a percent of the close. */
  predicate Ambiguous(row: Row) {
    || row.close.None? || row.ltp.None? || row.close.value <= 0.0 || row.oiChange == 0
    || -0.005 * row.close.value < row.ltp.value - row.close.value < 0.005 * row.close.value
  }

  /** Otherwise dealers are short where open interest and price moved the same way, and long where they did not. */
  lemma SideIs(row: Row)
    ensures DealerSideOf(row) == None <==> Ambiguous(row)
    ensures !Ambiguous(row) ==>
              (DealerSideOf(row) == Some(Short) <==>
                 (row.oiChange > 0 && row.ltp.value > row.close.value)
                 || (row.oiChange < 0 && row.ltp.value < row.close.value))
    ensures !Ambiguous(row) ==>
              (DealerSideOf(row) == Some(Long) <==>
                 (row.oiChange > 0 && row.ltp.value < row.close.value)
                 || (row.oiChange < 0 && row.ltp.value > row.close.value))
  {
    if row.close.Some? && row.ltp.Some? && row.close.value > 0.0 {
      var c, move := row.close.value, row.ltp.value - row.close.value;
      QuotientBounds(move, c, 0.005);
    }
  }

  lemma QuotientBounds(x: real, c: real, bound: real)
    requires c > 0.0
    ensures x / c < bound <==> x < bound * c
    ensures -bound < x / c <==> -bound * c < x
    ensures x / c > 0.0 <==> x > 0.0
  {
    assert x / c * c == x;
  }

  /** What the loop takes from a row in assumed mode: calls and rows of any other type but puts add their mass, puts
      take theirs off. */
  lemma AssumedRow(row: Row, lotSize: Option<int>)
    ensures var x := Read(row, lotSize, Assumed);
      && x.strike == row.strike && x.kind == row.kind
      && (x.counted <==> row.gamma.Some? && row.gamma.value != 0.0)
      && (x.placed <==> x.counted) && !x.down
      && (x.counted ==> x.mass == Mass(row, lotSize))
      && (x.counted && row.kind == PE ==> x.exposure == -x.mass)
      && (x.counted && row.kind != PE ==> x.exposure == x.mass)
  {
  }

  /** And in inferred mode: a row that tells no side is counted but adds nothing, one dealers are short takes its mass
      off, one they are long adds it. */
  lemma InferredRow(row: Row, lotSize: Option<int>)
    ensures var x := Read(row, lotSize, Inferred);
      && x.strike == row.strike && x.kind == row.kind && x.side == DealerSideOf(row)
      && (x.counted <==> row.gamma.Some? && row.gamma.value != 0.0)
      && (x.placed <==> x.counted && !Ambiguous(row))
      && (x.down <==> x.placed && row.ltp.value < row.close.value)
      && (x.counted ==> x.mass == Mass(row, lotSize))
      && (x.placed && x.side == Some(Short) ==> x.exposure == -x.mass)
      && (x.placed && x.side == Some(Long) ==> x.exposure == x.mass)
  {
    SideIs(row);
  }

  // ---- what the folds over the rows come to

  /** The indices of the first `n` rows that are counted, that are placed and that are down. */
  function CountedAmong(rs: seq<Reading>, n: nat): set<nat>
    requires n <= |rs|
  {
    set i: nat | i < n && rs[i].counted
  }

  function PlacedAmong(rs: seq<Reading>, n: nat): set<nat>
    requires n <= |rs|
  {
    set i: nat | i < n && rs[i].placed
  }

  function DownAmong(rs: seq<Reading>, n: nat): set<nat>
    requires n <= |rs|
  {
    set i: nat | i < n && rs[i].down
  }

  /** What coverage and reliability are computed from: how many rows are counted, are down, and are placed. */
  lemma CountsAre(rs: seq<Reading>, n: nat)
    requires n <= |rs|
    ensures CountedRows(rs, n) == |CountedAmong(rs, n)|
    ensures PriceDownRows(rs, n) == |DownAmong(rs, n)|
    ensures |Distribution(rs, n)| == |PlacedAmong(rs, n)|
  {
    CountedAre(rs, n);
    DownAre(rs, n);
    PlacedAre(rs, n);
  }

  lemma {:induction false} CountedAre(rs: seq<Reading>, n: nat)
    requires n <= |rs|
    ensures CountedRows(rs, n) == |CountedAmong(rs, n)|
  {
    if n > 0 {
      CountedAre(rs, n - 1);
      OneMoreAmong(CountedAmong(rs, n - 1), CountedAmong(rs, n), n - 1, rs[n - 1].counted);
    }
  }

  lemma {:induction false} DownAre(rs: seq<Reading>, n: nat)
    requires n <= |rs|
    ensures PriceDownRows(rs, n) == |DownAmong(rs, n)|
  {
    if n > 0 {
      DownAre(rs, n - 1);
      OneMoreAmong(DownAmong(rs, n - 1), DownAmong(rs, n), n - 1, rs[n - 1].down);
    }
  }

  lemma {:induction false} PlacedAre(rs: seq<Reading>, n: nat)
    requires n <= |rs|
    ensures |Distribution(rs, n)| == |PlacedAmong(rs, n)|
  {
    if n > 0 {
      PlacedAre(rs, n - 1);
      OneMoreAmong(PlacedAmong(rs, n - 1), PlacedAmong(rs, n), n - 1, rs[n - 1].placed);
    }
  }

  lemma OneMoreAmong(before: set<nat>, after: set<nat>, k: nat, joins: bool)
    requires k !in before && forall i :: i in after <==> i in before || (i == k && joins)
    ensures |after| == |before| + if joins then 1 else 0
  {
    assert after == if joins then before + {k} else before;
  }

  /** What each row adds at a strike to the mass of calls, or of everything else. */
  function Masses(rs: seq<Reading>, calls: bool, strike: real): seq<real> {
    seq(|rs|, i requires 0 <= i < |rs| =>
      if rs[i].counted && rs[i].strike == strike && (rs[i].kind == CE) == calls then rs[i].mass else 0.0)
  }

  /** And what it adds there to the exposure. */
  function Exposures(rs: seq<Reading>, strike: real): seq<real> {
    seq(|rs|, i requires 0 <= i < |rs| => if rs[i].placed && rs[i].strike == strike then rs[i].exposure else 0.0)
  }

  lemma {:induction false} MassIsSum(rs: seq<Reading>, n: nat, strike: real)
    requires n <= |rs|
    ensures MassAt(rs, n, Calls, strike) == Sum(Masses(rs, true, strike)[..n])
    ensures MassAt(rs, n, Rest, strike) == Sum(Masses(rs, false, strike)[..n])
  {
    if n > 0 {
      MassIsSum(rs, n - 1, strike);
      var c, p := Masses(rs, true, strike), Masses(rs, false, strike);
      assert c[..n][..n - 1] == c[..n - 1] && p[..n][..n - 1] == p[..n - 1];
    }
  }

  lemma {:induction false} ExposureIsSum(rs: seq<Reading>, n: nat, strike: real)
    requires n <= |rs| && Nested(rs)
    ensures SumAt(rs, n, strike) == Sum(Exposures(rs, strike)[..n])
  {
    if n > 0 {
      ExposureIsSum(rs, n - 1, strike);
      var x := Exposures(rs, strike);
      assert x[..n][..n - 1] == x[..n - 1];
    }
  }

  /** Every dictionary of the chain, at every strike, is the sum of what its rows add there: masses by leg, counted
      rows only, and exposures, placed rows only. */
  lemma ChainSums(chain: seq<Row>, lotSize: Option<int>, mode: Mode, strike: real, gamma: ByStrike,
                  ceMass: ByStrike, peMass: ByStrike)
    requires var rs := Readings(chain, lotSize, mode);
      Massed(rs, |rs|, ceMass, peMass) && Get(gamma, strike) == TotalAt(Distribution(rs, |rs|), strike)
    ensures var rs := Readings(chain, lotSize, mode);
      && Get(ceMass, strike) == Sum(Masses(rs, true, strike))
      && Get(peMass, strike) == Sum(Masses(rs, false, strike))
      && Get(gamma, strike) == Sum(Exposures(rs, strike))
  {
    var rs := Readings(chain, lotSize, mode);
    MassIsSum(rs, |rs|, strike);
    ExposureIsSum(rs, |rs|, strike);
    var d := DistributionSums(rs, |rs|, Calls, strike);
    var c, p, x := Masses(rs, true, strike), Masses(rs, false, strike), Exposures(rs, strike);
    assert c[..|rs|] == c && p[..|rs|] == p && x[..|rs|] == x;
  }

  // ---- what the totals are quoted as

  /** Crores: an exposure times the square of the spot, over a billion. */
  lemma CroresAre(x: real, ltp: real)
    ensures Scaled(x, CrScale(ltp)) * 1000000000.0 == x * ltp * ltp
  {
    assert CrScale(ltp) * 1000000000.0 == ltp * ltp;
    Regroup(x, CrScale(ltp), 1000000000.0);
    Regroup(x, ltp, ltp);
  }

  lemma Regroup(x: real, y: real, z: real)
    ensures x * y * z == x * (y * z)
  {
  }

  /** The regime follows the sign of the net, except that inferred sides within 100 crore of zero are neutral. */
  lemma RegimeIs(mode: Mode, netCr: real, net: real)
    ensures RegimeOf(mode, netCr, net) == Positive <==> net > 0.0 && !(mode == Inferred && -100.0 < netCr < 100.0)
    ensures RegimeOf(mode, netCr, net) == Negative <==> net < 0.0 && !(mode == Inferred && -100.0 < netCr < 100.0)
  {
  }

  /** Coverage and reliability exist for inferred sides only: the share of counted rows that tell a side, none when no
      row is counted, and whether fewer than four in five of those are down. */
  lemma SharesAre(mode: Mode, down: nat, classified: nat, rows: nat)
    ensures Coverage(mode, classified, rows).Some? <==> mode == Inferred
    ensures mode == Inferred && rows > 0 ==> Coverage(mode, classified, rows).value * rows as real == classified as real
    ensures mode == Inferred && rows == 0 ==> Coverage(mode, classified, rows) == Some(0.0)
    ensures Reliability(mode, down, classified).Some? <==> mode == Inferred && classified > 0
    ensures mode == Inferred && classified > 0 ==>
              (Reliability(mode, down, classified) == Some(true) <==> 5 * down < 4 * classified)
  {
    if mode == Inferred && classified > 0 {
      QuotientBounds(down as real, classified as real, 0.8);
    }
  }
}
