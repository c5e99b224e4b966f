/** The carry replay's equity curve and net-return series, and the report that inverts the curve. */
module Equity {
  import opened Orders

  const GROSS_EXPOSURE := 10000000.0
  const LEG_FLOOR := 0.000001

  /** A captured rebalance: the target book of its formation and what reaching it cost. A leg lists each
      underlying's capital in the book's own order. */
  datatype Captured = Captured(date: int, longs: seq<(string, real)>, shorts: seq<(string, real)>,
                               fees: real, slippage: real)

  /** `signals.fwd_ret_1m` by formation date and underlying. */
  type Forwards = map<int, map<string, real>>

  function ForwardsOn(f: Forwards, date: int): map<string, real> {
    if date in f then f[date] else map[]
  }

  function Capital(leg: seq<(string, real)>): real {
    if leg == [] then 0.0 else leg[0].1 + Capital(leg[1..])
  }

  function Gain(leg: seq<(string, real)>, f: map<string, real>): real {
    if leg == [] then 0.0
    else leg[0].1 * ForwardIn(f, leg[0].0) + Gain(leg[1..], f)
  }

  function ForwardIn(f: map<string, real>, name: string): real {
    if name in f then f[name] else 0.0
  }

  function Max(a: real, b: real): real {
    if a >= b then a else b
  }

  /** The net return of holding `book` until the rebalance `next`, whose costs it pays. */
  function NetReturn(book: Captured, next: Captured, f: Forwards): real {
    var fwd := ForwardsOn(f, book.date);
    Gain(book.longs, fwd) / Max(Capital(book.longs), LEG_FLOOR)
    - Gain(book.shorts, fwd) / Max(Capital(book.shorts), LEG_FLOOR)
    - (next.fees + next.slippage) / GROSS_EXPOSURE
  }

  // ---- what a period returns, name by name

  function Amounts(leg: seq<(string, real)>): seq<real> {
    seq(|leg|, i requires 0 <= i < |leg| => leg[i].1)
  }

  /** The forward return of a name from a date is `x`; a name without one counts as 0. */
  predicate Pays(f: Forwards, date: int, name: string, x: real) {
    if date in f && name in f[date] then f[date][name] == x else x == 0.0
  }

  predicate AllPay(f: Forwards, date: int, leg: seq<(string, real)>, x: real) {
    forall i :: 0 <= i < |leg| ==> Pays(f, date, leg[i].0, x)
  }

  /** Every long name of the book pays `x` and every short one `y`; a leg below the floor, or with no name, pays 0. */
  predicate Settles(book: Captured, f: Forwards, x: real, y: real) {
    && AllPay(f, book.date, book.longs, x) && (Sum(Amounts(book.longs)) >= 0.000001 || x == 0.0)
    && AllPay(f, book.date, book.shorts, y) && (Sum(Amounts(book.shorts)) >= 0.000001 || y == 0.0)
  }

  lemma {:induction false} CapitalIsSum(leg: seq<(string, real)>)
    ensures Capital(leg) == Sum(Amounts(leg))
  {
    if leg != [] {
      CapitalIsSum(leg[1..]);
      assert Amounts(leg) == [leg[0].1] + Amounts(leg[1..]);
      SumOfCons(leg[0].1, Amounts(leg[1..]));
    }
  }

  lemma {:induction false} SumOfCons(x: real, s: seq<real>)
    ensures Sum([x] + s) == x + Sum(s)
  {
    if s == [] {
      assert [x] + s == [x] && [x][..0] == [];
    } else {
      var n := |s| - 1;
      assert ([x] + s)[..n + 1] == [x] + s[..n];
      SumOfCons(x, s[..n]);
    }
  }

  lemma {:induction false} UniformGain(leg: seq<(string, real)>, f: Forwards, date: int, x: real)
    requires AllPay(f, date, leg, x)
    ensures Gain(leg, ForwardsOn(f, date)) == x * Capital(leg)
  {
    if leg != [] {
      assert Pays(f, date, leg[0].0, x);
      assert forall i :: 0 <= i < |leg[1..]| ==> leg[1..][i] == leg[i + 1];
      UniformGain(leg[1..], f, date, x);
    }
  }

  lemma Share(x: real, c: real)
    requires c > 0.0
    ensures (x * c) / c == x
  {
  }

  /** The forwards with one name's return from one date raised by `e`. */
  function Raised(f: Forwards, date: int, name: string, e: real): Forwards {
    var before := if date in f && name in f[date] then f[date][name] else 0.0;
    f[date := (if date in f then f[date] else map[])[name := before + e]]
  }

  predicate NamesDiffer(leg: seq<(string, real)>) {
    forall i, j :: 0 <= i < j < |leg| ==> leg[i].0 != leg[j].0
  }

  lemma {:induction false} GainElsewhere(leg: seq<(string, real)>, f: Forwards, date: int, name: string, e: real)
    requires forall i :: 0 <= i < |leg| ==> leg[i].0 != name
    ensures Gain(leg, ForwardsOn(Raised(f, date, name, e), date)) == Gain(leg, ForwardsOn(f, date))
  {
    if leg != [] {
      assert forall i :: 0 <= i < |leg[1..]| ==> leg[1..][i] == leg[i + 1];
      GainElsewhere(leg[1..], f, date, name, e);
    }
  }

  lemma {:induction false} GainRises(leg: seq<(string, real)>, f: Forwards, date: int, e: real, i: nat)
    requires i < |leg| && NamesDiffer(leg)
    ensures Gain(leg, ForwardsOn(Raised(f, date, leg[i].0, e), date)) == Gain(leg, ForwardsOn(f, date)) + leg[i].1 * e
  {
    var rest := leg[1..];
    assert forall j :: 0 <= j < |rest| ==> rest[j] == leg[j + 1];
    if i == 0 {
      GainElsewhere(rest, f, date, leg[0].0, e);
      Distribute(leg[0].1, ForwardIn(ForwardsOn(f, date), leg[0].0), e);
    } else {
      GainRises(rest, f, date, e, i - 1);
    }
  }

  lemma Distribute(a: real, v: real, e: real)
    ensures a * (v + e) == a * v + a * e
  {
  }

  lemma Linear(g: real, a: real, e: real, c: real)
    requires c > 0.0
    ensures (g + a * e) / c == g / c + a / c * e
  {
    assert (g / c + a / c * e) * c == g + a * e;
  }

  /** What a leg's share is taken of: its capital, but at least the floor. */
  function Base(leg: seq<(string, real)>): real {
    if Sum(Amounts(leg)) >= 0.000001 then Sum(Amounts(leg)) else 0.000001
  }

  /** What a leg's gain is, as a share of its base. */
  function LegReturn(leg: seq<(string, real)>, f: map<string, real>): real {
    Gain(leg, f) / Max(Capital(leg), LEG_FLOOR)
  }

  lemma LegRises(leg: seq<(string, real)>, f: Forwards, date: int, e: real, i: nat)
    requires i < |leg| && NamesDiffer(leg)
    ensures LegReturn(leg, ForwardsOn(Raised(f, date, leg[i].0, e), date))
            == LegReturn(leg, ForwardsOn(f, date)) + leg[i].1 / Base(leg) * e
  {
    GainRises(leg, f, date, e, i);
    LegReturnRises(leg, ForwardsOn(f, date), ForwardsOn(Raised(f, date, leg[i].0, e), date), leg[i].1, e);
  }

  lemma LegReturnRises(leg: seq<(string, real)>, was: map<string, real>, now: map<string, real>, a: real, e: real)
    requires Gain(leg, now) == Gain(leg, was) + a * e
    ensures LegReturn(leg, now) == LegReturn(leg, was) + a / Base(leg) * e
  {
    BaseIs(leg);
    Rises(Gain(leg, was), Gain(leg, now), a, e, Max(Capital(leg), LEG_FLOOR));
  }

  lemma BaseIs(leg: seq<(string, real)>)
    ensures Base(leg) == Max(Capital(leg), LEG_FLOOR) > 0.0
  {
    CapitalIsSum(leg);
  }

  lemma Rises(g: real, h: real, a: real, e: real, c: real)
    requires c > 0.0 && h == g + a * e
    ensures h / c == g / c + a / c * e
  {
    Linear(g, a, e, c);
  }

  lemma LegElsewhere(leg: seq<(string, real)>, f: Forwards, date: int, name: string, e: real)
    requires forall i :: 0 <= i < |leg| ==> leg[i].0 != name
    ensures LegReturn(leg, ForwardsOn(Raised(f, date, name, e), date)) == LegReturn(leg, ForwardsOn(f, date))
  {
    GainElsewhere(leg, f, date, name, e);
  }

  lemma ReturnIsLegs(book: Captured, next: Captured, f: Forwards, long: real, short: real)
    requires long == LegReturn(book.longs, ForwardsOn(f, book.date))
    requires short == LegReturn(book.shorts, ForwardsOn(f, book.date))
    ensures NetReturn(book, next, f) == long - short - (next.fees + next.slippage) / 10000000.0
  {
  }

  lemma UniformLeg(leg: seq<(string, real)>, f: Forwards, date: int, x: real)
    requires AllPay(f, date, leg, x) && (Sum(Amounts(leg)) >= 0.000001 || x == 0.0)
    ensures LegReturn(leg, ForwardsOn(f, date)) == x
  {
    CapitalIsSum(leg);
    UniformGain(leg, f, date, x);
    if x != 0.0 {
      Share(x, Capital(leg));
    }
  }

  /** If every long name gains x and every short one y, the period returns x - y less the costs over 10 million. */
  lemma UniformReturn(book: Captured, next: Captured, f: Forwards, x: real, y: real)
    requires Settles(book, f, x, y)
    ensures NetReturn(book, next, f) == x - y - (next.fees + next.slippage) / 10000000.0
  {
    UniformLeg(book.longs, f, book.date, x);
    UniformLeg(book.shorts, f, book.date, y);
    ReturnIsLegs(book, next, f, x, y);
  }

  /** Raising one long name's forward raises the return by its share of the leg, and a short name's lowers it. */
  lemma ForwardMovesReturn(book: Captured, next: Captured, f: Forwards, e: real, i: nat)
    requires NamesDiffer(book.longs) && NamesDiffer(book.shorts)
    requires forall j, k :: 0 <= j < |book.longs| && 0 <= k < |book.shorts| ==> book.longs[j].0 != book.shorts[k].0
    ensures i < |book.longs| ==>
              NetReturn(book, next, Raised(f, book.date, book.longs[i].0, e))
              == NetReturn(book, next, f) + book.longs[i].1 / Base(book.longs) * e
    ensures i < |book.shorts| ==>
              NetReturn(book, next, Raised(f, book.date, book.shorts[i].0, e))
              == NetReturn(book, next, f) - book.shorts[i].1 / Base(book.shorts) * e
  {
    var long := LegReturn(book.longs, ForwardsOn(f, book.date));
    var short := LegReturn(book.shorts, ForwardsOn(f, book.date));
    ReturnIsLegs(book, next, f, long, short);
    if i < |book.longs| {
      var g := Raised(f, book.date, book.longs[i].0, e);
      LegRises(book.longs, f, book.date, e, i);
      LegElsewhere(book.shorts, f, book.date, book.longs[i].0, e);
      ReturnIsLegs(book, next, g, long + book.longs[i].1 / Base(book.longs) * e, short);
    }
    if i < |book.shorts| {
      var g := Raised(f, book.date, book.shorts[i].0, e);
      LegRises(book.shorts, f, book.date, e, i);
      LegElsewhere(book.longs, f, book.date, book.shorts[i].0, e);
      ReturnIsLegs(book, next, g, long, short + book.shorts[i].1 / Base(book.shorts) * e);
    }
  }

  // ---- the direct series

  /** The net return of each rebalance after the first. */
  function NetSeries(captured: seq<Captured>, f: Forwards): (net: seq<real>)
    ensures |net| == if captured == [] then 0 else |captured| - 1
  {
    if |captured| < 2 then []
    else
      var n := |captured| - 1;
      NetSeries(captured[..n], f) + [NetReturn(captured[n - 1], captured[n], f)]
  }

  lemma {:induction false} NetAt(captured: seq<Captured>, f: Forwards, i: nat)
    requires 0 < i < |captured|
    ensures NetSeries(captured, f)[i - 1] == NetReturn(captured[i - 1], captured[i], f)
    decreases |captured|
  {
    if i < |captured| - 1 {
      NetAt(captured[..|captured| - 1], f, i);
    }
  }

  /** Where every long name gains x and every short one y, a period's entry is x - y less the next one's costs. */
  ghost predicate SettledAt(captured: seq<Captured>, f: Forwards, k: int, x: real, y: real) {
    0 <= k < |captured| - 1 && Settles(captured[k], f, x, y)
  }

  lemma SeriesSettles(captured: seq<Captured>, f: Forwards)
    ensures forall k, x, y :: SettledAt(captured, f, k, x, y) ==>
              NetSeries(captured, f)[k] == x - y - (captured[k + 1].fees + captured[k + 1].slippage) / 10000000.0
  {
    forall k, x, y | SettledAt(captured, f, k, x, y)
      ensures NetSeries(captured, f)[k] == x - y - (captured[k + 1].fees + captured[k + 1].slippage) / 10000000.0
    {
      NetAt(captured, f, k + 1);
      UniformReturn(captured[k], captured[k + 1], f, x, y);
    }
  }

  /** `_derive_net_series`. */
  method DeriveNetSeries(captured: seq<Captured>, f: Forwards) returns (net: seq<real>)
    ensures net == NetSeries(captured, f)
    ensures forall k, x, y :: SettledAt(captured, f, k, x, y) ==>
              net[k] == x - y - (captured[k + 1].fees + captured[k + 1].slippage) / 10000000.0
  {
    SeriesSettles(captured, f);
    net := [];
    var i := 1;
    while i < |captured|
      invariant 1 <= i && (captured != [] ==> i <= |captured|)
      invariant net == if captured == [] then [] else NetSeries(captured[..i], f)
    {
      net := net + [NetReturn(captured[i - 1], captured[i], f)];
      assert captured[..i + 1][..i] == captured[..i];
      i := i + 1;
    }
    assert captured != [] ==> captured[..i] == captured;
  }

  function Grown(growth: real, r: real): real {
    growth * (1.0 + r)
  }

  /** What 1 has grown to after the first `k` returns. */
  function Growth(net: seq<real>, k: nat): real
    requires k <= |net|
  {
    if k == 0 then 1.0 else Grown(Growth(net, k - 1), net[k - 1])
  }

  /** The curve's running peak after `k` returns. */
  function Peak(net: seq<real>, k: nat): real
    requires k <= |net|
  {
    if k == 0 then 1.0 else Max(Peak(net, k - 1), Growth(net, k))
  }

  /** It is the largest growth so far. */
  lemma {:induction false} PeakIsLargest(net: seq<real>, k: nat)
    requires k <= |net|
    ensures Peak(net, k) >= 1.0
    ensures exists j :: 0 <= j <= k && Peak(net, k) == Growth(net, j)
    ensures forall j :: 0 <= j <= k ==> Growth(net, j) <= Peak(net, k)
  {
    if k == 0 {
      assert Growth(net, 0) == Peak(net, 0);
    } else {
      PeakIsLargest(net, k - 1);
      var j :| 0 <= j <= k - 1 && Peak(net, k - 1) == Growth(net, j);
      assert Peak(net, k) == Growth(net, j) || Peak(net, k) == Growth(net, k);
    }
  }

  // ---- the incremental curve

  datatype Point = Point(date: int, cumNet: real, drawdown: real)

  function Drawdown(growth: real, peak: real): real {
    if peak > 0.0 then (growth - peak) / peak else 0.0
  }

  /** A curve over `net`: each point's cumulative return is the growth so far less 1, and its drawdown is
      the growth's distance below its running peak, as a share of that peak. */
  ghost predicate IsCurve(equity: seq<Point>, net: seq<real>) {
    && |equity| == |net| + 1
    && (forall i :: 0 <= i < |equity| ==> equity[i].cumNet == Growth(net, i) - 1.0)
    && forall i :: 0 <= i < |equity| ==> equity[i].drawdown == Drawdown(Growth(net, i), Peak(net, i))
  }

  /** The curve's first `k + 1` points. */
  function Points(dates: seq<int>, net: seq<real>, k: nat): seq<Point>
    requires k <= |net| && k < |dates|
  {
    if k == 0 then [Point(dates[0], 0.0, 0.0)]
    else
      Points(dates, net, k - 1)
      + [Point(dates[k], Growth(net, k) - 1.0, Drawdown(Growth(net, k), Peak(net, k)))]
  }

  lemma {:induction false} PointsAt(dates: seq<int>, net: seq<real>, k: nat, i: nat)
    requires i <= k <= |net| && k < |dates|
    ensures |Points(dates, net, k)| == k + 1
    ensures Points(dates, net, k)[i] == Point(dates[i], Growth(net, i) - 1.0, Drawdown(Growth(net, i), Peak(net, i)))
    decreases k
  {
    if k > 0 {
      PointsAt(dates, net, k - 1, if i < k then i else k - 1);
    }
  }

  function Dates(captured: seq<Captured>): seq<int> {
    seq(|captured|, i requires 0 <= i < |captured| => captured[i].date)
  }

  lemma PointsAreCurve(dates: seq<int>, net: seq<real>)
    requires |dates| == |net| + 1
    ensures var equity := Points(dates, net, |net|);
      IsCurve(equity, net) && forall i :: 0 <= i < |equity| ==> i < |dates| && equity[i].date == dates[i]
  {
    var equity := Points(dates, net, |net|);
    PointsAt(dates, net, |net|, 0);
    forall i | 0 <= i < |equity|
      ensures equity[i] == Point(dates[i], Growth(net, i) - 1.0, Drawdown(Growth(net, i), Peak(net, i)))
    {
      PointsAt(dates, net, |net|, i);
    }
  }

  /** `_compute_equity_curve`. */
  method ComputeEquityCurve(captured: seq<Captured>, f: Forwards) returns (equity: seq<Point>)
    ensures |captured| < 2 ==> equity == []
    ensures |captured| >= 2 ==> IsCurve(equity, NetSeries(captured, f))
    ensures |captured| >= 2 ==> |equity| == |captured| && equity[0] == Point(captured[0].date, 0.0, 0.0)
    ensures forall i :: 0 <= i < |equity| ==> i < |captured| && equity[i].date == captured[i].date
    ensures forall k, x, y :: SettledAt(captured, f, k, x, y) ==>
              Grows(equity[k], equity[k + 1],
                    x - y - (captured[k + 1].fees + captured[k + 1].slippage) / 10000000.0)
  {
    equity := [];
    if |captured| < 2 {
      return;
    }
    ghost var net, dates := NetSeries(captured, f), Dates(captured);
    equity := [Point(captured[0].date, 0.0, 0.0)];
    var peak, cumNet := 1.0, 1.0;
    var i := 1;
    while i < |captured|
      invariant 1 <= i <= |captured|
      invariant cumNet == Growth(net, i - 1) && peak == Peak(net, i - 1)
      invariant equity == Points(dates, net, i - 1)
    {
      NetAt(captured, f, i);
      var r := NetReturn(captured[i - 1], captured[i], f);
      cumNet := Grown(cumNet, r);
      peak := Max(peak, cumNet);
      equity := equity + [Point(captured[i].date, cumNet - 1.0, Drawdown(cumNet, peak))];
      i := i + 1;
    }
    PointsAreCurve(dates, net);
    CurveSettles(captured, f, equity);
  }

  /** From one point to the next what 1 has grown to grows by `r`. */
  predicate Grows(p: Point, q: Point, r: real) {
    1.0 + q.cumNet == (1.0 + p.cumNet) * (1.0 + r)
  }

  lemma CurveSettles(captured: seq<Captured>, f: Forwards, equity: seq<Point>)
    requires |captured| >= 2 && IsCurve(equity, NetSeries(captured, f))
    ensures forall k, x, y :: SettledAt(captured, f, k, x, y) ==>
              Grows(equity[k], equity[k + 1],
                    x - y - (captured[k + 1].fees + captured[k + 1].slippage) / 10000000.0)
  {
    SeriesSettles(captured, f);
    var net := NetSeries(captured, f);
    forall k, x, y | SettledAt(captured, f, k, x, y)
      ensures Grows(equity[k], equity[k + 1],
                    x - y - (captured[k + 1].fees + captured[k + 1].slippage) / 10000000.0)
    {
      PointGrows(equity, net, k);
    }
  }

  lemma PointGrows(equity: seq<Point>, net: seq<real>, k: nat)
    requires IsCurve(equity, net) && k < |net|
    ensures Grows(equity[k], equity[k + 1], net[k])
  {
    assert Growth(net, k + 1) == Grown(Growth(net, k), net[k]);
  }

  lemma DrawdownSign(growth: real, peak: real)
    requires growth <= peak && peak >= 1.0
    ensures Drawdown(growth, peak) <= 0.0
    ensures Drawdown(growth, peak) == 0.0 <==> growth == peak
  {
  }

  /** The curve's last value plus 1 is the product of (1 + r) over the whole series; no drawdown is
      positive, and one is zero exactly where the growth has never been higher. */
  lemma CurveMeansSeries(equity: seq<Point>, net: seq<real>, i: nat)
    requires IsCurve(equity, net) && i < |equity|
    ensures equity[|equity| - 1].cumNet + 1.0 == Growth(net, |net|)
    ensures equity[i].drawdown <= 0.0
    ensures equity[i].drawdown == 0.0 <==> forall j :: 0 <= j <= i ==> Growth(net, j) <= Growth(net, i)
  {
    PeakIsLargest(net, i);
    DrawdownSign(Growth(net, i), Peak(net, i));
    var j :| 0 <= j <= i && Peak(net, i) == Growth(net, j);
  }

  lemma DrawdownAt(equity: seq<Point>, net: seq<real>, i: nat) returns (peak: real)
    requires IsCurve(equity, net) && i < |equity|
    ensures peak == Peak(net, i) >= 1.0
    ensures (1.0 + equity[i].drawdown) * peak == Growth(net, i)
  {
    peak := Peak(net, i);
    PeakIsLargest(net, i);
    DrawdownFromPeak(Growth(net, i), peak, equity[i].drawdown);
  }

  /** A drawdown is the share of the highest growth so far that has been given up. */
  lemma DrawdownIs(equity: seq<Point>, net: seq<real>, i: nat) returns (j: nat, peak: real)
    requires IsCurve(equity, net) && i < |equity|
    ensures j <= i && peak == Growth(net, j)
    ensures forall k :: 0 <= k <= i ==> Growth(net, k) <= peak
    ensures (1.0 + equity[i].drawdown) * peak == Growth(net, i)
  {
    peak := DrawdownAt(equity, net, i);
    j := HighestSoFar(net, i, peak);
  }

  lemma HighestSoFar(net: seq<real>, i: nat, peak: real) returns (j: nat)
    requires i <= |net| && peak == Peak(net, i)
    ensures j <= i && peak == Growth(net, j)
    ensures forall k :: 0 <= k <= i ==> Growth(net, k) <= peak
  {
    PeakIsLargest(net, i);
    j :| 0 <= j <= i && peak == Growth(net, j);
  }

  lemma DrawdownFromPeak(growth: real, peak: real, d: real)
    requires peak > 0.0 && d == Drawdown(growth, peak)
    ensures (1.0 + d) * peak == growth
  {
    assert (growth - peak) / peak * peak == growth - peak;
  }

  // ---- the report

  /** The monthly returns the report reads back off the stored curve; None is its ZeroDivisionError. */
  method MonthlyReturns(rows: seq<Point>) returns (monthly: Option<seq<real>>)
    requires rows != []
    ensures monthly.None? <==> exists i :: 0 <= i < |rows| - 1 && 1.0 + rows[i].cumNet == 0.0
    ensures monthly.Some? ==>
      && |monthly.value| == |rows| - 1
      && forall i :: 0 <= i < |rows| - 1 ==>
           1.0 + rows[i].cumNet != 0.0
           && monthly.value[i] == Ratio(1.0 + rows[i + 1].cumNet, 1.0 + rows[i].cumNet)
  {
    var ratios: seq<real> := [];
    var previous := rows[0].cumNet;
    var i := 1;
    while i < |rows|
      invariant 1 <= i <= |rows| && |ratios| == i - 1 && previous == rows[i - 1].cumNet
      invariant forall k :: 0 <= k < i - 1 ==>
        1.0 + rows[k].cumNet != 0.0
        && ratios[k] == Ratio(1.0 + rows[k + 1].cumNet, 1.0 + rows[k].cumNet)
    {
      if 1.0 + previous == 0.0 {
        return None;
      }
      ratios := ratios + [Ratio(1.0 + rows[i].cumNet, 1.0 + previous)];
      previous := rows[i].cumNet;
      i := i + 1;
    }
    monthly := Some(ratios);
  }

  lemma {:induction false} GrowthZeroIff(net: seq<real>, k: nat)
    requires k <= |net|
    ensures Growth(net, k) == 0.0 <==> exists j :: 0 <= j < k && net[j] == -1.0
  {
    if k > 0 {
      GrowthZeroIff(net, k - 1);
      ProductZero(Growth(net, k - 1), 1.0 + net[k - 1]);
    }
  }

  lemma ProductZero(a: real, b: real)
    ensures a * b == 0.0 <==> a == 0.0 || b == 0.0
  {
  }

  lemma RatioOf(a: real, b: real)
    requires a != 0.0
    ensures (a * b) / a == b
  {
  }

  function Ratio(next: real, now: real): real
    requires now != 0.0
  {
    next / now - 1.0
  }

  /** What the report's formula gives on a curve, where it is defined, is the series itself. */
  lemma RatioRecovers(net: seq<real>, i: nat)
    requires i < |net| && Growth(net, i) != 0.0
    ensures Ratio(Growth(net, i + 1), Growth(net, i)) == net[i]
  {
    RatioOf(Growth(net, i), 1.0 + net[i]);
  }

  lemma CurveGrowth(rows: seq<Point>, net: seq<real>, i: nat)
    requires IsCurve(rows, net) && i < |rows|
    ensures 1.0 + rows[i].cumNet == Growth(net, i)
  {
  }

  /** Reading the curve back recovers the whole series, exactly unless some month before the last lost
      everything; returns below -1 are recovered too. */
  lemma MonthlyIsSeries(rows: seq<Point>, net: seq<real>, monthly: Option<seq<real>>)
    requires IsCurve(rows, net)
    requires monthly.None? <==> exists i :: 0 <= i < |rows| - 1 && 1.0 + rows[i].cumNet == 0.0
    requires monthly.Some? ==>
      && |monthly.value| == |rows| - 1
      && forall i :: 0 <= i < |rows| - 1 ==>
           1.0 + rows[i].cumNet != 0.0 && monthly.value[i] == Ratio(1.0 + rows[i + 1].cumNet, 1.0 + rows[i].cumNet)
    ensures monthly.Some? ==> monthly.value == net
    ensures monthly.Some? <==> forall i :: 0 <= i < |net| - 1 ==> net[i] != -1.0
  {
    forall i | 0 <= i < |net|
      ensures 1.0 + rows[i].cumNet == 0.0 <==> exists j :: 0 <= j < i && net[j] == -1.0
      ensures monthly.Some? ==> monthly.value[i] == net[i]
    {
      CurveGrowth(rows, net, i);
      CurveGrowth(rows, net, i + 1);
      GrowthZeroIff(net, i);
      if monthly.Some? {
        RatioRecovers(net, i);
      }
    }
    if j :| 0 <= j < |net| - 1 && net[j] == -1.0 {
      assert 1.0 + rows[j + 1].cumNet == 0.0;
    }
  }

  /** From captured books to the curve and back: the report recovers the replay's own series. */
  method RoundTrip(captured: seq<Captured>, f: Forwards) returns (net: seq<real>, monthly: Option<seq<real>>)
    requires |captured| >= 2
    ensures net == NetSeries(captured, f)
    ensures monthly.Some? ==> monthly.value == net
    ensures monthly.Some? <==> forall i :: 0 <= i < |net| - 1 ==> net[i] != -1.0
  {
    net := DeriveNetSeries(captured, f);
    var equity := ComputeEquityCurve(captured, f);
    monthly := MonthlyReturns(equity);
    MonthlyIsSeries(equity, net, monthly);
  }
}
