/** The order side of the ledger, and how a live restart hands its open orders back. */
module FnoRunner {
  import opened InsertionDict
  import opened Orders
  import opened FillPoll
  import opened World
  import opened Restart
  import opened BookLaws
  import opened UpstoxAdapter

  datatype OrderStatus = Created | PartiallyFilled | AllFilled | Ended

  /** `OrderState`: one tracked order. */
  class OrderState {
    const order: Order
    var status: OrderStatus
    var filledQuantity: int
    var averagePrice: real

    constructor (order: Order)
      ensures this.order == order && status == Created && filledQuantity == 0 && averagePrice == 0.0
    {
      this.order := order;
      status := Created;
      filledQuantity := 0;
      averagePrice := 0.0;
    }

    /** `add_fill`; false stands for its ValueError. */
    method AddFill(fill: Fill) returns (ok: bool)
      requires filledQuantity >= 0
      modifies this
      ensures ok <==> fill.cid == order.cid && fill.quantity > 0
      ensures !ok ==>
        status == old(status) && filledQuantity == old(filledQuantity) && averagePrice == old(averagePrice)
      ensures ok ==>
        && filledQuantity == old(filledQuantity) + fill.quantity
        && Value(filledQuantity, averagePrice)
           == Value(old(filledQuantity), old(averagePrice)) + Value(fill.quantity, fill.price)
        && status == if filledQuantity >= order.quantity then AllFilled else PartiallyFilled
    {
      if fill.cid != order.cid || fill.quantity <= 0 {
        return false;
      }
      var total := Value(filledQuantity, averagePrice) + Value(fill.quantity, fill.price);
      var quantity := filledQuantity + fill.quantity;
      AverageOf(total, quantity);
      averagePrice := total / quantity as real;
      filledQuantity := quantity;
      status := if quantity >= order.quantity then AllFilled else PartiallyFilled;
      return true;
    }

    /** Replaying the stored fills, first to last, as a restart does; those of other orders go elsewhere. */
    method Replay(fills: seq<Fill>)
      requires filledQuantity == 0 && averagePrice == 0.0 && status == Created
      requires forall i :: 0 <= i < |fills| ==> fills[i].quantity > 0
      modifies this
      ensures filledQuantity == Qty(fills, order.cid) >= 0
      ensures Value(filledQuantity, averagePrice) == Notional(fills, order.cid)
      ensures status == StatusAt(filledQuantity, order)
    {
      var i := 0;
      while i < |fills|
        invariant 0 <= i <= |fills|
        invariant filledQuantity == Qty(fills[..i], order.cid) >= 0
        invariant Value(filledQuantity, averagePrice) == Notional(fills[..i], order.cid)
        invariant status == StatusAt(filledQuantity, order)
      {
        OneMoreFill(fills, i, order.cid);
        if fills[i].cid == order.cid {
          var ok := AddFill(fills[i]);
        }
        i := i + 1;
      }
      assert fills[..|fills|] == fills;
    }

    /** `mark_ended`: a fully filled order is left as it is. */
    method MarkEnded()
      modifies this`status
      ensures status == if old(status).AllFilled? then AllFilled else Ended
    {
      if !status.AllFilled? {
        status := Ended;
      }
    }
  }

  /** The status `filled` units leave an order with. */
  function StatusAt(filled: int, o: Order): OrderStatus {
    if filled == 0 then Created else if filled >= o.quantity then AllFilled else PartiallyFilled
  }

  lemma OneMoreFill(fills: seq<Fill>, i: nat, c: Cid)
    requires i < |fills|
    ensures Qty(fills[..i + 1], c) == Qty(fills[..i], c) + if fills[i].cid == c then fills[i].quantity else 0
    ensures Notional(fills[..i + 1], c)
            == Notional(fills[..i], c) + if fills[i].cid == c then Value(fills[i].quantity, fills[i].price) else 0.0
  {
    assert fills[..i + 1] == fills[..i] + [fills[i]];
    SumsAppend(fills[..i], fills[i], c);
  }

  lemma AverageOf(total: real, quantity: int)
    requires quantity > 0
    ensures Value(quantity, total / quantity as real) == total
  {
  }

  /** A row of `order_states()`: an order, the day it was placed, and what the ledger holds for it. */
  datatype Row = Row(order: Order, placed: int, status: OrderStatus, filled: int, average: real)

  predicate IsOpen(r: Row, today: int) {
    (r.status.Created? || r.status.PartiallyFilled?) && r.placed == today
  }

  function HeldIn(r: Row): Held {
    Held(r.order, r.filled, r.average)
  }

  function OpenRows(rows: seq<Row>, today: int): seq<Held> {
    if rows == [] then []
    else if IsOpen(rows[0], today) then [HeldIn(rows[0])] + OpenRows(rows[1..], today)
    else OpenRows(rows[1..], today)
  }

  datatype Alert = BookUnread(orders: seq<Order>) | NotFound(orders: seq<Order>) | Duplicated(orders: seq<Order>)
                 | Mismatched(orders: seq<Order>)

  predicate Alerted(alerts: seq<Alert>, o: Order) {
    exists i :: 0 <= i < |alerts| && o in alerts[i].orders
  }

  lemma {:induction false} ListedIff(open: seq<Held>, book: seq<Entry>, how: Finding, o: Order)
    ensures o in Listed(open, book, how) <==> Find(book, o) == how && exists i :: 0 <= i < |open| && open[i].order == o
  {
    if open != [] {
      ListedIff(open[1..], book, how, o);
      assert forall i :: 0 <= i < |open[1..]| ==> open[1..][i] == open[i + 1];
      if o in Listed(open[1..], book, how) {
        var i :| 0 <= i < |open[1..]| && open[1..][i].order == o;
        assert open[i + 1].order == o;
      }
      assert open[0].order == o || forall i :: 0 < i < |open| ==> open[i] == open[1..][i - 1];
    }
  }

  /** An alert for each list that is not empty. */
  function AlertsFor(r: ResumeResult): seq<Alert> {
    (if r.notFound != [] then [NotFound(r.notFound)] else [])
    + (if r.duplicated != [] then [Duplicated(r.duplicated)] else [])
    + (if r.mismatched != [] then [Mismatched(r.mismatched)] else [])
  }

  lemma AlertsCarry(r: ResumeResult)
    ensures forall os :: NotFound(os) in AlertsFor(r) <==> os == r.notFound && os != []
    ensures forall os :: Duplicated(os) in AlertsFor(r) <==> os == r.duplicated && os != []
    ensures forall os :: Mismatched(os) in AlertsFor(r) <==> os == r.mismatched && os != []
    ensures forall os :: BookUnread(os) !in AlertsFor(r)
  {
  }

  lemma AlertedIff(r: ResumeResult, o: Order)
    ensures Alerted(AlertsFor(r), o) <==> o in r.notFound || o in r.duplicated || o in r.mismatched
  {
    var alerts := AlertsFor(r);
    if o in r.notFound {
      assert o in alerts[0].orders;
    } else if o in r.duplicated {
      assert o in alerts[if r.notFound != [] then 1 else 0].orders;
    } else if o in r.mismatched {
      assert o in alerts[|alerts| - 1].orders;
    }
  }

  /** An open order is polled under the id it is found under, or named in an alert. */
  ghost predicate AllPolledOrNamed(open: seq<Held>, book: seq<Entry>, alerts: seq<Alert>, s: State) {
    forall i :: 0 <= i < |open| ==> PolledAsFound(s, book, open[i].order) || Alerted(alerts, open[i].order)
  }

  /** There is an alert of each kind for those of the open orders it is about, if there are any, and no other. */
  ghost predicate AlertsShow(alerts: seq<Alert>, open: seq<Held>, book: seq<Entry>) {
    && (forall os :: NotFound(os) in alerts <==> os == Those(open, book, Absent) && os != [])
    && (forall os :: Duplicated(os) in alerts <==> os == Those(open, book, Repeated) && os != [])
    && (forall os :: Mismatched(os) in alerts <==> os == Those(open, book, Changed) && os != [])
    && (forall os :: BookUnread(os) !in alerts)
  }

  /** The book shows the order exactly once. */
  ghost predicate InBook(book: seq<Entry>, o: Order) {
    exists id :: ShownOnce(book, o, id)
  }

  /** `_resume_open_orders`: an open order of the day is found in the book, or named in a critical alert, never
      both and never neither. Those found are all polled exactly when no broker id is found for two of them.
      A clean ledger asks Upstox nothing. */
  method ResumeOpenOrders(rows: seq<Row>, adapter: Adapter, book: BookReply, estimate: Estimate, today: int)
    returns (alerts: seq<Alert>, resumed: int)
    requires adapter.Model() == Fresh()
    modifies adapter
    ensures var open := OpenRows(rows, today);
      && (open == [] ==> alerts == [] && resumed == 0 && adapter.Model() == Fresh())
      && (open != [] && !book.Book? ==> resumed == 0 && adapter.Model() == Fresh())
      && (open != [] && book.Book? ==>
            && adapter.Model() == Resume(open, book.entries, Resumed(Fresh(), NO_RESULT), estimate).state
            && resumed == |Adopters(open, book.entries)|)
      && forall o :: Alerted(alerts, o) <==>
           (exists i :: 0 <= i < |open| && open[i].order == o)
           && !(book.Book? && InBook(book.entries, o))
    ensures var open := OpenRows(rows, today);
      && (open != [] && !book.Book? ==> |alerts| == 1 && alerts[0].BookUnread?)
      && (open != [] && book.Book? ==>
            && AlertsShow(alerts, open, book.entries)
            && resumed + |Those(open, book.entries, Absent)| + |Those(open, book.entries, Repeated)|
               + |Those(open, book.entries, Changed)| == |open|)
    ensures var open := OpenRows(rows, today);
      open != [] && book.Book? && Distinct(open) ==>
        (AllPolledOrNamed(open, book.entries, alerts, adapter.Model()) <==> NoDup(Adopters(open, book.entries)))
  {
    var open: seq<Held> := [];
    var i := 0;
    while i < |rows|
      invariant 0 <= i <= |rows|
      invariant open + OpenRows(rows[i..], today) == OpenRows(rows, today)
    {
      if IsOpen(rows[i], today) {
        open := open + [HeldIn(rows[i])];
      }
      i := i + 1;
    }
    assert open == OpenRows(rows, today);
    alerts, resumed := [], 0;
    if open == [] {
      return;
    }
    var raised, result := adapter.ResumeOrders(open, book, estimate);
    if raised != Nothing {
      alerts := [BookUnread(OrderList(open))];
      UnreadNamesAll(open);
      return;
    }
    assert book.Book?;
    alerts := AlertsFor(result);
    resumed := |open| - |result.notFound| - |result.duplicated| - |result.mismatched|;
    ResumeTells(open, book.entries, estimate, result, resumed);
    if Distinct(open) {
      FoundArePolled(open, book.entries, Resumed(Fresh(), NO_RESULT), estimate);
      PolledOrNamed(open, book.entries, alerts, adapter.Model());
    }
  }

  lemma ResumeTells(open: seq<Held>, book: seq<Entry>, estimate: Estimate, result: ResumeResult, resumed: int)
    requires result == Resume(open, book, Resumed(Fresh(), NO_RESULT), estimate).result
    requires resumed == |open| - |result.notFound| - |result.duplicated| - |result.mismatched|
    ensures AlertsShow(AlertsFor(result), open, book) && resumed == |Adopters(open, book)|
    ensures resumed + |Those(open, book, Absent)| + |Those(open, book, Repeated)| + |Those(open, book, Changed)|
            == |open|
    ensures forall o :: Alerted(AlertsFor(result), o) <==>
              (exists i :: 0 <= i < |open| && open[i].order == o) && !InBook(book, o)
  {
    ResumeReports(open, book, Resumed(Fresh(), NO_RESULT), estimate);
    ResumePartitions(open, book);
    AlertsAreTheRest(open, book, result);
    AlertsCarry(result);
  }

  lemma PolledOrNamed(open: seq<Held>, book: seq<Entry>, alerts: seq<Alert>, s: State)
    requires forall o :: Alerted(alerts, o) <==>
               (exists i :: 0 <= i < |open| && open[i].order == o) && !InBook(book, o)
    ensures AllPolledOrNamed(open, book, alerts, s) <==> AllAsFound(open, book, s)
  {
    forall i | 0 <= i < |open|
      ensures Alerted(alerts, open[i].order) <==> !Find(book, open[i].order).Found?
    {
      FindMeans(book, open[i].order);
    }
  }

  function OrderList(open: seq<Held>): seq<Order> {
    seq(|open|, k requires 0 <= k < |open| => open[k].order)
  }

  lemma UnreadNamesAll(open: seq<Held>)
    ensures forall o :: Alerted([BookUnread(OrderList(open))], o) <==> exists i :: 0 <= i < |open| && open[i].order == o
  {
    var orders := OrderList(open);
    var alerts := [BookUnread(orders)];
    forall o
      ensures Alerted(alerts, o) <==> exists i :: 0 <= i < |open| && open[i].order == o
    {
      assert alerts[0].orders == orders;
      if i :| 0 <= i < |open| && open[i].order == o {
        assert orders[i] == o;
      }
    }
  }

  lemma AlertsAreTheRest(open: seq<Held>, book: seq<Entry>, r: ResumeResult)
    requires r == ResumeResult([] + Listed(open, book, Missing), [] + Listed(open, book, Twice),
                               [] + Listed(open, book, Elsewhere))
    ensures forall o :: Alerted(AlertsFor(r), o) <==>
              (exists i :: 0 <= i < |open| && open[i].order == o) && !InBook(book, o)
  {
    forall o
      ensures Alerted(AlertsFor(r), o) <==> (exists i :: 0 <= i < |open| && open[i].order == o) && !InBook(book, o)
    {
      FindMeans(book, o);
      AlertedIff(r, o);
      ListedIff(open, book, Missing, o);
      ListedIff(open, book, Twice, o);
      ListedIff(open, book, Elsewhere, o);
    }
  }
}
