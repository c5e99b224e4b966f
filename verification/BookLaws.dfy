/** What an order book shows of an order, over the book's own entries. */
module BookLaws {
  import opened Orders
  import opened FillPoll

  /** The entry has an order id and carries the order's tag. */
  predicate Tagged(e: Entry, o: Order) {
    e.id.Some? && e.tag == Some(o.tag)
  }

  /** And is on its side, for its quantity. */
  predicate Shows(e: Entry, o: Order) {
    Tagged(e, o) && e.side == Some(o.side) && e.quantity == Some(o.quantity)
  }

  predicate ShownAt(book: seq<Entry>, o: Order, i: int) {
    0 <= i < |book| && Shows(book[i], o)
  }

  predicate Untagged(book: seq<Entry>, o: Order) {
    forall i :: 0 <= i < |book| ==> !Tagged(book[i], o)
  }

  predicate Unshown(book: seq<Entry>, o: Order) {
    forall i :: 0 <= i < |book| ==> !Shows(book[i], o)
  }

  ghost predicate ShownTwice(book: seq<Entry>, o: Order) {
    exists i, j :: i < j && ShownAt(book, o, i) && ShownAt(book, o, j)
  }

  /** The entry at `i` is the only one that shows the order. */
  ghost predicate OnlyAt(book: seq<Entry>, o: Order, i: int) {
    ShownAt(book, o, i) && forall j :: ShownAt(book, o, j) ==> j == i
  }

  /** The book shows the order exactly once, under `id`. */
  ghost predicate ShownOnce(book: seq<Entry>, o: Order, id: BrokerId) {
    exists i :: OnlyAt(book, o, i) && book[i].id == Some(id)
  }

  // ---- the matches of an order

  lemma RestShows(book: seq<Entry>, o: Order)
    requires book != []
    ensures forall i :: ShownAt(book[1..], o, i) <==> i >= 0 && ShownAt(book, o, i + 1)
  {
    assert forall i :: 0 <= i < |book[1..]| ==> book[1..][i] == book[i + 1];
  }

  lemma {:induction false} NoMatch(book: seq<Entry>, o: Order)
    ensures Matches(book, o) == [] <==> Unshown(book, o)
  {
    if book != [] {
      var rest := book[1..];
      NoMatch(rest, o);
      assert forall i :: 0 <= i < |rest| ==> rest[i] == book[i + 1];
      assert forall i :: 0 < i < |book| ==> book[i] == rest[i - 1];
    }
  }

  lemma {:induction false} NoMismatch(book: seq<Entry>, o: Order)
    ensures Mismatches(book, o) == [] <==> forall i :: 0 <= i < |book| && Tagged(book[i], o) ==> Shows(book[i], o)
  {
    if book != [] {
      var rest := book[1..];
      NoMismatch(rest, o);
      assert forall i :: 0 <= i < |rest| ==> rest[i] == book[i + 1];
      assert forall i :: 0 < i < |book| ==> book[i] == rest[i - 1];
    }
  }

  lemma {:induction false} OnlyMatch(book: seq<Entry>, o: Order, i: int)
    requires OnlyAt(book, o, i)
    ensures Matches(book, o) == [book[i].id.value]
    decreases |book|
  {
    var rest := book[1..];
    RestShows(book, o);
    if i == 0 {
      forall k | 0 <= k < |rest|
        ensures !Shows(rest[k], o)
      {
        assert !ShownAt(book, o, k + 1);
      }
      NoMatch(rest, o);
    } else {
      assert !ShownAt(book, o, 0);
      assert ShownAt(rest, o, i - 1);
      OnlyMatch(rest, o, i - 1);
    }
  }

  lemma {:induction false} OneMatch(book: seq<Entry>, o: Order) returns (i: int)
    requires |Matches(book, o)| == 1
    ensures OnlyAt(book, o, i)
  {
    var rest := book[1..];
    RestShows(book, o);
    if Shows(book[0], o) {
      i := 0;
      NoMatch(rest, o);
      forall j | ShownAt(book, o, j)
        ensures j == 0
      {
        assert j > 0 ==> ShownAt(rest, o, j - 1);
      }
    } else {
      i := OneMatch(rest, o);
      i := i + 1;
      forall j | ShownAt(book, o, j)
        ensures j == i
      {
        assert ShownAt(rest, o, j - 1);
      }
    }
  }

  /** The number of matches, over the entries. */
  lemma MatchesMean(book: seq<Entry>, o: Order)
    ensures |Matches(book, o)| == 0 <==> Unshown(book, o)
    ensures |Matches(book, o)| > 1 <==> ShownTwice(book, o)
    ensures forall id :: Matches(book, o) == [id] <==> ShownOnce(book, o, id)
  {
    NoMatch(book, o);
    if |Matches(book, o)| == 1 {
      var i := OneMatch(book, o);
      OnlyMatch(book, o, i);
    }
    if i :| OnlyAt(book, o, i) {
      OnlyMatch(book, o, i);
    } else if !Unshown(book, o) {
      var i :| 0 <= i < |book| && Shows(book[i], o);
      assert ShownAt(book, o, i) && !OnlyAt(book, o, i);
      var j :| ShownAt(book, o, j) && j != i;
      assert if i < j then i < j && ShownAt(book, o, i) && ShownAt(book, o, j)
             else j < i && ShownAt(book, o, j) && ShownAt(book, o, i);
    }
  }

  /** What a restart makes of an order: absent when no entry carries its tag, changed when some do but none on its
      side for its quantity, and otherwise found once or several times. */
  lemma FindMeans(book: seq<Entry>, o: Order)
    ensures Find(book, o).Missing? <==> Untagged(book, o)
    ensures Find(book, o).Elsewhere? <==> !Untagged(book, o) && Unshown(book, o)
    ensures Find(book, o).Twice? <==> ShownTwice(book, o)
    ensures forall id :: Find(book, o) == Found(id) <==> ShownOnce(book, o, id)
  {
    MatchesMean(book, o);
    NoMismatch(book, o);
  }

  // ---- what a restart reports

  datatype Showing = Absent | Changed | Repeated

  ghost predicate Appears(book: seq<Entry>, o: Order, how: Showing) {
    match how
    case Absent => Untagged(book, o)
    case Changed => !Untagged(book, o) && Unshown(book, o)
    case Repeated => ShownTwice(book, o)
  }

  /** The orders the book shows a given way, in the order they were handed back. */
  ghost function Those(open: seq<Held>, book: seq<Entry>, how: Showing): seq<Order> {
    if open == [] then []
    else if Appears(book, open[0].order, how) then [open[0].order] + Those(open[1..], book, how)
    else Those(open[1..], book, how)
  }

  lemma OneMore<T>(a: seq<T>, x: T, b: seq<T>)
    ensures a + [x] + b == a + ([x] + b)
    ensures a + b == a + ([] + b)
  {
  }

  /** What resuming reports, for any book: exactly the absent, the repeated and the changed orders. */
  lemma {:induction false} ResumeShows(open: seq<Held>, book: seq<Entry>, r: Resumed, estimate: Estimate)
    ensures Resume(open, book, r, estimate).result == ResumeResult(
              r.result.notFound + Those(open, book, Absent),
              r.result.duplicated + Those(open, book, Repeated),
              r.result.mismatched + Those(open, book, Changed))
    decreases |open|
  {
    if open != [] {
      var o, rest := open[0].order, open[1..];
      FindMeans(book, o);
      OneMore(r.result.notFound, o, Those(rest, book, Absent));
      OneMore(r.result.duplicated, o, Those(rest, book, Repeated));
      OneMore(r.result.mismatched, o, Those(rest, book, Changed));
      ResumeShows(rest, book, Take(open[0], book, r, estimate), estimate);
    }
  }

  /** And what it watches, besides those already watched: exactly the absent orders, as the ledger holds them. */
  lemma {:induction false} AbsentAreWatched(open: seq<Held>, book: seq<Entry>, r: Resumed, estimate: Estimate, c: Cid)
    ensures var w := Resume(open, book, r, estimate).state.watch.vals;
      && (c in w <==> c in r.state.watch.vals || exists i :: AbsentAt(open, book, c, i))
      && (c in w ==>
            || (c in r.state.watch.vals && w[c] == r.state.watch.vals[c])
            || exists i :: AbsentAt(open, book, c, i) && w[c] == open[i])
    decreases |open|
  {
    if open != [] {
      var rest := open[1..];
      var v := Take(open[0], book, r, estimate);
      FindMeans(book, open[0].order);
      AbsentAreWatched(rest, book, v, estimate, c);
      assert forall i :: 0 <= i < |rest| ==> rest[i] == open[i + 1];
      assert forall i :: AbsentAt(rest, book, c, i) ==> AbsentAt(open, book, c, i + 1);
      assert forall i :: AbsentAt(open, book, c, i) && i > 0 ==> AbsentAt(rest, book, c, i - 1);
      assert c in v.state.watch.vals && !(c in r.state.watch.vals && v.state.watch.vals[c] == r.state.watch.vals[c])
             ==> AbsentAt(open, book, c, 0);
      var w := Resume(open, book, r, estimate).state.watch.vals;
      if i :| AbsentAt(rest, book, c, i) && c in w && w[c] == rest[i] {
        assert AbsentAt(open, book, c, i + 1) && w[c] == open[i + 1];
      }
    }
  }

  ghost predicate AbsentAt(open: seq<Held>, book: seq<Entry>, c: Cid, i: int) {
    0 <= i < |open| && open[i].order.cid == c && Untagged(book, open[i].order)
  }

  // ---- what a restart polls

  /** The fee an adopted order starts with: the model's charge for what the ledger holds, nothing if there is nothing
      or the model fails. */
  predicate SeedFee(h: Held, estimate: Estimate, fee: real) {
    var charge := estimate(h.order.(quantity := h.filled), h.average);
    fee == if h.filled <= 0 || charge.None? then 0.0 else charge.value
  }

  lemma AdoptMeans(h: Held, estimate: Estimate) returns (fee: real)
    ensures SeedFee(h, estimate, fee) && Adopt(h, estimate) == Tracked(h.order, h.filled, h.average, fee)
  {
    fee := Adopt(h, estimate).fee;
  }

  /** An order is polled again from what the ledger held. */
  predicate TakenBack(h: Held, estimate: Estimate, t: Tracked) {
    t.order == h.order && t.filled == h.filled && t.average == h.average && SeedFee(h, estimate, t.fee)
  }

  ghost predicate ShownUnder(open: seq<Held>, book: seq<Entry>, id: BrokerId, i: int) {
    0 <= i < |open| && ShownOnce(book, open[i].order, id)
  }

  ghost predicate LastUnder(open: seq<Held>, book: seq<Entry>, id: BrokerId, i: int) {
    ShownUnder(open, book, id, i) && forall j :: ShownUnder(open, book, id, j) ==> j <= i
  }

  /** An id is polled after a resume if it was before, or the book shows one of the orders once, under it: the last of
      these, taken back from what the ledger held. */
  lemma {:induction false} ShownArePolled(open: seq<Held>, book: seq<Entry>, r: Resumed, estimate: Estimate,
                                          id: BrokerId)
    ensures var p := Resume(open, book, r, estimate).state.pending.vals;
      && (id in p <==> id in r.state.pending.vals || exists i :: ShownUnder(open, book, id, i))
      && (forall i :: LastUnder(open, book, id, i) ==> id in p && TakenBack(open[i], estimate, p[id]))
      && (id in p && !(exists i :: ShownUnder(open, book, id, i)) ==>
            id in r.state.pending.vals && p[id] == r.state.pending.vals[id])
    decreases |open|
  {
    if open != [] {
      var rest, v := open[1..], Take(open[0], book, r, estimate);
      FindMeans(book, open[0].order);
      ShownArePolled(rest, book, v, estimate, id);
      UnderRest(open, book, id);
      var fee := AdoptMeans(open[0], estimate);
    }
  }

  lemma UnderRest(open: seq<Held>, book: seq<Entry>, id: BrokerId)
    requires open != []
    ensures forall i :: i > 0 ==> (ShownUnder(open, book, id, i) <==> ShownUnder(open[1..], book, id, i - 1))
    ensures (exists i :: ShownUnder(open, book, id, i)) <==>
            ShownOnce(book, open[0].order, id) || exists i :: ShownUnder(open[1..], book, id, i)
    ensures forall i :: i > 0 && LastUnder(open, book, id, i) ==> LastUnder(open[1..], book, id, i - 1)
    ensures LastUnder(open, book, id, 0) ==> !exists i :: ShownUnder(open[1..], book, id, i)
  {
    var rest := open[1..];
    assert forall i :: 0 < i < |open| ==> open[i] == rest[i - 1];
    forall i | ShownUnder(rest, book, id, i)
      ensures ShownUnder(open, book, id, i + 1)
    {
      assert open[i + 1] == rest[i];
    }
    if ShownOnce(book, open[0].order, id) {
      assert ShownUnder(open, book, id, 0);
    }
    forall i | i > 0 && ShownUnder(open, book, id, i)
      ensures ShownUnder(rest, book, id, i - 1)
    {
      assert open[i] == rest[i - 1];
    }
  }
}
