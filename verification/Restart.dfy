/** Handing the day's open orders back to the adapter after a crash. */
module Restart {
  import opened InsertionDict
  import opened Orders
  import opened FillPoll
  import opened SweepLaws
  import opened BookLaws
  import opened World
  import opened WorldSteps

  /** The ledger still shows the order working: neither closed nor filled. */
  predicate StillOpen(l: Ledger, w: World, o: Order) {
    o in w.orders && o !in w.closed && QtyIn(l, o.cid) < o.quantity
  }

  /** `open` is every order the ledger shows working, once each, with the quantity and average price the
      ledger holds for it. */
  ghost predicate LedgerShows(l: Ledger, w: World, open: seq<Held>) {
    && (forall i :: 0 <= i < |open| ==>
          StillOpen(l, w, open[i].order) && Agrees(l, open[i].order.cid, open[i].filled, open[i].average))
    && (forall i, j :: 0 <= i < j < |open| ==> open[i].order != open[j].order)
    && (forall o :: StillOpen(l, w, o) ==> exists i :: 0 <= i < |open| && open[i].order == o)
  }

  function OrdersOf(open: seq<Held>): set<Order> {
    set i | 0 <= i < |open| :: open[i].order
  }

  /** With nothing polled yet, the open orders are all the ones not finished. */
  lemma FreshIsGood(l: Ledger, w: World, open: seq<Held>)
    requires Honest(w) && LedgerOk(l, w) && LedgerShows(l, w, open)
    ensures Good(Fresh(), l, w.(unpolled := OrdersOf(open)))
  {
    var w' := w.(unpolled := OrdersOf(open));
    assert OrdersOf(open) <= w.orders by {
      forall o | o in OrdersOf(open)
        ensures o in w.orders
      {
        var i :| 0 <= i < |open| && open[i].order == o;
      }
    }
    UnpolledIsAside(l, w, w');
    forall id | id in w'.broker
      ensures Accounted(Fresh(), l, w', id)
    {
      var b := w.broker[id];
      var m: nat :| IsPrefix(b.execs, m, QtyIn(l, b.order.cid), ValueIn(l, b.order.cid));
      var q, v := QtyIn(l, b.order.cid), ValueIn(l, b.order.cid);
      PrefixesCompare(b, m, q, v, m, q, v);
      if StillOpen(l, w, b.order) {
        var i :| 0 <= i < |open| && open[i].order == b.order;
      }
    }
  }

  /** Watching an order that nothing polled accounts for it. */
  lemma WatchingKeepsGood(s: State, l: Ledger, w: World, h: Held)
    requires Good(s, l, w) && h.order in w.unpolled && Agrees(l, h.order.cid, h.filled, h.average)
    requires Untracked(s, h.order.cid)
    ensures Good(s.(watch := Put(s.watch, h.order.cid, h)), l, w.(unpolled := w.unpolled - {h.order}))
  {
    var s' := s.(watch := Put(s.watch, h.order.cid, h));
    var w' := w.(unpolled := w.unpolled - {h.order});
    UnpolledIsAside(l, w, w');
    forall i | i in w'.broker
      ensures Accounted(s', l, w', i)
    {
      assert Accounted(s, l, w, i);
    }
  }

  ghost predicate Untracked(s: State, c: Cid) {
    && c !in s.unconfirmed.vals && c !in s.watch.vals
    && forall i :: i in s.pending.vals ==> s.pending.vals[i].order.cid != c
  }

  lemma CidDecides(w: World, o: Order, p: Order)
    requires Honest(w) && o in w.orders && p in w.orders && o.cid == p.cid
    ensures o == p
  {
  }

  /** A tracked order and one named in an alert are different, so the latter is tracked nowhere. */
  lemma UnpolledIsUntracked(s: State, w: World, o: Order)
    requires Honest(w) && OnePlace(s) && Mine(s, w) && o in w.unpolled
    ensures Untracked(s, o.cid)
  {
    assert o in w.orders;
    forall i | i in s.pending.vals
      ensures s.pending.vals[i].order.cid != o.cid
    {
      NotThisOne(w, i, o);
    }
    if o.cid in s.unconfirmed.vals {
      CidDecides(w, s.unconfirmed.vals[o.cid], o);
    }
    if o.cid in s.watch.vals {
      CidDecides(w, s.watch.vals[o.cid].order, o);
    }
  }

  lemma NotThisOne(w: World, i: BrokerId, o: Order)
    requires Honest(w) && i in w.broker && w.broker[i].order !in w.unpolled && o in w.unpolled
    ensures w.broker[i].order.cid != o.cid
  {
    if w.broker[i].order.cid == o.cid {
      CidDecides(w, w.broker[i].order, o);
    }
  }

  /** One order handed back: adopted under the broker's own id, watched, or left in the alert. */
  lemma TakeKeepsGood(h: Held, book: seq<Entry>, r: Resumed, estimate: Estimate, l: Ledger, w: World)
    requires Good(r.state, l, w) && TruthfulBook(book, w)
    requires h.order in w.unpolled && Agrees(l, h.order.cid, h.filled, h.average)
    ensures var f := Find(book, h.order);
      Good(Take(h, book, r, estimate).state, l,
           if f.Found? || f.Missing? then w.(unpolled := w.unpolled - {h.order}) else w)
  {
    var s, o := r.state, h.order;
    UnpolledIsUntracked(s, w, o);
    MatchesAreMine(book, o, w);
    match Find(book, o)
    case Found(id) =>
      var s' := Take(h, book, r, estimate).state;
      UntrackedKeys(s.unconfirmed.vals, o.cid);
      UntrackedKeys(s.watch.vals, o.cid);
      AdoptionKeepsGood(s, l, w, id, Adopt(h, estimate), s', w.(unpolled := w.unpolled - {o}));
    case Missing => WatchingKeepsGood(s, l, w, h);
    case _ =>
  }

  lemma TruthfulBookStays(book: seq<Entry>, w: World, w': World)
    requires TruthfulBook(book, w) && w' == w.(unpolled := w'.unpolled)
    ensures TruthfulBook(book, w')
  {
    forall i | 0 <= i < |book|
      ensures TruthfulEntry(book[i], w')
    {
      assert TruthfulEntry(book[i], w);
    }
  }

  predicate IsLeftOut(book: seq<Entry>, o: Order) {
    Find(book, o).Twice? || Find(book, o).Elsewhere?
  }

  /** The orders of `open` that the book shows twice, or only on another side or quantity. */
  function LeftOut(open: seq<Held>, book: seq<Entry>): set<Order> {
    set i | 0 <= i < |open| && IsLeftOut(book, open[i].order) :: open[i].order
  }

  ghost predicate Handed(open: seq<Held>, l: Ledger, w: World) {
    && (forall i :: 0 <= i < |open| ==>
          open[i].order in w.unpolled && Agrees(l, open[i].order.cid, open[i].filled, open[i].average))
    && (forall i, j :: 0 <= i < j < |open| ==> open[i].order != open[j].order)
  }

  lemma TakeStep(open: seq<Held>, book: seq<Entry>, r: Resumed, estimate: Estimate, l: Ledger, w: World)
    returns (v: Resumed, w1: World)
    requires open != [] && Good(r.state, l, w) && TruthfulBook(book, w) && Handed(open, l, w)
    ensures v == Take(open[0], book, r, estimate)
    ensures Good(v.state, l, w1) && TruthfulBook(book, w1) && Handed(open[1..], l, w1)
    ensures w1 == w.(unpolled := w1.unpolled)
    ensures Aside(open[1..], book, w1.unpolled) == Aside(open, book, w.unpolled)
  {
    var h := open[0];
    var f := Find(book, h.order);
    v := Take(h, book, r, estimate);
    w1 := if f.Found? || f.Missing? then w.(unpolled := w.unpolled - {h.order}) else w;
    TakeKeepsGood(h, book, r, estimate, l, w);
    TruthfulBookStays(book, w, w1);
    RestIsHanded(open, l, w, w1);
    AsideStays(open, book, w.unpolled, w1.unpolled);
  }

  /** The orders left unpolled once those of `open` have been taken. */
  function Aside(open: seq<Held>, book: seq<Entry>, unpolled: set<Order>): set<Order> {
    unpolled - OrdersOf(open) + LeftOut(open, book)
  }

  lemma AsideStays(open: seq<Held>, book: seq<Entry>, before: set<Order>, after: set<Order>)
    requires open != [] && forall i, j :: 0 <= i < j < |open| ==> open[i].order != open[j].order
    requires var f := Find(book, open[0].order);
      after == if f.Found? || f.Missing? then before - {open[0].order} else before
    requires open[0].order in before
    ensures Aside(open[1..], book, after) == Aside(open, book, before)
  {
    SplitOpen(open, book);
  }

  lemma RestIsHanded(open: seq<Held>, l: Ledger, w: World, w1: World)
    requires open != [] && Handed(open, l, w) && w.unpolled - {open[0].order} <= w1.unpolled
    ensures Handed(open[1..], l, w1)
  {
    var rest := open[1..];
    forall i | 0 <= i < |rest|
      ensures rest[i].order in w1.unpolled && Agrees(l, rest[i].order.cid, rest[i].filled, rest[i].average)
    {
      assert rest[i] == open[i + 1] && open[0].order != open[i + 1].order;
    }
  }

  /** Resuming accounts for every open order: afterwards only those the book shows twice, or changed, are
      left to the alerts. */
  lemma {:induction false} ResumeKeepsGood(open: seq<Held>, book: seq<Entry>, r: Resumed, estimate: Estimate,
                                            l: Ledger, w: World)
    requires Good(r.state, l, w) && TruthfulBook(book, w) && Handed(open, l, w)
    ensures Good(Resume(open, book, r, estimate).state, l,
                 w.(unpolled := Aside(open, book, w.unpolled)))
    decreases |open|
  {
    if open == [] {
      assert Aside(open, book, w.unpolled) == w.unpolled;
      assert w.(unpolled := w.unpolled) == w;
    } else {
      var v, w1 := TakeStep(open, book, r, estimate, l, w);
      ResumeKeepsGood(open[1..], book, v, estimate, l, w1);
    }
  }

  lemma SplitOpen(open: seq<Held>, book: seq<Entry>)
    requires open != []
    requires forall i, j :: 0 <= i < j < |open| ==> open[i].order != open[j].order
    ensures open[0].order !in OrdersOf(open[1..])
    ensures OrdersOf(open) == {open[0].order} + OrdersOf(open[1..])
    ensures var f := Find(book, open[0].order);
      LeftOut(open, book) == (if f.Twice? || f.Elsewhere? then {open[0].order} else {}) + LeftOut(open[1..], book)
    ensures LeftOut(open[1..], book) <= OrdersOf(open[1..])
  {
    var rest := open[1..];
    assert forall i :: 0 <= i < |rest| ==> rest[i] == open[i + 1];
    forall i | 0 < i < |open|
      ensures open[i] == rest[i - 1]
    {
    }
    forall o | o in OrdersOf(open)
      ensures o in {open[0].order} + OrdersOf(rest)
    {
      var i :| 0 <= i < |open| && open[i].order == o;
      assert i > 0 ==> rest[i - 1].order == o;
    }
    forall o | o in LeftOut(open, book) && o != open[0].order
      ensures o in LeftOut(rest, book)
    {
      var i :| 0 <= i < |open| && IsLeftOut(book, open[i].order) && open[i].order == o;
      assert rest[i - 1].order == o;
    }
  }

  // ---- resume is a partition

  /** The orders found a given way, in the order they were handed back. */
  function Listed(open: seq<Held>, book: seq<Entry>, how: Finding): seq<Order> {
    if open == [] then []
    else if Find(book, open[0].order) == how then [open[0].order] + Listed(open[1..], book, how)
    else Listed(open[1..], book, how)
  }

  /** The broker ids adopted. */
  function Adopters(open: seq<Held>, book: seq<Entry>): seq<BrokerId> {
    if open == [] then []
    else
      var f := Find(book, open[0].order);
      if f.Found? then [f.id] + Adopters(open[1..], book) else Adopters(open[1..], book)
  }

  /** For any book, what resuming reports is exactly what it did not adopt, each order once, in order. */
  lemma {:induction false} ResumeReports(open: seq<Held>, book: seq<Entry>, r: Resumed, estimate: Estimate)
    ensures Resume(open, book, r, estimate).result == ResumeResult(
              r.result.notFound + Listed(open, book, Missing),
              r.result.duplicated + Listed(open, book, Twice),
              r.result.mismatched + Listed(open, book, Elsewhere))
    ensures Listed(open, book, Missing) == Those(open, book, Absent)
    ensures Listed(open, book, Twice) == Those(open, book, Repeated)
    ensures Listed(open, book, Elsewhere) == Those(open, book, Changed)
    decreases |open|
  {
    if open != [] {
      var o, rest := open[0].order, open[1..];
      OneMore(r.result.notFound, o, Listed(rest, book, Missing));
      OneMore(r.result.duplicated, o, Listed(rest, book, Twice));
      OneMore(r.result.mismatched, o, Listed(rest, book, Elsewhere));
      FindMeans(book, o);
      ResumeReports(rest, book, Take(open[0], book, r, estimate), estimate);
    }
  }

  /** Adopted, not found, duplicated and mismatched together are all the orders handed back. */
  lemma {:induction false} ResumePartitions(open: seq<Held>, book: seq<Entry>)
    ensures |Adopters(open, book)| + |Listed(open, book, Missing)| + |Listed(open, book, Twice)|
            + |Listed(open, book, Elsewhere)| == |open|
  {
    if open != [] {
      ResumePartitions(open[1..], book);
    }
  }

  function AddAll(keys: seq<BrokerId>, ids: seq<BrokerId>): seq<BrokerId>
    decreases |ids|
  {
    if ids == [] then keys
    else AddAll(if ids[0] in keys then keys else keys + [ids[0]], ids[1..])
  }

  lemma {:induction false} ResumeAdds(open: seq<Held>, book: seq<Entry>, r: Resumed, estimate: Estimate)
    ensures Resume(open, book, r, estimate).state.pending.keys == AddAll(r.state.pending.keys, Adopters(open, book))
    decreases |open|
  {
    if open != [] {
      var f := Find(book, open[0].order);
      var v := Take(open[0], book, r, estimate);
      ResumeAdds(open[1..], book, v, estimate);
      if f.Found? {
        KeysAndValues(r.state.pending, f.id);
        assert ([f.id] + Adopters(open[1..], book))[1..] == Adopters(open[1..], book);
      } else {
        assert [] + Adopters(open[1..], book) == Adopters(open[1..], book);
      }
    }
  }

  lemma {:induction false} AddAllCounts(keys: seq<BrokerId>, ids: seq<BrokerId>)
    ensures |keys| <= |AddAll(keys, ids)| <= |keys| + |ids|
    ensures |AddAll(keys, ids)| == |keys| + |ids| <==> NoDup(ids) && forall id :: id in ids ==> id !in keys
    decreases |ids|
  {
    if ids != [] {
      var rest := ids[1..];
      AddAllCounts(if ids[0] in keys then keys else keys + [ids[0]], rest);
      assert forall id :: id in ids <==> id == ids[0] || id in rest;
    }
  }

  /** `fno_runner` reports as resumed every order not in one of the three lists. After a restart that is
      the number of orders now polled exactly when no broker id was adopted for two of them. */
  lemma ResumedCountIsExact(open: seq<Held>, book: seq<Entry>, estimate: Estimate)
    ensures var v := Resume(open, book, Resumed(Fresh(), NO_RESULT), estimate);
      |v.state.pending.keys| == |open| - |v.result.notFound| - |v.result.duplicated| - |v.result.mismatched|
      <==> NoDup(Adopters(open, book))
  {
    ResumeReports(open, book, Resumed(Fresh(), NO_RESULT), estimate);
    ResumePartitions(open, book);
    ResumeAdds(open, book, Resumed(Fresh(), NO_RESULT), estimate);
    AddAllCounts([], Adopters(open, book));
  }

  // ---- whether an adopted order is polled as itself

  /** The order was found in the book, and is polled under the id found. */
  ghost predicate PolledAsFound(s: State, book: seq<Entry>, o: Order) {
    var f := Find(book, o);
    f.Found? && f.id in s.pending.vals && s.pending.vals[f.id].order == o
  }

  ghost predicate AllAsFound(open: seq<Held>, book: seq<Entry>, s: State) {
    forall i :: 0 <= i < |open| && Find(book, open[i].order).Found? ==> PolledAsFound(s, book, open[i].order)
  }

  ghost predicate Distinct(open: seq<Held>) {
    forall i, j :: 0 <= i < j < |open| ==> open[i].order != open[j].order
  }

  /** An entry under an id that none of the orders is found under stays. */
  lemma {:induction false} OthersEntryStays(open: seq<Held>, book: seq<Entry>, r: Resumed, estimate: Estimate,
                                             id: BrokerId)
    requires id in r.state.pending.vals && id !in Adopters(open, book)
    ensures var z := Resume(open, book, r, estimate).state.pending.vals;
      id in z && z[id] == r.state.pending.vals[id]
    decreases |open|
  {
    if open != [] {
      OthersEntryStays(open[1..], book, Take(open[0], book, r, estimate), estimate, id);
    }
  }

  /** Under an adopted id, one of the orders found under it is polled. */
  lemma {:induction false} AdoptedIsSome(open: seq<Held>, book: seq<Entry>, r: Resumed, estimate: Estimate,
                                          id: BrokerId)
    returns (k: nat)
    requires id in Adopters(open, book)
    ensures k < |open| && Find(book, open[k].order) == Found(id)
    ensures PolledAsFound(Resume(open, book, r, estimate).state, book, open[k].order)
    decreases |open|
  {
    var rest, v := open[1..], Take(open[0], book, r, estimate);
    if id in Adopters(rest, book) {
      k := AdoptedIsSome(rest, book, v, estimate, id);
      assert rest[k] == open[k + 1];
      k := k + 1;
    } else {
      k := 0;
      OthersEntryStays(rest, book, v, estimate, id);
    }
  }

  lemma AllAsFoundSplits(open: seq<Held>, book: seq<Entry>, s: State)
    requires open != []
    ensures AllAsFound(open, book, s) <==>
            (Find(book, open[0].order).Found? ==> PolledAsFound(s, book, open[0].order))
            && AllAsFound(open[1..], book, s)
  {
    assert forall i :: 0 <= i < |open[1..]| ==> open[1..][i] == open[i + 1];
    assert forall i :: 0 < i < |open| ==> open[i] == open[1..][i - 1];
  }

  /** Distinct orders that are found are all polled as themselves exactly when no broker id is found for two
      of them. */
  lemma {:induction false} FoundArePolled(open: seq<Held>, book: seq<Entry>, r: Resumed, estimate: Estimate)
    requires Distinct(open)
    ensures AllAsFound(open, book, Resume(open, book, r, estimate).state) <==> NoDup(Adopters(open, book))
    decreases |open|
  {
    if open != [] {
      var rest, f, v := open[1..], Find(book, open[0].order), Take(open[0], book, r, estimate);
      assert forall i :: 0 <= i < |rest| ==> rest[i] == open[i + 1];
      FoundArePolled(rest, book, v, estimate);
      AllAsFoundSplits(open, book, Resume(open, book, r, estimate).state);
      if f.Found? {
        assert ([f.id] + Adopters(rest, book))[1..] == Adopters(rest, book);
        FirstAsFound(open, book, r, estimate, f.id);
      }
    }
  }

  lemma FirstAsFound(open: seq<Held>, book: seq<Entry>, r: Resumed, estimate: Estimate, id: BrokerId)
    requires Distinct(open) && open != [] && Find(book, open[0].order) == Found(id)
    ensures PolledAsFound(Resume(open, book, r, estimate).state, book, open[0].order) <==>
            id !in Adopters(open[1..], book)
  {
    var rest, v := open[1..], Take(open[0], book, r, estimate);
    if id in Adopters(rest, book) {
      var k := AdoptedIsSome(rest, book, v, estimate, id);
      assert rest[k] == open[k + 1];
    } else {
      OthersEntryStays(rest, book, v, estimate, id);
    }
  }

  /** One order of a pair sharing tag, side and quantity takes the other's place: one is polled, two are
      reported as resumed, and neither is in any list. */
  lemma TwinsAreMiscounted(o: Order, p: Order, id: BrokerId, estimate: Estimate)
    requires o != p && SameTriple(o, p)
    ensures var book := [Entry(Some(o.tag), Some(id), Some(o.side), Some(o.quantity))];
      var v := Resume([Held(o, 0, 0.0), Held(p, 0, 0.0)], book, Resumed(Fresh(), NO_RESULT), estimate);
      v.result == NO_RESULT && v.state.pending.keys == [id] && v.state.pending.vals[id].order == p
  {
    var book := [Entry(Some(o.tag), Some(id), Some(o.side), Some(o.quantity))];
    assert book[1..] == [];
    assert Matches(book, o) == [id] + Matches([], o) && Matches(book, p) == [id] + Matches([], p);
    assert Matches(book, o) == [id] && Matches(book, p) == [id];
    var r := Take(Held(o, 0, 0.0), book, Resumed(Fresh(), NO_RESULT), estimate);
    assert [Held(o, 0, 0.0), Held(p, 0, 0.0)][1..] == [Held(p, 0, 0.0)];
    assert Resume([Held(p, 0, 0.0)], book, r, estimate) == Take(Held(p, 0, 0.0), book, r, estimate);
  }

  /** With an honest book and distinct orders, no broker id is adopted twice. */
  lemma {:induction false} HonestAdoptersDiffer(open: seq<Held>, book: seq<Entry>, w: World)
    requires Honest(w) && TruthfulBook(book, w)
    requires forall i :: 0 <= i < |open| ==> open[i].order in w.orders
    requires forall i, j :: 0 <= i < j < |open| ==> open[i].order != open[j].order
    ensures NoDup(Adopters(open, book))
    ensures forall id :: id in Adopters(open, book) ==>
              id in w.broker && exists i :: 0 <= i < |open| && open[i].order == w.broker[id].order
  {
    if open != [] {
      var rest, f := open[1..], Find(book, open[0].order);
      assert forall i :: 0 <= i < |rest| ==> rest[i] == open[i + 1];
      HonestAdoptersDiffer(rest, book, w);
      MatchesAreMine(book, open[0].order, w);
      var tail := Adopters(rest, book);
      forall id | id in tail
        ensures exists i :: 0 <= i < |open| && open[i].order == w.broker[id].order
        ensures f.Found? ==> id != f.id
      {
        var i :| 0 <= i < |rest| && rest[i].order == w.broker[id].order;
        assert open[i + 1].order == w.broker[id].order;
      }
      if f.Found? {
        assert ([f.id] + tail)[1..] == tail;
      } else {
        assert [] + tail == tail;
      }
    }
  }
}
