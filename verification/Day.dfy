/** One day on which all of it happens: a partial fill booked by a poll that dies, a restart, and the rest. */
module Day {
  import opened InsertionDict
  import opened Orders
  import opened Requests
  import opened FillPoll
  import opened SweepLaws
  import opened PollLaws
  import opened World
  import opened WorldSteps
  import opened Restart
  import opened Runs

  const O := Order(Cid("c"), "NIFTY", Tag("t"), Buy, 5)
  const ID := BrokerId("7")
  const NO_FEE: Estimate := (o: Order, p: real) => Some(0.0)
  const BOOK := [Entry(Some(O.tag), Some(ID), Some(Buy), Some(5))]

  /** Upstox answers every order with the same details. */
  function Answering(filled: real, average: real, status: Status): Env {
    Env(0.0, BookUnreachable, id => Details(Number(filled), Number(average), Some(status)), NO_FEE)
  }

  const PARTLY := Answering(2.0, 10.0, Status.Open)
  const WHOLLY := Answering(5.0, 16.0, Status.Filled)

  ghost predicate Polling(s: State, t: Tracked) {
    s.pending.keys == [ID] && s.pending.vals == map[ID := t]
    && s.unconfirmed == Empty() && s.watch == Empty()
  }

  lemma PollOfOne(s: State, t: Tracked, env: Env)
    requires Polling(s, t)
    ensures var p := PollOrder(ID, t, env.wire(ID), env.estimate);
      var r := Run(s.pending, [], [], [], [], [], Going);
      PollFills(s, env) == FinishPoll(Prelude(s, [], [], false), Apply(r, ID, 0, p))
  {
    var p := LookUp(s, env);
    PendingCanSweep(s.pending, StartRun(p));
    SweepTurn([ID], 0, StartRun(p), env);
    assert [ID][0..] == [ID] && [ID][1..] == [];
  }

  lemma PartlyFilled(s: State)
    requires Polling(s, Tracked(O, 0, 0.0, 0.0))
    ensures var fill := Fill(FillId(ID, 2), O.cid, O.symbol, 2, 10.0, Buy, 0.0);
      PollFills(s, PARTLY).fills == [fill]
  {
    PollOfOne(s, Tracked(O, 0, 0.0, 0.0), PARTLY);
  }

  lemma WhollyFilled(s: State)
    requires Polling(s, Tracked(O, 2, 10.0, 0.0))
    ensures var fill := Fill(FillId(ID, 5), O.cid, O.symbol, 3, 20.0, Buy, 0.0);
      var p := PollFills(s, WHOLLY);
      p.fills == [fill] && p.raised == Nothing && p.state.pending.keys == []
  {
    PollOfOne(s, Tracked(O, 2, 10.0, 0.0), WHOLLY);
  }

  // ---- the day

  const FIRST := Exec(2, 10.0)
  const SECOND := Exec(3, 20.0)
  const NEW := Tracked(O, 0, 0.0, 0.0)
  const PART := Tracked(O, 2, 10.0, 0.0)
  const PART_LEDGER := Ledger(map[O.cid := 2], map[O.cid := 20.0], map[FillId(ID, 2) := O.cid])
  const FULL_LEDGER :=
    Ledger(map[O.cid := 5], map[O.cid := 80.0], map[FillId(ID, 2) := O.cid, FillId(ID, 5) := O.cid])

  const PLACING := Event.Place(O, Body(Success(Some([TextId("7")]))), Some(ID), false)
  const CRASHING := CrashAndRestart(PARTLY, 1, [Held(O, 2, 10.0)], Book(BOOK), NO_FEE)

  // The day's events, the last first.
  const LAST := [PollOnce(WHOLLY, {})] + []
  const ENDING := [End(ID, Status.Filled)] + LAST
  const FILLING := [Execute(ID, SECOND)] + ENDING
  const RESTARTING := [CRASHING] + FILLING
  const STARTING := [Execute(ID, FIRST)] + RESTARTING
  const WHOLE_DAY := [PLACING] + STARTING

  ghost predicate At(y: System, t: Tracked, l: Ledger, b: BrokerOrder) {
    Polling(y.state, t) && y.ledger == l && y.world == World({O}, map[ID := b], {}, {})
  }

  lemma ItIsPlaced()
    ensures Enabled(DAY_START, PLACING) && At(Next(DAY_START, PLACING), NEW, EMPTY_LEDGER, BrokerOrder(O, [], None))
  {
    assert PlacedIds(Some([TextId("7")])) == [ID];
  }

  lemma ItFills(y: System, t: Tracked, l: Ledger, execs: seq<Exec>, x: Exec)
    requires At(y, t, l, BrokerOrder(O, execs, None)) && x.quantity > 0 && x.price > 0.0
    requires SumQ(execs) + x.quantity <= 5
    ensures Enabled(y, Execute(ID, x)) && At(Next(y, Execute(ID, x)), t, l, BrokerOrder(O, execs + [x], None))
  {
  }

  lemma SumsOfTwo()
    ensures SumQ([FIRST]) == 2 && SumV([FIRST]) == 20.0
    ensures SumQ([FIRST] + [SECOND]) == 5 && SumV([FIRST] + [SECOND]) == 80.0
  {
    assert [FIRST][..0] == [];
    assert ([FIRST] + [SECOND])[..1] == [FIRST];
  }

  lemma PartlyIsTrue()
    ensures Truthful(PARTLY.wire(ID), BrokerOrder(O, [FIRST], None))
  {
    SumsOfTwo();
    assert [FIRST][..1] == [FIRST];
    assert IsPrefix([FIRST], 1, 2, 20.0);
  }

  lemma WhollyIsTrue()
    ensures Truthful(WHOLLY.wire(ID), BrokerOrder(O, [FIRST] + [SECOND], Some(Status.Filled)))
  {
    SumsOfTwo();
    assert ([FIRST] + [SECOND])[..2] == [FIRST] + [SECOND];
    assert IsPrefix([FIRST] + [SECOND], 2, 5, 80.0);
  }

  /** The poll's fill is booked, the process dies before the poll ends, and a new one resumes the order. */
  lemma ItCrashes(y: System)
    requires At(y, NEW, EMPTY_LEDGER, BrokerOrder(O, [FIRST], None))
    ensures Enabled(y, CRASHING) && At(Next(y, CRASHING), PART, PART_LEDGER, BrokerOrder(O, [FIRST], None))
  {
    PartlyIsTrue();
    PartlyFilled(y.state);
    var fills := PollFills(y.state, PARTLY).fills;
    assert fills[..1] == [] + [fills[0]];
    PostOne(y.ledger, [], fills[0]);
    assert Post(y.ledger, fills[..1]) == PART_LEDGER;
    ItResumes(y.world);
  }

  lemma ItResumes(w: World)
    requires w == World({O}, map[ID := BrokerOrder(O, [FIRST], None)], {}, {})
    ensures TruthfulBook(BOOK, w) && LedgerShows(PART_LEDGER, w, [Held(O, 2, 10.0)])
    ensures LeftOut([Held(O, 2, 10.0)], BOOK) == {}
    ensures Polling(Resume([Held(O, 2, 10.0)], BOOK, Resumed(Fresh(), NO_RESULT), NO_FEE).state, PART)
  {
    assert BOOK[1..] == [] && Matches(BOOK, O) == [ID] + Matches([], O);
    assert [Held(O, 2, 10.0)][1..] == [];
    assert [Held(O, 2, 10.0)][0].order == O;
  }

  lemma ItEnds(y: System)
    requires At(y, PART, PART_LEDGER, BrokerOrder(O, [FIRST] + [SECOND], None))
    ensures Enabled(y, End(ID, Status.Filled))
    ensures At(Next(y, End(ID, Status.Filled)), PART, PART_LEDGER,
               BrokerOrder(O, [FIRST] + [SECOND], Some(Status.Filled)))
  {
    SumsOfTwo();
  }

  lemma ItIsBooked(y: System)
    requires At(y, PART, PART_LEDGER, BrokerOrder(O, [FIRST] + [SECOND], Some(Status.Filled)))
    ensures Enabled(y, PollOnce(WHOLLY, {}))
    ensures var z := Next(y, PollOnce(WHOLLY, {})); z.state.pending.keys == [] && z.ledger == FULL_LEDGER
  {
    WhollyIsTrue();
    WhollyFilled(y.state);
    PostTheRest(PollFills(y.state, WHOLLY).fills);
  }

  lemma PostTheRest(fills: seq<Fill>)
    requires fills == [Fill(FillId(ID, 5), O.cid, O.symbol, 3, 20.0, Buy, 0.0)]
    ensures Post(PART_LEDGER, fills) == FULL_LEDGER
  {
    assert fills == [] + [fills[0]];
    PostOne(PART_LEDGER, [], fills[0]);
  }

  lemma RunCons(y: System, e: Event, rest: seq<Event>)
    requires Enabled(y, e)
    ensures Possible(y, [e] + rest) <==> Possible(Next(y, e), rest)
    ensures Possible(Next(y, e), rest) ==> After(y, [e] + rest) == After(Next(y, e), rest)
  {
    assert ([e] + rest)[1..] == rest;
  }

  ghost predicate EndsBooked(y: System, run: seq<Event>) {
    Possible(y, run) && After(y, run).state.pending.keys == [] && After(y, run).ledger == FULL_LEDGER
  }

  lemma FromTheEnd(y: System)
    requires At(y, PART, PART_LEDGER, BrokerOrder(O, [FIRST] + [SECOND], None))
    ensures EndsBooked(y, ENDING)
  {
    ItEnds(y);
    var z := Next(y, End(ID, Status.Filled));
    ItIsBooked(z);
    RunCons(z, PollOnce(WHOLLY, {}), []);
    RunCons(y, End(ID, Status.Filled), LAST);
  }

  lemma FromTheRestart(y: System)
    requires At(y, NEW, EMPTY_LEDGER, BrokerOrder(O, [FIRST], None))
    ensures EndsBooked(y, RESTARTING)
  {
    ItCrashes(y);
    var z := Next(y, CRASHING);
    SumsOfTwo();
    ItFills(z, PART, PART_LEDGER, [FIRST], SECOND);
    FromTheEnd(Next(z, Execute(ID, SECOND)));
    RunCons(z, Execute(ID, SECOND), ENDING);
    RunCons(y, CRASHING, FILLING);
  }

  /** The day is possible, and ends with the order gone from the poll and its five units in the ledger at
      their exact value, from two fills on either side of the crash. */
  lemma OneDay()
    ensures EndsBooked(DAY_START, WHOLE_DAY)
  {
    ItIsPlaced();
    var y := Next(DAY_START, PLACING);
    ItFills(y, NEW, EMPTY_LEDGER, [], FIRST);
    assert [] + [FIRST] == [FIRST];
    FromTheRestart(Next(y, Execute(ID, FIRST)));
    RunCons(y, Execute(ID, FIRST), RESTARTING);
    RunCons(DAY_START, PLACING, STARTING);
  }
}
