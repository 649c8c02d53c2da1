/** Runs on which the elevator does not do what it is meant to do: one that strands a passenger with
    atomic passes, and one at the finer grain whose drain never ends. */
module Counterexamples {
  import opened Passengers
  import opened Machine
  import opened Runs
  import opened Draining
  import opened Liveness
  import opened Interleaving
  import opened Books
  import opened Routines
  import opened Order

  /** An adult waits at floor 1 for floor 5 and the elevator, at floor 1, is about to load. */
  function AdultAtOne(): (st: State)
    ensures Shape(st)
  {
    Issue(Start(Init()), 1, 1, 5).(mode := Loading)
  }

  const FIRST_REQUEST := [StartCall, IssueCall(1, 1, 5), Pass]

  /** With an adult at floor 1 only, the dispatch of an idle car there sets it loading and no more. */
  lemma DispatchAtOne()
    ensures var idle := Issue(Start(Init()), 1, 1, 5);
            Passable(idle) && Tick(idle) == AdultAtOne() && Ready(AdultAtOne())
  {
    var idle := Issue(Start(Init()), 1, 1, 5);
    assert idle.floors[0] != [] && idle.floors[0][0].start == 1;
    DispatchNobody(AdultAtOne(), 1);
  }

  lemma ThreeEvents(a: Event, b: Event, c: Event)
    ensures Run([a, b, c]) == Step(Run([a, b]), c) && Run([a, b]) == Step(Run([a]), b) && Run([a]) == Step(Init(), a)
  {
    AfterSnoc(Init(), [a, b], c);
    AfterSnoc(Init(), [a], b);
    AfterSnoc(Init(), [], a);
    assert [a, b, c] == [a, b] + [c] && [a, b] == [a] + [b] && [a] == [] + [a];
  }

  lemma FirstRequest()
    ensures Run(FIRST_REQUEST) == AdultAtOne() && Ready(AdultAtOne())
  {
    ThreeEvents(StartCall, IssueCall(1, 1, 5), Pass);
    DispatchAtOne();
  }

  /** Loading at floor 1 takes the adult on. */
  lemma AdultBoards(st: State)
    requires Shape(st) && IsFloor(st.floor) && st.floor == 1 && st.floors == AdultAtOne().floors
    requires st.weight == 0 && st.units == 0 && st.onboard == []
    ensures Load(st) == Board(st) && Board(st).onboard != []
    ensures forall i | 0 <= i < FLOORS :: Board(st).floors[i] == []
  {
    assert Board(st).Here() == [];
  }

  const RESTART := FIRST_REQUEST + [Pass] + [StopCall] + [StartCall]

  /** The pass after that: the adult is onboard and the car on its way. */
  lemma AdultRides()
    ensures var r := Service(AdultAtOne());
            && r.mode == Up && r.onboard != [] && r.started && forall i | 0 <= i < FLOORS :: r.floors[i] == []
  {
    var st := AdultAtOne();
    assert Unload(st) == st;
    AdultBoards(Sleep(st, 1));
    ServiceFrame(st);
  }

  lemma ThreeMore(events: seq<Event>, a: Event, b: Event, c: Event)
    ensures Run(events + [a] + [b] + [c]) == Step(Run(events + [a] + [b]), c)
    ensures Run(events + [a] + [b]) == Step(Run(events + [a]), b) && Run(events + [a]) == Step(Run(events), a)
  {
    AfterSnoc(Init(), events, a);
    AfterSnoc(Init(), events + [a], b);
    AfterSnoc(Init(), events + [a] + [b], c);
  }

  lemma RestartStrands(st: State)
    requires Shape(st) && st.mode == Up && st.started && st.onboard != []
    requires forall i | 0 <= i < FLOORS :: st.floors[i] == []
    ensures Stranded(Start(Stop(st))) && Start(Stop(st)).started
  {
  }

  lemma RestartRun()
    ensures Run(RESTART) == Start(Stop(Service(AdultAtOne())))
  {
    FirstRequest();
    ThreeMore(FIRST_REQUEST, Pass, StopCall, StartCall);
  }

  lemma StrandedState()
    ensures var st := Start(Stop(Service(AdultAtOne())));
            Stranded(st) && st.started
  {
    AdultRides();
    RestartStrands(Service(AdultAtOne()));
  }

  lemma StrandedForever(st: State)
    requires Ready(st) && Stranded(st)
    ensures st.onboard != [] && forall n: nat :: Passes(st, n) == st
  {
    forall n: nat ensures Passes(st, n) == st {
      AllServedStays(st, n);
    }
  }

  /** Stopping a car with somebody onboard and starting it again before it has drained leaves them
      there: the car is idle, nobody waits, and no number of passes changes that. */
  lemma StrandedRun()
    ensures Run(RESTART).started && Run(RESTART).onboard != []
    ensures Stranded(Run(RESTART))
    ensures forall n: nat :: Passes(Run(RESTART), n) == Run(RESTART)
  {
    RestartRun();
    StrandedState();
    StrandedForever(Run(RESTART));
  }

  const TWO_REQUESTS := [StartCall, IssueCall(1, 1, 5), IssueCall(1, 10, 3)]

  function TwoPeople(): (st: State)
    ensures Shape(st)
  {
    Issue(Issue(Start(Init()), 1, 1, 5), 1, 10, 3)
  }

  lemma TwoWaiting()
    ensures Run(TWO_REQUESTS) == TwoPeople()
  {
    ThreeEvents(StartCall, IssueCall(1, 1, 5), IssueCall(1, 10, 3));
  }

  lemma TwoFacts()
    ensures var st := TwoPeople();
            && st.mode == Idle && st.onboard == [] && st.h.departed == []
            && LowestAndHighest(st.floors, 1, 10)
            && st.floors[9] == [NewPassenger(1, Adult, 10, 3)]
            && st.h.arrivals == [NewPassenger(0, Adult, 1, 5), NewPassenger(1, Adult, 10, 3)]
  {
  }

  lemma TopFirst(st: State)
    requires Ready(st) && st.mode == Idle && st.onboard == [] && LowestAndHighest(st.floors, 1, 10)
    requires Counted(st) && Numbered(st) && FloorFifo(st, 10) && st.h.departed == []
    ensures Ready(Tick(st)) && Tick(Tick(st)).h.arrivals == st.h.arrivals
    ensures var gone := Tick(Tick(st)).h.departed; gone != [] && gone[0] == st.floors[9][0]
  {
    DispatchTakesOldestIff(st, 1, 10);
    PassKeepsRequests(st);
    PassKeepsRequests(Tick(st));
  }

  lemma TwoAreFit()
    ensures Counted(Run(TWO_REQUESTS)) && Numbered(Run(TWO_REQUESTS)) && FloorFifo(Run(TWO_REQUESTS), 10)
  {
    RunSound(TWO_REQUESTS);
  }

  lemma TwoPasses(events: seq<Event>)
    ensures Ready(Tick(Run(events))) && Run(events + [Pass] + [Pass]) == Tick(Tick(Run(events)))
  {
    AfterSnoc(Init(), events, Pass);
    AfterSnoc(Init(), events + [Pass], Pass);
    StepKeepsReady(Run(events), Pass);
  }

  /** The first request asks from floor 1, where the car is; the second, from floor 10, is taken first. */
  lemma OvertakingRun()
    ensures var st := Run(TWO_REQUESTS + [Pass] + [Pass]);
            && st.h.arrivals != [] && st.h.departed != []
            && st.h.arrivals[0].node == 0 && st.h.departed[0].node == 1
            && !FirstComeFirst(st)
  {
    TwoWaiting();
    TwoFacts();
    TwoAreFit();
    TopFirst(Run(TWO_REQUESTS));
    TwoPasses(TWO_REQUESTS);
  }

  /** In the loop that empties the car, with nobody about to get off and no direction saved. */
  ghost predicate Hung(fs: Fine) {
    && FineReady(fs) && Upward(fs.st) && InDrain(fs.pc)
    && fs.st.onboard != [] && fs.st.previous == Offline
    && (fs.pc == DrainUnload ==> fs.st.floor == -1)
  }

  lemma HungStep(fs: Fine)
    requires Hung(fs)
    ensures Hung(Micro(fs)) && Micro(fs).st.onboard == fs.st.onboard
  {
    MicroKeepsReady(fs);
    if fs.pc == DrainUnload {
      NobodyGetsOff(fs.st, 0);
    }
  }

  lemma {:induction false} HungForever(fs: Fine, n: nat)
    requires Hung(fs)
    ensures Hung(FineAfter(fs, OnlyPasses(n))) && FineAfter(fs, OnlyPasses(n)).st.onboard == fs.st.onboard
    decreases n
  {
    if n == 0 {
    } else {
      HungForever(fs, n - 1);
      FineNext(fs, n - 1);
      HungStep(FineAfter(fs, OnlyPasses(n - 1)));
    }
  }

  lemma Extend(events: seq<Event>, fs: Fine, e: Event)
    requires FineRun(events) == fs
    ensures FineRun(events + [e]) == FineStep(fs, e)
  {
    FineSnoc(Fine(Init(), Head), events, e);
  }

  lemma AdultSteps()
    ensures var st := AdultAtOne();
            && FineReady(Fine(st, Head)) && Micro(Fine(st, Head)) == Fine(st, Enter)
            && FineReady(Fine(st, Enter)) && Micro(Fine(st, Enter)) == Fine(st, AtUnload)
            && FineReady(Fine(st, AtUnload)) && Micro(Fine(st, AtUnload)) == Fine(st, Dwell)
  {
    assert Unload(AdultAtOne()) == AdultAtOne();
  }

  lemma StopDuringDwell() returns (events: seq<Event>)
    ensures FineRun(events) == Fine(Stop(AdultAtOne()), Dwell)
  {
    var st := AdultAtOne();
    FirstRequest();
    AdultSteps();
    events := RunIsFineRun(FIRST_REQUEST);
    Extend(events, Fine(st, Head), Pass);
    events := events + [Pass];
    Extend(events, Fine(st, Enter), Pass);
    events := events + [Pass];
    Extend(events, Fine(st, AtUnload), Pass);
    events := events + [Pass];
    Extend(events, Fine(st, Dwell), StopCall);
    events := events + [StopCall];
  }

  /** The pass goes on as if nothing had happened, up to setting UP. */
  lemma LateSteps(st: State, l: State)
    requires st == Stop(AdultAtOne()) && l == Board(Sleep(st, 1))
    ensures FineReady(Fine(st, Dwell)) && Micro(Fine(st, Dwell)) == Fine(Sleep(st, 1), AtLoad)
    ensures FineReady(Fine(Sleep(st, 1), AtLoad)) && Micro(Fine(Sleep(st, 1), AtLoad)) == Fine(l, Raise)
    ensures FineReady(Fine(l, Raise)) && Micro(Fine(l, Raise)) == Fine(l.(mode := Up), TestUp)
    ensures l.onboard != [] && !l.started && l.previous == Offline
  {
    AdultBoards(Sleep(st, 1));
  }

  lemma ThreeSteps(events: seq<Event>, a: Fine, b: Fine, c: Fine, d: Fine)
    requires FineRun(events) == a && b == Micro(a)
    requires FineReady(b) && c == Micro(b)
    requires FineReady(c) && d == Micro(c)
    ensures FineRun(events + [Pass] + [Pass] + [Pass]) == d
  {
    Extend(events, a, Pass);
    Extend(events + [Pass], b, Pass);
    Extend(events + [Pass] + [Pass], c, Pass);
  }

  lemma StopThenLoad() returns (events: seq<Event>)
    ensures var fs := FineRun(events);
            && fs.pc == TestUp && fs.st.mode == Up && fs.st.onboard != []
            && !fs.st.started && fs.st.previous == Offline
  {
    events := StopDuringDwell();
    var st := Stop(AdultAtOne());
    var l := Board(Sleep(st, 1));
    LateSteps(st, l);
    ThreeSteps(events, Fine(st, Dwell), Fine(Sleep(st, 1), AtLoad), Fine(l, Raise), Fine(l.(mode := Up), TestUp));
    events := events + [Pass] + [Pass] + [Pass];
  }

  /** A stop during the dwell of the first pass is overwritten when loading ends, without the
      direction of travel having been saved. */
  lemma LostStopRun() returns (events: seq<Event>)
    ensures var fs := FineRun(events);
            && fs.pc == Head && !fs.st.started && fs.st.mode == Up && fs.st.previous == Offline && fs.st.onboard != []
  {
    var before := StopThenLoad();
    events := LostStopTail(before, FineRun(before));
  }

  lemma LostStopTail(start: seq<Event>, fs: Fine) returns (events: seq<Event>)
    requires FineRun(start) == fs && fs.pc == TestUp && fs.st.mode == Up && fs.st.onboard != []
    ensures var r := FineRun(events);
            && r.pc == Head && r.st.mode == Up && r.st.onboard == fs.st.onboard
            && r.st.started == fs.st.started && r.st.previous == fs.st.previous
  {
    var m := Advance(fs.st);
    Extend(start, fs, Pass);
    events := start + [Pass];
    Extend(events, Fine(fs.st, MoveUp), Pass);
    events := events + [Pass];
    Extend(events, Fine(m, TestDown), Pass);
    events := events + [Pass];
    Extend(events, Fine(m, TestEmpty), Pass);
    events := events + [Pass];
  }

  /** Starting and stopping again after that stop sends the scheduler into a drain it never leaves. */
  lemma HangingRun() returns (events: seq<Event>)
    ensures FineRun(events).st.onboard != []
    ensures forall n: nat ::
              var fs := FineAfter(FineRun(events), OnlyPasses(n));
              InDrain(fs.pc) && fs.st.onboard == FineRun(events).st.onboard
  {
    events := LostStopRun();
    var fs := FineRun(events);
    Extend(events, fs, StartCall);
    events := events + [StartCall];
    Extend(events, fs.(st := Start(fs.st)), StopCall);
    events := events + [StopCall];
    Extend(events, fs.(st := Stop(Start(fs.st))), Pass);
    events := events + [Pass];
    forall n: nat
      ensures var fs := FineAfter(FineRun(events), OnlyPasses(n));
              InDrain(fs.pc) && fs.st.onboard == FineRun(events).st.onboard
    {
      HungForever(FineRun(events), n);
    }
  }
}
