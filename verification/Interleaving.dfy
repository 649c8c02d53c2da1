/** The scheduler at a finer grain. stop_elevator and start_elevator take no lock and requests are
    queued without one, so system calls can land between the unload, dwell, load and move of one
    pass. Here each call the scheduler makes is one step, and a run may place system calls between
    any two of them. Events are those of Machine, with `Pass` standing for one such step. */
module Interleaving {
  import opened Passengers
  import opened Machine
  import opened Runs
  import opened Books
  import opened Draining

  /** Where in its loop body the scheduler is. */
  datatype Pc = Head | DrainTest | DrainUnload | ScanFloors(i: nat) | AtQueue(i: nat)
              | Enter | AtUnload | Dwell | AtLoad | Raise | TestUp | MoveUp | TestDown | TestEmpty

  datatype Fine = Fine(st: State, pc: Pc)

  /** The car is at a floor, except before the first start and in a drain gone astray. */
  ghost predicate Located(fs: Fine)
    requires Shape(fs.st)
  {
    || IsFloor(fs.st.floor)
    || ((fs.pc == DrainTest || fs.pc == DrainUnload) && fs.st.onboard != [])
    || ((fs.pc == Head || fs.pc == DrainTest) && fs.st.mode == Offline && !fs.st.started && fs.st.onboard == [])
  }

  ghost predicate FineReady(fs: Fine) {
    && Shape(fs.st) && Located(fs)
    && (fs.pc.ScanFloors? ==> fs.pc.i <= FLOORS) && (fs.pc.AtQueue? ==> fs.pc.i < FLOORS)
  }

  /** One step of the scheduler, with every test of the mode made on the mode of that moment. */
  function Micro(fs: Fine): (r: Fine)
    requires FineReady(fs)
    ensures Shape(r.st)
  {
    var st := fs.st;
    match fs.pc
    case Head => Fine(st, if st.mode == Offline then DrainTest else if st.mode == Idle then ScanFloors(0) else Enter)
    case DrainTest => if st.onboard == [] then Fine(st, Head) else Fine(MoveTo(st, MinOnboard(st)), DrainUnload)
    case DrainUnload => Fine(Unload(st), DrainTest)
    case ScanFloors(i) =>
      if i == FLOORS then Fine(st, Head)
      else if st.floors[i] == [] then Fine(st, ScanFloors(i + 1))
      else Fine(MoveTo(st, st.floors[i][0].start), AtQueue(i))
    case AtQueue(i) => Fine(st.(mode := Loading), ScanFloors(i + 1))
    case Enter => Fine(st.(mode := Loading), AtUnload)
    case AtUnload => Fine(Unload(st), Dwell)
    case Dwell => Fine(Sleep(st, 1), AtLoad)
    case AtLoad => Fine(Load(st), Raise)
    case Raise => Fine(st.(mode := Up), TestUp)
    case TestUp => Fine(st, if st.mode == Up then MoveUp else TestDown)
    case MoveUp => Fine(Advance(st), TestDown)
    case TestDown =>
      if st.mode != Down then Fine(st, TestEmpty)
      else if st.floor == 1 then Fine(st.(mode := Up), TestEmpty)
      else Fine(MoveTo(st, st.floor - 1), TestEmpty)
    case TestEmpty => Fine(if st.onboard == [] then st.(mode := Idle) else st, Head)
  }

  function FineStep(fs: Fine, e: Event): (r: Fine)
    requires FineReady(fs)
    ensures Shape(r.st)
  {
    match e
    case StartCall => fs.(st := Start(fs.st))
    case StopCall => fs.(st := Stop(fs.st))
    case IssueCall(code, start, dest) => fs.(st := Issue(fs.st, code, start, dest))
    case Pass => Micro(fs)
  }

  /** The scheduler never indexes a floor that does not exist and never goes down. */
  ghost predicate Upward(st: State) {
    && (st.mode == Offline || st.mode == Idle || st.mode == Loading || st.mode == Up)
    && (st.previous == Offline || st.previous == Up)
  }

  lemma UnloadKeepsLocated(st: State)
    requires Shape(st) && (IsFloor(st.floor) || st.onboard != [])
    ensures var r := Unload(st);
            && r.mode == st.mode && r.previous == st.previous && r.floor == st.floor
            && (IsFloor(st.floor) || r.onboard != [])
  {
    UnloadFromFrame(st, 0);
    if !IsFloor(st.floor) {
      NobodyGetsOff(st, 0);
    }
  }

  lemma DrainKeepsReady(fs: Fine)
    requires FineReady(fs) && Upward(fs.st) && InDrain(fs.pc)
    ensures FineReady(Micro(fs)) && Upward(Micro(fs).st)
  {
    if fs.pc == DrainUnload {
      UnloadKeepsLocated(fs.st);
    }
  }

  lemma DispatchKeepsReady(fs: Fine)
    requires FineReady(fs) && Upward(fs.st) && (fs.pc.ScanFloors? || fs.pc.AtQueue?)
    ensures FineReady(Micro(fs)) && Upward(Micro(fs).st)
  {
    if fs.pc.ScanFloors? && fs.pc.i < FLOORS {
      assert Queued(fs.st.floors[fs.pc.i], fs.pc.i);
    }
  }

  lemma MicroKeepsReady(fs: Fine)
    requires FineReady(fs) && Upward(fs.st)
    ensures FineReady(Micro(fs)) && Upward(Micro(fs).st)
  {
    if InDrain(fs.pc) {
      DrainKeepsReady(fs);
    } else if fs.pc.ScanFloors? || fs.pc.AtQueue? {
      DispatchKeepsReady(fs);
    } else if fs.pc == AtUnload {
      UnloadKeepsLocated(fs.st);
    } else if fs.pc == AtLoad {
      LoadFrame(fs.st);
    }
  }

  lemma FineStepKeepsReady(fs: Fine, e: Event)
    requires FineReady(fs) && Upward(fs.st)
    ensures FineReady(FineStep(fs, e)) && Upward(FineStep(fs, e).st)
  {
    if e == Pass {
      MicroKeepsReady(fs);
    }
  }

  function FineAfter(fs: Fine, events: seq<Event>): (r: Fine)
    requires FineReady(fs) && Upward(fs.st)
    ensures FineReady(r) && Upward(r.st)
  {
    if events == [] then fs
    else
      var before := FineAfter(fs, events[..|events| - 1]);
      FineStepKeepsReady(before, events[|events| - 1]);
      FineStep(before, events[|events| - 1])
  }

  function FineRun(events: seq<Event>): (r: Fine)
    ensures FineReady(r) && Upward(r.st)
  {
    FineAfter(Fine(Init(), Head), events)
  }

  // ---- The books are kept at this grain as well ----

  predicate MovesPeople(pc: Pc) {
    pc == DrainUnload || pc == AtUnload || pc == AtLoad
  }

  lemma MicroSameBooks(fs: Fine)
    requires FineReady(fs) && !MovesPeople(fs.pc)
    ensures SameBooks(fs.st, Micro(fs).st)
  {
  }

  lemma MicroMovesPeople(fs: Fine)
    requires FineReady(fs) && MovesPeople(fs.pc)
    ensures fs.pc == AtLoad ==> IsFloor(fs.st.floor) && Micro(fs).st == Load(fs.st)
    ensures fs.pc != AtLoad ==> Micro(fs).st == Unload(fs.st)
  {
  }

  lemma MicroSound(fs: Fine)
    requires FineReady(fs) && Sound(fs.st)
    ensures Sound(Micro(fs).st)
  {
    if !MovesPeople(fs.pc) {
      MicroSameBooks(fs);
      SameBooksSound(fs.st, Micro(fs).st);
    } else {
      MoverSound(fs, Micro(fs).st);
    }
  }

  lemma MoverSound(fs: Fine, r: State)
    requires FineReady(fs) && Sound(fs.st) && MovesPeople(fs.pc) && r == Micro(fs).st
    ensures Sound(r)
  {
    MicroMovesPeople(fs);
    if fs.pc == AtLoad {
      LoadSound(fs.st);
    } else {
      UnloadSound(fs.st);
    }
  }

  lemma FineStepSound(fs: Fine, e: Event)
    requires FineReady(fs) && Sound(fs.st)
    ensures Sound(FineStep(fs, e).st)
  {
    match e
    case StartCall => SameBooksSound(fs.st, Start(fs.st));
    case StopCall => SameBooksSound(fs.st, Stop(fs.st));
    case IssueCall(code, start, dest) => IssueSound(fs.st, code, start, dest);
    case Pass => MicroSound(fs);
  }

  lemma {:induction false} FineRunSound(events: seq<Event>)
    ensures Sound(FineRun(events).st)
  {
    if events == [] {
      InitSound();
    } else {
      FineRunSound(events[..|events| - 1]);
      FineStepSound(FineRun(events[..|events| - 1]), events[|events| - 1]);
    }
  }

  // ---- An atomic pass is the same steps with nothing in between ----

  lemma FineSnoc(fs: Fine, events: seq<Event>, e: Event)
    requires FineReady(fs) && Upward(fs.st)
    ensures FineAfter(fs, events + [e]) == FineStep(FineAfter(fs, events), e)
  {
    assert (events + [e])[..|events|] == events;
  }

  lemma FineNext(fs: Fine, n: nat)
    requires FineReady(fs) && Upward(fs.st)
    ensures FineAfter(fs, OnlyPasses(n + 1)) == Micro(FineAfter(fs, OnlyPasses(n)))
  {
    assert OnlyPasses(n + 1) == OnlyPasses(n) + [Pass];
    FineSnoc(fs, OnlyPasses(n), Pass);
  }

  lemma {:induction false} FineConcat(fs: Fine, a: seq<Event>, b: seq<Event>)
    requires FineReady(fs) && Upward(fs.st)
    ensures FineAfter(fs, a + b) == FineAfter(FineAfter(fs, a), b)
  {
    if b == [] {
      assert a + b == a;
    } else {
      var front, last := b[..|b| - 1], b[|b| - 1];
      assert b == front + [last] && a + b == (a + front) + [last];
      FineConcat(fs, a, front);
      FineSnoc(fs, a + front, last);
      FineSnoc(FineAfter(fs, a), front, last);
    }
  }

  /** n steps of the scheduler lead from a to b. */
  ghost predicate Leads(a: Fine, n: nat, b: Fine)
    requires FineReady(a) && Upward(a.st)
  {
    FineAfter(a, OnlyPasses(n)) == b
  }

  lemma StepThen(a: Fine, n: nat, b: Fine)
    requires FineReady(a) && Upward(a.st)
    requires FineReady(Micro(a)) && Upward(Micro(a).st) && Leads(Micro(a), n, b)
    ensures Leads(a, n + 1, b)
  {
    assert OnlyPasses(n + 1) == [Pass] + OnlyPasses(n);
    FineConcat(a, [Pass], OnlyPasses(n));
    assert FineAfter(a, [Pass][..0]) == a;
  }

  lemma StopsHere(a: Fine)
    requires FineReady(a) && Upward(a.st)
    ensures Leads(a, 0, a)
  {
  }

  lemma DrainTurn(st: State, n: nat, b: Fine)
    requires DrainReady(st) && st.onboard != [] && Upward(st)
    requires FineReady(Fine(DrainStep(st), DrainTest)) && Upward(DrainStep(st))
    requires Leads(Fine(DrainStep(st), DrainTest), n, b)
    ensures FineReady(Fine(st, DrainTest)) && Leads(Fine(st, DrainTest), n + 2, b)
  {
    var a := Fine(st, DrainTest);
    MicroKeepsReady(a);
    StepThen(Micro(a), n, b);
    StepThen(a, n + 1, b);
  }

  lemma {:induction false} DrainSteps(st: State) returns (n: nat)
    requires DrainReady(st) && Upward(st) && FineReady(Fine(st, DrainTest))
    ensures Leads(Fine(st, DrainTest), n, Fine(Drain(st), Head))
    decreases |st.onboard|
  {
    if st.onboard == [] {
      MicroKeepsReady(Fine(st, DrainTest));
      StopsHere(Fine(st, Head));
      StepThen(Fine(st, DrainTest), 0, Fine(st, Head));
      n := 1;
    } else {
      DrainStepShrinks(st);
      UnloadFromFrame(MoveTo(st, MinOnboard(st)), 0);
      n := DrainSteps(DrainStep(st));
      DrainTurn(st, n, Fine(Drain(st), Head));
      n := n + 2;
    }
  }

  lemma SkipStep(st: State, i: nat, n: nat, b: Fine)
    requires Shape(st) && Upward(st) && IsFloor(st.floor) && i < FLOORS && st.floors[i] == []
    requires Leads(Fine(st, ScanFloors(i + 1)), n, b)
    ensures Leads(Fine(st, ScanFloors(i)), n + 1, b)
  {
    StepThen(Fine(st, ScanFloors(i)), n, b);
  }

  /** From a floor with a queue the car goes there and then loads. */
  lemma VisitMicro(st: State, i: nat)
    requires Shape(st) && Upward(st) && IsFloor(st.floor) && i < FLOORS && st.floors[i] != []
    ensures var moved := MoveTo(st, i + 1);
            && FineReady(Fine(st, ScanFloors(i))) && Micro(Fine(st, ScanFloors(i))) == Fine(moved, AtQueue(i))
            && FineReady(Fine(moved, AtQueue(i))) && Upward(moved)
            && Micro(Fine(moved, AtQueue(i))) == Fine(moved.(mode := Loading), ScanFloors(i + 1))
            && FineReady(Fine(moved.(mode := Loading), ScanFloors(i + 1))) && Upward(moved.(mode := Loading))
  {
    assert Queued(st.floors[i], i);
  }

  lemma VisitSteps(st: State, i: nat, n: nat, b: Fine)
    requires Shape(st) && Upward(st) && IsFloor(st.floor) && i < FLOORS && st.floors[i] != []
    requires Leads(Fine(MoveTo(st, i + 1).(mode := Loading), ScanFloors(i + 1)), n, b)
    ensures Leads(Fine(st, ScanFloors(i)), n + 2, b)
  {
    VisitMicro(st, i);
    StepThen(Fine(MoveTo(st, i + 1), AtQueue(i)), n, b);
    StepThen(Fine(st, ScanFloors(i)), n + 1, b);
  }

  lemma ScanEnds(st: State)
    requires Shape(st) && Upward(st) && IsFloor(st.floor)
    ensures Leads(Fine(st, ScanFloors(FLOORS)), 1, Fine(st, Head))
  {
    StopsHere(Fine(st, Head));
    StepThen(Fine(st, ScanFloors(FLOORS)), 0, Fine(st, Head));
  }

  lemma DispatchVisits(st: State, i: nat)
    requires Shape(st) && i < FLOORS && st.floors[i] != []
    ensures Dispatch(st, i) == Dispatch(MoveTo(st, i + 1).(mode := Loading), i + 1)
  {
    assert Queued(st.floors[i], i);
  }

  lemma {:induction false} DispatchSteps(st: State, i: nat) returns (n: nat)
    requires Shape(st) && Upward(st) && IsFloor(st.floor) && i <= FLOORS
    ensures Leads(Fine(st, ScanFloors(i)), n, Fine(Dispatch(st, i), Head))
    decreases FLOORS - i
  {
    if i == FLOORS {
      ScanEnds(st);
      n := 1;
    } else if st.floors[i] == [] {
      n := DispatchSteps(st, i + 1);
      SkipStep(st, i, n, Fine(Dispatch(st, i), Head));
      n := n + 1;
    } else {
      DispatchVisits(st, i);
      n := DispatchSteps(MoveTo(st, i + 1).(mode := Loading), i + 1);
      VisitSteps(st, i, n, Fine(Dispatch(st, i), Head));
      n := n + 2;
    }
  }

  lemma Steps5(a0: Fine, a1: Fine, a2: Fine, a3: Fine, a4: Fine, n: nat, b: Fine)
    requires FineReady(a0) && Upward(a0.st) && a1 == Micro(a0)
    requires FineReady(a1) && Upward(a1.st) && a2 == Micro(a1)
    requires FineReady(a2) && Upward(a2.st) && a3 == Micro(a2)
    requires FineReady(a3) && Upward(a3.st) && a4 == Micro(a3)
    requires FineReady(a4) && Upward(a4.st) && Leads(a4, n, b)
    ensures Leads(a0, n + 4, b)
  {
    StepThen(a3, n, b);
    StepThen(a2, n + 1, b);
    StepThen(a1, n + 2, b);
    StepThen(a0, n + 3, b);
  }

  lemma GoingUp(u: State)
    requires Shape(u) && Upward(u) && IsFloor(u.floor) && u.mode == Up
    ensures FineReady(Fine(u, TestUp)) && Micro(Fine(u, TestUp)) == Fine(u, MoveUp)
    ensures FineReady(Fine(u, MoveUp)) && Micro(Fine(u, MoveUp)) == Fine(Advance(u), TestDown)
    ensures Upward(Advance(u)) && Advance(u).mode == Up && IsFloor(Advance(u).floor) && Advance(u).onboard == u.onboard
  {
  }

  lemma GonePast(m: State)
    requires Shape(m) && Upward(m) && IsFloor(m.floor) && m.mode == Up
    ensures FineReady(Fine(m, TestDown)) && Micro(Fine(m, TestDown)) == Fine(m, TestEmpty)
    ensures FineReady(Fine(m, TestEmpty))
    ensures Micro(Fine(m, TestEmpty)) == Fine(if m.onboard == [] then m.(mode := Idle) else m, Head)
  {
  }

  lemma DepartureSteps(l: State)
    requires Shape(l) && Upward(l) && IsFloor(l.floor)
    ensures var m := Advance(l.(mode := Up));
            Leads(Fine(l, Raise), 5, Fine(if m.onboard == [] then m.(mode := Idle) else m, Head))
  {
    var u, m := l.(mode := Up), Advance(l.(mode := Up));
    var b := Fine(if m.onboard == [] then m.(mode := Idle) else m, Head);
    GoingUp(u);
    GonePast(m);
    StopsHere(b);
    StepThen(Fine(m, TestEmpty), 0, b);
    Steps5(Fine(l, Raise), Fine(u, TestUp), Fine(u, MoveUp), Fine(m, TestDown), Fine(m, TestEmpty), 1, b);
  }

  lemma ServiceSteps(st: State) returns (n: nat)
    requires Shape(st) && Upward(st) && IsFloor(st.floor)
    ensures Leads(Fine(st, Enter), n, Fine(Service(st), Head))
  {
    var a, l := st.(mode := Loading), Attend(st);
    UnloadFromFrame(a, 0);
    AttendFrame(st);
    DepartureSteps(l);
    Steps5(Fine(st, Enter), Fine(a, AtUnload), Fine(Unload(a), Dwell), Fine(Sleep(Unload(a), 1), AtLoad),
           Fine(l, Raise), 5, Fine(Service(st), Head));
    n := 9;
  }

  /** The atomic pass of Machine is a run of scheduler steps with no system call between them. The next
      pass depends on the mode alone, not on whether the elevator counts as started. */
  lemma PassIsSteps(st: State) returns (n: nat)
    requires Passable(st) && Upward(st) && FineReady(Fine(st, Head))
    ensures Leads(Fine(st, Head), n, Fine(Tick(st), Head))
  {
    var a := Fine(st, Head);
    MicroKeepsReady(a);
    if st.mode == Offline {
      n := DrainSteps(st);
    } else if st.mode == Idle {
      n := DispatchSteps(st, 0);
    } else {
      n := ServiceSteps(st);
    }
    StepThen(a, n, Fine(Tick(st), Head));
    n := n + 1;
  }

  /** Only the scheduler moves. */
  ghost predicate Undisturbed(events: seq<Event>) {
    forall i | 0 <= i < |events| :: events[i] == Pass
  }

  lemma EventIsSteps(st: State, e: Event) returns (fine: seq<Event>)
    requires Ready(st)
    ensures Upward(st) && FineAfter(Fine(st, Head), fine) == Fine(Step(st, e), Head)
    ensures e == Pass ==> Undisturbed(fine)
  {
    if e == Pass {
      var n := PassIsSteps(st);
      fine := OnlyPasses(n);
    } else {
      FineSnoc(Fine(st, Head), [], e);
      fine := [] + [e];
    }
  }

  /** Whatever atomic passes do from the head of the loop, scheduler steps do as well. */
  lemma {:induction false} AfterIsFine(st: State, events: seq<Event>) returns (fine: seq<Event>)
    requires Ready(st)
    ensures Upward(st) && FineAfter(Fine(st, Head), fine) == Fine(After(st, events), Head)
    ensures Undisturbed(events) ==> Undisturbed(fine)
  {
    if events == [] {
      fine := [];
    } else {
      var front, e := events[..|events| - 1], events[|events| - 1];
      var before := AfterIsFine(st, front);
      var last := EventIsSteps(After(st, front), e);
      FineConcat(Fine(st, Head), before, last);
      fine := before + last;
    }
  }

  /** So every run with atomic passes is one of the runs at this grain. */
  lemma RunIsFineRun(events: seq<Event>) returns (fine: seq<Event>)
    ensures FineRun(fine) == Fine(Run(events), Head)
  {
    fine := AfterIsFine(Init(), events);
  }

  // ---- A stop that lands inside a pass ----

  function StepsLeft(pc: Pc): nat {
    match pc
    case Head => 0
    case DrainTest => 0
    case DrainUnload => 0
    case ScanFloors(i) => if i < FLOORS then 2 * (FLOORS - i) + 1 else 1
    case AtQueue(i) => if i < FLOORS then 2 * (FLOORS - i) else 0
    case Enter => 9
    case AtUnload => 8
    case Dwell => 7
    case AtLoad => 6
    case Raise => 5
    case TestUp => 4
    case MoveUp => 3
    case TestDown => 2
    case TestEmpty => 1
  }

  predicate InDrain(pc: Pc) {
    pc == DrainTest || pc == DrainUnload
  }

  /** The rest of the pass, undisturbed. */
  function Finish(fs: Fine): (r: Fine)
    requires FineReady(fs) && Upward(fs.st) && !InDrain(fs.pc)
    ensures FineReady(r) && r.pc == Head
    decreases StepsLeft(fs.pc)
  {
    if fs.pc == Head then fs
    else
      MicroKeepsReady(fs);
      Finish(Micro(fs))
  }

  /** Whether a pass that is at `pc` leaves a stop standing. The drain never writes the mode, so it
      always does. */
  ghost predicate StopStands(st: State, pc: Pc)
    requires Shape(st)
  {
    match pc
    case ScanFloors(i) => forall k | i <= k < FLOORS :: st.floors[k] == []
    case AtQueue(i) => false
    case Enter => false
    case AtUnload => false
    case Dwell => false
    case AtLoad => false
    case Raise => false
    case Head => true
    case DrainTest => true
    case DrainUnload => true
    case _ => st.onboard != []
  }

  lemma {:induction false} FinishLoading(fs: Fine)
    requires FineReady(fs) && Upward(fs.st) && fs.pc.ScanFloors? && fs.st.mode == Loading
    ensures Finish(fs).st.mode == Loading
    decreases StepsLeft(fs.pc)
  {
    MicroKeepsReady(fs);
    var next := Micro(fs);
    if next.pc.ScanFloors? {
      FinishLoading(next);
    } else if next.pc.AtQueue? {
      MicroKeepsReady(next);
      FinishLoading(Micro(next));
    }
  }

  lemma {:induction false} FinishScan(fs: Fine)
    requires FineReady(fs) && Upward(fs.st) && (fs.pc.ScanFloors? || fs.pc.AtQueue?) && fs.st.mode == Offline
    ensures Finish(fs).st.mode == Offline <==> StopStands(fs.st, fs.pc)
    decreases StepsLeft(fs.pc)
  {
    MicroKeepsReady(fs);
    var next := Micro(fs);
    if fs.pc.AtQueue? {
      FinishLoading(next);
    } else if next.pc != Head {
      FinishScan(next);
    }
  }

  lemma {:induction false} FinishTail(fs: Fine)
    requires FineReady(fs) && Upward(fs.st)
    requires fs.pc == TestUp || fs.pc == MoveUp || fs.pc == TestDown || fs.pc == TestEmpty
    ensures Finish(fs).st.mode == if fs.st.onboard == [] then Idle else fs.st.mode
    ensures Finish(fs).st.onboard == fs.st.onboard && Finish(fs).st.floors == fs.st.floors
    ensures Finish(fs).st.floor
         == if fs.pc == MoveUp || (fs.pc == TestUp && fs.st.mode == Up) then NextFloor(fs.st.floor) else fs.st.floor
    decreases StepsLeft(fs.pc)
  {
    MicroKeepsReady(fs);
    if fs.pc == TestEmpty {
    } else {
      FinishTail(Micro(fs));
    }
  }

  /** A stop that lands before the test for UP keeps the car where it is; one that lands after that test
      does not keep it from moving on. */
  lemma StopBeforeMove(fs: Fine)
    requires FineReady(fs) && Upward(fs.st) && fs.st.started && (fs.pc == TestUp || fs.pc == MoveUp)
    ensures var r := Finish(fs.(st := Stop(fs.st))).st;
            && r.onboard == fs.st.onboard && r.floors == fs.st.floors
            && r.floor == if fs.pc == TestUp then fs.st.floor else NextFloor(fs.st.floor)
  {
    FinishTail(fs.(st := Stop(fs.st)));
  }

  lemma {:induction false} FinishService(fs: Fine)
    requires FineReady(fs) && Upward(fs.st)
    requires fs.pc == Enter || fs.pc == AtUnload || fs.pc == Dwell || fs.pc == AtLoad || fs.pc == Raise
    ensures Finish(fs).st.mode != Offline
    decreases StepsLeft(fs.pc)
  {
    MicroKeepsReady(fs);
    if fs.pc == Raise {
      FinishTail(Micro(fs));
    } else {
      FinishService(Micro(fs));
    }
  }

  /** The scheduler's next n steps, undisturbed. */
  function Later(fs: Fine, n: nat): (r: Fine)
    requires FineReady(fs) && Upward(fs.st)
    ensures FineReady(r) && Upward(r.st)
  {
    FineAfter(fs, OnlyPasses(n))
  }

  /** After n steps of the scheduler, and no earlier, the pass is over. */
  ghost predicate PassEnds(fs: Fine, n: nat)
    requires FineReady(fs) && Upward(fs.st)
  {
    Later(fs, n).pc == Head && forall k: nat | k < n :: Later(fs, k).pc != Head
  }

  lemma NextFirst(fs: Fine, n: nat)
    requires FineReady(fs) && Upward(fs.st)
    ensures FineReady(Micro(fs)) && Upward(Micro(fs).st)
    ensures Later(fs, 0) == fs && Later(fs, n + 1) == Later(Micro(fs), n)
  {
    MicroKeepsReady(fs);
    StepThen(fs, n, Later(Micro(fs), n));
  }

  lemma PassEndsLater(fs: Fine, n: nat)
    requires FineReady(fs) && Upward(fs.st) && fs.pc != Head
    requires FineReady(Micro(fs)) && Upward(Micro(fs).st) && PassEnds(Micro(fs), n)
    ensures PassEnds(fs, n + 1) && Later(fs, n + 1) == Later(Micro(fs), n)
  {
    NextFirst(fs, n);
    forall k: nat | k < n + 1 ensures Later(fs, k).pc != Head {
      if k > 0 {
        NextFirst(fs, k - 1);
      }
    }
  }

  /** Outside the drain loop a pass does end, with the state that `Finish` computes. */
  lemma {:induction false} PassFinishes(fs: Fine) returns (n: nat)
    requires FineReady(fs) && Upward(fs.st) && !InDrain(fs.pc)
    ensures PassEnds(fs, n) && Later(fs, n) == Finish(fs)
    decreases StepsLeft(fs.pc)
  {
    if fs.pc == Head {
      n := 0;
    } else {
      MicroKeepsReady(fs);
      var m := PassFinishes(Micro(fs));
      PassEndsLater(fs, m);
      n := m + 1;
    }
  }

  /** No step of the drain writes the mode, and an offline elevator only ever drains. */
  lemma {:induction false} DrainStaysOffline(fs: Fine, n: nat)
    requires FineReady(fs) && Upward(fs.st) && fs.st.mode == Offline && (InDrain(fs.pc) || fs.pc == Head)
    ensures var r := Later(fs, n);
            r.st.mode == Offline && (InDrain(r.pc) || r.pc == Head)
    decreases n
  {
    if n == 0 {
    } else {
      DrainStaysOffline(fs, n - 1);
      FineNext(fs, n - 1);
      UnloadFromFrame(Later(fs, n - 1).st, 0);
    }
  }

  /** An accepted stop is still in force when the pass it lands in ends if and only if `StopStands`;
      otherwise the pass overwrites the OFFLINE state and the elevator, marked as not started, runs on.
      Outside the drain loop the pass does end; in it the stop is in force after every step. */
  lemma StopSurvivesIff(fs: Fine)
    requires FineReady(fs) && Upward(fs.st) && fs.st.started
    ensures var stopped := fs.(st := Stop(fs.st));
            (forall n: nat | PassEnds(stopped, n) :: Later(stopped, n).st.mode == Offline)
            <==> StopStands(fs.st, fs.pc)
    ensures !InDrain(fs.pc) ==> exists n: nat :: PassEnds(fs.(st := Stop(fs.st)), n)
    ensures InDrain(fs.pc) ==> forall n: nat :: Later(fs.(st := Stop(fs.st)), n).st.mode == Offline
  {
    var stopped := fs.(st := Stop(fs.st));
    if InDrain(fs.pc) {
      forall n: nat ensures Later(stopped, n).st.mode == Offline {
        DrainStaysOffline(stopped, n);
      }
    } else {
      FinishStopped(fs);
      var n := PassFinishes(stopped);
      assert PassEnds(stopped, n);
      forall m: nat | PassEnds(stopped, m) ensures m == n {
        assert !(m < n) && !(n < m);
      }
    }
  }

  lemma FinishStopped(fs: Fine)
    requires FineReady(fs) && Upward(fs.st) && fs.st.started && !InDrain(fs.pc)
    ensures Finish(fs.(st := Stop(fs.st))).st.mode == Offline <==> StopStands(fs.st, fs.pc)
  {
    var stopped := fs.(st := Stop(fs.st));
    match fs.pc
    case Head =>
    case ScanFloors(i) => FinishScan(stopped);
    case AtQueue(i) => FinishScan(stopped);
    case Enter => FinishService(stopped);
    case AtUnload => FinishService(stopped);
    case Dwell => FinishService(stopped);
    case AtLoad => FinishService(stopped);
    case Raise => FinishService(stopped);
    case _ => FinishTail(stopped);
  }

  // ---- A start that lands inside a drain ----

  /** Only people getting off, and the car moving, lie between two states. */
  ghost predicate Alike(a: State, b: State) {
    && b.total + |b.onboard| == a.total + |a.onboard| && b.floors == a.floors
    && b.mode == a.mode && b.started == a.started && b.previous == a.previous && b.h.departed == a.h.departed
  }

  lemma UnloadAlike(st: State)
    requires Shape(st)
    ensures Alike(st, Unload(st)) && Unload(st).floor == st.floor && |Unload(st).onboard| <= |st.onboard|
  {
    UnloadFromFrame(st, 0);
  }

  lemma DrainStepAlike(st: State)
    requires DrainReady(st) && st.onboard != []
    ensures Alike(st, DrainStep(st)) && |DrainStep(st).onboard| < |st.onboard| && IsFloor(DrainStep(st).floor)
  {
    DrainStepShrinks(st);
    UnloadFromFrame(MoveTo(st, MinOnboard(st)), 0);
  }

  /** Two steps make a turn of the drain loop. */
  lemma TurnIsTwoSteps(fs: Fine)
    requires FineReady(fs) && Upward(fs.st) && fs.pc == DrainTest && fs.st.onboard != []
    ensures FineReady(Micro(fs)) && Upward(Micro(fs).st) && Micro(fs).pc == DrainUnload
    ensures Micro(Micro(fs)) == Fine(DrainStep(fs.st), DrainTest)
    ensures FineReady(Micro(Micro(fs))) && Upward(Micro(Micro(fs)).st)
  {
    MicroKeepsReady(fs);
    MicroKeepsReady(Micro(fs));
  }

  /** A drain with a saved direction lets everybody off, whatever the mode has become meanwhile. */
  lemma {:induction false} DrainRunsOut(fs: Fine) returns (n: nat)
    requires FineReady(fs) && Upward(fs.st) && fs.pc == DrainTest
    requires fs.st.previous == Up && IsFloor(fs.st.floor)
    ensures PassEnds(fs, n) && Later(fs, n).st.onboard == [] && Alike(fs.st, Later(fs, n).st)
    decreases |fs.st.onboard|
  {
    if fs.st.onboard == [] {
      MicroKeepsReady(fs);
      NextFirst(Micro(fs), 0);
      PassEndsLater(fs, 0);
      n := 1;
    } else {
      TurnIsTwoSteps(fs);
      DrainStepAlike(fs.st);
      var m := DrainRunsOut(Micro(Micro(fs)));
      PassEndsLater(Micro(fs), m);
      PassEndsLater(fs, m + 1);
      n := m + 2;
    }
  }

  lemma DrainRunsOutAnyhow(fs: Fine) returns (n: nat)
    requires FineReady(fs) && Upward(fs.st) && InDrain(fs.pc)
    requires fs.st.previous == Up && IsFloor(fs.st.floor)
    ensures PassEnds(fs, n) && Later(fs, n).st.onboard == [] && Alike(fs.st, Later(fs, n).st)
  {
    if fs.pc == DrainTest {
      n := DrainRunsOut(fs);
    } else {
      MicroKeepsReady(fs);
      UnloadAlike(fs.st);
      var m := DrainRunsOut(Micro(fs));
      PassEndsLater(fs, m);
      n := m + 1;
    }
  }

  /** So a start during the drain puts the car at floor 1 but leaves the drain running: only when all
      are off does the scheduler look at the mode, and then it is IDLE. */
  lemma StartInsideDrain(fs: Fine) returns (n: nat)
    requires FineReady(fs) && Upward(fs.st) && InDrain(fs.pc) && !fs.st.started && fs.st.previous == Up
    ensures var s := fs.(st := Start(fs.st));
            && FineReady(s) && Upward(s.st) && s.st.floor == 1
            && PassEnds(s, n) && Later(s, n).st.onboard == [] && Later(s, n).st.mode == Idle
            && Later(s, n).st.started && Later(s, n).st.floors == fs.st.floors
            && Later(s, n).st.total == fs.st.total + |fs.st.onboard|
  {
    FineStepKeepsReady(fs, StartCall);
    n := DrainRunsOutAnyhow(fs.(st := Start(fs.st)));
  }
}
