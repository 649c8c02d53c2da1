/** Requests that land inside a pass. Requests are queued without a lock, and a pass is almost all
    sleep, so a request may arrive between any two calls of the scheduler. These are runs at the grain
    of Interleaving in which only starts and stops wait for the head of the loop: timing and service
    are what they are with atomic passes. */
module Requests {
  import opened Passengers
  import opened Machine
  import opened Runs
  import opened Books
  import opened Routines
  import opened Draining
  import opened Liveness
  import opened Rides
  import opened Interleaving

  predicate Switches(e: Event) {
    e == StartCall || e == StopCall
  }

  /** From `fs` on, starts and stops land at the head of the loop; requests land anywhere. */
  ghost predicate TidyFrom(fs: Fine, events: seq<Event>)
    requires FineReady(fs) && Upward(fs.st)
    decreases |events|
  {
    events != [] ==>
      var front, e := events[..|events| - 1], events[|events| - 1];
      TidyFrom(fs, front) && (Switches(e) ==> FineAfter(fs, front).pc == Head)
  }

  ghost predicate Tidy(events: seq<Event>) {
    TidyFrom(Fine(Init(), Head), events)
  }

  // ---- What holds at each point of the loop body ----

  ghost predicate AtRest(st: State) {
    Ready(st) && Riding(st)
  }

  ghost predicate Busy(st: State, mode: Mode) {
    && Shape(st) && IsFloor(st.floor) && st.started && st.mode == mode
    && (st.previous == Offline || st.previous == Up)
  }

  ghost predicate Clean(fs: Fine) {
    var st := fs.st;
    match fs.pc
    case Head => AtRest(st)
    case DrainTest => AtRest(st) && st.mode == Offline
    case DrainUnload => AtRest(st) && st.mode == Offline && IsFloor(st.floor)
    case ScanFloors(i) => AtRest(st) && (st.mode == Idle || st.mode == Loading) && i <= FLOORS
    case AtQueue(i) => AtRest(st) && (st.mode == Idle || st.mode == Loading) && i < FLOORS && st.Here() != []
    case Enter => AtRest(st) && (st.mode == Loading || st.mode == Up)
    case AtUnload => Busy(st, Loading) && Arrived(st)
    case Dwell => Busy(st, Loading) && Arrived(st) && NobodyFor(st.onboard, st.floor)
    case AtLoad => Busy(st, Loading) && Leaving(st)
    case Raise => Busy(st, Loading) && Leaving(st)
    case TestUp => Busy(st, Up) && Leaving(st)
    case MoveUp => Busy(st, Up) && Leaving(st)
    case TestDown => Busy(st, Up) && Riding(st)
    case TestEmpty => Busy(st, Up) && Riding(st)
  }

  /** Everything this file needs to know about a state it may reach. */
  ghost predicate Proper(fs: Fine) {
    FineReady(fs) && Upward(fs.st) && Clean(fs) && ExactTrips(fs.st)
  }

  lemma ArrivedAtFloor(st: State)
    requires Shape(st) && Riding(st)
    ensures Arrived(st.(mode := Loading))
  {
    var a := st.(mode := Loading);
    forall k | 0 <= k < |a.onboard| ensures ArrivedRider(a, k) {
    }
  }

  lemma LeavingInMode(st: State, mode: Mode)
    requires Shape(st) && Leaving(st)
    ensures Leaving(st.(mode := mode))
  {
    var u := st.(mode := mode);
    forall k | 0 <= k < |u.onboard| ensures LeavingRider(u, k) {
      assert LeavingRider(st, k);
    }
  }

  /** A service pass, step by step. */
  lemma ServiceClean(fs: Fine)
    requires Proper(fs)
    requires fs.pc == Enter || fs.pc == AtUnload || fs.pc == Dwell || fs.pc == AtLoad || fs.pc == Raise
    ensures Clean(Micro(fs)) && ExactTrips(Micro(fs).st)
  {
    var st := fs.st;
    match fs.pc
    case Enter =>
      ArrivedAtFloor(st);
    case AtUnload =>
      UnloadExact(st, 0);
      UnloadFromFrame(st, 0);
      UnloadClearsFloor(st);
    case Dwell =>
      DwellExact(st);
    case AtLoad =>
      LoadExact(st);
      LoadFrame(st);
    case _ =>
      LeavingInMode(st, Up);
  }

  lemma DepartureClean(fs: Fine)
    requires Proper(fs)
    requires fs.pc == TestUp || fs.pc == MoveUp || fs.pc == TestDown || fs.pc == TestEmpty
    ensures Clean(Micro(fs)) && ExactTrips(Micro(fs).st)
  {
    if fs.pc == MoveUp {
      AdvanceExact(fs.st);
    }
  }

  /** Without riders of this epoch it does not matter where the car goes. */
  lemma OlderMove(st: State, floor: int)
    requires Shape(st) && Riding(st) && st.mode != Up
    ensures Riding(MoveTo(st, floor)) && Riding(MoveTo(st, floor).(mode := Loading))
  {
  }

  lemma DispatchClean(fs: Fine)
    requires Proper(fs) && (fs.pc.ScanFloors? || fs.pc.AtQueue?)
    ensures Clean(Micro(fs)) && ExactTrips(Micro(fs).st)
  {
    var st := fs.st;
    match fs.pc
    case ScanFloors(i) =>
      if i < FLOORS && st.floors[i] != [] {
        assert Queued(st.floors[i], i);
        OlderMove(st, i + 1);
      }
    case AtQueue(i) =>
      OlderMove(st, st.floor);
  }

  lemma DrainClean(fs: Fine)
    requires Proper(fs) && InDrain(fs.pc)
    ensures Clean(Micro(fs)) && ExactTrips(Micro(fs).st)
  {
    var st := fs.st;
    if fs.pc == DrainUnload {
      UnloadOlder(st, 0);
      UnloadFromFrame(st, 0);
    } else if st.onboard != [] {
      NearestOnboard(st);
      OlderMove(st, MinOnboard(st));
    }
  }

  lemma MicroClean(fs: Fine)
    requires Proper(fs)
    ensures Proper(Micro(fs))
  {
    MicroKeepsReady(fs);
    match fs.pc
    case Head =>
    case DrainTest => DrainClean(fs);
    case DrainUnload => DrainClean(fs);
    case ScanFloors(i) => DispatchClean(fs);
    case AtQueue(i) => DispatchClean(fs);
    case Enter => ServiceClean(fs);
    case AtUnload => ServiceClean(fs);
    case Dwell => ServiceClean(fs);
    case AtLoad => ServiceClean(fs);
    case Raise => ServiceClean(fs);
    case _ => DepartureClean(fs);
  }

  /** A request changes nothing that any point of the loop body relies on. */
  lemma ArriveClean(fs: Fine, p: Passenger)
    requires Proper(fs) && Formed(p)
    ensures Clean(fs.(st := Arrive(fs.st, p))) && ExactTrips(Arrive(fs.st, p))
  {
    var st, r := fs.st, Arrive(fs.st, p);
    assert fs.pc.AtQueue? ==> r.Here() != [];
    if fs.pc == AtUnload || fs.pc == Dwell {
      forall k | 0 <= k < |r.onboard| ensures ArrivedRider(r, k) {
        assert ArrivedRider(st, k);
      }
    } else if fs.pc == AtLoad || fs.pc == Raise || fs.pc == TestUp || fs.pc == MoveUp {
      forall k | 0 <= k < |r.onboard| ensures LeavingRider(r, k) {
        assert LeavingRider(st, k);
      }
    }
  }

  lemma TidyStep(fs: Fine, e: Event)
    requires Proper(fs) && (Switches(e) ==> fs.pc == Head)
    ensures Proper(FineStep(fs, e))
  {
    FineStepKeepsReady(fs, e);
    match e
    case Pass => MicroClean(fs);
    case IssueCall(code, start, dest) =>
      if ValidRequest(code, start, dest) {
        ArriveClean(fs, NewPassenger(fs.st.nodes, KindOf(code), start, dest));
      }
    case _ =>
      StepExact(fs.st, e);
      StepKeepsReady(fs.st, e);
  }

  lemma {:induction false} TidyWindow(fs: Fine, events: seq<Event>)
    requires Proper(fs) && TidyFrom(fs, events)
    ensures Proper(FineAfter(fs, events))
  {
    if events == [] {
    } else {
      var front, e := events[..|events| - 1], events[|events| - 1];
      TidyWindow(fs, front);
      TidyStep(FineAfter(fs, front), e);
    }
  }

  lemma TidyRun(events: seq<Event>)
    requires Tidy(events)
    ensures Proper(FineRun(events))
  {
    TidyWindow(Fine(Init(), Head), events);
  }

  // ---- Main results ----

  /** Whenever the scheduler is back at the head of its loop the control invariant holds, and at every
      moment each uninterrupted trip so far has taken its exact time. */
  lemma TidyRunExact(events: seq<Event>)
    requires Tidy(events)
    ensures FineRun(events).pc == Head ==> Ready(FineRun(events).st) && Riding(FineRun(events).st)
    ensures ExactTrips(FineRun(events).st)
  {
    TidyRun(events);
  }

  /** From the head of the loop after such a run, a running elevator that is not stranded and is left
      alone serves everybody, within the bounds in passes and in seconds. */
  lemma TidyRunServes(events: seq<Event>) returns (more: seq<Event>)
    requires Tidy(events) && FineRun(events).pc == Head && FineRun(events).st.started
    requires !Stranded(FineRun(events).st)
    ensures var st := FineRun(events).st;
            && Undisturbed(more) && Ready(st)
            && FineAfter(FineRun(events), more) == Fine(Passes(st, PassBound(st)), Head)
            && AllServed(Passes(st, PassBound(st)))
            && Passes(st, PassBound(st)).h.clock - st.h.clock <= 92 * WaitingCount(st) + 51 * |st.onboard| + 46
  {
    var st := FineRun(events).st;
    TidyRun(events);
    FineCounted(events);
    more := AfterIsFine(st, OnlyPasses(PassBound(st)));
    ServedWithinBound(st, PassBound(st));
    ServedWithinSeconds(st, PassBound(st));
  }

  lemma FineCounted(events: seq<Event>)
    ensures Counted(FineRun(events).st)
  {
    FineRunSound(events);
  }

  // ---- Following one rider, step by step ----

  lemma StepTracks(fs: Fine, e: Event, p: Passenger, b: Stamp)
    requires FineReady(fs) && e != StopCall
    ensures KeepsTrack(fs.st, FineStep(fs, e).st, p, b)
  {
    if e == Pass && (fs.pc == DrainUnload || fs.pc == AtUnload) {
      UnloadKeepsTrack(fs.st, 0, p, b);
    } else if e == Pass && fs.pc == AtLoad {
      LoadKeepsTrack(fs.st, p, b);
    } else {
      GrowthKeepsTrack(fs.st, FineStep(fs, e).st, p, b);
    }
  }

  /** Steps since the head of the pass; the visit is recorded when the car moves on. */
  function Phase(pc: Pc): int {
    match pc
    case Head => 0
    case Enter => 1
    case AtUnload => 2
    case Dwell => 3
    case AtLoad => 4
    case Raise => 5
    case TestUp => 6
    case MoveUp => 7
    case TestDown => -2
    case TestEmpty => -1
    case _ => 0
  }

  /** Ten steps to a service pass. */
  function Progress(fs: Fine): int {
    10 * |fs.st.h.visits| + Phase(fs.pc)
  }

  predicate InService(pc: Pc) {
    !InDrain(pc) && !pc.ScanFloors? && !pc.AtQueue?
  }

  /** A rider of this epoch keeps the elevator in service, and gets no further than the moment of
      unloading at their destination. */
  lemma RiderPlace(fs: Fine, p: Passenger, b: Stamp)
    requires Proper(fs) && OnTheWay(fs.st, p, b) && b.epoch == fs.st.h.epoch
    ensures InService(fs.pc) && (fs.pc == Head || fs.pc == Enter ==> fs.st.mode == Up)
    ensures Progress(fs) <= 10 * (b.visit + Ahead(p.start, p.dest)) + 2
  {
    var st := fs.st;
    var k :| 0 <= k < |st.onboard| && st.onboard[k] == p && st.h.boardings[k] == b;
    if fs.pc == AtUnload || fs.pc == Dwell {
      assert ArrivedRider(st, k);
      if fs.pc == Dwell && Ahead(p.start, st.floor) == Ahead(p.start, p.dest) {
        AheadTells(p.start, st.floor, p.dest);
        assert false;
      }
    } else if fs.pc == AtLoad || fs.pc == Raise || fs.pc == TestUp || fs.pc == MoveUp {
      assert LeavingRider(st, k);
    }
  }

  lemma AheadTells(s: int, c: int, d: int)
    requires IsFloor(s) && IsFloor(c) && IsFloor(d) && Ahead(s, c) == Ahead(s, d)
    ensures c == d
  {
  }

  lemma MicroProgress(fs: Fine)
    requires FineReady(fs) && InService(fs.pc)
    requires fs.pc == Head ==> fs.st.mode == Up
    requires fs.pc == TestUp ==> fs.st.mode == Up
    ensures Progress(Micro(fs)) == Progress(fs) + 1
  {
    if fs.pc == AtUnload {
      UnloadFromFrame(fs.st, 0);
    } else if fs.pc == AtLoad {
      LoadFrame(fs.st);
    }
  }

  lemma RiderStep(fs: Fine, e: Event, p: Passenger, b: Stamp)
    requires Proper(fs) && e != StopCall && b.epoch == fs.st.h.epoch
    requires OnTheWay(fs.st, p, b) || DroppedOff(fs.st, p, b)
    ensures var r := FineStep(fs, e);
            && r.st.h.epoch == fs.st.h.epoch
            && (DroppedOff(fs.st, p, b) ==> DroppedOff(r.st, p, b))
            && (OnTheWay(fs.st, p, b) ==>
                  || DroppedOff(r.st, p, b)
                  || (OnTheWay(r.st, p, b) && Progress(r) == Progress(fs) + (if e == Pass then 1 else 0)))
  {
    StepTracks(fs, e, p, b);
    if OnTheWay(fs.st, p, b) && e == Pass {
      RiderPlace(fs, p, b);
      MicroProgress(fs);
    }
  }

  lemma {:induction false} RiderSteps(fs: Fine, events: seq<Event>, p: Passenger, b: Stamp)
    requires Proper(fs) && TidyFrom(fs, events) && StopCall !in events
    requires OnTheWay(fs.st, p, b) && b.epoch == fs.st.h.epoch
    ensures var r := FineAfter(fs, events);
            && Proper(r) && r.st.h.epoch == fs.st.h.epoch
            && (DroppedOff(r.st, p, b) || (OnTheWay(r.st, p, b) && Progress(r) == Progress(fs) + PassCount(events)))
  {
    if events == [] {
    } else {
      var front, e := events[..|events| - 1], events[|events| - 1];
      RiderSteps(fs, front, p, b);
      TidyStep(FineAfter(fs, front), e);
      RiderStep(FineAfter(fs, front), e, p, b);
    }
  }

  /** Whoever is onboard at the head of the loop and boarded since the last stop gets off after exactly
      the seconds and service passes their journey takes, however requests land in the meantime: at the
      latest three steps into the pass that many passes ahead. */
  lemma RideEndsAnyway(events: seq<Event>, more: seq<Event>, k: nat)
    requires Tidy(events) && FineRun(events).pc == Head
    requires TidyFrom(FineRun(events), more) && StopCall !in more
    requires k < |FineRun(events).st.onboard|
    requires FineRun(events).st.h.boardings[k].epoch == FineRun(events).st.h.epoch
    requires PassCount(more) >= 10 * Ahead(FineRun(events).st.floor, FineRun(events).st.onboard[k].dest) + 3
    ensures var st, r := FineRun(events).st, FineAfter(FineRun(events), more).st;
            var p, b := st.onboard[k], st.h.boardings[k];
            exists j | 0 <= j < |r.h.trips| :: r.h.delivered[j] == p && r.h.trips[j].board == b
              && r.h.trips[j].alight.time == b.time + RideSeconds(p.start, p.dest)
              && r.h.trips[j].alight.visit == b.visit + Ahead(p.start, p.dest)
              && r.h.trips[j].alight.time - b.time <= 42
  {
    var fs := FineRun(events);
    var p, b, end := fs.st.onboard[k], fs.st.h.boardings[k], FineAfter(fs, more);
    TidyRun(events);
    RiderSteps(fs, more, p, b);
    if !DroppedOff(end.st, p, b) {
      RiderPlace(end, p, b);
      assert false;
    }
    var j :| 0 <= j < |end.st.h.trips| && end.st.h.delivered[j] == p
          && end.st.h.trips[j].board == b && end.st.h.trips[j].alight.epoch == b.epoch;
    assert ExactTrip(end.st.h.delivered[j], end.st.h.trips[j]);
  }

  // ---- The sweep, step by step ----

  /** The point of the loop body that a service pass has reached after that many steps. */
  function PointAt(steps: nat): Pc {
    [Head, Enter, AtUnload, Dwell, AtLoad, Raise, TestUp, MoveUp, TestDown, TestEmpty][steps % 10]
  }

  /** Service passes whose move is behind, and dwells that are over. */
  function MovesIn(steps: nat): nat {
    if steps % 10 >= 8 then steps / 10 + 1 else steps / 10
  }

  function DwellIn(steps: nat): int {
    if 4 <= steps % 10 < 8 then 1 else 0
  }

  /** Where the elevator is, in its loop and in its shaft, depends on the number of steps only. */
  ghost predicate OnStepSchedule(start: State, fs: Fine, steps: nat) {
    && fs.pc == PointAt(steps)
    && fs.st.floor == Forward(start.floor, MovesIn(steps))
    && fs.st.h.visits == start.h.visits + Sweep(start.floor, MovesIn(steps))
    && fs.st.h.clock == start.h.clock + SweepSeconds(start.floor, MovesIn(steps)) + DwellIn(steps)
    && fs.st.started
    && (steps % 10 >= 6 ==> fs.st.mode == Up)
  }

  lemma NextStep(steps: nat)
    ensures (steps + 1) % 10 == if steps % 10 == 9 then 0 else steps % 10 + 1
    ensures MovesIn(steps + 1) == if steps % 10 == 7 then MovesIn(steps) + 1 else MovesIn(steps)
    ensures DwellIn(steps + 1) - DwellIn(steps) == if steps % 10 == 3 then 1 else if steps % 10 == 7 then -1 else 0
  {
  }

  lemma MoveOnSchedule(start: State, fs: Fine, steps: nat)
    requires FineReady(fs) && OnStepSchedule(start, fs, steps) && fs.pc == MoveUp
    ensures OnStepSchedule(start, Micro(fs), steps + 1)
  {
    var k := MovesIn(steps);
    NextStep(steps);
    assert steps % 10 == 7;
    assert start.h.visits + Sweep(start.floor, k) + [fs.st.floor] == start.h.visits + Sweep(start.floor, k + 1);
  }

  /** Steps that neither move nor dwell. */
  lemma StillOnSchedule(start: State, fs: Fine, steps: nat)
    requires FineReady(fs) && OnStepSchedule(start, fs, steps) && fs.pc != MoveUp && fs.pc != Dwell
    requires fs.pc == Head ==> Serving(fs.st)
    ensures OnStepSchedule(start, Micro(fs), steps + 1)
  {
    NextStep(steps);
    if fs.pc == AtUnload {
      UnloadFromFrame(fs.st, 0);
    } else if fs.pc == AtLoad {
      LoadFrame(fs.st);
    }
  }

  lemma MicroOnSchedule(start: State, fs: Fine, steps: nat)
    requires FineReady(fs) && OnStepSchedule(start, fs, steps)
    requires fs.pc == Head ==> Serving(fs.st)
    ensures OnStepSchedule(start, Micro(fs), steps + 1)
  {
    if fs.pc == MoveUp {
      MoveOnSchedule(start, fs, steps);
    } else if fs.pc == Dwell {
      NextStep(steps);
    } else {
      StillOnSchedule(start, fs, steps);
    }
  }

  /** No pass of this window is spent idle or draining. */
  ghost predicate ServingThroughout(fs: Fine, events: seq<Event>)
    requires FineReady(fs) && Upward(fs.st)
    decreases |events|
  {
    events != [] ==>
      var front, e := events[..|events| - 1], events[|events| - 1];
      && ServingThroughout(fs, front)
      && (e == Pass && FineAfter(fs, front).pc == Head ==> Serving(FineAfter(fs, front).st))
  }

  lemma EventOnSchedule(start: State, fs: Fine, steps: nat, e: Event)
    requires FineReady(fs) && OnStepSchedule(start, fs, steps) && e != StopCall
    requires e == Pass && fs.pc == Head ==> Serving(fs.st)
    ensures OnStepSchedule(start, FineStep(fs, e), if e == Pass then steps + 1 else steps)
  {
    if e == Pass {
      MicroOnSchedule(start, fs, steps);
    }
  }

  lemma {:induction false} WindowOnStepSchedule(fs: Fine, events: seq<Event>)
    requires FineReady(fs) && Upward(fs.st) && fs.pc == Head && fs.st.started
    requires StopCall !in events && ServingThroughout(fs, events)
    ensures OnStepSchedule(fs.st, FineAfter(fs, events), PassCount(events))
  {
    if events == [] {
    } else {
      var front, e := events[..|events| - 1], events[|events| - 1];
      WindowOnStepSchedule(fs, front);
      assert PassCount(events) == if e == Pass then PassCount(front) + 1 else PassCount(front);
      EventOnSchedule(fs.st, FineAfter(fs, front), PassCount(front), e);
    }
  }

  /** A hundred steps are ten service passes: wherever requests land among them, they end at the head
      of the loop and the floor they began at, have served every floor once and have taken 46 seconds. */
  lemma TenPassesAnyway(fs: Fine, events: seq<Event>)
    requires FineReady(fs) && Upward(fs.st) && fs.pc == Head && fs.st.started && IsFloor(fs.st.floor)
    requires StopCall !in events && ServingThroughout(fs, events) && PassCount(events) == 100
    ensures var r := FineAfter(fs, events);
            && r.pc == Head && r.st.floor == fs.st.floor && r.st.h.clock == fs.st.h.clock + 46
            && |r.st.h.visits| == |fs.st.h.visits| + 10
    ensures var round := FineAfter(fs, events).st.h.visits[|fs.st.h.visits|..];
            && (forall f | IsFloor(f) :: f in round)
            && (forall i, j | 0 <= i < j < 10 :: round[i] != round[j])
  {
    WindowOnStepSchedule(fs, events);
    RoundTrip(fs.st.floor);
    assert FineAfter(fs, events).st.h.visits[|fs.st.h.visits|..] == Sweep(fs.st.floor, 10);
  }
}
