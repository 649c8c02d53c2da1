/** What the elevator promises on every run: the invariants of the other modules, stated about runs. */
module Promises {
  import opened Passengers
  import opened Machine
  import opened Runs
  import opened Books
  import opened Routines
  import opened Draining
  import opened Liveness
  import opened Stopped
  import opened Interleaving

  /** The car never carries more than 30 weight units or takes more than 10 units of room, and its
      counters are those of the people in it, at any grain. */
  lemma NeverOverfull(events: seq<Event>)
    ensures var st := FineRun(events).st;
            && Cargo(st.weight, st.units, st.odd) == CargoOf(st.onboard)
            && |st.onboard| <= st.weight <= 30 && |st.onboard| <= st.units <= 10
            && 0 <= st.odd && st.weight % 2 == st.odd % 2
  {
    FineRunSound(events);
    CargoBounds(FineRun(events).st.onboard);
  }

  /** First come, first served at every floor, at any grain. */
  lemma QueuesAreFifo(events: seq<Event>, f: int)
    requires IsFloor(f)
    ensures var st := FineRun(events).st;
            Select(st.h.departed, From(f)) + st.floors[f - 1] == Select(st.h.arrivals, From(f))
  {
    FineRunSound(events);
    assert FloorFifo(FineRun(events).st, f);
  }

  /** Nobody overtakes anybody with the same start and destination, at any grain, whatever stops and
      starts the run contains. */
  lemma NobodyOvertakes(events: seq<Event>, s: int, d: int)
    requires IsFloor(s) && IsFloor(d)
    ensures var st, q := FineRun(events).st, Between(s, d);
            Select(st.h.delivered, q) + Select(st.onboard, q) + Select(st.floors[s - 1], q) == Select(st.h.arrivals, q)
  {
    FineRunSound(events);
    assert InOrder(FineRun(events).st, s, d);
  }

  /** Each floor's counter counts exactly those delivered to it, and nobody bound for it is lost. */
  lemma CountersAddUp(events: seq<Event>, d: int)
    requires IsFloor(d)
    ensures var st := FineRun(events).st;
            && |Select(st.h.arrivals, To(d))|
               == st.served[d - 1] + |Select(st.onboard, To(d))| + Waiting(st.floors, To(d))
            && st.served[d - 1] == |Select(st.h.delivered, To(d))|
            && st.total == Sum(st.served)
  {
    FineRunSound(events);
    var st := FineRun(events).st;
    assert Conserved(st, To(d)) && Tallied(st, d);
  }

  lemma {:induction false} SelectNode(xs: seq<Passenger>, base: nat, n: nat)
    requires forall i | 0 <= i < |xs| :: xs[i].node == base + i
    ensures Select(xs, Node(n)) == if base <= n < base + |xs| then [xs[n - base]] else []
  {
    if xs == [] {
    } else {
      SelectNode(xs[1..], base + 1, n);
    }
  }

  /** Everybody whose request was accepted is in exactly one place: delivered, onboard or waiting. */
  lemma EverybodyIsInOnePlace(events: seq<Event>, n: nat)
    ensures var st := FineRun(events).st;
            |Select(st.h.delivered, Node(n))| + |Select(st.onboard, Node(n))| + Waiting(st.floors, Node(n))
            == if n < |st.h.arrivals| then 1 else 0
  {
    FineRunSound(events);
    var st := FineRun(events).st;
    assert Conserved(st, Node(n));
    SelectNode(st.h.arrivals, 0, n);
  }

  /** A car on its way has left the floor of its last service pass, and carries nobody bound for it. */
  ghost predicate LeftBehind(st: State)
    requires Shape(st)
  {
    st.mode == Up ==>
      && st.h.visits != [] && st.floor == NextFloor(st.h.visits[|st.h.visits| - 1])
      && forall k | 0 <= k < |st.onboard| :: st.onboard[k].dest != st.h.visits[|st.h.visits| - 1]
  }

  lemma ServiceLeavesBehind(st: State)
    requires Shape(st) && IsFloor(st.floor)
    ensures LeftBehind(Service(st))
  {
    AttendClearsFloor(st);
    ServiceFrame(st);
  }

  lemma StepLeavesBehind(st: State, e: Event)
    requires Ready(st) && LeftBehind(st)
    ensures LeftBehind(Step(st, e))
  {
    if e == Pass {
      if st.mode == Offline {
        DrainFrame(st);
      } else if st.mode == Idle {
        DispatchFrame(st, 0);
      } else {
        ServiceLeavesBehind(st);
      }
    }
  }

  lemma {:induction false} RunLeavesBehind(events: seq<Event>)
    ensures LeftBehind(Run(events))
  {
    if events == [] {
    } else {
      var front, e := events[..|events| - 1], events[|events| - 1];
      RunLeavesBehind(front);
      StepLeavesBehind(Run(front), e);
    }
  }

  /** What the control fields say between passes. */
  lemma ControlBetweenPasses(events: seq<Event>)
    ensures var st := Run(events);
            && (st.started <==> st.mode != Offline) && st.mode != Down && st.mode != Equal
            && (StartCall in events ==> IsFloor(st.floor))
            && (st.started || st.onboard != [] ==> IsFloor(st.floor))
            && (st.mode == Up ==> st.onboard != [] && LeftBehind(st))
            && (st.mode == Loading ==> st.onboard != [] || st.floors[st.floor - 1] != [])
            && (st.onboard != [] && st.mode != Up ==> st.previous == Up)
  {
    RunLeavesBehind(events);
    if StartCall in events {
      FloorOnceStarted(events);
    }
  }

  /** Once the elevator has been started the car is at one of its ten floors, running or stopped. */
  lemma {:induction false} FloorOnceStarted(events: seq<Event>)
    requires StartCall in events
    ensures IsFloor(Run(events).floor)
  {
    var front, e := events[..|events| - 1], events[|events| - 1];
    assert events == front + [e];
    var st := Run(front);
    if e == StartCall {
    } else {
      FloorOnceStarted(front);
      if e == Pass {
        if st.mode == Offline {
          DrainFrame(st);
        } else if st.mode == Idle {
          DispatchFrame(st, 0);
        } else {
          ServiceFrame(st);
        }
      }
    }
  }

  /** Every start that takes effect finds the car empty. */
  ghost predicate Patient(events: seq<Event>)
    decreases |events|
  {
    events != [] ==>
      var front, e := events[..|events| - 1], events[|events| - 1];
      Patient(front) && (e == StartCall ==> Run(front).started || Run(front).onboard == [])
  }

  lemma StepNeverIdlesLoaded(st: State, e: Event)
    requires Ready(st) && (st.mode == Idle ==> st.onboard == [])
    requires e == StartCall ==> st.started || st.onboard == []
    ensures Step(st, e).mode == Idle ==> Step(st, e).onboard == []
  {
    if e == Pass {
      if st.mode == Offline {
        DrainFrame(st);
      } else if st.mode == Idle {
        DispatchFrame(st, 0);
      } else {
        ServiceFrame(st);
      }
    }
  }

  lemma {:induction false} PatientNeverIdlesLoaded(events: seq<Event>)
    requires Patient(events)
    ensures Run(events).mode == Idle ==> Run(events).onboard == []
  {
    if events == [] {
    } else {
      var front, e := events[..|events| - 1], events[|events| - 1];
      PatientNeverIdlesLoaded(front);
      StepNeverIdlesLoaded(Run(front), e);
    }
  }

  /** Everybody waiting or onboard in `st` has been delivered in `r`, each counted at the floor they
      asked for, and the car is idle. */
  ghost predicate Delivered(st: State, r: State)
    requires Shape(st) && Shape(r)
  {
    && r.mode == Idle && r.onboard == [] && (forall i | 0 <= i < FLOORS :: r.floors[i] == [])
    && r.total == st.total + Waiting(st.floors, Everyone) + |st.onboard|
    && (forall d | IsFloor(d) ::
          r.served[d - 1] == st.served[d - 1] + Waiting(st.floors, To(d)) + |Select(st.onboard, To(d))|)
  }

  lemma DeliveredWithinBound(st: State, n: nat)
    requires Ready(st) && Sound(st) && st.started && !Stranded(st) && n >= PassBound(st)
    ensures Delivered(st, Passes(st, n))
  {
    ServedWithinBound(st, n);
    ServedAccounts(st, n);
  }

  /** If the elevator is only ever started empty, then whenever it is running and left alone, the W
      people waiting and the B onboard are all delivered within 13 W + 11 B + 1 passes. */
  lemma EverybodyIsServed(events: seq<Event>, n: nat)
    requires Patient(events) && Run(events).started
    requires n >= 13 * Waiting(Run(events).floors, Everyone) + 11 * |Run(events).onboard| + 1
    ensures Delivered(Run(events), Passes(Run(events), n))
  {
    var st := Run(events);
    PatientNeverIdlesLoaded(events);
    RunSound(events);
    DeliveredWithinBound(st, n);
  }

  /** On any run whatever, a running elevator left alone serves everybody exactly if it is not idle
      with people onboard and nobody waiting. */
  lemma ServedExactlyIf(events: seq<Event>)
    requires Run(events).started
    ensures (exists n: nat :: AllServed(Passes(Run(events), n)))
       <==> !(&& Run(events).mode == Idle && Run(events).onboard != []
              && forall i | 0 <= i < FLOORS :: Run(events).floors[i] == [])
  {
    RunSound(events);
    ServedIff(Run(events));
  }

  /** One pass empties a stopped car: it stops once at each floor somebody wants, from the lowest to
      the highest, and needs two seconds a floor on the way. */
  lemma StoppedCarEmpties(events: seq<Event>)
    requires Run(events).mode == Offline && Run(events).onboard != []
    ensures var st, r, route := Run(events), Tick(Run(events)), Route(Run(events));
            && r.onboard == [] && r.total == st.total + |st.onboard| && r.floors == st.floors
            && route != []
            && (forall d :: d in route <==> Wanted(st.onboard, d))
            && (forall i, j | 0 <= i < j < |route| :: route[i] < route[j])
            && r.h.clock == st.h.clock + 2 * (Abs(st.floor - route[0]) + (route[|route| - 1] - route[0]))
  {
    var st := Run(events);
    var route := Route(st);
    DrainFrame(st);
    DrainCost(st);
    RouteSweeps(st);
    forall d ensures d in route <==> Wanted(st.onboard, d) {
      RouteCovers(st, d);
    }
    forall i, j | 0 <= i < j < |route| ensures route[i] < route[j] {
      assert Sweeps(Up, route);
    }
    assert |route| > 1 ==> route[0] < route[|route| - 1];
  }

  /** From a stop to the next start: nobody boards, each queue only gains the new requests, and one
      pass delivers all who were onboard. */
  lemma NobodyBoardsWhileStopped(events: seq<Event>, more: seq<Event>)
    requires !Run(events).started && StartCall !in more
    ensures Run(events + more) == After(Run(events), more)
    ensures Frozen(Run(events), Run(events + more), Pass in more)
  {
    AfterConcat(Init(), events, more);
    WhileStopped(Run(events), more);
  }

  // ---- What each system call does, on every run ----

  /** A request within range puts exactly one passenger, as asked, at the end of its queue. */
  lemma RequestIsQueued(events: seq<Event>, code: int, start: int, dest: int)
    requires 1 <= code <= 4 && 1 <= start <= 10 && 1 <= dest <= 10
    ensures Enqueued(Run(events), Run(events + [IssueCall(code, start, dest)]), code, start, dest)
  {
    AfterSnoc(Init(), events, IssueCall(code, start, dest));
    IssueEnqueues(Run(events), code, start, dest);
  }

  /** Any other request changes nothing. */
  lemma RequestIsRefused(events: seq<Event>, code: int, start: int, dest: int)
    requires !(1 <= code <= 4 && 1 <= start <= 10 && 1 <= dest <= 10)
    ensures Run(events + [IssueCall(code, start, dest)]) == Run(events)
  {
    AfterSnoc(Init(), events, IssueCall(code, start, dest));
  }

  /** A start that takes effect puts the car, wherever it is, at floor 1 and idle, with everybody where
      they were; a start of a running elevator changes nothing. */
  lemma StartPutsAtOne(events: seq<Event>)
    ensures var st, r := Run(events), Run(events + [StartCall]);
            r == if st.started then st else st.(mode := Idle, floor := 1, started := true)
  {
    AfterSnoc(Init(), events, StartCall);
  }

  /** A stop that takes effect leaves the car where it is with everybody in it, and saves the direction
      if it was going up; a stop of a stopped elevator changes nothing. */
  lemma StopKeepsPlace(events: seq<Event>)
    ensures var st, r := Run(events), Run(events + [StopCall]);
            && (!st.started ==> r == st)
            && (st.started ==> r == st.(previous := r.previous, mode := Offline, started := false,
                                        h := st.h.(epoch := st.h.epoch + 1)))
            && (st.started && st.mode == Up ==> r.previous == Up)
            && (st.started && st.mode != Up ==> r.previous == st.previous)
  {
    AfterSnoc(Init(), events, StopCall);
  }

  /** The floors between which everybody onboard wants to go. */
  ghost predicate Extremes(xs: seq<Passenger>, lo: int, hi: int) {
    Wanted(xs, lo) && Wanted(xs, hi) && forall k | 0 <= k < |xs| :: lo <= xs[k].dest <= hi
  }

  lemma RouteEnds(st: State, lo: int, hi: int)
    requires DrainReady(st) && st.onboard != [] && st.previous == Up && Extremes(st.onboard, lo, hi)
    requires Route(st) != []
    ensures Route(st)[0] == lo && Route(st)[|Route(st)| - 1] == hi
  {
    var route := Route(st);
    RouteSweeps(st);
    RouteCovers(st, lo);
    RouteCovers(st, hi);
    RouteCovers(st, route[0]);
    RouteCovers(st, route[|route| - 1]);
  }

  lemma DrainBetween(st: State, lo: int, hi: int)
    requires DrainReady(st) && st.onboard != [] && st.previous == Up && Extremes(st.onboard, lo, hi)
    ensures Drain(st).floor == hi
    ensures Drain(st).h.clock == st.h.clock + 2 * (Abs(st.floor - lo) + (hi - lo))
  {
    DrainCost(st);
    RouteEnds(st, lo, hi);
    assert lo <= hi;
  }

  /** Stopping a running car with people onboard: one pass later all are off, the car stands at the
      highest floor any of them wanted, and the way, from the floor it was stopped at, took two seconds
      a floor to the lowest of these floors and up to the highest. */
  lemma StopThenDrain(events: seq<Event>, lo: int, hi: int)
    requires Run(events).started && Run(events).onboard != [] && Extremes(Run(events).onboard, lo, hi)
    ensures var st, r := Run(events), Run(events + [StopCall] + [Pass]);
            && r.mode == Offline && r.onboard == [] && r.floors == st.floors
            && r.total == st.total + |st.onboard| && r.floor == hi
            && r.h.clock == st.h.clock + 2 * (Abs(st.floor - lo) + (hi - lo))
  {
    var st, stopped := Run(events), Run(events + [StopCall]);
    StopKeepsPlace(events);
    AfterSnoc(Init(), events + [StopCall], Pass);
    DrainFrame(stopped);
    DrainBetween(stopped, lo, hi);
  }

  // ---- The floor announced as next ----

  /** Where the last move that took time led; 0 before the first. */
  function LastTarget(events: seq<Event>): int
    decreases |events|
  {
    if events == [] then 0
    else
      var front := events[..|events| - 1];
      if Run(events).h.clock > Run(front).h.clock then Run(events).floor else LastTarget(front)
  }

  lemma StepShows(st: State, e: Event)
    requires Ready(st)
    ensures if Step(st, e).h.clock > st.h.clock then Step(st, e).nextFloor == Step(st, e).floor
            else Step(st, e).nextFloor == st.nextFloor && Step(st, e).h.clock == st.h.clock
    ensures e == Pass && Serving(st) ==> Step(st, e).h.clock > st.h.clock
  {
    if e == Pass {
      if st.mode == Offline {
        DrainShows(st);
      } else if st.mode == Idle {
        DispatchShows(st, 0);
      } else {
        ServiceShows(st);
      }
    }
  }

  /** On every run, next_floor is where the last move that took time led; in particular after a service
      pass, and after a dispatch or a drain that moved, it is the floor the car stands on. */
  lemma {:induction false} NextFloorIsLastTarget(events: seq<Event>)
    ensures Run(events).nextFloor == LastTarget(events)
  {
    if events == [] {
    } else {
      var front, e := events[..|events| - 1], events[|events| - 1];
      NextFloorIsLastTarget(front);
      StepShows(Run(front), e);
    }
  }
}
