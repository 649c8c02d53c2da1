/** Runs of the elevator, and the control invariant every one of them keeps. */
module Runs {
  import opened Passengers
  import opened Machine

  /** The next pass will be a service pass. */
  predicate Serving(st: State) {
    st.mode == Loading || st.mode == Up
  }

  /** What loading leaves alone. */
  lemma {:induction false} LoadFrame(st: State)
    requires Shape(st) && IsFloor(st.floor)
    ensures var r := Load(st);
            && st.onboard <= r.onboard
            && r.floor == st.floor && r.mode == st.mode && r.previous == st.previous
            && r.started == st.started && r.nextFloor == st.nextFloor && r.nodes == st.nodes
            && (forall i | 0 <= i < FLOORS && i != st.floor - 1 :: r.floors[i] == st.floors[i])
            && r.h == st.h.(departed := r.h.departed, delivered := r.h.delivered,
                            boardings := r.h.boardings, trips := r.h.trips)
    decreases |st.Here()|
  {
    var q := st.Here();
    if q == [] {
    } else if q[0].heading == Equal {
      LoadFrame(ServeHere(st));
    } else if Fits(st, q[0]) {
      LoadFrame(Board(st));
    }
  }

  /** Between two states: either the car has not moved, or next_floor is where the last move led. */
  ghost predicate Shown(st: State, r: State) {
    || (r.h.clock == st.h.clock && r.floor == st.floor && r.nextFloor == st.nextFloor)
    || (r.h.clock > st.h.clock && r.nextFloor == r.floor)
  }

  lemma MoveShows(st: State, floor: int)
    ensures Shown(st, MoveTo(st, floor))
    ensures floor != st.floor ==> MoveTo(st, floor).nextFloor == floor == MoveTo(st, floor).floor
  {
  }

  lemma {:induction false} DispatchShows(st: State, i: nat)
    requires Shape(st) && i <= FLOORS
    ensures Shown(st, Dispatch(st, i))
    decreases FLOORS - i
  {
    if i == FLOORS {
    } else if st.floors[i] == [] {
      DispatchShows(st, i + 1);
    } else {
      MoveShows(st, st.floors[i][0].start);
      DispatchShows(MoveTo(st, st.floors[i][0].start).(mode := Loading), i + 1);
    }
  }

  lemma {:induction false} DrainShows(st: State)
    requires DrainReady(st)
    ensures Shown(st, Drain(st))
    decreases |st.onboard|
  {
    if st.onboard == [] {
    } else {
      DrainStepShrinks(st);
      MoveShows(st, MinOnboard(st));
      UnloadFromFrame(MoveTo(st, MinOnboard(st)), 0);
      DrainShows(DrainStep(st));
    }
  }

  lemma ServiceShows(st: State)
    requires Shape(st) && IsFloor(st.floor)
    ensures Service(st).nextFloor == Service(st).floor && Service(st).h.clock > st.h.clock
  {
    AttendFrame(st);
    MoveShows(Attend(st).(mode := Up), NextFloor(st.floor));
  }

  lemma AttendFrame(st: State)
    requires Shape(st) && IsFloor(st.floor)
    ensures var r := Attend(st);
            && r.floor == st.floor && r.mode == Loading && r.previous == st.previous
            && r.started == st.started && r.nodes == st.nodes
            && (forall i | 0 <= i < FLOORS && i != st.floor - 1 :: r.floors[i] == st.floors[i])
            && r.h == st.h.(clock := st.h.clock + 1, departed := r.h.departed, delivered := r.h.delivered,
                            boardings := r.h.boardings, trips := r.h.trips)
  {
    UnloadFromFrame(st.(mode := Loading), 0);
    LoadFrame(Sleep(Unload(st.(mode := Loading)), 1));
  }

  /** Everything about a service pass but who is in which list. */
  lemma ServiceFrame(st: State)
    requires Shape(st) && IsFloor(st.floor)
    ensures var r := Service(st);
            && r.mode == (if r.onboard == [] then Idle else Up)
            && r.floor == NextFloor(st.floor) && r.previous == st.previous
            && r.started == st.started && r.nodes == st.nodes
            && r.onboard == Attend(st).onboard && r.floors == Attend(st).floors
            && r.served == Attend(st).served && r.total == Attend(st).total
            && r.h == Attend(st).h.(clock := st.h.clock + 1 + 2 * Abs(st.floor - NextFloor(st.floor)),
                                    visits := st.h.visits + [st.floor])
            && r.h.epoch == st.h.epoch && r.h.arrivals == st.h.arrivals
  {
    AttendFrame(st);
  }

  /** Dispatching moves the car and may set it loading; nothing else changes. */
  lemma {:induction false} DispatchOnlyMoves(st: State, i: nat)
    requires Shape(st) && i <= FLOORS
    ensures var r := Dispatch(st, i);
            r == st.(mode := r.mode, floor := r.floor, nextFloor := r.nextFloor, h := st.h.(clock := r.h.clock))
    decreases FLOORS - i
  {
    if i == FLOORS {
    } else if st.floors[i] == [] {
      DispatchOnlyMoves(st, i + 1);
    } else {
      DispatchOnlyMoves(MoveTo(st, st.floors[i][0].start).(mode := Loading), i + 1);
    }
  }

  /** It loads exactly if it came past a queue, and then it stands at one. */
  lemma {:induction false} DispatchStandsAtQueue(st: State, i: nat)
    requires Shape(st) && i <= FLOORS && IsFloor(st.floor)
    requires st.mode == Loading ==> st.Here() != []
    ensures var r := Dispatch(st, i);
            && IsFloor(r.floor) && (r.mode == st.mode || r.mode == Loading)
            && (r.mode == Loading ==> r.Here() != [])
            && (r.mode != Loading ==> forall k | i <= k < FLOORS :: st.floors[k] == [])
    decreases FLOORS - i
  {
    if i == FLOORS {
    } else if st.floors[i] == [] {
      DispatchStandsAtQueue(st, i + 1);
    } else {
      assert Queued(st.floors[i], i);
      DispatchStandsAtQueue(MoveTo(st, st.floors[i][0].start).(mode := Loading), i + 1);
    }
  }

  lemma {:induction false} DispatchNobody(st: State, i: nat)
    requires Shape(st) && i <= FLOORS
    requires forall k | i <= k < FLOORS :: st.floors[k] == []
    ensures Dispatch(st, i) == st
    decreases FLOORS - i
  {
    if i == FLOORS {
    } else {
      DispatchNobody(st, i + 1);
    }
  }

  lemma DispatchFrame(st: State, i: nat)
    requires Shape(st) && i <= FLOORS && IsFloor(st.floor)
    requires st.mode == Loading ==> st.Here() != []
    ensures var r := Dispatch(st, i);
            && IsFloor(r.floor) && (r.mode == st.mode || r.mode == Loading)
            && (r.mode == Loading ==> r.Here() != [])
            && (r.mode != Loading ==> forall k | i <= k < FLOORS :: st.floors[k] == [])
            && ((forall k | i <= k < FLOORS :: st.floors[k] == []) ==> r == st)
            && r == st.(mode := r.mode, floor := r.floor, nextFloor := r.nextFloor,
                        h := st.h.(clock := r.h.clock))
  {
    DispatchOnlyMoves(st, i);
    DispatchStandsAtQueue(st, i);
    if forall k | i <= k < FLOORS :: st.floors[k] == [] {
      DispatchNobody(st, i);
    }
  }

  lemma {:induction false} DrainFrame(st: State)
    requires DrainReady(st)
    ensures var r := Drain(st);
            && r.onboard == []
            && (IsFloor(st.floor) ==> IsFloor(r.floor)) && (st.onboard == [] ==> r == st)
            && r.floors == st.floors && r.mode == st.mode && r.previous == st.previous
            && r.started == st.started && r.nodes == st.nodes
            && r.h == st.h.(clock := r.h.clock, delivered := r.h.delivered,
                            boardings := r.h.boardings, trips := r.h.trips)
            && r.total == st.total + |st.onboard|
    decreases |st.onboard|
  {
    if st.onboard == [] {
    } else {
      DrainStepShrinks(st);
      UnloadFromFrame(MoveTo(st, MinOnboard(st)), 0);
      DrainFrame(DrainStep(st));
    }
  }

  /** No system call and no scheduler pass breaks the control invariant; in particular a stopped
      elevator can always be drained, which is what makes every pass terminate. */
  lemma StepKeepsReady(st: State, e: Event)
    requires Ready(st)
    ensures Ready(Step(st, e))
  {
    if e == Pass {
      if st.mode == Offline {
        DrainFrame(st);
      } else if st.mode == Idle {
        DispatchFrame(st, 0);
      } else {
        ServiceFrame(st);
      }
    }
  }

  /** The state after a sequence of events, system calls landing between scheduler passes. */
  function After(st: State, events: seq<Event>): (r: State)
    requires Ready(st)
    ensures Ready(r)
  {
    if events == [] then st
    else
      var before := After(st, events[..|events| - 1]);
      StepKeepsReady(before, events[|events| - 1]);
      Step(before, events[|events| - 1])
  }

  function Run(events: seq<Event>): (r: State)
    ensures Ready(r)
  {
    After(Init(), events)
  }

  lemma AfterSnoc(st: State, events: seq<Event>, e: Event)
    requires Ready(st)
    ensures After(st, events + [e]) == Step(After(st, events), e)
  {
    assert (events + [e])[..|events|] == events;
  }

  lemma {:induction false} AfterConcat(st: State, a: seq<Event>, b: seq<Event>)
    requires Ready(st)
    ensures After(st, a + b) == After(After(st, a), b)
  {
    if b == [] {
      assert a + b == a;
    } else {
      var front, last := b[..|b| - 1], b[|b| - 1];
      assert b == front + [last] && a + b == (a + front) + [last];
      AfterConcat(st, a, front);
      AfterSnoc(st, a + front, last);
      AfterSnoc(After(st, a), front, last);
    }
  }

  function OnlyPasses(n: nat): seq<Event> {
    seq(n, i => Pass)
  }

  /** Scheduler passes with no system call in between. */
  function Passes(st: State, n: nat): (r: State)
    requires Ready(st)
    ensures Ready(r)
  {
    After(st, OnlyPasses(n))
  }

  lemma PassesFromNext(st: State, n: nat)
    requires Ready(st)
    ensures n > 0 ==> Ready(Tick(st)) && Passes(st, n) == Passes(Tick(st), n - 1)
    ensures n == 0 ==> Passes(st, n) == st
  {
    if n > 0 {
      StepKeepsReady(st, Pass);
      assert OnlyPasses(n) == [Pass] + OnlyPasses(n - 1);
      AfterConcat(st, [Pass], OnlyPasses(n - 1));
      assert After(st, []) == st && [Pass][..0] == [];
    }
  }
}
