/** Everybody is eventually served: a measure every scheduler pass decreases, the bound on the number
    of passes it gives, and exactly which running elevators never get there. */
module Liveness {
  import opened Passengers
  import opened Machine
  import opened Runs
  import opened Books
  import opened Routines

  /** What the riders still cost: the floors ahead of each of them, and 2 for getting off. */
  function RideCost(xs: seq<Passenger>, floor: int): int {
    if xs == [] then 0 else Ahead(floor, xs[0].dest) + 2 + RideCost(xs[1..], floor)
  }

  function WaitingCount(st: State): nat {
    Waiting(st.floors, Everyone)
  }

  /** 13 for everybody waiting: more than any ride can cost. */
  function Outlay(st: State): int {
    13 * WaitingCount(st) + RideCost(st.onboard, st.floor)
  }

  function Measure(st: State): int {
    Outlay(st) + (if st.mode == Idle then 1 else 0)
  }

  lemma {:induction false} RideCostConcat(a: seq<Passenger>, b: seq<Passenger>, floor: int)
    ensures RideCost(a + b, floor) == RideCost(a, floor) + RideCost(b, floor)
  {
    if a == [] {
      assert a + b == b;
    } else {
      assert (a + b)[1..] == a[1..] + b;
      RideCostConcat(a[1..], b, floor);
    }
  }

  lemma {:induction false} RideCostBounds(xs: seq<Passenger>, floor: int)
    requires Aboard(xs) && IsFloor(floor)
    ensures 2 * |xs| <= RideCost(xs, floor) <= 11 * |xs|
  {
    if xs == [] {
    } else {
      RideCostBounds(xs[1..], floor);
    }
  }

  /** One floor further, everybody who stayed onboard is one floor nearer. */
  lemma {:induction false} RideCostNext(xs: seq<Passenger>, floor: int)
    requires Aboard(xs) && IsFloor(floor)
    requires forall k | 0 <= k < |xs| :: xs[k].dest != floor
    ensures RideCost(xs, NextFloor(floor)) == RideCost(xs, floor) - |xs|
  {
    if xs == [] {
    } else {
      RideCostNext(xs[1..], floor);
    }
  }

  lemma RideCostRemove(xs: seq<Passenger>, k: nat, floor: int)
    requires k < |xs|
    ensures RideCost(xs, floor) == RideCost(xs[..k] + xs[k + 1..], floor) + Ahead(floor, xs[k].dest) + 2
  {
    assert xs == xs[..k] + ([xs[k]] + xs[k + 1..]);
    RideCostConcat(xs[..k], [xs[k]] + xs[k + 1..], floor);
    RideCostConcat([xs[k]], xs[k + 1..], floor);
    RideCostConcat(xs[..k], xs[k + 1..], floor);
    assert [xs[k]][1..] == [];
  }

  /** Everybody who gets off takes at least 2 with them. */
  lemma {:induction false} UnloadPays(st: State, i: nat)
    requires Shape(st) && i <= |st.onboard|
    ensures var r := UnloadFrom(st, i);
            && r.floors == st.floors
            && Outlay(r) == Outlay(st) - 2 * (|st.onboard| - |r.onboard|)
    decreases |st.onboard| - i
  {
    if i == |st.onboard| {
    } else if st.onboard[i].dest == st.floor {
      RideCostRemove(st.onboard, i, st.floor);
      UnloadPays(Alight(st, i), i);
    } else {
      UnloadPays(st, i + 1);
    }
  }

  lemma HeadLeavesAll(st: State)
    requires SomeoneHere(st)
    ensures WaitingCount(LeaveQueue(st)) == WaitingCount(st) - 1
  {
    HeadLeaves(st, Everyone);
  }

  lemma BoardPays(st: State)
    requires SomeoneHere(st) && st.Here()[0].heading != Equal
    ensures Outlay(Board(st)) <= Outlay(st) - 2
  {
    var p := st.Here()[0];
    assert Queued(st.Here(), st.floor - 1);
    HeadLeavesAll(st);
    RideCostConcat(st.onboard, [p], st.floor);
    assert [p][1..] == [];
  }

  /** So does everybody who leaves the queue: 13 drops to at most 11, or to nothing. */
  lemma {:induction false} LoadPays(st: State)
    requires Shape(st) && IsFloor(st.floor)
    ensures Outlay(Load(st)) <= Outlay(st) - 2 * Taken(st)
    decreases |st.Here()|
  {
    var q := st.Here();
    if q == [] {
    } else if q[0].heading == Equal {
      HeadLeavesAll(st);
      TakenStep(st, ServeHere(st));
      LoadPays(ServeHere(st));
    } else if Fits(st, q[0]) {
      BoardPays(st);
      TakenStep(st, Board(st));
      LoadPays(Board(st));
    }
  }

  ghost predicate AllServed(st: State)
    requires Shape(st)
  {
    st.mode == Idle && st.onboard == [] && forall i | 0 <= i < FLOORS :: st.floors[i] == []
  }

  /** Idle with people onboard and nobody waiting: only the queues wake an idle car. */
  ghost predicate Stranded(st: State)
    requires Shape(st)
  {
    st.mode == Idle && st.onboard != [] && forall i | 0 <= i < FLOORS :: st.floors[i] == []
  }

  /** A running elevator that is not idle with people onboard. */
  ghost predicate Rolling(st: State) {
    Ready(st) && Counted(st) && st.started && (st.mode == Idle ==> st.onboard == [])
  }

  lemma ServicePays(st: State)
    requires Ready(st) && Counted(st) && st.started && st.mode != Idle
    ensures Measure(Service(st)) < Measure(st)
  {
    var a := st.(mode := Loading);
    var u := Sleep(Unload(a), 1);
    UnloadFromFrame(a, 0);
    UnloadPays(a, 0);
    LoadPays(u);
    AttendClearsFloor(st);
    var l := Attend(st);
    AttendFrame(st);
    ServiceFrame(st);
    RideCostNext(l.onboard, st.floor);
    if l.onboard == [] && st.onboard == [] {
      assert Unload(a) == a;
      EmptyCarTakesSomeone(u);
    }
  }

  lemma DispatchPays(st: State)
    requires Ready(st) && st.mode == Idle && !AllServed(st) && !Stranded(st)
    requires st.onboard == []
    ensures Measure(Tick(st)) < Measure(st)
  {
    DispatchFrame(st, 0);
  }

  lemma {:induction false} UnloadCounted(st: State, i: nat)
    requires Shape(st) && i <= |st.onboard| && Counted(st)
    ensures Counted(UnloadFrom(st, i))
    decreases |st.onboard| - i
  {
    if i == |st.onboard| {
    } else if st.onboard[i].dest == st.floor {
      AlightKeepsCount(st, i);
      UnloadCounted(Alight(st, i), i);
    } else {
      UnloadCounted(st, i + 1);
    }
  }

  lemma {:induction false} LoadCounted(st: State)
    requires Shape(st) && IsFloor(st.floor) && Counted(st)
    ensures Counted(Load(st))
    decreases |st.Here()|
  {
    var q := st.Here();
    if q == [] {
    } else if q[0].heading == Equal {
      LoadCounted(ServeHere(st));
    } else if Fits(st, q[0]) {
      BoardKeepsCount(st);
      LoadCounted(Board(st));
    }
  }

  lemma AttendCounted(st: State)
    requires Shape(st) && IsFloor(st.floor) && Counted(st)
    ensures Counted(Attend(st))
  {
    var a := st.(mode := Loading);
    UnloadFromFrame(a, 0);
    UnloadCounted(a, 0);
    LoadCounted(Sleep(Unload(a), 1));
  }

  lemma RunningPassCounted(st: State)
    requires Ready(st) && Counted(st) && st.started
    ensures Ready(Tick(st)) && Counted(Tick(st)) && Tick(st).started
  {
    StepKeepsReady(st, Pass);
    if st.mode == Idle {
      DispatchFrame(st, 0);
    } else {
      AttendCounted(st);
      ServiceFrame(st);
    }
  }

  /** While there is work, every pass brings the end nearer. */
  lemma PassPays(st: State)
    requires Rolling(st) && !AllServed(st)
    ensures Rolling(Tick(st)) && Measure(Tick(st)) < Measure(st)
  {
    RunningPassCounted(st);
    if st.mode == Idle {
      DispatchFrame(st, 0);
      DispatchPays(st);
    } else {
      ServiceFrame(st);
      ServicePays(st);
    }
  }

  lemma AllServedStays(st: State, n: nat)
    requires Ready(st) && (AllServed(st) || Stranded(st))
    ensures Passes(st, n) == st
    decreases n
  {
    PassesFromNext(st, n);
    if n > 0 {
      DispatchFrame(st, 0);
      AllServedStays(st, n - 1);
    }
  }

  lemma MeasureBounds(st: State)
    requires Ready(st) && st.started
    ensures 1 <= Measure(st) <= 13 * WaitingCount(st) + 11 * |st.onboard| + 1
    ensures st.mode != Idle ==> Measure(st) <= 13 * WaitingCount(st) + 11 * |st.onboard|
  {
    RideCostBounds(st.onboard, st.floor);
    if st.onboard == [] && st.mode != Idle {
      SelectAll(st.Here(), Everyone);
      WaitingAtLeast(st.floors, st.floor - 1, Everyone);
    }
  }

  lemma {:induction false} ServedWithinMeasure(st: State, n: nat)
    requires Rolling(st) && n >= Measure(st)
    ensures AllServed(Passes(st, n))
    decreases n
  {
    MeasureBounds(st);
    PassesFromNext(st, n);
    if AllServed(st) {
      AllServedStays(st, n);
    } else {
      PassPays(st);
      ServedWithinMeasure(Tick(st), n - 1);
    }
  }

  /** With people onboard an idle car only needs somebody to wait: the dispatch sets it rolling. */
  lemma DispatchSetsRolling(st: State)
    requires Ready(st) && Counted(st) && st.mode == Idle && st.onboard != [] && !Stranded(st)
    ensures Rolling(Tick(st)) && Measure(Tick(st)) <= 13 * WaitingCount(st) + 11 * |st.onboard|
  {
    RunningPassCounted(st);
    DispatchFrame(st, 0);
    MeasureBounds(Tick(st));
  }

  function PassBound(st: State): nat {
    13 * WaitingCount(st) + 11 * |st.onboard| + 1
  }

  lemma ServedFromNext(st: State, n: nat)
    requires Ready(st) && Rolling(Tick(st)) && n > Measure(Tick(st))
    ensures AllServed(Passes(st, n))
  {
    MeasureBounds(Tick(st));
    PassesFromNext(st, n);
    ServedWithinMeasure(Tick(st), n - 1);
  }

  /** W waiting and B onboard are all served within 13 W + 11 B + 1 passes, unless stranded. */
  lemma ServedWithinBound(st: State, n: nat)
    requires Ready(st) && Counted(st) && st.started && !Stranded(st)
    requires n >= PassBound(st)
    ensures AllServed(Passes(st, n))
  {
    if st.mode == Idle && st.onboard != [] {
      DispatchSetsRolling(st);
      ServedFromNext(st, n);
    } else {
      assert Rolling(st);
      MeasureBounds(st);
      ServedWithinMeasure(st, n);
    }
  }

  /** A running elevator left alone serves everybody if and only if it is not stranded. */
  lemma ServedIff(st: State)
    requires Ready(st) && Counted(st) && st.started
    ensures (exists n: nat :: AllServed(Passes(st, n))) <==> !Stranded(st)
  {
    if Stranded(st) {
      forall n: nat ensures !AllServed(Passes(st, n)) {
        AllServedStays(st, n);
      }
    } else {
      ServedWithinBound(st, PassBound(st));
      assert AllServed(Passes(st, PassBound(st)));
    }
  }

  lemma PassKeepsRequests(st: State)
    requires Ready(st)
    ensures Tick(st).h.arrivals == st.h.arrivals && Tick(st).nodes == st.nodes
  {
    if st.mode == Offline {
      DrainFrame(st);
    } else if st.mode == Idle {
      DispatchFrame(st, 0);
    } else {
      AttendFrame(st);
      ServiceFrame(st);
    }
  }

  lemma {:induction false} PassesKeepRequests(st: State, n: nat)
    requires Ready(st)
    ensures Passes(st, n).h.arrivals == st.h.arrivals
    decreases n
  {
    PassesFromNext(st, n);
    if n == 0 {
    } else {
      PassKeepsRequests(st);
      PassesKeepRequests(Tick(st), n - 1);
    }
  }

  lemma {:induction false} NobodyWaitsFor(floors: seq<seq<Passenger>>, q: Query)
    requires forall i | 0 <= i < |floors| :: floors[i] == []
    ensures Waiting(floors, q) == 0
  {
    if floors == [] {
    } else {
      NobodyWaitsFor(floors[1..], q);
    }
  }

  /** Whenever everybody has been served, each floor's counter has grown by the number of people who
      were bound for it, and the total by the number of people there were. */
  lemma ServedAccounts(st: State, n: nat)
    requires Ready(st) && Sound(st) && AllServed(Passes(st, n))
    ensures var r := Passes(st, n);
            && r.total == st.total + WaitingCount(st) + |st.onboard|
            && forall d | IsFloor(d) ::
                 r.served[d - 1] == st.served[d - 1] + Waiting(st.floors, To(d)) + |Select(st.onboard, To(d))|
  {
    var r := Passes(st, n);
    PassesKeepRequests(st, n);
    AfterSound(st, OnlyPasses(n));
    assert Conserved(st, Everyone) && Conserved(r, Everyone);
    SelectAll(st.h.delivered, Everyone);
    SelectAll(r.h.delivered, Everyone);
    SelectAll(st.onboard, Everyone);
    NobodyWaitsFor(r.floors, Everyone);
    forall d | IsFloor(d)
      ensures r.served[d - 1] == st.served[d - 1] + Waiting(st.floors, To(d)) + |Select(st.onboard, To(d))|
    {
      assert Conserved(st, To(d)) && Conserved(r, To(d)) && Tallied(st, d) && Tallied(r, d);
      NobodyWaitsFor(r.floors, To(d));
    }
  }

  // ---- How long it lasts ----

  /** Dispatches still to come: each is followed by somebody leaving a queue. */
  function DispatchesLeft(st: State): int {
    if st.mode == Loading && st.onboard == [] then WaitingCount(st) - 1 else WaitingCount(st)
  }

  /** Five times the seconds still needed, at most. A service pass costs 3 seconds, or 19 with the way
      from 10 down to 1; crediting 8 fifths of a second per floor of height evens that out at 23 fifths. */
  function SecondsLeft(st: State): int {
    23 * Measure(st) + 8 * st.floor + 157 * DispatchesLeft(st)
  }

  lemma {:induction false} LoadShortens(st: State)
    requires Shape(st) && IsFloor(st.floor)
    ensures WaitingCount(Load(st)) == WaitingCount(st) - Taken(st)
    decreases |st.Here()|
  {
    var q := st.Here();
    if q == [] {
    } else if q[0].heading == Equal {
      HeadLeavesAll(st);
      TakenStep(st, ServeHere(st));
      LoadShortens(ServeHere(st));
    } else if Fits(st, q[0]) {
      HeadLeavesAll(st);
      TakenStep(st, Board(st));
      LoadShortens(Board(st));
    }
  }

  lemma AttendShortens(st: State)
    requires Rolling(st) && st.mode != Idle
    ensures WaitingCount(Attend(st)) <= WaitingCount(st)
    ensures st.onboard == [] ==> WaitingCount(Attend(st)) <= WaitingCount(st) - 1
  {
    var a := st.(mode := Loading);
    var u := Sleep(Unload(a), 1);
    UnloadFromFrame(a, 0);
    LoadShortens(u);
    if st.onboard == [] {
      assert Unload(a) == a;
      EmptyCarTakesSomeone(u);
    }
  }

  lemma {:induction false} FindLowest(floors: seq<seq<Passenger>>, i: nat) returns (lo: int)
    requires |floors| == FLOORS && i < FLOORS && floors[i] != []
    ensures 1 <= lo <= i + 1 && floors[lo - 1] != []
    ensures forall k | 0 <= k < lo - 1 :: floors[k] == []
    decreases i
  {
    if j: nat :| j < i && floors[j] != [] {
      lo := FindLowest(floors, j);
    } else {
      lo := i + 1;
    }
  }

  lemma {:induction false} FindHighest(floors: seq<seq<Passenger>>, i: nat) returns (hi: int)
    requires |floors| == FLOORS && i < FLOORS && floors[i] != []
    ensures i + 1 <= hi <= FLOORS && floors[hi - 1] != []
    ensures forall k | hi - 1 < k < FLOORS :: floors[k] == []
    decreases FLOORS - i
  {
    if j: nat :| i < j < FLOORS && floors[j] != [] {
      hi := FindHighest(floors, j);
    } else {
      hi := i + 1;
    }
  }

  /** A dispatch takes at most 36 seconds. */
  lemma DispatchSeconds(st: State) returns (lo: int, hi: int)
    requires Ready(st) && st.mode == Idle && exists i :: 0 <= i < FLOORS && st.floors[i] != []
    ensures LowestAndHighest(st.floors, lo, hi)
    ensures Tick(st).floor == hi && Tick(st).mode == Loading
    ensures Tick(st).h.clock == st.h.clock + 2 * (Abs(st.floor - lo) + (hi - lo)) <= st.h.clock + 36
    ensures Tick(st).floors == st.floors && Tick(st).onboard == st.onboard
  {
    var i :| 0 <= i < FLOORS && st.floors[i] != [];
    lo := FindLowest(st.floors, i);
    hi := FindHighest(st.floors, i);
    DispatchMeaning(st, lo, hi);
  }

  /** Every pass of a rolling elevator is paid for in seconds. */
  lemma PassPaysSeconds(st: State)
    requires Rolling(st) && !AllServed(st)
    ensures 5 * (Tick(st).h.clock - st.h.clock) <= SecondsLeft(st) - SecondsLeft(Tick(st))
  {
    PassPays(st);
    if st.mode == Idle {
      var lo, hi := DispatchSeconds(st);
    } else {
      AttendShortens(st);
      AttendFrame(st);
      ServiceFrame(st);
    }
  }

  lemma {:induction false} SecondsWithinBound(st: State, n: nat)
    requires Rolling(st)
    ensures 5 * (Passes(st, n).h.clock - st.h.clock) <= SecondsLeft(st) - 31
    decreases n
  {
    PassesFromNext(st, n);
    MeasureBounds(st);
    SecondsLeftAtLeast(st);
    if n == 0 {
    } else if AllServed(st) {
      AllServedStays(st, n);
    } else {
      PassPays(st);
      PassPaysSeconds(st);
      SecondsWithinBound(Tick(st), n - 1);
    }
  }

  lemma SecondsLeftAtLeast(st: State)
    requires Ready(st) && st.started
    ensures SecondsLeft(st) >= 31
  {
    MeasureBounds(st);
    if st.mode == Loading && st.onboard == [] {
      SelectAll(st.Here(), Everyone);
      WaitingAtLeast(st.floors, st.floor - 1, Everyone);
    }
  }

  /** However long it is left alone, a running elevator sleeps at most 92 seconds for each of the W
      people waiting, 51 for each of the B onboard, and 46 more. With ServedWithinBound: all are served
      within that time. */
  lemma ServedWithinSeconds(st: State, n: nat)
    requires Ready(st) && Counted(st) && st.started && !Stranded(st)
    ensures Passes(st, n).h.clock - st.h.clock <= 92 * WaitingCount(st) + 51 * |st.onboard| + 46
  {
    MeasureBounds(st);
    if st.mode == Idle && st.onboard != [] {
      PassesFromNext(st, n);
      if n > 0 {
        DispatchSetsRolling(st);
        var lo, hi := DispatchSeconds(st);
        SecondsWithinBound(Tick(st), n - 1);
      }
    } else {
      assert Rolling(st);
      SecondsWithinBound(st, n);
    }
  }
}
