/** How long a ride takes, whoever else rides or calls the elevator meanwhile. */
module Rides {
  import opened Passengers
  import opened Machine
  import opened Runs
  import opened Routines

  /** Seconds from boarding at floor `from` until the car next arrives at floor `to`. */
  function RideSeconds(from: int, to: int): int {
    if from < to then 3 * (to - from) - 1 else 45 - 3 * (from - to)
  }

  /** The rider has been carried from their start floor to `floor` without a break, and not past
      their destination. */
  ghost predicate Underway(p: Passenger, b: Stamp, st: State) {
    && 1 <= Ahead(p.start, st.floor) <= Ahead(p.start, p.dest)
    && st.h.clock - b.time == RideSeconds(p.start, st.floor)
    && |st.h.visits| - b.visit == Ahead(p.start, st.floor)
  }

  /** Riders who boarded since the last stop are underway; those who boarded before it are older. */
  ghost predicate Riding(st: State)
    requires Shape(st)
  {
    forall k | 0 <= k < |st.onboard| ::
      && st.h.boardings[k].epoch <= st.h.epoch
      && (st.h.boardings[k].epoch == st.h.epoch ==>
            st.mode == Up && Underway(st.onboard[k], st.h.boardings[k], st))
  }

  /** A trip from one floor to another that no stop interrupted took exactly the time and the number
      of service passes that its two floors determine. */
  ghost predicate ExactTrip(p: Passenger, t: Trip) {
    t.board.epoch == t.alight.epoch && p.start != p.dest ==>
      && t.alight.time - t.board.time == RideSeconds(p.start, p.dest)
      && t.alight.visit - t.board.visit == Ahead(p.start, p.dest)
  }

  ghost predicate ExactTrips(st: State)
    requires Shape(st)
  {
    forall k | 0 <= k < |st.h.trips| :: ExactTrip(st.h.delivered[k], st.h.trips[k])
  }

  // ---- One service pass ----

  /** Between arriving at a floor and unloading: those who rode here in this epoch are underway to it. */
  ghost predicate Arrived(st: State)
    requires Shape(st)
  {
    forall k | 0 <= k < |st.onboard| :: ArrivedRider(st, k)
  }

  ghost predicate ArrivedRider(st: State, k: int)
    requires Shape(st) && 0 <= k < |st.onboard|
  {
    && st.h.boardings[k].epoch <= st.h.epoch
    && (st.h.boardings[k].epoch == st.h.epoch ==> Underway(st.onboard[k], st.h.boardings[k], st))
  }

  lemma AlightExact(st: State, k: nat)
    requires Shape(st) && k < |st.onboard| && Arrived(st) && ExactTrips(st) && st.onboard[k].dest == st.floor
    ensures Arrived(Alight(st, k)) && ExactTrips(Alight(st, k))
  {
    assert ArrivedRider(st, k);
    var r := Alight(st, k);
    forall j | 0 <= j < |r.onboard| ensures ArrivedRider(r, j) {
      assert ArrivedRider(st, if j < k then j else j + 1);
    }
  }

  lemma {:induction false} UnloadExact(st: State, i: nat)
    requires Shape(st) && i <= |st.onboard| && Arrived(st) && ExactTrips(st)
    ensures Arrived(UnloadFrom(st, i)) && ExactTrips(UnloadFrom(st, i))
    decreases |st.onboard| - i
  {
    if i == |st.onboard| {
    } else if st.onboard[i].dest == st.floor {
      AlightExact(st, i);
      UnloadExact(Alight(st, i), i);
    } else {
      UnloadExact(st, i + 1);
    }
  }

  /** Seconds from boarding at `from` until the car is about to leave floor `at`. */
  function LeaveSeconds(from: int, at: int): int {
    if from == at then 0 else RideSeconds(from, at) + 1
  }

  /** About to leave a floor: those who boarded in this epoch have their destination still ahead. */
  ghost predicate Leaving(st: State)
    requires Shape(st)
  {
    forall k | 0 <= k < |st.onboard| :: LeavingRider(st, k)
  }

  ghost predicate LeavingRider(st: State, k: int)
    requires Shape(st) && 0 <= k < |st.onboard|
  {
    var p, b := st.onboard[k], st.h.boardings[k];
    && b.epoch <= st.h.epoch
    && (b.epoch == st.h.epoch ==>
          && Ahead(p.start, st.floor) < Ahead(p.start, p.dest)
          && st.h.clock - b.time == LeaveSeconds(p.start, st.floor)
          && |st.h.visits| - b.visit == Ahead(p.start, st.floor))
  }

  lemma BoardExact(st: State)
    requires SomeoneHere(st) && st.Here()[0].heading != Equal && Leaving(st) && ExactTrips(st)
    ensures Leaving(Board(st)) && ExactTrips(Board(st))
  {
    var r := Board(st);
    assert Queued(st.floors[st.floor - 1], st.floor - 1);
    forall k | 0 <= k < |r.onboard| ensures LeavingRider(r, k) {
      if k < |st.onboard| {
        assert LeavingRider(st, k);
      }
    }
  }

  lemma ServeExact(st: State)
    requires SomeoneHere(st) && st.Here()[0].heading == Equal && Leaving(st) && ExactTrips(st)
    ensures Leaving(ServeHere(st)) && ExactTrips(ServeHere(st))
  {
    var r := ServeHere(st);
    assert Queued(st.floors[st.floor - 1], st.floor - 1);
    forall k | 0 <= k < |r.onboard| ensures LeavingRider(r, k) {
      assert LeavingRider(st, k);
    }
  }

  lemma {:induction false} LoadExact(st: State)
    requires Shape(st) && IsFloor(st.floor) && Leaving(st) && ExactTrips(st)
    ensures Leaving(Load(st)) && ExactTrips(Load(st))
    decreases |st.Here()|
  {
    var q := st.Here();
    if q == [] {
    } else if q[0].heading == Equal {
      ServeExact(st);
      LoadExact(ServeHere(st));
    } else if Fits(st, q[0]) {
      BoardExact(st);
      LoadExact(Board(st));
    }
  }

  lemma DwellExact(st: State)
    requires Shape(st) && IsFloor(st.floor) && Arrived(st)
    requires forall k | 0 <= k < |st.onboard| :: st.onboard[k].dest != st.floor
    ensures Leaving(Sleep(st, 1))
  {
    var r := Sleep(st, 1);
    forall k | 0 <= k < |r.onboard| ensures LeavingRider(r, k) {
      assert ArrivedRider(st, k);
    }
  }

  lemma AttendExact(st: State)
    requires Shape(st) && IsFloor(st.floor) && Arrived(st) && ExactTrips(st)
    ensures Leaving(Attend(st)) && ExactTrips(Attend(st))
  {
    var a := st.(mode := Loading);
    forall k | 0 <= k < |a.onboard| ensures ArrivedRider(a, k) {
      assert ArrivedRider(st, k);
    }
    UnloadExact(a, 0);
    UnloadFromFrame(a, 0);
    UnloadClearsFloor(a);
    DwellExact(Unload(a));
    LoadExact(Sleep(Unload(a), 1));
  }

  lemma NextFloorArithmetic(s: int, c: int, d: int)
    requires IsFloor(s) && IsFloor(c) && IsFloor(d) && Ahead(s, c) < Ahead(s, d)
    ensures Ahead(s, NextFloor(c)) == Ahead(s, c) + 1
    ensures RideSeconds(s, NextFloor(c)) == LeaveSeconds(s, c) + 2 * Abs(c - NextFloor(c))
  {
  }

  /** Moving on, those who leave a floor with their destination ahead are underway to the next. */
  lemma AdvanceExact(l: State)
    requires Shape(l) && IsFloor(l.floor) && l.mode == Up && Leaving(l)
    ensures Shape(Advance(l)) && Riding(Advance(l))
  {
    var r := Advance(l);
    forall k | 0 <= k < |r.onboard|
      ensures r.h.boardings[k].epoch <= r.h.epoch
      ensures r.h.boardings[k].epoch == r.h.epoch ==> Underway(r.onboard[k], r.h.boardings[k], r)
    {
      assert LeavingRider(l, k);
      if r.h.boardings[k].epoch == r.h.epoch {
        NextFloorArithmetic(r.onboard[k].start, l.floor, r.onboard[k].dest);
      }
    }
  }

  lemma ServiceExact(st: State)
    requires Ready(st) && st.started && st.mode != Idle && Riding(st) && ExactTrips(st)
    ensures Riding(Service(st)) && ExactTrips(Service(st))
  {
    forall k | 0 <= k < |st.onboard| ensures ArrivedRider(st, k) {
    }
    AttendExact(st);
    AttendFrame(st);
    var l, u := Attend(st), Attend(st).(mode := Up);
    forall k | 0 <= k < |u.onboard| ensures LeavingRider(u, k) {
      assert LeavingRider(l, k);
    }
    AdvanceExact(u);
  }

  // ---- Draining: nobody still onboard boarded in this epoch ----

  ghost predicate AllOlder(st: State)
    requires Shape(st)
  {
    forall k | 0 <= k < |st.onboard| :: st.h.boardings[k].epoch < st.h.epoch
  }

  lemma {:induction false} UnloadOlder(st: State, i: nat)
    requires Shape(st) && i <= |st.onboard| && AllOlder(st) && ExactTrips(st)
    ensures AllOlder(UnloadFrom(st, i)) && ExactTrips(UnloadFrom(st, i))
    decreases |st.onboard| - i
  {
    if i == |st.onboard| {
    } else if st.onboard[i].dest == st.floor {
      var a := Alight(st, i);
      assert forall j | 0 <= j < |a.onboard| :: a.h.boardings[j] == st.h.boardings[if j < i then j else j + 1];
      UnloadOlder(a, i);
    } else {
      UnloadOlder(st, i + 1);
    }
  }

  lemma {:induction false} DrainExact(st: State)
    requires DrainReady(st) && AllOlder(st) && ExactTrips(st)
    ensures ExactTrips(Drain(st))
    decreases |st.onboard|
  {
    if st.onboard == [] {
    } else {
      DrainStepShrinks(st);
      UnloadOlder(MoveTo(st, MinOnboard(st)), 0);
      DrainExact(DrainStep(st));
    }
  }

  // ---- Every run ----

  lemma StepExact(st: State, e: Event)
    requires Ready(st) && Riding(st) && ExactTrips(st)
    ensures Riding(Step(st, e)) && ExactTrips(Step(st, e))
  {
    if e == Pass {
      if st.mode == Offline {
        DrainExact(st);
        DrainFrame(st);
      } else if st.mode == Idle {
        DispatchFrame(st, 0);
      } else {
        ServiceExact(st);
      }
    }
  }

  lemma {:induction false} RunExact(events: seq<Event>)
    ensures Riding(Run(events)) && ExactTrips(Run(events))
  {
    if events == [] {
    } else {
      var before, e := events[..|events| - 1], events[|events| - 1];
      RunExact(before);
      StepExact(Run(before), e);
    }
  }

  // ---- Following one rider ----

  function PassCount(events: seq<Event>): nat {
    if events == [] then 0
    else PassCount(events[..|events| - 1]) + (if events[|events| - 1] == Pass then 1 else 0)
  }

  ghost predicate OnTheWay(st: State, p: Passenger, b: Stamp)
    requires Shape(st)
  {
    exists k | 0 <= k < |st.onboard| :: st.onboard[k] == p && st.h.boardings[k] == b
  }

  ghost predicate DroppedOff(st: State, p: Passenger, b: Stamp)
    requires Shape(st)
  {
    exists j | 0 <= j < |st.h.trips| ::
      st.h.delivered[j] == p && st.h.trips[j].board == b && st.h.trips[j].alight.epoch == b.epoch
  }

  /** From `st` to `r` a rider of this epoch stays onboard or is dropped off, for good. */
  ghost predicate KeepsTrack(st: State, r: State, p: Passenger, b: Stamp)
    requires Shape(st) && Shape(r)
  {
    && r.h.epoch == st.h.epoch
    && (OnTheWay(st, p, b) && b.epoch == st.h.epoch ==> OnTheWay(r, p, b) || DroppedOff(r, p, b))
    && (DroppedOff(st, p, b) ==> DroppedOff(r, p, b))
  }

  lemma OffStaysOff(st: State, r: State, p: Passenger, b: Stamp)
    requires Shape(st) && Shape(r) && DroppedOff(st, p, b)
    requires st.h.delivered <= r.h.delivered && st.h.trips <= r.h.trips
    ensures DroppedOff(r, p, b)
  {
    var j :| 0 <= j < |st.h.trips|
          && st.h.delivered[j] == p && st.h.trips[j].board == b && st.h.trips[j].alight.epoch == b.epoch;
    assert r.h.delivered[j] == p && r.h.trips[j].board == b;
  }

  lemma AlightKeepsTrack(st: State, i: nat, p: Passenger, b: Stamp)
    requires Shape(st) && i < |st.onboard|
    ensures KeepsTrack(st, Alight(st, i), p, b)
  {
    var r, n := Alight(st, i), |st.h.trips|;
    if DroppedOff(st, p, b) {
      OffStaysOff(st, r, p, b);
    }
    if OnTheWay(st, p, b) && b.epoch == st.h.epoch {
      var k :| 0 <= k < |st.onboard| && st.onboard[k] == p && st.h.boardings[k] == b;
      if k == i {
        assert r.h.delivered[n] == p && r.h.trips[n].board == b;
      } else {
        var k' := if k < i then k else k - 1;
        assert r.onboard[k'] == p && r.h.boardings[k'] == b;
      }
    }
  }

  lemma {:induction false} UnloadKeepsTrack(st: State, i: nat, p: Passenger, b: Stamp)
    requires Shape(st) && i <= |st.onboard|
    ensures KeepsTrack(st, UnloadFrom(st, i), p, b)
    decreases |st.onboard| - i
  {
    if i == |st.onboard| {
    } else if st.onboard[i].dest == st.floor {
      AlightKeepsTrack(st, i, p, b);
      UnloadKeepsTrack(Alight(st, i), i, p, b);
    } else {
      UnloadKeepsTrack(st, i + 1, p, b);
    }
  }

  lemma GrowthKeepsTrack(st: State, r: State, p: Passenger, b: Stamp)
    requires Shape(st) && Shape(r) && r.h.epoch == st.h.epoch
    requires st.onboard <= r.onboard && st.h.boardings <= r.h.boardings
    requires st.h.delivered <= r.h.delivered && st.h.trips <= r.h.trips
    ensures KeepsTrack(st, r, p, b)
  {
    if DroppedOff(st, p, b) {
      OffStaysOff(st, r, p, b);
    }
    if OnTheWay(st, p, b) {
      var k :| 0 <= k < |st.onboard| && st.onboard[k] == p && st.h.boardings[k] == b;
      assert r.onboard[k] == p && r.h.boardings[k] == b;
    }
  }

  lemma {:induction false} LoadKeepsTrack(st: State, p: Passenger, b: Stamp)
    requires Shape(st) && IsFloor(st.floor)
    ensures KeepsTrack(st, Load(st), p, b)
    decreases |st.Here()|
  {
    var q := st.Here();
    if q == [] {
    } else if q[0].heading == Equal {
      GrowthKeepsTrack(st, ServeHere(st), p, b);
      LoadKeepsTrack(ServeHere(st), p, b);
    } else if Fits(st, q[0]) {
      GrowthKeepsTrack(st, Board(st), p, b);
      LoadKeepsTrack(Board(st), p, b);
    }
  }

  lemma ServiceKeepsTrack(st: State, p: Passenger, b: Stamp)
    requires Shape(st) && IsFloor(st.floor)
    ensures KeepsTrack(st, Service(st), p, b)
  {
    var a := st.(mode := Loading);
    GrowthKeepsTrack(st, a, p, b);
    UnloadKeepsTrack(a, 0, p, b);
    UnloadFromFrame(a, 0);
    GrowthKeepsTrack(Unload(a), Sleep(Unload(a), 1), p, b);
    LoadKeepsTrack(Sleep(Unload(a), 1), p, b);
    ServiceFrame(st);
    GrowthKeepsTrack(Attend(st), Service(st), p, b);
  }

  lemma {:induction false} DrainKeepsTrack(st: State, p: Passenger, b: Stamp)
    requires DrainReady(st)
    ensures KeepsTrack(st, Drain(st), p, b)
    decreases |st.onboard|
  {
    if st.onboard == [] {
    } else {
      DrainStepShrinks(st);
      var moved := MoveTo(st, MinOnboard(st));
      GrowthKeepsTrack(st, moved, p, b);
      UnloadKeepsTrack(moved, 0, p, b);
      DrainKeepsTrack(DrainStep(st), p, b);
    }
  }

  lemma StepKeepsTrack(st: State, e: Event, p: Passenger, b: Stamp)
    requires Ready(st) && e != StopCall
    ensures KeepsTrack(st, Step(st, e), p, b)
  {
    if e != Pass {
      GrowthKeepsTrack(st, Step(st, e), p, b);
    } else if st.mode == Offline {
      DrainKeepsTrack(st, p, b);
    } else if st.mode == Idle {
      DispatchFrame(st, 0);
      GrowthKeepsTrack(st, Tick(st), p, b);
    } else {
      ServiceKeepsTrack(st, p, b);
    }
  }

  /** A rider of this epoch keeps the elevator in service and is underway. */
  lemma RiderMeansUp(st: State, p: Passenger, b: Stamp)
    requires Ready(st) && Riding(st) && OnTheWay(st, p, b) && b.epoch == st.h.epoch
    ensures st.mode == Up && Underway(p, b, st)
  {
    var k :| 0 <= k < |st.onboard| && st.onboard[k] == p && st.h.boardings[k] == b;
  }

  lemma PassCountsVisit(st: State, e: Event)
    requires Ready(st) && st.mode == Up && e != StopCall
    ensures |Step(st, e).h.visits| == |st.h.visits| + (if e == Pass then 1 else 0)
  {
    if e == Pass {
      AttendFrame(st);
      ServiceFrame(st);
    }
  }

  /** Without a stop, every pass brings a rider one floor on or finds them dropped off. */
  lemma {:induction false} RiderFollowed(st: State, events: seq<Event>, p: Passenger, b: Stamp)
    requires Ready(st) && Riding(st) && ExactTrips(st)
    requires OnTheWay(st, p, b) && b.epoch == st.h.epoch && StopCall !in events
    ensures var r := After(st, events);
            && Riding(r) && ExactTrips(r) && r.h.epoch == st.h.epoch
            && (DroppedOff(r, p, b) || (OnTheWay(r, p, b) && |r.h.visits| == |st.h.visits| + PassCount(events)))
  {
    if events == [] {
    } else {
      var front, e := events[..|events| - 1], events[|events| - 1];
      RiderFollowed(st, front, p, b);
      var m := After(st, front);
      StepExact(m, e);
      StepKeepsTrack(m, e, p, b);
      if !DroppedOff(m, p, b) {
        RiderMeansUp(m, p, b);
        PassCountsVisit(m, e);
      }
    }
  }

  /** Whoever is onboard and boarded since the last stop gets off at their destination after exactly
      the number of service passes and seconds their journey takes, whatever requests and starts
      arrive meanwhile; no ride lasts more than 42 seconds. */
  lemma RideEnds(events: seq<Event>, more: seq<Event>, k: nat)
    requires k < |Run(events).onboard| && Run(events).h.boardings[k].epoch == Run(events).h.epoch
    requires StopCall !in more
    requires PassCount(more) > Ahead(Run(events).floor, Run(events).onboard[k].dest)
    ensures var p, b, r := Run(events).onboard[k], Run(events).h.boardings[k], After(Run(events), more);
            exists j | 0 <= j < |r.h.trips| :: r.h.delivered[j] == p && r.h.trips[j].board == b
              && r.h.trips[j].alight.time == b.time + RideSeconds(p.start, p.dest)
              && r.h.trips[j].alight.visit == b.visit + Ahead(p.start, p.dest)
              && r.h.trips[j].alight.time - b.time <= 42
  {
    var st := Run(events);
    var p, b := st.onboard[k], st.h.boardings[k];
    RunExact(events);
    RiderMeansUp(st, p, b);
    RiderFollowed(st, more, p, b);
    var r := After(st, more);
    if !DroppedOff(r, p, b) {
      RiderMeansUp(r, p, b);
      assert false;
    }
    var j :| 0 <= j < |r.h.trips|
          && r.h.delivered[j] == p && r.h.trips[j].board == b && r.h.trips[j].alight.epoch == b.epoch;
    assert ExactTrip(r.h.delivered[j], r.h.trips[j]);
  }

  // ---- The sweep ----

  /** The floor k stops further on. */
  function Forward(floor: int, k: nat): int {
    if k == 0 then floor else NextFloor(Forward(floor, k - 1))
  }

  /** Seconds for k service passes from `floor`: one of dwell each, then the way to the next floor. */
  function SweepSeconds(floor: int, k: nat): int {
    if k == 0 then 0
    else
      var at := Forward(floor, k - 1);
      SweepSeconds(floor, k - 1) + 1 + 2 * Abs(at - NextFloor(at))
  }

  /** No pass of this window was spent idle or draining. */
  ghost predicate ServiceOnly(st: State, events: seq<Event>)
    requires Ready(st)
    decreases |events|
  {
    events != [] ==>
      var front, e := events[..|events| - 1], events[|events| - 1];
      ServiceOnly(st, front) && (e == Pass ==> Serving(After(st, front)))
  }

  /** The floors served by k service passes from `floor`. */
  function Sweep(floor: int, k: nat): seq<int> {
    if k == 0 then [] else Sweep(floor, k - 1) + [Forward(floor, k - 1)]
  }

  /** The floors served and the time are those of k passes from `st`. */
  ghost predicate OnSchedule(st: State, r: State, k: nat) {
    && r.floor == Forward(st.floor, k)
    && r.h.visits == st.h.visits + Sweep(st.floor, k)
    && r.h.clock == st.h.clock + SweepSeconds(st.floor, k)
    && r.started
  }

  lemma StepOnSchedule(st: State, r: State, k: nat, e: Event)
    requires Ready(r) && OnSchedule(st, r, k) && e != StopCall
    requires e == Pass ==> Serving(r)
    ensures OnSchedule(st, Step(r, e), if e == Pass then k + 1 else k)
  {
    if e == Pass {
      AttendFrame(r);
      ServiceFrame(r);
      assert st.h.visits + Sweep(st.floor, k) + [r.floor] == st.h.visits + Sweep(st.floor, k + 1);
    }
  }

  lemma {:induction false} WindowOnSchedule(st: State, events: seq<Event>)
    requires Ready(st) && st.started
    requires StopCall !in events && ServiceOnly(st, events)
    ensures OnSchedule(st, After(st, events), PassCount(events))
  {
    if events == [] {
    } else {
      var front, e := events[..|events| - 1], events[|events| - 1];
      WindowOnSchedule(st, front);
      StepOnSchedule(st, After(st, front), PassCount(front), e);
    }
  }

  lemma {:induction false} SweepClosedForm(floor: int, k: nat)
    requires IsFloor(floor) && k <= 10
    ensures Forward(floor, k) == if floor + k <= 10 then floor + k else floor + k - 10
    ensures SweepSeconds(floor, k) == 3 * k + (if floor + k <= 10 then 0 else 16)
  {
    if k == 0 {
    } else {
      SweepClosedForm(floor, k - 1);
    }
  }

  lemma {:induction false} SweepReads(floor: int, k: nat)
    ensures |Sweep(floor, k)| == k && forall i: nat | i < k :: Sweep(floor, k)[i] == Forward(floor, i)
  {
    if k == 0 {
    } else {
      SweepReads(floor, k - 1);
    }
  }

  /** Ten service passes make one round: every floor once. */
  lemma RoundTrip(floor: int)
    requires IsFloor(floor)
    ensures Forward(floor, 10) == floor && SweepSeconds(floor, 10) == 46
    ensures |Sweep(floor, 10)| == 10
    ensures forall f | IsFloor(f) :: f in Sweep(floor, 10)
    ensures forall i, j | 0 <= i < j < 10 :: Sweep(floor, 10)[i] != Sweep(floor, 10)[j]
  {
    SweepReads(floor, 10);
    SweepClosedForm(floor, 10);
    forall f | IsFloor(f) ensures f in Sweep(floor, 10) {
      SweepClosedForm(floor, Ahead(floor, f));
      assert Sweep(floor, 10)[Ahead(floor, f)] == f;
    }
    forall i, j | 0 <= i < j < 10 ensures Sweep(floor, 10)[i] != Sweep(floor, 10)[j] {
      SweepClosedForm(floor, i);
      SweepClosedForm(floor, j);
    }
  }

  /** Any ten consecutive service passes, whatever requests arrive between them, serve every floor
      exactly once, end where they began and take 46 seconds. */
  lemma TenPasses(st: State, events: seq<Event>)
    requires Ready(st) && st.started
    requires StopCall !in events && ServiceOnly(st, events) && PassCount(events) == 10
    ensures |After(st, events).h.visits| == |st.h.visits| + 10
    ensures var r := After(st, events);
            var round := r.h.visits[|st.h.visits|..];
            && r.floor == st.floor && r.h.clock == st.h.clock + 46
            && (forall f | IsFloor(f) :: f in round)
            && (forall i, j | 0 <= i < j < 10 :: round[i] != round[j])
  {
    WindowOnSchedule(st, events);
    RoundTrip(st.floor);
    assert After(st, events).h.visits[|st.h.visits|..] == Sweep(st.floor, 10);
  }
}
