/** The elevator as a state machine over values: the globals of elevator_proc.c, what each of its
    functions does to them, and runs of system calls and scheduler passes. The class in
    Elevator.dfy carries out the same steps in place. */
module Machine {
  import opened Passengers

  /** A moment of a run: seconds slept so far, service passes made so far, stops accepted so far. */
  datatype Stamp = Stamp(time: int, visit: nat, epoch: nat)

  datatype Trip = Trip(board: Stamp, alight: Stamp)

  /** What the C program does not record: every request accepted, every departure from a queue and
      every delivery, in order, with the moments of boarding and alighting. `boardings` runs
      parallel to the onboard list and `trips` parallel to `delivered`. */
  datatype History = History(clock: int, epoch: nat, visits: seq<int>, arrivals: seq<Passenger>,
                             departed: seq<Passenger>, delivered: seq<Passenger>,
                             boardings: seq<Stamp>, trips: seq<Trip>)

  datatype State = State(weight: int, units: int, previous: Mode, mode: Mode, floor: int, nextFloor: int,
                         onboard: seq<Passenger>, floors: seq<seq<Passenger>>, served: seq<int>,
                         total: int, odd: int, started: bool, nodes: nat, h: History)
  {
    function Now(): Stamp {
      Stamp(h.clock, |h.visits|, h.epoch)
    }

    /** The queue at the floor the car stands on. */
    function Here(): seq<Passenger>
      requires Shape(this) && IsFloor(floor)
    {
      floors[floor - 1]
    }
  }

  ghost predicate Queued(xs: seq<Passenger>, i: int) {
    forall k | 0 <= k < |xs| :: Formed(xs[k]) && xs[k].start == i + 1
  }

  ghost predicate Aboard(xs: seq<Passenger>) {
    forall k | 0 <= k < |xs| :: Formed(xs[k]) && xs[k].heading != Equal
  }

  /** Everyone in queue i asked from floor i + 1, and nobody rides to the floor they came from. */
  ghost predicate Shape(st: State) {
    && |st.floors| == FLOORS
    && |st.served| == FLOORS
    && |st.h.boardings| == |st.onboard|
    && |st.h.trips| == |st.h.delivered|
    && (forall i | 0 <= i < FLOORS :: Queued(st.floors[i], i))
    && Aboard(st.onboard)
  }

  function Init(): (st: State)
    ensures Shape(st)
  {
    State(0, 0, Offline, Offline, 0, 0, [], seq(FLOORS, i => []), seq(FLOORS, i => 0), 0, 0, false, 0,
          History(0, 0, [], [], [], [], [], []))
  }

  // ---- The four ways a passenger changes lists ----

  /** list_add_tail onto the queue of the start floor. */
  function Arrive(st: State, p: Passenger): (r: State)
    requires Shape(st) && Formed(p)
    ensures Shape(r)
  {
    st.(floors := st.floors[p.start - 1 := st.floors[p.start - 1] + [p]],
        nodes := st.nodes + 1,
        h := st.h.(arrivals := st.h.arrivals + [p]))
  }

  ghost predicate SomeoneHere(st: State) {
    Shape(st) && IsFloor(st.floor) && st.Here() != []
  }

  function LeaveQueue(st: State): (r: State)
    requires SomeoneHere(st)
    ensures Shape(r)
  {
    var p := st.Here()[0];
    st.(floors := st.floors[st.floor - 1 := st.Here()[1..]],
        h := st.h.(departed := st.h.departed + [p]))
  }

  /** The head of the queue moves to the tail of the onboard list. */
  function Board(st: State): (r: State)
    requires SomeoneHere(st) && st.Here()[0].heading != Equal
    ensures Shape(r)
  {
    var p := st.Here()[0];
    var s := LeaveQueue(st);
    s.(odd := s.odd + (if p.kind == Child then 1 else 0),
       weight := s.weight + p.weight,
       units := s.units + p.space,
       onboard := s.onboard + [p],
       h := s.h.(boardings := s.h.boardings + [st.Now()]))
  }

  /** The head of the queue is already where it wants to be: counted and removed. */
  function ServeHere(st: State): (r: State)
    requires SomeoneHere(st) && st.Here()[0].heading == Equal
    ensures Shape(r)
  {
    var p := st.Here()[0];
    var s := LeaveQueue(st);
    s.(served := s.served[st.floor - 1 := s.served[st.floor - 1] + 1],
       total := s.total + 1,
       h := s.h.(delivered := s.h.delivered + [p], trips := s.h.trips + [Trip(st.Now(), st.Now())]))
  }

  /** The k-th passenger onboard gets off. */
  function Alight(st: State, k: nat): (r: State)
    requires Shape(st) && k < |st.onboard|
    ensures Shape(r)
  {
    var p := st.onboard[k];
    st.(weight := st.weight - p.weight,
        units := st.units - p.space,
        odd := st.odd - (if p.kind == Child then 1 else 0),
        served := st.served[p.dest - 1 := st.served[p.dest - 1] + 1],
        total := st.total + 1,
        onboard := st.onboard[..k] + st.onboard[k + 1..],
        h := st.h.(delivered := st.h.delivered + [p],
                   boardings := st.h.boardings[..k] + st.h.boardings[k + 1..],
                   trips := st.h.trips + [Trip(st.h.boardings[k], st.Now())]))
  }

  // ---- The functions of elevator_proc.c ----

  predicate Fits(st: State, p: Passenger) {
    st.weight + p.weight <= MAX_WEIGHT && st.units + p.space <= MAX_UNITS
  }

  /** load_elevator: from the head of the queue, until someone does not fit. */
  function Load(st: State): (r: State)
    requires Shape(st) && IsFloor(st.floor)
    ensures Shape(r)
    decreases |st.Here()|
  {
    var q := st.Here();
    if q == [] then st
    else if q[0].heading == Equal then Load(ServeHere(st))
    else if Fits(st, q[0]) then Load(Board(st))
    else st
  }

  /** unload_elevator, with the list cursor at index i. */
  function UnloadFrom(st: State, i: nat): (r: State)
    requires Shape(st) && i <= |st.onboard|
    ensures Shape(r)
    decreases |st.onboard| - i
  {
    if i == |st.onboard| then st
    else if st.onboard[i].dest == st.floor then UnloadFrom(Alight(st, i), i)
    else UnloadFrom(st, i + 1)
  }

  function Unload(st: State): (r: State)
    requires Shape(st)
    ensures Shape(r)
  {
    UnloadFrom(st, 0)
  }

  function Abs(x: int): nat {
    if x < 0 then -x else x
  }

  function Sleep(st: State, seconds: int): State {
    st.(h := st.h.(clock := st.h.clock + seconds))
  }

  /** move_elevator: two seconds a floor, nothing at all when the car is already there. */
  function MoveTo(st: State, floor: int): State {
    if floor == st.floor then st
    else Sleep(st, 2 * Abs(st.floor - floor)).(nextFloor := floor, floor := floor)
  }

  /** How far `dest` lies from `floor` in the direction of travel; negative behind. */
  function Gap(direction: Mode, floor: int, dest: int): int {
    if direction == Up then dest - floor else floor - dest
  }

  /** The loop of min_onboard: the first destination that beats the best gap so far. */
  function Scan(xs: seq<Passenger>, direction: Mode, floor: int, minDiff: int, minFloor: int): int {
    if xs == [] then minFloor
    else
      var gap := Gap(direction, floor, xs[0].dest);
      if gap < minDiff then Scan(xs[1..], direction, floor, gap, xs[0].dest)
      else Scan(xs[1..], direction, floor, minDiff, minFloor)
  }

  /** min_onboard: 0 when nobody is onboard, -1 when no direction was ever saved. */
  function MinOnboard(st: State): int {
    if st.previous == Up || st.previous == Down then Scan(st.onboard, st.previous, st.floor, 10, 0) else -1
  }

  /** One turn of the loop that empties a stopped elevator. */
  function DrainStep(st: State): (r: State)
    requires Shape(st)
    ensures Shape(r)
  {
    Unload(MoveTo(st, MinOnboard(st)))
  }

  ghost predicate DrainReady(st: State) {
    Shape(st) && (st.onboard != [] ==> IsFloor(st.floor) && (st.previous == Up || st.previous == Down))
  }

  lemma {:induction false} UnloadFromFrame(st: State, i: nat)
    requires Shape(st) && i <= |st.onboard|
    ensures var r := UnloadFrom(st, i);
            && |r.onboard| <= |st.onboard|
            && ((exists k :: i <= k < |st.onboard| && st.onboard[k].dest == st.floor) ==> |r.onboard| < |st.onboard|)
            && r.floors == st.floors && r.floor == st.floor && r.mode == st.mode && r.previous == st.previous
            && r.started == st.started && r.nextFloor == st.nextFloor && r.nodes == st.nodes
            && r.h == st.h.(delivered := r.h.delivered, boardings := r.h.boardings, trips := r.h.trips)
            && r.total - st.total == |st.onboard| - |r.onboard|
    decreases |st.onboard| - i
  {
    if i == |st.onboard| {
    } else if st.onboard[i].dest == st.floor {
      UnloadFromFrame(Alight(st, i), i);
    } else {
      UnloadFromFrame(st, i + 1);
    }
  }

  /** min_onboard names the destination of somebody onboard, and nobody's comes sooner. */
  lemma {:induction false} ScanFindsNearest(xs: seq<Passenger>, direction: Mode, floor: int, minDiff: int,
                                            minFloor: int)
    ensures var r := Scan(xs, direction, floor, minDiff, minFloor);
            || (r == minFloor && (forall k | 0 <= k < |xs| :: minDiff <= Gap(direction, floor, xs[k].dest)))
            || (&& (exists k | 0 <= k < |xs| :: xs[k].dest == r)
                && Gap(direction, floor, r) < minDiff
                && (forall k | 0 <= k < |xs| :: Gap(direction, floor, r) <= Gap(direction, floor, xs[k].dest)))
  {
    if xs == [] {
    } else {
      var gap := Gap(direction, floor, xs[0].dest);
      var r := Scan(xs, direction, floor, minDiff, minFloor);
      assert forall k | 1 <= k < |xs| :: xs[k] == xs[1..][k - 1];
      if gap < minDiff {
        ScanFindsNearest(xs[1..], direction, floor, gap, xs[0].dest);
        assert xs[0].dest == r || exists k | 0 <= k < |xs[1..]| :: xs[1..][k].dest == r;
      } else {
        ScanFindsNearest(xs[1..], direction, floor, minDiff, minFloor);
      }
    }
  }

  lemma NearestOnboard(st: State)
    requires DrainReady(st) && st.onboard != []
    ensures exists k | 0 <= k < |st.onboard| :: st.onboard[k].dest == MinOnboard(st)
    ensures st.previous == Up ==> forall k | 0 <= k < |st.onboard| :: MinOnboard(st) <= st.onboard[k].dest
    ensures st.previous == Down ==> forall k | 0 <= k < |st.onboard| :: MinOnboard(st) >= st.onboard[k].dest
    ensures IsFloor(MinOnboard(st))
  {
    ScanFindsNearest(st.onboard, st.previous, st.floor, 10, 0);
    assert Formed(st.onboard[0]);
  }

  lemma DrainStepShrinks(st: State)
    requires DrainReady(st) && st.onboard != []
    ensures DrainReady(DrainStep(st)) && |DrainStep(st).onboard| < |st.onboard|
    ensures DrainStep(st).floor == MinOnboard(st) && IsFloor(MinOnboard(st))
  {
    NearestOnboard(st);
    UnloadFromFrame(MoveTo(st, MinOnboard(st)), 0);
  }

  /** The OFFLINE branch of the scheduler. */
  function Drain(st: State): (r: State)
    requires DrainReady(st)
    ensures Shape(r)
    decreases |st.onboard|
  {
    if st.onboard == [] then st
    else
      DrainStepShrinks(st);
      Drain(DrainStep(st))
  }

  /** The IDLE branch, from loop index i; the loop has no break. */
  function Dispatch(st: State, i: nat): (r: State)
    requires Shape(st) && i <= FLOORS
    ensures Shape(r)
    decreases FLOORS - i
  {
    if i == FLOORS then st
    else if st.floors[i] == [] then Dispatch(st, i + 1)
    else Dispatch(MoveTo(st, st.floors[i][0].start).(mode := Loading), i + 1)
  }

  function NextFloor(floor: int): int {
    if floor == 10 then 1 else floor + 1
  }

  /** The car has served its floor and moves on. */
  function Advance(st: State): State {
    MoveTo(st, NextFloor(st.floor)).(h := MoveTo(st, NextFloor(st.floor)).h.(visits := st.h.visits + [st.floor]))
  }

  /** The part of a service pass spent at a floor: unload, dwell, load. */
  function Attend(st: State): (r: State)
    requires Shape(st) && IsFloor(st.floor)
    ensures Shape(r)
  {
    UnloadFromFrame(st.(mode := Loading), 0);
    Load(Sleep(Unload(st.(mode := Loading)), 1))
  }

  /** The last branch of the scheduler. The mode is Up from the end of loading to the final test, so
      the two tests of the mode in between are settled. */
  function Service(st: State): (r: State)
    requires Shape(st) && IsFloor(st.floor)
    ensures Shape(r)
  {
    var s := Advance(Attend(st).(mode := Up));
    if s.onboard == [] then s.(mode := Idle) else s
  }

  /** What holds of the control fields whenever the scheduler tests its loop condition. */
  ghost predicate Control(st: State)
    requires Shape(st)
  {
    && (st.started <==> st.mode != Offline)
    && (st.mode == Offline || st.mode == Idle || st.mode == Loading || st.mode == Up)
    && (st.previous == Offline || st.previous == Up)
    && (IsFloor(st.floor) || (st.mode == Offline && st.onboard == []))
    && (st.onboard != [] ==> st.mode == Up || st.previous == Up)
    && (st.mode == Up ==> st.onboard != [])
    && (st.mode == Loading ==> st.onboard != [] || st.floors[st.floor - 1] != [])
  }

  ghost predicate Ready(st: State) {
    Shape(st) && Control(st)
  }

  /** What a pass needs to run to its end, whoever set the mode. */
  ghost predicate Passable(st: State) {
    Shape(st) && (if st.mode == Offline then DrainReady(st) else IsFloor(st.floor))
  }

  /** One pass of the scheduler's loop. */
  function Tick(st: State): (r: State)
    requires Passable(st)
    ensures Shape(r)
  {
    if st.mode == Offline then Drain(st)
    else if st.mode == Idle then Dispatch(st, 0)
    else Service(st)
  }

  function Start(st: State): State {
    if st.started then st else st.(mode := Idle, floor := 1, started := true)
  }

  /** stop_elevator; the direction of travel is saved only when the car is between floors. */
  function Stop(st: State): State {
    if !st.started then st
    else st.(previous := if st.mode == Up || st.mode == Down then st.mode else st.previous,
             mode := Offline, started := false,
             h := st.h.(epoch := st.h.epoch + 1))
  }

  predicate ValidRequest(code: int, start: int, dest: int) {
    1 <= code <= 4 && IsFloor(start) && IsFloor(dest)
  }

  function KindOf(code: int): Kind
    requires 1 <= code <= 4
  {
    if code == 1 then Adult else if code == 2 then Child else if code == 3 then RoomService else Bellhop
  }

  function Issue(st: State, code: int, start: int, dest: int): (r: State)
    requires Shape(st)
    ensures Shape(r)
  {
    if ValidRequest(code, start, dest) then Arrive(st, NewPassenger(st.nodes, KindOf(code), start, dest)) else st
  }

  /** The queue of the start floor gained one passenger, last, as the request asks; besides that only
      the allocator and the record of requests moved on. */
  ghost predicate Enqueued(st: State, r: State, code: int, start: int, dest: int)
    requires Shape(st) && Shape(r) && IsFloor(start)
  {
    var queue := r.floors[start - 1];
    && queue != []
    && var p := queue[|queue| - 1];
    && AsRequested(p, code, start, dest) && p.node == st.nodes
    && r == st.(floors := st.floors[start - 1 := st.floors[start - 1] + [p]], nodes := st.nodes + 1,
                h := st.h.(arrivals := st.h.arrivals + [p]))
  }

  lemma IssueEnqueues(st: State, code: int, start: int, dest: int)
    requires Shape(st) && 1 <= code <= 4 && 1 <= start <= 10 && 1 <= dest <= 10
    ensures Enqueued(st, Issue(st, code, start, dest), code, start, dest)
  {
    var queue := Issue(st, code, start, dest).floors[start - 1];
    assert queue[|queue| - 1] == NewPassenger(st.nodes, KindOf(code), start, dest);
  }

  // ---- Runs ----

  datatype Event = StartCall | StopCall | IssueCall(code: int, start: int, dest: int) | Pass

  function Step(st: State, e: Event): (r: State)
    requires Ready(st)
    ensures Shape(r)
  {
    match e
    case StartCall => Start(st)
    case StopCall => Stop(st)
    case IssueCall(code, start, dest) => Issue(st, code, start, dest)
    case Pass => Tick(st)
  }
}
