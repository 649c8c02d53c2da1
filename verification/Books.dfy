/** The elevator's bookkeeping: load counters, served counters, and where everybody is. These
    invariants do not mention the mode of the elevator, so they hold at every grain of interleaving. */
module Books {
  import opened Passengers
  import opened Machine
  import opened Runs

  /** The incremental counters agree with the onboard list, and the car is never overfull. */
  ghost predicate Counted(st: State) {
    && Cargo(st.weight, st.units, st.odd) == CargoOf(st.onboard)
    && st.weight <= MAX_WEIGHT && st.units <= MAX_UNITS
  }

  /** Those who left the queue at floor f, then the queue, are the requests from f in order. */
  ghost predicate FloorFifo(st: State, f: int)
    requires Shape(st) && IsFloor(f)
  {
    Select(st.h.departed, From(f)) + st.floors[f - 1] == Select(st.h.arrivals, From(f))
  }

  ghost predicate Joined(done: seq<Passenger>, mid: seq<Passenger>, rest: seq<Passenger>, all: seq<Passenger>) {
    done + mid + rest == all
  }

  /** Whether the passengers of journey q are in order over three lists. */
  ghost predicate Orderly(done: seq<Passenger>, mid: seq<Passenger>, rest: seq<Passenger>, all: seq<Passenger>,
                          q: Query)
  {
    Joined(Select(done, q), Select(mid, q), Select(rest, q), Select(all, q))
  }

  /** Nobody overtakes anybody with the same journey. */
  ghost predicate InOrder(st: State, s: int, d: int)
    requires Shape(st) && IsFloor(s) && IsFloor(d)
  {
    Orderly(st.h.delivered, st.onboard, st.floors[s - 1], st.h.arrivals, Between(s, d))
  }

  /** Everybody accepted is delivered, onboard or waiting, and only one of these. */
  ghost predicate Conserved(st: State, q: Query) {
    |Select(st.h.arrivals, q)| == |Select(st.h.delivered, q)| + |Select(st.onboard, q)| + Waiting(st.floors, q)
  }

  ghost predicate Tallied(st: State, d: int)
    requires Shape(st) && IsFloor(d)
  {
    st.served[d - 1] == |Select(st.h.delivered, To(d))|
  }

  /** Requests are well formed and no two of them share a node. */
  ghost predicate Numbered(st: State) {
    && st.nodes == |st.h.arrivals|
    && (forall i | 0 <= i < |st.h.arrivals| :: Formed(st.h.arrivals[i]) && st.h.arrivals[i].node == i)
  }

  ghost predicate Sound(st: State) {
    && Shape(st)
    && Counted(st)
    && (forall f | IsFloor(f) :: FloorFifo(st, f))
    && (forall s, d | IsFloor(s) && IsFloor(d) :: InOrder(st, s, d))
    && (forall q :: Conserved(st, q))
    && (forall d | IsFloor(d) :: Tallied(st, d))
    && st.total == |st.h.delivered| == Sum(st.served)
    && |st.h.departed| == |st.h.delivered| + |st.onboard|
    && Numbered(st)
  }

  lemma {:induction false} NothingWaitsAtFirst(n: nat, q: Query)
    ensures Waiting(seq(n, i => []), q) == 0 && Sum(seq(n, i => 0)) == 0
  {
    if n == 0 {
    } else {
      var none: seq<seq<Passenger>>, zeros := seq(n, i => []), seq(n, i => 0);
      assert none[1..] == seq(n - 1, i => []);
      assert zeros[1..] == seq(n - 1, i => 0);
      NothingWaitsAtFirst(n - 1, q);
    }
  }

  lemma InitList(f: int)
    requires IsFloor(f)
    ensures Init().floors[f - 1] == [] && Init().served[f - 1] == 0
  {
  }

  lemma InitConserved(q: Query)
    ensures Conserved(Init(), q)
  {
    NothingWaitsAtFirst(FLOORS, q);
  }

  lemma InitInOrder(s: int, d: int)
    requires IsFloor(s) && IsFloor(d)
    ensures InOrder(Init(), s, d)
  {
    InitList(s);
  }

  lemma InitSound()
    ensures Sound(Init())
  {
    NothingWaitsAtFirst(FLOORS, Everyone);
    forall f | IsFloor(f) ensures FloorFifo(Init(), f) && Tallied(Init(), f) {
      InitList(f);
    }
    forall s, d | IsFloor(s) && IsFloor(d) ensures InOrder(Init(), s, d) {
      InitInOrder(s, d);
    }
    forall q ensures Conserved(Init(), q) {
      InitConserved(q);
    }
  }

  // ---- Each way of changing lists keeps the books ----

  lemma JoinLast(done: seq<Passenger>, mid: seq<Passenger>, rest: seq<Passenger>, all: seq<Passenger>, p: Passenger)
    requires Joined(done, mid, rest, all)
    ensures Joined(done, mid, rest + [p], all + [p])
  {
  }

  lemma MoveAlong(done: seq<Passenger>, mid: seq<Passenger>, p: Passenger, rest: seq<Passenger>, all: seq<Passenger>)
    requires Joined(done, mid, [p] + rest, all)
    ensures Joined(done, mid + [p], rest, all)
    ensures mid == [] ==> Joined(done + [p], mid, rest, all)
  {
  }

  /** Somebody with nobody of the same journey in front of them may leave first. */
  lemma LeaveFirst(done: seq<Passenger>, p: Passenger, after: seq<Passenger>, rest: seq<Passenger>, all: seq<Passenger>)
    requires Joined(done, ([] + [p]) + after, rest, all)
    ensures Joined(done + [p], [] + after, rest, all)
  {
  }

  lemma OrderlyArrive(done: seq<Passenger>, mid: seq<Passenger>, rest: seq<Passenger>, all: seq<Passenger>,
                      p: Passenger, q: Query)
    requires Orderly(done, mid, rest, all, q)
    ensures Orderly(done, mid, rest + [p], all + [p], q)
    ensures !Matches(p, q) ==> Orderly(done, mid, rest, all + [p], q)
  {
    SelectSnoc(all, p, q);
    SelectSnoc(rest, p, q);
    if Matches(p, q) {
      JoinLast(Select(done, q), Select(mid, q), Select(rest, q), Select(all, q), p);
    }
  }

  lemma OrderlyBoard(done: seq<Passenger>, mid: seq<Passenger>, rest: seq<Passenger>, all: seq<Passenger>,
                     p: Passenger, q: Query)
    requires Orderly(done, mid, rest, all, q)
    ensures rest != [] && rest[0] == p ==> Orderly(done, mid + [p], rest[1..], all, q)
    ensures !Matches(p, q) ==> Orderly(done, mid + [p], rest, all, q)
  {
    SelectSnoc(mid, p, q);
    if rest != [] && rest[0] == p {
      SelectHead(rest, q);
      if Matches(p, q) {
        MoveAlong(Select(done, q), Select(mid, q), p, Select(rest[1..], q), Select(all, q));
      }
    }
  }

  lemma OrderlyServe(done: seq<Passenger>, mid: seq<Passenger>, rest: seq<Passenger>, all: seq<Passenger>,
                     p: Passenger, q: Query)
    requires Orderly(done, mid, rest, all, q)
    requires Matches(p, q) ==> forall k | 0 <= k < |mid| :: !Matches(mid[k], q)
    ensures rest != [] && rest[0] == p ==> Orderly(done + [p], mid, rest[1..], all, q)
    ensures !Matches(p, q) ==> Orderly(done + [p], mid, rest, all, q)
  {
    SelectSnoc(done, p, q);
    if rest != [] && rest[0] == p {
      SelectHead(rest, q);
      if Matches(p, q) {
        SelectNone(mid, q);
        MoveAlong(Select(done, q), Select(mid, q), p, Select(rest[1..], q), Select(all, q));
      }
    }
  }

  lemma OrderlyAlight(done: seq<Passenger>, mid: seq<Passenger>, rest: seq<Passenger>, all: seq<Passenger>,
                      k: nat, q: Query)
    requires Orderly(done, mid, rest, all, q) && k < |mid|
    requires Matches(mid[k], q) ==> forall j | 0 <= j < k :: !Matches(mid[j], q)
    ensures Orderly(done + [mid[k]], mid[..k] + mid[k + 1..], rest, all, q)
  {
    SelectRemove(mid, k, q);
    SelectSnoc(done, mid[k], q);
    if Matches(mid[k], q) {
      SelectNone(mid[..k], q);
      LeaveFirst(Select(done, q), mid[k], Select(mid[k + 1..], q), Select(rest, q), Select(all, q));
    }
  }

  lemma ArriveKeepsOrder(st: State, p: Passenger, s: int, d: int)
    requires Shape(st) && Formed(p) && IsFloor(s) && IsFloor(d) && InOrder(st, s, d)
    ensures InOrder(Arrive(st, p), s, d)
  {
    OrderlyArrive(st.h.delivered, st.onboard, st.floors[s - 1], st.h.arrivals, p, Between(s, d));
  }

  lemma ArriveConserves(st: State, p: Passenger, q: Query)
    requires Shape(st) && Formed(p) && Conserved(st, q)
    ensures Conserved(Arrive(st, p), q)
  {
    var i := p.start - 1;
    CountSnoc(st.h.arrivals, p, q);
    CountSnoc(st.floors[i], p, q);
    WaitingUpdate(st.floors, i, st.floors[i] + [p], q);
  }

  lemma FifoArrive(gone: seq<Passenger>, queue: seq<Passenger>, all: seq<Passenger>, p: Passenger, q: Query)
    requires gone + queue == Select(all, q)
    ensures Matches(p, q) ==> gone + (queue + [p]) == Select(all + [p], q)
    ensures !Matches(p, q) ==> gone + queue == Select(all + [p], q)
  {
    SelectSnoc(all, p, q);
  }

  lemma ArriveKeepsFifo(st: State, p: Passenger, f: int)
    requires Shape(st) && Formed(p) && IsFloor(f) && FloorFifo(st, f)
    ensures FloorFifo(Arrive(st, p), f)
  {
    FifoArrive(Select(st.h.departed, From(f)), st.floors[f - 1], st.h.arrivals, p, From(f));
  }

  lemma ArriveSound(st: State, p: Passenger)
    requires Sound(st) && Formed(p) && p.node == st.nodes
    ensures Sound(Arrive(st, p))
  {
    var r := Arrive(st, p);
    forall f | IsFloor(f) ensures FloorFifo(r, f) {
      ArriveKeepsFifo(st, p, f);
    }
    forall s, d | IsFloor(s) && IsFloor(d) ensures InOrder(r, s, d) {
      ArriveKeepsOrder(st, p, s, d);
    }
    forall q ensures Conserved(r, q) {
      ArriveConserves(st, p, q);
    }
    forall d | IsFloor(d) ensures Tallied(r, d) {
      assert Tallied(st, d);
    }
  }

  lemma HeadLeaves(st: State, q: Query)
    requires SomeoneHere(st)
    ensures var p, gone := st.Here()[0], Matches(st.Here()[0], q);
            && Select(st.Here(), q) == (if gone then [p] + Select(st.Here()[1..], q) else Select(st.Here()[1..], q))
            && Select(LeaveQueue(st).h.departed, q)
               == (if gone then Select(st.h.departed, q) + [p] else Select(st.h.departed, q))
            && Waiting(LeaveQueue(st).floors, q) == Waiting(st.floors, q) - (if gone then 1 else 0)
  {
    SelectHead(st.Here(), q);
    SelectSnoc(st.h.departed, st.Here()[0], q);
    WaitingUpdate(st.floors, st.floor - 1, st.Here()[1..], q);
  }

  lemma FifoLeave(gone: seq<Passenger>, rest: seq<Passenger>, p: Passenger, q: Query)
    ensures Matches(p, q) && rest != [] && rest[0] == p ==>
              Select(gone + [p], q) + rest[1..] == Select(gone, q) + rest
    ensures !Matches(p, q) ==> Select(gone + [p], q) == Select(gone, q)
  {
    SelectSnoc(gone, p, q);
  }

  lemma LeaveKeepsFifo(st: State, f: int)
    requires SomeoneHere(st) && IsFloor(f) && FloorFifo(st, f)
    ensures FloorFifo(LeaveQueue(st), f)
  {
    assert Queued(st.floors[st.floor - 1], st.floor - 1);
    FifoLeave(st.h.departed, st.floors[f - 1], st.Here()[0], From(f));
  }

  lemma BoardKeepsOrder(st: State, s: int, d: int)
    requires SomeoneHere(st) && st.Here()[0].heading != Equal && IsFloor(s) && IsFloor(d) && InOrder(st, s, d)
    ensures InOrder(Board(st), s, d)
  {
    assert Queued(st.floors[st.floor - 1], st.floor - 1);
    OrderlyBoard(st.h.delivered, st.onboard, st.floors[s - 1], st.h.arrivals, st.Here()[0], Between(s, d));
  }

  lemma BoardKeepsCount(st: State)
    requires SomeoneHere(st) && st.Here()[0].heading != Equal && Counted(st) && Fits(st, st.Here()[0])
    ensures Counted(Board(st))
  {
    CargoConcat(st.onboard, [st.Here()[0]]);
    CargoOne(st.Here()[0]);
  }

  lemma BoardConserves(st: State, q: Query)
    requires SomeoneHere(st) && st.Here()[0].heading != Equal && Conserved(st, q)
    ensures Conserved(Board(st), q)
  {
    HeadLeaves(st, q);
    CountSnoc(st.onboard, st.Here()[0], q);
  }

  lemma BoardSound(st: State)
    requires Sound(st) && SomeoneHere(st) && st.Here()[0].heading != Equal && Fits(st, st.Here()[0])
    ensures Sound(Board(st))
  {
    var r := Board(st);
    BoardKeepsCount(st);
    forall f | IsFloor(f) ensures FloorFifo(r, f) {
      LeaveKeepsFifo(st, f);
    }
    forall s, d | IsFloor(s) && IsFloor(d) ensures InOrder(r, s, d) {
      BoardKeepsOrder(st, s, d);
    }
    forall q ensures Conserved(r, q) {
      BoardConserves(st, q);
    }
    forall d | IsFloor(d) ensures Tallied(r, d) {
      assert Tallied(st, d);
    }
  }

  lemma ServeKeepsOrder(st: State, s: int, d: int)
    requires SomeoneHere(st) && st.Here()[0].heading == Equal && IsFloor(s) && IsFloor(d) && InOrder(st, s, d)
    ensures InOrder(ServeHere(st), s, d)
  {
    assert Queued(st.floors[st.floor - 1], st.floor - 1);
    OrderlyServe(st.h.delivered, st.onboard, st.floors[s - 1], st.h.arrivals, st.Here()[0], Between(s, d));
  }

  lemma ServeConserves(st: State, q: Query)
    requires SomeoneHere(st) && st.Here()[0].heading == Equal && Conserved(st, q)
    ensures Conserved(ServeHere(st), q)
  {
    HeadLeaves(st, q);
    CountSnoc(st.h.delivered, st.Here()[0], q);
  }

  lemma ServeTallies(st: State, d: int)
    requires SomeoneHere(st) && st.Here()[0].heading == Equal && IsFloor(d) && Tallied(st, d)
    ensures Tallied(ServeHere(st), d)
  {
    assert Queued(st.floors[st.floor - 1], st.floor - 1);
    CountSnoc(st.h.delivered, st.Here()[0], To(d));
  }

  lemma ServeHereSound(st: State)
    requires Sound(st) && SomeoneHere(st) && st.Here()[0].heading == Equal
    ensures Sound(ServeHere(st))
  {
    var r := ServeHere(st);
    SumUpdate(st.served, st.floor - 1, st.served[st.floor - 1] + 1);
    forall f | IsFloor(f) ensures FloorFifo(r, f) {
      LeaveKeepsFifo(st, f);
    }
    forall s, d | IsFloor(s) && IsFloor(d) ensures InOrder(r, s, d) {
      ServeKeepsOrder(st, s, d);
    }
    forall q ensures Conserved(r, q) {
      ServeConserves(st, q);
    }
    forall d | IsFloor(d) ensures Tallied(r, d) {
      ServeTallies(st, d);
    }
  }

  /** Nobody who stands before index k gets off where the k-th passenger does. */
  ghost predicate FirstOff(st: State, k: nat) {
    k < |st.onboard| && forall j | 0 <= j < k :: st.onboard[j].dest != st.onboard[k].dest
  }

  lemma AlightKeepsOrder(st: State, k: nat, s: int, d: int)
    requires Shape(st) && FirstOff(st, k) && IsFloor(s) && IsFloor(d) && InOrder(st, s, d)
    ensures InOrder(Alight(st, k), s, d)
  {
    OrderlyAlight(st.h.delivered, st.onboard, st.floors[s - 1], st.h.arrivals, k, Between(s, d));
  }

  lemma AlightKeepsCount(st: State, k: nat)
    requires Shape(st) && k < |st.onboard| && Counted(st)
    ensures Counted(Alight(st, k))
  {
    CargoRemove(st.onboard, k);
    CargoOne(st.onboard[k]);
  }

  lemma AlightConserves(st: State, k: nat, q: Query)
    requires Shape(st) && k < |st.onboard| && Conserved(st, q)
    ensures Conserved(Alight(st, k), q)
  {
    CountRemove(st.onboard, k, q);
    CountSnoc(st.h.delivered, st.onboard[k], q);
  }

  lemma AlightTallies(st: State, k: nat, d: int)
    requires Shape(st) && k < |st.onboard| && IsFloor(d) && Tallied(st, d)
    ensures Tallied(Alight(st, k), d)
  {
    CountSnoc(st.h.delivered, st.onboard[k], To(d));
  }

  lemma AlightSound(st: State, k: nat)
    requires Sound(st) && FirstOff(st, k)
    ensures Sound(Alight(st, k))
  {
    var r, p := Alight(st, k), st.onboard[k];
    AlightKeepsCount(st, k);
    SumUpdate(st.served, p.dest - 1, st.served[p.dest - 1] + 1);
    forall f | IsFloor(f) ensures FloorFifo(r, f) {
      assert FloorFifo(st, f);
    }
    forall s, d | IsFloor(s) && IsFloor(d) ensures InOrder(r, s, d) {
      AlightKeepsOrder(st, k, s, d);
    }
    forall q ensures Conserved(r, q) {
      AlightConserves(st, k, q);
    }
    forall d | IsFloor(d) ensures Tallied(r, d) {
      AlightTallies(st, k, d);
    }
  }

  /** Two states that differ in mode, position, clock and the like only. */
  ghost predicate SameBooks(a: State, b: State) {
    && a.weight == b.weight && a.units == b.units && a.odd == b.odd && a.onboard == b.onboard
    && a.floors == b.floors && a.served == b.served && a.total == b.total && a.nodes == b.nodes
    && a.h.arrivals == b.h.arrivals && a.h.departed == b.h.departed && a.h.delivered == b.h.delivered
    && a.h.boardings == b.h.boardings && a.h.trips == b.h.trips
  }

  lemma SameBooksSound(a: State, b: State)
    requires Sound(a) && SameBooks(a, b)
    ensures Sound(b)
  {
    forall f | IsFloor(f) ensures FloorFifo(b, f) {
      assert FloorFifo(a, f);
    }
    forall s, d | IsFloor(s) && IsFloor(d) ensures InOrder(b, s, d) {
      assert InOrder(a, s, d);
    }
    forall q ensures Conserved(b, q) {
      assert Conserved(a, q);
    }
    forall d | IsFloor(d) ensures Tallied(b, d) {
      assert Tallied(a, d);
    }
  }

  // ---- The functions of elevator_proc.c keep the books ----

  lemma {:induction false} LoadSound(st: State)
    requires Sound(st) && IsFloor(st.floor)
    ensures Sound(Load(st))
    decreases |st.Here()|
  {
    var q := st.Here();
    if q == [] {
    } else if q[0].heading == Equal {
      ServeHereSound(st);
      LoadSound(ServeHere(st));
    } else if Fits(st, q[0]) {
      BoardSound(st);
      LoadSound(Board(st));
    }
  }

  lemma CursorPassed(st: State, i: nat)
    requires Shape(st) && i < |st.onboard| && st.onboard[i].dest == st.floor
    requires forall j | 0 <= j < i :: st.onboard[j].dest != st.floor
    ensures FirstOff(st, i) && Alight(st, i).floor == st.floor && |Alight(st, i).onboard| == |st.onboard| - 1
    ensures forall j | 0 <= j < i :: Alight(st, i).onboard[j].dest != st.floor
  {
  }

  /** Whatever survives letting off the first passenger bound for a floor survives unloading. */
  lemma {:induction false} UnloadInduction(inv: State -> bool, st: State, i: nat)
    requires forall s: State, k: nat | Shape(s) && FirstOff(s, k) && inv(s) :: inv(Alight(s, k))
    requires Shape(st) && inv(st) && i <= |st.onboard|
    requires forall j | 0 <= j < i :: st.onboard[j].dest != st.floor
    ensures inv(UnloadFrom(st, i))
    decreases |st.onboard| - i
  {
    if i == |st.onboard| {
    } else if st.onboard[i].dest == st.floor {
      CursorPassed(st, i);
      UnloadInduction(inv, Alight(st, i), i);
    } else {
      UnloadInduction(inv, st, i + 1);
    }
  }

  lemma UnloadSound(st: State)
    requires Sound(st)
    ensures Sound(Unload(st))
  {
    forall s: State, k: nat | Shape(s) && FirstOff(s, k) && Sound(s) ensures Sound(Alight(s, k)) {
      AlightSound(s, k);
    }
    UnloadInduction(Sound, st, 0);
  }

  lemma DrainStepSound(st: State)
    requires Sound(st)
    ensures Sound(DrainStep(st))
  {
    var moved := MoveTo(st, MinOnboard(st));
    SameBooksSound(st, moved);
    UnloadSound(moved);
  }

  lemma {:induction false} DrainSound(st: State)
    requires Sound(st) && DrainReady(st)
    ensures Sound(Drain(st))
    decreases |st.onboard|
  {
    if st.onboard == [] {
    } else {
      DrainStepShrinks(st);
      DrainStepSound(st);
      DrainSound(DrainStep(st));
    }
  }

  lemma AttendSound(st: State)
    requires Sound(st) && IsFloor(st.floor)
    ensures Sound(Attend(st))
  {
    var a := st.(mode := Loading);
    SameBooksSound(st, a);
    UnloadSound(a);
    UnloadFromFrame(a, 0);
    SameBooksSound(Unload(a), Sleep(Unload(a), 1));
    LoadSound(Sleep(Unload(a), 1));
  }

  lemma IssueSound(st: State, code: int, start: int, dest: int)
    requires Sound(st)
    ensures Sound(Issue(st, code, start, dest))
  {
    if ValidRequest(code, start, dest) {
      ArriveSound(st, NewPassenger(st.nodes, KindOf(code), start, dest));
    }
  }

  lemma DispatchSound(st: State)
    requires Sound(st)
    ensures Sound(Dispatch(st, 0))
  {
    DispatchOnlyMoves(st, 0);
    SameBooksSound(st, Dispatch(st, 0));
  }

  lemma ServiceSameBooks(st: State)
    requires Shape(st) && IsFloor(st.floor)
    ensures SameBooks(Attend(st), Service(st))
  {
  }

  lemma ServiceSound(st: State)
    requires Sound(st) && IsFloor(st.floor)
    ensures Sound(Service(st))
  {
    AttendSound(st);
    ServiceSameBooks(st);
    SameBooksSound(Attend(st), Service(st));
  }

  lemma PassSound(st: State)
    requires Ready(st) && Sound(st)
    ensures Sound(Tick(st))
  {
    if st.mode == Offline {
      DrainSound(st);
    } else if st.mode == Idle {
      DispatchSound(st);
    } else {
      ServiceSound(st);
    }
  }

  lemma StepSound(st: State, e: Event)
    requires Ready(st) && Sound(st)
    ensures Sound(Step(st, e))
  {
    match e
    case StartCall =>
      SameBooksSound(st, Start(st));
    case StopCall =>
      SameBooksSound(st, Stop(st));
    case IssueCall(code, start, dest) =>
      IssueSound(st, code, start, dest);
    case Pass =>
      PassSound(st);
  }

  lemma {:induction false} AfterSound(st: State, events: seq<Event>)
    requires Ready(st) && Sound(st)
    ensures Sound(After(st, events))
  {
    if events == [] {
    } else {
      AfterSound(st, events[..|events| - 1]);
      StepSound(After(st, events[..|events| - 1]), events[|events| - 1]);
    }
  }

  lemma RunSound(events: seq<Event>)
    ensures Sound(Run(events))
  {
    InitSound();
    AfterSound(Init(), events);
  }
}
