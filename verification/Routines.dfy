/** What loading, unloading, dispatching and draining amount to. */
module Routines {
  import opened Passengers
  import opened Machine
  import opened Runs
  import opened Books

  // ---- Unloading ----

  /** From cursor i on, those bound for this floor are off and the others kept their places. */
  ghost predicate PutOff(st: State, i: nat, r: State)
    requires Shape(st) && i <= |st.onboard| && Shape(r)
  {
    var rest := st.onboard[i..];
    && r.onboard == st.onboard[..i] + Select(rest, Passing(st.floor))
    && r.h.delivered == st.h.delivered + Select(rest, To(st.floor))
    && (forall d | IsFloor(d) ::
          r.served[d - 1] == st.served[d - 1] + (if d == st.floor then |Select(rest, To(st.floor))| else 0))
  }

  lemma CutOut(xs: seq<Passenger>, i: nat)
    requires i < |xs|
    ensures (xs[..i] + xs[i + 1..])[i..] == xs[i + 1..] && (xs[..i] + xs[i + 1..])[..i] == xs[..i]
  {
  }

  lemma SelectCut(xs: seq<Passenger>, i: nat, q: Query)
    requires i < |xs|
    ensures Select(xs[i..], q)
         == if Matches(xs[i], q) then [xs[i]] + Select(xs[i + 1..], q) else Select(xs[i + 1..], q)
  {
    assert xs[i..][1..] == xs[i + 1..];
    SelectHead(xs[i..], q);
  }

  lemma Push(xs: seq<Passenger>, p: Passenger, ys: seq<Passenger>)
    ensures xs + [p] + ys == xs + ([p] + ys)
  {
  }

  /** Without the passenger at the cursor, what is still to come reads the same. */
  lemma CursorTaken(done: seq<Passenger>, xs: seq<Passenger>, i: nat, f: int)
    requires i < |xs| && xs[i].dest == f
    ensures var ys := xs[..i] + xs[i + 1..];
            && ys[..i] + Select(ys[i..], Passing(f)) == xs[..i] + Select(xs[i..], Passing(f))
            && (done + [xs[i]]) + Select(ys[i..], To(f)) == done + Select(xs[i..], To(f))
            && |Select(ys[i..], To(f))| + 1 == |Select(xs[i..], To(f))|
  {
    CutOut(xs, i);
    SelectCut(xs, i, To(f));
    SelectCut(xs, i, Passing(f));
    Push(done, xs[i], Select(xs[i + 1..], To(f)));
  }

  lemma PutOffOneMore(st: State, i: nat, r: State)
    requires Shape(st) && i < |st.onboard| && st.onboard[i].dest == st.floor && Shape(r)
    requires PutOff(Alight(st, i), i, r)
    ensures PutOff(st, i, r)
  {
    CursorTaken(st.h.delivered, st.onboard, i, st.floor);
  }

  lemma CursorSkipped(xs: seq<Passenger>, i: nat, f: int)
    requires i < |xs| && xs[i].dest != f
    ensures xs[..i + 1] + Select(xs[i + 1..], Passing(f)) == xs[..i] + Select(xs[i..], Passing(f))
    ensures Select(xs[i + 1..], To(f)) == Select(xs[i..], To(f))
  {
    SelectCut(xs, i, To(f));
    SelectCut(xs, i, Passing(f));
    assert xs[..i + 1] == xs[..i] + [xs[i]];
    Push(xs[..i], xs[i], Select(xs[i + 1..], Passing(f)));
  }

  lemma PassedOneMore(st: State, i: nat, r: State)
    requires Shape(st) && i < |st.onboard| && st.onboard[i].dest != st.floor && Shape(r)
    requires PutOff(st, i + 1, r)
    ensures PutOff(st, i, r)
  {
    CursorSkipped(st.onboard, i, st.floor);
  }

  lemma {:induction false} UnloadFromMeaning(st: State, i: nat)
    requires Shape(st) && i <= |st.onboard|
    ensures PutOff(st, i, UnloadFrom(st, i))
    decreases |st.onboard| - i
  {
    if i == |st.onboard| {
    } else if st.onboard[i].dest == st.floor {
      UnloadFromMeaning(Alight(st, i), i);
      PutOffOneMore(st, i, UnloadFrom(st, i));
    } else {
      UnloadFromMeaning(st, i + 1);
      PassedOneMore(st, i, UnloadFrom(st, i));
    }
  }

  /** unload_elevator delivers exactly those bound for this floor, and everybody keeps their order. */
  lemma UnloadMeaning(st: State)
    requires Shape(st)
    ensures Unload(st).onboard == Select(st.onboard, Passing(st.floor))
    ensures Unload(st).h.delivered == st.h.delivered + Select(st.onboard, To(st.floor))
    ensures forall d | IsFloor(d) :: Unload(st).served[d - 1]
              == st.served[d - 1] + (if d == st.floor then |Select(st.onboard, To(d))| else 0)
  {
    UnloadFromMeaning(st, 0);
    assert st.onboard[0..] == st.onboard;
  }

  lemma {:induction false} SelectMatches(xs: seq<Passenger>, q: Query)
    ensures forall k | 0 <= k < |Select(xs, q)| :: Select(xs, q)[k] in xs && Matches(Select(xs, q)[k], q)
  {
    if xs == [] {
    } else {
      SelectMatches(xs[1..], q);
    }
  }

  // ---- Loading ----

  /** The load that the first n of the queue would add. */
  function Extra(q: seq<Passenger>, n: nat): Cargo
    requires n <= |q|
  {
    CargoOf(Select(q[..n], Riders))
  }

  lemma ExtraStep(q: seq<Passenger>, n: nat)
    requires n < |q|
    ensures Extra(q, n + 1) == if q[0].heading == Equal then Extra(q[1..], n)
                               else Combine(CargoOf([q[0]]), Extra(q[1..], n))
  {
    TakeOne(q, n, Riders);
    CargoConcat([q[0]], Select(q[1..][..n], Riders));
  }

  /** The first n of the queue can be dealt with: those among them who ride fit beside those onboard,
      within 30 weight units and 10 units of room. */
  ghost predicate PrefixFits(st: State, q: seq<Passenger>, n: nat)
    requires n <= |q|
  {
    st.weight + Extra(q, n).weight <= 30 && st.units + Extra(q, n).units <= 10
  }

  /** How many leave a queue when the car already carries so much. */
  function TakenFrom(q: seq<Passenger>, weight: int, units: int): (n: nat)
    ensures n <= |q|
  {
    if q == [] then 0
    else if q[0].heading == Equal then 1 + TakenFrom(q[1..], weight, units)
    else if weight + q[0].weight <= MAX_WEIGHT && units + q[0].space <= MAX_UNITS then
      1 + TakenFrom(q[1..], weight + q[0].weight, units + q[0].space)
    else 0
  }

  function Taken(st: State): (n: nat)
    requires Shape(st) && IsFloor(st.floor)
    ensures n <= |st.Here()|
  {
    TakenFrom(st.Here(), st.weight, st.units)
  }

  lemma TakeOne(q: seq<Passenger>, n: nat, w: Query)
    requires n < |q|
    ensures Select(q[..n + 1], w)
         == if Matches(q[0], w) then [q[0]] + Select(q[1..][..n], w) else Select(q[1..][..n], w)
    ensures q[..n + 1] == [q[0]] + q[1..][..n]
  {
    assert q[..n + 1][1..] == q[1..][..n];
    SelectHead(q[..n + 1], w);
  }

  lemma TakeOnto(xs: seq<Passenger>, q: seq<Passenger>, n: nat, w: Query)
    requires n < |q|
    ensures xs + Select(q[..n + 1], w)
         == (if Matches(q[0], w) then xs + [q[0]] else xs) + Select(q[1..][..n], w)
  {
    TakeOne(q, n, w);
    Push(xs, q[0], Select(q[1..][..n], w));
  }

  /** The first n of the queue have been dealt with: those already at their floor served in place,
      the others added to the car, all in order. */
  ghost predicate TookPrefix(st: State, n: nat, r: State)
    requires Shape(st) && IsFloor(st.floor) && Shape(r) && n <= |st.Here()|
  {
    TookPeople(st, n, r) && TookPlaces(st, n, r)
  }

  ghost predicate TookPeople(st: State, n: nat, r: State)
    requires Shape(st) && IsFloor(st.floor) && Shape(r) && n <= |st.Here()|
  {
    var q := st.Here();
    && r.onboard == st.onboard + Select(q[..n], Riders)
    && r.h.delivered == st.h.delivered + Select(q[..n], Stayers)
    && r.h.departed == st.h.departed + q[..n]
  }

  ghost predicate TookPlaces(st: State, n: nat, r: State)
    requires Shape(st) && IsFloor(st.floor) && Shape(r) && n <= |st.Here()|
  {
    var q := st.Here();
    && r.floors == st.floors[st.floor - 1 := q[n..]]
    && r.served == st.served[st.floor - 1 := st.served[st.floor - 1] + |Select(q[..n], Stayers)|]
  }

  lemma Overwrite<T>(xs: seq<T>, i: nat, a: T, b: T)
    requires i < |xs|
    ensures xs[i := a][i := b] == xs[i := b]
  {
  }

  lemma Slices(xs: seq<Passenger>, q: seq<Passenger>, n: nat)
    requires n < |q|
    ensures xs + [q[0]] + q[1..][..n] == xs + q[..n + 1]
  {
  }

  lemma RestSlice(q: seq<Passenger>, n: nat)
    requires n < |q|
    ensures q[1..][n..] == q[n + 1..]
  {
  }

  lemma CountOnto(served: seq<int>, i: nat, q: seq<Passenger>, n: nat)
    requires i < |served| && n < |q|
    ensures var after := if q[0].heading == Equal then served[i := served[i] + 1] else served;
            var here, later := |Select(q[..n + 1], Stayers)|, |Select(q[1..][..n], Stayers)|;
            after[i := after[i] + later] == served[i := served[i] + here]
  {
    TakeOne(q, n, Stayers);
    Overwrite(served, i, served[i] + 1, served[i] + |Select(q[..n + 1], Stayers)|);
  }

  lemma TookPeopleMore(st: State, s: State, n: nat, r: State)
    requires SomeoneHere(st) && Shape(s) && s.floor == st.floor && Shape(r)
    requires s == if st.Here()[0].heading == Equal then ServeHere(st) else Board(st)
    requires n <= |s.Here()| && TookPeople(s, n, r)
    ensures n + 1 <= |st.Here()| && TookPeople(st, n + 1, r)
  {
    var q := st.Here();
    assert s.Here() == q[1..];
    Slices(st.h.departed, q, n);
    TakeOnto(st.onboard, q, n, Riders);
    TakeOnto(st.h.delivered, q, n, Stayers);
  }

  lemma TookPlacesMore(st: State, s: State, n: nat, r: State)
    requires SomeoneHere(st) && Shape(s) && s.floor == st.floor && Shape(r)
    requires s == if st.Here()[0].heading == Equal then ServeHere(st) else Board(st)
    requires n <= |s.Here()| && TookPlaces(s, n, r)
    ensures n + 1 <= |st.Here()| && TookPlaces(st, n + 1, r)
  {
    var q, i := st.Here(), st.floor - 1;
    assert s.Here() == q[1..];
    RestSlice(q, n);
    Overwrite(st.floors, i, q[1..], q[n + 1..]);
    CountOnto(st.served, i, q, n);
  }

  lemma TookOneMore(st: State, s: State, n: nat, r: State)
    requires SomeoneHere(st) && Shape(s) && s.floor == st.floor && Shape(r)
    requires s == if st.Here()[0].heading == Equal then ServeHere(st) else Board(st)
    requires n <= |s.Here()| && TookPrefix(s, n, r)
    ensures n + 1 <= |st.Here()| && TookPrefix(st, n + 1, r)
  {
    TookPeopleMore(st, s, n, r);
    TookPlacesMore(st, s, n, r);
  }

  lemma {:induction false} LoadTakesPrefix(st: State)
    requires Shape(st) && IsFloor(st.floor)
    ensures TookPrefix(st, Taken(st), Load(st))
    decreases |st.Here()|
  {
    var q := st.Here();
    if q == [] {
    } else if q[0].heading == Equal {
      LoadTakesPrefix(ServeHere(st));
      TookOneMore(st, ServeHere(st), Taken(ServeHere(st)), Load(st));
    } else if Fits(st, q[0]) {
      LoadTakesPrefix(Board(st));
      TookOneMore(st, Board(st), Taken(Board(st)), Load(st));
    }
  }

  /** One fewer to take once the head of the queue has left. */
  lemma TakenStep(st: State, s: State)
    requires SomeoneHere(st) && Shape(s) && s.floor == st.floor
    requires st.Here()[0].heading == Equal || Fits(st, st.Here()[0])
    requires s == if st.Here()[0].heading == Equal then ServeHere(st) else Board(st)
    ensures s.Here() == st.Here()[1..] && Taken(st) == 1 + Taken(s)
  {
  }

  lemma {:induction false} LoadStopsAtMisfit(st: State)
    requires Shape(st) && IsFloor(st.floor)
    ensures Taken(st) < |st.Here()| ==>
              st.Here()[Taken(st)].heading != Equal && !Fits(Load(st), st.Here()[Taken(st)])
    decreases |st.Here()|
  {
    var q := st.Here();
    if q == [] {
    } else if q[0].heading == Equal {
      TakenStep(st, ServeHere(st));
      LoadStopsAtMisfit(ServeHere(st));
    } else if Fits(st, q[0]) {
      TakenStep(st, Board(st));
      LoadStopsAtMisfit(Board(st));
    }
  }

  lemma {:induction false} LoadStaysWithin(st: State)
    requires Shape(st) && IsFloor(st.floor) && st.weight <= 30 && st.units <= 10
    ensures Load(st).weight <= 30 && Load(st).units <= 10
    decreases |st.Here()|
  {
    var q := st.Here();
    if q == [] {
    } else if q[0].heading == Equal {
      LoadStaysWithin(ServeHere(st));
    } else if Fits(st, q[0]) {
      LoadStaysWithin(Board(st));
    }
  }

  /** The first of those left behind, if there is one, rides and would exceed 30 or 10. */
  ghost predicate LeavesMisfit(r: State)
    requires Shape(r) && IsFloor(r.floor)
  {
    r.Here() != [] ==>
      && r.Here()[0].heading != Equal
      && (r.weight + r.Here()[0].weight > 30 || r.units + r.Here()[0].space > 10)
  }

  /** load_elevator takes a prefix of the queue, stops only at somebody with whom the car would carry
      more than 30 weight units or take more than 10 units of room, and never exceeds them itself. */
  lemma LoadMeaning(st: State)
    requires Shape(st) && IsFloor(st.floor)
    ensures TookPrefix(st, Taken(st), Load(st))
    ensures Load(st).floor == st.floor && LeavesMisfit(Load(st))
    ensures st.weight <= 30 && st.units <= 10 ==> Load(st).weight <= 30 && Load(st).units <= 10
  {
    LoadTakesPrefix(st);
    LoadStopsAtMisfit(st);
    LoadFrame(st);
    if st.weight <= 30 && st.units <= 10 {
      LoadStaysWithin(st);
    }
  }

  lemma PrefixFitsStep(st: State, s: State, m: nat)
    requires SomeoneHere(st) && 0 < m <= |st.Here()|
    requires s == if st.Here()[0].heading == Equal then ServeHere(st) else Board(st)
    ensures PrefixFits(st, st.Here(), m) <==> PrefixFits(s, st.Here()[1..], m - 1)
  {
    ExtraStep(st.Here(), m - 1);
    CargoOne(st.Here()[0]);
  }

  lemma PrefixStuck(st: State, m: nat)
    requires SomeoneHere(st) && 0 < m <= |st.Here()|
    requires st.Here()[0].heading != Equal && !Fits(st, st.Here()[0])
    ensures !PrefixFits(st, st.Here(), m)
  {
    var q := st.Here();
    assert Queued(q, st.floor - 1);
    ExtraStep(q, m - 1);
    CargoOne(q[0]);
    RidersCargo(q[1..][..m - 1]);
  }

  /** The prefix is the greatest that fits: exactly the prefixes up to `Taken` can be dealt with. */
  lemma {:induction false} LoadIsMaximal(st: State, m: nat)
    requires Shape(st) && IsFloor(st.floor) && Counted(st) && m <= |st.Here()|
    ensures PrefixFits(st, st.Here(), m) <==> m <= Taken(st)
    decreases |st.Here()|
  {
    var q := st.Here();
    if m == 0 {
    } else {
      if q[0].heading == Equal {
        PrefixFitsStep(st, ServeHere(st), m);
        LoadIsMaximal(ServeHere(st), m - 1);
      } else if Fits(st, q[0]) {
        PrefixFitsStep(st, Board(st), m);
        BoardKeepsCount(st);
        LoadIsMaximal(Board(st), m - 1);
      } else {
        PrefixStuck(st, m);
      }
    }
  }

  ghost predicate NobodyFor(xs: seq<Passenger>, f: int) {
    forall k | 0 <= k < |xs| :: xs[k].dest != f
  }

  lemma UnloadClearsFloor(st: State)
    requires Shape(st)
    ensures NobodyFor(Unload(st).onboard, st.floor)
  {
    UnloadMeaning(st);
    SelectMatches(st.onboard, Passing(st.floor));
  }

  lemma {:induction false} LoadKeepsClear(st: State)
    requires Shape(st) && IsFloor(st.floor) && NobodyFor(st.onboard, st.floor)
    ensures NobodyFor(Load(st).onboard, st.floor)
    decreases |st.Here()|
  {
    var q := st.Here();
    if q == [] {
    } else if q[0].heading == Equal {
      LoadKeepsClear(ServeHere(st));
    } else if Fits(st, q[0]) {
      assert Queued(q, st.floor - 1);
      LoadKeepsClear(Board(st));
    }
  }

  /** Having stopped at a floor, the car carries nobody bound for it. */
  lemma AttendClearsFloor(st: State)
    requires Shape(st) && IsFloor(st.floor)
    ensures forall k | 0 <= k < |Attend(st).onboard| :: Attend(st).onboard[k].dest != st.floor
  {
    var a := st.(mode := Loading);
    UnloadFromFrame(a, 0);
    UnloadClearsFloor(a);
    LoadKeepsClear(Sleep(Unload(a), 1));
  }

  /** An empty car takes at least the head of the queue. */
  lemma EmptyCarTakesSomeone(st: State)
    requires SomeoneHere(st) && Counted(st) && st.onboard == []
    ensures Taken(st) >= 1
  {
    assert Queued(st.Here(), st.floor - 1);
  }

  // ---- Dispatching ----

  ghost predicate LowestAndHighest(floors: seq<seq<Passenger>>, lo: int, hi: int)
    requires |floors| == FLOORS
  {
    && 1 <= lo <= hi <= FLOORS && floors[lo - 1] != [] && floors[hi - 1] != []
    && (forall i | 0 <= i < FLOORS :: floors[i] != [] ==> lo - 1 <= i <= hi - 1)
  }

  lemma {:induction false} DispatchTail(st: State, i: nat, hi: int)
    requires Shape(st) && i <= FLOORS && st.mode == Loading
    requires 1 <= st.floor <= i && st.floor <= hi <= FLOORS
    requires hi == st.floor || (i < hi && st.floors[hi - 1] != [])
    requires forall k | i <= k < FLOORS :: st.floors[k] != [] ==> k <= hi - 1
    ensures var r := Dispatch(st, i);
            r.floor == hi && r.mode == Loading && r.h.clock == st.h.clock + 2 * (hi - st.floor)
    decreases FLOORS - i
  {
    if i == FLOORS {
    } else {
      if st.floors[i] == [] {
        DispatchTail(st, i + 1, hi);
      } else {
        assert Queued(st.floors[i], i);
        DispatchTail(MoveTo(st, i + 1).(mode := Loading), i + 1, hi);
      }
    }
  }

  lemma {:induction false} DispatchToLowest(st: State, i: nat, lo: int)
    requires Shape(st) && i < lo <= FLOORS && st.floors[lo - 1] != []
    requires forall k | i <= k < lo - 1 :: st.floors[k] == []
    ensures Dispatch(st, i) == Dispatch(MoveTo(st, lo).(mode := Loading), lo)
    decreases FLOORS - i
  {
    assert Queued(st.floors[i], i);
    if st.floors[i] == [] {
      DispatchToLowest(st, i + 1, lo);
    }
  }

  /** The loop over the floors has no break, so an idle car first goes to the lowest floor where
      somebody waits and ends at the highest, whatever order the requests came in. */
  lemma DispatchMeaning(st: State, lo: int, hi: int)
    requires Ready(st) && st.mode == Idle && LowestAndHighest(st.floors, lo, hi)
    ensures Tick(st).floor == hi && Tick(st).mode == Loading
    ensures Tick(st).h.clock == st.h.clock + 2 * (Abs(st.floor - lo) + (hi - lo))
    ensures Tick(st).floors == st.floors && Tick(st).onboard == st.onboard
  {
    DispatchToLowest(st, 0, lo);
    DispatchTail(MoveTo(st, lo).(mode := Loading), lo, hi);
    DispatchFrame(st, 0);
  }

  /** Dispatching is never in vain: from an empty car, the pass after it takes someone off that floor's queue. */
  lemma DispatchThenLoads(st: State, lo: int, hi: int)
    requires Ready(st) && Counted(st) && st.mode == Idle && st.onboard == [] && LowestAndHighest(st.floors, lo, hi)
    ensures Ready(Tick(st))
    ensures |Tick(Tick(st)).floors[hi - 1]| < |st.floors[hi - 1]|
  {
    StepKeepsReady(st, Pass);
    DispatchMeaning(st, lo, hi);
    DispatchFrame(st, 0);
    var t := Tick(st);
    AttendEmpty(t);
    ServiceFrame(t);
  }

  lemma AttendEmpty(st: State)
    requires SomeoneHere(st) && Counted(st) && st.onboard == []
    ensures |Attend(st).floors[st.floor - 1]| < |st.Here()|
  {
    var a := st.(mode := Loading);
    assert Unload(a) == a;
    LoadMeaning(Sleep(a, 1));
    EmptyCarTakesSomeone(Sleep(a, 1));
  }
}
