/** First come, first served over all floors together: exactly when the elevator is. Each queue is
    first in, first out, but a service pass takes its passengers from one floor only. */
module Order {
  import opened Passengers
  import opened Machine
  import opened Runs
  import opened Books
  import opened Routines
  import opened Draining
  import opened Liveness

  /** The passengers of `all` that are not among `gone`, in their order. */
  function Remaining(all: seq<Passenger>, gone: seq<Passenger>): seq<Passenger> {
    if all == [] then []
    else if all[0] in gone then Remaining(all[1..], gone)
    else [all[0]] + Remaining(all[1..], gone)
  }

  /** Everybody who still waits at some floor, oldest request first. */
  function Pending(st: State): seq<Passenger> {
    Remaining(st.h.arrivals, st.h.departed)
  }

  lemma {:induction false} RemainingConcat(a: seq<Passenger>, b: seq<Passenger>, gone: seq<Passenger>)
    ensures Remaining(a + b, gone) == Remaining(a, gone) + Remaining(b, gone)
  {
    if a == [] {
      assert a + b == b;
    } else {
      var ab := a + b;
      assert ab != [] && ab[0] == a[0] && ab[1..] == a[1..] + b;
      RemainingConcat(a[1..], b, gone);
    }
  }

  lemma {:induction false} NoneRemain(xs: seq<Passenger>, gone: seq<Passenger>)
    requires forall x | x in xs :: x in gone
    ensures Remaining(xs, gone) == []
  {
    if xs == [] {
    } else {
      assert xs[0] in xs;
      NoneRemain(xs[1..], gone);
    }
  }

  lemma {:induction false} AllRemain(xs: seq<Passenger>, gone: seq<Passenger>)
    requires forall x | x in xs :: x !in gone
    ensures Remaining(xs, gone) == xs
  {
    if xs == [] {
    } else {
      assert xs[0] in xs;
      AllRemain(xs[1..], gone);
    }
  }

  lemma {:induction false} SelectRemaining(all: seq<Passenger>, gone: seq<Passenger>, q: Query)
    ensures Select(Remaining(all, gone), q) == Remaining(Select(all, q), gone)
  {
    if all == [] {
    } else {
      var p, rest := all[0], Remaining(all[1..], gone);
      SelectRemaining(all[1..], gone, q);
      SelectHead(all, q);
      SelectHead([p] + rest, q);
      assert ([p] + rest)[1..] == rest;
      var picked := [p] + Select(all[1..], q);
      assert picked[0] == p && picked[1..] == Select(all[1..], q);
    }
  }

  lemma {:induction false} SelectNoLonger(xs: seq<Passenger>, q: Query)
    ensures |Select(xs, q)| <= |xs|
  {
    if xs == [] {
    } else {
      SelectNoLonger(xs[1..], q);
    }
  }

  /** Later requests have later nodes. */
  ghost predicate Increasing(xs: seq<Passenger>) {
    forall i, j | 0 <= i < j < |xs| :: xs[i].node < xs[j].node
  }

  lemma {:induction false} SelectIncreasing(xs: seq<Passenger>, q: Query)
    requires Increasing(xs)
    ensures Increasing(Select(xs, q))
  {
    if xs == [] {
    } else {
      SelectIncreasing(xs[1..], q);
      SelectMatches(xs[1..], q);
    }
  }

  /** In a list without repetition, what follows the first part is not in it. */
  lemma TailIsNew(a: seq<Passenger>, b: seq<Passenger>)
    requires Increasing(a + b)
    ensures forall x | x in b :: x !in a
  {
    forall i, j | 0 <= i < |a| && 0 <= j < |b| ensures a[i] != b[j] {
      assert (a + b)[i] == a[i] && (a + b)[|a| + j] == b[j];
    }
  }

  /** Of those pending, the ones from floor f are its queue. */
  lemma PendingQueue(st: State, f: int)
    requires Shape(st) && IsFloor(f) && FloorFifo(st, f) && Numbered(st)
    ensures Select(Pending(st), From(f)) == st.floors[f - 1]
  {
    var gone, queue := st.h.departed, st.floors[f - 1];
    var left := Select(gone, From(f));
    SelectRemaining(st.h.arrivals, gone, From(f));
    SelectIncreasing(st.h.arrivals, From(f));
    TailIsNew(left, queue);
    RemainingConcat(left, queue, gone);
    SelectMatches(gone, From(f));
    NoneRemain(left, gone);
    SelectKeeps(gone, From(f));
    assert Queued(queue, f - 1);
    AllRemain(queue, gone);
  }

  // ---- One service pass ----

  /** How many leave the queue in the next service pass: as many as fit beside those who ride on. */
  function Leavers(st: State): (n: nat)
    requires Shape(st) && IsFloor(st.floor)
    ensures n <= |st.Here()|
  {
    var stay := CargoOf(Select(st.onboard, Passing(st.floor)));
    TakenFrom(st.Here(), stay.weight, stay.units)
  }

  lemma LoadAfterUnload(st: State)
    requires Shape(st) && Counted(st)
    ensures var stay := CargoOf(Select(st.onboard, Passing(st.floor)));
            && Unload(st).weight == stay.weight && Unload(st).units == stay.units
            && Unload(st).floors == st.floors && Unload(st).floor == st.floor
            && Unload(st).h.departed == st.h.departed
  {
    UnloadFromFrame(st, 0);
    UnloadMeaning(st);
    UnloadCounted(st, 0);
  }

  lemma AttendTakes(st: State)
    requires Shape(st) && IsFloor(st.floor) && Counted(st)
    ensures Attend(st).h.departed == st.h.departed + st.Here()[..Leavers(st)]
  {
    var a := st.(mode := Loading);
    LoadAfterUnload(a);
    LoadMeaning(Sleep(Unload(a), 1));
  }

  /** The oldest pending requests, as many as the next service pass takes, all ask from this floor. */
  ghost predicate OldestAskHere(st: State)
    requires Shape(st) && IsFloor(st.floor)
  {
    && Leavers(st) <= |Pending(st)|
    && forall k | 0 <= k < Leavers(st) :: Pending(st)[k].start == st.floor
  }

  lemma SelectFirst(due: seq<Passenger>, f: int, n: nat)
    requires n <= |due| && forall k | 0 <= k < n :: due[k].start == f
    ensures n <= |Select(due, From(f))| && Select(due, From(f))[..n] == due[..n]
  {
    var first := due[..n];
    assert due == first + due[n..];
    SelectConcat(first, due[n..], From(f));
    SelectAll(first, From(f));
  }

  lemma OldestAreQueue(due: seq<Passenger>, queue: seq<Passenger>, f: int, n: nat)
    requires Select(due, From(f)) == queue && n <= |queue|
    requires forall k | 0 <= k < |queue| :: queue[k].start == f
    ensures n <= |due|
    ensures queue[..n] == due[..n] <==> forall k | 0 <= k < n :: due[k].start == f
  {
    SelectNoLonger(due, From(f));
    if forall k | 0 <= k < n :: due[k].start == f {
      SelectFirst(due, f, n);
    } else {
      var k :| 0 <= k < n && due[k].start != f;
      assert queue[..n][k] != due[..n][k];
    }
  }

  /** The passengers who leave their queue in a service pass are the oldest pending requests if and
      only if those requests all ask from the floor the car stands on. */
  lemma PassTakesOldestIff(st: State)
    requires Ready(st) && st.started && st.mode != Idle
    requires Counted(st) && Numbered(st) && FloorFifo(st, st.floor)
    ensures Leavers(st) <= |Pending(st)|
    ensures Tick(st).h.departed == st.h.departed + st.Here()[..Leavers(st)]
    ensures st.Here()[..Leavers(st)] == Pending(st)[..Leavers(st)] <==> OldestAskHere(st)
  {
    AttendTakes(st);
    ServiceFrame(st);
    PendingQueue(st, st.floor);
    assert Queued(st.Here(), st.floor - 1);
    OldestAreQueue(Pending(st), st.Here(), st.floor, Leavers(st));
  }

  /** How many an empty car takes at the highest floor with a queue. */
  function FirstLoad(st: State, hi: int): nat
    requires Shape(st) && IsFloor(hi)
  {
    TakenFrom(st.floors[hi - 1], 0, 0)
  }

  /** From an idle empty car, the next to leave a queue are the head of the highest queue and those
      behind it, and they are the oldest requests if and only if those all ask from that floor. */
  lemma DispatchTakesOldestIff(st: State, lo: int, hi: int)
    requires Ready(st) && st.mode == Idle && st.onboard == [] && LowestAndHighest(st.floors, lo, hi)
    requires Counted(st) && Numbered(st) && FloorFifo(st, hi)
    ensures Ready(Tick(st)) && 1 <= FirstLoad(st, hi) <= |Pending(st)|
    ensures var n, queue := FirstLoad(st, hi), st.floors[hi - 1];
            && Tick(Tick(st)).h.departed == st.h.departed + queue[..n]
            && Tick(Tick(st)).h.departed[|st.h.departed|] == queue[0]
            && (queue[..n] == Pending(st)[..n] <==> forall k | 0 <= k < n :: Pending(st)[k].start == hi)
  {
    var t := Tick(st);
    StepKeepsReady(st, Pass);
    DispatchMeaning(st, lo, hi);
    DispatchFrame(st, 0);
    assert FloorFifo(t, hi);
    assert Select(t.onboard, Passing(hi)) == [];
    PassTakesOldestIff(t);
    EmptyCarTakesSomeone(t);
  }

  // ---- Whole runs ----

  /** Nobody has left a queue before somebody who asked earlier, at whatever floor. */
  ghost predicate FirstComeFirst(st: State) {
    st.h.departed <= st.h.arrivals
  }

  /** Before every service pass the oldest pending requests it will take ask from its floor. */
  ghost predicate AlwaysOldest(events: seq<Event>) {
    forall i | 0 <= i < |events| && events[i] == Pass && Serving(Run(events[..i])) :: OldestAskHere(Run(events[..i]))
  }

  lemma DepartedWithinArrivals(st: State)
    requires Sound(st)
    ensures |st.h.departed| <= |st.h.arrivals|
  {
    assert Conserved(st, Everyone);
    SelectAll(st.h.arrivals, Everyone);
    SelectAll(st.h.delivered, Everyone);
    SelectAll(st.onboard, Everyone);
  }

  lemma PendingSuffix(st: State)
    requires Numbered(st) && FirstComeFirst(st)
    ensures Pending(st) == st.h.arrivals[|st.h.departed|..]
  {
    var all, n := st.h.arrivals, |st.h.departed|;
    assert all == all[..n] + all[n..] && all[..n] == st.h.departed;
    TailIsNew(all[..n], all[n..]);
    RemainingConcat(all[..n], all[n..], st.h.departed);
    NoneRemain(all[..n], st.h.departed);
    AllRemain(all[n..], st.h.departed);
  }

  lemma PrefixGrows(gone: seq<Passenger>, next: seq<Passenger>, all: seq<Passenger>)
    requires gone <= all && |gone| + |next| <= |all|
    ensures gone + next <= all <==> next == all[|gone|..][..|next|]
  {
    var cut := all[|gone|..][..|next|];
    assert all[..|gone| + |next|] == gone + cut;
    assert (gone + next)[|gone|..] == next && (gone + cut)[|gone|..] == cut;
  }

  /** A service pass keeps the order exactly when the oldest requests ask from its floor. */
  lemma ServiceKeepsFirst(st: State)
    requires Ready(st) && Serving(st) && Counted(st) && Numbered(st) && FloorFifo(st, st.floor)
    ensures FirstComeFirst(Tick(st)) <==> FirstComeFirst(st) && OldestAskHere(st)
  {
    PassTakesOldestIff(st);
    PassKeepsRequests(st);
    var next := st.Here()[..Leavers(st)];
    if FirstComeFirst(st) {
      PendingSuffix(st);
      PrefixGrows(st.h.departed, next, st.h.arrivals);
    } else {
      assert st.h.departed <= st.h.departed + next;
    }
  }

  lemma OtherStepsKeepFirst(st: State, e: Event)
    requires Ready(st) && |st.h.departed| <= |st.h.arrivals| && !(e == Pass && Serving(st))
    ensures FirstComeFirst(Step(st, e)) <==> FirstComeFirst(st)
  {
    if e == Pass {
      if st.mode == Offline {
        DrainFrame(st);
      } else {
        DispatchFrame(st, 0);
      }
    }
  }

  lemma StepFirstIff(st: State, e: Event)
    requires Ready(st) && Sound(st)
    ensures FirstComeFirst(Step(st, e)) <==> FirstComeFirst(st) && (e == Pass && Serving(st) ==> OldestAskHere(st))
  {
    if e == Pass && Serving(st) {
      assert FloorFifo(st, st.floor);
      ServiceKeepsFirst(st);
    } else {
      DepartedWithinArrivals(st);
      OtherStepsKeepFirst(st, e);
    }
  }

  /** A run is first come, first served over all floors if and only if, before each of its service
      passes, the oldest pending requests that the pass takes all ask from the floor it serves. */
  lemma {:induction false} FirstComeFirstIff(events: seq<Event>)
    ensures FirstComeFirst(Run(events)) <==> AlwaysOldest(events)
  {
    if events == [] {
    } else {
      var n := |events| - 1;
      var front, e := events[..n], events[n];
      FirstComeFirstIff(front);
      RunSound(front);
      StepFirstIff(Run(front), e);
      AlwaysOldestSplits(events);
    }
  }

  lemma AlwaysOldestSplits(events: seq<Event>)
    requires events != []
    ensures var n := |events| - 1;
            AlwaysOldest(events) <==>
              && AlwaysOldest(events[..n])
              && (events[n] == Pass && Serving(Run(events[..n])) ==> OldestAskHere(Run(events[..n])))
  {
    var n := |events| - 1;
    assert forall i | 0 <= i <= n :: events[..n][..i] == events[..i];
  }
}
