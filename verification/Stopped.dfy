/** Between a stop and the next start: nobody boards, the queues only grow, and one pass delivers
    everybody who was onboard. */
module Stopped {
  import opened Passengers
  import opened Machine
  import opened Runs

  /** The queue at f has kept everybody and gained, in order, the requests made from f since. */
  ghost predicate OnlyGrew(st: State, r: State, f: int)
    requires Shape(st) && Shape(r) && IsFloor(f)
  {
    && |st.h.arrivals| <= |r.h.arrivals| && r.h.arrivals[..|st.h.arrivals|] == st.h.arrivals
    && r.floors[f - 1] == st.floors[f - 1] + Select(r.h.arrivals[|st.h.arrivals|..], From(f))
  }

  /** `r` is what a stopped elevator `st` has become, `drained` telling whether a pass has run. */
  ghost predicate Frozen(st: State, r: State, drained: bool)
    requires Shape(st) && Shape(r)
  {
    && r.mode == Offline && !r.started
    && r.h.departed == st.h.departed
    && (forall f | IsFloor(f) :: OnlyGrew(st, r, f))
    && r.onboard == (if drained then [] else st.onboard)
    && r.total == st.total + (if drained then |st.onboard| else 0)
  }

  lemma Grow(all: seq<Passenger>, n: nat, p: Passenger, q: Query, queue: seq<Passenger>)
    requires n <= |all|
    ensures (all + [p])[..n] == all[..n]
    ensures queue + Select((all + [p])[n..], q)
         == if Matches(p, q) then queue + Select(all[n..], q) + [p] else queue + Select(all[n..], q)
  {
    assert (all + [p])[n..] == all[n..] + [p];
    SelectSnoc(all[n..], p, q);
  }

  lemma ArriveGrows(st: State, r: State, f: int, p: Passenger)
    requires Shape(st) && Shape(r) && IsFloor(f) && OnlyGrew(st, r, f) && Formed(p)
    ensures OnlyGrew(st, Arrive(r, p), f)
  {
    Grow(r.h.arrivals, |st.h.arrivals|, p, From(f), st.floors[f - 1]);
  }

  lemma ArriveFrozen(st: State, r: State, drained: bool, p: Passenger)
    requires Shape(st) && Shape(r) && Frozen(st, r, drained) && Formed(p)
    ensures Frozen(st, Arrive(r, p), drained)
  {
    forall f | IsFloor(f) ensures OnlyGrew(st, Arrive(r, p), f) {
      ArriveGrows(st, r, f, p);
    }
  }

  lemma PassFrozen(st: State, r: State, drained: bool)
    requires Ready(st) && Ready(r) && Frozen(st, r, drained)
    ensures Frozen(st, Tick(r), true)
  {
    DrainFrame(r);
    forall f | IsFloor(f) ensures OnlyGrew(st, Tick(r), f) {
      assert OnlyGrew(st, r, f);
    }
  }

  lemma {:induction false} WhileStopped(st: State, events: seq<Event>)
    requires Ready(st) && !st.started && StartCall !in events
    ensures Frozen(st, After(st, events), Pass in events)
  {
    if events == [] {
      forall f | IsFloor(f) ensures OnlyGrew(st, st, f) {
        assert st.h.arrivals[|st.h.arrivals|..] == [];
      }
    } else {
      var before, e := events[..|events| - 1], events[|events| - 1];
      assert events == before + [e];
      WhileStopped(st, before);
      var r := After(st, before);
      match e
      case StopCall =>
      case IssueCall(code, start, dest) =>
        if ValidRequest(code, start, dest) {
          ArriveFrozen(st, r, Pass in before, NewPassenger(r.nodes, KindOf(code), start, dest));
        }
      case Pass =>
        PassFrozen(st, r, Pass in before);
    }
  }
}
