/** Emptying a stopped elevator: when it succeeds, the route it takes and how long it lasts. */
module Draining {
  import opened Passengers
  import opened Machine
  import opened Runs
  import opened Routines

  /** The floors the car stops at while it drains. */
  function Route(st: State): seq<int>
    requires DrainReady(st)
    decreases |st.onboard|
  {
    if st.onboard == [] then []
    else
      DrainStepShrinks(st);
      [MinOnboard(st)] + Route(DrainStep(st))
  }

  ghost predicate Wanted(xs: seq<Passenger>, d: int) {
    exists k | 0 <= k < |xs| :: xs[k].dest == d
  }

  lemma {:induction false} SelectKeeps(xs: seq<Passenger>, q: Query)
    ensures forall x | x in xs && Matches(x, q) :: x in Select(xs, q)
  {
    if xs == [] {
    } else {
      SelectKeeps(xs[1..], q);
    }
  }

  lemma WantedStays(xs: seq<Passenger>, f: int, d: int)
    requires Wanted(xs, d) && d != f
    ensures Wanted(Select(xs, Passing(f)), d)
  {
    var k :| 0 <= k < |xs| && xs[k].dest == d;
    SelectKeeps(xs, Passing(f));
    assert xs[k] in Select(xs, Passing(f));
  }

  lemma WantedBefore(xs: seq<Passenger>, f: int, d: int)
    requires Wanted(Select(xs, Passing(f)), d)
    ensures Wanted(xs, d) && d != f
  {
    var on := Select(xs, Passing(f));
    var k :| 0 <= k < |on| && on[k].dest == d;
    SelectMatches(xs, Passing(f));
    assert on[k] in xs;
  }

  /** Unloading here removes this floor, and only this floor, from the destinations still wanted. */
  lemma WantedAfterUnload(st: State, d: int)
    requires Shape(st)
    ensures Wanted(Unload(st).onboard, d) <==> Wanted(st.onboard, d) && d != st.floor
  {
    UnloadMeaning(st);
    if Wanted(st.onboard, d) && d != st.floor {
      WantedStays(st.onboard, st.floor, d);
    }
    if Wanted(Select(st.onboard, Passing(st.floor)), d) {
      WantedBefore(st.onboard, st.floor, d);
    }
  }

  lemma WantedAfterStep(st: State, d: int)
    requires DrainReady(st) && st.onboard != []
    ensures Wanted(DrainStep(st).onboard, d) <==> Wanted(st.onboard, d) && d != MinOnboard(st)
    ensures Wanted(st.onboard, MinOnboard(st))
  {
    NearestOnboard(st);
    WantedAfterUnload(MoveTo(st, MinOnboard(st)), d);
  }

  lemma StepFacts(st: State)
    requires DrainReady(st) && st.onboard != []
    ensures var s, m := DrainStep(st), MinOnboard(st);
            && DrainReady(s) && |s.onboard| < |st.onboard| && s.previous == st.previous && s.floor == m
            && s.h.clock == st.h.clock + 2 * Abs(st.floor - m)
  {
    DrainStepShrinks(st);
    UnloadFromFrame(MoveTo(st, MinOnboard(st)), 0);
  }

  /** The drain stops at the floors somebody onboard wants, at each of them once. */
  lemma {:induction false} RouteCovers(st: State, d: int)
    requires DrainReady(st)
    ensures d in Route(st) <==> Wanted(st.onboard, d)
    decreases |st.onboard|
  {
    if st.onboard == [] {
    } else {
      StepFacts(st);
      RouteCovers(DrainStep(st), d);
      WantedAfterStep(st, d);
    }
  }

  /** Strictly upwards if UP was saved, strictly downwards if DOWN was. */
  ghost predicate Sweeps(direction: Mode, route: seq<int>) {
    forall i, j | 0 <= i < j < |route| ::
      && (direction == Up ==> route[i] < route[j])
      && (direction == Down ==> route[i] > route[j])
  }

  /** It sweeps in the saved direction. */
  lemma {:induction false} RouteSweeps(st: State)
    requires DrainReady(st)
    ensures Sweeps(st.previous, Route(st))
    decreases |st.onboard|
  {
    if st.onboard == [] {
    } else {
      StepFacts(st);
      var s, m := DrainStep(st), MinOnboard(st);
      RouteSweeps(s);
      forall d | d in Route(s) ensures if st.previous == Up then m < d else m > d {
        RouteCovers(s, d);
        WantedAfterStep(st, d);
        NearestOnboard(st);
      }
      assert Route(st) == [m] + Route(s);
      assert forall j | 0 < j < |Route(st)| :: Route(st)[j] == Route(s)[j - 1] && Route(s)[j - 1] in Route(s);
    }
  }

  /** From where the car stands to the first stop, then straight on to the last; two seconds a floor. */
  lemma {:induction false} DrainCost(st: State)
    requires DrainReady(st) && st.onboard != []
    ensures var route := Route(st);
            && route != [] && Drain(st).onboard == []
            && Drain(st).floor == route[|route| - 1]
            && Drain(st).h.clock == st.h.clock + 2 * (Abs(st.floor - route[0]) + Abs(route[|route| - 1] - route[0]))
    decreases |st.onboard|
  {
    StepFacts(st);
    var s, m := DrainStep(st), MinOnboard(st);
    DrainFrame(st);
    assert Route(st) == [m] + Route(s);
    if s.onboard == [] {
    } else {
      DrainCost(s);
      RouteSweeps(st);
      var rest := Route(s);
      var route := Route(st);
      assert if st.previous == Up then route[0] < route[1] else route[0] > route[1];
      assert |rest| > 1 ==> if st.previous == Up then route[1] < route[|rest|] else route[1] > route[|rest|];
    }
  }

  // ---- Termination, for any saved direction ----

  function Turns(st: State, n: nat): (r: State)
    requires Shape(st)
    ensures Shape(r)
    decreases n
  {
    if n == 0 then st else Turns(DrainStep(st), n - 1)
  }

  lemma {:induction false} NobodyGetsOff(st: State, i: nat)
    requires Shape(st) && i <= |st.onboard|
    requires forall k | 0 <= k < |st.onboard| :: st.onboard[k].dest != st.floor
    ensures UnloadFrom(st, i) == st
    decreases |st.onboard| - i
  {
    if i == |st.onboard| {
    } else {
      NobodyGetsOff(st, i + 1);
    }
  }

  /** Without a saved direction min_onboard answers -1: the car is sent to floor -1 and stays there. */
  lemma {:induction false} DrainStuck(st: State, n: nat)
    requires Shape(st) && st.previous != Up && st.previous != Down
    ensures Turns(st, n).onboard == st.onboard
    decreases n
  {
    if n == 0 {
    } else {
      NobodyGetsOff(MoveTo(st, -1), 0);
      DrainStuck(DrainStep(st), n - 1);
    }
  }

  lemma {:induction false} DrainFinishes(st: State) returns (n: nat)
    requires DrainReady(st)
    ensures n <= |st.onboard| && Turns(st, n) == Drain(st)
    decreases |st.onboard|
  {
    n := 0;
    if st.onboard == [] {
    } else {
      DrainStepShrinks(st);
      n := DrainFinishes(DrainStep(st));
      n := n + 1;
    }
  }

  /** The loop that empties the car ends exactly when a direction of travel was saved. */
  lemma DrainEndsIff(st: State)
    requires Shape(st) && IsFloor(st.floor)
    ensures (exists n: nat :: Turns(st, n).onboard == [])
       <==> (st.onboard == [] || st.previous == Up || st.previous == Down)
  {
    if st.onboard == [] || st.previous == Up || st.previous == Down {
      var n := DrainFinishes(st);
      DrainFrame(st);
    } else {
      forall n: nat ensures Turns(st, n).onboard != [] {
        DrainStuck(st, n);
      }
    }
  }
}
