/** The passengers of the elevator and the lists they stand in: what a request turns into, how a
    list is restricted to the passengers of interest, and how much of the car a list takes up. */
module Passengers {

  /** The status codes of elevator_proc.c, used for the elevator and for a passenger's heading. */
  datatype Mode = Offline | Idle | Loading | Up | Down | Equal

  datatype Kind = Adult | Child | RoomService | Bellhop

  const MAX_WEIGHT := 30
  const MAX_UNITS := 10
  const FLOORS := 10

  /** One list node. `node` stands for the address the allocator returned: it tells apart two
      passengers whose requests were the same. Weights are doubled, as in the source. */
  datatype Passenger = Passenger(node: nat, kind: Kind, weight: int, space: int,
                                 start: int, dest: int, heading: Mode)

  predicate IsFloor(f: int) {
    1 <= f <= FLOORS
  }

  function WeightOf(kind: Kind): int {
    match kind
    case Adult => 2
    case Child => 1
    case RoomService => 4
    case Bellhop => 8
  }

  function SpaceOf(kind: Kind): int {
    match kind
    case Adult => 1
    case Child => 1
    case RoomService => 2
    case Bellhop => 2
  }

  function HeadingOf(start: int, dest: int): Mode {
    if start - dest > 0 then Down else if start - dest < 0 then Up else Equal
  }

  function NewPassenger(node: nat, kind: Kind, start: int, dest: int): Passenger {
    Passenger(node, kind, WeightOf(kind), SpaceOf(kind), start, dest, HeadingOf(start, dest))
  }

  /** A passenger whose fields are consistent with one accepted request. */
  predicate Formed(p: Passenger) {
    IsFloor(p.start) && IsFloor(p.dest) && p == NewPassenger(p.node, p.kind, p.start, p.dest)
  }

  /** What a request of each type asks to carry, in the numbers of add_passenger, and which way. */
  ghost predicate AsRequested(p: Passenger, code: int, start: int, dest: int) {
    && p.start == start && p.dest == dest
    && (code == 1 ==> p.kind == Adult && p.weight == 2 && p.space == 1)
    && (code == 2 ==> p.kind == Child && p.weight == 1 && p.space == 1)
    && (code == 3 ==> p.kind == RoomService && p.weight == 4 && p.space == 2)
    && (code == 4 ==> p.kind == Bellhop && p.weight == 8 && p.space == 2)
    && (start > dest ==> p.heading == Down)
    && (start < dest ==> p.heading == Up)
    && (start == dest ==> p.heading == Equal)
  }

  /** Floors still ahead of a car at `from` that climbs and wraps from 10 to 1. */
  function Ahead(from: int, to: int): int {
    if from <= to then to - from else to - from + FLOORS
  }

  /** Which passengers of a list to look at. */
  datatype Query = Everyone | From(s: int) | To(d: int) | Passing(d: int) | Between(s: int, d: int)
                 | Node(n: nat) | Riders | Stayers

  predicate Matches(p: Passenger, q: Query) {
    match q
    case Everyone => true
    case From(s) => p.start == s
    case To(d) => p.dest == d
    case Between(s, d) => p.start == s && p.dest == d
    case Passing(d) => p.dest != d
    case Node(n) => p.node == n
    case Riders => p.heading != Equal
    case Stayers => p.heading == Equal
  }

  /** The passengers of `xs` that match, in their order. */
  function Select(xs: seq<Passenger>, q: Query): seq<Passenger> {
    if xs == [] then []
    else (if Matches(xs[0], q) then [xs[0]] else []) + Select(xs[1..], q)
  }

  lemma {:induction false} SelectConcat(a: seq<Passenger>, b: seq<Passenger>, q: Query)
    ensures Select(a + b, q) == Select(a, q) + Select(b, q)
  {
    if a == [] {
      assert a + b == b;
    } else {
      var ab, head := a + b, if Matches(a[0], q) then [a[0]] else [];
      assert ab != [] && ab[0] == a[0] && ab[1..] == a[1..] + b;
      SelectConcat(a[1..], b, q);
      assert head + (Select(a[1..], q) + Select(b, q)) == (head + Select(a[1..], q)) + Select(b, q);
    }
  }

  lemma SelectOne(p: Passenger, q: Query)
    ensures Select([p], q) == if Matches(p, q) then [p] else []
  {
    assert [p][1..] == [];
  }

  lemma SelectSnoc(a: seq<Passenger>, p: Passenger, q: Query)
    ensures Select(a + [p], q) == if Matches(p, q) then Select(a, q) + [p] else Select(a, q)
  {
    SelectConcat(a, [p], q);
    SelectOne(p, q);
  }

  lemma CountSnoc(a: seq<Passenger>, p: Passenger, q: Query)
    ensures |Select(a + [p], q)| == |Select(a, q)| + (if Matches(p, q) then 1 else 0)
  {
    SelectSnoc(a, p, q);
  }

  lemma CountRemove(xs: seq<Passenger>, k: nat, q: Query)
    requires k < |xs|
    ensures |Select(xs[..k] + xs[k + 1..], q)| == |Select(xs, q)| - (if Matches(xs[k], q) then 1 else 0)
  {
    SelectRemove(xs, k, q);
  }

  lemma SelectHead(xs: seq<Passenger>, q: Query)
    requires xs != []
    ensures Select(xs, q) == if Matches(xs[0], q) then [xs[0]] + Select(xs[1..], q) else Select(xs[1..], q)
  {
  }

  lemma SelectRemove(xs: seq<Passenger>, k: nat, q: Query)
    requires k < |xs|
    ensures var a, b := Select(xs[..k], q), Select(xs[k + 1..], q);
            && Select(xs, q) == (if Matches(xs[k], q) then (a + [xs[k]]) + b else a + b)
            && Select(xs[..k] + xs[k + 1..], q) == a + b
  {
    assert xs == (xs[..k] + [xs[k]]) + xs[k + 1..];
    SelectConcat(xs[..k] + [xs[k]], xs[k + 1..], q);
    SelectSnoc(xs[..k], xs[k], q);
    SelectConcat(xs[..k], xs[k + 1..], q);
  }

  lemma {:induction false} SelectNone(xs: seq<Passenger>, q: Query)
    requires forall k | 0 <= k < |xs| :: !Matches(xs[k], q)
    ensures Select(xs, q) == []
  {
    if xs == [] {
    } else {
      SelectNone(xs[1..], q);
    }
  }

  lemma {:induction false} SelectAll(xs: seq<Passenger>, q: Query)
    requires forall k | 0 <= k < |xs| :: Matches(xs[k], q)
    ensures Select(xs, q) == xs
  {
    if xs == [] {
    } else {
      SelectAll(xs[1..], q);
    }
  }

  /** How many passengers of the ten queues match. */
  function Waiting(floors: seq<seq<Passenger>>, q: Query): nat {
    if floors == [] then 0 else |Select(floors[0], q)| + Waiting(floors[1..], q)
  }

  lemma {:induction false} WaitingUpdate(floors: seq<seq<Passenger>>, i: nat, xs: seq<Passenger>, q: Query)
    requires i < |floors|
    ensures Waiting(floors[i := xs], q) == Waiting(floors, q) - |Select(floors[i], q)| + |Select(xs, q)|
  {
    if i == 0 {
      assert floors[i := xs][1..] == floors[1..];
    } else {
      assert floors[i := xs][1..] == floors[1..][i - 1 := xs];
      WaitingUpdate(floors[1..], i - 1, xs, q);
    }
  }

  lemma {:induction false} WaitingAtLeast(floors: seq<seq<Passenger>>, i: nat, q: Query)
    requires i < |floors|
    ensures Waiting(floors, q) >= |Select(floors[i], q)|
  {
    if i == 0 {
    } else {
      WaitingAtLeast(floors[1..], i - 1, q);
    }
  }

  /** What the passengers of a list weigh, the room they take, and how many are children. */
  datatype Cargo = Cargo(weight: int, units: int, children: int)

  function CargoOf(xs: seq<Passenger>): Cargo {
    if xs == [] then Cargo(0, 0, 0)
    else
      var rest := CargoOf(xs[1..]);
      Cargo(xs[0].weight + rest.weight, xs[0].space + rest.units,
            (if xs[0].kind == Child then 1 else 0) + rest.children)
  }

  function Combine(a: Cargo, b: Cargo): Cargo {
    Cargo(a.weight + b.weight, a.units + b.units, a.children + b.children)
  }

  lemma {:induction false} CargoConcat(a: seq<Passenger>, b: seq<Passenger>)
    ensures CargoOf(a + b) == Combine(CargoOf(a), CargoOf(b))
  {
    if a == [] {
      assert a + b == b;
    } else {
      var ab := a + b;
      assert ab != [] && ab[0] == a[0] && ab[1..] == a[1..] + b;
      CargoConcat(a[1..], b);
      var rest := CargoOf(ab[1..]);
      assert rest == Combine(CargoOf(a[1..]), CargoOf(b));
    }
  }

  lemma CargoOne(p: Passenger)
    ensures CargoOf([p]) == Cargo(p.weight, p.space, if p.kind == Child then 1 else 0)
  {
    assert [p][1..] == [];
  }

  lemma CargoPush(p: Passenger, xs: seq<Passenger>)
    ensures CargoOf([p] + xs) == Combine(Cargo(p.weight, p.space, if p.kind == Child then 1 else 0), CargoOf(xs))
  {
    CargoConcat([p], xs);
    CargoOne(p);
  }

  lemma CargoRemove(xs: seq<Passenger>, k: nat)
    requires k < |xs|
    ensures CargoOf(xs) == Combine(CargoOf(xs[..k] + xs[k + 1..]), CargoOf([xs[k]]))
  {
    var before, here, after := xs[..k], [xs[k]], xs[k + 1..];
    CargoConcat(before, here);
    CargoConcat(before + here, after);
    CargoConcat(before, after);
    assert xs == before + here + after;
  }

  /** Each passenger weighs at least 1 and takes at least 1 unit, and only children weigh an odd amount. */
  lemma {:induction false} CargoBounds(xs: seq<Passenger>)
    requires forall k | 0 <= k < |xs| :: Formed(xs[k])
    ensures CargoOf(xs).weight >= |xs| && CargoOf(xs).units >= |xs| && CargoOf(xs).children >= 0
    ensures CargoOf(xs).weight % 2 == CargoOf(xs).children % 2
  {
    if xs == [] {
    } else {
      CargoBounds(xs[1..]);
    }
  }

  lemma {:induction false} RidersCargo(xs: seq<Passenger>)
    requires forall k | 0 <= k < |xs| :: Formed(xs[k])
    ensures CargoOf(Select(xs, Riders)).weight >= 0 && CargoOf(Select(xs, Riders)).units >= 0
  {
    if xs == [] {
    } else {
      RidersCargo(xs[1..]);
      SelectHead(xs, Riders);
      CargoPush(xs[0], Select(xs[1..], Riders));
    }
  }

  function Sum(xs: seq<int>): int {
    if xs == [] then 0 else xs[0] + Sum(xs[1..])
  }

  lemma {:induction false} SumUpdate(xs: seq<int>, i: nat, x: int)
    requires i < |xs|
    ensures Sum(xs[i := x]) == Sum(xs) - xs[i] + x
  {
    if i == 0 {
      assert xs[i := x][1..] == xs[1..];
    } else {
      assert xs[i := x][1..] == xs[1..][i - 1 := x];
      SumUpdate(xs[1..], i - 1, x);
    }
  }
}
