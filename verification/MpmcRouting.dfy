/** The rotating adaptive routing of the many-to-many channel, on loads: how many
    items one producer has in its ring of each shard. */
module MpmcRouting {
  import opened Bits
  import opened Runs

  /** The `j`-th shard that a scan from `start` visits. */
  function Visit(start: nat, j: nat, n: nat): (s: nat)
    requires n >= 1
    ensures s < n
  {
    (start + j) % n
  }

  /** A rotated scan visits every shard: shard `s` is visit number `Turn`. */
  function Turn(start: nat, s: nat, n: nat): (j: nat)
    requires start < n && s < n
    ensures j < n && Visit(start, j, n) == s
  {
    var j := if s >= start then s - start else s + n - start;
    ModUnique(start + j, n, if s < start then 1 else 0, s);
    j
  }

  /** ... and visits none of them twice. */
  lemma VisitsDistinct(start: nat, i: nat, j: nat, n: nat)
    requires start < n && i < j < n
    ensures Visit(start, i, n) != Visit(start, j, n)
  {
    SlotsDistinct(start + i, start + j, n);
  }

  /** The first visit, from the `j`-th on, that finds room; `n` if none does. */
  function FirstRoom(loads: seq<nat>, cap: nat, start: nat, j: nat): (r: nat)
    requires |loads| >= 1 && j <= |loads|
    ensures j <= r <= |loads|
    ensures r < |loads| ==> loads[Visit(start, r, |loads|)] < cap
    ensures forall i :: j <= i < r ==> loads[Visit(start, i, |loads|)] >= cap
    decreases |loads| - j
  {
    if j == |loads| || loads[Visit(start, j, |loads|)] < cap then j else FirstRoom(loads, cap, start, j + 1)
  }

  /** No room is found exactly when every shard is full: the scan is complete. */
  lemma ScanIsComplete(loads: seq<nat>, cap: nat, start: nat)
    requires |loads| >= 1 && start < |loads|
    ensures FirstRoom(loads, cap, start, 0) == |loads| <==> forall s :: 0 <= s < |loads| ==> loads[s] >= cap
  {
    var r := FirstRoom(loads, cap, start, 0);
    if r == |loads| {
      forall s | 0 <= s < |loads|
        ensures loads[s] >= cap
      {
        assert loads[Visit(start, Turn(start, s, |loads|), |loads|)] >= cap;
      }
    }
  }

  /** What one accepted send does to the loads of its producer's rings and to the
      routing cursor. */
  datatype Routing = Routing(loads: seq<nat>, cursor: nat)

  /** The shard that the scan settles on. */
  function Pick(r: Routing, cap: nat): (o: Option<nat>)
    requires |r.loads| >= 1
    ensures o.Some? ==> o.value < |r.loads| && r.loads[o.value] < cap
  {
    var j := FirstRoom(r.loads, cap, r.cursor, 0);
    if j == |r.loads| then None else Some(Visit(r.cursor, j, |r.loads|))
  }

  function Route(r: Routing, cap: nat): (o: Option<Routing>)
    requires |r.loads| >= 1
  {
    match Pick(r, cap)
    case None => None
    case Some(s) => Some(Routing(r.loads[s := r.loads[s] + 1], (s + 1) % |r.loads|))
  }

  function RouteMany(r: Routing, cap: nat, t: nat): (o: Option<Routing>)
    requires |r.loads| >= 1
  {
    if t == 0 then Some(r)
    else match RouteMany(r, cap, t - 1)
         case None => None
         case Some(q) => if |q.loads| >= 1 then Route(q, cap) else None
  }

  /** The loads after `t` sends dealt round from shard `c0`. */
  ghost predicate Dealt(r: Routing, n: nat, c0: nat, t: nat)
    requires n >= 1
  {
    && |r.loads| == n && r.cursor == Visit(c0, t % n, n)
    && forall j :: 0 <= j < n ==> r.loads[Visit(c0, j, n)] == t / n + (if j < t % n then 1 else 0)
  }

  lemma NextVisit(c0: nat, x: nat, n: nat)
    requires c0 < n && x < n
    ensures (Visit(c0, x, n) + 1) % n == Visit(c0, (x + 1) % n, n)
    ensures Visit(Visit(c0, x, n), 0, n) == Visit(c0, x, n)
  {
    var q := (c0 + x) / n;
    DivMod(c0 + x, n);
    var s := Visit(c0, x, n);
    ModUnique(s, n, 0, s);
    DivMod(s + 1, n);
    Distribute(n, q, (s + 1) / n);
    ModUnique(c0 + x + 1, n, q + (s + 1) / n, (s + 1) % n);
    if x + 1 < n {
      ModUnique(x + 1, n, 0, x + 1);
    } else {
      ModUnique(x + 1, n, 1, 0);
      ModUnique(c0, n, 0, c0);
      ModUnique(c0 + n, n, 1, c0);
    }
  }

  lemma NextDeal(t: nat, n: nat)
    requires n >= 1
    ensures (t + 1) % n == (t % n + 1) % n
    ensures (t + 1) / n == t / n + (if t % n == n - 1 then 1 else 0)
  {
    var q, x := t / n, t % n;
    DivMod(t, n);
    if x == n - 1 {
      ModUnique(t + 1, n, q + 1, 0);
      ModUnique(x + 1, n, 1, 0);
      QuotUnique(t + 1, n, q + 1, 0);
    } else {
      ModUnique(t + 1, n, q, x + 1);
      ModUnique(x + 1, n, 0, x + 1);
      QuotUnique(t + 1, n, q, x + 1);
    }
  }

  lemma QuotUnique(x: nat, n: nat, q: nat, r: nat)
    requires n >= 1 && r < n && x == n * q + r
    ensures x / n == q
  {
    ModUnique(x, n, q, r);
    DivMod(x, n);
    var d := x / n - q;
    Distribute(n, d, q);
    if d >= 1 { MulMono(n, 1, d); } else if d <= -1 { MulMono(n, d, -1); }
  }

  /** A deal that is not complete goes on, to the next shard in turn. */
  lemma DealStep(r: Routing, n: nat, cap: nat, c0: nat, t: nat)
    requires c0 < n && Dealt(r, n, c0, t) && t < n * cap
    ensures Route(r, cap).Some? && Dealt(Route(r, cap).value, n, c0, t + 1)
  {
    var x := t % n;
    NextVisit(c0, x, n);
    NextDeal(t, n);
    DivMod(t, n);
    if t / n >= cap { MulMono(n, cap, t / n); }
    var s := Visit(c0, x, n);
    assert r.loads[s] == t / n < cap;
    assert FirstRoom(r.loads, cap, r.cursor, 0) == 0;
    var q := Route(r, cap).value;
    forall j | 0 <= j < n
      ensures q.loads[Visit(c0, j, n)] == (t + 1) / n + (if j < (t + 1) % n then 1 else 0)
    {
      if j < x { VisitsDistinct(c0, j, x, n); } else if j > x { VisitsDistinct(c0, x, j, n); }
      if x == n - 1 { ModUnique(x + 1, n, 1, 0); } else { ModUnique(x + 1, n, 0, x + 1); }
    }
  }

  /** From empty rings and with no drains, the first `n * cap` sends succeed, dealt
      round the shards. */
  lemma {:induction false} RoutingDeals(n: nat, cap: nat, c0: nat, t: nat)
    requires c0 < n && t <= n * cap
    ensures var o := RouteMany(Routing(seq(n, _ => 0), c0), cap, t); o.Some? && Dealt(o.value, n, c0, t)
  {
    var r0 := Routing(seq(n, _ => 0), c0);
    if t == 0 {
      ModUnique(0, n, 0, 0);
      QuotUnique(0, n, 0, 0);
      ModUnique(c0, n, 0, c0);
    } else {
      RoutingDeals(n, cap, c0, t - 1);
      DealStep(RouteMany(r0, cap, t - 1).value, n, cap, c0, t - 1);
    }
  }

  lemma DealtLoads(r: Routing, n: nat, c0: nat, t: nat)
    requires c0 < n && Dealt(r, n, c0, t)
    ensures forall s :: 0 <= s < n ==> t / n <= r.loads[s] <= t / n + 1
  {
    forall s | 0 <= s < n
      ensures t / n <= r.loads[s] <= t / n + 1
    {
      assert r.loads[Visit(c0, Turn(c0, s, n), n)] == r.loads[s];
    }
  }

  /** The loads then differ by at most one, and send number `n * cap + 1` fails. */
  lemma RoutingIsBalanced(n: nat, cap: nat, c0: nat, t: nat)
    requires c0 < n && t <= n * cap
    ensures var o := RouteMany(Routing(seq(n, _ => 0), c0), cap, t);
            && o.Some? && |o.value.loads| == n
            && (forall i, j :: 0 <= i < n && 0 <= j < n ==> o.value.loads[i] <= o.value.loads[j] + 1)
            && (t == n * cap ==> Route(o.value, cap).None?)
  {
    RoutingDeals(n, cap, c0, t);
    var r := RouteMany(Routing(seq(n, _ => 0), c0), cap, t).value;
    DealtLoads(r, n, c0, t);
    if t == n * cap {
      QuotUnique(t, n, cap, 0);
      ScanIsComplete(r.loads, cap, r.cursor);
    }
  }

  /** `available()`: the room left over all shards. */
  function Room(loads: seq<nat>, cap: nat): nat
  {
    if loads == [] then 0 else (if loads[0] < cap then cap - loads[0] else 0) + Room(loads[1..], cap)
  }

  lemma {:induction false} RoomUpdate(loads: seq<nat>, cap: nat, s: nat, x: nat)
    requires s < |loads|
    ensures Room(loads[s := x], cap) == Room(loads, cap)
              - (if loads[s] < cap then cap - loads[s] else 0) + (if x < cap then cap - x else 0)
  {
    if s == 0 {
      assert loads[s := x][1..] == loads[1..];
    } else {
      assert loads[s := x][1..] == loads[1..][s - 1 := x];
      RoomUpdate(loads[1..], cap, s - 1, x);
    }
  }

  lemma {:induction false} NoRoomIsFull(loads: seq<nat>, cap: nat)
    ensures Room(loads, cap) == 0 <==> forall s :: 0 <= s < |loads| ==> loads[s] >= cap
  {
    if loads != [] {
      NoRoomIsFull(loads[1..], cap);
      forall s | 0 <= s < |loads| && Room(loads, cap) == 0
        ensures loads[s] >= cap
      {
        if s > 0 { assert loads[s] == loads[1..][s - 1]; }
      }
      if forall s :: 0 <= s < |loads| ==> loads[s] >= cap {
        assert forall s :: 0 <= s < |loads[1..]| ==> loads[1..][s] == loads[s + 1];
      }
    }
  }

  /** What may happen to one producer's rings: it sends, or shard `s` is drained to
      `left` items. */
  datatype RoutingOp = SendOne | DrainTo(s: nat, left: nat)

  function Sends(ops: seq<RoutingOp>): nat
  {
    if ops == [] then 0 else (if ops[0].SendOne? then 1 else 0) + Sends(ops[1..])
  }

  /** Every send of `ops` finds room. */
  ghost predicate AllSucceed(r: Routing, cap: nat, ops: seq<RoutingOp>)
    requires |r.loads| >= 1
    decreases |ops|
  {
    ops == [] ||
    match ops[0]
    case SendOne => Route(r, cap).Some? && AllSucceed(Route(r, cap).value, cap, ops[1..])
    case DrainTo(s, left) =>
      AllSucceed(if s < |r.loads| && left <= r.loads[s] then r.(loads := r.loads[s := left]) else r, cap, ops[1..])
  }

  /** If `available()` returned `a`, the producer's next `a` sends succeed, whatever
      the consumers drain in between. */
  lemma {:induction false} AvailableIsAPromise(r: Routing, cap: nat, ops: seq<RoutingOp>)
    requires |r.loads| >= 1 && r.cursor < |r.loads| && Sends(ops) <= Room(r.loads, cap)
    ensures AllSucceed(r, cap, ops)
    decreases |ops|
  {
    if ops != [] {
      match ops[0]
      case SendOne =>
        NoRoomIsFull(r.loads, cap);
        ScanIsComplete(r.loads, cap, r.cursor);
        var s := Visit(r.cursor, FirstRoom(r.loads, cap, r.cursor, 0), |r.loads|);
        RoomUpdate(r.loads, cap, s, r.loads[s] + 1);
        AvailableIsAPromise(Route(r, cap).value, cap, ops[1..]);
      case DrainTo(s, left) =>
        if s < |r.loads| && left <= r.loads[s] {
          RoomUpdate(r.loads, cap, s, left);
          AvailableIsAPromise(r.(loads := r.loads[s := left]), cap, ops[1..]);
        } else {
          AvailableIsAPromise(r, cap, ops[1..]);
        }
    }
  }
}
