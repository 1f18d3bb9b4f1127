/** The waiting of the many-to-many channel: every producer waits for room in any of
    its rings, every consumer for an item in any ring of its shard, each on its own
    parked-flag gate, over a store-buffering memory.

    Both sides are agents that live on credit from their peers. What agent `e` has
    used of its ring with `f` is its own cursor; what `f` has used there, plus the
    ring's capacity when `e` is the producer, is what it may use up to. So room for a
    producer and an item for a consumer are the same thing: credit not used yet. A
    cursor store is shown to the other side at any later time, and may be shown in
    part: more runs than a store buffer allows. Fences, read-modify-writes and `unpark`
    wait until everything is shown. */
module MpmcWake {
  import opened Runs

  datatype Wake = T3a | Fence | T3b | Unpark

  datatype Phase = Spin | Parked

  datatype Pc =
    | Outside                    // of any wait
    | Look(j: nat)               // the cursor of the next peer
    | Shut | Live                // the shutdown flag, the other side's live count
    | Announce | AnnFence | Park | Leave
    | Waking(target: nat, at: Wake)
    | Gone

  /** `todo` are the gates still to wake after this one. `debt` are the producers from
      whose rings this consumer has taken without a wake since: their drain unwound.
      `flag` says that this agent's store of the shutdown flag is not shown yet. */
  datatype Agent = Agent(pc: Pc, phase: Phase, parked: bool, token: bool, todo: seq<nat>, debt: set<nat>,
                         flag: bool, leaving: bool)

  /** Agents below `m` are the producers, the next `n` the consumers, and the rest
      hold shutdown handles. */
  datatype State = State(cap: nat, m: nat, n: nat, used: seq<seq<nat>>, shown: seq<seq<nat>>,
                         agents: seq<Agent>, shutdown: bool, liveProducers: int, liveConsumers: int)

  datatype Act =
    | Use(f: nat, e: nat, k: nat, wake: bool)   // send `k` items, or take `k`; no wake: the callback unwound
    | Wait(e: nat)
    | RunAgent(e: nat, choice: bool)
    | Show(e: nat, f: nat, x: nat)
    | ShowFlag(f: nat)
    | Drop(e: nat)
    | Signal(f: nat)

  predicate Peers(s: State, e: nat, f: nat)
  {
    (e < s.m && s.m <= f < s.m + s.n) || (f < s.m && s.m <= e < s.m + s.n)
  }

  function Peer(s: State, e: nat, j: nat): nat
  {
    if e < s.m then s.m + j else j
  }

  function PeerCount(s: State, e: nat): nat
  {
    if e < s.m then s.n else s.m
  }

  predicate Shape(s: State)
  {
    && s.cap >= 1 && s.m >= 1 && s.n >= 1 && s.m + s.n <= |s.agents|
    && |s.used| == |s.shown| == s.m + s.n
    && forall e :: 0 <= e < s.m + s.n ==> |s.used[e]| == |s.shown[e]| == s.m + s.n
  }

  /** What `f` has granted `e`, shown or not. */
  function Granted(s: State, e: nat, f: nat): nat
    requires Shape(s) && e < s.m + s.n && f < s.m + s.n
  {
    s.used[f][e] + if e < s.m then s.cap else 0
  }

  ghost predicate Init(s: State)
  {
    && Shape(s) && !s.shutdown && s.liveProducers == s.m && s.liveConsumers == s.n
    && (forall e, f :: 0 <= e < s.m + s.n && 0 <= f < s.m + s.n ==>
          s.used[e][f] == 0 && s.shown[e][f] == if e < s.m then s.cap else 0)
    && (forall e :: 0 <= e < |s.agents| ==> s.agents[e] == Agent(Outside, Spin, false, false, [], {}, false, false))
  }

  /** All stores of `f` are shown. */
  predicate Drained(s: State, f: nat)
    requires Shape(s) && f < |s.agents|
  {
    && !s.agents[f].flag
    && forall e | 0 <= e < s.m + s.n :: Peers(s, e, f) ==> s.shown[e][f] == Granted(s, e, f)
  }

  // ---- steps ------------------------------------------------------------

  function Set(s: State, e: nat, a: Agent): State
    requires e < |s.agents|
  {
    s.(agents := s.agents[e := a])
  }

  /** The predicate came out true. */
  function Ready(a: Agent): Agent
  {
    if a.phase.Parked? then a.(pc := Leave) else a.(pc := Outside)
  }

  /** The predicate came out false. */
  function NotReady(a: Agent, choice: bool): Agent
  {
    if a.phase.Parked? then a.(pc := Park) else if choice then a.(pc := Look(0)) else a.(pc := Announce)
  }

  /** After one wake: the next of the list, or done. */
  function NextWake(a: Agent): Agent
  {
    if a.todo != [] then a.(pc := Waking(a.todo[0], T3a), todo := a.todo[1..])
    else a.(pc := if a.leaving then Gone else Outside)
  }

  /** What becomes of an agent that drops its handle. */
  function Leaver(a: Agent, last: bool, others: seq<nat>): Agent
  {
    if last then NextWake(a.(todo := others, leaving := true)) else a.(pc := Gone)
  }

  /** What becomes of an agent that uses its credit with `e`. */
  function Spender(a: Agent, e: nat, wake: bool): Agent
  {
    if wake then a.(pc := Waking(e, T3a), debt := a.debt - {e}) else a.(debt := a.debt + {e})
  }

  function WakeStep(s: State, f: nat, target: nat, at: Wake): Option<State>
    requires Shape(s) && f < |s.agents| && target < |s.agents|
  {
    var a, parked := s.agents[f], s.agents[target].parked;
    match at
    case T3a => Some(Set(s, f, a.(pc := Waking(target, if parked then Unpark else Fence))))
    case Fence => if Drained(s, f) then Some(Set(s, f, a.(pc := Waking(target, T3b)))) else None
    case T3b => Some(Set(s, f, if parked then a.(pc := Waking(target, Unpark)) else NextWake(a)))
    case Unpark =>
      if !Drained(s, f) then None
      else
        var t := Set(s, target, s.agents[target].(token := true));
        Some(Set(t, f, NextWake(t.agents[f])))
  }

  function AgentStep(s: State, e: nat, choice: bool): Option<State>
    requires Shape(s) && e < |s.agents|
  {
    var a := s.agents[e];
    match a.pc
    case Look(j) =>
      if e >= s.m + s.n then None
      else if j < PeerCount(s, e) then
        var f := Peer(s, e, j);
        Some(Set(s, e, if s.used[e][f] < s.shown[e][f] then Ready(a) else a.(pc := Look(j + 1))))
      else Some(Set(s, e, a.(pc := Shut)))
    case Shut => Some(Set(s, e, if s.shutdown then Ready(a) else a.(pc := Live)))
    case Live =>
      Some(Set(s, e, if (if e < s.m then s.liveConsumers else s.liveProducers) == 0 then Ready(a) else NotReady(a, choice)))
    case Announce => if Drained(s, e) then Some(Set(s, e, a.(parked := true, pc := AnnFence))) else None
    case AnnFence => Some(Set(s, e, a.(pc := Look(0), phase := Parked)))
    case Park =>
      if a.token then Some(Set(s, e, a.(token := false, pc := Look(0))))
      else if choice then Some(Set(s, e, a.(pc := Look(0))))
      else None
    case Leave => if Drained(s, e) then Some(Set(s, e, a.(parked := false, pc := Outside))) else None
    case Waking(t, at) => if t < |s.agents| then WakeStep(s, e, t, at) else None
    case _ => None
  }

  /** The gates of the other side, or of everyone, in the order of the loops. */
  function Range(lo: nat, hi: nat): (r: seq<nat>)
    ensures forall e :: e in r <==> lo <= e < hi
    ensures forall i :: 0 <= i < |r| ==> lo <= r[i] < hi
    decreases hi - lo
  {
    if lo >= hi then [] else [lo] + Range(lo + 1, hi)
  }

  function Write(rows: seq<seq<nat>>, e: nat, f: nat, x: nat): (r: seq<seq<nat>>)
    requires e < |rows| && f < |rows[e]|
    ensures |r| == |rows| && forall i :: 0 <= i < |rows| ==> |r[i]| == |rows[i]|
    ensures forall i, j :: 0 <= i < |rows| && 0 <= j < |rows[i]| ==> r[i][j] == if i == e && j == f then x else rows[i][j]
  {
    var row: seq<nat> := rows[e][f := x];
    rows[e := row]
  }

  function Step(s: State, a: Act): Option<State>
  {
    if !Shape(s) then None else
    match a
    case Use(f, e, k, wake) =>
      if Peers(s, f, e) && s.agents[f].pc.Outside? && k > 0 && s.used[f][e] + k <= s.shown[f][e] && (wake || f >= s.m) then
        var n := s.(used := Write(s.used, f, e, s.used[f][e] + k));
        Some(Set(n, f, Spender(s.agents[f], e, wake)))
      else None
    case Wait(e) =>
      if e < s.m + s.n && s.agents[e].pc.Outside? then
        Some(Set(s, e, s.agents[e].(pc := Look(0), phase := Spin)))
      else None
    case RunAgent(e, choice) => if e < |s.agents| then AgentStep(s, e, choice) else None
    case Show(e, f, x) =>
      if Peers(s, e, f) && s.shown[e][f] < x <= Granted(s, e, f) then
        Some(s.(shown := Write(s.shown, e, f, x)))
      else None
    case ShowFlag(f) =>
      if f < |s.agents| && s.agents[f].flag then Some(Set(s, f, s.agents[f].(flag := false)).(shutdown := true)) else None
    case Drop(e) =>
      if e < s.m + s.n && s.agents[e].pc.Outside? && Drained(s, e) then
        var live := if e < s.m then s.liveProducers else s.liveConsumers;
        var n := if e < s.m then s.(liveProducers := live - 1) else s.(liveConsumers := live - 1);
        var others := if e < s.m then Range(s.m, s.m + s.n) else Range(0, s.m);
        Some(Set(n, e, Leaver(s.agents[e], live == 1, others)))
      else None
    case Signal(f) =>
      if s.m + s.n <= f < |s.agents| && s.agents[f].pc.Outside? && !s.agents[f].flag then
        Some(Set(s, f, NextWake(s.agents[f].(flag := true, todo := Range(s.m, s.m + s.n) + Range(0, s.m)))))
      else None
  }

  // ---- invariant --------------------------------------------------------

  predicate Announced(a: Agent)
  {
    a.pc.AnnFence? || a.pc.Park? || a.pc.Leave? || (a.phase.Parked? && (a.pc.Look? || a.pc.Shut? || a.pc.Live?))
  }

  /** `f` is inside its wake of `e`, or will be before it does anything else. */
  predicate Wakes(a: Agent, e: nat)
  {
    (a.pc.Waking? && a.pc.target == e) || e in a.todo
  }

  /** ... and has not come to the second probe yet. */
  predicate BeforeProbe(a: Agent, e: nat)
  {
    a.pc.Waking? && a.pc.target == e && !a.pc.at.T3b?
  }

  predicate Owes(a: Agent, e: nat)
  {
    Wakes(a, e) || e in a.debt
  }

  ghost predicate SomeoneWakes(s: State, e: nat)
  {
    exists k :: 0 <= k < |s.agents| && Wakes(s.agents[k], e)
  }

  /** What the evaluation after the announcement has found: nothing with peer `f`. */
  predicate Passed(s: State, e: nat, f: nat)
    requires e < |s.agents|
  {
    var a := s.agents[e];
    a.phase.Parked? && match a.pc
      case Look(j) => f < Peer(s, e, j)
      case Shut => true
      case Live => true
      case Park => true
      case _ => false
  }

  /** The credit between two peers, what of it is shown, and who owes a wake for it. */
  ghost predicate PairOk(s: State, e: nat, f: nat)
    requires Shape(s) && e < s.m + s.n && f < s.m + s.n
  {
    && s.used[e][f] <= s.shown[e][f] <= Granted(s, e, f)
    && (s.shown[e][f] < Granted(s, e, f) ==> BeforeProbe(s.agents[f], e) || e in s.agents[f].debt)
    && (Passed(s, e, f) && !s.agents[e].token && s.used[e][f] < s.shown[e][f] ==> Owes(s.agents[f], e))
  }

  /** The same for the two conditions that end everything. */
  ghost predicate EndOk(s: State, e: nat)
    requires Shape(s) && e < s.m + s.n
  {
    var a := s.agents[e];
    a.phase.Parked? && !a.token ==>
      && ((a.pc.Live? || a.pc.Park?) && s.shutdown ==> SomeoneWakes(s, e))
      && (a.pc.Park? && (if e < s.m then s.liveConsumers else s.liveProducers) == 0 ==> SomeoneWakes(s, e))
  }

  ghost predicate AgentOk(s: State, e: nat)
    requires e < |s.agents|
  {
    var a := s.agents[e];
    && (a.parked <==> Announced(a))
    && (a.pc.AnnFence? || a.pc.Announce? ==> a.phase.Spin?)
    && (a.pc.Park? || a.pc.Leave? ==> a.phase.Parked?)
    && (a.todo != [] ==> a.pc.Waking?)
    && (a.pc.Waking? ==> a.pc.target < s.m + s.n)
    && (forall i :: 0 <= i < |a.todo| ==> a.todo[i] < s.m + s.n)
    && (a.flag ==> e >= s.m + s.n && a.pc.Waking? && !a.pc.at.T3b? && forall g :: 0 <= g < s.m + s.n ==> Wakes(a, g))
    && (a.pc.Look? ==> e < s.m + s.n && a.pc.j <= PeerCount(s, e))
    && (e >= s.m + s.n ==> !a.leaving && (a.pc.Outside? || a.pc.Waking?))
    && (e < s.m || e >= s.m + s.n ==> a.debt == {})
  }

  ghost predicate Inv(s: State)
  {
    && Shape(s)
    && (forall e, f :: 0 <= e < s.m + s.n && 0 <= f < s.m + s.n && Peers(s, e, f) ==> PairOk(s, e, f))
    && (forall e :: 0 <= e < s.m + s.n ==> EndOk(s, e))
    && (forall e :: 0 <= e < |s.agents| ==> AgentOk(s, e))
  }

  lemma InitInv(s: State)
    requires Init(s)
    ensures Inv(s)
  {
  }

  lemma SomeoneStill(s: State, n: State, e: nat, g: nat)
    requires e < |s.agents| == |n.agents| && SomeoneWakes(s, g)
    requires forall k :: 0 <= k < |s.agents| && k != e ==>
      n.agents[k].pc == s.agents[k].pc && n.agents[k].todo == s.agents[k].todo
    requires Wakes(s.agents[e], g) ==> Wakes(n.agents[e], g)
    ensures SomeoneWakes(n, g)
  {
    var k :| 0 <= k < |s.agents| && Wakes(s.agents[k], g);
    assert Wakes(n.agents[k], g);
  }

  /** Waiting with everything looked at, where a missed end would be fatal. */
  predicate Exposed(a: Agent)
  {
    a.phase.Parked? && !a.token && (a.pc.Live? || a.pc.Park?)
  }

  /** A step that changes one agent and neither credit nor flags. */
  lemma AgentMoved(s: State, n: State, e: nat)
    requires Inv(s) && e < |s.agents| && n == s.(agents := n.agents) && |n.agents| == |s.agents|
    requires forall g :: 0 <= g < |s.agents| && g != e ==> n.agents[g] == s.agents[g]
    requires AgentOk(n, e)
    requires forall f :: 0 <= f < s.m + s.n && Peers(s, f, e) ==> PairOk(n, f, e)
    requires e < s.m + s.n ==> EndOk(n, e) && forall f :: 0 <= f < s.m + s.n && Peers(s, e, f) ==> PairOk(n, e, f)
    requires forall g :: 0 <= g < s.m + s.n && g != e && Wakes(s.agents[e], g) && !Wakes(n.agents[e], g) ==> !Exposed(s.agents[g])
    ensures Inv(n)
  {
    forall g, f | 0 <= g < n.m + n.n && 0 <= f < n.m + n.n && Peers(n, g, f)
      ensures PairOk(n, g, f)
    {
      assert Peers(s, g, f) && PairOk(s, g, f);
      if g != e && f != e { assert Passed(n, g, f) == Passed(s, g, f); }
    }
    forall g | 0 <= g < n.m + n.n
      ensures EndOk(n, g)
    {
      if g != e {
        assert EndOk(s, g);
        if SomeoneWakes(s, g) && Exposed(s.agents[g]) { SomeoneStill(s, n, e, g); }
      }
    }
    forall g | 0 <= g < |n.agents|
      ensures AgentOk(n, g)
    {
      assert AgentOk(s, g);
    }
  }

  /** Moving about in its own wait, an agent wakes nobody and is owed what it was. */
  lemma WaitMoved(s: State, n: State, e: nat)
    requires Inv(s) && e < s.m + s.n && |n.agents| == |s.agents| && n == s.(agents := s.agents[e := n.agents[e]])
    requires var a, b := s.agents[e], n.agents[e];
      && !a.pc.Waking? && !b.pc.Waking? && b.todo == a.todo && b.debt == a.debt && !b.flag
      && b.leaving == a.leaving
    requires AgentOk(n, e)
    requires Exposed(n.agents[e]) && s.shutdown ==> Exposed(s.agents[e])
    requires Exposed(n.agents[e]) && n.agents[e].pc.Park? && (if e < s.m then s.liveConsumers else s.liveProducers) == 0 ==>
      Exposed(s.agents[e]) && s.agents[e].pc.Park?
    requires forall f :: 0 <= f < s.m + s.n && Peers(s, e, f) && Passed(n, e, f) && !n.agents[e].token
                         && s.used[e][f] < s.shown[e][f] ==>
      Passed(s, e, f) && !s.agents[e].token
    ensures Inv(n)
  {
    assert AgentOk(s, e) && EndOk(s, e);
    forall f | 0 <= f < s.m + s.n && Peers(s, f, e)
      ensures PairOk(n, f, e)
    {
      assert PairOk(s, f, e);
    }
    forall f | 0 <= f < s.m + s.n && Peers(s, e, f)
      ensures PairOk(n, e, f)
    {
      assert PairOk(s, e, f);
    }
    if SomeoneWakes(s, e) { SomeoneStill(s, n, e, e); }
    AgentMoved(s, n, e);
  }

  /** The next peer has nothing for it. */
  lemma LookOnKeepsInv(s: State, e: nat)
    requires Inv(s) && e < s.m + s.n && s.agents[e].pc.Look? && s.agents[e].pc.j < PeerCount(s, e)
    requires var f := Peer(s, e, s.agents[e].pc.j); s.used[e][f] >= s.shown[e][f]
    ensures Inv(Set(s, e, s.agents[e].(pc := Look(s.agents[e].pc.j + 1))))
  {
    var j := s.agents[e].pc.j;
    var n := Set(s, e, s.agents[e].(pc := Look(j + 1)));
    assert AgentOk(s, e);
    assert AgentOk(n, e);
    assert forall f :: 0 <= f < s.m + s.n && Passed(n, e, f) ==> Passed(s, e, f) || f == Peer(s, e, j);
    WaitMoved(s, n, e);
  }

  lemma LookKeepsInv(s: State, e: nat, choice: bool)
    requires Inv(s) && e < |s.agents| && s.agents[e].pc.Look? && AgentStep(s, e, choice).Some?
    ensures Inv(AgentStep(s, e, choice).value)
  {
    assert AgentOk(s, e);
    var a := s.agents[e];
    if a.pc.j < PeerCount(s, e) {
      var f := Peer(s, e, a.pc.j);
      if s.used[e][f] < s.shown[e][f] {
        WaitMoved(s, Set(s, e, Ready(a)), e);
      } else {
        LookOnKeepsInv(s, e);
      }
    } else {
      WaitMoved(s, Set(s, e, a.(pc := Shut)), e);
    }
  }

  lemma EndLookKeepsInv(s: State, e: nat, choice: bool)
    requires Inv(s) && e < |s.agents| && (s.agents[e].pc.Shut? || s.agents[e].pc.Live?) && AgentStep(s, e, choice).Some?
    ensures Inv(AgentStep(s, e, choice).value)
  {
    assert AgentOk(s, e);
    WaitMoved(s, AgentStep(s, e, choice).value, e);
  }

  lemma ParkKeepsInv(s: State, e: nat, choice: bool)
    requires Inv(s) && e < |s.agents| && AgentStep(s, e, choice).Some?
    requires s.agents[e].pc.Announce? || s.agents[e].pc.AnnFence? || s.agents[e].pc.Park? || s.agents[e].pc.Leave?
    ensures Inv(AgentStep(s, e, choice).value)
  {
    assert AgentOk(s, e);
    WaitMoved(s, AgentStep(s, e, choice).value, e);
  }

  /** The start of a list of wakes: everyone on it will be woken. */
  lemma AllOnTheList(a: Agent, g: nat)
    requires g in a.todo
    ensures Wakes(NextWake(a), g)
  {
  }

  /** The end of a wake: only its target is not to be woken any more. */
  lemma NextWakeKeeps(a: Agent, g: nat)
    requires a.pc.Waking? && Wakes(a, g) && g != a.pc.target
    ensures Wakes(NextWake(a), g)
  {
  }

  /** An agent moving on in its wakes, with nobody it stops waking exposed to the loss. */
  lemma WakeMoved(s: State, n: State, f: nat)
    requires Inv(s) && f < |s.agents| && |n.agents| == |s.agents| && n == s.(agents := s.agents[f := n.agents[f]])
    requires var a, b := s.agents[f], n.agents[f];
      && a.pc.Waking? && a.pc.target < s.m + s.n && (b.pc.Waking? || b.pc.Outside? || b.pc.Gone?)
      && b.debt == a.debt && b.parked == a.parked && b.phase == a.phase
      && (forall g :: 0 <= g < s.m + s.n && g != a.pc.target && Wakes(a, g) ==> Wakes(b, g))
      && (!Wakes(b, a.pc.target) ==> !Announced(s.agents[a.pc.target]) || s.agents[a.pc.target].token)
      && (!BeforeProbe(b, a.pc.target) && f < s.m + s.n && Peers(s, a.pc.target, f) ==>
            s.shown[a.pc.target][f] == Granted(s, a.pc.target, f) || a.pc.target in a.debt)
    requires AgentOk(n, f)
    ensures Inv(n)
  {
    var target := s.agents[f].pc.target;
    forall e | 0 <= e < s.m + s.n && f < s.m + s.n && Peers(s, e, f)
      ensures PairOk(n, e, f)
    {
      assert PairOk(s, e, f) && AgentOk(s, e);
      if e == target { assert Passed(s, e, f) ==> Announced(s.agents[e]); }
    }
    forall e | 0 <= e < s.m + s.n && f < s.m + s.n && Peers(s, f, e)
      ensures PairOk(n, f, e)
    {
      assert PairOk(s, f, e);
    }
    assert AgentOk(s, f);
    AgentMoved(s, n, f);
  }

  /** The first probe and the fence. */
  lemma ProbeKeepsInv(s: State, f: nat, target: nat, at: Wake)
    requires Inv(s) && f < |s.agents| && s.agents[f].pc == Waking(target, at) && (at.T3a? || at.Fence?)
    requires target < |s.agents| && WakeStep(s, f, target, at).Some?
    ensures Inv(WakeStep(s, f, target, at).value)
  {
    assert AgentOk(s, f);
    if f < s.m + s.n && Peers(s, target, f) { assert PairOk(s, target, f); }
    WakeMoved(s, WakeStep(s, f, target, at).value, f);
  }

  /** The second probe sees an announced waiter; otherwise the wake is over. */
  lemma ReprobeKeepsInv(s: State, f: nat, target: nat)
    requires Inv(s) && f < |s.agents| && s.agents[f].pc == Waking(target, T3b) && target < |s.agents|
    ensures Inv(WakeStep(s, f, target, T3b).value)
  {
    assert AgentOk(s, f) && AgentOk(s, target);
    var n := WakeStep(s, f, target, T3b).value;
    if f < s.m + s.n && Peers(s, target, f) { assert PairOk(s, target, f); }
    forall g | 0 <= g < s.m + s.n && Wakes(s.agents[f], g) && g != target
      ensures Wakes(n.agents[f], g)
    {
      NextWakeKeeps(s.agents[f], g);
    }
    WakeMoved(s, n, f);
  }

  /** A token only takes obligations away. */
  lemma TokenKeepsInv(s: State, target: nat)
    requires Inv(s) && target < s.m + s.n
    ensures Inv(Set(s, target, s.agents[target].(token := true)))
  {
    var n := Set(s, target, s.agents[target].(token := true));
    assert AgentOk(s, target) && EndOk(s, target);
    forall f | 0 <= f < s.m + s.n && Peers(s, f, target)
      ensures PairOk(n, f, target)
    {
      assert PairOk(s, f, target);
    }
    forall f | 0 <= f < s.m + s.n && Peers(s, target, f)
      ensures PairOk(n, target, f)
    {
      assert PairOk(s, target, f);
    }
    AgentMoved(s, n, target);
  }

  lemma DeliverKeepsInv(s: State, f: nat, target: nat)
    requires Inv(s) && f < |s.agents| && s.agents[f].pc == Waking(target, Unpark)
    requires target < |s.agents| && WakeStep(s, f, target, Unpark).Some?
    ensures Inv(WakeStep(s, f, target, Unpark).value)
  {
    assert AgentOk(s, f);
    var t := Set(s, target, s.agents[target].(token := true));
    TokenKeepsInv(s, target);
    assert AgentOk(t, f);
    var n := Set(t, f, NextWake(t.agents[f]));
    forall g | 0 <= g < s.m + s.n && Wakes(t.agents[f], g) && g != target
      ensures Wakes(n.agents[f], g)
    {
      NextWakeKeeps(t.agents[f], g);
    }
    WakeMoved(t, n, f);
  }

  lemma UseKeepsInv(s: State, f: nat, e: nat, k: nat, wake: bool)
    requires Inv(s) && Step(s, Use(f, e, k, wake)).Some?
    ensures Inv(Step(s, Use(f, e, k, wake)).value)
  {
    var n := Step(s, Use(f, e, k, wake)).value;
    assert AgentOk(s, f);
    forall g, h | 0 <= g < n.m + n.n && 0 <= h < n.m + n.n && Peers(n, g, h)
      ensures PairOk(n, g, h)
    {
      assert Peers(s, g, h) && PairOk(s, g, h);
    }
    forall g | 0 <= g < n.m + n.n
      ensures EndOk(n, g)
    {
      assert EndOk(s, g);
      if SomeoneWakes(s, g) {
        var x :| 0 <= x < |s.agents| && Wakes(s.agents[x], g);
        assert x != f && Wakes(n.agents[x], g);
      }
    }
    forall g | 0 <= g < |n.agents|
      ensures AgentOk(n, g)
    {
      assert AgentOk(s, g);
    }
  }

  lemma ShowKeepsInv(s: State, e: nat, f: nat, x: nat)
    requires Inv(s) && Step(s, Show(e, f, x)).Some?
    ensures Inv(Step(s, Show(e, f, x)).value)
  {
    var n := Step(s, Show(e, f, x)).value;
    forall g, h | 0 <= g < n.m + n.n && 0 <= h < n.m + n.n && Peers(n, g, h)
      ensures PairOk(n, g, h)
    {
      assert Peers(s, g, h) && PairOk(s, g, h);
    }
    forall g | 0 <= g < n.m + n.n
      ensures EndOk(n, g)
    {
      assert EndOk(s, g) && SomeoneWakes(n, g) == SomeoneWakes(s, g);
    }
    forall g | 0 <= g < |n.agents|
      ensures AgentOk(n, g)
    {
      assert AgentOk(s, g);
    }
  }

  /** The flag becomes visible: whoever raised it is still to wake every gate. */
  lemma ShowFlagKeepsInv(s: State, f: nat)
    requires Inv(s) && Step(s, ShowFlag(f)).Some?
    ensures Inv(Step(s, ShowFlag(f)).value)
  {
    var n := Step(s, ShowFlag(f)).value;
    assert AgentOk(s, f);
    forall g, h | 0 <= g < n.m + n.n && 0 <= h < n.m + n.n && Peers(n, g, h)
      ensures PairOk(n, g, h)
    {
      assert Peers(s, g, h) && PairOk(s, g, h);
    }
    forall g | 0 <= g < n.m + n.n
      ensures EndOk(n, g)
    {
      assert Wakes(s.agents[f], g);
      assert Wakes(n.agents[f], g);
    }
    forall g | 0 <= g < |n.agents|
      ensures AgentOk(n, g)
    {
      assert AgentOk(s, g);
    }
  }

  /** An agent with nobody to wake leaves what it was doing outside any wait. */
  lemma OutsideMoved(s: State, n: State, e: nat)
    requires Inv(s) && e < |s.agents| && |n.agents| == |s.agents| && n == s.(agents := s.agents[e := n.agents[e]])
    requires s.agents[e].pc.Outside? && !Announced(n.agents[e]) && n.agents[e].debt == s.agents[e].debt
    requires n.agents[e].parked == s.agents[e].parked && AgentOk(n, e)
    requires n.agents[e].pc.Gone? || n.agents[e].pc.Waking? || (n.agents[e].pc.Look? && n.agents[e].phase.Spin?)
    ensures Inv(n)
  {
    assert AgentOk(s, e);
    forall f | 0 <= f < s.m + s.n && e < s.m + s.n && Peers(s, f, e)
      ensures PairOk(n, f, e)
    {
      assert PairOk(s, f, e);
    }
    forall f | 0 <= f < s.m + s.n && e < s.m + s.n && Peers(s, e, f)
      ensures PairOk(n, e, f)
    {
      assert PairOk(s, e, f);
    }
    AgentMoved(s, n, e);
  }

  /** A live count goes down; if it was the last, the other side is being woken. */
  lemma CountMoved(s: State, n: State)
    requires Inv(s) && n == s.(liveProducers := n.liveProducers, liveConsumers := n.liveConsumers)
    requires n.liveConsumers != s.liveConsumers && n.liveConsumers == 0 ==> forall g :: 0 <= g < s.m ==> SomeoneWakes(s, g)
    requires n.liveProducers != s.liveProducers && n.liveProducers == 0 ==>
      forall g :: s.m <= g < s.m + s.n ==> SomeoneWakes(s, g)
    ensures Inv(n)
  {
    forall g, h | 0 <= g < n.m + n.n && 0 <= h < n.m + n.n && Peers(n, g, h)
      ensures PairOk(n, g, h)
    {
      assert Peers(s, g, h) && PairOk(s, g, h);
    }
    forall g | 0 <= g < n.m + n.n
      ensures EndOk(n, g)
    {
      assert EndOk(s, g) && SomeoneWakes(n, g) == SomeoneWakes(s, g);
    }
    forall g | 0 <= g < |n.agents|
      ensures AgentOk(n, g)
    {
      assert AgentOk(s, g);
    }
  }

  lemma LeaverKeepsInv(s: State, e: nat, last: bool, others: seq<nat>)
    requires Inv(s) && e < s.m + s.n && s.agents[e].pc.Outside?
    requires forall i :: 0 <= i < |others| ==> others[i] < s.m + s.n
    ensures Inv(Set(s, e, Leaver(s.agents[e], last, others)))
  {
    var n := Set(s, e, Leaver(s.agents[e], last, others));
    assert AgentOk(s, e);
    assert AgentOk(n, e);
    OutsideMoved(s, n, e);
  }

  lemma LastLeaverWakes(s: State, e: nat, others: seq<nat>, g: nat)
    requires e < |s.agents| && g in others
    ensures SomeoneWakes(Set(s, e, Leaver(s.agents[e], true, others)), g)
  {
    AllOnTheList(s.agents[e].(todo := others, leaving := true), g);
    var n := Set(s, e, Leaver(s.agents[e], true, others));
    assert Wakes(n.agents[e], g);
  }

  /** A handle is dropped; the last of its side has the whole other side to wake. */
  lemma DropKeepsInv(s: State, e: nat)
    requires Inv(s) && Step(s, Drop(e)).Some?
    ensures Inv(Step(s, Drop(e)).value)
  {
    var live := if e < s.m then s.liveProducers else s.liveConsumers;
    var others := if e < s.m then Range(s.m, s.m + s.n) else Range(0, s.m);
    var b := Set(s, e, Leaver(s.agents[e], live == 1, others));
    LeaverKeepsInv(s, e, live == 1, others);
    if live == 1 {
      forall g | g in others
        ensures SomeoneWakes(b, g)
      {
        LastLeaverWakes(s, e, others, g);
      }
    }
    var n := if e < s.m then b.(liveProducers := live - 1) else b.(liveConsumers := live - 1);
    CountMoved(b, n);
    assert Step(s, Drop(e)) == Some(n);
  }

  lemma BeginKeepsInv(s: State, a: Act)
    requires Inv(s) && (a.Wait? || a.Signal?) && Step(s, a).Some?
    ensures Inv(Step(s, a).value)
  {
    var n := Step(s, a).value;
    var e := if a.Wait? then a.e else a.f;
    assert AgentOk(s, e);
    if a.Signal? {
      forall g: nat | g < s.m + s.n
        ensures Wakes(n.agents[e], g)
      {
        AllOnTheList(s.agents[e].(flag := true, todo := Range(s.m, s.m + s.n) + Range(0, s.m)), g);
      }
    }
    OutsideMoved(s, n, e);
  }

  lemma StepKeepsInv(s: State, a: Act)
    requires Inv(s) && Step(s, a).Some?
    ensures Inv(Step(s, a).value)
  {
    match a
    case Use(f, e, k, wake) => UseKeepsInv(s, f, e, k, wake);
    case RunAgent(e, choice) =>
      if s.agents[e].pc.Waking? {
        var t, at := s.agents[e].pc.target, s.agents[e].pc.at;
        if at.Unpark? { DeliverKeepsInv(s, e, t); }
        else if at.T3b? { ReprobeKeepsInv(s, e, t); }
        else { ProbeKeepsInv(s, e, t, at); }
      } else {
        if s.agents[e].pc.Look? { LookKeepsInv(s, e, choice); }
        else if s.agents[e].pc.Shut? || s.agents[e].pc.Live? { EndLookKeepsInv(s, e, choice); }
        else { ParkKeepsInv(s, e, choice); }
      }
    case Show(e, f, x) => ShowKeepsInv(s, e, f, x);
    case ShowFlag(f) => ShowFlagKeepsInv(s, f);
    case Drop(e) => DropKeepsInv(s, e);
    case _ => BeginKeepsInv(s, a);
  }

  lemma {:induction false} RunKeepsInv(s: State, acts: seq<Act>)
    requires Inv(s) && Run(Step, s, acts).Some?
    ensures Inv(Run(Step, s, acts).value)
    decreases |acts|
  {
    if acts != [] {
      StepKeepsInv(s, acts[0]);
      RunKeepsInv(Step(s, acts[0]).value, acts[1..]);
    }
  }

  // ---- main results ---------------------------------------------------------------

  predicate Blocked(s: State, e: nat)
  {
    e < |s.agents| && s.agents[e].pc.Park? && !s.agents[e].token
  }

  /** In every state of every run, a blocked agent that has credit from a peer, shown or
      not, is owed a wake by that peer, or is the creditor of its unwound drains; and
      one whose wait the end of the channel should finish is owed one by whoever ended
      it. */
  lemma WaiterIsOwed(s: State, acts: seq<Act>, e: nat)
    requires Init(s) && Run(Step, s, acts).Some? && e < s.m + s.n && Blocked(Run(Step, s, acts).value, e)
    ensures var n := Run(Step, s, acts).value; Shape(n) && n.m == s.m && n.n == s.n
    ensures var n := Run(Step, s, acts).value;
      && (forall f :: 0 <= f < n.m + n.n && Peers(n, e, f) && n.used[e][f] < Granted(n, e, f) ==> Owes(n.agents[f], e))
      && (n.shutdown || (exists k :: 0 <= k < |n.agents| && n.agents[k].flag) ==> SomeoneWakes(n, e))
      && ((if e < n.m then n.liveConsumers else n.liveProducers) == 0 ==> SomeoneWakes(n, e))
  {
    InitInv(s);
    RunKeepsInv(s, acts);
    RunKeepsSize(s, acts);
    var n := Run(Step, s, acts).value;
    assert AgentOk(n, e) && EndOk(n, e);
    forall f | 0 <= f < n.m + n.n && Peers(n, e, f) && n.used[e][f] < Granted(n, e, f)
      ensures Owes(n.agents[f], e)
    {
      assert PairOk(n, e, f);
    }
    if k :| 0 <= k < |n.agents| && n.agents[k].flag {
      assert AgentOk(n, k) && Wakes(n.agents[k], e);
    }
  }

  lemma {:induction false} RunKeepsSize(s: State, acts: seq<Act>)
    requires Run(Step, s, acts).Some?
    ensures var n := Run(Step, s, acts).value; n.m == s.m && n.n == s.n && n.cap == s.cap && |n.agents| == |s.agents|
    decreases |acts|
  {
    if acts != [] {
      StepKeepsSize(s, acts[0]);
      RunKeepsSize(Step(s, acts[0]).value, acts[1..]);
    }
  }

  lemma StepKeepsSize(s: State, a: Act)
    requires Step(s, a).Some?
    ensures var n := Step(s, a).value; n.m == s.m && n.n == s.n && n.cap == s.cap && |n.agents| == |s.agents|
  {
  }

  /** A producer and a consumer are blocked at once only while the consumer owes that
      producer for an unwound drain: room and items exclude each other's absence. */
  lemma BothBlockedMeansDebt(s: State, p: nat, c: nat)
    requires Inv(s) && p < s.m <= c < s.m + s.n && Blocked(s, p) && Blocked(s, c)
    ensures p in s.agents[c].debt
  {
    assert PairOk(s, p, c) && PairOk(s, c, p) && AgentOk(s, p) && AgentOk(s, c);
  }

  /** No callback unwinds in this run. */
  predicate NothingUnwinds(acts: seq<Act>)
  {
    forall i :: 0 <= i < |acts| ==> acts[i].Use? ==> acts[i].wake
  }

  ghost predicate NoDebts(s: State)
  {
    forall e :: 0 <= e < |s.agents| ==> s.agents[e].debt == {}
  }

  lemma WakeKeepsDebts(s: State, f: nat, target: nat, at: Wake, g: nat)
    requires Shape(s) && f < |s.agents| && target < |s.agents| && g < |s.agents| && WakeStep(s, f, target, at).Some?
    ensures var n := WakeStep(s, f, target, at).value; |n.agents| == |s.agents| && n.agents[g].debt == s.agents[g].debt
  {
  }

  lemma AgentKeepsDebts(s: State, e: nat, choice: bool, g: nat)
    requires Shape(s) && e < |s.agents| && g < |s.agents| && AgentStep(s, e, choice).Some?
    ensures var n := AgentStep(s, e, choice).value; |n.agents| == |s.agents| && n.agents[g].debt == s.agents[g].debt
  {
    match s.agents[e].pc
    case Waking(t, at) => WakeKeepsDebts(s, e, t, at, g);
    case _ =>
  }

  lemma StepKeepsNoDebts(s: State, a: Act)
    requires NoDebts(s) && Step(s, a).Some? && NothingUnwinds([a])
    ensures NoDebts(Step(s, a).value)
  {
    assert [a][0] == a;
    if a.RunAgent? {
      var n := Step(s, a).value;
      AgentKeepsDebts(s, a.e, a.choice, a.e);
      forall g | 0 <= g < |n.agents|
        ensures n.agents[g].debt == {}
      {
        AgentKeepsDebts(s, a.e, a.choice, g);
      }
    }
  }

  lemma {:induction false} RunKeepsNoDebts(s: State, acts: seq<Act>)
    requires NoDebts(s) && Run(Step, s, acts).Some? && NothingUnwinds(acts)
    ensures NoDebts(Run(Step, s, acts).value)
    decreases |acts|
  {
    if acts != [] {
      assert [acts[0]][0] == acts[0];
      StepKeepsNoDebts(s, acts[0]);
      RunKeepsNoDebts(Step(s, acts[0]).value, acts[1..]);
    }
  }

  /** The channel never deadlocks as long as no drain unwinds: a producer and a consumer
      are never blocked at once, for any number of either and any capacity. */
  lemma NoDeadlock(s: State, acts: seq<Act>, p: nat, c: nat)
    requires Init(s) && Run(Step, s, acts).Some? && NothingUnwinds(acts) && p < s.m <= c < s.m + s.n
    ensures !(Blocked(Run(Step, s, acts).value, p) && Blocked(Run(Step, s, acts).value, c))
  {
    InitInv(s);
    RunKeepsInv(s, acts);
    RunKeepsSize(s, acts);
    RunKeepsNoDebts(s, acts);
    var n := Run(Step, s, acts).value;
    if Blocked(n, p) && Blocked(n, c) { BothBlockedMeansDebt(n, p, c); }
  }

  // ---- unwound drains can put everyone to sleep -----------------------------------

  /** Nobody has left, nobody signals, and every store is shown. */
  ghost predicate Quiet(s: State)
  {
    && Shape(s) && !s.shutdown && s.liveProducers == s.m && s.liveConsumers == s.n
    && (forall f :: 0 <= f < |s.agents| ==> !s.agents[f].flag)
    && forall e, f :: 0 <= e < s.m + s.n && 0 <= f < s.m + s.n && Peers(s, e, f) ==>
         s.used[e][f] <= s.shown[e][f] == Granted(s, e, f)
  }

  /** Outside of any call, with no wake owed to anybody. */
  predicate Idle(a: Agent)
  {
    a.pc.Outside? && a.phase.Spin? && !a.parked && !a.token && a.todo == [] && !a.leaving
  }

  predicate SpentWith(s: State, e: nat, f: nat)
    requires Shape(s) && e < s.m + s.n && f < s.m + s.n
  {
    s.used[e][f] == s.shown[e][f]
  }

  /** No credit left with anybody. */
  predicate Broke(s: State, e: nat)
    requires Shape(s) && e < s.m + s.n
  {
    forall f | 0 <= f < s.m + s.n :: Peers(s, e, f) ==> SpentWith(s, e, f)
  }

  /** The state after `f` has used all its credit with `e` and shown it. */
  function Spent(s: State, f: nat, e: nat): (n: State)
    requires Shape(s) && Peers(s, f, e)
    ensures Shape(n)
  {
    var x := s.shown[f][e];
    s.(used := Write(s.used, f, e, x), shown := Write(s.shown, e, f, x + if e < s.m then s.cap else 0))
  }

  lemma SpentIsQuiet(s: State, f: nat, e: nat)
    requires Quiet(s) && Peers(s, f, e)
    ensures Quiet(Spent(s, f, e)) && SpentWith(Spent(s, f, e), f, e)
  {
    var n := Spent(s, f, e);
    forall g, h | 0 <= g < n.m + n.n && 0 <= h < n.m + n.n && Peers(n, g, h)
      ensures n.used[g][h] <= n.shown[g][h] == Granted(n, g, h)
    {
      assert Peers(s, g, h) && s.used[g][h] <= s.shown[g][h] == Granted(s, g, h);
    }
  }

  /** What an agent does about itself leaves the cursors as they are. */
  lemma QuietStays(s: State, e: nat, b: Agent)
    requires Quiet(s) && e < |s.agents| && !b.flag
    ensures Quiet(Set(s, e, b))
  {
    var n := Set(s, e, b);
    forall g, h | 0 <= g < n.m + n.n && 0 <= h < n.m + n.n && Peers(n, g, h)
      ensures n.used[g][h] <= n.shown[g][h] == Granted(n, g, h)
    {
      assert Peers(s, g, h) && s.used[g][h] <= s.shown[g][h] == Granted(s, g, h);
    }
  }

  lemma BrokeStays(s: State, n: State, g: nat)
    requires Shape(s) && g < s.m + s.n && Broke(s, g)
    requires n == s.(agents := n.agents) && |n.agents| == |s.agents|
    ensures Broke(n, g)
  {
    forall f | 0 <= f < n.m + n.n && Peers(n, g, f)
      ensures SpentWith(n, g, f)
    {
      assert Peers(s, g, f) && SpentWith(s, g, f);
    }
  }

  /** The state between the two: used, and not shown. */
  function HalfSpent(s: State, f: nat, e: nat, a: Agent): (n: State)
    requires Shape(s) && Peers(s, f, e)
    ensures Shape(n) && Peers(n, e, f) && n.m == s.m && n.n == s.n && |n.agents| == |s.agents|
    ensures Granted(n, e, f) == s.shown[f][e] + (if e < s.m then s.cap else 0)
    ensures Set(Spent(s, f, e), f, a) == n.(shown := Write(n.shown, e, f, Granted(n, e, f)))
  {
    Set(s.(used := Write(s.used, f, e, s.shown[f][e])), f, a)
  }

  lemma SpendUp(s: State, f: nat, e: nat, k: nat, wake: bool) returns (acts: seq<Act>, n: State)
    requires Shape(s) && Peers(s, f, e) && s.agents[f].pc.Outside? && (wake || f >= s.m)
    requires k > 0 && s.used[f][e] + k == s.shown[f][e]
    ensures Run(Step, s, acts) == Some(n)
    ensures n == HalfSpent(s, f, e, Spender(s.agents[f], e, wake))
  {
    acts, n := Go(Step, s, [], s, Use(f, e, k, wake));
  }

  lemma ShowUp(s: State, e: nat, f: nat, x: nat) returns (acts: seq<Act>, n: State)
    requires Shape(s) && Peers(s, e, f) && s.shown[e][f] < x == Granted(s, e, f)
    ensures Run(Step, s, acts) == Some(n)
    ensures n == s.(shown := Write(s.shown, e, f, x))
  {
    acts, n := Go(Step, s, [], s, Show(e, f, x));
  }

  lemma SpendAndShow(s: State, f: nat, e: nat, wake: bool) returns (acts: seq<Act>, n: State)
    requires Shape(s) && Peers(s, f, e) && s.agents[f].pc.Outside? && (wake || f >= s.m)
    requires s.used[f][e] < s.shown[f][e] && s.shown[e][f] == Granted(s, e, f)
    ensures Run(Step, s, acts) == Some(n)
    ensures n == Set(Spent(s, f, e), f, Spender(s.agents[f], e, wake))
  {
    var xs, b := SpendUp(s, f, e, s.shown[f][e] - s.used[f][e], wake);
    var ys, c := ShowUp(b, e, f, Granted(b, e, f));
    Compose(Step, s, xs, ys);
    acts, n := xs + ys, c;
  }

  /** A wake that finds nobody parked. */
  lemma WakeNobody(s: State, f: nat, e: nat) returns (acts: seq<Act>, n: State)
    requires Quiet(s) && f < |s.agents| && e < |s.agents| && e != f && !s.agents[e].parked
    requires s.agents[f].pc == Waking(e, T3a) && s.agents[f].todo == [] && !s.agents[f].leaving
    ensures Run(Step, s, acts) == Some(n)
    ensures n == Set(s, f, s.agents[f].(pc := Outside))
  {
    var a := s.agents[f];
    var b := Set(s, f, a.(pc := Waking(e, Fence)));
    acts, n := Go(Step, s, [], s, RunAgent(f, false));
    assert n == b && b.agents[f] == a.(pc := Waking(e, Fence));
    QuietStays(s, f, b.agents[f]);
    assert Drained(b, f);
    var c := Set(b, f, a.(pc := Waking(e, T3b)));
    assert WakeStep(b, f, e, Fence) == Some(c);
    acts, n := Go(Step, s, acts, n, RunAgent(f, false));
    assert c.agents[f] == a.(pc := Waking(e, T3b)) && !c.agents[e].parked;
    assert NextWake(c.agents[f]) == a.(pc := Outside);
    var d := Set(c, f, a.(pc := Outside));
    assert WakeStep(c, f, e, T3b) == Some(d);
    acts, n := Go(Step, s, acts, n, RunAgent(f, false));
    assert d.agents == s.agents[f := a.(pc := Outside)];
  }

  /** A producer fills one ring; a consumer empties one, unwinding on the last item. */
  lemma SpendOne(s: State, f: nat, e: nat) returns (acts: seq<Act>, n: State)
    requires Quiet(s) && Peers(s, f, e) && Idle(s.agents[f]) && !SpentWith(s, f, e)
    requires f < s.m ==> !s.agents[e].parked
    ensures Run(Step, s, acts) == Some(n) && Quiet(n) && |n.agents| == |s.agents|
    ensures n == Set(Spent(s, f, e), f, s.agents[f].(debt := n.agents[f].debt))
  {
    SpentIsQuiet(s, f, e);
    assert s.used[f][e] < s.shown[f][e] && Peers(s, e, f) && s.shown[e][f] == Granted(s, e, f);
    var xs, b := SpendAndShow(s, f, e, f < s.m);
    QuietStays(Spent(s, f, e), f, b.agents[f]);
    if f < s.m {
      QuietStays(b, f, b.agents[f].(pc := Outside));
      var ys, c := WakeNobody(b, f, e);
      Compose(Step, s, xs, ys);
      acts, n := xs + ys, c;
    } else {
      acts, n := xs, b;
    }
  }

  /** All of one side, or what is left of it. */
  predicate Side(s: State, lo: nat, hi: nat)
  {
    (lo == 0 && hi == s.m) || (lo == s.m && hi == s.m + s.n)
  }

  lemma AllPeersSpent(s: State, f: nat)
    requires Shape(s) && f < s.m + s.n && forall i :: 0 <= i < PeerCount(s, f) ==> SpentWith(s, f, Peer(s, f, i))
    ensures Broke(s, f)
  {
    forall e | 0 <= e < s.m + s.n && Peers(s, f, e)
      ensures SpentWith(s, f, e)
    {
      assert e == Peer(s, f, if f < s.m then e - s.m else e);
    }
  }

  /** Using credit with one peer leaves everything else on that side as it was. */
  lemma SpentWithStays(s: State, n: State, f: nat, j: nat, lo: nat, hi: nat)
    requires Quiet(s) && Side(s, lo, hi) && lo <= f < hi && j < PeerCount(s, f) && Peers(s, f, Peer(s, f, j))
    requires n == Spent(s, f, Peer(s, f, j)).(agents := n.agents) && |n.agents| == |s.agents|
    requires forall i :: 0 <= i < j ==> SpentWith(s, f, Peer(s, f, i))
    ensures Shape(n) && Side(n, lo, hi) && PeerCount(n, f) == PeerCount(s, f)
    ensures forall i :: 0 <= i < j + 1 ==> SpentWith(n, f, Peer(n, f, i))
    ensures forall g :: lo <= g < hi && Broke(s, g) ==> Broke(n, g)
  {
    forall i | 0 <= i < j + 1
      ensures SpentWith(n, f, Peer(n, f, i))
    {
      if i < j { assert SpentWith(s, f, Peer(s, f, i)); }
    }
    forall g | lo <= g < hi && Broke(s, g)
      ensures Broke(n, g)
    {
      forall h | 0 <= h < n.m + n.n && Peers(n, g, h)
        ensures SpentWith(n, g, h)
      {
        assert Peers(s, g, h) && SpentWith(s, g, h);
      }
    }
  }

  /** One side is using up its credit and has come to peer `j` of agent `f`. */
  ghost predicate Spending(s: State, lo: nat, f: nat, j: nat, hi: nat)
  {
    && Quiet(s) && Side(s, lo, hi) && lo <= f <= hi && (f < hi ==> j <= PeerCount(s, f))
    && (forall g :: lo <= g < hi ==> Idle(s.agents[g]))
    && (lo == 0 ==> forall g :: s.m <= g < s.m + s.n ==> !s.agents[g].parked)
    && (forall g :: lo <= g < f ==> Broke(s, g))
    && (f < hi ==> forall i :: 0 <= i < j ==> SpentWith(s, f, Peer(s, f, i)))
  }

  /** The same but for what the agents owe. */
  predicate SameButDebts(s: State, n: State)
  {
    && n.m == s.m && n.n == s.n && n.cap == s.cap && |n.agents| == |s.agents|
    && forall g | 0 <= g < |s.agents| :: n.agents[g] == s.agents[g].(debt := n.agents[g].debt)
  }

  lemma SpendNext(s: State, lo: nat, f: nat, j: nat, hi: nat) returns (acts: seq<Act>, n: State)
    requires Spending(s, lo, f, j, hi) && f < hi && j < PeerCount(s, f)
    ensures Run(Step, s, acts) == Some(n) && Spending(n, lo, f, j + 1, hi) && SameButDebts(s, n)
  {
    var e := Peer(s, f, j);
    assert Peers(s, f, e);
    if SpentWith(s, f, e) {
      acts, n := [], s;
    } else {
      acts, n := SpendOne(s, f, e);
      SpentWithStays(s, n, f, j, lo, hi);
    }
  }

  /** One side uses all its credit, agent by agent and peer by peer. */
  lemma {:induction false} SpendAll(s: State, lo: nat, f: nat, j: nat, hi: nat) returns (acts: seq<Act>, n: State)
    requires Spending(s, lo, f, j, hi)
    ensures Run(Step, s, acts) == Some(n) && Quiet(n) && SameButDebts(s, n)
    ensures forall g :: lo <= g < hi ==> Broke(n, g)
    decreases hi - f, PeerCount(s, f) - j
  {
    if f == hi {
      acts, n := [], s;
    } else if j == PeerCount(s, f) {
      AllPeersSpent(s, f);
      acts, n := SpendAll(s, lo, f + 1, 0, hi);
    } else {
      var xs, b := SpendNext(s, lo, f, j, hi);
      var ys, c := SpendAll(b, lo, f, j + 1, hi);
      Compose(Step, s, xs, ys);
      acts, n := xs + ys, c;
    }
  }

  lemma LookOn(s: State, e: nat)
    requires Quiet(s) && e < s.m + s.n && s.agents[e].pc.Look? && s.agents[e].pc.j <= PeerCount(s, e) && Broke(s, e)
    ensures var j := s.agents[e].pc.j;
      Step(s, RunAgent(e, false)) == Some(Set(s, e, s.agents[e].(pc := if j < PeerCount(s, e) then Look(j + 1) else Shut)))
  {
    var j := s.agents[e].pc.j;
    if j < PeerCount(s, e) { assert Peers(s, e, Peer(s, e, j)) && SpentWith(s, e, Peer(s, e, j)); }
  }

  lemma {:induction false} LookAtPeers(s: State, e: nat) returns (acts: seq<Act>, n: State)
    requires Quiet(s) && e < s.m + s.n && s.agents[e].pc.Look? && s.agents[e].pc.j <= PeerCount(s, e) && Broke(s, e)
    ensures Run(Step, s, acts) == Some(n)
    ensures n == Set(s, e, s.agents[e].(pc := Shut))
    decreases PeerCount(s, e) - s.agents[e].pc.j
  {
    LookOn(s, e);
    var xs, b := Go(Step, s, [], s, RunAgent(e, false));
    if s.agents[e].pc.j == PeerCount(s, e) {
      acts, n := xs, b;
    } else {
      QuietStays(s, e, b.agents[e]);
      BrokeStays(s, b, e);
      var ys, c := LookAtPeers(b, e);
      Compose(Step, s, xs, ys);
      acts, n := xs + ys, c;
      assert c.agents == s.agents[e := s.agents[e].(pc := Shut)];
    }
  }

  lemma LookForTheEnd(s: State, e: nat) returns (acts: seq<Act>, n: State)
    requires Quiet(s) && e < s.m + s.n && s.agents[e].pc == Shut
    ensures Run(Step, s, acts) == Some(n)
    ensures n == Set(s, e, NotReady(s.agents[e], false))
  {
    assert Step(s, RunAgent(e, false)) == Some(Set(s, e, s.agents[e].(pc := Live)));
    acts, n := Go(Step, s, [], s, RunAgent(e, false));
    acts, n := Go(Step, s, acts, n, RunAgent(e, false));
  }

  /** It looks at everything and finds nothing. */
  lemma LookInVain(s: State, e: nat) returns (acts: seq<Act>, n: State)
    requires Quiet(s) && e < s.m + s.n && s.agents[e].pc == Look(0) && Broke(s, e)
    ensures Run(Step, s, acts) == Some(n)
    ensures n == Set(s, e, NotReady(s.agents[e], false))
  {
    var xs, b := LookAtPeers(s, e);
    QuietStays(s, e, b.agents[e]);
    var ys, c := LookForTheEnd(b, e);
    Compose(Step, s, xs, ys);
    acts, n := xs + ys, c;
  }

  lemma AnnounceAgain(s: State, e: nat) returns (acts: seq<Act>, n: State)
    requires Quiet(s) && e < s.m + s.n && s.agents[e].pc == Announce
    ensures Run(Step, s, acts) == Some(n)
    ensures n == Set(s, e, s.agents[e].(pc := Look(0), phase := Parked, parked := true))
  {
    acts, n := Go(Step, s, [], s, RunAgent(e, false));
    acts, n := Go(Step, s, acts, n, RunAgent(e, false));
  }

  lemma LookAnnounced(s: State, e: nat) returns (acts: seq<Act>, n: State)
    requires Quiet(s) && e < s.m + s.n && s.agents[e].pc == Announce && Broke(s, e)
    ensures Run(Step, s, acts) == Some(n)
    ensures n == Set(s, e, s.agents[e].(pc := Park, phase := Parked, parked := true))
  {
    var xs, b := AnnounceAgain(s, e);
    QuietStays(s, e, b.agents[e]);
    BrokeStays(s, b, e);
    var ys, c := LookInVain(b, e);
    Compose(Step, s, xs, ys);
    acts, n := xs + ys, c;
  }

  /** A wait without credit: look, announce, look again, park. */
  lemma FallAsleep(s: State, e: nat) returns (acts: seq<Act>, n: State)
    requires Quiet(s) && e < s.m + s.n && Broke(s, e) && s.agents[e].pc == Outside
    ensures Run(Step, s, acts) == Some(n)
    ensures n == Set(s, e, s.agents[e].(pc := Park, phase := Parked, parked := true))
  {
    var ws, a := Go(Step, s, [], s, Wait(e));
    QuietStays(s, e, a.agents[e]);
    BrokeStays(s, a, e);
    var xs, b := LookInVain(a, e);
    QuietStays(a, e, b.agents[e]);
    BrokeStays(a, b, e);
    Compose(Step, s, ws, xs);
    var ys, c := LookAnnounced(b, e);
    Compose(Step, s, ws + xs, ys);
    acts, n := ws + xs + ys, c;
  }

  lemma {:induction false} AllFallAsleep(s: State, lo: nat, hi: nat) returns (acts: seq<Act>, n: State)
    requires Quiet(s) && lo <= hi <= s.m + s.n
    requires forall g :: lo <= g < hi ==> Idle(s.agents[g]) && Broke(s, g)
    ensures Run(Step, s, acts) == Some(n) && Quiet(n) && |n.agents| == |s.agents| && n == s.(agents := n.agents)
    ensures forall g :: lo <= g < hi ==> Blocked(n, g)
    ensures forall g :: 0 <= g < |s.agents| && !(lo <= g < hi) ==> n.agents[g] == s.agents[g]
    decreases hi - lo
  {
    if lo == hi {
      acts, n := [], s;
    } else {
      var xs, b := FallAsleep(s, lo);
      QuietStays(s, lo, b.agents[lo]);
      forall g | lo < g < hi
        ensures Broke(b, g)
      {
        BrokeStays(s, b, g);
      }
      var ys, c := AllFallAsleep(b, lo + 1, hi);
      Compose(Step, s, xs, ys);
      acts, n := xs + ys, c;
    }
  }

  /** One side uses all its credit and then waits. */
  lemma SpendAndSleep(s: State, lo: nat, hi: nat) returns (acts: seq<Act>, n: State)
    requires Spending(s, lo, lo, 0, hi)
    ensures Run(Step, s, acts) == Some(n) && Quiet(n)
    ensures n.m == s.m && n.n == s.n && n.cap == s.cap && |n.agents| == |s.agents|
    ensures forall g :: lo <= g < hi ==> Blocked(n, g) && Broke(n, g)
    ensures forall g :: 0 <= g < |s.agents| && !(lo <= g < hi) ==> n.agents[g] == s.agents[g].(debt := n.agents[g].debt)
  {
    var xs, b := SpendAll(s, lo, lo, 0, hi);
    var ys, c := AllFallAsleep(b, lo, hi);
    forall g | lo <= g < hi
      ensures Broke(c, g)
    {
      BrokeStays(b, c, g);
    }
    Compose(Step, s, xs, ys);
    acts, n := xs + ys, c;
  }

  /** For any numbers of producers and consumers and any capacity: the producers fill
      every ring and block; the consumers empty every ring, the callback unwinding on the
      last item of each; then the consumers, whose handles are perfectly usable, wait for
      more. Everybody is blocked, although every producer can see room in all its rings. */
  lemma UnwoundDrainsPutAllToSleep(s: State) returns (acts: seq<Act>, n: State)
    requires Init(s)
    ensures Run(Step, s, acts) == Some(n) && Quiet(n) && n.m == s.m && n.n == s.n
    ensures forall e :: 0 <= e < n.m + n.n ==> Blocked(n, e)
    ensures forall p, c :: 0 <= p < n.m <= c < n.m + n.n ==> n.used[p][c] + n.cap == n.shown[p][c]
    ensures forall f :: n.m + n.n <= f < |n.agents| ==> n.agents[f].pc.Outside?
  {
    var xs, b := SpendAndSleep(s, 0, s.m);
    var ys, c := SpendAndSleep(b, s.m, s.m + s.n);
    Compose(Step, s, xs, ys);
    acts, n := xs + ys, c;
    forall e | 0 <= e < n.m + n.n
      ensures Blocked(n, e)
    {
      if e < n.m { assert Blocked(b, e); } else { assert Blocked(c, e); }
    }
    forall p, q | 0 <= p < n.m <= q < n.m + n.n
      ensures n.used[p][q] + n.cap == n.shown[p][q]
    {
      assert Peers(n, p, q) && Peers(n, q, p) && Broke(c, q) && SpentWith(c, q, p);
    }
  }

  /** Nothing but a spurious return from `park` and a shutdown signal can happen there. */
  lemma NobodyElseMoves(n: State, a: Act)
    requires Quiet(n)
    requires forall e :: 0 <= e < n.m + n.n ==> Blocked(n, e)
    requires forall f :: n.m + n.n <= f < |n.agents| ==> n.agents[f].pc.Outside?
    ensures Step(n, a).Some? ==> (a.RunAgent? && a.choice) || a.Signal?
  {
    match a
    case Show(e, f, x) => if Peers(n, e, f) { assert n.shown[e][f] == Granted(n, e, f); }
    case Use(f, e, k, wake) => if f < n.m + n.n { assert Blocked(n, f); }
    case Wait(e) => if e < n.m + n.n { assert Blocked(n, e); }
    case Drop(e) => if e < n.m + n.n { assert Blocked(n, e); }
    case RunAgent(e, choice) => if e < n.m + n.n { assert Blocked(n, e); }
    case _ =>
  }

  /** A run can put everybody to sleep for good, and if and only if drains may unwind:
      without, not even one producer and one consumer are ever blocked together. */
  lemma DeadlockNeedsAnUnwind(s: State)
    requires Init(s)
    ensures exists acts: seq<Act> :: Run(Step, s, acts).Some? && AllBlocked(Run(Step, s, acts).value, s.m + s.n)
    ensures forall acts: seq<Act>, p: nat, c: nat ::
      NothingUnwinds(acts) && Run(Step, s, acts).Some? && p < s.m <= c < s.m + s.n ==>
      !(Blocked(Run(Step, s, acts).value, p) && Blocked(Run(Step, s, acts).value, c))
  {
    var acts, n := UnwoundDrainsPutAllToSleep(s);
    assert Run(Step, s, acts).Some? && AllBlocked(Run(Step, s, acts).value, s.m + s.n);
    forall xs: seq<Act>, p: nat, c: nat | NothingUnwinds(xs) && Run(Step, s, xs).Some? && p < s.m <= c < s.m + s.n
      ensures !(Blocked(Run(Step, s, xs).value, p) && Blocked(Run(Step, s, xs).value, c))
    {
      NoDeadlock(s, xs, p, c);
    }
  }

  predicate AllBlocked(s: State, k: nat)
  {
    forall e | 0 <= e < k :: Blocked(s, e)
  }
}
