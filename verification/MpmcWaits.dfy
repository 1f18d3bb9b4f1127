/** What the waits of the many-to-many channel return: a producer comes back from its
    wait having seen room, the flag or the last consumer gone, a consumer having seen an
    item, the flag or the last producer gone; and it does come back once one of them is
    there to see. */
module MpmcWaits {
  import opened MpmcWake
  import opened Runs

  /** Agent `e` does nothing but wait. */
  predicate OnlyWaits(acts: seq<Act>, e: nat)
  {
    forall i :: 0 <= i < |acts| ==> Undisturbed(acts[i], e)
  }

  predicate Undisturbed(a: Act, e: nat)
  {
    && a != Wait(e) && a != Drop(e) && a != Signal(e)
    && !(a.Use? && a.f == e)
  }

  function OtherSide(s: State, e: nat): int
  {
    if e < s.m then s.liveConsumers else s.liveProducers
  }

  /** Agent `e` loads something that ends its wait: credit with a peer, the flag, or a
      count of zero. */
  ghost predicate SeesReady(e: nat, s: State, a: Act)
  {
    && a.RunAgent? && a.e == e && Shape(s) && e < s.m + s.n
    && match s.agents[e].pc
       case Look(j) => j < PeerCount(s, e) && s.used[e][Peer(s, e, j)] < s.shown[e][Peer(s, e, j)]
       case Shut => s.shutdown
       case Live => OtherSide(s, e) == 0
       case _ => false
  }

  ghost function Sees(e: nat): (State, Act) -> bool
  {
    (s, a) => SeesReady(e, s, a)
  }

  predicate InWait(pc: Pc)
  {
    pc.Look? || pc.Shut? || pc.Live? || pc.Announce? || pc.AnnFence? || pc.Park? || pc.Leave?
  }

  ghost predicate Waits(e: nat, saw: bool, s: State)
  {
    && Shape(s) && e < s.m + s.n && !s.agents[e].flag
    && (s.agents[e].pc.Outside? || InWait(s.agents[e].pc))
    && (s.agents[e].pc.Outside? || s.agents[e].pc.Leave? ==> saw)
  }

  lemma OwnStepKeepsWaiting(e: nat, saw: bool, s: State, choice: bool)
    requires Waits(e, saw, s) && AgentStep(s, e, choice).Some?
    ensures Waits(e, saw || SeesReady(e, s, RunAgent(e, choice)), AgentStep(s, e, choice).value)
  {
    var pc := s.agents[e].pc;
    if pc.Look? || pc.Shut? || pc.Live? { EvaluationKeepsWaiting(e, saw, s, choice); }
  }

  lemma EvaluationKeepsWaiting(e: nat, saw: bool, s: State, choice: bool)
    requires Waits(e, saw, s) && AgentStep(s, e, choice).Some?
    requires s.agents[e].pc.Look? || s.agents[e].pc.Shut? || s.agents[e].pc.Live?
    ensures Waits(e, saw || SeesReady(e, s, RunAgent(e, choice)), AgentStep(s, e, choice).value)
  {
  }

  /** Nobody else moves the wait, takes its credit or hides what was shown. */
  lemma OthersLeaveWait(e: nat, s: State, a: Act)
    requires Shape(s) && e < s.m + s.n && (s.agents[e].pc.Outside? || InWait(s.agents[e].pc)) && !s.agents[e].flag
    requires Step(s, a).Some? && Undisturbed(a, e) && !(a.RunAgent? && a.e == e)
    ensures var n := Step(s, a).value;
      && Shape(n) && n.m == s.m && n.n == s.n && |n.agents| == |s.agents|
      && n.agents[e] == s.agents[e].(token := n.agents[e].token) && (s.agents[e].token ==> n.agents[e].token)
      && n.used[e] == s.used[e] && (s.shutdown ==> n.shutdown)
      && forall f :: 0 <= f < s.m + s.n && s.used[e][f] < s.shown[e][f] ==> n.used[e][f] < n.shown[e][f]
  {
    if a.RunAgent? { OtherAgentLeaves(e, s, a.e, a.choice); }
  }

  lemma OtherAgentLeaves(e: nat, s: State, f: nat, choice: bool)
    requires Shape(s) && e < |s.agents| && f < |s.agents| && f != e && AgentStep(s, f, choice).Some?
    requires s.agents[e].pc.Outside? || InWait(s.agents[e].pc)
    ensures var n := AgentStep(s, f, choice).value;
      && n == s.(agents := n.agents) && |n.agents| == |s.agents|
      && n.agents[e] == s.agents[e].(token := n.agents[e].token) && (s.agents[e].token ==> n.agents[e].token)
  {
    match s.agents[f].pc
    case Waking(t, at) => WakeLeaves(e, s, f, t, at);
    case _ =>
  }

  lemma WakeLeaves(e: nat, s: State, f: nat, t: nat, at: Wake)
    requires Shape(s) && e < |s.agents| && f < |s.agents| && f != e && t < |s.agents| && WakeStep(s, f, t, at).Some?
    ensures var n := WakeStep(s, f, t, at).value;
      && n == s.(agents := n.agents) && |n.agents| == |s.agents|
      && n.agents[e] == s.agents[e].(token := n.agents[e].token) && (s.agents[e].token ==> n.agents[e].token)
  {
  }

  lemma {:induction false} RunKeepsWaiting(e: nat, saw: bool, s: State, acts: seq<Act>)
    requires Waits(e, saw, s) && Run(Step, s, acts).Some? && OnlyWaits(acts, e)
    ensures Waits(e, saw || Happens(Step, s, acts, Sees(e)), Run(Step, s, acts).value)
    decreases |acts|
  {
    if acts != [] {
      if acts[0].RunAgent? && acts[0].e == e { OwnStepKeepsWaiting(e, saw, s, acts[0].choice); }
      else { OthersLeaveWait(e, s, acts[0]); }
      RunKeepsWaiting(e, saw || SeesReady(e, s, acts[0]), Step(s, acts[0]).value, acts[1..]);
    }
  }

  /** A wait that has returned has seen what it waits for, at a load of its own. */
  lemma WaitReturns(s: State, e: nat, acts: seq<Act>)
    requires Inv(s) && e < s.m + s.n && s.agents[e].pc.Outside? && OnlyWaits(acts, e)
    requires Run(Step, Step(s, Wait(e)).value, acts).Some?
    ensures var b := Step(s, Wait(e)).value; var n := Run(Step, b, acts).value;
      e < |n.agents| && (n.agents[e].pc.Outside? ==> Happens(Step, b, acts, Sees(e)))
  {
    assert AgentOk(s, e);
    RunKeepsWaiting(e, false, Step(s, Wait(e)).value, acts);
  }

  // ---- the live counts ----------------------------------------------------------------

  predicate HasLeft(a: Agent)
  {
    a.pc.Gone? || a.leaving
  }

  /** How many of the agents from `lo` to `hi` have not left. */
  function Here(agents: seq<Agent>, lo: nat, hi: nat): nat
    requires hi <= |agents|
    decreases hi - lo
  {
    if lo >= hi then 0 else (if HasLeft(agents[lo]) then 0 else 1) + Here(agents, lo + 1, hi)
  }

  lemma {:induction false} HereZero(agents: seq<Agent>, lo: nat, hi: nat)
    requires hi <= |agents|
    ensures Here(agents, lo, hi) == 0 <==> forall e :: lo <= e < hi ==> HasLeft(agents[e])
    ensures (forall e :: lo <= e < hi ==> !HasLeft(agents[e])) && lo <= hi ==> Here(agents, lo, hi) == hi - lo
    decreases hi - lo
  {
    if lo < hi { HereZero(agents, lo + 1, hi); }
  }

  lemma {:induction false} HereSame(agents: seq<Agent>, now: seq<Agent>, lo: nat, hi: nat)
    requires hi <= |agents| == |now| && forall e :: lo <= e < hi ==> HasLeft(now[e]) == HasLeft(agents[e])
    ensures Here(now, lo, hi) == Here(agents, lo, hi)
    decreases hi - lo
  {
    if lo < hi { HereSame(agents, now, lo + 1, hi); }
  }

  lemma {:induction false} HereLess(agents: seq<Agent>, e: nat, b: Agent, lo: nat, hi: nat)
    requires e < |agents| && hi <= |agents| && !HasLeft(agents[e]) && HasLeft(b)
    ensures Here(agents[e := b], lo, hi) == Here(agents, lo, hi) - if lo <= e < hi then 1 else 0
    decreases hi - lo
  {
    if lo < hi { HereLess(agents, e, b, lo + 1, hi); }
  }

  /** The counts are those of the handles that have not been dropped. */
  ghost predicate Counted(s: State)
  {
    && Shape(s)
    && s.liveProducers == Here(s.agents, 0, s.m) && s.liveConsumers == Here(s.agents, s.m, s.m + s.n)
    && forall e :: 0 <= e < |s.agents| && s.agents[e].leaving ==> s.agents[e].pc.Waking? || s.agents[e].pc.Gone?
  }

  /** Only a drop lets an agent leave. */
  lemma StepKeepsLeavers(s: State, a: Act)
    requires Counted(s) && Step(s, a).Some? && !a.Drop?
    ensures var n := Step(s, a).value;
      && Shape(n) && |n.agents| == |s.agents| && n.m == s.m && n.n == s.n
      && n.liveProducers == s.liveProducers && n.liveConsumers == s.liveConsumers
      && forall e :: 0 <= e < |s.agents| ==>
           && HasLeft(n.agents[e]) == HasLeft(s.agents[e])
           && (n.agents[e].leaving ==> n.agents[e].pc.Waking? || n.agents[e].pc.Gone?)
  {
    if a.RunAgent? { AgentKeepsLeavers(s, a.e, a.choice); }
  }

  lemma AgentKeepsLeavers(s: State, f: nat, choice: bool)
    requires Counted(s) && f < |s.agents| && AgentStep(s, f, choice).Some?
    ensures var n := AgentStep(s, f, choice).value;
      && n == s.(agents := n.agents) && |n.agents| == |s.agents|
      && forall e :: 0 <= e < |s.agents| ==>
           && HasLeft(n.agents[e]) == HasLeft(s.agents[e])
           && (n.agents[e].leaving ==> n.agents[e].pc.Waking? || n.agents[e].pc.Gone?)
  {
    match s.agents[f].pc
    case Waking(t, at) => WakeKeepsLeavers(s, f, t, at);
    case Look(_) => LooksKeepLeavers(s, f, choice);
    case Shut => LooksKeepLeavers(s, f, choice);
    case Live => LooksKeepLeavers(s, f, choice);
    case _ =>
  }

  lemma LooksKeepLeavers(s: State, f: nat, choice: bool)
    requires Counted(s) && f < |s.agents| && AgentStep(s, f, choice).Some?
    requires s.agents[f].pc.Look? || s.agents[f].pc.Shut? || s.agents[f].pc.Live?
    ensures var n := AgentStep(s, f, choice).value;
      && n == s.(agents := s.agents[f := n.agents[f]])
      && !HasLeft(n.agents[f]) && !HasLeft(s.agents[f])
  {
  }

  lemma WakeKeepsLeavers(s: State, f: nat, t: nat, at: Wake)
    requires Counted(s) && f < |s.agents| && t < |s.agents| && s.agents[f].pc.Waking? && WakeStep(s, f, t, at).Some?
    ensures var n := WakeStep(s, f, t, at).value;
      && n == s.(agents := n.agents) && |n.agents| == |s.agents|
      && forall e :: 0 <= e < |s.agents| ==>
           && HasLeft(n.agents[e]) == HasLeft(s.agents[e])
           && (n.agents[e].leaving ==> n.agents[e].pc.Waking? || n.agents[e].pc.Gone?)
  {
  }

  lemma StepKeepsCounts(s: State, a: Act)
    requires Counted(s) && Step(s, a).Some?
    ensures Counted(Step(s, a).value)
  {
    var n := Step(s, a).value;
    if a.Drop? {
      var b := n.agents[a.e];
      assert n.agents == s.agents[a.e := b];
      HereLess(s.agents, a.e, b, 0, s.m);
      HereLess(s.agents, a.e, b, s.m, s.m + s.n);
    } else {
      StepKeepsLeavers(s, a);
      HereSame(s.agents, n.agents, 0, s.m);
      HereSame(s.agents, n.agents, s.m, s.m + s.n);
    }
  }

  lemma {:induction false} RunKeepsCounts(s: State, acts: seq<Act>)
    requires Counted(s) && Run(Step, s, acts).Some?
    ensures Counted(Run(Step, s, acts).value)
    decreases |acts|
  {
    if acts != [] {
      StepKeepsCounts(s, acts[0]);
      RunKeepsCounts(Step(s, acts[0]).value, acts[1..]);
    }
  }

  lemma InitCounted(s: State)
    requires Init(s)
    ensures Counted(s)
  {
    HereZero(s.agents, 0, s.m);
    HereZero(s.agents, s.m, s.m + s.n);
  }

  /** Both live counts are exact in every state of every run: how many producers, and how
      many consumers, have not begun to leave. */
  lemma CountsAreExact(s: State, acts: seq<Act>)
    requires Init(s) && Run(Step, s, acts).Some?
    ensures Counted(Run(Step, s, acts).value)
  {
    InitCounted(s);
    RunKeepsCounts(s, acts);
  }

  /** A count of zero stays. */
  lemma ZeroStays(s: State, a: Act, e: nat)
    requires Counted(s) && e < s.m + s.n && OtherSide(s, e) == 0 && Step(s, a).Some?
    ensures OtherSide(Step(s, a).value, e) == 0
  {
    if a.Drop? {
      HereZero(s.agents, 0, s.m);
      HereZero(s.agents, s.m, s.m + s.n);
    } else {
      StepKeepsLeavers(s, a);
    }
  }

  // ---- the waits come back --------------------------------------------------------------

  /** Why a wait can return: credit with peer number `j`, the flag, or the other side
      gone. */
  datatype Why = Credit(j: nat) | Flag | OthersGone

  ghost predicate CanReturn(w: Why, s: State, e: nat)
    requires Shape(s) && e < s.m + s.n
  {
    match w
    case Credit(j) => j < PeerCount(s, e) && s.used[e][Peer(s, e, j)] < s.shown[e][Peer(s, e, j)]
    case Flag => s.shutdown
    case OthersGone => OtherSide(s, e) == 0
  }

  /** The evaluation that is under way will see it. */
  predicate Fresh(w: Why, pc: Pc)
  {
    match pc
    case Look(j) => w.Credit? ==> j <= w.j
    case Shut => !w.Credit?
    case Live => w.OthersGone?
    case _ => false
  }

  /** A bound on the agent's steps to the end of its wait, with `p` peers. */
  function WaitRank(w: Why, a: Agent, p: nat): int
  {
    var l := match a.pc case Look(j) => p - j + 3 case Shut => 2 case _ => 1;
    match a.pc
    case Outside => 0
    case Announce => p + 6
    case AnnFence => p + 5
    case Park => p + 5
    case Leave => 1
    case _ =>
      if a.phase.Parked? then (if Fresh(w, a.pc) then l + 1 else l + p + 6)
      else (if Fresh(w, a.pc) then l else l + p + 7)
  }

  /** What every state of every wait has. */
  ghost predicate Proper(s: State, e: nat)
  {
    && Inv(s) && e < s.m + s.n && Counted(s)
    && (s.agents[e].pc.Outside? || InWait(s.agents[e].pc))
  }

  /** An evaluation that comes out true, or false without having been able to see it. */
  lemma VerdictComesCloser(w: Why, a: Agent, p: nat, choice: bool)
    requires a.pc.Look? || a.pc.Shut? || a.pc.Live?
    requires a.pc.Look? ==> a.pc.j <= p
    requires w.Credit? ==> w.j < p
    ensures var n := Ready(a); (n.pc.Outside? || InWait(n.pc)) && 0 <= WaitRank(w, n, p) < WaitRank(w, a, p)
    ensures !Fresh(w, a.pc) ==>
      var n := NotReady(a, choice); InWait(n.pc) && 0 <= WaitRank(w, n, p) < WaitRank(w, a, p)
  {
  }

  lemma LooksOn(w: Why, a: Agent, p: nat)
    requires a.pc.Look? && a.pc.j <= p && (w.Credit? ==> w.j < p)
    ensures a.pc.j < p && !(w.Credit? && a.pc.j == w.j) ==>
      0 <= WaitRank(w, a.(pc := Look(a.pc.j + 1)), p) < WaitRank(w, a, p)
    ensures a.pc.j == p ==> 0 <= WaitRank(w, a.(pc := Shut), p) < WaitRank(w, a, p)
  {
  }

  /** What a look makes of the agent. */
  lemma LookMakes(s: State, e: nat, choice: bool)
    requires Shape(s) && e < s.m + s.n && s.agents[e].pc.Look? && AgentStep(s, e, choice).Some?
    ensures var n, a, j, p := AgentStep(s, e, choice).value, s.agents[e], s.agents[e].pc.j, PeerCount(s, e);
      && e < |n.agents|
      && (j < p && s.used[e][Peer(s, e, j)] < s.shown[e][Peer(s, e, j)] ==> n.agents[e] == Ready(a))
      && (j < p && s.used[e][Peer(s, e, j)] >= s.shown[e][Peer(s, e, j)] ==> n.agents[e] == a.(pc := Look(j + 1)))
      && (j >= p ==> n.agents[e] == a.(pc := Shut))
  {
  }

  lemma LookComesCloser(w: Why, s: State, e: nat, choice: bool)
    requires Shape(s) && e < s.m + s.n && AgentOk(s, e) && CanReturn(w, s, e)
    requires s.agents[e].pc.Look? && AgentStep(s, e, choice).Some?
    ensures var n, p := AgentStep(s, e, choice).value, PeerCount(s, e);
      && e < |n.agents| && (n.agents[e].pc.Outside? || InWait(n.agents[e].pc))
      && 0 <= WaitRank(w, n.agents[e], p) < WaitRank(w, s.agents[e], p)
  {
    var a, p, b := s.agents[e], PeerCount(s, e), AgentStep(s, e, choice).value.agents[e];
    LookMakes(s, e, choice);
    if b == Ready(a) { VerdictComesCloser(w, a, p, choice); } else { LooksOn(w, a, p); }
  }

  lemma EndLookComesCloser(w: Why, s: State, e: nat, choice: bool)
    requires Shape(s) && e < s.m + s.n && CanReturn(w, s, e) && AgentStep(s, e, choice).Some?
    requires s.agents[e].pc.Shut? || s.agents[e].pc.Live?
    ensures var n, p := AgentStep(s, e, choice).value, PeerCount(s, e);
      && e < |n.agents| && (n.agents[e].pc.Outside? || InWait(n.agents[e].pc))
      && 0 <= WaitRank(w, n.agents[e], p) < WaitRank(w, s.agents[e], p)
  {
    VerdictComesCloser(w, s.agents[e], PeerCount(s, e), choice);
  }

  lemma ParkComesCloser(w: Why, s: State, e: nat, choice: bool)
    requires Inv(s) && e < s.m + s.n && AgentStep(s, e, choice).Some?
    requires var pc := s.agents[e].pc; pc.Announce? || pc.AnnFence? || pc.Park? || pc.Leave?
    ensures var n, p := AgentStep(s, e, choice).value, PeerCount(s, e);
      && e < |n.agents| && (n.agents[e].pc.Outside? || InWait(n.agents[e].pc))
      && 0 <= WaitRank(w, n.agents[e], p) < WaitRank(w, s.agents[e], p)
  {
    assert AgentOk(s, e);
  }

  /** Moving on in its wait, an agent changes only itself. */
  lemma WaitingMovesAlone(s: State, e: nat, choice: bool)
    requires Shape(s) && e < s.m + s.n && InWait(s.agents[e].pc) && AgentStep(s, e, choice).Some?
    ensures var n := AgentStep(s, e, choice).value;
      |n.agents| == |s.agents| && n == s.(agents := s.agents[e := n.agents[e]])
  {
  }

  lemma OwnStepComesCloser(w: Why, s: State, e: nat, choice: bool)
    requires Proper(s, e) && CanReturn(w, s, e) && AgentStep(s, e, choice).Some? && InWait(s.agents[e].pc)
    ensures var n, p := AgentStep(s, e, choice).value, PeerCount(s, e);
      && Proper(n, e) && CanReturn(w, n, e) && PeerCount(n, e) == p
      && 0 <= WaitRank(w, n.agents[e], p) < WaitRank(w, s.agents[e], p)
  {
    var pc := s.agents[e].pc;
    StepKeepsInv(s, RunAgent(e, choice));
    StepKeepsCounts(s, RunAgent(e, choice));
    WaitingMovesAlone(s, e, choice);
    assert AgentOk(s, e);
    if pc.Look? { LookComesCloser(w, s, e, choice); }
    else if pc.Shut? || pc.Live? { EndLookComesCloser(w, s, e, choice); }
    else { ParkComesCloser(w, s, e, choice); }
  }

  lemma OthersLetItWait(w: Why, s: State, e: nat, a: Act)
    requires Proper(s, e) && CanReturn(w, s, e) && Step(s, a).Some? && Undisturbed(a, e) && !(a.RunAgent? && a.e == e)
    ensures var n, p := Step(s, a).value, PeerCount(s, e);
      && Proper(n, e) && CanReturn(w, n, e) && PeerCount(n, e) == p
      && WaitRank(w, n.agents[e], p) == WaitRank(w, s.agents[e], p)
  {
    assert AgentOk(s, e);
    StepKeepsInv(s, a);
    StepKeepsCounts(s, a);
    OthersLeaveWait(e, s, a);
    if w.OthersGone? { ZeroStays(s, a, e); }
  }

  ghost function StepsOf(e: nat): Act -> bool
  {
    (a: Act) => a.RunAgent? && a.e == e
  }

  lemma RankBounds(w: Why, s: State, e: nat)
    requires Proper(s, e) && CanReturn(w, s, e)
    ensures 0 <= WaitRank(w, s.agents[e], PeerCount(s, e)) <= 2 * PeerCount(s, e) + 10
    ensures WaitRank(w, s.agents[e], PeerCount(s, e)) == 0 ==> s.agents[e].pc.Outside?
  {
    assert AgentOk(s, e);
  }

  lemma StepComesCloser(w: Why, s: State, e: nat, a: Act)
    requires Proper(s, e) && CanReturn(w, s, e) && Step(s, a).Some? && Undisturbed(a, e)
    ensures var n, p := Step(s, a).value, PeerCount(s, e);
      && Proper(n, e) && CanReturn(w, n, e) && PeerCount(n, e) == p
      && (if StepsOf(e)(a) then 1 else 0) + WaitRank(w, n.agents[e], p) <= WaitRank(w, s.agents[e], p)
  {
    if a.RunAgent? && a.e == e { OwnStepComesCloser(w, s, e, a.choice); } else { OthersLetItWait(w, s, e, a); }
  }

  lemma {:induction false} StepsAreBounded(w: Why, s: State, e: nat, acts: seq<Act>)
    requires Proper(s, e) && CanReturn(w, s, e) && Run(Step, s, acts).Some? && OnlyWaits(acts, e)
    ensures var n, p := Run(Step, s, acts).value, PeerCount(s, e);
      && Proper(n, e) && CanReturn(w, n, e) && PeerCount(n, e) == p
      && Count(acts, StepsOf(e)) + WaitRank(w, n.agents[e], p) <= WaitRank(w, s.agents[e], p)
    decreases |acts|
  {
    if acts != [] {
      StepComesCloser(w, s, e, acts[0]);
      StepsAreBounded(w, Step(s, acts[0]).value, e, acts[1..]);
    }
  }

  /** A wait comes back: once there is something to see, within `WaitRank` of the agent's
      own steps, whatever the others do. */
  lemma WaitComesBack(w: Why, s: State, e: nat, acts: seq<Act>)
    requires Proper(s, e) && CanReturn(w, s, e) && Run(Step, s, acts).Some? && OnlyWaits(acts, e)
    requires Count(acts, StepsOf(e)) >= WaitRank(w, s.agents[e], PeerCount(s, e))
    ensures WaitRank(w, s.agents[e], PeerCount(s, e)) <= 2 * PeerCount(s, e) + 10
    ensures e < |Run(Step, s, acts).value.agents| && Run(Step, s, acts).value.agents[e].pc.Outside?
  {
    RankBounds(w, s, e);
    StepsAreBounded(w, s, e, acts);
    RankBounds(w, Run(Step, s, acts).value, e);
  }

  /** A waiting agent can step, or show a store that the step waits for, as long as it is
      not blocked. */
  lemma WaiterCanMove(s: State, e: nat) returns (a: Act)
    requires Proper(s, e) && !s.agents[e].pc.Outside? && !Blocked(s, e)
    ensures Step(s, a).Some?
    ensures a == RunAgent(e, false) || (a.Show? && a.f == e && Step(s, a).value.shown[a.e][e] == Granted(s, a.e, e))
  {
    a := RunAgent(e, false);
    if AgentStep(s, e, false).None? {
      assert AgentOk(s, e);
      var f :| 0 <= f < s.m + s.n && Peers(s, f, e) && s.shown[f][e] != Granted(s, f, e);
      assert PairOk(s, f, e);
      a := Show(f, e, Granted(s, f, e));
    }
  }

  // ---- flags and debts ------------------------------------------------------------------

  /** A step inside a call touches no flag, no debt and nothing that a signal raised. */
  lemma AgentKeepsRecords(s: State, g: nat, choice: bool, f: nat)
    requires Shape(s) && g < |s.agents| && f < |s.agents| && AgentStep(s, g, choice).Some?
    ensures var n := AgentStep(s, g, choice).value;
      && Shape(n) && |n.agents| == |s.agents| && n.shutdown == s.shutdown
      && n.agents[f].flag == s.agents[f].flag && n.agents[f].debt == s.agents[f].debt
  {
    match s.agents[g].pc
    case Waking(t, at) => WakeKeepsRecords(s, g, t, at, f);
    case Look(_) => LooksKeepRecords(s, g, choice, f);
    case Shut => LooksKeepRecords(s, g, choice, f);
    case Live => LooksKeepRecords(s, g, choice, f);
    case _ =>
  }

  lemma VerdictKeepsRecords(a: Agent, choice: bool)
    ensures Ready(a).flag == NotReady(a, choice).flag == a.flag
    ensures Ready(a).debt == NotReady(a, choice).debt == a.debt
  {
  }

  lemma LooksKeepRecords(s: State, g: nat, choice: bool, f: nat)
    requires Shape(s) && g < |s.agents| && f < |s.agents| && AgentStep(s, g, choice).Some?
    requires s.agents[g].pc.Look? || s.agents[g].pc.Shut? || s.agents[g].pc.Live?
    ensures var n := AgentStep(s, g, choice).value;
      && Shape(n) && |n.agents| == |s.agents| && n.shutdown == s.shutdown
      && n.agents[f].flag == s.agents[f].flag && n.agents[f].debt == s.agents[f].debt
  {
    VerdictKeepsRecords(s.agents[g], choice);
    var n := AgentStep(s, g, choice).value;
    assert n == s.(agents := s.agents[g := n.agents[g]]);
  }

  lemma WakeKeepsRecords(s: State, g: nat, t: nat, at: Wake, f: nat)
    requires Shape(s) && g < |s.agents| && t < |s.agents| && f < |s.agents| && WakeStep(s, g, t, at).Some?
    ensures var n := WakeStep(s, g, t, at).value;
      && Shape(n) && |n.agents| == |s.agents| && n.shutdown == s.shutdown
      && n.agents[f].flag == s.agents[f].flag && n.agents[f].debt == s.agents[f].debt
  {
  }

  /** The flag is up, or `f` has it in its buffer. */
  predicate Raised(s: State, f: nat)
  {
    Shape(s) && f < |s.agents| && (s.shutdown || s.agents[f].flag)
  }

  lemma StepKeepsRaised(s: State, a: Act, f: nat)
    requires Raised(s, f) && Step(s, a).Some?
    ensures Raised(Step(s, a).value, f) && (s.shutdown || a == ShowFlag(f) ==> Step(s, a).value.shutdown)
  {
    if a.RunAgent? { AgentKeepsRecords(s, a.e, a.choice, f); }
  }

  lemma {:induction false} RunKeepsRaised(s: State, acts: seq<Act>, f: nat)
    requires Raised(s, f) && Run(Step, s, acts).Some?
    ensures Raised(Run(Step, s, acts).value, f)
    ensures s.shutdown || ShowFlag(f) in acts ==> Run(Step, s, acts).value.shutdown
    decreases |acts|
  {
    if acts != [] {
      StepKeepsRaised(s, acts[0], f);
      RunKeepsRaised(Step(s, acts[0]).value, acts[1..], f);
    }
  }

  /** A signal raises the flag for good, as soon as its store is shown. */
  lemma SignalArrives(s: State, f: nat, acts: seq<Act>)
    requires Shape(s) && s.m + s.n <= f < |s.agents| && s.agents[f].pc.Outside? && !s.agents[f].flag
    requires Run(Step, Step(s, Signal(f)).value, acts).Some? && ShowFlag(f) in acts
    ensures Run(Step, Step(s, Signal(f)).value, acts).value.shutdown
  {
    RunKeepsRaised(Step(s, Signal(f)).value, acts, f);
  }

  /** A drain of `f` takes from `e` and unwinds; or `f` uses its credit with `e` and wakes. */
  ghost function Unwinds(f: nat, e: nat): (State, Act) -> bool
  {
    (s, a: Act) => a.Use? && a.f == f && a.e == e && !a.wake
  }

  ghost function Repays(f: nat, e: nat): (State, Act) -> bool
  {
    (s, a: Act) => a.Use? && a.f == f && a.e == e && a.wake
  }

  lemma StepKeepsDebt(s: State, a: Act, f: nat, e: nat)
    requires Shape(s) && f < |s.agents| && Step(s, a).Some?
    ensures var n := Step(s, a).value;
      && Shape(n) && |n.agents| == |s.agents|
      && (e in n.agents[f].debt <==> Unwinds(f, e)(s, a) || (e in s.agents[f].debt && !Repays(f, e)(s, a)))
  {
    if a.RunAgent? { AgentKeepsRecords(s, a.e, a.choice, f); }
  }

  lemma {:induction false} RunKeepsDebt(s: State, acts: seq<Act>, f: nat, e: nat)
    requires Shape(s) && f < |s.agents| && Run(Step, s, acts).Some?
    ensures var n := Run(Step, s, acts).value;
      && Shape(n) && |n.agents| == |s.agents|
      && (e in n.agents[f].debt <==>
            || Since(Step, s, acts, Unwinds(f, e), Repays(f, e))
            || (e in s.agents[f].debt && !Happens(Step, s, acts, Repays(f, e))))
    decreases |acts|
  {
    if acts != [] {
      StepKeepsDebt(s, acts[0], f, e);
      RunKeepsDebt(Step(s, acts[0]).value, acts[1..], f, e);
    }
  }

  /** A consumer is in debt to a producer exactly if it has taken from it in a drain that
      unwound and has not woken it since. */
  lemma DebtIsAnUnwindSince(s: State, acts: seq<Act>, f: nat, e: nat)
    requires Init(s) && f < |s.agents| && Run(Step, s, acts).Some?
    ensures var n := Run(Step, s, acts).value;
      f < |n.agents| && (e in n.agents[f].debt <==> Since(Step, s, acts, Unwinds(f, e), Repays(f, e)))
  {
    RunKeepsDebt(s, acts, f, e);
  }
}
