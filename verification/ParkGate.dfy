/** The parked-flag gate on its own: one waiter, any number of wakers, any number
    of publishes and wait episodes, over a store-buffering memory (x86-TSO).

    What is waited for is a set of conditions, each a memory location that a
    waker's store makes true and only the waiter makes false again, between
    episodes. The predicate of an episode is that some watched condition holds;
    it is evaluated one load at a time, each once, in any order. A deadline is an event
    that may happen at any time in a timed episode; a park that it ends is followed by
    one more evaluation, which decides what the episode returns. */
module ParkGate {

  import opened Runs

  /** Inside a caller of `wake()`: `Storing` has published and not yet called it;
      then the fast probe, the fence, the second probe and the delivery. */
  datatype WakerPc = Quiet | Storing | T3a | Fence | T3b | Unpark

  /** `buf` holds the conditions whose store is issued and not yet in memory. */
  datatype Waker = Waker(pc: WakerPc, buf: seq<nat>)

  /** `LeaveLate` and `Final` are the way out at a deadline. */
  datatype WaiterPc = Away | Spin | Announce | AnnFence | Check | Park | Leave | LeaveLate | Final | Panicked

  /** `seen` is what the current evaluation has found false, `elapsed` the answer of the
      last episode: the deadline came first. */
  datatype Waiter = Waiter(pc: WaiterPc, watch: set<nat>, seen: set<nat>, timed: bool, elapsed: bool)

  /** `fenced` tells the gate of the code from the same gate whose `wake()` stops
      at the fast probe. */
  datatype State = State(fenced: bool, holds: seq<bool>, parked: bool, token: bool, registered: bool,
                         waiter: Waiter, wakers: seq<Waker>)

  datatype Act =
    | StoreCond(w: nat, c: nat)      // plain or Release store
    | RmwCond(w: nat, c: nat)        // read-modify-write
    | CallWake(w: nat)
    | RunWaker(w: nat)
    | Flush(w: nat)
    | Register
    | Consume(c: nat)                // the waiter, between episodes
    | Begin(watch: set<nat>, timed: bool)
    | Load(c: nat)                   // one load of the predicate
    | RunWaiter(choice: bool)
    | Deadline

  ghost predicate Init(s: State)
  {
    && !s.parked && !s.token && !s.registered
    && s.waiter == Waiter(Away, {}, {}, false, false)
    && forall w :: 0 <= w < |s.wakers| ==> s.wakers[w] == Waker(Quiet, [])
  }

  function WakerStep(s: State, w: nat): Option<State>
    requires w < |s.wakers|
  {
    var k := s.wakers[w];
    match k.pc
    case T3a =>
      Some(s.(wakers := s.wakers[w := k.(pc := if s.parked then Unpark else if s.fenced then Fence else Quiet)]))
    case Fence => if k.buf == [] then Some(s.(wakers := s.wakers[w := k.(pc := T3b)])) else None
    case T3b => Some(s.(wakers := s.wakers[w := k.(pc := if s.parked then Unpark else Quiet)]))
    case Unpark =>
      // locks the registration and, if there is one, sets the token
      if k.buf == [] then Some(s.(token := s.token || s.registered, wakers := s.wakers[w := k.(pc := Quiet)])) else None
    case _ => None
  }

  function WaiterStep(s: State, choice: bool): Option<State>
  {
    var t := s.waiter;
    match t.pc
    case Spin =>
      // a false evaluation: the slow path insists on a registration, then spins or announces
      if t.seen != t.watch then None
      else if !s.registered then Some(s.(waiter := t.(pc := Panicked)))
      else if choice then Some(s.(waiter := t.(seen := {})))
      else Some(s.(waiter := t.(pc := Announce)))
    case Announce => Some(s.(parked := true, waiter := t.(pc := AnnFence, seen := {})))
    case AnnFence => Some(s.(waiter := t.(pc := Check)))
    case Check => if t.seen == t.watch then Some(s.(waiter := t.(pc := Park))) else None
    case Park =>
      if s.token then Some(s.(token := false, waiter := t.(pc := Check, seen := {})))
      else if choice then Some(s.(waiter := t.(pc := Check, seen := {})))
      else None
    case Leave => Some(s.(parked := false, waiter := t.(pc := Away)))
    case LeaveLate => Some(s.(parked := false, waiter := t.(pc := Final, seen := {})))
    case Final => if t.seen == t.watch then Some(s.(waiter := t.(pc := Away, elapsed := true))) else None
    case _ => None
  }

  function Step(s: State, a: Act): Option<State>
  {
    match a
    case StoreCond(w, c) =>
      if w < |s.wakers| && c < |s.holds| && (s.wakers[w].pc.Quiet? || s.wakers[w].pc.Storing?) then
        Some(s.(wakers := s.wakers[w := Waker(Storing, s.wakers[w].buf + [c])]))
      else None
    case RmwCond(w, c) =>
      if w < |s.wakers| && c < |s.holds| && (s.wakers[w].pc.Quiet? || s.wakers[w].pc.Storing?) && s.wakers[w].buf == [] then
        Some(s.(holds := s.holds[c := true], wakers := s.wakers[w := Waker(Storing, [])]))
      else None
    case CallWake(w) =>
      if w < |s.wakers| && (s.wakers[w].pc.Quiet? || s.wakers[w].pc.Storing?) then
        Some(s.(wakers := s.wakers[w := s.wakers[w].(pc := T3a)]))
      else None
    case RunWaker(w) => if w < |s.wakers| then WakerStep(s, w) else None
    case Flush(w) =>
      if w < |s.wakers| && s.wakers[w].buf != [] && s.wakers[w].buf[0] < |s.holds| then
        Some(s.(holds := s.holds[s.wakers[w].buf[0] := true], wakers := s.wakers[w := s.wakers[w].(buf := s.wakers[w].buf[1..])]))
      else None
    case Register => Some(s.(registered := true))
    case Consume(c) =>
      if s.waiter.pc.Away? && c < |s.holds| then Some(s.(holds := s.holds[c := false])) else None
    case Begin(watch, timed) =>
      if s.waiter.pc.Away? && forall c :: c in watch ==> c < |s.holds| then
        Some(s.(waiter := Waiter(Spin, watch, {}, timed, false)))
      else None
    case Load(c) =>
      var t := s.waiter;
      if c in t.watch - t.seen && c < |s.holds| && (t.pc.Spin? || t.pc.Check? || t.pc.Final?) then
        Some(s.(waiter := if !s.holds[c] then t.(seen := t.seen + {c}) else t.(pc := if t.pc.Check? then Leave else Away)))
      else None
    case RunWaiter(choice) => WaiterStep(s, choice)
    case Deadline =>
      var t := s.waiter;
      if t.timed && t.pc.Spin? && t.seen == t.watch && s.registered then
        Some(s.(waiter := t.(pc := Away, elapsed := true)))
      else if t.timed && t.pc.Park? then Some(s.(waiter := t.(pc := LeaveLate)))
      else None
  }

  // ---- invariant --------------------------------------------------------

  predicate Announced(pc: WaiterPc)
  {
    pc.AnnFence? || pc.Check? || pc.Park? || pc.Leave? || pc.LeaveLate?
  }

  predicate Owes(k: Waker)
  {
    !k.pc.Quiet?
  }

  ghost predicate SomeoneOwes(s: State)
  {
    exists w :: 0 <= w < |s.wakers| && Owes(s.wakers[w])
  }

  ghost predicate Inv(s: State)
  {
    && (s.parked <==> Announced(s.waiter.pc))
    && (s.waiter.pc.Announce? || Announced(s.waiter.pc) ==> s.registered)
    && (s.waiter.pc.Park? ==> s.waiter.seen == s.waiter.watch)
    && (s.waiter.pc.AnnFence? ==> s.waiter.seen == {})
    && (forall w :: 0 <= w < |s.wakers| && s.wakers[w].buf != [] ==> Owes(s.wakers[w]) && !s.wakers[w].pc.T3b?)
    && (forall w, j :: 0 <= w < |s.wakers| && 0 <= j < |s.wakers[w].buf| ==> s.wakers[w].buf[j] < |s.holds|)
    && (Announced(s.waiter.pc) && !s.waiter.pc.Leave? && !s.waiter.pc.LeaveLate? && !s.token ==>
          forall c :: c in s.waiter.seen && c < |s.holds| && s.holds[c] ==> SomeoneOwes(s))
  }

  lemma WakerKeepsInv(s: State, w: nat)
    requires s.fenced && Inv(s) && w < |s.wakers| && WakerStep(s, w).Some?
    ensures Inv(WakerStep(s, w).value)
  {
    var n := WakerStep(s, w).value;
    forall v | 0 <= v < |s.wakers| && v != w && Owes(s.wakers[v])
      ensures SomeoneOwes(n)
    {
      assert Owes(n.wakers[v]);
    }
    if Owes(n.wakers[w]) { assert SomeoneOwes(n); }
  }

  lemma IssueKeepsInv(s: State, a: Act)
    requires s.fenced && Inv(s) && (a.StoreCond? || a.RmwCond? || a.CallWake? || a.Flush?) && Step(s, a).Some?
    ensures Step(s, a).value.fenced && Inv(Step(s, a).value)
  {
    assert Owes(Step(s, a).value.wakers[a.w]);
  }

  lemma StepKeepsInv(s: State, a: Act)
    requires s.fenced && Inv(s) && Step(s, a).Some?
    ensures Step(s, a).value.fenced && Inv(Step(s, a).value)
  {
    var n := Step(s, a).value;
    if a.RunWaker? {
      WakerKeepsInv(s, a.w);
    } else if a.StoreCond? || a.RmwCond? || a.CallWake? || a.Flush? {
      IssueKeepsInv(s, a);
    } else {
      assert n.wakers == s.wakers;
    }
  }

  lemma {:induction false} RunKeepsInv(s: State, acts: seq<Act>)
    requires s.fenced && Inv(s) && Run(Step, s, acts).Some?
    ensures Inv(Run(Step, s, acts).value)
    decreases |acts|
  {
    if acts != [] {
      StepKeepsInv(s, acts[0]);
      RunKeepsInv(Step(s, acts[0]).value, acts[1..]);
    }
  }

  predicate Blocked(s: State)
  {
    s.waiter.pc.Park? && !s.token
  }

  /** A watched condition holds, or its store is on the way. */
  ghost predicate WorkIssued(s: State)
  {
    || (exists c :: c in s.waiter.watch && c < |s.holds| && s.holds[c])
    || (exists w, j :: 0 <= w < |s.wakers| && 0 <= j < |s.wakers[w].buf| && s.wakers[w].buf[j] in s.waiter.watch)
  }

  /** No wake is lost: in every state of every run, stale tokens and earlier
      episodes included, if the waiter is blocked and what it watches for has been
      issued, some waker is still between its publish and the end of its `wake()`. */
  lemma NoLostWake(s: State, acts: seq<Act>)
    requires s.fenced && Init(s) && Run(Step, s, acts).Some?
    requires Blocked(Run(Step, s, acts).value) && WorkIssued(Run(Step, s, acts).value)
    ensures SomeoneOwes(Run(Step, s, acts).value)
  {
    RunKeepsInv(s, acts);
    var n := Run(Step, s, acts).value;
    if w, j :| 0 <= w < |n.wakers| && 0 <= j < |n.wakers[w].buf| && n.wakers[w].buf[j] in n.waiter.watch {
      assert Owes(n.wakers[w]);
    }
  }

  function Rank(pc: WakerPc): nat
  {
    match pc case T3a => 4 case Fence => 3 case T3b => 2 case Unpark => 1 case _ => 0
  }

  function OwnSteps(acts: seq<Act>, w: nat): nat
  {
    if acts == [] then 0 else (if acts[0] == RunWaker(w) then 1 else 0) + OwnSteps(acts[1..], w)
  }

  /** Acts of anyone but the waiter. */
  predicate WakersOnly(acts: seq<Act>)
  {
    forall i :: 0 <= i < |acts| ==>
      acts[i].StoreCond? || acts[i].RmwCond? || acts[i].CallWake? || acts[i].RunWaker? || acts[i].Flush? || acts[i].Register?
  }

  lemma {:induction false} TokenStays(s: State, acts: seq<Act>)
    requires WakersOnly(acts) && Run(Step, s, acts).Some? && s.token
    ensures Run(Step, s, acts).value.token
    decreases |acts|
  {
    if acts != [] { TokenStays(Step(s, acts[0]).value, acts[1..]); }
  }

  /** While the waiter stays parked, any waker inside `wake()` sets the token within
      four of its own steps, whatever the other wakers do meanwhile. */
  lemma {:induction false} WakeArrives(s: State, acts: seq<Act>, w: nat)
    requires s.fenced && Inv(s) && Blocked(s) && w < |s.wakers| && 0 < Rank(s.wakers[w].pc)
    requires WakersOnly(acts) && Run(Step, s, acts).Some? && OwnSteps(acts, w) >= Rank(s.wakers[w].pc)
    ensures Rank(s.wakers[w].pc) <= 4 && Run(Step, s, acts).value.token
    decreases |acts|
  {
    var n := Step(s, acts[0]).value;
    StepKeepsInv(s, acts[0]);
    if n.token { TokenStays(n, acts[1..]); } else { WakeArrives(n, acts[1..], w); }
  }

  /** The next act of the waker itself: a step of the wake, or a flush it waits for. */
  lemma WakerMoves(s: State, w: nat) returns (a: Act)
    requires s.fenced && Inv(s) && Blocked(s) && w < |s.wakers| && 0 < Rank(s.wakers[w].pc)
    ensures WakersOnly([a]) && Step(s, a).Some?
    ensures var n := Step(s, a).value;
      || n.token
      || (Blocked(n) && |n.wakers| == |s.wakers| && |n.holds| == |s.holds| && n.wakers[w].buf == s.wakers[w].buf
          && 0 < Rank(n.wakers[w].pc) < Rank(s.wakers[w].pc))
      || (Blocked(n) && |n.wakers| == |s.wakers| && |n.holds| == |s.holds| && s.wakers[w].buf != []
          && n.wakers[w] == Waker(s.wakers[w].pc, s.wakers[w].buf[1..]))
  {
    a := if WakerStep(s, w).Some? then RunWaker(w) else Flush(w);
    assert [a][0] == a;
  }

  /** ... and a waker inside `wake()` can always deliver, by acts of its own. */
  lemma WakerDelivers(s: State, w: nat) returns (acts: seq<Act>)
    requires s.fenced && Inv(s) && Blocked(s) && w < |s.wakers| && 0 < Rank(s.wakers[w].pc)
    ensures WakersOnly(acts) && Run(Step, s, acts).Some? && Run(Step, s, acts).value.token
    decreases Rank(s.wakers[w].pc), |s.wakers[w].buf|
  {
    var a := WakerMoves(s, w);
    var n := Step(s, a).value;
    var rest := [];
    if !n.token {
      StepKeepsInv(s, a);
      rest := WakerDelivers(n, w);
    }
    acts := [a] + rest;
    assert acts[1..] == rest && [a][0] == a;
  }

  // ---- what is issued arrives -------------------------------------------------------

  ghost function FlushesOf(w: nat): Act -> bool
  {
    a => a == Flush(w)
  }

  lemma WaiterStoresNothing(s: State, choice: bool)
    requires WaiterStep(s, choice).Some?
    ensures WaiterStep(s, choice).value.holds == s.holds && WaiterStep(s, choice).value.wakers == s.wakers
  {
  }

  lemma TrueStaysOne(s: State, a: Act, c: nat)
    requires c < |s.holds| && s.holds[c] && a != Consume(c) && Step(s, a).Some?
    ensures c < |Step(s, a).value.holds| && Step(s, a).value.holds[c]
  {
    if a.RunWaiter? { WaiterStoresNothing(s, a.choice); }
  }

  lemma {:induction false} TrueStays(s: State, acts: seq<Act>, c: nat)
    requires c < |s.holds| && s.holds[c] && Consume(c) !in acts && Run(Step, s, acts).Some?
    ensures c < |Run(Step, s, acts).value.holds| && Run(Step, s, acts).value.holds[c]
    decreases |acts|
  {
    if acts != [] {
      TrueStaysOne(s, acts[0], c);
      TrueStays(Step(s, acts[0]).value, acts[1..], c);
    }
  }

  /** The store of `c` stands at place `i` of the buffer of `w`. */
  predicate Pending(s: State, w: nat, c: nat, i: nat)
  {
    w < |s.wakers| && c < |s.holds| && i < |s.wakers[w].buf| && s.wakers[w].buf[i] == c
  }

  lemma PendingMovesUp(s: State, a: Act, w: nat, c: nat, i: nat)
    requires Pending(s, w, c, i) && Step(s, a).Some?
    ensures var n := Step(s, a).value;
      if a != Flush(w) then Pending(n, w, c, i)
      else if i > 0 then Pending(n, w, c, i - 1)
      else c < |n.holds| && n.holds[c]
  {
    if a.RunWaiter? { WaiterStoresNothing(s, a.choice); }
  }

  /** A store at place `i` has arrived after `i + 1` flushes. */
  lemma {:induction false} StoreArrives(s: State, acts: seq<Act>, w: nat, c: nat, i: nat)
    requires Pending(s, w, c, i)
    requires Consume(c) !in acts && Run(Step, s, acts).Some? && Count(acts, FlushesOf(w)) > i
    ensures c < |Run(Step, s, acts).value.holds| && Run(Step, s, acts).value.holds[c]
    decreases |acts|
  {
    var n := Step(s, acts[0]).value;
    PendingMovesUp(s, acts[0], w, c, i);
    if acts[0] != Flush(w) { StoreArrives(n, acts[1..], w, c, i); }
    else if i > 0 { StoreArrives(n, acts[1..], w, c, i - 1); }
    else { TrueStays(n, acts[1..], c); }
  }

  /** A condition that a waker issues is true once its stores up to that one are flushed,
      or at once if it was a read-modify-write, and stays so until it is consumed. */
  lemma IssueArrives(s: State, w: nat, c: nat, rmw: bool, acts: seq<Act>)
    requires w < |s.wakers| && c < |s.holds| && (s.wakers[w].pc.Quiet? || s.wakers[w].pc.Storing?)
    requires rmw ==> s.wakers[w].buf == []
    requires var b := Step(s, if rmw then RmwCond(w, c) else StoreCond(w, c)).value;
      Consume(c) !in acts && Run(Step, b, acts).Some? && (rmw || Count(acts, FlushesOf(w)) > |s.wakers[w].buf|)
    ensures var n := Run(Step, Step(s, if rmw then RmwCond(w, c) else StoreCond(w, c)).value, acts).value;
      c < |n.holds| && n.holds[c]
  {
    var b := Step(s, if rmw then RmwCond(w, c) else StoreCond(w, c)).value;
    if rmw { TrueStays(b, acts, c); } else { StoreArrives(b, acts, w, c, |s.wakers[w].buf|); }
  }

  // ---- what a wait returns ----------------------------------------------------------

  predicate NoBegin(acts: seq<Act>)
  {
    forall i :: 0 <= i < |acts| ==> !acts[i].Begin?
  }

  /** A load of the predicate finds a condition of `watch` true. */
  ghost predicate SeesTrue(watch: set<nat>, s: State, a: Act)
  {
    a.Load? && a.c in watch && a.c < |s.holds| && s.holds[a.c]
  }

  ghost function Sees(watch: set<nat>): (State, Act) -> bool
  {
    (s, a) => SeesTrue(watch, s, a)
  }

  ghost predicate TimesOut(s: State, a: Act)
  {
    a.Deadline? && s.waiter.timed
  }

  /** How far an episode has come; `saw` and `late` say what has happened in it. */
  ghost predicate Episode(watch: set<nat>, timed: bool, saw: bool, late: bool, s: State)
  {
    var t := s.waiter;
    && t.watch == watch && t.timed == timed
    && (if t.pc.Away? then (if t.elapsed then timed && late && !saw else saw) else !t.elapsed)
    && (if t.pc.Leave? then saw else saw ==> t.pc.Away?)
    && (t.pc.LeaveLate? || t.pc.Final? ==> timed && late)
  }

  predicate WaiterActs(a: Act)
  {
    a.Load? || a.RunWaiter? || a.Deadline?
  }

  lemma OthersLeaveWaiter(s: State, a: Act)
    requires Step(s, a).Some? && !a.Begin? && !WaiterActs(a)
    ensures Step(s, a).value.waiter == s.waiter && |Step(s, a).value.holds| == |s.holds|
  {
  }

  lemma OwnStepKeepsEpisode(watch: set<nat>, timed: bool, saw: bool, late: bool, s: State, a: Act)
    requires Episode(watch, timed, saw, late, s) && Step(s, a).Some? && WaiterActs(a)
    ensures Episode(watch, timed, saw || SeesTrue(watch, s, a), late || TimesOut(s, a), Step(s, a).value)
  {
    if a.RunWaiter? { RunKeepsOn(watch, timed, saw, late, s, a.choice); }
  }

  lemma RunKeepsOn(watch: set<nat>, timed: bool, saw: bool, late: bool, s: State, choice: bool)
    requires Episode(watch, timed, saw, late, s) && WaiterStep(s, choice).Some?
    ensures Episode(watch, timed, saw, late, WaiterStep(s, choice).value)
  {
  }

  lemma StepKeepsEpisode(watch: set<nat>, timed: bool, saw: bool, late: bool, s: State, a: Act)
    requires Episode(watch, timed, saw, late, s) && Step(s, a).Some? && !a.Begin?
    ensures Episode(watch, timed, saw || SeesTrue(watch, s, a), late || TimesOut(s, a), Step(s, a).value)
  {
    if WaiterActs(a) { OwnStepKeepsEpisode(watch, timed, saw, late, s, a); } else { OthersLeaveWaiter(s, a); }
  }

  lemma {:induction false} RunKeepsEpisode(watch: set<nat>, timed: bool, saw: bool, late: bool,
                                           s: State, acts: seq<Act>)
    requires Episode(watch, timed, saw, late, s) && Run(Step, s, acts).Some? && NoBegin(acts)
    ensures Episode(watch, timed, saw || Happens(Step, s, acts, Sees(watch)), late || Happens(Step, s, acts, TimesOut),
                    Run(Step, s, acts).value)
    decreases |acts|
  {
    if acts != [] {
      StepKeepsEpisode(watch, timed, saw, late, s, acts[0]);
      RunKeepsEpisode(watch, timed, saw || SeesTrue(watch, s, acts[0]), late || TimesOut(s, acts[0]),
                      Step(s, acts[0]).value, acts[1..]);
    }
  }

  /** A load of the predicate finds condition `c` false. */
  ghost predicate FindsFalse(c: nat, s: State, a: Act)
  {
    a == Load(c) && c < |s.holds| && !s.holds[c]
  }

  ghost function False(c: nat): (State, Act) -> bool
  {
    (s, a) => FindsFalse(c, s, a)
  }

  /** The waiter takes its announcement back at the deadline. */
  ghost predicate LeavesLate(s: State, a: Act)
  {
    a.RunWaiter? && s.waiter.pc.LeaveLate?
  }

  /** `since` says that `c` was found false, and the announcement not taken back after that. */
  ghost predicate Looked(c: nat, since: bool, s: State)
  {
    var t := s.waiter;
    && c in t.watch && (c in t.seen ==> since) && (t.elapsed ==> t.pc.Away? && since)
  }

  lemma StepKeepsLooked(c: nat, since: bool, s: State, a: Act)
    requires Looked(c, since, s) && Step(s, a).Some? && !a.Begin?
    ensures Looked(c, FindsFalse(c, s, a) || (since && !LeavesLate(s, a)), Step(s, a).value)
  {
    if !WaiterActs(a) { OthersLeaveWaiter(s, a); }
    else if a.RunWaiter? { RunKeepsLooked(c, since, s, a.choice); }
  }

  lemma RunKeepsLooked(c: nat, since: bool, s: State, choice: bool)
    requires Looked(c, since, s) && WaiterStep(s, choice).Some?
    ensures Looked(c, since && !s.waiter.pc.LeaveLate?, WaiterStep(s, choice).value)
  {
  }

  lemma {:induction false} EpisodeKeepsLooked(c: nat, since: bool, s: State, acts: seq<Act>)
    requires Looked(c, since, s) && Run(Step, s, acts).Some? && NoBegin(acts)
    ensures Looked(c, Since(Step, s, acts, False(c), LeavesLate) || (since && !Happens(Step, s, acts, LeavesLate)),
                   Run(Step, s, acts).value)
    decreases |acts|
  {
    if acts != [] {
      StepKeepsLooked(c, since, s, acts[0]);
      EpisodeKeepsLooked(c, FindsFalse(c, s, acts[0]) || (since && !LeavesLate(s, acts[0])),
                         Step(s, acts[0]).value, acts[1..]);
    }
  }

  /** A wait that has returned has seen a condition it watches to be true, at a load of
      its own; or it was timed, its deadline passed, and it says so: then it has seen none
      true, and found each false once more after taking its announcement back. */
  lemma WaitReturns(s: State, watch: set<nat>, timed: bool, acts: seq<Act>, c: nat)
    requires s.waiter.pc.Away? && (forall d :: d in watch ==> d < |s.holds|) && NoBegin(acts) && c in watch
    requires Run(Step, Step(s, Begin(watch, timed)).value, acts).Some?
    requires Run(Step, Step(s, Begin(watch, timed)).value, acts).value.waiter.pc.Away?
    ensures var b := Step(s, Begin(watch, timed)).value; var n := Run(Step, b, acts).value;
      && (n.waiter.elapsed <==> !Happens(Step, b, acts, Sees(watch)))
      && (n.waiter.elapsed ==>
            timed && Happens(Step, b, acts, TimesOut) && Since(Step, b, acts, False(c), LeavesLate))
  {
    RunKeepsEpisode(watch, timed, false, false, Step(s, Begin(watch, timed)).value, acts);
    EpisodeKeepsLooked(c, false, Step(s, Begin(watch, timed)).value, acts);
  }

  /** What every state of every run has: an evaluation is of what is watched. */
  ghost predicate Evaluates(s: State)
  {
    && s.waiter.seen <= s.waiter.watch
    && (forall d :: d in s.waiter.watch ==> d < |s.holds|)
    && (s.waiter.pc.AnnFence? ==> s.waiter.seen == {})
  }

  lemma StepEvaluates(s: State, a: Act)
    requires Evaluates(s) && Step(s, a).Some?
    ensures Evaluates(Step(s, a).value)
  {
    if !a.Begin? && !WaiterActs(a) { OthersLeaveWaiter(s, a); }
    else if a.RunWaiter? { RunStillEvaluates(s, a.choice); }
  }

  lemma RunStillEvaluates(s: State, choice: bool)
    requires Evaluates(s) && WaiterStep(s, choice).Some?
    ensures Evaluates(WaiterStep(s, choice).value)
  {
  }

  lemma {:induction false} RunEvaluates(s: State, acts: seq<Act>)
    requires (Init(s) || Evaluates(s)) && Run(Step, s, acts).Some?
    ensures Evaluates(Run(Step, s, acts).value)
    decreases |acts|
  {
    if acts != [] {
      StepEvaluates(s, acts[0]);
      RunEvaluates(Step(s, acts[0]).value, acts[1..]);
    }
  }

  /** The waiter is in an episode for which condition `c` holds. */
  ghost predicate WorthWaiting(s: State, c: nat)
  {
    Evaluates(s) && s.registered && c in s.waiter.watch && s.holds[c] && !s.waiter.pc.Panicked?
  }

  /** A bound on the waiter's steps to the end of the episode. */
  ghost function WaitRank(t: Waiter, c: nat): nat
  {
    var k, w := ToLoad(t), |t.watch|;
    match t.pc
    case Spin => if c in t.seen then k + w + 6 else k + 1
    case Announce => w + 5
    case AnnFence => w + 4
    case Check => if c in t.seen then k + w + 5 else k + 2
    case Park => w + 4
    case Leave => 1
    case LeaveLate => w + 3
    case Final => k + 2
    case _ => 0
  }

  /** How many conditions an evaluation has left to load. */
  function ToLoad(t: Waiter): nat
  {
    |t.watch - t.seen|
  }

  lemma AllToLoad(t: Waiter)
    ensures ToLoad(t.(seen := {})) == |t.watch| && (t.seen == t.watch ==> ToLoad(t) == 0)
  {
    assert t.watch - {} == t.watch;
    if t.seen == t.watch { assert t.watch - t.seen == {}; }
  }

  lemma OneLessToLoad(t: Waiter, d: nat)
    requires d in t.watch - t.seen
    ensures ToLoad(t.(seen := t.seen + {d})) == ToLoad(t) - 1
  {
    assert t.watch - (t.seen + {d}) == (t.watch - t.seen) - {d};
  }

  lemma LoadComesCloser(s: State, d: nat, c: nat)
    requires WorthWaiting(s, c) && Step(s, Load(d)).Some?
    ensures var n := Step(s, Load(d)).value; WorthWaiting(n, c) && WaitRank(n.waiter, c) < WaitRank(s.waiter, c)
  {
    var t := s.waiter;
    OneLessToLoad(t, d);
    if !s.holds[d] {
      assert Step(s, Load(d)).value == s.(waiter := t.(seen := t.seen + {d}));
      assert c in t.seen + {d} <==> c in t.seen;
    }
  }

  lemma EvaluationEnds(s: State, choice: bool, c: nat)
    requires s.registered && c in s.waiter.watch && WaiterStep(s, choice).Some?
    requires s.waiter.pc.Spin? || s.waiter.pc.Check? || s.waiter.pc.Final?
    ensures WaitRank(WaiterStep(s, choice).value.waiter, c) < WaitRank(s.waiter, c)
  {
    var t := s.waiter;
    AllToLoad(t);
    assert ToLoad(t) == 0 && c in t.seen;
    if t.pc.Spin? { assert WaitRank(t.(seen := {}), c) == |t.watch| + 1; }
  }

  lemma RunComesCloser(s: State, choice: bool, c: nat)
    requires s.registered && c in s.waiter.watch && (s.waiter.pc.AnnFence? ==> s.waiter.seen == {})
    requires WaiterStep(s, choice).Some?
    ensures WaitRank(WaiterStep(s, choice).value.waiter, c) < WaitRank(s.waiter, c)
  {
    var t := s.waiter;
    match t.pc
    case AnnFence =>
      AllToLoad(t.(pc := Check));
      assert WaitRank(t.(pc := Check), c) == |t.watch| + 2;
    case Park =>
      AllToLoad(t.(pc := Check));
      assert WaitRank(t.(pc := Check, seen := {}), c) == |t.watch| + 2;
    case LeaveLate =>
      AllToLoad(t.(pc := Final));
      assert WaitRank(t.(pc := Final, seen := {}), c) == |t.watch| + 2;
    case Announce =>
    case Leave =>
    case _ => EvaluationEnds(s, choice, c);
  }

  lemma RunStaysWorth(s: State, choice: bool, c: nat)
    requires WorthWaiting(s, c) && WaiterStep(s, choice).Some?
    ensures WorthWaiting(WaiterStep(s, choice).value, c)
  {
  }

  lemma WaitComesCloser(s: State, a: Act, c: nat)
    requires WorthWaiting(s, c) && Step(s, a).Some? && WaiterActs(a)
    ensures var n := Step(s, a).value; WorthWaiting(n, c) && WaitRank(n.waiter, c) < WaitRank(s.waiter, c)
  {
    match a
    case Load(d) => LoadComesCloser(s, d, c);
    case RunWaiter(choice) =>
      RunComesCloser(s, choice, c);
      RunStaysWorth(s, choice, c);
    case _ =>
  }

  lemma OthersLetItWait(s: State, a: Act, c: nat)
    requires WorthWaiting(s, c) && !s.waiter.pc.Away? && Step(s, a).Some? && !WaiterActs(a)
    ensures WorthWaiting(Step(s, a).value, c) && Step(s, a).value.waiter == s.waiter
  {
  }

  lemma {:induction false} AwayStays(s: State, acts: seq<Act>)
    requires s.waiter.pc.Away? && NoBegin(acts) && Run(Step, s, acts).Some?
    ensures Run(Step, s, acts).value.waiter.pc.Away?
    decreases |acts|
  {
    if acts != [] { AwayStays(Step(s, acts[0]).value, acts[1..]); }
  }

  /** A wait comes back: once a condition it watches holds, within `WaitRank` of the
      waiter's own steps, whatever the wakers do. */
  lemma {:induction false} WaitComesBack(s: State, acts: seq<Act>, c: nat)
    requires WorthWaiting(s, c) && NoBegin(acts) && Run(Step, s, acts).Some?
    requires Count(acts, WaiterActs) >= WaitRank(s.waiter, c)
    ensures Run(Step, s, acts).value.waiter.pc.Away?
    decreases |acts|
  {
    if s.waiter.pc.Away? {
      AwayStays(s, acts);
    } else {
      if WaiterActs(acts[0]) { WaitComesCloser(s, acts[0], c); } else { OthersLetItWait(s, acts[0], c); }
      WaitComesBack(Step(s, acts[0]).value, acts[1..], c);
    }
  }

  /** The waiter can step as long as it is not blocked: `NoLostWake` and `WakeArrives`
      take over there. */
  lemma WaiterCanMove(s: State, c: nat) returns (a: Act)
    requires WorthWaiting(s, c) && !s.waiter.pc.Away? && !Blocked(s)
    ensures WaiterActs(a) && Step(s, a).Some?
  {
    var t := s.waiter;
    a := RunWaiter(false);
    if (t.pc.Spin? || t.pc.Check? || t.pc.Final?) && t.seen != t.watch {
      assert t.seen + (t.watch - t.seen) == t.watch;
      assert t.watch - t.seen != {};
      var d :| d in t.watch - t.seen;
      a := Load(d);
    }
  }

  // ---- without the fence ----------------------------------------------------

  /** The waiter finds nothing and heads for the park path; the waker's store stays
      in its buffer while its only probe runs. */
  lemma ProbeTooEarly(s: State) returns (acts: seq<Act>, n: State)
    requires Init(s) && !s.fenced && |s.holds| == |s.wakers| == 1 && !s.holds[0]
    ensures Run(Step, s, acts) == Some(n)
    ensures !n.parked && !n.token && !n.fenced && n.waiter == Waiter(Announce, {0}, {0}, false, false)
    ensures n.holds == s.holds && |n.wakers| == 1 && n.wakers[0] == Waker(Quiet, [0])
  {
    acts, n := [], s;
    acts, n := Go(Step, s, acts, n, Register);
    acts, n := Go(Step, s, acts, n, Begin({0}, false));
    acts, n := Go(Step, s, acts, n, Load(0));
    assert n.waiter.seen == {0};
    acts, n := Go(Step, s, acts, n, RunWaiter(false));
    acts, n := Go(Step, s, acts, n, StoreCond(0, 0));
    assert n.wakers[0] == Waker(Storing, [0]);
    acts, n := Go(Step, s, acts, n, CallWake(0));
    acts, n := Go(Step, s, acts, n, RunWaker(0));
  }

  /** The waiter then parks on the old value, and the store arrives. */
  lemma ParkOnStale(s: State) returns (acts: seq<Act>, n: State)
    requires !s.parked && !s.token && s.waiter == Waiter(Announce, {0}, {0}, false, false)
    requires |s.holds| == |s.wakers| == 1 && !s.holds[0] && s.wakers[0] == Waker(Quiet, [0])
    ensures Run(Step, s, acts) == Some(n)
    ensures n.waiter == Waiter(Park, {0}, {0}, false, false) && !n.token
    ensures |n.holds| == |n.wakers| == 1 && n.holds[0] && n.wakers[0] == Waker(Quiet, [])
  {
    acts, n := [], s;
    acts, n := Go(Step, s, acts, n, RunWaiter(false));
    acts, n := Go(Step, s, acts, n, RunWaiter(false));
    acts, n := Go(Step, s, acts, n, Load(0));
    assert n.waiter.seen == {0};
    acts, n := Go(Step, s, acts, n, RunWaiter(false));
    acts, n := Go(Step, s, acts, n, Flush(0));
  }

  /** The same gate whose `wake()` is only the fast probe loses a wake: one waker,
      one condition; blocked, the condition true, every waker done and flushed. */
  lemma UnfencedGateLosesWake(s: State) returns (acts: seq<Act>)
    requires Init(s) && !s.fenced && |s.holds| == |s.wakers| == 1 && !s.holds[0]
    ensures Run(Step, s, acts).Some?
    ensures var n := Run(Step, s, acts).value;
      Blocked(n) && n.waiter.watch == {0} && |n.holds| == |n.wakers| == 1 && n.holds[0] && n.wakers[0].buf == [] && !SomeoneOwes(n)
  {
    var xs, a := ProbeTooEarly(s);
    var ys, b := ParkOnStale(a);
    Compose(Step, s, xs, ys);
    acts := xs + ys;
  }
}
