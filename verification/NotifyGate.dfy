/** The armed-counter gate over `tokio::sync::Notify`: one awaiting task that may
    be cancelled at any suspension, any number of wakers, publishes and wait
    cycles, over a store-buffering memory (x86-TSO).

    `Notify` is its permit: `notify_one` sets it, a suspended task resumes by
    consuming it, and a cancelled task leaves it stored. Conditions are as in the
    parked-flag gate: raised by wakers, lowered only by the waiting side between
    waits, loaded one at a time, each once in an evaluation. */
module NotifyGate {

  import opened Runs

  /** `T3b` is the probing read-modify-write. */
  datatype WakerPc = Quiet | Storing | T3a | T3b | Notify

  datatype Waker = Waker(pc: WakerPc, buf: seq<nat>)

  /** The task inside `wait_until`: first predicate check, arming, the check under
      the guard, the await, and the drop of the guard on each of its three ways out. */
  datatype TaskPc = Away | Entry | Arm | Check | Await | DropReady | DropWoken | DropCancelled | Recheck

  datatype Task = Task(pc: TaskPc, watch: set<nat>, seen: set<nat>, future: nat)

  /** `armed` is the shared counter; `live` is the set of guarded futures that
      exist, the task's own and any that other code created and never awaits.
      `probing` tells the code's gate from one whose `wake()` stops at the load. */
  datatype State = State(probing: bool, holds: seq<bool>, armed: int, permit: bool, live: set<nat>,
                         task: Task, wakers: seq<Waker>)

  datatype Act =
    | StoreCond(w: nat, c: nat)
    | RmwCond(w: nat, c: nat)
    | CallWake(w: nat)
    | RunWaker(w: nat)
    | Flush(w: nat)
    | Consume(c: nat)
    | Begin(watch: set<nat>, future: nat)
    | Load(c: nat)
    | RunTask(choice: bool)
    | Cancel
    | CreateOther(future: nat)
    | DropOther(future: nat)

  ghost predicate Init(s: State)
  {
    && s.armed == 0 && !s.permit && s.live == {}
    && s.task.pc == Away && s.task.watch == s.task.seen == {}
    && forall w :: 0 <= w < |s.wakers| ==> s.wakers[w] == Waker(Quiet, [])
  }

  /** The task owns a guarded future. */
  predicate Guarded(pc: TaskPc)
  {
    pc.Check? || pc.Await? || pc.DropReady? || pc.DropWoken? || pc.DropCancelled?
  }

  function WakerStep(s: State, w: nat): Option<State>
    requires w < |s.wakers|
  {
    var k := s.wakers[w];
    match k.pc
    case T3a =>
      Some(s.(wakers := s.wakers[w := k.(pc := if s.armed != 0 then Notify else if s.probing then T3b else Quiet)]))
    case T3b =>
      if k.buf == [] then Some(s.(wakers := s.wakers[w := k.(pc := if s.armed != 0 then Notify else Quiet)])) else None
    case Notify =>
      if k.buf == [] then Some(s.(permit := true, wakers := s.wakers[w := k.(pc := Quiet)])) else None
    case _ => None
  }

  function TaskStep(s: State, choice: bool): Option<State>
  {
    var t := s.task;
    match t.pc
    case Entry => if t.seen == t.watch then Some(s.(task := t.(pc := Arm))) else None
    case Arm =>
      if t.future in s.live then None
      else Some(s.(armed := s.armed + 1, live := s.live + {t.future}, task := t.(pc := Check, seen := {})))
    case Check => if t.seen == t.watch then Some(s.(task := t.(pc := Await))) else None
    case Await => if s.permit then Some(s.(permit := false, task := t.(pc := DropWoken))) else None
    case DropReady => Some(s.(armed := s.armed - 1, live := s.live - {t.future}, task := t.(pc := Away)))
    case DropWoken =>
      // `wait_until` looks again before paying for re-arming; the loops that arm
      // first go straight back to arming
      Some(s.(armed := s.armed - 1, live := s.live - {t.future}, task := t.(pc := if choice then Recheck else Arm, seen := {})))
    case DropCancelled => Some(s.(armed := s.armed - 1, live := s.live - {t.future}, task := t.(pc := Away)))
    case Recheck => if t.seen == t.watch then Some(s.(task := t.(pc := Arm))) else None
    case _ => None
  }

  function Step(s: State, a: Act): Option<State>
  {
    match a
    case StoreCond(w, c) =>
      if w < |s.wakers| && c < |s.holds| && (s.wakers[w].pc.Quiet? || s.wakers[w].pc.Storing?) then
        Some(s.(wakers := s.wakers[w := Waker(Storing, s.wakers[w].buf + [c])]))
      else None
    case RmwCond(w, c) =>
      if w < |s.wakers| && c < |s.holds| && (s.wakers[w].pc.Quiet? || s.wakers[w].pc.Storing?) && s.wakers[w].buf == [] then
        Some(s.(holds := s.holds[c := true], wakers := s.wakers[w := Waker(Storing, [])]))
      else None
    case CallWake(w) =>
      if w < |s.wakers| && (s.wakers[w].pc.Quiet? || s.wakers[w].pc.Storing?) then
        Some(s.(wakers := s.wakers[w := s.wakers[w].(pc := T3a)]))
      else None
    case RunWaker(w) => if w < |s.wakers| then WakerStep(s, w) else None
    case Flush(w) =>
      if w < |s.wakers| && s.wakers[w].buf != [] && s.wakers[w].buf[0] < |s.holds| then
        Some(s.(holds := s.holds[s.wakers[w].buf[0] := true], wakers := s.wakers[w := s.wakers[w].(buf := s.wakers[w].buf[1..])]))
      else None
    case Consume(c) =>
      if s.task.pc.Away? && c < |s.holds| then Some(s.(holds := s.holds[c := false])) else None
    case Begin(watch, future) =>
      if s.task.pc.Away? && future !in s.live && forall c :: c in watch ==> c < |s.holds| then
        Some(s.(task := Task(Entry, watch, {}, future)))
      else None
    case Load(c) =>
      var t := s.task;
      if c in t.watch - t.seen && c < |s.holds| && (t.pc.Entry? || t.pc.Check? || t.pc.Recheck?) then
        Some(s.(task := if !s.holds[c] then t.(seen := t.seen + {c}) else t.(pc := if t.pc.Check? then DropReady else Away)))
      else None
    case RunTask(choice) => TaskStep(s, choice)
    case Cancel => if s.task.pc.Await? then Some(s.(task := s.task.(pc := DropCancelled))) else None
    case CreateOther(f) =>
      if f in s.live || f == s.task.future then None
      else Some(s.(armed := s.armed + 1, live := s.live + {f}))
    case DropOther(f) =>
      if f !in s.live || f == s.task.future then None
      else Some(s.(armed := s.armed - 1, live := s.live - {f}))
  }

  // ---- invariant --------------------------------------------------------

  predicate Owes(k: Waker)
  {
    !k.pc.Quiet?
  }

  ghost predicate SomeoneOwes(s: State)
  {
    exists w :: 0 <= w < |s.wakers| && Owes(s.wakers[w])
  }

  /** The counter is the number of guarded futures, through every way out. */
  ghost predicate Counts(s: State)
  {
    && s.armed == |s.live|
    && (Guarded(s.task.pc) ==> s.task.future in s.live)
  }

  ghost predicate Inv(s: State)
  {
    && Counts(s)
    && (s.task.pc.Await? ==> s.task.seen == s.task.watch)
    && (forall w :: 0 <= w < |s.wakers| && s.wakers[w].buf != [] ==> Owes(s.wakers[w]))
    && ((s.task.pc.Check? || s.task.pc.Await?) && !s.permit ==>
          forall c :: c in s.task.seen && c < |s.holds| && s.holds[c] ==> SomeoneOwes(s))
  }

  lemma GuardedIsArmed(s: State)
    requires Counts(s) && Guarded(s.task.pc)
    ensures s.armed != 0
  {
    assert |s.live - {s.task.future}| == |s.live| - 1;
  }

  lemma WakerKeepsInv(s: State, w: nat)
    requires s.probing && Inv(s) && w < |s.wakers| && WakerStep(s, w).Some?
    ensures Inv(WakerStep(s, w).value)
  {
    var n := WakerStep(s, w).value;
    if Guarded(s.task.pc) { GuardedIsArmed(s); }
    forall v | 0 <= v < |s.wakers| && v != w && Owes(s.wakers[v])
      ensures SomeoneOwes(n)
    {
      assert Owes(n.wakers[v]);
    }
    if Owes(n.wakers[w]) { assert SomeoneOwes(n); }
  }

  lemma OneLess(live: set<nat>, f: nat)
    requires f in live
    ensures |live - {f}| == |live| - 1
  {
  }

  lemma ArmKeepsCounts(s: State, choice: bool)
    requires Counts(s) && s.task.pc.Arm? && TaskStep(s, choice).Some?
    ensures Counts(TaskStep(s, choice).value)
  {
  }

  lemma DisarmKeepsCounts(s: State, choice: bool)
    requires Counts(s) && (s.task.pc.DropReady? || s.task.pc.DropWoken? || s.task.pc.DropCancelled?)
    requires TaskStep(s, choice).Some?
    ensures Counts(TaskStep(s, choice).value)
  {
    OneLess(s.live, s.task.future);
  }

  lemma TaskKeepsCounts(s: State, choice: bool)
    requires Counts(s) && TaskStep(s, choice).Some?
    ensures Counts(TaskStep(s, choice).value)
  {
    if s.task.pc.Arm? {
      ArmKeepsCounts(s, choice);
    } else if s.task.pc.DropReady? || s.task.pc.DropWoken? || s.task.pc.DropCancelled? {
      DisarmKeepsCounts(s, choice);
    }
  }

  lemma OtherKeepsCounts(s: State, a: Act)
    requires Counts(s) && (a.CreateOther? || a.DropOther?) && Step(s, a).Some?
    ensures Counts(Step(s, a).value)
  {
    if a.DropOther? { OneLess(s.live, a.future); }
  }

  lemma SameLiveSameCounts(s: State, n: State)
    requires Counts(s) && n.live == s.live && n.armed == s.armed && n.task.future == s.task.future
    requires Guarded(n.task.pc) ==> Guarded(s.task.pc)
    ensures Counts(n)
  {
  }

  /** Creating and dropping futures keeps the count; it does not touch the wakers. */
  lemma CountsKept(s: State, a: Act)
    requires Counts(s) && Step(s, a).Some?
    ensures Counts(Step(s, a).value)
  {
    if a.RunTask? {
      TaskKeepsCounts(s, a.choice);
    } else if a.CreateOther? || a.DropOther? {
      OtherKeepsCounts(s, a);
    } else if !a.Begin? {
      SameLiveSameCounts(s, Step(s, a).value);
    }
  }

  lemma StoresKeepInv(s: State, a: Act)
    requires s.probing && Inv(s) && Step(s, a).Some? && (a.StoreCond? || a.RmwCond? || a.CallWake? || a.Flush?)
    ensures Step(s, a).value.probing && Inv(Step(s, a).value)
  {
    CountsKept(s, a);
    assert Owes(Step(s, a).value.wakers[a.w]);
  }

  lemma TaskKeepsInv(s: State, a: Act)
    requires s.probing && Inv(s) && Step(s, a).Some? && (a.RunTask? || a.Load? || a.Begin? || a.Cancel?)
    ensures Step(s, a).value.probing && Inv(Step(s, a).value)
  {
    CountsKept(s, a);
    assert Step(s, a).value.wakers == s.wakers && Step(s, a).value.holds == s.holds;
  }

  lemma StepKeepsInv(s: State, a: Act)
    requires s.probing && Inv(s) && Step(s, a).Some?
    ensures Step(s, a).value.probing && Inv(Step(s, a).value)
  {
    if a.RunWaker? {
      WakerKeepsInv(s, a.w);
    } else if a.StoreCond? || a.RmwCond? || a.CallWake? || a.Flush? {
      StoresKeepInv(s, a);
    } else if a.RunTask? || a.Load? || a.Begin? || a.Cancel? {
      TaskKeepsInv(s, a);
    } else {
      CountsKept(s, a);
      assert Step(s, a).value.wakers == s.wakers;
    }
  }

  lemma {:induction false} RunKeepsInv(s: State, acts: seq<Act>)
    requires s.probing && Inv(s) && Run(Step, s, acts).Some?
    ensures Inv(Run(Step, s, acts).value)
    decreases |acts|
  {
    if acts != [] {
      StepKeepsInv(s, acts[0]);
      RunKeepsInv(Step(s, acts[0]).value, acts[1..]);
    }
  }

  /** The task is suspended and nothing will resume it yet. */
  predicate Suspended(s: State)
  {
    s.task.pc.Await? && !s.permit
  }

  ghost predicate WorkIssued(s: State)
  {
    || (exists c :: c in s.task.watch && c < |s.holds| && s.holds[c])
    || (exists w, j :: 0 <= w < |s.wakers| && 0 <= j < |s.wakers[w].buf| && s.wakers[w].buf[j] in s.task.watch)
  }

  /** No wake is lost, under any cancellations: a suspended task without a permit
      whose predicate has been made true is owed a notification. */
  lemma NoLostWake(s: State, acts: seq<Act>)
    requires s.probing && Init(s) && Run(Step, s, acts).Some?
    requires Suspended(Run(Step, s, acts).value) && WorkIssued(Run(Step, s, acts).value)
    ensures SomeoneOwes(Run(Step, s, acts).value)
  {
    RunKeepsInv(s, acts);
    var n := Run(Step, s, acts).value;
    if w, j :| 0 <= w < |n.wakers| && 0 <= j < |n.wakers[w].buf| && n.wakers[w].buf[j] in n.task.watch {
      assert Owes(n.wakers[w]);
    }
  }

  /** The counter is exact in every state of every run; away from `wait_until`,
      however it was left, only other code's futures are counted. */
  lemma ArmedCountsLiveFutures(s: State, acts: seq<Act>)
    requires s.probing && Init(s) && Run(Step, s, acts).Some?
    ensures var n := Run(Step, s, acts).value;
      && n.armed == |n.live|
      && (Guarded(n.task.pc) ==> n.armed > 0)
      && (n.live == {} ==> n.armed == 0 && !Guarded(n.task.pc))
  {
    RunKeepsInv(s, acts);
    var n := Run(Step, s, acts).value;
    if Guarded(n.task.pc) { GuardedIsArmed(n); }
  }

  /** With no other futures, leaving by return, wake-up or cancellation disarms. */
  lemma {:induction false} SoleTaskDisarms(s: State, acts: seq<Act>)
    requires s.probing && Inv(s) && Run(Step, s, acts).Some?
    requires s.live == if Guarded(s.task.pc) then {s.task.future} else {}
    requires forall i :: 0 <= i < |acts| ==> !acts[i].CreateOther?
    ensures var n := Run(Step, s, acts).value; n.armed == if Guarded(n.task.pc) then 1 else 0
    decreases |acts|
  {
    if acts != [] {
      StepKeepsInv(s, acts[0]);
      var n := Step(s, acts[0]).value;
      assert n.live == if Guarded(n.task.pc) then {n.task.future} else {};
      SoleTaskDisarms(n, acts[1..]);
    }
  }

  function Rank(pc: WakerPc): nat
  {
    match pc case T3a => 3 case T3b => 2 case Notify => 1 case _ => 0
  }

  function OwnSteps(acts: seq<Act>, w: nat): nat
  {
    if acts == [] then 0 else (if acts[0] == RunWaker(w) then 1 else 0) + OwnSteps(acts[1..], w)
  }

  predicate WakersOnly(acts: seq<Act>)
  {
    forall i :: 0 <= i < |acts| ==>
      acts[i].StoreCond? || acts[i].RmwCond? || acts[i].CallWake? || acts[i].RunWaker? || acts[i].Flush?
  }

  lemma {:induction false} PermitStays(s: State, acts: seq<Act>)
    requires WakersOnly(acts) && Run(Step, s, acts).Some? && s.permit
    ensures Run(Step, s, acts).value.permit
    decreases |acts|
  {
    if acts != [] { PermitStays(Step(s, acts[0]).value, acts[1..]); }
  }

  /** While the task stays suspended, any waker inside `wake()` sets the permit
      within three of its own steps. */
  lemma {:induction false} WakeArrives(s: State, acts: seq<Act>, w: nat)
    requires s.probing && Inv(s) && Suspended(s) && w < |s.wakers| && 0 < Rank(s.wakers[w].pc)
    requires WakersOnly(acts) && Run(Step, s, acts).Some? && OwnSteps(acts, w) >= Rank(s.wakers[w].pc)
    ensures Rank(s.wakers[w].pc) <= 3 && Run(Step, s, acts).value.permit
    decreases |acts|
  {
    var n := Step(s, acts[0]).value;
    StepKeepsInv(s, acts[0]);
    GuardedIsArmed(s);
    if n.permit { PermitStays(n, acts[1..]); } else { WakeArrives(n, acts[1..], w); }
  }

  // ---- what is issued arrives -------------------------------------------------------

  ghost function FlushesOf(w: nat): Act -> bool
  {
    a => a == Flush(w)
  }

  lemma TrueStaysOne(s: State, a: Act, c: nat)
    requires c < |s.holds| && s.holds[c] && a != Consume(c) && Step(s, a).Some?
    ensures c < |Step(s, a).value.holds| && Step(s, a).value.holds[c]
  {
  }

  lemma {:induction false} TrueStays(s: State, acts: seq<Act>, c: nat)
    requires c < |s.holds| && s.holds[c] && Consume(c) !in acts && Run(Step, s, acts).Some?
    ensures c < |Run(Step, s, acts).value.holds| && Run(Step, s, acts).value.holds[c]
    decreases |acts|
  {
    if acts != [] {
      TrueStaysOne(s, acts[0], c);
      TrueStays(Step(s, acts[0]).value, acts[1..], c);
    }
  }

  /** The store of `c` stands at place `i` of the buffer of `w`. */
  predicate Pending(s: State, w: nat, c: nat, i: nat)
  {
    w < |s.wakers| && c < |s.holds| && i < |s.wakers[w].buf| && s.wakers[w].buf[i] == c
  }

  lemma PendingMovesUp(s: State, a: Act, w: nat, c: nat, i: nat)
    requires Pending(s, w, c, i) && Step(s, a).Some?
    ensures var n := Step(s, a).value;
      if a != Flush(w) then Pending(n, w, c, i)
      else if i > 0 then Pending(n, w, c, i - 1)
      else c < |n.holds| && n.holds[c]
  {
  }

  /** A store at place `i` has arrived after `i + 1` flushes. */
  lemma {:induction false} StoreArrives(s: State, acts: seq<Act>, w: nat, c: nat, i: nat)
    requires Pending(s, w, c, i)
    requires Consume(c) !in acts && Run(Step, s, acts).Some? && Count(acts, FlushesOf(w)) > i
    ensures c < |Run(Step, s, acts).value.holds| && Run(Step, s, acts).value.holds[c]
    decreases |acts|
  {
    var n := Step(s, acts[0]).value;
    PendingMovesUp(s, acts[0], w, c, i);
    if acts[0] != Flush(w) { StoreArrives(n, acts[1..], w, c, i); }
    else if i > 0 { StoreArrives(n, acts[1..], w, c, i - 1); }
    else { TrueStays(n, acts[1..], c); }
  }

  /** A condition that a waker issues is true once its stores up to that one are flushed,
      or at once if it was a read-modify-write, and stays so until it is consumed. */
  lemma IssueArrives(s: State, w: nat, c: nat, rmw: bool, acts: seq<Act>)
    requires w < |s.wakers| && c < |s.holds| && (s.wakers[w].pc.Quiet? || s.wakers[w].pc.Storing?)
    requires rmw ==> s.wakers[w].buf == []
    requires var b := Step(s, if rmw then RmwCond(w, c) else StoreCond(w, c)).value;
      Consume(c) !in acts && Run(Step, b, acts).Some? && (rmw || Count(acts, FlushesOf(w)) > |s.wakers[w].buf|)
    ensures var n := Run(Step, Step(s, if rmw then RmwCond(w, c) else StoreCond(w, c)).value, acts).value;
      c < |n.holds| && n.holds[c]
  {
    var b := Step(s, if rmw then RmwCond(w, c) else StoreCond(w, c)).value;
    if rmw { TrueStays(b, acts, c); } else { StoreArrives(b, acts, w, c, |s.wakers[w].buf|); }
  }

  // ---- what a wait returns ----------------------------------------------------------

  predicate NoBegin(acts: seq<Act>)
  {
    forall i :: 0 <= i < |acts| ==> !acts[i].Begin?
  }

  ghost predicate SeesTrue(watch: set<nat>, s: State, a: Act)
  {
    a.Load? && a.c in watch && a.c < |s.holds| && s.holds[a.c]
  }

  ghost function Sees(watch: set<nat>): (State, Act) -> bool
  {
    (s, a) => SeesTrue(watch, s, a)
  }

  ghost predicate IsCancelled(s: State, a: Act)
  {
    a.Cancel?
  }

  predicate TaskActs(a: Act)
  {
    a.Load? || a.RunTask? || a.Cancel?
  }

  lemma OthersLeaveTask(s: State, a: Act)
    requires Step(s, a).Some? && !a.Begin? && !TaskActs(a)
    ensures Step(s, a).value.task == s.task
  {
  }

  /** How far a wait has come; `saw` and `cancelled` say what has happened in it. */
  ghost predicate Episode(watch: set<nat>, saw: bool, cancelled: bool, s: State)
  {
    var pc := s.task.pc;
    && s.task.watch == watch
    && (pc.Away? ==> saw != cancelled)
    && (if pc.DropReady? then saw else saw ==> pc.Away?)
    && (if pc.DropCancelled? then cancelled else cancelled ==> pc.Away?)
  }

  lemma OwnStepKeepsEpisode(watch: set<nat>, saw: bool, cancelled: bool, s: State, a: Act)
    requires Episode(watch, saw, cancelled, s) && Step(s, a).Some? && TaskActs(a)
    ensures Episode(watch, saw || SeesTrue(watch, s, a), cancelled || IsCancelled(s, a), Step(s, a).value)
  {
  }

  lemma {:induction false} RunKeepsEpisode(watch: set<nat>, saw: bool, cancelled: bool, s: State, acts: seq<Act>)
    requires Episode(watch, saw, cancelled, s) && Run(Step, s, acts).Some? && NoBegin(acts)
    ensures Episode(watch, saw || Happens(Step, s, acts, Sees(watch)), cancelled || Happens(Step, s, acts, IsCancelled),
                    Run(Step, s, acts).value)
    decreases |acts|
  {
    if acts != [] {
      if TaskActs(acts[0]) { OwnStepKeepsEpisode(watch, saw, cancelled, s, acts[0]); }
      else { OthersLeaveTask(s, acts[0]); }
      RunKeepsEpisode(watch, saw || SeesTrue(watch, s, acts[0]), cancelled || IsCancelled(s, acts[0]),
                      Step(s, acts[0]).value, acts[1..]);
    }
  }

  /** A wait that has come back has seen a condition it watches to be true, at a load of
      its own, exactly if its future was not dropped. */
  lemma WaitReturns(s: State, watch: set<nat>, future: nat, acts: seq<Act>)
    requires s.task.pc.Away? && future !in s.live && (forall c :: c in watch ==> c < |s.holds|) && NoBegin(acts)
    requires Run(Step, Step(s, Begin(watch, future)).value, acts).Some?
    requires Run(Step, Step(s, Begin(watch, future)).value, acts).value.task.pc.Away?
    ensures var b := Step(s, Begin(watch, future)).value;
      Happens(Step, b, acts, Sees(watch)) <==> !Happens(Step, b, acts, IsCancelled)
  {
    RunKeepsEpisode(watch, false, false, Step(s, Begin(watch, future)).value, acts);
  }

  /** What every state of every wait has: an evaluation is of what is watched, and the
      future to arm is a new one. */
  ghost predicate Evaluates(s: State)
  {
    && s.task.seen <= s.task.watch
    && (forall d :: d in s.task.watch ==> d < |s.holds|)
    && (!Guarded(s.task.pc) && !s.task.pc.Away? ==> s.task.future !in s.live)
  }

  lemma StepEvaluates(s: State, a: Act)
    requires Evaluates(s) && Step(s, a).Some?
    ensures Evaluates(Step(s, a).value)
  {
  }

  lemma {:induction false} RunEvaluates(s: State, acts: seq<Act>)
    requires (Init(s) || Evaluates(s)) && Run(Step, s, acts).Some?
    ensures Evaluates(Run(Step, s, acts).value)
    decreases |acts|
  {
    if acts != [] {
      StepEvaluates(s, acts[0]);
      RunEvaluates(Step(s, acts[0]).value, acts[1..]);
    }
  }

  /** The task is in a wait for which condition `c` holds. */
  ghost predicate WorthWaiting(s: State, c: nat)
  {
    Evaluates(s) && c in s.task.watch && s.holds[c]
  }

  /** How many conditions an evaluation has left to load. */
  function ToLoad(t: Task): nat
  {
    |t.watch - t.seen|
  }

  lemma AllToLoad(t: Task)
    ensures ToLoad(t.(seen := {})) == |t.watch| && (t.seen == t.watch ==> ToLoad(t) == 0)
  {
    assert t.watch - {} == t.watch;
    if t.seen == t.watch { assert t.watch - t.seen == {}; }
  }

  lemma OneLessToLoad(t: Task, d: nat)
    requires d in t.watch - t.seen
    ensures ToLoad(t.(seen := t.seen + {d})) == ToLoad(t) - 1
  {
    assert t.watch - (t.seen + {d}) == (t.watch - t.seen) - {d};
  }

  /** A bound on the task's steps to the end of the wait. */
  ghost function WaitRank(t: Task, c: nat): nat
  {
    var k, w := ToLoad(t), |t.watch|;
    match t.pc
    case Entry => if c in t.seen then k + w + 4 else k + 1
    case Arm => w + 3
    case Check => if c in t.seen then k + w + 7 else k + 2
    case Await => w + 6
    case DropWoken => w + 5
    case Recheck => if c in t.seen then k + w + 4 else k + 1
    case Away => 0
    case _ => 1
  }

  lemma LoadComesCloser(s: State, d: nat, c: nat)
    requires WorthWaiting(s, c) && Step(s, Load(d)).Some?
    ensures var n := Step(s, Load(d)).value; WorthWaiting(n, c) && WaitRank(n.task, c) < WaitRank(s.task, c)
  {
    var t := s.task;
    OneLessToLoad(t, d);
    if !s.holds[d] {
      assert Step(s, Load(d)).value == s.(task := t.(seen := t.seen + {d}));
      assert c in t.seen + {d} <==> c in t.seen;
    }
  }

  lemma RunComesCloser(s: State, choice: bool, c: nat)
    requires WorthWaiting(s, c) && TaskStep(s, choice).Some?
    ensures WaitRank(TaskStep(s, choice).value.task, c) < WaitRank(s.task, c)
  {
    var t := s.task;
    AllToLoad(t);
    match t.pc
    case Arm => assert WaitRank(t.(pc := Check, seen := {}), c) == |t.watch| + 2;
    case DropWoken => assert WaitRank(t.(pc := Recheck, seen := {}), c) == |t.watch| + 1;
    case _ =>
  }

  lemma RunStaysWorth(s: State, choice: bool, c: nat)
    requires WorthWaiting(s, c) && TaskStep(s, choice).Some?
    ensures WorthWaiting(TaskStep(s, choice).value, c)
  {
  }

  lemma WaitComesCloser(s: State, a: Act, c: nat)
    requires WorthWaiting(s, c) && Step(s, a).Some? && TaskActs(a)
    ensures var n := Step(s, a).value; WorthWaiting(n, c) && WaitRank(n.task, c) < WaitRank(s.task, c)
  {
    match a
    case Load(d) => LoadComesCloser(s, d, c);
    case RunTask(choice) =>
      RunComesCloser(s, choice, c);
      RunStaysWorth(s, choice, c);
    case _ =>
  }

  lemma OthersLetItWait(s: State, a: Act, c: nat)
    requires WorthWaiting(s, c) && !s.task.pc.Away? && Step(s, a).Some? && !TaskActs(a)
    ensures WorthWaiting(Step(s, a).value, c) && Step(s, a).value.task == s.task
  {
  }

  lemma {:induction false} AwayStays(s: State, acts: seq<Act>)
    requires s.task.pc.Away? && NoBegin(acts) && Run(Step, s, acts).Some?
    ensures Run(Step, s, acts).value.task.pc.Away?
    decreases |acts|
  {
    if acts != [] { AwayStays(Step(s, acts[0]).value, acts[1..]); }
  }

  /** A wait comes back: once a condition it watches holds, within `WaitRank` of the
      task's own steps, whatever the wakers and other futures do. */
  lemma {:induction false} WaitComesBack(s: State, acts: seq<Act>, c: nat)
    requires WorthWaiting(s, c) && NoBegin(acts) && Run(Step, s, acts).Some?
    requires Count(acts, TaskActs) >= WaitRank(s.task, c)
    ensures Run(Step, s, acts).value.task.pc.Away?
    decreases |acts|
  {
    if s.task.pc.Away? {
      AwayStays(s, acts);
    } else {
      if TaskActs(acts[0]) { WaitComesCloser(s, acts[0], c); } else { OthersLetItWait(s, acts[0], c); }
      WaitComesBack(Step(s, acts[0]).value, acts[1..], c);
    }
  }

  /** The task can step as long as it is not suspended without a permit. */
  lemma TaskCanMove(s: State, c: nat) returns (a: Act)
    requires WorthWaiting(s, c) && !s.task.pc.Away? && !Suspended(s)
    ensures TaskActs(a) && Step(s, a).Some?
  {
    var t := s.task;
    a := RunTask(false);
    if (t.pc.Entry? || t.pc.Check? || t.pc.Recheck?) && t.seen != t.watch {
      assert t.seen + (t.watch - t.seen) == t.watch;
      assert t.watch - t.seen != {};
      var d :| d in t.watch - t.seen;
      a := Load(d);
    }
  }

  // ---- without the probing read-modify-write ---------------------------------

  /** The waker's side: its load finds nobody armed while its store is buffered. */
  lemma WakerLooksEarly(s: State) returns (acts: seq<Act>, n: State)
    requires Init(s) && !s.probing && |s.holds| == |s.wakers| == 1 && !s.holds[0]
    ensures Run(Step, s, acts) == Some(n)
    ensures n == s.(wakers := [Waker(Quiet, [0])])
  {
    acts, n := [], s;
    acts, n := Go(Step, s, acts, n, StoreCond(0, 0));
    assert n.wakers[0] == Waker(Storing, [0]);
    acts, n := Go(Step, s, acts, n, CallWake(0));
    acts, n := Go(Step, s, acts, n, RunWaker(0));
  }

  /** The task's side: it suspends, and then the store lands. */
  lemma TaskSuspends(s: State) returns (acts: seq<Act>, n: State)
    requires s.task.pc.Away? && s.live == {} && |s.holds| == 1 && !s.holds[0] && s.wakers == [Waker(Quiet, [0])] && !s.permit
    ensures Run(Step, s, acts) == Some(n)
    ensures Suspended(n) && n.task.watch == {0} && |n.holds| == |n.wakers| == 1 && n.holds[0]
    ensures n.wakers[0] == Waker(Quiet, [])
  {
    acts, n := [], s;
    acts, n := Go(Step, s, acts, n, Begin({0}, 0));
    acts, n := Go(Step, s, acts, n, Load(0));
    assert n.task.seen == {0};
    acts, n := Go(Step, s, acts, n, RunTask(false));
    acts, n := Go(Step, s, acts, n, RunTask(false));
    acts, n := Go(Step, s, acts, n, Load(0));
    assert n.task.seen == {0};
    acts, n := Go(Step, s, acts, n, RunTask(false));
    acts, n := Go(Step, s, acts, n, Flush(0));
  }

  /** A `wake()` that trusted its plain load would lose the wake: the load runs
      while the published store is still in the buffer. */
  lemma LoadOnlyGateLosesWake(s: State) returns (acts: seq<Act>, n: State)
    requires Init(s) && !s.probing && |s.holds| == |s.wakers| == 1 && !s.holds[0]
    ensures Run(Step, s, acts) == Some(n)
    ensures Suspended(n) && n.task.watch == {0} && |n.holds| == |n.wakers| == 1 && n.holds[0]
    ensures n.wakers[0].buf == [] && !SomeoneOwes(n)
  {
    var xs, a := WakerLooksEarly(s);
    var ys;
    ys, n := TaskSuspends(a);
    Compose(Step, s, xs, ys);
    acts := xs + ys;
  }
}
