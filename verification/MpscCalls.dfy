/** What the receives of the fan-in return, over every run: `recv` takes one published
    item, `recv_batch` some, or the channel is over and nothing was taken; and both come
    back once an item shows, the flag is up, or every producer is gone and everything
    taken. */
module MpscCalls {
  import opened MpscFanIn
  import opened Runs

  /** No new call of the consumer begins. */
  predicate NoRecv(acts: seq<Act>)
  {
    forall i :: 0 <= i < |acts| ==> !acts[i].Recv?
  }

  predicate Returned(c: Cons)
  {
    c.pc.Idle? || c.pc.Ended?
  }

  // ---- what a call did ------------------------------------------------------------

  /** One item more has been taken, from ring `i`. */
  ghost predicate TakenAt(before: seq<nat>, now: seq<nat>, i: nat)
  {
    i < |before| && now == before[i := before[i] + 1]
  }

  /** ... from a ring below `below`. */
  ghost predicate OneTaken(before: seq<nat>, now: seq<nat>, below: nat)
  {
    exists i: nat :: i < below && TakenAt(before, now, i)
  }

  ghost predicate SomeTaken(before: seq<nat>, now: seq<nat>)
  {
    |now| == |before| && now != before && forall j :: 0 <= j < |now| ==> before[j] <= now[j]
  }

  /** The records that a call keeps. */
  predicate Proper(s: State)
  {
    var c := s.cons;
    && |c.tails| == |s.heads|
    && (c.progress ==> c.got)
    && (c.got ==> c.batch && c.phase.Call? && (c.pc.Scan? || c.pc.Idle?))
    && (c.pc.Announce? || c.pc.AnnFence? ==> c.phase.Spin?)
    && (c.pc.Park? || c.pc.Leave? ==> c.phase.Parked?)
    && (c.pc.Scan? || c.pc.Rescan? ==> c.pc.ring <= |s.heads|)
  }

  /** How far a call that began when `before` had been taken has come. */
  ghost predicate Calling(before: seq<nat>, batch: bool, s: State)
  {
    var c := s.cons;
    && Proper(s) && c.batch == batch
    && match c.pc
       case Idle => if batch then SomeTaken(before, c.tails) else OneTaken(before, c.tails, |before|)
       case Scan(_) => if c.got then SomeTaken(before, c.tails) else c.tails == before
       case _ => c.tails == before
  }

  lemma ConsumerKeepsCalling(before: seq<nat>, batch: bool, s: State, choice: bool)
    requires Inv(s) && Calling(before, batch, s) && ConsumerStep(s, choice).Some?
    ensures Calling(before, batch, ConsumerStep(s, choice).value)
  {
    match s.cons.pc
    case Scan(i) =>
      if i < |s.heads| { ScanKeepsCalling(before, batch, s, choice); }
      else { PassKeepsCalling(before, batch, s, choice); }
    case Shut => LooksKeepCalling(before, batch, s, choice);
    case Live => LooksKeepCalling(before, batch, s, choice);
    case Rescan(_) => LooksKeepCalling(before, batch, s, choice);
    case _ => WaitKeepsCalling(before, batch, s, choice);
  }

  lemma PassKeepsCalling(before: seq<nat>, batch: bool, s: State, choice: bool)
    requires Calling(before, batch, s) && s.cons.pc.Scan? && s.cons.pc.ring >= |s.heads|
    ensures Calling(before, batch, ConsumerStep(s, choice).value)
  {
  }

  lemma LooksKeepCalling(before: seq<nat>, batch: bool, s: State, choice: bool)
    requires Calling(before, batch, s) && (s.cons.pc.Shut? || s.cons.pc.Live? || s.cons.pc.Rescan?)
    ensures Calling(before, batch, ConsumerStep(s, choice).value)
  {
    VerdictKeepsCalling(before, batch, s, choice);
  }

  /** However an evaluation comes out, nothing has been taken. */
  lemma VerdictKeepsCalling(before: seq<nat>, batch: bool, s: State, choice: bool)
    requires Calling(before, batch, s) && (s.cons.pc.Shut? || s.cons.pc.Live? || s.cons.pc.Rescan?)
    ensures Calling(before, batch, s.(cons := NotReady(s.cons, choice)))
    ensures Calling(before, batch, s.(cons := Return(s.cons)))
  {
  }

  lemma WaitKeepsCalling(before: seq<nat>, batch: bool, s: State, choice: bool)
    requires Calling(before, batch, s) && ConsumerStep(s, choice).Some?
    requires s.cons.pc.Announce? || s.cons.pc.AnnFence? || s.cons.pc.Park? || s.cons.pc.Leave?
    ensures Calling(before, batch, ConsumerStep(s, choice).value)
  {
  }

  lemma ScanKeepsCalling(before: seq<nat>, batch: bool, s: State, choice: bool)
    requires Inv(s) && Calling(before, batch, s) && s.cons.pc.Scan? && s.cons.pc.ring < |s.heads|
    ensures Calling(before, batch, ConsumerStep(s, choice).value)
  {
    var i := s.cons.pc.ring;
    if s.heads[i] != s.cons.tails[i] && s.cons.phase.Call? {
      if batch { BatchTakes(before, s); } else { RecvTakes(before, s); }
    }
  }

  lemma RecvTakes(before: seq<nat>, s: State)
    requires Calling(before, false, s) && s.cons.pc.Scan? && s.cons.pc.ring < |s.heads| && s.cons.phase.Call?
    ensures var c := s.cons;
      Calling(before, false, s.(cons := c.(pc := Idle, tails := c.tails[c.pc.ring := c.tails[c.pc.ring] + 1])))
  {
    var i := s.cons.pc.ring;
    assert TakenAt(before, before[i := before[i] + 1], i);
  }

  lemma BatchTakes(before: seq<nat>, s: State)
    requires Calling(before, true, s) && s.cons.pc.Scan? && s.cons.pc.ring < |s.heads| && s.cons.phase.Call?
    requires s.cons.tails[s.cons.pc.ring] < s.heads[s.cons.pc.ring]
    ensures var c, i := s.cons, s.cons.pc.ring;
      Calling(before, true, s.(cons := c.(pc := Scan(i + 1), tails := c.tails[i := s.heads[i]], progress := true, got := true)))
  {
    TakeIsSome(before, s.cons.tails, s.cons.pc.ring, s.heads[s.cons.pc.ring]);
  }

  lemma TakeIsSome(before: seq<nat>, tails: seq<nat>, i: nat, h: nat)
    requires (tails == before || SomeTaken(before, tails)) && i < |tails| && tails[i] < h
    ensures SomeTaken(before, tails[i := h])
  {
    assert before[i] < tails[i := h][i];
  }

  /** Nobody else moves the call; heads only grow. */
  lemma OthersLeaveConsumer(s: State, a: Act)
    requires Inv(s) && Step(s, a).Some? && !a.RunConsumer? && !a.Recv?
    ensures var n := Step(s, a).value;
      && n.cons == s.cons && |n.heads| == |s.heads| && (s.shutdown ==> n.shutdown)
      && (forall j :: 0 <= j < |s.heads| ==> s.heads[j] <= n.heads[j])
      && (!a.FlushProducer? ==> n.heads == s.heads)
  {
    match a
    case RunProducer(_) => WakesLeaveConsumer(s, a);
    case RunSignal(_) => WakesLeaveConsumer(s, a);
    case _ =>
  }

  lemma WakesLeaveConsumer(s: State, a: Act)
    requires (a.RunProducer? || a.RunSignal?) && Step(s, a).Some?
    ensures var n := Step(s, a).value;
      n.cons == s.cons && n.heads == s.heads && n.shutdown == s.shutdown && n.live == s.live
  {
  }

  lemma ActKeepsCalling(before: seq<nat>, batch: bool, s: State, a: Act)
    requires Inv(s) && Calling(before, batch, s) && Step(s, a).Some? && !a.Recv?
    ensures Inv(Step(s, a).value) && Calling(before, batch, Step(s, a).value)
  {
    StepKeepsInv(s, a);
    if a.RunConsumer? { ConsumerKeepsCalling(before, batch, s, a.choice); } else { OthersLeaveConsumer(s, a); }
  }

  lemma {:induction false} RunKeepsCalling(before: seq<nat>, batch: bool, s: State, acts: seq<Act>)
    requires Inv(s) && Calling(before, batch, s) && Run(Step, s, acts).Some? && NoRecv(acts)
    ensures Inv(Run(Step, s, acts).value) && Calling(before, batch, Run(Step, s, acts).value)
    decreases |acts|
  {
    if acts != [] {
      ActKeepsCalling(before, batch, s, acts[0]);
      RunKeepsCalling(before, batch, Step(s, acts[0]).value, acts[1..]);
    }
  }

  /** A call that has returned took published items, one for a `recv`; or the channel is
      over, by the flag or with everything taken, and it took nothing. */
  lemma RecvReturns(s: State, batch: bool, acts: seq<Act>)
    requires Inv(s) && Returned(s.cons) && NoRecv(acts)
    requires Run(Step, Step(s, Recv(batch)).value, acts).Some?
    requires Returned(Run(Step, Step(s, Recv(batch)).value, acts).value.cons)
    ensures var n := Run(Step, Step(s, Recv(batch)).value, acts).value;
      && |n.cons.tails| == |n.heads| == |n.prods| && (forall j :: 0 <= j < |n.heads| ==> n.cons.tails[j] <= n.heads[j])
      && match n.cons.pc
         case Ended(drained) =>
           && n.cons.tails == s.cons.tails
           && if drained then n.live == 0 && forall j :: 0 <= j < |n.prods| ==> n.prods[j].head == n.cons.tails[j]
              else n.shutdown
         case _ =>
           if batch then SomeTaken(s.cons.tails, n.cons.tails) else OneTaken(s.cons.tails, n.cons.tails, |n.heads|)
  {
    var b := Step(s, Recv(batch)).value;
    StepKeepsInv(s, Recv(batch));
    RunKeepsCalling(s.cons.tails, batch, b, acts);
  }

  // ---- a batch comes back only with nothing left in sight ----------------------------

  /** This act takes something out of a ring. */
  predicate Takes(s: State, a: Act)
  {
    var c := s.cons;
    && a.RunConsumer? && c.pc.Scan? && c.phase.Call? && c.pc.ring < |s.heads| && c.pc.ring < |c.tails|
    && s.heads[c.pc.ring] != c.tails[c.pc.ring]
  }

  /** The consumer looks at ring `q` and finds nothing there. */
  ghost predicate FindsEmpty(q: nat, s: State, a: Act)
  {
    a.RunConsumer? && s.cons.pc == Scan(q) && q < |s.heads| == |s.cons.tails| && s.heads[q] == s.cons.tails[q]
  }

  ghost function Empty(q: nat): (State, Act) -> bool
  {
    (s, a) => FindsEmpty(q, s, a)
  }

  /** `since` says that ring `q` was found empty and nothing was taken after that. */
  ghost predicate Swept(q: nat, since: bool, s: State)
  {
    var c := s.cons;
    && Proper(s) && q < |s.heads| && c.batch
    && (c.pc.Scan? && c.phase.Call? && !c.progress && q < c.pc.ring ==> since)
    && (c.pc.Idle? ==> since)
  }

  lemma StepKeepsSwept(q: nat, since: bool, s: State, a: Act)
    requires Inv(s) && Swept(q, since, s) && Step(s, a).Some? && !a.Recv? && Proper(Step(s, a).value)
    ensures Swept(q, FindsEmpty(q, s, a) || (since && !Takes(s, a)), Step(s, a).value)
  {
    if a.RunConsumer? {
      if s.cons.pc.Scan? { ScanKeepsSwept(q, since, s, a.choice); } else { LookKeepsSwept(q, since, s, a.choice); }
    } else {
      OthersLeaveConsumer(s, a);
    }
  }

  lemma ScanKeepsSwept(q: nat, since: bool, s: State, choice: bool)
    requires Swept(q, since, s) && s.cons.pc.Scan?
    requires ConsumerStep(s, choice).Some? && Proper(ConsumerStep(s, choice).value)
    ensures Swept(q, FindsEmpty(q, s, RunConsumer(choice)) || (since && !Takes(s, RunConsumer(choice))),
                  ConsumerStep(s, choice).value)
  {
  }

  lemma LookKeepsSwept(q: nat, since: bool, s: State, choice: bool)
    requires Swept(q, since, s) && !s.cons.pc.Scan?
    requires ConsumerStep(s, choice).Some? && Proper(ConsumerStep(s, choice).value)
    ensures Swept(q, since, ConsumerStep(s, choice).value)
  {
    VerdictKeepsSwept(s.cons, choice);
  }

  lemma VerdictKeepsSwept(c: Cons, choice: bool)
    ensures NotReady(c, choice).batch == c.batch && !NotReady(c, choice).pc.Idle?
    ensures NotReady(c, choice).pc.Scan? ==> NotReady(c, choice).pc.ring == 0
    ensures Return(c).batch == c.batch && !Return(c).pc.Idle? && (Return(c).pc.Scan? ==> Return(c).pc.ring == 0)
  {
  }

  lemma {:induction false} RunKeepsSwept(before: seq<nat>, q: nat, since: bool, s: State, acts: seq<Act>)
    requires Inv(s) && Calling(before, true, s) && Swept(q, since, s) && Run(Step, s, acts).Some? && NoRecv(acts)
    ensures Swept(q, Since(Step, s, acts, Empty(q), Takes) || (since && !Happens(Step, s, acts, Takes)),
                  Run(Step, s, acts).value)
    decreases |acts|
  {
    if acts != [] {
      var n := Step(s, acts[0]).value;
      ActKeepsCalling(before, true, s, acts[0]);
      StepKeepsSwept(q, since, s, acts[0]);
      RunKeepsSwept(before, q, FindsEmpty(q, s, acts[0]) || (since && !Takes(s, acts[0])), n, acts[1..]);
    }
  }

  /** A batch that has returned with items goes on until it has found every ring empty
      after the last item it took. */
  lemma BatchLeavesNothingInSight(s: State, acts: seq<Act>, q: nat)
    requires Inv(s) && Returned(s.cons) && NoRecv(acts) && q < |s.heads|
    requires Run(Step, Step(s, Recv(true)).value, acts).Some?
    requires Run(Step, Step(s, Recv(true)).value, acts).value.cons.pc.Idle?
    ensures Since(Step, Step(s, Recv(true)).value, acts, Empty(q), Takes)
  {
    var b := Step(s, Recv(true)).value;
    StepKeepsInv(s, Recv(true));
    RunKeepsSwept(s.cons.tails, q, false, b, acts);
  }

  // ---- a call that begins with an item in sight -------------------------------------

  /** The call has not come past ring `q`, which shows `h` items; or it took something. */
  ghost predicate WillTake(before: seq<nat>, q: nat, h: nat, s: State)
  {
    var c := s.cons;
    && Proper(s) && q < |s.heads| == |before| && h <= s.heads[q]
    && match c.pc
       case Scan(i) => c.phase.Call? && if c.tails[q] >= h then c.got else i <= q && (c.batch || c.tails == before)
       case Idle => if c.batch then c.tails[q] >= h else OneTaken(before, c.tails, q + 1)
       case _ => false
  }

  lemma StepKeepsTaking(before: seq<nat>, q: nat, h: nat, s: State, a: Act)
    requires Inv(s) && WillTake(before, q, h, s) && Step(s, a).Some? && !a.Recv?
    ensures WillTake(before, q, h, Step(s, a).value)
  {
    if a.RunConsumer? { ScanKeepsTaking(before, q, h, s, a.choice); } else { OthersLeaveConsumer(s, a); }
  }

  lemma ScanKeepsTaking(before: seq<nat>, q: nat, h: nat, s: State, choice: bool)
    requires Inv(s) && WillTake(before, q, h, s) && ConsumerStep(s, choice).Some?
    ensures WillTake(before, q, h, ConsumerStep(s, choice).value)
  {
    var i, c := s.cons.pc.ring, s.cons;
    if i < |s.heads| && s.heads[i] != c.tails[i] && !c.batch {
      assert TakenAt(before, before[i := before[i] + 1], i);
    }
  }

  lemma {:induction false} RunKeepsTaking(before: seq<nat>, q: nat, h: nat, s: State, acts: seq<Act>)
    requires Inv(s) && WillTake(before, q, h, s) && Run(Step, s, acts).Some? && NoRecv(acts)
    ensures WillTake(before, q, h, Run(Step, s, acts).value)
    decreases |acts|
  {
    if acts != [] {
      StepKeepsInv(s, acts[0]);
      StepKeepsTaking(before, q, h, s, acts[0]);
      RunKeepsTaking(before, q, h, Step(s, acts[0]).value, acts[1..]);
    }
  }

  /** A call that begins with an item in sight in ring `q` returns items: a batch all that
      was visible there, a `recv` one of that ring or of one before it. */
  lemma ItemInSightIsTaken(s: State, batch: bool, acts: seq<Act>, q: nat)
    requires Inv(s) && Returned(s.cons) && NoRecv(acts) && q < |s.heads| && s.heads[q] != s.cons.tails[q]
    requires Run(Step, Step(s, Recv(batch)).value, acts).Some?
    requires Returned(Run(Step, Step(s, Recv(batch)).value, acts).value.cons)
    ensures var n := Run(Step, Step(s, Recv(batch)).value, acts).value;
      && n.cons.pc.Idle?
      && if batch then q < |n.cons.tails| && s.heads[q] <= n.cons.tails[q]
         else OneTaken(s.cons.tails, n.cons.tails, q + 1)
  {
    var b := Step(s, Recv(batch)).value;
    StepKeepsInv(s, Recv(batch));
    RunKeepsTaking(s.cons.tails, q, s.heads[q], b, acts);
    RunKeepsCalling(s.cons.tails, batch, b, acts);
  }

  // ---- a call comes back --------------------------------------------------------------

  predicate ConsumerActs(a: Act)
  {
    a.RunConsumer?
  }

  /** Why a call can return: ring `q` shows an item, the flag is visible, or every
      producer is gone and everything taken. */
  datatype Why = Item(q: nat) | Flag | Over

  ghost predicate Ready(w: Why, s: State)
  {
    match w
    case Item(q) => q < |s.heads| == |s.cons.tails| && s.heads[q] != s.cons.tails[q]
    case Flag => s.shutdown
    case Over => s.live == 0 && s.heads == s.cons.tails
  }

  ghost predicate SomeReason(s: State)
  {
    exists w :: Ready(w, s)
  }

  /** The consumer comes out of a wait only with a reason. */
  ghost predicate LeavesReady(s: State)
  {
    s.cons.pc.Leave? ==> SomeReason(s)
  }

  /** The call is under way and can return, or a batch has something to return with. */
  ghost predicate Goes(w: Why, s: State)
  {
    Proper(s) && (Returned(s.cons) || s.cons.got || Ready(w, s))
  }

  /** The evaluation that is under way will see it. */
  predicate Fresh(w: Why, pc: ConsPc)
  {
    match pc
    case Scan(i) => w.Item? ==> i <= w.q
    case Shut => !w.Item?
    case Live => w.Over?
    case Rescan(_) => w.Over?
    case _ => false
  }

  /** The most steps that an evaluation over `m` rings has left. */
  function Length(m: nat, pc: ConsPc): int
  {
    match pc
    case Scan(i) => 2 * m + 4 - i
    case Shut => m + 3
    case Live => m + 2
    case Rescan(i) => m - i + 1
    case _ => 0
  }

  /** A bound on the steps left, apart from passes that a batch adds by taking. */
  function Rank(w: Why, s: State): int
  {
    var c, m := s.cons, |s.heads|;
    var e, l := 2 * m + 5, Length(m, c.pc);
    match c.pc
    case Idle => 0
    case Ended(_) => 0
    case Announce => 2 * e + 4
    case AnnFence => 2 * e + 3
    case Park => 2 * e + 3
    case Leave => e
    case _ =>
      if c.got then m - (if c.pc.Scan? then c.pc.ring else 0) + 1 + (if c.progress then m + 2 else 0)
      else match c.phase
           case Call => if Fresh(w, c.pc) then l else l + 2 * e + 2
           case Spin => if Fresh(w, c.pc) then l + e + 1 else l + 2 * e + 5
           case Parked => if Fresh(w, c.pc) then l + e + 1 else l + 2 * e + 4
  }

  /** What a batch may add to its steps by taking: a pass each time. */
  function Allowance(s: State, acts: seq<Act>): nat
    decreases |acts|
  {
    if acts == [] || Step(s, acts[0]).None? then 0
    else (if Takes(s, acts[0]) then |s.heads| + 3 else 0) + Allowance(Step(s, acts[0]).value, acts[1..])
  }

  lemma ScanComesCloser(w: Why, s: State, choice: bool)
    requires Inv(s) && Goes(w, s) && s.cons.pc.Scan?
    ensures var n := ConsumerStep(s, choice).value;
      Goes(w, n) && 0 <= Rank(w, n) < Rank(w, s) + if Takes(s, RunConsumer(choice)) then |s.heads| + 3 else 0
  {
    if !s.cons.phase.Call? { WaitScanComesCloser(w, s, choice); }
    else if s.cons.pc.ring < |s.heads| { CallScanComesCloser(w, s, choice); }
    else { PassComesCloser(w, s, choice); }
  }

  lemma PassComesCloser(w: Why, s: State, choice: bool)
    requires Goes(w, s) && s.cons.pc.Scan? && s.cons.phase.Call? && s.cons.pc.ring >= |s.heads|
    ensures var n := ConsumerStep(s, choice).value; Goes(w, n) && 0 <= Rank(w, n) < Rank(w, s)
  {
  }

  lemma CallScanComesCloser(w: Why, s: State, choice: bool)
    requires Goes(w, s) && s.cons.pc.Scan? && s.cons.phase.Call? && s.cons.pc.ring < |s.heads|
    ensures var n := ConsumerStep(s, choice).value;
      Goes(w, n) && 0 <= Rank(w, n) < Rank(w, s) + if Takes(s, RunConsumer(choice)) then |s.heads| + 3 else 0
  {
  }

  lemma WaitScanComesCloser(w: Why, s: State, choice: bool)
    requires Goes(w, s) && s.cons.pc.Scan? && !s.cons.phase.Call?
    ensures var n := ConsumerStep(s, choice).value; Goes(w, n) && 0 <= Rank(w, n) < Rank(w, s)
  {
    if s.cons.pc.ring < |s.heads| { ReturnComesCloser(w, s); }
  }

  lemma ReturnComesCloser(w: Why, s: State)
    requires Goes(w, s) && s.cons.pc.Scan? && !s.cons.phase.Call? && s.cons.pc.ring < |s.heads|
    ensures var n := s.(cons := Return(s.cons)); Goes(w, n) && 0 <= Rank(w, n) < Rank(w, s)
  {
  }

  /** An evaluation comes out false, not having been one that would see the reason; or
      true. */
  lemma VerdictComesCloser(w: Why, s: State, choice: bool)
    requires Proper(s) && Ready(w, s) && (s.cons.pc.Shut? || s.cons.pc.Live? || s.cons.pc.Rescan?)
    ensures !Fresh(w, s.cons.pc) ==>
      var n := s.(cons := NotReady(s.cons, choice)); Goes(w, n) && 0 <= Rank(w, n) < Rank(w, s)
    ensures !s.cons.phase.Call? ==> var n := s.(cons := Return(s.cons)); Goes(w, n) && 0 <= Rank(w, n) < Rank(w, s)
  {
  }

  lemma LookComesCloser(w: Why, s: State, choice: bool)
    requires Goes(w, s) && (s.cons.pc.Shut? || s.cons.pc.Live? || s.cons.pc.Rescan?)
    ensures var n := ConsumerStep(s, choice).value; Goes(w, n) && 0 <= Rank(w, n) < Rank(w, s)
  {
    if s.cons.pc.Rescan? { RescanComesCloser(w, s, choice); } else { VerdictComesCloser(w, s, choice); }
  }

  lemma RescanComesCloser(w: Why, s: State, choice: bool)
    requires Goes(w, s) && s.cons.pc.Rescan?
    ensures var n := ConsumerStep(s, choice).value; Goes(w, n) && 0 <= Rank(w, n) < Rank(w, s)
  {
    var i := s.cons.pc.ring;
    if i < |s.heads| && s.heads[i] == s.cons.tails[i] {
      var n := s.(cons := s.cons.(pc := Rescan(i + 1)));
      assert Goes(w, n) && 0 <= Rank(w, n) < Rank(w, s);
    } else {
      VerdictComesCloser(w, s, choice);
    }
  }

  lemma WaitComesCloser(w: Why, s: State, choice: bool)
    requires Inv(s) && Goes(w, s) && ConsumerStep(s, choice).Some?
    requires s.cons.pc.Announce? || s.cons.pc.AnnFence? || s.cons.pc.Park? || s.cons.pc.Leave?
    ensures var n := ConsumerStep(s, choice).value; Goes(w, n) && 0 <= Rank(w, n) < Rank(w, s)
  {
  }

  /** With every producer gone and everything taken nothing comes any more. */
  lemma OverStays(s: State, a: Act)
    requires Inv(s) && Ready(Over, s) && Step(s, a).Some? && !a.Recv?
    ensures Ready(Over, Step(s, a).value) && Step(s, a).value.heads == s.heads
  {
    match a
    case RunConsumer(_) => OverTakesNothing(s, a.choice);
    case Publish(i, _) => DeadIsFlushed(s, i);
    case DropProducer(i) => DeadIsFlushed(s, i);
    case FlushProducer(i) => DeadIsFlushed(s, i);
    case RunProducer(_) => WakesLeaveConsumer(s, a);
    case RunSignal(_) => WakesLeaveConsumer(s, a);
    case _ =>
  }

  lemma OverTakesNothing(s: State, choice: bool)
    requires Ready(Over, s) && ConsumerStep(s, choice).Some?
    ensures var n := ConsumerStep(s, choice).value;
      n.cons.tails == s.cons.tails && n.heads == s.heads && n.live == s.live && !Takes(s, RunConsumer(choice))
  {
    if !s.cons.pc.Scan? { OnlyScansTake(s, choice); }
  }

  lemma OnlyScansTake(s: State, choice: bool)
    requires !s.cons.pc.Scan? && ConsumerStep(s, choice).Some?
    ensures var n := ConsumerStep(s, choice).value;
      n.cons.tails == s.cons.tails && n.heads == s.heads && n.live == s.live
  {
    var pc := s.cons.pc;
    if pc.Shut? || pc.Live? || pc.Rescan? { LooksTakeNothing(s, choice); }
  }

  lemma LooksTakeNothing(s: State, choice: bool)
    requires (s.cons.pc.Shut? || s.cons.pc.Live? || s.cons.pc.Rescan?) && ConsumerStep(s, choice).Some?
    ensures var n := ConsumerStep(s, choice).value;
      n.cons.tails == s.cons.tails && n.heads == s.heads && n.live == s.live
  {
    VerdictKeepsTails(s.cons, choice);
  }

  lemma VerdictKeepsTails(c: Cons, choice: bool)
    ensures NotReady(c, choice).tails == c.tails && Return(c).tails == c.tails
  {
  }

  lemma OthersLetItGo(w: Why, s: State, a: Act)
    requires Inv(s) && Goes(w, s) && Step(s, a).Some? && !a.RunConsumer? && !a.Recv?
    ensures var n := Step(s, a).value; Goes(w, n) && Rank(w, n) == Rank(w, s)
  {
    OthersLeaveConsumer(s, a);
    if w.Over? && Ready(Over, s) { OverStays(s, a); }
  }

  lemma StepComesCloser(w: Why, s: State, a: Act)
    requires Inv(s) && Goes(w, s) && Step(s, a).Some? && !a.Recv?
    ensures var n := Step(s, a).value;
      && Goes(w, n)
      && (if ConsumerActs(a) then 1 else 0) + Rank(w, n) <= Rank(w, s) + if Takes(s, a) then |s.heads| + 3 else 0
  {
    if a.RunConsumer? {
      var pc := s.cons.pc;
      if pc.Scan? { ScanComesCloser(w, s, a.choice); }
      else if pc.Shut? || pc.Live? || pc.Rescan? { LookComesCloser(w, s, a.choice); }
      else { WaitComesCloser(w, s, a.choice); }
    } else {
      OthersLetItGo(w, s, a);
    }
  }

  /** A call comes back: once it can, its own steps are bounded by `Rank` and a pass for
      each time that a batch takes something. */
  lemma {:induction false} CallIsBounded(w: Why, s: State, acts: seq<Act>)
    requires Inv(s) && Goes(w, s) && NoRecv(acts) && Run(Step, s, acts).Some?
    ensures var n := Run(Step, s, acts).value;
      Goes(w, n) && Count(acts, ConsumerActs) + Rank(w, n) <= Rank(w, s) + Allowance(s, acts)
    decreases |acts|
  {
    if acts != [] {
      StepKeepsInv(s, acts[0]);
      StepComesCloser(w, s, acts[0]);
      CallIsBounded(w, Step(s, acts[0]).value, acts[1..]);
    }
  }

  lemma RankZero(w: Why, s: State)
    requires Proper(s)
    ensures 0 <= Rank(w, s) <= 6 * |s.heads| + 19 && (Rank(w, s) == 0 ==> Returned(s.cons))
  {
  }

  lemma CallComesBack(w: Why, s: State, acts: seq<Act>)
    requires Inv(s) && Goes(w, s) && NoRecv(acts) && Run(Step, s, acts).Some?
    requires Count(acts, ConsumerActs) >= Rank(w, s) + Allowance(s, acts)
    ensures Returned(Run(Step, s, acts).value.cons)
  {
    CallIsBounded(w, s, acts);
    RankZero(w, Run(Step, s, acts).value);
  }

  /** The consumer can step inside a call as long as it is not blocked: `NeverSleepsOnWork`
      and `ConsumerIsWoken` take over there. */
  lemma ConsumerCanMove(s: State)
    requires !Returned(s.cons) && !Blocked(s)
    ensures ConsumerStep(s, false).Some?
  {
  }

  // ---- what ends a wait ---------------------------------------------------------------

  lemma ReasonStays(s: State, a: Act)
    requires Inv(s) && SomeReason(s) && Step(s, a).Some? && !a.RunConsumer? && !a.Recv?
    ensures SomeReason(Step(s, a).value)
  {
    var w :| Ready(w, s);
    OthersLeaveConsumer(s, a);
    if w.Over? { OverStays(s, a); }
    assert Ready(w, Step(s, a).value);
  }

  lemma RescanHasReason(s: State, choice: bool)
    requires Inv(s) && Proper(s) && s.cons.pc.Rescan? && s.cons.pc.ring >= |s.heads|
    ensures SomeReason(s)
  {
    forall j | 0 <= j < |s.heads|
      ensures s.heads[j] == s.cons.tails[j]
    {
      assert ProducerOk(s.prods[j], s.heads[j], s.cons.tails[j], s.cap);
    }
    assert Ready(Over, s);
  }

  /** The consumer's step ends a wait, or leads to its end. */
  predicate EndsWait(s: State, n: State)
  {
    !s.cons.phase.Call? && !s.cons.pc.Leave? && (n.cons.pc.Leave? || n.cons.phase.Call?)
  }

  /** Only an evaluation that came out true, with a reason, does. */
  lemma TrueHasReason(s: State, choice: bool)
    requires Inv(s) && Proper(s) && ConsumerStep(s, choice).Some? && EndsWait(s, ConsumerStep(s, choice).value)
    ensures SomeReason(s)
  {
    match s.cons.pc
    case Scan(i) => ScanHasReason(s, choice);
    case Shut => assert Ready(Flag, s);
    case Rescan(i) => RescanHasReason(s, choice);
    case _ =>
  }

  lemma ScanHasReason(s: State, choice: bool)
    requires Base(s) && Proper(s) && s.cons.pc.Scan? && EndsWait(s, ConsumerStep(s, choice).value)
    ensures SomeReason(s)
  {
    assert Ready(Item(s.cons.pc.ring), s);
  }

  /** Nothing that a reason is about differs. */
  predicate Same(s: State, n: State)
  {
    n.heads == s.heads && n.cons.tails == s.cons.tails && n.shutdown == s.shutdown && n.live == s.live
  }

  lemma ScanLeaves(s: State, choice: bool)
    requires Proper(s) && s.cons.pc.Scan? && ConsumerStep(s, choice).Some?
    ensures var n := ConsumerStep(s, choice).value; n.cons.pc.Leave? ==> EndsWait(s, n) && Same(s, n)
  {
  }

  lemma LeaveMovesNothing(s: State, choice: bool)
    requires Proper(s) && ConsumerStep(s, choice).Some?
    ensures var n := ConsumerStep(s, choice).value; n.cons.pc.Leave? ==> EndsWait(s, n) && Same(s, n)
  {
    if s.cons.pc.Scan? { ScanLeaves(s, choice); }
  }

  lemma SameReason(s: State, n: State)
    requires SomeReason(s) && Same(s, n)
    ensures SomeReason(n)
  {
    var w :| Ready(w, s);
    assert Ready(w, n);
  }

  lemma ConsumerLeavesReady(s: State, choice: bool)
    requires Inv(s) && Proper(s) && LeavesReady(s) && ConsumerStep(s, choice).Some?
    ensures LeavesReady(ConsumerStep(s, choice).value)
  {
    if ConsumerStep(s, choice).value.cons.pc.Leave? {
      LeaveMovesNothing(s, choice);
      TrueHasReason(s, choice);
      SameReason(s, ConsumerStep(s, choice).value);
    }
  }

  lemma StepLeavesReady(s: State, a: Act)
    requires Inv(s) && Proper(s) && LeavesReady(s) && Step(s, a).Some? && !a.Recv?
    ensures LeavesReady(Step(s, a).value)
  {
    if a.RunConsumer? {
      ConsumerLeavesReady(s, a.choice);
    } else {
      OthersLeaveConsumer(s, a);
      if s.cons.pc.Leave? { ReasonStays(s, a); }
    }
  }

  lemma {:induction false} RunLeavesReady(before: seq<nat>, batch: bool, s: State, acts: seq<Act>)
    requires Inv(s) && Calling(before, batch, s) && LeavesReady(s) && Run(Step, s, acts).Some? && NoRecv(acts)
    ensures var n := Run(Step, s, acts).value; Inv(n) && Proper(n) && LeavesReady(n)
    decreases |acts|
  {
    if acts != [] {
      ActKeepsCalling(before, batch, s, acts[0]);
      StepLeavesReady(s, acts[0]);
      RunLeavesReady(before, batch, Step(s, acts[0]).value, acts[1..]);
    }
  }

  /** The consumer does not come out of a wait, whatever token woke it, but to an item, to
      the flag, or to the end of the channel. */
  lemma WaitEndsReady(s: State, batch: bool, acts: seq<Act>, choice: bool)
    requires Inv(s) && Returned(s.cons) && NoRecv(acts)
    requires Run(Step, Step(s, Recv(batch)).value, acts).Some?
    ensures var m := Run(Step, Step(s, Recv(batch)).value, acts).value; var n := ConsumerStep(m, choice);
      n.Some? && !m.cons.phase.Call? && n.value.cons.phase.Call? ==> SomeReason(m)
  {
    var b := Step(s, Recv(batch)).value;
    StepKeepsInv(s, Recv(batch));
    RunLeavesReady(s.cons.tails, batch, b, acts);
    var m := Run(Step, b, acts).value;
    if ConsumerStep(m, choice).Some? && !m.cons.phase.Call? && ConsumerStep(m, choice).value.cons.phase.Call? {
      if !m.cons.pc.Leave? { TrueHasReason(m, choice); }
    }
  }

  // ---- the end of the channel -----------------------------------------------------------

  /** Nothing that a producer published becomes visible. */
  predicate NoFlush(acts: seq<Act>)
  {
    forall i :: 0 <= i < |acts| ==> !acts[i].FlushProducer?
  }

  lemma NothingToTake(s: State, a: Act)
    requires Inv(s) && s.heads == s.cons.tails && Step(s, a).Some? && !a.Recv? && (s.live == 0 || !a.FlushProducer?)
    ensures var n := Step(s, a).value;
      && n.heads == n.cons.tails == s.cons.tails && !Takes(s, a)
      && (s.live == 0 ==> n.live == 0) && (s.shutdown ==> n.shutdown)
  {
    if s.live == 0 { OverStays(s, a); }
    if a.RunConsumer? {
      if !s.cons.pc.Scan? { OnlyScansTake(s, a.choice); }
    } else {
      OthersLeaveConsumer(s, a);
    }
  }

  lemma {:induction false} NothingTaken(s: State, acts: seq<Act>)
    requires Inv(s) && s.heads == s.cons.tails && NoRecv(acts) && Run(Step, s, acts).Some?
    requires s.live == 0 || NoFlush(acts)
    ensures Run(Step, s, acts).value.cons.tails == s.cons.tails && Allowance(s, acts) == 0
    decreases |acts|
  {
    if acts != [] {
      StepKeepsInv(s, acts[0]);
      NothingToTake(s, acts[0]);
      NothingTaken(Step(s, acts[0]).value, acts[1..]);
    }
  }

  /** The channel ends for the consumer: a `recv` or `recv_batch` that begins with nothing
      in sight, and either every producer gone and everything taken, or the flag visible
      and nothing shown meanwhile, returns `Err(Shutdown)` within `2 * M + 4` of the
      consumer's own steps. */
  lemma EndIsReported(s: State, batch: bool, acts: seq<Act>)
    requires Inv(s) && Returned(s.cons) && NoRecv(acts) && s.heads == s.cons.tails
    requires Run(Step, Step(s, Recv(batch)).value, acts).Some?
    requires s.live == 0 || (s.shutdown && NoFlush(acts))
    requires Count(acts, ConsumerActs) >= 2 * |s.heads| + 4
    ensures Run(Step, Step(s, Recv(batch)).value, acts).value.cons.pc.Ended?
  {
    var b := Step(s, Recv(batch)).value;
    var w := if s.live == 0 then Over else Flag;
    StepKeepsInv(s, Recv(batch));
    NothingTaken(b, acts);
    CallComesBack(w, b, acts);
    RecvReturns(s, batch, acts);
  }
}
