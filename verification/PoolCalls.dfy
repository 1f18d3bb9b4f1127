/** What acquiring from the producer pool and dropping a lease come to, over every race:
    a refusal means that each slot was found leased, a lease that each slot before it
    was; a slot is leased exactly while somebody holds it; and an acquire goes on only as
    long as others win. */
module PoolCalls {
  import opened PoolRace
  import Runs

  /** Thread `t` neither drops a lease nor acquires another. */
  predicate OneAcquire(acts: seq<Act>, t: nat)
  {
    forall j :: 0 <= j < |acts| ==> acts[j] != DropLease(t) && acts[j] != Acquire(t)
  }

  /** Thread `t` loads the word of slot `i`, and the slot is leased. */
  ghost predicate FindsLeased(t: nat, i: nat, s: State, a: Act)
  {
    a == Run(t) && t < |s.threads| && s.threads[t].pc == Scan(i / WORD) && i in s.leased
  }

  ghost function Finds(t: nat, i: nat): (State, Act) -> bool
  {
    (s, a) => FindsLeased(t, i, s, a)
  }

  /** How far an acquire of thread `t` has come with slot `i`; `found` says that it has
      found it leased. */
  ghost predicate Acquiring(t: nat, i: nat, found: bool, s: State)
  {
    && t < |s.threads| && i < s.m
    && match s.threads[t].pc
       case Scan(w) => i / WORD < w ==> found
       case Try(w, slot, _) => slot < s.m && slot / WORD == w && (i < slot ==> found)
       case Take(slot) => i < slot ==> found
       case Holding(slot) => i < slot ==> found
       case Out => s.threads[t].refused && found
       case _ => false
  }

  lemma EarlierWord(i: nat, slot: nat)
    requires i < slot
    ensures i / WORD <= slot / WORD
  {
  }

  lemma OwnStepKeepsAcquiring(t: nat, i: nat, found: bool, s: State)
    requires Inv(s) && Acquiring(t, i, found, s) && ThreadStep(s, t).Some?
    ensures Acquiring(t, i, found || FindsLeased(t, i, s, Run(t)), ThreadStep(s, t).value)
  {
    match s.threads[t].pc
    case Scan(w) =>
      if w * WORD < s.m {
        var slot := Pick(s.leased, 0, w, s.m);
        if slot < s.m && i < slot { EarlierWord(i, slot); }
        assert i / WORD == w && i < slot ==> i in s.leased;
      } else {
        assert i / WORD < w;
      }
    case Take(slot) => assert OwnerOk(s, s.threads[t]);
    case _ =>
  }

  lemma OthersLeaveThread(s: State, a: Act, t: nat)
    requires Step(s, a).Some? && t < |s.threads| && a.t != t
    ensures var n := Step(s, a).value; |n.threads| == |s.threads| && n.threads[t] == s.threads[t] && n.m == s.m
  {
  }

  lemma StepKeepsAcquiring(t: nat, i: nat, found: bool, s: State, a: Act)
    requires Inv(s) && Acquiring(t, i, found, s) && Step(s, a).Some? && a != DropLease(t) && a != Acquire(t)
    ensures Acquiring(t, i, found || FindsLeased(t, i, s, a), Step(s, a).value)
  {
    if a.t != t { OthersLeaveThread(s, a, t); }
    else if a.Run? { OwnStepKeepsAcquiring(t, i, found, s); }
  }

  lemma {:induction false} RunKeepsAcquiring(t: nat, i: nat, found: bool, s: State, acts: seq<Act>)
    requires Inv(s) && Acquiring(t, i, found, s) && Runs.Run(Step, s, acts).Some? && OneAcquire(acts, t)
    ensures Inv(Runs.Run(Step, s, acts).value)
    ensures Acquiring(t, i, found || Runs.Happens(Step, s, acts, Finds(t, i)), Runs.Run(Step, s, acts).value)
    decreases |acts|
  {
    if acts != [] {
      StepKeepsInv(s, acts[0]);
      StepKeepsAcquiring(t, i, found, s, acts[0]);
      RunKeepsAcquiring(t, i, found || FindsLeased(t, i, s, acts[0]), Step(s, acts[0]).value, acts[1..]);
    }
  }

  /** An acquire that has returned was refused, and found every slot leased at a look of
      its own; or it holds a slot, and found every slot before it leased. */
  lemma AcquireReturns(s: State, t: nat, acts: seq<Act>, i: nat)
    requires Inv(s) && t < |s.threads| && s.threads[t].pc.Out? && OneAcquire(acts, t) && i < s.m
    requires Runs.Run(Step, Step(s, Acquire(t)).value, acts).Some?
    ensures var b := Step(s, Acquire(t)).value; var n := Runs.Run(Step, b, acts).value;
      && t < |n.threads|
      && (n.threads[t].pc.Out? ==> n.threads[t].refused && Runs.Happens(Step, b, acts, Finds(t, i)))
      && (n.threads[t].pc.Holding? ==>
            && n.threads[t].pc.slot < n.m && n.threads[t].pc.slot in n.leased
            && (i < n.threads[t].pc.slot ==> Runs.Happens(Step, b, acts, Finds(t, i))))
  {
    var b := Step(s, Acquire(t)).value;
    StepKeepsInv(s, Acquire(t));
    RunKeepsAcquiring(t, i, false, b, acts);
    var n := Runs.Run(Step, b, acts).value;
    if n.threads[t].pc.Holding? { assert OwnerOk(n, n.threads[t]); }
  }

  // ---- a bit is set exactly while somebody holds the slot ---------------------------

  ghost predicate Held(s: State, i: nat)
  {
    exists t: nat :: t < |s.threads| && Owns(s.threads[t].pc) && s.threads[t].pc.slot == i
  }

  ghost predicate LeasedAreHeld(s: State)
  {
    forall i: nat :: i in s.leased ==> Held(s, i)
  }

  /** Who holds a slot goes on holding it until its bit is cleared. */
  lemma HolderStays(s: State, a: Act, u: nat)
    requires Inv(s) && u < |s.threads| && Owns(s.threads[u].pc) && Step(s, a).Some?
    requires s.threads[u].pc.slot in Step(s, a).value.leased
    ensures var n := Step(s, a).value;
      u < |n.threads| && Owns(n.threads[u].pc) && n.threads[u].pc.slot == s.threads[u].pc.slot
  {
    if a.t != u { OthersLeaveThread(s, a, u); } else { assert OwnerOk(s, s.threads[u]); }
  }

  /** Who turned a bit on holds the slot. */
  lemma WinnerHolds(s: State, a: Act, i: nat)
    requires Step(s, a).Some? && i !in s.leased && i in Step(s, a).value.leased
    ensures Held(Step(s, a).value, i)
  {
    assert Owns(Step(s, a).value.threads[a.t].pc);
  }

  lemma StepKeepsHeld(s: State, a: Act)
    requires Inv(s) && LeasedAreHeld(s) && Step(s, a).Some?
    ensures LeasedAreHeld(Step(s, a).value)
  {
    forall i: nat | i in Step(s, a).value.leased
      ensures Held(Step(s, a).value, i)
    {
      if i in s.leased {
        var u: nat :| u < |s.threads| && Owns(s.threads[u].pc) && s.threads[u].pc.slot == i;
        HolderStays(s, a, u);
      } else {
        WinnerHolds(s, a, i);
      }
    }
  }

  lemma {:induction false} RunKeepsHeld(s: State, acts: seq<Act>)
    requires Inv(s) && LeasedAreHeld(s) && Runs.Run(Step, s, acts).Some?
    ensures Inv(Runs.Run(Step, s, acts).value) && LeasedAreHeld(Runs.Run(Step, s, acts).value)
    decreases |acts|
  {
    if acts != [] {
      StepKeepsInv(s, acts[0]);
      StepKeepsHeld(s, acts[0]);
      RunKeepsHeld(Step(s, acts[0]).value, acts[1..]);
    }
  }

  /** In every state of every run a slot's bit is set exactly while some thread is between
      winning and clearing it, so a dropped lease makes its slot free again. */
  lemma LeasedIffHeld(s: State, acts: seq<Act>, i: nat)
    requires Init(s) && Runs.Run(Step, s, acts).Some?
    ensures i in Runs.Run(Step, s, acts).value.leased <==> Held(Runs.Run(Step, s, acts).value, i)
  {
    InitInv(s);
    RunKeepsHeld(s, acts);
    var n := Runs.Run(Step, s, acts).value;
    if t: nat :| t < |n.threads| && Owns(n.threads[t].pc) && n.threads[t].pc.slot == i {
      assert OwnerOk(n, n.threads[t]);
    }
  }

  // ---- progress ---------------------------------------------------------------------

  ghost function StepsOf(t: nat): Act -> bool
  {
    a => a == Run(t)
  }

  /** A bound on the steps that thread `t` has left in its call, if nobody wins a bit;
      every bit that somebody wins adds two. */
  function Rank(s: State, t: nat): int
    requires t < |s.threads|
  {
    match s.threads[t].pc
    case Scan(w) => ScanRank(s.m, w)
    case Try(w, _, mark) => ScanRank(s.m, w) - 1 + if mark < |s.wins| then 2 else 0
    case Take(_) => 1
    case Put(_) => 2
    case Clear(_) => 1
    case _ => 0
  }

  function ScanRank(m: nat, w: nat): int
  {
    if w * WORD >= m then 3 else 2 * (m - w * WORD) + 3
  }

  lemma OwnStepComesCloser(s: State, t: nat)
    requires Inv(s) && t < |s.threads| && ThreadStep(s, t).Some?
    ensures var n := ThreadStep(s, t).value;
      t < |n.threads| && |s.wins| <= |n.wins| && 1 + Rank(n, t) <= Rank(s, t) + 2 * (|n.wins| - |s.wins|)
  {
    if s.threads[t].pc.Try? && s.threads[t].pc.slot in s.leased { LostRaceHasWinner(s, t); }
  }

  lemma StepComesCloser(s: State, t: nat, a: Act)
    requires Inv(s) && t < |s.threads| && Step(s, a).Some? && a != Acquire(t) && a != DropLease(t)
    ensures var n := Step(s, a).value;
      && t < |n.threads| && |s.wins| <= |n.wins|
      && (if StepsOf(t)(a) then 1 else 0) + Rank(n, t) <= Rank(s, t) + 2 * (|n.wins| - |s.wins|)
  {
    if a == Run(t) { OwnStepComesCloser(s, t); } else if a.t != t { OthersLeaveThread(s, a, t); }
  }

  /** An acquire, or the drop of a lease, takes a bounded number of the thread's own steps,
      and two more for each bit that anybody wins meanwhile: it goes on only as long as
      others succeed. */
  lemma {:induction false} AcquireIsLockFree(s: State, t: nat, acts: seq<Act>)
    requires Inv(s) && t < |s.threads| && Runs.Run(Step, s, acts).Some? && OneAcquire(acts, t)
    ensures var n := Runs.Run(Step, s, acts).value;
      && t < |n.threads|
      && Runs.Count(acts, StepsOf(t)) + Rank(n, t) <= Rank(s, t) + 2 * (|n.wins| - |s.wins|)
    decreases |acts|
  {
    if acts != [] {
      StepKeepsInv(s, acts[0]);
      StepComesCloser(s, t, acts[0]);
      AcquireIsLockFree(Step(s, acts[0]).value, t, acts[1..]);
    }
  }

  /** A thread inside a call can step, or flush a store that the step waits for. */
  lemma ThreadCanMove(s: State, t: nat)
    requires Inv(s) && t < |s.threads| && !s.threads[t].pc.Out? && !s.threads[t].pc.Holding?
    ensures ThreadStep(s, t).Some? || Step(s, Flush(t)).Some?
  {
    if Owns(s.threads[t].pc) { assert OwnerOk(s, s.threads[t]); }
  }
}
