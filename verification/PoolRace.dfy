/** The producer pool under concurrency: any number of threads acquiring, sending
    through and dropping leases, every load, read-modify-write and cell access one
    step, over a store-buffering memory (x86-TSO). A cell is written with plain
    stores, so both the take and the put back go through the thread's buffer, and so
    does the head that a send stores; the `fetch_or` and `fetch_and` need it drained.

    A cell holds a producer handle. One counter stands for its private fields: how
    many sends it has made. A send writes at the head it loads from memory, whether or
    not that is where the last send of an earlier lease ended. */
module PoolRace {
  import opened Runs

  const WORD: nat := 64

  datatype Pc =
    | Out
    | Scan(word: nat)                          // load the word
    | Try(word: nat, slot: nat, mark: nat)     // `fetch_or`; `mark` dates the load
    | Take(slot: nat)                          // move the producer out of the cell
    | Holding(slot: nat)
    | Put(slot: nat)                           // move it back
    | Clear(slot: nat)                         // `fetch_and`
    | Failed                                   // the `unwrap` found the cell empty

  /** A store to the slot's cell, or to the head of its ring. */
  datatype Store = StCell(handle: Option<nat>) | StHead(head: nat)

  datatype Thread = Thread(pc: Pc, buf: seq<Store>, refused: bool, handle: nat)

  /** `wins` logs every bit that a `fetch_or` turned on, `sends[i]` what stands in the
      ring of slot `i`, position by position, and who sent it. */
  datatype State = State(m: nat, leased: set<nat>, cells: seq<Option<nat>>, heads: seq<nat>, threads: seq<Thread>,
                         wins: seq<nat>, sends: seq<seq<(nat, int)>>)

  datatype Act = Acquire(t: nat) | Run(t: nat) | Flush(t: nat) | Send(t: nat, value: int) | DropLease(t: nat)

  ghost predicate Init(s: State)
  {
    && s.m >= 1 && |s.cells| == |s.heads| == |s.sends| == s.m && s.leased == {} && s.wins == []
    && (forall i :: 0 <= i < s.m ==> s.cells[i] == Some(0) && s.heads[i] == 0 && s.sends[i] == [])
    && (forall t :: 0 <= t < |s.threads| ==> s.threads[t] == Thread(Out, [], false, 0))
  }

  /** The bit that `trailing_zeros` picks in a word loaded as `leased`: the least
      free slot of the word, or `m` when there is none. */
  function Pick(leased: set<nat>, from: nat, word: nat, m: nat): (r: nat)
    requires from <= m
    ensures from <= r <= m
    ensures r < m ==> r !in leased && r / WORD == word
    ensures forall i :: from <= i < r && i / WORD == word ==> i in leased
    decreases m - from
  {
    if from == m then m
    else if from / WORD == word && from !in leased then from
    else Pick(leased, from + 1, word, m)
  }

  function ThreadStep(s: State, t: nat): Option<State>
    requires t < |s.threads|
  {
    var k := s.threads[t];
    match k.pc
    case Scan(w) =>
      if w * WORD >= s.m then Some(s.(threads := s.threads[t := k.(pc := Out, refused := true)]))
      else
        var slot := Pick(s.leased, 0, w, s.m);
        Some(s.(threads := s.threads[t := k.(pc := if slot == s.m then Scan(w + 1) else Try(w, slot, |s.wins|))]))
    case Try(w, slot, mark) =>
      if |k.buf| > 0 then None
      else if slot in s.leased then Some(s.(threads := s.threads[t := k.(pc := Scan(w))]))
      else
        Some(s.(leased := s.leased + {slot}, wins := s.wins + [slot], threads := s.threads[t := k.(pc := Take(slot))]))
    case Take(slot) =>
      if slot >= |s.cells| then None
      else if s.cells[slot].None? then Some(s.(threads := s.threads[t := k.(pc := Failed)]))
      else
        Some(s.(threads := s.threads[t := k.(pc := Holding(slot), buf := k.buf + [StCell(None)], handle := s.cells[slot].value)]))
    case Put(slot) => Some(s.(threads := s.threads[t := k.(pc := Clear(slot), buf := k.buf + [StCell(Some(k.handle))])]))
    case Clear(slot) =>
      if |k.buf| > 0 then None
      else Some(s.(leased := s.leased - {slot}, threads := s.threads[t := k.(pc := Out)]))
    case _ => None
  }

  predicate HeadPending(buf: seq<Store>)
  {
    |buf| > 0 && buf[|buf| - 1].StHead?
  }

  function Step(s: State, a: Act): Option<State>
  {
    match a
    case Acquire(t) =>
      if t < |s.threads| && s.threads[t].pc.Out? then
        Some(s.(threads := s.threads[t := s.threads[t].(pc := Scan(0), refused := false)]))
      else None
    case Run(t) => if t < |s.threads| then ThreadStep(s, t) else None
    case Flush(t) =>
      if t < |s.threads| && |s.threads[t].buf| > 0 && Owns(s.threads[t].pc)
         && s.threads[t].pc.slot < |s.cells| && s.threads[t].pc.slot < |s.heads| then
        var k := s.threads[t];
        var n := s.(threads := s.threads[t := k.(buf := k.buf[1..])]);
        Some(match k.buf[0]
             case StCell(h) => n.(cells := s.cells[k.pc.slot := h])
             case StHead(h) => n.(heads := s.heads[k.pc.slot := h]))
      else None
    case Send(t, v) =>
      // the wake of the previous send has drained its head store
      if t < |s.threads| && s.threads[t].pc.Holding? && !HeadPending(s.threads[t].buf)
         && s.threads[t].pc.slot < |s.sends| && s.threads[t].pc.slot < |s.heads| then
        var k, i := s.threads[t], s.threads[t].pc.slot;
        var h := s.heads[i];
        var log := if h < |s.sends[i]| then s.sends[i][h := (t, v)] else s.sends[i] + [(t, v)];
        Some(s.(sends := s.sends[i := log],
                threads := s.threads[t := k.(buf := k.buf + [StHead(h + 1)], handle := k.handle + 1)]))
      else None
    case DropLease(t) =>
      if t < |s.threads| && s.threads[t].pc.Holding? then
        Some(s.(threads := s.threads[t := s.threads[t].(pc := Put(s.threads[t].pc.slot))]))
      else None
  }

  // ---- invariant --------------------------------------------------------

  /** The thread has won the bit of a slot and not yet cleared it. */
  predicate Owns(pc: Pc)
  {
    pc.Take? || pc.Holding? || pc.Put? || pc.Clear?
  }

  /** The take's store, still pending or not. */
  predicate AfterTake(buf: seq<Store>, cell: Option<nat>)
  {
    if |buf| == 0 then cell == None else |buf| == 1 && buf[0] == StCell(None)
  }

  /** The cell, the head and the log of an owned slot, given the owner's buffer: the
      cell is full until the take is flushed and then empty until the put back is, and
      the log ends where the owner's next send, or the next owner's, will write. */
  ghost predicate SlotOf(k: Thread, cell: Option<nat>, head: nat, sent: nat)
    requires Owns(k.pc)
  {
    match k.pc
    case Take(_) => |k.buf| == 0 && cell == Some(sent) && head == sent
    case Clear(_) =>
      if |k.buf| == 0 then cell == Some(sent) && head == sent
      else k.buf[|k.buf| - 1] == StCell(Some(sent)) && LeaseOf(k.buf[..|k.buf| - 1], cell, head, sent)
    case _ => k.handle == sent && LeaseOf(k.buf, cell, head, sent)
  }

  /** The same for the part of the buffer before the put back. */
  ghost predicate LeaseOf(buf: seq<Store>, cell: Option<nat>, head: nat, sent: nat)
  {
    if HeadPending(buf) then buf[|buf| - 1] == StHead(sent) && head + 1 == sent && AfterTake(buf[..|buf| - 1], cell)
    else head == sent && AfterTake(buf, cell)
  }

  predicate SameSlot(k: Thread, l: Thread)
  {
    Owns(k.pc) && Owns(l.pc) && k.pc.slot == l.pc.slot
  }

  ghost predicate OwnerOk(s: State, k: Thread)
    requires Owns(k.pc) && |s.cells| == |s.heads| == |s.sends| == s.m
  {
    var i := k.pc.slot;
    i in s.leased && i < s.m && SlotOf(k, s.cells[i], s.heads[i], |s.sends[i]|)
  }

  ghost predicate Inv(s: State)
  {
    && |s.cells| == |s.heads| == |s.sends| == s.m
    && (forall i :: i in s.leased ==> i < s.m)
    && (forall i :: 0 <= i < s.m && i !in s.leased ==> s.cells[i] == Some(|s.sends[i]|) && s.heads[i] == |s.sends[i]|)
    && (forall t :: 0 <= t < |s.threads| && Owns(s.threads[t].pc) ==> OwnerOk(s, s.threads[t]))
    && (forall t, u :: 0 <= t < |s.threads| && 0 <= u < |s.threads| && SameSlot(s.threads[t], s.threads[u]) ==> t == u)
    && (forall t :: 0 <= t < |s.threads| && !Owns(s.threads[t].pc) ==> |s.threads[t].buf| == 0 && !s.threads[t].pc.Failed?)
    && (forall t :: 0 <= t < |s.threads| && s.threads[t].pc.Try? ==>
          && s.threads[t].pc.slot < s.m && s.threads[t].pc.mark <= |s.wins|
          && (s.threads[t].pc.slot in s.leased ==> s.threads[t].pc.slot in s.wins[s.threads[t].pc.mark..]))
  }

  lemma WinKeepsInv(s: State, t: nat)
    requires Inv(s) && t < |s.threads| && s.threads[t].pc.Try? && ThreadStep(s, t).Some?
    ensures Inv(ThreadStep(s, t).value)
  {
    var n := ThreadStep(s, t).value;
    var slot := s.threads[t].pc.slot;
    if slot !in s.leased {
      forall u | 0 <= u < |n.threads| && n.threads[u].pc.Try?
        ensures n.threads[u].pc.slot in n.leased ==> n.threads[u].pc.slot in n.wins[n.threads[u].pc.mark..]
      {
        assert n.wins[n.threads[u].pc.mark..] == s.wins[n.threads[u].pc.mark..] + [slot];
      }
    }
  }

  lemma ScanKeepsInv(s: State, t: nat)
    requires Inv(s) && t < |s.threads| && s.threads[t].pc.Scan? && ThreadStep(s, t).Some?
    ensures Inv(ThreadStep(s, t).value)
  {
  }

  /** One thread moved on alone: the invariant is about that thread only. */
  lemma MovedAlone(s: State, n: State, t: nat)
    requires Inv(s) && t < |s.threads| && Owns(s.threads[t].pc)
    requires |n.threads| == |s.threads|
    requires n == s.(threads := s.threads[t := n.threads[t]], cells := n.cells, heads := n.heads, sends := n.sends)
    requires Owns(n.threads[t].pc) && n.threads[t].pc.slot == s.threads[t].pc.slot < s.m
    requires |n.cells| == |n.heads| == |n.sends| == s.m
    requires forall i :: 0 <= i < s.m && i != s.threads[t].pc.slot ==>
      n.cells[i] == s.cells[i] && n.heads[i] == s.heads[i] && n.sends[i] == s.sends[i]
    requires OwnerOk(n, n.threads[t])
    ensures Inv(n)
  {
    var slot := s.threads[t].pc.slot;
    assert OwnerOk(s, s.threads[t]);
    forall u | 0 <= u < |n.threads| && Owns(n.threads[u].pc)
      ensures OwnerOk(n, n.threads[u])
    {
      if u != t {
        assert OwnerOk(s, s.threads[u]);
        assert !SameSlot(s.threads[t], s.threads[u]);
      }
    }
    forall u, v | 0 <= u < |n.threads| && 0 <= v < |n.threads| && SameSlot(n.threads[u], n.threads[v])
      ensures u == v
    {
      assert SameSlot(s.threads[u], s.threads[v]);
    }
  }

  lemma TakeKeepsInv(s: State, t: nat)
    requires Inv(s) && t < |s.threads| && s.threads[t].pc.Take? && ThreadStep(s, t).Some?
    ensures Inv(ThreadStep(s, t).value)
  {
    assert OwnerOk(s, s.threads[t]);
    MovedAlone(s, ThreadStep(s, t).value, t);
  }

  lemma ReturnKeepsInv(s: State, t: nat)
    requires Inv(s) && t < |s.threads| && (s.threads[t].pc.Put? || s.threads[t].pc.Clear?) && ThreadStep(s, t).Some?
    ensures Inv(ThreadStep(s, t).value)
  {
  }

  /** A flush moves the oldest store from the buffer to the cell or to the head. */
  lemma FlushKeepsSlot(k: Thread, cell: Option<nat>, head: nat, sent: nat)
    requires Owns(k.pc) && |k.buf| > 0 && SlotOf(k, cell, head, sent)
    ensures match k.buf[0]
      case StCell(h) => SlotOf(k.(buf := k.buf[1..]), h, head, sent)
      case StHead(h) => SlotOf(k.(buf := k.buf[1..]), cell, h, sent)
  {
  }

  lemma FlushKeepsInv(s: State, t: nat)
    requires Inv(s) && Step(s, Flush(t)).Some?
    ensures Inv(Step(s, Flush(t)).value)
  {
    var k := s.threads[t];
    assert OwnerOk(s, k);
    FlushKeepsSlot(k, s.cells[k.pc.slot], s.heads[k.pc.slot], |s.sends[k.pc.slot]|);
    MovedAlone(s, Step(s, Flush(t)).value, t);
  }

  /** A send finds the head at the end of the log, whoever wrote the log. */
  lemma SendKeepsInv(s: State, t: nat, v: int)
    requires Inv(s) && Step(s, Send(t, v)).Some?
    ensures Inv(Step(s, Send(t, v)).value)
  {
    var n := Step(s, Send(t, v)).value;
    var k, i := s.threads[t], s.threads[t].pc.slot;
    assert OwnerOk(s, k);
    assert s.heads[i] == |s.sends[i]|;
    assert n.threads[t].buf[..|k.buf|] == k.buf;
    MovedAlone(s, n, t);
  }

  lemma CallsKeepInv(s: State, a: Act)
    requires Inv(s) && (a.Acquire? || a.DropLease?) && Step(s, a).Some?
    ensures Inv(Step(s, a).value)
  {
  }

  lemma StepKeepsInv(s: State, a: Act)
    requires Inv(s) && Step(s, a).Some?
    ensures Inv(Step(s, a).value)
  {
    if a.Flush? { FlushKeepsInv(s, a.t); }
    else if a.Send? { SendKeepsInv(s, a.t, a.value); }
    else if !a.Run? { CallsKeepInv(s, a); }
    else if s.threads[a.t].pc.Try? { WinKeepsInv(s, a.t); }
    else if s.threads[a.t].pc.Scan? { ScanKeepsInv(s, a.t); }
    else if s.threads[a.t].pc.Take? { TakeKeepsInv(s, a.t); }
    else { ReturnKeepsInv(s, a.t); }
  }

  lemma InitInv(s: State)
    requires Init(s)
    ensures Inv(s)
  {
  }

  lemma {:induction false} RunKeepsInv(s: State, acts: seq<Act>)
    requires Inv(s) && Runs.Run(Step, s, acts).Some?
    ensures Inv(Runs.Run(Step, s, acts).value)
    decreases |acts|
  {
    if acts != [] {
      StepKeepsInv(s, acts[0]);
      RunKeepsInv(Step(s, acts[0]).value, acts[1..]);
    }
  }

  /** Leases keep the single-producer contract: over every run a slot has at most
      one holder, a clear bit means an occupied cell, and the `unwrap` never fails. */
  lemma OneHolderPerSlot(s: State, acts: seq<Act>)
    requires Init(s) && Runs.Run(Step, s, acts).Some?
    ensures var n := Runs.Run(Step, s, acts).value;
      && (forall t, u :: 0 <= t < |n.threads| && 0 <= u < |n.threads| && SameSlot(n.threads[t], n.threads[u]) ==> t == u)
      && |n.cells| == n.m && (forall i :: 0 <= i < n.m && i !in n.leased ==> n.cells[i].Some?)
      && (forall t :: 0 <= t < |n.threads| ==> !n.threads[t].pc.Failed?)
  {
    InitInv(s);
    RunKeepsInv(s, acts);
    var n := Runs.Run(Step, s, acts).value;
    forall t | 0 <= t < |n.threads|
      ensures !n.threads[t].pc.Failed?
    {
      if !Owns(n.threads[t].pc) { assert |n.threads[t].buf| == 0; }
    }
  }

  /** A `fetch_or` that finds its bit set lost it to another acquire that won it
      since this thread's load. */
  lemma LostRaceHasWinner(s: State, t: nat)
    requires Inv(s) && t < |s.threads| && s.threads[t].pc.Try? && s.threads[t].pc.slot in s.leased
    ensures exists j :: s.threads[t].pc.mark <= j < |s.wins| && s.wins[j] == s.threads[t].pc.slot
  {
    var mark := s.threads[t].pc.mark;
    var j :| 0 <= j < |s.wins[mark..]| && s.wins[mark..][j] == s.threads[t].pc.slot;
    assert s.wins[mark + j] == s.threads[t].pc.slot;
  }

  /** `after` is `before` and then entries of thread `t`. */
  ghost predicate GrownBy(before: seq<(nat, int)>, after: seq<(nat, int)>, t: nat)
  {
    before <= after && forall j :: |before| <= j < |after| ==> after[j].0 == t
  }

  lemma GrownOn(a: seq<(nat, int)>, b: seq<(nat, int)>, c: seq<(nat, int)>, t: nat)
    requires GrownBy(a, b, t) && GrownBy(b, c, t)
    ensures GrownBy(a, c, t)
  {
    forall j | |a| <= j < |c|
      ensures c[j].0 == t
    {
      if j < |b| { assert c[j] == b[j]; }
    }
  }

  /** While thread `t` holds slot `i`, no other thread's act touches its log. */
  lemma HolderKeeps(s: State, a: Act, t: nat, i: nat)
    requires Inv(s) && Step(s, a).Some? && t < |s.threads| && i < s.m
    requires s.threads[t].pc == Holding(i) && a != DropLease(t)
    ensures var n := Step(s, a).value;
      && t < |n.threads| && n.threads[t].pc == Holding(i) && n.m == s.m && |n.sends| == |s.sends|
      && GrownBy(s.sends[i], n.sends[i], t)
  {
    assert OwnerOk(s, s.threads[t]);
    if a.Send? {
      assert OwnerOk(s, s.threads[a.t]);
      assert a.t != t ==> !SameSlot(s.threads[a.t], s.threads[t]);
    }
  }

  /** Between two states of a run in which slot `i` stays with one holder, everything
      sent through it was sent by that holder, after what was there. */
  lemma {:induction false} HolderSendsAlone(s: State, acts: seq<Act>, t: nat, i: nat)
    requires Inv(s) && Runs.Run(Step, s, acts).Some? && t < |s.threads| && i < s.m
    requires s.threads[t].pc == Holding(i) && (forall j :: 0 <= j < |acts| ==> acts[j] != DropLease(t))
    ensures var n := Runs.Run(Step, s, acts).value;
      |n.sends| == |s.sends| && GrownBy(s.sends[i], n.sends[i], t)
    decreases |acts|
  {
    if acts != [] {
      StepKeepsInv(s, acts[0]);
      HolderKeeps(s, acts[0], t, i);
      var n := Step(s, acts[0]).value;
      HolderSendsAlone(n, acts[1..], t, i);
      GrownOn(s.sends[i], n.sends[i], Runs.Run(Step, s, acts).value.sends[i], t);
    }
  }

  /** What was published stays: across any number of leases by any threads, the log of a
      slot only grows at its end, so its ring carries one stream in publish order. */
  lemma {:induction false} PublishOrder(s: State, acts: seq<Act>, i: nat)
    requires Inv(s) && Runs.Run(Step, s, acts).Some? && i < s.m
    ensures var n := Runs.Run(Step, s, acts).value; i < |n.sends| && s.sends[i] <= n.sends[i]
    decreases |acts|
  {
    if acts != [] {
      var n := Step(s, acts[0]).value;
      StepKeepsInv(s, acts[0]);
      StepKeepsOrder(s, acts[0], i);
      PublishOrder(n, acts[1..], i);
    }
  }

  lemma StepKeepsOrder(s: State, a: Act, i: nat)
    requires Inv(s) && Step(s, a).Some? && i < s.m
    ensures var n := Step(s, a).value; n.m == s.m && |n.sends| == |s.sends| && s.sends[i] <= n.sends[i]
  {
    if a.Send? { assert OwnerOk(s, s.threads[a.t]); }
  }
}
