/** What the two-thread ring delivers: it is a bounded FIFO in every
    interleaving, disconnection loses nothing, and each value is owned once. */
module RingFifo {
  import opened Bits
  import opened RingTso
  import opened Runs

  /** The abstract queue. `unreleased` slots have been emptied and not given back to
      the sender yet; `shut` is set once the sender can add nothing more. */
  datatype Fifo<T> = Fifo(queue: seq<T>, unreleased: nat, cap: nat, shut: bool)

  datatype Event<T> =
    | Quiet | Enq(values: seq<T>) | Deq(values: seq<T>) | Release(slots: nat) | Shut
    | SawFull | SawEmpty | SawDisconnected

  ghost predicate FifoStep<T>(q: Fifo<T>, e: Event<T>, r: Fifo<T>)
  {
    match e
    case Quiet => r == q
    case Enq(vs) => !q.shut && vs != [] && |q.queue| + q.unreleased + |vs| <= q.cap && r == q.(queue := q.queue + vs)
    case Deq(vs) => vs != [] && vs <= q.queue && r == q.(queue := q.queue[|vs|..], unreleased := q.unreleased + |vs|)
    case Release(n) => 0 < n <= q.unreleased && r == q.(unreleased := q.unreleased - n)
    case Shut => !q.shut && r == q.(shut := true)
    case SawFull => |q.queue| + q.unreleased == q.cap && r == q
    case SawEmpty => q.queue == [] && r == q
    case SawDisconnected => q.queue == [] && q.shut && r == q
  }

  /** Items are in the queue from the flush of the head that publishes them to the
      store of the tail that gives their slots up; the slots are released when that
      store is flushed. */
  ghost function Abs<T>(s: State<T>): Fifo<T>
    requires Inv(s)
  {
    Fifo(s.issued[..s.mem.head][s.c.tail..], s.c.tail - s.mem.tail, s.cap, Closed(s.p.pc))
  }

  /** The abstract event of a step, read off the concrete step alone. */
  ghost function EventOf<T>(s: State<T>, a: Act<T>): Event<T>
    requires Inv(s)
  {
    if a.PFlush? && s.p.buf != [] && s.p.buf[0].StHead? && s.mem.head <= s.p.buf[0].head <= |s.issued| then
      Enq(s.issued[s.mem.head..s.p.buf[0].head])
    else if a.CRun? && s.c.pc.Publish? then Deq(s.received[s.c.tail..s.c.next])
    else if a.CFlush? && s.mem.tail <= a.upto then Release(a.upto - s.mem.tail)
    else if a.PRun? && s.p.pc.Close? then Shut
    else if a.PRun? && s.p.pc.Refresh? && s.p.head >= s.mem.tail + s.cap then SawFull
    else if a.CRun? && s.c.pc.Refresh? && s.mem.head == s.c.tail then SawEmpty
    else if a.CRun? && s.c.pc.Reread? && s.mem.head == s.c.tail then SawDisconnected
    else Quiet
  }

  lemma Extend<T>(xs: seq<T>, a: nat, t: nat, h: nat)
    requires a <= t <= h <= |xs|
    ensures xs[..t][a..] + xs[t..h] == xs[..h][a..]
  {
  }

  lemma Shrink<T>(xs: seq<T>, a: nat, t: nat, h: nat)
    requires a <= t <= h <= |xs|
    ensures xs[..h][a..][..t - a] == xs[a..t]
    ensures xs[..h][a..][t - a..] == xs[..h][t..]
  {
  }

  lemma Within<T>(xs: seq<T>, ys: seq<T>, a: nat, t: nat)
    requires ys <= xs && a <= t <= |ys|
    ensures ys[a..t] == xs[a..t]
  {
  }

  lemma ProducerFlushRefines<T>(s: State<T>)
    requires Inv(s) && s.p.buf != [] && Inv(Step(s, PFlush).value)
    ensures FifoStep(Abs(s), EventOf(s, PFlush), Abs(Step(s, PFlush).value))
  {
    if s.p.buf[0].StHead? {
      var h := s.p.buf[0].head;
      assert Publishing(s.p.pc) && h == s.p.head;
      Extend(s.issued, s.c.tail, s.mem.head, h);
    }
  }

  lemma ConsumerFlushRefines<T>(s: State<T>, upto: nat)
    requires Inv(s) && s.mem.tail < upto <= s.c.tail && Inv(Step(s, CFlush(upto)).value)
    ensures FifoStep(Abs(s), EventOf(s, CFlush(upto)), Abs(Step(s, CFlush(upto)).value))
  {
  }

  lemma PublishRefines<T>(s: State<T>, choice: bool)
    requires Inv(s) && s.c.pc.Publish? && CStep(s, choice).Some? && Inv(CStep(s, choice).value)
    ensures FifoStep(Abs(s), EventOf(s, CRun(choice)), Abs(CStep(s, choice).value))
  {
    Shrink(s.issued, s.c.tail, s.c.next, s.mem.head);
    Within(s.issued, s.received, s.c.tail, s.c.next);
  }

  lemma ProducerMovesNoCursor<T>(s: State<T>, choice: bool)
    requires !s.p.pc.Access? && PStep(s, choice).Some?
    ensures var n := PStep(s, choice).value;
      n.cap == s.cap && n.mem.head == s.mem.head && n.mem.tail == s.mem.tail && s.issued == n.issued && n.c == s.c
  {
  }

  lemma WakeKeepsClosing(g: Gate, at: Wake, closing: bool, parked: bool)
    ensures Closed(WakeStep(g, at, closing, parked)) == closing
  {
  }

  lemma StartSendShutsNothing<T>(cap: nat, p: Prod<T>)
    ensures !Closed(StartSend(cap, p).pc)
  {
  }

  lemma ProducerShutsByClosing<T>(s: State<T>, choice: bool)
    requires !s.p.pc.Access? && !s.p.pc.Close? && PStep(s, choice).Some?
    ensures Closed(PStep(s, choice).value.p.pc) == Closed(s.p.pc)
  {
    match s.p.pc
    case Waking(g, at, closing) => WakeKeepsClosing(g, at, closing, Parked(s.mem, g));
    case Refresh => StartSendShutsNothing(s.cap, s.p.(cachedTail := s.mem.tail));
    case _ => StartSendShutsNothing(s.cap, s.p);
  }

  /** The cursors, the history and the producer are as they were. */
  ghost predicate Unmoved<T>(s: State<T>, n: State<T>)
  {
    && n.cap == s.cap && n.mem.head == s.mem.head && n.mem.tail == s.mem.tail && n.c.tail == s.c.tail
    && n.issued == s.issued && n.p == s.p
  }

  lemma ConsumerWaitMovesNothing<T>(s: State<T>, choice: bool)
    requires s.c.pc.Spin1? || s.c.pc.Spin2? || s.c.pc.Announce? || Announced(s.c.pc)
    requires CStep(s, choice).Some?
    ensures Unmoved(s, CStep(s, choice).value)
  {
  }

  lemma ConsumerWakeMovesNothing<T>(s: State<T>, choice: bool)
    requires s.c.pc.Waking? && CStep(s, choice).Some?
    ensures Unmoved(s, CStep(s, choice).value)
  {
  }

  lemma ConsumerMovesNoCursor<T>(s: State<T>, choice: bool)
    requires !s.c.pc.Publish? && CStep(s, choice).Some?
    ensures Unmoved(s, CStep(s, choice).value)
  {
    if s.c.pc.Waking? {
      ConsumerWakeMovesNothing(s, choice);
    } else if s.c.pc.Spin1? || s.c.pc.Spin2? || s.c.pc.Announce? || Announced(s.c.pc) {
      ConsumerWaitMovesNothing(s, choice);
    }
  }

  lemma SameQueue<T>(s: State<T>, n: State<T>)
    requires Inv(s) && Inv(n) && n.mem.head == s.mem.head && n.c.tail == s.c.tail && s.issued <= n.issued
    ensures Abs(n).queue == Abs(s).queue
  {
  }

  lemma ProducerWriteRefines<T>(s: State<T>, choice: bool)
    requires Inv(s) && s.p.pc.Access? && PStep(s, choice).Some? && Inv(PStep(s, choice).value)
    ensures FifoStep(Abs(s), EventOf(s, PRun(choice)), Abs(PStep(s, choice).value))
  {
    SameQueue(s, PStep(s, choice).value);
  }

  lemma ProducerStepRefines<T>(s: State<T>, choice: bool)
    requires Inv(s) && PStep(s, choice).Some? && Inv(PStep(s, choice).value)
    ensures FifoStep(Abs(s), EventOf(s, PRun(choice)), Abs(PStep(s, choice).value))
  {
    if s.p.pc.Access? {
      ProducerWriteRefines(s, choice);
    } else {
      ProducerMovesNoCursor(s, choice);
      SameQueue(s, PStep(s, choice).value);
      if !s.p.pc.Close? { ProducerShutsByClosing(s, choice); }
    }
  }

  lemma ConsumerStepRefines<T>(s: State<T>, choice: bool)
    requires Inv(s) && CStep(s, choice).Some? && Inv(CStep(s, choice).value)
    ensures FifoStep(Abs(s), EventOf(s, CRun(choice)), Abs(CStep(s, choice).value))
  {
    if s.c.pc.Publish? {
      PublishRefines(s, choice);
    } else {
      ConsumerMovesNoCursor(s, choice);
      SameQueue(s, CStep(s, choice).value);
    }
  }

  lemma StartsMoveNothing<T>(s: State<T>, p: PCall<T>, c: CCall)
    ensures PStart(s, p).Some? ==>
              var n := PStart(s, p).value;
              n.mem == s.mem && n.cap == s.cap && n.issued == s.issued && n.c == s.c && !Closed(n.p.pc) && !Closed(s.p.pc)
    ensures CStart(s, c).Some? ==>
              var n := CStart(s, c).value;
              n.mem == s.mem && n.cap == s.cap && n.issued == s.issued && n.p == s.p && n.c.tail == s.c.tail
  {
  }

  lemma StartRefines<T>(s: State<T>, a: Act<T>)
    requires Inv(s) && (a.PBegin? || a.CBegin?) && Step(s, a).Some? && Inv(Step(s, a).value)
    ensures FifoStep(Abs(s), Quiet, Abs(Step(s, a).value))
  {
    match a
    case PBegin(call) => StartsMoveNothing(s, call, Drain);
    case CBegin(call) => StartsMoveNothing(s, DropProducer, call);
  }

  lemma FlushRefines<T>(s: State<T>, a: Act<T>)
    requires Inv(s) && (a.PFlush? || a.CFlush? || a.CFlushClosed?) && Step(s, a).Some? && Inv(Step(s, a).value)
    ensures FifoStep(Abs(s), EventOf(s, a), Abs(Step(s, a).value))
  {
    match a
    case PFlush => ProducerFlushRefines(s);
    case CFlush(upto) => ConsumerFlushRefines(s, upto);
    case CFlushClosed =>
  }

  /** Every step of either thread is one step of the queue, or none. */
  lemma StepRefines<T>(s: State<T>, a: Act<T>)
    requires Inv(s) && Step(s, a).Some?
    ensures Inv(Step(s, a).value)
    ensures FifoStep(Abs(s), EventOf(s, a), Abs(Step(s, a).value))
  {
    StepKeepsInv(s, a);
    match a
    case PRun(choice) => ProducerStepRefines(s, choice);
    case CRun(choice) => ConsumerStepRefines(s, choice);
    case Reclaim =>
    case PBegin(_) => StartRefines(s, a);
    case CBegin(_) => StartRefines(s, a);
    case _ => FlushRefines(s, a);
  }

  /** The events of a whole run. */
  ghost function Trace<T>(s: State<T>, acts: seq<Act<T>>): seq<Event<T>>
    requires Inv(s) && Run(Step, s, acts).Some?
    decreases |acts|
  {
    if acts == [] then []
    else StepKeepsInv(s, acts[0]); [EventOf(s, acts[0])] + Trace(Step(s, acts[0]).value, acts[1..])
  }

  ghost predicate FifoRun<T(!new)>(q: Fifo<T>, es: seq<Event<T>>, r: Fifo<T>)
    decreases |es|
  {
    if es == [] then r == q else exists m :: FifoStep(q, es[0], m) && FifoRun(m, es[1..], r)
  }

  function Entered<T>(es: seq<Event<T>>): seq<T>
  {
    if es == [] then [] else (if es[0].Enq? then es[0].values else []) + Entered(es[1..])
  }

  function Left<T>(es: seq<Event<T>>): seq<T>
  {
    if es == [] then [] else (if es[0].Deq? then es[0].values else []) + Left(es[1..])
  }

  /** A run of the ring is a run of the queue. */
  lemma {:induction false} RunRefines<T(!new)>(s: State<T>, acts: seq<Act<T>>)
    requires Inv(s) && Run(Step, s, acts).Some?
    ensures Inv(Run(Step, s, acts).value)
    ensures FifoRun(Abs(s), Trace(s, acts), Abs(Run(Step, s, acts).value))
    decreases |acts|
  {
    RunKeepsInv(s, acts);
    if acts != [] {
      StepRefines(s, acts[0]);
      var n := Step(s, acts[0]).value;
      RunRefines(n, acts[1..]);
      var es := Trace(s, acts);
      assert es[0] == EventOf(s, acts[0]) && es[1..] == Trace(n, acts[1..]);
      assert FifoStep(Abs(s), es[0], Abs(n)) && FifoRun(Abs(n), es[1..], Abs(Run(Step, s, acts).value));
    }
  }

  lemma StepConserves<T>(q: Fifo<T>, e: Event<T>, m: Fifo<T>)
    requires FifoStep(q, e, m) && |q.queue| + q.unreleased <= q.cap
    ensures (if e.Deq? then e.values else []) + m.queue == q.queue + (if e.Enq? then e.values else [])
    ensures |m.queue| + m.unreleased <= m.cap == q.cap && (q.shut ==> m.shut && !e.Enq?)
  {
    if e.Deq? { assert q.queue == e.values + q.queue[|e.values|..]; }
  }

  lemma Glue<T>(out: seq<T>, m: seq<T>, q: seq<T>, into: seq<T>, left: seq<T>, r: seq<T>, entered: seq<T>)
    requires out + m == q + into && left + r == m + entered
    ensures (out + left) + r == q + (into + entered)
  {
    assert (out + left) + r == out + (left + r) == (out + m) + entered;
  }

  /** Order and conservation of the abstract queue: what left, then what is left,
      is what was there, then what entered; and it never holds more than `cap`. */
  lemma {:induction false} FifoConserves<T(!new)>(q: Fifo<T>, es: seq<Event<T>>, r: Fifo<T>)
    requires FifoRun(q, es, r) && |q.queue| + q.unreleased <= q.cap
    ensures Left(es) + r.queue == q.queue + Entered(es)
    ensures |r.queue| + r.unreleased <= r.cap == q.cap && (q.shut ==> r.shut && Entered(es) == [])
    decreases |es|
  {
    if es != [] {
      var m :| FifoStep(q, es[0], m) && FifoRun(m, es[1..], r);
      StepConserves(q, es[0], m);
      FifoConserves(m, es[1..], r);
      var out, into := if es[0].Deq? then es[0].values else [], if es[0].Enq? then es[0].values else [];
      Glue(out, m.queue, q.queue, into, Left(es[1..]), r.queue, Entered(es[1..]));
    }
  }

  /** The ring in flight: published minus released is a window of at most `cap`
      of what was sent, in order, and what was received is exactly what precedes. */
  lemma SentIsReceivedAndInFlight<T(!new)>(s: State<T>, acts: seq<Act<T>>)
    requires Init(s) && Run(Step, s, acts).Some?
    ensures var n := Run(Step, s, acts).value;
      && Inv(n)
      && n.received <= n.issued
      && n.p.head - n.c.next <= n.cap
      && FifoRun(Fifo([], 0, s.cap, false), Trace(s, acts), Abs(n))
      && Left(Trace(s, acts)) + Abs(n).queue == Entered(Trace(s, acts))
  {
    InitInv(s);
    RunRefines(s, acts);
    assert Abs(s) == Fifo([], 0, s.cap, false);
    FifoConserves(Abs(s), Trace(s, acts), Abs(Run(Step, s, acts).value));
  }

  /** Full is not seen for nothing: unless all `cap` slots hold items, the consumer is
      inside the call that emptied the others, or left them unannounced when a drain
      unwound. */
  lemma FullIsReal<T>(s: State<T>)
    requires Inv(s) && s.p.pc.Refresh? && s.p.head >= s.mem.tail + s.cap
    ensures |Abs(s).queue| == s.cap || BeforeProbe(s.c.pc) || s.c.woken < s.c.tail
  {
    assert s.mem.head == s.p.head;
  }

  /** A slot write that reaches memory never lands on an item that is published or
      written and not yet released. */
  lemma SlotWriteIsFree<T>(s: State<T>, i: nat)
    requires Inv(s) && s.p.buf != [] && s.p.buf[0].StSlot? && s.mem.tail <= i < Written(s)
    ensures s.p.buf[0].ix != SlotOf(i, s.cap)
  {
    SlotsDistinct(i, Written(s), s.cap);
  }

  /** A receive that reports disconnection: the producer is gone for good and every
      item it ever wrote has been received, whatever the order of the last publish,
      the close and the two head loads. */
  lemma DisconnectMissesNothing<T>(s: State<T>, acts: seq<Act<T>>)
    requires Init(s) && Run(Step, s, acts).Some? && Run(Step, s, acts).value.c.disconnected
    ensures var n := Run(Step, s, acts).value; Closed(n.p.pc) && n.received == n.issued
  {
    InitInv(s);
    RunKeepsInv(s, acts);
  }

  /** A send is refused as closed only when the consumer handle has been dropped. */
  lemma RefusalMeansConsumerGone<T>(s: State<T>, acts: seq<Act<T>>)
    requires Init(s) && Run(Step, s, acts).Some? && Run(Step, s, acts).value.p.refused
    ensures Closed(Run(Step, s, acts).value.c.pc)
  {
    InitInv(s);
    RunKeepsInv(s, acts);
  }

  /** At teardown every issued value was received once or reclaimed once, in order;
      in particular after a drain whose callback unwound at any item. */
  lemma OwnedExactlyOnce<T>(s: State<T>, acts: seq<Act<T>>)
    requires Init(s) && Run(Step, s, acts).Some?
    requires Run(Step, s, acts).value.p.pc.Gone? && Run(Step, s, acts).value.c.pc.Gone? && Step(Run(Step, s, acts).value, Reclaim).None?
    ensures var n := Run(Step, s, acts).value; n.issued == n.received + n.reclaimed
  {
    InitInv(s);
    RunKeepsInv(s, acts);
    var n := Run(Step, s, acts).value;
    assert n.mem.tail + |n.reclaimed| == n.mem.head == |n.issued|;
  }

  // ---- the same tests on machine words ------------------------------------

  /** Every comparison that the producer makes on unbounded cursors comes out the same
      on wrapped words: full or not by the cache and by the tail loaded, the room that
      cuts a batch, and the slot index. */
  lemma ProducerTests<T>(s: State<T>, k: nat, bits: nat)
    requires Inv(s) && k < bits && s.cap == Pow2(k)
    ensures WrapSub(Wrap(s.p.head, bits), Wrap(s.p.cachedTail, bits), bits) == s.p.head - s.p.cachedTail
    ensures WrapSub(Wrap(s.p.head, bits), Wrap(s.mem.tail, bits), bits) == s.p.head - s.mem.tail
    ensures And(Wrap(s.p.next, bits), s.cap - 1) == SlotOf(s.p.next, s.cap)
  {
    Fits(k, bits);
    WrapSubExact(s.p.head, s.p.cachedTail, bits);
    WrapSubExact(s.p.head, s.mem.tail, bits);
    MaskedCursor(s.p.next, k, bits);
  }

  /** The same for the consumer: the head loaded against the tail in `recv`, in its
      waits and at the start of a drain, the drain loop against its target, the slot
      index, and the teardown loop. */
  lemma ConsumerTests<T>(s: State<T>, k: nat, bits: nat)
    requires Inv(s) && k < bits && s.cap == Pow2(k)
    ensures Wrap(s.mem.head, bits) == Wrap(s.c.tail, bits) <==> s.mem.head == s.c.tail
    ensures s.c.pc.Access? && s.c.draining ==>
              (Wrap(s.c.next + 1, bits) == Wrap(s.c.target, bits) <==> s.c.next + 1 == s.c.target)
    ensures And(Wrap(s.c.next, bits), s.cap - 1) == SlotOf(s.c.next, s.cap)
    ensures var i := s.mem.tail + |s.reclaimed|; Wrap(i, bits) == Wrap(s.mem.head, bits) <==> i == s.mem.head
  {
    Fits(k, bits);
    WrapInjective(s.mem.head, s.c.tail, bits);
    if s.c.pc.Access? && s.c.draining { WrapInjective(s.c.target, s.c.next + 1, bits); }
    MaskedCursor(s.c.next, k, bits);
    WrapInjective(s.mem.head, s.mem.tail + |s.reclaimed|, bits);
  }

  /** The cached test, wherever it is made: the cache is within a lap of the tail
      unless unwound drains have left it behind, and as long as they have not left it
      a whole word behind the words tell the same. */
  lemma CacheTest<T>(s: State<T>, k: nat, bits: nat)
    requires Inv(s) && k < bits && s.cap == Pow2(k) && s.c.tail < s.c.cachedHead + Pow2(bits)
    ensures Wrap(s.c.cachedHead, bits) == Wrap(s.c.tail, bits) <==> s.c.cachedHead == s.c.tail
  {
    Fits(k, bits);
    if s.c.cachedHead >= s.c.tail {
      WrapInjective(s.c.cachedHead, s.c.tail, bits);
    } else {
      WrapInjective(s.c.tail, s.c.cachedHead, bits);
    }
  }

  // ---- calls after an unwound drain -------------------------------------------

  /** A receive is kept from the handle exactly when the cache has been overtaken and
      nothing is left; a single published item lets it through. */
  lemma ReceiveIsOpenIff<T>(s: State<T>, blocking: bool)
    requires Inv(s) && s.c.pc.Idle?
    ensures CStart(s, Recv(blocking)).None? <==> s.c.cachedHead < s.c.tail == s.mem.head
  {
  }
}
