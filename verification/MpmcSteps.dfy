/** The many-to-many channel as a step machine: any number of producers and shard
    consumers, every interleaving of their cursor loads, slot accesses and cursor
    stores, with callbacks that unwind at any item and handles that drop at any time.

    A cursor store becomes visible to the other side at any later moment, and may
    skip intermediate values: more runs than any store buffer allows. A thread sees
    its own cursor at once. Wakes are the gates' business and do not appear. */
module MpmcSteps {
  import opened Bits
  import opened Slots
  import opened Runs
  import opened MpmcRouting

  /** One (shard, producer) ring. `sent` is everything written to a slot, `taken`
      counts what was moved out; `stored` and `tailStored` are the cursors last
      stored, `head` and `tail` what the other side sees of them. */
  datatype Lane<T> = Lane(slots: seq<Slot<T>>, sent: seq<T>, stored: nat, head: nat,
                          taken: nat, tailStored: nat, tail: nat)

  /** How a send call ended: the shard and what went there, with what is left of the
      batch; refused after looking at the shards `seen`; or refused as over. */
  datatype Outcome<T> = Took(shard: nat, items: seq<T>, left: seq<T>) | Refused(seen: set<nat>) | Over

  datatype Prod<T> =
    | PIdle
    | Scan(items: seq<T>, start: nat, j: nat, seen: set<nat>)
    | Write(items: seq<T>, shard: nat, i: nat, take: nat)
    | PGone

  datatype Kind = TryRecv | Recv | Drain

  /** One pass over the rings of a shard: `seen` are the heads loaded so far, `base`
      the heads when the pass began, and `quiet` whether nobody could send any more
      and everything stored was visible then. */
  datatype Pass = Pass(kind: Kind, p: nat, progress: bool, base: seq<nat>, seen: seq<nat>, quiet: bool)

  datatype Cons =
    | CIdle
    | Look(pass: Pass)
    | Take(pass: Pass, h: nat)
    | Check(pass: Pass)        // `recv` found nothing: is the channel over?
    | Ended(pass: Pass)        // `Err(Shutdown)`
    | CGone

  datatype State<T> = State(cap: nat, lanes: seq<seq<Lane<T>>>,
                            prods: seq<Prod<T>>, cursors: seq<nat>, calls: seq<seq<Outcome<T>>>,
                            cons: seq<Cons>, got: seq<seq<(nat, T)>>,
                            shutdown: bool, liveProducers: int, liveConsumers: int)

  datatype Act<T> =
    | Send(p: nat, items: seq<T>, batch: bool)
    | RunProducer(p: nat)
    | ShowHead(t: nat, p: nat, x: nat)
    | DropProducer(p: nat)
    | Receive(t: nat, kind: Kind)
    | RunConsumer(t: nat, unwind: bool)
    | ShowTail(t: nat, p: nat, x: nat)
    | DropConsumer(t: nat)
    | Signal

  predicate Shape<T>(s: State<T>)
  {
    && s.cap >= 1 && |s.lanes| >= 1 && |s.prods| >= 1
    && |s.cons| == |s.got| == |s.lanes|
    && |s.cursors| == |s.calls| == |s.prods|
    && (forall t :: 0 <= t < |s.lanes| ==> |s.lanes[t]| == |s.prods|)
  }

  function EmptyLane<T>(cap: nat): Lane<T>
  {
    Lane(seq(cap, _ => Uninit), [], 0, 0, 0, 0, 0)
  }

  ghost predicate Init<T>(s: State<T>)
  {
    && Shape(s)
    && (forall t, p :: 0 <= t < |s.lanes| && 0 <= p < |s.prods| ==> s.lanes[t][p] == EmptyLane(s.cap))
    && (forall p :: 0 <= p < |s.prods| ==> s.prods[p] == PIdle && s.calls[p] == [] && s.cursors[p] == p % |s.lanes|)
    && (forall t :: 0 <= t < |s.lanes| ==> s.cons[t] == CIdle && s.got[t] == [])
    && !s.shutdown && s.liveProducers == |s.prods| && s.liveConsumers == |s.lanes|
  }

  // ---- steps ------------------------------------------------------------

  function SetLane<T>(s: State<T>, t: nat, p: nat, l: Lane<T>): State<T>
    requires Shape(s) && t < |s.lanes| && p < |s.prods|
  {
    s.(lanes := s.lanes[t := s.lanes[t][p := l]])
  }

  /** The producer's call returns. */
  function Return<T>(s: State<T>, p: nat, o: Outcome<T>): State<T>
    requires Shape(s) && p < |s.prods|
  {
    s.(prods := s.prods[p := PIdle], calls := s.calls[p := s.calls[p] + [o]])
  }

  /** `try_send` asks first whether the channel is over, `try_send_batch` does not. */
  function BeginSend<T>(s: State<T>, p: nat, items: seq<T>, batch: bool): Option<State<T>>
    requires Shape(s) && p < |s.prods|
  {
    if !s.prods[p].PIdle? || items == [] || (!batch && |items| != 1) then None
    else if !batch && (s.shutdown || s.liveConsumers == 0) then Some(Return(s, p, Over))
    else Some(s.(prods := s.prods[p := Prod.Scan(items, s.cursors[p] % |s.lanes|, 0, {})]))
  }

  /** Load the tail of the next shard in rotation: go on if the ring is full. */
  function ScanStep<T>(s: State<T>, p: nat): State<T>
    requires Shape(s) && p < |s.prods| && s.prods[p].Scan?
  {
    var c := s.prods[p];
    var t := Visit(c.start, c.j, |s.lanes|);
    var l := s.lanes[t][p];
    var used := l.stored - l.tail;
    if used >= s.cap then
      if c.j + 1 < |s.lanes| then s.(prods := s.prods[p := c.(j := c.j + 1, seen := c.seen + {t})])
      else Return(s, p, Refused(c.seen + {t}))
    else
      var room := s.cap - used;
      s.(prods := s.prods[p := Write(c.items, t, 0, if |c.items| <= room then |c.items| else room)])
  }

  /** Write the next slot, or, when all are written, store the head. */
  function WriteStep<T>(s: State<T>, p: nat): Option<State<T>>
    requires Shape(s) && p < |s.prods| && s.prods[p].Write?
  {
    var c := s.prods[p];
    if c.shard >= |s.lanes| || c.take > |c.items| then None
    else
      var l := s.lanes[c.shard][p];
      if c.i < c.take then
        var ix := SlotOf(l.stored + c.i, s.cap);
        if ix >= |l.slots| then None
        else
          var n := l.(slots := l.slots[ix := Slot.Init(c.items[c.i])], sent := l.sent + [c.items[c.i]]);
          Some(SetLane(s, c.shard, p, n).(prods := s.prods[p := c.(i := c.i + 1)]))
      else
        var n := SetLane(s, c.shard, p, l.(stored := l.stored + c.take));
        Some(Return(n, p, Took(c.shard, c.items[..c.take], c.items[c.take..]))
             .(cursors := s.cursors[p := (c.shard + 1) % |s.lanes|]))
  }

  function ProducerStep<T>(s: State<T>, p: nat): Option<State<T>>
    requires Shape(s) && p < |s.prods|
  {
    match s.prods[p]
    case Scan(_, _, _, _) => Some(ScanStep(s, p))
    case Write(_, _, _, _) => WriteStep(s, p)
    case _ => None
  }

  function Heads<T>(ls: seq<Lane<T>>): (r: seq<nat>)
    ensures |r| == |ls| && forall p :: 0 <= p < |ls| ==> r[p] == ls[p].head
  {
    seq(|ls|, p requires 0 <= p < |ls| => ls[p].head)
  }

  predicate Quiet<T>(ls: seq<Lane<T>>, prods: seq<Prod<T>>)
  {
    && (forall p :: 0 <= p < |prods| ==> prods[p].PGone?)
    && (forall p :: 0 <= p < |ls| ==> ls[p].head == |ls[p].sent|)
  }

  function NewPass<T>(s: State<T>, t: nat, kind: Kind): Pass
    requires Shape(s) && t < |s.lanes|
  {
    Pass(kind, 0, false, Heads(s.lanes[t]), [], Quiet(s.lanes[t], s.prods))
  }

  /** Past the ring at `pass.p`: the next ring, another pass, or the end of the call. */
  function NextRing<T>(s: State<T>, t: nat, pass: Pass): Cons
    requires Shape(s) && t < |s.lanes|
  {
    if pass.p < |s.prods| then Look(pass)
    else if pass.progress then Look(NewPass(s, t, pass.kind))
    else if pass.kind.Recv? then Check(pass)
    else CIdle
  }

  /** Load the head of the ring; nothing new there means on to the next. */
  function LookStep<T>(s: State<T>, t: nat): Option<State<T>>
    requires Shape(s) && t < |s.lanes| && s.cons[t].Look?
  {
    var pass := s.cons[t].pass;
    if pass.p >= |s.prods| then None
    else
      var l := s.lanes[t][pass.p];
      var seen := pass.(seen := pass.seen + [l.head]);
      Some(s.(cons := s.cons[t := if l.head == l.taken then NextRing(s, t, seen.(p := pass.p + 1))
                                  else Take(seen, l.head)]))
  }

  /** Move one item out and hand it over. A receive then stores the tail and
      returns; a drain goes on up to the head it loaded, and its guard stores the
      tail there or where the callback unwinds. */
  function TakeStep<T>(s: State<T>, t: nat, unwind: bool): Option<State<T>>
    requires Shape(s) && t < |s.lanes| && s.cons[t].Take?
  {
    var pass, h := s.cons[t].pass, s.cons[t].h;
    if pass.p >= |s.prods| then None
    else
      var l := s.lanes[t][pass.p];
      var ix := SlotOf(l.taken, s.cap);
      if l.taken >= h || ix >= |l.slots| || l.slots[ix].Uninit? then None
      else
        var k := l.taken + 1;
        var over := !pass.kind.Drain? || unwind;
        var n := SetLane(s, t, pass.p, l.(slots := l.slots[ix := Uninit], taken := k,
                                          tailStored := if over || k == h then k else l.tailStored))
                 .(got := s.got[t := s.got[t] + [(pass.p, l.slots[ix].value)]]);
        Some(n.(cons := s.cons[t := if over then CIdle
                                    else if k == h then NextRing(n, t, pass.(p := pass.p + 1, progress := true))
                                    else s.cons[t]]))
  }

  /** `recv` found nothing: over means `Err(Shutdown)`, without another look. */
  function CheckStep<T>(s: State<T>, t: nat): State<T>
    requires Shape(s) && t < |s.lanes| && s.cons[t].Check?
  {
    s.(cons := s.cons[t := if s.shutdown || s.liveProducers == 0 then Ended(s.cons[t].pass)
                           else Look(NewPass(s, t, Recv))])
  }

  function ConsumerStep<T>(s: State<T>, t: nat, unwind: bool): Option<State<T>>
    requires Shape(s) && t < |s.lanes|
  {
    match s.cons[t]
    case Look(_) => LookStep(s, t)
    case Take(_, _) => TakeStep(s, t, unwind)
    case Check(_) => Some(CheckStep(s, t))
    case _ => None
  }

  function Step<T>(s: State<T>, a: Act<T>): Option<State<T>>
  {
    if !Shape(s) then None else
    match a
    case Send(p, items, batch) => if p < |s.prods| then BeginSend(s, p, items, batch) else None
    case RunProducer(p) => if p < |s.prods| then ProducerStep(s, p) else None
    case ShowHead(t, p, x) =>
      if t < |s.lanes| && p < |s.prods| && s.lanes[t][p].head <= x <= s.lanes[t][p].stored
      then Some(SetLane(s, t, p, s.lanes[t][p].(head := x))) else None
    case DropProducer(p) =>
      if p < |s.prods| && s.prods[p].PIdle?
      then Some(s.(prods := s.prods[p := PGone], liveProducers := s.liveProducers - 1)) else None
    case Receive(t, kind) =>
      if t < |s.lanes| && (s.cons[t].CIdle? || s.cons[t].Ended?)
      then Some(s.(cons := s.cons[t := Cons.Look(NewPass(s, t, kind))])) else None
    case RunConsumer(t, unwind) => if t < |s.lanes| then ConsumerStep(s, t, unwind) else None
    case ShowTail(t, p, x) =>
      if t < |s.lanes| && p < |s.prods| && s.lanes[t][p].tail <= x <= s.lanes[t][p].tailStored
      then Some(SetLane(s, t, p, s.lanes[t][p].(tail := x))) else None
    case DropConsumer(t) =>
      if t < |s.lanes| && (s.cons[t].CIdle? || s.cons[t].Ended?)
      then Some(s.(cons := s.cons[t := CGone], liveConsumers := s.liveConsumers - 1)) else None
    case Signal => Some(s.(shutdown := true))
  }

  // ---- what callers saw -------------------------------------------------------

  /** What a producer's calls put into shard `t`, whole batches in call order. */
  function Accepted<T>(calls: seq<Outcome<T>>, t: nat): seq<T>
  {
    if calls == [] then []
    else
      var o := calls[|calls| - 1];
      Accepted(calls[..|calls| - 1], t) + (if o.Took? && o.shard == t then o.items else [])
  }

  /** What a consumer was given out of the ring of producer `p`. */
  function Delivered<T>(got: seq<(nat, T)>, p: nat): seq<T>
  {
    if got == [] then []
    else
      var g := got[|got| - 1];
      Delivered(got[..|got| - 1], p) + (if g.0 == p then [g.1] else [])
  }

  /** Written to shard `t` by a call that has not stored the head yet. */
  function InFlight<T>(c: Prod<T>, t: nat): seq<T>
  {
    if c.Write? && c.shard == t && c.i <= |c.items| then c.items[..c.i] else []
  }

  // ---- the invariant ------------------------------------------------------------

  ghost predicate LaneOk<T>(l: Lane<T>, cap: nat)
  {
    && |l.slots| == cap >= 1
    && l.tail <= l.tailStored <= l.taken <= l.head <= l.stored <= |l.sent| <= l.tail + cap
    && Window(l.slots, l.taken, l.sent)
  }

  ghost predicate WriterOk<T>(l: Lane<T>, c: Prod<T>, t: nat, cap: nat)
  {
    && |l.sent| == l.stored + |InFlight(c, t)|
    && (c.Write? && c.shard == t ==> c.i <= c.take <= |c.items| && l.stored + c.take <= l.tail + cap)
  }

  ghost predicate ReaderOk<T>(l: Lane<T>, c: Cons, p: nat)
  {
    if c.Take? && c.pass.p == p then l.taken < c.h <= l.head else l.tailStored == l.taken
  }

  /** The two logs agree with the ring between them. */
  ghost predicate LogsOk<T>(l: Lane<T>, c: Prod<T>, calls: seq<Outcome<T>>, got: seq<(nat, T)>, t: nat, p: nat)
  {
    && l.sent == Accepted(calls, t) + InFlight(c, t)
    && l.taken <= |l.sent| && l.sent[..l.taken] == Delivered(got, p)
  }

  ghost predicate Link<T>(s: State<T>, t: nat, p: nat)
    requires Shape(s) && t < |s.lanes| && p < |s.prods|
  {
    var l := s.lanes[t][p];
    && LaneOk(l, s.cap) && WriterOk(l, s.prods[p], t, s.cap) && ReaderOk(l, s.cons[t], p)
    && LogsOk(l, s.prods[p], s.calls[p], s.got[t], t, p)
  }

  ghost predicate Links<T>(s: State<T>)
    requires Shape(s)
  {
    forall t: nat, p: nat :: t < |s.lanes| && p < |s.prods| ==> Link(s, t, p)
  }

  lemma AcceptedSnoc<T>(calls: seq<Outcome<T>>, o: Outcome<T>, t: nat)
    ensures Accepted(calls + [o], t) == Accepted(calls, t) + if o.Took? && o.shard == t then o.items else []
  {
    assert (calls + [o])[..|calls|] == calls;
  }

  lemma DeliveredSnoc<T>(got: seq<(nat, T)>, g: (nat, T), p: nat)
    ensures Delivered(got + [g], p) == Delivered(got, p) + if g.0 == p then [g.1] else []
  {
    assert (got + [g])[..|got|] == got;
  }

  /** A call that put nothing anywhere returns. */
  lemma ReturnKeepsLinks<T>(s: State<T>, p: nat, o: Outcome<T>)
    requires Shape(s) && Links(s) && p < |s.prods| && !s.prods[p].Write? && !o.Took?
    ensures Shape(Return(s, p, o)) && Links(Return(s, p, o))
  {
    var n := Return(s, p, o);
    forall t: nat, q: nat | t < |n.lanes| && q < |n.prods|
      ensures Link(n, t, q)
    {
      assert Link(s, t, q);
      if q == p { AcceptedSnoc(s.calls[p], o, t); }
    }
  }

  /** A producer that enters, or moves on in, its scan touches no ring. */
  lemma LooksKeepLinks<T>(s: State<T>, p: nat, c: Prod<T>)
    requires Shape(s) && Links(s) && p < |s.prods| && !s.prods[p].Write? && !c.Write?
    ensures Shape(s.(prods := s.prods[p := c])) && Links(s.(prods := s.prods[p := c]))
  {
    var n := s.(prods := s.prods[p := c]);
    forall t: nat, q: nat | t < |n.lanes| && q < |n.prods|
      ensures Link(n, t, q)
    {
      assert Link(s, t, q);
    }
  }

  lemma SendKeepsLinks<T>(s: State<T>, p: nat, items: seq<T>, batch: bool)
    requires Shape(s) && Links(s) && p < |s.prods| && BeginSend(s, p, items, batch).Some?
    ensures Shape(BeginSend(s, p, items, batch).value) && Links(BeginSend(s, p, items, batch).value)
  {
    if !batch && (s.shutdown || s.liveConsumers == 0) {
      ReturnKeepsLinks(s, p, Over);
    } else {
      LooksKeepLinks(s, p, Prod.Scan(items, s.cursors[p] % |s.lanes|, 0, {}));
    }
  }

  /** Room found: the claim on it is good, since the tail only grows. */
  lemma ClaimKeepsLinks<T>(s: State<T>, p: nat)
    requires Shape(s) && Links(s) && p < |s.prods| && s.prods[p].Scan? && ScanStep(s, p).prods[p].Write?
    ensures Shape(ScanStep(s, p)) && Links(ScanStep(s, p))
  {
    var n := ScanStep(s, p);
    forall t: nat, q: nat | t < |n.lanes| && q < |n.prods|
      ensures Link(n, t, q)
    {
      assert Link(s, t, q);
    }
  }

  lemma ScanKeepsLinks<T>(s: State<T>, p: nat)
    requires Shape(s) && Links(s) && p < |s.prods| && s.prods[p].Scan?
    ensures Shape(ScanStep(s, p)) && Links(ScanStep(s, p))
  {
    var c := s.prods[p];
    var u := Visit(c.start, c.j, |s.lanes|);
    if ScanStep(s, p).prods[p].Write? {
      ClaimKeepsLinks(s, p);
    } else if c.j + 1 < |s.lanes| {
      LooksKeepLinks(s, p, c.(j := c.j + 1, seen := c.seen + {u}));
    } else {
      ReturnKeepsLinks(s, p, Refused(c.seen + {u}));
    }
  }

  /** Writing the next slot: it is free, and the value joins the call's own part. */
  lemma WriteSlotLink<T>(l: Lane<T>, c: Prod<T>, t: nat, cap: nat)
    requires LaneOk(l, cap) && WriterOk(l, c, t, cap) && c.Write? && c.shard == t && c.i < c.take
    ensures var ix := SlotOf(l.stored + c.i, cap);
      && ix < |l.slots| && l.slots[ix].Uninit?
      && var n := l.(slots := l.slots[ix := Slot.Init(c.items[c.i])], sent := l.sent + [c.items[c.i]]);
         LaneOk(n, cap) && WriterOk(n, c.(i := c.i + 1), t, cap)
         && n.sent == l.sent + [c.items[c.i]] && InFlight(c.(i := c.i + 1), t) == InFlight(c, t) + [c.items[c.i]]
  {
    PutNext(l.slots, l.taken, l.sent, c.items[c.i]);
  }

  /** The ring that is written to. */
  lemma WriteKeepsLink<T>(s: State<T>, p: nat)
    requires Shape(s) && p < |s.prods| && s.prods[p].Write? && WriteStep(s, p).Some? && s.prods[p].i < s.prods[p].take
    requires s.prods[p].shard < |s.lanes| && Link(s, s.prods[p].shard, p) && Shape(WriteStep(s, p).value)
    ensures Link(WriteStep(s, p).value, s.prods[p].shard, p)
  {
    var n, c := WriteStep(s, p).value, s.prods[p];
    var l, m := s.lanes[c.shard][p], n.lanes[c.shard][p];
    WriteSlotLink(l, c, c.shard, s.cap);
    assert m.sent[..m.taken] == l.sent[..l.taken];
    assert Accepted(s.calls[p], c.shard) + InFlight(n.prods[p], c.shard)
        == (Accepted(s.calls[p], c.shard) + InFlight(c, c.shard)) + [c.items[c.i]];
  }

  lemma WriteKeepsLinks<T>(s: State<T>, p: nat)
    requires Shape(s) && Links(s) && p < |s.prods| && s.prods[p].Write? && WriteStep(s, p).Some?
    requires s.prods[p].i < s.prods[p].take
    ensures Shape(WriteStep(s, p).value) && Links(WriteStep(s, p).value)
  {
    var n := WriteStep(s, p).value;
    var c := s.prods[p];
    assert Link(s, c.shard, p);
    WriteSlotLink(s.lanes[c.shard][p], c, c.shard, s.cap);
    forall t: nat, q: nat | t < |n.lanes| && q < |n.prods|
      ensures Link(n, t, q)
    {
      assert Link(s, t, q);
      if t == c.shard && q == p { WriteKeepsLink(s, p); }
    }
  }

  /** Storing the head: what the call wrote becomes what it put there. */
  lemma PublishLink<T>(s: State<T>, p: nat)
    requires Shape(s) && Links(s) && p < |s.prods| && s.prods[p].Write? && WriteStep(s, p).Some?
    requires s.prods[p].i >= s.prods[p].take
    ensures Shape(WriteStep(s, p).value) && Link(WriteStep(s, p).value, s.prods[p].shard, p)
  {
    var c := s.prods[p];
    assert Link(s, c.shard, p);
    AcceptedSnoc(s.calls[p], Took(c.shard, c.items[..c.take], c.items[c.take..]), c.shard);
  }

  lemma PublishKeepsLinks<T>(s: State<T>, p: nat)
    requires Shape(s) && Links(s) && p < |s.prods| && s.prods[p].Write? && WriteStep(s, p).Some?
    requires s.prods[p].i >= s.prods[p].take
    ensures Shape(WriteStep(s, p).value) && Links(WriteStep(s, p).value)
  {
    var n := WriteStep(s, p).value;
    var c := s.prods[p];
    PublishLink(s, p);
    forall t: nat, q: nat | t < |n.lanes| && q < |n.prods| && (t, q) != (c.shard, p)
      ensures Link(n, t, q)
    {
      assert Link(s, t, q);
      if q == p { AcceptedSnoc(s.calls[p], Took(c.shard, c.items[..c.take], c.items[c.take..]), t); }
    }
  }

  lemma LookKeepsLinks<T>(s: State<T>, t: nat)
    requires Shape(s) && Links(s) && t < |s.lanes| && s.cons[t].Look? && LookStep(s, t).Some?
    ensures Shape(LookStep(s, t).value) && Links(LookStep(s, t).value)
  {
    var n := LookStep(s, t).value;
    forall u: nat, q: nat | u < |n.lanes| && q < |n.prods|
      ensures Link(n, u, q)
    {
      assert Link(s, u, q);
    }
  }

  /** Moving the oldest item out: the slot owns it, and it is the next one sent. */
  lemma TakeSlotLink<T>(l: Lane<T>, cap: nat)
    requires LaneOk(l, cap) && l.taken < l.head
    ensures var ix := SlotOf(l.taken, cap);
      && ix < |l.slots| && l.slots[ix] == Slot.Init(l.sent[l.taken])
      && LaneOk(l.(slots := l.slots[ix := Uninit], taken := l.taken + 1), cap)
      && l.sent[..l.taken + 1] == l.sent[..l.taken] + [l.sent[l.taken]]
  {
    TakeFirst(l.slots, l.taken, l.sent);
  }

  lemma TakeKeepsLinks<T>(s: State<T>, t: nat, unwind: bool)
    requires Shape(s) && Links(s) && t < |s.lanes| && s.cons[t].Take? && TakeStep(s, t, unwind).Some?
    ensures Shape(TakeStep(s, t, unwind).value) && Links(TakeStep(s, t, unwind).value)
  {
    var n := TakeStep(s, t, unwind).value;
    var p := s.cons[t].pass.p;
    assert Link(s, t, p);
    TakeSlotLink(s.lanes[t][p], s.cap);
    forall u: nat, q: nat | u < |n.lanes| && q < |n.prods|
      ensures Link(n, u, q)
    {
      assert Link(s, u, q);
      if u == t {
        var l := s.lanes[t][p];
        DeliveredSnoc(s.got[t], (p, l.sent[l.taken]), q);
      }
    }
  }

  /** A scan has recorded every shard it looked at, and a refusal has recorded all. */
  ghost predicate ScanOk<T>(s: State<T>, p: nat)
    requires Shape(s) && p < |s.prods|
  {
    var n, c := |s.lanes|, s.prods[p];
    && s.cursors[p] < n
    && (c.Scan? ==> c.start < n && c.j < n && c.items != [] && forall i :: 0 <= i < c.j ==> Visit(c.start, i, n) in c.seen)
    && (c.Write? ==> c.shard < n && c.take >= 1)
    && forall i :: 0 <= i < |s.calls[p]| ==> CallOk(s.calls[p][i], n)
  }

  predicate CallOk<T>(o: Outcome<T>, n: nat)
  {
    && (o.Refused? ==> forall t: nat :: t < n ==> t in o.seen)
    && (o.Took? ==> o.shard < n && o.items != [])
  }

  /** What a pass over the rings `ls` knows after looking at those below `p`. */
  ghost predicate PassOk<T>(ls: seq<Lane<T>>, prods: seq<Prod<T>>, pass: Pass, p: nat)
  {
    && p <= |ls| == |pass.base| && p <= |pass.seen| <= |ls|
    && (forall q :: 0 <= q < |ls| ==> pass.base[q] <= ls[q].head)
    && (forall q :: 0 <= q < |pass.seen| ==> pass.base[q] <= pass.seen[q] <= ls[q].head)
    && (!pass.progress ==> forall q :: 0 <= q < p ==> pass.seen[q] == ls[q].taken)
    && (pass.quiet ==> (forall q :: 0 <= q < |prods| ==> prods[q].PGone?)
                       && forall q :: 0 <= q < |ls| ==> pass.base[q] == |ls[q].sent|)
  }

  ghost predicate LookOk<T>(ls: seq<Lane<T>>, prods: seq<Prod<T>>, c: Cons)
  {
    match c
    case Look(pass) => pass.p < |ls| && |pass.seen| == pass.p && PassOk(ls, prods, pass, pass.p)
    case Take(pass, h) => pass.p < |ls| && |pass.seen| == pass.p + 1 && PassOk(ls, prods, pass, pass.p)
    case Check(pass) => |pass.seen| == |ls| && PassOk(ls, prods, pass, |ls|) && !pass.progress
    case Ended(pass) => |pass.seen| == |ls| && PassOk(ls, prods, pass, |ls|) && !pass.progress
    case _ => true
  }

  ghost predicate Inv<T>(s: State<T>)
  {
    && Shape(s) && Links(s)
    && (forall p: nat :: p < |s.prods| ==> ScanOk(s, p))
    && (forall t: nat :: t < |s.lanes| ==> LookOk(s.lanes[t], s.prods, s.cons[t]))
  }

  lemma InitInv<T>(s: State<T>)
    requires Init(s)
    ensures Inv(s)
  {
    forall t: nat, p: nat | t < |s.lanes| && p < |s.prods|
      ensures Link(s, t, p)
    {
      assert s.lanes[t][p] == EmptyLane(s.cap);
    }
  }

  lemma ScanSeesAll<T>(s: State<T>, p: nat)
    requires Shape(s) && p < |s.prods| && s.prods[p].Scan? && ScanOk(s, p) && s.prods[p].j + 1 == |s.lanes|
    ensures forall t: nat :: t < |s.lanes| ==>
      t in s.prods[p].seen + {Visit(s.prods[p].start, s.prods[p].j, |s.lanes|)}
  {
    var c, n := s.prods[p], |s.lanes|;
    forall t: nat | t < n
      ensures t in c.seen + {Visit(c.start, c.j, n)}
    {
      var i := Turn(c.start, t, n);
      assert Visit(c.start, i, n) == t;
    }
  }

  lemma ScanStepOk<T>(s: State<T>, p: nat)
    requires Inv(s) && p < |s.prods| && s.prods[p].Scan?
    ensures Shape(ScanStep(s, p)) && ScanOk(ScanStep(s, p), p)
  {
    assert ScanOk(s, p);
    var c := s.prods[p];
    assert Link(s, Visit(c.start, c.j, |s.lanes|), p);
    if c.j + 1 == |s.lanes| { ScanSeesAll(s, p); }
  }

  /** What a pass knows survives heads that move on and, once the producers are gone,
      rings that nobody writes. */
  lemma LookKept<T>(s: State<T>, n: State<T>, t: nat)
    requires Inv(s) && Shape(n) && |n.lanes| == |s.lanes| && |n.prods| == |s.prods| && t < |s.lanes|
    requires n.cons[t] == s.cons[t]
    requires forall q :: 0 <= q < |s.prods| && s.prods[q].PGone? ==> n.prods[q].PGone?
    requires forall q :: 0 <= q < |s.prods| ==>
      && s.lanes[t][q].head <= n.lanes[t][q].head && s.lanes[t][q].taken == n.lanes[t][q].taken
      && (s.prods[q].PGone? ==> n.lanes[t][q].sent == s.lanes[t][q].sent)
    ensures LookOk(n.lanes[t], n.prods, n.cons[t])
  {
    assert LookOk(s.lanes[t], s.prods, s.cons[t]);
  }

  lemma ProducerStepOk<T>(s: State<T>, p: nat)
    requires Inv(s) && p < |s.prods| && ProducerStep(s, p).Some?
    ensures var n := ProducerStep(s, p).value; Shape(n) && Links(n) && ScanOk(n, p)
  {
    var c := s.prods[p];
    assert ScanOk(s, p);
    if c.Scan? {
      ScanKeepsLinks(s, p);
      ScanStepOk(s, p);
    } else if c.i < c.take {
      WriteKeepsLinks(s, p);
    } else {
      PublishKeepsLinks(s, p);
      assert Link(s, c.shard, p);
    }
  }

  /** A producer's own step keeps what it and everyone else knows. */
  lemma ProducerKeepsInv<T>(s: State<T>, p: nat)
    requires Inv(s) && p < |s.prods| && ProducerStep(s, p).Some?
    ensures Inv(ProducerStep(s, p).value)
  {
    var n := ProducerStep(s, p).value;
    ProducerStepOk(s, p);
    forall q: nat | q < |n.prods|
      ensures ScanOk(n, q)
    {
      assert ScanOk(s, q);
    }
    forall t: nat | t < |n.lanes|
      ensures LookOk(n.lanes[t], n.prods, n.cons[t])
    {
      ProducerMovesOneLane(s, p, t);
      LookKept(s, n, t);
    }
  }

  lemma ProducerMovesOneLane<T>(s: State<T>, p: nat, t: nat)
    requires Shape(s) && p < |s.prods| && t < |s.lanes| && ProducerStep(s, p).Some?
    ensures var n := ProducerStep(s, p).value; |n.lanes| == |s.lanes| && n.cons == s.cons && |n.prods| == |s.prods|
    ensures var n := ProducerStep(s, p).value; forall q :: 0 <= q < |s.prods| ==>
      && n.lanes[t][q].head == s.lanes[t][q].head && n.lanes[t][q].taken == s.lanes[t][q].taken
      && (q != p ==> n.lanes[t][q] == s.lanes[t][q] && n.prods[q] == s.prods[q])
      && !s.prods[p].PGone?
  {
  }

  lemma BeginKeepsInv<T>(s: State<T>, p: nat, items: seq<T>, batch: bool)
    requires Inv(s) && p < |s.prods| && BeginSend(s, p, items, batch).Some?
    ensures Inv(BeginSend(s, p, items, batch).value)
  {
    var n := BeginSend(s, p, items, batch).value;
    SendKeepsLinks(s, p, items, batch);
    forall q: nat | q < |n.prods|
      ensures ScanOk(n, q)
    {
      assert ScanOk(s, q);
      ModUnique(s.cursors[q], |s.lanes|, 0, s.cursors[q]);
    }
    forall t: nat | t < |n.lanes|
      ensures LookOk(n.lanes[t], n.prods, n.cons[t])
    {
      LookKept(s, n, t);
    }
  }

  /** Drops and shutdown touch no ring. */
  lemma DropsKeepLinks<T>(s: State<T>, a: Act<T>)
    requires Inv(s) && Step(s, a).Some? && (a.DropProducer? || a.DropConsumer? || a.Signal?)
    ensures var n := Step(s, a).value; Shape(n) && Links(n)
  {
    var n := Step(s, a).value;
    forall t: nat, q: nat | t < |n.lanes| && q < |n.prods|
      ensures Link(n, t, q)
    {
      assert Link(s, t, q);
    }
  }

  lemma ShowKeepsLink<T>(s: State<T>, a: Act<T>)
    requires Inv(s) && Step(s, a).Some? && (a.ShowHead? || a.ShowTail?)
    ensures var n := Step(s, a).value; Shape(n) && Link(n, a.t, a.p)
  {
    assert Link(s, a.t, a.p);
  }

  /** A cursor that becomes visible changes nobody's own view. */
  lemma ShowsKeepLinks<T>(s: State<T>, a: Act<T>)
    requires Inv(s) && Step(s, a).Some? && (a.ShowHead? || a.ShowTail?)
    ensures var n := Step(s, a).value; Shape(n) && Links(n)
  {
    var n := Step(s, a).value;
    ShowKeepsLink(s, a);
    forall t: nat, q: nat | t < |n.lanes| && q < |n.prods| && (t, q) != (a.t, a.p)
      ensures Link(n, t, q)
    {
      assert Link(s, t, q);
    }
  }

  lemma OthersKeepInv<T>(s: State<T>, a: Act<T>)
    requires Inv(s) && Step(s, a).Some?
    requires a.DropProducer? || a.DropConsumer? || a.Signal? || a.ShowHead? || a.ShowTail?
    ensures Inv(Step(s, a).value)
  {
    var n := Step(s, a).value;
    if a.ShowHead? || a.ShowTail? { ShowsKeepLinks(s, a); } else { DropsKeepLinks(s, a); }
    forall q: nat | q < |n.prods|
      ensures ScanOk(n, q)
    {
      assert ScanOk(s, q);
    }
    forall t: nat | t < |n.lanes|
      ensures LookOk(n.lanes[t], n.prods, n.cons[t])
    {
      if n.cons[t] == s.cons[t] { LookKept(s, n, t); }
    }
  }

  lemma NewPassOk<T>(s: State<T>, t: nat, kind: Kind)
    requires Shape(s) && t < |s.lanes|
    ensures LookOk(s.lanes[t], s.prods, Look(NewPass(s, t, kind)))
  {
  }

  lemma LookFindsOk<T>(s: State<T>, t: nat)
    requires Inv(s) && t < |s.lanes| && s.cons[t].Look? && s.cons[t].pass.p < |s.prods|
    ensures var pass, l := s.cons[t].pass, s.lanes[t][s.cons[t].pass.p];
      && PassOk(s.lanes[t], s.prods, pass.(seen := pass.seen + [l.head]), pass.p)
      && (l.head == l.taken ==>
            PassOk(s.lanes[t], s.prods, pass.(seen := pass.seen + [l.head], p := pass.p + 1), pass.p + 1))
  {
    assert LookOk(s.lanes[t], s.prods, s.cons[t]);
  }

  lemma LookStepOk<T>(s: State<T>, t: nat)
    requires Inv(s) && t < |s.lanes| && s.cons[t].Look? && LookStep(s, t).Some?
    ensures var n := LookStep(s, t).value; LookOk(n.lanes[t], n.prods, n.cons[t])
  {
    assert LookOk(s.lanes[t], s.prods, s.cons[t]);
    LookFindsOk(s, t);
    NewPassOk(s, t, s.cons[t].pass.kind);
  }

  lemma TakeStepOk<T>(s: State<T>, t: nat, unwind: bool)
    requires Inv(s) && t < |s.lanes| && s.cons[t].Take? && TakeStep(s, t, unwind).Some?
    ensures var n := TakeStep(s, t, unwind).value; LookOk(n.lanes[t], n.prods, n.cons[t])
  {
    assert LookOk(s.lanes[t], s.prods, s.cons[t]);
    assert Link(s, t, s.cons[t].pass.p);
    var n := TakeStep(s, t, unwind).value;
    if n.cons[t].Look? && n.cons[t].pass.p == 0 { NewPassOk(n, t, n.cons[t].pass.kind); }
  }

  lemma ConsumerLookOk<T>(s: State<T>, t: nat, unwind: bool)
    requires Inv(s) && t < |s.lanes| && ConsumerStep(s, t, unwind).Some?
    ensures var n := ConsumerStep(s, t, unwind).value; LookOk(n.lanes[t], n.prods, n.cons[t])
  {
    if s.cons[t].Look? {
      LookStepOk(s, t);
    } else if s.cons[t].Take? {
      TakeStepOk(s, t, unwind);
    } else {
      assert LookOk(s.lanes[t], s.prods, s.cons[t]);
      NewPassOk(s, t, Recv);
    }
  }

  lemma ConsumerKeepsLinks<T>(s: State<T>, t: nat, unwind: bool)
    requires Inv(s) && t < |s.lanes| && ConsumerStep(s, t, unwind).Some?
    ensures Shape(ConsumerStep(s, t, unwind).value) && Links(ConsumerStep(s, t, unwind).value)
  {
    var n := ConsumerStep(s, t, unwind).value;
    if s.cons[t].Look? { LookKeepsLinks(s, t); }
    if s.cons[t].Take? { TakeKeepsLinks(s, t, unwind); }
    if s.cons[t].Check? {
      forall u: nat, q: nat | u < |n.lanes| && q < |n.prods|
        ensures Link(n, u, q)
      {
        assert Link(s, u, q);
      }
    }
  }

  lemma ConsumerLeavesOthers<T>(s: State<T>, t: nat, unwind: bool)
    requires Inv(s) && t < |s.lanes| && ConsumerStep(s, t, unwind).Some? && Shape(ConsumerStep(s, t, unwind).value)
    ensures var n := ConsumerStep(s, t, unwind).value;
      && |n.lanes| == |s.lanes| && |n.prods| == |s.prods|
      && (forall q: nat :: q < |n.prods| ==> ScanOk(n, q))
      && (forall u: nat :: u < |n.lanes| && u != t ==> LookOk(n.lanes[u], n.prods, n.cons[u]))
  {
    var n := ConsumerStep(s, t, unwind).value;
    forall q: nat | q < |n.prods|
      ensures ScanOk(n, q)
    {
      assert ScanOk(s, q);
    }
    forall u: nat | u < |n.lanes| && u != t
      ensures LookOk(n.lanes[u], n.prods, n.cons[u])
    {
      assert LookOk(s.lanes[u], s.prods, s.cons[u]);
    }
  }

  lemma ConsumerKeepsInv<T>(s: State<T>, t: nat, unwind: bool)
    requires Inv(s) && t < |s.lanes| && ConsumerStep(s, t, unwind).Some?
    ensures Inv(ConsumerStep(s, t, unwind).value)
  {
    ConsumerKeepsLinks(s, t, unwind);
    ConsumerLeavesOthers(s, t, unwind);
    ConsumerLookOk(s, t, unwind);
  }

  lemma ReceiveKeepsInv<T>(s: State<T>, t: nat, kind: Kind)
    requires Inv(s) && Step(s, Receive(t, kind)).Some?
    ensures Inv(Step(s, Receive(t, kind)).value)
  {
    var n := Step(s, Receive(t, kind)).value;
    forall u: nat, q: nat | u < |n.lanes| && q < |n.prods|
      ensures Link(n, u, q)
    {
      assert Link(s, u, q);
    }
    forall q: nat | q < |n.prods|
      ensures ScanOk(n, q)
    {
      assert ScanOk(s, q);
    }
  }

  lemma StepKeepsInv<T>(s: State<T>, a: Act<T>)
    requires Inv(s) && Step(s, a).Some?
    ensures Inv(Step(s, a).value)
  {
    match a
    case RunProducer(p) => ProducerKeepsInv(s, p);
    case RunConsumer(t, unwind) => ConsumerKeepsInv(s, t, unwind);
    case Receive(t, kind) => ReceiveKeepsInv(s, t, kind);
    case Send(p, items, batch) => BeginKeepsInv(s, p, items, batch);
    case _ => OthersKeepInv(s, a);
  }

  lemma {:induction false} RunKeepsInv<T>(s: State<T>, acts: seq<Act<T>>)
    requires Inv(s) && Run(Step, s, acts).Some?
    ensures Inv(Run(Step, s, acts).value)
    decreases |acts|
  {
    if acts != [] {
      StepKeepsInv(s, acts[0]);
      RunKeepsInv(Step(s, acts[0]).value, acts[1..]);
    }
  }

  // ---- main results ---------------------------------------------------------------

  /** Conservation and order, in every interleaving: what a producer's calls put into
      a shard is what its consumer was given out of that ring, followed by what the
      ring holds; the ring never holds more than its capacity, and its slots own
      exactly what it holds. */
  lemma AcceptedIsDeliveredOrHeld<T>(s: State<T>, acts: seq<Act<T>>, t: nat, p: nat)
    requires Init(s) && Run(Step, s, acts).Some? && t < |s.lanes| && p < |s.prods|
    ensures var n := Run(Step, s, acts).value; Shape(n) && t < |n.lanes| && p < |n.prods|
    ensures var n := Run(Step, s, acts).value; var l := n.lanes[t][p];
      && l.taken <= |l.sent| <= l.taken + n.cap
      && Accepted(n.calls[p], t) + InFlight(n.prods[p], t) == Delivered(n.got[t], p) + l.sent[l.taken..]
      && |l.slots| == n.cap && Window(l.slots, l.taken, l.sent)
  {
    InitInv(s);
    RunKeepsInv(s, acts);
    RunKeepsSize(s, acts);
    var n := Run(Step, s, acts).value;
    assert Link(n, t, p);
    var l := n.lanes[t][p];
    assert l.sent == l.sent[..l.taken] + l.sent[l.taken..];
  }

  lemma {:induction false} RunKeepsSize<T>(s: State<T>, acts: seq<Act<T>>)
    requires Inv(s) && Run(Step, s, acts).Some?
    ensures var n := Run(Step, s, acts).value;
      |n.lanes| == |s.lanes| && |n.prods| == |s.prods| && n.cap == s.cap
    decreases |acts|
  {
    if acts != [] {
      StepKeepsInv(s, acts[0]);
      StepKeepsSize(s, acts[0]);
      RunKeepsSize(Step(s, acts[0]).value, acts[1..]);
    }
  }

  lemma StepKeepsSize<T>(s: State<T>, a: Act<T>)
    requires Step(s, a).Some?
    ensures var n := Step(s, a).value; |n.lanes| == |s.lanes| && |n.prods| == |s.prods| && n.cap == s.cap
  {
  }

  /** Once every handle is gone, teardown finds in each ring exactly what was accepted
      and never delivered, each item in its own slot and every other slot empty. */
  lemma TeardownOwnsTheRest<T>(s: State<T>, acts: seq<Act<T>>, t: nat, p: nat)
    requires Init(s) && Run(Step, s, acts).Some? && t < |s.lanes| && p < |s.prods|
    requires var n := Run(Step, s, acts).value;
      p < |n.prods| && n.prods[p].PGone? && t < |n.cons| && n.cons[t].CGone?
    ensures var n := Run(Step, s, acts).value; Shape(n) && t < |n.lanes|
    ensures var n := Run(Step, s, acts).value; var l := n.lanes[t][p];
      && l.taken == l.tailStored <= l.stored == |l.sent|
      && Accepted(n.calls[p], t) == Delivered(n.got[t], p) + l.sent[l.tailStored..l.stored]
      && forall i :: l.tailStored <= i < l.stored ==>
           SlotOf(i, n.cap) < |l.slots| && l.slots[SlotOf(i, n.cap)] == Slot.Init(l.sent[i])
  {
    AcceptedIsDeliveredOrHeld(s, acts, t, p);
    InitInv(s);
    RunKeepsInv(s, acts);
    var n := Run(Step, s, acts).value;
    assert Link(n, t, p);
    var l := n.lanes[t][p];
    assert l.sent[l.taken..] == l.sent[l.tailStored..l.stored];
  }

  /** A batch lands in one ring, contiguous and in order: call number `i` of the
      producer occupies one stretch of what its ring of that shard was ever sent. */
  lemma BatchIsContiguous<T>(s: State<T>, acts: seq<Act<T>>, p: nat, i: nat) returns (at: nat)
    requires Init(s) && Run(Step, s, acts).Some? && p < |s.prods|
    requires var n := Run(Step, s, acts).value; p < |n.calls| && i < |n.calls[p]| && n.calls[p][i].Took?
    ensures var n := Run(Step, s, acts).value; var o := n.calls[p][i];
      && o.shard < |n.lanes| && p < |n.lanes[o.shard]|
      && at + |o.items| <= |n.lanes[o.shard][p].sent|
      && n.lanes[o.shard][p].sent[at..at + |o.items|] == o.items
  {
    InitInv(s);
    RunKeepsInv(s, acts);
    RunKeepsSize(s, acts);
    var n := Run(Step, s, acts).value;
    var o := n.calls[p][i];
    assert ScanOk(n, p) && CallOk(n.calls[p][i], |n.lanes|);
    assert Link(n, o.shard, p);
    at := |Accepted(n.calls[p][..i], o.shard)|;
    AcceptedGrows(n.calls[p], o.shard, i);
  }

  lemma {:induction false} AcceptedGrows<T>(calls: seq<Outcome<T>>, t: nat, i: nat)
    requires i < |calls| && calls[i].Took? && calls[i].shard == t
    ensures var at := |Accepted(calls[..i], t)|; var k := |calls[i].items|;
      at + k <= |Accepted(calls, t)| && Accepted(calls, t)[at..at + k] == calls[i].items
  {
    var init := calls[..|calls| - 1];
    if i == |calls| - 1 {
      assert calls[..i] == init;
    } else {
      AcceptedGrows(init, t, i);
      assert init[..i] == calls[..i];
    }
  }

  /** Room, as the producer sees it, is never more than there is, and a full look
      means that the occupancy it saw was the whole ring. */
  lemma FullWhenScanned<T>(s: State<T>, p: nat)
    requires Inv(s) && p < |s.prods| && s.prods[p].Scan?
    ensures var c := s.prods[p]; var t := Visit(c.start, c.j, |s.lanes|); var l := s.lanes[t][p];
      && (ScanStep(s, p).prods[p].Write? <==> |l.sent| < l.tail + s.cap)
      && (!ScanStep(s, p).prods[p].Write? ==> |l.sent| == l.tail + s.cap)
  {
    assert Link(s, Visit(s.prods[p].start, s.prods[p].j, |s.lanes|), p);
  }

  /** After the first `i` acts, producer `p` is in its call number `call` about to look
      at shard `t`, and its ring there is full as far as it can see. */
  ghost predicate FullLook<T>(s: State<T>, acts: seq<Act<T>>, i: nat, p: nat, t: nat, call: nat)
  {
    i <= |acts| && Run(Step, s, acts[..i]).Some? && LooksFull(Run(Step, s, acts[..i]).value, p, t, call)
  }

  ghost predicate LooksFull<T>(x: State<T>, p: nat, t: nat, call: nat)
  {
    && Shape(x) && p < |x.prods| && t < |x.lanes| && x.prods[p].Scan? && |x.calls[p]| == call
    && Visit(x.prods[p].start, x.prods[p].j, |x.lanes|) == t
    && x.lanes[t][p].stored - x.lanes[t][p].tail >= x.cap
  }

  /** Call number `call` of producer `p` has looked at shard `t` and passed it over. */
  ghost predicate PassedOver<T>(x: State<T>, p: nat, t: nat, call: nat)
  {
    && p < |x.prods| && p < |x.calls|
    && (if call < |x.calls[p]| then x.calls[p][call].Refused? && t in x.calls[p][call].seen
        else call == |x.calls[p]| && x.prods[p].Scan? && t in x.prods[p].seen)
  }

  lemma StepAddsLook<T>(x: State<T>, a: Act<T>, p: nat, t: nat, call: nat)
    requires Step(x, a).Some? && PassedOver(Step(x, a).value, p, t, call)
    ensures PassedOver(x, p, t, call) || LooksFull(x, p, t, call)
  {
  }

  lemma {:induction false} LookWasFull<T>(s: State<T>, acts: seq<Act<T>>, p: nat, t: nat, call: nat)
    requires Init(s) && Run(Step, s, acts).Some? && PassedOver(Run(Step, s, acts).value, p, t, call)
    ensures exists i: nat :: FullLook(s, acts, i, p, t, call)
    decreases |acts|
  {
    if acts != [] {
      var before := acts[..|acts| - 1];
      SplitLast(Step, s, acts);
      StepAddsLook(Run(Step, s, before).value, acts[|acts| - 1], p, t, call);
      if PassedOver(Run(Step, s, before).value, p, t, call) {
        LookWasFull(s, before, p, t, call);
        var i: nat :| FullLook(s, before, i, p, t, call);
        assert acts[..i] == before[..i];
        assert FullLook(s, acts, i, p, t, call);
      } else {
        assert FullLook(s, acts, |before|, p, t, call);
      }
    }
  }

  /** A send is refused for want of room only after it looked at every shard, and its
      ring there was full at that look. */
  lemma RefusalSawEveryShardFull<T>(s: State<T>, acts: seq<Act<T>>, p: nat, call: nat, t: nat)
    requires Init(s) && Run(Step, s, acts).Some? && p < |s.prods| && t < |s.lanes|
    requires var n := Run(Step, s, acts).value; p < |n.calls| && call < |n.calls[p]| && n.calls[p][call].Refused?
    ensures exists i: nat :: FullLook(s, acts, i, p, t, call)
  {
    InitInv(s);
    RunKeepsInv(s, acts);
    RunKeepsSize(s, acts);
    var n := Run(Step, s, acts).value;
    assert ScanOk(n, p) && CallOk(n.calls[p][call], |n.lanes|);
    LookWasFull(s, acts, p, t, call);
  }

  /** Every comparison of cursors in this machine comes out the same on wrapped words:
      occupancy against a tail seen late, empty or not, and the end of a drain. */
  lemma CursorTests<T>(s: State<T>, t: nat, p: nat, k: nat, bits: nat)
    requires Inv(s) && t < |s.lanes| && p < |s.prods| && k < bits && s.cap == Pow2(k)
    ensures var l := s.lanes[t][p];
      && WrapSub(Wrap(l.stored, bits), Wrap(l.tail, bits), bits) == l.stored - l.tail
      && (Wrap(l.head, bits) == Wrap(l.taken, bits) <==> l.head == l.taken)
      && (s.cons[t].Take? && s.cons[t].pass.p == p ==>
            (Wrap(l.taken + 1, bits) == Wrap(s.cons[t].h, bits) <==> l.taken + 1 == s.cons[t].h))
  {
    assert Link(s, t, p);
    var l := s.lanes[t][p];
    Fits(k, bits);
    WrapSubExact(l.stored, l.tail, bits);
    WrapInjective(l.head, l.taken, bits);
    if s.cons[t].Take? && s.cons[t].pass.p == p { WrapInjective(s.cons[t].h, l.taken + 1, bits); }
  }

  /** The call of consumer `t` ends with nothing found: its last pass took from each
      ring everything it then saw there, and so everything visible when the pass
      began. If nobody could send any more then, the shard is drained. */
  lemma NothingFoundMeansTaken<T>(s: State<T>, t: nat, q: nat)
    requires Inv(s) && t < |s.lanes| && q < |s.prods| && s.cons[t].Look? && LookStep(s, t).Some?
    requires var c := LookStep(s, t).value.cons[t]; c.CIdle? || c.Check?
    ensures var pass, l := s.cons[t].pass, s.lanes[t][q];
      && |pass.base| == |s.prods| && pass.base[q] <= l.taken
      && (q < pass.p ==> q < |pass.seen| && pass.seen[q] == l.taken)
      && (q == pass.p ==> l.head == l.taken)
      && (pass.quiet ==> l.taken == |l.sent|)
  {
    assert LookOk(s.lanes[t], s.prods, s.cons[t]);
    assert Link(s, t, q);
  }

  /** One producer, one shard, one slot. */
  function Small(): State<int>
  {
    State(1, [[EmptyLane(1)]], [PIdle], [0], [[]], [CIdle], [[]], false, 1, 1)
  }

  lemma ReceiverLooked() returns (acts: seq<Act<int>>, n: State<int>)
    ensures Init(Small()) && Run(Step, Small(), acts) == Some(n)
    ensures |n.cons| == 1 && n.cons[0].Check? && n == Small().(cons := n.cons)
  {
    var s := Small();
    acts, n := [], s;
    acts, n := Go(Step, s, acts, n, Receive(0, Recv));
    acts, n := Go(Step, s, acts, n, RunConsumer(0, false));
  }

  /** One send of one item, up to the moment the item is visible. */
  lemma ProducerSends(s: State<int>) returns (acts: seq<Act<int>>, n: State<int>)
    requires s == Small().(cons := s.cons) && |s.cons| == 1
    ensures Run(Step, s, acts) == Some(n)
    ensures n.cons == s.cons && n.prods == [PIdle] && !n.shutdown && n.liveProducers == 1 && Shape(n)
    ensures |n.lanes| == 1 && n.lanes[0][0].taken == 0 && n.lanes[0][0].head == 1
  {
    acts, n := [], s;
    acts, n := Go(Step, s, acts, n, Act.Send(0, [7], false));
    ModUnique(0, 1, 0, 0);
    acts, n := Go(Step, s, acts, n, RunProducer(0));
    assert n.prods[0].Write?;
    acts, n := Go(Step, s, acts, n, RunProducer(0));
    acts, n := Go(Step, s, acts, n, RunProducer(0));
    acts, n := Go(Step, s, acts, n, ShowHead(0, 0, 1));
  }

  /** Nobody shuts anything down: the receiver looks, the only producer sends and is
      dropped, and the receiver reports `Err(Shutdown)` with the item in its ring. */
  lemma RecvMayLeaveAnItem() returns (acts: seq<Act<int>>)
    ensures Init(Small()) && Run(Step, Small(), acts).Some?
    ensures var n := Run(Step, Small(), acts).value;
      && |n.cons| == 1 && n.cons[0].Ended? && !n.shutdown
      && |n.lanes| == 1 && |n.lanes[0]| == 1 && n.lanes[0][0].taken < n.lanes[0][0].head
  {
    var s := Small();
    var xs, a := ReceiverLooked();
    var ys, n := ProducerSends(a);
    Compose(Step, s, xs, ys);
    acts := xs + ys;
    acts, n := Go(Step, s, acts, n, DropProducer(0));
    acts, n := Go(Step, s, acts, n, RunConsumer(0, false));
  }

  // ---- a drain ends ----------------------------------------------------------------

  predicate Draining(c: Cons)
  {
    (c.Look? || c.Take?) && c.pass.kind.Drain?
  }

  /** How many items have been moved out of the rings of a shard. */
  function TakenIn<T>(ls: seq<Lane<T>>): nat
  {
    if ls == [] then 0 else ls[0].taken + TakenIn(ls[1..])
  }

  lemma {:induction false} TakenOne<T>(ls: seq<Lane<T>>, n: seq<Lane<T>>, p: nat, d: nat)
    requires |n| == |ls| && p < |ls| && n[p].taken == ls[p].taken + d
    requires forall q :: 0 <= q < |ls| && q != p ==> n[q].taken == ls[q].taken
    ensures TakenIn(n) == TakenIn(ls) + d
  {
    if p == 0 { TakenSame(ls[1..], n[1..]); } else { TakenOne(ls[1..], n[1..], p - 1, d); }
  }

  lemma {:induction false} TakenSame<T>(ls: seq<Lane<T>>, n: seq<Lane<T>>)
    requires |n| == |ls| && forall q :: 0 <= q < |ls| ==> n[q].taken == ls[q].taken
    ensures TakenIn(n) == TakenIn(ls)
  {
    if ls != [] { TakenSame(ls[1..], n[1..]); }
  }

  /** The most steps of its own that a drain over `m` rings makes per item. */
  function StepsPerItem(m: nat): nat
  {
    4 * m + 4
  }

  /** How far a drain is from the end of its last pass. */
  function Left(c: Cons, m: nat): int
    requires Draining(c)
  {
    (if c.pass.progress then 2 * m + 2 else 0) + 2 * (m - c.pass.p) - (if c.Take? then 1 else 0)
  }

  /** A drain can always move; a step of its own returns, or takes an item, or brings
      the end of the pass closer. */
  lemma DrainMoves<T>(s: State<T>, t: nat, unwind: bool)
    requires Inv(s) && t < |s.lanes| && Draining(s.cons[t])
    ensures ConsumerStep(s, t, unwind).Some?
    ensures var n, m := ConsumerStep(s, t, unwind).value, |s.prods|;
      && |n.lanes| == |n.cons| == |s.lanes| && |n.prods| == m
      && (n.cons[t].CIdle? ||
          (Draining(n.cons[t]) &&
           if s.cons[t].Take?
           then TakenIn(n.lanes[t]) == TakenIn(s.lanes[t]) + 1 && Left(n.cons[t], m) < Left(s.cons[t], m) + StepsPerItem(m)
           else TakenIn(n.lanes[t]) == TakenIn(s.lanes[t]) && Left(n.cons[t], m) < Left(s.cons[t], m)))
  {
    assert LookOk(s.lanes[t], s.prods, s.cons[t]);
    var p := s.cons[t].pass.p;
    assert Link(s, t, p);
    if s.cons[t].Take? {
      TakeSlotLink(s.lanes[t][p], s.cap);
      TakenOne(s.lanes[t], ConsumerStep(s, t, unwind).value.lanes[t], p, 1);
    }
  }

  lemma OthersTakeNothing<T>(s: State<T>, a: Act<T>, t: nat)
    requires Shape(s) && Step(s, a).Some? && t < |s.lanes| && !(a.RunConsumer? && a.t == t)
    ensures var n := Step(s, a).value;
      && |n.lanes| == |s.lanes| && |n.lanes[t]| == |s.lanes[t]|
      && forall q :: 0 <= q < |s.lanes[t]| ==> n.lanes[t][q].taken == s.lanes[t][q].taken
  {
    if a.RunProducer? { ProducerMovesOneLane(s, a.p, t); }
  }

  /** Nobody else moves a drain or takes from its shard. */
  lemma OthersLeaveTheDrain<T>(s: State<T>, a: Act<T>, t: nat)
    requires Inv(s) && Step(s, a).Some? && t < |s.lanes| && Draining(s.cons[t])
    requires !(a.RunConsumer? && a.t == t)
    ensures var n := Step(s, a).value;
      |n.cons| == |n.lanes| == |s.lanes| && |n.prods| == |s.prods| && n.cons[t] == s.cons[t]
      && TakenIn(n.lanes[t]) == TakenIn(s.lanes[t])
  {
    OthersTakeNothing(s, a, t);
    TakenSame(s.lanes[t], Step(s, a).value.lanes[t]);
  }

  function OwnSteps<T>(acts: seq<Act<T>>, t: nat): nat
  {
    if acts == [] then 0 else (if acts[0].RunConsumer? && acts[0].t == t then 1 else 0) + OwnSteps(acts[1..], t)
  }

  /** Consumer `t` is inside one drain all through the run. */
  predicate DrainsThrough<T>(s: State<T>, acts: seq<Act<T>>, t: nat)
    decreases |acts|
  {
    && t < |s.cons| && Draining(s.cons[t])
    && (acts == [] || (Step(s, acts[0]).Some? && DrainsThrough(Step(s, acts[0]).value, acts[1..], t)))
  }

  predicate Paid(steps: int, left0: int, left1: int, taken0: int, taken1: int, k: int)
  {
    steps + left1 <= left0 + k * (taken1 - taken0)
  }

  lemma PayOn(a: int, b: int, l0: int, l1: int, l2: int, t0: int, t1: int, t2: int, k: int)
    requires Paid(a, l0, l1, t0, t1, k) && Paid(b, l1, l2, t1, t2, k)
    ensures Paid(a + b, l0, l2, t0, t2, k)
  {
    Distribute(k, t1 - t0, t2 - t1);
  }

  lemma PayOne(l0: int, l1: int, t0: int, t1: int, k: int)
    requires (t1 == t0 && l1 < l0) || (t1 == t0 + 1 && l1 < l0 + k)
    ensures Paid(1, l0, l1, t0, t1, k)
  {
  }

  /** One act of anyone: the steps made and left are paid for by the items taken. */
  lemma DrainPays<T>(s: State<T>, a: Act<T>, t: nat, k: nat)
    requires Inv(s) && Step(s, a).Some? && t < |s.lanes| && Draining(s.cons[t]) && k >= StepsPerItem(|s.prods|)
    ensures var n, m := Step(s, a).value, |s.prods|;
      && t < |n.lanes| && t < |n.cons|
      && (Draining(n.cons[t]) ==>
            Paid(OwnSteps([a], t), Left(s.cons[t], m), Left(n.cons[t], m), TakenIn(s.lanes[t]), TakenIn(n.lanes[t]), k))
  {
    var n, m := Step(s, a).value, |s.prods|;
    assert [a][1..] == [];
    if a.RunConsumer? && a.t == t {
      DrainMoves(s, t, a.unwind);
      if Draining(n.cons[t]) {
        PayOne(Left(s.cons[t], m), Left(n.cons[t], m), TakenIn(s.lanes[t]), TakenIn(n.lanes[t]), k);
      }
    } else {
      OthersLeaveTheDrain(s, a, t);
    }
  }

  lemma OwnStepsOf<T>(acts: seq<Act<T>>, t: nat)
    requires acts != []
    ensures OwnSteps(acts, t) == OwnSteps([acts[0]], t) + OwnSteps(acts[1..], t)
  {
    assert [acts[0]][1..] == [];
  }

  /** A drain ends: whatever the producers do, its own steps are bounded by the items
      it takes and one pass more. */
  lemma {:induction false} DrainTerminates<T>(s: State<T>, acts: seq<Act<T>>, t: nat, k: nat)
    requires Inv(s) && DrainsThrough(s, acts, t) && t < |s.lanes| && k >= StepsPerItem(|s.prods|)
    ensures Run(Step, s, acts).Some?
    ensures var n, m := Run(Step, s, acts).value, |s.prods|;
      && t < |n.lanes| && t < |n.cons| && Draining(n.cons[t])
      && Paid(OwnSteps(acts, t), Left(s.cons[t], m), Left(n.cons[t], m), TakenIn(s.lanes[t]), TakenIn(n.lanes[t]), k)
    decreases |acts|
  {
    if acts != [] {
      var n, m := Step(s, acts[0]).value, |s.prods|;
      StepKeepsInv(s, acts[0]);
      StepKeepsSize(s, acts[0]);
      DrainPays(s, acts[0], t, k);
      DrainTerminates(n, acts[1..], t, k);
      OwnStepsOf(acts, t);
      var e := Run(Step, s, acts).value;
      PayOn(OwnSteps([acts[0]], t), OwnSteps(acts[1..], t), Left(s.cons[t], m), Left(n.cons[t], m), Left(e.cons[t], m),
            TakenIn(s.lanes[t]), TakenIn(n.lanes[t]), TakenIn(e.lanes[t]), k);
    }
  }

  /** In particular: at most `k` steps per item taken, and two passes. */
  lemma DrainStepsAreBounded<T>(s: State<T>, acts: seq<Act<T>>, t: nat, k: nat)
    requires Inv(s) && DrainsThrough(s, acts, t) && t < |s.lanes| && k == StepsPerItem(|s.prods|)
    ensures Run(Step, s, acts).Some? && t < |Run(Step, s, acts).value.lanes|
    ensures OwnSteps(acts, t) <= k * (TakenIn(Run(Step, s, acts).value.lanes[t]) - TakenIn(s.lanes[t])) + k
  {
    DrainTerminates(s, acts, t, k);
    RunKeepsInv(s, acts);
    RunKeepsSize(s, acts);
    var n := Run(Step, s, acts).value;
    assert LookOk(s.lanes[t], s.prods, s.cons[t]);
    assert LookOk(n.lanes[t], n.prods, n.cons[t]);
  }
}
