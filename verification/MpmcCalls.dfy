/** What the calls of the many-to-many channel return, over every interleaving: a send
    puts the front of its own batch into one ring, passing over only rings that it found
    full, or gives everything back; a receive hands out one item, a drain what showed when
    it began; and all of them come back. */
module MpmcCalls {
  import opened Bits
  import opened MpmcRouting
  import opened MpmcSteps
  import opened Runs

  // ---- what a send did ----------------------------------------------------------------

  /** Producer `p` begins no other call and is not dropped. */
  predicate OneSend<T>(acts: seq<Act<T>>, p: nat)
  {
    forall i :: 0 <= i < |acts| ==> !(acts[i].Send? && acts[i].p == p) && !(acts[i].DropProducer? && acts[i].p == p)
  }

  /** Producer `p` looks at shard `t` and finds its ring there full. */
  ghost predicate FindsFull<T>(p: nat, t: nat, s: State<T>, a: Act<T>)
  {
    a == RunProducer(p) && Shape(s) && p < |s.prods| && LooksFull(s, p, t, |s.calls[p]|)
  }

  ghost function Full<T>(p: nat, t: nat): (State<T>, Act<T>) -> bool
  {
    (s, a) => FindsFull(p, t, s, a)
  }

  /** The room that producer `p` sees in its ring of shard `t`. */
  function Room<T>(s: State<T>, p: nat, t: nat): int
    requires Shape(s) && p < |s.prods| && t < |s.lanes|
  {
    s.cap - (s.lanes[t][p].stored - s.lanes[t][p].tail)
  }

  /** A call given `items` when producer `p` had made `calls`, its cursor at `start`, with
      `room` to be seen in shard `t`; `over` says that it asked and the channel was. */
  datatype Given<T> = Given(p: nat, items: seq<T>, over: bool, calls: seq<Outcome<T>>, start: nat, t: nat, room: int)

  /** What the answer says about the batch and about shard `t`; `full` says that the
      call has found its ring there full. */
  ghost predicate Answers<T>(g: Given<T>, full: bool, n: nat, o: Outcome<T>)
    requires g.start < n && g.t < n
  {
    match o
    case Took(shard, its, left) =>
      && !g.over && its != [] && its + left == g.items && shard < n
      && (Turn(g.start, g.t, n) < Turn(g.start, shard, n) ==> full)
      && (shard == g.t && left != [] ==> |its| >= g.room)
    case Refused(_) => !g.over && full
    case Over => g.over
  }

  /** A send that put something in leaves the rotation at the shard after that one. */
  function CursorAfter<T>(start: nat, o: Outcome<T>, n: nat): int
    requires n > 0
  {
    if o.Took? then (o.shard + 1) % n else start
  }

  /** How far the call has come. */
  ghost predicate Sending<T>(g: Given<T>, full: bool, s: State<T>)
  {
    && Shape(s) && g.p < |s.prods| && g.start < |s.lanes| && g.t < |s.lanes|
    && (!s.prods[g.p].PIdle? ==> s.cursors[g.p] == g.start)
    && match s.prods[g.p]
       case Scan(its, start, j, _) =>
         && !g.over && its == g.items && start == g.start && s.calls[g.p] == g.calls && j < |s.lanes|
         && (Turn(g.start, g.t, |s.lanes|) < j ==> full) && Room(s, g.p, g.t) >= g.room
       case Write(its, shard, i, take) =>
         && !g.over && its == g.items && s.calls[g.p] == g.calls && 0 < take <= |its| && shard < |s.lanes|
         && (Turn(g.start, g.t, |s.lanes|) < Turn(g.start, shard, |s.lanes|) ==> full)
         && (shard == g.t && take < |its| ==> take >= g.room)
       case PIdle =>
         && |s.calls[g.p]| == |g.calls| + 1 && s.calls[g.p][..|g.calls|] == g.calls
         && Answers(g, full, |s.lanes|, s.calls[g.p][|g.calls|])
         && s.cursors[g.p] == CursorAfter(g.start, s.calls[g.p][|g.calls|], |s.lanes|)
       case _ => false
  }

  lemma TurnOfVisit(start: nat, j: nat, n: nat)
    requires start < n && j < n
    ensures Turn(start, Visit(start, j, n), n) == j
  {
    var k := Turn(start, Visit(start, j, n), n);
    if k < j { VisitsDistinct(start, k, j, n); }
    if j < k { VisitsDistinct(start, j, k, n); }
  }

  lemma ScanKeepsSending<T>(g: Given<T>, full: bool, s: State<T>)
    requires Inv(s) && Sending(g, full, s) && s.prods[g.p].Scan?
    ensures Sending(g, full || FindsFull(g.p, g.t, s, RunProducer(g.p)), ScanStep(s, g.p))
  {
    var c, n := s.prods[g.p], |s.lanes|;
    var u := Visit(c.start, c.j, n);
    assert ScanOk(s, g.p) && Link(s, u, g.p);
    TurnOfVisit(c.start, c.j, n);
    var l := s.lanes[u][g.p];
    if l.stored - l.tail >= s.cap {
      if Turn(g.start, g.t, n) == c.j { assert u == g.t; }
    }
  }

  lemma WriteKeepsSending<T>(g: Given<T>, full: bool, s: State<T>)
    requires Inv(s) && Sending(g, full, s) && s.prods[g.p].Write? && WriteStep(s, g.p).Some?
    ensures Sending(g, full, WriteStep(s, g.p).value)
  {
    var c := s.prods[g.p];
    assert Link(s, c.shard, g.p);
    if c.i >= c.take { PublishAnswers(g, full, s); }
  }

  lemma PublishAnswers<T>(g: Given<T>, full: bool, s: State<T>)
    requires Inv(s) && Sending(g, full, s) && s.prods[g.p].Write? && s.prods[g.p].i >= s.prods[g.p].take
    ensures WriteStep(s, g.p).Some? && Sending(g, full, WriteStep(s, g.p).value)
  {
    var c := s.prods[g.p];
    assert c.items[..c.take] + c.items[c.take..] == c.items;
  }

  /** Nobody else touches the call, and the room it sees only grows. */
  lemma OthersLeaveSend<T>(s: State<T>, a: Act<T>, p: nat, t: nat)
    requires Shape(s) && p < |s.prods| && t < |s.lanes| && Step(s, a).Some?
    requires a != RunProducer(p) && !(a.Send? && a.p == p) && !(a.DropProducer? && a.p == p)
    ensures var n := Step(s, a).value;
      && Shape(n) && |n.prods| == |s.prods| && |n.lanes| == |s.lanes|
      && n.prods[p] == s.prods[p] && n.calls[p] == s.calls[p] && n.cursors[p] == s.cursors[p]
      && Room(n, p, t) >= Room(s, p, t)
  {
    match a
    case RunProducer(q) => OtherProducerLeaves(s, q, p, t);
    case RunConsumer(u, unwind) => ConsumerLeavesSend(s, u, unwind, p, t);
    case _ =>
  }

  lemma OtherProducerLeaves<T>(s: State<T>, q: nat, p: nat, t: nat)
    requires Shape(s) && p < |s.prods| && q < |s.prods| && q != p && t < |s.lanes| && ProducerStep(s, q).Some?
    ensures var n := ProducerStep(s, q).value;
      && Shape(n) && |n.prods| == |s.prods| && |n.lanes| == |s.lanes| && n.cap == s.cap
      && n.prods[p] == s.prods[p] && n.calls[p] == s.calls[p] && n.cursors[p] == s.cursors[p]
      && n.lanes[t][p] == s.lanes[t][p]
  {
  }

  lemma ConsumerLeavesSend<T>(s: State<T>, u: nat, unwind: bool, p: nat, t: nat)
    requires Shape(s) && p < |s.prods| && u < |s.lanes| && t < |s.lanes| && ConsumerStep(s, u, unwind).Some?
    ensures var n := ConsumerStep(s, u, unwind).value;
      && Shape(n) && |n.lanes| == |s.lanes| && n.prods == s.prods && n.calls == s.calls && n.cap == s.cap
      && n.cursors == s.cursors
      && n.lanes[t][p].stored == s.lanes[t][p].stored && n.lanes[t][p].tail == s.lanes[t][p].tail
  {
  }

  lemma StepKeepsSending<T>(g: Given<T>, full: bool, s: State<T>, a: Act<T>)
    requires Inv(s) && Sending(g, full, s) && Step(s, a).Some?
    requires !(a.Send? && a.p == g.p) && !(a.DropProducer? && a.p == g.p)
    ensures Sending(g, full || FindsFull(g.p, g.t, s, a), Step(s, a).value)
  {
    if a == RunProducer(g.p) {
      if s.prods[g.p].Scan? { ScanKeepsSending(g, full, s); } else { WriteKeepsSending(g, full, s); }
    } else {
      OthersLeaveSend(s, a, g.p, g.t);
    }
  }

  lemma {:induction false} RunKeepsSending<T>(g: Given<T>, full: bool, s: State<T>, acts: seq<Act<T>>)
    requires Inv(s) && Sending(g, full, s) && Run(Step, s, acts).Some? && OneSend(acts, g.p)
    ensures Inv(Run(Step, s, acts).value)
    ensures Sending(g, full || Happens(Step, s, acts, Full(g.p, g.t)), Run(Step, s, acts).value)
    decreases |acts|
  {
    if acts != [] {
      StepKeepsInv(s, acts[0]);
      StepKeepsSending(g, full, s, acts[0]);
      RunKeepsSending(g, full || FindsFull(g.p, g.t, s, acts[0]), Step(s, acts[0]).value, acts[1..]);
    }
  }

  /** A call that has returned left a ring what it held and what the answer says. */
  lemma SentIsAnswered<T>(s: State<T>, n: State<T>, p: nat, u: nat)
    requires Inv(s) && Inv(n) && p < |s.prods| == |n.prods| && u < |s.lanes| == |n.lanes|
    requires s.prods[p].PIdle? && n.prods[p].PIdle?
    requires |n.calls[p]| == |s.calls[p]| + 1 && n.calls[p][..|s.calls[p]|] == s.calls[p]
    ensures var o := n.calls[p][|s.calls[p]|];
      n.lanes[u][p].sent == s.lanes[u][p].sent + if o.Took? && o.shard == u then o.items else []
  {
    assert Link(s, u, p) && Link(n, u, p);
    var o := n.calls[p][|s.calls[p]|];
    assert n.calls[p] == s.calls[p] + [o];
    AcceptedSnoc(s.calls[p], o, u);
  }

  /** A send that has returned: the front of its batch, not empty, stands at the end of
      one ring, cut only by the room there, and nothing anywhere else; every shard that the
      rotation visits before was found full. Or every shard was found full; or the channel
      was over, which a batch does not ask. What was not put in is given back, and the
      rotation goes on after the shard that took something. */
  lemma SendReturns<T>(s: State<T>, p: nat, items: seq<T>, batch: bool, acts: seq<Act<T>>, t: nat)
    requires Inv(s) && p < |s.prods| && t < |s.lanes| && s.prods[p].PIdle? && OneSend(acts, p)
    requires items != [] && (batch || |items| == 1)
    requires Run(Step, BeginSend(s, p, items, batch).value, acts).Some?
    requires var n := Run(Step, BeginSend(s, p, items, batch).value, acts).value; p < |n.prods| && n.prods[p].PIdle?
    ensures var b := BeginSend(s, p, items, batch).value; var n := Run(Step, b, acts).value;
      && |n.lanes| == |s.lanes| && Shape(n) && |n.prods| == |s.prods| && |n.calls[p]| == |s.calls[p]| + 1
      && var full, o, start := Happens(Step, b, acts, Full(p, t)), n.calls[p][|s.calls[p]|], s.cursors[p];
         && n.lanes[t][p].sent == s.lanes[t][p].sent + (if o.Took? && o.shard == t then o.items else [])
         && n.cursors[p] == CursorAfter(start, o, |s.lanes|)
         && (o.Over? <==> !batch && (s.shutdown || s.liveConsumers == 0))
         && (o.Refused? ==> full)
         && (o.Took? ==>
               && o.items != [] && o.items + o.left == items && o.shard < |s.lanes| && start < |s.lanes|
               && (Turn(start, t, |s.lanes|) < Turn(start, o.shard, |s.lanes|) ==> full)
               && (o.shard == t && o.left != [] ==> |o.items| >= Room(s, p, t)))
  {
    var b := BeginSend(s, p, items, batch).value;
    assert ScanOk(s, p);
    ModUnique(s.cursors[p], |s.lanes|, 0, s.cursors[p]);
    var over := !batch && (s.shutdown || s.liveConsumers == 0);
    var g := Given(p, items, over, s.calls[p], s.cursors[p], t, Room(s, p, t));
    BeginKeepsInv(s, p, items, batch);
    RunKeepsSending(g, false, b, acts);
    RunKeepsSize(b, acts);
    var n := Run(Step, b, acts).value;
    SentIsAnswered(s, n, p, t);
  }

  // ---- what a receive did -------------------------------------------------------------

  /** Consumer `t` begins no other call and is not dropped. */
  predicate OneReceive<T>(acts: seq<Act<T>>, t: nat)
  {
    forall i :: 0 <= i < |acts| ==> !(acts[i].Receive? && acts[i].t == t) && !(acts[i].DropConsumer? && acts[i].t == t)
  }

  /** The callback of consumer `t`'s drain unwinds. */
  ghost predicate UnwindsAt<T>(t: nat, s: State<T>, a: Act<T>)
  {
    a == RunConsumer(t, true) && t < |s.cons| && s.cons[t].Take? && s.cons[t].pass.kind.Drain?
  }

  ghost function Unwinds<T>(t: nat): (State<T>, Act<T>) -> bool
  {
    (s, a) => UnwindsAt(t, s, a)
  }

  /** Consumer `t` takes an item. */
  ghost predicate TakesAt<T>(t: nat, s: State<T>, a: Act<T>)
  {
    a.RunConsumer? && a.t == t && t < |s.cons| && s.cons[t].Take?
  }

  ghost function Takes<T>(t: nat): (State<T>, Act<T>) -> bool
  {
    (s, a) => TakesAt(t, s, a)
  }

  /** Consumer `t` looks at ring `q` and finds nothing new there. */
  ghost predicate FindsEmpty<T>(t: nat, q: nat, s: State<T>, a: Act<T>)
  {
    && a.RunConsumer? && a.t == t && Shape(s) && t < |s.lanes| && q < |s.prods|
    && s.cons[t].Look? && s.cons[t].pass.p == q && s.lanes[t][q].head == s.lanes[t][q].taken
  }

  ghost function Empty<T>(t: nat, q: nat): (State<T>, Act<T>) -> bool
  {
    (s, a) => FindsEmpty(t, q, s, a)
  }

  /** `now` is `before` and one item more, out of a ring before which ring `q` is not. */
  ghost predicate GotOne<T>(before: seq<(nat, T)>, now: seq<(nat, T)>, q: nat, empty: bool)
  {
    |now| == |before| + 1 && before <= now && (q < now[|before|].0 ==> empty)
  }

  /** A call of consumer `t` that began after `before`, with `h` the head of ring `q`. */
  datatype Asked<T> = Asked(t: nat, kind: Kind, before: seq<(nat, T)>, q: nat, h: nat)

  /** How far the call has come; `unwound` says that its callback has unwound, `since` that
      it has found ring `q` empty and taken nothing after that. */
  ghost predicate Receiving<T>(k: Asked<T>, unwound: bool, since: bool, s: State<T>)
  {
    var t, q := k.t, k.q;
    && Shape(s) && t < |s.lanes| && q < |s.prods| && k.h <= s.lanes[t][q].head && k.before <= s.got[t]
    && var empty, got := s.lanes[t][q].taken >= k.h, s.got[t];
       match s.cons[t]
       case Look(pass) =>
         && pass.kind == k.kind && !unwound && (q < pass.p ==> empty && (pass.progress || since))
         && (k.kind.Drain? || (got == k.before && !pass.progress))
       case Take(pass, x) =>
         && pass.kind == k.kind && !unwound && (q < pass.p ==> empty) && (q == pass.p ==> x >= k.h)
         && (k.kind.Drain? || (got == k.before && !pass.progress))
       case Check(_) => k.kind.Recv? && !unwound && got == k.before && empty && since
       case Ended(_) => k.kind.Recv? && !unwound && got == k.before && (s.shutdown || s.liveProducers <= 0)
       case CIdle =>
         if k.kind.Drain? then (if unwound then |k.before| < |got| else empty && since)
         else !unwound && if got == k.before then k.kind.TryRecv? && empty && since else GotOne(k.before, got, q, empty)
       case _ => false
  }

  ghost predicate StillEmpty<T>(k: Asked<T>, since: bool, s: State<T>, a: Act<T>)
  {
    FindsEmpty(k.t, k.q, s, a) || (since && !TakesAt(k.t, s, a))
  }

  lemma LookKeepsReceiving<T>(k: Asked<T>, unwound: bool, since: bool, s: State<T>, unwind: bool)
    requires Inv(s) && Receiving(k, unwound, since, s) && s.cons[k.t].Look? && LookStep(s, k.t).Some?
    ensures Receiving(k, unwound, since || FindsEmpty(k.t, k.q, s, RunConsumer(k.t, unwind)), LookStep(s, k.t).value)
  {
  }

  lemma TakeKeepsReceiving<T>(k: Asked<T>, unwound: bool, since: bool, s: State<T>, unwind: bool)
    requires Inv(s) && Receiving(k, unwound, since, s) && s.cons[k.t].Take? && TakeStep(s, k.t, unwind).Some?
    ensures Receiving(k, unwound || UnwindsAt(k.t, s, RunConsumer(k.t, unwind)), false, TakeStep(s, k.t, unwind).value)
  {
  }

  /** Nobody else moves the call; heads only grow. */
  lemma OthersLeaveReceive<T>(s: State<T>, a: Act<T>, t: nat, q: nat)
    requires Shape(s) && t < |s.lanes| && q < |s.prods| && Step(s, a).Some?
    requires !(a.RunConsumer? && a.t == t) && !(a.Receive? && a.t == t) && !(a.DropConsumer? && a.t == t)
    ensures var n := Step(s, a).value;
      && Shape(n) && |n.prods| == |s.prods| && |n.lanes| == |s.lanes|
      && n.cons[t] == s.cons[t] && n.got[t] == s.got[t]
      && n.liveProducers <= s.liveProducers && (s.shutdown ==> n.shutdown)
      && n.lanes[t][q].head >= s.lanes[t][q].head && n.lanes[t][q].taken == s.lanes[t][q].taken
  {
    match a
    case RunProducer(p) => ProducerMovesOneLane(s, p, t);
    case RunConsumer(u, unwind) => OtherConsumerLeaves(s, u, unwind, t);
    case _ =>
  }

  lemma OtherConsumerLeaves<T>(s: State<T>, u: nat, unwind: bool, t: nat)
    requires Shape(s) && t < |s.lanes| && u < |s.lanes| && u != t && ConsumerStep(s, u, unwind).Some?
    ensures var n := ConsumerStep(s, u, unwind).value;
      && Shape(n) && n.prods == s.prods && |n.lanes| == |s.lanes| && n.lanes[t] == s.lanes[t]
      && n.cons[t] == s.cons[t] && n.got[t] == s.got[t]
      && n.liveProducers == s.liveProducers && n.shutdown == s.shutdown
  {
  }

  lemma CheckKeepsReceiving<T>(k: Asked<T>, unwound: bool, since: bool, s: State<T>)
    requires Inv(s) && Receiving(k, unwound, since, s) && s.cons[k.t].Check?
    ensures Receiving(k, unwound, since, CheckStep(s, k.t))
  {
  }

  lemma OthersKeepReceiving<T>(k: Asked<T>, unwound: bool, since: bool, s: State<T>, a: Act<T>)
    requires Inv(s) && Receiving(k, unwound, since, s) && Step(s, a).Some?
    requires !(a.RunConsumer? && a.t == k.t) && !(a.Receive? && a.t == k.t) && !(a.DropConsumer? && a.t == k.t)
    ensures Receiving(k, unwound, since, Step(s, a).value)
  {
    OthersLeaveReceive(s, a, k.t, k.q);
  }

  lemma StepKeepsReceiving<T>(k: Asked<T>, unwound: bool, since: bool, s: State<T>, a: Act<T>)
    requires Inv(s) && Receiving(k, unwound, since, s) && Step(s, a).Some?
    requires !(a.Receive? && a.t == k.t) && !(a.DropConsumer? && a.t == k.t)
    ensures Receiving(k, unwound || UnwindsAt(k.t, s, a), StillEmpty(k, since, s, a), Step(s, a).value)
  {
    if a.RunConsumer? && a.t == k.t {
      match s.cons[k.t]
      case Look(_) => LookKeepsReceiving(k, unwound, since, s, a.unwind);
      case Take(_, _) => TakeKeepsReceiving(k, unwound, since, s, a.unwind);
      case Check(_) => CheckKeepsReceiving(k, unwound, since, s);
      case _ =>
    } else {
      OthersKeepReceiving(k, unwound, since, s, a);
    }
  }

  lemma {:induction false} RunKeepsReceiving<T>(k: Asked<T>, unwound: bool, since: bool,
                                                s: State<T>, acts: seq<Act<T>>)
    requires Inv(s) && Receiving(k, unwound, since, s) && Run(Step, s, acts).Some? && OneReceive(acts, k.t)
    ensures Inv(Run(Step, s, acts).value)
    ensures Receiving(k, unwound || Happens(Step, s, acts, Unwinds(k.t)),
                      || Since(Step, s, acts, Empty(k.t, k.q), Takes(k.t))
                      || (since && !Happens(Step, s, acts, Takes(k.t))),
                      Run(Step, s, acts).value)
    decreases |acts|
  {
    if acts != [] {
      StepKeepsInv(s, acts[0]);
      StepKeepsReceiving(k, unwound, since, s, acts[0]);
      RunKeepsReceiving(k, unwound || UnwindsAt(k.t, s, acts[0]), StillEmpty(k, since, s, acts[0]),
                        Step(s, acts[0]).value, acts[1..]);
    }
  }

  /** A receive or drain of shard `t` that has returned, seen against any ring `q`. A
      receive hands out one item, and not one of a ring after `q` while `q` shows what it
      did; or nothing, having taken from `q` all that showed; `Err(Shutdown)` only with the
      channel over. A drain hands out all that showed in `q`, unless the callback unwound,
      and then something. */
  lemma ReceiveReturns<T>(s: State<T>, t: nat, kind: Kind, acts: seq<Act<T>>, q: nat)
    requires Inv(s) && t < |s.lanes| && q < |s.prods| && (s.cons[t].CIdle? || s.cons[t].Ended?) && OneReceive(acts, t)
    requires Run(Step, Step(s, Receive(t, kind)).value, acts).Some?
    ensures var b := Step(s, Receive(t, kind)).value; var n := Run(Step, b, acts).value;
      && Shape(n) && t < |n.lanes| && q < |n.prods| && s.got[t] <= n.got[t]
      && var unwound, empty := Happens(Step, b, acts, Unwinds(t)), n.lanes[t][q].taken >= s.lanes[t][q].head;
         var since := Since(Step, b, acts, Empty(t, q), Takes(t));
         match n.cons[t]
         case CIdle =>
           if kind.Drain? then (if unwound then |s.got[t]| < |n.got[t]| else empty && since)
           else if n.got[t] == s.got[t] then kind.TryRecv? && empty && since
           else GotOne(s.got[t], n.got[t], q, empty)
         case Ended(_) => kind.Recv? && n.got[t] == s.got[t] && (n.shutdown || n.liveProducers <= 0)
         case CGone => false
         case _ => true
  {
    var b := Step(s, Receive(t, kind)).value;
    StepKeepsInv(s, Receive(t, kind));
    RunKeepsReceiving(Asked(t, kind, s.got[t], q, s.lanes[t][q].head), false, false, b, acts);
  }

  // ---- the live counts ------------------------------------------------------------------

  function Here<T>(prods: seq<Prod<T>>): nat
  {
    if prods == [] then 0 else (if prods[0].PGone? then 0 else 1) + Here(prods[1..])
  }

  lemma {:induction false} HereUpdate<T>(prods: seq<Prod<T>>, p: nat, c: Prod<T>)
    requires p < |prods|
    ensures Here(prods[p := c]) == Here(prods) - (if prods[p].PGone? then 0 else 1) + (if c.PGone? then 0 else 1)
  {
    if p == 0 {
      assert prods[p := c][1..] == prods[1..];
    } else {
      assert prods[p := c][1..] == prods[1..][p - 1 := c];
      HereUpdate(prods[1..], p - 1, c);
    }
  }

  lemma {:induction false} AllHere<T>(prods: seq<Prod<T>>)
    ensures Here(prods) <= |prods| && (Here(prods) == 0 <==> forall p :: 0 <= p < |prods| ==> prods[p].PGone?)
    ensures (forall p :: 0 <= p < |prods| ==> !prods[p].PGone?) ==> Here(prods) == |prods|
  {
    if prods != [] {
      AllHere(prods[1..]);
      assert forall p :: 0 < p < |prods| ==> prods[p] == prods[1..][p - 1];
    }
  }

  lemma StepKeepsCount<T>(s: State<T>, a: Act<T>)
    requires Step(s, a).Some? && s.liveProducers == Here(s.prods)
    ensures Step(s, a).value.liveProducers == Here(Step(s, a).value.prods)
  {
    match a
    case Send(p, items, batch) => HereUpdate(s.prods, p, Step(s, a).value.prods[p]);
    case DropProducer(p) => HereUpdate(s.prods, p, PGone);
    case RunProducer(p) =>
      ProducerStaysHere(s, p);
      HereUpdate(s.prods, p, Step(s, a).value.prods[p]);
    case RunConsumer(t, unwind) => ConsumerLeavesSend(s, t, unwind, 0, 0);
    case _ =>
  }

  lemma ProducerStaysHere<T>(s: State<T>, p: nat)
    requires Shape(s) && p < |s.prods| && ProducerStep(s, p).Some?
    ensures var n := ProducerStep(s, p).value;
      && p < |n.prods| && n.prods == s.prods[p := n.prods[p]] && n.liveProducers == s.liveProducers
      && !s.prods[p].PGone? && !n.prods[p].PGone?
  {
  }

  lemma {:induction false} RunKeepsCount<T>(s: State<T>, acts: seq<Act<T>>)
    requires Run(Step, s, acts).Some? && s.liveProducers == Here(s.prods)
    ensures Run(Step, s, acts).value.liveProducers == Here(Run(Step, s, acts).value.prods)
    decreases |acts|
  {
    if acts != [] {
      StepKeepsCount(s, acts[0]);
      RunKeepsCount(Step(s, acts[0]).value, acts[1..]);
    }
  }

  /** The live count is zero exactly when every producer has been dropped, and never
      less: so the end that a receive reports is the end. */
  lemma CountIsLive<T>(s: State<T>, acts: seq<Act<T>>)
    requires Init(s) && Run(Step, s, acts).Some?
    ensures var n := Run(Step, s, acts).value;
      n.liveProducers >= 0 && (n.liveProducers == 0 <==> forall p :: 0 <= p < |n.prods| ==> n.prods[p].PGone?)
  {
    AllHere(s.prods);
    RunKeepsCount(s, acts);
    AllHere(Run(Step, s, acts).value.prods);
  }

  // ---- the calls come back --------------------------------------------------------------

  ghost function ProducerActs<T>(p: nat): Act<T> -> bool
  {
    a => a == RunProducer(p)
  }

  /** A bound on the producer's steps to the end of its call. */
  function SendRank<T>(c: Prod<T>, n: nat): int
  {
    match c
    case Scan(items, _, j, _) => n - j + |items| + 1
    case Write(_, _, i, take) => take - i + 1
    case _ => 0
  }

  lemma WriteComesCloser<T>(s: State<T>, p: nat)
    requires Inv(s) && p < |s.prods| && s.prods[p].Write?
    ensures WriteStep(s, p).Some?
    ensures var n := WriteStep(s, p).value;
      p < |n.prods| && |n.lanes| == |s.lanes| && 0 <= SendRank(n.prods[p], |s.lanes|) < SendRank(s.prods[p], |s.lanes|)
  {
    var c := s.prods[p];
    assert ScanOk(s, p) && Link(s, c.shard, p);
    if c.i < c.take { WriteSlotLink(s.lanes[c.shard][p], c, c.shard, s.cap); }
  }

  lemma SendComesCloser<T>(s: State<T>, p: nat)
    requires Inv(s) && p < |s.prods| && (s.prods[p].Scan? || s.prods[p].Write?)
    ensures ProducerStep(s, p).Some?
    ensures var n := ProducerStep(s, p).value;
      p < |n.prods| && |n.lanes| == |s.lanes| && 0 <= SendRank(n.prods[p], |s.lanes|) < SendRank(s.prods[p], |s.lanes|)
  {
    if s.prods[p].Write? { WriteComesCloser(s, p); } else { assert ScanOk(s, p); }
  }

  /** A send comes back within one look for each shard, one write for each item and two
      more of the producer's own steps, none of which ever waits. */
  lemma {:induction false} SendComesBack<T>(s: State<T>, p: nat, acts: seq<Act<T>>)
    requires Inv(s) && p < |s.prods| && Run(Step, s, acts).Some? && OneSend(acts, p) && !s.prods[p].PGone?
    requires Count(acts, ProducerActs(p)) >= SendRank(s.prods[p], |s.lanes|)
    ensures p < |Run(Step, s, acts).value.prods| && Run(Step, s, acts).value.prods[p].PIdle?
    decreases |acts|
  {
    assert ScanOk(s, p);
    if s.prods[p].Write? { assert Link(s, s.prods[p].shard, p); }
    if acts != [] {
      var n := Step(s, acts[0]).value;
      StepKeepsInv(s, acts[0]);
      if acts[0] == RunProducer(p) { SendComesCloser(s, p); ProducerStaysHere(s, p); }
      else { OthersLeaveSend(s, acts[0], p, 0); }
      SendComesBack(n, p, acts[1..]);
    }
  }

  /** Why a receive can return: ring `q` shows an item, or the channel is over. */
  datatype Why = Shows(q: nat) | Over

  ghost predicate Ready<T>(w: Why, s: State<T>, t: nat)
    requires Shape(s) && t < |s.lanes|
  {
    match w
    case Shows(q) => q < |s.prods| && s.lanes[t][q].head > s.lanes[t][q].taken
    case Over => s.shutdown || s.liveProducers == 0
  }

  /** The call is a receive and can return, or is not asked to wait. */
  ghost predicate Goes<T>(w: Why, s: State<T>, t: nat)
    requires Shape(s) && t < |s.lanes|
  {
    match s.cons[t]
    case Look(pass) => !pass.kind.Drain? && !pass.progress && (pass.kind.TryRecv? || Ready(w, s, t))
    case Take(pass, _) => !pass.kind.Drain?
    case Check(_) => Ready(w, s, t)
    case _ => true
  }

  /** A bound on the consumer's steps to the end of its call. */
  function ReceiveRank(w: Why, c: Cons, m: nat): int
  {
    match c
    case Look(pass) => if w.Over? || pass.p <= w.q || pass.kind.TryRecv? then m - pass.p + 2 else 2 * m - pass.p + 5
    case Take(_, _) => 1
    case Check(_) => if w.Over? then 1 else m + 4
    case _ => 0
  }

  /** The call comes closer to its end. */
  ghost predicate Closer<T>(w: Why, s: State<T>, n: State<T>, t: nat)
    requires Shape(s) && t < |s.lanes|
  {
    && Shape(n) && |n.lanes| == |s.lanes| && |n.prods| == |s.prods| && Goes(w, n, t) && !n.cons[t].CGone?
    && 0 <= ReceiveRank(w, n.cons[t], |n.prods|) < ReceiveRank(w, s.cons[t], |s.prods|)
  }

  lemma LookComesCloser<T>(w: Why, s: State<T>, t: nat)
    requires Inv(s) && t < |s.lanes| && Goes(w, s, t) && s.cons[t].Look?
    ensures LookStep(s, t).Some? && Closer(w, s, LookStep(s, t).value, t)
  {
    assert LookOk(s.lanes[t], s.prods, s.cons[t]) && s.cons[t].pass.p < |s.prods|;
    assert Link(s, t, s.cons[t].pass.p);
  }

  lemma TakeComesCloser<T>(w: Why, s: State<T>, t: nat, unwind: bool)
    requires Inv(s) && t < |s.lanes| && Goes(w, s, t) && s.cons[t].Take?
    ensures TakeStep(s, t, unwind).Some? && Closer(w, s, TakeStep(s, t, unwind).value, t)
  {
    assert LookOk(s.lanes[t], s.prods, s.cons[t]) && s.cons[t].pass.p < |s.prods|;
    assert Link(s, t, s.cons[t].pass.p);
    TakeSlotLink(s.lanes[t][s.cons[t].pass.p], s.cap);
  }

  lemma ReceiveComesCloser<T>(w: Why, s: State<T>, t: nat, unwind: bool)
    requires Inv(s) && t < |s.lanes| && Goes(w, s, t) && (s.cons[t].Look? || s.cons[t].Take? || s.cons[t].Check?)
    ensures ConsumerStep(s, t, unwind).Some? && Closer(w, s, ConsumerStep(s, t, unwind).value, t)
  {
    match s.cons[t]
    case Look(_) => LookComesCloser(w, s, t);
    case Take(_, _) => TakeComesCloser(w, s, t, unwind);
    case _ =>
  }

  lemma OthersLetItReceive<T>(w: Why, s: State<T>, a: Act<T>, t: nat)
    requires Inv(s) && s.liveProducers == Here(s.prods) && t < |s.lanes| && Goes(w, s, t) && Step(s, a).Some?
    requires !(a.RunConsumer? && a.t == t) && !(a.Receive? && a.t == t) && !(a.DropConsumer? && a.t == t)
    ensures var n := Step(s, a).value;
      Shape(n) && |n.lanes| == |s.lanes| && |n.prods| == |s.prods| && n.cons[t] == s.cons[t] && Goes(w, n, t)
  {
    var q := if w.Shows? && w.q < |s.prods| then w.q else 0;
    OthersLeaveReceive(s, a, t, q);
    StepKeepsCount(s, a);
  }

  ghost function ConsumerActs<T>(t: nat): Act<T> -> bool
  {
    (a: Act<T>) => a.RunConsumer? && a.t == t
  }

  /** A receive comes back: once a ring shows an item or the channel is over, and a
      `try_recv` always, within `ReceiveRank` of the consumer's own steps. */
  lemma {:induction false} ReceiveComesBack<T>(w: Why, s: State<T>, t: nat, acts: seq<Act<T>>)
    requires Inv(s) && s.liveProducers == Here(s.prods) && t < |s.lanes| && Goes(w, s, t) && !s.cons[t].CGone?
    requires Run(Step, s, acts).Some? && OneReceive(acts, t)
    requires Count(acts, ConsumerActs(t)) >= ReceiveRank(w, s.cons[t], |s.prods|)
    ensures ReceiveRank(w, s.cons[t], |s.prods|) <= 2 * |s.prods| + 5
    ensures var n := Run(Step, s, acts).value; t < |n.cons| && (n.cons[t].CIdle? || n.cons[t].Ended?)
    decreases |acts|
  {
    assert LookOk(s.lanes[t], s.prods, s.cons[t]);
    if acts != [] {
      var n := Step(s, acts[0]).value;
      StepKeepsInv(s, acts[0]);
      StepKeepsCount(s, acts[0]);
      if acts[0].RunConsumer? && acts[0].t == t { ReceiveComesCloser(w, s, t, acts[0].unwind); }
      else { OthersLetItReceive(w, s, acts[0], t); }
      ReceiveComesBack(w, n, t, acts[1..]);
    }
  }

  /** What a thread has stored can always be shown to the other side, all of it. */
  lemma StoresCanBeShown<T>(s: State<T>, t: nat, p: nat)
    requires Inv(s) && t < |s.lanes| && p < |s.prods|
    ensures var l := s.lanes[t][p];
      && Step(s, ShowHead(t, p, l.stored)).Some? && Step(s, ShowTail(t, p, l.tailStored)).Some?
      && Step(s, ShowHead(t, p, l.stored)).value.lanes[t][p].head == l.stored
      && Step(s, ShowTail(t, p, l.tailStored)).value.lanes[t][p].tail == l.tailStored
  {
    assert Link(s, t, p);
  }
}
