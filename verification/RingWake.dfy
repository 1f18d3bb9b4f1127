/** No endpoint of the blocking ring sleeps through the event it waits for. */
module RingWake {
  import opened RingTso
  import opened Runs

  /** Inside `thread::park` with no token to consume. */
  predicate ProducerBlocked<T>(s: State<T>)
  {
    s.p.pc.Park? && !s.mem.tokenP
  }

  predicate ConsumerBlocked<T>(s: State<T>)
  {
    s.c.pc.Park? && !s.mem.tokenC
  }

  /** What the consumer waits for, counting stores the producer has issued but
      that are still in its buffer. */
  predicate WorkForConsumer<T>(s: State<T>)
  {
    s.p.head != s.c.tail || Closed(s.p.pc)
  }

  predicate WorkForProducer<T>(s: State<T>)
  {
    s.p.head < s.c.tail + s.cap || Closed(s.c.pc)
  }

  lemma BlockedConsumerIsOwed<T>(s: State<T>)
    requires Inv(s) && ConsumerBlocked(s) && WorkForConsumer(s)
    ensures s.p.pc.Waking?
  {
  }

  /** A blocked producer with something to do is owed a wake by a consumer that has
      one under way, except exactly when drains have unwound since the last wake. */
  lemma BlockedProducerIsOwed<T>(s: State<T>)
    requires Inv(s) && ProducerBlocked(s) && WorkForProducer(s)
    ensures ConsumerWakes(s) <==> s.c.woken == s.c.tail
  {
  }

  /** Both endpoints are never blocked at once, unwound drains or not: a receive that
      found nothing had a cache from before the last wake, so the ring cannot have
      been filled since. */
  lemma NotBothBlocked<T>(s: State<T>)
    requires Inv(s)
    ensures !(ProducerBlocked(s) && ConsumerBlocked(s))
  {
  }

  /** The ring never deadlocks, whatever calls follow an unwound drain. In every state
      of every run: both endpoints are not blocked at once; neither is blocked once its
      peer is gone; and a blocked endpoint that has something to do is owed a wake by a
      peer inside `wake()`, with one exception: a producer, exactly while some tail was
      published by an unwound drain and no wake has been started since. */
  lemma NoDeadlock<T>(s: State<T>, acts: seq<Act<T>>)
    requires Init(s) && Run(Step, s, acts).Some?
    ensures var n := Run(Step, s, acts).value;
      && !(ProducerBlocked(n) && ConsumerBlocked(n))
      && (ProducerBlocked(n) ==> !n.c.pc.Gone?)
      && (ConsumerBlocked(n) ==> !n.p.pc.Gone?)
      && (ConsumerBlocked(n) && WorkForConsumer(n) ==> n.p.pc.Waking?)
      && (ProducerBlocked(n) && WorkForProducer(n) ==> (ConsumerWakes(n) <==> n.c.woken == n.c.tail))
  {
    InitInv(s);
    RunKeepsInv(s, acts);
    var n := Run(Step, s, acts).value;
    NotBothBlocked(n);
    if ConsumerBlocked(n) && WorkForConsumer(n) { BlockedConsumerIsOwed(n); }
    if ProducerBlocked(n) && WorkForProducer(n) { BlockedProducerIsOwed(n); }
  }

  // ---- an owed wake arrives ------------------------------------------------

  function Left(at: Wake): nat
  {
    match at case T3a => 4 case Fence => 3 case T3b => 2 case Unpark => 1
  }

  /** Own steps until the wake of `g` is delivered, given that its waiter stays parked. */
  function Rank(pc: Pc, g: Gate): nat
  {
    if !pc.Waking? then 0
    else if pc.gate == g then Left(pc.at)
    else if pc.closing && pc.gate == NotFull then 4 + Left(pc.at)
    else 0
  }

  /** One step of the producer inside `wake()` with the consumer blocked: it can
      always move, itself or by a flush, and each own step delivers or comes closer. */
  lemma ProducerComesCloser<T>(s: State<T>, choice: bool)
    requires Inv(s) && ConsumerBlocked(s) && s.p.pc.Waking?
    ensures 0 < Rank(s.p.pc, NotEmpty) <= 8
    ensures PStep(s, choice).Some? || s.p.buf != []
    ensures PStep(s, choice).Some? ==>
              var n := PStep(s, choice).value;
              n.c == s.c && (n.mem.tokenC || (n.p.pc.Waking? && Rank(n.p.pc, NotEmpty) < Rank(s.p.pc, NotEmpty)))
  {
  }

  /** The consumer's way to the wake of `not_full`: inside it, or about to drop its handle. */
  function ConsumerRank(pc: Pc): nat
  {
    if pc.Close? then 5 else Rank(pc, NotFull)
  }

  predicate WakesOrCloses<T>(s: State<T>)
  {
    ConsumerWakes(s) || s.c.pc.Close?
  }

  lemma ConsumerComesCloser<T>(s: State<T>, choice: bool)
    requires Inv(s) && ProducerBlocked(s) && WakesOrCloses(s)
    ensures 0 < ConsumerRank(s.c.pc) <= 5
    ensures CStep(s, choice).Some? || !Flushed(s.mem, s.c)
    ensures CStep(s, choice).Some? ==>
              var n := CStep(s, choice).value;
              n.p == s.p && (n.mem.tokenP || (WakesOrCloses(n) && ConsumerRank(n.c.pc) < ConsumerRank(s.c.pc)))
  {
  }

  /** Acts of the producer alone. */
  predicate ProducerActs<T>(acts: seq<Act<T>>)
  {
    forall i :: 0 <= i < |acts| ==> acts[i].PRun? || acts[i].PFlush? || acts[i].PBegin?
  }

  predicate ConsumerActs<T>(acts: seq<Act<T>>)
  {
    forall i :: 0 <= i < |acts| ==> acts[i].CRun? || acts[i].CFlush? || acts[i].CFlushClosed? || acts[i].CBegin?
  }

  function OwnSteps<T>(acts: seq<Act<T>>): nat
  {
    if acts == [] then 0 else (if acts[0].PRun? || acts[0].CRun? then 1 else 0) + OwnSteps(acts[1..])
  }

  lemma ProducerTakesNoConsumerToken<T>(s: State<T>, a: Act<T>)
    requires (a.PRun? || a.PBegin?) && Step(s, a).Some? && s.mem.tokenC
    ensures Step(s, a).value.mem.tokenC
  {
    if a.PRun? && !s.p.pc.Waking? { assert Step(s, a).value.mem.tokenC == s.mem.tokenC; }
  }

  lemma ConsumerTakesNoProducerToken<T>(s: State<T>, a: Act<T>)
    requires (a.CRun? || a.CFlush? || a.CFlushClosed? || a.CBegin?) && Step(s, a).Some? && s.mem.tokenP
    ensures Step(s, a).value.mem.tokenP
  {
    if a.CRun? && !s.c.pc.Waking? { assert Step(s, a).value.mem.tokenP == s.mem.tokenP; }
  }

  lemma FlushTakesNoToken<T>(m: Mem<T>, st: Store<T>)
    ensures Apply(m, st).tokenP == m.tokenP && Apply(m, st).tokenC == m.tokenC
  {
  }

  lemma {:induction false} ConsumerTokenStays<T>(s: State<T>, acts: seq<Act<T>>)
    requires ProducerActs(acts) && Run(Step, s, acts).Some? && s.mem.tokenC
    ensures Run(Step, s, acts).value.mem.tokenC
    decreases |acts|
  {
    if acts != [] {
      if acts[0].PFlush? { FlushTakesNoToken(s.mem, s.p.buf[0]); } else { ProducerTakesNoConsumerToken(s, acts[0]); }
      ConsumerTokenStays(Step(s, acts[0]).value, acts[1..]);
    }
  }

  lemma {:induction false} ProducerTokenStays<T>(s: State<T>, acts: seq<Act<T>>)
    requires ConsumerActs(acts) && Run(Step, s, acts).Some? && s.mem.tokenP
    ensures Run(Step, s, acts).value.mem.tokenP
    decreases |acts|
  {
    if acts != [] {
      ConsumerTakesNoProducerToken(s, acts[0]);
      ProducerTokenStays(Step(s, acts[0]).value, acts[1..]);
    }
  }

  /** Any act of the producer: the token is there, or the wake is as close, or closer. */
  lemma ProducerStepsOn<T>(s: State<T>, a: Act<T>)
    requires Inv(s) && ConsumerBlocked(s) && s.p.pc.Waking? && ProducerActs([a]) && Step(s, a).Some?
    ensures var n := Step(s, a).value;
      n.mem.tokenC || (ConsumerBlocked(n) && n.p.pc.Waking?
                       && Rank(n.p.pc, NotEmpty) <= Rank(s.p.pc, NotEmpty) - (if a.PRun? then 1 else 0))
  {
    assert [a][0] == a;
    if a.PRun? {
      ProducerComesCloser(s, a.choice);
    } else {
      FlushTakesNoToken(s.mem, s.p.buf[0]);
    }
  }

  lemma ConsumerStepsOn<T>(s: State<T>, a: Act<T>)
    requires Inv(s) && ProducerBlocked(s) && WakesOrCloses(s)
    requires ConsumerActs([a]) && Step(s, a).Some?
    ensures var n := Step(s, a).value;
      n.mem.tokenP || (ProducerBlocked(n) && WakesOrCloses(n)
                       && ConsumerRank(n.c.pc) <= ConsumerRank(s.c.pc) - (if a.CRun? then 1 else 0))
  {
    assert [a][0] == a;
    if a.CRun? { ConsumerComesCloser(s, a.choice); }
  }

  /** A blocked consumer with work gets its token within eight of the producer's own steps. */
  lemma {:induction false} ConsumerIsWoken<T>(s: State<T>, acts: seq<Act<T>>)
    requires Inv(s) && ConsumerBlocked(s) && s.p.pc.Waking?
    requires ProducerActs(acts) && Run(Step, s, acts).Some? && OwnSteps(acts) >= Rank(s.p.pc, NotEmpty)
    ensures Rank(s.p.pc, NotEmpty) <= 8 && Run(Step, s, acts).value.mem.tokenC
    decreases |acts|
  {
    ProducerComesCloser(s, true);
    var a := acts[0];
    var n := Step(s, a).value;
    StepKeepsInv(s, a);
    ProducerStepsOn(s, a);
    if n.mem.tokenC { ConsumerTokenStays(n, acts[1..]); } else { ConsumerIsWoken(n, acts[1..]); }
  }

  /** A blocked producer gets its token within five of the consumer's own steps once
      the consumer is inside the wake or has begun to drop its handle: the drop is what
      ends the exception if nothing is taken any more. */
  lemma {:induction false} ProducerIsWoken<T>(s: State<T>, acts: seq<Act<T>>)
    requires Inv(s) && ProducerBlocked(s) && WakesOrCloses(s)
    requires ConsumerActs(acts) && Run(Step, s, acts).Some? && OwnSteps(acts) >= ConsumerRank(s.c.pc)
    ensures ConsumerRank(s.c.pc) <= 5 && Run(Step, s, acts).value.mem.tokenP
    decreases |acts|
  {
    ConsumerComesCloser(s, true);
    var a := acts[0];
    var n := Step(s, a).value;
    StepKeepsInv(s, a);
    ConsumerStepsOn(s, a);
    if n.mem.tokenP { ProducerTokenStays(n, acts[1..]); } else { ProducerIsWoken(n, acts[1..]); }
  }

  // ---- the one exception ---------------------------------------------------

  /** One send into an empty ring of one slot. */
  lemma FillOne(s: State<int>) returns (acts: seq<Act<int>>, n: State<int>)
    requires Init(s) && s.cap == 1
    ensures Run(Step, s, acts) == Some(n)
    ensures n == State(1, Mem([7], 1, 0, false, false, false, false, false),
                       Prod(Idle, [], 1, 1, 0, [], true, false, false), s.c, [7], [], [])
  {
    acts, n := [], s;
    acts, n := Go(Step, s, acts, n, PBegin(Send(7, true)));
    acts, n := Go(Step, s, acts, n, PRun(false));
    acts, n := Go(Step, s, acts, n, PRun(false));
    acts, n := Go(Step, s, acts, n, PRun(false));
    acts, n := Go(Step, s, acts, n, PFlush);
    acts, n := Go(Step, s, acts, n, PFlush);
    acts, n := Go(Step, s, acts, n, PRun(false));
    acts, n := Go(Step, s, acts, n, PRun(false));
    assert n.mem.slots == [7];
  }

  /** A second send finds the ring full and, after one predicate check, announces. */
  lemma AnnounceOnFull(s: State<int>) returns (acts: seq<Act<int>>, n: State<int>)
    requires s.cap == 1 && s.mem == Mem([7], 1, 0, false, false, false, false, false)
    requires s.p == Prod(Idle, [], 1, 1, 0, [], true, false, false)
    ensures Run(Step, s, acts) == Some(n)
    ensures n == s.(p := s.p.(pc := Announce, todo := [8]))
  {
    acts, n := [], s;
    acts, n := Go(Step, s, acts, n, PBegin(Send(8, true)));
    acts, n := Go(Step, s, acts, n, PRun(false));
    acts, n := Go(Step, s, acts, n, PRun(false));
    acts, n := Go(Step, s, acts, n, PRun(false));
    acts, n := Go(Step, s, acts, n, PRun(false));
  }

  lemma FenceOnFull(s: State<int>) returns (acts: seq<Act<int>>, n: State<int>)
    requires s.cap == 1 && s.p.pc.Announce? && s.p.buf == []
    ensures Run(Step, s, acts) == Some(n)
    ensures n == s.(p := s.p.(pc := Check1), mem := s.mem.(parkedP := true))
  {
    acts, n := [], s;
    acts, n := Go(Step, s, acts, n, PRun(false));
    acts, n := Go(Step, s, acts, n, PRun(false));
  }

  lemma ParkOnFull(s: State<int>) returns (acts: seq<Act<int>>, n: State<int>)
    requires s.cap == 1 && s.p.pc.Check1? && s.mem.tail == 0 && !s.mem.closed && s.p.head == 1
    ensures Run(Step, s, acts) == Some(n)
    ensures n == s.(p := s.p.(pc := Park))
  {
    acts, n := [], s;
    acts, n := Go(Step, s, acts, n, PRun(false));
    acts, n := Go(Step, s, acts, n, PRun(false));
  }

  /** A drain whose callback unwinds publishes the tail and returns. */
  lemma UnwindDrain(s: State<int>) returns (acts: seq<Act<int>>, n: State<int>)
    requires s.cap == 1 && s.mem == Mem([7], 1, 0, false, true, false, false, false)
    requires s.c == Cons(Idle, 0, 0, 0, false, 0, false, false, false, false, 0)
    ensures Run(Step, s, acts) == Some(n)
    ensures n.p == s.p && n.mem == s.mem.(tail := 1) && n.c.pc.Idle? && n.c.tail == 1 && !n.c.closing
    ensures n.cap == 1
  {
    acts, n := [], s;
    acts, n := Go(Step, s, acts, n, CBegin(Drain));
    acts, n := Go(Step, s, acts, n, CRun(false));
    acts, n := Go(Step, s, acts, n, CRun(true));
    acts, n := Go(Step, s, acts, n, CRun(false));
    acts, n := Go(Step, s, acts, n, CFlush(1));
  }

  /** The exception in `NoDeadlock` is real: after an unwound drain the producer can
      sit blocked on a ring with room, the consumer idle, every store flushed. */
  lemma UnwoundDrainStrandsProducer(s: State<int>) returns (acts: seq<Act<int>>)
    requires Init(s) && s.cap == 1
    ensures Run(Step, s, acts).Some?
    ensures var n := Run(Step, s, acts).value;
      ProducerBlocked(n) && n.p.head < n.mem.tail + n.cap && n.c.pc.Idle? && n.p.buf == [] && Flushed(n.mem, n.c)
  {
    var xs, a := FillOne(s);
    var ys, b := AnnounceOnFull(a);
    var zs, c := FenceOnFull(b);
    var us, e := ParkOnFull(c);
    var ws, d := UnwindDrain(e);
    Compose(Step, s, xs, ys);
    Compose(Step, s, xs + ys, zs);
    Compose(Step, s, xs + ys + zs, us);
    Compose(Step, s, xs + ys + zs + us, ws);
    acts := xs + ys + zs + us + ws;
  }
}
