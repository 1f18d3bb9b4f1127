/** The many-producer fan-in: one consumer parked on a predicate over all rings,
    the shutdown flag and the live-producer count, each loaded one at a time, with
    any number of producers and shutdown handles over a store-buffering memory
    (x86-TSO).

    A ring is its cursors here. A producer may at any time report a full ring and
    publish nothing, so a consumer's tail store is taken to be visible at once:
    seeing it late only makes producers report full more often. */
module MpscFanIn {

  import opened Bits
  import opened Runs

  datatype Wake = T3a | Fence | T3b | Unpark

  /** `last` marks the wake of the drop that took the live count to zero. */
  datatype ProdPc = Ready | Waking(at: Wake, last: bool) | Gone

  /** `head` counts what this producer has published, `buf` the head stores not yet in memory. */
  datatype Prod = Prod(pc: ProdPc, head: nat, buf: seq<nat>)

  datatype SigPc = Unsignalled | Signalling(at: Wake) | Signalled

  /** `pending`: the flag store is still in this thread's buffer. */
  datatype Sig = Sig(pc: SigPc, pending: bool)

  /** What a predicate evaluation is for: the call itself, a spin check, or a check
      after announcing. */
  datatype Phase = Call | Spin | Parked

  datatype ConsPc =
    | Idle
    | Scan(ring: nat)      // load the head of each ring
    | Shut                 // load the shutdown flag
    | Live                 // load the live count
    | Rescan(ring: nat)    // live count read zero: load the heads again
    | Announce | AnnFence | Park | Leave
    | Ended(drained: bool) // `Err(Shutdown)`, because drained or because signalled

  datatype Cons = Cons(pc: ConsPc, phase: Phase, batch: bool, progress: bool, got: bool, tails: seq<nat>)

  datatype State = State(cap: nat, heads: seq<nat>, live: int, shutdown: bool, parked: bool, token: bool,
                         prods: seq<Prod>, sigs: seq<Sig>, cons: Cons)

  datatype Act =
    | Publish(i: nat, n: nat)   // `try_send`, or a bulk of `n`
    | DropProducer(i: nat)
    | RunProducer(i: nat)
    | FlushProducer(i: nat)
    | Signal(k: nat)
    | RunSignal(k: nat)
    | FlushSignal(k: nat)
    | Recv(batch: bool)
    | RunConsumer(choice: bool)

  ghost predicate Init(s: State)
  {
    && s.cap >= 1 && |s.prods| == |s.heads| == |s.cons.tails| >= 1
    && s.live == |s.prods| && !s.shutdown && !s.parked && !s.token
    && s.cons.pc == Idle
    && (forall i :: 0 <= i < |s.prods| ==> s.prods[i] == Prod(Ready, 0, []) && s.heads[i] == 0 && s.cons.tails[i] == 0)
    && (forall k :: 0 <= k < |s.sigs| ==> s.sigs[k] == Sig(Unsignalled, false))
  }

  // ---- steps ------------------------------------------------------------

  function ProducerStep(s: State, i: nat): Option<State>
    requires i < |s.prods|
  {
    var p := s.prods[i];
    if !p.pc.Waking? then None else
    match p.pc.at
    case T3a => Some(s.(prods := s.prods[i := p.(pc := Waking(if s.parked then Unpark else Fence, p.pc.last))]))
    case Fence => if p.buf == [] then Some(s.(prods := s.prods[i := p.(pc := Waking(T3b, p.pc.last))])) else None
    case T3b =>
      Some(s.(prods := s.prods[i := p.(pc := if s.parked then Waking(Unpark, p.pc.last) else if p.pc.last then Gone else Ready)]))
    case Unpark =>
      if p.buf == [] then Some(s.(token := true, prods := s.prods[i := p.(pc := if p.pc.last then Gone else Ready)])) else None
  }

  function SignalStep(s: State, k: nat): Option<State>
    requires k < |s.sigs|
  {
    var g := s.sigs[k];
    if !g.pc.Signalling? then None else
    match g.pc.at
    case T3a => Some(s.(sigs := s.sigs[k := g.(pc := Signalling(if s.parked then Unpark else Fence))]))
    case Fence => if !g.pending then Some(s.(sigs := s.sigs[k := g.(pc := Signalling(T3b))])) else None
    case T3b => Some(s.(sigs := s.sigs[k := g.(pc := if s.parked then Signalling(Unpark) else Signalled)]))
    case Unpark => if !g.pending then Some(s.(token := true, sigs := s.sigs[k := g.(pc := Signalled)])) else None
  }

  /** The predicate came out true: return from the wait and call again. */
  function Return(c: Cons): Cons
  {
    if c.phase.Parked? then c.(pc := Leave) else c.(pc := Scan(0), phase := Call, progress := false, got := false)
  }

  /** The predicate came out false, or the call itself found nothing. */
  function NotReady(c: Cons, choice: bool): Cons
  {
    match c.phase
    case Call => c.(pc := Scan(0), phase := Spin)
    case Spin => if choice then c.(pc := Scan(0)) else c.(pc := Announce)
    case Parked => c.(pc := Park)
  }

  function ConsumerStep(s: State, choice: bool): Option<State>
  {
    var c := s.cons;
    match c.pc
    case Scan(i) =>
      if i < |s.heads| && i < |c.tails| then
        if s.heads[i] == c.tails[i] then Some(s.(cons := c.(pc := Scan(i + 1))))
        else if !c.phase.Call? then Some(s.(cons := Return(c)))
        else if c.batch then
          Some(s.(cons := c.(pc := Scan(i + 1), tails := c.tails[i := s.heads[i]], progress := true, got := true)))
        else
          Some(s.(cons := c.(pc := Idle, tails := c.tails[i := c.tails[i] + 1])))
      else if c.phase.Call? && c.progress then Some(s.(cons := c.(pc := Scan(0), progress := false)))
      else if c.phase.Call? && c.got then Some(s.(cons := c.(pc := Idle)))
      else Some(s.(cons := c.(pc := Shut)))
    case Shut =>
      if !s.shutdown then Some(s.(cons := c.(pc := Live)))
      else Some(s.(cons := if c.phase.Call? then c.(pc := Ended(false)) else Return(c)))
    case Live => Some(s.(cons := if s.live == 0 then c.(pc := Rescan(0)) else NotReady(c, choice)))
    case Rescan(i) =>
      if i < |s.heads| && i < |c.tails| then
        Some(s.(cons := if s.heads[i] == c.tails[i] then c.(pc := Rescan(i + 1)) else NotReady(c, choice)))
      else Some(s.(cons := if c.phase.Call? then c.(pc := Ended(true)) else Return(c)))
    case Announce => Some(s.(parked := true, cons := c.(pc := AnnFence)))
    case AnnFence => Some(s.(cons := c.(pc := Scan(0), phase := Parked)))
    case Park =>
      if s.token then Some(s.(token := false, cons := c.(pc := Scan(0))))
      else if choice then Some(s.(cons := c.(pc := Scan(0))))
      else None
    case Leave => Some(s.(parked := false, cons := c.(pc := Scan(0), phase := Call, progress := false, got := false)))
    case _ => None
  }

  function Step(s: State, a: Act): Option<State>
  {
    match a
    case Publish(i, n) =>
      if i < |s.prods| && i < |s.cons.tails| && s.prods[i].pc.Ready? && n > 0 && s.prods[i].head + n <= s.cons.tails[i] + s.cap then
        var h := s.prods[i].head + n;
        Some(s.(prods := s.prods[i := Prod(Waking(T3a, false), h, s.prods[i].buf + [h])]))
      else None
    case DropProducer(i) =>
      if i < |s.prods| && s.prods[i].pc.Ready? && s.prods[i].buf == [] then
        Some(s.(live := s.live - 1, prods := s.prods[i := s.prods[i].(pc := if s.live == 1 then Waking(T3a, true) else Gone)]))
      else None
    case RunProducer(i) => if i < |s.prods| then ProducerStep(s, i) else None
    case FlushProducer(i) =>
      if i < |s.prods| && i < |s.heads| && s.prods[i].buf != [] then
        Some(s.(heads := s.heads[i := s.prods[i].buf[0]], prods := s.prods[i := s.prods[i].(buf := s.prods[i].buf[1..])]))
      else None
    case Signal(k) =>
      if k < |s.sigs| && s.sigs[k].pc.Unsignalled? then Some(s.(sigs := s.sigs[k := Sig(Signalling(T3a), true)])) else None
    case RunSignal(k) => if k < |s.sigs| then SignalStep(s, k) else None
    case FlushSignal(k) =>
      if k < |s.sigs| && s.sigs[k].pending then
        Some(s.(shutdown := true, sigs := s.sigs[k := s.sigs[k].(pending := false)]))
      else None
    case Recv(batch) =>
      if s.cons.pc.Idle? || s.cons.pc.Ended? then
        Some(s.(cons := Cons(Scan(0), Call, batch, false, false, s.cons.tails)))
      else None
    case RunConsumer(choice) => ConsumerStep(s, choice)
  }

  // ---- invariant --------------------------------------------------------

  predicate Alive(p: Prod)
  {
    p.pc.Ready? || (p.pc.Waking? && !p.pc.last)
  }

  function CountAlive(ps: seq<Prod>): nat
  {
    if ps == [] then 0 else (if Alive(ps[0]) then 1 else 0) + CountAlive(ps[1..])
  }

  lemma {:induction false} CountUpdate(ps: seq<Prod>, i: nat, p: Prod)
    requires i < |ps|
    ensures CountAlive(ps[i := p]) == CountAlive(ps) - (if Alive(ps[i]) then 1 else 0) + (if Alive(p) then 1 else 0)
  {
    if i == 0 {
      assert ps[i := p][1..] == ps[1..];
    } else {
      assert ps[i := p][1..] == ps[1..][i - 1 := p];
      CountUpdate(ps[1..], i - 1, p);
    }
  }

  lemma {:induction false} NoneAlive(ps: seq<Prod>)
    requires CountAlive(ps) == 0
    ensures forall i :: 0 <= i < |ps| ==> !Alive(ps[i])
  {
    if ps != [] {
      NoneAlive(ps[1..]);
      forall i | 0 <= i < |ps|
        ensures !Alive(ps[i])
      {
        if i > 0 { assert ps[i] == ps[1..][i - 1]; }
      }
    }
  }

  lemma {:induction false} AllReady(ps: seq<Prod>)
    requires forall i :: 0 <= i < |ps| ==> ps[i].pc.Ready?
    ensures CountAlive(ps) == |ps|
  {
    if ps != [] { AllReady(ps[1..]); }
  }

  /** A producer's buffer: at most its latest head, only until its wake has fenced. */
  ghost predicate ProducerOk(p: Prod, head: nat, tail: nat, cap: nat)
  {
    && tail <= head <= p.head <= tail + cap
    && (if p.buf == [] then head == p.head
        else p.buf == [p.head] && p.pc.Waking? && !p.pc.last && !p.pc.at.T3b?)
  }

  predicate SignalOk(g: Sig)
  {
    g.pending ==> g.pc.Signalling? && !g.pc.at.T3b?
  }

  predicate Announced(c: Cons)
  {
    c.pc.AnnFence? || c.pc.Leave? || c.pc.Park?
    || (c.phase.Parked? && (c.pc.Scan? || c.pc.Shut? || c.pc.Live? || c.pc.Rescan?))
  }

  /** Rings that the current evaluation has found empty before any other load. */
  predicate SeenEmpty(c: Cons, j: nat)
  {
    match c.pc
    case Scan(i) => j < i
    case Shut => true
    case Live => true
    case Rescan(_) => true
    case Park => true
    case _ => false
  }

  ghost predicate SomeSignalOwes(s: State)
  {
    exists k :: 0 <= k < |s.sigs| && s.sigs[k].pc.Signalling?
  }

  ghost predicate LastDropOwes(s: State)
  {
    exists i :: 0 <= i < |s.prods| && s.prods[i].pc.Waking? && s.prods[i].pc.last
  }

  ghost predicate Base(s: State)
  {
    && |s.prods| == |s.heads| == |s.cons.tails|
    && (forall i :: 0 <= i < |s.prods| ==> ProducerOk(s.prods[i], s.heads[i], s.cons.tails[i], s.cap))
    && (forall k :: 0 <= k < |s.sigs| ==> SignalOk(s.sigs[k]))
    && s.live == CountAlive(s.prods)
    && (s.parked <==> Announced(s.cons))
    && (s.cons.pc.Park? || s.cons.pc.Leave? ==> s.cons.phase.Parked?)
    && (s.cons.pc.Announce? || s.cons.pc.AnnFence? ==> s.cons.phase.Spin?)
  }

  /** The flag is set only by a shutdown handle. */
  ghost predicate FlagOrigin(s: State)
  {
    s.shutdown ==> exists k :: 0 <= k < |s.sigs| && !s.sigs[k].pc.Unsignalled? && !s.sigs[k].pending
  }

  /** What the post-announce evaluation has found false and is now true is owed. */
  ghost predicate Owed(s: State)
    requires Base(s)
  {
    Announced(s.cons) && !s.token ==>
      && (forall j :: 0 <= j < |s.prods| && SeenEmpty(s.cons, j) && s.heads[j] != s.cons.tails[j] ==> s.prods[j].pc.Waking?)
      && ((s.cons.pc.Live? || s.cons.pc.Rescan? || s.cons.pc.Park?) && s.shutdown ==> SomeSignalOwes(s))
      && (s.cons.pc.Park? && s.live == 0 ==> LastDropOwes(s))
  }

  /** With the live count at zero nothing changes any more: a rescan is final. */
  ghost predicate Finality(s: State)
    requires Base(s)
  {
    && (s.cons.pc.Rescan? ==> s.live == 0)
    && (forall j :: 0 <= j < |s.prods| && s.cons.pc.Rescan? && j < s.cons.pc.ring ==> s.prods[j].head == s.cons.tails[j])
    && (s.cons.pc.Ended? && !s.cons.pc.drained ==> s.shutdown)
    && (s.cons.pc.Ended? && s.cons.pc.drained ==>
          s.live == 0 && forall j :: 0 <= j < |s.prods| ==> s.prods[j].head == s.cons.tails[j])
  }

  ghost predicate Inv(s: State)
  {
    Base(s) && Owed(s) && Finality(s)
  }

  lemma InitInv(s: State)
    requires Init(s)
    ensures Inv(s)
  {
    AllReady(s.prods);
  }

  lemma PublishKeepsInv(s: State, i: nat, n: nat)
    requires Inv(s) && Step(s, Publish(i, n)).Some?
    ensures Inv(Step(s, Publish(i, n)).value)
  {
    var t := Step(s, Publish(i, n)).value;
    CountUpdate(s.prods, i, t.prods[i]);
    if s.live == 0 { NoneAlive(s.prods); }
    assert forall j :: 0 <= j < |s.prods| && j != i ==> t.prods[j] == s.prods[j];
  }

  lemma DropKeepsInv(s: State, i: nat)
    requires Inv(s) && Step(s, DropProducer(i)).Some?
    ensures Inv(Step(s, DropProducer(i)).value)
  {
    var t := Step(s, DropProducer(i)).value;
    CountUpdate(s.prods, i, t.prods[i]);
    if s.live == 0 { NoneAlive(s.prods); }
    assert forall j :: 0 <= j < |s.prods| && j != i ==> t.prods[j] == s.prods[j];
  }

  lemma ProbeKeepsInv(s: State, i: nat)
    requires Inv(s) && i < |s.prods| && s.prods[i].pc.Waking? && (s.prods[i].pc.at.T3a? || s.prods[i].pc.at.Fence?)
    requires ProducerStep(s, i).Some?
    ensures Inv(ProducerStep(s, i).value)
  {
    var t := ProducerStep(s, i).value;
    CountUpdate(s.prods, i, t.prods[i]);
    if s.live == 0 { NoneAlive(s.prods); }
    assert forall j :: 0 <= j < |s.prods| && j != i ==> t.prods[j] == s.prods[j];
    if LastDropOwes(s) && t.prods[i].pc.Waking? {
      var w :| 0 <= w < |s.prods| && s.prods[w].pc.Waking? && s.prods[w].pc.last;
      assert t.prods[w].pc.Waking? && t.prods[w].pc.last;
    }
  }

  lemma ReprobeKeepsInv(s: State, i: nat)
    requires Inv(s) && i < |s.prods| && s.prods[i].pc.Waking? && s.prods[i].pc.at.T3b?
    requires ProducerStep(s, i).Some?
    ensures Inv(ProducerStep(s, i).value)
  {
    var t := ProducerStep(s, i).value;
    CountUpdate(s.prods, i, t.prods[i]);
    if s.live == 0 { NoneAlive(s.prods); }
    assert forall j :: 0 <= j < |s.prods| && j != i ==> t.prods[j] == s.prods[j];
    if LastDropOwes(s) && t.prods[i].pc.Waking? {
      var w :| 0 <= w < |s.prods| && s.prods[w].pc.Waking? && s.prods[w].pc.last;
      assert t.prods[w].pc.Waking? && t.prods[w].pc.last;
    }
  }

  lemma DeliverKeepsInv(s: State, i: nat)
    requires Inv(s) && i < |s.prods| && s.prods[i].pc.Waking? && s.prods[i].pc.at.Unpark?
    requires ProducerStep(s, i).Some?
    ensures Inv(ProducerStep(s, i).value)
  {
    var t := ProducerStep(s, i).value;
    CountUpdate(s.prods, i, t.prods[i]);
    if s.live == 0 { NoneAlive(s.prods); }
    assert forall j :: 0 <= j < |s.prods| && j != i ==> t.prods[j] == s.prods[j];
  }

  lemma FlushProducerKeepsInv(s: State, i: nat)
    requires Inv(s) && Step(s, FlushProducer(i)).Some?
    ensures Inv(Step(s, FlushProducer(i)).value)
  {
    var t := Step(s, FlushProducer(i)).value;
    CountUpdate(s.prods, i, t.prods[i]);
    if s.live == 0 { NoneAlive(s.prods); }
    assert forall j :: 0 <= j < |s.prods| && j != i ==> t.prods[j] == s.prods[j];
  }

  lemma SignalKeepsInv(s: State, k: nat)
    requires Inv(s) && Step(s, Signal(k)).Some?
    ensures Inv(Step(s, Signal(k)).value)
  {
    var n := Step(s, Signal(k)).value;
    if SomeSignalOwes(s) {
      var j :| 0 <= j < |s.sigs| && s.sigs[j].pc.Signalling?;
      if n.sigs[j].pc.Signalling? { assert SomeSignalOwes(n); }
    }
    if n.sigs[k].pc.Signalling? { assert SomeSignalOwes(n); }
  }

  lemma ProbeSignalKeepsInv(s: State, k: nat)
    requires Inv(s) && k < |s.sigs| && s.sigs[k].pc.Signalling? && !s.sigs[k].pc.at.Unpark?
    requires SignalStep(s, k).Some?
    ensures Inv(SignalStep(s, k).value)
  {
    var n := SignalStep(s, k).value;
    if n.sigs[k].pc.Signalling? { assert SomeSignalOwes(n); }
  }

  lemma DeliverSignalKeepsInv(s: State, k: nat)
    requires Inv(s) && k < |s.sigs| && s.sigs[k].pc.Signalling? && s.sigs[k].pc.at.Unpark?
    requires SignalStep(s, k).Some?
    ensures Inv(SignalStep(s, k).value)
  {
  }

  lemma FlushSignalKeepsInv(s: State, k: nat)
    requires Inv(s) && Step(s, FlushSignal(k)).Some?
    ensures Inv(Step(s, FlushSignal(k)).value)
  {
    var n := Step(s, FlushSignal(k)).value;
    if SomeSignalOwes(s) {
      var j :| 0 <= j < |s.sigs| && s.sigs[j].pc.Signalling?;
      if n.sigs[j].pc.Signalling? { assert SomeSignalOwes(n); }
    }
    if n.sigs[k].pc.Signalling? { assert SomeSignalOwes(n); }
  }

  lemma ScanEmptyKeepsInv(s: State, choice: bool)
    requires Inv(s) && s.cons.pc.Scan? && s.cons.pc.ring < |s.heads|
    requires s.heads[s.cons.pc.ring] == s.cons.tails[s.cons.pc.ring]
    ensures Inv(ConsumerStep(s, choice).value)
  {
  }

  lemma PopKeepsInv(s: State, choice: bool)
    requires Inv(s) && s.cons.pc.Scan? && s.cons.phase.Call? && s.cons.pc.ring < |s.heads|
    requires s.heads[s.cons.pc.ring] != s.cons.tails[s.cons.pc.ring]
    ensures Inv(ConsumerStep(s, choice).value)
  {
  }

  lemma ScanHitKeepsInv(s: State, choice: bool)
    requires Inv(s) && s.cons.pc.Scan? && !s.cons.phase.Call? && s.cons.pc.ring < |s.heads|
    requires s.heads[s.cons.pc.ring] != s.cons.tails[s.cons.pc.ring]
    ensures Inv(ConsumerStep(s, choice).value)
  {
  }

  lemma ScanEndKeepsInv(s: State, choice: bool)
    requires Inv(s) && s.cons.pc.Scan? && s.cons.pc.ring >= |s.heads|
    ensures Inv(ConsumerStep(s, choice).value)
  {
  }

  lemma ShutKeepsInv(s: State, choice: bool)
    requires Inv(s) && s.cons.pc.Shut? && ConsumerStep(s, choice).Some?
    ensures Inv(ConsumerStep(s, choice).value)
  {
  }

  lemma LiveKeepsInv(s: State, choice: bool)
    requires Inv(s) && s.cons.pc.Live? && ConsumerStep(s, choice).Some?
    ensures Inv(ConsumerStep(s, choice).value)
  {
  }

  lemma {:induction false} CountedAlive(ps: seq<Prod>, i: nat)
    requires i < |ps| && Alive(ps[i])
    ensures CountAlive(ps) > 0
  {
    if i > 0 { CountedAlive(ps[1..], i - 1); }
  }

  /** With nobody alive, a ring's head in memory is all its producer ever published. */
  lemma DeadIsFlushed(s: State, j: nat)
    requires Base(s) && s.live == 0 && j < |s.prods|
    ensures !Alive(s.prods[j]) && s.heads[j] == s.prods[j].head
  {
    if Alive(s.prods[j]) { CountedAlive(s.prods, j); }
  }

  lemma RescanEmptyKeepsInv(s: State, choice: bool)
    requires Inv(s) && s.cons.pc.Rescan? && s.cons.pc.ring < |s.heads|
    requires s.heads[s.cons.pc.ring] == s.cons.tails[s.cons.pc.ring]
    ensures Inv(ConsumerStep(s, choice).value)
  {
    DeadIsFlushed(s, s.cons.pc.ring);
  }

  lemma RescanHitKeepsInv(s: State, choice: bool)
    requires Inv(s) && s.cons.pc.Rescan? && s.cons.pc.ring < |s.heads|
    requires s.heads[s.cons.pc.ring] != s.cons.tails[s.cons.pc.ring]
    ensures Inv(ConsumerStep(s, choice).value)
  {
    var j := s.cons.pc.ring;
    DeadIsFlushed(s, j);
    if Announced(s.cons) && !s.token {
      // this ring was found empty before, so its producer, though dropped, is still waking
      assert s.prods[j].pc.Waking? && s.prods[j].pc.last;
      assert LastDropOwes(ConsumerStep(s, choice).value);
    }
  }

  lemma RescanEndKeepsInv(s: State, choice: bool)
    requires Inv(s) && s.cons.pc.Rescan? && s.cons.pc.ring >= |s.heads|
    ensures Inv(ConsumerStep(s, choice).value)
  {
  }

  lemma AnnounceKeepsInv(s: State, choice: bool)
    requires Inv(s) && (s.cons.pc.Announce? || s.cons.pc.AnnFence?) && ConsumerStep(s, choice).Some?
    ensures Inv(ConsumerStep(s, choice).value)
  {
  }

  lemma ParkKeepsInv(s: State, choice: bool)
    requires Inv(s) && (s.cons.pc.Park? || s.cons.pc.Leave?) && ConsumerStep(s, choice).Some?
    ensures Inv(ConsumerStep(s, choice).value)
  {
  }

  lemma ConsumerKeepsInv(s: State, choice: bool)
    requires Inv(s) && ConsumerStep(s, choice).Some?
    ensures Inv(ConsumerStep(s, choice).value)
  {
    match s.cons.pc
    case Scan(_) =>
      if s.cons.pc.ring >= |s.heads| { ScanEndKeepsInv(s, choice); }
      else if s.heads[s.cons.pc.ring] == s.cons.tails[s.cons.pc.ring] { ScanEmptyKeepsInv(s, choice); }
      else if s.cons.phase.Call? { PopKeepsInv(s, choice); }
      else { ScanHitKeepsInv(s, choice); }
    case Shut => ShutKeepsInv(s, choice);
    case Live => LiveKeepsInv(s, choice);
    case Rescan(_) =>
      if s.cons.pc.ring >= |s.heads| { RescanEndKeepsInv(s, choice); }
      else if s.heads[s.cons.pc.ring] == s.cons.tails[s.cons.pc.ring] { RescanEmptyKeepsInv(s, choice); }
      else { RescanHitKeepsInv(s, choice); }
    case Announce => AnnounceKeepsInv(s, choice);
    case AnnFence => AnnounceKeepsInv(s, choice);
    case _ => ParkKeepsInv(s, choice);
  }

  lemma StepKeepsInv(s: State, a: Act)
    requires Inv(s) && Step(s, a).Some?
    ensures Inv(Step(s, a).value)
  {
    match a
    case Publish(i, n) => PublishKeepsInv(s, i, n);
    case DropProducer(i) => DropKeepsInv(s, i);
    case RunProducer(i) =>
      if s.prods[i].pc.at.T3b? { ReprobeKeepsInv(s, i); }
      else if s.prods[i].pc.at.Unpark? { DeliverKeepsInv(s, i); }
      else { ProbeKeepsInv(s, i); }
    case FlushProducer(i) => FlushProducerKeepsInv(s, i);
    case Signal(k) => SignalKeepsInv(s, k);
    case RunSignal(k) => if s.sigs[k].pc.at.Unpark? { DeliverSignalKeepsInv(s, k); } else { ProbeSignalKeepsInv(s, k); }
    case FlushSignal(k) => FlushSignalKeepsInv(s, k);
    case RunConsumer(choice) => ConsumerKeepsInv(s, choice);
    case Recv(_) =>
  }

  lemma {:induction false} RunKeepsInv(s: State, acts: seq<Act>)
    requires Inv(s) && Run(Step, s, acts).Some?
    ensures Inv(Run(Step, s, acts).value)
    decreases |acts|
  {
    if acts != [] {
      StepKeepsInv(s, acts[0]);
      RunKeepsInv(Step(s, acts[0]).value, acts[1..]);
    }
  }

  lemma SignalsStaySignalled(s: State, a: Act, k: nat)
    requires Step(s, a).Some? && k < |s.sigs| && !s.sigs[k].pc.Unsignalled? && !s.sigs[k].pending
    ensures var n := Step(s, a).value; k < |n.sigs| && !n.sigs[k].pc.Unsignalled? && !n.sigs[k].pending
  {
    if !a.RunSignal? && !a.FlushSignal? && !a.Signal? { assert Step(s, a).value.sigs == s.sigs; }
  }

  lemma FlagOriginKept(s: State, a: Act)
    requires Inv(s) && FlagOrigin(s) && Step(s, a).Some?
    ensures FlagOrigin(Step(s, a).value)
  {
    var n := Step(s, a).value;
    if s.shutdown {
      var k :| 0 <= k < |s.sigs| && !s.sigs[k].pc.Unsignalled? && !s.sigs[k].pending;
      SignalsStaySignalled(s, a, k);
    } else if a.FlushSignal? {
      assert !n.sigs[a.k].pc.Unsignalled? && !n.sigs[a.k].pending;
    }
  }

  lemma {:induction false} RunKeepsOrigin(s: State, acts: seq<Act>)
    requires Inv(s) && FlagOrigin(s) && Run(Step, s, acts).Some?
    ensures FlagOrigin(Run(Step, s, acts).value)
    decreases |acts|
  {
    if acts != [] {
      FlagOriginKept(s, acts[0]);
      StepKeepsInv(s, acts[0]);
      RunKeepsOrigin(Step(s, acts[0]).value, acts[1..]);
    }
  }

  // ---- main results -----------------------------------------------------------

  predicate Blocked(s: State)
  {
    s.cons.pc.Park? && !s.token
  }

  /** The fan-in never sleeps on work. In every state of every run with the consumer
      blocked: a ring whose producer has published more than was taken has that
      producer inside its wake; a signalled shutdown has a signaller inside its wake;
      and if no producer is left, the last drop is inside its wake. */
  lemma NeverSleepsOnWork(s: State, acts: seq<Act>)
    requires Init(s) && Run(Step, s, acts).Some? && Blocked(Run(Step, s, acts).value)
    ensures var n := Run(Step, s, acts).value;
      && |n.prods| == |n.cons.tails|
      && (forall j :: 0 <= j < |n.prods| && n.prods[j].head != n.cons.tails[j] ==> n.prods[j].pc.Waking?)
      && (n.shutdown || (exists k :: 0 <= k < |n.sigs| && n.sigs[k].pending) ==> SomeSignalOwes(n))
      && ((forall j :: 0 <= j < |n.prods| ==> !Alive(n.prods[j])) ==> LastDropOwes(n))
  {
    InitInv(s);
    RunKeepsInv(s, acts);
    var n := Run(Step, s, acts).value;
    if forall j :: 0 <= j < |n.prods| ==> !Alive(n.prods[j]) { NoneCounted(n.prods); }
  }

  lemma {:induction false} NoneCounted(ps: seq<Prod>)
    requires forall j :: 0 <= j < |ps| ==> !Alive(ps[j])
    ensures CountAlive(ps) == 0
  {
    if ps != [] { NoneCounted(ps[1..]); }
  }

  /** `Err(Shutdown)` from a channel that nobody shut down: every producer is gone
      and every item any of them published has been taken. */
  lemma ShutdownMeansDrained(s: State, acts: seq<Act>)
    requires Init(s) && Run(Step, s, acts).Some? && Run(Step, s, acts).value.cons.pc.Ended?
    requires forall k :: 0 <= k < |Run(Step, s, acts).value.sigs| ==> Run(Step, s, acts).value.sigs[k].pc.Unsignalled?
    ensures var n := Run(Step, s, acts).value;
      && |n.prods| == |n.cons.tails|
      && (forall j :: 0 <= j < |n.prods| ==> !Alive(n.prods[j]) && n.prods[j].head == n.cons.tails[j])
  {
    InitInv(s);
    RunKeepsInv(s, acts);
    RunKeepsOrigin(s, acts);
    NoneAlive(Run(Step, s, acts).value.prods);
  }

  /** What was published has been taken, in every ring. */
  ghost predicate AllTaken(s: State)
  {
    |s.prods| == |s.cons.tails| && forall j :: 0 <= j < |s.prods| ==> s.prods[j].head == s.cons.tails[j]
  }

  /** A call that finds nothing looks at every ring in turn. */
  lemma {:induction false} ScanFindsNothing(s: State, i: nat) returns (acts: seq<Act>, n: State)
    requires s.cons.pc == Scan(i) && s.cons.phase == Call && !s.cons.progress && !s.cons.got
    requires i <= |s.heads| == |s.cons.tails| && s.heads == s.cons.tails
    ensures Run(Step, s, acts) == Some(n) && n == s.(cons := s.cons.(pc := Shut))
    decreases |s.heads| - i
  {
    var m := ConsumerStep(s, false).value;
    assert Step(s, RunConsumer(false)) == Some(m);
    if i == |s.heads| {
      acts, n := Go(Step, s, [], s, RunConsumer(false));
    } else {
      var rest;
      rest, n := ScanFindsNothing(m, i + 1);
      acts := [RunConsumer(false)] + rest;
      assert acts[1..] == rest;
    }
  }

  /** An item arrives and the flag is raised behind the receiver's back. */
  lemma SignalBehindTheScan(s: State) returns (acts: seq<Act>, n: State)
    requires s.cons.pc.Shut? && s.cons.phase.Call? && s.cap >= 1
    requires |s.prods| == |s.heads| == |s.cons.tails| >= 1 && |s.sigs| >= 1
    requires s.prods[0] == Prod(Ready, 0, []) && s.cons.tails[0] == 0 && s.sigs[0] == Sig(Unsignalled, false)
    ensures Run(Step, s, acts) == Some(n)
    ensures n.cons == s.cons.(pc := Ended(false)) && |n.prods| == |s.prods| && n.prods[0].head == 1 && |n.heads| >= 1 && n.heads[0] == 1
  {
    acts, n := Go(Step, s, [], s, Publish(0, 1));
    acts, n := Go(Step, s, acts, n, FlushProducer(0));
    assert n.heads[0] == 1;
    acts, n := Go(Step, s, acts, n, Signal(0));
    acts, n := Go(Step, s, acts, n, FlushSignal(0));
    acts, n := Go(Step, s, acts, n, RunConsumer(false));
  }

  /** A channel with a shutdown handle promises less, for any number of producers and
      any capacity: the receiver looks at every ring, an item is published, the flag is
      raised, and the receiver reports `Err(Shutdown)` with the item waiting. */
  lemma SignalMayLeaveAnItem(s: State) returns (acts: seq<Act>)
    requires Init(s) && |s.sigs| >= 1
    ensures Run(Step, s, acts).Some?
    ensures var n := Run(Step, s, acts).value;
      n.cons.pc == Ended(false) && !AllTaken(n) && |n.heads| == |n.cons.tails| >= 1 && n.cons.tails[0] < n.heads[0]
  {
    assert s.heads == s.cons.tails;
    var xs, a := Go(Step, s, [], s, Recv(false));
    var ys, b := ScanFindsNothing(a, 0);
    var zs, c := SignalBehindTheScan(b);
    Compose(Step, s, xs, ys);
    Compose(Step, s, xs + ys, zs);
    acts := xs + ys + zs;
    InitInv(s);
    RunKeepsInv(s, acts);
  }

  /** So the promise that `Err(Shutdown)` comes only when drained holds of a channel,
      whatever happens on it, if and only if nobody holds a shutdown handle. */
  lemma DrainedIffNobodySignals(s: State)
    requires Init(s)
    ensures (forall acts: seq<Act> ::
               Run(Step, s, acts).Some? && Run(Step, s, acts).value.cons.pc.Ended? ==> AllTaken(Run(Step, s, acts).value))
            <==> |s.sigs| == 0
  {
    if |s.sigs| == 0 {
      forall acts: seq<Act> | Run(Step, s, acts).Some? && Run(Step, s, acts).value.cons.pc.Ended?
        ensures AllTaken(Run(Step, s, acts).value)
      {
        RunKeepsSignals(s, acts);
        ShutdownMeansDrained(s, acts);
      }
    } else {
      var acts := SignalMayLeaveAnItem(s);
      assert !AllTaken(Run(Step, s, acts).value);
    }
  }

  lemma {:induction false} RunKeepsSignals(s: State, acts: seq<Act>)
    requires Run(Step, s, acts).Some?
    ensures |Run(Step, s, acts).value.sigs| == |s.sigs|
    decreases |acts|
  {
    if acts != [] {
      StepKeepsSignals(s, acts[0]);
      RunKeepsSignals(Step(s, acts[0]).value, acts[1..]);
    }
  }

  lemma StepKeepsSignals(s: State, a: Act)
    requires Step(s, a).Some?
    ensures |Step(s, a).value.sigs| == |s.sigs|
  {
  }

  /** Every comparison of a head with a tail, and of what is published with the room,
      comes out the same on wrapped words. */
  lemma CursorTests(s: State, j: nat, k: nat, bits: nat)
    requires Inv(s) && j < |s.prods| && k < bits && s.cap == Pow2(k)
    ensures Wrap(s.heads[j], bits) == Wrap(s.cons.tails[j], bits) <==> s.heads[j] == s.cons.tails[j]
    ensures WrapSub(Wrap(s.prods[j].head, bits), Wrap(s.cons.tails[j], bits), bits) == s.prods[j].head - s.cons.tails[j]
  {
    Fits(k, bits);
    WrapInjective(s.heads[j], s.cons.tails[j], bits);
    WrapSubExact(s.prods[j].head, s.cons.tails[j], bits);
  }

  function Rank(at: Wake): nat
  {
    match at case T3a => 4 case Fence => 3 case T3b => 2 case Unpark => 1
  }

  /** With the consumer blocked, a producer inside its wake can always move, and each
      step of its own sets the token or brings it closer; it is at most four away. */
  lemma ProducerComesCloser(s: State, i: nat)
    requires Inv(s) && Blocked(s) && i < |s.prods| && s.prods[i].pc.Waking?
    ensures Rank(s.prods[i].pc.at) <= 4
    ensures ProducerStep(s, i).Some? || Step(s, FlushProducer(i)).Some?
    ensures ProducerStep(s, i).Some? ==>
              var n := ProducerStep(s, i).value;
              n.token || (Blocked(n) && n.prods[i].pc.Waking? && Rank(n.prods[i].pc.at) < Rank(s.prods[i].pc.at))
  {
  }

  lemma SignalComesCloser(s: State, k: nat)
    requires Inv(s) && Blocked(s) && k < |s.sigs| && s.sigs[k].pc.Signalling?
    ensures Rank(s.sigs[k].pc.at) <= 4
    ensures SignalStep(s, k).Some? || Step(s, FlushSignal(k)).Some?
    ensures SignalStep(s, k).Some? ==>
              var n := SignalStep(s, k).value;
              n.token || (Blocked(n) && n.sigs[k].pc.Signalling? && Rank(n.sigs[k].pc.at) < Rank(s.sigs[k].pc.at))
  {
  }

  /** Acts of anyone but the consumer. */
  predicate OthersOnly(acts: seq<Act>)
  {
    forall i :: 0 <= i < |acts| ==> !acts[i].Recv? && !acts[i].RunConsumer?
  }

  /** Who owes the wake: producer `i`, or shutdown handle `i`. */
  datatype Waker = ByProducer(i: nat) | BySignal(i: nat)

  predicate Owing(s: State, w: Waker)
  {
    match w
    case ByProducer(i) => i < |s.prods| && s.prods[i].pc.Waking?
    case BySignal(k) => k < |s.sigs| && s.sigs[k].pc.Signalling?
  }

  function Left(s: State, w: Waker): nat
    requires Owing(s, w)
  {
    match w case ByProducer(i) => Rank(s.prods[i].pc.at) case BySignal(k) => Rank(s.sigs[k].pc.at)
  }

  function OwnSteps(acts: seq<Act>, w: Waker): nat
  {
    if acts == [] then 0
    else
      var own := match w case ByProducer(i) => acts[0] == RunProducer(i) case BySignal(k) => acts[0] == RunSignal(k);
      (if own then 1 else 0) + OwnSteps(acts[1..], w)
  }

  /** Nobody but its owner moves a wake, and only the consumer leaves its park. */
  lemma OthersLeaveTheWake(s: State, a: Act, w: Waker)
    requires Blocked(s) && Owing(s, w) && OthersOnly([a]) && OwnSteps([a], w) == 0 && Step(s, a).Some?
    ensures var n := Step(s, a).value;
      n.token || (Blocked(n) && Owing(n, w) && Left(n, w) == Left(s, w))
  {
    assert [a][0] == a && [a][1..] == [];
    assert Step(s, a).value.cons == s.cons;
    match w
    case ByProducer(i) => assert Step(s, a).value.prods[i].pc == s.prods[i].pc;
    case BySignal(k) => assert Step(s, a).value.sigs[k].pc == s.sigs[k].pc;
  }

  /** Any act of the others: the token is there, or the wake is as close, or closer. */
  lemma OthersStepOn(s: State, a: Act, w: Waker)
    requires Inv(s) && Blocked(s) && Owing(s, w) && OthersOnly([a]) && Step(s, a).Some?
    ensures var n := Step(s, a).value;
      n.token || (Blocked(n) && Owing(n, w) && Left(n, w) + OwnSteps([a], w) <= Left(s, w))
  {
    assert [a][0] == a && [a][1..] == [];
    if OwnSteps([a], w) == 0 {
      OthersLeaveTheWake(s, a, w);
    } else {
      match w
      case ByProducer(i) => ProducerComesCloser(s, i);
      case BySignal(k) => SignalComesCloser(s, k);
    }
  }

  lemma {:induction false} TokenStays(s: State, acts: seq<Act>)
    requires OthersOnly(acts) && Run(Step, s, acts).Some? && s.token
    ensures Run(Step, s, acts).value.token
    decreases |acts|
  {
    if acts != [] { TokenStays(Step(s, acts[0]).value, acts[1..]); }
  }

  /** A blocked consumer that is owed a wake has its token within four own steps of the
      producer or shutdown handle that owes it, whatever all the others do meanwhile. */
  lemma {:induction false} ConsumerIsWoken(s: State, acts: seq<Act>, w: Waker)
    requires Inv(s) && Blocked(s) && Owing(s, w)
    requires OthersOnly(acts) && Run(Step, s, acts).Some? && OwnSteps(acts, w) >= Left(s, w)
    ensures Left(s, w) <= 4 && Run(Step, s, acts).value.token
    decreases |acts|
  {
    var a := acts[0];
    var n := Step(s, a).value;
    assert [a][0] == a && [a][1..] == [];
    StepKeepsInv(s, a);
    OthersStepOn(s, a, w);
    if n.token { TokenStays(n, acts[1..]); } else { ConsumerIsWoken(n, acts[1..], w); }
  }

  function Unflushed(s: State, w: Waker): nat
    requires Owing(s, w)
  {
    match w case ByProducer(i) => |s.prods[i].buf| case BySignal(k) => if s.sigs[k].pending then 1 else 0
  }

  /** The next act of the waker itself: a step of the wake, or a flush it waits for. */
  lemma WakerMoves(s: State, w: Waker) returns (a: Act)
    requires Inv(s) && Blocked(s) && Owing(s, w)
    ensures OthersOnly([a]) && Step(s, a).Some?
    ensures var n := Step(s, a).value;
      || n.token
      || (Blocked(n) && Owing(n, w) && Left(n, w) < Left(s, w))
      || (Blocked(n) && Owing(n, w) && Left(n, w) == Left(s, w) && Unflushed(n, w) < Unflushed(s, w))
  {
    match w
    case ByProducer(i) =>
      ProducerComesCloser(s, i);
      a := if ProducerStep(s, i).Some? then RunProducer(i) else FlushProducer(i);
    case BySignal(k) =>
      SignalComesCloser(s, k);
      a := if SignalStep(s, k).Some? then RunSignal(k) else FlushSignal(k);
  }

  /** ... and whoever owes the wake can always deliver it, by acts of its own. */
  lemma WakerDelivers(s: State, w: Waker) returns (acts: seq<Act>)
    requires Inv(s) && Blocked(s) && Owing(s, w)
    ensures OthersOnly(acts) && Run(Step, s, acts).Some? && Run(Step, s, acts).value.token
    decreases Left(s, w), Unflushed(s, w)
  {
    var a := WakerMoves(s, w);
    var n := Step(s, a).value;
    var rest := [];
    if !n.token {
      StepKeepsInv(s, a);
      rest := WakerDelivers(n, w);
    }
    acts := [a] + rest;
    assert acts[1..] == rest && [a][0] == a;
  }
}
