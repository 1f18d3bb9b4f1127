/** The calls on the blocking ring come back. An endpoint that has what it waits for
    returns within a bound on its own steps, whatever the other does meanwhile; the one
    place where it takes no steps is parked without a token, and `RingWake` says who
    then owes it one. */
module RingProgress {
  import opened RingTso
  import opened RingCalls
  import opened Runs

  predicate ProducerActs<T>(a: Act<T>)
  {
    a.PRun?
  }

  predicate ConsumerActs<T>(a: Act<T>)
  {
    a.CRun?
  }

  function WakeRank(g: Gate, at: Wake, closing: bool): nat
  {
    (match at case T3a => 4 case Fence => 3 case T3b => 2 case Unpark => 1) + if closing && g.NotFull? then 4 else 0
  }

  // ---- the producer ---------------------------------------------------------------

  predicate Room<T>(s: State<T>)
  {
    s.p.head < s.mem.tail + s.cap
  }

  /** The producer's call needs nothing more, or it is not asked to wait, or it can see
      that there is room or that the ring is closed. */
  predicate SendGoes<T>(s: State<T>)
  {
    || s.p.pc.Idle? || s.p.pc.Gone? || s.p.pc.Access? || s.p.pc.Waking? || s.p.pc.Close?
    || (!s.p.blocking && (s.p.pc.Refresh? || s.p.pc.ReadClosed?))
    || Room(s) || s.mem.closed
  }

  /** A bound on the producer's steps to the end of its call. */
  function SendRank<T>(s: State<T>): nat
  {
    var w := |s.p.todo| + 5;
    match s.p.pc
    case Waking(g, at, closing) => WakeRank(g, at, closing)
    case Close => 9
    case Access => w
    case Refresh => w + 1
    case ReadClosed => if s.mem.closed || !s.p.blocking then 1 else w + 3
    case Spin1 => if Room(s) then w + 2 else w + 3
    case Spin2 => if s.mem.closed then w + 2 else w + 7
    case Announce => w + 6
    case AnnFence => w + 5
    case Check1 => if Room(s) then w + 3 else w + 4
    case Check2 => if s.mem.closed then w + 3 else w + 6
    case Park => w + 5
    case Leave => w + 2
    case _ => 0
  }

  lemma SendComesCloser<T>(s: State<T>, choice: bool)
    requires Inv(s) && SendGoes(s) && PStep(s, choice).Some?
    ensures SendGoes(PStep(s, choice).value) && SendRank(PStep(s, choice).value) < SendRank(s)
  {
    if Announced(s.p.pc) { ParkedSendComesCloser(s, choice); }
    else if WaitsForRoom(s.p.pc) { WaitForRoomComesCloser(s, choice); }
    else if s.p.pc.Access? || s.p.pc.Waking? || s.p.pc.Close? { WriteComesCloser(s, choice); }
    else { LookForRoomComesCloser(s, choice); }
  }

  lemma LookForRoomComesCloser<T>(s: State<T>, choice: bool)
    requires Inv(s) && SendGoes(s) && PStep(s, choice).Some? && (s.p.pc.Refresh? || s.p.pc.ReadClosed?)
    ensures SendGoes(PStep(s, choice).value) && SendRank(PStep(s, choice).value) < SendRank(s)
  {
  }

  lemma WriteComesCloser<T>(s: State<T>, choice: bool)
    requires Inv(s) && PStep(s, choice).Some? && (s.p.pc.Access? || s.p.pc.Waking? || s.p.pc.Close?)
    ensures SendGoes(PStep(s, choice).value) && SendRank(PStep(s, choice).value) < SendRank(s)
  {
  }

  lemma ParkedSendComesCloser<T>(s: State<T>, choice: bool)
    requires Inv(s) && SendGoes(s) && PStep(s, choice).Some? && Announced(s.p.pc)
    ensures SendGoes(PStep(s, choice).value) && SendRank(PStep(s, choice).value) < SendRank(s)
  {
  }

  lemma WaitForRoomComesCloser<T>(s: State<T>, choice: bool)
    requires Inv(s) && SendGoes(s) && PStep(s, choice).Some? && (s.p.pc.Spin1? || s.p.pc.Spin2? || s.p.pc.Announce?)
    ensures SendGoes(PStep(s, choice).value) && SendRank(PStep(s, choice).value) < SendRank(s)
  {
  }

  lemma TailOnlyGrows<T>(s: State<T>, a: Act<T>)
    requires Inv(s) && Step(s, a).Some?
    ensures s.mem.tail <= Step(s, a).value.mem.tail && (s.mem.closed ==> Step(s, a).value.mem.closed)
  {
    if a.PRun? { ProducerStoresNothing(s, a.choice); } else if a.CRun? { ConsumerStoresNothing(s, a.choice); }
  }

  lemma OthersLetItSend<T>(s: State<T>, a: Act<T>)
    requires Inv(s) && SendGoes(s) && Step(s, a).Some? && !a.PBegin? && !a.PRun?
    ensures SendGoes(Step(s, a).value) && SendRank(Step(s, a).value) <= SendRank(s)
  {
    OthersLeaveProducer(s, a);
    TailOnlyGrows(s, a);
  }

  lemma RestIsZero<T>(s: State<T>)
    requires Inv(s) && SendRank(s) == 0
    ensures s.p.pc.Idle? || s.p.pc.Gone?
  {
  }

  lemma {:induction false} DoneStays<T>(s: State<T>, acts: seq<Act<T>>)
    requires (s.p.pc.Idle? || s.p.pc.Gone?) && NoSend(acts) && Run(Step, s, acts).Some?
    ensures Run(Step, s, acts).value.p.pc == s.p.pc
    decreases |acts|
  {
    if acts != [] {
      if !acts[0].PRun? { OthersLeaveProducer(s, acts[0]); }
      DoneStays(Step(s, acts[0]).value, acts[1..]);
    }
  }

  /** A send, a bulk send or the drop of the handle comes back: once it has what it
      needs, within `SendRank` of the producer's own steps. */
  lemma {:induction false} SendComesBack<T>(s: State<T>, acts: seq<Act<T>>)
    requires Inv(s) && SendGoes(s) && NoSend(acts) && Run(Step, s, acts).Some?
    requires Count(acts, ProducerActs) >= SendRank(s)
    ensures SendRank(s) <= |s.p.todo| + 12
    ensures var pc := Run(Step, s, acts).value.p.pc; pc.Idle? || pc.Gone?
    decreases |acts|
  {
    if SendRank(s) == 0 {
      RestIsZero(s);
      DoneStays(s, acts);
    } else {
      StepKeepsInv(s, acts[0]);
      if acts[0].PRun? { SendComesCloser(s, acts[0].choice); } else { OthersLetItSend(s, acts[0]); }
      SendComesBack(Step(s, acts[0]).value, acts[1..]);
    }
  }

  /** A producer inside a call can step, or flush a store that the step waits for,
      unless it is parked without a token. */
  lemma ProducerCanMove<T>(s: State<T>)
    requires Inv(s) && !s.p.pc.Idle? && !s.p.pc.Gone? && !(s.p.pc.Park? && !s.mem.tokenP)
    ensures PStep(s, false).Some? || (Step(s, PFlush).Some? && |Step(s, PFlush).value.p.buf| < |s.p.buf|)
  {
  }

  // ---- the consumer ---------------------------------------------------------------

  predicate ItemShows<T>(s: State<T>)
  {
    s.mem.head != s.c.tail
  }

  /** The same for the consumer: an item shows, or the ring is closed. */
  predicate RecvGoes<T>(s: State<T>)
  {
    || s.c.pc.Idle? || s.c.pc.Gone? || s.c.pc.Access? || s.c.pc.Publish? || s.c.pc.Waking? || s.c.pc.Close?
    || s.c.pc.Reread?
    || ((!s.c.blocking || s.c.draining) && (s.c.pc.Refresh? || s.c.pc.ReadClosed?))
    || ItemShows(s) || s.mem.closed
  }

  function RecvRank<T>(s: State<T>): int
  {
    match s.c.pc
    case Waking(g, at, closing) => WakeRank(g, at, closing)
    case Close => 9
    case Publish => 5
    case Access => if s.c.draining then s.c.target - s.c.next + 5 else 6
    case Refresh => if s.c.draining then s.cap + 6 else 9
    case Reread => 7
    case ReadClosed => if s.mem.closed || !s.c.blocking then 8 else 11
    case Spin1 => if ItemShows(s) then 10 else 11
    case Spin2 => if s.mem.closed then 10 else 15
    case Announce => 14
    case AnnFence => 13
    case Check1 => if ItemShows(s) then 11 else 12
    case Check2 => if s.mem.closed then 11 else 14
    case Park => 13
    case Leave => 10
    case _ => 0
  }

  lemma RecvComesCloser<T>(s: State<T>, choice: bool)
    requires Inv(s) && RecvGoes(s) && CStep(s, choice).Some?
    ensures RecvGoes(CStep(s, choice).value) && 0 <= RecvRank(CStep(s, choice).value) < RecvRank(s)
  {
    if Announced(s.c.pc) { ParkedRecvComesCloser(s, choice); }
    else if WaitsForRoom(s.c.pc) { WaitForItemComesCloser(s, choice); }
    else if s.c.pc.Access? || s.c.pc.Publish? || s.c.pc.Waking? || s.c.pc.Close? { TakeComesCloser(s, choice); }
    else { LookComesCloser(s, choice); }
  }

  lemma LookComesCloser<T>(s: State<T>, choice: bool)
    requires Inv(s) && RecvGoes(s) && CStep(s, choice).Some?
    requires s.c.pc.Refresh? || s.c.pc.ReadClosed? || s.c.pc.Reread?
    ensures RecvGoes(CStep(s, choice).value) && 0 <= RecvRank(CStep(s, choice).value) < RecvRank(s)
  {
  }

  lemma TakeComesCloser<T>(s: State<T>, choice: bool)
    requires Inv(s) && CStep(s, choice).Some? && (s.c.pc.Access? || s.c.pc.Publish? || s.c.pc.Waking? || s.c.pc.Close?)
    ensures RecvGoes(CStep(s, choice).value) && 0 <= RecvRank(CStep(s, choice).value) < RecvRank(s)
  {
  }

  lemma ParkedRecvComesCloser<T>(s: State<T>, choice: bool)
    requires Inv(s) && RecvGoes(s) && CStep(s, choice).Some? && Announced(s.c.pc)
    ensures RecvGoes(CStep(s, choice).value) && 0 <= RecvRank(CStep(s, choice).value) < RecvRank(s)
  {
  }

  lemma WaitForItemComesCloser<T>(s: State<T>, choice: bool)
    requires Inv(s) && RecvGoes(s) && CStep(s, choice).Some? && (s.c.pc.Spin1? || s.c.pc.Spin2? || s.c.pc.Announce?)
    ensures RecvGoes(CStep(s, choice).value) && 0 <= RecvRank(CStep(s, choice).value) < RecvRank(s)
  {
  }

  lemma OthersLetItReceive<T>(s: State<T>, a: Act<T>)
    requires Inv(s) && RecvGoes(s) && Step(s, a).Some? && !a.CBegin? && !a.CRun?
    ensures RecvGoes(Step(s, a).value) && RecvRank(Step(s, a).value) <= RecvRank(s)
  {
    OthersLeaveConsumer(s, a);
    TailOnlyGrows(s, a);
    HeadOnlyGrows(s, a);
    CapStays(s, a);
  }

  lemma CapStays<T>(s: State<T>, a: Act<T>)
    requires Step(s, a).Some?
    ensures Step(s, a).value.cap == s.cap
  {
    if a.PRun? { ProducerKeepsCap(s, a.choice); } else if a.CRun? { ConsumerLeavesProducer(s, a.choice); }
  }

  lemma ProducerKeepsCap<T>(s: State<T>, choice: bool)
    requires PStep(s, choice).Some?
    ensures PStep(s, choice).value.cap == s.cap
  {
  }

  lemma RecvRankBounds<T>(s: State<T>)
    requires Inv(s)
    ensures 0 <= RecvRank(s) <= s.cap + 15 && (RecvRank(s) == 0 ==> s.c.pc.Idle? || s.c.pc.Gone?)
  {
  }

  lemma {:induction false} ReceivedStays<T>(s: State<T>, acts: seq<Act<T>>)
    requires (s.c.pc.Idle? || s.c.pc.Gone?) && NoReceive(acts) && Run(Step, s, acts).Some?
    ensures Run(Step, s, acts).value.c.pc == s.c.pc
    decreases |acts|
  {
    if acts != [] {
      if !acts[0].CRun? { OthersLeaveConsumer(s, acts[0]); }
      ReceivedStays(Step(s, acts[0]).value, acts[1..]);
    }
  }

  /** A receive, a drain or the drop of the handle comes back: once an item shows or the
      ring is closed, within `RecvRank` of the consumer's own steps. */
  lemma {:induction false} RecvComesBack<T>(s: State<T>, acts: seq<Act<T>>)
    requires Inv(s) && RecvGoes(s) && NoReceive(acts) && Run(Step, s, acts).Some?
    requires Count(acts, ConsumerActs) >= RecvRank(s)
    ensures RecvRank(s) <= s.cap + 15
    ensures var pc := Run(Step, s, acts).value.c.pc; pc.Idle? || pc.Gone?
    decreases |acts|
  {
    RecvRankBounds(s);
    if RecvRank(s) == 0 {
      ReceivedStays(s, acts);
    } else {
      StepKeepsInv(s, acts[0]);
      if acts[0].CRun? { RecvComesCloser(s, acts[0].choice); } else { OthersLetItReceive(s, acts[0]); }
      RecvComesBack(Step(s, acts[0]).value, acts[1..]);
    }
  }

  lemma ConsumerCanMove<T>(s: State<T>)
    requires Inv(s) && !s.c.pc.Idle? && !s.c.pc.Gone? && !(s.c.pc.Park? && !s.mem.tokenC)
    ensures CStep(s, false).Some? || !Flushed(s.mem, s.c)
  {
  }

  /** What it waits for comes with the flush of its tail, and of the closed flag after that. */
  lemma ConsumerCanFlush<T>(s: State<T>)
    requires Inv(s) && !Flushed(s.mem, s.c)
    ensures s.mem.tail != s.c.tail ==>
      Step(s, CFlush(s.c.tail)).Some? && Step(s, CFlush(s.c.tail)).value.mem.tail == s.c.tail
    ensures s.mem.tail == s.c.tail ==>
      Step(s, CFlushClosed).Some? && Flushed(Step(s, CFlushClosed).value.mem, Step(s, CFlushClosed).value.c)
  {
  }
}
