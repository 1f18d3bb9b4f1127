/** The single-use reply slot: a five-state byte, one slot and a parked-flag gate
    shared by a sender and a receiver over a store-buffering memory (x86-TSO).
    Sending, either drop, any number of concurrent `try_recv` callers, a consuming
    `recv` (or its cancelled async form) and the last-owner teardown all race. */
module OneShot {

  import opened Runs

  datatype Byte = EMPTY | FULL | CLOSED | TAKEN | RX_DROPPED

  datatype Store<T> = StSlot(value: T) | StFull

  datatype Wake = T3a | Fence | T3b | Unpark

  datatype SendPc<T> =
    | SIdle
    | SLoad(value: T)     // relaxed look for RX_DROPPED
    | SWrite(value: T)    // slot write
    | SStore              // state := FULL
    | SCas                // unsent drop: EMPTY -> CLOSED
    | SWake(at: Wake)
    | SRelease            // drop of the reference
    | SDone

  datatype RecvPc =
    | RIdle
    | RTake1 | RRead1     // fast path: FULL -> TAKEN, then the slot read
    | RRegister
    | RSpin | RAnnounce | RFence | RCheck | RPark | RLeave
    | RTake2 | RRead2     // after the wait, under `expect`
    | RCas                // drop: EMPTY -> RX_DROPPED
    | RRelease | RDone
    | RPanic              // the `expect` failed

  /** `reading[k]`: caller `k` of `try_recv` won FULL -> TAKEN and is about to read. */
  datatype State<T> = State(byte: Byte, slot: Option<T>, refs: int, parked: bool, token: bool, registered: bool,
                            send: SendPc<T>, buf: seq<Store<T>>, recv: RecvPc, reading: seq<bool>,
                            sent: Option<T>, delivered: seq<T>, dropped: seq<T>)

  datatype Act<T> =
    | Send(value: T) | DropSender | RunSender | FlushSender
    | TryRecv(k: nat) | ReadSlot(k: nat)
    | Recv | DropReceiver | RunReceiver(choice: bool) | CancelRecv

  ghost predicate Init<T>(s: State<T>)
  {
    && s.byte == EMPTY && s.slot == None && s.refs == 2 && !s.parked && !s.token && !s.registered
    && s.send == SIdle && s.buf == [] && s.recv == RIdle
    && (forall k :: 0 <= k < |s.reading| ==> !s.reading[k])
    && s.sent == None && s.delivered == [] && s.dropped == []
  }

  // ---- steps ------------------------------------------------------------

  /** Give up one reference; the last one out destroys a value still in the slot. */
  function Release<T>(s: State<T>): State<T>
  {
    if s.refs == 1 && s.byte == FULL && s.slot.Some? then s.(refs := 0, dropped := s.dropped + [s.slot.value])
    else s.(refs := s.refs - 1)
  }

  function SendStep<T>(s: State<T>): Option<State<T>>
  {
    match s.send
    case SLoad(v) =>
      if s.byte == RX_DROPPED then Some(s.(send := SRelease, dropped := s.dropped + [v]))
      else Some(s.(send := SWrite(v)))
    case SWrite(v) => Some(s.(send := SStore, buf := s.buf + [StSlot(v)]))
    case SStore => Some(s.(send := SWake(T3a), buf := s.buf + [StFull]))
    case SCas =>
      if s.byte == EMPTY then Some(s.(byte := CLOSED, send := SWake(T3a))) else Some(s.(send := SRelease))
    case SWake(at) =>
      if (at.Fence? || at.Unpark?) && |s.buf| > 0 then None
      else
        (match at
         case T3a => Some(s.(send := SWake(if s.parked then Unpark else Fence)))
         case Fence => Some(s.(send := SWake(T3b)))
         case T3b => Some(s.(send := if s.parked then SWake(Unpark) else SRelease))
         case Unpark => Some(s.(send := SRelease, token := s.token || s.registered)))
    case SRelease => if |s.buf| > 0 then None else Some(Release(s).(send := SDone))
    case _ => None
  }

  /** `try_take_inner`: FULL -> TAKEN, or what the byte says otherwise. */
  function RecvStep<T>(s: State<T>, choice: bool): Option<State<T>>
  {
    match s.recv
    case RTake1 =>
      if s.byte == FULL then Some(s.(byte := TAKEN, recv := RRead1))
      else Some(s.(recv := if s.byte == CLOSED || s.byte == TAKEN then RRelease else RRegister))
    case RRead1 => if s.slot.None? then None else Some(s.(delivered := s.delivered + [s.slot.value], recv := RRelease))
    case RRegister => Some(s.(registered := true, recv := RSpin))
    case RSpin => Some(s.(recv := if s.byte != EMPTY then RTake2 else if choice then RSpin else RAnnounce))
    case RAnnounce => Some(s.(parked := true, recv := RFence))
    case RFence => Some(s.(recv := RCheck))
    case RCheck => Some(s.(recv := if s.byte != EMPTY then RLeave else RPark))
    case RPark =>
      if s.token then Some(s.(token := false, recv := RCheck)) else if choice then Some(s.(recv := RCheck)) else None
    case RLeave => Some(s.(parked := false, recv := RTake2))
    case RTake2 =>
      if s.byte == FULL then Some(s.(byte := TAKEN, recv := RRead2))
      else Some(s.(recv := if s.byte == CLOSED || s.byte == TAKEN then RRelease else RPanic))
    case RRead2 => if s.slot.None? then None else Some(s.(delivered := s.delivered + [s.slot.value], recv := RRelease))
    case RCas => Some(if s.byte == EMPTY then s.(byte := RX_DROPPED, recv := RRelease) else s.(recv := RRelease))
    case RRelease => Some(Release(s).(recv := RDone))
    case _ => None
  }

  predicate NobodyReading(r: seq<bool>)
  {
    forall k :: 0 <= k < |r| ==> !r[k]
  }

  function Apply<T>(s: State<T>, st: Store<T>): State<T>
  {
    match st case StSlot(v) => s.(slot := Some(v)) case StFull => s.(byte := FULL)
  }

  function Step<T>(s: State<T>, a: Act<T>): Option<State<T>>
  {
    match a
    case Send(v) => if s.send.SIdle? then Some(s.(send := SLoad(v), sent := Some(v))) else None
    case DropSender => if s.send.SIdle? then Some(s.(send := SCas)) else None
    case RunSender => SendStep(s)
    case FlushSender => if |s.buf| > 0 then Some(Apply(s, s.buf[0]).(buf := s.buf[1..])) else None
    case TryRecv(k) =>
      // callers share `&Receiver`, so only while nobody owns or drops it
      if k < |s.reading| && !s.reading[k] && s.recv.RIdle? then
        if s.byte == FULL then Some(s.(byte := TAKEN, reading := s.reading[k := true])) else Some(s)
      else None
    case ReadSlot(k) =>
      if k < |s.reading| && s.reading[k] && s.slot.Some? then
        Some(s.(delivered := s.delivered + [s.slot.value], reading := s.reading[k := false]))
      else None
    case Recv => if s.recv.RIdle? && NobodyReading(s.reading) then Some(s.(recv := RTake1)) else None
    case DropReceiver => if s.recv.RIdle? && NobodyReading(s.reading) then Some(s.(recv := RCas)) else None
    case RunReceiver(choice) => RecvStep(s, choice)
    case CancelRecv =>
      // the async form dropped at its await: the reference goes, no mark is left
      if s.recv.RPark? then Some(s.(recv := RRelease, parked := false)) else None
  }

  // ---- invariant --------------------------------------------------------

  predicate Reading(pc: RecvPc)
  {
    pc.RRead1? || pc.RRead2?
  }

  predicate Announced(pc: RecvPc)
  {
    pc.RFence? || pc.RCheck? || pc.RPark? || pc.RLeave?
  }

  predicate PastReceive(pc: RecvPc)
  {
    pc.RRelease? || pc.RDone?
  }

  ghost predicate Only<T>(xs: seq<T>, v: T)
  {
    |xs| == 1 && xs[0] == v
  }

  /** Where the sender is, what its buffer holds and what the byte may be. */
  ghost predicate SenderSide<T>(s: State<T>)
  {
    match s.send
    case SIdle => s.sent.None? && |s.buf| == 0 && (s.byte.EMPTY? || s.byte.RX_DROPPED?) && |s.dropped| == 0
    case SCas => s.sent.None? && |s.buf| == 0 && (s.byte.EMPTY? || s.byte.RX_DROPPED?) && |s.dropped| == 0
    case SLoad(v) => s.sent == Some(v) && |s.buf| == 0 && (s.byte.EMPTY? || s.byte.RX_DROPPED?) && |s.dropped| == 0
    case SWrite(v) => s.sent == Some(v) && |s.buf| == 0 && (s.byte.EMPTY? || s.byte.RX_DROPPED?) && |s.dropped| == 0
    case SStore =>
      && s.sent.Some? && (s.byte.EMPTY? || s.byte.RX_DROPPED?) && |s.dropped| == 0
      && (if |s.buf| == 0 then s.slot == s.sent else |s.buf| == 1 && s.buf[0] == StSlot(s.sent.value))
    case SWake(at) =>
      if s.sent.None? then s.byte.CLOSED? && |s.buf| == 0 && |s.dropped| == 0
      else
        && |s.dropped| == 0
        && (if |s.buf| == 0 then s.slot == s.sent && (s.byte.FULL? || s.byte.TAKEN?)
            else
              && !at.T3b? && (s.byte.EMPTY? || s.byte.RX_DROPPED?)
              && s.buf[|s.buf| - 1] == StFull && |s.buf| <= 2
              && (if |s.buf| == 2 then s.buf[0] == StSlot(s.sent.value) else s.slot == s.sent))
    case SRelease => |s.buf| == 0 && Settled(s)
    case SDone => |s.buf| == 0 && Settled(s)
  }

  /** After the send or the drop: skipped, closed, or in the slot with FULL or TAKEN. */
  ghost predicate Settled<T>(s: State<T>)
  {
    if s.sent.None? then (s.byte.CLOSED? || s.byte.RX_DROPPED?) && |s.dropped| == 0
    else if s.byte.RX_DROPPED? then Only(s.dropped, s.sent.value)
    else
      && (s.byte.FULL? || s.byte.TAKEN?) && s.slot == s.sent
      && if s.refs == 0 && s.byte.FULL? then Only(s.dropped, s.sent.value) else |s.dropped| == 0
  }

  /** Exactly one party took the value: it is about to read the slot, or has. */
  ghost predicate TakenOnce<T>(s: State<T>)
  {
    && (!s.byte.TAKEN? ==> |s.delivered| == 0 && NobodyReading(s.reading) && !Reading(s.recv))
    && (s.byte.TAKEN? ==> s.sent.Some? && (|s.delivered| == 0 || Only(s.delivered, s.sent.value)))
    && (|s.delivered| > 0 ==> NobodyReading(s.reading) && !Reading(s.recv))
    && (s.byte.TAKEN? && |s.delivered| == 0 ==> Reading(s.recv) || exists k :: 0 <= k < |s.reading| && s.reading[k])
    && (forall j, k :: 0 <= j < |s.reading| && 0 <= k < |s.reading| && s.reading[j] && s.reading[k] ==> j == k)
    && (!s.recv.RIdle? ==> NobodyReading(s.reading))
  }

  ghost predicate ReceiverSide<T>(s: State<T>)
  {
    && (s.byte.RX_DROPPED? ==> PastReceive(s.recv))
    && (s.recv.RTake2? || s.recv.RLeave? ==> !s.byte.EMPTY?)
    && !s.recv.RPanic?
    && (s.parked <==> Announced(s.recv))
    && (Announced(s.recv) || s.recv.RSpin? || s.recv.RAnnounce? ==> s.registered)
    && s.refs == (if s.send.SDone? then 0 else 1) + (if s.recv.RDone? then 0 else 1)
    && (s.recv.RPark? && !s.token && !s.byte.EMPTY? ==> s.send.SWake?)
  }

  ghost predicate Inv<T>(s: State<T>)
  {
    SenderSide(s) && TakenOnce(s) && ReceiverSide(s)
  }

  lemma SenderKeepsInv<T>(s: State<T>, a: Act<T>)
    requires Inv(s) && (a.Send? || a.DropSender? || a.FlushSender?) && Step(s, a).Some?
    ensures Inv(Step(s, a).value)
  {
  }

  lemma LoadKeepsInv<T>(s: State<T>)
    requires Inv(s) && (s.send.SLoad? || s.send.SWrite? || s.send.SStore?) && SendStep(s).Some?
    ensures Inv(SendStep(s).value)
  {
  }

  lemma SenderCasKeepsInv<T>(s: State<T>)
    requires Inv(s) && s.send.SCas? && SendStep(s).Some?
    ensures Inv(SendStep(s).value)
  {
  }

  lemma SenderProbeKeepsInv<T>(s: State<T>)
    requires Inv(s) && s.send.SWake? && (s.send.at.T3a? || s.send.at.Fence?) && SendStep(s).Some?
    ensures Inv(SendStep(s).value)
  {
  }

  lemma SenderReprobeKeepsInv<T>(s: State<T>)
    requires Inv(s) && s.send.SWake? && s.send.at.T3b? && SendStep(s).Some?
    ensures Inv(SendStep(s).value)
  {
  }

  lemma SenderDeliverKeepsInv<T>(s: State<T>)
    requires Inv(s) && s.send.SWake? && s.send.at.Unpark? && SendStep(s).Some?
    ensures Inv(SendStep(s).value)
  {
  }

  lemma SenderReleaseKeepsInv<T>(s: State<T>)
    requires Inv(s) && s.send.SRelease? && SendStep(s).Some?
    ensures Inv(SendStep(s).value)
  {
  }

  lemma CallersKeepInv<T>(s: State<T>, a: Act<T>)
    requires Inv(s) && (a.TryRecv? || a.ReadSlot?) && Step(s, a).Some?
    ensures Inv(Step(s, a).value)
  {
    var n := Step(s, a).value;
    if a.TryRecv? && n.reading[a.k] { assert n.byte.TAKEN?; }
  }

  lemma TakeKeepsInv<T>(s: State<T>, choice: bool)
    requires Inv(s) && (s.recv.RTake1? || s.recv.RTake2?) && RecvStep(s, choice).Some?
    ensures Inv(RecvStep(s, choice).value)
  {
  }

  lemma ReadKeepsInv<T>(s: State<T>, choice: bool)
    requires Inv(s) && Reading(s.recv) && RecvStep(s, choice).Some?
    ensures Inv(RecvStep(s, choice).value)
  {
  }

  lemma ReceiverCasHitKeepsInv<T>(s: State<T>, choice: bool)
    requires Inv(s) && s.recv.RCas? && s.byte.EMPTY? && RecvStep(s, choice).Some?
    ensures Inv(RecvStep(s, choice).value)
  {
  }

  lemma ReceiverCasKeepsInv<T>(s: State<T>, choice: bool)
    requires Inv(s) && s.recv.RCas? && RecvStep(s, choice).Some?
    ensures Inv(RecvStep(s, choice).value)
  {
    if s.byte.EMPTY? { ReceiverCasHitKeepsInv(s, choice); }
  }

  lemma ReceiverFirstOutKeepsInv<T>(s: State<T>, choice: bool)
    requires Inv(s) && s.recv.RRelease? && !s.send.SDone? && RecvStep(s, choice).Some?
    ensures Inv(RecvStep(s, choice).value)
  {
  }

  lemma ReceiverLastOutKeepsInv<T>(s: State<T>, choice: bool)
    requires Inv(s) && s.recv.RRelease? && s.send.SDone? && RecvStep(s, choice).Some?
    ensures Inv(RecvStep(s, choice).value)
  {
  }

  lemma SpinKeepsInv<T>(s: State<T>, choice: bool)
    requires Inv(s) && (s.recv.RRegister? || s.recv.RSpin? || s.recv.RAnnounce?) && RecvStep(s, choice).Some?
    ensures Inv(RecvStep(s, choice).value)
  {
  }

  lemma ParkKeepsInv<T>(s: State<T>, choice: bool)
    requires Inv(s) && Announced(s.recv) && RecvStep(s, choice).Some?
    ensures Inv(RecvStep(s, choice).value)
  {
  }

  lemma OwnershipKeepsInv<T>(s: State<T>, a: Act<T>)
    requires Inv(s) && (a.Recv? || a.DropReceiver? || a.CancelRecv?) && Step(s, a).Some?
    ensures Inv(Step(s, a).value)
  {
  }

  lemma StepKeepsInv<T>(s: State<T>, a: Act<T>)
    requires Inv(s) && Step(s, a).Some?
    ensures Inv(Step(s, a).value)
  {
    match a
    case RunSender =>
      if s.send.SCas? { SenderCasKeepsInv(s); }
      else if s.send.SWake? {
        if s.send.at.T3b? { SenderReprobeKeepsInv(s); }
        else if s.send.at.Unpark? { SenderDeliverKeepsInv(s); }
        else { SenderProbeKeepsInv(s); }
      }
      else if s.send.SRelease? { SenderReleaseKeepsInv(s); }
      else { LoadKeepsInv(s); }
    case TryRecv(_) => CallersKeepInv(s, a);
    case ReadSlot(_) => CallersKeepInv(s, a);
    case RunReceiver(choice) =>
      if s.recv.RTake1? || s.recv.RTake2? { TakeKeepsInv(s, choice); }
      else if Reading(s.recv) { ReadKeepsInv(s, choice); }
      else if s.recv.RCas? { ReceiverCasKeepsInv(s, choice); }
      else if s.recv.RRelease? {
        if s.send.SDone? { ReceiverLastOutKeepsInv(s, choice); } else { ReceiverFirstOutKeepsInv(s, choice); }
      }
      else if Announced(s.recv) { ParkKeepsInv(s, choice); }
      else { SpinKeepsInv(s, choice); }
    case Recv => OwnershipKeepsInv(s, a);
    case DropReceiver => OwnershipKeepsInv(s, a);
    case CancelRecv => OwnershipKeepsInv(s, a);
    case _ => SenderKeepsInv(s, a);
  }

  lemma {:induction false} RunKeepsInv<T>(s: State<T>, acts: seq<Act<T>>)
    requires Inv(s) && Run(Step, s, acts).Some?
    ensures Inv(Run(Step, s, acts).value)
    decreases |acts|
  {
    if acts != [] {
      StepKeepsInv(s, acts[0]);
      RunKeepsInv(Step(s, acts[0]).value, acts[1..]);
    }
  }

  // ---- main results -----------------------------------------------------------

  /** A sent value never has two owners: over every race it is delivered at most
      once, dropped at most once, and not both; and nothing else ever is. */
  lemma NeverTwice<T>(s: State<T>, acts: seq<Act<T>>)
    requires Init(s) && Run(Step, s, acts).Some?
    ensures var n := Run(Step, s, acts).value;
      && |n.delivered| + |n.dropped| <= 1
      && (n.sent.None? ==> |n.delivered| + |n.dropped| == 0)
      && (forall i :: 0 <= i < |n.delivered| ==> n.sent == Some(n.delivered[i]))
      && (forall i :: 0 <= i < |n.dropped| ==> n.sent == Some(n.dropped[i]))
  {
    RunKeepsInv(s, acts);
  }

  /** Once both references are gone a sent value was delivered or dropped, exactly once. */
  lemma ExactlyOnceAtTheEnd<T>(s: State<T>, acts: seq<Act<T>>)
    requires Init(s) && Run(Step, s, acts).Some?
    requires Run(Step, s, acts).value.send.SDone? && Run(Step, s, acts).value.recv.RDone?
    ensures var n := Run(Step, s, acts).value;
      n.refs == 0 && n.delivered + n.dropped == if n.sent.Some? then [n.sent.value] else []
  {
    RunKeepsInv(s, acts);
    var n := Run(Step, s, acts).value;
    assert n.delivered + n.dropped == if n.sent.Some? then [n.sent.value] else [];
  }

  /** Whoever won FULL -> TAKEN reads an initialised slot, and reads the sent value. */
  lemma ReadersFindTheValue<T>(s: State<T>, acts: seq<Act<T>>)
    requires Init(s) && Run(Step, s, acts).Some?
    ensures var n := Run(Step, s, acts).value;
      Reading(n.recv) || (exists k :: 0 <= k < |n.reading| && n.reading[k]) ==> n.sent.Some? && n.slot == n.sent
  {
    RunKeepsInv(s, acts);
  }

  /** The `expect` after the wait never fails, and a receive that sleeps without a
      token does so only while the sender has neither sent nor dropped, or is still
      inside its wake; so never once the sender is done. */
  lemma ReceiveIsSafe<T>(s: State<T>, acts: seq<Act<T>>)
    requires Init(s) && Run(Step, s, acts).Some?
    ensures var n := Run(Step, s, acts).value;
      && !n.recv.RPanic?
      && (n.recv.RPark? && !n.token ==> !n.send.SRelease? && !n.send.SDone?)
      && (n.recv.RPark? && !n.token && n.byte != EMPTY ==> n.send.SWake?)
  {
    RunKeepsInv(s, acts);
  }

  // ---- what the calls return --------------------------------------------------------

  predicate NoCancel<T>(acts: seq<Act<T>>)
  {
    forall i :: 0 <= i < |acts| ==> !acts[i].CancelRecv?
  }

  /** A `recv` is under way; once it is past its read, somebody has the value or there
      will be none. */
  ghost predicate Receiving<T>(s: State<T>)
  {
    && !s.recv.RIdle? && !s.recv.RCas?
    && (PastReceive(s.recv) ==> |s.delivered| > 0 || (s.byte.CLOSED? && s.sent.None?))
  }

  lemma RecvStepKeepsReceiving<T>(s: State<T>, choice: bool)
    requires Inv(s) && Receiving(s) && RecvStep(s, choice).Some?
    ensures Receiving(RecvStep(s, choice).value)
  {
  }

  lemma SendStepKeepsReceiving<T>(s: State<T>)
    requires Inv(s) && Receiving(s) && SendStep(s).Some?
    ensures Receiving(SendStep(s).value)
  {
  }

  lemma StepKeepsReceiving<T>(s: State<T>, a: Act<T>)
    requires Inv(s) && Receiving(s) && Step(s, a).Some? && !a.CancelRecv?
    ensures Receiving(Step(s, a).value)
  {
    if a.RunReceiver? { RecvStepKeepsReceiving(s, a.choice); }
    else if a.RunSender? { SendStepKeepsReceiving(s); }
  }

  lemma {:induction false} RunKeepsReceiving<T>(s: State<T>, acts: seq<Act<T>>)
    requires Inv(s) && Receiving(s) && Run(Step, s, acts).Some? && NoCancel(acts)
    ensures Inv(Run(Step, s, acts).value) && Receiving(Run(Step, s, acts).value)
    decreases |acts|
  {
    if acts != [] {
      StepKeepsInv(s, acts[0]);
      StepKeepsReceiving(s, acts[0]);
      RunKeepsReceiving(Step(s, acts[0]).value, acts[1..]);
    }
  }

  /** A `recv` that has returned has left the sent value with a receiver, itself or a
      `try_recv` before it; without one the sender was dropped unsent. */
  lemma RecvReturns<T>(s: State<T>, acts: seq<Act<T>>)
    requires Inv(s) && s.recv.RIdle? && NobodyReading(s.reading) && NoCancel(acts)
    requires Run(Step, Step(s, Act.Recv).value, acts).Some?
    requires Run(Step, Step(s, Act.Recv).value, acts).value.recv.RDone?
    ensures var n := Run(Step, Step(s, Act.Recv).value, acts).value;
      if n.sent.Some? then n.delivered == [n.sent.value] && n.dropped == []
      else n.delivered == [] && n.byte == CLOSED
  {
    var b := Step(s, Act.Recv).value;
    StepKeepsInv(s, Act.Recv);
    RunKeepsReceiving(b, acts);
    var n := Run(Step, b, acts).value;
    if n.sent.Some? { assert Only(n.delivered, n.sent.value); }
  }

  /** A `try_recv` takes the value exactly if the byte says FULL, and then reads what was
      sent. Once a send has returned, one that gets nothing came after another taker. */
  lemma TryRecvReturns<T>(s: State<T>, k: nat)
    requires Inv(s) && s.recv.RIdle? && k < |s.reading| && !s.reading[k]
    ensures var n := Step(s, Act.TryRecv(k)).value;
      if s.byte.FULL? then
        && Step(n, ReadSlot(k)).Some? && s.sent.Some?
        && Step(n, ReadSlot(k)).value.delivered == [s.sent.value]
      else
        && n == s
        && ((s.send.SRelease? || s.send.SDone?) && s.sent.Some? ==> |s.delivered| > 0 || !NobodyReading(s.reading))
  {
    if s.byte.FULL? {
      var n := Step(s, Act.TryRecv(k)).value;
      assert Only(Step(n, ReadSlot(k)).value.delivered, s.sent.value);
    } else if s.byte.TAKEN? && |s.delivered| == 0 {
      var j :| 0 <= j < |s.reading| && s.reading[j];
    }
  }

  /** A sent value is destroyed only once the receiver is gone. */
  lemma DroppedOnlyWithoutReceiver<T>(s: State<T>, acts: seq<Act<T>>)
    requires Init(s) && Run(Step, s, acts).Some?
    ensures var n := Run(Step, s, acts).value; n.dropped != [] ==> PastReceive(n.recv)
  {
    RunKeepsInv(s, acts);
  }

  /** The sender's look finds the receiver gone. */
  ghost predicate FindsGone<T>(s: State<T>, a: Act<T>)
  {
    a.RunSender? && s.send.SLoad? && s.byte.RX_DROPPED?
  }

  /** How far a send that began with `slot` has come; `gone` says what it found. */
  ghost predicate Sending<T>(value: T, slot: Option<T>, gone: bool, s: State<T>)
  {
    && s.sent == Some(value) && (gone ==> s.slot == slot)
    && match s.send
       case SLoad(_) => !gone && s.slot == slot
       case SRelease => gone <==> s.byte.RX_DROPPED?
       case SDone => gone <==> s.byte.RX_DROPPED?
       case _ => !gone
  }

  lemma SendStepKeepsSending<T>(value: T, slot: Option<T>, gone: bool, s: State<T>)
    requires Inv(s) && Sending(value, slot, gone, s) && SendStep(s).Some?
    ensures Sending(value, slot, gone || FindsGone(s, RunSender), SendStep(s).value)
  {
  }

  lemma StepKeepsSending<T>(value: T, slot: Option<T>, gone: bool, s: State<T>, a: Act<T>)
    requires Inv(s) && Sending(value, slot, gone, s) && Step(s, a).Some?
    ensures Sending(value, slot, gone || FindsGone(s, a), Step(s, a).value)
  {
    if a.RunSender? { SendStepKeepsSending(value, slot, gone, s); }
    else if a.RunReceiver? { RecvStepKeepsSending(value, slot, gone, s, a.choice); }
  }

  /** The receiver leaves the value where it is, and marks the byte only if it says EMPTY. */
  lemma ReceiverLeavesSlot<T>(s: State<T>, choice: bool)
    requires RecvStep(s, choice).Some?
    ensures var n := RecvStep(s, choice).value;
      && n.sent == s.sent && n.send == s.send && n.slot == s.slot
      && (!s.byte.EMPTY? ==> n.byte.RX_DROPPED? == s.byte.RX_DROPPED?)
  {
  }

  lemma RecvStepKeepsSending<T>(value: T, slot: Option<T>, gone: bool, s: State<T>, choice: bool)
    requires Inv(s) && Sending(value, slot, gone, s) && RecvStep(s, choice).Some?
    ensures Sending(value, slot, gone, RecvStep(s, choice).value)
  {
    ReceiverLeavesSlot(s, choice);
    SendingFrame(value, slot, gone, s, RecvStep(s, choice).value);
  }

  lemma SendingFrame<T>(value: T, slot: Option<T>, gone: bool, s: State<T>, n: State<T>)
    requires SenderSide(s) && Sending(value, slot, gone, s) && n.sent == s.sent && n.send == s.send && n.slot == s.slot
    requires !s.byte.EMPTY? ==> n.byte.RX_DROPPED? == s.byte.RX_DROPPED?
    ensures Sending(value, slot, gone, n)
  {
  }

  lemma {:induction false} RunKeepsSending<T>(value: T, slot: Option<T>, gone: bool, s: State<T>, acts: seq<Act<T>>)
    requires Inv(s) && Sending(value, slot, gone, s) && Run(Step, s, acts).Some?
    ensures Inv(Run(Step, s, acts).value)
    ensures Sending(value, slot, gone || Happens(Step, s, acts, FindsGone), Run(Step, s, acts).value)
    decreases |acts|
  {
    if acts != [] {
      StepKeepsInv(s, acts[0]);
      StepKeepsSending(value, slot, gone, s, acts[0]);
      RunKeepsSending(value, slot, gone || FindsGone(s, acts[0]), Step(s, acts[0]).value, acts[1..]);
    }
  }

  /** A send that has returned has put its value into the slot and published it; unless its
      look found the receiver gone: then it left the slot alone and destroyed the value. */
  lemma SendReturns<T>(s: State<T>, value: T, acts: seq<Act<T>>)
    requires Inv(s) && s.send.SIdle?
    requires Run(Step, Step(s, Act.Send(value)).value, acts).Some?
    requires Run(Step, Step(s, Act.Send(value)).value, acts).value.send.SDone?
    ensures var b := Step(s, Act.Send(value)).value; var n := Run(Step, b, acts).value;
      if Happens(Step, b, acts, FindsGone) then n.slot == s.slot && n.dropped == [value] && n.delivered == []
      else n.slot == Some(value) && (n.byte.FULL? || n.byte.TAKEN?)
  {
    var b := Step(s, Act.Send(value)).value;
    StepKeepsInv(s, Act.Send(value));
    RunKeepsSending(value, s.slot, false, b, acts);
    var n := Run(Step, b, acts).value;
    if n.byte.RX_DROPPED? { assert Only(n.dropped, value); }
  }

  predicate ReceiverActs<T>(a: Act<T>)
  {
    a.RunReceiver? || a.CancelRecv?
  }

  predicate SenderActs<T>(a: Act<T>)
  {
    a.RunSender?
  }

  /** The receiver's call needs nothing more, or the byte has left EMPTY. */
  predicate RecvGoes<T>(s: State<T>)
  {
    PastReceive(s.recv) || Reading(s.recv) || s.recv.RCas? || (!s.recv.RIdle? && s.byte != EMPTY)
  }

  /** A bound on the receiver's steps to the end of its call. */
  function RecvRank(pc: RecvPc): nat
  {
    match pc
    case RTake1 => 6
    case RRegister => 5
    case RSpin => 4
    case RAnnounce => 7
    case RFence => 6
    case RCheck => 5
    case RPark => 6
    case RLeave => 4
    case RTake2 => 3
    case RRead1 => 2
    case RRead2 => 2
    case RCas => 2
    case RRelease => 1
    case _ => 0
  }

  lemma RecvComesCloser<T>(s: State<T>, choice: bool)
    requires Inv(s) && RecvGoes(s) && RecvStep(s, choice).Some?
    ensures RecvGoes(RecvStep(s, choice).value) && RecvRank(RecvStep(s, choice).value.recv) < RecvRank(s.recv)
  {
  }

  lemma SenderLeavesReceiver<T>(s: State<T>)
    requires SendStep(s).Some?
    ensures var n := SendStep(s).value; n.recv == s.recv && (n.byte == EMPTY ==> s.byte == EMPTY)
  {
  }

  lemma OthersLetItReceive<T>(s: State<T>, a: Act<T>)
    requires Inv(s) && RecvGoes(s) && Step(s, a).Some? && !ReceiverActs(a)
    ensures RecvGoes(Step(s, a).value) && Step(s, a).value.recv == s.recv
  {
    if a.RunSender? { SenderLeavesReceiver(s); }
  }

  lemma {:induction false} RDoneStays<T>(s: State<T>, acts: seq<Act<T>>)
    requires s.recv.RDone? && Run(Step, s, acts).Some?
    ensures Run(Step, s, acts).value.recv.RDone?
    decreases |acts|
  {
    if acts != [] {
      if acts[0].RunSender? { SenderLeavesReceiver(s); }
      RDoneStays(Step(s, acts[0]).value, acts[1..]);
    }
  }

  /** A `recv`, or the drop of the receiver, comes back: once the sender has sent or gone,
      within seven of the receiver's own steps. */
  lemma {:induction false} RecvComesBack<T>(s: State<T>, acts: seq<Act<T>>)
    requires Inv(s) && RecvGoes(s) && Run(Step, s, acts).Some? && Count(acts, ReceiverActs) >= RecvRank(s.recv)
    ensures RecvRank(s.recv) <= 7 && Run(Step, s, acts).value.recv.RDone?
    decreases |acts|
  {
    if s.recv.RDone? {
      RDoneStays(s, acts);
    } else {
      StepKeepsInv(s, acts[0]);
      if acts[0].RunReceiver? { RecvComesCloser(s, acts[0].choice); }
      else if !acts[0].CancelRecv? { OthersLetItReceive(s, acts[0]); }
      RecvComesBack(Step(s, acts[0]).value, acts[1..]);
    }
  }

  /** The receiver can step as long as it is not parked without a token. */
  lemma ReceiverCanMove<T>(s: State<T>)
    requires Inv(s) && !s.recv.RIdle? && !s.recv.RDone? && !(s.recv.RPark? && !s.token)
    ensures RecvStep(s, false).Some?
  {
  }

  function SendRank<T>(pc: SendPc<T>): nat
  {
    match pc
    case SLoad(_) => 8
    case SWrite(_) => 7
    case SStore => 6
    case SCas => 6
    case SWake(at) => (match at case T3a => 5 case Fence => 4 case T3b => 3 case Unpark => 2)
    case SRelease => 1
    case _ => 0
  }

  lemma SendComesCloser<T>(s: State<T>)
    requires SendStep(s).Some?
    ensures !SendStep(s).value.send.SIdle? && SendRank(SendStep(s).value.send) < SendRank(s.send)
  {
  }

  lemma ReceiverLeavesSender<T>(s: State<T>, choice: bool)
    requires RecvStep(s, choice).Some?
    ensures RecvStep(s, choice).value.send == s.send
  {
  }

  /** A `send`, or the drop of the sender, comes back, whatever the receiver does, within
      eight of the sender's own steps ... */
  lemma {:induction false} SendComesBack<T>(s: State<T>, acts: seq<Act<T>>)
    requires !s.send.SIdle? && Run(Step, s, acts).Some? && Count(acts, SenderActs) >= SendRank(s.send)
    ensures SendRank(s.send) <= 8 && Run(Step, s, acts).value.send.SDone?
    decreases |acts|
  {
    if acts != [] {
      var a := acts[0];
      if a.RunSender? { SendComesCloser(s); } else if a.RunReceiver? { ReceiverLeavesSender(s, a.choice); }
      SendComesBack(Step(s, a).value, acts[1..]);
    }
  }

  /** ... and can always step or flush. */
  lemma SenderCanMove<T>(s: State<T>)
    requires !s.send.SIdle? && !s.send.SDone?
    ensures SendStep(s).Some? || |s.buf| > 0
  {
  }

  // ---- the stale look ---------------------------------------------------------

  /** The sender looks and sees EMPTY; the receiver then drops and marks the byte. */
  lemma LookThenDrop(s: State<int>) returns (acts: seq<Act<int>>, n: State<int>)
    requires Init(s)
    ensures Run(Step, s, acts) == Some(n)
    ensures n == s.(byte := RX_DROPPED, refs := 1, send := SWrite(7), recv := RDone, sent := Some(7))
  {
    acts, n := [], s;
    acts, n := Go(Step, s, acts, n, Send(7));
    acts, n := Go(Step, s, acts, n, RunSender);
    acts, n := Go(Step, s, acts, n, DropReceiver);
    acts, n := Go(Step, s, acts, n, RunReceiver(false));
    acts, n := Go(Step, s, acts, n, RunReceiver(false));
  }

  /** The send then overwrites the mark with FULL. */
  lemma SendOverMark(s: State<int>) returns (acts: seq<Act<int>>, n: State<int>)
    requires s.send == SWrite(7) && s.buf == []
    ensures Run(Step, s, acts) == Some(n)
    ensures n == s.(byte := FULL, slot := Some(7), send := SWake(T3a))
  {
    acts, n := [], s;
    acts, n := Go(Step, s, acts, n, RunSender);
    acts, n := Go(Step, s, acts, n, RunSender);
    assert n.send == SWake(T3a) && |n.buf| == 2 && n.buf[0] == StSlot(7) && n.buf[1] == StFull;
    acts, n := Go(Step, s, acts, n, FlushSender);
    acts, n := Go(Step, s, acts, n, FlushSender);
  }

  /** A stale look is harmless: the teardown still destroys the value, once. */
  lemma StaleLookIsReclaimed(s: State<int>) returns (acts: seq<Act<int>>, n: State<int>)
    requires Init(s)
    ensures Run(Step, s, acts) == Some(n)
    ensures n.byte == FULL && n.send.SDone? && n.recv.RDone? && n.sent == Some(7)
    ensures |n.delivered| == 0 && Only(n.dropped, 7)
  {
    var xs, a := LookThenDrop(s);
    var ys, b := SendOverMark(a);
    Compose(Step, s, xs, ys);
    acts, n := xs + ys, b;
    acts, n := Go(Step, s, acts, n, RunSender);
    acts, n := Go(Step, s, acts, n, RunSender);
    acts, n := Go(Step, s, acts, n, RunSender);
    acts, n := Go(Step, s, acts, n, RunSender);
  }
}
