/** The blocking ring as two threads over a store-buffering memory (x86-TSO):
    every atomic load or store of `send`, `try_send_bulk`, `recv`, `drain` and
    the handle drops is one step of a program counter, together with both
    parked-flag gates and their park tokens.

    Plain and Release stores enter the thread's own FIFO buffer and reach memory
    at arbitrary later flush steps. Read-modify-writes, `fence(SeqCst)` and
    `unpark` need the thread's own buffer to be empty. A thread never loads a
    location it has stored except its own cursor, which it keeps in a local: that
    is what forwarding from its own buffer returns.

    The consumer stores only its tail, of which nothing but the last value counts,
    and at the end the closed flag. Its buffer is therefore kept as the distance
    between the tail stored and the tail in memory, which may also be flushed in
    part: more runs than a store buffer allows.

    Cursors are unbounded here; `CursorTests` relates every comparison made on
    them to the one on wrapped words. */
module RingTso {
  import opened Bits
  import opened Runs

  /** `not_full` is waited on by the producer, `not_empty` by the consumer. */
  datatype Gate = NotFull | NotEmpty

  datatype Store<T> = StSlot(ix: nat, value: T) | StHead(head: nat) | StClosed

  /** Position inside `wake()`: the fast probe, the fence, the probe after it,
      and the delivery. */
  datatype Wake = T3a | Fence | T3b | Unpark

  datatype Pc =
    | Idle
    | Refresh                  // load the peer's cursor
    | ReadClosed               // load `closed` on the would-block path
    | Reread                   // consumer only: load `head` again after `closed`
    | Access                   // write, or read, the next slot
    | Publish                  // consumer only: store the cursor
    | Waking(gate: Gate, at: Wake, closing: bool)
    | Spin1 | Spin2            // predicate before announcing: cursor, then `closed`
    | Announce | AnnFence      // swap(PARKED), fence
    | Check1 | Check2          // predicate after announcing
    | Park                     // inside `thread::park`
    | Leave                    // swap(UNPARKED)
    | Close                    // store `closed` from a handle drop
    | Gone

  datatype Mem<T> = Mem(slots: seq<T>, head: nat, tail: nat, closed: bool,
                        parkedP: bool, parkedC: bool, tokenP: bool, tokenC: bool)

  /** `head` is the published cursor, `next` the next slot to write, `todo` what
      this call has yet to write, in publish order. */
  datatype Prod<T> = Prod(pc: Pc, buf: seq<Store<T>>, head: nat, next: nat, cachedTail: nat,
                          todo: seq<T>, blocking: bool, bulk: bool, refused: bool)

  /** `tail` is the published cursor, `next` the next slot to read, `target` the
      head that a drain works up to; `closing` says that the `closed` store is still
      to be flushed. `woken` is the tail of the last publish that a wake follows: the
      tail of an unwound drain runs ahead of it. */
  datatype Cons = Cons(pc: Pc, tail: nat, next: nat, cachedHead: nat, draining: bool, target: nat,
                       blocking: bool, unwound: bool, disconnected: bool, closing: bool, woken: nat)

  /** History: `issued` is every value ever written to a slot, `received` every
      value ever read out of one, `reclaimed` what teardown destroyed. */
  datatype State<T> = State(cap: nat, mem: Mem<T>, p: Prod<T>, c: Cons,
                            issued: seq<T>, received: seq<T>, reclaimed: seq<T>)

  datatype PCall<T> = Send(value: T, blocking: bool) | Bulk(items: seq<T>) | DropProducer

  datatype CCall = Recv(blocking: bool) | Drain | DropConsumer

  /** `choice` resolves what the program leaves open: spin again or announce, wake
      spuriously, unwind in the callback. */
  datatype Act<T> =
    | PBegin(pcall: PCall<T>) | PRun(choice: bool) | PFlush
    | CBegin(ccall: CCall) | CRun(choice: bool) | CFlush(upto: nat) | CFlushClosed
    | Reclaim

  ghost predicate Init<T>(s: State<T>)
  {
    && s.cap >= 1 && |s.mem.slots| == s.cap
    && s.mem == Mem(s.mem.slots, 0, 0, false, false, false, false, false)
    && s.p == Prod(Idle, [], 0, 0, 0, [], false, false, false)
    && s.c == Cons(Idle, 0, 0, 0, false, 0, false, false, false, false, 0)
    && s.issued == [] && s.received == [] && s.reclaimed == []
  }

  // ---- steps ------------------------------------------------------------

  function Parked<T>(m: Mem<T>, g: Gate): bool
  {
    if g == NotFull then m.parkedP else m.parkedC
  }

  function GiveToken<T>(m: Mem<T>, g: Gate): Mem<T>
  {
    if g == NotFull then m.(tokenP := true) else m.(tokenC := true)
  }

  function Apply<T>(m: Mem<T>, st: Store<T>): Mem<T>
  {
    match st
    case StSlot(ix, v) => if ix < |m.slots| then m.(slots := m.slots[ix := v]) else m
    case StHead(h) => m.(head := h)
    case StClosed => m.(closed := true)
  }

  /** Where a thread goes when one `wake()` is over. */
  function AfterWake(g: Gate, closing: bool): Pc
  {
    if !closing then Idle
    else if g == NotFull then Waking(NotEmpty, T3a, true)
    else Gone
  }

  /** One step of `wake()`; the fence and the delivery wait for the buffer to drain. */
  function WakeStep(g: Gate, at: Wake, closing: bool, parked: bool): Pc
  {
    match at
    case T3a => Waking(g, if parked then Unpark else Fence, closing)
    case Fence => Waking(g, T3b, closing)
    case T3b => if parked then Waking(g, Unpark, closing) else AfterWake(g, closing)
    case Unpark => AfterWake(g, closing)
  }

  /** The cached check of `try_send` and `try_send_bulk`, and the cut to the room seen. */
  function StartSend<T>(cap: nat, p: Prod<T>): Prod<T>
  {
    if p.head >= p.cachedTail + cap then p.(pc := Refresh)
    else
      var room := p.cachedTail + cap - p.head;
      p.(pc := Access, todo := if |p.todo| <= room then p.todo else p.todo[..room])
  }

  function PStep<T>(s: State<T>, choice: bool): Option<State<T>>
  {
    var p, m := s.p, s.mem;
    match p.pc
    case Refresh =>
      var q := p.(cachedTail := m.tail);
      Some(s.(p := if q.head < q.cachedTail + s.cap then StartSend(s.cap, q)
                   else q.(pc := if q.bulk then Idle else ReadClosed)))
    case ReadClosed =>
      Some(s.(p := if m.closed then p.(pc := Idle, refused := true)
                   else p.(pc := if p.blocking then Spin1 else Idle)))
    case Access =>
      if p.todo == [] then
        Some(s.(p := p.(pc := Waking(NotEmpty, T3a, false), head := p.next, buf := p.buf + [StHead(p.next)])))
      else if s.cap == 0 then None
      else
        Some(s.(p := p.(next := p.next + 1, todo := p.todo[1..],
                        buf := p.buf + [StSlot(SlotOf(p.next, s.cap), p.todo[0])]),
                issued := s.issued + [p.todo[0]]))
    case Waking(g, at, closing) =>
      if (at.Fence? || at.Unpark?) && p.buf != [] then None
      else Some(s.(p := p.(pc := WakeStep(g, at, closing, Parked(m, g))), mem := if at.Unpark? then GiveToken(m, g) else m))
    case Spin1 => Some(s.(p := if p.head < m.tail + s.cap then StartSend(s.cap, p) else p.(pc := Spin2)))
    case Spin2 => Some(s.(p := if m.closed then StartSend(s.cap, p) else p.(pc := if choice then Spin1 else Announce)))
    case Announce => if p.buf == [] then Some(s.(p := p.(pc := AnnFence), mem := m.(parkedP := true))) else None
    case AnnFence => if p.buf == [] then Some(s.(p := p.(pc := Check1))) else None
    case Check1 => Some(s.(p := p.(pc := if p.head < m.tail + s.cap then Leave else Check2)))
    case Check2 => Some(s.(p := p.(pc := if m.closed then Leave else Park)))
    case Park =>
      if m.tokenP then Some(s.(p := p.(pc := Check1), mem := m.(tokenP := false)))
      else if choice then Some(s.(p := p.(pc := Check1))) else None
    case Leave => if p.buf == [] then Some(s.(p := StartSend(s.cap, p), mem := m.(parkedP := false))) else None
    case Close => Some(s.(p := p.(pc := Waking(NotFull, T3a, true), buf := p.buf + [StClosed])))
    case _ => None
  }

  function PStart<T>(s: State<T>, call: PCall<T>): Option<State<T>>
  {
    if s.p.pc != Idle then None else
    match call
    case Send(v, blocking) =>
      Some(s.(p := StartSend(s.cap, s.p.(todo := [v], blocking := blocking, bulk := false, refused := false))))
    case Bulk(items) =>
      var p := s.p.(todo := items, blocking := false, bulk := true, refused := false);
      Some(s.(p := if items == [] then p else StartSend(s.cap, p)))
    case DropProducer => Some(s.(p := s.p.(pc := Close)))
  }

  /** The consumer's buffer is empty. */
  predicate Flushed<T>(m: Mem<T>, c: Cons)
  {
    m.tail == c.tail && !c.closing
  }

  /** The cached check of `try_recv`; a drain loads `head` regardless. */
  function StartRecv(c: Cons): Cons
  {
    c.(pc := if c.draining || c.cachedHead == c.tail then Refresh else Access)
  }

  function CStep<T>(s: State<T>, choice: bool): Option<State<T>>
  {
    var c, m := s.c, s.mem;
    match c.pc
    case Refresh =>
      if c.draining then Some(s.(c := c.(target := m.head, pc := if m.head == c.tail then Idle else Access)))
      else Some(s.(c := c.(cachedHead := m.head, pc := if m.head == c.tail then ReadClosed else Access)))
    case ReadClosed =>
      Some(s.(c := c.(pc := if m.closed then Reread else if c.blocking then Spin1 else Idle)))
    case Reread =>
      Some(s.(c := if m.head == c.tail then c.(cachedHead := m.head, pc := Idle, disconnected := true)
                   else c.(cachedHead := m.head, pc := Access)))
    case Access =>
      if s.cap == 0 || SlotOf(c.next, s.cap) >= |m.slots| then None else
      var v := m.slots[SlotOf(c.next, s.cap)];
      var d := c.(next := c.next + 1, unwound := c.draining && choice);
      Some(s.(c := d.(pc := if c.draining && !choice && c.next + 1 != c.target then Access else Publish),
              received := s.received + [v]))
    case Publish =>
      Some(s.(c := if c.unwound then c.(tail := c.next, pc := Idle)
                   else c.(tail := c.next, woken := c.next, pc := Waking(NotFull, T3a, false),
                           cachedHead := if c.draining then c.target else c.cachedHead)))
    case Waking(g, at, closing) =>
      if (at.Fence? || at.Unpark?) && !Flushed(m, c) then None
      else Some(s.(c := c.(pc := WakeStep(g, at, closing, Parked(m, g))), mem := if at.Unpark? then GiveToken(m, g) else m))
    case Spin1 => Some(s.(c := if m.head != c.tail then StartRecv(c) else c.(pc := Spin2)))
    case Spin2 => Some(s.(c := if m.closed then StartRecv(c) else c.(pc := if choice then Spin1 else Announce)))
    case Announce => if Flushed(m, c) then Some(s.(c := c.(pc := AnnFence), mem := m.(parkedC := true))) else None
    case AnnFence => if Flushed(m, c) then Some(s.(c := c.(pc := Check1))) else None
    case Check1 => Some(s.(c := c.(pc := if m.head != c.tail then Leave else Check2)))
    case Check2 => Some(s.(c := c.(pc := if m.closed then Leave else Park)))
    case Park =>
      if m.tokenC then Some(s.(c := c.(pc := Check1), mem := m.(tokenC := false)))
      else if choice then Some(s.(c := c.(pc := Check1))) else None
    case Leave => if Flushed(m, c) then Some(s.(c := StartRecv(c), mem := m.(parkedC := false))) else None
    case Close => Some(s.(c := c.(pc := Waking(NotFull, T3a, true), closing := true, woken := c.tail)))
    case _ => None
  }

  /** Any call may follow an unwound drain, except a receive that would take a cache
      left behind as proof of an item when there is none: `Ring.Consumer.TryRecv`
      says what that would do. The test is one `is_empty` away. */
  function CStart<T>(s: State<T>, call: CCall): Option<State<T>>
  {
    if s.c.pc != Idle then None else
    match call
    case Recv(blocking) =>
      if s.c.cachedHead != s.c.tail && s.mem.head == s.c.tail then None
      else Some(s.(c := StartRecv(s.c.(draining := false, blocking := blocking, unwound := false, disconnected := false))))
    case Drain => Some(s.(c := StartRecv(s.c.(draining := true, blocking := false, unwound := false, disconnected := false))))
    case DropConsumer => Some(s.(c := s.c.(pc := Close)))
  }

  function Step<T>(s: State<T>, a: Act<T>): Option<State<T>>
  {
    match a
    case PBegin(call) => PStart(s, call)
    case PRun(choice) => PStep(s, choice)
    case PFlush =>
      if s.p.buf == [] then None
      else Some(s.(mem := Apply(s.mem, s.p.buf[0]), p := s.p.(buf := s.p.buf[1..])))
    case CBegin(call) => CStart(s, call)
    case CRun(choice) => CStep(s, choice)
    case CFlush(upto) =>
      if s.mem.tail < upto <= s.c.tail then Some(s.(mem := s.mem.(tail := upto))) else None
    case CFlushClosed =>
      if s.c.closing && s.mem.tail == s.c.tail then
        Some(s.(mem := s.mem.(closed := true), c := s.c.(closing := false)))
      else None
    case Reclaim =>
      // the last reference is gone: destroy what is left between the cursors
      var i := s.mem.tail + |s.reclaimed|;
      if s.p.pc == Gone && s.c.pc == Gone && i < s.mem.head && s.cap >= 1 && SlotOf(i, s.cap) < |s.mem.slots| then
        Some(s.(reclaimed := s.reclaimed + [s.mem.slots[SlotOf(i, s.cap)]]))
      else None
  }

  // ---- invariant --------------------------------------------------------

  predicate Announced(pc: Pc)
  {
    pc.AnnFence? || pc.Check1? || pc.Check2? || pc.Park? || pc.Leave?
  }

  /** The handle's drop has stored `closed`, perhaps only into its buffer. */
  predicate Closed(pc: Pc)
  {
    pc.Gone? || (pc.Waking? && pc.closing)
  }

  predicate Publishing(pc: Pc)
  {
    pc.Waking? && pc.gate == NotEmpty && !pc.closing
  }

  /** Counters below this have their slot write in memory. */
  function Written<T>(s: State<T>): int
  {
    if s.p.pc.Access? then s.p.next - |s.p.buf|
    else if Publishing(s.p.pc) && s.p.buf != [] then s.p.head - |s.p.buf| + 1
    else s.p.head
  }

  ghost predicate Cursors<T>(s: State<T>)
  {
    && s.cap >= 1 && |s.mem.slots| == s.cap
    && s.p.cachedTail <= s.mem.tail <= s.c.tail <= s.c.next <= s.mem.head <= s.p.head <= s.p.next
    && s.p.next <= s.p.cachedTail + s.cap
    && |s.issued| == s.p.next && |s.received| == s.c.next
    && (if s.p.pc.Access? then s.p.next + |s.p.todo| <= s.p.cachedTail + s.cap else s.p.next == s.p.head)
    && ((s.p.pc.Refresh? || s.p.pc.ReadClosed? || s.p.pc.Spin1? || s.p.pc.Spin2? || s.p.pc.Announce? || Announced(s.p.pc))
        ==> s.p.head == s.p.cachedTail + s.cap && s.p.todo != [])
    && (s.p.pc.Access? ==> s.p.todo != [] || s.p.head < s.p.next)
  }

  /** How the producer's buffer ends and how much of it is slot writes. */
  ghost predicate BufferShape<T>(s: State<T>)
  {
    var p, n := s.p, |s.p.buf|;
    if p.pc.Access? then
      s.mem.head == p.head && n <= p.next - p.head
    else if Publishing(p.pc) && n > 0 then
      !p.pc.at.T3b? && p.buf[n - 1] == StHead(p.head) && s.mem.head + n <= p.head + 1 && s.mem.head < p.head
    else
      && s.mem.head == p.head
      && (n > 0 ==> n == 1 && p.buf[0] == StClosed && Closed(p.pc) && !p.pc.Gone? && p.pc.gate == NotFull && !p.pc.at.T3b?)
  }

  /** The slot writes in the producer's buffer are the next ones in order. */
  ghost predicate BufferContents<T>(s: State<T>)
    requires Cursors(s) && BufferShape(s)
  {
    var w := Written(s);
    forall j :: 0 <= j < |s.p.buf| && w + j < s.p.next ==>
      s.p.buf[j] == StSlot(SlotOf(w + j, s.cap), s.issued[w + j])
  }

  ghost predicate SlotsWritten<T>(s: State<T>)
    requires Cursors(s) && BufferShape(s)
  {
    forall i {:trigger SlotOf(i, s.cap)} :: s.mem.tail <= i < Written(s) ==>
      s.mem.slots[SlotOf(i, s.cap)] == s.issued[i]
  }

  /** Inside the wake of `not_full`, and its fence or delivery still to come. */
  predicate BeforeProbe(pc: Pc)
  {
    pc.Waking? && pc.gate == NotFull && !pc.at.T3b?
  }

  /** Between a receive's decision that there is an item and its publish. */
  predicate Reading(c: Cons)
  {
    !c.draining && (c.pc.Access? || c.pc.Publish?)
  }

  /** What of the consumer's stores may be pending when. */
  ghost predicate ConsumerBuffer<T>(s: State<T>)
  {
    var c := s.c;
    && (c.closing ==> BeforeProbe(c.pc) && c.pc.closing)
    && (s.mem.tail < c.woken ==> BeforeProbe(c.pc))
    && c.woken <= c.tail
    && (c.pc.Waking? || c.pc.Gone? ==> c.woken == c.tail)
  }

  /** Where the consumer's cursors stand. */
  ghost predicate ConsumerSide<T>(s: State<T>)
  {
    var c := s.c;
    && ConsumerBuffer(s)
    && (c.pc.Publish? ==> c.tail < c.next)
    && (c.pc.Access? || c.pc.Publish? || c.next == c.tail)
    && c.cachedHead <= s.mem.head
    && (if Reading(c) then c.cachedHead <= c.tail + s.cap else c.cachedHead < c.woken + s.cap)
    && (c.draining && (c.pc.Access? || c.pc.Publish?) ==>
          c.next <= c.target <= s.mem.head && (c.pc.Access? ==> c.next < c.target))
    && (c.draining && c.pc.Publish? && !c.unwound ==> c.next == c.target)
    && (!c.draining && c.pc.Access? ==> c.next == c.tail < s.mem.head)
    && (!c.draining ==> !c.unwound)
    && (!c.draining && c.pc.Refresh? ==> c.cachedHead == c.tail)
    && ((c.pc.ReadClosed? || c.pc.Reread? || c.pc.Spin1? || c.pc.Spin2? || c.pc.Announce? || Announced(c.pc))
        ==> c.cachedHead == c.tail && !c.draining)
  }

  ghost predicate ClosedFlag<T>(s: State<T>)
  {
    && (s.mem.closed <==> (Closed(s.p.pc) && s.p.buf == []) || (Closed(s.c.pc) && !s.c.closing))
    && (s.c.pc.Reread? ==> Closed(s.p.pc) && s.p.buf == [])
    && (s.c.disconnected ==> Closed(s.p.pc) && s.c.next == s.p.head)
    && (s.p.refused ==> Closed(s.c.pc))
  }

  /** The producer is inside the wake of `not_empty`, or of the drop's first wake,
      which that one follows. */
  predicate ProducerOwes<T>(s: State<T>)
  {
    s.p.pc.Waking?
  }

  /** The consumer is inside the wake of `not_full`. */
  predicate ConsumerWakes<T>(s: State<T>)
  {
    s.c.pc.Waking? && s.c.pc.gate == NotFull
  }

  ghost predicate Gates<T>(s: State<T>)
  {
    && (s.mem.parkedP <==> Announced(s.p.pc))
    && (s.mem.parkedC <==> Announced(s.c.pc))
    && ((s.c.pc.Check2? || s.c.pc.Park?) && !s.mem.tokenC && s.mem.head != s.c.tail ==> ProducerOwes(s))
    && (s.c.pc.Park? && !s.mem.tokenC && s.mem.closed ==> ProducerOwes(s))
    && ((s.p.pc.Check2? || s.p.pc.Park?) && !s.mem.tokenP && s.p.head < s.c.woken + s.cap ==> ConsumerWakes(s))
    && (s.p.pc.Park? && !s.mem.tokenP && s.mem.closed ==> ConsumerWakes(s))
    && (s.p.pc.Waking? && s.p.pc.gate == NotFull ==> s.p.pc.closing)
    && (s.c.pc.Waking? && s.c.pc.gate == NotEmpty ==> s.c.pc.closing)
    && !s.p.pc.Reread? && !s.p.pc.Publish?
  }

  /** What was received is what was issued, in order; teardown continues from there. */
  ghost predicate History<T>(s: State<T>)
    requires Cursors(s)
  {
    && s.received == s.issued[..s.c.next]
    && (s.reclaimed != [] ==> s.p.pc.Gone? && s.c.pc.Gone?)
    && s.mem.tail + |s.reclaimed| <= s.mem.head
    && s.reclaimed == s.issued[s.mem.tail..][..|s.reclaimed|]
  }

  /** Where control and cursors stand. */
  ghost predicate Control<T>(s: State<T>)
  {
    Cursors(s) && BufferShape(s) && ConsumerSide(s) && ClosedFlag(s) && Gates(s)
  }

  /** What the slots, the buffers and the histories hold. */
  ghost predicate Data<T>(s: State<T>)
    requires Cursors(s) && BufferShape(s)
  {
    BufferContents(s) && SlotsWritten(s) && History(s)
  }

  ghost predicate Inv<T>(s: State<T>)
  {
    Control(s) && Data(s)
  }

  lemma InitInv<T>(s: State<T>)
    requires Init(s)
    ensures Inv(s)
  {
  }

  lemma ProducerRefreshKeeps<T>(s: State<T>, choice: bool)
    requires Control(s) && s.p.pc.Refresh? && PStep(s, choice).Some?
    ensures Control(PStep(s, choice).value)
  {
  }

  lemma ProducerClosedKeeps<T>(s: State<T>, choice: bool)
    requires Control(s) && (s.p.pc.ReadClosed? || s.p.pc.Close?) && PStep(s, choice).Some?
    ensures Control(PStep(s, choice).value)
  {
  }

  lemma ProducerWriteKeeps<T>(s: State<T>, choice: bool)
    requires Control(s) && s.p.pc.Access? && PStep(s, choice).Some?
    ensures Control(PStep(s, choice).value)
  {
  }

  lemma ProducerProbeKeeps<T>(s: State<T>, choice: bool)
    requires Control(s) && s.p.pc.Waking? && (s.p.pc.at.T3a? || s.p.pc.at.Fence?) && PStep(s, choice).Some?
    ensures Control(PStep(s, choice).value)
  {
  }

  lemma ProducerDeliverKeeps<T>(s: State<T>, choice: bool)
    requires Control(s) && s.p.pc.Waking? && (s.p.pc.at.T3b? || s.p.pc.at.Unpark?) && PStep(s, choice).Some?
    ensures Control(PStep(s, choice).value)
  {
  }

  lemma ProducerSpinKeeps<T>(s: State<T>, choice: bool)
    requires Control(s) && s.p.pc.Spin1? && PStep(s, choice).Some?
    ensures Control(PStep(s, choice).value)
  {
  }

  lemma ProducerSpinClosedKeeps<T>(s: State<T>, choice: bool)
    requires Control(s) && s.p.pc.Spin2? && PStep(s, choice).Some?
    ensures Control(PStep(s, choice).value)
  {
  }

  lemma ProducerAnnounceKeeps<T>(s: State<T>, choice: bool)
    requires Control(s) && (s.p.pc.Announce? || s.p.pc.AnnFence? || s.p.pc.Check1?) && PStep(s, choice).Some?
    ensures Control(PStep(s, choice).value)
  {
  }

  lemma ProducerCheckKeeps<T>(s: State<T>, choice: bool)
    requires Control(s) && s.p.pc.Check2? && PStep(s, choice).Some?
    ensures Control(PStep(s, choice).value)
  {
  }

  lemma ProducerParkKeeps<T>(s: State<T>, choice: bool)
    requires Control(s) && s.p.pc.Park? && PStep(s, choice).Some?
    ensures Control(PStep(s, choice).value)
  {
  }

  lemma ProducerLeaveKeeps<T>(s: State<T>, choice: bool)
    requires Control(s) && s.p.pc.Leave? && PStep(s, choice).Some?
    ensures Control(PStep(s, choice).value)
  {
  }

  lemma ConsumerRefreshKeeps<T>(s: State<T>, choice: bool)
    requires Control(s) && s.c.pc.Refresh? && CStep(s, choice).Some?
    ensures Control(CStep(s, choice).value)
  {
  }

  lemma ConsumerClosedKeeps<T>(s: State<T>, choice: bool)
    requires Control(s) && (s.c.pc.ReadClosed? || s.c.pc.Reread?) && CStep(s, choice).Some?
    ensures Control(CStep(s, choice).value)
  {
  }

  lemma ConsumerCloseKeeps<T>(s: State<T>, choice: bool)
    requires Control(s) && s.c.pc.Close? && CStep(s, choice).Some?
    ensures Control(CStep(s, choice).value)
  {
  }

  lemma ConsumerReadKeeps<T>(s: State<T>, choice: bool)
    requires Control(s) && s.c.pc.Access? && CStep(s, choice).Some?
    ensures Control(CStep(s, choice).value)
  {
  }

  lemma ConsumerPublishKeeps<T>(s: State<T>, choice: bool)
    requires Control(s) && s.c.pc.Publish? && CStep(s, choice).Some?
    ensures Control(CStep(s, choice).value)
  {
  }

  lemma ConsumerProbeKeeps<T>(s: State<T>, choice: bool)
    requires Control(s) && s.c.pc.Waking? && (s.c.pc.at.T3a? || s.c.pc.at.Fence?) && CStep(s, choice).Some?
    ensures Control(CStep(s, choice).value)
  {
  }

  lemma ConsumerDeliverKeeps<T>(s: State<T>, choice: bool)
    requires Control(s) && s.c.pc.Waking? && (s.c.pc.at.T3b? || s.c.pc.at.Unpark?) && CStep(s, choice).Some?
    ensures Control(CStep(s, choice).value)
  {
  }

  lemma ConsumerSpinKeeps<T>(s: State<T>, choice: bool)
    requires Control(s) && s.c.pc.Spin1? && CStep(s, choice).Some?
    ensures Control(CStep(s, choice).value)
  {
  }

  lemma ConsumerSpinClosedKeeps<T>(s: State<T>, choice: bool)
    requires Control(s) && s.c.pc.Spin2? && CStep(s, choice).Some?
    ensures Control(CStep(s, choice).value)
  {
  }

  lemma ConsumerAnnounceKeeps<T>(s: State<T>, choice: bool)
    requires Control(s) && (s.c.pc.Announce? || s.c.pc.AnnFence? || s.c.pc.Check1?) && CStep(s, choice).Some?
    ensures Control(CStep(s, choice).value)
  {
  }

  lemma ConsumerCheckKeeps<T>(s: State<T>, choice: bool)
    requires Control(s) && s.c.pc.Check2? && CStep(s, choice).Some?
    ensures Control(CStep(s, choice).value)
  {
  }

  lemma ConsumerParkKeeps<T>(s: State<T>, choice: bool)
    requires Control(s) && s.c.pc.Park? && CStep(s, choice).Some?
    ensures Control(CStep(s, choice).value)
  {
  }

  lemma ConsumerLeaveKeeps<T>(s: State<T>, choice: bool)
    requires Control(s) && s.c.pc.Leave? && CStep(s, choice).Some?
    ensures Control(CStep(s, choice).value)
  {
  }

  lemma ProducerSendKeeps<T>(s: State<T>, call: PCall<T>)
    requires Control(s) && !call.DropProducer? && PStart(s, call).Some?
    ensures Control(PStart(s, call).value)
  {
  }

  lemma ProducerStartKeeps<T>(s: State<T>, call: PCall<T>)
    requires Control(s) && PStart(s, call).Some?
    ensures Control(PStart(s, call).value)
  {
    if !call.DropProducer? { ProducerSendKeeps(s, call); }
  }

  lemma ConsumerStartKeeps<T>(s: State<T>, call: CCall)
    requires Control(s) && CStart(s, call).Some?
    ensures Control(CStart(s, call).value)
  {
  }

  lemma ProducerFlushKeeps<T>(s: State<T>)
    requires Inv(s) && Step(s, PFlush).Some?
    ensures Control(Step(s, PFlush).value)
  {
  }

  lemma ConsumerFlushKeeps<T>(s: State<T>, a: Act<T>)
    requires Control(s) && (a.CFlush? || a.CFlushClosed?) && Step(s, a).Some?
    ensures Control(Step(s, a).value)
  {
  }

  lemma ProducerStepControl<T>(s: State<T>, choice: bool)
    requires Control(s) && PStep(s, choice).Some?
    ensures Control(PStep(s, choice).value)
  {
    match s.p.pc
    case Refresh => ProducerRefreshKeeps(s, choice);
    case ReadClosed => ProducerClosedKeeps(s, choice);
    case Close => ProducerClosedKeeps(s, choice);
    case Access => ProducerWriteKeeps(s, choice);
    case Waking(_, at, _) =>
      if at.T3a? || at.Fence? { ProducerProbeKeeps(s, choice); } else { ProducerDeliverKeeps(s, choice); }
    case Spin1 => ProducerSpinKeeps(s, choice);
    case Spin2 => ProducerSpinClosedKeeps(s, choice);
    case Announce => ProducerAnnounceKeeps(s, choice);
    case AnnFence => ProducerAnnounceKeeps(s, choice);
    case Check1 => ProducerAnnounceKeeps(s, choice);
    case Check2 => ProducerCheckKeeps(s, choice);
    case Park => ProducerParkKeeps(s, choice);
    case _ => ProducerLeaveKeeps(s, choice);
  }

  lemma ConsumerStepControl<T>(s: State<T>, choice: bool)
    requires Control(s) && CStep(s, choice).Some?
    ensures Control(CStep(s, choice).value)
  {
    match s.c.pc
    case Refresh => ConsumerRefreshKeeps(s, choice);
    case ReadClosed => ConsumerClosedKeeps(s, choice);
    case Reread => ConsumerClosedKeeps(s, choice);
    case Close => ConsumerCloseKeeps(s, choice);
    case Access => ConsumerReadKeeps(s, choice);
    case Publish => ConsumerPublishKeeps(s, choice);
    case Waking(_, at, _) =>
      if at.T3a? || at.Fence? { ConsumerProbeKeeps(s, choice); } else { ConsumerDeliverKeeps(s, choice); }
    case Spin1 => ConsumerSpinKeeps(s, choice);
    case Spin2 => ConsumerSpinClosedKeeps(s, choice);
    case Announce => ConsumerAnnounceKeeps(s, choice);
    case AnnFence => ConsumerAnnounceKeeps(s, choice);
    case Check1 => ConsumerAnnounceKeeps(s, choice);
    case Check2 => ConsumerCheckKeeps(s, choice);
    case Park => ConsumerParkKeeps(s, choice);
    case _ => ConsumerLeaveKeeps(s, choice);
  }

  // ---- data -------------------------------------------------------------

  /** No slot written, nothing issued, received or reclaimed, and every slot write
      still pending is pending in both. */
  ghost predicate SameData<T>(s: State<T>, n: State<T>)
  {
    && n.cap == s.cap && n.issued == s.issued && n.received == s.received && n.reclaimed == s.reclaimed == []
    && n.mem.slots == s.mem.slots && n.mem.tail >= s.mem.tail
    && n.c.next == s.c.next && n.p.next == s.p.next && Written(n) == Written(s)
    && (n.p.buf == s.p.buf || Written(n) == n.p.next)
  }

  lemma DataFrame<T>(s: State<T>, n: State<T>)
    requires Inv(s) && Control(n) && SameData(s, n)
    ensures Data(n)
  {
  }

  lemma ProducerStartSame<T>(s: State<T>, call: PCall<T>)
    requires Control(s) && s.reclaimed == [] && PStart(s, call).Some?
    ensures SameData(s, PStart(s, call).value)
  {
  }

  lemma ProducerWaitSame<T>(s: State<T>, choice: bool)
    requires Control(s) && s.reclaimed == [] && PStep(s, choice).Some?
    requires s.p.pc.Spin1? || s.p.pc.Spin2? || s.p.pc.Announce? || Announced(s.p.pc)
    ensures SameData(s, PStep(s, choice).value)
  {
  }

  lemma ProducerCallSame<T>(s: State<T>, choice: bool)
    requires Control(s) && s.reclaimed == [] && PStep(s, choice).Some?
    requires s.p.pc.Refresh? || s.p.pc.ReadClosed? || s.p.pc.Close? || s.p.pc.Waking?
    ensures SameData(s, PStep(s, choice).value)
  {
  }

  lemma ConsumerWaitSame<T>(s: State<T>, choice: bool)
    requires Control(s) && s.reclaimed == [] && CStep(s, choice).Some?
    requires s.c.pc.Spin1? || s.c.pc.Spin2? || s.c.pc.Announce? || Announced(s.c.pc)
    ensures SameData(s, CStep(s, choice).value)
  {
  }

  lemma ConsumerCallSame<T>(s: State<T>, choice: bool)
    requires Control(s) && s.reclaimed == [] && CStep(s, choice).Some?
    requires s.c.pc.Refresh? || s.c.pc.ReadClosed? || s.c.pc.Reread? || s.c.pc.Close? || s.c.pc.Waking? || s.c.pc.Publish?
    ensures SameData(s, CStep(s, choice).value)
  {
  }

  lemma ProducerWriteData<T>(s: State<T>, choice: bool)
    requires Inv(s) && s.p.pc.Access? && s.p.todo != [] && PStep(s, choice).Some? && Control(PStep(s, choice).value)
    ensures Data(PStep(s, choice).value)
  {
    var n := PStep(s, choice).value;
    assert Written(n) == Written(s) && s.reclaimed == [];
    assert n.issued[..n.c.next] == s.issued[..s.c.next];
  }

  lemma ProducerPublishData<T>(s: State<T>, choice: bool)
    requires Inv(s) && s.p.pc.Access? && s.p.todo == [] && PStep(s, choice).Some? && Control(PStep(s, choice).value)
    ensures Data(PStep(s, choice).value)
  {
    assert Written(PStep(s, choice).value) == Written(s) && s.reclaimed == [];
  }

  lemma ProducerStepData<T>(s: State<T>, choice: bool)
    requires Inv(s) && PStep(s, choice).Some? && Control(PStep(s, choice).value)
    ensures Data(PStep(s, choice).value)
  {
    if s.p.pc.Access? {
      if s.p.todo == [] { ProducerPublishData(s, choice); } else { ProducerWriteData(s, choice); }
    } else {
      if s.p.pc.Refresh? || s.p.pc.ReadClosed? || s.p.pc.Close? || s.p.pc.Waking? {
        ProducerCallSame(s, choice);
      } else {
        ProducerWaitSame(s, choice);
      }
      DataFrame(s, PStep(s, choice).value);
    }
  }

  /** The value read is the next one issued: the slot was written and not reused. */
  lemma ConsumerReadsNext<T>(s: State<T>, choice: bool)
    requires Inv(s) && s.c.pc.Access? && CStep(s, choice).Some?
    ensures s.c.next < |s.issued| && CStep(s, choice).value.received == s.received + [s.issued[s.c.next]]
  {
    assert s.mem.slots[SlotOf(s.c.next, s.cap)] == s.issued[s.c.next];
  }

  lemma ConsumerReadHistory<T>(s: State<T>, choice: bool)
    requires Inv(s) && s.c.pc.Access? && CStep(s, choice).Some? && Control(CStep(s, choice).value)
    ensures History(CStep(s, choice).value)
  {
    ConsumerReadsNext(s, choice);
    assert s.issued[..s.c.next + 1] == s.issued[..s.c.next] + [s.issued[s.c.next]];
  }

  /** `BufferContents` and `SlotsWritten` are about these parts of the state alone. */
  lemma SlotsFrame<T>(s: State<T>, n: State<T>)
    requires Inv(s) && Control(n) && n.cap == s.cap && n.p == s.p && n.mem == s.mem && n.issued == s.issued
    ensures BufferContents(n) && SlotsWritten(n)
  {
    assert Written(n) == Written(s);
  }

  lemma ConsumerReadData<T>(s: State<T>, choice: bool)
    requires Inv(s) && s.c.pc.Access? && CStep(s, choice).Some? && Control(CStep(s, choice).value)
    ensures Data(CStep(s, choice).value)
  {
    ConsumerReadHistory(s, choice);
    SlotsFrame(s, CStep(s, choice).value);
  }

  lemma ConsumerStepData<T>(s: State<T>, choice: bool)
    requires Inv(s) && CStep(s, choice).Some? && Control(CStep(s, choice).value)
    ensures Data(CStep(s, choice).value)
  {
    if s.c.pc.Access? {
      ConsumerReadData(s, choice);
    } else {
      if s.c.pc.Spin1? || s.c.pc.Spin2? || s.c.pc.Announce? || Announced(s.c.pc) {
        ConsumerWaitSame(s, choice);
      } else {
        ConsumerCallSame(s, choice);
      }
      DataFrame(s, CStep(s, choice).value);
    }
  }

  /** The flushed slot write is that of the first counter not yet in memory, and
      its slot belongs to no unreleased counter below that. */
  lemma SlotFlushSlots<T>(s: State<T>)
    requires Inv(s) && s.p.buf != [] && s.p.buf[0].StSlot? && Control(Step(s, PFlush).value)
    ensures Written(Step(s, PFlush).value) == Written(s) + 1 && SlotsWritten(Step(s, PFlush).value)
  {
    var n := Step(s, PFlush).value;
    var w := Written(s);
    assert s.p.buf[0] == StSlot(SlotOf(w, s.cap), s.issued[w]);
    forall i {:trigger SlotOf(i, s.cap)} | n.mem.tail <= i < w
      ensures n.mem.slots[SlotOf(i, s.cap)] == n.issued[i]
    {
      SlotsDistinct(i, w, s.cap);
    }
  }

  lemma SlotFlushData<T>(s: State<T>)
    requires Inv(s) && s.p.buf != [] && s.p.buf[0].StSlot? && Control(Step(s, PFlush).value)
    ensures Data(Step(s, PFlush).value)
  {
    var n := Step(s, PFlush).value;
    SlotFlushSlots(s);
    var w := Written(n);
    forall j | 0 <= j < |n.p.buf| && w + j < n.p.next
      ensures n.p.buf[j] == StSlot(SlotOf(w + j, n.cap), n.issued[w + j])
    {
      assert n.p.buf[j] == s.p.buf[j + 1];
    }
  }

  lemma CursorFlushData<T>(s: State<T>)
    requires Inv(s) && s.p.buf != [] && !s.p.buf[0].StSlot? && Control(Step(s, PFlush).value)
    ensures Data(Step(s, PFlush).value)
  {
    assert Written(Step(s, PFlush).value) == Written(s);
  }

  lemma ConsumerFlushData<T>(s: State<T>, a: Act<T>)
    requires Inv(s) && (a.CFlush? || a.CFlushClosed?) && Step(s, a).Some? && Control(Step(s, a).value)
    ensures Data(Step(s, a).value)
  {
    DataFrame(s, Step(s, a).value);
  }

  lemma StartKeepsInv<T>(s: State<T>, p: PCall<T>, c: CCall)
    requires Inv(s)
    ensures PStart(s, p).Some? ==> Inv(PStart(s, p).value)
    ensures CStart(s, c).Some? ==> Inv(CStart(s, c).value)
  {
    if PStart(s, p).Some? {
      ProducerStartKeeps(s, p);
      ProducerStartSame(s, p);
      DataFrame(s, PStart(s, p).value);
    }
    if CStart(s, c).Some? {
      ConsumerStartKeeps(s, c);
      DataFrame(s, CStart(s, c).value);
    }
  }

  lemma ProducerStepKeepsInv<T>(s: State<T>, choice: bool)
    requires Inv(s) && PStep(s, choice).Some?
    ensures Inv(PStep(s, choice).value)
  {
    ProducerStepControl(s, choice);
    ProducerStepData(s, choice);
  }

  lemma ConsumerStepKeepsInv<T>(s: State<T>, choice: bool)
    requires Inv(s) && CStep(s, choice).Some?
    ensures Inv(CStep(s, choice).value)
  {
    ConsumerStepControl(s, choice);
    ConsumerStepData(s, choice);
  }

  lemma FlushKeepsInv<T>(s: State<T>, a: Act<T>)
    requires Inv(s) && (a.PFlush? || a.CFlush? || a.CFlushClosed?) && Step(s, a).Some?
    ensures Inv(Step(s, a).value)
  {
    if a.PFlush? {
      ProducerFlushKeeps(s);
      if s.p.buf[0].StSlot? { SlotFlushData(s); } else { CursorFlushData(s); }
    } else {
      ConsumerFlushKeeps(s, a);
      ConsumerFlushData(s, a);
    }
  }

  lemma ReclaimKeepsInv<T>(s: State<T>)
    requires Inv(s) && Step(s, Reclaim).Some?
    ensures Inv(Step(s, Reclaim).value)
  {
    var i := s.mem.tail + |s.reclaimed|;
    assert s.mem.slots[SlotOf(i, s.cap)] == s.issued[i];
  }

  lemma StepKeepsInv<T>(s: State<T>, a: Act<T>)
    requires Inv(s) && Step(s, a).Some?
    ensures Inv(Step(s, a).value)
  {
    match a
    case PBegin(call) => StartKeepsInv(s, call, Drain);
    case PRun(choice) => ProducerStepKeepsInv(s, choice);
    case CBegin(call) => StartKeepsInv(s, DropProducer, call);
    case CRun(choice) => ConsumerStepKeepsInv(s, choice);
    case Reclaim => ReclaimKeepsInv(s);
    case _ => FlushKeepsInv(s, a);
  }

  /** Every state of every run satisfies the invariant. */
  lemma {:induction false} RunKeepsInv<T>(s: State<T>, acts: seq<Act<T>>)
    requires Inv(s) && Run(Step, s, acts).Some?
    ensures Inv(Run(Step, s, acts).value)
    decreases |acts|
  {
    if acts != [] {
      StepKeepsInv(s, acts[0]);
      RunKeepsInv(Step(s, acts[0]).value, acts[1..]);
    }
  }
}
