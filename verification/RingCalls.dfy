/** What the calls on the blocking ring return, over every run of the two-thread
    machine: a send puts its own value into the ring or says why not, a receive hands
    out one item or says that there will be none, a drain hands out what is there; and
    all of them come back once what they wait for is there. */
module RingCalls {
  import opened RingTso
  import opened Runs

  // ---- what a send did ----------------------------------------------------------

  /** No new call of the producer begins. */
  predicate NoSend<T>(acts: seq<Act<T>>)
  {
    forall i :: 0 <= i < |acts| ==> !acts[i].PBegin?
  }

  /** The producer loads the consumer's tail and finds the ring full. */
  ghost predicate LooksFull<T>(s: State<T>, a: Act<T>)
  {
    a.PRun? && s.p.pc.Refresh? && s.p.head >= s.mem.tail + s.cap
  }

  /** As many of `items` as fit the room that the call has seen. */
  function Fitting<T>(items: seq<T>, head: nat, cachedTail: nat, cap: nat): (k: nat)
    ensures k <= |items|
  {
    if head >= cachedTail + cap then 0
    else if |items| <= cachedTail + cap - head then |items| else cachedTail + cap - head
  }

  /** A call that was given `items` when `before` had been issued, at cursor `head`. */
  datatype Given<T> = Given(before: seq<T>, items: seq<T>, blocking: bool, bulk: bool, head: nat)

  /** The front of the items that the call has written or is about to write. */
  ghost predicate Writing<T>(g: Given<T>, s: State<T>)
  {
    var k := Fitting(g.items, g.head, s.p.cachedTail, s.cap);
    k > 0 && s.issued + s.p.todo == g.before + g.items[..k] && !s.p.refused
  }

  ghost predicate Waiting<T>(g: Given<T>, s: State<T>)
  {
    s.issued == g.before && s.p.todo == g.items && s.p.head == g.head && !s.p.refused
  }

  predicate WaitsForRoom(pc: Pc)
  {
    pc.Spin1? || pc.Spin2? || pc.Announce? || Announced(pc)
  }

  /** How far the call has come; `full` says that it has found the ring full. */
  ghost predicate Sending<T>(g: Given<T>, full: bool, s: State<T>)
  {
    && s.p.blocking == g.blocking && s.p.bulk == g.bulk && g.items != [] && !(g.blocking && g.bulk)
    && match s.p.pc
       case Access => s.p.head == g.head && Writing(g, s)
       case Waking(_, _, closing) => !closing && s.p.todo == [] && Writing(g, s)
       case Idle =>
         if s.issued == g.before then (s.p.refused && !g.bulk) || (full && !g.blocking)
         else s.p.todo == [] && Writing(g, s)
       case Refresh => Waiting(g, s)
       case ReadClosed => Waiting(g, s) && full && !g.bulk
       case _ => Waiting(g, s) && WaitsForRoom(s.p.pc) && g.blocking
  }

  lemma StartsSending<T>(g: Given<T>, full: bool, s: State<T>, p: Prod<T>)
    requires s.issued == g.before && p.todo == g.items != [] && p.head == g.head && !p.refused
    requires p.blocking == g.blocking && p.bulk == g.bulk && !(g.blocking && g.bulk)
    ensures Sending(g, full, s.(p := StartSend(s.cap, p)))
  {
    if p.head < p.cachedTail + s.cap {
      assert g.items[..Fitting(g.items, p.head, p.cachedTail, s.cap)] == StartSend(s.cap, p).todo;
    }
  }

  lemma WritesOn<T>(g: Given<T>, full: bool, s: State<T>, choice: bool)
    requires Sending(g, full, s) && s.p.pc.Access? && PStep(s, choice).Some?
    ensures Sending(g, full, PStep(s, choice).value)
  {
    if s.p.todo != [] {
      assert s.issued + s.p.todo == (s.issued + [s.p.todo[0]]) + s.p.todo[1..];
    }
  }

  lemma WaitKeepsSending<T>(g: Given<T>, full: bool, s: State<T>, choice: bool)
    requires Sending(g, full, s) && PStep(s, choice).Some? && WaitsForRoom(s.p.pc)
    ensures Sending(g, full, PStep(s, choice).value)
  {
    match s.p.pc
    case Spin1 => StartsSending(g, full, s, s.p);
    case Spin2 => StartsSending(g, full, s, s.p);
    case Leave => StartsSending(g, full, s.(mem := s.mem.(parkedP := false)), s.p);
    case _ =>
  }

  lemma SendStepKeeps<T>(g: Given<T>, full: bool, s: State<T>, choice: bool)
    requires Sending(g, full, s) && PStep(s, choice).Some?
    ensures Sending(g, full || LooksFull(s, PRun(choice)), PStep(s, choice).value)
    ensures PStep(s, choice).value.cap == s.cap
  {
    match s.p.pc
    case Access => WritesOn(g, full, s, choice);
    case Refresh => StartsSending(g, full, s, s.p.(cachedTail := s.mem.tail));
    case Waking(_, _, _) =>
    case ReadClosed =>
    case _ => WaitKeepsSending(g, full, s, choice);
  }

  lemma ConsumerLeavesProducer<T>(s: State<T>, choice: bool)
    requires CStep(s, choice).Some?
    ensures var n := CStep(s, choice).value; n.p == s.p && n.issued == s.issued && n.cap == s.cap
  {
  }

  /** Nothing but the producer's own steps touches its call. */
  lemma OthersLeaveProducer<T>(s: State<T>, a: Act<T>)
    requires Step(s, a).Some? && !a.PBegin? && !a.PRun?
    ensures var n := Step(s, a).value; n.p == s.p.(buf := n.p.buf) && n.issued == s.issued && n.cap == s.cap
  {
    if a.CRun? { ConsumerLeavesProducer(s, a.choice); }
  }

  lemma SameProducer<T>(g: Given<T>, full: bool, s: State<T>, n: State<T>)
    requires Sending(g, full, s) && n.p == s.p.(buf := n.p.buf) && n.issued == s.issued && n.cap == s.cap
    ensures Sending(g, full, n)
  {
  }

  lemma ActKeepsSending<T>(g: Given<T>, full: bool, s: State<T>, a: Act<T>)
    requires Sending(g, full, s) && Step(s, a).Some? && !a.PBegin?
    ensures Sending(g, full || LooksFull(s, a), Step(s, a).value) && Step(s, a).value.cap == s.cap
  {
    if a.PRun? {
      SendStepKeeps(g, full, s, a.choice);
    } else {
      OthersLeaveProducer(s, a);
      SameProducer(g, full, s, Step(s, a).value);
    }
  }

  lemma {:induction false} RunKeepsSending<T>(g: Given<T>, full: bool, s: State<T>, acts: seq<Act<T>>)
    requires Sending(g, full, s) && Run(Step, s, acts).Some? && NoSend(acts)
    ensures Sending(g, full || Happens(Step, s, acts, LooksFull), Run(Step, s, acts).value)
    ensures Run(Step, s, acts).value.cap == s.cap
    decreases |acts|
  {
    if acts != [] {
      ActKeepsSending(g, full, s, acts[0]);
      RunKeepsSending(g, full || LooksFull(s, acts[0]), Step(s, acts[0]).value, acts[1..]);
    }
  }

  /** All that was issued is visible once the call has returned. */
  lemma IdleIsPublished<T>(s: State<T>)
    requires Inv(s) && s.p.pc.Idle?
    ensures s.mem.head == |s.issued| && (s.p.refused ==> Closed(s.c.pc))
  {
  }

  /** A send that has returned has put its value, and nothing else, into the ring, where
      the consumer can see it; or the ring was closed and it says so; or it was not
      asked to wait and found the ring full. */
  lemma SendReturns<T>(s: State<T>, value: T, blocking: bool, acts: seq<Act<T>>)
    requires Inv(s) && s.p.pc.Idle? && NoSend(acts)
    requires Run(Step, PStart(s, Send(value, blocking)).value, acts).Some?
    requires Run(Step, PStart(s, Send(value, blocking)).value, acts).value.p.pc.Idle?
    ensures var b := PStart(s, Send(value, blocking)).value; var n := Run(Step, b, acts).value;
      if n.issued == s.issued then
        if n.p.refused then Closed(n.c.pc) else !blocking && Happens(Step, b, acts, LooksFull)
      else n.issued == s.issued + [value] && n.mem.head == |n.issued| && !n.p.refused
  {
    var b := PStart(s, Send(value, blocking)).value;
    var g := Given(s.issued, [value], blocking, false, s.p.head);
    StartKeepsInv(s, Send(value, blocking), Drain);
    StartsSending(g, false, s, s.p.(todo := [value], blocking := blocking, bulk := false, refused := false));
    RunKeepsSending(g, false, b, acts);
    RunKeepsInv(b, acts);
    IdleIsPublished(Run(Step, b, acts).value);
    assert [value][..1] == [value];
  }

  /** An idle producer stays idle. */
  lemma {:induction false} IdleStays<T>(s: State<T>, acts: seq<Act<T>>)
    requires s.p.pc.Idle? && NoSend(acts) && Run(Step, s, acts).Some?
    ensures var n := Run(Step, s, acts).value; n.p.pc.Idle? && n.issued == s.issued
    decreases |acts|
  {
    if acts != [] {
      if !acts[0].PRun? { OthersLeaveProducer(s, acts[0]); }
      IdleStays(Step(s, acts[0]).value, acts[1..]);
    }
  }

  /** A bulk send that has returned has put in the front of its items, as many as fit the
      room it saw; none only if it had none or found the ring full. */
  lemma BulkReturns<T>(s: State<T>, items: seq<T>, acts: seq<Act<T>>)
    requires Inv(s) && s.p.pc.Idle? && NoSend(acts)
    requires Run(Step, PStart(s, Bulk(items)).value, acts).Some?
    requires Run(Step, PStart(s, Bulk(items)).value, acts).value.p.pc.Idle?
    ensures var b := PStart(s, Bulk(items)).value; var n := Run(Step, b, acts).value;
      if n.issued == s.issued then items == [] || Happens(Step, b, acts, LooksFull)
      else n.issued == s.issued + items[..Fitting(items, s.p.head, n.p.cachedTail, s.cap)] && n.mem.head == |n.issued|
  {
    var b := PStart(s, Bulk(items)).value;
    if items == [] {
      IdleStays(b, acts);
    } else {
      var g := Given(s.issued, items, false, true, s.p.head);
      StartKeepsInv(s, Bulk(items), Drain);
      StartsSending(g, false, s, s.p.(todo := items, blocking := false, bulk := true, refused := false));
      RunKeepsSending(g, false, b, acts);
      RunKeepsInv(b, acts);
      IdleIsPublished(Run(Step, b, acts).value);
    }
  }

  // ---- what a receive did -------------------------------------------------------

  predicate NoReceive<T>(acts: seq<Act<T>>)
  {
    forall i :: 0 <= i < |acts| ==> !acts[i].CBegin?
  }

  /** The consumer loads the producer's head and finds the ring empty. */
  ghost predicate LooksEmpty<T>(s: State<T>, a: Act<T>)
  {
    a.CRun? && s.c.pc.Refresh? && s.mem.head == s.c.tail
  }

  /** One value more than `before`. */
  ghost predicate GotOne<T>(before: seq<T>, now: seq<T>)
  {
    |now| == |before| + 1 && before <= now
  }

  /** How far a receive that began after `before` has come; `empty` says that it has
      found the ring empty. */
  ghost predicate Receiving<T>(before: seq<T>, blocking: bool, empty: bool, s: State<T>)
  {
    && s.c.blocking == blocking && !s.c.draining && (s.c.disconnected ==> s.c.pc.Idle?)
    && match s.c.pc
       case Publish => GotOne(before, s.received) && !s.c.unwound
       case Waking(_, _, closing) => !closing && GotOne(before, s.received)
       case Idle =>
         if s.received == before then s.c.disconnected || (empty && !blocking)
         else GotOne(before, s.received) && !s.c.disconnected
       case Access => s.received == before
       case Refresh => s.received == before
       case ReadClosed => s.received == before && empty
       case Reread => s.received == before
       case _ => s.received == before && WaitsForRoom(s.c.pc) && blocking
  }

  lemma TakeKeepsReceiving<T>(before: seq<T>, blocking: bool, empty: bool, s: State<T>, choice: bool)
    requires Receiving(before, blocking, empty, s) && CStep(s, choice).Some?
    requires s.c.pc.Access? || s.c.pc.Publish? || s.c.pc.Waking?
    ensures Receiving(before, blocking, empty, CStep(s, choice).value)
  {
  }

  lemma RetryKeepsReceiving<T>(before: seq<T>, blocking: bool, empty: bool, s: State<T>, choice: bool)
    requires Receiving(before, blocking, empty, s) && CStep(s, choice).Some?
    requires s.c.pc.Spin1? || s.c.pc.Spin2? || s.c.pc.Leave?
    ensures Receiving(before, blocking, empty, CStep(s, choice).value)
  {
  }

  lemma WaitKeepsReceiving<T>(before: seq<T>, blocking: bool, empty: bool, s: State<T>, choice: bool)
    requires Receiving(before, blocking, empty, s) && CStep(s, choice).Some? && WaitsForRoom(s.c.pc)
    ensures Receiving(before, blocking, empty, CStep(s, choice).value)
  {
    if s.c.pc.Spin1? || s.c.pc.Spin2? || s.c.pc.Leave? { RetryKeepsReceiving(before, blocking, empty, s, choice); }
  }

  lemma RecvStepKeeps<T>(before: seq<T>, blocking: bool, empty: bool, s: State<T>, choice: bool)
    requires Receiving(before, blocking, empty, s) && CStep(s, choice).Some?
    ensures Receiving(before, blocking, empty || LooksEmpty(s, CRun(choice)), CStep(s, choice).value)
  {
    if s.c.pc.Access? || s.c.pc.Publish? || s.c.pc.Waking? {
      TakeKeepsReceiving(before, blocking, empty, s, choice);
    } else if WaitsForRoom(s.c.pc) {
      WaitKeepsReceiving(before, blocking, empty, s, choice);
    }
  }

  lemma ProducerLeavesConsumer<T>(s: State<T>, choice: bool)
    requires PStep(s, choice).Some?
    ensures var n := PStep(s, choice).value; n.c == s.c && n.received == s.received
  {
  }

  lemma OthersLeaveConsumer<T>(s: State<T>, a: Act<T>)
    requires Step(s, a).Some? && !a.CBegin? && !a.CRun?
    ensures var n := Step(s, a).value; n.c == s.c.(closing := n.c.closing) && n.received == s.received
  {
    if a.PRun? { ProducerLeavesConsumer(s, a.choice); }
  }

  lemma ActKeepsReceiving<T>(before: seq<T>, blocking: bool, empty: bool, s: State<T>, a: Act<T>)
    requires Receiving(before, blocking, empty, s) && Step(s, a).Some? && !a.CBegin?
    ensures Receiving(before, blocking, empty || LooksEmpty(s, a), Step(s, a).value)
  {
    if a.CRun? { RecvStepKeeps(before, blocking, empty, s, a.choice); } else { OthersLeaveConsumer(s, a); }
  }

  lemma {:induction false} RunKeepsReceiving<T>(before: seq<T>, blocking: bool, empty: bool,
                                                s: State<T>, acts: seq<Act<T>>)
    requires Receiving(before, blocking, empty, s) && Run(Step, s, acts).Some? && NoReceive(acts)
    ensures Receiving(before, blocking, empty || Happens(Step, s, acts, LooksEmpty), Run(Step, s, acts).value)
    decreases |acts|
  {
    if acts != [] {
      ActKeepsReceiving(before, blocking, empty, s, acts[0]);
      RunKeepsReceiving(before, blocking, empty || LooksEmpty(s, acts[0]), Step(s, acts[0]).value, acts[1..]);
    }
  }

  lemma NextIssued<T>(before: seq<T>, n: State<T>)
    requires Inv(n) && before <= n.received
    ensures n.received <= n.issued && (n.c.pc.Idle? ==> n.c.tail == |n.received|)
    ensures n.c.disconnected ==> Closed(n.p.pc) && |n.received| == |n.issued|
    ensures GotOne(before, n.received) ==> n.received == before + [n.issued[|before|]]
  {
    assert n.received == n.issued[..n.c.next];
    if GotOne(before, n.received) { assert n.received == before + [n.received[|before|]]; }
  }

  /** A receive that has returned hands out the next value issued and gives its slot up;
      or the producer is gone, everything it ever issued was received, and it says so;
      or it was not asked to wait and found the ring empty. */
  lemma RecvReturns<T>(s: State<T>, blocking: bool, acts: seq<Act<T>>)
    requires Inv(s) && CStart(s, Recv(blocking)).Some? && NoReceive(acts)
    requires Run(Step, CStart(s, Recv(blocking)).value, acts).Some?
    requires Run(Step, CStart(s, Recv(blocking)).value, acts).value.c.pc.Idle?
    ensures var b := CStart(s, Recv(blocking)).value; var n := Run(Step, b, acts).value;
      if n.received == s.received then
        if n.c.disconnected then Closed(n.p.pc) && |n.received| == |n.issued|
        else !blocking && Happens(Step, b, acts, LooksEmpty)
      else
        |s.received| < |n.issued| && n.received == s.received + [n.issued[|s.received|]]
        && n.c.tail == |n.received| && !n.c.disconnected
  {
    var b := CStart(s, Recv(blocking)).value;
    StartKeepsInv(s, DropProducer, Recv(blocking));
    RunKeepsReceiving(s.received, blocking, false, b, acts);
    RunKeepsInv(b, acts);
    var n := Run(Step, b, acts).value;
    NextIssued(s.received, n);
  }

  // ---- what a drain did ---------------------------------------------------------

  /** The callback unwinds. */
  ghost predicate Unwinds<T>(s: State<T>, a: Act<T>)
  {
    a == CRun(true) && s.c.pc.Access? && s.c.draining
  }

  /** How far a drain that began after `before`, with the head at `seen`, has come. */
  ghost predicate Draining<T>(before: seq<T>, seen: nat, unwound: bool, s: State<T>)
  {
    && s.c.draining && before <= s.received && seen <= s.mem.head
    && match s.c.pc
       case Refresh => s.received == before && !unwound && !s.c.unwound
       case Access => seen <= s.c.target && !unwound && !s.c.unwound
       case Publish => |before| < |s.received| && (s.c.unwound <==> unwound) && (unwound || seen <= s.c.next)
       case Waking(_, _, closing) =>
         && !closing && !s.c.unwound && !unwound && |before| < |s.received| && seen <= s.c.tail
         && s.c.cachedHead == s.c.tail
       case Idle =>
         && (s.c.unwound <==> unwound)
         && if unwound then |before| < |s.received|
            else seen <= s.c.tail && (|before| < |s.received| ==> s.c.cachedHead == s.c.tail)
       case _ => false
  }

  lemma DrainStepKeeps<T>(before: seq<T>, seen: nat, unwound: bool, s: State<T>, choice: bool)
    requires Inv(s) && Draining(before, seen, unwound, s) && CStep(s, choice).Some?
    ensures Draining(before, seen, unwound || Unwinds(s, CRun(choice)), CStep(s, choice).value)
  {
  }

  /** A thread's own steps store into its buffer, not into memory. */
  predicate NoStore<T>(m: Mem<T>, n: Mem<T>)
  {
    n.head == m.head && n.tail == m.tail && n.closed == m.closed
  }

  lemma ProducerStoresNothing<T>(s: State<T>, choice: bool)
    requires PStep(s, choice).Some?
    ensures NoStore(s.mem, PStep(s, choice).value.mem)
  {
    match s.p.pc
    case Waking(g, at, closing) => assert NoStore(s.mem, GiveToken(s.mem, g));
    case _ =>
  }

  lemma ConsumerStoresNothing<T>(s: State<T>, choice: bool)
    requires CStep(s, choice).Some?
    ensures NoStore(s.mem, CStep(s, choice).value.mem)
  {
    match s.c.pc
    case Waking(g, at, closing) => assert NoStore(s.mem, GiveToken(s.mem, g));
    case _ =>
  }

  lemma HeadOnlyGrows<T>(s: State<T>, a: Act<T>)
    requires Inv(s) && Step(s, a).Some?
    ensures s.mem.head <= Step(s, a).value.mem.head
  {
    if a.PRun? { ProducerStoresNothing(s, a.choice); } else if a.CRun? { ConsumerStoresNothing(s, a.choice); }
  }

  lemma ActKeepsDraining<T>(before: seq<T>, seen: nat, unwound: bool, s: State<T>, a: Act<T>)
    requires Inv(s) && Draining(before, seen, unwound, s) && Step(s, a).Some? && !a.CBegin?
    ensures Draining(before, seen, unwound || Unwinds(s, a), Step(s, a).value)
  {
    HeadOnlyGrows(s, a);
    if a.CRun? { DrainStepKeeps(before, seen, unwound, s, a.choice); } else { OthersLeaveConsumer(s, a); }
  }

  lemma {:induction false} RunKeepsDraining<T>(before: seq<T>, seen: nat, unwound: bool, s: State<T>, acts: seq<Act<T>>)
    requires Inv(s) && Draining(before, seen, unwound, s) && Run(Step, s, acts).Some? && NoReceive(acts)
    ensures Draining(before, seen, unwound || Happens(Step, s, acts, Unwinds), Run(Step, s, acts).value)
    decreases |acts|
  {
    if acts != [] {
      StepKeepsInv(s, acts[0]);
      ActKeepsDraining(before, seen, unwound, s, acts[0]);
      RunKeepsDraining(before, seen, unwound || Unwinds(s, acts[0]), Step(s, acts[0]).value, acts[1..]);
    }
  }

  /** A drain that has returned has handed out the next values issued, and everything
      that was visible when it began, unless the callback unwound; then it has handed out
      something and gives up exactly the slots of that. One that did not unwind leaves a
      cache that is no proof of anything. */
  lemma DrainReturns<T>(s: State<T>, acts: seq<Act<T>>)
    requires Inv(s) && s.c.pc.Idle? && NoReceive(acts)
    requires Run(Step, CStart(s, Drain).value, acts).Some? && Run(Step, CStart(s, Drain).value, acts).value.c.pc.Idle?
    ensures var b := CStart(s, Drain).value; var n := Run(Step, b, acts).value;
      && s.received <= n.received <= n.issued && n.c.tail == |n.received|
      && (n.c.unwound <==> Happens(Step, b, acts, Unwinds))
      && if n.c.unwound then |s.received| < |n.received|
         else s.mem.head <= |n.received| && (|s.received| < |n.received| ==> n.c.cachedHead == n.c.tail)
  {
    var b := CStart(s, Drain).value;
    StartKeepsInv(s, DropProducer, Drain);
    RunKeepsDraining(s.received, s.mem.head, false, b, acts);
    RunKeepsInv(b, acts);
    NextIssued(s.received, Run(Step, b, acts).value);
  }

  // ---- what ends a wait -------------------------------------------------------------

  /** There is room, or nobody to make any. */
  predicate SendReady<T>(s: State<T>)
  {
    s.p.head < s.mem.tail + s.cap || s.mem.closed
  }

  /** There is an item, or nobody to send any. */
  predicate ReceiveReady<T>(s: State<T>)
  {
    s.mem.head != s.c.tail || s.mem.closed
  }

  predicate LeavesReady<T>(s: State<T>)
  {
    (s.p.pc.Leave? ==> SendReady(s)) && (s.c.pc.Leave? ==> ReceiveReady(s))
  }

  lemma SendLooksFirst<T>(s: State<T>, choice: bool)
    requires PStep(s, choice).Some?
    ensures var n := PStep(s, choice).value;
      n.p.pc.Leave? ==> SendReady(s) && n.p.head == s.p.head && n.cap == s.cap && n.mem == s.mem
  {
    match s.p.pc
    case Check1 =>
    case Check2 =>
    case Waking(g, at, closing) => assert !WakeStep(g, at, closing, Parked(s.mem, g)).Leave?;
    case Refresh => assert !StartSend(s.cap, s.p.(cachedTail := s.mem.tail)).pc.Leave?;
    case Spin1 => assert !StartSend(s.cap, s.p).pc.Leave?;
    case Spin2 => assert !StartSend(s.cap, s.p).pc.Leave?;
    case Leave => assert !StartSend(s.cap, s.p).pc.Leave?;
    case ReadClosed =>
    case Access =>
    case _ =>
  }

  lemma TryLeadsElsewhere<T>(s: State<T>, choice: bool)
    requires CStep(s, choice).Some?
    requires s.c.pc.Refresh? || s.c.pc.ReadClosed? || s.c.pc.Reread? || s.c.pc.Access? || s.c.pc.Publish?
    ensures !CStep(s, choice).value.c.pc.Leave?
  {
  }

  lemma RetryLeadsElsewhere<T>(s: State<T>, choice: bool)
    requires CStep(s, choice).Some? && (s.c.pc.Spin1? || s.c.pc.Spin2? || s.c.pc.Leave?)
    ensures !CStep(s, choice).value.c.pc.Leave?
  {
    assert !StartRecv(s.c).pc.Leave?;
  }

  lemma ReceiveLooksFirst<T>(s: State<T>, choice: bool)
    requires CStep(s, choice).Some?
    ensures var n := CStep(s, choice).value;
      n.c.pc.Leave? ==> ReceiveReady(s) && n.c.tail == s.c.tail && n.mem == s.mem
  {
    match s.c.pc
    case Check1 =>
    case Check2 =>
    case Waking(g, at, closing) => assert !WakeStep(g, at, closing, Parked(s.mem, g)).Leave?;
    case Refresh => TryLeadsElsewhere(s, choice);
    case ReadClosed => TryLeadsElsewhere(s, choice);
    case Reread => TryLeadsElsewhere(s, choice);
    case Access => TryLeadsElsewhere(s, choice);
    case Publish => TryLeadsElsewhere(s, choice);
    case Spin1 => RetryLeadsElsewhere(s, choice);
    case Spin2 => RetryLeadsElsewhere(s, choice);
    case Leave => RetryLeadsElsewhere(s, choice);
    case _ =>
  }

  lemma ProducerLeavesReady<T>(s: State<T>, choice: bool, n: State<T>)
    requires LeavesReady(s) && PStep(s, choice) == Some(n)
    ensures LeavesReady(n)
  {
    SendLooksFirst(s, choice);
    ProducerStoresNothing(s, choice);
    ProducerLeavesConsumer(s, choice);
    if n.c.pc.Leave? { assert NoStore(s.mem, n.mem) && n.c == s.c; }
  }

  lemma ConsumerLeavesReady<T>(s: State<T>, choice: bool, n: State<T>)
    requires LeavesReady(s) && CStep(s, choice) == Some(n)
    ensures LeavesReady(n)
  {
    ReceiveLooksFirst(s, choice);
    ConsumerStoresNothing(s, choice);
    ConsumerLeavesProducer(s, choice);
    if n.p.pc.Leave? { assert NoStore(s.mem, n.mem) && n.p == s.p && n.cap == s.cap; }
  }

  lemma StepLeavesReady<T>(s: State<T>, a: Act<T>)
    requires Inv(s) && LeavesReady(s) && Step(s, a).Some?
    ensures LeavesReady(Step(s, a).value)
  {
    match a
    case PRun(choice) => ProducerLeavesReady(s, choice, Step(s, a).value);
    case CRun(choice) => ConsumerLeavesReady(s, choice, Step(s, a).value);
    case _ =>
  }

  lemma {:induction false} RunLeavesReady<T>(s: State<T>, acts: seq<Act<T>>)
    requires Inv(s) && LeavesReady(s) && Run(Step, s, acts).Some?
    ensures Inv(Run(Step, s, acts).value) && LeavesReady(Run(Step, s, acts).value)
    decreases |acts|
  {
    if acts != [] {
      StepKeepsInv(s, acts[0]);
      StepLeavesReady(s, acts[0]);
      RunLeavesReady(Step(s, acts[0]).value, acts[1..]);
    }
  }

  /** Neither thread comes out of a wait, whatever token woke it, but to room or an item,
      or to a ring that is closed. */
  lemma WaitEndsReady<T>(s: State<T>, acts: seq<Act<T>>, choice: bool)
    requires Init(s) && Run(Step, s, acts).Some?
    ensures var m, n := Run(Step, s, acts).value, PStep(Run(Step, s, acts).value, choice);
      n.Some? && WaitsForRoom(m.p.pc) && !WaitsForRoom(n.value.p.pc) ==> SendReady(m)
    ensures var m, n := Run(Step, s, acts).value, CStep(Run(Step, s, acts).value, choice);
      n.Some? && WaitsForRoom(m.c.pc) && !WaitsForRoom(n.value.c.pc) ==> ReceiveReady(m)
  {
    InitInv(s);
    RunLeavesReady(s, acts);
  }

  // ---- receives stay open -----------------------------------------------------------

  /** Without an unwound drain the cached head never falls behind the tail. */
  ghost predicate CacheAhead<T>(s: State<T>)
  {
    var c := s.c;
    !c.unwound && if c.draining && (c.pc.Access? || c.pc.Publish?) then true
                  else if c.pc.Access? then c.next < c.cachedHead
                  else c.next <= c.cachedHead
  }

  lemma TakeKeepsCache<T>(s: State<T>, choice: bool)
    requires Inv(s) && CacheAhead(s) && CStep(s, choice).Some? && !Unwinds(s, CRun(choice))
    requires s.c.pc.Access? || s.c.pc.Publish? || s.c.pc.Waking?
    ensures CacheAhead(CStep(s, choice).value)
  {
  }

  lemma WaitKeepsCache<T>(s: State<T>, choice: bool)
    requires Inv(s) && CacheAhead(s) && CStep(s, choice).Some? && WaitsForRoom(s.c.pc)
    ensures CacheAhead(CStep(s, choice).value)
  {
  }

  lemma LookKeepsCache<T>(s: State<T>, choice: bool)
    requires Inv(s) && CacheAhead(s) && CStep(s, choice).Some?
    requires !s.c.pc.Access? && !s.c.pc.Publish? && !s.c.pc.Waking?
    ensures CacheAhead(CStep(s, choice).value)
  {
    if WaitsForRoom(s.c.pc) { WaitKeepsCache(s, choice); }
  }

  lemma StepKeepsCache<T>(s: State<T>, a: Act<T>)
    requires Inv(s) && CacheAhead(s) && Step(s, a).Some? && !Unwinds(s, a)
    ensures CacheAhead(Step(s, a).value)
  {
    match a
    case CRun(choice) =>
      if s.c.pc.Access? || s.c.pc.Publish? || s.c.pc.Waking? { TakeKeepsCache(s, choice); }
      else { LookKeepsCache(s, choice); }
    case CBegin(_) =>
    case _ => OthersLeaveConsumer(s, a);
  }

  lemma {:induction false} RunKeepsCache<T>(s: State<T>, acts: seq<Act<T>>)
    requires Inv(s) && CacheAhead(s) && Run(Step, s, acts).Some? && !Happens(Step, s, acts, Unwinds)
    ensures Inv(Run(Step, s, acts).value) && CacheAhead(Run(Step, s, acts).value)
    decreases |acts|
  {
    if acts != [] {
      StepKeepsInv(s, acts[0]);
      StepKeepsCache(s, acts[0]);
      RunKeepsCache(Step(s, acts[0]).value, acts[1..]);
    }
  }

  /** As long as no drain unwinds, an idle consumer may always receive: a cache unlike the
      tail proves an item. */
  lemma ReceiveStaysOpen<T>(s: State<T>, acts: seq<Act<T>>, blocking: bool)
    requires Init(s) && Run(Step, s, acts).Some? && !Happens(Step, s, acts, Unwinds)
    ensures var n := Run(Step, s, acts).value; n.c.pc.Idle? ==> CStart(n, Recv(blocking)).Some?
  {
    InitInv(s);
    RunKeepsCache(s, acts);
  }
}
