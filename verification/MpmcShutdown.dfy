/** What `Err(Shutdown)` from the many-to-many `recv` means, decided at the moment the
    call begins: `recv` does not look again once the channel is over. */
module MpmcShutdown {
  import opened Bits
  import opened MpmcRouting
  import opened MpmcSteps
  import opened Runs

  /** Everything ever written to the rings of shard `t` has been received. */
  ghost predicate Drained<T>(s: State<T>, t: nat)
  {
    t < |s.lanes| && forall q :: 0 <= q < |s.lanes[t]| ==> s.lanes[t][q].taken == |s.lanes[t][q].sent|
  }

  /** Some ring of shard `t` shows an item: what `has_pending` answers. */
  ghost predicate ShowsItem<T>(s: State<T>, t: nat)
  {
    t < |s.lanes| && exists q :: 0 <= q < |s.lanes[t]| && s.lanes[t][q].head > s.lanes[t][q].taken
  }

  /** Nobody can write to shard `t` any more, and all that was written shows. */
  ghost predicate Settled<T>(s: State<T>, t: nat)
  {
    t < |s.lanes| && Quiet(s.lanes[t], s.prods)
  }

  /** No new call of consumer `t` begins. */
  predicate OneCall<T>(acts: seq<Act<T>>, t: nat)
  {
    forall i :: 0 <= i < |acts| ==> !(acts[i].Receive? && acts[i].t == t)
  }

  // ---- a settled shard stays settled ------------------------------------------

  /** Settled, and the call that is under way began after that. */
  ghost predicate SettledCall<T>(s: State<T>, t: nat)
  {
    && Settled(s, t) && t < |s.cons|
    && (s.cons[t].Look? || s.cons[t].Take? || s.cons[t].Check? || s.cons[t].Ended? ==> s.cons[t].pass.quiet)
  }

  lemma StepKeepsQuiet<T>(s: State<T>, a: Act<T>, t: nat)
    requires Inv(s) && Settled(s, t) && Step(s, a).Some?
    ensures Settled(Step(s, a).value, t)
  {
    if a.ShowHead? {
      assert Link(s, a.t, a.p);
    } else if a.RunConsumer? {
      ConsumerKeepsHeads(s, a.t, a.unwind, t);
    }
  }

  lemma ConsumerKeepsHeads<T>(s: State<T>, u: nat, unwind: bool, t: nat)
    requires Shape(s) && u < |s.lanes| && t < |s.lanes| && ConsumerStep(s, u, unwind).Some?
    ensures var n := ConsumerStep(s, u, unwind).value;
      && n.prods == s.prods && |n.lanes| == |s.lanes| && |n.lanes[t]| == |s.lanes[t]|
      && forall q :: 0 <= q < |s.lanes[t]| ==> n.lanes[t][q].head == s.lanes[t][q].head && n.lanes[t][q].sent == s.lanes[t][q].sent
  {
  }

  /** A pass that begins on a settled shard knows that it is settled. */
  lemma CallStaysSettled<T>(s: State<T>, t: nat, unwind: bool)
    requires Inv(s) && SettledCall(s, t) && t < |s.lanes| && ConsumerStep(s, t, unwind).Some?
    ensures var n := ConsumerStep(s, t, unwind).value;
      && t < |n.cons|
      && (n.cons[t].Look? || n.cons[t].Take? || n.cons[t].Check? || n.cons[t].Ended? ==> n.cons[t].pass.quiet)
  {
  }

  lemma StepKeepsSettled<T>(s: State<T>, a: Act<T>, t: nat)
    requires Inv(s) && SettledCall(s, t) && Step(s, a).Some?
    ensures SettledCall(Step(s, a).value, t)
  {
    StepKeepsQuiet(s, a, t);
    if a.RunConsumer? && a.t == t { CallStaysSettled(s, t, a.unwind); }
  }

  lemma {:induction false} RunKeepsSettled<T>(s: State<T>, acts: seq<Act<T>>, t: nat)
    requires Inv(s) && SettledCall(s, t) && Run(Step, s, acts).Some?
    ensures SettledCall(Run(Step, s, acts).value, t)
    decreases |acts|
  {
    if acts != [] {
      StepKeepsSettled(s, acts[0], t);
      StepKeepsInv(s, acts[0]);
      RunKeepsSettled(Step(s, acts[0]).value, acts[1..], t);
    }
  }

  lemma SettledEndIsDrained<T>(s: State<T>, t: nat)
    requires Inv(s) && SettledCall(s, t) && s.cons[t].Ended?
    ensures Drained(s, t)
  {
    assert LookOk(s.lanes[t], s.prods, s.cons[t]);
    forall q | 0 <= q < |s.lanes[t]|
      ensures s.lanes[t][q].taken == |s.lanes[t][q].sent|
    {
      assert Link(s, t, q);
    }
  }

  // ---- a call that begins with an item in sight returns one --------------------

  /** The scan has not come past ring `q`, which shows an item; or an item was found. */
  ghost predicate WillFind<T>(s: State<T>, t: nat, q: nat)
  {
    && t < |s.cons| && t < |s.lanes| && q < |s.lanes[t]|
    && match s.cons[t]
       case Look(pass) => !pass.kind.Drain? && pass.p <= q && s.lanes[t][q].head > s.lanes[t][q].taken
       case Take(pass, _) => !pass.kind.Drain?
       case CIdle => true
       case CGone => true
       case _ => false
  }

  lemma LookKeepsFinding<T>(s: State<T>, t: nat, q: nat, unwind: bool)
    requires Inv(s) && WillFind(s, t, q) && ConsumerStep(s, t, unwind).Some?
    ensures WillFind(ConsumerStep(s, t, unwind).value, t, q)
  {
    assert LookOk(s.lanes[t], s.prods, s.cons[t]);
  }

  /** Nobody else takes from the shard, and heads only move on. */
  lemma OthersKeepFinding<T>(s: State<T>, a: Act<T>, t: nat, q: nat)
    requires Inv(s) && WillFind(s, t, q) && Step(s, a).Some? && OneCall([a], t)
    requires !(a.RunConsumer? && a.t == t)
    ensures WillFind(Step(s, a).value, t, q)
  {
    assert [a][0] == a;
    OthersTakeNothing(s, a, t);
    HeadsMoveOn(s, a, t, q);
  }

  lemma HeadsMoveOn<T>(s: State<T>, a: Act<T>, t: nat, q: nat)
    requires Shape(s) && Step(s, a).Some? && t < |s.lanes| && q < |s.lanes[t]|
    ensures var n := Step(s, a).value; t < |n.lanes| && q < |n.lanes[t]| && n.lanes[t][q].head >= s.lanes[t][q].head
  {
    if a.RunProducer? { ProducerMovesOneLane(s, a.p, t); }
  }

  lemma StepKeepsFinding<T>(s: State<T>, a: Act<T>, t: nat, q: nat)
    requires Inv(s) && WillFind(s, t, q) && Step(s, a).Some? && OneCall([a], t)
    ensures WillFind(Step(s, a).value, t, q)
  {
    if a.RunConsumer? && a.t == t { LookKeepsFinding(s, t, q, a.unwind); } else { OthersKeepFinding(s, a, t, q); }
  }

  lemma {:induction false} RunKeepsFinding<T>(s: State<T>, acts: seq<Act<T>>, t: nat, q: nat)
    requires Inv(s) && WillFind(s, t, q) && Run(Step, s, acts).Some? && OneCall(acts, t)
    ensures WillFind(Run(Step, s, acts).value, t, q)
    decreases |acts|
  {
    if acts != [] {
      assert [acts[0]][0] == acts[0];
      StepKeepsFinding(s, acts[0], t, q);
      StepKeepsInv(s, acts[0]);
      RunKeepsFinding(Step(s, acts[0]).value, acts[1..], t, q);
    }
  }

  // ---- otherwise an item can slip in after the last look ------------------------

  /** With nothing in sight the call looks at every ring and goes to its check. */
  lemma {:induction false} LooksFindNothing<T>(s: State<T>, t: nat) returns (acts: seq<Act<T>>, n: State<T>)
    requires Inv(s) && t < |s.lanes| && !ShowsItem(s, t)
    requires s.cons[t].Look? && s.cons[t].pass.kind.Recv? && !s.cons[t].pass.progress
    ensures OneCall(acts, t) && Run(Step, s, acts) == Some(n) && Inv(n)
    ensures |n.cons| == |s.cons| && n == s.(cons := n.cons) && n.cons[t].Check?
    decreases |s.prods| - s.cons[t].pass.p
  {
    assert LookOk(s.lanes[t], s.prods, s.cons[t]);
    assert Link(s, t, s.cons[t].pass.p);
    var a: Act<T> := RunConsumer(t, false);
    var m := Step(s, a).value;
    StepKeepsInv(s, a);
    var rest: seq<Act<T>> := [];
    n := m;
    if m.cons[t].Look? { rest, n := LooksFindNothing(m, t); }
    acts := [a] + rest;
    assert acts[1..] == rest;
  }

  /** What a producer's own acts leave alone while it gets ready to send. */
  ghost predicate Aside<T>(s: State<T>, n: State<T>, t: nat, p: nat)
  {
    && Inv(n) && |n.lanes| == |s.lanes| && |n.prods| == |s.prods| && n.cap == s.cap
    && t < |n.lanes| && n.lanes[t] == s.lanes[t] && n.cons == s.cons
    && p < |n.prods|
  }

  /** One step of writing to another shard: the next slot, or the end of the call. */
  lemma WriteMoves<T>(s: State<T>, t: nat, p: nat)
    requires Inv(s) && t < |s.lanes| && p < |s.prods| && s.prods[p].Write? && s.prods[p].shard != t
    ensures Step(s, RunProducer(p)).Some?
    ensures var n, c := Step(s, RunProducer(p)).value, s.prods[p];
      && Aside(s, n, t, p)
      && (if c.i < c.take then n.prods[p] == c.(i := c.i + 1)
          else n.prods[p].PIdle? && |n.cursors| == |n.prods| && n.cursors[p] == (c.shard + 1) % |s.lanes|)
  {
    var c := s.prods[p];
    assert ScanOk(s, p) && Link(s, c.shard, p);
    if c.i < c.take { WriteSlotLink(s.lanes[c.shard][p], c, c.shard, s.cap); }
    StepKeepsInv(s, RunProducer(p));
  }

  /** A producer finishes writing to another shard. */
  lemma {:induction false} FinishWrite<T>(s: State<T>, t: nat, p: nat) returns (acts: seq<Act<T>>, n: State<T>)
    requires Inv(s) && t < |s.lanes| && p < |s.prods| && s.prods[p].Write? && s.prods[p].shard != t
    ensures OneCall(acts, t) && Run(Step, s, acts) == Some(n) && Aside(s, n, t, p)
    ensures n.prods[p].PIdle? && n.cursors[p] == (s.prods[p].shard + 1) % |s.lanes|
    decreases s.prods[p].take - s.prods[p].i
  {
    WriteMoves(s, t, p);
    var a: Act<T> := RunProducer(p);
    var m := Step(s, a).value;
    var rest: seq<Act<T>> := [];
    n := m;
    if s.prods[p].i < s.prods[p].take { rest, n := FinishWrite(m, t, p); }
    acts := [a] + rest;
    assert acts[1..] == rest;
  }

  /** Ring `p` of shard `t` is empty, and its producer can see that. */
  ghost predicate HasRoom<T>(s: State<T>, t: nat, p: nat)
  {
    && t < |s.lanes| && p < |s.lanes[t]| && s.cap >= 1
    && s.lanes[t][p].tail == s.lanes[t][p].taken == |s.lanes[t][p].sent|
  }

  /** One look of a scan: to the next shard, to a place to write, or refused. Shard `t`
      is not passed over if it has room. */
  lemma ScanMoves<T>(s: State<T>, t: nat, p: nat)
    requires Inv(s) && t < |s.lanes| && p < |s.prods| && s.prods[p].Scan?
    ensures Step(s, RunProducer(p)) == Some(ScanStep(s, p)) && s.prods[p].start < |s.lanes| && s.prods[p].j < |s.lanes|
    ensures var n, c := ScanStep(s, p), s.prods[p];
      && Aside(s, n, t, p) && n.lanes == s.lanes
      && (n.prods[p].Scan? ==> n.prods[p].start == c.start && n.prods[p].j == c.j + 1)
      && (n.prods[p].Write? ==> n.prods[p].i == 0 && n.prods[p].shard == Visit(c.start, c.j, |s.lanes|))
      && (n.prods[p].Scan? || n.prods[p].Write? || n.prods[p].PIdle?)
      && (HasRoom(s, t, p) && Visit(c.start, c.j, |s.lanes|) == t ==> n.prods[p].Write?)
  {
    assert ScanOk(s, p) && Link(s, Visit(s.prods[p].start, s.prods[p].j, |s.lanes|), p);
    StepKeepsInv(s, RunProducer(p));
  }

  /** A scan ends: with a place to write, or refused. If shard `t` has room and is
      still ahead, there is a place, no later than there. */
  lemma {:induction false} FinishScan<T>(s: State<T>, t: nat, p: nat) returns (acts: seq<Act<T>>, n: State<T>, j: nat)
    requires Inv(s) && t < |s.lanes| && p < |s.prods| && s.prods[p].Scan?
    ensures OneCall(acts, t) && Run(Step, s, acts) == Some(n) && Aside(s, n, t, p) && n.lanes == s.lanes
    ensures n.prods[p].PIdle? || (n.prods[p].Write? && n.prods[p].i == 0)
    ensures n.prods[p].Write? ==> s.prods[p].j <= j && n.prods[p].shard == Visit(s.prods[p].start, j, |s.lanes|)
    ensures s.prods[p].start < |s.lanes|
    ensures HasRoom(s, t, p) && s.prods[p].j <= Turn(s.prods[p].start, t, |s.lanes|) ==>
              n.prods[p].Write? && j <= Turn(s.prods[p].start, t, |s.lanes|)
    decreases |s.lanes| - s.prods[p].j
  {
    ScanMoves(s, t, p);
    var a: Act<T> := RunProducer(p);
    var m := ScanStep(s, p);
    var rest: seq<Act<T>> := [];
    n, j := m, s.prods[p].j;
    if m.prods[p].Scan? { rest, n, j := FinishScan(m, t, p); }
    acts := [a] + rest;
    assert acts[1..] == rest;
  }

  /** How the end of a send elsewhere brings the rotation closer to shard `t`. */
  lemma TurnComesCloser(start: nat, t: nat, j: nat, n: nat)
    requires start < n && t < n && j <= Turn(start, t, n) && Visit(start, j, n) != t
    ensures var c := (Visit(start, j, n) + 1) % n; c < n && Turn(c, t, n) < Turn(start, t, n)
  {
    var k := Turn(start, t, n);
    if start + j < n { ModUnique(start + j, n, 0, start + j); } else { ModUnique(start + j, n, 1, start + j - n); }
    var v := Visit(start, j, n);
    if v + 1 < n { ModUnique(v + 1, n, 0, v + 1); } else { ModUnique(v + 1, n, 1, 0); }
  }

  lemma WriteHereMoves<T>(s: State<T>, t: nat, p: nat)
    requires Shape(s) && t < |s.lanes| && p < |s.prods| && Link(s, t, p)
    requires s.prods[p].Write? && s.prods[p].shard == t && s.prods[p].i == 0 < s.prods[p].take
    ensures WriteStep(s, p).Some?
    ensures var n := WriteStep(s, p).value;
      && n.cons == s.cons && |n.lanes| == |s.lanes| && |n.lanes[t]| == |s.lanes[t]|
      && n.lanes[t][p].taken == s.lanes[t][p].taken && |n.lanes[t][p].sent| == |s.lanes[t][p].sent| + 1
  {
    WriteSlotLink(s.lanes[t][p], s.prods[p], t, s.cap);
  }

  /** A producer about to write to shard `t` writes. */
  lemma WriteHere<T>(s: State<T>, t: nat, p: nat) returns (n: State<T>)
    requires Inv(s) && t < |s.lanes| && p < |s.prods|
    requires s.prods[p].Write? && s.prods[p].shard == t && s.prods[p].i == 0
    ensures Step(s, RunProducer(p)) == Some(n) && Inv(n) && n.cons == s.cons && |n.lanes| == |s.lanes| && p < |n.lanes[t]|
    ensures n.lanes[t][p].taken == s.lanes[t][p].taken && |n.lanes[t][p].sent| == |s.lanes[t][p].sent| + 1
  {
    assert ScanOk(s, p) && Link(s, t, p);
    WriteHereMoves(s, t, p);
    n := WriteStep(s, p).value;
    assert Step(s, RunProducer(p)) == Some(n);
    StepKeepsInv(s, RunProducer(p));
  }

  /** An idle producer sends: its scan picks a place no later than shard `t`. */
  lemma SendPicks<T>(s: State<T>, t: nat, p: nat, v: T) returns (acts: seq<Act<T>>, n: State<T>, j: nat)
    requires Inv(s) && HasRoom(s, t, p) && p < |s.prods| && s.prods[p].PIdle?
    ensures s.cursors[p] < |s.lanes|
    ensures OneCall(acts, t) && Run(Step, s, acts) == Some(n) && Aside(s, n, t, p)
    ensures n.prods[p].Write? && n.prods[p].i == 0
    ensures j <= Turn(s.cursors[p], t, |s.lanes|) && n.prods[p].shard == Visit(s.cursors[p], j, |s.lanes|)
  {
    assert ScanOk(s, p);
    ModUnique(s.cursors[p], |s.lanes|, 0, s.cursors[p]);
    var send: Act<T> := Act.Send(p, [v], true);
    var a := Step(s, send).value;
    StepKeepsInv(s, send);
    var xs;
    xs, n, j := FinishScan(a, t, p);
    acts := [send] + xs;
    assert acts[1..] == xs;
  }

  ghost function Distance<T>(s: State<T>, t: nat, p: nat): nat
  {
    if p < |s.cursors| && s.cursors[p] < |s.lanes| && t < |s.lanes| then Turn(s.cursors[p], t, |s.lanes|) else 0
  }

  /** Shard `t` has an item of producer `p` that nobody has received. */
  ghost predicate Unreceived<T>(s: State<T>, t: nat, p: nat)
  {
    t < |s.lanes| && p < |s.lanes[t]| && s.lanes[t][p].taken < |s.lanes[t][p].sent|
  }

  lemma Then<T>(s: State<T>, xs: seq<Act<T>>, m: State<T>, ys: seq<Act<T>>, n: State<T>, t: nat)
    requires Run(Step, s, xs) == Some(m) && Run(Step, m, ys) == Some(n) && OneCall(xs, t) && OneCall(ys, t)
    ensures Run(Step, s, xs + ys) == Some(n) && OneCall(xs + ys, t)
  {
    Compose(Step, s, xs, ys);
  }

  /** The send that was picked for another shard is finished; the rotation is closer. */
  lemma SendAway<T>(s: State<T>, t: nat, p: nat, start: nat, j: nat) returns (acts: seq<Act<T>>, n: State<T>)
    requires Inv(s) && HasRoom(s, t, p) && p < |s.prods| && s.prods[p].Write? && s.prods[p].shard != t
    requires start < |s.lanes| && j <= Turn(start, t, |s.lanes|) && s.prods[p].shard == Visit(start, j, |s.lanes|)
    ensures OneCall(acts, t) && Run(Step, s, acts) == Some(n) && Aside(s, n, t, p) && HasRoom(n, t, p)
    ensures n.prods[p].PIdle? && Distance(n, t, p) < Turn(start, t, |s.lanes|)
  {
    acts, n := FinishWrite(s, t, p);
    TurnComesCloser(start, t, j, |s.lanes|);
  }

  lemma SendHere<T>(s: State<T>, t: nat, p: nat) returns (acts: seq<Act<T>>, n: State<T>)
    requires Inv(s) && HasRoom(s, t, p) && p < |s.prods| && s.prods[p].Write? && s.prods[p].shard == t && s.prods[p].i == 0
    ensures OneCall(acts, t) && Run(Step, s, acts) == Some(n) && Inv(n) && n.cons == s.cons && |n.lanes| == |s.lanes|
    ensures Unreceived(n, t, p)
  {
    n := WriteHere(s, t, p);
    acts := [RunProducer(p)];
    assert acts[1..] == [];
  }

  /** One send: to shard `t`, or elsewhere and the rotation is closer. */
  lemma SendOnce<T>(s: State<T>, t: nat, p: nat, v: T) returns (acts: seq<Act<T>>, n: State<T>, here: bool)
    requires Inv(s) && HasRoom(s, t, p) && p < |s.prods| && s.prods[p].PIdle?
    ensures OneCall(acts, t) && Run(Step, s, acts) == Some(n) && Inv(n) && n.cons == s.cons && |n.lanes| == |s.lanes|
    ensures here ==> Unreceived(n, t, p)
    ensures !here ==> HasRoom(n, t, p) && p < |n.prods| && n.prods[p].PIdle? && Distance(n, t, p) < Distance(s, t, p)
  {
    var xs, b, j := SendPicks(s, t, p, v);
    here := b.prods[p].shard == t;
    var ys;
    if here { ys, n := SendHere(b, t, p); } else { ys, n := SendAway(b, t, p, s.cursors[p], j); }
    acts := xs + ys;
    Then(s, xs, b, ys, n, t);
  }

  /** Sending one item after another, an idle producer comes to write to shard `t`. */
  lemma {:induction false} SendUntil<T>(s: State<T>, t: nat, p: nat, v: T) returns (acts: seq<Act<T>>, n: State<T>)
    requires Inv(s) && HasRoom(s, t, p) && p < |s.prods| && s.prods[p].PIdle?
    ensures OneCall(acts, t) && Run(Step, s, acts) == Some(n) && Inv(n) && n.cons == s.cons && Unreceived(n, t, p)
    decreases Distance(s, t, p)
  {
    var here, m;
    acts, m, here := SendOnce(s, t, p, v);
    n := m;
    if !here {
      var xs, ys := acts, [];
      ys, n := SendUntil(m, t, p, v);
      Then(s, xs, m, ys, n, t);
      acts := xs + ys;
    }
  }

  /** A live producer, wherever it is in its code, comes to write to a shard whose
      consumer has just found nothing. */
  lemma SlipIn<T>(s: State<T>, t: nat, p: nat, v: T) returns (acts: seq<Act<T>>, n: State<T>)
    requires Inv(s) && t < |s.lanes| && p < |s.prods| && !s.prods[p].PGone? && s.cons[t].Check?
    requires s.lanes[t][p].taken == s.lanes[t][p].head == |s.lanes[t][p].sent|
    ensures OneCall(acts, t) && Run(Step, s, acts) == Some(n) && Inv(n) && n.cons == s.cons && Unreceived(n, t, p)
  {
    assert Link(s, t, p) && ScanOk(s, p);
    var show: Act<T> := ShowTail(t, p, s.lanes[t][p].tailStored);
    var a := Step(s, show).value;
    StepKeepsInv(s, show);
    assert a.lanes[t][p] == s.lanes[t][p].(tail := s.lanes[t][p].tailStored) && a.cons == s.cons && a.prods == s.prods;
    assert HasRoom(a, t, p);
    var xs, b := GetReady(a, t, p);
    acts, n := [show] + xs, b;
    assert acts[1..] == xs;
    if !Unreceived(b, t, p) {
      var ys;
      ys, n := SendUntil(b, t, p, v);
      Then(s, acts, b, ys, n, t);
      acts := acts + ys;
    }
  }

  /** The call that the producer is in comes to its end, or to shard `t`. */
  lemma GetReady<T>(s: State<T>, t: nat, p: nat) returns (acts: seq<Act<T>>, n: State<T>)
    requires Inv(s) && HasRoom(s, t, p) && p < |s.prods| && !s.prods[p].PGone?
    ensures OneCall(acts, t) && Run(Step, s, acts) == Some(n) && Inv(n) && n.cons == s.cons && p < |n.prods|
    ensures Unreceived(n, t, p) || (HasRoom(n, t, p) && n.prods[p].PIdle?)
  {
    assert Link(s, t, p) && ScanOk(s, p);
    var j;
    acts, n := [], s;
    if s.prods[p].Scan? { acts, n, j := FinishScan(s, t, p); }
    if n.prods[p].Write? {
      assert ScanOk(n, p) && Link(n, t, p);
      var m, xs := n, acts;
      var ys: seq<Act<T>> := [RunProducer(p)];
      assert ys[1..] == [];
      if n.prods[p].shard == t {
        n := WriteHere(m, t, p);
      } else {
        ys, n := FinishWrite(m, t, p);
      }
      Then(s, xs, m, ys, n, t);
      acts := xs + ys;
    }
  }

  // ---- the exact condition ------------------------------------------------------

  /** The call that consumer `t` begins in `s`, over `acts`, ended in `Err(Shutdown)`. */
  ghost predicate EndsCall<T>(s: State<T>, acts: seq<Act<T>>, t: nat)
  {
    && OneCall(acts, t) && Step(s, Receive(t, Recv)).Some?
    && Run(Step, Step(s, Receive(t, Recv)).value, acts).Some?
    && var n := Run(Step, Step(s, Receive(t, Recv)).value, acts).value;
       t < |n.cons| && n.cons[t].Ended?
  }

  ghost function EndOf<T>(s: State<T>, acts: seq<Act<T>>, t: nat): State<T>
    requires EndsCall(s, acts, t)
  {
    Run(Step, Step(s, Receive(t, Recv)).value, acts).value
  }

  /** A shard that is settled, or shows an item, when the call begins: `Err(Shutdown)`
      comes only with the shard drained. */
  lemma EndIsDrained<T>(s: State<T>, acts: seq<Act<T>>, t: nat)
    requires Inv(s) && EndsCall(s, acts, t) && (ShowsItem(s, t) || Settled(s, t))
    ensures Drained(EndOf(s, acts, t), t)
  {
    var b := Step(s, Receive(t, Recv)).value;
    StepKeepsInv(s, Receive(t, Recv));
    RunKeepsInv(b, acts);
    if Settled(s, t) {
      RunKeepsSettled(b, acts, t);
      SettledEndIsDrained(EndOf(s, acts, t), t);
    } else {
      var q: nat :| q < |s.lanes[t]| && s.lanes[t][q].head > s.lanes[t][q].taken;
      assert WillFind(b, t, q);
      RunKeepsFinding(b, acts, t, q);
    }
  }

  lemma RaiseFlag<T>(s: State<T>, t: nat) returns (acts: seq<Act<T>>, n: State<T>)
    requires Shape(s) && t < |s.cons| && s.cons[t].Check?
    ensures OneCall(acts, t) && Run(Step, s, acts) == Some(n) && n.lanes == s.lanes && t < |n.cons| && n.cons[t].Ended?
  {
    var xs: seq<Act<T>>, ys: seq<Act<T>> := [Act.Signal], [RunConsumer(t, false)];
    assert xs[1..] == [] && ys[1..] == [];
    var m := Step(s, Act.Signal).value;
    n := Step(m, RunConsumer(t, false)).value;
    Then(s, xs, m, ys, n, t);
    acts := xs + ys;
  }

  /** Otherwise there is a run of that very call that leaves an item: the call finds
      nothing, an item shows up or is written behind it, and the channel ends. */
  lemma MayLeaveAnItem<T>(s: State<T>, t: nat, v: T) returns (acts: seq<Act<T>>)
    requires Inv(s) && t < |s.lanes| && Step(s, Receive(t, Recv)).Some?
    requires !ShowsItem(s, t) && !Settled(s, t)
    ensures EndsCall(s, acts, t) && !Drained(EndOf(s, acts, t), t)
  {
    var a := Step(s, Receive(t, Recv)).value;
    StepKeepsInv(s, Receive(t, Recv));
    var xs, b := LooksFindNothing(a, t);
    assert b.lanes == s.lanes && b.prods == s.prods;
    forall q: nat | q < |s.lanes[t]|
      ensures s.lanes[t][q].taken == s.lanes[t][q].head <= |s.lanes[t][q].sent|
    {
      assert Link(s, t, q);
    }
    var ys: seq<Act<T>>, c := [], b;
    if q: nat :| q < |s.lanes[t]| && s.lanes[t][q].head != |s.lanes[t][q].sent| {
      assert Unreceived(c, t, q);
    } else {
      var p: nat :| p < |s.prods| && !s.prods[p].PGone?;
      ys, c := SlipIn(b, t, p, v);
      assert Unreceived(c, t, p);
    }
    var zs, n := RaiseFlag(c, t);
    Then(a, xs, b, ys, c, t);
    Then(a, xs + ys, c, zs, n, t);
    acts := xs + ys + zs;
  }

  /** `Err(Shutdown)` from a `recv` means that its shard is drained, in every run of
      that call, if and only if when the call begins the shard shows an item (and then
      the call returns one) or nobody can write to it any more and all that was written
      shows. */
  lemma EndMeansDrainedIff<T(!new)>(s: State<T>, t: nat, v: T)
    requires Inv(s) && t < |s.lanes| && Step(s, Receive(t, Recv)).Some?
    ensures (forall acts: seq<Act<T>> :: EndsCall(s, acts, t) ==> Drained(EndOf(s, acts, t), t))
            <==> ShowsItem(s, t) || Settled(s, t)
  {
    if ShowsItem(s, t) || Settled(s, t) {
      forall acts: seq<Act<T>> | EndsCall(s, acts, t)
        ensures Drained(EndOf(s, acts, t), t)
      {
        EndIsDrained(s, acts, t);
      }
    } else {
      var acts := MayLeaveAnItem(s, t, v);
      assert EndsCall(s, acts, t) && !Drained(EndOf(s, acts, t), t);
    }
  }
}
