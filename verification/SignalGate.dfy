/** The signal set under concurrency: any number of producers releasing any gates,
    waking only when their own `fetch_or` flipped a gate from shut to open, and one
    consumer that waits for any or all gates of a mask, or for any gate at all.
    Gates may be shut at any time, by the consumer or anyone else.

    A release is a read-modify-write and drains the producer's store buffer, so
    gates need no buffers here; the probes of `wake()` are still separate steps. */
module SignalGate {
  import opened Bits
  import opened Runs
  import SignalSet

  const CHUNK: nat := 64

  datatype Wake = T3a | Fence | T3b | Unpark

  datatype ProdPc = Quiet | Waking(at: Wake)

  /** `AnyOf` and `AllOf` load chunk 0 once; `AnyChunk` loads each chunk in turn. */
  datatype Wait = AnyOf(mask: set<nat>) | AllOf(mask: set<nat>) | AnyChunk

  /** `Check(c)` has found every chunk below `c` shut, for a chunk scan. */
  datatype ConsPc = Away | Spin(chunk: nat) | Announce | AnnFence | Check(chunk: nat) | Park | Leave

  /** `open` is the set of open gates; gate `g` lives in chunk `g / 64`. */
  datatype State = State(chunks: nat, open: set<nat>, parked: bool, token: bool,
                         wait: Wait, cons: ConsPc, prods: seq<ProdPc>)

  datatype Act =
    | Release(p: nat, gate: nat)
    | RunProducer(p: nat)
    | Lock(gates: set<nat>)
    | Acquire(wait: Wait)
    | RunConsumer(choice: bool)

  ghost predicate Init(s: State)
  {
    && s.open == {} && !s.parked && !s.token && s.cons == Away
    && forall p :: 0 <= p < |s.prods| ==> s.prods[p] == Quiet
  }

  /** What a load of chunk 0 says to a mask wait. */
  ghost predicate MaskHolds(w: Wait, open: set<nat>)
  {
    match w
    case AnyOf(mask) => exists g :: g in mask && g < CHUNK && g in open
    case AllOf(mask) => forall g :: g in mask && g < CHUNK ==> g in open
    case AnyChunk => false
  }

  ghost predicate ChunkOpen(open: set<nat>, c: nat)
  {
    exists g :: g in open && g / CHUNK == c
  }

  /** What the wait is for. */
  ghost predicate Holds(w: Wait, open: set<nat>, chunks: nat)
  {
    if w.AnyChunk? then exists c: nat :: c < chunks && ChunkOpen(open, c) else MaskHolds(w, open)
  }

  ghost function ConsumerStep(s: State, choice: bool): Option<State>
  {
    match s.cons
    case Spin(c) =>
      if !s.wait.AnyChunk? then
        Some(s.(cons := if MaskHolds(s.wait, s.open) then Away else if choice then Spin(0) else Announce))
      else if c < s.chunks then Some(s.(cons := if ChunkOpen(s.open, c) then Away else Spin(c + 1)))
      else Some(s.(cons := if choice then Spin(0) else Announce))
    case Announce => Some(s.(parked := true, cons := AnnFence))
    case AnnFence => Some(s.(cons := Check(0)))
    case Check(c) =>
      if !s.wait.AnyChunk? then Some(s.(cons := if MaskHolds(s.wait, s.open) then Leave else Park))
      else if c < s.chunks then Some(s.(cons := if ChunkOpen(s.open, c) then Leave else Check(c + 1)))
      else Some(s.(cons := Park))
    case Park =>
      if s.token then Some(s.(token := false, cons := Check(0)))
      else if choice then Some(s.(cons := Check(0)))
      else None
    case Leave => Some(s.(parked := false, cons := Away))
    case Away => None
  }

  ghost function ProducerStep(s: State, p: nat): Option<State>
    requires p < |s.prods|
  {
    match s.prods[p]
    case Quiet => None
    case Waking(at) =>
      match at
      case T3a => Some(s.(prods := s.prods[p := Waking(if s.parked then Unpark else Fence)]))
      case Fence => Some(s.(prods := s.prods[p := Waking(T3b)]))
      case T3b => Some(s.(prods := s.prods[p := if s.parked then Waking(Unpark) else Quiet]))
      case Unpark => Some(s.(token := true, prods := s.prods[p := Quiet]))
  }

  ghost function Step(s: State, a: Act): Option<State>
  {
    match a
    case Release(p, g) =>
      if p < |s.prods| && s.prods[p].Quiet? && g / CHUNK < s.chunks then
        Some(s.(open := s.open + {g}, prods := if g in s.open then s.prods else s.prods[p := Waking(T3a)]))
      else None
    case RunProducer(p) => if p < |s.prods| then ProducerStep(s, p) else None
    case Lock(gates) => Some(s.(open := s.open - gates))
    case Acquire(w) => if s.cons.Away? then Some(s.(wait := w, cons := Spin(0))) else None
    case RunConsumer(choice) => ConsumerStep(s, choice)
  }

  // ---- invariant --------------------------------------------------------

  predicate Announced(pc: ConsPc)
  {
    pc.AnnFence? || pc.Check? || pc.Park? || pc.Leave?
  }

  ghost predicate SomeoneOwes(s: State)
  {
    exists p :: 0 <= p < |s.prods| && s.prods[p].Waking?
  }

  ghost predicate Inv(s: State)
  {
    && (s.parked <==> Announced(s.cons))
    && (s.cons.Check? && !s.token && s.wait.AnyChunk? ==>
          forall c: nat :: c < s.cons.chunk && c < s.chunks && ChunkOpen(s.open, c) ==> SomeoneOwes(s))
    && (s.cons.Park? && !s.token && Holds(s.wait, s.open, s.chunks) ==> SomeoneOwes(s))
  }

  lemma ReleaseKeepsInv(s: State, p: nat, g: nat)
    requires Inv(s) && Step(s, Release(p, g)).Some?
    ensures Inv(Step(s, Release(p, g)).value)
  {
    var n := Step(s, Release(p, g)).value;
    if g in s.open { assert n.open == s.open; } else { assert n.prods[p].Waking?; }
  }

  lemma ProducerKeepsInv(s: State, p: nat)
    requires Inv(s) && p < |s.prods| && ProducerStep(s, p).Some?
    ensures Inv(ProducerStep(s, p).value)
  {
    var n := ProducerStep(s, p).value;
    if SomeoneOwes(s) {
      var q :| 0 <= q < |s.prods| && s.prods[q].Waking?;
      if n.prods[q].Waking? { assert SomeoneOwes(n); }
    }
    if n.prods[p].Waking? { assert SomeoneOwes(n); }
  }

  lemma ConsumerKeepsInv(s: State, choice: bool)
    requires Inv(s) && ConsumerStep(s, choice).Some?
    ensures Inv(ConsumerStep(s, choice).value)
  {
    assert SomeoneOwes(ConsumerStep(s, choice).value) <==> SomeoneOwes(s);
  }

  /** Shutting gates makes no wait true, so it needs no wake. */
  lemma LockRaisesNothing(w: Wait, open: set<nat>, gates: set<nat>, chunks: nat)
    ensures Holds(w, open - gates, chunks) ==> Holds(w, open, chunks)
    ensures forall c: nat :: ChunkOpen(open - gates, c) ==> ChunkOpen(open, c)
  {
    forall c: nat | ChunkOpen(open - gates, c)
      ensures ChunkOpen(open, c)
    {
    }
    assert MaskHolds(w, open - gates) ==> MaskHolds(w, open);
  }

  lemma LockKeepsInv(s: State, gates: set<nat>)
    requires Inv(s)
    ensures Inv(s.(open := s.open - gates))
  {
    assert SomeoneOwes(s.(open := s.open - gates)) <==> SomeoneOwes(s);
    LockRaisesNothing(s.wait, s.open, gates, s.chunks);
  }

  lemma StepKeepsInv(s: State, a: Act)
    requires Inv(s) && Step(s, a).Some?
    ensures Inv(Step(s, a).value)
  {
    match a
    case Release(p, g) => ReleaseKeepsInv(s, p, g);
    case RunProducer(p) => ProducerKeepsInv(s, p);
    case RunConsumer(choice) => ConsumerKeepsInv(s, choice);
    case Lock(gates) => LockKeepsInv(s, gates);
    case Acquire(_) =>
  }

  lemma InitInv(s: State)
    requires Init(s)
    ensures Inv(s)
  {
  }

  lemma {:induction false} RunKeepsInv(s: State, acts: seq<Act>)
    requires Inv(s) && Run(Step, s, acts).Some?
    ensures Inv(Run(Step, s, acts).value)
    decreases |acts|
  {
    if acts != [] {
      StepKeepsInv(s, acts[0]);
      RunKeepsInv(Step(s, acts[0]).value, acts[1..]);
    }
  }

  /** Waking on the edge alone suffices: in every state of every run, a consumer that
      is parked without a token while its wait holds is owed a wake by a producer
      that flipped a gate. */
  lemma EdgeWakesSuffice(s: State, acts: seq<Act>)
    requires Init(s) && Run(Step, s, acts).Some?
    ensures var n := Run(Step, s, acts).value;
      n.cons.Park? && !n.token && Holds(n.wait, n.open, n.chunks) ==> SomeoneOwes(n)
  {
    InitInv(s);
    RunKeepsInv(s, acts);
  }

  function Rank(at: Wake): nat
  {
    match at case T3a => 4 case Fence => 3 case T3b => 2 case Unpark => 1
  }

  /** One step of the producer that owes the wake: it is never stuck, and it sets the
      token or comes closer. */
  lemma ComesCloser(s: State, p: nat)
    requires Inv(s) && s.cons.Park? && !s.token && p < |s.prods| && s.prods[p].Waking?
    ensures Rank(s.prods[p].at) <= 4 && ProducerStep(s, p).Some?
    ensures var n := ProducerStep(s, p).value;
      n.token || (n.cons.Park? && n.prods[p].Waking? && Rank(n.prods[p].at) < Rank(s.prods[p].at))
  {
  }

  /** Acts of anyone but the consumer's own waiting. */
  predicate OthersOnly(acts: seq<Act>)
  {
    forall i :: 0 <= i < |acts| ==> acts[i].Release? || acts[i].RunProducer? || acts[i].Lock?
  }

  function OwnSteps(acts: seq<Act>, p: nat): nat
  {
    if acts == [] then 0 else (if acts[0] == RunProducer(p) then 1 else 0) + OwnSteps(acts[1..], p)
  }

  lemma {:induction false} TokenStays(s: State, acts: seq<Act>)
    requires OthersOnly(acts) && Run(Step, s, acts).Some? && s.token
    ensures Run(Step, s, acts).value.token
    decreases |acts|
  {
    if acts != [] { TokenStays(Step(s, acts[0]).value, acts[1..]); }
  }

  /** A parked consumer that is owed a wake has its token within four own steps of the
      producer that owes it, whatever gates are released and shut meanwhile. */
  lemma {:induction false} ConsumerIsWoken(s: State, acts: seq<Act>, p: nat)
    requires Inv(s) && s.cons.Park? && !s.token && p < |s.prods| && s.prods[p].Waking?
    requires OthersOnly(acts) && Run(Step, s, acts).Some? && OwnSteps(acts, p) >= Rank(s.prods[p].at)
    ensures Rank(s.prods[p].at) <= 4 && Run(Step, s, acts).value.token
    decreases |acts|
  {
    var n := Step(s, acts[0]).value;
    StepKeepsInv(s, acts[0]);
    if acts[0] == RunProducer(p) { ComesCloser(s, p); }
    if n.token { TokenStays(n, acts[1..]); } else { ConsumerIsWoken(n, acts[1..], p); }
  }

  // ---- the waits are those of the signal set --------------------------------------

  /** The gates that a mask of chunk 0 names. */
  ghost function GatesOf(mask: nat): set<nat>
  {
    set b: nat | b < CHUNK && Bit(mask, b)
  }

  /** `open` is what the words say. */
  ghost predicate Shows(words: SignalSet.SignalSet, open: set<nat>)
    reads words, words.chunks
  {
    words.Valid() && forall g: nat :: g in open <==> words.Open(g)
  }

  lemma AllOpenIsThatOfTheSet(words: SignalSet.SignalSet, mask: nat, open: set<nat>)
    requires Shows(words, open)
    ensures MaskHolds(AllOf(GatesOf(mask)), open) <==> forall b: nat :: b < CHUNK && Bit(mask, b) ==> words.Open(b)
  {
    if MaskHolds(AllOf(GatesOf(mask)), open) {
      forall b: nat | b < CHUNK && Bit(mask, b)
        ensures words.Open(b)
      {
        assert b in GatesOf(mask);
      }
    }
  }

  lemma AnyOpenIsThatOfTheSet(words: SignalSet.SignalSet, mask: nat, open: set<nat>)
    requires Shows(words, open)
    ensures MaskHolds(AnyOf(GatesOf(mask)), open) <==> exists b: nat :: b < CHUNK && Bit(mask, b) && words.Open(b)
  {
    if b: nat :| b < CHUNK && Bit(mask, b) && words.Open(b) { assert b in GatesOf(mask) && b in open; }
    if g :| g in GatesOf(mask) && g < CHUNK && g in open { assert Bit(mask, g) && words.Open(g); }
  }

  lemma AnyChunkOpenIsThatOfTheSet(words: SignalSet.SignalSet, open: set<nat>)
    requires Shows(words, open)
    ensures Holds(AnyChunk, open, words.chunks.Length) <==> exists g: nat :: words.Open(g)
  {
    if g: nat :| words.Open(g) { assert ChunkOpen(open, g / CHUNK); }
    if Holds(AnyChunk, open, words.chunks.Length) {
      var c: nat :| c < words.chunks.Length && ChunkOpen(open, c);
      var g :| g in open && g / CHUNK == c;
      assert words.Open(g);
    }
  }

  /** What this machine waits for is what the predicates of the signal set say of its
      words: `all_open` and `any_open` of a mask, and `any_chunk_open`. */
  lemma WaitsAreThoseOfTheSet(words: SignalSet.SignalSet, mask: nat, open: set<nat>)
    requires Shows(words, open)
    ensures MaskHolds(AllOf(GatesOf(mask)), open) <==> forall b: nat :: b < CHUNK && Bit(mask, b) ==> words.Open(b)
    ensures MaskHolds(AnyOf(GatesOf(mask)), open) <==> exists b: nat :: b < CHUNK && Bit(mask, b) && words.Open(b)
    ensures Holds(AnyChunk, open, words.chunks.Length) <==> exists g: nat :: words.Open(g)
  {
    AllOpenIsThatOfTheSet(words, mask, open);
    AnyOpenIsThatOfTheSet(words, mask, open);
    AnyChunkOpenIsThatOfTheSet(words, open);
  }

  /** A release is that of the signal set: the same gates are open after it, and it goes
      into `wake()` exactly when the signal set wakes. */
  method ReleaseIsThatOfTheSet(words: SignalSet.SignalSet, g: nat, ghost s: State, ghost p: nat)
    requires Shows(words, s.open) && words.chunks.Length == s.chunks && Step(s, Release(p, g)).Some?
    modifies words.chunks, words`wakes
    ensures Shows(words, Step(s, Release(p, g)).value.open)
    ensures words.wakes == old(words.wakes) + if Step(s, Release(p, g)).value.prods[p].Waking? then 1 else 0
  {
    words.Release(g);
  }

  /** So is shutting the gates of a mask in one chunk. */
  method LockIsThatOfTheSet(words: SignalSet.SignalSet, c: nat, mask: nat, ghost gates: set<nat>, ghost s: State)
    requires Shows(words, s.open) && c < words.chunks.Length && mask < Pow2(CHUNK)
    requires forall g: nat :: g in gates <==> g / CHUNK == c && Bit(mask, g % CHUNK)
    modifies words.chunks
    ensures Shows(words, Step(s, Lock(gates)).value.open)
  {
    words.LockChunkMask(c, mask);
  }

  // ---- what an acquire returns ------------------------------------------------------

  predicate NoAcquire(acts: seq<Act>)
  {
    forall i :: 0 <= i < |acts| ==> !acts[i].Acquire?
  }

  /** A step of the consumer taken while the gates are as the call asks: every gate of
      the mask open, some gate of it, or some gate at all. */
  ghost predicate FindsOpen(wait: Wait, s: State, a: Act)
  {
    a.RunConsumer? && match wait
      case AllOf(mask) => forall g :: g in mask && g < 64 ==> g in s.open
      case AnyOf(mask) => exists g :: g in mask && g < 64 && g in s.open
      case AnyChunk => exists g :: g in s.open && g / 64 < s.chunks
  }

  ghost function Finds(wait: Wait): (State, Act) -> bool
  {
    (s, a) => FindsOpen(wait, s, a)
  }

  ghost predicate Acquiring(wait: Wait, saw: bool, s: State)
  {
    s.wait == wait && (s.cons.Away? || s.cons.Leave? ==> saw)
  }

  lemma StepKeepsAcquiring(wait: Wait, saw: bool, s: State, a: Act)
    requires Acquiring(wait, saw, s) && Step(s, a).Some? && !a.Acquire?
    ensures Acquiring(wait, saw || FindsOpen(wait, s, a), Step(s, a).value)
  {
    if a.RunConsumer? && s.wait.AnyChunk? && (s.cons.Spin? || s.cons.Check?) && s.cons.chunk < s.chunks
       && ChunkOpen(s.open, s.cons.chunk) {
      var g :| g in s.open && g / CHUNK == s.cons.chunk;
      assert g in s.open && g / 64 < s.chunks;
    }
  }

  lemma {:induction false} RunKeepsAcquiring(wait: Wait, saw: bool, s: State, acts: seq<Act>)
    requires Acquiring(wait, saw, s) && Run(Step, s, acts).Some? && NoAcquire(acts)
    ensures Acquiring(wait, saw || Happens(Step, s, acts, Finds(wait)), Run(Step, s, acts).value)
    decreases |acts|
  {
    if acts != [] {
      StepKeepsAcquiring(wait, saw, s, acts[0]);
      RunKeepsAcquiring(wait, saw || FindsOpen(wait, s, acts[0]), Step(s, acts[0]).value, acts[1..]);
    }
  }

  /** An acquire that has returned has found the gates as it asks, at a look of its own. */
  lemma AcquireReturns(s: State, wait: Wait, acts: seq<Act>)
    requires s.cons.Away? && NoAcquire(acts)
    requires Run(Step, Step(s, Acquire(wait)).value, acts).Some?
    requires Run(Step, Step(s, Acquire(wait)).value, acts).value.cons.Away?
    ensures Happens(Step, Step(s, Acquire(wait)).value, acts, Finds(wait))
  {
    RunKeepsAcquiring(wait, false, Step(s, Acquire(wait)).value, acts);
  }

  predicate ConsumerActs(a: Act)
  {
    a.RunConsumer?
  }

  predicate NoLock(acts: seq<Act>)
  {
    forall i :: 0 <= i < |acts| ==> !acts[i].Lock?
  }

  /** The wait holds, by chunk `c` when it is for any chunk. */
  ghost predicate WorthAcquiring(s: State, c: nat)
  {
    if s.wait.AnyChunk? then c < s.chunks && ChunkOpen(s.open, c) else c == 0 && MaskHolds(s.wait, s.open)
  }

  /** A bound on the consumer's steps to its return. */
  ghost function AcquireRank(s: State, c: nat): int
  {
    var left := (i: nat) => if i < s.chunks then s.chunks - i else 0;
    match s.cons
    case Spin(i) => if !s.wait.AnyChunk? then 1 else if i <= c then c - i + 1 else left(i) + c + 6
    case Announce => c + 5
    case AnnFence => c + 4
    case Check(i) => if !s.wait.AnyChunk? then 2 else if i <= c then c - i + 2 else left(i) + c + 4
    case Park => c + 3
    case Leave => 1
    case Away => 0
  }

  lemma AcquireComesCloser(s: State, choice: bool, c: nat)
    requires WorthAcquiring(s, c) && ConsumerStep(s, choice).Some?
    ensures var n := ConsumerStep(s, choice).value; WorthAcquiring(n, c) && 0 <= AcquireRank(n, c) < AcquireRank(s, c)
  {
  }

  lemma OthersLetItAcquire(s: State, a: Act, c: nat)
    requires WorthAcquiring(s, c) && Step(s, a).Some? && !a.Acquire? && !a.RunConsumer? && !a.Lock?
    ensures WorthAcquiring(Step(s, a).value, c) && AcquireRank(Step(s, a).value, c) == AcquireRank(s, c)
  {
  }

  lemma {:induction false} AwayStays(s: State, acts: seq<Act>)
    requires s.cons.Away? && NoAcquire(acts) && Run(Step, s, acts).Some?
    ensures Run(Step, s, acts).value.cons.Away?
    decreases |acts|
  {
    if acts != [] { AwayStays(Step(s, acts[0]).value, acts[1..]); }
  }

  /** An acquire comes back: once the gates are as it asks and nobody shuts any, within
      `AcquireRank` of the consumer's own steps. */
  lemma {:induction false} AcquireComesBack(s: State, acts: seq<Act>, c: nat)
    requires WorthAcquiring(s, c) && NoAcquire(acts) && NoLock(acts) && Run(Step, s, acts).Some?
    requires Count(acts, ConsumerActs) >= AcquireRank(s, c)
    ensures Run(Step, s, acts).value.cons.Away?
    decreases |acts|
  {
    if s.cons.Away? {
      AwayStays(s, acts);
    } else {
      if acts[0].RunConsumer? { AcquireComesCloser(s, acts[0].choice, c); } else { OthersLetItAcquire(s, acts[0], c); }
      AcquireComesBack(Step(s, acts[0]).value, acts[1..], c);
    }
  }

  /** The consumer can step as long as it is not parked without a token. */
  lemma ConsumerCanMove(s: State)
    requires !s.cons.Away? && !(s.cons.Park? && !s.token)
    ensures ConsumerStep(s, false).Some?
  {
  }
}
