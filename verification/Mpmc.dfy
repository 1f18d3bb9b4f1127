/** The sharded many-to-many channel, call by call: one word-cursor ring per
    (shard, producer) pair, adaptive rotating routing on the sending side, and the
    batched drain under an unwind guard on the receiving side.

    Ghost history per ring: everything ever sent into it and everything ever taken
    out of it. Every call leaves all rings valid, whether it unwinds or not. */
module Mpmc {
  import opened Bits
  import opened MpmcRouting
  import opened Runs
  import opened Slots

  const MAX_MPMC_PRODUCERS: nat := 255

  datatype PRing<T> = PRing(head: nat, tail: nat, slots: seq<Slot<T>>)

  /** The ring stands for `sent` minus its received prefix. */
  ghost predicate RingOk<T>(r: PRing<T>, k: nat, bits: nat, sent: seq<T>, received: nat)
  {
    && k < bits && |r.slots| == Pow2(k)
    && received <= |sent| <= received + |r.slots|
    && r.head == Wrap(|sent|, bits) && r.tail == Wrap(received, bits)
    && Window(r.slots, received, sent)
  }

  lemma NewRingOk<T>(k: nat, bits: nat)
    requires k < bits
    ensures RingOk<T>(PRing(0, 0, seq(Pow2(k), _ => Uninit)), k, bits, [], 0)
  {
    WrapUnique(0, 0, 0, bits);
  }

  function Used<T>(r: PRing<T>, bits: nat): nat
  {
    WrapSub(r.head, r.tail, bits)
  }

  /** Write the slot and publish the head. */
  function Push<T>(r: PRing<T>, v: T, bits: nat): PRing<T>
    requires |r.slots| >= 1
  {
    PRing(WrapInc(r.head, bits), r.tail, r.slots[And(r.head, |r.slots| - 1) := Init(v)])
  }

  /** Move the value out of the slot at `tail` and release the slot. */
  function Pop<T>(r: PRing<T>, bits: nat): PRing<T>
    requires |r.slots| >= 1
  {
    PRing(r.head, WrapInc(r.tail, bits), r.slots[And(r.tail, |r.slots| - 1) := Uninit])
  }

  function Front<T>(r: PRing<T>): Slot<T>
    requires |r.slots| >= 1
  {
    r.slots[And(r.tail, |r.slots| - 1)]
  }

  /** Word arithmetic gives the true occupancy; empty and full are told apart. */
  lemma UsedExact<T>(r: PRing<T>, k: nat, bits: nat, sent: seq<T>, received: nat)
    requires RingOk(r, k, bits, sent, received)
    ensures Used(r, bits) == |sent| - received
    ensures r.head == r.tail <==> |sent| == received
  {
    Fits(k, bits);
    WrapSubExact(|sent|, received, bits);
    WrapInjective(|sent|, received, bits);
  }

  lemma PushOk<T>(r: PRing<T>, k: nat, bits: nat, sent: seq<T>, received: nat, v: T)
    requires RingOk(r, k, bits, sent, received) && |sent| < received + |r.slots|
    ensures RingOk(Push(r, v, bits), k, bits, sent + [v], received)
  {
    MaskedCursor(|sent|, k, bits);
    PutNext(r.slots, received, sent, v);
    WrapIncExact(|sent|, bits);
  }

  lemma PopOk<T>(r: PRing<T>, k: nat, bits: nat, sent: seq<T>, received: nat)
    requires RingOk(r, k, bits, sent, received) && received < |sent|
    ensures Front(r) == Init(sent[received])
    ensures RingOk(Pop(r, bits), k, bits, sent, received + 1)
  {
    MaskedCursor(received, k, bits);
    TakeFirst(r.slots, received, sent);
    WrapIncExact(received, bits);
  }

  lemma Regroup<T>(x: seq<T>, a: seq<T>, b: seq<T>, c: seq<T>)
    requires x == a + b
    ensures x + c == a + (b + c)
  {
  }

  lemma Prefixed<T>(none: seq<T>, x: seq<T>, a: seq<T>, b: seq<T>)
    requires none == [] && x == a + b
    ensures none + x == a + (none + b)
  {
  }

  /** Everything that ever went into ring `(shard, producer)`, and how much of it
      has come out. */
  datatype History<T> = History(sent: map<(nat, nat), seq<T>>, received: map<(nat, nat), nat>) {

    predicate Has(s: nat, p: nat)
    {
      (s, p) in sent && (s, p) in received && received[(s, p)] <= |sent[(s, p)]|
    }

    function Load(s: nat, p: nat): nat
    {
      if Has(s, p) then |sent[(s, p)]| - received[(s, p)] else 0
    }

    /** What producer `p` has in its ring of each shard. */
    function Loads(p: nat, n: nat): (r: seq<nat>)
      ensures |r| == n && forall s :: 0 <= s < n ==> r[s] == Load(s, p)
    {
      seq(n, s requires 0 <= s => Load(s, p))
    }

    function Held(s: nat, p: nat): (r: seq<T>)
      ensures |r| == Load(s, p)
    {
      if Has(s, p) then sent[(s, p)][received[(s, p)]..] else []
    }

    /** Everything waiting in shard `s`, in the order in which a drain meets it. */
    function Pending(s: nat, m: nat): seq<T>
    {
      if m == 0 then [] else Pending(s, m - 1) + Held(s, m - 1)
    }

    function Send(s: nat, p: nat, vs: seq<T>): History<T>
      requires Has(s, p)
    {
      this.(sent := sent[(s, p) := sent[(s, p)] + vs])
    }

    function Take(s: nat, p: nat, d: nat): History<T>
      requires Has(s, p) && d <= Load(s, p)
    {
      this.(received := received[(s, p) := received[(s, p)] + d])
    }

    /** Taking from the first ring that has anything takes the front of the shard. */
    lemma {:induction false} TakeIsFront(s: nat, p: nat, d: nat, m: nat)
      requires p < m && Has(s, p) && d <= Load(s, p)
      requires forall q :: 0 <= q < p ==> Load(s, q) == 0
      ensures Pending(s, m) == Held(s, p)[..d] + Take(s, p, d).Pending(s, m)
    {
      if m - 1 == p {
        TakeIsFrontHere(s, p, d);
      } else {
        TakeKeepsOthers(s, p, d, m - 1);
        TakeIsFront(s, p, d, m - 1);
        Regroup(Pending(s, m - 1), Held(s, p)[..d], Take(s, p, d).Pending(s, m - 1), Held(s, m - 1));
      }
    }

    lemma TakeIsFrontHere(s: nat, p: nat, d: nat)
      requires Has(s, p) && d <= Load(s, p)
      requires forall q :: 0 <= q < p ==> Load(s, q) == 0
      ensures Pending(s, p + 1) == Held(s, p)[..d] + Take(s, p, d).Pending(s, p + 1)
    {
      NothingBelow(s, p);
      TakeKeepsBelow(s, p, d, p);
      TakeHeld(s, p, d);
      Prefixed(Pending(s, p), Held(s, p), Held(s, p)[..d], Take(s, p, d).Held(s, p));
    }

    lemma TakeHeld(s: nat, p: nat, d: nat)
      requires Has(s, p) && d <= Load(s, p)
      ensures Held(s, p) == Held(s, p)[..d] + Take(s, p, d).Held(s, p)
    {
    }

    lemma {:induction false} TakeKeepsBelow(s: nat, p: nat, d: nat, m: nat)
      requires m <= p && Has(s, p) && d <= Load(s, p)
      ensures Take(s, p, d).Pending(s, m) == Pending(s, m)
    {
      if m > 0 {
        TakeKeepsOthers(s, p, d, m - 1);
        TakeKeepsBelow(s, p, d, m - 1);
      }
    }

    lemma TakeKeepsOthers(s: nat, p: nat, d: nat, q: nat)
      requires Has(s, p) && d <= Load(s, p)
      ensures q != p ==> Take(s, p, d).Held(s, q) == Held(s, q) && Take(s, p, d).Load(s, q) == Load(s, q)
      ensures Take(s, p, d).Load(s, p) == Load(s, p) - d
    {
    }

    function TakeAll(s: nat, p: nat): History<T>
    {
      if Has(s, p) then Take(s, p, Load(s, p)) else this
    }

    /** After a drain of the rings of shard `s` below `p`. */
    function Emptied(s: nat, p: nat): History<T>
    {
      if p == 0 then this else Emptied(s, p - 1).TakeAll(s, p - 1)
    }

    /** The wake counts after that drain: one wake for each ring that held anything. */
    function Woken(wakes: seq<nat>, s: nat, p: nat): (r: seq<nat>)
      ensures |r| == |wakes|
    {
      if p == 0 then wakes
      else
        var w := Woken(wakes, s, p - 1);
        if Load(s, p - 1) > 0 && p - 1 < |w| then w[p - 1 := w[p - 1] + 1] else w
    }

    lemma {:induction false} WokenOnce(wakes: seq<nat>, s: nat, p: nat, q: nat)
      requires q < |wakes|
      ensures Woken(wakes, s, p)[q] == wakes[q] + if q < p && Load(s, q) > 0 then 1 else 0
    {
      if p > 0 { WokenOnce(wakes, s, p - 1, q); }
    }

    /** A drain empties the rings below `p` and touches no other. */
    lemma {:induction false} EmptiedLoad(s: nat, p: nat, t: nat, q: nat)
      ensures Emptied(s, p).sent == sent
      ensures Emptied(s, p).Load(t, q) == if t == s && q < p then 0 else Load(t, q)
      ensures Has(t, q) <==> Emptied(s, p).Has(t, q)
    {
      if p > 0 { EmptiedLoad(s, p - 1, t, q); }
    }

    /** Draining empty rings is draining nothing. */
    lemma {:induction false} EmptiedTwice(wakes: seq<nat>, s: nat, p: nat)
      requires forall q :: 0 <= q < p ==> Load(s, q) == 0
      ensures Emptied(s, p) == this && Woken(wakes, s, p) == wakes
    {
      if p > 0 {
        EmptiedTwice(wakes, s, p - 1);
        assert Load(s, p - 1) == 0;
      }
    }

    /** Draining `d` items of ring `p` next takes the front of the shard; draining all
        of them completes the step. */
    lemma DrainStep(s: nat, p: nat, m: nat, d: nat)
      requires p < m && Emptied(s, p).Has(s, p) && d <= Emptied(s, p).Load(s, p)
      ensures var h := Emptied(s, p);
        && h.Load(s, p) == Load(s, p)
        && h.Pending(s, m) == h.Held(s, p)[..d] + h.Take(s, p, d).Pending(s, m)
        && (d == Load(s, p) ==> Emptied(s, p + 1) == h.Take(s, p, d))
    {
      var h := Emptied(s, p);
      EmptiedLoad(s, p, s, p);
      forall q | 0 <= q < p
        ensures h.Load(s, q) == 0
      {
        EmptiedLoad(s, p, s, q);
      }
      h.TakeIsFront(s, p, d, m);
    }

    lemma EmptiedHasNothing(s: nat, m: nat)
      ensures Emptied(s, m).Pending(s, m) == []
    {
      forall q | 0 <= q < m
        ensures Emptied(s, m).Load(s, q) == 0
      {
        EmptiedLoad(s, m, s, q);
      }
      Emptied(s, m).NothingBelow(s, m);
    }

    lemma {:induction false} NothingBelow(s: nat, m: nat)
      requires forall q :: 0 <= q < m ==> Load(s, q) == 0
      ensures Pending(s, m) == []
    {
      if m > 0 { NothingBelow(s, m - 1); }
    }
  }

  /** The inner drain loop: move items out from `tail` up to the head that was
      loaded, handing each to a callback that unwinds on its call number `unwindAt`. */
  method MoveOut<T>(r0: PRing<T>, k: nat, bits: nat, ghost sent: seq<T>, ghost received: nat, unwindAt: nat)
    returns (r: PRing<T>, taken: seq<T>, unwound: bool)
    requires RingOk(r0, k, bits, sent, received)
    ensures unwound <==> unwindAt < |sent| - received
    ensures |taken| == if unwound then unwindAt + 1 else |sent| - received
    ensures taken == sent[received..received + |taken|]
    ensures RingOk(r, k, bits, sent, received + |taken|)
  {
    r, taken, unwound := r0, [], false;
    UsedExact(r, k, bits, sent, received);
    while r.tail != r.head && !unwound
      invariant |taken| <= |sent| - received && taken == sent[received..received + |taken|]
      invariant RingOk(r, k, bits, sent, received + |taken|)
      invariant r.head == r.tail <==> received + |taken| == |sent|
      invariant if unwound then |taken| == unwindAt + 1 else |taken| <= unwindAt
      decreases |sent| - |taken|
    {
      PopOk(r, k, bits, sent, received + |taken|);
      var v := Front(r).value;
      r := Pop(r, bits);
      unwound := |taken| == unwindAt;
      taken := taken + [v];
      UsedExact(r, k, bits, sent, received + |taken|);
    }
  }

  /** From `h0`, a pass has drained the rings of shard `s` below `p` and woken the
      producers of those that held anything; the callback was given `got`. */
  ghost predicate Swept<T>(h0: History<T>, w0: seq<nat>, h: History<T>, w: seq<nat>, s: nat, p: nat, m: nat,
                           got: seq<T>, unwindAt: nat)
  {
    && h == h0.Emptied(s, p) && w == h0.Woken(w0, s, p)
    && h0.Pending(s, m) == got + h.Pending(s, m) && |got| <= unwindAt
  }

  /** The callback unwound in ring `p`: the rings below are drained and their
      producers woken, ring `p` has lost some items without a wake, and no other ring
      has changed. */
  ghost predicate Interrupted<T>(h0: History<T>, w0: seq<nat>, h: History<T>, w: seq<nat>, s: nat, p: nat, m: nat,
                                 got: seq<T>, unwindAt: nat)
  {
    && p < m && h0.Emptied(s, p).Has(s, p)
    && (exists d :: 0 < d <= h0.Emptied(s, p).Load(s, p) && h == h0.Emptied(s, p).Take(s, p, d))
    && w == h0.Woken(w0, s, p)
    && h0.Pending(s, m) == got + h.Pending(s, m) && |got| == unwindAt + 1
  }

  lemma SweepParts<T>(h0: History<T>, h: History<T>, s: nat, p: nat, m: nat, got: seq<T>, taken: seq<T>)
    requires h == h0.Emptied(s, p) && h0.Pending(s, m) == got + h.Pending(s, m) && p < m && h.Has(s, p)
    requires |taken| <= h.Load(s, p) && taken == h.Held(s, p)[..|taken|]
    ensures h0.Pending(s, m) == (got + taken) + h.Take(s, p, |taken|).Pending(s, m)
    ensures |taken| == h.Load(s, p) ==> h.Take(s, p, |taken|) == h0.Emptied(s, p + 1)
    ensures h.Load(s, p) == h0.Load(s, p)
  {
    var n := h.Take(s, p, |taken|);
    h0.DrainStep(s, p, m, |taken|);
    assert (got + taken) + n.Pending(s, m) == got + (taken + n.Pending(s, m));
  }

  /** The next ring gave everything it held: the sweep goes on. */
  lemma SweepOn<T>(h0: History<T>, w0: seq<nat>, h: History<T>, w: seq<nat>, s: nat, p: nat, m: nat,
                   got: seq<T>, unwindAt: nat, taken: seq<T>)
    requires Swept(h0, w0, h, w, s, p, m, got, unwindAt) && p < m == |w0| && h.Has(s, p)
    requires |taken| == h.Load(s, p) && taken == h.Held(s, p) && |got + taken| <= unwindAt
    ensures Swept(h0, w0, h.Take(s, p, |taken|), if taken == [] then w else w[p := w[p] + 1], s, p + 1, m,
                  got + taken, unwindAt)
  {
    SweepParts(h0, h, s, p, m, got, taken);
  }

  /** The callback unwound on an item of the next ring. */
  lemma SweepBreaks<T>(h0: History<T>, w0: seq<nat>, h: History<T>, w: seq<nat>, s: nat, p: nat, m: nat,
                       got: seq<T>, unwindAt: nat, taken: seq<T>)
    requires Swept(h0, w0, h, w, s, p, m, got, unwindAt) && p < m && h.Has(s, p)
    requires |taken| <= h.Load(s, p) && taken == h.Held(s, p)[..|taken|] && |got + taken| == unwindAt + 1
    ensures Interrupted(h0, w0, h.Take(s, p, |taken|), w, s, p, m, got + taken, unwindAt)
  {
    SweepParts(h0, h, s, p, m, got, taken);
    assert 0 < |taken|;
  }

  /** A send to the shard picked is one step of the routing: loads and cursor. */
  lemma SendIsRouted<T>(h: History<T>, c: nat, cap: nat, s: nat, p: nat, v: T, n: nat)
    requires n >= 1 && h.Has(s, p) && Pick(Routing(h.Loads(p, n), c), cap) == Some(s)
    ensures Route(Routing(h.Loads(p, n), c), cap) == Some(Routing(h.Send(s, p, [v]).Loads(p, n), (s + 1) % n))
  {
    assert h.Send(s, p, [v]).Loads(p, n) == h.Loads(p, n)[s := h.Loads(p, n)[s] + 1];
  }

  class Mpmc<T> {
    const m: nat
    const n: nat
    const k: nat
    const bits: nat
    const cap: nat
    /** `rings[s, p]`: the ring of producer `p` on shard `s`. */
    const rings: array2<PRing<T>>
    const cursors: array<nat>
    var shutdown: bool
    var liveProducers: nat
    var liveConsumers: nat

    ghost var history: History<T>
    /** How often each waiter was woken. */
    var shardWakes: seq<nat>
    var producerWakes: seq<nat>

    ghost predicate Shape()
      reads cursors
    {
      && 1 <= m <= MAX_MPMC_PRODUCERS && 1 <= n && k < bits && cap == Pow2(k)
      && rings.Length0 == n && rings.Length1 == m
      && cursors.Length == m && (forall p :: 0 <= p < m ==> cursors[p] < n)
    }

    ghost predicate RingsOk()
      requires Shape()
      reads this, rings, cursors
    {
      forall s: nat, p: nat {:trigger history.Has(s, p)} :: s < n && p < m ==>
        history.Has(s, p) && RingOk(rings[s, p], k, bits, history.sent[(s, p)], history.received[(s, p)])
    }

    ghost predicate Valid()
      reads this, rings, cursors
    {
      Shape() && |shardWakes| == n && |producerWakes| == m && RingsOk()
    }

    constructor (m: nat, n: nat, k: nat, bits: nat)
      requires 1 <= m <= MAX_MPMC_PRODUCERS && 1 <= n && k < bits
      ensures Valid() && fresh(rings) && fresh(cursors)
      ensures this.m == m && this.n == n && cap == Pow2(k) && this.bits == bits
      ensures !shutdown && liveProducers == m && liveConsumers == n
      ensures forall s: nat, p: nat :: s < n && p < m ==> history.Load(s, p) == 0 && history.sent[(s, p)] == []
      ensures forall p :: 0 <= p < m ==> cursors[p] == p % n
    {
      this.m, this.n, this.k, this.bits, cap := m, n, k, bits, Pow2(k);
      rings := new PRing<T>[n, m]((s, p) => PRing(0, 0, seq(Pow2(k), _ => Uninit)));
      cursors := new nat[m](p requires 0 <= p => p % n);
      shutdown, liveProducers, liveConsumers := false, m, n;
      history := History(map s: nat, p: nat | s < n && p < m :: (s, p) := [],
                         map s: nat, p: nat | s < n && p < m :: (s, p) := 0);
      shardWakes, producerWakes := seq(n, _ => 0), seq(m, _ => 0);
      new;
      NewRingOk<T>(k, bits);
    }

    predicate TerminalForProducer()
      reads this
    {
      shutdown || liveConsumers == 0
    }

    predicate TerminalForConsumer()
      reads this
    {
      shutdown || liveProducers == 0
    }

    ghost function Choice(p: nat): (o: Option<nat>)
      requires Shape() && p < m
      reads this, cursors
      ensures o.Some? ==> o.value < n && history.Load(o.value, p) < cap
    {
      Pick(Routing(history.Loads(p, n), cursors[p]), cap)
    }

    /** Every ring of producer `p` is full. */
    ghost predicate AllFull(p: nat)
      reads this
    {
      forall s: nat :: s < n ==> history.Load(s, p) >= cap
    }

    /** A send is refused a place exactly when every ring of its producer is full. */
    lemma ChoiceIsComplete(p: nat)
      requires Shape() && p < m
      ensures Choice(p).None? <==> AllFull(p)
    {
      var loads := history.Loads(p, n);
      ScanIsComplete(loads, cap, cursors[p]);
      if Choice(p).None? {
        forall s: nat | s < n
          ensures history.Load(s, p) >= cap
        {
          assert loads[s] >= cap;
        }
      } else {
        assert history.Load(Choice(p).value, p) < cap;
      }
    }

    /** Two cursor loads and a word subtraction: the true occupancy. */
    method UsedAt(s: nat, p: nat) returns (used: nat)
      requires Valid() && s < n && p < m
      ensures used == history.Load(s, p) <= cap
    {
      assert history.Has(s, p);
      UsedExact(rings[s, p], k, bits, history.sent[(s, p)], history.received[(s, p)]);
      used := Used(rings[s, p], bits);
    }

    /** One ring moves on; every other ring stays. */
    method SetRing(s: nat, p: nat, r: PRing<T>, ghost sent: seq<T>, ghost received: nat)
      requires Valid() && s < n && p < m
      requires received <= |sent| && RingOk(r, k, bits, sent, received)
      modifies this`history, rings
      ensures Valid()
      ensures history == History(old(history).sent[(s, p) := sent], old(history).received[(s, p) := received])
    {
      rings[s, p] := r;
      history := History(history.sent[(s, p) := sent], history.received[(s, p) := received]);
      forall t: nat, q: nat | t < n && q < m
        ensures history.Has(t, q) && RingOk(rings[t, q], k, bits, history.sent[(t, q)], history.received[(t, q)])
      {
        assert old(history.Has(t, q));
        if (t, q) != (s, p) { assert rings[t, q] == old(rings[t, q]); }
      }
    }

    /** The scan of a send: the first shard, in rotation, with room; `n` looks if none. */
    method FindRoom(p: nat) returns (s: Option<nat>)
      requires Valid() && p < m
      ensures s == Choice(p)
    {
      ghost var loads := history.Loads(p, n);
      var start := cursors[p] % n;
      ModUnique(cursors[p], n, 0, cursors[p]);
      var j := 0;
      while j < n
        invariant 0 <= j <= n
        invariant FirstRoom(loads, cap, start, 0) == FirstRoom(loads, cap, start, j)
      {
        var at := Visit(start, j, n);
        var used := UsedAt(at, p);
        if used < cap { return Some(at); }
        j := j + 1;
      }
      s := None;
    }

    /** Send one item, or hand it back when the channel is over or every ring of
        this producer is full. */
    method TrySend(p: nat, value: T) returns (back: Option<T>)
      requires Valid() && p < m
      modifies this`history, this`shardWakes, rings, cursors
      ensures Valid()
      ensures back.Some? <==> TerminalForProducer() || old(Choice(p)).None?
      ensures back.Some? ==> back.value == value && history == old(history) && shardWakes == old(shardWakes)
                             && cursors[p] == old(cursors[p])
      ensures back.None? ==> var s := old(Choice(p)).value;
                history == old(history).Send(s, p, [value]) && cursors[p] == (s + 1) % n
                && shardWakes == old(shardWakes)[s := old(shardWakes)[s] + 1]
      ensures forall q :: 0 <= q < m && q != p ==> cursors[q] == old(cursors[q])
    {
      if TerminalForProducer() { return Some(value); }
      var room := FindRoom(p);
      if room.None? { return Some(value); }
      var s := room.value;
      PushOk(rings[s, p], k, bits, history.sent[(s, p)], history.received[(s, p)], value);
      SetRing(s, p, Push(rings[s, p], value, bits), history.sent[(s, p)] + [value], history.received[(s, p)]);
      assert history.received == old(history).received;
      shardWakes := shardWakes[s := shardWakes[s] + 1];
      cursors[p] := (s + 1) % n;
      back := None;
    }

    /** Write the first `take` items into consecutive slots, then publish them under
        one head store. */
    method Fill(r0: PRing<T>, ghost sent: seq<T>, ghost received: nat, items: seq<T>, take: nat) returns (r: PRing<T>)
      requires Shape() && RingOk(r0, k, bits, sent, received)
      requires take <= |items| && |sent| + take <= received + cap
      ensures RingOk(r, k, bits, sent + items[..take], received)
    {
      r := r0;
      assert sent + items[..0] == sent;
      for i := 0 to take
        invariant RingOk(r, k, bits, sent + items[..i], received)
      {
        PushOk(r, k, bits, sent + items[..i], received, items[i]);
        assert sent + items[..i + 1] == sent + items[..i] + [items[i]];
        r := Push(r, items[i], bits);
      }
    }

    /** A batch goes, in order, as one prefix of `items` into one ring. Unlike
        `TrySend` it does not ask whether the channel is over. */
    method TrySendBatch(p: nat, items: seq<T>) returns (take: nat, rest: seq<T>)
      requires Valid() && p < m
      modifies this`history, this`shardWakes, rings, cursors
      ensures Valid()
      ensures take <= |items| && rest == items[take..]
      ensures take == 0 <==> items == [] || old(Choice(p)).None?
      ensures take == 0 ==> history == old(history) && shardWakes == old(shardWakes) && cursors[p] == old(cursors[p])
      ensures take > 0 ==> var s := old(Choice(p)).value; var room := cap - old(history).Load(s, p);
                take == (if |items| <= room then |items| else room)
                && history == old(history).Send(s, p, items[..take]) && cursors[p] == (s + 1) % n
                && shardWakes == old(shardWakes)[s := old(shardWakes)[s] + 1]
      ensures forall q :: 0 <= q < m && q != p ==> cursors[q] == old(cursors[q])
    {
      if items == [] { return 0, items; }
      var found := FindRoom(p);
      if found.None? { return 0, items; }
      var s := found.value;
      ghost var sent, received := history.sent[(s, p)], history.received[(s, p)];
      var used := UsedAt(s, p);
      var room := cap - used;
      take := if |items| <= room then |items| else room;
      var r := Fill(rings[s, p], sent, received, items, take);
      SetRing(s, p, r, sent + items[..take], received);
      assert history.received == old(history).received;
      shardWakes := shardWakes[s := shardWakes[s] + 1];
      cursors[p] := (s + 1) % n;
      rest := items[take..];
    }

    /** The producer's next `a` sends find room, whatever the consumers drain in between. */
    ghost predicate Promised(p: nat, a: nat)
      requires Shape() && p < m
      reads this, cursors
    {
      forall ops: seq<RoutingOp> :: Sends(ops) <= a ==> AllSucceed(Routing(history.Loads(p, n), cursors[p]), cap, ops)
    }

    lemma RoomIsPromised(p: nat)
      requires Shape() && p < m
      ensures Promised(p, Room(history.Loads(p, n), cap))
    {
      forall ops: seq<RoutingOp> | Sends(ops) <= Room(history.Loads(p, n), cap)
        ensures AllSucceed(Routing(history.Loads(p, n), cursors[p]), cap, ops)
      {
        AvailableIsAPromise(Routing(history.Loads(p, n), cursors[p]), cap, ops);
      }
    }

    /** The room over all shards, and a promise that it is there. */
    method Available(p: nat) returns (total: nat)
      requires Valid() && p < m
      ensures total == Room(history.Loads(p, n), cap) && Promised(p, total)
      ensures total == 0 <==> AllFull(p)
    {
      total := 0;
      ghost var loads := history.Loads(p, n);
      assert loads == loads[0..];
      for s := 0 to n
        invariant Room(loads, cap) == total + Room(loads[s..], cap)
      {
        var used := UsedAt(s, p);
        assert loads[s..][0] == loads[s] && loads[s..][1..] == loads[s + 1..];
        total := total + if used < cap then cap - used else 0;
      }
      RoomIsPromised(p);
      NoRoomIsFull(loads, cap);
      if total == 0 {
        assert forall s: nat :: s < n ==> loads[s] >= cap;
      }
    }

    /** The predicate a blocked sender waits on: by `ChoiceIsComplete`, exactly that a
        scan would succeed. */
    method HasIdleShard(p: nat) returns (idle: bool)
      requires Valid() && p < m
      ensures idle <==> !AllFull(p)
    {
      for s := 0 to n
        invariant forall t: nat :: t < s ==> history.Load(t, p) >= cap
      {
        var used := UsedAt(s, p);
        if used < cap { return true; }
      }
      idle := false;
    }

    /** The scan of a receive: the first ring that holds anything, or `m`. */
    method FindWork(s: nat) returns (p: nat)
      requires Valid() && s < n
      ensures p <= m && (p < m ==> history.Load(s, p) > 0)
      ensures forall q :: 0 <= q < p ==> history.Load(s, q) == 0
    {
      p := 0;
      while p < m
        invariant p <= m && forall q :: 0 <= q < p ==> history.Load(s, q) == 0
      {
        var empty := IsEmpty(s, p);
        if !empty { return; }
        p := p + 1;
      }
    }

    /** Receive from the first ring that holds anything, and wake its producer. */
    method TryRecv(s: nat) returns (got: Option<T>, p: nat)
      requires Valid() && s < n
      modifies this`history, this`producerWakes, rings
      ensures Valid() && (got.None? <==> p == m)
      ensures forall q :: 0 <= q < p ==> old(history).Load(s, q) == 0
      ensures got.None? ==> history == old(history) && producerWakes == old(producerWakes)
      ensures got.Some? ==> p < m && old(history).Load(s, p) > 0
      ensures got.Some? ==> got.value == old(history).Held(s, p)[0] && history == old(history).Take(s, p, 1)
      ensures got.Some? ==> producerWakes == old(producerWakes)[p := old(producerWakes)[p] + 1]
      ensures old(history).Pending(s, m) == (if got.None? then [] else [got.value]) + history.Pending(s, m)
    {
      p := FindWork(s);
      if p == m {
        history.NothingBelow(s, m);
        return None, m;
      }
      history.TakeIsFront(s, p, 1, m);
      var v := PopAt(s, p);
      producerWakes := producerWakes[p := producerWakes[p] + 1];
      got := Some(v);
    }

    /** Two cursor loads and an inequality. */
    method IsEmpty(s: nat, p: nat) returns (empty: bool)
      requires Valid() && s < n && p < m
      ensures empty <==> history.Load(s, p) == 0
    {
      assert history.Has(s, p);
      UsedExact(rings[s, p], k, bits, history.sent[(s, p)], history.received[(s, p)]);
      empty := rings[s, p].tail == rings[s, p].head;
    }

    method PopAt(s: nat, p: nat) returns (v: T)
      requires Valid() && s < n && p < m && history.Load(s, p) > 0
      modifies this`history, rings
      ensures Valid()
      ensures v == old(history).Held(s, p)[0] && history == old(history).Take(s, p, 1)
    {
      assert history.Has(s, p);
      ghost var sent, received := history.sent[(s, p)], history.received[(s, p)];
      PopOk(rings[s, p], k, bits, sent, received);
      v := Front(rings[s, p]).value;
      SetRing(s, p, Pop(rings[s, p], bits), sent, received + 1);
      assert history.sent == old(history).sent;
    }

    /** Whether the predicate of a blocked receiver sees work. */
    method AnyRingHasWork(s: nat) returns (work: bool)
      requires Valid() && s < n
      ensures work <==> history.Pending(s, m) != []
    {
      for p := 0 to m
        invariant forall j :: 0 <= j < p ==> history.Load(s, j) == 0
      {
        var empty := IsEmpty(s, p);
        if !empty {
          history.TakeIsFront(s, p, 1, m);
          return true;
        }
      }
      history.NothingBelow(s, m);
      work := false;
    }

    /** One ring of a drain, with the guard that stores the tail either way. */
    method DrainRing(s: nat, p: nat, unwindAt: nat) returns (taken: seq<T>, unwound: bool)
      requires Valid() && s < n && p < m
      modifies this`history, rings
      ensures Valid()
      ensures unwound <==> unwindAt < old(history).Load(s, p)
      ensures |taken| == if unwound then unwindAt + 1 else old(history).Load(s, p)
      ensures taken == old(history).Held(s, p)[..|taken|]
      ensures history == old(history).Take(s, p, |taken|)
    {
      assert history.Has(s, p);
      ghost var sent, received := history.sent[(s, p)], history.received[(s, p)];
      var r;
      r, taken, unwound := MoveOut(rings[s, p], k, bits, sent, received, unwindAt);
      SetRing(s, p, r, sent, received + |taken|);
      assert history.sent == old(history).sent;
    }

    /** One look of a pass: nothing there, or a drain of the ring and a wake. */
    method DrainAndWake(s: nat, p: nat, unwindAt: nat) returns (taken: seq<T>, unwound: bool)
      requires Valid() && s < n && p < m
      modifies this`history, this`producerWakes, rings
      ensures Valid()
      ensures unwound <==> unwindAt < old(history).Load(s, p)
      ensures |taken| == if unwound then unwindAt + 1 else old(history).Load(s, p)
      ensures taken == old(history).Held(s, p)[..|taken|]
      ensures history == old(history).Take(s, p, |taken|)
      ensures producerWakes == if unwound || taken == [] then old(producerWakes)
                               else old(producerWakes)[p := old(producerWakes)[p] + 1]
    {
      assert history.Has(s, p);
      taken, unwound := [], false;
      var empty := IsEmpty(s, p);
      if empty {
        assert history.Take(s, p, 0) == history;
        return;
      }
      taken, unwound := DrainRing(s, p, unwindAt);
      if !unwound { producerWakes := producerWakes[p := producerWakes[p] + 1]; }
    }

    /** The same look, as one step of a pass that began at `h0`. */
    method DrainAt(s: nat, p: nat, unwindAt: nat, before: seq<T>, ghost h0: History<T>, ghost w0: seq<nat>)
      returns (got: seq<T>, unwound: bool)
      requires Valid() && s < n && p < m && |w0| == m
      requires Swept(h0, w0, history, producerWakes, s, p, m, before, unwindAt)
      modifies this`history, this`producerWakes, rings
      ensures Valid()
      ensures unwound ==> Interrupted(h0, w0, history, producerWakes, s, p, m, got, unwindAt)
      ensures !unwound ==> Swept(h0, w0, history, producerWakes, s, p + 1, m, got, unwindAt)
    {
      ghost var h, w := history, producerWakes;
      assert h.Has(s, p);
      var taken;
      taken, unwound := DrainAndWake(s, p, unwindAt - |before|);
      if unwound {
        SweepBreaks(h0, w0, h, w, s, p, m, before, unwindAt, taken);
      } else {
        assert taken == h.Held(s, p);
        SweepOn(h0, w0, h, w, s, p, m, before, unwindAt, taken);
      }
      got := before + taken;
    }

    /** One pass over the rings of a shard. */
    method DrainPass(s: nat, unwindAt: nat) returns (got: seq<T>, unwound: bool, ghost stop: nat)
      requires Valid() && s < n
      modifies this`history, this`producerWakes, rings
      ensures Valid()
      ensures unwound ==> Interrupted(old(history), old(producerWakes), history, producerWakes, s, stop, m, got, unwindAt)
      ensures !unwound ==> Swept(old(history), old(producerWakes), history, producerWakes, s, m, m, got, unwindAt)
      ensures !unwound ==> history.Pending(s, m) == []
    {
      ghost var h0, wakes0 := history, producerWakes;
      got := [];
      var p := 0;
      while p < m
        invariant 0 <= p <= m && Valid()
        invariant Swept(h0, wakes0, history, producerWakes, s, p, m, got, unwindAt)
      {
        got, unwound := DrainAt(s, p, unwindAt, got, h0, wakes0);
        if unwound { return got, true, p; }
        p := p + 1;
      }
      h0.EmptiedHasNothing(s, m);
      unwound, stop := false, m;
    }

    /** Drain shard `s` pass by pass until a pass finds nothing. The callback unwinds
        on its call number `unwindAt`, in ring `stop`, if there are that many items.

        What the callback was given is exactly what left the shard, in ring order and
        in send order within a ring, the item of the unwinding call included. An
        unwound drain leaves every ring valid, so the handle can be used again. */
    method DrainAll(s: nat, unwindAt: nat) returns (got: seq<T>, unwound: bool, ghost stop: nat)
      requires Valid() && s < n
      modifies this`history, this`producerWakes, rings
      ensures Valid()
      ensures old(history).Pending(s, m) == got + history.Pending(s, m)
      ensures unwound <==> unwindAt < |old(history).Pending(s, m)|
      ensures unwound ==> Interrupted(old(history), old(producerWakes), history, producerWakes, s, stop, m, got, unwindAt)
      ensures !unwound ==> Swept(old(history), old(producerWakes), history, producerWakes, s, m, m, got, unwindAt)
      ensures !unwound ==> history.Pending(s, m) == []
    {
      ghost var h0 := history;
      got, unwound, stop := DrainPass(s, unwindAt);
      if unwound { return; }
      ghost var h, w := history, producerWakes;
      forall q | 0 <= q < m
        ensures h.Load(s, q) == 0
      {
        h0.EmptiedLoad(s, m, s, q);
      }
      h.EmptiedTwice(w, s, m);
      var progress := got != [];
      while progress
        invariant Valid() && history == h && producerWakes == w
        decreases progress
      {
        var more, again, at := DrainPass(s, unwindAt - |got|);
        assert more == [] && !again;
        progress := false;
      }
    }

    /** The last producer to go wakes every shard's consumer. */
    method DropProducer()
      requires Valid() && liveProducers > 0
      modifies this`liveProducers, this`shardWakes
      ensures Valid() && liveProducers == old(liveProducers) - 1
      ensures TerminalForConsumer() <==> shutdown || old(liveProducers) == 1
      ensures shardWakes == if old(liveProducers) == 1 then Bumped(old(shardWakes)) else old(shardWakes)
    {
      liveProducers := liveProducers - 1;
      if liveProducers == 0 { shardWakes := WakeEach(shardWakes); }
    }

    /** The last consumer to go wakes every producer. */
    method DropConsumer()
      requires Valid() && liveConsumers > 0
      modifies this`liveConsumers, this`producerWakes
      ensures Valid() && liveConsumers == old(liveConsumers) - 1
      ensures TerminalForProducer() <==> shutdown || old(liveConsumers) == 1
      ensures producerWakes == if old(liveConsumers) == 1 then Bumped(old(producerWakes)) else old(producerWakes)
    {
      liveConsumers := liveConsumers - 1;
      if liveConsumers == 0 { producerWakes := WakeEach(producerWakes); }
    }

    /** Shut down: raise the flag, then wake everyone. */
    method Signal()
      requires Valid()
      modifies this`shutdown, this`shardWakes, this`producerWakes
      ensures Valid() && TerminalForProducer() && TerminalForConsumer()
      ensures shardWakes == Bumped(old(shardWakes)) && producerWakes == Bumped(old(producerWakes))
    {
      shutdown := true;
      shardWakes := WakeEach(shardWakes);
      producerWakes := WakeEach(producerWakes);
    }

    /** Ring `(s, p)` has been torn down: its history is what was received followed by
        what was destroyed, and no slot owns a value. */
    ghost predicate Gone(s: nat, p: nat, destroyed: map<(nat, nat), seq<T>>)
      requires s < rings.Length0 && p < rings.Length1
      reads this, rings
    {
      && history.Has(s, p) && (s, p) in destroyed && destroyed[(s, p)] == history.Held(s, p)
      && forall j :: 0 <= j < |rings[s, p].slots| ==> rings[s, p].slots[j].Uninit?
    }

    ghost predicate Standing(s: nat, p: nat)
      requires s < rings.Length0 && p < rings.Length1
      reads this, rings
    {
      history.Has(s, p) && RingOk(rings[s, p], k, bits, history.sent[(s, p)], history.received[(s, p)])
    }

    method DropRing(s: nat, p: nat) returns (lost: seq<T>)
      requires Shape() && s < n && p < m && Standing(s, p)
      modifies rings
      ensures lost == history.Held(s, p) && Gone(s, p, map[(s, p) := lost])
      ensures forall t: nat, q: nat :: t < n && q < m && (t, q) != (s, p) ==> rings[t, q] == old(rings[t, q])
    {
      ghost var sent, received := history.sent[(s, p)], history.received[(s, p)];
      UsedExact(rings[s, p], k, bits, sent, received);
      var r, taken, unwound := MoveOut(rings[s, p], k, bits, sent, received, Used(rings[s, p], bits));
      AllUninit(r.slots, |sent|, sent);
      rings[s, p] := r;
      lost := taken;
    }

    /** Teardown: destroy, ring by ring and in order, whatever is still between the
        cursors: exactly what was sent and not received, and nothing twice. */
    method Drop() returns (destroyed: map<(nat, nat), seq<T>>)
      requires Valid()
      modifies rings
      ensures forall s: nat, p: nat :: s < n && p < m ==> Gone(s, p, destroyed)
    {
      destroyed := map[];
      for s := 0 to n
        invariant forall t: nat, q: nat :: t < n && q < m ==> if t < s then Gone(t, q, destroyed) else Standing(t, q)
      {
        for p := 0 to m
          invariant forall t: nat, q: nat :: t < n && q < m ==>
            if t < s || (t == s && q < p) then Gone(t, q, destroyed) else Standing(t, q)
        {
          destroyed := DropNext(s, p, destroyed);
        }
      }
    }

    method DropNext(s: nat, p: nat, before: map<(nat, nat), seq<T>>) returns (destroyed: map<(nat, nat), seq<T>>)
      requires Shape() && s < n && p < m && Standing(s, p)
      modifies rings
      ensures Gone(s, p, destroyed)
      ensures forall t: nat, q: nat :: t < n && q < m && (t, q) != (s, p) ==>
        (old(Gone(t, q, before)) ==> Gone(t, q, destroyed)) && (old(Standing(t, q)) ==> Standing(t, q))
    {
      var lost := DropRing(s, p);
      destroyed := before[(s, p) := lost];
    }
  }

  /** One send of a sequence that began with routing state `r0`. */
  method SendNext<T>(ch: Mpmc<T>, p: nat, v: T, ghost r0: Routing, ghost t: nat) returns (back: Option<T>)
    requires ch.Valid() && p < ch.m && !ch.TerminalForProducer() && |r0.loads| >= 1
    requires RouteMany(r0, ch.cap, t) == Some(Routing(ch.history.Loads(p, ch.n), ch.cursors[p]))
    requires RouteMany(r0, ch.cap, t + 1).Some?
    modifies ch`history, ch`shardWakes, ch.rings, ch.cursors
    ensures ch.Valid() && back.None?
    ensures RouteMany(r0, ch.cap, t + 1) == Some(Routing(ch.history.Loads(p, ch.n), ch.cursors[p]))
  {
    ghost var h, c, s := ch.history, ch.cursors[p], ch.Choice(p);
    assert s.Some? && h.Has(s.value, p);
    SendIsRouted(h, c, ch.cap, s.value, p, v, ch.n);
    back := ch.TrySend(p, v);
  }

  /** Sends that follow each other; every one of them finds a place. */
  method SendAll<T>(ch: Mpmc<T>, p: nat, values: seq<T>)
    requires ch.Valid() && p < ch.m && !ch.TerminalForProducer() && |values| <= ch.n * ch.cap
    requires Routing(ch.history.Loads(p, ch.n), ch.cursors[p]) == Routing(seq(ch.n, _ => 0), p % ch.n)
    modifies ch`history, ch`shardWakes, ch.rings, ch.cursors
    ensures ch.Valid()
    ensures RouteMany(Routing(seq(ch.n, _ => 0), p % ch.n), ch.cap, |values|)
         == Some(Routing(ch.history.Loads(p, ch.n), ch.cursors[p]))
  {
    ghost var r0 := Routing(seq(ch.n, _ => 0), p % ch.n);
    for t := 0 to |values|
      invariant ch.Valid()
      invariant RouteMany(r0, ch.cap, t) == Some(Routing(ch.history.Loads(p, ch.n), ch.cursors[p]))
    {
      RoutingDeals(ch.n, ch.cap, p % ch.n, t + 1);
      var back := SendNext(ch, p, values[t], r0, t);
    }
  }

  /** One producer of a new channel sends, and nobody drains: `N * RING_CAP` sends
      succeed whatever else the channel has, the loads of its rings never differ by
      more than one, and after the last of them every ring is full. */
  method FillFresh<T>(m: nat, n: nat, k: nat, bits: nat, p: nat, values: seq<T>) returns (ch: Mpmc<T>)
    requires 1 <= m <= MAX_MPMC_PRODUCERS && 1 <= n && k < bits && p < m && |values| <= n * Pow2(k)
    ensures ch.Valid() && ch.n == n && ch.m == m && ch.cap == Pow2(k)
    ensures RouteMany(Routing(seq(n, _ => 0), p % n), ch.cap, |values|)
         == Some(Routing(ch.history.Loads(p, n), ch.cursors[p]))
    ensures forall i, j :: 0 <= i < n && 0 <= j < n ==> ch.history.Loads(p, n)[i] <= ch.history.Loads(p, n)[j] + 1
    ensures |values| == n * ch.cap ==> ch.Choice(p).None?
  {
    ch := new Mpmc<T>(m, n, k, bits);
    ghost var r0 := Routing(seq(n, _ => 0), p % n);
    assert ch.history.Loads(p, n) == r0.loads;
    SendAll(ch, p, values);
    RoutingIsBalanced(n, ch.cap, p % n, |values|);
  }

  function Bumped(wakes: seq<nat>): (r: seq<nat>)
    ensures |r| == |wakes| && forall i :: 0 <= i < |wakes| ==> r[i] == wakes[i] + 1
  {
    seq(|wakes|, i requires 0 <= i < |wakes| => wakes[i] + 1)
  }

  method WakeEach(wakes: seq<nat>) returns (r: seq<nat>)
    ensures r == Bumped(wakes)
  {
    r := wakes;
    for i := 0 to |wakes|
      invariant |r| == |wakes|
      invariant forall j :: 0 <= j < |wakes| ==> r[j] == if j < i then wakes[j] + 1 else wakes[j]
    {
      r := r[i := r[i] + 1];
    }
  }
}
