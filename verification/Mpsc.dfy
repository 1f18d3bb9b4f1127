/** The many-producer fan-in, call by call: producers and one consumer over a vector
    of rings whose own waiters do nothing, a shared shutdown flag and a live count.
    `MpscFanIn` has the same channel step by step, with its waiting. */
module Mpsc {
  import opened Runs
  import Ring

  /** The life of one ring: everything sent, and everything received so far. */
  datatype Stream<T> = Stream(sent: seq<T>, received: seq<T>)

  ghost predicate Drained<T>(s: Stream<T>)
  {
    s.received == s.sent
  }

  /** The oldest item that is still inside. */
  function Next<T>(s: Stream<T>): Option<T>
  {
    if |s.received| < |s.sent| then Some(s.sent[|s.received|]) else None
  }

  function Give<T>(ss: seq<Stream<T>>, i: nat, got: seq<T>): seq<Stream<T>>
    requires i < |ss|
  {
    ss[i := Stream(ss[i].sent, ss[i].received + got)]
  }

  /** A look at ring `i` and its outcome: the oldest item moves out and its producer
      is woken, or there is none and nothing happens. */
  ghost predicate TookFrom<T>(h0: seq<Stream<T>>, w0: seq<nat>, h: seq<Stream<T>>, w: seq<nat>, i: nat, got: Option<T>)
  {
    && i < |h0| == |w0| && Next(h0[i]) == got
    && (if got.None? then h == h0 && w == w0 && Drained(h0[i])
        else h == Give(h0, i, [got.value]) && w == w0[i := w0[i] + 1])
  }

  /** The rings below `at` were drained, and the look at ring `at`, if there is one,
      was the one that found something. */
  ghost predicate TookFirst<T>(h0: seq<Stream<T>>, w0: seq<nat>, h: seq<Stream<T>>, w: seq<nat>, at: nat, got: Option<T>)
  {
    && at <= |h0| == |w0| && (forall j :: 0 <= j < at ==> Drained(h0[j]))
    && if got.None? then h == h0 && w == w0 else TookFrom(h0, w0, h, w, at, got)
  }

  lemma LookOn<T>(h0: seq<Stream<T>>, w0: seq<nat>, h: seq<Stream<T>>, w: seq<nat>, at: nat, got: Option<T>)
    requires TookFirst(h0, w0, h0, w0, at, None) && TookFrom(h0, w0, h, w, at, got)
    ensures TookFirst(h0, w0, h, w, if got.None? then at + 1 else at, got)
  {
  }

  lemma LenIsWhatIsLeft<T>(s: Stream<T>)
    requires |s.received| <= |s.sent| && s.sent[..|s.received|] == s.received
    ensures Drained(s) <==> |s.sent| - |s.received| == 0
  {
    if |s.sent| == |s.received| { assert s.sent == s.sent[..|s.received|]; }
  }

  /** Ring after ring gives up its part. */
  function GiveAll<T>(ss: seq<Stream<T>>, got: seq<seq<T>>): (r: seq<Stream<T>>)
    requires |got| <= |ss|
    ensures |r| == |ss|
    ensures forall i :: 0 <= i < |ss| ==>
      r[i] == Stream(ss[i].sent, ss[i].received + if i < |got| then got[i] else [])
  {
    if got == [] then ss
    else
      var n := |got| - 1;
      Give(GiveAll(ss, got[..n]), n, got[n])
  }

  function Woken<T>(wakes: seq<nat>, i: nat, got: seq<T>): (r: seq<nat>)
    requires i < |wakes|
    ensures |r| == |wakes|
  {
    if got == [] then wakes else wakes[i := wakes[i] + 1]
  }

  /** One wake for each ring that gave anything. */
  function WokenAll<T>(wakes: seq<nat>, got: seq<seq<T>>): (r: seq<nat>)
    requires |got| <= |wakes|
    ensures |r| == |wakes|
  {
    if got == [] then wakes
    else
      var n := |got| - 1;
      Woken(WokenAll(wakes, got[..n]), n, got[n])
  }

  /** What a callback saw, ring by ring, as one sequence. */
  function Flat<T>(got: seq<seq<T>>): seq<T>
  {
    if got == [] then [] else Flat(got[..|got| - 1]) + got[|got| - 1]
  }

  lemma GiveNext<T>(ss: seq<Stream<T>>, wakes: seq<nat>, got: seq<seq<T>>, g: seq<T>)
    requires |got| < |ss| == |wakes|
    ensures GiveAll(ss, got + [g]) == Give(GiveAll(ss, got), |got|, g)
    ensures WokenAll(wakes, got + [g]) == Woken(WokenAll(wakes, got), |got|, g)
    ensures Flat(got + [g]) == Flat(got) + g && (got + [g])[..|got|] == got
  {
    assert (got + [g])[..|got|] == got;
  }

  /** Drained rings have nothing more to give. */
  lemma {:induction false} NothingMore<T>(ss: seq<Stream<T>>, wakes: seq<nat>, got: seq<seq<T>>)
    requires |got| <= |ss| == |wakes| && forall i :: 0 <= i < |ss| ==> Drained(ss[i])
    requires forall i :: 0 <= i < |ss| ==> |GiveAll(ss, got)[i].received| <= |ss[i].sent|
    ensures GiveAll(ss, got) == ss && WokenAll(wakes, got) == wakes && WokenAll(wakes, got[..|got|]) == wakes
    ensures Flat(got) == []
  {
    assert got[..|got|] == got;
    if got != [] {
      var n := |got| - 1;
      assert |GiveAll(ss, got)[n].received| == |ss[n].received| + |got[n]|;
      forall i | 0 <= i < |ss|
        ensures |GiveAll(ss, got[..n])[i].received| <= |ss[i].sent|
      {
        assert |GiveAll(ss, got)[i].received| <= |ss[i].sent|;
      }
      NothingMore(ss, wakes, got[..n]);
    }
  }

  /** A pass has been through the first `|got|` rings: each gave up its part and is
      drained, and was woken for if it gave anything. */
  ghost predicate Passed<T>(h0: seq<Stream<T>>, w0: seq<nat>, h: seq<Stream<T>>, w: seq<nat>, got: seq<seq<T>>, unwindAt: nat)
  {
    && |got| <= |h0| == |w0| && h == GiveAll(h0, got) && w == WokenAll(w0, got) && |Flat(got)| <= unwindAt
    && forall i :: 0 <= i < |got| ==> Drained(h[i])
  }

  /** The callback unwound in the last ring of `got`: that one was not woken for. */
  ghost predicate Interrupted<T>(h0: seq<Stream<T>>, w0: seq<nat>, h: seq<Stream<T>>, w: seq<nat>, got: seq<seq<T>>, unwindAt: nat)
  {
    && 0 < |got| <= |h0| == |w0| && h == GiveAll(h0, got) && w == WokenAll(w0, got[..|got| - 1])
    && |Flat(got)| == unwindAt + 1
    && forall i :: 0 <= i < |got| - 1 ==> Drained(h[i])
  }

  lemma PassOn<T>(h0: seq<Stream<T>>, w0: seq<nat>, h: seq<Stream<T>>, w: seq<nat>, got: seq<seq<T>>, unwindAt: nat,
                  g: seq<T>, unwound: bool)
    requires Passed(h0, w0, h, w, got, unwindAt) && |got| < |h0|
    requires if unwound then |Flat(got)| + |g| == unwindAt + 1
             else |Flat(got)| + |g| <= unwindAt && Drained(Give(h, |got|, g)[|got|])
    ensures unwound ==> Interrupted(h0, w0, Give(h, |got|, g), w, got + [g], unwindAt)
    ensures !unwound ==> Passed(h0, w0, Give(h, |got|, g), Woken(w, |got|, g), got + [g], unwindAt)
  {
    GiveNext(h0, w0, got, g);
  }

  /** `Misread` is not an answer of the code: see `Ring.TryRecv`. */
  datatype Received<T> = Item(value: T) | Nothing | Misread

  function ItemOf<T>(r: Received<T>): Option<T>
  {
    if r.Item? then Some(r.value) else None
  }

  class Inner {
    const m: nat
    var shutdown: bool
    var liveProducers: nat
    /** How often each waiter was woken. */
    var fanInWakes: nat
    var producerWakes: seq<nat>

    ghost predicate Valid()
      reads this
    {
      |producerWakes| == m && liveProducers <= m
    }

    constructor (m: nat)
      ensures Valid() && this.m == m && liveProducers == m && !shutdown && fanInWakes == 0
    {
      this.m, liveProducers, shutdown, fanInWakes := m, m, false, 0;
      producerWakes := seq(m, _ => 0);
    }

    method WakeProducer(i: nat)
      requires Valid() && i < m
      modifies this`producerWakes
      ensures Valid() && producerWakes == old(producerWakes)[i := old(producerWakes)[i] + 1]
    {
      producerWakes := producerWakes[i := producerWakes[i] + 1];
    }

    /** Shut down: raise the flag, wake the consumer and every producer. */
    method Signal()
      requires Valid()
      modifies this`shutdown, this`fanInWakes, this`producerWakes
      ensures Valid() && shutdown && fanInWakes == old(fanInWakes) + 1
      ensures forall i :: 0 <= i < m ==> producerWakes[i] == old(producerWakes)[i] + 1
    {
      shutdown := true;
      fanInWakes := fanInWakes + 1;
      for i := 0 to m
        invariant Valid() && shutdown && fanInWakes == old(fanInWakes) + 1
        invariant forall j :: 0 <= j < m ==> producerWakes[j] == old(producerWakes)[j] + if j < i then 1 else 0
      {
        WakeProducer(i);
      }
    }
  }

  class Producer<T(==)> {
    const inner: Inner
    const index: nat
    const ring: Ring.Producer<T>

    ghost predicate Valid()
      reads this, inner, ring, ring.shared, ring.shared.slots
    {
      inner.Valid() && index < inner.m && ring.Valid()
    }

    constructor (inner: Inner, index: nat, ring: Ring.Producer<T>)
      requires inner.Valid() && index < inner.m && ring.Valid()
      ensures Valid() && this.inner == inner && this.index == index && this.ring == ring
    {
      this.inner, this.index, this.ring := inner, index, ring;
    }

    /** Send unless shut down or full, and wake the consumer for every item sent. */
    method TrySend(value: T) returns (back: Option<T>)
      requires Valid()
      modifies inner`fanInWakes, ring, ring.shared`head, ring.shared`sent, ring.shared`notEmptyWakes, ring.shared.slots
      ensures Valid()
      ensures back.None? <==> !inner.shutdown && |old(ring.shared.sent)| - |ring.shared.received| < ring.shared.cap
      ensures back.None? ==> ring.shared.sent == old(ring.shared.sent) + [value]
                             && inner.fanInWakes == old(inner.fanInWakes) + 1
      ensures back.Some? ==> back.value == value && ring.shared.sent == old(ring.shared.sent)
                             && inner.fanInWakes == old(inner.fanInWakes)
    {
      if inner.shutdown { return Some(value); }
      var r := ring.TrySend(value);
      match r
      case Sent =>
        inner.fanInWakes := inner.fanInWakes + 1;
        back := None;
      case Full(v) => back := Some(v);
      case Closed(v) => back := Some(v);
    }

    /** Bulk send: one wake when anything went. The items go in popping order. */
    method TrySendBulk(items: seq<T>) returns (take: nat, rest: seq<T>)
      requires Valid()
      modifies inner`fanInWakes, ring, ring.shared`head, ring.shared`sent, ring.shared`notEmptyWakes, ring.shared.slots
      ensures Valid()
      ensures take <= |items| && rest == items[..|items| - take]
      ensures take == 0 <==> items == [] || inner.shutdown
                             || |old(ring.shared.sent)| - |ring.shared.received| == ring.shared.cap
      ensures ring.shared.sent == old(ring.shared.sent) + Ring.Popped(items, take)
      ensures inner.fanInWakes == old(inner.fanInWakes) + if take == 0 then 0 else 1
    {
      if items == [] || inner.shutdown {
        assert ring.shared.sent == ring.shared.sent + Ring.Popped(items, 0);
        return 0, items;
      }
      take, rest := ring.TrySendBulk(items);
      if take > 0 { inner.fanInWakes := inner.fanInWakes + 1; }
    }

    /** Dropping the handle closes its ring before the live count goes down; the last
        one to go wakes the consumer. */
    method Drop()
      requires Valid() && inner.liveProducers > 0
      modifies inner`liveProducers, inner`fanInWakes
      modifies ring.shared`closed, ring.shared`notEmptyWakes, ring.shared`notFullWakes
      ensures ring.Valid() && inner.Valid() && ring.shared.closed
      ensures inner.liveProducers == old(inner.liveProducers) - 1
      ensures inner.fanInWakes == old(inner.fanInWakes) + if old(inner.liveProducers) == 1 then 1 else 0
    {
      ring.Drop();
      inner.liveProducers := inner.liveProducers - 1;
      if inner.liveProducers == 0 { inner.fanInWakes := inner.fanInWakes + 1; }
    }
  }

  class Consumer<T(==)> {
    const inner: Inner
    const rings: seq<Ring.Consumer<T>>

    /** Each ring is its own object, with its own slots. */
    ghost predicate Separate()
    {
      forall i, j :: 0 <= i < j < |rings| ==>
        rings[i] != rings[j] && rings[i].shared != rings[j].shared && rings[i].shared.slots != rings[j].shared.slots
    }

    ghost function Handles(): set<object>
    {
      set i | 0 <= i < |rings| :: rings[i]
    }

    ghost function Shared(): set<object>
    {
      set i | 0 <= i < |rings| :: rings[i].shared
    }

    ghost function Slots(): set<object>
    {
      set i | 0 <= i < |rings| :: rings[i].shared.slots
    }

    /** What every call maintains, unwound batches included. */
    ghost predicate Sound()
      reads this, inner, Handles(), Shared(), Slots()
    {
      && inner.Valid() && |rings| == inner.m && Separate()
      && forall i :: 0 <= i < |rings| ==> rings[i].Sound()
    }

    /** No ring's cache has been overtaken by an unwound drain. */
    ghost predicate Fresh()
      reads this, Handles(), Shared(), Slots()
    {
      forall i :: 0 <= i < |rings| ==> rings[i].Valid()
    }

    /** In which rings a receive reads only slots that own a value. */
    ghost function Safe(): (r: seq<bool>)
      reads Handles(), Shared()
      ensures |r| == |rings| && forall i :: 0 <= i < |rings| ==> r[i] == rings[i].ReadSafe()
    {
      seq(|rings|, i requires 0 <= i < |rings| reads Handles(), Shared() => rings[i].ReadSafe())
    }

    /** What went into each ring and what has come out of it. */
    ghost function Streams(): (r: seq<Stream<T>>)
      reads Shared()
      ensures |r| == |rings|
      ensures forall i :: 0 <= i < |rings| ==> r[i] == Stream(rings[i].shared.sent, rings[i].shared.received)
    {
      seq(|rings|, i requires 0 <= i < |rings| reads Shared() =>
            Stream(rings[i].shared.sent, rings[i].shared.received))
    }

    constructor (inner: Inner, rings: seq<Ring.Consumer<T>>)
      requires inner.Valid() && |rings| == inner.m
      requires forall i, j :: 0 <= i < j < |rings| ==>
        rings[i] != rings[j] && rings[i].shared != rings[j].shared && rings[i].shared.slots != rings[j].shared.slots
      requires forall i :: 0 <= i < |rings| ==> rings[i].Valid()
      ensures Sound() && Fresh() && this.inner == inner && this.rings == rings
    {
      this.inner, this.rings := inner, rings;
    }

    /** Look into one ring and wake its producer for what was taken. */
    method LookInto(i: nat) returns (got: Received<T>)
      requires Sound() && i < |rings|
      modifies inner`producerWakes, rings[i], rings[i].shared, rings[i].shared.slots
      ensures Sound() && (old(rings[i].Valid()) ==> rings[i].Valid())
      ensures got.Misread? <==> !old(rings[i].ReadSafe())
      ensures got.Misread? ==> Streams() == old(Streams()) && inner.producerWakes == old(inner.producerWakes)
      ensures !got.Misread? ==>
        TookFrom(old(Streams()), old(inner.producerWakes), Streams(), inner.producerWakes, i, ItemOf(got))
    {
      ghost var h0 := Streams();
      var r := rings[i].TryRecv();
      got := match r case Got(v) => Item(v) case Unowned => Misread case _ => Nothing;
      if r.Got? { inner.WakeProducer(i); }
      assert h0[i].received <= h0[i].sent;
    }

    /** The same look, as one of the scan. */
    method RecvAt(i: nat) returns (got: Received<T>)
      requires Sound() && i < |rings|
      modifies inner`producerWakes, rings[i], rings[i].shared, rings[i].shared.slots
      ensures Sound() && (old(Fresh()) ==> Fresh() && !got.Misread?)
      ensures forall j :: 0 <= j < |rings| && j != i ==> Safe()[j] == old(Safe())[j]
      ensures got.Misread? <==> !old(Safe())[i]
      ensures got.Misread? ==> Streams() == old(Streams()) && inner.producerWakes == old(inner.producerWakes)
      ensures !got.Misread? ==>
        TookFrom(old(Streams()), old(inner.producerWakes), Streams(), inner.producerWakes, i, ItemOf(got))
    {
      rings[i].ValidIsReadSafe();
      got := LookInto(i);
    }

    /** ... that began at `h0`. */
    method ScanAt(at: nat, ghost h0: seq<Stream<T>>, ghost w0: seq<nat>) returns (got: Received<T>)
      requires Sound() && at < |rings| && TookFirst(h0, w0, Streams(), inner.producerWakes, at, None)
      modifies inner`producerWakes, rings[at], rings[at].shared, rings[at].shared.slots
      ensures Sound() && (old(Fresh()) ==> Fresh() && !got.Misread?)
      ensures forall j :: 0 <= j < |rings| && j != at ==> Safe()[j] == old(Safe())[j]
      ensures got.Misread? <==> !old(Safe())[at]
      ensures TookFirst(h0, w0, Streams(), inner.producerWakes, if got.Nothing? then at + 1 else at, ItemOf(got))
    {
      got := RecvAt(at);
      if !got.Misread? { LookOn(h0, w0, Streams(), inner.producerWakes, at, ItemOf(got)); }
    }

    /** Receive from the first ring that holds anything, and wake its producer. The
        scan stops at the first ring in which it would read a slot that owns nothing;
        there is none unless a batch unwound earlier. */
    method TryRecv() returns (got: Received<T>, at: nat)
      requires Sound()
      modifies inner`producerWakes, Handles(), Shared(), Slots()
      ensures Sound() && (old(Fresh()) ==> Fresh() && !got.Misread?)
      ensures at <= |rings| && (got.Nothing? <==> at == |rings|)
      ensures forall i :: 0 <= i < at ==> old(Safe())[i]
      ensures at < |rings| ==> (got.Misread? <==> !old(Safe())[at])
      ensures TookFirst(old(Streams()), old(inner.producerWakes), Streams(), inner.producerWakes, at, ItemOf(got))
    {
      ghost var h0, w0, safe := Streams(), inner.producerWakes, Safe();
      ghost var fresh0 := Fresh();
      at := 0;
      while at < |rings|
        invariant Sound() && (fresh0 ==> Fresh()) && TookFirst(h0, w0, Streams(), inner.producerWakes, at, None)
        invariant forall i :: 0 <= i < at ==> safe[i]
        invariant forall i :: at <= i < |rings| ==> Safe()[i] == safe[i]
      {
        got := ScanAt(at, h0, w0);
        if !got.Nothing? { return; }
        at := at + 1;
      }
      got := Nothing;
    }

    /** Whether any ring shows an item to a fresh look. */
    method AnyRingHasWork() returns (work: bool)
      requires Sound()
      ensures work <==> exists i :: 0 <= i < |rings| && !Drained(Streams()[i])
    {
      ghost var h := Streams();
      for i := 0 to |rings|
        invariant forall j :: 0 <= j < i ==> Drained(h[j])
      {
        assert rings[i].Sound();
        var len := rings[i].shared.Len();
        LenIsWhatIsLeft(h[i]);
        if len != 0 {
          assert !Drained(Streams()[i]);
          return true;
        }
      }
      work := false;
    }

    /** When a blocked receive gives up: at once when signalled, and otherwise when no
        producer is left and a look taken after that finds every ring drained. */
    method IsFinished() returns (finished: bool)
      requires Sound()
      ensures inner.shutdown ==> finished
      ensures !inner.shutdown && inner.liveProducers > 0 ==> !finished
      ensures !inner.shutdown && inner.liveProducers == 0 ==>
        (finished <==> forall i :: 0 <= i < |rings| ==> Drained(Streams()[i]))
    {
      if inner.shutdown { return true; }
      if inner.liveProducers != 0 { return false; }
      var work := AnyRingHasWork();
      finished := !work;
    }

    /** The drain of one ring. */
    method DrainInto(i: nat, unwindAt: nat) returns (got: seq<T>, unwound: bool)
      requires Sound() && i < |rings|
      modifies rings[i], rings[i].shared, rings[i].shared.slots
      ensures Sound() && Streams() == Give(old(Streams()), i, got)
      ensures unwound ==> |got| == unwindAt + 1
      ensures !unwound ==> |got| <= unwindAt && Drained(Streams()[i]) && (got != [] ==> rings[i].Valid())
      ensures !unwound && old(Fresh()) ==> Fresh()
    {
      got, unwound := rings[i].Drain(unwindAt);
    }

    /** One ring of a batch. The wake is for a drain that returned and found something. */
    method DrainAt(i: nat, unwindAt: nat) returns (got: seq<T>, unwound: bool)
      requires Sound() && i < |rings|
      modifies inner`producerWakes, rings[i], rings[i].shared, rings[i].shared.slots
      ensures Sound() && Streams() == Give(old(Streams()), i, got)
      ensures unwound ==> |got| == unwindAt + 1
      ensures !unwound ==> |got| <= unwindAt && Drained(Streams()[i])
      ensures !unwound && got != [] ==> rings[i].Valid()
      ensures !unwound && old(Fresh()) ==> Fresh()
      ensures inner.producerWakes == if unwound then old(inner.producerWakes)
                                     else Woken(old(inner.producerWakes), i, got)
    {
      got, unwound := DrainInto(i, unwindAt);
      if !unwound && got != [] { inner.WakeProducer(i); }
    }

    /** The same look, as one step of a pass that began at `h0`. */
    method DrainNext(before: seq<seq<T>>, unwindAt: nat, ghost h0: seq<Stream<T>>, ghost w0: seq<nat>)
      returns (got: seq<seq<T>>, unwound: bool)
      requires Sound() && |before| < |rings| == |h0| == |w0|
      requires Passed(h0, w0, Streams(), inner.producerWakes, before, unwindAt)
      modifies inner`producerWakes, rings[|before|], rings[|before|].shared, rings[|before|].shared.slots
      ensures Sound() && |got| == |before| + 1
      ensures unwound ==> Interrupted(h0, w0, Streams(), inner.producerWakes, got, unwindAt)
      ensures !unwound ==> Passed(h0, w0, Streams(), inner.producerWakes, got, unwindAt) && (old(Fresh()) ==> Fresh())
    {
      ghost var h, w := Streams(), inner.producerWakes;
      var g;
      g, unwound := DrainAt(|before|, unwindAt - |Flat(before)|);
      PassOn(h0, w0, h, w, before, unwindAt, g, unwound);
      got := before + [g];
    }

    /** One pass of a batch: what each ring in turn gave to the callback. */
    method DrainPass(unwindAt: nat) returns (got: seq<seq<T>>, unwound: bool)
      requires Sound()
      modifies inner`producerWakes, Handles(), Shared(), Slots()
      ensures Sound()
      ensures unwound ==> Interrupted(old(Streams()), old(inner.producerWakes), Streams(), inner.producerWakes, got, unwindAt)
      ensures !unwound ==> |got| == |rings| && (old(Fresh()) ==> Fresh())
      ensures !unwound ==> Passed(old(Streams()), old(inner.producerWakes), Streams(), inner.producerWakes, got, unwindAt)
    {
      ghost var h0, w0, fresh0 := Streams(), inner.producerWakes, Fresh();
      got, unwound := [], false;
      while |got| < |rings|
        invariant |got| <= |rings| && Sound() && (fresh0 ==> Fresh()) && !unwound
        invariant Passed(h0, w0, Streams(), inner.producerWakes, got, unwindAt)
      {
        got, unwound := DrainNext(got, unwindAt, h0, w0);
        if unwound { return; }
      }
    }

    /** No ring has received more than was sent. */
    lemma Bounded()
      requires Sound()
      ensures forall i :: 0 <= i < |rings| ==> |Streams()[i].received| <= |Streams()[i].sent|
    {
    }

    /** A pass after one that drained every ring. */
    method PassAgain(unwindAt: nat) returns (progress: bool)
      requires Sound() && forall i :: 0 <= i < |rings| ==> Drained(Streams()[i])
      modifies inner`producerWakes, Handles(), Shared(), Slots()
      ensures Sound() && (old(Fresh()) ==> Fresh())
      ensures !progress && Streams() == old(Streams()) && inner.producerWakes == old(inner.producerWakes)
    {
      ghost var h, w := Streams(), inner.producerWakes;
      var more, again := DrainPass(unwindAt);
      Bounded();
      NothingMore(h, w, more);
      progress := |Flat(more)| > 0;
    }

    /** Drain every ring, pass by pass, until a pass finds nothing. Each ring gave up
        `got[i]`; nothing is lost or given twice, whether or not the callback unwinds
        on its call number `unwindAt`. Any call may follow an unwound one; a receive
        then needs care in the ring that was being drained: see `TryRecv`. */
    method TryRecvBatch(unwindAt: nat) returns (got: seq<seq<T>>, unwound: bool)
      requires Sound()
      modifies inner`producerWakes, Handles(), Shared(), Slots()
      ensures Sound()
      ensures unwound ==> Interrupted(old(Streams()), old(inner.producerWakes), Streams(), inner.producerWakes, got, unwindAt)
      ensures !unwound ==> |got| == |rings| && (old(Fresh()) ==> Fresh())
      ensures !unwound ==> Passed(old(Streams()), old(inner.producerWakes), Streams(), inner.producerWakes, got, unwindAt)
    {
      ghost var fresh0 := Fresh();
      got, unwound := DrainPass(unwindAt);
      if unwound { return; }
      var progress := |Flat(got)| > 0;
      ghost var h, w := Streams(), inner.producerWakes;
      while progress
        invariant Sound() && (fresh0 ==> Fresh()) && Streams() == h && inner.producerWakes == w
        decreases progress
      {
        progress := PassAgain(unwindAt - |Flat(got)|);
      }
    }
  }
}
