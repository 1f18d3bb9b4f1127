/** The single-producer single-consumer ring with its two handles, call by call:
    wrapping word cursors, masked slots, private stale copies of the peer's
    cursor, bulk send, bulk drain under an unwind guard, and teardown.

    Ghost history makes ownership explicit: `sent` is everything ever published and
    `received` everything ever moved out; their lengths are the unbounded cursors. */
module Ring {
  import opened Bits
  import opened Slots

  datatype TrySend<T> = Sent | Full(back: T) | Closed(back: T)

  /** `Unowned` is not an answer of the code: it marks a call that reads a slot which
      owns no value, and nothing that follows it means anything. */
  datatype TryRecv<T> = Got(value: T) | Empty | Disconnected | Unowned

  /** The last `n` items of `items`, last first: what `n` calls of `pop` yield. */
  function Popped<T>(items: seq<T>, n: nat): (r: seq<T>)
    requires n <= |items|
    ensures |r| == n
  {
    if n == 0 then [] else Popped(items, n - 1) + [items[|items| - n]]
  }

  /** Popping everything reverses the vector. */
  lemma {:induction false} PoppedReverses<T>(items: seq<T>, n: nat, j: nat)
    requires j < n <= |items|
    ensures Popped(items, n)[j] == items[|items| - 1 - j]
  {
    if j < n - 1 { PoppedReverses(items, n - 1, j); }
  }

  class Ring<T(==)> {
    const bits: nat
    const k: nat
    const cap: nat
    const slots: array<Slot<T>>
    var head: nat
    var tail: nat
    var closed: bool

    ghost var sent: seq<T>
    ghost var received: seq<T>
    /** How often each waiter was woken. */
    ghost var notEmptyWakes: nat
    ghost var notFullWakes: nat

    /** `CAP` is a power of two below the word size. */
    ghost predicate Shape()
    {
      k < bits && cap == Pow2(k) && slots.Length == cap
    }

    ghost predicate SlotsHold(r: nat, vals: seq<T>)
      requires Shape()
      reads slots
    {
      Window(slots[..], r, vals)
    }

    ghost predicate Valid()
      reads this, slots
    {
      && Shape()
      && |received| <= |sent| <= |received| + cap
      && sent[..|received|] == received
      && head == Wrap(|sent|, bits)
      && tail == Wrap(|received|, bits)
      && SlotsHold(|received|, sent)
    }

    constructor (bits: nat, k: nat)
      requires k < bits
      ensures Valid() && fresh(slots)
      ensures this.bits == bits && cap == Pow2(k)
      ensures sent == [] && received == [] && !closed
      ensures head == 0 && tail == 0
    {
      this.bits, this.k, cap := bits, k, Pow2(k);
      slots := new Slot<T>[Pow2(k)](_ => Uninit);
      head, tail, closed := 0, 0, false;
      sent, received := [], [];
      notEmptyWakes, notFullWakes := 0, 0;
      new;
      WrapUnique(0, 0, 0, bits);
    }

    method Len() returns (n: nat)
      requires Valid()
      ensures n == |sent| - |received|
    {
      WordsFit();
      WrapSubExact(|sent|, |received|, bits);
      n := WrapSub(head, tail, bits);
    }

    /** A full ring still fits the word, so full and empty are never confused. */
    lemma WordsFit()
      requires Shape()
      ensures cap < Pow2(bits)
    {
      Fits(k, bits);
    }

    method Close()
      requires Valid()
      modifies this`closed, this`notEmptyWakes, this`notFullWakes
      ensures Valid() && closed
      ensures notEmptyWakes == old(notEmptyWakes) + 1 && notFullWakes == old(notFullWakes) + 1
    {
      closed := true;
      notFullWakes := notFullWakes + 1;
      notEmptyWakes := notEmptyWakes + 1;
    }

    /** The slot that a receive reads owns a value exactly if an item is left. */
    lemma NextSlotOwned()
      requires Valid()
      ensures And(tail, cap - 1) < slots.Length
      ensures slots[And(tail, cap - 1)].Init? <==> |received| < |sent|
    {
      MaskedCursor(|received|, k, bits);
      assert slots[..][SlotOf(|received|, cap)] == if |received| < |sent| then Init(sent[|received|]) else Uninit;
    }

    /** Move the value for counter `r` out of its slot. */
    method MoveOut(ghost r: nat, ghost vals: seq<T>, word: nat) returns (v: T)
      requires Shape() && r < |vals| <= r + cap && SlotsHold(r, vals) && word == Wrap(r, bits)
      modifies slots
      ensures v == vals[r] && SlotsHold(r + 1, vals)
    {
      MaskedCursor(r, k, bits);
      TakeFirst(slots[..], r, vals);
      var ix := And(word, cap - 1);
      assert ix == SlotOf(r, cap);
      assert slots[ix].Init?;
      v := slots[ix].value;
      slots[ix] := Uninit;
      assert slots[..] == old(slots[..])[ix := Uninit];
    }

    /** Write `v` into the free slot of counter `|vals|`. */
    method MoveIn(ghost r: nat, ghost vals: seq<T>, word: nat, v: T)
      requires Shape() && r <= |vals| < r + cap && SlotsHold(r, vals) && word == Wrap(|vals|, bits)
      modifies slots
      ensures SlotsHold(r, vals + [v])
    {
      MaskedCursor(|vals|, k, bits);
      PutNext(slots[..], r, vals, v);
      var ix := And(word, cap - 1);
      assert ix == SlotOf(|vals|, cap);
      assert slots[ix].Uninit?;
      slots[ix] := Init(v);
      assert slots[..] == old(slots[..])[ix := Init(v)];
    }

    /** The bulk-send loop: pop `take` items into consecutive slots from `head0`. */
    method FillSlots(ghost r: nat, ghost vals: seq<T>, head0: nat, items: seq<T>, take: nat)
      returns (h: nat, rest: seq<T>)
      requires Shape() && r <= |vals| && |vals| + take <= r + cap && take <= |items|
      requires SlotsHold(r, vals) && head0 == Wrap(|vals|, bits)
      modifies slots
      ensures rest == items[..|items| - take]
      ensures h == Wrap(|vals| + take, bits)
      ensures SlotsHold(r, vals + Popped(items, take))
    {
      h, rest := head0, items;
      assert vals + Popped(items, 0) == vals;
      for n := 0 to take
        invariant rest == items[..|items| - n]
        invariant h == Wrap(|vals| + n, bits)
        invariant SlotsHold(r, vals + Popped(items, n))
      {
        var v := rest[|rest| - 1];
        rest := rest[..|rest| - 1];
        MoveIn(r, vals + Popped(items, n), h, v);
        assert vals + Popped(items, n + 1) == vals + Popped(items, n) + [v];
        WrapIncExact(|vals| + n, bits);
        h := WrapInc(h, bits);
      }
    }

    /** The drain loop: move out everything below `head`, up to and including the
        item whose callback unwinds. */
    method EmptySlots(ghost r: nat, ghost vals: seq<T>, start: nat, head: nat, unwindAt: nat)
      returns (t: nat, got: seq<T>, unwound: bool)
      requires Shape() && r <= |vals| <= r + cap && SlotsHold(r, vals)
      requires start == Wrap(r, bits) && head == Wrap(|vals|, bits)
      modifies slots
      ensures r + |got| <= |vals| && got == vals[r..r + |got|]
      ensures t == Wrap(r + |got|, bits) && SlotsHold(r + |got|, vals)
      ensures |got| == if unwindAt < |vals| - r then unwindAt + 1 else |vals| - r
      ensures unwound <==> unwindAt < |vals| - r
    {
      WordsFit();
      t, got, unwound := start, [], false;
      WrapInjective(|vals|, r, bits);
      while t != head && !unwound
        invariant r + |got| <= |vals| && got == vals[r..r + |got|]
        invariant t == Wrap(r + |got|, bits)
        invariant t == head <==> r + |got| == |vals|
        invariant SlotsHold(r + |got|, vals)
        invariant if unwound then |got| == unwindAt + 1 else |got| <= unwindAt
        decreases |vals| - |got|
      {
        var v := MoveOut(r + |got|, vals, t);
        WrapIncExact(r + |got|, bits);
        t := WrapInc(t, bits);
        unwound := |got| == unwindAt;
        got := got + [v];
        WrapInjective(|vals|, r + |got|, bits);
      }
    }

    /** `Drop for Ring`: destroy, in order, whatever is still between the cursors.
        Runs with exclusive access, so nothing is required of the handles. */
    method Drop() returns (destroyed: seq<T>)
      requires Valid()
      modifies slots
      ensures sent == received + destroyed
      ensures forall j :: 0 <= j < slots.Length ==> slots[j].Uninit?
    {
      WordsFit();
      var i := tail;
      destroyed := [];
      ghost var r := |received|;
      WrapInjective(|sent|, r, bits);
      while i != head
        invariant r + |destroyed| <= |sent|
        invariant i == Wrap(r + |destroyed|, bits)
        invariant i == head <==> r + |destroyed| == |sent|
        invariant SlotsHold(r + |destroyed|, sent)
        invariant destroyed == sent[r..r + |destroyed|]
        decreases |sent| - |destroyed|
      {
        var v := MoveOut(r + |destroyed|, sent, i);
        WrapIncExact(r + |destroyed|, bits);
        i := WrapInc(i, bits);
        destroyed := destroyed + [v];
        WrapInjective(|sent|, r + |destroyed|, bits);
      }
      AllUninit(slots[..], |sent|, sent);
      assert forall j :: 0 <= j < slots.Length ==> slots[j] == slots[..][j];
    }
  }

  class Producer<T(==)> {
    const shared: Ring<T>
    var cachedTail: nat
    /** The unbounded value that `cachedTail` is the word of. */
    ghost var seenTail: nat

    /** The cache may be arbitrarily stale: any tail that was current at some
        time, as long as the ring could not have overfilled since. */
    ghost predicate Valid()
      reads this, shared, shared.slots
    {
      && shared.Valid()
      && cachedTail == Wrap(seenTail, shared.bits)
      && seenTail <= |shared.received|
      && |shared.sent| <= seenTail + shared.cap
    }

    constructor (ring: Ring<T>)
      requires ring.Valid() && ring.sent == []
      ensures shared == ring && Valid()
    {
      shared := ring;
      cachedTail, seenTail := 0, 0;
      new;
      WrapUnique(0, 0, 0, shared.bits);
    }

    method TrySend(value: T) returns (r: TrySend<T>)
      requires Valid()
      modifies this, shared`head, shared`sent, shared`notEmptyWakes, shared.slots
      ensures Valid()
      ensures r.Sent? <==> |old(shared.sent)| - |shared.received| < shared.cap
      ensures r.Sent? ==> shared.sent == old(shared.sent) + [value]
                          && shared.notEmptyWakes == old(shared.notEmptyWakes) + 1
      ensures !r.Sent? ==> shared.sent == old(shared.sent) && r.back == value
                           && shared.notEmptyWakes == old(shared.notEmptyWakes)
      ensures r.Closed? <==> !r.Sent? && shared.closed
    {
      shared.WordsFit();
      var head := shared.head;
      WrapSubExact(|shared.sent|, seenTail, shared.bits);
      WrapSubExact(|shared.sent|, |shared.received|, shared.bits);
      if WrapSub(head, cachedTail, shared.bits) >= shared.cap {
        cachedTail := shared.tail;
        seenTail := |shared.received|;
        if WrapSub(head, cachedTail, shared.bits) >= shared.cap {
          return if shared.closed then Closed(value) else Full(value);
        }
      }
      shared.MoveIn(|shared.received|, shared.sent, head, value);
      WrapIncExact(|shared.sent|, shared.bits);
      shared.head := WrapInc(head, shared.bits);
      shared.sent := shared.sent + [value];
      shared.notEmptyWakes := shared.notEmptyWakes + 1;
      r := Sent;
    }

    /** Publish as many items as the producer can see room for, popping them off
        the end of `items`, under one cursor store and one wake. */
    method TrySendBulk(items: seq<T>) returns (take: nat, rest: seq<T>)
      requires Valid()
      modifies this, shared`head, shared`sent, shared`notEmptyWakes, shared.slots
      ensures Valid()
      ensures take <= |items| && rest == items[..|items| - take]
      ensures shared.sent == old(shared.sent) + Popped(items, take)
      ensures var known := if |old(shared.sent)| - old(seenTail) == shared.cap
                           then |shared.received| else old(seenTail);
              var room := shared.cap - (|old(shared.sent)| - known);
              take == if |items| <= room then |items| else room
      ensures take == 0 <==> items == [] || |old(shared.sent)| - |shared.received| == shared.cap
      ensures shared.notEmptyWakes == old(shared.notEmptyWakes) + (if take == 0 then 0 else 1)
    {
      take, rest := 0, items;
      if items == [] { return; }
      shared.WordsFit();
      var head0 := shared.head;
      ghost var sent0, r := shared.sent, |shared.received|;
      WrapSubExact(|sent0|, seenTail, shared.bits);
      WrapSubExact(|sent0|, r, shared.bits);
      var used := WrapSub(head0, cachedTail, shared.bits);
      if used >= shared.cap {
        cachedTail := shared.tail;
        seenTail := r;
        used := WrapSub(head0, cachedTail, shared.bits);
      }
      var avail := if shared.cap >= used then shared.cap - used else 0;
      if avail == 0 { return; }
      take := if |items| <= avail then |items| else avail;
      var h;
      h, rest := shared.FillSlots(r, sent0, head0, items, take);
      shared.head := h;
      shared.sent := sent0 + Popped(items, take);
      shared.notEmptyWakes := shared.notEmptyWakes + 1;
    }

    /** Dropping the handle closes the ring and wakes both sides. */
    method Drop()
      requires Valid()
      modifies shared`closed, shared`notEmptyWakes, shared`notFullWakes
      ensures Valid() && shared.closed
      ensures shared.notEmptyWakes == old(shared.notEmptyWakes) + 1
    {
      shared.Close();
    }
  }

  class Consumer<T(==)> {
    const shared: Ring<T>
    var cachedHead: nat
    ghost var seenHead: nat

    /** What every call maintains, unwound drains included: the ring itself, and that
        the cache is the word of some head of the past. */
    ghost predicate Sound()
      reads this, shared, shared.slots
    {
      shared.Valid() && cachedHead == Wrap(seenHead, shared.bits) && seenHead <= |shared.sent|
    }

    /** What every call but an unwound drain maintains: the cache has not been overtaken. */
    ghost predicate Valid()
      reads this, shared, shared.slots
    {
      Sound() && |shared.received| <= seenHead
    }

    /** A cache that differs from the tail is taken as proof of an item; the proof is
        good exactly if there is one. */
    ghost predicate ReadSafe()
      reads this, shared
    {
      cachedHead == shared.tail || |shared.received| < |shared.sent|
    }

    constructor (ring: Ring<T>)
      requires ring.Valid() && ring.sent == []
      ensures shared == ring && Valid()
    {
      shared := ring;
      cachedHead, seenHead := 0, 0;
      new;
      WrapUnique(0, 0, 0, shared.bits);
    }

    lemma ValidIsReadSafe()
      ensures Valid() ==> ReadSafe()
    {
      if Valid() {
        shared.WordsFit();
        WrapInjective(seenHead, |shared.received|, shared.bits);
      }
    }

    /** May be called at any time; reads a slot that owns nothing exactly if the state
        was not `ReadSafe`. Only a call that finds the cache at the tail looks at the
        head again, and that repairs a cache left behind by an unwound drain. */
    method TryRecv() returns (r: TryRecv<T>)
      requires Sound()
      modifies this, shared`tail, shared`received, shared`notFullWakes, shared.slots
      ensures Sound() && (old(Valid()) || old(cachedHead == shared.tail) ==> Valid())
      ensures r.Unowned? <==> !old(ReadSafe())
      ensures r.Got? <==> old(ReadSafe()) && |old(shared.received)| < |shared.sent|
      ensures r.Got? ==> r.value == shared.sent[|old(shared.received)|]
                         && shared.received == old(shared.received) + [r.value]
                         && shared.notFullWakes == old(shared.notFullWakes) + 1
      ensures !r.Got? ==> shared.received == old(shared.received)
                          && shared.notFullWakes == old(shared.notFullWakes)
      ensures r.Disconnected? <==> shared.closed && shared.received == shared.sent && !r.Got? && !r.Unowned?
      ensures old(cachedHead != shared.tail) ==> cachedHead == old(cachedHead) && seenHead == old(seenHead)
    {
      shared.WordsFit();
      var tail := shared.tail;
      WrapInjective(|shared.sent|, |shared.received|, shared.bits);
      if cachedHead == tail {
        cachedHead, seenHead := shared.head, |shared.sent|;
        if cachedHead == tail {
          if !shared.closed { return Empty; }
          cachedHead, seenHead := shared.head, |shared.sent|;
          if cachedHead == tail { return Disconnected; }
        }
      }
      shared.NextSlotOwned();
      if shared.slots[And(tail, shared.cap - 1)].Uninit? { return Unowned; }
      var v := TakeNext(tail);
      r := Got(v);
    }

    /** The tail of a successful receive: move the value out, publish the tail, wake. */
    method TakeNext(tail: nat) returns (v: T)
      requires Sound() && tail == shared.tail && |shared.received| < |shared.sent|
      modifies shared`tail, shared`received, shared`notFullWakes, shared.slots
      ensures Sound() && (|old(shared.received)| < seenHead ==> Valid())
      ensures v == shared.sent[|old(shared.received)|]
      ensures shared.received == old(shared.received) + [v]
      ensures shared.notFullWakes == old(shared.notFullWakes) + 1
    {
      v := shared.MoveOut(|shared.received|, shared.sent, tail);
      WrapIncExact(|shared.received|, shared.bits);
      shared.tail := WrapInc(tail, shared.bits);
      assert shared.sent[..|shared.received| + 1] == shared.received + [v];
      shared.received := shared.received + [v];
      shared.notFullWakes := shared.notFullWakes + 1;
    }

    /** Hand everything visible to a callback that unwinds on its call number
        `unwindAt` (never, if there are not that many items). `got` is what the
        callback was given, the unwinding call included.

        An unwound drain has still published what it moved out, but has neither
        woken the producer nor refreshed the cache. Any call may follow; a receive is
        then safe exactly if items are left or the cache still names the tail. */
    method Drain(unwindAt: nat) returns (got: seq<T>, unwound: bool)
      requires Sound()
      modifies this, shared`tail, shared`received, shared`notFullWakes, shared.slots
      ensures Sound()
      ensures shared.received == old(shared.received) + got
      ensures unwound <==> unwindAt < |shared.sent| - |old(shared.received)|
      ensures unwound ==> |got| == unwindAt + 1
      ensures !unwound ==> shared.received == shared.sent && (old(Valid()) || got != [] ==> Valid())
      ensures unwound || got == [] ==> cachedHead == old(cachedHead) && seenHead == old(seenHead)
                                       && shared.notFullWakes == old(shared.notFullWakes)
      ensures !unwound && got != [] ==> shared.notFullWakes == old(shared.notFullWakes) + 1
      ensures unwound && old(Valid()) ==> (ReadSafe() <==> |shared.received| < |shared.sent| || seenHead == |shared.received|)
    {
      shared.WordsFit();
      var start := shared.tail;
      var head := shared.head;
      ghost var r0 := |shared.received|;
      WrapInjective(|shared.sent|, r0, shared.bits);
      got, unwound := [], false;
      if start == head {
        assert shared.sent[..r0] == shared.sent;
        return;
      }
      var t;
      t, got, unwound := shared.EmptySlots(r0, shared.sent, start, head, unwindAt);
      // the guard's drop, on both paths
      shared.tail := t;
      assert shared.sent[..r0 + |got|] == shared.received + got;
      shared.received := shared.received + got;
      if unwound {
        if r0 <= seenHead { CacheNear(r0); }
        return;
      }
      assert shared.sent[..r0 + |got|] == shared.sent;
      shared.notFullWakes := shared.notFullWakes + 1;
      cachedHead, seenHead := head, |shared.sent|;
    }

    /** Within one lap of the cache, its word tells whether it is the tail. */
    lemma CacheNear(r0: nat)
      requires Sound() && r0 <= seenHead && r0 <= |shared.received| && |shared.sent| <= r0 + shared.cap
      ensures cachedHead == shared.tail <==> seenHead == |shared.received|
    {
      shared.WordsFit();
      if seenHead >= |shared.received| {
        WrapInjective(seenHead, |shared.received|, shared.bits);
      } else {
        WrapInjective(|shared.received|, seenHead, shared.bits);
      }
    }

    method Drop()
      requires shared.Valid()
      modifies shared`closed, shared`notEmptyWakes, shared`notFullWakes
      ensures shared.Valid() && shared.closed
      ensures shared.notFullWakes == old(shared.notFullWakes) + 1
    {
      shared.Close();
    }
  }

  /** What a send does to the reader's condition: any item makes every receive safe
      until it is taken, and a refusal changes nothing. */
  method SendForReader<T(==)>(p: Producer<T>, c: Consumer<T>, value: T) returns (r: TrySend<T>)
    requires p.shared == c.shared && p.Valid() && c.Sound()
    modifies p, p.shared`head, p.shared`sent, p.shared`notEmptyWakes, p.shared.slots
    ensures p.Valid() && c.Sound() && (old(c.Valid()) ==> c.Valid())
    ensures c.ReadSafe() <==> r.Sent? || old(c.ReadSafe())
  {
    r := p.TrySend(value);
  }

  /** The condition can fail: one slot, one send, a drain whose callback unwinds on
      that item, and the next receive reads the slot that was just emptied. */
  method UnwoundDrainMisreads() returns (r: TryRecv<int>)
    ensures r.Unowned?
  {
    var ring := new Ring<int>(1, 0);
    var p := new Producer(ring);
    var c := new Consumer(ring);
    var sent := p.TrySend(7);
    assert sent.Sent?;
    var got, unwound := c.Drain(0);
    assert |ring.received| == 1 == |ring.sent| && c.seenHead == 0;
    r := c.TryRecv();
  }

  datatype Call<T> = Send(value: T) | SendBulk(items: seq<T>) | Recv | DrainAll(unwindAt: nat)

  /** One call: what the ring took in and what it gave out. */
  method Perform<T(==)>(p: Producer<T>, c: Consumer<T>, call: Call<T>) returns (put: seq<T>, got: seq<T>, misread: bool)
    requires p.shared == c.shared && p.Valid() && c.Sound()
    modifies p, c, p.shared`head, p.shared`tail, p.shared`sent, p.shared`received
    modifies p.shared`notEmptyWakes, p.shared`notFullWakes, p.shared.slots
    ensures p.Valid() && c.Sound() && (old(c.Valid()) && !call.DrainAll? ==> c.Valid())
    ensures misread ==> call.Recv? && !old(c.Valid())
    ensures !misread ==> p.shared.sent == old(p.shared.sent) + put && p.shared.received == old(p.shared.received) + got
  {
    put, got, misread := [], [], false;
    match call
    case Send(v) =>
      var r := p.TrySend(v);
      if r.Sent? { put := [v]; }
    case SendBulk(items) =>
      var take, rest := p.TrySendBulk(items);
      put := Popped(items, take);
    case Recv =>
      c.ValidIsReadSafe();
      var r := c.TryRecv();
      misread := r.Unowned?;
      if r.Got? { got := [r.value]; }
    case DrainAll(at) =>
      var unwound;
      got, unwound := c.Drain(at);
  }

  /** Any calls on the two handles, in any order, unwound drains and whatever follows
      them included, then both drops and the teardown: what was accepted is what was
      delivered followed by what was destroyed. The one exception is a run in which a
      receive, some time after a drain, reads a slot that owns nothing. */
  method RunAndTearDown<T(==)>(bits: nat, k: nat, calls: seq<Call<T>>)
    returns (accepted: seq<T>, delivered: seq<T>, destroyed: seq<T>, misread: bool)
    requires k < bits
    ensures !misread ==> accepted == delivered + destroyed
    ensures misread ==> exists i, j :: 0 <= i < j < |calls| && calls[i].DrainAll? && calls[j].Recv?
  {
    var ring := new Ring<T>(bits, k);
    var p := new Producer(ring);
    var c := new Consumer(ring);
    accepted, delivered, misread := [], [], false;
    for i := 0 to |calls|
      invariant p.shared == c.shared == ring
      invariant p.Valid() && c.Sound() && !misread
      invariant c.Valid() || exists j :: 0 <= j < i && calls[j].DrainAll?
      invariant accepted == ring.sent && delivered == ring.received
      invariant fresh(ring) && fresh(ring.slots) && fresh(p) && fresh(c)
    {
      var put, got;
      put, got, misread := Perform(p, c, calls[i]);
      if misread { return accepted, delivered, [], true; }
      accepted, delivered := accepted + put, delivered + got;
    }
    p.Drop();
    c.Drop();
    destroyed := ring.Drop();
  }
}
