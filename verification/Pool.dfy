/** The leasable producer pool, call by call: a 256-bit occupancy bitmap in four
    words over a vector of producer slots. Its abstract value is the set of leased
    slots; a slot's cell is occupied exactly while the slot is not leased. */
module Pool {
  import opened Bits
  import opened Runs

  const WORDS: nat := 4
  const WORD: nat := 64
  const MAX_MPSC_PRODUCERS: nat := 255

  function CountOnes(a: nat): nat
  {
    if a == 0 then 0 else a % 2 + CountOnes(a / 2)
  }

  /** How many of the bits below `n` are clear. */
  function ClearBelow(a: nat, n: nat): nat
  {
    if n == 0 then 0 else (if a % 2 == 1 then 0 else 1) + ClearBelow(a / 2, n - 1)
  }

  lemma {:induction false} ClearBelowSnoc(a: nat, n: nat)
    ensures ClearBelow(a, n + 1) == ClearBelow(a, n) + (if Bit(a, n) then 0 else 1)
  {
    if n > 0 { ClearBelowSnoc(a / 2, n - 1); }
  }

  /** Counting the ones of a masked complement counts the clear bits under the mask. */
  lemma {:induction false} MaskedComplement(a: nat, n: nat, width: nat)
    requires n <= width && a < Pow2(width)
    ensures CountOnes(And(Not(a, width), Pow2(n) - 1)) == ClearBelow(a, n)
  {
    if n > 0 {
      var x, y := Not(a, width), Pow2(n) - 1;
      NotHalf(a, width);
      assert y / 2 == Pow2(n - 1) - 1 && y % 2 == 1;
      MaskedComplement(a / 2, n - 1, width - 1);
      AndHalf(x, y);
      assert And(x, y) / 2 == And(x / 2, y / 2) && And(x, y) % 2 == 1 - a % 2;
    }
  }

  lemma {:induction false} MaskBits(n: nat, i: nat)
    ensures Bit(Pow2(n) - 1, i) <==> i < n
  {
    ZeroBits(i);
    NotBit(0, n, i);
  }

  /** The clear bits below `live`, as the scan computes them. */
  function FreeBits(cur: nat, live: nat): nat
    requires cur < Pow2(WORD)
  {
    And(Not(cur, WORD), Pow2(live) - 1)
  }

  lemma FreeBit(cur: nat, live: nat, j: nat)
    requires cur < Pow2(WORD) && live <= WORD
    ensures Bit(FreeBits(cur, live), j) <==> j < live && !Bit(cur, j)
  {
    AndBit(Not(cur, WORD), Pow2(live) - 1, j);
    MaskBits(live, j);
    NotBit(cur, WORD, j);
  }

  /** How many numbers below `n` are not in `s`. */
  ghost function FreeBelow(s: set<nat>, n: nat): nat
  {
    if n == 0 then 0 else FreeBelow(s, n - 1) + (if n - 1 in s then 0 else 1)
  }

  /** A word's clear bits are the free numbers it stands for. */
  lemma {:induction false} FreeInWord(s: set<nat>, base: nat, cur: nat, n: nat)
    requires forall b: nat :: b < n ==> (base + b in s <==> Bit(cur, b))
    ensures FreeBelow(s, base + n) == FreeBelow(s, base) + ClearBelow(cur, n)
  {
    if n > 0 {
      FreeInWord(s, base, cur, n - 1);
      ClearBelowSnoc(cur, n - 1);
      assert base + (n - 1) in s <==> Bit(cur, n - 1);
    }
  }

  /** ... and the scan counts them. */
  lemma CountWord(s: set<nat>, base: nat, cur: nat, live: nat, width: nat)
    requires cur < Pow2(width) && live <= width
    requires forall b: nat :: b < live ==> (base + b in s <==> Bit(cur, b))
    ensures FreeBelow(s, base + live) == FreeBelow(s, base) + CountOnes(And(Not(cur, width), Pow2(live) - 1))
  {
    FreeInWord(s, base, cur, live);
    MaskedComplement(cur, live, width);
  }

  lemma CountFreeBits(s: set<nat>, base: nat, cur: nat, live: nat)
    requires cur < Pow2(WORD) && live <= WORD
    requires forall b: nat :: b < live ==> (base + b in s <==> Bit(cur, b))
    ensures FreeBelow(s, base + live) == FreeBelow(s, base) + CountOnes(FreeBits(cur, live))
  {
    CountWord(s, base, cur, live, WORD);
  }

  lemma {:induction false} FreeCountsSet(s: set<nat>, n: nat)
    ensures FreeBelow(s, n) == n - |set i | i in s && i < n|
  {
    var t := set i | i in s && i < n;
    if n == 0 {
      assert t == {};
    } else {
      FreeCountsSet(s, n - 1);
      var u := set i | i in s && i < n - 1;
      assert t == if n - 1 in s then u + {n - 1} else u;
    }
  }

  lemma FreeOfAll(s: set<nat>, n: nat)
    requires forall i :: i in s ==> i < n
    ensures FreeBelow(s, n) == n - |s|
  {
    FreeCountsSet(s, n);
    assert (set i | i in s && i < n) == s;
  }

  lemma Locate(w: nat, bit: nat)
    requires bit < WORD
    ensures (w * WORD + bit) / WORD == w && (w * WORD + bit) % WORD == bit
  {
    ModUnique(w * WORD + bit, WORD, w, bit);
    DivMod(w * WORD + bit, WORD);
  }

  /** What setting one bit of word `w` does to slot `i`. */
  lemma SetOne(cur: nat, w: nat, bit: nat, i: nat)
    requires bit < WORD
    ensures i / WORD == w ==> (Bit(Or(cur, Pow2(bit)), i % WORD) <==> Bit(cur, i % WORD) || i == w * WORD + bit)
    ensures i / WORD != w ==> i != w * WORD + bit
  {
    Locate(w, bit);
    if i / WORD == w { OrAt(cur, w * WORD + bit, i, WORD); }
  }

  lemma ClearOne(cur: nat, w: nat, bit: nat, i: nat)
    requires bit < WORD && cur < Pow2(WORD) && Pow2(bit) < Pow2(WORD)
    ensures i / WORD == w ==>
      (Bit(And(cur, Not(Pow2(bit), WORD)), i % WORD) <==> Bit(cur, i % WORD) && i != w * WORD + bit)
    ensures i / WORD != w ==> i != w * WORD + bit
  {
    Locate(w, bit);
    SameBit(i, w * WORD + bit, WORD);
    ClearBits(cur, Pow2(bit), WORD, i % WORD);
    BitOfPow2(bit, i % WORD);
  }

  class Pool<P(==)> {
    const m: nat
    const occupancy: array<nat>
    const slots: array<Option<P>>

    predicate Leased(i: nat)
      reads occupancy
    {
      i / WORD < occupancy.Length && Bit(occupancy[i / WORD], i % WORD)
    }

    /** The occupancy words as a set of slots. */
    ghost function Leases(): set<nat>
      reads occupancy
    {
      set i: nat | i < WORDS * WORD && Leased(i)
    }

    ghost predicate Words()
      reads occupancy
    {
      occupancy.Length == WORDS && forall w :: 0 <= w < WORDS ==> occupancy[w] < Pow2(WORD)
    }

    /** Bits from `m` on are never set, and a cell is full exactly while its bit is
        clear. */
    ghost predicate Valid()
      reads this, occupancy, slots
    {
      && 1 <= m <= MAX_MPSC_PRODUCERS && slots.Length == m
      && Words()
      && (forall i :: i in Leases() ==> i < m)
      && (forall i: nat :: i < m ==> (slots[i].Some? <==> i !in Leases()))
    }

    constructor (producers: seq<P>)
      requires 1 <= |producers| <= MAX_MPSC_PRODUCERS
      ensures Valid() && fresh(occupancy) && fresh(slots)
      ensures m == |producers| && Leases() == {}
      ensures forall i: nat :: i < m ==> slots[i] == Some(producers[i])
    {
      m := |producers|;
      occupancy := new nat[WORDS](_ => 0);
      slots := new Option<P>[|producers|](i requires 0 <= i < |producers| => Some(producers[i]));
      new;
      forall i: nat | i < WORDS * WORD
        ensures i !in Leases()
      {
        ZeroBits(i % WORD);
      }
    }

    /** Slot `w * WORD + bit` is bit `bit` of word `w`. */
    lemma LeasedBit(w: nat, bit: nat)
      requires Words() && w < WORDS && bit < WORD
      ensures w * WORD + bit in Leases() <==> Bit(occupancy[w], bit)
    {
      Locate(w, bit);
    }

    /** How many bits of word `w` stand for slots. */
    function LiveBits(w: nat): (n: nat)
      requires w * WORD < m
      ensures 1 <= n <= WORD && w * WORD + n == Start(w + 1)
    {
      Start(w + 1) - w * WORD
    }

    /** Where word `w` begins, or the last slot ends. */
    function Start(w: nat): (i: nat)
      ensures i <= m
    {
      if w * WORD < m then w * WORD else m
    }

    /** The bits of the occupancy words are the members of `s`. */
    ghost predicate Shows(s: set<nat>)
      requires occupancy.Length == WORDS
      reads occupancy
    {
      forall w: nat, b: nat :: w < WORDS && b < WORD ==> (w * WORD + b in s <==> Bit(occupancy[w], b))
    }

    lemma LeasesShow()
      requires Words()
      ensures Shows(Leases())
    {
      forall w: nat, b: nat | w < WORDS && b < WORD
        ensures w * WORD + b in Leases() <==> Bit(occupancy[w], b)
      {
        LeasedBit(w, b);
      }
    }

    lemma WordShows(w: nat, live: nat, s: set<nat>)
      requires occupancy.Length == WORDS && Shows(s) && w < WORDS && live <= WORD
      ensures forall b: nat :: b < live ==> (w * WORD + b in s <==> Bit(occupancy[w], b))
    {
    }

    /** The count of one word. */
    method CountOne(w: nat, ghost s: set<nat>) returns (free: nat)
      requires Words() && Shows(s) && w < WORDS && w * WORD < m
      ensures FreeBelow(s, w * WORD + LiveBits(w)) == FreeBelow(s, w * WORD) + free
    {
      var live := LiveBits(w);
      WordShows(w, live, s);
      CountFreeBits(s, w * WORD, occupancy[w], live);
      free := CountOnes(FreeBits(occupancy[w], live));
    }

    /** The scan of `available`, word by word. */
    method CountFree(ghost s: set<nat>) returns (free: nat)
      requires Words() && Shows(s)
      ensures free == FreeBelow(s, Start(WORDS))
    {
      free := 0;
      var w := 0;
      while w < WORDS && w * WORD < m
        invariant 0 <= w <= WORDS && free == FreeBelow(s, Start(w))
      {
        var more := CountOne(w, s);
        free := free + more;
        w := w + 1;
      }
    }

    /** The slots not leased. */
    method Available() returns (free: nat)
      requires Valid()
      ensures free == m - |Leases()|
    {
      LeasesShow();
      free := CountFree(Leases());
      FreeOfAll(Leases(), m);
    }

    lemma NoneFree(w: nat, live: nat)
      requires Words() && w < WORDS && live <= WORD && FreeBits(occupancy[w], live) == 0
      ensures forall i :: w * WORD <= i < w * WORD + live ==> i in Leases()
    {
      forall i | w * WORD <= i < w * WORD + live
        ensures i in Leases()
      {
        var b := i - w * WORD;
        FreeBit(occupancy[w], live, b);
        ZeroBits(b);
        LeasedBit(w, b);
      }
    }

    lemma FirstFree(w: nat, live: nat, bit: nat)
      requires Words() && w < WORDS && live <= WORD
      requires FreeBits(occupancy[w], live) != 0 && bit == TrailingZeros(FreeBits(occupancy[w], live))
      ensures bit < live && w * WORD + bit !in Leases()
      ensures forall i :: w * WORD <= i < w * WORD + bit ==> i in Leases()
    {
      FreeBit(occupancy[w], live, bit);
      LeasedBit(w, bit);
      forall i | w * WORD <= i < w * WORD + bit
        ensures i in Leases()
      {
        FreeBit(occupancy[w], live, i - w * WORD);
        LeasedBit(w, i - w * WORD);
      }
    }

    /** The scan of `acquire`: the least free slot as a word and a bit, if any. */
    method FindFree() returns (found: bool, w: nat, bit: nat)
      requires Valid()
      ensures !found ==> forall i: nat :: i < m ==> i in Leases()
      ensures found ==> bit < WORD && w < WORDS && w * WORD + bit < m && w * WORD + bit !in Leases()
      ensures found ==> forall i: nat :: i < w * WORD + bit ==> i in Leases()
    {
      w, bit, found := 0, 0, false;
      while w < WORDS && w * WORD < m
        invariant 0 <= w <= WORDS
        invariant forall i: nat :: i < m && i < w * WORD ==> i in Leases()
      {
        var live := LiveBits(w);
        var free := FreeBits(occupancy[w], live);
        if free != 0 {
          bit := TrailingZeros(free);
          FirstFree(w, live, bit);
          return true, w, bit;
        }
        NoneFree(w, live);
        w := w + 1;
      }
    }

    /** `fetch_or` of one bit leases one slot. */
    method FetchOr(w: nat, bit: nat)
      requires Words() && w < WORDS && bit < WORD
      modifies occupancy
      ensures Words() && Leases() == old(Leases()) + {w * WORD + bit}
    {
      OrWord(occupancy[w], bit, WORD);
      occupancy[w] := Or(occupancy[w], Pow2(bit));
      forall i: nat | i < WORDS * WORD
        ensures i in Leases() <==> i in old(Leases()) || i == w * WORD + bit
      {
        SetOne(old(occupancy[w]), w, bit, i);
      }
    }

    /** `fetch_and` of the complement of one bit frees one slot. */
    method FetchAnd(w: nat, bit: nat)
      requires Words() && w < WORDS && bit < WORD
      modifies occupancy
      ensures Words() && Leases() == old(Leases()) - {w * WORD + bit}
    {
      Fits(bit, WORD);
      AndBelow(occupancy[w], Not(Pow2(bit), WORD));
      occupancy[w] := And(occupancy[w], Not(Pow2(bit), WORD));
      forall i: nat | i < WORDS * WORD
        ensures i in Leases() <==> i in old(Leases()) && i != w * WORD + bit
      {
        ClearOne(old(occupancy[w]), w, bit, i);
      }
    }

    /** Lease the least free slot, moving its producer out of the cell, or report
        that every slot is leased. */
    method Acquire() returns (slot: int, producer: Option<P>)
      requires Valid()
      modifies occupancy, slots
      ensures Valid()
      ensures slot < 0 ==> producer.None? && Leases() == old(Leases()) && forall i: nat :: i < m ==> i in Leases()
      ensures slot >= 0 ==> slot < m && slot !in old(Leases()) && Leases() == old(Leases()) + {slot}
      ensures slot >= 0 ==> forall i: nat :: i < slot ==> i in old(Leases())
      ensures slot >= 0 ==> producer.Some? && producer == old(slots[slot])
      ensures forall i: nat :: i < m && i != slot ==> slots[i] == old(slots[i])
    {
      var found, w, bit := FindFree();
      if !found { return -1, None; }
      slot := w * WORD + bit;
      FetchOr(w, bit);
      producer := slots[slot];
      slots[slot] := None;
    }

    /** A lease is dropped: the producer goes back into its cell and the bit clears. */
    method Release(slot: nat, producer: P)
      requires Valid() && slot in Leases()
      modifies occupancy, slots
      ensures Valid() && Leases() == old(Leases()) - {slot}
      ensures slots[slot] == Some(producer)
      ensures forall i: nat :: i < m && i != slot ==> slots[i] == old(slots[i])
    {
      DivMod(slot, WORD);
      slots[slot] := Some(producer);
      FetchAnd(slot / WORD, slot % WORD);
    }
  }
}
