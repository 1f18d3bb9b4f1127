/** The signal set, call by call: a chunked bitmap of gates over 64-bit words.
    Its abstract value is the set of open gates. */
module SignalSet {
  import opened Bits

  const CHUNK: nat := 64

  class SignalSet {
    const chunks: array<nat>
    var names: seq<string>
    /** How often the consumer was woken. */
    ghost var wakes: nat

    ghost predicate Valid()
      reads this, chunks
    {
      && chunks.Length >= 1
      && (forall c :: 0 <= c < chunks.Length ==> chunks[c] < Pow2(CHUNK))
      && |names| <= chunks.Length * CHUNK && |names| <= 256
    }

    /** Gate `g` is open. */
    ghost predicate Open(g: nat)
      reads this, chunks
    {
      g / CHUNK < chunks.Length && Bit(chunks[g / CHUNK], g % CHUNK)
    }

    constructor (bits: nat)
      ensures Valid() && fresh(chunks) && names == [] && wakes == 0
      ensures chunks.Length * CHUNK >= bits && chunks.Length == (if bits <= 1 then 1 else (bits + 63) / CHUNK)
      ensures forall g :: 0 <= g ==> !Open(g)
    {
      var n := if bits <= 1 then 1 else (bits + 63) / CHUNK;
      chunks := new nat[n](_ => 0);
      names, wakes := [], 0;
      new;
      forall g | 0 <= g
        ensures !Open(g)
      {
        ZeroBits(g % CHUNK);
      }
    }

    /** Register a gate: the next free index, if there is one. */
    method Create(name: string) returns (id: int)
      requires Valid()
      modifies this`names
      ensures Valid()
      ensures id >= 0 <==> |old(names)| < chunks.Length * CHUNK && |old(names)| < 256
      ensures id >= 0 ==> id == |old(names)| && names == old(names) + [name]
      ensures id < 0 ==> names == old(names)
    {
      if |names| >= chunks.Length * CHUNK || |names| >= 256 { return -1; }
      id := |names|;
      names := names + [name];
    }

    /** The first gate registered under `name`. */
    method IdOf(name: string) returns (id: int)
      requires Valid()
      ensures id >= 0 <==> name in names
      ensures id >= 0 ==> id < |names| && names[id] == name && name !in names[..id]
    {
      var i := 0;
      while i < |names|
        invariant 0 <= i <= |names| && name !in names[..i]
      {
        if names[i] == name { return i; }
        i := i + 1;
      }
      return -1;
    }

    /** Open one gate; wake exactly when it was shut. */
    method Release(g: nat)
      requires Valid() && g / CHUNK < chunks.Length
      modifies chunks, this`wakes
      ensures Valid()
      ensures forall h: nat :: Open(h) <==> old(Open(h)) || h == g
      ensures wakes == old(wakes) + (if old(Open(g)) then 0 else 1)
    {
      var c, bit := g / CHUNK, Pow2(g % CHUNK);
      var prev := chunks[c];
      chunks[c] := Or(prev, bit);
      OrWord(prev, g % CHUNK, CHUNK);
      forall h: nat
        ensures Open(h) <==> old(Open(h)) || h == g
      {
        if h / CHUNK == c { OrAt(prev, g, h, CHUNK); }
      }
      if And(prev, bit) == 0 { wakes := wakes + 1; }
      AndPow2(prev, g % CHUNK);
    }

    /** Close every gate of `mask` in one chunk; `lock` and `lock_mask` are the
        cases of a single bit and of chunk 0. No wake. */
    method LockChunkMask(c: nat, mask: nat)
      requires Valid() && c < chunks.Length && mask < Pow2(CHUNK)
      modifies chunks
      ensures Valid()
      ensures forall h: nat :: Open(h) <==> old(Open(h)) && !(h / CHUNK == c && Bit(mask, h % CHUNK))
    {
      var prev := chunks[c];
      chunks[c] := And(prev, Not(mask, CHUNK));
      AndBelow(prev, Not(mask, CHUNK));
      forall h: nat
        ensures Open(h) <==> old(Open(h)) && !(h / CHUNK == c && Bit(mask, h % CHUNK))
      {
        ClearBits(prev, mask, CHUNK, h % CHUNK);
      }
    }

    method Lock(g: nat)
      requires Valid() && g / CHUNK < chunks.Length
      modifies chunks
      ensures Valid()
      ensures forall h: nat :: Open(h) <==> old(Open(h)) && h != g
    {
      Fits(g % CHUNK, CHUNK);
      LockChunkMask(g / CHUNK, Pow2(g % CHUNK));
      forall h: nat
        ensures Open(h) <==> old(Open(h)) && h != g
      {
        SameBit(g, h, CHUNK);
        BitOfPow2(g % CHUNK, h % CHUNK);
      }
    }

    /** The gates that a one-word mask can name. */
    lemma LowGates()
      requires Valid()
      ensures forall b: nat :: b < CHUNK ==> (Open(b) <==> Bit(chunks[0], b))
    {
    }

    method AnyOpen(mask: nat) returns (r: bool)
      requires Valid() && mask < Pow2(CHUNK)
      ensures r <==> exists b: nat :: b < CHUNK && Bit(mask, b) && Open(b)
    {
      r := And(chunks[0], mask) != 0;
      Meets(chunks[0], mask);
      LowGates();
    }

    method AllOpen(mask: nat) returns (r: bool)
      requires Valid() && mask < Pow2(CHUNK)
      ensures r <==> forall b: nat :: b < CHUNK && Bit(mask, b) ==> Open(b)
    {
      r := And(chunks[0], mask) == mask;
      LowGates();
      if r {
        forall b: nat | b < CHUNK && Bit(mask, b)
          ensures Open(b)
        {
          CoversBit(chunks[0], mask, b);
        }
      } else if forall b: nat :: b < CHUNK && Bit(mask, b) ==> Open(b) {
        BitsCover(chunks[0], mask);
      }
    }

    lemma GateAt(c: nat, b: nat)
      requires c < chunks.Length && b < CHUNK
      ensures Open(CHUNK * c + b) <==> Bit(chunks[c], b)
    {
    }

    /** Scan the chunks for any open gate. */
    method AnyChunkOpen() returns (r: bool)
      requires Valid()
      ensures r <==> exists g: nat :: Open(g)
    {
      for c := 0 to chunks.Length
        invariant forall g: nat :: g / CHUNK < c ==> !Open(g)
      {
        if chunks[c] != 0 {
          var b := LowestBit(chunks[c]);
          GateAt(c, b);
          return true;
        }
        forall g: nat | g / CHUNK == c
          ensures !Open(g)
        {
          ZeroBits(g % CHUNK);
        }
      }
      return false;
    }
  }

  /** A word that is not zero has a bit in the word. */
  lemma LowestBit(a: nat) returns (b: nat)
    requires a != 0 && a < Pow2(CHUNK)
    ensures b < CHUNK && Bit(a, b)
  {
    b := TrailingZeros(a);
    if b >= CHUNK { HighBitsClear(a, CHUNK, b); }
  }

  /** `a & mask != 0` says that some bit of the mask is set. */
  lemma Meets(a: nat, mask: nat)
    requires mask < Pow2(CHUNK)
    ensures And(a, mask) != 0 <==> exists b: nat :: b < CHUNK && Bit(mask, b) && Bit(a, b)
  {
    if And(a, mask) != 0 {
      var b := TrailingZeros(And(a, mask));
      AndBit(a, mask, b);
      if b >= CHUNK { HighBitsClear(mask, CHUNK, b); }
    } else if b: nat :| b < CHUNK && Bit(mask, b) && Bit(a, b) {
      AndBit(a, mask, b);
      ZeroBits(b);
    }
  }

  /** `a & mask == mask` says that every bit of the mask is set. */
  lemma CoversBit(a: nat, mask: nat, b: nat)
    requires And(a, mask) == mask && Bit(mask, b)
    ensures Bit(a, b)
  {
    AndBit(a, mask, b);
  }

  lemma BitsCover(a: nat, mask: nat)
    requires mask < Pow2(CHUNK) && forall b: nat :: b < CHUNK && Bit(mask, b) ==> Bit(a, b)
    ensures And(a, mask) == mask
  {
    forall i: nat
      ensures Bit(And(a, mask), i) <==> Bit(mask, i)
    {
      AndBit(a, mask, i);
      if i >= CHUNK { HighBitsClear(mask, CHUNK, i); }
    }
    BitsDetermine(And(a, mask), mask);
  }

  /** Testing a word against one bit. */
  lemma AndPow2(a: nat, b: nat)
    ensures And(a, Pow2(b)) != 0 <==> Bit(a, b)
  {
    var x := And(a, Pow2(b));
    AndBit(a, Pow2(b), b);
    BitOfPow2(b, b);
    if x == 0 {
      ZeroBits(b);
    } else {
      AndBit(a, Pow2(b), TrailingZeros(x));
      BitOfPow2(b, TrailingZeros(x));
    }
  }
}
