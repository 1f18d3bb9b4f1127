/** Machine words as natural numbers: powers of two, bitwise operators, and the
    wrapping cursor arithmetic that the rings do on `usize`. */
module Bits {

  function Pow2(k: nat): (r: nat)
    ensures r >= 1
  {
    if k == 0 then 1 else 2 * Pow2(k - 1)
  }

  /** Bit `i` of `a`. */
  predicate Bit(a: nat, i: nat)
  {
    if i == 0 then a % 2 == 1 else Bit(a / 2, i - 1)
  }

  /** The `&` operator. */
  function And(a: nat, b: nat): (r: nat)
    ensures r <= b
    decreases a
  {
    if a == 0 || b == 0 then 0
    else 2 * And(a / 2, b / 2) + (if a % 2 == 1 && b % 2 == 1 then 1 else 0)
  }

  /** The `|` operator. */
  function Or(a: nat, b: nat): nat
    decreases a + b
  {
    if a == 0 then b else if b == 0 then a
    else 2 * Or(a / 2, b / 2) + (if a % 2 == 1 || b % 2 == 1 then 1 else 0)
  }

  lemma {:induction false} Pow2Add(a: nat, b: nat)
    ensures Pow2(a + b) == Pow2(a) * Pow2(b)
  {
    if a > 0 {
      Pow2Add(a - 1, b);
      assert Pow2(a + b) == 2 * Pow2(a - 1 + b);
      assert Pow2(a) * Pow2(b) == 2 * (Pow2(a - 1) * Pow2(b));
    }
  }

  lemma {:induction false} ZeroBits(i: nat)
    ensures !Bit(0, i)
  {
    if i > 0 { ZeroBits(i - 1); }
  }

  lemma AndHalf(x: nat, y: nat)
    requires y % 2 == 1
    ensures And(x, y) == 2 * And(x / 2, y / 2) + x % 2
  {
  }

  lemma {:induction false} AndBit(a: nat, b: nat, i: nat)
    ensures Bit(And(a, b), i) <==> Bit(a, i) && Bit(b, i)
  {
    if a == 0 || b == 0 {
      ZeroBits(i);
    } else if i > 0 {
      AndBit(a / 2, b / 2, i - 1);
      assert And(a, b) / 2 == And(a / 2, b / 2);
    }
  }

  lemma {:induction false} OrBit(a: nat, b: nat, i: nat)
    ensures Bit(Or(a, b), i) <==> Bit(a, i) || Bit(b, i)
  {
    if a == 0 || b == 0 {
      ZeroBits(i);
    } else if i > 0 {
      OrBit(a / 2, b / 2, i - 1);
      assert Or(a, b) / 2 == Or(a / 2, b / 2);
    }
  }

  /** A number is determined by its bits. */
  lemma {:induction false} BitsDetermine(a: nat, b: nat)
    requires forall i: nat :: Bit(a, i) <==> Bit(b, i)
    ensures a == b
    decreases a + b
  {
    assert Bit(a, 0) <==> Bit(b, 0);
    if a != 0 || b != 0 {
      forall i: nat
        ensures Bit(a / 2, i) <==> Bit(b / 2, i)
      {
        assert Bit(a, i + 1) <==> Bit(b, i + 1);
      }
      BitsDetermine(a / 2, b / 2);
    }
  }

  /** `trailing_zeros` of a nonzero word. */
  function TrailingZeros(a: nat): (r: nat)
    requires a != 0
    ensures Bit(a, r) && forall j: nat :: j < r ==> !Bit(a, j)
  {
    if a % 2 == 1 then 0
    else
      var t := TrailingZeros(a / 2);
      assert forall j: nat :: j < t + 1 ==> !Bit(a, j) by {
        forall j: nat | j < t + 1
          ensures !Bit(a, j)
        {
          if j > 0 { assert !Bit(a / 2, j - 1); }
        }
      }
      t + 1
  }

  /** `1 << k` has exactly bit `k`. */
  lemma {:induction false} BitOfPow2(k: nat, i: nat)
    ensures Bit(Pow2(k), i) <==> i == k
  {
    if k == 0 {
      if i > 0 { ZeroBits(i - 1); }
    } else {
      assert Pow2(k) / 2 == Pow2(k - 1);
      if i > 0 { BitOfPow2(k - 1, i - 1); }
    }
  }

  /** `!a` on a word of `width` bits. */
  function Not(a: nat, width: nat): nat
    requires a < Pow2(width)
  {
    Pow2(width) - 1 - a
  }

  lemma NotHalf(a: nat, width: nat)
    requires a < Pow2(width) && width > 0
    ensures a / 2 < Pow2(width - 1) && Not(a, width) / 2 == Not(a / 2, width - 1) && Not(a, width) % 2 == 1 - a % 2
  {
    assert Pow2(width) == 2 * Pow2(width - 1);
  }

  lemma {:induction false} NotBit(a: nat, width: nat, i: nat)
    requires a < Pow2(width)
    ensures Bit(Not(a, width), i) <==> i < width && !Bit(a, i)
  {
    if width == 0 {
      ZeroBits(i);
    } else {
      NotHalf(a, width);
      if i > 0 { NotBit(a / 2, width - 1, i - 1); }
    }
  }

  /** Words of `width` bits are the numbers with no bit from `width` on. */
  lemma {:induction false} NoHighBits(a: nat, width: nat)
    requires forall i: nat :: width <= i ==> !Bit(a, i)
    ensures a < Pow2(width)
    decreases a + width
  {
    if width == 0 {
      if a != 0 {
        var t := TrailingZeros(a);
        assert false;
      }
    } else {
      forall i: nat | width - 1 <= i
        ensures !Bit(a / 2, i)
      {
        assert !Bit(a, i + 1);
      }
      NoHighBits(a / 2, width - 1);
    }
  }

  lemma {:induction false} HighBitsClear(a: nat, width: nat, i: nat)
    requires a < Pow2(width) && width <= i
    ensures !Bit(a, i)
  {
    if width == 0 { ZeroBits(i); } else { HighBitsClear(a / 2, width - 1, i - 1); }
  }

  /** `x & (2^k - 1)` is `x mod 2^k`: masking an index is reducing it. */
  lemma {:induction false} MaskIsMod(x: nat, k: nat)
    ensures And(x, Pow2(k) - 1) == x % Pow2(k)
  {
    if k == 0 {
      assert Pow2(k) == 1;
    } else {
      var h := Pow2(k - 1);
      MaskIsMod(x / 2, k - 1);
      assert (Pow2(k) - 1) / 2 == h - 1 && (Pow2(k) - 1) % 2 == 1;
      HalfMod(x, h);
    }
  }

  lemma HalfMod(x: nat, h: nat)
    requires h >= 1
    ensures x % (2 * h) == 2 * ((x / 2) % h) + x % 2
  {
    var q, r := x / 2 / h, (x / 2) % h;
    assert x / 2 == h * q + r;
    assert x == (2 * h) * q + (2 * r + x % 2);
    ModUnique(x, 2 * h, q, 2 * r + x % 2);
  }

  lemma ModUnique(x: int, m: nat, q: int, r: int)
    requires m >= 1 && 0 <= r < m && x == m * q + r
    ensures x % m == r
  {
    var d := x / m - q;
    assert x == m * (x / m) + x % m;
    assert m * d == r - x % m;
    if d >= 1 { MulMono(m, 1, d); } else if d <= -1 { MulMono(m, d, -1); }
    assert d == 0;
  }

  lemma MulMono(m: nat, a: int, b: int)
    requires a <= b
    ensures m * a <= m * b
  {
    assert m * b - m * a == m * (b - a);
  }

  lemma DivMod(x: nat, m: nat)
    requires m >= 1
    ensures x == m * (x / m) + x % m
  {
  }

  lemma Distribute(m: int, a: int, b: int)
    ensures m * (a + b) == m * a + m * b
    ensures m * -b == -(m * b)
  {
  }

  lemma Associate(a: int, b: int, c: int)
    ensures a * (b * c) == (a * b) * c
  {
  }

  lemma ModMod(i: nat, c: nat, d: nat, m: nat)
    requires c >= 1 && m >= 1 && m == c * d
    ensures (i % m) % c == i % c
  {
    var w, q := i % m, i / m;
    var e := w / c;
    DivMod(i, m);
    DivMod(w, c);
    Distribute(c, d * q, e);
    Associate(c, d, q);
    ModUnique(i, c, d * q + e, w % c);
  }

  /** A power of two below the word size fits the word. */
  lemma Fits(k: nat, bits: nat)
    requires k < bits
    ensures Pow2(k) < Pow2(bits)
  {
    Pow2Add(k, bits - k);
    assert Pow2(bits - k) == 2 * Pow2(bits - k - 1);
    MulMono(Pow2(k), 2, Pow2(bits - k));
  }

  // ---- one bit of a word ----------------------------------------------------------

  lemma OrOneBit(a: nat, b: nat, i: nat)
    ensures Bit(Or(a, Pow2(b)), i) <==> Bit(a, i) || i == b
  {
    OrBit(a, Pow2(b), i);
    BitOfPow2(b, i);
  }

  /** Setting a bit of the word keeps it a word. */
  lemma OrWord(a: nat, b: nat, width: nat)
    requires a < Pow2(width) && b < width
    ensures Or(a, Pow2(b)) < Pow2(width)
  {
    forall i: nat | width <= i
      ensures !Bit(Or(a, Pow2(b)), i)
    {
      OrOneBit(a, b, i);
      HighBitsClear(a, width, i);
    }
    NoHighBits(Or(a, Pow2(b)), width);
  }

  /** Masking with the complement of `mask` clears the bits of `mask`. */
  lemma ClearBits(a: nat, mask: nat, width: nat, i: nat)
    requires a < Pow2(width) && mask < Pow2(width)
    ensures Bit(And(a, Not(mask, width)), i) <==> Bit(a, i) && !Bit(mask, i)
  {
    AndBit(a, Not(mask, width), i);
    NotBit(mask, width, i);
    if i >= width { HighBitsClear(a, width, i); }
  }

  lemma {:induction false} AndBelow(a: nat, b: nat)
    ensures And(a, b) <= a
    decreases a
  {
    if a != 0 && b != 0 { AndBelow(a / 2, b / 2); }
  }

  /** An index into an array of words is a word and a bit. */
  lemma SameBit(g: nat, h: nat, width: nat)
    requires width >= 1
    ensures g / width == h / width && g % width == h % width <==> g == h
  {
    DivMod(g, width);
    DivMod(h, width);
  }

  /** Setting bit `g` of an array of words, seen at index `h` of the same word. */
  lemma OrAt(a: nat, g: nat, h: nat, width: nat)
    requires width >= 1 && h / width == g / width
    ensures Bit(Or(a, Pow2(g % width)), h % width) <==> Bit(a, h % width) || h == g
  {
    SameBit(g, h, width);
    OrOneBit(a, g % width, h % width);
  }

  // ---- wrapping cursors -------------------------------------------------

  /** The word that an unbounded counter shows on a machine with `bits`-bit words. */
  function Wrap(x: int, bits: nat): (r: nat)
    ensures r < Pow2(bits)
  {
    x % Pow2(bits)
  }

  /** `wrapping_sub`. */
  function WrapSub(a: nat, b: nat, bits: nat): nat
  {
    Wrap(a as int - b as int, bits)
  }

  /** `wrapping_add(1)`. */
  function WrapInc(a: nat, bits: nat): nat
  {
    Wrap(a + 1, bits)
  }

  lemma WrapUnique(x: int, q: int, r: int, bits: nat)
    requires 0 <= r < Pow2(bits) && x == Pow2(bits) * q + r
    ensures Wrap(x, bits) == r
  {
    ModUnique(x, Pow2(bits), q, r);
  }

  lemma SubMod(h: nat, t: nat, m: nat)
    requires m >= 1 && t <= h < t + m
    ensures (h % m - t % m) % m == h - t
  {
    SubSplit(m, h / m, h % m, t / m, t % m);
    ModUnique(h % m - t % m, m, t / m - h / m, h - t);
  }

  lemma SubWords(h: nat, t: nat, bits: nat, m: nat, a: nat, b: nat)
    requires m == Pow2(bits) && t <= h < t + m && a == h % m && b == t % m
    ensures WrapSub(a, b, bits) == h - t
  {
    SubMod(h, t, m);
  }

  /** The difference of two wrapped counters is the true occupancy, through any
      number of overflows of the word, as long as the occupancy fits a word. */
  lemma WrapSubExact(h: nat, t: nat, bits: nat)
    requires t <= h < t + Pow2(bits)
    ensures WrapSub(Wrap(h, bits), Wrap(t, bits), bits) == h - t
  {
    SubWords(h, t, bits, Pow2(bits), Wrap(h, bits), Wrap(t, bits));
  }

  lemma SubSplit(m: int, q1: int, r1: int, q2: int, r2: int)
    ensures r1 - r2 == m * (q2 - q1) + ((m * q1 + r1) - (m * q2 + r2))
  {
    Distribute(m, q2, -q1);
    Distribute(m, 0, q1);
  }

  /** Equal words mean equal counters when the counters are less than a word apart. */
  lemma WrapInjective(h: nat, t: nat, bits: nat)
    requires t <= h < t + Pow2(bits)
    ensures Wrap(h, bits) == Wrap(t, bits) <==> h == t
  {
    WrapSubExact(h, t, bits);
    WrapUnique(0, 0, 0, bits);
  }

  lemma WrapIncExact(x: nat, bits: nat)
    ensures WrapInc(Wrap(x, bits), bits) == Wrap(x + 1, bits)
  {
    var m := Pow2(bits);
    var r := (Wrap(x, bits) + 1) % m;
    assert Wrap(x, bits) + 1 == m * ((Wrap(x, bits) + 1) / m) + r;
    assert x == m * (x / m) + Wrap(x, bits);
    var q := x / m + (Wrap(x, bits) + 1) / m;
    assert m * q == m * (x / m) + m * ((Wrap(x, bits) + 1) / m);
    WrapUnique(x + 1, q, r, bits);
  }

  /** The slot that a counter addresses in a ring of `cap` slots. */
  function SlotOf(i: nat, cap: nat): (r: nat)
    requires cap >= 1
    ensures r < cap
  {
    i % cap
  }

  /** Masking the wrapped cursor gives the slot of the unbounded counter. */
  lemma MaskedCursor(i: nat, k: nat, bits: nat)
    requires k <= bits
    ensures And(Wrap(i, bits), Pow2(k) - 1) == SlotOf(i, Pow2(k))
  {
    MaskIsMod(Wrap(i, bits), k);
    Pow2Add(k, bits - k);
    ModMod(i, Pow2(k), Pow2(bits - k), Pow2(bits));
  }

  /** Counters less than `cap` apart never share a slot. */
  lemma SlotsDistinct(i: nat, j: nat, cap: nat)
    requires i < j < i + cap
    ensures SlotOf(i, cap) != SlotOf(j, cap)
  {
    if i % cap == j % cap {
      assert i == cap * (i / cap) + i % cap && j == cap * (j / cap) + j % cap;
      var d := j / cap - i / cap;
      assert cap * d == j - i;
      if d >= 1 { MulMono(cap, 1, d); } else { MulMono(cap, d, 0); }
      assert false;
    }
  }

  /** A counter and the one a whole lap later share a slot. */
  lemma SlotsRepeat(i: nat, cap: nat)
    requires cap >= 1
    ensures SlotOf(i + cap, cap) == SlotOf(i, cap)
  {
    assert i == cap * (i / cap) + i % cap;
    ModUnique(i + cap, cap, i / cap + 1, i % cap);
  }
}
