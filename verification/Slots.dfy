/** Ring storage: `MaybeUninit` cells together with whether they own a value, and
    the window of counters that a ring of cells stands for. */
module Slots {
  import opened Bits

  datatype Slot<T> = Uninit | Init(value: T)

  /** In the window of `|slots|` counters from `r`, exactly those below `|vals|` own
      a value, and it is the right one. The window meets every slot once. */
  ghost predicate Window<T>(slots: seq<Slot<T>>, r: nat, vals: seq<T>)
    requires |slots| >= 1
  {
    forall i {:trigger SlotOf(i, |slots|)} :: r <= i < r + |slots| ==>
      slots[SlotOf(i, |slots|)] == if i < |vals| then Init(vals[i]) else Uninit
  }

  /** Moving the oldest value out of its slot advances the window. */
  lemma TakeFirst<T>(slots: seq<Slot<T>>, r: nat, vals: seq<T>)
    requires |slots| >= 1 && Window(slots, r, vals) && r < |vals| <= r + |slots|
    ensures slots[SlotOf(r, |slots|)] == Init(vals[r])
    ensures Window(slots[SlotOf(r, |slots|) := Uninit], r + 1, vals)
  {
    var cap := |slots|;
    var n := slots[SlotOf(r, cap) := Uninit];
    SlotsRepeat(r, cap);
    forall i {:trigger SlotOf(i, cap)} | r + 1 <= i < r + 1 + cap
      ensures n[SlotOf(i, cap)] == if i < |vals| then Init(vals[i]) else Uninit
    {
      if i < r + cap { SlotsDistinct(r, i, cap); }
    }
  }

  /** The slot for the next value is free, and writing it extends the window. */
  lemma PutNext<T>(slots: seq<Slot<T>>, r: nat, vals: seq<T>, v: T)
    requires |slots| >= 1 && Window(slots, r, vals) && r <= |vals| < r + |slots|
    ensures slots[SlotOf(|vals|, |slots|)].Uninit?
    ensures Window(slots[SlotOf(|vals|, |slots|) := Init(v)], r, vals + [v])
  {
    var cap := |slots|;
    var n := slots[SlotOf(|vals|, cap) := Init(v)];
    forall i {:trigger SlotOf(i, cap)} | r <= i < r + cap
      ensures n[SlotOf(i, cap)] == if i < |vals| + 1 then Init((vals + [v])[i]) else Uninit
    {
      if i < |vals| { SlotsDistinct(i, |vals|, cap); } else if i > |vals| { SlotsDistinct(|vals|, i, cap); }
    }
  }

  /** An exhausted window owns nothing. */
  lemma AllUninit<T>(slots: seq<Slot<T>>, r: nat, vals: seq<T>)
    requires |slots| >= 1 && Window(slots, r, vals) && |vals| <= r
    ensures forall j :: 0 <= j < |slots| ==> slots[j].Uninit?
  {
    var cap := |slots|;
    forall j | 0 <= j < cap
      ensures slots[j].Uninit?
    {
      var q, o := r / cap, r % cap;
      DivMod(r, cap);
      var i := if j >= o then cap * q + j else cap * (q + 1) + j;
      Distribute(cap, q, 1);
      ModUnique(i, cap, if j >= o then q else q + 1, j);
      assert SlotOf(i, cap) == j;
    }
  }
}
