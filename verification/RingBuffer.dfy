/** The ring as an in-place buffer with no other thread at work: single and
    bulk operations on the slots array, the bulk ones copying in two pieces
    where the run wraps around the end of the buffer. */
module RingBuffer {
  import opened Sides
  import Ring
  import Wrap32

  /** Index start + i, taken modulo the capacity, lands in the first piece or,
      past the end of the buffer, in the second. */
  lemma WrapIndex(start: nat, i: nat, cap: nat)
    requires 0 < cap && i < cap
    ensures (start + i) % cap == if start % cap + i < cap then start % cap + i else start % cap + i - cap
  {
    var q, r := start / cap, start % cap;
    assert start == cap * q + r;
    if r + i < cap {
      Wrap32.ModUnique(start + i, cap, q, r + i);
    } else {
      assert start + i == cap * (q + 1) + (r + i - cap);
      Wrap32.ModUnique(start + i, cap, q + 1, r + i - cap);
    }
  }

  function Slot(x: nat, cap: nat): nat requires cap > 0 { x % cap }

  /** The values at indices lo, lo + 1, ..., hi - 1. */
  function Values<V>(slots: seq<V>, lo: nat, hi: nat): (r: seq<V>)
    requires |slots| > 0 && lo <= hi
    ensures |r| == hi - lo && forall i :: 0 <= i < hi - lo ==> r[i] == slots[Slot(lo + i, |slots|)]
  {
    seq(hi - lo, i requires 0 <= i < hi - lo => slots[Slot(lo + i, |slots|)])
  }

  /** The run from index h holds `data`, and every other slot is as before. */
  ghost predicate Written<V>(was: seq<V>, now: seq<V>, h: nat, data: seq<V>) {
    && |now| == |was| > 0
    && (forall i :: 0 <= i < |data| ==> now[Slot(h + i, |now|)] == data[i])
    && (forall x: nat :: h + |data| <= x + |now| && x < h ==> now[Slot(x, |now|)] == was[Slot(x, |now|)])
  }

  /** Writing a run that fits appends it to the values. */
  lemma WrittenAppends<V>(was: seq<V>, now: seq<V>, lo: nat, hi: nat, data: seq<V>)
    requires Written(was, now, hi, data) && lo <= hi && hi + |data| <= lo + |was|
    ensures Values(now, lo, hi + |data|) == Values(was, lo, hi) + data
  {
    var all := Values(now, lo, hi + |data|);
    forall i | 0 <= i < |all| ensures all[i] == (Values(was, lo, hi) + data)[i] {
      if i < hi - lo {
        assert now[Slot(lo + i, |now|)] == was[Slot(lo + i, |now|)];
      } else {
        assert now[Slot(hi + (i - (hi - lo)), |now|)] == data[i - (hi - lo)];
      }
    }
  }

  /** One slot written: the run of length one. */
  lemma WriteOne<V>(slots: seq<V>, h: nat, v: V)
    requires |slots| > 0
    ensures Written(slots, slots[Slot(h, |slots|) := v], h, [v])
  {
    var n := |slots|;
    forall x: nat | h + 1 <= x + n && x < h ensures slots[Slot(h, n) := v][Slot(x, n)] == slots[Slot(x, n)] {
      if Slot(x, n) == Slot(h, n) { Ring.SameSlot(x, h, n); }
    }
  }

  /** What the two-piece copy of a run of at most cap values leaves in the buffer. */
  function Spliced<V>(was: seq<V>, h: nat, data: seq<V>): (now: seq<V>)
    requires |was| > 0 && |data| <= |was|
    ensures |now| == |was|
  {
    var idx := Slot(h, |was|);
    var first := |was| - idx;
    if first >= |data| then was[..idx] + data + was[idx + |data|..]
    else data[first..] + was[|data| - first..idx] + data[..first]
  }

  /** The two pieces are exactly the slots of indices h, h + 1, ... */
  lemma SplicedIsWritten<V>(was: seq<V>, h: nat, data: seq<V>)
    requires |was| > 0 && |data| <= |was|
    ensures Written(was, Spliced(was, h, data), h, data)
  {
    var now, n := Spliced(was, h, data), |was|;
    forall i | 0 <= i < |data| ensures now[Slot(h + i, n)] == data[i] { WrapIndex(h, i, n); }
    forall x: nat | h + |data| <= x + n && x < h ensures now[Slot(x, n)] == was[Slot(x, n)] {
      if data != [] { WrapIndex(x, h - x, n); }
    }
  }

  /** The two-piece read of a run. */
  lemma ReadInPieces<V>(slots: seq<V>, h: nat, k: nat)
    requires |slots| > 0 && k <= |slots|
    ensures var idx := Slot(h, |slots|);
      Values(slots, h, h + k) ==
        if |slots| - idx >= k then slots[idx..idx + k] else slots[idx..] + slots[..k - (|slots| - idx)]
  {
    var idx, n := Slot(h, |slots|), |slots|;
    var got := if n - idx >= k then slots[idx..idx + k] else slots[idx..] + slots[..k - (n - idx)];
    forall i | 0 <= i < k ensures Values(slots, h, h + k)[i] == got[i] { WrapIndex(h, i, n); }
  }

  /** Copy `data` over the slots from position `at` on. */
  method CopyIn<V>(slots: array<V>, at: nat, data: seq<V>)
    requires at + |data| <= slots.Length
    modifies slots
    ensures slots[..] == old(slots[..at]) + data + old(slots[at + |data|..])
  {
    for i := 0 to |data|
      invariant slots[..at] == old(slots[..at])
      invariant slots[at..at + i] == data[..i]
      invariant slots[at + i..] == old(slots[at + i..])
    {
      slots[at + i] := data[i];
    }
  }

  /** Copy a run into the slots of indices h, h + 1, ..., in one piece or two. */
  method CopyRun<V>(slots: array<V>, h: nat, data: seq<V>)
    requires slots.Length > 0 && |data| <= slots.Length
    modifies slots
    ensures slots[..] == Spliced(old(slots[..]), h, data)
  {
    var idx := Slot(h, slots.Length);
    var first := slots.Length - idx;
    if first >= |data| {
      CopyIn(slots, idx, data);
    } else {
      CopyIn(slots, idx, data[..first]);
      CopyIn(slots, 0, data[first..]);
    }
  }

  class RingBuffer<V> {
    const slots: array<V>
    var ph: nat
    var pt: nat
    var ch: nat
    var ct: nat

    ghost predicate Valid()
      reads this
    {
      slots.Length > 0 && ch == ct <= ph == pt <= ct + slots.Length
    }

    /** The buffered values, oldest first. */
    ghost function Contents(): (s: seq<V>)
      requires Valid()
      reads this, slots
      ensures |s| == pt - ch <= slots.Length
    {
      Values(slots[..], ch, pt)
    }

    constructor (cap: nat, init: V)
      requires cap > 0
      ensures Valid() && fresh(slots) && slots.Length == cap && Contents() == []
    {
      slots := new V[cap](_ => init);
      ph, pt, ch, ct := 0, 0, 0, 0;
    }

    method Push(v: V) returns (ok: bool)
      requires Valid()
      modifies this`ph, this`pt, slots
      ensures Valid() && ok == (|old(Contents())| < slots.Length)
      ensures Contents() == old(Contents()) + if ok then [v] else []
    {
      if ph - ct >= slots.Length { return false; }
      ghost var was := slots[..];
      slots[ph % slots.Length] := v;
      WriteOne(was, ph, v);
      WrittenAppends(was, slots[..], ch, ph, [v]);
      ph := ph + 1;
      pt := ph;
      return true;
    }

    method Pop() returns (ok: bool, v: V)
      requires Valid()
      modifies this`ch, this`ct
      ensures Valid() && ok == (old(Contents()) != [])
      ensures if ok then old(Contents()) == [v] + Contents() else Contents() == old(Contents())
    {
      v := slots[ch % slots.Length];
      if pt == ch { return false, v; }
      assert Values(slots[..], ch, pt) == [v] + Values(slots[..], ch + 1, pt);
      ch := ch + 1;
      ct := ch;
      return true, v;
    }

    /** Bulk push: as many of the values as fit, in one reservation. */
    method EnqueueBurst(data: seq<V>) returns (k: nat)
      requires Valid()
      modifies this`ph, this`pt, slots
      ensures Valid() && k == Min(|data|, slots.Length - |old(Contents())|)
      ensures Contents() == old(Contents()) + data[..k]
      ensures Written(old(slots[..]), slots[..], old(ph), data[..k])
    {
      var free := slots.Length - (ph - ct);
      k := Min(|data|, free);
      ghost var was := slots[..];
      CopyRun(slots, ph, data[..k]);
      SplicedIsWritten(was, ph, data[..k]);
      WrittenAppends(was, slots[..], ch, ph, data[..k]);
      ph := ph + k;
      pt := ph;
    }

    /** Bulk pop: as many values as there are, up to n, in one reservation. */
    method DequeueBurst(n: nat) returns (got: seq<V>)
      requires Valid()
      modifies this`ch, this`ct
      ensures Valid() && |got| == Min(n, |old(Contents())|)
      ensures old(Contents()) == got + Contents()
      ensures got == Values(slots[..], old(ch), old(ch) + |got|)
    {
      var k := Min(n, pt - ch);
      var idx := Slot(ch, slots.Length);
      var first := slots.Length - idx;
      if first >= k {
        got := slots[idx..idx + k];
      } else {
        got := slots[idx..] + slots[..k - first];
      }
      ReadInPieces(slots[..], ch, k);
      assert Values(slots[..], ch, pt) == Values(slots[..], ch, ch + k) + Values(slots[..], ch + k, pt) by {
        SplitValues(slots[..], ch, ch + k, pt);
      }
      ch := ch + k;
      ct := ch;
    }

    /** One push after another, stopping at the first refusal. */
    method PushEach(data: seq<V>) returns (k: nat)
      requires Valid()
      modifies this`ph, this`pt, slots
      ensures Valid() && k == Min(|data|, slots.Length - |old(Contents())|)
      ensures Contents() == old(Contents()) + data[..k]
    {
      k := 0;
      var ok := true;
      while k < |data| && ok
        invariant Valid() && k <= |data| && Contents() == old(Contents()) + data[..k]
        invariant !ok ==> |Contents()| == slots.Length
        decreases |data| - k, ok
      {
        ok := Push(data[k]);
        if ok { k := k + 1; }
      }
    }

    /** One pop after another, stopping at the first refusal. */
    method PopEach(n: nat) returns (got: seq<V>)
      requires Valid()
      modifies this`ch, this`ct
      ensures Valid() && |got| == Min(n, |old(Contents())|)
      ensures old(Contents()) == got + Contents()
    {
      got := [];
      var ok := true;
      while |got| < n && ok
        invariant Valid() && |got| <= n && old(Contents()) == got + Contents()
        invariant !ok ==> Contents() == []
        decreases n - |got|, ok
      {
        var v;
        ok, v := Pop();
        if ok { got := got + [v]; }
      }
    }
  }

  lemma SplitValues<V>(slots: seq<V>, lo: nat, mid: nat, hi: nat)
    requires |slots| > 0 && lo <= mid <= hi
    ensures Values(slots, lo, hi) == Values(slots, lo, mid) + Values(slots, mid, hi)
  {
  }
}
