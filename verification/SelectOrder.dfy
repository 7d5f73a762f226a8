/** The order in which a select locks its channels: case indices sorted by
    channel address, in place, and each distinct channel locked once. */
module SelectOrder {
  import opened Seqs

  /** Case i before case j: smaller address, or same address and smaller index. */
  predicate Before(addr: seq<nat>, i: nat, j: nat)
    requires i < |addr| && j < |addr|
  {
    addr[i] < addr[j] || (addr[i] == addr[j] && i < j)
  }

  /** Indices of cases, strictly increasing in that order. */
  ghost predicate Ordered(addr: seq<nat>, s: seq<nat>) {
    && (forall i :: 0 <= i < |s| ==> s[i] < |addr|)
    && (forall i, j :: 0 <= i < j < |s| ==> Before(addr, s[i], s[j]))
  }

  /** Sorting the indices 0, 1, ..., n - 1 by address, by insertion. */
  method SortOrder(order: array<nat>, addr: seq<nat>)
    requires order.Length == |addr|
    modifies order
    ensures Ordered(addr, order[..]) && forall x: nat :: x < |addr| ==> x in order[..]
  {
    var n := order.Length;
    for i := 0 to n
      invariant forall k :: 0 <= k < i ==> order[k] == k
    {
      order[i] := i;
    }
    var i := 1;
    while i < n
      invariant 1 <= i && (i <= n || n == 0)
      invariant n > 0 ==> Ordered(addr, order[..i])
      invariant forall k :: 0 <= k < i && k < n ==> order[k] < i
      invariant forall k :: i <= k < n ==> order[k] == k
    {
      Insert(order, addr, i);
      i := i + 1;
    }
    assert order[..n] == order[..];
    Covers(addr, order[..]);
  }

  /** Insert index i into the sorted prefix of the first i indices. */
  method Insert(order: array<nat>, addr: seq<nat>, i: nat)
    requires order.Length == |addr| && 0 < i < order.Length && order[i] == i
    requires Ordered(addr, order[..i]) && forall k :: 0 <= k < i ==> order[k] < i
    modifies order
    ensures Ordered(addr, order[..i + 1]) && forall k :: 0 <= k < i + 1 ==> order[k] < i + 1
    ensures forall k :: i < k < order.Length ==> order[k] == old(order[k])
  {
    var key, j := order[i], i;
    ghost var was := order[..i];
    while j > 0 && addr[order[j - 1]] > addr[key]
      invariant 0 <= j <= i
      invariant forall k :: 0 <= k < j ==> order[k] == was[k]
      invariant forall k :: j < k <= i ==> order[k] == was[k - 1] && addr[key] < addr[order[k]]
      invariant forall k :: i < k < order.Length ==> order[k] == old(order[k])
    {
      order[j] := order[j - 1];
      j := j - 1;
    }
    order[j] := key;
    assert j > 0 ==> addr[was[j - 1]] <= addr[key];
    assert forall a :: 0 <= a < j ==> Before(addr, was[a], key) by {
      forall a | 0 <= a < j ensures Before(addr, was[a], key) { assert a < j - 1 ==> Before(addr, was[a], was[j - 1]); }
    }
  }

  function Range(n: nat): (r: set<nat>)
    ensures |r| == n && forall x: nat :: x in r <==> x < n
  {
    if n == 0 then {} else Range(n - 1) + {n - 1}
  }

  /** n distinct indices below n are all of them. */
  lemma Covers(addr: seq<nat>, s: seq<nat>)
    requires Ordered(addr, s) && |s| == |addr|
    ensures forall x: nat :: x < |addr| ==> x in s
  {
    var got := set i | 0 <= i < |s| :: s[i];
    DistinctCount(addr, s);
    Subsets(got, Range(|addr|));
    forall x: nat | x < |addr| ensures x in s { assert x in Range(|addr|) && x in got; }
  }

  lemma {:induction false} DistinctCount(addr: seq<nat>, s: seq<nat>)
    requires Ordered(addr, s)
    ensures |set i | 0 <= i < |s| :: s[i]| == |s|
  {
    if s != [] {
      var t := s[..|s| - 1];
      DistinctCount(addr, t);
      var a, b := set i | 0 <= i < |s| :: s[i], set i | 0 <= i < |t| :: t[i];
      assert a == b + {s[|s| - 1]};
      assert s[|s| - 1] !in b;
    }
  }

  lemma Subsets(a: set<nat>, b: set<nat>)
    requires a <= b && |a| == |b|
    ensures a == b
  {
    assert b == a + (b - a) && |b| == |a| + |b - a|;
  }

  /** The two-case shortcut gives the same order. */
  method SortOrder2(order: array<nat>, addr: seq<nat>)
    requires order.Length == |addr| == 2
    modifies order
    ensures Ordered(addr, order[..]) && forall x: nat :: x < 2 ==> x in order[..]
  {
    if addr[0] <= addr[1] {
      order[0], order[1] := 0, 1;
    } else {
      order[0], order[1] := 1, 0;
    }
    Covers(addr, order[..]);
  }

  /** There is only one such order, so both sorts agree. */
  lemma {:induction false} OrderUnique(addr: seq<nat>, s: seq<nat>, t: seq<nat>)
    requires Ordered(addr, s) && Ordered(addr, t) && |s| == |t| && forall x: nat :: x in s <==> x in t
    ensures s == t
  {
    if s != [] {
      var n := |s| - 1;
      LastIsMax(addr, s, t);
      LastIsMax(addr, t, s);
      assert s[n] == t[n] && s[n] !in s[..n] && t[n] !in t[..n];
      forall x: nat ensures x in s[..n] <==> x in t[..n] {
        assert x in s <==> x in s[..n] || x == s[n];
        assert x in t <==> x in t[..n] || x == t[n];
      }
      OrderUnique(addr, s[..n], t[..n]);
      assert s == s[..n] + [s[n]] && t == t[..n] + [t[n]];
    }
  }

  lemma LastIsMax(addr: seq<nat>, s: seq<nat>, t: seq<nat>)
    requires Ordered(addr, s) && Ordered(addr, t) && s != [] && t != [] && forall x: nat :: x in s <==> x in t
    ensures s[|s| - 1] == t[|t| - 1] || Before(addr, s[|s| - 1], t[|t| - 1])
  {
    assert s[|s| - 1] in t;
  }

  // ------------------------------------------------------------------ locks

  /** The locks a thread holds, by channel address, in the order taken. */
  class LockList {
    var held: seq<nat>

    constructor ()
      ensures held == []
    {
      held := [];
    }

    /** A thread that locked a channel twice would wait for itself. */
    method Lock(a: nat)
      requires a !in held
      modifies this
      ensures held == old(held) + [a]
    {
      held := held + [a];
    }

    /** Locks are released in the order they were taken. */
    method Unlock(a: nat)
      requires held != [] && held[0] == a
      modifies this
      ensures held == old(held)[1..]
    {
      held := held[1..];
    }

    /** Each distinct channel is locked once, in strictly ascending order of address. */
    method LockAll(order: array<nat>, addr: seq<nat>)
      requires held == [] && order.Length == |addr| && Ordered(addr, order[..])
      modifies this
      ensures held == Addresses(addr, order[..]) && Ascending(held)
      ensures forall a: nat :: a in held <==> exists i :: 0 <= i < order.Length && addr[order[i]] == a
    {
      for i := 0 to order.Length
        invariant held == Addresses(addr, order[..i])
      {
        assert order[..i + 1][..i] == order[..i] && Ordered(addr, order[..i]) && Ordered(addr, order[..i + 1]);
        AddressesBelow(addr, order[..i]);
        if i > 0 {
          assert Before(addr, order[i - 1], order[i]);
          if addr[order[i]] == addr[order[i - 1]] { continue; }
        }
        Lock(addr[order[i]]);
      }
      assert order[..order.Length] == order[..];
      AddressesProps(addr, order[..]);
    }

    /** Everything locked by LockAll is released, nothing else is touched. */
    method UnlockAll(order: array<nat>, addr: seq<nat>)
      requires order.Length == |addr| && Ordered(addr, order[..]) && held == Addresses(addr, order[..])
      modifies this
      ensures held == []
    {
      ghost var t, all := order[..], held;
      for i := 0 to order.Length
        invariant |Addresses(addr, t[..i])| <= |all| && held == all[|Addresses(addr, t[..i])|..]
      {
        AddressesAt(addr, t, i);
        if i > 0 && addr[order[i]] == addr[order[i - 1]] { continue; }
        Unlock(addr[order[i]]);
      }
      assert t[..order.Length] == t;
    }
  }

  /** The addresses of a sorted list of cases, repetitions left out. */
  ghost function Addresses(addr: seq<nat>, s: seq<nat>): (r: seq<nat>)
    requires forall i :: 0 <= i < |s| ==> s[i] < |addr|
    ensures |r| <= |s|
  {
    if s == [] then []
    else
      var n := |s| - 1;
      if n > 0 && addr[s[n]] == addr[s[n - 1]] then Addresses(addr, s[..n]) else Addresses(addr, s[..n]) + [addr[s[n]]]
  }

  lemma AddressesProps(addr: seq<nat>, s: seq<nat>)
    requires Ordered(addr, s)
    ensures Ascending(Addresses(addr, s))
    ensures forall a: nat :: a in Addresses(addr, s) <==> exists i :: 0 <= i < |s| && addr[s[i]] == a
  {
    AddressesAscend(addr, s);
    AddressesCover(addr, s);
  }

  lemma {:induction false} AddressesAscend(addr: seq<nat>, s: seq<nat>)
    requires Ordered(addr, s)
    ensures Ascending(Addresses(addr, s))
    ensures s != [] ==> Addresses(addr, s) != [] && Last(Addresses(addr, s)) == addr[s[|s| - 1]]
  {
    if |s| > 1 {
      assert Before(addr, s[|s| - 2], s[|s| - 1]);
      AddressesAscend(addr, s[..|s| - 1]);
    }
  }

  lemma {:induction false} AddressesCover(addr: seq<nat>, s: seq<nat>)
    requires Ordered(addr, s)
    ensures forall a: nat :: a in Addresses(addr, s) <==> exists i :: 0 <= i < |s| && addr[s[i]] == a
  {
    if s != [] {
      hide Before;
      var n := |s| - 1;
      assert Ordered(addr, s[..n]);
      AddressesCover(addr, s[..n]);
      forall a: nat ensures a in Addresses(addr, s) <==> exists i :: 0 <= i < |s| && addr[s[i]] == a {
        assert a in Addresses(addr, s[..n]) <==> exists i :: 0 <= i < n && addr[s[..n][i]] == a;
        if i :| 0 <= i < |s| && addr[s[i]] == a { assert i < n ==> addr[s[..n][i]] == a; }
        if i :| 0 <= i < n && addr[s[..n][i]] == a { assert addr[s[i]] == a; }
      }
    }
  }

  lemma {:induction false} AddressesBelow(addr: seq<nat>, s: seq<nat>)
    requires Ordered(addr, s)
    ensures forall a :: a in Addresses(addr, s) ==> s != [] && a <= addr[s[|s| - 1]]
  {
    if |s| > 1 {
      assert Before(addr, s[|s| - 2], s[|s| - 1]);
      AddressesBelow(addr, s[..|s| - 1]);
    }
  }

  /** One more case adds its address, unless it repeats the one before. */
  lemma AddressesAt(addr: seq<nat>, t: seq<nat>, i: nat)
    requires Ordered(addr, t) && i < |t|
    ensures var more := if i > 0 && addr[t[i]] == addr[t[i - 1]] then [] else [addr[t[i]]];
      Addresses(addr, t[..i + 1]) == Addresses(addr, t[..i]) + more
    ensures Addresses(addr, t[..i + 1]) <= Addresses(addr, t)
  {
    assert t[..i + 1][..i] == t[..i] && Ordered(addr, t[..i + 1]);
    AddressesGrow(addr, t[..i + 1], t);
  }

  /** The list of a longer prefix extends that of a shorter one. */
  lemma {:induction false} AddressesGrow(addr: seq<nat>, s: seq<nat>, t: seq<nat>)
    requires Ordered(addr, t) && s <= t && Ordered(addr, s)
    ensures Addresses(addr, s) <= Addresses(addr, t)
    decreases |t|
  {
    if |s| < |t| {
      AddressesGrow(addr, s, t[..|t| - 1]);
    } else {
      assert s == t;
    }
  }
}
