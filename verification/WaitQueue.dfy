/** The intrusive FIFO of waiters, changed in place under the channel lock. */
module WaitQueue {
  import opened Results
  import opened Seqs

  /** The state shared by the stubs of one select call. */
  class SelectState {
    var claimed: bool
    constructor ()
      ensures !claimed
    {
      claimed := false;
    }
  }

  /** A blocked operation.  `sel` is null for a direct waiter; `value` is what a
      sender offers or a receiver has been given. */
  class Waiter<V> {
    var next: Waiter?<V>
    const sel: SelectState?
    var value: V
    var result: Result
    var woken: bool

    constructor (sel: SelectState?, value: V)
      ensures this.sel == sel && this.value == value && next == null && !woken
    {
      this.sel := sel;
      this.value := value;
      next := null;
      result := Ok;
      woken := false;
    }

    /** May still be served: a direct waiter, or a stub nobody has claimed. */
    predicate Claimable()
      reads this, sel
    {
      sel == null || !sel.claimed
    }

    /** Claim the waiter for delivery; a select call is claimed once. */
    method TryClaim() returns (ok: bool)
      modifies sel
      ensures ok == old(Claimable())
      ensures sel != null ==> sel.claimed
    {
      if sel == null { return true; }
      ok := !sel.claimed;
      sel.claimed := true;
    }
  }

  /** The nodes are linked in order and the last one ends the list. */
  ghost predicate Linked<V>(s: seq<Waiter<V>>)
    reads s
  {
    && Distinct(s)
    && (forall i :: 0 <= i < |s| - 1 ==> s[i].next == s[i + 1])
    && (s != [] ==> s[|s| - 1].next == null)
  }

  class Queue<V> {
    var head: Waiter?<V>
    var tail: Waiter?<V>
    /** The queued waiters, first to be served first. */
    ghost var nodes: seq<Waiter<V>>

    ghost predicate Valid()
      reads this, nodes
    {
      && Linked(nodes)
      && (if nodes == [] then head == null && tail == null else head == nodes[0] && tail == nodes[|nodes| - 1])
    }

    constructor ()
      ensures Valid() && nodes == []
    {
      head, tail, nodes := null, null, [];
    }

    predicate Empty()
      requires Valid()
      reads this, nodes
      ensures Empty() <==> nodes == []
    {
      head == null
    }

    method Push(w: Waiter<V>)
      requires Valid() && w !in nodes
      modifies this, w`next, nodes`next
      ensures Valid() && nodes == old(nodes) + [w]
    {
      w.next := null;
      if tail != null { tail.next := w; } else { head := w; }
      tail := w;
      nodes := nodes + [w];
    }

    method PushFront(w: Waiter<V>)
      requires Valid() && w !in nodes
      modifies this, w`next
      ensures Valid() && nodes == [w] + old(nodes)
    {
      w.next := head;
      if head == null { tail := w; }
      head := w;
      nodes := [w] + nodes;
    }

    method Pop() returns (w: Waiter?<V>)
      requires Valid()
      modifies this, (if head == null then {} else {head})`next
      ensures Valid()
      ensures if old(nodes) == [] then w == null && nodes == []
              else w == old(nodes)[0] && nodes == old(nodes)[1..] && w.next == null
      ensures head == null <==> nodes == []
    {
      w := head;
      if w == null { return; }
      head := w.next;
      if head == null { tail := null; }
      w.next := null;
      nodes := nodes[1..];
    }

    /** Unlink a waiter wherever it stands; false when it is not queued. */
    method Remove(target: Waiter<V>) returns (found: bool)
      requires Valid()
      modifies this, nodes`next
      ensures Valid() && (found <==> target in old(nodes))
      ensures !found ==> nodes == old(nodes)
      ensures found ==>
        && target.next == null
        && exists k :: 0 <= k < |old(nodes)| && old(nodes)[k] == target && nodes == Cut(old(nodes), k)
    {
      var prev: Waiter?<V>, cur := null, head;
      ghost var i := 0;
      while cur != null
        invariant Valid() && nodes == old(nodes) && 0 <= i <= |nodes|
        invariant cur == if i < |nodes| then nodes[i] else null
        invariant prev == if i > 0 then nodes[i - 1] else null
        invariant target !in nodes[..i]
        decreases |nodes| - i
      {
        if cur == target {
          if prev != null { prev.next := cur.next; } else { head := cur.next; }
          if tail == cur { tail := prev; }
          cur.next := null;
          nodes := Cut(nodes, i);
          return true;
        }
        prev, cur := cur, cur.next;
        i := i + 1;
      }
      return false;
    }

    method PopAndClaim() returns (w: Waiter<V>, ok: bool)
      requires Valid() && nodes != []
      modifies this, {nodes[0]}`next, nodes[0].sel
      ensures Valid() && w == old(nodes[0]) && nodes == old(nodes)[1..] && (head == null <==> nodes == [])
      ensures ok == old(nodes[0].Claimable()) && w.next == null && (w.sel != null ==> w.sel.claimed)
    {
      w := Pop();
      ok := w.TryClaim();
    }

    /** Dequeue the first waiter and try to claim it, seen from a list of waiters. */
    method ClaimFirst(ghost ns: seq<Waiter<V>>) returns (w: Waiter<V>, ok: bool)
      requires Valid() && nodes != [] && nodes[0] in ns
      modifies this, {nodes[0]}`next, nodes[0].sel
      ensures Valid() && w == old(nodes[0]) && nodes == old(nodes)[1..]
      ensures (head == null <==> nodes == []) && w.next == null
      ensures ok == (w.sel == null || w.sel !in old(ClaimedStates(ns))) && Looks(ns) == old(Looks(ns))
      ensures ClaimedStates(ns) == old(ClaimedStates(ns)) + if w.sel == null then {} else {w.sel}
      ensures !ok ==> ClaimedStates(ns) == old(ClaimedStates(ns))
    {
      assert nodes[0].sel != null ==> nodes[0].sel in States(ns);
      w, ok := PopAndClaim();
    }

    /** Dequeue the first waiter that can still be claimed, dropping exactly the
        claimed stubs in front of it; k is how many were dropped. */
    method PopClaimable() returns (w: Waiter?<V>, ghost k: nat)
      requires Valid()
      modifies this, nodes`next, States(nodes)
      ensures Valid() && k <= |old(nodes)|
      ensures forall i :: 0 <= i < k ==> old(nodes)[i].sel in old(ClaimedStates(nodes))
      ensures if w == null then k == |old(nodes)| && nodes == []
              else
                && k < |old(nodes)| && w == old(nodes)[k] && w.sel !in old(ClaimedStates(nodes))
                && nodes == old(nodes)[k + 1..] && w.next == null
      ensures var won := if w == null || w.sel == null then {} else {w.sel};
        ClaimedStates(old(nodes)) == old(ClaimedStates(nodes)) + won
    {
      ghost var ns, claimed := nodes, ClaimedStates(nodes);
      k := 0;
      assert head == null <==> nodes == [];
      hide Valid, ClaimedStates, Looks;
      while head != null
        invariant Valid() && k <= |ns| && nodes == ns[k..] && (head == null <==> nodes == [])
        invariant ClaimedStates(ns) == claimed && forall i :: 0 <= i < k ==> ns[i].sel in claimed
        decreases |nodes|
      {
        assert nodes[0] == ns[k] && ns[k] in ns && (ns[k].sel != null ==> ns[k].sel in States(ns));
        var ok;
        w, ok := ClaimFirst(ns);
        if ok { return; }
        k := k + 1;
      }
      w := null;
    }

    /** Dequeue the first waiter and, if it can be claimed, wake it with `Closed`. */
    method CloseFirst(ghost ns: seq<Waiter<V>>)
      requires Valid() && nodes != [] && nodes[0] in ns
      modifies this, nodes[0], nodes[0].sel
      ensures Valid() && nodes == old(nodes)[1..] && (head == null <==> nodes == [])
      ensures var w := old(nodes[0]);
        Looks(ns) == old(Looks(ns))[w := if old(w.Claimable()) then Dismissed(old(Looks(ns)[w])) else old(Looks(ns)[w])]
      ensures var w := old(nodes[0]);
        ClaimedStates(ns) == old(ClaimedStates(ns)) + if w.sel == null then {} else {w.sel}
    {
      var w, ok := PopAndClaim();
      if ok {
        w.result := Closed;
        w.woken := true;
      }
      assert w.sel != null ==> w.sel in States(ns);
    }

    ghost predicate Closing(ns: seq<Waiter<V>>, looks: map<Waiter<V>, Look<V>>, claimed: set<SelectState>, k: nat)
      reads this, nodes, ns, States(ns)
    {
      && Valid() && k <= |ns| && nodes == ns[k..] && Distinct(ns)
      && ClosedUpTo(ns, looks, claimed, k, Looks(ns)) && ClaimedStates(ns) == claimed + States(ns[..k])
    }

    method CloseNext(ghost ns: seq<Waiter<V>>, ghost looks: map<Waiter<V>, Look<V>>, ghost claimed: set<SelectState>,
                     ghost k: nat)
      requires Closing(ns, looks, claimed, k) && k < |ns|
      modifies this, ns[k], ns[k].sel
      ensures Closing(ns, looks, claimed, k + 1) && (head == null <==> k + 1 == |ns|)
    {
      hide Valid, ClosedUpTo, Looks;
      assert nodes[0] == ns[k] && (ns[k].sel != null ==> ns[k].sel in States(ns));
      CloseOneMore(ns, looks, claimed, k, Looks(ns), ns[k].Claimable());
      CloseFirst(ns);
    }

    /** Dequeue everybody; whoever can be claimed gets `Closed` and is woken, and
        of the stubs of one select only the first. */
    method CloseAll()
      requires Valid()
      modifies this, nodes, States(nodes)
      ensures Valid() && nodes == []
      ensures AllClosed(old(nodes), old(Looks(nodes)), old(ClaimedStates(nodes)))
      ensures ClaimedStates(old(nodes)) == States(old(nodes))
    {
      ghost var ns, looks, claimed, k := nodes, Looks(nodes), ClaimedStates(nodes), 0;
      ClosingStarts();
      hide Closing, Valid, ClosedUpTo, Looks, ClaimedStates;
      while head != null
        invariant k <= |ns| && Closing(ns, looks, claimed, k) && (head == null <==> k == |ns|)
        decreases |ns| - k
      {
        assert ns[k] in ns && (ns[k].sel != null ==> ns[k].sel in States(ns));
        CloseNext(ns, looks, claimed, k);
        k := k + 1;
      }
      ClosingAt(ns, looks, claimed, k);
    }

    lemma ClosingStarts()
      requires Valid()
      ensures Closing(nodes, Looks(nodes), ClaimedStates(nodes), 0) && (head == null <==> 0 == |nodes|)
    {
      assert nodes[..0] == [] && States(nodes[..0]) == {};
    }

    lemma ClosingAt(ns: seq<Waiter<V>>, looks: map<Waiter<V>, Look<V>>, claimed: set<SelectState>, k: nat)
      requires Closing(ns, looks, claimed, k) && k == |ns|
      ensures Valid() && nodes == [] && ClosedUpTo(ns, looks, claimed, k, Looks(ns)) && ClaimedStates(ns) == States(ns)
    {
      assert ns[..|ns|] == ns;
    }
  }

  /** A waiter as others leave it. */
  datatype Look<V> = Look(woken: bool, result: Result, value: V)

  /** Woken with `Closed`. */
  function Dismissed<V>(l: Look<V>): Look<V> { Look(true, Closed, l.value) }

  /** What has become of each waiter, and which selects are claimed. */
  ghost function Looks<V>(s: seq<Waiter<V>>): map<Waiter<V>, Look<V>>
    reads s
  {
    map w | w in s :: Look(w.woken, w.result, w.value)
  }

  ghost function ClaimedStates<V>(s: seq<Waiter<V>>): set<SelectState>
    reads States(s)
  {
    set x | x in States(s) && x.claimed
  }

  /** The i-th node is a direct waiter, or the first stub of an unclaimed select. */
  ghost predicate Wins<V>(s: seq<Waiter<V>>, claimed: set<SelectState>, i: nat)
    requires i < |s|
  {
    s[i].sel == null || (s[i].sel !in claimed && s[i].sel !in States(s[..i]))
  }

  /** The first k nodes have been closed: the winners among them are woken with
      `Closed`, everybody else is as before. */
  ghost predicate ClosedUpTo<V>(s: seq<Waiter<V>>, before: map<Waiter<V>, Look<V>>, claimed: set<SelectState>,
                                k: nat, now: map<Waiter<V>, Look<V>>)
    requires k <= |s|
  {
    forall i :: 0 <= i < |s| ==>
      && s[i] in before && s[i] in now
      && now[s[i]] == if i < k && Wins(s, claimed, i) then Dismissed(before[s[i]]) else before[s[i]]
  }

  /** Everybody in the list has been closed. */
  ghost predicate AllClosed<V>(s: seq<Waiter<V>>, before: map<Waiter<V>, Look<V>>, claimed: set<SelectState>)
    reads s
  {
    ClosedUpTo(s, before, claimed, |s|, Looks(s))
  }

  lemma CloseOneMore<V>(s: seq<Waiter<V>>, before: map<Waiter<V>, Look<V>>, claimed: set<SelectState>,
                        k: nat, now: map<Waiter<V>, Look<V>>, ok: bool)
    requires k < |s| && Distinct(s) && ClosedUpTo(s, before, claimed, k, now)
    requires ok == (s[k].sel == null || s[k].sel !in claimed + States(s[..k]))
    ensures ClosedUpTo(s, before, claimed, k + 1, now[s[k] := if ok then Dismissed(now[s[k]]) else now[s[k]]])
    ensures States(s[..k + 1]) == States(s[..k]) + if s[k].sel == null then {} else {s[k].sel}
  {
    assert s[..k + 1] == s[..k] + [s[k]];
  }

  /** The shared states of the select stubs among the nodes. */
  ghost function States<V>(s: seq<Waiter<V>>): set<SelectState> { set w <- s | w.sel != null :: w.sel }

  function Cut<V>(s: seq<Waiter<V>>, k: nat): seq<Waiter<V>>
    requires k < |s|
  {
    s[..k] + s[k + 1..]
  }
}
