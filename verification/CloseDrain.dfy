/** Closing a channel with no fast path at work: every waiting sender is told
    `Closed`, the waiting receivers are given the buffered values, oldest first,
    and the ones left over are told `Closed`. */
module CloseDrain {
  import opened Results
  import opened Seqs
  import opened Sides
  import opened WaitQueue
  import opened RingBuffer

  /** The waiters a scan of the queue can claim, given the selects already claimed. */
  ghost function Winners<V>(s: seq<Waiter<V>>, claimed: set<SelectState>): seq<Waiter<V>> {
    if s == [] then []
    else if s[0].sel == null then [s[0]] + Winners(s[1..], claimed)
    else if s[0].sel in claimed then Winners(s[1..], claimed)
    else [s[0]] + Winners(s[1..], claimed + {s[0].sel})
  }

  lemma {:induction false} WinnersAreQueued<V>(s: seq<Waiter<V>>, claimed: set<SelectState>)
    requires Distinct(s)
    ensures Distinct(Winners(s, claimed)) && forall w :: w in Winners(s, claimed) ==> w in s
  {
    if s != [] {
      assert Distinct(s[1..]) && s[0] !in s[1..];
      WinnersAreQueued(s[1..], claimed);
      if s[0].sel != null { WinnersAreQueued(s[1..], claimed + {s[0].sel}); }
    }
  }

  /** With direct waiters only, everybody wins. */
  lemma {:induction false} DirectWaitersWin<V>(s: seq<Waiter<V>>, claimed: set<SelectState>)
    requires forall w :: w in s ==> w.sel == null
    ensures Winners(s, claimed) == s
  {
    if s != [] { DirectWaitersWin(s[1..], claimed); }
  }

  /** The outcome of the i-th winner when `items` were buffered. */
  ghost function Outcome<V>(items: seq<V>, i: nat, before: Look<V>): Look<V> {
    if i < |items| then Look(true, Ok, items[i]) else Dismissed(before)
  }

  /** The first j winners have their outcome; everybody else is as before. */
  ghost predicate Given<V>(s: seq<Waiter<V>>, wins: seq<Waiter<V>>, items: seq<V>, j: nat,
                           before: map<Waiter<V>, Look<V>>, now: map<Waiter<V>, Look<V>>) {
    && before.Keys == now.Keys == (set w | w in s)
    && (forall i :: 0 <= i < |wins| ==>
          && wins[i] in s
          && now[wins[i]] == if i < j then Outcome(items, i, before[wins[i]]) else before[wins[i]])
    && (forall w :: w in s && w !in wins ==> now[w] == before[w])
  }

  lemma GiveNext<V>(s: seq<Waiter<V>>, wins: seq<Waiter<V>>, items: seq<V>, j: nat,
                    before: map<Waiter<V>, Look<V>>, now: map<Waiter<V>, Look<V>>)
    requires Given(s, wins, items, j, before, now) && j < |wins| && Distinct(wins) && wins[j] in now
    ensures Given(s, wins, items, j + 1, before, now[wins[j] := Outcome(items[Min(j, |items|)..], 0, now[wins[j]])])
  {
    assert wins[j] in s;
  }

  /** Give a claimed receiver the oldest buffered value, or `Closed` when there is none, and wake it. */
  method Give<V>(ring: RingBuffer<V>, w: Waiter<V>, ghost ns: seq<Waiter<V>>)
    requires ring.Valid() && w in ns
    modifies ring`ch, ring`ct, w`value, w`result, w`woken
    ensures ring.Valid() && ring.Contents() == if old(ring.Contents()) == [] then [] else old(ring.Contents())[1..]
    ensures Looks(ns) == old(Looks(ns))[w := Outcome(old(ring.Contents()), 0, old(Looks(ns)[w]))]
  {
    var got, v := ring.Pop();
    if got {
      w.value := v;
      w.result := Ok;
    } else {
      w.result := Closed;
    }
    w.woken := true;
  }

  /** Dequeue the first receiver and, if it can be claimed, serve it. */
  method ServeFirst<V>(ring: RingBuffer<V>, q: Queue<V>, ghost ns: seq<Waiter<V>>) returns (ok: bool)
    requires ring.Valid() && q.Valid() && q.nodes != [] && q.nodes[0] in ns
    modifies ring`ch, ring`ct, q, q.nodes[0], q.nodes[0].sel
    ensures ring.Valid() && q.Valid() && q.nodes == old(q.nodes)[1..] && (q.head == null <==> q.nodes == [])
    ensures ok == old(q.nodes[0].Claimable())
    ensures var items, w := old(ring.Contents()), old(q.nodes[0]);
      if ok then
        && ring.Contents() == (if items == [] then [] else items[1..])
        && Looks(ns) == old(Looks(ns))[w := Outcome(items, 0, old(Looks(ns)[w]))]
      else ring.Contents() == items && Looks(ns) == old(Looks(ns))
    ensures var w := old(q.nodes[0]);
      ClaimedStates(ns) == old(ClaimedStates(ns)) + if w.sel == null then {} else {w.sel}
  {
    hide Outcome, Values;
    assert q.nodes[0].sel != null ==> q.nodes[0].sel in States(ns);
    var w;
    w, ok := q.ClaimFirst(ns);
    assert w in Looks(ns);
    hide Looks;
    if ok { Give(ring, w, ns); }
  }

  ghost predicate Draining<V>(ring: RingBuffer<V>, q: Queue<V>, ns: seq<Waiter<V>>, wins: seq<Waiter<V>>, items: seq<V>,
                              before: map<Waiter<V>, Look<V>>, j: nat)
    reads ring, ring.slots, q, q.nodes, ns, States(ns)
  {
    && ring.Valid() && q.Valid() && (q.head == null <==> q.nodes == []) && j <= |wins| && Distinct(wins)
    && (forall w :: w in q.nodes ==> w in ns)
    && Winners(q.nodes, ClaimedStates(ns)) == wins[j..]
    && ring.Contents() == items[Min(j, |items|)..]
    && Given(ns, wins, items, j, before, Looks(ns))
  }

  /** The three cases of a scan: a direct waiter, a select claimed already, and one that is not. */
  lemma DirectWins<V>(s: seq<Waiter<V>>, claimed: set<SelectState>)
    requires s != [] && s[0].sel == null
    ensures Winners(s, claimed) == [s[0]] + Winners(s[1..], claimed + {})
  {
    assert claimed + {} == claimed;
  }

  lemma ClaimedLoses<V>(s: seq<Waiter<V>>, claimed: set<SelectState>)
    requires s != [] && s[0].sel != null && s[0].sel in claimed
    ensures Winners(s, claimed) == Winners(s[1..], claimed + {s[0].sel})
  {
    assert claimed + {s[0].sel} == claimed;
  }

  lemma UnclaimedWins<V>(s: seq<Waiter<V>>, claimed: set<SelectState>)
    requires s != [] && s[0].sel != null && s[0].sel !in claimed
    ensures Winners(s, claimed) == [s[0]] + Winners(s[1..], claimed + {s[0].sel})
  {
  }

  /** What claiming the head of the queue does to the winners still to come. */
  lemma WinnersStep<V>(s: seq<Waiter<V>>, claimed: set<SelectState>, wins: seq<Waiter<V>>, j: nat)
    requires s != [] && j <= |wins| && Winners(s, claimed) == wins[j..]
    ensures var w := s[0]; var ok := w.sel == null || w.sel !in claimed;
      && (ok ==> j < |wins| && wins[j] == w)
      && Winners(s[1..], claimed + if w.sel == null then {} else {w.sel}) == wins[j + (if ok then 1 else 0)..]
  {
    hide Winners;
    assert wins[j..] != [] ==> wins[j..] == [wins[j]] + wins[j + 1..];
    if s[0].sel == null { DirectWins(s, claimed); }
    else if s[0].sel in claimed { ClaimedLoses(s, claimed); }
    else { UnclaimedWins(s, claimed); }
  }

  method ServeNext<V>(ring: RingBuffer<V>, q: Queue<V>, ghost ns: seq<Waiter<V>>, ghost wins: seq<Waiter<V>>,
                      ghost items: seq<V>, ghost before: map<Waiter<V>, Look<V>>, ghost j: nat) returns (ghost j': nat)
    requires Draining(ring, q, ns, wins, items, before, j) && q.nodes != []
    modifies ring`ch, ring`ct, q, q.nodes[0], q.nodes[0].sel
    ensures Draining(ring, q, ns, wins, items, before, j')
    ensures q.nodes == old(q.nodes)[1..] && (q.head == null <==> q.nodes == [])
  {
    ghost var w, now := q.nodes[0], Looks(ns);
    assert w in ns && (w.sel != null ==> w.sel in States(ns));
    WinnersStep(q.nodes, ClaimedStates(ns), wins, j);
    assert w.Claimable() == (w.sel == null || w.sel !in ClaimedStates(ns));
    if w.Claimable() { GiveNext(ns, wins, items, j, before, now); }
    hide Winners, Outcome, Looks, Given, Linked, Values, ClaimedStates, Distinct;
    var ok := ServeFirst(ring, q, ns);
    j' := if ok then j + 1 else j;
    assert ring.Contents() == items[Min(j', |items|)..];
  }

  /** Serve and dismiss every queued receiver. */
  method DrainReceivers<V>(ring: RingBuffer<V>, q: Queue<V>)
    requires ring.Valid() && q.Valid()
    modifies ring`ch, ring`ct, q, q.nodes, States(q.nodes)
    ensures ring.Valid() && q.Valid() && q.nodes == []
    ensures Settled(ring, old(q.nodes), old(ClaimedStates(q.nodes)), old(ring.Contents()), old(Looks(q.nodes)))
  {
    ghost var ns, items, before, j, k := q.nodes, ring.Contents(), Looks(q.nodes), 0, 0;
    ghost var claimed := ClaimedStates(ns);
    ghost var wins := Winners(ns, claimed);
    NothingDrained(ring, q);
    hide Draining, Winners, Given, Looks, Settled, Values, ClaimedStates;
    while q.head != null
      invariant Draining(ring, q, ns, wins, items, before, j) && k <= |ns|
      invariant q.nodes == ns[k..] && (q.head == null <==> q.nodes == [])
      decreases |ns| - k
    {
      assert ns[k] in ns && (ns[k].sel != null ==> ns[k].sel in States(ns));
      j := ServeNext(ring, q, ns, wins, items, before, j);
      k := k + 1;
    }
    Emptied(ring, q, ns, claimed, wins, items, before, j);
  }

  lemma NothingDrained<V>(ring: RingBuffer<V>, q: Queue<V>)
    requires ring.Valid() && q.Valid()
    ensures Draining(ring, q, q.nodes, Winners(q.nodes, ClaimedStates(q.nodes)), ring.Contents(), Looks(q.nodes), 0)
    ensures q.head == null <==> q.nodes == []
  {
    hide Winners, Values;
    WinnersAreQueued(q.nodes, ClaimedStates(q.nodes));
    assert Winners(q.nodes, ClaimedStates(q.nodes))[0..] == Winners(q.nodes, ClaimedStates(q.nodes));
    assert ring.Contents()[0..] == ring.Contents();
  }

  /** The first min(winners, items) winners have the oldest values with `Ok`, the
      other winners have `Closed`, and the ring keeps the rest in order. */
  ghost predicate Settled<V>(ring: RingBuffer<V>, ns: seq<Waiter<V>>, claimed: set<SelectState>, items: seq<V>,
                             before: map<Waiter<V>, Look<V>>)
    reads ring, ring.slots, ns
  {
    var wins := Winners(ns, claimed);
    && ring.Valid() && ring.Contents() == items[Min(|wins|, |items|)..]
    && Given(ns, wins, items, |wins|, before, Looks(ns))
  }

  lemma Emptied<V>(ring: RingBuffer<V>, q: Queue<V>, ns: seq<Waiter<V>>, claimed: set<SelectState>,
                   wins: seq<Waiter<V>>,
                   items: seq<V>, before: map<Waiter<V>, Look<V>>, j: nat)
    requires Draining(ring, q, ns, wins, items, before, j) && q.nodes == []
    ensures ring.Valid() && q.Valid() && ring.Contents() == items[Min(|wins|, |items|)..]
    ensures Given(ns, wins, items, |wins|, before, Looks(ns))
    ensures wins == Winners(ns, claimed) ==> Settled(ring, ns, claimed, items, before)
  {
    assert wins[j..] == [];
  }

  /** A channel at rest: its ring, its two wait queues and its flag. */
  class QuietChannel<V> {
    const ring: RingBuffer<V>
    const sendq: Queue<V>
    const recvq: Queue<V>
    var closed: bool

    ghost predicate Valid()
      reads this, ring, sendq, recvq, sendq.nodes, recvq.nodes
    {
      && ring.Valid() && sendq.Valid() && recvq.Valid() && sendq != recvq
      && forall w :: w in sendq.nodes ==> w !in recvq.nodes
    }

    /** A buffered channel: open, empty, nobody waiting. */
    constructor (cap: nat, init: V)
      requires cap > 0
      ensures Valid() && !closed && ring.slots.Length == cap
      ensures ring.Contents() == [] && sendq.nodes == [] && recvq.nodes == []
    {
      ring := new RingBuffer(cap, init);
      sendq := new Queue();
      recvq := new Queue();
      closed := false;
    }

    /** Close an open channel: tell the senders, serve the receivers, tell the rest. */
    method CloseOpen()
      requires Valid() && !closed
      modifies this, ring`ch, ring`ct, sendq, recvq, sendq.nodes, recvq.nodes, States(sendq.nodes), States(recvq.nodes)
      ensures Valid() && closed && sendq.nodes == [] && recvq.nodes == []
      ensures Settled(ring, old(recvq.nodes),
                      old(ClaimedStates(recvq.nodes) + States(recvq.nodes) * States(sendq.nodes)),
                      old(ring.Contents()), old(Looks(recvq.nodes)))
      ensures AllClosed(old(sendq.nodes), old(Looks(sendq.nodes)), old(ClaimedStates(sendq.nodes)))
    {
      hide Winners, Given, Looks, ClaimedStates, Settled, Values, AllClosed;
      ghost var ss := sendq.nodes;
      assert forall i :: 0 <= i < |ss| ==> ss[i] !in recvq.nodes;
      closed := true;
      TellSenders();
      DrainReceivers(ring, recvq);
    }

    method Close() returns (r: Result)
      requires Valid()
      modifies this, ring`ch, ring`ct, sendq, recvq, sendq.nodes, recvq.nodes, States(sendq.nodes), States(recvq.nodes)
      ensures Valid() && closed && r == if old(closed) then Closed else Ok
      ensures old(closed) ==>
        && sendq.nodes == old(sendq.nodes) && recvq.nodes == old(recvq.nodes)
        && ring.Contents() == old(ring.Contents())
        && Looks(sendq.nodes) == old(Looks(sendq.nodes)) && Looks(recvq.nodes) == old(Looks(recvq.nodes))
      ensures !old(closed) ==> sendq.nodes == [] && recvq.nodes == []
      ensures !old(closed) ==>
        Settled(ring, old(recvq.nodes), old(ClaimedStates(recvq.nodes) + States(recvq.nodes) * States(sendq.nodes)),
                old(ring.Contents()), old(Looks(recvq.nodes)))
      ensures !old(closed) ==> AllClosed(old(sendq.nodes), old(Looks(sendq.nodes)), old(ClaimedStates(sendq.nodes)))
    {
      hide Settled, Looks, AllClosed;
      if closed { return Closed; }
      CloseOpen();
      return Ok;
    }

    method TellSenders()
      requires Valid()
      modifies sendq, sendq.nodes, States(sendq.nodes)
      ensures Valid() && sendq.nodes == [] && ring.Contents() == old(ring.Contents())
      ensures AllClosed(old(sendq.nodes), old(Looks(sendq.nodes)), old(ClaimedStates(sendq.nodes)))
      ensures var ns := recvq.nodes;
        && Looks(ns) == old(Looks(ns))
        && ClaimedStates(ns) == old(ClaimedStates(ns)) + (States(ns) * States(old(sendq.nodes)))
    {
      hide AllClosed;
      ghost var ns := recvq.nodes;
      assert forall i :: 0 <= i < |ns| ==> ns[i] !in sendq.nodes;
      sendq.CloseAll();
      assert recvq.Valid();
    }
  }
}
