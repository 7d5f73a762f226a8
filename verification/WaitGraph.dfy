/** Who waits for whom: threads that lock channels in ascending order of
    address, one or many, and threads in Phase 3 of a ring operation, which wait
    for their turn behind earlier reservations.  Any number of threads and
    channels. */
module WaitGraph {
  import opened Results
  import opened Seqs
  import opened Sides
  import SelectOrder

  type Tid = nat
  type Addr = nat

  /** Indices [lo, hi) of one side of a channel's ring. */
  datatype Claim = Claim(chan: Addr, side: Side, lo: nat, hi: nat)

  /** The locks a thread has asked for, how many it has, and its reservation. */
  datatype Thread = Thread(plan: seq<Addr>, got: nat, claim: Option<Claim>)

  /** One side of a ring: the committed tail and who reserved each index. */
  datatype Line = Line(tail: nat, who: seq<Tid>)

  datatype State = State(owner: map<Addr, Tid>, lines: map<(Addr, Side), Line>, th: map<Tid, Thread>)

  const IDLE := Thread([], 0, None)

  ghost predicate Init(st: State) {
    && st.owner == map[] && (forall t <- st.th :: st.th[t] == IDLE)
    && forall x <- st.lines :: st.lines[x] == Line(0, [])
  }

  // ------------------------------------------------------------------ steps

  function Put(st: State, t: Tid, x: Thread): State { st.(th := st.th[t := x]) }

  /** Start locking the channels of a select with case addresses addr, in the
      order its sort leaves; one channel is a select with one case. */
  ghost predicate Ask(st: State, st': State, t: Tid, addr: seq<Addr>, order: seq<nat>) {
    && t in st.th && st.th[t] == IDLE
    && SelectOrder.Ordered(addr, order) && (forall x: nat :: x < |addr| ==> x in order)
    && st' == Put(st, t, Thread(SelectOrder.Addresses(addr, order), 0, None))
  }

  ghost predicate Acquire(st: State, st': State, t: Tid) {
    && t in st.th && st.th[t].got < |st.th[t].plan| && st.th[t].plan[st.th[t].got] !in st.owner
    && st' == Put(st, t, st.th[t].(got := st.th[t].got + 1)).(owner := st.owner[st.th[t].plan[st.th[t].got] := t])
  }

  /** A ring operation, with all its locks or with none at all, reserves k indices. */
  ghost predicate Reserve(st: State, st': State, t: Tid, x: (Addr, Side), k: nat) {
    && t in st.th && st.th[t].got == |st.th[t].plan| && st.th[t].claim == None && x in st.lines && k > 0
    && var n := |st.lines[x].who|;
       st' == Put(st, t, st.th[t].(claim := Some(Claim(x.0, x.1, n, n + k))))
                .(lines := st.lines[x := st.lines[x].(who := st.lines[x].who + seq(k, _ => t))])
  }

  /** Phase 3 ends when it is the thread's turn. */
  ghost predicate Commit(st: State, st': State, t: Tid) {
    && t in st.th && st.th[t].claim.Some?
    && var Claim(chan, side, lo, hi) := st.th[t].claim.value;
       && (chan, side) in st.lines && st.lines[(chan, side)].tail == lo
       && st' == Put(st, t, st.th[t].(claim := None))
                   .(lines := st.lines[(chan, side) := st.lines[(chan, side)].(tail := hi)])
  }

  ghost predicate Release(st: State, st': State, t: Tid) {
    && t in st.th && st.th[t] != IDLE && st.th[t].got == |st.th[t].plan| && st.th[t].claim == None
    && st' == Put(st, t, IDLE).(owner := map a | a in st.owner && st.owner[a] != t :: st.owner[a])
  }

  ghost predicate StepBy(st: State, st': State, t: Tid) {
    || (exists addr, order :: Ask(st, st', t, addr, order)) || Acquire(st, st', t)
    || (exists x, k :: Reserve(st, st', t, x, k)) || Commit(st, st', t) || Release(st, st', t)
  }

  ghost predicate Next(st: State, st': State) { exists t: Tid :: StepBy(st, st', t) }

  ghost predicate Run(run: seq<State>) {
    |run| > 0 && Init(run[0]) && forall i :: 0 <= i < |run| - 1 ==> Next(run[i], run[i+1])
  }

  // -------------------------------------------------------------- invariant

  /** A thread's locks are its own and were asked for in ascending order. */
  ghost predicate LocksOk(st: State, t: Tid, x: Thread) {
    && x.got <= |x.plan| && Ascending(x.plan) && (x.claim.Some? ==> x.got == |x.plan|)
    && forall i :: 0 <= i < x.got ==> x.plan[i] in st.owner && st.owner[x.plan[i]] == t
  }

  ghost predicate ClaimOk(st: State, t: Tid, x: Thread) {
    x.claim.Some? ==>
      var Claim(chan, side, lo, hi) := x.claim.value;
      && (chan, side) in st.lines
      && var l := st.lines[(chan, side)];
         l.tail <= lo < hi <= |l.who| && forall i :: lo <= i < hi ==> l.who[i] == t
  }

  ghost predicate Covers(c: Option<Claim>, x: (Addr, Side), i: nat) {
    c.Some? && (c.value.chan, c.value.side) == x && c.value.lo <= i < c.value.hi
  }

  ghost predicate LineOk(st: State, x: (Addr, Side))
    requires x in st.lines
  {
    var l := st.lines[x];
    l.tail <= |l.who| && forall i :: l.tail <= i < |l.who| ==> l.who[i] in st.th && Covers(st.th[l.who[i]].claim, x, i)
  }

  ghost predicate OwnerOk(st: State, a: Addr)
    requires a in st.owner
  {
    var u := st.owner[a];
    u in st.th && st.th[u].got <= |st.th[u].plan| && a in st.th[u].plan[..st.th[u].got]
  }

  ghost predicate Inv(st: State) {
    && (forall t <- st.th :: LocksOk(st, t, st.th[t]))
    && (forall t <- st.th :: ClaimOk(st, t, st.th[t]))
    && (forall x <- st.lines :: LineOk(st, x))
    && (forall a <- st.owner :: OwnerOk(st, a))
  }

  lemma AskKeepsInv(st: State, st': State, t: Tid, addr: seq<Addr>, order: seq<nat>)
    requires Inv(st) && Ask(st, st', t, addr, order)
    ensures Inv(st')
  {
    hide SelectOrder.Addresses, SelectOrder.Ordered;
    SelectOrder.AddressesProps(addr, order);
    forall u <- st'.th ensures LocksOk(st', u, st'.th[u]) && ClaimOk(st', u, st'.th[u]) {
      assert u != t ==> LocksOk(st, u, st.th[u]) && ClaimOk(st, u, st.th[u]);
    }
    forall x <- st'.lines ensures LineOk(st', x) { assert LineOk(st, x); }
    forall a <- st'.owner ensures OwnerOk(st', a) { assert OwnerOk(st, a); }
  }

  lemma AcquireKeepsInv(st: State, st': State, t: Tid)
    requires Inv(st) && Acquire(st, st', t)
    ensures Inv(st')
  {
    hide LocksOk, ClaimOk, LineOk, OwnerOk;
    forall u <- st'.th ensures LocksOk(st', u, st'.th[u]) && ClaimOk(st', u, st'.th[u]) {
      AcquireKeepsThread(st, st', t, u);
    }
    forall x <- st'.lines ensures LineOk(st', x) { AcquireKeepsLine(st, st', t, x); }
    forall b <- st'.owner ensures OwnerOk(st', b) { AcquireKeepsOwner(st, st', t, b); }
  }

  lemma AcquireKeepsThread(st: State, st': State, t: Tid, u: Tid)
    requires Acquire(st, st', t) && u in st.th && LocksOk(st, u, st.th[u]) && ClaimOk(st, u, st.th[u])
    ensures LocksOk(st', u, st'.th[u]) && ClaimOk(st', u, st'.th[u])
  {
  }

  lemma AcquireKeepsLine(st: State, st': State, t: Tid, x: (Addr, Side))
    requires Acquire(st, st', t) && x in st.lines && LineOk(st, x)
    ensures LineOk(st', x)
  {
  }

  lemma AcquireKeepsOwner(st: State, st': State, t: Tid, b: Addr)
    requires Acquire(st, st', t) && b in st'.owner && (b in st.owner ==> OwnerOk(st, b))
    ensures OwnerOk(st', b)
  {
    var p, g := st.th[t].plan, st.th[t].got;
    assert p[..g + 1] == p[..g] + [p[g]];
  }

  lemma ReserveKeepsInv(st: State, st': State, t: Tid, x: (Addr, Side), k: nat)
    requires Inv(st) && Reserve(st, st', t, x, k)
    ensures Inv(st')
  {
    forall u <- st'.th ensures LocksOk(st', u, st'.th[u]) && ClaimOk(st', u, st'.th[u]) {
      assert LocksOk(st, u, st.th[u]) && ClaimOk(st, u, st.th[u]);
      if u == t { assert LineOk(st, x); }
    }
    forall y <- st'.lines ensures LineOk(st', y) { assert LineOk(st, y); }
    forall a <- st'.owner ensures OwnerOk(st', a) { assert OwnerOk(st, a); }
  }

  lemma CommitKeepsInv(st: State, st': State, t: Tid)
    requires Inv(st) && Commit(st, st', t)
    ensures Inv(st')
  {
    var Claim(chan, side, lo, hi) := st.th[t].claim.value;
    assert ClaimOk(st, t, st.th[t]);
    forall u <- st'.th ensures LocksOk(st', u, st'.th[u]) && ClaimOk(st', u, st'.th[u]) {
      assert LocksOk(st, u, st.th[u]) && ClaimOk(st, u, st.th[u]);
      if u != t && st.th[u].claim.Some? && (st.th[u].claim.value.chan, st.th[u].claim.value.side) == (chan, side) {
        assert st.lines[(chan, side)].who[st.th[u].claim.value.lo] == u;
      }
    }
    forall y <- st'.lines ensures LineOk(st', y) { assert LineOk(st, y); }
    forall a <- st'.owner ensures OwnerOk(st', a) { assert OwnerOk(st, a); }
  }

  lemma ReleaseKeepsInv(st: State, st': State, t: Tid)
    requires Inv(st) && Release(st, st', t)
    ensures Inv(st')
  {
    forall u <- st'.th ensures LocksOk(st', u, st'.th[u]) && ClaimOk(st', u, st'.th[u]) {
      assert LocksOk(st, u, st.th[u]) && ClaimOk(st, u, st.th[u]);
    }
    forall y <- st'.lines ensures LineOk(st', y) { assert LineOk(st, y); }
    forall a <- st'.owner ensures OwnerOk(st', a) { assert OwnerOk(st, a); }
  }

  lemma StepKeepsInv(st: State, st': State, t: Tid)
    requires Inv(st) && StepBy(st, st', t)
    ensures Inv(st')
  {
    hide Inv, Ask, Acquire, Reserve, Commit, Release;
    if addr: seq<Addr>, order: seq<nat> :| Ask(st, st', t, addr, order) {
      AskKeepsInv(st, st', t, addr, order);
    } else if Acquire(st, st', t) {
      AcquireKeepsInv(st, st', t);
    } else if x: (Addr, Side), k: nat :| Reserve(st, st', t, x, k) {
      ReserveKeepsInv(st, st', t, x, k);
    } else if Commit(st, st', t) {
      CommitKeepsInv(st, st', t);
    } else {
      ReleaseKeepsInv(st, st', t);
    }
  }

  lemma {:induction false} RunInv(run: seq<State>, i: nat)
    requires Run(run) && i < |run|
    ensures Inv(run[i])
  {
    hide StepBy;
    if i > 0 {
      RunInv(run, i - 1);
      assert Next(run[i - 1], run[i]);
      var t: Tid :| StepBy(run[i - 1], run[i], t);
      StepKeepsInv(run[i - 1], run[i], t);
    }
  }

  // -------------------------------------------------------------- theorems

  ghost predicate LockWait(st: State, t: Tid) {
    t in st.th && st.th[t].got < |st.th[t].plan| && st.th[t].plan[st.th[t].got] in st.owner
  }

  ghost predicate TurnWait(st: State, t: Tid) {
    && t in st.th && st.th[t].claim.Some?
    && var c := st.th[t].claim.value;
       (c.chan, c.side) in st.lines && st.lines[(c.chan, c.side)].tail != c.lo
  }

  /** t waits for a lock u holds, or for its turn behind u's reservation. */
  ghost predicate WaitsFor(st: State, t: Tid, u: Tid) {
    && t in st.th && u in st.th
    && (if LockWait(st, t) then st.owner[st.th[t].plan[st.th[t].got]] == u
        else TurnWait(st, t) && st.th[u].claim.Some?
             && var c, d := st.th[t].claim.value, st.th[u].claim.value;
                d.chan == c.chan && d.side == c.side && d.lo < c.lo)
  }

  ghost predicate Path(st: State, p: seq<Tid>) {
    |p| > 0 && forall i :: 0 <= i < |p| - 1 ==> WaitsFor(st, p[i], p[i + 1])
  }

  /** One edge: the address waited for grows, and from a turn wait on the index
      waited for shrinks and no lock wait follows. */
  lemma EdgeRises(st: State, t: Tid, u: Tid)
    requires Inv(st) && WaitsFor(st, t, u)
    ensures LockWait(st, t) && LockWait(st, u) ==> st.th[t].plan[st.th[t].got] < st.th[u].plan[st.th[u].got]
    ensures !LockWait(st, t) ==>
      && !LockWait(st, u) && st.th[t].claim.Some? && st.th[u].claim.Some?
      && st.th[u].claim.value.lo < st.th[t].claim.value.lo
  {
    assert LocksOk(st, t, st.th[t]) && LocksOk(st, u, st.th[u]);
    if LockWait(st, t) {
      var a := st.th[t].plan[st.th[t].got];
      assert OwnerOk(st, a);
      var k :| 0 <= k < st.th[u].got && st.th[u].plan[k] == a;
    }
  }

  /** Along a path: either lock waits throughout, for growing addresses, or it ends among ring operations. */
  lemma {:induction false} PathRises(st: State, p: seq<Tid>)
    requires Inv(st) && Path(st, p) && |p| > 1
    ensures var t, u := p[0], p[|p| - 1];
      && t in st.th && u in st.th
      && (LockWait(st, t) && LockWait(st, u) ==> st.th[t].plan[st.th[t].got] < st.th[u].plan[st.th[u].got])
      && (!LockWait(st, t) ==>
            && !LockWait(st, u) && st.th[t].claim.Some? && st.th[u].claim.Some?
            && st.th[u].claim.value.lo < st.th[t].claim.value.lo)
  {
    hide Inv, LockWait, WaitsFor;
    var n := |p| - 1;
    assert WaitsFor(st, p[n - 1], p[n]);
    EdgeRises(st, p[n - 1], p[n]);
    EdgeEnds(st, p[n - 1], p[n]);
    if n > 1 {
      forall i | 0 <= i < n - 1 ensures WaitsFor(st, p[..n][i], p[..n][i + 1]) {
        assert WaitsFor(st, p[i], p[i + 1]);
      }
      PathRises(st, p[..n]);
    }
  }

  lemma EdgeEnds(st: State, t: Tid, u: Tid)
    requires WaitsFor(st, t, u)
    ensures t in st.th && u in st.th
  {
  }

  /** No circular wait: the graph of lock waits and turn waits has no cycle. */
  lemma NoCircularWait(run: seq<State>, i: nat, p: seq<Tid>)
    requires Run(run) && i < |run| && |p| > 1 && Path(run[i], p)
    ensures p[0] != p[|p| - 1]
  {
    hide Run, Inv;
    RunInv(run, i);
    PathRises(run[i], p);
  }

  /** Whenever indices are reserved and not committed, it is some thread's turn. */
  lemma TurnExists(run: seq<State>, i: nat, x: (Addr, Side))
    requires Run(run) && i < |run| && x in run[i].lines && run[i].lines[x].tail < |run[i].lines[x].who|
    ensures exists t ::
              && t in run[i].th && run[i].th[t].claim.Some? && run[i].th[t].claim.value.lo == run[i].lines[x].tail
              && (run[i].th[t].claim.value.chan, run[i].th[t].claim.value.side) == x
  {
    hide Run;
    RunInv(run, i);
    assert LineOk(run[i], x);
    var t := run[i].lines[x].who[run[i].lines[x].tail];
    assert ClaimOk(run[i], t, run[i].th[t]) && Covers(run[i].th[t].claim, x, run[i].lines[x].tail);
  }

  function Wanted(st: State, t: Tid): int
    requires t in st.th
  {
    if st.th[t].got < |st.th[t].plan| then st.th[t].plan[st.th[t].got] else -1
  }

  lemma {:induction false} MostWanted(st: State, s: set<Tid>) returns (t: Tid)
    requires s != {} && forall u :: u in s ==> u in st.th
    ensures t in s && forall u :: u in s ==> Wanted(st, u) <= Wanted(st, t)
    decreases |s|
  {
    var u :| u in s;
    t := u;
    if s != {u} {
      assert s == (s - {u}) + {u};
      var v := MostWanted(st, s - {u});
      if Wanted(st, u) < Wanted(st, v) { t := v; }
    }
  }

  /** A step that finishes or continues something already begun. */
  ghost predicate Moves(st: State, st': State, t: Tid) {
    Acquire(st, st', t) || Commit(st, st', t) || Release(st, st', t)
  }

  /** No deadlock: while any thread is busy, some busy thread can move. */
  lemma SomebodyMoves(run: seq<State>, i: nat, t: Tid)
    requires Run(run) && i < |run| && t in run[i].th && run[i].th[t] != IDLE
    ensures exists u, st' :: u in run[i].th && run[i].th[u] != IDLE && Moves(run[i], st', u)
  {
    hide Run;
    RunInv(run, i);
    var st := run[i];
    if u :| u in st.th && st.th[u].claim.Some? {
      ClaimantMoves(st, u);
    } else if u :| u in st.th && st.th[u].got == |st.th[u].plan| && st.th[u] != IDLE {
      assert LocksOk(st, u, st.th[u]);
      assert Moves(st, Put(st, u, IDLE).(owner := map a | a in st.owner && st.owner[a] != u :: st.owner[a]), u);
    } else {
      WaiterMoves(st, t);
    }
  }

  lemma ClaimantMoves(st: State, u: Tid)
    requires Inv(st) && u in st.th && st.th[u].claim.Some?
    ensures exists v, st' :: v in st.th && st.th[v] != IDLE && Moves(st, st', v)
  {
    assert ClaimOk(st, u, st.th[u]);
    var x := (st.th[u].claim.value.chan, st.th[u].claim.value.side);
    assert LineOk(st, x);
    var l := st.lines[x];
    var v := l.who[l.tail];
    assert Covers(st.th[v].claim, x, l.tail) && ClaimOk(st, v, st.th[v]);
    var st' := Put(st, v, st.th[v].(claim := None)).(lines := st.lines[x := l.(tail := st.th[v].claim.value.hi)]);
    assert Moves(st, st', v);
  }

  /** A thread that holds a lock and is not done wants one with a larger address. */
  lemma HoldersWantMore(st: State)
    requires Inv(st)
    ensures forall a <- st.owner ::
              && st.owner[a] in st.th
              && (st.th[st.owner[a]].got < |st.th[st.owner[a]].plan| ==> Wanted(st, st.owner[a]) > a)
    ensures forall a <- st.owner :: st.th[st.owner[a]] != IDLE && st.th[st.owner[a]].got <= |st.th[st.owner[a]].plan|
  {
    forall a <- st.owner
      ensures st.owner[a] in st.th
      ensures (st.th[st.owner[a]].got < |st.th[st.owner[a]].plan| ==> Wanted(st, st.owner[a]) > a)
      ensures st.th[st.owner[a]] != IDLE && st.th[st.owner[a]].got <= |st.th[st.owner[a]].plan|
    {
      assert OwnerOk(st, a) && LocksOk(st, st.owner[a], st.th[st.owner[a]]);
      var k :| 0 <= k < st.th[st.owner[a]].got && st.th[st.owner[a]].plan[k] == a;
    }
  }

  lemma WaiterMoves(st: State, t: Tid)
    requires Inv(st) && t in st.th && st.th[t] != IDLE
    requires forall u <- st.th :: st.th[u].claim == None && (st.th[u] != IDLE ==> st.th[u].got != |st.th[u].plan|)
    ensures exists v, st' :: v in st.th && st.th[v] != IDLE && Moves(st, st', v)
  {
    var v := MostWanted(st, st.th.Keys);
    assert LocksOk(st, t, st.th[t]) && LocksOk(st, v, st.th[v]) && Wanted(st, t) <= Wanted(st, v);
    var a := st.th[v].plan[st.th[v].got];
    HoldersWantMore(st);
    assert a !in st.owner;
    assert Moves(st, Put(st, v, st.th[v].(got := st.th[v].got + 1)).(owner := st.owner[a := v]), v);
  }
}
