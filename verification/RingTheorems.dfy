/** What every execution of the MPMC ring guarantees. */
module RingTheorems {
  import opened Ring
  import opened Seqs
  import opened Sides

  /** Every state of every execution satisfies the invariant. */
  lemma {:induction false} RunInv<V>(run: seq<Ring<V>>, i: nat)
    requires Run(run) && i < |run|
    ensures Inv(run[i])
  {
    if i > 0 {
      RunInv(run, i - 1);
      var s, s' := run[i - 1], run[i];
      assert Next(s, s');
      var t: Tid :| Step(s, s', t) || Begin(s, s', t);
      NextKeepsInv(s, s', t);
    }
  }

  lemma NextKeepsInv<V>(s: Ring<V>, s': Ring<V>, t: Tid)
    requires Inv(s) && (Step(s, s', t) || Begin(s, s', t))
    ensures Inv(s')
    ensures s'.m.cap == s.m.cap && s.m.hist <= s'.m.hist && s.m.powner <= s'.m.powner && s.m.cowner <= s'.m.cowner
    ensures s.m.pt <= s'.m.pt && s.m.ct <= s'.m.ct
  {
    hide OpStep, Covered, AllStored;
    if Step(s, s', t) {
      StepKeepsInv(s, s', t);
      StepEffect(s.m, s.ops[t], s'.m, s'.ops[t], t);
    } else {
      SetOpKeepsInv(s, t, s'.ops[t]);
    }
  }

  /** Histories only grow along an execution; they never rewrite an index. */
  lemma {:induction false} RunMonotone<V>(run: seq<Ring<V>>, i: nat, j: nat)
    requires Run(run) && i <= j < |run|
    ensures run[i].m.cap == run[j].m.cap
    ensures run[i].m.hist <= run[j].m.hist && run[i].m.cowner <= run[j].m.cowner
    ensures run[i].m.pt <= run[j].m.pt && run[i].m.ct <= run[j].m.ct
  {
    hide Inv, Step, Begin;
    if i < j {
      RunMonotone(run, i, j - 1);
      RunInv(run, j - 1);
      assert Next(run[j - 1], run[j]);
      var t: Tid :| Step(run[j - 1], run[j], t) || Begin(run[j - 1], run[j], t);
      NextKeepsInv(run[j - 1], run[j], t);
    }
  }

  // ------------------------------------------------------------ reservations

  /** The reservations in flight partition the uncommitted and the unreleased
      indices: each index belongs to exactly one thread, and a thread in flight
      holds nothing outside them. */
  lemma ReservationsPartition<V>(s: Ring<V>, i: nat)
    requires Inv(s)
    ensures s.m.pt <= i < s.m.ph <==> exists t: Tid :: PHolds(s.ops, t, i)
    ensures s.m.ct <= i < s.m.ch <==> exists t: Tid :: CHolds(s.ops, t, i)
    ensures forall t: Tid, u: Tid :: PHolds(s.ops, t, i) && PHolds(s.ops, u, i) ==> t == u
    ensures forall t: Tid, u: Tid :: CHolds(s.ops, t, i) && CHolds(s.ops, u, i) ==> t == u
  {
    forall t: Tid | PHolds(s.ops, t, i) ensures s.m.pt <= i < s.m.ph && t == s.m.powner[i] {
      assert OpOk(s.m, t, s.ops[t]);
    }
    forall t: Tid | CHolds(s.ops, t, i) ensures s.m.ct <= i < s.m.ch && t == s.m.cowner[i] {
      assert OpOk(s.m, t, s.ops[t]);
    }
    if s.m.pt <= i < s.m.ph { assert PHolds(s.ops, s.m.powner[i], i); }
    if s.m.ct <= i < s.m.ch { assert CHolds(s.ops, s.m.cowner[i], i); }
  }

  ghost predicate Holds<V>(ops: map<Tid, Op<V>>, t: Tid, i: nat) {
    PHolds(ops, t, i) || CHolds(ops, t, i)
  }

  /** No two threads in flight, on either side, ever touch the same slot. */
  lemma SlotsExclusive<V>(s: Ring<V>, t: Tid, i: nat, u: Tid, j: nat)
    requires Inv(s) && t != u && Holds(s.ops, t, i) && Holds(s.ops, u, j)
    ensures i % s.m.cap != j % s.m.cap
  {
    hide AllOk, AllStored, Covered, Inv;
    ReservationsPartition(s, i);
    ReservationsPartition(s, j);
    LiveIndices(s, t, i);
    LiveIndices(s, u, j);
    assert i != j;
    if i % s.m.cap == j % s.m.cap { SameSlot(if i < j then i else j, if i < j then j else i, s.m.cap); }
  }

  lemma LiveIndices<V>(s: Ring<V>, t: Tid, i: nat)
    requires Inv(s) && Holds(s.ops, t, i)
    ensures Cursors(s.m) && s.m.ct <= i < s.m.ph
    ensures i < s.m.pt <==> CHolds(s.ops, t, i)
  {
    assert OpOk(s.m, t, s.ops[t]);
  }

  /** Some producer in flight starts exactly at the committed tail, and once it
      has copied its run nothing can keep it from committing; likewise for
      consumers.  The Phase-3 waits therefore always have a head of the line. */
  lemma TurnExists<V>(s: Ring<V>)
    requires Inv(s)
    ensures s.m.pt < s.m.ph ==> exists t :: t in s.ops && s.ops[t].PWrite? && s.ops[t].lo == s.m.pt
    ensures s.m.ct < s.m.ch ==> exists t :: t in s.ops && s.ops[t].CRead? && s.ops[t].lo == s.m.ct
  {
    if s.m.pt < s.m.ph {
      var t := s.m.powner[s.m.pt];
      assert PHolds(s.ops, t, s.m.pt) && OpOk(s.m, t, s.ops[t]);
    }
    if s.m.ct < s.m.ch {
      var t := s.m.cowner[s.m.ct];
      assert CHolds(s.ops, t, s.m.ct) && OpOk(s.m, t, s.ops[t]);
    }
  }

  predicate IsPush<V>(op: Op<V>) { op.PLoadHead? || op.PLoadTail? || op.PCas? || op.PWrite? }

  lemma PushMoves<V>(m: Mem<V>, op: Op<V>, t: Tid)
    requires Cursors(m) && OpOk(m, t, op) && IsPush(op)
    requires op.PWrite? && op.done == |op.vals| ==> op.lo == m.pt
    ensures exists m', op' :: OpStep(m, op, m', op', t)
  {
    hide AllStored, Owns, Slice;
    match op
    case PLoadHead(burst, vals) => assert OpStep(m, op, m, PLoadTail(burst, vals, m.ph), t);
    case PLoadTail(burst, vals, ph) =>
      var k := Room(burst, |vals|, m.cap, ph, m.ct);
      assert OpStep(m, op, m, if k == 0 then PRet(ph, []) else PCas(burst, vals, ph, k), t);
    case PCas(burst, vals, ph, k) => assert OpStep(m, op, m, PLoadHead(burst, vals), t);
    case PWrite(lo, vals, done) =>
      if done < |vals| {
        assert OpStep(m, op, m.(slots := m.slots[(lo + done) % m.cap := vals[done]]), PWrite(lo, vals, done + 1), t);
      } else {
        assert OpStep(m, op, m.(pt := lo + |vals|), PRet(lo, vals), t);
      }
  }

  lemma PopMoves<V>(m: Mem<V>, op: Op<V>, t: Tid)
    requires Cursors(m) && OpOk(m, t, op) && !IsPush(op) && !op.Returned()
    requires op.CRead? && |op.got| == op.k ==> op.lo == m.ct
    ensures exists m', op' :: OpStep(m, op, m', op', t)
  {
    hide AllStored, Owns, Slice;
    match op
    case CLoadHead(n) => assert OpStep(m, op, m, CLoadTail(n, m.ch), t);
    case CLoadTail(n, ch) =>
      assert OpStep(m, op, m, if m.pt == ch then CRet(ch, []) else CCas(n, ch, Min(n, m.pt - ch)), t);
    case CCas(n, ch, k) => assert OpStep(m, op, m, CLoadHead(n), t);
    case CRead(lo, k, got) =>
      if |got| < k {
        assert OpStep(m, op, m, CRead(lo, k, got + [m.slots[(lo + |got|) % m.cap]]), t);
      } else {
        assert OpStep(m, op, m.(ct := lo + k), CRet(lo, got), t);
      }
    case _ =>
  }

  /** A thread inside an operation can always take its next step, unless it
      waits in Phase 3 behind the thread whose turn it is. */
  lemma OnlyTurnWaits<V>(s: Ring<V>, t: Tid)
    requires Inv(s) && t in s.ops && !s.ops[t].Returned()
    requires s.ops[t].PWrite? && s.ops[t].done == |s.ops[t].vals| ==> s.ops[t].lo == s.m.pt
    requires s.ops[t].CRead? && |s.ops[t].got| == s.ops[t].k ==> s.ops[t].lo == s.m.ct
    ensures exists m', op' :: OpStep(s.m, s.ops[t], m', op', t)
  {
    hide OpStep, OpOk, AllStored, Covered;
    assert OpOk(s.m, t, s.ops[t]);
    if IsPush(s.ops[t]) { PushMoves(s.m, s.ops[t], t); } else { PopMoves(s.m, s.ops[t], t); }
  }

  // -------------------------------------------------------------------- FIFO

  /** The abstract queue: reserved by producers, not yet by consumers. */
  function Queue<V>(m: Mem<V>): seq<V>
    requires m.ch <= |m.hist|
  {
    m.hist[m.ch..]
  }

  /** Refinement of a bounded FIFO: each step appends its reservation, takes
      its reservation off the front, or leaves the queue alone. */
  lemma RefinesBoundedFifo<V>(s: Ring<V>, s': Ring<V>, t: Tid)
    requires Inv(s) && Step(s, s', t)
    ensures Inv(s') && |Queue(s'.m)| <= s'.m.cap
    ensures match EffectOf(s.ops[t], s'.ops[t])
            case ResP => Queue(s'.m) == Queue(s.m) + s'.ops[t].vals
            case ResC => s'.ops[t].k <= |Queue(s.m)| && Queue(s'.m) == Queue(s.m)[s'.ops[t].k..]
            case _ => Queue(s'.m) == Queue(s.m)
  {
    hide OpStep, Covered, AllStored;
    StepKeepsInv(s, s', t);
    StepEffect(s.m, s.ops[t], s'.m, s'.ops[t], t);
  }

  /** Step i of the execution reserves `vals` at indices lo, lo+1, ... */
  ghost predicate PushesAt<V>(run: seq<Ring<V>>, i: nat, t: Tid, lo: nat, vals: seq<V>) {
    && i + 1 < |run| && Step(run[i], run[i+1], t)
    && EffectOf(run[i].ops[t], run[i+1].ops[t]).ResP?
    && run[i+1].ops[t] == PWrite(lo, vals, 0)
  }

  /** Step i of the execution reserves k indices from lo for thread t's pop. */
  ghost predicate PopsAt<V>(run: seq<Ring<V>>, i: nat, t: Tid, lo: nat, k: nat) {
    && i + 1 < |run| && Step(run[i], run[i+1], t)
    && EffectOf(run[i].ops[t], run[i+1].ops[t]).ResC?
    && run[i+1].ops[t] == CRead(lo, k, [])
  }

  lemma PushRecorded<V>(run: seq<Ring<V>>, i: nat, t: Tid, lo: nat, vals: seq<V>)
    requires Run(run) && PushesAt(run, i, t, lo, vals)
    ensures lo == run[i].m.ph == |run[i].m.hist| && run[i+1].m.hist == run[i].m.hist + vals
  {
    hide OpStep, Covered, AllStored, Fresh;
    RunInv(run, i);
    StepEffect(run[i].m, run[i].ops[t], run[i+1].m, run[i+1].ops[t], t);
  }

  /** The pop that reserved index x returns the value of the push that reserved x,
      whatever the threads, the snapshots and the interleaving were. */
  lemma PopReturnsPush<V>(run: seq<Ring<V>>, i: nat, t: Tid, lo: nat, vals: seq<V>, j: nat, u: Tid, x: nat)
    requires Run(run) && PushesAt(run, i, t, lo, vals) && lo <= x < lo + |vals|
    requires j < |run| && u in run[j].ops && run[j].ops[u].CRet?
    requires run[j].ops[u].lo <= x < run[j].ops[u].lo + |run[j].ops[u].got|
    ensures run[j].ops[u].got[x - run[j].ops[u].lo] == vals[x - lo]
  {
    hide OpStep, Run, Covered, AllStored;
    PushRecorded(run, i, t, lo, vals);
    RunInv(run, j);
    assert OpOk(run[j].m, u, run[j].ops[u]);
    if j <= i { RunMonotone(run, j, i); } else { RunMonotone(run, i + 1, j); }
    assert i < j;
    var got, lo2 := run[j].ops[u].got, run[j].ops[u].lo;
    assert got[x - lo2] == run[j].m.hist[lo2..lo2 + |got|][x - lo2] == run[j].m.hist[x];
  }

  /** Pops reserve disjoint runs in index order, so every value leaves at most
      once and in reservation order. */
  lemma PopsOrdered<V>(run: seq<Ring<V>>, i: nat, t: Tid, lo: nat, k: nat, j: nat, u: Tid, lo2: nat, k2: nat)
    requires Run(run) && i < j && PopsAt(run, i, t, lo, k) && PopsAt(run, j, u, lo2, k2)
    ensures lo + k <= lo2
  {
    hide OpStep, Covered, AllStored, Run;
    assert PopsAt(run, i, t, lo, k) && PopsAt(run, j, u, lo2, k2);
    RunInv(run, i); RunInv(run, i + 1); RunInv(run, j);
    RunMonotone(run, i + 1, j);
    StepEffect(run[i].m, run[i].ops[t], run[i+1].m, run[i+1].ops[t], t);
    StepEffect(run[j].m, run[j].ops[u], run[j+1].m, run[j+1].ops[u], u);
  }

  // ------------------------------------------------------ how much at once

  /** A reservation is as wide as asked for, or reaches the last free slot (the
      last committed value) of its snapshot: a burst moves fewer than it was
      asked to only when the ring fills (empties). */
  lemma WidestReservation<V>(s: Ring<V>, s': Ring<V>, t: Tid)
    requires Inv(s) && Step(s, s', t)
    ensures var m, op, op' := s.m, s.ops[t], s'.ops[t];
      && (op.PLoadTail? && op'.PCas? ==>
            op'.vals == op.vals && op'.ph == op.ph && (op'.k == |op.vals| || op.ph + op'.k == m.ct + m.cap))
      && (op.CLoadTail? && op'.CCas? ==>
            op'.n == op.n && op'.ch == op.ch && (op'.k == op.n || op.ch + op'.k == m.pt))
  {
    assert OpOk(s.m, t, s.ops[t]);
  }

  /** What a compare-and-swap wins is exactly the width it was computed for. */
  lemma ReservesItsWidth<V>(s: Ring<V>, s': Ring<V>, t: Tid)
    requires Inv(s) && Step(s, s', t)
    ensures var op, op' := s.ops[t], s'.ops[t];
      && (op.PCas? && op'.PWrite? ==>
            s'.m.ph == s.m.ph + op.k && op'.vals == op.vals[..op.k] && s'.m.hist == s.m.hist + op'.vals)
      && (op.CCas? && op'.CRead? ==> s'.m.ch == s.m.ch + op.k && op'.k == op.k)
  {
    assert OpOk(s.m, t, s.ops[t]);
  }

  /** What a commit reports is the whole reservation: the values pushed, or as
      many values as were reserved, which are the ones pushed at those indices. */
  lemma ReportsItsReservation<V>(s: Ring<V>, s': Ring<V>, t: Tid)
    requires Inv(s) && Step(s, s', t)
    ensures var op, op' := s.ops[t], s'.ops[t];
      && (op.PWrite? && op'.PRet? ==> op' == PRet(op.lo, op.vals) && s'.m.pt == op.lo + |op.vals|)
      && (op.CRead? && op'.CRet? ==>
            op'.lo == op.lo && |op'.got| == op.k && s'.m.ct == op.lo + op.k && Slice(s.m.hist, op.lo, op'.got))
  {
    assert OpOk(s.m, t, s.ops[t]);
  }

  // ------------------------------------------------------------- refusals

  /** A pop reports empty only when no committed value is unreserved. */
  lemma EmptyIsExact<V>(s: Ring<V>, s': Ring<V>, t: Tid)
    requires Inv(s) && Step(s, s', t) && s.ops[t].CLoadTail? && s'.ops[t] == CRet(s.ops[t].ch, [])
    ensures s.m.ch == s.m.pt == s.ops[t].ch
  {
    assert OpOk(s.m, t, s.ops[t]);
  }

  /** A push reports full exactly when the ring is full at its snapshot of the
      head, or, in the single form, when that snapshot lies below the tail: so a
      push with no competing reservation is refused exactly when the ring is full. */
  lemma FullIsExact<V>(s: Ring<V>, s': Ring<V>, t: Tid)
    requires Inv(s) && Step(s, s', t) && s.ops[t].PLoadTail?
    ensures s'.ops[t].PRet? <==> s.ops[t].ph - s.m.ct == s.m.cap || (!s.ops[t].burst && s.ops[t].ph < s.m.ct)
    ensures s.ops[t].ph == s.m.ph ==> (s'.ops[t].PRet? <==> s.m.ph - s.m.ct == s.m.cap)
    ensures s'.ops[t].PRet? && s.ops[t].burst ==> s.m.ph - s.m.ct == s.m.cap
  {
    assert OpOk(s.m, t, s.ops[t]);
  }

  // ---------------------------------------- a push refused by an empty ring

  /** Two threads: one keeps its place in a push while the other works. */
  function Duo<V>(m: Mem<V>, o: Op<V>, op: Op<V>): Ring<V> { Ring(m, map[0 := o, 1 := op]) }

  ghost predicate Reaches<V>(run: seq<Ring<V>>, s: Ring<V>) { Run(run) && Last(run) == s }

  lemma Extend<V>(run: seq<Ring<V>>, s: Ring<V>, s': Ring<V>, t: Tid) returns (run': seq<Ring<V>>)
    requires Reaches(run, s) && (Step(s, s', t) || Begin(s, s', t))
    ensures Reaches(run', s') && run' == run + [s']
  {
    run' := run + [s'];
    forall i | 0 <= i < |run'| - 1 ensures Next(run'[i], run'[i + 1]) {
      assert i < |run| - 1 ==> Next(run[i], run[i + 1]);
    }
  }

  lemma Work<V>(run: seq<Ring<V>>, m: Mem<V>, o: Op<V>, op: Op<V>, m': Mem<V>, op': Op<V>) returns (run': seq<Ring<V>>)
    requires Reaches(run, Duo(m, o, op))
    requires OpStep(m, op, m', op', 1) || (m' == m && op.Returned() && op'.Fresh())
    ensures Reaches(run', Duo(m', o, op'))
  {
    var s, s' := Duo(m, o, op), Duo(m', o, op');
    assert s'.ops == s.ops[1 := op'];
    run' := Extend(run, s, s', 1);
  }

  lemma OnePush<V>(run: seq<Ring<V>>, m: Mem<V>, o: Op<V>, v: V) returns (run': seq<Ring<V>>)
    requires Reaches(run, Duo(m, o, Idle)) && |m.slots| == m.cap > 0
    requires m.ph == m.pt == m.ct == 0 && m.hist == [] && m.powner == []
    ensures var m' := m.(ph := 1, pt := 1, slots := m.slots[0 := v], hist := [v], powner := [1]);
      Reaches(run', Duo(m', o, PRet(0, [v])))
  {
    hide Reaches, Duo;
    var a, b, c := PLoadHead(false, [v]), PLoadTail(false, [v], 0), PCas(false, [v], 0, 1);
    run' := Work(run, m, o, Idle, m, a);
    run' := Work(run', m, o, a, m, b);
    run' := Work(run', m, o, b, m, c);
    var m1 := m.(ph := 1, hist := [v], powner := [1]);
    assert [v][..1] == [v] && ReserveP(m, 1, [v]) == m1;
    run' := Work(run', m, o, c, m1, PWrite(0, [v], 0));
    var m2 := m1.(slots := m1.slots[0 := v]);
    run' := Work(run', m1, o, PWrite(0, [v], 0), m2, PWrite(0, [v], 1));
    run' := Work(run', m2, o, PWrite(0, [v], 1), m2.(pt := 1), PRet(0, [v]));
  }

  lemma OnePop<V>(run: seq<Ring<V>>, m: Mem<V>, o: Op<V>, op: Op<V>) returns (run': seq<Ring<V>>)
    requires Reaches(run, Duo(m, o, op)) && op.Returned() && |m.slots| == m.cap > 0
    requires m.pt == 1 && m.ch == m.ct == 0 && m.cowner == []
    ensures Reaches(run', Duo(m.(ch := 1, ct := 1, cowner := [1]), o, CRet(0, [m.slots[0]])))
  {
    hide Reaches, Duo;
    var m1, got := m.(ch := 1, cowner := [1]), [m.slots[0]];
    run' := Work(run, m, o, op, m, CLoadHead(1));
    run' := Work(run', m, o, CLoadHead(1), m, CLoadTail(1, 0));
    run' := Work(run', m, o, CLoadTail(1, 0), m, CCas(1, 0, 1));
    assert ReserveC(m, 1, 1) == m1 && [] + got == got;
    run' := Work(run', m, o, CCas(1, 0, 1), m1, CRead(0, 1, []));
    run' := Work(run', m1, o, CRead(0, 1, []), m1, CRead(0, 1, got));
    run' := Work(run', m1, o, CRead(0, 1, got), m1.(ct := 1), CRet(0, got));
  }

  /** A push that loads the head, is delayed while another thread pushes and
      pops one value, and then loads the tail is refused, whatever the
      capacity, although the ring is empty. */
  lemma FullWhenEmpty<V>(cap: nat, v: V) returns (run: seq<Ring<V>>)
    requires cap > 0
    ensures Run(run) && |run| > 1
    ensures var s, s' := run[|run| - 2], run[|run| - 1];
      && s.m.cap == cap && s.m.ph == s.m.pt == s.m.ch == s.m.ct == 1
      && Step(s, s', 0) && s.ops[0] == PLoadTail(false, [v], 0) && s'.ops[0] == PRet(0, [])
  {
    hide OpStep;
    var m: Mem<V> := Mem(cap, 0, 0, 0, 0, seq(cap, _ => v), [], [], []);
    var o, r := PLoadTail(false, [v], 0), CRet(0, [v]);
    run := StartedPush(m, v);
    run := OnePush(run, m, o, v);
    var m1 := m.(ph := 1, pt := 1, slots := m.slots[0 := v], hist := [v], powner := [1]);
    run := OnePop(run, m1, o, PRet(0, [v]));
    var m2 := m1.(ch := 1, ct := 1, cowner := [1]);
    var s, s' := Duo(m2, o, r), Duo(m2, PRet(0, []), r);
    assert s'.ops == s.ops[0 := PRet(0, [])];
    assert OpStep(m2, o, m2, PRet(0, []), 0) by { RefusedBelowTail(m2, v); }
    run := Extend(run, s, s', 0);
  }

  lemma RefusedBelowTail<V>(m: Mem<V>, v: V)
    requires m.ct > 0
    ensures OpStep(m, PLoadTail(false, [v], 0), m, PRet(0, []), 0)
  {
  }

  lemma StartedPush<V>(m: Mem<V>, v: V) returns (run: seq<Ring<V>>)
    requires Fresh(Duo(m, Idle, Idle))
    ensures Reaches(run, Duo(m, PLoadTail(false, [v], 0), Idle))
  {
    var a, b := PLoadHead(false, [v]), PLoadTail(false, [v], 0);
    var s0, s1, s2 := Duo(m, Idle, Idle), Duo(m, a, Idle), Duo(m, b, Idle);
    assert s1.ops == s0.ops[0 := a] && s2.ops == s1.ops[0 := b];
    run := Extend([s0], s0, s1, 0);
    run := Extend(run, s1, s2, 0);
  }
}
