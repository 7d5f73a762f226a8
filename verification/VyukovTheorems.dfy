/** What every execution of the per-slot-sequence ring guarantees, and why it
    needs at least two slots. */
module VyukovTheorems {
  import opened Seqs
  import opened Vyukov

  lemma StepGrows<V>(s: State<V>, s': State<V>, t: Tid)
    requires Inv(s) && (Step(s, s', t) || Begin(s, s', t))
    ensures Inv(s') && s.m.hist <= s'.m.hist && s'.m.cap == s.m.cap && s.m.ch <= s'.m.ch
  {
    hide Window, Unused, AllOk;
    NextKeepsInv(s, s', t);
  }

  lemma {:induction false} RunMonotone<V>(run: seq<State<V>>, i: nat, j: nat)
    requires Run(run) && run[0].m.cap >= 2 && i <= j < |run|
    ensures run[i].m.hist <= run[j].m.hist && run[i].m.ch <= run[j].m.ch
  {
    hide Inv, Step, Begin;
    if i < j {
      RunMonotone(run, i, j - 1);
      RunInv(run, j - 1);
      assert Next(run[j - 1], run[j]);
      var t: Tid :| Step(run[j - 1], run[j], t) || Begin(run[j - 1], run[j], t);
      StepGrows(run[j - 1], run[j], t);
    }
  }

  /** Step i of the execution wins position p for the push of `val`. */
  ghost predicate PushesAt<V>(run: seq<State<V>>, i: nat, t: Tid, p: nat, val: V) {
    i + 1 < |run| && Step(run[i], run[i+1], t) && run[i].ops[t].PCas? && run[i+1].ops[t] == PWrite(val, p)
  }

  /** The pop that won position p returns the value of the push that won p. */
  lemma PopReturnsPush<V>(run: seq<State<V>>, i: nat, t: Tid, p: nat, val: V, j: nat, u: Tid)
    requires Run(run) && run[0].m.cap >= 2 && PushesAt(run, i, t, p, val)
    requires j < |run| && u in run[j].ops && run[j].ops[u].CDone? && run[j].ops[u].pos == p
    ensures run[j].ops[u].val == val
  {
    hide Run, Window, Unused;
    RunInv(run, i);
    RunInv(run, i + 1);
    RunInv(run, j);
    assert OpOk(run[j].m, u, run[j].ops[u]) && OpOk(run[i + 1].m, t, run[i + 1].ops[t]);
    assert p == |run[i].m.hist| && run[i + 1].m.hist == run[i].m.hist + [val];
    if j <= i { RunMonotone(run, j, i); } else { RunMonotone(run, i + 1, j); }
  }

  /** No operation ever waits for another thread. */
  lemma NeverWaits<V>(s: State<V>, t: Tid) returns (m': Mem<V>, op': Op<V>)
    requires Inv(s) && t in s.ops && !s.ops[t].Returned()
    ensures OpStep(s.m, s.ops[t], m', op', t)
  {
    var m := s.m;
    m' := m;
    match s.ops[t]
    case PLoad(val) => op' := PTry(val, m.ph);
    case PTry(val, pos) => op' := if m.Seq(pos) == pos then PCas(val, pos) else PLoad(val);
    case PCas(val, pos) => op' := PTry(val, m.ph);
    case PWrite(val, pos) => m', op' := m.SetSlot(pos, val), PStore(val, pos);
    case PStore(val, pos) => m', op' := m.SetSeq(pos, pos + 1), PDone(pos);
    case CLoad => op' := CTry(m.ch);
    case CTry(pos) => op' := if m.Seq(pos) == pos + 1 then CCas(pos) else CLoad;
    case CCas(pos) => op' := CTry(m.ch);
    case CRead(pos) => op' := CStore(pos, m.Slot(pos));
    case CStore(pos, val) => m', op' := m.SetSeq(pos, pos + m.cap), CDone(pos, val);
  }

  /** A push whose position is the head goes on exactly when the position one lap
      before has been popped and its reader is done; a pop, exactly when the
      position at its head has been reserved and its writer is done. */
  lemma TryExact<V>(s: State<V>, s': State<V>, t: Tid)
    requires Inv(s) && Step(s, s', t)
    ensures s.ops[t].PTry? && s.ops[t].pos == s.m.ph ==>
      var p := s.m.ph - s.m.cap;
      (s'.ops[t].PCas? <==> p < 0 || (p < s.m.ch && !CHolds(s.ops, s.m.cowner[p], p)))
    ensures s.ops[t].CTry? && s.ops[t].pos == s.m.ch ==>
      (s'.ops[t].CCas? <==> s.m.ch < s.m.ph && !PHolds(s.ops, s.m.powner[s.m.ch], s.m.ch))
  {
    var m := s.m;
    if m.ph >= m.cap {
      Lap(m.ph - m.cap, m.cap);
      assert Used(m, s.ops, m.ph - m.cap);
    }
    if m.ch < m.ph { assert Used(m, s.ops, m.ch); }
    HoldersMark(s);
    if s.ops[t].CTry? && s.ops[t].pos == m.ch && m.Seq(m.ch) == m.ch + 1 { ReadyIsPushed(s); }
  }

  /** Whoever holds a position finds its mark in the slot. */
  lemma HoldersMark<V>(s: State<V>)
    requires Inv(s)
    ensures forall u, p: nat :: PHolds(s.ops, u, p) ==> p < s.m.ph && s.m.Seq(p) == p
    ensures forall u, p: nat :: CHolds(s.ops, u, p) ==> p < s.m.ch && s.m.Seq(p) == p + 1
  {
    forall u, p: nat | PHolds(s.ops, u, p) ensures p < s.m.ph && s.m.Seq(p) == p { assert OpOk(s.m, u, s.ops[u]); }
    forall u, p: nat | CHolds(s.ops, u, p) ensures p < s.m.ch && s.m.Seq(p) == p + 1 { assert OpOk(s.m, u, s.ops[u]); }
  }

  /** A producer writing its slot finds no reader of an earlier position in it. */
  lemma NoOverwrite<V>(run: seq<State<V>>, i: nat, t: Tid, u: Tid)
    requires Run(run) && run[0].m.cap >= 2 && i < |run| && t in run[i].ops && u in run[i].ops
    requires (run[i].ops[t].PWrite? || run[i].ops[t].PStore?) && (run[i].ops[u].CRead? || run[i].ops[u].CStore?)
    ensures run[i].m.cap > 0 && run[i].ops[t].pos % run[i].m.cap != run[i].ops[u].pos % run[i].m.cap
  {
    hide Run, Window, Unused;
    RunInv(run, i);
    assert OpOk(run[i].m, t, run[i].ops[t]) && OpOk(run[i].m, u, run[i].ops[u]);
    OtherSlot(run[i].m, run[i].ops[t].pos, run[i].ops[u].pos);
  }

  /** A slot's sequence number moves from p to p + 1 and from p + 1 to p + cap,
      where p is the position using the slot, and in no other way. */
  lemma SequenceCycle<V>(s: State<V>, s': State<V>, t: Tid, x: nat)
    requires Inv(s) && Step(s, s', t) && x < s.m.cap
    ensures |s'.m.seqs| == |s.m.seqs| == s.m.cap
    ensures s'.m.seqs[x] != s.m.seqs[x] ==>
      && (s.ops[t].PStore? || s.ops[t].CStore?) && s.ops[t].pos % s.m.cap == x
      && (if s.ops[t].PStore? then s.m.seqs[x] == s.ops[t].pos && s'.m.seqs[x] == s.ops[t].pos + 1
          else s.m.seqs[x] == s.ops[t].pos + 1 && s'.m.seqs[x] == s.ops[t].pos + s.m.cap)
  {
    hide Window, Unused;
    assert OpOk(s.m, t, s.ops[t]);
  }

  function Queue<V>(m: Mem<V>): seq<V>
    requires m.ch <= |m.hist|
  {
    m.hist[m.ch..]
  }

  /** Refinement of a bounded FIFO: winning a position appends a value or takes
      the oldest one, and nothing else changes the queue. */
  lemma RefinesBoundedFifo<V>(s: State<V>, s': State<V>, t: Tid)
    requires Inv(s) && Step(s, s', t)
    ensures Inv(s') && |Queue(s'.m)| <= s'.m.cap
    ensures match s'.ops[t]
            case PWrite(val, _) => Queue(s'.m) == Queue(s.m) + [val]
            case CRead(_) => Queue(s.m) != [] && Queue(s'.m) == Queue(s.m)[1..]
            case _ => Queue(s'.m) == Queue(s.m)
  {
    hide Window, Unused;
    StepKeepsInv(s, s', t);
    assert OpOk(s.m, t, s.ops[t]) && OpOk(s'.m, t, s'.ops[t]);
    StepQueue(s.m, s.ops[t], s'.m, s'.ops[t], t);
  }

  lemma StepQueue<V>(m: Mem<V>, op: Op<V>, m': Mem<V>, op': Op<V>, t: Tid)
    requires Heads(m) && Heads(m') && OpStep(m, op, m', op', t)
    ensures match op'
            case PWrite(val, _) => Queue(m') == Queue(m) + [val]
            case CRead(_) => Queue(m) != [] && Queue(m') == Queue(m)[1..]
            case _ => Queue(m') == Queue(m)
  {
  }

  // ----------------------------------------------------------- one slot only

  function One(ph: nat, mark: nat, slot: nat, hist: seq<nat>, powner: seq<nat>): Mem<nat> {
    Mem(1, ph, 0, [mark], [slot], hist, powner, [])
  }

  /** Thread 0, the only one, takes one more step. */
  lemma Extend(run: seq<State<nat>>, m: Mem<nat>, op: Op<nat>, m': Mem<nat>, op': Op<nat>)
    returns (more: seq<State<nat>>)
    requires Run(run) && Last(run) == State(m, map[0 := op]) && m.Shaped()
    requires OpStep(m, op, m', op', 0) || (op.Returned() && op'.PLoad? && m' == m)
    ensures Run(more) && |more| > 0 && Last(more) == State(m', map[0 := op']) && more[0] == run[0]
  {
    hide Init, OpStep;
    var s' := State(m', map[0 := op']);
    assert s'.ops == Last(run).ops[0 := op'];
    assert Step(Last(run), s', 0) || Begin(Last(run), s', 0);
    more := run + [s'];
    hide Step, Begin;
    forall i | 0 <= i < |more| - 1 ensures Next(more[i], more[i+1]) {
      if i < |run| - 1 { assert Next(run[i], run[i+1]); }
    }
  }

  lemma OneSlotPush() returns (run: seq<State<nat>>)
    ensures Run(run) && |run| > 0 && run[0].m.cap == 1 && Last(run) == State(One(1, 1, 7, [7], [0]), map[0 := PDone(0)])
  {
    var m := One(0, 0, 0, [], []);
    run := [State(m, map[0 := Idle])];
    assert Run(run);
    hide Run;
    run := Extend(run, m, Idle, m, PLoad(7));
    run := Extend(run, m, PLoad(7), m, PTry(7, 0));
    run := Extend(run, m, PTry(7, 0), m, PCas(7, 0));
    run := Extend(run, m, PCas(7, 0), One(1, 0, 0, [7], [0]), PWrite(7, 0));
    run := Extend(run, One(1, 0, 0, [7], [0]), PWrite(7, 0), One(1, 0, 7, [7], [0]), PStore(7, 0));
    run := Extend(run, One(1, 0, 7, [7], [0]), PStore(7, 0), One(1, 1, 7, [7], [0]), PDone(0));
  }

  /** In a ring of one slot the mark "pushed at p" is also the mark "free for
      p + 1": a second push overwrites the first value before anybody read it. */
  lemma OneSlotOverwrites() returns (run: seq<State<nat>>)
    ensures Run(run) && |run| > 0 && run[0].m.cap == 1
    ensures Last(run) == State(One(2, 1, 8, [7, 8], [0, 0]), map[0 := PStore(8, 1)])
  {
    hide Run;
    run := OneSlotPush();
    var m, m' := One(1, 1, 7, [7], [0]), One(2, 1, 7, [7, 8], [0, 0]);
    run := Extend(run, m, PDone(0), m, PLoad(8));
    run := Extend(run, m, PLoad(8), m, PTry(8, 1));
    run := Extend(run, m, PTry(8, 1), m, PCas(8, 1));
    run := Extend(run, m, PCas(8, 1), m', PWrite(8, 1));
    run := Extend(run, m', PWrite(8, 1), One(2, 1, 8, [7, 8], [0, 0]), PStore(8, 1));
  }

  /** The ring holds at most its capacity, in every execution, exactly when it
      has at least two slots. */
  lemma CapacityExact(cap: nat)
    requires cap > 0
    ensures cap >= 2 <==>
      forall run: seq<State<nat>> :: Run(run) && run[0].m.cap == cap ==> Last(run).m.ph <= Last(run).m.ch + cap
  {
    if cap >= 2 {
      forall run: seq<State<nat>> | Run(run) && run[0].m.cap == cap ensures Last(run).m.ph <= Last(run).m.ch + cap {
        RunInv(run, |run| - 1);
        CapKept(run, |run| - 1);
      }
    } else {
      var run := OneSlotOverwrites();
      assert Last(run).m.ph > Last(run).m.ch + cap;
    }
  }

  lemma {:induction false} CapKept(run: seq<State<nat>>, i: nat)
    requires Run(run) && i < |run| && run[0].m.cap >= 2
    ensures run[i].m.cap == run[0].m.cap
  {
    hide Inv, Step, Begin;
    if i > 0 {
      CapKept(run, i - 1);
      RunInv(run, i - 1);
      assert Next(run[i - 1], run[i]);
      var t: Tid :| Step(run[i - 1], run[i], t) || Begin(run[i - 1], run[i], t);
      StepGrows(run[i - 1], run[i], t);
    }
  }
}
