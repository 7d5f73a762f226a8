/** The MPMC ring with one sequence number per slot, as interleaved atomic
    steps.  Positions are unbounded; a slot's sequence number tells which
    position may use it and for what. */
module Vyukov {
  import Ring
  import Wrap32

  type Tid = nat

  datatype Op<V> =
    | Idle
    | PLoad(val: V) | PTry(val: V, pos: nat) | PCas(val: V, pos: nat)
    | PWrite(val: V, pos: nat) | PStore(val: V, pos: nat)
    | PDone(pos: nat)
    | CLoad | CTry(pos: nat) | CCas(pos: nat) | CRead(pos: nat) | CStore(pos: nat, val: V)
    | CDone(pos: nat, val: V)
  {
    predicate Returned() { Idle? || PDone? || CDone? }
    /** Holds a reserved position it has not handed on. */
    predicate Pushing(p: nat) { (PWrite? || PStore?) && pos == p }
    predicate Popping(p: nat) { (CRead? || CStore?) && pos == p }
  }

  /** The two heads, the sequence numbers and the slots; as history, the value
      pushed and the threads that won each position. */
  datatype Mem<V> = Mem(
    cap: nat, ph: nat, ch: nat, seqs: seq<nat>, slots: seq<V>,
    hist: seq<V>, powner: seq<Tid>, cowner: seq<Tid>)
  {
    ghost predicate Shaped() { cap > 0 && |seqs| == |slots| == cap }
    function Seq(p: nat): nat requires cap > 0 && |seqs| == cap { seqs[p % cap] }
    function Slot(p: nat): V requires cap > 0 && |slots| == cap { slots[p % cap] }
    function SetSeq(p: nat, s: nat): Mem<V> requires cap > 0 && |seqs| == cap { this.(seqs := seqs[p % cap := s]) }
    function SetSlot(p: nat, v: V): Mem<V> requires cap > 0 && |slots| == cap { this.(slots := slots[p % cap := v]) }
  }

  datatype State<V> = State(m: Mem<V>, ops: map<Tid, Op<V>>)

  ghost predicate Init<V>(s: State<V>) {
    && s.m.Shaped() && s.m.ph == s.m.ch == 0 && s.m.hist == [] && s.m.powner == [] && s.m.cowner == []
    && (forall i :: 0 <= i < s.m.cap ==> s.m.seqs[i] == i)
    && (forall t <- s.ops :: s.ops[t].Idle?)
  }

  function ReserveP<V>(m: Mem<V>, t: Tid, val: V): Mem<V> {
    m.(ph := m.ph + 1, hist := m.hist + [val], powner := m.powner + [t])
  }

  function ReserveC<V>(m: Mem<V>, t: Tid): Mem<V> { m.(ch := m.ch + 1, cowner := m.cowner + [t]) }

  ghost predicate OpStep<V>(m: Mem<V>, op: Op<V>, m': Mem<V>, op': Op<V>, t: Tid)
    requires m.Shaped()
  {
    match op
    case PLoad(val) => m' == m && op' == PTry(val, m.ph)
    case PTry(val, pos) => m' == m && op' == if m.Seq(pos) == pos then PCas(val, pos) else PLoad(val)
    case PCas(val, pos) =>
      || (m' == m && op' == PTry(val, m.ph))
      || (pos == m.ph && m' == ReserveP(m, t, val) && op' == PWrite(val, pos))
    case PWrite(val, pos) => m' == m.SetSlot(pos, val) && op' == PStore(val, pos)
    case PStore(val, pos) => m' == m.SetSeq(pos, pos + 1) && op' == PDone(pos)
    case CLoad => m' == m && op' == CTry(m.ch)
    case CTry(pos) => m' == m && op' == if m.Seq(pos) == pos + 1 then CCas(pos) else CLoad
    case CCas(pos) =>
      || (m' == m && op' == CTry(m.ch))
      || (pos == m.ch && m' == ReserveC(m, t) && op' == CRead(pos))
    case CRead(pos) => m' == m && op' == CStore(pos, m.Slot(pos))
    case CStore(pos, val) => m' == m.SetSeq(pos, pos + m.cap) && op' == CDone(pos, val)
    case _ => false
  }

  ghost predicate Step<V>(s: State<V>, s': State<V>, t: Tid) {
    && s.m.Shaped() && t in s.ops && t in s'.ops && s'.ops == s.ops[t := s'.ops[t]]
    && OpStep(s.m, s.ops[t], s'.m, s'.ops[t], t)
  }

  ghost predicate Begin<V>(s: State<V>, s': State<V>, t: Tid) {
    && t in s.ops && s.ops[t].Returned() && t in s'.ops && (s'.ops[t].PLoad? || s'.ops[t].CLoad?)
    && s' == s.(ops := s.ops[t := s'.ops[t]])
  }

  ghost predicate Next<V>(s: State<V>, s': State<V>) { exists t: Tid :: Step(s, s', t) || Begin(s, s', t) }

  ghost predicate Run<V>(run: seq<State<V>>) {
    |run| > 0 && Init(run[0]) && forall i :: 0 <= i < |run| - 1 ==> Next(run[i], run[i+1])
  }

  // -------------------------------------------------------------- invariant

  ghost predicate Heads<V>(m: Mem<V>) {
    && m.Shaped() && m.cap >= 2 && m.ch <= m.ph <= m.ch + m.cap
    && |m.hist| == |m.powner| == m.ph && |m.cowner| == m.ch
  }

  ghost predicate PHolds<V>(ops: map<Tid, Op<V>>, t: Tid, p: nat) { t in ops && ops[t].Pushing(p) }
  ghost predicate CHolds<V>(ops: map<Tid, Op<V>>, t: Tid, p: nat) { t in ops && ops[t].Popping(p) }

  /** The last position to use its slot: reserved by its producer, committed,
      reserved by its consumer, or released. */
  ghost predicate Used<V>(m: Mem<V>, ops: map<Tid, Op<V>>, p: nat)
    requires Heads(m) && p < m.ph
  {
    if p >= m.ch then (m.Seq(p) == p && PHolds(ops, m.powner[p], p)) || (m.Seq(p) == p + 1 && m.Slot(p) == m.hist[p])
    else (m.Seq(p) == p + 1 && CHolds(ops, m.cowner[p], p)) || m.Seq(p) == p + m.cap
  }

  ghost predicate OpOk<V>(m: Mem<V>, t: Tid, op: Op<V>)
    requires Heads(m)
  {
    match op
    case PTry(_, pos) => pos <= m.ph
    case PCas(_, pos) => pos < m.ph || (pos == m.ph && m.Seq(pos) == pos)
    case PWrite(val, pos) => m.ch <= pos < m.ph && m.powner[pos] == t && m.Seq(pos) == pos && m.hist[pos] == val
    case PStore(val, pos) =>
      m.ch <= pos < m.ph && m.powner[pos] == t && m.Seq(pos) == pos && m.hist[pos] == val == m.Slot(pos)
    case CTry(pos) => pos <= m.ch
    case CCas(pos) => pos < m.ch || (pos == m.ch && m.Seq(pos) == pos + 1)
    case CRead(pos) =>
      m.ph - m.cap <= pos < m.ch && m.cowner[pos] == t && m.Seq(pos) == pos + 1 && m.Slot(pos) == m.hist[pos]
    case CStore(pos, val) =>
      m.ph - m.cap <= pos < m.ch && m.cowner[pos] == t && m.Seq(pos) == pos + 1 && val == m.hist[pos]
    case CDone(pos, val) => pos < m.ch && val == m.hist[pos]
    case _ => true
  }

  /** The last cap positions are the ones whose marks the slots carry ... */
  ghost predicate Window<V>(m: Mem<V>, ops: map<Tid, Op<V>>)
    requires Heads(m)
  {
    forall p: nat :: m.ph - m.cap <= p < m.ph ==> Used(m, ops, p)
  }

  /** ... and slots not used yet carry their first position. */
  ghost predicate Unused<V>(m: Mem<V>)
    requires Heads(m)
  {
    forall p: nat :: m.ph <= p < m.cap ==> m.Seq(p) == p
  }

  ghost predicate AllOk<V>(m: Mem<V>, ops: map<Tid, Op<V>>)
    requires Heads(m)
  {
    forall t <- ops :: OpOk(m, t, ops[t])
  }

  ghost predicate Inv<V>(s: State<V>) {
    Heads(s.m) && Window(s.m, s.ops) && Unused(s.m) && AllOk(s.m, s.ops)
  }

  // ----------------------------------------------------------- preservation

  /** Distinct positions of one window use distinct slots. */
  lemma Apart(p: nat, q: nat, cap: nat)
    requires cap > 0 && p != q && -1 * cap < p - q < cap
    ensures p % cap != q % cap
  {
    if p % cap == q % cap { Ring.SameSlot(if p < q then p else q, if p < q then q else p, cap); }
  }

  /** A position whose slot carries its own number is the next one to reserve. */
  lemma NextIsFree<V>(s: State<V>)
    requires Inv(s) && s.m.Seq(s.m.ph) == s.m.ph
    ensures s.m.ph < s.m.ch + s.m.cap
  {
    var p := s.m.ph - s.m.cap;
    if p >= 0 {
      assert Used(s.m, s.ops, p);
      Lap(p, s.m.cap);
    }
  }

  lemma Lap(p: nat, cap: nat)
    requires cap > 0
    ensures (p + cap) % cap == p % cap
  {
    assert p + cap == cap * (p / cap + 1) + p % cap;
    Wrap32.ModUnique(p + cap, cap, p / cap + 1, p % cap);
  }

  /** A position at the consumers' head whose slot says "ready" has been pushed. */
  lemma ReadyIsPushed<V>(s: State<V>)
    requires Inv(s) && s.m.Seq(s.m.ch) == s.m.ch + 1
    ensures s.m.ch < s.m.ph && s.m.Slot(s.m.ch) == s.m.hist[s.m.ch]
  {
    if s.m.ph >= s.m.cap { Lap(s.m.ph - s.m.cap, s.m.cap); }
    assert s.m.ph >= s.m.cap ==> Used(s.m, s.ops, s.m.ph - s.m.cap);
    assert s.m.ch < s.m.ph ==> Used(s.m, s.ops, s.m.ch);
  }

  /** A thread moves on without touching memory or what it holds. */
  lemma SetOpKeepsInv<V>(s: State<V>, t: Tid, op: Op<V>)
    requires Inv(s) && t in s.ops && OpOk(s.m, t, op)
    requires forall p: nat :: (s.ops[t].Pushing(p) ==> op.Pushing(p)) && (s.ops[t].Popping(p) ==> op.Popping(p))
    ensures Inv(s.(ops := s.ops[t := op]))
  {
    var s' := s.(ops := s.ops[t := op]);
    forall p: nat | s.m.ph - s.m.cap <= p < s.m.ph ensures Used(s'.m, s'.ops, p) { assert Used(s.m, s.ops, p); }
  }

  lemma UnusedKept<V>(m: Mem<V>, m': Mem<V>)
    requires Heads(m) && Heads(m') && Unused(m) && m'.cap == m.cap && m'.seqs == m.seqs && m.ph <= m'.ph
    ensures Unused(m')
  {
    forall p: nat | m'.ph <= p < m'.cap ensures m'.Seq(p) == p { assert m.Seq(p) == p; }
  }

  lemma UnusedElsewhere<V>(m: Mem<V>, pos: nat, s: nat)
    requires Heads(m) && Unused(m) && pos < m.ph
    ensures Heads(m.SetSeq(pos, s)) && Unused(m.SetSeq(pos, s))
  {
    forall p: nat | m.ph <= p < m.cap ensures m.SetSeq(pos, s).Seq(p) == p {
      assert m.Seq(p) == p;
      Apart(p, pos, m.cap);
    }
  }

  lemma ReservePKeepsUsed<V>(m: Mem<V>, ops: map<Tid, Op<V>>, t: Tid, val: V, p: nat)
    requires Heads(m) && t in ops && !ops[t].Pushing(p) && !ops[t].Popping(p) && m.ph < m.ch + m.cap
    requires if p == m.ph then m.Seq(p) == p else p < m.ph && Used(m, ops, p)
    ensures Used(ReserveP(m, t, val), ops[t := PWrite(val, m.ph)], p)
  {
  }

  lemma ReservePKeepsOp<V>(m: Mem<V>, t: Tid, val: V, u: Tid, op: Op<V>)
    requires Heads(m) && m.ph < m.ch + m.cap && m.Seq(m.ph) == m.ph && OpOk(m, u, op)
    ensures OpOk(ReserveP(m, t, val), u, op)
  {
    if m.ph >= m.cap { Lap(m.ph - m.cap, m.cap); }
  }

  lemma ReservePKeepsInv<V>(s: State<V>, t: Tid, val: V)
    requires Inv(s) && t in s.ops && s.ops[t].PCas? && s.m.Seq(s.m.ph) == s.m.ph
    ensures Inv(State(ReserveP(s.m, t, val), s.ops[t := PWrite(val, s.m.ph)]))
  {
    var m', ops' := ReserveP(s.m, t, val), s.ops[t := PWrite(val, s.m.ph)];
    NextIsFree(s);
    assert OpOk(m', t, PWrite(val, s.m.ph));
    UnusedKept(s.m, m');
    hide Used, OpOk;
    assert Window(m', ops') by {
      forall p: nat | m'.ph - m'.cap <= p < m'.ph ensures Used(m', ops', p) {
        ReservePKeepsUsed(s.m, s.ops, t, val, p);
      }
    }
    assert AllOk(m', ops') by {
      forall u <- ops' ensures OpOk(m', u, ops'[u]) {
        if u != t { ReservePKeepsOp(s.m, t, val, u, s.ops[u]); }
      }
    }
  }

  lemma ReserveCKeepsUsed<V>(m: Mem<V>, ops: map<Tid, Op<V>>, t: Tid, p: nat)
    requires Heads(m) && t in ops && !ops[t].Pushing(p) && !ops[t].Popping(p) && m.ch < m.ph && m.Seq(m.ch) == m.ch + 1
    requires p < m.ph && Used(m, ops, p)
    ensures Used(ReserveC(m, t), ops[t := CRead(m.ch)], p)
  {
  }

  lemma ReserveCKeepsOp<V>(m: Mem<V>, t: Tid, u: Tid, op: Op<V>)
    requires Heads(m) && m.ch < m.ph && m.Seq(m.ch) == m.ch + 1 && OpOk(m, u, op)
    ensures OpOk(ReserveC(m, t), u, op)
  {
  }

  lemma ReserveCKeepsInv<V>(s: State<V>, t: Tid)
    requires Inv(s) && t in s.ops && s.ops[t].CCas? && s.m.Seq(s.m.ch) == s.m.ch + 1
    ensures Inv(State(ReserveC(s.m, t), s.ops[t := CRead(s.m.ch)]))
  {
    var m', ops' := ReserveC(s.m, t), s.ops[t := CRead(s.m.ch)];
    ReadyIsPushed(s);
    assert OpOk(m', t, CRead(s.m.ch));
    UnusedKept(s.m, m');
    hide Used, OpOk;
    assert Window(m', ops') by {
      forall p: nat | m'.ph - m'.cap <= p < m'.ph ensures Used(m', ops', p) { ReserveCKeepsUsed(s.m, s.ops, t, p); }
    }
    assert AllOk(m', ops') by {
      forall u <- ops' ensures OpOk(m', u, ops'[u]) {
        if u != t { ReserveCKeepsOp(s.m, t, u, s.ops[u]); }
      }
    }
  }

  /** Positions next to each other, or with other sequence numbers, are in other slots. */
  lemma OtherSlot<V>(m: Mem<V>, pos: nat, q: nat)
    requires m.Shaped() && m.cap >= 2
    requires m.Seq(q) != m.Seq(pos) || q == pos + 1 || pos == q + 1
    ensures q % m.cap != pos % m.cap
  {
    if m.Seq(q) == m.Seq(pos) { Apart(q, pos, m.cap); }
  }

  lemma WriteKeepsOp<V>(m: Mem<V>, t: Tid, pos: nat, v: V, u: Tid, op: Op<V>)
    requires Heads(m) && m.ch <= pos < m.ph && m.powner[pos] == t && m.Seq(pos) == pos && OpOk(m, u, op) && u != t
    ensures OpOk(m.SetSlot(pos, v), u, op)
  {
    if op.PStore? || op.CRead? { OtherSlot(m, pos, op.pos); }
  }

  lemma WriteKeepsUsed<V>(m: Mem<V>, ops: map<Tid, Op<V>>, t: Tid, val: V, pos: nat, p: nat)
    requires Heads(m) && t in ops && ops[t] == PWrite(val, pos)
    requires m.ph - m.cap <= pos < m.ph && m.ph - m.cap <= p < m.ph
    requires m.Seq(pos) == pos && m.powner[pos] == t && pos >= m.ch && Used(m, ops, p)
    ensures Used(m.SetSlot(pos, val), ops[t := PStore(val, pos)], p)
  {
    if p != pos { Apart(p, pos, m.cap); }
  }

  lemma WriteKeepsInv<V>(s: State<V>, t: Tid, val: V, pos: nat)
    requires Inv(s) && t in s.ops && s.ops[t] == PWrite(val, pos)
    ensures Inv(State(s.m.SetSlot(pos, val), s.ops[t := PStore(val, pos)]))
  {
    var m', ops' := s.m.SetSlot(pos, val), s.ops[t := PStore(val, pos)];
    assert OpOk(s.m, t, s.ops[t]);
    assert OpOk(m', t, PStore(val, pos));
    UnusedKept(s.m, m');
    hide Used, OpOk;
    assert Window(m', ops') by {
      forall p: nat | m'.ph - m'.cap <= p < m'.ph ensures Used(m', ops', p) {
        WriteKeepsUsed(s.m, s.ops, t, val, pos, p);
      }
    }
    assert AllOk(m', ops') by {
      forall u <- ops' ensures OpOk(m', u, ops'[u]) {
        if u != t { WriteKeepsOp(s.m, t, pos, val, u, s.ops[u]); }
      }
    }
  }

  lemma CommitKeepsOp<V>(m: Mem<V>, t: Tid, pos: nat, u: Tid, op: Op<V>)
    requires Heads(m) && m.ch <= pos < m.ph && m.powner[pos] == t && m.Seq(pos) == pos && OpOk(m, u, op) && u != t
    ensures OpOk(m.SetSeq(pos, pos + 1), u, op)
  {
    if || op.PWrite? || op.PStore? || op.CRead? || op.CStore?
       || (op.PCas? && op.pos == m.ph) || (op.CCas? && op.pos == m.ch)
    {
      OtherSlot(m, pos, op.pos);
    }
  }

  lemma CommitKeepsUsed<V>(m: Mem<V>, ops: map<Tid, Op<V>>, t: Tid, val: V, pos: nat, p: nat)
    requires Heads(m) && t in ops && ops[t] == PStore(val, pos) && OpOk(m, t, ops[t])
    requires m.ph - m.cap <= p < m.ph && Used(m, ops, p)
    ensures Used(m.SetSeq(pos, pos + 1), ops[t := PDone(pos)], p)
  {
    if p != pos { Apart(p, pos, m.cap); }
  }

  lemma CommitKeepsInv<V>(s: State<V>, t: Tid, val: V, pos: nat)
    requires Inv(s) && t in s.ops && s.ops[t] == PStore(val, pos)
    ensures Inv(State(s.m.SetSeq(pos, pos + 1), s.ops[t := PDone(pos)]))
  {
    var m', ops' := s.m.SetSeq(pos, pos + 1), s.ops[t := PDone(pos)];
    assert OpOk(s.m, t, s.ops[t]);
    assert OpOk(m', t, PDone(pos));
    UnusedElsewhere(s.m, pos, m'.seqs[pos % m'.cap]);
    assert s.m.ch <= pos < s.m.ph && s.m.powner[pos] == t && s.m.Seq(pos) == pos;
    hide Used, OpOk;
    assert Window(m', ops') by {
      forall p: nat | m'.ph - m'.cap <= p < m'.ph ensures Used(m', ops', p) {
        CommitKeepsUsed(s.m, s.ops, t, val, pos, p);
      }
    }
    assert AllOk(m', ops') by {
      forall u <- ops' ensures OpOk(m', u, ops'[u]) {
        if u != t { CommitKeepsOp(s.m, t, pos, u, s.ops[u]); }
      }
    }
  }

  lemma ReleaseKeepsOp<V>(m: Mem<V>, t: Tid, pos: nat, u: Tid, op: Op<V>)
    requires Heads(m) && pos < m.ch && m.cowner[pos] == t && m.Seq(pos) == pos + 1 && OpOk(m, u, op) && u != t
    ensures OpOk(m.SetSeq(pos, pos + m.cap), u, op)
  {
    if || op.PWrite? || op.PStore? || op.CRead? || op.CStore?
       || (op.PCas? && op.pos == m.ph) || (op.CCas? && op.pos == m.ch)
    {
      OtherSlot(m, pos, op.pos);
    }
  }

  lemma ReleaseKeepsUsed<V>(m: Mem<V>, ops: map<Tid, Op<V>>, t: Tid, val: V, pos: nat, p: nat)
    requires Heads(m) && t in ops && ops[t] == CStore(pos, val) && OpOk(m, t, ops[t])
    requires m.ph - m.cap <= p < m.ph && Used(m, ops, p)
    ensures Used(m.SetSeq(pos, pos + m.cap), ops[t := CDone(pos, val)], p)
  {
    if p != pos { Apart(p, pos, m.cap); }
  }

  lemma ReleaseKeepsInv<V>(s: State<V>, t: Tid, val: V, pos: nat)
    requires Inv(s) && t in s.ops && s.ops[t] == CStore(pos, val)
    ensures Inv(State(s.m.SetSeq(pos, pos + s.m.cap), s.ops[t := CDone(pos, val)]))
  {
    var m', ops' := s.m.SetSeq(pos, pos + s.m.cap), s.ops[t := CDone(pos, val)];
    assert OpOk(s.m, t, s.ops[t]);
    assert OpOk(m', t, CDone(pos, val));
    UnusedElsewhere(s.m, pos, m'.seqs[pos % m'.cap]);
    assert pos < s.m.ch && s.m.cowner[pos] == t && s.m.Seq(pos) == pos + 1;
    hide Used, OpOk;
    assert Window(m', ops') by {
      forall p: nat | m'.ph - m'.cap <= p < m'.ph ensures Used(m', ops', p) {
        ReleaseKeepsUsed(s.m, s.ops, t, val, pos, p);
      }
    }
    assert AllOk(m', ops') by {
      forall u <- ops' ensures OpOk(m', u, ops'[u]) {
        if u != t { ReleaseKeepsOp(s.m, t, pos, u, s.ops[u]); }
      }
    }
  }

  lemma StepKeepsInv<V>(s: State<V>, s': State<V>, t: Tid)
    requires Inv(s) && Step(s, s', t)
    ensures Inv(s')
  {
    hide Used;
    var op, op' := s.ops[t], s'.ops[t];
    assert OpOk(s.m, t, op);
    match op
    case PCas(val, _) => if op'.PWrite? { ReservePKeepsInv(s, t, val); } else { SetOpKeepsInv(s, t, op'); }
    case PWrite(val, pos) => WriteKeepsInv(s, t, val, pos);
    case PStore(val, pos) => CommitKeepsInv(s, t, val, pos);
    case CCas(_) => if op'.CRead? { ReserveCKeepsInv(s, t); } else { SetOpKeepsInv(s, t, op'); }
    case CStore(pos, val) => ReleaseKeepsInv(s, t, val, pos);
    case _ => SetOpKeepsInv(s, t, op');
  }

  lemma {:induction false} RunInv<V>(run: seq<State<V>>, i: nat)
    requires Run(run) && i < |run| && run[0].m.cap >= 2
    ensures Inv(run[i])
  {
    hide Step, Begin, Used, OpOk;
    if i == 0 {
      InitInv(run[0]);
    } else {
      RunInv(run, i - 1);
      assert Next(run[i - 1], run[i]);
      var t: Tid :| Step(run[i - 1], run[i], t) || Begin(run[i - 1], run[i], t);
      NextKeepsInv(run[i - 1], run[i], t);
    }
  }

  lemma InitInv<V>(s: State<V>)
    requires Init(s) && s.m.cap >= 2
    ensures Inv(s)
  {
    forall p: nat | p < s.m.cap ensures s.m.Seq(p) == p { Wrap32.ModUnique(p, s.m.cap, 0, p); }
  }

  lemma NextKeepsInv<V>(s: State<V>, s': State<V>, t: Tid)
    requires Inv(s) && (Step(s, s', t) || Begin(s, s', t))
    ensures Inv(s')
  {
    if Step(s, s', t) { StepKeepsInv(s, s', t); } else { SetOpKeepsInv(s, t, s'.ops[t]); }
  }
}
