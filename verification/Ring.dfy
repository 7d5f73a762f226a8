/** The four-cursor MPMC ring as a machine of interleaved atomic steps.

    One step is one atomic load, one compare-and-swap, one slot copied, or one
    tail store, taken by one thread.  Cursors are unbounded here; module
    `WordRing` relates them to the 32-bit ones. */
module Ring {
  import opened Sides

  type Tid = nat

  /** Where a thread stands inside a push or a pop.  `burst` tells the bulk
      push from the single one, which has exactly one value. */
  datatype Op<V> =
    | Idle
    | PLoadHead(burst: bool, vals: seq<V>)
    | PLoadTail(burst: bool, vals: seq<V>, ph: nat)
    | PCas(burst: bool, vals: seq<V>, ph: nat, k: nat)
    | PWrite(lo: nat, vals: seq<V>, done: nat)
    | PRet(lo: nat, sent: seq<V>)
    | CLoadHead(n: nat)
    | CLoadTail(n: nat, ch: nat)
    | CCas(n: nat, ch: nat, k: nat)
    | CRead(lo: nat, k: nat, got: seq<V>)
    | CRet(lo: nat, got: seq<V>)
  {
    predicate Fresh() {
      || Idle?
      || (PLoadHead? && |vals| > 0 && (!burst ==> |vals| == 1))
      || (CLoadHead? && n > 0)
    }

    /** Holds reserved indices. */
    predicate Holding() { PWrite? || CRead? }

    predicate Returned() { Idle? || PRet? || CRet? }
  }

  /** Shared memory: the four cursors and the slots.  `hist`, `powner` and
      `cowner` are history: the value and the producer that reserved each
      index, and the consumer that reserved it. */
  datatype Mem<V> = Mem(
    cap: nat, ph: nat, pt: nat, ch: nat, ct: nat, slots: seq<V>,
    hist: seq<V>, powner: seq<Tid>, cowner: seq<Tid>)

  datatype Ring<V> = Ring(m: Mem<V>, ops: map<Tid, Op<V>>)

  ghost predicate Fresh<V>(s: Ring<V>) {
    && s.m.cap > 0 && |s.m.slots| == s.m.cap
    && s.m.ph == s.m.pt == s.m.ch == s.m.ct == 0
    && s.m.hist == [] && s.m.powner == [] && s.m.cowner == []
    && forall t <- s.ops :: s.ops[t].Idle?
  }

  function SetOp<V>(s: Ring<V>, t: Tid, op: Op<V>): Ring<V> {
    s.(ops := s.ops[t := op])
  }

  /** Reservation width offered by a snapshot: 0 means "report full".
      A stale head below the tail wraps around in the single form's unsigned
      test and reads as full; in the bulk form it yields a positive count. */
  function Room(burst: bool, want: nat, cap: nat, ph: nat, ct: nat): (k: nat)
    ensures k <= want
    ensures k > 0 ==> ph + k <= ct + cap
    ensures want > 0 && ct <= ph ==> (k == 0 <==> ph - ct >= cap)
  {
    var free := cap - (ph - ct);
    if free <= 0 || (!burst && ph < ct) then 0 else Min(want, free)
  }

  function ReserveP<V>(m: Mem<V>, t: Tid, vals: seq<V>): Mem<V> {
    m.(ph := m.ph + |vals|, hist := m.hist + vals, powner := m.powner + seq(|vals|, _ => t))
  }

  function ReserveC<V>(m: Mem<V>, t: Tid, k: nat): Mem<V> {
    m.(ch := m.ch + k, cowner := m.cowner + seq(k, _ => t))
  }

  /** One step of the push or pop that thread t is inside. */
  ghost predicate Step<V>(s: Ring<V>, s': Ring<V>, t: Tid)
  {
    && t in s.ops && t in s'.ops
    && s'.ops == s.ops[t := s'.ops[t]]
    && OpStep(s.m, s.ops[t], s'.m, s'.ops[t], t)
  }

  ghost predicate OpStep<V>(m: Mem<V>, op: Op<V>, m': Mem<V>, op': Op<V>, t: Tid)
  {
    match op
    case PLoadHead(burst, vals) =>
      m' == m && op' == PLoadTail(burst, vals, m.ph)
    case PLoadTail(burst, vals, ph) =>
      var k := Room(burst, |vals|, m.cap, ph, m.ct);
      m' == m && op' == if k == 0 then PRet(ph, []) else PCas(burst, vals, ph, k)
    case PCas(burst, vals, ph, k) =>
      || (m' == m && op' == PLoadHead(burst, vals))  // lost the race, or failed spuriously
      || (ph == m.ph && k <= |vals| && m' == ReserveP(m, t, vals[..k]) && op' == PWrite(ph, vals[..k], 0))
    case PWrite(lo, vals, done) =>
      if done < |vals| then
        && |m.slots| == m.cap > 0
        && m' == m.(slots := m.slots[(lo + done) % m.cap := vals[done]])
        && op' == PWrite(lo, vals, done + 1)
      else
        m.pt == lo && m' == m.(pt := lo + |vals|) && op' == PRet(lo, vals)
    case CLoadHead(n) =>
      m' == m && op' == CLoadTail(n, m.ch)
    case CLoadTail(n, ch) =>
      && m' == m && ch <= m.pt
      && op' == if m.pt == ch then CRet(ch, []) else CCas(n, ch, Min(n, m.pt - ch))
    case CCas(n, ch, k) =>
      || (m' == m && op' == CLoadHead(n))
      || (ch == m.ch && m' == ReserveC(m, t, k) && op' == CRead(ch, k, []))
    case CRead(lo, k, got) =>
      if |got| < k then
        && |m.slots| == m.cap > 0
        && m' == m && op' == CRead(lo, k, got + [m.slots[(lo + |got|) % m.cap]])
      else
        m.ct == lo && m' == m.(ct := lo + k) && op' == CRet(lo, got)
    case _ => false
  }

  /** A thread that is between calls starts a push or a pop, or goes idle. */
  ghost predicate Begin<V>(s: Ring<V>, s': Ring<V>, t: Tid) {
    && t in s.ops && s.ops[t].Returned()
    && t in s'.ops && s'.ops[t].Fresh() && s' == SetOp(s, t, s'.ops[t])
  }

  ghost predicate Next<V>(s: Ring<V>, s': Ring<V>) {
    exists t: Tid :: Step(s, s', t) || Begin(s, s', t)
  }

  /** A finite execution: any threads, any interleaving, any length. */
  ghost predicate Run<V>(run: seq<Ring<V>>) {
    |run| > 0 && Fresh(run[0]) && forall i :: 0 <= i < |run| - 1 ==> Next(run[i], run[i+1])
  }

  // ---------------------------------------------------------------- invariant

  ghost predicate Cursors<V>(m: Mem<V>) {
    && m.cap > 0 && |m.slots| == m.cap
    && m.ct <= m.ch <= m.pt <= m.ph <= m.ct + m.cap
    && |m.hist| == |m.powner| == m.ph && |m.cowner| == m.ch
  }

  /** The slot of index i holds the value pushed at index i. */
  ghost predicate Stored<V>(slots: seq<V>, hist: seq<V>, i: nat)
    requires |slots| > 0 && i < |hist|
  {
    slots[i % |slots|] == hist[i]
  }

  ghost predicate AllStored<V>(slots: seq<V>, hist: seq<V>, lo: nat, hi: nat)
    requires |slots| > 0 && hi <= |hist|
  {
    forall i :: lo <= i < hi ==> Stored(slots, hist, i)
  }

  ghost predicate Owns(owner: seq<Tid>, t: Tid, lo: nat, hi: nat)
    requires hi <= |owner|
  {
    forall i :: lo <= i < hi ==> owner[i] == t
  }

  ghost predicate Slice<V>(hist: seq<V>, lo: nat, vals: seq<V>) {
    lo + |vals| <= |hist| && hist[lo..lo + |vals|] == vals
  }

  ghost predicate PWriteOk<V>(m: Mem<V>, t: Tid, lo: nat, vals: seq<V>, done: nat) {
    && Cursors(m) && |vals| > 0 && m.pt <= lo && lo + |vals| <= m.ph && done <= |vals|
    && Slice(m.hist, lo, vals) && Owns(m.powner, t, lo, lo + |vals|)
    && AllStored(m.slots, m.hist, lo, lo + done)
  }

  ghost predicate CReadOk<V>(m: Mem<V>, t: Tid, lo: nat, k: nat, got: seq<V>) {
    && Cursors(m) && k > 0 && m.ct <= lo && lo + k <= m.ch && |got| <= k
    && Owns(m.cowner, t, lo, lo + k) && Slice(m.hist, lo, got)
  }

  /** What holds of one thread's place in its operation. */
  ghost predicate OpOk<V>(m: Mem<V>, t: Tid, op: Op<V>)
  {
    match op
    case Idle => true
    case PLoadHead(burst, vals) => |vals| > 0 && (!burst ==> |vals| == 1)
    case PLoadTail(burst, vals, ph) => |vals| > 0 && ph <= m.ph && (!burst ==> |vals| == 1)
    case PCas(burst, vals, ph, k) =>
      1 <= k <= |vals| && ph <= m.ph && ph + k <= m.ct + m.cap && (!burst ==> |vals| == 1)
    case PWrite(lo, vals, done) => PWriteOk(m, t, lo, vals, done)
    case PRet(lo, sent) => sent != [] ==> lo + |sent| <= m.pt && Slice(m.hist, lo, sent)
    case CLoadHead(n) => n > 0
    case CLoadTail(n, ch) => n > 0 && ch <= m.ch
    case CCas(n, ch, k) => 1 <= k <= n && ch <= m.ch && ch + k <= m.pt
    case CRead(lo, k, got) => CReadOk(m, t, lo, k, got)
    case CRet(lo, got) => got != [] ==> lo + |got| <= m.ct && Slice(m.hist, lo, got)
  }

  /** Index i is reserved by a producer that has not committed it. */
  ghost predicate PHolds<V>(ops: map<Tid, Op<V>>, t: Tid, i: nat) {
    t in ops && ops[t].PWrite? && ops[t].lo <= i < ops[t].lo + |ops[t].vals|
  }

  /** Index i is reserved by a consumer that has not released it. */
  ghost predicate CHolds<V>(ops: map<Tid, Op<V>>, t: Tid, i: nat) {
    t in ops && ops[t].CRead? && ops[t].lo <= i < ops[t].lo + ops[t].k
  }

  ghost predicate Covered<V>(m: Mem<V>, ops: map<Tid, Op<V>>)
    requires Cursors(m)
  {
    && (forall i :: m.pt <= i < m.ph ==> PHolds(ops, m.powner[i], i))
    && (forall i :: m.ct <= i < m.ch ==> CHolds(ops, m.cowner[i], i))
  }

  ghost predicate AllOk<V>(m: Mem<V>, ops: map<Tid, Op<V>>) {
    forall t <- ops :: OpOk(m, t, ops[t])
  }

  ghost predicate Inv<V>(s: Ring<V>) {
    && Cursors(s.m)
    && AllOk(s.m, s.ops)
    && Covered(s.m, s.ops)
    && AllStored(s.m.slots, s.m.hist, s.m.ct, s.m.pt)
  }

  // ------------------------------------------------------------- preservation

  /** Two indices in the same slot are at least a lap apart. */
  lemma SameSlot(a: nat, b: nat, cap: nat)
    requires a < b && cap > 0 && a % cap == b % cap
    ensures a + cap <= b
  {
    var q := b / cap - a / cap;
    assert b - a == cap * q;
    assert q <= 0 ==> cap * q <= 0;
    assert cap * q >= cap;
  }

  /** A thread that holds no reservation may move on without disturbing anyone. */
  lemma SetOpKeepsInv<V>(s: Ring<V>, t: Tid, op: Op<V>)
    requires Inv(s) && OpOk(s.m, t, op) && !op.Holding()
    requires t in s.ops ==> !s.ops[t].Holding()
    ensures Inv(SetOp(s, t, op))
  {
    var ops := s.ops[t := op];
    forall i | s.m.pt <= i < s.m.ph ensures PHolds(ops, s.m.powner[i], i) { assert PHolds(s.ops, s.m.powner[i], i); }
    forall i | s.m.ct <= i < s.m.ch ensures CHolds(ops, s.m.cowner[i], i) { assert CHolds(s.ops, s.m.cowner[i], i); }
  }

  lemma ExtendStored<V>(slots: seq<V>, hist: seq<V>, more: seq<V>, lo: nat, hi: nat)
    requires |slots| > 0 && hi <= |hist| && AllStored(slots, hist, lo, hi)
    ensures AllStored(slots, hist + more, lo, hi)
  {
    forall i | lo <= i < hi ensures Stored(slots, hist + more, i) { assert Stored(slots, hist, i); }
  }

  lemma ReservePKeepsOp<V>(m: Mem<V>, t: Tid, vals: seq<V>, u: Tid, op: Op<V>)
    requires Cursors(m) && m.ph + |vals| <= m.ct + m.cap && OpOk(m, u, op)
    ensures OpOk(ReserveP(m, t, vals), u, op)
  {
    if op.PWrite? { ExtendStored(m.slots, m.hist, vals, op.lo, op.lo + op.done); }
  }

  lemma ReservePKeepsInv<V>(s: Ring<V>, t: Tid, vals: seq<V>)
    requires Inv(s) && |vals| > 0 && s.m.ph + |vals| <= s.m.ct + s.m.cap
    requires t in s.ops && !s.ops[t].Holding()
    ensures Inv(Ring(ReserveP(s.m, t, vals), s.ops[t := PWrite(s.m.ph, vals, 0)]))
  {
    var m', ops := ReserveP(s.m, t, vals), s.ops[t := PWrite(s.m.ph, vals, 0)];
    ExtendStored(s.m.slots, s.m.hist, vals, s.m.ct, s.m.pt);
    forall i | m'.pt <= i < m'.ph ensures PHolds(ops, m'.powner[i], i) {
      if i < s.m.ph { assert PHolds(s.ops, s.m.powner[i], i); }
    }
    forall i | m'.ct <= i < m'.ch ensures CHolds(ops, m'.cowner[i], i) { assert CHolds(s.ops, s.m.cowner[i], i); }
    forall u <- ops ensures OpOk(m', u, ops[u]) {
      if u != t { ReservePKeepsOp(s.m, t, vals, u, ops[u]); }
    }
  }

  lemma ReserveCKeepsInv<V>(s: Ring<V>, t: Tid, k: nat)
    requires Inv(s) && k > 0 && s.m.ch + k <= s.m.pt
    requires t in s.ops && !s.ops[t].Holding()
    ensures Inv(Ring(ReserveC(s.m, t, k), s.ops[t := CRead(s.m.ch, k, [])]))
  {
    var m', ops := ReserveC(s.m, t, k), s.ops[t := CRead(s.m.ch, k, [])];
    forall i | m'.pt <= i < m'.ph ensures PHolds(ops, m'.powner[i], i) { assert PHolds(s.ops, s.m.powner[i], i); }
    forall i | m'.ct <= i < m'.ch ensures CHolds(ops, m'.cowner[i], i) {
      if i < s.m.ch { assert CHolds(s.ops, s.m.cowner[i], i); }
    }
    assert OpOk(m', t, ops[t]);
    hide OpOk;
    forall u <- ops | u != t ensures OpOk(m', u, ops[u]) { ReserveCKeepsOp(s.m, t, k, u, s.ops[u]); }
  }

  lemma ReserveCKeepsOp<V>(m: Mem<V>, t: Tid, k: nat, u: Tid, op: Op<V>)
    requires Cursors(m) && m.ch + k <= m.pt && OpOk(m, u, op)
    ensures OpOk(ReserveC(m, t, k), u, op)
  {
  }

  /** Writing the slot of a reserved index disturbs no other live index. */
  lemma WriteKeepsStored<V>(m: Mem<V>, w: nat, lo: nat, hi: nat)
    requires Cursors(m) && m.pt <= w < m.ph && m.ct <= lo && hi <= m.ph
    requires forall i :: lo <= i < hi && i != w ==> Stored(m.slots, m.hist, i)
    ensures AllStored(m.slots[w % m.cap := m.hist[w]], m.hist, lo, hi)
  {
    var slots := m.slots[w % m.cap := m.hist[w]];
    forall i | lo <= i < hi ensures Stored(slots, m.hist, i) {
      if i != w {
        assert Stored(m.slots, m.hist, i);
        if i % m.cap == w % m.cap { SameSlot(if i < w then i else w, if i < w then w else i, m.cap); }
      }
    }
  }

  lemma WriteKeepsInv<V>(s: Ring<V>, s': Ring<V>, t: Tid)
    requires Inv(s) && Step(s, s', t)
    requires s.ops[t].PWrite? && s.ops[t].done < |s.ops[t].vals|
    ensures Inv(s')
  {
    var m, m', ops := s.m, s'.m, s'.ops;
    var PWrite(lo, vals, done) := s.ops[t];
    var w := lo + done;
    assert PWriteOk(m, t, lo, vals, done);
    assert m.hist[w] == m.hist[lo..lo + |vals|][done];
    WriteKeepsStored(m, w, m.ct, m.pt);
    WriteKeepsStored(m, w, lo, lo + done + 1);
    forall i | m.pt <= i < m.ph ensures PHolds(ops, m.powner[i], i) { assert PHolds(s.ops, m.powner[i], i); }
    forall i | m.ct <= i < m.ch ensures CHolds(ops, m.cowner[i], i) { assert CHolds(s.ops, m.cowner[i], i); }
    hide AllStored, Slice;
    forall u <- ops ensures OpOk(m', u, ops[u]) {
      if u != t {
        assert OpOk(m, u, s.ops[u]);
        if ops[u].PWrite? {
          assert m.powner[w] == t;
          WriteKeepsStored(m, w, ops[u].lo, ops[u].lo + ops[u].done);
        }
      }
    }
  }

  lemma ReadKeepsInv<V>(s: Ring<V>, s': Ring<V>, t: Tid)
    requires Inv(s) && Step(s, s', t)
    requires s.ops[t].CRead? && |s.ops[t].got| < s.ops[t].k
    ensures Inv(s')
  {
    var m, ops := s.m, s'.ops;
    var CRead(lo, k, got) := s.ops[t];
    assert CReadOk(m, t, lo, k, got) && Stored(m.slots, m.hist, lo + |got|);
    forall i | m.pt <= i < m.ph ensures PHolds(ops, m.powner[i], i) { assert PHolds(s.ops, m.powner[i], i); }
    forall i | m.ct <= i < m.ch ensures CHolds(ops, m.cowner[i], i) { assert CHolds(s.ops, m.cowner[i], i); }
  }

  lemma CommitPKeepsOp<V>(m: Mem<V>, t: Tid, hi: nat, u: Tid, op: Op<V>)
    requires Cursors(m) && m.pt <= hi <= m.ph && Owns(m.powner, t, m.pt, hi)
    requires OpOk(m, u, op) && u != t
    ensures OpOk(m.(pt := hi), u, op)
  {
    if op.PWrite? { assert m.powner[op.lo] == u; }
  }

  lemma CommitPKeepsInv<V>(s: Ring<V>, t: Tid)
    requires Inv(s) && t in s.ops && s.ops[t].PWrite? && s.ops[t].lo == s.m.pt && s.ops[t].done == |s.ops[t].vals|
    ensures Inv(Ring(s.m.(pt := s.m.pt + |s.ops[t].vals|), s.ops[t := PRet(s.m.pt, s.ops[t].vals)]))
  {
    var m, vals := s.m, s.ops[t].vals;
    var m', ops := m.(pt := m.pt + |vals|), s.ops[t := PRet(m.pt, vals)];
    assert PWriteOk(m, t, m.pt, vals, |vals|);
    forall i | m'.pt <= i < m.ph ensures PHolds(ops, m.powner[i], i) { assert PHolds(s.ops, m.powner[i], i); }
    forall i | m.ct <= i < m.ch ensures CHolds(ops, m.cowner[i], i) { assert CHolds(s.ops, m.cowner[i], i); }
    forall u <- ops ensures OpOk(m', u, ops[u]) {
      if u != t { CommitPKeepsOp(m, t, m'.pt, u, ops[u]); }
    }
  }

  lemma CommitCKeepsOp<V>(m: Mem<V>, t: Tid, hi: nat, u: Tid, op: Op<V>)
    requires Cursors(m) && m.ct <= hi <= m.ch && Owns(m.cowner, t, m.ct, hi)
    requires OpOk(m, u, op) && u != t
    ensures OpOk(m.(ct := hi), u, op)
  {
    if op.CRead? { assert m.cowner[op.lo] == u; }
  }

  lemma CommitCKeepsInv<V>(s: Ring<V>, t: Tid)
    requires Inv(s) && t in s.ops && s.ops[t].CRead? && s.ops[t].lo == s.m.ct && |s.ops[t].got| == s.ops[t].k
    ensures Inv(Ring(s.m.(ct := s.m.ct + s.ops[t].k), s.ops[t := CRet(s.m.ct, s.ops[t].got)]))
  {
    var m, got := s.m, s.ops[t].got;
    var m', ops := m.(ct := m.ct + |got|), s.ops[t := CRet(m.ct, got)];
    assert CReadOk(m, t, m.ct, |got|, got);
    forall i | m.pt <= i < m.ph ensures PHolds(ops, m.powner[i], i) { assert PHolds(s.ops, m.powner[i], i); }
    forall i | m'.ct <= i < m.ch ensures CHolds(ops, m.cowner[i], i) { assert CHolds(s.ops, m.cowner[i], i); }
    forall u <- ops ensures OpOk(m', u, ops[u]) {
      if u != t { CommitCKeepsOp(m, t, m'.ct, u, ops[u]); }
    }
  }

  /** The shape of a step's effect on shared memory, without the local detail. */
  datatype Effect = Inner | ResP | ResC | Write | Read | ComP | ComC

  function EffectOf<V>(op: Op<V>, op': Op<V>): Effect {
    if op.PWrite? then (if op'.PRet? then ComP else Write)
    else if op.CRead? then (if op'.CRet? then ComC else Read)
    else if op'.PWrite? then ResP else if op'.CRead? then ResC else Inner
  }

  lemma StepEffect<V>(m: Mem<V>, op: Op<V>, m': Mem<V>, op': Op<V>, t: Tid)
    requires Cursors(m) && OpOk(m, t, op) && OpStep(m, op, m', op', t)
    ensures EffectOf(op, op').Inner? ==> m' == m && OpOk(m, t, op') && !op.Holding() && !op'.Holding()
    ensures EffectOf(op, op').ResP? ==>
              && op.PCas? && |op'.vals| > 0 && m.ph + |op'.vals| <= m.ct + m.cap && op'.vals == op.vals[..op.k]
              && op' == PWrite(m.ph, op'.vals, 0) && m' == ReserveP(m, t, op'.vals)
    ensures EffectOf(op, op').ResC? ==>
              && op.CCas? && op'.k > 0 && m.ch + op'.k <= m.pt
              && op' == CRead(m.ch, op'.k, []) && m' == ReserveC(m, t, op'.k)
    ensures EffectOf(op, op').ComP? ==>
              && op.lo == m.pt && op.done == |op.vals|
              && op' == PRet(m.pt, op.vals) && m' == m.(pt := m.pt + |op.vals|)
    ensures EffectOf(op, op').ComC? ==>
              && op.lo == m.ct && |op.got| == op.k
              && op' == CRet(m.ct, op.got) && m' == m.(ct := m.ct + op.k)
    ensures EffectOf(op, op').Write? ==>
              && op'.PWrite? && op.done < |op.vals| && op'.lo == op.lo && op'.vals == op.vals
              && m' == m.(slots := m'.slots)
    ensures EffectOf(op, op').Read? ==> op'.CRead? && |op.got| < op.k && op'.lo == op.lo && op'.k == op.k && m' == m
  {
    hide AllStored, Owns, Slice, ReserveP, ReserveC, Room;
  }

  lemma StepKeepsInv<V>(s: Ring<V>, s': Ring<V>, t: Tid)
    requires Inv(s) && Step(s, s', t)
    ensures Inv(s')
  {
    hide OpStep, OpOk, Covered, AllStored, ReserveP, ReserveC;
    var op, op' := s.ops[t], s'.ops[t];
    StepEffect(s.m, op, s'.m, op', t);
    match EffectOf(op, op')
    case Inner => SetOpKeepsInv(s, t, op');
    case ResP => ReservePKeepsInv(s, t, op'.vals);
    case ResC => ReserveCKeepsInv(s, t, op'.k);
    case Write => WriteKeepsInv(s, s', t);
    case Read => ReadKeepsInv(s, s', t);
    case ComP => CommitPKeepsInv(s, t);
    case ComC => CommitCKeepsInv(s, t);
  }
}
