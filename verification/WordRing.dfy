/** The MPMC ring as the code computes it, on 32-bit cursors and masked
    indices, simulated by the unbounded machine of module `Ring`. */
module WordRing {
  import opened Ring
  import opened Sides
  import opened Wrap32
  import opened RingTheorems

  function W(x: nat): (w: nat) ensures w < WORD { x % WORD }

  /** Subtraction of unsigned words. */
  function Sub(a: nat, b: nat): (w: nat) ensures w < WORD { (a - b) % WORD }

  datatype Mem32<V> = Mem32(e: nat, ph: nat, pt: nat, ch: nat, ct: nat, slots: seq<V>)
  {
    function Cap(): nat { Pow2(e) }
    function Slot(x: nat): nat { And(x, Cap() - 1) }
  }

  /** What the full and free-entries tests of push and bulk push offer. */
  function Room32(burst: bool, want: nat, cap: nat, ph: nat, ct: nat): int {
    if burst then Min(want, Sub(cap, Sub(ph, ct)))
    else if Sub(ph, ct) >= cap then 0 else 1
  }

  ghost predicate Step32<V>(m: Mem32<V>, op: Op<V>, m': Mem32<V>, op': Op<V>) {
    match op
    case PLoadHead(burst, vals) => m' == m && op' == PLoadTail(burst, vals, m.ph)
    case PLoadTail(burst, vals, ph) =>
      var k := Room32(burst, |vals|, m.Cap(), ph, m.ct);
      m' == m && k >= 0 && op' == if k == 0 then PRet(ph, []) else PCas(burst, vals, ph, k)
    case PCas(burst, vals, ph, k) =>
      || (m' == m && op' == PLoadHead(burst, vals))
      || (ph == m.ph && k <= |vals| && m' == m.(ph := W(ph + k)) && op' == PWrite(ph, vals[..k], 0))
    case PWrite(lo, vals, done) =>
      if done < |vals| then
        && m.Slot(W(lo + done)) < |m.slots|
        && m' == m.(slots := m.slots[m.Slot(W(lo + done)) := vals[done]])
        && op' == PWrite(lo, vals, done + 1)
      else
        m.pt == lo && m' == m.(pt := W(lo + |vals|)) && op' == PRet(lo, vals)
    case CLoadHead(n) => m' == m && op' == CLoadTail(n, m.ch)
    case CLoadTail(n, ch) =>
      m' == m && op' == if Sub(m.pt, ch) == 0 then CRet(ch, []) else CCas(n, ch, Min(n, Sub(m.pt, ch)))
    case CCas(n, ch, k) =>
      || (m' == m && op' == CLoadHead(n))
      || (ch == m.ch && m' == m.(ch := W(ch + k)) && op' == CRead(ch, k, []))
    case CRead(lo, k, got) =>
      if |got| < k then
        && m.Slot(W(lo + |got|)) < |m.slots|
        && m' == m && op' == CRead(lo, k, got + [m.slots[m.Slot(W(lo + |got|))]])
      else
        m.ct == lo && m' == m.(ct := W(lo + k)) && op' == CRet(lo, got)
    case _ => false
  }

  /** The words of an unbounded state. */
  function Words<V>(m: Mem<V>, e: nat): Mem32<V> {
    Mem32(e, W(m.ph), W(m.pt), W(m.ch), W(m.ct), m.slots)
  }

  function WordsOp<V>(op: Op<V>): Op<V> {
    match op
    case PLoadTail(burst, vals, ph) => PLoadTail(burst, vals, W(ph))
    case PCas(burst, vals, ph, k) => PCas(burst, vals, W(ph), k)
    case PWrite(lo, vals, done) => PWrite(W(lo), vals, done)
    case PRet(lo, sent) => PRet(W(lo), sent)
    case CLoadTail(n, ch) => CLoadTail(n, W(ch))
    case CCas(n, ch, k) => CCas(n, W(ch), k)
    case CRead(lo, k, got) => CRead(W(lo), k, got)
    case CRet(lo, got) => CRet(W(lo), got)
    case _ => op
  }

  /** The snapshot a thread took lags behind the cursor by fewer than 2^32 - capacity. */
  ghost predicate Near<V>(m: Mem<V>, op: Op<V>) {
    match op
    case PLoadTail(_, _, ph) => m.ph - ph < WORD - m.cap
    case PCas(_, _, ph, _) => m.ph - ph < WORD - m.cap
    case CLoadTail(_, ch) => m.ch - ch < WORD - m.cap
    case CCas(_, ch, _) => m.ch - ch < WORD - m.cap
    case _ => true
  }

  // ------------------------------------------------------------ word lemmas

  lemma SubWords(a: nat, b: nat)
    ensures Sub(W(a), W(b)) == (a - b) % WORD
    ensures 0 <= a - b < WORD ==> Sub(W(a), W(b)) == a - b
    ensures 0 < b - a < WORD ==> Sub(W(a), W(b)) == WORD - (b - a)
  {
  }

  lemma AddWords(a: nat, k: nat)
    ensures W(W(a) + k) == W(a + k)
  {
  }

  lemma EqualWords(a: nat, b: nat)
    requires -1 * WORD < a - b < WORD
    ensures W(a) == W(b) <==> a == b
  {
  }

  lemma SlotOfWord<V>(m: Mem<V>, e: nat, lo: nat, i: nat)
    requires m.cap == Pow2(e) && e <= 31
    ensures Words(m, e).Slot(W(W(lo) + i)) == (lo + i) % m.cap
  {
    hide And, Pow2;
    AddWords(lo, i);
    MaskIsMod(W(lo + i), e);
    WordSlot(lo + i, e);
  }

  /** The full test agrees with the unbounded one exactly when a head below the
      tail is at most 2^32 - capacity behind. */
  lemma FullTestExact(cap: nat, ph: nat, ct: nat)
    requires 0 < cap < WORD && ph <= ct + cap && ct - ph < WORD
    ensures Room32(false, 1, cap, W(ph), W(ct)) == Room(false, 1, cap, ph, ct) <==> ct - ph <= WORD - cap
  {
    SubWords(ph, ct);
  }

  lemma RoomAgrees(burst: bool, want: nat, cap: nat, ph: nat, ct: nat)
    requires 0 < cap < WORD && ph <= ct + cap && ct - ph < WORD - cap && want > 0 && (!burst ==> want == 1)
    ensures Room32(burst, want, cap, W(ph), W(ct)) == Room(burst, want, cap, ph, ct)
  {
    SubWords(ph, ct);
  }

  // -------------------------------------------------------------- simulation

  ghost predicate Sound<V>(m: Mem<V>, op: Op<V>, t: Tid, e: nat) {
    Cursors(m) && OpOk(m, t, op) && Near(m, op) && m.cap == Pow2(e) && e <= 31
  }

  lemma CapWords<V>(m: Mem<V>, op: Op<V>, t: Tid, e: nat)
    requires Sound(m, op, t, e)
    ensures 0 < m.cap < WORD
  {
    PowGrows(e, 31);
    assert Pow2(32) == 2 * Pow2(31);
    WordIsPow2();
  }

  lemma {:induction false} PowGrows(e: nat, f: nat)
    requires e <= f
    ensures Pow2(e) <= Pow2(f)
    decreases f
  {
    if e < f { PowGrows(e, f - 1); }
  }

  lemma LiftPush<V>(m: Mem<V>, op: Op<V>, w': Mem32<V>, o': Op<V>, t: Tid, e: nat) returns (m': Mem<V>, op': Op<V>)
    requires Sound(m, op, t, e) && IsPush(op) && Step32(Words(m, e), WordsOp(op), w', o')
    ensures OpStep(m, op, m', op', t) && Words(m', e) == w' && WordsOp(op') == o'
  {
    hide And, Pow2, AllStored, Owns, Slice, W, Sub, Room32, Room;
    CapWords(m, op, t, e);
    m', op' := m, op;
    match op
    case PLoadHead(burst, vals) => op' := PLoadTail(burst, vals, m.ph);
    case PLoadTail(burst, vals, ph) =>
      RoomAgrees(burst, |vals|, m.cap, ph, m.ct);
      var k := Room(burst, |vals|, m.cap, ph, m.ct);
      op' := if k == 0 then PRet(ph, []) else PCas(burst, vals, ph, k);
    case PCas(burst, vals, ph, k) =>
      EqualWords(ph, m.ph);
      AddWords(ph, k);
      if o'.PLoadHead? {
        op' := PLoadHead(burst, vals);
      } else {
        m', op' := ReserveP(m, t, vals[..k]), PWrite(ph, vals[..k], 0);
      }
    case PWrite(_, _, _) => m', op' := LiftWrite(m, op, w', o', t, e);
  }

  lemma LiftWrite<V>(m: Mem<V>, op: Op<V>, w': Mem32<V>, o': Op<V>, t: Tid, e: nat) returns (m': Mem<V>, op': Op<V>)
    requires Sound(m, op, t, e) && op.PWrite? && Step32(Words(m, e), WordsOp(op), w', o')
    ensures OpStep(m, op, m', op', t) && Words(m', e) == w' && WordsOp(op') == o'
  {
    hide And, Pow2, AllStored, Owns, Slice, W, Sub, Room32, Room;
    CapWords(m, op, t, e);
    var PWrite(lo, vals, done) := op;
    if done < |vals| {
      SlotOfWord(m, e, lo, done);
      m', op' := m.(slots := m.slots[(lo + done) % m.cap := vals[done]]), PWrite(lo, vals, done + 1);
    } else {
      EqualWords(m.pt, lo);
      AddWords(lo, |vals|);
      m', op' := m.(pt := lo + |vals|), PRet(lo, vals);
    }
  }

  lemma LiftPop<V>(m: Mem<V>, op: Op<V>, w': Mem32<V>, o': Op<V>, t: Tid, e: nat) returns (m': Mem<V>, op': Op<V>)
    requires Sound(m, op, t, e) && !IsPush(op) && Step32(Words(m, e), WordsOp(op), w', o')
    ensures OpStep(m, op, m', op', t) && Words(m', e) == w' && WordsOp(op') == o'
  {
    hide And, Pow2, AllStored, Owns, Slice, W, Sub, Room32, Room;
    CapWords(m, op, t, e);
    m', op' := m, op;
    match op
    case CLoadHead(n) => op' := CLoadTail(n, m.ch);
    case CLoadTail(n, ch) =>
      SubWords(m.pt, ch);
      op' := if m.pt == ch then CRet(ch, []) else CCas(n, ch, Min(n, m.pt - ch));
    case CCas(n, ch, k) =>
      EqualWords(ch, m.ch);
      AddWords(ch, k);
      if o'.CLoadHead? {
        op' := CLoadHead(n);
      } else {
        m', op' := ReserveC(m, t, k), CRead(ch, k, []);
      }
    case CRead(lo, k, got) =>
      if |got| < k {
        SlotOfWord(m, e, lo, |got|);
        op' := CRead(lo, k, got + [m.slots[(lo + |got|) % m.cap]]);
      } else {
        EqualWords(m.ct, lo);
        AddWords(lo, k);
        m', op' := m.(ct := lo + k), CRet(lo, got);
      }
    case _ =>
  }

  /** Every step of the 32-bit ring is a step of the unbounded ring. */
  lemma LiftStep<V>(m: Mem<V>, op: Op<V>, w': Mem32<V>, o': Op<V>, t: Tid, e: nat) returns (m': Mem<V>, op': Op<V>)
    requires Sound(m, op, t, e) && Step32(Words(m, e), WordsOp(op), w', o')
    ensures OpStep(m, op, m', op', t) && Words(m', e) == w' && WordsOp(op') == o'
  {
    hide Sound, Step32, OpStep;
    if IsPush(op) { m', op' := LiftPush(m, op, w', o', t, e); } else { m', op' := LiftPop(m, op, w', o', t, e); }
  }

  lemma PushWords<V>(m: Mem<V>, op: Op<V>, m': Mem<V>, op': Op<V>, t: Tid, e: nat)
    requires Sound(m, op, t, e) && IsPush(op) && OpStep(m, op, m', op', t)
    ensures Step32(Words(m, e), WordsOp(op), Words(m', e), WordsOp(op'))
  {
    hide And, Pow2, AllStored, Owns, Slice, W, Sub, Room32, Room;
    CapWords(m, op, t, e);
    match op
    case PLoadHead(_, _) =>
    case PLoadTail(burst, vals, ph) => RoomAgrees(burst, |vals|, m.cap, ph, m.ct);
    case PCas(burst, vals, ph, k) => AddWords(ph, k);
    case PWrite(lo, vals, done) => SlotOfWord(m, e, lo, done); AddWords(lo, |vals|);
  }

  lemma PopWords<V>(m: Mem<V>, op: Op<V>, m': Mem<V>, op': Op<V>, t: Tid, e: nat)
    requires Sound(m, op, t, e) && !IsPush(op) && OpStep(m, op, m', op', t)
    ensures Step32(Words(m, e), WordsOp(op), Words(m', e), WordsOp(op'))
  {
    hide And, Pow2, AllStored, Owns, Slice, W, Sub, Room32, Room;
    CapWords(m, op, t, e);
    match op
    case CLoadTail(n, ch) => SubWords(m.pt, ch);
    case CCas(n, ch, k) => AddWords(ch, k);
    case CRead(lo, k, got) => SlotOfWord(m, e, lo, |got|); AddWords(lo, k);
    case _ =>
  }

  /** Every step of the unbounded ring is a step of the 32-bit ring. */
  lemma StepWords<V>(m: Mem<V>, op: Op<V>, m': Mem<V>, op': Op<V>, t: Tid, e: nat)
    requires Sound(m, op, t, e) && OpStep(m, op, m', op', t)
    ensures Step32(Words(m, e), WordsOp(op), Words(m', e), WordsOp(op'))
  {
    hide Sound, Step32, OpStep;
    if IsPush(op) { PushWords(m, op, m', op', t, e); } else { PopWords(m, op, m', op', t, e); }
  }
}
