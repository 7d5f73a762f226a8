/** The ring under the single-producer single-consumer contract: cursor-cached
    fast operations beside the ordinary reserve-and-commit ones, each side
    worked by one thread at a time. */
module SpscRing {
  import opened Sides
  import Ring

  /** One side: its two cursors and its private cache of the other side's tail. */
  datatype Half = Half(head: nat, tail: nat, cache: nat)

  /** `hist` is the sequence of values committed so far. */
  datatype Mem<V> = Mem(cap: nat, prod: Half, cons: Half, slots: seq<V>, hist: seq<V>)
  {
    function Of(r: Side): Half { if r == Prod then prod else cons }
    function With(r: Side, h: Half): Mem<V> { if r == Prod then this.(prod := h) else this.(cons := h) }
    /** The first index the side may not use yet. */
    function Limit(r: Side): nat { Of(Other(r)).tail + Bound(r, cap) }
  }

  /** Where a side's operation stands.  F: the cached form, one value.  R: the
      reserve-and-commit form, up to n values.  `data` holds the values to push,
      or the values popped so far. */
  datatype Op<V> =
    | Off
    | F0(data: seq<V>) | F1(data: seq<V>, h: nat) | F2(data: seq<V>, h: nat)
    | F3(data: seq<V>, h: nat) | F4(data: seq<V>, h: nat) | F5(data: seq<V>, h: nat)
    | R0(n: nat, data: seq<V>) | R1(n: nat, data: seq<V>, h: nat) | R2(n: nat, data: seq<V>, h: nat, k: nat)
    | RW(data: seq<V>, h: nat, k: nat, done: nat)
    | Done(data: seq<V>) | Refused
  {
    predicate Returned() { Off? || Done? || Refused? }
  }

  /** Write data[j] to the slot of index i, or read that slot. */
  ghost predicate Access<V>(m: Mem<V>, r: Side, data: seq<V>, i: nat, j: nat, m': Mem<V>, data': seq<V>) {
    && |m.slots| == m.cap > 0
    && if r == Prod then j < |data| && m' == m.(slots := m.slots[i % m.cap := data[j]]) && data' == data
       else m' == m && data' == data + [m.slots[i % m.cap]]
  }

  /** Advance the tail to t; a producer thereby commits `data`. */
  function Publish<V>(m: Mem<V>, r: Side, t: nat, data: seq<V>): Mem<V> {
    var m1 := m.With(r, m.Of(r).(tail := t));
    if r == Prod then m1.(hist := m.hist + data) else m1
  }

  ghost predicate Step<V>(m: Mem<V>, r: Side, op: Op<V>, m': Mem<V>, op': Op<V>) {
    var x := m.Of(r);
    match op
    case F0(data) => m' == m && op' == F1(data, x.head)
    case F1(data, h) => m' == m && op' == if h >= x.cache + Bound(r, m.cap) then F2(data, h) else F3(data, h)
    case F2(data, h) =>
      && m' == m.With(r, x.(cache := m.Of(Other(r)).tail))
      && op' == if h >= m.Limit(r) then Refused else F3(data, h)
    case F3(data, h) => op'.F4? && op'.h == h && Access(m, r, data, h, 0, m', op'.data)
    case F4(data, h) => m' == Publish(m, r, h + 1, data) && op' == F5(data, h)
    case F5(data, h) => m' == m.With(r, x.(head := h + 1)) && op' == Done(data)
    case R0(n, data) => m' == m && op' == R1(n, data, x.head)
    case R1(n, data, h) =>
      m' == m && op' == if h >= m.Limit(r) then Refused else R2(n, data, h, Min(n, m.Limit(r) - h))
    case R2(n, data, h, k) =>
      || (m' == m && op' == R0(n, data))
      || (h == x.head && k <= n && (r == Prod ==> k <= |data|)
          && m' == m.With(r, x.(head := h + k)) && op' == RW(if r == Prod then data[..k] else [], h, k, 0))
    case RW(data, h, k, done) =>
      if done < k then
        && op'.RW? && op' == RW(op'.data, h, k, done + 1)
        && Access(m, r, data, h + done, done, m', op'.data)
      else x.tail == h && m' == Publish(m, r, h + k, data) && op' == Done(data)
    case _ => false
  }

  // -------------------------------------------------------------- invariant

  /** The values an operation carries: to push, all of them; popped, the oldest ones. */
  ghost predicate Carries<V>(m: Mem<V>, r: Side, data: seq<V>, n: nat, h: nat, done: nat) {
    if r == Prod then |data| == n
    else |data| == done && h + done <= |m.hist| && data == m.hist[h..h + done]
  }

  /** A producer's written slots hold what it carries. */
  ghost predicate Written<V>(m: Mem<V>, r: Side, data: seq<V>, h: nat, done: nat)
    requires m.cap > 0 && |m.slots| == m.cap
  {
    r == Prod ==> done <= |data| && forall j :: 0 <= j < done ==> m.slots[(h + j) % m.cap] == data[j]
  }

  /** What a finished operation hands back: the values it has just committed. */
  ghost predicate Returns<V>(m: Mem<V>, r: Side, data: seq<V>) {
    var t := m.Of(r).tail;
    data != [] && |data| <= t <= |m.hist| && data == m.hist[t - |data|..t]
  }

  ghost predicate OpOk<V>(m: Mem<V>, r: Side, op: Op<V>)
    requires m.cap > 0 && |m.slots| == m.cap
  {
    var x := m.Of(r);
    && x.cache <= m.Of(Other(r)).tail && x.tail <= m.Limit(r)
    && match op
       case Off | Refused => x.head == x.tail
       case Done(data) => x.head == x.tail && Returns(m, r, data)
       case F0(data) => x.head == x.tail && Carries(m, r, data, 1, 0, 0)
       case F1(data, h) => x.head == x.tail == h && Carries(m, r, data, 1, 0, 0)
       case F2(data, h) => x.head == x.tail == h && Carries(m, r, data, 1, 0, 0)
       case F3(data, h) => x.head == x.tail == h < m.Limit(r) && Carries(m, r, data, 1, 0, 0)
       case F4(data, h) =>
         x.head == x.tail == h < m.Limit(r) && Carries(m, r, data, 1, h, 1) && Written(m, r, data, h, 1)
       case F5(data, h) => x.head == h && x.tail == h + 1 && |data| == 1 && Returns(m, r, data)
       case R0(n, data) => x.head == x.tail && n > 0 && Carries(m, r, data, n, 0, 0)
       case R1(n, data, h) => x.head == x.tail == h && n > 0 && Carries(m, r, data, n, 0, 0)
       case R2(n, data, h, k) =>
         x.head == x.tail == h && 1 <= k <= n && h + k <= m.Limit(r) && Carries(m, r, data, n, 0, 0)
       case RW(data, h, k, done) =>
         && x.tail == h && x.head == h + k <= m.Limit(r) && 1 <= k && done <= k
         && Carries(m, r, data, k, h, done) && Written(m, r, data, h, done)
  }

  /** Committed values not yet released are in their slots. */
  ghost predicate Stored<V>(m: Mem<V>) {
    && m.cap > 0 && |m.slots| == m.cap && |m.hist| == m.prod.tail && m.cons.tail <= m.prod.tail
    && forall i :: m.cons.tail <= i < m.prod.tail ==> m.slots[i % m.cap] == m.hist[i]
  }

  /** The invariant seen from side r, whose operation is `op`; `oo` is the other side's. */
  ghost predicate Inv<V>(m: Mem<V>, r: Side, op: Op<V>, oo: Op<V>) {
    Stored(m) && OpOk(m, r, op) && OpOk(m, Other(r), oo)
  }

  // ----------------------------------------------------------- preservation

  lemma OtherKept<V>(m: Mem<V>, m': Mem<V>, r: Side, oo: Op<V>)
    requires m.cap == m'.cap > 0 && |m.slots| == |m'.slots| == m.cap && OpOk(m, Other(r), oo)
    requires m'.Of(Other(r)) == m.Of(Other(r)) && m.Of(r).tail <= m'.Of(r).tail && m.hist <= m'.hist
    requires r == Cons ==> m'.slots == m.slots
    ensures OpOk(m', Other(r), oo)
  {
  }

  /** Writing a free slot leaves every committed value in place. */
  lemma WriteKeepsStored<V>(m: Mem<V>, i: nat, v: V)
    requires Stored(m) && m.prod.tail <= i < m.cons.tail + m.cap
    ensures Stored(m.(slots := m.slots[i % m.cap := v]))
  {
    forall j | m.cons.tail <= j < m.prod.tail ensures m.slots[i % m.cap := v][j % m.cap] == m.hist[j] {
      if i % m.cap == j % m.cap { Ring.SameSlot(j, i, m.cap); }
    }
  }

  lemma WriteKeepsWritten<V>(m: Mem<V>, data: seq<V>, h: nat, done: nat)
    requires m.cap > 0 && |m.slots| == m.cap && Written(m, Prod, data, h, done) && done < |data| && done < m.cap
    ensures Written(m.(slots := m.slots[(h + done) % m.cap := data[done]]), Prod, data, h, done + 1)
  {
    var slots := m.slots[(h + done) % m.cap := data[done]];
    forall j | 0 <= j < done + 1 ensures slots[(h + j) % m.cap] == data[j] {
      if j < done && (h + j) % m.cap == (h + done) % m.cap { Ring.SameSlot(h + j, h + done, m.cap); }
    }
  }

  lemma AccessKeeps<V>(m: Mem<V>, r: Side, data: seq<V>, h: nat, done: nat, n: nat, m': Mem<V>, data': seq<V>)
    requires Stored(m) && Access(m, r, data, h + done, done, m', data') && h == m.Of(r).tail && done < n
    requires h + n <= m.Limit(r) && Carries(m, r, data, n, h, done) && Written(m, r, data, h, done)
    ensures Stored(m') && m' == m.(slots := m'.slots) && (r == Cons ==> m' == m)
    ensures Carries(m', r, data', n, h, done + 1) && Written(m', r, data', h, done + 1)
  {
    if r == Prod {
      WriteKeepsStored(m, h + done, data[done]);
      WriteKeepsWritten(m, data, h, done);
    } else {
      assert m.hist[h..h + done + 1] == m.hist[h..h + done] + [m.hist[h + done]];
    }
  }

  lemma PublishKeeps<V>(m: Mem<V>, r: Side, data: seq<V>, h: nat, n: nat)
    requires Stored(m) && h == m.Of(r).tail && h + n <= m.Limit(r)
    requires Carries(m, r, data, n, h, n) && Written(m, r, data, h, n)
    ensures var m' := Publish(m, r, h + n, data);
      && Stored(m') && m'.Of(r) == m.Of(r).(tail := h + n) && m'.Of(Other(r)) == m.Of(Other(r))
      && m'.cap == m.cap && m'.slots == m.slots && m.hist <= m'.hist && m'.Limit(r) == m.Limit(r)
      && |data| == n && (n > 0 ==> Returns(m', r, data))
  {
    var m' := Publish(m, r, h + n, data);
    if r == Prod {
      forall i | m'.cons.tail <= i < m'.prod.tail ensures m'.slots[i % m'.cap] == m'.hist[i] {
        if i >= h { assert m'.slots[(h + (i - h)) % m'.cap] == data[i - h]; }
      }
    }
  }

  lemma CachedKeepsInv<V>(m: Mem<V>, r: Side, op: Op<V>, m': Mem<V>, op': Op<V>, oo: Op<V>)
    requires Inv(m, r, op, oo) && Step(m, r, op, m', op') && (op.F0? || op.F1? || op.F2? || op.F5?)
    ensures Inv(m', r, op', oo)
  {
    hide Written;
    OtherKept(m, m', r, oo);
  }

  lemma ReserveKeepsInv<V>(m: Mem<V>, r: Side, op: Op<V>, m': Mem<V>, op': Op<V>, oo: Op<V>)
    requires Inv(m, r, op, oo) && Step(m, r, op, m', op') && (op.R0? || op.R1? || op.R2?)
    ensures Inv(m', r, op', oo)
  {
    OtherKept(m, m', r, oo);
  }

  lemma CachedAccessKeepsInv<V>(m: Mem<V>, r: Side, op: Op<V>, m': Mem<V>, op': Op<V>, oo: Op<V>)
    requires Inv(m, r, op, oo) && Step(m, r, op, m', op') && op.F3?
    ensures Inv(m', r, op', oo)
  {
    hide Carries, Access, Stored;
    StoredSlots(m);
    Start(m, r, op.data, 1, op.h);
    AccessKeeps(m, r, op.data, op.h, 0, 1, m', op'.data);
    hide Written;
    StoredSlots(m');
    OtherKept(m, m', r, oo);
  }

  lemma AccessKeepsInv<V>(m: Mem<V>, r: Side, op: Op<V>, m': Mem<V>, op': Op<V>, oo: Op<V>)
    requires Inv(m, r, op, oo) && Step(m, r, op, m', op') && op.RW? && op.done < op.k
    ensures Inv(m', r, op', oo)
  {
    hide Carries, Access, Stored;
    StoredSlots(m);
    AccessKeeps(m, r, op.data, op.h, op.done, op.k, m', op'.data);
    hide Written;
    StoredSlots(m');
    OtherKept(m, m', r, oo);
  }

  lemma StoredSlots<V>(m: Mem<V>)
    requires Stored(m)
    ensures |m.slots| == m.cap > 0
  {
  }

  lemma Start<V>(m: Mem<V>, r: Side, data: seq<V>, n: nat, h: nat)
    requires Stored(m) && Carries(m, r, data, n, 0, 0) && h == m.Of(r).tail
    ensures Carries(m, r, data, n, h, 0) && Written(m, r, data, h, 0)
  {
  }

  lemma PublishKeepsInv<V>(m: Mem<V>, r: Side, op: Op<V>, m': Mem<V>, op': Op<V>, oo: Op<V>)
    requires Inv(m, r, op, oo) && Step(m, r, op, m', op') && (op.F4? || (op.RW? && op.done == op.k))
    ensures Inv(m', r, op', oo)
  {
    hide Carries, Written, Publish, Stored, Returns;
    PublishKeeps(m, r, op.data, op.h, if op.F4? then 1 else op.k);
    StoredSlots(m);
    OtherKept(m, m', r, oo);
  }

  /** Every step keeps the invariant, whichever side takes it. */
  lemma StepKeepsInv<V>(m: Mem<V>, r: Side, op: Op<V>, m': Mem<V>, op': Op<V>, oo: Op<V>)
    requires Inv(m, r, op, oo) && Step(m, r, op, m', op')
    ensures Inv(m', r, op', oo)
  {
    assert op.RW? ==> op.done <= op.k;
    hide Inv;
    match op
    case F3(_, _) => CachedAccessKeepsInv(m, r, op, m', op', oo);
    case F4(_, _) => PublishKeepsInv(m, r, op, m', op', oo);
    case RW(_, _, k, done) =>
      if done < k { AccessKeepsInv(m, r, op, m', op', oo); } else { PublishKeepsInv(m, r, op, m', op', oo); }
    case R0(_, _) | R1(_, _, _) | R2(_, _, _, _) => ReserveKeepsInv(m, r, op, m', op', oo);
    case F0(_) | F1(_, _) | F2(_, _) | F5(_, _) => CachedKeepsInv(m, r, op, m', op', oo);
    case _ =>
  }

  // -------------------------------------------------------------- theorems

  /** Each cache is a lower bound of the cursor it caches, so a test against it
      never admits what the real cursor would refuse. */
  lemma CachesAreLower<V>(m: Mem<V>, r: Side, op: Op<V>, oo: Op<V>)
    requires Inv(m, r, op, oo)
    ensures m.prod.cache <= m.cons.tail && m.cons.cache <= m.prod.tail
    ensures forall s: Side :: m.Of(s).cache + Bound(s, m.cap) <= m.Limit(s)
  {
    forall s: Side ensures m.Of(s).cache + Bound(s, m.cap) <= m.Limit(s) { assert s == r || s == Other(r); }
    assert m.Of(Prod).cache + Bound(Prod, m.cap) <= m.Limit(Prod);
    assert m.Of(Cons).cache + Bound(Cons, m.cap) <= m.Limit(Cons);
  }

  function Queue<V>(m: Mem<V>): seq<V>
    requires m.cons.tail <= |m.hist|
  {
    m.hist[m.cons.tail..]
  }

  /** The step that makes an operation's values count. */
  predicate Commits<V>(op: Op<V>) { op.F4? || (op.RW? && op.done == op.k) }

  /** Refinement of a bounded FIFO: a commit appends the pushed values, or takes
      exactly the popped values off the front; no other step changes the queue. */
  lemma RefinesBoundedFifo<V>(m: Mem<V>, r: Side, op: Op<V>, m': Mem<V>, op': Op<V>, oo: Op<V>)
    requires Inv(m, r, op, oo) && Step(m, r, op, m', op')
    ensures Stored(m) && Stored(m') && |Queue(m')| <= m'.cap
    ensures if !Commits(op) then Queue(m') == Queue(m)
            else if r == Prod then Queue(m') == Queue(m) + op.data && op.data != []
            else Queue(m) == op.data + Queue(m') && op.data != []
  {
    StepKeepsInv(m, r, op, m', op', oo);
    CommitsQueue(m, r, op, m', op', oo);
    assert m'.prod.tail <= m'.Limit(Prod) by { TailsWithin(m', r, op', oo); }
  }

  lemma TailsWithin<V>(m: Mem<V>, r: Side, op: Op<V>, oo: Op<V>)
    requires Inv(m, r, op, oo)
    ensures m.prod.tail <= m.Limit(Prod)
  {
    assert r == Prod || Other(r) == Prod;
  }

  lemma QuietStep<V>(m: Mem<V>, r: Side, op: Op<V>, m': Mem<V>, op': Op<V>, oo: Op<V>)
    requires Inv(m, r, op, oo) && Step(m, r, op, m', op') && !Commits(op)
    ensures m'.hist == m.hist && m'.cons.tail == m.cons.tail
  {
    hide Carries, Written, Stored;
  }

  lemma PublishQueue<V>(m: Mem<V>, r: Side, data: seq<V>, h: nat, n: nat)
    requires m.cons.tail <= |m.hist| && h == m.Of(r).tail && Carries(m, r, data, n, h, n)
    ensures var m' := Publish(m, r, h + n, data);
      m'.cons.tail <= |m'.hist| && if r == Prod then Queue(m') == Queue(m) + data else Queue(m) == data + Queue(m')
  {
  }

  lemma CommitsQueue<V>(m: Mem<V>, r: Side, op: Op<V>, m': Mem<V>, op': Op<V>, oo: Op<V>)
    requires Inv(m, r, op, oo) && Step(m, r, op, m', op') && Stored(m')
    ensures if !Commits(op) then Queue(m') == Queue(m)
            else if r == Prod then Queue(m') == Queue(m) + op.data && op.data != []
            else Queue(m) == op.data + Queue(m') && op.data != []
  {
    if !Commits(op) {
      QuietStep(m, r, op, m', op', oo);
    } else {
      var n := if op.F4? then 1 else op.k;
      CommitIs(m, r, op, m', op', oo);
      hide Inv, Step, Publish, Queue, Carries;
      PublishQueue(m, r, op.data, op.h, n);
    }
  }

  lemma CommitIs<V>(m: Mem<V>, r: Side, op: Op<V>, m': Mem<V>, op': Op<V>, oo: Op<V>)
    requires Inv(m, r, op, oo) && Step(m, r, op, m', op') && Commits(op)
    ensures var n := if op.F4? then 1 else op.k;
      && n > 0 && op.h == m.Of(r).tail && m' == Publish(m, r, op.h + n, op.data) && |op.data| == n
      && Carries(m, r, op.data, n, op.h, n)
  {
    hide Written, Publish;
  }

  /** A reservation is as wide as asked for, or reaches the other side's tail. */
  lemma WidestReservation<V>(m: Mem<V>, r: Side, op: Op<V>, m': Mem<V>, op': Op<V>)
    requires Step(m, r, op, m', op') && op.R1? && op'.R2?
    ensures op'.n == op.n && op'.h == op.h && (op'.k == op.n || op'.h + op'.k == m.Limit(r))
  {
  }
}
