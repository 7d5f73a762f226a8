/** The cached tests of the single-producer single-consumer ring as the code
    computes them, on 32-bit cursors: when they agree with the unbounded tests
    of module `SpscRing`, and executions in which they do not. */
module SpscWords {
  import opened Results
  import opened Seqs
  import opened Sides
  import opened Wrap32
  import opened WordRing
  import R = SpscRing
  import opened SpscChannel

  /** A word read as a signed 32-bit integer. */
  function Signed(w: nat): int { if w < WORD / 2 then w else w - WORD }

  /** "Possibly full" and "possibly empty", against a cached or a real tail. */
  predicate Test32(s: Side, cap: nat, h: nat, tail: nat) {
    if s == Prod then Sub(W(h), W(tail)) >= cap else Signed(Sub(W(h), W(tail))) >= 0
  }

  /** How far a head may be past the cached tail. */
  predicate LagOk(s: Side, cap: nat, h: nat, tail: nat) {
    || h < tail
    || (if s == Prod then h - tail < WORD || (h - tail) % WORD >= cap else (h - tail) % WORD < WORD / 2)
  }

  lemma TestExact(s: Side, cap: nat, h: nat, tail: nat)
    requires 0 < cap <= WORD / 2 && (if s == Prod then tail <= h else tail - h <= WORD / 2)
    ensures (Test32(s, cap, h, tail) <==> h >= tail + Bound(s, cap)) <==> LagOk(s, cap, h, tail)
  {
    SubWords(h, tail);
  }

  /** The test against the cache is right exactly when the head is not 2^32
      (producer) or 2^31 (consumer) past the cache, or enough further to be
      right again; the test against the reloaded tail is always right. */
  lemma CachedTestExact<V>(run: seq<State<V>>, i: nat, s: Side)
    requires Run(run) && i < |run| && run[i].Of(s).pc == Fast && run[i].m.cap <= WORD / 2
    ensures var m, op := run[i].m, run[i].Of(s).op;
      && (op.F1? ==>
            var right := Test32(s, m.cap, op.h, m.Of(s).cache) <==> op.h >= m.Of(s).cache + Bound(s, m.cap);
            right <==> LagOk(s, m.cap, op.h, m.Of(s).cache))
      && (op.F2? ==> (Test32(s, m.cap, op.h, m.Of(Other(s)).tail) <==> op.h >= m.Limit(s)))
  {
    hide Run, Watch, LagOk, Test32;
    RunInv(run, i);
    var m, op := run[i].m, run[i].Of(s).op;
    FastCursors(run[i], s);
    if op.F1? {
      TestExact(s, m.cap, op.h, m.Of(s).cache);
    } else if op.F2? {
      TestExact(s, m.cap, op.h, m.Of(Other(s)).tail);
      NoLag(s, m.cap, op.h, m.Of(Other(s)).tail);
    }
  }

  lemma FastCursors<V>(st: State<V>, s: Side)
    requires Base(st) && st.Of(s).pc == Fast
    ensures var m, op := st.m, st.Of(s).op;
      && m.cap > 0 && m.cons.tail <= m.prod.tail <= m.cons.tail + m.cap
      && m.Of(s).cache <= m.Of(Other(s)).tail && (op.F1? || op.F2? ==> op.h == m.Of(s).tail)
  {
    hide R.Carries, R.Written;
    R.TailsWithin(st.m, Prod, RoleOp(st, Prod), RoleOp(st, Cons));
    assert RoleOp(st, s) == st.Of(s).op;
  }

  lemma NoLag(s: Side, cap: nat, h: nat, tail: nat)
    requires cap <= WORD / 2 && if s == Prod then tail <= h <= tail + cap else tail - cap <= h <= tail
    ensures LagOk(s, cap, h, tail)
  {
  }

  // -------------------------------------------- executions with a stale cache

  /** A run to state st; its history is of no interest here. */
  ghost predicate Reaches<V>(run: seq<State<V>>, st: State<V>) { Run(run) && Last(run).(log := st.log) == st }

  /** p values pushed and c popped, all of them v, by bursts: the caches are still 0. */
  function Quiet<V>(cap: nat, v: V, p: nat, c: nat): State<V> {
    State(R.Mem(cap, R.Half(p, p, 0), R.Half(c, c, 0), seq(cap, _ => v), seq(p, _ => v)), Free, AtRest(), AtRest(),
          Log([], [], []))
  }

  lemma Extend<V>(run: seq<State<V>>, st: State<V>, s: Side) returns (run': seq<State<V>>)
    requires Run(run) && StepBy(Last(run), st, s)
    ensures Run(run') && Last(run') == st
  {
    run' := run + [st];
    forall i | 0 <= i < |run'| - 1 ensures Next(run'[i], run'[i + 1]) {
      assert i < |run| - 1 ==> Next(run[i], run[i + 1]);
    }
  }

  /** The thread of side s, at rest otherwise, is inside a burst of one value. */
  function Busy<V>(st: State<V>, s: Side, pc: Pc, op: R.Op<V>, data: seq<V>): State<V> {
    st.With(s, Thread(pc, op, data, false, false, false, [], None))
  }

  lemma RingMove<V>(run: seq<State<V>>, st: State<V>, s: Side, op: R.Op<V>, m': R.Mem<V>, op': R.Op<V>, data: seq<V>)
    returns (run': seq<State<V>>)
    requires Reaches(run, Busy(st, s, Burst, op, data)) && R.Step(st.m, s, op, m', op')
    ensures Reaches(run', Busy(st.(m := m'), s, Burst, op', data))
  {
    hide R.Step;
    var a := Last(run);
    var b := Busy(st.(m := m'), s, Burst, op', data).(log := Committed(a.log, s, op));
    assert RingStep(a, b, s);
    run' := Extend(run, b, s);
  }

  lemma ControlMove<V>(run: seq<State<V>>, st: State<V>, s: Side, t': Thread<V>) returns (run': seq<State<V>>)
    requires Reaches(run, st) && st.lock == Free && !st.Of(s).pc.Locked() && !t'.pc.Locked()
    requires Outside(s, st.Of(s), st.Of(Other(s)), Free, t')
    ensures Reaches(run', st.With(s, t'))
  {
    var a := Last(run);
    var b := st.With(s, t').(log := LogAfter(a.log, s, a.Of(s), a.Of(Other(s)), t', Leave));
    assert Control(a, b, s, Leave);
    run' := Extend(run, b, s);
  }

  function Reserved<V>(m: R.Mem<V>, s: Side): R.Mem<V> { m.With(s, m.Of(s).(head := m.Of(s).head + 1)) }

  /** The ring steps of a burst of one value that finds a slot. */
  lemma BurstSteps<V>(m: R.Mem<V>, s: Side, v: V, data: seq<V>, h: nat, m1: R.Mem<V>)
    requires |m.slots| == m.cap > 0 && m.Of(s).head == m.Of(s).tail == h < m.Limit(s) && m1 == Reserved(m, s)
    requires m.slots == seq(m.cap, _ => v) && data == if s == Prod then [v] else []
    ensures R.Step(m, s, R.R0(1, data), m, R.R1(1, data, h))
    ensures R.Step(m, s, R.R1(1, data, h), m, R.R2(1, data, h, 1))
    ensures R.Step(m, s, R.R2(1, data, h, 1), m1, R.RW(data, h, 1, 0))
    ensures R.Step(m1, s, R.RW(data, h, 1, 0), m1, R.RW([v], h, 1, 1))
    ensures R.Step(m1, s, R.RW([v], h, 1, 1), R.Publish(m1, s, h + 1, [v]), R.Done([v]))
  {
    hide R.Access, R.Publish;
    assert data[..|data|] == data;
    SlotStep(m1, s, v, data, h);
  }

  /** Writing v over v, or reading it. */
  lemma SlotStep<V>(m: R.Mem<V>, s: Side, v: V, data: seq<V>, h: nat)
    requires |m.slots| == m.cap > 0 && m.slots == seq(m.cap, _ => v) && data == if s == Prod then [v] else []
    ensures R.Access(m, s, data, h, 0, m, [v])
  {
    var j := h % m.cap;
    assert m.slots[j] == v && m.slots[j := v] == m.slots && [] + [v] == [v];
  }

  /** A burst of one value by side s, from rest to rest. */
  lemma OneBurst<V>(run: seq<State<V>>, cap: nat, v: V, p: nat, c: nat, s: Side) returns (run': seq<State<V>>)
    requires Reaches(run, Quiet(cap, v, p, c)) && cap > 0 && if s == Prod then p < c + cap else c < p
    ensures Reaches(run', if s == Prod then Quiet(cap, v, p + 1, c) else Quiet(cap, v, p, c + 1))
  {
    hide Reaches, R.Step;
    var st, end := Quiet(cap, v, p, c), if s == Prod then Quiet(cap, v, p + 1, c) else Quiet(cap, v, p, c + 1);
    var h, data := st.m.Of(s).head, if s == Prod then [v] else [];
    run' := ControlMove(run, st, s, Thread(Burst, R.R0(1, data), data, false, false, false, [], None));
    var m1 := Reserved(st.m, s);
    BurstSteps(st.m, s, v, data, h, m1);
    assert R.Publish(m1, s, h + 1, [v]) == end.m;
    run' := RingMoves(run', st, s, v, data, h, m1, end.m);
    run' := FinishBurst(run', end, s, v, data);
  }

  lemma RingMoves<V>(run: seq<State<V>>, st: State<V>, s: Side, v: V, data: seq<V>, h: nat, m1: R.Mem<V>, m2: R.Mem<V>)
    returns (run': seq<State<V>>)
    requires Reaches(run, Busy(st, s, Burst, R.R0(1, data), data))
    requires R.Step(st.m, s, R.R0(1, data), st.m, R.R1(1, data, h))
    requires R.Step(st.m, s, R.R1(1, data, h), st.m, R.R2(1, data, h, 1))
    requires R.Step(st.m, s, R.R2(1, data, h, 1), m1, R.RW(data, h, 1, 0))
    requires R.Step(m1, s, R.RW(data, h, 1, 0), m1, R.RW([v], h, 1, 1))
    requires R.Step(m1, s, R.RW([v], h, 1, 1), m2, R.Done([v]))
    ensures Reaches(run', Busy(st.(m := m2), s, Burst, R.Done([v]), data))
  {
    hide Reaches, R.Step, Busy;
    run' := RingMove(run, st, s, R.R0(1, data), st.m, R.R1(1, data, h), data);
    run' := RingMove(run', st, s, R.R1(1, data, h), st.m, R.R2(1, data, h, 1), data);
    run' := RingMove(run', st, s, R.R2(1, data, h, 1), m1, R.RW(data, h, 1, 0), data);
    run' := RingMove(run', st.(m := m1), s, R.RW(data, h, 1, 0), m1, R.RW([v], h, 1, 1), data);
    run' := RingMove(run', st.(m := m1), s, R.RW([v], h, 1, 1), m2, R.Done([v]), data);
  }

  lemma FinishBurst<V>(run: seq<State<V>>, st: State<V>, s: Side, v: V, data: seq<V>) returns (run': seq<State<V>>)
    requires Reaches(run, Busy(st, s, Burst, R.Done([v]), data)) && st.lock == Free && st.p == st.c == AtRest()
    ensures Reaches(run', st)
  {
    hide Reaches;
    var st' := Busy(st, s, Burst, R.Done([v]), data);
    var t := Won(st'.Of(s), Check);
    run' := ControlMove(run, st', s, t);
    run' := ControlMove(run', st'.With(s, t), s, AtRest());
    assert st'.With(s, t).With(s, AtRest()) == st;
  }

  /** n rounds of a push and a pop. */
  lemma {:induction false} Rounds<V>(cap: nat, v: V, n: nat) returns (run: seq<State<V>>)
    requires cap > 0
    ensures Reaches(run, Quiet(cap, v, n, n))
  {
    if n == 0 {
      run := [Quiet(cap, v, 0, 0)];
    } else {
      run := Rounds(cap, v, n - 1);
      run := OneBurst(run, cap, v, n - 1, n - 1, Prod);
      run := OneBurst(run, cap, v, n, n - 1, Cons);
    }
  }

  lemma {:induction false} Fill<V>(run: seq<State<V>>, cap: nat, v: V, n: nat, k: nat) returns (run': seq<State<V>>)
    requires Reaches(run, Quiet(cap, v, n, n)) && 0 < cap && k <= cap
    ensures Reaches(run', Quiet(cap, v, n + k, n))
    decreases k
  {
    run' := run;
    if k > 0 {
      run' := Fill(run, cap, v, n, k - 1);
      run' := OneBurst(run', cap, v, n + k - 1, n, Prod);
    }
  }

  /** Side s starts a cached operation and loads its head. */
  lemma StartCached<V>(run: seq<State<V>>, st: State<V>, s: Side, data: seq<V>) returns (run': seq<State<V>>)
    requires Reaches(run, st) && st.Of(s) == AtRest() && st.lock == Free && |data| == if s == Prod then 1 else 0
    ensures Reaches(run', Busy(st, s, Fast, R.F1(data, st.m.Of(s).head), data))
  {
    hide Reaches;
    run' := ControlMove(run, st, s, Thread(Fast, R.F0(data), data, false, false, false, [], None));
    run' := LoadsHead(run', st, s, data);
  }

  lemma LoadsHead<V>(run: seq<State<V>>, st: State<V>, s: Side, data: seq<V>) returns (run': seq<State<V>>)
    requires Reaches(run, Busy(st, s, Fast, R.F0(data), data))
    ensures Reaches(run', Busy(st, s, Fast, R.F1(data, st.m.Of(s).head), data))
  {
    var a := Last(run);
    var b := Busy(st, s, Fast, R.F1(data, st.m.Of(s).head), data).(log := a.log);
    assert RingStep(a, b, s);
    run' := Extend(run, b, s);
  }

  /** A full ring of any capacity that the producer's cached test reads as having room. */
  lemma StaleCacheAdmits<V>(cap: nat, v: V) returns (run: seq<State<V>>)
    requires 0 < cap <= WORD / 2
    ensures Run(run)
    ensures var st := Last(run);
      && st.m.cap == cap && st.m.prod.tail == st.m.cons.tail + cap
      && st.p.pc == Fast && st.p.op == R.F1([v], st.m.prod.tail)
      && !Test32(Prod, cap, st.p.op.h, st.m.prod.cache)
  {
    run := Rounds(cap, v, WORD - cap);
    run := Fill(run, cap, v, WORD - cap, cap);
    run := StartCached(run, Quiet(cap, v, WORD, WORD - cap), Prod, [v]);
    SubWords(WORD, 0);
  }

  /** An empty ring that the consumer's cached test reads as holding a value. */
  lemma StaleCacheDelivers<V>(cap: nat, v: V) returns (run: seq<State<V>>)
    requires 0 < cap <= WORD / 2
    ensures Run(run)
    ensures var st := Last(run);
      && st.m.cap == cap && st.m.prod.tail == st.m.cons.tail
      && st.c.pc == Fast && st.c.op == R.F1([], st.m.cons.tail)
      && !Test32(Cons, cap, st.c.op.h, st.m.cons.cache)
  {
    run := Rounds(cap, v, WORD / 2);
    run := StartCached(run, Quiet(cap, v, WORD / 2, WORD / 2), Cons, []);
    SubWords(WORD / 2, 0);
  }
}
