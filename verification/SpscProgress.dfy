/** Progress on a single-producer single-consumer channel: a thread waits only
    for the lock or, parked for good, for its peer; and a cached operation reads
    the peer's tail only when its cache cannot answer. */
module SpscProgress {
  import opened Results
  import opened Sides
  import opened SpscChannel
  import R = SpscRing

  ghost predicate CanMove<V(!new)>(st: State<V>, s: Side) { exists st' :: StepBy(st, st', s) }

  predicate AtLock(pc: Pc) { match pc case HelpLock | SLock | BLock | TLock => true case _ => false }

  predicate Waits<V>(st: State<V>, s: Side) {
    (AtLock(st.Of(s).pc) && st.lock != Free) || (st.Of(s).pc == ParkF && !st.Of(s).served)
  }

  /** A thread at a place of a ring operation is inside one. */
  predicate Engaged<V>(t: Thread<V>) { t.pc.Active() || t.pc.Help? ==> !t.op.Off? }

  // ------------------------------------------------------------- ring steps

  lemma CachedMoves<V>(m: R.Mem<V>, r: Side, op: R.Op<V>, oo: R.Op<V>) returns (m': R.Mem<V>, op': R.Op<V>)
    requires R.Inv(m, r, op, oo) && (op.F0? || op.F1? || op.F2? || op.F3? || op.F4? || op.F5?)
    ensures R.Step(m, r, op, m', op')
  {
    var x := m.Of(r);
    m' := m;
    match op
    case F0(data) => op' := R.F1(data, x.head);
    case F1(data, h) => op' := if h >= x.cache + Bound(r, m.cap) then R.F2(data, h) else R.F3(data, h);
    case F2(data, h) =>
      m' := m.With(r, x.(cache := m.Of(Other(r)).tail));
      op' := if h >= m.Limit(r) then R.Refused else R.F3(data, h);
    case F3(data, h) =>
      m' := if r == Prod then m.(slots := m.slots[h % m.cap := data[0]]) else m;
      op' := R.F4(if r == Prod then data else data + [m.slots[h % m.cap]], h);
    case F4(data, h) =>
      m' := R.Publish(m, r, h + 1, data);
      op' := R.F5(data, h);
    case F5(data, h) =>
      m' := m.With(r, x.(head := h + 1));
      op' := R.Done(data);
  }

  lemma ReservingMoves<V>(m: R.Mem<V>, r: Side, op: R.Op<V>, oo: R.Op<V>) returns (m': R.Mem<V>, op': R.Op<V>)
    requires R.Inv(m, r, op, oo) && (op.R0? || op.R1? || op.R2? || op.RW?)
    ensures R.Step(m, r, op, m', op')
  {
    m' := m;
    match op
    case R0(n, data) => op' := R.R1(n, data, m.Of(r).head);
    case R1(n, data, h) =>
      op' := if h >= m.Limit(r) then R.Refused else R.R2(n, data, h, Min(n, m.Limit(r) - h));
    case R2(n, data, h, k) => op' := R.R0(n, data);
    case RW(data, h, k, done) =>
      if done < k {
        m' := if r == Prod then m.(slots := m.slots[(h + done) % m.cap := data[done]]) else m;
        op' := R.RW(if r == Prod then data else data + [m.slots[(h + done) % m.cap]], h, k, done + 1);
      } else {
        m' := R.Publish(m, r, h + k, data);
        op' := R.Done(data);
      }
  }

  /** The peer's tail is read only when the cached one leaves no room. */
  lemma RefreshOnlyWhenNeeded<V>(m: R.Mem<V>, r: Side, op: R.Op<V>, m': R.Mem<V>, op': R.Op<V>)
    requires R.Step(m, r, op, m', op')
    ensures op.F1? ==> (op'.F2? <==> !(op.h < m.Of(r).cache + Bound(r, m.cap)))
    ensures m'.Of(r).cache != m.Of(r).cache ==> op.F2? && m'.Of(r).cache == m.Of(Other(r)).tail
  {
  }

  // ---------------------------------------------------------- control steps

  lemma OutsideMoves<V>(s: Side, t: Thread<V>, u: Thread<V>, lock: Lock) returns (t': Thread<V>)
    requires !t.pc.Locked() && t.pc != Rest && (AtLock(t.pc) ==> lock == Free) && (t.pc == ParkF ==> t.served)
    requires t.pc == Fast || t.pc == Burst ==> t.op.Done? || t.op.Refused?
    ensures Outside(s, t, u, lock, t')
  {
    match t.pc
    case Fast => t' := if t.op.Done? then Won(t, Check) else Go(t, SLock);
    case Burst => t' := if t.op.Done? then Won(t, Check) else AtRest();
    case Check => t' := Go(t, HelpLock);
    case HelpLock => t' := Go(t, Loop(Finish));
    case SLock => t' := Single(t, Own);
    case ParkB => t' := Go(t, BLock).(durable := true);
    case ParkT => t' := Go(t, TLock);
    case ParkF => t' := Go(t, Woken);
    case BLock => t' := if t.queued then Single(t, Back).(queued := false) else Go(t, Woken);
    case TLock => t' := Go(t, Woken).(queued := false, res := if t.queued then Some(Timeout) else t.res);
    case Woken => t' := AtRest();
  }

  lemma InsideMoves<V>(s: Side, m: R.Mem<V>, t: Thread<V>, u: Thread<V>) returns (t': Thread<V>, d: Deed)
    requires t.pc.Locked() && (t.pc.Loop? || t.op.Done? || t.op.Refused?)
    ensures Inside(s, m, t, u, t', d)
  {
    t', d := AtRest(), Leave;
    match t.pc
    case Own =>
      if t.op.Done? { t' := Won(t, Loop(Finish)); }
      else if s == Prod { t' := Go(t, Loop(ThenPark)); }
      else if u.queued { d := Serve; }
    case Loop(k) =>
      if u.queued && Possible(m, Other(s)) { t', d := t.(pc := Help(k), op := R.R0(1, u.val)), Take; }
    case Help(k) =>
      if t.op.Done? { t', d := Go(t, Loop(k)), Serve; } else { d := PutBack; }
    case Recheck => t' := if t.op.Done? then Won(t, Loop(Finish)).(queued := false) else Go(t, ParkB);
    case Back => t' := if t.op.Done? then Won(t, Woken) else Go(t, ParkF).(queued := true);
  }

  lemma ControlMoves<V(!new)>(st: State<V>, s: Side)
    requires Base(st) && st.Of(s).pc != Rest && Engaged(st.Of(s)) && !Waits(st, s) && st.Of(s).op.Returned()
    ensures CanMove(st, s)
  {
    hide Inside, Outside, R.Inv;
    var t, u := st.Of(s), st.Of(Other(s));
    var t', d := AtRest(), Leave;
    if t.pc.Locked() { t', d := InsideMoves(s, st.m, t, u); } else { t' := OutsideMoves(s, t, u, st.lock); }
    var st' := st.With(s, t').With(Other(s), Treat(u, d, Gift(t, u)))
                 .(lock := LockAfter(st.lock, t.pc, t'.pc, s), log := LogAfter(st.log, s, t, u, t', d));
    assert Control(st, st', s, d);
    assert StepBy(st, st', s);
  }

  lemma RingMoves<V(!new)>(st: State<V>, s: Side)
    requires Base(st) && !st.Of(s).op.Returned()
    ensures CanMove(st, s)
  {
    hide R.Step, R.Inv, Control;
    var t, r := st.Of(s), Role(st.Of(s), s);
    RingSides(st.m, RoleOp(st, Prod), RoleOp(st, Cons));
    var m', op' := st.m, t.op;
    if t.op.R0? || t.op.R1? || t.op.R2? || t.op.RW? {
      m', op' := ReservingMoves(st.m, r, t.op, RoleOp(st, Other(r)));
    } else {
      m', op' := CachedMoves(st.m, r, t.op, RoleOp(st, Other(r)));
    }
    var st' := st.(m := m', log := Committed(st.log, r, t.op)).With(s, t.(op := op'));
    assert RingStep(st, st', s);
    assert StepBy(st, st', s);
  }

  /** A step is never taken by a thread that waits. */
  lemma MovesNot<V>(st: State<V>, st': State<V>, s: Side)
    requires Base(st) && StepBy(st, st', s)
    ensures !Waits(st, s)
  {
    hide R.Inv, Inside, Begin;
  }

  // ------------------------------------------------------------- executions

  lemma {:induction false} RunEngaged<V>(run: seq<State<V>>, i: nat)
    requires Run(run) && i < |run|
    ensures Engaged(run[i].p) && Engaged(run[i].c)
  {
    hide StepBy;
    if i > 0 {
      RunEngaged(run, i - 1);
      assert Next(run[i - 1], run[i]);
      var s: Side :| StepBy(run[i - 1], run[i], s);
      StepEngaged(run[i - 1], run[i], s);
    }
  }

  lemma StepEngaged<V>(st: State<V>, st': State<V>, s: Side)
    requires Engaged(st.p) && Engaged(st.c) && StepBy(st, st', s)
    ensures Engaged(st'.p) && Engaged(st'.c)
  {
    hide RingStep, Inside, Outside, Engaged;
    if d :| Control(st, st', s, d) {
      var t, u, t' := st.Of(s), st.Of(Other(s)), st'.Of(s);
      if t.pc.Locked() { InsideEngaged(s, st.m, t, u, t', d); } else { OutsideEngaged(s, t, u, st.lock, t'); }
      TreatEngaged(u, d, Gift(t, u));
    } else {
      RingEngaged(st, st', s);
    }
  }

  lemma InsideEngaged<V>(s: Side, m: R.Mem<V>, t: Thread<V>, u: Thread<V>, t': Thread<V>, d: Deed)
    requires Inside(s, m, t, u, t', d)
    ensures Engaged(t')
  {
  }

  lemma OutsideEngaged<V>(s: Side, t: Thread<V>, u: Thread<V>, lock: Lock, t': Thread<V>)
    requires Outside(s, t, u, lock, t')
    ensures Engaged(t')
  {
  }

  lemma TreatEngaged<V>(u: Thread<V>, d: Deed, gift: seq<V>)
    requires Engaged(u)
    ensures Engaged(Treat(u, d, gift))
  {
  }

  lemma RingEngaged<V>(st: State<V>, st': State<V>, s: Side)
    requires Engaged(st.p) && Engaged(st.c) && RingStep(st, st', s)
    ensures Engaged(st'.p) && Engaged(st'.c)
  {
    hide Committed, R.Publish, R.Access;
  }

  /** In every reachable state a thread inside a request can move, exactly
      unless it waits for the lock, or is parked for good and unserved. */
  lemma OnlyWaits<V(!new)>(run: seq<State<V>>, i: nat, s: Side)
    requires Run(run) && i < |run| && run[i].Of(s).pc != Rest
    ensures CanMove(run[i], s) <==> !Waits(run[i], s)
  {
    hide Run, Base, Watch, Waits, StepBy;
    RunInv(run, i);
    RunEngaged(run, i);
    var st := run[i];
    if !Waits(st, s) {
      if st.Of(s).op.Returned() { ControlMoves(st, s); } else { RingMoves(st, s); }
    } else if st' :| StepBy(st, st', s) {
      MovesNot(st, st', s);
    }
  }

  /** No deadlock: a thread that waits for the lock waits for a peer that can move. */
  lemma HolderMoves<V(!new)>(run: seq<State<V>>, i: nat, s: Side)
    requires Run(run) && i < |run| && AtLock(run[i].Of(s).pc) && run[i].lock != Free
    ensures run[i].lock == Held(Other(s)) && CanMove(run[i], Other(s))
  {
    hide Run, Watch, CanMove, R.Inv;
    RunInv(run, i);
    OnlyWaits(run, i, Other(s));
  }
}
