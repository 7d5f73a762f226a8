/** What every execution of a single-producer single-consumer channel guarantees. */
module SpscTheorems {
  import opened Sides
  import R = SpscRing
  import opened SpscChannel

  /** Each side's cursors have one writer at a time: the peer works for a side
      only under the lock, while that side's thread is a registered waiter that
      has been dequeued and not woken. */
  lemma OneWriter<V>(run: seq<State<V>>, i: nat, r: Side)
    requires Run(run) && i < |run| && run[i].Of(Other(r)).pc.Help?
    ensures var st := run[i];
      && st.lock == Held(Other(r)) && !st.Of(r).pc.Active()
      && st.Of(r).pc.Asleep() && !st.Of(r).queued && !st.Of(r).served
  {
    hide Run, R.Inv, Watch;
    RunInv(run, i);
  }

  /** The caches never run ahead of the cursors they cache, and the ring never
      holds more than its capacity, whichever mix of operations ran. */
  lemma CachesAndCapacity<V>(run: seq<State<V>>, i: nat)
    requires Run(run) && i < |run|
    ensures var m := run[i].m;
      && m.prod.cache <= m.cons.tail && m.cons.cache <= m.prod.tail
      && m.cons.tail <= m.prod.tail == |m.hist| && m.prod.tail <= m.cons.tail + m.cap
  {
    hide Run, Watch, ThreadOk;
    RunInv(run, i);
    var st := run[i];
    R.CachesAreLower(st.m, Prod, RoleOp(st, Prod), RoleOp(st, Cons));
    R.TailsWithin(st.m, Prod, RoleOp(st, Prod), RoleOp(st, Cons));
  }

  /** Refinement of a bounded FIFO: a commit appends its pushed values, or takes
      exactly its popped values off the front; no other step changes the queue. */
  lemma StepRefinesFifo<V>(st: State<V>, st': State<V>, s: Side)
    requires Inv(st) && StepBy(st, st', s)
    ensures R.Stored(st.m) && R.Stored(st'.m) && |R.Queue(st'.m)| <= st'.m.cap
    ensures var q, q', t := R.Queue(st.m), R.Queue(st'.m), st.Of(s);
      if !RingStep(st, st', s) || !R.Commits(t.op) then q' == q
      else t.op.data != [] && if Role(t, s) == Prod then q' == q + t.op.data else q == t.op.data + q'
  {
    hide Control, ThreadOk, Watch, R.Step;
    if RingStep(st, st', s) {
      var t, r := st.Of(s), Role(st.Of(s), s);
      RingStepKeepsBase(st, st', s);
      RingSides(st.m, RoleOp(st, Prod), RoleOp(st, Cons));
      R.RefinesBoundedFifo(st.m, r, t.op, st'.m, st'.Of(s).op, RoleOp(st, Other(r)));
    } else {
      var d :| Control(st, st', s, d);
      assert st'.m == st.m by { ControlMem(st, st', s, d); }
      R.TailsWithin(st.m, Prod, RoleOp(st, Prod), RoleOp(st, Cons));
    }
  }

  lemma ControlMem<V>(st: State<V>, st': State<V>, s: Side, d: Deed)
    requires Control(st, st', s, d)
    ensures st'.m == st.m
  {
  }

  /** The backstop works: a thread in its indefinite park, still queued although
      its side could proceed, has a peer that owes it a look. */
  lemma NoLostWakeup<V>(run: seq<State<V>>, i: nat, s: Side)
    requires Run(run) && i < |run| && run[i].Of(s).pc == ParkF && run[i].Of(s).queued && Avail(run[i].m, s)
    ensures Owes(run[i].Of(Other(s)))
  {
    hide Run, Base, Avail;
    RunInv(run, i);
    assert Watch(run[i], s);
  }

  function Distance<V>(t: Thread<V>): nat {
    match t.pc
    case Fast | Burst | Own | Recheck => if t.op.F5? then 5 else 4
    case Check => 3
    case HelpLock => 2
    case _ => 1
  }

  /** ... and every step of that peer brings the look nearer, until it takes the
      sleeper out of the queue; in particular its count check sees the sleeper. */
  lemma PeerAdvances<V>(st: State<V>, st': State<V>, s: Side)
    requires Inv(st) && st.Of(s).pc == ParkF && st.Of(s).queued && Avail(st.m, s) && StepBy(st, st', Other(s))
    ensures !st'.Of(s).queued || (Owes(st'.Of(Other(s))) && Distance(st'.Of(Other(s))) < Distance(st.Of(Other(s))))
  {
    hide R.Inv, R.Step;
    var o := Other(s);
    assert Watch(st, s);
    if RingStep(st, st', o) {
      StepF5(st.m, Role(st.Of(o), o), st.Of(o).op, st'.m, st'.Of(o).op);
    } else {
      var d :| Control(st, st', o, d);
      if st.Of(o).pc.Loop? { PossibleIsAvail(st, o); }
      ControlAdvances(st.m, o, st.Of(o), st.Of(s), st.lock, st'.Of(o), d);
      hide Inside, Outside, ThreadOk;
    }
  }

  lemma ControlAdvances<V>(m: R.Mem<V>, o: Side, t: Thread<V>, u: Thread<V>, lock: Lock, t': Thread<V>, d: Deed)
    requires ThreadOk(o, t, u, lock) && ThreadOk(Other(o), u, t, lock) && u.pc == ParkF && u.queued && Owes(t)
    requires if t.pc.Locked() then Inside(o, m, t, u, t', d) else d == Leave && Outside(o, t, u, lock, t')
    requires t.pc.Loop? ==> Possible(m, Other(o))
    ensures !Treat(u, d, Gift(t, u)).queued || (Owes(t') && Distance(t') < Distance(t))
  {
    hide Possible, Shape, Begin;
  }

  lemma StepF5<V>(m: R.Mem<V>, r: Side, op: R.Op<V>, m': R.Mem<V>, op': R.Op<V>)
    requires R.Step(m, r, op, m', op')
    ensures !op.Returned() && (op.F5? ==> op'.Done?)
  {
  }

  /** The operation a helper runs for a dequeued peer never comes back empty-handed. */
  lemma HelpSucceeds<V>(run: seq<State<V>>, i: nat, s: Side)
    requires Run(run) && i < |run| && run[i].Of(s).pc.Help?
    ensures !run[i].Of(s).op.Refused?
  {
    hide Run, Base;
    RunInv(run, i);
    assert Watch(run[i], s);
  }
}
