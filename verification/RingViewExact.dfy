/** Which executions of the MPMC ring under release/acquire memory are free of
    data races: exactly those in which every reservation respects the tail its
    thread acquired. */
module RingViewExact {
  import opened Sides
  import opened Wrap32
  import opened RingViews
  import opened RingViewTheorems

  // --------------------------------------------- what a view cannot have seen

  /** An access the thread itself has made and not published. */
  ghost predicate Mine(op: Vop, s: Side, i: nat) {
    match op
    case Work(side, lo, _, done) => side == s && lo <= i < lo + done
    case Commit(side, lo, k) => side == s && lo <= i < lo + k
    case _ => false
  }

  /** Beyond its own accesses, a view has seen only what the newest store it has seen carries. */
  ghost predicate Told(x: Half, s: Side, op: Vop, v: View) {
    v.Time(s) < |x.msgs| && forall i <- v.Seen(s) :: i < x.msgs[v.Time(s)].val || Mine(op, s, i)
  }

  ghost predicate ToldBoth(st: State, op: Vop, v: View) { Told(st.prod, Prod, op, v) && Told(st.cons, Cons, op, v) }

  ghost predicate MsgTold(st: State, s: Side, j: nat)
    requires j < |st.Of(s).msgs|
  {
    st.Of(s).msgs[j].view.Time(s) == j && ToldBoth(st, Idle, st.Of(s).msgs[j].view)
  }

  /** A thread about to compare-and-swap holds the value of the newest store it has seen. */
  ghost predicate GateIs(st: State, op: Vop, v: View) {
    op.Cas? ==> var x, i := st.Of(Other(op.s)), v.Time(Other(op.s)); i < |x.msgs| && x.msgs[i].val == op.g
  }

  ghost predicate ThreadTold(st: State, th: Thread) { ToldBoth(st, th.op, th.view) && GateIs(st, th.op, th.view) }

  ghost predicate Exact(st: State) {
    && Inv(st) && (forall s, j :: 0 <= j < |st.Of(s).msgs| ==> MsgTold(st, s, j))
    && forall t <- st.th :: ThreadTold(st, st.th[t])
  }

  lemma SetKeepsExact(st: State, t: Tid, op: Vop, v: View)
    requires Exact(st) && Inv(st.Set(t, op, v)) && ThreadTold(st, Thread(op, v))
    ensures Exact(st.Set(t, op, v))
  {
    hide Inv, Told;
    var st' := st.Set(t, op, v);
    forall s, j | 0 <= j < |st'.Of(s).msgs| ensures MsgTold(st', s, j) { assert MsgTold(st, s, j); }
    forall u <- st'.th ensures ThreadTold(st', st'.th[u]) { assert u != t ==> ThreadTold(st, st.th[u]); }
  }

  lemma LocalKeepsExact(st: State, st': State, t: Tid, s: Side, n: nat, bulk: bool, h: nat)
    requires Exact(st) && Inv(st') && (Begin(st, st', t, s, n, bulk) || LoadHead(st, st', t, h) || CasFail(st, st', t))
    ensures Exact(st')
  {
    hide Inv;
    assert ThreadTold(st, st.th[t]);
    SetKeepsExact(st, t, st'.th[t].op, st'.th[t].view);
  }

  /** Acquiring a store, its knowledge is bounded by the newest store seen. */
  lemma AcquireTold(x: Half, s: Side, op: Vop, v: View, m: View, o: Side, j: nat)
    requires HalfOk(x, s) && Told(x, s, op, v) && Told(x, s, Idle, m) && (s == o ==> j < |x.msgs|)
    ensures Told(x, s, op, v.Join(m).At(o, j))
  {
    var w := v.Join(m).At(o, j);
    Acquire(v, m, o, j);
    assert s == o || s == Other(o);
    forall i <- w.Seen(s) ensures i < x.msgs[w.Time(s)].val || Mine(op, s, i) {
      assert x.msgs[v.Time(s)].val <= x.msgs[w.Time(s)].val && x.msgs[m.Time(s)].val <= x.msgs[w.Time(s)].val;
    }
  }

  lemma AcquireToldBoth(st: State, op: Vop, v: View, o: Side, j: nat)
    requires Exact(st) && ToldBoth(st, op, v) && j < |st.Of(o).msgs|
    ensures ToldBoth(st, op, v.Join(st.Of(o).msgs[j].view).At(o, j))
  {
    hide Inv, Told, HalfOk;
    assert MsgTold(st, o, j);
    HalfMsgs(st);
    assert HalfOk(st.Of(Prod), Prod) && HalfOk(st.Of(Cons), Cons);
    AcquireTold(st.prod, Prod, op, v, st.Of(o).msgs[j].view, o, j);
    AcquireTold(st.cons, Cons, op, v, st.Of(o).msgs[j].view, o, j);
  }

  lemma LoadGateKeepsExact(st: State, st': State, t: Tid, j: nat)
    requires Exact(st) && Inv(st') && LoadGate(st, st', t, j)
    ensures Exact(st')
  {
    hide Inv, Told, Width;
    var Thread(Snap(s, n, bulk, h), v) := st.th[t];
    var o, op' := Other(s), st'.th[t].op;
    assert ThreadTold(st, st.th[t]) && MsgTold(st, o, j);
    AcquireToldBoth(st, Snap(s, n, bulk, h), v, o, j);
    Acquire(v, st.Of(o).msgs[j].view, o, j);
    SameOwn(st, Snap(s, n, bulk, h), op', st'.th[t].view);
    SetKeepsExact(st, t, op', st'.th[t].view);
  }

  /** What a view has seen does not depend on where its thread stands. */
  lemma SameOwn(st: State, op: Vop, op': Vop, v: View)
    requires ToldBoth(st, op, v) && forall s, i :: Mine(op, s, i) ==> Mine(op', s, i)
    ensures ToldBoth(st, op', v)
  {
  }

  lemma TurnKeepsExact(st: State, st': State, t: Tid, j: nat)
    requires Exact(st) && Inv(st') && Turn(st, st', t, j)
    ensures Exact(st')
  {
    hide Inv, Told;
    var Thread(Work(s, lo, k, done), v) := st.th[t];
    assert ThreadTold(st, st.th[t]);
    AcquireToldBoth(st, st.th[t].op, v, s, j);
    SameOwn(st, st.th[t].op, st'.th[t].op, st'.th[t].view);
    SetKeepsExact(st, t, st'.th[t].op, st'.th[t].view);
  }

  /** One side and one thread move; the stores of that side stay or grow. */
  lemma HalfKeepsExact(st: State, s: Side, x': Half, t: Tid, op: Vop, v: View)
    requires var st' := st.With(s, x').Set(t, op, v);
      && Exact(st) && Inv(st') && st.Of(s).msgs <= x'.msgs && ThreadTold(st', Thread(op, v))
      && forall j :: |st.Of(s).msgs| <= j < |x'.msgs| ==> MsgTold(st', s, j)
    ensures Exact(st.With(s, x').Set(t, op, v))
  {
    hide Inv;
    var st' := st.With(s, x').Set(t, op, v);
    forall o, j | 0 <= j < |st'.Of(o).msgs| ensures MsgTold(st', o, j) {
      if o != s || j < |st.Of(s).msgs| { assert MsgTold(st, o, j); }
    }
    forall u <- st'.th ensures ThreadTold(st', st'.th[u]) { assert u != t ==> ThreadTold(st, st.th[u]); }
  }

  lemma CasOkKeepsExact(st: State, st': State, t: Tid)
    requires Exact(st) && Inv(st') && CasOk(st, st', t)
    ensures Exact(st')
  {
    hide Inv;
    var Thread(Cas(s, _, _, h, _, k), v) := st.th[t];
    assert ThreadTold(st, st.th[t]);
    HalfKeepsExact(st, s, Reserve(st.Of(s), t, k), t, Work(s, h, k, 0), v);
  }

  lemma SeeTold(x: Half, o: Side, s: Side, lo: nat, k: nat, done: nat, v: View)
    requires Told(x, o, Work(s, lo, k, done), v)
    ensures Told(x, o, Work(s, lo, k, done + 1), v.See(s, lo + done))
  {
    var w := v.See(s, lo + done);
    forall i <- w.Seen(o) ensures i < x.msgs[w.Time(o)].val || Mine(Work(s, lo, k, done + 1), o, i) {
      assert i in v.Seen(o) || (o == s && i == lo + done);
    }
  }

  lemma AccessKeepsExact(st: State, st': State, t: Tid)
    requires Exact(st) && Inv(st') && Access(st, st', t)
    ensures Exact(st')
  {
    hide Inv;
    var Thread(Work(s, lo, k, done), v) := st.th[t];
    assert ThreadTold(st, st.th[t]);
    SeeTold(st.prod, Prod, s, lo, k, done, v);
    SeeTold(st.cons, Cons, s, lo, k, done, v);
    HalfKeepsExact(st, s, st'.Of(s), t, Work(s, lo, k, done + 1), v.See(s, lo + done));
  }

  /** A store published in turn carries everything its thread has seen. */
  lemma StoreTold(x: Half, g: Half, s: Side, lo: nat, k: nat, v: View)
    requires Told(x, s, Commit(s, lo, k), v) && Told(g, Other(s), Commit(s, lo, k), v) && HalfOk(x, s) && Tail(x) == lo
    ensures var w := v.At(s, |x.msgs|);
      && w.Time(s) == |x.msgs| && w.Time(Other(s)) == v.Time(Other(s))
      && Told(x.(msgs := x.msgs + [Msg(lo + k, w)]), s, Idle, w) && Told(g, Other(s), Idle, w)
  {
    var w := v.At(s, |x.msgs|);
    assert forall o: Side :: w.Seen(o) == v.Seen(o);
    assert x.msgs[v.Time(s)].val <= lo;
  }

  lemma StoreKeepsExact(st: State, st': State, t: Tid, j: nat)
    requires Exact(st) && Inv(st') && Store(st, st', t, j)
    ensures Exact(st')
  {
    hide HalfOk, Told;
    var Thread(Commit(s, lo, k), v) := st.th[t];
    var x, m := st.Of(s), Msg(lo + k, v.At(s, j));
    assert ThreadTold(st, st.th[t]) && ThreadOk(st, t, st.th[t]) && HalfOk(x, s);
    assert j == |x.msgs| && x.msgs[..j] + [m] + x.msgs[j..] == x.msgs + [m];
    hide Inv;
    StoreTold(x, st.Of(Other(s)), s, lo, k, v);
    HalfKeepsExact(st, s, x.(msgs := x.msgs + [m]), t, Idle, v.At(s, j));
  }

  lemma StepKeepsExact(st: State, st': State, t: Tid)
    requires Exact(st) && StepBy(st, st', t)
    ensures Exact(st')
  {
    assert Inv(st);
    hide Begin, LoadHead, LoadGate, CasFail, CasOk, Access, Turn, Store, Inv, Exact;
    StepKeepsInv(st, st', t);
    if s: Side, n: nat, bulk: bool :| Begin(st, st', t, s, n, bulk) {
      LocalKeepsExact(st, st', t, s, n, bulk, 0);
    } else if h: nat :| LoadHead(st, st', t, h) {
      LocalKeepsExact(st, st', t, Prod, 0, false, h);
    } else if j: nat :| LoadGate(st, st', t, j) {
      LoadGateKeepsExact(st, st', t, j);
    } else if CasFail(st, st', t) {
      LocalKeepsExact(st, st', t, Prod, 0, false, 0);
    } else if CasOk(st, st', t) {
      CasOkKeepsExact(st, st', t);
    } else if Access(st, st', t) {
      AccessKeepsExact(st, st', t);
    } else if j: nat :| Turn(st, st', t, j) {
      TurnKeepsExact(st, st', t, j);
    } else {
      var j: nat :| Store(st, st', t, j);
      StoreKeepsExact(st, st', t, j);
    }
  }

  lemma {:induction false} RunExact(run: seq<State>, i: nat)
    requires Run(run) && i < |run|
    ensures Exact(run[i])
  {
    hide StepBy;
    if i == 0 {
      RunInv(run, 0);
    } else {
      RunExact(run, i - 1);
      assert Next(run[i - 1], run[i]);
      var t: Tid :| StepBy(run[i - 1], run[i], t);
      StepKeepsExact(run[i - 1], run[i], t);
    }
  }

  // ------------------------------------------------------------- theorems

  /** A reservation respects its gate exactly when its thread has seen every
      access of the other side it must come after: for a pop the writes of all
      indices it takes, for a push the reads that free its slots. */
  lemma FitIffSeen(run: seq<State>, i: nat, t: Tid)
    requires Run(run) && i < |run| && t in run[i].th && run[i].th[t].op.Cas?
    ensures var st, op, v := run[i], run[i].th[t].op, run[i].th[t].view;
      Fit(st.cap, op) <==> Below(v.Seen(Other(op.s)), op.h + op.k - Bound(op.s, st.cap))
  {
    hide Run, Inv;
    RunExact(run, i);
    AcquirerSeesAll(run, i, t);
    var st, op, v := run[i], run[i].th[t].op, run[i].th[t].view;
    assert ThreadTold(st, st.th[t]);
    assert Told(st.Of(Other(op.s)), Other(op.s), op, v);
    assert op.g !in v.Seen(Other(op.s));
  }

  /** Every access still to be made under a reservation is ordered. */
  ghost predicate RaceFreeAt(st: State) {
    forall t <- st.th :: st.th[t].op.Work? ==>
      forall x: nat :: st.th[t].op.lo + st.th[t].op.done <= x < st.th[t].op.lo + st.th[t].op.k ==>
        OrderedAccess(st, st.th[t].op.s, st.th[t].view, x)
  }

  /** A thread that has seen nothing at or beyond its gate has an unordered access beyond it. */
  lemma UnorderedBeyondGate(st: State, s: Side, lo: nat, k: nat, v: View, g: nat)
    requires st.cap > 0 && k > 0 && forall i <- v.Seen(Other(s)) :: i < g
    ensures lo + k > g + Bound(s, st.cap) ==> exists x: nat :: lo <= x < lo + k && !OrderedAccess(st, s, v, x)
  {
    if lo + k > g + Bound(s, st.cap) {
      var x := Max(lo, g + Bound(s, st.cap));
      if s == Prod { LapBefore(x, st.cap); }
      assert v.wr == v.Seen(Prod) && v.rd == v.Seen(Cons);
      assert !OrderedAccess(st, s, v, x);
    }
  }

  lemma LapBefore(x: nat, cap: nat)
    requires 0 < cap <= x
    ensures Shares(x - cap, x, cap)
  {
    var q, r := x / cap, x % cap;
    assert x - cap == (q - 1) * cap + r;
    ModUnique(x - cap, cap, q - 1, r);
  }

  /** A reservation whose accesses are all ordered respects its gate. */
  lemma OrderedReservationFits(run: seq<State>, i: nat, t: Tid)
    requires Run(run) && i + 1 < |run| && CasOk(run[i], run[i + 1], t) && RaceFreeAt(run[i + 1])
    ensures Fit(run[i].cap, run[i].th[t].op)
  {
    hide Run, Inv, OrderedAccess;
    RunExact(run, i);
    var st, st', op, v := run[i], run[i + 1], run[i].th[t].op, run[i].th[t].view;
    assert ThreadTold(st, st.th[t]) && Told(st.Of(Other(op.s)), Other(op.s), op, v);
    assert st.cap > 0 && op.k > 0 by { CasWidth(st, t); }
    assert st'.th[t] == Thread(Work(op.s, op.h, op.k, 0), v);
    UnorderedBeyondGate(st', op.s, op.h, op.k, v, op.g);
  }

  lemma CasWidth(st: State, t: Tid)
    requires Inv(st) && t in st.th && st.th[t].op.Cas?
    ensures st.cap > 0 && st.th[t].op.k > 0
  {
    assert ThreadOk(st, t, st.th[t]);
  }

  lemma OrderedFitStep(run: seq<State>, i: nat)
    requires Run(run) && i + 1 < |run| && RaceFreeAt(run[i + 1])
    ensures FitStep(run[i], run[i + 1])
  {
    hide Run, RaceFreeAt;
    forall t | CasOk(run[i], run[i + 1], t) ensures Fit(run[i].cap, run[i].th[t].op) {
      OrderedReservationFits(run, i, t);
    }
  }

  lemma FitOrders(run: seq<State>, i: nat)
    requires TidyRun(run) && i < |run|
    ensures RaceFreeAt(run[i])
  {
    hide TidyRun, OrderedAccess;
    var st := run[i];
    forall t, x: nat | t in st.th && st.th[t].op.Work?
                    && st.th[t].op.lo + st.th[t].op.done <= x < st.th[t].op.lo + st.th[t].op.k
      ensures OrderedAccess(st, st.th[t].op.s, st.th[t].view, x)
    {
      RaceFree(run, i, t, x);
    }
  }

  /** In an execution every access is ordered after every conflicting one if and
      only if every successful compare-and-swap respects the tail it was tested against. */
  lemma RaceFreeIffFit(run: seq<State>)
    requires Run(run)
    ensures TidyRun(run) <==> forall i :: 0 <= i < |run| ==> RaceFreeAt(run[i])
  {
    hide Run, RaceFreeAt, FitStep;
    if TidyRun(run) {
      forall i | 0 <= i < |run| ensures RaceFreeAt(run[i]) { FitOrders(run, i); }
    }
    if forall i :: 0 <= i < |run| ==> RaceFreeAt(run[i]) {
      forall i | 0 <= i < |run| - 1 ensures FitStep(run[i], run[i+1]) { OrderedFitStep(run, i); }
    }
  }

  /** Nobody reserves from a head that the acquired tail was behind. */
  ghost predicate FreshStep(st: State, st': State) {
    forall t :: CasOk(st, st', t) ==> Fresh(st.cap, st.th[t].op)
  }

  /** Data-race freedom, exactly: every access is ordered after every conflicting
      one if and only if no successful compare-and-swap started from a head that
      the tail acquired after it was behind. */
  lemma RaceFreeIffFresh(run: seq<State>)
    requires Run(run)
    ensures (forall i :: 0 <= i < |run| ==> RaceFreeAt(run[i]))
       <==> (forall i :: 0 <= i < |run| - 1 ==> FreshStep(run[i], run[i+1]))
  {
    hide Run, RaceFreeAt, FitStep, FreshStep;
    RaceFreeIffFit(run);
    if TidyRun(run) {
      forall i | 0 <= i < |run| - 1 ensures FreshStep(run[i], run[i+1]) {
        RunInv(run, i);
        FitFresh(run[i], run[i+1]);
      }
    }
    if forall i :: 0 <= i < |run| - 1 ==> FreshStep(run[i], run[i+1]) {
      forall i | 0 <= i < |run| - 1 ensures FitStep(run[i], run[i+1]) {
        FreshTidy(run, i);
        FreshFit(run[i], run[i+1]);
      }
    }
  }

  lemma FitFresh(st: State, st': State)
    requires Inv(st) && FitStep(st, st')
    ensures FreshStep(st, st')
  {
    hide Inv;
    forall t | CasOk(st, st', t) ensures Fresh(st.cap, st.th[t].op) { CasWidth(st, t); }
  }

  lemma FreshFit(st: State, st': State)
    requires Tidy(st) && FreshStep(st, st')
    ensures FitStep(st, st')
  {
    hide Tidy;
    forall t | CasOk(st, st', t) ensures Fit(st.cap, st.th[t].op) { CasFits(st, st', t); }
  }

  lemma {:induction false} FreshTidy(run: seq<State>, i: nat)
    requires Run(run) && i < |run| && forall j :: 0 <= j < |run| - 1 ==> FreshStep(run[j], run[j+1])
    ensures Tidy(run[i])
  {
    hide StepBy, FreshStep, FitStep, CasOk;
    if i == 0 {
      RunInv(run, 0);
      InitTidy(run[0]);
    } else {
      FreshTidy(run, i - 1);
      assert Next(run[i - 1], run[i]) && FreshStep(run[i - 1], run[i]);
      var t: Tid :| StepBy(run[i - 1], run[i], t);
      FreshFit(run[i - 1], run[i]);
      assert CasOk(run[i - 1], run[i], t) ==> Fit(run[i - 1].cap, run[i - 1].th[t].op) by {
        FitOf(run[i - 1], run[i], t);
      }
      StepKeepsTidy(run[i - 1], run[i], t);
    }
  }

  lemma FitOf(st: State, st': State, t: Tid)
    requires FitStep(st, st')
    ensures CasOk(st, st', t) ==> t in st.th && st.th[t].op.Cas? && Fit(st.cap, st.th[t].op)
  {
  }
}
