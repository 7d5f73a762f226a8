/** What release/acquire memory guarantees about the MPMC ring: what every
    published tail carries, and when slot accesses are free of data races. */
module RingViewTheorems {
  import opened Seqs
  import opened Sides
  import opened Wrap32
  import opened RingViews
  import Ring

  /** Every value t published on prod.tail (cons.tail) carries all slot writes
      (slot reads) of indices below t, whoever made them. */
  lemma PublishedCarriesAll(run: seq<State>, i: nat, s: Side, j: nat)
    requires Run(run) && i < |run| && j < |run[i].Of(s).msgs|
    ensures Below(run[i].Of(s).msgs[j].view.Seen(s), run[i].Of(s).msgs[j].val)
  {
    hide Run, OpOk;
    RunInv(run, i);
    HalfMsgs(run[i]);
  }

  /** A thread that acquired the other side's tail g has seen every access below g. */
  lemma AcquirerSeesAll(run: seq<State>, i: nat, t: Tid)
    requires Run(run) && i < |run| && t in run[i].th && run[i].th[t].op.Cas?
    ensures Below(run[i].th[t].view.Seen(Other(run[i].th[t].op.s)), run[i].th[t].op.g)
  {
    hide Run;
    RunInv(run, i);
    assert ThreadOk(run[i], t, run[i].th[t]);
  }

  /** A single operation reserves one index; a bulk one as many as asked for, or
      all that the 32-bit difference to the gate offers. */
  lemma WidestReservation(st: State, st': State, t: Tid, j: nat)
    requires LoadGate(st, st', t, j) && st'.th[t].op.Cas?
    ensures var op := st'.th[t].op;
      && op.n == st.th[t].op.n && op.bulk == st.th[t].op.bulk
      && if !op.bulk then op.k == 1 else op.k == op.n || (op.h + op.k - op.g - Bound(op.s, st.cap)) % WORD == 0
  {
    var op := st'.th[t].op;
    if op.bulk && op.k != op.n { assert op.k == (op.g + Bound(op.s, st.cap) - op.h) % WORD; }
  }

  // ------------------------------------------------------- tidy executions

  /** The reservation a compare-and-swap is about to make respects its gate. */
  ghost predicate Fit(cap: nat, op: Vop)
    requires op.Cas?
  {
    op.h + op.k <= op.g + Bound(op.s, cap)
  }

  ghost predicate FitStep(st: State, st': State) {
    forall t :: CasOk(st, st', t) ==> Fit(st.cap, st.th[t].op)
  }

  /** An execution in which every successful compare-and-swap fits. */
  ghost predicate TidyRun(run: seq<State>) {
    Run(run) && forall i :: 0 <= i < |run| - 1 ==> FitStep(run[i], run[i+1])
  }

  ghost predicate Knows(v: View, s: Side, lim: int) { Below(v.Seen(Other(s)), lim) && Below(v.wr, lim) }

  ghost predicate Asked(n: nat, bulk: bool) { 0 < n < WORD && (!bulk ==> n == 1) }

  ghost predicate TidyOp(cap: nat, op: Vop, v: View) {
    match op
    case Idle => true
    case Load(_, n, bulk) => Asked(n, bulk)
    case Snap(_, n, bulk, _) => Asked(n, bulk)
    case Cas(s, n, bulk, h, g, k) => Asked(n, bulk) && k == Width(s, n, bulk, cap, h, g) && Knows(v, s, g)
    case Work(s, lo, k, _) => Knows(v, s, lo + k - Bound(s, cap))
    case Commit(_, lo, k) => Below(v.wr, lo + k)
  }

  ghost predicate Cursors(st: State)
    requires |st.prod.msgs| > 0 && |st.cons.msgs| > 0
  {
    && 0 < st.cap < WORD
    && Tail(st.cons) <= st.cons.head <= Tail(st.prod) <= st.prod.head <= Tail(st.cons) + st.cap
    && (forall i <- st.prod.acc :: i < st.prod.head) && (forall i <- st.cons.acc :: i < st.cons.head)
  }

  ghost predicate Tidy(st: State) {
    && Inv(st) && Cursors(st)
    && (forall j :: 0 <= j < |st.cons.msgs| ==> Below(st.cons.msgs[j].view.wr, st.cons.msgs[j].val))
    && (forall t <- st.th :: TidyOp(st.cap, st.th[t].op, st.th[t].view))
  }

  lemma SetKeepsTidy(st: State, t: Tid, op: Vop, v: View)
    requires Tidy(st) && Inv(st.Set(t, op, v)) && TidyOp(st.cap, op, v)
    ensures Tidy(st.Set(t, op, v))
  {
    hide Inv, TidyOp, Below;
  }

  /** A step that reserves nothing and publishes nothing. */
  lemma LocalKeepsTidy(st: State, st': State, t: Tid, s: Side, n: nat, bulk: bool, h: nat)
    requires Tidy(st) && Inv(st') && (Begin(st, st', t, s, n, bulk) || LoadHead(st, st', t, h) || CasFail(st, st', t))
    ensures Tidy(st')
  {
    hide Inv, Cursors, Below, Width;
    assert TidyOp(st.cap, st.th[t].op, st.th[t].view);
    SetKeepsTidy(st, t, st'.th[t].op, st'.th[t].view);
  }

  lemma LoadGateKeepsTidy(st: State, st': State, t: Tid, j: nat)
    requires Tidy(st) && Inv(st') && LoadGate(st, st', t, j)
    ensures Tidy(st')
  {
    hide Inv, Cursors, Width;
    HalfMsgs(st);
    var Thread(Snap(s, n, bulk, h), v) := st.th[t];
    var m := st.Of(Other(s)).msgs[j];
    assert TidyOp(st.cap, st.th[t].op, v);
    Acquire(v, m.view, Other(s), j);
    assert Below(m.view.wr, m.val) && Below(m.view.Seen(Other(s)), m.val) by { MsgKnows(st, Other(s), j); }
    SetKeepsTidy(st, t, st'.th[t].op, st'.th[t].view);
  }

  lemma MsgKnows(st: State, s: Side, j: nat)
    requires Tidy(st) && j < |st.Of(s).msgs|
    ensures Below(st.Of(s).msgs[j].view.wr, st.Of(s).msgs[j].val)
    ensures Below(st.Of(s).msgs[j].view.Seen(s), st.Of(s).msgs[j].val)
  {
    hide Inv, Below, TidyOp;
    HalfMsgs(st);
    assert HalfOk(st.Of(s), s);
    assert st.Of(s).msgs[j].view.Seen(Prod) == st.Of(s).msgs[j].view.wr;
  }

  lemma TurnKeepsTidy(st: State, st': State, t: Tid, j: nat)
    requires Tidy(st) && Inv(st') && Turn(st, st', t, j)
    ensures Tidy(st')
  {
    hide Cursors, Width;
    var Thread(Work(s, lo, k, done), v) := st.th[t];
    var m := st.Of(s).msgs[j];
    assert TidyOp(st.cap, st.th[t].op, v) && ThreadOk(st', t, st'.th[t]);
    Acquire(v, m.view, s, j);
    SetKeepsTidy(st, t, st'.th[t].op, st'.th[t].view);
  }

  /** One side and one thread move. */
  lemma HalfKeepsTidy(st: State, s: Side, x': Half, t: Tid, op: Vop, v: View)
    requires var st' := st.With(s, x').Set(t, op, v); Tidy(st) && Inv(st') && Cursors(st') && TidyOp(st.cap, op, v)
    requires s == Cons ==> forall j :: 0 <= j < |x'.msgs| ==> Below(x'.msgs[j].view.wr, x'.msgs[j].val)
    ensures Tidy(st.With(s, x').Set(t, op, v))
  {
    hide Inv, TidyOp, Below, Cursors;
  }

  lemma CasOkKeepsTidy(st: State, st': State, t: Tid)
    requires Tidy(st) && Inv(st') && CasOk(st, st', t) && Fit(st.cap, st.th[t].op)
    ensures Tidy(st')
  {
    hide Width, HalfOk;
    var Thread(Cas(s, n, bulk, h, g, k), v) := st.th[t];
    assert TidyOp(st.cap, st.th[t].op, v) && ThreadOk(st, t, st.th[t]);
    HalfKeepsTidy(st, s, Reserve(st.Of(s), t, k), t, Work(s, h, k, 0), v);
  }

  lemma SeeKeepsKnows(v: View, s: Side, i: nat, lim: int)
    requires Knows(v, s, lim)
    ensures Knows(v.See(s, i), s, lim)
  {
    assert forall o: Side :: v.Seen(o) <= v.See(s, i).Seen(o);
  }

  lemma WorkBelowHead(st: State, t: Tid)
    requires Inv(st) && t in st.th && st.th[t].op.Work?
    ensures st.th[t].op.lo + st.th[t].op.k <= st.Of(st.th[t].op.s).head
  {
    assert ThreadOk(st, t, st.th[t]);
  }

  lemma AccessKeepsTidy(st: State, st': State, t: Tid)
    requires Tidy(st) && Inv(st') && Access(st, st', t)
    ensures Tidy(st')
  {
    hide HalfOk, Below, Knows, OpOk, Inv;
    var Thread(Work(s, lo, k, done), v) := st.th[t];
    var x := st.Of(s);
    assert TidyOp(st.cap, st.th[t].op, v);
    SeeKeepsKnows(v, s, lo + done, lo + k - Bound(s, st.cap));
    assert lo + done < x.head by { WorkBelowHead(st, t); }
    HalfKeepsTidy(st, s, x.(acc := x.acc + {lo + done}), t, Work(s, lo, k, done + 1), v.See(s, lo + done));
  }

  lemma StoreKeepsTidy(st: State, st': State, t: Tid, j: nat)
    requires Tidy(st) && Inv(st') && Store(st, st', t, j)
    ensures Tidy(st')
  {
    hide Width, HalfOk;
    var Thread(Commit(s, lo, k), v) := st.th[t];
    var x, m := st.Of(s), Msg(lo + k, v.At(s, j));
    assert TidyOp(st.cap, st.th[t].op, v) && ThreadOk(st, t, st.th[t]);
    assert j == |x.msgs| && x.msgs[..j] + [m] + x.msgs[j..] == x.msgs + [m] && m.view.wr == v.wr;
    HalfKeepsTidy(st, s, x.(msgs := x.msgs + [m]), t, Idle, v.At(s, j));
  }

  lemma StepKeepsTidy(st: State, st': State, t: Tid)
    requires Tidy(st) && StepBy(st, st', t) && (CasOk(st, st', t) ==> Fit(st.cap, st.th[t].op))
    ensures Tidy(st')
  {
    hide Begin, LoadHead, LoadGate, CasFail, CasOk, Access, Turn, Store, Inv, Tidy;
    assert Inv(st) by { TidyInv(st); }
    StepKeepsInv(st, st', t);
    if s: Side, n: nat, bulk: bool :| Begin(st, st', t, s, n, bulk) {
      LocalKeepsTidy(st, st', t, s, n, bulk, 0);
    } else if h: nat :| LoadHead(st, st', t, h) {
      LocalKeepsTidy(st, st', t, Prod, 0, false, h);
    } else if j: nat :| LoadGate(st, st', t, j) {
      LoadGateKeepsTidy(st, st', t, j);
    } else if CasFail(st, st', t) {
      LocalKeepsTidy(st, st', t, Prod, 0, false, 0);
    } else if CasOk(st, st', t) {
      CasOkKeepsTidy(st, st', t);
    } else if Access(st, st', t) {
      AccessKeepsTidy(st, st', t);
    } else if j: nat :| Turn(st, st', t, j) {
      TurnKeepsTidy(st, st', t, j);
    } else {
      var j: nat :| Store(st, st', t, j);
      StoreKeepsTidy(st, st', t, j);
    }
  }

  lemma TidyInv(st: State)
    requires Tidy(st)
    ensures Inv(st)
  {
  }

  lemma {:induction false} RunTidy(run: seq<State>, i: nat)
    requires TidyRun(run) && i < |run|
    ensures Tidy(run[i])
  {
    hide StepBy, CasOk;
    if i == 0 {
      RunInv(run, 0);
    } else {
      RunTidy(run, i - 1);
      assert Next(run[i - 1], run[i]);
      var t: Tid :| StepBy(run[i - 1], run[i], t);
      StepKeepsTidy(run[i - 1], run[i], t);
    }
  }

  // -------------------------------------------------------- data-race freedom

  predicate Shares(i: nat, j: nat, cap: nat) { cap > 0 && i % cap == j % cap }

  /** The access of index x by a thread of side s with view v is ordered after
      every conflicting one: a read comes after the write of x and finds no later
      write in the slot; a write comes after every earlier write and read of it. */
  ghost predicate OrderedAccess(st: State, s: Side, v: View, x: nat) {
    && (forall j <- st.prod.acc :: Shares(j, x, st.cap) ==> j <= x)
    && if s == Cons then x in v.wr
       else forall j: nat :: j < x && Shares(j, x, st.cap) ==> j in v.wr && j in v.rd
  }

  /** In a tidy execution every access still to be made under a reservation is ordered. */
  lemma RaceFree(run: seq<State>, i: nat, t: Tid, x: nat)
    requires TidyRun(run) && i < |run| && t in run[i].th && run[i].th[t].op.Work?
    requires run[i].th[t].op.lo + run[i].th[t].op.done <= x < run[i].th[t].op.lo + run[i].th[t].op.k
    ensures OrderedAccess(run[i], run[i].th[t].op.s, run[i].th[t].view, x)
  {
    hide TidyRun;
    RunTidy(run, i);
    var st, op, v := run[i], run[i].th[t].op, run[i].th[t].view;
    assert TidyOp(st.cap, op, v) && ThreadOk(st, t, st.th[t]);
    forall j <- st.prod.acc | Shares(j, x, st.cap) ensures j <= x {
      if x < j { Ring.SameSlot(x, j, st.cap); }
    }
    if op.s == Prod {
      forall j: nat | j < x && Shares(j, x, st.cap) ensures j in v.wr && j in v.rd {
        Ring.SameSlot(j, x, st.cap);
        assert v.rd == v.Seen(Cons);
      }
    }
  }

  // ---------------------------------------------- when an execution is tidy

  /** The acquired tail is not behind the head it gates. */
  ghost predicate Fresh(cap: nat, op: Vop) { op.Cas? ==> op.h < op.g + Bound(op.s, cap) }

  /** While gates are respected, a compare-and-swap that succeeds fits exactly
      when its snapshot is fresh; a single push fits unless it is 2^32 behind. */
  lemma FitIffFresh(st: State, t: Tid)
    requires Tidy(st) && t in st.th && st.th[t].op.Cas? && st.th[t].op.h == st.Of(st.th[t].op.s).head
    ensures var op := st.th[t].op; Fit(st.cap, op) <==> Fresh(st.cap, op)
    ensures var op := st.th[t].op; op.s == Prod && !op.bulk && op.h < op.g + WORD ==> Fit(st.cap, op)
  {
    var op := st.th[t].op;
    assert TidyOp(st.cap, op, st.th[t].view) && ThreadOk(st, t, st.th[t]);
    assert op.g + Bound(op.s, st.cap) - op.h <= st.cap;
    WrapSmall(op.g + Bound(op.s, st.cap) - op.h);
    WrapSmall(op.h - op.g);
  }

  lemma WrapSmall(d: int)
    ensures -1 * WORD < d < WORD ==> Wrap(d) == if d < 0 then d + WORD else d
  {
  }

  /** Every gate is read from the newest store, as under sequential consistency. */
  ghost predicate NewestRun(run: seq<State>) {
    Run(run) && forall i :: 0 <= i < |run| - 1 ==> NewestStep(run[i], run[i+1])
  }

  ghost predicate NewestStep(st: State, st': State) {
    forall t, j :: LoadGate(st, st', t, j) ==> j == |st.Of(Other(st.th[t].op.s)).msgs| - 1
  }

  /** A gate read from the newest store, after the head, is never behind. */
  lemma NewestIsFresh(st: State, st': State, t: Tid, j: nat)
    requires Tidy(st) && LoadGate(st, st', t, j) && j == |st.Of(Other(st.th[t].op.s)).msgs| - 1
    ensures Fresh(st.cap, st'.th[t].op)
  {
    assert ThreadOk(st, t, st.th[t]);
    WrapSmall(st.cap);
  }

  lemma StepKeepsFresh(st: State, st': State, t: Tid)
    requires Tidy(st) && StepBy(st, st', t)
    requires forall u <- st.th :: Fresh(st.cap, st.th[u].op)
    requires NewestStep(st, st')
    ensures st'.cap == st.cap && forall u <- st'.th :: Fresh(st.cap, st'.th[u].op)
  {
    hide Tidy, LoadGate;
    if j: nat :| LoadGate(st, st', t, j) {
      NewestIsFresh(st, st', t, j);
      LoadGateFrame(st, st', t, j);
    }
  }

  lemma LoadGateFrame(st: State, st': State, t: Tid, j: nat)
    requires LoadGate(st, st', t, j)
    ensures t in st.th && t in st'.th && st' == st.(th := st.th[t := st'.th[t]])
  {
  }

  lemma {:induction false} NewestRunFresh(run: seq<State>, i: nat)
    requires NewestRun(run) && i < |run|
    ensures Tidy(run[i]) && run[i].cap == run[0].cap && forall u <- run[i].th :: Fresh(run[0].cap, run[i].th[u].op)
  {
    hide StepBy, CasOk, LoadGate, Fresh;
    if i == 0 {
      RunInv(run, 0);
      InitTidy(run[0]);
    } else {
      NewestRunFresh(run, i - 1);
      var st, st' := run[i - 1], run[i];
      assert Next(st, st');
      var t: Tid :| StepBy(st, st', t);
      if CasOk(st, st', t) { CasFrame(st, st', t); CasFits(st, st', t); }
      StepKeepsTidy(st, st', t);
      StepKeepsFresh(st, st', t);
    }
  }

  lemma InitTidy(st: State)
    requires Init(st) && Inv(st)
    ensures Tidy(st) && forall u <- st.th :: Fresh(st.cap, st.th[u].op)
  {
  }

  lemma CasFits(st: State, st': State, t: Tid)
    requires Tidy(st) && CasOk(st, st', t) && Fresh(st.cap, st.th[t].op)
    ensures Fit(st.cap, st.th[t].op)
  {
    hide Inv, TidyOp;
    FitIffFresh(st, t);
  }

  /** Sequentially consistent loads give tidy, hence race-free, executions. */
  lemma NewestRunIsTidy(run: seq<State>)
    requires NewestRun(run)
    ensures TidyRun(run)
  {
    hide Run, FitStep, Fresh, Tidy;
    assert Run(run);
    forall i | 0 <= i < |run| - 1 ensures FitStep(run[i], run[i+1]) {
      NewestRunFresh(run, i);
      FreshFits(run[i], run[i+1]);
    }
  }

  lemma FreshFits(st: State, st': State)
    requires Tidy(st) && forall u <- st.th :: Fresh(st.cap, st.th[u].op)
    ensures FitStep(st, st')
  {
    hide Tidy;
    forall t | CasOk(st, st', t) ensures Fit(st.cap, st.th[t].op) { CasFits(st, st', t); }
  }

  lemma CasFrame(st: State, st': State, t: Tid)
    requires CasOk(st, st', t)
    ensures t in st.th && st.th[t].op.Cas?
  {
  }

  // --------------------------------------- an execution that is not tidy

  lemma Extend(run: seq<State>, st: State, t: Tid) returns (more: seq<State>)
    requires Run(run) && StepBy(Last(run), st, t)
    ensures Run(more) && |more| > 0 && Last(more) == st
  {
    hide Init, StepBy;
    more := run + [st];
    forall i | 0 <= i < |more| - 1 ensures Next(more[i], more[i+1]) {
      if i < |run| - 1 { assert Next(run[i], run[i+1]); } else { assert StepBy(more[i], more[i+1], t); }
    }
  }

  /** Three threads, a ring of two slots, thread 0 at `op` with view v. */
  function Small(prod: Half, op: Vop, v: View): State {
    State(2, prod, Half(0, [], [Msg(0, NOTHING)], {}),
          map[0 := Thread(op, v), 1 := Thread(Idle, NOTHING), 2 := Thread(Idle, NOTHING)])
  }

  lemma SmallMoves(prod: Half, op: Vop, v: View, prod': Half, op': Vop, v': View)
    ensures Small(prod, op, v).Set(0, op', v') == Small(prod, op', v')
    ensures Small(prod, op, v).With(Prod, prod').Set(0, op', v') == Small(prod', op', v')
  {
  }

  lemma OneReserve() returns (run: seq<State>)
    ensures Run(run) && |run| > 0
    ensures Last(run) == Small(Half(1, [0], [Msg(0, NOTHING)], {}), Work(Prod, 0, 1, 0), NOTHING)
  {
    var x := Half(0, [], [Msg(0, NOTHING)], {});
    var st := Small(x, Idle, NOTHING);
    run := [st];
    assert Run(run);
    hide Run;
    var st1, st2 := Small(x, Load(Prod, 1, false), NOTHING), Small(x, Snap(Prod, 1, false, 0), NOTHING);
    SmallMoves(x, Idle, NOTHING, x, Load(Prod, 1, false), NOTHING);
    assert Begin(st, st1, 0, Prod, 1, false);
    run := Extend(run, st1, 0);
    SmallMoves(x, Load(Prod, 1, false), NOTHING, x, Snap(Prod, 1, false, 0), NOTHING);
    assert LoadHead(st1, st2, 0, 0);
    run := Extend(run, st2, 0);
    var cas := Cas(Prod, 1, false, 0, 0, 1);
    var st3 := Small(x, cas, NOTHING);
    SmallMoves(x, Snap(Prod, 1, false, 0), NOTHING, x, cas, NOTHING);
    assert NOTHING.Join(NOTHING).At(Cons, 0) == NOTHING && LoadGate(st2, st3, 0, 0);
    run := Extend(run, st3, 0);
    var x' := Half(1, [0], [Msg(0, NOTHING)], {});
    SmallMoves(x, cas, NOTHING, x', Work(Prod, 0, 1, 0), NOTHING);
    assert x' == Reserve(x, 0, 1) && CasOk(st3, Small(x', Work(Prod, 0, 1, 0), NOTHING), 0);
    run := Extend(run, Small(x', Work(Prod, 0, 1, 0), NOTHING), 0);
  }

  /** One value pushed into the ring by thread 0. */
  lemma OnePush() returns (run: seq<State>)
    ensures Run(run) && |run| > 0
    ensures var w := View({0}, {}, 1, 0); Last(run) == Small(Half(1, [0], [Msg(0, NOTHING), Msg(1, w)], {0}), Idle, w)
  {
    hide Run;
    run := OneReserve();
    var ms := [Msg(0, NOTHING)];
    var v, w, x, x' := View({0}, {}, 0, 0), View({0}, {}, 1, 0), Half(1, [0], ms, {}), Half(1, [0], ms, {0});
    var st4, st5 := Small(x, Work(Prod, 0, 1, 0), NOTHING), Small(x', Work(Prod, 0, 1, 1), v);
    var st6 := Small(x', Commit(Prod, 0, 1), v);
    SmallMoves(x, Work(Prod, 0, 1, 0), NOTHING, x', Work(Prod, 0, 1, 1), v);
    assert NOTHING.See(Prod, 0) == v && Access(st4, st5, 0);
    run := Extend(run, st5, 0);
    SmallMoves(x', Work(Prod, 0, 1, 1), v, x', Commit(Prod, 0, 1), v);
    assert v.Join(NOTHING).At(Prod, 0) == v && Turn(st5, st6, 0, 0);
    run := Extend(run, st6, 0);
    var x'' := Half(1, [0], [Msg(0, NOTHING), Msg(1, w)], {0});
    SmallMoves(x', Commit(Prod, 0, 1), v, x'', Idle, w);
    assert ms[..1] + [Msg(1, w)] + ms[1..] == [Msg(0, NOTHING), Msg(1, w)] && v.At(Prod, 1) == w;
    assert Store(st6, Small(x'', Idle, w), 0, 1);
    run := Extend(run, Small(x'', Idle, w), 0);
  }

  /** A pop whose relaxed head load runs ahead of its acquire load of prod.tail
      passes the emptiness test and reserves an index nobody has written. */
  lemma StalePopRaces() returns (run: seq<State>)
    ensures Run(run) && |run| > 0 && Last(run).cap == 2 && 2 in Last(run).th && Last(run).prod.head == 1
    ensures Last(run).th[2] == Thread(Work(Cons, 1, 1, 0), NOTHING) && 1 !in Last(run).prod.acc
  {
    hide Run;
    run := OnePush();
    var st, x, w := Last(run), Half(0, [], [Msg(0, NOTHING)], {}), View({0}, {}, 1, 0);
    var st1 := st.Set(1, Load(Cons, 1, false), NOTHING);
    assert Begin(st, st1, 1, Cons, 1, false);
    run := Extend(run, st1, 1);
    var st2 := st1.Set(1, Snap(Cons, 1, false, 0), NOTHING);
    assert LoadHead(st1, st2, 1, 0);
    run := Extend(run, st2, 1);
    var st3 := st2.Set(1, Cas(Cons, 1, false, 0, 1, 1), w);
    assert NOTHING.Join(w).At(Prod, 1) == w && LoadGate(st2, st3, 1, 1);
    run := Extend(run, st3, 1);
    var st4 := st3.With(Cons, Reserve(x, 1, 1)).Set(1, Work(Cons, 0, 1, 0), w);
    assert CasOk(st3, st4, 1);
    run := Extend(run, st4, 1);
    var st5 := st4.Set(2, Load(Cons, 1, false), NOTHING);
    assert Begin(st4, st5, 2, Cons, 1, false);
    run := Extend(run, st5, 2);
    var st6 := st5.Set(2, Snap(Cons, 1, false, 1), NOTHING);
    assert LoadHead(st5, st6, 2, 1);
    run := Extend(run, st6, 2);
    var st7 := st6.Set(2, Cas(Cons, 1, false, 1, 0, 1), NOTHING);
    assert NOTHING.Join(NOTHING).At(Prod, 0) == NOTHING && LoadGate(st6, st7, 2, 0);
    run := Extend(run, st7, 2);
    var st8 := st7.With(Cons, Reserve(st7.cons, 2, 1)).Set(2, Work(Cons, 1, 1, 0), NOTHING);
    assert CasOk(st7, st8, 2);
    run := Extend(run, st8, 2);
  }
}
