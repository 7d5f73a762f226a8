/** The MPMC ring under release/acquire memory (sections 5.1.2.4 and 7.17.3 of
    ISO/IEC 9899:2011): relaxed loads of the head cursors may return any value
    the cursor has held, acquire loads of the tail cursors may return any store
    not older than one already seen, and only acquire loads pass knowledge on.

    Producers and consumers are two sides of one protocol: a side reserves by
    compare-and-swap on its head against the other side's tail, accesses its
    slots, waits for its turn on its own tail and publishes. */
module RingViews {
  import opened Sides
  import opened Wrap32

  type Tid = nat

  /** What a thread, or a store, knows: the slot writes and slot reads that
      happen before it, and the newest store of each tail it has seen. */
  datatype View = View(wr: set<nat>, rd: set<nat>, tp: nat, tc: nat)
  {
    function Seen(s: Side): set<nat> { if s == Prod then wr else rd }
    function Time(s: Side): nat { if s == Prod then tp else tc }
    function See(s: Side, i: nat): View { if s == Prod then this.(wr := wr + {i}) else this.(rd := rd + {i}) }
    function At(s: Side, j: nat): View { if s == Prod then this.(tp := Max(tp, j)) else this.(tc := Max(tc, j)) }
    function Join(v: View): View { View(wr + v.wr, rd + v.rd, Max(tp, v.tp), Max(tc, v.tc)) }
  }

  /** A store of a tail cursor: its value and the view it releases. */
  datatype Msg = Msg(val: nat, view: View)

  /** One side: the head cursor, who reserved each index, all stores of the
      tail in modification order, and the indices accessed so far. */
  datatype Half = Half(head: nat, owner: seq<Tid>, msgs: seq<Msg>, acc: set<nat>)

  datatype Vop =
    | Idle
    | Load(s: Side, n: nat, bulk: bool)
    | Snap(s: Side, n: nat, bulk: bool, h: nat)
    | Cas(s: Side, n: nat, bulk: bool, h: nat, g: nat, k: nat)
    | Work(s: Side, lo: nat, k: nat, done: nat)
    | Commit(s: Side, lo: nat, k: nat)

  datatype Thread = Thread(op: Vop, view: View)

  datatype State = State(cap: nat, prod: Half, cons: Half, th: map<Tid, Thread>)
  {
    function Of(s: Side): Half { if s == Prod then prod else cons }
    function With(s: Side, h: Half): State { if s == Prod then this.(prod := h) else this.(cons := h) }
    function Set(t: Tid, op: Vop, v: View): State { this.(th := th[t := Thread(op, v)]) }
  }

  /** A difference of cursors as the code computes it, in 32 bits. */
  function Wrap(d: int): nat { d % WORD }

  /** The reservation width a snapshot offers; 0 means refused.  A single push
      compares the difference with the capacity, a single pop only tests for
      equality, and the bulk forms clamp to the wrapped difference. */
  function Width(s: Side, n: nat, bulk: bool, cap: nat, h: nat, g: nat): nat {
    if bulk then Min(n, Wrap(g + Bound(s, cap) - h))
    else if s == Prod then (if Wrap(h - g) >= cap then 0 else 1)
    else if g == h then 0 else 1
  }

  const NOTHING := View({}, {}, 0, 0)

  ghost predicate Init(st: State) {
    && 0 < st.cap < WORD && st.prod == st.cons == Half(0, [], [Msg(0, NOTHING)], {})
    && forall t <- st.th :: st.th[t] == Thread(Idle, NOTHING)
  }

  // ------------------------------------------------------------------ steps

  ghost predicate Begin(st: State, st': State, t: Tid, s: Side, n: nat, bulk: bool) {
    && t in st.th && st.th[t].op.Idle? && 0 < n < WORD && (!bulk ==> n == 1)
    && st' == st.Set(t, Load(s, n, bulk), st.th[t].view)
  }

  /** Relaxed load of the own head. */
  ghost predicate LoadHead(st: State, st': State, t: Tid, h: nat) {
    && t in st.th && st.th[t].op.Load?
    && var Thread(Load(s, n, bulk), v) := st.th[t];
       h <= st.Of(s).head && st' == st.Set(t, Snap(s, n, bulk, h), v)
  }

  /** Acquire load of the other side's tail: reads its j-th store. */
  ghost predicate LoadGate(st: State, st': State, t: Tid, j: nat) {
    && t in st.th && st.th[t].op.Snap?
    && var Thread(Snap(s, n, bulk, h), v) := st.th[t];
       && v.Time(Other(s)) <= j < |st.Of(Other(s)).msgs|
       && var m := st.Of(Other(s)).msgs[j];
          var k := Width(s, n, bulk, st.cap, h, m.val);
          st' == st.Set(t, if k == 0 then Idle else Cas(s, n, bulk, h, m.val, k), v.Join(m.view).At(Other(s), j))
  }

  /** The weak compare-and-swap, relaxed: it carries no view. */
  ghost predicate CasFail(st: State, st': State, t: Tid) {
    && t in st.th && st.th[t].op.Cas?
    && var Thread(Cas(s, n, bulk, _, _, _), v) := st.th[t]; st' == st.Set(t, Load(s, n, bulk), v)
  }

  ghost predicate CasOk(st: State, st': State, t: Tid) {
    && t in st.th && st.th[t].op.Cas?
    && var Thread(Cas(s, _, _, h, _, k), v) := st.th[t];
       && h == st.Of(s).head
       && st' == st.With(s, Reserve(st.Of(s), t, k)).Set(t, Work(s, h, k, 0), v)
  }

  function Reserve(x: Half, t: Tid, k: nat): Half { x.(head := x.head + k, owner := x.owner + seq(k, _ => t)) }

  /** Phase 2: write or read the next reserved slot. */
  ghost predicate Access(st: State, st': State, t: Tid) {
    && t in st.th && st.th[t].op.Work?
    && var Thread(Work(s, lo, k, done), v) := st.th[t];
       && done < k
       && st' == st.With(s, st.Of(s).(acc := st.Of(s).acc + {lo + done}))
                   .Set(t, Work(s, lo, k, done + 1), v.See(s, lo + done))
  }

  /** Phase 3: one acquire load of the own tail in the waiting loop. */
  ghost predicate Turn(st: State, st': State, t: Tid, j: nat) {
    && t in st.th && st.th[t].op.Work?
    && var Thread(Work(s, lo, k, done), v) := st.th[t];
       && done == k && v.Time(s) <= j < |st.Of(s).msgs|
       && var m := st.Of(s).msgs[j];
          st' == st.Set(t, if m.val == lo then Commit(s, lo, k) else st.th[t].op, v.Join(m.view).At(s, j))
  }

  /** The release store: anywhere in modification order after the stores seen. */
  ghost predicate Store(st: State, st': State, t: Tid, j: nat) {
    && t in st.th && st.th[t].op.Commit?
    && var Thread(Commit(s, lo, k), v) := st.th[t];
       && v.Time(s) < j <= |st.Of(s).msgs|
       && var x := st.Of(s);
          st' == st.With(s, x.(msgs := x.msgs[..j] + [Msg(lo + k, v.At(s, j))] + x.msgs[j..])).Set(t, Idle, v.At(s, j))
  }

  ghost predicate StepBy(st: State, st': State, t: Tid) {
    || (exists s, n, bulk :: Begin(st, st', t, s, n, bulk))
    || (exists h :: LoadHead(st, st', t, h))
    || (exists j :: LoadGate(st, st', t, j))
    || CasFail(st, st', t) || CasOk(st, st', t) || Access(st, st', t)
    || (exists j :: Turn(st, st', t, j))
    || (exists j :: Store(st, st', t, j))
  }

  ghost predicate Next(st: State, st': State) { exists t: Tid :: StepBy(st, st', t) }

  ghost predicate Run(run: seq<State>) {
    |run| > 0 && Init(run[0]) && forall i :: 0 <= i < |run| - 1 ==> Next(run[i], run[i+1])
  }

  // -------------------------------------------------------------- invariant

  ghost predicate Below(xs: set<nat>, t: int) { forall i: nat :: i < t ==> i in xs }

  function Tail(x: Half): nat requires |x.msgs| > 0 { x.msgs[|x.msgs| - 1].val }

  /** The stores of a tail increase, and each carries every access below its value. */
  ghost predicate HalfOk(x: Half, s: Side) {
    && |x.msgs| > 0 && |x.owner| == x.head && Tail(x) <= x.head
    && (forall i, j :: 0 <= i < j < |x.msgs| ==> x.msgs[i].val < x.msgs[j].val)
    && (forall j :: 0 <= j < |x.msgs| ==> Below(x.msgs[j].view.Seen(s), x.msgs[j].val))
  }

  ghost predicate ViewOk(st: State, v: View) { v.tp < |st.prod.msgs| && v.tc < |st.cons.msgs| }

  ghost predicate Holds(x: Half, t: Tid, lo: nat, k: nat) {
    k > 0 && lo + k <= x.head == |x.owner| && forall i :: lo <= i < lo + k ==> x.owner[i] == t
  }

  ghost predicate OpOk(x: Half, g: Half, t: Tid, op: Vop, v: View)
    requires |x.msgs| > 0 && |g.msgs| > 0
  {
    match op
    case Snap(_, _, _, h) => h <= x.head
    case Cas(s, n, bulk, _, gv, k) => k > 0 && gv <= Tail(g) && Below(v.Seen(Other(s)), gv)
    case Work(s, lo, k, done) =>
      Tail(x) <= lo && Holds(x, t, lo, k) && done <= k && forall i :: lo <= i < lo + done ==> i in v.Seen(s)
    case Commit(s, lo, k) =>
      Tail(x) == lo && Holds(x, t, lo, k) && v.Time(s) == |x.msgs| - 1 && Below(v.Seen(s), lo + k)
    case _ => true
  }

  ghost predicate ThreadOk(st: State, t: Tid, th: Thread)
    requires |st.prod.msgs| > 0 && |st.cons.msgs| > 0
  {
    && ViewOk(st, th.view)
    && (!th.op.Idle? ==> OpOk(st.Of(th.op.s), st.Of(Other(th.op.s)), t, th.op, th.view))
  }

  ghost predicate Inv(st: State) {
    && st.cap > 0 && HalfOk(st.prod, Prod) && HalfOk(st.cons, Cons)
    && (forall j :: 0 <= j < |st.prod.msgs| ==> ViewOk(st, st.prod.msgs[j].view))
    && (forall j :: 0 <= j < |st.cons.msgs| ==> ViewOk(st, st.cons.msgs[j].view))
    && forall t <- st.th :: ThreadOk(st, t, st.th[t])
  }

  // ------------------------------------------------------------ preservation

  lemma SetKeepsInv(st: State, t: Tid, op: Vop, v: View)
    requires Inv(st) && ThreadOk(st, t, Thread(op, v))
    ensures Inv(st.Set(t, op, v))
  {
    hide HalfOk, OpOk;
    var st' := st.Set(t, op, v);
    forall u <- st'.th ensures ThreadOk(st', u, st'.th[u]) { assert u != t ==> ThreadOk(st, u, st.th[u]); }
  }

  /** Acquiring a store adds its knowledge and forgets nothing. */
  lemma Acquire(v: View, m: View, o: Side, j: nat)
    ensures var w := v.Join(m).At(o, j);
      && (forall s: Side :: w.Seen(s) == v.Seen(s) + m.Seen(s))
      && w.Time(o) == Max(j, Max(v.Time(o), m.Time(o))) && w.Time(Other(o)) == Max(v.Time(Other(o)), m.Time(Other(o)))
  {
  }

  lemma LoadGateKeepsInv(st: State, st': State, t: Tid, j: nat)
    requires Inv(st) && LoadGate(st, st', t, j)
    ensures Inv(st')
  {
    hide Width;
    assert ThreadOk(st, t, st.th[t]);
    SetKeepsInv(st, t, st'.th[t].op, st'.th[t].view);
  }

  /** Whoever reads its turn reads the newest store. */
  lemma TurnIsLast(x: Half, s: Side, j: nat, lo: nat)
    requires HalfOk(x, s) && j < |x.msgs| && x.msgs[j].val == lo && Tail(x) <= lo
    ensures j == |x.msgs| - 1
  {
  }

  lemma TurnOp(x: Half, g: Half, t: Tid, s: Side, lo: nat, k: nat, v: View, j: nat)
    requires HalfOk(x, s) && |g.msgs| > 0 && OpOk(x, g, t, Work(s, lo, k, k), v) && j < |x.msgs|
    requires v.Time(s) < |x.msgs| && x.msgs[j].view.Time(s) < |x.msgs|
    ensures var w := v.Join(x.msgs[j].view).At(s, j);
      OpOk(x, g, t, Work(s, lo, k, k), w) && (x.msgs[j].val == lo ==> OpOk(x, g, t, Commit(s, lo, k), w))
  {
    hide Holds;
    Acquire(v, x.msgs[j].view, s, j);
    if x.msgs[j].val == lo { TurnIsLast(x, s, j, lo); }
    assert forall i: nat :: i < lo + k ==> i in x.msgs[j].view.Seen(s) || x.msgs[j].val <= i;
  }

  lemma TurnKeepsInv(st: State, st': State, t: Tid, j: nat)
    requires Inv(st) && Turn(st, st', t, j)
    ensures Inv(st')
  {
    hide OpOk, HalfOk;
    var Thread(Work(s, lo, k, done), v) := st.th[t];
    assert ThreadOk(st, t, st.th[t]);
    assert HalfOk(st.Of(s), s) && |st.Of(Other(s)).msgs| > 0 by { HalfMsgs(st); }
    TurnOp(st.Of(s), st.Of(Other(s)), t, s, lo, k, v, j);
    SetKeepsInv(st, t, st'.th[t].op, st'.th[t].view);
  }

  lemma HalfMsgs(st: State)
    requires Inv(st)
    ensures forall s :: HalfOk(st.Of(s), s) && |st.Of(s).msgs| > 0
  {
  }

  /** A thread's place against side s = x and the other side = g. */
  ghost predicate Fits(s: Side, x: Half, g: Half, u: Tid, th: Thread)
    requires |x.msgs| > 0 && |g.msgs| > 0
  {
    !th.op.Idle? ==> if th.op.s == s then OpOk(x, g, u, th.op, th.view) else OpOk(g, x, u, th.op, th.view)
  }

  ghost predicate Dated(s: Side, x: Half, g: Half, v: View) { v.Time(s) < |x.msgs| && v.Time(Other(s)) < |g.msgs| }

  /** One side and one thread move; everybody else still fits. */
  lemma HalfMoves(st: State, s: Side, x': Half, t: Tid, op: Vop, v: View)
    requires Inv(st) && HalfOk(x', s) && |st.Of(s).msgs| <= |x'.msgs| && |st.Of(Other(s)).msgs| > 0
    requires forall j :: 0 <= j < |x'.msgs| ==> Dated(s, x', st.Of(Other(s)), x'.msgs[j].view)
    requires Dated(s, x', st.Of(Other(s)), v) && Fits(s, x', st.Of(Other(s)), t, Thread(op, v))
    requires forall u <- st.th :: u != t ==> Fits(s, x', st.Of(Other(s)), u, st.th[u])
    ensures Inv(st.With(s, x').Set(t, op, v))
  {
    hide OpOk, HalfOk;
    var st' := st.With(s, x').Set(t, op, v);
    assert HalfOk(st'.prod, Prod) && HalfOk(st'.cons, Cons);
    forall u <- st'.th ensures ThreadOk(st', u, st'.th[u]) {
      if u != t { assert ThreadOk(st, u, st.th[u]) && Fits(s, x', st.Of(Other(s)), u, st.th[u]); }
    }
  }

  lemma FitsNow(st: State, s: Side, u: Tid)
    requires Inv(st) && u in st.th
    ensures |st.Of(s).msgs| > 0 && |st.Of(Other(s)).msgs| > 0 && HalfOk(st.Of(s), s)
    ensures Fits(s, st.Of(s), st.Of(Other(s)), u, st.th[u]) && Dated(s, st.Of(s), st.Of(Other(s)), st.th[u].view)
    ensures forall j :: 0 <= j < |st.Of(s).msgs| ==> Dated(s, st.Of(s), st.Of(Other(s)), st.Of(s).msgs[j].view)
  {
    hide OpOk;
    assert ThreadOk(st, u, st.th[u]);
  }

  lemma ReserveKeepsFit(s: Side, x: Half, g: Half, t: Tid, k: nat, u: Tid, th: Thread)
    requires |x.msgs| > 0 && |g.msgs| > 0 && Fits(s, x, g, u, th) && |x.owner| == x.head
    ensures Fits(s, Reserve(x, t, k), g, u, th)
  {
  }

  lemma CasOkKeepsInv(st: State, st': State, t: Tid)
    requires Inv(st) && CasOk(st, st', t)
    ensures Inv(st')
  {
    var Thread(Cas(s, n, bulk, h, gv, k), v) := st.th[t];
    var x, g := st.Of(s), st.Of(Other(s));
    var x' := Reserve(x, t, k);
    FitsNow(st, s, t);
    assert HalfOk(x', s) && Fits(s, x', g, t, Thread(Work(s, h, k, 0), v));
    hide OpOk, HalfOk, Inv;
    forall u <- st.th | u != t ensures Fits(s, x', g, u, st.th[u]) {
      FitsNow(st, s, u);
      ReserveKeepsFit(s, x, g, t, k, u, st.th[u]);
    }
    HalfMoves(st, s, x', t, Work(s, h, k, 0), v);
  }

  lemma AccessKeepsInv(st: State, st': State, t: Tid)
    requires Inv(st) && Access(st, st', t)
    ensures Inv(st')
  {
    hide Inv;
    var Thread(Work(s, lo, k, done), v) := st.th[t];
    var x, g, v' := st.Of(s), st.Of(Other(s)), v.See(s, lo + done);
    var x' := x.(acc := x.acc + {lo + done});
    FitsNow(st, s, t);
    assert v'.Seen(s) == v.Seen(s) + {lo + done} && v'.Time(s) == v.Time(s) && v'.Time(Other(s)) == v.Time(Other(s));
    assert HalfOk(x', s) && Fits(s, x', g, t, Thread(Work(s, lo, k, done + 1), v'));
    forall u <- st.th | u != t ensures Fits(s, x', g, u, st.th[u]) { FitsNow(st, s, u); }
    HalfMoves(st, s, x', t, Work(s, lo, k, done + 1), v');
  }

  /** A store made in turn is the newest, and moves no other thread's turn into the past. */
  lemma StoreKeepsFit(s: Side, x: Half, g: Half, t: Tid, lo: nat, k: nat, m: Msg, u: Tid, th: Thread)
    requires |x.msgs| > 0 && |g.msgs| > 0 && u != t && Tail(x) == lo && Holds(x, t, lo, k) && m.val == lo + k
    requires Fits(s, x, g, u, th)
    ensures Fits(s, x.(msgs := x.msgs + [m]), g, u, th)
  {
    if (th.op.Work? || th.op.Commit?) && th.op.s == s { assert x.owner[th.op.lo] == u; }
  }

  lemma StoreKeepsHalf(x: Half, s: Side, lo: nat, k: nat, m: Msg)
    requires HalfOk(x, s) && Tail(x) == lo && k > 0 && lo + k <= x.head
    requires m.val == lo + k && Below(m.view.Seen(s), m.val)
    ensures HalfOk(x.(msgs := x.msgs + [m]), s)
  {
  }

  lemma StoreKeepsInv(st: State, st': State, t: Tid, j: nat)
    requires Inv(st) && Store(st, st', t, j)
    ensures Inv(st')
  {
    hide Inv;
    var Thread(Commit(s, lo, k), v) := st.th[t];
    var x, g, m := st.Of(s), st.Of(Other(s)), Msg(lo + k, v.At(s, j));
    FitsNow(st, s, t);
    assert OpOk(x, g, t, Commit(s, lo, k), v);
    assert j == |x.msgs| && x.msgs[..j] + [m] + x.msgs[j..] == x.msgs + [m];
    assert m.view.Seen(s) == v.Seen(s) && m.view.Time(s) == j && m.view.Time(Other(s)) == v.Time(Other(s));
    StoreKeepsHalf(x, s, lo, k, m);
    var x' := x.(msgs := x.msgs + [m]);
    hide OpOk, HalfOk, Holds, Below;
    forall u <- st.th | u != t ensures Fits(s, x', g, u, st.th[u]) {
      FitsNow(st, s, u);
      StoreKeepsFit(s, x, g, t, lo, k, m, u, st.th[u]);
    }
    HalfMoves(st, s, x', t, Idle, v.At(s, j));
  }

  lemma StepKeepsInv(st: State, st': State, t: Tid)
    requires Inv(st) && StepBy(st, st', t)
    ensures Inv(st')
  {
    hide Begin, LoadHead, LoadGate, CasFail, CasOk, Access, Turn, Store, Inv;
    if s: Side, n: nat, bulk: bool :| Begin(st, st', t, s, n, bulk) {
      BeginKeepsInv(st, st', t, s, n, bulk);
    } else if h: nat :| LoadHead(st, st', t, h) {
      LoadHeadKeepsInv(st, st', t, h);
    } else if j: nat :| LoadGate(st, st', t, j) {
      LoadGateKeepsInv(st, st', t, j);
    } else if CasFail(st, st', t) {
      CasFailKeepsInv(st, st', t);
    } else if CasOk(st, st', t) {
      CasOkKeepsInv(st, st', t);
    } else if Access(st, st', t) {
      AccessKeepsInv(st, st', t);
    } else if j: nat :| Turn(st, st', t, j) {
      TurnKeepsInv(st, st', t, j);
    } else {
      var j: nat :| Store(st, st', t, j);
      StoreKeepsInv(st, st', t, j);
    }
  }

  lemma BeginKeepsInv(st: State, st': State, t: Tid, s: Side, n: nat, bulk: bool)
    requires Inv(st) && Begin(st, st', t, s, n, bulk)
    ensures Inv(st')
  {
    assert ThreadOk(st, t, st.th[t]);
    SetKeepsInv(st, t, st'.th[t].op, st'.th[t].view);
  }

  lemma LoadHeadKeepsInv(st: State, st': State, t: Tid, h: nat)
    requires Inv(st) && LoadHead(st, st', t, h)
    ensures Inv(st')
  {
    assert ThreadOk(st, t, st.th[t]);
    SetKeepsInv(st, t, st'.th[t].op, st'.th[t].view);
  }

  lemma CasFailKeepsInv(st: State, st': State, t: Tid)
    requires Inv(st) && CasFail(st, st', t)
    ensures Inv(st')
  {
    assert ThreadOk(st, t, st.th[t]);
    SetKeepsInv(st, t, st'.th[t].op, st'.th[t].view);
  }

  lemma {:induction false} RunInv(run: seq<State>, i: nat)
    requires Run(run) && i < |run|
    ensures Inv(run[i])
  {
    hide StepBy;
    if i > 0 {
      RunInv(run, i - 1);
      assert Next(run[i - 1], run[i]);
      var t: Tid :| StepBy(run[i - 1], run[i], t);
      StepKeepsInv(run[i - 1], run[i], t);
    }
  }
}
