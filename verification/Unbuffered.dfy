/** An unbuffered channel: every operation meets its peer directly, under the
    lock.  One locked section is one step; any number of threads. */
module Unbuffered {
  import opened Results
  import opened Seqs

  type Tid = nat

  datatype Kind = Send | Recv

  datatype Mode = Try | Timed | Forever

  /** Request n of thread t. */
  datatype Id = Id(t: Tid, n: nat)

  datatype Pc = Rest | Entering | Parked | Expired

  /** A thread and its current request; `val` is the value to send or received. */
  datatype Thread<V> = Thread(pc: Pc, n: nat, kind: Kind, mode: Mode, val: Option<V>, res: Option<Result>)

  /** A completed rendezvous, as seen by one of its two requests. */
  datatype Mate<V> = Mate(who: Id, kind: Kind, val: V)

  /** A returned request. */
  datatype Done<V> = Done(id: Id, kind: Kind, mode: Mode, val: Option<V>, res: Result)

  datatype State<V> = State(sendq: seq<Tid>, recvq: seq<Tid>, closed: bool, th: map<Tid, Thread<V>>,
                            mate: map<Id, Mate<V>>, done: seq<Done<V>>)
  {
    function Queue(k: Kind): seq<Tid> { if k == Send then sendq else recvq }
    function SetQueue(k: Kind, q: seq<Tid>): State<V> { if k == Send then this.(sendq := q) else this.(recvq := q) }
  }

  function Peer(k: Kind): Kind { if k == Send then Recv else Send }

  ghost predicate Init<V>(st: State<V>) {
    && st.sendq == [] && st.recvq == [] && !st.closed && st.mate == map[] && st.done == []
    && forall t <- st.th :: st.th[t] == Thread(Rest, 0, Send, Try, None, None)
  }

  // ------------------------------------------------------------------ steps

  ghost predicate Begin<V>(st: State<V>, st': State<V>, t: Tid, k: Kind, mode: Mode, val: Option<V>) {
    && t in st.th && st.th[t].pc == Rest && (k == Send <==> val.Some?)
    && st' == st.(th := st.th[t := Thread(Entering, st.th[t].n, k, mode, val, None)])
  }

  /** The request returns. */
  function Finish<V>(st: State<V>, t: Tid, val: Option<V>, res: Result): State<V>
    requires t in st.th
  {
    var x := st.th[t];
    st.(th := st.th[t := Thread(Rest, x.n + 1, Send, Try, None, None)],
        done := st.done + [Done(Id(t, x.n), x.kind, x.mode, val, res)])
  }

  /** Thread t, entering, meets the waiter u: the value passes from the sender to the receiver. */
  function Meet<V>(st: State<V>, t: Tid, u: Tid, v: V): State<V>
    requires t in st.th && u in st.th
  {
    var x, y := st.th[t], st.th[u];
    var a, b := Id(t, x.n), Id(u, y.n);
    st.SetQueue(y.kind, st.Queue(y.kind)[if st.Queue(y.kind) == [] then 0 else 1..])
      .(th := st.th[u := y.(res := Some(Ok), val := Some(v))],
        mate := st.mate[a := Mate(b, x.kind, v)][b := Mate(a, y.kind, v)])
  }

  function Value<V>(x: Thread<V>, y: Thread<V>): Option<V> { if x.kind == Send then x.val else y.val }

  /** The locked section of a send or a receive.  A sender looks at the flag
      first; a receiver takes a waiting sender even on a closed channel. */
  ghost predicate Enter<V>(st: State<V>, st': State<V>, t: Tid) {
    && t in st.th && st.th[t].pc == Entering
    && var x := st.th[t];
       var q := st.Queue(Peer(x.kind));
       if x.kind == Send && st.closed then st' == Finish(st, t, x.val, Closed)
       else if q != [] then
         && q[0] in st.th && Value(x, st.th[q[0]]).Some?
         && var v := Value(x, st.th[q[0]]).value; st' == Finish(Meet(st, t, q[0], v), t, Some(v), Ok)
       else if st.closed then st' == Finish(st, t, x.val, Closed)
       else if x.mode == Try then st' == Finish(st, t, x.val, WouldBlock)
       else st' == st.SetQueue(x.kind, st.Queue(x.kind) + [t]).(th := st.th[t := x.(pc := Parked)])
  }

  ghost predicate Woken<V>(st: State<V>, st': State<V>, t: Tid) {
    && t in st.th && st.th[t].pc == Parked && st.th[t].res.Some?
    && st' == Finish(st, t, st.th[t].val, st.th[t].res.value)
  }

  ghost predicate Expire<V>(st: State<V>, st': State<V>, t: Tid) {
    && t in st.th && st.th[t].pc == Parked && st.th[t].mode == Timed
    && st' == st.(th := st.th[t := st.th[t].(pc := Expired)])
  }

  /** The timeout path unlinks the waiter and reports a timeout, whether or not
      it was still linked. */
  ghost predicate GiveUp<V>(st: State<V>, st': State<V>, t: Tid) {
    && t in st.th && st.th[t].pc == Expired
    && st' == Finish(st.SetQueue(st.th[t].kind, Without(st.Queue(st.th[t].kind), t)), t, st.th[t].val, Timeout)
  }

  ghost predicate Close<V>(st: State<V>, st': State<V>) {
    && !st.closed
    && st' == st.(sendq := [], recvq := [], closed := true,
                  th := map t | t in st.th ::
                          if t in st.sendq || t in st.recvq then st.th[t].(res := Some(Closed)) else st.th[t])
  }

  ghost predicate StepBy<V>(st: State<V>, st': State<V>, t: Tid) {
    Enter(st, st', t) || Woken(st, st', t) || Expire(st, st', t) || GiveUp(st, st', t)
  }

  /** `timed`: finite timeouts are in use. */
  ghost predicate Next<V(!new)>(st: State<V>, st': State<V>, timed: bool) {
    || (exists t: Tid :: StepBy(st, st', t)) || Close(st, st')
    || exists t: Tid, k: Kind, mode: Mode, val: Option<V> ::
         Begin(st, st', t, k, mode, val) && (mode == Timed ==> timed)
  }

  ghost predicate Run<V(!new)>(run: seq<State<V>>, timed: bool) {
    |run| > 0 && Init(run[0]) && forall i :: 0 <= i < |run| - 1 ==> Next(run[i], run[i+1], timed)
  }

  // -------------------------------------------------------------- invariant

  ghost predicate Waits<V>(x: Thread<V>, k: Kind) {
    (x.pc == Parked || x.pc == Expired) && x.kind == k && x.res == None
  }

  ghost predicate QueueOk<V>(q: seq<Tid>, th: map<Tid, Thread<V>>, k: Kind) {
    && Distinct(q)
    && (forall u :: u in q <==> u in th && Waits(th[u], k))
  }

  /** A thread's current request has met its peer exactly if its result is `Ok`. */
  ghost predicate ThreadOk<V>(mate: map<Id, Mate<V>>, t: Tid, x: Thread<V>) {
    var a := Id(t, x.n);
    && (forall m: nat :: Id(t, m) in mate ==> m <= x.n)
    && (a in mate <==> x.res == Some(Ok))
    && (a in mate ==> mate[a].kind == x.kind && x.val == Some(mate[a].val))
    && match x.pc
       case Rest => x.res == None
       case Entering => x.res == None && (x.kind == Send ==> x.val.Some?)
       case Parked => x.kind == Send ==> x.val.Some?
       case Expired => x.mode == Timed && (x.kind == Send ==> x.val.Some?)
  }

  /** Rendezvous come in pairs: one send, one receive, one value. */
  ghost predicate MateOk<V>(mate: map<Id, Mate<V>>, a: Id)
    requires a in mate
  {
    var m := mate[a];
    m.who in mate && mate[m.who].who == a && mate[m.who].kind == Peer(m.kind) && mate[m.who].val == m.val
  }

  ghost predicate DoneOk<V>(mate: map<Id, Mate<V>>, d: Done<V>) {
    && (d.res == Ok ==> d.id in mate && mate[d.id].kind == d.kind && d.val == Some(mate[d.id].val))
    && (d.id in mate ==> d.res == Ok || (d.res == Timeout && d.mode == Timed))
  }

  ghost predicate Queues<V>(st: State<V>) {
    && QueueOk(st.sendq, st.th, Send) && QueueOk(st.recvq, st.th, Recv)
    && (st.sendq == [] || st.recvq == []) && (st.closed ==> st.sendq == [] && st.recvq == [])
  }

  ghost predicate Threads<V>(th: map<Tid, Thread<V>>, mate: map<Id, Mate<V>>) {
    forall t <- th :: ThreadOk(mate, t, th[t])
  }

  ghost predicate Mates<V>(mate: map<Id, Mate<V>>) { forall a <- mate :: MateOk(mate, a) }

  ghost predicate Past<V>(th: map<Tid, Thread<V>>, id: Id) { id.t in th && id.n < th[id.t].n }

  ghost predicate Dones<V>(th: map<Tid, Thread<V>>, mate: map<Id, Mate<V>>, done: seq<Done<V>>) {
    forall i :: 0 <= i < |done| ==> Past(th, done[i].id) && DoneOk(mate, done[i])
  }

  ghost predicate Inv<V>(st: State<V>) {
    Queues(st) && Threads(st.th, st.mate) && Mates(st.mate) && Dones(st.th, st.mate, st.done)
  }

  // ----------------------------------------------------------- preservation

  lemma QueueKept<V>(q: seq<Tid>, th: map<Tid, Thread<V>>, t: Tid, x: Thread<V>, k: Kind)
    requires QueueOk(q, th, k) && t in th && (Waits(x, k) <==> Waits(th[t], k))
    ensures QueueOk(q, th[t := x], k)
  {
  }

  lemma QueueJoined<V>(q: seq<Tid>, th: map<Tid, Thread<V>>, t: Tid, x: Thread<V>, k: Kind)
    requires QueueOk(q, th, k) && t in th && Waits(x, k) && !Waits(th[t], k)
    ensures QueueOk(q + [t], th[t := x], k)
  {
  }

  lemma QueuePopped<V>(q: seq<Tid>, th: map<Tid, Thread<V>>, x: Thread<V>, k: Kind)
    requires q != [] && QueueOk(q, th, k) && !Waits(x, k)
    ensures QueueOk(q[1..], th[q[0] := x], k)
  {
    assert q == [q[0]] + q[1..];
  }

  lemma QueueLeft<V>(q: seq<Tid>, th: map<Tid, Thread<V>>, t: Tid, x: Thread<V>, k: Kind)
    requires QueueOk(q, th, k) && t in th && !Waits(x, k)
    ensures QueueOk(Without(q, t), th[t := x], k)
  {
    WithoutDistinct(q, t);
  }

  /** Thread t moves within its request, or begins one. */
  lemma MoveKeeps<V>(th: map<Tid, Thread<V>>, mate: map<Id, Mate<V>>, done: seq<Done<V>>, t: Tid, x: Thread<V>)
    requires Threads(th, mate) && Dones(th, mate, done) && t in th && x.n == th[t].n && ThreadOk(mate, t, x)
    ensures Threads(th[t := x], mate) && Dones(th[t := x], mate, done)
  {
  }

  /** What a request may report when it ends. */
  ghost predicate MayReport<V>(mate: map<Id, Mate<V>>, a: Id, x: Thread<V>, val: Option<V>, res: Result) {
    && (res == Ok ==> a in mate && mate[a].kind == x.kind && val == Some(mate[a].val))
    && (a in mate ==> res == Ok || (res == Timeout && x.mode == Timed))
  }

  lemma FinishKeeps<V>(st: State<V>, t: Tid, val: Option<V>, res: Result)
    requires Dones(st.th, st.mate, st.done) && t in st.th && MayReport(st.mate, Id(t, st.th[t].n), st.th[t], val, res)
    requires forall u <- st.th :: u != t ==> ThreadOk(st.mate, u, st.th[u])
    requires forall m: nat :: Id(t, m) in st.mate ==> m <= st.th[t].n
    ensures var st' := Finish(st, t, val, res); Threads(st'.th, st'.mate) && Dones(st'.th, st'.mate, st'.done)
  {
    var st' := Finish(st, t, val, res);
    forall i | 0 <= i < |st'.done| ensures Past(st'.th, st'.done[i].id) && DoneOk(st'.mate, st'.done[i]) {
      if i < |st.done| { assert Past(st.th, st.done[i].id) && DoneOk(st.mate, st.done[i]); }
    }
  }

  lemma EnterKeepsInv<V>(st: State<V>, st': State<V>, t: Tid)
    requires Inv(st) && Enter(st, st', t)
    ensures Inv(st')
  {
    var x := st.th[t];
    assert ThreadOk(st.mate, t, x);
    var q := st.Queue(Peer(x.kind));
    if !(x.kind == Send && st.closed) && q != [] {
      MeetKeepsInv(st, t, q[0], Value(x, st.th[q[0]]).value);
    } else if st.closed || x.mode == Try {
      var res := if st.closed then Closed else WouldBlock;
      QueueKept(st.sendq, st.th, t, st'.th[t], Send);
      QueueKept(st.recvq, st.th, t, st'.th[t], Recv);
      FinishKeeps(st, t, x.val, res);
    } else {
      QueueKept(q, st.th, t, st'.th[t], Peer(x.kind));
      QueueJoined(st.Queue(x.kind), st.th, t, st'.th[t], x.kind);
      MoveKeeps(st.th, st.mate, st.done, t, st'.th[t]);
    }
  }

  lemma WokenKeepsInv<V>(st: State<V>, st': State<V>, t: Tid)
    requires Inv(st) && Woken(st, st', t)
    ensures Inv(st')
  {
    assert ThreadOk(st.mate, t, st.th[t]);
    QueueKept(st.sendq, st.th, t, st'.th[t], Send);
    QueueKept(st.recvq, st.th, t, st'.th[t], Recv);
    FinishKeeps(st, t, st.th[t].val, st.th[t].res.value);
  }

  lemma GiveUpKeepsInv<V>(st: State<V>, st': State<V>, t: Tid)
    requires Inv(st) && GiveUp(st, st', t)
    ensures Inv(st')
  {
    var k := st.th[t].kind;
    assert ThreadOk(st.mate, t, st.th[t]);
    QueueLeft(st.Queue(k), st.th, t, st'.th[t], k);
    QueueKept(st.Queue(Peer(k)), st.th, t, st'.th[t], Peer(k));
    FinishKeeps(st.SetQueue(k, Without(st.Queue(k), t)), t, st.th[t].val, Timeout);
  }

  lemma BeginKeepsInv<V>(st: State<V>, st': State<V>, t: Tid, k: Kind, mode: Mode, val: Option<V>)
    requires Inv(st) && Begin(st, st', t, k, mode, val)
    ensures Inv(st')
  {
    assert ThreadOk(st.mate, t, st.th[t]);
    QueueKept(st.sendq, st.th, t, st'.th[t], Send);
    QueueKept(st.recvq, st.th, t, st'.th[t], Recv);
    MoveKeeps(st.th, st.mate, st.done, t, st'.th[t]);
  }

  lemma CloseKeepsInv<V>(st: State<V>, st': State<V>)
    requires Inv(st) && Close(st, st')
    ensures Inv(st')
  {
    forall u <- st'.th ensures ThreadOk(st'.mate, u, st'.th[u]) { assert ThreadOk(st.mate, u, st.th[u]); }
    forall i | 0 <= i < |st'.done| ensures Past(st'.th, st'.done[i].id) && DoneOk(st'.mate, st'.done[i]) {
      assert Past(st.th, st.done[i].id) && DoneOk(st.mate, st.done[i]);
    }
  }

  /** The rendezvous: t ends with `Ok`, and the first waiter of the other side is given `Ok`. */
  lemma MeetKeepsInv<V>(st: State<V>, t: Tid, u: Tid, v: V)
    requires Inv(st) && t in st.th && st.th[t].pc == Entering
    requires var q := st.Queue(Peer(st.th[t].kind));
      q != [] && u == q[0] && u in st.th && Value(st.th[t], st.th[u]) == Some(v)
    ensures Inv(Finish(Meet(st, t, u, v), t, Some(v), Ok))
  {
    var q := st.Queue(Peer(st.th[t].kind));
    assert u in q && Waits(st.th[u], Peer(st.th[t].kind)) && u != t;
    MeetQueues(st, t, u, v);
    MeetMates(st, t, u, v);
    hide Queues, Mates, Threads, ThreadOk;
    FinishKeeps(Meet(st, t, u, v), t, Some(v), Ok);
  }

  lemma MeetQueues<V>(st: State<V>, t: Tid, u: Tid, v: V)
    requires Queues(st) && t in st.th && st.th[t].pc == Entering && u != t
    requires var k := Peer(st.th[t].kind); st.Queue(k) != [] && u == st.Queue(k)[0] && u in st.th && Waits(st.th[u], k)
    ensures Queues(Finish(Meet(st, t, u, v), t, Some(v), Ok))
  {
    var x := st.th[t];
    var k := Peer(x.kind);
    MeetBoth(st.Queue(k), st.Queue(x.kind), st.th, t, u, st.th[u].(res := Some(Ok), val := Some(v)),
             Thread(Rest, x.n + 1, Send, Try, None, None), k);
    hide QueueOk;
  }

  lemma MeetBoth<V>(q: seq<Tid>, own: seq<Tid>, th: map<Tid, Thread<V>>, t: Tid, u: Tid, y: Thread<V>, x: Thread<V>,
                    k: Kind)
    requires QueueOk(q, th, k) && QueueOk(own, th, Peer(k)) && q != [] && u == q[0] && t in th && u in th && t != u
    requires Waits(th[u], k) && !Waits(th[t], k) && !Waits(th[t], Peer(k)) && y.res.Some? && x.pc == Rest
    ensures QueueOk(q[1..], th[u := y][t := x], k) && QueueOk(own, th[u := y][t := x], Peer(k))
  {
    assert !Waits(y, k) && !Waits(y, Peer(k)) && !Waits(th[u], Peer(k)) && !Waits(x, k) && !Waits(x, Peer(k));
    hide QueueOk, Waits;
    QueuePopped(q, th, y, k);
    QueueKept(q[1..], th[u := y], t, x, k);
    QueueKept(own, th, u, y, Peer(k));
    QueueKept(own, th[u := y], t, x, Peer(k));
  }

  lemma MeetMates<V>(st: State<V>, t: Tid, u: Tid, v: V)
    requires Inv(st) && t in st.th && u in st.th && u != t
    requires st.th[t].pc == Entering && Waits(st.th[u], Peer(st.th[t].kind))
    requires Value(st.th[t], st.th[u]) == Some(v)
    ensures var mid := Meet(st, t, u, v);
      && Mates(mid.mate) && Dones(mid.th, mid.mate, st.done)
      && (forall w <- mid.th :: w != t ==> ThreadOk(mid.mate, w, mid.th[w]))
      && (forall m: nat :: Id(t, m) in mid.mate ==> m <= st.th[t].n)
  {
    var x, y, mid := st.th[t], st.th[u], Meet(st, t, u, v);
    assert ThreadOk(st.mate, t, x) && ThreadOk(st.mate, u, y);
    forall a <- mid.mate ensures MateOk(mid.mate, a) { assert a in st.mate ==> MateOk(st.mate, a); }
    forall w <- mid.th | w != t ensures ThreadOk(mid.mate, w, mid.th[w]) { assert ThreadOk(st.mate, w, st.th[w]); }
    forall i | 0 <= i < |st.done| ensures Past(mid.th, st.done[i].id) && DoneOk(mid.mate, st.done[i]) {
      assert Past(st.th, st.done[i].id) && DoneOk(st.mate, st.done[i]);
    }
  }

  /** No finite timeout in sight. */
  ghost predicate Untimed<V>(st: State<V>) {
    && (forall t <- st.th :: st.th[t].mode != Timed)
    && (forall i :: 0 <= i < |st.done| ==> st.done[i].mode != Timed)
  }

  lemma StepKeepsInv<V>(st: State<V>, st': State<V>, t: Tid)
    requires Inv(st) && StepBy(st, st', t)
    ensures Inv(st') && (Untimed(st) ==> Untimed(st'))
  {
    if Enter(st, st', t) {
      EnterKeepsInv(st, st', t);
      if Untimed(st) { EnterUntimed(st, st', t); }
    } else if Woken(st, st', t) {
      WokenKeepsInv(st, st', t);
    } else if GiveUp(st, st', t) {
      GiveUpKeepsInv(st, st', t);
    } else {
      ExpireKeepsInv(st, st', t);
    }
  }

  lemma ExpireKeepsInv<V>(st: State<V>, st': State<V>, t: Tid)
    requires Inv(st) && Expire(st, st', t)
    ensures Inv(st')
  {
    assert ThreadOk(st.mate, t, st.th[t]);
    QueueKept(st.sendq, st.th, t, st'.th[t], Send);
    QueueKept(st.recvq, st.th, t, st'.th[t], Recv);
    MoveKeeps(st.th, st.mate, st.done, t, st'.th[t]);
  }

  lemma EnterUntimed<V>(st: State<V>, st': State<V>, t: Tid)
    requires Untimed(st) && Enter(st, st', t)
    ensures Untimed(st')
  {
  }

  lemma NextKeepsInv<V(!new)>(st: State<V>, st': State<V>, timed: bool)
    requires Inv(st) && Next(st, st', timed)
    ensures Inv(st') && (!timed && Untimed(st) ==> Untimed(st'))
  {
    hide Inv, StepBy;
    if t: Tid :| StepBy(st, st', t) {
      StepKeepsInv(st, st', t);
    } else if Close(st, st') {
      CloseKeepsInv(st, st');
    } else {
      var t: Tid, k: Kind, mode: Mode, val: Option<V> :| Begin(st, st', t, k, mode, val) && (mode == Timed ==> timed);
      BeginKeepsInv(st, st', t, k, mode, val);
    }
  }

  lemma {:induction false} RunInv<V(!new)>(run: seq<State<V>>, timed: bool, i: nat)
    requires Run(run, timed) && i < |run|
    ensures Inv(run[i]) && (!timed ==> Untimed(run[i]))
  {
    hide Next;
    if i > 0 {
      RunInv(run, timed, i - 1);
      assert Next(run[i - 1], run[i], timed);
      hide Inv, Untimed;
      NextKeepsInv(run[i - 1], run[i], timed);
    }
  }

  // -------------------------------------------------------------- theorems

  /** A waiting sender and a waiting receiver never coexist. */
  lemma NeverBothWaiting<V(!new)>(run: seq<State<V>>, timed: bool, i: nat)
    requires Run(run, timed) && i < |run|
    ensures run[i].sendq == [] || run[i].recvq == []
  {
    hide Run;
    RunInv(run, timed, i);
  }

  /** Every returned request with `Ok` has met exactly one request of the other
      kind, with the same value, and that one has met it. */
  lemma OkMeansPaired<V(!new)>(run: seq<State<V>>, timed: bool, i: nat, j: nat)
    requires Run(run, timed) && i < |run| && j < |run[i].done| && run[i].done[j].res == Ok
    ensures var d, mate := run[i].done[j], run[i].mate;
      && d.id in mate && mate[d.id].kind == d.kind && d.val == Some(mate[d.id].val)
      && mate[d.id].who in mate && mate[mate[d.id].who].who == d.id
      && mate[mate[d.id].who].kind == Peer(d.kind) && mate[mate[d.id].who].val == mate[d.id].val
  {
    hide Run, Queues, Threads;
    RunInv(run, timed, i);
    assert Past(run[i].th, run[i].done[j].id) && DoneOk(run[i].mate, run[i].done[j]);
    assert MateOk(run[i].mate, run[i].done[j].id);
  }

  /** A request that waits has time to wait; its result is that of a meeting or of a close. */
  ghost predicate Minded<V>(st: State<V>) {
    forall t <- st.th ::
      && (st.th[t].pc == Parked || st.th[t].pc == Expired ==> st.th[t].mode != Try)
      && (st.th[t].res.Some? ==> st.th[t].res == Some(Ok) || (st.th[t].res == Some(Closed) && st.closed))
  }

  lemma EnterMinded<V>(st: State<V>, st': State<V>, t: Tid)
    requires Minded(st) && Enter(st, st', t)
    ensures Minded(st')
  {
  }

  lemma LeaveMinded<V>(st: State<V>, st': State<V>, t: Tid)
    requires Minded(st) && (Woken(st, st', t) || Expire(st, st', t) || GiveUp(st, st', t))
    ensures Minded(st')
  {
    hide Without;
  }

  lemma CloseMinded<V>(st: State<V>, st': State<V>)
    requires Minded(st) && Close(st, st')
    ensures Minded(st')
  {
  }

  lemma BeginMinded<V>(st: State<V>, st': State<V>, t: Tid, k: Kind, mode: Mode, val: Option<V>)
    requires Minded(st) && Begin(st, st', t, k, mode, val)
    ensures Minded(st')
  {
  }

  lemma NextMinded<V(!new)>(st: State<V>, st': State<V>, timed: bool)
    requires Minded(st) && Next(st, st', timed)
    ensures Minded(st')
  {
    hide Minded, Enter, Woken, Expire, GiveUp, Close, Begin;
    if t: Tid :| StepBy(st, st', t) {
      if Enter(st, st', t) { EnterMinded(st, st', t); } else { LeaveMinded(st, st', t); }
    } else if Close(st, st') {
      CloseMinded(st, st');
    } else {
      var t: Tid, k: Kind, mode: Mode, val: Option<V> :| Begin(st, st', t, k, mode, val) && (mode == Timed ==> timed);
      BeginMinded(st, st', t, k, mode, val);
    }
  }

  lemma {:induction false} RunMinded<V(!new)>(run: seq<State<V>>, timed: bool, i: nat)
    requires Run(run, timed) && i < |run|
    ensures Minded(run[i])
  {
    if i > 0 {
      RunMinded(run, timed, i - 1);
      assert Next(run[i - 1], run[i], timed);
      hide Next, Minded;
      NextMinded(run[i - 1], run[i], timed);
    }
  }

  /** In every reachable state a thread inside a request can move, exactly
      unless it is parked, unserved and without a timeout. */
  lemma OnlyWaits<V(!new)>(run: seq<State<V>>, timed: bool, i: nat, t: Tid)
    requires Run(run, timed) && i < |run| && t in run[i].th && run[i].th[t].pc != Rest
    ensures var x := run[i].th[t];
      (exists st' :: StepBy(run[i], st', t)) <==> !(x.pc == Parked && x.res == None && x.mode != Timed)
  {
    hide Run, Finish, Meet, Mates, Dones;
    RunInv(run, timed, i);
    var st, x := run[i], run[i].th[t];
    match x.pc
    case Entering => EnterMoves(st, t);
    case Parked =>
      if x.mode == Timed { assert StepBy(st, st.(th := st.th[t := x.(pc := Expired)]), t); }
      else if x.res.Some? { assert StepBy(st, Finish(st, t, x.val, x.res.value), t); }
    case Expired =>
      assert StepBy(st, Finish(st.SetQueue(x.kind, Without(st.Queue(x.kind), t)), t, x.val, Timeout), t);
  }

  lemma EnterMoves<V(!new)>(st: State<V>, t: Tid)
    requires Inv(st) && t in st.th && st.th[t].pc == Entering
    ensures exists st' :: StepBy(st, st', t)
  {
    var x, q := st.th[t], st.Queue(Peer(st.th[t].kind));
    assert ThreadOk(st.mate, t, x);
    var st' := st;
    if x.kind == Send && st.closed { st' := Finish(st, t, x.val, Closed); }
    else if q != [] {
      assert q[0] in q && ThreadOk(st.mate, q[0], st.th[q[0]]);
      var v := Value(x, st.th[q[0]]).value;
      st' := Finish(Meet(st, t, q[0], v), t, Some(v), Ok);
    } else if st.closed { st' := Finish(st, t, x.val, Closed); }
    else if x.mode == Try { st' := Finish(st, t, x.val, WouldBlock); }
    else { st' := st.SetQueue(x.kind, st.Queue(x.kind) + [t]).(th := st.th[t := x.(pc := Parked)]); }
    assert Enter(st, st', t);
    assert StepBy(st, st', t);
  }

  /** A request is refused only for a reason: `WouldBlock` to a try that finds
      nobody waiting on an open channel, `Closed` on a closed one, `Timeout` to a
      timed one; and a try never waits. */
  lemma RefusalsJustified<V(!new)>(run: seq<State<V>>, timed: bool, i: nat, t: Tid)
    requires Run(run, timed) && i + 1 < |run| && StepBy(run[i], run[i + 1], t) && |run[i].done| < |run[i + 1].done|
    ensures var st, x, d := run[i], run[i].th[t], Last(run[i + 1].done);
      && d.id == Id(t, x.n) && d.kind == x.kind && d.mode == x.mode
      && (d.res == WouldBlock ==> x.mode == Try && !st.closed && st.Queue(Peer(x.kind)) == [])
      && (d.res == Closed ==> st.closed)
      && (d.res == Timeout ==> x.mode == Timed && x.pc == Expired)
  {
    hide Run, Enter, Mates, Dones, Queues;
    RunMinded(run, timed, i);
    RunInv(run, timed, i);
    if Enter(run[i], run[i + 1], t) {
      EnterRefusal(run[i], run[i + 1], t);
    } else {
      assert ThreadOk(run[i].mate, t, run[i].th[t]);
    }
  }

  lemma EnterRefusal<V>(st: State<V>, st': State<V>, t: Tid)
    requires Enter(st, st', t) && |st.done| < |st'.done|
    ensures t in st.th
    ensures var x, d := st.th[t], Last(st'.done);
      && d.id == Id(t, x.n) && d.kind == x.kind && d.mode == x.mode && d.res != Timeout
      && (d.res == WouldBlock ==> x.mode == Try && !st.closed && st.Queue(Peer(x.kind)) == [])
      && (d.res == Closed ==> st.closed)
  {
  }

  /** Every step moves each queue by at most one, and meets only the first of it. */
  lemma QueueMoves<V(!new)>(st: State<V>, st': State<V>, t: Tid, k: Kind)
    requires StepBy(st, st', t)
    ensures Seqs.Queues(st.Queue(k), st'.Queue(k), t)
    ensures forall u <- st.th :: u != t && u in st'.th && st'.th[u] != st.th[u] ==>
      var q := st.Queue(Peer(st.th[t].kind)); q != [] && q[0] == u
  {
  }

  /** First come, first served: of two that wait on the same side the one that
      came later is never first in the queue while the other is still in it. */
  lemma {:induction false} FirstComeFirstServed<V(!new)>(run: seq<State<V>>, timed: bool, i: nat, j: nat, k: Kind,
                                                         u: Tid, w: Tid)
    requires Run(run, timed) && i <= j < |run| && Ahead(run[i].Queue(k), u, w)
    requires forall n :: i <= n <= j ==> u in run[n].Queue(k) && w in run[n].Queue(k)
    ensures Ahead(run[j].Queue(k), u, w) && run[j].Queue(k)[0] != w
  {
    hide Next, Inv;
    if j > i {
      FirstComeFirstServed(run, timed, i, j - 1, k, u, w);
      RunInv(run, timed, j - 1);
      assert Next(run[j - 1], run[j], timed);
      NextOrder(run[j - 1], run[j], timed, k, u, w);
    }
    RunInv(run, timed, j);
    QueueDistinct(run[j], k);
  }

  lemma QueueDistinct<V>(st: State<V>, k: Kind)
    requires Inv(st)
    ensures Distinct(st.Queue(k))
  {
  }

  lemma NextOrder<V(!new)>(st: State<V>, st': State<V>, timed: bool, k: Kind, u: Tid, w: Tid)
    requires Inv(st) && Next(st, st', timed) && Ahead(st.Queue(k), u, w) && u in st'.Queue(k) && w in st'.Queue(k)
    ensures Ahead(st'.Queue(k), u, w)
  {
    hide Inv, StepBy, Ahead;
    QueueDistinct(st, k);
    AheadIn(st.Queue(k), u, w);
    if t: Tid :| StepBy(st, st', t) {
      QueueMoves(st, st', t, k);
      NobodyOvertakes(st.Queue(k), st'.Queue(k), t, u, w);
    }
  }

  lemma AheadIn(q: seq<Tid>, u: Tid, w: Tid)
    requires Ahead(q, u, w)
    ensures u in q && w in q
  {
  }

  /** Every returned request reports `Ok` exactly when it has met its peer. */
  ghost predicate Honest<V>(st: State<V>) {
    forall j :: 0 <= j < |st.done| ==> (st.done[j].res == Ok <==> st.done[j].id in st.mate)
  }

  lemma UntimedIsHonest<V(!new)>(run: seq<State<V>>, i: nat)
    requires Run(run, false) && i < |run|
    ensures Honest(run[i])
  {
    hide Run, Queues, Threads, Mates;
    RunInv(run, false, i);
    forall j | 0 <= j < |run[i].done| ensures run[i].done[j].res == Ok <==> run[i].done[j].id in run[i].mate {
      assert Past(run[i].th, run[i].done[j].id) && DoneOk(run[i].mate, run[i].done[j]);
    }
  }

  /** Request by request: the step that returns a request reports it untruthfully
      exactly when it is the timeout path of a waiter that had been taken out of
      the queue and served. */
  lemma UntruthExact<V(!new)>(run: seq<State<V>>, timed: bool, i: nat, t: Tid)
    requires Run(run, timed) && i + 1 < |run| && StepBy(run[i], run[i + 1], t) && |run[i].done| < |run[i + 1].done|
    ensures var x, d := run[i].th[t], Last(run[i + 1].done);
      && d.id == Id(t, x.n)
      && ((d.res == Ok <==> d.id in run[i + 1].mate)
          <==> !(x.pc == Expired && t !in run[i].Queue(x.kind) && x.res == Some(Ok)))
  {
    hide Run, Mates, Dones;
    RunInv(run, timed, i);
    var st, x := run[i], run[i].th[t];
    assert ThreadOk(st.mate, t, x) && QueueOk(st.Queue(x.kind), st.th, x.kind);
    hide Queues, QueueOk, Enter;
    if Enter(st, run[i + 1], t) { EnterTruth(st, run[i + 1], t); }
  }

  /** A request that returns from its first locked section tells the truth. */
  lemma EnterTruth<V>(st: State<V>, st': State<V>, t: Tid)
    requires Enter(st, st', t) && |st.done| < |st'.done| && ThreadOk(st.mate, t, st.th[t])
    ensures var d := Last(st'.done); d.id == Id(t, st.th[t].n) && (d.res == Ok <==> d.id in st'.mate)
    ensures st.th[t].pc == Entering
  {
  }

  lemma Extend(run: seq<State<nat>>, st: State<nat>) returns (more: seq<State<nat>>)
    requires Run(run, true) && Next(Last(run), st, true)
    ensures Run(more, true) && |more| > 0 && Last(more) == st
  {
    hide Next, Init;
    more := run + [st];
  }

  const SENDER: Thread<nat> := Thread(Entering, 0, Send, Timed, Some(7), None)
  const RECEIVER: Thread<nat> := Thread(Entering, 0, Recv, Forever, None, None)

  /** A timed send parks and its timeout expires. */
  lemma TimedSendExpires() returns (run: seq<State<nat>>)
    ensures Run(run, true) && |run| > 0
    ensures var idle := Thread(Rest, 0, Send, Try, None, None);
      Last(run) == State([0], [], false, map[0 := SENDER.(pc := Expired), 1 := idle], map[], [])
  {
    var idle := Thread(Rest, 0, Send, Try, None, None);
    var st := State([], [], false, map[0 := idle, 1 := idle], map[], []);
    run := [st];
    assert Run(run, true);
    hide Run;
    var st1 := st.(th := map[0 := SENDER, 1 := idle]);
    assert st1.th == st.th[0 := SENDER] && Begin(st, st1, 0, Send, Timed, Some(7));
    run := Extend(run, st1);
    var st2 := State([0], [], false, map[0 := SENDER.(pc := Parked), 1 := idle], map[], []);
    assert [] + [0] == [0] && st2.th == st1.th[0 := SENDER.(pc := Parked)] && StepBy(st1, st2, 0);
    run := Extend(run, st2);
    var st3 := st2.(th := map[0 := SENDER.(pc := Expired), 1 := idle]);
    assert st3.th == st2.th[0 := SENDER.(pc := Expired)] && StepBy(st2, st3, 0);
    run := Extend(run, st3);
  }

  /** With a finite timeout, a sender whose waiter is served after it timed out
      reports a timeout although its value has been received. */
  lemma LateTimeout() returns (run: seq<State<nat>>)
    ensures Run(run, true) && |run| > 0 && !Honest(Last(run))
  {
    hide Run;
    run := TimedSendExpires();
    var st3 := Last(run);
    var st4 := st3.(th := st3.th[1 := RECEIVER]);
    assert Begin(st3, st4, 1, Recv, Forever, None);
    run := Extend(run, st4);
    var st5 := Finish(Meet(st4, 1, 0, 7), 1, Some(7), Ok);
    assert StepBy(st4, st5, 1);
    run := Extend(run, st5);
    var st6 := Finish(st5.SetQueue(Send, Without(st5.sendq, 0)), 0, st5.th[0].val, Timeout);
    assert StepBy(st5, st6, 0);
    run := Extend(run, st6);
    assert st6.done[1].id == Id(0, 0) && st6.done[1].res == Timeout && Id(0, 0) in st6.mate;
  }

  /** Results are honest in every execution exactly when no finite timeout is used. */
  lemma HonestExact(timed: bool)
    ensures !timed <==> forall run: seq<State<nat>> :: Run(run, timed) ==> Honest(Last(run))
  {
    if timed {
      var run := LateTimeout();
      assert Run(run, timed) && !Honest(Last(run));
    } else {
      forall run: seq<State<nat>> | Run(run, timed) ensures Honest(Last(run)) { UntimedIsHonest(run, |run| - 1); }
    }
  }
}
