/** A buffered, non-SPSC channel as interleaved atomic steps over the MPMC ring.

    Any finite set of threads sends, receives and closes.  Every ring operation,
    on the fast path and under the lock alike, runs as the ring's own atomic
    steps, so a locked section is interleaved with lock-free pushes and pops.
    Between ring operations a thread's lock-held bookkeeping is one step.  The
    relaxed waiter-count gates of the fast paths may return stale values, so
    they are free choices; the fenced count checks and the `closed` gate are
    exact.  Parking is a one-shot latch set together with the result.

    A control step is written as a program step: from the thread's own state
    and a view of the shared state to an effect, which `Apply` carries out. */
module Channel {
  import opened Results
  import opened Seqs
  import opened Ring

  type Bytes = seq<bv8>

  /** One value handed to send: who sends it, its number in that thread's
      sequence of send requests, and its bytes. */
  datatype Item = Item(producer: Tid, serial: nat, bytes: Bytes)

  datatype Mode = Try | Timed | Forever | Burst

  /** What the delivering loop of a sender leads to. */
  datatype Cont = Finish | ThenPark

  datatype Pc =
    | Rest
    | SGate | SPush | SDeliverLock | SLock | SPush1 | SPush2 | SParked | SExpired | SWoken
    | DLoad(k: Cont) | DTest(k: Cont, tail: nat) | DPop(k: Cont, r: Tid)
    | RPop | RAdmitLock | RLock | RPop1 | RHelp(s: Tid) | RPop2 | RParked | RExpired | RWoken
    | ALoad | ATest(head: nat) | APush(s: Tid)
    | KLock | KSend | KRecv | KPop(r: Tid)
  {
    predicate Locked() {
      match this
      case SPush1 | SPush2 | DLoad(_) | DTest(_, _) | DPop(_, _) => true
      case RPop1 | RHelp(_) | RPop2 | ALoad | ATest(_) | APush(_) => true
      case KSend | KRecv | KPop(_) => true
      case _ => false
    }

    /** Inside a ring push. */
    predicate Pushing() { match this case SPush | SPush1 | SPush2 | RHelp(_) | APush(_) => true case _ => false }

    /** Inside a ring pop. */
    predicate Popping() { match this case RPop | RPop1 | RPop2 | DPop(_, _) | KPop(_) => true case _ => false }

    /** Registered in the send (receive) waiter count. */
    predicate SendReg() { match this case SPush2 | SParked | SExpired | SWoken => true case _ => false }
    predicate RecvReg() { match this case RPop2 | RParked | RExpired | RWoken => true case _ => false }
  }

  /** A thread: its place, its current request, and its waiter's result slot.
      `items` is the current send request, `serial` its first number and `late`
      whether the channel was closed when it began; `rid` numbers the receive
      requests; `done` is what the request has moved. */
  datatype Thread = Thread(
    pc: Pc, mode: Mode,
    serial: nat, items: seq<Item>, late: bool,
    rid: nat, want: nat,
    res: Option<Result>, done: seq<Item>)

  /** State guarded by the lock, the two waiter counts and the closed flag. */
  datatype Shared = Shared(
    lock: Option<Tid>, sendCnt: int, recvCnt: int,
    sendq: seq<Tid>, recvq: seq<Tid>, closed: bool)

  /** A value leaving the channel for receive request `rid` of thread `to`. */
  datatype Leave = Leave(item: Item, to: Tid, rid: nat)

  datatype SendRec = SendRec(items: seq<Item>, late: bool, sent: nat, res: Result)
  datatype RecvRec = RecvRec(to: Tid, rid: nat, got: seq<Item>, res: Result)

  /** History: values accepted by the channel, values leaving it, requests completed. */
  datatype Log = Log(acc: seq<Item>, left: seq<Leave>, sends: seq<SendRec>, recvs: seq<RecvRec>)

  /** `prod` (`cons`), when given, is the only thread that sends (receives). */
  datatype Chan = Chan(
    prod: Option<Tid>, cons: Option<Tid>,
    ring: Ring<Item>, sh: Shared, th: map<Tid, Thread>, log: Log)

  ghost predicate Init(c: Chan) {
    && Fresh(c.ring) && c.ring.ops.Keys == c.th.Keys
    && c.sh == Shared(None, 0, 0, [], [], false)
    && c.log == Log([], [], [], [])
    && forall t <- c.th :: c.th[t] == Thread(Rest, Try, 0, [], false, 0, 0, None, [])
  }

  // ---------------------------------------------------------------- effects

  /** What a step does to one wait queue: nothing; enqueue itself; unlink
      itself; dequeue the first waiter into its hands; put that waiter back in
      front; serve the waiter in hand; dequeue and serve the first waiter. */
  datatype QOp = Keep | Join | Quit | Take | PutBack | WakeHand | WakeHead

  function QApply(op: QOp, q: seq<Tid>, t: Tid, hand: Option<Tid>): seq<Tid> {
    match op
    case Keep => q
    case Join => q + [t]
    case Quit => Without(q, t)
    case PutBack => if hand.Some? then [hand.value] + q else q
    case WakeHand => q
    case _ => if q == [] then q else q[1..]
  }

  /** The waiter served by a queue operation, if any. */
  function Served(op: QOp, q: seq<Tid>, hand: Option<Tid>): Option<Tid> {
    if op.WakeHand? then hand else if op.WakeHead? && q != [] then Some(q[0]) else None
  }

  /** The waiter a place keeps in hand: dequeued, result not set yet. */
  function SendHand(pc: Pc): Option<Tid> { match pc case RHelp(s) => Some(s) case APush(s) => Some(s) case _ => None }
  function RecvHand(pc: Pc): Option<Tid> { match pc case DPop(_, r) => Some(r) case KPop(r) => Some(r) case _ => None }

  /** What completes with the step. */
  datatype Note = Quiet | Sent(k: nat, res: Result) | Received(got: seq<Item>, res: Result)

  /** The thread's next state, the ring operation it is then in, its queue
      operations with the result given to a served waiter, the changes of the
      two counts, whether it closes the channel, and what completes.  `direct`:
      the received value is handed over without passing the ring. */
  datatype Eff = Eff(
    l: Thread, op: Op<Item>,
    sq: QOp, rq: QOp, res: Result, got: seq<Item>,
    dsend: int, drecv: int, close: bool, note: Note, direct: bool)

  function Go(l: Thread): Eff { Eff(l, Op.Idle, Keep, Keep, Ok, [], 0, 0, false, Quiet, false) }

  function Push(l: Thread, burst: bool, items: seq<Item>): Eff { Go(l).(op := PLoadHead(burst, items)) }

  function Pop(l: Thread, n: nat): Eff { Go(l).(op := CLoadHead(n)) }

  /** The send request returns, having moved its first k values. */
  function EndSend(l: Thread, k: nat, res: Result): Eff {
    Go(Thread(Rest, l.mode, l.serial + |l.items|, [], false, l.rid, 0, None, [])).(note := Sent(k, res))
  }

  /** The receive request returns with the values `got`. */
  function EndRecv(l: Thread, got: seq<Item>, res: Result): Eff {
    Go(Thread(Rest, l.mode, l.serial, [], false, l.rid + 1, 0, None, [])).(note := Received(got, res))
  }

  /** What a thread can read: lock state, flag, counts, queues, the values of
      the first queued sender, cursors, and whether it may send or receive. */
  datatype View = View(
    free: bool, closed: bool, sendCnt: int, recvCnt: int, sendq: seq<Tid>, recvq: seq<Tid>, first: seq<Item>,
    cap: nat, ph: nat, pt: nat, ch: nat, ct: nat, maySend: bool, mayRecv: bool)

  // ---------------------------------------------------------------- sending

  function MakeItems(t: Tid, serial: nat, vals: seq<Bytes>): (r: seq<Item>)
    ensures |r| == |vals| && forall j :: 0 <= j < |r| ==> r[j] == Item(t, serial + j, vals[j])
  {
    seq(|vals|, j requires 0 <= j < |vals| => Item(t, serial + j, vals[j]))
  }

  ghost predicate BeginSend(t: Tid, l: Thread, v: View, e: Eff, vals: seq<Bytes>, mode: Mode) {
    && l.pc == Rest && v.maySend && |vals| > 0 && (mode != Burst ==> |vals| == 1)
    && e == Go(l.(pc := SGate, mode := mode, items := MakeItems(t, l.serial, vals), late := v.closed))
  }

  /** Read `closed`, then either try the lock-free push or go to the slow path. */
  ghost predicate GateSend(l: Thread, v: View, e: Eff, fast: bool) {
    && l.pc == SGate
    && e == if v.closed && l.mode == Burst then EndSend(l, 0, WouldBlock)
            else if v.closed || (!fast && l.mode != Burst) then Go(l.(pc := SLock))
            else Push(l.(pc := SPush), l.mode == Burst, l.items)
  }

  /** The lock-free push returned; when it stored something, check for a waiting receiver. */
  ghost predicate AfterPush(l: Thread, op: Op<Item>, v: View, e: Eff, retry: bool) {
    && l.pc == SPush && op.PRet?
    && e == if op.sent == [] then
              (if l.mode == Burst then EndSend(l, 0, WouldBlock) else Go(l.(pc := if retry then SGate else SLock)))
            else if v.recvCnt != 0 then Go(l.(pc := SDeliverLock, done := op.sent))
            else EndSend(l, |op.sent|, Ok)
  }

  ghost predicate LockDeliver(l: Thread, v: View, e: Eff) {
    l.pc == SDeliverLock && v.free && e == Go(l.(pc := DLoad(Finish)))
  }

  ghost predicate LockSend(l: Thread, v: View, e: Eff) {
    && l.pc == SLock && v.free
    && e == if v.closed then EndSend(l, 0, Closed) else Push(l.(pc := SPush1), false, l.items)
  }

  ghost predicate AfterPush1(l: Thread, op: Op<Item>, e: Eff) {
    && l.pc == SPush1 && op.PRet?
    && e == Go(l.(pc := DLoad(if op.sent == [] then ThenPark else Finish), done := op.sent))
  }

  /** The registered recheck returned: stored after all, or asleep. */
  ghost predicate AfterPush2(l: Thread, op: Op<Item>, e: Eff) {
    && l.pc == SPush2 && op.PRet?
    && e == if op.sent == [] then Go(l.(pc := SParked))
            else Go(l.(pc := DLoad(Finish), done := op.sent)).(sq := Quit, dsend := -1)
  }

  // ------------------------------------- delivering ring values to receivers

  function ExitDeliver(l: Thread, k: Cont): Eff {
    if k == Finish then EndSend(l, |l.done|, Ok)
    else if l.mode == Try then EndSend(l, 0, WouldBlock)
    else Push(l.(pc := SPush2), false, l.items).(sq := Join, dsend := 1)
  }

  ghost predicate DeliverLoad(l: Thread, v: View, e: Eff) {
    l.pc.DLoad? && e == Go(l.(pc := DTest(l.pc.k, v.pt)))
  }

  ghost predicate DeliverTest(l: Thread, v: View, e: Eff) {
    && l.pc.DTest?
    && e == if l.pc.tail == v.ch || v.recvq == [] then ExitDeliver(l, l.pc.k)
            else Pop(l.(pc := DPop(l.pc.k, v.recvq[0])), 1).(rq := Take)
  }

  ghost predicate DeliverPop(l: Thread, op: Op<Item>, e: Eff) {
    && l.pc.DPop? && op.CRet?
    && e == if op.got == [] then ExitDeliver(l, l.pc.k).(rq := PutBack)
            else Go(l.(pc := DLoad(l.pc.k))).(rq := WakeHand, res := Ok, got := op.got)
  }

  // ------------------------------------------------------ asleep in a queue

  ghost predicate WakeUp(l: Thread, e: Eff) {
    && l.res.Some? && (l.pc == SParked || l.pc == RParked)
    && e == Go(l.(pc := if l.pc == SParked then SWoken else RWoken))
  }

  ghost predicate Expire(l: Thread, e: Eff) {
    && l.mode == Timed && (l.pc == SParked || l.pc == RParked)
    && e == Go(l.(pc := if l.pc == SParked then SExpired else RExpired))
  }

  ghost predicate ExpireSend(t: Tid, l: Thread, v: View, e: Eff) {
    && l.pc == SExpired && v.free
    && e == if t in v.sendq then Go(l.(pc := SWoken, res := Some(Timeout))).(sq := Quit) else Go(l.(pc := SWoken))
  }

  ghost predicate ExpireRecv(t: Tid, l: Thread, v: View, e: Eff) {
    && l.pc == RExpired && v.free
    && e == if t in v.recvq then Go(l.(pc := RWoken, res := Some(Timeout))).(rq := Quit) else Go(l.(pc := RWoken))
  }

  ghost predicate LeaveSend(l: Thread, e: Eff) {
    && l.pc == SWoken && l.res.Some?
    && e == EndSend(l, if l.res.value == Ok then 1 else 0, l.res.value).(dsend := -1)
  }

  ghost predicate LeaveRecv(l: Thread, e: Eff) {
    && l.pc == RWoken && l.res.Some?
    && e == EndRecv(l, if l.res.value == Ok then l.done else [], l.res.value).(drecv := -1)
  }

  // -------------------------------------------------------------- receiving

  ghost predicate BeginRecv(l: Thread, v: View, e: Eff, n: nat, mode: Mode, fast: bool) {
    && l.pc == Rest && v.mayRecv && n > 0 && (mode != Burst ==> n == 1)
    && var l' := l.(pc := RLock, mode := mode, want := n);
       e == if fast || mode == Burst then Pop(l'.(pc := RPop), n) else Go(l')
  }

  /** The lock-free pop returned; when it took something, check for a waiting sender. */
  ghost predicate AfterPop(l: Thread, op: Op<Item>, v: View, e: Eff, retry: bool) {
    && l.pc == RPop && op.CRet?
    && e == if op.got == [] then
              (if l.mode == Burst then EndRecv(l, [], WouldBlock)
               else if retry then Pop(l, l.want) else Go(l.(pc := RLock)))
            else if v.sendCnt != 0 then Go(l.(pc := RAdmitLock, done := op.got))
            else EndRecv(l, op.got, Ok)
  }

  ghost predicate LockRecv(l: Thread, v: View, e: Eff) {
    l.pc == RLock && v.free && e == Pop(l.(pc := RPop1), 1)
  }

  /** Ring value in hand: help a parked sender push.  Ring empty: take a parked
      sender's value directly, or give up, or register and recheck. */
  ghost predicate AfterPop1(l: Thread, op: Op<Item>, v: View, e: Eff) {
    && l.pc == RPop1 && op.CRet?
    && e == if op.got != [] then
              (if v.sendq == [] then EndRecv(l, op.got, Ok)
               else Push(l.(pc := RHelp(v.sendq[0]), done := op.got), false, v.first).(sq := Take))
            else if v.sendq != [] then
               EndRecv(l, v.first, Ok).(sq := WakeHead, res := Ok, got := v.first, direct := true)
            else if v.closed then EndRecv(l, [], Closed)
            else if l.mode == Try then EndRecv(l, [], WouldBlock)
            else Pop(l.(pc := RPop2), 1).(rq := Join, drecv := 1)
  }

  ghost predicate AfterHelp(l: Thread, op: Op<Item>, e: Eff) {
    && l.pc.RHelp? && op.PRet?
    && e == if op.sent == [] then EndRecv(l, l.done, Ok).(sq := PutBack)
            else EndRecv(l, l.done, Ok).(sq := WakeHand, res := Ok, got := op.sent)
  }

  ghost predicate AfterPop2(l: Thread, op: Op<Item>, e: Eff) {
    && l.pc == RPop2 && op.CRet?
    && e == if op.got == [] then Go(l.(pc := RParked))
            else EndRecv(l, op.got, Ok).(rq := Quit, drecv := -1)
  }

  // ------------------------------------- admitting parked senders to the ring

  ghost predicate LockAdmit(l: Thread, v: View, e: Eff) {
    l.pc == RAdmitLock && v.free && e == Go(l.(pc := ALoad))
  }

  ghost predicate AdmitLoad(l: Thread, v: View, e: Eff) {
    l.pc == ALoad && e == Go(l.(pc := ATest(v.ph)))
  }

  ghost predicate AdmitTest(l: Thread, v: View, e: Eff) {
    && l.pc.ATest?
    && e == if Room(false, 1, v.cap, l.pc.head, v.ct) == 0 || v.sendq == [] then EndRecv(l, l.done, Ok)
            else Push(l.(pc := APush(v.sendq[0])), false, v.first).(sq := Take)
  }

  ghost predicate AdmitPush(l: Thread, op: Op<Item>, e: Eff) {
    && l.pc.APush? && op.PRet?
    && e == if op.sent == [] then EndRecv(l, l.done, Ok).(sq := PutBack)
            else Go(l.(pc := ALoad)).(sq := WakeHand, res := Ok, got := op.sent)
  }

  // ---------------------------------------------------------------- closing

  ghost predicate BeginClose(l: Thread, e: Eff) {
    l.pc == Rest && e == Go(l.(pc := KLock))
  }

  ghost predicate LockClose(l: Thread, v: View, e: Eff) {
    && l.pc == KLock && v.free
    && e == if v.closed then Go(l.(pc := Rest)) else Go(l.(pc := KSend)).(close := true)
  }

  ghost predicate CloseSender(l: Thread, v: View, e: Eff) {
    && l.pc == KSend
    && e == if v.sendq == [] then Go(l.(pc := KRecv)) else Go(l).(sq := WakeHead, res := Closed)
  }

  ghost predicate CloseReceiver(l: Thread, v: View, e: Eff) {
    && l.pc == KRecv
    && e == if v.recvq == [] then Go(l.(pc := Rest))
            else Pop(l.(pc := KPop(v.recvq[0])), 1).(rq := Take)
  }

  ghost predicate ClosePop(l: Thread, op: Op<Item>, e: Eff) {
    && l.pc.KPop? && op.CRet?
    && e == Go(l.(pc := KRecv)).(rq := WakeHand, res := if op.got == [] then Closed else Ok, got := op.got)
  }

  // ------------------------------------------------------------- executions

  ghost predicate SendProg(t: Tid, l: Thread, op: Op<Item>, v: View, e: Eff) {
    || (exists vals, mode :: BeginSend(t, l, v, e, vals, mode))
    || (exists fast :: GateSend(l, v, e, fast))
    || (exists retry :: AfterPush(l, op, v, e, retry))
    || LockDeliver(l, v, e) || LockSend(l, v, e) || AfterPush1(l, op, e) || AfterPush2(l, op, e)
    || DeliverLoad(l, v, e) || DeliverTest(l, v, e) || DeliverPop(l, op, e)
  }

  ghost predicate RecvProg(l: Thread, op: Op<Item>, v: View, e: Eff) {
    || (exists n, mode, fast :: BeginRecv(l, v, e, n, mode, fast))
    || (exists retry :: AfterPop(l, op, v, e, retry))
    || LockRecv(l, v, e) || AfterPop1(l, op, v, e) || AfterPop2(l, op, e) || AfterHelp(l, op, e)
    || LockAdmit(l, v, e) || AdmitLoad(l, v, e) || AdmitTest(l, v, e) || AdmitPush(l, op, e)
  }

  ghost predicate SleepProg(t: Tid, l: Thread, v: View, e: Eff) {
    || WakeUp(l, e) || Expire(l, e) || ExpireSend(t, l, v, e) || ExpireRecv(t, l, v, e)
    || LeaveSend(l, e) || LeaveRecv(l, e)
  }

  ghost predicate CloseProg(l: Thread, op: Op<Item>, v: View, e: Eff) {
    || BeginClose(l, e) || LockClose(l, v, e) || CloseSender(l, v, e) || CloseReceiver(l, v, e) || ClosePop(l, op, e)
  }

  ghost predicate Prog(t: Tid, l: Thread, op: Op<Item>, v: View, e: Eff) {
    SendProg(t, l, op, v, e) || RecvProg(l, op, v, e) || SleepProg(t, l, v, e) || CloseProg(l, op, v, e)
  }

  function ViewOf(c: Chan, t: Tid): View {
    var m := c.ring.m;
    var first := if c.sh.sendq != [] && c.sh.sendq[0] in c.th then c.th[c.sh.sendq[0]].items else [];
    View(c.sh.lock == None, c.sh.closed, c.sh.sendCnt, c.sh.recvCnt, c.sh.sendq, c.sh.recvq, first,
         m.cap, m.ph, m.pt, m.ch, m.ct,
         c.prod == None || c.prod == Some(t), c.cons == None || c.cons == Some(t))
  }

  function Wake(th: map<Tid, Thread>, w: Option<Tid>, e: Eff): map<Tid, Thread> {
    if w.Some? && w.value in th then th[w.value := th[w.value].(res := Some(e.res), done := e.got)] else th
  }

  /** The lock follows the places: taken on entering a locked place, released on leaving. */
  function LockAfter(lock: Option<Tid>, pc: Pc, pc': Pc, t: Tid): Option<Tid> {
    if pc'.Locked() then Some(t) else if pc.Locked() then None else lock
  }

  function Leaves(items: seq<Item>, to: Tid, rid: nat): (r: seq<Leave>)
    ensures |r| == |items| && forall j :: 0 <= j < |r| ==> r[j] == Leave(items[j], to, rid)
  {
    seq(|items|, j requires 0 <= j < |items| => Leave(items[j], to, rid))
  }

  function Record(log: Log, t: Tid, l: Thread, e: Eff): Log {
    var log1 := match e.note
      case Quiet => log
      case Sent(k, res) => log.(sends := log.sends + [SendRec(l.items, l.late, k, res)])
      case Received(got, res) => log.(recvs := log.recvs + [RecvRec(t, l.rid, got, res)]);
    if e.direct then log1.(acc := log.acc + e.got, left := log.left + Leaves(e.got, t, l.rid)) else log1
  }

  function Apply(c: Chan, t: Tid, e: Eff): Chan
    requires t in c.th
  {
    var l := c.th[t];
    var th := Wake(Wake(c.th, Served(e.sq, c.sh.sendq, SendHand(l.pc)), e),
                   Served(e.rq, c.sh.recvq, RecvHand(l.pc)), e);
    c.(ring := SetOp(c.ring, t, e.op),
       sh := Shared(LockAfter(c.sh.lock, l.pc, e.l.pc, t), c.sh.sendCnt + e.dsend, c.sh.recvCnt + e.drecv,
                    QApply(e.sq, c.sh.sendq, t, SendHand(l.pc)), QApply(e.rq, c.sh.recvq, t, RecvHand(l.pc)),
                    c.sh.closed || e.close),
       th := th[t := e.l],
       log := Record(c.log, t, l, e))
  }

  ghost predicate Control(c: Chan, c': Chan, t: Tid, e: Eff) {
    && t in c.th && t in c.ring.ops
    && Prog(t, c.th[t], c.ring.ops[t], ViewOf(c, t), e)
    && c' == Apply(c, t, e)
  }

  /** The thread whose receive request a ring pop of t serves. */
  function ServedBy(pc: Pc, t: Tid): Tid { if RecvHand(pc).Some? then RecvHand(pc).value else t }

  /** One atomic step of the ring operation t is inside.  Values reserved by a
      push are accepted; values reserved by a pop leave. */
  ghost predicate RingStep(c: Chan, c': Chan, t: Tid) {
    && t in c.th && Step(c.ring, c'.ring, t) && ServedBy(c.th[t].pc, t) in c.th
    && |c.ring.m.hist| <= |c'.ring.m.hist| && c.ring.m.ch <= c'.ring.m.ch <= |c.ring.m.hist|
    && var to := ServedBy(c.th[t].pc, t);
       c' == c.(ring := c'.ring, log := c.log.(
         acc := c.log.acc + c'.ring.m.hist[|c.ring.m.hist|..],
         left := c.log.left + Leaves(c.ring.m.hist[c.ring.m.ch..c'.ring.m.ch], to, c.th[to].rid)))
  }

  /** Thread t takes one step. */
  ghost predicate StepBy(c: Chan, c': Chan, t: Tid) {
    RingStep(c, c', t) || exists e :: Control(c, c', t, e)
  }

  ghost predicate Next(c: Chan, c': Chan) {
    exists t: Tid :: StepBy(c, c', t)
  }

  ghost predicate Run(run: seq<Chan>) {
    |run| > 0 && Init(run[0]) && forall i :: 0 <= i < |run| - 1 ==> Next(run[i], run[i+1])
  }
}
