/** The structural invariant of the channel: ring operations match the places
    of their threads, one thread holds the lock, and every registered waiter is
    queued, in the lock holder's hands, or has its result. */
module ChannelBase {
  import opened Results
  import opened Seqs
  import opened Ring
  import opened Channel

  /** The thread whose values a ring push serves: t's own, or a dequeued sender's. */
  function Author(pc: Pc, t: Tid): Tid { if SendHand(pc).Some? then SendHand(pc).value else t }

  ghost predicate PushFits(op: Op<Item>, items: seq<Item>, burst: bool) {
    match op
    case PLoadHead(b, vals) => b == burst && vals == items
    case PLoadTail(b, vals, _) => b == burst && vals == items
    case PCas(b, vals, _, _) => b == burst && vals == items
    case PWrite(_, vals, _) => vals != [] && vals <= items
    case PRet(_, sent) => sent <= items
    case _ => false
  }

  ghost predicate PopFits(op: Op<Item>, n: nat) {
    match op
    case CLoadHead(m) => m == n
    case CLoadTail(m, _) => m == n
    case CCas(m, _, _) => m == n
    case CRead(_, k, _) => k <= n
    case CRet(_, got) => |got| <= n
    case _ => false
  }

  /** A ring operation fits its thread's place; `items` are the author's values. */
  ghost predicate OpFits(op: Op<Item>, l: Thread, items: seq<Item>) {
    if l.pc.Pushing() then PushFits(op, items, l.pc.SPush? && l.mode == Burst)
    else if l.pc.Popping() then PopFits(op, if l.pc.RPop? then l.want else 1)
    else op.Idle?
  }

  ghost predicate Asleep(l: Thread) { l.pc.SParked? || l.pc.SExpired? }
  ghost predicate Dozing(l: Thread) { l.pc.RParked? || l.pc.RExpired? }

  /** The values of a request are numbered consecutively by their producer. */
  ghost predicate Numbered(items: seq<Item>, serial: nat, t: Tid) {
    forall j :: 0 <= j < |items| ==> items[j].producer == t && items[j].serial == serial + j
  }

  /** Requests: none; a send, of one value unless it is a burst; a receive likewise. */
  ghost predicate NoReq(l: Thread) { l.items == [] && l.want == 0 && l.res == None }
  ghost predicate SendReq(l: Thread) { l.items != [] && l.want == 0 && (l.mode != Burst ==> |l.items| == 1) }
  ghost predicate SendOne(l: Thread) { |l.items| == 1 && l.want == 0 && l.mode != Burst }
  ghost predicate RecvReq(l: Thread) { l.items == [] && l.want > 0 && (l.mode != Burst ==> l.want == 1) }
  ghost predicate RecvOne(l: Thread) { l.items == [] && l.want == 1 && l.mode != Burst }

  ghost predicate DeliverReq(l: Thread, k: Cont) {
    && l.res == None && !l.late
    && if k == Finish then SendReq(l) && l.done != [] && l.done <= l.items else SendOne(l)
  }

  /** The request a thread has at each place. */
  ghost predicate PlaceOk(l: Thread) {
    match l.pc
    case Rest | KLock | KSend | KRecv | KPop(_) => NoReq(l) && !l.late
    case SGate => SendReq(l) && l.res == None
    case SPush => SendReq(l) && l.res == None && !l.late
    case SDeliverLock => DeliverReq(l, Finish)
    case SLock => SendOne(l) && l.res == None
    case SPush1 | SPush2 => SendOne(l) && l.res == None && !l.late
    case SParked | SExpired => SendOne(l) && !l.late
    case SWoken => SendOne(l) && l.res.Some? && !l.late
    case DLoad(k) => DeliverReq(l, k)
    case DTest(k, _) => DeliverReq(l, k)
    case DPop(k, _) => DeliverReq(l, k)
    case RPop => RecvReq(l) && l.res == None && !l.late
    case RAdmitLock | ALoad | ATest(_) | APush(_) => RecvReq(l) && l.done != [] && l.res == None && !l.late
    case RHelp(_) => RecvOne(l) && l.done != [] && l.res == None && !l.late
    case RLock | RPop1 | RPop2 => RecvOne(l) && l.res == None && !l.late
    case RParked | RExpired => RecvOne(l) && !l.late && (l.res == Some(Ok) ==> l.done != [])
    case RWoken => RecvOne(l) && l.res.Some? && !l.late && (l.res == Some(Ok) ==> l.done != [])
  }

  ghost predicate RequestOk(l: Thread, t: Tid) { Numbered(l.items, l.serial, t) && PlaceOk(l) }

  // ------------------------------------------------------------ wait queues

  /** Registered as a waiter, result not set. */
  ghost predicate SendWaits(l: Thread) {
    match l.pc case SPush2 => true case SParked | SExpired => l.res == None case _ => false
  }
  ghost predicate RecvWaits(l: Thread) {
    match l.pc case RPop2 => true case RParked | RExpired => l.res == None case _ => false
  }

  ghost function SendWaiters(th: map<Tid, Thread>): set<Tid> { set u <- th | SendWaits(th[u]) }
  ghost function RecvWaiters(th: map<Tid, Thread>): set<Tid> { set u <- th | RecvWaits(th[u]) }

  function HolderPc(sh: Shared, th: map<Tid, Thread>): Pc {
    if sh.lock.Some? && sh.lock.value in th then th[sh.lock.value].pc else Rest
  }

  /** A queue holds exactly the unserved waiters, except the one in hand, once each. */
  ghost predicate QueueOk(q: seq<Tid>, ws: set<Tid>, hand: Option<Tid>) {
    && Distinct(q)
    && (forall u :: u in q <==> u in ws && hand != Some(u))
    && (hand.Some? ==> hand.value in ws)
  }

  /** How a queue operation goes with the hands of the acting thread. */
  ghost predicate QueueMove(op: QOp, q: seq<Tid>, t: Tid, hand: Option<Tid>, hand': Option<Tid>) {
    match op
    case Keep => hand' == hand
    case Join => hand' == hand == None
    case Quit => t in q && hand' == hand
    case Take => q != [] && hand == None && hand' == Some(q[0])
    case PutBack => hand.Some? && hand' == None
    case WakeHand => hand.Some? && hand' == None
    case WakeHead => q != [] && hand' == hand == None
  }

  /** How it goes with the acting thread's own status as a waiter. */
  ghost predicate WaitMove(op: QOp, before: bool, after: bool) {
    if op.Keep? then before == after else before == op.Quit? && after == op.Join?
  }

  function WaitersAfter(op: QOp, ws: set<Tid>, t: Tid, served: Option<Tid>): set<Tid> {
    if op.Join? then ws + {t} else if op.Quit? then ws - {t} else if served.Some? then ws - {served.value} else ws
  }

  lemma QueueStep(op: QOp, q: seq<Tid>, ws: set<Tid>, t: Tid, hand: Option<Tid>, hand': Option<Tid>)
    requires QueueOk(q, ws, hand) && QueueMove(op, q, t, hand, hand') && (op.Join? ==> t !in ws)
    ensures QueueOk(QApply(op, q, t, hand), WaitersAfter(op, ws, t, Served(op, q, hand)), hand')
  {
    var q', ws' := QApply(op, q, t, hand), WaitersAfter(op, ws, t, Served(op, q, hand));
    if op.Quit? { WithoutDistinct(q, t); }
    if q != [] { assert q == [q[0]] + q[1..]; }
    assert forall u :: u in q' <==> u in ws' && hand' != Some(u);
  }

  // ---------------------------------------------------------- program steps

  /** Places reached under the lock only while the channel is open. */
  ghost predicate NeedsOpen(pc: Pc) {
    match pc
    case SPush1 | SPush2 | RPop2 => true
    case DLoad(k) => k == ThenPark
    case DTest(k, _) => k == ThenPark
    case DPop(k, _) => k == ThenPark
    case _ => false
  }

  /** Values a ring push has reserved so far; values a returned pop has taken. */
  function OpSent(op: Op<Item>): seq<Item> {
    match op case PWrite(_, vals, _) => vals case PRet(_, sent) => sent case _ => []
  }
  function RetGot(op: Op<Item>): seq<Item> { match op case CRet(_, got) => got case _ => [] }

  /** How many values of its send request a thread has moved into the channel. */
  function Moved(l: Thread, op: Op<Item>): nat {
    match l.pc
    case SPush | SPush1 | SPush2 => |OpSent(op)|
    case SDeliverLock => |l.done|
    case DLoad(k) => if k == Finish then |l.done| else 0
    case DTest(k, _) => if k == Finish then |l.done| else 0
    case DPop(k, _) => if k == Finish then |l.done| else 0
    case SParked | SExpired | SWoken => if l.res == Some(Ok) then 1 else 0
    case _ => 0
  }

  /** The values a receiver holds for its request; `got` is what its ring pop has taken. */
  function Kept(l: Thread, got: seq<Item>): seq<Item> {
    match l.pc
    case RPop | RPop1 | RPop2 => got
    case RAdmitLock | ALoad | ATest(_) | APush(_) | RHelp(_) => l.done
    case RParked | RExpired | RWoken => if l.res == Some(Ok) then l.done else []
    case _ => []
  }

  function Bit(b: bool): int { if b then 1 else 0 }

  // -------------------------------------------------------------- invariant

  ghost predicate LockOk(sh: Shared, th: map<Tid, Thread>) {
    && (sh.lock.Some? ==> sh.lock.value in th && th[sh.lock.value].pc.Locked())
    && (forall u <- th :: th[u].pc.Locked() ==> sh.lock == Some(u))
  }

  ghost function AuthorItems(th: map<Tid, Thread>, u: Tid): seq<Item>
    requires u in th
  {
    var a := Author(th[u].pc, u);
    if a in th then th[a].items else []
  }

  ghost predicate ThreadsOk(ops: map<Tid, Op<Item>>, th: map<Tid, Thread>) {
    && ops.Keys == th.Keys
    && (forall u <- th :: RequestOk(th[u], u))
    && (forall u <- th :: OpFits(ops[u], th[u], AuthorItems(th, u)))
  }

  ghost predicate OpenOk(closed: bool, th: map<Tid, Thread>) {
    forall u <- th :: (NeedsOpen(th[u].pc) ==> !closed) && (th[u].late ==> closed)
  }

  ghost predicate Base(c: Chan) {
    && Inv(c.ring)
    && ThreadsOk(c.ring.ops, c.th)
    && OpenOk(c.sh.closed, c.th)
    && LockOk(c.sh, c.th)
    && QueueOk(c.sh.sendq, SendWaiters(c.th), SendHand(HolderPc(c.sh, c.th)))
    && QueueOk(c.sh.recvq, RecvWaiters(c.th), RecvHand(HolderPc(c.sh, c.th)))
  }

  // ------------------------------------------------------------- ring steps

  lemma RingStepFits(m: Mem<Item>, op: Op<Item>, m': Mem<Item>, op': Op<Item>, t: Tid, l: Thread, items: seq<Item>)
    requires OpOk(m, t, op) && OpStep(m, op, m', op', t) && OpFits(op, l, items)
    ensures OpFits(op', l, items)
    ensures if l.pc.Pushing() then !EffectOf(op, op').ResC? else l.pc.Popping() && !EffectOf(op, op').ResP?
  {
    hide AllStored, Owns, Slice, ReserveP, ReserveC, Cursors, Room;
  }

  lemma RingStepKeepsBase(c: Chan, c': Chan, t: Tid)
    requires Base(c) && RingStep(c, c', t)
    ensures Base(c')
  {
    hide OpStep, Inv, OpFits, QueueOk, LockOk, OpenOk, RequestOk;
    StepKeepsInv(c.ring, c'.ring, t);
    InvOp(c.ring, t);
    RingStepFits(c.ring.m, c.ring.ops[t], c'.ring.m, c'.ring.ops[t], t, c.th[t], AuthorItems(c.th, t));
  }

  lemma InvOp(s: Ring<Item>, t: Tid)
    requires Inv(s) && t in s.ops
    ensures OpOk(s.m, t, s.ops[t]) && Cursors(s.m)
  {
  }

  /** What a thread may rely on when it takes a program step. */
  ghost predicate Pre(t: Tid, l: Thread, op: Op<Item>, v: View) {
    && RequestOk(l, t)
    && (if SendHand(l.pc).Some? then |OpSent(op)| <= 1 else OpFits(op, l, l.items))
    && (l.pc.SPush2? ==> t in v.sendq) && (l.pc.RPop2? ==> t in v.recvq)
    && (l.pc == SExpired && v.free ==> (t in v.sendq <==> l.res == None))
    && (l.pc == RExpired && v.free ==> (t in v.recvq <==> l.res == None))
    && (v.sendq != [] ==> |v.first| == 1)
    && (NeedsOpen(l.pc) ==> !v.closed) && (l.late ==> v.closed)
  }

  /** What it guarantees by it: a well-formed next state, ... */
  ghost predicate Shape(t: Tid, v: View, e: Eff) {
    && RequestOk(e.l, t) && e.op.Fresh()
    && OpFits(e.op, e.l, if SendHand(e.l.pc).Some? then v.first else e.l.items)
  }

  /** ... a lawful use of the lock, the queues and the counts, ... */
  ghost predicate Lawful(t: Tid, l: Thread, v: View, e: Eff) {
    && (e.l.items == l.items || !SendWaits(l))
    && (!l.pc.Locked() && (e.l.pc.Locked() || !e.sq.Keep? || !e.rq.Keep?) ==> v.free)
    && WaitMove(e.sq, SendWaits(l), SendWaits(e.l)) && WaitMove(e.rq, RecvWaits(l), RecvWaits(e.l))
    && QueueMove(e.sq, v.sendq, t, SendHand(l.pc), SendHand(e.l.pc))
    && QueueMove(e.rq, v.recvq, t, RecvHand(l.pc), RecvHand(e.l.pc))
    && (SendHand(l.pc) == SendHand(e.l.pc) ==> SendHand(l.pc) == None)
    && (RecvHand(l.pc) == RecvHand(e.l.pc) ==> RecvHand(l.pc) == None)
    && e.dsend == Bit(e.l.pc.SendReg()) - Bit(l.pc.SendReg())
    && e.drecv == Bit(e.l.pc.RecvReg()) - Bit(l.pc.RecvReg())
    && (NeedsOpen(e.l.pc) ==> !v.closed && !e.close) && (e.l.late ==> v.closed) && (e.close ==> v.free)
  }

  /** ... an honest account of the values moved by its own request, ... */
  ghost predicate OwnLedger(l: Thread, op: Op<Item>, e: Eff) {
    && e.l.serial == l.serial + (if e.note.Sent? then |l.items| else 0)
    && e.l.rid == l.rid + Bit(e.note.Received?) && (!e.note.Quiet? ==> e.l.pc == Rest)
    && (e.l.items == l.items || l.items == [] || e.note.Sent?)
    && (e.direct ==> l.pc == RPop1 && op.CRet? && op.got == [])
    && (if e.note.Sent? then
          e.note.k == Moved(l, op) <= |l.items| && (e.note.res == Ok <==> e.note.k > 0) && e.l.items == []
          && (l.late ==> e.note.res == if l.mode == Burst then WouldBlock else Closed)
        else Moved(e.l, e.op) == Moved(l, op))
    && (if e.note.Received? then
          && e.note.got == Kept(l, RetGot(op)) + (if e.direct then e.got else [])
          && (e.note.res == Ok <==> e.note.got != [])
        else Kept(e.l, []) == Kept(l, RetGot(op)))
  }

  /** ... and of the values moved for the waiter it serves or puts back. */
  ghost predicate WaiterLedger(op: Op<Item>, v: View, e: Eff) {
    && (e.sq.WakeHand? ==> e.res == Ok && |OpSent(op)| == 1)
    && (e.sq.PutBack? ==> OpSent(op) == [])
    && (e.sq.WakeHead? ==> (e.res == Ok <==> e.direct) && (e.direct ==> e.got == v.first))
    && (e.direct ==> e.sq.WakeHead? && e.note.Received?)
    && (e.rq.WakeHand? ==> if e.res == Ok then e.got == RetGot(op) != [] else RetGot(op) == [])
    && (e.rq.PutBack? ==> RetGot(op) == [])
    && !e.rq.WakeHead? && ((e.sq.WakeHand? || e.sq.WakeHead?) ==> !e.rq.WakeHand?)
  }

  ghost predicate Post(t: Tid, l: Thread, op: Op<Item>, v: View, e: Eff) {
    op.Returned() && Shape(t, v, e) && Lawful(t, l, v, e) && OwnLedger(l, op, e) && WaiterLedger(op, v, e)
  }
}
