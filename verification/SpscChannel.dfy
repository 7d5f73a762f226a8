/** A single-producer single-consumer channel: two threads, one per side, each
    with the cursor-cached fast path, the burst form, the locked slow path, and
    the parking protocol with its bounded backstop.  Both sides run the same
    protocol, except that only a receiver takes a parked peer's value directly
    and only a sender helps its peer before it parks.

    A thread's read of the peer's waiter count may miss a registration until
    the peer's bounded park has expired; from then on it is accurate. */
module SpscChannel {
  import opened Results
  import opened Sides
  import R = SpscRing

  datatype Cont = Finish | ThenPark

  datatype Pc =
    | Rest | Fast | Burst | Check | HelpLock | SLock
    | Own | Loop(k: Cont) | Help(k: Cont) | Recheck | Back
    | ParkB | BLock | ParkF | ParkT | TLock | Woken
  {
    predicate Locked() { match this case Own | Loop(_) | Help(_) | Recheck | Back => true case _ => false }
    /** Inside a ring operation of its own side. */
    predicate Active() { match this case Fast | Burst | Own | Recheck | Back => true case _ => false }
    predicate Asleep() { match this case ParkB | BLock | ParkF | ParkT | TLock => true case _ => false }
    /** Registered in its side's waiter count. */
    predicate Registered() { match this case Recheck | Back | Woken => true case _ => Asleep() }
  }

  /** `val` is a sender's value; `queued`: in its side's wait queue; `served`: its
      waiter's result is set; `durable`: its bounded park has expired; `have`: the
      values its request has moved; `res`: the result it is going to return. */
  datatype Thread<V> = Thread(
    pc: Pc, op: R.Op<V>, val: seq<V>, queued: bool, served: bool, durable: bool, have: seq<V>, res: Option<Result>)

  datatype Lock = Free | Held(who: Side)

  /** A returned request: what it was to send, what it moved and what it reported. */
  datatype Receipt<V> = Receipt(side: Side, val: seq<V>, have: seq<V>, res: Result)

  /** History: values accepted by the channel, values that left it, requests returned. */
  datatype Log<V> = Log(acc: seq<V>, left: seq<V>, done: seq<Receipt<V>>)

  datatype State<V> = State(m: R.Mem<V>, lock: Lock, p: Thread<V>, c: Thread<V>, log: Log<V>)
  {
    function Of(s: Side): Thread<V> { if s == Prod then p else c }
    function With(s: Side, t: Thread<V>): State<V> { if s == Prod then this.(p := t) else this.(c := t) }
  }

  ghost predicate Init<V>(st: State<V>) {
    && st.m.cap > 0 && |st.m.slots| == st.m.cap && st.m.hist == []
    && st.m.prod == st.m.cons == R.Half(0, 0, 0)
    && st.lock == Free && st.p == st.c == AtRest() && st.log == Log([], [], [])
  }

  function AtRest<V>(): Thread<V> { Thread(Rest, R.Off, [], false, false, false, [], None) }

  // ---------------------------------------------------------- control steps

  /** What a step does to the peer: nothing, take it out of the queue, put it
      back, or set its result. */
  datatype Deed = Leave | Take | PutBack | Serve

  function Treat<V>(u: Thread<V>, d: Deed, gift: seq<V>): Thread<V> {
    match d
    case Leave => u
    case Take => u.(queued := false)
    case PutBack => u.(queued := true)
    case Serve => u.(queued := false, served := true, have := gift, res := Some(Ok))
  }

  /** The values a committed operation has moved. */
  function Fruit<V>(op: R.Op<V>): seq<V> { if op.F5? || op.Done? then op.data else [] }

  /** What t moves for the peer u it serves: u's own value, taken directly, or
      what the ring operation made for u has moved. */
  function Gift<V>(t: Thread<V>, u: Thread<V>): seq<V> { if t.pc == Own then u.val else Fruit(t.op) }

  function Go<V>(t: Thread<V>, pc: Pc): Thread<V> { t.(pc := pc, op := R.Off) }

  /** The ring operation made for the thread's own request has succeeded. */
  function Won<V>(t: Thread<V>, pc: Pc): Thread<V> { Go(t, pc).(have := Fruit(t.op), res := Some(Ok)) }

  function Single<V>(t: Thread<V>, pc: Pc): Thread<V> { t.(pc := pc, op := R.R0(1, t.val)) }

  /** The ring test before helping side o: not empty, or not full. */
  predicate Possible<V>(m: R.Mem<V>, o: Side) {
    if o == Cons then m.prod.tail != m.cons.head else m.prod.head < m.Limit(Prod)
  }

  /** After a refused or finished helping loop. */
  ghost predicate Exit<V>(t: Thread<V>, t': Thread<V>, k: Cont) {
    || t' == AtRest()
    || (k == ThenPark && t' == Single(t, Recheck).(queued := true, served := false, durable := false))
  }

  ghost predicate Begin<V>(s: Side, t': Thread<V>) {
    && !t'.queued && !t'.served && !t'.durable && t'.have == [] && t'.res == None && (s == Cons ==> t'.val == [])
    && match t'.pc
       case Fast => t'.op == R.F0(t'.val) && (s == Prod ==> |t'.val| == 1)
       case SLock => t'.op == R.Off && (s == Prod ==> |t'.val| == 1)
       case Burst => t'.op.R0? && t'.op.n > 0 && t'.op.data == t'.val && (s == Prod ==> |t'.val| == t'.op.n)
       case _ => false
  }

  /** Steps outside the lock. */
  ghost predicate Outside<V>(s: Side, t: Thread<V>, u: Thread<V>, lock: Lock, t': Thread<V>) {
    match t.pc
    case Rest => Begin(s, t')
    case Fast =>
      || (t.op.Done? && t' == Won(t, Check))
      || (t.op.Refused? && (t' == t.(op := R.F0(t.val)) || t' == Go(t, SLock)))
    case Burst =>
      || (t.op.Done? && t' == Won(t, Check))
      || (t.op.Refused? && t' == AtRest())
    case Check =>
      || t' == Go(t, HelpLock)
      || (!(u.pc.Registered() && u.durable) && t' == AtRest())
    case HelpLock => lock == Free && t' == Go(t, Loop(Finish))
    case SLock => lock == Free && t' == Single(t, Own)
    case ParkB => (t.served && t' == Go(t, Woken)) || t' == Go(t, BLock).(durable := true)
    case ParkT => (t.served && t' == Go(t, Woken)) || t' == Go(t, TLock)
    case ParkF => t.served && t' == Go(t, Woken)
    case BLock => lock == Free && t' == if t.queued then Single(t, Back).(queued := false) else Go(t, Woken)
    case TLock => lock == Free && t' == Go(t, Woken).(queued := false, res := if t.queued then Some(Timeout) else t.res)
    case Woken => t' == AtRest()
    case _ => false
  }

  /** Steps under the lock. */
  ghost predicate Inside<V>(s: Side, m: R.Mem<V>, t: Thread<V>, u: Thread<V>, t': Thread<V>, d: Deed) {
    match t.pc
    case Own =>
      || (t.op.Done? && d == Leave && t' == Won(t, Loop(Finish)))
      || (t.op.Refused? && s == Prod && d == Leave && t' == Go(t, Loop(ThenPark)))
      || (t.op.Refused? && s == Cons
          && if u.queued then d == Serve && Exit(t, t', Finish) else d == Leave && Exit(t, t', ThenPark))
    case Loop(k) =>
      if u.queued && Possible(m, Other(s)) then d == Take && t' == t.(pc := Help(k), op := R.R0(1, u.val))
      else d == Leave && Exit(t, t', k)
    case Help(k) =>
      || (t.op.Done? && d == Serve && t' == Go(t, Loop(k)))
      || (t.op.Refused? && d == PutBack && Exit(t, t', k))
    case Recheck =>
      // A receiver returns at once here; the loop it enters instead leaves at its
      // first test, because no sender is queued while the receiver claims a place.
      || (t.op.Done? && d == Leave && t' == Won(t, Loop(Finish)).(queued := false))
      || (t.op.Refused? && d == Leave && (t' == Go(t, ParkB) || t' == Go(t, ParkT)))
    case Back =>
      || (t.op.Done? && d == Leave && t' == Won(t, Woken))
      || (t.op.Refused? && d == Leave && t' == Go(t, ParkF).(queued := true))
    case _ => false
  }

  function LockAfter(lock: Lock, pc: Pc, pc': Pc, s: Side): Lock {
    if pc'.Locked() then Held(s) else if pc.Locked() then Free else lock
  }

  /** A value taken directly is accepted and leaves at once; a request that
      returns leaves its receipt, without a result of its own for want of room,
      of a value, or of time. */
  function LogAfter<V>(log: Log<V>, s: Side, t: Thread<V>, u: Thread<V>, t': Thread<V>, d: Deed): Log<V> {
    var direct := t.pc == Own && d == Serve;
    var log1 := if direct then log.(acc := log.acc + u.val, left := log.left + u.val) else log;
    if t.pc == Rest || t'.pc != Rest then log1
    else log1.(done := log.done + [
      if direct then Receipt(s, t.val, u.val, Ok)
      else Receipt(s, t.val, t.have, if t.res.Some? then t.res.value else WouldBlock)])
  }

  ghost predicate Control<V>(st: State<V>, st': State<V>, s: Side, d: Deed) {
    var t, u, t' := st.Of(s), st.Of(Other(s)), st'.Of(s);
    && (if t.pc.Locked() then Inside(s, st.m, t, u, t', d) else d == Leave && Outside(s, t, u, st.lock, t'))
    && st' == st.With(s, t').With(Other(s), Treat(u, d, Gift(t, u)))
                .(lock := LockAfter(st.lock, t.pc, t'.pc, s), log := LogAfter(st.log, s, t, u, t', d))
  }

  /** The side a thread's ring operation works for. */
  function Role<V>(t: Thread<V>, s: Side): Side { if t.pc.Help? then Other(s) else s }

  function Committed<V>(log: Log<V>, r: Side, op: R.Op<V>): Log<V> {
    if !R.Commits(op) then log
    else if r == Prod then log.(acc := log.acc + op.data)
    else log.(left := log.left + op.data)
  }

  ghost predicate RingStep<V>(st: State<V>, st': State<V>, s: Side) {
    var t, t' := st.Of(s), st'.Of(s);
    && R.Step(st.m, Role(t, s), t.op, st'.m, t'.op)
    && st' == st.(m := st'.m, log := Committed(st.log, Role(t, s), t.op)).With(s, t.(op := t'.op))
  }

  ghost predicate StepBy<V>(st: State<V>, st': State<V>, s: Side) {
    RingStep(st, st', s) || exists d :: Control(st, st', s, d)
  }

  ghost predicate Next<V>(st: State<V>, st': State<V>) { exists s :: StepBy(st, st', s) }

  ghost predicate Run<V>(run: seq<State<V>>) {
    |run| > 0 && Init(run[0]) && forall i :: 0 <= i < |run| - 1 ==> Next(run[i], run[i+1])
  }

  // -------------------------------------------------------------- invariant

  /** The operation under way on side r: by its own thread, or by the peer for it. */
  function RoleOp<V>(st: State<V>, r: Side): R.Op<V> {
    if st.Of(Other(r)).pc.Help? then st.Of(Other(r)).op
    else if st.Of(r).pc.Active() then st.Of(r).op
    else R.Off
  }

  /** One more index is available to side r. */
  predicate Avail<V>(m: R.Mem<V>, r: Side) { m.Of(r).tail < m.Limit(r) }

  /** What a thread carries at each place: a sender's value, and no operation outside one. */
  ghost predicate Shape<V>(s: Side, t: Thread<V>) {
    && (s == Cons ==> t.val == [])
    && match t.pc
       case Fast | Own | Recheck | Back => s == Prod ==> |t.val| == 1
       case Burst => true
       case Help(k) => k == ThenPark ==> s == Prod && |t.val| == 1
       case Loop(k) => t.op == R.Off && (k == ThenPark ==> s == Prod && |t.val| == 1)
       case SLock | ParkB | BLock | ParkF | ParkT | TLock => t.op == R.Off && (s == Prod ==> |t.val| == 1)
       case Rest | Check | HelpLock | Woken => t.op == R.Off
  }

  ghost predicate OwnOk<V>(s: Side, t: Thread<V>, lock: Lock) { Shape(s, t) && (t.pc.Locked() <==> lock == Held(s)) }

  /** A thread's waiter: queued, in the peer's hands, or served. */
  ghost predicate WaitOk<V>(t: Thread<V>, helped: bool) {
    match t.pc
    case ParkB | ParkT | TLock => if t.queued then !t.served && !helped else t.served != helped
    case BLock | ParkF => t.durable && if t.queued then !t.served && !helped else t.served != helped
    case Recheck => t.queued && !t.served && !helped
    case Back => t.durable && !t.queued && !t.served && !helped
    case _ => !t.queued && !helped
  }

  /** A thread by itself and against its peer. */
  ghost predicate ThreadOk<V>(s: Side, t: Thread<V>, u: Thread<V>, lock: Lock) {
    OwnOk(s, t, lock) && WaitOk(t, u.pc.Help?)
  }

  /** Queued, or about to queue again. */
  predicate Claims<V>(t: Thread<V>) { t.queued || t.pc == Back }

  ghost predicate Base<V>(st: State<V>) {
    && R.Inv(st.m, Prod, RoleOp(st, Prod), RoleOp(st, Cons))
    && ThreadOk(Prod, st.p, st.c, st.lock) && ThreadOk(Cons, st.c, st.p, st.lock)
  }

  /** The help a thread gives is never refused. */
  ghost predicate Helps<V>(m: R.Mem<V>, r: Side, op: R.Op<V>) {
    match op
    case R0(_, _) | R1(_, _, _) | R2(_, _, _, _) => Avail(m, r)
    case RW(_, _, _, _) | Done(_) => true
    case _ => false
  }

  /** Parked for good, or about to be. */
  predicate Stuck<V>(t: Thread<V>) { (t.pc == ParkF && t.queued) || (t.pc == Back && t.op.Refused?) }

  /** Has committed and will yet look for the peer with an accurate count. */
  predicate Owes<V>(t: Thread<V>) {
    match t.pc
    case Fast | Burst | Own | Recheck => t.op.F5? || t.op.Done?
    case Check | HelpLock | Loop(_) => true
    case _ => false
  }

  /** A sender that is going to park leaves no queued receiver beside a non-empty ring. */
  ghost predicate Rescues<V>(m: R.Mem<V>, s: Side, t: Thread<V>, u: Thread<V>) {
    (t.pc == Loop(ThenPark) || (t.pc == Own && t.op.Refused? && s == Prod)) && u.queued ==> Avail(m, Other(s))
  }

  ghost predicate Remembered<V>(m: R.Mem<V>, s: Side, t: Thread<V>, u: Thread<V>) {
    Stuck(t) && Avail(m, s) ==> Owes(u)
  }

  ghost predicate WatchOf<V>(m: R.Mem<V>, s: Side, t: Thread<V>, u: Thread<V>) {
    && !(Claims(t) && Claims(u))
    && (t.pc.Help? ==> Helps(m, Other(s), t.op))
    && Rescues(m, s, t, u) && Remembered(m, s, t, u)
  }

  ghost predicate Watch<V>(st: State<V>, s: Side) { WatchOf(st.m, s, st.Of(s), st.Of(Other(s))) }

  ghost predicate Inv<V>(st: State<V>) { Base(st) && Watch(st, Prod) && Watch(st, Cons) }

  // ----------------------------------------------------------- preservation

  lemma RingSides<V>(m: R.Mem<V>, po: R.Op<V>, co: R.Op<V>)
    ensures R.Inv(m, Prod, po, co) <==> R.Inv(m, Cons, co, po)
  {
  }

  /** A ring step belongs to the only operation under way on its side. */
  lemma RingStepKeepsBase<V>(st: State<V>, st': State<V>, s: Side)
    requires Base(st) && RingStep(st, st', s)
    ensures Base(st') && RoleOp(st, Role(st.Of(s), s)) == st.Of(s).op
  {
    hide R.Step, R.Inv;
    var t, t', r := st.Of(s), st'.Of(s), Role(st.Of(s), s);
    assert !t.op.Returned() by { StepMoves(st.m, r, t.op, st'.m, t'.op); }
    RingSides(st.m, RoleOp(st, Prod), RoleOp(st, Cons));
    RingSides(st'.m, RoleOp(st', Prod), RoleOp(st', Cons));
    R.StepKeepsInv(st.m, r, t.op, st'.m, t'.op, RoleOp(st, Other(r)));
  }

  lemma StepMoves<V>(m: R.Mem<V>, r: Side, op: R.Op<V>, m': R.Mem<V>, op': R.Op<V>)
    requires R.Step(m, r, op, m', op')
    ensures !op.Returned()
  {
  }

  lemma OutsideKeepsShape<V>(s: Side, t: Thread<V>, u: Thread<V>, lock: Lock, t': Thread<V>)
    requires Shape(s, t) && !t.pc.Locked() && Outside(s, t, u, lock, t')
    ensures Shape(s, t') && (t'.pc.Locked() ==> lock == Free)
  {
    hide Begin;
    if t.pc == Rest { BeginShape(s, t'); }
  }

  lemma BeginShape<V>(s: Side, t': Thread<V>)
    requires Begin(s, t')
    ensures Shape(s, t') && !t'.pc.Locked()
  {
  }

  lemma OutsideKeepsWait<V>(s: Side, t: Thread<V>, u: Thread<V>, lock: Lock, t': Thread<V>)
    requires WaitOk(t, u.pc.Help?) && WaitOk(u, t.pc.Help?) && !t.pc.Locked() && Outside(s, t, u, lock, t')
    requires lock == Free ==> !u.pc.Locked()
    ensures WaitOk(t', u.pc.Help?) && WaitOk(u, t'.pc.Help?)
  {
  }

  lemma OutsideKeepsThread<V>(s: Side, t: Thread<V>, u: Thread<V>, lock: Lock, t': Thread<V>)
    requires ThreadOk(s, t, u, lock) && ThreadOk(Other(s), u, t, lock) && !t.pc.Locked() && Outside(s, t, u, lock, t')
    ensures var lock' := LockAfter(lock, t.pc, t'.pc, s); ThreadOk(s, t', u, lock') && ThreadOk(Other(s), u, t', lock')
  {
    hide Shape, WaitOk, Outside;
    OutsideKeepsShape(s, t, u, lock, t');
    OutsideKeepsWait(s, t, u, lock, t');
  }

  lemma InsideKeepsShape<V>(s: Side, m: R.Mem<V>, t: Thread<V>, u: Thread<V>, t': Thread<V>, d: Deed)
    requires Shape(s, t) && t.pc.Locked() && Inside(s, m, t, u, t', d)
    ensures Shape(s, t')
  {
    hide Possible;
  }

  lemma TreatKeepsShape<V>(s: Side, u: Thread<V>, d: Deed, gift: seq<V>)
    requires Shape(s, u)
    ensures Shape(s, Treat(u, d, gift)) && Treat(u, d, gift).pc == u.pc
  {
  }

  lemma InsideKeepsOwn<V>(s: Side, m: R.Mem<V>, t: Thread<V>, u: Thread<V>, lock: Lock, t': Thread<V>, d: Deed)
    requires OwnOk(s, t, lock) && OwnOk(Other(s), u, lock) && t.pc.Locked() && Inside(s, m, t, u, t', d)
    ensures var lock', u' := LockAfter(lock, t.pc, t'.pc, s), Treat(u, d, Gift(t, u));
      OwnOk(s, t', lock') && OwnOk(Other(s), u', lock')
  {
    hide Shape, Inside, Treat, Gift;
    InsideKeepsShape(s, m, t, u, t', d);
    TreatKeepsShape(Other(s), u, d, Gift(t, u));
  }

  lemma InsideKeepsWait<V>(s: Side, m: R.Mem<V>, t: Thread<V>, u: Thread<V>, t': Thread<V>, d: Deed)
    requires WaitOk(t, u.pc.Help?) && WaitOk(u, t.pc.Help?) && t.pc.Locked() && !u.pc.Locked()
    requires Inside(s, m, t, u, t', d)
    ensures WaitOk(t', u.pc.Help?) && WaitOk(Treat(u, d, Gift(t, u)), t'.pc.Help?)
  {
    hide Possible;
  }

  lemma InsideKeepsThread<V>(s: Side, m: R.Mem<V>, t: Thread<V>, u: Thread<V>, lock: Lock, t': Thread<V>, d: Deed)
    requires ThreadOk(s, t, u, lock) && ThreadOk(Other(s), u, t, lock) && t.pc.Locked() && Inside(s, m, t, u, t', d)
    ensures var lock', u' := LockAfter(lock, t.pc, t'.pc, s), Treat(u, d, Gift(t, u));
      ThreadOk(s, t', u', lock') && ThreadOk(Other(s), u', t', lock')
  {
    assert !u.pc.Locked();
    hide OwnOk, WaitOk, Inside;
    InsideKeepsOwn(s, m, t, u, lock, t', d);
    InsideKeepsWait(s, m, t, u, t', d);
  }

  /** A ring operation that can follow a returned one. */
  ghost predicate Starts<V>(r: Side, op: R.Op<V>) {
    match op
    case Off | Refused => true
    case F0(data) => if r == Prod then |data| == 1 else data == []
    case R0(n, data) => n > 0 && if r == Prod then |data| == n else data == []
    case _ => false
  }

  lemma StartKeepsRing<V>(m: R.Mem<V>, r: Side, op: R.Op<V>, op': R.Op<V>, oo: R.Op<V>)
    requires R.Inv(m, r, op, oo) && op.Returned() && Starts(r, op')
    ensures R.Inv(m, r, op', oo)
  {
  }

  lemma OutsideStarts<V>(s: Side, t: Thread<V>, u: Thread<V>, lock: Lock, t': Thread<V>)
    requires ThreadOk(s, t, u, lock) && !t.pc.Locked() && Outside(s, t, u, lock, t')
    ensures t.op.Returned() && Starts(s, t'.op) && !t'.pc.Help? && (t'.pc.Active() ==> !u.pc.Help?)
  {
  }

  lemma InsideStarts<V>(s: Side, m: R.Mem<V>, t: Thread<V>, u: Thread<V>, lock: Lock, t': Thread<V>, d: Deed)
    requires ThreadOk(s, t, u, lock) && ThreadOk(Other(s), u, t, lock) && t.pc.Locked() && Inside(s, m, t, u, t', d)
    ensures t.op.Returned() && Starts(Role(t', s), t'.op) && !u.pc.Help?
    ensures (t'.pc.Help? || t.pc.Help? ==> !u.pc.Active())
    ensures t'.pc.Help? ==> !t.pc.Active()
  {
    hide Possible;
  }

  /** A control step leaves the operation of a side alone, or follows a returned one. */
  ghost predicate Follows<V>(r: Side, op: R.Op<V>, op': R.Op<V>) { op' == op || (op.Returned() && Starts(r, op')) }

  lemma ControlFollows<V>(st: State<V>, st': State<V>, s: Side, d: Deed)
    requires Base(st) && Control(st, st', s, d)
    ensures Follows(s, RoleOp(st, s), RoleOp(st', s)) && Follows(Other(s), RoleOp(st, Other(s)), RoleOp(st', Other(s)))
  {
    var t, u, t' := st.Of(s), st.Of(Other(s)), st'.Of(s);
    if t.pc.Locked() { InsideStarts(s, st.m, t, u, st.lock, t', d); } else { OutsideStarts(s, t, u, st.lock, t'); }
    hide ThreadOk, Inside, Outside, R.Inv, Starts, LockAfter;
    StartOff<V>(s);
    StartOff<V>(Other(s));
  }

  lemma FollowKeepsRing<V>(m: R.Mem<V>, s: Side, op: R.Op<V>, oo: R.Op<V>, op': R.Op<V>, oo': R.Op<V>)
    requires R.Inv(m, s, op, oo) && Follows(s, op, op') && Follows(Other(s), oo, oo')
    ensures R.Inv(m, s, op', oo')
  {
    hide R.Inv, Starts;
    if op' != op { StartKeepsRing(m, s, op, op', oo); }
    Turned(m, s, op', oo);
    if oo' != oo { StartKeepsRing(m, Other(s), oo, oo', op'); }
    Turned(m, s, op', oo');
  }

  lemma Turned<V>(m: R.Mem<V>, s: Side, op: R.Op<V>, oo: R.Op<V>)
    ensures R.Inv(m, s, op, oo) <==> R.Inv(m, Other(s), oo, op)
  {
  }

  lemma ControlKeepsRing<V>(st: State<V>, st': State<V>, s: Side, d: Deed)
    requires Base(st) && Control(st, st', s, d)
    ensures R.Inv(st'.m, Prod, RoleOp(st', Prod), RoleOp(st', Cons))
  {
    hide ThreadOk, Inside, Outside, R.Inv, Follows, RoleOp;
    ControlFollows(st, st', s, d);
    RingSides(st.m, RoleOp(st, Prod), RoleOp(st, Cons));
    FollowKeepsRing(st.m, s, RoleOp(st, s), RoleOp(st, Other(s)), RoleOp(st', s), RoleOp(st', Other(s)));
    RingSides(st.m, RoleOp(st', Prod), RoleOp(st', Cons));
  }

  lemma StartOff<V>(r: Side)
    ensures Starts<V>(r, R.Off)
  {
  }

  lemma ControlKeepsBase<V>(st: State<V>, st': State<V>, s: Side, d: Deed)
    requires Base(st) && Control(st, st', s, d)
    ensures Base(st')
  {
    ControlKeepsRing(st, st', s, d);
    var t, u, t' := st.Of(s), st.Of(Other(s)), st'.Of(s);
    hide R.Inv, OwnOk, WaitOk, Inside, Outside;
    if t.pc.Locked() {
      InsideKeepsThread(s, st.m, t, u, st.lock, t', d);
    } else {
      OutsideKeepsThread(s, t, u, st.lock, t');
    }
  }

  // ------------------------------------------------------------- wakeups

  /** What a ring step tells about availability. */
  lemma StepAvail<V>(m: R.Mem<V>, r: Side, op: R.Op<V>, m': R.Mem<V>, op': R.Op<V>, oo: R.Op<V>)
    requires R.Inv(m, r, op, oo) && R.Step(m, r, op, m', op')
    ensures m'.cap == m.cap && m'.Of(Other(r)) == m.Of(Other(r)) && !op.Returned()
    ensures if R.Commits(op) then op'.F5? || op'.Done? else m'.Of(r).tail == m.Of(r).tail
    ensures op'.Refused? ==> !Avail(m', r)
    ensures Helps(m, r, op) ==> Helps(m', r, op')
    ensures op.F5? ==> op'.Done?
  {
    hide R.Carries, R.Written, R.Stored;
  }

  lemma Room<V>(m: R.Mem<V>, r: Side, op: R.Op<V>, oo: R.Op<V>)
    requires R.Inv(m, r, op, oo)
    ensures m.cap > 0 && (!Avail(m, Prod) ==> Avail(m, Cons))
  {
  }

  lemma RingStepKeepsWatch<V>(st: State<V>, st': State<V>, s: Side)
    requires Inv(st) && RingStep(st, st', s)
    ensures Watch(st', s) && Watch(st', Other(s))
  {
    hide R.Step, R.Inv, Helps;
    var t, t', u, r := st.Of(s), st'.Of(s), st.Of(Other(s)), Role(st.Of(s), s);
    RingStepKeepsBase(st, st', s);
    assert Watch(st, s) && Watch(st, Other(s));
    assert R.Inv(st.m, r, t.op, RoleOp(st, Other(r))) by { RingSides(st.m, RoleOp(st, Prod), RoleOp(st, Cons)); }
    StepAvail(st.m, r, t.op, st'.m, t'.op, RoleOp(st, Other(r)));
    assert st'.m.cap > 0 && (!Avail(st'.m, Prod) ==> Avail(st'.m, Cons)) by {
      Room(st'.m, Prod, RoleOp(st', Prod), RoleOp(st', Cons));
    }
    assert !t.pc.Asleep() && (t.pc.Help? || t.pc.Active());
    hide RoleOp;
  }

  /** While a queued peer sleeps, the test before helping it is exact. */
  lemma PossibleIsAvail<V>(st: State<V>, s: Side)
    requires Base(st) && st.Of(s).pc.Loop? && st.Of(Other(s)).queued
    ensures Possible(st.m, Other(s)) <==> Avail(st.m, Other(s))
  {
    assert RoleOp(st, Other(s)) == R.Off;
  }

  lemma OutsideKeepsWatch<V>(m: R.Mem<V>, s: Side, t: Thread<V>, u: Thread<V>, lock: Lock, t': Thread<V>)
    requires ThreadOk(s, t, u, lock) && ThreadOk(Other(s), u, t, lock) && !t.pc.Locked() && Outside(s, t, u, lock, t')
    requires WatchOf(m, s, t, u) && WatchOf(m, Other(s), u, t)
    ensures WatchOf(m, s, t', u) && WatchOf(m, Other(s), u, t')
  {
    hide Avail, Shape, Helps;
    assert !t'.pc.Help? && (t'.pc.Loop? ==> t'.pc == Loop(Finish));
    assert Claims(t') ==> Claims(t);
    assert t'.queued ==> t.queued;
    assert !Stuck(t') || Stuck(t);
    assert Stuck(u) && Owes(t) ==> Owes(t');
    hide Outside, WaitOk, OwnOk;
  }

  /** What a locked step does, as far as waiting and helping go. */
  lemma InsideMoves<V>(m: R.Mem<V>, s: Side, t: Thread<V>, u: Thread<V>, lock: Lock, t': Thread<V>, d: Deed)
    requires ThreadOk(s, t, u, lock) && ThreadOk(Other(s), u, t, lock) && t.pc.Locked() && Inside(s, m, t, u, t', d)
    requires t.pc.Help? ==> !t.op.Refused?
    requires t.pc.Loop? && u.queued ==> (Possible(m, Other(s)) <==> Avail(m, Other(s)))
    requires Rescues(m, s, t, u)
    ensures d != PutBack && !u.pc.Locked() && (u.queued ==> u.pc.Asleep())
    ensures Claims(t') ==> Claims(t) || !Treat(u, d, Gift(t, u)).queued
    ensures t'.pc.Help? ==> t'.op.R0? && Avail(m, Other(s))
    ensures Stuck(t') ==> Stuck(t) && d == Leave
    ensures Rescues(m, s, t', Treat(u, d, Gift(t, u)))
  {
    hide Possible, Avail, Shape;
  }

  lemma InsideOwes<V>(m: R.Mem<V>, s: Side, t: Thread<V>, u: Thread<V>, lock: Lock, t': Thread<V>, d: Deed)
    requires ThreadOk(s, t, u, lock) && ThreadOk(Other(s), u, t, lock) && t.pc.Locked() && Inside(s, m, t, u, t', d)
    requires t.pc.Loop? && u.queued ==> (Possible(m, Other(s)) <==> Avail(m, Other(s)))
    ensures d == Leave && Stuck(u) && Avail(m, Other(s)) && Owes(t) ==> Owes(t')
  {
    hide Possible, Avail, Shape;
  }

  lemma InsideKeepsWatch<V>(m: R.Mem<V>, s: Side, t: Thread<V>, u: Thread<V>, lock: Lock, t': Thread<V>, d: Deed)
    requires ThreadOk(s, t, u, lock) && ThreadOk(Other(s), u, t, lock) && t.pc.Locked() && Inside(s, m, t, u, t', d)
    requires WatchOf(m, s, t, u) && WatchOf(m, Other(s), u, t)
    requires t.pc.Loop? && u.queued ==> (Possible(m, Other(s)) <==> Avail(m, Other(s)))
    ensures WatchOf(m, s, t', Treat(u, d, Gift(t, u))) && WatchOf(m, Other(s), Treat(u, d, Gift(t, u)), t')
  {
    hide Possible, Avail, Shape, Inside, WaitOk;
    InsideMoves(m, s, t, u, lock, t', d);
    InsideOwes(m, s, t, u, lock, t', d);
  }

  lemma ControlKeepsWatch<V>(st: State<V>, st': State<V>, s: Side, d: Deed)
    requires Inv(st) && Control(st, st', s, d)
    ensures Watch(st', Prod) && Watch(st', Cons)
  {
    var t, u, t' := st.Of(s), st.Of(Other(s)), st'.Of(s);
    if t.pc.Loop? && u.queued { PossibleIsAvail(st, s); }
    hide R.Inv, WatchOf, Inside, Outside, OwnOk, WaitOk, Avail, Possible;
    assert Watch(st, s) && Watch(st, Other(s));
    if t.pc.Locked() {
      InsideKeepsWatch(st.m, s, t, u, st.lock, t', d);
    } else {
      OutsideKeepsWatch(st.m, s, t, u, st.lock, t');
    }
    assert Watch(st', s) && Watch(st', Other(s));
  }

  lemma StepKeepsInv<V>(st: State<V>, st': State<V>, s: Side)
    requires Inv(st) && StepBy(st, st', s)
    ensures Inv(st')
  {
    hide RingStep, Control, Base, Watch;
    assert Base(st);
    if RingStep(st, st', s) {
      RingStepKeepsBase(st, st', s);
      RingStepKeepsWatch(st, st', s);
    } else {
      var d :| Control(st, st', s, d);
      ControlKeepsBase(st, st', s, d);
      ControlKeepsWatch(st, st', s, d);
    }
  }

  lemma InitInv<V>(st: State<V>)
    requires Init(st)
    ensures Inv(st)
  {
  }

  lemma {:induction false} RunInv<V>(run: seq<State<V>>, i: nat)
    requires Run(run) && i < |run|
    ensures Inv(run[i])
  {
    hide Init, Inv, StepBy;
    if i == 0 {
      InitInv(run[0]);
    } else {
      RunInv(run, i - 1);
      assert Next(run[i - 1], run[i]);
      var s :| StepBy(run[i - 1], run[i], s);
      StepKeepsInv(run[i - 1], run[i], s);
    }
  }
}
