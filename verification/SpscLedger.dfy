/** The account of a single-producer single-consumer channel: every value is
    accepted once, leaves in order, and reaches exactly the request that moved it. */
module SpscLedger {
  import opened Results
  import opened Seqs
  import opened Sides
  import R = SpscRing
  import opened SpscChannel

  /** Everything the returned requests of side r have moved, in order. */
  ghost function Moved<V>(done: seq<Receipt<V>>, r: Side): seq<V> {
    if done == [] then []
    else Moved(done[..|done| - 1], r) + if Last(done).side == r then Last(done).have else []
  }

  function Total<V>(log: Log<V>, r: Side): seq<V> { if r == Prod then log.acc else log.left }

  /** What returned requests have moved, what the current one has, and what its
      committed operation is about to hand over make up the total. */
  ghost predicate Balanced<V>(st: State<V>, r: Side) {
    Moved(st.log.done, r) + st.Of(r).have + Fruit(RoleOp(st, r)) == Total(st.log, r)
  }

  /** The result a thread has at each place. */
  predicate ResultOk<V>(t: Thread<V>) {
    match t.pc
    case Check | HelpLock | Loop(Finish) | Help(Finish) => t.res == Some(Ok) && t.have != []
    case ParkB | BLock | ParkF | ParkT | TLock =>
      t.res == (if t.served then Some(Ok) else None) && (t.served <==> t.have != [])
    case Woken => if t.have != [] then t.res == Some(Ok) else t.res == Some(Timeout)
    case _ => t.res == None && t.have == []
  }

  /** The values an operation of the producer's side carries are the producer's. */
  ghost predicate CarriesOf<V>(op: R.Op<V>, val: seq<V>) { op.Off? || op.Refused? || op.data <= val }

  ghost predicate ReceiptOk<V>(x: Receipt<V>) {
    (x.res == Ok <==> x.have != []) && x.res != Closed && (x.side == Prod ==> x.have <= x.val)
  }

  /** A receiver that is about to take a parked sender's value finds the ring empty. */
  ghost predicate DirectOk<V>(st: State<V>) {
    st.c.pc == Own && st.c.op.Refused? && st.p.queued ==> !Avail(st.m, Cons)
  }

  ghost predicate Book<V>(st: State<V>) {
    && R.Stored(st.m) && st.log.acc == st.log.left + R.Queue(st.m)
    && Balanced(st, Prod) && Balanced(st, Cons)
    && ResultOk(st.p) && ResultOk(st.c) && st.p.have <= st.p.val && CarriesOf(RoleOp(st, Prod), st.p.val)
    && DirectOk(st) && forall x <- st.log.done :: ReceiptOk(x)
  }

  // -------------------------------------------------------------- ring steps

  /** What a step does to the values an operation has moved. */
  lemma StepFruit<V>(m: R.Mem<V>, r: Side, op: R.Op<V>, m': R.Mem<V>, op': R.Op<V>)
    requires R.Step(m, r, op, m', op') && (op.RW? ==> op.done <= op.k)
    ensures Fruit(op') == if R.Commits(op) then op.data else Fruit(op)
    ensures !op.Returned() && !op'.Off? && (r == Prod && !op'.Refused? ==> op'.data <= op.data)
    ensures R.Commits(op) ==> Fruit(op) == []
  {
  }

  lemma OpInRange<V>(m: R.Mem<V>, r: Side, op: R.Op<V>, oo: R.Op<V>)
    requires R.Inv(m, r, op, oo)
    ensures op.RW? ==> op.done <= op.k
  {
  }

  lemma RingStepBook<V>(st: State<V>, st': State<V>, s: Side)
    requires Inv(st) && Book(st) && RingStep(st, st', s)
    ensures Book(st')
  {
    hide Watch, ThreadOk, ReceiptOk, Moved, R.Step, R.Queue, Avail, R.Stored, R.Inv, DirectOk, RoleOp, Fruit;
    var t, t', r := st.Of(s), st'.Of(s), Role(st.Of(s), s);
    var oo := RoleOp(st, Other(r));
    RingStepKeepsBase(st, st', s);
    RingSides(st.m, RoleOp(st, Prod), RoleOp(st, Cons));
    OpInRange(st.m, r, t.op, oo);
    StepFruit(st.m, r, t.op, st'.m, t'.op);
    R.RefinesBoundedFifo(st.m, r, t.op, st'.m, t'.op, oo);
    RoleMoves(st, st', s);
    DirectRing(st, st', s);
    if R.Commits(t.op) {
      CommitBalances(st, st', s);
      QueueBalances(st.log.left, R.Queue(st.m), R.Queue(st'.m), t.op.data);
    }
    assert CarriesOf(RoleOp(st', Prod), st'.p.val) by {
      if r == Prod && !t'.op.Refused? { PrefixOf(t'.op.data, t.op.data, st.p.val); }
    }
  }

  lemma QueueBalances<V>(left: seq<V>, q: seq<V>, q': seq<V>, data: seq<V>)
    ensures (left + q) + data == left + (q + data)
    ensures q == data + q' ==> left + q == (left + data) + q'
  {
  }

  lemma PrefixOf<V>(a: seq<V>, b: seq<V>, c: seq<V>)
    requires a <= b && b <= c
    ensures a <= c
  {
  }

  lemma CommitBalances<V>(st: State<V>, st': State<V>, s: Side)
    requires RingStep(st, st', s) && R.Commits(st.Of(s).op)
    requires var r := Role(st.Of(s), s); Balanced(st, r) && Fruit(RoleOp(st, r)) == []
    requires var r := Role(st.Of(s), s); Fruit(RoleOp(st', r)) == st.Of(s).op.data
    ensures Balanced(st', Role(st.Of(s), s))
  {
    hide Moved, R.Step, RoleOp, Fruit;
    var r := Role(st.Of(s), s);
    assert Moved(st.log.done, r) + st.Of(r).have + [] == Moved(st.log.done, r) + st.Of(r).have;
  }

  lemma RoleMoves<V>(st: State<V>, st': State<V>, s: Side)
    requires Base(st) && RingStep(st, st', s)
    ensures var r := Role(st.Of(s), s); RoleOp(st', r) == st'.Of(s).op && RoleOp(st', Other(r)) == RoleOp(st, Other(r))
  {
    hide R.Step, R.Inv;
    RingStepKeepsBase(st, st', s);
    assert !st.Of(s).op.Returned() by { StepMovesOn(st, st', s); }
  }

  lemma StepMovesOn<V>(st: State<V>, st': State<V>, s: Side)
    requires RingStep(st, st', s)
    ensures !st.Of(s).op.Returned()
  {
  }

  lemma DirectRing<V>(st: State<V>, st': State<V>, s: Side)
    requires Inv(st) && RingStep(st, st', s) && DirectOk(st)
    ensures DirectOk(st')
  {
    hide R.Step, R.Inv;
    var t, t', r := st.Of(s), st'.Of(s), Role(st.Of(s), s);
    StepMovesOn(st, st', s);
    RingStepKeepsBase(st, st', s);
    RingSides(st.m, RoleOp(st, Prod), RoleOp(st, Cons));
    StepAvail(st.m, r, t.op, st'.m, t'.op, RoleOp(st, Other(r)));
  }

  // ----------------------------------------------------------- control steps

  lemma OutsideResults<V>(s: Side, t: Thread<V>, u: Thread<V>, lock: Lock, t': Thread<V>)
    requires WaitOk(t, u.pc.Help?) && (lock == Free ==> !u.pc.Help?) && !t.pc.Locked() && Outside(s, t, u, lock, t')
    requires ResultOk(t) && (t.op.Done? ==> t.op.data != [])
    ensures ResultOk(t')
  {
    hide Begin;
    if t.pc == Rest { BeginResult(s, t'); }
  }

  lemma BeginResult<V>(s: Side, t': Thread<V>)
    requires Begin(s, t')
    ensures ResultOk(t')
  {
  }

  lemma InsideResults<V>(s: Side, m: R.Mem<V>, t: Thread<V>, u: Thread<V>, lock: Lock, t': Thread<V>, d: Deed)
    requires ThreadOk(s, t, u, lock) && ThreadOk(Other(s), u, t, lock) && t.pc.Locked() && Inside(s, m, t, u, t', d)
    requires ResultOk(t) && ResultOk(u) && (t.op.Done? ==> t.op.data != [])
    ensures ResultOk(t') && ResultOk(Treat(u, d, Gift(t, u)))
  {
    hide Possible;
  }

  lemma MovedAppend<V>(done: seq<Receipt<V>>, x: Receipt<V>, r: Side)
    ensures Moved(done + [x], r) == Moved(done, r) + if x.side == r then x.have else []
  {
    assert (done + [x])[..|done|] == done;
  }

  function OpFor<V>(t: Thread<V>, u: Thread<V>): R.Op<V> {
    if u.pc.Help? then u.op else if t.pc.Active() then t.op else R.Off
  }

  /** How what a request has in hand (`have`) and is about to be handed (`fruit`)
      goes on: it stays, it is handed over, or it goes on the receipt. */
  ghost predicate Passes<V>(have: seq<V>, fruit: seq<V>, have': seq<V>, fruit': seq<V>, returned: bool) {
    if returned then fruit == [] && have' == [] && fruit' == []
    else (have' == have && fruit' == fruit) || (have == [] && fruit' == [] && have' == fruit)
  }

  lemma OutsideHands<V>(s: Side, t: Thread<V>, u: Thread<V>, lock: Lock, t': Thread<V>)
    requires ThreadOk(s, t, u, lock) && ThreadOk(Other(s), u, t, lock) && !t.pc.Locked() && Outside(s, t, u, lock, t')
    requires ResultOk(t)
    ensures Passes(t.have, Fruit(OpFor(t, u)), t'.have, Fruit(OpFor(t', u)), t.pc != Rest && t'.pc == Rest)
    ensures OpFor(u, t') == OpFor(u, t)
  {
    assert !t'.pc.Help? by { OutsideStarts(s, t, u, lock, t'); }
    if t.pc == Rest || t.pc == Fast || t.pc == Burst {
      FastHands(s, t, u, lock, t');
    } else {
      SlowHands(s, t, u, lock, t');
    }
  }

  lemma FastHands<V>(s: Side, t: Thread<V>, u: Thread<V>, lock: Lock, t': Thread<V>)
    requires ThreadOk(s, t, u, lock) && Outside(s, t, u, lock, t')
    requires ResultOk(t) && (t.pc == Rest || t.pc == Fast || t.pc == Burst)
    ensures Passes(t.have, Fruit(OpFor(t, u)), t'.have, Fruit(OpFor(t', u)), t.pc != Rest && t'.pc == Rest)
  {
    hide Shape;
    assert !u.pc.Help?;
  }

  lemma SlowHands<V>(s: Side, t: Thread<V>, u: Thread<V>, lock: Lock, t': Thread<V>)
    requires ThreadOk(s, t, u, lock) && ThreadOk(Other(s), u, t, lock) && !t.pc.Locked() && Outside(s, t, u, lock, t')
    requires ResultOk(t) && t.pc != Rest && t.pc != Fast && t.pc != Burst
    ensures Passes(t.have, Fruit(OpFor(t, u)), t'.have, Fruit(OpFor(t', u)), t'.pc == Rest)
  {
    hide Shape;
    assert Fruit(t'.op) == [] && !t.pc.Active();
    assert t'.pc != Rest ==> t'.have == t.have;
    assert u.pc.Help? ==> t'.pc != Rest;
  }

  lemma InsideOwnHands<V>(s: Side, m: R.Mem<V>, t: Thread<V>, u: Thread<V>, lock: Lock, t': Thread<V>, d: Deed)
    requires ThreadOk(s, t, u, lock) && ThreadOk(Other(s), u, t, lock) && t.pc.Locked() && Inside(s, m, t, u, t', d)
    requires ResultOk(t)
    ensures Passes(t.have, Fruit(OpFor(t, u)), t'.have, Fruit(OpFor(t', Treat(u, d, Gift(t, u)))), t'.pc == Rest)
    ensures t.pc == Own && d == Serve ==> t.have == [] && t'.pc == Rest
  {
    hide Possible, Shape;
    assert !u.pc.Locked();
    assert t'.pc == Rest ==> !t.pc.Active() || t.op.Refused?;
  }

  lemma InsidePeerHands<V>(s: Side, m: R.Mem<V>, t: Thread<V>, u: Thread<V>, lock: Lock, t': Thread<V>, d: Deed)
    requires ThreadOk(s, t, u, lock) && ThreadOk(Other(s), u, t, lock) && t.pc.Locked() && Inside(s, m, t, u, t', d)
    requires ResultOk(u)
    ensures var u' := Treat(u, d, Gift(t, u));
      if t.pc == Own && d == Serve then u.have == Fruit(OpFor(u, t)) == Fruit(OpFor(u', t')) == [] && u'.have == u.val
      else Passes(u.have, Fruit(OpFor(u, t)), u'.have, Fruit(OpFor(u', t')), false)
  {
    hide Possible, Shape;
    assert !u.pc.Locked() && (t.pc.Help? ==> !u.pc.Active()) && (d == Serve ==> u.have == [] && !u.pc.Active());
    assert t'.pc.Help? ==> d == Take && t.pc.Loop? && Fruit(t'.op) == [];
  }

  lemma DirectControl<V>(st: State<V>, st': State<V>, s: Side, d: Deed)
    requires Base(st) && Control(st, st', s, d) && DirectOk(st)
    ensures DirectOk(st') && (st.Of(s).pc == Own && d == Serve ==> s == Cons && !Avail(st.m, Cons))
  {
    hide R.Inv, Avail, Possible;
  }

  /** The fruit of a finished operation is never empty. */
  lemma FruitRipe<V>(st: State<V>, s: Side)
    requires Base(st)
    ensures st.Of(s).op.Done? && (st.Of(s).pc.Help? || st.Of(s).pc.Active()) ==> st.Of(s).op.data != []
  {
    hide R.Carries, R.Written, R.Stored, Shape;
    RingSides(st.m, RoleOp(st, Prod), RoleOp(st, Cons));
    assert st.Of(s).pc.Active() && !st.Of(Other(s)).pc.Help? ==> RoleOp(st, s) == st.Of(s).op;
    assert st.Of(s).pc.Help? ==> RoleOp(st, Other(s)) == st.Of(s).op;
  }

  lemma PassesOn<V>(done: seq<V>, have: seq<V>, fruit: seq<V>, have': seq<V>, fruit': seq<V>, total: seq<V>, v: seq<V>)
    requires done + have + fruit == total
    ensures Passes(have, fruit, have', fruit', false) ==> done + have' + fruit' == total
    ensures Passes(have, fruit, have', fruit', true) ==> (done + have) + have' + fruit' == total
    ensures have == fruit == fruit' == [] && have' == v ==> done + have' + fruit' == total + v
    ensures have == fruit == have' == fruit' == [] ==> (done + v) + have' + fruit' == total + v
  {
    assert done + [] + [] == done && done + have + [] == done + have;
  }

  /** A value goes from the parked sender's hands straight to the receiver. */
  predicate Directly<V>(st: State<V>, s: Side, d: Deed) { st.Of(s).pc == Own && d == Serve }

  lemma ControlHands<V>(st: State<V>, st': State<V>, s: Side, d: Deed)
    requires Base(st) && Control(st, st', s, d) && ResultOk(st.p) && ResultOk(st.c)
    ensures var t, t' := st.Of(s), st'.Of(s);
      && Passes(t.have, Fruit(RoleOp(st, s)), t'.have, Fruit(RoleOp(st', s)), t.pc != Rest && t'.pc == Rest)
      && (Directly(st, s, d) ==> t.have == [] && t'.pc == Rest)
    ensures var o := Other(s);
      if Directly(st, s, d) then
        && st.Of(o).have == [] && Fruit(RoleOp(st, o)) == [] && Fruit(RoleOp(st', o)) == []
        && st'.Of(o).have == st.Of(o).val
      else Passes(st.Of(o).have, Fruit(RoleOp(st, o)), st'.Of(o).have, Fruit(RoleOp(st', o)), false)
  {
    var t, u, t' := st.Of(s), st.Of(Other(s)), st'.Of(s);
    hide Inside, Outside, ThreadOk, R.Inv, ResultOk, OpFor, RoleOp, LogAfter, LockAfter, Fruit;
    OpForRole(st, s);
    OpForRole(st', s);
    if t.pc.Locked() {
      InsideOwnHands(s, st.m, t, u, st.lock, t', d);
      InsidePeerHands(s, st.m, t, u, st.lock, t', d);
    } else {
      OutsideHands(s, t, u, st.lock, t');
    }
  }

  lemma OwnBalance<V>(st: State<V>, st': State<V>, s: Side, d: Deed)
    requires Base(st) && Control(st, st', s, d) && ResultOk(st.p) && ResultOk(st.c) && Balanced(st, s)
    requires Directly(st, s, d) ==> s == Cons
    ensures Balanced(st', s)
  {
    hide Inside, Outside, Base, ResultOk, RoleOp, Fruit, Moved, LockAfter;
    ControlHands(st, st', s, d);
    var t, t', u := st.Of(s), st'.Of(s), st.Of(Other(s));
    PassesOn(Moved(st.log.done, s), t.have, Fruit(RoleOp(st, s)), t'.have, Fruit(RoleOp(st', s)), Total(st.log, s),
             u.val);
    if t.pc != Rest && t'.pc == Rest {
      var x := Last(st'.log.done);
      MovedAppend(st.log.done, x, s);
      assert st'.log.done == st.log.done + [x];
    }
  }

  lemma PeerBalance<V>(st: State<V>, st': State<V>, s: Side, d: Deed)
    requires Base(st) && Control(st, st', s, d) && ResultOk(st.p) && ResultOk(st.c) && Balanced(st, Other(s))
    ensures Balanced(st', Other(s))
  {
    hide Inside, Outside, Base, ResultOk, Passes, RoleOp, Fruit, Moved, LockAfter, Treat;
    ControlHands(st, st', s, d);
    var o := Other(s);
    PassesOn(Moved(st.log.done, o), st.Of(o).have, Fruit(RoleOp(st, o)), st'.Of(o).have, Fruit(RoleOp(st', o)),
             Total(st.log, o), st.Of(o).val);
    if st.Of(s).pc != Rest && st'.Of(s).pc == Rest {
      var x := Last(st'.log.done);
      MovedAppend(st.log.done, x, o);
      assert st'.log.done == st.log.done + [x];
    }
  }

  lemma OpForRole<V>(st: State<V>, s: Side)
    ensures OpFor(st.Of(s), st.Of(Other(s))) == RoleOp(st, s)
    ensures OpFor(st.Of(Other(s)), st.Of(s)) == RoleOp(st, Other(s))
  {
  }

  lemma ControlResults<V>(st: State<V>, st': State<V>, s: Side, d: Deed)
    requires Base(st) && Control(st, st', s, d) && ResultOk(st.p) && ResultOk(st.c)
    ensures ResultOk(st'.p) && ResultOk(st'.c)
  {
    var t, u, t' := st.Of(s), st.Of(Other(s)), st'.Of(s);
    FruitRipe(st, s);
    assert t.op.Done? ==> t.op.data != [];
    hide R.Inv;
    if t.pc.Locked() {
      InsideResults(s, st.m, t, u, st.lock, t', d);
    } else {
      OutsideResults(s, t, u, st.lock, t');
    }
    hide Inside, Outside, ThreadOk, ResultOk, LogAfter, LockAfter;
  }

  lemma OutsideCarries<V>(s: Side, t: Thread<V>, u: Thread<V>, lock: Lock, t': Thread<V>)
    requires ThreadOk(s, t, u, lock) && ThreadOk(Other(s), u, t, lock) && !t.pc.Locked() && Outside(s, t, u, lock, t')
    requires s == Prod ==> CarriesOf(OpFor(t, u), t.val)
    ensures s == Prod ==> CarriesOf(OpFor(t', u), t'.val)
    ensures OpFor(u, t') == OpFor(u, t) && (t.pc != Rest && t'.pc != Rest ==> t'.val == t.val)
  {
    hide Shape;
  }

  lemma InsideCarries<V>(s: Side, m: R.Mem<V>, t: Thread<V>, u: Thread<V>, lock: Lock, t': Thread<V>, d: Deed)
    requires ThreadOk(s, t, u, lock) && ThreadOk(Other(s), u, t, lock) && t.pc.Locked() && Inside(s, m, t, u, t', d)
    requires if s == Prod then CarriesOf(OpFor(t, u), t.val) else CarriesOf(OpFor(u, t), u.val)
    ensures var u' := Treat(u, d, Gift(t, u));
      if s == Prod then CarriesOf(OpFor(t', u'), t'.val) else CarriesOf(OpFor(u', t'), u.val)
    ensures t'.pc != Rest ==> t'.val == t.val
  {
    hide Possible, Shape;
    assert !u.pc.Locked();
  }

  /** What the producer has moved is of its own values. */
  lemma ControlCarries<V>(st: State<V>, st': State<V>, s: Side, d: Deed)
    requires Base(st) && Control(st, st', s, d) && ResultOk(st.p) && ResultOk(st.c)
    requires st.p.have <= st.p.val && CarriesOf(RoleOp(st, Prod), st.p.val) && (Directly(st, s, d) ==> s == Cons)
    ensures st'.p.have <= st'.p.val && CarriesOf(RoleOp(st', Prod), st'.p.val)
  {
    var t, u, t' := st.Of(s), st.Of(Other(s)), st'.Of(s);
    OpForRole(st, s);
    OpForRole(st', s);
    ControlHands(st, st', s, d);
    hide R.Inv, OpFor, RoleOp;
    if t.pc.Locked() {
      InsideCarries(s, st.m, t, u, st.lock, t', d);
    } else {
      OutsideCarries(s, t, u, st.lock, t');
    }
    assert t.pc == Rest ==> t.have == [];
    hide Inside, Outside, ThreadOk, LogAfter, LockAfter, CarriesOf, ResultOk;
  }

  lemma ControlReceipt<V>(st: State<V>, st': State<V>, s: Side, d: Deed)
    requires Base(st) && Control(st, st', s, d) && ResultOk(st.p) && ResultOk(st.c) && st.p.have <= st.p.val
    requires (forall x <- st.log.done :: ReceiptOk(x)) && (Directly(st, s, d) ==> s == Cons)
    ensures forall x <- st'.log.done :: ReceiptOk(x)
  {
    hide R.Inv, Possible, LockAfter, Treat;
  }

  lemma ControlBook<V>(st: State<V>, st': State<V>, s: Side, d: Deed)
    requires Inv(st) && Book(st) && Control(st, st', s, d)
    ensures Book(st')
  {
    hide Base, Watch, Inside, Outside, ResultOk, ReceiptOk, Balanced, CarriesOf, LockAfter, Treat;
    DirectControl(st, st', s, d);
    ControlResults(st, st', s, d);
    ControlCarries(st, st', s, d);
    ControlReceipt(st, st', s, d);
    assert Balanced(st, s) && Balanced(st, Other(s));
    OwnBalance(st, st', s, d);
    PeerBalance(st, st', s, d);
    assert Balanced(st', s) && Balanced(st', Other(s));
    assert Directly(st, s, d) ==> R.Queue(st.m) == [];
    QueueBalances(st.log.left, R.Queue(st.m), [], st.Of(Other(s)).val);
  }

  lemma {:induction false} RunBook<V>(run: seq<State<V>>, i: nat)
    requires Run(run) && i < |run|
    ensures Book(run[i])
  {
    hide Inv, Book, RingStep, Control;
    if i == 0 {
      InitBook(run[0]);
    } else {
      RunBook(run, i - 1);
      RunInv(run, i - 1);
      var st, st' := run[i - 1], run[i];
      assert Next(st, st');
      var s: Side :| StepBy(st, st', s);
      if RingStep(st, st', s) {
        RingStepBook(st, st', s);
      } else {
        var d: Deed :| Control(st, st', s, d);
        ControlBook(st, st', s, d);
      }
    }
  }

  lemma InitBook<V>(st: State<V>)
    requires Init(st)
    ensures Book(st)
  {
    assert Moved(st.log.done, Prod) == [] && Moved(st.log.done, Cons) == [];
  }

  // -------------------------------------------------------------- theorems

  /** Conservation, in order: the values accepted are the values that left and
      then the ring's; the sends' receipts, the current send and its committed
      operation make up the accepted ones, and likewise the receives the ones
      that left; `Ok` is reported exactly for what was moved. */
  lemma Conservation<V>(run: seq<State<V>>, i: nat)
    requires Run(run) && i < |run|
    ensures var st := run[i];
      && st.m.cons.tail <= |st.m.hist| && st.log.acc == st.log.left + R.Queue(st.m)
      && Moved(st.log.done, Prod) + st.p.have + Fruit(RoleOp(st, Prod)) == st.log.acc
      && Moved(st.log.done, Cons) + st.c.have + Fruit(RoleOp(st, Cons)) == st.log.left
      && forall x <- st.log.done :: (x.res == Ok <==> x.have != []) && (x.side == Prod ==> x.have <= x.val)
  {
    hide Run, ResultOk, DirectOk, CarriesOf;
    RunBook(run, i);
  }

  /** The operation of thread s that commits at step i hands back, when it is
      finished, exactly what it has put into the queue or taken off its front. */
  lemma {:induction false} CommitReturns<V>(run: seq<State<V>>, i: nat, j: nat, s: Side)
    requires Run(run) && i < j < |run| && RingStep(run[i], run[i + 1], s) && R.Commits(run[i].Of(s).op)
    requires forall k :: i < k <= j ==> run[k].Of(s).op.F5? || run[k].Of(s).op.Done?
    ensures R.Stored(run[i].m) && R.Stored(run[i + 1].m) && run[j].Of(s).op.data != []
    ensures var q, q', data := R.Queue(run[i].m), R.Queue(run[i + 1].m), run[j].Of(s).op.data;
      if Role(run[i].Of(s), s) == Prod then q' == q + data else q == data + q'
  {
    hide Inv, RingStep, Control, R.Queue, R.Stored;
    RunInv(run, i);
    CommitEffect(run[i], run[i + 1], s);
    if j > i + 1 {
      CommitReturns(run, i, j - 1, s);
      RunInv(run, j - 1);
      assert Next(run[j - 1], run[j]);
      var x: Side :| StepBy(run[j - 1], run[j], x);
      DataKept(run[j - 1], run[j], x, s);
    }
  }

  lemma CommitEffect<V>(st: State<V>, st': State<V>, s: Side)
    requires Inv(st) && RingStep(st, st', s) && R.Commits(st.Of(s).op)
    ensures R.Stored(st.m) && R.Stored(st'.m) && Fruit(st'.Of(s).op) == st.Of(s).op.data != []
    ensures var q, q', data := R.Queue(st.m), R.Queue(st'.m), st.Of(s).op.data;
      if Role(st.Of(s), s) == Prod then q' == q + data else q == data + q'
  {
    hide Watch, ThreadOk, R.Step, R.Queue, R.Stored, R.Inv, RoleOp;
    var t, t', r := st.Of(s), st'.Of(s), Role(st.Of(s), s);
    RingStepKeepsBase(st, st', s);
    RingSides(st.m, RoleOp(st, Prod), RoleOp(st, Cons));
    OpInRange(st.m, r, t.op, RoleOp(st, Other(r)));
    StepFruit(st.m, r, t.op, st'.m, t'.op);
    R.RefinesBoundedFifo(st.m, r, t.op, st'.m, t'.op, RoleOp(st, Other(r)));
  }

  lemma DataKept<V>(st: State<V>, st': State<V>, x: Side, s: Side)
    requires Inv(st) && StepBy(st, st', x)
    requires (st.Of(s).op.F5? || st.Of(s).op.Done?) && (st'.Of(s).op.F5? || st'.Of(s).op.Done?)
    ensures st'.Of(s).op.data == st.Of(s).op.data
  {
    hide Watch, R.Inv, R.Step, Inside, Outside, ThreadOk;
    if RingStep(st, st', x) {
      if x == s { StepFruit(st.m, Role(st.Of(s), s), st.Of(s).op, st'.m, st'.Of(s).op); }
    } else if x == s {
      var d :| Control(st, st', s, d);
      FreshStart(st, st', s, d);
    }
  }

  lemma FreshStart<V>(st: State<V>, st': State<V>, s: Side, d: Deed)
    requires Base(st) && Control(st, st', s, d)
    ensures !st'.Of(s).op.F5? && !st'.Of(s).op.Done?
  {
    var t, u, t' := st.Of(s), st.Of(Other(s)), st'.Of(s);
    hide R.Inv;
    if t.pc.Locked() { InsideStarts(s, st.m, t, u, st.lock, t', d); } else { OutsideStarts(s, t, u, st.lock, t'); }
    hide Inside, Outside, ThreadOk;
  }

  // --------------------------------------------------------------- refusals

  ghost function Turns<V>(done: seq<Receipt<V>>, s: Side): nat {
    if done == [] then 0 else Turns(done[..|done| - 1], s) + if Last(done).side == s then 1 else 0
  }

  /** A request of side s is under way and its side cannot go on: the ring is full, or empty. */
  ghost predicate StuckAt<V>(st: State<V>, s: Side) { st.Of(s).pc != Rest && !Avail(st.m, s) }

  /** That was so at some moment of the current request. */
  ghost predicate Met<V>(run: seq<State<V>>, i: nat, s: Side)
    requires i < |run|
  {
    exists j: nat :: j <= i && StuckAt(run[j], s) && Turns(run[j].log.done, s) == Turns(run[i].log.done, s)
  }

  /** Where a thread is only after a refusal. */
  ghost predicate Told<V>(t: Thread<V>, met: bool) {
    match t.pc
    case Fast | Burst | Own => t.op.Refused? ==> met
    case Loop(ThenPark) | Help(ThenPark) | Recheck | Back | ParkB | BLock | ParkF | ParkT | TLock => met
    case Woken => t.have == [] ==> met
    case _ => true
  }

  lemma RingTold<V>(st: State<V>, st': State<V>, s: Side, r: Side, met: bool, met': bool)
    requires Inv(st) && RingStep(st, st', s) && Told(st.Of(r), met) && (met || StuckAt(st', r) ==> met')
    ensures Told(st'.Of(r), met')
  {
    hide Watch, R.Inv, R.Step, Avail;
    if r == s && !st.Of(s).pc.Help? {
      RingStepKeepsBase(st, st', s);
      RingSides(st.m, RoleOp(st, Prod), RoleOp(st, Cons));
      StepAvail(st.m, s, st.Of(s).op, st'.m, st'.Of(s).op, RoleOp(st, Other(s)));
    }
  }

  lemma OutsideTold<V>(s: Side, t: Thread<V>, u: Thread<V>, lock: Lock, t': Thread<V>, met: bool, met': bool)
    requires ThreadOk(s, t, u, lock) && ThreadOk(Other(s), u, t, lock) && !t.pc.Locked() && Outside(s, t, u, lock, t')
    requires ResultOk(t) && Told(t, met) && (met && t'.pc != Rest ==> met')
    ensures Told(t', met')
  {
    hide Shape;
  }

  lemma InsideTold<V>(s: Side, m: R.Mem<V>, t: Thread<V>, u: Thread<V>, t': Thread<V>, d: Deed, met: bool, met': bool)
    requires t.pc.Locked() && Inside(s, m, t, u, t', d) && Told(t, met) && (met && t'.pc != Rest ==> met')
    ensures Told(t', met')
  {
    hide Possible;
  }

  lemma ControlTold<V>(st: State<V>, st': State<V>, s: Side, d: Deed, r: Side, met: bool, met': bool)
    requires Base(st) && Control(st, st', s, d) && ResultOk(st.p) && ResultOk(st.c) && Told(st.Of(r), met)
    requires met && (r != s || st'.Of(s).pc != Rest) ==> met'
    ensures Told(st'.Of(r), met')
  {
    var t, u, t' := st.Of(s), st.Of(Other(s)), st'.Of(s);
    hide R.Inv, Avail, Possible, LogAfter, LockAfter;
    if r == s {
      if t.pc.Locked() {
        InsideTold(s, st.m, t, u, t', d, met, met');
      } else {
        OutsideTold(s, t, u, st.lock, t', met, met');
      }
    }
    hide Inside, Outside, ThreadOk;
  }

  lemma TurnsAppend<V>(done: seq<Receipt<V>>, x: Receipt<V>, s: Side)
    ensures Turns(done + [x], s) == Turns(done, s) + if x.side == s then 1 else 0
  {
    assert (done + [x])[..|done|] == done;
  }

  /** A step returns a request of the thread that takes it, or none. */
  lemma TurnsAfter<V>(st: State<V>, st': State<V>, s: Side, r: Side)
    requires StepBy(st, st', s)
    ensures Turns(st'.log.done, r) == Turns(st.log.done, r) || (r == s && st'.Of(s).pc == Rest)
    ensures !RingStep(st, st', s) && st.Of(s).pc != Rest && st'.Of(s).pc == Rest ==> |st'.log.done| > |st.log.done|
    ensures |st'.log.done| > |st.log.done| ==>
      exists d :: Control(st, st', s, d) && st'.log.done == st.log.done + [Last(st'.log.done)]
  {
    hide R.Step, Inside, Outside, Turns, LockAfter, Treat;
    if |st'.log.done| > |st.log.done| {
      var x := Last(st'.log.done);
      assert st'.log.done == st.log.done + [x];
      TurnsAppend(st.log.done, x, r);
    }
  }

  lemma {:induction false} RunTold<V>(run: seq<State<V>>, i: nat, r: Side)
    requires Run(run) && i < |run|
    ensures Told(run[i].Of(r), Met(run, i, r))
  {
    hide Inv, RingStep, Control, Told, StuckAt, Met;
    if i == 0 {
      InitTold(run[0], r, Met(run, 0, r));
    } else {
      RunTold(run, i - 1, r);
      RunInv(run, i - 1);
      RunBook(run, i - 1);
      var st, st' := run[i - 1], run[i];
      assert Next(st, st');
      var s: Side :| StepBy(st, st', s);
      TurnsAfter(st, st', s, r);
      MetGrows(run, i - 1, r);
      InvBase(st);
      if RingStep(st, st', s) {
        RingKeepsTurns(st, st', s, r);
        RingTold(st, st', s, r, Met(run, i - 1, r), Met(run, i, r));
      } else {
        var d: Deed :| Control(st, st', s, d);
        ControlTold(st, st', s, d, r, Met(run, i - 1, r), Met(run, i, r));
      }
    }
  }

  lemma InvBase<V>(st: State<V>)
    requires Inv(st)
    ensures Base(st)
  {
    hide Base, Watch;
  }

  lemma RingKeepsTurns<V>(st: State<V>, st': State<V>, s: Side, r: Side)
    requires RingStep(st, st', s)
    ensures Turns(st'.log.done, r) == Turns(st.log.done, r)
  {
    hide R.Step;
  }

  lemma InitTold<V>(st: State<V>, r: Side, met: bool)
    requires Init(st)
    ensures Told(st.Of(r), met)
  {
  }

  lemma MetGrows<V>(run: seq<State<V>>, i: nat, r: Side)
    requires i + 1 < |run|
    ensures Turns(run[i + 1].log.done, r) == Turns(run[i].log.done, r) && Met(run, i, r) ==> Met(run, i + 1, r)
    ensures StuckAt(run[i + 1], r) ==> Met(run, i + 1, r)
  {
    hide StuckAt, Turns;
  }

  /** A request that reports anything but `Ok` reports `WouldBlock` or `Timeout`,
      has moved nothing, and could not go on at some moment while it was under way. */
  lemma RefusalsJustified<V>(run: seq<State<V>>, i: nat, s: Side)
    requires Run(run) && i + 1 < |run| && StepBy(run[i], run[i + 1], s)
    requires |run[i + 1].log.done| > |run[i].log.done| && Last(run[i + 1].log.done).res != Ok
    ensures var x := Last(run[i + 1].log.done);
      x.side == s && x.have == [] && (x.res == WouldBlock || x.res == Timeout) && Met(run, i, s)
  {
    hide Run, Inv, RingStep, Control, Told, Met, Inside, Outside, Book;
    RunTold(run, i, s);
    RunInv(run, i);
    RunBook(run, i);
    TurnsAfter(run[i], run[i + 1], s, s);
    var d :| Control(run[i], run[i + 1], s, d);
    RefusalStep(run[i], run[i + 1], s, d, Met(run, i, s));
  }

  lemma RefusalStep<V>(st: State<V>, st': State<V>, s: Side, d: Deed, met: bool)
    requires Inv(st) && Book(st) && Control(st, st', s, d) && Told(st.Of(s), met)
    requires |st'.log.done| > |st.log.done| && Last(st'.log.done).res != Ok
    ensures var x := Last(st'.log.done); x.side == s && x.have == [] && (x.res == WouldBlock || x.res == Timeout) && met
  {
    hide R.Inv, Watch, Balanced, R.Queue, Possible, CarriesOf, Avail, Moved, Treat;
  }
}
