/** Waiters of a buffered channel are served in the order in which they queued. */
module ChannelOrder {
  import opened Results
  import opened Seqs
  import opened Ring
  import opened Channel
  import opened ChannelBase
  import opened ChannelInv
  import opened ChannelDuty
  import opened ChannelClose
  import opened ChannelResults

  /** The waiter in the lock holder's hands, if any, and then the queue. */
  function InLine(hand: Option<Tid>, q: seq<Tid>): seq<Tid> { if hand.Some? then [hand.value] + q else q }

  function SendLine(c: Chan): seq<Tid> { InLine(SendHand(HolderPc(c.sh, c.th)), c.sh.sendq) }
  function RecvLine(c: Chan): seq<Tid> { InLine(RecvHand(HolderPc(c.sh, c.th)), c.sh.recvq) }

  lemma LineStep(op: QOp, q: seq<Tid>, t: Tid, hand: Option<Tid>, hand': Option<Tid>)
    requires QueueMove(op, q, t, hand, hand') && hand != Some(t)
    ensures Queues(InLine(hand, q), InLine(hand', QApply(op, q, t, hand)), t)
    ensures Served(op, q, hand).Some? ==> InLine(hand, q) != [] && Served(op, q, hand).value == InLine(hand, q)[0]
  {
    var line := InLine(hand, q);
    if hand.Some? { assert line[1..] == q; }
  }

  /** Only a lock holder has a waiter in its hands. */
  lemma NoHands(pc: Pc)
    ensures !pc.Locked() ==> SendHand(pc) == None && RecvHand(pc) == None
  {
  }

  lemma ControlLines(c: Chan, c': Chan, t: Tid, e: Eff)
    requires Base(c) && Control(c, c', t, e)
    ensures Queues(SendLine(c), SendLine(c'), t) && Queues(RecvLine(c), RecvLine(c'), t)
    ensures t in c.th
    ensures SendServed(c, t, e).Some? ==> SendLine(c) != [] && SendServed(c, t, e) == Some(SendLine(c)[0])
    ensures RecvServed(c, t, e).Some? ==> RecvLine(c) != [] && RecvServed(c, t, e) == Some(RecvLine(c)[0])
  {
    hide Base, Control, Post, Dutiful, ViewOf, QueueMove, HolderPc, SendHand, RecvHand, Queues, Without;
    ControlFrame(c, c', t, e);
    HandsOf(c, t);
    MovesOf(c, c', t, e);
    NoHands(c.th[t].pc);
    NoHands(e.l.pc);
    NoHands(Rest);
    LineStep(e.sq, c.sh.sendq, t, SendHand(c.th[t].pc), SendHand(e.l.pc));
    LineStep(e.rq, c.sh.recvq, t, RecvHand(c.th[t].pc), RecvHand(e.l.pc));
    SameLine(SendLine(c), t);
    SameLine(RecvLine(c), t);
  }

  lemma SameLine(q: seq<Tid>, t: Tid)
    ensures Queues(q, q, t)
  {
  }

  lemma HandsOf(c: Chan, t: Tid)
    requires Base(c) && t in c.th
    ensures SendHand(c.th[t].pc) != Some(t) && RecvHand(c.th[t].pc) != Some(t)
  {
    hide Base;
    HandAsleep(c, t);
  }

  lemma MovesOf(c: Chan, c': Chan, t: Tid, e: Eff)
    requires Base(c) && Control(c, c', t, e)
    ensures QueueMove(e.sq, c.sh.sendq, t, SendHand(c.th[t].pc), SendHand(e.l.pc))
    ensures QueueMove(e.rq, c.sh.recvq, t, RecvHand(c.th[t].pc), RecvHand(e.l.pc))
  {
    hide Base, Control, Dutiful, Shape, OwnLedger, WaiterLedger, WaitMove, QueueMove, QApply, HolderPc;
    ControlFrame(c, c', t, e);
  }

  /** A step moves each line by at most one, and serves only the first in it. */
  lemma LinesMove(c: Chan, c': Chan, t: Tid)
    requires Base(c) && StepBy(c, c', t)
    ensures Queues(SendLine(c), SendLine(c'), t) && Queues(RecvLine(c), RecvLine(c'), t)
    ensures forall u <- c.th :: u != t && u in c'.th && c'.th[u] != c.th[u] ==>
      || (SendLine(c) != [] && SendLine(c)[0] == u && Asleep(c.th[u]))
      || (RecvLine(c) != [] && RecvLine(c)[0] == u && Dozing(c.th[u]))
  {
    hide Base, Control, Step, Queues, SendLine, RecvLine, SendServed, RecvServed;
    if e :| Control(c, c', t, e) {
      ControlLines(c, c', t, e);
      forall u <- c.th | u != t && u in c'.th && c'.th[u] != c.th[u]
        ensures || (SendLine(c) != [] && SendLine(c)[0] == u && Asleep(c.th[u]))
                || (RecvLine(c) != [] && RecvLine(c)[0] == u && Dozing(c.th[u]))
      {
        OthersAfter(c, c', t, e, u);
      }
    } else {
      RingLines(c, c', t);
    }
  }

  lemma RingLines(c: Chan, c': Chan, t: Tid)
    requires RingStep(c, c', t)
    ensures c'.th == c.th && Queues(SendLine(c), SendLine(c'), t) && Queues(RecvLine(c), RecvLine(c'), t)
  {
    hide Step, Leaves;
  }

  lemma LinesDistinct(c: Chan)
    requires Base(c)
    ensures Distinct(SendLine(c)) && Distinct(RecvLine(c))
  {
    hide Inv, ThreadsOk, OpenOk, LockOk;
  }

  /** First come, first served: of two waiting senders (receivers) the one that
      queued later is not first in line while the other is still waiting. */
  lemma {:induction false} FirstComeFirstServed(run: seq<Chan>, i: nat, j: nat, u: Tid, w: Tid)
    requires Channel.Run(run) && i <= j < |run|
    ensures Ahead(SendLine(run[i]), u, w)
         && (forall k :: i <= k <= j ==> u in SendLine(run[k]) && w in SendLine(run[k]))
        ==> Ahead(SendLine(run[j]), u, w) && SendLine(run[j])[0] != w
    ensures Ahead(RecvLine(run[i]), u, w)
         && (forall k :: i <= k <= j ==> u in RecvLine(run[k]) && w in RecvLine(run[k]))
        ==> Ahead(RecvLine(run[j]), u, w) && RecvLine(run[j])[0] != w
  {
    hide Base, StepBy, SendLine, RecvLine, Init;
    RunBase(run, j);
    LinesDistinct(run[j]);
    if j > i {
      FirstComeFirstServed(run, i, j - 1, u, w);
      RunBase(run, j - 1);
      LinesDistinct(run[j - 1]);
      assert Channel.Next(run[j - 1], run[j]);
      var t: Tid :| StepBy(run[j - 1], run[j], t);
      LinesMove(run[j - 1], run[j], t);
      StaysAhead(SendLine(run[j - 1]), SendLine(run[j]), t, u, w);
      StaysAhead(RecvLine(run[j - 1]), RecvLine(run[j]), t, u, w);
    }
    NotFirst(SendLine(run[j]), u, w);
    NotFirst(RecvLine(run[j]), u, w);
  }

  lemma StaysAhead(q: seq<Tid>, q': seq<Tid>, t: Tid, u: Tid, w: Tid)
    requires Queues(q, q', t) && Distinct(q)
    ensures Ahead(q, u, w) && u in q' && w in q' ==> Ahead(q', u, w)
  {
    if Ahead(q, u, w) && u in q' && w in q' { NobodyOvertakes(q, q', t, u, w); }
  }

  lemma NotFirst(q: seq<Tid>, u: Tid, w: Tid)
    requires Distinct(q)
    ensures Ahead(q, u, w) ==> q != [] && q[0] != w
  {
  }
}
