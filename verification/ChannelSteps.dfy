/** Every program step keeps its promises, and every promise kept keeps the
    structural invariant. */
module ChannelSteps {
  import opened Ring
  import opened Channel
  import opened ChannelBase

  // --------------------------------------------- each program step, by itself

  lemma BeginSendOk(t: Tid, l: Thread, op: Op<Item>, v: View, e: Eff, vals: seq<Bytes>, mode: Mode)
    requires Pre(t, l, op, v) && BeginSend(t, l, v, e, vals, mode)
    ensures Post(t, l, op, v, e)
  {
  }

  lemma GateSendOk(t: Tid, l: Thread, op: Op<Item>, v: View, e: Eff, fast: bool)
    requires Pre(t, l, op, v) && GateSend(l, v, e, fast)
    ensures Post(t, l, op, v, e)
  {
    assert Shape(t, v, e) && Lawful(t, l, v, e) by { hide OwnLedger, WaiterLedger; }
    hide Shape, Lawful;
  }

  lemma AfterPushSentOk(t: Tid, l: Thread, op: Op<Item>, v: View, e: Eff, retry: bool)
    requires Pre(t, l, op, v) && AfterPush(l, op, v, e, retry) && op.sent != []
    ensures Post(t, l, op, v, e)
  {
    assert Shape(t, v, e) && Lawful(t, l, v, e) by { hide OwnLedger, WaiterLedger; }
    hide Shape, Lawful;
  }

  lemma AfterPushFullOk(t: Tid, l: Thread, op: Op<Item>, v: View, e: Eff, retry: bool)
    requires Pre(t, l, op, v) && AfterPush(l, op, v, e, retry) && op.sent == []
    ensures Post(t, l, op, v, e)
  {
    assert Shape(t, v, e) && Lawful(t, l, v, e) by { hide OwnLedger, WaiterLedger; }
    hide Shape, Lawful;
  }

  lemma LockDeliverOk(t: Tid, l: Thread, op: Op<Item>, v: View, e: Eff)
    requires Pre(t, l, op, v) && LockDeliver(l, v, e)
    ensures Post(t, l, op, v, e)
  {
  }

  lemma LockSendOk(t: Tid, l: Thread, op: Op<Item>, v: View, e: Eff)
    requires Pre(t, l, op, v) && LockSend(l, v, e)
    ensures Post(t, l, op, v, e)
  {
  }

  lemma AfterPush1Ok(t: Tid, l: Thread, op: Op<Item>, v: View, e: Eff)
    requires Pre(t, l, op, v) && AfterPush1(l, op, e)
    ensures Post(t, l, op, v, e)
  {
  }

  lemma AfterPush2Ok(t: Tid, l: Thread, op: Op<Item>, v: View, e: Eff)
    requires Pre(t, l, op, v) && AfterPush2(l, op, e)
    ensures Post(t, l, op, v, e)
  {
  }

  lemma DeliverLoadOk(t: Tid, l: Thread, op: Op<Item>, v: View, e: Eff)
    requires Pre(t, l, op, v) && DeliverLoad(l, v, e)
    ensures Post(t, l, op, v, e)
  {
  }

  lemma DeliverTestFinishOk(t: Tid, l: Thread, op: Op<Item>, v: View, e: Eff)
    requires Pre(t, l, op, v) && DeliverTest(l, v, e) && l.pc.k == Finish
    ensures Post(t, l, op, v, e)
  {
  }

  lemma DeliverTestThenParkOk(t: Tid, l: Thread, op: Op<Item>, v: View, e: Eff)
    requires Pre(t, l, op, v) && DeliverTest(l, v, e) && l.pc.k == ThenPark
    ensures Post(t, l, op, v, e)
  {
    assert Shape(t, v, e) && Lawful(t, l, v, e) by { hide OwnLedger, WaiterLedger; }
    hide Shape, Lawful;
  }

  lemma DeliverPopFinishOk(t: Tid, l: Thread, op: Op<Item>, v: View, e: Eff)
    requires Pre(t, l, op, v) && DeliverPop(l, op, e) && l.pc.k == Finish
    ensures Post(t, l, op, v, e)
  {
  }

  lemma DeliverPopThenParkOk(t: Tid, l: Thread, op: Op<Item>, v: View, e: Eff)
    requires Pre(t, l, op, v) && DeliverPop(l, op, e) && l.pc.k == ThenPark
    ensures Post(t, l, op, v, e)
  {
    assert Shape(t, v, e) && Lawful(t, l, v, e) by { hide OwnLedger, WaiterLedger; }
    hide Shape, Lawful;
  }

  lemma BeginRecvOk(t: Tid, l: Thread, op: Op<Item>, v: View, e: Eff, n: nat, mode: Mode, fast: bool)
    requires Pre(t, l, op, v) && BeginRecv(l, v, e, n, mode, fast)
    ensures Post(t, l, op, v, e)
  {
    hide Numbered;
  }

  lemma AfterPopOk(t: Tid, l: Thread, op: Op<Item>, v: View, e: Eff, retry: bool)
    requires Pre(t, l, op, v) && AfterPop(l, op, v, e, retry)
    ensures Post(t, l, op, v, e)
  {
    hide Numbered;
    assert Shape(t, v, e) && Lawful(t, l, v, e) by { hide OwnLedger, WaiterLedger; }
    hide Shape, Lawful;
  }

  lemma LockRecvOk(t: Tid, l: Thread, op: Op<Item>, v: View, e: Eff)
    requires Pre(t, l, op, v) && LockRecv(l, v, e)
    ensures Post(t, l, op, v, e)
  {
    hide Numbered;
  }

  lemma AfterPop1GotOk(t: Tid, l: Thread, op: Op<Item>, v: View, e: Eff)
    requires Pre(t, l, op, v) && AfterPop1(l, op, v, e) && op.got != []
    ensures Post(t, l, op, v, e)
  {
    hide Numbered;
    assert Shape(t, v, e) && Lawful(t, l, v, e) by { hide OwnLedger, WaiterLedger; }
    hide Shape, Lawful;
  }

  lemma AfterPop1EmptyOk(t: Tid, l: Thread, op: Op<Item>, v: View, e: Eff)
    requires Pre(t, l, op, v) && AfterPop1(l, op, v, e) && op.got == []
    ensures Post(t, l, op, v, e)
  {
    hide Numbered;
    assert Shape(t, v, e) && Lawful(t, l, v, e) by { hide OwnLedger, WaiterLedger; }
    hide Shape, Lawful;
  }

  lemma AfterPop2Ok(t: Tid, l: Thread, op: Op<Item>, v: View, e: Eff)
    requires Pre(t, l, op, v) && AfterPop2(l, op, e)
    ensures Post(t, l, op, v, e)
  {
    hide Numbered;
  }

  lemma AfterHelpOk(t: Tid, l: Thread, op: Op<Item>, v: View, e: Eff)
    requires Pre(t, l, op, v) && AfterHelp(l, op, e)
    ensures Post(t, l, op, v, e)
  {
    hide Numbered;
  }

  lemma LockAdmitOk(t: Tid, l: Thread, op: Op<Item>, v: View, e: Eff)
    requires Pre(t, l, op, v) && LockAdmit(l, v, e)
    ensures Post(t, l, op, v, e)
  {
    hide Numbered;
  }

  lemma AdmitLoadOk(t: Tid, l: Thread, op: Op<Item>, v: View, e: Eff)
    requires Pre(t, l, op, v) && AdmitLoad(l, v, e)
    ensures Post(t, l, op, v, e)
  {
    hide Numbered;
  }

  lemma AdmitTestOk(t: Tid, l: Thread, op: Op<Item>, v: View, e: Eff)
    requires Pre(t, l, op, v) && AdmitTest(l, v, e)
    ensures Post(t, l, op, v, e)
  {
    hide Numbered;
  }

  lemma AdmitPushOk(t: Tid, l: Thread, op: Op<Item>, v: View, e: Eff)
    requires Pre(t, l, op, v) && AdmitPush(l, op, e)
    ensures Post(t, l, op, v, e)
  {
    hide Numbered;
  }

  lemma WakeUpOk(t: Tid, l: Thread, op: Op<Item>, v: View, e: Eff)
    requires Pre(t, l, op, v) && WakeUp(l, e)
    ensures Post(t, l, op, v, e)
  {
  }

  lemma ExpireOk(t: Tid, l: Thread, op: Op<Item>, v: View, e: Eff)
    requires Pre(t, l, op, v) && Expire(l, e)
    ensures Post(t, l, op, v, e)
  {
  }

  lemma ExpireSendOk(t: Tid, l: Thread, op: Op<Item>, v: View, e: Eff)
    requires Pre(t, l, op, v) && ExpireSend(t, l, v, e)
    ensures Post(t, l, op, v, e)
  {
  }

  lemma ExpireRecvOk(t: Tid, l: Thread, op: Op<Item>, v: View, e: Eff)
    requires Pre(t, l, op, v) && ExpireRecv(t, l, v, e)
    ensures Post(t, l, op, v, e)
  {
  }

  lemma LeaveSendOk(t: Tid, l: Thread, op: Op<Item>, v: View, e: Eff)
    requires Pre(t, l, op, v) && LeaveSend(l, e)
    ensures Post(t, l, op, v, e)
  {
  }

  lemma LeaveRecvOk(t: Tid, l: Thread, op: Op<Item>, v: View, e: Eff)
    requires Pre(t, l, op, v) && LeaveRecv(l, e)
    ensures Post(t, l, op, v, e)
  {
  }

  lemma BeginCloseOk(t: Tid, l: Thread, op: Op<Item>, v: View, e: Eff)
    requires Pre(t, l, op, v) && BeginClose(l, e)
    ensures Post(t, l, op, v, e)
  {
    hide Numbered;
  }

  lemma LockCloseOk(t: Tid, l: Thread, op: Op<Item>, v: View, e: Eff)
    requires Pre(t, l, op, v) && LockClose(l, v, e)
    ensures Post(t, l, op, v, e)
  {
    hide Numbered;
  }

  lemma CloseSenderOk(t: Tid, l: Thread, op: Op<Item>, v: View, e: Eff)
    requires Pre(t, l, op, v) && CloseSender(l, v, e)
    ensures Post(t, l, op, v, e)
  {
    hide Numbered;
  }

  lemma CloseReceiverOk(t: Tid, l: Thread, op: Op<Item>, v: View, e: Eff)
    requires Pre(t, l, op, v) && CloseReceiver(l, v, e)
    ensures Post(t, l, op, v, e)
  {
    hide Numbered;
  }

  lemma ClosePopOk(t: Tid, l: Thread, op: Op<Item>, v: View, e: Eff)
    requires Pre(t, l, op, v) && ClosePop(l, op, e)
    ensures Post(t, l, op, v, e)
  {
    hide Numbered;
  }

  lemma DeliverTestOkBoth(t: Tid, l: Thread, op: Op<Item>, v: View, e: Eff)
    requires Pre(t, l, op, v) && DeliverTest(l, v, e)
    ensures Post(t, l, op, v, e)
  {
    hide Pre, Post;
    if l.pc.k == Finish { DeliverTestFinishOk(t, l, op, v, e); } else { DeliverTestThenParkOk(t, l, op, v, e); }
  }

  lemma DeliverPopOkBoth(t: Tid, l: Thread, op: Op<Item>, v: View, e: Eff)
    requires Pre(t, l, op, v) && DeliverPop(l, op, e)
    ensures Post(t, l, op, v, e)
  {
    hide Pre, Post;
    if l.pc.k == Finish { DeliverPopFinishOk(t, l, op, v, e); } else { DeliverPopThenParkOk(t, l, op, v, e); }
  }

  lemma SendProgOk(t: Tid, l: Thread, op: Op<Item>, v: View, e: Eff)
    requires Pre(t, l, op, v) && SendProg(t, l, op, v, e)
    ensures Post(t, l, op, v, e)
  {
    hide BeginSend, GateSend, LockDeliver, LockSend, AfterPush1, AfterPush2, DeliverLoad, DeliverTest, DeliverPop,
         Pre, Post;
    if exists vals: seq<Bytes>, mode: Mode :: BeginSend(t, l, v, e, vals, mode) {
      var vals: seq<Bytes>, mode: Mode :| BeginSend(t, l, v, e, vals, mode);
      BeginSendOk(t, l, op, v, e, vals, mode);
    } else if exists fast: bool :: GateSend(l, v, e, fast) {
      var fast: bool :| GateSend(l, v, e, fast);
      GateSendOk(t, l, op, v, e, fast);
    } else if exists retry: bool :: AfterPush(l, op, v, e, retry) {
      var retry: bool :| AfterPush(l, op, v, e, retry);
      assert op.PRet?;
      if op.sent == [] { AfterPushFullOk(t, l, op, v, e, retry); } else { AfterPushSentOk(t, l, op, v, e, retry); }
    } else if LockDeliver(l, v, e) {
      LockDeliverOk(t, l, op, v, e);
    } else if LockSend(l, v, e) {
      LockSendOk(t, l, op, v, e);
    } else if AfterPush1(l, op, e) {
      AfterPush1Ok(t, l, op, v, e);
    } else if AfterPush2(l, op, e) {
      AfterPush2Ok(t, l, op, v, e);
    } else if DeliverLoad(l, v, e) {
      DeliverLoadOk(t, l, op, v, e);
    } else if DeliverTest(l, v, e) {
      DeliverTestOkBoth(t, l, op, v, e);
    } else if DeliverPop(l, op, e) {
      DeliverPopOkBoth(t, l, op, v, e);
    }
  }

  lemma RecvProgOk(t: Tid, l: Thread, op: Op<Item>, v: View, e: Eff)
    requires Pre(t, l, op, v) && RecvProg(l, op, v, e)
    ensures Post(t, l, op, v, e)
  {
    hide BeginRecv, AfterPop, LockRecv, AfterPop2, AfterHelp, LockAdmit, AdmitLoad, AdmitTest, AdmitPush, Pre, Post;
    if exists n: nat, mode: Mode, fast: bool :: BeginRecv(l, v, e, n, mode, fast) {
      var n: nat, mode: Mode, fast: bool :| BeginRecv(l, v, e, n, mode, fast);
      BeginRecvOk(t, l, op, v, e, n, mode, fast);
    } else if exists retry: bool :: AfterPop(l, op, v, e, retry) {
      var retry: bool :| AfterPop(l, op, v, e, retry);
      AfterPopOk(t, l, op, v, e, retry);
    } else if LockRecv(l, v, e) {
      LockRecvOk(t, l, op, v, e);
    } else if AfterPop1(l, op, v, e) {
      assert op.CRet?;
      if op.got == [] { AfterPop1EmptyOk(t, l, op, v, e); } else { AfterPop1GotOk(t, l, op, v, e); }
    } else if AfterPop2(l, op, e) {
      AfterPop2Ok(t, l, op, v, e);
    } else if AfterHelp(l, op, e) {
      AfterHelpOk(t, l, op, v, e);
    } else if LockAdmit(l, v, e) {
      LockAdmitOk(t, l, op, v, e);
    } else if AdmitLoad(l, v, e) {
      AdmitLoadOk(t, l, op, v, e);
    } else if AdmitTest(l, v, e) {
      AdmitTestOk(t, l, op, v, e);
    } else if AdmitPush(l, op, e) {
      AdmitPushOk(t, l, op, v, e);
    }
  }

  lemma SleepProgOk(t: Tid, l: Thread, op: Op<Item>, v: View, e: Eff)
    requires Pre(t, l, op, v) && SleepProg(t, l, v, e)
    ensures Post(t, l, op, v, e)
  {
    hide WakeUp, Expire, ExpireSend, ExpireRecv, LeaveSend, LeaveRecv, Pre, Post;
    if WakeUp(l, e) {
      WakeUpOk(t, l, op, v, e);
    } else if Expire(l, e) {
      ExpireOk(t, l, op, v, e);
    } else if ExpireSend(t, l, v, e) {
      ExpireSendOk(t, l, op, v, e);
    } else if ExpireRecv(t, l, v, e) {
      ExpireRecvOk(t, l, op, v, e);
    } else if LeaveSend(l, e) {
      LeaveSendOk(t, l, op, v, e);
    } else if LeaveRecv(l, e) {
      LeaveRecvOk(t, l, op, v, e);
    }
  }

  lemma CloseProgOk(t: Tid, l: Thread, op: Op<Item>, v: View, e: Eff)
    requires Pre(t, l, op, v) && CloseProg(l, op, v, e)
    ensures Post(t, l, op, v, e)
  {
    hide BeginClose, LockClose, CloseSender, CloseReceiver, ClosePop, Pre, Post;
    if BeginClose(l, e) {
      BeginCloseOk(t, l, op, v, e);
    } else if LockClose(l, v, e) {
      LockCloseOk(t, l, op, v, e);
    } else if CloseSender(l, v, e) {
      CloseSenderOk(t, l, op, v, e);
    } else if CloseReceiver(l, v, e) {
      CloseReceiverOk(t, l, op, v, e);
    } else if ClosePop(l, op, e) {
      ClosePopOk(t, l, op, v, e);
    }
  }

  lemma ProgOk(t: Tid, l: Thread, op: Op<Item>, v: View, e: Eff)
    requires Pre(t, l, op, v) && Prog(t, l, op, v, e)
    ensures Post(t, l, op, v, e)
  {
    hide SendProg, RecvProg, SleepProg, CloseProg, Pre, Post;
    if SendProg(t, l, op, v, e) {
      SendProgOk(t, l, op, v, e);
    } else if RecvProg(l, op, v, e) {
      RecvProgOk(t, l, op, v, e);
    } else if SleepProg(t, l, v, e) {
      SleepProgOk(t, l, op, v, e);
    } else {
      CloseProgOk(t, l, op, v, e);
    }
  }
}
