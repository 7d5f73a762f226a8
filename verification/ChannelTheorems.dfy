/** What every execution of a buffered channel guarantees: any number of threads
    sending and receiving, directly, with timeouts, trying or in bursts, and
    closing, in any interleaving. */
module ChannelTheorems {
  import opened Results
  import opened Ring
  import opened Channel
  import opened ChannelLedger
  import opened ChannelFifo

  /** Conservation: what the channel has accepted is what has left it plus what
      is in the ring, and no value is accepted or leaves twice. */
  lemma Conservation(run: seq<Chan>, i: nat)
    requires Channel.Run(run) && i < |run|
    ensures var c := run[i];
      && c.ring.m.ch <= |c.ring.m.hist|
      && multiset(c.log.acc) == multiset(ItemsOf(c.log.left)) + multiset(c.ring.m.hist[c.ring.m.ch..])
      && (forall a, b :: 0 <= a < b < |c.log.acc| ==> c.log.acc[a] != c.log.acc[b])
      && (forall a, b :: 0 <= a < b < |c.log.left| ==> c.log.left[a].item != c.log.left[b].item)
  {
    hide Channel.Run, MovedBy, LeftOk, SendHonest, RecvHonest, Accepted, Attributed, Drained;
    RunLedger(run, i);
    RunFifo(run, i);
    var c := run[i];
    forall a, b | 0 <= a < b < |c.log.left| ensures c.log.left[a].item != c.log.left[b].item {
      assert Line(c)[a] == c.log.left[a].item && Line(c)[b] == c.log.left[b].item;
    }
  }

  /** A completed send reports `Ok` exactly when it moved something, and the
      values it moved are exactly the first ones the channel accepted from it;
      a send begun after close moves nothing. */
  lemma SendsReportTheTruth(run: seq<Chan>, i: nat, r: SendRec)
    requires Channel.Run(run) && i < |run| && r in run[i].log.sends
    ensures r.sent <= |r.items| && (r.res == Ok <==> r.sent > 0)
    ensures forall j :: 0 <= j < |r.items| ==> (r.items[j] in run[i].log.acc <==> j < r.sent)
    ensures r.late ==> r.sent == 0
  {
    hide Channel.Run, AccOk, LeftOk, RecvHonest;
    RunLedger(run, i);
    assert SendHonest(run[i].log.acc, run[i].th, r);
  }

  /** A completed receive reports `Ok` exactly when it got something, and it got
      exactly the values that left the channel for it. */
  lemma ReceivesReportTheTruth(run: seq<Chan>, i: nat, r: RecvRec)
    requires Channel.Run(run) && i < |run| && r in run[i].log.recvs
    ensures r.got == To(run[i].log.left, r.to, r.rid) && (r.res == Ok <==> r.got != [])
    ensures forall x :: x in r.got ==> x in run[i].log.acc
  {
    hide Channel.Run, AccOk, LeftOk, SendHonest;
    RunLedger(run, i);
    assert RecvHonest(run[i].log.left, run[i].th, r);
    forall x | x in r.got ensures x in run[i].log.acc {
      ToLeft(run[i].log.left, r.to, r.rid, x);
      LineAccepted(run[i], x);
    }
  }

  lemma {:induction false} ToLeft(left: seq<Leave>, to: Tid, rid: nat, x: Item)
    requires x in To(left, to, rid)
    ensures x in ItemsOf(left)
  {
    var n := |left| - 1;
    if left[n].item == x {
      assert ItemsOf(left)[n] == x;
    } else {
      ToLeft(left[..n], to, rid, x);
      var j :| 0 <= j < n && ItemsOf(left[..n])[j] == x;
      assert ItemsOf(left)[j] == x;
    }
  }

  /** Per-producer order: of two values of one producer, the one sent first
      leaves first, and what is still in the ring was sent after what has left. */
  lemma ProducerOrder(run: seq<Chan>, i: nat, a: nat, b: nat)
    requires Channel.Run(run) && i < |run|
    requires var c := run[i];
      c.ring.m.ch <= |c.ring.m.hist| && a < b < |Line(c)| && Line(c)[a].producer == Line(c)[b].producer
    ensures Line(run[i])[a].serial < Line(run[i])[b].serial
  {
    hide Channel.Run, Attributed, Drained;
    RunFifo(run, i);
  }
}
