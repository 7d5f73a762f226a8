/** Whole executions of the 32-bit ring: every one whose snapshots do not lag
    2^32 - capacity behind is the image of an execution of the unbounded ring,
    so what holds of that holds of the words. */
module WordRuns {
  import opened Seqs
  import opened Ring
  import opened RingTheorems
  import opened Wrap32
  import opened WordRing

  datatype Ring32<V> = Ring32(m: Mem32<V>, ops: map<Tid, Op<V>>)

  ghost predicate Fresh32<V>(s: Ring32<V>) {
    && s.m.e <= 31 && |s.m.slots| == s.m.Cap() && s.m.ph == s.m.pt == s.m.ch == s.m.ct == 0
    && forall t <- s.ops :: s.ops[t].Idle?
  }

  ghost predicate StepBy32<V>(s: Ring32<V>, s': Ring32<V>, t: Tid) {
    && t in s.ops && t in s'.ops && s'.ops == s.ops[t := s'.ops[t]]
    && (Step32(s.m, s.ops[t], s'.m, s'.ops[t]) || (s'.m == s.m && s.ops[t].Returned() && s'.ops[t].Fresh()))
  }

  ghost predicate Next32<V>(s: Ring32<V>, s': Ring32<V>) { exists t: Tid :: StepBy32(s, s', t) }

  ghost predicate Run32<V>(run: seq<Ring32<V>>) {
    |run| > 0 && Fresh32(run[0]) && forall i :: 0 <= i < |run| - 1 ==> Next32(run[i], run[i+1])
  }

  /** The words of an unbounded state. */
  function Image<V>(s: Ring<V>, e: nat): Ring32<V> {
    Ring32(Words(s.m, e), map t | t in s.ops :: WordsOp(s.ops[t]))
  }

  /** An execution of the unbounded ring whose images are the first states of `words`. */
  ghost predicate Lifts<V>(run: seq<Ring<V>>, words: seq<Ring32<V>>, e: nat) {
    && run != [] && Run(run) && |run| <= |words| && Last(run).m.cap == Pow2(e)
    && forall i :: 0 <= i < |run| ==> Image(run[i], e) == words[i]
  }

  ghost predicate AllNear<V>(s: Ring<V>) { forall t <- s.ops :: Near(s.m, s.ops[t]) }

  /** No snapshot ever lags too far behind. */
  ghost predicate StaysNear<V(!new)>(words: seq<Ring32<V>>, e: nat) {
    forall run: seq<Ring<V>> :: Lifts(run, words, e) ==> AllNear(Last(run))
  }

  lemma LiftNext<V>(s: Ring<V>, w': Ring32<V>, t: Tid, e: nat) returns (s': Ring<V>)
    requires Inv(s) && AllNear(s) && s.m.cap == Pow2(e) && e <= 31 && StepBy32(Image(s, e), w', t)
    ensures (Step(s, s', t) || Begin(s, s', t)) && Image(s', e) == w' && s'.m.cap == s.m.cap
  {
    hide Step32, OpStep, Words, Pow2, Covered, AllStored;
    var op' := w'.ops[t];
    assert OpOk(s.m, t, s.ops[t]) && Near(s.m, s.ops[t]);
    if Step32(Words(s.m, e), WordsOp(s.ops[t]), w'.m, op') {
      var m', o' := LiftStep(s.m, s.ops[t], w'.m, op', t, e);
      s' := Ring(m', s.ops[t := o']);
      assert Step(s, s', t);
      StepCap(s.m, s.ops[t], m', o', t);
    } else {
      s' := SetOp(s, t, op');
      assert WordsOp(op') == op' && s.ops[t].Returned();
      assert Begin(s, s', t);
    }
  }

  lemma StepCap<V>(m: Mem<V>, op: Op<V>, m': Mem<V>, op': Op<V>, t: Tid)
    requires OpStep(m, op, m', op', t)
    ensures m'.cap == m.cap
  {
  }

  /** Every such execution of the 32-bit ring is the image of one of the unbounded ring. */
  lemma {:induction false} LiftRun<V(!new)>(words: seq<Ring32<V>>, e: nat) returns (run: seq<Ring<V>>)
    requires Run32(words) && words[0].m.e == e && StaysNear(words, e)
    ensures Lifts(run, words, e) && |run| == |words|
    decreases |words|
  {
    hide Run, Pow2, StepBy32, AllNear;
    var n := |words| - 1;
    if n == 0 {
      run := LiftFresh(words[0], e);
    } else {
      Prefix(words, n, e);
      var r := LiftRun(words[..n], e);
      assert Lifts(r, words, e) && AllNear(Last(r));
      assert Next32(words[n - 1], words[n]);
      var t: Tid :| StepBy32(words[n - 1], words[n], t);
      RunInv(r, n - 1);
      var s' := LiftNext(Last(r), words[n], t, e);
      run := Extend(r, Last(r), s', t);
    }
  }

  lemma Prefix<V(!new)>(words: seq<Ring32<V>>, n: nat, e: nat)
    requires Run32(words) && 0 < n <= |words| && StaysNear(words, e)
    ensures Run32(words[..n]) && StaysNear(words[..n], e)
  {
    hide Next32, Fresh32, AllNear, Run;
    forall r: seq<Ring<V>> | Lifts(r, words[..n], e) ensures r != [] && AllNear(Last(r)) { assert Lifts(r, words, e); }
  }

  lemma LiftFresh<V>(w: Ring32<V>, e: nat) returns (run: seq<Ring<V>>)
    requires Fresh32(w) && w.m.e == e
    ensures Lifts(run, [w], e) && |run| == 1
  {
    var s := Ring(Mem(Pow2(e), 0, 0, 0, 0, w.m.slots, [], [], []), w.ops);
    PowGrows(0, e);
    run := [s];
    assert Image(s, e).ops == w.ops;
  }

  /** Indices a thread in flight holds, counted from its first. */
  function Held<V>(op: Op<V>): nat { match op case PWrite(_, vals, _) => |vals| case CRead(_, k, _) => k case _ => 0 }

  /** What it is good for: on the words too, no two threads in flight touch the same slot. */
  lemma WordSlotsExclusive<V(!new)>(words: seq<Ring32<V>>, e: nat, i: nat, t: Tid, a: nat, u: Tid, b: nat)
    requires Run32(words) && words[0].m.e == e && StaysNear(words, e) && i < |words| && t != u
    requires t in words[i].ops && a < Held(words[i].ops[t]) && u in words[i].ops && b < Held(words[i].ops[u])
    ensures var w := words[i]; w.m.Slot(W(w.ops[t].lo + a)) != w.m.Slot(W(w.ops[u].lo + b))
  {
    hide Run, Run32, StaysNear, Pow2;
    var run := LiftRun(words, e);
    assert Image(run[i], e) == words[i];
    RunInv(run, i);
    RunCap(run, i, |run| - 1);
    assert e <= 31 by { RunExp(words); }
    ImageSlotsExclusive(run[i], e, t, a, u, b);
  }

  lemma ImageSlotsExclusive<V>(s: Ring<V>, e: nat, t: Tid, a: nat, u: Tid, b: nat)
    requires Inv(s) && s.m.cap == Pow2(e) && e <= 31 && t != u
    requires t in s.ops && a < Held(s.ops[t]) && u in s.ops && b < Held(s.ops[u])
    ensures var w := Words(s.m, e); w.Slot(W(W(s.ops[t].lo) + a)) != w.Slot(W(W(s.ops[u].lo) + b))
  {
    hide Pow2, Inv, W, And;
    SlotsExclusive(s, t, s.ops[t].lo + a, u, s.ops[u].lo + b);
    SlotOfWord(s.m, e, s.ops[t].lo, a);
    SlotOfWord(s.m, e, s.ops[u].lo, b);
  }

  lemma RunExp<V>(words: seq<Ring32<V>>)
    requires Run32(words)
    ensures words[0].m.e <= 31
  {
  }

  lemma {:induction false} RunCap<V>(run: seq<Ring<V>>, i: nat, j: nat)
    requires Run(run) && i <= j < |run|
    ensures run[i].m.cap == run[j].m.cap
    decreases j - i
  {
    if i < j {
      RunCap(run, i, j - 1);
      assert Next(run[j - 1], run[j]);
    }
  }
}
