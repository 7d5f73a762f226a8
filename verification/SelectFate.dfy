/** What becomes of a parked select call: nobody loses its stubs while it is
    unclaimed, and a call that is claimed and then put back is never served. */
module SelectFate {
  import opened Results
  import opened Seqs
  import opened SelectClaim

  // -------------------------------------------------------- nobody is lost

  /** Every stub of a parked, unclaimed call is queued on the channel of its case. */
  ghost predicate Present(st: State, s: Sid)
    requires s in st.sel
  {
    var x := st.sel[s];
    x.parked && !x.claimed ==> forall i :: 0 <= i < |x.cases| ==> x.cases[i] in st.q && Stub(s, i) in st.q[x.cases[i]]
  }

  ghost predicate AllPresent(st: State) { forall s <- st.sel :: Present(st, s) }

  lemma ParkPresent(st: State, st': State, s: Sid, cases: seq<Qid>)
    requires Inv(st) && AllPresent(st) && Park(st, st', s, cases)
    ensures AllPresent(st')
  {
    KeysKept(st.q, s, cases, 0);
    forall u <- st'.sel ensures Present(st', u) {
      var x := st'.sel[u];
      forall i | 0 <= i < |x.cases| && x.parked && !x.claimed
        ensures x.cases[i] in st'.q && Stub(u, i) in st'.q[x.cases[i]]
      {
        var y := x.cases[i];
        assert u != s ==> Present(st, u);
        assert y in st.q && QueueOk(st.sel, y, st.q[y]);
        forall k | 0 <= k < |cases| ensures Stub(s, k) !in st.q[y] {}
        Enqueued(st.q, s, cases, 0, y);
      }
    }
  }

  /** A waker takes nobody out of a queue but claimed stubs and the first it can claim. */
  lemma WakeKeeps(st: State, st': State, x: Qid, res: Option<Result>, y: Qid, n: Node)
    requires Wake(st, st', x, res) && y in st.q && n in st.q[y] && Claimable(st.sel, n)
    ensures y in st'.q && (n in st'.q[y] || (y == x && Claimed(st, x, n)))
  {
    var q, k := st.q[x], Skip(st.sel, st.q[x]);
    if y == x {
      var i :| 0 <= i < |q| && q[i] == n;
      assert i >= k;
      if i > k { assert q[k + 1..][i - k - 1] == n; }
    }
  }

  /** A waker drops every claimed stub up to the first waiter it can claim, and
      from there on leaves the queue as it was, without that waiter if it serves it. */
  lemma WakeDrops(st: State, st': State, x: Qid, res: Option<Result>) returns (dropped: seq<Node>, kept: seq<Node>)
    requires Wake(st, st', x, res)
    ensures x in st.q && x in st'.q && st.q[x] == dropped + kept && (kept != [] ==> Claimable(st.sel, kept[0]))
    ensures forall i :: 0 <= i < |dropped| ==> !Claimable(st.sel, dropped[i])
    ensures st'.q[x] == if kept != [] && res.Some? then kept[1..] else kept
  {
    var q, k := st.q[x], Skip(st.sel, st.q[x]);
    dropped, kept := q[..k], q[k..];
    hide Skip, Claim, Claimable;
    if k < |q| { assert kept == [q[k]] + q[k + 1..]; }
  }

  /** n is the first in the queue of x that can be claimed. */
  ghost predicate Claimed(st: State, x: Qid, n: Node)
    requires x in st.q
  {
    var k := Skip(st.sel, st.q[x]); k < |st.q[x]| && st.q[x][k] == n
  }

  lemma WakePresent(st: State, st': State, x: Qid, res: Option<Result>)
    requires Inv(st) && AllPresent(st) && Wake(st, st', x, res)
    ensures AllPresent(st')
  {
    forall u <- st'.sel ensures Present(st', u) {
      var c := st'.sel[u];
      forall i | 0 <= i < |c.cases| && c.parked && !c.claimed
        ensures c.cases[i] in st'.q && Stub(u, i) in st'.q[c.cases[i]]
      {
        assert Present(st, u) && st.sel[u] == c;
        WakeKeeps(st, st', x, res, c.cases[i], Stub(u, i));
      }
    }
  }

  lemma LeavePresent(st: State, st': State, x: Qid, id: nat)
    requires AllPresent(st) && (Join(st, st', x, id) || Leave(st, st', x, id))
    ensures AllPresent(st')
  {
    forall u <- st'.sel ensures Present(st', u) { assert Present(st, u); }
  }

  lemma ReturnPresent(st: State, st': State, s: Sid)
    requires Inv(st) && AllPresent(st) && Return(st, st', s)
    ensures AllPresent(st')
  {
    UnlinkKeys(st.q, s, st.sel[s], 0);
    forall u <- st'.sel ensures Present(st', u) {
      var c := st'.sel[u];
      forall i | 0 <= i < |c.cases| && c.parked && !c.claimed
        ensures c.cases[i] in st'.q && Stub(u, i) in st'.q[c.cases[i]]
      {
        assert Present(st, u) && QueueOk(st.sel, c.cases[i], st.q[c.cases[i]]);
        Unlinked(st.q, s, st.sel[s], 0, c.cases[i]);
      }
    }
  }

  lemma NextPresent(st: State, st': State)
    requires Inv(st) && AllPresent(st) && Next(st, st')
    ensures AllPresent(st')
  {
    hide Inv, AllPresent, Park, Join, Leave, Wake, Return;
    if s: Sid, cases: seq<Qid> :| Park(st, st', s, cases) {
      ParkPresent(st, st', s, cases);
    } else if x: Qid, id: nat :| Join(st, st', x, id) || Leave(st, st', x, id) {
      LeavePresent(st, st', x, id);
    } else if x: Qid, res: Option<Result> :| Wake(st, st', x, res) {
      WakePresent(st, st', x, res);
    } else {
      var s: Sid :| Return(st, st', s);
      ReturnPresent(st, st', s);
    }
  }

  /** As long as a parked call is unclaimed, a waker of any of its channels finds its stub there. */
  lemma {:induction false} NobodyIsLost(run: seq<State>, i: nat)
    requires Run(run) && i < |run|
    ensures AllPresent(run[i])
  {
    hide Next;
    if i > 0 {
      NobodyIsLost(run, i - 1);
      RunInv(run, i - 1);
      NextPresent(run[i - 1], run[i]);
    }
  }

  // --------------------------------------------------- claimed and put back

  /** Claimed by a waker that gave it nothing. */
  ghost predicate Stranded(st: State, s: Sid) {
    s in st.sel && st.sel[s].claimed && forall i :: 0 <= i < |st.sel[s].result| ==> st.sel[s].result[i] == None
  }

  /** A waker serves whom it claims; with `putBack`, it may also put it back, still claimed. */
  ghost predicate NextOf(st: State, st': State, putBack: bool) {
    || (exists s, cases :: Park(st, st', s, cases))
    || (exists x, id :: Join(st, st', x, id)) || (exists x, id :: Leave(st, st', x, id))
    || (exists x, res :: Wake(st, st', x, res) && (res.Some? || putBack)) || (exists s :: Return(st, st', s))
  }

  ghost predicate RunOf(run: seq<State>, putBack: bool) {
    |run| > 0 && Init(run[0]) && forall i :: 0 <= i < |run| - 1 ==> NextOf(run[i], run[i + 1], putBack)
  }

  lemma OfRun(run: seq<State>, putBack: bool)
    requires RunOf(run, putBack)
    ensures Run(run)
  {
    hide Park, Join, Leave, Wake, Return;
    forall i | 0 <= i < |run| - 1 ensures Next(run[i], run[i + 1]) { assert NextOf(run[i], run[i + 1], putBack); }
  }

  /** Nothing that anybody does, closing included, gives a stranded call a result. */
  lemma StrandedStep(st: State, st': State, s: Sid)
    requires Next(st, st') && Stranded(st, s)
    ensures Stranded(st', s)
  {
  }

  lemma {:induction false} StrandedForGood(run: seq<State>, i: nat, j: nat, s: Sid)
    requires Run(run) && i <= j < |run| && Stranded(run[i], s)
    ensures Stranded(run[j], s)
  {
    hide Next, Stranded;
    if i < j {
      StrandedForGood(run, i, j - 1, s);
      StrandedStep(run[j - 1], run[j], s);
    }
  }

  /** A parked select whose stub is claimed for a value that another thread
      takes first is put back, and stays there. */
  lemma PutBackStrands() returns (run: seq<State>)
    ensures RunOf(run, true) && Stranded(Last(run), 0) && Last(run).sel[0].parked
  {
    var a := State(map[0 := []], map[]);
    var none: seq<Option<Result>> := [None];
    var x := Sel([0], false, none, true);
    var b := State(map[0 := [Stub(0, 0)]], map[0 := x]);
    var c := State(map[0 := [Stub(0, 0)]], map[0 := x.(claimed := true)]);
    assert Park(a, b, 0, [0]) by {
      assert seq(1, _ => None) == none && [] + [Stub(0, 0)] == [Stub(0, 0)];
      assert Enqueue(a.q, 0, [0], 0) == Enqueue(b.q, 0, [0], 1) == b.q;
    }
    assert Wake(b, c, 0, None) by {
      assert Skip(b.sel, b.q[0]) == 0 && b.q[0][1..] == [] && [Stub(0, 0)] + [] == [Stub(0, 0)];
    }
    run := [a, b, c];
  }

  lemma WakeServed(st: State, st': State, x: Qid, res: Option<Result>, s: Sid)
    requires Inv(st) && Wake(st, st', x, res) && res.Some? && s in st.sel && !Stranded(st, s)
    ensures !Stranded(st', s)
  {
    var q := st.q[x];
    var k := Skip(st.sel, q);
    assert QueueOk(st.sel, x, q);
    if k < |q| && q[k].Stub? && q[k].s == s {
      assert NodeOk(st.sel, x, q[k]);
      assert st'.sel[s].result[q[k].i] == res;
    }
  }

  lemma ServedStep(st: State, st': State)
    requires Inv(st) && NextOf(st, st', false) && forall s <- st.sel :: !Stranded(st, s)
    ensures forall s <- st'.sel :: !Stranded(st', s)
  {
    if x: Qid, res: Option<Result> :| Wake(st, st', x, res) && res.Some? {
      forall s <- st'.sel ensures !Stranded(st', s) { WakeServed(st, st', x, res, s); }
    } else {
      hide Inv, Wake, Enqueue, Unlink;
      forall s <- st'.sel ensures !Stranded(st', s) { assert s in st.sel ==> !Stranded(st, s); }
    }
  }

  lemma {:induction false} ServedRun(run: seq<State>, i: nat)
    requires RunOf(run, false) && i < |run|
    ensures forall s <- run[i].sel :: !Stranded(run[i], s)
  {
    hide NextOf, Stranded, Inv;
    if i > 0 {
      ServedRun(run, i - 1);
      OfRun(run, false);
      RunInv(run, i - 1);
      ServedStep(run[i - 1], run[i]);
    }
  }

  /** A call becomes stranded by exactly one kind of step: a waker whose ring
      operation fails after it has claimed one of the call's stubs. */
  lemma StrandedBy(st: State, st': State, s: Sid)
    requires Inv(st) && Next(st, st') && s in st.sel && !Stranded(st, s)
    ensures Stranded(st', s) <==> exists x, i :: Wake(st, st', x, None) && Claimed(st, x, Stub(s, i))
  {
    if Stranded(st', s) {
      if x: Qid, res: Option<Result> :| Wake(st, st', x, res) {
        if res.Some? { WakeServed(st, st', x, res, s); }
        var k := Skip(st.sel, st.q[x]);
        assert k < |st.q[x]| && Claimed(st, x, Stub(s, st.q[x][k].i));
      } else {
        hide Inv, Wake, Enqueue, Unlink;
      }
    }
    if x: Qid, i: nat :| Wake(st, st', x, None) && Claimed(st, x, Stub(s, i)) {
      assert QueueOk(st.sel, x, st.q[x]) && SelOk(st.sel[s]);
    }
  }

  /** No select is ever stranded, exactly when no waker puts a claimed waiter back. */
  lemma StrandedExact(putBack: bool)
    ensures !putBack <==> forall run: seq<State>, s: Sid :: RunOf(run, putBack) ==> !Stranded(Last(run), s)
  {
    hide NextOf, Stranded;
    if putBack {
      var run := PutBackStrands();
      assert RunOf(run, putBack) && Stranded(Last(run), 0);
    } else {
      forall run: seq<State>, s: Sid | RunOf(run, putBack) ensures !Stranded(Last(run), s) { NotStranded(run, s); }
    }
  }

  lemma NotStranded(run: seq<State>, s: Sid)
    requires RunOf(run, false)
    ensures !Stranded(Last(run), s)
  {
    ServedRun(run, |run| - 1);
  }
}
