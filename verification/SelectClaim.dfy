/** Parked select calls: their stubs queued on many channels, the shared state
    that lets one waker claim the call, and the cleanup before the call returns.
    What one thread does while it holds the locks involved is one step. */
module SelectClaim {
  import opened Results
  import opened Seqs

  type Sid = nat
  type Qid = nat

  /** A queued waiter: a direct operation, or case i of select call s. */
  datatype Node = Direct(id: nat) | Stub(s: Sid, i: nat)

  /** A select call: the queue of each case, the shared state, and the result of each stub. */
  datatype Sel = Sel(cases: seq<Qid>, claimed: bool, result: seq<Option<Result>>, parked: bool)

  datatype State = State(q: map<Qid, seq<Node>>, sel: map<Sid, Sel>)

  ghost predicate Init(st: State) { st.sel == map[] && forall x <- st.q :: st.q[x] == [] }

  predicate Claimable(sel: map<Sid, Sel>, n: Node) { n.Direct? || (n.s in sel && !sel[n.s].claimed) }

  /** How many queued nodes a waker drops before the first it can claim. */
  function Skip(sel: map<Sid, Sel>, q: seq<Node>): (k: nat)
    ensures k <= |q| && (forall i :: 0 <= i < k ==> !Claimable(sel, q[i])) && (k < |q| ==> Claimable(sel, q[k]))
  {
    if q == [] || Claimable(sel, q[0]) then 0 else 1 + Skip(sel, q[1..])
  }

  // ------------------------------------------------------------------ steps

  /** Queue the stubs of call s from case i on. */
  function Enqueue(q: map<Qid, seq<Node>>, s: Sid, cases: seq<Qid>, i: nat): map<Qid, seq<Node>>
    requires i <= |cases| && forall k :: 0 <= k < |cases| ==> cases[k] in q
    decreases |cases| - i
  {
    if i == |cases| then q else Enqueue(q[cases[i] := q[cases[i]] + [Stub(s, i)]], s, cases, i + 1)
  }

  ghost predicate Park(st: State, st': State, s: Sid, cases: seq<Qid>) {
    && s !in st.sel && (forall k :: 0 <= k < |cases| ==> cases[k] in st.q)
    && st' == State(Enqueue(st.q, s, cases, 0), st.sel[s := Sel(cases, false, seq(|cases|, _ => None), true)])
  }

  ghost predicate Join(st: State, st': State, x: Qid, id: nat) {
    x in st.q && (forall y <- st.q :: Direct(id) !in st.q[y]) && st' == st.(q := st.q[x := st.q[x] + [Direct(id)]])
  }

  ghost predicate Leave(st: State, st': State, x: Qid, id: nat) {
    x in st.q && st' == st.(q := st.q[x := Without(st.q[x], Direct(id))])
  }

  function Claim(sel: map<Sid, Sel>, n: Node, res: Option<Result>): map<Sid, Sel> {
    if n.Direct? || n.s !in sel then sel
    else
      var x := sel[n.s].(claimed := true);
      sel[n.s := if n.i < |x.result| && res.Some? then x.(result := x.result[n.i := res]) else x]
  }

  /** A waker scans a queue: it drops claimed stubs, claims the first waiter it
      can, and sets its result, or puts it back in front when its ring operation fails. */
  ghost predicate Wake(st: State, st': State, x: Qid, res: Option<Result>) {
    && x in st.q
    && var k := Skip(st.sel, st.q[x]);
       if k == |st.q[x]| then st' == st.(q := st.q[x := []])
       else
         var n := st.q[x][k];
         st' == State(st.q[x := (if res.Some? then [] else [n]) + st.q[x][k + 1..]], Claim(st.sel, n, res))
  }

  /** Unlink the stubs of call s that have no result, from case i on. */
  function Unlink(q: map<Qid, seq<Node>>, s: Sid, x: Sel, i: nat): map<Qid, seq<Node>>
    requires i <= |x.cases| == |x.result|
    decreases |x.cases| - i
  {
    if i == |x.cases| then q
    else
      var y := x.cases[i];
      Unlink(if x.result[i] == None && y in q then q[y := Without(q[y], Stub(s, i))] else q, s, x, i + 1)
  }

  /** Cleanup, with all the call's channels locked; then the call returns. */
  ghost predicate Return(st: State, st': State, s: Sid) {
    && s in st.sel && st.sel[s].parked && |st.sel[s].cases| == |st.sel[s].result|
    && st' == State(Unlink(st.q, s, st.sel[s], 0), st.sel[s := st.sel[s].(parked := false)])
  }

  ghost predicate Next(st: State, st': State) {
    || (exists s, cases :: Park(st, st', s, cases))
    || (exists x, id :: Join(st, st', x, id)) || (exists x, id :: Leave(st, st', x, id))
    || (exists x, res :: Wake(st, st', x, res)) || (exists s :: Return(st, st', s))
  }

  ghost predicate Run(run: seq<State>) {
    |run| > 0 && Init(run[0]) && forall i :: 0 <= i < |run| - 1 ==> Next(run[i], run[i+1])
  }

  // -------------------------------------------------------------- invariant

  ghost predicate SelOk(x: Sel) {
    && |x.cases| == |x.result|
    && (forall i :: 0 <= i < |x.result| && x.result[i].Some? ==> x.claimed)
    && (forall i, j :: 0 <= i < j < |x.result| ==> !(x.result[i].Some? && x.result[j].Some?))
  }

  /** A queued stub belongs to a parked call, on the queue of its case, without a result. */
  ghost predicate NodeOk(sel: map<Sid, Sel>, x: Qid, n: Node) {
    n.Stub? ==>
      && n.s in sel && sel[n.s].parked && n.i < |sel[n.s].cases| == |sel[n.s].result|
      && sel[n.s].cases[n.i] == x && sel[n.s].result[n.i] == None
  }

  ghost predicate QueueOk(sel: map<Sid, Sel>, x: Qid, q: seq<Node>) {
    Distinct(q) && forall i :: 0 <= i < |q| ==> NodeOk(sel, x, q[i])
  }

  ghost predicate Inv(st: State) {
    && (forall s <- st.sel :: SelOk(st.sel[s]))
    && (forall x <- st.q :: QueueOk(st.sel, x, st.q[x]))
  }

  // ----------------------------------------------------------- preservation

  /** What has been enqueued: exactly the stubs from case i on. */
  lemma {:induction false} Enqueued(q: map<Qid, seq<Node>>, s: Sid, cases: seq<Qid>, i: nat, x: Qid)
    requires i <= |cases| && (forall k :: 0 <= k < |cases| ==> cases[k] in q) && x in q
    requires Distinct(q[x])
    requires forall k :: i <= k < |cases| ==> Stub(s, k) !in q[x]
    ensures var q' := Enqueue(q, s, cases, i);
      && q'.Keys == q.Keys && Distinct(q'[x])
      && forall n :: n in q'[x] <==> n in q[x] || (n.Stub? && n.s == s && i <= n.i < |cases| && cases[n.i] == x)
    decreases |cases| - i
  {
    if i < |cases| { Enqueued(q[cases[i] := q[cases[i]] + [Stub(s, i)]], s, cases, i + 1, x); }
  }

  lemma ParkKeepsInv(st: State, st': State, s: Sid, cases: seq<Qid>)
    requires Inv(st) && Park(st, st', s, cases)
    ensures Inv(st')
  {
    if cases != [] { assert cases[0] in st.q; }
    forall x <- st'.q ensures QueueOk(st'.sel, x, st'.q[x]) {
      KeysKept(st.q, s, cases, 0);
      assert x in st.q && QueueOk(st.sel, x, st.q[x]);
      forall k | 0 <= k < |cases| ensures Stub(s, k) !in st.q[x] {}
      Enqueued(st.q, s, cases, 0, x);
      forall i | 0 <= i < |st'.q[x]| ensures NodeOk(st'.sel, x, st'.q[x][i]) {
        var n := st'.q[x][i];
        assert n in st'.q[x];
        if n in st.q[x] { assert NodeOk(st.sel, x, n); }
      }
    }
  }

  lemma {:induction false} KeysKept(q: map<Qid, seq<Node>>, s: Sid, cases: seq<Qid>, i: nat)
    requires i <= |cases| && (forall k :: 0 <= k < |cases| ==> cases[k] in q)
    ensures Enqueue(q, s, cases, i).Keys == q.Keys
    decreases |cases| - i
  {
    if i < |cases| { KeysKept(q[cases[i] := q[cases[i]] + [Stub(s, i)]], s, cases, i + 1); }
  }

  lemma JoinLeaveKeepsInv(st: State, st': State, x: Qid, id: nat)
    requires Inv(st) && (Join(st, st', x, id) || Leave(st, st', x, id))
    ensures Inv(st')
  {
    assert QueueOk(st.sel, x, st.q[x]);
    WithoutDistinct(st.q[x], Direct(id));
    forall i | 0 <= i < |Without(st.q[x], Direct(id))| ensures NodeOk(st.sel, x, Without(st.q[x], Direct(id))[i]) {
      assert Without(st.q[x], Direct(id))[i] in st.q[x];
    }
    forall y <- st'.q ensures QueueOk(st'.sel, y, st'.q[y]) { assert QueueOk(st.sel, y, st.q[y]); }
  }

  lemma WakeKeepsInv(st: State, st': State, x: Qid, res: Option<Result>)
    requires Inv(st) && Wake(st, st', x, res)
    ensures Inv(st')
  {
    var q := st.q[x];
    var k := Skip(st.sel, q);
    assert QueueOk(st.sel, x, q);
    if k < |q| {
      var n := q[k];
      assert NodeOk(st.sel, x, n);
      forall s <- st'.sel ensures SelOk(st'.sel[s]) { assert SelOk(st.sel[s]); }
      forall y <- st'.q ensures QueueOk(st'.sel, y, st'.q[y]) {
        assert QueueOk(st.sel, y, st.q[y]);
        forall i | 0 <= i < |st'.q[y]| ensures NodeOk(st'.sel, y, st'.q[y][i]) {
          var m := st'.q[y][i];
          assert m in st.q[y] && NodeOk(st.sel, y, m);
          ClaimNode(st.sel, n, res, y, m);
        }
      }
    } else {
      forall y <- st'.q ensures QueueOk(st'.sel, y, st'.q[y]) { assert QueueOk(st.sel, y, st.q[y]); }
    }
  }

  /** Claiming a node keeps every other queued node in order. */
  lemma ClaimNode(sel: map<Sid, Sel>, n: Node, res: Option<Result>, y: Qid, m: Node)
    requires NodeOk(sel, y, m) && (m.Direct? || m != n || res == None)
    ensures NodeOk(Claim(sel, n, res), y, m)
  {
  }

  /** What is left after unlinking from case i on. */
  lemma {:induction false} Unlinked(q: map<Qid, seq<Node>>, s: Sid, x: Sel, i: nat, y: Qid)
    requires i <= |x.cases| == |x.result| && y in q && Distinct(q[y])
    ensures var q' := Unlink(q, s, x, i);
      && q'.Keys == q.Keys && Distinct(q'[y])
      && forall n :: n in q'[y] <==>
           n in q[y] && !(n.Stub? && n.s == s && i <= n.i < |x.cases| && x.cases[n.i] == y && x.result[n.i] == None)
    decreases |x.cases| - i
  {
    if i < |x.cases| {
      var z := x.cases[i];
      var q1 := if x.result[i] == None && z in q then q[z := Without(q[z], Stub(s, i))] else q;
      WithoutDistinct(q[y], Stub(s, i));
      Unlinked(q1, s, x, i + 1, y);
    }
  }

  lemma {:induction false} UnlinkKeys(q: map<Qid, seq<Node>>, s: Sid, x: Sel, i: nat)
    requires i <= |x.cases| == |x.result|
    ensures Unlink(q, s, x, i).Keys == q.Keys
    decreases |x.cases| - i
  {
    if i < |x.cases| {
      var z := x.cases[i];
      UnlinkKeys(if x.result[i] == None && z in q then q[z := Without(q[z], Stub(s, i))] else q, s, x, i + 1);
    }
  }

  lemma ReturnKeepsInv(st: State, st': State, s: Sid)
    requires Inv(st) && Return(st, st', s)
    ensures Inv(st')
  {
    UnlinkKeys(st.q, s, st.sel[s], 0);
    forall y <- st'.q ensures QueueOk(st'.sel, y, st'.q[y]) {
      assert QueueOk(st.sel, y, st.q[y]);
      Unlinked(st.q, s, st.sel[s], 0, y);
      forall i | 0 <= i < |st'.q[y]| ensures NodeOk(st'.sel, y, st'.q[y][i]) {
        var n := st'.q[y][i];
        assert n in st'.q[y] && NodeOk(st.sel, y, n);
      }
    }
    forall u <- st'.sel ensures SelOk(st'.sel[u]) { assert SelOk(st.sel[u]); }
  }

  lemma NextKeepsInv(st: State, st': State)
    requires Inv(st) && Next(st, st')
    ensures Inv(st')
  {
    hide Inv, Park, Join, Leave, Wake, Return;
    if s: Sid, cases: seq<Qid> :| Park(st, st', s, cases) {
      ParkKeepsInv(st, st', s, cases);
    } else if x: Qid, id: nat :| Join(st, st', x, id) {
      JoinLeaveKeepsInv(st, st', x, id);
    } else if x: Qid, id: nat :| Leave(st, st', x, id) {
      JoinLeaveKeepsInv(st, st', x, id);
    } else if x: Qid, res: Option<Result> :| Wake(st, st', x, res) {
      WakeKeepsInv(st, st', x, res);
    } else {
      var s: Sid :| Return(st, st', s);
      ReturnKeepsInv(st, st', s);
    }
  }

  lemma {:induction false} RunInv(run: seq<State>, i: nat)
    requires Run(run) && i < |run|
    ensures Inv(run[i])
  {
    hide Next;
    if i > 0 {
      RunInv(run, i - 1);
      NextKeepsInv(run[i - 1], run[i]);
    }
  }

  // -------------------------------------------------------------- theorems

  /** At most one stub of a select call ever has its result set, on any channel. */
  lemma AtMostOneWinner(run: seq<State>, k: nat, s: Sid, i: nat, j: nat)
    requires Run(run) && k < |run| && s in run[k].sel && i < |run[k].sel[s].result| && j < |run[k].sel[s].result|
    requires run[k].sel[s].result[i].Some? && run[k].sel[s].result[j].Some?
    ensures i == j
  {
    hide Run;
    RunInv(run, k);
    assert SelOk(run[k].sel[s]);
  }

  /** A stub with a result is in no queue, and once its call has returned no stub of it is. */
  lemma SettledStubsGone(run: seq<State>, k: nat, s: Sid, i: nat, x: Qid)
    requires Run(run) && k < |run| && s in run[k].sel && x in run[k].q
    requires !run[k].sel[s].parked || (i < |run[k].sel[s].result| && run[k].sel[s].result[i].Some?)
    ensures Stub(s, i) !in run[k].q[x]
  {
    hide Run;
    RunInv(run, k);
    assert QueueOk(run[k].sel, x, run[k].q[x]);
  }

  /** A result, once set, is never changed, and the shared state stays claimed. */
  lemma ResultsAreFinal(st: State, st': State, s: Sid, i: nat)
    requires Inv(st) && Next(st, st') && s in st.sel && i < |st.sel[s].result| && st.sel[s].result[i].Some?
    ensures s in st'.sel && i < |st'.sel[s].result| && st'.sel[s].result[i] == st.sel[s].result[i] && st'.sel[s].claimed
  {
    assert SelOk(st.sel[s]);
    if x: Qid, res: Option<Result> :| Wake(st, st', x, res) {
      assert QueueOk(st.sel, x, st.q[x]);
    }
  }
}
