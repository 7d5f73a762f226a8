/** Sequences as queues and histories. */
module Seqs {
  ghost predicate Distinct<T>(s: seq<T>) { forall i, j :: 0 <= i < j < |s| ==> s[i] != s[j] }

  ghost predicate Ascending(s: seq<nat>) { forall i, j :: 0 <= i < j < |s| ==> s[i] < s[j] }

  function Last<T>(s: seq<T>): T
    requires |s| > 0
  {
    s[|s| - 1]
  }

  /** Every occurrence of x removed. */
  function Without<T(==,!new)>(s: seq<T>, x: T): (r: seq<T>)
    ensures forall y :: y in r <==> y in s && y != x
  {
    if s == [] then [] else if s[0] == x then Without(s[1..], x) else [s[0]] + Without(s[1..], x)
  }

  lemma {:induction false} WithoutDistinct<T(!new)>(s: seq<T>, x: T)
    requires Distinct(s)
    ensures Distinct(Without(s, x))
  {
    if s != [] {
      assert Distinct(s[1..]) && s[0] !in s[1..];
      WithoutDistinct(s[1..], x);
    }
  }

  /** u stands before w. */
  ghost predicate Ahead<T>(q: seq<T>, u: T, w: T) { exists i, j :: 0 <= i < j < |q| && q[i] == u && q[j] == w }

  /** How a queue of waiters moves: not at all, one more at the end, one less anywhere, or one less in front. */
  ghost predicate Queues<T(!new)>(q: seq<T>, q': seq<T>, t: T) {
    q' == q || q' == q + [t] || q' == Without(q, t) || (q != [] && q' == q[1..]) || q' == []
  }

  lemma {:induction false} WithoutAhead<T(!new)>(q: seq<T>, x: T, u: T, w: T)
    requires Ahead(q, u, w) && u != x && w != x
    ensures Ahead(Without(q, x), u, w)
  {
    var i, j :| 0 <= i < j < |q| && q[i] == u && q[j] == w;
    var rest := Without(q[1..], x);
    if i == 0 {
      assert q[1..][j - 1] == w && w in rest;
      var k :| 0 <= k < |rest| && rest[k] == w;
      assert Without(q, x)[0] == u && Without(q, x)[k + 1] == w;
    } else {
      assert q[1..][i - 1] == u && q[1..][j - 1] == w;
      WithoutAhead(q[1..], x, u, w);
      var a, b :| 0 <= a < b < |rest| && rest[a] == u && rest[b] == w;
      var d := if q[0] == x then 0 else 1;
      assert Without(q, x)[a + d] == u && Without(q, x)[b + d] == w;
    }
  }

  /** Nobody overtakes: those who stay keep their order, and a newcomer stands behind them. */
  lemma NobodyOvertakes<T(!new)>(q: seq<T>, q': seq<T>, t: T, u: T, w: T)
    requires Queues(q, q', t) && Distinct(q) && u in q && u in q' && w in q'
    ensures Ahead(q, u, w) ==> Ahead(q', u, w)
    ensures w !in q ==> Ahead(q', u, w)
  {
    if Ahead(q, u, w) {
      var i, j :| 0 <= i < j < |q| && q[i] == u && q[j] == w;
      if q' == q + [t] {
        assert q'[i] == u && q'[j] == w;
      } else if q' == Without(q, t) {
        WithoutAhead(q, t, u, w);
      } else if q' == q[1..] {
        var k :| 0 <= k < |q'| && q'[k] == u;
        assert q[k + 1] == u && i > 0;
        assert q'[i - 1] == u && q'[j - 1] == w;
      }
    }
    if w !in q {
      assert q' == q + [t] && w == t;
      var i :| 0 <= i < |q| && q[i] == u;
      assert q'[i] == u && q'[|q|] == w;
    }
  }
}
