/** What the builders of `models/src/par_ops.rs` keep: the flag of a term says whether one of its parts uses a
    connective, and the parts come back out. */
module ParLaws {
  import opened Orders
  import opened Ast
  import opened ParOps

  /** Some part of `p`, bundles aside, uses a connective. */
  ghost predicate UsesConnective(p: Par) {
    || (exists s :: s in p.sends && s.connectiveUsed)
    || (exists r :: r in p.receives && r.connectiveUsed)
    || (exists n :: n in p.news && n.p.connectiveUsed)
    || (exists e :: e in p.exprs && ConnectiveUsedOfExpr(e))
    || (exists m :: m in p.matches && m.connectiveUsed)
    || (exists c :: c in p.connectives && ConnectiveUsedOfConnective(c))
  }

  ghost predicate Honest(p: Par) {
    p.connectiveUsed <==> UsesConnective(p)
  }

  lemma NothingHonest()
    ensures Honest(Nil)
  {
  }

  lemma SendHonest(p: Par, s: Send)
    requires Honest(p)
    ensures Honest(PrependSend(p, s))
  {
    var q := PrependSend(p, s);
    assert q.sends[0] == s;
    assert forall i :: 0 <= i < |p.sends| ==> q.sends[i + 1] == p.sends[i];
  }

  lemma ReceiveHonest(p: Par, r: Receive)
    requires Honest(p)
    ensures Honest(PrependReceive(p, r))
  {
    var q := PrependReceive(p, r);
    assert q.receives[0] == r;
    assert forall i :: 0 <= i < |p.receives| ==> q.receives[i + 1] == p.receives[i];
  }

  lemma NewHonest(p: Par, n: New)
    requires Honest(p)
    ensures Honest(PrependNew(p, n))
  {
    var q := PrependNew(p, n);
    assert q.news[0] == n;
    assert forall i :: 0 <= i < |p.news| ==> q.news[i + 1] == p.news[i];
  }

  lemma ExprHonest(p: Par, e: Expr)
    requires Honest(p)
    ensures Honest(PrependExpr(p, e))
  {
    var q := PrependExpr(p, e);
    assert q.exprs[0] == e;
    assert forall i :: 0 <= i < |p.exprs| ==> q.exprs[i + 1] == p.exprs[i];
  }

  lemma MatchHonest(p: Par, m: Match)
    requires Honest(p)
    ensures Honest(PrependMatch(p, m))
  {
    var q := PrependMatch(p, m);
    assert q.matches[0] == m;
    assert forall i :: 0 <= i < |p.matches| ==> q.matches[i + 1] == p.matches[i];
  }

  lemma ConnectiveHonest(p: Par, c: Connective)
    requires Honest(p)
    ensures Honest(PrependConnective(p, c))
  {
    var q := PrependConnective(p, c);
    assert q.connectives[0] == c;
    assert forall i :: 0 <= i < |p.connectives| ==> q.connectives[i + 1] == p.connectives[i];
  }

  /** Every builder keeps the flag honest; a bundle does not count. */
  lemma BuildersHonest(p: Par, q: Par, s: Send, r: Receive, n: New, e: Expr, m: Match, b: Bundle, c: Connective)
    requires Honest(p) && Honest(q)
    ensures Honest(PrependSend(p, s)) && Honest(PrependReceive(p, r)) && Honest(PrependNew(p, n)) && Honest(PrependExpr(p, e))
    ensures Honest(PrependMatch(p, m)) && Honest(PrependBundle(p, b)) && Honest(PrependConnective(p, c))
    ensures Honest(Nil) && Honest(ParConcat(p, q))
  {
    SendHonest(p, s);
    ReceiveHonest(p, r);
    NewHonest(p, n);
    ExprHonest(p, e);
    MatchHonest(p, m);
    ConnectiveHonest(p, c);
    NothingHonest();
    ConcatHonest(p, q);
  }

  lemma ConcatHonest(p: Par, q: Par)
    requires Honest(p) && Honest(q)
    ensures Honest(ParConcat(p, q))
  {
  }

  /** A term is one bundle, or one connective, exactly when it was built as that. */
  lemma SingleIff(p: Par, b: Bundle, c: Connective)
    ensures SingleBundle(p) == Some(b) <==> p.(connectiveUsed := false) == PrependBundle(Nil, b)
    ensures SingleConnective(p) == Some(c) <==> p.(connectiveUsed := false) == PrependConnective(Nil, c).(connectiveUsed := false)
  {
    if p.(connectiveUsed := false) == PrependBundle(Nil, b) { assert p.bundles == [b]; }
    if p.(connectiveUsed := false) == PrependConnective(Nil, c).(connectiveUsed := false) { assert p.connectives == [c]; }
    if SingleBundle(p) == Some(b) { assert p.bundles == [b]; }
    if SingleConnective(p) == Some(c) { assert p.connectives == [c]; }
  }
}
