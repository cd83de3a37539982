/** The two judgments of `models/src/types.rs` against the variable occurrences of a term: a term is well scoped exactly when
    every bound variable anywhere in it points below the binders around it, and closed exactly when every free
    variable occurs inside a pattern. */
module Occurrences {
  import opened Orders
  import opened Ast
  import opened Scope

  /** The position of a subterm directly inside a term: under how many more binders, and whether as a pattern. */
  datatype Place = Place(binders: nat, pattern: bool)

  const HERE := Place(0, false)

  const PATTERN := Place(0, true)

  function Under(count: int): Place {
    Place(if count > 0 then count else 0, false)
  }

  ghost predicate InSend(s: Send, c: Par, at: Place) {
    at == HERE && (c == s.chan || c in s.data)
  }

  ghost predicate InBind(b: ReceiveBind, c: Par, at: Place) {
    (at == HERE && c == b.source) || (at == PATTERN && c in b.patterns)
  }

  ghost predicate InReceive(r: Receive, c: Par, at: Place) {
    (at == Under(r.bindCount) && c == r.body) || exists b :: b in r.binds && InBind(b, c, at)
  }

  ghost predicate InNew(n: New, c: Par, at: Place) {
    at == Under(n.bindCount) && c == n.p
  }

  ghost predicate InCase(m: MatchCase, c: Par, at: Place) {
    (at == PATTERN && c == m.pattern) || (at == Under(m.freeCount) && c == m.source)
  }

  ghost predicate InMatch(m: Match, c: Par, at: Place) {
    (at == HERE && c == m.target) || exists k :: k in m.cases && InCase(k, c, at)
  }

  predicate InEntry(kv: KeyValue, c: Par) { c == kv.key || c == kv.value }

  predicate InBundle(b: Bundle, c: Par) { c == b.body }

  ghost predicate InExpr(e: Expr, c: Par) {
    match e
    case ENot(p) => c == p
    case ENeg(p) => c == p
    case EBinary(_, p, q) => c == p || c == q
    case EList(ps, _, _) => c in ps
    case ETuple(ps, _) => c in ps
    case ESet(ps, _, _) => c in ps
    case EMap(kvs, _, _) => exists kv :: kv in kvs && InEntry(kv, c)
    case EMethod(_, t, args, _) => c == t || c in args
    case _ => false
  }

  ghost predicate InConnective(k: Connective, c: Par) {
    match k
    case ConnAnd(ps) => c in ps
    case ConnOr(ps) => c in ps
    case ConnNot(p) => c == p
    case _ => false
  }

  /** `c` stands directly inside `p`. */
  ghost predicate Inside(p: Par, c: Par, at: Place) {
    || (exists s :: s in p.sends && InSend(s, c, at))
    || (exists r :: r in p.receives && InReceive(r, c, at))
    || (exists n :: n in p.news && InNew(n, c, at))
    || (exists e :: e in p.exprs && at == HERE && InExpr(e, c))
    || (exists m :: m in p.matches && InMatch(m, c, at))
    || (exists b :: b in p.bundles && at == HERE && InBundle(b, c))
    || (exists k :: k in p.connectives && at == HERE && InConnective(k, c))
  }

  /** A variable as an expression, or as the remainder of a receive bind. */
  datatype Use = AsExpr | AsRemainder

  /** `v` stands directly at the top of `p`. */
  ghost predicate OnTop(p: Par, v: Var, use: Use) {
    match use
    case AsExpr => EVar(v) in p.exprs
    case AsRemainder => exists r, b :: r in p.receives && b in r.binds && b.remainder == Some(v)
  }

  /** `v` occurs in `p` under `binders` binders, inside a pattern or not. */
  ghost predicate Occurs(p: Par, v: Var, use: Use, binders: nat, pattern: bool)
    decreases p
  {
    || (binders == 0 && !pattern && OnTop(p, v, use))
    || exists c, at, k: nat, inner: bool ::
         Through(p, c, at, k, inner, binders, pattern) && (Smaller(p, c, at); Occurs(c, v, use, k, inner))
  }

  /** What lies `k` binders deep in `c` lies `binders` deep in `p`. */
  ghost predicate Through(p: Par, c: Par, at: Place, k: nat, inner: bool, binders: nat, pattern: bool) {
    Inside(p, c, at) && binders == at.binders + k && (pattern <==> at.pattern || inner)
  }

  lemma Smaller(p: Par, c: Par, at: Place)
    requires Inside(p, c, at)
    ensures p decreases to c
    ensures at.pattern ==> at.binders == 0
  {
  }

  // ----- one level

  predicate OfSource(j: Judgment) { j.ScopedAt? || j.ClosedIn? }

  /** What a judgment asks of a subterm. */
  function Asks(j: Judgment, at: Place): Judgment {
    if at.pattern then j.InPattern() else j.Under(at.binders)
  }

  /** What a judgment asks of a variable on top; only well-scopedness looks at the remainder of a bind. */
  predicate Admits(j: Judgment, v: Var, use: Use) {
    (use == AsRemainder && !j.ScopedAt?) || j.Var(v)
  }

  lemma SendAsks(j: Judgment, s: Send)
    requires OfSource(j)
    ensures OkSend(j, s) <==> forall c, at :: InSend(s, c, at) ==> OkPar(Asks(j, at), c)
  {
    hide OkPar, OkPars;
    assert Asks(j, HERE) == j;
    ParsAsk(j, s.data);
    hide Asks;
    if forall c, at :: InSend(s, c, at) ==> OkPar(Asks(j, at), c) {
      assert InSend(s, s.chan, HERE);
      forall c | c in s.data ensures OkPar(j, c) { assert InSend(s, c, HERE); }
    }
  }

  lemma SendsAsk(j: Judgment, ss: seq<Send>)
    requires OfSource(j)
    ensures OkSends(j, ss) <==> forall s, c, at :: s in ss && InSend(s, c, at) ==> OkPar(Asks(j, at), c)
  {
    hide OkPar;
    forall s | s in ss ensures OkSend(j, s) <==> forall c, at :: InSend(s, c, at) ==> OkPar(Asks(j, at), c) { SendAsks(j, s); }
    hide OkSend, InSend, Asks;
    if OkSends(j, ss) {
      forall s | s in ss ensures OkSend(j, s) { var i :| 0 <= i < |ss| && ss[i] == s; }
    }
  }

  lemma BindAsks(j: Judgment, b: ReceiveBind)
    requires OfSource(j)
    ensures OkReceiveBind(j, b) <==>
              && (forall c, at :: InBind(b, c, at) ==> OkPar(Asks(j, at), c))
              && (b.remainder.Some? ==> Admits(j, b.remainder.value, AsRemainder))
  {
    hide OkPar;
    assert Asks(j, HERE) == j && Asks(j, PATTERN) == j.InPattern();
    if forall c, at :: InBind(b, c, at) ==> OkPar(Asks(j, at), c) {
      assert InBind(b, b.source, HERE);
      forall k | 0 <= k < |b.patterns| ensures OkPar(j.InPattern(), b.patterns[k]) { assert InBind(b, b.patterns[k], PATTERN); }
    }
  }

  lemma UnderAsks(j: Judgment, count: int)
    requires OfSource(j)
    ensures Asks(j, Under(count)) == j.Under(count)
  {
  }

  lemma ReceivesAsk(j: Judgment, rs: seq<Receive>)
    requires OfSource(j)
    ensures OkReceives(j, rs) <==>
              && (forall r, c, at :: r in rs && InReceive(r, c, at) ==> OkPar(Asks(j, at), c))
              && (forall r, b :: r in rs && b in r.binds && b.remainder.Some? ==> Admits(j, b.remainder.value, AsRemainder))
  {
    hide OkPar, OkReceiveBind, InBind, Admits;
    forall r | r in rs
      ensures OkReceive(j, r) <==>
                && (forall c, at :: InReceive(r, c, at) ==> OkPar(Asks(j, at), c))
                && (forall b :: b in r.binds && b.remainder.Some? ==> Admits(j, b.remainder.value, AsRemainder))
    {
      ReceiveAsks(j, r);
    }
    hide OkReceive, InReceive;
    if OkReceives(j, rs) {
      forall r | r in rs ensures OkReceive(j, r) {
        var i :| 0 <= i < |rs| && rs[i] == r;
      }
    }
  }

  lemma BindsIn(j: Judgment, bs: seq<ReceiveBind>)
    ensures OkReceiveBinds(j, bs) <==> forall b :: b in bs ==> OkReceiveBind(j, b)
  {
    hide OkReceiveBind;
    forall b | OkReceiveBinds(j, bs) && b in bs ensures OkReceiveBind(j, b) { var i :| 0 <= i < |bs| && bs[i] == b; }
    if forall b :: b in bs ==> OkReceiveBind(j, b) {
      forall i | 0 <= i < |bs| ensures OkReceiveBind(j, bs[i]) { assert bs[i] in bs; }
    }
  }

  lemma ReceiveAsks(j: Judgment, r: Receive)
    requires OfSource(j)
    ensures OkReceive(j, r) <==>
              && (forall c, at :: InReceive(r, c, at) ==> OkPar(Asks(j, at), c))
              && (forall b :: b in r.binds && b.remainder.Some? ==> Admits(j, b.remainder.value, AsRemainder))
  {
    hide OkPar, OkReceiveBind, InBind, Admits;
    UnderAsks(j, r.bindCount);
    forall b | b in r.binds
      ensures OkReceiveBind(j, b) <==>
                && (forall c, at :: InBind(b, c, at) ==> OkPar(Asks(j, at), c))
                && (b.remainder.Some? ==> Admits(j, b.remainder.value, AsRemainder))
    {
      BindAsks(j, b);
    }
    hide Asks, Under, Judgment.Under;
    if forall c, at :: InReceive(r, c, at) ==> OkPar(Asks(j, at), c) {
      assert InReceive(r, r.body, Under(r.bindCount));
      forall b, c, at | b in r.binds && InBind(b, c, at) ensures OkPar(Asks(j, at), c) { assert InReceive(r, c, at); }
    }
    BindsIn(j, r.binds);
    hide OkReceiveBinds;
  }

  lemma NewsAsk(j: Judgment, ns: seq<New>)
    requires OfSource(j)
    ensures OkNews(j, ns) <==> forall n, c, at :: n in ns && InNew(n, c, at) ==> OkPar(Asks(j, at), c)
  {
    hide OkPar;
    forall n | n in ns ensures Asks(j, Under(n.bindCount)) == j.Under(n.bindCount) { UnderAsks(j, n.bindCount); }
    hide Asks, Under;
    if forall n, c, at :: n in ns && InNew(n, c, at) ==> OkPar(Asks(j, at), c) {
      forall i | 0 <= i < |ns| ensures OkNew(j, ns[i]) { assert InNew(ns[i], ns[i].p, Under(ns[i].bindCount)); }
    }
  }

  lemma MatchAsks(j: Judgment, m: Match)
    requires OfSource(j)
    ensures OkMatch(j, m) <==> forall c, at :: InMatch(m, c, at) ==> OkPar(Asks(j, at), c)
  {
    hide OkPar;
    assert Asks(j, HERE) == j && Asks(j, PATTERN) == j.InPattern();
    forall k | k in m.cases ensures Asks(j, Under(k.freeCount)) == j.Under(k.freeCount) { UnderAsks(j, k.freeCount); }
    hide Asks, Under, Judgment.Under, Judgment.InPattern;
    if forall c, at :: InMatch(m, c, at) ==> OkPar(Asks(j, at), c) {
      assert InMatch(m, m.target, HERE);
      forall i | 0 <= i < |m.cases| ensures OkMatchCase(j, m.cases[i]) {
        var k := m.cases[i];
        assert InCase(k, k.pattern, PATTERN) && InCase(k, k.source, Under(k.freeCount));
        assert InMatch(m, k.pattern, PATTERN) && InMatch(m, k.source, Under(k.freeCount));
      }
    }
    if OkMatch(j, m) {
      assert OkMatchCases(j, m.cases);
      forall c, at | InMatch(m, c, at) ensures OkPar(Asks(j, at), c) {
        if !(at == HERE && c == m.target) {
          var k :| k in m.cases && InCase(k, c, at);
          var i :| 0 <= i < |m.cases| && m.cases[i] == k;
        }
      }
    }
  }

  lemma MatchesAsk(j: Judgment, ms: seq<Match>)
    requires OfSource(j)
    ensures OkMatches(j, ms) <==> forall m, c, at :: m in ms && InMatch(m, c, at) ==> OkPar(Asks(j, at), c)
  {
    hide OkPar;
    forall m | m in ms ensures OkMatch(j, m) <==> forall c, at :: InMatch(m, c, at) ==> OkPar(Asks(j, at), c) {
      MatchAsks(j, m);
    }
    hide OkMatch, InMatch, Asks;
    if OkMatches(j, ms) {
      forall m | m in ms ensures OkMatch(j, m) { var i :| 0 <= i < |ms| && ms[i] == m; }
    }
  }

  lemma ParsAsk(j: Judgment, ps: seq<Par>)
    ensures OkPars(j, ps) <==> forall c :: c in ps ==> OkPar(j, c)
  {
    hide OkPar;
    forall c | OkPars(j, ps) && c in ps ensures OkPar(j, c) { var i :| 0 <= i < |ps| && ps[i] == c; }
    forall i | (forall c :: c in ps ==> OkPar(j, c)) && 0 <= i < |ps| ensures OkPar(j, ps[i]) { assert ps[i] in ps; }
  }

  lemma ExprAsks(j: Judgment, e: Expr)
    requires OfSource(j)
    ensures OkExpr(j, e) <==> (forall c :: InExpr(e, c) ==> OkPar(j, c)) && (e.EVar? ==> j.Var(e.v))
  {
    hide OkPar, OkPars, OkKeyValues;
    match e
    case EList(ps, _, _) => ParsAsk(j, ps);
    case ETuple(ps, _) => ParsAsk(j, ps);
    case ESet(ps, _, _) => ParsAsk(j, ps);
    case EMap(kvs, _, _) => EntriesAsk(j, kvs);
    case EMethod(_, t, args, _) =>
      ParsAsk(j, args);
      assert InExpr(e, t);
    case ENot(p) => assert InExpr(e, p);
    case ENeg(p) => assert InExpr(e, p);
    case EBinary(op, p, q) => assert InExpr(e, p) && InExpr(e, q);
    case _ =>
  }

  lemma EntriesAsk(j: Judgment, kvs: seq<KeyValue>)
    ensures OkKeyValues(j, kvs) <==> forall kv, c :: kv in kvs && InEntry(kv, c) ==> OkPar(j, c)
  {
    hide OkPar;
    forall kv | OkKeyValues(j, kvs) && kv in kvs ensures OkKeyValue(j, kv) { var i :| 0 <= i < |kvs| && kvs[i] == kv; }
    if forall kv, c :: kv in kvs && InEntry(kv, c) ==> OkPar(j, c) {
      forall i | 0 <= i < |kvs| ensures OkKeyValue(j, kvs[i]) {
        assert InEntry(kvs[i], kvs[i].key) && InEntry(kvs[i], kvs[i].value);
      }
    }
  }

  lemma ExprsAsk(j: Judgment, es: seq<Expr>)
    requires OfSource(j)
    ensures OkExprs(j, es) <==>
              (forall e, c :: e in es && InExpr(e, c) ==> OkPar(j, c)) && (forall v :: EVar(v) in es ==> j.Var(v))
  {
    hide OkPar, Judgment.Var;
    forall e | e in es ensures OkExpr(j, e) <==> (forall c :: InExpr(e, c) ==> OkPar(j, c)) && (e.EVar? ==> j.Var(e.v)) {
      ExprAsks(j, e);
    }
    hide OkExpr, InExpr;
    if OkExprs(j, es) {
      forall e | e in es ensures OkExpr(j, e) { var i :| 0 <= i < |es| && es[i] == e; }
      forall v | EVar(v) in es ensures j.Var(v) { assert OkExpr(j, EVar(v)); }
    }
    if (forall e, c :: e in es && InExpr(e, c) ==> OkPar(j, c)) && (forall v :: EVar(v) in es ==> j.Var(v)) {
      forall e | e in es ensures OkExpr(j, e) { if e.EVar? { assert e == EVar(e.v); } }
    }
  }

  lemma BundlesAsk(j: Judgment, bs: seq<Bundle>)
    ensures OkBundles(j, bs) <==> forall b, c :: b in bs && InBundle(b, c) ==> OkPar(j, c)
  {
    hide OkPar;
    forall b | OkBundles(j, bs) && b in bs ensures OkBundle(j, b) { var i :| 0 <= i < |bs| && bs[i] == b; }
    if forall b, c :: b in bs && InBundle(b, c) ==> OkPar(j, c) {
      forall i | 0 <= i < |bs| ensures OkBundle(j, bs[i]) { assert InBundle(bs[i], bs[i].body); }
    }
  }

  lemma ConnectivesAsk(j: Judgment, ks: seq<Connective>)
    requires OfSource(j)
    ensures OkConnectives(j, ks) <==> forall k, c :: k in ks && InConnective(k, c) ==> OkPar(j, c)
  {
    hide OkPar, OkPars;
    forall k | k in ks ensures OkConnective(j, k) <==> forall c :: InConnective(k, c) ==> OkPar(j, c) {
      if k.ConnAnd? || k.ConnOr? { ParsAsk(j, k.ps); } else if k.ConnNot? { assert InConnective(k, k.p); }
    }
    hide OkConnective, InConnective;
    if OkConnectives(j, ks) {
      forall k | k in ks ensures OkConnective(j, k) { var i :| 0 <= i < |ks| && ks[i] == k; }
    }
  }

  /** A term satisfies a judgment exactly when what stands on top is admitted and what stands directly inside satisfies
      what is asked there. */
  lemma OneLevel(j: Judgment, p: Par)
    requires OfSource(j)
    ensures OkPar(j, p) <==>
              && (forall v, use :: OnTop(p, v, use) ==> Admits(j, v, use))
              && (forall c, at :: Inside(p, c, at) ==> OkPar(Asks(j, at), c))
  {
    assert Asks(j, HERE) == j;
    SendsAsk(j, p.sends);
    ReceivesAsk(j, p.receives);
    NewsAsk(j, p.news);
    ExprsAsk(j, p.exprs);
    MatchesAsk(j, p.matches);
    BundlesAsk(j, p.bundles);
    ConnectivesAsk(j, p.connectives);
    assert OkPar(j, p) <==> OkSends(j, p.sends) && OkReceives(j, p.receives) && OkNews(j, p.news) && OkExprs(j, p.exprs)
                            && OkMatches(j, p.matches) && OkBundles(j, p.bundles) && OkConnectives(j, p.connectives);
    TopAdmitted(j, p);
    hide OkPar, OkSends, OkReceives, OkNews, OkExprs, OkMatches, OkBundles, OkConnectives, Asks, InSend, InReceive,
         InNew, InExpr, InMatch, InBundle, InConnective, OnTop, Admits, Judgment.Var;
    if forall c, at :: Inside(p, c, at) ==> OkPar(Asks(j, at), c) {
      forall s, c, at | s in p.sends && InSend(s, c, at) ensures OkPar(Asks(j, at), c) { assert Inside(p, c, at); }
      forall r, c, at | r in p.receives && InReceive(r, c, at) ensures OkPar(Asks(j, at), c) { assert Inside(p, c, at); }
      forall n, c, at | n in p.news && InNew(n, c, at) ensures OkPar(Asks(j, at), c) { assert Inside(p, c, at); }
      forall e, c | e in p.exprs && InExpr(e, c) ensures OkPar(j, c) { assert Inside(p, c, HERE); }
      forall m, c, at | m in p.matches && InMatch(m, c, at) ensures OkPar(Asks(j, at), c) { assert Inside(p, c, at); }
      forall b, c | b in p.bundles && InBundle(b, c) ensures OkPar(j, c) { assert Inside(p, c, HERE); }
      forall k, c | k in p.connectives && InConnective(k, c) ensures OkPar(j, c) { assert Inside(p, c, HERE); }
    }
  }

  lemma TopAdmitted(j: Judgment, p: Par)
    requires OfSource(j)
    ensures (forall v, use :: OnTop(p, v, use) ==> Admits(j, v, use)) <==>
              && (forall v :: EVar(v) in p.exprs ==> j.Var(v))
              && (forall r, b :: r in p.receives && b in r.binds && b.remainder.Some? ==> Admits(j, b.remainder.value, AsRemainder))
  {
    hide Judgment.Var;
    if forall v, use :: OnTop(p, v, use) ==> Admits(j, v, use) {
      forall v | EVar(v) in p.exprs ensures j.Var(v) { assert OnTop(p, v, AsExpr); }
      forall r, b | r in p.receives && b in r.binds && b.remainder.Some? ensures Admits(j, b.remainder.value, AsRemainder) {
        assert b.remainder == Some(b.remainder.value);
        assert OnTop(p, b.remainder.value, AsRemainder);
      }
    }
  }

  // ----- every occurrence

  /** What a judgment asks at an occurrence. */
  function Deep(j: Judgment, binders: nat, pattern: bool): Judgment {
    match j
    case ScopedAt(d) => ScopedAt(d + binders)
    case ClosedIn(pat) => ClosedIn(pat || pattern)
    case _ => j
  }

  /** A judgment of the source holds of a term exactly when it admits every occurrence. */
  lemma {:induction false} JudgedByOccurrences(j: Judgment, p: Par)
    requires OfSource(j)
    ensures OkPar(j, p) <==>
              forall v, use, b, pat :: Occurs(p, v, use, b, pat) ==> Admits(Deep(j, b, pat), v, use)
    decreases p
  {
    hide OkPar, Inside, OnTop, Admits;
    OneLevel(j, p);
    forall c, at | Inside(p, c, at)
      ensures OkPar(Asks(j, at), c) <==>
                forall v, use, b, pat :: Occurs(c, v, use, b, pat) ==> Admits(Deep(Asks(j, at), b, pat), v, use)
    {
      Smaller(p, c, at);
      JudgedByOccurrences(Asks(j, at), c);
    }
    if OkPar(j, p) {
      forall v, use, b: nat, pat | Occurs(p, v, use, b, pat) ensures Admits(Deep(j, b, pat), v, use) {
        if b == 0 && !pat && OnTop(p, v, use) {
          assert Deep(j, 0, false) == j;
        } else {
          var c, at, k: nat, inner: bool :| Through(p, c, at, k, inner, b, pat) && Occurs(c, v, use, k, inner);
          Smaller(p, c, at);
          DeepAsks(j, at, k, inner);
        }
      }
    }
    if forall v, use, b, pat :: Occurs(p, v, use, b, pat) ==> Admits(Deep(j, b, pat), v, use) {
      forall v, use | OnTop(p, v, use) ensures Admits(j, v, use) {
        assert Occurs(p, v, use, 0, false) && Deep(j, 0, false) == j;
      }
      forall c, at | Inside(p, c, at) ensures OkPar(Asks(j, at), c) {
        Smaller(p, c, at);
        forall v, use, k: nat, inner | Occurs(c, v, use, k, inner) ensures Admits(Deep(Asks(j, at), k, inner), v, use) {
          DeepAsks(j, at, k, inner);
          assert Through(p, c, at, k, inner, at.binders + k, at.pattern || inner);
          assert Occurs(p, v, use, at.binders + k, at.pattern || inner);
        }
      }
    }
  }

  lemma DeepAsks(j: Judgment, at: Place, k: nat, inner: bool)
    requires OfSource(j) && (at.pattern ==> at.binders == 0)
    ensures Deep(Asks(j, at), k, inner) == Deep(j, at.binders + k, at.pattern || inner)
  {
  }

  /** `well_scoped`: every bound variable points to one of the binders around it. */
  lemma WellScopedIff(depth: nat, p: Par)
    ensures WellScoped(depth, p) <==>
              forall v, use, b, pat :: Occurs(p, v, use, b, pat) && v.BoundVar? ==> 0 <= v.index < depth + b
  {
    hide OkPar, Occurs;
    JudgedByOccurrences(ScopedAt(depth), p);
  }

  /** `is_closed`: every free variable, remainders of binds aside, occurs inside a pattern. */
  lemma ClosedIff(p: Par)
    ensures IsClosed(p) <==> forall v, b, pat :: Occurs(p, v, AsExpr, b, pat) && v.FreeVar? ==> pat
  {
    hide OkPar, Occurs;
    JudgedByOccurrences(ClosedIn(false), p);
  }
}
