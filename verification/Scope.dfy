/** The two term judgments of `models/src/types.rs`: `is_closed` (no free variable
    outside pattern position) and `well_scoped` (every bound index below the
    number of enclosing binders). Both walk the term in the same way and differ
    only in what they carry down and what they ask of a variable, so one family of
    predicates over a `Judgment` states them both, together with three judgments
    of this model: which levels the term's own free variables reach, whether
    the operands whose free maps the normalizer discards are closed, and whether
    the free counts of receive binds count what their patterns bind. */
module Scope {
  import opened Orders
  import opened Ast

  datatype Judgment =
    | ScopedAt(depth: nat)
    | ClosedIn(pattern: bool)
    /** The term's own free variables, outside inner patterns and discarded operands, have lower levels. */
    | Below(level: int)
    /** In evaluation position the discarded operands are closed: those of negation and disjunction,
        and the pattern of `matches`. */
    | ClosedOperands
    /** There are no maps, and every bind's free count is the number of levels its patterns reach. */
    | Counted
  {

    /** What a subterm under `count` more binders must satisfy. */
    function Under(count: int): Judgment {
      if ScopedAt? && count > 0 then ScopedAt(depth + count) else this
    }

    /** What a receive or match pattern must satisfy. */
    function InPattern(): Judgment {
      if ScopedAt? || Counted? then this else ClosedIn(true)
    }

    /** What an operand whose free map the normalizer discards must satisfy. */
    function Operand(): Judgment {
      if Below? then ClosedIn(true) else if ClosedOperands? then ClosedIn(false) else this
    }

    predicate Var(v: Var) {
      match this
      case ScopedAt(d) => v.BoundVar? ==> 0 <= v.index < d
      case ClosedIn(pat) => v.FreeVar? ==> pat
      case Below(n) => v.FreeVar? ==> 0 <= v.level < n
      case ClosedOperands => true
      case Counted => true
    }

    /** Of the source's judgments only well-scopedness looks at the remainder of a receive bind. */
    predicate BindRemainder(r: Option<Var>) {
      && (ScopedAt? && r.Some? ==> Var(r.value))
      && (Counted? ==> r != Some(EmptyVar))
    }

    /** The source's judgments do not look at the remainder of a collection. */
    predicate Rest(r: Option<Var>) {
      Below? && r.Some? ==> Var(r.value)
    }

    /** Whatever satisfies this judgment satisfies `other`. */
    predicate Implies(other: Judgment) {
      match (this, other)
      case (ScopedAt(d), ScopedAt(e)) => d <= e
      case (ClosedIn(a), ClosedIn(b)) => a ==> b
      case (Below(m), Below(n)) => m <= n
      case _ => this == other
    }
  }

  predicate OkPar(j: Judgment, p: Par)
    decreases p
  {
    && OkSends(j, p.sends)
    && OkReceives(j, p.receives)
    && OkNews(j, p.news)
    && OkExprs(j, p.exprs)
    && OkMatches(j, p.matches)
    && OkBundles(j, p.bundles)
    && OkConnectives(j, p.connectives)
  }

  /** `is_closed`. */
  predicate IsClosed(p: Par) {
    OkPar(ClosedIn(false), p)
  }

  /** `well_scoped` under a context of `depth` binders. */
  predicate WellScoped(depth: nat, p: Par) {
    OkPar(ScopedAt(depth), p)
  }

  predicate OkSend(j: Judgment, s: Send)
    decreases s
  {
    OkPar(j, s.chan) && OkPars(j, s.data)
  }

  predicate OkReceiveBind(j: Judgment, b: ReceiveBind)
    decreases b
  {
    && OkPars(j.InPattern(), b.patterns) && OkPar(j, b.source) && j.BindRemainder(b.remainder)
    && (j.Counted? ==> Counts(b.freeCount, b.patterns, b.remainder))
  }

  predicate AllBelow(n: int, ps: seq<Par>, r: Option<Var>)
    decreases ps, 1
  {
    OkPars(Below(n), ps) && Below(n).Rest(r)
  }

  /** The patterns and the remainder of a bind reach the levels below `n`, and no fewer. */
  predicate Counts(n: int, ps: seq<Par>, r: Option<Var>)
    decreases ps, 2
  {
    n >= 0 && AllBelow(n, ps, r) && (n > 0 ==> !AllBelow(n - 1, ps, r))
  }

  predicate OkReceive(j: Judgment, r: Receive)
    decreases r
  {
    OkReceiveBinds(j, r.binds) && OkPar(j.Under(r.bindCount), r.body)
  }

  predicate OkNew(j: Judgment, n: New)
    decreases n
  {
    OkPar(j.Under(n.bindCount), n.p) && (j.Counted? ==> OkInjections(j, n.injections))
  }

  predicate OkInjection(j: Judgment, n: Injection)
    decreases n
  {
    OkPar(j, n.value)
  }

  predicate OkMatchCase(j: Judgment, c: MatchCase)
    decreases c
  {
    OkPar(j.InPattern(), c.pattern) && OkPar(j.Under(c.freeCount), c.source)
  }

  predicate OkMatch(j: Judgment, m: Match)
    decreases m
  {
    OkPar(j, m.target) && OkMatchCases(j, m.cases)
  }

  predicate OkBundle(j: Judgment, b: Bundle)
    decreases b
  {
    OkPar(j, b.body)
  }

  predicate OkKeyValue(j: Judgment, kv: KeyValue)
    decreases kv
  {
    OkPar(j, kv.key) && OkPar(j, kv.value)
  }

  predicate OkExpr(j: Judgment, e: Expr)
    decreases e
  {
    match e
    case EVar(v) => j.Var(v)
    case ENot(p) => OkPar(j, p)
    case ENeg(p) => OkPar(j, p)
    case EBinary(op, p, q) => OkPar(j, p) && OkPar(if op == Matches then j.Operand() else j, q)
    case EList(ps, r, _) => OkPars(j, ps) && j.Rest(r)
    case ETuple(ps, _) => OkPars(j, ps)
    case ESet(ps, r, _) => OkPars(j, ps) && j.Rest(r)
    case EMap(kvs, r, _) => !j.Counted? && OkKeyValues(j, kvs) && j.Rest(r)
    case EMethod(_, t, args, _) => OkPar(j, t) && OkPars(j, args)
    case _ => true
  }

  predicate OkConnective(j: Judgment, c: Connective)
    decreases c
  {
    match c
    case ConnAnd(ps) => OkPars(j, ps)
    case ConnOr(ps) => OkPars(j.Operand(), ps)
    case ConnNot(p) => OkPar(j.Operand(), p)
    case _ => true
  }

  // ----- lists of terms

  predicate OkPars(j: Judgment, ps: seq<Par>)
    decreases ps, 0
  {
    forall i | 0 <= i < |ps| :: OkPar(j, ps[i])
  }

  predicate OkSends(j: Judgment, ss: seq<Send>)
    decreases ss
  {
    forall i | 0 <= i < |ss| :: OkSend(j, ss[i])
  }

  predicate OkReceiveBinds(j: Judgment, bs: seq<ReceiveBind>)
    decreases bs
  {
    forall i | 0 <= i < |bs| :: OkReceiveBind(j, bs[i])
  }

  predicate OkReceives(j: Judgment, rs: seq<Receive>)
    decreases rs
  {
    forall i | 0 <= i < |rs| :: OkReceive(j, rs[i])
  }

  predicate OkInjections(j: Judgment, ns: seq<Injection>)
    decreases ns
  {
    forall i | 0 <= i < |ns| :: OkInjection(j, ns[i])
  }

  predicate OkNews(j: Judgment, ns: seq<New>)
    decreases ns
  {
    forall i | 0 <= i < |ns| :: OkNew(j, ns[i])
  }

  predicate OkExprs(j: Judgment, es: seq<Expr>)
    decreases es
  {
    forall i | 0 <= i < |es| :: OkExpr(j, es[i])
  }

  predicate OkMatchCases(j: Judgment, cs: seq<MatchCase>)
    decreases cs
  {
    forall i | 0 <= i < |cs| :: OkMatchCase(j, cs[i])
  }

  predicate OkMatches(j: Judgment, ms: seq<Match>)
    decreases ms
  {
    forall i | 0 <= i < |ms| :: OkMatch(j, ms[i])
  }

  predicate OkBundles(j: Judgment, bs: seq<Bundle>)
    decreases bs
  {
    forall i | 0 <= i < |bs| :: OkBundle(j, bs[i])
  }

  predicate OkKeyValues(j: Judgment, kvs: seq<KeyValue>)
    decreases kvs
  {
    forall i | 0 <= i < |kvs| :: OkKeyValue(j, kvs[i])
  }

  predicate OkConnectives(j: Judgment, cs: seq<Connective>)
    decreases cs
  {
    forall i | 0 <= i < |cs| :: OkConnective(j, cs[i])
  }
}
