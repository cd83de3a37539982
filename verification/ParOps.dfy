/** Builders over `Par` (`models/src/par_ops.rs`) that keep `connective_used`
    up to date. */
module ParOps {
  import opened Orders
  import opened Ast

  function ConnectiveUsedOfVar(v: Var): bool {
    v.FreeVar? || v.Wildcard?
  }

  function ConnectiveUsedOfExpr(e: Expr): bool {
    match e
    case EVar(v) => ConnectiveUsedOfVar(v)
    case ENot(p) => p.connectiveUsed
    case ENeg(p) => p.connectiveUsed
    case EBinary(op, p, q) => p.connectiveUsed || (op != Matches && q.connectiveUsed)
    case EList(_, _, cu) => cu
    case ETuple(_, cu) => cu
    case ESet(_, _, cu) => cu
    case EMap(_, _, cu) => cu
    case EMethod(_, _, _, cu) => cu
    case _ => false
  }

  function ConnectiveUsedOfConnective(c: Connective): bool {
    !c.VarRef? && !c.EmptyConnective?
  }

  /** `p ++ that`: the argument's fields come first. */
  function ParConcat(p: Par, that: Par): Par {
    ParMerge(that, p)
  }

  function PrependSend(p: Par, s: Send): Par {
    p.(sends := [s] + p.sends, connectiveUsed := p.connectiveUsed || s.connectiveUsed)
  }

  function PrependReceive(p: Par, r: Receive): Par {
    p.(receives := [r] + p.receives, connectiveUsed := p.connectiveUsed || r.connectiveUsed)
  }

  function PrependNew(p: Par, n: New): Par {
    p.(news := [n] + p.news, connectiveUsed := p.connectiveUsed || n.p.connectiveUsed)
  }

  function PrependExpr(p: Par, e: Expr): Par {
    p.(exprs := [e] + p.exprs, connectiveUsed := p.connectiveUsed || ConnectiveUsedOfExpr(e))
  }

  function PrependMatch(p: Par, m: Match): Par {
    p.(matches := [m] + p.matches, connectiveUsed := p.connectiveUsed || m.connectiveUsed)
  }

  /** A bundle does not pass on its body's `connective_used`. */
  function PrependBundle(p: Par, b: Bundle): Par {
    p.(bundles := [b] + p.bundles)
  }

  function PrependConnective(p: Par, c: Connective): Par {
    p.(connectives := [c] + p.connectives, connectiveUsed := p.connectiveUsed || ConnectiveUsedOfConnective(c))
  }

  function WithConnectiveUsed(p: Par): Par {
    p.(connectiveUsed := true)
  }

  function FromExpr(e: Expr): Par {
    PrependExpr(Nil, e)
  }

  predicate IsNil(p: Par) {
    p.(connectiveUsed := false) == Nil
  }

  function SingleBundle(p: Par): Option<Bundle> {
    if |p.bundles| == 1 && IsNil(p.(bundles := [])) then Some(p.bundles[0]) else None
  }

  function SingleConnective(p: Par): Option<Connective> {
    if |p.connectives| == 1 && IsNil(p.(connectives := [])) then Some(p.connectives[0]) else None
  }

  predicate AnyConnectiveUsed(ps: seq<Par>) {
    exists i :: 0 <= i < |ps| && ps[i].connectiveUsed
  }
}
