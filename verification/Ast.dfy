/** The rholang term structure (`models/src/ast.rs`). `locally_free` is absent:
    the source wraps it in `AlwaysEqual`, so it takes no part in equality, and no
    function modelled here reads it. The nineteen binary operators share one
    constructor. A `BTreeMap` of injections is its entries in key order. */
module Ast {
  import opened Orders

  datatype Var = BoundVar(index: int) | FreeVar(level: int) | Wildcard | EmptyVar

  datatype Par = Par(
    sends: seq<Send>,
    receives: seq<Receive>,
    news: seq<New>,
    exprs: seq<Expr>,
    matches: seq<Match>,
    unforgeables: seq<GUnforgeable>,
    bundles: seq<Bundle>,
    connectives: seq<Connective>,
    connectiveUsed: bool)

  const Nil: Par := Par([], [], [], [], [], [], [], [], false)

  datatype Send = Send(chan: Par, data: seq<Par>, persistent: bool, connectiveUsed: bool)

  datatype ReceiveBind = ReceiveBind(patterns: seq<Par>, source: Par, remainder: Option<Var>, freeCount: int)

  datatype Receive = Receive(
    binds: seq<ReceiveBind>, body: Par, persistent: bool, peek: bool, bindCount: int, connectiveUsed: bool)

  datatype Injection = Injection(key: string, value: Par)

  datatype New = New(bindCount: int, p: Par, uri: seq<string>, injections: seq<Injection>)

  datatype MatchCase = MatchCase(pattern: Par, source: Par, freeCount: int)

  datatype Match = Match(target: Par, cases: seq<MatchCase>, connectiveUsed: bool)

  datatype Bundle = Bundle(body: Par, writeFlag: bool, readFlag: bool)

  datatype BinaryOp =
    | Mult | Div | Mod | Plus | Minus | Lt | Lte | Gt | Gte | Eq | Neq | And | Or
    | ShortAnd | ShortOr | Matches | PercentPercent | PlusPlus | MinusMinus

  datatype KeyValue = KeyValue(key: Par, value: Par)

  datatype Expr =
    | GBool(b: bool)
    | GInt(i: int)
    | GBigInt(n: int)
    | GString(s: string)
    | GUri(uri: string)
    | GByteArray(bytes: seq<byte>)
    | ENot(p: Par)
    | ENeg(p: Par)
    | EVar(v: Var)
    | EBinary(op: BinaryOp, left: Par, right: Par)
    | EList(ps: seq<Par>, remainder: Option<Var>, connectiveUsed: bool)
    | ETuple(ps: seq<Par>, connectiveUsed: bool)
    | ESet(ps: seq<Par>, remainder: Option<Var>, connectiveUsed: bool)
    | EMap(kvs: seq<KeyValue>, remainder: Option<Var>, connectiveUsed: bool)
    | EMethod(name: string, target: Par, arguments: seq<Par>, connectiveUsed: bool)

  datatype GUnforgeable =
    | GPrivate(id: seq<byte>)
    | GDeployId(sig: seq<byte>)
    | GDeployerId(publicKey: seq<byte>)
    | GSysAuthToken
    | EmptyUnforgeable

  datatype Connective =
    | ConnAnd(ps: seq<Par>)
    | ConnOr(ps: seq<Par>)
    | ConnNot(p: Par)
    | VarRef(index: int, depth: int)
    | ConnBool(b: bool)
    | ConnInt(b: bool)
    | ConnBigInt(b: bool)
    | ConnString(b: bool)
    | ConnUri(b: bool)
    | ConnByteArray(b: bool)
    | EmptyConnective

  /** The `|` operator: field-wise list append. */
  function ParMerge(p: Par, q: Par): Par {
    Par(p.sends + q.sends, p.receives + q.receives, p.news + q.news, p.exprs + q.exprs,
        p.matches + q.matches, p.unforgeables + q.unforgeables, p.bundles + q.bundles,
        p.connectives + q.connectives, p.connectiveUsed || q.connectiveUsed)
  }

  /** `Bundle::merge`: the inner body under the conjunction of the flags. */
  function MergeBundles(outer: Bundle, inner: Bundle): Bundle {
    Bundle(inner.body, outer.writeFlag && inner.writeFlag, outer.readFlag && inner.readFlag)
  }
}
