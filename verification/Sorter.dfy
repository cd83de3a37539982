/** The canonicalizing sorter (`models/src/sorter.rs`): each matcher returns the
    rebuilt term together with its score, and `SortPar` sorts the eight list
    fields of a `Par` by the scores of their elements. */
module Sorter {
  import opened Orders
  import opened ScoreTree
  import opened StableSort
  import opened Ast

  const ABSENT := 0
  const BOOL := 1
  const INT := 2
  const STRING := 3
  const URI := 4
  const PRIVATE := 5
  const ELIST := 6
  const ETUPLE := 7
  const ESET := 8
  const EMAP := 9
  const DEPLOYER_AUTH := 10
  const DEPLOY_ID := 11
  const SYS_AUTH_TOKEN := 12
  const BIG_INT := 13
  const BOUND_VAR := 50
  const FREE_VAR := 51
  const WILDCARD := 52
  const EVAR := 100
  const ENEG := 101
  const ENOT := 112
  const EMETHOD := 115
  const EBYTEARR := 116
  const SEND := 300
  const RECEIVE := 301
  const NEW := 303
  const MATCH := 304
  const BUNDLE_EQUIV := 305
  const BUNDLE_READ := 306
  const BUNDLE_WRITE := 307
  const BUNDLE_READ_WRITE := 308
  const CONNECTIVE_NOT := 400
  const CONNECTIVE_AND := 401
  const CONNECTIVE_OR := 402
  const CONNECTIVE_VARREF := 403
  const CONNECTIVE_BOOL := 404
  const CONNECTIVE_INT := 405
  const CONNECTIVE_STRING := 406
  const CONNECTIVE_URI := 407
  const CONNECTIVE_BYTEARRAY := 408
  const CONNECTIVE_BIG_INT := 409
  const PAR := 999

  function OpScore(op: BinaryOp): int {
    match op
    case Mult => 102
    case Div => 103
    case Plus => 104
    case Minus => 105
    case Lt => 106
    case Lte => 107
    case Gt => 108
    case Gte => 109
    case Eq => 110
    case Neq => 111
    case And => 113
    case Or => 114
    case Matches => 118
    case PercentPercent => 119
    case PlusPlus => 120
    case MinusMinus => 121
    case Mod => 122
    case ShortAnd => 123
    case ShortOr => 124
  }

  function Int(v: int): Tree { Leaf(IntAtom(v)) }
  function Str(s: string): Tree { Leaf(StrAtom(s)) }
  function Flag(b: bool): Tree { Int(if b then 1 else 0) }
  function NodeScore(tag: int, children: seq<Tree>): Tree { Node([Int(tag)] + children) }

  /** The successive `extend`s of a child list. */
  function Flatten(xss: seq<seq<Tree>>): seq<Tree> {
    if xss == [] then [] else xss[0] + Flatten(xss[1..])
  }

  function ScoreVar(v: Var): Tree {
    match v
    case BoundVar(l) => NodeScore(BOUND_VAR, [Int(l)])
    case FreeVar(l) => NodeScore(FREE_VAR, [Int(l)])
    case Wildcard => NodeScore(WILDCARD, [])
    case EmptyVar => Int(ABSENT)
  }

  /** Remainder of a list, set or map: absence is -1. */
  function RemainderScore(r: Option<Var>): Tree {
    if r.Some? then ScoreVar(r.value) else Int(-1)
  }

  /** Remainder of a receive bind: absence is 0, the score of the empty variable. */
  function BindRemainderScore(r: Option<Var>): Tree {
    if r.Some? then ScoreVar(r.value) else Int(ABSENT)
  }

  function ScoreUris(uris: seq<string>): (r: seq<Scored<string>>)
    ensures |r| == |uris| && forall i :: 0 <= i < |uris| ==> r[i] == Scored(uris[i], Str(uris[i]))
  {
    seq(|uris|, i requires 0 <= i < |uris| => Scored(uris[i], Str(uris[i])))
  }

  function OrAbsent(scores: seq<Tree>): seq<Tree> {
    if scores == [] then [Int(ABSENT)] else scores
  }

  function SortSend(s: Send): Scored<Send>
    decreases s
  {
    var chan := SortPar(s.chan);
    var data := SortPars(s.data);
    Scored(
      Send(chan.term, Terms(data), s.persistent, s.connectiveUsed),
      NodeScore(SEND, [Flag(s.persistent), chan.score] + Scores(data) + [Flag(s.connectiveUsed)]))
  }

  function SortReceiveBind(b: ReceiveBind): Scored<ReceiveBind>
    decreases b
  {
    var patterns := SortPars(b.patterns);
    var source := SortPar(b.source);
    Scored(
      ReceiveBind(Terms(patterns), source.term, b.remainder, b.freeCount),
      Node([source.score] + Scores(patterns) + [BindRemainderScore(b.remainder)]))
  }

  function SortReceive(r: Receive): Scored<Receive>
    decreases r
  {
    var binds := SortReceiveBinds(r.binds);
    var body := SortPar(r.body);
    Scored(
      Receive(Terms(binds), body.term, r.persistent, r.peek, r.bindCount, r.connectiveUsed),
      NodeScore(RECEIVE, [Flag(r.persistent), Flag(r.peek)] + Scores(binds)
                         + [body.score, Int(r.bindCount), Flag(r.connectiveUsed)]))
  }

  function SortInjection(n: Injection): Scored<Injection>
    decreases n
  {
    var value := SortPar(n.value);
    Scored(Injection(n.key, value.term), Node([Str(n.key), value.score]))
  }

  function SortNew(n: New): Scored<New>
    decreases n
  {
    var body := SortPar(n.p);
    var uris := Sort(ScoreUris(n.uri));
    var injections := SortInjections(n.injections);
    Scored(
      New(n.bindCount, body.term, Terms(uris), Terms(injections)),
      NodeScore(NEW, [Int(n.bindCount)] + OrAbsent(Scores(uris)) + OrAbsent(Scores(injections)) + [body.score]))
  }

  function SortMatchCase(c: MatchCase): Scored<MatchCase>
    decreases c
  {
    var pattern := SortPar(c.pattern);
    var source := SortPar(c.source);
    Scored(
      MatchCase(pattern.term, source.term, c.freeCount),
      Node([pattern.score, source.score, Int(c.freeCount)]))
  }

  function SortMatch(m: Match): Scored<Match>
    decreases m
  {
    var target := SortPar(m.target);
    var cases := SortMatchCases(m.cases);
    Scored(
      Match(target.term, Terms(cases), m.connectiveUsed),
      NodeScore(MATCH, [target.score] + Scores(cases) + [Flag(m.connectiveUsed)]))
  }

  function BundleTag(b: Bundle): int {
    if b.writeFlag && b.readFlag then BUNDLE_READ_WRITE
    else if b.writeFlag then BUNDLE_WRITE
    else if b.readFlag then BUNDLE_READ
    else BUNDLE_EQUIV
  }

  function SortBundle(b: Bundle): Scored<Bundle>
    decreases b
  {
    var body := SortPar(b.body);
    Scored(b.(body := body.term), NodeScore(BundleTag(b), [body.score]))
  }

  function SortConnective(c: Connective): Scored<Connective>
    decreases c
  {
    match c
    case ConnAnd(ps) => var s := SortPars(ps); Scored(ConnAnd(Terms(s)), NodeScore(CONNECTIVE_AND, Scores(s)))
    case ConnOr(ps) => var s := SortPars(ps); Scored(ConnOr(Terms(s)), NodeScore(CONNECTIVE_OR, Scores(s)))
    case ConnNot(p) => var s := SortPar(p); Scored(ConnNot(s.term), NodeScore(CONNECTIVE_NOT, [s.score]))
    case VarRef(i, d) => Scored(c, NodeScore(CONNECTIVE_VARREF, [Int(i), Int(d)]))
    case ConnBool(b) => Scored(c, NodeScore(CONNECTIVE_BOOL, [Flag(b)]))
    case ConnInt(b) => Scored(c, NodeScore(CONNECTIVE_INT, [Flag(b)]))
    case ConnBigInt(b) => Scored(c, NodeScore(CONNECTIVE_BIG_INT, [Flag(b)]))
    case ConnString(b) => Scored(c, NodeScore(CONNECTIVE_STRING, [Flag(b)]))
    case ConnUri(b) => Scored(c, NodeScore(CONNECTIVE_URI, [Flag(b)]))
    case ConnByteArray(b) => Scored(c, NodeScore(CONNECTIVE_BYTEARRAY, [Flag(b)]))
    case EmptyConnective => Scored(c, Int(ABSENT))
  }

  function SortUnforgeable(u: GUnforgeable): Scored<GUnforgeable> {
    match u
    case GPrivate(id) => Scored(u, NodeScore(PRIVATE, [Leaf(BytesAtom(id))]))
    case GDeployerId(pk) => Scored(u, NodeScore(DEPLOYER_AUTH, [Leaf(BytesAtom(pk))]))
    case GDeployId(sig) => Scored(u, NodeScore(DEPLOY_ID, [Leaf(BytesAtom(sig))]))
    case GSysAuthToken => Scored(u, NodeScore(SYS_AUTH_TOKEN, []))
    case EmptyUnforgeable => Scored(u, NodeScore(ABSENT, []))
  }

  /** A map entry is scored by its key alone. */
  function SortKeyValue(kv: KeyValue): Scored<KeyValue>
    decreases kv
  {
    var key := SortPar(kv.key);
    Scored(KeyValue(key.term, SortPar(kv.value).term), key.score)
  }

  function SortExpr(e: Expr): Scored<Expr>
    decreases e
  {
    match e
    case GBool(b) => Scored(e, NodeScore(BOOL, [Int(if b then 0 else 1)]))
    case GInt(i) => Scored(e, NodeScore(INT, [Int(i)]))
    case GBigInt(n) => Scored(e, NodeScore(BIG_INT, [Leaf(BigIntAtom(n))]))
    case GString(s) => Scored(e, NodeScore(STRING, [Str(s)]))
    case GUri(u) => Scored(e, NodeScore(URI, [Str(u)]))
    case GByteArray(bs) => Scored(e, NodeScore(EBYTEARR, [Leaf(BytesAtom(bs))]))
    case ENot(p) => var s := SortPar(p); Scored(ENot(s.term), NodeScore(ENOT, [s.score]))
    case ENeg(p) => var s := SortPar(p); Scored(ENeg(s.term), NodeScore(ENEG, [s.score]))
    case EVar(v) => Scored(e, NodeScore(EVAR, [ScoreVar(v)]))
    case EBinary(op, p, q) =>
      var s := SortPar(p);
      var t := SortPar(q);
      Scored(EBinary(op, s.term, t.term), NodeScore(OpScore(op), [s.score, t.score]))
    case EList(ps, r, cu) =>
      var s := SortPars(ps);
      Scored(EList(Terms(s), r, cu), NodeScore(ELIST, [RemainderScore(r)] + Scores(s) + [Flag(cu)]))
    case ETuple(ps, cu) =>
      var s := SortPars(ps);
      Scored(ETuple(Terms(s), cu), NodeScore(ETUPLE, Scores(s) + [Flag(cu)]))
    case ESet(ps, r, cu) =>
      var s := SortPars(ps);
      Scored(ESet(Terms(s), r, cu), NodeScore(ESET, [RemainderScore(r)] + Scores(s) + [Flag(cu)]))
    case EMap(kvs, r, cu) =>
      var s := SortKeyValues(kvs);
      Scored(EMap(Terms(s), r, cu), NodeScore(EMAP, [RemainderScore(r)] + Scores(s) + [Flag(cu)]))
    case EMethod(name, target, args, cu) =>
      var t := SortPar(target);
      var s := SortPars(args);
      Scored(EMethod(name, t.term, Terms(s), cu), NodeScore(EMETHOD, [Str(name), t.score] + Scores(s) + [Flag(cu)]))
  }

  function SortPar(p: Par): Scored<Par>
    decreases p
  {
    var sends := Sort(SortSends(p.sends));
    var receives := Sort(SortReceives(p.receives));
    var exprs := Sort(SortExprs(p.exprs));
    var news := Sort(SortNews(p.news));
    var matches := Sort(SortMatches(p.matches));
    var bundles := Sort(SortBundles(p.bundles));
    var connectives := Sort(SortConnectives(p.connectives));
    var unforgeables := Sort(SortUnforgeables(p.unforgeables));
    Scored(
      Par(Terms(sends), Terms(receives), Terms(news), Terms(exprs), Terms(matches), Terms(unforgeables),
          Terms(bundles), Terms(connectives), p.connectiveUsed),
      NodeScore(PAR, Flatten([Scores(sends), Scores(receives), Scores(exprs), Scores(news), Scores(matches),
                              Scores(bundles), Scores(connectives), Scores(unforgeables)])
                     + [Flag(p.connectiveUsed)]))
  }

  // ----- the matchers mapped over lists

  function SortPars(ps: seq<Par>): (r: seq<Scored<Par>>)
    ensures |r| == |ps| && forall i :: 0 <= i < |ps| ==> r[i] == SortPar(ps[i])
    decreases ps
  {
    if ps == [] then [] else [SortPar(ps[0])] + SortPars(ps[1..])
  }

  function SortSends(ss: seq<Send>): (r: seq<Scored<Send>>)
    ensures |r| == |ss| && forall i :: 0 <= i < |ss| ==> r[i] == SortSend(ss[i])
    decreases ss
  {
    if ss == [] then [] else [SortSend(ss[0])] + SortSends(ss[1..])
  }

  function SortReceiveBinds(bs: seq<ReceiveBind>): (r: seq<Scored<ReceiveBind>>)
    ensures |r| == |bs| && forall i :: 0 <= i < |bs| ==> r[i] == SortReceiveBind(bs[i])
    decreases bs
  {
    if bs == [] then [] else [SortReceiveBind(bs[0])] + SortReceiveBinds(bs[1..])
  }

  function SortReceives(rs: seq<Receive>): (r: seq<Scored<Receive>>)
    ensures |r| == |rs| && forall i :: 0 <= i < |rs| ==> r[i] == SortReceive(rs[i])
    decreases rs
  {
    if rs == [] then [] else [SortReceive(rs[0])] + SortReceives(rs[1..])
  }

  function SortInjections(ns: seq<Injection>): (r: seq<Scored<Injection>>)
    ensures |r| == |ns| && forall i :: 0 <= i < |ns| ==> r[i] == SortInjection(ns[i])
    decreases ns
  {
    if ns == [] then [] else [SortInjection(ns[0])] + SortInjections(ns[1..])
  }

  function SortNews(ns: seq<New>): (r: seq<Scored<New>>)
    ensures |r| == |ns| && forall i :: 0 <= i < |ns| ==> r[i] == SortNew(ns[i])
    decreases ns
  {
    if ns == [] then [] else [SortNew(ns[0])] + SortNews(ns[1..])
  }

  function SortMatchCases(cs: seq<MatchCase>): (r: seq<Scored<MatchCase>>)
    ensures |r| == |cs| && forall i :: 0 <= i < |cs| ==> r[i] == SortMatchCase(cs[i])
    decreases cs
  {
    if cs == [] then [] else [SortMatchCase(cs[0])] + SortMatchCases(cs[1..])
  }

  function SortMatches(ms: seq<Match>): (r: seq<Scored<Match>>)
    ensures |r| == |ms| && forall i :: 0 <= i < |ms| ==> r[i] == SortMatch(ms[i])
    decreases ms
  {
    if ms == [] then [] else [SortMatch(ms[0])] + SortMatches(ms[1..])
  }

  function SortBundles(bs: seq<Bundle>): (r: seq<Scored<Bundle>>)
    ensures |r| == |bs| && forall i :: 0 <= i < |bs| ==> r[i] == SortBundle(bs[i])
    decreases bs
  {
    if bs == [] then [] else [SortBundle(bs[0])] + SortBundles(bs[1..])
  }

  function SortConnectives(cs: seq<Connective>): (r: seq<Scored<Connective>>)
    ensures |r| == |cs| && forall i :: 0 <= i < |cs| ==> r[i] == SortConnective(cs[i])
    decreases cs
  {
    if cs == [] then [] else [SortConnective(cs[0])] + SortConnectives(cs[1..])
  }

  function SortUnforgeables(us: seq<GUnforgeable>): (r: seq<Scored<GUnforgeable>>)
    ensures |r| == |us| && forall i :: 0 <= i < |us| ==> r[i] == SortUnforgeable(us[i])
  {
    seq(|us|, i requires 0 <= i < |us| => SortUnforgeable(us[i]))
  }

  function SortKeyValues(kvs: seq<KeyValue>): (r: seq<Scored<KeyValue>>)
    ensures |r| == |kvs| && forall i :: 0 <= i < |kvs| ==> r[i] == SortKeyValue(kvs[i])
    decreases kvs
  {
    if kvs == [] then [] else [SortKeyValue(kvs[0])] + SortKeyValues(kvs[1..])
  }

  function SortExprs(es: seq<Expr>): (r: seq<Scored<Expr>>)
    ensures |r| == |es| && forall i :: 0 <= i < |es| ==> r[i] == SortExpr(es[i])
    decreases es
  {
    if es == [] then [] else [SortExpr(es[0])] + SortExprs(es[1..])
  }

  /** Bind/tag pairs sorted by the bind's score, tags carried along (`sort_receive_binds_with`). */
  function SortBindsWith<T>(binds: seq<(ReceiveBind, T)>): seq<(ReceiveBind, T)> {
    Terms(Sort(ScoreBindsWith(binds)))
  }

  function ScoreBindsWith<T>(binds: seq<(ReceiveBind, T)>): (r: seq<Scored<(ReceiveBind, T)>>)
    ensures |r| == |binds|
    ensures forall i :: 0 <= i < |binds| ==>
              r[i] == Scored((SortReceiveBind(binds[i].0).term, binds[i].1), SortReceiveBind(binds[i].0).score)
  {
    if binds == [] then []
    else
      var b := SortReceiveBind(binds[0].0);
      [Scored((b.term, binds[0].1), b.score)] + ScoreBindsWith(binds[1..])
  }
}
