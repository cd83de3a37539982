/** What a nameless term says, by the names of the source. `Reads(p, ns, left, par)`: under the names in scope,
    `par` is the term `left` with the process `p` put on top. A bound variable stands for the name bound last at its
    position, a free variable for the name of its level, and each is used as what it was bound as, a process or a name.
    No context, free map or counter of the normalizer occurs here.

    The surface forms that stand for others (synchronous sends, joins from complex sources, concurrent `let`)
    read as the forms they stand for. */
module Reading {
  import opened Orders
  import opened ScoreTree
  import opened Ast
  import opened ParOps
  import opened Sorter
  import opened ProcAst
  import opened Desugar

  datatype Bound = Bound(x: Ident, sort: VarSort)

  type Scope = s: seq<seq<Bound>> | |s| >= 1 witness [[]]

  /** The names bound in each nested pattern scope, innermost scope first and in binding order, the free names by level, and
      the injections of the program. */
  datatype Names = Names(chain: Scope, free: seq<Bound>, env: seq<Injection>) {
    function Under(xs: seq<Bound>): Names {
      Names([chain[0] + xs] + chain[1..], free, env)
    }

    /** A pattern has a scope of its own, in which all its names are free. */
    function InPattern(xs: seq<Bound>): Names {
      Names([[]] + chain, xs, env)
    }

    function Freely(xs: seq<Bound>): Names {
      Names(chain, xs, env)
    }
  }

  // ----- variables

  ghost predicate IsBound(names: seq<Bound>, x: Ident) {
    exists i :: 0 <= i < |names| && names[i].x == x
  }

  /** The last binding of `x` is at `i`, and binds it as `sort`. */
  predicate LastBound(names: seq<Bound>, x: Ident, sort: VarSort, i: int) {
    0 <= i < |names| && names[i] == Bound(x, sort) && forall k :: i < k < |names| ==> names[k].x != x
  }

  ghost predicate ReadsVar(x: Ident, sort: VarSort, ns: Names, v: Var) {
    if IsBound(ns.chain[0], x) then v.BoundVar? && LastBound(ns.chain[0], x, sort, |ns.chain[0]| - 1 - v.index)
    else v.FreeVar? && 0 <= v.level < |ns.free| && ns.free[v.level] == Bound(x, sort)
  }

  /** A reference out of a pattern: the innermost scope that binds the name. */
  ghost predicate ReadsRef(kind: VarRefKind, x: Ident, chain: seq<seq<Bound>>, c: Connective) {
    && c.VarRef? && 0 <= c.depth < |chain|
    && (forall k :: 0 <= k < c.depth ==> !IsBound(chain[k], x))
    && LastBound(chain[c.depth], x, if kind == VarRefKindProc then ProcSort else NameSort, |chain[c.depth]| - 1 - c.index)
  }

  predicate ReadsRemainder(r: Remainder, free: seq<Bound>, v: Option<Var>) {
    match r
    case RemainderEmpty => v == None
    case RemainderVar(ProcVarWildcard) => v == Some(Wildcard)
    case RemainderVar(ProcVarVar(x)) =>
      v.Some? && v.value.FreeVar? && 0 <= v.value.level < |free| && free[v.value.level] == Bound(x, ProcSort)
  }

  // ----- literals

  predicate IsDigits(s: string) {
    s != "" && forall i :: 0 <= i < |s| ==> '0' <= s[i] <= '9'
  }

  /** The number that decimal digits denote. */
  function Decimal(s: string): int {
    if s == "" then 0 else 10 * Decimal(s[..|s| - 1]) + (s[|s| - 1] as int - '0' as int)
  }

  /** Decimal digits after an optional sign. */
  predicate Denotes(s: string, n: int) {
    if s != "" && s[0] == '-' then IsDigits(s[1..]) && n == -Decimal(s[1..])
    else if s != "" && s[0] == '+' then IsDigits(s[1..]) && n == Decimal(s[1..])
    else IsDigits(s) && n == Decimal(s)
  }

  /** The text between the two delimiters. */
  predicate Unquoted(raw: string, s: string) {
    if |raw| < 2 then s == "" else raw == [raw[0]] + s + [raw[|raw| - 1]]
  }

  predicate ReadsGround(g: Ground, e: Expr) {
    match g
    case GroundBool(b) => e == GBool(b)
    case GroundInt(s) => e.GInt? && Denotes(s, e.i)
    case GroundBigInt(s) => e.GBigInt? && Denotes(s, e.n)
    case GroundString(s) => e.GString? && Unquoted(s, e.s)
    case GroundUri(s) => e.GUri? && Unquoted(s, e.uri)
  }

  predicate ReadsType(t: SimpleType, c: Connective) {
    match t
    case SimpleTypeBool => c == ConnBool(true)
    case SimpleTypeInt => c == ConnInt(true)
    case SimpleTypeBigInt => c == ConnBigInt(true)
    case SimpleTypeString => c == ConnString(true)
    case SimpleTypeUri => c == ConnUri(true)
    case SimpleTypeByteArray => c == ConnByteArray(true)
  }

  // ----- one component more

  predicate MoreSend(left: Par, par: Par) { par.sends != [] && par == PrependSend(left, par.sends[0]) }
  predicate MoreReceive(left: Par, par: Par) { par.receives != [] && par == PrependReceive(left, par.receives[0]) }
  predicate MoreNew(left: Par, par: Par) { par.news != [] && par == PrependNew(left, par.news[0]) }
  predicate MoreExpr(left: Par, par: Par) { par.exprs != [] && par == PrependExpr(left, par.exprs[0]) }
  predicate MoreMatch(left: Par, par: Par) { par.matches != [] && par == PrependMatch(left, par.matches[0]) }
  predicate MoreBundle(left: Par, par: Par) { par.bundles != [] && par == PrependBundle(left, par.bundles[0]) }
  predicate MoreConnective(left: Par, par: Par) { par.connectives != [] && par == PrependConnective(left, par.connectives[0]) }

  /** Declarations without a uri come first, the others by the text of their uri. */
  ghost predicate DeclBefore(a: NameDecl, b: NameDecl) {
    && b.NameDeclUrn?
    && (a.NameDeclSimpl? || exists s, t :: Unquoted(a.uri, s) && Unquoted(b.uri, t) && LexBelow(s, t, CharCode))
  }

  /** `order` puts the declarations in this order, and leaves those it does not separate as they were. */
  ghost predicate DeclOrder(names: seq<NameDecl>, order: seq<nat>, ds: seq<NameDecl>) {
    && Permutes(order, |names|) && |ds| == |names|
    && (forall i :: 0 <= i < |ds| ==> ds[i] == names[order[i]])
    && (forall i, j :: 0 <= i < j < |ds| ==> DeclBefore(ds[i], ds[j]) || (order[i] < order[j] && !DeclBefore(ds[j], ds[i])))
  }

  function DeclaredNames(ds: seq<NameDecl>): seq<Bound> {
    seq(|ds|, i requires 0 <= i < |ds| => Bound(ds[i].x, NameSort))
  }

  /** The uris of the last declarations, in their order. */
  predicate ReadsUris(ds: seq<NameDecl>, uris: seq<string>) {
    && |uris| <= |ds|
    && (forall i :: 0 <= i < |ds| ==> (ds[i].NameDeclUrn? <==> i >= |ds| - |uris|))
    && (forall i :: 0 <= i < |uris| && ds[|ds| - |uris| + i].NameDeclUrn? ==> Unquoted(ds[|ds| - |uris| + i].uri, uris[i]))
  }

  predicate Permutes(order: seq<nat>, n: nat) {
    && |order| == n
    && (forall i :: 0 <= i < n ==> order[i] < n)
    && (forall i, j :: 0 <= i < j < n ==> order[i] != order[j])
  }

  function Concat(xss: seq<seq<Bound>>): seq<Bound> {
    if xss == [] then [] else xss[0] + Concat(xss[1..])
  }

  // ----- names and processes

  ghost predicate ReadsName(n: Name, ns: Names, q: Par)
    decreases WName(n), 0
  {
    match n
    case NameWildcard => q == FromExpr(EVar(Wildcard))
    case NameVar(x) => q.exprs != [] && q == FromExpr(q.exprs[0]) && q.exprs[0].EVar? && ReadsVar(x, NameSort, ns, q.exprs[0].v)
    case NameQuote(p) => Reads(p, ns, Nil, q)
  }

  ghost predicate Reads(p: Proc, ns: Names, left: Par, par: Par)
    decreases WProc(p), 9
  {
    if IsOperator(p) then ReadsOperator(p, ns, left, par)
    else if IsForm(p) then ReadsForm(p, ns, left, par)
    else if IsSugar(p) then ReadsSugar(p, ns, left, par)
    else
      match p
      case PGround(g) => MoreExpr(left, par) && ReadsGround(g, par.exprs[0])
      case PNil => par == left
      case PExprs(q) => Reads(q, ns, left, par)
      case PVar(v) =>
        && MoreExpr(left, par) && par.exprs[0].EVar?
        && (if v.ProcVarVar? then ReadsVar(v.x, ProcSort, ns, par.exprs[0].v) else par.exprs[0].v == Wildcard)
      case PVarRef(kind, x) => MoreConnective(left, par) && ReadsRef(kind, x, ns.chain, par.connectives[0])
      case PSimpleType(t) => MoreConnective(left, par) && ReadsType(t, par.connectives[0])
      case PEval(n) => ReadsEval(n, ns, left, par)
      case PPar(l, r) => ReadsPPar(l, r, ns, left, par)
      case PSend(n, multiple, data) => ReadsSend(n, multiple, data, ns, left, par)
      case PCollect(c) => MoreExpr(left, par) && ReadsCollection(c, ns, par.exprs[0])
  }

  ghost predicate ReadsOperator(p: Proc, ns: Names, left: Par, par: Par)
    requires IsOperator(p)
    decreases WProc(p), 8
  {
    match p
    case PNot(q) => ReadsNot(q, ns, left, par)
    case PNeg(q) => ReadsNeg(q, ns, left, par)
    case PBinary(op, l, r) => ReadsBinary(op, l, r, ns, left, par)
    case PMatches(l, r) => ReadsMatches(l, r, ns, left, par)
    case PNegation(q) => ReadsNegation(q, ns, left, par)
    case PConjunction(l, r) => ReadsConjunction(l, r, ns, left, par)
    case PDisjunction(l, r) => ReadsDisjunction(l, r, ns, left, par)
    case PMethod(target, name, args) => ReadsMethod(target, name, args, ns, left, par)
  }

  ghost predicate ReadsForm(p: Proc, ns: Names, left: Par, par: Par)
    requires IsForm(p)
    decreases WProc(p), 8
  {
    if p.PIf? then ReadsIf(p.cond, p.body, PNil, ns, left, par)
    else if p.PIfElse? then ReadsIf(p.cond, p.body, p.otherwise, ns, left, par)
    else ReadsBinder(p, ns, left, par)
  }

  ghost predicate ReadsBinder(p: Proc, ns: Names, left: Par, par: Par)
    requires IsForm(p) && !p.PIf? && !p.PIfElse?
    decreases WProc(p), 7
  {
    match p
    case PNew(names, body) => ReadsNew(names, body, ns, left, par)
    case PBundle(kind, body) => ReadsBundle(kind, body, ns, left, par)
    case PMatch(target, cases) => ReadsMatch(target, cases, ns, left, par)
    case PContr(n, formals, remainder, body) => ReadsContr(n, formals, remainder, body, ns, left, par)
  }

  ghost predicate ReadsSugar(p: Proc, ns: Names, left: Par, par: Par)
    requires IsSugar(p)
    decreases WProc(p), 7
  {
    match p
    case PSendSynch(n, data, cont) => ReadsSendSynch(n, data, cont, ns, left, par)
    case PInput(receipts, body) => ReadsInput(receipts, body, ns, left, par)
    case PLet(d, ds, body) => ReadsLet(d, ds, body, ns, left, par)
    case PChoice(branches) => ReadsChoice(branches, ns, left, par)
  }

  ghost predicate ReadsEval(n: Name, ns: Names, left: Par, par: Par)
    decreases WName(n), 1
  {
    exists q :: ReadsName(n, ns, q) && par == ParConcat(left, q)
  }

  /** The right side stands on top of the left. */
  ghost predicate ReadsPPar(l: Proc, r: Proc, ns: Names, left: Par, par: Par)
    decreases 1 + WProc(l) + WProc(r), 0
  {
    exists mid :: Reads(l, ns, left, mid) && Reads(r, ns, mid, par)
  }

  ghost predicate ReadsNot(p: Proc, ns: Names, left: Par, par: Par)
    decreases 1 + WProc(p), 0
  {
    MoreExpr(left, par) && par.exprs[0].ENot? && Reads(p, ns, Nil, par.exprs[0].p)
  }

  ghost predicate ReadsNeg(p: Proc, ns: Names, left: Par, par: Par)
    decreases 1 + WProc(p), 0
  {
    MoreExpr(left, par) && par.exprs[0].ENeg? && Reads(p, ns, Nil, par.exprs[0].p)
  }

  /** The operand of a negation has free names of its own. */
  ghost predicate ReadsNegation(p: Proc, ns: Names, left: Par, par: Par)
    decreases 1 + WProc(p), 0
  {
    && MoreConnective(left, par) && par.connectives[0].ConnNot?
    && exists fs :: Reads(p, ns.Freely(fs), Nil, par.connectives[0].p)
  }

  ghost predicate ReadsSendSynch(n: Name, data: seq<Proc>, cont: SynchSendCont, ns: Names, left: Par, par: Par)
    decreases WProc(PSendSynch(n, data, cont)), 0
  {
    exists k: nat :: (SendSynchWeight(n, data, cont, Fresh(k)); Reads(DesugarSendSynch(n, data, cont, Fresh(k)), ns, left, par))
  }

  /** A choice reads as its branches side by side. */
  ghost predicate ReadsChoice(branches: seq<Branch>, ns: Names, left: Par, par: Par)
    decreases 2 + WBranches(branches), 0
  {
    ChoiceWeight(branches);
    Reads(DesugarChoice(branches), ns, left, par)
  }

  ghost predicate ReadsProcs(ps: seq<Proc>, ns: Names, pars: seq<Par>)
    decreases WProcs(ps), 0
  {
    if ps == [] then pars == []
    else pars != [] && Reads(ps[0], ns, Nil, pars[0]) && ReadsProcs(ps[1..], ns, pars[1..])
  }

  ghost predicate ReadsNames(xs: seq<Name>, ns: Names, pars: seq<Par>)
    decreases WNames(xs), 0
  {
    if xs == [] then pars == []
    else pars != [] && ReadsName(xs[0], ns, pars[0]) && ReadsNames(xs[1..], ns, pars[1..])
  }

  /** The channel is the channel, and the data stand in their order. */
  ghost predicate ReadsSend(n: Name, multiple: bool, data: seq<Proc>, ns: Names, left: Par, par: Par)
    decreases 1 + WName(n) + WProcs(data), 0
  {
    && MoreSend(left, par)
    && var s := par.sends[0];
       && ReadsName(n, ns, s.chan) && ReadsProcs(data, ns, s.data)
       && s.persistent == multiple && s.connectiveUsed == (s.chan.connectiveUsed || AnyConnectiveUsed(s.data))
  }

  ghost predicate ReadsBinary(op: SourceOp, l: Proc, r: Proc, ns: Names, left: Par, par: Par)
    decreases 1 + WProc(l) + WProc(r), 0
  {
    && MoreExpr(left, par) && par.exprs[0].EBinary? && par.exprs[0].op == op
    && Reads(l, ns, Nil, par.exprs[0].left) && Reads(r, ns, Nil, par.exprs[0].right)
  }

  /** The right side of `matches` is a pattern. */
  ghost predicate ReadsMatches(l: Proc, r: Proc, ns: Names, left: Par, par: Par)
    decreases 1 + WProc(l) + WProc(r), 0
  {
    && MoreExpr(left, par) && par.exprs[0].EBinary? && par.exprs[0].op == Matches
    && Reads(l, ns, Nil, par.exprs[0].left)
    && exists fs :: Reads(r, ns.InPattern(fs), Nil, par.exprs[0].right)
  }

  /** The first parts of a conjunction: a left side that is itself one conjunction is spliced in. */
  predicate AndParts(a: Par, ps: seq<Par>) {
    ps == if SingleConnective(a).Some? && SingleConnective(a).value.ConnAnd? then SingleConnective(a).value.ps else [a]
  }

  predicate OrParts(a: Par, ps: seq<Par>) {
    ps == if SingleConnective(a).Some? && SingleConnective(a).value.ConnOr? then SingleConnective(a).value.ps else [a]
  }

  ghost predicate ReadsConjunction(l: Proc, r: Proc, ns: Names, left: Par, par: Par)
    decreases 1 + WProc(l) + WProc(r), 0
  {
    && MoreConnective(left, par) && par.connectives[0].ConnAnd? && par.connectives[0].ps != []
    && var ps := par.connectives[0].ps;
       var first, last := ps[..|ps| - 1], ps[|ps| - 1];
       && Reads(r, ns, Nil, last)
       && exists a :: Reads(l, ns, Nil, a) && AndParts(a, first)
  }

  ghost predicate ReadsDisjunction(l: Proc, r: Proc, ns: Names, left: Par, par: Par)
    decreases 1 + WProc(l) + WProc(r), 0
  {
    && MoreConnective(left, par) && par.connectives[0].ConnOr? && par.connectives[0].ps != []
    && var ps := par.connectives[0].ps;
       var first, last := ps[..|ps| - 1], ps[|ps| - 1];
       && (exists fs :: Reads(r, ns.Freely(fs), Nil, last))
       && exists a, fs :: Reads(l, ns.Freely(fs), Nil, a) && OrParts(a, first)
  }

  ghost predicate ReadsMethod(target: Proc, name: string, args: seq<Proc>, ns: Names, left: Par, par: Par)
    decreases 1 + WProc(target) + WProcs(args), 0
  {
    && MoreExpr(left, par) && par.exprs[0].EMethod?
    && var e := par.exprs[0];
       && e.name == name && Reads(target, ns, Nil, e.target) && ReadsProcs(args, ns, e.arguments)
       && e.connectiveUsed == (e.target.connectiveUsed || AnyConnectiveUsed(e.arguments))
  }

  /** The body lies under the declared names, those with a uri last. */
  ghost predicate ReadsNew(names: seq<NameDecl>, body: Proc, ns: Names, left: Par, par: Par)
    decreases 1 + WProc(body), 0
  {
    && MoreNew(left, par)
    && var n := par.news[0];
       && n.bindCount == |names| && n.injections == ns.env
       && exists ds, order: seq<nat> ::
            DeclOrder(names, order, ds) && ReadsUris(ds, n.uri) && Reads(body, ns.Under(DeclaredNames(ds)), Nil, n.p)
  }

  predicate MayWrite(kind: BundleKind) { kind == BundleWrite || kind == BundleReadWrite }

  predicate MayRead(kind: BundleKind) { kind == BundleRead || kind == BundleReadWrite }

  /** A bundle around one bundle keeps the capabilities that both allow. */
  ghost predicate ReadsBundle(kind: BundleKind, body: Proc, ns: Names, left: Par, par: Par)
    decreases 1 + WProc(body), 0
  {
    && MoreBundle(left, par)
    && exists inner :: Reads(body, ns, Nil, inner)
         && par.bundles[0] == match SingleBundle(inner)
                              case Some(b) => Bundle(b.body, MayWrite(kind) && b.writeFlag, MayRead(kind) && b.readFlag)
                              case None => Bundle(inner, MayWrite(kind), MayRead(kind))
  }

  /** A conditional matches on its condition, put on top of what stands to its left: `true` takes the body, `false` the
      alternative. */
  ghost predicate ReadsIf(cond: Proc, body: Proc, otherwise: Proc, ns: Names, left: Par, par: Par)
    decreases WProc(cond) + WProc(body) + WProc(otherwise) + 1, 0
  {
    && MoreMatch(left, par)
    && var m := par.matches[0];
       && |m.cases| == 2
       && m.cases[0].pattern == FromExpr(GBool(true)) && m.cases[0].freeCount == 0
       && m.cases[1].pattern == FromExpr(GBool(false)) && m.cases[1].freeCount == 0
       && Reads(cond, ns, left, m.target)
       && Reads(body, ns, Nil, m.cases[0].source)
       && Reads(otherwise, ns, Nil, m.cases[1].source)
       && m.connectiveUsed == (m.target.connectiveUsed || m.cases[0].source.connectiveUsed || m.cases[1].source.connectiveUsed)
  }

  ghost predicate ReadsMatch(target: Proc, cases: seq<Case>, ns: Names, left: Par, par: Par)
    decreases 1 + WProc(target) + WCases(cases), 0
  {
    && MoreMatch(left, par)
    && var m := par.matches[0];
       && Reads(target, ns, Nil, m.target) && ReadsCases(cases, ns, m.cases)
       && m.connectiveUsed == (m.target.connectiveUsed || exists i :: 0 <= i < |m.cases| && m.cases[i].source.connectiveUsed)
  }

  /** Each body lies under the names its own pattern binds. */
  ghost predicate ReadsCases(cases: seq<Case>, ns: Names, cs: seq<MatchCase>)
    decreases WCases(cases), 0
  {
    if cases == [] then cs == []
    else
      assert WCases(cases) == WCase(cases[0]) + WCases(cases[1..]);
      && cs != []
      && (exists fs :: Reads(cases[0].pattern, ns.InPattern(fs), Nil, cs[0].pattern)
                    && cs[0].freeCount == |fs| && Reads(cases[0].body, ns.Under(fs), Nil, cs[0].source))
      && ReadsCases(cases[1..], ns, cs[1..])
  }

  /** What a receive or contract binds: its patterns and remainder name `fs`. */
  ghost predicate ReadsPatterns(names: seq<Name>, remainder: Remainder, fs: seq<Bound>, ns: Names, b: ReceiveBind)
    decreases WNames(names), 1
  {
    && ReadsNames(names, ns.InPattern(fs), b.patterns) && ReadsRemainder(remainder, fs, b.remainder)
    && b.freeCount == |fs|
  }

  ghost predicate ReadsContr(n: Name, formals: seq<Name>, remainder: Remainder, body: Proc, ns: Names, left: Par, par: Par)
    decreases WName(n) + WNames(formals) + WProc(body) + 1, 0
  {
    && MoreReceive(left, par)
    && var rc := par.receives[0];
       && |rc.binds| == 1 && rc.persistent && !rc.peek
       && ReadsName(n, ns, rc.binds[0].source)
       && rc.connectiveUsed == (rc.binds[0].source.connectiveUsed || rc.body.connectiveUsed)
       && exists fs :: ReadsPatterns(formals, remainder, fs, ns, rc.binds[0]) && rc.bindCount == |fs|
                    && Reads(body, ns.Under(fs), Nil, rc.body)
  }

  ghost predicate ReadsInput(receipts: seq<Receipt>, body: Proc, ns: Names, left: Par, par: Par)
    decreases WProc(PInput(receipts, body)), 6
  {
    if |receipts| > 1 then
      NestWeight(receipts, body);
      Reads(NestReceipts(receipts, body), ns, left, par)
    else if receipts == [] then false
    else
      assert receipts == [receipts[0]];
      OneReceiptWeight(receipts[0], body);
      ReadsReceipt(receipts[0], body, ns, left, par)
  }

  ghost predicate ReadsReceipt(r: Receipt, body: Proc, ns: Names, left: Par, par: Par)
    decreases 1 + WReceipt(r) + WProc(body), 5
  {
    match r
    case ReceiptLinear(bs) =>
      if IsComplex(bs) then
        exists k: nat ::
          (ComplexWeight(bs, body, k); OneReceiptWeight(r, body); Reads(Assemble(DesugarComplex(bs, body, k)), ns, left, par))
      else
        SimpleBindsWeight(bs);
        ReadsReceive(SimpleBinds(bs), false, false, body, ns, left, par)
    case ReceiptRepeated(bs) => ReadsReceive(bs, true, false, body, ns, left, par)
    case ReceiptPeek(bs) => ReadsReceive(bs, false, true, body, ns, left, par)
  }

  /** How one bind of a join reads: its names and the term before sorting. */
  datatype BindReading = BindReading(names: seq<Bound>, raw: ReceiveBind)

  ghost predicate ReadsBinds(bs: seq<NameBind>, ns: Names, rs: seq<BindReading>)
    decreases WBinds(bs), 0
  {
    if bs == [] then rs == []
    else
      assert WBinds(bs) == WBind(bs[0]) + WBinds(bs[1..]);
      && rs != []
      && ReadsPatterns(bs[0].names, bs[0].remainder, rs[0].names, ns, rs[0].raw)
      && ReadsName(bs[0].source, ns, rs[0].raw.source)
      && ReadsBinds(bs[1..], ns, rs[1..])
  }

  function BoundNames(rs: seq<BindReading>, order: seq<nat>): seq<Bound>
    requires forall i :: 0 <= i < |order| ==> order[i] < |rs|
  {
    Concat(seq(|order|, i requires 0 <= i < |order| => rs[order[i]].names))
  }

  /** `order` puts the binds, each in canonical form, in the order of their scores, equal scores as they were. */
  ghost predicate JoinOrder(rs: seq<BindReading>, order: seq<nat>, binds: seq<ReceiveBind>) {
    && Permutes(order, |rs|) && |binds| == |rs|
    && (forall i :: 0 <= i < |rs| ==> binds[i] == SortReceiveBind(rs[order[i]].raw).term)
    && (forall i, j :: 0 <= i < j < |rs| ==>
          var a, b := SortReceiveBind(rs[order[i]].raw).score, SortReceiveBind(rs[order[j]].raw).score;
          AtMost(a, b) && (a == b ==> order[i] < order[j]))
  }

  /** No two binds receive on the same channel, and the body lies under the names of the binds, in their order. */
  ghost predicate ReadsReceive(
    bs: seq<NameBind>, persistent: bool, peek: bool, body: Proc, ns: Names, left: Par, par: Par)
    decreases 1 + WBinds(bs) + WProc(body), 4
  {
    && MoreReceive(left, par)
    && var rc := par.receives[0];
       && rc.persistent == persistent && rc.peek == peek
       && (forall i, k :: 0 <= i < k < |rc.binds| ==> rc.binds[i].source != rc.binds[k].source)
       && exists rs: seq<BindReading>, order: seq<nat> ::
            && ReadsBinds(bs, ns, rs) && JoinOrder(rs, order, rc.binds)
            && rc.bindCount == |BoundNames(rs, order)|
            && Reads(body, ns.Under(BoundNames(rs, order)), Nil, rc.body)
            && (rc.connectiveUsed <==>
                  rc.body.connectiveUsed || exists i :: 0 <= i < |rs| && rs[i].raw.source.connectiveUsed)
  }

  ghost predicate ReadsLet(d: Decl, ds: Decls, body: Proc, ns: Names, left: Par, par: Par)
    decreases WProc(PLet(d, ds, body)), 0
  {
    match ds
    case EmptyDecls => ReadsLetMatch(d, body, ns, left, par)
    case LinearDecls(more) =>
      LetContinuationWeight(d, more, body);
      ReadsLetMatch(d, LetContinuation(more, body), ns, left, par)
    case ConcDecls(more) =>
      exists k: nat :: (ConcLetWeight(d, more, body, k); Reads(DesugarConcLet([d] + more, body, k), ns, left, par))
  }

  /** One `let`: the list of the values is matched against the list of the names. */
  ghost predicate ReadsLetMatch(d: Decl, continuation: Proc, ns: Names, left: Par, par: Par)
    decreases 19 + WDecl(d) + WProc(continuation), 0
  {
    && MoreMatch(left, par)
    && var m := par.matches[0];
       && |m.cases| == 1
       && m.target.exprs != [] && m.target == FromExpr(m.target.exprs[0])
       && m.cases[0].pattern.exprs != [] && m.cases[0].pattern == FromExpr(m.cases[0].pattern.exprs[0])
       && var value, pattern := m.target.exprs[0], m.cases[0].pattern.exprs[0];
          && value.EList? && value.remainder == None && value.connectiveUsed == AnyConnectiveUsed(value.ps)
          && pattern.EList? && pattern.connectiveUsed
          && m.connectiveUsed == (m.target.connectiveUsed || m.cases[0].source.connectiveUsed)
          && ReadsProcs(d.procs, ns, value.ps)
          && exists fs :: ReadsNames(d.names, ns.InPattern(fs), pattern.ps) && ReadsRemainder(d.remainder, fs, pattern.remainder)
                       && m.cases[0].freeCount == |fs| && Reads(continuation, ns.Under(fs), Nil, m.cases[0].source)
  }

  ghost predicate ReadsCollection(c: Collection, ns: Names, e: Expr)
    decreases WCollection(c), 1
  {
    match c
    case CollectList(ps, r) =>
      && e.EList? && ReadsProcs(ps, ns, e.ps) && ReadsRemainder(r, ns.free, e.remainder)
      && e.connectiveUsed == (AnyConnectiveUsed(e.ps) || e.remainder.Some?)
    case CollectTuple(p, ps) =>
      assert ([p] + ps)[1..] == ps;
      e.ETuple? && ReadsProcs([p] + ps, ns, e.ps) && e.connectiveUsed == AnyConnectiveUsed(e.ps)
    case CollectSet(ps, r) =>
      && e.ESet? && ReadsProcs(ps, ns, e.ps) && ReadsRemainder(r, ns.free, e.remainder)
      && e.connectiveUsed == (AnyConnectiveUsed(e.ps) || e.remainder.Some?)
    case CollectMap(kvs, r) =>
      && e.EMap? && ReadsKeyValues(kvs, ns, e.kvs) && ReadsRemainder(r, ns.free, e.remainder)
      && (e.connectiveUsed <==>
            exists i :: 0 <= i < |e.kvs| && (e.kvs[i].key.connectiveUsed || e.kvs[i].value.connectiveUsed))
  }

  ghost predicate ReadsKeyValues(kvs: seq<KeyValuePair>, ns: Names, es: seq<KeyValue>)
    decreases WKeyValues(kvs), 0
  {
    if kvs == [] then es == []
    else
      assert WKeyValues(kvs) == WKeyValue(kvs[0]) + WKeyValues(kvs[1..]);
      && es != []
      && Reads(kvs[0].key, ns, Nil, es[0].key) && Reads(kvs[0].value, ns, Nil, es[0].value)
      && ReadsKeyValues(kvs[1..], ns, es[1..])
  }
}
