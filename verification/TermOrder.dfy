/** Which order the sorter gives to terms, stated on the terms and not on their scores:
    the kinds of expressions, connectives, bundles and variables from first to last, the values within a
    ground kind, operands from left to right, sends by persistence, channel and data. */
module TermOrder {
  import opened Orders
  import opened ScoreTree
  import opened StableSort
  import opened Ast
  import opened Sorter
  import opened SorterInjective

  /** How the sorter orders two processes. */
  function ByPar(p: Par, q: Par): Ordering {
    CompareTrees(SortPar(p).score, SortPar(q).score)
  }

  /** Process by process; a proper prefix comes first. */
  function ByPars(ps: seq<Par>, qs: seq<Par>): Ordering {
    if ps == [] then if qs == [] then Equal else Less
    else if qs == [] then Greater
    else Then(ByPar(ps[0], qs[0]), ByPars(ps[1..], qs[1..]))
  }

  function Then(first: Ordering, second: Ordering): Ordering {
    if first == Equal then second else first
  }

  /** `false` before `true`. */
  function ByFlag(a: bool, b: bool): Ordering {
    if a == b then Equal else if b then Less else Greater
  }

  // ----- comparing tagged child lists

  lemma TagsFirst(tag: int, xs: seq<Tree>, other: int, ys: seq<Tree>)
    ensures CompareTrees(NodeScore(tag, xs), NodeScore(other, ys)) == Then(CompareInts(tag, other), CompareChildren(xs, ys))
  {
    HeadFirst(Int(tag), xs, Int(other), ys);
  }

  lemma HeadFirst(x: Tree, xs: seq<Tree>, y: Tree, ys: seq<Tree>)
    ensures CompareChildren([x] + xs, [y] + ys) == Then(CompareTrees(x, y), CompareChildren(xs, ys))
  {
    assert ([x] + xs)[1..] == xs && ([y] + ys)[1..] == ys;
  }

  lemma OneChild(x: Tree, y: Tree)
    ensures CompareChildren([x], [y]) == CompareTrees(x, y)
  {
    assert [x] + [] == [x] && [y] + [] == [y];
    HeadFirst(x, [], y, []);
  }

  lemma FlagsCompare(a: bool, b: bool)
    ensures CompareTrees(Flag(a), Flag(b)) == ByFlag(a, b)
  {
  }

  lemma ParIsNode(p: Par)
    ensures SortPar(p).score.Node?
  {
  }

  /** Lists of nodes, each closed by a leaf, compare by the lists first. */
  lemma {:induction false} FlaggedLists(xs: seq<Tree>, f: Tree, ys: seq<Tree>, g: Tree)
    requires f.Leaf? && g.Leaf?
    requires (forall i :: 0 <= i < |xs| ==> xs[i].Node?) && forall i :: 0 <= i < |ys| ==> ys[i].Node?
    ensures CompareChildren(xs + [f], ys + [g]) == Then(CompareChildren(xs, ys), CompareTrees(f, g))
  {
    if xs == [] && ys == [] {
      assert xs + [f] == [f] && ys + [g] == [g];
      OneChild(f, g);
    } else if xs == [] {
      assert xs + [f] == [f] + [] && ys + [g] == [ys[0]] + (ys[1..] + [g]);
      HeadFirst(f, [], ys[0], ys[1..] + [g]);
    } else if ys == [] {
      assert ys + [g] == [g] + [] && xs + [f] == [xs[0]] + (xs[1..] + [f]);
      HeadFirst(xs[0], xs[1..] + [f], g, []);
    } else {
      FlaggedLists(xs[1..], f, ys[1..], g);
      assert xs + [f] == [xs[0]] + (xs[1..] + [f]) && ys + [g] == [ys[0]] + (ys[1..] + [g]);
      HeadFirst(xs[0], xs[1..] + [f], ys[0], ys[1..] + [g]);
    }
  }

  lemma {:induction false} ParsByScore(ps: seq<Par>, qs: seq<Par>)
    ensures CompareChildren(Scores(SortPars(ps)), Scores(SortPars(qs))) == ByPars(ps, qs)
  {
    hide SortPar;
    if ps != [] && qs != [] {
      ParsByScore(ps[1..], qs[1..]);
      var xs, ys := Scores(SortPars(ps)), Scores(SortPars(qs));
      assert xs[1..] == Scores(SortPars(ps[1..])) && ys[1..] == Scores(SortPars(qs[1..]));
    }
  }

  lemma FlaggedPars(ps: seq<Par>, a: bool, qs: seq<Par>, b: bool)
    ensures CompareChildren(Scores(SortPars(ps)) + [Flag(a)], Scores(SortPars(qs)) + [Flag(b)]) == Then(ByPars(ps, qs), ByFlag(a, b))
  {
    hide SortPar, ByPars;
    FlagsCompare(a, b);
    ParsByScore(ps, qs);
    forall i | 0 <= i < |ps| ensures SortPar(ps[i]).score.Node? { ParIsNode(ps[i]); }
    forall i | 0 <= i < |qs| ensures SortPar(qs[i]).score.Node? { ParIsNode(qs[i]); }
    FlaggedLists(Scores(SortPars(ps)), Flag(a), Scores(SortPars(qs)), Flag(b));
  }

  // ----- sends

  /** Sends: transient before persistent, then by channel, then by data, then by the connective flag. */
  lemma SendOrder(s: Send, t: Send)
    ensures CompareTrees(SortSend(s).score, SortSend(t).score)
         == Then(ByFlag(s.persistent, t.persistent),
                 Then(ByPar(s.chan, t.chan), Then(ByPars(s.data, t.data), ByFlag(s.connectiveUsed, t.connectiveUsed))))
  {
    hide SortPar, SortPars, Flag;
    var c, d := SortPar(s.chan).score, SortPar(t.chan).score;
    var xs, ys := Scores(SortPars(s.data)) + [Flag(s.connectiveUsed)], Scores(SortPars(t.data)) + [Flag(t.connectiveUsed)];
    var f, g := Flag(s.persistent), Flag(t.persistent);
    assert [f, c] + Scores(SortPars(s.data)) + [Flag(s.connectiveUsed)] == [f] + ([c] + xs);
    assert [g, d] + Scores(SortPars(t.data)) + [Flag(t.connectiveUsed)] == [g] + ([d] + ys);
    TagsFirst(SEND, [f] + ([c] + xs), SEND, [g] + ([d] + ys));
    HeadFirst(f, [c] + xs, g, [d] + ys);
    HeadFirst(c, xs, d, ys);
    FlagsCompare(s.persistent, t.persistent);
    FlaggedPars(s.data, s.connectiveUsed, t.data, t.connectiveUsed);
  }

  /** In a canonical process, of two sends on one channel the one with fewer data comes first, if the data agree so far. */
  lemma ShorterSendFirst(chan: Par, data: seq<Par>, more: seq<Par>, persistent: bool, a: bool, b: bool)
    requires more != []
    ensures var s, t := Send(chan, data, persistent, a), Send(chan, data + more, persistent, b);
            && SortPar(Nil.(sends := [s, t])).term.sends == [SortSend(s).term, SortSend(t).term]
            && SortPar(Nil.(sends := [t, s])).term.sends == [SortSend(s).term, SortSend(t).term]
  {
    hide SortPar, SortSend, ByPars;
    var s, t := Send(chan, data, persistent, a), Send(chan, data + more, persistent, b);
    TreeEqualIff(SortPar(chan).score, SortPar(chan).score);
    PrefixFirst(data, more);
    SendOrder(s, t);
    TwoSends(s, t);
  }

  lemma TwoSends(s: Send, t: Send)
    requires CompareTrees(SortSend(s).score, SortSend(t).score) == Less
    ensures SortPar(Nil.(sends := [s, t])).term.sends == [SortSend(s).term, SortSend(t).term]
    ensures SortPar(Nil.(sends := [t, s])).term.sends == [SortSend(s).term, SortSend(t).term]
  {
    hide SortSend, Sort;
    SortTwo(SortSend(s), SortSend(t));
    assert SortSends([s, t]) == [SortSend(s), SortSend(t)] && SortSends([t, s]) == [SortSend(t), SortSend(s)];
  }

  lemma {:induction false} PrefixFirst(ps: seq<Par>, more: seq<Par>)
    requires more != []
    ensures ByPars(ps, ps + more) == Less
  {
    hide SortPar;
    if ps != [] {
      TreeEqualIff(SortPar(ps[0]).score, SortPar(ps[0]).score);
      PrefixFirst(ps[1..], more);
      assert (ps + more)[1..] == ps[1..] + more;
    }
  }

  lemma SortTwo<T>(x: Scored<T>, y: Scored<T>)
    requires CompareTrees(x.score, y.score) == Less
    ensures Terms(Sort([x, y])) == [x.term, y.term] && Terms(Sort([y, x])) == [x.term, y.term]
  {
    TreeSwap(x.score, y.score);
    assert [x, y][1..] == [y] && [y, x][1..] == [x];
    assert Sort([y]) == [y] && Sort([x]) == [x] by { assert [y][1..] == [] && [x][1..] == []; }
  }

  // ----- expressions

  /** The kinds of expressions, first to last. */
  function ExprKind(e: Expr): nat {
    match e
    case GBool(_) => 0
    case GInt(_) => 1
    case GString(_) => 2
    case GUri(_) => 3
    case EList(_, _, _) => 4
    case ETuple(_, _) => 5
    case ESet(_, _, _) => 6
    case EMap(_, _, _) => 7
    case GBigInt(_) => 8
    case EVar(_) => 9
    case ENeg(_) => 10
    case EBinary(op, _, _) => OpKind(op)
    case ENot(_) => 21
    case EMethod(_, _, _, _) => 24
    case GByteArray(_) => 25
  }

  function OpKind(op: BinaryOp): nat {
    match op
    case Mult => 11
    case Div => 12
    case Plus => 13
    case Minus => 14
    case Lt => 15
    case Lte => 16
    case Gt => 17
    case Gte => 18
    case Eq => 19
    case Neq => 20
    case And => 22
    case Or => 23
    case Matches => 26
    case PercentPercent => 27
    case PlusPlus => 28
    case MinusMinus => 29
    case Mod => 30
    case ShortAnd => 31
    case ShortOr => 32
  }

  const ExprTags := [1, 2, 3, 4, 6, 7, 8, 9, 13, 100, 101, 102, 103, 104, 105, 106, 107, 108, 109, 110, 111, 112, 113, 114,
                     115, 116, 118, 119, 120, 121, 122, 123, 124]

  lemma TagOfKind(e: Expr)
    ensures 0 <= ExprKind(e) < |ExprTags| && ExprTag(e) == ExprTags[ExprKind(e)]
  {
  }

  lemma TagsAscend(i: nat, j: nat)
    requires i < j < |ExprTags|
    ensures ExprTags[i] < ExprTags[j]
  {
    assert forall k :: 0 <= k < |ExprTags| - 1 ==> ExprTags[k] < ExprTags[k + 1];
    if i + 1 < j { TagsAscend(i, j - 1); }
  }

  /** Expressions of different kinds are ordered by kind. */
  lemma KindsInOrder(e: Expr, d: Expr)
    requires ExprKind(e) < ExprKind(d)
    ensures CompareTrees(SortExpr(e).score, SortExpr(d).score) == Less
  {
    hide SortExpr, ExprRest, ExprTag, ExprKind, NodeScore;
    ExprShape(e);
    ExprShape(d);
    TagOfKind(e);
    TagOfKind(d);
    TagsAscend(ExprKind(e), ExprKind(d));
    TagsFirst(ExprTag(e), ExprRest(e), ExprTag(d), ExprRest(d));
  }

  lemma SameKind(e: Expr, d: Expr)
    requires ExprTag(e) == ExprTag(d)
    ensures CompareTrees(SortExpr(e).score, SortExpr(d).score) == CompareChildren(ExprRest(e), ExprRest(d))
  {
    hide SortExpr, ExprRest, ExprTag, NodeScore;
    ExprShape(e);
    ExprShape(d);
    TagsFirst(ExprTag(e), ExprRest(e), ExprTag(d), ExprRest(d));
  }

  function ByExpr(e: Expr, d: Expr): Ordering {
    CompareTrees(SortExpr(e).score, SortExpr(d).score)
  }

  /** Ground values of one kind by value: `true` before `false`, numbers by size, text by character,
      bytes as signed. */
  lemma GroundsByValue(x: int, y: int, s: string, t: string, bs: seq<byte>, cs: seq<byte>)
    ensures ByExpr(GBool(true), GBool(false)) == Less
    ensures ByExpr(GInt(x), GInt(y)) == Less <==> x < y
    ensures ByExpr(GBigInt(x), GBigInt(y)) == Less <==> x < y
    ensures ByExpr(GString(s), GString(t)) == Less <==> AtomBelow(StrAtom(s), StrAtom(t))
    ensures ByExpr(GUri(s), GUri(t)) == Less <==> AtomBelow(StrAtom(s), StrAtom(t))
    ensures ByExpr(GByteArray(bs), GByteArray(cs)) == Less <==> AtomBelow(BytesAtom(bs), BytesAtom(cs))
  {
    hide AtomBelow, ByExpr;
    NumbersByValue(x, y);
    TextByValue(s, t);
    BytesByValue(bs, cs);
  }

  lemma NumbersByValue(x: int, y: int)
    ensures ByExpr(GBool(true), GBool(false)) == Less
    ensures ByExpr(GInt(x), GInt(y)) == Less <==> x < y
    ensures ByExpr(GBigInt(x), GBigInt(y)) == Less <==> x < y
  {
    SameKind(GBool(true), GBool(false));
    OneChild(Int(0), Int(1));
    SameKind(GInt(x), GInt(y));
    OneChild(Int(x), Int(y));
    SameKind(GBigInt(x), GBigInt(y));
    OneChild(Leaf(BigIntAtom(x)), Leaf(BigIntAtom(y)));
  }

  lemma TextByValue(s: string, t: string)
    ensures ByExpr(GString(s), GString(t)) == Less <==> AtomBelow(StrAtom(s), StrAtom(t))
    ensures ByExpr(GUri(s), GUri(t)) == Less <==> AtomBelow(StrAtom(s), StrAtom(t))
  {
    hide AtomBelow;
    SameKind(GString(s), GString(t));
    SameKind(GUri(s), GUri(t));
    OneChild(Str(s), Str(t));
    AtomLessIff(StrAtom(s), StrAtom(t));
  }

  lemma BytesByValue(bs: seq<byte>, cs: seq<byte>)
    ensures ByExpr(GByteArray(bs), GByteArray(cs)) == Less <==> AtomBelow(BytesAtom(bs), BytesAtom(cs))
  {
    hide AtomBelow;
    SameKind(GByteArray(bs), GByteArray(cs));
    OneChild(Leaf(BytesAtom(bs)), Leaf(BytesAtom(cs)));
    AtomLessIff(BytesAtom(bs), BytesAtom(cs));
  }

  /** Operators of one kind by their operands, left before right. */
  lemma OperandsLeftToRight(op: BinaryOp, p: Par, q: Par, p': Par, q': Par)
    ensures ByExpr(EBinary(op, p, q), EBinary(op, p', q')) == Then(ByPar(p, p'), ByPar(q, q'))
    ensures ByExpr(ENot(p), ENot(q)) == ByPar(p, q) && ByExpr(ENeg(p), ENeg(q)) == ByPar(p, q)
  {
    hide SortPar;
    SameKind(EBinary(op, p, q), EBinary(op, p', q'));
    var a, b, c, d := SortPar(p).score, SortPar(q).score, SortPar(p').score, SortPar(q').score;
    assert [a, b] == [a] + [b] && [c, d] == [c] + [d];
    HeadFirst(a, [b], c, [d]);
    OneChild(b, d);
    SameKind(ENot(p), ENot(q));
    SameKind(ENeg(p), ENeg(q));
    OneChild(a, b);
  }

  /** Variables: bound by index, then free by level, then wildcards. */
  lemma VariablesInOrder(i: int, k: int)
    ensures ByExpr(EVar(BoundVar(i)), EVar(BoundVar(k))) == CompareInts(i, k)
    ensures ByExpr(EVar(FreeVar(i)), EVar(FreeVar(k))) == CompareInts(i, k)
    ensures ByExpr(EVar(BoundVar(i)), EVar(FreeVar(k))) == Less && ByExpr(EVar(FreeVar(i)), EVar(Wildcard)) == Less
  {
    VarsByScore(BoundVar(i), BoundVar(k));
    VarsByScore(FreeVar(i), FreeVar(k));
    VarsByScore(BoundVar(i), FreeVar(k));
    VarsByScore(FreeVar(i), Wildcard);
    TagsFirst(BOUND_VAR, [Int(i)], BOUND_VAR, [Int(k)]);
    TagsFirst(FREE_VAR, [Int(i)], FREE_VAR, [Int(k)]);
    TagsFirst(BOUND_VAR, [Int(i)], FREE_VAR, [Int(k)]);
    TagsFirst(FREE_VAR, [Int(i)], WILDCARD, []);
    OneChild(Int(i), Int(k));
  }

  lemma VarsByScore(v: Var, w: Var)
    ensures ByExpr(EVar(v), EVar(w)) == CompareTrees(ScoreVar(v), ScoreVar(w))
  {
    SameKind(EVar(v), EVar(w));
    OneChild(ScoreVar(v), ScoreVar(w));
  }

  // ----- the other kinds

  /** Receives: transient before persistent, then without peek before with. */
  lemma ReceiveFlagsFirst(r: Receive, q: Receive)
    ensures Then(ByFlag(r.persistent, q.persistent), ByFlag(r.peek, q.peek)) != Equal ==>
              CompareTrees(SortReceive(r).score, SortReceive(q).score)
              == Then(ByFlag(r.persistent, q.persistent), ByFlag(r.peek, q.peek))
  {
    hide SortReceive, Flag, NodeScore;
    var xs := ReceiveShape(r);
    var ys := ReceiveShape(q);
    var f, g := [Flag(r.peek)] + xs, [Flag(q.peek)] + ys;
    TagsFirst(RECEIVE, [Flag(r.persistent)] + f, RECEIVE, [Flag(q.persistent)] + g);
    HeadFirst(Flag(r.persistent), f, Flag(q.persistent), g);
    HeadFirst(Flag(r.peek), xs, Flag(q.peek), ys);
    FlagsCompare(r.persistent, q.persistent);
    FlagsCompare(r.peek, q.peek);
  }

  lemma ReceiveShape(r: Receive) returns (rest: seq<Tree>)
    ensures SortReceive(r).score == NodeScore(RECEIVE, [Flag(r.persistent)] + ([Flag(r.peek)] + rest))
  {
    hide SortPar, Flag, SortReceiveBinds, NodeScore;
    var binds, last := Scores(SortReceiveBinds(r.binds)), [SortPar(r.body).score, Int(r.bindCount), Flag(r.connectiveUsed)];
    rest := binds + last;
    assert [Flag(r.persistent), Flag(r.peek)] + binds + last == [Flag(r.persistent)] + ([Flag(r.peek)] + rest);
  }

  /** Bundles: neither capability, read, write, both; then by body. */
  function BundleKind(b: Bundle): int {
    (if b.readFlag then 1 else 0) + (if b.writeFlag then 2 else 0)
  }

  lemma BundleOrder(b: Bundle, c: Bundle)
    ensures CompareTrees(SortBundle(b).score, SortBundle(c).score)
         == Then(CompareInts(BundleKind(b), BundleKind(c)), ByPar(b.body, c.body))
  {
    hide SortPar;
    TagsFirst(BundleTag(b), [SortPar(b.body).score], BundleTag(c), [SortPar(c.body).score]);
    OneChild(SortPar(b.body).score, SortPar(c.body).score);
  }

  /** A case: by pattern, then by body, then by how much the pattern binds. */
  function ByCase(c: MatchCase, d: MatchCase): Ordering {
    Then(ByPar(c.pattern, d.pattern), Then(ByPar(c.source, d.source), CompareInts(c.freeCount, d.freeCount)))
  }

  function ByCases(cs: seq<MatchCase>, ds: seq<MatchCase>): Ordering {
    if cs == [] then if ds == [] then Equal else Less
    else if ds == [] then Greater
    else Then(ByCase(cs[0], ds[0]), ByCases(cs[1..], ds[1..]))
  }

  lemma CaseOrder(c: MatchCase, d: MatchCase)
    ensures CompareTrees(SortMatchCase(c).score, SortMatchCase(d).score) == ByCase(c, d)
  {
    hide SortPar;
    var p, q, x, y := SortPar(c.pattern).score, SortPar(d.pattern).score, SortPar(c.source).score, SortPar(d.source).score;
    var m, n := Int(c.freeCount), Int(d.freeCount);
    assert [p, x, m] == [p] + ([x] + [m]) && [q, y, n] == [q] + ([y] + [n]);
    HeadFirst(p, [x] + [m], q, [y] + [n]);
    HeadFirst(x, [m], y, [n]);
    OneChild(m, n);
  }

  lemma {:induction false} CasesByScore(cs: seq<MatchCase>, ds: seq<MatchCase>)
    ensures CompareChildren(Scores(SortMatchCases(cs)), Scores(SortMatchCases(ds))) == ByCases(cs, ds)
  {
    hide SortMatchCase, ByCase;
    if cs != [] && ds != [] {
      CasesByScore(cs[1..], ds[1..]);
      CaseOrder(cs[0], ds[0]);
      var xs, ys := Scores(SortMatchCases(cs)), Scores(SortMatchCases(ds));
      assert xs[1..] == Scores(SortMatchCases(cs[1..])) && ys[1..] == Scores(SortMatchCases(ds[1..]));
    }
  }

  /** Matches: by target, then case by case, then by the connective flag. */
  lemma MatchOrder(m: Match, n: Match)
    ensures CompareTrees(SortMatch(m).score, SortMatch(n).score)
         == Then(ByPar(m.target, n.target), Then(ByCases(m.cases, n.cases), ByFlag(m.connectiveUsed, n.connectiveUsed)))
  {
    hide SortPar, SortMatchCases, Flag, ByCases, SortMatchCase;
    var t, u := SortPar(m.target).score, SortPar(n.target).score;
    var xs, ys := Scores(SortMatchCases(m.cases)), Scores(SortMatchCases(n.cases));
    var f, g := Flag(m.connectiveUsed), Flag(n.connectiveUsed);
    assert [t] + xs + [f] == [t] + (xs + [f]) && [u] + ys + [g] == [u] + (ys + [g]);
    TagsFirst(MATCH, [t] + (xs + [f]), MATCH, [u] + (ys + [g]));
    HeadFirst(t, xs + [f], u, ys + [g]);
    forall i | 0 <= i < |xs| ensures xs[i].Node? { CaseIsNode(m.cases[i]); }
    forall i | 0 <= i < |ys| ensures ys[i].Node? { CaseIsNode(n.cases[i]); }
    FlagIsLeaf(m.connectiveUsed);
    FlagIsLeaf(n.connectiveUsed);
    FlaggedLists(xs, f, ys, g);
    CasesByScore(m.cases, n.cases);
    FlagsCompare(m.connectiveUsed, n.connectiveUsed);
  }

  lemma CaseIsNode(c: MatchCase)
    ensures SortMatchCase(c).score.Node?
  {
    hide SortPar;
  }

  lemma FlagIsLeaf(b: bool)
    ensures Flag(b).Leaf?
  {
  }

  /** Binds: by source, and binds of one source with equally many patterns by the patterns, then by the remainder. */
  lemma BindOrder(b: ReceiveBind, c: ReceiveBind)
    ensures ByPar(b.source, c.source) != Equal ==>
              CompareTrees(SortReceiveBind(b).score, SortReceiveBind(c).score) == ByPar(b.source, c.source)
    ensures ByPar(b.source, c.source) == Equal && |b.patterns| == |c.patterns| ==>
              CompareTrees(SortReceiveBind(b).score, SortReceiveBind(c).score)
              == Then(ByPars(b.patterns, c.patterns),
                      CompareTrees(BindRemainderScore(b.remainder), BindRemainderScore(c.remainder)))
  {
    hide SortPar, SortPars, ByPars, BindRemainderScore;
    var s, t := SortPar(b.source).score, SortPar(c.source).score;
    var xs, ys := Scores(SortPars(b.patterns)), Scores(SortPars(c.patterns));
    var f, g := BindRemainderScore(b.remainder), BindRemainderScore(c.remainder);
    assert [s] + xs + [f] == [s] + (xs + [f]) && [t] + ys + [g] == [t] + (ys + [g]);
    HeadFirst(s, xs + [f], t, ys + [g]);
    if |b.patterns| == |c.patterns| {
      SameLength(xs, f, ys, g);
      ParsByScore(b.patterns, c.patterns);
    }
  }

  lemma {:induction false} SameLength(xs: seq<Tree>, f: Tree, ys: seq<Tree>, g: Tree)
    requires |xs| == |ys|
    ensures CompareChildren(xs + [f], ys + [g]) == Then(CompareChildren(xs, ys), CompareTrees(f, g))
  {
    if xs == [] {
      assert xs + [f] == [f] && ys + [g] == [g];
      OneChild(f, g);
    } else {
      SameLength(xs[1..], f, ys[1..], g);
      assert xs + [f] == [xs[0]] + (xs[1..] + [f]) && ys + [g] == [ys[0]] + (ys[1..] + [g]);
      HeadFirst(xs[0], xs[1..] + [f], ys[0], ys[1..] + [g]);
    }
  }

  /** `new`s: first by how much they bind. */
  lemma NewCountFirst(n: New, m: New)
    ensures n.bindCount != m.bindCount ==>
              CompareTrees(SortNew(n).score, SortNew(m).score) == CompareInts(n.bindCount, m.bindCount)
  {
    hide SortPar, SortInjections, Sort, OrAbsent;
    var xs := OrAbsent(Scores(Sort(ScoreUris(n.uri)))) + OrAbsent(Scores(SortInjections(n.injections))) + [SortPar(n.p).score];
    var ys := OrAbsent(Scores(Sort(ScoreUris(m.uri)))) + OrAbsent(Scores(SortInjections(m.injections))) + [SortPar(m.p).score];
    var a, b := Int(n.bindCount), Int(m.bindCount);
    assert SortNew(n).score == NodeScore(NEW, [a] + xs) by {
      assert [a] + OrAbsent(Scores(Sort(ScoreUris(n.uri)))) + OrAbsent(Scores(SortInjections(n.injections)))
             + [SortPar(n.p).score] == [a] + xs;
    }
    assert SortNew(m).score == NodeScore(NEW, [b] + ys) by {
      assert [b] + OrAbsent(Scores(Sort(ScoreUris(m.uri)))) + OrAbsent(Scores(SortInjections(m.injections)))
             + [SortPar(m.p).score] == [b] + ys;
    }
    TagsFirst(NEW, [a] + xs, NEW, [b] + ys);
    HeadFirst(a, xs, b, ys);
  }

  /** Method calls: by name, then by target, then by arguments. */
  lemma MethodOrder(name: string, t: Par, args: seq<Par>, a: bool, name': string, t': Par, args': seq<Par>, b: bool)
    ensures ByExpr(EMethod(name, t, args, a), EMethod(name', t', args', b))
         == Then(CompareLex(name, name', CharCode), Then(ByPar(t, t'), Then(ByPars(args, args'), ByFlag(a, b))))
  {
    hide SortPar, SortPars, Flag, ByPars, Then, CompareChildren, SortExpr, CompareLex;
    SameKind(EMethod(name, t, args, a), EMethod(name', t', args', b));
    var x, p, xs := Str(name), SortPar(t).score, Scores(SortPars(args)) + [Flag(a)];
    var y, q, ys := Str(name'), SortPar(t').score, Scores(SortPars(args')) + [Flag(b)];
    assert ExprRest(EMethod(name, t, args, a)) == [x] + ([p] + xs);
    assert ExprRest(EMethod(name', t', args', b)) == [y] + ([q] + ys);
    HeadFirst(x, [p] + xs, y, [q] + ys);
    HeadFirst(p, xs, q, ys);
    FlaggedPars(args, a, args', b);
    TextsCompare(name, name');
  }

  lemma TextsCompare(s: string, t: string)
    ensures CompareTrees(Str(s), Str(t)) == CompareLex(s, t, CharCode)
  {
    hide CompareLex;
  }

  /** Lists and sets: by remainder, then element by element; tuples element by element. */
  lemma CollectionOrder(ps: seq<Par>, r: Option<Var>, a: bool, qs: seq<Par>, r': Option<Var>, b: bool)
    ensures ByExpr(EList(ps, r, a), EList(qs, r', b))
         == Then(CompareTrees(RemainderScore(r), RemainderScore(r')), Then(ByPars(ps, qs), ByFlag(a, b)))
    ensures ByExpr(ESet(ps, r, a), ESet(qs, r', b)) == ByExpr(EList(ps, r, a), EList(qs, r', b))
    ensures ByExpr(ETuple(ps, a), ETuple(qs, b)) == Then(ByPars(ps, qs), ByFlag(a, b))
  {
    hide ByExpr, ByPars, RemainderScore;
    ListOrder(ps, r, a, qs, r', b);
    SetOrder(ps, r, a, qs, r', b);
    TupleOrder(ps, a, qs, b);
  }

  lemma Remaindered(x: Tree, ps: seq<Par>, a: bool, y: Tree, qs: seq<Par>, b: bool)
    ensures CompareChildren([x] + Scores(SortPars(ps)) + [Flag(a)], [y] + Scores(SortPars(qs)) + [Flag(b)])
         == Then(CompareTrees(x, y), Then(ByPars(ps, qs), ByFlag(a, b)))
  {
    hide SortPars, Flag, ByPars;
    var xs, ys := Scores(SortPars(ps)) + [Flag(a)], Scores(SortPars(qs)) + [Flag(b)];
    assert [x] + Scores(SortPars(ps)) + [Flag(a)] == [x] + xs && [y] + Scores(SortPars(qs)) + [Flag(b)] == [y] + ys;
    HeadFirst(x, xs, y, ys);
    FlaggedPars(ps, a, qs, b);
  }

  lemma ListOrder(ps: seq<Par>, r: Option<Var>, a: bool, qs: seq<Par>, r': Option<Var>, b: bool)
    ensures ByExpr(EList(ps, r, a), EList(qs, r', b))
         == Then(CompareTrees(RemainderScore(r), RemainderScore(r')), Then(ByPars(ps, qs), ByFlag(a, b)))
  {
    hide SortPars, Flag, ByPars, RemainderScore, Then, CompareChildren, SortExpr;
    SameKind(EList(ps, r, a), EList(qs, r', b));
    Remaindered(RemainderScore(r), ps, a, RemainderScore(r'), qs, b);
  }

  lemma SetOrder(ps: seq<Par>, r: Option<Var>, a: bool, qs: seq<Par>, r': Option<Var>, b: bool)
    ensures ByExpr(ESet(ps, r, a), ESet(qs, r', b))
         == Then(CompareTrees(RemainderScore(r), RemainderScore(r')), Then(ByPars(ps, qs), ByFlag(a, b)))
  {
    hide SortPars, Flag, ByPars, RemainderScore, Then, CompareChildren, SortExpr;
    SameKind(ESet(ps, r, a), ESet(qs, r', b));
    Remaindered(RemainderScore(r), ps, a, RemainderScore(r'), qs, b);
  }

  lemma TupleOrder(ps: seq<Par>, a: bool, qs: seq<Par>, b: bool)
    ensures ByExpr(ETuple(ps, a), ETuple(qs, b)) == Then(ByPars(ps, qs), ByFlag(a, b))
  {
    hide SortPars, Flag, ByPars, Then, CompareChildren, SortExpr;
    SameKind(ETuple(ps, a), ETuple(qs, b));
    FlaggedPars(ps, a, qs, b);
  }

  /** The kinds of connectives, first to last, after the empty one. */
  function ConnectiveKind(c: Connective): nat {
    match c
    case EmptyConnective => 0
    case ConnNot(_) => 1
    case ConnAnd(_) => 2
    case ConnOr(_) => 3
    case VarRef(_, _) => 4
    case ConnBool(_) => 5
    case ConnInt(_) => 6
    case ConnString(_) => 7
    case ConnUri(_) => 8
    case ConnByteArray(_) => 9
    case ConnBigInt(_) => 10
  }

  lemma ConnectivesInOrder(c: Connective, d: Connective)
    requires ConnectiveKind(c) < ConnectiveKind(d)
    ensures CompareTrees(SortConnective(c).score, SortConnective(d).score) == Less
  {
    hide SortConnective, ConnectiveRest;
    ConnectiveShape(c);
    ConnectiveShape(d);
    TagsFirst(ConnectiveTag(c), ConnectiveRest(c), ConnectiveTag(d), ConnectiveRest(d));
  }

  /** The kinds of unforgeable names, first to last. */
  function UnforgeableKind(u: GUnforgeable): nat {
    match u
    case EmptyUnforgeable => 0
    case GPrivate(_) => 1
    case GDeployerId(_) => 2
    case GDeployId(_) => 3
    case GSysAuthToken => 4
  }

  lemma UnforgeablesInOrder(u: GUnforgeable, v: GUnforgeable)
    requires UnforgeableKind(u) < UnforgeableKind(v)
    ensures CompareTrees(SortUnforgeable(u).score, SortUnforgeable(v).score) == Less
  {
    var x, y := SortUnforgeable(u).score.children, SortUnforgeable(v).score.children;
    assert x == [x[0]] + x[1..] && y == [y[0]] + y[1..];
    HeadFirst(x[0], x[1..], y[0], y[1..]);
  }
}
