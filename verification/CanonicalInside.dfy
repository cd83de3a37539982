/** A canonical form is canonical all the way down: whatever stands inside one is its own canonical form. */
module CanonicalInside {
  import opened StableSort
  import opened Ast
  import opened Sorter
  import opened SorterIdempotent
  import opened Occurrences

  ghost predicate IsForm(p: Par) {
    SortPar(p).term == p
  }

  ghost predicate AreForms(ps: seq<Par>) {
    forall c :: c in ps ==> IsForm(c)
  }

  lemma SortedIsForm(p: Par)
    ensures IsForm(SortPar(p).term)
  {
    hide SortPar;
    SortParStable(p);
  }

  lemma SortedAreForms(ps: seq<Par>)
    ensures AreForms(Terms(SortPars(ps)))
  {
    hide IsForm, SortPar;
    var ts := Terms(SortPars(ps));
    forall c | c in ts ensures IsForm(c) {
      var i :| 0 <= i < |ts| && ts[i] == c;
      SortedIsForm(ps[i]);
    }
  }

  /** An element of a sorted field comes from an element of the field. */
  lemma FromField<T>(xs: seq<Scored<T>>, t: T) returns (k: nat)
    requires t in Terms(Sort(xs))
    ensures k < |xs| && t == xs[k].term
  {
    hide Sort;
    var ts := Terms(Sort(xs));
    var i :| 0 <= i < |ts| && ts[i] == t;
    k := SortOrigin(xs, i);
  }

  lemma SendForms(s: Send, c: Par, at: Place)
    requires InSend(SortSend(s).term, c, at)
    ensures IsForm(c)
  {
    hide IsForm, SortPar, SortPars;
    SortedIsForm(s.chan);
    SortedAreForms(s.data);
  }

  lemma BindForms(b: ReceiveBind, c: Par, at: Place)
    requires InBind(SortReceiveBind(b).term, c, at)
    ensures IsForm(c)
  {
    hide IsForm, SortPar, SortPars;
    SortedIsForm(b.source);
    SortedAreForms(b.patterns);
  }

  lemma ReceiveForms(r: Receive, c: Par, at: Place)
    requires InReceive(SortReceive(r).term, c, at)
    ensures IsForm(c)
  {
    hide IsForm, SortPar, InBind;
    SortedIsForm(r.body);
    var t := SortReceive(r).term;
    if !(at == Under(t.bindCount) && c == t.body) {
      var b :| b in t.binds && InBind(b, c, at);
      var i :| 0 <= i < |t.binds| && t.binds[i] == b;
      BindForms(r.binds[i], c, at);
    }
  }

  lemma MatchForms(m: Match, c: Par, at: Place)
    requires InMatch(SortMatch(m).term, c, at)
    ensures IsForm(c)
  {
    hide IsForm, SortPar;
    SortedIsForm(m.target);
    var t := SortMatch(m).term;
    if !(at == HERE && c == t.target) {
      var k :| k in t.cases && InCase(k, c, at);
      var i :| 0 <= i < |t.cases| && t.cases[i] == k;
      SortedIsForm(m.cases[i].pattern);
      SortedIsForm(m.cases[i].source);
    }
  }

  lemma EntryForms(kvs: seq<KeyValue>, kv: KeyValue, c: Par)
    requires kv in Terms(SortKeyValues(kvs)) && InEntry(kv, c)
    ensures IsForm(c)
  {
    hide IsForm, SortPar;
    var ts := Terms(SortKeyValues(kvs));
    var i :| 0 <= i < |ts| && ts[i] == kv;
    SortedIsForm(kvs[i].key);
    SortedIsForm(kvs[i].value);
  }

  lemma ExprForms(e: Expr, c: Par)
    requires InExpr(SortExpr(e).term, c)
    ensures IsForm(c)
  {
    hide IsForm, SortPar, SortPars, SortKeyValues, NodeScore;
    match e
    case ENot(p) => SortedIsForm(p);
    case ENeg(p) => SortedIsForm(p);
    case EBinary(_, p, q) =>
      SortedIsForm(p);
      SortedIsForm(q);
    case EList(ps, _, _) => SortedAreForms(ps);
    case ETuple(ps, _) => SortedAreForms(ps);
    case ESet(ps, _, _) => SortedAreForms(ps);
    case EMap(kvs, _, _) =>
      var kv :| kv in Terms(SortKeyValues(kvs)) && InEntry(kv, c);
      EntryForms(kvs, kv, c);
    case EMethod(_, t, args, _) =>
      SortedIsForm(t);
      SortedAreForms(args);
  }

  lemma ConnectiveForms(k: Connective, c: Par)
    requires InConnective(SortConnective(k).term, c)
    ensures IsForm(c)
  {
    hide IsForm, SortPar, SortPars, NodeScore;
    match k
    case ConnAnd(ps) => SortedAreForms(ps);
    case ConnOr(ps) => SortedAreForms(ps);
    case ConnNot(p) => SortedIsForm(p);
  }

  /** Whatever stands directly inside a canonical form is a canonical form. */
  lemma FormsInside(p: Par, c: Par, at: Place)
    requires Inside(SortPar(p).term, c, at)
    ensures IsForm(c)
  {
    hide IsForm, InSend, InReceive, InNew, InExpr, InMatch, InBundle, InConnective, Sort, NodeScore, Flatten;
    var t := SortPar(p).term;
    if s :| s in t.sends && InSend(s, c, at) {
      var k := FromField(SortSends(p.sends), s);
      SendForms(p.sends[k], c, at);
    } else if r :| r in t.receives && InReceive(r, c, at) {
      var k := FromField(SortReceives(p.receives), r);
      ReceiveForms(p.receives[k], c, at);
    } else if e :| e in t.exprs && at == HERE && InExpr(e, c) {
      var k := FromField(SortExprs(p.exprs), e);
      ExprForms(p.exprs[k], c);
    } else if m :| m in t.matches && InMatch(m, c, at) {
      var k := FromField(SortMatches(p.matches), m);
      MatchForms(p.matches[k], c, at);
    } else if k :| k in t.connectives && at == HERE && InConnective(k, c) {
      var i := FromField(SortConnectives(p.connectives), k);
      ConnectiveForms(p.connectives[i], c);
    } else {
      RestForms(p, c, at);
    }
  }

  lemma RestForms(p: Par, c: Par, at: Place)
    requires || (exists n :: n in SortPar(p).term.news && InNew(n, c, at))
             || (exists b :: b in SortPar(p).term.bundles && at == HERE && InBundle(b, c))
    ensures IsForm(c)
  {
    hide IsForm, Sort, NodeScore, Flatten;
    var t := SortPar(p).term;
    if n :| n in t.news && InNew(n, c, at) {
      var k := FromField(SortNews(p.news), n);
      SortedIsForm(p.news[k].p);
    } else {
      var b :| b in t.bundles && at == HERE && InBundle(b, c);
      var k := FromField(SortBundles(p.bundles), b);
      SortedIsForm(p.bundles[k].body);
    }
  }
}
