/** The normalizer's variable contexts (`rholang/src/compiler.rs`) and the
    evaluator's environment (`rholang/src/env.rs`). Source positions, all equal
    placeholders there, are dropped. */
module Contexts {
  import opened Orders
  import opened Ast
  import opened ProcAst

  datatype BoundContext = BoundContext(index: int, typ: VarSort)

  datatype FreeContext = FreeContext(level: int, typ: VarSort)

  /** Names bound in one scope, each stored with the position at which it was bound. */
  datatype BoundMap = BoundMap(nextIndex: int, bindings: map<Ident, BoundContext>) {

    /** The de Bruijn index: how many binders lie between the name's own and here. */
    function Get(x: Ident): Option<BoundContext> {
      if x in bindings then Some(BoundContext(nextIndex - bindings[x].index - 1, bindings[x].typ)) else None
    }

    function Put(x: Ident, typ: VarSort): BoundMap {
      BoundMap(nextIndex + 1, bindings[x := BoundContext(nextIndex, typ)])
    }

    function PutAll(xs: seq<Ident>, typ: VarSort): BoundMap
      decreases |xs|
    {
      if xs == [] then this else Put(xs[0], typ).PutAll(xs[1..], typ)
    }

    function AbsorbFree(fm: FreeMap): BoundMap {
      BoundMap(
        nextIndex + fm.nextLevel,
        bindings + map x | x in fm.bindings :: BoundContext(fm.bindings[x].level + nextIndex, fm.bindings[x].typ))
    }

    /** Every binding lies among the first `nextIndex` positions. */
    predicate Valid() {
      nextIndex >= 0 && forall x :: x in bindings ==> 0 <= bindings[x].index < nextIndex
    }
  }

  const EmptyBoundMap := BoundMap(0, map[])

  /** Free names of a pattern, each with its level, and the wildcards and connectives met. */
  datatype FreeMap = FreeMap(
    nextLevel: int, bindings: map<Ident, FreeContext>, wildcards: nat, connectives: seq<Connective>)
  {
    function Put(x: Ident, typ: VarSort): FreeMap {
      this.(nextLevel := nextLevel + 1, bindings := bindings[x := FreeContext(nextLevel, typ)])
    }

    function AddWildcard(): FreeMap {
      this.(wildcards := wildcards + 1)
    }

    function AddConnective(c: Connective): FreeMap {
      this.(connectives := connectives + [c])
    }

    predicate Shadows(other: FreeMap) {
      exists x :: x in bindings && x in other.bindings
    }

    /** Append `other`, its levels shifted past ours. */
    function Merge(other: FreeMap): FreeMap {
      FreeMap(
        nextLevel + other.nextLevel,
        bindings + map x | x in other.bindings :: FreeContext(other.bindings[x].level + nextLevel, other.bindings[x].typ),
        wildcards + other.wildcards,
        connectives + other.connectives)
    }

    function Count(): int {
      nextLevel + wildcards + |connectives|
    }

    /** The levels in use are exactly 0 .. nextLevel, one per name. */
    ghost predicate Valid() {
      && nextLevel >= 0
      && (forall x :: x in bindings ==> 0 <= bindings[x].level < nextLevel)
      && (forall x, y :: x in bindings && y in bindings && bindings[x].level == bindings[y].level ==> x == y)
      && (forall l :: 0 <= l < nextLevel ==> HasLevel(l))
    }

    ghost predicate HasLevel(l: int) {
      exists x :: x in bindings && bindings[x].level == l
    }
  }

  const EmptyFreeMap := FreeMap(0, map[], 0, [])

  /** Bound maps of nested patterns, innermost first. */
  type Chain = c: seq<BoundMap> | |c| >= 1 witness [EmptyBoundMap]

  function ChainFind(chain: seq<BoundMap>, x: Ident): Option<(BoundContext, int)> {
    if chain == [] then None
    else if chain[0].Get(x).Some? then Some((chain[0].Get(x).value, 0))
    else
      match ChainFind(chain[1..], x)
      case None => None
      case Some(found) => Some((found.0, found.1 + 1))
  }

  /** The de Bruijn environment: values by position, with a lookup offset. */
  datatype Env<A> = Env(values: map<int, A>, level: int, offset: int) {

    function Put(a: A): Env<A> {
      Env(values[level := a], level + 1, offset)
    }

    function Get(k: int): Option<A> {
      var at := level + offset - k - 1;
      if at in values then Some(values[at]) else None
    }

    function Shift(j: int): Env<A> {
      this.(offset := offset + j)
    }
  }

  function EmptyEnv<A>(): Env<A> {
    Env(map[], 0, 0)
  }

  /** `make_env`: put the values one after another. */
  method MakeEnv<A>(values: seq<A>) returns (env: Env<A>)
    ensures env == EnvOf(values)
  {
    env := EmptyEnv();
    for i := 0 to |values|
      invariant env == EnvOf(values[..i])
    {
      env := env.Put(values[i]);
      assert values[..i + 1][..i] == values[..i];
    }
    assert values[..|values|] == values;
  }

  function EnvOf<A>(values: seq<A>): Env<A> {
    if values == [] then EmptyEnv() else EnvOf(values[..|values| - 1]).Put(values[|values| - 1])
  }

  // ----- the insertion loop of absorb_free and merge

  /** Insert the entries of `extra` one by one, noting the names that were already there. */
  method InsertAll<V>(base: map<Ident, V>, extra: map<Ident, V>) returns (r: map<Ident, V>, shadowed: set<Ident>)
    ensures r == base + extra
    ensures shadowed == base.Keys * extra.Keys
  {
    r := base;
    shadowed := {};
    var todo := extra.Keys;
    while todo != {}
      invariant todo <= extra.Keys && r == base + (extra - todo)
      invariant shadowed == base.Keys * (extra.Keys - todo)
      decreases todo
    {
      var x :| x in todo;
      InsertStep(base, extra, todo, x);
      r := r[x := extra[x]];
      shadowed := if x in base then shadowed + {x} else shadowed;
      todo := todo - {x};
    }
    assert extra - {} == extra;
  }

  lemma InsertStep<V>(base: map<Ident, V>, extra: map<Ident, V>, todo: set<Ident>, x: Ident)
    requires todo <= extra.Keys && x in todo
    ensures base + (extra - (todo - {x})) == (base + (extra - todo))[x := extra[x]]
    ensures base.Keys * (extra.Keys - (todo - {x}))
         == if x in base then base.Keys * (extra.Keys - todo) + {x} else base.Keys * (extra.Keys - todo)
  {
  }

  method AbsorbFreeLoop(bm: BoundMap, fm: FreeMap) returns (r: BoundMap)
    ensures r == bm.AbsorbFree(fm)
  {
    var shifted := map x | x in fm.bindings :: BoundContext(fm.bindings[x].level + bm.nextIndex, fm.bindings[x].typ);
    var bindings, shadowed := InsertAll(bm.bindings, shifted);
    r := BoundMap(bm.nextIndex + fm.nextLevel, bindings);
  }

  method MergeLoop(a: FreeMap, b: FreeMap) returns (r: FreeMap, shadowed: set<Ident>)
    ensures r == a.Merge(b)
    ensures shadowed == a.bindings.Keys * b.bindings.Keys
    ensures shadowed != {} <==> a.Shadows(b)
  {
    var shifted := map x | x in b.bindings :: FreeContext(b.bindings[x].level + a.nextLevel, b.bindings[x].typ);
    var bindings;
    bindings, shadowed := InsertAll(a.bindings, shifted);
    r := FreeMap(a.nextLevel + b.nextLevel, bindings, a.wildcards + b.wildcards, a.connectives + b.connectives);
    assert shifted.Keys == b.bindings.Keys;
    ShadowsIff(a, b);
  }

  lemma ShadowsIff(a: FreeMap, b: FreeMap)
    ensures a.Shadows(b) <==> a.bindings.Keys * b.bindings.Keys != {}
  {
    if a.bindings.Keys * b.bindings.Keys != {} {
      var x :| x in a.bindings.Keys * b.bindings.Keys;
      assert x in a.bindings && x in b.bindings;
    }
    if a.Shadows(b) {
      var x :| x in a.bindings && x in b.bindings;
      assert x in a.bindings.Keys * b.bindings.Keys;
    }
  }
}
