/** What the binding operations keep, and that nameless lookup agrees with named
    lookup: the index a name resolves to reads, from the environment holding
    the values in binding order, the value bound to that name last. */
module ContextLaws {
  import opened Orders
  import opened ProcAst
  import opened Contexts

  // ----- bound maps

  lemma {:induction false} PutAllValid(bm: BoundMap, xs: seq<Ident>, typ: VarSort)
    requires bm.Valid()
    ensures bm.PutAll(xs, typ).Valid()
    ensures bm.PutAll(xs, typ).nextIndex == bm.nextIndex + |xs|
    decreases |xs|
  {
    if xs != [] {
      PutAllValid(bm.Put(xs[0], typ), xs[1..], typ);
    }
  }

  lemma AbsorbValid(bm: BoundMap, fm: FreeMap)
    requires bm.Valid() && fm.Valid()
    ensures bm.AbsorbFree(fm).Valid()
    ensures bm.AbsorbFree(fm).nextIndex == bm.nextIndex + fm.nextLevel
  {
  }

  // ----- free maps: the levels stay a bijection onto 0 .. nextLevel

  lemma EmptyFreeValid()
    ensures EmptyFreeMap.Valid()
  {
  }

  lemma FreePutValid(fm: FreeMap, x: Ident, typ: VarSort)
    requires fm.Valid() && x !in fm.bindings
    ensures fm.Put(x, typ).Valid()
  {
    var r := fm.Put(x, typ);
    forall l | 0 <= l < r.nextLevel ensures r.HasLevel(l) {
      if l == fm.nextLevel {
        assert x in r.bindings && r.bindings[x].level == l;
      } else {
        assert fm.HasLevel(l);
        var y :| y in fm.bindings && fm.bindings[y].level == l;
        assert y in r.bindings && r.bindings[y].level == l;
      }
    }
  }

  lemma FreeMergeValid(a: FreeMap, b: FreeMap)
    requires a.Valid() && b.Valid() && !a.Shadows(b)
    ensures a.Merge(b).Valid()
  {
    var r := a.Merge(b);
    forall l | 0 <= l < r.nextLevel ensures r.HasLevel(l) {
      if l < a.nextLevel {
        assert a.HasLevel(l);
        var y :| y in a.bindings && a.bindings[y].level == l;
        assert y in r.bindings && r.bindings[y].level == l;
      } else {
        assert b.HasLevel(l - a.nextLevel);
        var y :| y in b.bindings && b.bindings[y].level == l - a.nextLevel;
        assert y in r.bindings && r.bindings[y].level == l;
      }
    }
  }

  lemma NoBindingsNoLevels(fm: FreeMap)
    requires fm.Valid() && fm.bindings == map[]
    ensures fm.nextLevel == 0
  {
    assert fm.nextLevel > 0 ==> fm.HasLevel(0);
  }

  // ----- nameless against named lookup

  /** One step of extending a scope. */
  datatype Step = PutOne(x: Ident, typ: VarSort) | PutMany(xs: seq<Ident>, typ: VarSort) | Absorb(fm: FreeMap)

  ghost predicate ValidSteps(steps: seq<Step>) {
    forall i :: 0 <= i < |steps| && steps[i].Absorb? ==> steps[i].fm.Valid()
  }

  function Extend(bm: BoundMap, s: Step): BoundMap {
    match s
    case PutOne(x, typ) => bm.Put(x, typ)
    case PutMany(xs, typ) => bm.PutAll(xs, typ)
    case Absorb(fm) => bm.AbsorbFree(fm)
  }

  /** The scope after all steps. */
  function RunSteps(steps: seq<Step>): BoundMap {
    if steps == [] then EmptyBoundMap else Extend(RunSteps(steps[..|steps| - 1]), steps[|steps| - 1])
  }

  ghost function NameAtLevel(fm: FreeMap, l: int): (x: Ident)
    requires fm.Valid() && 0 <= l < fm.nextLevel
    ensures x in fm.bindings && fm.bindings[x].level == l
  {
    assert fm.HasLevel(l);
    var x :| x in fm.bindings && fm.bindings[x].level == l;
    x
  }

  /** The names a step binds, in the order in which their values are supplied. */
  ghost function NamesOf(s: Step): (r: seq<Ident>)
    requires s.Absorb? ==> s.fm.Valid()
  {
    match s
    case PutOne(x, _) => [x]
    case PutMany(xs, _) => xs
    case Absorb(fm) => seq(fm.nextLevel, l requires 0 <= l < fm.nextLevel => NameAtLevel(fm, l))
  }

  ghost function BindingOrder(steps: seq<Step>): seq<Ident>
    requires ValidSteps(steps)
  {
    if steps == [] then [] else BindingOrder(steps[..|steps| - 1]) + NamesOf(steps[|steps| - 1])
  }

  /** Every name in `bm` sits at its last position in `names`. */
  ghost predicate Tracks(bm: BoundMap, names: seq<Ident>) {
    && bm.nextIndex == |names|
    && (forall x :: x in bm.bindings <==> x in names)
    && (forall x :: x in bm.bindings ==> LastAt(names, x, bm.bindings[x].index))
  }

  lemma TracksPut(bm: BoundMap, names: seq<Ident>, x: Ident, typ: VarSort)
    requires Tracks(bm, names)
    ensures Tracks(bm.Put(x, typ), names + [x])
  {
  }

  lemma {:induction false} TracksPutAll(bm: BoundMap, names: seq<Ident>, xs: seq<Ident>, typ: VarSort)
    requires Tracks(bm, names)
    ensures Tracks(bm.PutAll(xs, typ), names + xs)
    decreases |xs|
  {
    if xs == [] {
      assert names + xs == names;
    } else {
      TracksPut(bm, names, xs[0], typ);
      TracksPutAll(bm.Put(xs[0], typ), names + [xs[0]], xs[1..], typ);
      assert names + [xs[0]] + xs[1..] == names + xs;
    }
  }

  /** `added` lists the names of `fm` by level. */
  ghost predicate ByLevel(fm: FreeMap, added: seq<Ident>) {
    && |added| == fm.nextLevel
    && (forall l :: 0 <= l < |added| ==> added[l] in fm.bindings && fm.bindings[added[l]].level == l)
    && (forall x :: x in fm.bindings ==> 0 <= fm.bindings[x].level < |added| && added[fm.bindings[x].level] == x)
  }

  lemma NamesByLevel(fm: FreeMap)
    requires fm.Valid()
    ensures ByLevel(fm, NamesOf(Absorb(fm)))
  {
  }

  lemma TracksOverlay(bm: BoundMap, names: seq<Ident>, fm: FreeMap, added: seq<Ident>)
    requires Tracks(bm, names) && ByLevel(fm, added)
    ensures Tracks(bm.AbsorbFree(fm), names + added)
  {
    var r, all := bm.AbsorbFree(fm), names + added;
    forall x ensures x in r.bindings <==> x in all {
      if x in fm.bindings {
        assert all[|names| + fm.bindings[x].level] == x;
      }
    }
    forall x | x in r.bindings ensures LastAt(all, x, r.bindings[x].index) {
    }
  }

  lemma TracksAbsorb(bm: BoundMap, names: seq<Ident>, fm: FreeMap)
    requires Tracks(bm, names) && fm.Valid()
    ensures Tracks(bm.AbsorbFree(fm), names + NamesOf(Absorb(fm)))
  {
    hide Tracks, NamesOf;
    NamesByLevel(fm);
    TracksOverlay(bm, names, fm, NamesOf(Absorb(fm)));
  }

  lemma {:induction false} TracksRun(steps: seq<Step>)
    requires ValidSteps(steps)
    ensures Tracks(RunSteps(steps), BindingOrder(steps))
  {
    if steps != [] {
      var init, last := steps[..|steps| - 1], steps[|steps| - 1];
      TracksRun(init);
      match last
      case PutOne(x, typ) => TracksPut(RunSteps(init), BindingOrder(init), x, typ);
      case PutMany(xs, typ) => TracksPutAll(RunSteps(init), BindingOrder(init), xs, typ);
      case Absorb(fm) => TracksAbsorb(RunSteps(init), BindingOrder(init), fm);
    }
  }

  lemma {:induction false} EnvReads<A>(values: seq<A>)
    ensures EnvOf(values).level == |values| && EnvOf(values).offset == 0
    ensures forall i :: i in EnvOf(values).values <==> 0 <= i < |values|
    ensures forall i :: 0 <= i < |values| ==> EnvOf(values).values[i] == values[i]
  {
    if values != [] {
      EnvReads(values[..|values| - 1]);
    }
  }

  /** The index of a name reads the value bound to it last; unbound names resolve to nothing. */
  lemma NamelessLookup<A>(steps: seq<Step>, values: seq<A>, x: Ident)
    requires ValidSteps(steps) && |values| == |BindingOrder(steps)|
    ensures RunSteps(steps).Get(x).Some? <==> x in BindingOrder(steps)
    ensures RunSteps(steps).Get(x).Some? ==>
              exists i :: LastAt(BindingOrder(steps), x, i)
                          && EnvOf(values).Get(RunSteps(steps).Get(x).value.index) == Some(values[i])
  {
    hide RunSteps, BindingOrder, EnvOf;
    TracksRun(steps);
    EnvReads(values);
    var bm := RunSteps(steps);
    if x in bm.bindings {
      var i := bm.bindings[x].index;
      assert LastAt(BindingOrder(steps), x, i);
      assert EnvOf(values).Get(bm.Get(x).value.index) == Some(values[i]);
    }
  }

  /** Shifting an environment by `j` renumbers every index by `j`. */
  lemma ShiftRenumbers<A>(env: Env<A>, j: int, k: int)
    ensures env.Shift(j).Get(k + j) == env.Get(k)
  {
  }
}
