/** Twist histories and their Pauli fold (`qucalc/src/lib.rs`). Every fold is one of
    sixteen matrices, a unit phase times a Pauli matrix, so the exact integer matrices are
    tracked by a small group whose axis part records only parities. */
module Pauli {
  import opened Orders

  type Twist = t: int | 0 <= t < 256 witness 0

  datatype Complex = Complex(re: int, im: int)

  /** [[a, b], [c, d]] */
  datatype Matrix = Matrix(a: Complex, b: Complex, c: Complex, d: Complex)

  function CMul(x: Complex, y: Complex): Complex {
    Complex(x.re * y.re - x.im * y.im, x.re * y.im + x.im * y.re)
  }

  function CAdd(x: Complex, y: Complex): Complex {
    Complex(x.re + y.re, x.im + y.im)
  }

  function Mul(m: Matrix, n: Matrix): Matrix {
    Matrix(CAdd(CMul(m.a, n.a), CMul(m.b, n.c)), CAdd(CMul(m.a, n.b), CMul(m.b, n.d)),
           CAdd(CMul(m.c, n.a), CMul(m.d, n.c)), CAdd(CMul(m.c, n.b), CMul(m.d, n.d)))
  }

  const Zero := Complex(0, 0)
  const One := Complex(1, 0)
  const MinusOne := Complex(-1, 0)
  const Imag := Complex(0, 1)
  const MinusImag := Complex(0, -1)

  const Identity := Matrix(One, Zero, Zero, One)

  function TwistMatrix(t: Twist): Matrix {
    match t
    case 0 => Matrix(Zero, MinusImag, Imag, Zero)
    case 1 => Matrix(Zero, Imag, MinusImag, Zero)
    case 2 => Matrix(Zero, One, One, Zero)
    case 3 => Matrix(Zero, MinusOne, MinusOne, Zero)
    case 4 => Matrix(One, Zero, Zero, MinusOne)
    case 5 => Matrix(MinusOne, Zero, Zero, One)
    case 6 => Identity
    case 7 => Matrix(MinusOne, Zero, Zero, MinusOne)
    case _ => Identity
  }

  /** The matrix product of a history, left to right. */
  function PauliFold(ts: seq<Twist>): Matrix {
    if ts == [] then Identity else Mul(PauliFold(ts[..|ts| - 1]), TwistMatrix(ts[|ts| - 1]))
  }

  datatype Phase = PlusI | MinusI | PlusImagI | MinusImagI {
    function AsComplex(): Complex {
      match this
      case PlusI => One
      case MinusI => MinusOne
      case PlusImagI => Imag
      case MinusImagI => MinusImag
    }

    function Opposite(): Phase {
      match this
      case PlusI => MinusI
      case MinusI => PlusI
      case PlusImagI => MinusImagI
      case MinusImagI => PlusImagI
    }
  }

  /** The scalar phase of a fold, if it is a scalar. */
  function PhaseOf(m: Matrix): Option<Phase> {
    if m.b != Zero || m.c != Zero || m.a != m.d then None
    else if m.a == One then Some(PlusI)
    else if m.a == MinusOne then Some(MinusI)
    else if m.a == Imag then Some(PlusImagI)
    else if m.a == MinusImag then Some(MinusImagI)
    else None
  }

  function PauliPhase(ts: seq<Twist>): Option<Phase> {
    PhaseOf(PauliFold(ts))
  }

  predicate PauliClosed(ts: seq<Twist>) {
    PauliPhase(ts).Some?
  }

  /** Positive minus negative twists. */
  function Balance(ts: seq<Twist>): int {
    if ts == [] then 0 else Balance(ts[..|ts| - 1]) + (if ts[|ts| - 1] % 2 == 0 then 1 else -1)
  }

  predicate CountBalanced(ts: seq<Twist>) {
    Balance(ts) == 0
  }

  predicate AchievesZfa(ts: seq<Twist>) {
    PauliClosed(ts) && CountBalanced(ts)
  }

  // ----- the sixteen matrices

  /** `i` to the power `turns`, times I, X, Y or Z: the axis is X or Y when `x`, Y or Z when `z`. */
  datatype Element = Element(turns: int, x: bool, z: bool)

  function Unit(turns: int): Complex {
    match turns % 4
    case 0 => One
    case 1 => Imag
    case 2 => MinusOne
    case _ => MinusImag
  }

  function Axis(x: bool, z: bool): Matrix {
    if x && z then Matrix(Zero, MinusImag, Imag, Zero)
    else if x then Matrix(Zero, One, One, Zero)
    else if z then Matrix(One, Zero, Zero, MinusOne)
    else Identity
  }

  function Scaled(u: Complex, m: Matrix): Matrix {
    Matrix(CMul(u, m.a), CMul(u, m.b), CMul(u, m.c), CMul(u, m.d))
  }

  function AsMatrix(e: Element): Matrix {
    Scaled(Unit(e.turns), Axis(e.x, e.z))
  }

  /** The quarter turns gained by multiplying two axes: XY = iZ, YZ = iX, ZX = iY, and back. */
  function Twisted(x: bool, z: bool, x': bool, z': bool): int {
    if (x, z) == (x', z') || !(x || z) || !(x' || z') then 0
    else if (x && !z && x' && z') || (x && z && !x' && z') || (!x && z && x' && !z') then 1
    else 3
  }

  function Times(e: Element, f: Element): Element {
    Element((e.turns + f.turns + Twisted(e.x, e.z, f.x, f.z)) % 4, e.x != f.x, e.z != f.z)
  }

  function Generator(t: Twist): Element {
    match t
    case 0 => Element(0, true, true)
    case 1 => Element(2, true, true)
    case 2 => Element(0, true, false)
    case 3 => Element(2, true, false)
    case 4 => Element(0, false, true)
    case 5 => Element(2, false, true)
    case 7 => Element(2, false, false)
    case _ => Element(0, false, false)
  }

  function Shape(ts: seq<Twist>): Element {
    if ts == [] then Element(0, false, false) else Times(Shape(ts[..|ts| - 1]), Generator(ts[|ts| - 1]))
  }

  function Neg(u: Complex): Complex { Complex(-u.re, -u.im) }

  function Turn(u: Complex): Complex { Complex(-u.im, u.re) }

  lemma ByConstant(u: Complex)
    ensures CMul(u, Zero) == Zero && CMul(Zero, u) == Zero && CMul(u, One) == u
    ensures CMul(u, MinusOne) == Neg(u) && CMul(u, Imag) == Turn(u) && CMul(u, MinusImag) == Neg(Turn(u))
    ensures CAdd(u, Zero) == u && CAdd(Zero, u) == u
    ensures Neg(Neg(u)) == u && Turn(Turn(u)) == Neg(u) && Neg(Turn(u)) == Turn(Neg(u)) && Neg(Zero) == Zero == Turn(Zero)
  {
  }

  lemma NegOut(u: Complex, v: Complex)
    ensures CMul(Neg(u), v) == Neg(CMul(u, v)) && CMul(u, Neg(v)) == Neg(CMul(u, v))
  {
  }

  lemma TurnOut(u: Complex, v: Complex)
    ensures CMul(Turn(u), v) == Turn(CMul(u, v)) && CMul(u, Turn(v)) == Turn(CMul(u, v))
  {
  }

  ghost predicate Constants(w: Complex) {
    && CMul(w, Zero) == Zero == CMul(Zero, w)
    && CMul(w, One) == w && CMul(w, MinusOne) == Neg(w)
    && CMul(w, Imag) == Turn(w) && CMul(w, MinusImag) == Neg(Turn(w))
    && CAdd(w, Zero) == w == CAdd(Zero, w)
  }

  lemma TurnLaws(u: Complex)
    ensures Neg(Neg(u)) == u && Turn(Turn(u)) == Neg(u) && Turn(Neg(u)) == Neg(Turn(u))
    ensures Neg(Neg(Turn(u))) == Turn(u) && Turn(Neg(Turn(u))) == u
  {
  }

  /** The four values of `u` up to a quarter turn, against the constants. */
  lemma TurnsByConstant(u: Complex)
    ensures Constants(u) && Constants(Neg(u)) && Constants(Turn(u)) && Constants(Neg(Turn(u)))
  {
    hide CMul, CAdd, Neg, Turn;
    ByConstant(u);
    ByConstant(Neg(u));
    ByConstant(Turn(u));
    ByConstant(Neg(Turn(u)));
  }

  lemma TurnsTimes(u: Complex, v: Complex)
    ensures CMul(u, Neg(v)) == CMul(Neg(u), v) == Neg(CMul(u, v))
    ensures CMul(u, Turn(v)) == CMul(Turn(u), v) == Turn(CMul(u, v))
    ensures CMul(u, Neg(Turn(v))) == CMul(Neg(Turn(u)), v) == Neg(Turn(CMul(u, v)))
    ensures CMul(Neg(u), Turn(v)) == CMul(Turn(u), Neg(v)) == Neg(Turn(CMul(u, v)))
    ensures CMul(Neg(u), Neg(v)) == CMul(u, v)
    ensures CMul(Turn(u), Turn(v)) == Neg(CMul(u, v))
    ensures CMul(Turn(u), Neg(Turn(v))) == CMul(Neg(Turn(u)), Turn(v)) == CMul(u, v)
    ensures CMul(Neg(u), Neg(Turn(v))) == CMul(Neg(Turn(u)), Neg(v)) == Turn(CMul(u, v))
    ensures CMul(Neg(Turn(u)), Neg(Turn(v))) == Neg(CMul(u, v))
  {
    hide CMul;
    NegOut(u, v); TurnOut(u, v);
    NegOut(Turn(u), v); TurnOut(Neg(u), v);
    NegOut(u, Turn(v)); TurnOut(u, Neg(v));
    NegOut(Turn(u), Turn(v)); TurnOut(Turn(u), v); TurnOut(u, Turn(v)); NegOut(Neg(u), v); NegOut(u, Neg(v));
    NegOut(Neg(Turn(u)), Turn(v)); NegOut(Turn(u), Neg(Turn(v)));
    TurnOut(Neg(Turn(u)), v); TurnOut(u, Neg(Turn(v))); NegOut(Neg(Turn(u)), v); NegOut(u, Neg(Turn(v)));
  }

  lemma AxesTimes(u: Complex, v: Complex, x: bool, z: bool, x': bool, z': bool)
    ensures Mul(Scaled(u, Axis(x, z)), Scaled(v, Axis(x', z')))
         == Scaled(CMul(CMul(u, v), Unit(Twisted(x, z, x', z'))), Axis(x != x', z != z'))
  {
    hide CMul, CAdd, Neg, Turn;
    ByConstant(Zero);
    TurnLaws(u);
    TurnLaws(v);
    TurnLaws(CMul(u, v));
    TurnsByConstant(u);
    TurnsByConstant(v);
    TurnsByConstant(CMul(u, v));
    TurnsTimes(u, v);
  }

  lemma UnitTimes(m: int, n: int)
    ensures CMul(Unit(m), Unit(n)) == Unit(m + n)
  {
    hide CMul, Neg, Turn;
    ByConstant(Unit(m));
    UnitsTurn();
    SumOfRemainders(m, n);
  }

  lemma TurnTo(u: Complex, v: Complex)
    requires v.re == -u.im && v.im == u.re
    ensures Turn(u) == v
  {
  }

  lemma NegTo(u: Complex, v: Complex)
    requires v.re == -u.re && v.im == -u.im
    ensures Neg(u) == v
  {
  }

  lemma UnitsTurn()
    ensures Turn(One) == Imag && Neg(One) == MinusOne && Turn(MinusOne) == MinusImag && Neg(Imag) == MinusImag
    ensures Turn(Imag) == MinusOne && Turn(MinusImag) == One && Neg(MinusOne) == One && Neg(MinusImag) == Imag
    ensures Neg(Zero) == Zero
  {
    hide Neg, Turn;
    TurnTo(One, Imag); TurnTo(Imag, MinusOne); TurnTo(MinusOne, MinusImag); TurnTo(MinusImag, One);
    NegTo(One, MinusOne); NegTo(MinusOne, One); NegTo(Imag, MinusImag); NegTo(MinusImag, Imag); NegTo(Zero, Zero);
  }

  lemma SumOfRemainders(m: int, n: int)
    ensures (m + n) % 4 == (m % 4 + n % 4) % 4
  {
  }

  /** Matrix product is the group operation. */
  lemma MulIsTimes(e: Element, f: Element)
    ensures Mul(AsMatrix(e), AsMatrix(f)) == AsMatrix(Times(e, f))
  {
    hide CMul, Mul, Scaled, Axis, Unit, Twisted;
    var k := Twisted(e.x, e.z, f.x, f.z);
    AxesTimes(Unit(e.turns), Unit(f.turns), e.x, e.z, f.x, f.z);
    UnitTimes(e.turns, f.turns);
    UnitTimes(e.turns + f.turns, k);
    UnitPeriod(e.turns + f.turns + k);
  }

  lemma UnitPeriod(n: int)
    ensures Unit(n % 4) == Unit(n)
  {
  }

  lemma GeneratorIsTwist(t: Twist)
    ensures AsMatrix(Generator(t)) == TwistMatrix(t)
  {
    hide CMul, Neg, Turn;
    UnitsTurn();
    UnitLeft(Zero);
    UnitLeft(One);
    UnitLeft(MinusOne);
    UnitLeft(Imag);
    UnitLeft(MinusImag);
  }

  lemma UnitLeft(u: Complex)
    ensures CMul(One, u) == u && CMul(MinusOne, u) == Neg(u)
  {
  }

  lemma TimesAssociative(e: Element, f: Element, g: Element)
    ensures Times(Times(e, f), g) == Times(e, Times(f, g))
  {
    hide Twisted;
    var ef, fg := Times(e, f), Times(f, g);
    var t, u := Twisted(e.x, e.z, f.x, f.z), Twisted(ef.x, ef.z, g.x, g.z);
    var v, w := Twisted(f.x, f.z, g.x, g.z), Twisted(e.x, e.z, fg.x, fg.z);
    TwistsAgree(e.x, e.z, f.x, f.z, g.x, g.z);
    QuarterTurns(e.turns + f.turns + t, g.turns + u);
    QuarterTurns(f.turns + g.turns + v, e.turns + w);
    QuarterTurns(t + u, e.turns + f.turns + g.turns);
    QuarterTurns(v + w, e.turns + f.turns + g.turns);
  }

  /** Twisting the first two and then the third turns as much as twisting the last two first. */
  lemma TwistsAgree(x: bool, z: bool, x': bool, z': bool, x'': bool, z'': bool)
    ensures (Twisted(x, z, x', z') + Twisted(x != x', z != z', x'', z'')) % 4
         == (Twisted(x', z', x'', z'') + Twisted(x, z, x' != x'', z' != z'')) % 4
  {
    if x { if z { } else { } } else { if z { } else { } }
  }

  lemma QuarterTurns(a: int, b: int)
    ensures (a % 4 + b) % 4 == (a + b) % 4
  {
  }

  /** How many twists are positive. */
  function Positives(ts: seq<Twist>): nat {
    if ts == [] then 0 else Positives(ts[1..]) + (if ts[0] % 2 == 0 then 1 else 0)
  }

  lemma {:induction false} PositivesAppend(ts: seq<Twist>, t: Twist)
    ensures Positives(ts + [t]) == Positives(ts) + (if t % 2 == 0 then 1 else 0)
  {
    if ts == [] {
      assert [t][1..] == [];
    } else {
      PositivesAppend(ts[1..], t);
      assert (ts + [t])[1..] == ts[1..] + [t];
    }
  }

  lemma {:induction false} BalanceCounts(ts: seq<Twist>)
    ensures Balance(ts) == 2 * Positives(ts) - |ts|
  {
    if ts != [] {
      var init, last := ts[..|ts| - 1], ts[|ts| - 1];
      BalanceCounts(init);
      PositivesAppend(init, last);
      assert ts == init + [last];
    }
  }

  /** Every fold is a unit phase times one Pauli matrix. */
  lemma {:induction false} FoldIsShape(ts: seq<Twist>)
    ensures PauliFold(ts) == AsMatrix(Shape(ts))
  {
    hide CMul, Mul, Times, Generator, TwistMatrix, Neg, Turn;
    UnitLeft(One);
    UnitLeft(Zero);
    if ts != [] {
      FoldIsShape(ts[..|ts| - 1]);
      GeneratorIsTwist(ts[|ts| - 1]);
      MulIsTimes(Shape(ts[..|ts| - 1]), Generator(ts[|ts| - 1]));
    }
  }

  /** Concatenating histories multiplies their folds. */
  lemma {:induction false} ShapeConcat(s: seq<Twist>, t: seq<Twist>)
    ensures Shape(s + t) == Times(Shape(s), Shape(t))
    decreases |t|
  {
    if t == [] {
      assert s + t == s;
      ShapeReduced(s);
    } else {
      var init, last := t[..|t| - 1], t[|t| - 1];
      assert (s + t)[..|s + t| - 1] == s + init;
      ShapeConcat(s, init);
      TimesAssociative(Shape(s), Shape(init), Generator(last));
    }
  }

  lemma ShapeReduced(ts: seq<Twist>)
    ensures 0 <= Shape(ts).turns < 4
  {
  }

  lemma FoldConcat(s: seq<Twist>, t: seq<Twist>)
    ensures PauliFold(s + t) == Mul(PauliFold(s), PauliFold(t))
  {
    hide Mul, AsMatrix, Times, Shape;
    FoldIsShape(s + t);
    FoldIsShape(s);
    FoldIsShape(t);
    ShapeConcat(s, t);
    MulIsTimes(Shape(s), Shape(t));
  }

  /** Entries of a fold never leave -1, 0, 1. */
  predicate SmallEntry(u: Complex) {
    -1 <= u.re <= 1 && -1 <= u.im <= 1
  }

  lemma FoldEntries(ts: seq<Twist>)
    ensures var m := PauliFold(ts); SmallEntry(m.a) && SmallEntry(m.b) && SmallEntry(m.c) && SmallEntry(m.d)
  {
    hide PauliFold, Shape;
    FoldIsShape(ts);
    ElementMatrix(Shape(ts));
  }

  /** The matrix of an element: scalar exactly on the identity axis, and then of the element's own phase. */
  lemma ElementMatrix(e: Element)
    ensures var m := AsMatrix(e); SmallEntry(m.a) && SmallEntry(m.b) && SmallEntry(m.c) && SmallEntry(m.d)
    ensures PhaseOf(AsMatrix(e)).Some? <==> !e.x && !e.z
    ensures !e.x && !e.z ==> PhaseOf(AsMatrix(e)).value.AsComplex() == Unit(e.turns)
  {
    hide CMul, Neg, Turn;
    ByConstant(Unit(e.turns));
    UnitsTurn();
  }

  // ----- closure is a matter of parity

  function Count(ts: seq<Twist>, t: Twist): nat {
    multiset(ts)[t]
  }

  predicate Odd(n: int) { n % 2 == 1 }

  lemma CountStep(ts: seq<Twist>, last: Twist, t: Twist)
    ensures Count(ts + [last], t) == Count(ts, t) + (if t == last then 1 else 0)
  {
  }

  lemma OddNext(n: int)
    ensures Odd(n + 1) == !Odd(n)
  {
  }

  /** The axis of a fold records the parities of the x, y and z twists. */
  lemma {:induction false} AxisIsParity(ts: seq<Twist>)
    ensures Shape(ts).x == Odd(Count(ts, 0) + Count(ts, 1) + Count(ts, 2) + Count(ts, 3))
    ensures Shape(ts).z == Odd(Count(ts, 0) + Count(ts, 1) + Count(ts, 4) + Count(ts, 5))
  {
    if ts != [] {
      hide Count, Odd, Twisted;
      var init, last := ts[..|ts| - 1], ts[|ts| - 1];
      assert ts == init + [last];
      AxisIsParity(init);
      CountStep(init, last, 0); CountStep(init, last, 1); CountStep(init, last, 2);
      CountStep(init, last, 3); CountStep(init, last, 4); CountStep(init, last, 5);
      OddNext(Count(init, 0) + Count(init, 1) + Count(init, 2) + Count(init, 3));
      OddNext(Count(init, 0) + Count(init, 1) + Count(init, 4) + Count(init, 5));
    }
  }

  /** A history is Pauli-closed exactly when its x, y and z twist counts have equal parity. */
  lemma ClosedIffParity(ts: seq<Twist>)
    ensures PauliClosed(ts) <==>
              && Odd(Count(ts, 0) + Count(ts, 1)) == Odd(Count(ts, 2) + Count(ts, 3))
              && Odd(Count(ts, 0) + Count(ts, 1)) == Odd(Count(ts, 4) + Count(ts, 5))
  {
    hide PauliFold, Shape, Count, AsMatrix;
    FoldIsShape(ts);
    ElementMatrix(Shape(ts));
    AxisIsParity(ts);
  }

  /** ZFA by counting: equal parity on the three axes, and half of the twists positive. */
  lemma ZfaIff(ts: seq<Twist>)
    ensures AchievesZfa(ts) <==>
              && Odd(Count(ts, 0) + Count(ts, 1)) == Odd(Count(ts, 2) + Count(ts, 3)) == Odd(Count(ts, 4) + Count(ts, 5))
              && 2 * Positives(ts) == |ts|
  {
    hide PauliClosed, Positives, Count, Balance;
    ClosedIffParity(ts);
    BalanceCounts(ts);
  }

  /** Closure does not depend on the order of the twists. */
  lemma ClosedUnderPermutation(s: seq<Twist>, t: seq<Twist>)
    requires multiset(s) == multiset(t)
    ensures PauliClosed(s) == PauliClosed(t)
  {
    hide PauliClosed;
    ClosedIffParity(s);
    ClosedIffParity(t);
  }

  // ----- the phase by counting

  /** x before y before z; the gauge twists have no axis. */
  function Rank(t: Twist): int {
    if t == 2 || t == 3 then 1 else if t == 0 || t == 1 then 2 else if t == 4 || t == 5 then 3 else 0
  }

  /** 1 for a negative twist; codes above 7 are no twists and fold as the identity. */
  function Sign(t: Twist): nat { if t < 8 then t % 2 else 0 }

  function Negatives(ts: seq<Twist>): nat {
    if ts == [] then 0 else Negatives(ts[..|ts| - 1]) + Sign(ts[|ts| - 1])
  }

  function OnAxis(ts: seq<Twist>, r: int): nat {
    if ts == [] then 0 else OnAxis(ts[..|ts| - 1], r) + (if Rank(ts[|ts| - 1]) == r then 1 else 0)
  }

  /** Pairs of twists that stand in the wrong order of their axes. */
  function Inversions(ts: seq<Twist>): nat {
    if ts == [] then 0
    else
      var init, r := ts[..|ts| - 1], Rank(ts[|ts| - 1]);
      Inversions(init)
      + (if r == 1 then OnAxis(init, 2) + OnAxis(init, 3) else if r == 2 then OnAxis(init, 3) else 0)
  }

  /** x, y and z, each once or not at all, in that order: XY = iZ, YZ = iX, XZ = -iY and XYZ = i. */
  function InOrder(a: bool, b: bool, c: bool): Element {
    Element(if b && (a || c) then 1 else if a && c then 3 else 0, a != b, b != c)
  }

  lemma GeneratorAxis(t: Twist)
    ensures var r := Rank(t); Generator(t) == Element(2 * Sign(t), r == 1 || r == 2, r == 2 || r == 3)
  {
  }

  function Passed(b: bool, c: bool, r: int): int {
    if r == 1 then Bit(b) + Bit(c) else if r == 2 then Bit(c) else 0
  }

  /** One more axis behind what stands in order: passing each later axis costs half a turn. */
  lemma AxisBehind(a: bool, b: bool, c: bool, r: int)
    requires 0 <= r <= 3
    ensures Times(InOrder(a, b, c), Element(0, r == 1 || r == 2, r == 2 || r == 3))
         == HalfTurned(InOrder(a != (r == 1), b != (r == 2), c != (r == 3)), Passed(b, c, r))
  {
    if r == 0 {
    } else if r == 1 {
      if a { if b { } else { } } else { if b { } else { } }
    } else if r == 2 {
      if a { if b { } else { } } else { if b { } else { } }
    } else {
      if a { if b { } else { } } else { if b { } else { } }
    }
  }

  lemma TurnsCarry(e: Element, k: int, s: int, x: bool, z: bool)
    ensures Times(HalfTurned(e, k), Element(2 * s, x, z)) == HalfTurned(Times(e, Element(0, x, z)), k + s)
  {
    hide Twisted;
    var w := Twisted(e.x, e.z, x, z);
    QuarterTurns(e.turns + 2 * k, 2 * s + w);
    QuarterTurns(e.turns + w, 2 * (k + s));
  }

  lemma OneMore(a: bool, b: bool, c: bool, k: int, t: Twist)
    ensures var r := Rank(t);
            Times(HalfTurned(InOrder(a, b, c), k), Generator(t))
            == HalfTurned(InOrder(a != (r == 1), b != (r == 2), c != (r == 3)), k + Sign(t) + Passed(b, c, r))
  {
    hide Times, Generator, InOrder;
    var r := Rank(t);
    GeneratorAxis(t);
    TurnsCarry(InOrder(a, b, c), k, Sign(t), r == 1 || r == 2, r == 2 || r == 3);
    AxisBehind(a, b, c, r);
    var e := InOrder(a != (r == 1), b != (r == 2), c != (r == 3));
    QuarterTurns(e.turns + 2 * Passed(b, c, r), 2 * (k + Sign(t)));
  }

  function Bit(b: bool): int { if b then 1 else 0 }

  function HalfTurned(e: Element, k: int): Element {
    Element((e.turns + 2 * k) % 4, e.x, e.z)
  }

  lemma SameHalfTurns(e: Element, k: int, n: int)
    requires (k - n) % 2 == 0
    ensures HalfTurned(e, k) == HalfTurned(e, n)
  {
    assert 2 * k == 2 * n + 4 * ((k - n) / 2);
  }

  lemma {:induction false} ShapeByCounting(ts: seq<Twist>)
    ensures Shape(ts) == HalfTurned(InOrder(Odd(OnAxis(ts, 1)), Odd(OnAxis(ts, 2)), Odd(OnAxis(ts, 3))),
                                    Negatives(ts) + Inversions(ts))
  {
    hide Times, Generator, HalfTurned, InOrder, Rank;
    if ts == [] {
      NothingTurned();
    } else {
      var init, t := ts[..|ts| - 1], ts[|ts| - 1];
      ShapeByCounting(init);
      var a, b, c, k := Odd(OnAxis(init, 1)), Odd(OnAxis(init, 2)), Odd(OnAxis(init, 3)), Negatives(init) + Inversions(init);
      OneMore(a, b, c, k, t);
      CountsStep(ts);
      SameHalfTurns(InOrder(Odd(OnAxis(ts, 1)), Odd(OnAxis(ts, 2)), Odd(OnAxis(ts, 3))),
                    k + Sign(t) + Passed(b, c, Rank(t)), Negatives(ts) + Inversions(ts));
    }
  }

  lemma CountsStep(ts: seq<Twist>)
    requires ts != []
    ensures var init, t := ts[..|ts| - 1], ts[|ts| - 1];
            var b, c := Odd(OnAxis(init, 2)), Odd(OnAxis(init, 3));
            && (forall r :: Odd(OnAxis(ts, r)) == (Odd(OnAxis(init, r)) != (Rank(t) == r)))
            && (Negatives(init) + Inversions(init) + Sign(t) + Passed(b, c, Rank(t)) - (Negatives(ts) + Inversions(ts))) % 2 == 0
  {
    hide Rank;
  }

  lemma NothingTurned()
    ensures Element(0, false, false) == HalfTurned(InOrder(false, false, false), 0)
  {
  }

  /** The phase of a closed history: half a turn for every negative twist and every inversion, and a quarter turn
      more when every axis occurs an odd number of times. */
  lemma PhaseByCounting(ts: seq<Twist>)
    requires PauliClosed(ts)
    ensures PauliPhase(ts).value.AsComplex()
         == Unit(2 * (Negatives(ts) + Inversions(ts)) + (if Odd(OnAxis(ts, 1)) then 1 else 0))
  {
    hide PauliFold, AsMatrix, Shape, PhaseOf, Unit;
    var e := Shape(ts);
    FoldIsShape(ts);
    ElementMatrix(e);
    ShapeByCounting(ts);
    var k := Negatives(ts) + Inversions(ts);
    assert e.turns == ((if Odd(OnAxis(ts, 1)) then 1 else 0) + 2 * k) % 4;
    UnitReduced(2 * k + (if Odd(OnAxis(ts, 1)) then 1 else 0));
  }

  lemma UnitReduced(n: int)
    ensures Unit(n % 4) == Unit(n)
  {
  }

  /** x, y, z in that order close with a quarter turn; backwards with three. */
  lemma AxesInOrderTurn(ts: seq<Twist>)
    requires ts == [2, 0, 4] || ts == [4, 0, 2]
    ensures PauliPhase(ts).Some? && PauliPhase(ts).value.AsComplex() == if ts[0] == 2 then Imag else MinusImag
  {
    hide PauliFold, Unit;
    CountThree(ts);
    ClosedByCounting(ts);
    PhaseByCounting(ts);
    UnitReduced(7);
    UnitTable();
  }

  lemma UnitTable()
    ensures Unit(1) == Imag && Unit(3) == MinusImag
  {
  }

  lemma CountThree(ts: seq<Twist>)
    requires ts == [2, 0, 4] || ts == [4, 0, 2]
    ensures OnAxis(ts, 1) == 1 && OnAxis(ts, 2) == 1 && OnAxis(ts, 3) == 1 && Negatives(ts) == 0
    ensures Inversions(ts) == if ts[0] == 2 then 0 else 3
  {
    var two, one := ts[..2], ts[..1];
    assert two[..1] == one && one[..0] == [];
    assert forall r :: OnAxis(one, r) == if Rank(ts[0]) == r then 1 else 0;
    assert forall r :: OnAxis(two, r) == OnAxis(one, r) + if Rank(ts[1]) == r then 1 else 0;
    assert Inversions(one) == 0 && Negatives(one) == 0;
    assert Inversions(two) == if ts[0] == 2 then 0 else 1;
    assert Negatives(two) == 0;
  }

  /** Closed means that the three axes occur equally often up to parity. */
  lemma ClosedByCounting(ts: seq<Twist>)
    ensures PauliClosed(ts) <==> Odd(OnAxis(ts, 1)) == Odd(OnAxis(ts, 2)) == Odd(OnAxis(ts, 3))
  {
    hide PauliFold, AsMatrix, Shape, PhaseOf;
    FoldIsShape(ts);
    ElementMatrix(Shape(ts));
    ShapeByCounting(ts);
  }

  // ----- gauge pairs and the synthesis

  const Plus: Twist := 6
  const Minus: Twist := 7

  predicate IsGaugePair(s: Twist, t: Twist) {
    (s == Plus && t == Minus) || (s == Minus && t == Plus)
  }

  predicate PairAt(ts: seq<Twist>, i: nat) {
    i + 1 < |ts| && IsGaugePair(ts[i], ts[i + 1])
  }

  /** Scanning left to right, every gauge pair met is dropped. */
  function Annihilated(ts: seq<Twist>): seq<Twist> {
    if |ts| < 2 then ts
    else if IsGaugePair(ts[0], ts[1]) then Annihilated(ts[2..])
    else [ts[0]] + Annihilated(ts[1..])
  }

  /** How many pairs the scan drops. */
  function Dropped(ts: seq<Twist>): nat {
    if |ts| < 2 then 0
    else if IsGaugePair(ts[0], ts[1]) then 1 + Dropped(ts[2..])
    else Dropped(ts[1..])
  }

  lemma ScanStep(ts: seq<Twist>, i: nat)
    requires i < |ts|
    ensures Annihilated(ts[i..])
         == if PairAt(ts, i) then Annihilated(ts[i + 2..]) else [ts[i]] + Annihilated(ts[i + 1..])
  {
    var rest := ts[i..];
    if |rest| >= 2 { assert rest[2..] == ts[i + 2..] && rest[1..] == ts[i + 1..]; }
    else { assert rest == [ts[i]] && Annihilated(ts[i + 1..]) == []; }
  }

  method AnnihilateGauge(ts: seq<Twist>) returns (out: seq<Twist>)
    ensures out == Annihilated(ts)
  {
    out := [];
    var i := 0;
    assert ts[0..] == ts;
    while i < |ts|
      invariant 0 <= i <= |ts|
      invariant Annihilated(ts) == out + Annihilated(ts[i..])
    {
      hide Annihilated;
      ScanStep(ts, i);
      if i + 1 < |ts| && IsGaugePair(ts[i], ts[i + 1]) {
        i := i + 2;
      } else {
        assert out + ([ts[i]] + Annihilated(ts[i + 1..])) == out + [ts[i]] + Annihilated(ts[i + 1..]);
        out := out + [ts[i]];
        i := i + 1;
      }
    }
  }

  /** What the documentation describes: the first gauge pair is dropped and the rest is kept. */
  function FirstOnly(ts: seq<Twist>): seq<Twist> {
    if |ts| < 2 then ts
    else if IsGaugePair(ts[0], ts[1]) then ts[2..]
    else [ts[0]] + FirstOnly(ts[1..])
  }

  /** Some gauge pair lies wholly after another. */
  ghost predicate TwoPairs(ts: seq<Twist>) {
    exists i: nat, j: nat :: PairAt(ts, i) && PairAt(ts, j) && i + 2 <= j
  }

  lemma {:induction false} FirstOnlyMeaning(ts: seq<Twist>, i: nat)
    requires PairAt(ts, i) && forall k: nat :: k < i ==> !PairAt(ts, k)
    ensures FirstOnly(ts) == ts[..i] + ts[i + 2..]
  {
    if i > 0 {
      var rest := ts[1..];
      assert !PairAt(ts, 0);
      forall k: nat | k < i - 1 ensures !PairAt(rest, k) { assert !PairAt(ts, k + 1); }
      FirstOnlyMeaning(rest, i - 1);
      assert ts[..i] == [ts[0]] + rest[..i - 1] && ts[i + 2..] == rest[i - 1 + 2..];
      assert [ts[0]] + (rest[..i - 1] + ts[i + 2..]) == ts[..i] + ts[i + 2..];
    }
  }

  lemma {:induction false} DroppedNone(ts: seq<Twist>)
    ensures Dropped(ts) == 0 <==> forall i: nat :: !PairAt(ts, i)
    ensures Dropped(ts) == 0 ==> Annihilated(ts) == ts && FirstOnly(ts) == ts
  {
    if |ts| >= 2 {
      if IsGaugePair(ts[0], ts[1]) {
        assert PairAt(ts, 0);
      } else {
        DroppedNone(ts[1..]);
        PairsShift(ts, 1);
      }
    }
  }

  /** The pairs of a suffix are the pairs from there on. */
  lemma PairsShift(ts: seq<Twist>, n: nat)
    requires n <= |ts|
    ensures forall i: nat :: PairAt(ts[n..], i) <==> PairAt(ts, i + n)
    ensures forall i: nat :: i >= n ==> (PairAt(ts, i) <==> PairAt(ts[n..], i - n))
  {
  }

  lemma {:induction false} DroppedOne(ts: seq<Twist>)
    ensures Dropped(ts) <= 1 <==> !TwoPairs(ts)
    ensures Annihilated(ts) == FirstOnly(ts) <==> Dropped(ts) <= 1
  {
    if |ts| >= 2 {
      if IsGaugePair(ts[0], ts[1]) {
        DroppedNone(ts[2..]);
        PairsShift(ts, 2);
        PairsAfter(ts);
        AnnihilationEffect(ts[2..]);
      } else {
        DroppedOne(ts[1..]);
        PairsShift(ts, 1);
        PairsLater(ts);
        assert ([ts[0]] + Annihilated(ts[1..]))[1..] == Annihilated(ts[1..]);
        assert ([ts[0]] + FirstOnly(ts[1..]))[1..] == FirstOnly(ts[1..]);
      }
    }
  }

  lemma PairsAfter(ts: seq<Twist>)
    requires PairAt(ts, 0)
    ensures TwoPairs(ts) <==> exists j: nat :: PairAt(ts[2..], j)
  {
    PairsShift(ts, 2);
    if TwoPairs(ts) {
      var i: nat, j: nat :| PairAt(ts, i) && PairAt(ts, j) && i + 2 <= j;
      assert PairAt(ts[2..], j - 2);
    }
    if j: nat :| PairAt(ts[2..], j) {
      assert PairAt(ts, 0) && PairAt(ts, j + 2);
    }
  }

  lemma PairsLater(ts: seq<Twist>)
    requires ts != [] && !PairAt(ts, 0)
    ensures TwoPairs(ts) <==> TwoPairs(ts[1..])
  {
    PairsShift(ts, 1);
    if TwoPairs(ts) {
      var i: nat, j: nat :| PairAt(ts, i) && PairAt(ts, j) && i + 2 <= j;
      assert PairAt(ts[1..], i - 1) && PairAt(ts[1..], j - 1);
    }
    if TwoPairs(ts[1..]) {
      var i: nat, j: nat :| PairAt(ts[1..], i) && PairAt(ts[1..], j) && i + 2 <= j;
      assert PairAt(ts, i + 1) && PairAt(ts, j + 1);
    }
  }

  /** The code does what its documentation says exactly when no gauge pair lies after another. */
  lemma FirstOnlyIff(ts: seq<Twist>)
    ensures Annihilated(ts) == FirstOnly(ts) <==> !TwoPairs(ts)
  {
    hide Annihilated, FirstOnly, Dropped, TwoPairs;
    DroppedOne(ts);
  }

  /** A second pair is dropped as well. */
  lemma SecondPairDropped(ts: seq<Twist>)
    requires ts == [Plus, Minus, Plus, Minus]
    ensures Annihilated(ts) == [] && FirstOnly(ts) == [Plus, Minus]
  {
    assert ts[2..] == [Plus, Minus] && ts[2..][2..] == [];
    assert Annihilated(ts[2..]) == [];
  }

  /** A pair that only forms when another one goes is left. */
  lemma InnerPairLeaves(ts: seq<Twist>)
    requires ts == [Plus, Plus, Minus, Minus]
    ensures Annihilated(ts) == [Plus, Minus] && PairAt(Annihilated(ts), 0)
  {
    assert ts[1..] == [Plus, Minus, Minus] && ts[1..][2..] == [Minus];
    assert Annihilated(ts[1..]) == [Minus];
  }

  /** The effect of dropping `n` gauge pairs: `n` half turns. */
  function HalfTurns(e: Element, n: nat): Element {
    Element((e.turns + 2 * n) % 4, e.x, e.z)
  }

  lemma {:induction false} BalanceConcat(s: seq<Twist>, t: seq<Twist>)
    ensures Balance(s + t) == Balance(s) + Balance(t)
    decreases |t|
  {
    if t == [] {
      assert s + t == s;
    } else {
      assert (s + t)[..|s + t| - 1] == s + t[..|t| - 1];
      BalanceConcat(s, t[..|t| - 1]);
    }
  }

  lemma TwoTwists(s: Twist, t: Twist)
    ensures Shape([s, t]) == Times(Times(Shape([]), Generator(s)), Generator(t))
    ensures Balance([s, t]) == (if s % 2 == 0 then 1 else -1) + (if t % 2 == 0 then 1 else -1)
  {
    hide Times, Generator;
    assert [s, t][..1] == [s] && [s][..0] == [];
    assert Shape([s]) == Times(Shape([]), Generator(s));
    assert Balance([s]) == Balance([]) + (if s % 2 == 0 then 1 else -1);
  }

  lemma ScalarTimes(e: Element, f: Element)
    requires !e.x && !e.z && !f.x && !f.z
    ensures Times(e, f) == Element((e.turns + f.turns) % 4, false, false)
  {
  }

  lemma GaugePairShape(s: Twist, t: Twist)
    requires IsGaugePair(s, t)
    ensures Shape([s, t]) == Element(2, false, false) && Balance([s, t]) == 0
  {
    hide Times, Balance;
    TwoTwists(s, t);
    ScalarTimes(Shape([]), Generator(s));
    ScalarTimes(Times(Shape([]), Generator(s)), Generator(t));
  }

  /** Each dropped pair shortens the history by two, keeps its balance and flips its sign. */
  lemma {:induction false} AnnihilationEffect(ts: seq<Twist>)
    ensures |Annihilated(ts)| + 2 * Dropped(ts) == |ts|
    ensures Balance(Annihilated(ts)) == Balance(ts)
    ensures Shape(Annihilated(ts)) == HalfTurns(Shape(ts), Dropped(ts))
  {
    hide Shape, Balance, Times;
    if |ts| < 2 {
      ShapeReduced(ts);
    } else if IsGaugePair(ts[0], ts[1]) {
      var pair, rest := [ts[0], ts[1]], ts[2..];
      assert ts == pair + rest;
      AnnihilationEffect(rest);
      GaugePairShape(ts[0], ts[1]);
      ShapeConcat(pair, rest);
      BalanceConcat(pair, rest);
      HalfTurnLeft(Shape(rest), Dropped(rest));
    } else {
      var head, rest := [ts[0]], ts[1..];
      assert ts == head + rest;
      AnnihilationEffect(rest);
      ShapeConcat(head, rest);
      ShapeConcat(head, Annihilated(rest));
      BalanceConcat(head, rest);
      BalanceConcat(head, Annihilated(rest));
      TurnsThrough(Shape(head), Shape(rest), Dropped(rest));
    }
  }

  lemma HalfTurnLeft(e: Element, n: nat)
    ensures HalfTurns(e, n) == HalfTurns(Times(Element(2, false, false), e), n + 1)
  {
  }

  lemma TurnsThrough(d: Element, e: Element, n: nat)
    ensures Times(d, HalfTurns(e, n)) == HalfTurns(Times(d, e), n)
  {
    hide Twisted;
  }

  function Flipped(p: Option<Phase>, n: nat): Option<Phase> {
    if p.Some? && n % 2 == 1 then Some(p.value.Opposite()) else p
  }

  lemma HalfTurnsFlip(e: Element, n: nat)
    ensures PhaseOf(AsMatrix(HalfTurns(e, n))) == Flipped(PhaseOf(AsMatrix(e)), n)
  {
    hide AsMatrix;
    ElementMatrix(e);
    ElementMatrix(HalfTurns(e, n));
  }

  /** Dropping gauge pairs keeps closure and balance, and flips the phase once per pair. */
  lemma AnnihilationKeepsZfa(ts: seq<Twist>)
    ensures AchievesZfa(Annihilated(ts)) == AchievesZfa(ts)
    ensures PauliPhase(Annihilated(ts)) == Flipped(PauliPhase(ts), Dropped(ts))
  {
    hide Shape, PauliFold, AsMatrix, PhaseOf;
    AnnihilationEffect(ts);
    FoldIsShape(ts);
    FoldIsShape(Annihilated(ts));
    HalfTurnsFlip(Shape(ts), Dropped(ts));
  }

  datatype Synthesis = Synthesis(intersection: seq<Twist>, geometry: seq<Twist>, zfa: bool, phase: Option<Phase>)

  function DialecticalSynthesis(subject: seq<Twist>, predicate': seq<Twist>): Synthesis {
    Synthesis(subject + [Plus] + ([Minus] + predicate'), subject + predicate', AchievesZfa(subject + predicate'),
              PauliPhase(subject + predicate'))
  }

  /** The residue of a synthesis and its full intersection agree on ZFA, with opposite phase. */
  lemma SynthesisAgrees(subject: seq<Twist>, predicate': seq<Twist>)
    ensures var s := DialecticalSynthesis(subject, predicate');
            && s.zfa == AchievesZfa(s.intersection)
            && PauliPhase(s.intersection) == Flipped(s.phase, 1)
  {
    hide Shape, PauliFold, AsMatrix, PhaseOf, Balance, Times, HalfTurns;
    var s, pair := DialecticalSynthesis(subject, predicate'), [Plus, Minus];
    assert s.intersection == subject + (pair + predicate');
    GaugePairShape(Plus, Minus);
    ShapeConcat(subject, pair + predicate');
    ShapeConcat(pair, predicate');
    ShapeConcat(subject, predicate');
    BalanceConcat(subject, pair + predicate');
    BalanceConcat(pair, predicate');
    BalanceConcat(subject, predicate');
    InsertHalfTurn(Shape(subject), Shape(predicate'));
    FoldIsShape(s.intersection);
    FoldIsShape(s.geometry);
    HalfTurnsFlip(Shape(s.geometry), 1);
  }

  lemma InsertHalfTurn(d: Element, e: Element)
    ensures Times(d, Times(Element(2, false, false), e)) == HalfTurns(Times(d, e), 1)
  {
    hide Twisted;
    assert Twisted(false, false, e.x, e.z) == 0 by { NoTwist(e.x, e.z); }
  }

  lemma NoTwist(x: bool, z: bool)
    ensures Twisted(false, false, x, z) == 0
  {
  }

  // ----- names to histories

  /** `allocate_twists`: one positive and one negative twist per byte. */
  method AllocateTwists(name: seq<byte>) returns (out: seq<Twist>)
    ensures |out| == 2 * |name| && CountBalanced(out)
    ensures forall i :: 0 <= i < |name| ==>
              out[2 * i] == (name[i] % 4) * 2 && out[2 * i + 1] == (name[i] / 4 % 4) * 2 + 1
  {
    out := [];
    for k := 0 to |name|
      invariant |out| == 2 * k && Balance(out) == 0
      invariant forall i :: 0 <= i < k ==>
                  out[2 * i] == (name[i] % 4) * 2 && out[2 * i + 1] == (name[i] / 4 % 4) * 2 + 1
    {
      var positive: Twist, negative: Twist := (name[k] % 4) * 2, (name[k] / 4 % 4) * 2 + 1;
      assert (out + [positive] + [negative])[..|out| + 1] == out + [positive];
      assert (out + [positive])[..|out|] == out;
      out := out + [positive] + [negative];
    }
  }
}
