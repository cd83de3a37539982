/** Score trees and their comparison (`ScoreAtom::cmp`, `Tree::cmp`,
    `compare_children`, `compare_bytes_signed`), with the total-order laws that
    every sort below rests on. */
module ScoreTree {
  import opened Orders

  datatype ScoreAtom =
    | IntAtom(i: int)
    | BigIntAtom(n: int)
    | StrAtom(s: string)
    | BytesAtom(bytes: seq<byte>)

  datatype Tree = Leaf(atom: ScoreAtom) | Node(children: seq<Tree>)

  function CompareAtoms(a: ScoreAtom, b: ScoreAtom): Ordering {
    match (a, b)
    case (IntAtom(x), IntAtom(y)) => CompareInts(x, y)
    case (IntAtom(_), _) => Less
    case (_, IntAtom(_)) => Greater
    case (BigIntAtom(x), BigIntAtom(y)) => CompareInts(x, y)
    case (BigIntAtom(_), _) => Less
    case (_, BigIntAtom(_)) => Greater
    case (StrAtom(x), StrAtom(y)) => CompareLex(x, y, CharCode)
    case (StrAtom(_), _) => Less
    case (_, StrAtom(_)) => Greater
    case (BytesAtom(x), BytesAtom(y)) => CompareLex(x, y, SignedByte)
  }

  function CompareTrees(a: Tree, b: Tree): Ordering
    decreases a
  {
    match (a, b)
    case (Leaf(x), Leaf(y)) => CompareAtoms(x, y)
    case (Leaf(_), Node(_)) => Less
    case (Node(_), Leaf(_)) => Greater
    case (Node(x), Node(y)) => CompareChildren(x, y)
  }

  function CompareChildren(a: seq<Tree>, b: seq<Tree>): Ordering
    decreases a
  {
    if a == [] && b == [] then Equal
    else if a == [] then Less
    else if b == [] then Greater
    else
      match CompareTrees(a[0], b[0])
      case Equal => CompareChildren(a[1..], b[1..])
      case other => other
  }

  predicate AtMost(a: Tree, b: Tree) {
    CompareTrees(a, b) != Greater
  }

  /** The index loop of `compare_bytes_signed`. */
  method CompareBytesSigned(a: seq<byte>, b: seq<byte>) returns (r: Ordering)
    ensures r == CompareLex(a, b, SignedByte)
  {
    var i := 0;
    while true
      invariant 0 <= i <= |a| && i <= |b|
      invariant CompareLex(a[i..], b[i..], SignedByte) == CompareLex(a, b, SignedByte)
      decreases |a| - i
    {
      if i < |a| && i < |b| {
        var c := CompareInts(SignedByte(a[i]), SignedByte(b[i]));
        if c != Equal {
          return c;
        }
        assert a[i..][1..] == a[i + 1..] && b[i..][1..] == b[i + 1..];
        i := i + 1;
      } else if i < |a| {
        return Greater;
      } else if i < |b| {
        return Less;
      } else {
        return Equal;
      }
    }
  }

  // ----- laws of the atom order

  lemma AtomEqualIff(a: ScoreAtom, b: ScoreAtom)
    ensures CompareAtoms(a, b) == Equal <==> a == b
  {
    match (a, b)
    case (StrAtom(x), StrAtom(y)) => LexEqualIff(x, y, CharCode);
    case (BytesAtom(x), BytesAtom(y)) => LexEqualIff(x, y, SignedByte);
    case _ =>
  }

  lemma AtomSwap(a: ScoreAtom, b: ScoreAtom)
    ensures CompareAtoms(b, a) == CompareAtoms(a, b).Swap()
  {
    match (a, b)
    case (StrAtom(x), StrAtom(y)) => LexSwap(x, y, CharCode);
    case (BytesAtom(x), BytesAtom(y)) => LexSwap(x, y, SignedByte);
    case _ =>
  }

  lemma AtomTransitive(a: ScoreAtom, b: ScoreAtom, c: ScoreAtom)
    requires CompareAtoms(a, b) != Greater && CompareAtoms(b, c) != Greater
    ensures CompareAtoms(a, c) != Greater
  {
    match (a, b, c)
    case (StrAtom(x), StrAtom(y), StrAtom(z)) => LexTransitive(x, y, z, CharCode);
    case (BytesAtom(x), BytesAtom(y), BytesAtom(z)) => LexTransitive(x, y, z, SignedByte);
    case _ =>
  }

  // ----- laws of the tree order

  /** `Tree::cmp` answers Equal exactly on equal trees. */
  lemma {:induction false} TreeEqualIff(a: Tree, b: Tree)
    ensures CompareTrees(a, b) == Equal <==> a == b
    decreases a
  {
    match (a, b)
    case (Leaf(x), Leaf(y)) => AtomEqualIff(x, y);
    case (Node(x), Node(y)) => ChildrenEqualIff(x, y);
    case _ =>
  }

  lemma {:induction false} ChildrenEqualIff(a: seq<Tree>, b: seq<Tree>)
    ensures CompareChildren(a, b) == Equal <==> a == b
    decreases a
  {
    if a != [] && b != [] {
      TreeEqualIff(a[0], b[0]);
      ChildrenEqualIff(a[1..], b[1..]);
      assert a == [a[0]] + a[1..] && b == [b[0]] + b[1..];
    }
  }

  /** Exchanging the arguments reverses the answer, so any two trees are comparable. */
  lemma {:induction false} TreeSwap(a: Tree, b: Tree)
    ensures CompareTrees(b, a) == CompareTrees(a, b).Swap()
    decreases a
  {
    match (a, b)
    case (Leaf(x), Leaf(y)) => AtomSwap(x, y);
    case (Node(x), Node(y)) => ChildrenSwap(x, y);
    case _ =>
  }

  lemma {:induction false} ChildrenSwap(a: seq<Tree>, b: seq<Tree>)
    ensures CompareChildren(b, a) == CompareChildren(a, b).Swap()
    decreases a
  {
    if a != [] && b != [] {
      TreeSwap(a[0], b[0]);
      ChildrenSwap(a[1..], b[1..]);
    }
  }

  lemma {:induction false} TreeTransitive(a: Tree, b: Tree, c: Tree)
    requires AtMost(a, b) && AtMost(b, c)
    ensures AtMost(a, c)
    decreases a
  {
    match (a, b, c)
    case (Leaf(x), Leaf(y), Leaf(z)) => AtomTransitive(x, y, z);
    case (Node(x), Node(y), Node(z)) => ChildrenTransitive(x, y, z);
    case _ =>
  }

  lemma {:induction false} ChildrenTransitive(a: seq<Tree>, b: seq<Tree>, c: seq<Tree>)
    requires CompareChildren(a, b) != Greater && CompareChildren(b, c) != Greater
    ensures CompareChildren(a, c) != Greater
    decreases a
  {
    if a != [] && b != [] && c != [] {
      TreeTransitive(a[0], b[0], c[0]);
      TreeEqualIff(a[0], b[0]);
      TreeEqualIff(b[0], c[0]);
      TreeEqualIff(a[0], c[0]);
      TreeSwap(a[0], b[0]);
      if a[0] == b[0] == c[0] {
        ChildrenTransitive(a[1..], b[1..], c[1..]);
      }
    }
  }

  lemma TreeReflexive(a: Tree)
    ensures AtMost(a, a)
  {
    TreeEqualIff(a, a);
  }

  lemma TreeAntisymmetric(a: Tree, b: Tree)
    requires AtMost(a, b) && AtMost(b, a)
    ensures a == b
  {
    TreeSwap(a, b);
    TreeEqualIff(a, b);
  }

  lemma TreeTotal(a: Tree, b: Tree)
    ensures AtMost(a, b) || AtMost(b, a)
  {
    TreeSwap(a, b);
  }

  // ----- which order it is

  /** Integers, then big integers, then strings, then bytes. */
  function AtomKind(a: ScoreAtom): int {
    match a
    case IntAtom(_) => 0
    case BigIntAtom(_) => 1
    case StrAtom(_) => 2
    case BytesAtom(_) => 3
  }

  /** By kind, and within a kind by value: numbers by size, strings by character, bytes as signed. */
  ghost predicate AtomBelow(a: ScoreAtom, b: ScoreAtom) {
    AtomKind(a) < AtomKind(b) || (AtomKind(a) == AtomKind(b) && ValueBelow(a, b))
  }

  ghost predicate ValueBelow(a: ScoreAtom, b: ScoreAtom)
    requires AtomKind(a) == AtomKind(b)
  {
    match a
    case IntAtom(x) => x < b.i
    case BigIntAtom(x) => x < b.n
    case StrAtom(x) => LexBelow(x, b.s, (c: char) => c as int)
    case BytesAtom(x) => LexBelow(x, b.bytes, (c: byte) => if c >= 128 then c - 256 else c)
  }

  /** Leaves before nodes; nodes by the first child that differs, a proper prefix first. */
  ghost predicate TreeBelow(a: Tree, b: Tree)
    decreases a
  {
    match (a, b)
    case (Leaf(x), Leaf(y)) => AtomBelow(x, y)
    case (Leaf(_), Node(_)) => true
    case (Node(_), Leaf(_)) => false
    case (Node(x), Node(y)) => exists k :: 0 <= k <= |x| && k < |y| && x[..k] == y[..k] && (k < |x| ==> TreeBelow(x[k], y[k]))
  }

  lemma AtomLessIff(a: ScoreAtom, b: ScoreAtom)
    ensures CompareAtoms(a, b) == Less <==> AtomBelow(a, b)
  {
    match (a, b)
    case (StrAtom(x), StrAtom(y)) =>
      LexLessIff(x, y, CharCode);
      SameKeyBelow(x, y, CharCode, (c: char) => c as int);
    case (BytesAtom(x), BytesAtom(y)) =>
      LexLessIff(x, y, SignedByte);
      SameKeyBelow(x, y, SignedByte, (c: byte) => if c >= 128 then c - 256 else c);
    case _ =>
  }

  lemma SameKeyBelow<T(!new)>(a: seq<T>, b: seq<T>, f: T -> int, g: T -> int)
    requires forall x :: f(x) == g(x)
    ensures LexBelow(a, b, f) <==> LexBelow(a, b, g)
  {
    if k :| BelowAt(a, b, f, k) { assert BelowAt(a, b, g, k); }
    if k :| BelowAt(a, b, g, k) { assert BelowAt(a, b, f, k); }
  }

  /** `Tree::cmp` is the order by position. */
  lemma {:induction false} TreeLessIff(a: Tree, b: Tree)
    ensures CompareTrees(a, b) == Less <==> TreeBelow(a, b)
    decreases a
  {
    hide AtomBelow;
    match (a, b)
    case (Leaf(x), Leaf(y)) => AtomLessIff(x, y);
    case (Node(x), Node(y)) =>
      if CompareChildren(x, y) == Less {
        var k := FirstDifference(x, y);
        if k < |x| { TreeLessIff(x[k], y[k]); }
      }
      if k :| 0 <= k <= |x| && k < |y| && x[..k] == y[..k] && (k < |x| ==> TreeBelow(x[k], y[k])) {
        if k < |x| { TreeLessIff(x[k], y[k]); }
        PrefixDecides(x, y, k);
      }
    case _ =>
  }

  lemma {:induction false} FirstDifference(x: seq<Tree>, y: seq<Tree>) returns (k: nat)
    requires CompareChildren(x, y) == Less
    ensures k <= |x| && k < |y| && x[..k] == y[..k] && (k < |x| ==> CompareTrees(x[k], y[k]) == Less)
    decreases |x|
  {
    k := 0;
    if x != [] && CompareTrees(x[0], y[0]) == Equal {
      TreeEqualIff(x[0], y[0]);
      var rest := FirstDifference(x[1..], y[1..]);
      k := rest + 1;
      assert x[..k] == [x[0]] + x[1..][..rest] && y[..k] == [y[0]] + y[1..][..rest];
    }
  }

  lemma {:induction false} PrefixDecides(x: seq<Tree>, y: seq<Tree>, k: nat)
    requires k <= |x| && k < |y| && x[..k] == y[..k] && (k < |x| ==> CompareTrees(x[k], y[k]) == Less)
    ensures CompareChildren(x, y) == Less
    decreases k
  {
    if k > 0 {
      assert x[0] == x[..k][0] == y[..k][0] == y[0];
      TreeEqualIff(x[0], y[0]);
      assert x[1..][..k - 1] == x[..k][1..] == y[..k][1..] == y[1..][..k - 1];
      PrefixDecides(x[1..], y[1..], k - 1);
    }
  }
}
