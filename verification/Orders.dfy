/** Three-way comparison results and the lexicographic comparison that Rust's
    slice and string orders, and the sorter's signed byte order, all follow. */
module Orders {

  type byte = b: int | 0 <= b < 256

  datatype Option<+T> = None | Some(value: T)

  datatype Ordering = Less | Equal | Greater {
    function Swap(): Ordering {
      match this
      case Less => Greater
      case Equal => Equal
      case Greater => Less
    }
  }

  function CompareInts(a: int, b: int): Ordering {
    if a < b then Less else if a == b then Equal else Greater
  }

  /** Byte as Java's signed `Byte`: 0x80..0xff come before 0x00..0x7f. */
  function SignedByte(b: byte): int {
    if b < 128 then b else b - 256
  }

  function UnsignedByte(b: byte): int { b }

  function CharCode(c: char): int { c as int }

  ghost predicate InjectiveKey<T(!new)>(key: T -> int) {
    forall x, y :: key(x) == key(y) ==> x == y
  }

  /** Element by element on `key`; a proper prefix comes first. */
  function CompareLex<T>(a: seq<T>, b: seq<T>, key: T -> int): Ordering {
    if a == [] && b == [] then Equal
    else if a == [] then Less
    else if b == [] then Greater
    else
      match CompareInts(key(a[0]), key(b[0]))
      case Equal => CompareLex(a[1..], b[1..], key)
      case other => other
  }

  lemma {:induction false} LexEqualIff<T(!new)>(a: seq<T>, b: seq<T>, key: T -> int)
    requires InjectiveKey(key)
    ensures CompareLex(a, b, key) == Equal <==> a == b
  {
    if a != [] && b != [] && key(a[0]) == key(b[0]) {
      LexEqualIff(a[1..], b[1..], key);
      assert a == [a[0]] + a[1..] && b == [b[0]] + b[1..];
    }
  }

  lemma {:induction false} LexSwap<T>(a: seq<T>, b: seq<T>, key: T -> int)
    ensures CompareLex(b, a, key) == CompareLex(a, b, key).Swap()
  {
    if a != [] && b != [] && key(a[0]) == key(b[0]) {
      LexSwap(a[1..], b[1..], key);
    }
  }

  lemma {:induction false} LexTransitive<T>(a: seq<T>, b: seq<T>, c: seq<T>, key: T -> int)
    requires CompareLex(a, b, key) != Greater && CompareLex(b, c, key) != Greater
    ensures CompareLex(a, c, key) != Greater
    ensures CompareLex(a, c, key) == Equal ==> CompareLex(a, b, key) == Equal
  {
    if a != [] && b != [] && c != [] && key(a[0]) == key(b[0]) == key(c[0]) {
      LexTransitive(a[1..], b[1..], c[1..], key);
    }
  }

  /** The first position where the keys differ decides; a proper prefix comes first. */
  ghost predicate LexBelow<T>(a: seq<T>, b: seq<T>, key: T -> int) {
    exists k :: BelowAt(a, b, key, k)
  }

  predicate BelowAt<T>(a: seq<T>, b: seq<T>, key: T -> int, k: int) {
    && 0 <= k <= |a| && k < |b|
    && (forall i :: 0 <= i < k ==> key(a[i]) == key(b[i]))
    && (k < |a| ==> key(a[k]) < key(b[k]))
  }

  lemma {:induction false} LexLessIff<T>(a: seq<T>, b: seq<T>, key: T -> int)
    ensures CompareLex(a, b, key) == Less <==> LexBelow(a, b, key)
  {
    if b != [] {
      if a == [] || key(a[0]) < key(b[0]) {
        assert BelowAt(a, b, key, 0);
      } else if key(a[0]) == key(b[0]) {
        LexLessIff(a[1..], b[1..], key);
        if k :| BelowAt(a[1..], b[1..], key, k) {
          forall i | 0 <= i < k + 1 ensures key(a[i]) == key(b[i]) {
            if i > 0 { assert a[i] == a[1..][i - 1] && b[i] == b[1..][i - 1]; }
          }
          assert BelowAt(a, b, key, k + 1);
        }
        if k :| BelowAt(a, b, key, k) {
          assert k > 0;
          assert BelowAt(a[1..], b[1..], key, k - 1);
        }
      }
    }
  }
}
