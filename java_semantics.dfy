/** The few pieces of Java's own semantics that the converter relies on:
    32-bit int arithmetic, java.util.Arrays.equals / Arrays.hashCode over object
    arrays, the null-safe comparison idiom, string concatenation of null, and
    String.endsWith. */
module JavaSemantics {
  import opened Wrappers

  const TWO_POW_32: int := 0x1_0000_0000
  const TWO_POW_31: int := 0x8000_0000

  /** A Java `int`. */
  type Int32 = x: int | -0x8000_0000 <= x < 0x8000_0000

  /** Narrowing of an exact integer to a Java `int`: two's-complement wrap-around. */
  function Wrap(x: int): (r: Int32)
    ensures (r - x) % TWO_POW_32 == 0
    ensures -TWO_POW_31 <= x < TWO_POW_31 ==> r == x
  {
    var m := (x + TWO_POW_31) % TWO_POW_32;
    assert x + TWO_POW_31 == TWO_POW_32 * ((x + TWO_POW_31) / TWO_POW_32) + m;
    m - TWO_POW_31
  }

  /** One step of the `result = 31 * result + h` combination, evaluated in `int`. */
  function Combine(acc: Int32, h: Int32): Int32
  {
    Wrap(31 * acc + h)
  }

  /** `x != null ? x.hashCode() : 0` */
  function HashOrZero<T>(hash: T -> Int32, x: Option<T>): Int32
  {
    if x.Some? then hash(x.value) else 0
  }

  /** The loop `for (h : hs) result = 31 * result + h;` in `int`, started from `seed`. */
  function Fold31(seed: Int32, hs: seq<Int32>): Int32
    decreases |hs|
  {
    if |hs| == 0 then seed else Fold31(Combine(seed, hs[0]), hs[1..])
  }

  /** Folding in one more hash is one more combination step. */
  lemma {:induction false} Fold31Snoc(seed: Int32, hs: seq<Int32>, h: Int32)
    ensures Fold31(seed, hs + [h]) == Combine(Fold31(seed, hs), h)
    decreases |hs|
  {
    if |hs| > 0 {
      assert (hs + [h])[1..] == hs[1..] + [h];
      Fold31Snoc(Combine(seed, hs[0]), hs[1..], h);
    }
  }

  /** The element hashes of an array, in order. */
  function Hashes<T>(hash: T -> Int32, s: seq<T>): seq<Int32>
  {
    seq(|s|, i requires 0 <= i < |s| => hash(s[i]))
  }

  /** java.util.Arrays.hashCode(Object[]) on a non-null array of non-null elements:
      start from 1 and combine the element hashes left to right. */
  function ArrayHash<T>(hash: T -> Int32, s: seq<T>): (r: Int32)
    ensures r == Fold31(1, Hashes(hash, s))
  {
    if |s| == 0 then 1
    else
      var init, last := s[..|s| - 1], s[|s| - 1];
      assert Hashes(hash, s) == Hashes(hash, init) + [hash(last)];
      Fold31Snoc(1, Hashes(hash, init), hash(last));
      Combine(ArrayHash(hash, init), hash(last))
  }

  /** `x != null ? x.hashCode() : 0` for an array field hashed with Arrays.hashCode. */
  function ArrayHashOrZero<T>(hash: T -> Int32, x: Option<seq<T>>): Int32
  {
    if x.Some? then ArrayHash(hash, x.value) else 0
  }

  /** The element loop of java.util.Arrays.equals, on arrays of equal length whose
      elements compare with a structural `equals` (String, File). */
  function ElementsEqual<T(==)>(x: seq<T>, y: seq<T>): bool
    requires |x| == |y|
  {
    |x| == 0 || (x[0] == y[0] && ElementsEqual(x[1..], y[1..]))
  }

  /** java.util.Arrays.equals(Object[], Object[]): two nulls are equal, a null and a
      non-null are not, otherwise same length and element-wise equal. */
  function ArraysEquals<T(==)>(a: Option<seq<T>>, b: Option<seq<T>>): (r: bool)
    ensures r <==> a == b
  {
    match (a, b)
    case (None, None) => true
    case (Some(x), Some(y)) =>
      if |x| == |y| then ElementsEqualIsEquality(x, y); ElementsEqual(x, y) else false
    case _ => false
  }

  lemma {:induction false} ElementsEqualIsEquality<T>(x: seq<T>, y: seq<T>)
    requires |x| == |y|
    ensures ElementsEqual(x, y) <==> x == y
  {
    if |x| > 0 {
      ElementsEqualIsEquality(x[1..], y[1..]);
      assert x == [x[0]] + x[1..];
      assert y == [y[0]] + y[1..];
    }
  }

  /** `x != null ? x.equals(y) : y == null` for a type whose `equals` is structural. */
  function NullSafeEquals<T(==)>(x: Option<T>, y: Option<T>): (r: bool)
    ensures r <==> x == y
  {
    if x.Some? then y.Some? && x.value == y.value else y.None?
  }

  /** What string concatenation appends for a String reference: "null" for null. */
  function Str(s: Option<string>): string
  {
    if s.Some? then s.value else "null"
  }

  /** String.endsWith: `s` is some string followed by `suffix`. */
  function EndsWith(s: string, suffix: string): (r: bool)
    ensures r <==> exists prefix :: s == prefix + suffix
  {
    if |suffix| <= |s| then
      var prefix := s[..|s| - |suffix|];
      assert s == prefix + s[|s| - |suffix|..];
      assert forall p :: s == p + suffix ==> s[|s| - |suffix|..] == suffix;
      s[|s| - |suffix|..] == suffix
    else
      false
  }
}
