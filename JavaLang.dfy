/**
 * The parts of the Java language and runtime that the Wahlzeit model classes rely on:
 * 32-bit `int`, references that may be null, the argument of `equals(Object)`,
 * exceptions, and the hash codes of `String` and `java.util.Objects.hash`.
 */
module JavaLang {

  /** Java's `int`. */
  newtype int32 = x: int | -0x8000_0000 <= x < 0x8000_0000

  /** A reference that may be null. */
  datatype Option<+T> = None | Some(value: T)

  /** The argument of `equals(Object)`: null, an instance of the receiver's type, or anything else. */
  datatype Object<+T> = Null | Instance(value: T) | OtherClass

  /** Exception messages: literal text, or the message built by the distance postcondition,
      which renders as "Invalid distance: <distance> < 0". */
  datatype Message = Text(text: string) | InvalidDistance(distance: real)

  datatype Exception =
    | IllegalArgumentException(message: Message)
    | IllegalStateException(message: Message)
    | NullPointerException
    | NumberFormatException

  /** The way a Java call ends: it returns a value or throws. A `void` call returns `()`. */
  datatype Outcome<+T> = Return(value: T) | Throw(exception: Exception)

  /** Reduces an unbounded integer to Java's `int` the way Java's arithmetic wraps around. */
  function Wrap(v: int): (r: int32)
    ensures (r as int - v) % 0x1_0000_0000 == 0
    ensures -0x8000_0000 <= v < 0x8000_0000 ==> r as int == v
  {
    var m := v % 0x1_0000_0000;
    (if m >= 0x8000_0000 then m - 0x1_0000_0000 else m) as int32
  }

  /** The UTF-16 code units of one character, as a Java String stores it: the character
      itself below U+10000, a surrogate pair above. */
  function CodeUnits(c: char): (r: seq<int>)
    ensures c as int < 0x10000 ==> r == [c as int]
    ensures c as int >= 0x10000 ==>
      && |r| == 2 && 0xD800 <= r[0] < 0xDC00 && 0xDC00 <= r[1] < 0xE000
      && (r[0] - 0xD800) * 0x400 + (r[1] - 0xDC00) + 0x10000 == c as int
  {
    if c as int < 0x10000 then [c as int]
    else
      var v := c as int - 0x10000;
      [0xD800 + v / 0x400, 0xDC00 + v % 0x400]
  }

  /** The UTF-16 code units of a string. */
  function Utf16(s: string): (r: seq<int>)
    ensures |s| <= |r| <= 2 * |s|
    ensures forall i | 0 <= i < |r| :: 0 <= r[i] < 0x10000
    ensures (forall i | 0 <= i < |s| :: s[i] as int < 0x10000) ==>
      |r| == |s| && forall i | 0 <= i < |s| :: r[i] == s[i] as int
  {
    if s == [] then [] else Utf16(s[..|s| - 1]) + CodeUnits(s[|s| - 1])
  }

  /** u[0]*31^(n-1) + ... + u[n-1], in `int` arithmetic. */
  function CodeUnitsHash(units: seq<int>): int32
  {
    if units == [] then 0 else Wrap(31 * CodeUnitsHash(units[..|units| - 1]) as int + units[|units| - 1])
  }

  /** `String.hashCode()`, which runs over the UTF-16 code units, not over the characters. */
  function StringHashCode(s: string): int32
  {
    CodeUnitsHash(Utf16(s))
  }

  /** Appending a character below U+10000 adds one step of the polynomial. */
  lemma {:induction false} StringHashAppend(s: string, c: char)
    requires c as int < 0x10000
    ensures StringHashCode(s + [c]) == Wrap(31 * StringHashCode(s) as int + c as int)
  {
    assert (s + [c])[..|s|] == s;
    var units := Utf16(s + [c]);
    assert units == Utf16(s) + [c as int];
    assert units[..|units| - 1] == Utf16(s);
  }

  /** A character above U+10000 is hashed as its surrogate pair: the hash of the single
      character U+1F600 is 55357 * 31 + 56832, not 0x1F600. */
  lemma SupplementaryCharacterHash()
    ensures StringHashCode("\U{1F600}") == 1772899
  {
    var s := "\U{1F600}";
    assert s[..0] == [];
    var units := Utf16(s);
    assert units == [55357, 56832];
    assert units[..1] == [55357];
    assert CodeUnitsHash([55357]) == 55357;
  }

  /** Two ints that differ by a multiple of 2^32 wrap to the same int. */
  lemma WrapCongruent(u: int, v: int)
    requires (u - v) % 0x1_0000_0000 == 0
    ensures Wrap(u) == Wrap(v)
  {
    var a, b := Wrap(u) as int, Wrap(v) as int;
    var qa, quv, qb := (a - u) / 0x1_0000_0000, (u - v) / 0x1_0000_0000, (b - v) / 0x1_0000_0000;
    assert a - u == qa * 0x1_0000_0000;
    assert u - v == quv * 0x1_0000_0000;
    assert b - v == qb * 0x1_0000_0000;
    assert a - b == (qa + quv - qb) * 0x1_0000_0000;
  }

  /** `Objects.hash(v1, ..., vn)` given the hash codes of its arguments (0 for null):
      31^n + h1*31^(n-1) + ... + hn, in `int` arithmetic. */
  function ObjectsHash(hashes: seq<int32>): int32
  {
    if hashes == [] then 1 else Wrap(31 * ObjectsHash(hashes[..|hashes| - 1]) as int + hashes[|hashes| - 1] as int)
  }
}
