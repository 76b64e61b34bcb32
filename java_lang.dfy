/**
 * The few pieces of Java's runtime semantics the weather service relies on:
 * nullable values, the exceptions its operations can raise, 32-bit `int`
 * arithmetic, the `(int)` narrowing of a `double`, the truncating `%`, and
 * ASCII upper-casing as used by `String.toUpperCase` on enum names.
 */
module JavaLang {

  /** A Java reference that may be `null`. */
  datatype Option<+T> = None | Some(value: T)

  /** The result of a parse that may fail (`Double.valueOf`, a JSON decode). */
  datatype Parsed<+T> = Malformed | Parsed(value: T)

  /** The exception classes that the modelled code raises or lets escape. */
  datatype Exception =
    | WeatherException
    | IllegalArgumentException
    | NullPointerException
    | IndexOutOfBoundsException
    | ArrayIndexOutOfBoundsException
    | NumberFormatException
    | NegativeArraySizeException

  /** How a `void` method ends: normally, or by throwing. */
  datatype Outcome = Normal | Thrown(exception: Exception)

  /** How a value-returning method ends: with a value, or by throwing. */
  datatype Result<+T> = Returned(value: T) | Raised(exception: Exception)

  const INT_MIN: int := -0x8000_0000
  const INT_MAX: int := 0x7fff_ffff

  predicate IsInt(x: int) { INT_MIN <= x <= INT_MAX }

  /** `Map.getOrDefault`. */
  function GetOrDefault<K, V>(m: map<K, V>, k: K, default: V): (r: V)
    ensures k in m ==> r == m[k]
    ensures k !in m ==> r == default
  {
    if k in m then m[k] else default
  }

  /** The value of a mathematical integer as a Java `int`: two's-complement wrap-around. */
  function Wrap(x: int): (r: int)
    ensures IsInt(r)
    ensures (x - r) % 0x1_0000_0000 == 0
    ensures IsInt(x) ==> r == x
  {
    (x - INT_MIN) % 0x1_0000_0000 + INT_MIN
  }

  /**
   * `Double.intValue()`, i.e. the `(int)` cast of a `double`: rounds toward
   * zero and saturates at the bounds of `int`.
   */
  function IntValue(d: real): (r: int)
    ensures IsInt(r)
    ensures 0.0 <= d ==> 0 <= r && r as real <= d && (r == INT_MAX || d < r as real + 1.0)
    ensures d < 0.0 ==> r <= 0 && d <= r as real && (r == INT_MIN || r as real - 1.0 < d)
  {
    var t := if d >= 0.0 then d.Floor else -((-d).Floor);
    if t > INT_MAX then INT_MAX else if t < INT_MIN then INT_MIN else t
  }

  /** The `(int)` cast never reverses the order of two values. */
  lemma IntValueMonotonic(a: real, b: real)
    requires a <= b
    ensures IntValue(a) <= IntValue(b)
  {
    if a < 0.0 <= b {
    } else if 0.0 <= a {
      assert a.Floor <= b.Floor;
    } else {
      assert (-b).Floor <= (-a).Floor;
    }
  }

  /** Java's `x % 10`: truncating, so the sign of the remainder follows `x`. */
  function Rem10(x: int): (r: int)
    ensures (x - r) % 10 == 0
    ensures 0 <= x ==> 0 <= r < 10 && r <= x
    ensures x < 0 ==> -10 < r <= 0
  {
    if x >= 0 then x % 10 else -((-x) % 10)
  }

  /** Upper-casing of one character, for the ASCII letters only. */
  function UpperChar(c: char): char
  {
    if 'a' <= c <= 'z' then (c as int - 'a' as int + 'A' as int) as char else c
  }

  /** `String.toUpperCase`, restricted to ASCII letters. */
  function AsciiUpper(s: string): (r: string)
    ensures |r| == |s|
    ensures forall i :: 0 <= i < |s| ==> r[i] == UpperChar(s[i])
  {
    if s == [] then [] else [UpperChar(s[0])] + AsciiUpper(s[1..])
  }

  /** A string with no lower-case ASCII letter is its own upper-case form. */
  lemma {:induction false} AsciiUpperOfUpper(s: string)
    requires forall i :: 0 <= i < |s| ==> !('a' <= s[i] <= 'z')
    ensures AsciiUpper(s) == s
  {
    if s != [] {
      assert forall i :: 0 <= i < |s[1..]| ==> s[1..][i] == s[i + 1];
      AsciiUpperOfUpper(s[1..]);
    }
  }
}
