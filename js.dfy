/**
 * The few pieces of JavaScript semantics the frontend rules depend on:
 * string length in UTF-16 code units, truthiness of an optional boolean
 * property, the characters a regular expression's `.` refuses, and the
 * record of whether a component invoked a callback prop.
 */
module Js {
  import opened Wrappers

  /** `s.length`: astral characters (above U+FFFF) are two UTF-16 code units. */
  function Utf16Length(s: string): (n: nat)
    ensures |s| <= n <= 2 * |s|
  {
    if s == [] then 0
    else (if s[0] as int > 0xFFFF then 2 else 1) + Utf16Length(s[1..])
  }

  /** A string without astral characters is as long in JavaScript as it is in characters. */
  lemma {:induction false} Utf16LengthOfBmp(s: string)
    requires forall i :: 0 <= i < |s| ==> s[i] as int <= 0xFFFF
    ensures Utf16Length(s) == |s|
  {
    if s != [] {
      Utf16LengthOfBmp(s[1..]);
    }
  }

  /** An optional boolean property read in a condition: only `true` is truthy; absent is `undefined`. */
  function Truthy(b: Option<bool>): (t: bool)
    ensures t <==> b.Some? && b.value
  {
    b == Some(true)
  }

  /** `!x.flag` stored back into the record: always a present boolean. */
  function Negated(b: Option<bool>): (r: Option<bool>)
    ensures r.Some? && (Truthy(r) <==> !Truthy(b))
  {
    Some(!Truthy(b))
  }

  /** The line terminators that `.` does not match in a regular expression without the `s` flag. */
  predicate IsLineTerminator(c: char) {
    c == '\n' || c == '\r' || c == '\U{2028}' || c == '\U{2029}'
  }

  /** Whether a callback prop was invoked by a handler, and with what argument. */
  datatype Callback<+T> = NotCalled | Called(arg: T)
}
