/**
 * JavaScript's `string.length`, which the form schemas' `.min(n)` rules compare against. A
 * JavaScript string is a sequence of UTF-16 code units: a character of the Basic Multilingual
 * Plane takes one unit, and any other character takes a surrogate pair of two.
 */
module JsString {

  /** The first code point outside the Basic Multilingual Plane. */
  const AstralStart: int := 0x1_0000

  /** How many UTF-16 code units encode `c`. */
  function CodeUnits(c: char): (n: nat)
    ensures n == 1 <==> (c as int) < AstralStart
    ensures n == 1 || n == 2
  {
    if (c as int) < AstralStart then 1 else 2
  }

  /** `s.length` in JavaScript: the UTF-16 code units of `s`. */
  function Utf16Length(s: string): (n: nat)
    ensures |s| <= n <= 2 * |s|
  {
    if s == [] then 0 else CodeUnits(s[0]) + Utf16Length(s[1..])
  }

  /** Lengths add up over concatenation. */
  lemma {:induction false} Utf16LengthConcat(x: string, y: string)
    ensures Utf16Length(x + y) == Utf16Length(x) + Utf16Length(y)
  {
    if x != [] {
      assert (x + y)[1..] == x[1..] + y;
      Utf16LengthConcat(x[1..], y);
    } else {
      assert x + y == y;
    }
  }

  /** A string of Basic Multilingual Plane characters is as long in JavaScript as in characters, and only such a string. */
  lemma {:induction false} Utf16LengthBasic(s: string)
    ensures Utf16Length(s) == |s| <==> forall i :: 0 <= i < |s| ==> (s[i] as int) < AstralStart
  {
    if s != [] {
      Utf16LengthBasic(s[1..]);
      assert forall i :: 1 <= i < |s| ==> s[i] == s[1..][i - 1];
    }
  }

  /** One character outside the Basic Multilingual Plane, such as an emoji, has length 2. */
  lemma AstralCharacterLength(c: char)
    requires (c as int) >= AstralStart
    ensures Utf16Length([c]) == 2
  {
    assert [c][1..] == [];
  }
}
