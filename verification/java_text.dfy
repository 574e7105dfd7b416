/** The two `java.lang.String` operations the configuration check relies on:
    `isBlank` and `toUpperCase`. Strings are sequences of Unicode scalar values. */
module JavaText {

  /** `Character.isWhitespace`: the Unicode space, line and paragraph
      separators except the three non-breaking spaces (U+00A0, U+2007,
      U+202F), plus U+0009..U+000D and U+001C..U+001F. */
  function IsWhitespace(c: char): (b: bool)
    ensures '\t' <= c <= '\r' || c == ' ' ==> b
    ensures b ==> c != '\U{A0}' && c != '\U{2007}' && c != '\U{202F}'
    ensures b ==> c <= '\U{3000}'
  {
    || ('\t' <= c <= '\r')
    || ('\U{1C}' <= c <= '\U{1F}')
    || c == ' '
    || c == '\U{1680}'
    || ('\U{2000}' <= c <= '\U{2006}')
    || ('\U{2008}' <= c <= '\U{200A}')
    || c == '\U{2028}'
    || c == '\U{2029}'
    || c == '\U{205F}'
    || c == '\U{3000}'
  }

  /** `String.indexOfNonWhitespace`: the position of the first character
      that is not white space, or the length when there is none. */
  function IndexOfNonWhitespace(s: string): (i: nat)
    ensures i <= |s|
    ensures forall j :: 0 <= j < i ==> IsWhitespace(s[j])
    ensures i < |s| ==> !IsWhitespace(s[i])
  {
    if |s| == 0 || !IsWhitespace(s[0]) then 0 else 1 + IndexOfNonWhitespace(s[1..])
  }

  /** `String.isBlank`: empty, or white space only. */
  predicate IsBlank(s: string) {
    forall i :: 0 <= i < |s| ==> IsWhitespace(s[i])
  }

  /** The library computes `isBlank` as a scan for a character that is not
      white space reaching the end; that scan and `IsBlank` agree. */
  lemma IsBlankIsScan(s: string)
    ensures IsBlank(s) <==> IndexOfNonWhitespace(s) == |s|
  {
  }

  /** Upper-case mapping of one character, restricted to ASCII letters. */
  function UpperAscii(c: char): char {
    if 'a' <= c <= 'z' then (c as int - 32) as char else c
  }

  /** `String.toUpperCase` over the ASCII letters: the length is kept and no
      lower-case letter is left. */
  function ToUpper(s: string): (r: string)
    ensures |r| == |s|
    ensures forall i :: 0 <= i < |r| ==> !('a' <= r[i] <= 'z')
  {
    seq(|s|, i requires 0 <= i < |s| => UpperAscii(s[i]))
  }

  /** Each lower-case letter becomes its upper-case counterpart, and every
      other character is kept. */
  lemma ToUpperLetters(s: string)
    ensures forall i :: 0 <= i < |s| && 'a' <= s[i] <= 'z' ==>
              'A' <= ToUpper(s)[i] <= 'Z' && ToUpper(s)[i] as int - 'A' as int == s[i] as int - 'a' as int
    ensures forall i :: 0 <= i < |s| && !('a' <= s[i] <= 'z') ==> ToUpper(s)[i] == s[i]
  {
  }

  /** Upper-casing twice is upper-casing once. */
  lemma ToUpperIdempotent(s: string)
    ensures ToUpper(ToUpper(s)) == ToUpper(s)
  {
    var u := ToUpper(s);
    forall i | 0 <= i < |s|
      ensures ToUpper(u)[i] == u[i]
    {
      assert u[i] == UpperAscii(s[i]);
    }
  }
}
