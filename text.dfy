/**
 * Character-level helpers shared by the store query, the validators and the web client:
 * ASCII case folding, substring containment, .NET white space, and decimal printing.
 */
module Text {

  /** ASCII lower-casing of one character; every other character is left alone. */
  function FoldChar(c: char): char
  {
    if 'A' <= c <= 'Z' then (c as int + 32) as char else c
  }

  /** Lower-cases a whole string, character by character. */
  function Fold(s: string): (r: string)
    ensures |r| == |s|
    ensures forall i :: 0 <= i < |s| ==> r[i] == FoldChar(s[i])
  {
    if s == [] then [] else [FoldChar(s[0])] + Fold(s[1..])
  }

  /** `needle` occurs in `hay` starting at index `i`. */
  predicate OccursAt(hay: string, needle: string, i: nat)
  {
    i + |needle| <= |hay| && hay[i..i + |needle|] == needle
  }

  /** Case-sensitive substring containment (JavaScript's `includes`). */
  predicate Contains(hay: string, needle: string)
  {
    exists i: nat :: i <= |hay| && OccursAt(hay, needle, i)
  }

  /** Case-insensitive substring containment: what a pattern with no metacharacters matches under the "i" option. */
  predicate ContainsIgnoreCase(hay: string, needle: string)
  {
    Contains(Fold(hay), Fold(needle))
  }

  lemma {:induction false} FoldIdempotent(s: string)
    ensures Fold(Fold(s)) == Fold(s)
  {
    if s != [] {
      FoldIdempotent(s[1..]);
      assert Fold(s)[1..] == Fold(s[1..]);
    }
  }

  /** The empty term occurs in every string. */
  lemma EmptyTermOccurs(hay: string)
    ensures ContainsIgnoreCase(hay, "")
  {
    assert OccursAt(Fold(hay), Fold(""), 0);
  }

  /** Case does not matter on either side of a case-insensitive match. */
  lemma IgnoresCase(hay: string, needle: string)
    ensures ContainsIgnoreCase(hay, needle) <==> ContainsIgnoreCase(Fold(hay), needle)
    ensures ContainsIgnoreCase(hay, needle) <==> ContainsIgnoreCase(hay, Fold(needle))
  {
    FoldIdempotent(hay);
    FoldIdempotent(needle);
  }

  /** A term occurs in any string that has it as a prefix, whatever the case. */
  lemma PrefixOccurs(term: string, rest: string)
    ensures ContainsIgnoreCase(term + rest, term)
  {
    var h := Fold(term + rest);
    forall i | 0 <= i < |term| ensures h[i] == Fold(term)[i] {
      assert (term + rest)[i] == term[i];
    }
    assert h[0..|term|] == Fold(term);
    assert OccursAt(h, Fold(term), 0);
  }

  /**
   * .NET's `char.IsWhiteSpace`: the space, line and paragraph separators of Unicode,
   * the controls U+0009 to U+000D, and U+0085.
   */
  predicate IsWhiteSpace(c: char)
  {
    || ('\U{0009}' <= c <= '\U{000D}')
    || c == '\U{0020}' || c == '\U{0085}' || c == '\U{00A0}' || c == '\U{1680}'
    || ('\U{2000}' <= c <= '\U{200A}')
    || c == '\U{2028}' || c == '\U{2029}' || c == '\U{202F}' || c == '\U{205F}' || c == '\U{3000}'
  }

  /** `string.IsNullOrWhiteSpace` (a null string is modelled as the empty one). */
  predicate IsBlank(s: string)
  {
    forall i :: 0 <= i < |s| ==> IsWhiteSpace(s[i])
  }

  /**
   * .NET's `string.Length`: the number of UTF-16 code units, one for a character of the Basic
   * Multilingual Plane and two (a surrogate pair) for any character above U+FFFF.
   */
  function Utf16Length(s: string): (n: nat)
    ensures |s| <= n <= 2 * |s|
  {
    if s == [] then 0 else (if s[0] <= '\U{FFFF}' then 1 else 2) + Utf16Length(s[1..])
  }

  /** The length in code units equals the character count within the Basic Multilingual Plane, and doubles above it. */
  lemma {:induction false} Utf16LengthOfPlane(s: string)
    ensures (forall i :: 0 <= i < |s| ==> s[i] <= '\U{FFFF}') ==> Utf16Length(s) == |s|
    ensures (forall i :: 0 <= i < |s| ==> s[i] > '\U{FFFF}') ==> Utf16Length(s) == 2 * |s|
  {
    if s != [] {
      Utf16LengthOfPlane(s[1..]);
      assert forall i :: 0 <= i < |s[1..]| ==> s[1..][i] == s[i + 1];
    }
  }

  function DigitChar(d: nat): char
    requires d < 10
  {
    ['0', '1', '2', '3', '4', '5', '6', '7', '8', '9'][d]
  }

  predicate IsDigit(c: char)
  {
    '0' <= c <= '9'
  }

  /** The decimal text of a natural number, without leading zeros. */
  function NatToDecimal(n: nat): (s: string)
    ensures |s| >= 1
    ensures forall i :: 0 <= i < |s| ==> IsDigit(s[i])
    ensures n > 0 ==> s[0] != '0'
    decreases n
  {
    if n < 10 then [DigitChar(n)] else NatToDecimal(n / 10) + [DigitChar(n % 10)]
  }

  /** The value of a string of decimal digits (its inverse). */
  function DecimalValue(s: string): int
  {
    if s == [] then 0 else 10 * DecimalValue(s[..|s| - 1]) + (s[|s| - 1] as int - '0' as int)
  }

  lemma {:induction false} DecimalRoundTrip(n: nat)
    ensures DecimalValue(NatToDecimal(n)) == n
    decreases n
  {
    var s := NatToDecimal(n);
    if n >= 10 {
      DecimalRoundTrip(n / 10);
      assert s[..|s| - 1] == NatToDecimal(n / 10);
    }
  }

  /** JavaScript's `toString()` / template interpolation of an integral number. */
  function IntToDecimal(i: int): (s: string)
    ensures |s| >= 1
    ensures i < 0 <==> s[0] == '-'
  {
    if i < 0 then "-" + NatToDecimal(-i) else NatToDecimal(i)
  }
}
