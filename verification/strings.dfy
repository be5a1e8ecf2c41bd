/**
 * The JavaScript string built-ins the agents lean on: `toLowerCase`,
 * `includes`, `Array.prototype.some` over phrase lists, the `\s` and `\d`
 * character classes, and `parseInt` without a radix argument.
 */
module Strings {
  import opened Optional

  // ---------------------------------------------------------------------
  // Case folding
  // ---------------------------------------------------------------------

  /** `toLowerCase` on one character, restricted to the ASCII letters. */
  function LowerChar(c: char): char
  {
    if 'A' <= c <= 'Z' then ((c as int) + 32) as char else c
  }

  /** `toUpperCase` on one character, restricted to the ASCII letters. */
  function UpperChar(c: char): char
  {
    if 'a' <= c <= 'z' then ((c as int) - 32) as char else c
  }

  /** `s.toLowerCase()`: every character folded, length kept. */
  function Lower(s: string): (r: string)
    ensures |r| == |s|
    ensures forall i :: 0 <= i < |s| ==> r[i] == LowerChar(s[i])
  {
    seq(|s|, i requires 0 <= i < |s| => LowerChar(s[i]))
  }

  /** `s.toUpperCase()`: every character folded, length kept. */
  function Upper(s: string): (r: string)
    ensures |r| == |s|
    ensures forall i :: 0 <= i < |s| ==> r[i] == UpperChar(s[i])
  {
    seq(|s|, i requires 0 <= i < |s| => UpperChar(s[i]))
  }

  /** ASCII folding to lower case forgets the letter case the text was written in. */
  lemma LowerOfUpper(s: string)
    ensures Lower(Upper(s)) == Lower(s)
  {
    assert forall i :: 0 <= i < |s| ==> Lower(Upper(s))[i] == Lower(s)[i];
  }

  // ---------------------------------------------------------------------
  // Substring search
  // ---------------------------------------------------------------------

  /** `p` occurs in `s` starting at offset `i`. */
  predicate OccursAt(s: string, p: string, i: int)
  {
    0 <= i && i + |p| <= |s| && s[i..i + |p|] == p
  }

  /** `s.includes(p)`, computed by trying each offset in turn. */
  function Includes(s: string, p: string): (r: bool)
    ensures r <==> exists i :: OccursAt(s, p, i)
    decreases |s|
  {
    if |p| <= |s| && s[..|p|] == p then
      assert OccursAt(s, p, 0);
      true
    else if |s| == 0 then
      assert forall i :: !OccursAt(s, p, i);
      false
    else
      IncludesShift(s, p);
      Includes(s[1..], p)
  }

  /** An occurrence in `s` away from offset 0 is an occurrence in `s[1..]`, and back. */
  lemma IncludesShift(s: string, p: string)
    requires |s| > 0
    requires !OccursAt(s, p, 0)
    ensures (exists i :: OccursAt(s, p, i)) <==> (exists i :: OccursAt(s[1..], p, i))
  {
    if i :| OccursAt(s, p, i) {
      assert i > 0;
      assert s[1..][i - 1..i - 1 + |p|] == s[i..i + |p|];
      assert OccursAt(s[1..], p, i - 1);
    }
    if i :| OccursAt(s[1..], p, i) {
      assert s[1..][i..i + |p|] == s[i + 1..i + 1 + |p|];
      assert OccursAt(s, p, i + 1);
    }
  }

  /** A phrase that matches a window of the text, letter case aside, is included in the lower-cased text. */
  lemma IncludesLowerWindow(s: string, p: string, i: nat)
    requires i + |p| <= |s|
    requires Lower(s[i..i + |p|]) == p
    ensures Includes(Lower(s), p)
  {
    var window := Lower(s)[i..i + |p|];
    forall k | 0 <= k < |p|
      ensures window[k] == p[k]
    {
      assert window[k] == LowerChar(s[i + k]) == LowerChar(s[i..i + |p|][k]);
    }
    assert window == p;
    assert OccursAt(Lower(s), p, i);
  }

  /** `xs.some(f)`: some element of the list satisfies `f`. */
  function AnySatisfies<T>(xs: seq<T>, f: T -> bool): (r: bool)
    ensures r <==> exists k :: 0 <= k < |xs| && f(xs[k])
  {
    if |xs| == 0 then false
    else if f(xs[0]) then true
    else
      assert forall k :: 1 <= k < |xs| ==> xs[k] == xs[1..][k - 1];
      AnySatisfies(xs[1..], f)
  }

  /** `phrases.some(phrase => text.includes(phrase))`. */
  function AnyIncluded(text: string, phrases: seq<string>): (r: bool)
    ensures r <==> exists k :: 0 <= k < |phrases| && Includes(text, phrases[k])
  {
    AnySatisfies(phrases, phrase => Includes(text, phrase))
  }

  // ---------------------------------------------------------------------
  // Character classes and runs
  // ---------------------------------------------------------------------

  /** The regular-expression class `\d`: an ASCII decimal digit. */
  predicate IsDigit(c: char)
  {
    '0' <= c <= '9'
  }

  /**
   * The regular-expression class `\s`, which is also the set of characters
   * `parseInt` skips: WhiteSpace and LineTerminator of ECMAScript.
   */
  predicate IsSpace(c: char)
  {
    || c == '\t' || c == '\n' || c == '\U{B}' || c == '\U{C}' || c == '\r' || c == ' '
    || c == '\U{A0}' || c == '\U{1680}' || ('\U{2000}' <= c <= '\U{200A}')
    || c == '\U{2028}' || c == '\U{2029}' || c == '\U{202F}' || c == '\U{205F}'
    || c == '\U{3000}' || c == '\U{FEFF}'
  }

  /** Length of the longest run of characters satisfying `p` that starts at offset `i`. */
  function Run(s: string, i: int, p: char -> bool): (n: nat)
    ensures i + n <= |s| || n == 0
    ensures forall k :: i <= k < i + n ==> 0 <= k < |s| && p(s[k])
    ensures 0 <= i && i + n < |s| ==> !p(s[i + n])
    decreases |s| - i
  {
    if 0 <= i < |s| && p(s[i]) then 1 + Run(s, i + 1, p) else 0
  }

  // ---------------------------------------------------------------------
  // parseInt
  // ---------------------------------------------------------------------

  /** The value of one decimal or hexadecimal digit character; 0 for any other character. */
  function DigitValue(c: char): nat
  {
    if '0' <= c <= '9' then (c as int) - ('0' as int)
    else if 'a' <= c <= 'f' then (c as int) - ('a' as int) + 10
    else if 'A' <= c <= 'F' then (c as int) - ('A' as int) + 10
    else 0
  }

  /** A hexadecimal digit, either case. */
  predicate IsHexDigit(c: char)
  {
    IsDigit(c) || 'a' <= c <= 'f' || 'A' <= c <= 'F'
  }

  /** The number the digit string `ds` denotes in base `radix`, most significant digit first. */
  function DigitsValue(ds: string, radix: nat): nat
  {
    if |ds| == 0 then 0
    else DigitsValue(ds[..|ds| - 1], radix) * radix + DigitValue(ds[|ds| - 1])
  }

  /** The value of the longest run of digits at the front of `ds`; `None` if there is none. */
  function LeadingNumber(ds: string, isDigit: char -> bool, radix: nat): Option<nat>
  {
    var n := Run(ds, 0, isDigit);
    if n == 0 then None else Some(DigitsValue(ds[..n], radix))
  }

  /** The text starts with `0x` or `0X`. */
  predicate HasHexPrefix(u: string)
  {
    |u| >= 2 && u[0] == '0' && (u[1] == 'x' || u[1] == 'X')
  }

  /**
   * `parseInt(s)` with no radix: leading white space skipped, then the
   * signed number; `None` stands for `NaN` (no digit at all).
   */
  function ParseInt(s: string): Option<int>
  {
    ParseSigned(s[Run(s, 0, IsSpace)..])
  }

  /** One optional sign, then the magnitude. */
  function ParseSigned(t: string): Option<int>
  {
    var negative := |t| > 0 && t[0] == '-';
    var u := if |t| > 0 && (t[0] == '-' || t[0] == '+') then t[1..] else t;
    match Magnitude(u)
    case None => None
    case Some(m) => Some(if negative then 0 - m as int else m as int)
  }

  /** A `0x`/`0X` prefix selecting base 16, else base 10, then the longest run of digits. */
  function Magnitude(u: string): Option<nat>
  {
    if HasHexPrefix(u) then LeadingNumber(u[2..], IsHexDigit, 16) else LeadingNumber(u, IsDigit, 10)
  }

  /** A non-empty string of decimal digits parses to its decimal value. */
  lemma ParseIntOfDigits(ds: string)
    requires |ds| > 0
    requires forall k :: 0 <= k < |ds| ==> IsDigit(ds[k])
    ensures ParseInt(ds) == Some(DigitsValue(ds, 10))
  {
    assert Run(ds, 0, IsSpace) == 0;
    assert ds[0..] == ds;
    assert !HasHexPrefix(ds);
    RunCoversAll(ds, 0, IsDigit);
    assert ds[..|ds|] == ds;
    assert Magnitude(ds) == Some(DigitsValue(ds, 10));
    assert ParseSigned(ds) == Some(DigitsValue(ds, 10));
  }

  /** When every character from `i` on satisfies `p`, the run reaches the end. */
  lemma {:induction false} RunCoversAll(s: string, i: nat, p: char -> bool)
    requires i <= |s|
    requires forall k :: i <= k < |s| ==> p(s[k])
    ensures Run(s, i, p) == |s| - i
    decreases |s| - i
  {
    if i < |s| {
      RunCoversAll(s, i + 1, p);
    }
  }

  /** `parseInt(null)` reads the text "null", which has no digit: the result is `NaN`. */
  lemma ParseIntOfNull()
    ensures ParseInt("null") == None
  {
    var s := "null";
    assert Run(s, 0, IsSpace) == 0;
    assert s[0..] == s;
    assert !HasHexPrefix(s);
    assert Run(s, 0, IsDigit) == 0;
  }
}
