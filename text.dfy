/** String helpers standing in for the JavaScript string methods the app calls:
    toUpperCase / toLowerCase (modelled as the ASCII case map), trim and includes. */
module Text {

  /** ASCII upper-casing of one character; every other character is left alone. */
  function UpperChar(c: char): char {
    if 'a' <= c <= 'z' then (c as int - 32) as char else c
  }

  /** ASCII lower-casing of one character. */
  function LowerChar(c: char): char {
    if 'A' <= c <= 'Z' then (c as int + 32) as char else c
  }

  function Upper(s: string): (u: string)
    ensures |u| == |s|
  {
    seq(|s|, i requires 0 <= i < |s| => UpperChar(s[i]))
  }

  function Lower(s: string): (l: string)
    ensures |l| == |s|
  {
    seq(|s|, i requires 0 <= i < |s| => LowerChar(s[i]))
  }

  /** Lower-casing forgets whether a string was upper-cased first. */
  lemma LowerOfUpper(s: string)
    ensures Lower(Upper(s)) == Lower(s)
  {
    forall i | 0 <= i < |s|
      ensures Lower(Upper(s))[i] == Lower(s)[i]
    {
      assert Upper(s)[i] == UpperChar(s[i]);
    }
  }

  lemma UpperAppend(a: string, b: string)
    ensures Upper(a + b) == Upper(a) + Upper(b)
  {
    assert Upper(a + b) == Upper(a) + Upper(b);
  }

  /** The characters String.prototype.trim removes: WhiteSpace and LineTerminator of ECMAScript. */
  predicate IsWhitespace(c: char) {
    c == '\t' || c == '\n' || c == '\U{000B}' || c == '\U{000C}' || c == '\r' || c == ' '
    || c == '\U{00A0}' || c == '\U{1680}' || ('\U{2000}' <= c <= '\U{200A}')
    || c == '\U{2028}' || c == '\U{2029}' || c == '\U{202F}' || c == '\U{205F}'
    || c == '\U{3000}' || c == '\U{FEFF}'
  }

  predicate AllWhitespace(s: string) {
    forall i :: 0 <= i < |s| ==> IsWhitespace(s[i])
  }

  function TrimStart(s: string): string
    decreases |s|
  {
    if |s| > 0 && IsWhitespace(s[0]) then TrimStart(s[1..]) else s
  }

  function TrimEnd(s: string): string
    decreases |s|
  {
    if |s| > 0 && IsWhitespace(s[|s| - 1]) then TrimEnd(s[..|s| - 1]) else s
  }

  function Trim(s: string): string {
    TrimEnd(TrimStart(s))
  }

  /** Leading whitespace is dropped up to the first other character. */
  lemma {:induction false} TrimStartPadding(w: string, y: string)
    requires AllWhitespace(w)
    requires |y| > 0 && !IsWhitespace(y[0])
    ensures TrimStart(w + y) == y
    decreases |w|
  {
    if w == [] {
      assert w + y == y;
    } else {
      assert (w + y)[1..] == w[1..] + y;
      TrimStartPadding(w[1..], y);
    }
  }

  /** Trailing whitespace is dropped back to the last other character. */
  lemma {:induction false} TrimEndPadding(y: string, w: string)
    requires AllWhitespace(w)
    requires |y| > 0 && !IsWhitespace(y[|y| - 1])
    ensures TrimEnd(y + w) == y
    decreases |w|
  {
    if w == [] {
      assert y + w == y;
    } else {
      var n := |y + w|;
      assert (y + w)[n - 1] == w[|w| - 1];
      assert (y + w)[..n - 1] == y + w[..|w| - 1];
      TrimEndPadding(y, w[..|w| - 1]);
    }
  }

  /** Trim undoes whitespace padding on both sides of a string with non-blank ends. */
  lemma TrimPadding(w1: string, y: string, w2: string)
    requires AllWhitespace(w1) && AllWhitespace(w2)
    requires |y| > 0 && !IsWhitespace(y[0]) && !IsWhitespace(y[|y| - 1])
    ensures Trim(w1 + y + w2) == y
  {
    assert w1 + y + w2 == w1 + (y + w2);
    assert (y + w2)[0] == y[0];
    TrimStartPadding(w1, y + w2);
    TrimEndPadding(y, w2);
  }

  /** TrimStart stops at the first character that is not whitespace. */
  lemma {:induction false} TrimStartFirst(s: string)
    ensures var t := TrimStart(s); t == [] || !IsWhitespace(t[0])
    decreases |s|
  {
    if |s| > 0 && IsWhitespace(s[0]) {
      TrimStartFirst(s[1..]);
    }
  }

  /** TrimEnd keeps a non-blank first character and stops at a character that is not whitespace. */
  lemma {:induction false} TrimEndEnds(s: string)
    requires |s| > 0 && !IsWhitespace(s[0])
    ensures var t := TrimEnd(s); |t| > 0 && t[0] == s[0] && !IsWhitespace(t[|t| - 1])
    decreases |s|
  {
    if IsWhitespace(s[|s| - 1]) {
      TrimEndEnds(s[..|s| - 1]);
    }
  }

  /** A trimmed string is empty or begins and ends with a character that is not whitespace. */
  lemma TrimmedEnds(s: string)
    ensures var t := Trim(s); t == [] || (!IsWhitespace(t[0]) && !IsWhitespace(t[|t| - 1]))
  {
    TrimStartFirst(s);
    if TrimStart(s) != [] {
      TrimEndEnds(TrimStart(s));
    }
  }

  /** Upper-casing maps whitespace to itself. */
  lemma UpperOfWhitespace(w: string)
    requires AllWhitespace(w)
    ensures Upper(w) == w
  {
    forall i | 0 <= i < |w| ensures Upper(w)[i] == w[i] {
      assert IsWhitespace(w[i]);
    }
  }

  /** String.prototype.includes: t occurs in s as a contiguous block. */
  predicate Contains(s: string, t: string) {
    exists k :: 0 <= k <= |s| - |t| && OccursAt(s, t, k)
  }

  predicate OccursAt(s: string, t: string, k: nat)
    requires k + |t| <= |s|
  {
    s[k..k + |t|] == t
  }

  lemma ContainsEmpty(s: string)
    ensures Contains(s, "")
  {
    assert OccursAt(s, "", 0);
  }

  predicate IsDigit(c: char) {
    '0' <= c <= '9'
  }

  function DigitChar(d: nat): (c: char)
    requires d < 10
    ensures IsDigit(c)
  {
    ('0' as int + d) as char
  }
}
