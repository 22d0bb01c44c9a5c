/**
 * The JavaScript string operations the client and the handlers rely on:
 * String.prototype.trim, toUpperCase, Array.prototype.join and
 * replace with a global regular expression.
 */
module JsText {

  /**
   * The characters trim removes: ECMAScript WhiteSpace (TAB, VT, FF, SP,
   * NBSP, ZWNBSP and the other space separators of category Zs: U+1680,
   * U+2000 to U+200A, U+202F, U+205F, U+3000) and LineTerminator (LF, CR,
   * LS, PS).
   */
  const Whitespace: set<char> := {
    '\t', '\U{000B}', '\U{000C}', ' ', '\U{00A0}', '\U{FEFF}', '\U{1680}',
    '\U{2000}', '\U{2001}', '\U{2002}', '\U{2003}', '\U{2004}', '\U{2005}', '\U{2006}', '\U{2007}', '\U{2008}', '\U{2009}', '\U{200A}',
    '\U{202F}', '\U{205F}', '\U{3000}', '\n', '\r', '\U{2028}', '\U{2029}'
  }

  predicate IsWhitespace(c: char) {
    c in Whitespace
  }

  /** Every character of s is whitespace (the empty string included). */
  predicate Blank(s: string) {
    forall i | 0 <= i < |s| :: IsWhitespace(s[i])
  }

  /** t occurs in s starting at index i. */
  predicate OccursAt(s: string, t: string, i: int) {
    0 <= i && i + |t| <= |s| && s[i..i + |t|] == t
  }

  /** A value spliced between two templates that end and start with '"' appears quoted. */
  lemma QuotedBetween(pre: string, x: string, post: string)
    requires |pre| > 0 && pre[|pre| - 1] == '"'
    requires |post| > 0 && post[0] == '"'
    ensures OccursAt(pre + x + post, "\"" + x + "\"", |pre| - 1)
  {
    var s := pre + x + post;
    assert s[|pre| - 1..|pre| + |x| + 1] == "\"" + x + "\"" by {
      assert s[|pre| - 1] == '"';
      assert s[|pre| + |x|] == '"';
      assert s[|pre|..|pre| + |x|] == x;
    }
  }

  /** The index of the first character at or after i that is not whitespace, or |s|. */
  function SkipForward(s: string, i: nat): (j: nat)
    requires i <= |s|
    ensures i <= j <= |s|
    ensures forall k | i <= k < j :: IsWhitespace(s[k])
    ensures j < |s| ==> !IsWhitespace(s[j])
    decreases |s| - i
  {
    if i < |s| && IsWhitespace(s[i]) then SkipForward(s, i + 1) else i
  }

  /**
   * The index just after the last character before j that is not
   * whitespace, going no lower than lo.
   */
  function SkipBackward(s: string, lo: nat, j: nat): (i: nat)
    requires lo <= j <= |s|
    ensures lo <= i <= j
    ensures forall k | i <= k < j :: IsWhitespace(s[k])
    ensures i > lo ==> !IsWhitespace(s[i - 1])
  {
    if j > lo && IsWhitespace(s[j - 1]) then SkipBackward(s, lo, j - 1) else j
  }

  /**
   * String.prototype.trim: the part of s between its leading and trailing
   * whitespace. What it drops is whitespace only, what it keeps neither
   * starts nor ends with whitespace, and it is empty exactly when s is blank.
   */
  function Trim(s: string): (r: string)
    ensures r == "" <==> Blank(s)
    ensures r != "" ==> !IsWhitespace(r[0]) && !IsWhitespace(r[|r| - 1])
    ensures var i := SkipForward(s, 0);
      OccursAt(s, r, i) && Blank(s[..i]) && Blank(s[i + |r|..])
  {
    var i := SkipForward(s, 0);
    var j := SkipBackward(s, i, |s|);
    assert Blank(s[..i]) by {
      forall k | 0 <= k < i ensures IsWhitespace(s[..i][k]) { assert s[..i][k] == s[k]; }
    }
    assert Blank(s[j..]) by {
      forall k | 0 <= k < |s| - j ensures IsWhitespace(s[j..][k]) { assert s[j..][k] == s[j + k]; }
    }
    assert i == j ==> i == |s|;
    s[i..j]
  }

  /** Character.toUpperCase restricted to ASCII letters. */
  function UpperChar(c: char): char {
    if 'a' <= c <= 'z' then (c as int - 32) as char else c
  }

  /**
   * String.prototype.toUpperCase, on the ASCII letters: the length is kept,
   * no lower-case ASCII letter is left, each lower-case letter becomes the
   * capital 32 code points below it, and every other character stays.
   */
  function ToUpperCase(s: string): (r: string)
    ensures |r| == |s|
    ensures forall i | 0 <= i < |r| :: !('a' <= r[i] <= 'z')
    ensures forall i | 0 <= i < |s| :: 'a' <= s[i] <= 'z' ==> r[i] as int == s[i] as int - 32
    ensures forall i | 0 <= i < |s| :: !('a' <= s[i] <= 'z') ==> r[i] == s[i]
  {
    seq(|s|, i requires 0 <= i < |s| => UpperChar(s[i]))
  }

  /** Upper-casing twice is upper-casing once. */
  lemma ToUpperCaseIdempotent(s: string)
    ensures ToUpperCase(ToUpperCase(s)) == ToUpperCase(s)
  {
  }

  /** Upper-casing works character by character, so it distributes over concatenation. */
  lemma ToUpperCaseConcat(a: string, b: string)
    ensures ToUpperCase(a + b) == ToUpperCase(a) + ToUpperCase(b)
  {
  }

  /** Array.prototype.join: the parts in order with sep between neighbours. */
  function Join(parts: seq<string>, sep: string): (r: string)
    ensures |parts| == 1 ==> r == parts[0]
    ensures parts == [] ==> r == ""
    ensures parts != [] ==> |parts[0]| <= |r| && r[..|parts[0]|] == parts[0]
  {
    if |parts| == 0 then ""
    else if |parts| == 1 then parts[0]
    else parts[0] + sep + Join(parts[1..], sep)
  }

  /** Joining one more part adds one separator and the part at the end. */
  lemma {:induction false} JoinSnoc(parts: seq<string>, last: string, sep: string)
    requires parts != []
    ensures Join(parts + [last], sep) == Join(parts, sep) + sep + last
  {
    if |parts| == 1 {
      assert (parts + [last])[1..] == [last];
    } else {
      assert (parts + [last])[1..] == parts[1..] + [last];
      JoinSnoc(parts[1..], last, sep);
    }
  }

  /**
   * text.replace(/\n/g, "<br>"): every line feed becomes "<br>", every other
   * character is kept in order. No line feed survives.
   */
  function ReplaceNewlines(s: string): (r: string)
    ensures '\n' !in r
    ensures '\n' !in s ==> r == s
    ensures |r| >= |s|
  {
    if s == "" then ""
    else
      var rest := ReplaceNewlines(s[1..]);
      assert s == [s[0]] + s[1..];
      (if s[0] == '\n' then "<br>" else [s[0]]) + rest
  }

  /** One character: a line feed becomes "<br>", any other character stays. */
  lemma ReplaceNewlinesChar(c: char)
    ensures ReplaceNewlines([c]) == if c == '\n' then "<br>" else [c]
  {
  }

  /** The replacement works character by character, so it distributes over concatenation. */
  lemma {:induction false} ReplaceNewlinesConcat(a: string, b: string)
    ensures ReplaceNewlines(a + b) == ReplaceNewlines(a) + ReplaceNewlines(b)
  {
    if a != "" {
      assert (a + b)[1..] == a[1..] + b;
      ReplaceNewlinesConcat(a[1..], b);
    } else {
      assert a + b == b;
    }
  }
}
