/**
 * Character classes and string helpers with Python's meaning: `str.isspace`,
 * `str.lower`, `str.strip`, `in` on strings, slicing, `sep.join`, `str.count`
 * and `str.replace`.
 */
module Text {

  /** Whitespace as `str.isspace` and the regex class `\s` of a `str` pattern see it. */
  predicate IsSpace(c: char) {
    ('\t' <= c <= '\r') || ('\U{1C}' <= c <= ' ') || c == '\U{85}' || c == '\U{A0}'
    || c == '\U{1680}' || ('\U{2000}' <= c <= '\U{200A}') || c == '\U{2028}' || c == '\U{2029}'
    || c == '\U{202F}' || c == '\U{205F}' || c == '\U{3000}'
  }

  /** The regex class `\d`, restricted to ASCII digits. */
  predicate IsDigit(c: char) {
    '0' <= c <= '9'
  }

  predicate IsAsciiLetter(c: char) {
    ('a' <= c <= 'z') || ('A' <= c <= 'Z')
  }

  /** The regex class `\w`, restricted to ASCII letters, digits and `_`. */
  predicate IsWordChar(c: char) {
    IsAsciiLetter(c) || IsDigit(c) || c == '_'
  }

  /** `str.lower` on one character, restricted to the ASCII letters. */
  function Lower(c: char): (r: char)
    ensures !('A' <= r <= 'Z')
    ensures IsAsciiLetter(c) <==> IsAsciiLetter(r)
    ensures !IsAsciiLetter(c) ==> r == c
  {
    if 'A' <= c <= 'Z' then (c as int + 32) as char else c
  }

  /** `s.lower()`. */
  function LowerStr(s: string): (r: string)
    ensures |r| == |s|
    ensures forall i :: 0 <= i < |s| ==> r[i] == Lower(s[i])
  {
    seq(|s|, i requires 0 <= i < |s| => Lower(s[i]))
  }

  /** No upper-case ASCII letter occurs in `s`. */
  predicate IsLowered(s: string) {
    forall i :: 0 <= i < |s| ==> !('A' <= s[i] <= 'Z')
  }

  lemma LowerStrIsLowered(s: string)
    ensures IsLowered(LowerStr(s))
    ensures LowerStr(LowerStr(s)) == LowerStr(s)
  {
  }

  lemma LowerStrAppend(a: string, b: string)
    ensures LowerStr(a + b) == LowerStr(a) + LowerStr(b)
  {
  }

  /** `pat` occurs in `text` starting at index `i`. */
  predicate OccursAt(text: string, pat: string, i: int) {
    0 <= i && i + |pat| <= |text| && text[i..i + |pat|] == pat
  }

  /** Python's `pat in text`. */
  predicate Contains(text: string, pat: string) {
    exists i | 0 <= i <= |text| - |pat| :: OccursAt(text, pat, i)
  }

  /** `s[:n]`. */
  function Take(s: string, n: nat): (r: string)
    ensures |r| <= n && |r| <= |s|
    ensures |s| <= n ==> r == s
    ensures r == s[..|r|]
  {
    if |s| <= n then s else s[..n]
  }

  /** Number of leading whitespace characters of `s`. */
  function LeadingSpaces(s: string): (n: nat)
    ensures n <= |s|
    ensures forall k :: 0 <= k < n ==> IsSpace(s[k])
    ensures n < |s| ==> !IsSpace(s[n])
  {
    if |s| > 0 && IsSpace(s[0]) then 1 + LeadingSpaces(s[1..]) else 0
  }

  /** Number of trailing whitespace characters of `s`. */
  function TrailingSpaces(s: string): (n: nat)
    ensures n <= |s|
    ensures forall k :: |s| - n <= k < |s| ==> IsSpace(s[k])
    ensures n < |s| ==> !IsSpace(s[|s| - n - 1])
  {
    if |s| > 0 && IsSpace(s[|s| - 1]) then 1 + TrailingSpaces(s[..|s| - 1]) else 0
  }

  /** `s.strip()`: the longest infix without whitespace at either end. */
  function Strip(s: string): (r: string)
    ensures |r| <= |s|
  {
    var a := LeadingSpaces(s);
    var b := TrailingSpaces(s[a..]);
    s[a..|s| - b]
  }

  /** What `strip` keeps: no whitespace at either end, nothing when all is whitespace, and all of a string that has none at its ends. */
  lemma StripSpec(s: string)
    ensures var r := Strip(s);
      && (r != [] ==> !IsSpace(r[0]) && !IsSpace(r[|r| - 1]))
      && (r == [] <==> forall k :: 0 <= k < |s| ==> IsSpace(s[k]))
      && (s == [] || (!IsSpace(s[0]) && !IsSpace(s[|s| - 1])) ==> r == s)
  {
    var a := LeadingSpaces(s);
    var rest := s[a..];
    var b := TrailingSpaces(rest);
    var r := Strip(s);
    assert r == rest[..|rest| - b];
    if r == [] {
      if a < |s| {
        assert false;
      }
    } else {
      assert r[0] == s[a];
      assert r[|r| - 1] == rest[|rest| - b - 1];
    }
    if s != [] && !IsSpace(s[0]) && !IsSpace(s[|s| - 1]) {
      assert a == 0;
      assert rest == s;
    }
  }

  lemma {:induction false} StripIdempotent(s: string)
    ensures Strip(Strip(s)) == Strip(s)
  {
    StripSpec(s);
    StripSpec(Strip(s));
  }

  /** A non-empty text with no whitespace at either end: what `strip` leaves of a word. */
  predicate Trimmed(w: string) {
    w != [] && !IsSpace(w[0]) && !IsSpace(w[|w| - 1])
  }

  /** Two trimmed words joined by one blank: `strip` has nothing to remove. */
  lemma StripJoined(a: string, b: string)
    ensures Trimmed(a) && Trimmed(b) ==> Strip(a + " " + b) == a + " " + b
  {
    if Trimmed(a) && Trimmed(b) {
      var s := a + " " + b;
      assert s[0] == a[0] && s[|s| - 1] == b[|b| - 1];
      StripSpec(s);
    }
  }

  /** One trailing blank after a word is all `strip` removes. */
  lemma StripTrailingSpace(w: string)
    requires w != [] && !IsSpace(w[0]) && !IsSpace(w[|w| - 1])
    ensures Strip(w + " ") == w
  {
    var s := w + " ";
    assert s[0] == w[0];
    assert LeadingSpaces(s) == 0;
    assert s[..|s| - 1] == w;
    assert TrailingSpaces(s) == 1 + TrailingSpaces(w);
    assert s[0..] == s;
  }

  /** One leading blank before a word is all `strip` removes. */
  lemma StripLeadingSpace(w: string)
    requires w != [] && !IsSpace(w[0]) && !IsSpace(w[|w| - 1])
    ensures Strip(" " + w) == w
  {
    var s := " " + w;
    assert s[1..] == w;
    assert LeadingSpaces(s) == 1 + LeadingSpaces(w);
    assert TrailingSpaces(w) == 0;
  }

  /** `sep.join(xs)`. */
  function Join(xs: seq<string>, sep: string): (r: string)
    ensures xs == [] ==> r == []
    ensures |xs| == 1 ==> r == xs[0]
  {
    if xs == [] then []
    else if |xs| == 1 then xs[0]
    else xs[0] + sep + Join(xs[1..], sep)
  }

  /** `s.count(c)` for a one-character `c`. */
  function CountChar(s: string, c: char): (n: nat)
    ensures n <= |s|
    ensures n == 0 <==> c !in s
  {
    if s == [] then 0 else (if s[0] == c then 1 else 0) + CountChar(s[1..], c)
  }

  lemma {:induction false} CountCharAppend(a: string, b: string, c: char)
    ensures CountChar(a + b, c) == CountChar(a, c) + CountChar(b, c)
  {
    if a == [] {
      assert a + b == b;
    } else {
      assert (a + b)[1..] == a[1..] + b;
      CountCharAppend(a[1..], b, c);
    }
  }

  /** `s.find(c)`, with `|s|` standing for "not found". */
  function IndexOf(s: string, c: char): (i: nat)
    ensures i <= |s|
    ensures i < |s| ==> s[i] == c
    ensures c !in s[..i]
  {
    if s == [] then 0
    else if s[0] == c then 0
    else
      var j := IndexOf(s[1..], c);
      assert s[..j + 1] == [s[0]] + s[1..][..j];
      1 + j
  }

  /** `s.replace(c, repl)` for a one-character `c`. */
  function ReplaceChar(s: string, c: char, repl: string): (r: string)
    ensures c !in repl ==> c !in r
    ensures |r| == |s| + CountChar(s, c) * (|repl| - 1)
    ensures c !in s ==> r == s
  {
    if s == [] then []
    else
      var b := if s[0] == c then 1 else 0;
      var m := CountChar(s[1..], c);
      var k := |repl| - 1;
      assert CountChar(s, c) == b + m;
      assert (b + m) * k == b * k + m * k;
      (if s[0] == c then repl else [s[0]]) + ReplaceChar(s[1..], c, repl)
  }

  /** Replacing never touches the prefix before the first occurrence of `c`. */
  lemma {:induction false} ReplaceCharPrefix(s: string, c: char, repl: string, n: nat)
    requires n <= |s|
    requires c !in s[..n]
    ensures |ReplaceChar(s, c, repl)| >= n
    ensures ReplaceChar(s, c, repl)[..n] == s[..n]
    ensures n < |s| && s[n] == c && |repl| > 0 ==> |ReplaceChar(s, c, repl)| > n
    ensures n < |s| && s[n] == c && |repl| > 0 ==> ReplaceChar(s, c, repl)[n] == repl[0]
  {
    if n > 0 {
      assert s[0] == s[..n][0];
      assert s[1..][..n - 1] == s[..n][1..];
      ReplaceCharPrefix(s[1..], c, repl, n - 1);
      assert ReplaceChar(s, c, repl) == [s[0]] + ReplaceChar(s[1..], c, repl);
    } else if |s| > 0 && s[0] == c {
      assert ReplaceChar(s, c, repl) == repl + ReplaceChar(s[1..], c, repl);
    }
  }
}
