/**
 * String vocabulary shared by the frontend and backend models: the two
 * notions of white space (JavaScript `String.prototype.trim` and Python
 * `str.strip`), joining, substring search, decimal rendering of integers
 * as Python f-strings and JavaScript `toString` print them, and the small
 * helpers the MIME-type computation needs.
 */
module Text {

  // ---------------------------------------------------------------------
  // White space

  /** ECMAScript LineTerminator: the characters a regular-expression `.` does not match. */
  predicate IsJsLineTerminator(c: char) {
    c == '\n' || c == '\r' || c == '\U{2028}' || c == '\U{2029}'
  }

  /** ECMAScript WhiteSpace or LineTerminator: what `String.prototype.trim` removes. */
  predicate IsJsWhitespace(c: char) {
    || c == '\t' || c == '\U{000B}' || c == '\U{000C}' || c == ' '
    || c == '\U{00A0}' || c == '\U{FEFF}' || c == '\U{1680}'
    || ('\U{2000}' <= c <= '\U{200A}')
    || c == '\U{202F}' || c == '\U{205F}' || c == '\U{3000}'
    || IsJsLineTerminator(c)
  }

  /** Python `str.isspace` on one character: what `str.strip()` removes. */
  predicate IsPyWhitespace(c: char) {
    || ('\t' <= c <= '\r')
    || ('\U{001C}' <= c <= '\U{001F}')
    || c == ' ' || c == '\U{0085}' || c == '\U{00A0}' || c == '\U{1680}'
    || ('\U{2000}' <= c <= '\U{200A}')
    || c == '\U{2028}' || c == '\U{2029}' || c == '\U{202F}' || c == '\U{205F}' || c == '\U{3000}'
  }

  /** How many leading characters of `s` satisfy `ws`. */
  function LeadingCount(s: string, ws: char -> bool): (n: nat)
    ensures n <= |s|
    ensures forall k :: 0 <= k < n ==> ws(s[k])
    ensures n < |s| ==> !ws(s[n])
  {
    if s != [] && ws(s[0]) then 1 + LeadingCount(s[1..], ws) else 0
  }

  /** `s` with its leading characters satisfying `ws` removed. */
  function TrimLeft(s: string, ws: char -> bool): (r: string)
    ensures |r| <= |s| && r == s[|s| - |r|..]
    ensures r != [] ==> !ws(r[0])
    ensures forall k :: 0 <= k < |s| - |r| ==> ws(s[k])
  {
    s[LeadingCount(s, ws)..]
  }

  /** `s` with its trailing characters satisfying `ws` removed. */
  function TrimRight(s: string, ws: char -> bool): (r: string)
    ensures |r| <= |s| && r == s[..|r|]
    ensures r != [] ==> !ws(r[|r| - 1])
    ensures forall k :: |r| <= k < |s| ==> ws(s[k])
  {
    if s != [] && ws(s[|s| - 1]) then TrimRight(s[..|s| - 1], ws) else s
  }

  /** Both ends trimmed. */
  function Strip(s: string, ws: char -> bool): string {
    TrimRight(TrimLeft(s, ws), ws)
  }

  /** JavaScript `s.trim()`. */
  function JsTrim(s: string): string {
    Strip(s, IsJsWhitespace)
  }

  /** Python `s.strip()` with no argument. */
  function PyStrip(s: string): string {
    Strip(s, IsPyWhitespace)
  }

  /** Neither end of `s` is white space in the sense of `ws`. */
  predicate Trimmed(s: string, ws: char -> bool) {
    s == [] || (!ws(s[0]) && !ws(s[|s| - 1]))
  }

  /** The stripped string is a slice of the input with white space on both sides cut away. */
  lemma StripIsSlice(s: string, ws: char -> bool)
    ensures Trimmed(Strip(s, ws), ws)
    ensures exists i, j :: 0 <= i <= j <= |s| && Strip(s, ws) == s[i..j]
                        && (forall k :: 0 <= k < i ==> ws(s[k]))
                        && (forall k :: j <= k < |s| ==> ws(s[k]))
  {
    var l := TrimLeft(s, ws);
    var r := TrimRight(l, ws);
    var i := |s| - |l|;
    var j := i + |r|;
    assert r == l[..|r|];
    assert l == s[i..];
    assert r == s[i..j];
    assert forall k :: 0 <= k < i ==> ws(s[k]);
    forall k | j <= k < |s| ensures ws(s[k]) {
      assert s[k] == l[k - i];
    }
    assert 0 <= i <= j <= |s| && Strip(s, ws) == s[i..j];
  }

  /** A string already free of white space at both ends is its own strip. */
  lemma StripOfTrimmed(s: string, ws: char -> bool)
    requires Trimmed(s, ws)
    ensures Strip(s, ws) == s
  {
  }

  /** Stripping twice is stripping once. */
  lemma StripIdempotent(s: string, ws: char -> bool)
    ensures Strip(Strip(s, ws), ws) == Strip(s, ws)
  {
    StripIsSlice(s, ws);
    StripOfTrimmed(Strip(s, ws), ws);
  }

  /** The strip of a string with no white space at all is the string itself. */
  lemma StripNoWhitespace(s: string, ws: char -> bool)
    requires forall k :: 0 <= k < |s| ==> !ws(s[k])
    ensures Strip(s, ws) == s
  {
  }

  // ---------------------------------------------------------------------
  // Joining

  /** `sep.join(parts)` in Python, `parts.join(sep)` in JavaScript. */
  function Join(parts: seq<string>, sep: string): (r: string)
    ensures |parts| == 0 ==> r == ""
    ensures |parts| == 1 ==> r == parts[0]
    ensures |parts| >= 1 ==> |r| >= |parts[0]| && r[..|parts[0]|] == parts[0]
  {
    if |parts| == 0 then ""
    else if |parts| == 1 then parts[0]
    else parts[0] + sep + Join(parts[1..], sep)
  }

  /** Appending one more part adds the separator and that part at the end. */
  lemma {:induction false} JoinSnoc(parts: seq<string>, p: string, sep: string)
    requires parts != []
    ensures Join(parts + [p], sep) == Join(parts, sep) + sep + p
  {
    if |parts| == 1 {
      assert parts + [p] == [parts[0], p];
    } else {
      assert (parts + [p])[1..] == parts[1..] + [p];
      JoinSnoc(parts[1..], p, sep);
    }
  }

  /** Total length of all parts. */
  function TotalLength(parts: seq<string>): nat {
    if parts == [] then 0 else |parts[0]| + TotalLength(parts[1..])
  }

  /** The joined text is the parts plus one separator between each neighbouring pair. */
  lemma {:induction false} JoinLength(parts: seq<string>, sep: string)
    requires parts != []
    ensures |Join(parts, sep)| == TotalLength(parts) + (|parts| - 1) * |sep|
  {
    if |parts| > 1 {
      JoinLength(parts[1..], sep);
    }
  }

  // ---------------------------------------------------------------------
  // Substrings

  /** `w` occurs in `s` starting at index `i`. */
  predicate OccursAt(s: string, w: string, i: int) {
    0 <= i && i + |w| <= |s| && s[i..i + |w|] == w
  }

  /** `w in s` in Python, `s.includes(w)` in JavaScript. */
  predicate Contains(s: string, w: string) {
    exists i :: 0 <= i <= |s| - |w| && OccursAt(s, w, i)
  }

  /** `s` begins with `w`. */
  predicate StartsWith(s: string, w: string) {
    |w| <= |s| && s[..|w|] == w
  }

  /** A prefix of a string occurs in it at index 0. */
  lemma StartsWithContains(s: string, w: string)
    requires StartsWith(s, w)
    ensures Contains(s, w)
  {
    assert OccursAt(s, w, 0);
  }

  /** Contains for a one-character word is plain membership. */
  lemma ContainsChar(s: string, c: char)
    ensures Contains(s, [c]) <==> c in s
  {
    if c in s {
      var i :| 0 <= i < |s| && s[i] == c;
      assert OccursAt(s, [c], i);
    }
    if Contains(s, [c]) {
      var i :| 0 <= i <= |s| - 1 && OccursAt(s, [c], i);
      assert s[i] == s[i..i + 1][0] == c;
    }
  }

  /** An occurrence survives text added on either side. */
  lemma OccursInLarger(a: string, t: string, b: string, w: string, i: int)
    requires OccursAt(t, w, i)
    ensures OccursAt(a + t + b, w, |a| + i)
  {
    assert (a + t + b)[|a| + i..|a| + i + |w|] == t[i..i + |w|];
  }

  /** Containment survives text added on either side. */
  lemma ContainsInLarger(a: string, t: string, b: string, w: string)
    requires Contains(t, w)
    ensures Contains(a + t + b, w)
  {
    var i :| 0 <= i <= |t| - |w| && OccursAt(t, w, i);
    OccursInLarger(a, t, b, w, i);
  }

  /** A word inside a part of a text is inside the text. */
  lemma ContainsTransitive(s: string, t: string, w: string)
    requires Contains(s, t) && Contains(t, w)
    ensures Contains(s, w)
  {
    var i :| 0 <= i <= |s| - |t| && OccursAt(s, t, i);
    var j :| 0 <= j <= |t| - |w| && OccursAt(t, w, j);
    OccursInLarger(s[..i], t, s[i + |t|..], w, j);
    assert s[..i] + t + s[i + |t|..] == s;
  }

  /** Every part of a joined list occurs in the result. */
  lemma {:induction false} JoinMentionsEveryPart(parts: seq<string>, sep: string)
    ensures forall k :: 0 <= k < |parts| ==> Contains(Join(parts, sep), parts[k])
    decreases |parts|
  {
    if |parts| == 1 {
      assert OccursAt(parts[0], parts[0], 0);
    } else if |parts| > 1 {
      var rest := Join(parts[1..], sep);
      JoinMentionsEveryPart(parts[1..], sep);
      assert Join(parts, sep) == parts[0] + (sep + rest) + "";
      forall k | 0 <= k < |parts| ensures Contains(Join(parts, sep), parts[k]) {
        if k == 0 {
          OccursInLarger("", parts[0], sep + rest, parts[0], 0);
          assert "" + parts[0] + (sep + rest) == Join(parts, sep);
        } else {
          assert parts[1..][k - 1] == parts[k];
          var i :| 0 <= i <= |rest| - |parts[k]| && OccursAt(rest, parts[k], i);
          OccursInLarger(parts[0] + sep, rest, "", parts[k], i);
          assert parts[0] + sep + rest + "" == Join(parts, sep);
        }
      }
    }
  }

  // ---------------------------------------------------------------------
  // Numbers as text

  /** The decimal digit character for `d`. */
  function DigitChar(d: nat): (c: char)
    requires d < 10
    ensures '0' <= c <= '9'
  {
    "0123456789"[d]
  }

  /** ASCII `0`..`9`: what `\d` matches in a JavaScript regular expression without the `u` flag. */
  predicate IsDigit(c: char) {
    '0' <= c <= '9'
  }

  /** The value of a digit character. */
  function DigitValue(c: char): (d: nat)
    requires IsDigit(c)
    ensures d < 10 && DigitChar(d) == c
  {
    (c as int - '0' as int) as nat
  }

  /** Decimal text of a natural number, most significant digit first, no leading zeros. */
  function NatString(n: nat): (r: string)
    ensures r != [] && forall k :: 0 <= k < |r| ==> IsDigit(r[k])
    ensures n > 0 ==> r[0] != '0'
  {
    if n < 10 then [DigitChar(n)] else NatString(n / 10) + [DigitChar(n % 10)]
  }

  /** Decimal text of an integer, with a leading `-` for negatives: `str(n)` in Python, `String(n)` in JavaScript. */
  function IntString(n: int): (r: string)
    ensures r != []
    ensures n >= 0 <==> r[0] != '-'
  {
    if n >= 0 then NatString(n) else "-" + NatString(-n)
  }

  /** The number a string of decimal digits spells. */
  function ParseDigits(s: string): nat
    requires forall k :: 0 <= k < |s| ==> IsDigit(s[k])
  {
    if s == [] then 0 else 10 * ParseDigits(s[..|s| - 1]) + DigitValue(s[|s| - 1])
  }

  /** Rendering a natural number and reading it back gives the number. */
  lemma {:induction false} NatStringRoundTrip(n: nat)
    ensures ParseDigits(NatString(n)) == n
  {
    var r := NatString(n);
    if n >= 10 {
      NatStringRoundTrip(n / 10);
      assert r[..|r| - 1] == NatString(n / 10);
    }
  }

  /** Different naturals render differently. */
  lemma NatStringInjective(m: nat, n: nat)
    requires NatString(m) == NatString(n)
    ensures m == n
  {
    NatStringRoundTrip(m);
    NatStringRoundTrip(n);
  }

  // ---------------------------------------------------------------------
  // Characters and file names

  /** ASCII lower-casing of one character. */
  function LowerChar(c: char): (r: char)
    ensures 'A' <= c <= 'Z' ==> 'a' <= r <= 'z'
    ensures !('A' <= c <= 'Z') ==> r == c
  {
    if 'A' <= c <= 'Z' then (c as int + 32) as char else c
  }

  /** `s.lower()` on the ASCII letters of `s`. */
  function Lower(s: string): (r: string)
    ensures |r| == |s|
    ensures forall k :: 0 <= k < |s| ==> r[k] == LowerChar(s[k])
  {
    if s == [] then [] else [LowerChar(s[0])] + Lower(s[1..])
  }

  /** `s.split(sep)[-1]`: the text after the last occurrence of `sep`, or all of `s`. */
  function AfterLast(s: string, sep: char): (r: string)
    ensures |r| <= |s| && r == s[|s| - |r|..]
    ensures sep !in r
    ensures |r| < |s| ==> s[|s| - |r| - 1] == sep
  {
    if s == [] then []
    else if s[|s| - 1] == sep then []
    else AfterLast(s[..|s| - 1], sep) + [s[|s| - 1]]
  }

  /** Without any `sep`, the whole string is the last segment. */
  lemma {:induction false} AfterLastNoSep(s: string, sep: char)
    requires sep !in s
    ensures AfterLast(s, sep) == s
    decreases |s|
  {
    if s != [] {
      assert s[|s| - 1] in s;
      AfterLastNoSep(s[..|s| - 1], sep);
      assert s[..|s| - 1] + [s[|s| - 1]] == s;
    }
  }

  /** The segment after an explicit `sep` that is followed by no other is exactly what follows it. */
  lemma {:induction false} AfterLastOf(s: string, t: string, sep: char)
    requires sep !in t
    ensures AfterLast(s + [sep] + t, sep) == t
    decreases |t|
  {
    var whole := s + [sep] + t;
    if t != [] {
      assert t[|t| - 1] in t;
      assert whole[..|whole| - 1] == s + [sep] + t[..|t| - 1];
      AfterLastOf(s, t[..|t| - 1], sep);
      assert t[..|t| - 1] + [t[|t| - 1]] == t;
    }
  }
}
