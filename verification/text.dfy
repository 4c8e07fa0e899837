/** The string operations the page relies on, written out over `seq<char>`:
    JavaScript's `trim`, `replace` with a string pattern, an ASCII
    `toUpperCase`, `repeat` and decimal printing of a count. It also holds
    reference definitions that are not operations of the page: joining a
    document's lines into a text file, and reading a text back as lines.
    These state what the page's export produces. */
module Text {

  /** The code points `String.prototype.trim` strips: the WhiteSpace and
      LineTerminator productions of ECMAScript (sections 12.2 and 12.3 of
      ECMA-262), i.e. tab, line feed, vertical tab, form feed, carriage
      return, space, no-break space, the byte-order mark, the line and
      paragraph separators and the Zs separators U+1680, U+2000 to U+200A,
      U+202F, U+205F and U+3000. */
  predicate IsWhitespace(c: char) {
    || '\t' <= c <= '\r'
    || c == ' ' || c == '\U{00A0}' || c == '\U{1680}'
    || '\U{2000}' <= c <= '\U{200A}'
    || c == '\U{2028}' || c == '\U{2029}' || c == '\U{202F}' || c == '\U{205F}'
    || c == '\U{3000}' || c == '\U{FEFF}'
  }

  predicate AllWhitespace(s: string) {
    forall i :: 0 <= i < |s| ==> IsWhitespace(s[i])
  }

  /** The position of the first non-whitespace character of `s` at or after `i` */
  function SkipWhitespace(s: string, i: nat): (j: nat)
    requires i <= |s|
    ensures i <= j <= |s|
    ensures forall k :: i <= k < j ==> IsWhitespace(s[k])
    ensures j == |s| || !IsWhitespace(s[j])
    decreases |s| - i
  {
    if i < |s| && IsWhitespace(s[i]) then SkipWhitespace(s, i + 1) else i
  }

  /** The position just after the last non-whitespace character of `s` before `j` */
  function SkipWhitespaceBack(s: string, j: nat): (e: nat)
    requires j <= |s|
    ensures e <= j
    ensures forall k :: e <= k < j ==> IsWhitespace(s[k])
    ensures e == 0 || !IsWhitespace(s[e - 1])
  {
    if j > 0 && IsWhitespace(s[j - 1]) then SkipWhitespaceBack(s, j - 1) else j
  }

  /** Neither starts nor ends with whitespace */
  predicate IsTrimmed(s: string) {
    s == [] || (!IsWhitespace(s[0]) && !IsWhitespace(s[|s| - 1]))
  }

  /** JavaScript's `s.trim()`: empty exactly when `s` is all whitespace,
      and never starting or ending with whitespace (TrimCutsWhitespace says
      what is cut away). */
  function Trim(s: string): (r: string)
    ensures r == [] <==> AllWhitespace(s)
    ensures IsTrimmed(r)
  {
    var i := SkipWhitespace(s, 0);
    var e := SkipWhitespaceBack(s, |s|);
    if e <= i then
      assert AllWhitespace(s[..|s|]);
      []
    else
      s[i..e]
  }

  /** Trim keeps one slice of `s` and cuts away only whitespace on either side. */
  lemma TrimCutsWhitespace(s: string)
    ensures exists i :: 0 <= i <= |s| - |Trim(s)| && Trim(s) == s[i..i + |Trim(s)|]
                        && AllWhitespace(s[..i]) && AllWhitespace(s[i + |Trim(s)|..])
  {
    var i := SkipWhitespace(s, 0);
    var e := SkipWhitespaceBack(s, |s|);
    if e <= i {
      assert AllWhitespace(s[..0]) && AllWhitespace(s[0..]);
      assert Trim(s) == s[0..0];
    } else {
      assert AllWhitespace(s[..i]);
      assert AllWhitespace(s[e..]);
    }
  }

  /** A trimmed text trims to itself. */
  lemma TrimmedIsFixed(s: string)
    requires IsTrimmed(s)
    ensures Trim(s) == s
  {
    if s != [] {
      assert SkipWhitespace(s, 0) == 0;
      assert SkipWhitespaceBack(s, |s|) == |s|;
      assert s[0..|s|] == s;
    }
  }

  /** Trimming is idempotent. */
  lemma TrimIdempotent(s: string)
    ensures Trim(Trim(s)) == Trim(s)
  {
    TrimmedIsFixed(Trim(s));
  }

  /** The position of the first occurrence of `c` in `s` */
  function FirstIndex(s: string, c: char): (i: nat)
    requires c in s
    ensures i < |s| && s[i] == c && c !in s[..i]
  {
    if s[0] == c then 0 else 1 + FirstIndex(s[1..], c)
  }

  /** JavaScript's `s.replace(p, '')` for a one-character string pattern `p`:
      only the FIRST occurrence is removed, wherever it stands. */
  function RemoveFirst(s: string, c: char): (r: string)
    ensures c !in s ==> r == s
    ensures c in s ==> |r| == |s| - 1
    ensures forall x :: x in r ==> x in s
  {
    if |s| == 0 then s
    else if s[0] == c then s[1..]
    else [s[0]] + RemoveFirst(s[1..], c)
  }

  /** What is removed is the character at the first index of c, and
      everything before and after it is kept in order. */
  lemma {:induction false} RemoveFirstAt(s: string, c: char)
    requires c in s
    ensures RemoveFirst(s, c) == s[..FirstIndex(s, c)] + s[FirstIndex(s, c) + 1..]
  {
    if s[0] != c {
      RemoveFirstAt(s[1..], c);
      var i := FirstIndex(s[1..], c);
      assert s[1..][..i] == s[1..i + 1];
      assert s[1..][i + 1..] == s[i + 2..];
      assert [s[0]] + s[1..i + 1] == s[..i + 1];
    }
  }

  /** `toUpperCase` restricted to ASCII: maps a-z to A-Z, leaves the rest. */
  function UpperChar(c: char): char {
    if 'a' <= c <= 'z' then (c as int - 32) as char else c
  }

  function ToUpperAscii(s: string): (r: string)
    ensures |r| == |s|
    ensures forall i :: 0 <= i < |s| ==> r[i] == UpperChar(s[i])
  {
    if |s| == 0 then [] else [UpperChar(s[0])] + ToUpperAscii(s[1..])
  }

  /** Upper-casing leaves no lower-case ASCII letter, changes nothing else,
      and doing it twice is doing it once. */
  lemma UpperAsciiFacts(s: string)
    ensures forall i :: 0 <= i < |s| ==> !('a' <= ToUpperAscii(s)[i] <= 'z')
    ensures forall i :: 0 <= i < |s| && !('a' <= s[i] <= 'z') ==> ToUpperAscii(s)[i] == s[i]
    ensures ToUpperAscii(ToUpperAscii(s)) == ToUpperAscii(s)
    ensures '\n' !in s ==> '\n' !in ToUpperAscii(s)
  {
    var r := ToUpperAscii(s);
    if '\n' in r {
      var i := FirstIndex(r, '\n');
      assert s[i] == '\n';
    }
  }

  /** `[c].repeat(n)` */
  function Repeat(c: char, n: nat): (r: string)
    ensures |r| == n
    ensures forall i :: 0 <= i < n ==> r[i] == c
  {
    seq(n, _ => c)
  }

  predicate IsDigit(c: char) {
    '0' <= c <= '9'
  }

  function DigitChar(d: nat): (c: char)
    requires d < 10
    ensures IsDigit(c)
  {
    ('0' as int + d) as char
  }

  /** How JavaScript prints a non-negative integer count inside JSX:
      its decimal digits, with no leading zero. */
  function NatToDecimal(n: nat): (r: string)
    ensures |r| >= 1
    ensures forall i :: 0 <= i < |r| ==> IsDigit(r[i])
    ensures r[0] == '0' ==> n == 0 && r == "0"
  {
    if n < 10 then [DigitChar(n)] else NatToDecimal(n / 10) + [DigitChar(n % 10)]
  }

  /** The number a string of decimal digits denotes */
  function DecimalValue(s: string): nat
    requires forall i :: 0 <= i < |s| ==> IsDigit(s[i])
  {
    if |s| == 0 then 0
    else
      assert IsDigit(s[|s| - 1]);
      10 * DecimalValue(s[..|s| - 1]) + (s[|s| - 1] as int - '0' as int)
  }

  /** Reading the printed count back gives the count. */
  lemma {:induction false} DecimalRoundTrip(n: nat)
    ensures DecimalValue(NatToDecimal(n)) == n
  {
    var r := NatToDecimal(n);
    if n >= 10 {
      DecimalRoundTrip(n / 10);
      assert r[..|r| - 1] == NatToDecimal(n / 10);
    }
  }

  /** The lines of a document joined by line feeds, as a text file holds them */
  function JoinLines(ls: seq<string>): (r: string)
    requires |ls| > 0
  {
    if |ls| == 1 then ls[0] else ls[0] + "\n" + JoinLines(ls[1..])
  }

  /** A reference reading of a text as pieces: the pieces between the
      occurrences of c, with an empty piece where two are adjacent or where c
      opens or closes the text (as JavaScript's `split` with a one-character
      separator would give; the page itself never splits a string) */
  function Split(s: string, c: char): (r: seq<string>)
    ensures |r| >= 1
    ensures c !in s ==> r == [s]
    decreases |s|
  {
    if c !in s then [s]
    else
      var i := FirstIndex(s, c);
      [s[..i]] + Split(s[i + 1..], c)
  }

  /** The lines of a text: the pieces between line feeds */
  function SplitLines(s: string): (r: seq<string>)
    ensures |r| >= 1
    ensures '\n' !in s ==> r == [s]
  {
    Split(s, '\n')
  }

  /** The concatenation of the pieces, with nothing between them */
  function Concat(ls: seq<string>): (r: string)
    ensures NoLineFeed(ls) ==> '\n' !in r
  {
    if |ls| == 0 then [] else ls[0] + Concat(ls[1..])
  }

  /** No line holds a line feed of its own */
  predicate NoLineFeed(ls: seq<string>) {
    forall i :: 0 <= i < |ls| ==> '\n' !in ls[i]
  }

  /** Splitting joined lines gives the lines back, provided none of them
      holds a line feed of its own. */
  lemma {:induction false} SplitJoin(ls: seq<string>)
    requires |ls| > 0
    requires NoLineFeed(ls)
    ensures SplitLines(JoinLines(ls)) == ls
  {
    assert '\n' !in ls[0];
    if |ls| > 1 {
      var rest := JoinLines(ls[1..]);
      SplitAtFirst(ls[0], '\n', rest);
      assert ls[0] + "\n" + rest == ls[0] + ['\n'] + rest;
      SplitJoin(ls[1..]);
      assert ls == [ls[0]] + ls[1..];
    }
  }

  /** The first c of `a + [c] + b` is the one after `a`, when `a` has none. */
  lemma SplitAtFirst(a: string, c: char, b: string)
    requires c !in a
    ensures Split(a + [c] + b, c) == [a] + Split(b, c)
  {
    var s := a + [c] + b;
    assert s[|a|] == c;
    var i := FirstIndex(s, c);
    assert i == |a|;
    assert s[..i] == a;
    assert s[i + 1..] == b;
  }

  /** Concatenating the lines of a document with nothing between them
      leaves a text of ONE line: every line boundary is lost. */
  lemma ConcatIsOneLine(ls: seq<string>)
    requires NoLineFeed(ls)
    ensures SplitLines(Concat(ls)) == [Concat(ls)]
  {
  }
}
