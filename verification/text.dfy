/** The string operations of the .NET base library that the news service leans on
    (`IsNullOrWhiteSpace`, `ToLower`, `Trim`, `Contains`, `Split`, `Join`,
    `Take`, `int.ToString`), modelled on `seq<char>`. Letter case and white
    space are modelled for ASCII only. */
module Text {
  import opened Wrappers

  // ── White space and blankness ────────────────────────────────────────────

  /** `char.IsWhiteSpace` restricted to ASCII: the space and U+0009..U+000D. */
  predicate IsWhiteSpace(c: char) {
    c == ' ' || ('\t' <= c <= '\r')
  }

  /** A string made of white space only (the empty string included). */
  predicate IsBlank(s: string) {
    forall i :: 0 <= i < |s| ==> IsWhiteSpace(s[i])
  }

  /** `string.IsNullOrWhiteSpace`. */
  predicate IsNullOrWhiteSpace(o: Option<string>) {
    o.None? || IsBlank(o.value)
  }

  /** `string.IsNullOrEmpty`. */
  predicate IsNullOrEmpty(o: Option<string>) {
    o.None? || |o.value| == 0
  }

  /** `s.TrimStart()`: drops the leading white space and nothing else. */
  function TrimStart(s: string): (r: string)
    ensures |r| <= |s| && r == s[|s| - |r|..]
    ensures IsBlank(s[..|s| - |r|])
    ensures |r| > 0 ==> !IsWhiteSpace(r[0])
  {
    if |s| > 0 && IsWhiteSpace(s[0]) then TrimStart(s[1..]) else s
  }

  /** `s.TrimEnd()`: drops the trailing white space and nothing else. */
  function TrimEnd(s: string): (r: string)
    ensures |r| <= |s| && r == s[..|r|]
    ensures IsBlank(s[|r|..])
    ensures |r| > 0 ==> !IsWhiteSpace(r[|r| - 1])
  {
    if |s| > 0 && IsWhiteSpace(s[|s| - 1]) then TrimEnd(s[..|s| - 1]) else s
  }

  /** `s.Trim()`: the longest middle part of `s` whose ends are not white space. */
  function Trim(s: string): (r: string)
  {
    TrimEnd(TrimStart(s))
  }

  /** Trimming keeps a contiguous slice of the input, drops only white space around
      it, and leaves no white space at either end. */
  lemma TrimSlice(s: string)
    ensures exists i, j :: 0 <= i <= j <= |s| && Trim(s) == s[i..j]
                           && IsBlank(s[..i]) && IsBlank(s[j..])
    ensures |Trim(s)| > 0 ==> !IsWhiteSpace(Trim(s)[0]) && !IsWhiteSpace(Trim(s)[|Trim(s)| - 1])
  {
    var t := TrimStart(s);
    var i := |s| - |t|;
    var j := i + |TrimEnd(t)|;
    assert s[i..j] == t[..|TrimEnd(t)|];
    assert s[j..] == t[|TrimEnd(t)|..];
  }

  /** Trimming keeps the window of `s` that starts after the leading white space. */
  lemma TrimWindow(s: string)
    ensures |s| - |TrimStart(s)| + |Trim(s)| <= |s|
    ensures forall k :: 0 <= k < |Trim(s)| ==> Trim(s)[k] == s[|s| - |TrimStart(s)| + k]
  {
    var t := TrimStart(s);
    assert forall k :: 0 <= k < |TrimEnd(t)| ==> TrimEnd(t)[k] == t[k];
  }

  // ── Letter case ───────────────────────────────────────────────────────────

  /** ASCII lower-casing of one character. */
  function LowerChar(c: char): char {
    if 'A' <= c <= 'Z' then (c as int + 32) as char else c
  }

  /** `s.ToLower()`, ASCII only. */
  function Lower(s: string): (r: string)
    ensures |r| == |s|
  {
    seq(|s|, i requires 0 <= i < |s| => LowerChar(s[i]))
  }

  /** Lower-cased text holds no upper-case ASCII letter. */
  lemma LowerHasNoUpper(s: string)
    ensures forall i :: 0 <= i < |Lower(s)| ==> !('A' <= Lower(s)[i] <= 'Z')
  {
  }

  /** Lower-casing then trimming keeps a slice of the lower-cased text, with only
      white space around it, no upper-case letter and no white space at its ends. */
  lemma TrimLower(s: string)
    ensures |Trim(Lower(s))| <= |s|
    ensures exists i, j :: 0 <= i <= j <= |s| && Trim(Lower(s)) == Lower(s)[i..j]
                           && IsBlank(Lower(s)[..i]) && IsBlank(Lower(s)[j..])
    ensures forall i :: 0 <= i < |Trim(Lower(s))| ==> !('A' <= Trim(Lower(s))[i] <= 'Z')
    ensures |Trim(Lower(s))| > 0 ==>
              !IsWhiteSpace(Trim(Lower(s))[0]) && !IsWhiteSpace(Trim(Lower(s))[|Trim(Lower(s))| - 1])
  {
    LowerHasNoUpper(s);
    TrimSlice(Lower(s));
    TrimWindow(Lower(s));
  }

  /** `x?.ToLower() ?? ""`: a null field lower-cases to the empty string. */
  function LowerOrEmpty(o: Option<string>): string {
    Lower(o.GetOr(""))
  }

  /** `string.Equals(a, b, StringComparison.OrdinalIgnoreCase)`, ASCII only. */
  predicate EqualsIgnoreCase(a: string, b: string) {
    Lower(a) == Lower(b)
  }

  /** Lower-casing twice is lower-casing once. */
  lemma LowerIdempotent(s: string)
    ensures Lower(Lower(s)) == Lower(s)
  {
  }

  /** Lower-casing never creates or removes a given non-letter character. */
  lemma LowerKeepsNonLetter(s: string, c: char)
    requires !('A' <= c <= 'Z') && !('a' <= c <= 'z')
    ensures c in Lower(s) <==> c in s
  {
    if c in s {
      var i :| 0 <= i < |s| && s[i] == c;
      assert Lower(s)[i] == c;
    }
    if c in Lower(s) {
      var i :| 0 <= i < |s| && Lower(s)[i] == c;
      assert s[i] == c;
    }
  }

  // ── Substrings ────────────────────────────────────────────────────────────

  /** `s.Contains(sub)` (ordinal). */
  predicate Contains(s: string, sub: string)
    decreases |s|
  {
    sub <= s || (|s| > 0 && Contains(s[1..], sub))
  }

  /** `sub` occurs in `s` starting at position `i`. */
  ghost predicate OccursAt(s: string, sub: string, i: int) {
    0 <= i <= |s| - |sub| && s[i..i + |sub|] == sub
  }

  /** `Contains` holds exactly when `sub` occurs at some position of `s`. */
  lemma {:induction false} ContainsAt(s: string, sub: string)
    ensures Contains(s, sub) <==> exists i :: OccursAt(s, sub, i)
    decreases |s|
  {
    if sub <= s {
      assert OccursAt(s, sub, 0);
    } else if |s| > 0 {
      ContainsAt(s[1..], sub);
      if Contains(s[1..], sub) {
        var i :| OccursAt(s[1..], sub, i);
        assert s[i + 1..i + 1 + |sub|] == s[1..][i..i + |sub|];
        assert OccursAt(s, sub, i + 1);
      }
      if exists i :: OccursAt(s, sub, i) {
        var i :| OccursAt(s, sub, i);
        if i > 0 {
          assert s[1..][i - 1..i - 1 + |sub|] == s[i..i + |sub|];
          assert OccursAt(s[1..], sub, i - 1);
        }
      }
    }
  }

  /** `s.Contains(sub, StringComparison.OrdinalIgnoreCase)`, ASCII only. */
  predicate ContainsIgnoreCase(s: string, sub: string) {
    Contains(Lower(s), Lower(sub))
  }

  // ── Sequences of strings ──────────────────────────────────────────────────

  /** `string.Join(sep, xs)`. */
  function Join(sep: string, xs: seq<string>): string
    decreases |xs|
  {
    if |xs| == 0 then ""
    else if |xs| == 1 then xs[0]
    else xs[0] + sep + Join(sep, xs[1..])
  }

  /** LINQ `xs.Take(n)`: the first `n` elements, all of them when there are fewer,
      none when `n` is not positive. */
  function Take<T>(xs: seq<T>, n: int): (r: seq<T>)
    ensures |r| <= |xs| && r <= xs
    ensures n <= 0 ==> |r| == 0
    ensures 0 <= n <= |xs| ==> |r| == n
    ensures n >= |xs| ==> r == xs
  {
    if n <= 0 then [] else if n >= |xs| then xs else xs[..n]
  }

  /** Length of the leading run of `s` that does not contain `sep`. */
  function RunLength(s: string, sep: char): (n: nat)
    ensures n <= |s|
    ensures sep !in s[..n]
    ensures n == |s| || s[n] == sep
  {
    if |s| == 0 || s[0] == sep then 0 else 1 + RunLength(s[1..], sep)
  }

  /** `s.Split(sep, StringSplitOptions.RemoveEmptyEntries)`: the maximal non-empty
      runs of `s` free of `sep`, in order. */
  function Tokens(s: string, sep: char): (ws: seq<string>)
    ensures forall k :: 0 <= k < |ws| ==> |ws[k]| > 0 && sep !in ws[k]
    decreases |s|
  {
    if |s| == 0 then []
    else if s[0] == sep then Tokens(s[1..], sep)
    else
      var n := RunLength(s, sep);
      [s[..n]] + Tokens(s[n..], sep)
  }

  /** The run length of a separator-free word followed by anything starting with
      the separator is the word's length. */
  lemma {:induction false} RunLengthOfWord(w: string, sep: char, rest: string)
    requires sep !in w
    requires |rest| == 0 || rest[0] == sep
    ensures RunLength(w + rest, sep) == |w|
    decreases |w|
  {
    if |w| > 0 {
      assert (w + rest)[1..] == w[1..] + rest;
      RunLengthOfWord(w[1..], sep, rest);
    }
  }

  /** Splitting undoes joining: joining non-empty, separator-free words with the
      separator and splitting again gives back the words. */
  lemma {:induction false} TokensJoin(ws: seq<string>, sep: char)
    requires forall k :: 0 <= k < |ws| ==> |ws[k]| > 0 && sep !in ws[k]
    ensures Tokens(Join([sep], ws), sep) == ws
    decreases |ws|
  {
    if |ws| == 1 {
      RunLengthOfWord(ws[0], sep, "");
      assert ws[0][..|ws[0]|] == ws[0];
    } else if |ws| > 1 {
      var s := Join([sep], ws);
      var tail := Join([sep], ws[1..]);
      assert s == ws[0] + ([sep] + tail);
      RunLengthOfWord(ws[0], sep, [sep] + tail);
      assert s[..|ws[0]|] == ws[0];
      assert s[|ws[0]|..] == [sep] + tail;
      assert ([sep] + tail)[1..] == tail;
      TokensJoin(ws[1..], sep);
      assert ws == [ws[0]] + ws[1..];
    }
  }

  // ── Integers in decimal ───────────────────────────────────────────────────

  /** The decimal digit character for `d`. */
  function DigitChar(d: nat): char
    requires d < 10
  {
    ('0' as int + d) as char
  }

  predicate IsDigit(c: char) {
    '0' as int <= c as int <= '9' as int
  }

  /** Decimal representation of a natural number, most significant digit first,
      without leading zeros. */
  function NatToString(n: nat): (s: string)
    ensures |s| > 0
    ensures forall k :: 0 <= k < |s| ==> IsDigit(s[k])
  {
    if n < 10 then [DigitChar(n)] else NatToString(n / 10) + [DigitChar(n % 10)]
  }

  /** `int.ToString()` with the invariant culture: a minus sign, then the digits. */
  function IntToString(i: int): string {
    if i < 0 then "-" + NatToString(-i) else NatToString(i)
  }

  /** Value of a string of decimal digits. */
  function ParseDigits(s: string): nat
    requires forall k :: 0 <= k < |s| ==> IsDigit(s[k])
  {
    if |s| == 0 then 0
    else
      assert IsDigit(s[|s| - 1]);
      10 * ParseDigits(s[..|s| - 1]) + (s[|s| - 1] as int - '0' as int)
  }

  /** Inverse of `IntToString`. */
  function ParseInt(s: string): int
    requires |s| > 0
    requires s[0] == '-' ==> forall k :: 1 <= k < |s| ==> IsDigit(s[k])
    requires s[0] != '-' ==> forall k :: 0 <= k < |s| ==> IsDigit(s[k])
  {
    if s[0] == '-' then 0 - ParseDigits(s[1..]) as int else ParseDigits(s)
  }

  lemma {:induction false} ParseNatToString(n: nat)
    ensures ParseDigits(NatToString(n)) == n
  {
    if n >= 10 {
      var s := NatToString(n);
      assert s[..|s| - 1] == NatToString(n / 10);
      ParseNatToString(n / 10);
    }
  }

  /** Parsing undoes printing. */
  lemma IntToStringRoundTrip(i: int)
    ensures |IntToString(i)| > 0
    ensures ParseInt(IntToString(i)) == i
  {
    var s := IntToString(i);
    if i < 0 {
      assert s[1..] == NatToString(-i);
      ParseNatToString(-i);
    } else {
      assert IsDigit(s[0]);
      ParseNatToString(i);
    }
  }

  /** Distinct integers print differently, so a page number segment pins the page. */
  lemma IntToStringInjective(a: int, b: int)
    requires IntToString(a) == IntToString(b)
    ensures a == b
  {
    IntToStringRoundTrip(a);
    IntToStringRoundTrip(b);
  }

  /** A printed integer holds digits and possibly a minus sign, never `'|'` or `'_'`. */
  lemma IntToStringChars(i: int)
    ensures forall k :: 0 <= k < |IntToString(i)| ==> IntToString(i)[k] == '-' || IsDigit(IntToString(i)[k])
    ensures '|' !in IntToString(i) && '_' !in IntToString(i)
  {
  }
}
