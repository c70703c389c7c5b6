/**
 The string primitives the gateway relies on: ASCII lower-casing, the
 ECMAScript `trim`, prefix/suffix/substring tests, and the line split on
 the pattern `\r?\n` together with its inverse, the join on `"\n"`.
 */
module Text {

  /** ASCII lower-casing of one character. Every comparison the gateway makes
      after `toLowerCase()` is against a pattern of ASCII characters, and the
      only non-ASCII characters whose full Unicode lower-casing yields an ASCII
      letter (KELVIN SIGN to 'k', and U+0130 to "i" followed by U+0307) cannot
      complete any of those patterns, so ASCII lower-casing decides the same. */
  function LowerChar(c: char): char {
    if 'A' <= c <= 'Z' then (c as int + 32) as char else c
  }

  function Lower(s: string): string {
    seq(|s|, i requires 0 <= i < |s| => LowerChar(s[i]))
  }

  /** ECMAScript WhiteSpace and LineTerminator: what `String.prototype.trim` strips. */
  predicate IsSpace(c: char) {
    || '\t' <= c <= '\r'                 // tab, line feed, vertical tab, form feed, carriage return
    || c == ' ' || c == '\U{00A0}' || c == '\U{1680}'
    || '\U{2000}' <= c <= '\U{200A}'
    || c == '\U{2028}' || c == '\U{2029}' || c == '\U{202F}'
    || c == '\U{205F}' || c == '\U{3000}' || c == '\U{FEFF}'
  }

  function TrimStart(s: string): (r: string)
    decreases |s|
  {
    if |s| > 0 && IsSpace(s[0]) then TrimStart(s[1..]) else s
  }

  function TrimEnd(s: string): (r: string)
    decreases |s|
  {
    if |s| > 0 && IsSpace(s[|s| - 1]) then TrimEnd(s[..|s| - 1]) else s
  }

  /** `TrimStart` removes a prefix of white space and stops at the first other character. */
  lemma {:induction false} TrimStartRemovesLeadingSpace(s: string)
    ensures var r := TrimStart(s);
            && |r| <= |s| && r == s[|s| - |r|..]
            && (forall k :: 0 <= k < |s| - |r| ==> IsSpace(s[k]))
            && (r == [] || !IsSpace(r[0]))
    decreases |s|
  {
    if |s| > 0 && IsSpace(s[0]) {
      TrimStartRemovesLeadingSpace(s[1..]);
    }
  }

  /** `TrimEnd` removes a suffix of white space and stops at the last other character. */
  lemma {:induction false} TrimEndRemovesTrailingSpace(s: string)
    ensures var r := TrimEnd(s);
            && |r| <= |s| && r == s[..|r|]
            && (forall k :: |r| <= k < |s| ==> IsSpace(s[k]))
            && (r == [] || !IsSpace(r[|r| - 1]))
    decreases |s|
  {
    if |s| > 0 && IsSpace(s[|s| - 1]) {
      TrimEndRemovesTrailingSpace(s[..|s| - 1]);
    }
  }

  /** `r` is `s` with white space (and nothing else) removed before position
      `i` and after position `i + |r|`. */
  ghost predicate StripsSpaceAt(s: string, r: string, i: int) {
    && 0 <= i <= |s| - |r|
    && r == s[i..i + |r|]
    && (forall k :: 0 <= k < i ==> IsSpace(s[k]))
    && (forall k :: i + |r| <= k < |s| ==> IsSpace(s[k]))
  }

  /** `s.trim()`: `s` without its leading and trailing white space
      (`TrimStripsSpace` says exactly what is removed). */
  function Trim(s: string): (r: string)
    ensures |r| <= |s|
    ensures r == [] || (!IsSpace(r[0]) && !IsSpace(r[|r| - 1]))
  {
    TrimStartRemovesLeadingSpace(s);
    TrimEndRemovesTrailingSpace(TrimStart(s));
    TrimEnd(TrimStart(s))
  }

  /** Trimming removes white space, and only white space, from both ends. */
  lemma {:induction false} TrimStripsSpace(s: string)
    ensures StripsSpaceAt(s, Trim(s), |s| - |TrimStart(s)|)
  {
    var t := TrimStart(s);
    var r := TrimEnd(t);
    var i := |s| - |t|;
    TrimStartRemovesLeadingSpace(s);
    TrimEndRemovesTrailingSpace(t);
    TrailingSpace(s, t, r, i);
    SliceOfSuffix(s, i, |r|);
  }

  lemma SliceOfSuffix(s: string, i: nat, n: nat)
    requires i + n <= |s|
    ensures s[i..][..n] == s[i..i + n]
  {
  }

  lemma TrailingSpace(s: string, t: string, r: string, i: int)
    requires 0 <= i <= |s| && t == s[i..]
    requires |r| <= |t| && forall k :: |r| <= k < |t| ==> IsSpace(t[k])
    ensures forall k :: i + |r| <= k < |s| ==> IsSpace(s[k])
  {
  }

  predicate StartsWith(s: string, prefix: string) {
    |prefix| <= |s| && s[..|prefix|] == prefix
  }

  predicate EndsWith(s: string, suffix: string) {
    |suffix| <= |s| && s[|s| - |suffix|..] == suffix
  }

  /** `s.includes(p)`: `p` occurs in `s` at some position. */
  predicate Contains(s: string, p: string)
    decreases |s|
  {
    StartsWith(s, p) || (|s| > 0 && Contains(s[1..], p))
  }

  /** A text lacking the first character of a pattern does not contain it. */
  lemma {:induction false} MissingFirstChar(s: string, p: string)
    requires |p| > 0 && p[0] !in s
    ensures !Contains(s, p)
    decreases |s|
  {
    if |s| > 0 {
      assert s[0] in s;
      assert s[1..] <= s[1..] && forall c :: c in s[1..] ==> c in s;
      MissingFirstChar(s[1..], p);
    }
  }

  /** Index of the first occurrence of `c` in `s`, or `|s|` when there is none. */
  function IndexOf(s: string, c: char): (k: nat)
    ensures k <= |s|
    ensures k < |s| ==> s[k] == c
    ensures forall j :: 0 <= j < k ==> s[j] != c
  {
    if |s| == 0 then 0
    else if s[0] == c then 0
    else 1 + IndexOf(s[1..], c)
  }

  /** `s.split(/\r?\n/)`: the pieces between line breaks, where a line break
      is a "\n" together with the "\r" immediately before it, if any. */
  function SplitLines(s: string): (lines: seq<string>)
    ensures |lines| >= 1
    ensures forall i :: 0 <= i < |lines| ==> '\n' !in lines[i]
    decreases |s|
  {
    var k := IndexOf(s, '\n');
    if k == |s| then [s]
    else
      var line := if k > 0 && s[k - 1] == '\r' then s[..k - 1] else s[..k];
      [line] + SplitLines(s[k + 1..])
  }

  /** A character missing from a text is missing from each of its lines. */
  lemma {:induction false} SplitLinesKeepOut(s: string, c: char)
    requires c !in s
    ensures forall i :: 0 <= i < |SplitLines(s)| ==> c !in SplitLines(s)[i]
    decreases |s|
  {
    var k := IndexOf(s, '\n');
    if k < |s| {
      var rest := s[k + 1..];
      forall j | 0 <= j < |rest|
        ensures rest[j] != c
      {
        assert rest[j] == s[k + 1 + j];
      }
      SplitLinesKeepOut(rest, c);
      var line := if k > 0 && s[k - 1] == '\r' then s[..k - 1] else s[..k];
      forall j | 0 <= j < |line|
        ensures line[j] != c
      {
        assert line[j] == s[j];
      }
      assert SplitLines(s) == [line] + SplitLines(rest);
    }
  }

  /** `lines.join("\n")`. */
  function JoinLines(lines: seq<string>): string {
    if |lines| == 0 then ""
    else if |lines| == 1 then lines[0]
    else lines[0] + "\n" + JoinLines(lines[1..])
  }

  /** The first line break of `a + "\n" + b` is the one after `a` when `a` has none. */
  lemma IndexOfAfterLine(a: string, b: string)
    requires '\n' !in a
    ensures IndexOf(a + "\n" + b, '\n') == |a|
    ensures (a + "\n" + b)[|a| + 1..] == b
  {
    var s := a + "\n" + b;
    assert s[|a|] == '\n';
    assert forall j :: 0 <= j < |a| ==> s[j] == a[j];
  }

  /** Splitting and re-joining gives back the text exactly when it has no
      carriage returns to lose. */
  lemma {:induction false} JoinSplitLines(s: string)
    requires '\r' !in s
    ensures JoinLines(SplitLines(s)) == s
    decreases |s|
  {
    var k := IndexOf(s, '\n');
    if k < |s| {
      var rest := s[k + 1..];
      SplitFirstLine(s, k);
      JoinSplitLines(rest);
      JoinCons(s[..k], SplitLines(rest));
      BreakAt(s, k);
    }
  }

  /** Joining a first line in front of at least one more. */
  lemma JoinCons(line: string, lines: seq<string>)
    requires |lines| >= 1
    ensures JoinLines([line] + lines) == line + "\n" + JoinLines(lines)
  {
    assert ([line] + lines)[1..] == lines;
  }

  /** A text is its part before a line feed, the line feed, and the rest. */
  lemma BreakAt(s: string, k: nat)
    requires k < |s| && s[k] == '\n'
    ensures s == s[..k] + "\n" + s[k + 1..]
  {
  }

  /** Without carriage returns the first line is everything before the first "\n". */
  lemma SplitFirstLine(s: string, k: nat)
    requires '\r' !in s
    requires k == IndexOf(s, '\n') && k < |s|
    ensures SplitLines(s) == [s[..k]] + SplitLines(s[k + 1..])
    ensures '\r' !in s[k + 1..]
  {
    if k > 0 {
      assert s[k - 1] in s;
    }
    var rest := s[k + 1..];
    forall j | 0 <= j < |rest|
      ensures rest[j] != '\r'
    {
      assert rest[j] == s[k + 1 + j];
    }
  }

  /** Joining lines free of line-break characters and splitting again gives
      back the same lines. */
  lemma {:induction false} SplitJoinLines(lines: seq<string>)
    requires |lines| >= 1
    requires forall i :: 0 <= i < |lines| ==> '\n' !in lines[i] && '\r' !in lines[i]
    ensures SplitLines(JoinLines(lines)) == lines
  {
    if |lines| > 1 {
      var rest := JoinLines(lines[1..]);
      SplitJoinLines(lines[1..]);
      SplitAfterLine(lines[0], rest);
      assert lines == [lines[0]] + lines[1..];
    } else {
      assert IndexOf(lines[0], '\n') == |lines[0]|;
    }
  }

  /** Splitting `line + "\n" + rest` yields `line` first when `line` has no
      line-break characters. */
  lemma SplitAfterLine(line: string, rest: string)
    requires '\n' !in line && '\r' !in line
    ensures SplitLines(line + "\n" + rest) == [line] + SplitLines(rest)
  {
    var s := line + "\n" + rest;
    IndexOfAfterLine(line, rest);
    if |line| > 0 {
      assert s[|line| - 1] == line[|line| - 1];
    }
    assert s[..|line|] == line;
  }

  /** Joining lines free of "\n" and splitting again gives back as many lines. */
  lemma {:induction false} SplitJoinLineCount(lines: seq<string>)
    requires |lines| >= 1
    requires forall i :: 0 <= i < |lines| ==> '\n' !in lines[i]
    ensures |SplitLines(JoinLines(lines))| == |lines|
  {
    if |lines| > 1 {
      var rest := JoinLines(lines[1..]);
      IndexOfAfterLine(lines[0], rest);
      SplitJoinLineCount(lines[1..]);
    } else {
      assert IndexOf(lines[0], '\n') == |lines[0]|;
    }
  }
}
