/** The string methods between the pump and the fold: `rstrip`, `strip`, `join`, `splitlines`. */
module Strings {

  /** Python's `str.isspace` characters. */
  predicate IsSpace(c: char) {
    || '\t' <= c <= '\r' || '\U{1c}' <= c <= ' ' || c == '\U{85}' || c == '\U{a0}' || c == '\U{1680}'
    || '\U{2000}' <= c <= '\U{200a}' || c == '\U{2028}' || c == '\U{2029}' || c == '\U{202f}'
    || c == '\U{205f}' || c == '\U{3000}'
  }

  /** The characters `splitlines` cuts at. */
  predicate IsBreak(c: char) {
    || '\n' <= c <= '\r' || '\U{1c}' <= c <= '\U{1e}' || c == '\U{85}' || c == '\U{2028}' || c == '\U{2029}'
  }

  function Strip(s: string): string {
    if s == "" then s
    else if IsSpace(s[0]) then Strip(s[1..])
    else if IsSpace(s[|s| - 1]) then Strip(s[..|s| - 1])
    else s
  }

  function StripNewlines(s: string): (r: string)
    ensures r == "" || r[|r| - 1] != '\n'
  {
    if s != "" && s[|s| - 1] == '\n' then StripNewlines(s[..|s| - 1]) else s
  }

  /** Each line with its newline, concatenated: the captured stdout of an exec. */
  function Join(lines: seq<string>): string {
    if lines == [] then "" else lines[0] + "\n" + Join(lines[1..])
  }

  function FirstBreak(s: string): (i: nat)
    ensures i <= |s|
    ensures i < |s| ==> IsBreak(s[i])
  {
    if s == "" || IsBreak(s[0]) then 0 else 1 + FirstBreak(s[1..])
  }

  /** Where the line after the break at i starts: "\r\n" is one break. */
  function AfterBreak(s: string, i: nat): (next: nat)
    requires i < |s|
    ensures i < next <= |s|
  {
    if s[i] == '\r' && i + 1 < |s| && s[i + 1] == '\n' then i + 2 else i + 1
  }

  /** Python's `splitlines`: a final break ends no empty line. */
  function SplitLines(s: string): seq<string>
    decreases |s|
  {
    var i := FirstBreak(s);
    if s == "" then []
    else if i == |s| then [s]
    else [s[..i]] + SplitLines(s[AfterBreak(s, i)..])
  }

  predicate Unbroken(s: string) {
    forall k :: 0 <= k < |s| ==> !IsBreak(s[k])
  }

  lemma {:induction false} FirstBreakStays(s: string, more: string)
    requires FirstBreak(s) < |s|
    ensures FirstBreak(s + more) == FirstBreak(s)
  {
    if !IsBreak(s[0]) {
      FirstBreakStays(s[1..], more);
      assert (s + more)[1..] == s[1..] + more;
    }
  }

  lemma {:induction false} FirstBreakFound(s: string, k: nat)
    requires k < |s| && IsBreak(s[k])
    ensures FirstBreak(s) <= k
  {
    if !IsBreak(s[0]) { FirstBreakFound(s[1..], k - 1); }
  }

  lemma CutOnce(s: string, i: nat, next: nat)
    requires i < |s| && i == FirstBreak(s) && next == AfterBreak(s, i)
    ensures SplitLines(s) == [s[..i]] + SplitLines(s[next..])
  {
    hide FirstBreak, AfterBreak;
  }

  lemma AfterBreakStays(t: string, b: string, i: nat)
    requires i < |t| && (i + 1 < |t| || t[i] != '\r')
    ensures AfterBreak(t + b, i) == AfterBreak(t, i)
  {
  }

  lemma DropPrefix<T>(a: seq<T>, m: seq<T>, b: seq<T>, n: nat)
    ensures n <= |a| ==> (a + m + b)[n..] == a[n..] + m + b && (a + m)[n..] == a[n..] + m
    ensures n == |a + m| ==> (a + m + b)[n..] == b && (a + m)[n..] == []
    ensures n <= |a + m| ==> (a + m + b)[..n] == (a + m)[..n]
  {
  }

  /** The first break of a text that ends in a newline, with and without more text behind. */
  lemma FirstCut(a: string, b: string) returns (i: nat, next: nat)
    ensures i < next && (next <= |a| || next == |a| + 1)
    ensures SplitLines(a + "\n") == [(a + "\n")[..i]] + SplitLines((a + "\n")[next..])
    ensures SplitLines(a + "\n" + b) == [(a + "\n")[..i]] + SplitLines((a + "\n" + b)[next..])
  {
    hide SplitLines;
    var t := a + "\n";
    FirstBreakFound(t, |a|);
    FirstBreakStays(t, b);
    i := FirstBreak(t);
    AfterBreakStays(t, b, i);
    next := AfterBreak(t, i);
    CutOnce(t, i, next);
    CutOnce(t + b, i, next);
    DropPrefix(a, "\n", b, i);
  }

  /** A newline always ends a line, whatever stands before or after it. */
  lemma {:induction false} SplitAtNewline(a: string, b: string)
    ensures SplitLines(a + "\n" + b) == SplitLines(a + "\n") + SplitLines(b)
    decreases |a|
  {
    assert SplitLines("") == [];
    var i, next := FirstCut(a, b);
    hide *;
    DropPrefix(a, "\n", b, next);
    var rest := (a + "\n")[next..];
    if next <= |a| { SplitAtNewline(a[next..], b); }
    Regroup((a + "\n")[..i], SplitLines(rest), SplitLines(b));
  }

  lemma Regroup<T>(x: T, p: seq<T>, q: seq<T>)
    ensures [x] + (p + q) == [x] + p + q
    ensures p == [] ==> [x] + q == [x] + p + q
  {
  }

  lemma {:induction false} BreakAfter(line: string, rest: string)
    requires Unbroken(line)
    ensures FirstBreak(line + "\n" + rest) == |line|
  {
    if line == "" {
      assert (line + "\n" + rest)[0] == '\n';
    } else {
      assert (line + "\n" + rest)[1..] == line[1..] + "\n" + rest;
      assert (line + "\n" + rest)[0] == line[0];
      BreakAfter(line[1..], rest);
    }
  }

  /** Joining and splitting again is the identity on lines without line breaks inside. */
  lemma {:induction false} SplitJoin(lines: seq<string>)
    requires forall k :: 0 <= k < |lines| ==> Unbroken(lines[k])
    ensures SplitLines(Join(lines)) == lines
  {
    if lines != [] {
      var rest := Join(lines[1..]);
      var s := lines[0] + "\n" + rest;
      BreakAfter(lines[0], rest);
      SplitJoin(lines[1..]);
      assert s[..|lines[0]|] == lines[0] && s[|lines[0]|] == '\n' && s[|lines[0]| + 1..] == rest;
      hide FirstBreak;
    }
  }

  /** Any line boundary cuts, except that "\r\n" is one. */
  lemma {:induction false} CutAtBreak(p: string, c: char, rest: string)
    requires Unbroken(p) && IsBreak(c) && !(c == '\r' && rest != "" && rest[0] == '\n')
    ensures SplitLines(p + [c] + rest) == [p] + SplitLines(rest)
  {
    var s := p + [c] + rest;
    var i := FirstBreak(s);
    FirstBreakFound(s, |p|);
    assert forall k :: 0 <= k < |p| ==> s[k] == p[k];
    assert s[..i] == p && s[i + 1..] == rest;
    hide FirstBreak;
  }
}
