/** `read_capped_line` (app/controllers/protocol.py): one line of a text pipe under a length cap,
    the tail of an oversize line drained so that it is never parsed as fresh lines. */
module CappedLine {
  import opened Lines

  const NL := '\n'

  /** First physical line of a non-empty text. */
  function FirstOf(text: string): string
    requires text != []
  {
    Physical(text, NL)[0]
  }

  lemma FirstSplits(text: string)
    requires text != []
    ensures var line := FirstOf(text);
            && 0 < |line| <= |text| && text == line + text[|line|..]
            && Physical(text, NL) == [line] + Physical(text[|line|..], NL)
            && IsLine(line, NL)
            && (Terminated(line, NL) || |line| == |text|)
  {
    PhysicalAreLines(text, NL, 0);
    var i := Find(text, NL);
    hide Physical;
    if i >= 0 { CutAt(text, NL, i); } else { Uncut(text, NL); }
    hide Find, FirstOf;
  }

  /** Lines the reader refuses: longer than the cap, or an unterminated tail that fills it. */
  predicate Oversize(line: string, cap: int) {
    cap > 0 && ((|line| > cap) || (|line| == cap && !Terminated(line, NL)))
  }

  /** What one physical line is reported as. */
  function Report(line: string, cap: int): (string, bool) {
    if Oversize(line, cap) then (line[..cap], true) else (line, false)
  }

  function Reports(lines: seq<string>, cap: int): (rs: seq<(string, bool)>)
    ensures |rs| == |lines|
    ensures forall k :: 0 <= k < |lines| ==> rs[k] == Report(lines[k], cap)
  {
    if lines == [] then [] else [Report(lines[0], cap)] + Reports(lines[1..], cap)
  }

  class TextStream {
    /** The text not read yet. */
    var rest: string

    constructor (text: string)
      ensures rest == text
    {
      rest := text;
    }

    /** A text stream's own `readline`: at most `limit` characters of the current line. */
    method Readline(limit: int) returns (chunk: string)
      modifies this
      ensures old(rest) == [] ==> chunk == [] && rest == []
      ensures old(rest) != [] ==>
                var line := FirstOf(old(rest));
                && chunk == (if 0 <= limit < |line| then line[..limit] else line)
                && old(rest) == chunk + rest
    {
      hide Physical;
      if rest == [] { return []; }
      FirstSplits(rest);
      var i := Find(rest, NL);
      var n := if i >= 0 then i + 1 else |rest|;
      assert n == |FirstOf(rest)| by {
        if i >= 0 { CutAt(rest, NL, i); } else { Uncut(rest, NL); }
      }
      hide Find, FirstOf;
      if 0 <= limit < n { n := limit; }
      chunk, rest := rest[..n], rest[n..];
    }
  }

  /** Inside a line, the first physical line is what is left of it. */
  lemma Within(line: string, after: string)
    requires IsLine(line, NL) && (Terminated(line, NL) || after == [])
    ensures FirstOf(line + after) == line
  {
    if Terminated(line, NL) {
      var body := line[..|line| - 1];
      assert line == body + [NL];
      FirstLine(body, after, NL);
      assert body + [NL] + after == line + after;
    } else {
      assert line + after == line;
      assert NL !in line by { assert line == line[..|line| - 1] + [line[|line| - 1]]; }
      Uncut(line, NL);
    }
  }

  /** The newline of a line is its last character. */
  lemma NoNewlineInside(line: string, n: nat)
    requires IsLine(line, NL) && 0 < n < |line|
    ensures line[..n][n - 1] != NL
  {
    assert line[n - 1] == line[..|line| - 1][n - 1];
  }

  /** Discards the rest of the current line, `left`, whatever its length. */
  method SkipThroughNewline(stream: TextStream, maxChars: int, ghost left: string, ghost after: string)
    requires maxChars > 0 && stream.rest == left + after
    requires left == [] ==> after == []
    requires left != [] ==> IsLine(left, NL) && (Terminated(left, NL) || after == [])
    modifies stream
    ensures stream.rest == after
  {
    hide Physical, Find;
    ghost var k := 0;
    while true
      invariant 0 <= k <= |left| && stream.rest == left[k..] + after
      invariant k == |left| ==> after == []
      decreases |stream.rest|
    {
      ghost var now := left[k..];
      if now != [] {
        assert now[..|now| - 1] == left[..|left| - 1][k..];
        Within(now, after);
      }
      if maxChars < |now| { NoNewlineInside(now, maxChars); }
      var more := stream.Readline(maxChars);
      assert stream.rest == (now + after)[|more|..] == now[|more|..] + after;
      assert now[|more|..] == left[k + |more|..];
      if more == [] || more[|more| - 1] == NL { break; }
      k := k + |more|;
    }
  }

  /** Reads one line; an oversize one is cut, flagged, and drained through its newline, so the
      stream always stands at the start of the next physical line. */
  method ReadCappedLine(stream: TextStream, maxChars: int) returns (line: string, truncated: bool)
    modifies stream
    ensures old(stream.rest) == [] ==> line == [] && !truncated && stream.rest == []
    ensures old(stream.rest) != [] ==>
              var first := FirstOf(old(stream.rest));
              && (line, truncated) == Report(first, maxChars)
              && old(stream.rest) == first + stream.rest
  {
    hide Physical, Find;
    ghost var text := stream.rest;
    if text != [] { FirstSplits(text); }
    if maxChars <= 0 {
      line := stream.Readline(-1);
      return line, false;
    }
    ghost var first := if text == [] then [] else FirstOf(text);
    if maxChars < |first| { NoNewlineInside(first, maxChars); }
    line := stream.Readline(maxChars);
    if line == [] || line[|line| - 1] == NL || (|line| < maxChars) {
      return line, false;
    }
    ghost var left, after := first[maxChars..], text[|first|..];
    assert line == first[..maxChars];
    assert stream.rest == text[maxChars..] == left + after;
    assert left != [] ==> left[..|left| - 1] == first[..|first| - 1][maxChars..];
    SkipThroughNewline(stream, maxChars, left, after);
    return line, true;
  }

  /** The read loop over a whole pipe: every physical line is reported exactly once, in order. */
  method ReadAll(stream: TextStream, maxChars: int) returns (reported: seq<(string, bool)>)
    modifies stream
    ensures reported == Reports(Physical(old(stream.rest), NL), maxChars)
    ensures stream.rest == []
  {
    hide Physical, Find;
    reported := [];
    assert stream.rest == [] ==> Physical(stream.rest, NL) == [];
    while stream.rest != []
      invariant Reports(Physical(old(stream.rest), NL), maxChars)
             == reported + Reports(Physical(stream.rest, NL), maxChars)
      decreases |stream.rest|
    {
      FirstSplits(stream.rest);
      var line, truncated := ReadCappedLine(stream, maxChars);
      reported := reported + [(line, truncated)];
    }
  }

  function Unflagged(reported: seq<(string, bool)>): seq<string> {
    if reported == [] then []
    else (if reported[0].1 then [] else [reported[0].0]) + Unflagged(reported[1..])
  }

  function Fitting(lines: seq<string>, cap: int): seq<string> {
    if lines == [] then []
    else (if Oversize(lines[0], cap) then [] else [lines[0]]) + Fitting(lines[1..], cap)
  }

  /** What gets through are exactly the lines that fit, unchanged and in order, and no
      reported text is longer than the cap. */
  lemma {:induction false} OnlyFittingLinesPass(lines: seq<string>, cap: int)
    ensures Unflagged(Reports(lines, cap)) == Fitting(lines, cap)
    ensures cap > 0 ==> forall r :: r in Reports(lines, cap) ==> |r.0| <= cap
  {
    if lines != [] {
      OnlyFittingLinesPass(lines[1..], cap);
      assert Reports(lines, cap)[1..] == Reports(lines[1..], cap);
    }
  }
}
