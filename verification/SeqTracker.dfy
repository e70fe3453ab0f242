/** Per-run sequence accounting (`SeqTracker`, app/controllers/protocol.py). */
module SeqTracker {
  import opened Wrappers

  datatype Track = Track(last: int, gaps: int, reordered: int)

  /** One `check`; the flag says whether an anomaly is reported. */
  function Advance(t: Track, number: Option<int>): (Track, bool) {
    match number
    case None => (t, false)
    case Some(n) =>
      if n == t.last + 1 then (t.(last := n), false)
      else if n <= t.last then (t.(reordered := t.reordered + 1), true)
      else (Track(n, t.gaps + (n - (t.last + 1)), t.reordered), true)
  }

  class SeqTracker {
    var last: int
    var gaps: int
    var reordered: int

    constructor ()
      ensures last == gaps == reordered == 0
    {
      last, gaps, reordered := 0, 0, 0;
    }

    method Check(number: Option<int>) returns (anomaly: bool)
      modifies this
      ensures (Track(last, gaps, reordered), anomaly)
           == Advance(Track(old(last), old(gaps), old(reordered)), number)
    {
      if number.None? { return false; }
      var expected := last + 1;
      if number.value == expected {
        last := number.value;
        return false;
      }
      if number.value <= last {
        reordered := reordered + 1;
        return true;
      }
      gaps := gaps + (number.value - expected);
      last := number.value;
      return true;
    }
  }

  // -- whole streams ------------------------------------------------------------

  /** Accounting after a stream of lines, and whether any line was reported. */
  function After(lines: seq<Option<int>>): (Track, bool) {
    if lines == [] then (Track(0, 0, 0), false)
    else
      var (t, seen) := After(lines[..|lines| - 1]);
      var (t', anomaly) := Advance(t, lines[|lines| - 1]);
      (t', seen || anomaly)
  }

  function Numbers(lines: seq<Option<int>>): seq<int> {
    if lines == [] then []
    else Numbers(lines[..|lines| - 1]) + match lines[|lines| - 1] case None => [] case Some(n) => [n]
  }

  /** Greatest of zero and all the numbers. */
  function Top(ns: seq<int>): int {
    if ns == [] then 0
    else
      var t := Top(ns[..|ns| - 1]);
      if ns[|ns| - 1] > t then ns[|ns| - 1] else t
  }

  /** How many numbers exceed zero and everything before them. */
  function Advancing(ns: seq<int>): nat {
    if ns == [] then 0
    else Advancing(ns[..|ns| - 1]) + if ns[|ns| - 1] > Top(ns[..|ns| - 1]) then 1 else 0
  }

  predicate Consecutive(ns: seq<int>) {
    forall k :: 0 <= k < |ns| ==> ns[k] == k + 1
  }

  lemma {:induction false} TopOfConsecutive(ns: seq<int>)
    requires Consecutive(ns)
    ensures Top(ns) == |ns|
  {
    if ns != [] { TopOfConsecutive(ns[..|ns| - 1]); }
  }

  /** Over any stream: `last` is the greatest number seen, `gaps` what is missing below it,
      every numbered line either advanced or was reordered, and silence means 1, 2, ..., n. */
  lemma {:induction false} SequenceAccounting(lines: seq<Option<int>>)
    ensures var (t, reported) := After(lines); var ns := Numbers(lines);
            && t.last == Top(ns)
            && t.last - t.gaps == Advancing(ns)
            && Advancing(ns) + t.reordered == |ns|
            && (!reported <==> Consecutive(ns))
  {
    if lines != [] {
      var init, line := lines[..|lines| - 1], lines[|lines| - 1];
      SequenceAccounting(init);
      var before := Numbers(init);
      if line.Some? {
        var ns := before + [line.value];
        assert ns[..|before|] == before;
        if Consecutive(before) { TopOfConsecutive(before); }
        assert Consecutive(ns) <==> Consecutive(before) && line.value == |before| + 1 by {
          assert ns[|before|] == line.value;
          assert forall k :: 0 <= k < |before| ==> ns[k] == before[k];
        }
      } else {
        assert before + [] == before;
      }
    }
  }
}
