/** The per-run event pump (`_pump_until_result`, app/controllers/runner.py) and the fold the
    worker runs over what the pump retained (app/controllers/manager.py). */
module Pump {
  import opened Json
  import opened Strings
  import opened Protocol

  /** One `read_line`: a raw line ("" is EOF), or an oversize line that was discarded. */
  datatype Read = Raw(text: string) | Oversize

  predicate IsPayload(lib: Library, line: string) {
    lib.decode(line).Value? && lib.decode(line).j.Obj?
  }

  predicate Relevant(lib: Library, line: string) {
    IsPayload(lib, line) && AffectsOutcome(lib.decode(line).j.m)
  }

  predicate IsResult(lib: Library, line: string) {
    IsPayload(lib, line) && Get(lib.decode(line).j.m, "type") == Str("result")
  }

  /** What the pump reads before it stops, and whether an exception stops it: a line nested too
      deeply for the decoder, which only ValueErrors are caught from. */
  datatype Pumped = Pumped(lines: seq<string>, raised: bool)

  /** The run's lines after `sofar`: up to EOF or the first result line, oversize ones skipped. */
  function ReadOn(lib: Library, incoming: seq<Read>, sofar: seq<string>): Pumped
    decreases incoming
  {
    if incoming == [] then Pumped(sofar, false)
    else match incoming[0]
      case Oversize => ReadOn(lib, incoming[1..], sofar)
      case Raw(text) =>
        if text == "" then Pumped(sofar, false) else
          var line := StripNewlines(text);
          if lib.decode(line).TooDeep? then Pumped(sofar, true)
          else if IsResult(lib, line) then Pumped(sofar + [line], false)
          else ReadOn(lib, incoming[1..], sofar + [line])
  }

  function LinesRead(lib: Library, incoming: seq<Read>): Pumped {
    ReadOn(lib, incoming, [])
  }

  /** Characters a list of lines occupies, newlines included. */
  function Weight(lines: seq<string>): nat {
    if lines == [] then 0 else Weight(lines[..|lines| - 1]) + |lines[|lines| - 1]| + 1
  }

  /** The transcript kept under a budget. */
  function Retained(lib: Library, lines: seq<string>, budget: int): seq<string> {
    if lines == [] then []
    else
      var kept, line := Retained(lib, lines[..|lines| - 1], budget), lines[|lines| - 1];
      if budget <= 0 || Weight(kept) < budget || Relevant(lib, line) then kept + [line] else kept
  }

  lemma RetainOneMore(lib: Library, lines: seq<string>, line: string, budget: int)
    ensures var kept := Retained(lib, lines, budget);
            Retained(lib, lines + [line], budget)
            == if budget <= 0 || Weight(kept) < budget || Relevant(lib, line) then kept + [line] else kept
    ensures Weight(lines + [line]) == Weight(lines) + |line| + 1
  {
    assert (lines + [line])[..|lines|] == lines;
  }

  /** The pump.  `delivered` is what the line callback was given, in order; when the decoder
      raises, the exec ends with that exception and the transcript is lost. */
  method PumpUntilResult(lib: Library, incoming: seq<Read>, budget: int)
    returns (stdout: string, sawResult: bool, delivered: seq<string>, raised: bool)
    ensures Pumped(delivered, raised) == LinesRead(lib, incoming)
    ensures stdout == if raised then "" else Join(Retained(lib, delivered, budget))
    ensures sawResult <==> delivered != [] && IsResult(lib, delivered[|delivered| - 1])
    ensures raised ==> !sawResult
  {
    hide Relevant, IsResult, StripNewlines, Join, Retained, Weight;
    var lines: seq<string>, kept: nat, rest := [], 0, incoming;
    delivered, sawResult, raised := [], false, false;
    RetainNothing(lib, budget);
    while rest != [] && !sawResult
      invariant LinesRead(lib, incoming)
             == if sawResult then Pumped(delivered, false) else ReadOn(lib, rest, delivered)
      invariant lines == Retained(lib, delivered, budget) && kept == Weight(lines)
      invariant sawResult <==> delivered != [] && IsResult(lib, delivered[|delivered| - 1])
      decreases rest
    {
      var read := rest[0];
      if read == Raw("") { break; }
      if read.Raw? {
        var line := StripNewlines(read.text);
        if lib.decode(line).TooDeep? { return "", sawResult, delivered, true; }
        RetainOneMore(lib, delivered, line, budget);
        RetainOneMore(lib, lines, line, budget);
        if budget <= 0 || kept < budget || Relevant(lib, line) {
          lines, kept := lines + [line], kept + |line| + 1;
        }
        delivered, sawResult := delivered + [line], IsResult(lib, line);
      }
      rest := rest[1..];
    }
    stdout := Join(lines);
  }

  lemma RetainNothing(lib: Library, budget: int)
    ensures Retained(lib, [], budget) == [] && Weight([]) == 0
  {
  }

  // -- folding lines --------------------------------------------------------------

  /** `Raised`: an exception escaped `_events_of` or `apply_event`. */
  datatype Folded = Done(o: Outcome) | Raised

  function FoldLine(lib: Library, o: Outcome, line: string): Folded {
    match ParseLine(lib, line)
    case Blank => Done(o)
    case Raises => Raised
    case Line(e) => if ApplyRaises(e) then Raised else Done(Apply(lib, o, e))
  }

  function FoldLines(lib: Library, o: Outcome, lines: seq<string>): Folded {
    if lines == [] then Done(o)
    else match FoldLines(lib, o, lines[..|lines| - 1])
      case Raised => Raised
      case Done(p) => FoldLine(lib, p, lines[|lines| - 1])
  }

  /** The outcome the worker computes from an exec's captured stdout. */
  function FoldStdout(lib: Library, o: Outcome, stdout: string): Folded {
    FoldLines(lib, o, SplitLines(stdout))
  }

  /** `json.loads` reads the raw line and the stripped one alike (they differ only on leading or
      trailing blanks that JSON does not know). */
  predicate StripsAlike(lib: Library, line: string) {
    lib.decode(line) == lib.decode(Strip(line))
  }

  /** A line neither `parse_line` nor `apply_event` raises on. */
  predicate Digestible(lib: Library, line: string) {
    match ParseLine(lib, line)
    case Blank => true
    case Raises => false
    case Line(e) => !ApplyRaises(e)
  }

  lemma {:induction false} FoldRaisesIff(lib: Library, o: Outcome, lines: seq<string>)
    ensures FoldLines(lib, o, lines).Done? <==> forall line :: line in lines ==> Digestible(lib, line)
  {
    hide ParseLine, ApplyRaises, Apply;
    if lines != [] {
      var init, line := lines[..|lines| - 1], lines[|lines| - 1];
      FoldRaisesIff(lib, o, init);
      assert lines == init + [line];
      assert (forall l :: l in lines ==> Digestible(lib, l))
        <==> Digestible(lib, line) && (forall l :: l in init ==> Digestible(lib, l)) by {
        assert line in lines && forall l :: l in lines <==> l == line || l in init;
      }
    }
  }

  lemma IrrelevantIsIdentity(lib: Library, o: Outcome, line: string)
    requires StripsAlike(lib, line) && Digestible(lib, line) && !Relevant(lib, line)
    ensures FoldLine(lib, o, line) == Done(o)
  {
    hide Strip;
    match ParseLine(lib, line)
    case Blank =>
    case Line(e) =>
      if Get(e.data, "type") == Str(e.kind) && !e.malformed { UnaffectingIsIdentity(lib, o, e); }
  }

  lemma {:induction false} RetainedAreLines(lib: Library, lines: seq<string>, budget: int)
    ensures forall line :: line in Retained(lib, lines, budget) ==> line in lines
  {
    if lines != [] {
      var init := lines[..|lines| - 1];
      RetainedAreLines(lib, init, budget);
      assert lines == init + [lines[|lines| - 1]];
    }
  }

  lemma {:induction false} RetainedFoldsAlike(lib: Library, o: Outcome, lines: seq<string>, budget: int)
    requires forall line :: line in lines ==> StripsAlike(lib, line) && Digestible(lib, line)
    ensures FoldLines(lib, o, Retained(lib, lines, budget)) == FoldLines(lib, o, lines)
  {
    if lines != [] {
      var init, line := lines[..|lines| - 1], lines[|lines| - 1];
      assert line in lines && forall l :: l in init ==> l in lines;
      RetainedFoldsAlike(lib, o, init, budget);
      var kept := Retained(lib, init, budget);
      assert (kept + [line])[..|kept|] == kept;
      if !Relevant(lib, line) {
        match FoldLines(lib, o, init)
        case Raised =>
        case Done(p) => IrrelevantIsIdentity(lib, p, line);
      }
      hide StripsAlike, Digestible, FoldLine, Relevant;
    }
  }

  lemma RetainedStdout(lib: Library, o: Outcome, lines: seq<string>, budget: int)
    requires forall line :: line in lines ==> Unbroken(line)
    ensures FoldStdout(lib, o, Join(Retained(lib, lines, budget))) == FoldLines(lib, o, Retained(lib, lines, budget))
  {
    var kept := Retained(lib, lines, budget);
    RetainedAreLines(lib, lines, budget);
    assert forall k :: 0 <= k < |kept| ==> kept[k] in lines;
    SplitJoin(kept);
  }

  /** Outcome preservation, exactly.  Whatever the budget, the worker's fold over the retained
      stdout equals the fold over every line the run produced, if and only if the cap hides no
      exception: every line can be digested, or one that cannot is still retained. */
  lemma OutcomeSurvivesTheCap(lib: Library, o: Outcome, lines: seq<string>, budget: int)
    requires forall line :: line in lines ==> Unbroken(line) && StripsAlike(lib, line)
    ensures FoldStdout(lib, o, Join(Retained(lib, lines, budget))) == FoldLines(lib, o, lines)
       <==> ((forall line :: line in lines ==> Digestible(lib, line))
             || (exists line :: line in Retained(lib, lines, budget) && !Digestible(lib, line)))
  {
    RetainedStdout(lib, o, lines, budget);
    FoldRaisesIff(lib, o, lines);
    FoldRaisesIff(lib, o, Retained(lib, lines, budget));
    if forall line :: line in lines ==> Digestible(lib, line) { RetainedFoldsAlike(lib, o, lines, budget); }
    hide FoldStdout, FoldLines, Digestible, Retained, Unbroken, StripsAlike;
  }

  lemma RetainedOfTwo(lib: Library, first: string, second: string)
    requires !Relevant(lib, second)
    ensures Retained(lib, [first, second], 1) == [first]
  {
    hide Relevant;
    assert [first, second] == [first] + [second] && [first] == [] + [first];
    RetainNothing(lib, 1);
    RetainOneMore(lib, [], first, 1);
    RetainOneMore(lib, [first], second, 1);
    assert Weight([] + [first]) == Weight([]) + |first| + 1 by { RetainOneMore(lib, [], first, 1); }
  }

  /** The failing case: behind a spent budget, a line whose type is a list is dropped, and the run
      it would have stranded is finalized. */
  lemma CapHidesAnException(lib: Library, o: Outcome, first: string, bad: string)
    requires Unbroken(first) && StripsAlike(lib, first) && Digestible(lib, first)
    requires Unbroken(bad) && StripsAlike(lib, bad) && Strip(bad) != ""
    requires lib.decode(Strip(bad)) == Value(Obj(map["type" := Arr([])]))
    ensures FoldLines(lib, o, [first, bad]) == Raised
    ensures FoldStdout(lib, o, Join(Retained(lib, [first, bad], 1))).Done?
  {
    assert !Digestible(lib, bad) && !Relevant(lib, bad);
    hide Digestible, Relevant, Unbroken, StripsAlike, Strip, Retained, FoldLines, FoldStdout;
    RetainedOfTwo(lib, first, bad);
    RetainedStdout(lib, o, [first, bad], 1);
    FoldRaisesIff(lib, o, [first]);
    FoldRaisesIff(lib, o, [first, bad]);
    assert bad in [first, bad];
  }

  function Irrelevant(lib: Library, lines: seq<string>): seq<string> {
    if lines == [] then []
    else Irrelevant(lib, lines[..|lines| - 1])
         + if Relevant(lib, lines[|lines| - 1]) then [] else [lines[|lines| - 1]]
  }

  lemma {:induction false} IrrelevantWeighsLess(lib: Library, lines: seq<string>)
    ensures Weight(Irrelevant(lib, lines)) <= Weight(lines)
  {
    if lines != [] {
      var init, line := lines[..|lines| - 1], lines[|lines| - 1];
      IrrelevantWeighsLess(lib, init);
      var some := Irrelevant(lib, init);
      assert (some + [line])[..|some|] == some && some + [] == some;
    }
  }

  /** The memory bound: the retained lines that cannot affect the outcome weigh less than the
      budget plus one line, however long the run. */
  lemma {:induction false} RetainedNoiseIsBounded(lib: Library, lines: seq<string>, budget: int)
    requires budget > 0
    ensures var noise := Irrelevant(lib, Retained(lib, lines, budget));
            noise != [] ==> Weight(noise[..|noise| - 1]) < budget
  {
    if lines != [] {
      var init, line := lines[..|lines| - 1], lines[|lines| - 1];
      RetainedNoiseIsBounded(lib, init, budget);
      var kept := Retained(lib, init, budget);
      IrrelevantWeighsLess(lib, kept);
      assert (kept + [line])[..|kept|] == kept;
      var some := Irrelevant(lib, kept);
      assert (some + [line])[..|some|] == some && some + [] == some;
    }
  }

  // -- lines with a line break inside -------------------------------------------------

  /** What `splitlines` makes of one line. */
  function Fragments(line: string): seq<string> {
    SplitLines(line + "\n")
  }

  /** A fragment that is no event: blank, not JSON, no object, or an object without a type. */
  predicate Inert(lib: Library, text: string) {
    Strip(text) == "" ||
    match lib.decode(Strip(text))
    case Malformed => true
    case BadValue => false
    case TooDeep => false
    case Value(j) => !j.Obj? || Get(j.m, "type").Null?
  }

  /** The lines that reach the fold in one piece. */
  function Whole(lines: seq<string>): seq<string> {
    if lines == [] then [] else (if Unbroken(lines[0]) then [lines[0]] else []) + Whole(lines[1..])
  }

  ghost predicate BreaksInertly(lib: Library, line: string) {
    Unbroken(line) || forall f :: f in Fragments(line) ==> Inert(lib, f)
  }

  lemma InertIsIdentity(lib: Library, o: Outcome, text: string)
    requires Inert(lib, text)
    ensures FoldLine(lib, o, text) == Done(o)
  {
    hide Strip;
  }

  lemma {:induction false} InertFold(lib: Library, o: Outcome, fs: seq<string>)
    requires forall f :: f in fs ==> Inert(lib, f)
    ensures FoldLines(lib, o, fs) == Done(o)
  {
    if fs != [] {
      var f := fs[|fs| - 1];
      assert f in fs && forall g :: g in fs[..|fs| - 1] ==> g in fs;
      InertFold(lib, o, fs[..|fs| - 1]);
      InertIsIdentity(lib, o, f);
      hide Inert, FoldLine;
    }
  }

  lemma {:induction false} FoldJoin(lib: Library, o: Outcome, a: seq<string>, b: seq<string>)
    ensures FoldLines(lib, o, a + b) == match FoldLines(lib, o, a)
                                        case Raised => Raised
                                        case Done(p) => FoldLines(lib, p, b)
  {
    if b == [] {
      assert a + b == a;
    } else {
      var init := b[..|b| - 1];
      assert (a + b)[..|a + b| - 1] == a + init;
      FoldJoin(lib, o, a, init);
      hide FoldLine;
    }
  }

  /** The fold over split stdout sees only the whole lines: a broken one leaves no trace when its
      fragments are no events. */
  lemma {:induction false} BrokenLinesVanish(lib: Library, o: Outcome, lines: seq<string>)
    requires forall line :: line in lines ==> BreaksInertly(lib, line)
    ensures FoldStdout(lib, o, Join(lines)) == FoldLines(lib, o, Whole(lines))
    decreases |lines|
  {
    hide Strip, SplitLines, FoldLine, BreaksInertly;
    if lines == [] {
      assert SplitLines(Join(lines)) == [] by { SplitJoin([]); }
    } else {
      var line, rest := lines[0], lines[1..];
      SplitAtNewline(line, Join(rest));
      FoldJoin(lib, o, Fragments(line), SplitLines(Join(rest)));
      OneLineFold(lib, o, line);
      var first := if Unbroken(line) then [line] else [];
      FoldJoin(lib, o, first, Whole(rest));
      match FoldLines(lib, o, first)
      case Raised =>
      case Done(p) => BrokenLinesVanish(lib, p, rest);
    }
  }

  lemma OneLineFold(lib: Library, o: Outcome, line: string)
    requires BreaksInertly(lib, line)
    ensures FoldLines(lib, o, Fragments(line)) == FoldLines(lib, o, if Unbroken(line) then [line] else [])
  {
    hide SplitLines, FoldLine, Inert;
    if Unbroken(line) {
      SplitJoin([line]);
      assert Join([line]) == line + "\n" by { assert Join([line][1..]) == ""; }
    } else {
      InertFold(lib, o, Fragments(line));
    }
  }

  lemma {:induction false} WholeSnoc(lines: seq<string>, line: string)
    ensures Whole(lines + [line]) == Whole(lines) + if Unbroken(line) then [line] else []
  {
    if lines == [] {
      assert (lines + [line])[1..] == [];
    } else {
      WholeSnoc(lines[1..], line);
      assert (lines + [line])[1..] == lines[1..] + [line];
    }
    hide Unbroken;
  }

  lemma {:induction false} WholeAreLines(lines: seq<string>)
    ensures forall line :: line in Whole(lines) <==> line in lines && Unbroken(line)
  {
    if lines != [] {
      WholeAreLines(lines[1..]);
      assert lines == [lines[0]] + lines[1..];
    }
  }

  lemma {:induction false} RetainedWholeFoldsAlike(lib: Library, o: Outcome, lines: seq<string>, budget: int)
    requires forall line :: line in lines && Unbroken(line) ==> StripsAlike(lib, line) && Digestible(lib, line)
    ensures FoldLines(lib, o, Whole(Retained(lib, lines, budget))) == FoldLines(lib, o, Whole(lines))
  {
    if lines != [] {
      var init, line := lines[..|lines| - 1], lines[|lines| - 1];
      assert lines == init + [line];
      RetainedWholeFoldsAlike(lib, o, init, budget);
      var kept, after := Retained(lib, init, budget), Retained(lib, lines, budget);
      assert after == kept + [line] || (after == kept && !Relevant(lib, line));
      hide *;
      WholeSnoc(init, line);
      WholeSnoc(kept, line);
      if !Unbroken(line) {
        assert Whole(init) + [] == Whole(init) && Whole(kept) + [] == Whole(kept);
      } else {
        FoldOneMore(lib, o, Whole(init), line);
        FoldOneMore(lib, o, Whole(kept), line);
        if after == kept && FoldLines(lib, o, Whole(init)).Done? {
          IrrelevantIsIdentity(lib, FoldLines(lib, o, Whole(init)).o, line);
        }
      }
    }
  }

  lemma FoldOneMore(lib: Library, o: Outcome, lines: seq<string>, line: string)
    ensures FoldLines(lib, o, lines + [line]) == match FoldLines(lib, o, lines)
                                                 case Raised => Raised
                                                 case Done(p) => FoldLine(lib, p, line)
  {
    assert (lines + [line])[..|lines|] == lines;
  }

  /** Outcome preservation in full: the cap and the splitting together leave the fold over the
      whole lines as it was, if and only if the cap hides no exception among them. */
  lemma OutcomeSurvivesCapAndBreaks(lib: Library, o: Outcome, lines: seq<string>, budget: int)
    requires forall line :: line in lines ==> StripsAlike(lib, line) && BreaksInertly(lib, line)
    ensures FoldStdout(lib, o, Join(Retained(lib, lines, budget))) == FoldLines(lib, o, Whole(lines))
       <==> ((forall line :: line in lines && Unbroken(line) ==> Digestible(lib, line))
             || (exists line :: line in Retained(lib, lines, budget) && Unbroken(line) && !Digestible(lib, line)))
  {
    var kept := Retained(lib, lines, budget);
    RetainedAreLines(lib, lines, budget);
    BrokenLinesVanish(lib, o, kept);
    WholeAreLines(lines);
    WholeAreLines(kept);
    FoldRaisesIff(lib, o, Whole(lines));
    FoldRaisesIff(lib, o, Whole(kept));
    if forall line :: line in lines && Unbroken(line) ==> Digestible(lib, line) {
      RetainedWholeFoldsAlike(lib, o, lines, budget);
    }
    hide FoldStdout, FoldLines, Digestible, Retained, Unbroken, StripsAlike, Whole, BreaksInertly;
  }

  /** Laws of JSON: nothing is not a document, and blanks around one change nothing. */
  ghost predicate ReadsJson(lib: Library, lines: seq<string>) {
    lib.decode("") == Malformed && forall line :: line in lines ==> StripsAlike(lib, line)
  }

  lemma OneLineResult(lib: Library, o: Outcome, line: string)
    requires lib.decode("") == Malformed && StripsAlike(lib, line) && FoldLine(lib, o, line).Done?
    ensures FoldLine(lib, o, line).o.sawResult <==> o.sawResult || IsResult(lib, line)
  {
    hide Strip, AddAll, AddTexts, AddText, ResultMessages, ResultCodes, ErrorText, ErrorCode,
         ProtocolErrorText, ProtocolErrorCode, LiveUsage, ToText, Truthy;
  }

  lemma {:induction false} FoldSawResult(lib: Library, o: Outcome, lines: seq<string>)
    requires ReadsJson(lib, lines) && FoldLines(lib, o, lines).Done?
    ensures FoldLines(lib, o, lines).o.sawResult
       <==> o.sawResult || exists line :: line in lines && IsResult(lib, line)
  {
    hide FoldLine, IsResult, StripsAlike;
    if lines != [] {
      var init, line := lines[..|lines| - 1], lines[|lines| - 1];
      assert lines == init + [line];
      FoldSawResult(lib, o, init);
      OneLineResult(lib, FoldLines(lib, o, init).o, line);
    }
  }

  /** Whether the run's result reaches the worker, exactly: some result line holds no line break
      that `splitlines` cuts at. */
  lemma ResultSurvivesIff(lib: Library, o: Outcome, lines: seq<string>)
    requires ReadsJson(lib, lines) && forall line :: line in lines ==> BreaksInertly(lib, line)
    requires !o.sawResult && FoldStdout(lib, o, Join(lines)).Done?
    ensures FoldStdout(lib, o, Join(lines)).o.sawResult
       <==> exists line :: line in lines && Unbroken(line) && IsResult(lib, line)
  {
    BrokenLinesVanish(lib, o, lines);
    WholeAreLines(lines);
    hide BreaksInertly, IsResult, StripsAlike, FoldStdout, FoldLines, Whole;
    FoldSawResult(lib, o, Whole(lines));
  }

  lemma OneFragment(q: string)
    requires Unbroken(q)
    ensures Fragments(q) == [q]
  {
    SplitJoin([q]);
    assert Join([q]) == q + "\n" by { assert Join([q][1..]) == ""; }
  }

  lemma OneMoreFragment(p: string, c: char, rest: string)
    requires Unbroken(p) && IsBreak(c) && !(c == '\r' && (rest + "\n")[0] == '\n')
    ensures Fragments(p + [c] + rest) == [p] + Fragments(rest)
  {
    CutAtBreak(p, c, rest + "\n");
    assert p + [c] + rest + "\n" == p + [c] + (rest + "\n");
  }

  lemma JoinOne(line: string)
    ensures Join([line]) == line + "\n"
  {
    assert Join([line][1..]) == "";
  }

  /** A result line with a line separator inside (legal in a JSON string) ends the run for the
      pump and does not exist for the worker: every fragment is noise. */
  lemma BrokenResultIsLost(lib: Library, p: string, q: string)
    requires Unbroken(p) && Unbroken(q) && Inert(lib, p) && Inert(lib, q)
    requires var line := p + "\U{2028}" + q; ReadsJson(lib, [line]) && IsResult(lib, line)
    ensures var line := p + "\U{2028}" + q;
            && FoldLines(lib, FRESH, [line]).Done? && FoldLines(lib, FRESH, [line]).o.sawResult
            && FoldStdout(lib, FRESH, Join([line])) == Done(FRESH)
  {
    var line := p + "\U{2028}" + q;
    assert line in [line] && StripsAlike(lib, line);
    ResultFolds(lib, FRESH, line);
    JoinOne(line);
    assert Fragments(line) == [p, q] by {
      assert IsBreak('\U{2028}');
      OneMoreFragment(p, '\U{2028}', q);
      OneFragment(q);
      assert line == p + ['\U{2028}'] + q;
    }
    hide *;
    InertFold(lib, FRESH, [p, q]);
    LoneFold(lib, FRESH, line);
    StdoutOfOne(lib, FRESH, line);
  }

  lemma LoneFold(lib: Library, o: Outcome, line: string)
    ensures FoldLines(lib, o, [line]) == FoldLine(lib, o, line)
  {
    assert [line][..0] == [];
  }

  lemma StdoutOfOne(lib: Library, o: Outcome, line: string)
    ensures FoldStdout(lib, o, Join([line])) == FoldLines(lib, o, Fragments(line))
  {
    JoinOne(line);
  }

  lemma ResultFolds(lib: Library, o: Outcome, line: string)
    requires lib.decode("") == Malformed && StripsAlike(lib, line) && IsResult(lib, line)
    ensures FoldLine(lib, o, line).Done? && FoldLine(lib, o, line).o.sawResult
  {
    hide Strip, AddAll, AddTexts, ResultMessages, ResultCodes, ToText, Truthy;
  }

  /** Between tokens a break is legal too, and there a fragment can be an event of its own: the
      worker folds an object nested in a line as if the harness had sent it. */
  lemma NestedObjectIsFolded(lib: Library, o: Outcome, p: string, q: string, r: string)
    requires Unbroken(p) && Unbroken(q) && Unbroken(r) && r != "" && Inert(lib, p) && Inert(lib, r)
    ensures FoldStdout(lib, o, Join([p + "\r" + q + "\r" + r])) == FoldLine(lib, o, q)
  {
    MiddleIsFolded(lib, o, p, '\r', q, r);
  }

  /** A fragment can also raise where the line it comes from does not: the digits of a text, say,
      when they stand alone and are too many for an integer. */
  lemma FragmentCanRaise(lib: Library, o: Outcome, p: string, q: string, r: string)
    requires Unbroken(p) && Unbroken(q) && Unbroken(r) && r != "" && Inert(lib, p) && Inert(lib, r)
    requires Strip(q) != "" && lib.decode(Strip(q)).BadValue?
    ensures FoldStdout(lib, o, Join([p + "\U{2028}" + q + "\U{2028}" + r])) == Raised
  {
    MiddleIsFolded(lib, o, p, '\U{2028}', q, r);
    hide Strip;
  }

  lemma MiddleIsFolded(lib: Library, o: Outcome, p: string, c: char, q: string, r: string)
    requires Unbroken(p) && Unbroken(q) && Unbroken(r) && r != "" && Inert(lib, p) && Inert(lib, r)
    requires IsBreak(c)
    ensures FoldStdout(lib, o, Join([p + [c] + q + [c] + r])) == FoldLine(lib, o, q)
  {
    var line, rest := p + [c] + q + [c] + r, q + [c] + r;
    assert IsBreak('\r') && IsBreak('\n');
    assert line == p + [c] + rest;
    assert c == '\r' ==> (rest + "\n")[0] != '\n' by { if q != "" { assert (rest + "\n")[0] == q[0]; } }
    assert q != "" ==> q[0] != '\n' by { if q != "" { assert !IsBreak(q[0]); } }
    assert r[0] != '\n' by { assert !IsBreak(r[0]); }
    OneMoreFragment(p, c, rest);
    OneMoreFragment(q, c, r);
    OneFragment(r);
    JoinOne(line);
    assert Fragments(line) == [p, q, r];
    hide Strip, SplitLines, Inert, IsBreak, FoldLine;
    ThreeFolds(lib, o, p, q, r);
  }

  lemma ThreeFolds(lib: Library, o: Outcome, p: string, q: string, r: string)
    requires Inert(lib, p) && Inert(lib, r)
    ensures FoldLines(lib, o, [p, q, r]) == FoldLine(lib, o, q)
  {
    InertIsIdentity(lib, o, p);
    match FoldLine(lib, o, q)
    case Raised =>
    case Done(u) => InertIsIdentity(lib, u, r);
    hide FoldLine, Inert;
    assert [p, q, r][..2] == [p, q] && [p, q][..1] == [p] && [p][..0] == [];
    assert FoldLines(lib, o, [p]) == FoldLine(lib, o, p);
    assert FoldLines(lib, o, [p, q]) == FoldLine(lib, o, q);
  }
}
