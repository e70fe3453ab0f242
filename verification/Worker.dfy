/** How a run's worker thread ends (`start_run._worker` and `_finish_run`,
    app/controllers/manager.py): which execs lead to a terminal row, and with what verdict. */
module Worker {
  import opened Wrappers
  import opened Json
  import opened Numbers
  import opened Strings
  import opened Protocol
  import opened Pump

  /** How `exec_run` came back. */
  datatype ExecEnd =
    | SandboxGone(reason: string)
    | RunnerError(reason: string)
    | Exited(exitCode: Option<int>, stdout: string, stderr: string, timedOut: bool)

  function LastChars(s: string, n: nat): string {
    if |s| <= n then s else s[|s| - n..]
  }

  /** What the worker adds after the fold. */
  function Conclude(lib: Library, o: Outcome, end: ExecEnd): Outcome
    requires end.Exited?
  {
    var p := if end.timedOut then o.(errors := o.errors + ["runner timed out"]) else o;
    if !p.sawResult && p.errors == [] then
      var code := match end.exitCode case None => Null case Some(n) => Int(n);
      p.(errors := ["harness exited without result (exit=" + ToText(lib, code) + ")",
                    LastChars(Strip(end.stderr), 2000)])
    else p
  }

  function WorkerOutcome(lib: Library, end: ExecEnd): Folded {
    match end
    case SandboxGone(reason) => Done(FRESH.(errors := ["sandbox gone: " + reason]))
    case RunnerError(reason) => Done(FRESH.(errors := ["runner error: " + reason]))
    case Exited(exitCode, stdout, _, _) =>
      match FoldStdout(lib, FRESH.(exitCode := exitCode), stdout)
      case Raised => Raised
      case Done(o) => Done(Conclude(lib, o, end))
  }

  // -- the terminal write ------------------------------------------------------------

  datatype Row = Row(status: string, answer: string, trail: seq<string>, errorCode: string,
                     exitCode: Option<int>, cancelled: bool)

  /** `Written`: the terminal row is handed to the database, whose transaction may still fail.
      `Unwritten`: an exception comes first; `closed` says whether subscribers are told. */
  datatype Finish = Written(row: Row) | Unwritten(closed: bool)

  const OVERSPENT := "token budget exceeded mid-run; run cancelled"

  /** The overspend verdict folded in before the row is written. */
  function Overspend(o: Outcome): Outcome {
    o.(errors := AddNew(o.errors, OVERSPENT),
       codes := if "budget" in o.codes then o.codes else ["budget"] + o.codes)
  }

  function UsageField(o: Outcome, key: string): Json {
    if o.usage.Some? then Get(o.usage.value, key) else Null
  }

  /** The token counter of the metrics adds the sum to a float, unless it is zero. */
  predicate Metered(input: Option<int>, output: Option<int>) {
    && input.Some? && output.Some?
    && (input.value + output.value == 0 || FitsFloat(input.value + output.value))
  }

  /** `_finish_run`: the status is taken first, the metrics read the usage outside the
      `try`, the ledger reads it again inside the transaction. */
  function FinishRun(lib: Library, o: Outcome, overspent: bool): Finish {
    var status := RunStatus(o);
    var p := if overspent then Overspend(o) else o;
    if !Metered(IntOrZero(lib, UsageField(p, "input")), IntOrZero(lib, UsageField(p, "output"))) then Unwritten(false)
    else if IntOrZero(lib, UsageField(p, "rounds")).None? then Unwritten(true)
    else Written(Row(status, p.answer, ErrorTrail(p), PrimaryCode(p.codes), p.exitCode, p.cancelled))
  }

  /** The whole worker; an exception in the fold skips `_finish_run` altogether. */
  function RunWorker(lib: Library, end: ExecEnd, overspent: bool): Finish {
    match WorkerOutcome(lib, end)
    case Raised => Unwritten(false)
    case Done(o) => FinishRun(lib, o, overspent)
  }

  // -- exactly when a run is finalized -------------------------------------------------

  /** The usage the outcome ends with: that of the last result line. */
  function LastUsage(lib: Library, lines: seq<string>): Option<Dict> {
    if lines == [] then None
    else match ParseLine(lib, lines[|lines| - 1])
      case Line(e) =>
        if e.kind == "result" then
          (if Get(e.data, "usage").Obj? then Some(Get(e.data, "usage").m) else None)
        else LastUsage(lib, lines[..|lines| - 1])
      case _ => LastUsage(lib, lines[..|lines| - 1])
  }

  lemma {:induction false} FoldUsage(lib: Library, o: Outcome, lines: seq<string>)
    requires o.usage == None && FoldLines(lib, o, lines).Done?
    ensures FoldLines(lib, o, lines).o.usage == LastUsage(lib, lines)
  {
    hide ParseLine, ApplyRaises, AddAll, AddTexts, AddText, ResultMessages, ResultCodes, ErrorText, ErrorCode,
         ProtocolErrorText, ProtocolErrorCode, LiveUsage, ToText, Truthy;
    if lines != [] { FoldUsage(lib, o, lines[..|lines| - 1]); }
  }

  /** Token counts `int()` can read, with a sum a float can hold. */
  predicate Countable(lib: Library, usage: Option<Dict>) {
    usage.Some? ==>
      && Metered(IntOrZero(lib, Get(usage.value, "input")), IntOrZero(lib, Get(usage.value, "output")))
      && IntOrZero(lib, Get(usage.value, "rounds")).Some?
  }

  /** A run whose exec returned hands its terminal row to the database if and only if every
      retained line is digestible and the last result's token counts are numbers whose sum a float
      can hold; otherwise the row stays `running`. */
  lemma FinalizedIff(lib: Library, end: ExecEnd, overspent: bool)
    ensures end.Exited? ==>
              (RunWorker(lib, end, overspent).Written? <==>
                && (forall line :: line in SplitLines(end.stdout) ==> Digestible(lib, line))
                && Countable(lib, LastUsage(lib, SplitLines(end.stdout))))
    ensures !end.Exited? ==> RunWorker(lib, end, overspent).Written?
  {
    hide SplitLines, Digestible, Strip, PrimaryCode, LastUsage, FitsFloat;
    if end.Exited? {
      var lines, o := SplitLines(end.stdout), FRESH.(exitCode := end.exitCode);
      FoldRaisesIff(lib, o, lines);
      if FoldLines(lib, o, lines).Done? { FoldUsage(lib, o, lines); }
      hide FoldLines;
    }
  }

  /** One line with a list for a type strands the run, although every other line is fine. */
  lemma UnhashableTypeStrandsTheRun(lib: Library, line: string, rest: seq<string>, end: ExecEnd, overspent: bool)
    requires lib.decode(Strip(line)) == Value(Obj(map["type" := Arr([])])) && Strip(line) != ""
    requires end.Exited? && SplitLines(end.stdout) == rest + [line]
    ensures RunWorker(lib, end, overspent) == Unwritten(false)
  {
    var lines := rest + [line];
    assert line in lines && !Digestible(lib, line);
    FoldRaisesIff(lib, FRESH.(exitCode := end.exitCode), lines);
  }

  /** So does a line, whatever it decodes to as a whole, that `splitlines` cuts around digits too
      many for an integer. */
  lemma BrokenDigitsStrandTheRun(lib: Library, p: string, q: string, r: string, end: ExecEnd, overspent: bool)
    requires Unbroken(p) && Unbroken(q) && Unbroken(r) && r != "" && Inert(lib, p) && Inert(lib, r)
    requires Strip(q) != "" && lib.decode(Strip(q)).BadValue?
    requires end.Exited? && end.stdout == Join([p + "\U{2028}" + q + "\U{2028}" + r])
    ensures RunWorker(lib, end, overspent) == Unwritten(false)
  {
    FragmentCanRaise(lib, FRESH.(exitCode := end.exitCode), p, q, r);
    hide FoldStdout, Join, Strip, Inert;
  }

  /** A result line that reports n input tokens. */
  function Reporting(n: int): Json {
    Obj(map["type" := Str("result"), "usage" := Obj(map["input" := Int(n), "output" := Int(0)])])
  }

  lemma ReportingIsDigested(lib: Library, line: string, rest: seq<string>, n: int)
    requires Strip(line) != "" && lib.decode(Strip(line)) == Value(Reporting(n))
    ensures Digestible(lib, line)
    ensures LastUsage(lib, rest + [line]) == Some(map["input" := Int(n), "output" := Int(0)])
  {
    hide Strip, IntOrZero;
    assert (rest + [line])[|rest|] == line;
  }

  lemma ConcludeKeepsUsage(lib: Library, o: Outcome, end: ExecEnd)
    requires end.Exited?
    ensures Conclude(lib, o, end).usage == o.usage
  {
    hide Strip, LastChars, ToText;
  }

  /** One integer with four hundred digits or more strands the run as well: it is legal JSON and
      `int` takes it, but the metrics cannot add it to a float. */
  lemma HugeTokenCountStrandsTheRun(lib: Library, line: string, rest: seq<string>, digits: nat, end: ExecEnd,
                                    overspent: bool)
    requires digits >= 400 && Strip(line) != "" && lib.decode(Strip(line)) == Value(Reporting(Pow(10, digits) - 1))
    requires end.Exited? && SplitLines(end.stdout) == rest + [line]
    requires forall l :: l in rest ==> Digestible(lib, l)
    ensures Digestible(lib, line) && RunWorker(lib, end, overspent) == Unwritten(false)
  {
    hide Pow, Conclude, FinishRun, FoldLines, Digestible, Strip, SplitLines, LastUsage, FitsFloat;
    var lines, o, n := rest + [line], FRESH.(exitCode := end.exitCode), Pow(10, digits) - 1;
    NinesDoNotFit(digits);
    ReportingIsDigested(lib, line, rest, n);
    FoldRaisesIff(lib, o, lines);
    FoldUsage(lib, o, lines);
    ConcludeKeepsUsage(lib, FoldLines(lib, o, lines).o, end);
    HugeCountIsUnwritten(lib, Conclude(lib, FoldLines(lib, o, lines).o, end), n, overspent);
  }

  lemma HugeCountIsUnwritten(lib: Library, o: Outcome, n: int, overspent: bool)
    requires o.usage == Some(map["input" := Int(n), "output" := Int(0)]) && !FitsFloat(n)
    ensures FinishRun(lib, o, overspent) == Unwritten(false)
  {
    SmallFits(0);
    hide FitsFloat, PrimaryCode;
  }

  /** The recorded verdict agrees with what is recorded beside it. */
  lemma TerminalRowIsConsistent(lib: Library, end: ExecEnd, overspent: bool)
    requires RunWorker(lib, end, overspent).Written?
    ensures var row := RunWorker(lib, end, overspent).row; var o := WorkerOutcome(lib, end).o;
            && row.status in {"done", "error", "cancelled"}
            && (row.status == "cancelled" <==> row.cancelled)
            && (row.status == "error" ==> row.trail != [])
            && (row.status == "done" ==> o.sawResult && o.errors == [])
            && (overspent ==> OVERSPENT in row.trail
                              && ("budget" !in o.codes ==> row.errorCode == "budget"))
  {
    var o := WorkerOutcome(lib, end).o;
    hide FoldStdout, IntOrZero, UsageField, Strip, LastChars, ToText, Metered;
    assert overspent ==> OVERSPENT in Overspend(o).errors;
  }
}
