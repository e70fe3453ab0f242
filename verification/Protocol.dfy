/** Parsing of harness lines and the fold of events into a run's outcome
    (app/controllers/protocol.py). */
module Protocol {
  import opened Wrappers
  import opened Json
  import opened Numbers
  import opened Strings

  const LINE_TYPES: set<string> := {"start", "delta", "notify", "log", "result", "error"}
  const CONTROL_LINE_TYPES: set<string> := {"ready", "pong", "hello"}

  /** One decoded line; `seq` and `runId` are kept as the untrusted values they are. */
  datatype Event = Event(kind: string, seqNo: Json, runId: Json, data: Dict, malformed: bool)

  /** `Raises`: `parse_line` lets an exception escape (an unhashable "type", or a decoding
      error that is not a JSONDecodeError). */
  datatype Parsed = Blank | Line(event: Event) | Raises

  function Noise(message: string): Parsed {
    Line(Event("log", Null, Null, map["message" := Str(message)], true))
  }

  function ParseLine(lib: Library, line: string): Parsed {
    var text := Strip(line);
    if text == "" then Blank
    else match lib.decode(text)
      case Malformed => Noise(text)
      case BadValue => Raises
      case TooDeep => Raises
      case Value(j) =>
        if !j.Obj? then Noise(text)
        else
          var kind := Get(j.m, "type");
          if !Hashable(kind) then Raises
          else if kind.Str? && kind.s in CONTROL_LINE_TYPES then Line(Event(kind.s, Null, Null, j.m, false))
          else if kind.Str? && kind.s in LINE_TYPES then
            Line(Event(kind.s, Get(j.m, "seq"), Get(j.m, "run_id"), j.m, false))
          else Noise("unknown event type: " + lib.show(kind))
  }

  // -- error entries ------------------------------------------------------------

  /** A nested {"error": {...}} unwrapped. */
  function Unwrap(m: Dict): Dict {
    var inner := Get(m, "error");
    if inner.Obj? then inner.m else m
  }

  function ErrorText(lib: Library, j: Json): string {
    if j.Obj? then
      var m := Unwrap(j.m);
      if Truthy(Get(m, "message")) then ToText(lib, Get(m, "message"))
      else if Truthy(Get(m, "code")) then ToText(lib, Get(m, "code"))
      else ""
    else ToText(lib, j)
  }

  function ErrorCode(lib: Library, j: Json): string {
    if j.Obj? then
      var code := Get(Unwrap(j.m), "code");
      if Truthy(code) then ToText(lib, code) else ""
    else ""
  }

  // -- the outcome ----------------------------------------------------------------

  datatype Outcome = Outcome(
    answer: string, errors: seq<string>, codes: seq<string>, usage: Option<Dict>,
    liveUsage: Option<map<string, int>>, model: Json, cancelled: bool, sawResult: bool,
    exitCode: Option<int>, durationMs: int, protocolErrors: seq<string>)

  const FRESH := Outcome("", [], [], None, None, Null, false, false, None, 0, [])

  predicate Failed(o: Outcome) {
    o.errors != []
  }

  function RunStatus(o: Outcome): string {
    if o.cancelled then "cancelled" else if Failed(o) then "error" else "done"
  }

  function ErrorTrail(o: Outcome): seq<string> {
    o.errors + o.protocolErrors
  }

  predicate Classified(code: string) {
    code != "" && code != "unknown"
  }

  function FirstClassified(codes: seq<string>): string {
    if codes == [] then "" else if Classified(codes[0]) then codes[0] else FirstClassified(codes[1..])
  }

  function PrimaryCode(codes: seq<string>): string {
    var c := FirstClassified(codes);
    if c != "" then c else if codes != [] then codes[0] else ""
  }

  function AddNew(xs: seq<string>, x: string): seq<string> {
    if x in xs then xs else xs + [x]
  }

  /** Appended unless empty or already there: the rule for everything but result messages. */
  function AddText(xs: seq<string>, x: string): seq<string> {
    if x == "" then xs else AddNew(xs, x)
  }

  function AddAll(xs: seq<string>, more: seq<string>): seq<string>
    decreases more
  {
    if more == [] then xs else AddAll(AddNew(xs, more[0]), more[1..])
  }

  function AddTexts(xs: seq<string>, more: seq<string>): seq<string>
    decreases more
  {
    if more == [] then xs else AddTexts(AddText(xs, more[0]), more[1..])
  }

  function Texts(lib: Library, js: seq<Json>): (r: seq<string>)
    ensures |r| == |js| && forall k :: 0 <= k < |js| ==> r[k] == ToText(lib, js[k])
  {
    seq(|js|, k requires 0 <= k < |js| => ToText(lib, js[k]))
  }

  function ErrorTexts(lib: Library, js: seq<Json>): (r: seq<string>)
    ensures |r| == |js| && forall k :: 0 <= k < |js| ==> r[k] == ErrorText(lib, js[k])
  {
    seq(|js|, k requires 0 <= k < |js| => ErrorText(lib, js[k]))
  }

  function ErrorCodes(lib: Library, js: seq<Json>): (r: seq<string>)
    ensures |r| == |js| && forall k :: 0 <= k < |js| ==> r[k] == ErrorCode(lib, js[k])
  {
    seq(|js|, k requires 0 <= k < |js| => ErrorCode(lib, js[k]))
  }

  /** The messages of a result line: the flat mirror, else the text of each structured error. */
  function ResultMessages(lib: Library, data: Dict): seq<string> {
    var flat, errors := Get(data, "error_messages"), Get(data, "errors");
    if flat.Arr? then Texts(lib, flat.xs)
    else if errors.Arr? then ErrorTexts(lib, errors.xs)
    else []
  }

  function ResultCodes(lib: Library, data: Dict): seq<string> {
    var errors := Get(data, "errors");
    if errors.Arr? then ErrorCodes(lib, errors.xs) else []
  }

  function ApplyResult(lib: Library, o: Outcome, data: Dict): Outcome {
    var usage := Get(data, "usage");
    o.(sawResult := true,
       answer := ToText(lib, GetOr(data, "answer", Str(""))),
       errors := AddAll(o.errors, ResultMessages(lib, data)),
       codes := AddTexts(o.codes, ResultCodes(lib, data)),
       usage := if usage.Obj? then Some(usage.m) else None,
       model := Get(data, "model"),
       cancelled := Truthy(GetOr(data, "cancelled", Bool(false))))
  }

  function ApplyNotifyError(lib: Library, o: Outcome, data: Json): Outcome {
    if data.Null? then o
    else o.(errors := AddText(o.errors, ErrorText(lib, data)), codes := AddText(o.codes, ErrorCode(lib, data)))
  }

  const USAGE_KEYS := ["input", "output", "rounds"]

  /** The snapshot kept of a usage notify; `None` when `int()` raises on Infinity or NaN. */
  function LiveUsage(data: Dict, keys: seq<string>): Option<map<string, int>> {
    if keys == [] then Some(map[]) else
      match (Get(data, keys[0]), LiveUsage(data, keys[1..]))
      case (_, None) => None
      case (Int(n), Some(rest)) => Some(rest[keys[0] := n])
      case (Float(f), Some(rest)) => if f.Finite? then Some(rest[keys[0] := Truncate(f.r)]) else None
      case (_, Some(rest)) => Some(rest)
  }

  function ProtocolErrorText(lib: Library, data: Dict): string {
    var raw := if Get(data, "message").Null? then Get(data, "error") else Get(data, "message");
    var opId := Get(data, "op_id");
    var text := if raw.Null? then "" else ErrorText(lib, raw);
    if text != "" && Truthy(opId) then text + " (op " + ToText(lib, opId) + ")" else text
  }

  function ProtocolErrorCode(lib: Library, data: Dict): string {
    var code := ErrorCode(lib, Get(data, "error"));
    if code != "" then code else ErrorCode(lib, Obj(data))
  }

  function ApplyProtocolError(lib: Library, o: Outcome, data: Dict): Outcome {
    o.(protocolErrors := AddText(o.protocolErrors, ProtocolErrorText(lib, data)),
       codes := AddText(o.codes, ProtocolErrorCode(lib, data)))
  }

  predicate IsNotify(e: Event, kind: string) {
    e.kind == "notify" && Get(e.data, "kind") == Str(kind)
  }

  /** Whether `apply_event` raises: only on a non-finite number in a usage notify. */
  predicate ApplyRaises(e: Event) {
    IsNotify(e, "usage") && Get(e.data, "data").Obj? && LiveUsage(Get(e.data, "data").m, USAGE_KEYS).None?
  }

  /** `apply_event` on an event it does not raise on. */
  function Apply(lib: Library, o: Outcome, e: Event): Outcome {
    if e.kind == "result" then ApplyResult(lib, o, e.data)
    else if IsNotify(e, "error") then ApplyNotifyError(lib, o, Get(e.data, "data"))
    else if IsNotify(e, "usage") then
      var data := Get(e.data, "data");
      if data.Obj? then o.(liveUsage := LiveUsage(data.m, USAGE_KEYS)) else o
    else if e.kind == "error" then ApplyProtocolError(lib, o, e.data)
    else o
  }

  function Fold(lib: Library, o: Outcome, es: seq<Event>): Outcome {
    if es == [] then o else Apply(lib, Fold(lib, o, es[..|es| - 1]), es[|es| - 1])
  }

  /** `affects_outcome` on a decoded payload. */
  predicate AffectsOutcome(payload: Dict) {
    var kind := Get(payload, "type");
    || kind == Str("result") || kind == Str("error")
    || (kind == Str("notify") && (Get(payload, "kind") == Str("error") || Get(payload, "kind") == Str("usage")))
  }

  /** `apply_event` reads nothing else: every other event leaves the outcome alone. */
  lemma UnaffectingIsIdentity(lib: Library, o: Outcome, e: Event)
    requires Get(e.data, "type") == Str(e.kind) && !AffectsOutcome(e.data)
    ensures Apply(lib, o, e) == o && !ApplyRaises(e)
  {
  }

  // -- the imperative fold --------------------------------------------------------

  class RunOutcome {
    var answer: string
    var errors: seq<string>
    var codes: seq<string>
    var usage: Option<Dict>
    var liveUsage: Option<map<string, int>>
    var model: Json
    var cancelled: bool
    var sawResult: bool
    var exitCode: Option<int>
    var durationMs: int
    var protocolErrors: seq<string>

    constructor (exitCode: Option<int>)
      ensures Contents() == FRESH.(exitCode := exitCode)
    {
      answer, errors, codes, usage, liveUsage := "", [], [], None, None;
      model, cancelled, sawResult, this.exitCode, durationMs, protocolErrors := Null, false, false, exitCode, 0, [];
    }

    ghost function Contents(): Outcome
      reads this
    {
      Outcome(answer, errors, codes, usage, liveUsage, model, cancelled, sawResult,
              exitCode, durationMs, protocolErrors)
    }

    method MergeErrors(messages: seq<string>)
      modifies this`errors
      ensures errors == AddAll(old(errors), messages)
    {
      for k := 0 to |messages|
        invariant AddAll(errors, messages[k..]) == AddAll(old(errors), messages)
      {
        assert messages[k..][0] == messages[k] && messages[k..][1..] == messages[k + 1..];
        if messages[k] !in errors { errors := errors + [messages[k]]; }
      }
    }

    method MergeCodes(found: seq<string>)
      modifies this`codes
      ensures codes == AddTexts(old(codes), found)
    {
      for k := 0 to |found|
        invariant AddTexts(codes, found[k..]) == AddTexts(old(codes), found)
      {
        assert found[k..][0] == found[k] && found[k..][1..] == found[k + 1..];
        if found[k] != "" && found[k] !in codes { codes := codes + [found[k]]; }
      }
    }

    method MergeResult(lib: Library, data: Dict)
      modifies this
      ensures Contents() == ApplyResult(lib, old(Contents()), data)
    {
      sawResult := true;
      answer := ToText(lib, GetOr(data, "answer", Str("")));
      MergeErrors(ResultMessages(lib, data));
      MergeCodes(ResultCodes(lib, data));
      usage := if Get(data, "usage").Obj? then Some(Get(data, "usage").m) else None;
      model := Get(data, "model");
      cancelled := Truthy(GetOr(data, "cancelled", Bool(false)));
    }

    method ApplyEvent(lib: Library, e: Event) returns (raised: bool)
      modifies this
      ensures raised == ApplyRaises(e)
      ensures !raised ==> Contents() == Apply(lib, old(Contents()), e)
    {
      if e.kind == "result" {
        MergeResult(lib, e.data);
      } else if IsNotify(e, "error") {
        var data := Get(e.data, "data");
        if !data.Null? {
          errors := AddText(errors, ErrorText(lib, data));
          codes := AddText(codes, ErrorCode(lib, data));
        }
      } else if IsNotify(e, "usage") {
        var data := Get(e.data, "data");
        if data.Obj? {
          var snapshot := LiveUsage(data.m, USAGE_KEYS);
          if snapshot.None? { return true; }
          liveUsage := snapshot;
        }
      } else if e.kind == "error" {
        protocolErrors := AddText(protocolErrors, ProtocolErrorText(lib, e.data));
        codes := AddText(codes, ProtocolErrorCode(lib, e.data));
      }
      return false;
    }
  }
}
