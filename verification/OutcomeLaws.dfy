/** Laws of the outcome fold: what any event stream can and cannot do to a run's verdict. */
module OutcomeLaws {
  import opened Json
  import opened Protocol

  predicate NoDup(xs: seq<string>) {
    forall i, j :: 0 <= i < j < |xs| ==> xs[i] != xs[j]
  }

  /** Only appended to, and never with something already there. */
  ghost predicate Grows(a: seq<string>, b: seq<string>) {
    a <= b && (NoDup(a) ==> NoDup(b))
  }

  lemma AddTextGrows(xs: seq<string>, x: string)
    ensures Grows(xs, AddNew(xs, x)) && Grows(xs, AddText(xs, x))
  {
  }

  lemma {:induction false} AddAllGrows(xs: seq<string>, more: seq<string>)
    ensures Grows(xs, AddAll(xs, more))
    decreases more
  {
    if more != [] {
      AddTextGrows(xs, more[0]);
      AddAllGrows(AddNew(xs, more[0]), more[1..]);
    }
  }

  lemma {:induction false} AddTextsGrows(xs: seq<string>, more: seq<string>)
    ensures Grows(xs, AddTexts(xs, more))
    decreases more
  {
    if more != [] {
      AddTextGrows(xs, more[0]);
      AddTextsGrows(AddText(xs, more[0]), more[1..]);
    }
  }

  ghost predicate ListsGrow(o: Outcome, p: Outcome) {
    Grows(o.errors, p.errors) && Grows(o.codes, p.codes) && Grows(o.protocolErrors, p.protocolErrors)
  }

  lemma ApplyGrows(lib: Library, o: Outcome, e: Event)
    ensures ListsGrow(o, Apply(lib, o, e))
  {
    hide Grows, AddAll, AddTexts, AddText, ResultMessages, ResultCodes, ErrorText, ErrorCode,
         ProtocolErrorText, ProtocolErrorCode, LiveUsage, ToText, Truthy;
    forall xs: seq<string> ensures Grows(xs, xs) { GrowsReflexive(xs); }
    AddAllGrows(o.errors, ResultMessages(lib, e.data));
    AddTextsGrows(o.codes, ResultCodes(lib, e.data));
    var data := Get(e.data, "data");
    AddTextGrows(o.errors, ErrorText(lib, data));
    AddTextGrows(o.codes, ErrorCode(lib, data));
    AddTextGrows(o.codes, ProtocolErrorCode(lib, e.data));
    AddTextGrows(o.protocolErrors, ProtocolErrorText(lib, e.data));
  }

  lemma GrowsReflexive(xs: seq<string>)
    ensures Grows(xs, xs)
  {
  }

  /** Over any stream, from any moment on: `errors`, `codes` and `protocol_errors` only grow,
      stay duplicate-free, and a failed run never becomes an unfailed one. */
  lemma {:induction false} FoldOnlyGrows(lib: Library, o: Outcome, es: seq<Event>, k: nat)
    requires k <= |es|
    ensures ListsGrow(Fold(lib, o, es[..k]), Fold(lib, o, es))
    ensures Failed(Fold(lib, o, es[..k])) ==> Failed(Fold(lib, o, es))
  {
    if k == |es| {
      assert es[..k] == es;
    } else {
      var init := es[..|es| - 1];
      assert init[..k] == es[..k];
      FoldOnlyGrows(lib, o, init, k);
      ApplyGrows(lib, Fold(lib, o, init), es[|es| - 1]);
      hide Apply;
    }
  }

  lemma ListsStartDuplicateFree(lib: Library, es: seq<Event>)
    ensures var o := Fold(lib, FRESH, es); NoDup(o.errors) && NoDup(o.codes) && NoDup(o.protocolErrors)
  {
    FoldOnlyGrows(lib, FRESH, es, 0);
    assert es[..0] == [];
  }

  // -- protocol refusals do not decide the verdict -----------------------------------

  function WithoutProtocolErrors(es: seq<Event>): seq<Event> {
    if es == [] then []
    else WithoutProtocolErrors(es[..|es| - 1]) + if es[|es| - 1].kind == "error" then [] else [es[|es| - 1]]
  }

  /** Everything but the error codes and the refusals themselves. */
  predicate SameVerdict(o: Outcome, p: Outcome) {
    o.(codes := [], protocolErrors := []) == p.(codes := [], protocolErrors := [])
  }

  lemma ApplyKeepsSameVerdict(lib: Library, o: Outcome, p: Outcome, e: Event)
    requires SameVerdict(o, p)
    ensures e.kind == "error" ==> SameVerdict(Apply(lib, o, e), p)
    ensures SameVerdict(Apply(lib, o, e), Apply(lib, p, e))
  {
    hide AddAll, AddTexts, AddText, ResultMessages, ResultCodes, ErrorText, ErrorCode,
         ProtocolErrorText, ProtocolErrorCode, LiveUsage, ToText, Truthy;
  }

  /** Deleting every protocol `error` line changes neither the answer, the errors, the usage,
      the cancellation nor the terminal status. */
  lemma {:induction false} RefusalsDecideNothing(lib: Library, o: Outcome, es: seq<Event>)
    ensures var p, q := Fold(lib, o, es), Fold(lib, o, WithoutProtocolErrors(es));
            SameVerdict(p, q) && RunStatus(p) == RunStatus(q)
  {
    if es != [] {
      var init, e := es[..|es| - 1], es[|es| - 1];
      RefusalsDecideNothing(lib, o, init);
      var p, q := Fold(lib, o, init), Fold(lib, o, WithoutProtocolErrors(init));
      ApplyKeepsSameVerdict(lib, p, q, e);
      hide Apply;
      if e.kind != "error" {
        var kept := WithoutProtocolErrors(es);
        assert kept[..|kept| - 1] == WithoutProtocolErrors(init);
      } else {
        assert WithoutProtocolErrors(es) == WithoutProtocolErrors(init);
      }
    }
  }

  // -- the primary code --------------------------------------------------------------

  /** The codes an event carries, in the order it carries them. */
  function CodesOf(lib: Library, e: Event): seq<string> {
    if e.kind == "result" then ResultCodes(lib, e.data)
    else if IsNotify(e, "error") then
      (if Get(e.data, "data").Null? then [] else [ErrorCode(lib, Get(e.data, "data"))])
    else if e.kind == "error" then [ProtocolErrorCode(lib, e.data)]
    else []
  }

  function Arrivals(lib: Library, es: seq<Event>): seq<string> {
    if es == [] then [] else Arrivals(lib, es[..|es| - 1]) + CodesOf(lib, es[|es| - 1])
  }

  lemma {:induction false} FirstClassifiedOfJoin(a: seq<string>, b: seq<string>)
    ensures FirstClassified(a + b) == if FirstClassified(a) != "" then FirstClassified(a) else FirstClassified(b)
  {
    if a == [] {
      assert a + b == b;
    } else {
      assert (a + b)[1..] == a[1..] + b;
      FirstClassifiedOfJoin(a[1..], b);
    }
  }

  lemma {:induction false} FirstClassifiedIsLeast(codes: seq<string>, k: nat)
    requires k < |codes| && Classified(codes[k])
    ensures exists i :: 0 <= i <= k && Classified(codes[i]) && codes[i] == FirstClassified(codes)
  {
    if !Classified(codes[0]) {
      FirstClassifiedIsLeast(codes[1..], k - 1);
      var i :| 0 <= i <= k - 1 && Classified(codes[1..][i]) && codes[1..][i] == FirstClassified(codes[1..]);
      assert codes[i + 1] == codes[1..][i];
    }
  }

  lemma {:induction false} AddTextsKeepsFirst(xs: seq<string>, more: seq<string>)
    ensures FirstClassified(AddTexts(xs, more)) == FirstClassified(xs + more)
    decreases more
  {
    if more == [] {
      assert xs + more == xs;
    } else {
      var x := more[0];
      AddTextsKeepsFirst(AddText(xs, x), more[1..]);
      FirstClassifiedOfJoin(AddText(xs, x), more[1..]);
      FirstClassifiedOfJoin(xs, more);
      FirstClassifiedOfJoin(xs, [x]);
      if x in xs && Classified(x) {
        var k :| 0 <= k < |xs| && xs[k] == x;
        FirstClassifiedIsLeast(xs, k);
      }
    }
  }

  lemma ApplyAddsCodes(lib: Library, o: Outcome, e: Event)
    ensures Apply(lib, o, e).codes == AddTexts(o.codes, CodesOf(lib, e))
  {
    hide AddAll, AddText, ResultMessages, ResultCodes, ErrorText, ErrorCode,
         ProtocolErrorText, ProtocolErrorCode, LiveUsage, ToText, Truthy;
    var code := if e.kind == "error" then ProtocolErrorCode(lib, e.data) else ErrorCode(lib, Get(e.data, "data"));
    assert AddTexts(o.codes, [code]) == AddText(o.codes, code) by { assert [code][1..] == []; }
    assert AddTexts(o.codes, []) == o.codes;
  }

  /** `primary_code` is the earliest classified code of the whole stream whenever one exists:
      an `unknown` arriving first never masks it, and nothing later displaces it. */
  lemma {:induction false} PrimaryCodeIsEarliestClassified(lib: Library, es: seq<Event>)
    ensures FirstClassified(Fold(lib, FRESH, es).codes) == FirstClassified(Arrivals(lib, es))
    ensures FirstClassified(Arrivals(lib, es)) != "" ==>
              PrimaryCode(Fold(lib, FRESH, es).codes) == FirstClassified(Arrivals(lib, es))
  {
    if es != [] {
      var init, e := es[..|es| - 1], es[|es| - 1];
      PrimaryCodeIsEarliestClassified(lib, init);
      var o := Fold(lib, FRESH, init);
      ApplyAddsCodes(lib, o, e);
      AddTextsKeepsFirst(o.codes, CodesOf(lib, e));
      FirstClassifiedOfJoin(o.codes, CodesOf(lib, e));
      FirstClassifiedOfJoin(Arrivals(lib, init), CodesOf(lib, e));
      hide Apply, CodesOf, AddTexts;
    }
  }
}
