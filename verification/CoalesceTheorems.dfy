/** Coalescing and what a reader sees: rendering is preserved, merging is complete and
    idempotent. */
module CoalesceTheorems {
  import opened Json
  import opened Coalesce

  // -- which events merge is a matter of neighbours in the original -------------------

  /** A merged event merges with exactly the events its parts would have merged with. */
  lemma AbsorbMergesAlike(lib: Library, p: Event, e: Event, x: Event)
    requires Mergeable(p, e)
    ensures Mergeable(Absorb(lib, p, e), x) <==> Mergeable(e, x)
    ensures Mergeable(x, Absorb(lib, p, e)) <==> Mergeable(x, p)
  {
    hide ToText, Truthy;
  }

  lemma {:induction false} LastMergesAlike(lib: Library, es: seq<Event>, x: Event)
    requires es != []
    ensures Mergeable(Last(Merge(lib, es)), x) <==> Mergeable(Last(es), x)
  {
    var ms := Merge(lib, Init(es));
    if ms != [] && Mergeable(Last(ms), Last(es)) {
      AbsorbMergesAlike(lib, Last(ms), Last(es), x);
    }
    hide Mergeable, Absorb;
  }

  /** Whether the last event of a list merges into the one before it. */
  predicate LastMerges(es: seq<Event>) {
    |es| >= 2 && Mergeable(es[|es| - 2], Last(es))
  }

  /** The merging pass joins exactly the mergeable neighbours of the original transcript. */
  lemma MergesAreNeighbours(lib: Library, es: seq<Event>)
    requires es != []
    ensures var ms := Merge(lib, Init(es));
            Merge(lib, es) == if LastMerges(es) then Init(ms) + [Absorb(lib, Last(ms), Last(es))]
                              else ms + [Last(es)]
    ensures LastMerges(es) ==> Mergeable(Last(Merge(lib, Init(es))), Last(es))
  {
    if |es| >= 2 { LastMergesAlike(lib, Init(es), Last(es)); }
    hide Mergeable, Absorb;
  }

  predicate NothingMergeable(ms: seq<Event>) {
    forall i :: 0 < i < |ms| ==> !Mergeable(ms[i - 1], ms[i])
  }

  lemma {:induction false} MergeIsComplete(lib: Library, es: seq<Event>)
    ensures NothingMergeable(Merge(lib, es))
  {
    if es != [] {
      MergeIsComplete(lib, Init(es));
      var ms, e := Merge(lib, Init(es)), Last(es);
      if ms != [] && Mergeable(Last(ms), e) {
        if |ms| >= 2 { AbsorbMergesAlike(lib, Last(ms), e, ms[|ms| - 2]); }
      }
      hide Mergeable, Absorb;
    }
  }

  lemma {:induction false} NothingToMerge(lib: Library, ms: seq<Event>)
    requires NothingMergeable(ms)
    ensures Merge(lib, ms) == ms
  {
    hide Mergeable, Absorb;
    if ms != [] {
      NothingToMerge(lib, Init(ms));
      if |ms| >= 2 { assert Last(Init(ms)) == ms[|ms| - 2]; }
      assert ms == Init(ms) + [Last(ms)];
    }
  }

  lemma MergeIsIdempotent(lib: Library, es: seq<Event>)
    ensures Merge(lib, Merge(lib, es)) == Merge(lib, es)
  {
    MergeIsComplete(lib, es);
    NothingToMerge(lib, Merge(lib, es));
  }

  // -- rendering ------------------------------------------------------------------------

  /** What the client appends for a delta: `e.data?.text ?? ""`, `js` being String() of a
      value that is not a string. */
  function ShownText(js: Json -> string, e: Event): string {
    var text := Field(Get(e, "data"), "text");
    if text.Null? then "" else if text.Str? then text.s else js(text)
  }

  /** The rendered run: each non-delta event with the delta text accumulated before it, and
      the text still open at the end. */
  datatype Screen = Screen(done: seq<(string, Event)>, open: string)

  function Show(js: Json -> string, s: Screen, e: Event): Screen {
    if IsDelta(e) then s.(open := s.open + ShownText(js, e))
    else Screen(s.done + [(s.open, e)], "")
  }

  function Render(js: Json -> string, es: seq<Event>): Screen {
    if es == [] then Screen([], "") else Show(js, Render(js, Init(es)), Last(es))
  }

  /** A delta whose text is absent or a string: stored and shown alike. */
  predicate PlainText(e: Event) {
    var data := Get(e, "data");
    data.Obj? && "text" in data.m ==> data.m["text"].Str?
  }

  /** A delta whose text, whatever it is, is stored as the client shows it. */
  predicate StoredAsShown(lib: Library, js: Json -> string, e: Event) {
    Get(e, "data").Obj? ==> StoredText(lib, e) == ShownText(js, e)
  }

  lemma PlainIsStoredAsShown(lib: Library, js: Json -> string, e: Event)
    requires PlainText(e)
    ensures StoredAsShown(lib, js, e)
  {
  }

  lemma AbsorbShown(lib: Library, js: Json -> string, p: Event, e: Event)
    requires Mergeable(p, e)
    ensures ShownText(js, Absorb(lib, p, e)) == StoredText(lib, p) + StoredText(lib, e)
    ensures PlainText(Absorb(lib, p, e)) && IsDelta(Absorb(lib, p, e))
  {
    hide ToText, Truthy, StoredText;
  }

  /** Every delta that is merged is stored as shown. */
  ghost predicate MergesFaithfully(lib: Library, js: Json -> string, es: seq<Event>) {
    forall i :: 0 < i < |es| && Mergeable(es[i - 1], es[i]) ==>
      StoredAsShown(lib, js, es[i - 1]) && StoredAsShown(lib, js, es[i])
  }

  lemma {:induction false} LastIsFaithful(lib: Library, js: Json -> string, es: seq<Event>)
    requires es != [] && StoredAsShown(lib, js, Last(es))
    ensures StoredAsShown(lib, js, Last(Merge(lib, es)))
  {
    var ms := Merge(lib, Init(es));
    if ms != [] && Mergeable(Last(ms), Last(es)) {
      AbsorbShown(lib, js, Last(ms), Last(es));
      PlainIsStoredAsShown(lib, js, Absorb(lib, Last(ms), Last(es)));
    }
    hide Mergeable, Absorb, PlainText, StoredAsShown;
  }

  lemma InitMergesFaithfully(lib: Library, js: Json -> string, es: seq<Event>)
    requires es != []
    ensures MergesFaithfully(lib, js, es) <==>
              MergesFaithfully(lib, js, Init(es))
              && (LastMerges(es) ==> StoredAsShown(lib, js, Last(Init(es))) && StoredAsShown(lib, js, Last(es)))
  {
    hide Mergeable, StoredAsShown;
    var init := Init(es);
    assert forall i :: 0 <= i < |init| ==> init[i] == es[i];
    if LastMerges(es) { assert Last(init) == es[|es| - 2]; }
    if MergesFaithfully(lib, js, init)
       && (LastMerges(es) ==> StoredAsShown(lib, js, Last(init)) && StoredAsShown(lib, js, Last(es))) {
      forall i | 0 < i < |es| && Mergeable(es[i - 1], es[i])
        ensures StoredAsShown(lib, js, es[i - 1]) && StoredAsShown(lib, js, es[i])
      {
        if i < |init| { assert Mergeable(init[i - 1], init[i]); }
      }
    }
  }

  /** Coalescing preserves rendering: same text between the same other events, in order, for
      texts of any kind as long as those that are merged are stored as they are shown. */
  lemma {:induction false} RenderingPreserved(lib: Library, js: Json -> string, es: seq<Event>)
    requires MergesFaithfully(lib, js, es)
    ensures Render(js, Merge(lib, es)) == Render(js, es)
  {
    if es != [] {
      var ms, e := Merge(lib, Init(es)), Last(es);
      InitMergesFaithfully(lib, js, es);
      RenderingPreserved(lib, js, Init(es));
      MergesAreNeighbours(lib, es);
      if LastMerges(es) {
        assert Last(Init(es)) == es[|es| - 2];
        LastIsFaithful(lib, js, Init(es));
        AbsorbKeepsScreen(lib, js, ms, e);
      } else {
        assert Init(ms + [e]) == ms;
      }
      hide Merge, Mergeable, Absorb, StoredAsShown, LastMerges;
    }
  }

  lemma ShowOneForTwo(js: Json -> string, s: Screen, p: Event, e: Event, a: Event)
    requires IsDelta(p) && IsDelta(e) && IsDelta(a) && ShownText(js, a) == ShownText(js, p) + ShownText(js, e)
    ensures Show(js, s, a) == Show(js, Show(js, s, p), e)
  {
    hide ShownText;
    assert s.open + (ShownText(js, p) + ShownText(js, e)) == (s.open + ShownText(js, p)) + ShownText(js, e);
  }

  lemma AbsorbKeepsScreen(lib: Library, js: Json -> string, ms: seq<Event>, e: Event)
    requires ms != [] && Mergeable(Last(ms), e) && StoredAsShown(lib, js, Last(ms)) && StoredAsShown(lib, js, e)
    ensures Render(js, Init(ms) + [Absorb(lib, Last(ms), e)]) == Show(js, Render(js, ms), e)
  {
    var p := Last(ms);
    var a := Absorb(lib, p, e);
    AbsorbShown(lib, js, p, e);
    hide Absorb, ShownText, StoredText, PlainText, Truthy, Show;
    ShowOneForTwo(js, Render(js, Init(ms)), p, e, a);
    hide Mergeable;
    assert Init(Init(ms) + [a]) == Init(ms);
  }

  // -- exactly when rendering is preserved ------------------------------------------------

  /** The text is a JSON null: shown as nothing, but stored as Python's "None". */
  predicate NullText(e: Event) {
    var data := Get(e, "data");
    data.Obj? && "text" in data.m && data.m["text"].Null?
  }

  /** Texts the harness sends, and null. */
  predicate StringOrNull(e: Event) {
    PlainText(e) || NullText(e)
  }

  function Total(done: seq<(string, Event)>): nat {
    if done == [] then 0 else Total(Init(done)) + |Last(done).0|
  }

  /** Characters of text on the screen. */
  function Shown(s: Screen): nat {
    Total(s.done) + |s.open|
  }

  lemma ShowAdds(js: Json -> string, s: Screen, e: Event)
    ensures Shown(Show(js, s, e)) == Shown(s) + if IsDelta(e) then |ShownText(js, e)| else 0
  {
    hide ShownText;
    if !IsDelta(e) { assert Init(s.done + [(s.open, e)]) == s.done; }
  }

  function One(b: bool): nat {
    if b then 1 else 0
  }

  /** Null-text deltas that are merged with a neighbour. */
  function NullsMerged(es: seq<Event>): nat {
    if es == [] then 0
    else if !LastMerges(es) then NullsMerged(Init(es))
    else
      var init := Init(es);
      NullsMerged(init) + One(NullText(Last(es))) + One(NullText(Last(init)) && !LastMerges(init))
  }

  lemma LastNull(lib: Library, es: seq<Event>)
    requires es != [] && StringOrNull(Last(es))
    ensures var m := Last(Merge(lib, es));
            StringOrNull(m) && (NullText(m) <==> NullText(Last(es)) && !LastMerges(es))
  {
    MergesAreNeighbours(lib, es);
    if LastMerges(es) { AbsorbShown(lib, _ => "", Last(Merge(lib, Init(es))), Last(es)); }
    hide Merge, Mergeable, Absorb, LastMerges;
  }

  lemma StoredNull(lib: Library, js: Json -> string, e: Event)
    requires lib.show(Null) == "None" && StringOrNull(e) && Get(e, "data").Obj?
    ensures |StoredText(lib, e)| == |ShownText(js, e)| + 4 * One(NullText(e))
  {
  }

  lemma {:induction false} NullsLengthen(lib: Library, js: Json -> string, es: seq<Event>)
    requires lib.show(Null) == "None" && forall e :: e in es ==> StringOrNull(e)
    ensures Shown(Render(js, Merge(lib, es))) == Shown(Render(js, es)) + 4 * NullsMerged(es)
  {
    if es != [] {
      var init, e := Init(es), Last(es);
      assert forall x :: x in init ==> x in es;
      NullsLengthen(lib, js, init);
      MergesAreNeighbours(lib, es);
      ShowAdds(js, Render(js, init), e);
      var ms := Merge(lib, init);
      if LastMerges(es) {
        var p := Last(ms);
        LastNull(lib, init);
        MergedLength(lib, js, ms, e);
      } else {
        assert Init(ms + [e]) == ms;
        ShowAdds(js, Render(js, ms), e);
      }
      hide Merge, Mergeable, Absorb, LastMerges, StringOrNull, NullText, Show, Shown;
    }
  }

  lemma MergedLength(lib: Library, js: Json -> string, ms: seq<Event>, e: Event)
    requires ms != [] && Mergeable(Last(ms), e) && lib.show(Null) == "None"
    requires StringOrNull(Last(ms)) && StringOrNull(e)
    ensures Shown(Render(js, Init(ms) + [Absorb(lib, Last(ms), e)]))
         == Shown(Render(js, ms)) + 4 * One(NullText(Last(ms))) + |ShownText(js, e)| + 4 * One(NullText(e))
  {
    var p := Last(ms);
    var a := Absorb(lib, p, e);
    AbsorbShown(lib, js, p, e);
    StoredNull(lib, js, p);
    StoredNull(lib, js, e);
    assert Init(Init(ms) + [a]) == Init(ms);
    ShowAdds(js, Render(js, Init(ms)), a);
    ShowAdds(js, Render(js, Init(ms)), p);
    hide Absorb, ShownText, StoredText, StringOrNull, NullText, Show, Shown, Truthy;
  }

  lemma NullIsNotStoredAsShown(lib: Library, js: Json -> string, e: Event)
    requires lib.show(Null) == "None" && StringOrNull(e) && Get(e, "data").Obj?
    ensures StoredAsShown(lib, js, e) <==> !NullText(e)
  {
    StoredNull(lib, js, e);
    if PlainText(e) { PlainIsStoredAsShown(lib, js, e); }
    hide StoredText, ShownText;
  }

  lemma {:induction false} NoNullsIffFaithful(lib: Library, js: Json -> string, es: seq<Event>)
    requires lib.show(Null) == "None" && forall e :: e in es ==> StringOrNull(e)
    ensures NullsMerged(es) == 0 <==> MergesFaithfully(lib, js, es)
    ensures es != [] && LastMerges(es) && NullText(Last(es)) ==> NullsMerged(es) > 0
  {
    if es != [] {
      var init := Init(es);
      assert forall x :: x in init ==> x in es;
      assert Last(es) in es && (init != [] ==> Last(init) in es);
      NoNullsIffFaithful(lib, js, init);
      InitMergesFaithfully(lib, js, es);
      if LastMerges(es) {
        assert Last(init) == es[|es| - 2];
        NullIsNotStoredAsShown(lib, js, Last(es));
        NullIsNotStoredAsShown(lib, js, Last(init));
      }
      hide Mergeable, MergesFaithfully, StringOrNull, NullText, StoredAsShown;
    }
  }

  /** Exactly when rendering is preserved, for transcripts whose texts are strings, absent or
      null: if and only if no null text belongs to a delta that merges with a neighbour. */
  lemma RenderingPreservedIff(lib: Library, js: Json -> string, es: seq<Event>)
    requires lib.show(Null) == "None" && forall e :: e in es ==> StringOrNull(e)
    ensures Render(js, Merge(lib, es)) == Render(js, es)
       <==> forall i :: 0 < i < |es| && Mergeable(es[i - 1], es[i]) ==> !NullText(es[i - 1]) && !NullText(es[i])
  {
    NoNullsIffFaithful(lib, js, es);
    NullsLengthen(lib, js, es);
    if MergesFaithfully(lib, js, es) { RenderingPreserved(lib, js, es); }
    forall i | 0 < i < |es| && Mergeable(es[i - 1], es[i])
      ensures StoredAsShown(lib, js, es[i - 1]) <==> !NullText(es[i - 1])
      ensures StoredAsShown(lib, js, es[i]) <==> !NullText(es[i])
    {
      NullIsNotStoredAsShown(lib, js, es[i - 1]);
      NullIsNotStoredAsShown(lib, js, es[i]);
    }
    hide Merge, Mergeable, Render, Shown, NullsMerged, StoredAsShown, NullText;
  }
}
