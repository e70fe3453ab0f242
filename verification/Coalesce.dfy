/** Shrinking a transcript for storage (`coalesce_events`, app/controllers/protocol.py). */
module Coalesce {
  import opened Json

  type Event = Dict

  predicate IsDelta(e: Event) {
    Get(e, "type") == Str("delta")
  }

  /** Whether `e` is merged into the event before it. */
  predicate Mergeable(prev: Event, e: Event) {
    && IsDelta(e) && IsDelta(prev)
    && !Truthy(Get(e, "truncated")) && !Truthy(Get(prev, "truncated"))
    && Get(prev, "data").Obj? && Get(e, "data").Obj?
  }

  /** `str(data.get("text", ""))`. */
  function StoredText(lib: Library, e: Event): string
    requires Get(e, "data").Obj?
  {
    ToText(lib, GetOr(Get(e, "data").m, "text", Str("")))
  }

  /** `prev` after taking in `e`: texts concatenated, the later `seq` kept. */
  function Absorb(lib: Library, prev: Event, e: Event): Event
    requires Mergeable(prev, e)
  {
    var text := Str(StoredText(lib, prev) + StoredText(lib, e));
    var merged := prev["data" := Obj(Get(prev, "data").m["text" := text])];
    if Get(e, "seq").Null? then merged else merged["seq" := Get(e, "seq")]
  }

  function Last<T>(s: seq<T>): T
    requires s != []
  {
    s[|s| - 1]
  }

  function Init<T>(s: seq<T>): seq<T>
    requires s != []
  {
    s[..|s| - 1]
  }

  /** The merging pass. */
  function Merge(lib: Library, es: seq<Event>): (ms: seq<Event>)
    ensures ms == [] <==> es == []
    ensures |ms| <= |es|
  {
    if es == [] then []
    else
      var ms, e := Merge(lib, Init(es)), Last(es);
      if ms != [] && Mergeable(Last(ms), e) then Init(ms) + [Absorb(lib, Last(ms), e)] else ms + [e]
  }

  /** Events kept at each end when the middle is dropped. */
  function Keep(maxEvents: int): (keep: int)
    ensures keep >= 1
    ensures 2 * keep + 1 <= maxEvents || keep == 1
  {
    var half := (maxEvents - 1) / 2;
    if half < 1 then 1 else half
  }

  /** The log event standing for the dropped ones. */
  function Marker(lib: Library, dropped: int): Event {
    map["type" := Str("log"),
        "data" := Obj(map["message" := Str("[" + lib.show(Int(dropped)) + " events elided by the web layer]")]),
        "elided" := Int(dropped)]
  }

  /** The elision of the middle. */
  function Elide(lib: Library, ms: seq<Event>, maxEvents: int): seq<Event> {
    if maxEvents <= 0 || |ms| <= maxEvents then ms
    else
      var keep := Keep(maxEvents);
      ms[..keep] + [Marker(lib, |ms| - 2 * keep)] + ms[|ms| - keep..]
  }

  /** Head and tail survive, the marker accounts for everything between them, and the result
      fits the cap (or three events, the least the code keeps). */
  lemma ElisionIsAccounted(lib: Library, ms: seq<Event>, maxEvents: int)
    requires maxEvents > 0 && |ms| > maxEvents
    ensures exists keep: nat, dropped: nat ::
              var r := Elide(lib, ms, maxEvents);
              && 1 <= keep && 2 * keep + dropped == |ms| && |r| == 2 * keep + 1
              && r[..keep] == ms[..keep] && r[keep] == Marker(lib, dropped)
              && r[keep + 1..] == ms[keep + dropped..]
              && (|r| <= maxEvents || |r| == 3)
  {
    hide Marker;
    var keep: nat := Keep(maxEvents);
    var dropped: nat := |ms| - 2 * keep;
    var r := Elide(lib, ms, maxEvents);
    assert r[..keep] == ms[..keep];
    assert r[keep + 1..] == ms[keep + dropped..];
  }

  // -- event objects: merging must not touch what subscribers already hold -----------

  /** A nested dictionary held by reference. */
  class DataDict {
    var items: Dict

    constructor (items: Dict)
      ensures this.items == items
    {
      this.items := items;
    }
  }

  /** An event dictionary; a dictionary under "data" is a reference of its own. */
  class EventDict {
    var fields: Dict
    var data: DataDict?

    constructor (fields: Dict, data: DataDict?)
      ensures this.fields == fields && this.data == data
    {
      this.fields, this.data := fields, data;
    }

    ghost predicate Valid()
      reads this
    {
      data == null ==> !Get(fields, "data").Obj?
    }

    function Contents(): Event
      reads this, data
    {
      if data == null then fields else fields["data" := Obj(data.items)]
    }
  }

  method ShallowCopy(e: EventDict) returns (c: EventDict)
    requires e.Valid()
    ensures fresh(c) && (c.data != null ==> fresh(c.data))
    ensures c.Valid() && c.Contents() == e.Contents()
  {
    var data: DataDict? := null;
    if e.data != null { data := new DataDict(e.data.items); }
    c := new EventDict(e.fields, data);
  }

  /** Concatenates the text of `e` into `prev`, in place. */
  method AbsorbInPlace(lib: Library, prev: EventDict, e: EventDict)
    requires prev.Valid() && e.Valid() && prev != e
    requires prev.data != null && e.data != prev.data
    requires Mergeable(prev.Contents(), e.Contents())
    modifies prev`fields, prev.data
    ensures prev.Valid() && prev.Contents() == Absorb(lib, old(prev.Contents()), old(e.Contents()))
  {
    var text := ToText(lib, GetOr(prev.data.items, "text", Str("")))
              + ToText(lib, GetOr(e.data.items, "text", Str("")));
    prev.data.items := prev.data.items["text" := Str(text)];
    if !Get(e.fields, "seq").Null? { prev.fields := prev.fields["seq" := Get(e.fields, "seq")]; }
  }

  /** All objects new and pairwise different, their data too. */
  ghost predicate Separate(es: seq<EventDict>)
    reads es
  {
    forall i, j :: 0 <= i < j < |es| ==> es[i] != es[j] && (es[i].data != null ==> es[i].data != es[j].data)
  }

  ghost predicate Hold(es: seq<EventDict>, vs: seq<Event>)
    reads es, set e | e in es :: e.data
  {
    |vs| == |es| && forall k :: 0 <= k < |es| ==> es[k].Contents() == vs[k]
  }

  /** The list holds `ms`, in objects of its own that share nothing. */
  ghost predicate Owns(merged: seq<EventDict>, ms: seq<Event>)
    reads merged, set m | m in merged :: m.data
  {
    Hold(merged, ms) && Separate(merged) && forall m :: m in merged ==> m.Valid()
  }

  method AppendCopy(merged: seq<EventDict>, e: EventDict, ghost ms: seq<Event>) returns (more: seq<EventDict>)
    requires Owns(merged, ms) && e.Valid()
    ensures |more| == |merged| + 1 && more[..|merged|] == merged
    ensures fresh(more[|merged|]) && (more[|merged|].data != null ==> fresh(more[|merged|].data))
    ensures Owns(more, ms + [e.Contents()])
  {
    var copy := ShallowCopy(e);
    more := merged + [copy];
  }

  method AbsorbLast(lib: Library, ghost merged: seq<EventDict>, prev: EventDict, e: EventDict, ghost ms: seq<Event>)
    requires Owns(merged, ms) && e.Valid() && merged != [] && e !in merged && prev == Last(merged)
    requires Mergeable(Last(ms), e.Contents())
    requires forall m :: m in merged && m.data != null ==> m.data != e.data
    modifies prev`fields, prev.data
    ensures Owns(merged, Init(ms) + [Absorb(lib, Last(ms), old(e.Contents()))])
  {
    hide Absorb;
    assert prev == merged[|merged| - 1] && prev.Contents() == Last(ms);
    AbsorbInPlace(lib, prev, e);
  }

  /** The merging loop over event objects.  It has no `modifies` clause, so no event handed in,
      and no event already delivered, is ever changed. */
  method MergeEvents(lib: Library, events: seq<EventDict>, ghost es: seq<Event>)
    returns (merged: seq<EventDict>)
    requires Hold(events, es) && forall e :: e in events ==> e.Valid()
    ensures Owns(merged, Merge(lib, es))
    ensures forall m :: m in merged ==> fresh(m) && (m.data != null ==> fresh(m.data))
  {
    hide Merge, Absorb, Mergeable;
    merged := [];
    MergeNothing(lib);
    for n := 0 to |events|
      invariant Owns(merged, Merge(lib, es[..n]))
      invariant forall m :: m in merged ==> fresh(m) && (m.data != null ==> fresh(m.data))
    {
      MergeOneMore(lib, es, n);
      ghost var ms := Merge(lib, es[..n]);
      var e := events[n];
      assert e in events && e.Contents() == es[n];
      if merged != [] && Mergeable(merged[|merged| - 1].Contents(), e.Contents()) {
        assert merged[|merged| - 1].Contents() == Last(ms);
        AbsorbLast(lib, merged, merged[|merged| - 1], e, ms);
      } else {
        assert merged != [] ==> merged[|merged| - 1].Contents() == Last(ms);
        merged := AppendCopy(merged, e, ms);
      }
    }
    assert es[..|events|] == es;
  }

  /** `coalesce_events`: merge, then drop the middle if the cap is still exceeded. */
  method CoalesceEvents(lib: Library, events: seq<EventDict>, maxEvents: int, ghost es: seq<Event>)
    returns (kept: seq<EventDict>)
    requires Hold(events, es) && forall e :: e in events ==> e.Valid()
    ensures Hold(kept, Elide(lib, Merge(lib, es), maxEvents))
    ensures forall m :: m in kept ==> fresh(m) && (m.data != null ==> fresh(m.data))
  {
    hide Merge, Marker;
    var merged := MergeEvents(lib, events, es);
    if maxEvents <= 0 || |merged| <= maxEvents { return merged; }
    var keep := Keep(maxEvents);
    var marker := NewMarker(lib, |merged| - 2 * keep);
    kept := merged[..keep] + [marker] + merged[|merged| - keep..];
  }

  method NewMarker(lib: Library, dropped: int) returns (marker: EventDict)
    ensures fresh(marker) && (marker.data != null ==> fresh(marker.data))
    ensures marker.Contents() == Marker(lib, dropped)
  {
    var message := "[" + lib.show(Int(dropped)) + " events elided by the web layer]";
    var data := new DataDict(map["message" := Str(message)]);
    marker := new EventDict(map["type" := Str("log"), "elided" := Int(dropped)], data);
    assert marker.Contents() == Marker(lib, dropped);
  }

  lemma MergeNothing(lib: Library)
    ensures Merge(lib, []) == []
  {
  }

  lemma MergeOneMore(lib: Library, es: seq<Event>, n: nat)
    requires n < |es|
    ensures var ms := Merge(lib, es[..n]);
            Merge(lib, es[..n + 1]) ==
              if ms != [] && Mergeable(Last(ms), es[n]) then Init(ms) + [Absorb(lib, Last(ms), es[n])]
              else ms + [es[n]]
  {
    assert Init(es[..n + 1]) == es[..n] && Last(es[..n + 1]) == es[n];
  }
}
