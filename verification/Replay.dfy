/** Resuming a finished run from its stored transcript (`replay_payloads`,
    app/controllers/runs.py, over `coalesce_events`). */
module Replay {
  import opened Wrappers
  import opened Json
  import opened Coalesce
  import opened CoalesceTheorems

  /** Python's `isinstance(x, int)`, which booleans satisfy too. */
  function IntLike(j: Json): Option<int> {
    match j
    case Int(n) => Some(n)
    case Bool(b) => Some(if b then 1 else 0)
    case _ => None
  }

  /** `_already_seen`: whether a client that resumes at `since` already has the event. */
  predicate AlreadySeen(e: Event, since: int) {
    since > 0 && IntLike(Get(e, "seq")).Some? && IntLike(Get(e, "seq")).value <= since
  }

  function Unseen(stored: seq<Event>, since: int): seq<Event> {
    if stored == [] then []
    else (if AlreadySeen(stored[0], since) then [] else [stored[0]]) + Unseen(stored[1..], since)
  }

  function Terminal(status: string): Event {
    map["type" := Str("run"), "state" := Str(status)]
  }

  function ReplayPayloads(stored: seq<Event>, status: string, since: int): seq<Event> {
    Unseen(stored, since) + [Terminal(status)]
  }

  // -- which stretch of the original each stored event stands for ------------------------

  /** Where the stretches that the merging pass joins end. */
  function Cuts(es: seq<Event>): (cs: seq<nat>)
    ensures cs == [] <==> es == []
  {
    if es == [] then []
    else if LastMerges(es) then Init(Cuts(Init(es))) + [|es|]
    else Cuts(Init(es)) + [|es|]
  }

  function Lo(cs: seq<nat>, i: nat): nat
    requires i < |cs|
  {
    if i == 0 then 0 else cs[i - 1]
  }

  ghost predicate Ascending(cs: seq<nat>) {
    forall i {:trigger Lo(cs, i)} :: 0 <= i < |cs| ==> Lo(cs, i) < cs[i]
  }

  /** Moving the last cut to the right, or adding one, keeps the order. */
  lemma ExtendAscending(cs: seq<nat>, n: nat)
    requires Ascending(cs) && (cs != [] ==> Last(cs) < n) && n > 0
    ensures Ascending(cs + [n])
    ensures cs != [] ==> Ascending(Init(cs) + [n])
  {
    var more := cs + [n];
    assert forall i {:trigger Lo(more, i)} :: 0 <= i < |cs| ==> Lo(more, i) == Lo(cs, i);
    if cs != [] {
      var moved := Init(cs) + [n];
      assert forall i {:trigger Lo(moved, i)} :: 0 <= i < |cs| ==> Lo(moved, i) == Lo(cs, i);
    }
  }

  lemma {:induction false} CutsAscend(lib: Library, es: seq<Event>)
    ensures |Cuts(es)| == |Merge(lib, es)| && Ascending(Cuts(es))
    ensures es != [] ==> Last(Cuts(es)) == |es|
  {
    if es != [] {
      CutsAscend(lib, Init(es));
      MergesAreNeighbours(lib, es);
      ExtendAscending(Cuts(Init(es)), |es|);
      hide Merge, Mergeable, Absorb, LastMerges, Ascending;
    }
  }

  lemma {:induction false} AscendingOrder(cs: seq<nat>, i: nat, j: nat)
    requires Ascending(cs) && i <= j < |cs|
    ensures cs[i] <= cs[j]
  {
    if i < j { AscendingOrder(cs, i, j - 1); assert Lo(cs, j) < cs[j]; }
  }

  /** The last `seq` present in a stretch. */
  function LastSeq(part: seq<Event>): Json {
    if part == [] then Null
    else if !Get(Last(part), "seq").Null? then Get(Last(part), "seq")
    else LastSeq(Init(part))
  }

  function JoinTexts(lib: Library, part: seq<Event>): string {
    if part == [] then ""
    else JoinTexts(lib, Init(part)) + if Get(Last(part), "data").Obj? then StoredText(lib, Last(part)) else ""
  }

  /** A stored event contains its stretch: the event itself, or a delta holding all the texts. */
  ghost predicate Contains(lib: Library, m: Event, part: seq<Event>) {
    && Get(m, "seq") == LastSeq(part)
    && (|part| == 1 ==> m == part[0])
    && (|part| > 1 ==> IsDelta(m) && Get(m, "data").Obj? && StoredText(lib, m) == JoinTexts(lib, part))
  }

  lemma AbsorbContains(lib: Library, p: Event, e: Event, part: seq<Event>)
    requires part != [] && Mergeable(p, e) && Contains(lib, p, part)
    ensures Contains(lib, Absorb(lib, p, e), part + [e])
  {
    var a := Absorb(lib, p, e);
    assert Init(part + [e]) == part;
    assert StoredText(lib, a) == StoredText(lib, p) + StoredText(lib, e) by { hide ToText, Truthy; }
    assert JoinTexts(lib, part) == StoredText(lib, p) by {
      if |part| == 1 { assert JoinTexts(lib, Init(part)) == ""; }
    }
    hide StoredText, Truthy;
  }

  /** The `i`-th stretch of the original. */
  function Part(es: seq<Event>, i: nat): seq<Event>
    requires i < |Cuts(es)|
  {
    var lo, hi := Lo(Cuts(es), i), Cuts(es)[i];
    if lo <= hi <= |es| then es[lo..hi] else []
  }

  lemma SliceOfInit<T>(s: seq<T>, lo: nat, hi: nat)
    requires lo <= hi < |s|
    ensures Init(s)[lo..hi] == s[lo..hi]
    ensures hi == |s| - 1 ==> s[lo..|s|] == Init(s)[lo..hi] + [Last(s)] && s[hi..|s|] == [Last(s)]
  {
  }

  lemma PartKept(es: seq<Event>, i: nat)
    requires es != [] && i < |Cuts(Init(es))| && (i < |Cuts(Init(es))| - 1 || !LastMerges(es))
    requires Ascending(Cuts(Init(es))) && Last(Cuts(Init(es))) == |es| - 1
    ensures i < |Cuts(es)| && Part(es, i) == Part(Init(es), i)
  {
    var cs := Cuts(Init(es));
    AscendingOrder(cs, i, |cs| - 1);
    assert Lo(cs, i) < cs[i];
    assert Cuts(es)[i] == cs[i] && Lo(Cuts(es), i) == Lo(cs, i);
    hide Cuts, LastMerges, Ascending, Lo;
    SliceOfInit(es, Lo(cs, i), cs[i]);
  }

  lemma PartGrown(es: seq<Event>)
    requires es != [] && LastMerges(es) && Cuts(Init(es)) != []
    requires Ascending(Cuts(Init(es))) && Last(Cuts(Init(es))) == |es| - 1
    ensures var i := |Cuts(Init(es))| - 1;
            i == |Cuts(es)| - 1 && Part(es, i) == Part(Init(es), i) + [Last(es)] && Part(Init(es), i) != []
  {
    var cs := Cuts(Init(es));
    var i := |cs| - 1;
    assert Lo(cs, i) < cs[i];
    assert |Cuts(es)| == |cs| && Cuts(es)[i] == |es| && Lo(Cuts(es), i) == Lo(cs, i);
    hide Cuts, LastMerges, Ascending, Lo;
    SliceOfInit(es, Lo(cs, i), cs[i]);
  }

  lemma PartNew(es: seq<Event>)
    requires es != [] && !LastMerges(es)
    requires Cuts(Init(es)) != [] ==> Last(Cuts(Init(es))) == |es| - 1
    ensures Part(es, |Cuts(es)| - 1) == [Last(es)]
  {
    assert Lo(Cuts(es), |Cuts(es)| - 1) == |es| - 1;
    hide Cuts, LastMerges, Lo;
    SliceOfInit(es, |es| - 1, |es| - 1);
  }

  /** The stored transcript is the original cut into consecutive stretches, each contained in
      one stored event. */
  lemma {:induction false} PartContained(lib: Library, es: seq<Event>, i: nat)
    requires i < |Cuts(es)| && |Cuts(es)| == |Merge(lib, es)|
    ensures Contains(lib, Merge(lib, es)[i], Part(es, i))
  {
    hide Merge, Contains, Cuts, Part, Ascending, LastMerges, Mergeable, Absorb;
    var n := |Merge(lib, Init(es))|;
    CutsAscend(lib, Init(es));
    MergeIndex(lib, es, i);
    if i < n { PartContained(lib, Init(es), i); }
    if i < n - 1 || (i < n && !LastMerges(es)) {
      PartKept(es, i);
    } else if i < n {
      GrownContained(lib, es);
    } else {
      PartNew(es);
      SingleContains(lib, Last(es));
    }
  }

  lemma GrownContained(lib: Library, es: seq<Event>)
    requires es != [] && LastMerges(es) && Cuts(Init(es)) != []
    requires Ascending(Cuts(Init(es))) && Last(Cuts(Init(es))) == |es| - 1
    requires |Cuts(Init(es))| == |Merge(lib, Init(es))| && |Cuts(es)| == |Merge(lib, es)|
    requires Contains(lib, Last(Merge(lib, Init(es))), Part(Init(es), |Cuts(Init(es))| - 1))
    ensures Contains(lib, Merge(lib, es)[|Cuts(Init(es))| - 1], Part(es, |Cuts(Init(es))| - 1))
  {
    var i := |Cuts(Init(es))| - 1;
    MergeIndex(lib, es, i);
    PartGrown(es);
    hide Merge, Contains, Cuts, Part, Ascending, LastMerges, Mergeable, Absorb;
    AbsorbContains(lib, Last(Merge(lib, Init(es))), Last(es), Part(Init(es), i));
  }

  /** Which event of the previous pass, if any, each stored event comes from. */
  lemma MergeIndex(lib: Library, es: seq<Event>, i: nat)
    requires i < |Merge(lib, es)|
    ensures var ms := Merge(lib, Init(es));
            && |Merge(lib, es)| == |ms| + (if LastMerges(es) then 0 else 1)
            && (if i == |ms| then Merge(lib, es)[i] == Last(es)
                else if i == |ms| - 1 && LastMerges(es) then
                  Mergeable(Last(ms), Last(es)) && Merge(lib, es)[i] == Absorb(lib, Last(ms), Last(es))
                else Merge(lib, es)[i] == ms[i])
  {
    MergesAreNeighbours(lib, es);
    hide Merge, Mergeable, Absorb, LastMerges;
  }

  lemma SingleContains(lib: Library, e: Event)
    ensures Contains(lib, e, [e])
  {
    assert LastSeq(Init([e])) == Null;
  }

  // -- resuming ---------------------------------------------------------------------------

  /** What the harness numbers: `seq` absent or an integer, strictly increasing. */
  ghost predicate Numbered(es: seq<Event>) {
    && (forall e :: e in es ==> Get(e, "seq").Null? || Get(e, "seq").Int?)
    && (forall i, j :: 0 <= i < j < |es| && Get(es[i], "seq").Int? && Get(es[j], "seq").Int?
          ==> Get(es[i], "seq").n < Get(es[j], "seq").n)
  }

  lemma {:induction false} LastSeqIsGreatest(part: seq<Event>, k: nat)
    requires Numbered(part) && k < |part| && Get(part[k], "seq").Int?
    ensures LastSeq(part).Int? && Get(part[k], "seq").n <= LastSeq(part).n
  {
    assert Last(part) in part;
    if Get(Last(part), "seq").Null? {
      assert forall e :: e in Init(part) ==> e in part;
      LastSeqIsGreatest(Init(part), k);
    }
  }

  /** Within its stretch no number exceeds the stored one. */
  lemma StoredSeqCovers(lib: Library, es: seq<Event>, i: nat, k: nat)
    requires Numbered(es) && i < |Cuts(es)| && k < |Part(es, i)| && Get(Part(es, i)[k], "seq").Int?
    ensures |Cuts(es)| == |Merge(lib, es)|
    ensures var s := Get(Merge(lib, es)[i], "seq"); s.Int? && Get(Part(es, i)[k], "seq").n <= s.n
  {
    CutsAscend(lib, es);
    PartContained(lib, es, i);
    var part := Part(es, i);
    assert Numbered(part) by { SliceNumbered(es, i); }
    hide Cuts, Merge, Part, Numbered;
    LastSeqIsGreatest(part, k);
  }

  lemma SliceNumbered(es: seq<Event>, i: nat)
    requires Numbered(es) && i < |Cuts(es)|
    ensures Numbered(Part(es, i))
  {
    hide Cuts;
    assert forall e :: e in Part(es, i) ==> e in es;
  }

  lemma PartOf(lib: Library, es: seq<Event>, k: nat) returns (i: nat)
    requires k < |es|
    ensures i < |Cuts(es)| && Lo(Cuts(es), i) <= k < Cuts(es)[i] <= |es|
  {
    CutsAscend(lib, es);
    var cs := Cuts(es);
    hide Cuts, Merge;
    i := |cs| - 1;
    while k < Lo(cs, i)
      invariant i < |cs| && k < cs[i] <= |es|
      decreases i
    {
      assert Lo(cs, i) < cs[i];
      i := i - 1;
    }
  }

  lemma {:induction false} UnseenKeeps(stored: seq<Event>, since: int, m: Event)
    requires m in stored && !AlreadySeen(m, since)
    ensures m in Unseen(stored, since)
  {
    if m != stored[0] { UnseenKeeps(stored[1..], since, m); }
  }

  /** Resuming loses nothing: every event numbered above the resume point lies in a stretch
      contained in some replayed event, and the terminal event always comes last. */
  lemma ResumeLosesNothing(lib: Library, es: seq<Event>, status: string, since: int, k: nat)
    requires Numbered(es) && k < |es|
    requires Get(es[k], "seq").Int? && Get(es[k], "seq").n > since
    ensures var replayed := ReplayPayloads(Merge(lib, es), status, since);
            && Last(replayed) == Terminal(status)
            && exists m: Event, i: nat :: m in replayed && i < |Cuts(es)| && Lo(Cuts(es), i) <= k < Cuts(es)[i]
                                          && Contains(lib, m, Part(es, i))
  {
    hide Numbered, Merge, Contains, Unseen, Cuts;
    var i := PartOf(lib, es, k);
    assert Part(es, i)[k - Lo(Cuts(es), i)] == es[k];
    StoredSeqCovers(lib, es, i, k - Lo(Cuts(es), i));
    PartContained(lib, es, i);
    hide Part;
    var ms := Merge(lib, es);
    var m := ms[i];
    assert !AlreadySeen(m, since);
    UnseenKeeps(ms, since, m);
    assert m in ReplayPayloads(ms, status, since);
  }

  /** A stretch with both seen and unseen numbers. */
  ghost predicate Mixed(part: seq<Event>, since: int) {
    && (exists i :: 0 <= i < |part| && Get(part[i], "seq").Int? && Get(part[i], "seq").n <= since)
    && (exists j :: 0 <= j < |part| && Get(part[j], "seq").Int? && Get(part[j], "seq").n > since)
  }

  /** At most one stored event repeats text the client already has. */
  lemma AtMostOneMixed(lib: Library, es: seq<Event>, since: int, a: nat, b: nat)
    requires Numbered(es) && a < b < |Cuts(es)|
    ensures !Mixed(Part(es, a), since) || !Mixed(Part(es, b), since)
  {
    CutsAscend(lib, es);
    var cs := Cuts(es);
    hide Cuts, Merge;
    AscendingOrder(cs, a, b - 1);
    AscendingOrder(cs, b, |cs| - 1);
    assert Lo(cs, a) < cs[a] && Lo(cs, b) < cs[b];
    hide Ascending, Numbered, Mixed;
    SplitIsSharp(es, since, Lo(cs, a), cs[a], Lo(cs, b), cs[b]);
  }

  /** Of two stretches in order, the earlier cannot hold an unseen number when the later holds
      a seen one. */
  lemma SplitIsSharp(es: seq<Event>, since: int, lo: nat, mid: nat, mid': nat, hi: nat)
    requires Numbered(es) && lo < mid <= mid' < hi <= |es|
    ensures !Mixed(es[lo..mid], since) || !Mixed(es[mid'..hi], since)
  {
    var p, q := es[lo..mid], es[mid'..hi];
    if Mixed(p, since) {
      var j :| 0 <= j < |p| && Get(p[j], "seq").Int? && Get(p[j], "seq").n > since;
      assert p[j] == es[lo + j];
      forall i | 0 <= i < |q| && Get(q[i], "seq").Int? ensures Get(q[i], "seq").n > since {
        assert q[i] == es[mid' + i];
      }
    }
  }

  /** What is skipped holds no unseen number: nothing is lost by the skip itself. */
  lemma SkippedIsSeen(lib: Library, es: seq<Event>, since: int, i: nat, k: nat)
    requires Numbered(es) && i < |Cuts(es)| && |Cuts(es)| == |Merge(lib, es)|
    requires AlreadySeen(Merge(lib, es)[i], since)
    requires k < |Part(es, i)| && Get(Part(es, i)[k], "seq").Int?
    ensures Get(Part(es, i)[k], "seq").n <= since
  {
    StoredSeqCovers(lib, es, i, k);
  }
}
