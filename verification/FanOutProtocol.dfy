/** Fan-out as concurrent steps (app/controllers/manager.py): broadcasters, the closer and a
    subscriber interleave between the locked sections of `_broadcast`, `_close_active`,
    `subscribe`, `unsubscribe` and the separate put/get calls of `_offer`.

    The state is one subscriber's view of one run: other subscribers' queues are disjoint from
    it, so their steps do not show here.  Queues hold positions in `seen`. */
module FanOutProtocol {
  import opened Wrappers
  import opened Coalesce
  import opened Replay
  import opened FanOut

  datatype Closer = Open | Popped | Closed(terminal: nat)

  datatype Member =
    | Absent
    | Looked
    | Attached(since: int, reg: nat)
    | Detached(since: int, reg: nat, upto: nat)

  /** `holders`: broadcasters that found the run active and have not appended yet.
      `pending`: events whose broadcaster still has to offer them to this subscriber.
      `evicting`: those of them whose put found the queue full.
      `lost`: events evicted, or refused after an eviction. */
  datatype State = State(
    bound: int, seen: seq<Event>, holders: nat, closer: Closer, member: Member,
    queue: seq<nat>, received: seq<nat>, lost: multiset<nat>, pending: set<nat>, evicting: set<nat>)

  datatype Action =
    | Lookup                        // a broadcaster finds the run in `_active`
    | Append(event: Event)          // ... appends to `seen` and snapshots the subscribers
    | Put(i: nat)                   // `put_nowait` of event i
    | Evict(i: nat)                 // `get_nowait` after a full put
    | Receive                       // the subscriber takes an event
    | ClosePop                      // `_close_active` removes the run from `_active`
    | CloseAppend(event: Event)     // ... appends the terminal event and snapshots
    | SubLookup                     // `subscribe` finds the run
    | Subscribe(since: int)         // ... replays `seen` and registers, under the run's lock
    | Unsubscribe

  /** Positions a subscriber resuming at `since` is replayed. */
  function BacklogIndices(seen: seq<Event>, since: int): seq<nat> {
    if seen == [] then []
    else
      var rest, n := BacklogIndices(seen[..|seen| - 1], since), |seen| - 1;
      if AlreadySeen(seen[n], since) then rest else rest + [n]
  }

  function Targeted(s: State): set<nat> {
    if s.member.Attached? then s.pending + {|s.seen|} else s.pending
  }

  /** The terminal event is offered with `force`. */
  predicate IsForced(s: State, i: nat) {
    s.closer == Closed(i)
  }

  function Step(s: State, a: Action): Option<State> {
    match a
    case Lookup => if s.closer.Open? then Some(s.(holders := s.holders + 1)) else None
    case Append(e) =>
      if s.holders > 0
      then Some(s.(holders := s.holders - 1, seen := s.seen + [e], pending := Targeted(s)))
      else None
    case Put(i) =>
      if i !in s.pending || i in s.evicting then None
      else if Full(s.bound, |s.queue|) then Some(s.(evicting := s.evicting + {i}))
      else Some(s.(queue := s.queue + [i], pending := s.pending - {i}))
    case Evict(i) =>
      if i !in s.evicting then None
      else if s.queue == [] then Some(s.(evicting := s.evicting - {i}))
      else
        var s1 := s.(queue := s.queue[1..], evicting := s.evicting - {i}, lost := s.lost + multiset{s.queue[0]});
        Some(if IsForced(s, i) then s1 else s1.(pending := s.pending - {i}, lost := s1.lost + multiset{i}))
    case Receive =>
      if s.queue == [] then None
      else Some(s.(queue := s.queue[1..], received := s.received + [s.queue[0]]))
    case ClosePop => if s.closer.Open? then Some(s.(closer := Popped)) else None
    case CloseAppend(e) =>
      if s.closer.Popped?
      then Some(s.(closer := Closed(|s.seen|), seen := s.seen + [e], pending := Targeted(s)))
      else None
    case SubLookup => if s.member.Absent? && s.closer.Open? then Some(s.(member := Looked)) else None
    case Subscribe(since) =>
      if s.member.Looked? then
        var backlog := BacklogIndices(s.seen, since);
        var queue := OfferAll(s.bound, backlog);
        Some(s.(member := Attached(since, |s.seen|), queue := queue, lost := multiset(backlog) - multiset(queue)))
      else None
    case Unsubscribe =>
      if s.member.Attached? then Some(s.(member := Detached(s.member.since, s.member.reg, |s.seen|))) else None
  }

  function Run(s: State, acts: seq<Action>): Option<State>
    decreases acts
  {
    if acts == [] then Some(s)
    else match Step(s, acts[0])
      case None => None
      case Some(s') => Run(s', acts[1..])
  }

  function Start(bound: int): State {
    State(bound, [], 0, Open, Absent, [], [], multiset{}, {}, {})
  }

  // -- conservation ------------------------------------------------------------------

  /** How often event i exists on this subscriber's side. */
  function Places(s: State, i: nat): nat {
    multiset(s.received)[i] + multiset(s.queue)[i] + (if i in s.pending then 1 else 0) + s.lost[i]
  }

  /** Whether the subscriber is owed event i: replayed unless already seen when it registered,
      and everything appended while it was registered. */
  predicate Owed(s: State, i: nat) {
    i < |s.seen| &&
    match s.member
    case Attached(since, reg) => i >= reg || !AlreadySeen(s.seen[i], since)
    case Detached(since, reg, upto) => if i < reg then !AlreadySeen(s.seen[i], since) else i < upto
    case _ => false
  }

  ghost predicate Conserved(s: State) {
    forall i: nat :: Places(s, i) == if Owed(s, i) then 1 else 0
  }

  ghost predicate Inv(s: State) {
    && Conserved(s)
    && s.evicting <= s.pending
    && (s.bound > 0 ==> |s.queue| <= s.bound)
    && (s.bound <= 0 ==> s.evicting == {})
    && (s.closer.Closed? ==> s.closer.terminal < |s.seen|)
    && (s.member.Attached? ==> s.member.reg <= |s.seen|)
    && (s.member.Detached? ==> s.member.reg <= s.member.upto <= |s.seen|)
  }

  lemma {:induction false} BacklogCounts(seen: seq<Event>, since: int, i: nat)
    ensures multiset(BacklogIndices(seen, since))[i]
         == if i < |seen| && !AlreadySeen(seen[i], since) then 1 else 0
  {
    if seen != [] { BacklogCounts(seen[..|seen| - 1], since, i); }
  }

  lemma {:induction false} OfferAllTakesOnce<T>(bound: int, es: seq<T>)
    ensures multiset(OfferAll(bound, es)) <= multiset(es)
    ensures bound > 0 ==> |OfferAll(bound, es)| <= bound
  {
    if es != [] {
      var q, e := OfferAll(bound, es[..|es| - 1]), es[|es| - 1];
      OfferAllTakesOnce(bound, es[..|es| - 1]);
      assert es == es[..|es| - 1] + [e];
      if Full(bound, |q|) { assert q == [q[0]] + q[1..]; }
    }
  }

  lemma PopCounts(q: seq<nat>, i: nat)
    requires q != []
    ensures multiset(q)[i] == multiset(q[1..])[i] + if q[0] == i then 1 else 0
  {
    assert q == [q[0]] + q[1..];
  }

  predicate IsMove(a: Action) {
    a.Put? || a.Evict? || a.Receive?
  }

  lemma MoveKeepsOwed(s: State, a: Action, i: nat)
    requires IsMove(a) && Step(s, a).Some?
    ensures var s' := Step(s, a).value;
            s'.seen == s.seen && s'.member == s.member && Owed(s', i) == Owed(s, i)
  {
    hide AlreadySeen, Full, IsForced;
  }

  lemma EvictConserves(s: State, e: nat, i: nat)
    requires s.evicting <= s.pending && Step(s, Evict(e)).Some?
    ensures Places(Step(s, Evict(e)).value, i) == Places(s, i)
  {
    if s.queue != [] { PopCounts(s.queue, i); }
  }

  /** Queue operations move an event from one place to another. */
  lemma MoveConserves(s: State, a: Action, i: nat)
    requires s.evicting <= s.pending && IsMove(a) && Step(s, a).Some?
    ensures Places(Step(s, a).value, i) == Places(s, i)
  {
    if a.Evict? {
      EvictConserves(s, a.i, i);
    } else {
      hide Full;
      if s.queue != [] { PopCounts(s.queue, i); }
    }
  }

  /** An append creates exactly the event newly owed. */
  lemma AppendConserves(s: State, a: Action, i: nat)
    requires Inv(s) && (a.Append? || a.CloseAppend?) && Step(s, a).Some?
    ensures var s' := Step(s, a).value; Places(s', i) == if Owed(s', i) then 1 else 0
  {
    hide AlreadySeen;
    assert Places(s, i) == if Owed(s, i) then 1 else 0;
  }

  lemma SubscribeConserves(s: State, since: int, i: nat)
    requires s.member.Looked? && i !in s.pending && multiset(s.received)[i] == 0
    ensures var s' := Step(s, Subscribe(since)).value; Places(s', i) == if Owed(s', i) then 1 else 0
  {
    var backlog := BacklogIndices(s.seen, since);
    var queue := OfferAll(s.bound, backlog);
    BacklogCounts(s.seen, since, i);
    OfferAllTakesOnce(s.bound, backlog);
    hide AlreadySeen, BacklogIndices, OfferAll;
    var s' := Step(s, Subscribe(since)).value;
    assert s'.queue == queue && s'.member == Attached(since, |s.seen|) && s'.seen == s.seen;
    assert multiset(s'.queue)[i] + s'.lost[i] == multiset(BacklogIndices(s.seen, since))[i];
    assert s'.pending == s.pending && s'.received == s.received;
    hide Step;
  }

  /** Each step moves events between the places a subscriber can hold them, and adds exactly
      the newly owed one. */
  lemma StepConserves(s: State, a: Action, i: nat)
    requires Inv(s) && Step(s, a).Some?
    ensures var s' := Step(s, a).value; Places(s', i) == if Owed(s', i) then 1 else 0
  {
    assert Places(s, i) == if Owed(s, i) then 1 else 0;
    if IsMove(a) {
      MoveConserves(s, a, i);
      MoveKeepsOwed(s, a, i);
    } else if a.Append? || a.CloseAppend? {
      AppendConserves(s, a, i);
    } else if a.Subscribe? {
      NothingBefore(s, i);
      SubscribeConserves(s, a.since, i);
    }
    hide AlreadySeen, BacklogIndices, OfferAll, Targeted, Full;
  }

  lemma NothingBefore(s: State, i: nat)
    requires Inv(s) && s.member.Looked?
    ensures i !in s.pending && s.lost[i] == 0 && multiset(s.received)[i] == 0
  {
    assert Places(s, i) == 0;
  }

  lemma StepKeepsInv(s: State, a: Action)
    requires Inv(s) && Step(s, a).Some?
    ensures Inv(Step(s, a).value)
  {
    forall i: nat ensures Places(Step(s, a).value, i) == if Owed(Step(s, a).value, i) then 1 else 0 {
      StepConserves(s, a, i);
    }
    if a.Subscribe? { OfferAllTakesOnce(s.bound, BacklogIndices(s.seen, a.since)); }
  }

  lemma {:induction false} RunKeepsInv(s: State, acts: seq<Action>)
    requires Inv(s) && Run(s, acts).Some?
    ensures Inv(Run(s, acts).value)
    decreases acts
  {
    if acts != [] {
      StepKeepsInv(s, acts[0]);
      RunKeepsInv(Step(s, acts[0]).value, acts[1..]);
    }
  }

  /** Exactly-once fan-out.  Over every interleaving, what a subscriber has received, has queued
      and is still being offered are exactly the events it is owed, each once, up to the ones
      lost to overflow; nothing is ever duplicated, and a bounded queue keeps its bound. */
  lemma ExactlyOnce(bound: int, acts: seq<Action>, i: nat)
    requires Run(Start(bound), acts).Some?
    ensures var s := Run(Start(bound), acts).value;
            var held := multiset(s.received)[i] + multiset(s.queue)[i] + if i in s.pending then 1 else 0;
            && held <= 1
            && (held == 1 ==> Owed(s, i))
            && (s.lost == multiset{} ==> held == if Owed(s, i) then 1 else 0)
            && (bound > 0 ==> |s.queue| <= bound)
  {
    StartInv(bound);
    RunKeepsInv(Start(bound), acts);
    var s := Run(Start(bound), acts).value;
    assert Places(s, i) == if Owed(s, i) then 1 else 0;
    RunKeepsBound(Start(bound), acts);
  }

  lemma StartInv(bound: int)
    ensures Inv(Start(bound))
  {
  }

  lemma {:induction false} RunKeepsBound(s: State, acts: seq<Action>)
    requires Run(s, acts).Some?
    ensures Run(s, acts).value.bound == s.bound
    decreases acts
  {
    if acts != [] { RunKeepsBound(Step(s, acts[0]).value, acts[1..]); }
  }

  // -- the terminal event ------------------------------------------------------------

  /** The terminal event T is queued, and enough broadcasts are still in flight to overflow the
      queue once more (or one of them is about to evict already). */
  predicate AtRisk(s: State) {
    s.bound > 0 && (s.evicting != {} || |s.queue| + |s.pending| + s.holders > s.bound)
  }

  ghost predicate Secured(s: State, t: nat) {
    && Inv(s) && s.closer == Closed(t) && Owed(s, t)
    && (t in s.received || (t in s.queue && !AtRisk(s)))
  }

  lemma SecuredIsNotLost(s: State, t: nat)
    requires Secured(s, t)
    ensures t !in s.lost
  {
    assert Places(s, t) == 1;
    hide Owed;
  }

  lemma FreshIndex(s: State)
    requires Inv(s)
    ensures |s.seen| !in s.pending
  {
    assert Places(s, |s.seen|) == 0;
  }

  lemma StepKeepsSecured(s: State, a: Action, t: nat)
    requires Secured(s, t) && Step(s, a).Some?
    ensures Secured(Step(s, a).value, t)
  {
    StepKeepsInv(s, a);
    FreshIndex(s);
    var s' := Step(s, a).value;
    assert Owed(s', t) by { hide AlreadySeen, Full; }
    hide Inv, Owed, AlreadySeen, BacklogIndices, OfferAll;
    if a.Receive? { assert s.queue == [s.queue[0]] + s.queue[1..]; assert s'.received[|s.received|] == s.queue[0]; }
  }

  lemma {:induction false} SecuredForever(s: State, acts: seq<Action>, t: nat)
    requires Secured(s, t) && Run(s, acts).Some?
    ensures Secured(Run(s, acts).value, t)
    decreases acts
  {
    if acts != [] {
      StepKeepsSecured(s, acts[0], t);
      SecuredForever(Step(s, acts[0]).value, acts[1..], t);
    }
  }

  /** The next step towards losing the terminal event: make an offer evict, or bring one about. */
  lemma TowardsLoss(s: State, t: nat) returns (a: Action)
    requires Inv(s) && s.closer == Closed(t) && s.member.Attached? && t in s.queue && AtRisk(s)
    requires s.evicting == {} || s.queue[0] != t
    ensures Step(s, a).Some?
    ensures var s' := Step(s, a).value;
            && s'.closer == Closed(t) && s'.member.Attached? && t in s'.queue && AtRisk(s')
            && (if s.evicting != {}
                then s'.evicting != {} && s'.holders == s.holders && s'.pending == s.pending
                     && |s'.queue| < |s.queue|
                else s'.evicting != {}
                     || (s'.holders < s.holders)
                     || (s'.holders == s.holders && |s'.pending| < |s.pending|))
  {
    if s.evicting != {} {
      a := Receive;
      assert s.queue == [s.queue[0]] + s.queue[1..];
    } else if s.pending != {} {
      var i :| i in s.pending;
      a := Put(i);
      hide Inv;
    } else {
      a := Append(map[]);
      FreshIndex(s);
      hide Inv;
    }
  }

  /** A schedule that makes the in-flight broadcasts evict the terminal event. */
  lemma {:induction false} LosingSchedule(s: State, t: nat) returns (acts: seq<Action>)
    requires Inv(s) && s.closer == Closed(t) && s.member.Attached? && t in s.queue && AtRisk(s)
    ensures Run(s, acts).Some? && t in Run(s, acts).value.lost
    decreases s.evicting == {}, s.holders, |s.pending|, |s.queue|
  {
    if s.evicting != {} && s.queue[0] == t {
      var i :| i in s.evicting;
      acts := [Evict(i)];
      LastStep(s, Evict(i));
    } else {
      var a := TowardsLoss(s, t);
      StepKeepsInv(s, a);
      hide Inv, Step, AtRisk;
      var rest := LosingSchedule(Step(s, a).value, t);
      acts := [a] + rest;
      assert acts[1..] == rest;
    }
  }

  lemma LastStep(s: State, a: Action)
    ensures Run(s, [a]) == Step(s, a)
  {
    assert [a][1..] == [];
  }

  /** Exactly when the terminal event can be lost after it has been queued: if and only if the
      broadcasts still in flight can overflow the queue. */
  lemma TerminalCanBeLostIff(s: State, t: nat)
    requires Inv(s) && s.closer == Closed(t) && s.member.Attached? && Owed(s, t) && t in s.queue
    ensures (exists acts :: Run(s, acts).Some? && t in Run(s, acts).value.lost) <==> AtRisk(s)
  {
    if AtRisk(s) {
      var acts := LosingSchedule(s, t);
    } else {
      forall acts | Run(s, acts).Some? ensures t !in Run(s, acts).value.lost {
        SecuredForever(s, acts, t);
        SecuredIsNotLost(Run(s, acts).value, t);
      }
    }
  }

  /** The usual case: nothing else in flight when the terminal event is queued.  Then every
      continuation delivers it or still has it queued. */
  lemma QuietCloseDelivers(s: State, t: nat, acts: seq<Action>)
    requires Inv(s) && s.closer == Closed(t) && Owed(s, t) && t in s.queue
    requires s.holders == 0 && s.pending == {}
    requires Run(s, acts).Some?
    ensures var s' := Run(s, acts).value; t in s'.received || t in s'.queue
  {
    SecuredForever(s, acts, t);
  }

  /** A user cancel racing the end of the run: its broadcast, overtaken by the close, evicts
      the terminal event from a one-place queue. */
  lemma CancelRaceLosesTerminal(cancel: Event, terminal: Event)
    ensures exists acts ::
              && Run(Start(1), acts).Some?
              && var s := Run(Start(1), acts).value;
                 s.closer == Closed(1) && s.pending == {} && s.holders == 0
                 && 1 in s.lost && 1 !in s.received && 1 !in s.queue
  {
    var r3 := [Put(1), Put(0), Evict(0)];
    var r2 := [Append(cancel), CloseAppend(terminal)] + r3;
    var acts := [SubLookup, Subscribe(0), Lookup, ClosePop] + r2;
    var s1 := Start(1).(member := Attached(0, 0), holders := 1, closer := Popped);
    var s2 := s1.(seen := [cancel, terminal], holders := 0, closer := Closed(1), pending := {0, 1});
    var s3 := s2.(pending := {}, lost := multiset{0, 1});
    assert Run(Start(1), acts) == Run(s1, r2) by { Opening(r2); }
    assert Run(s1, r2) == Run(s2, r3) by { Appending(s1, cancel, terminal, r3); }
    assert Run(s2, r3) == Some(s3) by { Overflowing(s2); }
  }

  lemma RunCons(s: State, a: Action, rest: seq<Action>)
    requires Step(s, a).Some?
    ensures Run(s, [a] + rest) == Run(Step(s, a).value, rest)
  {
    assert ([a] + rest)[1..] == rest;
  }

  lemma Opening(rest: seq<Action>)
    ensures Run(Start(1), [SubLookup, Subscribe(0), Lookup, ClosePop] + rest)
         == Run(Start(1).(member := Attached(0, 0), holders := 1, closer := Popped), rest)
  {
    var s0 := Start(1);
    var t1 := s0.(member := Looked);
    var t2 := s0.(member := Attached(0, 0));
    var t3 := t2.(holders := 1);
    hide Run;
    RunCons(t3, ClosePop, rest);
    RunCons(t2, Lookup, [ClosePop] + rest);
    RunCons(t1, Subscribe(0), [Lookup] + ([ClosePop] + rest));
    RunCons(s0, SubLookup, [Subscribe(0)] + ([Lookup] + ([ClosePop] + rest)));
    assert Step(t1, Subscribe(0)).value.lost == multiset{};
    assert [SubLookup, Subscribe(0), Lookup, ClosePop] + rest
        == [SubLookup] + ([Subscribe(0)] + ([Lookup] + ([ClosePop] + rest)));
  }

  lemma Appending(s: State, cancel: Event, terminal: Event, rest: seq<Action>)
    requires s == Start(1).(member := Attached(0, 0), holders := 1, closer := Popped)
    ensures Run(s, [Append(cancel), CloseAppend(terminal)] + rest)
         == Run(s.(seen := [cancel, terminal], holders := 0, closer := Closed(1), pending := {0, 1}), rest)
  {
    var t := s.(seen := [cancel], holders := 0, pending := {0});
    hide Run;
    assert Step(s, Append(cancel)).value == t;
    assert {0} + {1} == {0, 1} && [cancel] + [terminal] == [cancel, terminal];
    assert Step(t, CloseAppend(terminal)).value
        == s.(seen := [cancel, terminal], holders := 0, closer := Closed(1), pending := {0, 1});
    RunCons(t, CloseAppend(terminal), rest);
    RunCons(s, Append(cancel), [CloseAppend(terminal)] + rest);
    assert [Append(cancel), CloseAppend(terminal)] + rest == [Append(cancel)] + ([CloseAppend(terminal)] + rest);
  }

  lemma Overflowing(s: State)
    requires s.bound == 1 && s.queue == [] && s.pending == {0, 1} && s.evicting == {} && s.lost == multiset{}
    requires s.closer == Closed(1)
    ensures Run(s, [Put(1), Put(0), Evict(0)]) == Some(s.(pending := {}, lost := multiset{0, 1}))
  {
    var t1 := s.(queue := [1], pending := {0});
    var t2 := t1.(evicting := {0});
    hide Run;
    assert Step(s, Put(1)).value == t1;
    assert Step(t1, Put(0)).value == t2;
    assert Step(t2, Evict(0)).value == s.(pending := {}, lost := multiset{0, 1});
    LastStep(t2, Evict(0));
    RunCons(t1, Put(0), [Evict(0)]);
    RunCons(s, Put(1), [Put(0)] + [Evict(0)]);
    assert [Put(1), Put(0), Evict(0)] == [Put(1)] + ([Put(0)] + [Evict(0)]);
  }

  lemma TerminalStep(s: State, a: Action, t: nat)
    requires s.closer == Closed(t) && t in s.pending && Step(s, a).Some?
    ensures var s' := Step(s, a).value;
            s'.closer == Closed(t) && (t in s'.pending || (a == Put(t) && s'.queue == s.queue + [t]))
  {
    hide OfferAll, BacklogIndices;
  }

  /** Over any schedule the terminal event is not dropped on its way to the queue: it is still to
      be offered, or one of the puts that were made has queued it. */
  lemma {:induction false} TerminalReachesTheQueue(s: State, acts: seq<Action>, t: nat)
    requires s.closer == Closed(t) && t in s.pending && Run(s, acts).Some?
    ensures t in Run(s, acts).value.pending
            || exists k :: 0 <= k < |acts| && acts[k] == Put(t)
                 && Run(s, acts[..k + 1]).Some? && t in Run(s, acts[..k + 1]).value.queue
    decreases acts
  {
    if acts != [] {
      var a, rest := acts[0], acts[1..];
      var s1 := Step(s, a).value;
      TerminalStep(s, a, t);
      hide Step, OfferAll, BacklogIndices;
      if t in s1.pending {
        TerminalReachesTheQueue(s1, rest, t);
        if t !in Run(s1, rest).value.pending {
          var k :| 0 <= k < |rest| && rest[k] == Put(t)
                   && Run(s1, rest[..k + 1]).Some? && t in Run(s1, rest[..k + 1]).value.queue;
          assert acts[..k + 2][1..] == rest[..k + 1];
          assert acts[k + 1] == Put(t) && t in Run(s, acts[..k + 1 + 1]).value.queue;
        }
      } else {
        assert acts[..1] == [a];
        LastStep(s, a);
        assert s1.queue[|s.queue|] == t;
        assert acts[0] == Put(t) && t in Run(s, acts[..0 + 1]).value.queue;
      }
    }
  }
}
