/** Event fan-out to subscriber queues (app/controllers/manager.py): the queue discipline of
    `_offer`, and the objects that `subscribe`, `_broadcast` and `_close_active` update. */
module FanOut {
  import opened Coalesce
  import opened Replay

  predicate Full(bound: int, length: nat) {
    bound > 0 && length >= bound
  }

  /** An unforced `_offer` to a queue nobody else touches: a full queue loses its oldest event
      and does not take the new one either. */
  function Offered<T>(bound: int, q: seq<T>, e: T): seq<T> {
    if !Full(bound, |q|) then q + [e] else q[1..]
  }

  /** A forced `_offer`: the oldest event makes room. */
  function Forced<T>(bound: int, q: seq<T>, e: T): seq<T> {
    if !Full(bound, |q|) then q + [e] else q[1..] + [e]
  }

  /** A backlog offered one event after the other to a fresh queue. */
  function OfferAll<T>(bound: int, es: seq<T>): seq<T> {
    if es == [] then [] else Offered(bound, OfferAll(bound, es[..|es| - 1]), es[|es| - 1])
  }

  /** The events a subscriber resuming at `since` is replayed. */
  function Backlog(seen: seq<Event>, since: int): seq<Event> {
    if seen == [] then []
    else
      var rest, e := Backlog(seen[..|seen| - 1], since), seen[|seen| - 1];
      if AlreadySeen(e, since) then rest else rest + [e]
  }

  class EventQueue {
    const bound: int
    var items: seq<Event>

    ghost predicate Valid()
      reads this
    {
      bound > 0 ==> |items| <= bound
    }

    constructor (bound: int)
      ensures this.bound == bound && items == [] && Valid()
    {
      this.bound := bound;
      items := [];
    }

    method PutNowait(e: Event) returns (ok: bool)
      modifies this
      ensures ok <==> !Full(bound, |old(items)|)
      ensures items == if ok then old(items) + [e] else old(items)
    {
      ok := !Full(bound, |items|);
      if ok { items := items + [e]; }
    }

    method GetNowait() returns (empty: bool)
      modifies this
      ensures empty <==> old(items) == []
      ensures items == if empty then [] else old(items)[1..]
    {
      empty := items == [];
      if !empty { items := items[1..]; }
    }
  }

  /** `_offer`: puts, making room by evicting the oldest; only a forced offer tries again. */
  method Offer(q: EventQueue, e: Event, force: bool) returns (ok: bool)
    requires q.Valid()
    modifies q
    ensures q.Valid()
    ensures q.items == if force then Forced(q.bound, old(q.items), e) else Offered(q.bound, old(q.items), e)
    ensures ok <==> force || !Full(q.bound, |old(q.items)|)
  {
    ghost var before := q.items;
    while true
      invariant q.items == before || (force && Full(q.bound, |before|) && q.items == before[1..])
      decreases |q.items|
    {
      var put := q.PutNowait(e);
      if put { return true; }
      var empty := q.GetNowait();
      if !empty && !force { return false; }
    }
  }

  class ActiveRun {
    var seen: seq<Event>
    var subscribers: set<EventQueue>

    constructor ()
      ensures seen == [] && subscribers == {}
    {
      seen, subscribers := [], {};
    }

    ghost predicate Valid()
      reads this, subscribers
    {
      forall q :: q in subscribers ==> q.Valid()
    }

    /** `subscribe`: a fresh queue holding the replay, registered for everything that follows. */
    method Subscribe(since: int, bound: int) returns (q: EventQueue)
      requires Valid()
      modifies this`subscribers
      ensures Valid() && fresh(q) && q.bound == bound
      ensures subscribers == old(subscribers) + {q}
      ensures q.items == OfferAll(bound, Backlog(seen, since))
    {
      q := new EventQueue(bound);
      for n := 0 to |seen|
        invariant subscribers == old(subscribers) && fresh(q)
        invariant q.Valid() && q.items == OfferAll(bound, Backlog(seen[..n], since))
      {
        assert seen[..n + 1][..n] == seen[..n] && seen[..n + 1][n] == seen[n];
        var offered := Backlog(seen[..n], since);
        assert (offered + [seen[n]])[..|offered|] == offered;
        if !AlreadySeen(seen[n], since) { var _ := Offer(q, seen[n], false); }
      }
      assert seen[..|seen|] == seen;
      subscribers := subscribers + {q};
    }

    method Unsubscribe(q: EventQueue)
      requires Valid()
      modifies this`subscribers
      ensures Valid() && subscribers == old(subscribers) - {q}
    {
      subscribers := subscribers - {q};
    }

    /** `_broadcast` and `_close_active` with no other thread in between: the event is recorded
        and offered once to every queue registered at that moment. */
    method Publish(e: Event, force: bool) returns (dropped: nat)
      requires Valid()
      modifies this`seen, subscribers
      ensures Valid() && seen == old(seen) + [e] && subscribers == old(subscribers)
      ensures forall q :: q in subscribers ==>
                q.items == if force then Forced(q.bound, old(q.items), e) else Offered(q.bound, old(q.items), e)
      ensures dropped == |set q | q in subscribers && !force && Full(q.bound, |old(q.items)|)|
    {
      seen := seen + [e];
      var todo := subscribers;
      var refusing: set<EventQueue> := {};
      while todo != {}
        invariant todo <= subscribers == old(subscribers) && Valid()
        invariant seen == old(seen) + [e]
        invariant forall q :: q in todo ==> q.items == old(q.items)
        invariant forall q :: q in subscribers - todo ==>
                    q.items == if force then Forced(q.bound, old(q.items), e) else Offered(q.bound, old(q.items), e)
        invariant forall q :: q in refusing <==> q in subscribers - todo && !force && Full(q.bound, |old(q.items)|)
        decreases |todo|
      {
        var q :| q in todo;
        todo := todo - {q};
        var ok := Offer(q, e, force);
        if !ok { refusing := refusing + {q}; }
      }
      assert refusing == set q | q in subscribers && !force && Full(q.bound, |old(q.items)|);
      dropped := |refusing|;
    }
  }

  // -- what a replay through a bounded queue delivers ------------------------------------

  lemma {:induction false} OfferAllLength<T>(bound: int, es: seq<T>)
    requires bound > 0
    ensures |OfferAll(bound, es)| == if |es| <= bound then |es|
                                      else if (|es| - bound) % 2 == 0 then bound else bound - 1
  {
    if es != [] { OfferAllLength(bound, es[..|es| - 1]); }
  }

  /** The last event of a backlog, in particular the terminal one, survives the replay of a
      finishing run exactly when the backlog fits the bound or overshoots it by an even number;
      otherwise the subscriber waits for an event that never comes. */
  lemma ReplayDeliversLastIff(bound: int, m: nat)
    requires m > 0
    ensures var q := OfferAll(bound, seq(m, k => k));
            m - 1 in q <==> (bound <= 0 || m <= bound || (m - bound) % 2 == 0)
  {
    var es := seq(m, k => k);
    var init := es[..m - 1];
    if bound > 0 { OfferAllLength(bound, init); }
    OfferAllIsSubset(bound, init);
    var q := OfferAll(bound, init);
    assert OfferAll(bound, es) == Offered(bound, q, m - 1);
    assert m - 1 !in init;
    hide OfferAll;
    if Full(bound, |q|) {
      assert forall x :: x in q[1..] ==> x in q;
    } else {
      assert (q + [m - 1])[|q|] == m - 1;
    }
  }

  lemma {:induction false} OfferAllIsSubset<T>(bound: int, es: seq<T>)
    ensures forall e :: e in OfferAll(bound, es) ==> e in es
  {
    if es != [] {
      OfferAllIsSubset(bound, es[..|es| - 1]);
      assert es == es[..|es| - 1] + [es[|es| - 1]];
    }
  }
}
