/** Sliding-window rate limiting (app/infra/ratelimit.py): the in-memory deque and its Redis twin.
    Times, windows and scores are reals; the clock reading is a parameter. */
module RateLimit {
  import opened Numbers

  /** `Crashed` is the deque's IndexError: a limit below one refuses on an empty window. */
  datatype Verdict = Allowed | Refused(retryAfter: real) | Crashed

  function Max(a: real, b: real): real {
    if a < b then b else a
  }

  // -- the deque ---------------------------------------------------------------

  /** The deque after popping every hit at or before the cutoff from its left end. */
  function Trim(hits: seq<real>, cutoff: real): seq<real> {
    if hits != [] && hits[0] <= cutoff then Trim(hits[1..], cutoff) else hits
  }

  /** One `check` on one key's deque. */
  function CheckHits(hits: seq<real>, now: real, limit: int, window: real): (seq<real>, Verdict) {
    var h := Trim(hits, now - window);
    if |h| >= limit then
      (h, if h == [] then Crashed else Refused(Max(0.0, window - (now - h[0]))))
    else (h + [now], Allowed)
  }

  function Of(hits: map<string, seq<real>>, key: string): seq<real> {
    if key in hits then hits[key] else []
  }

  class SlidingWindowLimiter {
    var hits: map<string, seq<real>>

    constructor ()
      ensures hits == map[]
    {
      hits := map[];
    }

    method Check(key: string, now: real, limit: int, window: real) returns (verdict: Verdict)
      modifies this
      ensures var (h, v) := CheckHits(Of(old(hits), key), now, limit, window);
              hits == old(hits)[key := h] && verdict == v
    {
      var cutoff := now - window;
      var h := Of(hits, key);
      while h != [] && h[0] <= cutoff
        invariant Trim(h, cutoff) == Trim(Of(old(hits), key), cutoff)
      {
        h := h[1..];
      }
      if |h| >= limit {
        verdict := if h == [] then Crashed else Refused(Max(0.0, window - (now - h[0])));
      } else {
        h := h + [now];
        verdict := Allowed;
      }
      hits := hits[key := h];
    }
  }

  // -- histories of one key -----------------------------------------------------

  predicate Sorted(s: seq<real>) {
    forall i, j :: 0 <= i <= j < |s| ==> s[i] <= s[j]
  }

  /** Number of times in the half-open interval (lo, hi]. */
  function CountIn(s: seq<real>, lo: real, hi: real): nat {
    if s == [] then 0
    else CountIn(s[..|s| - 1], lo, hi) + if lo < s[|s| - 1] <= hi then 1 else 0
  }

  /** Deque contents and the times of the allowed checks, after checks at the given times. */
  function After(ts: seq<real>, limit: int, window: real): (r: (seq<real>, seq<real>)) {
    if ts == [] then ([], [])
    else
      var (hits, granted) := After(ts[..|ts| - 1], limit, window);
      var now := ts[|ts| - 1];
      var (h, v) := CheckHits(hits, now, limit, window);
      (h, if v.Allowed? then granted + [now] else granted)
  }

  /** The deque is the part of the allowed history that no future cutoff has passed. */
  ghost predicate Remembers(hits: seq<real>, granted: seq<real>, last: real, limit: int, window: real) {
    && Sorted(granted)
    && (forall x :: x in granted ==> x <= last)
    && |hits| <= limit && |hits| <= |granted|
    && hits == granted[|granted| - |hits|..]
    && (forall i :: 0 <= i < |granted| - |hits| ==> granted[i] <= last - window)
  }

  lemma {:induction false} TrimIsSuffix(h: seq<real>, cutoff: real)
    requires Sorted(h)
    ensures var t := Trim(h, cutoff);
            && |t| <= |h| && t == h[|h| - |t|..]
            && (forall i :: 0 <= i < |h| - |t| ==> h[i] <= cutoff)
            && (forall x :: x in t ==> cutoff < x)
  {
    if h != [] && h[0] <= cutoff {
      TrimIsSuffix(h[1..], cutoff);
      assert forall i :: 0 < i < |h| ==> h[i] == h[1..][i - 1];
    }
  }

  /** With every time at most `hi`, the count is the length of the suffix past `lo`. */
  lemma {:induction false} CountSuffix(s: seq<real>, n: nat, lo: real, hi: real)
    requires n <= |s|
    requires forall i :: 0 <= i < n ==> s[i] <= lo
    requires forall i :: n <= i < |s| ==> lo < s[i] <= hi
    ensures CountIn(s, lo, hi) == |s| - n
  {
    if |s| > n { CountSuffix(s[..|s| - 1], n, lo, hi); }
    else if s != [] { CountSuffix(s[..|s| - 1], n - 1, lo, hi); }
  }

  /** A suffix of a suffix, index by index. */
  lemma SuffixOfSuffix(t: seq<real>, h: seq<real>, g: seq<real>)
    requires |t| <= |h| <= |g| && h == g[|g| - |h|..] && t == h[|h| - |t|..]
    ensures t == g[|g| - |t|..]
    ensures forall i :: |g| - |h| <= i < |g| ==> g[i] == h[i - (|g| - |h|)]
    ensures forall i :: |g| - |t| <= i < |g| ==> g[i] in t
  {
    assert forall i :: |g| - |t| <= i < |g| ==> g[i] == t[i - (|g| - |t|)];
  }

  /** What trimming leaves is exactly the part of the allowed history past the cutoff. */
  lemma TrimOfHistory(hits: seq<real>, granted: seq<real>, last: real, now: real, limit: int, window: real)
    requires last <= now && Remembers(hits, granted, last, limit, window)
    ensures var t := Trim(hits, now - window); var n := |granted| - |t|;
            && 0 <= n && |t| <= |hits| && t == granted[n..]
            && (forall i :: 0 <= i < n ==> granted[i] <= now - window)
            && (forall i :: n <= i < |granted| ==> now - window < granted[i])
  {
    var t := Trim(hits, now - window);
    TrimIsSuffix(hits, now - window) by {
      SuffixIsSorted(granted, |granted| - |hits|);
    }
    SuffixOfSuffix(t, hits, granted);
    hide Trim, Sorted;
  }

  lemma SuffixIsSorted(s: seq<real>, n: nat)
    requires Sorted(s) && n <= |s|
    ensures Sorted(s[n..])
  {
  }

  /** The deque decides on exactly the allowed checks inside (now - window, now]. */
  lemma DecisionIsWindowCount(hits: seq<real>, granted: seq<real>, last: real, now: real, limit: int, window: real)
    requires limit >= 1 && last <= now && Remembers(hits, granted, last, limit, window)
    ensures var v := CheckHits(hits, now, limit, window).1;
            && (v.Allowed? <==> CountIn(granted, now - window, now) < limit)
            && (v.Refused? <==> CountIn(granted, now - window, now) >= limit)
  {
    TrimOfHistory(hits, granted, last, now, limit, window);
    var n := |granted| - |Trim(hits, now - window)|;
    hide Trim;
    assert forall i :: 0 <= i < |granted| ==> granted[i] in granted;
    CountSuffix(granted, n, now - window, now);
  }

  lemma CheckRemembers(hits: seq<real>, granted: seq<real>, last: real, now: real, limit: int, window: real)
    requires limit >= 1 && last <= now && Remembers(hits, granted, last, limit, window)
    ensures var (h, v) := CheckHits(hits, now, limit, window);
            Remembers(h, if v.Allowed? then granted + [now] else granted, now, limit, window)
  {
    TrimOfHistory(hits, granted, last, now, limit, window);
    var t := Trim(hits, now - window);
    hide Trim;
    if |t| < limit {
      assert forall i :: 0 <= i < |granted| ==> granted[i] in granted;
      assert t + [now] == (granted + [now])[|granted| - |t|..];
      assert Remembers(t + [now], granted + [now], now, limit, window);
    } else {
      assert Remembers(t, granted, now, limit, window);
    }
  }

  lemma {:induction false} HistoryRemembered(ts: seq<real>, limit: int, window: real)
    requires limit >= 1 && Sorted(ts) && ts != []
    ensures var (hits, granted) := After(ts, limit, window);
            Remembers(hits, granted, ts[|ts| - 1], limit, window)
  {
    var init, now := ts[..|ts| - 1], ts[|ts| - 1];
    if init == [] {
      CheckRemembers([], [], now, now, limit, window);
    } else {
      HistoryRemembered(init, limit, window);
      var (hits, granted) := After(init, limit, window);
      CheckRemembers(hits, granted, init[|init| - 1], now, limit, window);
    }
  }

  lemma {:induction false} CountMonotone(s: seq<real>, lo: real, hi: real, lo': real, hi': real)
    requires forall i :: 0 <= i < |s| && lo < s[i] <= hi ==> lo' < s[i] <= hi'
    ensures CountIn(s, lo, hi) <= CountIn(s, lo', hi')
  {
    if s != [] {
      CountMonotone(s[..|s| - 1], lo, hi, lo', hi');
    }
  }

  /** One more allowed check cannot overflow any interval if its own window had room. */
  lemma RoomEverywhere(granted: seq<real>, now: real, limit: int, window: real, a: real)
    requires forall x :: x in granted ==> x <= now
    requires CountIn(granted, a, a + window) <= limit && CountIn(granted, now - window, now) < limit
    ensures CountIn(granted + [now], a, a + window) <= limit
  {
    assert (granted + [now])[..|granted|] == granted;
    if a < now <= a + window {
      assert forall i :: 0 <= i < |granted| ==> granted[i] in granted;
      CountMonotone(granted, a, a + window, now - window, now);
    }
  }

  /** Sliding-window theorem: over any history of checks at non-decreasing times, no half-open
      interval of length `window`, wherever it lies, holds more than `limit` allowed checks. */
  lemma {:induction false} NoWindowOverflows(ts: seq<real>, limit: int, window: real, a: real)
    requires limit >= 1 && Sorted(ts)
    ensures CountIn(After(ts, limit, window).1, a, a + window) <= limit
  {
    if ts != [] {
      var init, now := ts[..|ts| - 1], ts[|ts| - 1];
      NoWindowOverflows(init, limit, window, a);
      var (hits, granted) := After(init, limit, window);
      var last := if init == [] then now else init[|init| - 1];
      if init != [] { HistoryRemembered(init, limit, window); }
      DecisionIsWindowCount(hits, granted, last, now, limit, window);
      hide CheckHits, CountIn;
      if CheckHits(hits, now, limit, window).1.Allowed? {
        RoomEverywhere(granted, now, limit, window, a);
      }
    }
  }

  /** A check is refused only when the window is really full of allowed ones. */
  lemma RefusedOnlyWhenFull(ts: seq<real>, now: real, limit: int, window: real)
    requires limit >= 1 && Sorted(ts + [now])
    ensures var (hits, granted) := After(ts, limit, window);
            CheckHits(hits, now, limit, window).1.Refused? <==> CountIn(granted, now - window, now) >= limit
  {
    var (hits, granted) := After(ts, limit, window);
    assert forall i :: 0 <= i < |ts| ==> ts[i] == (ts + [now])[i];
    if ts != [] {
      HistoryRemembered(ts, limit, window);
      assert (ts + [now])[|ts| - 1] <= (ts + [now])[|ts|];
    }
    DecisionIsWindowCount(hits, granted, if ts == [] then now else ts[|ts| - 1], now, limit, window);
  }

  /** Trimming short of the oldest hit changes nothing; at the oldest hit it frees a place. */
  lemma TrimOldest(h: seq<real>, cutoff: real)
    requires h != []
    ensures cutoff < h[0] ==> Trim(h, cutoff) == h
    ensures Sorted(h) && h[0] <= cutoff ==> |Trim(h, cutoff)| < |h|
  {
    if h[0] <= cutoff && Sorted(h) { TrimIsSuffix(h[1..], cutoff); }
  }

  /** A full deque of hits inside the window: the oldest decides how long to wait. */
  lemma FullDequeFrees(h: seq<real>, now: real, limit: int, window: real, wait: real)
    requires limit >= 1 && |h| == limit && Sorted(h) && wait >= 0.0
    requires now - window < h[0]
    ensures var r := window - (now - h[0]);
            && r > 0.0
            && (wait < r ==> CheckHits(h, now + wait, limit, window).0 == h
                             && CheckHits(h, now + wait, limit, window).1.Refused?)
            && (wait == r ==> CheckHits(h, now + wait, limit, window).1.Allowed?)
  {
    TrimOldest(h, now + wait - window);
    hide Trim;
  }

  /** `retry_after` is tight: retrying after exactly that long succeeds, any sooner is refused
      (and leaves the deque as it was, so being early costs nothing). */
  lemma RetryAfterIsTight(ts: seq<real>, now: real, limit: int, window: real, wait: real)
    requires limit >= 1 && Sorted(ts + [now]) && wait >= 0.0
    requires CheckHits(After(ts, limit, window).0, now, limit, window).1.Refused?
    ensures var (h, v) := CheckHits(After(ts, limit, window).0, now, limit, window);
            && v.retryAfter > 0.0
            && (wait < v.retryAfter ==> var (h', v') := CheckHits(h, now + wait, limit, window);
                                        v'.Refused? && h' == h)
            && (wait == v.retryAfter ==> CheckHits(h, now + wait, limit, window).1.Allowed?)
  {
    var (hits, granted) := After(ts, limit, window);
    var last := if ts == [] then now else ts[|ts| - 1];
    assert forall i :: 0 <= i < |ts| ==> ts[i] == (ts + [now])[i];
    if ts != [] {
      HistoryRemembered(ts, limit, window);
      assert (ts + [now])[|ts| - 1] <= (ts + [now])[|ts|];
    }
    hide After;
    TrimOfHistory(hits, granted, last, now, limit, window);
    var h := Trim(hits, now - window);
    assert |h| == limit && Sorted(h) && now - window < h[0];
    FullDequeFrees(h, now, limit, window, wait);
    hide Trim;
  }

  // -- several keys ---------------------------------------------------------------

  datatype Attempt = Attempt(key: string, now: real)

  function TimesOf(trace: seq<Attempt>, key: string): seq<real> {
    if trace == [] then []
    else
      var rest := TimesOf(trace[..|trace| - 1], key);
      var a := trace[|trace| - 1];
      if a.key == key then rest + [a.now] else rest
  }

  /** What each key is checked against: logins, runs and the rest have their own limits. */
  datatype Policy = Policy(limitOf: string -> int, windowOf: string -> real)

  /** The limiter's map after a trace of checks over many keys. */
  function Replay(trace: seq<Attempt>, p: Policy): map<string, seq<real>> {
    if trace == [] then map[]
    else
      var hits := Replay(trace[..|trace| - 1], p);
      var a := trace[|trace| - 1];
      hits[a.key := CheckHits(Of(hits, a.key), a.now, p.limitOf(a.key), p.windowOf(a.key)).0]
  }

  /** Keys never interfere: each deque is what its own attempts alone, against its own limit and
      window, would have made it. */
  lemma {:induction false} KeysAreIndependent(trace: seq<Attempt>, p: Policy, key: string)
    ensures Of(Replay(trace, p), key) == After(TimesOf(trace, key), p.limitOf(key), p.windowOf(key)).0
  {
    if trace != [] {
      var init, a := trace[..|trace| - 1], trace[|trace| - 1];
      KeysAreIndependent(init, p, key);
      if a.key == key {
        var rest := TimesOf(init, key);
        assert (rest + [a.now])[..|rest|] == rest;
      }
    }
  }

  // -- the Redis twin ----------------------------------------------------------------

  datatype Entry = Entry(score: real, member: string)

  /** One key of the server: entries in score order, and when the key expires. */
  datatype ZSet = ZSet(entries: seq<Entry>, expireAt: real)

  const NO_KEY := ZSet([], 0.0)

  function ZRemRangeByScore(es: seq<Entry>, lo: real, hi: real): seq<Entry> {
    if es == [] then []
    else (if lo <= es[0].score <= hi then [] else [es[0]]) + ZRemRangeByScore(es[1..], lo, hi)
  }

  /** Insertion in score order; the member is globally fresh. */
  function ZAdd(es: seq<Entry>, e: Entry): seq<Entry> {
    if es == [] || e.score < es[0].score then [e] + es else [es[0]] + ZAdd(es[1..], e)
  }

  /** Entries of the server's key that survive expiry and the range removal. */
  function Live(z: ZSet, now: real, window: real): seq<Entry> {
    ZRemRangeByScore(if z.expireAt <= now then [] else z.entries, 0.0, now - window)
  }

  /** `RedisRateLimiter.check`: key expiry, then the Lua script, then reading its reply.
      A refusal on an empty set makes the script reply with one element, the unpacking of the
      reply fails, and the limiter fails open. */
  function RedisCheck(z: ZSet, now: real, limit: int, window: real, member: string): (ZSet, Verdict) {
    var es := Live(z, now, window);
    if |es| >= limit then
      (z.(entries := es),
       if es == [] then Allowed else Refused(Max(0.0, window - (now - es[0].score))))
    else
      (ZSet(ZAdd(es, Entry(now, member)), now + (Truncate(window) + 1) as real), Allowed)
  }

  class RedisRateLimiter {
    var keys: map<string, ZSet>

    constructor ()
      ensures keys == map[]
    {
      keys := map[];
    }

    /** `outage` stands for any exception of the client: the limiter fails open. */
    method Check(key: string, now: real, limit: int, window: real, member: string, outage: bool)
      returns (verdict: Verdict)
      modifies this
      ensures outage ==> verdict == Allowed && keys == old(keys)
      ensures !outage ==>
                var (z, v) := RedisCheck(if key in old(keys) then old(keys)[key] else NO_KEY,
                                         now, limit, window, member);
                verdict == v && keys == old(keys)[key := z]
    {
      if outage { return Allowed; }
      var z := if key in keys then keys[key] else NO_KEY;
      var es := ZRemRangeByScore(if z.expireAt <= now then [] else z.entries, 0.0, now - window);
      if |es| >= limit {
        keys := keys[key := z.(entries := es)];
        if es == [] { return Allowed; }
        return Refused(Max(0.0, window - (now - es[0].score)));
      }
      keys := keys[key := ZSet(ZAdd(es, Entry(now, member)), now + (Truncate(window) + 1) as real)];
      return Allowed;
    }
  }

  function Scores(es: seq<Entry>): (s: seq<real>)
    ensures |s| == |es| && forall i :: 0 <= i < |es| ==> s[i] == es[i].score
  {
    seq(|es|, i requires 0 <= i < |es| => es[i].score)
  }

  /** Same hits on both sides, and the key outlives its youngest hit by the time to live. */
  ghost predicate Twin(hits: seq<real>, z: ZSet, last: real, window: real) {
    && Scores(z.entries) == hits && Sorted(hits)
    && (forall x :: x in hits ==> 0.0 <= x <= last)
    && (hits != [] ==> z.expireAt == hits[|hits| - 1] + (Truncate(window) + 1) as real)
  }

  /** An expired key holds nothing a cutoff would have spared. */
  lemma ExpiryDiscardsOnlyStaleHits(hits: seq<real>, z: ZSet, last: real, now: real, window: real)
    requires Twin(hits, z, last, window) && hits != [] && z.expireAt <= now
    ensures forall x :: x in hits ==> x <= now - window
  {
    assert (Truncate(window) + 1) as real > window;
    assert hits[|hits| - 1] <= now - window;
  }

  lemma {:induction false} RemRangeIsTrim(es: seq<Entry>, cutoff: real)
    requires Sorted(Scores(es)) && forall i :: 0 <= i < |es| ==> es[i].score >= 0.0
    ensures Scores(ZRemRangeByScore(es, 0.0, cutoff)) == Trim(Scores(es), cutoff)
  {
    if es != [] {
      assert Scores(es)[1..] == Scores(es[1..]);
      assert Sorted(Scores(es[1..])) by {
        assert forall i :: 0 <= i < |es| - 1 ==> Scores(es[1..])[i] == Scores(es)[i + 1];
      }
      RemRangeIsTrim(es[1..], cutoff);
      if es[0].score > cutoff {
        TrimIsSuffix(Scores(es[1..]), cutoff);
        hide ZRemRangeByScore;
        assert forall i :: 1 <= i < |es| ==> Scores(es)[i] == Scores(es[1..])[i - 1];
        NothingToTrim(Scores(es[1..]), cutoff);
      }
    }
  }

  lemma NothingToTrim(h: seq<real>, cutoff: real)
    requires forall x :: x in h ==> cutoff < x
    ensures Trim(h, cutoff) == h
  {
    if h != [] { assert h[0] in h; }
  }

  lemma {:induction false} ZAddAppends(es: seq<Entry>, e: Entry)
    requires forall i :: 0 <= i < |es| ==> es[i].score <= e.score
    ensures ZAdd(es, e) == es + [e]
  {
    if es != [] {
      ZAddAppends(es[1..], e);
      assert es + [e] == [es[0]] + (es[1..] + [e]);
    }
  }

  lemma {:induction false} AllTrimmed(h: seq<real>, cutoff: real)
    requires forall i :: 0 <= i < |h| ==> h[i] <= cutoff
    ensures Trim(h, cutoff) == []
  {
    if h != [] { AllTrimmed(h[1..], cutoff); }
  }

  /** After expiry and range removal the server holds what the deque keeps. */
  lemma TwinTrimmed(hits: seq<real>, z: ZSet, last: real, now: real, window: real)
    requires Twin(hits, z, last, window) && last <= now
    ensures Scores(Live(z, now, window)) == Trim(hits, now - window)
  {
    if z.expireAt <= now && hits != [] {
      ExpiryDiscardsOnlyStaleHits(hits, z, last, now, window);
      assert forall i :: 0 <= i < |hits| ==> hits[i] in hits;
      AllTrimmed(hits, now - window);
      assert Scores([]) == [];
    } else {
      assert forall i :: 0 <= i < |hits| ==> hits[i] in hits;
      RemRangeIsTrim(z.entries, now - window);
    }
  }

  lemma TwinGrows(es: seq<Entry>, t: seq<real>, last: real, now: real, window: real, member: string)
    requires Scores(es) == t && Sorted(t) && last <= now && 0.0 <= now
    requires forall x :: x in t ==> 0.0 <= x <= last
    ensures Twin(t + [now], ZSet(es + [Entry(now, member)], now + (Truncate(window) + 1) as real), now, window)
  {
    hide Numbers.Truncate, Scores;
    assert forall i :: 0 <= i < |t| ==> t[i] in t;
    assert Scores(es + [Entry(now, member)]) == t + [now];
  }

  lemma TrimKeeps(hits: seq<real>, cutoff: real)
    requires Sorted(hits)
    ensures var t := Trim(hits, cutoff);
            && Sorted(t) && (forall x :: x in t ==> x in hits)
            && (t != [] ==> hits != [] && t[|t| - 1] == hits[|hits| - 1])
  {
    TrimIsSuffix(hits, cutoff);
    var t := Trim(hits, cutoff);
    hide Trim;
    assert forall i :: 0 <= i < |t| ==> t[i] == hits[|hits| - |t| + i];
  }

  lemma TwinAdmits(hits: seq<real>, z: ZSet, last: real, now: real, limit: int, window: real, member: string)
    requires Twin(hits, z, last, window) && last <= now && 0.0 <= now
    requires |Trim(hits, now - window)| < limit
    ensures RedisCheck(z, now, limit, window, member).1 == Allowed
    ensures Twin(Trim(hits, now - window) + [now], RedisCheck(z, now, limit, window, member).0, now, window)
  {
    TwinTrimmed(hits, z, last, now, window);
    TrimKeeps(hits, now - window);
    var t, es := Trim(hits, now - window), Live(z, now, window);
    ScoresAtMost(es, t, now) by { assert forall x :: x in t ==> x in hits; }
    ZAddAppends(es, Entry(now, member));
    TwinGrows(es, t, last, now, window, member);
    hide Trim, Live, ZAdd, Numbers.Truncate, Scores, Max, Twin;
  }

  lemma ScoresAtMost(es: seq<Entry>, t: seq<real>, bound: real)
    requires Scores(es) == t && forall x :: x in t ==> x <= bound
    ensures forall i :: 0 <= i < |es| ==> es[i].score <= bound
  {
    assert forall i :: 0 <= i < |t| ==> t[i] in t && es[i].score == t[i];
  }

  lemma TwinRefuses(hits: seq<real>, z: ZSet, last: real, now: real, limit: int, window: real, member: string)
    requires Twin(hits, z, last, window) && last <= now && 0.0 <= now
    requires |Trim(hits, now - window)| >= limit >= 1
    ensures RedisCheck(z, now, limit, window, member).1 == CheckHits(hits, now, limit, window).1
    ensures Twin(Trim(hits, now - window), RedisCheck(z, now, limit, window, member).0, now, window)
  {
    TwinTrimmed(hits, z, last, now, window);
    TrimKeeps(hits, now - window);
    var t, es := Trim(hits, now - window), Live(z, now, window);
    hide Trim, Live, ZAdd, Numbers.Truncate, Scores, Max;
    assert Twin(t, z.(entries := es), now, window);
  }

  /** One check: same verdict, same retry_after, and the two stores stay twins. */
  lemma TwinStep(hits: seq<real>, z: ZSet, last: real, now: real, limit: int, window: real, member: string)
    requires limit >= 1 && Twin(hits, z, last, window) && last <= now && 0.0 <= now
    ensures var (h, v) := CheckHits(hits, now, limit, window);
            var (z', v') := RedisCheck(z, now, limit, window, member);
            v == v' && Twin(h, z', now, window)
  {
    hide Twin, RedisCheck, Trim;
    if |Trim(hits, now - window)| < limit {
      TwinAdmits(hits, z, last, now, limit, window, member);
    } else {
      TwinRefuses(hits, z, last, now, limit, window, member);
    }
  }

  /** The server's key and the verdicts of both limiters after checks at the given times. */
  function RedisAfter(ts: seq<real>, limit: int, window: real, members: nat -> string): (ZSet, seq<Verdict>) {
    if ts == [] then (NO_KEY, [])
    else
      var (z, vs) := RedisAfter(ts[..|ts| - 1], limit, window, members);
      var (z', v) := RedisCheck(z, ts[|ts| - 1], limit, window, members(|ts| - 1));
      (z', vs + [v])
  }

  function DequeVerdicts(ts: seq<real>, limit: int, window: real): seq<Verdict> {
    if ts == [] then []
    else
      var init := ts[..|ts| - 1];
      DequeVerdicts(init, limit, window)
        + [CheckHits(After(init, limit, window).0, ts[|ts| - 1], limit, window).1]
  }

  lemma {:induction false} TwinAlways(ts: seq<real>, limit: int, window: real, members: nat -> string)
    requires limit >= 1 && Sorted(ts) && forall t :: t in ts ==> 0.0 <= t
    ensures RedisAfter(ts, limit, window, members).1 == DequeVerdicts(ts, limit, window)
    ensures ts != [] ==> Twin(After(ts, limit, window).0, RedisAfter(ts, limit, window, members).0,
                              ts[|ts| - 1], window)
  {
    if ts != [] {
      var init, now := ts[..|ts| - 1], ts[|ts| - 1];
      assert now in ts && forall t :: t in init ==> t in ts;
      TwinAlways(init, limit, window, members);
      var last := if init == [] then now else init[|init| - 1];
      TwinStep(After(init, limit, window).0, RedisAfter(init, limit, window, members).0, last, now,
               limit, window, members(|init|));
    }
  }

  lemma {:induction false} NothingEverRecorded(ts: seq<real>, limit: int, window: real, members: nat -> string)
    requires limit < 1
    ensures After(ts, limit, window).0 == [] && RedisAfter(ts, limit, window, members).0.entries == []
  {
    if ts != [] { NothingEverRecorded(ts[..|ts| - 1], limit, window, members); }
  }

  /** Backend equivalence, exactly: on every non-empty history of checks at non-decreasing
      times the two backends return the same verdicts if and only if the limit is at least one
      (below one the deque raises where Redis fails open). */
  lemma BackendsAgreeIff(ts: seq<real>, limit: int, window: real, members: nat -> string)
    requires ts != [] && Sorted(ts) && forall t :: t in ts ==> 0.0 <= t
    ensures RedisAfter(ts, limit, window, members).1 == DequeVerdicts(ts, limit, window) <==> limit >= 1
  {
    if limit >= 1 {
      TwinAlways(ts, limit, window, members);
    } else {
      var init := ts[..|ts| - 1];
      NothingEverRecorded(init, limit, window, members);
      var r, d := RedisAfter(ts, limit, window, members).1, DequeVerdicts(ts, limit, window);
      assert r[|r| - 1] == Allowed && d[|d| - 1] == Crashed;
    }
  }
}
