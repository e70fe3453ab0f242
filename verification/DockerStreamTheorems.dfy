/** What the container byte stream delivers: chunk-independent refinement of a batch
    specification, and hard bounds on every buffer for arbitrary bytes. */
module DockerStreamTheorems {
  import opened Lines
  import opened DockerStream

  // -- the batch specification ------------------------------------------------

  /** Complete frames of a byte string: stdout text, stderr payloads, incomplete rest. */
  datatype Parsed = Parsed(out: Bytes, err: seq<Bytes>, rest: Bytes)

  predicate Complete(bytes: Bytes) {
    |bytes| >= HEADER && |bytes| >= HEADER + FrameSize(bytes)
  }

  /** The frame at the head of `bytes` delivered before `p`. */
  function Deliver(c: Config, bytes: Bytes, p: Parsed): Parsed
    requires Complete(bytes)
  {
    var payload := bytes[HEADER..HEADER + FrameSize(bytes)];
    if bytes[0] == STDERR && c.hasSink
    then p.(err := [payload] + p.err)
    else p.(out := payload + p.out)
  }

  function Parse(c: Config, bytes: Bytes): Parsed
    decreases |bytes|
  {
    if Complete(bytes)
    then Deliver(c, bytes, Parse(c, bytes[HEADER + FrameSize(bytes)..]))
    else Parsed([], [], bytes)
  }

  /** No frame declares a payload above the cap. */
  predicate FramesFit(c: Config, bytes: Bytes)
    decreases |bytes|
  {
    |bytes| >= HEADER ==>
      var size := FrameSize(bytes);
      !c.TooLong(size) && (|bytes| >= HEADER + size ==> FramesFit(c, bytes[HEADER + size..]))
  }

  /** The lines within the cap, in order. */
  function Kept(c: Config, lines: seq<Bytes>): (kept: seq<Bytes>)
    ensures |kept| <= |lines|
  {
    if lines == [] then []
    else (if c.TooLong(Width(lines[0], NEWLINE)) then [] else [lines[0]]) + Kept(c, lines[1..])
  }

  // -- the demultiplexer is incremental ---------------------------------------

  lemma SizeAppend(a: Bytes, b: Bytes)
    requires |a| >= HEADER
    ensures FrameSize(a + b) == FrameSize(a)
    ensures (a + b)[0] == a[0]
  {
  }

  function Join(p: Parsed, q: Parsed): Parsed {
    Parsed(p.out + q.out, p.err + q.err, q.rest)
  }

  lemma DeliverJoin(c: Config, a: Bytes, b: Bytes, p: Parsed, q: Parsed)
    requires Complete(a)
    ensures Complete(a + b) && Deliver(c, a + b, Join(p, q)) == Join(Deliver(c, a, p), q)
  {
    SizeAppend(a, b);
    var size := FrameSize(a);
    hide FrameSize;
    var payload := a[HEADER..HEADER + size];
    assert (a + b)[HEADER..HEADER + size] == payload;
    assert payload + (p.out + q.out) == (payload + p.out) + q.out;
    assert [payload] + (p.err + q.err) == ([payload] + p.err) + q.err;
  }

  lemma {:induction false} ParseAppend(c: Config, a: Bytes, b: Bytes)
    ensures Parse(c, a + b) == Join(Parse(c, a), Parse(c, Parse(c, a).rest + b))
    decreases |a|
  {
    hide FrameSize, Deliver;
    if Complete(a) {
      var tail := a[HEADER + FrameSize(a)..];
      SizeAppend(a, b);
      assert (a + b)[HEADER + FrameSize(a)..] == tail + b;
      ParseAppend(c, tail, b);
      DeliverJoin(c, a, b, Parse(c, tail), Parse(c, Parse(c, tail).rest + b));
      assert Parse(c, a).rest == Parse(c, tail).rest by { DeliverKeepsRest(c, a, Parse(c, tail)); }
    } else {
      var q := Parse(c, a + b);
      assert [] + q.out == q.out && [] + q.err == q.err;
    }
  }

  lemma DeliverKeepsRest(c: Config, bytes: Bytes, p: Parsed)
    requires Complete(bytes)
    ensures Deliver(c, bytes, p).rest == p.rest
  {
  }

  lemma {:induction false} FramesFitAppend(c: Config, a: Bytes, b: Bytes)
    requires FramesFit(c, a + b)
    ensures FramesFit(c, a) && FramesFit(c, Parse(c, a).rest + b)
    decreases |a|
  {
    hide FrameSize;
    if |a| >= HEADER {
      SizeAppend(a, b);
      var size := FrameSize(a);
      if |a| >= HEADER + size {
        assert (a + b)[HEADER + size..] == a[HEADER + size..] + b;
        FramesFitAppend(c, a[HEADER + size..], b);
      }
    }
  }

  lemma {:induction false} RestIsIdle(c: Config, bytes: Bytes)
    ensures var r := Parse(c, bytes).rest; Parse(c, r) == Parsed([], [], r)
    decreases |bytes|
  {
    if |bytes| >= HEADER && |bytes| >= HEADER + FrameSize(bytes) {
      RestIsIdle(c, bytes[HEADER + FrameSize(bytes)..]);
    }
  }

  /** Taking one frame within the cap is one step of the batch parse. */
  lemma FrameParses(c: Config, d: Demux)
    requires d.skip == 0 && FramesFit(c, d.buf)
    ensures var p := Parse(c, d.buf);
            match FrameStep(c, d)
            case None => p == Parsed([], [], d.buf)
            case Some(next) =>
              var q := Parse(c, next.buf);
              && next.skip == 0 && FramesFit(c, next.buf)
              && next.discarding == d.discarding && next.oversize == d.oversize
              && d.out + p.out == next.out + q.out
              && d.err + p.err == next.err + q.err
              && p.rest == q.rest
  {
    hide FrameSize;
    var size := if |d.buf| < HEADER then 0 else FrameSize(d.buf);
    if |d.buf| >= HEADER && |d.buf| >= HEADER + size {
      var payload := d.buf[HEADER..HEADER + size];
      var q := Parse(c, d.buf[HEADER + size..]);
      hide Parse;
      assert d.out + (payload + q.out) == (d.out + payload) + q.out;
      assert d.err + ([payload] + q.err) == (d.err + [payload]) + q.err;
    }
  }

  lemma {:induction false} DrainParses(c: Config, d: Demux)
    requires d.skip == 0 && FramesFit(c, d.buf)
    ensures var p := Parse(c, d.buf);
            Drain(c, d) == d.(buf := p.rest, out := d.out + p.out, err := d.err + p.err)
    decreases |d.buf|
  {
    hide Parse, FramesFit, FrameStep;
    FrameParses(c, d);
    match FrameStep(c, d)
    case None =>
      assert d.out + [] == d.out && d.err + [] == d.err;
    case Some(next) => DrainParses(c, next);
  }

  // -- what is still to come from a state --------------------------------------

  function Unread(s: Stream): Bytes {
    s.buf + Flatten(s.sock)
  }

  /** A state of a well-behaved stream: frames within the cap, only whole frames consumed. */
  ghost predicate Good(c: Config, s: Stream) {
    && s.skip == 0
    && FramesFit(c, Unread(s))
    && Parse(c, s.buf) == Parsed([], [], s.buf)
    && [] !in s.sock
  }

  /** Physical lines the reader has not passed yet; the one being discarded is behind it. */
  function Ahead(c: Config, s: Stream): seq<Bytes> {
    var lines := Physical(s.pending + Parse(c, Unread(s)).out, NEWLINE);
    if s.discarding then Tail(lines) else lines
  }

  /** All a reader can still observe: lines, final oversize count, final stderr log. */
  datatype Outlook = Outlook(lines: seq<Bytes>, oversize: nat, err: seq<Bytes>)

  function Prospect(c: Config, s: Stream): Outlook {
    var ls := Ahead(c, s);
    Outlook(Kept(c, ls), s.oversize + |ls| - |Kept(c, ls)|, s.err + Parse(c, Unread(s)).err)
  }

  predicate Exhausted(s: Stream) {
    s.pending == [] && s.sock == []
  }

  lemma DropOverlongKeepsProspect(c: Config, s: Stream)
    requires NEWLINE !in s.pending
    ensures Prospect(c, DropOverlong(c, s)) == Prospect(c, s)
    ensures c.TooLong(|DropOverlong(c, s).pending|) == false
  {
    hide Parse, Flatten, Find, Physical;
    if c.TooLong(|s.pending|) {
      var text := Parse(c, Unread(s)).out;
      HeldBack(s.pending, text, NEWLINE);
      assert [] + text == text;
      assert Unread(DropOverlong(c, s)) == Unread(s);
    }
  }

  lemma FeedKeepsProspect(c: Config, s: Stream, chunk: Bytes)
    requires Good(c, s.(sock := [chunk] + s.sock))
    ensures Good(c, Feed(c, s, chunk))
    ensures Prospect(c, Feed(c, s, chunk)) == Prospect(c, s.(sock := [chunk] + s.sock))
  {
    hide Parse, FramesFit, Drain, Find, Physical, Kept;
    var before := s.(sock := [chunk] + s.sock);
    assert before.sock[1..] == s.sock;
    var a, b := s.buf + chunk, Flatten(s.sock);
    assert Unread(before) == a + b;
    ParseAppend(c, a, b);
    FramesFitAppend(c, a, b);
    RestIsIdle(c, a);
    DrainParses(c, Demux(a, 0, s.discarding, s.oversize, [], s.err));
    var p := Parse(c, a);
    var q := Parse(c, p.rest + b);
    assert (s.pending + ([] + p.out)) + q.out == s.pending + (p.out + q.out);
    assert (s.err + p.err) + q.err == s.err + (p.err + q.err);
  }

  lemma TakeLineMeetsProspect(c: Config, s: Stream, i: nat)
    requires Good(c, s) && i < |s.pending| && Find(s.pending, NEWLINE) == i
    ensures var t := TakeLine(c, s, i);
            && Good(c, t.s)
            && (t.Again? ==> Prospect(c, t.s) == Prospect(c, s))
            && (t.Return? ==> var p := Prospect(c, s);
                              p.lines != [] && t.line == p.lines[0]
                              && Prospect(c, t.s) == p.(lines := p.lines[1..]))
  {
    hide Parse, FramesFit, Flatten, Find, Physical;
    FindIsFirst(s.pending, NEWLINE);
    var line, rest := s.pending[..i], s.pending[i + 1..];
    var text := Parse(c, Unread(s)).out;
    assert s.pending + text == line + [NEWLINE] + (rest + text);
    FirstLine(line, rest + text, NEWLINE);
    assert s.pending[..i + 1] == line + [NEWLINE];
  }

  lemma RefillMeetsProspect(c: Config, s: Stream)
    requires Good(c, s) && NEWLINE !in s.pending
    ensures var t := Refill(c, s);
            && Good(c, t.s)
            && (t.Again? ==> Prospect(c, t.s) == Prospect(c, s))
            && (t.Return? ==> var p := Prospect(c, s);
                              && t.line == (if p.lines == [] then [] else p.lines[0])
                              && Prospect(c, t.s) == p.(lines := Tail(p.lines))
                              && Exhausted(t.s))
  {
    hide Parse, FramesFit, Find, Drain, Physical;
    DropOverlongKeepsProspect(c, s);
    var s1 := DropOverlong(c, s);
    if s.sock == [] {
      Uncut(s1.pending, NEWLINE);
      assert s1.buf + Flatten<Byte>([]) == s1.buf;
      assert s1.pending + [] == s1.pending;
      ExhaustedOutlook(c, Refill(c, s).s);
    } else {
      assert s1.sock == [s.sock[0]] + s.sock[1..];
      FeedKeepsProspect(c, s1.(sock := s.sock[1..]), s.sock[0]);
    }
  }

  /** At the end of the input nothing is left to observe. */
  lemma ExhaustedOutlook(c: Config, s: Stream)
    requires Good(c, s) && Exhausted(s)
    ensures Prospect(c, s) == Outlook([], s.oversize, s.err)
  {
    assert Unread(s) == s.buf;
    assert s.err + [] == s.err;
  }

  /** One `readline` returns the next line of the batch specification, "" when there is none. */
  lemma {:induction false} NextLineMeetsProspect(c: Config, s: Stream)
    requires Good(c, s)
    ensures var (line, s') := NextLine(c, s); var p := Prospect(c, s);
            && Good(c, s')
            && line == (if p.lines == [] then [] else p.lines[0])
            && Prospect(c, s') == p.(lines := Tail(p.lines))
            && (p.lines == [] ==> Exhausted(s'))
    decreases |s.sock|, |s.pending|
  {
    var i := Find(s.pending, NEWLINE);
    if i >= 0 { TakeLineMeetsProspect(c, s, i); } else { RefillMeetsProspect(c, s); }
    match ReadTurn(c, s)
    case Return(_, _) =>
    case Again(s') => NextLineMeetsProspect(c, s');
  }

  lemma {:induction false} ReadManyMeetsProspect(c: Config, s: Stream, n: nat)
    requires Good(c, s)
    ensures var (lines, s') := ReadMany(c, s, n); var p := Prospect(c, s);
            && |lines| == n
            && (forall k :: 0 <= k < n ==> lines[k] == if k < |p.lines| then p.lines[k] else [])
            && Good(c, s')
            && Prospect(c, s').oversize == p.oversize && Prospect(c, s').err == p.err
            && (n > |p.lines| ==> Exhausted(s'))
    decreases n
  {
    hide NextLine, Prospect, Good;
    if n > 0 {
      NextLineMeetsProspect(c, s);
      ReadManyMeetsProspect(c, NextLine(c, s).1, n - 1);
    }
  }

  /** Chunk-independent refinement.  However `recv` cuts a byte string whose frames fit the cap,
      successive `readline` calls return exactly the stdout lines within the cap, in order
      (the unterminated tail last), then "" forever; the longer lines are counted, and
      stderr payloads reach the sink. */
  lemma ReadLinesRefineBatch(c: Config, chunks: seq<Bytes>, n: nat)
    requires FramesFit(c, Flatten(chunks)) && [] !in chunks
    ensures var (lines, s) := ReadMany(c, FRESH.(sock := chunks), n);
            var p := Parse(c, Flatten(chunks));
            var all := Physical(p.out, NEWLINE);
            var kept := Kept(c, all);
            && |lines| == n
            && (forall k :: 0 <= k < n ==> lines[k] == if k < |kept| then kept[k] else [])
            && (n > |kept| ==> s.oversize == |all| - |kept| && s.err == p.err)
  {
    var s0 := FRESH.(sock := chunks);
    FreshProspect(c, chunks);
    hide ReadMany, Parse, FramesFit, Physical, Kept, Find, Flatten, Prospect, Good;
    ReadManyMeetsProspect(c, s0, n);
    var (lines, s) := ReadMany(c, s0, n);
    if n > |Prospect(c, s0).lines| { ExhaustedOutlook(c, s); }
  }

  /** Before the first read everything is still to come. */
  lemma FreshProspect(c: Config, chunks: seq<Bytes>)
    requires FramesFit(c, Flatten(chunks)) && [] !in chunks
    ensures Good(c, FRESH.(sock := chunks))
    ensures var p := Parse(c, Flatten(chunks)); var all := Physical(p.out, NEWLINE);
            Prospect(c, FRESH.(sock := chunks)) == Outlook(Kept(c, all), |all| - |Kept(c, all)|, p.err)
  {
    assert Parse(c, []) == Parsed([], [], []);
    hide Parse, FramesFit, Physical, Kept, Find, Flatten;
    NothingBefore(Flatten(chunks));
    NothingBefore(Parse(c, Flatten(chunks)).out);
    NothingBefore(Parse(c, Flatten(chunks)).err);
  }

  lemma NothingBefore<T>(s: seq<T>)
    ensures [] + s == s
  {
  }

  /** The cuts made by `recv` cannot be observed. */
  lemma RecvBoundariesInvisible(c: Config, xs: seq<Bytes>, ys: seq<Bytes>, n: nat)
    requires FramesFit(c, Flatten(xs)) && Flatten(xs) == Flatten(ys) && [] !in xs && [] !in ys
    ensures ReadMany(c, FRESH.(sock := xs), n).0 == ReadMany(c, FRESH.(sock := ys), n).0
  {
    ReadLinesRefineBatch(c, xs, n);
    ReadLinesRefineBatch(c, ys, n);
  }

  // -- buffer bounds on arbitrary bytes ----------------------------------------

  /** The three ceilings, and an incomplete frame is the only thing `_buf` can hold. */
  predicate Bounded(c: Config, s: Stream) {
    && |s.buf| <= c.maxLine + HEADER - 1
    && |s.pending| <= 2 * c.maxLine + 2 * HEADER - 9 + RECV_SIZE
    && forall k :: 0 <= k < |s.sock| ==> |s.sock[k]| <= RECV_SIZE
  }

  lemma {:induction false} DrainBounded(c: Config, d: Demux)
    requires c.maxLine > 0
    ensures var r := Drain(c, d);
            && |r.buf| <= c.maxLine + HEADER - 1
            && |r.out| + |r.buf| <= |d.out| + |d.buf|
    decreases |d.buf|
  {
    if d.skip > 0 {
      var next := SkipStep(d);
      if next.skip == 0 { DrainBounded(c, next); }
    } else {
      match FrameStep(c, d)
      case None =>
      case Some(next) => DrainBounded(c, next);
    }
  }

  /** Every turn of the loop, on any bytes at all, keeps the ceilings. */
  lemma TurnBounded(c: Config, s: Stream)
    requires c.maxLine > 0 && Bounded(c, s)
    ensures var t := ReadTurn(c, s);
            Bounded(c, t.s) && (t.Return? ==> |t.line| <= c.maxLine + 1)
  {
    hide Drain, Find;
    var s1 := DropOverlong(c, s);
    if s.sock != [] {
      DrainBounded(c, Demux(s1.buf + s.sock[0], s1.skip, s1.discarding, s1.oversize, [], s1.err));
    }
  }

  lemma {:induction false} NextLineBounded(c: Config, s: Stream)
    requires c.maxLine > 0 && Bounded(c, s)
    ensures var (line, s') := NextLine(c, s); Bounded(c, s') && |line| <= c.maxLine + 1
    decreases |s.sock|, |s.pending|
  {
    TurnBounded(c, s);
    match ReadTurn(c, s)
    case Return(_, _) =>
    case Again(s') => NextLineBounded(c, s');
  }

  /** Over any number of reads of any bytes, oversize frames included, the buffers stay
      within `max_line + 7` and `2 * max_line + 4103` and no line exceeds the cap. */
  lemma {:induction false} BuffersStayBounded(c: Config, s: Stream, n: nat)
    requires c.maxLine > 0 && Bounded(c, s)
    ensures var (lines, s') := ReadMany(c, s, n);
            && |s'.buf| <= c.maxLine + 7
            && |s'.pending| <= 2 * c.maxLine + 4103
            && Bounded(c, s')
            && |lines| == n
            && (forall k :: 0 <= k < n ==> |lines[k]| <= c.maxLine + 1)
    decreases n
  {
    hide NextLine;
    if n > 0 {
      NextLineBounded(c, s);
      BuffersStayBounded(c, NextLine(c, s).1, n - 1);
    }
  }
}
