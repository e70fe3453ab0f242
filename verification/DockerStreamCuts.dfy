/** Under which caps the cuts made by `recv` can be observed at all
    (`_DockerStream`, app/controllers/runner.py). */
module DockerStreamCuts {
  import opened Lines
  import opened DockerStream
  import opened DockerStreamTheorems

  /** What successive `recv` calls can return: nothing empty, nothing above the read size. */
  predicate RecvCut(chunks: seq<Bytes>) {
    forall k :: 0 <= k < |chunks| ==> 0 < |chunks[k]| <= RECV_SIZE
  }

  ghost predicate ReadAlike(c: Config, xs: seq<Bytes>, ys: seq<Bytes>) {
    forall n: nat :: ReadMany(c, FRESH.(sock := xs), n).0 == ReadMany(c, FRESH.(sock := ys), n).0
  }

  /** Whatever the bytes, every way of cutting them gives the same lines. */
  ghost predicate CutsInvisible(c: Config) {
    forall xs, ys :: RecvCut(xs) && RecvCut(ys) && Flatten(xs) == Flatten(ys) ==> ReadAlike(c, xs, ys)
  }

  /** The greatest size a frame header can declare. */
  const MAX_FRAME := 0xFFFF_FFFF

  /** No header can declare a frame above the cap. */
  predicate NothingOversize(c: Config) {
    c.maxLine <= 0 || c.maxLine >= MAX_FRAME
  }

  lemma {:induction false} AllFramesFit(c: Config, bytes: Bytes)
    requires NothingOversize(c)
    ensures FramesFit(c, bytes)
    decreases |bytes|
  {
    if |bytes| >= HEADER {
      var size := FrameSize(bytes);
      assert size <= MAX_FRAME;
      if |bytes| >= HEADER + size { AllFramesFit(c, bytes[HEADER + size..]); }
    }
  }

  // -- an oversize frame at any cap below the greatest size --------------------------------------

  /** The header of a stdout frame of n bytes, most significant byte first. */
  function HeaderOf(n: nat): Bytes
    requires n <= MAX_FRAME
  {
    var high := n / 0x100;
    var higher := high / 0x100;
    [1, 0, 0, 0, higher / 0x100, higher % 0x100, high % 0x100, n % 0x100]
  }

  lemma LowByte(n: nat, q: nat)
    requires q == n / 0x100
    ensures n == q * 0x100 + n % 0x100
  {
  }

  lemma HeaderDeclares(n: nat)
    requires n <= MAX_FRAME
    ensures FrameSize(HeaderOf(n)) == n && |HeaderOf(n)| == HEADER
  {
    var high := n / 0x100;
    var higher := high / 0x100;
    LowByte(n, high);
    LowByte(high, higher);
    LowByte(higher, higher / 0x100);
  }

  const LETTER: Byte := 97

  /** Filling, one byte at a time. */
  function Filling(k: nat, end: seq<Bytes>): seq<Bytes> {
    if k == 0 then end else [[LETTER]] + Filling(k - 1, end)
  }

  /** Reading on inside the payload of an oversize frame, k bytes before its end. */
  function Inside(k: nat, discarding: bool, rest: seq<Bytes>): Stream {
    Stream([], k, discarding, 1, [], [], false, rest)
  }

  /** A read that finds nothing pending takes in the next chunk. */
  lemma TakesIn(c: Config, s: Stream, chunk: Bytes, rest: seq<Bytes>, d: Demux)
    requires c.maxLine > 0 && s.pending == [] && s.sock == [chunk] + rest && chunk != []
    requires Drain(c, Demux(s.buf + chunk, s.skip, s.discarding, s.oversize, [], s.err)) == d
    ensures NextLine(c, s)
         == NextLine(c, Stream(d.buf, d.skip, d.discarding, d.oversize, d.out, d.err, s.closed, rest))
  {
    hide Drain;
    assert s.sock[1..] == rest;
    assert [] + d.out == d.out;
  }

  lemma DrainHeader(c: Config)
    requires 0 < c.maxLine < MAX_FRAME
    ensures Drain(c, Demux(HeaderOf(c.maxLine + 1), 0, false, 0, [], [])) == Demux([], c.maxLine + 1, true, 1, [], [])
  {
    var h := HeaderOf(c.maxLine + 1);
    HeaderDeclares(c.maxLine + 1);
    hide FrameSize, HeaderOf;
    assert h[HEADER..] == [];
    var d := Demux([], c.maxLine + 1, true, 1, [], []);
    assert FrameStep(c, Demux(h, 0, false, 0, [], [])).value == d;
    assert SkipStep(d) == d;
  }

  lemma DrainLetter(c: Config, k: nat)
    requires k >= 2
    ensures Drain(c, Demux([LETTER], k, true, 1, [], [])) == Demux([], k - 1, true, 1, [], [])
  {
    var d := Demux([LETTER], k, true, 1, [], []);
    assert d.buf[..1] == d.buf && d.buf[1..] == [];
  }

  lemma DrainNewline(c: Config, k: nat, discarding: bool)
    requires k > 0
    ensures Drain(c, Demux([NEWLINE], k, discarding, 1, [], [])) == Demux([], k - 1, false, 1, [], [])
  {
    var d := Demux([NEWLINE], k, discarding, 1, [], []);
    assert d.buf[..1] == d.buf && d.buf[1..] == [] && d.buf[0 + 1..] == [];
    assert Find(d.buf, NEWLINE) == 0;
  }

  const TOGETHER: Bytes := [NEWLINE, NEWLINE]

  lemma DrainTogether(c: Config)
    ensures Drain(c, Demux(TOGETHER, 2, true, 1, [], [])) == Demux([], 0, false, 1, [NEWLINE], [])
  {
    var d := Demux(TOGETHER, 2, true, 1, [], []);
    assert d.buf[..2] == d.buf && d.buf[2..] == [] && d.buf[0 + 1..] == [NEWLINE];
    assert Find(TOGETHER, NEWLINE) == 0;
    assert [] + [NEWLINE] == [NEWLINE];
    assert SkipStep(d) == Demux([], 0, false, 1, [NEWLINE], []);
  }

  lemma HeaderEnters(c: Config, rest: seq<Bytes>)
    requires 0 < c.maxLine < MAX_FRAME
    ensures NextLine(c, FRESH.(sock := [HeaderOf(c.maxLine + 1)] + rest))
         == NextLine(c, Inside(c.maxLine + 1, true, rest))
  {
    var h := HeaderOf(c.maxLine + 1);
    HeaderDeclares(c.maxLine + 1);
    DrainHeader(c);
    hide NextLine, Drain, HeaderOf;
    assert [] + h == h;
    TakesIn(c, FRESH.(sock := [h] + rest), h, rest, Demux([], c.maxLine + 1, true, 1, [], []));
  }

  lemma {:induction false} FillingPasses(c: Config, k: nat, end: seq<Bytes>)
    requires c.maxLine > 0
    ensures NextLine(c, Inside(k + 2, true, Filling(k, end))) == NextLine(c, Inside(2, true, end))
  {
    hide NextLine, Drain;
    if k > 0 {
      DrainLetter(c, k + 2);
      assert [] + [LETTER] == [LETTER];
      TakesIn(c, Inside(k + 2, true, Filling(k, end)), [LETTER], Filling(k - 1, end),
              Demux([], k + 1, true, 1, [], []));
      FillingPasses(c, k - 1, end);
    }
  }

  lemma EndTogether(c: Config)
    requires c.maxLine > 0
    ensures NextLine(c, Inside(2, true, [TOGETHER])).0 == [NEWLINE]
  {
    DrainTogether(c);
    assert Find([NEWLINE], NEWLINE) == 0;
    hide Drain, Find;
    assert [] + TOGETHER == TOGETHER && [TOGETHER] == [TOGETHER] + [];
    TakesIn(c, Inside(2, true, [TOGETHER]), TOGETHER, [], Demux([], 0, false, 1, [NEWLINE], []));
    var fed := Stream([], 0, false, 1, [NEWLINE], [], false, []);
    assert ReadTurn(c, fed) == Return([NEWLINE][..1], fed.(pending := []));
  }

  lemma EndApart(c: Config)
    requires c.maxLine > 0
    ensures NextLine(c, Inside(2, true, [[NEWLINE], [NEWLINE]])).0 == []
  {
    DrainNewline(c, 2, true);
    DrainNewline(c, 1, false);
    hide Drain, NextLine;
    assert [] + [NEWLINE] == [NEWLINE];
    assert [[NEWLINE], [NEWLINE]] == [[NEWLINE]] + [[NEWLINE]] && [[NEWLINE]] == [[NEWLINE]] + [];
    TakesIn(c, Inside(2, true, [[NEWLINE], [NEWLINE]]), [NEWLINE], [[NEWLINE]], Demux([], 1, false, 1, [], []));
    TakesIn(c, Inside(1, false, [[NEWLINE]]), [NEWLINE], [], Demux([], 0, false, 1, [], []));
    NothingLeft(c);
  }

  lemma NothingLeft(c: Config)
    ensures NextLine(c, Inside(0, false, [])).0 == []
  {
    var s := Inside(0, false, []);
    assert ReadTurn(c, s) == Return([], s.(closed := true));
  }

  lemma {:induction false} SameBytes(k: nat, a: seq<Bytes>, b: seq<Bytes>)
    requires Flatten(a) == Flatten(b) && RecvCut(a) && RecvCut(b)
    ensures Flatten(Filling(k, a)) == Flatten(Filling(k, b)) && RecvCut(Filling(k, a)) && RecvCut(Filling(k, b))
  {
    if k > 0 {
      SameBytes(k - 1, a, b);
      assert Filling(k, a)[1..] == Filling(k - 1, a) && Filling(k, b)[1..] == Filling(k - 1, b);
    }
  }

  function Frame(c: Config, end: seq<Bytes>): seq<Bytes>
    requires 0 < c.maxLine < MAX_FRAME
  {
    [HeaderOf(c.maxLine + 1)] + Filling(c.maxLine - 1, end)
  }

  /** The same oversize frame twice, its last two bytes received together or apart. */
  lemma SameFrame(c: Config)
    requires 0 < c.maxLine < MAX_FRAME
    ensures var xs, ys := Frame(c, [TOGETHER]), Frame(c, [[NEWLINE], [NEWLINE]]);
            RecvCut(xs) && RecvCut(ys) && Flatten(xs) == Flatten(ys)
  {
    var k, h := c.maxLine - 1, HeaderOf(c.maxLine + 1);
    HeaderDeclares(c.maxLine + 1);
    assert Flatten([TOGETHER]) == Flatten([[NEWLINE], [NEWLINE]]) by {
      assert [[NEWLINE], [NEWLINE]][1..] == [[NEWLINE]] && [[NEWLINE]][1..] == [] && [TOGETHER][1..] == [];
      assert Flatten([[NEWLINE]]) == [NEWLINE] + [];
      assert TOGETHER + [] == [NEWLINE] + ([NEWLINE] + []);
    }
    SameBytes(k, [TOGETHER], [[NEWLINE], [NEWLINE]]);
    hide HeaderOf, FrameSize, Filling;
    assert ([h] + Filling(k, [TOGETHER]))[1..] == Filling(k, [TOGETHER]);
    assert ([h] + Filling(k, [[NEWLINE], [NEWLINE]]))[1..] == Filling(k, [[NEWLINE], [NEWLINE]]);
  }

  lemma FrameReads(c: Config, end: seq<Bytes>)
    requires 0 < c.maxLine < MAX_FRAME
    ensures NextLine(c, FRESH.(sock := Frame(c, end))) == NextLine(c, Inside(2, true, end))
  {
    hide NextLine, Filling, HeaderOf;
    HeaderEnters(c, Filling(c.maxLine - 1, end));
    FillingPasses(c, c.maxLine - 1, end);
  }

  ghost predicate CutsShow(c: Config, xs: seq<Bytes>, ys: seq<Bytes>) {
    && RecvCut(xs) && RecvCut(ys) && Flatten(xs) == Flatten(ys)
    && NextLine(c, FRESH.(sock := xs)).0 == [NEWLINE] && NextLine(c, FRESH.(sock := ys)).0 == []
  }

  /** At every cap that some frame can exceed, two cuts of the same bytes read differently: the
      line behind the oversize one survives only when it arrives together with that one's
      newline. */
  lemma OversizeFrameIsChunkDependent(c: Config)
    requires 0 < c.maxLine < MAX_FRAME
    ensures exists xs, ys :: CutsShow(c, xs, ys)
  {
    hide NextLine, Frame, RecvCut, Flatten;
    SameFrame(c);
    FrameReads(c, [TOGETHER]);
    FrameReads(c, [[NEWLINE], [NEWLINE]]);
    EndTogether(c);
    EndApart(c);
    assert CutsShow(c, Frame(c, [TOGETHER]), Frame(c, [[NEWLINE], [NEWLINE]]));
  }

  lemma CutsThatShowDiffer(c: Config, xs: seq<Bytes>, ys: seq<Bytes>)
    requires CutsShow(c, xs, ys)
    ensures !CutsInvisible(c)
  {
    hide NextLine, ReadMany, RecvCut, Flatten;
    OneRead(c, xs);
    OneRead(c, ys);
    assert ReadMany(c, FRESH.(sock := xs), 1).0 != ReadMany(c, FRESH.(sock := ys), 1).0 by {
      assert ReadMany(c, FRESH.(sock := xs), 1).0[0] == [NEWLINE];
    }
  }

  /** Exactly which caps hide the cuts from the reader: those no frame can exceed. */
  lemma CutsInvisibleIff(c: Config)
    ensures CutsInvisible(c) <==> NothingOversize(c)
  {
    if NothingOversize(c) {
      hide ReadMany, FramesFit, Flatten;
      forall xs, ys | RecvCut(xs) && RecvCut(ys) && Flatten(xs) == Flatten(ys) ensures ReadAlike(c, xs, ys) {
        AllFramesFit(c, Flatten(xs));
        forall n: nat ensures ReadMany(c, FRESH.(sock := xs), n).0 == ReadMany(c, FRESH.(sock := ys), n).0 {
          RecvBoundariesInvisible(c, xs, ys, n);
        }
      }
    } else {
      hide CutsShow, CutsInvisible;
      OversizeFrameIsChunkDependent(c);
      var xs, ys :| CutsShow(c, xs, ys);
      CutsThatShowDiffer(c, xs, ys);
    }
  }

  lemma OneRead(c: Config, xs: seq<Bytes>)
    ensures ReadMany(c, FRESH.(sock := xs), 1).0 == [NextLine(c, FRESH.(sock := xs)).0]
  {
    hide NextLine;
  }
}
