/** The byte-stream layer of the container transport (`_DockerStream`, app/controllers/runner.py):
    an incremental demultiplexer of length-prefixed frames below a capped line splitter. */
module DockerStream {
  import opened Lines
  import opened Wrappers

  type Byte = b: int | 0 <= b < 256
  type Bytes = seq<Byte>

  const NEWLINE: Byte := 10
  const HEADER := 8
  const RECV_SIZE := 4096
  const STDERR: Byte := 2

  /** `maxLine <= 0` disables the cap; `hasSink` says whether a stderr sink was given. */
  datatype Config = Config(maxLine: int, hasSink: bool) {
    predicate TooLong(n: nat) {
      maxLine > 0 && n > maxLine
    }
  }

  /** Big-endian payload size at offset 4 of a frame header. */
  function FrameSize(buf: Bytes): nat
    requires |buf| >= HEADER
  {
    var a: int, b: int, c: int, d: int := buf[4], buf[5], buf[6], buf[7];
    ((a * 0x100 + b) * 0x100 + c) * 0x100 + d
  }

  function Min(a: nat, b: nat): nat {
    if a < b then a else b
  }

  // -- the demultiplexer ------------------------------------------------------

  /** State of one `_demux` call: the object's fields plus the output built so far. */
  datatype Demux = Demux(buf: Bytes, skip: nat, discarding: bool, oversize: nat,
                         out: Bytes, err: seq<Bytes>)

  /** Dropping the payload of an oversize frame as its bytes arrive. */
  function SkipStep(d: Demux): Demux {
    var drop := Min(d.skip, |d.buf|);
    var region := d.buf[..drop];
    var newline := Find(region, NEWLINE);
    var found := d.discarding && newline >= 0;
    Demux(d.buf[drop..], d.skip - drop, d.discarding && !found, d.oversize,
          if found then d.out + region[newline + 1..] else d.out, d.err)
  }

  /** Handling the frame at the head of the buffer; `None` when it is not complete yet. */
  function FrameStep(c: Config, d: Demux): (r: Option<Demux>)
    ensures r.Some? ==> |r.value.buf| < |d.buf|
  {
    if |d.buf| < HEADER then None
    else
      var size := FrameSize(d.buf);
      if c.TooLong(size) then
        Some(Demux(d.buf[HEADER..], size, true,
                   if d.discarding then d.oversize else d.oversize + 1, d.out, d.err))
      else if |d.buf| < HEADER + size then None
      else
        var payload := d.buf[HEADER..HEADER + size];
        var rest := d.buf[HEADER + size..];
        if d.buf[0] == STDERR && c.hasSink
        then Some(d.(buf := rest, err := d.err + [payload]))
        else Some(d.(buf := rest, out := d.out + payload))
  }

  /** The whole `_demux` loop. */
  function Drain(c: Config, d: Demux): Demux
    decreases |d.buf|
  {
    if d.skip > 0 then
      var next := SkipStep(d);
      if next.skip > 0 then next else Drain(c, next)
    else
      match FrameStep(c, d)
      case None => d
      case Some(next) => Drain(c, next)
  }

  // -- the line splitter ------------------------------------------------------

  /** The fields of the stream object, and what the coming `recv` calls will return
      (an empty element stands for EOF or a failed read; past the end every read is EOF). */
  datatype Stream = Stream(buf: Bytes, skip: nat, discarding: bool, oversize: nat,
                           pending: Bytes, err: seq<Bytes>, closed: bool, sock: seq<Bytes>)

  datatype Turn = Again(s: Stream) | Return(line: Bytes, s: Stream)

  /** `_demux` applied to one received chunk, its output appended to `_pending`. */
  function Feed(c: Config, s: Stream, chunk: Bytes): Stream {
    var d := Drain(c, Demux(s.buf + chunk, s.skip, s.discarding, s.oversize, [], s.err));
    s.(buf := d.buf, skip := d.skip, discarding := d.discarding, oversize := d.oversize,
       err := d.err, pending := s.pending + d.out)
  }

  /** The cap check made before blocking in `recv`. */
  function DropOverlong(c: Config, s: Stream): Stream {
    if c.TooLong(|s.pending|)
    then s.(pending := [], discarding := true,
            oversize := if s.discarding then s.oversize else s.oversize + 1)
    else s
  }

  /** A newline is pending: `i` is its position. */
  function TakeLine(c: Config, s: Stream, i: nat): Turn
    requires i < |s.pending|
  {
    var after := s.(pending := s.pending[i + 1..]);
    if s.discarding then Again(after.(discarding := false))
    else if c.TooLong(i) then Again(after.(oversize := s.oversize + 1))
    else Return(s.pending[..i + 1], after)
  }

  /** No newline is pending: read more, or flush the unterminated tail at EOF. */
  function Refill(c: Config, s: Stream): Turn {
    var s1 := DropOverlong(c, s);
    var s2 := s1.(sock := Tail(s.sock));
    if s.sock == [] || s.sock[0] == [] then
      Return(if s1.discarding then [] else s1.pending, s2.(pending := [], closed := true))
    else
      Again(Feed(c, s2, s.sock[0]))
  }

  /** One turn of the `readline` loop. */
  function ReadTurn(c: Config, s: Stream): (t: Turn)
    ensures t.Again? ==> |t.s.sock| < |s.sock| || (t.s.sock == s.sock && |t.s.pending| < |s.pending|)
  {
    var i := Find(s.pending, NEWLINE);
    if i >= 0 then TakeLine(c, s, i) else Refill(c, s)
  }

  /** One `readline` call. */
  function NextLine(c: Config, s: Stream): (Bytes, Stream)
    decreases |s.sock|, |s.pending|
  {
    match ReadTurn(c, s)
    case Return(line, s') => (line, s')
    case Again(s') => NextLine(c, s')
  }

  /** `n` successive `readline` calls. */
  function ReadMany(c: Config, s: Stream, n: nat): (seq<Bytes>, Stream)
    decreases n
  {
    if n == 0 then ([], s) else
      var (line, s1) := NextLine(c, s);
      var (more, s2) := ReadMany(c, s1, n - 1);
      ([line] + more, s2)
  }

  const FRESH := Stream([], 0, false, 0, [], [], false, [])

  // -- the imperative object --------------------------------------------------

  class DockerStream {
    const config: Config
    var sock: seq<Bytes>
    var buf: Bytes
    var pending: Bytes
    var closed: bool
    var discarding: bool
    var skipPayload: nat
    var oversizeLines: nat
    var stderrLog: seq<Bytes>

    constructor (config: Config, sock: seq<Bytes>)
      ensures this.config == config
      ensures State() == FRESH.(sock := sock)
    {
      this.config := config;
      this.sock := sock;
      buf, pending, closed := [], [], false;
      discarding, skipPayload, oversizeLines, stderrLog := false, 0, 0, [];
    }

    ghost function State(): Stream
      reads this
    {
      Stream(buf, skipPayload, discarding, oversizeLines, pending, stderrLog, closed, sock)
    }

    /** The demultiplexer's view of the fields, mid-loop. */
    ghost function Here(out: Bytes): Demux
      reads this
    {
      Demux(buf, skipPayload, discarding, oversizeLines, out, stderrLog)
    }

    method NoteOversize()
      modifies this`discarding, this`oversizeLines
      ensures discarding
      ensures oversizeLines == old(oversizeLines) + if old(discarding) then 0 else 1
    {
      if !discarding {
        discarding := true;
        oversizeLines := oversizeLines + 1;
      }
    }

    method Recv() returns (chunk: Bytes)
      modifies this`sock
      ensures chunk == if old(sock) == [] then [] else old(sock)[0]
      ensures sock == Tail(old(sock))
    {
      if sock == [] { return []; }
      chunk := sock[0];
      sock := sock[1..];
    }

    method SkipRegion(out: Bytes) returns (out': Bytes)
      requires skipPayload > 0
      modifies this`buf, this`skipPayload, this`discarding
      ensures Here(out') == SkipStep(old(Here(out)))
    {
      var drop := Min(skipPayload, |buf|);
      var region := buf[..drop];
      buf := buf[drop..];
      skipPayload := skipPayload - drop;
      var newline := Find(region, NEWLINE);
      out' := out;
      if discarding && newline != -1 {
        discarding := false;
        out' := out + region[newline + 1..];
      }
    }

    method TakeFrame(out: Bytes) returns (out': Bytes, taken: bool)
      requires skipPayload == 0
      modifies this`buf, this`skipPayload, this`discarding, this`oversizeLines, this`stderrLog
      ensures taken <==> FrameStep(config, old(Here(out))).Some?
      ensures Here(out') == if taken then FrameStep(config, old(Here(out))).value else old(Here(out))
    {
      if |buf| < HEADER { return out, false; }
      var streamType := buf[0];
      var size := FrameSize(buf);
      if config.maxLine > 0 && size > config.maxLine {
        buf := buf[HEADER..];
        skipPayload := size;
        NoteOversize();
        return out, true;
      }
      if |buf| < HEADER + size { return out, false; }
      var payload := buf[HEADER..HEADER + size];
      buf := buf[HEADER + size..];
      if streamType == STDERR && config.hasSink {
        stderrLog := stderrLog + [payload];
        return out, true;
      }
      return out + payload, true;
    }

    method DemuxChunk(chunk: Bytes) returns (out: Bytes)
      modifies this`buf, this`skipPayload, this`discarding, this`oversizeLines, this`stderrLog
      ensures Here(out)
           == Drain(config, Demux(old(buf) + chunk, old(skipPayload), old(discarding),
                                  old(oversizeLines), [], old(stderrLog)))
    {
      buf := buf + chunk;
      out := [];
      ghost var goal := Drain(config, Here(out));
      while true
        invariant Drain(config, Here(out)) == goal
        decreases |buf|
      {
        if skipPayload > 0 {
          out := SkipRegion(out);
          if skipPayload > 0 { break; }
          continue;
        }
        var taken;
        out, taken := TakeFrame(out);
        if !taken { break; }
      }
    }

    method ShiftLine(i: nat) returns (done: bool, line: Bytes)
      requires i < |pending|
      modifies this`pending, this`discarding, this`oversizeLines
      ensures (if done then Return(line, State()) else Again(State())) == TakeLine(config, old(State()), i)
    {
      line := pending[..i + 1];
      pending := pending[i + 1..];
      if discarding {
        discarding := false;
        return false, [];
      }
      if config.maxLine > 0 && i > config.maxLine {
        oversizeLines := oversizeLines + 1;
        return false, [];
      }
      done := true;
    }

    method ReadMore() returns (done: bool, line: Bytes)
      modifies this
      ensures (if done then Return(line, State()) else Again(State())) == Refill(config, old(State()))
    {
      ghost var s0 := State();
      if config.maxLine > 0 && |pending| > config.maxLine {
        pending := [];
        NoteOversize();
      }
      assert State() == DropOverlong(config, s0);
      var chunk := Recv();
      ghost var s2 := State();
      if chunk == [] {
        closed := true;
        line := if pending != [] && !discarding then pending else [];
        pending := [];
        return true, line;
      }
      var out := DemuxChunk(chunk);
      pending := pending + out;
      assert State() == Feed(config, s2, chunk);
      return false, [];
    }

    method ReadLine() returns (line: Bytes)
      modifies this
      ensures (line, State()) == NextLine(config, old(State()))
    {
      ghost var goal := NextLine(config, State());
      var done := false;
      line := [];
      while !done
        invariant (if done then (line, State()) else NextLine(config, State())) == goal
        decreases !done, |sock|, |pending|
      {
        var i := Find(pending, NEWLINE);
        if i >= 0 {
          done, line := ShiftLine(i);
        } else {
          done, line := ReadMore();
        }
      }
    }
  }
}
