/** Schedules of execs that show where the sandbox protocol stops short of its promises
    (app/controllers/runner.py): exec locks made lazily, and the tag of the hello. */
module ExecSchedules {
  import opened Wrappers
  import opened Registry
  import opened ExecSteps
  import opened ExecProtocol

  // -- running one exec for a while --------------------------------------------------------

  function MovesOf(i: ExecId, answers: seq<Answer>): seq<Action> {
    if answers == [] then [] else [Move(i, answers[0])] + MovesOf(i, answers[1..])
  }

  /** Where an exec gets to when nothing else happens. */
  function Path(d: Data, run: RunId, pc: Pc, answers: seq<Answer>): Option<(Data, Pc)>
    decreases |answers|
  {
    if answers == [] then Some((d, pc))
    else match Act(d, run, pc, answers[0])
      case None => None
      case Some((d', pc')) => Path(d', run, pc', answers[1..])
  }

  lemma PathStep(d: Data, run: RunId, pc: Pc, a: Answer, rest: seq<Answer>, d': Data, pc': Pc)
    requires Act(d, run, pc, a) == Some((d', pc'))
    ensures Path(d, run, pc, [a] + rest) == Path(d', run, pc', rest)
  {
    hide Act;
    assert ([a] + rest)[0] == a && ([a] + rest)[1..] == rest;
  }

  /** Exec i has got to pc, and the sandbox to d. */
  function Got(w: World, i: ExecId, d: Data, pc: Pc): World
    requires i in w.execs
  {
    SetStage(w, i, Running(pc)).(data := d)
  }

  lemma {:induction false} RunPath(w: World, i: ExecId, answers: seq<Answer>, d': Data, pc': Pc)
    requires IsRunning(w, i) && Path(w.data, w.execs[i].run, w.execs[i].stage.pc, answers) == Some((d', pc'))
    ensures Run(w, MovesOf(i, answers)) == Some(Got(w, i, d', pc'))
    decreases answers
  {
    hide Act;
    if answers == [] {
      assert w.execs[i := w.execs[i]] == w.execs;
    } else {
      var w1 := Step(w, Move(i, answers[0])).value;
      RunPath(w1, i, answers[1..], d', pc');
      Then(w, [Move(i, answers[0])], w1, MovesOf(i, answers[1..])) by { RunOne(w, Move(i, answers[0])); }
      assert Got(w1, i, d', pc') == Got(w, i, d', pc');
    }
  }

  lemma RunOne(w: World, act: Action)
    ensures Run(w, [act]) == Step(w, act)
  {
    assert [act][1..] == [];
  }

  lemma {:induction false} Then(w: World, xs: seq<Action>, w': World, ys: seq<Action>)
    requires Run(w, xs) == Some(w')
    ensures Run(w, xs + ys) == Run(w', ys)
    decreases xs
  {
    if xs == [] {
      assert xs + ys == ys;
    } else {
      Then(Step(w, xs[0]).value, xs[1..], w', ys);
      assert (xs + ys)[1..] == xs[1..] + ys;
    }
  }

  // -- locks made lazily --------------------------------------------------------------------

  /** Two execs inside at once, each behind its own lock. */
  function Two(d: Data, p: Pc, q: Pc): World {
    World(d, map[0 := Exec(0, Some(0), Running(p)), 1 := Exec(1, Some(1), Running(q))], map[0 := 0, 1 := 1])
  }

  const ENTRY: seq<Action> := [Begin(0, 0), Begin(1, 1)]
  const LOCKING: seq<Action> := [MakeLock(0, 0), MakeLock(1, 1)]
  const TAKING: seq<Action> := [Acquire(0), Acquire(1)]

  function Waiting(d: Data, a: Option<LockId>, b: Option<LockId>): World {
    World(d, map[0 := Exec(0, a, Queued), 1 := Exec(1, b, Queued)], map[])
  }

  function BareData(now: int, probing: bool): Data {
    CreatedBare(now, probing).data
  }

  function Locked(now: int, probing: bool): Data {
    BareData(now, probing).(slot := BareData(now, probing).slot.(execLock := Some(1)))
  }

  lemma RunTwo(w: World, a: Action, b: Action, w1: World, w2: World)
    requires Step(w, a) == Some(w1) && Step(w1, b) == Some(w2)
    ensures Run(w, [a, b]) == Some(w2)
  {
    hide Step;
    assert [a, b][1..] == [b];
    RunOne(w1, b);
  }

  lemma SetFirst<V>(a: V, b: V, c: V)
    ensures map[0 := a, 1 := b][0 := c] == map[0 := c, 1 := b]
    ensures map[0 := a, 1 := b][1 := c] == map[0 := a, 1 := c]
    ensures map[0 := a][1 := c] == map[0 := a, 1 := c]
  {
  }

  lemma BothArrive(now: int, probing: bool)
    ensures Run(CreatedBare(now, probing), ENTRY) == Some(Waiting(BareData(now, probing), None, None))
  {
    var d := BareData(now, probing);
    RunTwo(CreatedBare(now, probing), Begin(0, 0), Begin(1, 1), World(d, map[0 := Exec(0, None, Queued)], map[]),
           Waiting(d, None, None));
  }

  lemma BothMakeLocks(now: int, probing: bool)
    ensures Run(Waiting(BareData(now, probing), None, None), LOCKING)
         == Some(Waiting(Locked(now, probing), Some(0), Some(1)))
  {
    var d := BareData(now, probing);
    var d1 := d.(slot := d.slot.(execLock := Some(0)));
    var w := Waiting(d, None, None);
    var w1 := Waiting(d1, Some(0), None);
    SetFirst(Exec(0, None, Queued), Exec(1, None, Queued), Exec(0, Some(0), Queued));
    SetFirst(Exec(0, Some(0), Queued), Exec(1, None, Queued), Exec(1, Some(1), Queued));
    assert Step(w, MakeLock(0, 0)) == Some(w1);
    assert Step(w1, MakeLock(1, 1)) == Some(Waiting(Locked(now, probing), Some(0), Some(1)));
    RunTwo(w, MakeLock(0, 0), MakeLock(1, 1), w1, Waiting(Locked(now, probing), Some(0), Some(1)));
  }

  lemma BothAcquire(d: Data)
    ensures Run(Waiting(d, Some(0), Some(1)), TAKING) == Some(Two(d, Check, Check))
  {
    var w := Waiting(d, Some(0), Some(1));
    var queued := Exec(1, Some(1), Queued);
    var inside := Exec(0, Some(0), Running(Check));
    var w1 := World(d, map[0 := inside, 1 := queued], map[0 := 0]);
    SetFirst(Exec(0, Some(0), Queued), queued, inside);
    SetFirst(inside, queued, Exec(1, Some(1), Running(Check)));
    SetFirst(0, 0, 1);
    assert map[][0 := 0] == map[0 := 0];
    assert Step(w, Acquire(0)) == Some(w1);
    assert Step(w1, Acquire(1)) == Some(Two(d, Check, Check));
    RunTwo(w, Acquire(0), Acquire(1), w1, Two(d, Check, Check));
  }

  /** When the spawn at `create` failed there is no exec lock, and each of two execs that arrive
      together makes its own. */
  lemma BothEnter(now: int, probing: bool)
    ensures Run(CreatedBare(now, probing), ENTRY + (LOCKING + TAKING)) == Some(Two(Locked(now, probing), Check, Check))
  {
    BothArrive(now, probing);
    BothMakeLocks(now, probing);
    BothAcquire(Locked(now, probing));
    hide *;
    Then(CreatedBare(now, probing), ENTRY, Waiting(BareData(now, probing), None, None), LOCKING + TAKING);
    Then(Waiting(BareData(now, probing), None, None), LOCKING, Waiting(Locked(now, probing), Some(0), Some(1)), TAKING);
  }

  lemma First(d: Data, p: Pc, q: Pc, answers: seq<Answer>, d': Data, p': Pc)
    requires Path(d, 0, p, answers) == Some((d', p'))
    ensures Run(Two(d, p, q), MovesOf(0, answers)) == Some(Two(d', p', q))
  {
    hide Path, Run;
    RunPath(Two(d, p, q), 0, answers, d', p');
    SetFirst(Exec(0, Some(0), Running(p)), Exec(1, Some(1), Running(q)), Exec(0, Some(0), Running(p')));
  }

  lemma Second(d: Data, p: Pc, q: Pc, answers: seq<Answer>, d': Data, q': Pc)
    requires Path(d, 1, q, answers) == Some((d', q'))
    ensures Run(Two(d, p, q), MovesOf(1, answers)) == Some(Two(d', p, q'))
  {
    hide Path, Run;
    RunPath(Two(d, p, q), 1, answers, d', q');
    SetFirst(Exec(0, Some(0), Running(p)), Exec(1, Some(1), Running(q)), Exec(1, Some(1), Running(q')));
  }

  /** Two builds of the same version, of which only the second takes `op_id`. */
  const PLAIN := Handshake(1, {})
  const TAGGING := Handshake(1, {CapOpId})

  const THREE: seq<Answer> := [Yes, Yes, Yes]

  /** Nothing is registered, so each exec goes on to spawn. */
  lemma BothSearch(now: int, probing: bool, run: RunId)
    ensures Path(Locked(now, probing), run, Check, THREE) == Some((Locked(now, probing), Spawn))
  {
    var d := Locked(now, probing);
    PathStep(d, run, Check, Yes, [Yes, Yes], d, Fetch);
    PathStep(d, run, Fetch, Yes, [Yes], d, Inspect(None));
    PathStep(d, run, Inspect(None), Yes, [], d, Spawn);
    hide Act;
    assert THREE == [Yes] + [Yes, Yes] && [Yes, Yes] == [Yes] + [Yes] && [Yes] == [Yes] + [];
  }

  function Spawned(d: Data, h: Handshake): Data {
    d.(ts := d.ts + [SPAWNED.(ready := Some(h))])
  }

  /** Spawning, and reading the ready line. */
  lemma Announces(d: Data, run: RunId, h: Handshake)
    ensures Path(d, run, Spawn, [Yes, ReadyLine(h)]) == Some((Spawned(d, h), Accept(|d.ts|, h, true)))
  {
    var n := |d.ts|;
    var d1 := d.(ts := d.ts + [SPAWNED]);
    assert (d.ts + [SPAWNED])[n := SPAWNED.(ready := Some(h))] == d.ts + [SPAWNED.(ready := Some(h))];
    PathStep(d, run, Spawn, Yes, [ReadyLine(h)], d1, Read(n, true));
    PathStep(d1, run, Read(n, true), ReadyLine(h), [], Spawned(d, h), Accept(n, h, true));
    hide Act;
    assert [Yes, ReadyLine(h)] == [Yes] + [ReadyLine(h)] && [ReadyLine(h)] == [ReadyLine(h)] + [];
  }

  /** Recording it, in the one place both execs write to. */
  lemma Records(d: Data, run: RunId, t: TransportId, h: Handshake)
    requires Supported(h)
    ensures Path(d, run, Accept(t, h, true), [Yes])
         == Some((d.(meta := d.meta.(handshake := Some(h))), Register(t)))
  {
    PathStep(d, run, Accept(t, h, true), Yes, [], d.(meta := d.meta.(handshake := Some(h))), Register(t));
    hide Act;
    assert [Yes] == [Yes] + [];
  }

  function Registered(d: Data, t: TransportId): Data {
    var slot := d.slot.(meta := Some(0), transport := Some(t), lock := Some(t));
    d.(slot := slot, meta := d.meta.(readyOk := true))
  }

  /** Registering the new transport and touching the sandbox. */
  lemma Registers(d: Data, run: RunId, t: TransportId)
    requires d.slot.meta.Some? && t < |d.ts|
    ensures Path(d, run, Register(t), [Yes, Yes, At(0)]) == Some((Registered(d, t), Greet(t)))
  {
    var d1 := d.(slot := d.slot.(transport := Some(t), lock := Some(t)));
    var d2 := d1.(meta := d.meta.(readyOk := true));
    PathStep(d, run, Register(t), Yes, [Yes, At(0)], d1, MarkReady(t));
    PathStep(d1, run, MarkReady(t), Yes, [At(0)], d2, Touching(t));
    PathStep(d2, run, Touching(t), At(0), [], Registered(d, t), Greet(t));
    hide Act;
    assert [Yes, Yes, At(0)] == [Yes] + [Yes, At(0)] && [Yes, At(0)] == [Yes] + [At(0)] && [At(0)] == [At(0)] + [];
  }

  function ClaimedBy(d: Data, run: RunId): Data {
    d.(slot := d.slot.(live := Some(Some(run))))
  }

  /** Claiming the slot, for a build that takes no hello. */
  lemma Claims(d: Data, run: RunId, t: TransportId)
    requires d.slot.meta.Some? && t < |d.ts| && d.meta.handshake == Some(PLAIN)
    ensures Path(d, run, Greet(t), [Yes, Yes]) == Some((ClaimedBy(d, run), Tag(t)))
  {
    PathStep(d, run, Greet(t), Yes, [Yes], d, Claiming(t));
    PathStep(d, run, Claiming(t), Yes, [], ClaimedBy(d, run), Tag(t));
    hide Act;
    assert [Yes, Yes] == [Yes] + [Yes] && [Yes] == [Yes] + [];
  }

  function Submitted(d: Data, run: RunId, t: TransportId): Data
    requires t < |d.ts|
  {
    Sent(d, run, t, CapOpId in Capabilities(d))
  }

  /** Deciding on the tag from the record, and submitting. */
  lemma Submits(d: Data, run: RunId, t: TransportId)
    requires Alive(d, t)
    ensures Path(d, run, Tag(t), [Yes, Yes]) == Some((Submitted(d, run, t), Pump(t)))
  {
    PathStep(d, run, Tag(t), Yes, [Yes], d, Send(t, CapOpId in Capabilities(d)));
    PathStep(d, run, Send(t, CapOpId in Capabilities(d)), Yes, [], Submitted(d, run, t), Pump(t));
    hide Act;
    assert [Yes, Yes] == [Yes] + [Yes] && [Yes] == [Yes] + [];
  }

  function Recorded(d: Data, h: Handshake): Data {
    d.(meta := d.meta.(handshake := Some(h)))
  }

  /** The first exec up to its registration, the second up to the ready line of its own build. */
  function BothSpawn(): seq<Action> {
    MovesOf(0, THREE) + (MovesOf(1, THREE)
      + (MovesOf(0, [Yes, ReadyLine(PLAIN)]) + (MovesOf(0, [Yes]) + MovesOf(1, [Yes, ReadyLine(TAGGING)]))))
  }

  /** The first exec claims, the second records its build's handshake, the first submits. */
  function Crossing(): seq<Action> {
    MovesOf(0, [Yes, Yes, At(0)]) + (MovesOf(0, [Yes, Yes]) + (MovesOf(1, [Yes]) + MovesOf(0, [Yes, Yes])))
  }

  function Announced2(d: Data): Data {
    Spawned(Recorded(Spawned(d, PLAIN), PLAIN), TAGGING)
  }

  lemma BothSpawnRuns(now: int, probing: bool)
    ensures var d := Locked(now, probing);
            Run(Two(d, Check, Check), BothSpawn()) == Some(Two(Announced2(d), Register(0), Accept(1, TAGGING, true)))
  {
    var d0 := Locked(now, probing);
    var d1 := Spawned(d0, PLAIN);
    var d2 := Recorded(d1, PLAIN);
    BothSearch(now, probing, 0);
    BothSearch(now, probing, 1);
    Announces(d0, 0, PLAIN);
    Records(d1, 0, 0, PLAIN);
    Announces(d2, 1, TAGGING);
    assert |d0.ts| == 0 && |d2.ts| == 1;
    hide Path, Run, MovesOf, Two, Locked, BareData, Spawned, Recorded;
    First(d0, Check, Check, THREE, d0, Spawn);
    Second(d0, Spawn, Check, THREE, d0, Spawn);
    First(d0, Spawn, Spawn, [Yes, ReadyLine(PLAIN)], d1, Accept(0, PLAIN, true));
    First(d1, Accept(0, PLAIN, true), Spawn, [Yes], d2, Register(0));
    Second(d2, Register(0), Spawn, [Yes, ReadyLine(TAGGING)], Announced2(d0), Accept(1, TAGGING, true));
    ThenFour(Two(d0, Check, Check), MovesOf(0, THREE), Two(d0, Spawn, Check), MovesOf(1, THREE),
             Two(d0, Spawn, Spawn), MovesOf(0, [Yes, ReadyLine(PLAIN)]),
             Two(d1, Accept(0, PLAIN, true), Spawn), MovesOf(0, [Yes]),
             Two(d2, Register(0), Spawn), MovesOf(1, [Yes, ReadyLine(TAGGING)]));
  }

  lemma ThenFour(w: World, a: seq<Action>, x: World, b: seq<Action>, y: World, c: seq<Action>, z: World,
                 d: seq<Action>, u: World, e: seq<Action>)
    requires Run(w, a) == Some(x) && Run(x, b) == Some(y) && Run(y, c) == Some(z) && Run(z, d) == Some(u)
    ensures Run(w, a + (b + (c + (d + e)))) == Run(u, e)
  {
    hide Run;
    Then(w, a, x, b + (c + (d + e)));
    Then(x, b, y, c + (d + e));
    Then(y, c, z, d + e);
    Then(z, d, u, e);
  }

  /** What the two execs leave: the first build's submit under the second one's handshake. */
  function Crossed(d: Data): Data
    requires |d.ts| > 0
  {
    Submitted(Recorded(ClaimedBy(Registered(d, 0), 0), TAGGING), 0, 0)
  }

  lemma CrossingRuns(d: Data)
    requires d.slot.meta.Some? && |d.ts| == 2 && d.ts[0].alive && d.meta.handshake == Some(PLAIN)
    ensures Run(Two(d, Register(0), Accept(1, TAGGING, true)), Crossing())
         == Some(Two(Crossed(d), Pump(0), Register(1)))
  {
    var d1 := Registered(d, 0);
    var d2 := ClaimedBy(d1, 0);
    var d3 := Recorded(d2, TAGGING);
    Registers(d, 0, 0);
    Claims(d1, 0, 0);
    Records(d2, 1, 1, TAGGING);
    Submits(d3, 0, 0);
    hide Path, Run, MovesOf, Two, Submitted, Registered, ClaimedBy, Recorded;
    First(d, Register(0), Accept(1, TAGGING, true), [Yes, Yes, At(0)], d1, Greet(0));
    First(d1, Greet(0), Accept(1, TAGGING, true), [Yes, Yes], d2, Tag(0));
    Second(d2, Tag(0), Accept(1, TAGGING, true), [Yes], d3, Register(1));
    First(d3, Tag(0), Register(1), [Yes, Yes], Submitted(d3, 0, 0), Pump(0));
    Then(Two(d2, Tag(0), Accept(1, TAGGING, true)), MovesOf(1, [Yes]), Two(d3, Tag(0), Register(1)),
         MovesOf(0, [Yes, Yes]));
    Then(Two(d1, Greet(0), Accept(1, TAGGING, true)), MovesOf(0, [Yes, Yes]), Two(d2, Tag(0), Accept(1, TAGGING, true)),
         MovesOf(1, [Yes]) + MovesOf(0, [Yes, Yes]));
    Then(Two(d, Register(0), Accept(1, TAGGING, true)), MovesOf(0, [Yes, Yes, At(0)]),
         Two(d1, Greet(0), Accept(1, TAGGING, true)),
         MovesOf(0, [Yes, Yes]) + (MovesOf(1, [Yes]) + MovesOf(0, [Yes, Yes])));
  }

  lemma CrossedIsMisaddressed(now: int, probing: bool)
    ensures var d := Announced2(Locked(now, probing));
            && d.slot.meta.Some? && |d.ts| == 2 && d.ts[0].alive
            && |Crossed(d).ts| == 2
            && Crossed(d).ts[0].submits == [Submit(0, true, Some(TAGGING))] && Crossed(d).ts[0].ready == Some(PLAIN)
            && !Honoured(Crossed(d).ts[0])
  {
    var d := Announced2(Locked(now, probing));
    var sub := Submit(0, true, Some(TAGGING));
    assert Crossed(d).ts[0].submits == [] + [sub];
    assert sub in Crossed(d).ts[0].submits;
  }

  // -- what the lock made by `create` is worth ----------------------------------------------

  ghost predicate Overlaps(w: World, acts: seq<Action>, i: ExecId, j: ExecId) {
    Run(w, acts).Some? && i != j && IsRunning(Run(w, acts).value, i) && IsRunning(Run(w, acts).value, j)
  }

  ghost predicate CanOverlap(w: World) {
    exists acts, i, j :: Overlaps(w, acts, i, j)
  }

  /** Two execs can be inside together exactly when the sandbox was registered without an exec
      lock. */
  lemma OverlapIff(w: World, now: int, x: LockId, probing: bool)
    requires w == Created(now, x, probing) || w == CreatedBare(now, probing)
    ensures CanOverlap(w) <==> w.data.slot.execLock.None?
  {
    if w.data.slot.execLock.None? {
      BothEnter(now, probing);
      assert Overlaps(w, ENTRY + (LOCKING + TAKING), 0, 1) by { hide Run, Locked; }
    } else if CanOverlap(w) {
      var acts, i, j :| Overlaps(w, acts, i, j);
      hide Run;
      assert Reachable(Run(w, acts).value, x);
      OneExecAtATime(Run(w, acts).value, x, i, j);
    }
  }

  ghost predicate Breaks(w: World, acts: seq<Action>, t: TransportId) {
    Run(w, acts).Some? && t < |Run(w, acts).value.data.ts| && !Honoured(Run(w, acts).value.data.ts[t])
  }

  /** Over all its runs a sandbox keeps the handshake contract with every transport it spawns,
      exactly when it was registered with an exec lock.  Without one, two execs can cross, and a
      submit goes out under the handshake of another build, tagged as that one asked. */
  lemma ContractKeptIff(w: World, now: int, x: LockId, probing: bool)
    requires w == Created(now, x, probing) || w == CreatedBare(now, probing)
    ensures (forall acts, t :: !Breaks(w, acts, t)) <==> w.data.slot.execLock.Some?
  {
    if w.data.slot.execLock.None? {
      var acts := LockRace(now, probing);
      assert Breaks(w, acts, 0);
    } else {
      forall acts, t ensures !Breaks(w, acts, t) {
        if Breaks(w, acts, t) {
          hide Run, Honoured;
          assert Reachable(Run(w, acts).value, x);
          HandshakeHonoured(Run(w, acts).value, x, t);
        }
      }
    }
  }

  lemma LockRace(now: int, probing: bool) returns (acts: seq<Action>)
    ensures Breaks(CreatedBare(now, probing), acts, 0)
  {
    var d := Announced2(Locked(now, probing));
    acts := (ENTRY + (LOCKING + TAKING)) + (BothSpawn() + Crossing());
    BothEnter(now, probing);
    BothSpawnRuns(now, probing);
    CrossedIsMisaddressed(now, probing);
    assert d.meta.handshake == Some(PLAIN);
    hide Run, BothSpawn, Crossing, Locked, Announced2, Crossed, Honoured;
    CrossingRuns(d);
    Then(CreatedBare(now, probing), ENTRY + (LOCKING + TAKING), Two(Locked(now, probing), Check, Check),
         BothSpawn() + Crossing());
    Then(Two(Locked(now, probing), Check, Check), BothSpawn(), Two(d, Register(0), Accept(1, TAGGING, true)),
         Crossing());
  }

  // -- an op_id nobody asked for --------------------------------------------------------------

  /** A build that takes hellos and knows no `op_id`. */
  const GREETABLE := Handshake(1, {CapHello})

  function Entered(now: int, x: LockId, probing: bool, run: RunId): World {
    World(Created(now, x, probing).data, map[0 := Exec(run, Some(x), Running(Check))], map[x := 0])
  }

  lemma EntersAlone(now: int, x: LockId, probing: bool, run: RunId)
    ensures Run(Created(now, x, probing), [Begin(0, run), Acquire(0)]) == Some(Entered(now, x, probing, run))
  {
    var w := Created(now, x, probing);
    var queued := Exec(run, Some(x), Queued);
    assert map[0 := queued][0 := queued.(stage := Running(Check))] == map[0 := queued.(stage := Running(Check))];
    assert map[][x := 0] == map[x := 0];
    RunTwo(w, Begin(0, run), Acquire(0), World(w.data, map[0 := queued], map[]), Entered(now, x, probing, run));
  }

  /** The first exec of a sandbox, up to its ready line. */
  lemma ReadsReady(d: Data, run: RunId, h: Handshake)
    requires d.slot.transport == Some(0) && LiveRun(d.slot).None? && !d.meta.readyOk && d.ts == [SPAWNED]
    ensures Path(d, run, Check, [Yes, Yes, Yes, ReadyLine(h)])
         == Some((d.(ts := [SPAWNED.(ready := Some(h))]), Accept(0, h, false)))
  {
    var d1 := d.(ts := [SPAWNED.(ready := Some(h))]);
    assert d.ts[0 := SPAWNED.(ready := Some(h))] == d1.ts;
    PathStep(d, run, Check, Yes, [Yes, Yes, ReadyLine(h)], d, Fetch);
    PathStep(d, run, Fetch, Yes, [Yes, ReadyLine(h)], d, Inspect(Some(0)));
    PathStep(d, run, Inspect(Some(0)), Yes, [ReadyLine(h)], d, Read(0, false));
    PathStep(d, run, Read(0, false), ReadyLine(h), [], d1, Accept(0, h, false));
    hide Act;
    assert [Yes, Yes, Yes, ReadyLine(h)] == [Yes] + [Yes, Yes, ReadyLine(h)];
    assert [Yes, Yes, ReadyLine(h)] == [Yes] + [Yes, ReadyLine(h)] && [Yes, ReadyLine(h)] == [Yes] + [ReadyLine(h)];
    assert [ReadyLine(h)] == [ReadyLine(h)] + [];
  }

  function Ready(d: Data, h: Handshake): Data {
    d.(slot := d.slot.(meta := Some(0)), meta := d.meta.(readyOk := true, handshake := Some(h)))
  }

  /** ... and from there to the hello. */
  lemma Greets(d: Data, run: RunId)
    requires d.slot.meta.Some? && |d.ts| == 1 && !d.meta.greeted
    ensures Path(d, run, Accept(0, GREETABLE, false), [Yes, At(0), Yes])
         == Some((Greeted(Ready(d, GREETABLE), 0).0, AwaitHello(0)))
  {
    var d1 := d.(meta := d.meta.(readyOk := true, handshake := Some(GREETABLE)));
    PathStep(d, run, Accept(0, GREETABLE, false), Yes, [At(0), Yes], d1, Touching(0));
    PathStep(d1, run, Touching(0), At(0), [Yes], Ready(d, GREETABLE), Greet(0));
    PathStep(Ready(d, GREETABLE), run, Greet(0), Yes, [], Greeted(Ready(d, GREETABLE), 0).0, AwaitHello(0));
    hide Act;
    assert [Yes, At(0), Yes] == [Yes] + [At(0), Yes] && [At(0), Yes] == [At(0)] + [Yes] && [Yes] == [Yes] + [];
  }

  ghost predicate Mistags(w: World, acts: seq<Action>) {
    && Run(w, acts).Some? && |Run(w, acts).value.data.ts| == 1
    && Run(w, acts).value.data.ts[0].hellos == [Hello(true)] && UnaskedTag(Run(w, acts).value.data.ts[0])
  }

  /** A build that takes hellos and knows no `op_id` gets one all the same, in its first exec. */
  lemma HelloTagsUnasked(now: int, x: LockId, probing: bool, run: RunId)
    ensures exists acts :: Mistags(Created(now, x, probing), acts)
  {
    var w0, w1 := Created(now, x, probing), Entered(now, x, probing, run);
    var d1 := w0.data.(ts := [SPAWNED.(ready := Some(GREETABLE))]);
    var d2 := Greeted(Ready(d1, GREETABLE), 0).0;
    var to, on := [Yes, Yes, Yes, ReadyLine(GREETABLE)], [Yes, At(0), Yes];
    var tr := SPAWNED.(ready := Some(GREETABLE), hellos := [Hello(true)]);
    assert d2.ts == [tr] by { assert [] + [Hello(true)] == [Hello(true)]; }
    assert UnaskedTag(tr) by { assert tr.hellos[0] in tr.hellos; }
    EntersAlone(now, x, probing, run);
    ReadsReady(w0.data, run, GREETABLE);
    Greets(d1, run);
    hide Path, Run, MovesOf, Greeted, Ready, UnaskedTag;
    var w2 := Got(w1, 0, d1, Accept(0, GREETABLE, false));
    var w3 := Got(w2, 0, d2, AwaitHello(0));
    RunPath(w1, 0, to, d1, Accept(0, GREETABLE, false));
    RunPath(w2, 0, on, d2, AwaitHello(0));
    Then(w0, [Begin(0, run), Acquire(0)], w1, MovesOf(0, to) + MovesOf(0, on));
    Then(w1, MovesOf(0, to), w2, MovesOf(0, on));
    assert Mistags(w0, [Begin(0, run), Acquire(0)] + (MovesOf(0, to) + MovesOf(0, on)));
  }
}
