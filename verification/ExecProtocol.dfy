/** Any number of execs on one sandbox (app/controllers/runner.py, `exec_run`), interleaved with
    everything the environment may do to it.  Exec locks are explicit: an exec keeps the lock it
    found, or the one it made when it found none. */
module ExecProtocol {
  import opened Wrappers
  import opened Registry
  import opened ExecSteps
  import opened ExecInvariant

  type ExecId = nat

  datatype Stage = Queued | Running(pc: Pc) | Done(o: Outcome)

  datatype Exec = Exec(run: RunId, lock: Option<LockId>, stage: Stage)

  /** `holders`: which exec holds a taken exec lock. */
  datatype World = World(data: Data, execs: map<ExecId, Exec>, holders: map<LockId, ExecId>)

  datatype Action =
    | Begin(i: ExecId, run: RunId)    // first locked section of `exec_run`
    | MakeLock(i: ExecId, x: LockId)  // ... its second, when there was no exec lock
    | Acquire(i: ExecId)
    | Move(i: ExecId, a: Answer)
    | Exit(i: ExecId)
    | Outside(e: Env)

  function BeginStep(w: World, i: ExecId, run: RunId): World {
    var stage := if w.data.slot.meta.Some? then Queued else Done(Gone);
    w.(execs := w.execs[i := Exec(run, w.data.slot.execLock, stage)])
  }

  function SetStage(w: World, i: ExecId, stage: Stage): World
    requires i in w.execs
  {
    w.(execs := w.execs[i := w.execs[i].(stage := stage)])
  }

  predicate IsQueued(w: World, i: ExecId) {
    i in w.execs && w.execs[i].stage.Queued?
  }

  predicate IsRunning(w: World, i: ExecId) {
    i in w.execs && w.execs[i].stage.Running?
  }

  predicate FreshLock(w: World, x: LockId) {
    forall i :: i in w.execs ==> w.execs[i].lock != Some(x)
  }

  function MoveStep(w: World, i: ExecId, a: Answer): Option<World>
    requires IsRunning(w, i)
  {
    match Act(w.data, w.execs[i].run, w.execs[i].stage.pc, a)
    case None => None
    case Some((d, pc)) => Some(SetStage(w, i, Running(pc)).(data := d))
  }

  function Step(w: World, act: Action): Option<World> {
    match act
    case Begin(i, run) => if i in w.execs then None else Some(BeginStep(w, i, run))
    case MakeLock(i, x) =>
      if IsQueued(w, i) && w.execs[i].lock.None? && FreshLock(w, x)
      then Some(w.(data := Section(w.data, SetExecLock(x)), execs := w.execs[i := w.execs[i].(lock := Some(x))]))
      else None
    case Acquire(i) =>
      if IsQueued(w, i) && w.execs[i].lock.Some? && w.execs[i].lock.value !in w.holders
      then Some(SetStage(w, i, Running(Check)).(holders := w.holders[w.execs[i].lock.value := i]))
      else None
    case Move(i, a) => if IsRunning(w, i) then MoveStep(w, i, a) else None
    case Exit(i) =>
      if IsRunning(w, i) && w.execs[i].lock.Some? && w.execs[i].stage.pc.Leave?
      then Some(SetStage(w, i, Done(w.execs[i].stage.pc.o)).(holders := w.holders - {w.execs[i].lock.value}))
      else None
    case Outside(e) => if EnvMay(e) then Some(w.(data := EnvStep(w.data, e))) else None
  }

  function Run(w: World, acts: seq<Action>): Option<World>
    decreases acts
  {
    if acts == [] then Some(w)
    else match Step(w, acts[0])
      case None => None
      case Some(w') => Run(w', acts[1..])
  }

  const UNKNOWN := Meta(false, false, None)

  /** A sandbox as `create` leaves it, its eager spawn having succeeded or not. */
  function Created(now: int, x: LockId, probing: bool): World {
    var slot := Slot(Some(now), Some(0), Some(0), Some(None), Some(x));
    World(Data(slot, UNKNOWN, [SPAWNED], probing, {}, false), map[], map[])
  }

  function CreatedBare(now: int, probing: bool): World {
    World(Data(Slot(Some(now), None, None, None, None), UNKNOWN, [], probing, {}, false), map[], map[])
  }

  // -- the invariant --------------------------------------------------------------------

  /** The exec inside, if lock x is taken. */
  function Holder(w: World, x: LockId): Option<(RunId, Pc)> {
    if x in w.holders && IsRunning(w, w.holders[x])
    then Some((w.execs[w.holders[x]].run, w.execs[w.holders[x]].stage.pc))
    else None
  }

  /** x, or no lock yet. */
  predicate NoOther(lock: Option<LockId>, x: LockId) {
    lock.Some? ==> lock.value == x
  }

  /** Everybody serializes on lock x: it is the only one ever handed out. */
  ghost predicate OneLock(w: World, x: LockId) {
    && (w.data.slot.meta.Some? ==> NoOther(w.data.slot.execLock, x))
    && (forall i :: i in w.execs && !w.execs[i].stage.Done? ==> NoOther(w.execs[i].lock, x))
    && (forall i :: IsRunning(w, i) ==> w.execs[i].lock == Some(x) && x in w.holders && w.holders[x] == i)
    && (x in w.holders ==> IsRunning(w, w.holders[x]))
  }

  ghost predicate Inv(w: World, x: LockId) {
    OneLock(w, x) && DataInv(w.data, Holder(w, x))
  }

  lemma ActKeepsExecLock(d: Data, run: RunId, pc: Pc, a: Answer)
    requires Act(d, run, pc, a).Some?
    ensures var s, s' := d.slot, Act(d, run, pc, a).value.0.slot;
            s'.meta.Some? ==> s.meta.Some? && s'.execLock == s.execLock
  {
  }

  lemma EnvKeepsExecLock(d: Data, e: Env)
    requires EnvMay(e)
    ensures var s, s' := d.slot, EnvStep(d, e).slot;
            s'.meta.Some? ==> s.meta.Some? && s'.execLock == s.execLock
  {
  }

  /** Whatever lock this step makes is x. */
  predicate MakesOnly(act: Action, x: LockId) {
    act.MakeLock? ==> act.x == x
  }

  lemma StepKeepsOneLock(w: World, x: LockId, act: Action)
    requires OneLock(w, x) && Step(w, act).Some? && MakesOnly(act, x)
    ensures OneLock(Step(w, act).value, x)
  {
    hide Act, EnvStep;
    if act.Move? {
      ActKeepsExecLock(w.data, w.execs[act.i].run, w.execs[act.i].stage.pc, act.a);
    } else if act.Outside? {
      EnvKeepsExecLock(w.data, act.e);
    }
    var w' := Step(w, act).value;
    forall i ensures IsRunning(w', i) <==> if act.Acquire? && i == act.i then true
                                           else if act.Exit? && i == act.i then false
                                           else IsRunning(w, i)
    {
    }
    assert x in w.holders ==> IsRunning(w, w.holders[x]);
  }

  lemma LockKeepsInv(d: Data, inside: Option<(RunId, Pc)>, x: LockId)
    requires DataInv(d, inside)
    ensures DataInv(Section(d, SetExecLock(x)), inside)
  {
    var d' := Section(d, SetExecLock(x));
    forall t ensures Owned(d', HeldBy(inside), t) <==> Owned(d, HeldBy(inside), t) {
    }
    assert forall t: TransportId :: Prepared(d', t) <==> Prepared(d, t);
    assert forall t: TransportId :: Described(d', t) <==> Described(d, t);
  }

  lemma StepKeepsData(w: World, x: LockId, act: Action)
    requires Inv(w, x) && Step(w, act).Some? && MakesOnly(act, x)
    ensures DataInv(Step(w, act).value.data, Holder(Step(w, act).value, x))
  {
    if act.Move? {
      var e := w.execs[act.i];
      assert Holder(w, x) == Some((e.run, e.stage.pc));
      ActKeepsInv(w.data, e.run, e.stage.pc, act.a);
      hide Act, DataInv;
    } else if act.Outside? {
      EnvKeepsInv(w.data, Holder(w, x), act.e);
      hide EnvStep, DataInv;
    } else if act.MakeLock? {
      LockKeepsInv(w.data, Holder(w, x), x);
      hide DataInv;
    } else {
      StepKeepsOneLock(w, x, act);
      hide Act, EnvStep, TransportsHonoured;
    }
  }

  lemma {:induction false} RunKeepsInv(w: World, x: LockId, acts: seq<Action>)
    requires Inv(w, x) && Run(w, acts).Some? && forall act :: act in acts ==> MakesOnly(act, x)
    ensures Inv(Run(w, acts).value, x)
    decreases acts
  {
    if acts != [] {
      assert acts[0] in acts && forall act :: act in acts[1..] ==> act in acts;
      StepKeepsOneLock(w, x, acts[0]);
      StepKeepsData(w, x, acts[0]);
      hide DataInv, OneLock, Step;
      RunKeepsInv(Step(w, acts[0]).value, x, acts[1..]);
    }
  }

  /** A run of a sandbox whose eager spawn failed, in which no two execs made locks of their own. */
  ghost predicate OneLockMade(x: LockId, acts: seq<Action>) {
    forall act :: act in acts ==> MakesOnly(act, x)
  }

  /** Every world of a sandbox that `create` registered with lock x, and every world of one
      whose eager spawn failed, as long as x is the only lock its execs made. */
  ghost predicate Reachable(w: World, x: LockId) {
    || (exists now, probing, acts :: Run(Created(now, x, probing), acts) == Some(w))
    || (exists now, probing, acts :: Run(CreatedBare(now, probing), acts) == Some(w) && OneLockMade(x, acts))
  }

  /** Where `create` made the lock nobody ever makes another. */
  ghost predicate Furnished(w: World) {
    && (w.data.slot.meta.Some? ==> w.data.slot.execLock.Some?)
    && forall i :: IsQueued(w, i) ==> w.execs[i].lock.Some?
  }

  lemma {:induction false} FurnishedMakesNone(w: World, acts: seq<Action>)
    requires Furnished(w) && Run(w, acts).Some?
    ensures forall act :: act in acts ==> !act.MakeLock?
    decreases acts
  {
    if acts != [] {
      var act := acts[0];
      if act.Move? {
        ActKeepsExecLock(w.data, w.execs[act.i].run, w.execs[act.i].stage.pc, act.a);
      } else if act.Outside? {
        EnvKeepsExecLock(w.data, act.e);
      }
      hide Act, EnvStep;
      var w' := Step(w, act).value;
      assert !act.MakeLock?;
      forall i | IsQueued(w', i) ensures w'.execs[i].lock.Some? {
        assert (act.Begin? && i == act.i) || IsQueued(w, i);
      }
      FurnishedMakesNone(w', acts[1..]);
      assert acts == [act] + acts[1..];
    }
  }

  lemma ReachableInv(w: World, x: LockId)
    requires Reachable(w, x)
    ensures Inv(w, x)
  {
    if now, probing, acts :| Run(Created(now, x, probing), acts) == Some(w) {
      FurnishedMakesNone(Created(now, x, probing), acts);
      assert Inv(Created(now, x, probing), x);
      RunKeepsInv(Created(now, x, probing), x, acts);
    } else {
      var now, probing, acts :| Run(CreatedBare(now, probing), acts) == Some(w) && OneLockMade(x, acts);
      assert Inv(CreatedBare(now, probing), x);
      RunKeepsInv(CreatedBare(now, probing), x, acts);
    }
  }

  // -- the theorems -----------------------------------------------------------------------

  /** One exec at a time, whatever the interleaving; and the live-run check that guards against
      a second one never fires. */
  lemma OneExecAtATime(w: World, x: LockId, i: ExecId, j: ExecId)
    requires Reachable(w, x) && IsRunning(w, i) && IsRunning(w, j)
    ensures i == j && w.execs[i].stage.pc != Leave(Busy)
  {
    ReachableInv(w, x);
  }

  /** Live-run safety: while run r holds the slot, a step takes the slot or the sandbox away only
      if it is r's own exec releasing, an unconditional destroy, or the escalation of r. */
  lemma LiveRunSafety(w: World, x: LockId, r: RunId, act: Action)
    requires Reachable(w, x) && Step(w, act).Some?
    requires w.data.slot.live == Some(Some(r))
    ensures var s' := Step(w, act).value.data.slot;
            || (s'.live == Some(Some(r)) && s'.meta.Some? && s'.transport == w.data.slot.transport)
            || (act.Move? && w.execs[act.i].run == r && w.execs[act.i].stage.pc.Releasing?)
            || act == Outside(Other(Detach))
            || act == Outside(Other(DetachIfRunning(r)))
  {
    ReachableInv(w, x);
    assert LiveOk(w.data, Holder(w, x));
    assert LiveRun(w.data.slot) == Some(r);
    if act.Move? {
      LiveMove(w.data, w.execs[act.i].run, w.execs[act.i].stage.pc, act.a);
    }
    hide Act, Inv, DataInv, OneLock;
  }

  lemma LiveMove(d: Data, run: RunId, pc: Pc, a: Answer)
    requires Act(d, run, pc, a).Some? && LiveOk(d, Some((run, pc))) && LiveRun(d.slot).Some?
    ensures pc.Releasing? || Act(d, run, pc, a).value.0.slot == d.slot
  {
  }

  /** Over any sequence of execs, deaths, wedged probes, respawns and refusals, the host keeps
      the handshake contract with every transport it ever spawned. */
  lemma HandshakeHonoured(w: World, x: LockId, t: TransportId)
    requires Reachable(w, x) && t < |w.data.ts|
    ensures Honoured(w.data.ts[t])
  {
    ReachableInv(w, x);
    assert TransportsHonoured(w.data);
  }

  /** Exactly which transports get an `op_id` they did not advertise: those that were greeted and
      whose build takes hellos without `op_id`.  The submits are never to blame. */
  lemma UnaskedTagIff(w: World, x: LockId, t: TransportId)
    requires Reachable(w, x) && t < |w.data.ts|
    ensures var tr := w.data.ts[t];
            UnaskedTag(tr) <==> tr.hellos != [] && tr.ready.Some?
                                && CapHello in tr.ready.value.capabilities && CapOpId !in tr.ready.value.capabilities
  {
    HandshakeHonoured(w, x, t);
    var tr := w.data.ts[t];
    if tr.hellos != [] { assert tr.hellos[0] in tr.hellos; }
  }

  /** No process is lost: a living transport is registered, being closed by a destroy, or in the
      hands of the exec inside, unless it was given up before its ready line arrived. */
  lemma NoProcessIsLost(w: World, x: LockId, t: TransportId)
    requires Reachable(w, x) && Alive(w.data, t) && w.data.ts[t].ready.Some?
    ensures || w.data.slot.transport == Some(t)
            || t in w.data.closing
            || (exists i :: IsRunning(w, i) && t in Held(w.execs[i].stage.pc))
  {
    ReachableInv(w, x);
    assert Owned(w.data, HeldBy(Holder(w, x)), t);
    if t in HeldBy(Holder(w, x)) { assert IsRunning(w, w.holders[x]); }
  }

  /** Before each step that talks to a transport: no exec waits for a ready line that was
      already consumed, none greets a transport twice, and a submit is tagged as the build asked
      and follows its one hello (unless a transport found dead was replaced earlier on: then the
      flag that says so may stem from that one). */
  lemma StepsMeetTheirTransport(w: World, x: LockId, i: ExecId)
    requires Reachable(w, x) && IsRunning(w, i)
    ensures match w.execs[i].stage.pc
            case Read(t, _) => t < |w.data.ts| && w.data.ts[t].ready.None?
            case Greet(t) => t < |w.data.ts| && (!w.data.meta.greeted ==> w.data.ts[t].hellos == [])
            case Send(t, tagged) =>
              && t < |w.data.ts| && w.data.ts[t].ready.Some? && w.data.ts[t].ready == w.data.meta.handshake
              && (CapHello in w.data.ts[t].ready.value.capabilities && Unbroken(w.data) ==>
                    |w.data.ts[t].hellos| == 1)
              && (w.data.slot.meta.Some? ==> (tagged <==> CapOpId in w.data.ts[t].ready.value.capabilities))
            case _ => true
  {
    ReachableInv(w, x);
    assert Holder(w, x) == Some((w.execs[i].run, w.execs[i].stage.pc));
  }
}
