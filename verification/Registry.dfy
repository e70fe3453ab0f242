/** The sandbox registry of `ResidentRunner` (app/controllers/runner.py): five dictionaries that
    change only inside `with self._lock` sections.  One method per section; each is tied to
    `SlotStep`, what the section does to the entries of its own sandbox. */
module Registry {
  import opened Wrappers

  // uuids and object identities: compared, never computed with
  type SandboxId = nat
  type RunId = nat
  type TransportId = nat
  type LockId = nat

  /** One sandbox's entries in `_sandboxes` (its last_used), `_transports`, `_locks`,
      `_live_run` and `_exec_locks`. */
  datatype Slot = Slot(
    meta: Option<int>, transport: Option<TransportId>, lock: Option<LockId>,
    live: Option<Option<RunId>>, execLock: Option<LockId>)

  const EMPTY := Slot(None, None, None, None, None)

  datatype Op =
    | Create(now: int)
    | RegisterFresh(t: TransportId, l: LockId, x: LockId)   // create's second section
    | RegisterRespawn(t: TransportId, l: LockId)
    | Detach
    | DetachIfIdle(ttl: int, now: int)
    | DetachIfRunning(run: RunId)
    | Retire(t: TransportId)
    | Touch(now: int)
    | Claim(run: RunId)
    | Release
    | SetExecLock(x: LockId)

  /** `_live_run.get(sandbox_id)`: no entry reads as None. */
  function LiveRun(s: Slot): Option<RunId> {
    match s.live case Some(r) => r case None => None
  }

  predicate IdleAndStale(s: Slot, ttl: int, now: int) {
    s.meta.Some? && LiveRun(s).None? && now - s.meta.value > ttl
  }

  predicate Running(s: Slot, run: RunId) {
    s.meta.Some? && LiveRun(s) == Some(run)
  }

  function SlotStep(s: Slot, op: Op): Slot {
    match op
    case Create(now) => s.(meta := Some(now))
    case RegisterFresh(t, l, x) =>
      s.(transport := Some(t), lock := Some(l), live := Some(None), execLock := Some(x))
    case RegisterRespawn(t, l) =>
      if s.meta.Some? then s.(transport := Some(t), lock := Some(l)) else s
    case Detach => EMPTY
    case DetachIfIdle(ttl, now) => if IdleAndStale(s, ttl, now) then EMPTY else s
    case DetachIfRunning(run) => if Running(s, run) then EMPTY else s
    case Retire(t) => if s.transport == Some(t) then s.(transport := None, lock := None) else s
    case Touch(now) => if s.meta.Some? then s.(meta := Some(now)) else s
    case Claim(run) => if s.meta.Some? then s.(live := Some(Some(run))) else s
    case Release => s.(live := if s.meta.Some? then Some(None) else None)
    case SetExecLock(x) => s.(execLock := Some(x))
  }

  function Lookup<V>(m: map<SandboxId, V>, s: SandboxId): Option<V> {
    if s in m then Some(m[s]) else None
  }

  class ResidentRunner {
    var sandboxes: map<SandboxId, int>
    var transports: map<SandboxId, TransportId>
    var locks: map<SandboxId, LockId>
    var liveRun: map<SandboxId, Option<RunId>>
    var execLocks: map<SandboxId, LockId>

    ghost function View(s: SandboxId): Slot
      reads this
    {
      Slot(Lookup(sandboxes, s), Lookup(transports, s), Lookup(locks, s), Lookup(liveRun, s), Lookup(execLocks, s))
    }

    /** Every transport has its write lock, and nothing outlives its sandbox. */
    ghost predicate KeysAgree()
      reads this
    {
      transports.Keys == locks.Keys <= sandboxes.Keys && liveRun.Keys <= sandboxes.Keys
    }

    /** The maps agree exactly when the entries of each sandbox do. */
    lemma KeysAgreeIff()
      ensures KeysAgree() <==> forall s :: SlotOk(View(s))
    {
      assert forall s :: SlotOk(View(s)) <==> (s in transports <==> s in locks)
                                              && (s in transports || s in liveRun ==> s in sandboxes);
      if forall s :: SlotOk(View(s)) {
        forall s ensures (s in transports.Keys <==> s in locks.Keys)
                         && (s in transports.Keys || s in liveRun.Keys ==> s in sandboxes.Keys)
        {
          assert SlotOk(View(s));
        }
      }
    }

    /** The section changed the entries of `s` as `op` says, and no other sandbox's. */
    twostate predicate Stepped(s: SandboxId, op: Op)
      reads this
    {
      && View(s) == SlotStep(old(View(s)), op)
      && forall o :: o != s ==> View(o) == old(View(o))
    }

    constructor ()
      ensures KeysAgree() && forall s :: View(s) == EMPTY
    {
      sandboxes, transports, locks, liveRun, execLocks := map[], map[], map[], map[], map[];
    }

    method Enter(s: SandboxId, now: int)
      modifies this
      ensures Stepped(s, Create(now))
      ensures old(KeysAgree()) ==> KeysAgree()
    {
      sandboxes := sandboxes[s := now];
    }

    /** `_register` as `create` calls it: without looking whether the sandbox is still there. */
    method RegisterFresh(s: SandboxId, t: TransportId, l: LockId, x: LockId)
      modifies this
      ensures Stepped(s, Op.RegisterFresh(t, l, x))
      ensures old(KeysAgree()) ==> (KeysAgree() <==> s in old(sandboxes))
    {
      transports, locks := transports[s := t], locks[s := l];
      liveRun, execLocks := liveRun[s := None], execLocks[s := x];
    }

    /** The locked section of `_respawn`. */
    method RegisterRespawn(s: SandboxId, t: TransportId, l: LockId) returns (vanished: bool)
      modifies this
      ensures Stepped(s, Op.RegisterRespawn(t, l))
      ensures vanished <==> s !in old(sandboxes)
      ensures old(KeysAgree()) ==> KeysAgree()
    {
      vanished := s !in sandboxes;
      if !vanished { transports, locks := transports[s := t], locks[s := l]; }
    }

    method Detach(s: SandboxId) returns (transport: Option<TransportId>)
      modifies this
      ensures Stepped(s, Op.Detach)
      ensures transport == old(View(s)).transport
      ensures old(KeysAgree()) ==> KeysAgree()
    {
      transport := Lookup(transports, s);
      sandboxes, transports, locks := sandboxes - {s}, transports - {s}, locks - {s};
      liveRun, execLocks := liveRun - {s}, execLocks - {s};
    }

    method DetachIfIdle(s: SandboxId, ttl: int, now: int) returns (detached: bool)
      modifies this
      ensures Stepped(s, Op.DetachIfIdle(ttl, now))
      ensures detached <==> IdleAndStale(old(View(s)), ttl, now)
      ensures old(KeysAgree()) ==> KeysAgree()
    {
      detached := s in sandboxes && (s in liveRun ==> liveRun[s].None?) && now - sandboxes[s] > ttl;
      if detached { var _ := Detach(s); }
    }

    method DetachIfRunning(s: SandboxId, run: RunId) returns (detached: bool)
      modifies this
      ensures Stepped(s, Op.DetachIfRunning(run))
      ensures detached <==> Running(old(View(s)), run)
      ensures old(KeysAgree()) ==> KeysAgree()
    {
      detached := s in sandboxes && s in liveRun && liveRun[s] == Some(run);
      if detached { var _ := Detach(s); }
    }

    /** The locked section of `_retire_transport`, guarded on identity. */
    method RetireTransport(s: SandboxId, t: TransportId)
      modifies this
      ensures Stepped(s, Retire(t))
      ensures old(KeysAgree()) ==> KeysAgree()
    {
      if Lookup(transports, s) == Some(t) { transports, locks := transports - {s}, locks - {s}; }
    }

    method Touch(s: SandboxId, now: int)
      modifies this
      ensures Stepped(s, Op.Touch(now))
      ensures old(KeysAgree()) ==> KeysAgree()
    {
      if s in sandboxes { sandboxes := sandboxes[s := now]; }
    }

    method ClaimLiveRun(s: SandboxId, run: RunId) returns (found: bool)
      modifies this
      ensures Stepped(s, Claim(run))
      ensures found <==> s in old(sandboxes)
      ensures old(KeysAgree()) ==> KeysAgree()
    {
      found := s in sandboxes;
      if found { liveRun := liveRun[s := Some(run)]; }
    }

    method ReleaseLiveRun(s: SandboxId)
      modifies this
      ensures Stepped(s, Release)
      ensures old(KeysAgree()) ==> KeysAgree()
    {
      if s in sandboxes { liveRun := liveRun[s := None]; } else { liveRun := liveRun - {s}; }
    }

    /** The exec lock `exec_run` makes when it found none: without a second look. */
    method SetExecLock(s: SandboxId, x: LockId)
      modifies this
      ensures Stepped(s, Op.SetExecLock(x))
      ensures old(KeysAgree()) ==> KeysAgree()
    {
      execLocks := execLocks[s := x];
    }

    /** A sweep with no other thread in between: it destroys exactly the sandboxes that are stale
        and run nothing, and leaves the others alone. */
    method ReapIdle(ttl: int, now: int) returns (destroyed: set<SandboxId>)
      modifies this
      ensures forall s :: s in destroyed <==> IdleAndStale(old(View(s)), ttl, now)
      ensures forall s :: View(s) == if s in destroyed then EMPTY else old(View(s))
      ensures old(KeysAgree()) ==> KeysAgree()
    {
      var candidates := sandboxes.Keys;
      destroyed := {};
      while candidates != {}
        invariant forall s :: View(s) == if s in destroyed then EMPTY else old(View(s))
        invariant forall s :: s in destroyed ==> s !in candidates && IdleAndStale(old(View(s)), ttl, now)
        invariant forall s :: s !in destroyed && s !in candidates ==> !IdleAndStale(old(View(s)), ttl, now)
        invariant old(KeysAgree()) ==> KeysAgree()
        decreases |candidates|
      {
        var s :| s in candidates;
        candidates := candidates - {s};
        var detached := DetachIfIdle(s, ttl, now);
        if detached { destroyed := destroyed + {s}; }
      }
    }
  }

  // -- the registry invariant over every sequence of sections ---------------------------

  /** `KeysAgree`, one sandbox at a time. */
  predicate SlotOk(s: Slot) {
    && s.transport.Some? == s.lock.Some?
    && (s.transport.Some? || s.live.Some? ==> s.meta.Some?)
  }

  function SlotRun(s: Slot, ops: seq<Op>): Slot
    decreases |ops|
  {
    if ops == [] then s else SlotStep(SlotRun(s, ops[..|ops| - 1]), ops[|ops| - 1])
  }

  /** `create` finds its sandbox still there whenever it registers the spawned transport. */
  predicate CreatesUndisturbed(s: Slot, ops: seq<Op>)
    decreases |ops|
  {
    ops == [] ||
    var init, op := ops[..|ops| - 1], ops[|ops| - 1];
    CreatesUndisturbed(s, init) && (op.RegisterFresh? ==> SlotRun(s, init).meta.Some?)
  }

  /** The maps agree about the sandbox now and at every earlier moment. */
  predicate AlwaysOk(s: Slot, ops: seq<Op>)
    decreases |ops|
  {
    SlotOk(SlotRun(s, ops)) && (ops != [] ==> AlwaysOk(s, ops[..|ops| - 1]))
  }

  lemma StepKeepsSlotOkIff(s: Slot, op: Op)
    requires SlotOk(s)
    ensures SlotOk(SlotStep(s, op)) <==> (op.RegisterFresh? ==> s.meta.Some?)
  {
  }

  /** At every moment of every interleaving the maps agree about the sandbox, exactly when no
      removal slips between the two sections of `create`. */
  lemma {:induction false} RegistryInvariantIff(s: Slot, ops: seq<Op>)
    requires SlotOk(s)
    ensures AlwaysOk(s, ops) <==> CreatesUndisturbed(s, ops)
    decreases |ops|
  {
    if ops != [] {
      var init := ops[..|ops| - 1];
      RegistryInvariantIff(s, init);
      if AlwaysOk(s, init) { StepKeepsSlotOkIff(SlotRun(s, init), ops[|ops| - 1]); }
    }
  }

  /** What a disturbed `create` leaves behind stays: no sweep, escalation, claim, release or
      respawn removes the orphaned transport, since they all look for the sandbox first. */
  lemma {:induction false} OrphanStays(s: Slot, ops: seq<Op>)
    requires s.meta.None? && s.transport.Some?
    requires forall op :: op in ops ==> op.DetachIfIdle? || op.DetachIfRunning? || op.Touch? || op.Claim? || op.Release?
                                        || op.RegisterRespawn? || op.SetExecLock?
    ensures SlotRun(s, ops).meta.None? && SlotRun(s, ops).transport == s.transport
    decreases |ops|
  {
    if ops != [] {
      assert ops[|ops| - 1] in ops;
      OrphanStays(s, ops[..|ops| - 1]);
    }
  }

  /** The sections that take the claim of `run` away. */
  predicate EndsClaim(op: Op, run: RunId) {
    op.Release? || op.Detach? || op == DetachIfRunning(run) || op.RegisterFresh? || (op.Claim? && op.run != run)
  }

  lemma ClaimKeptIff(s: Slot, run: RunId, op: Op)
    requires s.meta.Some? && s.live == Some(Some(run))
    ensures var s' := SlotStep(s, op); (s'.meta.Some? && s'.live == s.live) <==> !EndsClaim(op, run)
  {
  }

  predicate Claimed(s: Slot, run: RunId) {
    s.meta.Some? && s.live == Some(Some(run))
  }

  /** Claimed at every moment of a sequence of sections. */
  predicate AlwaysClaimed(s: Slot, run: RunId, ops: seq<Op>)
    decreases |ops|
  {
    Claimed(SlotRun(s, ops), run) && (ops != [] ==> AlwaysClaimed(s, run, ops[..|ops| - 1]))
  }

  /** Over any sequence of sections a claimed sandbox stays claimed throughout, exactly when none
      of them is the release, another claim, an unconditional destroy, the escalation of that very
      run or a second `create` registration; sweeps, retirements and other runs' escalations never
      take it. */
  lemma {:induction false} LiveRunIsShielded(s: Slot, run: RunId, ops: seq<Op>)
    requires Claimed(s, run)
    ensures AlwaysClaimed(s, run, ops) <==> forall op :: op in ops ==> !EndsClaim(op, run)
    decreases |ops|
  {
    if ops != [] {
      var init, op := ops[..|ops| - 1], ops[|ops| - 1];
      LiveRunIsShielded(s, run, init);
      assert ops == init + [op];
      if AlwaysClaimed(s, run, init) { ClaimKeptIff(SlotRun(s, init), run, op); }
      hide EndsClaim, SlotStep;
    }
  }
}
