/** What one exec does to a sandbox while it holds the sandbox's exec lock
    (app/controllers/runner.py: `_exec_run_locked`, `_prepare_transport`, `_respawn`,
    `_retire_transport`, `_negotiate`), one step per locked section, transport call or write to
    the shared `meta` dictionary.  Between two steps the environment may destroy the sandbox or
    kill a transport. */
module ExecSteps {
  import opened Wrappers
  import opened Registry

  datatype Capability = CapHello | CapOpId | OtherCapability(name: string)

  const SUPPORTED_PROTOCOL_VERSIONS: set<int> := {1}

  datatype Handshake = Handshake(protocolVersion: int, capabilities: set<Capability>)

  predicate Supported(h: Handshake) {
    h.protocolVersion in SUPPORTED_PROTOCOL_VERSIONS
  }

  /** A submit line: its run, whether it carried an `op_id`, and the handshake on record. */
  datatype Submit = Submit(run: RunId, tagged: bool, recorded: Option<Handshake>)

  /** A hello line, and whether it carried an `op_id`. */
  datatype Hello = Hello(tagged: bool)

  /** A spawned harness process.  `ready`: its one ready line, once read; then what was sent to it,
      or tried to be. */
  datatype Transport = Transport(alive: bool, ready: Option<Handshake>, hellos: seq<Hello>, submits: seq<Submit>)

  const SPAWNED := Transport(true, None, [], [])

  /** The fields of the `meta` dictionary written outside the lock. */
  datatype Meta = Meta(readyOk: bool, greeted: bool, handshake: Option<Handshake>)

  /** `probing`: whether `probe_timeout` is positive.  `closing`: transports that a destroy has
      taken out of the registry and is about to close.  `replacedDead`: whether an exec has ever
      found the registered transport dead and respawned over it. */
  datatype Data = Data(slot: Slot, meta: Meta, ts: seq<Transport>, probing: bool,
                       closing: set<TransportId>, replacedDead: bool)

  datatype Outcome = Busy | Gone | Failed | Finished

  datatype Pc =
    | Check
    | Fetch
    | Inspect(found: Option<TransportId>)
    | Ping(t: TransportId)
    | Read(t: TransportId, respawned: bool)
    | Accept(t: TransportId, h: Handshake, respawned: bool)
    | RetireReg(t: TransportId, respawn: bool)
    | RetireMeta(t: TransportId, respawn: bool)
    | Spawn
    | Register(t: TransportId)
    | Vanish(t: TransportId)
    | DropLeftovers
    | MarkReady(t: TransportId)
    | Touching(t: TransportId)
    | Greet(t: TransportId)
    | AwaitHello(t: TransportId)
    | Claiming(t: TransportId)
    | Tag(t: TransportId)
    | Send(t: TransportId, tagged: bool)
    | Pump(t: TransportId)
    | Releasing(o: Outcome)
    | Leave(o: Outcome)

  /** What the world answers: a call succeeded or not, a ready line arrived, the clock.  `Raise`: a
      line whose type cannot be hashed, or one nested too deeply, makes `_await_line` raise. */
  datatype Answer = Yes | No | Raise | ReadyLine(h: Handshake) | At(now: int)

  predicate Has(d: Data, t: TransportId) {
    t < |d.ts|
  }

  predicate Alive(d: Data, t: TransportId) {
    Has(d, t) && d.ts[t].alive
  }

  function Section(d: Data, op: Op): Data {
    d.(slot := SlotStep(d.slot, op))
  }

  /** A section that may remove the sandbox hands its transport to the remover. */
  function Removal(d: Data, op: Op): Data {
    var d' := Section(d, op);
    if d.slot.transport.Some? && d'.slot.transport.None?
    then d'.(closing := d.closing + {d.slot.transport.value})
    else d'
  }

  function Update(d: Data, t: TransportId, tr: Transport): Data
    requires Has(d, t)
  {
    d.(ts := d.ts[t := tr])
  }

  function Close(d: Data, t: TransportId): Data {
    if Has(d, t) then Update(d, t, d.ts[t].(alive := false)) else d
  }

  /** What `ping` may do, given that it looks the transport up again. */
  predicate PingMay(d: Data, a: Answer) {
    if !d.probing || LiveRun(d.slot).Some? then a.Yes?
    else a.Yes? || a.Raise? ==> d.slot.transport.Some? && Alive(d, d.slot.transport.value)
  }

  /** `capabilities`: empty once the sandbox is gone. */
  function Capabilities(d: Data): set<Capability> {
    if d.slot.meta.Some? && d.meta.handshake.Some? then d.meta.handshake.value.capabilities else {}
  }

  function Accepted(d: Data, t: TransportId, h: Handshake, respawned: bool): (Data, Pc) {
    var d' := d.(meta := d.meta.(handshake := Some(h)));
    if !Supported(h) then (d', RetireReg(t, false))
    else if respawned then (d', Register(t))
    else (d'.(meta := d'.meta.(readyOk := true)), Touching(t))
  }

  /** `_negotiate`: unlike a submit, the hello is tagged without asking `capabilities`. */
  function Greeted(d: Data, t: TransportId): (Data, Pc)
    requires Has(d, t)
  {
    if d.meta.greeted || d.meta.handshake.None? || CapHello !in d.meta.handshake.value.capabilities
    then (d, Claiming(t))
    else
      var tr := d.ts[t].(hellos := d.ts[t].hellos + [Hello(true)]);
      (Update(d.(meta := d.meta.(greeted := true)), t, tr), AwaitHello(t))
  }

  function Sent(d: Data, run: RunId, t: TransportId, tagged: bool): Data
    requires Has(d, t)
  {
    Update(d, t, d.ts[t].(submits := d.ts[t].submits + [Submit(run, tagged, d.meta.handshake)]))
  }

  /** `_prepare_transport` and `_respawn`. */
  function PrepareStep(d: Data, pc: Pc, a: Answer): Option<(Data, Pc)> {
    match pc
    case Fetch => Some((d, Inspect(d.slot.transport)))
    case Inspect(found) =>
      Some(if found.None? then (d, Spawn)
           else if !Alive(d, found.value) then (d.(replacedDead := true), Spawn)
           else if !d.meta.readyOk then (d, Read(found.value, false))
           else (d, Ping(found.value)))
    case Ping(t) =>
      if !PingMay(d, a) then None
      else Some((d, if a.Yes? then Touching(t) else if a.Raise? then Leave(Failed) else RetireReg(t, true)))
    case Read(t, respawned) =>
      if !Has(d, t) then None
      else if a.ReadyLine? && d.ts[t].ready.None?
      then Some((Update(d, t, d.ts[t].(ready := Some(a.h))), Accept(t, a.h, respawned)))
      else Some((d, Leave(Failed)))
    case Accept(t, h, respawned) => Some(Accepted(d, t, h, respawned))
    case RetireReg(t, respawn) => Some((Section(d, Retire(t)), RetireMeta(t, respawn)))
    case RetireMeta(t, respawn) =>
      Some((Close(d.(meta := d.meta.(readyOk := false, greeted := false)), t),
            if respawn then Spawn else Leave(Failed)))
    case Spawn =>
      if a.Yes? then Some((d.(ts := d.ts + [SPAWNED]), Read(|d.ts|, true))) else Some((d, Leave(Failed)))
    case Register(t) =>
      Some((Section(d, RegisterRespawn(t, t)), if d.slot.meta.Some? then MarkReady(t) else Vanish(t)))
    case Vanish(t) => Some((Close(d, t), DropLeftovers))
    case DropLeftovers => Some((Removal(d, Detach), Leave(Gone)))
    case MarkReady(t) => Some((d.(meta := d.meta.(readyOk := true)), Touching(t)))
    case _ => None
  }

  /** The rest of `_exec_run_locked`. */
  function RunStep(d: Data, run: RunId, pc: Pc, a: Answer): Option<(Data, Pc)> {
    match pc
    case Check => Some((d, if LiveRun(d.slot).Some? then Leave(Busy) else Fetch))
    case Touching(t) => if a.At? then Some((Section(d, Touch(a.now)), Greet(t))) else None
    case Greet(t) => if Has(d, t) then Some(Greeted(d, t)) else None
    case AwaitHello(t) =>
      Some((d, if a.No? then RetireReg(t, false) else if a.Raise? then Leave(Failed) else Claiming(t)))
    case Claiming(t) => Some((Section(d, Claim(run)), if d.slot.meta.Some? then Tag(t) else Leave(Gone)))
    case Tag(t) => Some((d, Send(t, CapOpId in Capabilities(d))))
    case Send(t, tagged) =>
      if Alive(d, t) && a.Yes? then Some((Sent(d, run, t, tagged), Pump(t))) else Some((d, Releasing(Failed)))
    case Pump(t) => Some((d, Releasing(if a.Yes? then Finished else Failed)))
    case Releasing(o) => Some((Section(d, Release), Leave(o)))
    case _ => None
  }

  function Act(d: Data, run: RunId, pc: Pc, a: Answer): Option<(Data, Pc)> {
    if PrepareStep(d, pc, a).Some? then PrepareStep(d, pc, a) else RunStep(d, run, pc, a)
  }

  // -- what the steps keep ------------------------------------------------------------

  /** What the host owes every transport, at every moment of its life: at most one hello, and
      only to a build that advertised it; every submit after its own ready line was read, carried
      a supported version and is the handshake on record; an `op_id` only where advertised. */
  ghost predicate Honoured(t: Transport) {
    && (forall h :: h in t.hellos ==> h.tagged)
    && |t.hellos| <= 1
    && (t.hellos != [] ==> t.ready.Some? && CapHello in t.ready.value.capabilities)
    && forall sub :: sub in t.submits ==>
         && t.ready.Some? && sub.recorded == t.ready && Supported(t.ready.value)
         && (sub.tagged ==> CapOpId in t.ready.value.capabilities)
  }

  /** The sandbox exists and none of its transports was replaced after being found dead. */
  predicate Unbroken(d: Data) {
    d.slot.meta.Some? && !d.replacedDead
  }

  predicate Ungreeted(d: Data) {
    Unbroken(d) ==> !d.meta.greeted
  }

  /** Some line to t carried an `op_id` that its build did not advertise. */
  ghost predicate UnaskedTag(t: Transport) {
    (t.ready.Some? ==> CapOpId !in t.ready.value.capabilities)
    && ((exists h :: h in t.hellos && h.tagged) || (exists sub :: sub in t.submits && sub.tagged))
  }

  /** The flags in `meta` describe transport t. */
  predicate Described(d: Data, t: TransportId) {
    Has(d, t) && if d.meta.readyOk then Prepared(d, t) else Untouched(d, t) && Ungreeted(d)
  }

  predicate Untouched(d: Data, t: TransportId) {
    Has(d, t) && d.ts[t].ready.None? && d.ts[t].hellos == []
  }

  predicate Announced(d: Data, t: TransportId) {
    Has(d, t) && d.ts[t].ready.Some? && d.meta.handshake == d.ts[t].ready && Supported(d.ts[t].ready.value)
  }

  predicate Prepared(d: Data, t: TransportId) {
    && d.meta.readyOk && Announced(d, t)
    && (!d.meta.greeted ==> d.ts[t].hellos == [])
    && (Unbroken(d) && d.meta.greeted ==> d.ts[t].hellos == [Hello(true)])
  }

  /** A build that takes hellos counts as greeted: it has been sent one, or an earlier build has
      (a respawn over a dead transport keeps the flag). */
  predicate Courteous(d: Data, t: TransportId)
    requires Announced(d, t)
  {
    CapHello in d.ts[t].ready.value.capabilities ==> d.meta.greeted
  }

  /** The submit carries an `op_id` just when the build advertised it, unless the sandbox is
      destroyed under the run: then it may go without. */
  predicate RightlyTagged(d: Data, t: TransportId, tagged: bool)
    requires Announced(d, t)
  {
    && (tagged ==> CapOpId in d.ts[t].ready.value.capabilities)
    && (d.slot.meta.Some? && CapOpId in d.ts[t].ready.value.capabilities ==> tagged)
  }

  /** t is registered, or was until a destroy took the sandbox away. */
  predicate Attached(d: Data, t: TransportId) {
    d.slot.transport == Some(t) || (d.slot.meta.None? && t in d.closing)
  }

  predicate RegisteredIsDead(d: Data) {
    d.slot.transport.Some? ==> Has(d, d.slot.transport.value) && !Alive(d, d.slot.transport.value)
  }

  predicate RegisteredIsDescribed(d: Data) {
    if d.slot.transport.None? then Ungreeted(d)
    else
      && Has(d, d.slot.transport.value)
      && (Alive(d, d.slot.transport.value) ==> Described(d, d.slot.transport.value))
  }

  predicate Unregistered(d: Data, t: TransportId) {
    RegisteredIsDead(d) && d.slot.transport != Some(t)
  }

  predicate PcOk(d: Data, pc: Pc) {
    match pc
    case Check => RegisteredIsDescribed(d)
    case Fetch => RegisteredIsDescribed(d)
    case Inspect(found) =>
      RegisteredIsDescribed(d) &&
      (match found
       case None => d.slot.transport.None?
       case Some(t) => Has(d, t) && Attached(d, t) && (Alive(d, t) ==> Described(d, t)))
    case Ping(t) => Prepared(d, t) && Attached(d, t)
    case Read(t, respawned) =>
      Untouched(d, t) && Ungreeted(d) && if respawned then Unregistered(d, t) else Attached(d, t) && !d.meta.readyOk
    case Accept(t, h, respawned) =>
      Has(d, t) && d.ts[t].ready == Some(h) && d.ts[t].hellos == [] && Ungreeted(d)
      && if respawned then Unregistered(d, t) else Attached(d, t)
    case RetireReg(t, _) => Has(d, t) && (Attached(d, t) || RegisteredIsDead(d))
    case RetireMeta(t, _) => Has(d, t) && RegisteredIsDead(d)
    case Spawn => RegisteredIsDead(d) && Ungreeted(d)
    case Register(t) => Announced(d, t) && d.ts[t].hellos == [] && Ungreeted(d) && RegisteredIsDead(d)
    case Vanish(t) => d.slot.transport.None?
    case DropLeftovers => d.slot.transport.None?
    case MarkReady(t) => Announced(d, t) && d.ts[t].hellos == [] && Ungreeted(d) && Attached(d, t)
    case Touching(t) => Prepared(d, t) && Attached(d, t)
    case Greet(t) => Prepared(d, t) && Attached(d, t)
    case AwaitHello(t) => Prepared(d, t) && Attached(d, t) && Courteous(d, t)
    case Claiming(t) => Prepared(d, t) && Attached(d, t) && Courteous(d, t)
    case Tag(t) => Prepared(d, t) && Attached(d, t) && Courteous(d, t)
    case Send(t, tagged) =>
      Prepared(d, t) && Attached(d, t) && Courteous(d, t) && RightlyTagged(d, t, tagged)
    case Pump(t) => Prepared(d, t) && Attached(d, t) && Courteous(d, t)
    case Releasing(o) => RegisteredIsDescribed(d) && !o.Busy?
    case Leave(o) => RegisteredIsDescribed(d) && !o.Busy?
  }

  predicate HoldsLiveRun(pc: Pc) {
    pc.Tag? || pc.Send? || pc.Pump? || pc.Releasing?
  }

  /** The live-run slot names the exec inside, exactly while that exec holds the claim and the
      sandbox still exists. */
  predicate LiveOk(d: Data, inside: Option<(RunId, Pc)>) {
    LiveRun(d.slot) == if inside.Some? && HoldsLiveRun(inside.value.1) && d.slot.meta.Some?
                       then Some(inside.value.0) else None
  }

  /** The transport an exec holds although it is not (or no longer) registered. */
  function Held(pc: Pc): set<TransportId> {
    match pc
    case Read(t, respawned) => if respawned then {t} else {}
    case Accept(t, _, respawned) => if respawned then {t} else {}
    case RetireReg(t, _) => {t}
    case RetireMeta(t, _) => {t}
    case Register(t) => {t}
    case Vanish(t) => {t}
    case _ => {}
  }

  /** Every living process has an owner: the registry, a destroy that is closing it, or the exec
      inside; except one that was given up before it announced itself. */
  predicate Owned(d: Data, held: set<TransportId>, t: TransportId) {
    Alive(d, t) ==> d.slot.transport == Some(t) || t in d.closing || t in held || d.ts[t].ready.None?
  }

  function HeldBy(inside: Option<(RunId, Pc)>): set<TransportId> {
    match inside case None => {} case Some(rp) => Held(rp.1)
  }

  ghost predicate NoneLost(d: Data, held: set<TransportId>) {
    forall t :: 0 <= t < |d.ts| ==> Owned(d, held, t)
  }

  ghost predicate TransportsHonoured(d: Data) {
    forall t :: 0 <= t < |d.ts| ==> Honoured(d.ts[t])
  }

  ghost predicate DataInv(d: Data, inside: Option<(RunId, Pc)>) {
    && SlotOk(d.slot)
    && TransportsHonoured(d)
    && LiveOk(d, inside)
    && NoneLost(d, HeldBy(inside))
    && match inside
       case None => RegisteredIsDescribed(d)
       case Some(rp) => PcOk(d, rp.1)
  }
}
