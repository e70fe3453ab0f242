/** Every step inside the exec lock, and everything the environment does meanwhile, keeps the
    handshake and live-run invariants. */
module ExecInvariant {
  import opened Wrappers
  import opened Registry
  import opened ExecSteps

  predicate Inside(d: Data, run: RunId, pc: Pc) {
    SlotOk(d.slot) && LiveOk(d, Some((run, pc))) && PcOk(d, pc)
  }

  predicate Looking(pc: Pc) {
    pc.Fetch? || pc.Inspect? || pc.Ping?
  }

  predicate Shaking(pc: Pc) {
    pc.Read? || pc.Accept?
  }

  predicate Retiring(pc: Pc) {
    pc.RetireReg? || pc.RetireMeta?
  }

  lemma LookingKeepsPcOk(d: Data, run: RunId, pc: Pc, a: Answer)
    requires Looking(pc) && Inside(d, run, pc) && PrepareStep(d, pc, a).Some?
    ensures PcOk(PrepareStep(d, pc, a).value.0, PrepareStep(d, pc, a).value.1)
  {
  }

  lemma ShakingKeepsPcOk(d: Data, run: RunId, pc: Pc, a: Answer)
    requires Shaking(pc) && Inside(d, run, pc) && PrepareStep(d, pc, a).Some?
    ensures PcOk(PrepareStep(d, pc, a).value.0, PrepareStep(d, pc, a).value.1)
  {
  }

  lemma RetiringKeepsPcOk(d: Data, run: RunId, pc: Pc, a: Answer)
    requires Retiring(pc) && Inside(d, run, pc) && PrepareStep(d, pc, a).Some?
    ensures PcOk(PrepareStep(d, pc, a).value.0, PrepareStep(d, pc, a).value.1)
  {
  }

  lemma RespawningKeepsPcOk(d: Data, run: RunId, pc: Pc, a: Answer)
    requires !Looking(pc) && !Shaking(pc) && !Retiring(pc) && Inside(d, run, pc) && PrepareStep(d, pc, a).Some?
    ensures PcOk(PrepareStep(d, pc, a).value.0, PrepareStep(d, pc, a).value.1)
  {
  }

  lemma PrepareKeepsPcOk(d: Data, run: RunId, pc: Pc, a: Answer)
    requires Inside(d, run, pc) && PrepareStep(d, pc, a).Some?
    ensures PcOk(PrepareStep(d, pc, a).value.0, PrepareStep(d, pc, a).value.1)
  {
    hide PrepareStep, PcOk, Inside;
    if Looking(pc) {
      LookingKeepsPcOk(d, run, pc, a);
    } else if Shaking(pc) {
      ShakingKeepsPcOk(d, run, pc, a);
    } else if Retiring(pc) {
      RetiringKeepsPcOk(d, run, pc, a);
    } else {
      RespawningKeepsPcOk(d, run, pc, a);
    }
  }

  predicate Opening(pc: Pc) {
    pc.Check? || pc.Touching? || pc.Greet? || pc.AwaitHello?
  }

  lemma OpeningKeepsPcOk(d: Data, run: RunId, pc: Pc, a: Answer)
    requires Opening(pc) && Inside(d, run, pc) && RunStep(d, run, pc, a).Some?
    ensures PcOk(RunStep(d, run, pc, a).value.0, RunStep(d, run, pc, a).value.1)
  {
  }

  lemma RunningKeepsPcOk(d: Data, run: RunId, pc: Pc, a: Answer)
    requires !Opening(pc) && Inside(d, run, pc) && RunStep(d, run, pc, a).Some?
    ensures PcOk(RunStep(d, run, pc, a).value.0, RunStep(d, run, pc, a).value.1)
  {
  }

  lemma RunKeepsPcOk(d: Data, run: RunId, pc: Pc, a: Answer)
    requires Inside(d, run, pc) && RunStep(d, run, pc, a).Some?
    ensures PcOk(RunStep(d, run, pc, a).value.0, RunStep(d, run, pc, a).value.1)
  {
    hide RunStep, PcOk, Inside;
    if Opening(pc) { OpeningKeepsPcOk(d, run, pc, a); } else { RunningKeepsPcOk(d, run, pc, a); }
  }

  lemma PrepareKeepsLive(d: Data, run: RunId, pc: Pc, a: Answer)
    requires Inside(d, run, pc) && PrepareStep(d, pc, a).Some?
    ensures var (d', pc') := PrepareStep(d, pc, a).value; SlotOk(d'.slot) && LiveOk(d', Some((run, pc')))
  {
  }

  lemma RunKeepsLive(d: Data, run: RunId, pc: Pc, a: Answer)
    requires Inside(d, run, pc) && RunStep(d, run, pc, a).Some?
    ensures var (d', pc') := RunStep(d, run, pc, a).value; SlotOk(d'.slot) && LiveOk(d', Some((run, pc')))
  {
  }

  lemma PrepareKeepsHonoured(d: Data, run: RunId, pc: Pc, a: Answer)
    requires Inside(d, run, pc) && PrepareStep(d, pc, a).Some? && TransportsHonoured(d)
    ensures TransportsHonoured(PrepareStep(d, pc, a).value.0)
  {
  }

  lemma RunKeepsHonoured(d: Data, run: RunId, pc: Pc, a: Answer)
    requires Inside(d, run, pc) && RunStep(d, run, pc, a).Some? && TransportsHonoured(d)
    ensures TransportsHonoured(RunStep(d, run, pc, a).value.0)
  {
  }

  lemma PrepareKeepsOwner(d: Data, run: RunId, pc: Pc, a: Answer, t: TransportId)
    requires Inside(d, run, pc) && PrepareStep(d, pc, a).Some? && NoneLost(d, Held(pc))
    ensures var (d', pc') := PrepareStep(d, pc, a).value; Owned(d', Held(pc'), t)
  {
    assert t < |d.ts| ==> Owned(d, Held(pc), t);
  }

  lemma RunKeepsOwner(d: Data, run: RunId, pc: Pc, a: Answer, t: TransportId)
    requires Inside(d, run, pc) && RunStep(d, run, pc, a).Some? && NoneLost(d, Held(pc))
    ensures var (d', pc') := RunStep(d, run, pc, a).value; Owned(d', Held(pc'), t)
  {
    assert t < |d.ts| ==> Owned(d, Held(pc), t);
  }

  lemma ActKeepsInv(d: Data, run: RunId, pc: Pc, a: Answer)
    requires DataInv(d, Some((run, pc))) && Act(d, run, pc, a).Some?
    ensures DataInv(Act(d, run, pc, a).value.0, Some((run, Act(d, run, pc, a).value.1)))
  {
    if PrepareStep(d, pc, a).Some? {
      PrepareKeepsPcOk(d, run, pc, a);
      PrepareKeepsLive(d, run, pc, a);
      PrepareKeepsHonoured(d, run, pc, a);
      forall t ensures Owned(PrepareStep(d, pc, a).value.0, Held(PrepareStep(d, pc, a).value.1), t) {
        PrepareKeepsOwner(d, run, pc, a, t);
      }
    } else {
      RunKeepsPcOk(d, run, pc, a);
      RunKeepsLive(d, run, pc, a);
      RunKeepsHonoured(d, run, pc, a);
      forall t ensures Owned(RunStep(d, run, pc, a).value.0, Held(RunStep(d, run, pc, a).value.1), t) {
        RunKeepsOwner(d, run, pc, a, t);
      }
    }
    hide PrepareStep, RunStep, Owned, Held, PcOk, LiveOk, SlotOk, TransportsHonoured;
  }

  /** What other threads do to the sandbox: a destroy, a sweep, an escalation, a touch, a crash. */
  datatype Env = Other(op: Op) | Die(t: TransportId)

  predicate EnvMay(e: Env) {
    e.Die? || e.op.Detach? || e.op.DetachIfIdle? || e.op.DetachIfRunning? || e.op.Touch?
  }

  function EnvStep(d: Data, e: Env): Data {
    match e
    case Other(op) => Removal(d, op)
    case Die(t) => Close(d, t)
  }

  /** The transport an exec is working on. */
  function Subject(pc: Pc): Option<TransportId> {
    match pc
    case Inspect(found) => found
    case Check => None
    case Fetch => None
    case Spawn => None
    case DropLeftovers => None
    case Releasing(_) => None
    case Leave(_) => None
    case _ => Some(pc.t)
  }

  /** What is known about transport t in one state is still true in the other. */
  predicate FactsKept(d: Data, d': Data, t: TransportId) {
    && (Has(d, t) ==> Has(d', t) && d'.ts[t] == d.ts[t].(alive := d'.ts[t].alive))
    && (Alive(d', t) ==> Alive(d, t))
    && (Untouched(d, t) ==> Untouched(d', t))
    && (Announced(d, t) ==> Announced(d', t))
    && (Prepared(d, t) ==> Prepared(d', t))
    && (Described(d, t) ==> Described(d', t))
    && (Attached(d, t) ==> Attached(d', t))
  }

  lemma EnvKeepsFacts(d: Data, e: Env, t: TransportId)
    requires SlotOk(d.slot) && EnvMay(e)
    ensures FactsKept(d, EnvStep(d, e), t)
  {
  }

  lemma EnvKeepsRegistered(d: Data, e: Env)
    requires SlotOk(d.slot) && EnvMay(e)
    ensures var d' := EnvStep(d, e);
            && (d'.slot == d.slot || d'.slot == EMPTY || d'.slot == d.slot.(meta := d'.slot.meta))
            && d'.meta == d.meta && (d'.slot.meta.Some? ==> d.slot.meta.Some?)
            && (Ungreeted(d) ==> Ungreeted(d'))
            && (RegisteredIsDead(d) ==> RegisteredIsDead(d'))
            && (RegisteredIsDescribed(d) ==> RegisteredIsDescribed(d'))
  {
    if d.slot.transport.Some? { EnvKeepsFacts(d, e, d.slot.transport.value); }
    hide Described;
  }

  lemma EnvKeepsPcOk(d: Data, run: RunId, pc: Pc, e: Env)
    requires Inside(d, run, pc) && EnvMay(e)
    ensures PcOk(EnvStep(d, e), pc)
  {
    EnvKeepsRegistered(d, e);
    if Subject(pc).Some? { EnvKeepsFacts(d, e, Subject(pc).value); }
    hide EnvStep, EnvMay, Alive, RegisteredIsDead, RegisteredIsDescribed, Ungreeted, Described, Attached, LiveOk;
  }

  lemma EnvKeepsLive(d: Data, inside: Option<(RunId, Pc)>, e: Env)
    requires SlotOk(d.slot) && LiveOk(d, inside) && EnvMay(e)
    ensures SlotOk(EnvStep(d, e).slot) && LiveOk(EnvStep(d, e), inside)
  {
  }

  lemma EnvKeepsOwner(d: Data, held: set<TransportId>, e: Env, t: TransportId)
    requires NoneLost(d, held) && EnvMay(e)
    ensures Owned(EnvStep(d, e), held, t)
  {
    assert t < |d.ts| ==> Owned(d, held, t);
  }

  lemma EnvKeepsInv(d: Data, inside: Option<(RunId, Pc)>, e: Env)
    requires DataInv(d, inside) && EnvMay(e)
    ensures DataInv(EnvStep(d, e), inside)
  {
    EnvKeepsLive(d, inside, e);
    if inside.Some? { EnvKeepsPcOk(d, inside.value.0, inside.value.1, e); }
    forall t ensures Owned(EnvStep(d, e), HeldBy(inside), t) {
      EnvKeepsOwner(d, HeldBy(inside), e, t);
    }
    hide LiveOk, PcOk, SlotOk, Owned, HeldBy;
  }
}
