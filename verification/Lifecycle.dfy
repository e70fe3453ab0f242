/** The life of a run row (app/controllers/manager.py, app/models/entities.py): the partial unique
    index that claims a conversation, the worker that finalizes the row, conversation deletion,
    crashes, and reconciliation when an instance starts. */
module Lifecycle {
  import opened Wrappers
  import Json
  import Protocol
  import Pump
  import Strings
  import Worker

  type RunId = nat
  type ConversationId = nat
  type InstanceId = nat

  const ORPHANED: ConversationId := 0   // cnv_orphaned

  datatype Status = Running | Ended(verdict: string)

  /** `writes` counts the terminal writes the row has had. */
  datatype Row = Row(conversation: ConversationId, status: Status, owner: Option<InstanceId>, cancelled: bool,
                     writes: nat)

  type Rows = map<RunId, Row>

  predicate RunningIn(rows: Rows, r: RunId, c: ConversationId) {
    r in rows && rows[r].conversation == c && rows[r].status.Running?
  }

  predicate Locked(rows: Rows, c: ConversationId) {
    exists r :: r in rows && RunningIn(rows, r, c)
  }

  /** The commit of a new row, which the index refuses while the conversation has a running one. */
  function Inserted(rows: Rows, r: RunId, c: ConversationId, i: InstanceId): Rows {
    if Locked(rows, c) then rows else rows[r := Row(c, Running, Some(i), false, 0)]
  }

  /** The row's `cancelled` as the terminal transaction finds it, if it finds a row. */
  function Loaded(rows: Rows, r: RunId): Option<bool> {
    if r in rows then Some(rows[r].cancelled) else None
  }

  /** The row as flushed: the session sends only the columns that changed since it was loaded. */
  function Flushed(row: Row, final: Worker.Row, loaded: bool): Row {
    row.(status := Ended(final.status), owner := None, writes := row.writes + 1,
         cancelled := if final.cancelled != loaded then final.cancelled else row.cancelled)
  }

  /** The terminal write: a row that was missing is replaced by a phantom one, and one deleted
      since it was loaded is not written. */
  function Terminated(rows: Rows, r: RunId, final: Worker.Row, loaded: Option<bool>): Rows {
    if loaded.None? then rows[r := Row(ORPHANED, Ended(final.status), None, final.cancelled, 1)]
    else if r in rows then rows[r := Flushed(rows[r], final, loaded.value)]
    else rows
  }

  /** `cancel_run` marks the row, whatever has become of it since the row was read. */
  function Marked(rows: Rows, r: RunId): Rows {
    if r in rows then rows[r := rows[r].(cancelled := true)] else rows
  }

  predicate OrphanedRow(row: Row, i: InstanceId) {
    row.status.Running? && (row.owner == Some(i) || row.owner.None?)
  }

  function Interrupted(row: Row): Row {
    row.(status := Ended("error"), owner := None, writes := row.writes + 1)
  }

  function Reconciled(rows: Rows, i: InstanceId): Rows {
    map r | r in rows :: if OrphanedRow(rows[r], i) then Interrupted(rows[r]) else rows[r]
  }

  class RunTable {
    var rows: Rows

    constructor ()
      ensures rows == map[]
    {
      rows := map[];
    }

    method Insert(r: RunId, c: ConversationId, i: InstanceId) returns (ok: bool)
      modifies this
      ensures ok <==> !Locked(old(rows), c)
      ensures rows == Inserted(old(rows), r, c, i)
    {
      ok := !Locked(rows, c);
      if ok { rows := rows[r := Row(c, Running, Some(i), false, 0)]; }
    }

    method Load(r: RunId) returns (loaded: Option<bool>)
      ensures loaded == Loaded(rows, r)
    {
      loaded := if r in rows then Some(rows[r].cancelled) else None;
    }

    method WriteTerminal(r: RunId, final: Worker.Row, loaded: Option<bool>) returns (ok: bool)
      modifies this
      ensures ok <==> loaded.None? || r in old(rows)
      ensures rows == Terminated(old(rows), r, final, loaded)
    {
      if loaded.None? {
        rows := rows[r := Row(ORPHANED, Running, None, false, 0)];
      } else if r !in rows {
        return false;
      }
      var row := rows[r].(status := Ended(final.status), owner := None, writes := rows[r].writes + 1);
      if loaded.None? || final.cancelled != loaded.value { row := row.(cancelled := final.cancelled); }
      rows := rows[r := row];
      return true;
    }

    /** `reconcile_orphaned_runs`: the UPDATE, row by row. */
    method Reconcile(i: InstanceId) returns (n: nat)
      modifies this
      ensures rows == Reconciled(old(rows), i)
      ensures n == |set r | r in old(rows) && OrphanedRow(old(rows)[r], i)|
    {
      var todo := rows.Keys;
      var freed: set<RunId> := {};
      while todo != {}
        invariant todo <= rows.Keys == old(rows).Keys
        invariant forall r :: r in todo ==> rows[r] == old(rows)[r]
        invariant forall r :: r in rows && r !in todo ==> rows[r] == Reconciled(old(rows), i)[r]
        invariant forall r :: r in freed <==> r in rows && r !in todo && OrphanedRow(old(rows)[r], i)
        decreases |todo|
      {
        var r :| r in todo;
        todo := todo - {r};
        if OrphanedRow(rows[r], i) {
          rows := rows[r := Interrupted(rows[r])];
          freed := freed + {r};
        }
      }
      assert freed == set r | r in old(rows) && OrphanedRow(old(rows)[r], i);
      n := |freed|;
    }
  }

  // -- runs, instances and the database, interleaved ---------------------------------------

  /** `Writing`: the terminal transaction is open, with what it loaded. */
  datatype Stage =
    | Building
    | Working
    | Finishing(f: Worker.Finish)
    | Writing(final: Worker.Row, loaded: Option<bool>)

  datatype Task = Task(instance: InstanceId, stage: Stage)

  /** `lost`: runs whose thread ended, or never started, without a terminal write.  `cancelling`: runs that a cancel
      request found running and has not marked yet.  `used`: run ids ever handed out. */
  datatype State = State(rows: Rows, tasks: map<RunId, Task>, up: set<InstanceId>, lost: set<RunId>,
                         cancelling: set<RunId>, used: set<RunId>)

  datatype Action =
    | StartRun(r: RunId, c: ConversationId, i: InstanceId)
    | SandboxReady(r: RunId)
    | SandboxUnavailable(r: RunId, reason: string)
    | WorkerReturns(r: RunId, end: Worker.ExecEnd, overspent: bool)
    | ThreadFails(r: RunId)         // `thread.start` raises
    | Load(r: RunId)                // the terminal transaction reads the row (or never gets there)
    | Commit(r: RunId)
    | CommitFails(r: RunId)
    | CancelReads(r: RunId)         // `cancel_run` finds the row running
    | CancelMarks(r: RunId)         // ... and commits `cancelled`
    | DeleteConversation(c: ConversationId)
    | Crash(i: InstanceId)
    | StartInstance(i: InstanceId)  // reconciles before serving

  predicate AtStage(s: State, r: RunId, stage: Stage) {
    r in s.tasks && s.tasks[r].stage == stage
  }

  function SetStage(s: State, r: RunId, stage: Stage): State
    requires r in s.tasks
  {
    s.(tasks := s.tasks[r := s.tasks[r].(stage := stage)])
  }

  /** The failure before any worker exists goes through `_finish_run` too. */
  function SandboxFailure(lib: Json.Library, reason: string): Worker.Finish {
    Worker.FinishRun(lib, Protocol.FRESH.(errors := ["sandbox unavailable: " + reason]), false)
  }

  function Lose(s: State, r: RunId): State {
    s.(tasks := s.tasks - {r}, lost := s.lost + {r})
  }

  function LoadStep(s: State, r: RunId): Option<State> {
    if r !in s.tasks || !s.tasks[r].stage.Finishing? then None
    else match s.tasks[r].stage.f
      case Unwritten(_) => Some(Lose(s, r))
      case Written(row) => Some(SetStage(s, r, Writing(row, Loaded(s.rows, r))))
  }

  function CommitStep(s: State, r: RunId): Option<State> {
    if r !in s.tasks || !s.tasks[r].stage.Writing? then None
    else
      var w := s.tasks[r].stage;
      if w.loaded.Some? && r !in s.rows then Some(Lose(s, r))
      else Some(s.(rows := Terminated(s.rows, r, w.final, w.loaded), tasks := s.tasks - {r}))
  }

  predicate InTransaction(s: State, r: RunId) {
    r in s.tasks && (s.tasks[r].stage.Finishing? || s.tasks[r].stage.Writing?)
  }

  /** `cancel_run` reads the row; a run already marked needs no second mark. */
  function CancelStep(s: State, r: RunId): Option<State> {
    if r !in s.rows || !s.rows[r].status.Running? then None
    else if s.rows[r].cancelled then Some(s)
    else Some(s.(cancelling := s.cancelling + {r}))
  }

  function CrashStep(s: State, i: InstanceId): State {
    var gone := set r | r in s.tasks && s.tasks[r].instance == i;
    s.(tasks := s.tasks - gone, up := s.up - {i}, lost := s.lost + gone)
  }

  function Step(lib: Json.Library, s: State, a: Action): Option<State> {
    match a
    case StartRun(r, c, i) =>
      if i !in s.up || r in s.used then None
      else if Locked(s.rows, c) then Some(s.(used := s.used + {r}))
      else Some(s.(rows := Inserted(s.rows, r, c, i), tasks := s.tasks[r := Task(i, Building)], used := s.used + {r}))
    case SandboxReady(r) => if AtStage(s, r, Building) then Some(SetStage(s, r, Working)) else None
    case SandboxUnavailable(r, reason) =>
      if AtStage(s, r, Building) then Some(SetStage(s, r, Finishing(SandboxFailure(lib, reason)))) else None
    case WorkerReturns(r, end, overspent) =>
      if AtStage(s, r, Working) then Some(SetStage(s, r, Finishing(Worker.RunWorker(lib, end, overspent)))) else None
    case ThreadFails(r) => if AtStage(s, r, Building) then Some(Lose(s, r)) else None
    case Load(r) => LoadStep(s, r)
    case Commit(r) => CommitStep(s, r)
    case CommitFails(r) => if InTransaction(s, r) then Some(Lose(s, r)) else None
    case CancelReads(r) => CancelStep(s, r)
    case CancelMarks(r) =>
      if r in s.cancelling then Some(s.(rows := Marked(s.rows, r), cancelling := s.cancelling - {r})) else None
    case DeleteConversation(c) =>
      Some(s.(rows := map r | r in s.rows && s.rows[r].conversation != c :: s.rows[r]))
    case Crash(i) => Some(CrashStep(s, i))
    case StartInstance(i) =>
      if i in s.up then None else Some(s.(rows := Reconciled(s.rows, i), up := s.up + {i}))
  }

  function Run(lib: Json.Library, s: State, acts: seq<Action>): Option<State>
    decreases acts
  {
    if acts == [] then Some(s)
    else match Step(lib, s, acts[0])
      case None => None
      case Some(s') => Run(lib, s', acts[1..])
  }

  // -- the invariant ------------------------------------------------------------------------

  ghost predicate OnePerConversation(rows: Rows) {
    forall r, o, c :: RunningIn(rows, r, c) && RunningIn(rows, o, c) ==> r == o
  }

  predicate WrittenOnce(row: Row) {
    row.writes == if row.status.Running? then 0 else 1
  }

  ghost predicate Inv(s: State) {
    && OnePerConversation(s.rows)
    && s.rows.Keys <= s.used && s.tasks.Keys <= s.used
    && (forall r :: r in s.rows ==> WrittenOnce(s.rows[r]))
    && (forall r :: r in s.tasks && r in s.rows ==>
          s.rows[r].status.Running? && s.rows[r].owner == Some(s.tasks[r].instance))
    && (forall r :: r in s.tasks ==> s.tasks[r].instance in s.up)
    && (forall r :: r in s.tasks && s.tasks[r].stage.Writing? && s.tasks[r].stage.loaded.None? ==> r !in s.rows)
    && (forall r :: r in s.rows && s.rows[r].status.Running? ==> r in s.tasks || r in s.lost)
  }

  /** The database an earlier life left behind: whatever is still running there has no thread. */
  ghost predicate Init(s: State) {
    && OnePerConversation(s.rows)
    && (forall r :: r in s.rows ==> WrittenOnce(s.rows[r]))
    && s.tasks == map[] && s.up == {} && s.cancelling == {} && s.rows.Keys <= s.used
    && (forall r :: r in s.rows && s.rows[r].status.Running? ==> r in s.lost)
  }

  lemma InsertKeepsOne(rows: Rows, r: RunId, c: ConversationId, i: InstanceId)
    requires OnePerConversation(rows) && r !in rows
    ensures OnePerConversation(Inserted(rows, r, c, i))
  {
    var after := Inserted(rows, r, c, i);
    if !Locked(rows, c) {
      forall a, o, k | RunningIn(after, a, k) && RunningIn(after, o, k) ensures a == o {
        assert a != r ==> RunningIn(rows, a, k);
        assert o != r ==> RunningIn(rows, o, k);
      }
    }
  }

  /** Rows that stop running or disappear cannot break the index. */
  lemma FewerRunningKeepsOne(rows: Rows, after: Rows)
    requires OnePerConversation(rows)
    requires forall r :: r in after && after[r].status.Running? ==>
               r in rows && rows[r].status.Running? && after[r].conversation == rows[r].conversation
    ensures OnePerConversation(after)
  {
    forall r, o, c | RunningIn(after, r, c) && RunningIn(after, o, c) ensures r == o {
      assert RunningIn(rows, r, c) && RunningIn(rows, o, c);
    }
  }

  lemma StepKeepsOne(lib: Json.Library, s: State, a: Action)
    requires Inv(s) && Step(lib, s, a).Some?
    ensures OnePerConversation(Step(lib, s, a).value.rows)
  {
    var s' := Step(lib, s, a).value;
    if a.StartRun? {
      InsertKeepsOne(s.rows, a.r, a.c, a.i);
    } else {
      FewerRunningKeepsOne(s.rows, s'.rows);
    }
  }

  lemma StepKeepsInv(lib: Json.Library, s: State, a: Action)
    requires Inv(s) && Step(lib, s, a).Some?
    ensures Inv(Step(lib, s, a).value)
  {
    StepKeepsOne(lib, s, a);
    hide OnePerConversation, SandboxFailure, Worker.RunWorker;
  }

  lemma {:induction false} RunKeepsInv(lib: Json.Library, s: State, acts: seq<Action>)
    requires Inv(s) && Run(lib, s, acts).Some?
    ensures Inv(Run(lib, s, acts).value)
    decreases acts
  {
    if acts != [] {
      StepKeepsInv(lib, s, acts[0]);
      RunKeepsInv(lib, Step(lib, s, acts[0]).value, acts[1..]);
    }
  }

  ghost predicate Reachable(lib: Json.Library, s: State) {
    exists s0, acts :: Init(s0) && Run(lib, s0, acts) == Some(s)
  }

  lemma ReachableInv(lib: Json.Library, s: State)
    requires Reachable(lib, s)
    ensures Inv(s)
  {
    var s0, acts :| Init(s0) && Run(lib, s0, acts) == Some(s);
    RunKeepsInv(lib, s0, acts);
  }

  // -- the theorems ---------------------------------------------------------------------------

  /** At every reachable moment a conversation has at most one running row, a terminal row has
      had exactly one terminal write and a running one none, and a row still running has a live
      thread of its owner unless that thread was lost. */
  lemma RunRowSafety(lib: Json.Library, s: State, r: RunId)
    requires Reachable(lib, s) && r in s.rows
    ensures s.rows[r].writes == if s.rows[r].status.Running? then 0 else 1
    ensures s.rows[r].status.Running? ==>
              && (forall o :: RunningIn(s.rows, o, s.rows[r].conversation) ==> o == r)
              && (r in s.lost || (r in s.tasks && s.rows[r].owner == Some(s.tasks[r].instance)))
  {
    ReachableInv(lib, s);
    if s.rows[r].status.Running? { assert RunningIn(s.rows, r, s.rows[r].conversation); }
  }

  /** The terminal transaction of run r goes through. */
  predicate Writes(s: State, r: RunId, a: Action)
    requires r in s.tasks
  {
    a == Commit(r) && s.tasks[r].stage.Writing? && (s.tasks[r].stage.loaded.None? || r in s.rows)
  }

  /** When a run's thread ends, its row has just been written, for the first time, with the
      verdict `_finish_run` computed, exactly unless the thread was lost: it never started, the
      terminal write raised, its transaction failed, its row was deleted under it, or the instance
      crashed. */
  lemma ThreadEndsWithWriteIff(lib: Json.Library, s: State, r: RunId, a: Action)
    requires Reachable(lib, s) && Step(lib, s, a).Some?
    requires r in s.tasks && r !in Step(lib, s, a).value.tasks
    ensures var s' := Step(lib, s, a).value;
            Writes(s, r, a) <==> (r in s'.rows && s'.rows[r].writes == 1)
    ensures Writes(s, r, a) ==> Step(lib, s, a).value.rows[r].status == Ended(s.tasks[r].stage.final.status)
    ensures !Writes(s, r, a) ==> r in Step(lib, s, a).value.lost && Step(lib, s, a).value.rows == s.rows
  {
    ReachableInv(lib, s);
  }

  lemma RunTwo(lib: Json.Library, s: State, a: Action, b: Action)
    requires Step(lib, s, a).Some?
    ensures Run(lib, s, [a, b]) == Step(lib, Step(lib, s, a).value, b)
  {
    assert [a, b][1..] == [b] && [b][1..] == [];
    assert Run(lib, Step(lib, s, a).value, [b]) == Step(lib, Step(lib, s, a).value, b);
  }

  lemma RunThree(lib: Json.Library, s: State, a: Action, b: Action, c: Action)
    requires Step(lib, s, a).Some? && Step(lib, Step(lib, s, a).value, b).Some?
    ensures Run(lib, s, [a, b, c]) == Step(lib, Step(lib, Step(lib, s, a).value, b).value, c)
  {
    assert [a, b, c][1..] == [b, c];
    RunTwo(lib, Step(lib, s, a).value, b, c);
  }

  /** From the verdict to the end: written, or lost with the row still running. */
  lemma LoadThenCommit(lib: Json.Library, s: State, r: RunId, f: Worker.Finish)
    requires AtStage(s, r, Finishing(f)) && r in s.rows
    ensures var begun := Step(lib, s, Load(r));
            && begun.Some? && (r in begun.value.tasks <==> f.Written?)
            && (if f.Written?
                then var done := Step(lib, begun.value, Commit(r));
                     done.Some? && r in done.value.rows && done.value.rows[r].status.Ended?
                else r in begun.value.lost && begun.value.rows == s.rows)
  {
  }

  /** A run whose exec came back reaches its terminal transaction, and is terminal once that
      commits, if and only if its retained lines could be digested and its token counts metered (a
      vanished sandbox or a failing runner always does); otherwise the row stays running. */
  lemma ReturnedRunIsFinalizedIff(lib: Json.Library, s: State, r: RunId, end: Worker.ExecEnd, overspent: bool)
    requires Reachable(lib, s) && AtStage(s, r, Working) && r in s.rows
    ensures var begun := Run(lib, s, [WorkerReturns(r, end, overspent), Load(r)]);
            && begun.Some?
            && (r in begun.value.tasks <==>
                  (end.Exited? ==>
                    && (forall line :: line in Strings.SplitLines(end.stdout) ==> Pump.Digestible(lib, line))
                    && Worker.Countable(lib, Worker.LastUsage(lib, Strings.SplitLines(end.stdout)))))
            && (if r in begun.value.tasks
                then var done := Step(lib, begun.value, Commit(r));
                     done.Some? && r in done.value.rows && done.value.rows[r].status.Ended?
                else r in begun.value.lost && begun.value.rows == s.rows && s.rows[r].status.Running?)
  {
    ReachableInv(lib, s);
    Worker.FinalizedIff(lib, end, overspent);
    var f := Worker.RunWorker(lib, end, overspent);
    LoadThenCommit(lib, SetStage(s, r, Finishing(f)), r, f);
    assert Step(lib, s, WorkerReturns(r, end, overspent)) == Some(SetStage(s, r, Finishing(f)));
    hide Strings.SplitLines, Pump.Digestible, Worker.Countable, Worker.LastUsage, Worker.RunWorker, OnePerConversation,
         Step, Run;
    RunTwo(lib, s, WorkerReturns(r, end, overspent), Load(r));
  }

  /** A run that got no sandbox ends `error` when its transaction commits, with a reason. */
  lemma UnavailableRunEndsInError(lib: Json.Library, s: State, r: RunId, reason: string)
    requires AtStage(s, r, Building) && r in s.rows
    ensures SandboxFailure(lib, reason).Written? && SandboxFailure(lib, reason).row.trail != []
    ensures var done := Run(lib, s, [SandboxUnavailable(r, reason), Load(r), Commit(r)]);
            done.Some? && r in done.value.rows && done.value.rows[r].status == Ended("error")
  {
    var f := SandboxFailure(lib, reason);
    assert f.Written? && f.row.status == "error";
    hide SandboxFailure;
    RunThree(lib, s, SandboxUnavailable(r, reason), Load(r), Commit(r));
  }

  /** Starting an instance frees exactly its own and the unowned running rows; every other row,
      in particular that of every live run, is left as it was. */
  lemma ReconciliationIsExact(lib: Json.Library, s: State, i: InstanceId)
    requires Reachable(lib, s) && i !in s.up
    ensures Step(lib, s, StartInstance(i)).Some?
    ensures var rows' := Step(lib, s, StartInstance(i)).value.rows;
            && rows'.Keys == s.rows.Keys
            && (forall r :: r in s.rows ==>
                  (rows'[r] != s.rows[r] <==> OrphanedRow(s.rows[r], i))
                  && !OrphanedRow(rows'[r], i))
            && (forall r :: r in s.rows && r in s.tasks ==> rows'[r] == s.rows[r])
  {
    ReachableInv(lib, s);
  }

  /** A conversation blocked only by a dead run of this instance accepts a new run again. */
  lemma ReconciliationUnlocks(lib: Json.Library, s: State, i: InstanceId, r: RunId)
    requires Reachable(lib, s) && i !in s.up
    requires r in s.rows && OrphanedRow(s.rows[r], i)
    ensures Locked(s.rows, s.rows[r].conversation)
    ensures !Locked(Step(lib, s, StartInstance(i)).value.rows, s.rows[r].conversation)
  {
    ReachableInv(lib, s);
    var c := s.rows[r].conversation;
    assert RunningIn(s.rows, r, c);
    var after := Reconciled(s.rows, i);
    forall o | o in after && RunningIn(after, o, c) ensures false {
      assert RunningIn(s.rows, o, c);
    }
  }

  /** Nothing else frees it: a lost row that is running stays as it is until its conversation is
      deleted or an instance starts under its owner's id (any id, for an unowned row).  Under the
      default per-process id no instance ever does. */
  lemma LostRowIsFreedOnlyBy(lib: Json.Library, s: State, r: RunId, a: Action)
    requires Reachable(lib, s) && Step(lib, s, a).Some?
    requires r in s.rows && s.rows[r].status.Running? && r !in s.tasks
    ensures var rows' := Step(lib, s, a).value.rows;
            !(r in rows' && rows'[r].status.Running? && rows'[r].owner == s.rows[r].owner)
            <==> (a == DeleteConversation(s.rows[r].conversation)
                  || (a.StartInstance? && (s.rows[r].owner == Some(a.i) || s.rows[r].owner.None?)))
  {
    ReachableInv(lib, s);
  }

  // -- the cancelled flag -----------------------------------------------------------------------

  /** Reading the status first does not keep a cancel from flipping a completed run: one that ends
      between the read and the mark is `done` and `cancelled` at once. */
  lemma CancelStraddlesTheEnd(lib: Json.Library, s: State, r: RunId)
    requires r in s.rows && s.rows[r].status.Running? && !s.rows[r].cancelled
    requires r in s.tasks && s.tasks[r].stage.Writing? && s.tasks[r].stage.loaded == Some(false)
    requires s.tasks[r].stage.final.status == "done"
    ensures var end := Run(lib, s, [CancelReads(r), Commit(r), CancelMarks(r)]);
            end.Some? && r in end.value.rows
            && end.value.rows[r].status == Ended("done") && end.value.rows[r].cancelled
  {
    RunThree(lib, s, CancelReads(r), Commit(r), CancelMarks(r));
  }

  lemma {:induction false} GoneForever(lib: Json.Library, s: State, r: RunId, acts: seq<Action>)
    requires r in s.used && r !in s.tasks && Run(lib, s, acts).Some?
    ensures r !in Run(lib, s, acts).value.tasks
    decreases acts
  {
    if acts != [] {
      hide SandboxFailure, Worker.RunWorker, Terminated, Reconciled, Inserted, Marked;
      assert r in Step(lib, s, acts[0]).value.used && r !in Step(lib, s, acts[0]).value.tasks;
      GoneForever(lib, Step(lib, s, acts[0]).value, r, acts[1..]);
    }
  }

  predicate OpenAt(s: State, r: RunId, final: Worker.Row, loaded: bool) {
    AtStage(s, r, Writing(final, Some(loaded)))
  }

  lemma StepWhileOpen(lib: Json.Library, s: State, r: RunId, final: Worker.Row, loaded: bool, a: Action)
    requires Inv(s) && OpenAt(s, r, final, loaded) && Step(lib, s, a).Some? && r in Step(lib, s, a).value.tasks
    ensures var s' := Step(lib, s, a).value;
            && OpenAt(s', r, final, loaded)
            && (r in s'.rows ==> r in s.rows && s'.rows[r].cancelled == (s.rows[r].cancelled || a == CancelMarks(r)))
  {
    hide OnePerConversation, SandboxFailure, Worker.RunWorker;
  }

  /** While the terminal transaction is open only a cancel touches the flag. */
  lemma {:induction false} FlagWhileOpen(lib: Json.Library, s: State, r: RunId, final: Worker.Row, loaded: bool,
                                         acts: seq<Action>)
    requires Inv(s) && OpenAt(s, r, final, loaded)
    requires Run(lib, s, acts).Some? && r in Run(lib, s, acts).value.tasks
    ensures var s' := Run(lib, s, acts).value;
            && Inv(s') && OpenAt(s', r, final, loaded)
            && (r in s'.rows ==> r in s.rows && s'.rows[r].cancelled == (s.rows[r].cancelled || CancelMarks(r) in acts))
    decreases acts
  {
    if acts != [] {
      var a, rest := acts[0], acts[1..];
      var s1 := Step(lib, s, a).value;
      assert acts == [a] + rest;
      assert r in s.used;
      if r !in s1.tasks {
        assert r in s1.used by { hide SandboxFailure, Worker.RunWorker, Inv; }
        GoneForever(lib, s1, r, rest);
      }
      StepKeepsInv(lib, s, a);
      StepWhileOpen(lib, s, r, final, loaded, a);
      hide Inv, Step, OpenAt;
      FlagWhileOpen(lib, s1, r, final, loaded, rest);
    }
  }

  /** What the terminal transaction commits, exactly: the row is `cancelled` if the run was, or if
      a cancel marked it between the transaction's read and its commit, the run having been
      unmarked before; the unchanged column is not written back. */
  lemma CommittedFlagIff(lib: Json.Library, s: State, r: RunId, acts: seq<Action>)
    requires Reachable(lib, s) && r in s.tasks && r in s.rows
    requires s.tasks[r].stage.Finishing? && s.tasks[r].stage.f.Written?
    requires var s1 := Step(lib, s, Load(r)).value;
             && Run(lib, s1, acts).Some? && Step(lib, Run(lib, s1, acts).value, Commit(r)).Some?
             && r in Step(lib, Run(lib, s1, acts).value, Commit(r)).value.rows
    ensures var end := Step(lib, Run(lib, Step(lib, s, Load(r)).value, acts).value, Commit(r)).value;
            end.rows[r].cancelled
            <==> s.tasks[r].stage.f.row.cancelled || (!s.rows[r].cancelled && CancelMarks(r) in acts)
  {
    ReachableInv(lib, s);
    var s1 := Step(lib, s, Load(r)).value;
    StepKeepsInv(lib, s, Load(r));
    FlagWhileOpen(lib, s1, r, s.tasks[r].stage.f.row, s.rows[r].cancelled, acts);
    hide Inv, Run, Reachable;
  }

  /** The row of run r is settled: ended, unmarked, and with no cancel under way. */
  predicate Settled(s: State, r: RunId) {
    && r in s.used && r !in s.tasks && r !in s.cancelling
    && (r in s.rows ==> s.rows[r].status.Ended? && !s.rows[r].cancelled)
  }

  lemma {:induction false} SettledForever(lib: Json.Library, s: State, r: RunId, acts: seq<Action>)
    requires Settled(s, r) && Run(lib, s, acts).Some?
    ensures Settled(Run(lib, s, acts).value, r)
    decreases acts
  {
    if acts != [] {
      assert Settled(Step(lib, s, acts[0]).value, r) by { hide SandboxFailure, Worker.RunWorker; }
      hide Settled, Step;
      SettledForever(lib, Step(lib, s, acts[0]).value, r, acts[1..]);
    }
  }

  predicate MarkedAfter(lib: Json.Library, s: State, r: RunId, acts: seq<Action>) {
    var end := Run(lib, s, acts);
    end.Some? && r in end.value.rows && end.value.rows[r].cancelled
  }

  /** Exactly when a completed run can still turn `cancelled`: if and only if a cancel that read
      the row before the terminal write has not marked it yet. */
  lemma CompletedRunFlipsIff(lib: Json.Library, s: State, r: RunId)
    requires Reachable(lib, s) && r in s.rows && s.rows[r].status.Ended? && !s.rows[r].cancelled
    ensures (exists acts :: MarkedAfter(lib, s, r, acts)) <==> r in s.cancelling
  {
    ReachableInv(lib, s);
    if r in s.cancelling {
      var acts := [CancelMarks(r)];
      assert acts[1..] == [];
      assert Run(lib, s, acts) == Step(lib, s, CancelMarks(r));
      assert MarkedAfter(lib, s, r, acts);
    } else {
      hide Run, Reachable;
      forall acts ensures !MarkedAfter(lib, s, r, acts) {
        if Run(lib, s, acts).Some? { SettledForever(lib, s, r, acts); }
      }
    }
  }
}
