/** Concurrent uploads and deletes of one user against a positive quota
    (app/controllers/files.py): precheck on a snapshot, commit, recheck, roll back.  Every call to
    the request body, the disk, the object store and the database may fail; meanwhile finishing
    runs sweep the workspace into the store, and downloads bring files back from it. */
module QuotaProtocol {
  import opened Wrappers
  import Quota

  /** Where `store_upload` is.  The last eight are its ends: it returned (`Passed`) or raised.
      `partial`: the failed put left something; `gone`: the rollback removed the object. */
  datatype Stage =
    | Streaming(used: nat)
    | Local
    | Stored
    | Committed
    | UndoingObject
    | UndoingFile(gone: bool)
    | UndoingRow(gone: bool)
    | Passed
    | Refused        // by a limit or the content gate
    | Aborted        // an exception no handler cleans up after
    | PutFailed(partial: bool)
    | CommitFailed
    | Unchecked      // the recheck's query raised
    | RolledBack(gone: bool)
    | Stuck(gone: bool)          // the rollback's own commit raised

  /** How many artifact sweeps have listed the file, and opened it, and whether one has stored it
      since the rollback last removed the object. */
  datatype Sweep = Sweep(listed: nat, reading: nat, swept: bool)

  const IDLE := Sweep(0, 0, false)

  /** An upload and what exists of it: its row, its workspace file and its durable object.
      `deleting`: a `delete_upload`, or the deletion of its conversation, has begun. */
  datatype Upload = Upload(size: nat, stage: Stage, row: bool, file: bool, durable: bool, deleting: bool, sweep: Sweep)

  datatype State = State(quota: nat, maxFile: nat, ups: seq<Upload>)

  /** `unlinked`, `ok`: whether that removal succeeded; `partial`: whether a failed put left
      something under the key. */
  datatype Action =
    | Begin                      // `user_storage_used`, then open the file
    | Streamed(k: nat, size: nat)
    | StreamRejected(k: nat, unlinked: bool)
    | Abort(k: nat)              // reading the body, writing the file or opening the store raises
    | Put(k: nat)
    | PutFails(k: nat, partial: bool, unlinked: bool)
    | Commit(k: nat)
    | CommitFails(k: nat)
    | Recheck(k: nat)
    | RecheckFails(k: nat)
    | UndoObject(k: nat, ok: bool)
    | UndoFile(k: nat, ok: bool)
    | UndoRow(k: nat)
    | UndoRowFails(k: nat)
    | DeleteObject(k: nat, ok: bool)
    | DeleteFile(k: nat, ok: bool)
    | DeleteRow(k: nat)
    | DropConversation(k: nat, unlinked: bool)
    | SweepLists(k: nat)         // a sweep whose query found no row yet
    | SweepOpens(k: nat)
    | SweepPuts(k: nat, stored: bool)
    | Rehydrate(k: nat)          // `artifact_path` finds the object and no file

  function Counted(u: Upload): nat {
    if u.row then u.size else 0
  }

  /** `user_storage_used`: the sizes of the committed rows. */
  function RowTotal(us: seq<Upload>): nat {
    if us == [] then 0 else RowTotal(us[..|us| - 1]) + Counted(us[|us| - 1])
  }

  function PassedTotal(us: seq<Upload>): nat {
    if us == [] then 0
    else PassedTotal(us[..|us| - 1]) + if us[|us| - 1].stage.Passed? then Counted(us[|us| - 1]) else 0
  }

  /** What a step does to the upload it concerns. */
  function StreamStep(s: State, u: Upload, a: Action): Option<Upload> {
    match a
    case Streamed(_, size) =>
      if u.stage.Streaming? && (size == 0 || Quota.Fits(Quota.Limits(s.maxFile, s.quota, u.stage.used), size))
      then Some(u.(stage := Local, size := size))
      else None
    case StreamRejected(_, unlinked) =>
      if u.stage.Streaming? then Some(u.(stage := Refused, file := !unlinked)) else None
    case Abort(_) => if u.stage.Streaming? || u.stage.Local? then Some(u.(stage := Aborted)) else None
    case _ => None
  }

  function StoreStep(u: Upload, a: Action, over: bool): Option<Upload> {
    match a
    case Put(_) => if u.stage.Local? then Some(u.(stage := Stored, durable := true)) else None
    case PutFails(_, partial, unlinked) =>
      if u.stage.Local?
      then Some(u.(stage := PutFailed(partial), file := !unlinked, durable := u.durable || partial))
      else None
    case Commit(_) => if u.stage.Stored? then Some(u.(stage := Committed, row := true)) else None
    case CommitFails(_) => if u.stage.Stored? then Some(u.(stage := CommitFailed)) else None
    case Recheck(_) => if u.stage.Committed? then Some(u.(stage := if over then UndoingObject else Passed)) else None
    case RecheckFails(_) => if u.stage.Committed? then Some(u.(stage := Unchecked)) else None
    case _ => None
  }

  function UndoStep(u: Upload, a: Action): Option<Upload> {
    match a
    case UndoObject(_, ok) =>
      if u.stage.UndoingObject?
      then Some(u.(stage := UndoingFile(ok), durable := u.durable && !ok,
                   sweep := u.sweep.(swept := u.sweep.swept && !ok)))
      else None
    case UndoFile(_, ok) =>
      if u.stage.UndoingFile? then Some(u.(stage := UndoingRow(u.stage.gone), file := u.file && !ok)) else None
    case UndoRow(_) =>
      if u.stage.UndoingRow? then Some(u.(stage := RolledBack(u.stage.gone), row := false)) else None
    case UndoRowFails(_) => if u.stage.UndoingRow? then Some(u.(stage := Stuck(u.stage.gone))) else None
    case _ => None
  }

  /** `delete_upload`, possible as soon as the row is visible. */
  function DeleteStep(u: Upload, a: Action): Option<Upload> {
    match a
    case DeleteObject(_, ok) => if u.row then Some(u.(deleting := true, durable := u.durable && !ok)) else None
    case DeleteFile(_, ok) => if u.deleting then Some(u.(file := u.file && !ok)) else None
    case DeleteRow(_) => if u.deleting then Some(u.(row := false)) else None
    case DropConversation(_, unlinked) =>
      if u.row then Some(u.(deleting := true, row := false, file := u.file && !unlinked)) else None
    case _ => None
  }

  predicate IsDelete(a: Action) {
    a.DeleteObject? || a.DeleteFile? || a.DeleteRow? || a.DropConversation?
  }

  /** `sync_artifacts` of a finishing run, which takes a file without a row for the agent's, and
      `artifact_path`.  A sweep may have queried the rows long before it lists the directory. */
  function SweepStep(u: Upload, a: Action): Option<Upload> {
    var w := u.sweep;
    match a
    case SweepLists(_) => if u.file then Some(u.(sweep := w.(listed := w.listed + 1))) else None
    case SweepOpens(_) =>
      if w.listed > 0 && u.file then Some(u.(sweep := w.(listed := w.listed - 1, reading := w.reading + 1))) else None
    case SweepPuts(_, stored) =>
      if w.reading > 0
      then Some(u.(durable := u.durable || stored, sweep := w.(reading := w.reading - 1, swept := w.swept || stored)))
      else None
    case Rehydrate(_) => if !u.file && u.durable then Some(u.(file := true)) else None
    case _ => None
  }

  predicate IsSweep(a: Action) {
    a.SweepLists? || a.SweepOpens? || a.SweepPuts? || a.Rehydrate?
  }

  /** The committed rows exceed the quota (a quota of 0 is none). */
  predicate Over(s: State) {
    s.quota > 0 && RowTotal(s.ups) > s.quota
  }

  function Next(s: State, u: Upload, a: Action): Option<Upload> {
    if IsDelete(a) then DeleteStep(u, a)
    else if IsSweep(a) then SweepStep(u, a)
    else if a.UndoObject? || a.UndoFile? || a.UndoRow? || a.UndoRowFails? then UndoStep(u, a)
    else if a.Begin? || a.Streamed? || a.StreamRejected? || a.Abort? then StreamStep(s, u, a)
    else StoreStep(u, a, Over(s))
  }

  /** An upload that has taken its precheck snapshot and opened its file. */
  function Begun(s: State): Upload {
    Upload(0, Streaming(RowTotal(s.ups)), false, true, false, false, IDLE)
  }

  function Step(s: State, a: Action): Option<State> {
    if a.Begin? then Some(s.(ups := s.ups + [Begun(s)]))
    else if a.k < |s.ups| && Next(s, s.ups[a.k], a).Some?
    then Some(s.(ups := s.ups[a.k := Next(s, s.ups[a.k], a).value]))
    else None
  }

  function Run(s: State, acts: seq<Action>): Option<State>
    decreases acts
  {
    if acts == [] then Some(s)
    else match Step(s, acts[0])
      case None => None
      case Some(s') => Run(s', acts[1..])
  }

  // -- sums ---------------------------------------------------------------------------------

  lemma {:induction false} PassedWithinRows(us: seq<Upload>)
    ensures PassedTotal(us) <= RowTotal(us)
  {
    if us != [] { PassedWithinRows(us[..|us| - 1]); }
  }

  lemma {:induction false} AllPassed(us: seq<Upload>)
    requires forall u :: u in us && u.row ==> u.stage.Passed?
    ensures PassedTotal(us) == RowTotal(us)
  {
    if us != [] {
      assert us[|us| - 1] in us;
      AllPassed(us[..|us| - 1]);
    }
  }

  lemma {:induction false} RowTotalUpdate(us: seq<Upload>, k: nat, u: Upload)
    requires k < |us|
    ensures RowTotal(us[k := u]) == RowTotal(us) - Counted(us[k]) + Counted(u)
  {
    var n := |us| - 1;
    if k < n {
      RowTotalUpdate(us[..n], k, u);
      assert us[k := u][..n] == us[..n][k := u];
    } else {
      assert us[k := u][..n] == us[..n];
    }
  }

  /** An update that passes nothing new cannot raise the passed total. */
  lemma {:induction false} PassedTotalUpdate(us: seq<Upload>, k: nat, u: Upload)
    requires k < |us| && (u.row && u.stage.Passed? ==> us[k].row && us[k].stage.Passed? && u.size == us[k].size)
    ensures PassedTotal(us[k := u]) <= PassedTotal(us)
  {
    var n := |us| - 1;
    if k < n {
      PassedTotalUpdate(us[..n], k, u);
      assert us[k := u][..n] == us[..n][k := u];
    } else {
      assert us[k := u][..n] == us[..n];
    }
  }

  // -- the invariant ---------------------------------------------------------------------------

  /** `store_upload` has returned or raised. */
  predicate Ended(u: Upload) {
    match u.stage
    case Streaming(_) => false
    case Local => false
    case Stored => false
    case Committed => false
    case UndoingObject => false
    case UndoingFile(_) => false
    case UndoingRow(_) => false
    case _ => true
  }

  /** What exists of an upload nobody is deleting. */
  predicate Intact(u: Upload) {
    match u.stage
    case Streaming(_) => !u.row && u.file && u.durable == u.sweep.swept
    case Local => !u.row && u.file && u.durable == u.sweep.swept
    case Stored => !u.row && u.file && u.durable
    case Committed => u.row && u.file && u.durable
    case UndoingObject => u.row && u.file && u.durable
    case UndoingFile(gone) => u.row && u.file && u.durable == (!gone || u.sweep.swept)
    case UndoingRow(gone) => u.row && u.durable == (!gone || u.sweep.swept)
    case Passed => u.row && u.file && u.durable
    case Refused => !u.row && u.durable == u.sweep.swept
    case Aborted => !u.row && u.file && u.durable == u.sweep.swept
    case PutFailed(partial) => !u.row && u.durable == (partial || u.sweep.swept)
    case CommitFailed => !u.row && u.file && u.durable
    case Unchecked => u.row && u.file && u.durable
    case RolledBack(gone) => !u.row && u.durable == (!gone || u.sweep.swept)
    case Stuck(gone) => u.row && u.durable == (!gone || u.sweep.swept)
  }

  predicate Deletable(u: Upload) {
    match u.stage
    case Committed => true
    case UndoingObject => true
    case UndoingFile(_) => true
    case UndoingRow(_) => true
    case Passed => true
    case Unchecked => true
    case Stuck(_) => true
    case RolledBack(_) => !u.row
    case _ => false
  }

  predicate UploadOk(u: Upload) {
    if u.deleting then Deletable(u) else Intact(u)
  }

  ghost predicate Inv(s: State) {
    && s.quota > 0
    && PassedTotal(s.ups) <= s.quota
    && forall k :: 0 <= k < |s.ups| ==> UploadOk(s.ups[k])
  }

  lemma NextKeepsOk(s: State, u: Upload, a: Action)
    requires UploadOk(u) && Next(s, u, a).Some?
    ensures UploadOk(Next(s, u, a).value)
    ensures var v := Next(s, u, a).value;
            && (v.row && v.stage.Passed? ==> u.row && v.size == u.size && (u.stage.Passed? || (a.Recheck? && !Over(s))))
            && (a.Recheck? ==> v.row == u.row && v.size == u.size)
  {
    hide Over;
  }

  lemma StepKeepsPassed(s: State, a: Action)
    requires Inv(s) && Step(s, a).Some?
    ensures PassedTotal(Step(s, a).value.ups) <= s.quota
  {
    var s' := Step(s, a).value;
    if a.Begin? {
      assert s'.ups[..|s.ups|] == s.ups;
    } else {
      var u := Next(s, s.ups[a.k], a).value;
      NextKeepsOk(s, s.ups[a.k], a);
      hide Next, UploadOk;
      if u.row && u.stage.Passed? && !s.ups[a.k].stage.Passed? {
        RowTotalUpdate(s.ups, a.k, u);
        PassedWithinRows(s'.ups);
      } else {
        PassedTotalUpdate(s.ups, a.k, u);
      }
    }
  }

  lemma StepKeepsUploads(s: State, a: Action, k: nat)
    requires Inv(s) && Step(s, a).Some? && k < |Step(s, a).value.ups|
    ensures UploadOk(Step(s, a).value.ups[k])
  {
    if a.Begin? {
      assert k < |s.ups| ==> UploadOk(s.ups[k]);
      hide RowTotal, PassedTotal;
    } else {
      NextKeepsOk(s, s.ups[a.k], a);
      hide Next, UploadOk, RowTotal, PassedTotal;
    }
  }

  lemma StepKeepsInv(s: State, a: Action)
    requires Inv(s) && Step(s, a).Some?
    ensures Inv(Step(s, a).value) && Step(s, a).value.quota == s.quota
  {
    StepKeepsPassed(s, a);
    forall k | 0 <= k < |Step(s, a).value.ups| ensures UploadOk(Step(s, a).value.ups[k]) {
      StepKeepsUploads(s, a, k);
    }
    hide UploadOk;
  }

  lemma {:induction false} RunKeepsInv(s: State, acts: seq<Action>)
    requires Inv(s) && Run(s, acts).Some?
    ensures Inv(Run(s, acts).value) && Run(s, acts).value.quota == s.quota
    decreases acts
  {
    if acts != [] {
      StepKeepsInv(s, acts[0]);
      hide Inv, Step;
      RunKeepsInv(Step(s, acts[0]).value, acts[1..]);
    }
  }

  /** What the user already stores: finished uploads within the quota. */
  ghost predicate Start(s: State) {
    0 < s.quota && RowTotal(s.ups) <= s.quota
    && forall u :: u in s.ups ==> u.stage.Passed? && u.row && u.file && u.durable && !u.deleting && u.sweep == IDLE
  }

  lemma StartInv(s: State)
    requires Start(s)
    ensures Inv(s)
  {
    PassedWithinRows(s.ups);
  }

  // -- the quota --------------------------------------------------------------------------------

  predicate InFlight(u: Upload) {
    u.row && !u.stage.Passed?
  }

  /** Under every interleaving the uploads that passed their recheck fit the quota together, so
      whenever no committed upload is without a passed recheck the stored total is within the
      quota. */
  lemma QuotaHolds(s: State, acts: seq<Action>)
    requires Start(s) && Run(s, acts).Some?
    ensures var s' := Run(s, acts).value;
            && PassedTotal(s'.ups) <= s.quota
            && ((forall u :: u in s'.ups ==> !InFlight(u)) ==> RowTotal(s'.ups) <= s.quota)
  {
    StartInv(s);
    RunKeepsInv(s, acts);
    var s' := Run(s, acts).value;
    if forall u :: u in s'.ups ==> !InFlight(u) { AllPassed(s'.ups); }
  }

  // -- what an ended upload leaves behind ----------------------------------------------------------

  /** What makes the workspace file stay, or come back. */
  predicate LeavesFile(a: Action, k: nat) {
    || a == Abort(k) || a == CommitFails(k) || a == StreamRejected(k, false) || a == UndoFile(k, false)
    || (a.PutFails? && a.k == k && !a.unlinked) || a == Rehydrate(k)
  }

  /** What makes the durable object stay. */
  predicate LeavesObject(a: Action, k: nat) {
    a == CommitFails(k) || a == UndoObject(k, false) || (a.PutFails? && a.k == k && a.partial)
  }

  /** Some sweep stored the object, and no rollback removed it after that. */
  ghost predicate SweptLast(acts: seq<Action>, k: nat) {
    exists n :: 0 <= n < |acts| && acts[n] == SweepPuts(k, true) && UndoObject(k, true) !in acts[n..]
  }

  /** Past the point where its file should have been removed, an upload still has it. */
  predicate FileLeft(u: Upload) {
    u.file &&
    match u.stage
    case Refused => true
    case Aborted => true
    case PutFailed(_) => true
    case CommitFailed => true
    case UndoingRow(_) => true
    case RolledBack(_) => true
    case Stuck(_) => true
    case _ => false
  }

  /** The object should not be there, but was left. */
  predicate ObjectLeft(u: Upload) {
    match u.stage
    case PutFailed(partial) => partial
    case CommitFailed => true
    case UndoingFile(gone) => !gone
    case UndoingRow(gone) => !gone
    case RolledBack(gone) => !gone
    case Stuck(gone) => !gone
    case _ => false
  }

  predicate Untouched(s: State, k: nat) {
    k < |s.ups| ==> !s.ups[k].deleting
  }

  predicate FileLeftAt(s: State, k: nat) {
    k < |s.ups| && FileLeft(s.ups[k])
  }

  predicate ObjectLeftAt(s: State, k: nat) {
    k < |s.ups| && ObjectLeft(s.ups[k])
  }

  predicate SweptAt(s: State, k: nat) {
    k < |s.ups| && s.ups[k].sweep.swept
  }

  lemma NextLeaves(s: State, u: Upload, a: Action)
    requires UploadOk(u) && !a.Begin? && Next(s, u, a).Some? && !Next(s, u, a).value.deleting
    ensures !u.deleting
    ensures FileLeft(Next(s, u, a).value) <==> FileLeft(u) || LeavesFile(a, a.k)
    ensures ObjectLeft(Next(s, u, a).value) <==> ObjectLeft(u) || LeavesObject(a, a.k)
    ensures Next(s, u, a).value.sweep.swept
       <==> a == SweepPuts(a.k, true) || (u.sweep.swept && a != UndoObject(a.k, true))
  {
    hide Over;
  }

  lemma StepLeaves(s: State, a: Action, k: nat)
    requires Inv(s) && Step(s, a).Some? && Untouched(Step(s, a).value, k)
    ensures Untouched(s, k)
    ensures FileLeftAt(Step(s, a).value, k) <==> FileLeftAt(s, k) || LeavesFile(a, k)
    ensures ObjectLeftAt(Step(s, a).value, k) <==> ObjectLeftAt(s, k) || LeavesObject(a, k)
    ensures SweptAt(Step(s, a).value, k) <==> a == SweepPuts(k, true) || (SweptAt(s, k) && a != UndoObject(k, true))
  {
    if !a.Begin? && a.k == k { NextLeaves(s, s.ups[k], a); }
    assert !a.Begin? && a.k != k ==> !LeavesFile(a, k) && !LeavesObject(a, k);
    assert !FileLeft(Begun(s)) && !ObjectLeft(Begun(s));
    hide Next, UploadOk, RowTotal, PassedTotal, FileLeft, ObjectLeft;
  }

  lemma {:induction false} RunLeaves(s: State, acts: seq<Action>, k: nat)
    requires Inv(s) && Run(s, acts).Some? && Untouched(Run(s, acts).value, k)
    ensures Untouched(s, k)
    ensures FileLeftAt(Run(s, acts).value, k) <==> FileLeftAt(s, k) || exists a :: a in acts && LeavesFile(a, k)
    ensures ObjectLeftAt(Run(s, acts).value, k) <==> ObjectLeftAt(s, k) || exists a :: a in acts && LeavesObject(a, k)
    decreases acts
  {
    if acts != [] {
      var s1, rest := Step(s, acts[0]).value, acts[1..];
      StepKeepsInv(s, acts[0]);
      hide Inv, FileLeftAt, ObjectLeftAt, SweptAt, LeavesFile, LeavesObject, Step, Untouched;
      RunLeaves(s1, rest, k);
      StepLeaves(s, acts[0], k);
      assert acts == [acts[0]] + rest;
    }
  }

  lemma SweptLastStep(a: Action, rest: seq<Action>, k: nat)
    ensures SweptLast([a] + rest, k)
       <==> SweptLast(rest, k) || (a == SweepPuts(k, true) && UndoObject(k, true) !in rest)
  {
    var acts := [a] + rest;
    assert acts[0..] == acts;
    forall n | 0 <= n < |rest| ensures acts[n + 1] == rest[n] && acts[n + 1..] == rest[n..] {
    }
    if n :| 0 <= n < |acts| && acts[n] == SweepPuts(k, true) && UndoObject(k, true) !in acts[n..] {
      if n > 0 { assert acts[n] == rest[n - 1] && acts[n..] == rest[n - 1..]; }
    }
    if n :| 0 <= n < |rest| && rest[n] == SweepPuts(k, true) && UndoObject(k, true) !in rest[n..] {
      assert acts[n + 1] == SweepPuts(k, true) && UndoObject(k, true) !in acts[n + 1..];
    }
    if a == SweepPuts(k, true) && UndoObject(k, true) !in rest {
      assert acts[0] == SweepPuts(k, true) && UndoObject(k, true) !in acts[0..];
    }
  }

  lemma {:induction false} RunSweeps(s: State, acts: seq<Action>, k: nat)
    requires Inv(s) && Run(s, acts).Some? && Untouched(Run(s, acts).value, k)
    ensures SweptAt(Run(s, acts).value, k)
       <==> SweptLast(acts, k) || (SweptAt(s, k) && UndoObject(k, true) !in acts)
    decreases acts
  {
    if acts != [] {
      var a, s1, rest := acts[0], Step(s, acts[0]).value, acts[1..];
      StepKeepsInv(s, a);
      RunLeaves(s1, rest, k) by { hide Step; }
      hide Inv, SweptAt, Step, Untouched, SweptLast;
      RunSweeps(s1, rest, k);
      StepLeaves(s, a, k);
      SweptLastStep(a, rest, k);
      assert acts == [a] + rest;
    }
  }

  /** Exactly which ends leave something behind.  An ended upload nobody deletes has its row if
      it passed, was never rechecked, or got stuck in its rollback; a kept one has both copies;
      any other has its file, or its object, if and only if one of the listed answers was given,
      or a sweep took the file for the agent's and stored it for good. */
  lemma LeftBehindIff(s: State, acts: seq<Action>, k: nat)
    requires Start(s) && Run(s, acts).Some? && k < |Run(s, acts).value.ups|
    requires Ended(Run(s, acts).value.ups[k]) && !Run(s, acts).value.ups[k].deleting
    ensures var u := Run(s, acts).value.ups[k];
            && (u.row <==> u.stage.Passed? || u.stage.Unchecked? || u.stage.Stuck?)
            && (if u.stage.Passed? || u.stage.Unchecked? then u.file && u.durable
                else (u.file <==> exists a :: a in acts && LeavesFile(a, k))
                     && (u.durable <==> (exists a :: a in acts && LeavesObject(a, k)) || SweptLast(acts, k)))
  {
    StartInv(s);
    RunKeepsInv(s, acts);
    RunLeaves(s, acts, k);
    RunSweeps(s, acts, k);
    assert k < |s.ups| ==> s.ups[k] in s.ups;
    assert !FileLeftAt(s, k) && !ObjectLeftAt(s, k) && !SweptAt(s, k);
    var s' := Run(s, acts).value;
    assert UploadOk(s'.ups[k]);
    hide Run, Inv, LeavesFile, LeavesObject, SweptLast;
  }

  lemma {:induction false} RunJoin(s: State, xs: seq<Action>, ys: seq<Action>)
    requires Run(s, xs).Some?
    ensures Run(s, xs + ys) == Run(Run(s, xs).value, ys)
    decreases xs
  {
    if xs == [] {
      assert xs + ys == ys;
    } else {
      RunJoin(Step(s, xs[0]).value, xs[1..], ys);
      assert (xs + ys)[1..] == xs[1..] + ys;
    }
  }

  lemma RunOne(s: State, a: Action)
    ensures Run(s, [a]) == Step(s, a)
  {
    assert [a][1..] == [];
  }

  lemma RunTwo(s: State, a: Action, b: Action)
    requires Step(s, a).Some?
    ensures Run(s, [a, b]) == Step(Step(s, a).value, b)
  {
    assert [a, b][1..] == [b];
    RunOne(Step(s, a).value, b);
  }

  /** One more upload beside what is there. */
  function With(s: State, u: Upload): State {
    s.(ups := s.ups + [u])
  }

  /** A step of the upload that came last. */
  lemma StepWith(s: State, u: Upload, a: Action, v: Upload)
    requires !a.Begin? && a.k == |s.ups| && Next(With(s, u), u, a) == Some(v)
    ensures Step(With(s, u), a) == Some(With(s, v))
  {
    assert (s.ups + [u])[|s.ups| := v] == s.ups + [v];
    hide Next;
  }

  const STARTED := Upload(0, Streaming(0), false, true, false, false, IDLE)

  function Arrived(size: nat): Upload {
    STARTED.(size := size, stage := Local)
  }

  predicate FitsNow(s: State, size: nat) {
    Quota.Fits(Quota.Limits(s.maxFile, s.quota, RowTotal(s.ups)), size)
  }

  lemma Arrives(s: State, size: nat)
    requires FitsNow(s, size)
    ensures Run(s, [Begin, Streamed(|s.ups|, size)]) == Some(With(s, Arrived(size)))
  {
    StepWith(s, Begun(s), Streamed(|s.ups|, size), Arrived(size));
    RunTwo(s, Begin, Streamed(|s.ups|, size));
  }

  /** A body that breaks off leaves its partial file in the agent's working directory. */
  lemma AbortLeavesFile(s: State)
    ensures Run(s, [Begin, Abort(|s.ups|)])
         == Some(With(s, STARTED.(stage := Aborted)))
  {
    StepWith(s, Begun(s), Abort(|s.ups|), STARTED.(stage := Aborted));
    RunTwo(s, Begin, Abort(|s.ups|));
  }

  lemma FailsToPut(s: State, size: nat)
    ensures Run(With(s, Arrived(size)), [PutFails(|s.ups|, true, true)])
         == Some(With(s, Upload(size, PutFailed(true), false, false, true, false, IDLE)))
  {
    var n := |s.ups|;
    StepWith(s, Arrived(size), PutFails(n, true, true), Upload(size, PutFailed(true), false, false, true, false, IDLE));
    hide *;
    RunOne(With(s, Arrived(size)), PutFails(n, true, true));
  }

  /** A put that fails half-way leaves a partial object that no row names. */
  lemma PartialPutLeavesObject(s: State, size: nat)
    requires FitsNow(s, size)
    ensures Run(s, [Begin, Streamed(|s.ups|, size)] + [PutFails(|s.ups|, true, true)])
         == Some(With(s, Upload(size, PutFailed(true), false, false, true, false, IDLE)))
  {
    hide *;
    Arrives(s, size);
    FailsToPut(s, size);
    RunJoin(s, [Begin, Streamed(|s.ups|, size)], [PutFails(|s.ups|, true, true)]);
  }

  lemma FailsToCommit(s: State, size: nat)
    ensures Run(With(s, Arrived(size)), [Put(|s.ups|), CommitFails(|s.ups|)])
         == Some(With(s, Upload(size, CommitFailed, false, true, true, false, IDLE)))
  {
    var n := |s.ups|;
    var stored := Upload(size, Stored, false, true, true, false, IDLE);
    StepWith(s, Arrived(size), Put(n), stored);
    StepWith(s, stored, CommitFails(n), stored.(stage := CommitFailed));
    hide *;
    RunTwo(With(s, Arrived(size)), Put(n), CommitFails(n));
  }

  /** A commit that fails leaves both copies without a row. */
  lemma CommitFailureLeavesBoth(s: State, size: nat)
    requires FitsNow(s, size)
    ensures Run(s, [Begin, Streamed(|s.ups|, size)] + [Put(|s.ups|), CommitFails(|s.ups|)])
         == Some(With(s, Upload(size, CommitFailed, false, true, true, false, IDLE)))
  {
    hide *;
    Arrives(s, size);
    FailsToCommit(s, size);
    RunJoin(s, [Begin, Streamed(|s.ups|, size)], [Put(|s.ups|), CommitFails(|s.ups|)]);
  }

  lemma RunThree(s: State, a: Action, b: Action, c: Action)
    requires Step(s, a).Some? && Step(Step(s, a).value, b).Some?
    ensures Run(s, [a, b, c]) == Step(Step(Step(s, a).value, b).value, c)
  {
    assert [a, b, c][1..] == [b, c];
    RunTwo(Step(s, a).value, b, c);
  }

  const SWEPT := Sweep(0, 0, true)

  lemma Sweeps(s: State)
    ensures var n := |s.ups|;
            Run(With(s, Begun(s)), [SweepLists(n), SweepOpens(n), SweepPuts(n, true)])
            == Some(With(s, Begun(s).(durable := true, sweep := SWEPT)))
  {
    var n, u := |s.ups|, Begun(s);
    var u1, u2 := u.(sweep := Sweep(1, 0, false)), u.(sweep := Sweep(0, 1, false));
    StepWith(s, u, SweepLists(n), u1);
    StepWith(s, u1, SweepOpens(n), u2);
    StepWith(s, u2, SweepPuts(n, true), u.(durable := true, sweep := SWEPT));
    hide *;
    RunThree(With(s, u), SweepLists(n), SweepOpens(n), SweepPuts(n, true));
  }

  lemma RejectsSwept(s: State)
    ensures var n := |s.ups|;
            Run(With(s, Begun(s).(durable := true, sweep := SWEPT)), [StreamRejected(n, true)])
            == Some(With(s, Upload(0, Refused, false, false, true, false, SWEPT)))
  {
    var n, u := |s.ups|, Begun(s).(durable := true, sweep := SWEPT);
    StepWith(s, u, StreamRejected(n, true), Upload(0, Refused, false, false, true, false, SWEPT));
    hide *;
    RunOne(With(s, u), StreamRejected(n, true));
  }

  /** A run of the conversation that finishes while a body is still arriving stores the partial
      file under the upload's own key, and refusing the upload does not remove it. */
  lemma SweepLeavesObject(s: State)
    ensures var n := |s.ups|;
            Run(s, [Begin] + ([SweepLists(n), SweepOpens(n), SweepPuts(n, true)] + [StreamRejected(n, true)]))
            == Some(With(s, Upload(0, Refused, false, false, true, false, SWEPT)))
  {
    var n := |s.ups|;
    assert Step(s, Begin) == Some(With(s, Begun(s)));
    Sweeps(s);
    RejectsSwept(s);
    hide *;
    RunOne(s, Begin);
    RunJoin(With(s, Begun(s)), [SweepLists(n), SweepOpens(n), SweepPuts(n, true)], [StreamRejected(n, true)]);
    RunJoin(s, [Begin], [SweepLists(n), SweepOpens(n), SweepPuts(n, true)] + [StreamRejected(n, true)]);
  }

  /** Deleting a conversation drops the rows and the files of its uploads and keeps the objects. */
  lemma ConversationDeletionKeepsObject(s: State, k: nat)
    requires k < |s.ups| && s.ups[k].row && s.ups[k].durable
    ensures var end := Run(s, [DropConversation(k, true)]);
            end.Some? && k < |end.value.ups|
            && !end.value.ups[k].row && !end.value.ups[k].file && end.value.ups[k].durable
  {
    RunOne(s, DropConversation(k, true));
  }
}
