/** Two uploads racing for the last of a quota (app/controllers/files.py): when both are rolled
    back although either would have fitted. */
module QuotaRace {
  import opened Wrappers
  import opened QuotaProtocol

  /** No further commit, no delete, and a database that answers: what else may interleave. */
  predicate Quiet(a: Action) {
    !a.Commit? && !IsDelete(a) && !a.RecheckFails? && !a.UndoRowFails?
  }

  ghost predicate AllQuiet(acts: seq<Action>) {
    forall a :: a in acts ==> Quiet(a)
  }

  predicate Undoing(u: Upload) {
    u.row && (u.stage.UndoingObject? || u.stage.UndoingFile? || u.stage.UndoingRow?)
  }

  predicate Waiting(u: Upload) {
    u.row && u.stage.Committed?
  }

  predicate Lost(u: Upload) {
    Undoing(u) || (u.stage.RolledBack? && !u.row)
  }

  predicate Kept(u: Upload) {
    u.row && u.stage.Passed?
  }

  /** Every row but those of the two racers has passed. */
  ghost predicate OthersPassed(s: State, i: nat, j: nat) {
    forall m :: 0 <= m < |s.ups| && m != i && m != j && s.ups[m].row ==> s.ups[m].stage.Passed?
  }

  ghost predicate Race(s: State, i: nat, j: nat) {
    s.quota > 0 && i < |s.ups| && j < |s.ups| && i != j && OthersPassed(s, i, j)
  }

  /** x occurs, and before any y. */
  predicate Precedes(acts: seq<Action>, x: Action, y: Action)
    decreases acts
  {
    acts != [] && (acts[0] == x || (acts[0] != y && Precedes(acts[1..], x, y)))
  }

  // -- one quiet step ----------------------------------------------------------------------

  lemma QuietNext(s: State, u: Upload, a: Action)
    requires Quiet(a) && !a.Begin? && Next(s, u, a).Some?
    ensures var v := Next(s, u, a).value;
            && v.row == (u.row && !a.UndoRow?)
            && (IsSweep(a) || u.stage.Passed? || u.stage.RolledBack? ==>
                  IsSweep(a) && v.stage == u.stage && v.size == u.size)
            && (Waiting(u) && !IsSweep(a) ==>
                  a.Recheck? && v == u.(stage := if Over(s) then UndoingObject else Passed))
            && (Undoing(u) ==> if a.UndoRow? then v.stage.RolledBack? && !v.row
                               else Undoing(v) && v.size == u.size)
            && (a.UndoRow? ==> u.stage.UndoingRow?)
  {
    hide Over;
  }

  /** What a quiet step changes: at most one racer, and the total only when a racer's row goes. */
  lemma QuietStep(s: State, a: Action, i: nat, j: nat)
    requires Race(s, i, j) && Quiet(a) && Step(s, a).Some?
    ensures var s' := Step(s, a).value;
            && Race(s', i, j) && s'.quota == s.quota
            && (a.Begin? || (a.k != i && a.k != j) ==>
                  s'.ups[i] == s.ups[i] && s'.ups[j] == s.ups[j] && RowTotal(s'.ups) == RowTotal(s.ups))
            && (!a.Begin? && a.k == i ==>
                  s'.ups[j] == s.ups[j] && Next(s, s.ups[i], a) == Some(s'.ups[i])
                  && RowTotal(s'.ups) == RowTotal(s.ups) - Counted(s.ups[i]) + Counted(s'.ups[i]))
            && (!a.Begin? && a.k == j ==>
                  s'.ups[i] == s.ups[i] && Next(s, s.ups[j], a) == Some(s'.ups[j])
                  && RowTotal(s'.ups) == RowTotal(s.ups) - Counted(s.ups[j]) + Counted(s'.ups[j]))
  {
    if a.Begin? {
      assert (s.ups + [Begun(s)])[..|s.ups|] == s.ups;
    } else {
      var u := Next(s, s.ups[a.k], a).value;
      QuietNext(s, s.ups[a.k], a);
      RowTotalUpdate(s.ups, a.k, u);
      hide Next, RowTotal;
    }
  }

  /** What a quiet step makes of one racer. */
  predicate RacerStep(s: State, u: Upload, v: Upload, recheck: bool, undoRow: bool) {
    && (Waiting(u) ==> if recheck then v == u.(stage := if Over(s) then UndoingObject else Passed)
                       else Waiting(v) && v.size == u.size)
    && (Undoing(u) ==> if undoRow then v.stage.RolledBack? && !v.row else Undoing(v) && v.size == u.size)
    && (u.stage.RolledBack? && !u.row ==> v.stage.RolledBack? && !v.row)
  }

  lemma QuietRacers(s: State, a: Action, i: nat, j: nat)
    requires Race(s, i, j) && Quiet(a) && Step(s, a).Some?
    ensures var s' := Step(s, a).value;
            && RacerStep(s, s.ups[i], s'.ups[i], a == Recheck(i), a == UndoRow(i))
            && RacerStep(s, s.ups[j], s'.ups[j], a == Recheck(j), a == UndoRow(j))
  {
    if !a.Begin? { QuietNext(s, s.ups[a.k], a); }
    hide Next, Over;
  }

  lemma RaceIsSymmetric(s: State, i: nat, j: nat)
    ensures Race(s, i, j) <==> Race(s, j, i)
  {
  }

  lemma {:induction false} LostForever(s: State, acts: seq<Action>, i: nat, j: nat)
    requires Race(s, i, j) && AllQuiet(acts) && Run(s, acts).Some? && Lost(s.ups[i])
    ensures i < |Run(s, acts).value.ups| && Lost(Run(s, acts).value.ups[i])
    decreases acts
  {
    if acts != [] {
      var a := acts[0];
      assert a in acts && forall b :: b in acts[1..] ==> b in acts;
      QuietStep(s, a, i, j);
      if !a.Begin? && a.k == i { QuietNext(s, s.ups[i], a); }
      hide Next, Step, Race, Quiet;
      LostForever(Step(s, a).value, acts[1..], i, j);
    }
  }

  lemma {:induction false} KeptForever(s: State, acts: seq<Action>, i: nat, j: nat)
    requires Race(s, i, j) && AllQuiet(acts) && Run(s, acts).Some? && Kept(s.ups[i])
    ensures i < |Run(s, acts).value.ups| && Kept(Run(s, acts).value.ups[i])
    decreases acts
  {
    if acts != [] {
      var a := acts[0];
      assert a in acts && forall b :: b in acts[1..] ==> b in acts;
      QuietStep(s, a, i, j);
      if !a.Begin? && a.k == i { QuietNext(s, s.ups[i], a); }
      hide Next, Step, Race, Quiet;
      KeptForever(Step(s, a).value, acts[1..], i, j);
    }
  }

  // -- the race ----------------------------------------------------------------------------

  /** The other racer's row is gone: whoever rechecks now is kept. */
  lemma {:induction false} LastRacer(s: State, acts: seq<Action>, i: nat, j: nat)
    requires Race(s, i, j) && AllQuiet(acts) && Run(s, acts).Some?
    requires s.ups[i].stage.RolledBack? && !s.ups[i].row && Waiting(s.ups[j]) && !Over(s)
    requires j < |Run(s, acts).value.ups| && !Waiting(Run(s, acts).value.ups[j])
    ensures Kept(Run(s, acts).value.ups[j])
    decreases acts
  {
    if acts != [] {
      var a := acts[0];
      assert a in acts && forall b :: b in acts[1..] ==> b in acts;
      QuietStep(s, a, i, j);
      QuietRacers(s, a, i, j);
      if a == Recheck(j) {
        hide Next, Step, Race, Quiet;
        RaceIsSymmetric(Step(s, a).value, i, j);
        KeptForever(Step(s, a).value, acts[1..], j, i);
      } else {
        hide Next, Step, Race, Quiet, RowTotal;
        LastRacer(Step(s, a).value, acts[1..], i, j);
      }
    }
  }

  predicate BothFitAlone(s: State, i: nat, j: nat)
    requires i < |s.ups| && j < |s.ups|
  {
    Over(s) && RowTotal(s.ups) - s.ups[i].size <= s.quota && RowTotal(s.ups) - s.ups[j].size <= s.quota
  }

  /** Racer i has been refused and is taking its row back; j has still to look. */
  lemma {:induction false} SecondRecheck(s: State, acts: seq<Action>, i: nat, j: nat)
    requires Race(s, i, j) && AllQuiet(acts) && Run(s, acts).Some?
    requires Undoing(s.ups[i]) && Waiting(s.ups[j]) && BothFitAlone(s, i, j)
    requires j < |Run(s, acts).value.ups| && !Waiting(Run(s, acts).value.ups[j])
    ensures var s' := Run(s, acts).value;
            && i < |s'.ups| && Lost(s'.ups[i])
            && (if Precedes(acts, Recheck(j), UndoRow(i)) then Lost(s'.ups[j]) else Kept(s'.ups[j]))
    decreases acts
  {
    if acts != [] {
      var a, rest := acts[0], acts[1..];
      var s1 := Step(s, a).value;
      assert a in acts && forall b :: b in rest ==> b in acts;
      QuietStep(s, a, i, j);
      QuietRacers(s, a, i, j);
      if a == Recheck(j) {
        hide Next, Step, Race, Quiet, RowTotal;
        RaceIsSymmetric(s1, i, j);
        LostForever(s1, rest, i, j);
        LostForever(s1, rest, j, i);
      } else if a == UndoRow(i) {
        hide Next, Step, Race, Quiet;
        LostForever(s1, rest, i, j);
        LastRacer(s1, rest, i, j);
      } else {
        hide Next, Step, Race, Quiet;
        SecondRecheck(s1, rest, i, j);
      }
    }
  }

  /** Two racers that have committed, fit alone, and do not fit together. */
  ghost predicate Racing(s: State, i: nat, j: nat) {
    Race(s, i, j) && Waiting(s.ups[i]) && Waiting(s.ups[j]) && BothFitAlone(s, i, j)
  }

  lemma FirstLooks(s: State, i: nat, j: nat)
    requires Racing(s, i, j) && Step(s, Recheck(i)).Some?
    ensures var s1 := Step(s, Recheck(i)).value;
            Race(s1, i, j) && Undoing(s1.ups[i]) && Waiting(s1.ups[j]) && BothFitAlone(s1, i, j)
  {
    QuietStep(s, Recheck(i), i, j);
    QuietRacers(s, Recheck(i), i, j);
    hide Next, Step, Race, RowTotal;
  }

  lemma NobodyLooks(s: State, a: Action, i: nat, j: nat)
    requires Racing(s, i, j) && Step(s, a).Some? && Quiet(a) && a != Recheck(i) && a != Recheck(j)
    ensures Racing(Step(s, a).value, i, j) && a != UndoRow(i) && a != UndoRow(j)
  {
    QuietStep(s, a, i, j);
    QuietRacers(s, a, i, j);
    if !a.Begin? { QuietNext(s, s.ups[a.k], a); }
    hide Next, Step, Race, RowTotal, Quiet;
  }

  /** How the race has ended. */
  predicate Settled(s: State, i: nat, j: nat, bothLose: bool) {
    && i < |s.ups| && j < |s.ups|
    && (Lost(s.ups[i]) || Kept(s.ups[i])) && (Lost(s.ups[j]) || Kept(s.ups[j]))
    && (Lost(s.ups[i]) || Lost(s.ups[j]))
    && (Lost(s.ups[i]) && Lost(s.ups[j]) <==> bothLose)
  }

  lemma AfterFirstLook(s: State, acts: seq<Action>, i: nat, j: nat)
    requires Racing(s, i, j) && AllQuiet(acts) && Step(s, Recheck(i)).Some?
    requires Run(Step(s, Recheck(i)).value, acts).Some?
    requires var s' := Run(Step(s, Recheck(i)).value, acts).value; j < |s'.ups| && !Waiting(s'.ups[j])
    ensures var s' := Run(Step(s, Recheck(i)).value, acts).value;
            Settled(s', i, j, Precedes(acts, Recheck(j), UndoRow(i)))
  {
    FirstLooks(s, i, j);
    hide Race, Step, Run, Precedes, BothFitAlone, AllQuiet, Racing;
    SecondRecheck(Step(s, Recheck(i)).value, acts, i, j);
  }

  /** Whether there is a winner, exactly.  Of two committed uploads that fit alone but not
      together, over every interleaving in which both finish, one is kept; except that both are
      rolled back if and only if each looked before the other had taken its row back. */
  lemma {:induction false} BothLoseIff(s: State, acts: seq<Action>, i: nat, j: nat)
    requires Racing(s, i, j) && AllQuiet(acts) && Run(s, acts).Some?
    requires var s' := Run(s, acts).value;
             i < |s'.ups| && j < |s'.ups| && !Waiting(s'.ups[i]) && !Waiting(s'.ups[j])
    ensures Settled(Run(s, acts).value, i, j,
                    Precedes(acts, Recheck(i), UndoRow(j)) && Precedes(acts, Recheck(j), UndoRow(i)))
    decreases acts
  {
    var a, rest := acts[0], acts[1..];
    var s1 := Step(s, a).value;
    assert a in acts && forall b :: b in rest ==> b in acts;
    assert Run(s, acts) == Run(s1, rest) && AllQuiet(rest) && i != j && Quiet(a);
    hide Next, Step, Race, Quiet, RowTotal, Run, BothFitAlone, AllQuiet;
    if a == Recheck(i) {
      AfterFirstLook(s, rest, i, j);
    } else if a == Recheck(j) {
      RaceIsSymmetric(s, i, j);
      FitsAloneEither(s, i, j);
      AfterFirstLook(s, rest, j, i);
    } else {
      NobodyLooks(s, a, i, j);
      hide Racing;
      BothLoseIff(s1, rest, i, j);
    }
  }

  lemma FitsAloneEither(s: State, i: nat, j: nat)
    requires i < |s.ups| && j < |s.ups|
    ensures BothFitAlone(s, i, j) <==> BothFitAlone(s, j, i)
  {
  }

  // -- the losing schedule, from the first precheck on ------------------------------------------

  function Pair(s: State, x: Upload, y: Upload): State {
    With(With(s, x), y)
  }

  lemma PairTotal(s: State, x: Upload, y: Upload)
    ensures RowTotal(Pair(s, x, y).ups) == RowTotal(s.ups) + Counted(x) + Counted(y)
  {
    var both, one := Pair(s, x, y).ups, s.ups + [x];
    assert both[..|both| - 1] == one && one[..|one| - 1] == s.ups;
  }

  /** The same step of both uploads, one after the other. */
  lemma PairStep(s: State, x: Upload, y: Upload, a: Action, b: Action, x': Upload, y': Upload)
    requires !a.Begin? && a.k == |s.ups| && !b.Begin? && b.k == |s.ups| + 1
    requires Next(Pair(s, x, y), x, a) == Some(x') && Next(Pair(s, x', y), y, b) == Some(y')
    ensures Run(Pair(s, x, y), [a, b]) == Some(Pair(s, x', y'))
  {
    hide Next, Run, RowTotal;
    var n := |s.ups|;
    assert Step(Pair(s, x, y), a) == Some(Pair(s, x', y)) by {
      assert (s.ups + [x] + [y])[n := x'] == s.ups + [x'] + [y];
    }
    assert Step(Pair(s, x', y), b) == Some(Pair(s, x', y')) by {
      assert (s.ups + [x'] + [y])[n + 1 := y'] == s.ups + [x'] + [y'];
    }
    RunTwo(Pair(s, x, y), a, b);
  }

  function Racer(size: nat, stage: Stage, row: bool, durable: bool): Upload {
    Upload(size, stage, row, true, durable, false, IDLE)
  }

  /** Both fit on the snapshot each has taken. */
  predicate FitApartOnly(s: State, a: nat, b: nat) {
    FitsNow(s, a) && FitsNow(s, b) && 0 < s.quota < RowTotal(s.ups) + a + b
  }

  lemma BothBegin(s: State)
    ensures Run(s, [Begin, Begin]) == Some(Pair(s, Begun(s), Begun(s)))
  {
    var x := Begun(s);
    assert RowTotal(With(s, x).ups) == RowTotal(s.ups) by { assert (s.ups + [x])[..|s.ups|] == s.ups; }
    RunTwo(s, Begin, Begin);
    hide Run, RowTotal;
  }

  lemma BothStreamed(s: State, a: nat, b: nat)
    requires FitApartOnly(s, a, b)
    ensures Run(Pair(s, Begun(s), Begun(s)), [Streamed(|s.ups|, a), Streamed(|s.ups| + 1, b)])
         == Some(Pair(s, Racer(a, Local, false, false), Racer(b, Local, false, false)))
  {
    hide RowTotal, Run;
    PairStep(s, Begun(s), Begun(s), Streamed(|s.ups|, a), Streamed(|s.ups| + 1, b),
             Racer(a, Local, false, false), Racer(b, Local, false, false));
  }

  lemma BothArrive(s: State, a: nat, b: nat)
    requires FitApartOnly(s, a, b)
    ensures var n := |s.ups|;
            Run(s, [Begin, Begin] + [Streamed(n, a), Streamed(n + 1, b)])
            == Some(Pair(s, Racer(a, Local, false, false), Racer(b, Local, false, false)))
  {
    hide *;
    BothBegin(s);
    BothStreamed(s, a, b);
    RunJoin(s, [Begin, Begin], [Streamed(|s.ups|, a), Streamed(|s.ups| + 1, b)]);
  }

  lemma BothCommit(s: State, a: nat, b: nat)
    ensures var n := |s.ups|;
            Run(Pair(s, Racer(a, Local, false, false), Racer(b, Local, false, false)),
                [Put(n), Put(n + 1)] + [Commit(n), Commit(n + 1)])
            == Some(Pair(s, Racer(a, Committed, true, true), Racer(b, Committed, true, true)))
  {
    var n := |s.ups|;
    var x, y := Racer(a, Local, false, false), Racer(b, Local, false, false);
    var x', y' := Racer(a, Stored, false, true), Racer(b, Stored, false, true);
    PairStep(s, x, y, Put(n), Put(n + 1), x', y');
    PairStep(s, x', y', Commit(n), Commit(n + 1), Racer(a, Committed, true, true), Racer(b, Committed, true, true));
    hide *;
    RunJoin(Pair(s, x, y), [Put(n), Put(n + 1)], [Commit(n), Commit(n + 1)]);
  }

  lemma BothRefused(s: State, a: nat, b: nat)
    requires 0 < s.quota < RowTotal(s.ups) + a + b
    ensures var n := |s.ups|;
            Run(Pair(s, Racer(a, Committed, true, true), Racer(b, Committed, true, true)),
                [Recheck(n), Recheck(n + 1)] + [UndoObject(n, true), UndoObject(n + 1, true)])
            == Some(Pair(s, Racer(a, UndoingFile(true), true, false), Racer(b, UndoingFile(true), true, false)))
  {
    var n := |s.ups|;
    var x, y := Racer(a, Committed, true, true), Racer(b, Committed, true, true);
    var x', y' := Racer(a, UndoingObject, true, true), Racer(b, UndoingObject, true, true);
    PairTotal(s, x, y);
    PairTotal(s, x', y);
    assert Over(Pair(s, x, y)) && Over(Pair(s, x', y));
    hide Over, RowTotal;
    PairStep(s, x, y, Recheck(n), Recheck(n + 1), x', y');
    PairStep(s, x', y', UndoObject(n, true), UndoObject(n + 1, true),
             Racer(a, UndoingFile(true), true, false), Racer(b, UndoingFile(true), true, false));
    hide *;
    RunJoin(Pair(s, x, y), [Recheck(n), Recheck(n + 1)], [UndoObject(n, true), UndoObject(n + 1, true)]);
  }

  lemma BothGone(s: State, a: nat, b: nat)
    ensures var n := |s.ups|;
            Run(Pair(s, Racer(a, UndoingFile(true), true, false), Racer(b, UndoingFile(true), true, false)),
                [UndoFile(n, true), UndoFile(n + 1, true)] + [UndoRow(n), UndoRow(n + 1)])
            == Some(Pair(s, Upload(a, RolledBack(true), false, false, false, false, IDLE),
                            Upload(b, RolledBack(true), false, false, false, false, IDLE)))
  {
    var n := |s.ups|;
    var x, y := Racer(a, UndoingFile(true), true, false), Racer(b, UndoingFile(true), true, false);
    var x', y' := x.(stage := UndoingRow(true), file := false), y.(stage := UndoingRow(true), file := false);
    PairStep(s, x, y, UndoFile(n, true), UndoFile(n + 1, true), x', y');
    PairStep(s, x', y', UndoRow(n), UndoRow(n + 1),
             x'.(stage := RolledBack(true), row := false), y'.(stage := RolledBack(true), row := false));
    hide *;
    RunJoin(Pair(s, x, y), [UndoFile(n, true), UndoFile(n + 1, true)], [UndoRow(n), UndoRow(n + 1)]);
  }

  lemma RunFour(s: State, xs: seq<Action>, ys: seq<Action>, zs: seq<Action>, ws: seq<Action>,
                t: State, u: State, v: State)
    requires Run(s, xs) == Some(t) && Run(t, ys) == Some(u) && Run(u, zs) == Some(v)
    ensures Run(s, xs + (ys + (zs + ws))) == Run(v, ws)
  {
    RunJoin(s, xs, ys + (zs + ws));
    RunJoin(t, ys, zs + ws);
    RunJoin(u, zs, ws);
  }

  /** There need not be a winner: from any state in which each upload fits and both do not, some
      schedule accepts both prechecks and rolls both uploads back, without a trace. */
  lemma BothRacersMayLose(s: State, a: nat, b: nat)
    requires Start(s) && FitApartOnly(s, a, b)
    ensures exists acts ::
              Run(s, acts) == Some(Pair(s, Upload(a, RolledBack(true), false, false, false, false, IDLE),
                                           Upload(b, RolledBack(true), false, false, false, false, IDLE)))
  {
    var n := |s.ups|;
    BothArrive(s, a, b);
    BothCommit(s, a, b);
    BothRefused(s, a, b);
    BothGone(s, a, b);
    hide *;
    RunFour(s, [Begin, Begin] + [Streamed(n, a), Streamed(n + 1, b)],
            [Put(n), Put(n + 1)] + [Commit(n), Commit(n + 1)],
            [Recheck(n), Recheck(n + 1)] + [UndoObject(n, true), UndoObject(n + 1, true)],
            [UndoFile(n, true), UndoFile(n + 1, true)] + [UndoRow(n), UndoRow(n + 1)],
            Pair(s, Racer(a, Local, false, false), Racer(b, Local, false, false)),
            Pair(s, Racer(a, Committed, true, true), Racer(b, Committed, true, true)),
            Pair(s, Racer(a, UndoingFile(true), true, false), Racer(b, UndoingFile(true), true, false)));
  }

  lemma BothUnchecked(s: State, a: nat, b: nat)
    ensures var n := |s.ups|;
            Run(Pair(s, Racer(a, Committed, true, true), Racer(b, Committed, true, true)),
                [RecheckFails(n), RecheckFails(n + 1)])
            == Some(Pair(s, Racer(a, Unchecked, true, true), Racer(b, Unchecked, true, true)))
  {
    var n := |s.ups|;
    PairStep(s, Racer(a, Committed, true, true), Racer(b, Committed, true, true), RecheckFails(n), RecheckFails(n + 1),
             Racer(a, Unchecked, true, true), Racer(b, Unchecked, true, true));
  }

  lemma PairOverruns(s: State, a: nat, b: nat)
    requires FitApartOnly(s, a, b)
    ensures RowTotal(Pair(s, Racer(a, Unchecked, true, true), Racer(b, Unchecked, true, true)).ups) > s.quota
  {
    PairTotal(s, Racer(a, Unchecked, true, true), Racer(b, Unchecked, true, true));
  }

  /** The recheck is what keeps the quota: when its query raises for both, both uploads stay and
      the stored total exceeds the quota with nothing left to correct it. */
  lemma RecheckFailuresOverrun(s: State, a: nat, b: nat)
    requires Start(s) && FitApartOnly(s, a, b)
    ensures exists acts ::
              Run(s, acts) == Some(Pair(s, Racer(a, Unchecked, true, true), Racer(b, Unchecked, true, true)))
    ensures RowTotal(Pair(s, Racer(a, Unchecked, true, true), Racer(b, Unchecked, true, true)).ups) > s.quota
  {
    hide *;
    var n := |s.ups|;
    var end := Pair(s, Racer(a, Unchecked, true, true), Racer(b, Unchecked, true, true));
    PairOverruns(s, a, b);
    BothArrive(s, a, b);
    BothCommit(s, a, b);
    BothUnchecked(s, a, b);
    RunFour(s, [Begin, Begin] + [Streamed(n, a), Streamed(n + 1, b)],
            [Put(n), Put(n + 1)] + [Commit(n), Commit(n + 1)],
            [RecheckFails(n), RecheckFails(n + 1)], [],
            Pair(s, Racer(a, Local, false, false), Racer(b, Local, false, false)),
            Pair(s, Racer(a, Committed, true, true), Racer(b, Committed, true, true)), end);
    RunNone(end);
  }

  lemma RunNone(s: State)
    ensures Run(s, []) == Some(s)
  {
  }
}
