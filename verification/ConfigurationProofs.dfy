/** At-most-once writes, superseded workers and finished intents, over every run. */
module ConfigurationProofs {
  import opened Prelude
  import opened Calendar
  import opened Configuration
  import opened ConfigurationRuns

  // ---------- runs ----------

  lemma {:induction false} RunCons(w: World, step: Step, rest: seq<Step>)
    ensures Run(w, [step] + rest) == Run(Next(w, step), rest)
  {
    var all := [step] + rest;
    if rest == [] {
      assert all[..|all| - 1] == [];
    } else {
      RunCons(w, step, rest[..|rest| - 1]);
      assert all[..|all| - 1] == [step] + rest[..|rest| - 1];
    }
  }

  /** What no step ever does to an existing row or to the log. */
  ghost predicate Extends(w: World, w': World) {
    && w.log <= w'.log
    && (forall t :: t in w.workers ==> t in w'.workers && w'.workers[t].id == w.workers[t].id)
    && (forall id :: id in w.rows ==>
          && id in w'.rows
          && w'.rows[id].point == w.rows[id].point && w'.rows[id].actor == w.rows[id].actor
          && w'.rows[id].key == w.rows[id].key && w'.rows[id].value == w.rows[id].value
          && (w.rows[id].resetId.Some? ==> w'.rows[id].resetId == w.rows[id].resetId)
          && (w'.rows[id].state.Queued? ==> w.rows[id].state.Queued?))
  }

  lemma TouchExtends(w: World, w': World, token: Id)
    requires Touches(w, w', token)
    ensures Extends(w, w')
  {
  }

  lemma ClaimExtends(w: World, id: Id, token: Id, now: int, p: Point)
    requires id in w.rows && token !in w.workers
    ensures Extends(w, ClaimNext(w, id, token, now, p))
  {
  }

  lemma RequestExtends(w: World, step: Step)
    requires step.SubmitStep? || step.RequestResetStep?
    ensures Extends(w, Next(w, step))
  {
  }

  lemma StepExtends(w: World, step: Step)
    requires Inv(w)
    ensures Extends(w, Next(w, step))
  {
    match step
    case SubmitStep(_, _, _, _, _, _, _) => RequestExtends(w, step);
    case RequestResetStep(_, _, _, _, _, _) => RequestExtends(w, step);
    case ClaimStep(id, token, now, p) =>
      if id in w.rows && token !in w.workers {
        ClaimExtends(w, id, token, now, p);
      }
    case _ =>
      if step.token in w.workers {
        assert WorkerOk(w, step.token);
        WorkerTouches(w, step);
        TouchExtends(w, WorkerNext(w, step), step.token);
      }
  }

  /** The request itself never changes, a reset id is set once, and no intent returns to queued. */
  lemma {:induction false} NeverQueuedAgain(w: World, steps: seq<Step>)
    requires Inv(w)
    ensures Extends(w, Run(w, steps))
  {
    if steps == [] {
    } else {
      var before := Run(w, steps[..|steps| - 1]);
      NeverQueuedAgain(w, steps[..|steps| - 1]);
      InvOverRuns(w, steps[..|steps| - 1]);
      StepExtends(before, steps[|steps| - 1]);
      ExtendsTransitive(w, before, Run(w, steps));
    }
  }

  lemma ExtendsTransitive(a: World, b: World, c: World)
    requires Extends(a, b) && Extends(b, c)
    ensures Extends(a, c)
  {
  }

  // ---------- at most once ----------

  /** Each intent sends ChangeConfiguration at most once and Reset at most once, and no OCPP message id
      is ever used for two writes of any intents. */
  lemma {:induction false} WritesAtMostOnce(steps: seq<Step>)
    ensures var log := Run(EMPTY, steps).log;
            forall j, k :: 0 <= j < k < |log| ==>
              && MessageId(log[j]) != MessageId(log[k])
              && (log[j].intent == log[k].intent ==> log[j].ChangeWrite? != log[k].ChangeWrite?)
  {
    InvOverRuns(EMPTY, steps);
  }

  /** The step that set a reset id. */
  ghost predicate RequestedAt(steps: seq<Step>, n: nat, id: Id, resetId: Id) {
    && n < |steps| && steps[n].RequestResetStep? && steps[n].id == id && steps[n].resetId == resetId
    && !steps[n].p.archived && !steps[n].p.busy
    && id in Run(EMPTY, steps[..n]).rows && Run(EMPTY, steps[..n]).rows[id].state.RebootRequired?
  }

  lemma {:induction false} ResetIdWasRequested(steps: seq<Step>, id: Id) returns (n: nat)
    requires id in Run(EMPTY, steps).rows && Run(EMPTY, steps).rows[id].resetId.Some?
    ensures RequestedAt(steps, n, id, Run(EMPTY, steps).rows[id].resetId.value)
  {
    assert steps != [];
    var init, step := steps[..|steps| - 1], steps[|steps| - 1];
    var w := Run(EMPTY, init);
    InvOverRuns(EMPTY, init);
    StepExtends(w, step);
    if id in w.rows && w.rows[id].resetId.Some? {
      n := ResetIdWasRequested(init, id);
      assert steps[..n] == init[..n];
    } else {
      n := |steps| - 1;
      SetsResetId(w, step, id);
    }
  }

  lemma SetsResetId(w: World, step: Step, id: Id)
    requires Inv(w) && (id in w.rows ==> w.rows[id].resetId.None?)
    requires id in Next(w, step).rows && Next(w, step).rows[id].resetId.Some?
    ensures step.RequestResetStep? && step.id == id && Next(w, step).rows[id].resetId == Some(step.resetId)
    ensures !step.p.archived && !step.p.busy && id in w.rows && w.rows[id].state.RebootRequired?
  {
  }

  /** Reset is sent only after an operator confirmed it, on an idle charger, while a reboot was due. */
  lemma {:induction false} ResetOnlyAfterRequest(steps: seq<Step>, k: nat) returns (n: nat)
    requires k < |Run(EMPTY, steps).log| && Run(EMPTY, steps).log[k].ResetWrite?
    ensures var write := Run(EMPTY, steps).log[k];
            RequestedAt(steps, n, write.intent, write.resetId) && |Run(EMPTY, steps[..n]).log| <= k
  {
    assert steps != [];
    var init, step := steps[..|steps| - 1], steps[|steps| - 1];
    var w := Run(EMPTY, init);
    InvOverRuns(EMPTY, init);
    StepExtends(w, step);
    if k < |w.log| {
      n := ResetOnlyAfterRequest(init, k);
      assert steps[..n] == init[..n];
    } else {
      var write := Run(EMPTY, steps).log[k];
      SentIsRequested(w, step, k);
      n := ResetIdWasRequested(init, write.intent);
      assert steps[..n] == init[..n];
      LogGrows(init, n);
    }
  }

  lemma SentIsRequested(w: World, step: Step, k: nat)
    requires Inv(w) && |w.log| <= k < |Next(w, step).log| && Next(w, step).log[k].ResetWrite?
    ensures var write := Next(w, step).log[k];
            k == |w.log| && write.intent in w.rows && w.rows[write.intent].resetId == Some(write.resetId)
  {
  }

  lemma {:induction false} LogGrows(steps: seq<Step>, n: nat)
    requires n <= |steps|
    ensures |Run(EMPTY, steps[..n]).log| <= |Run(EMPTY, steps).log|
  {
    if n == |steps| {
      assert steps[..n] == steps;
    } else {
      var init := steps[..|steps| - 1];
      LogGrows(init, n);
      assert steps[..n] == init[..n];
      InvOverRuns(EMPTY, init);
      StepExtends(Run(EMPTY, init), steps[|steps| - 1]);
    }
  }

  // ---------- recovery only reads back ----------

  predicate ReadOnly(phase: Phase) {
    phase.ReadingBack? || phase.Deciding? || phase.Stopped? || (phase.Reporting? && !phase.verdict.outcome.ChargingBlocked?)
  }

  ghost predicate NoWriteBy(log: seq<Write>, token: Id, first: nat) {
    forall k :: first <= k < |log| ==> log[k].token != token
  }

  lemma OwnStepKeepsReadOnly(w: World, step: Step)
    requires !step.SubmitStep? && !step.RequestResetStep? && !step.ClaimStep?
    requires step.token in w.workers && ReadOnly(w.workers[step.token].phase)
    ensures var w' := WorkerNext(w, step);
            step.token in w'.workers && ReadOnly(w'.workers[step.token].phase) && w'.log == w.log
  {
  }

  lemma StepKeepsReadOnly(w: World, step: Step, token: Id)
    requires Inv(w) && token in w.workers && ReadOnly(w.workers[token].phase)
    ensures var w' := Next(w, step);
            && token in w'.workers && ReadOnly(w'.workers[token].phase)
            && NoWriteBy(w'.log, token, |w.log|)
  {
    if !step.SubmitStep? && !step.RequestResetStep? && !step.ClaimStep? && step.token in w.workers {
      assert WorkerOk(w, step.token);
      WorkerTouches(w, step);
      if step.token == token {
        OwnStepKeepsReadOnly(w, step);
      }
    }
  }

  /** A worker that picks up an intent after a crash, in any state but queued or reset-queued, never
      sends a write, whatever happens next. */
  lemma {:induction false} RecoveryOnlyReads(w: World, id: Id, token: Id, now: int, p: Point, steps: seq<Step>)
    requires Inv(w) && id in w.rows && token !in w.workers
    requires !w.rows[id].state.Queued? && !ResetReady(w.rows[id]) && !Claimed(w.rows[id], token, now, p).1.NoJob?
    ensures var w' := Run(ClaimNext(w, id, token, now, p), steps);
            && token in w'.workers && ReadOnly(w'.workers[token].phase)
            && NoWriteBy(w'.log, token, |w.log|)
  {
    ClaimKeepsInv(w, id, token, now, p);
    var claimed := ClaimNext(w, id, token, now, p);
    if steps == [] {
    } else {
      var init := steps[..|steps| - 1];
      RecoveryOnlyReads(w, id, token, now, p, init);
      InvOverRuns(claimed, init);
      StepKeepsReadOnly(Run(claimed, init), steps[|steps| - 1], token);
      StepExtends(Run(claimed, init), steps[|steps| - 1]);
    }
  }

  // ---------- superseded workers ----------

  ghost predicate Superseded(w: World, token: Id) {
    token in w.workers && w.workers[token].id in w.rows && w.rows[w.workers[token].id].processing != Some(token)
  }

  /** The step belongs to the worker holding this token. */
  predicate StepOf(step: Step, token: Id) {
    !step.SubmitStep? && !step.RequestResetStep? && !step.ClaimStep? && step.token == token
  }

  lemma TouchKeepsSuperseded(w: World, w': World, mover: Id, token: Id)
    requires Touches(w, w', mover) && Superseded(w, token)
    ensures Superseded(w', token) && (mover == token ==> w'.rows == w.rows)
  {
  }

  lemma StepKeepsSuperseded(w: World, step: Step, token: Id)
    requires Inv(w) && Superseded(w, token)
    ensures Superseded(Next(w, step), token)
    ensures StepOf(step, token) ==> Next(w, step).rows == w.rows
  {
    if !step.SubmitStep? && !step.RequestResetStep? && !step.ClaimStep? && step.token in w.workers {
      assert WorkerOk(w, step.token);
      WorkerTouches(w, step);
      TouchKeepsSuperseded(w, WorkerNext(w, step), step.token, token);
    }
  }

  /** Once a later claim or a reset request has replaced its token, a worker never changes the table. */
  lemma {:induction false} SupersededChangesNothing(w: World, steps: seq<Step>, token: Id)
    requires Inv(w) && Superseded(w, token)
    ensures Superseded(Run(w, steps), token)
    ensures forall step :: StepOf(step, token) ==> Next(Run(w, steps), step).rows == Run(w, steps).rows
  {
    if steps == [] {
    } else {
      var init := steps[..|steps| - 1];
      SupersededChangesNothing(w, init, token);
      InvOverRuns(w, init);
      StepKeepsSuperseded(Run(w, init), steps[|steps| - 1], token);
    }
    InvOverRuns(w, steps);
    forall step | StepOf(step, token) ensures Next(Run(w, steps), step).rows == Run(w, steps).rows {
      StepKeepsSuperseded(Run(w, steps), step, token);
    }
  }

  // ---------- verified means verified ----------

  lemma {:induction false} DecimalLength(n: nat)
    ensures |Decimal(n)| >= 1 && (|Decimal(n)| >= 2 <==> n >= 10)
  {
  }

  lemma {:induction false} DecimalInjective(a: nat, b: nat)
    requires Decimal(a) == Decimal(b)
    ensures a == b
  {
    DecimalLength(a);
    DecimalLength(b);
    if a < 10 {
    } else {
      var x, y := Decimal(a), Decimal(b);
      assert x[..|x| - 1] == Decimal(a / 10) && y[..|y| - 1] == Decimal(b / 10);
      assert x[|x| - 1] == Digit(a % 10) && y[|y| - 1] == Digit(b % 10);
      DecimalInjective(a / 10, b / 10);
    }
  }

  /** The number that a string of digits writes. */
  function NumberOf(digits: string): int {
    if digits == "" then 0 else 10 * NumberOf(digits[..|digits| - 1]) + (digits[|digits| - 1] as int - '0' as int)
  }

  /** The value on the wire is the requested number in decimal digits. */
  lemma {:induction false} DecimalWrites(n: nat)
    ensures NumberOf(Decimal(n)) == n && forall i :: 0 <= i < |Decimal(n)| ==> '0' <= Decimal(n)[i] <= '9'
  {
    if n < 10 {
      assert Decimal(n)[..0] == "";
    } else {
      DecimalWrites(n / 10);
      assert Decimal(n)[..|Decimal(n)| - 1] == Decimal(n / 10);
    }
  }

  /** A verified intent holds a read-back equal to the value asked for, and to no other whitelisted value. */
  lemma {:induction false} VerifiedMatchesRequest(steps: seq<Step>, id: Id)
    requires id in Run(EMPTY, steps).rows && Run(EMPTY, steps).rows[id].state.Verified?
    ensures var row := Run(EMPTY, steps).rows[id];
            && row.verifiedAt.Some?
            && forall v :: v >= 0 ==> (row.actual == Some(Requested(v)) <==> v == row.value)
  {
    InvOverRuns(EMPTY, steps);
    var row := Run(EMPTY, steps).rows[id];
    assert RowOk(Run(EMPTY, steps), id);
    forall v | v >= 0 && row.actual == Some(Requested(v)) ensures v == row.value {
      DecimalInjective(v, row.value);
    }
  }

  // ---------- finished intents ----------

  /** Some worker still holds the row's token and can reach `finish` with it. */
  ghost predicate HolderCanFinish(w: World, id: Id)
    requires id in w.rows
  {
    var token := w.rows[id].processing;
    && token.Some? && token.value in w.workers
    && !w.workers[token.value].phase.Stopped? && !w.workers[token.value].phase.Recording?
  }

  /** The holder of an ended intent that cannot finish can only stop. */
  lemma HolderStops(w: World, step: Step, id: Id)
    requires !step.SubmitStep? && !step.RequestResetStep? && !step.ClaimStep?
    requires id in w.rows && Ended(w.rows[id].state) && !HolderCanFinish(w, id)
    requires step.token in w.workers && w.workers[step.token].id == id && w.rows[id].processing == Some(step.token)
    ensures var w' := WorkerNext(w, step); w'.rows == w.rows && !HolderCanFinish(w', id)
  {
    assert w.rows[id := w.rows[id]] == w.rows;
  }

  lemma WorkerKeepsEnded(w: World, step: Step, id: Id)
    requires !step.SubmitStep? && !step.RequestResetStep? && !step.ClaimStep? && step.token in w.workers
    requires Inv(w) && id in w.rows && Ended(w.rows[id].state) && !HolderCanFinish(w, id)
    ensures var w' := WorkerNext(w, step); id in w'.rows && w'.rows[id] == w.rows[id] && !HolderCanFinish(w', id)
  {
    assert RowOk(w, id) && WorkerOk(w, step.token);
    WorkerTouches(w, step);
    if w.rows[id].processing == Some(step.token) {
      HolderStops(w, step, id);
    }
  }

  lemma StepKeepsEnded(w: World, step: Step, id: Id)
    requires Inv(w) && id in w.rows && Ended(w.rows[id].state) && !HolderCanFinish(w, id)
    ensures var w' := Next(w, step); id in w'.rows && w'.rows[id] == w.rows[id] && !HolderCanFinish(w', id)
  {
    assert RowOk(w, id);
    if !step.SubmitStep? && !step.RequestResetStep? && !step.ClaimStep? && step.token in w.workers {
      WorkerKeepsEnded(w, step, id);
    }
  }

  lemma {:induction false} EndedStays(w: World, steps: seq<Step>, id: Id)
    requires Inv(w) && id in w.rows && Ended(w.rows[id].state) && !HolderCanFinish(w, id)
    ensures var w' := Run(w, steps); id in w'.rows && w'.rows[id] == w.rows[id] && !HolderCanFinish(w', id)
  {
    if steps == [] {
    } else {
      var init := steps[..|steps| - 1];
      EndedStays(w, init, id);
      InvOverRuns(w, init);
      StepKeepsEnded(Run(w, init), steps[|steps| - 1], id);
    }
  }

  /** Unless the archived branch ended it, a finished intent never changes again. */
  lemma {:induction false} FinishedIsAbsorbing(w: World, steps: seq<Step>, id: Id)
    requires Inv(w) && id in w.rows && Ended(w.rows[id].state) && !w.rows[id].outcome.Archived?
    ensures id in Run(w, steps).rows && Run(w, steps).rows[id] == w.rows[id]
  {
    assert RowOk(w, id);
    EndedStays(w, steps, id);
  }

  /** One step nearer to `finish` for the worker in this phase. */
  function Onward(token: Id, phase: Phase): Step {
    match phase
    case Reading => ReadStep(token, Refused(Timeout))
    case Recording(_) => RecordStep(token)
    case Dispatching(_) => SendStep(token)
    case Sent(_) => ReplyStep(token, NeedsReboot)
    case CheckingBusy(_) => BusyStep(token, true)
    case SendingReset(_) => SendStep(token)
    case ResetSent => ReplyStep(token, Timeout)
    case ReadingBack(_) => ReadStep(token, Refused(Timeout))
    case Deciding(_, _) => DecideStep(token)
    case Reporting(_, _) => FinishStep(token, 0)
    case Stopped => CrashStep(token)
  }

  function Distance(phase: Phase): nat {
    match phase
    case Reporting(_, _) => 0
    case Deciding(_, _) => 1
    case Sent(_) => 1
    case ResetSent => 1
    case CheckingBusy(_) => 1
    case Reading => 1
    case _ => 2
  }

  lemma OnwardMoves(w: World, id: Id, token: Id)
    requires Inv(w) && id in w.rows && w.rows[id].processing == Some(token) && HolderCanFinish(w, id)
    requires !w.workers[token].phase.Reporting?
    ensures var w' := Next(w, Onward(token, w.workers[token].phase));
            && w'.rows == w.rows && HolderCanFinish(w', id)
            && Distance(w'.workers[token].phase) < Distance(w.workers[token].phase)
  {
    assert RowOk(w, id) && WorkerOk(w, token);
  }

  /** An archived intent whose token is still held can be written over. */
  lemma {:induction false} HolderReopens(w: World, id: Id, token: Id) returns (steps: seq<Step>)
    requires Inv(w) && id in w.rows && w.rows[id].outcome.Archived?
    requires w.rows[id].processing == Some(token) && HolderCanFinish(w, id)
    ensures id in Run(w, steps).rows && !Run(w, steps).rows[id].outcome.Archived?
    decreases Distance(w.workers[token].phase)
  {
    var step := Onward(token, w.workers[token].phase);
    assert RowOk(w, id) && WorkerOk(w, token);
    if w.workers[token].phase.Reporting? {
      steps := [step];
      RunCons(w, step, []);
      assert [step] + [] == steps;
    } else {
      OnwardMoves(w, id, token);
      StepKeepsInv(w, step);
      var rest := HolderReopens(Next(w, step), id, token);
      steps := [step] + rest;
      RunCons(w, step, rest);
    }
  }

  /** Exactly when a finished intent is final: no continuation changes it if and only if it was not ended
      by the archived branch, or nobody who can still report holds its token. */
  lemma {:induction false} FinalIff(w: World, id: Id)
    requires Inv(w) && id in w.rows && Ended(w.rows[id].state)
    ensures (forall steps :: id in Run(w, steps).rows && Run(w, steps).rows[id] == w.rows[id])
       <==> (!w.rows[id].outcome.Archived? || !HolderCanFinish(w, id))
  {
    assert RowOk(w, id);
    if w.rows[id].outcome.Archived? && HolderCanFinish(w, id) {
      var steps := HolderReopens(w, id, w.rows[id].processing.value);
      assert Run(w, steps).rows[id] != w.rows[id];
    } else {
      forall steps ensures id in Run(w, steps).rows && Run(w, steps).rows[id] == w.rows[id] {
        EndedStays(w, steps, id);
      }
    }
  }

  lemma DispatchReached(id: Id, point: Id, actor: Id, token: Id) returns (steps: seq<Step>)
    ensures var w := Run(EMPTY, steps);
            && id in w.rows && w.rows[id].state.Sending? && w.rows[id].processing == Some(token)
            && w.rows[id].nextAttempt == 120 * SECOND
            && w.workers == map[token := Worker(id, 60, Dispatching("300"))]
  {
    var up := Point(false, true, false);
    var s1 := [SubmitStep(id, point, actor, HeartbeatInterval, 60, up, 0)];
    var s2 := s1 + [ClaimStep(id, token, 0, up)];
    var s3 := s2 + [ReadStep(token, Listed(Some(KeyEntry(false, Some("300"))), false))];
    steps := s3 + [RecordStep(token)];
    var w1 := RunSnoc([], s1[0]);
    var w2 := RunSnoc(s1, s2[1]);
    var w3 := RunSnoc(s2, s3[2]);
    var w4 := RunSnoc(s3, steps[3]);
  }

  /** From a finished intent whose holder has yet to send its write, the reply brings it back. */
  lemma HolderReports(w: World, id: Id, token: Id)
    requires id in w.rows && w.rows[id].processing == Some(token)
    requires token in w.workers && w.workers[token] == Worker(id, 60, Dispatching("300"))
    ensures var w1 := Next(w, SendStep(token));
            var w2 := Next(w1, ReplyStep(token, NeedsReboot));
            var w3 := Next(w2, FinishStep(token, 0));
            id in w3.rows && w3.rows[id].state.RebootRequired?
  {
    var w1 := Next(w, SendStep(token));
    assert w1.rows == w.rows && w1.workers[token] == Worker(id, 60, Sent("300"));
    var w2 := Next(w1, ReplyStep(token, NeedsReboot));
    assert w2.rows == w.rows && w2.workers[token].phase.Reporting?;
  }

  /** The archived branch leaves the token in place: here an intent ended as `NeedsReview` becomes
      active again when its first worker's reply arrives. */
  lemma {:induction false} ArchivedIntentReopens(id: Id, point: Id, actor: Id, token: Id, later: Id)
    requires token != later
    ensures exists steps, more ::
              && id in Run(EMPTY, steps).rows && Run(EMPTY, steps).rows[id].state.NeedsReview?
              && id in Run(EMPTY, steps + more).rows && Active(Run(EMPTY, steps + more).rows[id].state)
  {
    var sent := DispatchReached(id, point, actor, token);
    var steps := sent + [ClaimStep(id, later, 120 * SECOND, Point(true, true, false))];
    var w := RunSnoc(sent, steps[|sent|]);
    HolderReports(w, id, token);
    var m1 := SendStep(token);
    var m2 := ReplyStep(token, NeedsReboot);
    var m3 := FinishStep(token, 0);
    var w1 := RunSnoc(steps, m1);
    var w2 := RunSnoc(steps + [m1], m2);
    var w3 := RunSnoc(steps + [m1] + [m2], m3);
    assert steps + [m1] + [m2] + [m3] == steps + [m1, m2, m3];
  }

  lemma RunSnoc(steps: seq<Step>, step: Step) returns (w: World)
    ensures w == Run(EMPTY, steps + [step]) == Next(Run(EMPTY, steps), step)
  {
    w := Run(EMPTY, steps + [step]);
    assert (steps + [step])[..|steps|] == steps;
  }
}
