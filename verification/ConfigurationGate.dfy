/** Start admission stays closed from a reset request until its intent is finished (ocpp/configuration_gate.py). */
module ConfigurationGate {
  import opened Prelude
  import opened Configuration
  import opened ConfigurationRuns

  /** `reset_pending` for one intent: no charging may start on its charger. */
  predicate ResetPending(row: Intent) {
    row.resetId.Some? && (row.state.Resetting? || row.state.RebootRequired?)
  }

  /** Where an intent with a requested reset may stand: gate closed, confirmed, or handed to a person. */
  predicate AfterRequest(s: State) {
    s.Resetting? || s.RebootRequired? || s.Verified? || s.NeedsReview?
  }

  /** What a worker claimed after the request may be doing. */
  predicate GatePhase(phase: Phase) {
    || phase.CheckingBusy? || phase.SendingReset? || phase.ResetSent? || phase.Stopped?
    || (phase.ReadingBack? && phase.pending) || (phase.Deciding? && phase.pending)
    || (phase.Reporting? && !phase.readBack && AfterRequest(phase.verdict.state))
  }

  ghost predicate GateOk(w: World, id: Id)
    requires id in w.rows
  {
    var row := w.rows[id];
    row.resetId.Some? ==>
      && AfterRequest(row.state)
      && (row.processing.Some? && row.processing.value in w.workers ==> GatePhase(w.workers[row.processing.value].phase))
  }

  lemma WorkerKeepsGate(w: World, step: Step, id: Id)
    requires Inv(w) && id in w.rows && GateOk(w, id)
    requires !step.SubmitStep? && !step.RequestResetStep? && !step.ClaimStep?
    ensures id in WorkerNext(w, step).rows && GateOk(WorkerNext(w, step), id)
  {
    assert RowOk(w, id);
    if step.token in w.workers {
      assert WorkerOk(w, step.token);
    }
  }

  lemma ClaimKeepsGate(w: World, claimed: Id, token: Id, now: int, p: Point, id: Id)
    requires Inv(w) && claimed in w.rows && token !in w.workers && id in w.rows && GateOk(w, id)
    ensures GateOk(ClaimNext(w, claimed, token, now, p), id)
  {
    assert RowOk(w, id) && RowOk(w, claimed);
  }

  lemma StepKeepsGate(w: World, step: Step)
    requires Inv(w) && forall id :: id in w.rows ==> GateOk(w, id)
    ensures forall id :: id in Next(w, step).rows ==> GateOk(Next(w, step), id)
  {
    var w' := Next(w, step);
    forall id | id in w'.rows ensures GateOk(w', id) {
      match step
      case SubmitStep(_, _, _, _, _, _, _) => if id in w.rows { assert GateOk(w, id); }
      case RequestResetStep(_, _, _, _, _, _) => assert GateOk(w, id);
      case ClaimStep(claimed, token, now, p) =>
        if claimed in w.rows && token !in w.workers {
          ClaimKeepsGate(w, claimed, token, now, p, id);
        }
      case _ => WorkerKeepsGate(w, step, id);
    }
  }

  lemma {:induction false} GateOverRuns(steps: seq<Step>)
    ensures forall id :: id in Run(EMPTY, steps).rows ==> GateOk(Run(EMPTY, steps), id)
  {
    if steps == [] {
    } else {
      GateOverRuns(steps[..|steps| - 1]);
      InvOverRuns(EMPTY, steps[..|steps| - 1]);
      StepKeepsGate(Run(EMPTY, steps[..|steps| - 1]), steps[|steps| - 1]);
    }
  }

  /** In every run, once a reset was requested, starts are refused until the intent is verified or needs
      review: no crash, late reply or failed read-back opens the gate in between. */
  lemma {:induction false} GateStaysClosed(steps: seq<Step>, id: Id)
    requires id in Run(EMPTY, steps).rows && Run(EMPTY, steps).rows[id].resetId.Some?
    ensures var row := Run(EMPTY, steps).rows[id];
            ResetPending(row) || row.state.Verified? || row.state.NeedsReview?
  {
    GateOverRuns(steps);
  }

  /** Exactly: an intent keeps the gate closed if and only if a reset was requested for it and it is neither
      verified nor handed to a person. */
  lemma {:induction false} GateClosedIff(steps: seq<Step>, id: Id)
    requires id in Run(EMPTY, steps).rows
    ensures var row := Run(EMPTY, steps).rows[id];
            ResetPending(row) <==> row.resetId != None && row.state != Verified && row.state != NeedsReview
  {
    GateOverRuns(steps);
  }
}
