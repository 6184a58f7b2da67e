/** Which requests are taken, one active intent per charger, and where a charger's heartbeat comes from. */
module ConfigurationRequests {
  import opened Prelude
  import opened Configuration
  import opened ConfigurationRuns
  import opened ConfigurationProofs
  import opened ConfigurationOutcome

  // ---------- operators ----------

  predicate Repeats(row: Intent, point: Id, actor: Id, key: Key, value: int) {
    row.point == point && row.actor == actor && row.key == key && row.value == value
  }

  /** The id names no intent and no reset. */
  ghost predicate Unused(rows: map<Id, Intent>, id: Id) {
    id !in rows && forall other :: other in rows ==> rows[other].resetId != Some(id)
  }

  ghost predicate ChargerFree(rows: map<Id, Intent>, point: Id) {
    forall other :: other in rows && rows[other].point == point ==>
      rows[other].state == Verified || rows[other].state == Failed || rows[other].state == NeedsReview
  }

  /** An intent is queued if and only if its value is allowed, its id unused, and its charger there, connected and
      without an unfinished intent; a repeat is taken and changes nothing; anything else is refused. */
  lemma SubmitDecided(rows: map<Id, Intent>, id: Id, point: Id, actor: Id, key: Key, value: int, p: Point, now: int)
    ensures var r := Submitted(rows, id, point, actor, key, value, p, now);
            var allowed := if key == HeartbeatInterval then 30 <= value <= 600 else 5 <= value <= 300;
            var queues := allowed && Unused(rows, id) && !p.archived && p.connected && ChargerFree(rows, point);
            var repeats := allowed && id in rows && Repeats(rows[id], point, actor, key, value);
            && (r.Ok? <==> queues || repeats)
            && (repeats ==> r.value == rows)
            && (queues ==> r.value == rows[id :=
                  Intent(point, actor, key, value, Queued, Unset, None, None, None, None, None, now, None)])
  {
  }

  /** A reset is taken if and only if its intent awaits a reboot, no reset was requested for it yet, its id is
      unused, and the charger is there, connected and idle; a repeat is taken and changes nothing. */
  lemma ResetDecided(rows: map<Id, Intent>, id: Id, point: Id, resetId: Id, actor: Id, p: Point, now: int)
    ensures var r := ResetRequested(rows, id, point, resetId, actor, p, now);
            var known := !p.archived && id in rows && rows[id].point == point;
            var queues := known && rows[id].resetId.None? && rows[id].state == RebootRequired && p.connected && !p.busy
                          && Unused(rows, resetId);
            var repeats := known && rows[id].resetId == Some(resetId) && rows[id].resetActor == Some(actor);
            && (r.Ok? <==> queues || repeats)
            && (repeats ==> r.value == rows)
            && (queues ==> r.value == rows[id :=
                  rows[id].(resetId := Some(resetId), resetActor := Some(actor), processing := None,
                            state := Resetting, outcome := ResetQueued, nextAttempt := now)])
  {
  }

  // ---------- one active intent per charger ----------

  ghost predicate OneActiveEach(rows: map<Id, Intent>) {
    forall a, b :: a in rows && b in rows && a != b && rows[a].point == rows[b].point ==>
      !(Active(rows[a].state) && Active(rows[b].state))
  }

  ghost predicate NoneArchived(rows: map<Id, Intent>) {
    forall id :: id in rows ==> rows[id].outcome != Archived
  }

  /** No claim finds the charger archived. */
  predicate ChargerThere(step: Step) { step.ClaimStep? ==> !step.p.archived }

  /** The step starts no activity on a charger that has some, and ends no intent as archived. */
  ghost predicate Calm(rows: map<Id, Intent>, rows': map<Id, Intent>) {
    && (forall id :: id in rows ==> id in rows' && rows'[id].point == rows[id].point)
    && (forall id :: id in rows && Active(rows'[id].state) ==> Active(rows[id].state))
    && (forall id :: id in rows' ==> rows'[id].outcome != Archived)
    && (forall id :: id in rows' && id !in rows ==> ChargerFree(rows, rows'[id].point))
    && (forall a, b :: a in rows' && b in rows' && a !in rows && b !in rows ==> a == b)
  }

  lemma CalmKeepsOne(rows: map<Id, Intent>, rows': map<Id, Intent>)
    requires OneActiveEach(rows) && Calm(rows, rows')
    ensures OneActiveEach(rows')
  {
    forall a, b | a in rows' && b in rows' && a != b && rows'[a].point == rows'[b].point
      ensures !(Active(rows'[a].state) && Active(rows'[b].state))
    {
      if a in rows && b in rows {
        assert !(Active(rows[a].state) && Active(rows[b].state));
      }
    }
  }

  lemma WorkerIsCalm(w: World, step: Step)
    requires Inv(w) && NoneArchived(w.rows) && !step.SubmitStep? && !step.RequestResetStep? && !step.ClaimStep?
    ensures Calm(w.rows, WorkerNext(w, step).rows)
  {
    if step.token in w.workers {
      assert WorkerOk(w, step.token);
      WorkerTouches(w, step);
      assert RowOk(w, w.workers[step.token].id);
    }
  }

  lemma ClaimIsCalm(w: World, step: Step)
    requires Inv(w) && NoneArchived(w.rows) && step.ClaimStep? && !step.p.archived
    ensures Calm(w.rows, Next(w, step).rows)
  {
    if step.id in w.rows && step.token !in w.workers {
      if Active(w.rows[step.id].state) && w.rows[step.id].nextAttempt <= step.now && step.p.connected {
        ClaimStarts(w, step.id, step.token, step.now, step.p);
      } else {
        ClaimStartsNothing(w, step.id, step.token, step.now, step.p);
      }
    }
  }

  lemma RequestIsCalm(w: World, step: Step)
    requires Inv(w) && NoneArchived(w.rows) && (step.SubmitStep? || step.RequestResetStep?)
    ensures Calm(w.rows, Next(w, step).rows)
  {
    match step
    case SubmitStep(id, point, actor, key, value, p, now) => SubmitDecided(w.rows, id, point, actor, key, value, p, now);
    case RequestResetStep(id, point, resetId, actor, p, now) => ResetDecided(w.rows, id, point, resetId, actor, p, now);
  }

  /** In every run whose chargers are not archived under way, no charger has two unfinished intents. */
  lemma {:induction false} OneActiveOverRuns(steps: seq<Step>)
    requires forall n :: 0 <= n < |steps| ==> ChargerThere(steps[n])
    ensures OneActiveEach(Run(EMPTY, steps).rows) && NoneArchived(Run(EMPTY, steps).rows)
  {
    if steps == [] {
    } else {
      var init, step := steps[..|steps| - 1], steps[|steps| - 1];
      OneActiveOverRuns(init);
      InvOverRuns(EMPTY, init);
      var w := Run(EMPTY, init);
      assert ChargerThere(steps[|steps| - 1]);
      match step {
        case SubmitStep(_, _, _, _, _, _, _) => RequestIsCalm(w, step);
        case RequestResetStep(_, _, _, _, _, _) => RequestIsCalm(w, step);
        case ClaimStep(_, _, _, _) => ClaimIsCalm(w, step);
        case _ => WorkerIsCalm(w, step);
      }
      CalmKeepsOne(w.rows, Run(EMPTY, steps).rows);
    }
  }

  // ---------- heartbeats ----------

  /** The interval was asked for, for this charger, and read back. */
  ghost predicate Confirmed(rows: map<Id, Intent>, point: Id, value: int) {
    exists id :: id in rows && rows[id].point == point && rows[id].key == HeartbeatInterval && rows[id].value == value
                 && rows[id].verifiedAt.Some?
  }

  ghost predicate HeartbeatsOk(w: World) {
    forall point :: point in w.heartbeats ==>
      Confirmed(w.rows, point, w.heartbeats[point]) && 30 <= w.heartbeats[point] <= 600
  }

  lemma ConfirmedStays(w: World, step: Step, point: Id, value: int)
    requires Inv(w) && Confirmed(w.rows, point, value)
    ensures Confirmed(Next(w, step).rows, point, value)
  {
    var id :| id in w.rows && w.rows[id].point == point && w.rows[id].key == HeartbeatInterval
              && w.rows[id].value == value && w.rows[id].verifiedAt.Some?;
    StepExtends(w, step);
    VerifiedAtStays(w, step, id);
  }

  lemma VerifiedAtStays(w: World, step: Step, id: Id)
    requires Inv(w) && id in w.rows && w.rows[id].verifiedAt.Some?
    ensures id in Next(w, step).rows && Next(w, step).rows[id].verifiedAt.Some?
  {
    match step
    case SubmitStep(i, point, actor, key, value, p, now) => SubmitDecided(w.rows, i, point, actor, key, value, p, now);
    case RequestResetStep(i, point, resetId, actor, p, now) => ResetDecided(w.rows, i, point, resetId, actor, p, now);
    case ClaimStep(i, token, now, p) =>
    case _ => WorkerKeepsVerifiedAt(w, step, id);
  }

  lemma WorkerKeepsVerifiedAt(w: World, step: Step, id: Id)
    requires !step.SubmitStep? && !step.RequestResetStep? && !step.ClaimStep?
    requires id in w.rows && w.rows[id].verifiedAt.Some?
    ensures id in WorkerNext(w, step).rows && WorkerNext(w, step).rows[id].verifiedAt.Some?
  {
  }

  lemma HeartbeatSet(w: World, step: Step, point: Id)
    requires Inv(w) && point in Next(w, step).heartbeats
    ensures (point in w.heartbeats && Next(w, step).heartbeats[point] == w.heartbeats[point])
            || (Confirmed(Next(w, step).rows, point, Next(w, step).heartbeats[point])
                && 30 <= Next(w, step).heartbeats[point] <= 600)
  {
    if step.FinishStep? && step.token in w.workers && w.workers[step.token].phase.Reporting? {
      assert WorkerOk(w, step.token) && RowOk(w, w.workers[step.token].id);
      var phase := w.workers[step.token].phase;
      FinishReports(w, step.token, phase.verdict, phase.readBack, step.now);
      if Next(w, step).heartbeats != w.heartbeats {
        assert Next(w, step).rows[w.workers[step.token].id].verifiedAt.Some?;
      }
    } else {
      assert Next(w, step).heartbeats == w.heartbeats;
    }
  }

  /** In every run a charger's heartbeat interval is one that was requested for it and confirmed by a read-back. */
  lemma {:induction false} HeartbeatsOverRuns(steps: seq<Step>)
    ensures HeartbeatsOk(Run(EMPTY, steps))
  {
    if steps == [] {
    } else {
      var init, step := steps[..|steps| - 1], steps[|steps| - 1];
      HeartbeatsOverRuns(init);
      InvOverRuns(EMPTY, init);
      var w, w' := Run(EMPTY, init), Run(EMPTY, steps);
      forall point | point in w'.heartbeats
        ensures Confirmed(w'.rows, point, w'.heartbeats[point]) && 30 <= w'.heartbeats[point] <= 600
      {
        HeartbeatSet(w, step, point);
        if point in w.heartbeats && w'.heartbeats[point] == w.heartbeats[point] {
          ConfirmedStays(w, step, point, w.heartbeats[point]);
        }
      }
    }
  }
}
