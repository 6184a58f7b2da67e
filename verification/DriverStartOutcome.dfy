/** What becomes of a start request: when it is made, answered, given up, refused and started. */
module DriverStartOutcome {
  import opened Prelude
  import opened Calendar
  import opened DriverStart
  import opened DriverStartProofs

  // ---------- one transaction ----------

  /** The request as it is once its lease has run out: unanswered, it timed out; accepted, its start never came. */
  ghost predicate RunsOut(r: Request, r': Request, now: int) {
    && (r.status == Pending && r.leaseUntil <= now ==> r' == r.(status := Timeout, reply := Timeout))
    && (r.status == Accepted && r.leaseUntil <= now ==> r' == r.(status := StartNotConfirmed))
    && ((r.status != Pending && r.status != Accepted) || now < r.leaseUntil ==> r' == r)
  }

  /** The recorded results once such requests are given up: a timeout, unless one was recorded before. */
  ghost predicate TimeoutsRecorded(t: Tables, t': Tables, now: int) {
    forall id :: id in t'.results || id in t.results ==>
      && id in t'.results
      && (id in t.results ==> t'.results[id] == t.results[id])
      && (id !in t.results ==> t'.results[id] == Timeout && id in t.requests && t.requests[id].status == Pending
                               && t.requests[id].leaseUntil <= now)
  }

  lemma ExpiryMeans(t: Tables, now: int)
    ensures var t' := Expired(t, now);
            && t'.requests.Keys == t.requests.Keys && TimeoutsRecorded(t, t', now)
            && (forall id :: id in t.requests ==> RunsOut(t.requests[id], t'.requests[id], now))
            && forall id :: id in t.requests && t.requests[id].status == Pending && t.requests[id].leaseUntil <= now ==>
                 id in t'.results
  {
  }

  /** No request that still runs reserves the driver or the connector. */
  ghost predicate Free(requests: map<Id, Request>, driver: Id, connector: Id, now: int) {
    forall id :: id in requests && (requests[id].status == Pending || requests[id].status == Accepted) ==>
      requests[id].leaseUntil <= now || (requests[id].driver != driver && requests[id].connector != connector)
  }

  lemma ReservedIff(t: Tables, driver: Id, connector: Id, now: int)
    ensures Reserved(Expired(t, now).requests, driver, connector) <==> !Free(t.requests, driver, connector, now)
  {
    ExpiryMeans(t, now);
    var t' := Expired(t, now);
    if Reserved(t'.requests, driver, connector) {
      var id :| id in t'.requests && Live(t'.requests[id].status)
                && (t'.requests[id].connector == connector || t'.requests[id].driver == driver);
      assert RunsOut(t.requests[id], t'.requests[id], now);
    }
    if !Free(t.requests, driver, connector, now) {
      var id :| id in t.requests && (t.requests[id].status == Pending || t.requests[id].status == Accepted)
                && now < t.requests[id].leaseUntil
                && (t.requests[id].driver == driver || t.requests[id].connector == connector);
      assert RunsOut(t.requests[id], t'.requests[id], now) && t'.requests[id] == t.requests[id];
    }
  }

  /** A request is made if and only if its id is new, it is admitted, and neither driver nor connector is reserved
      at that time; the others run out as they are due. Otherwise nothing changes. */
  lemma CreateDecided(t: Tables, id: Id, driver: Id, connector: Id, now: int, admitted: bool, online: bool)
    ensures var t' := Created(t, id, driver, connector, now, admitted, online);
            if id !in t.requests && admitted && Free(t.requests, driver, connector, now) then
              && t'.requests.Keys == t.requests.Keys + {id}
              && t'.requests[id] == Request(driver, connector, now, if online then Pending else Offline,
                                            if online then Pending else Offline, now + 31 * SECOND, None)
              && (forall other :: other in t.requests ==> RunsOut(t.requests[other], t'.requests[other], now))
              && (!online ==> id in t'.results)
            else t' == t
  {
    ExpiryMeans(t, now);
    ReservedIff(t, driver, connector, now);
  }

  /** The first answer counts: a request still unanswered gets the recorded result, which is the timeout if the
      deadline came first; unless started or refused meanwhile it takes that status, and only an accepted one
      goes on reserving, for a minute. */
  lemma CompleteDecided(w: World, id: Id, outcome: Status, now: int)
    requires Inv(w) && id in w.tables.requests && CommandOutcome(outcome)
    ensures var t, t' := w.tables, Completed(w.tables, id, outcome, now);
            var r, answer := t.requests[id], if id in t.results then Timeout else outcome;
            if r.reply != Pending then t' == t
            else
              && t'.results == t.results[id := answer]
              && t'.requests == t.requests[id :=
                   if r.status == Started || r.status == Rejected then r.(reply := answer)
                   else r.(reply := answer, status := answer,
                           leaseUntil := if answer == Accepted then now + 60 * SECOND else now)]
  {
    assert RequestOk(w.tables, id);
    assert id in w.tables.results ==> w.tables.results[id := w.tables.results[id]] == w.tables.results;
  }

  /** A refusal leaves the chosen request rejected, its reply as it was, and every other request alone. */
  lemma RefuseDecided(t: Tables, picked: Option<Id>, now: int)
    requires picked.Some? ==> picked.value in t.requests
    ensures var t' := Refused(t, picked, now);
            && t'.results == t.results && t'.requests.Keys == t.requests.Keys
            && (picked.Some? ==> t'.requests[picked.value] == t.requests[picked.value].(status := Rejected, leaseUntil := now))
            && forall id :: id in t.requests && Some(id) != picked ==> t'.requests[id] == t.requests[id]
  {
  }

  /** A start leaves it started and linked, and every other request alone. */
  lemma StartDecided(t: Tables, picked: Option<Id>, session: int, now: int)
    requires picked.Some? ==> picked.value in t.requests
    ensures var t' := Attached(t, picked, session, now);
            && t'.results == t.results && t'.requests.Keys == t.requests.Keys
            && (picked.Some? ==> t'.requests[picked.value]
                                 == t.requests[picked.value].(status := Started, session := Some(session), leaseUntil := now))
            && forall id :: id in t.requests && Some(id) != picked ==> t'.requests[id] == t.requests[id]
  {
  }

  /** A start or a refusal can still reach every request of its driver and connector that was neither started nor
      refused and that the charger may have received. */
  lemma ReachableIff(w: World, id: Id, driver: Id, connector: Id)
    requires Inv(w) && id in w.tables.requests
    ensures var r := w.tables.requests[id];
            Matches(r, driver, connector) <==>
            && r.driver == driver && r.connector == connector
            && r.status !in {Started, Rejected, Offline, ProtocolError}
  {
    assert RequestOk(w.tables, id);
  }

  // ---------- the history of a request ----------

  /** The n-th step is a start that was linked to the request. */
  ghost predicate StartedBy(steps: seq<Step>, n: nat, id: Id) {
    n < |steps| && steps[n].StartStep? && steps[n].picked == Some(id) && Enabled(Run(EMPTY, steps[..n]), steps[n])
  }

  ghost predicate RefusedBy(steps: seq<Step>, n: nat, id: Id) {
    n < |steps| && steps[n].RejectStep? && steps[n].picked == Some(id) && Enabled(Run(EMPTY, steps[..n]), steps[n])
  }

  predicate Starts(step: Step, id: Id) { step.StartStep? && step.picked == Some(id) }

  predicate Refuses(step: Step, id: Id) { step.RejectStep? && step.picked == Some(id) }

  /** What a step does to the status of a request. */
  ghost predicate StatusFollows(t: Tables, t': Tables, step: Step, id: Id)
    requires id in t'.requests
  {
    var r', known := t'.requests[id], id in t.requests;
    && (r'.status == Started <==> Starts(step, id) || (known && t.requests[id].status == Started))
    && (Starts(step, id) ==> r'.session == Some(step.session))
    && (r'.status == Rejected ==>
          Refuses(step, id) || r'.reply == Rejected || (known && t.requests[id].status == Rejected))
    && (Refuses(step, id) ==> r'.status == Rejected)
  }

  lemma CreateFollows(t: Tables, step: Step, id: Id)
    requires step.CreateStep?
    requires id in Created(t, step.id, step.driver, step.connector, step.now, step.admitted, step.online).requests
    ensures StatusFollows(
              t, Created(t, step.id, step.driver, step.connector, step.now, step.admitted, step.online), step, id)
  {
    CreateDecided(t, step.id, step.driver, step.connector, step.now, step.admitted, step.online);
  }

  lemma CompleteFollows(w: World, step: Step, id: Id)
    requires Inv(w) && step.CompleteStep? && Enabled(w, step) && id in w.tables.requests
    ensures id in Completed(w.tables, step.id, step.outcome, step.now).requests
    ensures StatusFollows(w.tables, Completed(w.tables, step.id, step.outcome, step.now), step, id)
  {
    CompleteDecided(w, step.id, step.outcome, step.now);
    assert RequestOk(w.tables, step.id);
  }

  lemma ExpireFollows(t: Tables, step: Step, id: Id)
    requires step.ExpireStep? && id in t.requests
    ensures id in Expired(t, step.now).requests && StatusFollows(t, Expired(t, step.now), step, id)
  {
    ExpiryMeans(t, step.now);
  }

  lemma PickFollows(w: World, step: Step, id: Id)
    requires (step.RejectStep? || step.StartStep?) && Enabled(w, step) && id in w.tables.requests
    ensures id in Next(w, step).tables.requests && StatusFollows(w.tables, Next(w, step).tables, step, id)
  {
    if step.RejectStep? {
      RefuseDecided(w.tables, step.picked, step.now);
    } else {
      StartDecided(w.tables, step.picked, step.session, step.now);
    }
  }

  lemma StepStatus(w: World, step: Step, id: Id)
    requires Inv(w) && Enabled(w, step) && id in Next(w, step).tables.requests
    ensures StatusFollows(w.tables, Next(w, step).tables, step, id)
  {
    match step
    case CreateStep(_, _, _, _, _, _) => CreateFollows(w.tables, step, id);
    case CompleteStep(i, outcome, now) =>
      CompleteDecided(w, i, outcome, now);
      CompleteFollows(w, step, id);
    case ExpireStep(now) =>
      ExpiryMeans(w.tables, now);
      ExpireFollows(w.tables, step, id);
    case DeadlineStep(_) =>
    case RejectStep(_, _, picked, now) =>
      RefuseDecided(w.tables, picked, now);
      PickFollows(w, step, id);
    case StartStep(session, _, _, picked, now) =>
      StartDecided(w.tables, picked, session, now);
      PickFollows(w, step, id);
  }

  lemma DisabledStays(w: World, step: Step)
    requires !Enabled(w, step)
    ensures Next(w, step) == w
  {
  }

  lemma {:induction false} StartedPrefix(steps: seq<Step>, id: Id)
    requires steps != []
    ensures var init := steps[..|steps| - 1];
            && (forall n: nat :: n < |init| ==> (StartedBy(steps, n, id) <==> StartedBy(init, n, id)))
            && (forall n: nat :: n < |init| ==> (RefusedBy(steps, n, id) <==> RefusedBy(init, n, id)))
  {
    var init := steps[..|steps| - 1];
    forall n: nat | n < |init| ensures steps[..n] == init[..n] && steps[n] == init[n] {
    }
  }

  /** In every run a request is started if and only if a start was linked to it, and its session is that start's. */
  lemma {:induction false} StartedIff(steps: seq<Step>, id: Id)
    requires id in Run(EMPTY, steps).tables.requests
    ensures var r := Run(EMPTY, steps).tables.requests[id];
            && (r.status == Started <==> exists n: nat :: StartedBy(steps, n, id))
            && (forall n: nat :: StartedBy(steps, n, id) ==> r.session == Some(steps[n].session))
  {
    assert steps != [];
    var init, step := steps[..|steps| - 1], steps[|steps| - 1];
    var w := Run(EMPTY, init);
    SettledOverRuns(EMPTY, init);
    StartedPrefix(steps, id);
    StepKeeps(w, step);
    if Enabled(w, step) {
      StepStatus(w, step, id);
    } else {
      DisabledStays(w, step);
    }
    if id in w.tables.requests {
      StartedIff(init, id);
      StartedBefore(steps, id);
    } else {
      NotYetKnown(steps, id);
    }
    assert StartedBy(steps, |init|, id) <==> step.StartStep? && Enabled(w, step) && step.picked == Some(id);
  }

  /** A start that is linked twice would find its request started. */
  lemma StartedBefore(steps: seq<Step>, id: Id)
    requires steps != [] && id in Run(EMPTY, steps[..|steps| - 1]).tables.requests
    ensures Run(EMPTY, steps[..|steps| - 1]).tables.requests[id].status == Started ==> !StartedBy(steps, |steps| - 1, id)
  {
  }

  /** Before it is known, nothing is linked to a request. */
  lemma {:induction false} NotYetKnown(steps: seq<Step>, id: Id)
    requires steps != [] && id !in Run(EMPTY, steps[..|steps| - 1]).tables.requests
    ensures forall n: nat :: n < |steps| - 1 ==> !StartedBy(steps, n, id)
  {
    var init := steps[..|steps| - 1];
    forall n: nat | n < |init| ensures !StartedBy(steps, n, id) {
      KnownStays(init, n, id);
      assert steps[..n] == init[..n];
    }
  }

  lemma {:induction false} KnownStays(steps: seq<Step>, n: nat, id: Id)
    requires n <= |steps| && id !in Run(EMPTY, steps).tables.requests
    ensures id !in Run(EMPTY, steps[..n]).tables.requests
  {
    if n == |steps| {
      assert steps[..n] == steps;
    } else {
      var init := steps[..|steps| - 1];
      SettledOverRuns(EMPTY, init);
      StepKeeps(Run(EMPTY, init), steps[|steps| - 1]);
      KnownStays(init, n, id);
      assert steps[..n] == init[..n];
    }
  }

  lemma {:induction false} RefusedLast(steps: seq<Step>, id: Id)
    requires steps != []
    ensures var init, step := steps[..|steps| - 1], steps[|steps| - 1];
            (exists n: nat :: RefusedBy(steps, n, id))
            <==> (exists n: nat :: RefusedBy(init, n, id)) || (Refuses(step, id) && Enabled(Run(EMPTY, init), step))
  {
    var init := steps[..|steps| - 1];
    StartedPrefix(steps, id);
    assert RefusedBy(steps, |init|, id) <==> Refuses(steps[|init|], id) && Enabled(Run(EMPTY, init), steps[|init|]);
    if n: nat :| RefusedBy(init, n, id) {
      assert RefusedBy(steps, n, id);
    }
  }

  lemma {:induction false} NotYetRefused(steps: seq<Step>, id: Id)
    requires id !in Run(EMPTY, steps).tables.requests
    ensures forall n: nat :: !RefusedBy(steps, n, id)
  {
    forall n: nat ensures !RefusedBy(steps, n, id) {
      if n < |steps| {
        KnownStays(steps, n, id);
      }
    }
  }

  /** And it is rejected if and only if it was refused, or the charger rejected it and it was not started. */
  lemma {:induction false} RejectedIff(steps: seq<Step>, id: Id)
    requires id in Run(EMPTY, steps).tables.requests
    ensures var r := Run(EMPTY, steps).tables.requests[id];
            r.status == Rejected
            <==> (exists n: nat :: RefusedBy(steps, n, id)) || (r.reply == Rejected && r.status != Started)
  {
    assert steps != [];
    var init, step := steps[..|steps| - 1], steps[|steps| - 1];
    var w := Run(EMPTY, init);
    SettledOverRuns(EMPTY, init);
    SettledOverRuns(EMPTY, steps);
    RefusedLast(steps, id);
    assert RequestOk(Run(EMPTY, steps).tables, id);
    if id in w.tables.requests {
      RejectedIff(init, id);
      StepSettles(w, step, id);
    } else {
      NotYetRefused(init, id);
    }
    if Enabled(w, step) {
      StepStatus(w, step, id);
    } else {
      DisabledStays(w, step);
    }
  }

  lemma StepSettles(w: World, step: Step, id: Id)
    requires Inv(w) && id in w.tables.requests
    ensures id in Next(w, step).tables.requests && Settles(w.tables.requests[id], Next(w, step).tables.requests[id])
  {
    StepKeeps(w, step);
  }
}
