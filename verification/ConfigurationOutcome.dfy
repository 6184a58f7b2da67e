/** What becomes of an intent: the state that each reply leads to, whatever the other workers do meanwhile. */
module ConfigurationOutcome {
  import opened Prelude
  import opened Calendar
  import opened Configuration
  import opened ConfigurationRuns
  import opened ConfigurationProofs

  // ---------- steps of others ----------

  /** None of the steps is the worker's own. */
  ghost predicate Others(steps: seq<Step>, token: Id) {
    forall n :: 0 <= n < |steps| ==> !StepOf(steps[n], token)
  }

  lemma StepLeavesWorker(w: World, step: Step, token: Id)
    requires Inv(w) && token in w.workers && !StepOf(step, token)
    ensures token in Next(w, step).workers && Next(w, step).workers[token] == w.workers[token]
  {
    if !step.SubmitStep? && !step.RequestResetStep? && !step.ClaimStep? && step.token in w.workers {
      assert WorkerOk(w, step.token);
      WorkerTouches(w, step);
    }
  }

  /** Whatever others do, a worker stays where it is and its intent keeps its request. */
  lemma {:induction false} OthersLeave(w: World, steps: seq<Step>, token: Id)
    requires Inv(w) && token in w.workers && Others(steps, token)
    ensures var w' := Run(w, steps);
            && Inv(w') && Extends(w, w') && token in w'.workers && w'.workers[token] == w.workers[token]
            && w.workers[token].id in w'.rows
  {
    NeverQueuedAgain(w, steps);
    InvOverRuns(w, steps);
    assert WorkerOk(w, token);
    if steps == [] {
    } else {
      var init := steps[..|steps| - 1];
      OthersLeave(w, init, token);
      StepLeavesWorker(Run(w, init), steps[|steps| - 1], token);
    }
  }

  // ---------- reporting ----------

  /** The intent of a worker, as it stands. */
  function RowOf(w: World, token: Id): Intent
    requires token in w.workers && w.workers[token].id in w.rows
  {
    w.rows[w.workers[token].id]
  }

  /** The worker still holds its intent's token. */
  predicate Keeps(w: World, token: Id) {
    token in w.workers && w.workers[token].id in w.rows && RowOf(w, token).processing == Some(token)
  }

  /** One step later only the worker's own intent changed, and to this state, outcome and value. */
  ghost predicate Reports(w: World, w': World, token: Id, now: int, state: State, outcome: Outcome, actual: Option<string>)
    requires Keeps(w, token)
  {
    && w'.rows == w.rows[w.workers[token].id :=
         RowOf(w, token).(state := state, outcome := outcome, actual := actual,
                          nextAttempt := now + (if state == Accepted then 40 else 10) * SECOND,
                          verifiedAt := if state == Verified then Some(now) else RowOf(w, token).verifiedAt)]
    && w'.heartbeats == (if state == Verified && RowOf(w, token).key == HeartbeatInterval
                         then w.heartbeats[RowOf(w, token).point := RowOf(w, token).value] else w.heartbeats)
    && w'.log == w.log
  }

  lemma FinishReports(w: World, token: Id, v: Verdict, readBack: bool, now: int)
    requires Inv(w) && token in w.workers && w.workers[token].phase == Reporting(v, readBack)
    ensures var w' := Next(w, FinishStep(token, now));
            && token in w'.workers
            && w'.workers[token] == w.workers[token].(phase := if readBack then ReadingBack(false) else Stopped)
            && (Keeps(w, token) ==> Reports(w, w', token, now, v.state, v.outcome, v.actual))
            && (!Keeps(w, token) ==> w'.rows == w.rows && w'.heartbeats == w.heartbeats && w'.log == w.log)
  {
    assert WorkerOk(w, token);
    var id := w.workers[token].id;
    assert w.rows[id := w.rows[id]] == w.rows;
  }

  /** Others do what they like, then the worker reports. */
  lemma {:induction false} ReportsAfter(w: World, token: Id, v: Verdict, readBack: bool, gap: seq<Step>, now: int)
    requires Inv(w) && token in w.workers && w.workers[token].phase == Reporting(v, readBack) && Others(gap, token)
    ensures var w1 := Run(w, gap);
            var w2 := Next(w1, FinishStep(token, now));
            && Inv(w2) && token in w2.workers
            && w2.workers[token] == w.workers[token].(phase := if readBack then ReadingBack(false) else Stopped)
            && (Keeps(w1, token) ==> Reports(w1, w2, token, now, v.state, v.outcome, v.actual))
  {
    OthersLeave(w, gap, token);
    FinishReports(Run(w, gap), token, v, readBack, now);
    StepKeepsInv(Run(w, gap), FinishStep(token, now));
  }

  lemma Answered(w: World, token: Id, call: Call)
    requires Inv(w) && token in w.workers && (w.workers[token].phase.Sent? || w.workers[token].phase.ResetSent?)
    ensures var w', phase := Next(w, ReplyStep(token, call)), w.workers[token].phase;
            && Inv(w') && token in w'.workers && w' == w.(workers := w'.workers)
            && w'.workers[token] == w.workers[token].(phase :=
                 if phase.Sent? then Reporting(AfterChange(call, phase.found).0, AfterChange(call, phase.found).1)
                 else Reporting(AfterReset(call), false))
  {
    assert WorkerOk(w, token);
    StepKeepsInv(w, ReplyStep(token, call));
  }

  // ---------- ChangeConfiguration ----------

  /** The state that a reply to ChangeConfiguration leads to. */
  ghost predicate ChangeLeadsTo(call: Call, state: State) {
    && (call in {Rejected, NotSupported, ProtocolError} ==> state == Failed)
    && (call == NeedsReboot ==> state == RebootRequired)
    && (call in {CallAccepted, Timeout, Disconnected} ==> state == Accepted)
  }

  /** The reply arrives, others do what they like, and the worker reports: if it kept its token, the intent is
      in the state the reply leads to, with the old value if the charger took the request; a read-back follows
      exactly when the state is `Accepted`. */
  lemma {:induction false} ChangeAnswered(w: World, token: Id, found: string, call: Call, gap: seq<Step>, now: int)
    returns (state: State)
    requires Inv(w) && token in w.workers && w.workers[token].phase == Sent(found) && Others(gap, token)
    ensures ChangeLeadsTo(call, state)
    ensures var w1 := Run(Next(w, ReplyStep(token, call)), gap);
            var w2 := Next(w1, FinishStep(token, now));
            && Inv(w2) && token in w2.workers
            && w2.workers[token] == w.workers[token].(phase := if state == Accepted then ReadingBack(false) else Stopped)
            && (Keeps(w1, token) ==>
                  Reports(w1, w2, token, now, state, CallOutcome(call),
                          if call in {CallAccepted, NeedsReboot} then Some(found) else None))
  {
    var (verdict, readBack) := AfterChange(call, found);
    state := verdict.state;
    Answered(w, token, call);
    ReportsAfter(Next(w, ReplyStep(token, call)), token, verdict, readBack, gap, now);
  }

  // ---------- read-back ----------

  /** The read-back lists the key, writable, with the requested value. */
  predicate Confirms(reply: Reply, value: int) {
    reply.Listed? && !reply.unknown && reply.entry == Some(KeyEntry(false, Some(Requested(value))))
  }

  /** It lists the key as one that can be written, with whatever value. */
  predicate Readable(reply: Reply) { reply.Listed? && !reply.unknown && reply.entry.Some? && !reply.entry.value.readonly }

  /** The state that a read-back leads to. `pending` is a read-back after a reboot was demanded. */
  ghost predicate ReadLeadsTo(reply: Reply, value: int, pending: bool, resetRequested: bool, state: State, outcome: Outcome)
  {
    && outcome == (if reply.Refused? then CallOutcome(reply.call) else if Confirms(reply, value) then ReadbackVerified
                   else if Readable(reply) then ReadbackMismatch else ReadbackUnsupported)
    && (state == Verified <==> Confirms(reply, value))
    && (!Confirms(reply, value) && pending && resetRequested ==> state == Resetting)
    && (!Confirms(reply, value) && pending && !resetRequested ==>
          state == if Readable(reply) || (reply.Refused? && reply.call != ProtocolError) then RebootRequired else NeedsReview)
    && (!Confirms(reply, value) && !pending ==>
          state == if reply.Refused? && reply.call != ProtocolError then Accepted else NeedsReview)
  }

  function ListedValue(reply: Reply): Option<string> {
    if reply.Listed? && reply.entry.Some? then reply.entry.value.value else None
  }

  lemma JudgeLeadsTo(reply: Reply, value: int, pending: bool, resetRequested: bool)
    ensures var v := Judge(reply, value, pending, resetRequested);
            ReadLeadsTo(reply, value, pending, resetRequested, v.state, v.outcome) && v.actual == ListedValue(reply)
  {
  }

  lemma Read(w: World, token: Id, pending: bool, reply: Reply)
    requires Inv(w) && token in w.workers && w.workers[token].phase == ReadingBack(pending)
    ensures var w' := Next(w, ReadStep(token, reply));
            && Inv(w') && token in w'.workers && w' == w.(workers := w'.workers)
            && w'.workers[token] == w.workers[token].(phase := Deciding(reply, pending))
  {
    assert WorkerOk(w, token);
    StepKeepsInv(w, ReadStep(token, reply));
  }

  lemma Decided(w: World, token: Id, pending: bool, reply: Reply) returns (v: Verdict)
    requires Inv(w) && token in w.workers && w.workers[token].phase == Deciding(reply, pending)
    ensures w.workers[token].id in w.rows && v.actual == ListedValue(reply)
    ensures ReadLeadsTo(reply, w.workers[token].value, pending, RowOf(w, token).resetId.Some?, v.state, v.outcome)
    ensures var w' := Next(w, DecideStep(token));
            && Inv(w') && token in w'.workers && w' == w.(workers := w'.workers)
            && w'.workers[token] == w.workers[token].(phase := Reporting(v, false))
  {
    assert WorkerOk(w, token);
    StepKeepsInv(w, DecideStep(token));
    v := Judge(reply, w.workers[token].value, pending, RowOf(w, token).resetId.Some?);
    JudgeLeadsTo(reply, w.workers[token].value, pending, RowOf(w, token).resetId.Some?);
  }

  /** A read-back, others at any time in between, and the report: if the worker kept its token, the intent is in
      the state the read-back leads to. Whether a reset was requested counts when the worker decides. */
  lemma {:induction false} ReadAnswered(
    w: World, token: Id, pending: bool, reply: Reply, gap1: seq<Step>, gap2: seq<Step>, now: int)
    returns (state: State, outcome: Outcome)
    requires Inv(w) && token in w.workers && w.workers[token].phase == ReadingBack(pending)
    requires Others(gap1, token) && Others(gap2, token)
    ensures var w1 := Run(Next(w, ReadStep(token, reply)), gap1);
            && token in w1.workers && w1.workers[token].id in w1.rows
            && ReadLeadsTo(reply, w.workers[token].value, pending, RowOf(w1, token).resetId.Some?, state, outcome)
    ensures var w1 := Run(Next(w, ReadStep(token, reply)), gap1);
            var w2 := Run(Next(w1, DecideStep(token)), gap2);
            var w3 := Next(w2, FinishStep(token, now));
            && Inv(w3) && token in w3.workers && w3.workers[token] == w.workers[token].(phase := Stopped)
            && (Keeps(w2, token) ==> Reports(w2, w3, token, now, state, outcome, ListedValue(reply)))
  {
    Read(w, token, pending, reply);
    OthersLeave(Next(w, ReadStep(token, reply)), gap1, token);
    var w1 := Run(Next(w, ReadStep(token, reply)), gap1);
    var v := Decided(w1, token, pending, reply);
    state, outcome := v.state, v.outcome;
    ReportsAfter(Next(w1, DecideStep(token)), token, v, false, gap2, now);
  }

  // ---------- Reset ----------

  /** The state that a reply to Reset leads to. */
  ghost predicate ResetLeadsTo(call: Call, state: State) {
    && (call == CallAccepted ==> state == RebootRequired)
    && (call in {Timeout, Disconnected, ProtocolError, NeedsReboot} ==> state == Resetting)
    && (call in {Rejected, NotSupported} ==> state == NeedsReview)
  }

  /** The same for the reply to Reset. */
  lemma {:induction false} ResetAnswered(w: World, token: Id, call: Call, gap: seq<Step>, now: int) returns (state: State)
    requires Inv(w) && token in w.workers && w.workers[token].phase == ResetSent && Others(gap, token)
    ensures ResetLeadsTo(call, state)
    ensures var w1 := Run(Next(w, ReplyStep(token, call)), gap);
            var w2 := Next(w1, FinishStep(token, now));
            && Inv(w2) && token in w2.workers && w2.workers[token] == w.workers[token].(phase := Stopped)
            && (Keeps(w1, token) ==> Reports(w1, w2, token, now, state, ResetOutcome(call), None))
  {
    state := AfterReset(call).state;
    Answered(w, token, call);
    ReportsAfter(Next(w, ReplyStep(token, call)), token, AfterReset(call), false, gap, now);
  }

  // ---------- from the claim to the write ----------

  /** A claim by a fresh token of a due, active intent whose charger is there and connected: the token is
      stored, and the worker starts to write, to reset or to read back, as the intent stands. */
  lemma ClaimStarts(w: World, id: Id, token: Id, now: int, p: Point)
    requires Inv(w) && id in w.rows && token !in w.workers && Active(w.rows[id].state) && w.rows[id].nextAttempt <= now
    requires !p.archived && p.connected
    ensures var w', row := Next(w, ClaimStep(id, token, now, p)), w.rows[id];
            var resetDue := row.state == Resetting && (row.outcome == ResetQueued || row.outcome == ChargingBlocked);
            && Inv(w') && token in w'.workers && Keeps(w', token) && w'.log == w.log && w'.heartbeats == w.heartbeats
            && w'.rows == w.rows[id := row.(processing := Some(token), nextAttempt := now + 120 * SECOND,
                                            state := if row.state == Queued then Sending else row.state,
                                            outcome := if resetDue then ResetSending else row.outcome)]
            && w'.workers[token].id == id && w'.workers[token].value == row.value
            && (row.state == Queued ==> w'.workers[token].phase == Reading)
            && (resetDue ==> row.resetId.Some? && w'.workers[token].phase == CheckingBusy(row.resetId.value))
            && (row.state != Queued && !resetDue ==>
                  w'.workers[token].phase == ReadingBack(row.state == RebootRequired || row.state == Resetting))
  {
    assert RowOk(w, id);
    StepKeepsInv(w, ClaimStep(id, token, now, p));
  }

  /** Any other claim starts nothing: an intent that is not due stays, one of an archived charger ends, a
      queued one of a disconnected charger fails, and any other one is put off. */
  lemma ClaimStartsNothing(w: World, id: Id, token: Id, now: int, p: Point)
    requires id in w.rows && token !in w.workers
    requires !Active(w.rows[id].state) || w.rows[id].nextAttempt > now || p.archived || !p.connected
    ensures var w', row := Next(w, ClaimStep(id, token, now, p)), w.rows[id];
            && w' == w.(rows := w'.rows)
            && w'.rows == w.rows[id :=
                 if !Active(row.state) || row.nextAttempt > now then row
                 else if p.archived then
                   row.(state := if row.state == Queued then Failed else NeedsReview, outcome := Archived)
                 else if row.state == Queued then
                   row.(state := Failed, outcome := Offline, nextAttempt := now + 10 * SECOND)
                 else row.(nextAttempt := now + 10 * SECOND)]
  {
  }

  /** The old value can be read and the key can be written. */
  predicate Usable(reply: Reply) {
    reply.Listed? && reply.entry.Some? && !reply.entry.value.readonly && reply.entry.value.value.Some?
  }

  lemma OldValueRead(w: World, token: Id, reply: Reply) returns (outcome: Outcome)
    requires Inv(w) && token in w.workers && w.workers[token].phase == Reading
    ensures outcome == CallOutcome(if reply.Refused? then reply.call else NotSupported)
    ensures var w' := Next(w, ReadStep(token, reply));
            && Inv(w') && token in w'.workers && w' == w.(workers := w'.workers)
            && w'.workers[token] == w.workers[token].(phase :=
                 if Usable(reply) then Recording(reply.entry.value.value.value)
                 else Reporting(Verdict(Failed, outcome, None), false))
  {
    outcome := CallOutcome(if reply.Refused? then reply.call else NotSupported);
    assert WorkerOk(w, token);
    StepKeepsInv(w, ReadStep(token, reply));
  }

  /** An old value that cannot be read, or a key that cannot be written, fails the intent without a write. */
  lemma {:induction false} UnreadableFails(w: World, token: Id, reply: Reply, gap: seq<Step>, now: int)
    requires Inv(w) && token in w.workers && w.workers[token].phase == Reading && !Usable(reply) && Others(gap, token)
    ensures var w1 := Run(Next(w, ReadStep(token, reply)), gap);
            var w2 := Next(w1, FinishStep(token, now));
            && token in w2.workers && w2.workers[token].phase == Stopped
            && (Keeps(w1, token) ==>
                  Reports(w1, w2, token, now, Failed, CallOutcome(if reply.Refused? then reply.call else NotSupported), None))
  {
    var outcome := OldValueRead(w, token, reply);
    ReportsAfter(Next(w, ReadStep(token, reply)), token, Verdict(Failed, outcome, None), false, gap, now);
  }

  lemma OldValueRecorded(w: World, token: Id, found: string)
    requires Inv(w) && token in w.workers && w.workers[token].phase == Recording(found)
    ensures var w', go := Next(w, RecordStep(token)), Keeps(w, token) && RowOf(w, token).state == Sending;
            && Inv(w') && token in w'.workers && w'.log == w.log
            && w'.workers[token] == w.workers[token].(phase := if go then Dispatching(found) else Stopped)
            && w'.rows == (if go then w.rows[w.workers[token].id := RowOf(w, token).(before := Some(found))] else w.rows)
  {
    assert WorkerOk(w, token);
    StepKeepsInv(w, RecordStep(token));
    var id := w.workers[token].id;
    assert w.rows[id := w.rows[id]] == w.rows;
  }

  lemma Dispatched(w: World, token: Id)
    requires Inv(w) && token in w.workers
    requires w.workers[token].phase.Dispatching? || w.workers[token].phase.Stopped?
    ensures var w', worker := Next(w, SendStep(token)), w.workers[token];
            && Inv(w') && token in w'.workers && w'.rows == w.rows
            && (worker.phase.Dispatching? ==>
                  && w'.log == w.log + [ChangeWrite(worker.id, token)]
                  && w'.workers[token] == worker.(phase := Sent(worker.phase.found)))
            && (worker.phase.Stopped? ==> w' == w)
  {
    assert WorkerOk(w, token);
    StepKeepsInv(w, SendStep(token));
  }

  /** With the old value read, the write goes out if and only if, when the old value is recorded, the worker
      still holds the token of an intent that is being sent. */
  lemma {:induction false} ChangeIsSent(w: World, token: Id, reply: Reply, gap1: seq<Step>, gap2: seq<Step>)
    requires Inv(w) && token in w.workers && w.workers[token].phase == Reading && Usable(reply)
    requires Others(gap1, token) && Others(gap2, token)
    ensures var found := reply.entry.value.value.value;
            var w1 := Run(Next(w, ReadStep(token, reply)), gap1);
            var recorded := Next(w1, RecordStep(token));
            var w2 := Run(recorded, gap2);
            var w3 := Next(w2, SendStep(token));
            && Inv(w3) && token in w3.workers && w3.rows == w2.rows && token in w1.workers && w1.workers[token].id in w1.rows
            && if Keeps(w1, token) && RowOf(w1, token).state == Sending then
                 && recorded.rows == w1.rows[w.workers[token].id := RowOf(w1, token).(before := Some(found))]
                 && w3.workers[token] == w.workers[token].(phase := Sent(found))
                 && w3.log == w2.log + [ChangeWrite(w.workers[token].id, token)]
               else
                 recorded.rows == w1.rows && w3.workers[token].phase == Stopped && w3 == w2
  {
    var outcome := OldValueRead(w, token, reply);
    OthersLeave(Next(w, ReadStep(token, reply)), gap1, token);
    var w1 := Run(Next(w, ReadStep(token, reply)), gap1);
    assert WorkerOk(w1, token);
    OldValueRecorded(w1, token, reply.entry.value.value.value);
    OthersLeave(Next(w1, RecordStep(token)), gap2, token);
    Dispatched(Run(Next(w1, RecordStep(token)), gap2), token);
  }

  // ---------- the reset ----------

  lemma BusyChecked(w: World, token: Id, resetId: Id, busy: bool)
    requires Inv(w) && token in w.workers && w.workers[token].phase == CheckingBusy(resetId)
    ensures var w' := Next(w, BusyStep(token, busy));
            && Inv(w') && token in w'.workers && w'.rows == w.rows && w'.log == w.log
            && w'.workers[token] == w.workers[token].(phase :=
                 if busy then Reporting(Verdict(Resetting, ChargingBlocked, None), false) else SendingReset(resetId))
  {
    assert WorkerOk(w, token);
    StepKeepsInv(w, BusyStep(token, busy));
  }

  /** A busy charger puts the reset off. */
  lemma {:induction false} BusyPutsOff(w: World, token: Id, resetId: Id, gap: seq<Step>, now: int)
    requires Inv(w) && token in w.workers && w.workers[token].phase == CheckingBusy(resetId) && Others(gap, token)
    ensures var w1 := Run(Next(w, BusyStep(token, true)), gap);
            var w2 := Next(w1, FinishStep(token, now));
            && token in w2.workers && w2.workers[token].phase == Stopped
            && (Keeps(w1, token) ==> Reports(w1, w2, token, now, Resetting, ChargingBlocked, None))
  {
    BusyChecked(w, token, resetId, true);
    ReportsAfter(Next(w, BusyStep(token, true)), token, Verdict(Resetting, ChargingBlocked, None), false, gap, now);
  }

  /** An idle one is sent the requested reset. */
  lemma {:induction false} ResetIsSent(w: World, token: Id, resetId: Id, gap: seq<Step>)
    requires Inv(w) && token in w.workers && w.workers[token].phase == CheckingBusy(resetId) && Others(gap, token)
    ensures var w1 := Run(Next(w, BusyStep(token, false)), gap);
            var w2 := Next(w1, SendStep(token));
            && Inv(w2) && token in w2.workers && w2.rows == w1.rows
            && w2.workers[token] == w.workers[token].(phase := ResetSent)
            && w2.log == w1.log + [ResetWrite(w.workers[token].id, resetId, token)]
  {
    BusyChecked(w, token, resetId, false);
    OthersLeave(Next(w, BusyStep(token, false)), gap, token);
    var w1 := Run(Next(w, BusyStep(token, false)), gap);
    assert WorkerOk(w1, token);
    StepKeepsInv(w1, SendStep(token));
  }

  // ---------- from the write to the verified intent ----------

  lemma ReportedKeeps(w: World, w': World, token: Id, now: int, state: State, outcome: Outcome, actual: Option<string>)
    requires Keeps(w, token) && Reports(w, w', token, now, state, outcome, actual)
    requires token in w'.workers && w'.workers[token].id == w.workers[token].id
    ensures Keeps(w', token) && RowOf(w', token).state == state && RowOf(w', token).actual == actual
    ensures RowOf(w', token).key == RowOf(w, token).key && RowOf(w', token).point == RowOf(w, token).point
    ensures RowOf(w', token).value == RowOf(w, token).value
  {
  }

  lemma ConfirmedIsVerified(w: World, w': World, token: Id, now: int, reply: Reply, value: int, state: State, outcome: Outcome)
    requires Keeps(w, token) && Reports(w, w', token, now, state, outcome, ListedValue(reply))
    requires token in w'.workers && w'.workers[token].id == w.workers[token].id
    requires Confirms(reply, value) && state == Verified && RowOf(w, token).value == value
    ensures var row := RowOf(w', token);
            && row.state == Verified && row.actual == Some(Requested(value)) && row.verifiedAt == Some(now)
            && (row.key == HeartbeatInterval ==> row.point in w'.heartbeats && w'.heartbeats[row.point] == value)
  {
    ReportedKeeps(w, w', token, now, state, outcome, ListedValue(reply));
  }

  /** A write that the charger accepted, or whose reply was lost, followed by a read-back that lists the
      requested value: if the worker kept its token to the end, the intent is verified, and a heartbeat interval
      has become the charger's. Others may do anything in between. */
  lemma {:induction false} WriteIsVerified(
    w: World, token: Id, found: string, call: Call, reply: Reply,
    gap1: seq<Step>, gap2: seq<Step>, gap3: seq<Step>, gap4: seq<Step>, now1: int, now2: int)
    requires Inv(w) && token in w.workers && w.workers[token].phase == Sent(found)
    requires call in {CallAccepted, Timeout, Disconnected} && Confirms(reply, w.workers[token].value)
    requires Others(gap1, token) && Others(gap2, token) && Others(gap3, token) && Others(gap4, token)
    ensures var w1 := Next(Run(Next(w, ReplyStep(token, call)), gap1), FinishStep(token, now1));
            var w2 := Run(Next(Run(w1, gap2), ReadStep(token, reply)), gap3);
            var w3 := Run(Next(w2, DecideStep(token)), gap4);
            var w4 := Next(w3, FinishStep(token, now2));
            Keeps(w3, token) ==>
              && token in w4.workers && w4.workers[token].id in w4.rows
              && var row := RowOf(w4, token);
                 && row.state == Verified && row.actual == Some(Requested(row.value)) && row.verifiedAt == Some(now2)
                 && (row.key == HeartbeatInterval ==> row.point in w4.heartbeats && w4.heartbeats[row.point] == row.value)
  {
    var value := w.workers[token].value;
    var accepted := ChangeAnswered(w, token, found, call, gap1, now1);
    var w1 := Next(Run(Next(w, ReplyStep(token, call)), gap1), FinishStep(token, now1));
    OthersLeave(w1, gap2, token);
    var state, outcome := ReadAnswered(Run(w1, gap2), token, false, reply, gap3, gap4, now2);
    ReadSteps(Run(w1, gap2), token, reply, value, gap3, gap4, now2, state, outcome);
  }

  lemma {:induction false} ReadSteps(
    w: World, token: Id, reply: Reply, value: int, gap1: seq<Step>, gap2: seq<Step>, now: int, state: State, outcome: Outcome)
    requires Inv(w) && token in w.workers && w.workers[token].phase == ReadingBack(false) && w.workers[token].value == value
    requires Others(gap1, token) && Others(gap2, token) && Confirms(reply, value) && state == Verified
    requires var w1 := Run(Next(w, ReadStep(token, reply)), gap1);
             var w2 := Run(Next(w1, DecideStep(token)), gap2);
             var w3 := Next(w2, FinishStep(token, now));
             && token in w3.workers && w3.workers[token] == w.workers[token].(phase := Stopped)
             && (Keeps(w2, token) ==> Reports(w2, w3, token, now, state, outcome, ListedValue(reply)))
    ensures var w1 := Run(Next(w, ReadStep(token, reply)), gap1);
            var w2 := Run(Next(w1, DecideStep(token)), gap2);
            var w3 := Next(w2, FinishStep(token, now));
            Keeps(w2, token) ==>
              && w3.workers[token].id in w3.rows
              && var row := RowOf(w3, token);
                 && row.state == Verified && row.actual == Some(Requested(row.value)) && row.verifiedAt == Some(now)
                 && (row.key == HeartbeatInterval ==> row.point in w3.heartbeats && w3.heartbeats[row.point] == row.value)
  {
    Read(w, token, false, reply);
    OthersLeave(Next(w, ReadStep(token, reply)), gap1, token);
    var w1 := Run(Next(w, ReadStep(token, reply)), gap1);
    var v := Decided(w1, token, false, reply);
    OthersLeave(Next(w1, DecideStep(token)), gap2, token);
    var w2 := Run(Next(w1, DecideStep(token)), gap2);
    assert WorkerOk(w2, token);
    if Keeps(w2, token) {
      ConfirmedIsVerified(w2, Next(w2, FinishStep(token, now)), token, now, reply, value, state, outcome);
    }
  }

  lemma {:induction false} Then(w0: World, steps: seq<Step>, step: Step)
    ensures Run(w0, steps + [step]) == Next(Run(w0, steps), step)
  {
    assert (steps + [step])[..|steps|] == steps;
  }

  /** The claim, the old value, its record and the write, one after the other. */
  lemma WriteReached(w0: World, id: Id, token: Id, now: int, found: string) returns (steps: seq<Step>)
    requires Inv(w0) && id in w0.rows && w0.rows[id].state == Queued && w0.rows[id].nextAttempt <= now && token !in w0.workers
    ensures var w := Run(w0, steps);
            && Inv(w) && Keeps(w, token) && w.workers[token] == Worker(id, w0.rows[id].value, Sent(found))
            && w.log == w0.log + [ChangeWrite(id, token)]
  {
    var s1 := ClaimStep(id, token, now, Point(false, true, false));
    var s2 := ReadStep(token, Listed(Some(KeyEntry(false, Some(found))), false));
    var s3, s4 := RecordStep(token), SendStep(token);
    steps := [] + [s1] + [s2] + [s3] + [s4];
    Then(w0, [], s1);
    Then(w0, [] + [s1], s2);
    Then(w0, [] + [s1] + [s2], s3);
    Then(w0, [] + [s1] + [s2] + [s3], s4);
    ClaimStarts(w0, id, token, now, s1.p);
    var w1 := Next(w0, s1);
    assert Run(w0, []) == w0;
    ChangeIsSent(w1, token, s2.reply, [], []);
    assert Run(Next(w1, s2), []) == Next(w1, s2);
    assert Run(Next(Next(w1, s2), s3), []) == Next(Next(w1, s2), s3);
    var outcome := OldValueRead(w1, token, s2.reply);
    OldValueRecorded(Next(w1, s2), token, found);
  }

  /** From every reachable table, every due queued intent can be brought to `Verified` by its charger. */
  lemma QueuedCanBeVerified(w0: World, id: Id, token: Id, now: int, found: string) returns (steps: seq<Step>)
    requires Inv(w0) && id in w0.rows && w0.rows[id].state == Queued && w0.rows[id].nextAttempt <= now && token !in w0.workers
    ensures var w := Run(w0, steps);
            && id in w.rows && w.rows[id].state == Verified && w.log == w0.log + [ChangeWrite(id, token)]
            && (w.rows[id].key == HeartbeatInterval ==>
                  w.rows[id].point in w.heartbeats && w.heartbeats[w.rows[id].point] == w.rows[id].value)
  {
    var sent := WriteReached(w0, id, token, now, found);
    var w := Run(w0, sent);
    var value := w0.rows[id].value;
    var reply := Listed(Some(KeyEntry(false, Some(Requested(value)))), false);
    var s1, s2, s3, s4, s5 := ReplyStep(token, CallAccepted), FinishStep(token, now), ReadStep(token, reply),
                              DecideStep(token), FinishStep(token, now);
    steps := sent + [s1] + [s2] + [s3] + [s4] + [s5];
    Then(w0, sent, s1);
    Then(w0, sent + [s1], s2);
    Then(w0, sent + [s1] + [s2], s3);
    Then(w0, sent + [s1] + [s2] + [s3], s4);
    Then(w0, sent + [s1] + [s2] + [s3] + [s4], s5);
    AcceptedNext(w, id, token, found, value, now);
    ReadNext(Next(Next(w, s1), s2), id, token, value, reply, now);
  }

  lemma AcceptedNext(w: World, id: Id, token: Id, found: string, value: int, now: int)
    requires Inv(w) && Keeps(w, token) && w.workers[token] == Worker(id, value, Sent(found))
    ensures var w' := Next(Next(w, ReplyStep(token, CallAccepted)), FinishStep(token, now));
            && Inv(w') && Keeps(w', token) && w'.log == w.log && w'.workers[token] == Worker(id, value, ReadingBack(false))
  {
    var answered := Next(w, ReplyStep(token, CallAccepted));
    Answered(w, token, CallAccepted);
    var state := ChangeAnswered(w, token, found, CallAccepted, [], now);
    assert Run(answered, []) == answered;
    ReportedKeeps(answered, Next(answered, FinishStep(token, now)), token, now, state, CallOutcome(CallAccepted), Some(found));
  }

  lemma ReadNext(w: World, id: Id, token: Id, value: int, reply: Reply, now: int)
    requires Inv(w) && Keeps(w, token) && w.workers[token] == Worker(id, value, ReadingBack(false)) && Confirms(reply, value)
    ensures var w' := Next(Next(Next(w, ReadStep(token, reply)), DecideStep(token)), FinishStep(token, now));
            && id in w'.rows && w'.rows[id].state == Verified && w'.log == w.log
            && (w'.rows[id].key == HeartbeatInterval ==>
                  w'.rows[id].point in w'.heartbeats && w'.heartbeats[w'.rows[id].point] == w'.rows[id].value)
  {
    Read(w, token, false, reply);
    var read := Next(w, ReadStep(token, reply));
    var v := Decided(read, token, false, reply);
    var decided := Next(read, DecideStep(token));
    FinishReports(decided, token, v, false, now);
    assert WorkerOk(decided, token);
    ConfirmedIsVerified(decided, Next(decided, FinishStep(token, now)), token, now, reply, value, v.state, v.outcome);
  }
}
