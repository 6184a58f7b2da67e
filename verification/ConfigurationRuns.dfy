/** Every interleaving of operators, workers, crashes and lease expiries over the intent table. */
module ConfigurationRuns {
  import opened Prelude
  import opened Configuration

  // ---------- steps ----------

  /** A write command on the wire, with its OCPP message id and the worker that sent it. */
  datatype Write = ChangeWrite(intent: Id, token: Id) | ResetWrite(intent: Id, resetId: Id, token: Id)

  function MessageId(m: Write): Id {
    match m
    case ChangeWrite(intent, _) => intent
    case ResetWrite(_, resetId, _) => resetId
  }

  /** Where a worker stands between two transactions or exchanges. */
  datatype Phase =
    | Reading | Recording(found: string) | Dispatching(found: string) | Sent(found: string)
    | CheckingBusy(resetId: Id) | SendingReset(resetId: Id) | ResetSent
    | ReadingBack(pending: bool) | Deciding(reply: Reply, pending: bool)
    | Reporting(verdict: Verdict, readBack: bool)
    | Stopped

  datatype Worker = Worker(id: Id, value: int, phase: Phase)

  /** `workers` maps each processing token ever claimed to its worker, `heartbeats` a charger to its interval. */
  datatype World = World(rows: map<Id, Intent>, workers: map<Id, Worker>, log: seq<Write>, heartbeats: map<Id, int>)

  datatype Step =
    | SubmitStep(id: Id, point: Id, actor: Id, key: Key, value: int, p: Point, now: int)
    | RequestResetStep(id: Id, point: Id, resetId: Id, actor: Id, p: Point, now: int)
    | ClaimStep(id: Id, token: Id, now: int, p: Point)
    | ReadStep(token: Id, reply: Reply)
    | RecordStep(token: Id)
    | SendStep(token: Id)
    | ReplyStep(token: Id, call: Call)
    | BusyStep(token: Id, busy: bool)
    | DecideStep(token: Id)
    | FinishStep(token: Id, now: int)
    | CrashStep(token: Id)

  function FirstPhase(job: Job): Phase {
    match job
    case NoJob => Stopped
    case ChangeJob => Reading
    case ResetJob(resetId) => CheckingBusy(resetId)
    case ReadbackJob(pending) => ReadingBack(pending)
  }

  /** What the old value's read leads to: an unreadable or read-only key fails the intent. */
  function AfterRead(reply: Reply): Phase {
    match reply
    case Refused(call) => Reporting(Verdict(Failed, CallOutcome(call), None), false)
    case Listed(entry, _) =>
      if entry.None? || entry.value.readonly || entry.value.value.None?
      then Reporting(Verdict(Failed, CallOutcome(NotSupported), None), false)
      else Recording(entry.value.value.value)
  }

  function Moved(w: World, token: Id, phase: Phase): World
    requires token in w.workers
  {
    w.(workers := w.workers[token := w.workers[token].(phase := phase)])
  }

  function ClaimNext(w: World, id: Id, token: Id, now: int, p: Point): World
    requires id in w.rows
  {
    var (row, job) := Claimed(w.rows[id], token, now, p);
    var w' := w.(rows := w.rows[id := row]);
    if job.NoJob? then w' else w'.(workers := w.workers[token := Worker(id, row.value, FirstPhase(job))])
  }

  /** One step of a claimed worker; a step its phase does not offer changes nothing. */
  function WorkerNext(w: World, step: Step): World
    requires !step.SubmitStep? && !step.RequestResetStep? && !step.ClaimStep?
  {
    if step.token !in w.workers || w.workers[step.token].id !in w.rows then w
    else
      var worker := w.workers[step.token];
      var id, phase, row := worker.id, worker.phase, w.rows[worker.id];
      match step
      case ReadStep(token, reply) =>
        if phase.Reading? then Moved(w, token, AfterRead(reply))
        else if phase.ReadingBack? then Moved(w, token, Deciding(reply, phase.pending))
        else w
      case RecordStep(token) =>
        if !phase.Recording? then w
        else
          var (row', go) := Recorded(row, token, phase.found);
          Moved(w.(rows := w.rows[id := row']), token, if go then Dispatching(phase.found) else Stopped)
      case SendStep(token) =>
        if phase.Dispatching? then Moved(w.(log := w.log + [ChangeWrite(id, token)]), token, Sent(phase.found))
        else if phase.SendingReset? then Moved(w.(log := w.log + [ResetWrite(id, phase.resetId, token)]), token, ResetSent)
        else w
      case ReplyStep(token, call) =>
        if phase.Sent? then
          var (verdict, readBack) := AfterChange(call, phase.found);
          Moved(w, token, Reporting(verdict, readBack))
        else if phase.ResetSent? then Moved(w, token, Reporting(AfterReset(call), false))
        else w
      case BusyStep(token, busy) =>
        if !phase.CheckingBusy? then w
        else Moved(w, token, if busy then Reporting(Verdict(Resetting, ChargingBlocked, None), false)
                             else SendingReset(phase.resetId))
      case DecideStep(token) =>
        if !phase.Deciding? then w
        else Moved(w, token, Reporting(Judge(phase.reply, worker.value, phase.pending, row.resetId.Some?), false))
      case FinishStep(token, now) =>
        if !phase.Reporting? then w
        else
          Moved(w.(rows := w.rows[id := Finished(row, token, phase.verdict, now)],
                   heartbeats := HeartbeatsAfter(w.heartbeats, row, token, phase.verdict)), token,
                if phase.readBack then ReadingBack(false) else Stopped)
      case CrashStep(token) => Moved(w, token, Stopped)
  }

  function OrElse<T, E>(r: Result<T, E>, otherwise: T): T {
    if r.Ok? then r.value else otherwise
  }

  /** Tokens are fresh UUIDs, so a claim never reuses one. */
  ghost function Next(w: World, step: Step): World {
    match step
    case SubmitStep(id, point, actor, key, value, p, now) =>
      w.(rows := OrElse(Submitted(w.rows, id, point, actor, key, value, p, now), w.rows))
    case RequestResetStep(id, point, resetId, actor, p, now) =>
      w.(rows := OrElse(ResetRequested(w.rows, id, point, resetId, actor, p, now), w.rows))
    case ClaimStep(id, token, now, p) =>
      if id !in w.rows || token in w.workers then w else ClaimNext(w, id, token, now, p)
    case _ => WorkerNext(w, step)
  }

  ghost function Run(w: World, steps: seq<Step>): World {
    if steps == [] then w else Next(Run(w, steps[..|steps| - 1]), steps[|steps| - 1])
  }

  const EMPTY: World := World(map[], map[], [], map[])

  // ---------- invariant ----------

  predicate BeforeChange(phase: Phase) {
    phase.Reading? || phase.Recording? || phase.Dispatching?
  }

  /** A worker that may still send Reset, or hand the reset back to the queue. */
  predicate BeforeReset(phase: Phase) {
    phase.CheckingBusy? || phase.SendingReset? || (phase.Reporting? && phase.verdict.outcome.ChargingBlocked?)
  }

  ghost predicate NoChange(log: seq<Write>, id: Id) {
    forall k :: 0 <= k < |log| ==> !(log[k].ChangeWrite? && log[k].intent == id)
  }

  ghost predicate NoReset(log: seq<Write>, id: Id) {
    forall k :: 0 <= k < |log| ==> !(log[k].ResetWrite? && log[k].intent == id)
  }

  predicate VerdictOk(v: Verdict, readBack: bool, value: int) {
    && !v.state.Queued? && !v.outcome.ResetQueued? && !v.outcome.Archived?
    && (v.state.Verified? ==> v.actual == Some(Requested(value)))
    && (readBack ==> v.state.Accepted? && !v.outcome.ChargingBlocked?)
  }

  ghost predicate WorkerOk(w: World, t: Id)
    requires t in w.workers
  {
    var worker := w.workers[t];
    && worker.id in w.rows && worker.value == w.rows[worker.id].value
    && (BeforeChange(worker.phase) ==> !w.rows[worker.id].state.Queued? && NoChange(w.log, worker.id))
    && (BeforeReset(worker.phase) ==>
          w.rows[worker.id].resetId.Some? && !ResetReady(w.rows[worker.id]) && NoReset(w.log, worker.id))
    && (worker.phase.CheckingBusy? || worker.phase.SendingReset? ==>
          w.rows[worker.id].resetId == Some(worker.phase.resetId))
    && (worker.phase.Reporting? ==> VerdictOk(worker.phase.verdict, worker.phase.readBack, worker.value))
  }

  /** No two workers may both still write for one intent. */
  ghost predicate Exclusive(w: World) {
    forall t, u :: t in w.workers && u in w.workers && t != u && w.workers[t].id == w.workers[u].id ==>
      && !(BeforeChange(w.workers[t].phase) && BeforeChange(w.workers[u].phase))
      && !(BeforeReset(w.workers[t].phase) && BeforeReset(w.workers[u].phase))
  }

  predicate Ended(s: State) { s.Verified? || s.Failed? || s.NeedsReview? }

  ghost predicate RowOk(w: World, id: Id)
    requires id in w.rows
  {
    var row := w.rows[id];
    && WithinLimits(row.key, row.value)
    && (row.state.Queued? ==> row.processing.None? && row.resetId.None? && NoChange(w.log, id))
    && (ResetReady(row) ==> row.resetId.Some? && NoReset(w.log, id))
    && (row.resetId.None? ==> NoReset(w.log, id))
    && (row.state.Verified? ==> row.actual == Some(Requested(row.value)) && row.verifiedAt.Some?)
    && (row.processing.Some? ==> row.processing.value in w.workers && w.workers[row.processing.value].id == id)
    && (Ended(row.state) && !row.outcome.Archived? && row.processing.Some? ==>
          w.workers[row.processing.value].phase.Stopped?)
  }

  ghost predicate LogOk(w: World) {
    && (forall k :: 0 <= k < |w.log| ==>
          && w.log[k].intent in w.rows
          && (w.log[k].ResetWrite? ==> w.rows[w.log[k].intent].resetId == Some(w.log[k].resetId)))
    && (forall j, k :: 0 <= j < k < |w.log| ==>
          w.log[j].intent == w.log[k].intent ==> w.log[j].ChangeWrite? != w.log[k].ChangeWrite?)
  }

  /** Intent and reset ids never coincide. */
  ghost predicate IdsDistinct(rows: map<Id, Intent>) {
    && (forall a, b :: a in rows && b in rows ==> rows[a].resetId != Some(b))
    && (forall a, b :: a in rows && b in rows && a != b && rows[a].resetId.Some? ==> rows[a].resetId != rows[b].resetId)
  }

  ghost predicate Inv(w: World) {
    && (forall t :: t in w.workers ==> WorkerOk(w, t))
    && (forall id :: id in w.rows ==> RowOk(w, id))
    && Exclusive(w) && LogOk(w) && IdsDistinct(w.rows)
  }

  // ---------- what a worker's step touches ----------

  /** The request, the reset and the token of a row stay; a row does not return to queued. */
  predicate SameRequest(row: Intent, row': Intent) {
    && row'.point == row.point && row'.actor == row.actor && row'.key == row.key && row'.value == row.value
    && row'.resetId == row.resetId && row'.processing == row.processing
    && (row'.state.Queued? ==> row.state.Queued?)
  }

  /** A worker changes at most its own phase, its own intent while it holds the token, and the end of the log. */
  ghost predicate Touches(w: World, w': World, token: Id) {
    && token in w.workers && token in w'.workers && w'.workers == w.workers[token := w'.workers[token]]
    && w'.workers[token].id == w.workers[token].id && w'.workers[token].value == w.workers[token].value
    && w.workers[token].id in w.rows && w.workers[token].id in w'.rows
    && w'.rows == w.rows[w.workers[token].id := w'.rows[w.workers[token].id]]
    && SameRequest(w.rows[w.workers[token].id], w'.rows[w.workers[token].id])
    && (w.rows[w.workers[token].id].processing != Some(token) ==> w'.rows == w.rows)
    && (w'.log == w.log || (|w'.log| == |w.log| + 1 && w.log <= w'.log && w'.log[|w.log|].token == token))
  }

  lemma WorkerTouches(w: World, step: Step)
    requires !step.SubmitStep? && !step.RequestResetStep? && !step.ClaimStep?
    requires step.token in w.workers && WorkerOk(w, step.token)
    ensures Touches(w, WorkerNext(w, step), step.token)
  {
    var id := w.workers[step.token].id;
    assert w.rows[id := w.rows[id]] == w.rows;
    assert w.workers[step.token := w.workers[step.token]] == w.workers;
  }

  // ---------- preservation ----------

  lemma SubmitKeepsInv(w: World, step: Step)
    requires Inv(w) && step.SubmitStep?
    ensures Inv(Next(w, step))
  {
  }

  lemma ResetKeepsInv(w: World, step: Step)
    requires Inv(w) && step.RequestResetStep?
    ensures Inv(Next(w, step))
  {
  }

  lemma ClaimKeepsWorker(w: World, id: Id, token: Id, now: int, p: Point, t: Id)
    requires Inv(w) && id in w.rows && token !in w.workers && t in ClaimNext(w, id, token, now, p).workers
    ensures WorkerOk(ClaimNext(w, id, token, now, p), t)
  {
  }

  lemma ClaimKeepsRow(w: World, id: Id, token: Id, now: int, p: Point, i: Id)
    requires Inv(w) && id in w.rows && token !in w.workers && i in w.rows
    ensures RowOk(ClaimNext(w, id, token, now, p), i)
  {
    assert RowOk(w, i);
  }

  /** A claim that grants a write finds no other worker with that right. */
  lemma ClaimIsExclusive(w: World, id: Id, token: Id, now: int, p: Point, t: Id)
    requires Inv(w) && id in w.rows && token !in w.workers && t in w.workers && w.workers[t].id == id
    requires !Claimed(w.rows[id], token, now, p).1.NoJob?
    ensures var phase := FirstPhase(Claimed(w.rows[id], token, now, p).1);
            && !(BeforeChange(phase) && BeforeChange(w.workers[t].phase))
            && !(BeforeReset(phase) && BeforeReset(w.workers[t].phase))
  {
  }

  lemma ClaimKeepsInv(w: World, id: Id, token: Id, now: int, p: Point)
    requires Inv(w) && id in w.rows && token !in w.workers
    ensures Inv(ClaimNext(w, id, token, now, p))
  {
    var w' := ClaimNext(w, id, token, now, p);
    forall t | t in w'.workers ensures WorkerOk(w', t) { ClaimKeepsWorker(w, id, token, now, p, t); }
    forall i | i in w'.rows ensures RowOk(w', i) { ClaimKeepsRow(w, id, token, now, p, i); }
    assert Exclusive(w') by {
      if token in w'.workers {
        forall t | t in w.workers && w.workers[t].id == id
          ensures !(BeforeChange(w'.workers[token].phase) && BeforeChange(w.workers[t].phase))
          ensures !(BeforeReset(w'.workers[token].phase) && BeforeReset(w.workers[t].phase))
        {
          ClaimIsExclusive(w, id, token, now, p, t);
        }
      }
    }
  }

  /** A phase the worker may move on to without gaining a right to write. */
  ghost predicate MayMove(w: World, token: Id, phase: Phase)
    requires token in w.workers && w.workers[token].id in w.rows
  {
    var worker := w.workers[token];
    && (BeforeChange(phase) ==> BeforeChange(worker.phase))
    && (BeforeReset(phase) ==> BeforeReset(worker.phase))
    && (phase.CheckingBusy? || phase.SendingReset? ==> w.rows[worker.id].resetId == Some(phase.resetId))
    && (phase.Reporting? ==> VerdictOk(phase.verdict, phase.readBack, worker.value))
    && (worker.phase.Stopped? ==> phase.Stopped?)
  }

  /** A worker that only moves on keeps the invariant. */
  lemma MoveKeepsInv(w: World, token: Id, phase: Phase)
    requires Inv(w) && token in w.workers && w.workers[token].id in w.rows && MayMove(w, token, phase)
    ensures Inv(Moved(w, token, phase))
  {
  }

  lemma RecordKeepsInv(w: World, token: Id)
    requires Inv(w) && token in w.workers
    ensures Inv(WorkerNext(w, RecordStep(token)))
  {
    var worker := w.workers[token];
    assert WorkerOk(w, token);
    if worker.phase.Recording? {
      var (row', go) := Recorded(w.rows[worker.id], token, worker.phase.found);
      var w1 := w.(rows := w.rows[worker.id := row']);
      forall t | t in w1.workers ensures WorkerOk(w1, t) { assert WorkerOk(w, t); }
      forall i | i in w1.rows ensures RowOk(w1, i) { assert RowOk(w, i); }
      MoveKeepsInv(w1, token, if go then Dispatching(worker.phase.found) else Stopped);
    }
  }

  lemma SendKeepsLog(w: World, token: Id)
    requires Inv(w) && token in w.workers
    ensures LogOk(WorkerNext(w, SendStep(token)))
  {
  }

  lemma SendKeepsWorker(w: World, token: Id, t: Id)
    requires Inv(w) && token in w.workers && t in w.workers
    ensures WorkerOk(WorkerNext(w, SendStep(token)), t)
  {
    assert WorkerOk(w, token) && WorkerOk(w, t);
  }

  lemma SendKeepsRow(w: World, token: Id, i: Id)
    requires Inv(w) && token in w.workers && i in w.rows
    ensures RowOk(WorkerNext(w, SendStep(token)), i)
  {
    assert WorkerOk(w, token) && RowOk(w, i);
  }

  lemma SendKeepsInv(w: World, token: Id)
    requires Inv(w) && token in w.workers
    ensures Inv(WorkerNext(w, SendStep(token)))
  {
    assert WorkerOk(w, token);
    var w' := WorkerNext(w, SendStep(token));
    if w' != w {
      SendKeepsLog(w, token);
      forall t | t in w'.workers ensures WorkerOk(w', t) { SendKeepsWorker(w, token, t); }
      forall i | i in w'.rows ensures RowOk(w', i) { SendKeepsRow(w, token, i); }
    }
  }

  lemma FinishKeepsWorker(w: World, token: Id, now: int, t: Id)
    requires Inv(w) && token in w.workers && t in w.workers
    ensures WorkerOk(WorkerNext(w, FinishStep(token, now)), t)
  {
  }

  lemma FinishKeepsRow(w: World, token: Id, now: int, i: Id)
    requires Inv(w) && token in w.workers && i in w.rows
    ensures RowOk(WorkerNext(w, FinishStep(token, now)), i)
  {
  }

  lemma FinishKeepsInv(w: World, token: Id, now: int)
    requires Inv(w) && token in w.workers
    ensures Inv(WorkerNext(w, FinishStep(token, now)))
  {
    assert WorkerOk(w, token);
    var w' := WorkerNext(w, FinishStep(token, now));
    if w.workers[token].phase.Reporting? {
      forall t | t in w'.workers ensures WorkerOk(w', t) { FinishKeepsWorker(w, token, now, t); }
      forall i | i in w'.rows ensures RowOk(w', i) { FinishKeepsRow(w, token, now, i); }
    }
  }

  /** Steps that touch neither the table nor the log only move their worker. */
  lemma QuietMoves(w: World, step: Step)
    requires step.ReadStep? || step.ReplyStep? || step.BusyStep? || step.DecideStep?
    requires step.token in w.workers && WorkerOk(w, step.token) && WorkerNext(w, step) != w
    ensures step.token in WorkerNext(w, step).workers
    ensures var phase := WorkerNext(w, step).workers[step.token].phase;
            WorkerNext(w, step) == Moved(w, step.token, phase) && MayMove(w, step.token, phase)
  {
  }

  lemma QuietKeepsInv(w: World, step: Step)
    requires Inv(w) && (step.ReadStep? || step.ReplyStep? || step.BusyStep? || step.DecideStep?)
    requires step.token in w.workers
    ensures Inv(WorkerNext(w, step))
  {
    assert WorkerOk(w, step.token);
    if WorkerNext(w, step) != w {
      QuietMoves(w, step);
      MoveKeepsInv(w, step.token, WorkerNext(w, step).workers[step.token].phase);
    }
  }

  lemma WorkerKeepsInv(w: World, step: Step)
    requires Inv(w) && !step.SubmitStep? && !step.RequestResetStep? && !step.ClaimStep?
    ensures Inv(WorkerNext(w, step))
  {
    if step.token in w.workers {
      match step
      case RecordStep(token) => RecordKeepsInv(w, token);
      case SendStep(token) => SendKeepsInv(w, token);
      case FinishStep(token, now) => FinishKeepsInv(w, token, now);
      case CrashStep(token) => MoveKeepsInv(w, token, Stopped);
      case _ => QuietKeepsInv(w, step);
    }
  }

  lemma StepKeepsInv(w: World, step: Step)
    requires Inv(w)
    ensures Inv(Next(w, step))
  {
    match step
    case SubmitStep(_, _, _, _, _, _, _) => SubmitKeepsInv(w, step);
    case RequestResetStep(_, _, _, _, _, _) => ResetKeepsInv(w, step);
    case ClaimStep(id, token, now, p) =>
      if id in w.rows && token !in w.workers {
        ClaimKeepsInv(w, id, token, now, p);
      }
    case _ => WorkerKeepsInv(w, step);
  }

  lemma {:induction false} InvOverRuns(w: World, steps: seq<Step>)
    requires Inv(w)
    ensures Inv(Run(w, steps))
  {
    if steps == [] {
    } else {
      InvOverRuns(w, steps[..|steps| - 1]);
      StepKeepsInv(Run(w, steps[..|steps| - 1]), steps[|steps| - 1]);
    }
  }
}
