/** Durable configuration intents: submission, leases, write dispatch and read-back (ocpp/configuration.py). */
module Configuration {
  import opened Prelude
  import opened Calendar

  /** UUIDs of intents, resets, chargers, actors and processing tokens. */
  type Id = int

  datatype Key = HeartbeatInterval | MeterValueSampleInterval

  predicate WithinLimits(key: Key, value: int) {
    match key
    case HeartbeatInterval => 30 <= value <= 600
    case MeterValueSampleInterval => 5 <= value <= 300
  }

  datatype State = Queued | Sending | Accepted | RebootRequired | Resetting | Verified | Failed | NeedsReview

  predicate Active(s: State) {
    s.Queued? || s.Sending? || s.Accepted? || s.RebootRequired? || s.Resetting?
  }

  /** What one exchange with the charger can come to. */
  datatype Call = CallAccepted | Rejected | NotSupported | NeedsReboot | ProtocolError | Timeout | Disconnected

  datatype Outcome =
    | Unset | Offline | Archived | CallOutcome(call: Call) | ReadbackVerified | ReadbackUnsupported | ReadbackMismatch
    | ResetQueued | ChargingBlocked | ResetSending | ResetOutcome(call: Call)

  datatype Intent = Intent(
    point: Id, actor: Id, key: Key, value: int, state: State, outcome: Outcome, actual: Option<string>,
    before: Option<string>, processing: Option<Id>, resetId: Option<Id>, resetActor: Option<Id>, nextAttempt: int,
    verifiedAt: Option<int>)

  function Digit(d: nat): char
    requires d < 10
  {
    "0123456789"[d]
  }

  /** Python's `str` of a nonnegative integer. */
  function Decimal(n: nat): string {
    if n < 10 then [Digit(n)] else Decimal(n / 10) + [Digit(n % 10)]
  }

  function Requested(value: int): string {
    if value < 0 then "-" + Decimal(-value) else Decimal(value)
  }

  // ---------- requests from operators ----------

  datatype Refusal =
    | OutOfRange | IdReused | UnknownPoint | ActiveIntent | PointOffline | UnknownIntent | AnotherReset
    | NotAwaitingReboot | PointBusy

  /** What a transaction sees of the charger. */
  datatype Point = Point(archived: bool, connected: bool, busy: bool)

  ghost predicate ResetIdUsed(rows: map<Id, Intent>, id: Id) {
    exists other :: other in rows && rows[other].resetId == Some(id)
  }

  ghost predicate PointActive(rows: map<Id, Intent>, point: Id) {
    exists other :: other in rows && rows[other].point == point && Active(rows[other].state)
  }

  function NewIntent(point: Id, actor: Id, key: Key, value: int, now: int): Intent {
    Intent(point, actor, key, value, Queued, Unset, None, None, None, None, None, now, None)
  }

  /** `submit`: an identical resubmission is accepted and changes nothing. */
  ghost function Submitted(
    rows: map<Id, Intent>, id: Id, point: Id, actor: Id, key: Key, value: int, p: Point, now: int)
    : Result<map<Id, Intent>, Refusal>
  {
    if !WithinLimits(key, value) then Err(OutOfRange)
    else if id in rows then
      if rows[id].point == point && rows[id].actor == actor && rows[id].key == key && rows[id].value == value
      then Ok(rows) else Err(IdReused)
    else if ResetIdUsed(rows, id) then Err(IdReused)
    else if p.archived then Err(UnknownPoint)
    else if PointActive(rows, point) then Err(ActiveIntent)
    else if !p.connected then Err(PointOffline)
    else Ok(rows[id := NewIntent(point, actor, key, value, now)])
  }

  /** A confirmed reset also takes the token away from any read-back still in flight. */
  function WithReset(row: Intent, resetId: Id, actor: Id, now: int): Intent {
    row.(resetId := Some(resetId), processing := None, resetActor := Some(actor), state := Resetting,
         outcome := ResetQueued, nextAttempt := now)
  }

  /** `request_reset`. */
  ghost function ResetRequested(
    rows: map<Id, Intent>, id: Id, point: Id, resetId: Id, actor: Id, p: Point, now: int)
    : Result<map<Id, Intent>, Refusal>
  {
    if p.archived then Err(UnknownPoint)
    else if id !in rows || rows[id].point != point then Err(UnknownIntent)
    else if rows[id].resetId.Some? then
      if rows[id].resetId != Some(resetId) || rows[id].resetActor != Some(actor) then Err(AnotherReset) else Ok(rows)
    else if rows[id].state != RebootRequired then Err(NotAwaitingReboot)
    else if !p.connected then Err(PointOffline)
    else if p.busy then Err(PointBusy)
    else if resetId in rows || ResetIdUsed(rows, resetId) then Err(IdReused)
    else Ok(rows[id := WithReset(rows[id], resetId, actor, now)])
  }

  // ---------- the worker's transactions ----------

  /** What a claim entitles a worker to do. */
  datatype Job = NoJob | ChangeJob | ResetJob(resetId: Id) | ReadbackJob(pendingReboot: bool)

  predicate ResetReady(row: Intent) {
    row.state.Resetting? && (row.outcome.ResetQueued? || row.outcome.ChargingBlocked?)
  }

  /** The leasing transaction at the head of `_process`. A queued reset without an id fails its assertion
      after the lease, which `NoJob` stands for. */
  function Claimed(row: Intent, token: Id, now: int, p: Point): (Intent, Job) {
    if !Active(row.state) || row.nextAttempt > now then (row, NoJob)
    else if p.archived then (row.(state := if row.state.Queued? then Failed else NeedsReview, outcome := Archived), NoJob)
    else if !p.connected then
      if row.state.Queued? then (row.(nextAttempt := now + 10 * SECOND, state := Failed, outcome := Offline), NoJob)
      else (row.(nextAttempt := now + 10 * SECOND), NoJob)
    else
      var leased := row.(processing := Some(token), nextAttempt := now + 120 * SECOND);
      if row.state.Queued? then (leased.(state := Sending), ChangeJob)
      else if ResetReady(row) then
        (leased.(outcome := ResetSending), if row.resetId.Some? then ResetJob(row.resetId.value) else NoJob)
      else (leased, ReadbackJob(row.state.RebootRequired? || row.state.Resetting?))
  }

  /** The transaction just before ChangeConfiguration goes out: the claim must still hold. */
  function Recorded(row: Intent, token: Id, found: string): (Intent, bool) {
    if row.processing != Some(token) || row.state != Sending then (row, false)
    else (row.(before := Some(found)), true)
  }

  datatype Verdict = Verdict(state: State, outcome: Outcome, actual: Option<string>)

  /** `finish` on the row: a worker whose token was replaced changes nothing. */
  function Finished(row: Intent, token: Id, v: Verdict, now: int): Intent {
    if row.processing != Some(token) then row
    else
      row.(state := v.state, outcome := v.outcome, actual := v.actual,
           nextAttempt := now + (if v.state.Accepted? then 40 else 10) * SECOND,
           verifiedAt := if v.state.Verified? then Some(now) else row.verifiedAt)
  }

  /** A confirmed heartbeat interval becomes the charger's own. */
  function HeartbeatsAfter(heartbeats: map<Id, int>, row: Intent, token: Id, v: Verdict): map<Id, int> {
    if row.processing == Some(token) && v.state.Verified? && row.key.HeartbeatInterval?
    then heartbeats[row.point := row.value] else heartbeats
  }

  datatype KeyEntry = KeyEntry(readonly: bool, value: Option<string>)

  /** A GetConfiguration exchange, reduced to the key that was asked for. */
  datatype Reply = Refused(call: Call) | Listed(entry: Option<KeyEntry>, unknown: bool)

  /** `verify`: what a read-back is taken to mean. */
  function Judge(reply: Reply, value: int, pendingReboot: bool, resetRequested: bool): Verdict {
    var waiting := pendingReboot && resetRequested;
    match reply
    case Refused(call) =>
      var s := if waiting then Resetting else if call.ProtocolError? then NeedsReview
               else if pendingReboot then RebootRequired else Accepted;
      Verdict(s, CallOutcome(call), None)
    case Listed(entry, unknown) =>
      if entry.None? || unknown || entry.value.readonly then
        Verdict(if waiting then Resetting else NeedsReview, ReadbackUnsupported,
                if entry.Some? then entry.value.value else None)
      else if entry.value.value == Some(Requested(value)) then
        Verdict(Verified, ReadbackVerified, entry.value.value)
      else
        Verdict(if waiting then Resetting else if pendingReboot then RebootRequired else NeedsReview,
                ReadbackMismatch, entry.value.value)
  }

  /** The verdict on the ChangeConfiguration reply, and whether a read-back follows. */
  function AfterChange(call: Call, found: string): (Verdict, bool) {
    match call
    case Rejected => (Verdict(Failed, CallOutcome(call), None), false)
    case NotSupported => (Verdict(Failed, CallOutcome(call), None), false)
    case ProtocolError => (Verdict(Failed, CallOutcome(call), None), false)
    case NeedsReboot => (Verdict(RebootRequired, CallOutcome(call), Some(found)), false)
    case CallAccepted => (Verdict(Accepted, CallOutcome(call), Some(found)), true)
    case Timeout => (Verdict(Accepted, CallOutcome(call), None), true)
    case Disconnected => (Verdict(Accepted, CallOutcome(call), None), true)
  }

  /** The verdict on the Reset reply: an ambiguous one keeps the gate closed and is only read back. */
  function AfterReset(call: Call): Verdict {
    match call
    case CallAccepted => Verdict(RebootRequired, ResetOutcome(call), None)
    case Timeout => Verdict(Resetting, ResetOutcome(call), None)
    case Disconnected => Verdict(Resetting, ResetOutcome(call), None)
    case ProtocolError => Verdict(Resetting, ResetOutcome(call), None)
    case NeedsReboot => Verdict(Resetting, ResetOutcome(call), None)
    case Rejected => Verdict(NeedsReview, ResetOutcome(call), None)
    case NotSupported => Verdict(NeedsReview, ResetOutcome(call), None)
  }

  // ---------- the table as the transactions update it ----------

  class IntentTable {
    var rows: map<Id, Intent>
    var heartbeats: map<Id, int>

    /** The lookup `reset_id == identifier`. */
    method FindResetId(id: Id) returns (found: bool)
      ensures found == ResetIdUsed(rows, id)
    {
      found := exists other | other in rows :: rows[other].resetId == Some(id);
    }

    method FindActive(point: Id) returns (found: bool)
      ensures found == PointActive(rows, point)
    {
      found := exists other | other in rows :: rows[other].point == point && Active(rows[other].state);
    }

    method Submit(id: Id, point: Id, actor: Id, key: Key, value: int, p: Point, now: int) returns (r: Option<Refusal>)
      modifies this`rows
      ensures match Submitted(old(rows), id, point, actor, key, value, p, now)
              case Ok(rows') => rows == rows' && r == None
              case Err(refusal) => rows == old(rows) && r == Some(refusal)
    {
      if !WithinLimits(key, value) {
        return Some(OutOfRange);
      }
      if id in rows {
        var previous := rows[id];
        if previous.point != point || previous.actor != actor || previous.key != key || previous.value != value {
          return Some(IdReused);
        }
        return None;
      }
      var used := FindResetId(id);
      if used {
        return Some(IdReused);
      }
      if p.archived {
        return Some(UnknownPoint);
      }
      var active := FindActive(point);
      if active {
        return Some(ActiveIntent);
      }
      if !p.connected {
        return Some(PointOffline);
      }
      rows := rows[id := NewIntent(point, actor, key, value, now)];
      return None;
    }

    method RequestReset(id: Id, point: Id, resetId: Id, actor: Id, p: Point, now: int) returns (r: Option<Refusal>)
      modifies this`rows
      ensures match ResetRequested(old(rows), id, point, resetId, actor, p, now)
              case Ok(rows') => rows == rows' && r == None
              case Err(refusal) => rows == old(rows) && r == Some(refusal)
    {
      if p.archived {
        return Some(UnknownPoint);
      }
      if id !in rows || rows[id].point != point {
        return Some(UnknownIntent);
      }
      var row := rows[id];
      if row.resetId.Some? {
        if row.resetId != Some(resetId) || row.resetActor != Some(actor) {
          return Some(AnotherReset);
        }
        return None;
      }
      if row.state != RebootRequired {
        return Some(NotAwaitingReboot);
      }
      if !p.connected {
        return Some(PointOffline);
      }
      if p.busy {
        return Some(PointBusy);
      }
      var used := FindResetId(resetId);
      if resetId in rows || used {
        return Some(IdReused);
      }
      row := row.(resetId := Some(resetId));
      row := row.(processing := None, resetActor := Some(actor));
      row := row.(state := Resetting, outcome := ResetQueued, nextAttempt := now);
      rows := rows[id := row];
      return None;
    }

    /** The leasing transaction of `_process`. */
    method Claim(id: Id, token: Id, now: int, p: Point) returns (job: Job)
      requires id in rows
      modifies this`rows
      ensures rows == old(rows)[id := Claimed(old(rows)[id], token, now, p).0]
      ensures job == Claimed(old(rows)[id], token, now, p).1
    {
      var row := rows[id];
      if !Active(row.state) || row.nextAttempt > now {
        return NoJob;
      }
      if p.archived {
        rows := rows[id := row.(state := if row.state.Queued? then Failed else NeedsReview, outcome := Archived)];
        return NoJob;
      }
      if !p.connected {
        row := row.(nextAttempt := now + 10 * SECOND);
        if row.state.Queued? {
          row := row.(state := Failed, outcome := Offline);
        }
        rows := rows[id := row];
        return NoJob;
      }
      var wasQueued, resetQueued := row.state.Queued?, ResetReady(row);
      if wasQueued {
        job := ChangeJob;
      } else if resetQueued {
        job := if row.resetId.Some? then ResetJob(row.resetId.value) else NoJob;
      } else {
        job := ReadbackJob(row.state.RebootRequired? || row.state.Resetting?);
      }
      row := row.(processing := Some(token));
      if wasQueued {
        row := row.(state := Sending);
      }
      if resetQueued {
        row := row.(outcome := ResetSending);
      }
      rows := rows[id := row.(nextAttempt := now + 120 * SECOND)];
    }

    method RecordDispatch(id: Id, token: Id, found: string) returns (go: bool)
      requires id in rows
      modifies this`rows
      ensures rows == old(rows)[id := Recorded(old(rows)[id], token, found).0]
      ensures go == Recorded(old(rows)[id], token, found).1
    {
      var row := rows[id];
      if row.processing != Some(token) || row.state != Sending {
        return false;
      }
      rows := rows[id := row.(before := Some(found))];
      return true;
    }

    method Finish(id: Id, token: Id, v: Verdict, now: int)
      requires id in rows
      modifies this
      ensures rows == old(rows)[id := Finished(old(rows)[id], token, v, now)]
      ensures heartbeats == HeartbeatsAfter(old(heartbeats), old(rows)[id], token, v)
    {
      var row := rows[id];
      if row.processing != Some(token) {
        return;
      }
      row := row.(state := v.state, outcome := v.outcome, actual := v.actual);
      row := row.(nextAttempt := now + (if v.state.Accepted? then 40 else 10) * SECOND);
      if v.state.Verified? {
        row := row.(verifiedAt := Some(now));
        if row.key.HeartbeatInterval? {
          heartbeats := heartbeats[row.point := row.value];
        }
      }
      rows := rows[id := row];
    }
  }
}
