/** Driver start requests and the transactions that race on them (charging/driver.py, ocpp/control.py). */
module DriverStart {
  import opened Prelude
  import opened Calendar

  type Id = int

  datatype Status =
    | Pending | Accepted | Rejected | ProtocolError | Timeout | Disconnected | Offline | Started | StartNotConfirmed

  /** What `send_command` can return. */
  predicate CommandOutcome(s: Status) {
    s.Accepted? || s.Rejected? || s.ProtocolError? || s.Timeout? || s.Disconnected?
  }

  /** The lease statuses: the request still reserves its driver and its connector. */
  predicate Live(s: Status) { s.Pending? || s.Accepted? }

  datatype Request = Request(
    driver: Id, connector: Id, createdAt: int, status: Status, reply: Status, leaseUntil: int, session: Option<int>)

  /** `results` holds the recorded result of each RemoteStartTransaction command. */
  datatype Tables = Tables(requests: map<Id, Request>, results: map<Id, Status>)

  const COMMAND_TIMEOUT: int := 30 * SECOND
  const START_CONFIRMATION: int := 60 * SECOND

  /** `record_result`: the first writer wins. */
  function Recorded(results: map<Id, Status>, id: Id, status: Status): map<Id, Status> {
    if id in results then results else results[id := status]
  }

  // ---------- expiry ----------

  predicate Due(r: Request, now: int) { Live(r.status) && r.leaseUntil <= now }

  function ExpiredRequest(r: Request, now: int): Request {
    if !Due(r, now) then r
    else if r.status.Pending? then r.(status := Timeout, reply := Timeout)
    else r.(status := StartNotConfirmed)
  }

  predicate TimesOut(t: Tables, now: int, id: Id) {
    id in t.requests && Due(t.requests[id], now) && t.requests[id].status.Pending?
  }

  /** Expiry restricted to some of the requests. */
  function ExpiredAmong(t: Tables, now: int, ids: set<Id>): Tables {
    Tables(map id | id in t.requests :: if id in ids then ExpiredRequest(t.requests[id], now) else t.requests[id],
           map id | id in t.results.Keys + (set i | i in t.requests.Keys && i in ids && TimesOut(t, now, i)) ::
             if id in t.results then t.results[id] else Timeout)
  }

  /** `expire_start_requests`. */
  function Expired(t: Tables, now: int): Tables { ExpiredAmong(t, now, t.requests.Keys) }

  lemma ExpireOneMore(t: Tables, now: int, done: set<Id>, id: Id)
    requires id in t.requests && id !in done && Due(t.requests[id], now)
    ensures var before := ExpiredAmong(t, now, done);
            && before.requests[id] == t.requests[id]
            && ExpiredAmong(t, now, done + {id})
               == Tables(before.requests[id := ExpiredRequest(t.requests[id], now)],
                         if t.requests[id].status.Pending? then Recorded(before.results, id, Timeout) else before.results)
  {
  }

  /** Requests that are not due need no visit. */
  lemma ExpireDueOnly(t: Tables, now: int, due: set<Id>)
    requires due == set id | id in t.requests && Due(t.requests[id], now)
    ensures ExpiredAmong(t, now, {}) == t
    ensures ExpiredAmong(t, now, due) == Expired(t, now)
  {
    assert ExpiredAmong(t, now, {}).requests == t.requests;
    assert ExpiredAmong(t, now, {}).results == t.results;
    forall id | id in t.requests ensures ExpiredAmong(t, now, due).requests[id] == Expired(t, now).requests[id] {
      assert id in due <==> Due(t.requests[id], now);
    }
    assert ExpiredAmong(t, now, due).requests == Expired(t, now).requests;
    assert ExpiredAmong(t, now, due).results == Expired(t, now).results;
  }

  // ---------- creation and completion ----------

  ghost predicate Reserved(requests: map<Id, Request>, driver: Id, connector: Id) {
    exists id :: id in requests && Live(requests[id].status)
                 && (requests[id].connector == connector || requests[id].driver == driver)
  }

  function NewRequest(driver: Id, connector: Id, now: int, online: bool): Request {
    var status := if online then Pending else Offline;
    Request(driver, connector, now, status, status, now + COMMAND_TIMEOUT + SECOND, None)
  }

  /** The creating transaction of `remote_start`. `admitted` stands for the checks on station, driver role,
      reservation, power, open sessions, connector status and wallet; a refusal rolls everything back. */
  ghost function Created(t: Tables, id: Id, driver: Id, connector: Id, now: int, admitted: bool, online: bool): Tables {
    if id in t.requests || !admitted then t
    else
      var e := Expired(t, now);
      if Reserved(e.requests, driver, connector) then t
      else
        Tables(e.requests[id := NewRequest(driver, connector, now, online)],
               if online then e.results else Recorded(e.results, id, Offline))
  }

  /** The completing transaction: only a pending reply is replaced, by the recorded result. */
  function Completed(t: Tables, id: Id, outcome: Status, now: int): Tables
    requires id in t.requests
  {
    var r := t.requests[id];
    if !r.reply.Pending? then t
    else
      var results := Recorded(t.results, id, outcome);
      var reply := results[id];
      var answered := r.(reply := reply);
      var r' := if r.status.Started? || r.status.Rejected? then answered
                else answered.(status := reply, leaseUntil := if reply.Accepted? then now + START_CONFIRMATION else now);
      Tables(t.requests[id := r'], results)
  }

  // ---------- refusal and real start ----------

  predicate Matches(r: Request, driver: Id, connector: Id) {
    && r.driver == driver && r.connector == connector && r.session.None?
    && (Live(r.status) || r.status.StartNotConfirmed? || r.status.Timeout? || r.status.Disconnected?)
  }

  /** The query of the reject and attach steps: a latest matching request, if any. */
  ghost predicate Picks(requests: map<Id, Request>, driver: Id, connector: Id, picked: Option<Id>) {
    match picked
    case None => forall id :: id in requests ==> !Matches(requests[id], driver, connector)
    case Some(id) =>
      && id in requests && Matches(requests[id], driver, connector)
      && forall other :: other in requests && Matches(requests[other], driver, connector) ==>
                           requests[other].createdAt <= requests[id].createdAt
  }

  function Refused(t: Tables, picked: Option<Id>, now: int): Tables
    requires picked.Some? ==> picked.value in t.requests
  {
    if picked.None? then t
    else t.(requests := t.requests[picked.value := t.requests[picked.value].(status := Rejected, leaseUntil := now)])
  }

  function Attached(t: Tables, picked: Option<Id>, session: int, now: int): Tables
    requires picked.Some? ==> picked.value in t.requests
  {
    if picked.None? then t
    else
      t.(requests := t.requests[picked.value :=
           t.requests[picked.value].(status := Started, session := Some(session), leaseUntil := now)])
  }

  // ---------- the tables as the transactions update them ----------

  class StartTable {
    var requests: map<Id, Request>
    var results: map<Id, Status>

    ghost function View(): Tables
      reads this
    {
      Tables(requests, results)
    }

    method RecordResult(id: Id, status: Status)
      modifies this`results
      ensures results == Recorded(old(results), id, status)
    {
      if id !in results {
        results := results[id := status];
      }
    }

    method ExpireRequest(id: Id)
      requires id in requests
      modifies this
      ensures requests == old(requests)[id := if old(requests)[id].status.Pending?
                                              then old(requests)[id].(status := Timeout, reply := Timeout)
                                              else old(requests)[id].(status := StartNotConfirmed)]
      ensures results == if old(requests)[id].status.Pending? then Recorded(old(results), id, Timeout) else old(results)
    {
      var r := requests[id];
      if r.status.Pending? {
        requests := requests[id := r.(status := Timeout, reply := Timeout)];
        RecordResult(id, Timeout);
      } else {
        requests := requests[id := r.(status := StartNotConfirmed)];
      }
    }

    /** One turn of the expiry loop: `before` are the tables at its start, `done` the requests handled. */
    method ExpireNext(ghost before: Tables, now: int, ghost done: set<Id>, id: Id)
      requires id in before.requests && id !in done && Due(before.requests[id], now)
      requires View() == ExpiredAmong(before, now, done)
      modifies this
      ensures View() == ExpiredAmong(before, now, done + {id})
    {
      ExpireOneMore(before, now, done, id);
      ExpireRequest(id);
    }

    method ExpireRequests(now: int) returns (count: nat)
      modifies this
      ensures View() == Expired(old(View()), now)
      ensures count == |set id | id in old(requests) && Due(old(requests)[id], now)|
    {
      var due := set id | id in requests && Due(requests[id], now);
      ExpireDueOnly(View(), now, due);
      var todo := due;
      ghost var done: set<Id> := {};
      while todo != {}
        invariant todo <= due && done == due - todo && View() == ExpiredAmong(old(View()), now, done)
      {
        ghost var some := Pick(todo);
        var id :| id in todo;
        ExpireNext(old(View()), now, done, id);
        todo, done := todo - {id}, done + {id};
      }
      assert done == due;
      return |due|;
    }

    method Create(id: Id, driver: Id, connector: Id, now: int, admitted: bool, online: bool)
      modifies this
      ensures View() == Created(old(View()), id, driver, connector, now, admitted, online)
    {
      if id in requests || !admitted {
        return;
      }
      var savedRequests, savedResults := requests, results;
      var count := ExpireRequests(now);
      var taken := exists other | other in requests ::
          Live(requests[other].status) && (requests[other].connector == connector || requests[other].driver == driver);
      if taken {
        requests, results := savedRequests, savedResults;
        return;
      }
      requests := requests[id := NewRequest(driver, connector, now, online)];
      if !online {
        RecordResult(id, Offline);
      }
    }

    method Complete(id: Id, outcome: Status, now: int)
      requires id in requests
      modifies this
      ensures View() == Completed(old(View()), id, outcome, now)
    {
      var r := requests[id];
      if r.reply.Pending? {
        RecordResult(id, outcome);
        var reply := results[id];
        r := r.(reply := reply);
        if !r.status.Started? && !r.status.Rejected? {
          r := r.(status := reply);
          r := r.(leaseUntil := if reply.Accepted? then now + START_CONFIRMATION else now);
        }
        requests := requests[id := r];
      }
    }

    method FindLatest(driver: Id, connector: Id) returns (picked: Option<Id>)
      ensures Picks(requests, driver, connector, picked)
    {
      picked := None;
      var todo := requests.Keys;
      while todo != {}
        invariant todo <= requests.Keys
        invariant picked.Some? ==> picked.value in requests && Matches(requests[picked.value], driver, connector)
        invariant forall id :: id in requests && id !in todo && Matches(requests[id], driver, connector) ==>
                    picked.Some? && requests[id].createdAt <= requests[picked.value].createdAt
      {
        ghost var some := Pick(todo);
        var id :| id in todo;
        todo := todo - {id};
        if Matches(requests[id], driver, connector)
           && (picked.None? || requests[picked.value].createdAt < requests[id].createdAt) {
          picked := Some(id);
        }
      }
    }

    /** `reject_remote_start` and `reject_unavailable_start`, for a driver's own virtual tag. */
    method Reject(driver: Id, connector: Id, now: int) returns (picked: Option<Id>)
      modifies this
      ensures Picks(old(requests), driver, connector, picked) && View() == Refused(old(View()), picked, now)
    {
      picked := FindLatest(driver, connector);
      if picked.Some? {
        requests := requests[picked.value := requests[picked.value].(status := Rejected, leaseUntil := now)];
      }
    }

    /** `attach_remote_start`, for an accepted StartTransaction on the driver's virtual tag. */
    method Attach(session: int, driver: Id, connector: Id, now: int) returns (picked: Option<Id>)
      modifies this
      ensures Picks(old(requests), driver, connector, picked) && View() == Attached(old(View()), picked, session, now)
    {
      picked := FindLatest(driver, connector);
      if picked.Some? {
        var r := requests[picked.value].(session := Some(session));
        r := r.(status := Started, leaseUntil := now);
        requests := requests[picked.value := r];
      }
    }
  }
}
