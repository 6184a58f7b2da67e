/** Replies, expiry, refusals and real starts racing on the same requests, in every order. */
module DriverStartProofs {
  import opened Prelude
  import opened DriverStart
  import opened Calendar

  /** `sessions` are the transaction ids ever handed out. */
  datatype World = World(tables: Tables, sessions: set<int>)

  datatype Step =
    | CreateStep(id: Id, driver: Id, connector: Id, now: int, admitted: bool, online: bool)
    | CompleteStep(id: Id, outcome: Status, now: int)
    | ExpireStep(now: int)
    | DeadlineStep(id: Id)
    | RejectStep(driver: Id, connector: Id, picked: Option<Id>, now: int)
    | StartStep(session: int, driver: Id, connector: Id, picked: Option<Id>, now: int)

  /** Completions carry a command outcome, queries return one of their answers, and every
      StartTransaction gets a new transaction id. */
  ghost predicate Enabled(w: World, step: Step) {
    match step
    case CreateStep(_, _, _, _, _, _) => true
    case CompleteStep(id, outcome, _) => id in w.tables.requests && CommandOutcome(outcome)
    case ExpireStep(_) => true
    case DeadlineStep(id) => id in w.tables.requests
    case RejectStep(driver, connector, picked, _) => Picks(w.tables.requests, driver, connector, picked)
    case StartStep(session, driver, connector, picked, _) =>
      session !in w.sessions && Picks(w.tables.requests, driver, connector, picked)
  }

  ghost function Next(w: World, step: Step): World {
    if !Enabled(w, step) then w
    else
      match step
      case CreateStep(id, driver, connector, now, admitted, online) =>
        w.(tables := Created(w.tables, id, driver, connector, now, admitted, online))
      case CompleteStep(id, outcome, now) => w.(tables := Completed(w.tables, id, outcome, now))
      case ExpireStep(now) => w.(tables := Expired(w.tables, now))
      case DeadlineStep(id) => w.(tables := w.tables.(results := Recorded(w.tables.results, id, Timeout)))
      case RejectStep(_, _, picked, now) => w.(tables := Refused(w.tables, picked, now))
      case StartStep(session, _, _, picked, now) =>
        World(Attached(w.tables, picked, session, now), w.sessions + {session})
  }

  ghost function Run(w: World, steps: seq<Step>): World {
    if steps == [] then w else Next(Run(w, steps[..|steps| - 1]), steps[|steps| - 1])
  }

  const EMPTY: World := World(Tables(map[], map[]), {})

  // ---------- invariant ----------

  /** How status, reply, recorded result and session of one request fit together. */
  ghost predicate RequestOk(t: Tables, id: Id)
    requires id in t.requests
  {
    var r := t.requests[id];
    && (r.session.Some? <==> r.status.Started?)
    && (r.reply.Pending? ==> (r.status.Pending? || r.status.Started? || r.status.Rejected?)
                             && (id in t.results ==> t.results[id].Timeout?))
    && (!r.reply.Pending? ==> id in t.results && t.results[id] == r.reply)
    && (CommandOutcome(r.reply) || r.reply.Pending? || r.reply.Offline?)
    && (r.status.StartNotConfirmed? ==> r.reply.Accepted?)
    && (r.status.Started? || r.status.Rejected? || r.status.StartNotConfirmed? || r.status == r.reply)
  }

  /** At most one live request for each driver and for each connector. */
  ghost predicate OneLive(requests: map<Id, Request>) {
    forall a, b :: a in requests && b in requests && a != b && Live(requests[a].status) && Live(requests[b].status) ==>
      requests[a].driver != requests[b].driver && requests[a].connector != requests[b].connector
  }

  ghost predicate LinkedOnce(w: World) {
    && (forall a :: a in w.tables.requests && w.tables.requests[a].session.Some? ==>
          w.tables.requests[a].session.value in w.sessions)
    && (forall a, b :: a in w.tables.requests && b in w.tables.requests && a != b
                       && w.tables.requests[a].session.Some? ==>
                         w.tables.requests[a].session != w.tables.requests[b].session)
  }

  ghost predicate Inv(w: World) {
    && (forall id :: id in w.tables.requests ==> RequestOk(w.tables, id))
    && (forall id :: id in w.tables.results ==> id in w.tables.requests)
    && OneLive(w.tables.requests) && LinkedOnce(w)
  }

  /** What no step undoes in one request: a reply once given, a start and a rejection. */
  ghost predicate Settles(r: Request, r': Request) {
    && r'.driver == r.driver && r'.connector == r.connector && r'.createdAt == r.createdAt
    && (!r.reply.Pending? ==> r'.reply == r.reply)
    && (r.status.Started? ==> r'.status.Started? && r'.session == r.session)
    && (r.status.Rejected? ==> r'.status.Rejected? && r'.session.None?)
    && (Live(r'.status) ==> Live(r.status))
  }

  ghost predicate Extends(w: World, w': World) {
    forall id :: id in w.tables.requests ==>
      id in w'.tables.requests && Settles(w.tables.requests[id], w'.tables.requests[id])
  }

  // ---------- preservation, step by step ----------

  lemma ExpireKeepsRequest(t: Tables, now: int, id: Id)
    requires id in t.requests && RequestOk(t, id)
    ensures id in Expired(t, now).requests && RequestOk(Expired(t, now), id)
    ensures Settles(t.requests[id], Expired(t, now).requests[id])
    ensures Expired(t, now).requests[id].session == t.requests[id].session
  {
  }

  lemma ExpireKeeps(w: World, now: int)
    requires Inv(w)
    ensures var w' := w.(tables := Expired(w.tables, now)); Inv(w') && Extends(w, w')
  {
    var w' := w.(tables := Expired(w.tables, now));
    assert w'.tables.requests.Keys == w.tables.requests.Keys;
    forall id | id in w'.tables.requests
      ensures RequestOk(w'.tables, id) && Settles(w.tables.requests[id], w'.tables.requests[id])
      ensures w'.tables.requests[id].session == w.tables.requests[id].session
    {
      ExpireKeepsRequest(w.tables, now, id);
    }
  }

  lemma AddKeepsOneLive(requests: map<Id, Request>, id: Id, r: Request)
    requires OneLive(requests) && id !in requests && !Reserved(requests, r.driver, r.connector)
    ensures OneLive(requests[id := r])
  {
  }

  lemma AddKeeps(w: World, id: Id, driver: Id, connector: Id, now: int, online: bool)
    requires Inv(w) && id !in w.tables.requests && !Reserved(w.tables.requests, driver, connector)
    ensures var t := w.tables;
            var w' := w.(tables := Tables(t.requests[id := NewRequest(driver, connector, now, online)],
                                          if online then t.results else Recorded(t.results, id, Offline)));
            Inv(w') && Extends(w, w')
  {
    var t := w.tables;
    var w' := w.(tables := Tables(t.requests[id := NewRequest(driver, connector, now, online)],
                                  if online then t.results else Recorded(t.results, id, Offline)));
    forall i | i in w'.tables.requests ensures RequestOk(w'.tables, i) {
      if i != id { assert RequestOk(w.tables, i); }
    }
    AddKeepsOneLive(t.requests, id, NewRequest(driver, connector, now, online));
  }

  lemma CreateKeeps(w: World, step: Step)
    requires Inv(w) && step.CreateStep?
    ensures Inv(Next(w, step)) && Extends(w, Next(w, step))
  {
    var e := w.(tables := Expired(w.tables, step.now));
    ExpireKeeps(w, step.now);
    if step.id !in w.tables.requests && step.admitted && !Reserved(e.tables.requests, step.driver, step.connector) {
      AddKeeps(e, step.id, step.driver, step.connector, step.now, step.online);
    }
  }

  /** One row replaced by one that settles it, with its invariant, keeps all invariants. */
  lemma RowKeeps(w: World, id: Id, r: Request, results: map<Id, Status>, sessions: set<int>)
    requires Inv(w) && id in w.tables.requests && Settles(w.tables.requests[id], r) && w.sessions <= sessions
    requires results == w.tables.results || (id in results && results == w.tables.results[id := results[id]])
    requires RequestOk(Tables(w.tables.requests[id := r], results), id)
    requires r.session == w.tables.requests[id].session || (r.session.Some? && r.session.value in sessions - w.sessions)
    ensures var w' := World(Tables(w.tables.requests[id := r], results), sessions); Inv(w') && Extends(w, w')
  {
  }

  lemma CompleteKeeps(w: World, id: Id, outcome: Status, now: int)
    requires Inv(w) && id in w.tables.requests && CommandOutcome(outcome)
    ensures var w' := w.(tables := Completed(w.tables, id, outcome, now)); Inv(w') && Extends(w, w')
  {
    assert RequestOk(w.tables, id);
    var t' := Completed(w.tables, id, outcome, now);
    if w.tables.requests[id].reply.Pending? {
      RowKeeps(w, id, t'.requests[id], t'.results, w.sessions);
    }
  }

  lemma DeadlineKeeps(w: World, id: Id)
    requires Inv(w) && id in w.tables.requests
    ensures var w' := w.(tables := w.tables.(results := Recorded(w.tables.results, id, Timeout))); Inv(w') && Extends(w, w')
  {
  }

  lemma RejectKeeps(w: World, driver: Id, connector: Id, picked: Option<Id>, now: int)
    requires Inv(w) && Picks(w.tables.requests, driver, connector, picked)
    ensures var w' := w.(tables := Refused(w.tables, picked, now)); Inv(w') && Extends(w, w')
  {
  }

  lemma StartKeeps(w: World, session: int, driver: Id, connector: Id, picked: Option<Id>, now: int)
    requires Inv(w) && session !in w.sessions && Picks(w.tables.requests, driver, connector, picked)
    ensures var w' := World(Attached(w.tables, picked, session, now), w.sessions + {session}); Inv(w') && Extends(w, w')
  {
  }

  lemma StepKeeps(w: World, step: Step)
    requires Inv(w)
    ensures Inv(Next(w, step)) && Extends(w, Next(w, step))
  {
    if Enabled(w, step) {
      match step
      case CreateStep(_, _, _, _, _, _) => CreateKeeps(w, step);
      case CompleteStep(id, outcome, now) => CompleteKeeps(w, id, outcome, now);
      case ExpireStep(now) => ExpireKeeps(w, now);
      case DeadlineStep(id) => DeadlineKeeps(w, id);
      case RejectStep(driver, connector, picked, now) => RejectKeeps(w, driver, connector, picked, now);
      case StartStep(session, driver, connector, picked, now) => StartKeeps(w, session, driver, connector, picked, now);
    }
  }

  lemma ExtendsTransitive(a: World, b: World, c: World)
    requires Extends(a, b) && Extends(b, c)
    ensures Extends(a, c)
  {
  }

  /** From any consistent state and in every interleaving: replies are given once, started and rejected
      requests stay so with the same session, and a request that lost its lease never regains it. */
  lemma {:induction false} SettledOverRuns(w: World, steps: seq<Step>)
    requires Inv(w)
    ensures Inv(Run(w, steps)) && Extends(w, Run(w, steps))
  {
    if steps == [] {
    } else {
      var before := Run(w, steps[..|steps| - 1]);
      SettledOverRuns(w, steps[..|steps| - 1]);
      StepKeeps(before, steps[|steps| - 1]);
      ExtendsTransitive(w, before, Run(w, steps));
    }
  }

  /** In every reachable state: one live request per driver and per connector, `Started` exactly with a
      session, no session linked twice, and every reply is the recorded command result. */
  lemma {:induction false} ReachableConsistent(steps: seq<Step>)
    ensures var t := Run(EMPTY, steps).tables;
            && OneLive(t.requests) && LinkedOnce(Run(EMPTY, steps))
            && (forall id :: id in t.requests ==> (t.requests[id].status.Started? <==> t.requests[id].session.Some?))
            && (forall id :: id in t.requests && !t.requests[id].reply.Pending? ==>
                  id in t.results && t.results[id] == t.requests[id].reply)
            && (forall id :: id in t.requests && t.requests[id].status.Accepted? ==> t.requests[id].reply.Accepted?)
  {
    SettledOverRuns(EMPTY, steps);
    var t := Run(EMPTY, steps).tables;
    forall id | id in t.requests ensures RequestOk(t, id) {
    }
  }

  // ---------- a real start finds the live request ----------

  /** The creating clock never shows a time already used for this driver's requests. */
  ghost predicate ClockAdvances(w: World, step: Step) {
    step.CreateStep? && step.id !in w.tables.requests ==>
      forall id :: id in w.tables.requests && w.tables.requests[id].driver == step.driver ==>
                     w.tables.requests[id].createdAt < step.now
  }

  ghost predicate Chronological(steps: seq<Step>) {
    forall n :: 0 <= n < |steps| ==> ClockAdvances(Run(EMPTY, steps[..n]), steps[n])
  }

  /** A live request is the newest of its driver. */
  ghost predicate LiveIsNewest(requests: map<Id, Request>) {
    forall a, b :: a in requests && b in requests && a != b ==>
      (Live(requests[a].status) && requests[a].driver == requests[b].driver ==>
         requests[b].createdAt < requests[a].createdAt)
  }

  lemma StepKeepsNewest(w: World, step: Step)
    requires Inv(w) && LiveIsNewest(w.tables.requests) && ClockAdvances(w, step)
    ensures LiveIsNewest(Next(w, step).tables.requests)
  {
    StepKeeps(w, step);
    var before, after := w.tables.requests, Next(w, step).tables.requests;
    forall a, b | a in after && b in after && a != b && Live(after[a].status) && after[a].driver == after[b].driver
      ensures after[b].createdAt < after[a].createdAt
    {
      if a in before && b in before {
        assert Settles(before[a], after[a]) && Settles(before[b], after[b]);
      } else {
        CreatedRow(w, step, a, b);
      }
    }
  }

  lemma CreatedRow(w: World, step: Step, a: Id, b: Id)
    requires Inv(w) && ClockAdvances(w, step)
    requires var after := Next(w, step).tables.requests;
             && a in after && b in after && a != b && Live(after[a].status) && after[a].driver == after[b].driver
    requires a !in w.tables.requests || b !in w.tables.requests
    ensures Next(w, step).tables.requests[b].createdAt < Next(w, step).tables.requests[a].createdAt
  {
  }

  lemma {:induction false} LiveIsNewestOverRuns(steps: seq<Step>)
    requires Chronological(steps)
    ensures LiveIsNewest(Run(EMPTY, steps).tables.requests)
  {
    if steps == [] {
    } else {
      var n := |steps| - 1;
      var init := steps[..n];
      forall k | 0 <= k < n ensures ClockAdvances(Run(EMPTY, init[..k]), init[k]) {
        assert init[..k] == steps[..k];
      }
      LiveIsNewestOverRuns(init);
      SettledOverRuns(EMPTY, init);
      StepKeepsNewest(Run(EMPTY, init), steps[n]);
    }
  }

  /** With an advancing clock, a StartTransaction or a refusal for a driver and connector with a live
      request lands on exactly that request, never on an older one that was given up. */
  lemma {:induction false} StartFindsLiveRequest(steps: seq<Step>, id: Id, picked: Option<Id>)
    requires Chronological(steps)
    requires var requests := Run(EMPTY, steps).tables.requests;
             && id in requests && Live(requests[id].status)
             && Picks(requests, requests[id].driver, requests[id].connector, picked)
    ensures picked == Some(id)
  {
    LiveIsNewestOverRuns(steps);
    SettledOverRuns(EMPTY, steps);
    var requests := Run(EMPTY, steps).tables.requests;
    assert RequestOk(Run(EMPTY, steps).tables, id);
    assert Matches(requests[id], requests[id].driver, requests[id].connector);
  }

  /** Some request of the same driver and connector, given up and not older, competes with the live one. */
  ghost predicate Rivalled(requests: map<Id, Request>, id: Id)
    requires id in requests
  {
    exists other :: other in requests && other != id
                    && Matches(requests[other], requests[id].driver, requests[id].connector)
                    && requests[id].createdAt <= requests[other].createdAt
  }

  /** Some latest matching request other than `id`. */
  lemma LatestRival(requests: map<Id, Request>, id: Id) returns (rival: Id)
    requires id in requests && Rivalled(requests, id)
    ensures rival != id && Picks(requests, requests[id].driver, requests[id].connector, Some(rival))
  {
    var driver, connector := requests[id].driver, requests[id].connector;
    var rivals := set other | other in requests && other != id && Matches(requests[other], driver, connector);
    var first :| first in requests && first != id && Matches(requests[first], driver, connector)
                 && requests[id].createdAt <= requests[first].createdAt;
    var times := set other | other in rivals :: requests[other].createdAt;
    assert first in rivals && requests[first].createdAt in times;
    var newest := Greatest(times);
    assert newest in times && requests[first].createdAt <= newest;
    rival :| rival in rivals && requests[rival].createdAt == newest;
    forall other | other in requests && Matches(requests[other], driver, connector)
      ensures requests[other].createdAt <= requests[rival].createdAt
    {
      if other != id {
        assert other in rivals && requests[other].createdAt in times;
      }
    }
  }

  /** Exactly when a start or a refusal is sure to land on the live request: if and only if no given-up
      request of the same driver and connector carries the same or a later creation time. */
  lemma {:induction false} StartFindsLiveIff(steps: seq<Step>, id: Id)
    requires id in Run(EMPTY, steps).tables.requests && Live(Run(EMPTY, steps).tables.requests[id].status)
    ensures var requests := Run(EMPTY, steps).tables.requests;
            (forall picked :: Picks(requests, requests[id].driver, requests[id].connector, picked) ==> picked == Some(id))
            <==> !Rivalled(requests, id)
  {
    SettledOverRuns(EMPTY, steps);
    var requests := Run(EMPTY, steps).tables.requests;
    assert RequestOk(Run(EMPTY, steps).tables, id);
    assert Matches(requests[id], requests[id].driver, requests[id].connector);
    if Rivalled(requests, id) {
      var rival := LatestRival(requests, id);
    }
  }

  lemma RunSnoc(steps: seq<Step>, step: Step) returns (w: World)
    ensures w == Run(EMPTY, steps + [step]) == Next(Run(EMPTY, steps), step)
  {
    w := Run(EMPTY, steps + [step]);
    assert (steps + [step])[..|steps|] == steps;
  }

  /** Creation times are read before the locks. Here the second request's is the earlier one, and a start
      may be linked to the first request, which had timed out, while the second stays live. */
  lemma BackwardClockMisses(driver: Id, connector: Id)
    ensures exists steps ::
              var requests := Run(EMPTY, steps).tables.requests;
              && 1 in requests && requests[1].status.Timeout? && 2 in requests && Live(requests[2].status)
              && Picks(requests, driver, connector, Some(1))
  {
    var s1 := CreateStep(1, driver, connector, 100, true, true);
    var s2 := ExpireStep(100 + COMMAND_TIMEOUT + SECOND);
    var s3 := CreateStep(2, driver, connector, 50, true, true);
    var w1 := RunSnoc([], s1);
    var w2 := RunSnoc([] + [s1], s2);
    var w3 := RunSnoc([] + [s1] + [s2], s3);
    assert w1.tables.requests == map[1 := NewRequest(driver, connector, 100, true)];
    assert w2.tables.requests[1].status.Timeout? && w2.tables.requests.Keys == {1};
    assert w3.tables.requests.Keys == {1, 2} && w3.tables.requests[1] == w2.tables.requests[1];
    assert Picks(w3.tables.requests, driver, connector, Some(1));
  }
}
