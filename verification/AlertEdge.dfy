/** Reopening an alert without a recovery in between: exactly when a charger's history allows it. */
module AlertEdge {
  import opened Prelude
  import opened Alerts
  import opened AlertsProofs

  /** A run whose last scan opens an alert although no scan since an earlier opening saw recovery. */
  ghost predicate ReopensUnrecovered(steps: seq<Step>, i: nat, k: nat, cfg: Settings) {
    && |steps| == k + 1 && i < k && OpensAt(steps, i, cfg) && OpensAt(steps, k, cfg)
    && forall j :: i < j < k ==> !RecoveredAt(steps, j, cfg)
  }

  // ---------- histories a charger can have ----------

  /** A charger created at `createdAt`, seen at one time: its heartbeat is positive, and neither the time nor
      a contact lies before its creation, nor a contact in the future. */
  predicate Possible(step: Step, createdAt: int) {
    && step.v.createdAt == createdAt <= step.now && step.v.heartbeat > 0
    && (step.v.lastSeen.Some? ==> createdAt <= step.v.lastSeen.value <= step.now)
  }

  /** Time and contacts only move forward, and errors are only added. */
  predicate Forward(a: Step, b: Step) {
    && a.now <= b.now && a.v.errors <= b.v.errors
    && (a.v.lastSeen.Some? ==> b.v.lastSeen.Some? && a.v.lastSeen.value <= b.v.lastSeen.value)
  }

  /** All steps concern one charger, in the order of time; its heartbeat may be reconfigured. */
  ghost predicate Coherent(steps: seq<Step>, createdAt: int) {
    && (forall n :: 0 <= n < |steps| ==> Possible(steps[n], createdAt))
    && (forall m, n :: 0 <= m < n < |steps| ==> Forward(steps[m], steps[n]))
  }

  // ---------- what such a reopening needs ----------

  /** Old enough for two heartbeats of contact that began before the present contact. */
  predicate OldEnough(v: View, now: int) {
    v.createdAt + 2 * v.heartbeat <= now && v.lastSeen.Some? && v.createdAt < v.lastSeen.value
  }

  lemma RecoveredIsOld(steps: seq<Step>, k: nat, cfg: Settings)
    requires RecoveredAt(steps, k, cfg) && Coherent(steps, steps[k].v.createdAt)
    ensures OldEnough(steps[k].v, steps[k].now)
  {
    var m, a, b := RecoveredMeans(steps, k, cfg);
    var seen := steps[..k + 1];
    assert Live(seen[a].v, seen[a].now) && Live(seen[b].v, seen[b].now) && Live(seen[k].v, seen[k].now);
    assert seen[m] == steps[m] && seen[a] == steps[a] && seen[b] == steps[b];
    assert Possible(steps[m], steps[k].v.createdAt) && Possible(steps[a], steps[k].v.createdAt);
    assert Forward(steps[a], steps[b]) && (b < k ==> Forward(steps[b], steps[k]));
  }

  lemma ReopeningNeeds(steps: seq<Step>, i: nat, k: nat, cfg: Settings)
    requires cfg.threshold >= 1 && ReopensUnrecovered(steps, i, k, cfg) && Coherent(steps, steps[k].v.createdAt)
    ensures var v, now := steps[k].v, steps[k].now;
            Live(v, now) && OnWindowEdge(v, now, cfg) && OldEnough(v, now)
  {
    if !(Live(steps[k].v, steps[k].now) && OnWindowEdge(steps[k].v, steps[k].now, cfg)) {
      var j := RecoveryBeforeOpening(steps, i, k, cfg);
      assert false;
    }
    var j := RecoveryBetweenOpenings(steps, i, k, cfg);
    assert j == k;
    RecoveredIsOld(steps, k, cfg);
  }

  // ---------- and a run that shows it is enough ----------

  /** The charger of `v`, answering, last seen at `contact`. */
  function Answering(v: View, contact: int): View {
    View(true, true, Some(contact), v.heartbeat, v.createdAt, v.errors)
  }

  /** The contact of the first scan, two heartbeats before `now`, differs from the present one. */
  function FirstContact(v: View, now: int): int {
    var t := now - 2 * v.heartbeat;
    if v.lastSeen == Some(t) then t - 1 else t
  }

  function FirstScan(v: View, now: int): Step {
    ScanStep(Answering(v, FirstContact(v, now)), now - 2 * v.heartbeat)
  }

  /** The scan at which the errors of the edge open the first alert, unless an earlier error already did. */
  function ErrorScan(v: View, now: int, cfg: Settings): Step {
    var t := now - 2 * v.heartbeat;
    ScanStep(Answering(v, t), Max(t, now - cfg.errorWindow))
  }

  function ForcedClose(before: Step): Step {
    ActStep(0, Close(true, true, "replaced"), before.v, before.now)
  }

  function EdgeRun(v: View, now: int, cfg: Settings): seq<Step> {
    var first, second := FirstScan(v, now), ErrorScan(v, now, cfg);
    if Triggered(first.v, first.now, cfg) then [first, ForcedClose(first), ScanStep(v, now)]
    else [first, second, ForcedClose(second), ScanStep(v, now)]
  }

  ghost predicate OnEdge(v: View, now: int, cfg: Settings) {
    Live(v, now) && OnWindowEdge(v, now, cfg) && OldEnough(v, now) && v.heartbeat > 0 && cfg.threshold >= 1
  }

  lemma {:induction false} EdgeRunCoherent(v: View, now: int, cfg: Settings)
    requires OnEdge(v, now, cfg)
    ensures Coherent(EdgeRun(v, now, cfg), v.createdAt)
  {
    RecentBoundsLatest(v.errors, now, cfg.errorWindow);
  }

  /** Errors on the edge trigger every scan from their time on. */
  lemma {:induction false} EdgeErrorsCount(times: seq<int>, t: int, now: int, window: int)
    requires now - window <= t <= now && (LatestError(times, now).Some? ==> LatestError(times, now).value <= now - window)
    ensures RecentErrors(times, t, window) >= RecentErrors(times, now, window)
  {
    if times == [] {
    } else {
      EdgeErrorsCount(times[..|times| - 1], t, now, window);
    }
  }

  /** A stretch begun two heartbeats ago, with another contact to come or already seen, and nothing active. */
  predicate Waiting(c: Charger, v: View, now: int) {
    && c.rule.Some? && c.rule.value.onlineSince == Some(now - 2 * v.heartbeat)
    && c.rule.value.observations >= 1 && (c.rule.value.observations >= 2 || c.rule.value.lastSeen != v.lastSeen)
    && |c.alerts| == 1 && c.alerts[0].status.Closed?
  }

  lemma WaitingReopens(c: Charger, v: View, now: int, cfg: Settings)
    requires OnEdge(v, now, cfg) && Waiting(c, v, now)
    ensures Opens(c, v, now, cfg)
  {
  }

  lemma CloseWaits(c: Charger, step: Step, cfg: Settings, v: View, now: int)
    requires |c.alerts| == 1 && Waiting(c.(alerts := [c.alerts[0].(status := Closed)]), v, now)
    ensures Waiting(Next(c, ForcedClose(step), cfg), v, now)
  {
  }

  lemma FirstScanStarts(v: View, now: int, cfg: Settings)
    requires OnEdge(v, now, cfg)
    ensures var step := FirstScan(v, now);
            var c := Next(Charger(None, []), step, cfg);
            && c.rule.Some? && c.rule.value.onlineSince == Some(now - 2 * v.heartbeat)
            && c.rule.value.lastSeen == Some(FirstContact(v, now)) && c.rule.value.observations == 1
            && (Triggered(step.v, step.now, cfg) ==> Opens(Charger(None, []), step.v, step.now, cfg) && |c.alerts| == 1)
            && (!Triggered(step.v, step.now, cfg) ==> c.rule.value.armed && c.alerts == [])
  {
  }

  lemma ErrorScanOpens(v: View, now: int, cfg: Settings, c: Charger)
    requires OnEdge(v, now, cfg)
    requires c.rule.Some? && c.rule.value.onlineSince == Some(now - 2 * v.heartbeat) && c.rule.value.armed && c.alerts == []
    requires c.rule.value.lastSeen == Some(FirstContact(v, now)) && c.rule.value.observations == 1
    ensures var step := ErrorScan(v, now, cfg);
            var c' := Next(c, step, cfg);
            && Opens(c, step.v, step.now, cfg) && |c'.alerts| == 1
            && Waiting(c'.(alerts := [c'.alerts[0].(status := Closed)]), v, now)
  {
    var step := ErrorScan(v, now, cfg);
    RecentBoundsLatest(v.errors, now, cfg.errorWindow);
    EdgeErrorsCount(v.errors, step.now, now, cfg.errorWindow);
  }

  lemma {:induction false} ShortEdgeRun(v: View, now: int, cfg: Settings)
    requires OnEdge(v, now, cfg) && Triggered(FirstScan(v, now).v, FirstScan(v, now).now, cfg)
    ensures ReopensUnrecovered(EdgeRun(v, now, cfg), 0, 2, cfg)
  {
    var steps := EdgeRun(v, now, cfg);
    RunPrefix(steps, 0, cfg);
    RunPrefix(steps, 1, cfg);
    assert Run(steps[..0], cfg) == Charger(None, []);
    FirstScanStarts(v, now, cfg);
    CloseWaits(Run(steps[..1], cfg), steps[0], cfg, v, now);
    WaitingReopens(Run(steps[..2], cfg), v, now, cfg);
  }

  lemma {:induction false} LongEdgeRun(v: View, now: int, cfg: Settings)
    requires OnEdge(v, now, cfg) && !Triggered(FirstScan(v, now).v, FirstScan(v, now).now, cfg)
    ensures ReopensUnrecovered(EdgeRun(v, now, cfg), 1, 3, cfg)
  {
    var steps := EdgeRun(v, now, cfg);
    RunPrefix(steps, 0, cfg);
    RunPrefix(steps, 1, cfg);
    RunPrefix(steps, 2, cfg);
    assert Run(steps[..0], cfg) == Charger(None, []);
    FirstScanStarts(v, now, cfg);
    ErrorScanOpens(v, now, cfg, Run(steps[..1], cfg));
    CloseWaits(Run(steps[..2], cfg), steps[1], cfg, v, now);
    WaitingReopens(Run(steps[..3], cfg), v, now, cfg);
  }

  /** Exactly when a charger's history allows a second opening without a recovery in between: if and only if
      the scan finds it live, all triggering errors on the edge of the window, and it old enough. */
  lemma UnrecoveredReopeningIff(v: View, now: int, cfg: Settings)
    requires v.heartbeat > 0 && cfg.threshold >= 1
    ensures (exists steps, i, k ::
               ReopensUnrecovered(steps, i, k, cfg) && Coherent(steps, v.createdAt) && steps[k] == ScanStep(v, now))
       <==> (Live(v, now) && OnWindowEdge(v, now, cfg) && OldEnough(v, now))
  {
    if Live(v, now) && OnWindowEdge(v, now, cfg) && OldEnough(v, now) {
      var steps := EdgeRun(v, now, cfg);
      EdgeRunCoherent(v, now, cfg);
      if Triggered(FirstScan(v, now).v, FirstScan(v, now).now, cfg) {
        ShortEdgeRun(v, now, cfg);
        assert steps[2] == ScanStep(v, now);
      } else {
        LongEdgeRun(v, now, cfg);
        assert steps[3] == ScanStep(v, now);
      }
    } else {
      forall steps, i, k | ReopensUnrecovered(steps, i, k, cfg) && Coherent(steps, v.createdAt) ensures steps[k] != ScanStep(v, now) {
        if steps[k] == ScanStep(v, now) {
          ReopeningNeeds(steps, i, k, cfg);
        }
      }
    }
  }

  // ---------- for instance ----------

  const EDGE_CFG: Settings := Settings(100, 60, 2)
  const EARLY: View := View(true, true, Some(50), 50, 0, [50, 50])
  const LATE: View := View(true, true, Some(150), 50, 0, [50, 50])

  lemma {:induction false} TwoErrors(now: int)
    requires now == 50 || now == 150
    ensures RecentErrors([50, 50], now, 100) == 2 && LatestError([50, 50], now) == Some(50)
  {
    assert [50, 50][..1] == [50] && [50][..0] == [];
    assert RecentErrors([50], now, 100) == 1 && LatestError([50], now) == Some(50);
  }

  lemma EarlyOpens()
    ensures Opens(Charger(None, []), EARLY, 50, EDGE_CFG)
    ensures Scanned(Charger(None, []), EARLY, 50, EDGE_CFG)
         == Charger(Some(RuleState(false, Some(50), Some(50), 1)), [Alert(ErrorBurst, Open, 50, None)])
  {
    TwoErrors(50);
  }

  lemma LateReopens()
    ensures Opens(Charger(Some(RuleState(false, Some(50), Some(50), 1)), [Alert(ErrorBurst, Closed, 50, None)]), LATE, 150, EDGE_CFG)
  {
    TwoErrors(150);
  }

  /** Created at 0, heartbeat 50, two errors at 50, a window of 100. The scan at 50 opens an alert, an
      administrator closes it at 60, and the scan at 150 opens the next one. */
  lemma {:induction false} EdgeReopens()
    ensures var steps := [ScanStep(EARLY, 50), ActStep(0, Close(true, true, "checked"), EARLY, 60), ScanStep(LATE, 150)];
            Coherent(steps, 0) && ReopensUnrecovered(steps, 0, 2, EDGE_CFG)
  {
    var steps := [ScanStep(EARLY, 50), ActStep(0, Close(true, true, "checked"), EARLY, 60), ScanStep(LATE, 150)];
    RunPrefix(steps, 0, EDGE_CFG);
    RunPrefix(steps, 1, EDGE_CFG);
    assert Run(steps[..0], EDGE_CFG) == Charger(None, []);
    EarlyOpens();
    LateReopens();
  }
}
