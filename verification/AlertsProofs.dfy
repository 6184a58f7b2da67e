/** One active alert, hysteresis and what recovery means, over every run of one charger. */
module AlertsProofs {
  import opened Prelude
  import opened Alerts

  /** Scans that examine the charger, and operator actions on one of its alerts. */
  datatype Step = ScanStep(v: View, now: int) | ActStep(k: nat, action: Action, v: View, now: int)

  function Next(c: Charger, step: Step, cfg: Settings): Charger {
    match step
    case ScanStep(v, now) => Scanned(c, v, now, cfg)
    case ActStep(k, action, v, now) =>
      if k >= |c.alerts| then c
      else
        match Acted(c.alerts[k], action, v, now, cfg)
        case Ok(a) => c.(alerts := c.alerts[k := a])
        case Err(_) => c
  }

  function Run(steps: seq<Step>, cfg: Settings): Charger {
    if steps == [] then Charger(None, []) else Next(Run(steps[..|steps| - 1], cfg), steps[|steps| - 1], cfg)
  }

  lemma {:induction false} RunPrefix(steps: seq<Step>, n: nat, cfg: Settings)
    requires n < |steps|
    ensures Run(steps[..n + 1], cfg) == Next(Run(steps[..n], cfg), steps[n], cfg)
  {
    assert steps[..n + 1][..n] == steps[..n];
  }

  // ---------- at most one active alert ----------

  /** In every run a charger has at most one active alert, and then it is its newest. */
  lemma {:induction false} OneActiveOverRuns(steps: seq<Step>, cfg: Settings)
    ensures OnlyLastActive(Run(steps, cfg).alerts)
  {
    if steps == [] {
    } else {
      OneActiveOverRuns(steps[..|steps| - 1], cfg);
    }
  }

  lemma StepKeepsClosed(c: Charger, step: Step, cfg: Settings, k: nat)
    requires k < |c.alerts| && c.alerts[k].status.Closed?
    ensures k < |Next(c, step, cfg).alerts| && Next(c, step, cfg).alerts[k] == c.alerts[k]
  {
  }

  /** A closed alert is history: no later scan or action changes it. */
  lemma {:induction false} ClosedForever(steps: seq<Step>, n: nat, cfg: Settings, k: nat)
    requires n <= |steps| && k < |Run(steps[..n], cfg).alerts| && Run(steps[..n], cfg).alerts[k].status.Closed?
    ensures k < |Run(steps, cfg).alerts| && Run(steps, cfg).alerts[k] == Run(steps[..n], cfg).alerts[k]
  {
    if n == |steps| {
      assert steps[..n] == steps;
    } else {
      var init := steps[..|steps| - 1];
      assert init[..n] == steps[..n];
      ClosedForever(init, n, cfg, k);
      StepKeepsClosed(Run(init, cfg), steps[|steps| - 1], cfg, k);
    }
  }

  // ---------- hysteresis ----------

  ghost predicate OpensAt(steps: seq<Step>, n: nat, cfg: Settings) {
    n < |steps| && steps[n].ScanStep? && Opens(Run(steps[..n], cfg), steps[n].v, steps[n].now, cfg)
  }

  ghost predicate RecoveredAt(steps: seq<Step>, n: nat, cfg: Settings) {
    n < |steps| && steps[n].ScanStep? && Verdict(Run(steps[..n], cfg), steps[n].v, steps[n].now, cfg)
  }

  predicate Armed(c: Charger) { c.rule.None? || c.rule.value.armed }

  ghost predicate ArmedAfter(steps: seq<Step>, n: nat, cfg: Settings)
    requires n <= |steps|
  {
    Armed(Run(steps[..n], cfg))
  }

  lemma OnlyRecoveryRearms(steps: seq<Step>, n: nat, cfg: Settings)
    requires n < |steps| && !ArmedAfter(steps, n, cfg) && ArmedAfter(steps, n + 1, cfg)
    ensures RecoveredAt(steps, n, cfg)
  {
    RunPrefix(steps, n, cfg);
  }

  /** A charger disarmed after step `i` and armed again before step `m` was seen recovered in between. */
  lemma {:induction false} RearmedByRecovery(steps: seq<Step>, i: nat, m: nat, cfg: Settings) returns (j: nat)
    requires i < m <= |steps| && !ArmedAfter(steps, i + 1, cfg) && ArmedAfter(steps, m, cfg)
    ensures i < j < m && RecoveredAt(steps, j, cfg)
    decreases m
  {
    j := m - 1;
    if ArmedAfter(steps, j, cfg) {
      j := RearmedByRecovery(steps, i, j, cfg);
    } else {
      OnlyRecoveryRearms(steps, j, cfg);
    }
  }

  /** Between two openings some scan saw full recovery; it may be the scan that opens the second alert. */
  lemma RecoveryBetweenOpenings(steps: seq<Step>, i: nat, k: nat, cfg: Settings) returns (j: nat)
    requires i < k && OpensAt(steps, i, cfg) && OpensAt(steps, k, cfg)
    ensures i < j <= k && RecoveredAt(steps, j, cfg)
    ensures j == k ==> RecoveredAt(steps, k, cfg) && !ArmedAfter(steps, k, cfg)
  {
    RunPrefix(steps, i, cfg);
    if ArmedAfter(steps, k, cfg) {
      j := RearmedByRecovery(steps, i, k, cfg);
    } else {
      j := k;
    }
  }

  // ---------- the edge of the error window ----------

  /** The errors that trigger the scan all lie on the very first instant of the window. */
  predicate OnWindowEdge(v: View, now: int, cfg: Settings) {
    && RecentErrors(v.errors, now, cfg.errorWindow) >= cfg.threshold
    && LatestError(v.errors, now) == Some(now - cfg.errorWindow)
  }

  /** A recovered scan triggers exactly on that edge. */
  lemma RecoveredTriggersIffOnEdge(s: RuleState, v: View, now: int, cfg: Settings)
    requires Recovered(s, v, now, cfg) && cfg.threshold >= 1
    ensures Triggered(v, now, cfg) <==> OnWindowEdge(v, now, cfg)
  {
    if Triggered(v, now, cfg) {
      RecentBoundsLatest(v.errors, now, cfg.errorWindow);
    }
  }

  /** Off the edge, recovery lies strictly between the two openings. */
  lemma RecoveryBeforeOpening(steps: seq<Step>, i: nat, k: nat, cfg: Settings) returns (j: nat)
    requires i < k && OpensAt(steps, i, cfg) && OpensAt(steps, k, cfg) && cfg.threshold >= 1
    requires !(Live(steps[k].v, steps[k].now) && OnWindowEdge(steps[k].v, steps[k].now, cfg))
    ensures i < j < k && RecoveredAt(steps, j, cfg)
  {
    j := RecoveryBetweenOpenings(steps, i, k, cfg);
    if j == k {
      var c, step := Run(steps[..k], cfg), steps[k];
      var s := if c.rule.Some? then c.rule.value else NewRule();
      RecoveredTriggersIffOnEdge(Observed(s, step.v, step.now), step.v, step.now, cfg);
    }
  }

  // ---------- what recovery means ----------

  /** From step `m` on, every scan saw the charger live. */
  ghost predicate LiveSince(steps: seq<Step>, m: nat) {
    m < |steps| && steps[m].ScanStep? && forall x :: m <= x < |steps| && steps[x].ScanStep? ==> Live(steps[x].v, steps[x].now)
  }

  /** Scans `a` and `b` after `m` found different contact times. */
  ghost predicate TwoContacts(steps: seq<Step>, m: nat, a: nat, b: nat) {
    m <= a < b < |steps| && steps[a].ScanStep? && steps[b].ScanStep? && steps[a].v.lastSeen != steps[b].v.lastSeen
  }

  /** The rule state read back from history: `m` is where the online stretch began, `b` the scan of its
      latest new contact, `a` an earlier scan with another one. */
  ghost predicate Explains(steps: seq<Step>, s: RuleState, m: nat, a: nat, b: nat) {
    && LiveSince(steps, m) && s.onlineSince == Some(steps[m].now)
    && m <= b < |steps| && steps[b].ScanStep? && steps[b].v.lastSeen == s.lastSeen && s.observations >= 1
    && (s.observations >= 2 ==> TwoContacts(steps, m, a, b))
  }

  lemma {:induction false} OnlineStretch(steps: seq<Step>, cfg: Settings) returns (m: nat, a: nat, b: nat)
    requires Run(steps, cfg).rule.Some? && Run(steps, cfg).rule.value.onlineSince.Some?
    ensures Explains(steps, Run(steps, cfg).rule.value, m, a, b)
  {
    assert steps != [];
    var n := |steps| - 1;
    var before := Run(steps[..n], cfg);
    if before.rule.Some? && before.rule.value.onlineSince.Some? {
      m, a, b := OnlineStretch(steps[..n], cfg);
      a, b := StretchGrows(steps, before.rule.value, Run(steps, cfg).rule.value, m, a, b);
    } else {
      OfflineIsReset(steps[..n], cfg);
      m, a, b := n, n, n;
    }
  }

  lemma StretchGrows(steps: seq<Step>, s: RuleState, s': RuleState, m: nat, a0: nat, b0: nat) returns (a: nat, b: nat)
    requires steps != [] && Explains(steps[..|steps| - 1], s, m, a0, b0) && s'.onlineSince.Some?
    requires var step := steps[|steps| - 1];
             if step.ScanStep? then s' == Observed(s, step.v, step.now).(armed := s'.armed) else s' == s
    ensures Explains(steps, s', m, a, b)
  {
    var n := |steps| - 1;
    a, b := a0, b0;
    if steps[n].ScanStep? && steps[n].v.lastSeen != s.lastSeen {
      a, b := b, n;
    }
  }

  /** Outside an online stretch nothing of an earlier one is remembered. */
  lemma {:induction false} OfflineIsReset(steps: seq<Step>, cfg: Settings)
    ensures var c := Run(steps, cfg);
            c.rule.Some? && c.rule.value.onlineSince.None? ==> c.rule.value.lastSeen.None? && c.rule.value.observations == 0
  {
    if steps == [] {
    } else {
      OfflineIsReset(steps[..|steps| - 1], cfg);
    }
  }

  /** A recovered verdict means: since some scan at least two heartbeats ago every scan saw the charger
      live, with at least two different contacts, and no error came after the first instant of the window. */
  lemma RecoveredMeans(steps: seq<Step>, n: nat, cfg: Settings) returns (m: nat, a: nat, b: nat)
    requires RecoveredAt(steps, n, cfg)
    ensures LiveSince(steps[..n + 1], m) && TwoContacts(steps[..n + 1], m, a, b)
    ensures steps[n].now - steps[m].now >= 2 * steps[n].v.heartbeat
    ensures Quiet(steps[n].v, steps[n].now, cfg)
  {
    RunPrefix(steps, n, cfg);
    m, a, b := OnlineStretch(steps[..n + 1], cfg);
  }

  // ---------- closing ----------

  /** Step `j` is the last scan of the run. */
  ghost predicate LastScan(steps: seq<Step>, j: nat) {
    j < |steps| && steps[j].ScanStep? && forall x :: j < x < |steps| ==> !steps[x].ScanStep?
  }

  ghost predicate ActiveStamped(c: Charger, k: nat) {
    k < |c.alerts| && !c.alerts[k].status.Closed? && c.alerts[k].recoveredAt.Some?
  }

  /** A stamp comes from this step's recovered scan, or was there before this action. */
  lemma StampOrigin(c: Charger, step: Step, cfg: Settings, k: nat)
    requires ActiveStamped(Next(c, step, cfg), k)
    ensures if step.ScanStep? then Verdict(c, step.v, step.now, cfg) else ActiveStamped(c, k)
  {
  }

  lemma {:induction false} StampedByLastScan(steps: seq<Step>, cfg: Settings, k: nat) returns (j: nat)
    requires ActiveStamped(Run(steps, cfg), k)
    ensures LastScan(steps, j) && RecoveredAt(steps, j, cfg)
  {
    if steps == [] {
      assert false;
    } else {
      j := |steps| - 1;
      StampOrigin(Run(steps[..j], cfg), steps[j], cfg, k);
      if !steps[j].ScanStep? {
        var init := steps[..j];
        j := StampedByLastScan(init, cfg, k);
        assert init[..j] == steps[..j];
      }
    }
  }

  /** An alert closed without force was recovered in the latest scan, and the charger was live and quiet
      again when it was closed. */
  lemma CloseNeedsRecovery(steps: seq<Step>, cfg: Settings, k: nat, admin: bool, reason: string, v: View, now: int)
    returns (j: nat)
    requires var alerts := Run(steps, cfg).alerts;
             && k < |alerts| && !alerts[k].status.Closed?
             && Acted(alerts[k], Close(false, admin, reason), v, now, cfg).Ok?
    ensures LastScan(steps, j) && RecoveredAt(steps, j, cfg) && Live(v, now) && Quiet(v, now, cfg)
  {
    j := StampedByLastScan(steps, cfg, k);
  }
}
