/** Exactly when an alert opens, when a charger counts as recovered, and what an operator can do. */
module AlertOutcome {
  import opened Prelude
  import opened Alerts
  import opened AlertsProofs

  // ---------- the errors of a charger ----------

  ghost function ErrorsIn(times: seq<int>, first: int, last: int): set<nat> {
    set i: nat | i < |times| && first <= times[i] <= last
  }

  lemma {:induction false} RecentErrorsIs(times: seq<int>, now: int, window: int)
    ensures RecentErrors(times, now, window) == |ErrorsIn(times, now - window, now)|
  {
    if times == [] {
      assert ErrorsIn(times, now - window, now) == {};
    } else {
      var init, n := times[..|times| - 1], |times| - 1;
      RecentErrorsIs(init, now, window);
      var earlier, all := ErrorsIn(init, now - window, now), ErrorsIn(times, now - window, now);
      assert n !in earlier;
      assert all == if now - window <= times[n] <= now then earlier + {n} else earlier;
    }
  }

  /** No error later than this instant has happened by now. */
  ghost predicate NoErrorAfter(times: seq<int>, instant: int, now: int) {
    forall i :: 0 <= i < |times| ==> times[i] <= instant || now < times[i]
  }

  lemma {:induction false} LatestErrorIs(times: seq<int>, now: int)
    ensures var latest := LatestError(times, now);
            && (latest.None? ==> forall i :: 0 <= i < |times| ==> now < times[i])
            && (latest.Some? ==> latest.value <= now && latest.value in times && NoErrorAfter(times, latest.value, now))
  {
    if times == [] {
    } else {
      var init := times[..|times| - 1];
      LatestErrorIs(init, now);
      assert times == init + [times[|init|]];
    }
  }

  lemma QuietIff(v: View, now: int, cfg: Settings)
    requires cfg.errorWindow >= 0
    ensures Quiet(v, now, cfg) <==> NoErrorAfter(v.errors, now - cfg.errorWindow, now)
  {
    LatestErrorIs(v.errors, now);
  }

  // ---------- opening ----------

  /** Out of contact for two heartbeats and the grace period, counted from the last contact or the creation. */
  predicate Silent(v: View, now: int, cfg: Settings) {
    && !Live(v, now)
    && match v.lastSeen
       case Some(t) => t + 2 * v.heartbeat + cfg.offlineGrace <= now
       case None => v.createdAt + 2 * v.heartbeat + cfg.offlineGrace <= now
  }

  ghost predicate Bursts(v: View, now: int, cfg: Settings) {
    |ErrorsIn(v.errors, now - cfg.errorWindow, now)| >= cfg.threshold
  }

  ghost predicate TriggeredAt(steps: seq<Step>, n: nat, cfg: Settings) {
    && n < |steps| && steps[n].ScanStep?
    && (Silent(steps[n].v, steps[n].now, cfg) || Bursts(steps[n].v, steps[n].now, cfg))
  }

  lemma TriggeredIs(v: View, now: int, cfg: Settings)
    ensures Triggered(v, now, cfg) <==> Silent(v, now, cfg) || Bursts(v, now, cfg)
    ensures OfflineLate(v, now, cfg) <==> Silent(v, now, cfg)
  {
    RecentErrorsIs(v.errors, now, cfg.errorWindow);
  }

  /** Every scan before step n that triggered was followed by a recovered one before step m. */
  ghost predicate RecoveredSince(steps: seq<Step>, n: nat, m: nat, cfg: Settings) {
    forall i :: 0 <= i < n && TriggeredAt(steps, i, cfg) ==> exists j :: i < j < m && RecoveredAt(steps, j, cfg)
  }

  lemma ArmedStep(steps: seq<Step>, n: nat, cfg: Settings)
    requires n < |steps|
    ensures ArmedAfter(steps, n + 1, cfg)
            <==> !TriggeredAt(steps, n, cfg) && (ArmedAfter(steps, n, cfg) || RecoveredAt(steps, n, cfg))
  {
    RunPrefix(steps, n, cfg);
    if steps[n].ScanStep? {
      TriggeredIs(steps[n].v, steps[n].now, cfg);
    }
  }

  lemma SinceLonger(steps: seq<Step>, n: nat, m: nat, m': nat, cfg: Settings)
    requires RecoveredSince(steps, n, m, cfg) && m <= m'
    ensures RecoveredSince(steps, n, m', cfg)
  {
    forall i | 0 <= i < n && TriggeredAt(steps, i, cfg) ensures exists j :: i < j < m' && RecoveredAt(steps, j, cfg) {
      var j :| i < j < m && RecoveredAt(steps, j, cfg);
    }
  }

  /** One more scan helps if and only if it is recovered. */
  lemma SinceNext(steps: seq<Step>, n: nat, cfg: Settings)
    ensures RecoveredSince(steps, n, n + 1, cfg) <==> RecoveredSince(steps, n, n, cfg) || RecoveredAt(steps, n, cfg)
  {
    if RecoveredSince(steps, n, n, cfg) {
      SinceLonger(steps, n, n, n + 1, cfg);
    } else if !RecoveredAt(steps, n, cfg) {
      var i :| 0 <= i < n && TriggeredAt(steps, i, cfg) && !exists j :: i < j < n && RecoveredAt(steps, j, cfg);
      assert !exists j :: i < j < n + 1 && RecoveredAt(steps, j, cfg);
    }
  }

  lemma SinceTriggered(steps: seq<Step>, n: nat, cfg: Settings)
    ensures RecoveredSince(steps, n + 1, n + 1, cfg)
            <==> RecoveredSince(steps, n, n + 1, cfg) && !TriggeredAt(steps, n, cfg)
  {
  }

  /** The rule is armed if and only if recovery was seen after every scan that triggered. */
  lemma {:induction false} ArmedIff(steps: seq<Step>, n: nat, cfg: Settings)
    requires n <= |steps|
    ensures ArmedAfter(steps, n, cfg) <==> RecoveredSince(steps, n, n, cfg)
  {
    if n == 0 {
      assert steps[..0] == [];
    } else {
      ArmedIff(steps, n - 1, cfg);
      ArmedStep(steps, n - 1, cfg);
      SinceNext(steps, n - 1, cfg);
      SinceTriggered(steps, n - 1, cfg);
    }
  }

  /** A scan opens an alert if and only if the charger is silent or bursting, has no active alert, and recovery was
      seen after every earlier scan that triggered, this scan included. */
  lemma {:induction false} OpensIff(steps: seq<Step>, k: nat, cfg: Settings)
    requires k < |steps|
    ensures OpensAt(steps, k, cfg) <==>
            && TriggeredAt(steps, k, cfg) && !HasActive(Run(steps[..k], cfg).alerts)
            && RecoveredSince(steps, k, k + 1, cfg)
  {
    if steps[k].ScanStep? {
      TriggeredIs(steps[k].v, steps[k].now, cfg);
      ArmedIff(steps, k, cfg);
      SinceNext(steps, k, cfg);
    }
  }

  /** What an opening scan adds: one open alert of this time, for silence if the charger is silent. */
  lemma {:induction false} OpeningAdds(steps: seq<Step>, k: nat, cfg: Settings)
    requires k < |steps|
    ensures var before, after := Run(steps[..k], cfg).alerts, Run(steps[..k + 1], cfg).alerts;
            && |after| == |before| + (if OpensAt(steps, k, cfg) then 1 else 0)
            && (OpensAt(steps, k, cfg) ==>
                  after[|before|] == Alert(if Silent(steps[k].v, steps[k].now, cfg) then OfflineAlert else ErrorBurst,
                                           Open, steps[k].now, None))
  {
    RunPrefix(steps, k, cfg);
    if steps[k].ScanStep? {
      TriggeredIs(steps[k].v, steps[k].now, cfg);
    }
  }

  // ---------- recovery ----------

  ghost predicate InTime(steps: seq<Step>) {
    forall i, j :: 0 <= i < j < |steps| ==> steps[i].now <= steps[j].now
  }

  /** Since scan m the rule has been online, and since scan a it has seen that contact or two different ones. */
  ghost predicate Stretch(steps: seq<Step>, s: RuleState, m: nat, a: nat) {
    && m <= a < |steps|
    && s.onlineSince.Some? && s.onlineSince.value <= steps[m].now && s.observations >= 1
    && (s.observations >= 2 || s.lastSeen == steps[a].v.lastSeen)
  }

  lemma {:induction false} OnlineFrom(steps: seq<Step>, m: nat, cfg: Settings)
    requires InTime(steps) && m < |steps| && steps[m].ScanStep? && Live(steps[m].v, steps[m].now)
    ensures var rule := Run(steps[..m + 1], cfg).rule;
            && rule.Some? && rule.value.onlineSince.Some? && rule.value.onlineSince.value <= steps[m].now
            && rule.value.lastSeen == steps[m].v.lastSeen && rule.value.observations >= 1
  {
    RunPrefix(steps, m, cfg);
    var before := Run(steps[..m], cfg).rule;
    OfflineIsReset(steps[..m], cfg);
    if before.Some? && before.value.onlineSince.Some? {
      var m0, a, b := OnlineStretch(steps[..m], cfg);
    }
  }

  lemma {:induction false} StretchStep(steps: seq<Step>, n: nat, m: nat, a: nat, cfg: Settings)
    requires a < n < |steps| && (steps[n].ScanStep? ==> Live(steps[n].v, steps[n].now))
    requires Run(steps[..n], cfg).rule.Some? && Stretch(steps, Run(steps[..n], cfg).rule.value, m, a)
    ensures Run(steps[..n + 1], cfg).rule.Some? && Stretch(steps, Run(steps[..n + 1], cfg).rule.value, m, a)
    ensures steps[n].ScanStep? ==> Run(steps[..n + 1], cfg).rule.value.lastSeen == steps[n].v.lastSeen
    ensures Run(steps[..n + 1], cfg).rule.value.observations >= Run(steps[..n], cfg).rule.value.observations
  {
    RunPrefix(steps, n, cfg);
  }

  /** While every scan is live, the stretch goes on. */
  lemma {:induction false} StretchLasts(steps: seq<Step>, n: nat, m: nat, a: nat, cfg: Settings)
    requires InTime(steps) && m <= a < n <= |steps| && steps[a].ScanStep? && LiveSince(steps[..n], m)
    ensures Run(steps[..n], cfg).rule.Some? && Stretch(steps, Run(steps[..n], cfg).rule.value, m, a)
  {
    if n == a + 1 {
      OnlineFrom(steps, a, cfg);
      SinceStart(steps, n, m, cfg);
    } else {
      assert LiveSince(steps[..n - 1], m) by {
        assert forall x :: m <= x < n - 1 ==> steps[..n - 1][x] == steps[..n][x];
      }
      StretchLasts(steps, n - 1, m, a, cfg);
      assert steps[..n][n - 1] == steps[n - 1];
      StretchStep(steps, n - 1, m, a, cfg);
    }
  }

  lemma {:induction false} StaysOnline(steps: seq<Step>, n: nat, cfg: Settings)
    requires n < |steps| && (steps[n].ScanStep? ==> Live(steps[n].v, steps[n].now))
    requires Run(steps[..n], cfg).rule.Some? && Run(steps[..n], cfg).rule.value.onlineSince.Some?
    ensures Run(steps[..n + 1], cfg).rule.Some?
    ensures Run(steps[..n + 1], cfg).rule.value.onlineSince == Run(steps[..n], cfg).rule.value.onlineSince
    ensures Run(steps[..n + 1], cfg).rule.value.observations >= Run(steps[..n], cfg).rule.value.observations
  {
    RunPrefix(steps, n, cfg);
  }

  lemma {:induction false} SinceStart(steps: seq<Step>, n: nat, m: nat, cfg: Settings)
    requires InTime(steps) && m < n <= |steps| && LiveSince(steps[..n], m)
    ensures var rule := Run(steps[..n], cfg).rule;
            rule.Some? && rule.value.onlineSince.Some? && rule.value.onlineSince.value <= steps[m].now
  {
    if n == m + 1 {
      assert steps[..n][m] == steps[m];
      OnlineFrom(steps, m, cfg);
    } else {
      assert LiveSince(steps[..n - 1], m) by {
        assert forall x :: m <= x < n - 1 ==> steps[..n - 1][x] == steps[..n][x];
      }
      SinceStart(steps, n - 1, m, cfg);
      assert steps[..n][n - 1] == steps[n - 1];
      StaysOnline(steps, n - 1, cfg);
    }
  }

  /** Two different contacts make two observations. */
  lemma {:induction false} ContactsObserved(steps: seq<Step>, n: nat, m: nat, a: nat, b: nat, cfg: Settings)
    requires InTime(steps) && n < |steps| && LiveSince(steps[..n + 1], m) && TwoContacts(steps[..n + 1], m, a, b)
    ensures var rule := Run(steps[..n + 1], cfg).rule;
            rule.Some? && rule.value.onlineSince.Some? && rule.value.onlineSince.value <= steps[m].now
            && rule.value.observations >= 2
    decreases n
  {
    assert steps[..n + 1][a] == steps[a] && steps[..n + 1][b] == steps[b] && steps[..n + 1][n] == steps[n];
    if b == n {
      assert LiveSince(steps[..n], m) by {
        assert forall x :: m <= x < n ==> steps[..n][x] == steps[..n + 1][x];
      }
      StretchLasts(steps, n, m, a, cfg);
      StretchStep(steps, n, m, a, cfg);
    } else {
      assert LiveSince(steps[..n], m) && TwoContacts(steps[..n], m, a, b) by {
        assert forall x :: m <= x < n ==> steps[..n][x] == steps[..n + 1][x];
      }
      ContactsObserved(steps, n - 1, m, a, b, cfg);
      assert steps[..n - 1 + 1] == steps[..n];
      StaysOnline(steps, n, cfg);
    }
  }

  /** Since scan m, two heartbeats ago, every scan up to n saw the charger live, and a and b different contacts. */
  ghost predicate ShowsRecovery(steps: seq<Step>, n: nat, m: nat, a: nat, b: nat)
    requires n < |steps|
  {
    && LiveSince(steps[..n + 1], m) && TwoContacts(steps[..n + 1], m, a, b)
    && steps[n].now - steps[m].now >= 2 * steps[n].v.heartbeat
  }

  lemma ShownIsRecovered(steps: seq<Step>, n: nat, m: nat, a: nat, b: nat, cfg: Settings)
    requires InTime(steps) && n < |steps| && steps[n].ScanStep? && ShowsRecovery(steps, n, m, a, b)
    requires Quiet(steps[n].v, steps[n].now, cfg)
    ensures RecoveredAt(steps, n, cfg)
  {
    ContactsObserved(steps, n, m, a, b, cfg);
    RunPrefix(steps, n, cfg);
    assert steps[..n + 1][n] == steps[n];
  }

  /** A scan finds the charger recovered if and only if since some scan at least two heartbeats ago every scan saw
      it live, two of them with different contacts, and no error came after the first instant of the window. */
  lemma RecoveredIff(steps: seq<Step>, n: nat, cfg: Settings)
    requires InTime(steps) && n < |steps| && steps[n].ScanStep? && cfg.errorWindow >= 0
    ensures RecoveredAt(steps, n, cfg) <==>
            && NoErrorAfter(steps[n].v.errors, steps[n].now - cfg.errorWindow, steps[n].now)
            && exists m: nat, a: nat, b: nat :: ShowsRecovery(steps, n, m, a, b)
  {
    QuietIff(steps[n].v, steps[n].now, cfg);
    if RecoveredAt(steps, n, cfg) {
      var m, a, b := RecoveredMeans(steps, n, cfg);
      assert ShowsRecovery(steps, n, m, a, b);
    }
    if Quiet(steps[n].v, steps[n].now, cfg) {
      forall m: nat, a: nat, b: nat | ShowsRecovery(steps, n, m, a, b) ensures RecoveredAt(steps, n, cfg) {
        ShownIsRecovered(steps, n, m, a, b, cfg);
      }
    }
  }

  // ---------- operators ----------

  /** An alert is acknowledged unless it is closed. It is closed unless force comes without the right or a reason,
      or, without force, the last scan did not stamp it recovered, or the charger is not live and quiet now. */
  lemma ActionDecided(a: Alert, action: Action, v: View, now: int, cfg: Settings)
    ensures var r := Acted(a, action, v, now, cfg);
            match action
            case Acknowledge =>
              && (r.Ok? <==> a.status != Closed) && (r.Ok? ==> r.value == a.(status := Acknowledged))
            case Close(force, admin, reason) =>
              var allowed := if force then admin && reason != ""
                             else a.status == Closed || (a.recoveredAt.Some? && Live(v, now) && Quiet(v, now, cfg));
              (r.Ok? <==> allowed) && (r.Ok? ==> r.value == a.(status := Closed))
  {
  }

  /** A scan stamps every active alert that it found if the charger is recovered, and takes the stamp back if not. */
  lemma {:induction false} ScanStamps(steps: seq<Step>, n: nat, cfg: Settings, k: nat)
    requires n < |steps| && steps[n].ScanStep? && k < |Run(steps[..n], cfg).alerts|
    ensures var before := Run(steps[..n], cfg).alerts[k];
            && k < |Run(steps[..n + 1], cfg).alerts|
            && var after := Run(steps[..n + 1], cfg).alerts[k];
               && after == before.(recoveredAt := after.recoveredAt)
               && (before.status != Closed ==> (after.recoveredAt.Some? <==> RecoveredAt(steps, n, cfg)))
               && (before.status == Closed ==> after == before)
  {
    RunPrefix(steps, n, cfg);
  }
}
