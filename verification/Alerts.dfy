/** The alert scanner with hysteresis, and the operator actions on alerts (alerts/service.py). */
module Alerts {
  import opened Prelude

  type Id = int

  datatype Kind = OfflineAlert | ErrorBurst

  datatype AlertStatus = Open | Acknowledged | Closed

  datatype Alert = Alert(kind: Kind, status: AlertStatus, openedAt: int, recoveredAt: Option<int>)

  datatype RuleState = RuleState(armed: bool, onlineSince: Option<int>, lastSeen: Option<int>, observations: nat)

  /** A charger's rule state, if it was ever scanned, and its alerts in the order they were opened. */
  datatype Charger = Charger(rule: Option<RuleState>, alerts: seq<Alert>)

  /** What one scan reads about a charger; `errors` are the times of its connector errors. */
  datatype View = View(
    online: bool, booted: bool, lastSeen: Option<int>, heartbeat: int, createdAt: int, errors: seq<int>)

  datatype Settings = Settings(errorWindow: int, offlineGrace: int, threshold: int)

  predicate Live(v: View, now: int) {
    v.online && v.booted && v.lastSeen.Some? && v.lastSeen.value <= now && now - v.lastSeen.value <= 2 * v.heartbeat
  }

  // ---------- the error query ----------

  /** Errors inside the window, both of its ends included. */
  function RecentErrors(times: seq<int>, now: int, window: int): nat {
    if times == [] then 0
    else
      var t := times[|times| - 1];
      RecentErrors(times[..|times| - 1], now, window) + if now - window <= t <= now then 1 else 0
  }

  /** The latest error that is not in the future. */
  function LatestError(times: seq<int>, now: int): Option<int> {
    if times == [] then None
    else
      var latest, t := LatestError(times[..|times| - 1], now), times[|times| - 1];
      if t <= now && (latest.None? || latest.value < t) then Some(t) else latest
  }

  lemma {:induction false} RecentBoundsLatest(times: seq<int>, now: int, window: int)
    requires RecentErrors(times, now, window) > 0
    ensures LatestError(times, now).Some? && now - window <= LatestError(times, now).value <= now
  {
    var init, t := times[..|times| - 1], times[|times| - 1];
    if RecentErrors(init, now, window) > 0 {
      RecentBoundsLatest(init, now, window);
    } else {
      LatestNotInFuture(init, now);
    }
  }

  lemma {:induction false} LatestNotInFuture(times: seq<int>, now: int)
    ensures LatestError(times, now).Some? ==> LatestError(times, now).value <= now
  {
    if times == [] {
    } else {
      LatestNotInFuture(times[..|times| - 1], now);
    }
  }

  // ---------- one charger in one scan ----------

  function Observed(s: RuleState, v: View, now: int): RuleState {
    if !Live(v, now) then s.(onlineSince := None, lastSeen := None, observations := 0)
    else
      var s1 := if s.onlineSince.None? then s.(onlineSince := Some(now), observations := 0) else s;
      if s1.lastSeen != v.lastSeen then s1.(observations := s1.observations + 1, lastSeen := v.lastSeen) else s1
  }

  predicate Quiet(v: View, now: int, cfg: Settings) {
    var latest := LatestError(v.errors, now);
    latest.None? || latest.value <= now - cfg.errorWindow
  }

  predicate Recovered(s: RuleState, v: View, now: int, cfg: Settings) {
    && Live(v, now) && s.onlineSince.Some? && now - s.onlineSince.value >= 2 * v.heartbeat
    && s.observations >= 2 && Quiet(v, now, cfg)
  }

  predicate OfflineLate(v: View, now: int, cfg: Settings) {
    var reference := if v.lastSeen.Some? then v.lastSeen.value else v.createdAt;
    !Live(v, now) && now - reference >= 2 * v.heartbeat + cfg.offlineGrace
  }

  predicate Triggered(v: View, now: int, cfg: Settings) {
    OfflineLate(v, now, cfg) || RecentErrors(v.errors, now, cfg.errorWindow) >= cfg.threshold
  }

  function NewRule(): RuleState { RuleState(true, None, None, 0) }

  predicate HasActive(alerts: seq<Alert>) {
    exists k :: 0 <= k < |alerts| && !alerts[k].status.Closed?
  }

  /** The verdict of this scan, from the rule state it has just brought up to date. */
  predicate Verdict(c: Charger, v: View, now: int, cfg: Settings) {
    var s := if c.rule.Some? then c.rule.value else NewRule();
    Recovered(Observed(s, v, now), v, now, cfg)
  }

  /** Recovery is stamped on an active alert, or taken back. */
  function Stamped(alerts: seq<Alert>, recovered: bool, now: int): seq<Alert> {
    seq(|alerts|, k requires 0 <= k < |alerts| =>
      if alerts[k].status.Closed? then alerts[k]
      else if recovered then
        if alerts[k].recoveredAt.None? then alerts[k].(recoveredAt := Some(now)) else alerts[k]
      else alerts[k].(recoveredAt := None))
  }

  predicate Opens(c: Charger, v: View, now: int, cfg: Settings) {
    var armed := if c.rule.Some? then c.rule.value.armed else true;
    Triggered(v, now, cfg) && (armed || Verdict(c, v, now, cfg)) && !HasActive(c.alerts)
  }

  function Scanned(c: Charger, v: View, now: int, cfg: Settings): Charger {
    var s := Observed(if c.rule.Some? then c.rule.value else NewRule(), v, now);
    var recovered := Recovered(s, v, now, cfg);
    var alerts := Stamped(c.alerts, recovered, now);
    var kind := if OfflineLate(v, now, cfg) then OfflineAlert else ErrorBurst;
    Charger(Some(s.(armed := !Triggered(v, now, cfg) && (s.armed || recovered))),
            if Opens(c, v, now, cfg) then alerts + [Alert(kind, Open, now, None)] else alerts)
  }

  // ---------- operator actions ----------

  datatype Action = Acknowledge | Close(force: bool, admin: bool, reason: string)

  datatype Refusal = AlreadyClosed | PermissionDenied | ReasonRequired | NotRecovered

  /** `mutate_alert` on one alert; `v` is the charger as seen by this transaction, and the reason comes
      with its surrounding blanks removed. */
  function Acted(a: Alert, action: Action, v: View, now: int, cfg: Settings): Result<Alert, Refusal> {
    match action
    case Acknowledge =>
      if a.status.Closed? then Err(AlreadyClosed) else Ok(a.(status := Acknowledged))
    case Close(force, admin, reason) =>
      if force && !admin then Err(PermissionDenied)
      else if force && reason == "" then Err(ReasonRequired)
      else if a.status.Closed? then Ok(a)
      else if !force && a.recoveredAt.None? then Err(NotRecovered)
      else if !force && (!Live(v, now) || !Quiet(v, now, cfg)) then Err(NotRecovered)
      else Ok(a.(status := Closed))
  }

  // ---------- a whole scan ----------

  function ChargerOf(chargers: map<Id, Charger>, id: Id): Charger {
    if id in chargers then chargers[id] else Charger(None, [])
  }

  function ScannedAt(chargers: map<Id, Charger>, id: Id, views: map<Id, View>, now: int, cfg: Settings): Charger
    requires id in views
  {
    Scanned(ChargerOf(chargers, id), views[id], now, cfg)
  }

  predicate PointOpens(chargers: map<Id, Charger>, id: Id, views: map<Id, View>, now: int, cfg: Settings)
    requires id in views
  {
    Opens(ChargerOf(chargers, id), views[id], now, cfg)
  }

  /** Exactly the listed chargers are brought up to date. */
  ghost predicate ScanDone(
    before: map<Id, Charger>, after: map<Id, Charger>, points: seq<Id>, views: map<Id, View>, now: int, cfg: Settings)
    requires forall id :: id in points ==> id in views
  {
    forall id :: ChargerOf(after, id) ==
      if id in points then ScannedAt(before, id, views, now, cfg) else ChargerOf(before, id)
  }

  ghost function Openings(
    before: map<Id, Charger>, points: seq<Id>, views: map<Id, View>, now: int, cfg: Settings): set<Id>
    requires forall id :: id in points ==> id in views
  {
    set id | id in points && PointOpens(before, id, views, now, cfg)
  }

  lemma ScanExtends(
    before: map<Id, Charger>, after: map<Id, Charger>, points: seq<Id>, id: Id, views: map<Id, View>, now: int, cfg: Settings)
    requires (forall i :: i in points ==> i in views) && id in views && id !in points
    requires ScanDone(before, after, points, views, now, cfg)
    ensures ScanDone(before, after[id := ScannedAt(after, id, views, now, cfg)], points + [id], views, now, cfg)
  {
  }

  lemma OpeningsExtend(
    before: map<Id, Charger>, points: seq<Id>, id: Id, views: map<Id, View>, now: int, cfg: Settings)
    requires (forall i :: i in points ==> i in views) && id in views && id !in points
    ensures |Openings(before, points + [id], views, now, cfg)|
         == |Openings(before, points, views, now, cfg)| + if PointOpens(before, id, views, now, cfg) then 1 else 0
  {
    var earlier, later := Openings(before, points, views, now, cfg), Openings(before, points + [id], views, now, cfg);
    assert later == if PointOpens(before, id, views, now, cfg) then earlier + {id} else earlier;
  }

  // ---------- the tables as scan and actions update them ----------

  class AlertBoard {
    const cfg: Settings
    var chargers: map<Id, Charger>

    constructor (cfg: Settings)
      ensures this.cfg == cfg && chargers == map[]
    {
      this.cfg, chargers := cfg, map[];
    }

    /** `active.get(point.id)`. */
    method FindActive(alerts: seq<Alert>) returns (k: int)
      ensures k == -1 ==> !HasActive(alerts)
      ensures k != -1 ==> 0 <= k < |alerts| && !alerts[k].status.Closed?
    {
      for i := 0 to |alerts|
        invariant forall j :: 0 <= j < i ==> alerts[j].status.Closed?
      {
        if !alerts[i].status.Closed? {
          return i;
        }
      }
      return -1;
    }

    /** The contact fields of the rule state. */
    method Observe(s0: RuleState, v: View, now: int) returns (s: RuleState)
      ensures s == Observed(s0, v, now)
    {
      s := s0;
      if Live(v, now) {
        if s.onlineSince.None? {
          s := s.(onlineSince := Some(now), observations := 0);
        }
        if s.lastSeen != v.lastSeen {
          s := s.(observations := s.observations + 1, lastSeen := v.lastSeen);
        }
      } else {
        s := s.(onlineSince := None, lastSeen := None, observations := 0);
      }
    }

    /** Recovery stamped on the active alert, or taken back. */
    method StampRecovery(alerts0: seq<Alert>, active: int, recovered: bool, now: int) returns (alerts: seq<Alert>)
      requires OnlyLastActive(alerts0)
      requires if active == -1 then !HasActive(alerts0) else 0 <= active < |alerts0| && !alerts0[active].status.Closed?
      ensures alerts == Stamped(alerts0, recovered, now)
    {
      alerts := alerts0;
      if active != -1 {
        if !recovered {
          alerts := alerts[active := alerts[active].(recoveredAt := None)];
        } else if alerts[active].recoveredAt.None? {
          alerts := alerts[active := alerts[active].(recoveredAt := Some(now))];
        }
      }
      assert forall k :: 0 <= k < |alerts| ==> alerts[k] == Stamped(alerts0, recovered, now)[k];
    }

    /** The loop body of `scan_alerts` for one charger. */
    method ScanPoint(id: Id, v: View, now: int) returns (opens: bool)
      requires OnlyLastActive(ChargerOf(chargers, id).alerts)
      modifies this`chargers
      ensures chargers == old(chargers)[id := Scanned(ChargerOf(old(chargers), id), v, now, cfg)]
      ensures opens == Opens(ChargerOf(old(chargers), id), v, now, cfg)
    {
      var c := ChargerOf(chargers, id);
      var s := Observe(if c.rule.Some? then c.rule.value else NewRule(), v, now);
      var recovered := Recovered(s, v, now, cfg);
      var active := FindActive(c.alerts);
      var alerts := StampRecovery(c.alerts, active, recovered, now);
      if recovered {
        s := s.(armed := true);
      }
      opens := false;
      if Triggered(v, now, cfg) {
        if s.armed && active == -1 {
          alerts := alerts + [Alert(if OfflineLate(v, now, cfg) then OfflineAlert else ErrorBurst, Open, now, None)];
          opens := true;
        }
        s := s.(armed := false);
      }
      chargers := chargers[id := Charger(Some(s), alerts)];
    }

    /** One turn of the scan: `before` is the table at its start, `done` the chargers already brought up to date. */
    method ScanNext(ghost before: map<Id, Charger>, ghost done: seq<Id>, id: Id, views: map<Id, View>, now: int)
      returns (opens: bool)
      requires (forall i :: i in done ==> i in views) && id in views && id !in done
      requires ScanDone(before, chargers, done, views, now, cfg) && OnlyLastActive(ChargerOf(before, id).alerts)
      modifies this`chargers
      ensures ScanDone(before, chargers, done + [id], views, now, cfg)
      ensures opens == PointOpens(before, id, views, now, cfg)
    {
      assert ChargerOf(chargers, id) == ChargerOf(before, id);
      ScanExtends(before, chargers, done, id, views, now, cfg);
      opens := ScanPoint(id, views[id], now);
    }

    /** `scan_alerts`: every listed charger is brought up to date, the others are left alone, and the
        result counts the alerts opened. */
    method Scan(points: seq<Id>, views: map<Id, View>, now: int) returns (count: nat)
      requires forall id :: id in points ==> id in views && OnlyLastActive(ChargerOf(chargers, id).alerts)
      requires forall i, j :: 0 <= i < j < |points| ==> points[i] != points[j]
      modifies this`chargers
      ensures ScanDone(old(chargers), chargers, points, views, now, cfg)
      ensures count == |Openings(old(chargers), points, views, now, cfg)|
    {
      count := 0;
      for i := 0 to |points|
        invariant ScanDone(old(chargers), chargers, points[..i], views, now, cfg)
        invariant count == |Openings(old(chargers), points[..i], views, now, cfg)|
      {
        var id := points[i];
        assert id in points && id !in points[..i];
        OpeningsExtend(old(chargers), points[..i], id, views, now, cfg);
        assert points[..i + 1] == points[..i] + [id];
        var opens := ScanNext(old(chargers), points[..i], id, views, now);
        if opens {
          count := count + 1;
        }
      }
      assert points[..|points|] == points;
    }

    /** `mutate_alert`. */
    method Mutate(id: Id, k: nat, action: Action, v: View, now: int) returns (r: Option<Refusal>)
      requires id in chargers && k < |chargers[id].alerts|
      modifies this`chargers
      ensures match Acted(old(chargers)[id].alerts[k], action, v, now, cfg)
              case Ok(a) => r == None && chargers == old(chargers)[id := old(chargers)[id].(
                                           alerts := old(chargers)[id].alerts[k := a])]
              case Err(refusal) => r == Some(refusal) && chargers == old(chargers)
    {
      var c := chargers[id];
      var a := c.alerts[k];
      match action {
        case Acknowledge =>
          if a.status.Closed? {
            return Some(AlreadyClosed);
          }
          a := a.(status := Acknowledged);
        case Close(force, admin, reason) =>
          if force && !admin {
            return Some(PermissionDenied);
          }
          if force && reason == "" {
            return Some(ReasonRequired);
          }
          if !a.status.Closed? {
            if !force && (a.recoveredAt.None? || !Live(v, now) || !Quiet(v, now, cfg)) {
              return Some(NotRecovered);
            }
            a := a.(status := Closed);
          }
      }
      chargers := chargers[id := c.(alerts := c.alerts[k := a])];
      return None;
    }
  }

  /** At most one alert is active, and then it is the newest. */
  ghost predicate OnlyLastActive(alerts: seq<Alert>) {
    forall k :: 0 <= k < |alerts| - 1 ==> alerts[k].status.Closed?
  }
}
