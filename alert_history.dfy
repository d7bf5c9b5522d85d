/** The alert history of the alert manager: the alert record, the bounded
    FIFO log (`recordAlert`, agents-monitor/lib/alerts.js:248-257), the
    deduplication window (`isDeduplicated`, alerts.js:233-242), filtered
    queries (`getHistory`, alerts.js:308-328) and the 24-hour statistics
    (`getStatistics`, alerts.js:364-383). Persistence to the history file is
    not modelled; time is the `now` argument. */
module AlertHistory {
  import opened Common
  import opened Text
  import Conditions

  /** At most this many alerts are kept (alerts.js:252-253). */
  const HistoryCap: nat := 1000

  /** `24 * 60 * 60 * 1000` (alerts.js:366). */
  const DayMillis: int := 86400000

  /** The rule-specific second half of an alert message (alerts.js:268-276);
      the numbers stay numbers because their `toFixed` rendering is not modelled. */
  datatype MessageDetail =
    | AgentFailed(agentName: string)
    | SuccessRateBelow(successRate: real)
    | ExecutionTook(executionTime: real)
    | TokensUsed(totalTokens: real)
    | NoDetail

  /** `[SEVERITY] name`, followed by the detail. */
  datatype AlertMessage = AlertMessage(headline: string, detail: MessageDetail)

  /** An alert as built by `evaluateRules` (alerts.js:177-186); `id` is the
      id of the rule that fired. */
  datatype Alert = Alert(
    id: string,
    name: string,
    severity: string,
    agentId: string,
    agentName: string,
    timestamp: int,
    message: AlertMessage,
    metrics: Conditions.Snapshot)

  /** `slice(-1000)` applied when the list is longer than the cap. */
  function KeepLast(s: seq<Alert>): seq<Alert> {
    if |s| > HistoryCap then s[|s| - HistoryCap..] else s
  }

  /** Trimming keeps the last `min(n, 1000)` entries. */
  lemma KeepLastIsSuffix(s: seq<Alert>)
    ensures |KeepLast(s)| == Min(|s|, HistoryCap)
    ensures KeepLast(s) == s[|s| - |KeepLast(s)|..]
  {
  }

  /** `recordAlert`: push, then keep only the last 1000 entries. */
  function Record(h: seq<Alert>, a: Alert): (r: seq<Alert>)
    ensures |r| == Min(|h| + 1, HistoryCap)
    ensures r[|r| - 1] == a
    ensures r == (h + [a])[|h| + 1 - |r|..]
    ensures |h| < HistoryCap ==> r == h + [a]
  {
    KeepLastIsSuffix(h + [a]);
    KeepLast(h + [a])
  }

  /** The history after recording `xs` one after the other. */
  function RecordAll(h: seq<Alert>, xs: seq<Alert>): seq<Alert>
    decreases |xs|
  {
    if xs == [] then h else RecordAll(Record(h, xs[0]), xs[1..])
  }

  /** Trimming early and trimming late agree: the last entries of a trimmed
      list extended by more entries are the last entries of the whole. */
  lemma KeepLastAppend(s: seq<Alert>, t: seq<Alert>)
    ensures KeepLast(KeepLast(s) + t) == KeepLast(s + t)
  {
    if |s| > HistoryCap {
      var k := |s| - HistoryCap;
      assert KeepLast(s) + t == (s + t)[k..];
    }
  }

  /** Recording a non-empty batch one alert at a time trims once: the result
      is the last 1000 entries of the old history followed by the batch. */
  lemma {:induction false} RecordAllKeepsLast(h: seq<Alert>, xs: seq<Alert>)
    requires xs != []
    ensures RecordAll(h, xs) == KeepLast(h + xs)
    decreases |xs|
  {
    var x, rest := xs[0], xs[1..];
    var h1 := KeepLast(h + [x]);
    assert RecordAll(h, xs) == RecordAll(h1, rest);
    assert h + xs == (h + [x]) + rest by {
      assert xs == [x] + rest;
    }
    if rest != [] {
      RecordAllKeepsLast(h1, rest);
      KeepLastAppend(h + [x], rest);
    }
  }

  /** Recording a batch keeps the most recent entries of `h + xs`: the result is
      a suffix of `h + xs`, and exactly `h + xs` while the cap is not reached,
      so the oldest entries are the ones that go. */
  lemma RecordAllIsSuffix(h: seq<Alert>, xs: seq<Alert>)
    ensures |RecordAll(h, xs)| <= |h| + |xs|
    ensures RecordAll(h, xs) == (h + xs)[|h| + |xs| - |RecordAll(h, xs)|..]
    ensures |h| + |xs| <= HistoryCap ==> RecordAll(h, xs) == h + xs
  {
    var all := h + xs;
    assert |all| == |h| + |xs|;
    if xs == [] {
      assert RecordAll(h, xs) == h;
      assert all == h && all[|all| - |h|..] == all;
    } else {
      RecordAllKeepsLast(h, xs);
      KeepLastIsSuffix(all);
      var r := KeepLast(all);
      assert RecordAll(h, xs) == r;
      assert r == all[|all| - |r|..];
      if |all| <= HistoryCap {
        assert r == all[0..];
      }
    }
  }

  /** Once anything has been recorded the history holds min(n, 1000) entries,
      where n counts the old entries and the new ones. */
  lemma RecordAllLength(h: seq<Alert>, xs: seq<Alert>)
    requires xs != []
    ensures |RecordAll(h, xs)| == Min(|h| + |xs|, HistoryCap)
  {
    RecordAllKeepsLast(h, xs);
    KeepLastIsSuffix(h + xs);
  }

  /** The entry `isDeduplicated` looks for: same rule, same agent, recent. */
  predicate Recent(a: Alert, ruleId: string, agentId: string, now: int, window: int) {
    a.id == ruleId && a.agentId == agentId && now - a.timestamp < window
  }

  /** `history.find(...)`: the index of the first recent matching entry. */
  function FindRecent(h: seq<Alert>, ruleId: string, agentId: string, now: int, window: int): (k: Option<nat>)
    ensures k.Some? ==> k.value < |h| && Recent(h[k.value], ruleId, agentId, now, window)
    ensures k.Some? ==> forall j :: 0 <= j < k.value ==> !Recent(h[j], ruleId, agentId, now, window)
    decreases |h|
  {
    if h == [] then None
    else if Recent(h[0], ruleId, agentId, now, window) then Some(0)
    else
      match FindRecent(h[1..], ruleId, agentId, now, window)
      case None => None
      case Some(j) => Some(j + 1)
  }

  /** `isDeduplicated(ruleId, agentId)` at time `now`. */
  function IsDeduplicated(h: seq<Alert>, window: int, ruleId: string, agentId: string, now: int): bool {
    FindRecent(h, ruleId, agentId, now, window).Some?
  }

  /** The search finds an entry exactly when one exists: a rule/agent pair is
      deduplicated iff the history holds an alert with that rule id and agent id
      whose age `now - timestamp` is below the window. */
  lemma {:induction false} DeduplicatedIff(h: seq<Alert>, window: int, ruleId: string, agentId: string, now: int)
    ensures IsDeduplicated(h, window, ruleId, agentId, now) <==>
      exists i :: 0 <= i < |h| && Recent(h[i], ruleId, agentId, now, window)
    decreases |h|
  {
    if h != [] {
      DeduplicatedIff(h[1..], window, ruleId, agentId, now);
      if exists i :: 0 <= i < |h| && Recent(h[i], ruleId, agentId, now, window) {
        var i :| 0 <= i < |h| && Recent(h[i], ruleId, agentId, now, window);
        if i > 0 {
          assert h[1..][i - 1] == h[i];
        }
      }
      if IsDeduplicated(h[1..], window, ruleId, agentId, now) {
        var i :| 0 <= i < |h| - 1 && Recent(h[1..][i], ruleId, agentId, now, window);
        assert h[1..][i] == h[i + 1];
      }
    }
  }

  /** A window of 0 (or less) never deduplicates, as long as no entry is
      time-stamped after `now`. */
  lemma ZeroWindowNeverDeduplicates(h: seq<Alert>, window: int, ruleId: string, agentId: string, now: int)
    requires window <= 0
    requires forall i :: 0 <= i < |h| ==> h[i].timestamp <= now
    ensures !IsDeduplicated(h, window, ruleId, agentId, now)
  {
    DeduplicatedIff(h, window, ruleId, agentId, now);
  }

  /** Appending to the history never undoes a deduplication. */
  lemma DeduplicatedStaysAfterAppend(h: seq<Alert>, more: seq<Alert>, window: int, ruleId: string, agentId: string, now: int)
    requires IsDeduplicated(h, window, ruleId, agentId, now)
    ensures IsDeduplicated(h + more, window, ruleId, agentId, now)
  {
    DeduplicatedIff(h, window, ruleId, agentId, now);
    DeduplicatedIff(h + more, window, ruleId, agentId, now);
    var i :| 0 <= i < |h| && Recent(h[i], ruleId, agentId, now, window);
    assert (h + more)[i] == h[i];
  }

  /** An alert recorded at `now` deduplicates its own rule/agent pair while the
      window is positive. */
  lemma FreshAlertDeduplicates(h: seq<Alert>, a: Alert, window: int, now: int)
    requires a.timestamp == now && window > 0
    ensures IsDeduplicated(h + [a], window, a.id, a.agentId, now)
  {
    DeduplicatedIff(h + [a], window, a.id, a.agentId, now);
    assert (h + [a])[|h|] == a;
  }

  /** The options of `getHistory`; a filter applies only when its option is truthy. */
  datatype HistoryQuery = HistoryQuery(
    agentId: Option<string>,
    severity: Option<string>,
    ruleId: Option<string>,
    since: Option<int>)

  predicate SinceGiven(q: HistoryQuery) {
    q.since.Some? && q.since.value != 0
  }

  /** An alert passes every filter the query supplies (`since` is strict). */
  predicate Matches(q: HistoryQuery, a: Alert) {
    && (StringGiven(q.agentId) ==> a.agentId == q.agentId.value)
    && (StringGiven(q.severity) ==> a.severity == q.severity.value)
    && (StringGiven(q.ruleId) ==> a.id == q.ruleId.value)
    && (SinceGiven(q) ==> a.timestamp > q.since.value)
  }

  /** The four conditional filters of `getHistory`, applied in the source's order. */
  function ApplyFilters(h: seq<Alert>, q: HistoryQuery): seq<Alert> {
    var byAgent := if StringGiven(q.agentId) then Filter(h, (a: Alert) => a.agentId == q.agentId.value) else h;
    var bySeverity := if StringGiven(q.severity) then Filter(byAgent, (a: Alert) => a.severity == q.severity.value) else byAgent;
    var byRule := if StringGiven(q.ruleId) then Filter(bySeverity, (a: Alert) => a.id == q.ruleId.value) else bySeverity;
    if SinceGiven(q) then Filter(byRule, (a: Alert) => a.timestamp > q.since.value) else byRule
  }

  /** The sequential filters compose with AND: the result holds each history
      entry that passes every supplied filter, as often as it occurs there. */
  lemma FiltersCompose(h: seq<Alert>, q: HistoryQuery)
    ensures forall a :: multiset(ApplyFilters(h, q))[a] == if Matches(q, a) then multiset(h)[a] else 0
  {
  }

  predicate NewestFirst(s: seq<Alert>) {
    forall i, j :: 0 <= i < j < |s| ==> s[i].timestamp >= s[j].timestamp
  }

  /** Insert into a newest-first sequence, before every entry of equal age. */
  function Insert(a: Alert, s: seq<Alert>): (r: seq<Alert>)
    requires NewestFirst(s)
    ensures NewestFirst(r)
    ensures multiset(r) == multiset(s) + multiset{a}
    decreases |s|
  {
    if s == [] || a.timestamp >= s[0].timestamp then
      [a] + s
    else
      var rest := Insert(a, s[1..]);
      assert s == [s[0]] + s[1..];
      HeadIsNewest(a, s, rest);
      ConsNewestFirst(s[0], rest);
      [s[0]] + rest
  }

  /** The head of a newest-first sequence is no younger than its tail with an
      older entry added. */
  lemma HeadIsNewest(a: Alert, s: seq<Alert>, rest: seq<Alert>)
    requires NewestFirst(s) && s != [] && a.timestamp < s[0].timestamp
    requires multiset(rest) == multiset(s[1..]) + multiset{a}
    ensures forall k :: 0 <= k < |rest| ==> s[0].timestamp >= rest[k].timestamp
  {
    forall k | 0 <= k < |rest|
      ensures s[0].timestamp >= rest[k].timestamp
    {
      var x := rest[k];
      assert x in multiset(rest);
      if x != a {
        assert x in s[1..];
        var j :| 0 <= j < |s[1..]| && s[1..][j] == x;
        assert s[j + 1] == x;
      }
    }
  }

  /** An entry no younger than every entry of a newest-first sequence can go
      in front of it. */
  lemma ConsNewestFirst(x: Alert, r: seq<Alert>)
    requires NewestFirst(r)
    requires forall k :: 0 <= k < |r| ==> x.timestamp >= r[k].timestamp
    ensures NewestFirst([x] + r)
  {
    var c := [x] + r;
    forall i, j | 0 <= i < j < |c|
      ensures c[i].timestamp >= c[j].timestamp
    {
      assert c[j] == r[j - 1];
      if i > 0 {
        assert c[i] == r[i - 1];
      }
    }
  }

  /** `alerts.sort((a, b) => b.timestamp - a.timestamp)`: newest first, ties in
      their original order. */
  function SortNewestFirst(s: seq<Alert>): (r: seq<Alert>)
    ensures NewestFirst(r)
    ensures multiset(r) == multiset(s)
  {
    if s == [] then []
    else
      assert s == [s[0]] + s[1..];
      Insert(s[0], SortNewestFirst(s[1..]))
  }

  /** `getHistory(options)`: the entries passing every supplied filter, newest first. */
  function Query(h: seq<Alert>, q: HistoryQuery): (r: seq<Alert>)
    ensures NewestFirst(r)
    ensures forall a :: multiset(r)[a] == if Matches(q, a) then multiset(h)[a] else 0
    ensures forall a :: a in r <==> a in h && Matches(q, a)
  {
    var r := SortNewestFirst(ApplyFilters(h, q));
    FiltersCompose(h, q);
    assert forall a :: a in r <==> multiset(r)[a] > 0;
    r
  }

  /** With no option supplied, `getHistory` returns the whole history (newest first). */
  lemma EmptyQueryReturnsAll(h: seq<Alert>)
    ensures multiset(Query(h, HistoryQuery(None, None, None, None))) == multiset(h)
  {
    var r := Query(h, HistoryQuery(None, None, None, None));
    assert forall a :: multiset(r)[a] == multiset(h)[a];
  }

  /** The result of `getStatistics`. */
  datatype Statistics = Statistics(
    totalAlerts: nat,
    alertsLast24h: nat,
    critical: nat,
    warning: nat,
    info: nat,
    byRule: map<string, nat>)

  /** An alert counts towards the last 24 hours when it is strictly younger
      than a day at `now` (alerts.js:366-368). */
  predicate InLastDay(a: Alert, now: int) {
    a.timestamp > now - DayMillis
  }

  /** `getStatistics()` at time `now` for a rule set with the given rule ids:
      each figure counts the entries of the whole history that are younger
      than a day and, for the severity and rule figures, carry that severity
      or rule id. */
  function GetStatistics(h: seq<Alert>, ruleIds: seq<string>, now: int): (s: Statistics)
    ensures s.totalAlerts == |h|
    ensures s.alertsLast24h == CountWhere(h, (a: Alert) => InLastDay(a, now))
    ensures s.critical == CountWhere(h, (a: Alert) => InLastDay(a, now) && a.severity == "critical")
    ensures s.warning == CountWhere(h, (a: Alert) => InLastDay(a, now) && a.severity == "warning")
    ensures s.info == CountWhere(h, (a: Alert) => InLastDay(a, now) && a.severity == "info")
    ensures s.byRule.Keys == set id | id in ruleIds
    ensures forall id :: id in s.byRule ==>
      s.byRule[id] == CountWhere(h, (a: Alert) => InLastDay(a, now) && a.id == id)
    ensures s.alertsLast24h <= s.totalAlerts
    ensures s.critical + s.warning + s.info <= s.alertsLast24h
    ensures forall id :: id in s.byRule ==> s.byRule[id] <= s.alertsLast24h
  {
    var day := (a: Alert) => InLastDay(a, now);
    var recent := Filter(h, day);
    var critical := CountWhere(recent, (a: Alert) => a.severity == "critical");
    var warning := CountWhere(recent, (a: Alert) => a.severity == "warning");
    var info := CountWhere(recent, (a: Alert) => a.severity == "info");
    SeverityCountsBound(recent);
    FilterFilter(h, day, (a: Alert) => a.severity == "critical", (a: Alert) => InLastDay(a, now) && a.severity == "critical");
    FilterFilter(h, day, (a: Alert) => a.severity == "warning", (a: Alert) => InLastDay(a, now) && a.severity == "warning");
    FilterFilter(h, day, (a: Alert) => a.severity == "info", (a: Alert) => InLastDay(a, now) && a.severity == "info");
    var byRule := map id | id in ruleIds :: CountWhere(recent, (a: Alert) => a.id == id);
    forall id | id in byRule
      ensures byRule[id] == CountWhere(h, (a: Alert) => InLastDay(a, now) && a.id == id)
    {
      FilterFilter(h, day, (a: Alert) => a.id == id, (a: Alert) => InLastDay(a, now) && a.id == id);
    }
    Statistics(|h|, |recent|, critical, warning, info, byRule)
  }

  /** The three severity counts of a list never exceed its length. */
  lemma SeverityCountsBound(s: seq<Alert>)
    ensures CountWhere(s, (a: Alert) => a.severity == "critical")
          + CountWhere(s, (a: Alert) => a.severity == "warning")
          + CountWhere(s, (a: Alert) => a.severity == "info") <= |s|
  {
    var warnOrInfo := Filter(s, (a: Alert) => a.severity == "warning" || a.severity == "info");
    CountDisjoint(s, (a: Alert) => a.severity == "critical", (a: Alert) => a.severity == "warning" || a.severity == "info");
    CountDisjoint(warnOrInfo, (a: Alert) => a.severity == "warning", (a: Alert) => a.severity == "info");
    FilterFilter(s, (a: Alert) => a.severity == "warning" || a.severity == "info", (a: Alert) => a.severity == "warning", (a: Alert) => a.severity == "warning");
    FilterFilter(s, (a: Alert) => a.severity == "warning" || a.severity == "info", (a: Alert) => a.severity == "info", (a: Alert) => a.severity == "info");
  }

  /** Recording an alert of the last day, below the cap, adds one to the
      total, to the day's count, to its severity's count and to its rule's
      count, and to nothing else. */
  lemma StatisticsAfterRecord(h: seq<Alert>, alert: Alert, ruleIds: seq<string>, now: int)
    requires |h| < HistoryCap && InLastDay(alert, now)
    ensures var before := GetStatistics(h, ruleIds, now);
      var after := GetStatistics(Record(h, alert), ruleIds, now);
      && after.totalAlerts == before.totalAlerts + 1
      && after.alertsLast24h == before.alertsLast24h + 1
      && after.critical == before.critical + (if alert.severity == "critical" then 1 else 0)
      && after.warning == before.warning + (if alert.severity == "warning" then 1 else 0)
      && after.info == before.info + (if alert.severity == "info" then 1 else 0)
      && after.byRule.Keys == before.byRule.Keys
      && forall id :: id in after.byRule ==>
           after.byRule[id] == before.byRule[id] + (if id == alert.id then 1 else 0)
  {
    var h1 := Record(h, alert);
    assert h1 == h + [alert];
    CountSnocLast(h, alert, (a: Alert) => InLastDay(a, now));
    CountSnocLast(h, alert, (a: Alert) => InLastDay(a, now) && a.severity == "critical");
    CountSnocLast(h, alert, (a: Alert) => InLastDay(a, now) && a.severity == "warning");
    CountSnocLast(h, alert, (a: Alert) => InLastDay(a, now) && a.severity == "info");
    forall id | id in ruleIds
      ensures CountWhere(h1, (a: Alert) => InLastDay(a, now) && a.id == id)
        == CountWhere(h, (a: Alert) => InLastDay(a, now) && a.id == id) + (if id == alert.id then 1 else 0)
    {
      CountSnocLast(h, alert, (a: Alert) => InLastDay(a, now) && a.id == id);
    }
  }

  /** Counting over a list with one more entry at its end. */
  lemma CountSnocLast(h: seq<Alert>, alert: Alert, p: Alert -> bool)
    ensures CountWhere(h + [alert], p) == CountWhere(h, p) + (if p(alert) then 1 else 0)
  {
    FilterAppend(h, [alert], p);
    assert [alert][1..] == [];
  }
}
