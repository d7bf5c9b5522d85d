/** The alert manager of agents-monitor/lib/alerts.js: the rule set with its
    four default rules, rule evaluation against one agent's metrics, alert
    messages, dispatch to registered notifiers, and rule updates.

    The rule file and the history file are not modelled: the constructor takes
    what a successful load would have produced (or `None` for a missing or
    unreadable file), and the save calls after each mutation are dropped. */
module Alerts {
  import opened Common
  import opened Text
  import opened Conditions
  import opened AlertHistory

  /** `options.deduplicationWindow || 300000` (alerts.js:14). */
  const DefaultDeduplicationWindow: int := 300000

  datatype Rule = Rule(
    id: string,
    name: string,
    severity: string,
    condition: Cond,
    threshold: Option<real>,
    enabled: bool,
    notifyOn: seq<string>)

  /** The provider part of a notification channel's configuration. */
  datatype ChannelSettings =
    | EmailSettings(provider: string, recipients: seq<string>)
    | SlackSettings(webhookUrl: Option<string>)
    | GitHubSettings(autoCreateIssues: bool)
    | OtherSettings

  datatype Channel = Channel(enabled: bool, settings: ChannelSettings)

  datatype RuleSet = RuleSet(
    enabled: bool,
    severityLevels: seq<string>,
    rules: seq<Rule>,
    notificationChannels: map<string, Channel>)

  /** `getDefaultRules()` (alerts.js:46-103). */
  function DefaultRules(): RuleSet {
    RuleSet(
      true,
      ["critical", "warning", "info"],
      [
        Rule("agent-failure", "Agent Failure", "critical",
             Compare(StrictEq, Field("status"), StrLit("failed")),
             None, true, ["email", "slack", "github"]),
        Rule("low-success-rate", "Low Success Rate", "warning",
             Compare(Lt, Field("successRate"), NumLit(0.8)),
             Some(0.8), true, ["email", "slack"]),
        Rule("slow-execution", "Slow Execution", "warning",
             Compare(Gt, Field("executionTime"), NumLit(30000.0)),
             Some(30000.0), true, ["slack"]),
        Rule("high-token-usage", "High Token Usage", "info",
             Compare(Gt, Field("totalTokens"), NumLit(50000.0)),
             Some(50000.0), true, ["email"])
      ],
      map[
        "email" := Channel(false, EmailSettings("smtp", [])),
        "slack" := Channel(false, SlackSettings(None)),
        "github" := Channel(false, GitHubSettings(false))])
  }

  /** The default rule set is consistent: rule ids are distinct, every rule is
      enabled with a condition that cannot throw, severities are among the
      declared levels, and every channel a rule notifies is configured, but
      switched off until the user enables it. */
  lemma DefaultRulesAreConsistent()
    ensures var d := DefaultRules();
      && |d.rules| == 4
      && (forall i, j :: 0 <= i < j < |d.rules| ==> d.rules[i].id != d.rules[j].id)
      && (forall r :: r in d.rules ==> r.enabled && WellFormed(r.condition) && r.severity in d.severityLevels)
      && (forall r, c :: r in d.rules && c in r.notifyOn ==>
            c in d.notificationChannels && !d.notificationChannels[c].enabled)
  {
  }

  /** `generateAlertMessage(rule, metrics)`, up to the rendering of numbers. */
  function GenerateAlertMessage(rule: Rule, m: Snapshot): AlertMessage {
    var headline := "[" + Upper(rule.severity) + "] " + rule.name;
    var detail :=
      if rule.severity == "critical" then AgentFailed(m.agentName)
      else if rule.id == "low-success-rate" then SuccessRateBelow(m.successRate)
      else if rule.id == "slow-execution" then ExecutionTook(m.executionTime)
      else if rule.id == "high-token-usage" then TokensUsed(m.totalTokens)
      else NoDetail;
    AlertMessage(headline, detail)
  }

  /** The message of an alert: the headline is `[SEVERITY] name`; a critical
      rule explains that the agent failed, whatever its id, and otherwise the
      rule id picks the detail, which quotes the snapshot. */
  lemma AlertMessageShape(rule: Rule, m: Snapshot)
    ensures var msg := GenerateAlertMessage(rule, m);
      && msg.headline == "[" + Upper(rule.severity) + "] " + rule.name
      && (msg.detail.AgentFailed? <==> rule.severity == "critical")
      && (msg.detail.NoDetail? <==>
            rule.severity != "critical" && rule.id !in {"low-success-rate", "slow-execution", "high-token-usage"})
      && (msg.detail.AgentFailed? ==> msg.detail.agentName == m.agentName)
      && (msg.detail.SuccessRateBelow? ==> msg.detail.successRate == m.successRate)
      && (msg.detail.ExecutionTook? ==> msg.detail.executionTime == m.executionTime)
      && (msg.detail.TokensUsed? ==> msg.detail.totalTokens == m.totalTokens)
  {
  }

  /** The alert record built when `rule` fires for the snapshot at `now`. */
  function MakeAlert(rule: Rule, m: Snapshot, now: int): Alert {
    Alert(rule.id, rule.name, rule.severity, m.agentId, m.agentName, now,
          GenerateAlertMessage(rule, m), m)
  }

  /** A rule fires: it is enabled, its rule/agent pair is not deduplicated,
      and its condition is met. */
  predicate Fires(rule: Rule, h: seq<Alert>, window: int, m: Snapshot, now: int) {
    rule.enabled && !IsDeduplicated(h, window, rule.id, m.agentId, now) && EvaluateCondition(rule.condition, m)
  }

  datatype Evaluation = Evaluation(fired: seq<Alert>, history: seq<Alert>)

  /** The rule loop of `evaluateRules` (alerts.js:164-194), rule by rule in
      order; each fired alert is recorded before the next rule's deduplication
      check. */
  function Run(rules: seq<Rule>, h: seq<Alert>, window: int, m: Snapshot, now: int): (e: Evaluation)
    ensures |e.fired| <= |rules|
    decreases |rules|
  {
    if rules == [] then Evaluation([], h)
    else
      var rule := rules[0];
      if Fires(rule, h, window, m, now) then
        var a := MakeAlert(rule, m, now);
        var rest := Run(rules[1..], Record(h, a), window, m, now);
        assert ([a] + rest.fired)[1..] == rest.fired;
        Evaluation([a] + rest.fired, rest.history)
      else
        Run(rules[1..], h, window, m, now)
  }

  /** The options object of the constructor, with the two files replaced by
      their parsed contents (`None`: missing or unreadable). */
  datatype ManagerOptions = ManagerOptions(
    deduplicationWindow: Option<int>,
    savedRules: Option<RuleSet>,
    savedHistory: Option<seq<Alert>>)

  /** Shallow merge of `updateRules(newRules)`: a supplied field replaces the old one. */
  datatype RuleSetPatch = RuleSetPatch(
    enabled: Option<bool>,
    severityLevels: Option<seq<string>>,
    rules: Option<seq<Rule>>,
    notificationChannels: Option<map<string, Channel>>)

  function MergeRuleSet(rs: RuleSet, p: RuleSetPatch): RuleSet {
    RuleSet(
      p.enabled.GetOr(rs.enabled),
      p.severityLevels.GetOr(rs.severityLevels),
      p.rules.GetOr(rs.rules),
      p.notificationChannels.GetOr(rs.notificationChannels))
  }

  /** The fields `updateRule(ruleId, updates)` may carry. */
  datatype RulePatch = RulePatch(
    id: Option<string>,
    name: Option<string>,
    severity: Option<string>,
    condition: Option<Cond>,
    threshold: Option<real>,
    enabled: Option<bool>,
    notifyOn: Option<seq<string>>)

  /** `{ ...rule, ...updates }`. */
  function MergeRule(r: Rule, p: RulePatch): Rule {
    Rule(
      p.id.GetOr(r.id),
      p.name.GetOr(r.name),
      p.severity.GetOr(r.severity),
      p.condition.GetOr(r.condition),
      if p.threshold.Some? then p.threshold else r.threshold,
      p.enabled.GetOr(r.enabled),
      p.notifyOn.GetOr(r.notifyOn))
  }

  /** `rules.findIndex((r) => r.id === id)`. */
  function FindRuleIndex(rules: seq<Rule>, id: string): (k: Option<nat>)
    ensures k.Some? ==> k.value < |rules| && rules[k.value].id == id
    ensures k.Some? ==> forall j :: 0 <= j < k.value ==> rules[j].id != id
    ensures k.None? ==> forall j :: 0 <= j < |rules| ==> rules[j].id != id
  {
    FindIndex(rules, (r: Rule) => r.id == id)
  }

  /** The rule list after `updateRule(id, patch)`: the first rule with that id
      takes the patched fields; every other rule, and every rule when the id is
      unknown, is unchanged. */
  function PatchRules(rules: seq<Rule>, id: string, patch: RulePatch): (r: seq<Rule>)
    ensures |r| == |rules|
    ensures forall i :: 0 <= i < |rules| && rules[i].id != id ==> r[i] == rules[i]
    ensures forall i :: 0 <= i < |rules| && rules[i].id == id && (exists j :: 0 <= j < i && rules[j].id == id) ==> r[i] == rules[i]
    ensures forall i :: 0 <= i < |rules| && rules[i].id == id && (forall j :: 0 <= j < i ==> rules[j].id != id) ==> r[i] == MergeRule(rules[i], patch)
    ensures (forall i :: 0 <= i < |rules| ==> rules[i].id != id) ==> r == rules
  {
    match FindRuleIndex(rules, id)
    case None => rules
    case Some(k) => rules[k := MergeRule(rules[k], patch)]
  }

  /** `rules.map((r) => r.id)`. */
  function RuleIds(rules: seq<Rule>): (ids: seq<string>)
    ensures |ids| == |rules|
    ensures forall i :: 0 <= i < |rules| ==> ids[i] == rules[i].id
    ensures forall id :: id in ids <==> exists r :: r in rules && r.id == id
  {
    if rules == [] then [] else [rules[0].id] + RuleIds(rules[1..])
  }

  /** The registered notifier object, identified by a handle. */
  datatype NotifierRef = NotifierRef(handle: string)

  /** One call `notifier.send(alert)` made by `sendAlerts`. */
  datatype Dispatch = Dispatch(alert: Alert, channel: string, notifier: NotifierRef)

  /** `rules.notificationChannels[channel]?.enabled`. */
  predicate ChannelEnabled(rs: RuleSet, channel: string) {
    channel in rs.notificationChannels && rs.notificationChannels[channel].enabled
  }

  /** The sends for one alert over the given channel names, in order. */
  function ChannelDispatches(a: Alert, channels: seq<string>, rs: RuleSet, notifiers: map<string, NotifierRef>): seq<Dispatch>
    decreases |channels|
  {
    if channels == [] then []
    else
      var c := channels[0];
      var here := if c in notifiers && ChannelEnabled(rs, c) then [Dispatch(a, c, notifiers[c])] else [];
      here + ChannelDispatches(a, channels[1..], rs, notifiers)
  }

  /** The sends for one alert: to the channels its rule lists, none when the
      rule is gone. */
  function AlertDispatches(a: Alert, rs: RuleSet, notifiers: map<string, NotifierRef>): seq<Dispatch> {
    match FindRuleIndex(rs.rules, a.id)
    case None => []
    case Some(k) => ChannelDispatches(a, rs.rules[k].notifyOn, rs, notifiers)
  }

  /** The sends of `sendAlerts(alerts)` (alerts.js:285-301), alert by alert. */
  function Dispatches(alerts: seq<Alert>, rs: RuleSet, notifiers: map<string, NotifierRef>): seq<Dispatch>
    decreases |alerts|
  {
    if alerts == [] then []
    else AlertDispatches(alerts[0], rs, notifiers) + Dispatches(alerts[1..], rs, notifiers)
  }

  /** The sends of a suffix of the alerts start with those of its first alert. */
  lemma DispatchesStep(alerts: seq<Alert>, i: int, rs: RuleSet, notifiers: map<string, NotifierRef>)
    requires 0 <= i < |alerts|
    ensures Dispatches(alerts[i..], rs, notifiers) ==
      AlertDispatches(alerts[i], rs, notifiers) + Dispatches(alerts[i + 1..], rs, notifiers)
  {
    assert alerts[i..][0] == alerts[i] && alerts[i..][1..] == alerts[i + 1..];
  }

  class AlertManager {
    var rules: RuleSet
    var history: seq<Alert>
    var notifiers: map<string, NotifierRef>
    var deduplicationWindow: int

    /** `new AlertManager(options)`: a window of 0 or none falls back to five
        minutes; a missing rule file gives the defaults, a missing history file
        an empty history; no notifier is registered. */
    constructor(options: ManagerOptions)
      ensures deduplicationWindow == NumberOr(options.deduplicationWindow, DefaultDeduplicationWindow)
      ensures options.deduplicationWindow == Some(0) ==> deduplicationWindow == 300000
      ensures rules == options.savedRules.GetOr(DefaultRules())
      ensures history == options.savedHistory.GetOr([])
      ensures notifiers == map[]
    {
      deduplicationWindow := NumberOr(options.deduplicationWindow, DefaultDeduplicationWindow);
      rules := options.savedRules.GetOr(DefaultRules());
      history := options.savedHistory.GetOr([]);
      notifiers := map[];
    }

    /** `registerNotifier(name, notifier)`. */
    method RegisterNotifier(name: string, notifier: NotifierRef)
      modifies this
      ensures notifiers == old(notifiers)[name := notifier]
      ensures rules == old(rules) && history == old(history) && deduplicationWindow == old(deduplicationWindow)
    {
      notifiers := notifiers[name := notifier];
    }

    /** `isDeduplicated(ruleId, agentId)` against the current history and window. */
    function IsDeduplicated(ruleId: string, agentId: string, now: int): bool
      reads this
    {
      AlertHistory.IsDeduplicated(history, deduplicationWindow, ruleId, agentId, now)
    }

    /** `recordAlert(alert)`: the history becomes the last min(1000, n + 1)
        entries of the old history followed by the alert. */
    method RecordAlert(alert: Alert)
      modifies this
      ensures history == Record(old(history), alert)
      ensures |history| <= HistoryCap && history[|history| - 1] == alert
      ensures rules == old(rules) && notifiers == old(notifiers) && deduplicationWindow == old(deduplicationWindow)
    {
      history := history + [alert];
      if |history| > HistoryCap {
        history := history[|history| - HistoryCap..];
      }
    }

    /** `evaluateRules(agentMetrics)` at time `now`: nothing when the rule set
        is switched off; otherwise the alerts of `Run`, in rule order, each of
        them recorded in the history. */
    method EvaluateRules(m: Snapshot, now: int) returns (alerts: seq<Alert>)
      modifies this
      ensures rules == old(rules) && notifiers == old(notifiers) && deduplicationWindow == old(deduplicationWindow)
      ensures !rules.enabled ==> alerts == [] && history == old(history)
      ensures rules.enabled ==> Evaluation(alerts, history) == Run(rules.rules, old(history), deduplicationWindow, m, now)
    {
      alerts := [];
      if !rules.enabled {
        return;
      }
      var rs := rules.rules;
      ghost var total := Run(rs, history, deduplicationWindow, m, now);
      for i := 0 to |rs|
        invariant rules == old(rules) && notifiers == old(notifiers) && deduplicationWindow == old(deduplicationWindow)
        invariant alerts + Run(rs[i..], history, deduplicationWindow, m, now).fired == total.fired
        invariant Run(rs[i..], history, deduplicationWindow, m, now).history == total.history
      {
        var rule := rs[i];
        assert rs[i..][0] == rule && rs[i..][1..] == rs[i + 1..];
        if !rule.enabled {
          continue;
        }
        if IsDeduplicated(rule.id, m.agentId, now) {
          continue;
        }
        if EvaluateCondition(rule.condition, m) {
          var alert := MakeAlert(rule, m, now);
          alerts := alerts + [alert];
          RecordAlert(alert);
        }
      }
      assert rs[|rs|..] == [];
    }

    /** The inner loop of `sendAlerts`: the sends for one alert over its
        rule's channels, skipping channels with no notifier or switched off. */
    method SendToChannels(alert: Alert, channels: seq<string>) returns (sent: seq<Dispatch>)
      ensures sent == ChannelDispatches(alert, channels, rules, notifiers)
    {
      sent := [];
      var rs, ns := rules, notifiers;
      for j := 0 to |channels|
        invariant sent + ChannelDispatches(alert, channels[j..], rs, ns) == ChannelDispatches(alert, channels, rs, ns)
      {
        var channel := channels[j];
        ghost var tail := ChannelDispatches(alert, channels[j + 1..], rs, ns);
        assert channels[j..][0] == channel && channels[j..][1..] == channels[j + 1..];
        if channel in ns && ChannelEnabled(rs, channel) {
          assert ChannelDispatches(alert, channels[j..], rs, ns) == [Dispatch(alert, channel, ns[channel])] + tail;
          sent := sent + [Dispatch(alert, channel, ns[channel])];
        } else {
          assert ChannelDispatches(alert, channels[j..], rs, ns) == tail;
        }
      }
      assert channels[|channels|..] == [];
    }

    /** `sendAlerts(alerts)`: the sends made, in order; a send that fails is
        caught in the source and does not stop the loop, so failures do not
        change the sequence of sends. */
    method SendAlerts(alerts: seq<Alert>) returns (sent: seq<Dispatch>)
      ensures sent == Dispatches(alerts, rules, notifiers)
    {
      sent := [];
      for i := 0 to |alerts|
        invariant sent + Dispatches(alerts[i..], rules, notifiers) == Dispatches(alerts, rules, notifiers)
      {
        var alert := alerts[i];
        var k := FindRuleIndex(rules.rules, alert.id);
        var here := [];
        if k.Some? {
          here := SendToChannels(alert, rules.rules[k.value].notifyOn);
        }
        assert here == AlertDispatches(alert, rules, notifiers);
        ghost var rest := Dispatches(alerts[i + 1..], rules, notifiers);
        DispatchesStep(alerts, i, rules, notifiers);
        assert (sent + here) + rest == sent + (here + rest);
        sent := sent + here;
      }
      assert alerts[|alerts|..] == [];
    }

    /** `getHistory(options)`: the history entries passing every supplied
        filter, newest first; the history itself is not touched. */
    function GetHistory(q: HistoryQuery): (r: seq<Alert>)
      reads this
      ensures NewestFirst(r)
      ensures forall a :: multiset(r)[a] == if Matches(q, a) then multiset(history)[a] else 0
    {
      Query(history, q)
    }

    /** `updateRules(newRules)`: a shallow merge into the rule set. */
    method UpdateRules(patch: RuleSetPatch)
      modifies this
      ensures rules == MergeRuleSet(old(rules), patch)
      ensures history == old(history) && notifiers == old(notifiers) && deduplicationWindow == old(deduplicationWindow)
    {
      rules := MergeRuleSet(rules, patch);
    }

    /** `updateRule(ruleId, updates)`: only the first rule with that id changes;
        an unknown id changes nothing. */
    method UpdateRule(ruleId: string, patch: RulePatch)
      modifies this
      ensures rules == old(rules).(rules := PatchRules(old(rules.rules), ruleId, patch))
      ensures history == old(history) && notifiers == old(notifiers) && deduplicationWindow == old(deduplicationWindow)
    {
      var k := FindRuleIndex(rules.rules, ruleId);
      if k.Some? {
        rules := rules.(rules := rules.rules[k.value := MergeRule(rules.rules[k.value], patch)]);
      }
    }

    /** `clearHistory()`. */
    method ClearHistory()
      modifies this
      ensures history == []
      ensures rules == old(rules) && notifiers == old(notifiers) && deduplicationWindow == old(deduplicationWindow)
    {
      history := [];
    }

    /** `getStatistics()` at time `now`. */
    function GetStatistics(now: int): (s: Statistics)
      reads this
      ensures s.totalAlerts == |history|
      ensures s.alertsLast24h == CountWhere(history, (a: Alert) => InLastDay(a, now))
      ensures s.critical == CountWhere(history, (a: Alert) => InLastDay(a, now) && a.severity == "critical")
      ensures s.warning == CountWhere(history, (a: Alert) => InLastDay(a, now) && a.severity == "warning")
      ensures s.info == CountWhere(history, (a: Alert) => InLastDay(a, now) && a.severity == "info")
      ensures s.byRule.Keys == set r | r in rules.rules :: r.id
      ensures forall id :: id in s.byRule ==>
        s.byRule[id] == CountWhere(history, (a: Alert) => InLastDay(a, now) && a.id == id)
      ensures s.critical + s.warning + s.info <= s.alertsLast24h <= s.totalAlerts
    {
      var ids := RuleIds(rules.rules);
      assert (set id | id in ids) == (set r | r in rules.rules :: r.id);
      AlertHistory.GetStatistics(history, ids, now)
    }
  }
}
