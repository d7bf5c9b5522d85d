/** What the rule loop of agents-monitor/lib/alerts.js promises across rules
    and across evaluations: alerts come out in rule order, a rule that is off
    or whose condition throws is skipped without a trace, an agent without
    recent alerts gets exactly the alerts of its matching rules, and the same
    snapshot evaluated twice at the same instant alerts only once. */
module AlertProperties {
  import opened Common
  import opened Conditions
  import opened AlertHistory
  import opened Alerts

  /** The alert, if any, that one rule contributes to `AlertsFor`. */
  function AlertOf(r: Rule, m: Snapshot, now: int): seq<Alert> {
    if r.enabled && EvaluateCondition(r.condition, m) then [MakeAlert(r, m, now)] else []
  }

  /** Reference definition: the alerts of the enabled rules whose conditions
      hold, in rule order, ignoring deduplication. */
  function AlertsFor(rules: seq<Rule>, m: Snapshot, now: int): seq<Alert>
    decreases |rules|
  {
    if rules == [] then []
    else
      AlertOf(rules[0], m, now) + AlertsFor(rules[1..], m, now)
  }

  predicate DistinctIds(rules: seq<Rule>) {
    forall i, j :: 0 <= i < j < |rules| ==> rules[i].id != rules[j].id
  }

  /** One step of the rule loop. */
  lemma RunStep(rules: seq<Rule>, h: seq<Alert>, window: int, m: Snapshot, now: int)
    requires rules != []
    ensures Fires(rules[0], h, window, m, now) ==>
      var a := MakeAlert(rules[0], m, now);
      var rest := Run(rules[1..], Record(h, a), window, m, now);
      Run(rules, h, window, m, now) == Evaluation([a] + rest.fired, rest.history)
    ensures !Fires(rules[0], h, window, m, now) ==>
      Run(rules, h, window, m, now) == Run(rules[1..], h, window, m, now)
  {
  }

  /** The alerts one rule contributes to an evaluation, given the history so far. */
  function StepFired(rule: Rule, h: seq<Alert>, window: int, m: Snapshot, now: int): seq<Alert> {
    if Fires(rule, h, window, m, now) then [MakeAlert(rule, m, now)] else []
  }

  /** The history after one rule has been evaluated. */
  function StepHistory(rule: Rule, h: seq<Alert>, window: int, m: Snapshot, now: int): seq<Alert> {
    if Fires(rule, h, window, m, now) then Record(h, MakeAlert(rule, m, now)) else h
  }

  /** One step of the rule loop, whether or not the rule fires. */
  lemma RunUnfold(rules: seq<Rule>, h: seq<Alert>, window: int, m: Snapshot, now: int)
    requires rules != []
    ensures var rest := Run(rules[1..], StepHistory(rules[0], h, window, m, now), window, m, now);
      Run(rules, h, window, m, now) == Evaluation(StepFired(rules[0], h, window, m, now) + rest.fired, rest.history)
  {
    if !Fires(rules[0], h, window, m, now) {
      assert [] + Run(rules[1..], h, window, m, now).fired == Run(rules[1..], h, window, m, now).fired;
    }
  }

  /** Evaluating `a + b` is evaluating `a`, then `b` against the history `a`
      left behind: the alerts of earlier rules come first. */
  lemma {:induction false} RunAppend(a: seq<Rule>, b: seq<Rule>, h: seq<Alert>, window: int, m: Snapshot, now: int)
    ensures var first := Run(a, h, window, m, now);
            var second := Run(b, first.history, window, m, now);
            Run(a + b, h, window, m, now) == Evaluation(first.fired + second.fired, second.history)
    decreases |a|
  {
    if a == [] {
      assert a + b == b;
    } else {
      var ab := a + b;
      var f := StepFired(a[0], h, window, m, now);
      var h1 := StepHistory(a[0], h, window, m, now);
      var r1 := Run(a[1..], h1, window, m, now);
      var s := Run(b, r1.history, window, m, now);
      var rab := Run(a[1..] + b, h1, window, m, now);
      assert Run(a, h, window, m, now) == Evaluation(f + r1.fired, r1.history) by {
        RunUnfold(a, h, window, m, now);
      }
      assert Run(ab, h, window, m, now) == Evaluation(f + rab.fired, rab.history) by {
        assert ab[0] == a[0] && ab[1..] == a[1..] + b;
        RunUnfold(ab, h, window, m, now);
      }
      assert rab == Evaluation(r1.fired + s.fired, s.history) by {
        RunAppend(a[1..], b, h1, window, m, now);
      }
      PrefixThenAppend(f, r1, s, Run(a, h, window, m, now), rab, Run(ab, h, window, m, now));
    }
  }

  /** The bookkeeping of `RunAppend`: putting the first rule's alerts in front
      of the alerts of the rest, then appending those of `b`, regroups. */
  lemma PrefixThenAppend(f: seq<Alert>, rest: Evaluation, second: Evaluation, first: Evaluation, tail: Evaluation, whole: Evaluation)
    requires first == Evaluation(f + rest.fired, rest.history)
    requires tail == Evaluation(rest.fired + second.fired, second.history)
    requires whole == Evaluation(f + tail.fired, tail.history)
    ensures whole == Evaluation(first.fired + second.fired, second.history)
  {
    assert f + (rest.fired + second.fired) == (f + rest.fired) + second.fired;
  }

  /** A rule that is switched off, or whose condition throws, is skipped: the
      alerts and the history are what they would be without it, whatever its
      condition says, and the rules after it are evaluated as usual. */
  lemma SkippedRuleIsInvisible(a: seq<Rule>, r: Rule, b: seq<Rule>, h: seq<Alert>, window: int, m: Snapshot, now: int)
    requires !r.enabled || Eval(r.condition, Context(m)).Threw?
    ensures Run(a + [r] + b, h, window, m, now) == Run(a + b, h, window, m, now)
  {
    assert a + [r] + b == a + ([r] + b);
    RunAppend(a, [r] + b, h, window, m, now);
    RunAppend(a, b, h, window, m, now);
    var h1 := Run(a, h, window, m, now).history;
    assert ([r] + b)[0] == r && ([r] + b)[1..] == b;
    assert !Fires(r, h1, window, m, now);
  }

  /** Every alert is the alert of an enabled rule of the set whose condition
      holds for the snapshot. */
  lemma {:induction false} RunProvenance(rules: seq<Rule>, h: seq<Alert>, window: int, m: Snapshot, now: int)
    ensures forall x :: x in Run(rules, h, window, m, now).fired ==>
      exists r :: r in rules && r.enabled && EvaluateCondition(r.condition, m) && x == MakeAlert(r, m, now)
    decreases |rules|
  {
    if rules != [] {
      var r := rules[0];
      var h1 := if Fires(r, h, window, m, now) then Record(h, MakeAlert(r, m, now)) else h;
      RunProvenance(rules[1..], h1, window, m, now);
      forall x | x in Run(rules, h, window, m, now).fired
        ensures exists r :: r in rules && r.enabled && EvaluateCondition(r.condition, m) && x == MakeAlert(r, m, now)
      {
        if x in Run(rules[1..], h1, window, m, now).fired {
          var r' :| r' in rules[1..] && r'.enabled && EvaluateCondition(r'.condition, m) && x == MakeAlert(r', m, now);
          assert r' in rules;
        } else {
          assert r in rules && x == MakeAlert(r, m, now);
        }
      }
    }
  }

  /** No alert carries the id of a rule that is switched off, unless another,
      enabled rule shares that id. */
  lemma DisabledRuleNeverAlerts(rules: seq<Rule>, id: string, h: seq<Alert>, window: int, m: Snapshot, now: int)
    requires forall r :: r in rules && r.id == id ==> !r.enabled
    ensures forall x :: x in Run(rules, h, window, m, now).fired ==> x.id != id
  {
    RunProvenance(rules, h, window, m, now);
    forall x | x in Run(rules, h, window, m, now).fired
      ensures x.id != id
    {
      var r :| r in rules && r.enabled && EvaluateCondition(r.condition, m) && x == MakeAlert(r, m, now);
    }
  }

  /** Every alert comes from an enabled rule whose condition holds, belongs to
      the evaluated agent and carries the evaluation time. */
  lemma AlertsComeFromMatchingRules(rules: seq<Rule>, h: seq<Alert>, window: int, m: Snapshot, now: int)
    ensures forall x :: x in Run(rules, h, window, m, now).fired ==>
      x.agentId == m.agentId && x.timestamp == now &&
      exists r :: r in rules && r.enabled && r.id == x.id && EvaluateCondition(r.condition, m)
  {
    RunProvenance(rules, h, window, m, now);
    forall x | x in Run(rules, h, window, m, now).fired
      ensures x.agentId == m.agentId && x.timestamp == now
      ensures exists r :: r in rules && r.enabled && r.id == x.id && EvaluateCondition(r.condition, m)
    {
      var r :| r in rules && r.enabled && EvaluateCondition(r.condition, m) && x == MakeAlert(r, m, now);
    }
  }

  /** The history after an evaluation is the old history with the returned
      alerts recorded one by one, in order. */
  lemma {:induction false} RunHistory(rules: seq<Rule>, h: seq<Alert>, window: int, m: Snapshot, now: int)
    ensures var e := Run(rules, h, window, m, now); e.history == RecordAll(h, e.fired)
    decreases |rules|
  {
    if rules != [] {
      RunStep(rules, h, window, m, now);
      if Fires(rules[0], h, window, m, now) {
        var a := MakeAlert(rules[0], m, now);
        var rest := Run(rules[1..], Record(h, a), window, m, now);
        RunHistory(rules[1..], Record(h, a), window, m, now);
        assert ([a] + rest.fired)[0] == a && ([a] + rest.fired)[1..] == rest.fired;
      } else {
        RunHistory(rules[1..], h, window, m, now);
      }
    }
  }

  /** Below the cap, the history grows by exactly the alerts returned. */
  lemma HistoryGrowsByAlerts(rules: seq<Rule>, h: seq<Alert>, window: int, m: Snapshot, now: int)
    requires |h| + |rules| <= HistoryCap
    ensures var e := Run(rules, h, window, m, now); e.history == h + e.fired
  {
    var e := Run(rules, h, window, m, now);
    RunHistory(rules, h, window, m, now);
    RecordAllIsSuffix(h, e.fired);
  }

  /** Recording an alert that is not a recent match for a pair keeps the pair
      undeduplicated (an eviction can only remove entries). */
  lemma RecordKeepsUndeduplicated(h: seq<Alert>, a: Alert, window: int, ruleId: string, agentId: string, now: int)
    requires !IsDeduplicated(h, window, ruleId, agentId, now)
    requires !Recent(a, ruleId, agentId, now, window)
    ensures !IsDeduplicated(Record(h, a), window, ruleId, agentId, now)
  {
    var r := Record(h, a);
    var k := |h| + 1 - |r|;
    DeduplicatedIff(h, window, ruleId, agentId, now);
    DeduplicatedIff(r, window, ruleId, agentId, now);
    forall i | 0 <= i < |r|
      ensures !Recent(r[i], ruleId, agentId, now, window)
    {
      assert r[i] == (h + [a])[k + i];
      if k + i < |h| {
        assert r[i] == h[k + i];
      }
    }
  }

  /** For an agent with no recent alert for any of the rules, and rules with
      distinct ids, the alerts are exactly those of `AlertsFor`: every enabled
      rule whose condition holds fires once, in rule order. */
  lemma {:induction false} FreshRun(rules: seq<Rule>, h: seq<Alert>, window: int, m: Snapshot, now: int)
    requires DistinctIds(rules)
    requires forall r :: r in rules ==> !IsDeduplicated(h, window, r.id, m.agentId, now)
    ensures Run(rules, h, window, m, now).fired == AlertsFor(rules, m, now)
    decreases |rules|
  {
    if rules != [] {
      var r := rules[0];
      assert r in rules;
      assert DistinctIds(rules[1..]) by {
        forall i, j | 0 <= i < j < |rules[1..]|
          ensures rules[1..][i].id != rules[1..][j].id
        {
          assert rules[1..][i] == rules[i + 1] && rules[1..][j] == rules[j + 1];
        }
      }
      if Fires(r, h, window, m, now) {
        var a := MakeAlert(r, m, now);
        forall r' | r' in rules[1..]
          ensures !IsDeduplicated(Record(h, a), window, r'.id, m.agentId, now)
        {
          var j :| 0 <= j < |rules[1..]| && rules[1..][j] == r';
          assert rules[j + 1] == r';
          RecordKeepsUndeduplicated(h, a, window, r'.id, m.agentId, now);
        }
        FreshRun(rules[1..], Record(h, a), window, m, now);
      } else {
        FreshRun(rules[1..], h, window, m, now);
      }
    }
  }

  /** Once every earlier alert has aged past the window, the agent is alerted
      afresh by every matching rule. */
  lemma ExpiredHistoryAlertsAfresh(rules: seq<Rule>, h: seq<Alert>, window: int, m: Snapshot, now: int)
    requires DistinctIds(rules)
    requires forall i :: 0 <= i < |h| ==> now - h[i].timestamp >= window
    ensures Run(rules, h, window, m, now).fired == AlertsFor(rules, m, now)
  {
    forall r | r in rules
      ensures !IsDeduplicated(h, window, r.id, m.agentId, now)
    {
      DeduplicatedIff(h, window, r.id, m.agentId, now);
    }
    FreshRun(rules, h, window, m, now);
  }

  /** A rule that does not fire against `h` does not fire against `h` extended. */
  lemma QuietStaysQuiet(r: Rule, h: seq<Alert>, more: seq<Alert>, window: int, m: Snapshot, now: int)
    requires !Fires(r, h, window, m, now)
    ensures !Fires(r, h + more, window, m, now)
  {
    if IsDeduplicated(h, window, r.id, m.agentId, now) {
      DeduplicatedStaysAfterAppend(h, more, window, r.id, m.agentId, now);
    }
  }

  /** After an evaluation, no rule of the set fires again for the same snapshot
      at the same instant (positive window, no eviction). */
  lemma {:induction false} RunQuietsItsRules(rules: seq<Rule>, h: seq<Alert>, window: int, m: Snapshot, now: int)
    requires window > 0
    requires |h| + |rules| <= HistoryCap
    ensures forall r :: r in rules ==> !Fires(r, Run(rules, h, window, m, now).history, window, m, now)
    decreases |rules|
  {
    if rules != [] {
      var r := rules[0];
      var e := Run(rules, h, window, m, now);
      if Fires(r, h, window, m, now) {
        var a := MakeAlert(r, m, now);
        var h1 := Record(h, a);
        assert h1 == h + [a];
        RunQuietsItsRules(rules[1..], h1, window, m, now);
        HistoryGrowsByAlerts(rules[1..], h1, window, m, now);
        FreshAlertDeduplicates(h, a, window, now);
        DeduplicatedStaysAfterAppend(h1, Run(rules[1..], h1, window, m, now).fired, window, r.id, m.agentId, now);
      } else {
        RunQuietsItsRules(rules[1..], h, window, m, now);
        HistoryGrowsByAlerts(rules[1..], h, window, m, now);
        QuietStaysQuiet(r, h, Run(rules[1..], h, window, m, now).fired, window, m, now);
      }
      forall r' | r' in rules
        ensures !Fires(r', e.history, window, m, now)
      {
        if r' != r {
          assert r' in rules[1..];
        }
      }
    }
  }

  /** Rules none of which fires leave the history as it is and alert nobody. */
  lemma {:induction false} QuietRunIsEmpty(rules: seq<Rule>, h: seq<Alert>, window: int, m: Snapshot, now: int)
    requires forall r :: r in rules ==> !Fires(r, h, window, m, now)
    ensures Run(rules, h, window, m, now) == Evaluation([], h)
    decreases |rules|
  {
    if rules != [] {
      assert rules[0] in rules;
      QuietRunIsEmpty(rules[1..], h, window, m, now);
    }
  }

  /** Evaluating the same snapshot twice at the same instant: the second
      evaluation alerts nobody and leaves the history unchanged. */
  lemma SecondEvaluationIsEmpty(rules: seq<Rule>, h: seq<Alert>, window: int, m: Snapshot, now: int)
    requires window > 0
    requires |h| + |rules| <= HistoryCap
    ensures var first := Run(rules, h, window, m, now);
            Run(rules, first.history, window, m, now) == Evaluation([], first.history)
  {
    var first := Run(rules, h, window, m, now);
    RunQuietsItsRules(rules, h, window, m, now);
    QuietRunIsEmpty(rules, first.history, window, m, now);
  }

  /** `AlertsFor` on four rules is the four rules' contributions in order. */
  lemma AlertsForFour(r0: Rule, r1: Rule, r2: Rule, r3: Rule, m: Snapshot, now: int)
    ensures AlertsFor([r0, r1, r2, r3], m, now) ==
      AlertOf(r0, m, now) + AlertOf(r1, m, now) + AlertOf(r2, m, now) + AlertOf(r3, m, now)
  {
    assert [r0, r1, r2, r3][1..] == [r1, r2, r3];
    assert [r1, r2, r3][1..] == [r2, r3];
    assert [r2, r3][1..] == [r3];
    assert [r3][1..] == [];
    assert AlertsFor([r3], m, now) == AlertOf(r3, m, now);
    assert AlertsFor([r2, r3], m, now) == AlertOf(r2, m, now) + AlertOf(r3, m, now);
    assert AlertsFor([r1, r2, r3], m, now) == AlertOf(r1, m, now) + AlertOf(r2, m, now) + AlertOf(r3, m, now);
  }

  /** What the four default conditions test: a failed status, a success rate
      below 0.8, an execution time above 30000, a token count above 50000. */
  lemma DefaultConditionsMean(m: Snapshot)
    ensures var rs := DefaultRules().rules;
      && (EvaluateCondition(rs[0].condition, m) <==> m.status == "failed")
      && (EvaluateCondition(rs[1].condition, m) <==> m.successRate < 0.8)
      && (EvaluateCondition(rs[2].condition, m) <==> m.executionTime > 30000.0)
      && (EvaluateCondition(rs[3].condition, m) <==> m.totalTokens > 50000.0)
  {
    var ctx := Context(m);
    assert ctx["status"] == Str(m.status);
    assert ctx["successRate"] == Num(m.successRate);
    assert ctx["executionTime"] == Num(m.executionTime);
    assert ctx["totalTokens"] == Num(m.totalTokens);
  }

  /** With no earlier alerts, the default rules fire each of their matching
      rules once, in the order agent-failure, low-success-rate, slow-execution,
      high-token-usage. */
  lemma FreshDefaultRun(window: int, m: Snapshot, now: int)
    ensures var rs := DefaultRules().rules;
      Run(rs, [], window, m, now).fired ==
        AlertOf(rs[0], m, now) + AlertOf(rs[1], m, now) + AlertOf(rs[2], m, now) + AlertOf(rs[3], m, now)
  {
    var rs := DefaultRules().rules;
    DefaultRulesAreConsistent();
    FreshRun(rs, [], window, m, now);
    assert rs == [rs[0], rs[1], rs[2], rs[3]];
    AlertsForFour(rs[0], rs[1], rs[2], rs[3], m, now);
  }

  /** A snapshot carrying the three metrics every caller supplies; the
      optional ones are absent. */
  function AgentReport(id: string, name: string, status: string, successRate: real, executionTime: real, totalTokens: real): Snapshot {
    Snapshot(id, name, status, successRate, executionTime, totalTokens, None, None, None)
  }

  /** A failed agent with otherwise healthy metrics fires exactly the
      agent-failure alert, which is critical. */
  lemma AgentFailureScenario(window: int, now: int)
    ensures var m := AgentReport("agent-1", "Email Processor", "failed", 1.0, 1000.0, 5000.0);
      var fired := Run(DefaultRules().rules, [], window, m, now).fired;
      fired == [MakeAlert(DefaultRules().rules[0], m, now)] && fired[0].id == "agent-failure" && fired[0].severity == "critical"
  {
    var m := AgentReport("agent-1", "Email Processor", "failed", 1.0, 1000.0, 5000.0);
    FreshDefaultRun(window, m, now);
    DefaultConditionsMean(m);
  }

  /** A success rate of 0.75 fires exactly the low-success-rate warning. */
  lemma LowSuccessRateScenario(window: int, now: int)
    ensures var m := AgentReport("agent-2", "GitHub Monitor", "running", 0.75, 1000.0, 5000.0);
      var fired := Run(DefaultRules().rules, [], window, m, now).fired;
      fired == [MakeAlert(DefaultRules().rules[1], m, now)] && fired[0].id == "low-success-rate" && fired[0].severity == "warning"
  {
    var m := AgentReport("agent-2", "GitHub Monitor", "running", 0.75, 1000.0, 5000.0);
    FreshDefaultRun(window, m, now);
    DefaultConditionsMean(m);
  }

  /** An execution time of 45000 fires exactly the slow-execution warning. */
  lemma SlowExecutionScenario(window: int, now: int)
    ensures var m := AgentReport("agent-3", "Slow Agent", "running", 0.95, 45000.0, 5000.0);
      var fired := Run(DefaultRules().rules, [], window, m, now).fired;
      fired == [MakeAlert(DefaultRules().rules[2], m, now)] && fired[0].id == "slow-execution" && fired[0].severity == "warning"
  {
    var m := AgentReport("agent-3", "Slow Agent", "running", 0.95, 45000.0, 5000.0);
    FreshDefaultRun(window, m, now);
    DefaultConditionsMean(m);
  }

  /** A token count of 75000 fires exactly the high-token-usage notice. */
  lemma HighTokenUsageScenario(window: int, now: int)
    ensures var m := AgentReport("agent-4", "Token Heavy Agent", "running", 0.95, 5000.0, 75000.0);
      var fired := Run(DefaultRules().rules, [], window, m, now).fired;
      fired == [MakeAlert(DefaultRules().rules[3], m, now)] && fired[0].id == "high-token-usage" && fired[0].severity == "info"
  {
    var m := AgentReport("agent-4", "Token Heavy Agent", "running", 0.95, 5000.0, 75000.0);
    FreshDefaultRun(window, m, now);
    DefaultConditionsMean(m);
  }

  /** A send `sendAlerts` may make for its alert: the first rule with the
      alert's id lists the channel, a notifier is registered under it, and
      the channel is switched on in the configuration. */
  predicate Deliverable(d: Dispatch, rs: RuleSet, ns: map<string, NotifierRef>) {
    var k := FindRuleIndex(rs.rules, d.alert.id);
    && k.Some?
    && d.channel in rs.rules[k.value].notifyOn
    && d.channel in ns && d.notifier == ns[d.channel]
    && ChannelEnabled(rs, d.channel)
  }

  /** The sends for one alert are exactly those to the listed channels that
      have a notifier and are switched on. */
  lemma {:induction false} ChannelDispatchesExactly(a: Alert, channels: seq<string>, rs: RuleSet, ns: map<string, NotifierRef>)
    ensures forall d :: d in ChannelDispatches(a, channels, rs, ns) <==>
      d.alert == a && d.channel in channels && d.channel in ns && d.notifier == ns[d.channel] && ChannelEnabled(rs, d.channel)
    decreases |channels|
  {
    if channels != [] {
      ChannelDispatchesExactly(a, channels[1..], rs, ns);
      forall c ensures c in channels <==> c == channels[0] || c in channels[1..] {
        if c in channels {
          var i :| 0 <= i < |channels| && channels[i] == c;
          if i > 0 {
            assert channels[1..][i - 1] == c;
          }
        }
      }
    }
  }

  /** `sendAlerts` sends exactly the deliverable pairs of a given alert and a
      channel: no send goes to an unlisted, unregistered or switched-off
      channel, and an alert whose rule is gone is sent nowhere. */
  lemma {:induction false} DispatchesExactly(alerts: seq<Alert>, rs: RuleSet, ns: map<string, NotifierRef>)
    ensures forall d :: d in Dispatches(alerts, rs, ns) <==> d.alert in alerts && Deliverable(d, rs, ns)
    decreases |alerts|
  {
    if alerts != [] {
      DispatchesExactly(alerts[1..], rs, ns);
      var a := alerts[0];
      var k := FindRuleIndex(rs.rules, a.id);
      if k.Some? {
        ChannelDispatchesExactly(a, rs.rules[k.value].notifyOn, rs, ns);
      }
      forall x ensures x in alerts <==> x == a || x in alerts[1..] {
        if x in alerts {
          var i :| 0 <= i < |alerts| && alerts[i] == x;
          if i > 0 {
            assert alerts[1..][i - 1] == x;
          }
        }
      }
    }
  }

  /** The shallow merge of `updateRules`: an empty update changes nothing,
      applying the same update twice is applying it once, and of two updates
      to the same field the later one wins. */
  lemma MergeRuleSetLaws(rs: RuleSet, p: RuleSetPatch, q: RuleSetPatch)
    ensures MergeRuleSet(rs, RuleSetPatch(None, None, None, None)) == rs
    ensures MergeRuleSet(MergeRuleSet(rs, p), p) == MergeRuleSet(rs, p)
    ensures q.rules.Some? ==> MergeRuleSet(MergeRuleSet(rs, p), q).rules == q.rules.value
    ensures q.enabled.Some? ==> MergeRuleSet(MergeRuleSet(rs, p), q).enabled == q.enabled.value
    ensures q.enabled.None? ==> MergeRuleSet(MergeRuleSet(rs, p), q).enabled == MergeRuleSet(rs, p).enabled
  {
  }
}
