# agents-monitor alerting core in Dafny

This project models the alerting engine of agents-monitor together with the
agent store it watches. The engine has four parts:

- **Alert manager** (`lib/alerts.js`): a rule set of four default rules; the
  evaluation of each enabled rule's condition against one agent's metrics
  snapshot; deduplication of a rule/agent pair within a time window; a history
  capped at the last 1000 alerts; filtered history queries; 24-hour
  statistics; rule updates; and dispatch of alerts to registered notifiers.
- **Notifiers** (`lib/notifiers/`): a base notifier with option defaults, an
  `enabled` check and a retry loop with exponential backoff; an e-mail
  notifier with a duplicate-free recipient list; a Slack notifier with a
  coloured payload and a webhook check; a GitHub notifier with an issue title,
  labels and an `owner/repo` check.
- **Agent monitor** (`lib/agents.js`): the agents file as a list of records
  upserted by id; start, stop and heartbeat; log tails with a
  case-insensitive filter; per-agent log-line counts of executions,
  successes and failures.
- **Metrics collector** (`lib/metrics.js`): aggregates over all agents,
  a time-based cache, and a health classification.

The files and modules:

| file | module | contents |
|---|---|---|
| `common.dfy` | `Common` | `Option`, `Result`, `Outcome`, JavaScript `\|\|` defaults, `filter` and counting |
| `text.dfy` | `Text` | ASCII case mapping, `startsWith`, `includes`, `split`/`join`, decimal rendering |
| `conditions.dfy` | `Conditions` | metrics snapshot, rule conditions and their evaluation |
| `alert_history.dfy` | `AlertHistory` | the alert record, the bounded history, deduplication, queries and statistics |
| `alerts.dfy` | `Alerts` | rules, default rules, the rule loop, messages, dispatch, and the `AlertManager` class |
| `alert_properties.dfy` | `AlertProperties` | properties of the rule loop across rules and across evaluations, test scenarios, dispatch |
| `base_notifier.dfy` | `NotifierBase` | errors, option defaults, retry with backoff, `BaseNotifier` |
| `email_notifier.dfy` | `EmailNotifiers` | `EmailNotifier` and its recipient list |
| `slack_notifier.dfy` | `SlackNotifiers` | `SlackNotifier` and its payload |
| `github_notifier.dfy` | `GitHubNotifiers` | `GitHubNotifier` and its issue |
| `agents.dfy` | `Agents` | agent records, log selection, per-agent counting, `AgentMonitor` |
| `metrics.dfy` | `Metrics` | the aggregate, the cache, health, `MetricsCollector` |

Objects the source updates in place are classes: `AlertManager`,
`BaseNotifier`, `EmailNotifier`, `SlackNotifier`, `GitHubNotifier`,
`AgentMonitor` and `MetricsCollector`. Their methods say what they change.
Each state-changing method is stated against a function:

- `EvaluateRules` against `Run`;
- `SendAlerts` against `Dispatches`;
- `GetMetrics` against `Aggregate`.

The properties of those functions are proved as lemmas. The retry loop, the
rule loop, the dispatch loops, the per-agent log count and the aggregation
over agents are `while`/`for` loops with invariants.

Things outside the program are parameters:

- **Clock**: an explicit `now` in milliseconds, or an ISO `stamp` string.
- **Files**: what a successful read returns. The agents file is
  `Option<seq<AgentRecord>>`; `None` means missing or unreadable. Each log
  file is the text stored under the agent's name in a map.
- **Retried operation**: a function from the attempt number to the outcome
  of that attempt.

The source's notifiers only build a result object in place of a real network
call, so each send succeeds on its first attempt. The model says so.

## Model

| member | source | states |
|---|---|---|
| Common.Filter | agents-monitor/lib/agents.js:22 | `filter` keeps exactly the elements satisfying the predicate, in order, with their multiplicities |
| Text.Upper | agents-monitor/lib/alerts.js:266 | `toUpperCase` keeps the length and maps each character (ASCII letters only) |
| Text.Lower | agents-monitor/lib/agents.js:82 | `toLowerCase` keeps the length and maps each character (ASCII letters only) |
| Text.ContainsAt | agents-monitor/lib/agents.js:114-121 | `includes` holds exactly when the needle occurs at some position |
| Text.Split | agents-monitor/lib/agents.js:78 | `split('\n')` yields at least one part and no part contains the separator |
| Text.JoinSplit | agents-monitor/lib/agents.js:78 | splitting on a separator loses nothing: joining the parts back gives the original text |
| Conditions.Context | agents-monitor/lib/alerts.js:207-215 | the names a condition can see are exactly the seven whitelisted metric fields |
| Conditions.EvaluateCondition | agents-monitor/lib/alerts.js:205-225 | a condition is met exactly when it evaluates, without throwing, to `true`; a throw means not met |
| Conditions.WellFormedNeverThrows | agents-monitor/lib/alerts.js:217-220 | comparisons of whitelisted fields with literals, joined by `&&`/`\|\|`, never throw |
| Conditions.ConnectivesAreBoolean | agents-monitor/lib/alerts.js:219-220 | for conditions that cannot throw, `&&` and `\|\|` mean conjunction and disjunction |
| Conditions.ShortCircuitAnd | agents-monitor/lib/alerts.js:219-220 | a false left operand of `&&` decides the result without evaluating the right one |
| Conditions.ThrowingLeftIsNotMet | agents-monitor/lib/alerts.js:221-224 | a throwing left operand makes the condition and both connectives over it not met |
| Conditions.UnlistedNameIsNotMet | agents-monitor/lib/alerts.js:207-224 | a comparison naming a field that is neither whitelisted nor a JavaScript global throws a ReferenceError and is not met |
| Conditions.IdentityIsInvisible | agents-monitor/lib/alerts.js:207-215 | the agent's id and name never influence whether a condition is met |
| AlertHistory.Record | agents-monitor/lib/alerts.js:248-257 | the history gains the alert at its end and keeps the last `min(n + 1, 1000)` entries; nothing is evicted below the cap |
| AlertHistory.RecordAllIsSuffix | agents-monitor/lib/alerts.js:248-254 | recording several alerts keeps a suffix of old history followed by the new alerts, and everything while under the cap |
| AlertHistory.RecordAllLength | agents-monitor/lib/alerts.js:248-254 | after recording a non-empty batch the history holds `min(old + new, 1000)` alerts |
| AlertHistory.KeepLastAppend | agents-monitor/lib/alerts.js:248-254 | trimming to the last 1000 entries before appending more, then trimming again, keeps the same entries as trimming once at the end |
| AlertHistory.RecordAllKeepsLast | agents-monitor/lib/alerts.js:248-254 | recording a non-empty batch one alert at a time leaves the last 1000 entries of old history followed by the batch |
| AlertHistory.FindRecent | agents-monitor/lib/alerts.js:237-239 | `find` returns the first history entry for the rule and agent younger than the window |
| AlertHistory.DeduplicatedIff | agents-monitor/lib/alerts.js:233-242 | a rule/agent pair is deduplicated exactly when some history entry for it is younger than the window |
| AlertHistory.ZeroWindowNeverDeduplicates | agents-monitor/lib/alerts.js:238 | with a non-positive window and no future timestamps nothing is deduplicated |
| AlertHistory.DeduplicatedStaysAfterAppend | agents-monitor/lib/alerts.js:237-241 | appending to the history never lifts a deduplication |
| AlertHistory.FreshAlertDeduplicates | agents-monitor/lib/alerts.js:233-242 | an alert just recorded deduplicates its rule/agent pair at the same instant |
| AlertHistory.FiltersCompose | agents-monitor/lib/alerts.js:311-325 | the four optional filters keep exactly the entries matching every supplied filter, with multiplicity |
| AlertHistory.SortNewestFirst | agents-monitor/lib/alerts.js:327 | the sort orders by descending timestamp and is a permutation |
| AlertHistory.Insert | agents-monitor/lib/alerts.js:327 | one step of that sort: inserting an alert into a newest-first list keeps it newest first and adds exactly that alert |
| AlertHistory.Query | agents-monitor/lib/alerts.js:308-328 | the answer is newest first and holds exactly the matching entries of the history, with multiplicity |
| AlertHistory.EmptyQueryReturnsAll | agents-monitor/lib/alerts.js:308-328 | with no filter supplied every history entry comes back |
| AlertHistory.GetStatistics | agents-monitor/lib/alerts.js:364-383 | the total is the history length; the day's count is the number of entries younger than 24 hours (strictly); each severity count and each per-rule count is the number of such entries with that severity or rule id, one entry per given rule id; severities add up to at most the day's count |
| AlertHistory.StatisticsAfterRecord | agents-monitor/lib/alerts.js:248-257 | recording an alert of the last day below the cap raises the total, the day's count, its severity's count and its rule's count by one and leaves the other counts alone |
| Alerts.DefaultRulesAreConsistent | agents-monitor/lib/alerts.js:46-103 | four default rules with distinct ids, enabled, with conditions that cannot throw and declared severities; every channel they notify is configured but off |
| Alerts.AlertMessageShape | agents-monitor/lib/alerts.js:265-279 | the headline is `[SEVERITY] name`; the detail says the agent failed exactly for critical rules, otherwise the rule id picks the metric reported, and an unknown id gets no detail |
| Alerts.FindRuleIndex | agents-monitor/lib/alerts.js:345 | `findIndex` returns the first rule with the id, or none when no rule has it |
| Alerts.PatchRules | agents-monitor/lib/alerts.js:344-350 | only the first rule with the id is merged with the update; every other rule, and the list length, stay as they were; an unknown id changes nothing |
| Alerts.RuleIds | agents-monitor/lib/alerts.js:378-381 | the rule ids in rule order, and exactly the ids of the rules |
| Alerts.AlertManager.constructor | agents-monitor/lib/alerts.js:10-24 | a window of 0 or none becomes 300000; a missing rule file gives the defaults, a missing history an empty one; no notifiers |
| Alerts.AlertManager.RegisterNotifier | agents-monitor/lib/alerts.js:148-150 | the notifier is stored under its channel name, replacing any earlier one; nothing else changes |
| Alerts.AlertManager.RecordAlert | agents-monitor/lib/alerts.js:248-257 | the history becomes `Record` of the old history and the alert: at most 1000 entries, ending with the alert |
| Alerts.AlertManager.EvaluateRules | agents-monitor/lib/alerts.js:157-197 | a disabled rule set yields no alerts and leaves the history alone; otherwise the alerts and the new history are those of the rule loop `Run` |
| Alerts.AlertManager.SendToChannels | agents-monitor/lib/alerts.js:290-299 | one send per listed channel that has a notifier and is switched on, in list order |
| Alerts.AlertManager.SendAlerts | agents-monitor/lib/alerts.js:285-301 | the sends are `Dispatches`: per alert in order, the channels of the first rule with its id; a vanished rule sends nothing |
| Alerts.AlertManager.GetHistory | agents-monitor/lib/alerts.js:308-328 | the matching history entries with multiplicity, newest first |
| Alerts.AlertManager.UpdateRules | agents-monitor/lib/alerts.js:334-337 | the rule set becomes the shallow merge of the update over it; history and notifiers unchanged |
| Alerts.AlertManager.UpdateRule | agents-monitor/lib/alerts.js:344-350 | the rule list becomes `PatchRules` of the old list; the rest of the rule set is unchanged |
| Alerts.AlertManager.ClearHistory | agents-monitor/lib/alerts.js:355-358 | the history is empty; rules and notifiers unchanged |
| Alerts.AlertManager.GetStatistics | agents-monitor/lib/alerts.js:364-383 | the same counts over the manager's history, with one per-rule entry for each id of the current rules |
| AlertProperties.RunStep | agents-monitor/lib/alerts.js:164-194 | one iteration of the rule loop: a firing rule contributes its alert and records it before the rest run |
| AlertProperties.RunUnfold | agents-monitor/lib/alerts.js:164-194 | one iteration of the rule loop, fired or not: the rule's alerts (none or one) come before those of the remaining rules, which run against the history it left |
| AlertProperties.RunAppend | agents-monitor/lib/alerts.js:164-194 | running two rule lists one after the other is running their concatenation |
| AlertProperties.SkippedRuleIsInvisible | agents-monitor/lib/alerts.js:164-194 | a disabled rule or one whose condition throws leaves no trace: removing it changes neither alerts nor history |
| AlertProperties.RunProvenance | agents-monitor/lib/alerts.js:164-190 | every alert is the alert of an enabled rule of the list whose condition is met |
| AlertProperties.DisabledRuleNeverAlerts | agents-monitor/lib/alerts.js:165 | no alert carries the id of a rule that is off |
| AlertProperties.AlertsComeFromMatchingRules | agents-monitor/lib/alerts.js:174-188 | every alert is for the snapshot's agent, stamped `now`, and names an enabled matching rule |
| AlertProperties.RunHistory | agents-monitor/lib/alerts.js:188-189 | the new history is the old one with exactly the fired alerts recorded in order |
| AlertProperties.HistoryGrowsByAlerts | agents-monitor/lib/alerts.js:188-189 | below the cap the new history is the old one followed by the fired alerts |
| AlertProperties.RecordKeepsUndeduplicated | agents-monitor/lib/alerts.js:233-257 | recording an alert for another rule/agent pair does not deduplicate a pair |
| AlertProperties.FreshRun | agents-monitor/lib/alerts.js:164-194 | with distinct rule ids and nothing deduplicated, the alerts are exactly those of the enabled matching rules, in rule order |
| AlertProperties.ExpiredHistoryAlertsAfresh | agents-monitor/lib/alerts.js:233-242 | once every history entry is older than the window, evaluation alerts as on an empty history |
| AlertProperties.QuietStaysQuiet | agents-monitor/lib/alerts.js:168 | a rule that does not fire still does not fire after the history grows |
| AlertProperties.RunQuietsItsRules | agents-monitor/lib/alerts.js:164-194 | after an evaluation, no rule of the list fires again at the same instant and snapshot |
| AlertProperties.QuietRunIsEmpty | agents-monitor/lib/alerts.js:157-197 | when no rule fires, evaluation yields nothing and leaves the history alone |
| AlertProperties.SecondEvaluationIsEmpty | agents-monitor/lib/alerts.js:157-197 | evaluating the same snapshot twice at the same instant alerts only the first time |
| AlertProperties.DefaultConditionsMean | agents-monitor/lib/alerts.js:55-82 | the default conditions hold exactly for a failed status, a success rate below 0.8, an execution time above 30000 and more than 50000 tokens |
| AlertProperties.FreshDefaultRun | agents-monitor/lib/alerts.js:46-103 | on an empty history the default rules alert for each matching rule once, in rule order |
| AlertProperties.AgentFailureScenario | agents-monitor/tests/lib/alerts.test.js:51-66 | a failed agent gets exactly the critical agent-failure alert |
| AlertProperties.LowSuccessRateScenario | agents-monitor/tests/lib/alerts.test.js:68-83 | a success rate of 0.75 gets exactly the low-success-rate warning |
| AlertProperties.SlowExecutionScenario | agents-monitor/tests/lib/alerts.test.js:85-100 | an execution time of 45000 gets exactly the slow-execution warning |
| AlertProperties.HighTokenUsageScenario | agents-monitor/tests/lib/alerts.test.js:102-117 | 75000 tokens get exactly the high-token-usage notice |
| AlertProperties.ChannelDispatchesExactly | agents-monitor/lib/alerts.js:290-299 | the sends for one alert are exactly to listed channels with a notifier that are switched on |
| AlertProperties.DispatchesExactly | agents-monitor/lib/alerts.js:285-301 | every send is deliverable and every deliverable alert/channel pair is sent |
| AlertProperties.MergeRuleSetLaws | agents-monitor/lib/alerts.js:335 | the spread merge: an empty update changes nothing, an update is idempotent, and the later update wins |
| NotifierBase.RetryWithBackoff | agents-monitor/lib/notifiers/base-notifier.js:40-56 | at most `retryAttempts` calls; success exactly when some attempt within the budget succeeds, returning the first success; otherwise the exhaustion error with the last message; the waits are `retryDelay * 2^i` between attempts |
| NotifierBase.ThirdAttemptSucceeds | agents-monitor/lib/notifiers/base-notifier.js:40-56 | two failures then a success: three calls, waits of `delay` and `2 * delay` |
| NotifierBase.EnabledOption | agents-monitor/lib/notifiers/base-notifier.js:8 | enabled unless explicitly `false` |
| NotifierBase.AttemptsOption | agents-monitor/lib/notifiers/base-notifier.js:9 | 3 attempts unless a non-zero count is given |
| NotifierBase.DelayOption | agents-monitor/lib/notifiers/base-notifier.js:10 | 1000 ms unless a non-zero delay is given |
| NotifierBase.ValidateEnabled | agents-monitor/lib/notifiers/base-notifier.js:61-65 | passes exactly when enabled, else "not enabled" |
| NotifierBase.BaseNotifier.constructor | agents-monitor/lib/notifiers/base-notifier.js:7-11 | the three option defaults |
| NotifierBase.BaseNotifier.Validate | agents-monitor/lib/notifiers/base-notifier.js:61-65 | passes exactly when enabled |
| NotifierBase.BaseNotifier.Send | agents-monitor/lib/notifiers/base-notifier.js:17-19 | always rejects with "must be implemented by subclass" |
| EmailNotifiers.AddRecipientProperties | agents-monitor/lib/notifiers/email-notifier.js:53-57 | the address is then present, the old list is a prefix, the list grows exactly when the address was new, duplicates never appear |
| EmailNotifiers.RemoveRecipientProperties | agents-monitor/lib/notifiers/email-notifier.js:63-65 | every copy of the address goes, every other address keeps its multiplicity, an absent address changes nothing |
| EmailNotifiers.NoDuplicatesFilter | agents-monitor/lib/notifiers/email-notifier.js:64 | filtering keeps a duplicate-free list duplicate-free |
| EmailNotifiers.AddThenRemove | agents-monitor/lib/notifiers/email-notifier.js:53-65 | adding a new address and removing it restores the list |
| EmailNotifiers.ValidateEmail | agents-monitor/lib/notifiers/email-notifier.js:42-47 | passes exactly when enabled with a recipient; "not enabled" takes precedence over "no recipients" |
| EmailNotifiers.EmailNotifier.constructor | agents-monitor/lib/notifiers/email-notifier.js:9-14 | base defaults, recipients or none, provider `smtp` unless given, empty SMTP config unless given |
| EmailNotifiers.EmailNotifier.Validate | agents-monitor/lib/notifiers/email-notifier.js:42-47 | as `ValidateEmail` on the fields |
| EmailNotifiers.EmailNotifier.Send | agents-monitor/lib/notifiers/email-notifier.js:20-37 | a failed validation rejects with no attempt; otherwise one attempt returns the recipients and alert id; a non-positive attempt count rejects with a TypeError |
| EmailNotifiers.EmailNotifier.AddRecipient | agents-monitor/lib/notifiers/email-notifier.js:53-57 | the list becomes `WithRecipient` of the old one and stays duplicate-free |
| EmailNotifiers.EmailNotifier.RemoveRecipient | agents-monitor/lib/notifiers/email-notifier.js:63-65 | the list becomes `WithoutRecipient` of the old one and no longer holds the address |
| EmailNotifiers.EmailNotifier.SetSmtpConfig | agents-monitor/lib/notifiers/email-notifier.js:71-73 | the configuration is replaced wholesale; nothing else changes |
| SlackNotifiers.SeverityColorsDiffer | agents-monitor/lib/notifiers/slack-notifier.js:42-46 | the three known severities get distinct colours; exactly the other severities are grey |
| SlackNotifiers.SlackMessageShape | agents-monitor/lib/notifiers/slack-notifier.js:41-78 | one attachment coloured by severity with the fields Agent (agent name), Severity (upper-cased), Message (the message) and Time (the timestamp), the first two short; the text is exactly `SEVERITY: name` |
| SlackNotifiers.ValidateSlack | agents-monitor/lib/notifiers/slack-notifier.js:83-88 | passes exactly when enabled with a non-empty webhook |
| SlackNotifiers.SlackNotifier.constructor | agents-monitor/lib/notifiers/slack-notifier.js:9-12 | base defaults and the given webhook, unchecked |
| SlackNotifiers.SlackNotifier.Validate | agents-monitor/lib/notifiers/slack-notifier.js:83-88 | as `ValidateSlack` on the fields, with the error named |
| SlackNotifiers.SlackNotifier.Send | agents-monitor/lib/notifiers/slack-notifier.js:18-34 | a failed validation rejects with no attempt; otherwise one attempt returns channel `alerts`, the alert id and the payload |
| SlackNotifiers.SlackNotifier.SetWebhookUrl | agents-monitor/lib/notifiers/slack-notifier.js:94-99 | accepted exactly when it starts with the Slack hooks host; a rejected URL leaves the old one |
| SlackNotifiers.AcceptedWebhookValidates | agents-monitor/lib/notifiers/slack-notifier.js:83-99 | an accepted webhook validates whenever the notifier is enabled |
| GitHubNotifiers.IssueShape | agents-monitor/lib/notifiers/github-notifier.js:45-74 | the title is exactly `[SEVERITY] name - agent`; three labels, the first `prefix:severity`, then `alert` and `agents-monitor` |
| GitHubNotifiers.ValidateGitHub | agents-monitor/lib/notifiers/github-notifier.js:79-87 | passes exactly when enabled with a non-empty repo containing `/`; errors in that order |
| GitHubNotifiers.GitHubNotifier.constructor | agents-monitor/lib/notifiers/github-notifier.js:9-14 | base defaults, the repo unchecked, auto-creation unless explicitly off, label prefix `alert` unless given |
| GitHubNotifiers.GitHubNotifier.Validate | agents-monitor/lib/notifiers/github-notifier.js:79-87 | as `ValidateGitHub` on the fields |
| GitHubNotifiers.GitHubNotifier.Send | agents-monitor/lib/notifiers/github-notifier.js:20-38 | a failed validation rejects; auto-creation off succeeds with no attempt; otherwise one attempt creates issue 123 on the repo |
| GitHubNotifiers.GitHubNotifier.SetRepository | agents-monitor/lib/notifiers/github-notifier.js:93-98 | accepted exactly when it contains `/`; a rejected repo leaves the old one |
| GitHubNotifiers.GitHubNotifier.SetAutoCreate | agents-monitor/lib/notifiers/github-notifier.js:104-106 | sets the flag; nothing else changes |
| GitHubNotifiers.AcceptedRepoValidates | agents-monitor/lib/notifiers/github-notifier.js:79-98 | an accepted repo validates whenever the notifier is enabled |
| Common.FindIndex | agents-monitor/lib/agents.js:35 | `findIndex`: the index of the first element satisfying the predicate, or none exactly when no element does |
| Agents.FindIdIndex | agents-monitor/lib/agents.js:35 | `findIndex` by id: the first record with the id, or none |
| Agents.UpsertProperties | agents-monitor/lib/agents.js:32-49 | the agent is then present; the first record with its id is replaced and every other record, a later one with the same id included, is kept; with no such record it is appended; unique ids stay unique |
| Agents.FindByName | agents-monitor/lib/agents.js:167 | `find` by name: some record exactly when a record has the name, and then the first one |
| Agents.TailProperties | agents-monitor/lib/agents.js:78 | `slice(-n)` keeps the last `min(n, length)` elements; a negative count drops a prefix instead |
| Agents.SelectLogLinesProperties | agents-monitor/lib/agents.js:71-86 | at most `lines` (default 50) lines, all from the tail; with a filter, exactly the tail lines containing it case-insensitively; without, exactly the tail |
| Agents.LogsOf | agents-monitor/lib/agents.js:71-91 | a missing log gives no lines; a filter holds on every line; no more than the requested count |
| Agents.RoundHalfUp | agents-monitor/lib/agents.js:126-128 | `Math.round(a / b)` rounds half up: `r` is the integer with `a/b - 1/2 <= r < a/b + 1/2` |
| Agents.TallyLogLines | agents-monitor/lib/agents.js:100-129 | the counts are the numbers of execution, success and failure lines; the rate is the rounded percentage, 0 without executions |
| Agents.FailureCountBounds | agents-monitor/lib/agents.js:120-122 | a line with both `ERROR` and `Failed` counts once; failures never exceed lines |
| Agents.AsWrittenMarkerMissesCheckMark | agents-monitor/lib/agents.js:117 | the marker as written is not found in a line holding the check mark |
| Agents.Monitored | agents-monitor/lib/agents.js:143-151 | the record is running with 0 tokens, the given id or the clock's, a pid only when non-zero, and start and heartbeat stamped |
| Agents.AgentMonitor.constructor | agents-monitor/lib/agents.js:9-13 | the store is the given agents file and logs |
| Agents.AgentMonitor.ActiveAgents | agents-monitor/lib/agents.js:18-27 | exactly the running agents in file order, with multiplicity; none without a file |
| Agents.AgentMonitor.RegisterAgent | agents-monitor/lib/agents.js:32-54 | the file becomes the upsert of the agent into the old list; the agent is returned |
| Agents.AgentMonitor.AgentLogs | agents-monitor/lib/agents.js:71-91 | as `LogsOf` on the monitor's logs |
| Agents.AgentMonitor.GetAgentMetrics | agents-monitor/lib/agents.js:96-136 | counts over the last 100 log lines, with the corrected success marker; failures at most the lines; rate rounded, 0 without executions |
| Agents.AgentMonitor.StartMonitoring | agents-monitor/lib/agents.js:141-159 | the monitored record is built and upserted |
| Agents.AgentMonitor.StopMonitoring | agents-monitor/lib/agents.js:164-180 | an unknown name changes nothing; otherwise the first record with the name is marked stopped with an end time and upserted |
| Agents.AgentMonitor.UpdateHeartbeat | agents-monitor/lib/agents.js:185-200 | an unknown name changes nothing; otherwise the first record with the name gets the new heartbeat and is upserted |
| Agents.AgentMonitor.AgentStatus | agents-monitor/lib/agents.js:205-214 | some record exactly when one has the name, and then the first record of the file with that name |
| Agents.StopKeepsOthers | agents-monitor/lib/agents.js:164-180 | with unique ids, stopping replaces exactly the stopped record and keeps ids unique |
| Metrics.RunningTokensAppend | agents-monitor/lib/metrics.js:97-100 | only running agents add tokens; a missing count adds 0 |
| Metrics.TallySumBound | agents-monitor/lib/metrics.js:55-63 | each agent adds at most its 100 counted log lines to a total |
| Metrics.StatusCountsBound | agents-monitor/lib/metrics.js:29-36 | running, stopped and failed agents together are at most all agents |
| Metrics.AggregateCounts | agents-monitor/lib/metrics.js:28-63 | the aggregate's agent counts, execution and failure totals bounded by 100 per agent, and the running agents' tokens |
| Metrics.AggregateRates | agents-monitor/lib/metrics.js:89-106 | success rate and tokens per execution are the rounded ratios, 0 without executions; execution time stays 0 |
| Metrics.SuccessRateWithinPercent | agents-monitor/lib/metrics.js:92-94 | the rate lies in 0..100 whenever successes do not outnumber executions |
| Metrics.ClassifyHealth | agents-monitor/lib/metrics.js:177-198 | offline exactly when nothing runs, degraded when something runs and an agent failed, healthy otherwise; the issues and the warning below 80% in the source's order |
| Metrics.SumAgentMetrics | agents-monitor/lib/metrics.js:55-64 | the totals summed agent by agent are the execution, success and failure line counts; time stays 0 |
| Metrics.MetricsCollector.constructor | agents-monitor/lib/metrics.js:8-13 | a fresh monitor over the store, an empty cache, an interval of 5000 ms unless a non-zero one is given |
| Metrics.MetricsCollector.GetMetrics | agents-monitor/lib/metrics.js:18-117 | a fresh cache answers unchanged; otherwise the result is `Aggregate` of the store, cached and stamped `now` |
| Metrics.MetricsCollector.GetHealthStatus | agents-monitor/lib/metrics.js:173-198 | the metrics `GetMetrics` returns, with the cache updated as there; offline exactly when no agent runs, degraded when one failed, healthy otherwise; the failed-agents issue before the no-agents issue; the warning exactly when the success rate is below 80 over some executions |
| Metrics.MetricsCollector.ClearCache | agents-monitor/lib/metrics.js:211-214 | the cache and its stamp are cleared, so the next request recomputes |

## Left out

- File persistence (`loadRules`, `loadHistory`, `saveRules`, `saveHistory`, the directory creation, the agents file write and log reads): each load is its parsed result (`None` for a missing or unreadable file), each save is dropped, and the `fs` error paths are the `None` cases.
- Conditions.EvaluateCondition: conditions are a syntax tree of comparisons, `&&` and `||` over whitelisted fields and literals, plus an `Unsupported` leaf that throws; arbitrary JavaScript compiled by `new Function` is not modelled, nor loose equality or coercion between numbers and strings.
- Conditions.EvaluateCondition: a name outside the whitelist is treated as unbound, so it throws; in the source a global of the JavaScript host (`Infinity`, `NaN`, `undefined`, `Math`, ...) resolves instead, so a condition such as `Infinity > successRate` is met there and not met here. Conditions.UnlistedNameIsNotMet excludes the names in `JsGlobalNames`; a global some Node version adds beyond that list is not covered.
- Alerts.AlertMessageShape: the detail holds the numbers themselves; their `toFixed(2)` rendering and the `/ 1000` scaling are not modelled.
- Alerts.AlertManager.EvaluateRules: one `now` serves the whole evaluation; the source reads the clock separately for each deduplication check and each alert timestamp.
- AlertProperties.SecondEvaluationIsEmpty: stated for a positive window and a history with room for every rule's alert (`|h| + |rules| <= 1000`); beyond the cap an eviction can lift a deduplication.
- AlertHistory.SortNewestFirst: proved ordered and a permutation; the stability of `Array.prototype.sort` among equal timestamps is not claimed.
- `BaseNotifier.formatAlert` and the GitHub issue body: both render ISO dates and JSON, which are not modelled.
- Asynchrony and timers: `await` is sequential execution; backoff sleeps are returned as the list of delays.
- NotifierBase.RetryWithBackoff: a non-positive attempt count makes no attempt and is reported as `NoAttemptMade`, standing for the TypeError that reading `lastError.message` of `undefined` throws.
- Text.Upper, Text.Lower: only ASCII letters change case; Unicode case mapping is not modelled.
- SlackNotifiers.SeverityColor: a severity named like an `Object.prototype` member (`constructor`) would pick that member rather than the grey default; not modelled.
- Agents.AgentMonitor.GetAgentMetrics: a `null` result is unreachable (log reads never throw), so the metrics collector's `if (agentMetrics)` branch always runs.
- Metrics.MetricsCollector.GetMetrics: the `uptime` section parses start times as dates and is not modelled; `timestamp` is the clock reading, not its ISO string.
- Metrics.MetricsCollector.GetHealthStatus: the `unknown` status with an error is unreachable since `getMetrics` does not throw here.
- `getMetricsByTimeRange` and `extractTimestamp`: they parse dates from log lines; not modelled. The success marker at metrics.js:143 has the same mistake as the one under Findings.
- Arithmetic: snapshot metrics are exact reals and counts are unbounded integers; floating-point rounding is not modelled, and `Math.round` is exact half-up rounding of the rational.
- Agents.Monitored: the id fallback `Date.now().toString()` and the ISO stamp are parameters; one stamp stands for both clock reads, so `startTime` and `lastHeartbeat` are equal here while the source reads the clock twice.
- Metrics.SuccessRateWithinPercent: the bound is conditional; a log with more success lines than execution lines gives a rate above 100.

## Findings

| source | as written | input that shows it | evidently intended | confidence | as-written member | corrected member |
|---|---|---|---|---|---|---|
| agents-monitor/lib/agents.js:117 | the success marker is the three characters `â`, `œ`, `…`, the UTF-8 bytes of U+2705 read as Windows-1252 | a log line `✅ Fixed` (U+2705): `includes` finds no match, so it counts as no success | the check mark U+2705, so such a line counts as a success | not executed | Agents.AsWrittenMarkerMissesCheckMark | Agents.AgentMonitor.GetAgentMetrics |
