/** The aggregator of agents-monitor/lib/metrics.js: counts of agents by
    status, execution counts summed over every agent's log, the token total of
    the running agents, a five-second cache, and the health classification.

    The clock is the parameter `now`; the uptime section, which parses start
    times as dates, is not modelled. */
module Metrics {
  import opened Common
  import opened Text
  import opened Agents

  const DefaultCacheInterval: int := 5000

  /** The aggregate `getMetrics` returns (`timestamp` holds the clock reading
      the source renders as an ISO string). */
  datatype Metrics = Metrics(
    timestamp: int,
    totalAgents: nat,
    activeAgents: nat,
    stoppedAgents: nat,
    failedAgents: nat,
    totalExecutions: nat,
    successfulExecutions: nat,
    failedExecutions: nat,
    totalExecutionTime: int,
    avgExecutionTime: int,
    totalTokensUsed: int,
    avgTokensPerExecution: int,
    successRate: int)

  function StatusCount(agents: seq<AgentRecord>, status: string): nat {
    CountWhere(agents, (a: AgentRecord) => a.status == status)
  }

  predicate Running(a: AgentRecord) {
    a.status == "running"
  }

  /** `agents.reduce((sum, a) => sum + (a.tokensUsed || 0), 0)`. */
  function TokenSum(agents: seq<AgentRecord>): int
    decreases |agents|
  {
    if agents == [] then 0 else agents[0].tokensUsed.GetOr(0) + TokenSum(agents[1..])
  }

  /** The token total of the running agents. */
  function RunningTokens(agents: seq<AgentRecord>): int {
    TokenSum(Filter(agents, Running))
  }

  lemma {:induction false} TokenSumAppend(a: seq<AgentRecord>, b: seq<AgentRecord>)
    ensures TokenSum(a + b) == TokenSum(a) + TokenSum(b)
    decreases |a|
  {
    if a == [] {
      assert a + b == b;
    } else {
      assert (a + b)[1..] == a[1..] + b;
      TokenSumAppend(a[1..], b);
    }
  }

  /** Only running agents contribute tokens: adding an agent that is not
      running leaves the total unchanged, and adding a running one adds its
      tokens (none counting as 0). */
  lemma RunningTokensAppend(agents: seq<AgentRecord>, a: AgentRecord)
    ensures RunningTokens(agents + [a]) == RunningTokens(agents) + (if Running(a) then a.tokensUsed.GetOr(0) else 0)
  {
    FilterAppend(agents, [a], Running);
    TokenSumAppend(Filter(agents, Running), Filter([a], Running));
    assert [a][1..] == [];
    if Running(a) {
      assert Filter([a], Running) == [a];
      assert TokenSum([a]) == a.tokensUsed.GetOr(0) + TokenSum([]);
    }
  }

  /** The lines `getAgentMetrics` reads for one agent. */
  function MetricLines(logFiles: map<string, string>, a: AgentRecord): (r: seq<string>)
    ensures |r| <= 100
  {
    LogsOf(logFiles, a.name, Some(100), None)
  }

  /** The sum over the agents, in order, of the lines of each agent's log
      that satisfy `p`. */
  function TallySum(logFiles: map<string, string>, agents: seq<AgentRecord>, p: string -> bool): nat
    decreases |agents|
  {
    if agents == [] then 0
    else TallySum(logFiles, agents[..|agents| - 1], p) + CountWhere(MetricLines(logFiles, agents[|agents| - 1]), p)
  }

  /** Each agent contributes at most its 100 log lines to a sum. */
  lemma {:induction false} TallySumBound(logFiles: map<string, string>, agents: seq<AgentRecord>, p: string -> bool)
    ensures TallySum(logFiles, agents, p) <= 100 * |agents|
    decreases |agents|
  {
    if agents != [] {
      TallySumBound(logFiles, agents[..|agents| - 1], p);
    }
  }

  /** The rounded averages, 0 without executions. */
  function RoundedOrZero(a: int, executions: nat): int {
    if executions > 0 then RoundHalfUp(a, executions) else 0
  }

  /** The metrics computed afresh from the agents file and the logs at `now`. */
  function Aggregate(agents: seq<AgentRecord>, logFiles: map<string, string>, now: int): Metrics {
    var executions := TallySum(logFiles, agents, IsExecutionLine);
    var successes := TallySum(logFiles, agents, (l: string) => Contains(l, SuccessMarker));
    var failures := TallySum(logFiles, agents, IsFailureLine);
    var tokens := RunningTokens(agents);
    Metrics(
      now,
      |agents|,
      CountWhere(agents, Running),
      StatusCount(agents, "stopped"),
      StatusCount(agents, "failed"),
      executions,
      successes,
      failures,
      0,
      RoundedOrZero(0, executions),
      tokens,
      RoundedOrZero(tokens, executions),
      RoundedOrZero(100 * successes, executions))
  }

  /** Running, stopped and failed agents are counted apart: together they
      never exceed the number of agents. */
  lemma StatusCountsBound(agents: seq<AgentRecord>)
    ensures CountWhere(agents, Running) + StatusCount(agents, "stopped") + StatusCount(agents, "failed") <= |agents|
  {
    var stopped := (a: AgentRecord) => a.status == "stopped";
    var failed := (a: AgentRecord) => a.status == "failed";
    var either := (a: AgentRecord) => a.status == "stopped" || a.status == "failed";
    CountUnion(agents, stopped, failed, either);
    CountDisjoint(agents, Running, either);
  }

  /** The counts of the aggregate: the status counts split the agents, each
      agent contributes at most its 100 last log lines to the execution and
      failure totals, and the tokens are those of the running agents. */
  lemma AggregateCounts(agents: seq<AgentRecord>, logFiles: map<string, string>, now: int)
    ensures var m := Aggregate(agents, logFiles, now);
      && m.timestamp == now
      && m.totalAgents == |agents|
      && m.activeAgents + m.stoppedAgents + m.failedAgents <= m.totalAgents
      && m.failedExecutions <= 100 * m.totalAgents
      && m.totalExecutions <= 100 * m.totalAgents
      && m.totalTokensUsed == RunningTokens(agents)
  {
    StatusCountsBound(agents);
    TallySumBound(logFiles, agents, IsFailureLine);
    TallySumBound(logFiles, agents, IsExecutionLine);
  }

  /** The ratios of the aggregate: without executions the success rate and
      the average token use are 0; with executions the success rate is the
      percentage of successful executions rounded half up, and the average
      token use the token total per execution rounded half up. The execution
      time is never accumulated, so it and its average stay 0. */
  lemma AggregateRates(agents: seq<AgentRecord>, logFiles: map<string, string>, now: int)
    ensures var m := Aggregate(agents, logFiles, now);
      && m.totalExecutionTime == 0 && m.avgExecutionTime == 0
      && (m.totalExecutions == 0 ==> m.successRate == 0 && m.avgTokensPerExecution == 0)
      && (m.totalExecutions > 0 ==>
            && 2 * m.totalExecutions * m.successRate <= 200 * m.successfulExecutions + m.totalExecutions
            && 200 * m.successfulExecutions + m.totalExecutions < 2 * m.totalExecutions * (m.successRate + 1)
            && 2 * m.totalExecutions * m.avgTokensPerExecution <= 2 * m.totalTokensUsed + m.totalExecutions
            && 2 * m.totalTokensUsed + m.totalExecutions < 2 * m.totalExecutions * (m.avgTokensPerExecution + 1))
  {
    var executions := TallySum(logFiles, agents, IsExecutionLine);
    if executions > 0 {
      var z := RoundHalfUp(0, executions);
      assert 2 * executions * z <= executions < 2 * executions * (z + 1);
      assert z == 0;
    }
  }

  lemma MulMonotone(a: int, b: int, c: int)
    requires a > 0 && b <= c
    ensures a * b <= a * c
  {
    assert a * c - a * b == a * (c - b);
  }

  /** A rounded percentage of a part of a whole lies between 0 and 100. */
  lemma RoundedPercentBounds(whole: int, part: int, r: int)
    requires 0 <= part <= whole && whole > 0
    requires 2 * whole * r <= 200 * part + whole < 2 * whole * (r + 1)
    ensures 0 <= r <= 100
  {
    if r > 100 {
      MulMonotone(whole, 101, r);
    }
    if r < 0 {
      MulMonotone(whole, r + 1, 0);
    }
  }

  /** The success rate is a percentage between 0 and 100 whenever the
      successes do not outnumber the executions. The counting does not
      ensure that by itself: a success line need not mark an execution. */
  lemma SuccessRateWithinPercent(agents: seq<AgentRecord>, logFiles: map<string, string>, now: int)
    ensures var m := Aggregate(agents, logFiles, now);
      m.successfulExecutions <= m.totalExecutions ==> 0 <= m.successRate <= 100
  {
    var m := Aggregate(agents, logFiles, now);
    AggregateRates(agents, logFiles, now);
    if m.successfulExecutions <= m.totalExecutions && m.totalExecutions > 0 {
      RoundedPercentBounds(m.totalExecutions, m.successfulExecutions, m.successRate);
    }
  }

  /** The health status. */
  datatype HealthStatus = Healthy | Degraded | Offline

  datatype HealthIssue = FailedAgentsIssue(count: nat) | NoActiveAgents

  datatype HealthWarning = SuccessRateBelow80(rate: int)

  datatype Health = Health(status: HealthStatus, issues: seq<HealthIssue>, warnings: seq<HealthWarning>)

  /** The body of `getHealthStatus` on a metrics record: offline exactly when
      no agent runs (overriding degraded), degraded when some agent failed,
      healthy otherwise; the failed-agents issue comes before the no-agents
      issue; one warning exactly when the success rate is below 80 over a
      non-zero number of executions. */
  method ClassifyHealth(m: Metrics) returns (h: Health)
    ensures h.status == Offline <==> m.activeAgents == 0
    ensures h.status == Degraded <==> m.activeAgents != 0 && m.failedAgents > 0
    ensures h.status == Healthy <==> m.activeAgents != 0 && m.failedAgents == 0
    ensures h.issues == (if m.failedAgents > 0 then [FailedAgentsIssue(m.failedAgents)] else []) +
                        (if m.activeAgents == 0 then [NoActiveAgents] else [])
    ensures h.warnings == if m.successRate < 80 && m.totalExecutions > 0 then [SuccessRateBelow80(m.successRate)] else []
  {
    var status := Healthy;
    var issues: seq<HealthIssue> := [];
    var warnings: seq<HealthWarning> := [];
    if m.failedAgents > 0 {
      status := Degraded;
      issues := issues + [FailedAgentsIssue(m.failedAgents)];
    }
    if m.successRate < 80 && m.totalExecutions > 0 {
      warnings := warnings + [SuccessRateBelow80(m.successRate)];
    }
    if m.activeAgents == 0 {
      status := Offline;
      issues := issues + [NoActiveAgents];
    }
    h := Health(status, issues, warnings);
  }

  /** The loop of `getMetrics` that asks the monitor for each agent's
      metrics, in order, and sums them: the totals are the sums over the
      agents of their log lines that mark an execution, a success and a
      failure, and the execution time stays 0. */
  method SumAgentMetrics(monitor: AgentMonitor, agents: seq<AgentRecord>)
    returns (executions: nat, successes: nat, failures: nat, totalTime: int)
    ensures executions == TallySum(monitor.logFiles, agents, IsExecutionLine)
    ensures successes == TallySum(monitor.logFiles, agents, (l: string) => Contains(l, SuccessMarker))
    ensures failures == TallySum(monitor.logFiles, agents, IsFailureLine)
    ensures totalTime == 0
  {
    executions, successes, failures, totalTime := 0, 0, 0, 0;
    for i := 0 to |agents|
      invariant executions == TallySum(monitor.logFiles, agents[..i], IsExecutionLine)
      invariant successes == TallySum(monitor.logFiles, agents[..i], (l: string) => Contains(l, SuccessMarker))
      invariant failures == TallySum(monitor.logFiles, agents[..i], IsFailureLine)
      invariant totalTime == 0
    {
      assert agents[..i + 1][..i] == agents[..i];
      assert agents[..i + 1][i] == agents[i];
      var am := monitor.GetAgentMetrics(agents[i].name);
      executions := executions + am.executionCount;
      successes := successes + am.successCount;
      failures := failures + am.failureCount;
      totalTime := totalTime + am.totalExecutionTime;
    }
    assert agents[..|agents|] == agents;
  }

  class MetricsCollector {
    const monitor: AgentMonitor
    var metricsCache: Option<Metrics>
    var lastUpdate: Option<int>
    var cacheInterval: int

    /** `new MetricsCollector(options)`: a fresh monitor over the given store,
        an empty cache, and a cache interval of 5000 ms unless a non-zero one
        is given. */
    constructor(agentsFile: Option<seq<AgentRecord>>, logFiles: map<string, string>, cacheInterval: Option<int>)
      ensures fresh(monitor)
      ensures monitor.agentsFile == agentsFile && monitor.logFiles == logFiles
      ensures metricsCache.None? && lastUpdate.None?
      ensures this.cacheInterval == NumberOr(cacheInterval, DefaultCacheInterval)
    {
      monitor := new AgentMonitor(agentsFile, logFiles);
      metricsCache := None;
      lastUpdate := None;
      this.cacheInterval := NumberOr(cacheInterval, DefaultCacheInterval);
    }

    /** The cache answers at `now`: metrics are cached, the last update is
        truthy (non-zero) and less than the interval ago. */
    predicate CacheFresh(now: int)
      reads this
    {
      metricsCache.Some? && lastUpdate.Some? && lastUpdate.value != 0 && now - lastUpdate.value < cacheInterval
    }

    /** `getMetrics()` at `now`: the cached record while it is fresh, without
        reading the store; otherwise the aggregate of the store, which then
        becomes the cache, stamped `now`. */
    method GetMetrics(now: int) returns (m: Metrics)
      modifies this
      ensures old(CacheFresh(now)) ==> m == old(metricsCache).value && metricsCache == old(metricsCache) && lastUpdate == old(lastUpdate)
      ensures !old(CacheFresh(now)) ==> m == Aggregate(monitor.AllAgents(), monitor.logFiles, now) && metricsCache == Some(m) && lastUpdate == Some(now)
      ensures cacheInterval == old(cacheInterval)
    {
      if CacheFresh(now) {
        return metricsCache.value;
      }
      var agents := monitor.AllAgents();
      var executions, successes, failures, totalTime := SumAgentMetrics(monitor, agents);
      var avgTime := RoundedOrZero(totalTime, executions);
      var rate := RoundedOrZero(100 * successes, executions);
      var tokens := RunningTokens(agents);
      var avgTokens := RoundedOrZero(tokens, executions);
      m := Metrics(now, |agents|, CountWhere(agents, Running), StatusCount(agents, "stopped"),
                   StatusCount(agents, "failed"), executions, successes, failures, 0, avgTime, tokens, avgTokens, rate);
      metricsCache := Some(m);
      lastUpdate := Some(now);
    }

    /** `getHealthStatus()` at `now`: the metrics `getMetrics` returns, with
        the status, issues and warnings `ClassifyHealth` gives them. */
    method GetHealthStatus(now: int) returns (h: Health, m: Metrics)
      modifies this
      ensures old(CacheFresh(now)) ==> m == old(metricsCache).value && metricsCache == old(metricsCache) && lastUpdate == old(lastUpdate)
      ensures !old(CacheFresh(now)) ==> m == Aggregate(monitor.AllAgents(), monitor.logFiles, now) && metricsCache == Some(m) && lastUpdate == Some(now)
      ensures cacheInterval == old(cacheInterval)
      ensures h.status == Offline <==> m.activeAgents == 0
      ensures h.status == Degraded <==> m.activeAgents != 0 && m.failedAgents > 0
      ensures h.status == Healthy <==> m.activeAgents != 0 && m.failedAgents == 0
      ensures h.issues == (if m.failedAgents > 0 then [FailedAgentsIssue(m.failedAgents)] else []) +
                          (if m.activeAgents == 0 then [NoActiveAgents] else [])
      ensures h.warnings == if m.successRate < 80 && m.totalExecutions > 0 then [SuccessRateBelow80(m.successRate)] else []
    {
      m := GetMetrics(now);
      h := ClassifyHealth(m);
    }

    /** `clearCache()`: the next `getMetrics` recomputes. */
    method ClearCache()
      modifies this
      ensures metricsCache.None? && lastUpdate.None? && cacheInterval == old(cacheInterval)
      ensures !CacheFresh(0)
    {
      metricsCache := None;
      lastUpdate := None;
    }
  }
}
