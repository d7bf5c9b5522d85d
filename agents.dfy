/** The agent store of agents-monitor/lib/agents.js, in memory: the parsed
    agents file (`None` when it is missing or unreadable, which the source
    treats as an empty list), the log file of each agent by name, upsert by
    id, lookups by name, the log tail with its case-insensitive filter, and
    the line counting behind an agent's metrics.

    Timestamps are ISO strings supplied by the caller; the fallback id of
    `startMonitoring` (the clock in milliseconds, as text) is a parameter. */
module Agents {
  import opened Common
  import opened Text

  /** The marker `getAgentMetrics` looks for, as the source spells it: the
      UTF-8 bytes of the check mark read back as Windows-1252 text. */
  const SuccessMarkerAsWritten: string := "\U{E2}\U{153}\U{2026}"

  /** The check mark the agents print on success (U+2705). */
  const SuccessMarker: string := "\U{2705}"

  const ExecutionMarker: string := "Analyzing issue"

  datatype AgentRecord = AgentRecord(
    id: string,
    name: string,
    pid: Option<int>,
    status: string,
    startTime: Option<string>,
    endTime: Option<string>,
    lastHeartbeat: Option<string>,
    tokensUsed: Option<int>)

  predicate UniqueIds(agents: seq<AgentRecord>) {
    forall i, j :: 0 <= i < j < |agents| ==> agents[i].id != agents[j].id
  }

  /** `agents.findIndex((a) => a.id === id)`. */
  function FindIdIndex(agents: seq<AgentRecord>, id: string): (k: Option<nat>)
    ensures k.Some? ==> k.value < |agents| && agents[k.value].id == id
    ensures k.Some? ==> forall j :: 0 <= j < k.value ==> agents[j].id != id
    ensures k.None? ==> forall j :: 0 <= j < |agents| ==> agents[j].id != id
  {
    FindIndex(agents, (a: AgentRecord) => a.id == id)
  }

  /** No record before index `k` has the id of the record at `k`. */
  predicate FirstWithId(agents: seq<AgentRecord>, k: int)
    requires 0 <= k < |agents|
  {
    forall j :: 0 <= j < k ==> agents[j].id != agents[k].id
  }

  /** The list `registerAgent(agent)` writes back. */
  function Upsert(agents: seq<AgentRecord>, agent: AgentRecord): seq<AgentRecord> {
    match FindIdIndex(agents, agent.id)
    case Some(k) => agents[k := agent]
    case None => agents + [agent]
  }

  /** Upsert replaces the first agent with the same id in place, or else
      appends; every other entry, including a later one with the same id,
      keeps its place and value, and a list with unique ids keeps them
      unique. */
  lemma UpsertProperties(agents: seq<AgentRecord>, agent: AgentRecord)
    ensures var r := Upsert(agents, agent);
      && agent in r
      && (|r| == if exists i :: 0 <= i < |agents| && agents[i].id == agent.id then |agents| else |agents| + 1)
      && (forall i :: 0 <= i < |agents| && agents[i].id != agent.id ==> r[i] == agents[i])
      && (forall k :: 0 <= k < |agents| && agents[k].id == agent.id && FirstWithId(agents, k) ==>
            r[k] == agent && forall i :: 0 <= i < |agents| && i != k ==> r[i] == agents[i])
      && ((forall i :: 0 <= i < |agents| ==> agents[i].id != agent.id) ==> r == agents + [agent])
      && (UniqueIds(agents) ==> UniqueIds(r))
  {
    var r := Upsert(agents, agent);
    match FindIdIndex(agents, agent.id)
    case Some(k) =>
      assert r[k] == agent;
      forall k' | 0 <= k' < |agents| && agents[k'].id == agent.id && FirstWithId(agents, k')
        ensures k' == k
      {
      }
      if UniqueIds(agents) {
        forall i, j | 0 <= i < j < |r|
          ensures r[i].id != r[j].id
        {
          if i != k && j != k {
            assert r[i] == agents[i] && r[j] == agents[j];
          } else if i == k {
            assert r[j] == agents[j];
            assert agents[i].id == agent.id;
          } else {
            assert r[i] == agents[i];
            assert agents[j].id == agent.id;
          }
        }
      }
    case None =>
      assert r[|agents|] == agent;
  }

  /** `agents.find((a) => a.name === name)`: the first agent with that name. */
  function FindByName(agents: seq<AgentRecord>, name: string): (r: Option<AgentRecord>)
    ensures r.Some? <==> exists i :: 0 <= i < |agents| && agents[i].name == name
    ensures r.Some? ==> exists i :: (0 <= i < |agents| && agents[i] == r.value && r.value.name == name &&
      forall j :: 0 <= j < i ==> agents[j].name != name)
  {
    match FindIndex(agents, (a: AgentRecord) => a.name == name)
    case None => None
    case Some(k) => Some(agents[k])
  }

  /** `s.slice(start)`: a negative start counts from the end. */
  function Slice<T>(s: seq<T>, start: int): seq<T> {
    s[if start < 0 then Max(|s| + start, 0) else Min(start, |s|)..]
  }

  /** `s.slice(-n)` keeps the last `n` elements when `n` is positive (all of
      them when there are fewer), and drops the first `-n` when `n` is
      negative. */
  lemma TailProperties<T>(s: seq<T>, n: int)
    ensures n > 0 ==> |Slice(s, -n)| == Min(n, |s|) && Slice(s, -n) == s[|s| - Min(n, |s|)..]
    ensures n < 0 ==> Slice(s, -n) == s[Min(-n, |s|)..]
  {
  }

  /** `line.toLowerCase().includes(filter.toLowerCase())`. */
  predicate MatchesFilter(line: string, filter: string) {
    Contains(Lower(line), Lower(filter))
  }

  /** `getAgentLogs` over the text of a log file: split into lines, keep the
      last `lines` of them (50 when the count is absent or 0), then keep the
      lines matching the filter when a non-empty one is given. */
  function SelectLogLines(content: string, lines: Option<int>, filter: Option<string>): seq<string> {
    var tail := Slice(Split(content, '\n'), -NumberOr(lines, 50));
    if StringGiven(filter) then Filter(tail, (l: string) => MatchesFilter(l, filter.value)) else tail
  }

  /** The selected lines are lines of the file, taken from its last `n`; each
      contains the filter ignoring case, and no line of that tail containing it
      is dropped; with no filter they are exactly the tail. */
  lemma SelectLogLinesProperties(content: string, lines: Option<int>, filter: Option<string>)
    ensures var n := NumberOr(lines, 50);
      var all := Split(content, '\n');
      var r := SelectLogLines(content, lines, filter);
      && (n > 0 ==> |r| <= n)
      && (n > 0 ==> forall l :: l in r ==> l in all[|all| - Min(n, |all|)..])
      && (StringGiven(filter) ==> forall l :: l in r <==> l in Slice(all, -n) && MatchesFilter(l, filter.value))
      && (!StringGiven(filter) && n > 0 ==> r == all[|all| - Min(n, |all|)..])
  {
    var n := NumberOr(lines, 50);
    var all := Split(content, '\n');
    var tail := Slice(all, -n);
    var r := SelectLogLines(content, lines, filter);
    TailProperties(all, n);
    if StringGiven(filter) {
      assert |r| <= |tail|;
      assert forall l :: l in r <==> l in tail && MatchesFilter(l, filter.value);
    } else {
      assert r == tail;
    }
  }

  /** The log lines of an agent given every agent's log text; an agent
      without a log file has none (the read error is caught). */
  function LogsOf(logFiles: map<string, string>, name: string, lines: Option<int>, filter: Option<string>): (r: seq<string>)
    ensures name !in logFiles ==> r == []
    ensures StringGiven(filter) ==> forall l :: l in r ==> MatchesFilter(l, filter.value)
    ensures NumberOr(lines, 50) > 0 ==> |r| <= NumberOr(lines, 50)
  {
    if name in logFiles then
      SelectLogLinesProperties(logFiles[name], lines, filter);
      SelectLogLines(logFiles[name], lines, filter)
    else []
  }

  /** What a line counts as. */
  predicate IsExecutionLine(line: string) {
    Contains(line, ExecutionMarker)
  }

  predicate IsFailureLine(line: string) {
    Contains(line, "ERROR") || Contains(line, "Failed")
  }

  /** `Math.round(a / b)` for exact rationals: the nearest integer, halves
      rounded up. */
  function RoundHalfUp(a: int, b: int): (r: int)
    requires b > 0
    ensures 2 * b * r <= 2 * a + b < 2 * b * (r + 1)
  {
    var r := (2 * a + b) / (2 * b);
    assert (2 * a + b) == 2 * b * r + (2 * a + b) % (2 * b);
    r
  }

  /** The record `getAgentMetrics` returns. */
  datatype AgentMetrics = AgentMetrics(
    name: string,
    executionCount: nat,
    successCount: nat,
    failureCount: nat,
    totalExecutionTime: int,
    avgExecutionTime: int,
    tokensUsed: int,
    lastExecution: Option<string>,
    successRate: int)

  /** The counting loop of `getAgentMetrics` over the given lines, with the
      given success marker: executions, successes and failures are the
      numbers of lines that contain the respective text, a line with both
      `ERROR` and `Failed` counting once; the success rate is the rounded
      percentage of successes per execution, 0 without executions. */
  method TallyLogLines(name: string, lines: seq<string>, marker: string) returns (m: AgentMetrics)
    ensures m.name == name
    ensures m.executionCount == CountWhere(lines, IsExecutionLine)
    ensures m.successCount == CountWhere(lines, (l: string) => Contains(l, marker))
    ensures m.failureCount == CountWhere(lines, IsFailureLine)
    ensures m.totalExecutionTime == 0 && m.avgExecutionTime == 0 && m.tokensUsed == 0 && m.lastExecution.None?
    ensures m.executionCount == 0 ==> m.successRate == 0
    ensures m.executionCount > 0 ==> m.successRate == RoundHalfUp(100 * m.successCount, m.executionCount)
  {
    var success := (l: string) => Contains(l, marker);
    var executions, successes, failures := 0, 0, 0;
    for i := 0 to |lines|
      invariant executions == CountWhere(lines[..i], IsExecutionLine)
      invariant successes == CountWhere(lines[..i], success)
      invariant failures == CountWhere(lines[..i], IsFailureLine)
    {
      var line := lines[i];
      CountPrefixStep(lines, i, IsExecutionLine);
      CountPrefixStep(lines, i, success);
      CountPrefixStep(lines, i, IsFailureLine);
      if IsExecutionLine(line) {
        executions := executions + 1;
      }
      if Contains(line, marker) {
        successes := successes + 1;
      }
      if IsFailureLine(line) {
        failures := failures + 1;
      }
    }
    assert lines[..|lines|] == lines;
    var rate := if executions > 0 then RoundHalfUp(100 * successes, executions) else 0;
    m := AgentMetrics(name, executions, successes, failures, 0, 0, 0, None, rate);
  }

  /** A line holding both `ERROR` and `Failed` counts once: the failure count
      is at least each of the two separate counts and at most the number of
      lines. */
  lemma FailureCountBounds(lines: seq<string>)
    ensures CountWhere(lines, (l: string) => Contains(l, "ERROR")) <= CountWhere(lines, IsFailureLine) <= |lines|
    ensures CountWhere(lines, (l: string) => Contains(l, "Failed")) <= CountWhere(lines, IsFailureLine)
  {
    CountMonotone(lines, (l: string) => Contains(l, "ERROR"), IsFailureLine);
    CountMonotone(lines, (l: string) => Contains(l, "Failed"), IsFailureLine);
  }

  /** The marker as written never matches a line the agents print on success:
      "✅ Fixed" holds the check mark, not the three characters the source
      searches for. */
  lemma AsWrittenMarkerMissesCheckMark()
    ensures Contains(SuccessMarker + " Fixed", SuccessMarker)
    ensures !Contains(SuccessMarker + " Fixed", SuccessMarkerAsWritten)
  {
    ContainsInfix("", SuccessMarker, " Fixed");
    assert "" + SuccessMarker + " Fixed" == SuccessMarker + " Fixed";
    var line := SuccessMarker + " Fixed";
    ContainsAt(line, SuccessMarkerAsWritten);
    assert forall k :: 0 <= k < |line| ==> line[k] != SuccessMarkerAsWritten[0];
    forall i | 0 <= i <= |line| - |SuccessMarkerAsWritten|
      ensures !OccursAt(line, SuccessMarkerAsWritten, i)
    {
      assert line[i..i + |SuccessMarkerAsWritten|][0] == line[i];
    }
  }

  /** A request to `startMonitoring`. */
  datatype MonitorRequest = MonitorRequest(id: Option<string>, name: string, pid: Option<int>)

  /** The record `startMonitoring` registers: running, no tokens used yet,
      started and last seen at `stamp`; a missing or empty id becomes the
      clock text, a missing or zero pid becomes null. */
  function Monitored(req: MonitorRequest, stamp: string, clockId: string): (a: AgentRecord)
    ensures a.status == "running" && a.tokensUsed == Some(0)
    ensures a.id == StringOr(req.id, clockId) && a.name == req.name
    ensures a.pid.Some? <==> req.pid.Some? && req.pid.value != 0
    ensures a.startTime == Some(stamp) && a.lastHeartbeat == Some(stamp) && a.endTime.None?
  {
    AgentRecord(
      StringOr(req.id, clockId),
      req.name,
      if req.pid.Some? && req.pid.value != 0 then req.pid else None,
      "running",
      Some(stamp),
      None,
      Some(stamp),
      Some(0))
  }

  class AgentMonitor {
    /** The parsed agents file; `None` when it is missing or unreadable. */
    var agentsFile: Option<seq<AgentRecord>>
    /** The text of each agent's log file, by agent name. */
    var logFiles: map<string, string>

    constructor(agentsFile: Option<seq<AgentRecord>>, logFiles: map<string, string>)
      ensures this.agentsFile == agentsFile && this.logFiles == logFiles
    {
      this.agentsFile := agentsFile;
      this.logFiles := logFiles;
    }

    /** `getAllAgents()`. */
    function AllAgents(): seq<AgentRecord>
      reads this
    {
      agentsFile.GetOr([])
    }

    /** `getActiveAgents()`: exactly the running agents, in file order; none
        when the file is absent. */
    function ActiveAgents(): (r: seq<AgentRecord>)
      reads this
      ensures forall a :: a in r <==> a in AllAgents() && a.status == "running"
      ensures forall a :: multiset(r)[a] == if a.status == "running" then multiset(AllAgents())[a] else 0
      ensures agentsFile.None? ==> r == []
    {
      Filter(AllAgents(), (a: AgentRecord) => a.status == "running")
    }

    /** `registerAgent(agent)`. */
    method RegisterAgent(agent: AgentRecord) returns (r: AgentRecord)
      modifies this
      ensures agentsFile == Some(Upsert(old(AllAgents()), agent))
      ensures r == agent && logFiles == old(logFiles)
    {
      agentsFile := Some(Upsert(AllAgents(), agent));
      r := agent;
    }

    /** `getAgentLogs(name, { lines, filter })`. */
    function AgentLogs(name: string, lines: Option<int>, filter: Option<string>): (r: seq<string>)
      reads this
      ensures name !in logFiles ==> r == []
      ensures StringGiven(filter) ==> forall l :: l in r ==> MatchesFilter(l, filter.value)
    {
      LogsOf(logFiles, name, lines, filter)
    }

    /** `getAgentMetrics(name)` over the last 100 log lines, counting the
        check mark as a success. */
    method GetAgentMetrics(name: string) returns (m: AgentMetrics)
      ensures var lines := AgentLogs(name, Some(100), None);
        && m.executionCount == CountWhere(lines, IsExecutionLine)
        && m.successCount == CountWhere(lines, (l: string) => Contains(l, SuccessMarker))
        && m.failureCount == CountWhere(lines, IsFailureLine)
        && m.failureCount <= |lines| <= 100
        && m.totalExecutionTime == 0
        && (m.executionCount == 0 ==> m.successRate == 0)
        && (m.executionCount > 0 ==> m.successRate == RoundHalfUp(100 * m.successCount, m.executionCount))
    {
      var lines := AgentLogs(name, Some(100), None);
      FailureCountBounds(lines);
      m := TallyLogLines(name, lines, SuccessMarker);
    }

    /** `startMonitoring(agent)`: registers and returns the running record. */
    method StartMonitoring(req: MonitorRequest, stamp: string, clockId: string) returns (a: AgentRecord)
      modifies this
      ensures a == Monitored(req, stamp, clockId)
      ensures agentsFile == Some(Upsert(old(AllAgents()), a))
      ensures logFiles == old(logFiles)
    {
      a := Monitored(req, stamp, clockId);
      var _ := RegisterAgent(a);
    }

    /** `stopMonitoring(name)`: the first agent with that name is marked
        stopped at `stamp` and upserted by its id; an unknown name changes
        nothing. */
    method StopMonitoring(name: string, stamp: string) returns (r: Option<AgentRecord>)
      modifies this
      ensures var found := FindByName(old(AllAgents()), name);
        && (found.None? ==> r.None? && agentsFile == old(agentsFile))
        && (found.Some? ==> r == Some(found.value.(status := "stopped", endTime := Some(stamp))))
        && (found.Some? ==> agentsFile == Some(Upsert(old(AllAgents()), r.value)))
      ensures logFiles == old(logFiles)
    {
      var found := FindByName(AllAgents(), name);
      if found.None? {
        return None;
      }
      var stopped := found.value.(status := "stopped", endTime := Some(stamp));
      var _ := RegisterAgent(stopped);
      r := Some(stopped);
    }

    /** `updateHeartbeat(name)`: the first agent with that name gets
        `lastHeartbeat` = `stamp` and is upserted by its id; an unknown name
        changes nothing. */
    method UpdateHeartbeat(name: string, stamp: string) returns (r: Option<AgentRecord>)
      modifies this
      ensures var found := FindByName(old(AllAgents()), name);
        && (found.None? ==> r.None? && agentsFile == old(agentsFile))
        && (found.Some? ==> r == Some(found.value.(lastHeartbeat := Some(stamp))))
        && (found.Some? ==> agentsFile == Some(Upsert(old(AllAgents()), r.value)))
      ensures logFiles == old(logFiles)
    {
      var found := FindByName(AllAgents(), name);
      if found.None? {
        return None;
      }
      var beat := found.value.(lastHeartbeat := Some(stamp));
      var _ := RegisterAgent(beat);
      r := Some(beat);
    }

    /** `getAgentStatus(name)`: the first agent with that name, or null. */
    function AgentStatus(name: string): (r: Option<AgentRecord>)
      reads this
      ensures r.Some? <==> exists a :: a in AllAgents() && a.name == name
      ensures r.Some? ==> r.value in AllAgents() && r.value.name == name
      ensures r.Some? ==> exists i :: (0 <= i < |AllAgents()| && AllAgents()[i] == r.value &&
        forall j :: 0 <= j < i ==> AllAgents()[j].name != name)
    {
      FindByName(AllAgents(), name)
    }
  }

  /** With unique ids, stopping an agent marks exactly that agent stopped, in
      place, and leaves every other agent as it was. */
  lemma StopKeepsOthers(agents: seq<AgentRecord>, name: string, stamp: string)
    requires UniqueIds(agents)
    requires FindByName(agents, name).Some?
    ensures var a := FindByName(agents, name).value;
      var r := Upsert(agents, a.(status := "stopped", endTime := Some(stamp)));
      && |r| == |agents|
      && (forall i :: 0 <= i < |agents| ==> r[i] == (if agents[i].id == a.id then a.(status := "stopped", endTime := Some(stamp)) else agents[i]))
      && UniqueIds(r)
  {
    var a := FindByName(agents, name).value;
    var s := a.(status := "stopped", endTime := Some(stamp));
    var i :| 0 <= i < |agents| && agents[i] == a;
    UpsertProperties(agents, s);
    var k := FindIdIndex(agents, s.id);
    assert k.Some?;
    assert k.value == i;
  }
}
