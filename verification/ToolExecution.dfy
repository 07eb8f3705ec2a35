/**
 MCP tool execution and its circuit breaker (backend/app/mcp/service.py, circuit_breaker.py).

 `Registry` holds the rows the services mutate. Each public operation is one transaction: a refused
 request leaves every row as it was. Clocks, the client's answer and schema checks are inputs.
 */
module ToolExecution {
  import opened Wrappers

  const SECOND := 1_000_000

  datatype ServerStatus = Healthy | Degraded | Broken | NotConfigured | Disabled
  datatype ToolStatus = Enabled | ToolDisabled | Deprecated
  datatype RunStatus = Succeeded | Failed
  datatype HttpError = NotFound | BadRequest | Unauthorized | Forbidden | Conflict | Unprocessable

  datatype Server = Server(key: string, adapterType: string, isCritical: bool, status: ServerStatus,
                           failureReason: Option<string>, failureCount: int, circuitOpenUntil: Option<int>,
                           lastSuccessAt: Option<int>, lastTestedAt: Option<int>)
  datatype ServerDefault = ServerDefault(key: string, adapterType: string, isCritical: bool, status: ServerStatus)

  datatype CircuitPolicy = CircuitPolicy(failureThreshold: Option<int>, cooldownSeconds: Option<int>)
  datatype Tool = Tool(key: string, serverKey: string, status: ToolStatus, allowedCallers: set<string>,
                       policy: CircuitPolicy)

  datatype Run = Run(serverKey: string, toolKey: string, callerType: string, connectionTest: bool,
                     status: RunStatus, error: Option<string>, retryOf: Option<nat>, attempt: nat,
                     startedAt: int, completedAt: int)
  datatype AuditAction = ToolRunStarted | ToolRunCompleted | ToolRunFailed
  datatype Audit = Audit(run: nat, serverKey: string, action: AuditAction)

  /** The moments the code reads the clock during one call. */
  datatype Clock = Clock(checked: int, started: int, completed: int, counted: int) {
    predicate Ordered() {
      checked <= started <= completed <= counted
    }
  }

  datatype User = User(canManage: bool)

  /** What the client does, including an answer the tool's output schema refuses. */
  datatype Answer = Answered | Raised(reason: string)

  datatype Call = Call(toolKey: string, callerType: string, user: Option<User>, inputValid: bool,
                       connectionTest: bool, clock: Clock, answer: Answer)

  datatype Db = Db(servers: map<string, Server>, tools: map<string, Tool>, runs: seq<Run>, audits: seq<Audit>)

  // ----- circuit breaker -----

  function AtLeastOne(n: int): (r: int)
    ensures r >= 1 && r >= n && (r == n || r == 1)
  {
    if n >= 1 then n else 1
  }

  function Threshold(policy: CircuitPolicy): int {
    AtLeastOne(if policy.failureThreshold.Some? then policy.failureThreshold.value else 3)
  }

  function Cooldown(policy: CircuitPolicy): int {
    AtLeastOne(if policy.cooldownSeconds.Some? then policy.cooldownSeconds.value else 300)
  }

  predicate CircuitIsOpen(server: Server, now: int) {
    server.circuitOpenUntil.Some? && server.circuitOpenUntil.value > now
  }

  predicate ServerAvailable(server: Server, now: int) {
    && server.status != Disabled
    && !CircuitIsOpen(server, now)
    && !(server.isCritical && server.status == Broken)
  }

  function CircuitFailure(server: Server, policy: CircuitPolicy, now: int): Server {
    var counted := server.(failureCount := server.failureCount + 1);
    if counted.failureCount >= Threshold(policy)
    then counted.(circuitOpenUntil := Some(now + Cooldown(policy) * SECOND))
    else counted
  }

  function CircuitSuccess(server: Server): Server {
    server.(failureCount := 0, circuitOpenUntil := None)
  }

  // ----- seeding of server rows -----

  /** The one-time change of the LLM server's adapter, which also resets its status. */
  predicate Migrates(server: Server, default: ServerDefault) {
    server.key == "llm" && default.adapterType == "gemini" && server.adapterType != "gemini"
  }

  function Refresh(server: Server, default: ServerDefault): Server {
    var updated := server.(adapterType := default.adapterType, isCritical := default.isCritical);
    if server.status == NotConfigured || Migrates(server, default)
    then updated.(status := default.status, failureReason := None)
    else updated
  }

  function SeedRow(default: ServerDefault): Server {
    Server(default.key, default.adapterType, default.isCritical, default.status, None, 0, None, None, None)
  }

  function SeedServers(servers: map<string, Server>, defaults: seq<ServerDefault>): map<string, Server> {
    if defaults == [] then servers
    else
      var done := SeedServers(servers, defaults[..|defaults| - 1]);
      var default := defaults[|defaults| - 1];
      done[default.key := if default.key in done then Refresh(done[default.key], default) else SeedRow(default)]
  }

  ghost predicate DistinctDefaults(defaults: seq<ServerDefault>) {
    forall i, j | 0 <= i < j < |defaults| :: defaults[i].key != defaults[j].key
  }

  function DefaultFor(defaults: seq<ServerDefault>, key: string): Option<ServerDefault> {
    if defaults == [] then None
    else if defaults[|defaults| - 1].key == key then Some(defaults[|defaults| - 1])
    else DefaultFor(defaults[..|defaults| - 1], key)
  }

  /** Row by row, seeding refreshes a known server once, inserts a missing one, and touches no other. */
  lemma {:induction false} SeededRow(servers: map<string, Server>, defaults: seq<ServerDefault>, key: string)
    requires DistinctDefaults(defaults)
    ensures var (after, default) := (SeedServers(servers, defaults), DefaultFor(defaults, key));
            && (key in after <==> key in servers || default.Some?)
            && (key in servers && default.None? ==> after[key] == servers[key])
            && (key in servers && default.Some? ==> after[key] == Refresh(servers[key], default.value))
            && (key !in servers && default.Some? ==> after[key] == SeedRow(default.value))
            && (default.Some? ==> default.value.key == key)
  {
    if defaults != [] {
      var init, last := defaults[..|defaults| - 1], defaults[|defaults| - 1];
      SeededRow(servers, init, key);
      if last.key == key {
        NoDefault(init, key);
      }
    }
  }

  lemma {:induction false} NoDefault(defaults: seq<ServerDefault>, key: string)
    requires forall i | 0 <= i < |defaults| :: defaults[i].key != key
    ensures DefaultFor(defaults, key).None?
  {
    if defaults != [] {
      NoDefault(defaults[..|defaults| - 1], key);
    }
  }

  // ----- one execution, on values -----

  const VALID_CALLERS := {"workflow", "agent", "admin", "system"}

  /** The checks before the client is reached, in order. */
  function Refusal(db: Db, call: Call): (r: Option<HttpError>)
    ensures r.None? ==> call.toolKey in db.tools && db.tools[call.toolKey].serverKey in db.servers
    ensures r.None? ==> ServerAvailable(db.servers[db.tools[call.toolKey].serverKey], call.clock.checked)
  {
    if call.toolKey !in db.tools then Some(NotFound)
    else
      var tool := db.tools[call.toolKey];
      if tool.serverKey !in db.servers then Some(NotFound)
      else if call.user.Some? && !call.user.value.canManage then Some(Forbidden)
      else if call.callerType !in VALID_CALLERS then Some(BadRequest)
      else if tool.status != Enabled then Some(Conflict)
      else if call.callerType !in tool.allowedCallers then Some(Forbidden)
      else if call.callerType == "admin" && call.user.None? then Some(Unauthorized)
      else if !ServerAvailable(db.servers[tool.serverKey], call.clock.checked) then Some(Conflict)
      else if !call.inputValid then Some(Unprocessable)
      else None
  }

  function Answering(server: Server, tool: Tool, call: Call): Server {
    match call.answer
    case Answered =>
      var seen := server.(lastSuccessAt := Some(call.clock.completed),
                          lastTestedAt := if call.connectionTest then Some(call.clock.completed)
                                          else server.lastTestedAt);
      var recovered := if seen.status == Broken || seen.status == NotConfigured
                       then seen.(status := Healthy, failureReason := None) else seen;
      CircuitSuccess(recovered)
    case Raised(reason) =>
      CircuitFailure(server.(failureReason := Some(reason), status := if server.isCritical then Broken else Degraded),
                     tool.policy, call.clock.counted)
  }

  function NewRun(db: Db, tool: Tool, call: Call, retryOf: Option<nat>): Run
    requires retryOf.Some? ==> retryOf.value < |db.runs|
  {
    Run(tool.serverKey, tool.key, call.callerType, call.connectionTest,
        if call.answer.Answered? then Succeeded else Failed,
        if call.answer.Answered? then None else Some(call.answer.reason),
        retryOf, if retryOf.Some? then db.runs[retryOf.value].attempt + 1 else 1,
        call.clock.started, call.clock.completed)
  }

  function AuditsOf(id: nat, run: Run): seq<Audit> {
    [Audit(id, run.serverKey, ToolRunStarted),
     Audit(id, run.serverKey, if run.status == Succeeded then ToolRunCompleted else ToolRunFailed)]
  }

  /** The rows after an admitted call. */
  function Record(db: Db, call: Call, retryOf: Option<nat>): Db
    requires Refusal(db, call).None?
    requires retryOf.Some? ==> retryOf.value < |db.runs|
  {
    var tool := db.tools[call.toolKey];
    var run := NewRun(db, tool, call, retryOf);
    db.(servers := db.servers[tool.serverKey := Answering(db.servers[tool.serverKey], tool, call)],
        runs := db.runs + [run],
        audits := db.audits + AuditsOf(|db.runs|, run))
  }

  /** `execute_tool`: the id of the recorded run, or the refusal with nothing changed. */
  function Execute(db: Db, defaults: seq<ServerDefault>, call: Call, retryOf: Option<nat>): (Db, Result<nat, HttpError>)
    requires retryOf.Some? ==> retryOf.value < |db.runs|
  {
    var seeded := db.(servers := SeedServers(db.servers, defaults));
    match Refusal(seeded, call)
    case Some(error) => (db, Err(error))
    case None => (Record(seeded, call, retryOf), Ok(|db.runs|))
  }

  function HealthCheckTool(serverKey: string): string {
    if serverKey == "buffer" then "buffer.test_connection"
    else if serverKey == "research" then "research.list_enabled_sources"
    else if serverKey == "llm" then "llm.validate_output"
    else if serverKey == "storage" then "storage.get_signed_url"
    else serverKey + ".test_connection"
  }

  /** `test_server`: one health-check execution, whose outcome then overwrites the server's status. */
  function Test(db: Db, defaults: seq<ServerDefault>, serverKey: string, call: Call): (Db, Result<nat, HttpError>) {
    if call.user.None? || !call.user.value.canManage then (db, Err(Forbidden))
    else
      var (tried, result) := Execute(db, defaults, HealthCheck(serverKey, call), None);
      if result.Err? then (db, result)
      else if serverKey !in tried.servers then (db, Err(NotFound))
      else
        var done := JudgedDb(tried, serverKey, call);
        (done.(servers := SeedServers(done.servers, defaults)), result)
  }

  function HealthCheck(serverKey: string, call: Call): Call {
    call.(toolKey := HealthCheckTool(serverKey), callerType := "admin", connectionTest := true)
  }

  function JudgedDb(tried: Db, serverKey: string, call: Call): Db
    requires serverKey in tried.servers && tried.runs != []
  {
    var server := tried.servers[serverKey].(lastTestedAt := Some(call.clock.counted));
    tried.(servers := tried.servers[serverKey := Judged(server, tried.runs[|tried.runs| - 1], call)])
  }

  function Judged(server: Server, run: Run, call: Call): Server {
    if run.status == Succeeded
    then server.(status := Healthy, failureReason := None, lastSuccessAt := Some(call.clock.counted))
    else server.(status := if server.isCritical then Broken else Degraded, failureReason := run.error)
  }

  /** `retry_run`: the original's tool and caller, attempt number one higher. */
  function Retry(db: Db, defaults: seq<ServerDefault>, runId: nat, call: Call): (Db, Result<nat, HttpError>) {
    if call.user.None? || !call.user.value.canManage then (db, Err(Forbidden))
    else if runId >= |db.runs| then (db, Err(NotFound))
    else
      Execute(db, defaults, RetryCall(db.runs[runId], call), Some(runId))
  }

  function RetryCall(original: Run, call: Call): Call {
    call.(toolKey := original.toolKey, callerType := original.callerType, connectionTest := original.connectionTest)
  }

  // ----- the services, on the rows -----

  class Registry {
    var servers: map<string, Server>
    var tools: map<string, Tool>
    var runs: seq<Run>
    var audits: seq<Audit>

    ghost function Rows(): Db
      reads this
    {
      Db(servers, tools, runs, audits)
    }

    constructor (tools: map<string, Tool>)
      ensures Rows() == Db(map[], tools, [], [])
    {
      this.servers, this.tools, this.runs, this.audits := map[], tools, [], [];
    }

    method EnsureDefaults(defaults: seq<ServerDefault>)
      modifies this
      ensures Rows() == old(Rows()).(servers := SeedServers(old(servers), defaults))
    {
      for i := 0 to |defaults|
        invariant Rows() == old(Rows()).(servers := SeedServers(old(servers), defaults[..i]))
      {
        var default := defaults[i];
        assert defaults[..i + 1][..i] == defaults[..i];
        if default.key !in servers {
          servers := servers[default.key := SeedRow(default)];
        } else {
          var server := servers[default.key];
          var migrates := Migrates(server, default);
          var status := server.status;
          server := server.(adapterType := default.adapterType, isCritical := default.isCritical);
          if status == NotConfigured || migrates {
            server := server.(status := default.status, failureReason := None);
          }
          servers := servers[default.key := server];
        }
      }
      assert defaults[..|defaults|] == defaults;
    }

    method ExecuteTool(defaults: seq<ServerDefault>, call: Call, retryOf: Option<nat>)
      returns (result: Result<nat, HttpError>)
      requires retryOf.Some? ==> retryOf.value < |runs|
      modifies this
      ensures (Rows(), result) == Execute(old(Rows()), defaults, call, retryOf)
    {
      var committed := servers;
      EnsureDefaults(defaults);
      var refusal := Refusal(Db(servers, tools, runs, audits), call);
      if refusal.Some? {
        servers := committed;
        return Err(refusal.value);
      }
      var tool := tools[call.toolKey];
      var attempt := 1;
      if retryOf.Some? {
        attempt := runs[retryOf.value].attempt + 1;
      }
      var id := |runs|;
      audits := audits + [Audit(id, tool.serverKey, ToolRunStarted)];
      match call.answer {
        case Answered =>
          runs := runs + [Run(tool.serverKey, tool.key, call.callerType, call.connectionTest, Succeeded, None, retryOf,
                              attempt, call.clock.started, call.clock.completed)];
          audits := audits + [Audit(id, tool.serverKey, ToolRunCompleted)];
        case Raised(reason) =>
          runs := runs + [Run(tool.serverKey, tool.key, call.callerType, call.connectionTest, Failed, Some(reason),
                              retryOf, attempt, call.clock.started, call.clock.completed)];
          audits := audits + [Audit(id, tool.serverKey, ToolRunFailed)];
      }
      assert audits == old(audits) + AuditsOf(id, runs[id]);
      RecordAnswer(tool, call);
      result := Ok(id);
    }

    /** The server row after the client answered or raised, with the circuit breaker's part. */
    method RecordAnswer(tool: Tool, call: Call)
      requires tool.serverKey in servers
      modifies this`servers
      ensures servers == old(servers)[tool.serverKey := Answering(old(servers[tool.serverKey]), tool, call)]
    {
      var server := servers[tool.serverKey];
      match call.answer {
        case Answered =>
          server := server.(lastSuccessAt := Some(call.clock.completed));
          if call.connectionTest {
            server := server.(lastTestedAt := Some(call.clock.completed));
          }
          if server.status == Broken || server.status == NotConfigured {
            server := server.(status := Healthy, failureReason := None);
          }
          server := server.(failureCount := 0, circuitOpenUntil := None);
        case Raised(reason) =>
          server := server.(failureReason := Some(reason));
          if server.isCritical {
            server := server.(status := Broken);
          } else {
            server := server.(status := Degraded);
          }
          server := server.(failureCount := server.failureCount + 1);
          if server.failureCount >= Threshold(tool.policy) {
            server := server.(circuitOpenUntil := Some(call.clock.counted + Cooldown(tool.policy) * SECOND));
          }
      }
      servers := servers[tool.serverKey := server];
    }

    method TestServer(defaults: seq<ServerDefault>, serverKey: string, call: Call)
      returns (result: Result<nat, HttpError>)
      modifies this
      ensures (Rows(), result) == Test(old(Rows()), defaults, serverKey, call)
    {
      if call.user.None? || !call.user.value.canManage {
        return Err(Forbidden);
      }
      var committedServers, committedRuns, committedAudits := servers, runs, audits;
      result := ExecuteTool(defaults,
                            call.(toolKey := HealthCheckTool(serverKey), callerType := "admin", connectionTest := true),
                            None);
      if result.Err? {
        return;
      }
      if serverKey !in servers {
        servers, runs, audits := committedServers, committedRuns, committedAudits;
        return Err(NotFound);
      }
      var server := servers[serverKey].(lastTestedAt := Some(call.clock.counted));
      if runs[result.value].status == Succeeded {
        server := server.(status := Healthy, failureReason := None, lastSuccessAt := Some(call.clock.counted));
      } else {
        server := server.(status := if server.isCritical then Broken else Degraded,
                          failureReason := runs[result.value].error);
      }
      servers := servers[serverKey := server];
      EnsureDefaults(defaults);
    }

    method RetryRun(defaults: seq<ServerDefault>, runId: nat, call: Call) returns (result: Result<nat, HttpError>)
      modifies this
      ensures (Rows(), result) == Retry(old(Rows()), defaults, runId, call)
    {
      if call.user.None? || !call.user.value.canManage {
        return Err(Forbidden);
      }
      if runId >= |runs| {
        return Err(NotFound);
      }
      var original := runs[runId];
      result := ExecuteTool(defaults,
                            call.(toolKey := original.toolKey, callerType := original.callerType,
                                  connectionTest := original.connectionTest),
                            Some(runId));
    }
  }
}
