/**
 When a tool call, a retry or a server test is accepted, which error refuses it otherwise, and what an
 accepted one writes, said of the rows and the request alone.
 */
module ToolCallOutcomes {
  import opened Wrappers
  import opened ToolExecution

  /** What a call asks for. */
  datatype Request = Request(toolKey: string, callerType: string, user: Option<User>, inputValid: bool, now: int)

  function Asked(call: Call): Request {
    Request(call.toolKey, call.callerType, call.user, call.inputValid, call.clock.checked)
  }

  // ----- the guards -----

  predicate Known(db: Db, r: Request) {
    r.toolKey in db.tools && db.tools[r.toolKey].serverKey in db.servers
  }

  /** A signed-in user may manage integrations; a call without a user comes from the backend itself. */
  predicate Permitted(r: Request) {
    r.user.Some? ==> r.user.value.canManage
  }

  predicate ValidCaller(r: Request) {
    r.callerType == "workflow" || r.callerType == "agent" || r.callerType == "admin" || r.callerType == "system"
  }

  predicate Identified(r: Request) {
    r.callerType == "admin" ==> r.user.Some?
  }

  predicate Reachable(server: Server, now: int) {
    && server.status != Disabled
    && (server.circuitOpenUntil.Some? ==> server.circuitOpenUntil.value <= now)
    && (server.isCritical ==> server.status != Broken)
  }

  /** The tool answers this caller and its server can be reached. */
  predicate Runnable(db: Db, r: Request) {
    && Known(db, r) && Permitted(r) && ValidCaller(r) && Identified(r) && r.inputValid
    && var tool := db.tools[r.toolKey];
    tool.status == Enabled && r.callerType in tool.allowedCallers && Reachable(db.servers[tool.serverKey], r.now)
  }

  /** Which refusals are given when, guard by guard. */
  predicate RefusedAs(db: Db, r: Request, error: HttpError) {
    if !Known(db, r) then error == NotFound
    else
      var tool := db.tools[r.toolKey];
      match error
      case NotFound => false
      case Forbidden =>
        !Permitted(r) || (ValidCaller(r) && tool.status == Enabled && r.callerType !in tool.allowedCallers)
      case BadRequest => Permitted(r) && !ValidCaller(r)
      case Unauthorized =>
        r.callerType == "admin" && r.user.None? && tool.status == Enabled && "admin" in tool.allowedCallers
      case Conflict =>
        && Permitted(r) && ValidCaller(r)
        && (|| tool.status == ToolDisabled || tool.status == Deprecated
            || (&& r.callerType in tool.allowedCallers && Identified(r)
                && !Reachable(db.servers[tool.serverKey], r.now)))
      case Unprocessable => !r.inputValid && Runnable(db, r.(inputValid := true))
  }

  function Seeded(db: Db, defaults: seq<ServerDefault>): Db {
    db.(servers := SeedServers(db.servers, defaults))
  }

  lemma RefusalExactly(db: Db, call: Call)
    ensures Refusal(db, call).None? <==> Runnable(db, Asked(call))
    ensures forall e :: Refusal(db, call) == Some(e) <==> RefusedAs(db, Asked(call), e)
  {
  }

  /** A call is run exactly when every guard holds of the seeded rows, and a refused one is told which failed. */
  lemma RunExactly(db: Db, defaults: seq<ServerDefault>, call: Call, retryOf: Option<nat>)
    requires retryOf.Some? ==> retryOf.value < |db.runs|
    ensures var (after, result) := Execute(db, defaults, call, retryOf);
            && (result == Ok(|db.runs|) <==> Runnable(Seeded(db, defaults), Asked(call)))
            && (result.Ok? <==> Runnable(Seeded(db, defaults), Asked(call)))
            && (forall e :: result == Err(e) <==> RefusedAs(Seeded(db, defaults), Asked(call), e))
            && (result.Err? ==> after == db)
  {
    RefusalExactly(Seeded(db, defaults), call);
  }

  // ----- what an accepted call writes -----

  /** A policy's value, with the default for a missing one and never less than one. */
  function AtLeast(value: Option<int>, default: int): int {
    match value
    case None => default
    case Some(n) => if n < 1 then 1 else n
  }

  predicate SameServer(s: Server, t: Server) {
    s.key == t.key && s.adapterType == t.adapterType && s.isCritical == t.isCritical
  }

  predicate AfterAnswer(s: Server, t: Server, call: Call) {
    && SameServer(s, t)
    && t.failureCount == 0 && t.circuitOpenUntil == None
    && t.lastSuccessAt == Some(call.clock.completed)
    && t.lastTestedAt == (if call.connectionTest then Some(call.clock.completed) else s.lastTestedAt)
    && (s.status in {Broken, NotConfigured} ==> t.status == Healthy && t.failureReason == None)
    && (s.status !in {Broken, NotConfigured} ==> t.status == s.status && t.failureReason == s.failureReason)
  }

  predicate AfterFailure(s: Server, t: Server, policy: CircuitPolicy, reason: string, now: int) {
    && SameServer(s, t)
    && t.status == (if s.isCritical then Broken else Degraded) && t.failureReason == Some(reason)
    && t.failureCount == s.failureCount + 1
    && t.lastSuccessAt == s.lastSuccessAt && t.lastTestedAt == s.lastTestedAt
    && t.circuitOpenUntil ==
       if t.failureCount < AtLeast(policy.failureThreshold, 3) then s.circuitOpenUntil
       else Some(now + AtLeast(policy.cooldownSeconds, 300) * 1_000_000)
  }

  /** The run an accepted call records. */
  predicate Describes(run: Run, db: Db, call: Call, retryOf: Option<nat>)
    requires Known(db, Asked(call)) && (retryOf.Some? ==> retryOf.value < |db.runs|)
  {
    && run.serverKey == db.tools[call.toolKey].serverKey && run.toolKey == db.tools[call.toolKey].key
    && run.callerType == call.callerType && run.connectionTest == call.connectionTest
    && run.startedAt == call.clock.started && run.completedAt == call.clock.completed
    && (call.answer == Answered ==> run.status == Succeeded && run.error == None)
    && (call.answer.Raised? ==> run.status == Failed && run.error == Some(call.answer.reason))
    && run.retryOf == retryOf
    && run.attempt == if retryOf.Some? then db.runs[retryOf.value].attempt + 1 else 1
  }

  /** One call writes its run, its two audit entries and its server's row, and nothing else. */
  lemma RunWrites(db: Db, defaults: seq<ServerDefault>, call: Call, retryOf: Option<nat>)
    requires retryOf.Some? ==> retryOf.value < |db.runs|
    requires Runnable(Seeded(db, defaults), Asked(call))
    ensures var (seeded, after, id) := (Seeded(db, defaults), Execute(db, defaults, call, retryOf).0, |db.runs|);
            var (tool, key) := (db.tools[call.toolKey], db.tools[call.toolKey].serverKey);
            && after.tools == db.tools
            && |after.runs| == id + 1 && after.runs[..id] == db.runs
            && Describes(after.runs[id], seeded, call, retryOf)
            && after.audits == db.audits + [
                 Audit(id, key, ToolRunStarted),
                 Audit(id, key, if call.answer.Answered? then ToolRunCompleted else ToolRunFailed)]
            && after.servers.Keys == seeded.servers.Keys
            && (forall k <- seeded.servers | k != key :: after.servers[k] == seeded.servers[k])
            && match call.answer
               case Answered => AfterAnswer(seeded.servers[key], after.servers[key], call)
               case Raised(reason) =>
                 AfterFailure(seeded.servers[key], after.servers[key], tool.policy, reason, call.clock.counted)
  {
    RefusalExactly(Seeded(db, defaults), call);
  }

  // ----- seeded rows -----

  predicate RefreshedFrom(s: Server, t: Server, d: ServerDefault) {
    && t.key == s.key && t.adapterType == d.adapterType && t.isCritical == d.isCritical
    && t.failureCount == s.failureCount && t.circuitOpenUntil == s.circuitOpenUntil
    && t.lastSuccessAt == s.lastSuccessAt && t.lastTestedAt == s.lastTestedAt
    && var reset := s.status == NotConfigured
                    || (s.key == "llm" && d.adapterType == "gemini" && s.adapterType != "gemini");
    && (reset ==> t.status == d.status && t.failureReason == None)
    && (!reset ==> t.status == s.status && t.failureReason == s.failureReason)
  }

  predicate NewFrom(t: Server, d: ServerDefault) {
    && t.key == d.key && t.adapterType == d.adapterType && t.isCritical == d.isCritical && t.status == d.status
    && t.failureReason == None && t.failureCount == 0 && t.circuitOpenUntil == None
    && t.lastSuccessAt == None && t.lastTestedAt == None
  }

  lemma SeededFields(db: Db, defaults: seq<ServerDefault>, i: nat)
    requires DistinctDefaults(defaults) && i < |defaults|
    ensures var (d, seeded) := (defaults[i], Seeded(db, defaults).servers);
            && d.key in seeded
            && (d.key in db.servers ==> RefreshedFrom(db.servers[d.key], seeded[d.key], d))
            && (d.key !in db.servers ==> NewFrom(seeded[d.key], d))
  {
    SeededRow(db.servers, defaults, defaults[i].key);
    DefaultAt(defaults, i);
  }

  lemma {:induction false} DefaultAt(defaults: seq<ServerDefault>, i: nat)
    requires DistinctDefaults(defaults) && i < |defaults|
    ensures DefaultFor(defaults, defaults[i].key) == Some(defaults[i])
  {
    var init := defaults[..|defaults| - 1];
    if i < |init| {
      DefaultAt(init, i);
      assert init[i] == defaults[i];
    }
  }

  // ----- retries -----

  predicate Manager(user: Option<User>) {
    user.Some? && user.value.canManage
  }

  /** A retry asks again for what the original run asked for. */
  function AskedAgain(original: Run, call: Call): Request {
    Request(original.toolKey, original.callerType, call.user, call.inputValid, call.clock.checked)
  }

  lemma RetryExactly(db: Db, defaults: seq<ServerDefault>, runId: nat, call: Call)
    ensures var (after, result) := Retry(db, defaults, runId, call);
            && (result.Ok? <==> && Manager(call.user) && runId < |db.runs|
                                && Runnable(Seeded(db, defaults), AskedAgain(db.runs[runId], call)))
            && (result.Err? ==> after == db)
            && (!Manager(call.user) ==> result == Err(Forbidden))
            && (Manager(call.user) && runId >= |db.runs| ==> result == Err(NotFound))
            && (Manager(call.user) && runId < |db.runs| ==>
                  forall e :: result == Err(e) <==>
                              RefusedAs(Seeded(db, defaults), AskedAgain(db.runs[runId], call), e))
  {
    if Manager(call.user) && runId < |db.runs| {
      RunExactly(db, defaults, RetryCall(db.runs[runId], call), Some(runId));
    }
  }

  lemma RetryWrites(db: Db, defaults: seq<ServerDefault>, runId: nat, call: Call)
    requires Manager(call.user) && runId < |db.runs|
    requires Runnable(Seeded(db, defaults), AskedAgain(db.runs[runId], call))
    ensures var (original, after) := (db.runs[runId], Retry(db, defaults, runId, call).0);
            && |after.runs| == |db.runs| + 1 && after.runs[..|db.runs|] == db.runs
            && var run := after.runs[|db.runs|];
            && run.toolKey == db.tools[original.toolKey].key && run.callerType == original.callerType
            && run.connectionTest == original.connectionTest
            && run.retryOf == Some(runId) && run.attempt == original.attempt + 1
            && (run.status == Succeeded <==> call.answer.Answered?)
  {
    RunWrites(db, defaults, RetryCall(db.runs[runId], call), Some(runId));
  }

  // ----- server tests -----

  lemma HealthCheckTools(serverKey: string)
    ensures HealthCheckTool("research") == "research.list_enabled_sources"
    ensures HealthCheckTool("llm") == "llm.validate_output"
    ensures HealthCheckTool("storage") == "storage.get_signed_url"
    ensures serverKey !in {"research", "llm", "storage"} ==>
              HealthCheckTool(serverKey) == serverKey + ".test_connection"
  {
    if serverKey == "buffer" {
      assert "buffer" + ".test_connection" == "buffer.test_connection";
    }
  }

  /** A test calls the server's health check as an administrator. */
  function TestAsked(serverKey: string, call: Call): Request {
    Request(HealthCheckTool(serverKey), "admin", call.user, call.inputValid, call.clock.checked)
  }

  lemma TestExactly(db: Db, defaults: seq<ServerDefault>, serverKey: string, call: Call)
    ensures var ((after, result), seeded) := (Test(db, defaults, serverKey, call), Seeded(db, defaults));
            && (result.Ok? <==> && Manager(call.user) && Runnable(seeded, TestAsked(serverKey, call))
                                && serverKey in seeded.servers)
            && (result.Err? ==> after == db)
            && (!Manager(call.user) ==> result == Err(Forbidden))
            && (Manager(call.user) && !Runnable(seeded, TestAsked(serverKey, call)) ==>
                  forall e :: result == Err(e) <==> RefusedAs(seeded, TestAsked(serverKey, call), e))
            && (Manager(call.user) && Runnable(seeded, TestAsked(serverKey, call)) && result.Err? ==>
                  result == Err(NotFound))
  {
    var probe := HealthCheck(serverKey, call);
    assert Asked(probe) == TestAsked(serverKey, call);
    RunExactly(db, defaults, probe, None);
    if Runnable(Seeded(db, defaults), Asked(probe)) {
      RunWrites(db, defaults, probe, None);
    }
  }

  /** The server's row tells how its health check went. */
  predicate Verdict(server: Server, isCritical: bool, call: Call) {
    && server.lastTestedAt == Some(call.clock.counted) && server.isCritical == isCritical
    && match call.answer
       case Answered =>
         && server.status == Healthy && server.failureReason == None
         && server.lastSuccessAt == Some(call.clock.counted)
       case Raised(reason) =>
         server.status == (if isCritical then Broken else Degraded) && server.failureReason == Some(reason)
  }

  lemma TestVerdict(db: Db, defaults: seq<ServerDefault>, serverKey: string, call: Call)
    requires DistinctDefaults(defaults)
    requires Test(db, defaults, serverKey, call).1.Ok?
    ensures var (seeded, after) := (Seeded(db, defaults), Test(db, defaults, serverKey, call).0);
            && serverKey in seeded.servers && serverKey in after.servers
            && Verdict(after.servers[serverKey], seeded.servers[serverKey].isCritical, call)
  {
    TestExactly(db, defaults, serverKey, call);
    var probe := HealthCheck(serverKey, call);
    assert Asked(probe) == TestAsked(serverKey, call);
    RunWrites(db, defaults, probe, None);
    var tried := Execute(db, defaults, probe, None).0;
    JudgedVerdict(Seeded(db, defaults), tried, serverKey, call);
    KeptBySeeding(db.servers, JudgedDb(tried, serverKey, call).servers, defaults, serverKey, call);
  }

  lemma JudgedVerdict(seeded: Db, tried: Db, serverKey: string, call: Call)
    requires serverKey in seeded.servers && serverKey in tried.servers && tried.runs != []
    requires SameServer(seeded.servers[serverKey], tried.servers[serverKey])
    requires var run := tried.runs[|tried.runs| - 1];
             && (run.status == Succeeded <==> call.answer.Answered?)
             && (call.answer.Raised? ==> run.error == Some(call.answer.reason))
    ensures var judged := JudgedDb(tried, serverKey, call).servers;
            && serverKey in judged && SameServer(seeded.servers[serverKey], judged[serverKey])
            && Verdict(judged[serverKey], seeded.servers[serverKey].isCritical, call)
  {
  }

  /** A row that was seeded before the test is not reset by the seeding after it. */
  lemma KeptBySeeding(servers: map<string, Server>, judged: map<string, Server>, defaults: seq<ServerDefault>,
                      serverKey: string, call: Call)
    requires DistinctDefaults(defaults)
    requires var seeded := SeedServers(servers, defaults);
             && serverKey in seeded && serverKey in judged && SameServer(seeded[serverKey], judged[serverKey])
             && Verdict(judged[serverKey], seeded[serverKey].isCritical, call)
    ensures var seeded := SeedServers(servers, defaults);
            && serverKey in SeedServers(judged, defaults)
            && Verdict(SeedServers(judged, defaults)[serverKey], seeded[serverKey].isCritical, call)
  {
    SeededRow(servers, defaults, serverKey);
    SeededRow(judged, defaults, serverKey);
  }
}
