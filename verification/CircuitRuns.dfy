/** What holds over every run of tool executions, server tests and retries. */
module CircuitRuns {
  import opened Wrappers
  import opened ToolExecution

  // ----- steps and their runs -----

  datatype Step =
    | Seed
    | ExecuteTool(call: Call)
    | TestServer(serverKey: string, call: Call)
    | RetryRun(runId: nat, call: Call)

  function Apply(db: Db, defaults: seq<ServerDefault>, step: Step): Db {
    match step
    case Seed => db.(servers := SeedServers(db.servers, defaults))
    case ExecuteTool(call) => Execute(db, defaults, call, None).0
    case TestServer(serverKey, call) => Test(db, defaults, serverKey, call).0
    case RetryRun(runId, call) => Retry(db, defaults, runId, call).0
  }

  function After(db: Db, defaults: seq<ServerDefault>, steps: seq<Step>): Db {
    if steps == [] then db
    else Apply(After(db, defaults, steps[..|steps| - 1]), defaults, steps[|steps| - 1])
  }

  function Initial(tools: map<string, Tool>): Db {
    Db(map[], tools, [], [])
  }

  /** Calls are sequential: each starts once the previous one has ended. */
  predicate Timed(steps: seq<Step>) {
    steps == [] ||
    (var last := steps[|steps| - 1];
     && Timed(steps[..|steps| - 1])
     && (last.Seed? || (last.call.clock.Ordered() && Ended(steps[..|steps| - 1]) <= last.call.clock.checked)))
  }

  function Ended(steps: seq<Step>): int {
    if steps == [] then 0
    else
      var last := steps[|steps| - 1];
      if last.Seed? then Ended(steps[..|steps| - 1]) else last.call.clock.counted
  }

  // ----- the recorded runs of one server -----

  function ServerRuns(runs: seq<Run>, key: string): seq<Run> {
    if runs == [] then []
    else
      var init := ServerRuns(runs[..|runs| - 1], key);
      if runs[|runs| - 1].serverKey == key then init + [runs[|runs| - 1]] else init
  }

  /** Failures since the last success. */
  function Streak(runs: seq<Run>): nat {
    if runs == [] || runs[|runs| - 1].status == Succeeded then 0 else 1 + Streak(runs[..|runs| - 1])
  }

  lemma ServerRunsAppend(runs: seq<Run>, run: Run, key: string)
    ensures ServerRuns(runs + [run], key) == ServerRuns(runs, key) + if run.serverKey == key then [run] else []
  {
    assert (runs + [run])[..|runs|] == runs;
  }

  lemma StreakAppend(runs: seq<Run>, run: Run)
    ensures Streak(runs + [run]) == if run.status == Succeeded then 0 else Streak(runs) + 1
  {
    assert (runs + [run])[..|runs|] == runs;
  }

  function AllAudits(runs: seq<Run>): seq<Audit> {
    if runs == [] then [] else AllAudits(runs[..|runs| - 1]) + AuditsOf(|runs| - 1, runs[|runs| - 1])
  }

  // ----- the invariant, row by row -----

  predicate Critical(server: Server, default: Option<ServerDefault>) {
    if default.Some? then default.value.isCritical else server.isCritical
  }

  /** No seeding will reset this server's status by changing its adapter. */
  predicate Settled(server: Server, default: Option<ServerDefault>) {
    default.Some? ==> !Migrates(server, default.value)
  }

  predicate EndsFailed(runs: seq<Run>) {
    runs != [] && runs[|runs| - 1].status == Failed
  }

  ghost predicate RowInv(server: Server, runs: seq<Run>, default: Option<ServerDefault>) {
    // `failure_count` is the number of failed calls since the last successful one
    && server.failureCount == Streak(runs)
    // on a critical server all calls but the last succeeded, and a failed last call broke it for good
    && (Critical(server, default) ==>
          && (forall i | 0 <= i < |runs| - 1 :: runs[i].status == Succeeded)
          && (EndsFailed(runs) ==> server.status == Broken && Settled(server, default)))
  }

  ghost predicate RowHolds(db: Db, defaults: seq<ServerDefault>, k: string) {
    && k in db.servers && db.servers[k].key == k
    && RowInv(db.servers[k], ServerRuns(db.runs, k), DefaultFor(defaults, k))
  }

  ghost predicate RunsHaveServers(db: Db) {
    forall i | 0 <= i < |db.runs| :: db.runs[i].serverKey in db.servers
  }

  ghost predicate RowsInv(db: Db, defaults: seq<ServerDefault>) {
    (forall k <- db.servers :: RowHolds(db, defaults, k)) && RunsHaveServers(db)
  }

  /** Each run left exactly its start entry and its matching end entry, in order. */
  ghost predicate FullyAudited(db: Db) {
    db.audits == AllAudits(db.runs)
  }

  /** A retry's attempt number counts the runs it descends from. */
  ghost predicate AttemptsNumbered(runs: seq<Run>) {
    forall i | 0 <= i < |runs| ::
      if runs[i].retryOf.None? then runs[i].attempt == 1
      else runs[i].retryOf.value < i && runs[i].attempt == runs[runs[i].retryOf.value].attempt + 1
  }

  /** Health-check tools belong to the server they test, as the seeded tool table has it. */
  ghost predicate OwnHealthChecks(tools: map<string, Tool>) {
    && (forall k <- tools :: tools[k].key == k)
    && forall s :: HealthCheckTool(s) in tools ==> tools[HealthCheckTool(s)].serverKey == s
  }

  ghost predicate Inv(db: Db, defaults: seq<ServerDefault>) {
    RowsInv(db, defaults) && FullyAudited(db) && AttemptsNumbered(db.runs) && OwnHealthChecks(db.tools)
  }

  /** Every row is as the code constants say, so no later seeding changes its status. */
  ghost predicate Seeded(db: Db, defaults: seq<ServerDefault>) {
    forall k <- db.servers :: SeededAt(db, defaults, k)
  }

  predicate SeededAt(db: Db, defaults: seq<ServerDefault>, k: string) {
    k in db.servers && SeededRowOf(db.servers[k], DefaultFor(defaults, k))
  }

  predicate SeededRowOf(server: Server, default: Option<ServerDefault>) {
    Settled(server, default) && server.isCritical == Critical(server, default)
  }

  lemma RefreshKeeps(server: Server, runs: seq<Run>, default: ServerDefault)
    requires RowInv(server, runs, Some(default))
    ensures RowInv(Refresh(server, default), runs, Some(default))
    ensures SeededRowOf(Refresh(server, default), Some(default))
  {
  }

  lemma SeedKeepsRows(db: Db, defaults: seq<ServerDefault>)
    requires DistinctDefaults(defaults) && RowsInv(db, defaults)
    ensures RowsInv(Apply(db, defaults, Seed), defaults)
    ensures Seeded(Apply(db, defaults, Seed), defaults)
    ensures db.servers.Keys <= Apply(db, defaults, Seed).servers.Keys
  {
    var seeded := Apply(db, defaults, Seed);
    forall k ensures k in db.servers ==> k in seeded.servers {
      SeededRow(db.servers, defaults, k);
    }
    forall k <- seeded.servers
      ensures RowHolds(seeded, defaults, k) && SeededAt(seeded, defaults, k)
    {
      SeededRow(db.servers, defaults, k);
      var default := DefaultFor(defaults, k);
      if k !in db.servers {
        NoRuns(db, db.runs, k);
      } else if default.Some? {
        RefreshKeeps(db.servers[k], ServerRuns(db.runs, k), default.value);
      }
    }
  }

  lemma {:induction false} NoRuns(db: Db, runs: seq<Run>, k: string)
    requires k !in db.servers
    requires forall i | 0 <= i < |runs| :: runs[i].serverKey in db.servers
    ensures ServerRuns(runs, k) == []
  {
    if runs != [] {
      NoRuns(db, runs[..|runs| - 1], k);
    }
  }

  lemma AnswerKeeps(server: Server, runs: seq<Run>, default: Option<ServerDefault>, tool: Tool, call: Call, run: Run)
    requires RowInv(server, runs, default) && SeededRowOf(server, default)
    requires ServerAvailable(server, call.clock.checked)
    requires run.status == if call.answer.Answered? then Succeeded else Failed
    ensures RowInv(Answering(server, tool, call), runs + [run], default)
    ensures SeededRowOf(Answering(server, tool, call), default)
    ensures Answering(server, tool, call).key == server.key
  {
    StreakAppend(runs, run);
  }

  lemma RecordKeepsRow(db: Db, defaults: seq<ServerDefault>, call: Call, retryOf: Option<nat>, k: string)
    requires Refusal(db, call).None? && (retryOf.Some? ==> retryOf.value < |db.runs|)
    requires RowHolds(db, defaults, k) && SeededAt(db, defaults, k)
    ensures RowHolds(Record(db, call, retryOf), defaults, k) && SeededAt(Record(db, call, retryOf), defaults, k)
  {
    var tool := db.tools[call.toolKey];
    var run := NewRun(db, tool, call, retryOf);
    ServerRunsAppend(db.runs, run, k);
    if k == tool.serverKey {
      AnswerKeeps(db.servers[k], ServerRuns(db.runs, k), DefaultFor(defaults, k), tool, call, run);
    }
  }

  lemma RecordKeepsRows(db: Db, defaults: seq<ServerDefault>, call: Call, retryOf: Option<nat>)
    requires RowsInv(db, defaults) && Seeded(db, defaults)
    requires Refusal(db, call).None? && (retryOf.Some? ==> retryOf.value < |db.runs|)
    ensures RowsInv(Record(db, call, retryOf), defaults) && Seeded(Record(db, call, retryOf), defaults)
  {
    var after := Record(db, call, retryOf);
    assert after.servers.Keys == db.servers.Keys;
    assert RunsHaveServers(after) by {
      assert forall i | 0 <= i < |db.runs| :: after.runs[i] == db.runs[i];
    }
    forall k <- after.servers ensures RowHolds(after, defaults, k) && SeededAt(after, defaults, k) {
      RecordKeepsRow(db, defaults, call, retryOf, k);
    }
  }

  lemma RecordKeepsTables(db: Db, call: Call, retryOf: Option<nat>)
    requires FullyAudited(db) && AttemptsNumbered(db.runs)
    requires Refusal(db, call).None? && (retryOf.Some? ==> retryOf.value < |db.runs|)
    ensures FullyAudited(Record(db, call, retryOf)) && AttemptsNumbered(Record(db, call, retryOf).runs)
  {
    assert Record(db, call, retryOf).runs[..|db.runs|] == db.runs;
  }

  lemma ExecuteKeepsInv(db: Db, defaults: seq<ServerDefault>, call: Call, retryOf: Option<nat>)
    requires DistinctDefaults(defaults) && Inv(db, defaults)
    requires retryOf.Some? ==> retryOf.value < |db.runs|
    ensures var (after, result) := Execute(db, defaults, call, retryOf);
            Inv(after, defaults) && (result.Ok? ==> Seeded(after, defaults))
  {
    var seeded := Apply(db, defaults, Seed);
    SeedKeepsRows(db, defaults);
    if Refusal(seeded, call).None? {
      RecordKeepsRows(seeded, defaults, call, retryOf);
      RecordKeepsTables(seeded, call, retryOf);
    }
  }

  lemma JudgeKeepsRows(tried: Db, defaults: seq<ServerDefault>, serverKey: string, call: Call)
    requires RowsInv(tried, defaults) && Seeded(tried, defaults) && serverKey in tried.servers
    requires tried.runs != [] && tried.runs[|tried.runs| - 1].serverKey == serverKey
    ensures RowsInv(JudgedDb(tried, serverKey, call), defaults)
  {
    var earlier, run := tried.runs[..|tried.runs| - 1], tried.runs[|tried.runs| - 1];
    assert tried.runs == earlier + [run];
    ServerRunsAppend(earlier, run, serverKey);
    StreakAppend(ServerRuns(earlier, serverKey), run);
    var judged := JudgedDb(tried, serverKey, call);
    forall k <- judged.servers ensures RowHolds(judged, defaults, k) {
      assert RowHolds(tried, defaults, k) && SeededAt(tried, defaults, k);
    }
  }

  lemma TestKeepsInv(db: Db, defaults: seq<ServerDefault>, serverKey: string, call: Call)
    requires DistinctDefaults(defaults) && Inv(db, defaults)
    ensures Inv(Test(db, defaults, serverKey, call).0, defaults)
  {
    var check := HealthCheck(serverKey, call);
    ExecuteKeepsInv(db, defaults, check, None);
    var (tried, executed) := Execute(db, defaults, check, None);
    var (after, result) := Test(db, defaults, serverKey, call);
    if result.Ok? {
      assert tried.runs[|db.runs|].serverKey == serverKey;
      JudgeKeepsRows(tried, defaults, serverKey, call);
      SeedKeepsRows(JudgedDb(tried, serverKey, call), defaults);
      assert after == Apply(JudgedDb(tried, serverKey, call), defaults, Seed);
    }
  }

  lemma StepKeepsInv(db: Db, defaults: seq<ServerDefault>, step: Step)
    requires DistinctDefaults(defaults) && Inv(db, defaults)
    ensures Inv(Apply(db, defaults, step), defaults)
  {
    match step
    case Seed => SeedKeepsRows(db, defaults);
    case ExecuteTool(call) => ExecuteKeepsInv(db, defaults, call, None);
    case TestServer(serverKey, call) => TestKeepsInv(db, defaults, serverKey, call);
    case RetryRun(runId, call) =>
      if runId < |db.runs| {
        ExecuteKeepsInv(db, defaults, RetryCall(db.runs[runId], call), Some(runId));
      }
  }

  /** The invariant holds after every run of seedings, executions, tests and retries. */
  lemma {:induction false} ReachableInv(tools: map<string, Tool>, defaults: seq<ServerDefault>, steps: seq<Step>)
    requires DistinctDefaults(defaults) && OwnHealthChecks(tools)
    ensures Inv(After(Initial(tools), defaults, steps), defaults)
  {
    if steps != [] {
      ReachableInv(tools, defaults, steps[..|steps| - 1]);
      StepKeepsInv(After(Initial(tools), defaults, steps[..|steps| - 1]), defaults, steps[|steps| - 1]);
    }
  }

  /** In every run, the calls made to a critical server succeed up to at most one failure, the last call. */
  lemma CriticalServerStops(tools: map<string, Tool>, defaults: seq<ServerDefault>, steps: seq<Step>, key: string,
                            i: nat)
    requires DistinctDefaults(defaults) && OwnHealthChecks(tools)
    requires var db := After(Initial(tools), defaults, steps);
             && key in db.servers && Critical(db.servers[key], DefaultFor(defaults, key))
             && i < |ServerRuns(db.runs, key)| && ServerRuns(db.runs, key)[i].status == Failed
    ensures i == |ServerRuns(After(Initial(tools), defaults, steps).runs, key)| - 1
    ensures After(Initial(tools), defaults, steps).servers[key].status == Broken
  {
    ReachableInv(tools, defaults, steps);
  }

  // ----- when a broken critical server is absorbing, from any state -----

  /** What seeding may still reset the row to is no better. */
  predicate Final(server: Server, default: Option<ServerDefault>) {
    Settled(server, default) || default.value.status in {Broken, Disabled}
  }

  ghost predicate Gone(db: Db, defaults: seq<ServerDefault>, key: string) {
    && key in db.servers && db.servers[key].key == key && db.servers[key].status in {Broken, Disabled}
    && Critical(db.servers[key], DefaultFor(defaults, key)) && Final(db.servers[key], DefaultFor(defaults, key))
  }

  ghost predicate SettledBroken(db: Db, defaults: seq<ServerDefault>, key: string) {
    key in db.servers && db.servers[key].status == Broken && Settled(db.servers[key], DefaultFor(defaults, key))
  }

  /** No call to the server will find it available: each call seeds the rows first. */
  ghost predicate Unavailable(db: Db, defaults: seq<ServerDefault>, key: string) {
    var seeded := SeedServers(db.servers, defaults);
    key in seeded && forall now :: !ServerAvailable(seeded[key], now)
  }

  ghost predicate UnavailableAfter(db: Db, defaults: seq<ServerDefault>, steps: seq<Step>, key: string) {
    Unavailable(After(db, defaults, steps), defaults, key)
  }

  lemma SeedKeepsGone(db: Db, defaults: seq<ServerDefault>, key: string)
    requires DistinctDefaults(defaults) && Gone(db, defaults, key)
    ensures Gone(Apply(db, defaults, Seed), defaults, key) && Unavailable(db, defaults, key)
    ensures SettledBroken(db, defaults, key) ==> SettledBroken(Apply(db, defaults, Seed), defaults, key)
  {
    SeededRow(db.servers, defaults, key);
  }

  lemma ExecuteKeepsGone(db: Db, defaults: seq<ServerDefault>, call: Call, retryOf: Option<nat>, key: string)
    requires DistinctDefaults(defaults) && Gone(db, defaults, key) && (retryOf.Some? ==> retryOf.value < |db.runs|)
    ensures var (after, result) := Execute(db, defaults, call, retryOf);
            && Gone(after, defaults, key) && ServerRuns(after.runs, key) == ServerRuns(db.runs, key)
            && after.tools == db.tools && (SettledBroken(db, defaults, key) ==> SettledBroken(after, defaults, key))
            && (result.Ok? ==> call.toolKey in db.tools && db.tools[call.toolKey].serverKey != key)
  {
    var seeded := Apply(db, defaults, Seed);
    SeedKeepsGone(db, defaults, key);
    if Refusal(seeded, call).None? {
      ServerRunsAppend(db.runs, NewRun(seeded, seeded.tools[call.toolKey], call, retryOf), key);
    }
  }

  lemma TestKeepsGone(db: Db, defaults: seq<ServerDefault>, serverKey: string, call: Call, key: string)
    requires DistinctDefaults(defaults) && OwnHealthChecks(db.tools) && Gone(db, defaults, key)
    ensures var (after, result) := Test(db, defaults, serverKey, call);
            && Gone(after, defaults, key) && ServerRuns(after.runs, key) == ServerRuns(db.runs, key)
            && after.tools == db.tools && (SettledBroken(db, defaults, key) ==> SettledBroken(after, defaults, key))
            && (serverKey == key ==> result.Err? && after == db)
  {
    var check := HealthCheck(serverKey, call);
    ExecuteKeepsGone(db, defaults, check, None, key);
    var (tried, executed) := Execute(db, defaults, check, None);
    if Test(db, defaults, serverKey, call).1.Ok? {
      SeedKeepsGone(JudgedDb(tried, serverKey, call), defaults, key);
    }
  }

  lemma StepKeepsGone(db: Db, defaults: seq<ServerDefault>, step: Step, key: string)
    requires DistinctDefaults(defaults) && OwnHealthChecks(db.tools) && Gone(db, defaults, key)
    ensures var after := Apply(db, defaults, step);
            && Gone(after, defaults, key) && ServerRuns(after.runs, key) == ServerRuns(db.runs, key)
            && after.tools == db.tools && (SettledBroken(db, defaults, key) ==> SettledBroken(after, defaults, key))
  {
    match step
    case Seed => SeedKeepsGone(db, defaults, key);
    case ExecuteTool(call) => ExecuteKeepsGone(db, defaults, call, None, key);
    case TestServer(serverKey, call) => TestKeepsGone(db, defaults, serverKey, call, key);
    case RetryRun(runId, call) =>
      if runId < |db.runs| {
        ExecuteKeepsGone(db, defaults, RetryCall(db.runs[runId], call), Some(runId), key);
      }
  }

  /** Through any later steps the server stays broken and no call to it is ever recorded. */
  lemma {:induction false} BrokenStays(db: Db, defaults: seq<ServerDefault>, steps: seq<Step>, key: string)
    requires DistinctDefaults(defaults) && OwnHealthChecks(db.tools) && Gone(db, defaults, key)
    ensures var after := After(db, defaults, steps);
            && Gone(after, defaults, key) && Unavailable(after, defaults, key) && after.tools == db.tools
            && ServerRuns(after.runs, key) == ServerRuns(db.runs, key)
            && (SettledBroken(db, defaults, key) ==> SettledBroken(after, defaults, key))
  {
    if steps != [] {
      BrokenStays(db, defaults, steps[..|steps| - 1], key);
      StepKeepsGone(After(db, defaults, steps[..|steps| - 1]), defaults, steps[|steps| - 1], key);
    }
    SeedKeepsGone(After(db, defaults, steps), defaults, key);
  }

  /**
   A broken critical server is unavailable after every sequence of seedings, calls, tests and retries exactly when
   seeding will not reset it to something better: the one row seeding resets is the LLM server's, on its first
   contact with its new adapter.
   */
  lemma BrokenAbsorbs(db: Db, defaults: seq<ServerDefault>, key: string)
    requires DistinctDefaults(defaults) && OwnHealthChecks(db.tools)
    requires key in db.servers && db.servers[key].key == key && db.servers[key].status == Broken
    requires Critical(db.servers[key], DefaultFor(defaults, key))
    ensures (forall steps :: UnavailableAfter(db, defaults, steps, key)) <==>
            Final(db.servers[key], DefaultFor(defaults, key))
  {
    if Final(db.servers[key], DefaultFor(defaults, key)) {
      forall steps ensures UnavailableAfter(db, defaults, steps, key) {
        BrokenStays(db, defaults, steps, key);
      }
    } else {
      SeededRow(db.servers, defaults, key);
      var server := SeedServers(db.servers, defaults)[key];
      assert ServerAvailable(server, if server.circuitOpenUntil.Some? then server.circuitOpenUntil.value else 0);
      assert !UnavailableAfter(db, defaults, [], key);
    }
  }

  /** From then on, whatever has happened since, every call, retry and test of it is refused and changes nothing. */
  lemma BrokenRefusesCalls(db: Db, defaults: seq<ServerDefault>, steps: seq<Step>, key: string, call: Call,
                           retryOf: Option<nat>)
    requires DistinctDefaults(defaults) && OwnHealthChecks(db.tools) && Gone(db, defaults, key)
    requires retryOf.Some? ==> retryOf.value < |After(db, defaults, steps).runs|
    ensures var now := After(db, defaults, steps);
            && (call.toolKey in db.tools && db.tools[call.toolKey].serverKey == key ==>
                  Execute(now, defaults, call, retryOf).0 == now && Execute(now, defaults, call, retryOf).1.Err?)
            && Test(now, defaults, key, call).0 == now && Test(now, defaults, key, call).1.Err?
  {
    BrokenStays(db, defaults, steps, key);
    ExecuteKeepsGone(After(db, defaults, steps), defaults, call, retryOf, key);
    TestKeepsGone(After(db, defaults, steps), defaults, key, call, key);
  }

  /** The exception exists: an LLM row from before the adapter change is broken, yet takes the next call. */
  lemma BrokenLlmRowRecovers()
    ensures var row := Server("llm", "openai", true, Broken, Some("offline"), 1, None, None, None);
            var default := ServerDefault("llm", "gemini", true, Healthy);
            !ServerAvailable(row, 0) && ServerAvailable(SeedServers(map["llm" := row], [default])["llm"], 0)
  {
    var row := Server("llm", "openai", true, Broken, Some("offline"), 1, None, None, None);
    var default := ServerDefault("llm", "gemini", true, Healthy);
    assert [default][..0] == [];
    assert SeedServers(map["llm" := row], [default])["llm"] == Refresh(row, default);
  }

  // ----- pacing: how fast failures can come -----

  /** Tools of this server open the circuit after at most k failures, for at least c seconds. */
  ghost predicate Policies(tools: map<string, Tool>, key: string, k: nat, c: nat) {
    forall t <- tools | tools[t].serverKey == key :: Threshold(tools[t].policy) <= k && Cooldown(tools[t].policy) >= c
  }

  /** Calls follow one another, and after k or more failures in a row the next one waits c seconds. */
  ghost predicate Paced(runs: seq<Run>, k: nat, c: nat) {
    forall i | 0 <= i < |runs| - 1 :: PacedAt(runs, k, c, i)
  }

  predicate PacedAt(runs: seq<Run>, k: nat, c: nat, i: nat)
    requires i < |runs| - 1
  {
    && runs[i].completedAt <= runs[i + 1].startedAt
    && (Streak(runs[..i + 1]) >= k ==> runs[i].completedAt + c * SECOND <= runs[i + 1].startedAt)
  }

  ghost predicate PaceInv(db: Db, key: string, k: nat, c: nat, now: int) {
    var runs := ServerRuns(db.runs, key);
    && Paced(runs, k, c)
    && (runs != [] ==> key in db.servers && Waiting(db.servers[key], runs, k, c, now))
  }

  predicate Waiting(server: Server, runs: seq<Run>, k: nat, c: nat, now: int)
    requires runs != []
  {
    var ended := runs[|runs| - 1].completedAt;
    && ended <= now
    && (Streak(runs) >= k ==>
          server.circuitOpenUntil.Some? && ended + c * SECOND <= server.circuitOpenUntil.value)
  }

  lemma PacedAppend(runs: seq<Run>, run: Run, k: nat, c: nat)
    requires Paced(runs, k, c)
    requires runs != [] ==> runs[|runs| - 1].completedAt <= run.startedAt
    requires runs != [] && Streak(runs) >= k ==> runs[|runs| - 1].completedAt + c * SECOND <= run.startedAt
    ensures Paced(runs + [run], k, c)
  {
    var longer := runs + [run];
    forall i | 0 <= i < |longer| - 1 ensures PacedAt(longer, k, c, i) {
      assert longer[..i + 1] == runs[..i + 1];
      if i < |runs| - 1 {
        assert PacedAt(runs, k, c, i);
      } else {
        assert runs[..i + 1] == runs;
      }
    }
  }

  lemma SeedKeepsPace(db: Db, defaults: seq<ServerDefault>, key: string, k: nat, c: nat, now: int)
    requires DistinctDefaults(defaults) && PaceInv(db, key, k, c, now)
    ensures PaceInv(Apply(db, defaults, Seed), key, k, c, now)
  {
    SeededRow(db.servers, defaults, key);
  }

  lemma AnswerWaits(server: Server, runs: seq<Run>, tool: Tool, call: Call, run: Run, k: nat, c: nat)
    requires server.failureCount == Streak(runs) && k >= 1
    requires Threshold(tool.policy) <= k && Cooldown(tool.policy) >= c
    requires run.status == if call.answer.Answered? then Succeeded else Failed
    requires call.clock.Ordered() && run.completedAt == call.clock.completed
    ensures Waiting(Answering(server, tool, call), runs + [run], k, c, call.clock.counted)
  {
    StreakAppend(runs, run);
  }

  lemma RecordKeepsPace(db: Db, call: Call, retryOf: Option<nat>, key: string, k: nat, c: nat, now: int)
    requires PaceInv(db, key, k, c, now) && Policies(db.tools, key, k, c)
    requires key in db.servers ==> db.servers[key].failureCount == Streak(ServerRuns(db.runs, key))
    requires Refusal(db, call).None? && (retryOf.Some? ==> retryOf.value < |db.runs|)
    requires call.clock.Ordered() && now <= call.clock.checked && k >= 1
    ensures PaceInv(Record(db, call, retryOf), key, k, c, call.clock.counted)
  {
    var tool := db.tools[call.toolKey];
    var run := NewRun(db, tool, call, retryOf);
    var runs := ServerRuns(db.runs, key);
    ServerRunsAppend(db.runs, run, key);
    if key == tool.serverKey {
      AnswerWaits(db.servers[key], runs, tool, call, run, k, c);
      PacedAppend(runs, run, k, c);
    }
  }

  lemma ExecuteKeepsPace(db: Db, defaults: seq<ServerDefault>, call: Call, retryOf: Option<nat>, key: string, k: nat,
                         c: nat, now: int)
    requires DistinctDefaults(defaults) && Inv(db, defaults)
    requires PaceInv(db, key, k, c, now) && Policies(db.tools, key, k, c)
    requires retryOf.Some? ==> retryOf.value < |db.runs|
    requires call.clock.Ordered() && now <= call.clock.checked && k >= 1
    ensures PaceInv(Execute(db, defaults, call, retryOf).0, key, k, c, call.clock.counted)
  {
    var seeded := Apply(db, defaults, Seed);
    SeedKeepsRows(db, defaults);
    SeedKeepsPace(db, defaults, key, k, c, now);
    assert key in seeded.servers ==> RowHolds(seeded, defaults, key);
    if Refusal(seeded, call).None? {
      RecordKeepsPace(seeded, call, retryOf, key, k, c, now);
    }
  }

  lemma TestKeepsPace(db: Db, defaults: seq<ServerDefault>, serverKey: string, call: Call, key: string, k: nat, c: nat,
                      now: int)
    requires DistinctDefaults(defaults) && Inv(db, defaults)
    requires PaceInv(db, key, k, c, now) && Policies(db.tools, key, k, c) && k >= 1
    requires call.clock.Ordered() && now <= call.clock.checked
    ensures PaceInv(Test(db, defaults, serverKey, call).0, key, k, c, call.clock.counted)
  {
    var (tried, executed) := Execute(db, defaults, HealthCheck(serverKey, call), None);
    ExecuteKeepsPace(db, defaults, HealthCheck(serverKey, call), None, key, k, c, now);
    var result := Test(db, defaults, serverKey, call);
    if result.1.Ok? {
      var judged := JudgedDb(tried, serverKey, call);
      assert PaceInv(judged, key, k, c, call.clock.counted);
      SeedKeepsPace(judged, defaults, key, k, c, call.clock.counted);
      assert result.0 == Apply(judged, defaults, Seed);
    }
  }

  lemma LaterPace(db: Db, key: string, k: nat, c: nat, now: int, later: int)
    requires PaceInv(db, key, k, c, now) && now <= later
    ensures PaceInv(db, key, k, c, later)
  {
  }

  lemma RetryKeepsPace(db: Db, defaults: seq<ServerDefault>, runId: nat, call: Call, key: string, k: nat, c: nat,
                       now: int)
    requires DistinctDefaults(defaults) && Inv(db, defaults)
    requires PaceInv(db, key, k, c, now) && Policies(db.tools, key, k, c) && k >= 1
    requires call.clock.Ordered() && now <= call.clock.checked
    ensures PaceInv(Retry(db, defaults, runId, call).0, key, k, c, call.clock.counted)
  {
    LaterPace(db, key, k, c, now, call.clock.counted);
    if runId < |db.runs| {
      ExecuteKeepsPace(db, defaults, RetryCall(db.runs[runId], call), Some(runId), key, k, c, now);
    }
  }

  lemma StepKeepsPace(db: Db, defaults: seq<ServerDefault>, step: Step, key: string, k: nat, c: nat, now: int)
    requires DistinctDefaults(defaults) && Inv(db, defaults)
    requires PaceInv(db, key, k, c, now) && Policies(db.tools, key, k, c) && k >= 1
    requires step.Seed? || (step.call.clock.Ordered() && now <= step.call.clock.checked)
    ensures PaceInv(Apply(db, defaults, step), key, k, c, if step.Seed? then now else step.call.clock.counted)
  {
    match step
    case Seed => SeedKeepsPace(db, defaults, key, k, c, now);
    case ExecuteTool(call) => ExecuteKeepsPace(db, defaults, call, None, key, k, c, now);
    case TestServer(serverKey, call) => TestKeepsPace(db, defaults, serverKey, call, key, k, c, now);
    case RetryRun(runId, call) => RetryKeepsPace(db, defaults, runId, call, key, k, c, now);
  }

  lemma {:induction false} ToolsUnchanged(db: Db, defaults: seq<ServerDefault>, steps: seq<Step>)
    ensures After(db, defaults, steps).tools == db.tools
  {
    if steps != [] {
      ToolsUnchanged(db, defaults, steps[..|steps| - 1]);
    }
  }

  lemma {:induction false} ReachablePace(tools: map<string, Tool>, defaults: seq<ServerDefault>, steps: seq<Step>,
                                         key: string, k: nat, c: nat)
    requires DistinctDefaults(defaults) && OwnHealthChecks(tools) && Policies(tools, key, k, c) && k >= 1
    requires Timed(steps)
    ensures PaceInv(After(Initial(tools), defaults, steps), key, k, c, Ended(steps))
  {
    if steps != [] {
      var init := steps[..|steps| - 1];
      ReachablePace(tools, defaults, init, key, k, c);
      ToolsUnchanged(Initial(tools), defaults, init);
      ReachableInv(tools, defaults, init);
      StepKeepsPace(After(Initial(tools), defaults, init), defaults, steps[|steps| - 1], key, k, c, Ended(init));
    }
  }

  /** Runs p, p + 1, ..., p + n - 1 are consecutive failures that began a streak. */
  predicate FailuresFrom(runs: seq<Run>, p: nat, n: nat) {
    && p + n <= |runs|
    && (p == 0 || runs[p - 1].status == Succeeded)
    && forall i | p <= i < p + n :: runs[i].status == Failed
  }

  lemma {:induction false} StreakOfFailures(runs: seq<Run>, p: nat, n: nat)
    requires FailuresFrom(runs, p, n)
    ensures Streak(runs[..p + n]) == n
  {
    if n > 0 {
      StreakOfFailures(runs, p, n - 1);
      assert runs[..p + n][..p + n - 1] == runs[..p + n - 1];
    }
  }

  lemma {:induction false} PacedFailures(runs: seq<Run>, k: nat, c: nat, p: nat, n: nat)
    requires Paced(runs, k, c) && FailuresFrom(runs, p, n) && 1 <= k < n
    requires forall i | 0 <= i < |runs| :: runs[i].startedAt <= runs[i].completedAt
    ensures runs[p + k - 1].completedAt + (n - k) * c * SECOND <= runs[p + n - 1].startedAt
  {
    StreakOfFailures(runs, p, n - 1);
    assert PacedAt(runs, k, c, p + n - 2);
    if n - 1 > k {
      PacedFailures(runs, k, c, p, n - 1);
      assert (n - k) * c == (n - 1 - k) * c + c;
    } else {
      assert (n - k) * c == c;
    }
  }

  /**
   The arithmetic of the breaker over whole runs: n > k consecutive failures since a success take at
   least (n - k) cooldowns, measured from the end of the k-th to the start of the n-th.
   */
  lemma FailuresTakeTime(tools: map<string, Tool>, defaults: seq<ServerDefault>, steps: seq<Step>,
                         key: string, k: nat, c: nat, p: nat, n: nat)
    requires DistinctDefaults(defaults) && OwnHealthChecks(tools) && Policies(tools, key, k, c)
    requires Timed(steps) && 1 <= k < n
    requires FailuresFrom(ServerRuns(After(Initial(tools), defaults, steps).runs, key), p, n)
    ensures var runs := ServerRuns(After(Initial(tools), defaults, steps).runs, key);
            runs[p + n - 1].startedAt - runs[p + k - 1].completedAt >= (n - k) * c * SECOND
  {
    var runs := ServerRuns(After(Initial(tools), defaults, steps).runs, key);
    ReachablePace(tools, defaults, steps, key, k, c);
    ReachableClocks(tools, defaults, steps);
    OrderedServerRuns(After(Initial(tools), defaults, steps).runs, key);
    PacedFailures(runs, k, c, p, n);
  }

  ghost predicate OrderedRuns(runs: seq<Run>) {
    forall i | 0 <= i < |runs| :: runs[i].startedAt <= runs[i].completedAt
  }

  lemma {:induction false} ReachableClocks(tools: map<string, Tool>, defaults: seq<ServerDefault>, steps: seq<Step>)
    requires Timed(steps)
    ensures OrderedRuns(After(Initial(tools), defaults, steps).runs)
  {
    if steps != [] {
      ReachableClocks(tools, defaults, steps[..|steps| - 1]);
      StepKeepsClocks(After(Initial(tools), defaults, steps[..|steps| - 1]), defaults, steps[|steps| - 1]);
    }
  }

  lemma StepKeepsClocks(db: Db, defaults: seq<ServerDefault>, step: Step)
    requires OrderedRuns(db.runs) && (step.Seed? || step.call.clock.Ordered())
    ensures OrderedRuns(Apply(db, defaults, step).runs)
  {
  }

  lemma {:induction false} OrderedServerRuns(runs: seq<Run>, key: string)
    requires OrderedRuns(runs)
    ensures OrderedRuns(ServerRuns(runs, key))
  {
    if runs != [] {
      assert OrderedRuns(runs[..|runs| - 1]);
      OrderedServerRuns(runs[..|runs| - 1], key);
    }
  }
}
