/**
 Token accounting of agent runs (backend/app/agents/service.py): one loop feeds the totals, the
 per-agent statistics, the timeline and the request list, which are proved to agree.

 Moments are microseconds since the epoch; the calendar's day-of-month is a parameter.
 */
module TokenStats {
  import opened Wrappers
  import opened Sequences

  datatype Usage = Usage(prompt: nat, completion: nat, cached: nat, reasoning: nat, total: nat)
  datatype Run = Run(id: nat, agentKey: string, createdAt: int, completedAt: Option<int>, provider: Option<string>,
                     usage: Usage)

  // ----- periods and timeline labels -----

  datatype Period = Day | Week | Month
  datatype Label = Today | Weekday(day: nat) | WeekOfMonth(week: nat)

  const DAY := 86_400_000_000

  /** Day of the month, 1 to 31, of the n-th day since the epoch. */
  type Calendar = f: int -> int | forall n :: 1 <= f(n) <= 31 witness n => 1

  /** Monday is 0; the epoch was a Thursday. */
  function DayOfWeek(moment: int): nat {
    (moment / DAY + 3) % 7
  }

  function StartOfDay(moment: int): int {
    moment / DAY * DAY
  }

  function WindowStart(period: Period, now: int, calendar: Calendar): int {
    match period
    case Day => StartOfDay(now)
    case Week => StartOfDay(now) - DayOfWeek(now) * DAY
    case Month => StartOfDay(now) - (calendar(now / DAY) - 1) * DAY
  }

  function TimelineLabels(period: Period, windowStart: int): seq<Label> {
    match period
    case Day => [Today]
    case Week => seq(7, (offset: nat) => Weekday(DayOfWeek(windowStart + offset * DAY)))
    case Month => seq(5, (index: nat) => WeekOfMonth(index + 1))
  }

  function TimelineLabel(period: Period, moment: int, calendar: Calendar): Label {
    match period
    case Day => Today
    case Week => Weekday(DayOfWeek(moment))
    case Month =>
      WeekOfMonth(if (calendar(moment / DAY) - 1) / 7 + 1 < 5 then (calendar(moment / DAY) - 1) / 7 + 1 else 5)
  }

  lemma DaysLater(moment: int, offset: nat)
    ensures (moment + offset * DAY) / DAY == moment / DAY + offset
  {
    assert DAY == 86_400_000_000;
  }

  /** A week's labels are seven different days, whatever day the window starts on. */
  lemma WeekLabel(windowStart: int, offset: nat)
    requires offset < 7
    ensures TimelineLabels(Week, windowStart)[offset] == Weekday((DayOfWeek(windowStart) + offset) % 7)
  {
    DaysLater(windowStart, offset);
  }

  lemma WeekCovers(windowStart: int, day: nat)
    requires day < 7
    ensures Weekday(day) in TimelineLabels(Week, windowStart)
  {
    var first := DayOfWeek(windowStart);
    var offset := if day >= first then day - first else day + 7 - first;
    WeekLabel(windowStart, offset);
    assert TimelineLabels(Week, windowStart)[offset] == Weekday(day);
  }

  /** The label of any moment has a bucket. */
  lemma LabelsCover(period: Period, windowStart: int, moment: int, calendar: Calendar)
    ensures TimelineLabel(period, moment, calendar) in TimelineLabels(period, windowStart)
  {
    var labels := TimelineLabels(period, windowStart);
    match period
    case Day =>
    case Week =>
      WeekCovers(windowStart, DayOfWeek(moment));
    case Month =>
      var week := (calendar(moment / DAY) - 1) / 7;
      assert labels[if week < 4 then week else 4] == TimelineLabel(period, moment, calendar);
  }

  /** No label has two buckets. */
  lemma LabelsDistinct(period: Period, windowStart: int)
    ensures Distinct(TimelineLabels(period, windowStart))
  {
    var labels := TimelineLabels(period, windowStart);
    forall i, j | 0 <= i < j < |labels| ensures labels[i] != labels[j] {
      if period.Week? {
        WeekLabel(windowStart, i);
        WeekLabel(windowStart, j);
      }
    }
  }

  // ----- sums -----

  function SumOf(runs: seq<Run>, measure: Run -> nat): nat {
    if runs == [] then 0 else SumOf(runs[..|runs| - 1], measure) + measure(runs[|runs| - 1])
  }

  /** The runs that `group` puts under `key`. */
  function Under<K(==)>(runs: seq<Run>, group: Run -> K, key: K): seq<Run> {
    if runs == [] then []
    else
      var init := Under(runs[..|runs| - 1], group, key);
      if group(runs[|runs| - 1]) == key then init + [runs[|runs| - 1]] else init
  }

  function GroupSum<K(==)>(runs: seq<Run>, group: Run -> K, keys: seq<K>, measure: Run -> nat): nat {
    if keys == [] then 0
    else GroupSum(runs, group, keys[..|keys| - 1], measure) + SumOf(Under(runs, group, keys[|keys| - 1]), measure)
  }

  ghost predicate Distinct<K>(keys: seq<K>) {
    forall i, j | 0 <= i < j < |keys| :: keys[i] != keys[j]
  }

  lemma SumAppend(runs: seq<Run>, run: Run, measure: Run -> nat)
    ensures SumOf(runs + [run], measure) == SumOf(runs, measure) + measure(run)
  {
    assert (runs + [run])[..|runs|] == runs;
  }

  lemma UnderAppend<K>(runs: seq<Run>, run: Run, group: Run -> K, key: K)
    ensures Under(runs + [run], group, key) == Under(runs, group, key) + if group(run) == key then [run] else []
  {
    assert (runs + [run])[..|runs|] == runs;
  }

  lemma LastKey<K>(keys: seq<K>, key: K)
    requires Distinct(keys) && keys != []
    ensures Distinct(keys[..|keys| - 1]) && keys[|keys| - 1] !in keys[..|keys| - 1]
    ensures key in keys <==> key in keys[..|keys| - 1] || key == keys[|keys| - 1]
  {
    assert keys == keys[..|keys| - 1] + [keys[|keys| - 1]];
  }

  lemma {:induction false} GroupSumAppend<K>(runs: seq<Run>, run: Run, group: Run -> K, keys: seq<K>,
                                             measure: Run -> nat)
    requires Distinct(keys)
    ensures GroupSum(runs + [run], group, keys, measure) ==
            GroupSum(runs, group, keys, measure) + if group(run) in keys then measure(run) else 0
  {
    if keys != [] {
      var init, last := keys[..|keys| - 1], keys[|keys| - 1];
      LastKey(keys, group(run));
      GroupSumAppend(runs, run, group, init, measure);
      UnderAppend(runs, run, group, last);
      SumAppend(Under(runs, group, last), run, measure);
    }
  }

  lemma {:induction false} GroupSumOfNothing<K>(group: Run -> K, keys: seq<K>, measure: Run -> nat)
    ensures GroupSum([], group, keys, measure) == 0
  {
    if keys != [] {
      GroupSumOfNothing(group, keys[..|keys| - 1], measure);
    }
  }

  /** Grouping loses and duplicates nothing: over keys that cover the runs, the groups sum to the whole. */
  lemma {:induction false} Conservation<K>(runs: seq<Run>, group: Run -> K, keys: seq<K>, measure: Run -> nat)
    requires Distinct(keys) && forall run <- runs :: group(run) in keys
    ensures GroupSum(runs, group, keys, measure) == SumOf(runs, measure)
  {
    if runs == [] {
      GroupSumOfNothing(group, keys, measure);
    } else {
      var init, last := runs[..|runs| - 1], runs[|runs| - 1];
      assert runs == init + [last];
      Conservation(init, group, keys, measure);
      GroupSumAppend(init, last, group, keys, measure);
    }
  }

  // ----- rounding -----

  /** Python's `round(n / d)`: nearest integer, ties to even. */
  function RoundedQuotient(n: nat, d: nat): (r: nat)
    requires d > 0
    ensures -(d as int) <= 2 * (r * d - n) <= d
  {
    var q, rest := n / d, n % d;
    QuotientAndRest(n, d);
    if 2 * rest < d || (2 * rest == d && q % 2 == 0) then q else q + 1
  }

  lemma QuotientAndRest(n: nat, d: nat)
    requires d > 0
    ensures n / d * d - n == -(n % d) && (n / d + 1) * d - n == d - n % d && 0 <= n % d < d
  {
    assert n / d * d + n % d == n;
    assert (n / d + 1) * d == n / d * d + d;
  }

  /** Python's `round(x, 1)`, on exact reals. */
  function RoundedTenth(x: real): (r: real)
    ensures -0.05 <= r - x <= 0.05
  {
    var tenths := (x * 10.0).Floor;
    var rest := x * 10.0 - tenths as real;
    if rest < 0.5 || (rest == 0.5 && tenths % 2 == 0) then tenths as real / 10.0 else (tenths + 1) as real / 10.0
  }

  // ----- the accumulators -----

  datatype Totals = Totals(prompt: nat, completion: nat, cached: nat, reasoning: nat, total: nat,
                           runCount: nat, tokenized: nat, average: nat)
  datatype AgentStat = AgentStat(agentKey: string, sortName: string, totals: Totals, lastRunAt: Option<int>,
                                 share: real)
  datatype Bucket = Bucket(slot: Label, prompt: nat, completion: nat, total: nat, runCount: nat)
  datatype RequestRow = RequestRow(id: nat, agentKey: string, sequenceNumber: nat, usage: Usage)

  const EMPTY := Totals(0, 0, 0, 0, 0, 0, 0, 0)

  function Prompt(run: Run): nat { run.usage.prompt }
  function Completion(run: Run): nat { run.usage.completion }
  function Cached(run: Run): nat { run.usage.cached }
  function Reasoning(run: Run): nat { run.usage.reasoning }
  function Total(run: Run): nat { run.usage.total }
  function Counted(run: Run): nat { 1 }
  function Tokenized(run: Run): nat { if run.usage.total > 0 then 1 else 0 }
  function AgentOf(run: Run): string { run.agentKey }

  function Labelling(period: Period, calendar: Calendar): Run -> Label {
    (run: Run) => TimelineLabel(period, Moment(run), calendar)
  }

  function Moment(run: Run): int {
    if run.completedAt.Some? then run.completedAt.value else run.createdAt
  }

  function InWindow(runs: seq<Run>, windowStart: int, now: int): seq<Run> {
    if runs == [] then []
    else
      var init := InWindow(runs[..|runs| - 1], windowStart, now);
      if windowStart <= Moment(runs[|runs| - 1]) <= now then init + [runs[|runs| - 1]] else init
  }

  /** These totals are the sums over these runs. */
  predicate Adds(t: Totals, runs: seq<Run>) {
    && t.prompt == SumOf(runs, Prompt) && t.completion == SumOf(runs, Completion)
    && t.cached == SumOf(runs, Cached) && t.reasoning == SumOf(runs, Reasoning)
    && t.total == SumOf(runs, Total) && t.runCount == SumOf(runs, Counted)
    && t.tokenized == SumOf(runs, Tokenized)
  }

  predicate BucketAdds(b: Bucket, runs: seq<Run>) {
    && b.prompt == SumOf(runs, Prompt) && b.completion == SumOf(runs, Completion)
    && b.total == SumOf(runs, Total) && b.runCount == SumOf(runs, Counted)
  }

  /** The latest moment among the runs. */
  ghost predicate IsLast(last: Option<int>, runs: seq<Run>) {
    if runs == [] then last == None
    else
      && last.Some? && (exists run <- runs :: Moment(run) == last.value)
      && forall run <- runs :: Moment(run) <= last.value
  }

  /** One run's usage added to a totals record, with the run and tokenized-run counters. */
  function AddUsage(t: Totals, usage: Usage): Totals {
    t.(prompt := t.prompt + usage.prompt, completion := t.completion + usage.completion,
       cached := t.cached + usage.cached, reasoning := t.reasoning + usage.reasoning,
       total := t.total + usage.total, runCount := t.runCount + 1,
       tokenized := t.tokenized + if usage.total > 0 then 1 else 0)
  }

  function Later(last: Option<int>, moment: int): Option<int> {
    if last.None? || moment > last.value then Some(moment) else last
  }

  lemma AddsAppend(t: Totals, runs: seq<Run>, run: Run)
    requires Adds(t, runs)
    ensures Adds(AddUsage(t, run.usage), runs + [run])
  {
    assert (runs + [run])[..|runs|] == runs;
  }

  /** A bucket with one more run. */
  function Charged(b: Bucket, run: Run): Bucket {
    b.(prompt := b.prompt + run.usage.prompt, completion := b.completion + run.usage.completion,
       total := b.total + run.usage.total, runCount := b.runCount + 1)
  }

  lemma BucketAddsAppend(b: Bucket, runs: seq<Run>, run: Run)
    requires BucketAdds(b, runs)
    ensures BucketAdds(Charged(b, run), runs + [run])
  {
    assert (runs + [run])[..|runs|] == runs;
  }

  lemma LastAppend(last: Option<int>, runs: seq<Run>, run: Run)
    requires IsLast(last, runs)
    ensures IsLast(Later(last, Moment(run)), runs + [run])
  {
    var later := Later(last, Moment(run));
    if later == last {
      var r :| r in runs && Moment(r) == last.value;
      assert r in runs + [run];
    } else {
      assert run in runs + [run];
    }
  }

  // ----- what the loop maintains, for the runs seen so far -----

  ghost predicate AgentsAdd(stats: map<string, AgentStat>, order: seq<string>, runs: seq<Run>) {
    && Distinct(order)
    && (forall k :: k in order <==> k in stats)
    && (forall run <- runs :: run.agentKey in stats)
    && (forall k <- stats :: StatAdds(stats[k], k, runs))
  }

  ghost predicate StatAdds(stat: AgentStat, k: string, runs: seq<Run>) {
    && stat.agentKey == k
    && Adds(stat.totals, Under(runs, AgentOf, k))
    && IsLast(stat.lastRunAt, Under(runs, AgentOf, k))
  }

  ghost predicate TimelineAdds(timeline: map<Label, Bucket>, labels: seq<Label>, group: Run -> Label, runs: seq<Run>) {
    forall l <- labels :: l in timeline && timeline[l].slot == l && BucketAdds(timeline[l], Under(runs, group, l))
  }

  ghost predicate RowsList(rows: seq<RequestRow>, runs: seq<Run>) {
    && |rows| == |runs|
    && forall i | 0 <= i < |rows| :: rows[i] == RequestRow(runs[i].id, runs[i].agentKey, i + 1, runs[i].usage)
  }

  lemma WindowStep(runs: seq<Run>, i: nat, windowStart: int, now: int)
    requires i < |runs|
    ensures InWindow(runs[..i + 1], windowStart, now) ==
            InWindow(runs[..i], windowStart, now) + if windowStart <= Moment(runs[i]) <= now then [runs[i]] else []
  {
    assert runs[..i + 1][..i] == runs[..i];
  }

  lemma RowsAppend(rows: seq<RequestRow>, runs: seq<Run>, run: Run)
    requires RowsList(rows, runs)
    ensures RowsList(rows + [RequestRow(run.id, run.agentKey, |rows| + 1, run.usage)], runs + [run])
  {
  }

  /** Adding a run under its agent keeps the per-agent sums. */
  lemma AgentsAppend(stats: map<string, AgentStat>, order: seq<string>, runs: seq<Run>, run: Run)
    requires AgentsAdd(stats, order, runs) && run.agentKey in stats
    ensures var stat := stats[run.agentKey];
            AgentsAdd(stats[run.agentKey := stat.(totals := AddUsage(stat.totals, run.usage),
                                                  lastRunAt := Later(stat.lastRunAt, Moment(run)))],
                      order, runs + [run])
  {
    var stat := stats[run.agentKey];
    var updated := stats[run.agentKey := stat.(totals := AddUsage(stat.totals, run.usage),
                                               lastRunAt := Later(stat.lastRunAt, Moment(run)))];
    forall k <- updated ensures StatAdds(updated[k], k, runs + [run]) {
      assert StatAdds(stats[k], k, runs);
      UnderAppend(runs, run, AgentOf, k);
      if k == run.agentKey {
        AddsAppend(stat.totals, Under(runs, AgentOf, k), run);
        LastAppend(stat.lastRunAt, Under(runs, AgentOf, k), run);
      }
    }
  }

  lemma NewAgent(stats: map<string, AgentStat>, order: seq<string>, runs: seq<Run>, key: string, name: string)
    requires AgentsAdd(stats, order, runs) && key !in stats
    ensures AgentsAdd(stats[key := AgentStat(key, name, EMPTY, None, 0.0)], order + [key], runs)
  {
    NothingUnder(runs, key);
    var updated := stats[key := AgentStat(key, name, EMPTY, None, 0.0)];
    forall k <- updated ensures StatAdds(updated[k], k, runs) {
      assert k != key ==> StatAdds(stats[k], k, runs);
    }
  }

  lemma {:induction false} NothingUnder(runs: seq<Run>, key: string)
    requires forall run <- runs :: run.agentKey != key
    ensures Under(runs, AgentOf, key) == []
  {
    if runs != [] {
      NothingUnder(runs[..|runs| - 1], key);
      assert runs[|runs| - 1] in runs;
    }
  }

  lemma TimelineAppend(timeline: map<Label, Bucket>, labels: seq<Label>, group: Run -> Label, runs: seq<Run>, run: Run)
    requires TimelineAdds(timeline, labels, group, runs) && group(run) in labels
    ensures TimelineAdds(timeline[group(run) := Charged(timeline[group(run)], run)], labels, group, runs + [run])
  {
    BucketAddsAppend(timeline[group(run)], Under(runs, group, group(run)), run);
    forall l <- labels {
      UnderAppend(runs, run, group, l);
    }
  }

  // ----- the service -----

  datatype Agent = Agent(key: string, sortName: string)

  predicate HeavierFirst(a: AgentStat, b: AgentStat) {
    a.totals.total > b.totals.total || (a.totals.total == b.totals.total && TextLeq(a.sortName, b.sortName))
  }

  function Finished(t: Totals): Totals {
    t.(average := if t.tokenized > 0 then RoundedQuotient(t.total, t.tokenized) else 0)
  }

  function Share(total: nat, ofTotal: nat): real {
    if ofTotal == 0 then 0.0 else RoundedTenth(total as real / ofTotal as real * 100.0)
  }

  /** The per-agent report: one entry per agent with runs in the window, with its exact sums. */
  ghost predicate AgentReport(agents: seq<AgentStat>, runs: seq<Run>, total: nat) {
    && (forall i, j | 0 <= i < j < |agents| :: agents[i].agentKey != agents[j].agentKey)
    && (forall run <- runs :: exists stat <- agents :: stat.agentKey == run.agentKey)
    && (forall stat <- agents :: ReportLine(stat, runs, total))
  }

  ghost predicate ReportLine(stat: AgentStat, runs: seq<Run>, total: nat) {
    && StatAdds(stat, stat.agentKey, runs)
    && Under(runs, AgentOf, stat.agentKey) != []
    && stat.totals == Finished(stat.totals)
    && stat.share == Share(stat.totals.total, total)
  }

  method TokenStats(period: Period, now: int, calendar: Calendar, known: seq<Agent>, runs: seq<Run>)
    returns (totals: Totals, agents: seq<AgentStat>, timeline: seq<Bucket>, requests: seq<RequestRow>)
    requires Distinct(seq(|known|, i requires 0 <= i < |known| => known[i].key))
    ensures var windowStart := WindowStart(period, now, calendar);
            var window := InWindow(runs, windowStart, now);
            var labels := TimelineLabels(period, windowStart);
            && Adds(totals, window) && totals == Finished(totals)
            && AgentReport(agents, window, totals.total)
            && SortedBy(agents, HeavierFirst)
            && TimelineReport(timeline, labels, Labelling(period, calendar), window)
            && RowsList(requests, window)
  {
    var windowStart := WindowStart(period, now, calendar);
    var labels := TimelineLabels(period, windowStart);
    ghost var group := Labelling(period, calendar);
    totals := EMPTY;
    requests := [];
    var stats, order := InitialStats(known);
    var buckets := EmptyTimeline(labels, group);
    ghost var window: seq<Run> := [];
    for i := 0 to |runs|
      invariant window == InWindow(runs[..i], windowStart, now)
      invariant Adds(totals, window)
      invariant AgentsAdd(stats, order, window)
      invariant TimelineAdds(buckets, labels, group, window)
      invariant RowsList(requests, window)
    {
      var run := runs[i];
      WindowStep(runs, i, windowStart, now);
      var moment := if run.completedAt.Some? then run.completedAt.value else run.createdAt;
      if moment < windowStart || moment > now {
        continue;
      }
      AddsAppend(totals, window, run);
      totals := AddUsage(totals, run.usage);
      LabelsCover(period, windowStart, moment, calendar);
      buckets := CountInBucket(buckets, labels, TimelineLabel(period, moment, calendar), group, window, run);
      stats, order := CountForAgent(stats, order, moment, window, run);
      RowsAppend(requests, window, run);
      requests := requests + [RequestRow(run.id, run.agentKey, |requests| + 1, run.usage)];
      window := window + [run];
    }
    assert runs[..|runs|] == runs;
    totals := Finished(totals);
    agents := Report(stats, order, totals.total, window);
    timeline := Timeline(buckets, labels, group, window);
  }

  function EmptyTimeline(labels: seq<Label>, ghost group: Run -> Label): (buckets: map<Label, Bucket>)
    ensures TimelineAdds(buckets, labels, group, [])
  {
    map l | l in labels :: Bucket(l, 0, 0, 0, 0)
  }

  function Timeline(buckets: map<Label, Bucket>, labels: seq<Label>, ghost group: Run -> Label, ghost runs: seq<Run>)
    : (timeline: seq<Bucket>)
    requires TimelineAdds(buckets, labels, group, runs)
    ensures TimelineReport(timeline, labels, group, runs)
  {
    seq(|labels|, i requires 0 <= i < |labels| => assert labels[i] in labels; buckets[labels[i]])
  }

  /** One bucket per label, in order, each with the sums of the runs it stands for. */
  ghost predicate TimelineReport(timeline: seq<Bucket>, labels: seq<Label>, group: Run -> Label, runs: seq<Run>) {
    && |timeline| == |labels|
    && forall i | 0 <= i < |labels| ::
         timeline[i].slot == labels[i] && BucketAdds(timeline[i], Under(runs, group, labels[i]))
  }

  method CountInBucket(buckets: map<Label, Bucket>, ghost labels: seq<Label>, name: Label, ghost group: Run -> Label,
                       ghost runs: seq<Run>, run: Run) returns (updated: map<Label, Bucket>)
    requires TimelineAdds(buckets, labels, group, runs) && group(run) == name && name in labels
    ensures TimelineAdds(updated, labels, group, runs + [run])
  {
    updated := buckets[name := Charged(buckets[name], run)];
    TimelineAppend(buckets, labels, group, runs, run);
  }

  method CountForAgent(stats: map<string, AgentStat>, order: seq<string>, moment: int, ghost runs: seq<Run>, run: Run)
    returns (stats': map<string, AgentStat>, order': seq<string>)
    requires AgentsAdd(stats, order, runs) && moment == Moment(run)
    ensures AgentsAdd(stats', order', runs + [run])
  {
    stats', order' := stats, order;
    if run.agentKey !in stats {
      NewAgent(stats, order, runs, run.agentKey, run.agentKey);
      stats' := stats[run.agentKey := AgentStat(run.agentKey, run.agentKey, EMPTY, None, 0.0)];
      order' := order + [run.agentKey];
    }
    AgentsAppend(stats', order', runs, run);
    var stat := stats'[run.agentKey];
    stat := stat.(totals := AddUsage(stat.totals, run.usage));
    if stat.lastRunAt.None? || moment > stat.lastRunAt.value {
      stat := stat.(lastRunAt := Some(moment));
    }
    stats' := stats'[run.agentKey := stat];
  }

  method InitialStats(known: seq<Agent>) returns (stats: map<string, AgentStat>, order: seq<string>)
    requires Distinct(seq(|known|, i requires 0 <= i < |known| => known[i].key))
    ensures AgentsAdd(stats, order, [])
  {
    ghost var keys := seq(|known|, i requires 0 <= i < |known| => known[i].key);
    stats, order := map[], [];
    for i := 0 to |known|
      invariant AgentsAdd(stats, order, [])
      invariant order == keys[..i]
    {
      assert keys[i] !in keys[..i];
      NewAgent(stats, order, [], known[i].key, known[i].sortName);
      stats := stats[known[i].key := AgentStat(known[i].key, known[i].sortName, EMPTY, None, 0.0)];
      order := order + [known[i].key];
    }
  }

  /** The second loop: finish each agent's statistics and keep those that have something to show. */
  method Report(stats: map<string, AgentStat>, order: seq<string>, total: nat, ghost runs: seq<Run>)
    returns (agents: seq<AgentStat>)
    requires AgentsAdd(stats, order, runs)
    ensures AgentReport(agents, runs, total)
    ensures SortedBy(agents, HeavierFirst)
  {
    agents := [];
    for i := 0 to |order|
      invariant ReportSoFar(agents, order[..i], runs, total)
    {
      FinishedLine(stats[order[i]], order[i], runs, total);
      var stat := Finish(stats[order[i]], total);
      ReportMore(agents, order, i, stat, runs, total);
      if stat.totals.runCount > 0 || stat.totals.total > 0 {
        agents := agents + [stat];
      }
    }
    assert order[..|order|] == order;
    ReportDone(agents, order, runs, total);
    ReportSorted(agents, runs, total);
    agents := StableSort(agents, HeavierFirst);
  }

  function Finish(stat: AgentStat, total: nat): AgentStat {
    stat.(totals := Finished(stat.totals), share := Share(stat.totals.total, total))
  }

  lemma FinishedLine(stat: AgentStat, key: string, runs: seq<Run>, total: nat)
    requires StatAdds(stat, key, runs)
    ensures Finish(stat, total).agentKey == key
    ensures Under(runs, AgentOf, key) == [] <==>
            Finish(stat, total).totals.runCount == 0 && Finish(stat, total).totals.total == 0
    ensures Under(runs, AgentOf, key) != [] ==> ReportLine(Finish(stat, total), runs, total)
  {
    CountsRuns(Under(runs, AgentOf, key));
  }

  /** The report over the agents in `done`. */
  ghost predicate ReportSoFar(agents: seq<AgentStat>, done: seq<string>, runs: seq<Run>, total: nat) {
    && (forall a, b | 0 <= a < b < |agents| :: agents[a].agentKey != agents[b].agentKey)
    && (forall stat <- agents :: stat.agentKey in done && ReportLine(stat, runs, total))
    && (forall k <- done | Under(runs, AgentOf, k) != [] :: Reported(agents, k))
  }

  ghost predicate Reported(agents: seq<AgentStat>, k: string) {
    exists stat <- agents :: stat.agentKey == k
  }

  lemma ReportMore(agents: seq<AgentStat>, order: seq<string>, i: nat, stat: AgentStat, runs: seq<Run>, total: nat)
    requires Distinct(order) && i < |order| && stat.agentKey == order[i]
    requires ReportSoFar(agents, order[..i], runs, total)
    ensures Under(runs, AgentOf, stat.agentKey) == [] ==> ReportSoFar(agents, order[..i + 1], runs, total)
    ensures ReportLine(stat, runs, total) ==> ReportSoFar(agents + [stat], order[..i + 1], runs, total)
  {
    var longer := agents + [stat];
    assert order[..i + 1] == order[..i] + [order[i]];
    assert order[i] !in order[..i];
    forall k | Reported(agents, k) || k == stat.agentKey ensures Reported(longer, k) {
      if Reported(agents, k) {
        var s :| s in agents && s.agentKey == k;
        assert s in longer;
      } else {
        assert stat in longer;
      }
    }
    forall a, b | 0 <= a < b < |longer| ensures longer[a].agentKey != longer[b].agentKey {
      assert longer[a] in agents;
    }
  }

  lemma ReportDone(agents: seq<AgentStat>, order: seq<string>, runs: seq<Run>, total: nat)
    requires ReportSoFar(agents, order, runs, total) && forall run <- runs :: run.agentKey in order
    ensures AgentReport(agents, runs, total)
  {
    forall run <- runs ensures exists stat <- agents :: stat.agentKey == run.agentKey {
      SomethingUnder(runs, run);
      assert Reported(agents, run.agentKey);
    }
  }

  lemma {:induction false} CountsRuns(runs: seq<Run>)
    ensures SumOf(runs, Counted) == |runs|
    ensures runs == [] ==> SumOf(runs, Total) == 0
  {
    if runs != [] {
      CountsRuns(runs[..|runs| - 1]);
    }
  }

  lemma {:induction false} SomethingUnder(runs: seq<Run>, run: Run)
    requires run in runs
    ensures Under(runs, AgentOf, run.agentKey) != []
  {
    var init, last := runs[..|runs| - 1], runs[|runs| - 1];
    assert runs == init + [last];
    if run in init {
      SomethingUnder(init, run);
    }
  }

  lemma HeavierFirstIsPreorder()
    ensures TotalPreorder(HeavierFirst)
  {
    forall a, b ensures HeavierFirst(a, b) || HeavierFirst(b, a) {
      TextLeqTotal(a.sortName, b.sortName);
    }
    forall a, b, c | HeavierFirst(a, b) && HeavierFirst(b, c) ensures HeavierFirst(a, c) {
      if TextLeq(a.sortName, b.sortName) && TextLeq(b.sortName, c.sortName) {
        TextLeqTransitive(a.sortName, b.sortName, c.sortName);
      }
    }
  }

  /** Distinct keys survive any permutation. */
  lemma {:induction false} DistinctAgents(agents: seq<AgentStat>)
    ensures (forall i, j | 0 <= i < j < |agents| :: agents[i].agentKey != agents[j].agentKey) <==>
            (forall a, b | a in agents && b in agents && a != b :: a.agentKey != b.agentKey)
            && forall a <- agents :: multiset(agents)[a] == 1
  {
    if agents != [] {
      var init, last := agents[..|agents| - 1], agents[|agents| - 1];
      assert agents == init + [last];
      DistinctAgents(init);
      assert multiset(agents)[last] == multiset(init)[last] + 1;
    }
  }

  lemma ReportSorted(agents: seq<AgentStat>, runs: seq<Run>, total: nat)
    requires AgentReport(agents, runs, total)
    ensures AgentReport(StableSort(agents, HeavierFirst), runs, total)
    ensures SortedBy(StableSort(agents, HeavierFirst), HeavierFirst)
  {
    var sorted := StableSort(agents, HeavierFirst);
    HeavierFirstIsPreorder();
    StableSortSorts(agents, HeavierFirst);
    forall stat ensures stat in sorted <==> stat in agents {
      assert stat in multiset(sorted) <==> stat in multiset(agents);
    }
    DistinctAgents(agents);
    DistinctAgents(sorted);
  }

  // ----- what the four aggregates have in common -----

  function AgentKeys(agents: seq<AgentStat>): seq<string> {
    seq(|agents|, i requires 0 <= i < |agents| => agents[i].agentKey)
  }

  /** A field of the report summed over its lines, given by how the line exposes it. */
  function LineSum(agents: seq<AgentStat>, field: Totals -> nat): nat {
    if agents == [] then 0 else LineSum(agents[..|agents| - 1], field) + field(agents[|agents| - 1].totals)
  }

  function BucketSum(timeline: seq<Bucket>, field: Bucket -> nat): nat {
    if timeline == [] then 0 else BucketSum(timeline[..|timeline| - 1], field) + field(timeline[|timeline| - 1])
  }

  function RowSum(rows: seq<RequestRow>, field: Usage -> nat): nat {
    if rows == [] then 0 else RowSum(rows[..|rows| - 1], field) + field(rows[|rows| - 1].usage)
  }

  /** A totals field and the measure it accumulates, over every list of runs it adds up. */
  ghost predicate Measures(field: Totals -> nat, measure: Run -> nat) {
    forall t: Totals, runs: seq<Run> {:trigger Adds(t, runs)} | Adds(t, runs) :: field(t) == SumOf(runs, measure)
  }

  /** Every totals field that accumulates a measure sums, over the reported agents, to the totals record's. */
  lemma AgentsAgree(agents: seq<AgentStat>, totals: Totals, window: seq<Run>, field: Totals -> nat, measure: Run -> nat)
    requires AgentReport(agents, window, totals.total) && Adds(totals, window) && Measures(field, measure)
    ensures LineSum(agents, field) == field(totals)
  {
    var keys := AgentKeys(agents);
    forall run <- window ensures AgentOf(run) in keys {
      var stat :| stat in agents && stat.agentKey == run.agentKey;
      var i :| 0 <= i < |agents| && agents[i] == stat;
      assert keys[i] == run.agentKey;
    }
    Conservation(window, AgentOf, keys, measure);
    LinesAreGroups(agents, window, totals.total, field, measure);
  }

  lemma {:induction false} LinesAreGroups(agents: seq<AgentStat>, window: seq<Run>, total: nat,
                                          field: Totals -> nat, measure: Run -> nat)
    requires Measures(field, measure)
    requires forall stat <- agents :: ReportLine(stat, window, total)
    ensures LineSum(agents, field) == GroupSum(window, AgentOf, AgentKeys(agents), measure)
  {
    if agents != [] {
      var init, last := agents[..|agents| - 1], agents[|agents| - 1];
      LinesAreGroups(init, window, total, field, measure);
      assert AgentKeys(agents)[..|agents| - 1] == AgentKeys(init);
      assert last in agents && ReportLine(last, window, total);
      assert Adds(last.totals, Under(window, AgentOf, last.agentKey));
    }
  }

  ghost predicate BucketMeasures(field: Bucket -> nat, measure: Run -> nat) {
    forall b: Bucket, runs: seq<Run> {:trigger BucketAdds(b, runs)} | BucketAdds(b, runs) ::
      field(b) == SumOf(runs, measure)
  }

  /** Every bucket field that accumulates a measure sums, over the timeline, to that measure of the window. */
  lemma TimelineAgrees(timeline: seq<Bucket>, period: Period, windowStart: int, calendar: Calendar, window: seq<Run>,
                       field: Bucket -> nat, measure: Run -> nat)
    requires TimelineReport(timeline, TimelineLabels(period, windowStart), Labelling(period, calendar), window)
    requires BucketMeasures(field, measure)
    ensures BucketSum(timeline, field) == SumOf(window, measure)
  {
    var labels := TimelineLabels(period, windowStart);
    LabelsDistinct(period, windowStart);
    forall run <- window ensures Labelling(period, calendar)(run) in labels {
      LabelsCover(period, windowStart, Moment(run), calendar);
    }
    Conservation(window, Labelling(period, calendar), labels, measure);
    BucketsAreGroups(timeline, labels, Labelling(period, calendar), window, field, measure);
  }

  lemma {:induction false} BucketsAreGroups(timeline: seq<Bucket>, labels: seq<Label>, group: Run -> Label,
                                            window: seq<Run>, field: Bucket -> nat, measure: Run -> nat)
    requires TimelineReport(timeline, labels, group, window) && BucketMeasures(field, measure)
    ensures BucketSum(timeline, field) == GroupSum(window, group, labels, measure)
  {
    if timeline != [] {
      BucketsAreGroups(timeline[..|timeline| - 1], labels[..|labels| - 1], group, window, field, measure);
      assert BucketAdds(timeline[|timeline| - 1], Under(window, group, labels[|labels| - 1]));
    }
  }

  /** Each usage field sums, over the request list, to that measure of the window. */
  lemma {:induction false} RowsAgree(rows: seq<RequestRow>, window: seq<Run>, field: Usage -> nat, measure: Run -> nat)
    requires RowsList(rows, window) && forall run :: measure(run) == field(run.usage)
    ensures RowSum(rows, field) == SumOf(window, measure)
  {
    if rows != [] {
      RowsAgree(rows[..|rows| - 1], window[..|window| - 1], field, measure);
    }
  }

  /**
   The four aggregates of one report agree: prompt, completion and total tokens and run counts are
   the same in the totals, over the agents and over the timeline; all token fields over the requests.
   */
  lemma AggregatesAgree(period: Period, windowStart: int, calendar: Calendar, window: seq<Run>,
                        totals: Totals, agents: seq<AgentStat>, timeline: seq<Bucket>, requests: seq<RequestRow>)
    requires Adds(totals, window) && AgentReport(agents, window, totals.total) && RowsList(requests, window)
    requires TimelineReport(timeline, TimelineLabels(period, windowStart), Labelling(period, calendar), window)
    ensures totals.prompt == LineSum(agents, (t: Totals) => t.prompt)
                          == BucketSum(timeline, (b: Bucket) => b.prompt) == RowSum(requests, (u: Usage) => u.prompt)
    ensures totals.completion == LineSum(agents, (t: Totals) => t.completion)
                              == BucketSum(timeline, (b: Bucket) => b.completion)
                              == RowSum(requests, (u: Usage) => u.completion)
    ensures totals.total == LineSum(agents, (t: Totals) => t.total)
                         == BucketSum(timeline, (b: Bucket) => b.total) == RowSum(requests, (u: Usage) => u.total)
    ensures totals.runCount == LineSum(agents, (t: Totals) => t.runCount)
                            == BucketSum(timeline, (b: Bucket) => b.runCount) == |requests|
    ensures totals.cached == RowSum(requests, (u: Usage) => u.cached)
    ensures totals.reasoning == RowSum(requests, (u: Usage) => u.reasoning)
  {
    AgentsAgree(agents, totals, window, (t: Totals) => t.prompt, Prompt);
    AgentsAgree(agents, totals, window, (t: Totals) => t.completion, Completion);
    AgentsAgree(agents, totals, window, (t: Totals) => t.total, Total);
    AgentsAgree(agents, totals, window, (t: Totals) => t.runCount, Counted);
    TimelineAgrees(timeline, period, windowStart, calendar, window, (b: Bucket) => b.prompt, Prompt);
    TimelineAgrees(timeline, period, windowStart, calendar, window, (b: Bucket) => b.completion, Completion);
    TimelineAgrees(timeline, period, windowStart, calendar, window, (b: Bucket) => b.total, Total);
    TimelineAgrees(timeline, period, windowStart, calendar, window, (b: Bucket) => b.runCount, Counted);
    RowsAgree(requests, window, (u: Usage) => u.prompt, Prompt);
    RowsAgree(requests, window, (u: Usage) => u.completion, Completion);
    RowsAgree(requests, window, (u: Usage) => u.total, Total);
    RowsAgree(requests, window, (u: Usage) => u.cached, Cached);
    RowsAgree(requests, window, (u: Usage) => u.reasoning, Reasoning);
    CountsRuns(window);
  }

  // ----- shares -----

  function ShareSum(agents: seq<AgentStat>): real {
    if agents == [] then 0.0 else ShareSum(agents[..|agents| - 1]) + agents[|agents| - 1].share
  }

  function LineTotal(t: Totals): nat { t.total }

  function Exact(own: nat, total: nat): real
    requires total > 0
  {
    own as real / total as real * 100.0
  }

  lemma ExactAdds(a: nat, b: nat, total: nat)
    requires total > 0
    ensures Exact(a + b, total) == Exact(a, total) + Exact(b, total)
    ensures Exact(total, total) == 100.0 && Exact(0, total) == 0.0
  {
    assert total as real / total as real == 1.0;
    assert 0.0 / total as real == 0.0;
    assert (a + b) as real / total as real == a as real / total as real + b as real / total as real;
  }

  lemma {:induction false} SharesNearExact(agents: seq<AgentStat>, window: seq<Run>, total: nat)
    requires total > 0 && forall stat <- agents :: ReportLine(stat, window, total)
    ensures var error := ShareSum(agents) - Exact(LineSum(agents, LineTotal), total);
            -0.05 * |agents| as real <= error <= 0.05 * |agents| as real
  {
    if agents == [] {
      ExactAdds(0, 0, total);
    } else {
      var init, last := agents[..|agents| - 1], agents[|agents| - 1];
      SharesNearExact(init, window, total);
      assert ReportLine(last, window, total);
      ExactAdds(LineSum(init, LineTotal), last.totals.total, total);
      ShareNearExact(last.totals.total, total);
    }
  }

  lemma ShareNearExact(own: nat, total: nat)
    requires total > 0
    ensures -0.05 <= Share(own, total) - Exact(own, total) <= 0.05
  {
  }

  /** The one-decimal shares of k reported agents sum to within 0.05 k of 100 when any token was used. */
  lemma SharesSumTo100(agents: seq<AgentStat>, totals: Totals, window: seq<Run>)
    requires AgentReport(agents, window, totals.total) && Adds(totals, window) && totals.total > 0
    ensures -0.05 * |agents| as real <= ShareSum(agents) - 100.0 <= 0.05 * |agents| as real
  {
    AgentsAgree(agents, totals, window, LineTotal, Total);
    SharesNearExact(agents, window, totals.total);
    ExactAdds(0, 0, totals.total);
  }
}
