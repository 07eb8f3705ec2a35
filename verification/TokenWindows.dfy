/** What the parts of the token report mean: its window, its timeline labels, its averages and its shares. */
module TokenWindows {
  import opened Wrappers
  import opened Sequences
  import opened TokenStats

  // ----- the window -----

  /** The day is the first of its month or one more than the day before. */
  predicate Follows(calendar: Calendar, day: int) {
    calendar(day) == 1 || calendar(day - 1) == calendar(day) - 1
  }

  /** The days of a month are counted up from 1. */
  ghost predicate CountsDays(calendar: Calendar) {
    forall day :: Follows(calendar, day)
  }

  lemma {:induction false} FirstOfMonth(calendar: Calendar, day: int, back: nat)
    requires CountsDays(calendar) && back < calendar(day)
    ensures calendar(day - back) == calendar(day) - back
  {
    if back > 0 {
      FirstOfMonth(calendar, day, back - 1);
      assert Follows(calendar, day - (back - 1));
    }
  }

  predicate Midnight(moment: int) {
    moment % 86_400_000_000 == 0
  }

  lemma DayStart(moment: int)
    ensures Midnight(StartOfDay(moment)) && StartOfDay(moment) <= moment < StartOfDay(moment) + 86_400_000_000
    ensures StartOfDay(moment) / 86_400_000_000 == moment / 86_400_000_000
  {
    assert DAY == 86_400_000_000;
  }

  lemma DaysBack(midnight: int, days: int)
    requires Midnight(midnight)
    ensures Midnight(midnight - days * 86_400_000_000)
    ensures (midnight - days * 86_400_000_000) / 86_400_000_000 == midnight / 86_400_000_000 - days
  {
  }

  /** Today's window starts at the last midnight. */
  lemma DayWindow(now: int, calendar: Calendar)
    ensures var start := WindowStart(Day, now, calendar);
            Midnight(start) && start <= now < start + 86_400_000_000
  {
    DayStart(now);
  }

  /** The week's window starts at midnight of a Monday, less than seven days ago; the epoch was a Thursday. */
  lemma WeekWindow(now: int, calendar: Calendar)
    ensures var start := WindowStart(Week, now, calendar);
            && Midnight(start) && (start / 86_400_000_000) % 7 == 4
            && start <= now < start + 7 * 86_400_000_000
  {
    DayStart(now);
    DaysBack(StartOfDay(now), DayOfWeek(now));
  }

  /** `first` is the last first of a month up to `today`. */
  ghost predicate LastFirst(calendar: Calendar, first: int, today: int) {
    && first <= today && calendar(first) == 1
    && forall day | first < day <= today :: calendar(day) != 1
  }

  lemma LaterInMonth(calendar: Calendar, today: int, day: int)
    requires CountsDays(calendar) && today - (calendar(today) - 1) < day <= today
    ensures calendar(day) > 1
  {
    FirstOfMonth(calendar, today, today - day);
  }

  lemma CountedBack(calendar: Calendar, today: int)
    requires CountsDays(calendar)
    ensures LastFirst(calendar, today - (calendar(today) - 1), today)
  {
    var back := calendar(today) - 1;
    FirstOfMonth(calendar, today, back);
    forall day | today - back < day <= today ensures calendar(day) != 1 {
      LaterInMonth(calendar, today, day);
    }
  }

  /** The month's window starts at midnight of the last first of a month. */
  lemma MonthWindow(now: int, calendar: Calendar)
    requires CountsDays(calendar)
    ensures var start := WindowStart(Month, now, calendar);
            Midnight(start) && start <= now && LastFirst(calendar, start / 86_400_000_000, now / 86_400_000_000)
  {
    DayStart(now);
    DaysBack(StartOfDay(now), calendar(now / 86_400_000_000) - 1);
    CountedBack(calendar, now / 86_400_000_000);
  }

  /** When a run counts: when it completed, or else when it was created. */
  predicate CountsAt(run: Run, moment: int) {
    match run.completedAt
    case Some(completed) => moment == completed
    case None => moment == run.createdAt
  }

  /** The window holds exactly the runs that count between its start and now, each as often as there is. */
  lemma {:induction false} WindowHolds(runs: seq<Run>, start: int, now: int, run: Run)
    ensures multiset(InWindow(runs, start, now))[run] ==
            if exists moment :: CountsAt(run, moment) && start <= moment <= now then multiset(runs)[run] else 0
  {
    if runs != [] {
      var (init, last) := (runs[..|runs| - 1], runs[|runs| - 1]);
      assert runs == init + [last];
      WindowHolds(init, start, now, run);
      assert CountsAt(last, Moment(last));
    }
  }

  // ----- the timeline -----

  /** Monday is 0, and the fifth week of a month takes what is left of it. */
  lemma LabelMeans(moment: int, calendar: Calendar)
    ensures var (day, date) := (moment / 86_400_000_000, calendar(moment / 86_400_000_000));
            && TimelineLabel(Day, moment, calendar) == Today
            && (day % 7 == 4 ==> TimelineLabel(Week, moment, calendar) == Weekday(0))
            && (day % 7 == 0 ==> TimelineLabel(Week, moment, calendar) == Weekday(3))
            && (forall d: nat | TimelineLabel(Week, moment, calendar) == Weekday(d) ::
                  d < 7 && (d + 4) % 7 == day % 7)
            && (forall w: nat :: TimelineLabel(Month, moment, calendar) == WeekOfMonth(w) <==>
                                 (1 <= w <= 4 && 7 * (w - 1) < date <= 7 * w) || (w == 5 && date > 28))
  {
    assert DAY == 86_400_000_000;
  }

  lemma WeekInOrder(start: int)
    requires Midnight(start) && (start / 86_400_000_000) % 7 == 4
    ensures TimelineLabels(Week, start) ==
            [Weekday(0), Weekday(1), Weekday(2), Weekday(3), Weekday(4), Weekday(5), Weekday(6)]
  {
    assert DayOfWeek(start) == 0 by {
      assert DAY == 86_400_000_000;
    }
    forall offset | 0 <= offset < 7 ensures TimelineLabels(Week, start)[offset] == Weekday(offset) {
      WeekLabel(start, offset);
    }
  }

  lemma MonthInOrder(start: int)
    ensures TimelineLabels(Month, start) ==
            [WeekOfMonth(1), WeekOfMonth(2), WeekOfMonth(3), WeekOfMonth(4), WeekOfMonth(5)]
  {
  }

  lemma LabelsInOrder(now: int, calendar: Calendar)
    ensures TimelineLabels(Day, WindowStart(Day, now, calendar)) == [Today]
    ensures TimelineLabels(Week, WindowStart(Week, now, calendar)) ==
            [Weekday(0), Weekday(1), Weekday(2), Weekday(3), Weekday(4), Weekday(5), Weekday(6)]
    ensures TimelineLabels(Month, WindowStart(Month, now, calendar)) ==
            [WeekOfMonth(1), WeekOfMonth(2), WeekOfMonth(3), WeekOfMonth(4), WeekOfMonth(5)]
  {
    WeekWindow(now, calendar);
    WeekInOrder(WindowStart(Week, now, calendar));
    MonthInOrder(WindowStart(Month, now, calendar));
  }

  // ----- what is counted -----

  lemma OneRunSum(run: Run, measure: Run -> nat)
    ensures SumOf([run], measure) == measure(run)
  {
    SumAppend([], run, measure);
    assert [] + [run] == [run];
  }

  /** A window with one run reports that run's usage. */
  lemma OneRunReported(t: Totals, run: Run)
    requires Adds(t, [run])
    ensures t.prompt == run.usage.prompt && t.completion == run.usage.completion && t.cached == run.usage.cached
    ensures t.reasoning == run.usage.reasoning && t.total == run.usage.total && t.runCount == 1
    ensures t.tokenized == if run.usage.total == 0 then 0 else 1
  {
    OneRunSum(run, Prompt);
    OneRunSum(run, Completion);
    OneRunSum(run, Cached);
    OneRunSum(run, Reasoning);
    OneRunSum(run, Total);
    OneRunSum(run, Counted);
    OneRunSum(run, Tokenized);
  }

  /** Ties go to the even neighbour. */
  lemma TiesToEven(n: nat, d: nat)
    requires d > 0
    ensures var off := 2 * (RoundedQuotient(n, d) * d - n);
            off == d || off == -(d as int) ==> RoundedQuotient(n, d) % 2 == 0
  {
    QuotientAndRest(n, d);
    var (q, rest, r) := (n / d, n % d, RoundedQuotient(n, d));
    if r == q {
      assert r * d - n == -rest;
    } else {
      assert r == q + 1 && r * d - n == d - rest;
    }
  }

  /** The average per run with tokens is the nearest integer, ties to the even one, and 0 without such a run. */
  lemma AverageMeans(t: Totals)
    ensures Finished(t) == t.(average := Finished(t).average)
    ensures t.tokenized == 0 ==> Finished(t).average == 0
    ensures var off := 2 * (Finished(t).average * t.tokenized - t.total);
            t.tokenized > 0 ==>
              && -(t.tokenized as int) <= off <= t.tokenized
              && (off == t.tokenized || off == -(t.tokenized as int) ==> Finished(t).average % 2 == 0)
  {
    if t.tokenized > 0 {
      TiesToEven(t.total, t.tokenized);
    }
  }

  /** A share is the agent's percentage of all tokens, to a tenth. */
  lemma ShareMeans(tokens: nat, total: nat)
    ensures total == 0 ==> Share(tokens, total) == 0.0
    ensures total > 0 ==>
              var exact := 100.0 * tokens as real / total as real;
              && -0.05 <= Share(tokens, total) - exact <= 0.05
              && (Share(tokens, total) * 10.0).Floor as real == Share(tokens, total) * 10.0
  {
    if total > 0 {
      var exact := tokens as real / total as real * 100.0;
      assert exact == 100.0 * tokens as real / total as real;
    }
  }

  /** Agents with more tokens are reported first. */
  lemma HeaviestFirst(agents: seq<AgentStat>, i: nat, j: nat)
    requires SortedBy(agents, HeavierFirst) && i < j < |agents|
    ensures agents[i].totals.total >= agents[j].totals.total
    ensures agents[i].totals.total == agents[j].totals.total ==> TextLeq(agents[i].sortName, agents[j].sortName)
  {
  }
}
