/** Recomputing episode and series status from publishing schedules (publishing_operations/service.py). */
module PublishState {
  import opened WorkflowRows

  predicate AnyStatus(schedules: seq<Schedule>, status: ScheduleStatus) {
    exists s <- schedules :: s.status == status
  }

  predicate AllStatus(schedules: seq<Schedule>, status: ScheduleStatus) {
    forall s <- schedules :: s.status == status
  }

  function Own(schedules: seq<Schedule>, episode: Id): (own: seq<Schedule>)
    ensures forall s :: s in own <==> s in schedules && s.caption.episode == episode
  {
    if schedules == [] then []
    else
      var (init, last) := (schedules[..|schedules| - 1], schedules[|schedules| - 1]);
      assert schedules == init + [last];
      if last.caption.episode == episode then Own(init, episode) + [last] else Own(init, episode)
  }

  function EpisodeAfter(status: EpisodeStatus, own: seq<Schedule>): EpisodeStatus {
    if AnyStatus(own, Posted) then if AllStatus(own, Posted) then Published else PartiallyPublished
    else if AnyStatus(own, Queued) then Scheduled
    else if status in {Scheduled, PartiallyPublished, Published} then Captioning
    else status
  }

  function SeriesAfter(status: SeriesStatus, schedules: seq<Schedule>): SeriesStatus {
    if AnyStatus(schedules, Posted) then SeriesPartiallyPublished
    else if AnyStatus(schedules, Queued) || status in {SeriesPartiallyPublished, SeriesComplete} then InProduction
    else status
  }

  function EpisodesAfter(episodes: map<Id, Episode>, schedules: seq<Schedule>): map<Id, Episode> {
    map e | e in episodes :: episodes[e].(status := EpisodeAfter(episodes[e].status, Own(schedules, e)))
  }

  /** The episodes while the loop has been through `done`. */
  ghost function Partly(episodes: map<Id, Episode>, schedules: seq<Schedule>, done: seq<Id>): map<Id, Episode> {
    map e | e in episodes :: if e in done then EpisodesAfter(episodes, schedules)[e] else episodes[e]
  }

  lemma PartlyStep(episodes: map<Id, Episode>, schedules: seq<Schedule>, done: seq<Id>, e: Id)
    requires e in episodes && e !in done
    ensures Partly(episodes, schedules, done + [e]) ==
            Partly(episodes, schedules, done)[e :=
                episodes[e].(status := EpisodeAfter(episodes[e].status, Own(schedules, e)))]
  {
  }

  lemma AllRefreshed(episodes: map<Id, Episode>, schedules: seq<Schedule>, ids: seq<Id>)
    requires forall e :: e in ids <==> e in episodes
    ensures Partly(episodes, schedules, ids[..|ids|]) == EpisodesAfter(episodes, schedules)
  {
    assert ids[..|ids|] == ids;
  }

  /** `schedules_by_episode.get(episode.id, [])`. */
  function Group(groups: map<Id, seq<Schedule>>, e: Id): seq<Schedule> {
    if e in groups then groups[e] else []
  }

  class Publishing {
    var series: Series
    var episodes: map<Id, Episode>
    var schedules: seq<Schedule>

    constructor (series: Series, episodes: map<Id, Episode>, schedules: seq<Schedule>)
      ensures this.series == series && this.episodes == episodes && this.schedules == schedules
    {
      this.series, this.episodes, this.schedules := series, episodes, schedules;
    }

    /** `_refresh_series_publish_state`; `ids` is the series' episodes in any order. */
    method Refresh(ids: seq<Id>)
      requires forall e :: e in ids <==> e in episodes
      requires forall i, j | 0 <= i < j < |ids| :: ids[i] != ids[j]
      modifies this`series, this`episodes
      ensures episodes == EpisodesAfter(old(episodes), schedules)
      ensures series == old(series).(status := SeriesAfter(old(series).status, schedules))
    {
      RefreshEpisodes(ids);
      if AnyStatus(schedules, Posted) {
        series := series.(status := SeriesPartiallyPublished);
      } else if AnyStatus(schedules, Queued) || series.status in {SeriesPartiallyPublished, SeriesComplete} {
        series := series.(status := InProduction);
      }
    }

    method RefreshEpisodes(ids: seq<Id>)
      requires forall e :: e in ids <==> e in episodes
      requires forall i, j | 0 <= i < j < |ids| :: ids[i] != ids[j]
      modifies this`episodes
      ensures episodes == EpisodesAfter(old(episodes), schedules)
    {
      var byEpisode := ByEpisode();
      ghost var before := episodes;
      for i := 0 to |ids|
        invariant episodes == Partly(before, schedules, ids[..i])
      {
        var e := ids[i];
        assert e in ids && e !in ids[..i] && ids[..i + 1] == ids[..i] + [e];
        RefreshNext(before, ids[..i], e, Group(byEpisode, e));
      }
      AllRefreshed(before, schedules, ids);
    }

    /** One turn of the episode loop. */
    method RefreshNext(ghost before: map<Id, Episode>, ghost done: seq<Id>, e: Id, own: seq<Schedule>)
      requires e in before && e !in done && own == Own(schedules, e)
      requires episodes == Partly(before, schedules, done)
      modifies this`episodes
      ensures episodes == Partly(before, schedules, done + [e])
    {
      PartlyStep(before, schedules, done, e);
      var status := StatusFrom(own, episodes[e].status);
      episodes := episodes[e := episodes[e].(status := status)];
    }

    /** The branches of the episode loop. */
    method StatusFrom(own: seq<Schedule>, current: EpisodeStatus) returns (status: EpisodeStatus)
      ensures status == EpisodeAfter(current, own)
    {
      status := current;
      if AnyStatus(own, Posted) {
        if AllStatus(own, Posted) {
          status := Published;
        } else {
          status := PartiallyPublished;
        }
      } else if AnyStatus(own, Queued) {
        status := Scheduled;
      } else if status in {Scheduled, PartiallyPublished, Published} {
        status := Captioning;
      }
    }

    /** Grouping the schedules under their episodes, in order. */
    method ByEpisode() returns (groups: map<Id, seq<Schedule>>)
      ensures forall e: Id :: Group(groups, e) == Own(schedules, e)
    {
      groups := map[];
      for i := 0 to |schedules|
        invariant forall e: Id :: Group(groups, e) == Own(schedules[..i], e)
      {
        var s := schedules[i];
        assert schedules[..i + 1][..i] == schedules[..i];
        var key := s.caption.episode;
        groups := groups[key := Group(groups, key) + [s]];
      }
      assert schedules[..|schedules|] == schedules;
    }
  }

  /** The statuses a refresh leaves say exactly what the schedules say. */
  lemma RefreshMeaning(episodes: map<Id, Episode>, schedules: seq<Schedule>, e: Id)
    requires e in episodes
    ensures var (status, own) := (EpisodesAfter(episodes, schedules)[e].status, Own(schedules, e));
            && (status == Published <==> own != [] && AllStatus(own, Posted))
            && (status == PartiallyPublished <==> AnyStatus(own, Posted) && !AllStatus(own, Posted))
            && (status == Scheduled <==> AnyStatus(own, Queued) && !AnyStatus(own, Posted))
  {
    var own := Own(schedules, e);
    if own != [] {
      assert own[0] in own;
    }
  }

  lemma SeriesMeaning(status: SeriesStatus, schedules: seq<Schedule>)
    ensures SeriesAfter(status, schedules) == SeriesPartiallyPublished <==> AnyStatus(schedules, Posted)
    ensures SeriesAfter(status, schedules) != SeriesComplete
  {
  }

  /** Refreshing again changes nothing. */
  lemma RefreshIdempotent(episodes: map<Id, Episode>, status: SeriesStatus, schedules: seq<Schedule>)
    ensures EpisodesAfter(EpisodesAfter(episodes, schedules), schedules) == EpisodesAfter(episodes, schedules)
    ensures SeriesAfter(SeriesAfter(status, schedules), schedules) == SeriesAfter(status, schedules)
  {
  }

  /** An episode whose recording has started never leaves the recorded stages through a refresh. */
  lemma RefreshKeepsRecorded(episodes: map<Id, Episode>, schedules: seq<Schedule>, e: Id)
    requires e in episodes
    ensures RecordedOrLater(episodes[e].status) ==> RecordedOrLater(EpisodesAfter(episodes, schedules)[e].status)
    ensures EpisodesAfter(episodes, schedules)[e].status in {episodes[e].status, Captioning, Scheduled,
                                                             PartiallyPublished, Published}
  {
  }
}
