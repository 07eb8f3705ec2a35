/**
 The rows one series' production workflow reads and writes.

 Outlines are keyed by their episode, briefs by (episode, kind) and clips by (episode, slot), which the schema
 declares unique, and captions by episode, clip and platform, the schema's key of a caption's video and platform;
 a version row is identified by its number within its outline or brief, likewise unique. A narrative's
 id is its position in the narrative table, which rows never leave.
 */
module WorkflowRows {
  import opened Wrappers

  type Id = nat

  datatype DiscoveryStatus = DiscoveryRunning | DiscoveryPending | DiscoveryComplete | DiscoveryFailed
  datatype SeriesStatus = Researching | Planning | InProduction | SeriesPartiallyPublished | SeriesComplete | Archived
  datatype SeriesStage = DiscoveryStage | NarrativeStage | PlanStage | OutlinesStage | BriefsStage | RecordingsStage
                       | CaptionsStage | ScheduleStage

  datatype Series = Series(status: SeriesStatus, discoveryStatus: DiscoveryStatus, currentStage: SeriesStage,
                           episodePlanGeneratedAt: Option<int>, planLockedAt: Option<int>,
                           briefsApprovedAt: Option<int>, captionsUnlockedAt: Option<int>,
                           schedulingUnlockedAt: Option<int>)

  datatype NarrativeStatus = Candidate | Selected | Retired
  datatype Narrative = Narrative(generation: int, status: NarrativeStatus, isSelected: bool, selectedAt: Option<int>)

  datatype EpisodeStatus = Planned | Outlined | ProfilesSet | BriefReady | Approved | Recorded | Captioning | Scheduled
                         | PartiallyPublished | Published
  datatype Episode = Episode(episodeNumber: int, title: string, premise: string, status: EpisodeStatus,
                             hostProfileId: Option<Id>, guestProfileId: Option<Id>, guestNameOverride: Option<string>)

  datatype OutlineStatus = Placeholder | OutlineGenerated | OutlineDraft | OutlineApproved
  datatype OutlineSource = LockGenerated | OutlineEdit | OutlineRegeneration
  datatype OutlineVersion = OutlineVersion(number: int, title: string, markdown: string, source: OutlineSource)
  datatype Outline = Outline(title: string, markdown: string, status: OutlineStatus, current: Option<int>,
                             approved: Option<int>, approvedAt: Option<int>, versions: seq<OutlineVersion>)

  datatype BriefKind = Host | Guest
  datatype BriefStatus = BriefGenerated | BriefDraft | BriefApproved
  datatype BriefSource = Generation | BriefEdit | BriefRegeneration
  /** A brief version cites one version of one episode's outline. */
  datatype BriefVersion = BriefVersion(number: int, title: string, markdown: string, source: BriefSource,
                                       outlineEpisode: Id, outlineVersion: int)
  datatype Brief = Brief(title: string, markdown: string, status: BriefStatus, current: Option<int>,
                         approved: Option<int>, approvedAt: Option<int>, approvalInvalidatedAt: Option<int>,
                         versions: seq<BriefVersion>)

  datatype ProfileKind = HostProfile | GuestProfile
  datatype Profile = Profile(id: Id, kind: ProfileKind, isActive: bool, name: string)

  ghost predicate UniqueIds(profiles: seq<Profile>) {
    forall p <- profiles, q <- profiles :: p.id == q.id ==> p == q
  }

  /** The profiles table, in the order its listing returns it. */
  type Library = profiles: seq<Profile> | UniqueIds(profiles)

  // ----- what is produced from an approved pair -----

  datatype VideoStatus = VideoMissing | VideoUploaded | VideoComplete | VideoLocked
  datatype TranscriptStatus = TranscriptUploaded | Processed | TranscriptFailed
  /** An episode's video slot and transcript; without a row they are `NO_MEDIA`. */
  datatype Media = Media(hasFile: bool, status: VideoStatus, lockedAt: Option<int>,
                         transcript: Option<TranscriptStatus>)
  const NO_MEDIA := Media(false, VideoMissing, None, None)

  datatype Platform = LinkedIn | Facebook | YouTube | Instagram | TikTok | XPlatform
  /** A caption row: the full episode's, or with a clip slot that clip's. */
  datatype CaptionKey = CaptionKey(episode: Id, clip: Option<int>, platform: Platform)
  datatype CaptionStatus = NotStarted | CaptionReady | CaptionFailed
  datatype Caption = Caption(status: CaptionStatus, text: string)

  datatype ScheduleStatus = Queued | Posted | PostFailed | PostCancelled
  datatype Schedule = Schedule(caption: CaptionKey, status: ScheduleStatus)

  /** Clips are keyed by episode and slot and tell whether their video is uploaded. */
  datatype Production = Production(media: map<Id, Media>, clips: map<(Id, int), bool>,
                                   captions: map<CaptionKey, Caption>, schedules: seq<Schedule>)
  const NOTHING := Production(map[], map[], map[], [])

  datatype HttpError = NotFound | BadRequest | Conflict | BadGateway | ServerError

  datatype State = State(series: Series, ledger: nat, narratives: seq<Narrative>, episodes: map<Id, Episode>,
                         outlines: map<Id, Outline>, briefs: map<(Id, BriefKind), Brief>, production: Production,
                         nextId: Id)

  function Require(condition: bool, error: HttpError): Result<(), HttpError> {
    if condition then Ok(()) else Err(error)
  }

  /** `title or current`: an absent or empty title keeps the current one. */
  function Given(title: Option<string>, current: string): string {
    if title.Some? && title.value != "" then title.value else current
  }

  // ----- the rows of one episode -----

  datatype EpisodeRows = EpisodeRows(episode: Episode, outline: Option<Outline>, host: Option<Brief>,
                                     guest: Option<Brief>)
  {
    function Brief(kind: BriefKind): Option<Brief> {
      if kind == Host then host else guest
    }

    function WithBrief(kind: BriefKind, brief: Brief): EpisodeRows {
      if kind == Host then this.(host := Some(brief)) else this.(guest := Some(brief))
    }
  }

  function Row<K, V>(table: map<K, V>, key: K): Option<V> {
    if key in table then Some(table[key]) else None
  }

  function PutRow<K, V>(table: map<K, V>, key: K, row: Option<V>): map<K, V> {
    if row.Some? then table[key := row.value] else table - {key}
  }

  function RowsOf(s: State, e: Id): EpisodeRows
    requires e in s.episodes
  {
    EpisodeRows(s.episodes[e], Row(s.outlines, e), Row(s.briefs, (e, Host)), Row(s.briefs, (e, Guest)))
  }

  function WithRows(s: State, e: Id, rows: EpisodeRows): State {
    s.(episodes := s.episodes[e := rows.episode],
       outlines := PutRow(s.outlines, e, rows.outline),
       briefs := PutRow(PutRow(s.briefs, (e, Host), rows.host), (e, Guest), rows.guest))
  }

  /** Writing one episode's rows leaves every other episode's rows alone. */
  lemma RowsAfter(s: State, e: Id, rows: EpisodeRows, f: Id)
    requires f in s.episodes || f == e
    ensures RowsOf(WithRows(s, e, rows), f) == if f == e then rows else RowsOf(s, f)
  {
  }

  lemma OutlineWritten(s: State, e: Id, outline: Outline)
    requires e in s.episodes
    ensures WithRows(s, e, RowsOf(s, e).(outline := Some(outline))) == s.(outlines := s.outlines[e := outline])
  {
    var t := WithRows(s, e, RowsOf(s, e).(outline := Some(outline)));
    assert t.episodes == s.episodes && t.briefs == s.briefs;
  }

  lemma EpisodeWritten(s: State, e: Id, episode: Episode)
    requires e in s.episodes
    ensures WithRows(s, e, RowsOf(s, e).(episode := episode)) == s.(episodes := s.episodes[e := episode])
  {
    var t := WithRows(s, e, RowsOf(s, e).(episode := episode));
    assert t.outlines == s.outlines && t.briefs == s.briefs;
  }

  lemma BriefWritten(s: State, e: Id, kind: BriefKind, brief: Brief)
    requires e in s.episodes
    ensures WithRows(s, e, RowsOf(s, e).WithBrief(kind, brief)) == s.(briefs := s.briefs[(e, kind) := brief])
  {
    var t := WithRows(s, e, RowsOf(s, e).WithBrief(kind, brief));
    assert t.episodes == s.episodes && t.outlines == s.outlines && t.briefs == s.briefs[(e, kind) := brief];
  }

  lemma PutTwice<K, V>(table: map<K, V>, key: K, first: Option<V>, second: Option<V>)
    ensures PutRow(PutRow(table, key, first), key, second) == PutRow(table, key, second)
  {
  }

  lemma PutApart<K, V>(table: map<K, V>, k: K, l: K, row: Option<V>, other: Option<V>)
    requires k != l
    ensures PutRow(PutRow(table, k, row), l, other) == PutRow(PutRow(table, l, other), k, row)
  {
  }

  /** The last write to an episode's rows is what counts. */
  lemma WrittenTwice(s: State, e: Id, first: EpisodeRows, second: EpisodeRows)
    ensures WithRows(WithRows(s, e, first), e, second) == WithRows(s, e, second)
  {
    PutTwice(s.outlines, e, first.outline, second.outline);
    var hosted := PutRow(s.briefs, (e, Host), first.host);
    PutApart(hosted, (e, Guest), (e, Host), first.guest, second.host);
    PutTwice(s.briefs, (e, Host), first.host, second.host);
    PutTwice(PutRow(s.briefs, (e, Host), second.host), (e, Guest), first.guest, second.guest);
  }

  predicate Locked(s: State) {
    s.series.planLockedAt.Some?
  }

  predicate RecordedOrLater(status: EpisodeStatus) {
    status in {Recorded, Captioning, Scheduled, PartiallyPublished, Published}
  }

  predicate HasDownstream(status: EpisodeStatus) {
    status in {BriefReady, Approved} || RecordedOrLater(status)
  }

  // ----- version numbering: one more than the greatest so far -----

  function GreatestOutlineVersion(versions: seq<OutlineVersion>): int {
    if versions == [] then 0
    else
      var init := GreatestOutlineVersion(versions[..|versions| - 1]);
      var last := versions[|versions| - 1].number;
      if last > init then last else init
  }

  function GreatestBriefVersion(versions: seq<BriefVersion>): int {
    if versions == [] then 0
    else
      var init := GreatestBriefVersion(versions[..|versions| - 1]);
      var last := versions[|versions| - 1].number;
      if last > init then last else init
  }

  function FindBriefVersion(versions: seq<BriefVersion>, number: int): (r: Option<BriefVersion>)
    ensures r.Some? ==> r.value in versions && r.value.number == number
  {
    if versions == [] then None
    else if versions[|versions| - 1].number == number then Some(versions[|versions| - 1])
    else FindBriefVersion(versions[..|versions| - 1], number)
  }

  predicate HasOutlineVersion(versions: seq<OutlineVersion>, number: int) {
    exists v <- versions :: v.number == number
  }

  ghost predicate OutlineVersionsNumbered(versions: seq<OutlineVersion>) {
    forall i | 0 <= i < |versions| :: versions[i].number == i + 1
  }

  ghost predicate BriefVersionsNumbered(versions: seq<BriefVersion>) {
    forall i | 0 <= i < |versions| :: versions[i].number == i + 1
  }

  /** In a history numbered 1..k the greatest number is k, so the next version continues it. */
  lemma {:induction false} NextOutlineVersion(versions: seq<OutlineVersion>)
    requires OutlineVersionsNumbered(versions)
    ensures GreatestOutlineVersion(versions) == |versions|
  {
    if versions != [] {
      NextOutlineVersion(versions[..|versions| - 1]);
    }
  }

  lemma {:induction false} NextBriefVersion(versions: seq<BriefVersion>)
    requires BriefVersionsNumbered(versions)
    ensures GreatestBriefVersion(versions) == |versions|
    ensures versions != [] ==> FindBriefVersion(versions, |versions|) == Some(versions[|versions| - 1])
  {
    if versions != [] {
      NextBriefVersion(versions[..|versions| - 1]);
    }
  }
}
