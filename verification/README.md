# PodoBot backend: a verified model

PodoBot takes a podcast series from discovery to publishing. This project models the parts of its FastAPI
backend that hold real state machines and algorithms, and proves what they guarantee. Everything here is a
statement about the model; nothing was executed. `dafny verify dfyconfig.toml` checks the whole project.

## What is modelled

**Production workflow.** Seven services write the same rows of a series: narratives, episodes, outlines, briefs
with their version histories, and from the recording on media, clips, captions and schedules. `WorkflowRows`
declares the rows. `NarrativeSteps`, `PlanSteps`, `OutlineSteps`, `BriefSteps` and `LaterSteps` specify the
operations as functions from tables to tables or an error; an operation that raises commits nothing.
`DiscoveryService`, `EpisodePlanService`, `OutlineService` and `BriefService` are the services themselves, classes
whose methods write the shared `Session` statement by statement, with the source's loops, and are proved to leave
exactly the specified tables. `WorkflowInvariant` states what every reachable state satisfies and what no step takes
back; `PlanSafety`, `OutlineSafety`, `BriefSafety`, `SelectionSafety` and `LaterSafety` prove it of each operation, and
`WorkflowRuns` draws the conclusions for every interleaving of all thirty of them, and `ApprovalGap` shows what
they do not prevent. `PlanOutcomes`, `DraftOutcomes` and `LaterOutcomes` say of each command alone when it succeeds,
which error refuses it otherwise and what every row is afterwards, without mentioning the steps' own functions.
`EpisodeNumbering` is about the numbers between single-row writes, `PublishState` about the
statuses publishing recomputes.

**Discovery ranking** (`DiscoveryRanking`): the quadratic greedy selection is a prefix of an independent
round-robin order. **Keyset pagination** (`KeysetPagination`, `Base64Url`): walks over fixed and changing tables.
**Signed tokens** (`SignedTokens`): framing over an arbitrary MAC. **Tool execution and circuit breaker**
(`ToolExecution`, `CircuitRuns`, `ToolCallOutcomes`): a timed state machine over whole runs, and every guard and
field of a single call. **Language-model fallback**
(`ModelFallback`, `CompletionSearch`, `CompletionOutcomes`, `ProviderFallback`): the nested loops as one search, and
what each HTTP outcome leads to, for every outcome oracle. **Token accounting** (`TokenStats`, `TokenWindows`): four
aggregates of one loop over a calendar window. **Prompts** (`Prompts`): one active
version per template. **Answer validation** (`ClipSuggestions`, `PlanGeneration`, `CastResolution`): what an
accepted answer is, and that its names resolve.

Clocks, generated texts, the language model's answers, HTTP outcomes, the profile library and what the publisher
makes of a post are parameters and range over everything. Outlines and media are identified by their episode,
briefs by episode and kind, clips by episode and slot, captions by episode, clip and platform, which the schema
makes unique; a narrative is identified by its place in its table.

## Where the code promises less than it seems to

- A reorder compares sets, so a payload that repeats an id is accepted although the error text asks for "every
  episode exactly once". A run keeps its plan numbered 1..n if and only if no reorder repeats an id
  (`NumberedExactly`); everything else holds regardless, and afterwards an addition can fail on a taken number.
- Parking numbers at 1000 + index collides in no write order if and only if there are at most 1000 episodes
  (`ParkingCollisionFree`); renumbering after a removal relies on its ascending order (`RenumberAnyOrder`).
- The series' stage says little: re-selecting the narrative of a locked plan sends it back to PLAN
  (`ReselectingAfterLock`). Guarantees are therefore stated on timestamps and statuses.
- An episode can be scheduled with its briefs unapproved: once it is recorded an edit withdraws the approval, and
  captions and schedules do not ask again (`ScheduledWithoutApproval`). The pair of a recorded or scheduled
  episode is approved if and only if the episode was APPROVED when it entered those statuses
  (`ApprovedFromRecordingOn`, `RecordedEntered`).
- The branch that locks captions again never withdraws an unlock: no recording stops being ready (`UnlocksStay`).
- BROKEN is absorbing for a critical server except for an LLM row whose adapter seeding still has to migrate to
  a better status (`BrokenAbsorbs`, `BrokenLlmRowRecovers`).
- One provider instance can request the model listing again, but only after a listing whose body was not JSON: that
  error leaves the cache unset (`DiscoveryRepeats`, `DiscoveryTwice`).
- An empty listing takes one page, not zero. A signed URL is valid until the whole second at or before its
  expiry, and an expiry of zero seconds means the default one.

## Model

| member | source | states |
|---|---|---|
| WorkflowRuns.ReachableInv | backend/app/modules/briefs/service.py:456-485 | the workflow invariant (casting, histories, pairs, gate, lock, selection, distinct numbers, production, unlocks) holds in every state of every run of the 30 operations, in any order |
| WorkflowRuns.RunAdvances | backend/app/modules/episodes/service.py:430-435 | what a state has settled (lock, plan, pinned outlines, recorded briefs, histories, generations, ready recordings and captions, unlock times) every later state of the run keeps |
| WorkflowRuns.BriefsPinOutline | backend/app/modules/outlines/service.py:18-26 | once an episode has briefs its outline never changes again, is approved at its current version, and every brief version ever written cites that version |
| WorkflowRuns.BriefsComeInPairs | backend/app/modules/briefs/service.py:189-219 | host and guest brief exist together and are approved together, each at its current version and at one time; otherwise both approvals are empty |
| WorkflowRuns.GateTracksApprovals | backend/app/modules/briefs/service.py:456-485 | `briefs_approved_at` is set exactly while some episode has two approved brief rows; stage RECORDINGS only with the gate open |
| WorkflowRuns.GateKeepsFirstValue | backend/app/modules/briefs/service.py:463-471 | while the gate stays open over a stretch of a run it keeps its first value |
| WorkflowRuns.LockFreezesPlan | backend/app/modules/episodes/service.py:430-435 | from the lock to the end of the run: same lock time, same episodes, exactly one outline each, same selected narrative |
| WorkflowRuns.LockFreezesEpisodes | backend/app/modules/episodes/service.py:430-442 | and every episode keeps its number, texts and casting |
| WorkflowRuns.PlanIsNumbered | backend/app/modules/episodes/models.py:27 | until a reorder of the run repeats an id the episode numbers are exactly 1..n |
| WorkflowRuns.NumberedExactly | backend/app/modules/episodes/service.py:239-243 | the plan is numbered 1..n in every state of a run if and only if no successful reorder of the run repeats an id |
| WorkflowRuns.NumbersDiffer | backend/app/modules/episodes/models.py:27 | whatever was reordered, numbers are positive and no two episodes share one |
| WorkflowRuns.HostIsNotGuest | backend/app/modules/episodes/service.py:284-290 | in every reachable state no episode has one profile as both host and guest |
| WorkflowRuns.RecordingFreezesBriefs | backend/app/modules/briefs/service.py:706-714 | from recording on an episode stays in the recorded statuses and neither of its briefs appears, changes or goes |
| WorkflowRuns.OutlineHistoryGrows | backend/app/modules/outlines/service.py:287-314 | outline histories are append-only and numbered 1..k; the row's current version and texts are the newest |
| WorkflowRuns.BriefHistoryGrows | backend/app/modules/briefs/service.py:320-348 | the same for brief histories, every version citing the outline's current version |
| WorkflowRuns.OneNarrativeSelected | backend/app/modules/narratives/models.py:17-24 | in every reachable state at most one narrative is selected, `is_selected` mirrors the status, and generation numbers never fall or change |
| WorkflowRuns.StepIsSound | backend/app/modules/briefs/service.py:46-219 | every operation, in every state satisfying the invariant, keeps it and takes nothing back; a plan numbered 1..n stays so if and only if the operation is no reorder repeating an id |
| WorkflowRuns.InitialInv | backend/app/modules/strategy/service.py:340-380 | a series created empty or converted from a strategy idea satisfies the invariant |
| WorkflowRuns.UnlockedExactly | backend/app/modules/recordings/service.py:599-625 | in every reachable state captions are unlocked if and only if some episode has a video and a usable transcript, scheduling if and only if some caption is ready |
| WorkflowRuns.UnlocksStay | backend/app/modules/recordings/service.py:617-625 | once unlocked, captions and scheduling stay unlocked with their first time for the rest of the run, so the branch that locks captions again withdraws nothing |
| WorkflowRuns.SchedulesAreBacked | backend/app/modules/schedules/service.py:459-483 | in every reachable state each schedule row has a ready caption, a ready recording, both briefs, an approved outline and a locked plan |
| WorkflowRuns.RecordedEntered | backend/app/modules/briefs/service.py:706-714 | every recorded episode of a run became recorded at one of its steps |
| WorkflowRuns.ApprovedFromRecordingOn | backend/app/modules/captions/service.py:511-517 | at every later moment its pair is approved if and only if the episode was APPROVED when that step was taken |
| ApprovalGap.ScheduledWithoutApproval | backend/app/modules/schedules/service.py:43-66 | a gap: from every approved episode without media, uploading video and transcript, opening captions, editing a brief, writing a caption and creating a schedule all succeed, and the episode is SCHEDULED with its pair unapproved |
| ApprovalGap.ScheduleCreated | backend/app/modules/schedules/service.py:613-634 | a first queued schedule makes its episode SCHEDULED without looking at its briefs |
| OutlineSafety.UpdateOutlineIsSound | backend/app/modules/outlines/service.py:49-77 | a manual edit keeps the invariant and every settled fact |
| OutlineSafety.RegenerateOutlineIsSound | backend/app/modules/outlines/service.py:79-130 | so does a regeneration, which may withdraw an outline's approval but never once briefs exist |
| OutlineSafety.ApproveOutlineIsSound | backend/app/modules/outlines/service.py:132-153 | so does an approval |
| OutlineSafety.OpeningChangesNothing | backend/app/modules/outlines/service.py:256-273 | in every state satisfying the invariant opening the outline workspace repairs nothing |
| OutlineSafety.EditableUntilBriefs | backend/app/modules/outlines/service.py:434-437 | with briefs an outline is refused for editing; in the earlier statuses it is editable and there are no briefs |
| OutlineSafety.RevisedKeeps | backend/app/modules/outlines/service.py:287-314 | a new version is numbered one above the history and becomes the row's text |
| BriefSafety.GeneratePairIsSound | backend/app/modules/briefs/service.py:46-98 | generating a pair keeps the invariant: both briefs cite the approved outline version |
| BriefSafety.UpdateBriefIsSound | backend/app/modules/briefs/service.py:100-133 | editing one brief keeps the invariant; the new version cites what the current one cites |
| BriefSafety.RegenerateBriefIsSound | backend/app/modules/briefs/service.py:135-187 | regenerating one brief keeps the invariant |
| BriefSafety.ApprovePairIsSound | backend/app/modules/briefs/service.py:189-219 | approving a pair keeps the invariant |
| BriefSafety.InvalidatedPair | backend/app/modules/briefs/service.py:431-454 | after a rewrite of either brief the episode is brief-ready with an unapproved, complete pair |
| BriefSafety.EditingWithdrawsApproval | backend/app/modules/briefs/service.py:100-133 | until recording every existing brief can be edited, and the edit withdraws the pair's approval |
| BriefSafety.GeneratableExactly | backend/app/modules/briefs/service.py:350-429 | in reachable states a pair can be generated if and only if both profiles are active and of the right kind, the outline is approved and there is no pair |
| BriefSafety.ApprovableExactly | backend/app/modules/briefs/service.py:189-207 | in reachable states a pair can be approved if and only if it exists and recording has not started |
| BriefSafety.RefreshedGate | backend/app/modules/briefs/service.py:456-473 | refreshing the gate makes it agree with the approvals and keeps an earlier opening time |
| BriefSteps.CountTwoIsBothKinds | backend/app/modules/briefs/models.py:21-23 | the group-by count of two means both kinds are approved, (episode, kind) being unique |
| PlanSafety.GetPlanIsSound | backend/app/modules/episodes/service.py:44-50 | generating a plan on first view, or casting an uncurated one, keeps the invariant |
| PlanSafety.EnsureGeneratedPlanIsSound | backend/app/modules/episodes/service.py:52-103 | generation, replacement and casting keep the invariant, also right after a new selection |
| PlanSafety.DraftedNumbers | backend/app/modules/episodes/service.py:88-101 | generated episodes are numbered 1..n |
| PlanSafety.NamesOfDifferentKinds | backend/app/modules/episodes/service.py:496-509 | names resolved against the host and the guest list never give one profile |
| PlanSafety.AddEpisodeIsSound | backend/app/modules/episodes/service.py:147-166 | adding an episode keeps the invariant, and count + 1 continues the numbering if and only if it was 1..n |
| PlanSafety.AdditionFits | backend/app/modules/episodes/models.py:27 | in a plan numbered 1..n count + 1 is free, so an addition never fails on the unique number |
| PlanSafety.UpdateEpisodeIsSound | backend/app/modules/episodes/service.py:168-185 | editing texts keeps the invariant |
| PlanSafety.RemoveEpisodeIsSound | backend/app/modules/episodes/service.py:216-226 | removing an episode keeps the invariant and leaves 1..n, whatever the numbers were |
| PlanSafety.RemovalKeepsOrder | backend/app/modules/episodes/service.py:424-428 | from a plan numbered 1..n removal moves exactly the later episodes up by one and changes nothing else about any |
| PlanSafety.ReorderIsSound | backend/app/modules/episodes/service.py:228-264 | a reorder keeps the invariant and every settled fact, whatever its payload repeats |
| PlanSafety.ReorderNeedsDistinctIds | backend/app/modules/episodes/service.py:239-243 | after an accepted reorder the plan is numbered 1..n if and only if the payload names no id twice: comparing sets lets repeats through |
| PlanSafety.AssignProfilesIsSound | backend/app/modules/episodes/service.py:266-298 | assigning profiles keeps the invariant, host and guest differing |
| PlanSafety.LockPlanIsSound | backend/app/modules/episodes/service.py:300-328 | locking keeps the invariant |
| PlanSafety.LockedPlanIsComplete | backend/app/modules/episodes/service.py:308-325 | after a lock every episode has a named host, a different named guest, its plan unchanged and an outline made from its own title |
| SelectionSafety.RunDiscoveryIsSound | backend/app/modules/discovery/service.py:38-82 | a discovery run keeps the invariant |
| SelectionSafety.RegenerateNarrativesIsSound | backend/app/modules/discovery/service.py:84-104 | regeneration keeps the invariant, after a lock too |
| SelectionSafety.RegenerationRows | backend/app/modules/discovery/service.py:206-219 | regeneration retires exactly the unselected candidates, leaves the selected and retired rows alone and adds three candidates of a generation above every earlier one |
| SelectionSafety.SelectNarrativeIsSound | backend/app/modules/discovery/service.py:106-142 | a selection keeps the invariant |
| SelectionSafety.SelectingSelects | backend/app/modules/discovery/service.py:123-130 | afterwards the chosen narrative is the selected one |
| SelectionSafety.QueriesAgree | backend/app/modules/discovery/service.py:171-179 | the two queries for the selected narrative, with and without the status, give the same row |
| SelectionSafety.DiscoveryBlockedBySelection | backend/app/modules/discovery/service.py:40-48 | a discovery run is refused exactly while a narrative is selected, hence always after a lock |
| SelectionSafety.ReselectingAfterLock | backend/app/modules/discovery/service.py:114-133 | after a lock only the selected narrative can be selected, and that sends the stage back to PLAN while episodes, outlines and briefs stay |
| LaterSafety.LockRecordingIsSound | backend/app/modules/recordings/service.py:494-519 | locking a recording keeps the invariant |
| LaterSafety.LockingNeedsApproval | backend/app/modules/recordings/service.py:498-516 | a recording is locked only with an approved pair, whose briefs are read-only from then on |
| LaterSafety.OpenRecordingsIsSound | backend/app/modules/recordings/service.py:101-112 | opening the recordings workspace keeps the invariant |
| LaterSafety.UploadVideoIsSound | backend/app/modules/recordings/service.py:134-168 | uploading a video keeps the invariant, and nothing ready stops being so |
| LaterSafety.UploadTranscriptIsSound | backend/app/modules/recordings/service.py:170-222 | so does uploading a transcript |
| LaterSafety.RequestClipsIsSound | backend/app/modules/recordings/service.py:418-492 | so does requesting clip suggestions, which keep the clips already uploaded |
| LaterSafety.UploadClipIsSound | backend/app/modules/recordings/service.py:274-323 | so does uploading a clip |
| LaterSafety.OpenCaptionsIsSound | backend/app/modules/captions/service.py:66-72 | opening the captions workspace adds rows without text and keeps the invariant |
| LaterSafety.AddPlatformIsSound | backend/app/modules/captions/service.py:74-131 | so does adding a platform |
| LaterSafety.WriteCaptionIsSound | backend/app/modules/captions/service.py:191-208 | generating, regenerating or editing a caption keeps the invariant: the caption is ready, so scheduling is unlocked |
| LaterSafety.CreateScheduleIsSound | backend/app/modules/schedules/service.py:43-66 | creating a schedule keeps the invariant, whatever the publisher answers |
| LaterSafety.BulkScheduleIsSound | backend/app/modules/schedules/service.py:68-113 | so does scheduling many captions at once |
| LaterSafety.SettleSchedulesIsSound | backend/app/modules/schedules/service.py:115-206 | so does any change to the existing schedules: edits, reschedules, cancellations and synchronisations |
| LaterSafety.ScheduledIsBriefed | backend/app/modules/schedules/service.py:208-250 | an episode with a schedule of a ready caption has briefs |
| WorkflowInvariant.WritingIsSound | backend/app/modules/briefs/service.py:431-454 | a step on one episode's rows that keeps their own invariant keeps the whole table's |
| WorkflowInvariant.AdvancesTransitive | backend/app/modules/episodes/service.py:430-435 | settled facts stay settled over any number of steps |
| PlanOutcomes.GetPlanOutcome | backend/app/modules/episodes/service.py:44-145 | viewing the plan is refused without a selection; a locked plan stays, an empty one is generated, any other is kept and cast only while nobody has touched its casting, with the error of each failing step |
| PlanOutcomes.EnsuringOutcome | backend/app/modules/episodes/service.py:52-145 | the same for generation in general, replacing included: which of the three happens, and what every episode of the result is |
| PlanOutcomes.Generated | backend/app/modules/episodes/service.py:77-101 | a generated plan is exactly the drafts, with new ids, numbers 1..n, their own texts and casting by name, and nothing of the deleted episodes is left in any table |
| PlanOutcomes.NameStandsFor | backend/app/modules/episodes/service.py:496-509 | a name stands for the last active profile of its kind listed under its key, or for none |
| PlanOutcomes.CastBySuggestion | backend/app/modules/episodes/service.py:128-144 | the last suggestion for an episode's number casts it by its names, and without one it stays |
| PlanOutcomes.SelectionOutcome | backend/app/modules/discovery/service.py:106-142 | a selection is refused for an unknown narrative and after a lock for another one; otherwise every narrative row and the series are as stated and the plan is ensured, replacing if and only if another narrative was selected |
| PlanOutcomes.SelectionReplacesPlan | backend/app/modules/discovery/service.py:114-139 | after selecting another narrative of an open plan no old episode remains, and the i-th of the |plan| new ones has the i-th draft's texts, number i + 1 and a new id |
| PlanOutcomes.SelectionKeepsPlan | backend/app/modules/discovery/service.py:135-139 | if that narrative was selected already, or none was, existing episodes keep ids, numbers, texts and statuses, and a plan somebody has cast keeps its casting |
| PlanOutcomes.DiscoveryOutcome | backend/app/modules/discovery/service.py:38-82 | discovery is refused exactly while a narrative is selected; without documents it fails, with them the ledger holds at most five and unselected candidates retire for three of the next generation |
| PlanOutcomes.RegenerateOutcome | backend/app/modules/discovery/service.py:84-104 | regeneration is refused exactly without a ledger and changes narratives only |
| PlanOutcomes.GreatestIsNext | backend/app/modules/discovery/service.py:372-378 | the next generation is the least number above every earlier one, at least 1 |
| PlanOutcomes.AddOutcome | backend/app/modules/episodes/service.py:147-166 | an addition needs an open plan and a free number, and inserts one planned, uncast episode at count + 1 |
| PlanOutcomes.UpdateOutcome | backend/app/modules/episodes/service.py:168-185 | title and premise each follow their own change; everything else of the episode and every other row stays; the error of each failing guard |
| PlanOutcomes.AssignOutcome | backend/app/modules/episodes/service.py:266-298 | host, guest and override each follow their own change, an empty override meaning none; the error of each failing guard, in order |
| PlanOutcomes.RemoveOutcome | backend/app/modules/episodes/service.py:216-226 | a removal takes along exactly the rows of that episode and changes nothing but numbers in the others |
| PlanOutcomes.ReorderOutcome | backend/app/modules/episodes/service.py:228-264 | a reorder is accepted exactly for payloads naming all the plan's episodes and no others while none is recorded, and gives each its last position |
| PlanOutcomes.LockOutcome | backend/app/modules/episodes/service.py:300-328 | a lock needs an open, non-empty plan with all profiles named; planned episodes become outlined and exactly the missing outlines are generated |
| DraftOutcomes.UpdateOutlineOutcome | backend/app/modules/outlines/service.py:49-77 | an edit appends a version with the argument's text as a draft, not approved, or is refused with the error of the first failing guard; the stage follows the approvals |
| DraftOutcomes.RegenerateOutlineOutcome | backend/app/modules/outlines/service.py:79-130 | a regeneration does so for approved outlines too, and they are no longer approved |
| DraftOutcomes.ApproveOutlineOutcome | backend/app/modules/outlines/service.py:132-153 | an approval names the newest version and its time and leaves texts and history |
| DraftOutcomes.OpenOutlinesOutcome | backend/app/modules/outlines/service.py:256-273 | opening the workspace needs a lock, gives each episode without an outline its first one and each outline without a version its own text, and changes nothing else |
| DraftOutcomes.WritesOutline | backend/app/modules/outlines/service.py:275-285 | a write to one outline leaves every other row, and the stage is BRIEFS exactly when all outlines are approved, or else is not left at BRIEFS |
| DraftOutcomes.GeneratePairOutcome | backend/app/modules/briefs/service.py:46-98 | a pair is generated exactly for a castable, unrecorded episode with an approved outline and no brief; both first versions cite the outline's newest version |
| DraftOutcomes.UpdateBriefOutcome | backend/app/modules/briefs/service.py:100-133 | an edited brief gets one version more with the argument's text, the other brief keeps text and history, both lose an approval with the time of its withdrawal, and the gate follows |
| DraftOutcomes.RegenerateBriefOutcome | backend/app/modules/briefs/service.py:135-187 | a regenerated brief likewise, and is refused without active profiles or an approved outline |
| DraftOutcomes.ApprovePairOutcome | backend/app/modules/briefs/service.py:189-219 | an approval marks the newest versions of both briefs with one time, and the gate opens |
| DraftOutcomes.GateFollows | backend/app/modules/briefs/service.py:456-473 | the gate is open exactly while some episode has both briefs approved, with its first time, and closes to BRIEFS |
| LaterOutcomes.UploadVideoOutcome | backend/app/modules/recordings/service.py:134-168 | a video is accepted exactly for an approved pair and an unlocked slot; the slot's status follows what is there |
| LaterOutcomes.UploadTranscriptOutcome | backend/app/modules/recordings/service.py:170-222 | so is a transcript, which alone does not make the slot's video |
| LaterOutcomes.OpenRecordingsOutcome | backend/app/modules/recordings/service.py:101-112 | opening the workspace needs the briefs gate and writes only the captions gate |
| LaterOutcomes.RequestClipsOutcome | backend/app/modules/recordings/service.py:418-492 | clip suggestions need a usable transcript and fill slots 1 to 3, keeping uploaded videos |
| LaterOutcomes.UploadClipOutcome | backend/app/modules/recordings/service.py:274-323 | a clip's video needs an unlocked slot and a suggested clip |
| LaterOutcomes.LockRecordingOutcome | backend/app/modules/recordings/service.py:494-519 | a lock needs video and usable transcript, keeps files and an earlier lock's time, and the episode is RECORDED |
| LaterOutcomes.CaptionGateFollows | backend/app/modules/recordings/service.py:599-625 | captions are unlocked exactly while some recording is complete, with their first time; the stage moves between RECORDINGS and CAPTIONS only |
| LaterOutcomes.OpenCaptionsOutcome | backend/app/modules/captions/service.py:303-334 | exactly the three platforms of each episode with a usable transcript get a row, and no caption is overwritten |
| LaterOutcomes.AddPlatformOutcome | backend/app/modules/captions/service.py:74-131 | the error of each failing guard in order, or one empty row more |
| LaterOutcomes.WriteCaptionOutcome | backend/app/modules/captions/service.py:133-208 | a written caption is ready, an approved or recorded episode starts captioning, and scheduling is unlocked with its first time |
| LaterOutcomes.CreateScheduleOutcome | backend/app/modules/schedules/service.py:43-66 | a schedule needs a ready caption that is not on its way; that caption's row has the publisher's answer, every other row stays, and the statuses follow |
| LaterOutcomes.BulkScheduleOutcome | backend/app/modules/schedules/service.py:68-113 | a bulk request writes exactly the ready captions asked for that are not on their way, each once |
| LaterOutcomes.SettleOutcome | backend/app/modules/schedules/service.py:115-206 | after any change of schedules the rows are exactly those some schedule has become, and the statuses follow |
| LaterOutcomes.StatusesFollow | backend/app/modules/schedules/service.py:613-644 | every episode's and the series' status after a change is the one its schedules call for, branch by branch, from the status before |
| OutlineService.OutlineService.UpdateOutline | backend/app/modules/outlines/service.py:49-77 | refines its specified step: exactly those tables on success, nothing changed on an error |
| OutlineService.OutlineService.RegenerateOutline | backend/app/modules/outlines/service.py:79-130 | refines its specified step: exactly those tables on success, nothing changed on an error |
| OutlineService.OutlineService.ApproveOutline | backend/app/modules/outlines/service.py:132-153 | refines its specified step: exactly those tables on success, nothing changed on an error |
| OutlineService.OutlineService.GetWorkspace | backend/app/modules/outlines/service.py:42-47 | both repair loops together leave exactly the specified outlines |
| OutlineService.OutlineService.CreateOutlineForEpisode | backend/app/modules/outlines/service.py:188-226 | row, first version and current pointer make one new outline |
| BriefService.BriefService.GeneratePair | backend/app/modules/briefs/service.py:46-98 | refines its specified step: exactly those tables on success, nothing changed on an error |
| BriefService.BriefService.UpdateBrief | backend/app/modules/briefs/service.py:100-133 | refines its specified step: exactly those tables on success, nothing changed on an error; including the invalidation of the pair |
| BriefService.BriefService.RegenerateBrief | backend/app/modules/briefs/service.py:135-187 | refines its specified step: exactly those tables on success, nothing changed on an error |
| BriefService.BriefService.ApprovePair | backend/app/modules/briefs/service.py:189-219 | refines its specified step: exactly those tables on success, nothing changed on an error; with the loop over both briefs |
| BriefService.BriefService.InvalidatePairApproval | backend/app/modules/briefs/service.py:431-454 | the loop over an episode's briefs, the status and the gate together |
| BriefService.BriefService.RefreshSeriesBriefGate | backend/app/modules/briefs/service.py:456-473 | the gate's branches over the approved episodes found |
| WorkflowSession.Session.ApprovedEpisodeIds | backend/app/modules/briefs/service.py:475-485 | grouping and counting finds exactly the episodes whose pair is approved |
| WorkflowSession.ReachableIsValid | backend/app/modules/episodes/models.py:27 | every state satisfying the invariant has the distinct positive numbers the services ask of the session, so their calls in sequence are a run |
| WorkflowSession.Session.Episodes | backend/app/modules/episodes/service.py:390-396 | the listing holds every episode once, ascending by number |
| EpisodePlanService.EpisodePlanService.GetPlan | backend/app/modules/episodes/service.py:44-50 | plan generation on view, rolled back on an error |
| EpisodePlanService.EpisodePlanService.EnsureGeneratedPlan | backend/app/modules/episodes/service.py:52-103 | casting, deletion with its cascade and the loop adding drafts leave the specified tables, which `PlanOutcomes.EnsuringOutcome` describes row by row |
| EpisodePlanService.EpisodePlanService.SuggestProfilesForUncuratedPlan | backend/app/modules/episodes/service.py:105-145 | the casting loop leaves the specified episodes |
| EpisodePlanService.EpisodePlanService.AddEpisode | backend/app/modules/episodes/service.py:147-166 | refines its specified step: one row at count + 1, or nothing changed on an error, a taken number included |
| EpisodePlanService.EpisodePlanService.UpdateEpisode | backend/app/modules/episodes/service.py:168-185 | refines its specified step: exactly those tables on success, nothing changed on an error |
| EpisodePlanService.EpisodePlanService.RemoveEpisode | backend/app/modules/episodes/service.py:216-226 | refines its specified step: exactly those tables on success, nothing changed on an error; with the cascade and the renumbering loop |
| EpisodePlanService.EpisodePlanService.RenumberEpisodes | backend/app/modules/episodes/service.py:424-428 | the ascending loop gives every episode its rank, the numbers distinct after every write |
| EpisodePlanService.AscendingWrites | backend/app/modules/episodes/service.py:424-428 | each write of the ascending loop leaves the numbers of all rows distinct |
| EpisodePlanService.EpisodePlanService.ReorderEpisodes | backend/app/modules/episodes/service.py:228-264 | parking and assigning leave every episode at its last position in the payload |
| EpisodePlanService.EpisodePlanService.Park | backend/app/modules/episodes/service.py:256-258 | the first loop moves the k-th episode to 1000 + k |
| EpisodePlanService.EpisodePlanService.AssignProfiles | backend/app/modules/episodes/service.py:266-298 | refines its specified step: exactly those tables on success, nothing changed on an error |
| EpisodePlanService.EpisodePlanService.LockPlan | backend/app/modules/episodes/service.py:300-328 | refines its specified step: exactly those tables on success, nothing changed on an error; with the loop over statuses and missing outlines |
| DiscoveryService.DiscoveryService.RunDiscovery | backend/app/modules/discovery/service.py:38-82 | refines its specified step: exactly those tables on success, nothing changed on an error |
| DiscoveryService.DiscoveryService.RegenerateNarratives | backend/app/modules/discovery/service.py:84-104 | refines its specified step: exactly those tables on success, nothing changed on an error |
| DiscoveryService.DiscoveryService.SelectNarrative | backend/app/modules/discovery/service.py:106-142 | refines its specified step, which `PlanOutcomes.SelectionOutcome` describes row by row; rolled back when the plan cannot be generated |
| EpisodeNumbering.RenumberAscending | backend/app/modules/episodes/service.py:424-428 | for any distinct positive numbers, no write of the ascending loop collides and every write lowers its number or leaves it |
| EpisodeNumbering.RenumberingNumbers | backend/app/modules/episodes/service.py:424-428 | renumbering any distinct numbers yields 1..n |
| EpisodeNumbering.RankAfterRemoval | backend/app/modules/episodes/service.py:424-428 | after a removal from 1..n exactly the later numbers drop by one |
| EpisodeNumbering.RenumberAnyOrder | backend/app/modules/episodes/models.py:27 | written in arbitrary order the renumbering is collision-free if and only if at most one episode follows the removed one |
| EpisodeNumbering.CollisionFreeExactly | backend/app/modules/episodes/models.py:27 | rewriting distinct numbers collides in no write order if and only if no row's new number is another's old one |
| EpisodeNumbering.ParkingCollisionFree | backend/app/modules/episodes/service.py:256-258 | parking collides in no write order if and only if there are at most 1000 episodes |
| EpisodeNumbering.AssigningCollisionFree | backend/app/modules/episodes/service.py:260-261 | assigning a payload without repeats to parked episodes collides in no write order |
| EpisodeNumbering.ReorderNumbers | backend/app/modules/episodes/service.py:239-261 | the numbers after a reorder are 1..n if and only if the payload repeats no id, and then follow the payload's order |
| EpisodeNumbering.PayloadLength | backend/app/modules/episodes/service.py:239 | a payload with the right set of ids repeats none if and only if it has the right length |
| PublishState.Publishing.Refresh | backend/app/modules/publishing_operations/service.py:722-765 | the loop over episodes and the series branches leave the specified statuses |
| PublishState.RefreshMeaning | backend/app/modules/publishing_operations/service.py:739-755 | PUBLISHED if and only if the episode has schedules and all are published, PARTIALLY_PUBLISHED if and only if some but not all, SCHEDULED if and only if some queued and none published |
| PublishState.SeriesMeaning | backend/app/modules/publishing_operations/service.py:757-765 | a series is PARTIALLY_PUBLISHED afterwards if and only if some schedule is published, and never COMPLETE |
| PublishState.RefreshIdempotent | backend/app/modules/publishing_operations/service.py:722-765 | refreshing twice is refreshing once |
| PublishState.RefreshKeepsRecorded | backend/app/modules/publishing_operations/service.py:741-755 | a refresh never takes an episode out of the recorded statuses |
| Prompts.PromptService.SeedDefaults | backend/app/agents/service.py:75-112 | the seeding loop leaves the specified templates |
| Prompts.PromptService.CreatePromptVersion | backend/app/agents/service.py:152-192 | archiving and appending leave the specified template; an unknown key still seeds |
| Prompts.HistoriesGrow | backend/app/agents/service.py:152-192 | in every run each template's versions are numbered 1..k with exactly one active, and grow by appending, an active version at most being archived |
| Prompts.SeedingKeepsTemplates | backend/app/agents/service.py:91-107 | seeding leaves every existing template alone, so it never inserts a second version 1; a missing template gets its first default's text as active version 1 |
| Prompts.SeedingRepeatsVersionOne | backend/app/agents/service.py:91-107 | seeding writes into a template if and only if it has no active version, and then repeats number 1 |
| Prompts.NewVersionKeeps | backend/app/agents/service.py:167-189 | a new version has the next number, the requested text and status; created active it is the active one, otherwise every earlier version stays as it was |
| DiscoveryRanking.SourceBalancedSelection | backend/app/modules/discovery/service.py:649-681 | the loop with pops and counts returns min(limit, n) items, at greedily picked positions |
| DiscoveryRanking.GreedyPicksUnique | backend/app/modules/discovery/service.py:656-680 | greedy picks are determined: two runs of the same length agree |
| DiscoveryRanking.DistinctPicks | backend/app/modules/discovery/service.py:656-680 | no input position is picked twice |
| DiscoveryRanking.Fair | backend/app/modules/discovery/service.py:656-680 | at every iteration, while a source still has an item, no source has been picked more than one time more often |
| DiscoveryRanking.RoundRobinIsOrdering | backend/app/modules/discovery/service.py:656-680 | the independent round-robin order lists every position once by (occurrence within its source, position) |
| DiscoveryRanking.GreedyIsRoundRobin | backend/app/modules/discovery/service.py:641-681 | on ranked input the greedy picks are exactly a prefix of the round-robin order |
| DiscoveryRanking.SourcePrefix | backend/app/modules/discovery/service.py:656-680 | each source contributes a prefix of its own ranking |
| DiscoveryRanking.FirstPicksCoverSources | backend/tests/test_discovery_relevance.py:50-99 | with d sources the first d picks come from d different ones |
| DiscoveryRanking.RankDocuments | backend/app/modules/discovery/service.py:624-647 | deduplication, sorting, shortlisting and balancing give the ranked result, whose rows and number `RankedFromRows` and `HowManyAreRanked` state |
| DiscoveryRanking.RankingPromises | backend/app/modules/discovery/service.py:624-647 | at most eight results, first of their key, no key twice; weak rows only when relevant ones are scarce, irrelevant ones only when nothing is relevant |
| DiscoveryRanking.RankedFromRows | backend/app/modules/discovery/service.py:628-647 | the result is the first eight, dealt round-robin, of a ranking of exactly the eligible rows: those of relevance 15 and more if there are three, else all of any relevance, else the five best |
| DiscoveryRanking.HowManyAreRanked | backend/app/modules/discovery/service.py:642-646 | and so exactly min(8, relevant), min(8, of any relevance) or min(5, all) results, a relevant row missing only when eight are returned |
| DiscoveryRanking.FirstAttributeNames | backend/app/modules/discovery/service.py:683-688 | a source's key is the first of id, key, name and provider type that is not empty, else "unknown" |
| DiscoveryRanking.ShortlistRanked | backend/app/modules/discovery/service.py:641-646 | what the balancing receives is ranked, as it presumes |
| DiscoveryRanking.SourceBalanceKey | backend/app/modules/discovery/service.py:683-688 | a source's key is never empty, whichever of its attributes are missing |
| KeysetPagination.PageServes | backend/app/agents/service.py:487-506 | a page lists exactly the newest matching rows past the cursor and hands on a cursor exactly when rows remain |
| KeysetPagination.NewestFirst | backend/app/agents/service.py:495-499 | listed rows go back in time, and of equally old ones the greater id comes first |
| KeysetPagination.PastCursorRows | backend/app/agents/service.py:487-494 | the rows past a cursor are exactly the matching ones that are older, or as old with a smaller id |
| KeysetPagination.ServedNewestFirst | backend/app/agents/service.py:487-506 | so are the rows of a whole walk over a changing table |
| KeysetPagination.WalkStep | backend/app/mcp/service.py:503-522 | one request of a walk: rows served, rows left, next cursor |
| KeysetPagination.FixedTableWalk | backend/app/modules/publishing_operations/service.py:157-184 | over a fixed table the walk ends after ceil(n / limit) pages (one when empty) and the pages concatenate to the whole filtered list, newest first |
| KeysetPagination.ChangingTableNoRepeat | backend/app/modules/publishing_operations/service.py:157-184 | under arbitrary inserts and deletes between pages the served rows are strictly descending, so none repeats |
| KeysetPagination.ChangingTableNoLoss | backend/app/mcp/service.py:503-522 | a finished walk has served every row present throughout |
| KeysetPagination.ExactlyOnce | backend/app/agents/service.py:487-506 | from the start, a row present throughout is served exactly once |
| KeysetPagination.JsonCursorsFaithful | backend/app/schemas/pagination.py:86-106 | the cursors in use meet what the listings need of them, if a key's JSON text parses back |
| KeysetPagination.CursorRoundTrip | backend/app/schemas/pagination.py:86-106 | decoding an encoded cursor gives the row's key back |
| KeysetPagination.PagesNeededIsCeiling | backend/app/schemas/pagination.py:70-83 | the page count is the rounded-up quotient |
| KeysetPagination.ListingUnique | backend/app/agents/service.py:495-499 | (created_at, id) descending determines the listing |
| Base64Url.PaddedRoundTrip | backend/app/files/signed_urls.py:68-73 | padded base64url decodes to what was encoded (RFC 4648, sections 4 and 5) |
| Base64Url.RoundTrip | backend/app/schemas/pagination.py:86-106 | stripping the padding and restoring it still round-trips, for every byte string |
| Base64Url.StripThenPad | backend/app/security/auth.py:188-194 | adding (-length mod 4) equals signs undoes the stripping exactly (RFC 4648, section 3.2) |
| Base64Url.EncodeInjective | backend/app/schemas/pagination.py:86-90 | different byte strings have different encodings |
| Base64Url.EncodedShape | backend/app/security/auth.py:188-189 | an encoding uses the URL-safe alphabet only, hence holds no dot |
| Base64Url.GroupSpells | backend/app/schemas/pagination.py:86-90 | four digits spell in base 64 the number their three bytes spell in base 256 (RFC 4648, section 4) |
| Base64Url.AlphabetInOrder | backend/app/files/signed_urls.py:68-73 | the URL-safe alphabet in the order of its values (RFC 4648, table 2) |
| SignedTokens.SplitJoined | backend/app/files/signed_urls.py:37-42 | splitting at the first dot recovers the two parts of a dot-free payload and its signature |
| SignedTokens.UrlSigner.VerifyCreated | backend/app/files/signed_urls.py:23-58 | a created URL token verifies to its storage key until its expiry second and is expired after it, for any deterministic MAC |
| SignedTokens.UrlSigner.ExpiresAsRequested | backend/app/files/signed_urls.py:23-31 | a URL expires the requested seconds from now, and the configured number when none or zero is requested |
| SignedTokens.UrlSigner.HonouredAsRequested | backend/app/files/signed_urls.py:23-58 | a URL requested for n seconds is honoured for at least n - 1 of them and refused after n |
| SignedTokens.UrlSigner.VerifySigned | backend/app/files/signed_urls.py:36-58 | a correctly signed payload yields its key, or after its expiry the expiry error |
| SignedTokens.UrlSigner.VerifyAccepts | backend/app/files/signed_urls.py:36-58 | a token is accepted for a key if and only if it is a signed, decodable, unexpired payload for that key |
| SignedTokens.AccessTokens.DecodeEncoded | backend/app/security/auth.py:78-94 | an encoded token decodes to its claims if they are access claims and unexpired, and to the matching error otherwise (RFC 7515, section 7.1 framing) |
| SignedTokens.AccessTokens.DecodeCreated | backend/app/security/auth.py:67-94 | a created access token decodes to its user until expiry |
| SignedTokens.AccessTokens.DecodeAccepts | backend/app/security/auth.py:78-94 | any token decodes to claims if and only if it has two dot-free parts whose MAC the rest decodes to, the second carrying those claims, of access type and unexpired |
| SignedTokens.AccessTokens.DecodeExpired | backend/app/security/auth.py:90-93 | and is called expired if and only if only the time is against it |
| SignedTokens.SecondsFloor | backend/app/files/signed_urls.py:25-30 | expiry is the whole second at or before the moment |
| ToolExecution.Registry.EnsureDefaults | backend/app/mcp/service.py:31-67 | the seeding loop leaves the specified server rows |
| ToolExecution.Registry.ExecuteTool | backend/app/mcp/service.py:316-432 | checks, run row, client outcome, circuit and audit writes leave exactly the specified rows and result, which `ToolCallOutcomes` states guard by guard and field by field |
| ToolExecution.Registry.TestServer | backend/app/mcp/service.py:277-315 | a server test is an execution of its health-check tool followed by the status write |
| ToolExecution.Registry.RetryRun | backend/app/mcp/service.py:434-455 | a retry is an execution of the earlier run's tool and payload |
| ToolExecution.Refusal | backend/app/mcp/service.py:567-596 | what passes the guards has a known tool, a known server and an available circuit; `ToolCallOutcomes.RefusalExactly` has all guards |
| ToolCallOutcomes.RunExactly | backend/app/mcp/service.py:316-331 | a call is run if and only if every guard holds of the seeded rows: tool and server known, user permitted, one of four caller types, tool enabled and open to that caller, an admin call with a user, server reachable, input valid; each refusal if and only if its guard is the first to fail, and then nothing changes |
| ToolCallOutcomes.RefusalExactly | backend/app/mcp/service.py:567-596 | the same for the guards themselves, error by error |
| ToolCallOutcomes.RunWrites | backend/app/mcp/service.py:333-432 | an accepted call writes its run with every field, two audit entries and its server's row: an answer resets the count and the circuit, a failure counts and at the threshold opens the circuit for the cooldown |
| ToolCallOutcomes.SeededFields | backend/app/mcp/service.py:31-67 | what seeding leaves in each field of a default server's row, old or new |
| ToolCallOutcomes.RetryExactly | backend/app/mcp/service.py:434-455 | a retry is run if and only if the user manages, the run is known and its tool is runnable again for its caller; the error of each failing guard |
| ToolCallOutcomes.RetryWrites | backend/app/mcp/service.py:440-455 | and records the original's tool and caller, the run it retries and the next attempt number |
| ToolCallOutcomes.TestExactly | backend/app/mcp/service.py:277-297 | a test is run if and only if the user manages, the health check is runnable for an administrator and the server is known |
| ToolCallOutcomes.TestVerdict | backend/app/mcp/service.py:296-309 | afterwards the server is healthy, or broken when critical and degraded when not, with the reason and the times, and the second seeding does not undo it |
| ToolExecution.SeededRow | backend/app/mcp/service.py:31-67 | seeding refreshes a known row, inserts a missing one, and touches no other |
| CircuitRuns.ReachableInv | backend/app/mcp/circuit_breaker.py:32-42 | in every run `failure_count` is the number of failed calls since the last success, attempts are numbered and every run is audited |
| CircuitRuns.StepKeepsInv | backend/app/mcp/service.py:316-455 | every operation keeps that invariant |
| CircuitRuns.CriticalServerStops | backend/app/mcp/circuit_breaker.py:24-29 | a critical server's calls are successes followed by at most one failure, the last call |
| CircuitRuns.BrokenStays | backend/app/mcp/circuit_breaker.py:24-29 | a broken critical server that seeding will not improve stays so through every later sequence of seedings, calls, tests and retries, and no run of it is recorded |
| CircuitRuns.BrokenAbsorbs | backend/app/mcp/circuit_breaker.py:24-29 | a broken critical server is unavailable after every such sequence if and only if its row has no adapter left to migrate, or migrates to a status no better |
| CircuitRuns.BrokenRefusesCalls | backend/app/mcp/service.py:325-331 | then, whatever has happened since, every call, retry and test of it is refused and changes nothing |
| CircuitRuns.BrokenLlmRowRecovers | backend/app/mcp/service.py:43-56 | the exception exists: an LLM row from before the adapter change recovers |
| CircuitRuns.ReachablePace | backend/app/mcp/circuit_breaker.py:32-37 | in every run calls past the threshold wait for the cooldown |
| CircuitRuns.FailuresTakeTime | backend/app/mcp/circuit_breaker.py:9-42 | n > k consecutive failures take at least (n - k) cooldowns from the end of the k-th to the start of the n-th, for every threshold at most k |
| ModelFallback.OpenAIProvider.TryChatCompletion | backend/app/agents/llm/openai.py:193-228 | the retry loop makes exactly one round of attempts and never reaches its fall-through; `CompletionOutcomes.Retried` says which outcomes repeat a request |
| ModelFallback.OpenAIProvider.DiscoverChatModels | backend/app/agents/llm/openai.py:230-264 | the listing is requested only without a cache, and cached unless its body is not JSON |
| ModelFallback.OpenAIProvider.ChatCompletion | backend/app/agents/llm/openai.py:147-191 | the candidate loop, the discovery and the second loop make the specified requests in order and end in the specified outcome, which `CompletionOutcomes` states by HTTP outcome |
| ModelFallback.DedupeModelList | backend/app/agents/llm/openai.py:316-324 | the loop keeps the first of equal models |
| ModelFallback.LastAttempt | backend/app/agents/llm/openai.py:292-295 | a round ends within max_retries + 1 attempts |
| ModelFallback.RankModelsSorts | backend/app/agents/llm/openai.py:339-351 | ranking sorts by preferred prefix and name, and keeps each model once |
| CompletionSearch.CompletionIsOneSearch | backend/app/agents/llm/openai.py:147-191 | a completion is one search of candidates then untried discovered models, one round each, ending at the first decisive model |
| CompletionSearch.FirstAnswerWins | backend/app/agents/llm/openai.py:147-191 | it returns an answer if and only if it comes from the first model in that order that does not pass on |
| CompletionSearch.RequestBound | backend/app/agents/llm/openai.py:193-228 | no model is contacted in two rounds, and there are at most (max_retries + 1) requests per model |
| CompletionSearch.CandidatesDistinct | backend/app/agents/llm/openai.py:310-324 | the configured candidates carry no model twice and lose none |
| CompletionSearch.DiscoversIsListing | backend/app/agents/llm/openai.py:230-238 | a completion sends a listing request exactly when the cache is empty and its candidates are exhausted |
| CompletionSearch.DiscoveryRepeats | backend/app/agents/llm/openai.py:230-264 | after a listing request the same provider sends another if and only if the first one's body was not JSON and a later completion exhausts its candidates |
| CompletionSearch.DiscoveryTwice | backend/app/agents/llm/openai.py:240-246 | and then it does happen |
| CompletionOutcomes.Retried | backend/app/agents/llm/openai.py:200-226 | a request is repeated if and only if it was made, retries are left, and its outcome was a transport error or one of the five transient statuses |
| CompletionOutcomes.NextModelContacted | backend/app/agents/llm/openai.py:157-186 | the next model in order is contacted if and only if the last outcome of the one before was a 400, 403 or 404 blaming that model |
| CompletionOutcomes.OthersOnlyAfterBlame | backend/app/agents/llm/openai.py:157-186 | and no other model is contacted after a model whose last outcome was anything else |
| CompletionOutcomes.ResultByLastOutcome | backend/app/agents/llm/openai.py:157-226 | the result for each outcome of the last request: the answer, ValueError for a body that is not JSON, RuntimeError otherwise, but ValueError again when the last model is blamed and an uncached listing is not JSON |
| CompletionOutcomes.ListingRequested | backend/app/agents/llm/openai.py:172-173 | the models are listed if and only if none are cached and the last outcome of every configured model blames it |
| CompletionOutcomes.CacheAfter | backend/app/agents/llm/openai.py:230-264 | what a completion leaves in the cache, for each outcome of the listing |
| CompletionOutcomes.MayContact | backend/app/agents/llm/openai.py:157-186 | which models may be contacted: the configured ones and the cached or listed ones |
| CompletionOutcomes.RankMeans | backend/app/agents/llm/openai.py:345-351 | a model's rank is its place in the table, else that of the first entry it is a dated variant of, else last |
| CompletionOutcomes.DiscoveredInOrder | backend/app/agents/llm/openai.py:339-343 | discovered models are tried by rank in the fixed table, and by name within a rank |
| ProviderFallback.ConfiguredProviders | backend/app/agents/llm/database.py:69-84 | exactly the configured providers, in their fixed order, each once |
| ProviderFallback.WithFallback | backend/app/agents/llm/database.py:51-67 | the first provider that answers wins, an error other than RuntimeError ends the search, and when all pass on every failure is named in order |
| TokenStats.TokenStats | backend/app/agents/service.py:517-663 | the loop over runs leaves totals, agents, timeline and requests that each account for the runs of the window |
| TokenStats.Report | backend/app/agents/service.py:637-662 | the second loop reports each agent with something to show, heaviest first |
| TokenStats.LabelsCover | backend/app/agents/service.py:1012-1031 | every moment's label has a timeline bucket, for every period |
| TokenStats.LabelsDistinct | backend/app/agents/service.py:1012-1031 | no two buckets share a label |
| TokenStats.Conservation | backend/app/agents/service.py:873-897 | grouping by keys that cover the runs loses and duplicates nothing |
| TokenStats.AggregatesAgree | backend/app/agents/service.py:517-663 | prompt, completion and total tokens and run counts agree between totals, agents and timeline, token fields with the requests |
| TokenStats.AgentsAgree | backend/app/agents/service.py:873-897 | every accumulated field sums over the reported agents to the totals |
| TokenStats.TimelineAgrees | backend/app/agents/service.py:587-589 | every accumulated field sums over the timeline to the window |
| TokenStats.RowsAgree | backend/app/agents/service.py:604-635 | every usage field sums over the request list to the window |
| TokenStats.SharesSumTo100 | backend/app/agents/service.py:637-647 | the one-decimal shares of k agents sum to within 0.05 k of 100 when any token was used |
| TokenStats.RoundedTenth | backend/app/agents/service.py:642-644 | rounding to one decimal moves a value by at most 0.05 |
| TokenWindows.WeekWindow | backend/app/agents/service.py:1000-1010 | the week's window starts at midnight of the Monday of the current week |
| TokenWindows.MonthWindow | backend/app/agents/service.py:1000-1010 | the month's window starts at midnight of the last first of a month |
| TokenWindows.DayWindow | backend/app/agents/service.py:1000-1010 | the day's window starts at the last midnight |
| TokenWindows.WindowHolds | backend/app/agents/service.py:565-568 | a run is in the window if and only if it completed, or else was created, between the start and now; each counts once |
| TokenWindows.LabelMeans | backend/app/agents/service.py:1026-1031 | a moment's label is its weekday from Monday, or the week of the month by sevens, the fifth taking the rest |
| TokenWindows.LabelsInOrder | backend/app/agents/service.py:1012-1024 | the buckets run from Monday to Sunday, or from week 1 to week 5 |
| TokenWindows.AverageMeans | backend/app/agents/service.py:893-897 | the average per run with tokens is the nearest integer, ties to the even one |
| TokenWindows.ShareMeans | backend/app/agents/service.py:642-644 | a share is the agent's percentage of all tokens to within 0.05, in whole tenths |
| TokenWindows.OneRunReported | backend/app/agents/service.py:873-891 | over a single run the totals are that run's usage, field by field |
| TokenWindows.HeaviestFirst | backend/app/agents/service.py:655-662 | agents with more tokens are reported first, by name within a tie |
| ClipSuggestions.ValidatedClips | backend/app/agents/clip_suggestions.py:110-144 | accepted if and only if every slot 1..3 has a usable item, and then exactly the first usable item of each slot in slot order |
| ClipSuggestions.ThreeDraftsFillSlots | backend/app/agents/clip_suggestions.py:142-144 | three drafts of distinct slots in 1..3 fill all of them |
| ClipSuggestions.FirstFor | backend/app/agents/clip_suggestions.py:119-140 | the earliest usable item for a slot carries that slot, which is in range |
| ClipSuggestions.FirstForMeans | backend/app/agents/clip_suggestions.py:119-140 | a slot's draft is made of the first item with that slot, both texts and both timecodes, and is missing if and only if there is none |
| PlanGeneration.ValidatedProfileSuggestions | backend/app/modules/episodes/generation.py:325-371 | accepted if and only if every episode is named and the first item naming it matches the library; the result then casts each episode |
| PlanGeneration.CastOnce | backend/app/modules/episodes/generation.py:366-371 | an accepted casting names no episode twice |
| PlanGeneration.CountDecides | backend/app/modules/episodes/generation.py:366-371 | as many suggestions as episodes means every episode has one |
| CastResolution.NameResolves | backend/app/modules/episodes/service.py:496-509 | every name the generator takes from the library resolves to an active profile of its kind, by whatever key names are compared |
| CastResolution.CastingIsComplete | backend/app/modules/episodes/service.py:105-145 | an accepted casting of an uncurated plan leaves every episode with an active host and an active guest |
| CastResolution.DraftsAreCast | backend/app/modules/episodes/service.py:83-101 | where the library has hosts and guests, every episode of an accepted plan is drafted with an active host and an active guest |
| PlanGeneration.ValidatedEpisodePlan | backend/app/modules/episodes/generation.py:120-180 | accepted if and only if there are 1 to 50 items, one has title and premise, and each kept one is cast from the library; the drafts are the first items of each title in order |
| PlanGeneration.PlanTitlesDiffer | backend/app/modules/episodes/generation.py:150-153 | the episodes of an accepted plan have pairwise different titles |
| PlanGeneration.PlanKeepsOrder | backend/app/modules/episodes/generation.py:139-153 | a plan keeps, in the order of the answer, exactly the items with title and premise whose title no earlier such item has |
| PlanGeneration.DraftsMean | backend/app/modules/episodes/generation.py:154-173 | every draft has its item's texts and the library's names; only an empty library leaves a name out |
| PlanGeneration.RefusedCast | backend/app/modules/episodes/generation.py:154-165 | and a plan is refused for its casting if and only if a kept item leaves out a name the library could give |
| PlanGeneration.FirstDecides | backend/app/modules/episodes/generation.py:344-364 | the first item naming an episode decides its casting, and later ones cannot repair it |
| Sequences.DedupeKeys | backend/app/modules/discovery/service.py:631-639 | a `seen` loop leaves distinct keys and loses none |
| Sequences.DedupeKeepsFirst | backend/app/modules/discovery/service.py:631-639 | and keeps the first item of each key |
| Sequences.TextLeqMeans | backend/app/agents/llm/openai.py:339-343 | texts compare as in a dictionary: a prefix first, else by the first character that differs |
| Sequences.StableSortSorts | backend/app/modules/discovery/service.py:641-641 | sorting sorts and permutes |
| Sequences.StableSortIsStable | backend/app/modules/discovery/service.py:641-641 | and keeps the order of items that tie |

## Left out

- Sessions, ORM loading, HTTP wiring, migrations, authentication, permissions and the frontend.
- Concurrent requests: operations on one series, and calls to one server, are sequential.
- Text: prompts, markdown, titles, error details, cleaning, timecode and name normalisation are inputs or arbitrary functions; column widths are not enforced, so a generated outline title over 220 characters is not refused.
- JSON text and lenient base64 decoding: a codec that renders and parses back is a parameter of the cursor and token results.
- MAC strength, key handling and constant-time comparison.
- PATCH payloads with an explicit null title or premise, which the database refuses.
- Thumbnails, media assets, file storage and processing jobs; of a clip suggestion only whether its video is uploaded, and of a video row without a file no more than that there is nothing.
- The recording, caption and schedule services as classes: their steps are functions on values, which loses only the order of their own writes.
- What Buffer does: the publisher's answer is an input, and one step over-approximates editing, rescheduling, cancelling and synchronising by letting every existing schedule take any status or go.
- The failed run that a discovery leaves when the research provider raises, and `get_workspace` of discovery, which only corrects a stale status.
- Research scoring, relevance terms and the evidence shown with a ledger entry.
- The descriptive fields that tool, server and prompt seeding refreshes, and schema validation inside a tool call beyond whether it passes.
- Run details, series names, estimated tokens and `offset_meta`.
- Bulk publishing actions and analytics; the Buffer service is not part of this model.
- Floating point: shares are exact reals rounded to one decimal.
- ReorderEpisodes: does not model the failed commit that more than 1000 episodes, or numbers above 1000 left by a payload that repeated ids, can cause; `ParkingCollisionFree` and `CollisionFreeExactly` say when no write order can fail.
- RemoveEpisode: does not model the failed commit when the renumbering writes, flushed once after the loop, reach the table in another order than the loop's; `RenumberAnyOrder` says exactly when no order fails.
