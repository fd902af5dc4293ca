# A verified model of the OBT dep pipeline

This project models the parts of the Orkid Build Tools where concurrency, ordering or text formats carry real
obligations, and proves what they promise:

* the **concurrent dep scheduler** (`bin_priv/obt.dep.pipeline.py`): a per-dep state machine driven by one dispatch loop
  and two worker pools, its planning phase, and its serial fallback;
* the **printed build order** (`bin_priv/obt.dep.status.py`): Kahn's algorithm with priorities, on its own and against
  the scheduler it says it mirrors;
* the **message deposit** (`bin_pub/obt.net.msg.deposit.py`): one depositor after another, and many at once with
  crashes at any point;
* the **unit-file reader and runner-script printer** (`bin_priv/obt.systemd.runner-create.py`,
  `bin_priv/obt.systemd.run.py`, `scripts/obt/systemd_helpers.py`) against the quoting rules of sections 2.2.1 and 2.2.2
  of the POSIX.1-2017 Shell Command Language;
* the **job ids** (`bin_priv/obt.dep.log.py`): hexadecimal time stamps whose string order is relied on as time order.

`dafny verify dfyconfig.toml` checks everything.

## How it is built

**Scheduler.** `PipelineModel` is the state machine: every block the program runs under its lock is one event (a
tick, a fetch commit, a build commit), and each hand-over of a marked dep to its pool is an event too, since it happens
outside the lock. A run is any sequence of events that are enabled one after the other. What a fetch or a build returns is
a fixed but arbitrary Boolean per dep; the graph is arbitrary (cycles and missing prereqs included).
`PipelineScheduler.Scheduler` is the program's own form, with its dictionaries, lists and loops; each of its methods
is proved equal to one event of the state machine, so every theorem about runs is a theorem about it.
`PipelineInvariant` holds the inductive invariant; `PipelineOutcome` the independent description of the result (a least
fixpoint); `PipelineSafety`, `PipelineProgress`, `PipelineDispatch`, `PipelineReports`, `PipelineOverlap`,
`PipelineCompany`, `PipelineBlame`, `PipelinePlan` and `PipelineSerial` the main theorems.

**Build order.** `KahnOrder.BuildOrder` has the original's indegree dictionary, dependents dictionary and ready list.
Its specification, `IsBuildOrder`, mentions none of them: each step emits a dep of least key among *all* deps that could be
emitted, and at the end none is left. `KahnLaws` derives the rest from that specification alone. `KahnTies` and `OneSlot`
compare it with the scheduler run with one build slot.

**Deposits.** `Deposit.Inbox` is the sequential program, `Depositors` the concurrent one as small steps; `DepositRead` is
the reader on the other side, who takes messages and file names apart again.

**Runner scripts.** `SystemdScript.Shell` reads shell text under the cited rules; it is the partner of the
printer. `SystemdNewline` says what the newline behind a command does, `SystemdAgree` compares the script with the direct
run, start of the shell included: a parameter gives the variables a shell sets for itself and the names it keeps to itself.
`SystemdConfig` closes the circle from the configured variables through the unit file to the command's environment.

## Where the code and its documentation disagree

* **Serial deps do not run alone.** `scripts/obt/_dep_provider.py:71-73` says the scheduler drains the pool and runs such
  a dep alone. It does start on an idle pool, and nothing else starts in its tick (`SerialBuildStartsIdle`,
  `SerialFetchStartsIdle`); but on a later tick another dep joins it exactly when there is a second slot and an
  ordinary dep that is eligible for a build (`SerialBuildGetsCompany`) or pending for a fetch (`SerialFetchGetsCompany`).
  `SerialBuildIsNotAlone` is a run with such an overlap, `OverlapMeans` what holds of every overlap, and `CompanyIffCanJoin`
  says from which states of a lone build the rest of the run can still bring one.
* **The printed order is not always the scheduler's.** `bin_priv/obt.dep.status.py:33-39` says it mirrors the scheduler
  up to slot contention and timing. With one slot and everything fetched there is neither, and still the two differ: the
  listing breaks ties by discovery index, the scheduler by its list, which goes level by level (`ListingCanDiffer`). Runs
  and listings agree under all priorities exactly when both break ties alike on every pair of deps neither of which
  needs the other (`ListingMatchesIffTiesAgree`).
* **The serial and the concurrent mode do not always ask the same work.** They agree on success under all outcomes
  exactly when they treat every supported dep alike (`AgreeIffTreatedAlike`), which fails in three ways. An incremental
  rebuild of a dep in place is skipped by the concurrent mode: `should_build` is true for it
  (`scripts/obt/_dep_provider.py:250-262`), but `phase1_plan` marks the dep DONE although its comment says it mirrors
  `should_build` (`BuildModeAlike`). In fetch-only mode a dep in place is fetched by the serial mode only
  (`FetchModeAlike`). And the serial mode builds what `--prefetch` only wants fetched.
* **A failed prereq does not halt the pipeline.** The header (`bin_priv/obt.dep.pipeline.py:14-16`) says it does; the code
  cascades the failure and goes on (lines 385-398), and the model follows the code. `ReturnedIsFinal` shows it: at every
  return each buildable dep is DONE, whatever failed elsewhere.
* **Depositors can hit the same file.** The collision guard looks before it publishes. Depositors that start together
  can overwrite a message exactly when two of them have the same first free name (`OverwriteIffSameFirstChoice`), and then,
  if their messages differ, one of them no longer finds its own (`OwnMessageIffDifferentFirstChoices`).
* **The generated script is not always the direct run.** The script's shell starts before the variables are set, the
  direct run's shell is handed them at its start. So the script cannot set a name that is no shell name, nor one the shell
  keeps to itself, as bash keeps UID (`ReadOnlyNameIsLost`); and the direct run loses what the shell sets when it starts,
  as section 2.5.3 has it set IFS (`ResetNameIsLost`). The newline after the command joins a trailing backslash in the
  script only (`RunsCompare`). Apart from these the two are equivalent (`ScriptEqualsRun`), provided both shells treat
  variables and read the command alike. Section 2.12 leaves open whether a shell passes on a variable whose name is no shell
  name; the model takes it to, and then the script differs.

## Model

| member | source | states |
|---|---|---|
| PipelineScheduler.Scheduler.PrereqsAreDone | bin_priv/obt.dep.pipeline.py:97-103 | returns true exactly when every prereq is DONE, empty slots ignored |
| PipelineScheduler.Scheduler.SomePrereqFailed | bin_priv/obt.dep.pipeline.py:106-112 | returns true exactly when some prereq is FETCH_FAILED or BUILD_FAILED |
| PipelineScheduler.Scheduler.CountState | bin_priv/obt.dep.pipeline.py:348-349 | returns the number of deps in a state |
| PipelineScheduler.Scheduler.DispatchFetches | bin_priv/obt.dep.pipeline.py:351-366 | the fetch loop with its early exits leaves states, marks and counter as the recursive dispatch `FetchPass` does |
| PipelineScheduler.Scheduler.Consider | bin_priv/obt.dep.pipeline.py:379-400 | picks skip, blame or launch for one dep as the dispatch rule says |
| PipelineScheduler.Scheduler.ConsiderAndAct | bin_priv/obt.dep.pipeline.py:379-406 | carries the choice out, and says when the loop must stop |
| PipelineScheduler.Scheduler.DispatchBuilds | bin_priv/obt.dep.pipeline.py:368-406 | the build loop over the priority-sorted list, including failures cascading within the tick, does what `BuildPass` does |
| PipelineScheduler.Scheduler.StuckDeps | bin_priv/obt.dep.pipeline.py:411-418 | collects exactly the deps that are not terminal |
| PipelineScheduler.Scheduler.GiveUp | bin_priv/obt.dep.pipeline.py:417-421 | makes exactly these BUILD_FAILED and reports no completion |
| PipelineScheduler.Scheduler.Tick | bin_priv/obt.dep.pipeline.py:341-422 | one locked pass of the dispatch loop is exactly the tick event: dispatch, both termination tests, stuck sweep |
| PipelineScheduler.Scheduler.SubmitNextFetch | bin_priv/obt.dep.pipeline.py:424-425 | hands the next marked dep to the fetch pool, once |
| PipelineScheduler.Scheduler.SubmitNextBuild | bin_priv/obt.dep.pipeline.py:426-427 | hands the next marked dep to the build pool, once |
| PipelineScheduler.Scheduler.Completed | bin_priv/obt.dep.pipeline.py:62 | records a completion; the deque drops its oldest entry beyond twenty |
| PipelineScheduler.Scheduler.FinishFetch | bin_priv/obt.dep.pipeline.py:151-166 | the fetch commit: new state, and a completion for failures and fetch-only deps only |
| PipelineScheduler.Scheduler.FinishBuild | bin_priv/obt.dep.pipeline.py:185-190 | the build commit: DONE or BUILD_FAILED, always with a completion |
| PipelineScheduler.Scheduler.AllComplete | bin_priv/obt.dep.pipeline.py:448-460 | true exactly when every supported dep reached its goal |
| PipelineScheduler.UnsupportedHaveNoSay | bin_priv/obt.dep.pipeline.py:448-460 | a dep this host does not support has no influence on that, whatever its state |
| PipelineScheduler.Scheduler.Phase2Execute | bin_priv/obt.dep.pipeline.py:433-460 | terminates whichever worker finishes next, with empty pools, the final state map fixed in advance, and the Boolean that follows from that map |
| StableSort.SortByIsStable | bin_priv/obt.dep.pipeline.py:372-375 | the sort orders by key and keeps the order of equal keys, losing and inventing nothing |
| StableSort.SortByOrdered | bin_priv/obt.dep.pipeline.py:372-375 | sorting a list is ordering it by key and then by position |
| PipelineOutcome.BuildableIff | bin_priv/obt.dep.pipeline.py:385-404 | buildable is a fixpoint: already DONE, or able to fetch and build with every prereq buildable; on any graph |
| PipelineOutcome.BuildableIsLeast | bin_priv/obt.dep.pipeline.py:385-422 | and the least one: buildable deps lie in every set closed under that rule, so deps on a cycle are never among them |
| PipelineSafety.ReturnedIsFinal | bin_priv/obt.dep.pipeline.py:320-430 | every run that returns ends in the state map given by that fixpoint, the fetch results and the fetch-only set, with nothing in flight or marked |
| PipelineSafety.ScheduleIndependent | bin_priv/obt.dep.pipeline.py:320-430 | two returned runs of the same work end in the same map, whatever the interleaving, job counts, priorities, serial flags and list order |
| PipelineInvariant.StartInv | bin_priv/obt.dep.pipeline.py:233-248 | the invariant holds at the start of every run |
| PipelineInvariant.CommitFetchKeeps | bin_priv/obt.dep.pipeline.py:151-166 | a fetch commit keeps the whole invariant |
| PipelineInvariant.CommitBuildKeeps | bin_priv/obt.dep.pipeline.py:185-190 | a build commit keeps the whole invariant; a dep made DONE had all prereqs DONE |
| PipelineInvariant.FailedPrereqBlocks | bin_priv/obt.dep.pipeline.py:385-398 | a dep with a failed prereq is not buildable, so the cascade condemns no innocent dep |
| PipelineInvariant.FetchPassKeeps | bin_priv/obt.dep.pipeline.py:351-366 | the fetch dispatch keeps the invariant at every step |
| PipelineInvariant.BuildPassKeeps | bin_priv/obt.dep.pipeline.py:368-406 | the build dispatch keeps the invariant at every step, in any priority order |
| PipelineInvariant.StalledMeansDone | bin_priv/obt.dep.pipeline.py:415-422 | where nothing is in flight and nothing can be dispatched, every buildable dep is DONE already |
| PipelineInvariant.SweepVerdict | bin_priv/obt.dep.pipeline.py:415-422 | so the stuck sweep never condemns a buildable dep |
| PipelineInvariant.StalledTick | bin_priv/obt.dep.pipeline.py:408-422 | the sweep runs only when no dep is pending, fetching, building or ready with its prereqs DONE |
| PipelineInvariant.TickKeeps | bin_priv/obt.dep.pipeline.py:341-422 | a tick keeps the whole invariant |
| PipelineInvariant.ExecKeeps | bin_priv/obt.dep.pipeline.py:320-430 | every run keeps the whole invariant |
| PipelineSafety.SlotBounds | bin_priv/obt.dep.pipeline.py:348-406 | at every moment of every run at most fetch_jobs deps fetch and build_jobs build, and at most one serial dep is in each stage |
| PipelineSafety.WorkedAndReportedOnce | bin_priv/obt.dep.pipeline.py:354-427 | no dep is handed to a pool twice or reported twice, even if the list repeats names; every finished build, failed fetch and fetched fetch-only dep is reported with its state; the deque is the last twenty completions |
| PipelineReports.EventReports | bin_priv/obt.dep.pipeline.py:151-190 | a worker's commit adds exactly its own entry at the end of the history: DONE or BUILD_FAILED for a build, FETCH_FAILED for a failed fetch, SOURCE_READY for a fetch-only dep, nothing for any other fetch; hand-overs add nothing |
| PipelineReports.CompletionsInOrder | bin_priv/obt.dep.pipeline.py:62 | at every point of every run the history only grows at its end, and the deque is its last twenty entries, the completion that just came last |
| PipelineSafety.TerminalStays | bin_priv/obt.dep.pipeline.py:320-430 | a terminal state is never left |
| PipelineSafety.BuildOrderSafety | bin_priv/obt.dep.pipeline.py:97-103 | a dep that is BUILDING, or was made DONE by a worker, has all prereqs DONE then and ever after |
| PipelineProgress.RunsAreShort | bin_priv/obt.dep.pipeline.py:341-430 | in every run at most 4n events change a state and at most 8n+1 do anything, for n deps |
| PipelineProgress.IdleTickActs | bin_priv/obt.dep.pipeline.py:411-422 | a tick with nothing in flight dispatches work or returns, on cyclic graphs too |
| PipelineProgress.NeverStuck | bin_priv/obt.dep.pipeline.py:341-430 | before the return some event is always enabled that makes progress |
| PipelineProgress.CanReturn | bin_priv/obt.dep.pipeline.py:341-430 | from every reachable state some run returns |
| PipelineDispatch.PassServes | bin_priv/obt.dep.pipeline.py:370-406 | an eligible ordinary dep is launched, or everything launched stands before it and the slots are full or taken by a serial dep |
| PipelineDispatch.TickServesByPriority | bin_priv/obt.dep.pipeline.py:370-406 | no priority inversion and work conservation: an eligible ordinary dep left waiting by a tick stands behind every dep launched, and no slot is free unless a serial dep was launched |
| PipelineDispatch.TickFetchesInOrder | bin_priv/obt.dep.pipeline.py:351-366 | fetches start in list order: a pending ordinary dep left waiting by a tick stands behind every dep whose fetch was launched, and no fetch slot is free unless a serial fetch was launched |
| PipelineDispatch.PassLaunches | bin_priv/obt.dep.pipeline.py:376-406 | what is launched was eligible before the pass |
| PipelineDispatch.FirstEligibleStarts | bin_priv/obt.dep.pipeline.py:376-406 | on an idle build pool the eligible dep that comes first in dispatch order is launched, a serial one too and then alone, however many slots there are |
| PipelineDispatch.FirstPendingStarts | bin_priv/obt.dep.pipeline.py:351-366 | the same for fetches, in list order |
| PipelineDispatch.LaunchedInOrder | bin_priv/obt.dep.pipeline.py:372-404 | what a tick launches it launches in dispatch order |
| PipelineDispatch.FetchedInOrder | bin_priv/obt.dep.pipeline.py:351-366 | what it fetches it fetches in list order |
| PipelineDispatch.WorkIsHandedOverInOrder | bin_priv/obt.dep.pipeline.py:424-427 | over whole runs the pools get the work in the order in which it was marked |
| PipelineReports.TickGivesUpOnBlocked | bin_priv/obt.dep.pipeline.py:385-398 | the cascade within one tick: given up on and reported is exactly who waits to be built with a prereq that failed before the tick, or is given up on earlier in it, as far as the dispatch gets before slots or a serial launch end it; other running builds make no difference |
| PipelineReports.BlockedFailsAtOnce | bin_priv/obt.dep.pipeline.py:385-398 | so with a slot to spare and no serial launch, a fetched dep with a failed prereq is BUILD_FAILED and reported when the tick ends |
| PipelineReports.GivenUpForAReason | bin_priv/obt.dep.pipeline.py:376-398 | a tick reports nobody else, reports in dispatch order, and reports nothing in fetch-only mode |
| PipelineReports.TickFails | bin_priv/obt.dep.pipeline.py:411-422 | who becomes BUILD_FAILED in a tick is reported, unless the stuck sweep takes it, with nothing in flight and the loop returning |
| PipelineDispatch.SerialBuildStartsIdle | bin_priv/obt.dep.pipeline.py:399-406 | a serial build starts on an idle pool and alone in its tick |
| PipelineDispatch.SerialFetchStartsIdle | bin_priv/obt.dep.pipeline.py:351-366 | a serial fetch starts on an idle pool and alone in its tick |
| PipelineDispatch.SerialBuildGetsCompany | scripts/obt/_dep_provider.py:71-73 | while one build runs (serial or not), a tick adds another exactly when there is a second slot and an eligible ordinary dep |
| PipelineDispatch.SerialFetchGetsCompany | scripts/obt/_dep_provider.py:71-73 | while one fetch runs (serial or not), a tick adds another exactly when there is a second slot and a pending ordinary dep |
| PipelineOverlap.OverlapMeans | bin_priv/obt.dep.pipeline.py:368-406 | wherever in any run a serial build overlaps another one, there is a second slot, the other dep is not serial, and neither waits for the other |
| PipelineOverlap.SerialBuildIsNotAlone | scripts/obt/_dep_provider.py:71-73 | a run from the state phase 1 seeds, through both fetches, to a serial and an ordinary build that overlap |
| PipelineCompany.CompanyIffCanJoin | scripts/obt/_dep_provider.py:71-73 | from any reachable state with one build running (serial or not) some continuation overlaps it with another, exactly when there is a second slot and an ordinary dep, to be built and with its prereqs DONE, that is fetched or can still be fetched well |
| PipelineBlame.BuildableIffAllWork | bin_priv/obt.dep.pipeline.py:385-422 | on an acyclic closed graph a dep is buildable exactly when every dep it waits on, itself included, can do its own work |
| PipelineBlame.BuildableIffNoDeadEnd | bin_priv/obt.dep.pipeline.py:385-422 | on any graph a dep is buildable exactly when no path of waiting deps from it ends at one that cannot do its own work or lacks a prereq, or comes back to a dep |
| PipelineBlame.CondemnedIffDeadEnd | bin_priv/obt.dep.pipeline.py:385-422 | at return of any run, on any graph, a fetched dep that is to be built is BUILD_FAILED exactly when such a dead end starts from it |
| PipelineBlame.CondemnedIffCulprit | bin_priv/obt.dep.pipeline.py:385-422 | at return of a run over an acyclic plan, a fetched dep that is to be built is BUILD_FAILED exactly when it waits, over deps not DONE at the start, on one whose own fetch or build failed |
| PipelinePlan.Planner.Seed | bin_priv/obt.dep.pipeline.py:233-248 | classifies every listed dep: DONE if unsupported or provisioned, else PENDING; fetch-only if not reachable from a build target |
| PipelinePlan.Planner.Phase1Plan | bin_priv/obt.dep.pipeline.py:198-249 | fetch-only deps are exactly the planned deps no build target reaches |
| PipelinePlan.PlanIsClosed | bin_priv/obt.dep.pipeline.py:220-248 | the plan is closed under prereqs, and a dep to be built never needs a fetch-only dep |
| PipelinePlan.SuccessIffAllWorkOk | bin_priv/obt.dep.pipeline.py:433-460 | on an acyclic plan the concurrent phase reports success exactly when every needed fetch and build succeeds |
| PipelineSerial.SerialRunner.RunOne | bin_priv/obt.dep.pipeline.py:471-521 | one turn of the serial loop: the state, the completion pushed, and whether to go on |
| PipelineSerial.SerialRunner.RunSerial | bin_priv/obt.dep.pipeline.py:467-522 | the serial loop ends in the Boolean and the state map of its recursive description, with the last twenty of its completions in the deque |
| PipelineSerial.SerialRunMeaning | bin_priv/obt.dep.pipeline.py:467-522 | it succeeds exactly when no supported dep fails, and then every supported dep has its goal state |
| PipelineSerial.SerialRunReports | bin_priv/obt.dep.pipeline.py:510-521 | it reports one completion for each dep it works on, in order: all of them if it succeeds, else up to the one that failed |
| PipelineSerial.SerialRunEnds | bin_priv/obt.dep.pipeline.py:467-522 | how every serial run ends: either all work goes well, and every supported dep is SOURCE_READY (fetch-only) or DONE, reported in order if it was worked on; or it stops at the first dep whose work fails, which is FETCH_FAILED (fetch-only) or BUILD_FAILED and reported last; nothing else changes |
| PipelineSerial.SerialAgrees | bin_priv/obt.dep.pipeline.py:433-522 | on an acyclic plan whose deps both modes treat alike, in every mode, they return the same Boolean, and on success the same state map |
| PipelineSerial.UnlikeDisagrees | bin_priv/obt.dep.pipeline.py:433-522 | a dep they do not treat alike makes them disagree for some outcomes |
| PipelineSerial.AgreeIffTreatedAlike | bin_priv/obt.dep.pipeline.py:433-522 | on every acyclic plan, with or without fetch-only mode and fetch-only deps, the two modes agree on success under all outcomes exactly when they ask the same work of every supported dep |
| PipelineSerial.BuildModeAlike | scripts/obt/_dep_provider.py:250-262 | building everything, that means: no dep in place is rebuilt incrementally |
| PipelineSerial.FetchModeAlike | bin_priv/obt.dep.pipeline.py:477-481 | in fetch-only mode it means: no supported dep is in place already |
| KahnOrder.CountPrereqs | bin_priv/obt.dep.status.py:46-51 | the first loop: indegrees count prereq occurrences in the chain, and the dependents lists invert them |
| KahnOrder.Release | bin_priv/obt.dep.status.py:59-62 | the inner loop: each indegree drops by the occurrences of the emitted dep, and exactly those reaching zero become ready |
| KahnOrder.SortedHeadIsBest | bin_priv/obt.dep.status.py:56-57 | after the in-place sort the first ready dep has the least key |
| KahnOrder.FrontierIsAvailable | bin_priv/obt.dep.status.py:52-62 | the ready list holds exactly the deps that could be emitted, so the best ready one is best of all |
| KahnOrder.BuildOrder | bin_priv/obt.dep.status.py:41-63 | the loop terminates on every graph with a greedy order that cannot be continued |
| KahnLaws.GreedyIsTopological | bin_priv/obt.dep.status.py:41-63 | such an order repeats nothing and puts every dep after its prereqs in the chain |
| KahnLaws.EmittedIffNoCycle | bin_priv/obt.dep.status.py:41-63 | it holds exactly the deps with no cycle among their transitive prereqs |
| KahnLaws.BuildOrderUnique | bin_priv/obt.dep.status.py:52-63 | with distinct indices there is one such order only |
| KahnTies.AgreeingTiesSameOrder | bin_priv/obt.dep.status.py:33-39 | two chains with the same graph and priorities that break ties alike on unrelated deps have the same order |
| KahnTies.DisagreeingTiesDiffer | bin_priv/obt.dep.status.py:52-62 | two indices that tie an unrelated pair differently give different orders for some priorities |
| KahnTies.OrdersAgreeIffTiesAgree | bin_priv/obt.dep.status.py:33-39 | two indices give the same order under all priorities exactly when they agree on all unrelated pairs |
| OneSlot.OneSlotBuildsGreedily | bin_priv/obt.dep.pipeline.py:368-406 | with one slot, sources ready and no failures, the deps enter BUILDING in the greedy order whose ties are broken by the scheduler's list, at every moment of every run |
| OneSlot.ListingMatchesOneSlot | bin_priv/obt.dep.status.py:33-63 | the printed order is that order whenever both break ties alike on unrelated deps |
| OneSlot.BuildsListOrder | bin_priv/obt.dep.pipeline.py:368-406 | for every choice of priorities the orders some returned one-slot run builds in are exactly the greedy order of the scheduler's list |
| OneSlot.ListingMatchesIffTiesAgree | bin_priv/obt.dep.status.py:33-63 | for all priorities, returned one-slot runs and printed orders the two are the same, exactly when the index breaks ties between unrelated deps as the scheduler's list does |
| OneSlot.ListingCanDiffer | scripts/obt/_dep_x.py:29-100 | a four-dep scheduler configuration with priorities, a returned run and a printed order that differ |
| DepositText.OneLineIsClean | bin_pub/obt.net.msg.deposit.py:52-54 | a one-line field has no whitespace but single inner spaces, and is its own one-line form |
| DepositText.SlugIsClean | bin_pub/obt.net.msg.deposit.py:46-49 | a slug has 1 to 48 characters, lower-case letters, digits and single inner dashes, or is the default |
| DepositText.SlugStays | bin_pub/obt.net.msg.deposit.py:46-49 | a slug is its own slug |
| DepositText.OneLineIsJoined | bin_pub/obt.net.msg.deposit.py:52-54 | a one-line field is the words of the text with single spaces between them |
| DepositText.SlugIsJoined | bin_pub/obt.net.msg.deposit.py:46-49 | a slug is the text's runs of letters and digits, in lower case, joined by dashes and cut at 48 characters, or the default if there are none |
| DepositText.RecordFields | bin_pub/obt.net.msg.deposit.py:103-104 | a record splits into exactly its four fields if and only if time stamp and path hold no tab |
| DepositText.StreamAppend | bin_pub/obt.net.msg.deposit.py:103-108 | appending a record adds that record and changes no other |
| Deposit.CandidatesDiffer | bin_pub/obt.net.msg.deposit.py:73-78 | no two numbers of the collision loop give the same name |
| Deposit.TakenBound | bin_pub/obt.net.msg.deposit.py:73-78 | so an inbox of m files cannot hold more than m candidates in a row |
| DepositRead.MessageReadsBack | bin_pub/obt.net.msg.deposit.py:61-87 | a message file reads back, exactly when the time stamp is one line: sender (or "unknown") and subject word by word, the stamp that was given or else the clock's, and the whole payload with its last line ended |
| DepositRead.BaseReadsBack | bin_pub/obt.net.msg.deposit.py:64-72 | time stamp, sender slug and message slug can be read off any file name; a slug that was given goes before the subject |
| DepositRead.FirstFreeName | bin_pub/obt.net.msg.deposit.py:73-78 | the name of a deposit is the plain one if that is free, and otherwise carries the least number from two on that is |
| Deposit.Inbox.FreeName | bin_pub/obt.net.msg.deposit.py:73-78 | the collision loop terminates with the first candidate that is free |
| Deposit.Inbox.WriteAndPublish | bin_pub/obt.net.msg.deposit.py:89-101 | the temporary file becomes the message file and is gone |
| Deposit.Inbox.Deposit | bin_pub/obt.net.msg.deposit.py:61-111 | one deposit adds one file at the first free name with the whole body, then one record; nothing else changes |
| Deposit.Inbox.DepositAll | bin_pub/obt.net.msg.deposit.py:61-111 | k deposits add exactly k files under pairwise distinct names and keep every old file; where directory and time stamps hold no tab or newline, the stream reads back as the old rows and k new ones of four fields |
| Depositors.ApplyKeeps | bin_pub/obt.net.msg.deposit.py:72-108 | each step of any depositor, a crash or a failure included, keeps the invariant |
| Depositors.ExecKeeps | bin_pub/obt.net.msg.deposit.py:72-108 | in every interleaving every message file holds the whole body of a deposit that may use its name, and no message file goes away |
| Depositors.StreamNeverAhead | bin_pub/obt.net.msg.deposit.py:19-23 | in every interleaving every record in the stream names a file that is there, and every new record holds the fields of a deposit that may use that name |
| Depositors.RecordsKeepOrder | bin_pub/obt.net.msg.deposit.py:103-108 | in every interleaving the stream only grows at its end |
| Depositors.OnlyMessagesRemain | bin_pub/obt.net.msg.deposit.py:89-101 | where nobody crashes, deposits that have ended, failed ones included, leave no temporary file behind |
| DepositRace.NeverOverwrites | bin_pub/obt.net.msg.deposit.py:73-95 | any number of depositors with pairwise different first free names never replace a message file |
| DepositRace.SameChoiceOverwrites | bin_pub/obt.net.msg.deposit.py:73-95 | any two with the same first free name can, whoever else is there: the guard and the publish are separate steps |
| DepositRace.OverwriteIffSameFirstChoice | bin_pub/obt.net.msg.deposit.py:73-95 | depositors that start together, any number of them, can overwrite a message exactly when two have the same first free name |
| DepositRace.OwnMessageIffDifferentFirstChoices | bin_pub/obt.net.msg.deposit.py:95-111 | depositors of different messages always find their own under the path they returned exactly when no two have the same first free name |
| SystemdUnit.ReadOne | bin_priv/obt.systemd.runner-create.py:67-82 | one iteration of the line loop: strip, unquote, split at the first equals sign |
| SystemdUnit.ParseUnit | bin_priv/obt.systemd.runner-create.py:62-82 | the loop both programs share reads the file line by line |
| SystemdUnit.LastLineWins | bin_priv/obt.systemd.runner-create.py:70-79 | the dictionary maps a name to a value exactly when the last line assigning that name gives it |
| SystemdUnit.LastCommandWins | bin_priv/obt.systemd.runner-create.py:81-82 | the command is that of the last line that names one |
| SystemdUnit.NamesAreKeys | bin_priv/obt.systemd.runner-create.py:62-79 | each name is listed once, and holds no equals sign |
| SystemdConfig.NamesKeepPlace | bin_priv/obt.systemd.runner-create.py:62-79 | a later line never moves a variable that has been read |
| SystemdConfig.UnquotedReads | bin_priv/obt.systemd.runner-create.py:70-79 | a line without quotes binds the name in front of the first equals sign to all that follows it, blanks around the parts ignored |
| SystemdConfig.QuotedReads | bin_priv/obt.systemd.runner-create.py:70-79 | one in double quotes does too, and keeps the blanks inside them |
| SystemdConfig.NoEqualsReads | bin_priv/obt.systemd.runner-create.py:77-79 | one without an equals sign behind its key binds nothing |
| SystemdConfig.CommandLineReads | bin_priv/obt.systemd.runner-create.py:81-82 | an indented command line gives its command without outer blanks |
| SystemdConfig.OtherLineReads | bin_priv/obt.systemd.runner-create.py:67-82 | every other line is passed over |
| SystemdConfig.EnvironmentReadsBack | scripts/obt/systemd_helpers.py:279-281 | a generated environment line reads back as its name and value exactly when the name holds no equals sign |
| SystemdConfig.UnitReadsBack | scripts/obt/systemd_helpers.py:234-302 | a generated unit file reads back as its variables, in order, and its command |
| SystemdConfig.UnitReadsBackIff | scripts/obt/systemd_helpers.py:279-281 | the variables come back exactly when no name holds an equals sign |
| SystemdConfig.VariablesArrive | scripts/obt/systemd_helpers.py:279-295 | from configuration to script: for names the shell lets a script assign and has no other value of its own for, the script does what `sh -c` does with the command under exactly the configured variables |
| SystemdConfig.ReadOnlyNameIsLost | bin_priv/obt.systemd.runner-create.py:92-101 | a configured UID, which bash keeps read-only, makes the script differ from the direct run |
| SystemdConfig.ResetNameIsLost | bin_priv/obt.systemd.run.py:73-78 | so does a configured IFS, which the shell of the direct run sets anew when it starts |
| SystemdScript.WriteScript | bin_priv/obt.systemd.runner-create.py:84-105 | writes the script, or nothing where there is no command |
| SystemdScript.ScriptOpens | bin_priv/obt.systemd.runner-create.py:92-95 | the script asks for bash |
| SystemdScript.QuotedReadsBack | bin_priv/obt.systemd.runner-create.py:99-101 | single-quoting undone by the shell: every value comes back exactly, whatever its characters |
| SystemdScript.ExportRuns | bin_priv/obt.systemd.runner-create.py:98-101 | an export line binds a valid name to the exact value, unless the shell keeps that name to itself |
| SystemdAgree.ShellBindsNames | bin_priv/obt.systemd.runner-create.py:97-101 | a shell binds only valid names it does not keep to itself, and forgets no variable |
| SystemdAgree.ShellAdds | bin_priv/obt.systemd.run.py:73-78 | what a text binds and the command it comes to do not depend on the environment it starts in |
| SystemdScript.ScriptSets | bin_priv/obt.systemd.runner-create.py:92-105 | with valid names the script comes to its command line with every variable laid over its environment that the shell lets it set |
| SystemdNewline.ShellThenNewline | bin_priv/obt.systemd.runner-create.py:105 | the newline the script puts after a command makes no difference to one that does not end in an unescaped backslash, quotes and comments considered |
| SystemdAgree.RunsCompare | bin_priv/obt.systemd.run.py:73-78 | with valid names, script and direct run agree in an environment exactly when the variables laid after the shell's start and before it give the same; and differ in every environment if the command is more than exports and comments and ends in an unescaped backslash |
| SystemdAgree.ScriptEqualsRun | bin_priv/obt.systemd.run.py:41-78 | for every unit file and shell both programs refuse alike; and otherwise the script does what `sh -c` does in the direct run, from all environments, exactly when the command does not end in an unescaped backslash and each variable ends up alike: a script may assign it and the shell has no other value of its own for it (or the command sets it anyway), or only the shell sets it |
| JobId.JobIdReadsBack | bin_priv/obt.dep.log.py:131 | decoding an id returns the time stamp, of any size |
| JobId.SixteenDigits | bin_priv/obt.dep.pipeline.py:606 | an id has sixteen digits exactly for time stamps below 2^64 |
| JobId.JobIdsInOrder | bin_priv/obt.dep.log.py:82-84 | below 2^64 string order of ids is time order, and equal ids mean equal times |
| JobId.OrderedBelow | bin_priv/obt.dep.log.py:82-84 | the ids of all time stamps below a bound sort by time exactly when the bound is at most 2^64 |
| JobListing.LogRoot.StartRun | bin_priv/obt.dep.pipeline.py:606-619 | enters the run and refreshes the link, for each way the refresh can fail |
| JobListing.LogRoot.ListJobIds | bin_priv/obt.dep.log.py:82-93 | returns every directory but no link or file, strictly ascending |
| JobListing.LogRoot.LatestJobId | bin_priv/obt.dep.log.py:96-106 | prefers a usable link, else the last directory by name, else nothing |
| JobListing.StartRuns | bin_priv/obt.dep.pipeline.py:606-619 | a sequence of runs leaves exactly their directories, whichever link refreshes fail |
| JobListing.ListingIsByTime | bin_priv/obt.dep.log.py:82-93 | a listing of runs is strictly increasing in time |
| JobListing.LastIsNewest | bin_priv/obt.dep.log.py:96-106 | a run is last by name exactly when it is the newest |
| JobListing.LinkAndListingAgree | bin_priv/obt.dep.log.py:96-106 | link and listing pick the same run exactly when no earlier run has a later time |

## Left out

- PipelineSerial.SerialAgrees: says nothing about the states of a failed run, because the serial mode stops at the first failure and leaves the rest as it was.
- SystemdScript.ReadWord: reads the characters an export line can hold; expansions, double quotes and unclosed quotes make it give up, so a command using them is left unread.
- SystemdAgree.ScriptEqualsRun: takes service name and file path without line breaks, because they stand in comment lines; and leaves open commands that are nothing but exports and comments and end in an unescaped backslash, because there nothing is left to run.
- SystemdNewline.Dangles: follows quotes, escapes and comments; command substitution, backquotes and here-documents, which can hold a comment or a quote of their own, are read as ordinary text.
- SystemdAgree.Sh: what a shell sets at its start and which names it keeps to itself are parameters, because they differ between shells and versions; values it derives from its environment, the loss of protection for a name that is already set, and which variables it hands on to the command (exports) are not modelled.
- JobListing.LogRoot.LatestJobId: follows a link to a directory beside it only; links to links or to other places are not modelled.
- Real threads, time stamps (`_started_at`), log files and the terminal UI: the lock makes the modelled blocks atomic, and nothing else is shared.
- `_halt`: nothing in `bin_priv/obt.dep.pipeline.py` sets it, so the model has no such flag.
- `serial_prelude`: its list is empty (`bin_priv/obt.dep.pipeline.py:90`), so it does nothing.
- What `fetch_only`, `build_and_install` and `provide` do: each is a Boolean per dep, fixed before the run; `provide` is a fetch and then a build.
- Dep names are numbers in the scheduler model; they are only ever compared.
- The construction of `dep.Chain` and of its level order: the lists it returns are assumed closed under prereqs, and deps-first where a theorem says so.
- `should_build` for a target other than the host.
- Letters outside ASCII in `_slugify`: lower-casing them is not modelled.
- The `acked` directory, the argument and JSON front ends of the deposit tool, and time stamps or slugs that contain a path separator.
- A stream append counts as one step; lines torn by the operating system are not modelled.
- NUL characters, and configured values with line breaks, which would split a line of the unit file.
- Locating the unit file, `chmod`, and the choice between user and system services.
- `strip_tui` and `follow` in `bin_priv/obt.dep.log.py`: display filters without a stated contract.
- Recipes under `modules/dep`, docker, database search and the other wrappers around external commands.
