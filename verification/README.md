# dig-download: what a download may promote, blame and spend

dig-download pulls content from holders nobody trusts. Two machines do the work. The *module puller* takes one
holder's descriptor at a time, fetches or resumes every chunk under it, and promotes only what passes a whole-blob
hash and a chain-anchor gate. The *resource scheduler* keeps many range fetches in flight at once, hashes the ranges as
they land in any order, and promotes what a merkle proof binds to the chain. Both stand on a reader of hostile frame
streams, a greedy range planner, a two-sided promotion proof, a backoff tracker, a bounded list of verdicts and a token
bucket. This project models all of them and proves what they promise.

Everything outside the program (holders, locator, selector, anchor, clock, storage faults, and anyone writing to the
staging area) is an arbitrary total function of the call number, so every theorem is about all of their behaviours.
SHA-256 is an uninterpreted function; collision freedom is a hypothesis named where it is used (`Injective`). The
scheduler's loop is proved over its first `horizon` turns for every `horizon`, that is, over every prefix of every run.

## How to read it

| file | what it holds |
|---|---|
| `Basics.dfy` | bytes, wire integers, cumulative offsets, positioned writes, error classes |
| `Plan.dfy`, `PlanProperties.dfy` | chunk layouts, the greedy plan, and why it is the only and the smallest one |
| `Verify.dfy`, `Hasher.dfy` | commitment and range checks; the order-independent streaming hash |
| `Sinks.dfy` | the staging area and `promote_verified` |
| `Progress.dfy`, `VerdictHistory.dfy` | checkpoint and verdict store; the list against the whole history of records |
| `Backoff.dfy`, `Throttle.dfy` | holder backoff and the forward scan; the token buckets and their rate bound |
| `Frames.dfy`, `PagedPrologue.dfy`, `Reader.dfy` | what a sequence of frames says, and the reader that must agree |
| `ReaderWitness.dfy` | faithful answers: any content split any way, in pages or without a layout |
| `ModulePlan.dfy`, `StagedReader.dfy`, `ModuleEnv.dfy`, `RoundRobin.dfy`, `ModulePuller.dfy` | the module puller |
| `DescriptorLog.dfy` | the log of descriptor requests and replies, and what blame and demotion mean in its terms |
| `ModuleWitness.dfy` | worlds that meet every assumption, whole downloads in them, and downloads that fail unexpectedly |
| `Ledger.dfy`, `Scheduler.dfy` | the scheduler's books as one value, and the job that keeps them |
| `SchedulerWitness.dfy` | a world that meets every assumption, whole runs in it from a new job, and a job that gives up early |

The main results:

- **Module promotion, blame, liveness, fetch-once, demotion** are the `ensures` clauses of
  `ModulePuller.ModuleDownloader.Download`, one group each. They speak of the log of this call's descriptor requests,
  whose replies are proved to be the ones the holders gave. What is promoted passed both gates under the last descriptor
  heard, the anchor having read what it asked for and finished; a holder blamed gave, in this call, a descriptor that is
  not a truthful one of the genuine module, so one that never lies is never blamed; if an honest holder is located,
  servers of every window can be found, and liars and missed calls are fewer than attempts, the genuine module is
  promoted; no holder is asked again once it has answered, and one with a past verdict only when no other is left; a
  failure is accounted for by the last request. `ModuleWitness.PullsPastLiar` and `PullsFromRemembered` are whole
  downloads that meet every assumption.
- **Resource promotion, ledger, fetch budget, completion** are the `ensures` clauses of `Scheduler.Job.Run` and
  `ScheduleLoop`; the invariant behind them is `Ledger.Balanced`, kept by every step. What is assembled is traced, range
  by range, to the log of this run's fetches or to staging read back. If there are holders and a layout, storage works
  and the holders oblige but for a set of slips within the failure budget (`MustEnd`), the run ends within as many
  turns as there are ranges and slips and one more, and fails exactly if the proof refuses what was assembled or the
  job gave up. At a slip the selector may offer no one, and the job then relocates and waits out a backoff.
  `SchedulerWitness.PromotesOrRefuses` constructs a job and runs it in such a world, an outage included.
- **Hostile and honest streams** are the `ensures` clauses of `Reader.AssembleRangeStream`, against definitions in
  `Frames` and `Reader.Halts` that never mention the reader's state. How far a stream is read, and whether its last item
  was in order, is settled by the stream alone. A faithful answer, with a layout in pages, on one frame or left out, is
  accepted exactly if the layout its first frame declares comes whole; one that declares a positive chunk count and
  carries no layout is refused (`ReaderWitness.LayoutFreeWhole`).

Five expected properties do not hold of the code as stated.

- A module pull can fail and still leave the sink finalized. `Finish` promotes first and drops the checkpoint second,
  and reports an error if the drop fails (`src/module.rs:608-613`). `ModuleWitness.FinalizedDespiteError` is a whole
  download that ends so, and `Download` says exactly when: after a promotion the result is an error if and only if the
  last store operation, which drops the checkpoint, failed (`Released`). The resource scheduler ignores the same failure
  (`src/orchestrator.rs:596`), and there no run that does not succeed finalizes the sink.
- Past verdicts are meant never to deny a pull (`src/module.rs:352-356`), but they can: while a located holder without
  one stays silent, no holder with one is asked (`DescriptorLog.SilenceKeepsMemory`; `ModuleWitness.DeniedByMemory` is
  a whole download). They do not if the honest holder carries none, if every located holder does, or if every holder
  without one answers (`MustPromote`).
- A rejected descriptor is meant to be reported as such, never as `NotFound` (`src/module.rs:426-438`). `Download` says exactly when it is (`Explained`): a holder blamed on the last request is
  reported as `Verify` if that was the last attempt or past verdicts were no longer honoured, so whenever there are
  none; otherwise the attempts left ask nobody and the error is `NotFound`. `ModuleWitness.ReportsLie` shows both.
- A resource run is meant to wait for a holder that is backed off, but gives up on one whose backoff has ended since it
  was last offered (`src/orchestrator.rs:752-760`; `SchedulerWitness.GivesUpOnUsableHolder`). `Turn` and `Run` say when:
  no known holder is backed off at the instant the job looks (`NobodyWaits`, `GaveUp`).
- The greedy plan uses the fewest ranges of any partition under its own packing rule exactly when no run of empty chunks
  trails a final chunk larger than the window (`GreedyIsFewest`); otherwise it is one range over (`AtMostOneMore`).
  `GreedyNotFewest` shows a layout where it is.

Where prose and code differ the code is followed: the comment on `download` has a chunk that no holder serves end in
`NoProviders` (`src/module.rs:325`), while `src/module.rs:729-737` reports `NotFound`; the design document has the
confirm step keep the `total_length` and `chunk_count` that holders declare, while `src/orchestrator.rs:1057-1091` keeps
only which holders confirmed.

## Model

| member | source | states |
|---|---|---|
| Plan.TryNew | src/plan.rs:72-102 | a layout exists exactly for a count within the ceiling and a sum that fits 64 bits; its offsets are the chunk boundaries |
| Plan.TakeRange | src/plan.rs:202-209 | one range grows chunk by chunk while it fits the window and stops only where the next chunk would overflow it |
| Plan.PlanRanges | src/plan.rs:192-219 | the ranges tile the layout exactly, in order, each as long as the window allows |
| PlanProperties.GrownFits | src/plan.rs:184-214 | a range longer than the window holds a single non-zero chunk |
| PlanProperties.OffsetsAscend | src/plan.rs:192-219 | every range but the last has bytes, so offsets strictly increase and ranges never overlap |
| PlanProperties.TilesSum | src/plan.rs:192-219 | the range lengths add up to the bytes of the chunks covered |
| PlanProperties.PlanIsUnique | src/plan.rs:192-219 | the greedy rule determines the plan |
| PlanProperties.StaysAhead | src/plan.rs:192-219 | after any number of ranges no other partition under the rule has covered more bytes |
| PlanProperties.GreedyIsFewest | src/plan.rs:192-219 | the plan uses the fewest ranges exactly when empty chunks do not trail an over-window chunk at the end |
| PlanProperties.GreedyNotFewest | src/plan.rs:192-219 | a two-byte chunk before an empty one, under a window of one byte: two ranges where one would do |
| PlanProperties.AtMostOneMore | src/plan.rs:192-219 | in every case it uses at most one range more than any partition |
| Verify.FromFirstFrameBounded | src/verify.rs:208-237 | a commitment exists exactly for a bounded size, a bounded count and lengths that add up to it |
| Verify.PlannedRangeCheck | src/verify.rs:403-442 | for a planned range the per-range check accepts exactly the byte strings of the planned length |
| Verify.BoundariesFound | src/plan.rs:133-156 | any span between chunk boundaries is recognised as aligned, zero-length chunks included |
| Scheduler.KeptExactly | src/orchestrator.rs:1025-1046 | the bytes of a planned range are kept exactly if they are as many as planned and their metadata contradicts nothing the commitment fixes |
| Hasher.ResourceHasher.Feed | src/verify.rs:69-78 | feeding one tile has the effect of `Fed`, and its drain loop ends even on empty tiles |
| Hasher.FeedSettles | src/verify.rs:69-94 | after any feed or exact repeat the hashed length is that of the longest fully fed prefix of tiles |
| Hasher.OrderIndependent | src/verify.rs:69-94 | in any order, with repeats, the hashed bytes are that prefix, and at the end the whole resource with nothing left waiting |
| Sinks.Sink.WriteAt | src/sink.rs:257-267 | a positioned write zero-fills a gap, overwrites, never shortens, and refuses to pass 64 bits |
| Sinks.Sink.ReadAt | src/sink.rs:288-304 | succeeds exactly when the span lies within the staged bytes, and returns them |
| Sinks.Sink.Truncate | src/sink.rs:278-286 | only ever shortens |
| Sinks.Sink.PromoteVerified | src/sink.rs:193-223 | promotes exactly the first `verifiedLen` staged bytes; refuses, without finalizing, when fewer are staged, or more on a sink whose truncation shortens nothing |
| Progress.StateStore.RecordVerdict | src/progress.rs:197-210 | the loop that evicts computes `Recorded` |
| Progress.StateStore.RecordBadDescriptor | src/progress.rs:310-319 | every call is logged against its holder in order, kept or not |
| Progress.LivePeers | src/progress.rs:212-224 | the holders with a verdict that has not expired |
| VerdictHistory.ListRefinesHistory | src/progress.rs:189-224 | under a non-decreasing clock the list is the most recent distinct well-formed unexpired records, at most the cap, in recency order |
| VerdictHistory.Ordered | src/progress.rs:197-210 | those records are one per holder, ascending in time, each the last of its holder |
| VerdictHistory.EvictionForgetsNothing | src/progress.rs:197-210 | evicting early never changes what a later record leaves |
| Backoff.SourceTracker.RecordFailure | src/source.rs:197-205 | one more failure in a row, backed off from now, never beyond the cap |
| Backoff.SourceTracker.RecordSuccess | src/source.rs:189-194 | clears failures and backoff, counts a serve |
| Backoff.SourceTracker.NextAvailableAt | src/orchestrator.rs:1340-1353 | returns an instant at which the holder is usable, less than one step after its backoff ends; the fallback is never taken |
| Backoff.SourceTracker.EarliestBackoff | src/orchestrator.rs:1324-1337 | is `None` exactly when no holder is backed off, else an instant at which one of them is usable |
| Backoff.BackoffFollowsStreak | src/source.rs:189-205 | after any history the backoff depends only on the current run of failures and the last one's instant |
| Backoff.BackoffGrowsToCap | src/source.rs:197-205 | backoff never shrinks with further failures and never exceeds the cap |
| Backoff.BackoffDoubles | src/source.rs:197-205 | the first failure backs off by the base, each further one by twice as much up to the seventeenth, but for the cap |
| Throttle.Bucket.Refill | src/throttle.rs:56-64 | tokens grow with time and never pass capacity |
| Throttle.Bucket.WaitFor | src/throttle.rs:67-82 | the wait is exact: the request may pass at an instant from now on if and only if that long has gone by |
| Throttle.Bucket.Consume | src/throttle.rs:85-89 | an admission keeps every window's total within the rate bound |
| Throttle.FcfsRateLimiter.Acquire | src/throttle.rs:126-159 | admits through both buckets, oversized requests included, at the very first instant both cover the request, but for a late wake-up from at most one sleep; touches no other connection |
| Throttle.RateBoundAfter | src/throttle.rs:56-89 | admitting what the tokens cover, or an oversized request on a full bucket, keeps the rate bound |
| Throttle.WindowBound | src/throttle.rs:97-159 | bytes admitted in any window of length T are at most rate times T plus one second's worth or the last request, whichever is larger |
| Reader.StreamIdentity.CheckLaterFrame | src/source.rs:287-338 | accepts a frame exactly when it agrees pairwise with all frames before it: identity unrevised, index not rewound, page not restated |
| Frames.OneMoreFrame | src/source.rs:287-363 | checking the last index and the prologue frontier is as good as checking every earlier frame |
| Frames.PaintedStep | src/source.rs:495-529 | clipping and writing one frame gives every byte of the window its last covering frame's byte, or zero |
| PagedPrologue.ChunkLensAssembler.AcceptPage | src/source.rs:451-462 | a page is placed exactly when it is aligned, exactly one page long, inside the array and over empty slots |
| PagedPrologue.NextPage | src/source.rs:442-474 | once a page skips ahead a slot behind it stays empty for good, and no more pages are placed than the array has |
| PagedPrologue.Completion | src/source.rs:563-579 | the array is complete exactly when the pages came one after another and add up to it |
| Reader.AdmitFirst | src/source.rs:420-440 | the first frame fixes the identity and sizes the array, a count over the ceiling being refused first |
| Reader.AdmitLater | src/source.rs:441-474 | a later frame is admitted if coherent and, when it pages, if its page fits the declared array |
| Reader.Place | src/source.rs:508-530 | a frame is clipped to the window and written; growth may fail |
| Reader.OnFrame | src/source.rs:411-561 | one turn fails recoverably, stops when it should, or has gained a byte or a page |
| Reader.HonestVerdict | src/source.rs:475-561 | a faithful frame that is due never trips the progress guard and stops the reader just when nothing is missing |
| ReaderWitness.OneFrameConforms | src/source.rs:394-581 | a whole answer on one frame is faithful, whatever the content and the array, the array or the count or both left out |
| ReaderWitness.SplitConforms | src/source.rs:394-581 | so is any content split into any frames, the layout in as many pages as it takes, or left out |
| ReaderWitness.LayoutFreeWhole | src/source.rs:563-579 | an answer without a layout lacks nothing exactly if its first frame declares no positive chunk count |
| Reader.AssembleRangeStream | src/source.rs:394-581 | over any stream: it reads exactly as far as `Halts` says, that is until a frame it refuses, a broken item, the end, or the first frame after which nothing more is wanted, and succeeds exactly if that last item was in order and the declared layout is whole; every frame but the last brought a byte or placed one of the declared pages, so at most window + ceil(count / page) + 1 frames and one end are read; success means coherent frames, the painted window, and in-order pages of exactly the declared count; a faithful answer at any granularity, with pages, one page or no layout, is accepted exactly if the layout its first frame declares came whole, and yields exactly its first bytes and that layout |
| Reader.HaltsOnce | src/source.rs:408-561 | the stream alone determines how many items are read, which frames, and whether the last one was in order |
| ModulePlan.FromInfo | src/module.rs:1142-1218 | a plan exists exactly for a well-formed descriptor within the limits, with the right offsets |
| ModulePlan.CheckedSum | src/module.rs:1182-1189 | the sum of the lengths, or nothing if it passes 64 bits |
| ModulePlan.AttributedIsGenuine | src/module.rs:504-601 | without collisions two blobs that match the same chunk hashes are equal |
| ModuleEnv.Merge | src/module.rs:1231-1244 | known holders stay in place, every found one becomes known, and what is appended is found, new and distinct |
| StagedReader.VerifiedChunk | src/module.rs:877-892 | a chunk read back carries its declared hash |
| StagedReader.FirstChunk | src/module.rs:919-923 | the window's first chunk is found and never lies before the plan, empty chunks included |
| StagedReader.ReadStaged | src/module.rs:901-948 | a window inside the module reads as exactly its bytes or fails, even if staging changed; one past its end always fails |
| RoundRobin.Reaches | src/module.rs:713-732 | starting anywhere, one cycle reaches every holder |
| ModulePuller.DescriptorExclusions.UsableHolders | src/module.rs:1015-1021 | zero exactly when every located holder is excluded |
| ModulePuller.DescriptorExclusions.StopTrustingMemory | src/module.rs:1030-1034 | memory is dropped, and the answer says whether that changed anything |
| ModulePuller.ModuleDownloader.FetchChunkFrom | src/module.rs:755-792 | accepted bytes have the declared length and hash; of a holder that serves the window of a truthful descriptor they are exactly that window |
| ModulePuller.ModuleDownloader.FetchVerifiedChunk | src/module.rs:703-753 | cycles, relocates once, cycles again: it fails only with `NotFound`, once it has relocated and no one then known serves the chunk, or with the error of a failed relocate |
| ModulePuller.ModuleDownloader.ReadBackVerifiedChunk | src/module.rs:824-856 | a resumed chunk is used only if it carries this descriptor's hash, and an intact one is used |
| ModulePuller.ModuleDownloader.LoadOrFreshState | src/module.rs:794-822 | a checkpoint is resumed exactly when it was made for this chunking |
| ModulePuller.ModuleDownloader.StageChunks | src/module.rs:489-547 | the hashed bytes match every chunk hash and are what is staged; done sets are initial segments; intact staged chunks are not fetched again; with local storage working it fails only after relocating, for a chunk no one then known serves |
| ModulePuller.ModuleDownloader.AnchorGate | src/module.rs:570-601 | the anchor only ever reads the hashed blob's own bytes, in the windows it asked for, until it asks no more or its limit; an anchor that works on such transcripts decides correctly |
| ModulePuller.ModuleDownloader.GateAndPromote | src/module.rs:549-614 | nothing is promoted unless both gates passed on those very bytes, the anchor having finished; a truthful descriptor is never called bad |
| ModulePuller.ModuleDownloader.Finish | src/module.rs:604-614 | once promoted, the result is an error exactly when dropping the checkpoint fails |
| ModulePuller.ModuleDownloader.PullWithDescriptor | src/module.rs:470-615 | one descriptor's pull: an unusable descriptor is called bad, a bad-descriptor verdict means the descriptor was not acceptable, and against an acceptable one only a chunk that no one known serves even after relocating, or lack of memory, can stop it |
| ModulePuller.ModuleDownloader.FetchModuleInfo | src/module.rs:638-700 | holders not excluded are asked in order, each reply but the last being a timeout or a recoverable refusal; the pass ends with an answer, with a refusal that is not recoverable, or with everyone asked and `NotFound`; each request and its reply is logged |
| ModulePuller.ModuleDownloader.Attempt | src/module.rs:395-424 | the source is blamed exactly for a bad descriptor, an unusable one included, and demoted for any non-terminal failure; with servers in reach an attempt promotes or the descriptor was not acceptable |
| ModulePuller.ModuleDownloader.Round | src/module.rs:357-439 | one round keeps the log real, blame fair, demotions final, past verdicts a last resort and chunks fetched once, spends one attempt, and says how its failure is accounted for |
| ModulePuller.ModuleDownloader.Forget | src/module.rs:352-365 | when no known holder may be asked, past verdicts are dropped, and whoever they kept from being asked may be asked now |
| ModulePuller.ModuleDownloader.Download | src/module.rs:328-464 | over every run: promotion only of a blob gated under the last descriptor heard, and then an error exactly if dropping the checkpoint failed; blame only of holders that gave an unacceptable descriptor in this call, never of one that does not lie, and of each that gave an unusable one; promotion of the genuine module whenever an honest holder is located, servers are located or found by relocating, and liars and missed calls together are fewer than the attempts, even if the honest holder carries a past verdict, unless one that does not is located and stays silent; no chunk accepted twice; every checkpoint saved an initial segment; only located holders asked, none again once it answered, and one with a past verdict only when no other is left; the error is accounted for by the last request; termination |
| DescriptorLog.TruthfulNeverBlamed | src/module.rs:395-424 | a holder whose every descriptor is truthful is never among those blamed |
| DescriptorLog.SilenceKeepsMemory | src/module.rs:352-365 | a located holder without a past verdict that never answers keeps every holder with one from being asked |
| ModuleWitness.WorldMeetsAssumptions | src/module.rs:328-464 | a world with one liar and one honest holder meets all that the liveness and blame clauses assume, for any non-empty module |
| ModuleWitness.PullsPastLiar | src/module.rs:328-464 | a download in that world promotes the module and does not blame the honest holder |
| ModuleWitness.SplitWorldMeetsAssumptions | src/module.rs:328-464 | so does one whose only holder located first serves no bytes, misses a call and carries a past verdict, while relocating finds one that serves bytes and describes nothing |
| ModuleWitness.PullsFromRemembered | src/module.rs:352-388 | a download in that world promotes the module |
| ModuleWitness.FinalizedDespiteError | src/module.rs:608-613 | a download that fails and leaves a finalized sink |
| ModuleWitness.DeniedByMemory | src/module.rs:352-365 | a download that fails although a reliable honest holder is located, because it carries a past verdict and another one stays silent |
| ModuleWitness.ReportsLie | src/module.rs:426-438 | the same lie of the only holder is reported as `Verify`, or, if a holder that is not even located carries a past verdict, as `NotFound` |
| Ledger.IssueKeeps | src/orchestrator.rs:829-842 | issuing a pending range within both caps keeps the books balanced |
| Ledger.AcceptKeeps | src/orchestrator.rs:961-987 | accepting verified bytes keeps them balanced: done set, byte count, loads, flights and hasher move together |
| Ledger.RequeueKeeps | src/orchestrator.rs:988-1008 | so does a recoverable failure |
| Ledger.RehydratedBalances | src/orchestrator.rs:520-548 | whatever checkpoint and staging held, the books are balanced when scheduling starts |
| Ledger.AllHashed | src/orchestrator.rs:558-566 | when all ranges are done nothing is in flight, every byte is counted and the hasher has hashed the whole resource |
| Ledger.WriteStages | src/orchestrator.rs:962-963 | writing one range leaves every other staged range alone |
| Ledger.AcceptExtends | src/orchestrator.rs:961-970 | a done range stays done with the same bytes, so it is never fetched again |
| Ledger.FedCount | src/orchestrator.rs:1356-1362 | all ranges are done exactly when as many were accepted as there are |
| Ledger.Idle | src/orchestrator.rs:823-843 | with nothing in flight every holder is idle and every range not done is pending |
| Scheduler.PickFromPlan | src/orchestrator.rs:872-885 | a pinned holder with room wins; otherwise the first preferred one with room is taken; none is chosen only when none of those has room |
| Scheduler.Assign | src/orchestrator.rs:823-843 | ranges are assigned until a cap is reached, nothing is pending or every offered holder is full |
| Scheduler.Busy | src/orchestrator.rs:823-843 | if holders are offered and the caps allow a fetch, an unfinished run has one in flight |
| Scheduler.Late | src/orchestrator.rs:705-820 | turns that each bring a range home or spend a slip are no more than ranges and slips together |
| Scheduler.RecordedNext | src/source.rs:189-205 | the tracker's record of every holder is what the logged fetches from it amount to, one fetch at a time |
| Scheduler.Job.Fill | src/orchestrator.rs:823-843 | the same of the job, which stays healthy |
| Scheduler.Job.Complete | src/orchestrator.rs:961-987 | verified bytes are staged in place, hashed, marked done and checkpointed, and the holder's record cleared |
| Scheduler.Job.PutBack | src/orchestrator.rs:988-1008 | the range is pending again and its holder backed off |
| Scheduler.Job.HandleResult | src/orchestrator.rs:941-1011 | a completed fetch is logged; one whose range verified is kept and ends the stretch without progress; a recoverable failure puts the range back; any other error ends the run |
| Scheduler.Job.LocateAndConfirm | src/orchestrator.rs:1057-1091 | exactly the located holders that confirm, in discovery order |
| Scheduler.Job.DiscoverMore | src/orchestrator.rs:1104-1125 | exactly the confirmed holders not known before the call are appended, a repeated one repeatedly |
| Scheduler.Job.Unblock | src/orchestrator.rs:736-760 | a blocked job relocates exactly once per stretch without progress and within its budget, marking the stretch, goes on if that found holders, else waits for a backed-off holder, and gives up only when none is |
| Scheduler.Job.React | src/orchestrator.rs:782-818 | each event changes only what it should: a completion the books and the stretch, a refresh the holders found; pausing and cancelling checkpoint; it ends the run only on cancelling, a fatal fetch error or failing storage |
| Scheduler.Job.Turn | src/orchestrator.rs:709-819 | one turn keeps the invariant; a paused job issues nothing; it ends with an error only for a reason (`Justified`): cancelling, a fatal reply, failing storage or locating, the budget of failures exceeded, or no known holder backed off when it looks; a blocked turn relocates exactly if it may, and goes on only with new holders or one to wait for; in a steady job it finishes, or one more range is done, or a slip is spent, or it gives up |
| Scheduler.Job.ScheduleLoop | src/orchestrator.rs:705-820 | every prefix of every run keeps the invariant and issues at most n + max(n*a, a) + 1 fetches; success means every range of a non-empty plan is done; a steady job succeeds within ranges plus slips plus one turns, unless it is offered no one while no known holder is backed off |
| Scheduler.Job.AdoptLayout | src/orchestrator.rs:1229-1298 | a layout is adopted exactly when the root matches the request, the shape is stated, complete, consistent and within the limit |
| Scheduler.Job.EstablishCommitment | src/orchestrator.rs:1136-1192 | the first holder in discovery order whose metadata is adoptable fixes the commitment, bound to the requested root and the size limit; with none it fails |
| Scheduler.Job.DiscardBytesStagedForAnotherPlan | src/orchestrator.rs:612-626 | exactly a checkpoint of another layout loses its done ranges, its record and its bytes |
| Scheduler.Job.Rehydrate | src/orchestrator.rs:642-689 | from arbitrary staging: what is kept is read back and verified, and without a hasher nothing is kept; with one and a working sink exactly the checkpointed ranges that staging reaches are kept |
| Scheduler.Job.ResumeFrom | src/orchestrator.rs:395-419 | a checkpoint brings its commitment along exactly if it states a layout that adds up within the limits |
| Scheduler.Job.Finish | src/orchestrator.rs:558-602 | with a working sink a finished run fails exactly when the proof refuses the hash of the assembled bytes, so never for their length; those bytes were delivered or read back; a refusal drops checkpoint and bytes |
| Scheduler.Job.RunInner | src/orchestrator.rs:496-602 | success means the promoted bytes have the committed length, every range of them delivered by a logged fetch of this run that contradicted nothing, or read back, and a hash the proof accepted, or, with the check off, nothing read back; no range read back is fetched, and exactly the checkpointed ones that staging reaches are read back; anything else leaves the sink unfinalized; a commitment made in this run is the first adoptable one, bound to the requested root and the size limit; relocations stay within their budget; a run that must end does, and fails exactly if the proof refuses or the job gave up |
| Scheduler.Job.Run | src/orchestrator.rs:394-451 | the same from any stored checkpoint, whose layout is taken up if it adds up within the limits; the root is bound whenever it holds none |
| SchedulerWitness.NetworkObliges | src/orchestrator.rs:705-820 | a world whose only holder recovers from an outage, during which the selector offers no one, meets what completion assumes, for any content and chunking |
| SchedulerWitness.NeverGivesUp | src/orchestrator.rs:736-760 | no job in that world gives up, because it waits out the backoff |
| SchedulerWitness.PromotesOrRefuses | src/orchestrator.rs:394-602 | from a new job in that world: the content is promoted if the chain knows it, and refused, the sink unfinalized, if not |
| SchedulerWitness.GivesUpOnUsableHolder | src/orchestrator.rs:752-760 | a job that gives up although its only holder, which would serve every range, has just become usable |

## Left out

- Dialling, NAT ladder, connection pool, address parsing, DHT lookup, onion channel, HTTP probe and read ladder: input
  and output over libraries; a holder is an arbitrary function here.
- Selector, locator, chain anchor and merkle proof verifier: arbitrary functions; the default round-robin selector adds
  only easy members.
- Error texts and the per-holder reasons inside errors: only the error class is kept.
- Events, progress snapshots and trace output: no effect on any state proved about.
- Garbage collection and the staging claim: "no one else writes this staging area, and its length can be told" is the
  hypothesis `Undisturbed`; theorems that do not name it hold under any interference.
- The key under which checkpoints are stored: one store holds one target.
- Files: `Sink` and `StateStore` have the in-memory semantics; the rename that finalizes a file is one step.
- Allocation failure: one yes-or-no answer per request, and it only ever fails the holder at hand.
- SHA-256 rounds: a streaming hash is the bytes it absorbed.
- Floating point and `Duration` rounding: the buckets use exact reals, backoff whole nanoseconds.
- Concurrency inside a turn: a turn sees one event, as the program's event loop does; a fetch's result is fixed when
  it completes.
- Throttle.FcfsRateLimiter.Acquire: does not model the queue of callers before the gate; admissions happen one at a
  time in the order of calls, which is what the gate gives.
- Scheduler.Job.ScheduleLoop: does not state that a run ends when it is paused or has an empty plan, because it need
  not; a paused job waits for ever, and a plan with no ranges never counts as done.
- Scheduler.Job.Run: does not re-check an adopted root when it resumes from a stored commitment, as the program does
  not.
- Scheduler job fields: range states, flights, loads, done set, byte count and hasher state are one record value inside
  the job, updated in one assignment; `Hasher.ResourceHasher.Feed` is proved to do what that record's hasher step does.
- ModulePuller.ModuleDownloader.FetchVerifiedChunk: does not state which holder a chunk is asked of first; the rotation
  only spreads load, and what is proved is that one cycle reaches every holder.
