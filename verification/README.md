# Verified model of the coding-OPD training and evaluation tools

This project models, in Dafny, the stateful and combinatorial parts of a
repository that distils coding agents and evaluates them: the rollout lookahead
that must not outrun a checkpoint, the selection of nested task pools, the
adaptive stopping rule and the reuse of its Teacher labels, the restartable
Codex evaluation, the quick-first evaluation with its reporter, and the offsets
of packed sequences. `dafny verify dfyconfig.toml` checks everything.

## What is modelled

- `Prelude`, `Sorting`: options and results, sums, ratios, a stable sort.
- `Apportionment`: the greedy capacity-bounded allocation as a loop over a
  dictionary with ordered keys. A *fair allocation* is defined without the loop;
  it is unique, and it is the least-squares optimum over all integer
  allocations within capacity.
- `RepoAllocators`: the two sibling allocators, one that cycles and one that
  makes a single pass, and their agreement with the greedy one.
- `TaskSelection`, `NestedPools`, `R2eSplits`, `RoundRobin`: ranked picks from
  disjoint strata, the nested R2E pools, the Verified quick panel, the older R2E
  splits, and the two round-robin evaluation orders.
- `AsyncPrefetch`: the patched trainer as a state machine and as a class whose
  methods refine its steps. Its environment chooses what the sampler takes, what
  is evicted (and then refilled one for one) and when the process crashes.
- `AdaptiveFrontier`, `TeacherLabels`, `ScoredPrefixes`: the stopping rule, the
  extraction of labels from a Teacher pass, sessions that prune their store of
  scored prefixes in place, and the cropping of trajectories at finalization.
- `CodexRecords`, `CodexEval`: record files, reviewed resumes and the result
  file; then a campaign of phases in which a process may stop at any moment.
- `BackendSlots`: the semaphore and the queue of backend slots.
- `EvalReporting`, `SessionScores`, `QuickFirst`: stages, fixed-denominator
  scoring, the reader's checks, the polled queue, and resumable runs.

Conventions. Floating-point numbers are exact reals; a value that may be NaN or
infinite is `Float`. Ranks by SHA-256 are arbitrary functions of an identifier,
a hash that is only compared is an injective constructor, and a file replace is
one step. Dictionaries with string keys that the program sorts are tables with
ascending integer keys. Methods with loops are proved against specification
functions; the laws are then lemmas about those functions or about every run of
a state machine, with the program's own constants and conditions written out.

## What the proofs found

- `build_eval_splits` documents nested, balanced splits, but its internal
  allocation error is reachable: eligibility asks for `full_size // repositories`
  rows, and the first `full_size % repositories` chosen repositories owe one
  more (`RoundRobin.AllocationErrorIsReachable`; the exact condition is in
  `RoundRobin.BuildEvalSplits`).
- `largest_remainder_quotas` divides by zero when the total is zero and every
  key with positive capacity has weight zero. `Apportionment.LargestRemainderQuotas`
  lists this with the documented refusals; the "unable to satisfy" error is dead.
- A minimum retained length above the rule's warm-up makes the turn-by-turn
  session drop turns that the rule keeps (`AdaptiveFrontier.OnlineEqualsOffline`).
- A trajectory that extends an accepted sequence can still fail to match a
  scored prefix, because a longer record may have replaced it
  (`ScoredPrefixes.ExtendingAnAcceptedSequenceIsNotEnough`); the exact condition
  is `ScoredPrefixes.FailsExactly`.
- A trajectory that begins an accepted sequence can be dropped without an error:
  after a rollback the latest comparable record may end within the prompt
  (`ScoredPrefixes.RollbackDropsATrajectory`; exactly when is
  `ScoredPrefixes.KeptWholeExactly`).
- A staleness threshold of 2 or more is not always enough: the sampler can come
  to see an older row exactly when a batch takes several updates and `threshold`
  steps that do not save are followed by another step
  (`AsyncPrefetch.StalenessExactly`).
- The cast of the packed offsets to 32 bits is right exactly below 2^31 tokens
  (`PackedOffsets.CastExact`).
- A full result passes the reader only if the quick panel has no duplicate,
  which the dataset check of the full split does not establish
  (`EvalReporting.WriterReaderAgree`, with the input in
  `EvalReporting.DuplicatePanelRefused`); a quick-first run with such a panel
  submits a task twice (`QuickFirst.SubmittedOnceExactly`).
- A saved score of the quick-first evaluation is not final while its stage runs:
  a success of higher index for a finished session replaces it
  (`QuickFirst.LaterTrajectoryReplacesAScore`). It is final over runs in which
  no success for a fully scored task opens a session or exceeds its best index
  (`QuickFirst.FullyScoredOnlyGrow`), and a write changes a task's selection
  exactly when it does so (`SessionScores.QuietExactly`).
- The fingerprint of a Codex run does not cover the resume option. A phase
  restarted without it passes every check but finds its own records alone
  (`CodexEval.DroppedOptionExactly`); an inherited task is then completed again
  and the next restart with the option is refused
  (`CodexEval.DroppedOptionReachesRerun`, `CodexEval.RerunIsReachable`). While
  the option is kept nothing is lost or rerun
  (`CodexEval.RestartFindsEverything`, `CodexEval.CompletedNeverLost`).

## Model

| member | source | states |
|---|---|---|
| Apportionment.SelectKey | src/coding_opd/dataset_selection.py:60-65 | the loop over candidates finds the key below capacity with the largest deficit, the smallest such key on ties, and none exactly when every key is full |
| Apportionment.FillLargestDeficits | src/coding_opd/dataset_selection.py:58-67 | from the floored shares, handing out the remaining units one by one ends in the fair allocation and never runs out of candidates |
| Apportionment.LargestRemainderQuotas | src/coding_opd/dataset_selection.py:28-68 | which of the refusals occurs, including the undocumented division by zero, and otherwise the fair allocation; the "unable to satisfy" error never occurs |
| Apportionment.IncrementBalanced | src/coding_opd/dataset_selection.py:65-66 | a unit given to the largest deficit keeps the balance condition |
| Apportionment.NoTransfer | src/coding_opd/dataset_selection.py:63-65 | two fair allocations of one total cannot differ by moving a unit from one key to another |
| Apportionment.EmptyRequestCanDivideByZero | src/coding_opd/dataset_selection.py:47-53 | a total of zero with an open key of weight zero is not refused by the checks and divides by zero |
| Apportionment.RefusalExactly | src/coding_opd/dataset_selection.py:34-49 | each refusal in terms of the single weights and capacities: without weight on an open key a positive total is refused, and a total of zero divides by zero exactly when some key is open |
| Apportionment.SharesExactly | src/coding_opd/dataset_selection.py:47-53 | an open key's share times the weight of all open keys is the total times its own weight; a closed key has share zero |
| Apportionment.FairAllocationUnique | src/coding_opd/dataset_selection.py:34-68 | the allocation is determined by shares, capacities and total: there is only one fair allocation |
| Apportionment.FairAllocationOptimal | src/coding_opd/dataset_selection.py:50-68 | no integer allocation of the same total within capacity has a smaller sum of squared deviations from the exact shares; among equals this one is lexicographically greatest |
| Apportionment.FloorsFit | src/coding_opd/dataset_selection.py:47-58 | the floored quotas are within capacity and never exceed the total, so the number of remaining units is not negative |
| Apportionment.QuotasNonNegative | src/coding_opd/dataset_selection.py:54-68 | with non-negative weights and capacities no quota is negative |
| RepoAllocators.CyclicQuotas | src/coding_opd/r2e_data.py:104-123 | refuses exactly the sizes outside 0..total; whole cycles over the remainder order end in the fair allocation, and "unable to allocate" never occurs |
| RepoAllocators.OnePassQuotas | scripts/prepare_coding_opd_eval.py:89-98 | a single pass over the remainder order spends all units and ends in the fair allocation |
| RepoAllocators.AllocatorsAgree | src/coding_opd/r2e_data.py:104-123 | the cyclic loop, the single pass and the greedy loop with weights and capacities equal to the group sizes return the same quotas for every non-empty grouping and size |
| RepoAllocators.BumpFirstFair | src/coding_opd/r2e_data.py:108-121 | rounding up as many of the largest remainders as there are units left is the fair allocation |
| RepoAllocators.RemainderHasRoom | src/coding_opd/r2e_data.py:111-118 | each repository that receives a unit has a fractional share and a row to spare, so no guard ever skips one |
| RepoAllocators.QuotaRule | src/coding_opd/r2e_data.py:108-123 | every quota is the floor of its proportional share or one more |
| RepoAllocators.ProportionalExactly | src/coding_opd/r2e_data.py:104-110 | a group's share times all rows is the size times its own rows |
| TaskSelection.GroupsPartition | src/coding_opd/dataset_selection.py:131-138 | grouping by repository loses and repeats no row, and no group is empty |
| TaskSelection.PickIsBest | src/coding_opd/dataset_selection.py:179-184 | a picked row ranks no worse than any row of its stratum left behind |
| TaskSelection.PickIsRanked | src/coding_opd/dataset_selection.py:179-184 | the picked rows are in rank order and no row left behind ranks better |
| TaskSelection.PicksNested | src/coding_opd/dataset_selection.py:178-186 | smaller quotas over the same strata pick a subset |
| TaskSelection.PicksByStratum | src/coding_opd/dataset_selection.py:178-186 | a row of one stratum is among all picks exactly when it is among its own stratum's first ranks |
| NestedPools.BinsBalanced | src/coding_opd/dataset_selection.py:108-115 | the four complexity bins cut the score order into consecutive pieces whose sizes differ by at most one |
| NestedPools.BinsFollowScore | src/coding_opd/dataset_selection.py:101-115 | no row of a later bin scores, or stands, below a row of an earlier one, the standing being how many rows of the repository are no larger in each of the three fields |
| NestedPools.ScoreIsStanding | src/coding_opd/dataset_selection.py:101-106 | the score is a third of the standing over the number of rows, counted as sets of rows whose field is no larger, negative values read as zero |
| NestedPools.BinsQuarter | src/coding_opd/dataset_selection.py:108-115 | the bins quarter the order by standing and tie rank: the row at position p of n is in bin 4p / n |
| NestedPools.BinsFollowComplexity | src/coding_opd/dataset_selection.py:101-115 | a row at most as large as another in all three fields and smaller in one is never in a later bin |
| NestedPools.ValidateSourceRows | src/coding_opd/r2e_data.py:46-63 | accepts exactly rows with distinct identifiers that have a statement and an image, and returns them unchanged |
| NestedPools.BinQuotas | src/coding_opd/dataset_selection.py:161-171 | both calls succeed for any two nested repository quotas and share them out over the bins, the smaller inside the larger |
| NestedPools.CollectIds | src/coding_opd/dataset_selection.py:149-186 | the loop over repositories and bins collects two nested identifier sets of exactly the quota sums, the first ranks of every bin |
| NestedPools.BuildNestedSubsets | src/coding_opd/dataset_selection.py:118-214 | succeeds exactly on valid requests, never reaches either assertion error, and yields nested tiers of exactly the requested sizes with fair quotas per repository by size to the temperature and per bin, each repository's bins quartering its complexity order, best-ranked within each bin and published in rank order |
| NestedPools.SelectVerifiedQuick | src/coding_opd/dataset_selection.py:217-260 | succeeds exactly when the ids are distinct and the size covers every repository; each repository gets one slot and a fair share of the rest, filled by rank |
| NestedPools.StratifiedSelect | src/coding_opd/r2e_data.py:126-136 | for any rows, repeated identifiers included, succeeds exactly for sizes in range and returns a proportional subset, best-ranked within each repository, in publication order |
| R2eSplits.BuildR2eSplits | src/coding_opd/r2e_data.py:139-181 | succeeds exactly on valid sizes; dev and train are disjoint, smoke is inside debug inside pilot inside train, each of its exact size and a proportional subset of what it is drawn from |
| RoundRobin.RoundRobinOrder | src/coding_opd/swesmith_data.py:156-163 | the nested loop over offsets and repositories produces the turn-by-turn order |
| RoundRobin.RoundRobinExactly | src/coding_opd/swesmith_data.py:156-163 | every row of every list has one place, ordered by its offset and then by its list |
| RoundRobin.OrderContents | src/coding_opd/swesmith_data.py:157-163 | the order holds every listed row exactly once |
| RoundRobin.PrefixBalanced | src/coding_opd/swesmith_data.py:157-166 | in every prefix a repository is behind another by more than one row only when its own rows are used up |
| RoundRobin.AllotmentsReachFullSize | src/coding_opd/swesmith_data.py:139-165 | the allotments add up to the full size exactly when no repository that owes an extra row comes back short |
| RoundRobin.ChosenAreBest | src/coding_opd/swesmith_data.py:139-145 | the chosen repositories come in rank order, each has enough rows, and no eligible one that was passed over ranks better |
| RoundRobin.BuildEvalSplits | src/coding_opd/swesmith_data.py:112-166 | which refusal occurs when, the exact condition of the internal allocation error, and otherwise a full order of exactly full_size best-ranked rows, repositories in the order of their rank turn by turn, whose prefixes are balanced, with smoke and fast as prefixes |
| RoundRobin.AllocationErrorIsReachable | src/coding_opd/swesmith_data.py:139-165 | three rows asked from two repositories of one row each pass the eligibility test and still come up short |
| RoundRobin.SelectVerified | scripts/prepare_coding_opd_eval.py:69-110 | succeeds exactly on distinct ids and sizes in range; the full order is fairly apportioned, best-ranked in each repository and turn by turn over the ranked repositories, and fast is a prefix of it |
| PackedOffsets.OffsetsExact | src/coding_opd/qwen35_kernels.py:19-24 | the offsets run strictly from 0 to n, are constant inside each segment and differ across each interior boundary, and no other list does so |
| PackedOffsets.CastExact | src/coding_opd/qwen35_kernels.py:24 | the 32-bit cast leaves the offsets unchanged exactly when there are fewer than 2^31 tokens |
| PackedOffsets.CuSeqlensExact | src/coding_opd/qwen35_kernels.py:15-24 | any shape other than [1, tokens] is refused and named; below 2^31 tokens the result is the exact offset list, [0] for the empty row, and above it each offset modulo 2^32 |
| PackedOffsets.UnpackInvertsPack | src/coding_opd/qwen35_kernels.py:22-24 | repeating each segment's identifier over its length restores the row |
| PackedOffsets.PackInvertsUnpack | src/coding_opd/qwen35_kernels.py:22-24 | the offsets of an expanded segment list are the segment list, when neighbouring identifiers differ |
| AsyncPrefetch.MultipleIsModulo | src/coding_opd/async_prefetch.py:41 | the repeated subtraction of the model decides step % save_freq == 0 |
| AsyncPrefetch.StepKeepsInv | src/coding_opd/async_prefetch.py:32-89 | every event, crashes included, keeps conservation, queue sizes, flag, tags and checkpoint history |
| AsyncPrefetch.LooksAheadExactly | src/coding_opd/async_prefetch.py:69-79 | at the end of a step one batch is in flight and the flag set exactly when the step is neither the last, nor a multiple of a positive save frequency, nor the early checkpoint step; otherwise nothing is in flight |
| AsyncPrefetch.NoRefusal | src/coding_opd/async_prefetch.py:69-89 | for every save frequency, first step, total and number of updates, each step that saves has an empty queue and a clear flag, so the refusal never occurs |
| AsyncPrefetch.SavedExactlyOnce | src/coding_opd/async_prefetch.py:32-44 | behind the current step exactly the multiples of the save frequency, the last step and the early one have been saved, once each and in order, crashes or not |
| AsyncPrefetch.CheckpointsKept | src/coding_opd/async_prefetch.py:32-44 | no run, crashes included, loses or changes a checkpoint |
| AsyncPrefetch.CrashResumes | src/coding_opd/async_prefetch.py:14-20 | a crash goes back to the step behind the latest checkpoint, with its model and dataloader position and nothing in flight, and no step that saves lies between |
| AsyncPrefetch.CheckpointsExact | src/coding_opd/async_prefetch.py:63-89 | at each checkpoint the rows trained along its lineage plus the evicted ones are exactly the dataloader prefix, each row once; trained rows are whole batches; each checkpoint continues the one before |
| AsyncPrefetch.RowsConserved | src/coding_opd/async_prefetch.py:63-79 | at every moment each fetched row is trained, evicted or outstanding, exactly one of these |
| AsyncPrefetch.QueueBounds | src/coding_opd/async_prefetch.py:63-79 | the sampler always finds a mini-batch, and at most 2B - B/p prompts are ever outstanding |
| AsyncPrefetch.BoundedLag | src/coding_opd/async_prefetch.py:53-79 | with one update per batch, whatever can be sampled at step s was dispatched at s or s - 1, and nothing is stale |
| AsyncPrefetch.StalenessExactly | src/coding_opd/async_prefetch.py:53-54 | some run shows the sampler a row older than the threshold if and only if a batch takes several updates and `threshold` steps that do not save are followed by another step |
| AsyncPrefetch.ThresholdTwoIsNotEnough | src/coding_opd/async_prefetch.py:53-54 | with the smallest accepted threshold, two updates a step and no saves, a run of four steps can make a row stale |
| AsyncPrefetch.Trainer.AddBatchToGenerate | src/coding_opd/async_prefetch.py:63-67 | clears the flag instead of dispatching when a batch is already there, otherwise dispatches one |
| AsyncPrefetch.Trainer.OnSampleEnd | src/coding_opd/async_prefetch.py:69-79 | after the first mini-batch of a step that is neither the last nor saves, dispatches one batch of fresh rows tagged with the step and sets the flag; otherwise changes nothing |
| AsyncPrefetch.Trainer.SaveCheckpoint | src/coding_opd/async_prefetch.py:81-89 | refuses exactly with outstanding prompts or a set flag, otherwise appends the checkpoint |
| AsyncPrefetch.Trainer.OnStepEnd | src/coding_opd/async_prefetch.py:32-44 | saves early exactly at the first checkpoint step that no regular or final save covers |
| AsyncPrefetch.Trainer.PerformAll | src/coding_opd/async_prefetch.py:32-89 | a whole run on the object ends where the state machine's run ends, and no save in it is refused |
| AdaptiveFrontier.RetainedMeansFrontier | src/coding_opd/algorithms/adaptive.py:20-34 | the rule gives a length exactly when some turn is a first frontier, and then the larger of that turn and the minimum |
| AdaptiveFrontier.FiresComparesMeans | src/coding_opd/algorithms/adaptive.py:29-32 | a turn fires exactly when the baseline and the window have averages, no NaN among them, and the window's is at least the baseline's plus the threshold |
| AdaptiveFrontier.StableUnderExtension | src/coding_opd/algorithms/adaptive.py:20-34 | once the rule has fired, further turns change neither verdict nor length, NaN turns included |
| AdaptiveFrontier.StopsAtFirstFrontier | src/coding_opd/algorithms/adaptive.py:25-34 | prefixes up to the first frontier turn continue and every longer one stops |
| AdaptiveFrontier.SessionAccepts | src/coding_opd/adaptive_rollout.py:30-40 | the turn-by-turn session accepts exactly the turns before the first frontier, or all of them |
| AdaptiveFrontier.OnlineEqualsOffline | src/coding_opd/algorithms/adaptive.py:20-34 | the session accepts what the rule retains, on every entropy list, if and only if the minimum retained length is at most the baseline or below the sustain length |
| TeacherLabels.ExtractAdaptiveLogprobs | src/coding_opd/adaptive_teacher.py:6-28 | the loop fails on a missing token before it fails on a length mismatch, and otherwise gives each sampled token's label, the dummies, and averages over the suffix only, undefined when it is empty |
| TeacherLabels.ExtractedExactly | src/coding_opd/adaptive_teacher.py:12-25 | fails on a token that its row does not name, otherwise on lists of different lengths, and otherwise gives each token the value its row names for it, with dummies 0 at the end |
| TeacherLabels.ForwardIsLabelled | src/coding_opd/adaptive_teacher.py:12-28 | on a causal Teacher's pass extraction never fails and row i is the Teacher's label of token i + 1 given the tokens up to i |
| TeacherLabels.TurnDiagnostics | src/coding_opd/adaptive_teacher.py:16-28 | with the start that the client passes, entropy and mass average over exactly the generated tokens, each summing -p log p and p over the candidates of rank 16 or better with a finite logarithm; without generated tokens there are none |
| ScoredPrefixes.StaysStopped | src/coding_opd/adaptive_rollout.py:30-40 | a stopped session stays stopped whatever turns follow |
| ScoredPrefixes.AcceptsAPrefix | src/coding_opd/adaptive_rollout.py:30-40 | the accepted turns are exactly the first ones, as many as the rule leaves before its frontier |
| ScoredPrefixes.StoreIsOrdered | src/coding_opd/adaptive_rollout.py:38-39 | no stored sequence is a prefix of a later stored one |
| ScoredPrefixes.StoreCoversTurns | src/coding_opd/adaptive_rollout.py:36-39 | every accepted sequence is a prefix of a stored one |
| ScoredPrefixes.StoreHoldsTurns | src/coding_opd/adaptive_rollout.py:34-39 | every stored record is that of an accepted turn, never of a rejected one |
| ScoredPrefixes.StoreExactly | src/coding_opd/adaptive_rollout.py:30-40 | the store holds exactly the records of the accepted turns that no later accepted turn extends |
| ScoredPrefixes.StoreInOrder | src/coding_opd/adaptive_rollout.py:36-39 | the store lists exactly these records in the order of their turns |
| ScoredPrefixes.CropIsLabelled | src/coding_opd/adaptive_rollout.py:55-69 | whichever comparable record is chosen, ids, mask and label rows have matching lengths and each row is the Teacher's label of the trajectory's own next token |
| ScoredPrefixes.RetainedIsLabelled | src/coding_opd/adaptive_rollout.py:42-71 | whatever finalization keeps is so labelled and lies inside an accepted turn's sequence |
| ScoredPrefixes.FailsExactly | src/coding_opd/adaptive_rollout.py:51-54 | finalization fails on a trajectory with response tokens exactly when it neither begins an accepted sequence nor extends one that no later accepted sequence extends |
| ScoredPrefixes.RetainedExactly | src/coding_opd/adaptive_rollout.py:42-71 | finalization keeps a trajectory exactly when its mask has a response token and both it and the last comparable surviving turn go beyond its prompt; it keeps the shorter of the two, with mask, log-probabilities and routing cut to match and dummy label last |
| ScoredPrefixes.KeptWholeExactly | src/coding_opd/adaptive_rollout.py:51-64 | a trajectory is kept whole exactly when it begins an accepted sequence and no later surviving sequence is a proper beginning of it |
| ScoredPrefixes.RollbackDropsATrajectory | src/coding_opd/adaptive_rollout.py:51-58 | a trajectory that begins an accepted sequence and is dropped, because a later accepted turn ends within its prompt |
| ScoredPrefixes.ExtendingAnAcceptedSequenceIsNotEnough | src/coding_opd/adaptive_rollout.py:38-54 | a trajectory may extend an accepted sequence and still match no record |
| ScoredPrefixes.CropsToLastAccepted | src/coding_opd/adaptive_rollout.py:51-64 | a trajectory that goes on past the last accepted turn is cropped to exactly that turn |
| ScoredPrefixes.SessionIsLabelled | src/coding_opd/adaptive_rollout.py:82-112 | a whole session under a causal Teacher: scoring never fails, and what finalization keeps is correctly labelled and lies inside one of the accepted calls |
| ScoredPrefixes.AdaptiveSession.Accept | src/coding_opd/adaptive_rollout.py:30-40 | the object's lists, store and flag after a turn, and whether it was accepted |
| ScoredPrefixes.AdaptiveSession.Attach | src/coding_opd/adaptive_rollout.py:42-71 | every trajectory up to the first without a match is updated in place and no other; without such a one, exactly the retained ones are returned in order |
| ScoredPrefixes.Trajectory.CropTo | src/coding_opd/adaptive_rollout.py:55-69 | kept exactly when the prefix and the trajectory go beyond the prompt; then ids, mask, log-probabilities and routing are each cut to their beginning and labels attached, otherwise nothing changes |
| ScoredPrefixes.AdaptiveRolloutClient.Generate | src/coding_opd/adaptive_rollout.py:82-112 | passes other requests and empty replies through untouched; otherwise scores the whole sequence, updates only that session and, when the session stops, replies with no tokens and stop reason "length" |
| CodexRecords.LoadRecords | src/coding_opd/codex_eval_entrypoint.py:125-141 | the loop over files gives the first refusal or the dictionary of records |
| CodexRecords.LoadSucceedsExactly | src/coding_opd/codex_eval_entrypoint.py:131-141 | loading succeeds exactly when every file is of this run, of an expected task, and alone for its task |
| CodexRecords.LoadFailsAt | src/coding_opd/codex_eval_entrypoint.py:131-140 | a refusal names what is wrong with the first file that cannot be taken: unexpected task, other run, or repeated task |
| CodexRecords.LoadRestores | src/coding_opd/codex_eval_entrypoint.py:125-141 | in whatever order a consistent directory is listed, exactly its records are loaded |
| CodexRecords.MergeTasks | src/coding_opd/codex_eval_entrypoint.py:183-191 | the merge of file records and listed records, with its two refusals |
| CodexRecords.MergeExactly | src/coding_opd/codex_eval_entrypoint.py:183-191 | succeeds exactly when every listed record is of an expected task and an allowed run and contradicts neither a file nor another record, and then holds both sides and nothing else |
| CodexRecords.ReviewExactly | src/coding_opd/codex_eval_entrypoint.py:155-178 | the review accepts exactly when a changed commit was approved by its full hash, a reviewed task configuration is the source's, and every other field but the four resource fields, and every serving field but the five named ones, is missing from both identities or equal in both; otherwise which refusal it gives |
| CodexRecords.ResumeRecords | src/coding_opd/codex_eval_entrypoint.py:144-203 | removing fields step by step decides like comparing projections, and the whole import with its refusals and provenance |
| CodexRecords.ResumedExactly | src/coding_opd/codex_eval_entrypoint.py:144-191 | the import succeeds exactly on a source of another path with a valid fingerprint that passes the review field by field and whose records are expected, allowed and uncontradicted; it then holds every one of them and nothing else |
| CodexRecords.ResumedProvenance | src/coding_opd/codex_eval_entrypoint.py:192-203 | the provenance names the source, exactly the fingerprints of the imported records, their number, and the approvals |
| CodexRecords.LowerBoundHolds | src/coding_opd/codex_eval_entrypoint.py:216-242 | with no negative score the published lower bound only rises as records are added, and is the mean of a complete result |
| CodexRecords.PayloadFigures | src/coding_opd/codex_eval_entrypoint.py:214-243 | the records in dataset order, completeness, the number of successes, and a lower bound and mean that times the samples are the sum of the listed scores |
| CodexEval.ResumeRestores | src/coding_opd/codex_eval_entrypoint.py:144-203 | the import from a stopped chain of phases yields every record of the chain, or the refusal of the review, and nothing else |
| CodexEval.BootOutcome | src/coding_opd/codex_eval_entrypoint.py:479-488 | the error about rerun inherited tasks fires exactly when the directory repeats an inherited task; otherwise everything on disk is found |
| CodexEval.StepKeepsInv | src/coding_opd/codex_eval_entrypoint.py:349-408 | launching, restarting with the resume option kept, starting, finishing, collecting and stopping all keep disks, results, memory and history consistent |
| CodexEval.CompletedNeverLost | src/coding_opd/codex_eval_entrypoint.py:335 | over every further run that keeps the resume option, stops, restarts and resumes included, a record on some disk stays on exactly one disk, unchanged |
| CodexEval.OneRecordPerTask | src/coding_opd/codex_eval_entrypoint.py:321-335 | each completed record is in exactly one phase's directory and carries that phase's fingerprint |
| CodexEval.NeverRerun | src/coding_opd/codex_eval_entrypoint.py:377-392 | over runs that keep the resume option, a running process can start exactly the samples without a record that are not in flight; a completed task is never in flight |
| CodexEval.RestartFindsEverything | src/coding_opd/codex_eval_entrypoint.py:479-501 | the same command, resume option included, can always be started again: no check fails, and memory and result hold exactly the records ever written |
| CodexEval.DroppedOptionExactly | src/coding_opd/codex_eval_entrypoint.py:144-148 | a restart that drops the resume option passes every check and finds the phase's own records alone: all records exactly when nothing was inherited |
| CodexEval.DroppedOptionReachesRerun | src/coding_opd/codex_eval_entrypoint.py:484-488 | from every stopped phase with an inherited task, one dropped option lets that task be completed again, after which the restart with the option is refused for rerun tasks |
| CodexEval.RerunIsReachable | src/coding_opd/codex_eval_entrypoint.py:484-488 | a concrete run of two phases over one task that ends in this refusal |
| CodexEval.LaunchAcceptedExactly | src/coding_opd/codex_eval_entrypoint.py:144-178 | a new phase is refused exactly for naming its source's own result or for an unreviewed difference of the identities, with the refusal that names it; otherwise a phase with an empty directory is appended and starts with every record |
| CodexEval.ProvenanceChain | src/coding_opd/codex_eval_entrypoint.py:182-203 | every listed record was written by this or an earlier phase, carries its writer's fingerprint, and that fingerprint is allowed at the next resume |
| CodexEval.PhasesAgree | src/coding_opd/codex_eval_entrypoint.py:156-178 | any two phases agree on every field but the four resource fields and on every serving field but the five named ones, and on commit and task configuration unless a phase between them reviewed that change |
| CodexEval.LowerBoundIsMet | src/coding_opd/codex_eval_entrypoint.py:240-242 | the lower bound published at any moment is at most the mean of any later complete result |
| CodexEval.Campaign.LoadAll | src/coding_opd/codex_eval_entrypoint.py:479-488 | loading, importing and the overlap check in sequence |
| CodexEval.Campaign.CollectTask | src/coding_opd/codex_eval_entrypoint.py:393-407 | takes one finished record into memory and rewrites the result |
| CodexEval.Campaign.Perform | src/coding_opd/codex_eval_entrypoint.py:349-408 | each event on the object is the state machine's step; history only grows and a restart recovers all of it |
| BackendSlots.SlotsConserved | src/coding_opd/codex_eval_entrypoint.py:371-375 | in every interleaving queued and busy slots of each replica add up to its allotment, and tasks never exceed the concurrency |
| BackendSlots.NeverBlocksExactly | src/coding_opd/codex_eval_entrypoint.py:455-456 | a permit holder finds a backend at once in every interleaving if and only if the concurrency is within the replicas' slots |
| BackendSlots.RoundsInTurn | src/coding_opd/codex_eval_entrypoint.py:371-375 | the queue starts with all replicas in turn, one round after another |
| BackendSlots.Pool.constructor | src/coding_opd/codex_eval_entrypoint.py:371-375 | the nested loops fill the queue with one round of replicas after another |
| BackendSlots.Pool.TakeBackend | src/coding_opd/codex_eval_entrypoint.py:261-262 | under the start-up bound the queue is not empty; the front backend is taken and exists |
| BackendSlots.Pool.ReleaseBackend | src/coding_opd/codex_eval_entrypoint.py:345-346 | whatever became of the task, its backend and its permit return |
| EvalReporting.StagesRearrange | src/coding_opd/eval_entrypoint.py:276-285 | without a panel there is one stage; otherwise stages exist exactly when the panel is contained in the dataset, the first is the panel in its own order, and together they rearrange the samples exactly when the panel has no duplicate |
| EvalReporting.OthersInOrder | src/coding_opd/eval_entrypoint.py:284-285 | the second stage holds exactly the samples outside the panel, in the order of the dataset |
| EvalReporting.WriteResult | src/coding_opd/eval_entrypoint.py:223-268 | the loop that pads every task to n sessions, counts and averages; each record has the first n session scores, their sum over n as score, and the status |
| EvalReporting.WriterFigures | src/coding_opd/eval_entrypoint.py:236-265 | a missing session counts as zero: the mean times n times the tasks is the sum of all kept session scores, and a task is complete with n of them |
| EvalReporting.MeanOfMeans | src/coding_opd/eval_entrypoint.py:236-265 | because of the padding, the mean over sessions is the mean of the task means |
| EvalReporting.SessionsInRange | src/coding_opd/eval_entrypoint.py:237-243 | session scores in [0, 1] give task scores in [0, 1] |
| EvalReporting.WrittenSummary | src/coding_opd/eval_reporting.py:18-42 | summarising written records succeeds exactly when task scores are in range, and repeats the writer's mean and counts |
| EvalReporting.SummaryFigures | src/coding_opd/eval_reporting.py:18-42 | a summary is made exactly of distinct tasks with scores in range and not too many sessions; mean, percentage, sum, missing sessions and status counts are sums over the records |
| EvalReporting.ReaderAcceptsExactly | src/coding_opd/eval_reporting.py:45-95 | the reader accepts exactly the full results whose tasks match the manifest in number and order, that hold every panel task, can be summarised, and whose reported mean is within 1e-12 |
| EvalReporting.WriterReaderAgree | src/coding_opd/eval_reporting.py:45-95 | a full result written for a validated dataset passes the reader exactly when the panel is well formed and scores are in range; the quick part is what writing the panel alone would give |
| EvalReporting.DuplicatePanelRefused | src/coding_opd/eval_reporting.py:24-28 | a validated manifest whose panel names its one task twice, with which no full result passes the reader |
| SessionScores.ReadScores | src/coding_opd/eval_entrypoint.py:191-220 | one score per session with a success, from its successful trajectory of highest index, in session order, and the statuses of the prompts |
| SessionScores.StatusesExactly | src/coding_opd/eval_entrypoint.py:196-199 | a requested task has a status exactly when its prompt is in the queue, an empty one read as unknown |
| SessionScores.RereadExactly | src/coding_opd/eval_entrypoint.py:208-210 | a later read of a grown queue selects the same trajectories of a task exactly when nothing new opens a session or raises an index |
| SessionScores.ReadRepeats | src/coding_opd/eval_entrypoint.py:191-220 | two reads of one queue give a task the same scores |
| SessionScores.QuietExactly | src/coding_opd/eval_entrypoint.py:198-210 | a write to the queue leaves a task's selection alone exactly when it is no success of that task that opens a session or exceeds its best index so far |
| QuickFirst.Reload | src/coding_opd/eval_entrypoint.py:299-302 | the loop that takes over the fully scored tasks of a saved result |
| QuickFirst.ReloadExactly | src/coding_opd/eval_entrypoint.py:299-302 | exactly the fully scored tasks are taken over, with the scores and status that the result lists |
| QuickFirst.BeginExactly | src/coding_opd/eval_entrypoint.py:288-314 | a run starts exactly when a saved result has its settings and only known fully scored tasks and the panel is contained; it has submitted nothing and written the file anew; otherwise nothing changes |
| QuickFirst.ReloadRoundTrip | src/coding_opd/eval_entrypoint.py:237-245 | writing and reloading returns exactly the fully scored tasks, each with its first n scores |
| QuickFirst.WriteKeepsHeld | src/coding_opd/eval_entrypoint.py:322-326 | a quiet write keeps every fully scored waiting task's held scores equal to what the queue selects |
| QuickFirst.PollRepeatsHeld | src/coding_opd/eval_entrypoint.py:323-326 | a poll then says of a fully scored task exactly what the process holds |
| QuickFirst.SubmittedOnce | src/coding_opd/eval_entrypoint.py:316-320 | one process never submits a task twice, if a quick-first panel has no duplicate |
| QuickFirst.SubmittedOnceExactly | src/coding_opd/eval_entrypoint.py:276-320 | no reachable process submits a task twice if and only if the panel, when contained in the dataset, has no duplicate |
| QuickFirst.PendingInOrder | src/coding_opd/eval_entrypoint.py:317 | of a stage exactly the tasks with fewer than n scores are submitted, in the order of the stage |
| QuickFirst.NothingForgotten | src/coding_opd/eval_entrypoint.py:316-334 | a process that reaches its end has submitted every task of the dataset or has all its sessions scored |
| QuickFirst.PollSaves | src/coding_opd/eval_entrypoint.py:322-334 | a poll brings the read scores and statuses into the file exactly when the number of scores changed or the work is done; done work ends the stage, failed work the process |
| QuickFirst.FullyScoredOnlyGrow | src/coding_opd/eval_entrypoint.py:288-342 | over every quiet run a fully scored task stays in the result file with its session scores, across saves, crashes and restarts |
| QuickFirst.LaterTrajectoryReplacesAScore | src/coding_opd/eval_entrypoint.py:208-210 | a run in which a later trajectory of a finished session turns a saved score of 1.0 into 0.0 |
| QuickFirst.QuickFileIsTheReport | src/coding_opd/eval_entrypoint.py:335-341 | the quick result written after the first stage is what the reader later derives for the panel from the full result |
| QuickFirst.Evaluation.PollQueue | src/coding_opd/eval_entrypoint.py:322-334 | one turn of the polling loop: the queue read, scores updated, the file saved when the count changed or the work is done, then the stage left or the run ended by the failure |
| QuickFirst.Evaluation.Start | src/coding_opd/eval_entrypoint.py:288-314 | refuses other settings, reloads what is fully scored, plans the stages and saves at once |

## Left out

- Floating-point rounding: shares, entropies and means are exact reals, and the reader's tolerance is then never used up.
- SHA-256, JSON, parquet, manifests and file names: hashes that are compared are injective constructors, ranks are arbitrary functions, and files are values. That record file names are distinct for distinct tasks is assumed.
- Missing columns and values of the wrong type in rows, manifests and results; `log1p` in the complexity scores, which is increasing and does not change a percentile.
- The trainer's base class, sampler, dataloader and TransferQueue are environments; the dataloader is assumed not to end an epoch within a run, an evicted row is refilled by one fresh row, the base training loop saves at multiples of a positive save frequency and at the last step, and a restart resumes the latest checkpoint with an empty queue. The installer's own refusals (warm-up batches, threshold below 2) are preconditions.
- AdaptiveFrontier.RetainedMeansFrontier: assumes at least one baseline turn and one sustain turn, without which the program divides by zero.
- ScoredPrefixes.AdaptiveSession.Attach: assumes that the trajectories are distinct objects; tensors and their 32-bit ids are plain sequences.
- Concurrent sessions of one client, retries, and the Teacher server itself; the Teacher is any causal function that reports the sampled token.
- TeacherLabels.ExtractAdaptiveLogprobs: the exponential function is a parameter, so nothing is said about the size of the diagnostics.
- Two phases resumed from one source, and a source started again after it was resumed from: the program asks for a stopped source and does not check it. Apart from the resume option, restarts of a phase use the same command line.
- CodexEval.ResumeRestores: the records directory is a free option of the program while a resume reads `records` beside the source's result; the two are taken to be the same directory.
- CodexRecords.ReviewExactly: an identity without a commit key is read like one with a null commit; the program always writes the key, and removing a missing one would raise.
- CodexEval.LowerBoundIsMet: assumes that no score is negative.
- Task execution, artifacts, logs, wall-clock times and the mean over completed tasks of the Codex evaluation; cancellation is modelled only while a task waits for a backend.
- QuickFirst.FullyScoredOnlyGrow: holds over quiet runs; whether the agent framework ever writes a later trajectory for a finished session is not part of this model. In the queue a successful trajectory is written once, other entries may be rewritten, and nothing is removed while a process runs. Statuses may still change.
- Running two models side by side in one driver, and whether a final result is complete.
- `select_debug_tasks`, row conversion, split bundles on disk and the frozen-manifest selection, which would add only easy members.
- Profiling, plotting, container images, sandboxes, proxies, launchers, graders, the other two distillation algorithms and the library patches outside the modelled files.
