# A verified model of the review server

This project models the parts of the review server that have to be right on every
input and in every interleaving: how a pull-request diff is cut into prompts, how
findings are scoped, grouped and retried, how review jobs move between processes,
and how reviews are posted on GitHub exactly as often as they should be. It also
covers the small components whose two halves have to agree: the finding summary,
keyset paging, the schema catalog and the Wilson bound of the benchmarks.

`dafny verify dfyconfig.toml` checks everything.

## How the files fit together

| files | component |
|---|---|
| `Text` | lines, joins, decimal numbers, lists without repetition |
| `DiffFilter`, `DiffChunks`, `DiffSyntax`, `DiffPieces`, `DiffOwnership`, `DiffRoundTrip`, `DiffLimits` | the diff chunker: its functions, its loops, which text is read as what, what is printed and packed, who owns an added line, reading a chunk back, and the limits of a budget |
| `FindingPolicy`, `FindingScope`, `Dedupe`, `DedupeEquivalence`, `DedupeHistory`, `DedupeFields`, `Merge`, `MergeOrder` | normal paths and scope, duplicate groups at once and retry by retry, and by the fields of findings, merging for display |
| `ChunkRetry`, `ChunkSelection`, `ChunkHistory`, `ChunkAnswers` | one vendor's chunks over the first review and its retries, what a retry selects or refuses, and what is stored |
| `JobQueue`, `JobDb`, `QueueRows`, `QueueEffects`, `WorkerProtocol`, `WorkerEffects`, `QueueSafety`, `QueueSteps`, `QueueWork`, `QueueTheorems`, `QueueGuarantees`, `QueueProgress` | the job queue with process leases, as rows, as a protocol of workers, what each transaction and step changes, its guarantees, and how jobs come to their end |
| `Posting`, `PostingRows`, `PostingProtocol`, `PostingEffects`, `PostingFates`, `PostingSafety`, `PostingSteps`, `PostingRequest`, `PostingTheorems`, `PostingRecords`, `PostingProgress`, `PostingRace` | crash-safe posting, as rows, as a protocol with a lossy remote side, what each transaction and step changes, its guarantees, what is on record afterwards, and when it gets done |
| `FindingSummary`, `SummaryCounts` | the triggers that keep the summary of a run |
| `Paging`, `PagingRows` | positions and cursors, and the order of the findings |
| `Ddl`, `DdlForms`, `DdlItems`, `DdlParts`, `DdlRoundTrip`, `DdlCatalog` | printing a schema, which texts are read as what, and reading the catalog back |
| `Wilson` | the Wilson lower bound and the search for missing successes |

Code that changes state is written twice. A class (`Posting.PostDb`, `JobDb.ReviewDb`,
`FindingSummary.SummaryDb`) or a method with loops follows the program statement by
statement, and its contract ties it to a function on values. The theorems are about
those functions, over whole runs where the program is a protocol. What the functions
compute is stated a second time without them: as a grammar, by counting lines or rows,
by the places that are picked from a list, or field by field.

## What is assumed

- Every database transaction is one atomic step. `enqueue` commits its insert and its
  revival separately; both are one step here.
- Hashes are injective. The operation key and the marker of a post are therefore
  represented by the data they are computed from.
- The only line terminator is `'\n'`; letters, digits and white space are ASCII.
- Listing the reviews of a pull request is complete, and a call sent to GitHub has
  landed or is lost before its operation can be taken over after 20 minutes.
- The decoder of quoted paths in diff headers, the hash that stands for a long path,
  the canonical form of a claim and the square root are parameters. Theorems that
  need something of them say so.
- Clocks, numbers of processes and everything GitHub, vendors and people do are inputs
  of the steps.

## What turned out otherwise than promised

- **Posting is not at most once when others change reviews.** The lock is per run but
  the review is per pull request. `PostingRace.WrittenTwice` has a slow call of an older
  run, sent after that run passed its checks, update the recorded review between the
  first call of the latest run and its recording; the request of the latest run has
  crashed there, and its next attempt, 20 minutes later, writes the marker again. A
  person who rewrites or deletes the review has the same effect. The program's guards
  let this pass. `_is_latest_run` (`server/api.py:1427-1432`) holds, because the run
  posted twice is the latest one throughout; so does the check of the head
  (`server/api.py:1630-1645`), which does not move. The scan for duplicates
  (`server/api.py:1588-1627`), which is not modelled and only ever refuses a post, skips
  every review with the program's own heading (`server/api.py:1604-1606`), and what
  lands on the review is such a body; updates carry no inline comments. The number of
  writes lies between the number of times the marker was taken away from its open
  operation and one more (`PostingTheorems.WrittenOnceUnlessTaken`) and stays as it is
  once the operation has been applied (`PostingTheorems.SettledForGood`); nobody else's
  interference means at most once (`PostingTheorems.AtMostOnce`).
- **An interrupted post can be blocked by a new approval.** An unfinished operation keeps
  its findings reserved. When one more finding of the vendor is approved, the body of its
  comment changes, so preparing sees another identity and finds the old findings taken;
  every post of that vendor is refused until the comment is as before, for instance
  because the new finding is dismissed. Left alone, a request brings an unfinished
  operation of its vendor to an end exactly when its run is the latest, its comment is
  the very one the operation was made for, and the operation has been applied remotely or
  can be claimed (`PostingProgress.FinishesExactly`).
- **A crash of a worker alone leaves its job running for good.** As long as the process
  still renews its lease nobody takes the job up, and no step of anybody but a recovery
  after the lease has died changes it (`QueueProgress.CrashAbandons`,
  `QueueProgress.AbandonedForGood`). In every state a job can come to its end without a
  recovery exactly when it is not abandoned in this way
  (`QueueProgress.EndsUnlessAbandoned`).
- **The ownership error can fire for small budgets.** An oversized block with added
  lines keeps them exactly when the budget is at least 82 or 32 more than the header
  that repeats its path (`DiffOwnership.KeptInNumbers`); with all blocks kept, a diff
  that names no line twice is accepted (`DiffOwnership.AcceptedExactly`). The bound is
  tight: for every path of 17 characters or more there is a diff with one added line
  that is refused at 81 and accepted at 82 (`DiffLimits.LostAt81`,
  `DiffLimits.TooLongAt82`).
- **The budget is not a hard cap.** The guard in front of the splitter leaves room for
  line numbers of five digits in all; the same diff, at line 1000, has a chunk of more
  than 82 characters at a budget of 82. No chunk is longer than the budget exactly when,
  for each hunk line of a block that is printed anew, the printed header, 24 characters
  and the digits of both its line numbers fit in the budget
  (`DiffLimits.BudgetIsKeptExactly`).
- **A Wilson threshold of one is out of reach.** The bound stays below one for perfect
  samples of any size, so the equivalence with the point rate and the distance holds
  exactly below one (`Wilson.ThresholdDecides`, `Wilson.PerfectIsBelowOne`).
- **Names with `$` are cut when a schema is read back**, because the header pattern stops
  at the first character that is not part of a word. What every printed schema is read as
  is stated without any condition (`DdlCatalog.SchemaReadsBack`), and a table has its
  intended keys exactly when neither name has a `$` (`DdlCatalog.KeysAreIntended`). A
  printed schema is read back as it was meant exactly when no printed schema or table
  has a `$` in its name and no printed column is named like a constraint
  (`DdlCatalog.ReadsBackExactlyPlain`); the table `dbo.a$b` is found as `a` only
  (`DdlCatalog.DollarIsCut`).

## Model

| member | source | states |
|---|---|---|
| DiffFilter.SplitFileBlocks | server/review/diff_filter.py:82-97 | the loop over file headers yields the blocks that the line-wise grouping of the diff defines, a preamble without a path included |
| DiffFilter.ChangedLines | server/review/diff_filter.py:128-148 | the added lines found by the loop with its running line number are the keys of the text; `+++` and `---` neither count nor advance |
| DiffFilter.HunkLineUnits | server/review/diff_filter.py:180-203 | the units with their old and new coordinates are those of the recursive scan |
| DiffFilter.SplitOversizedBlock | server/review/diff_filter.py:248-289 | the loop that flushes, extends and truncates yields the groups of the splitting function, rendered and owned |
| DiffFilter.FlushHunk | server/review/diff_filter.py:261-268 | one group becomes one piece with its owned lines, and nothing becomes nothing |
| DiffSyntax.HeadersExactly | server/review/diff_filter.py:16-20 | a line is read as a hunk header exactly when it has the form of one, with either count or none and anything behind; the numbers are those in it |
| DiffSyntax.PrintedHeaders | server/review/diff_filter.py:16-20 | all four forms that git prints, with any tail, parse to their numbers |
| DiffSyntax.BlocksExactly | server/review/diff_filter.py:82-97 | the blocks are the text cut in front of each file header |
| DiffSyntax.NumbersExactly | server/review/diff_filter.py:128-148 | an added line is reported under the number of its header plus the number of added and context lines in between |
| DiffSyntax.KeysExactly | server/review/diff_filter.py:128-148 | the lines reported for a text are the added lines in hunks of blocks with a path, in order, each under its number so counted |
| DiffSyntax.UnitsExactly | server/review/diff_filter.py:180-203 | the units are the lines in hunks, in order, with both numbers counted from the header and the counts of their kind |
| DiffPieces.FittedExactly | server/review/diff_filter.py:226-246 | a line alone in its hunk is shown whole when there is room, and otherwise its first characters and the marker, or the sign of it, as the room allows |
| DiffPieces.CutFillsBudget | server/review/diff_filter.py:226-246 | a line cut in a room of more than 34 characters keeps all of it but the marker, and its hunk has exactly the length of the budget |
| DiffPieces.RenderExactly | server/review/diff_filter.py:216-223 | the text of a printed hunk, character by character, with its counts counted |
| DiffPieces.OversizedExactly | server/review/diff_filter.py:206-289 | the pieces of a block that is printed anew: one line about the block, or hunks cut greedily, each contiguous, as long as fits, with lines that do not fit alone cut |
| DiffPieces.ChunksExactly | server/review/diff_filter.py:309-327 | the chunks are the pieces packed greedily: each takes as many of those left as fit |
| DiffPieces.EveryLineIsShown | server/review/diff_filter.py:248-327 | every hunk line of a block that is printed anew is in some chunk, whole or as far as there is room behind a header of its own |
| DiffPieces.BlockIsShown | server/review/diff_filter.py:303-327 | every block that fits the budget is in some chunk as it is |
| DiffPieces.ErrorsExactly | server/review/diff_filter.py:296-354 | when each of the three errors is raised, and what the chunks are when none is |
| DiffChunks.BlockAlone | server/review/diff_filter.py:303-307 | scanning a block on its own finds the added lines the whole diff has in it |
| DiffChunks.PackRecords | server/review/diff_filter.py:309-327 | packing with a running text and a running ownership yields the packed pieces |
| DiffChunks.ChunkRecordsByBudget | server/review/diff_filter.py:296-354 | the whole chunker, with its three errors, computes `ChunkRecords` |
| DiffOwnership.UnitsOwnAddedLines | server/review/diff_filter.py:180-203 | the units own exactly the added lines, in order |
| DiffOwnership.SplitKeepsOwners | server/review/diff_filter.py:270-289 | splitting and truncating neither lose nor repeat an owned line |
| DiffOwnership.PackKeepsKeys | server/review/diff_filter.py:319-327 | packing keeps the sequence of owned lines |
| DiffOwnership.AcceptedExactly | server/review/diff_filter.py:329-354 | without repeated lines the error for two owners never fires, and acceptance is equivalent to keeping all oversized blocks that have added lines |
| DiffOwnership.KeptInNumbers | server/review/diff_filter.py:206-256 | such a block is kept exactly from a budget of 82 on, or when its own header and 32 more fit |
| DiffOwnership.AcceptedPartitions | server/review/diff_filter.py:349-354 | an accepted diff has every added line in exactly one chunk and nothing else owned |
| DiffOwnership.OwnershipIsTotal | server/review/diff_filter.py:248-354 | from a budget of 82 on every diff that names no line twice is accepted and partitioned |
| DiffOwnership.WellFormedNamesOnce | server/review/diff_filter.py:128-148 | distinct paths and ascending hunks name no added line twice |
| DiffOwnership.WellFormedIsAccepted | server/review/diff_filter.py:336-353 | neither ownership error can fire for a well-formed diff and a budget of at least 82 |
| DiffOwnership.FitWithin | server/review/diff_filter.py:226-246 | a line that is truncated fits exactly when its prefix and hunk header do |
| DiffLimits.BudgetIsKeptExactly | server/review/diff_filter.py:216-289 | no chunk is longer than the budget exactly when prefix, 24 and the digits of both line numbers fit for each line of a block that is printed anew |
| DiffLimits.LostAt81 | server/review/diff_filter.py:206-256 | for every path of 17 characters or more, a diff whose added line is lost at a budget of 81 |
| DiffLimits.TooLongAt82 | server/review/diff_filter.py:226-256 | the same diff is accepted at 82, with a chunk of more than 82 characters |
| DiffOwnership.ChunksConcatenate | server/review/diff_filter.py:303-327 | without oversized blocks the chunk texts concatenate to the diff |
| DiffRoundTrip.HunkRoundTrip | server/review/diff_filter.py:216-223 | the printed hunk header parses back to the numbers it was printed from |
| DiffRoundTrip.ShortenedLine | server/review/diff_filter.py:226-246 | truncating keeps the kind of a line: added, removed or context |
| DiffRoundTrip.SplitIsGood | server/review/diff_filter.py:270-289 | every group is contiguous, and one without a final newline fills the budget |
| DiffRoundTrip.PieceReadsBack | server/review/diff_filter.py:128-148 | scanning a printed continuation hunk finds the lines of its units |
| DiffRoundTrip.ReadsBackExactly | server/review/diff_filter.py:206-223 | a printed piece reads back as owned exactly when its path survives in the prefix or it owns nothing |
| DiffRoundTrip.ChunksReadBack | server/review/diff_filter.py:296-354 | for every chunk, the added lines found in its text are the lines it owns |
| DiffRoundTrip.PlainHeaderDecodes | server/review/diff_filter.py:71-79 | a plain path in a header decodes to itself |
| DiffRoundTrip.PlainChunksReadBack | server/review/diff_filter.py:296-354 | plain paths that stay in the prefix and room for one line suffice for reading back |
| FindingPolicy.NormalizeTwice | server/review/finding_policy.py:15-23 | normalizing a path is idempotent |
| FindingScope.SegmentsExactly | server/review/finding_policy.py:15-23 | a path is cut in exactly one way into pieces without slashes |
| FindingScope.NormalizeExactly | server/review/finding_policy.py:15-23 | a path has no normal form exactly when it is empty or absolute, has a zero, goes up, or has no piece that counts; the normal form is made of the pieces that are neither empty nor `.`, in order |
| FindingPolicy.ApplyFindingScope | server/review/finding_policy.py:26-62 | the loop over findings keeps and marks what the scope function does |
| FindingPolicy.ScopeKeeps | server/review/finding_policy.py:35-62 | what is kept is in scope, and enforcing keeps exactly the findings on lines some chunk owns |
| FindingScope.ScopeExactly | server/review/finding_policy.py:35-62 | in order, all findings are kept, or when enforced those on owned lines, each under its normal path, with the owner of its line, whether that is where it came from, and postable exactly when there is one |
| Dedupe.GroupDuplicateCandidates | server/review/finding_policy.py:84-106 | the loop over keys computes the batch grouping |
| Dedupe.GroupRetryDuplicates | server/pipeline.py:1234-1281 | the loop over the keys of a retry computes the regrouping of stored and new findings |
| DedupeEquivalence.BatchIsGrouped | server/review/finding_policy.py:84-106 | after the batch, findings share a group exactly when they share a key, groups have two members at least, and enforcing leaves only the first postable |
| DedupeFields.BatchExactly | server/review/finding_policy.py:70-106 | two findings are in one group exactly when vendor, normal path, line, category and canonical claim agree, one without such a partner is in none, and enforcing takes out those with a partner before them |
| DedupeFields.HistoryExactly | server/pipeline.py:1234-1281 | the same for all findings of a first review and any number of retries |
| DedupeFields.RetriesExactly | server/pipeline.py:1234-1281 | the same for any number of retries on any grouped findings |
| DedupeEquivalence.RetryKeepsGrouped | server/pipeline.py:1234-1281 | a retry on grouped rows leaves rows that are grouped together with the new ones |
| DedupeHistory.GroupingIsUnique | server/pipeline.py:1257-1267 | the same findings can be grouped in one way only, up to the numbers of groups |
| DedupeHistory.IncrementalIsBatch | server/pipeline.py:1234-1281 | any number of retries on grouped rows gives what one batch over all rows gives, up to the numbers of groups |
| DedupeHistory.HistoryIsBatch | server/pipeline.py:1577-1599 | the same from an ungrouped first review on |
| DedupeHistory.MergedHistoryIsBatch | server/pipeline.py:416-453 | the same when the first review is stored in the order of the display merge |
| DedupeHistory.EligibleIs | server/review/finding_policy.py:99-106 | grouping makes a finding unpostable exactly when it is enforced and the same key came earlier |
| DedupeHistory.RetryKeepsEligible | server/pipeline.py:1268-1275 | a retry never changes whether a stored finding can be posted |
| DedupeHistory.OnePostableEach | server/review/finding_policy.py:84-106 | when enforced, a key on an owned line has exactly one postable finding, and a key elsewhere none |
| Merge.DeterministicMerge | server/review/merge.py:19-42 | the nested loops compute the greedy groups and their tags |
| Merge.MergeIsPermutation | server/review/merge.py:19-42 | the output is a permutation of the input |
| Merge.GroupsAreClose | server/review/merge.py:23-36 | members are within five lines of their head in its file and category, and no head is that close to an earlier one |
| Merge.TagsAre | server/review/merge.py:37-41 | a finding is tagged consensus exactly when its group has two vendors |
| Merge.MergeIsStable | server/review/merge.py:23-41 | findings at the same file, line and category stay in input order |
| MergeOrder.MergedExactly | server/review/merge.py:19-42 | every finding once, group by group; a group starts with its earliest finding, groups by their first ones, a finding is in the group of the first such head in its file and category at most five lines away, and it is tagged when its group has two vendors |
| ChunkRetry.RunVendor | server/pipeline.py:1113-1231 | one vendor's loop over its chunks yields outcomes, findings of the done chunks and the status they add up to |
| ChunkSelection.RunExactly | server/pipeline.py:1216-1225 | the outcome of each chunk by its answer, and each of the four statuses of the vendor by all answers |
| ChunkRetry.ValidateAttempts | server/review/vendor_telemetry.py:694-704 | the loop with `previous` accepts exactly strictly increasing positive numbers, at most 20 |
| ChunkRetry.NextAttempt | server/repos/review_repo.py:262-274 | the running maximum gives one more than the highest number in use, and one when there is none |
| ChunkRetry.RetryPromptChunks | server/pipeline.py:1399-1426 | the loop over the latest review attempt selects what is not done, or refuses when a chunk changed |
| ChunkSelection.AppendExactly | server/review/vendor_telemetry.py:648-704 | attempts can be added exactly when all numbers are positive and ascend and there are at most twenty |
| ChunkSelection.SelectionExactly | server/pipeline.py:1399-1426 | a vendor can be retried exactly when its review attempt with the highest number has only chunks whose prompts are unchanged; then those not done are selected, in order |
| ChunkSelection.RetryExactly | server/pipeline.py:1429-1602 | a retry of a run is refused exactly when some vendor that is not done is disabled or cannot be retried, then for the order and the number of attempts; otherwise each vendor with chunks left gets one attempt and the others stay |
| ChunkHistory.UnresolvedAreOpen | server/pipeline.py:1409-1426 | what is selected has the index and basis of exactly the chunks not done |
| ChunkHistory.DoneIsNotRunAgain | server/pipeline.py:1399-1426 | a chunk done in any attempt is never selected again |
| ChunkHistory.HistoryOk | server/pipeline.py:1429-1602 | after the first review and any retries, the latest attempt leaves over exactly the chunks no attempt has done |
| ChunkHistory.ChunksDoneOnce | server/pipeline.py:1113-1231 | a chunk is done at most once, its stored findings come from that one attempt, and the status is done exactly when all chunks are |
| ChunkAnswers.StoredIsAnswered | server/pipeline.py:1113-1231 | of a resolved chunk exactly the findings of the answer that resolved it are stored, each once, in order and under the number of its attempt, and of any other chunk nothing |
| ChunkHistory.NeverOutOfOrder | server/review/vendor_telemetry.py:648-664 | with the next number, storing an attempt is never refused for its order |
| JobDb.ReviewDb.EnqueueWithResult | server/repos/job_repo.py:21-53 | the rows after an automatic enqueue and whether it changed anything |
| JobDb.ReviewDb.EnqueueForcibly | server/repos/job_repo.py:67-134 | the rows after a manual or retry enqueue and whether it conflicts |
| JobDb.ReviewDb.ClaimNext | server/repos/job_repo.py:176-206 | the scan claims the first ready job |
| JobDb.ReviewDb.MarkJobDone | server/repos/job_repo.py:228-241 | done only by the owner |
| JobDb.ReviewDb.MarkJobCanceled | server/repos/job_repo.py:244-258 | canceled only by the owner |
| JobDb.ReviewDb.MarkJobFailed | server/repos/job_repo.py:335-376 | back off or fail, only by the owner |
| JobDb.ReviewDb.CancelStaleAndEnqueueLatest | server/repos/job_repo.py:261-316 | the rows after replacing a stale job |
| JobDb.ReviewDb.CancelReview | server/repos/job_repo.py:319-332 | afterwards no job of the pull request waits, and what changed was waiting there and is not revived by the program |
| JobDb.ReviewDb.RegisterProcess | server/repos/process_repo.py:8-16 | a new process gets a live lease, and all others keep theirs as they were |
| JobDb.ReviewDb.Beat | server/repos/process_repo.py:19-27 | only a live lease is extended |
| JobDb.ReviewDb.Recover | server/repos/process_repo.py:35-84 | what is left running or in progress has an owner with a live lease, and exactly the live leases remain |
| JobDb.ReviewDb.CommitRun | server/pipeline.py:421-456 | the lease, then the head, then all rows of a first review |
| JobDb.ReviewDb.UpsertPr | server/repos/pr_repo.py:4-69 | head and state are updated, the reviewed head and all other pull requests stay |
| JobDb.ReviewDb.PollRepo | server/poller.py:49-109 | the loop of one poll upserts, enqueues what needs a review and closes what is gone from a complete list |
| QueueRows.FirstIsFirst | server/repos/job_repo.py:187-192 | the claimed job is ready, and no ready job has a higher priority or the same and a smaller id |
| QueueRows.PollEnqueues | server/poller.py:69-103 | a poll touches no job but those it inserts or revives |
| QueueEffects.PollExactly | server/poller.py:69-103 | after a poll every listed pull request that is to be reviewed, whose head is not the one reviewed last, has a job for its head that the program has not canceled, and every job that is new or starts over is for one of these |
| QueueEffects.PollPrs | server/poller.py:69-103 | the listed pull requests are as listed and keep what was reviewed; of the others those known to be open are closed, unless the list may be cut off |
| QueueEffects.WebhookExactly | server/repos/pr_repo.py:85-87 | the same for the one pull request of a webhook call, which closes nothing |
| QueueEffects.EnqueueExactly | server/repos/job_repo.py:21-53 | an automatic enqueue inserts a job, revives one the program canceled, or leaves the one there is |
| QueueEffects.RequestExactly | server/repos/job_repo.py:67-134 | what a person asking for a review or a retry gets, by the job there is for the head |
| QueueEffects.ClaimExactly | server/repos/job_repo.py:196-206 | a claimed job is running, owned and has one attempt more |
| QueueEffects.EndsExactly | server/repos/job_repo.py:228-258 | done and canceled by the owner alone, and what the row then says |
| QueueEffects.FailureExactly | server/repos/job_repo.py:335-376 | a failure that may be retried puts the job back after two and four minutes, and the third one fails it; by the owner alone |
| QueueEffects.ReplaceExactly | server/repos/job_repo.py:261-316 | a job whose head has moved is canceled if held, and the current head gets a new, a revived or the existing job |
| QueueEffects.LeasesExactly | server/repos/process_repo.py:8-32 | a lease lasts sixty seconds from registration and from each beat while it is live |
| QueueEffects.RecoveryExactly | server/repos/process_repo.py:35-84 | exactly the running jobs and the runs in progress of processes without a live lease are given back, and their leases are gone |
| QueueEffects.CommitExactly | server/pipeline.py:421-456 | a first review is stored with its run and head, dropped, or left alone, by the lease and then the head |
| QueueEffects.RunsExactly | server/worker.py:130-145 | a new run belongs to its process and job, and the time limit breaks the runs in progress of the job |
| WorkerEffects.RunFate | server/pipeline.py:415-478 | which step of anybody starts a run, drops it, completes it or breaks it; every other run stays |
| WorkerEffects.ReviewedFate | server/repos/pr_repo.py:76-82 | a head counts as reviewed through the commit of its run or a run with nothing to review, and in no other way |
| WorkerEffects.JobFate | server/repos/job_repo.py:176-376 | what every step that neither enqueues nor recovers makes of each job |
| WorkerEffects.SessionFate | server/worker.py:45-172 | where each step leads its worker, from claiming a job to reporting on it |
| WorkerEffects.NewSession | server/worker.py:45-53 | a claim starts work on the first ready job, as the job was then, and nothing else starts work |
| QueueRows.ReplaceMoves | server/repos/job_repo.py:261-316 | replacing a stale job keeps the table consistent and frees only the job it holds |
| QueueRows.RecoverMoves | server/repos/process_repo.py:45-50 | recovery frees exactly the jobs of owners without a live lease |
| QueueTheorems.StepKeeps | server/worker.py:45-172 | every step of workers, processes, polls and people keeps the invariant between rows and workers |
| QueueTheorems.StepLeases | server/repos/process_repo.py:8-32 | no step gives a dead process a live lease |
| QueueTheorems.ExpiredForGood | server/repos/process_repo.py:19-27 | an expired or released lease is never live again |
| QueueTheorems.StepFenced | server/pipeline.py:421-478 | findings are inserted and runs marked reviewed only by a process with a live lease |
| QueueGuarantees.FencedForGood | server/pipeline.py:467-478 | a process without a live lease inserts and marks nothing from then on |
| QueueGuarantees.FencedAfterRecovery | server/repos/process_repo.py:35-84 | once a job was recovered from a process, that process commits nothing more |
| QueueGuarantees.MutualExclusion | server/repos/job_repo.py:176-258 | at most one worker with a live lease is at work on a job, and the job is running and its own |
| QueueGuarantees.HeadConsistency | server/pipeline.py:426-455 | findings were inserted only while the pull request was at the head of their run; a reviewed head has a run that ended on it |
| QueueGuarantees.ReviewedRunsAreLogged | server/pipeline.py:450-456 | a reviewed run passed the commit barrier |
| QueueGuarantees.OneJobPerHead | server/db.py:178-194 | there is never more than one job for a head of a pull request |
| QueueGuarantees.ReplacementLeavesJob | server/repos/job_repo.py:288-313 | after a stale job the current head has a job, and not one the program canceled |
| QueueGuarantees.RetryBudget | server/repos/job_repo.py:355-372 | failures requeue at most twice; claims exceed three only by the number of recoveries |
| QueueGuarantees.LeftDecreases | server/repos/job_repo.py:196-206 | without recovery and restart each change of status uses up what is left of a job |
| QueueGuarantees.ChangesBounded | server/repos/job_repo.py:335-376 | so a job left alone changes its status at most seven times |
| QueueProgress.ActsBounded | server/worker.py:45-172 | whatever the schedule, a worker has at most five steps to take on a claimed job |
| QueueProgress.EndingGivesBack | server/worker.py:112-172 | a worker that is through has ended its job or queued it again, unless it crashed or its process lost its lease |
| QueueProgress.HeldIsGivenBack | server/worker.py:137-172 | from any point a worker can end its job or queue it again in at most two steps |
| QueueProgress.ClaimedInTurn | server/repos/job_repo.py:186-206 | a ready job is claimed by exactly the claim that follows those of the ready jobs before it |
| QueueProgress.WorkEnds | server/repos/job_repo.py:335-376 | however its attempts fail, a job that waits or is held comes to its end by the work of one process, without recovery, restart or cancellation |
| QueueProgress.CrashAbandons | server/worker.py:45-172 | a crash alone leaves the job running with nobody at work on it |
| QueueProgress.AbandonedForGood | server/repos/process_repo.py:35-50 | such a job stays as it is in every run without a recovery |
| QueueProgress.EndsUnlessAbandoned | server/repos/process_repo.py:35-50 | in every state a job can come to its end without a recovery exactly when it is not abandoned |
| QueueProgress.RecoveryReleases | server/repos/process_repo.py:45-50 | a recovery queues a running job again exactly when its owner has no live lease, and keeps its attempts |
| QueueGuarantees.CanceledByUserSticks | server/repos/job_repo.py:319-332 | no step but a person asking for that head changes a job a person canceled |
| QueueGuarantees.CanceledByUserStaysCanceled | server/repos/job_repo.py:3-18 | the same over whole runs |
| QueueGuarantees.SystemCancelRevives | server/repos/job_repo.py:43-53 | the next automatic enqueue of its head queues a job the program canceled, with a fresh budget |
| QueueGuarantees.EnqueueIsIdempotent | server/repos/job_repo.py:29-35 | an automatic enqueue of any other existing job changes nothing |
| Posting.PostDb.PrepareOp | server/repos/post_operation_repo.py:37-80 | an existing operation is found, or all findings are reserved, or nothing changes |
| Posting.PostDb.ClaimOp | server/repos/post_operation_repo.py:102-111 | pending operations and those held for 20 minutes can be claimed |
| Posting.PostDb.AbortUnappliedOp | server/repos/post_operation_repo.py:114-128 | the owner gives an operation up and frees its findings |
| Posting.PostDb.MarkRemoteOp | server/repos/post_operation_repo.py:131-142 | the owner records the review |
| Posting.PostDb.MarkErrorOp | server/repos/post_operation_repo.py:145-150 | an error leaves the operation being applied |
| Posting.PostDb.FinalizeOp | server/repos/post_operation_repo.py:153-167 | all findings are posted, or nothing changes |
| Posting.PostDb.PatchFinding | server/api.py:1134-1173 | a reserved finding cannot be changed |
| PostingRows.ReserveExactly | server/repos/post_operation_repo.py:69-77 | reserving succeeds exactly when every finding is free and none is listed twice |
| PostingRows.PostExactly | server/repos/post_operation_repo.py:156-161 | finalising succeeds exactly when every listed finding is still reserved and postable |
| PostingRows.PrepareKeeps | server/repos/post_operation_repo.py:37-80 | preparing keeps reservations exact and unfinished operations one per vendor |
| PostingRows.AbortKeeps | server/repos/post_operation_repo.py:114-128 | aborting keeps them |
| PostingRows.FinalizeKeeps | server/repos/post_operation_repo.py:153-167 | finalising an applied operation succeeds and keeps them |
| PostingRows.PatchKeeps | server/api.py:1139-1141 | an edit keeps them |
| PostingRequest.CommentOk | server/api.py:1454-1487 | the comment of a vendor lists all its postable findings, so whatever an unfinished operation of the vendor reserves is in it |
| PostingEffects.CommentsExactly | server/api.py:1454-1487 | one comment for each vendor with something to post, with all of that in display order, in the order of their first findings |
| PostingEffects.PrepareExactly | server/repos/post_operation_repo.py:37-80 | preparing finds the operation of this identity, or makes one when all its findings are free and differ, or changes nothing |
| PostingEffects.ClaimExactly | server/repos/post_operation_repo.py:102-111 | an operation can be claimed exactly when it was not started or not heard of for twenty minutes |
| PostingEffects.OwnerExactly | server/repos/post_operation_repo.py:131-150 | recording the review and noting an error, by the owner alone, and what the row then says |
| PostingEffects.AbortExactly | server/repos/post_operation_repo.py:114-128 | giving up what was not applied, by the owner alone: the operation is gone and its findings are free |
| PostingEffects.PatchExactly | server/api.py:1134-1173 | which changes of status by a person go through, and what they change |
| PostingFates.OpFate | server/api.py:1761-1905 | what every step of anybody makes of each operation |
| PostingFates.NewOp | server/repos/post_operation_repo.py:37-80 | a request makes an operation for its head, policy and next comment exactly when the run is the latest, there is none yet and all findings are free |
| PostingFates.SendExactly | server/api.py:1823-1855 | the call updates the review that was on record when the operation was prepared, or creates one |
| PostingFates.LandExactly | server/api.py:1826-1855 | a call that arrives writes its marker once, to a new review or to the one it updates if that is there |
| PostingFates.RequestFate | server/api.py:1761-1905 | where every step leads a request that holds an operation |
| PostingRecords.FinishExactly | server/api.py:1879-1900 | the last transaction always goes through: the operation is finished, its findings are posted, the row found before is superseded and one with the review is added, and nothing else changes |
| PostingRecords.RecordedIsLatest | server/api.py:1881-1895 | after it the review is the latest of its vendor on record |
| PostingRecords.LatestStaysOver | server/api.py:1775-1780 | it stays so over every run in which nobody else records anything and no other post of the vendor is finished |
| PostingRecords.LatestExactly | server/api.py:1775-1777 | the row a request finds is the last one of the vendor that is not superseded |
| PostingRecords.PostIsUpdated | server/api.py:1775-1855 | after a post, whatever happens until a request goes on to the vendor again, that request sends its call to the review on record, unless others recorded something or the review was gone |
| PostingSteps.OverwrittenIsSettled | server/api.py:1796-1806 | a call overwrites only reviews whose operation is already recorded |
| PostingTheorems.StepKeeps | server/api.py:1699-1905 | every step of requests, GitHub and other people keeps the invariant |
| PostingTheorems.WrittenOnceUnlessTaken | server/api.py:1690-1905 | a marker is written as often as others took it from its open operation or once more, and at least once when applied; while its operation is open the count is exact |
| PostingTheorems.SettledForGood | server/repos/post_operation_repo.py:102-142 | once its operation has been applied a marker is never written again |
| PostingTheorems.AtMostOnce | server/api.py:1679-1696 | without others touching reviews no interleaving writes a marker twice |
| PostingTheorems.ReservationsConserved | server/repos/post_operation_repo.py:69-77 | a finding is reserved exactly by the unfinished operation listing it and stays postable; unfinished operations are one per vendor |
| PostingProgress.FinishesExactly | server/api.py:1761-1905 | left alone, a request finishes the open operation of its next vendor exactly when its run is the latest, its comment is the one the operation was made for, and the operation is applied or can be claimed |
| PostingProgress.RefusedForGood | server/repos/post_operation_repo.py:69-77 | a request turned away from an operation does not finish it, whatever it does |
| PostingTheorems.FinalizeNeverConflicts | server/api.py:1879-1900 | the last transaction of a post never finds a reservation gone |
| PostingTheorems.SucceededForGood | server/repos/post_operation_repo.py:102-111 | a finished operation is never opened, changed or finalised again |
| PostingTheorems.PostedOnlyWhenWritten | server/api.py:1847-1850 | a posted finding belongs to a finished operation whose marker was written |
| PostingRace.WrittenTwice | server/api.py:1685-1696 | a marker written twice, although its run is the latest throughout and no person touches a review |
| FindingSummary.SummaryDb.InsertFinding | server/db.py:465-486 | the tables after the insert trigger |
| FindingSummary.SummaryDb.DeleteFinding | server/db.py:487-504 | the tables after the delete trigger |
| FindingSummary.SummaryDb.UpdateFinding | server/db.py:505-540 | the tables after the update trigger |
| FindingSummary.ClampsIdle | server/db.py:495-502 | the clamps at zero never take effect |
| FindingSummary.SummaryIsRecount | server/db.py:461-540 | after any statements the summary of a run is what counting its rows gives |
| SummaryCounts.SummaryExactly | server/db.py:461-540 | after any statements the summary of a run has the number of its findings of each status, of those that can be posted, and the last one |
| SummaryCounts.RowsExactly | server/db.py:448-540 | what each statement makes of the findings, and that a backfill leaves the summaries there are alone |
| FindingSummary.FirstBackfillAgrees | server/db.py:448-460 | the backfill of old findings agrees with a recount |
| FindingSummary.StatusesAddUp | server/api.py:875-889 | the counts by status add up to the total, so that the paged list never refuses them |
| Paging.PositionIsSortKey | server/repos/page_repo.py:149-153 | the recorded position equals the generated sort columns, nulls included |
| Paging.RestOfSnapshot | server/repos/page_repo.py:156-173 | the rows after position n of the sorted snapshot are its rest |
| Paging.PageKeys | server/api.py:890-908 | what one page returns and which cursor it hands out |
| Paging.WalkIsExact | server/api.py:848-908 | following the cursors yields the sorted snapshot once and ends |
| PagingRows.OrderExactly | server/db.py:84-92 | the generated columns sort by severity, agreement, confidence, file and age, whichever of them are null |
| PagingRows.WalkInOrder | server/api.py:848-908 | following the cursors shows rows of the table in this order, every id of the snapshot exactly once |
| Paging.MovesAreSteady | server/repos/page_repo.py:159-160 | rows beyond the snapshot and edits of columns that are not sorted by do not disturb the walk |
| Ddl.PrintSchema | server/context/live_mssql_source.py:71-105 | one pass over the rows prints the schema |
| Ddl.ParseTablesLoop | server/context/db_schema_source.py:40-61 | the loop over lines finds the definitions |
| Ddl.FindEnd | server/context/db_schema_source.py:55-57 | the first line that ends a definition, or the last line |
| Ddl.BuildDatabaseCatalog | server/wiki.py:189-196 | the loop over tables builds the catalog |
| DdlForms.TypeExactly | server/context/live_mssql_source.py:55-68 | which types are printed with a length or a precision, and when |
| DdlForms.HeaderExactly | server/context/db_schema_source.py:11-15 | a line is the header of a definition of this name exactly when it has the form of one: keywords in any case, the condition if a name follows it, and a name of one or two parts, each a whole word with a quote on either side if there is one |
| DdlForms.EndExactly | server/context/db_schema_source.py:19-27 | a line ends a definition exactly when it starts with a closing parenthesis or its text in front of a comment ends with a semicolon |
| DdlItems.SplitJoins | server/wiki.py:85-135 | nothing is lost in splitting: the items with commas between them are the text |
| DdlItems.CommaCuts | server/wiki.py:130-132 | a comma outside of everything cuts |
| DdlItems.QuotedPasses | server/wiki.py:104-128 | what is quoted or in brackets is passed over, at any depth |
| DdlItems.DoubledPasses | server/wiki.py:106-113 | a doubled quote does not end what is quoted |
| DdlItems.LineCommentPasses | server/wiki.py:94-117 | a comment to the end of the line is passed over |
| DdlItems.BlockCommentPasses | server/wiki.py:98-121 | a block comment is passed over |
| DdlItems.ParensPass | server/wiki.py:122-130 | what is in parentheses is passed over, at any depth |
| DdlItems.CommentsSkipped | server/wiki.py:138-153 | comments in front of an item are skipped |
| DdlItems.NothingSkipped | server/wiki.py:138-153 | and nothing else but white space is |
| DdlItems.QuotedColumn | server/wiki.py:169-181 | an item that starts with a quoted name is a column of this name, unless it is a word that starts a constraint |
| DdlItems.PlainColumn | server/wiki.py:169-181 | the same for a plain name, which is as long as it can be |
| DdlItems.NoColumn | server/wiki.py:174-178 | no other item is a column |
| DdlItems.StatementExactly | server/wiki.py:169-181 | the columns are those of the items between the first opening and the last closing parenthesis |
| DdlItems.NoStatement | server/wiki.py:169-172 | there are none when no closing parenthesis follows an opening one |
| DdlItems.NormalExactly | server/wiki.py:58-66 | outside white space and one pair of quotes or brackets are left off |
| DdlItems.QuotesOff | server/context/db_schema_source.py:53 | quotes, brackets and spaces on either side of a table name are left off |
| DdlItems.KeysExactly | server/wiki.py:156-166 | a table is kept under its name, and under its schema as well when the header names one and the same table |
| DdlParts.HeaderIs | server/context/db_schema_source.py:11-15 | the qualified name read from a printed header, cut at the first `$` |
| DdlParts.KeysAre | server/wiki.py:156-166 | the catalog keys of a printed definition |
| DdlRoundTrip.SplitColumn | server/wiki.py:85-135 | splitting passes over a printed column as a whole, commas in its type included |
| DdlRoundTrip.StatementIs | server/wiki.py:169-181 | the columns read from a printed definition are the printed ones, those named like a constraint left out |
| DdlCatalog.ParsesDefinition | server/context/db_schema_source.py:40-61 | a printed definition is read as one table and reading goes on behind it |
| DdlCatalog.SchemaReadsBack | server/wiki.py:189-196 | for all rows, a key and a column are in the catalog exactly when some printed row is read under them |
| DdlCatalog.KeysAreIntended | server/wiki.py:156-166 | a table has its intended keys exactly when neither name has a `$` |
| DdlCatalog.ReadsBackExactlyPlain | server/wiki.py:156-196 | a schema is read back as it was meant exactly when all its printed names are plain |
| DdlCatalog.DollarIsCut | server/context/db_schema_source.py:11-15 | the table `dbo.a$b` is missing under its names and found as `a` |
| DdlCatalog.PlainSchemaReadsBack | server/context/live_mssql_source.py:71-105 | for plain names the catalog has exactly the printed columns under the qualified name and the union under the bare one |
| Wilson.BoundRange | scripts/review_benchmark_common.py:66-75 | for every positive quantile, the one in use among them, the bound lies between zero and the rate |
| Wilson.ThresholdDecides | scripts/review_benchmark_common.py:66-75 | the bound reaches a threshold exactly when the threshold is below one, the rate reaches it and is far enough above it |
| Wilson.PerfectIsBelowOne | scripts/review_benchmark_common.py:71-75 | a perfect sample of any size stays below one |
| Wilson.OneMoreSuccess | scripts/review_benchmark_common.py:86-88 | one more success keeps a reached threshold reached |
| Wilson.RequiredDenominator | scripts/review_benchmark_common.py:78-89 | below its cap the search finds the least number of successes that passes |
| Wilson.ShortfallIsLeast | scripts/review_benchmark_common.py:86-88 | every larger number passes as well |
| Wilson.OneIsNeverReached | scripts/review_benchmark_common.py:84-89 | no number of successes makes up for a threshold of one |
| Wilson.BernoulliMetric | scripts/review_benchmark_common.py:92-105 | passing implies that nothing is missing, nothing is missing exactly when the sample is large enough and the bound reaches its threshold, and below the cap what is missing is the least number of successes that gives both |

## Left out

- Quoted and octal-escaped paths in diff headers: the decoder is a parameter, and plain paths are shown to decode.
- The hash of a chunk, which nothing here depends on, and `commentable_lines`, `filter_reviewable` and `_is_noise`, which are one-branch filters.
- The ownership dictionary of a chunk is the set of its pairs of path and line; paths without lines, which the program drops, do not appear.
- The counters per chunk that scope and duplicate policies increment for telemetry.
- Hashes, nonces and the execution identity of a retried chunk are one value, its basis; when it differs a new run is required, as in the program.
- Verification attempts are arbitrary, and only after the first review, as in the program.
- `recover_stale`, `recover_stale_running` and jobs or runs without an owner, which the workers started by the server do not use.
- The Wiki queue, a smaller copy of the job protocol, retention and deletion of repositories.
- JobQueue.Enqueue: the insert and the revival are one transaction here.
- Posting has the rows of one run; other runs appear through what they do to reviews and posted rows. Edited texts, the rehearsal policy beyond its abort of an operation and Slack are not modelled, nor are the health check, the scan for duplicates on GitHub and the head that GitHub reports, which only ever refuse a post.
- A request that has crashed does not go on in another thread: the lock of a run is held by one request at a time.
- Text outside ASCII: case folding, word characters and white space beyond ASCII.
- Floating point in the Wilson functions, which are over the reals, for any positive quantile (`Wilson.Z` is the one in use).
- Deleting rows while a list is paged, and cursors as signed text.
- Credentials, processes, worktrees, HTTP, the web interface, prompts and the parsing of model output.
