// The review-job queue: jobs, runs, pull requests and process leases, and the
// transactions on them. Pull requests are those of one repository; a process
// that is given a lease has an id never used before.
module JobQueue {
  import opened Text

  datatype Trigger = Auto | Manual | Retry

  datatype JobStatus = Queued | Running | Done | Failed | Canceled

  // What the error column of a job says.
  datatype Cause = Nothing | ClosedPr | DisabledRepo | NoVendor | StaleHead | ByUser | LeaseExpired | Broken

  datatype Job = Job(
    pr: nat, head: string, trigger: Trigger, status: JobStatus, priority: int, attempts: nat,
    owner: Option<nat>, nextRun: nat, run: Option<nat>, retryRun: Option<nat>, error: Cause)

  datatype RunStatus = InProgress | Reviewed | Broke | Dropped

  datatype Run = Run(pr: nat, head: string, status: RunStatus, owner: nat, job: nat)

  datatype Pr = Pr(head: string, open: bool, lastReviewed: Option<string>)

  type Jobs = map<nat, Job>

  datatype Rows = Rows(
    jobs: Jobs, runs: map<nat, Run>, prs: map<nat, Pr>, leases: map<nat, nat>,
    now: nat, nextJob: nat, nextRun: nat, nextProcess: nat)

  datatype Error = LeaseLost | Conflict

  const MAX_ATTEMPTS: nat := 3

  // Seconds.
  const LEASE_TTL: nat := 60

  const MINUTE: nat := 60

  // Cancellations by the program itself, which an automatic enqueue undoes.
  predicate IsSystemCancel(cause: Cause) {
    cause == ClosedPr || cause == DisabledRepo || cause == NoVendor || cause == StaleHead
  }

  predicate Live(leases: map<nat, nat>, now: nat, p: nat) {
    p in leases && now < leases[p]
  }

  // ------------------------------------------------------------------- look-ups

  predicate IsFor(jobs: Jobs, j: nat, pr: nat, head: string) {
    j in jobs && jobs[j].pr == pr && jobs[j].head == head
  }

  function LookUp(jobs: Jobs, n: nat, pr: nat, head: string): Option<nat> {
    if n == 0 then None
    else
      var found := LookUp(jobs, n - 1, pr, head);
      if found.Some? then found else if IsFor(jobs, n - 1, pr, head) then Some(n - 1) else None
  }

  predicate Ready(jobs: Jobs, now: nat, j: nat) {
    j in jobs && jobs[j].status == Queued && jobs[j].nextRun <= now
  }

  predicate Before(jobs: Jobs, i: nat, j: nat)
    requires i in jobs && j in jobs
  {
    jobs[i].priority > jobs[j].priority || (jobs[i].priority == jobs[j].priority && i <= j)
  }

  // The ready job that comes first among those numbered below n.
  function First(jobs: Jobs, now: nat, n: nat): (ready: Option<nat>)
    ensures ready.Some? ==> Ready(jobs, now, ready.value) && ready.value < n
  {
    if n == 0 then None
    else
      var first := First(jobs, now, n - 1);
      if !Ready(jobs, now, n - 1) then first
      else if first.Some? && Before(jobs, first.value, n - 1) then first
      else Some(n - 1)
  }

  // ------------------------------------------------------------------- enqueueing

  function NewJob(pr: nat, head: string, trigger: Trigger, priority: int, retryRun: Option<nat>): Job {
    Job(pr, head, trigger, Queued, priority, 0, None, 0, None, retryRun, Nothing)
  }

  function Insert(db: Rows, job: Job): Rows {
    db.(jobs := db.jobs[db.nextJob := job], nextJob := db.nextJob + 1)
  }

  function Revived(job: Job, trigger: Trigger, retryRun: Option<nat>): Job {
    job.(status := Queued, trigger := trigger, retryRun := retryRun, nextRun := 0, attempts := 0, error := Nothing)
  }

  predicate Revivable(job: Job) {
    job.status == Canceled && IsSystemCancel(job.error)
  }

  // Enqueueing without asking: an existing job is left alone unless the program
  // itself had canceled it. The flag says whether anything was enqueued.
  function Enqueue(db: Rows, pr: nat, head: string, trigger: Trigger, priority: int): (Rows, bool) {
    var found := LookUp(db.jobs, db.nextJob, pr, head);
    if found.None? then (Insert(db, NewJob(pr, head, trigger, priority, None)), true)
    else if found.value in db.jobs && Revivable(db.jobs[found.value]) then
      var job := db.jobs[found.value];
      (db.(jobs := db.jobs[found.value := Revived(job, trigger, job.retryRun)]), true)
    else (db, false)
  }

  predicate Ended(job: Job) {
    job.status == Done || job.status == Failed || job.status == Canceled
  }

  function Upgraded(job: Job, trigger: Trigger): Job {
    if trigger == Manual && job.status == Queued && job.trigger == Auto then job.(trigger := Manual) else job
  }

  predicate Conflicts(job: Job, trigger: Trigger, retryRun: Option<nat>) {
    && (job.status == Queued || job.status == Running)
    && ((trigger == Retry && (job.trigger != Retry || job.retryRun != retryRun))
        || (trigger == Manual && job.trigger != Manual))
  }

  // Enqueueing on request: a finished job starts over.
  function EnqueueOrRevive(db: Rows, pr: nat, head: string, trigger: Trigger, retryRun: Option<nat>): (Rows, bool) {
    var found := LookUp(db.jobs, db.nextJob, pr, head);
    if found.None? then (Insert(db, NewJob(pr, head, trigger, 0, retryRun)), true)
    else if found.value !in db.jobs then (db, false)
    else
      var job := db.jobs[found.value];
      var revived := if Ended(job) then Revived(job, trigger, retryRun) else job;
      var upgraded := Upgraded(revived, trigger);
      (db.(jobs := db.jobs[found.value := upgraded]), !Conflicts(upgraded, trigger, retryRun))
  }

  // -------------------------------------------------------------------- claiming

  function Claim(db: Rows, j: nat, process: nat): Rows
    requires j in db.jobs
  {
    var job := db.jobs[j];
    db.(jobs := db.jobs[j := job.(status := Running, owner := Some(process), attempts := job.attempts + 1)])
  }

  // --------------------------------------------------------------- ending a claim

  predicate Owns(db: Rows, j: nat, process: nat) {
    j in db.jobs && db.jobs[j].owner == Some(process)
  }

  function MarkDone(db: Rows, j: nat, run: nat, process: nat): Result<Rows, Error> {
    if !Owns(db, j, process) then Err(LeaseLost)
    else Ok(db.(jobs := db.jobs[j := db.jobs[j].(status := Done, run := Some(run), owner := None)]))
  }

  function MarkCanceled(db: Rows, j: nat, cause: Cause, process: nat): Result<Rows, Error> {
    if !Owns(db, j, process) then Err(LeaseLost)
    else Ok(db.(jobs := db.jobs[j := db.jobs[j].(status := Canceled, error := cause, owner := None)]))
  }

  function Pow2(n: nat): nat {
    if n == 0 then 1 else 2 * Pow2(n - 1)
  }

  function MarkFailed(db: Rows, j: nat, run: Option<nat>, retry: bool, process: nat): Result<Rows, Error> {
    if !Owns(db, j, process) then Err(LeaseLost)
    else
      var job := db.jobs[j].(error := Broken, owner := None, run := if run.Some? then run else db.jobs[j].run);
      var next :=
        if retry && job.attempts < MAX_ATTEMPTS
        then job.(status := Queued, nextRun := db.now + Pow2(job.attempts) * MINUTE)
        else job.(status := Failed);
      Ok(db.(jobs := db.jobs[j := next]))
  }

  // The head moved: the job is canceled if it is still held, and the current head
  // gets a job, unless it already has one that the program did not cancel.
  function CancelHeld(db: Rows, j: nat, process: nat): Rows {
    if Owns(db, j, process) && (db.jobs[j].status == Queued || db.jobs[j].status == Running)
    then db.(jobs := db.jobs[j := db.jobs[j].(status := Canceled, error := StaleHead, owner := None)])
    else db
  }

  function ReplaceStale(db: Rows, j: nat, process: nat): Rows {
    if j !in db.jobs then db
    else
      var job := db.jobs[j];
      var db1 := CancelHeld(db, j, process);
      if job.pr !in db.prs || db.prs[job.pr].head == "" || db.prs[job.pr].head == job.head then db1
      else EnqueueHead(db1, job.pr, db.prs[job.pr].head, if job.trigger == Auto then Auto else Manual, job.priority)
  }

  function EnqueueHead(db: Rows, pr: nat, head: string, trigger: Trigger, priority: int): Rows {
    var found := LookUp(db.jobs, db.nextJob, pr, head);
    if found.None? then Insert(db, NewJob(pr, head, trigger, priority, None))
    else if found.value in db.jobs && Revivable(db.jobs[found.value]) then
      db.(jobs := db.jobs[found.value := Revived(db.jobs[found.value], trigger, None)])
    else db
  }

  // A person cancels the waiting jobs of a pull request.
  function CancelQueued(db: Rows, pr: nat): Rows {
    db.(jobs := map j <- db.jobs ::
      if db.jobs[j].pr == pr && db.jobs[j].status == Queued then db.jobs[j].(status := Canceled, error := ByUser)
      else db.jobs[j])
  }

  // --------------------------------------------------------------------- leases

  function Register(db: Rows): Rows {
    db.(leases := db.leases[db.nextProcess := db.now + LEASE_TTL], nextProcess := db.nextProcess + 1)
  }

  function Heartbeat(db: Rows, p: nat): Rows {
    if Live(db.leases, db.now, p) then db.(leases := db.leases[p := db.now + LEASE_TTL]) else db
  }

  function Release(db: Rows, p: nat): Rows {
    db.(leases := db.leases - {p})
  }

  function RecoveredJob(db: Rows, job: Job): Job {
    if job.status == Running && job.owner.Some? && !Live(db.leases, db.now, job.owner.value)
    then job.(status := Queued, owner := None, error := LeaseExpired) else job
  }

  function RecoveredRun(db: Rows, run: Run): Run {
    if run.status == InProgress && !Live(db.leases, db.now, run.owner) then run.(status := Broke) else run
  }

  // Whatever processes without a live lease held is given back.
  function RecoverExpired(db: Rows): Rows {
    db.(jobs := map j <- db.jobs :: RecoveredJob(db, db.jobs[j]),
        runs := map r <- db.runs :: RecoveredRun(db, db.runs[r]),
        leases := map p <- db.leases | db.now < db.leases[p] :: db.leases[p])
  }

  // ----------------------------------------------------------------------- runs

  function CreateRun(db: Rows, pr: nat, head: string, owner: nat, job: nat): Rows {
    db.(runs := db.runs[db.nextRun := Run(pr, head, InProgress, owner, job)], nextRun := db.nextRun + 1)
  }

  function FinishRun(db: Rows, r: nat, status: RunStatus): Rows {
    if r in db.runs then db.(runs := db.runs[r := db.runs[r].(status := status)]) else db
  }

  function BreakRunsOf(db: Rows, j: nat): Rows {
    db.(runs := map r <- db.runs ::
      if db.runs[r].job == j && db.runs[r].status == InProgress then db.runs[r].(status := Broke) else db.runs[r])
  }

  function MarkReviewed(db: Rows, pr: nat, head: string): Rows {
    if pr in db.prs then db.(prs := db.prs[pr := db.prs[pr].(lastReviewed := Some(head))]) else db
  }

  predicate AtHead(db: Rows, pr: nat, head: string) {
    pr in db.prs && db.prs[pr].head == head
  }

  datatype Barrier = Lost | Moved | Committed

  // The commit barrier of a first review: the lease, then the head, then
  // everything at once.
  function CommitReview(db: Rows, r: nat, pr: nat, head: string, process: nat): (Rows, Barrier) {
    if !Live(db.leases, db.now, process) then (db, Lost)
    else if !AtHead(db, pr, head) then (FinishRun(db, r, Dropped), Moved)
    else (MarkReviewed(FinishRun(db, r, Reviewed), pr, head), Committed)
  }

  // A retry adds findings to its run and changes nothing else here.
  function CommitRetry(db: Rows, pr: nat, head: string, process: nat): Barrier {
    if !Live(db.leases, db.now, process) then Lost
    else if !AtHead(db, pr, head) then Moved
    else Committed
  }

  // --------------------------------------------------------------- pull requests

  function Upsert(db: Rows, pr: nat, head: string, open: bool): Rows {
    db.(prs := db.prs[pr := if pr in db.prs then db.prs[pr].(head := head, open := open) else Pr(head, open, None)])
  }

  predicate NeedsReview(db: Rows, pr: nat) {
    pr in db.prs && db.prs[pr].lastReviewed != Some(db.prs[pr].head)
  }

  datatype Listed = Listed(pr: nat, head: string, open: bool, draft: bool)

  // One pull request of a poll or a webhook call.
  function SyncOne(db: Rows, item: Listed, auto: bool, skipDraft: bool): Rows {
    var db1 := Upsert(db, item.pr, item.head, item.open);
    if auto && !(skipDraft && item.draft) && NeedsReview(db1, item.pr)
    then Enqueue(db1, item.pr, item.head, Auto, 0).0 else db1
  }

  function SyncAll(db: Rows, items: seq<Listed>, auto: bool, skipDraft: bool): Rows {
    if items == [] then db
    else SyncOne(SyncAll(db, items[..|items| - 1], auto, skipDraft), items[|items| - 1], auto, skipDraft)
  }

  function CloseGone(db: Rows, gone: set<nat>): Rows {
    db.(prs := map pr <- db.prs :: if pr in gone && db.prs[pr].open then db.prs[pr].(open := false) else db.prs[pr])
  }

  // One poll. `known` are the pull requests open before the list was fetched; a
  // list that reaches the limit may be cut off and closes nothing.
  function Poll(db: Rows, items: seq<Listed>, known: set<nat>, limit: nat, auto: bool, skipDraft: bool): Rows {
    var synced := SyncAll(db, items, auto, skipDraft);
    if |items| < limit then CloseGone(synced, known - (set item <- items :: item.pr)) else synced
  }
}
