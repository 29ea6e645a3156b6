// Workers over the job queue: what a claimed job goes through, interleaved with
// other processes, expiring leases, polls, webhook calls and people.
//
// A worker decides on rows it read in an earlier transaction, so a step that
// follows such a decision does not require that it would still be taken.
module WorkerProtocol {
  import opened Text
  import opened JobQueue

  datatype Stage =
    | Claimed
    | Reviewing(run: nat)
    | Retrying(run: nat)
    | Checked(run: nat)       // nothing to review, and the head was current
    | Emptied(run: nat)       // the run has been dropped for that
    | Outdated                // the head has moved
    | Returned(run: nat)
    | Failing(broken: Option<nat>, retry: bool)

  // A worker at work on a job, with what it read when it claimed it.
  datatype Session = Session(
    process: nat, job: nat, pr: nat, head: string, trigger: Trigger, retryRun: Option<nat>, stage: Stage)

  // Findings were inserted for a run while the pull request was at `current`.
  datatype Insertion = Insertion(process: nat, job: nat, run: nat, head: string, current: string)

  // What happened to a job since its attempts were last set to zero.
  datatype Budget = Budget(claims: nat, recoveries: nat, requeues: nat)

  datatype World = World(
    db: Rows, sessions: map<nat, Session>, nextSession: nat, log: seq<Insertion>, budgets: map<nat, Budget>)

  datatype Step =
    | RegisterStep
    | Beat(process: nat)
    | Leave(process: nat)
    | Recover
    | Tick(seconds: nat)
    | ClaimBy(process: nat)
    | Refuse(s: nat, cause: Cause)
    | Outdate(s: nat)
    | StartReview(s: nat)
    | StartRetry(s: nat)
    | SkipRetry(s: nat)
    | FailRetry(s: nat, retry: bool)
    | NoAdapters(s: nat)
    | Check(s: nat)
    | Empty(s: nat)
    | Advance(s: nat)
    | Break(s: nat, retry: bool)
    | TimeOut(s: nat)
    | Commit(s: nat)
    | Replace(s: nat)
    | ReportDone(s: nat)
    | ReportFailed(s: nat)
    | Crash(s: nat)
    | PollStep(items: seq<Listed>, known: set<nat>, limit: nat, auto: bool, skipDraft: bool)
    | Webhook(item: Listed, skipDraft: bool)
    | RequestReview(pr: nat)
    | RequestRetry(pr: nat, run: nat)
    | CancelReview(pr: nat)

  function Start(): World {
    World(Rows(map[], map[], map[], map[], 0, 0, 0, 0), map[], 0, [], map[])
  }

  function At(w: World, s: nat, stage: Stage): World
    requires s in w.sessions
  {
    w.(sessions := w.sessions[s := w.sessions[s].(stage := stage)])
  }

  function End(w: World, s: nat): World {
    w.(sessions := w.sessions - {s})
  }

  predicate In(w: World, s: nat, stage: Stage) {
    s in w.sessions && w.sessions[s].stage == stage
  }

  // ----------------------------------------------------------------- the worker

  function ClaimStep(w: World, process: nat): World {
    var first := First(w.db.jobs, w.db.now, w.db.nextJob);
    if first.None? || process >= w.db.nextProcess then w
    else
      var j := first.value;
      var job := w.db.jobs[j];
      w.(db := Claim(w.db, j, process),
         sessions := w.sessions[w.nextSession :=
           Session(process, j, job.pr, job.head, job.trigger, job.retryRun, Claimed)],
         nextSession := w.nextSession + 1)
  }

  // A closed pull request, a disabled repository or no vendor.
  function RefuseStep(w: World, s: nat, cause: Cause): World {
    if !In(w, s, Claimed) || cause !in {ClosedPr, DisabledRepo, NoVendor} then w
    else
      var r := MarkCanceled(w.db, w.sessions[s].job, cause, w.sessions[s].process);
      End(if r.Ok? then w.(db := r.value) else w, s)
  }

  function OutdateStep(w: World, s: nat): World {
    if !In(w, s, Claimed) then w else At(w, s, Outdated)
  }

  function ReplaceStep(w: World, s: nat): World {
    if !In(w, s, Outdated) then w
    else End(w.(db := ReplaceStale(w.db, w.sessions[s].job, w.sessions[s].process)), s)
  }

  function StartReviewStep(w: World, s: nat): World {
    if !In(w, s, Claimed) || w.sessions[s].trigger == Retry then w
    else
      var x := w.sessions[s];
      At(w.(db := CreateRun(w.db, x.pr, x.head, x.process, x.job)), s, Reviewing(w.db.nextRun))
  }

  predicate Retryable(db: Rows, x: Session) {
    && x.trigger == Retry && x.retryRun.Some? && x.retryRun.value in db.runs
    && db.runs[x.retryRun.value].pr == x.pr && db.runs[x.retryRun.value].head == x.head
    && db.runs[x.retryRun.value].status == Reviewed
  }

  function StartRetryStep(w: World, s: nat): World {
    if !In(w, s, Claimed) || !Retryable(w.db, w.sessions[s]) then w
    else At(w, s, Retrying(w.sessions[s].retryRun.value))
  }

  // Another retry has already resolved everything.
  function SkipRetryStep(w: World, s: nat): World {
    if s !in w.sessions || !w.sessions[s].stage.Retrying? then w
    else At(w, s, Returned(w.sessions[s].stage.run))
  }

  // A retry that is refused before it starts names its run all the same.
  function FailRetryStep(w: World, s: nat, retry: bool): World {
    if !In(w, s, Claimed) || w.sessions[s].trigger != Retry then w
    else At(w, s, Failing(w.sessions[s].retryRun, retry))
  }

  predicate IsReviewing(w: World, s: nat) {
    s in w.sessions && w.sessions[s].stage.Reviewing?
  }

  function NoAdaptersStep(w: World, s: nat): World {
    if !IsReviewing(w, s) then w
    else At(w.(db := FinishRun(w.db, w.sessions[s].stage.run, Dropped)), s, Returned(w.sessions[s].stage.run))
  }

  // Nothing to review: the head is checked, the run dropped and the head taken
  // as reviewed, in three transactions.
  function CheckStep(w: World, s: nat): World {
    if !IsReviewing(w, s) then w
    else
      var x := w.sessions[s];
      if AtHead(w.db, x.pr, x.head) then At(w, s, Checked(x.stage.run))
      else At(w.(db := FinishRun(w.db, x.stage.run, Dropped)), s, Outdated)
  }

  function EmptyStep(w: World, s: nat): World {
    if s !in w.sessions || !w.sessions[s].stage.Checked? then w
    else At(w.(db := FinishRun(w.db, w.sessions[s].stage.run, Dropped)), s, Emptied(w.sessions[s].stage.run))
  }

  function AdvanceStep(w: World, s: nat): World {
    if s !in w.sessions || !w.sessions[s].stage.Emptied? then w
    else
      var x := w.sessions[s];
      At(w.(db := MarkReviewed(w.db, x.pr, x.head)), s, Returned(x.stage.run))
  }

  // Whatever goes wrong, all vendors failing included. A first review marks its
  // run as failed without looking at the lease; a retry leaves the run alone.
  function BreakStep(w: World, s: nat, retry: bool): World {
    if s !in w.sessions then w
    else
      match w.sessions[s].stage
      case Claimed => At(w, s, Failing(None, retry))
      case Retrying(r) => At(w, s, Failing(Some(r), retry))
      case Reviewing(r) => At(w.(db := FinishRun(w.db, r, Broke)), s, Failing(Some(r), retry))
      case Checked(r) => At(w.(db := FinishRun(w.db, r, Broke)), s, Failing(Some(r), retry))
      case Emptied(r) => At(w.(db := FinishRun(w.db, r, Broke)), s, Failing(Some(r), retry))
      case _ => w
  }

  // The time limit breaks all runs of the job, whoever started them.
  function TimeOutStep(w: World, s: nat): World {
    if s !in w.sessions || !(w.sessions[s].stage.Reviewing? || w.sessions[s].stage.Retrying?) then w
    else At(w.(db := BreakRunsOf(w.db, w.sessions[s].job)), s, Failing(None, true))
  }

  function CommitStep(w: World, s: nat): World {
    if s !in w.sessions then w
    else
      var x := w.sessions[s];
      if x.stage.Reviewing? then
        var (db, barrier) := CommitReview(w.db, x.stage.run, x.pr, x.head, x.process);
        match barrier
        case Lost => End(w, s)
        case Moved => At(w.(db := db), s, Outdated)
        case Committed =>
          At(w.(db := db, log := w.log + [Insertion(x.process, x.job, x.stage.run, x.head, w.db.prs[x.pr].head)]),
             s, Returned(x.stage.run))
      else if x.stage.Retrying? then
        match CommitRetry(w.db, x.pr, x.head, x.process)
        case Lost => End(w, s)
        case Moved => At(w, s, Outdated)
        case Committed =>
          At(w.(log := w.log + [Insertion(x.process, x.job, x.stage.run, x.head, w.db.prs[x.pr].head)]),
             s, Returned(x.stage.run))
      else w
  }

  function ReportDoneStep(w: World, s: nat): World {
    if s !in w.sessions || !w.sessions[s].stage.Returned? then w
    else
      var x := w.sessions[s];
      var r := MarkDone(w.db, x.job, x.stage.run, x.process);
      End(if r.Ok? then w.(db := r.value) else w, s)
  }

  function ReportFailedStep(w: World, s: nat): World {
    if s !in w.sessions || !w.sessions[s].stage.Failing? then w
    else
      var x := w.sessions[s];
      var r := MarkFailed(w.db, x.job, x.stage.broken, x.stage.retry, x.process);
      End(if r.Ok? then w.(db := r.value) else w, s)
  }

  // ----------------------------------------------------------------- everybody

  function ReviewRequested(db: Rows, pr: nat): Rows {
    if pr in db.prs && db.prs[pr].open then EnqueueOrRevive(db, pr, db.prs[pr].head, Manual, None).0 else db
  }

  function RetryRequested(db: Rows, pr: nat, run: nat): Rows {
    if pr in db.prs && run in db.runs && db.runs[run].pr == pr && db.runs[run].status == Reviewed
       && db.runs[run].head == db.prs[pr].head
    then EnqueueOrRevive(db, pr, db.prs[pr].head, Retry, Some(run)).0 else db
  }

  predicate OfWorker(step: Step) {
    || step.ClaimBy? || step.Refuse? || step.Outdate? || step.StartReview? || step.StartRetry?
    || step.SkipRetry? || step.FailRetry? || step.NoAdapters?
    || step.Check? || step.Empty? || step.Advance? || step.Break? || step.TimeOut? || step.Commit? || step.Replace?
    || step.ReportDone? || step.ReportFailed? || step.Crash?
  }

  function WorkerAct(w: World, step: Step): World
    requires OfWorker(step)
  {
    match step
    case ClaimBy(p) => ClaimStep(w, p)
    case Refuse(s, cause) => RefuseStep(w, s, cause)
    case Outdate(s) => OutdateStep(w, s)
    case StartReview(s) => StartReviewStep(w, s)
    case StartRetry(s) => StartRetryStep(w, s)
    case SkipRetry(s) => SkipRetryStep(w, s)
    case FailRetry(s, retry) => FailRetryStep(w, s, retry)
    case NoAdapters(s) => NoAdaptersStep(w, s)
    case Check(s) => CheckStep(w, s)
    case Empty(s) => EmptyStep(w, s)
    case Advance(s) => AdvanceStep(w, s)
    case Break(s, retry) => BreakStep(w, s, retry)
    case TimeOut(s) => TimeOutStep(w, s)
    case Commit(s) => CommitStep(w, s)
    case Replace(s) => ReplaceStep(w, s)
    case ReportDone(s) => ReportDoneStep(w, s)
    case ReportFailed(s) => ReportFailedStep(w, s)
    case Crash(s) => End(w, s)
  }

  // Everybody else changes rows only.
  function RowsAfter(db: Rows, step: Step): Rows
    requires !OfWorker(step)
  {
    match step
    case RegisterStep => Register(db)
    case Beat(p) => Heartbeat(db, p)
    case Leave(p) => Release(db, p)
    case Recover => RecoverExpired(db)
    case Tick(seconds) => db.(now := db.now + seconds)
    case PollStep(items, known, limit, auto, skipDraft) => Poll(db, items, known, limit, auto, skipDraft)
    case Webhook(item, skipDraft) => SyncOne(db, item, true, skipDraft)
    case RequestReview(pr) => ReviewRequested(db, pr)
    case RequestRetry(pr, run) => RetryRequested(db, pr, run)
    case CancelReview(pr) => CancelQueued(db, pr)
  }

  function Act(w: World, step: Step): World {
    if OfWorker(step) then WorkerAct(w, step) else w.(db := RowsAfter(w.db, step))
  }

  // ------------------------------------------------------------------- history

  function BudgetAfter(budgets: map<nat, Budget>, before: Jobs, j: nat, after: Job, recovery: bool): Budget {
    if j !in before || j !in budgets then Budget(0, 0, 0)
    else if before[j].status == Queued && after.status == Running then
      budgets[j].(claims := budgets[j].claims + 1)
    else if before[j].status == Running && after.status == Queued then
      if recovery then budgets[j].(recoveries := budgets[j].recoveries + 1)
      else budgets[j].(requeues := budgets[j].requeues + 1)
    else if Ended(before[j]) && after.status == Queued then Budget(0, 0, 0)
    else budgets[j]
  }

  function Track(budgets: map<nat, Budget>, before: Jobs, after: Jobs, recovery: bool): map<nat, Budget> {
    map j <- after :: BudgetAfter(budgets, before, j, after[j], recovery)
  }

  function Next(w: World, step: Step): World {
    var w' := Act(w, step);
    w'.(budgets := Track(w.budgets, w.db.jobs, w'.db.jobs, step.Recover?))
  }

  function RunSteps(w: World, steps: seq<Step>): World
    decreases |steps|
  {
    if steps == [] then w else RunSteps(Next(w, steps[0]), steps[1..])
  }
}
