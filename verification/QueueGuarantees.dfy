// The queue's guarantees over whole runs.
module QueueGuarantees {
  import opened Text
  import opened JobQueue
  import opened QueueRows
  import opened WorkerProtocol
  import opened QueueSafety
  import opened QueueSteps
  import opened QueueWork
  import opened QueueTheorems

  // ------------------------------------------------------------------- fencing

  // A process without a live lease never inserts findings or marks a run as
  // reviewed again, and what is newly reviewed was logged by somebody else.
  lemma {:induction false} FencedForGood(w: World, steps: seq<Step>, p: nat)
    requires p < w.db.nextProcess && !Live(w.db.leases, w.db.now, p)
    ensures var w' := RunSteps(w, steps);
      && |w.log| <= |w'.log| && w'.log[..|w.log|] == w.log
      && (forall i | |w.log| <= i < |w'.log| :: w'.log[i].process != p)
      && (forall r <- w'.db.runs | w'.db.runs[r].status == Reviewed ::
            (r in w.db.runs && w.db.runs[r].status == Reviewed)
            || exists i :: |w.log| <= i < |w'.log| && w'.log[i].run == r)
    decreases |steps|
  {
    hide Next, Live;
    if steps != [] {
      var w1 := Next(w, steps[0]);
      StepLeases(w, steps[0]);
      StepFenced(w, steps[0]);
      FencedForGood(w1, steps[1..], p);
      var w' := RunSteps(w1, steps[1..]);
      forall i | |w.log| <= i < |w'.log| ensures w'.log[i].process != p {
        if i < |w1.log| {
          assert w'.log[i] == w'.log[..|w1.log|][i];
        }
      }
      forall r <- w'.db.runs | w'.db.runs[r].status == Reviewed
        ensures (r in w.db.runs && w.db.runs[r].status == Reviewed)
                || exists i :: |w.log| <= i < |w'.log| && w'.log[i].run == r
      {
        if r in w1.db.runs && w1.db.runs[r].status == Reviewed && |w1.log| > |w.log| {
          assert w'.log[|w.log|] == w'.log[..|w1.log|][|w.log|];
        }
      }
    }
  }

  // Once a job was recovered from a process, that process commits nothing more.
  lemma FencedAfterRecovery(before: seq<Step>, j: nat, p: nat, after: seq<Step>)
    requires Owns(RunSteps(Start(), before).db, j, p)
    requires !Owns(RecoverExpired(RunSteps(Start(), before).db), j, p)
    ensures var w := Next(RunSteps(Start(), before), Recover);
      var w' := RunSteps(w, after);
      && |w.log| <= |w'.log|
      && (forall i | |w.log| <= i < |w'.log| :: w'.log[i].process != p)
  {
    var w0 := RunSteps(Start(), before);
    hide RunSteps, HeadsOk, LogOk, BudgetsOk, SessionsOk, OneRowPerHead, Track;
    Reachable(before);
    StepLeases(w0, Recover);
    assert JobOk(w0.db.jobs[j], w0.db.nextProcess);
    FencedForGood(Next(w0, Recover), after, p);
  }

  // At every moment at most one worker with a live lease is at work on a job, and
  // that job is running and its own.
  lemma MutualExclusion(steps: seq<Step>, s: nat, t: nat)
    requires var w := RunSteps(Start(), steps);
      && s in w.sessions && t in w.sessions && w.sessions[s].job == w.sessions[t].job
      && Live(w.db.leases, w.db.now, w.sessions[s].process) && Live(w.db.leases, w.db.now, w.sessions[t].process)
    ensures s == t
    ensures var w := RunSteps(Start(), steps);
      Owns(w.db, w.sessions[s].job, w.sessions[s].process) && w.db.jobs[w.sessions[s].job].status == Running
  {
    hide RunSteps, HeadsOk, LogOk, BudgetsOk, OneRowPerHead, StageOk, Live;
    Reachable(steps);
    var w := RunSteps(Start(), steps);
    assert SessionOk(w.db, w.sessions[s]) && SessionOk(w.db, w.sessions[t]);
    assert s != t ==> Apart(w.db, w.sessions[s], w.sessions[t]);
    assert JobOk(w.db.jobs[w.sessions[s].job], w.db.nextProcess);
  }

  // --------------------------------------------------------------------- heads

  // Findings were only ever inserted while the pull request was at the head of
  // their run. A head counts as reviewed only when a run on it ended with a
  // review or had nothing to review.
  lemma HeadConsistency(steps: seq<Step>)
    ensures var w := RunSteps(Start(), steps);
      && (forall i | 0 <= i < |w.log| ::
            w.log[i].run in w.db.runs && w.db.runs[w.log[i].run].head == w.log[i].current)
      && (forall pr <- w.db.prs | w.db.prs[pr].lastReviewed.Some? ::
            exists r <- w.db.runs ::
              w.db.runs[r].pr == pr && Some(w.db.runs[r].head) == w.db.prs[pr].lastReviewed
              && (w.db.runs[r].status == Reviewed || w.db.runs[r].status == Dropped))
  {
    hide RunSteps, BudgetsOk, SessionsOk, JobsOk;
    Reachable(steps);
    var w := RunSteps(Start(), steps);
    forall i | 0 <= i < |w.log|
      ensures w.log[i].run in w.db.runs && w.db.runs[w.log[i].run].head == w.log[i].current
    {
      assert InsertionOk(w.db.runs, w.db.nextProcess, w.log[i]);
    }
    forall pr <- w.db.prs | w.db.prs[pr].lastReviewed.Some?
      ensures exists r <- w.db.runs ::
        w.db.runs[r].pr == pr && Some(w.db.runs[r].head) == w.db.prs[pr].lastReviewed
        && (w.db.runs[r].status == Reviewed || w.db.runs[r].status == Dropped)
    {
      var r :| Settled(w.db.runs, w.sessions, r, pr, w.db.prs[pr].lastReviewed.value);
      assert w.db.runs[r].pr == pr;
    }
  }

  // A reviewed run has findings inserted by a process that held a live lease.
  lemma ReviewedRunsAreLogged(steps: seq<Step>, r: nat)
    requires r in RunSteps(Start(), steps).db.runs && RunSteps(Start(), steps).db.runs[r].status == Reviewed
    ensures exists i :: 0 <= i < |RunSteps(Start(), steps).log| && RunSteps(Start(), steps).log[i].run == r
  {
    hide RunSteps, BudgetsOk, SessionsOk, JobsOk, HeadsOk, InsertionOk;
    Reachable(steps);
    assert Logged(RunSteps(Start(), steps).log, r);
  }

  // There is never more than one job for a head of a pull request.
  lemma OneJobPerHead(steps: seq<Step>, i: nat, j: nat)
    requires var jobs := RunSteps(Start(), steps).db.jobs;
      i in jobs && j in jobs && jobs[i].pr == jobs[j].pr && jobs[i].head == jobs[j].head
    ensures i == j
  {
    hide RunSteps, BudgetsOk, SessionsOk, HeadsOk, LogOk;
    Reachable(steps);
    var jobs := RunSteps(Start(), steps).db.jobs;
    assert IsFor(jobs, i, jobs[i].pr, jobs[i].head) && IsFor(jobs, j, jobs[i].pr, jobs[i].head);
  }

  // When the head has moved, replacing the job leaves the current head with a
  // job, and not with one that the program has canceled.
  lemma ReplacementLeavesJob(db: Rows, j: nat, process: nat)
    requires JobsOk(db.jobs, db.nextJob, db.nextProcess) && j in db.jobs && db.jobs[j].pr in db.prs
    requires db.prs[db.jobs[j].pr].head != "" && db.prs[db.jobs[j].pr].head != db.jobs[j].head
    ensures var db' := ReplaceStale(db, j, process);
      exists i :: IsFor(db'.jobs, i, db.jobs[j].pr, db.prs[db.jobs[j].pr].head) && !Revivable(db'.jobs[i])
  {
    hide OneRowPerHead;
    var pr, head := db.jobs[j].pr, db.prs[db.jobs[j].pr].head;
    var db1, db' := CancelHeld(db, j, process), ReplaceStale(db, j, process);
    LookUpExact(db1.jobs, db1.nextJob, pr, head);
    var found := LookUp(db1.jobs, db1.nextJob, pr, head);
    var i := if found.Some? then found.value else db1.nextJob;
    assert IsFor(db'.jobs, i, pr, head) && !Revivable(db'.jobs[i]);
  }

  // ------------------------------------------------------------------ the budget

  // Failures put a job back at most MAX_ATTEMPTS - 1 times, and it is claimed at
  // most MAX_ATTEMPTS times and once more for each time its lease was recovered.
  lemma RetryBudget(steps: seq<Step>, j: nat)
    requires j in RunSteps(Start(), steps).db.jobs
    ensures var w := RunSteps(Start(), steps);
      && j in w.budgets && w.budgets[j].requeues <= MAX_ATTEMPTS - 1
      && w.budgets[j].claims <= MAX_ATTEMPTS + w.budgets[j].recoveries
  {
    hide RunSteps, SessionsOk, HeadsOk, LogOk, JobsOk;
    Reachable(steps);
    assert BudgetOk(RunSteps(Start(), steps).db.jobs[j], RunSteps(Start(), steps).budgets[j]);
  }

  lemma EndLegal(w: World, s: nat, cause: Cause)
    requires JobsOk(w.db.jobs, w.db.nextJob, w.db.nextProcess)
    ensures AllLegal(w.db.jobs, RefuseStep(w, s, cause).db.jobs, false)
    ensures AllLegal(w.db.jobs, ReportDoneStep(w, s).db.jobs, false)
    ensures AllLegal(w.db.jobs, ReportFailedStep(w, s).db.jobs, false)
    ensures AllLegal(w.db.jobs, ReplaceStep(w, s).db.jobs, false)
  {
    hide JobsOk, AllLegal, Kept, ReplaceStale, Pow2;
    SameMoves(w.db, {}, false);
    if s in w.sessions {
      var x := w.sessions[s];
      ReplaceMoves(w.db, x.job, x.process);
      if Owns(w.db, x.job, x.process) {
        CanceledMoves(w.db, x.job, cause, x.process);
        if x.stage.Returned? {
          DoneMoves(w.db, x.job, x.stage.run, x.process);
        }
        if x.stage.Failing? {
          FailedMoves(w.db, x.job, x.stage.broken, x.stage.retry, x.process);
        }
      }
    }
  }

  lemma ClaimLegal(w: World, p: nat)
    requires JobsOk(w.db.jobs, w.db.nextJob, w.db.nextProcess)
    ensures AllLegal(w.db.jobs, ClaimStep(w, p).db.jobs, false)
  {
    hide JobsOk, AllLegal, Kept, First, Claim;
    SameMoves(w.db, {}, false);
    var first := First(w.db.jobs, w.db.now, w.db.nextJob);
    if first.Some? && p < w.db.nextProcess {
      ClaimMoves(w.db, first.value, p);
    }
  }

  // Steps of a worker that leave all jobs alone.
  predicate KeepsJobs(step: Step) {
    || step.Outdate? || step.StartReview? || step.StartRetry? || step.SkipRetry?
    || step.FailRetry? || step.NoAdapters? || step.Check? || step.Empty?
    || step.Advance? || step.Break? || step.TimeOut? || step.Commit? || step.Crash?
  }

  lemma JobsStay(w: World, step: Step)
    requires KeepsJobs(step)
    ensures WorkerAct(w, step).db.jobs == w.db.jobs
  {
    hide OutdateStep, StartReviewStep, StartRetryStep, NoAdaptersStep, CheckStep, EmptyStep, AdvanceStep, BreakStep;
    hide TimeOutStep, CommitStep, SkipRetryStep, FailRetryStep, ClaimStep, RefuseStep, ReplaceStep, ReportDoneStep;
    hide ReportFailedStep, End;
    EndLeavesJobs(w, step.s);
    match step
    case Commit(s) => CommitLeavesJobs(w, s);
    case Break(s, retry) => BreakLeavesJobs(w, s, retry);
    case Outdate(s) => StartLeavesJobs(w, s);
    case StartReview(s) => StartLeavesJobs(w, s);
    case StartRetry(s) => StartLeavesJobs(w, s);
    case TimeOut(s) => StartLeavesJobs(w, s);
    case SkipRetry(s) => RetryLeavesJobs(w, s, false);
    case FailRetry(s, retry) => RetryLeavesJobs(w, s, retry);
    case NoAdapters(s) => RunLeavesJobs(w, s);
    case Check(s) => RunLeavesJobs(w, s);
    case Empty(s) => RunLeavesJobs(w, s);
    case Advance(s) => RunLeavesJobs(w, s);
    case Crash(s) =>
  }

  lemma EndLeavesJobs(w: World, s: nat)
    ensures End(w, s).db.jobs == w.db.jobs
  {
  }

  lemma StartLeavesJobs(w: World, s: nat)
    ensures OutdateStep(w, s).db.jobs == w.db.jobs && StartReviewStep(w, s).db.jobs == w.db.jobs
    ensures StartRetryStep(w, s).db.jobs == w.db.jobs && TimeOutStep(w, s).db.jobs == w.db.jobs
  {
    hide Retryable;
  }

  lemma RetryLeavesJobs(w: World, s: nat, retry: bool)
    ensures SkipRetryStep(w, s).db.jobs == w.db.jobs && FailRetryStep(w, s, retry).db.jobs == w.db.jobs
  {
  }

  lemma RunLeavesJobs(w: World, s: nat)
    ensures NoAdaptersStep(w, s).db.jobs == w.db.jobs && CheckStep(w, s).db.jobs == w.db.jobs
    ensures EmptyStep(w, s).db.jobs == w.db.jobs && AdvanceStep(w, s).db.jobs == w.db.jobs
  {
    hide AtHead;
  }

  lemma BreakLeavesJobs(w: World, s: nat, retry: bool)
    ensures BreakStep(w, s, retry).db.jobs == w.db.jobs
  {
  }

  lemma CommitLeavesJobs(w: World, s: nat)
    ensures CommitStep(w, s).db.jobs == w.db.jobs
  {
    hide AtHead, Live;
  }

  lemma OutsideLegal(db: Rows, step: Step)
    requires !OfWorker(step) && JobsOk(db.jobs, db.nextJob, db.nextProcess)
    ensures AllLegal(db.jobs, RowsAfter(db, step).jobs, step.Recover?)
  {
    hide OfWorker, Poll, SyncOne, EnqueueOrRevive, CancelQueued, RecoverExpired, JobsOk, AllLegal, Kept, OnlyEnqueued;
    SomeoneActs(step);
    SameMoves(db, {}, false);
    match step
    case Recover => RecoverMoves(db);
    case PollStep(items, known, limit, auto, skipDraft) =>
      PollEnqueues(db, items, known, limit, auto, skipDraft);
      EnqueuedMoves(db, RowsAfter(db, step));
    case Webhook(item, skipDraft) =>
      SyncOneEnqueues(db, item, true, skipDraft);
      EnqueuedMoves(db, RowsAfter(db, step));
    case RequestReview(pr) =>
      if pr in db.prs {
        RequestMoves(db, pr, db.prs[pr].head, Manual, None);
      }
    case RequestRetry(pr, run) =>
      if pr in db.prs {
        RequestMoves(db, pr, db.prs[pr].head, Retry, Some(run));
      }
    case CancelReview(pr) => CancelQueuedMoves(db, pr);
    case _ =>
  }

  lemma WorkerLegal(w: World, step: Step)
    requires Inv(w) && OfWorker(step)
    ensures AllLegal(w.db.jobs, WorkerAct(w, step).db.jobs, false)
  {
    hide JobsOk, AllLegal, SessionsOk, HeadsOk, LogOk, BudgetsOk;
    SameMoves(w.db, {}, false);
    if KeepsJobs(step) {
      JobsStay(w, step);
    } else {
      hide RefuseStep, ReportDoneStep, ReportFailedStep, ReplaceStep, ClaimStep;
      match step
      case ClaimBy(p) => ClaimLegal(w, p);
      case Refuse(s, cause) => EndLegal(w, s, cause);
      case ReportDone(s) => EndLegal(w, s, Nothing);
      case ReportFailed(s) => EndLegal(w, s, Nothing);
      case Replace(s) => EndLegal(w, s, Nothing);
      case _ =>
    }
  }

  lemma StepLegal(w: World, step: Step)
    requires Inv(w)
    ensures AllLegal(w.db.jobs, Next(w, step).db.jobs, step.Recover?)
  {
    hide JobsOk, AllLegal, SessionsOk, HeadsOk, LogOk, BudgetsOk, WorkerAct, RowsAfter, OfWorker, Track;
    if OfWorker(step) {
      WorkerLegal(w, step);
      RecoveryIsOutside(step);
    } else {
      OutsideLegal(w.db, step);
    }
  }

  // How many times the status of a job can still change.
  function Left(job: Job): int {
    match job.status
    case Queued => 2 * (MAX_ATTEMPTS - job.attempts) + 1
    case Running => 2 * (MAX_ATTEMPTS - job.attempts) + 2
    case _ => 0
  }

  predicate Restarts(before: Job, after: Job) {
    Ended(before) && after.status == Queued
  }

  // Without a recovery and without starting over, a change of status uses up
  // what is left.
  lemma LeftDecreases(w: World, step: Step, j: nat)
    requires Inv(w) && j in w.db.jobs && w.budgets[j].recoveries == 0 && !step.Recover?
    requires j in Next(w, step).db.jobs && !Restarts(w.db.jobs[j], Next(w, step).db.jobs[j])
    ensures var after := Next(w, step).db.jobs[j];
      && Left(after) + (if after.status != w.db.jobs[j].status then 1 else 0) <= Left(w.db.jobs[j])
      && 0 <= Left(after)
      && j in Next(w, step).budgets && Next(w, step).budgets[j].recoveries == 0
  {
    hide JobsOk, SessionsOk, HeadsOk, LogOk, Act;
    StepLegal(w, step);
    var after := Next(w, step).db.jobs[j];
    assert Legal(Some(w.db.jobs[j]), after, false);
    assert BudgetOk(w.db.jobs[j], w.budgets[j]);
  }

  // The job neither is recovered nor starts over.
  ghost predicate Undisturbed(w: World, steps: seq<Step>, j: nat)
    decreases |steps|
  {
    steps == [] ||
    (j in w.db.jobs && j in Next(w, steps[0]).db.jobs && !steps[0].Recover?
     && !Restarts(w.db.jobs[j], Next(w, steps[0]).db.jobs[j]) && Undisturbed(Next(w, steps[0]), steps[1..], j))
  }

  ghost function Changes(w: World, steps: seq<Step>, j: nat): nat
    requires Undisturbed(w, steps, j)
    decreases |steps|
  {
    if steps == [] then 0
    else
      (if Next(w, steps[0]).db.jobs[j].status != w.db.jobs[j].status then 1 else 0)
      + Changes(Next(w, steps[0]), steps[1..], j)
  }

  // So the status of a job that is left alone changes a bounded number of times.
  lemma {:induction false} ChangesBounded(w: World, steps: seq<Step>, j: nat)
    requires Inv(w) && j in w.db.jobs && w.budgets[j].recoveries == 0 && Undisturbed(w, steps, j)
    ensures 0 <= Changes(w, steps, j) <= Left(w.db.jobs[j]) <= 2 * MAX_ATTEMPTS + 1
    decreases |steps|
  {
    hide Inv, Next, Left;
    LeftRange(w, j);
    if steps != [] {
      LeftDecreases(w, steps[0], j);
      StepKeeps(w, steps[0]);
      ChangesBounded(Next(w, steps[0]), steps[1..], j);
    }
  }

  lemma LeftRange(w: World, j: nat)
    requires Inv(w) && j in w.db.jobs && w.budgets[j].recoveries == 0
    ensures 0 <= Left(w.db.jobs[j]) <= 2 * MAX_ATTEMPTS + 1
  {
    hide JobsOk, SessionsOk, HeadsOk, LogOk;
    assert BudgetOk(w.db.jobs[j], w.budgets[j]);
  }

  // --------------------------------------------------------------- cancellation

  // Jobs that a person canceled.
  predicate StickyKept(jobs: Jobs, jobs': Jobs) {
    forall j <- jobs | jobs[j].status == Canceled && jobs[j].error == ByUser :: j in jobs' && jobs'[j] == jobs[j]
  }

  lemma EndSticky(w: World, s: nat, cause: Cause)
    requires JobsOk(w.db.jobs, w.db.nextJob, w.db.nextProcess)
    ensures StickyKept(w.db.jobs, RefuseStep(w, s, cause).db.jobs)
    ensures StickyKept(w.db.jobs, ReportDoneStep(w, s).db.jobs)
  {
    hide OneRowPerHead;
  }

  lemma FailSticky(w: World, s: nat)
    requires JobsOk(w.db.jobs, w.db.nextJob, w.db.nextProcess)
    ensures StickyKept(w.db.jobs, ReportFailedStep(w, s).db.jobs)
  {
    hide OneRowPerHead, Pow2;
  }

  lemma EnqueuedSticky(jobs: Jobs, jobs': Jobs)
    requires OnlyEnqueued(jobs, jobs')
    ensures StickyKept(jobs, jobs')
  {
  }

  lemma ReplaceSticky(db: Rows, j: nat, process: nat)
    requires JobsOk(db.jobs, db.nextJob, db.nextProcess)
    ensures StickyKept(db.jobs, ReplaceStale(db, j, process).jobs)
  {
    hide OneRowPerHead, EnqueueHead;
    if j in db.jobs {
      var job, db1 := db.jobs[j], CancelHeld(db, j, process);
      assert StickyKept(db.jobs, db1.jobs);
      if job.pr in db.prs {
        var head, trigger := db.prs[job.pr].head, if job.trigger == Auto then Auto else Manual;
        CancelHeldMoves(db, j, process);
        EnqueueHeadEnqueues(db1, job.pr, head, trigger, job.priority);
        EnqueuedSticky(db1.jobs, EnqueueHead(db1, job.pr, head, trigger, job.priority).jobs);
      }
    }
  }

  lemma WorkerSticky(w: World, step: Step)
    requires Inv(w) && OfWorker(step)
    ensures StickyKept(w.db.jobs, WorkerAct(w, step).db.jobs)
  {
    hide JobsOk, StickyKept, SessionsOk, HeadsOk, LogOk, BudgetsOk;
    StickySame(w.db.jobs);
    if KeepsJobs(step) {
      JobsStay(w, step);
    } else {
      hide RefuseStep, ReportDoneStep, ReportFailedStep, ReplaceStale, ClaimStep;
      match step
      case ClaimBy(p) => ClaimSticky(w, p);
      case Refuse(s, cause) => EndSticky(w, s, cause);
      case ReportDone(s) => EndSticky(w, s, Nothing);
      case ReportFailed(s) => FailSticky(w, s);
      case Replace(s) =>
        if s in w.sessions {
          ReplaceSticky(w.db, w.sessions[s].job, w.sessions[s].process);
        }
      case _ =>
    }
  }

  lemma StickySame(jobs: Jobs)
    ensures StickyKept(jobs, jobs)
  {
  }

  lemma ClaimSticky(w: World, p: nat)
    ensures StickyKept(w.db.jobs, ClaimStep(w, p).db.jobs)
  {
    hide First;
  }

  lemma OutsideSticky(db: Rows, step: Step)
    requires !OfWorker(step) && JobsOk(db.jobs, db.nextJob, db.nextProcess)
    requires !step.RequestReview? && !step.RequestRetry?
    ensures StickyKept(db.jobs, RowsAfter(db, step).jobs)
  {
    hide OfWorker, Poll, SyncOne, JobsOk, OnlyEnqueued;
    SomeoneActs(step);
    match step
    case PollStep(items, known, limit, auto, skipDraft) =>
      PollEnqueues(db, items, known, limit, auto, skipDraft);
      EnqueuedSticky(db.jobs, RowsAfter(db, step).jobs);
    case Webhook(item, skipDraft) =>
      SyncOneEnqueues(db, item, true, skipDraft);
      EnqueuedSticky(db.jobs, RowsAfter(db, step).jobs);
    case _ =>
  }

  // A request for one pull request leaves the jobs of the others alone.
  lemma RequestElsewhere(db: Rows, pr: nat, head: string, trigger: Trigger, retryRun: Option<nat>, j: nat)
    requires JobsOk(db.jobs, db.nextJob, db.nextProcess) && j in db.jobs
    requires db.jobs[j].pr != pr || db.jobs[j].head != head
    ensures j in EnqueueOrRevive(db, pr, head, trigger, retryRun).0.jobs
    ensures EnqueueOrRevive(db, pr, head, trigger, retryRun).0.jobs[j] == db.jobs[j]
  {
    hide OneRowPerHead, JobOk;
    LookUpExact(db.jobs, db.nextJob, pr, head);
  }

  // What would enqueue the job again: a person asking for this head.
  predicate AsksFor(w: World, step: Step, job: Job) {
    && (step.RequestReview? || step.RequestRetry?) && step.pr == job.pr
    && step.pr in w.db.prs && w.db.prs[step.pr].head == job.head
  }

  // A job canceled by a person stays as it is, whatever polls, webhook calls,
  // recoveries and workers do, until a person asks for that head.
  lemma CanceledByUserSticks(w: World, step: Step, j: nat)
    requires Inv(w) && j in w.db.jobs && w.db.jobs[j].status == Canceled && w.db.jobs[j].error == ByUser
    requires !AsksFor(w, step, w.db.jobs[j])
    ensures j in Next(w, step).db.jobs && Next(w, step).db.jobs[j] == w.db.jobs[j]
  {
    hide JobsOk, SessionsOk, HeadsOk, LogOk, BudgetsOk, WorkerAct, OfWorker, Track, EnqueueOrRevive;
    if OfWorker(step) {
      WorkerSticky(w, step);
    } else if step.RequestReview? {
      if step.pr in w.db.prs {
        RequestElsewhere(w.db, step.pr, w.db.prs[step.pr].head, Manual, None, j);
      }
    } else if step.RequestRetry? {
      if step.pr in w.db.prs {
        RequestElsewhere(w.db, step.pr, w.db.prs[step.pr].head, Retry, Some(step.run), j);
      }
    } else {
      hide RowsAfter;
      OutsideSticky(w.db, step);
    }
  }

  ghost predicate NobodyAsks(w: World, steps: seq<Step>, job: Job)
    decreases |steps|
  {
    steps == [] || (!AsksFor(w, steps[0], job) && NobodyAsks(Next(w, steps[0]), steps[1..], job))
  }

  lemma {:induction false} CanceledByUserStaysCanceled(w: World, steps: seq<Step>, j: nat)
    requires Inv(w) && j in w.db.jobs && w.db.jobs[j].status == Canceled && w.db.jobs[j].error == ByUser
    requires NobodyAsks(w, steps, w.db.jobs[j])
    ensures j in RunSteps(w, steps).db.jobs && RunSteps(w, steps).db.jobs[j] == w.db.jobs[j]
    decreases |steps|
  {
    hide Inv, Next, AsksFor;
    if steps != [] {
      CanceledByUserSticks(w, steps[0], j);
      StepKeeps(w, steps[0]);
      CanceledByUserStaysCanceled(Next(w, steps[0]), steps[1..], j);
    }
  }

  // A job canceled by the program is queued again, with its attempts back at
  // zero, by the next automatic enqueue of its head.
  lemma SystemCancelRevives(db: Rows, j: nat, trigger: Trigger, priority: int)
    requires JobsOk(db.jobs, db.nextJob, db.nextProcess) && j in db.jobs && Revivable(db.jobs[j])
    ensures var (db', changed) := Enqueue(db, db.jobs[j].pr, db.jobs[j].head, trigger, priority);
      && changed && j in db'.jobs && db'.jobs[j].status == Queued && db'.jobs[j].attempts == 0
      && db'.jobs[j].error == Nothing && db'.jobs[j].trigger == trigger
      && Ready(db'.jobs, db'.now, j)
  {
    LookUpExact(db.jobs, db.nextJob, db.jobs[j].pr, db.jobs[j].head);
    assert IsFor(db.jobs, j, db.jobs[j].pr, db.jobs[j].head);
  }

  // An automatic enqueue of any other existing job changes nothing.
  lemma EnqueueIsIdempotent(db: Rows, j: nat, trigger: Trigger, priority: int)
    requires JobsOk(db.jobs, db.nextJob, db.nextProcess) && j in db.jobs && !Revivable(db.jobs[j])
    ensures Enqueue(db, db.jobs[j].pr, db.jobs[j].head, trigger, priority) == (db, false)
  {
    LookUpExact(db.jobs, db.nextJob, db.jobs[j].pr, db.jobs[j].head);
    assert IsFor(db.jobs, j, db.jobs[j].pr, db.jobs[j].head);
  }
}
