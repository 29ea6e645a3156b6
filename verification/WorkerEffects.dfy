// What the steps of workers make of runs, reviewed heads, jobs and sessions, told
// from the point of view of a single one of these.
module WorkerEffects {
  import opened Text
  import opened JobQueue
  import opened QueueRows
  import opened WorkerProtocol
  import opened QueueSafety
  import opened QueueSteps
  import opened QueueEffects

  predicate HeadIs(db: Rows, x: Session) {
    x.pr in db.prs && db.prs[x.pr].head == x.head
  }

  predicate LeaseLives(db: Rows, p: nat) {
    p in db.leases && db.now < db.leases[p]
  }

  // -------------------------------------------------------------------- runs

  // A run is dropped when no vendor or nothing is left to review, and when the head
  // has moved by the time that is found out or the findings are stored.
  predicate Drops(w: World, step: Step, r: nat) {
    match step
    case NoAdapters(s) => In(w, s, Reviewing(r))
    case Check(s) => In(w, s, Reviewing(r)) && !HeadIs(w.db, w.sessions[s])
    case Empty(s) => In(w, s, Checked(r))
    case Commit(s) => In(w, s, Reviewing(r)) && LeaseLives(w.db, w.sessions[s].process) && !HeadIs(w.db, w.sessions[s])
    case _ => false
  }

  // It is reviewed when its findings are stored under a live lease and at its head.
  predicate Reviews(w: World, step: Step, r: nat) {
    && step.Commit? && In(w, step.s, Reviewing(r))
    && LeaseLives(w.db, w.sessions[step.s].process) && HeadIs(w.db, w.sessions[step.s])
  }

  // It breaks with its worker, with the time limit of its job, or when its process
  // is found to be gone.
  predicate Breaks(w: World, step: Step, r: nat)
    requires r in w.db.runs
  {
    match step
    case Break(s, _) => In(w, s, Reviewing(r)) || In(w, s, Checked(r)) || In(w, s, Emptied(r))
    case TimeOut(s) =>
      && s in w.sessions && (w.sessions[s].stage.Reviewing? || w.sessions[s].stage.Retrying?)
      && w.db.runs[r].job == w.sessions[s].job && w.db.runs[r].status == InProgress
    case Recover => w.db.runs[r].status == InProgress && !LeaseLives(w.db, w.db.runs[r].owner)
    case _ => false
  }

  predicate Starts(w: World, step: Step) {
    step.StartReview? && In(w, step.s, Claimed) && w.sessions[step.s].trigger != Retry
  }

  predicate RunsMove(w: World, w': World, step: Step) {
    && (forall r <- w.db.runs ::
          && r in w'.db.runs
          && w'.db.runs[r] == w.db.runs[r].(
               status := if Drops(w, step, r) then Dropped
                         else if Reviews(w, step, r) then Reviewed
                         else if Breaks(w, step, r) then Broke else w.db.runs[r].status))
    && (forall r <- w'.db.runs | r !in w.db.runs ::
          && Starts(w, step) && r == w.db.nextRun
          && var x := w.sessions[step.s]; w'.db.runs[r] == Run(x.pr, x.head, InProgress, x.process, x.job))
    && (Starts(w, step) ==> w.db.nextRun in w'.db.runs)
  }

  predicate SameRuns(w: World, w': World) {
    w'.db.runs == w.db.runs
  }

  predicate Idle(w: World, step: Step) {
    && !Starts(w, step)
    && forall r <- w.db.runs :: !Drops(w, step, r) && !Reviews(w, step, r) && !Breaks(w, step, r)
  }

  lemma IdleRuns(w: World, w': World, step: Step)
    requires Idle(w, step) && SameRuns(w, w')
    ensures RunsMove(w, w', step)
  {
  }

  function GivenStatus(w: World, step: Step, r: nat): RunStatus
    requires r in w.db.runs
  {
    if Drops(w, step, r) then Dropped
    else if Reviews(w, step, r) then Reviewed
    else if Breaks(w, step, r) then Broke else w.db.runs[r].status
  }

  // One run only is looked at by the step.
  lemma OneRunMoves(w: World, w': World, step: Step, r: nat, status: RunStatus)
    requires !Starts(w, step)
    requires w'.db.runs == if r in w.db.runs then w.db.runs[r := w.db.runs[r].(status := status)] else w.db.runs
    requires r in w.db.runs ==> status == GivenStatus(w, step, r)
    requires forall q <- w.db.runs | q != r :: GivenStatus(w, step, q) == w.db.runs[q].status
    ensures RunsMove(w, w', step)
  {
    hide Drops, Reviews, Breaks, Starts, GivenStatus;
    forall q <- w.db.runs
      ensures q in w'.db.runs && w'.db.runs[q] == w.db.runs[q].(status := GivenStatus(w, step, q))
    {
    }
    StatusesGiven(w, w', step);
  }

  lemma StatusesGiven(w: World, w': World, step: Step)
    requires !Starts(w, step) && w'.db.runs.Keys <= w.db.runs.Keys
    requires forall q <- w.db.runs ::
      q in w'.db.runs && w'.db.runs[q] == w.db.runs[q].(status := GivenStatus(w, step, q))
    ensures RunsMove(w, w', step)
  {
    hide Drops, Reviews, Breaks, Starts;
  }

  lemma StartReviewRuns(w: World, s: nat)
    requires RunsOk(w.db.runs, w.db.nextRun)
    ensures RunsMove(w, StartReviewStep(w, s), StartReview(s))
  {
  }

  lemma NoAdaptersRuns(w: World, s: nat)
    ensures RunsMove(w, NoAdaptersStep(w, s), NoAdapters(s))
  {
  }

  lemma CheckRuns(w: World, s: nat)
    ensures RunsMove(w, CheckStep(w, s), Check(s))
  {
  }

  lemma EmptyRuns(w: World, s: nat)
    ensures RunsMove(w, EmptyStep(w, s), Empty(s))
  {
  }

  lemma BreakRuns(w: World, s: nat, retry: bool)
    ensures RunsMove(w, BreakStep(w, s, retry), Break(s, retry))
  {
    var w', step := BreakStep(w, s, retry), Break(s, retry);
    if s in w.sessions && Written(w.sessions[s].stage).Some? {
      hide RunsMove, BreakStep;
      var r := Written(w.sessions[s].stage).value;
      BreakIs(w, s, retry);
      OneRunMoves(w, w', step, r, Broke);
    } else {
      BreakLeaves(w, s, retry);
      hide BreakStep, RunsMove;
      IdleRuns(w, w', step);
    }
  }

  // The run of a first review that is not over.
  function Written(stage: Stage): Option<nat> {
    match stage
    case Reviewing(r) => Some(r)
    case Checked(r) => Some(r)
    case Emptied(r) => Some(r)
    case _ => None
  }

  lemma BreakIs(w: World, s: nat, retry: bool)
    requires s in w.sessions && Written(w.sessions[s].stage).Some?
    ensures var r := Written(w.sessions[s].stage).value;
      BreakStep(w, s, retry).db.runs == if r in w.db.runs then w.db.runs[r := w.db.runs[r].(status := Broke)] else w.db.runs
  {
  }

  lemma BreakLeaves(w: World, s: nat, retry: bool)
    requires s in w.sessions ==> Written(w.sessions[s].stage).None?
    ensures SameRuns(w, BreakStep(w, s, retry))
  {
    hide FinishRun;
  }

  lemma TimeOutRuns(w: World, s: nat)
    ensures RunsMove(w, TimeOutStep(w, s), TimeOut(s))
  {
  }

  lemma CommitIs(w: World, s: nat)
    requires s in w.sessions && w.sessions[s].stage.Reviewing?
    ensures var x := w.sessions[s];
      var r := x.stage.run;
      var runs := CommitStep(w, s).db.runs;
      if !LeaseLives(w.db, x.process) then runs == w.db.runs
      else if r !in w.db.runs then runs == w.db.runs
      else runs == w.db.runs[r := w.db.runs[r].(status := if HeadIs(w.db, x) then Reviewed else Dropped)]
  {
    hide CommitReview;
    CommitExactly(w.db, w.sessions[s].stage.run, w.sessions[s].pr, w.sessions[s].head, w.sessions[s].process);
  }

  lemma CommitLeaves(w: World, s: nat)
    requires s in w.sessions ==> !w.sessions[s].stage.Reviewing?
    ensures SameRuns(w, CommitStep(w, s))
  {
    hide CommitReview, CommitRetry;
  }

  lemma CommitRuns(w: World, s: nat)
    ensures RunsMove(w, CommitStep(w, s), Commit(s))
  {
    var w', step := CommitStep(w, s), Commit(s);
    if s in w.sessions && w.sessions[s].stage.Reviewing? {
      hide RunsMove, CommitStep, LeaseLives, HeadIs;
      var x := w.sessions[s];
      CommitIs(w, s);
      if LeaseLives(w.db, x.process) {
        OneRunMoves(w, w', step, x.stage.run, if HeadIs(w.db, x) then Reviewed else Dropped);
      } else {
        IdleRuns(w, w', step);
      }
    } else {
      CommitLeaves(w, s);
      hide CommitStep, RunsMove;
      IdleRuns(w, w', step);
    }
  }

  lemma RecoverRuns(w: World)
    ensures RunsMove(w, w.(db := RecoverExpired(w.db)), Recover)
  {
  }

  // Steps that have nothing to do with runs.
  predicate LeavesRuns(step: Step) {
    !(step.StartReview? || step.NoAdapters? || step.Check? || step.Empty? || step.Break? || step.TimeOut?
      || step.Commit? || step.Recover?)
  }

  lemma ClaimLeavesRuns(w: World, process: nat)
    ensures SameRuns(w, ClaimStep(w, process))
  {
    hide First;
  }

  lemma RefuseLeavesRuns(w: World, s: nat, cause: Cause)
    ensures SameRuns(w, RefuseStep(w, s, cause))
  {
  }

  lemma ReplaceLeavesRuns(w: World, s: nat)
    ensures SameRuns(w, ReplaceStep(w, s))
  {
    if In(w, s, Outdated) {
      ReplaceRows(w.db, w.sessions[s].job, w.sessions[s].process);
    }
    hide ReplaceStale;
  }

  lemma ReplaceRows(db: Rows, j: nat, process: nat)
    ensures var db' := ReplaceStale(db, j, process); db' == db.(jobs := db'.jobs, nextJob := db'.nextJob)
  {
    hide EnqueueHead;
    if j in db.jobs && db.jobs[j].pr in db.prs {
      var job := db.jobs[j];
      HeadRows(CancelHeld(db, j, process), job.pr, db.prs[job.pr].head, if job.trigger == Auto then Auto else Manual, job.priority);
    }
  }

  lemma HeadRows(db: Rows, pr: nat, head: string, trigger: Trigger, priority: int)
    ensures var db' := EnqueueHead(db, pr, head, trigger, priority); db' == db.(jobs := db'.jobs, nextJob := db'.nextJob)
  {
    hide LookUp;
  }

  lemma StagesLeaveRuns(w: World, s: nat, retry: bool)
    ensures SameRuns(w, OutdateStep(w, s)) && SameRuns(w, StartRetryStep(w, s)) && SameRuns(w, SkipRetryStep(w, s))
    ensures SameRuns(w, FailRetryStep(w, s, retry)) && SameRuns(w, AdvanceStep(w, s))
  {
    hide Retryable;
  }

  lemma ReportsLeaveRuns(w: World, s: nat)
    ensures SameRuns(w, ReportDoneStep(w, s)) && SameRuns(w, ReportFailedStep(w, s)) && SameRuns(w, End(w, s))
  {
    hide Pow2;
  }

  lemma OthersLeaveRuns(w: World, step: Step)
    requires !OfWorker(step) && !step.Recover?
    ensures RowsAfter(w.db, step).runs == w.db.runs
  {
    hide SyncOne, SyncAll, EnqueueOrRevive;
    match step
    case PollStep(items, known, limit, auto, skipDraft) => SyncAllSyncs(w.db, items, auto, skipDraft);
    case Webhook(item, skipDraft) => SyncOneSyncs(w.db, item, true, skipDraft);
    case RequestReview(pr) =>
      if pr in w.db.prs {
        RequestRows(w.db, pr, w.db.prs[pr].head, Manual, None);
      }
    case RequestRetry(pr, run) =>
      if pr in w.db.prs {
        RequestRows(w.db, pr, w.db.prs[pr].head, Retry, Some(run));
      }
    case _ =>
  }

  lemma LeavesMeansIdle(w: World, step: Step)
    requires LeavesRuns(step)
    ensures Idle(w, step)
  {
  }

  lemma OtherStepsLeaveRuns(w: World, step: Step)
    requires LeavesRuns(step) && OfWorker(step)
    ensures SameRuns(w, WorkerAct(w, step))
  {
    hide SameRuns, ClaimStep, RefuseStep, OutdateStep, StartReviewStep, StartRetryStep, NoAdaptersStep, CheckStep;
    hide SkipRetryStep, FailRetryStep, EmptyStep, AdvanceStep, BreakStep, TimeOutStep, CommitStep, ReplaceStep;
    hide ReportDoneStep, ReportFailedStep, End;
    match step
    case ClaimBy(p) => ClaimLeavesRuns(w, p);
    case Refuse(s, cause) => RefuseLeavesRuns(w, s, cause);
    case Outdate(s) => StagesLeaveRuns(w, s, false);
    case StartRetry(s) => StagesLeaveRuns(w, s, false);
    case SkipRetry(s) => StagesLeaveRuns(w, s, false);
    case FailRetry(s, retry) => StagesLeaveRuns(w, s, retry);
    case Advance(s) => StagesLeaveRuns(w, s, false);
    case Replace(s) => ReplaceLeavesRuns(w, s);
    case ReportDone(s) => ReportsLeaveRuns(w, s);
    case ReportFailed(s) => ReportsLeaveRuns(w, s);
    case Crash(s) => ReportsLeaveRuns(w, s);
  }

  lemma ActRows(w: World, step: Step)
    ensures Next(w, step).db == Act(w, step).db && Next(w, step).sessions == Act(w, step).sessions
    ensures OfWorker(step) ==> Act(w, step) == WorkerAct(w, step)
    ensures !OfWorker(step) ==> Act(w, step) == w.(db := RowsAfter(w.db, step))
  {
    hide WorkerAct, RowsAfter, Track, OfWorker;
  }

  lemma SameMove(w: World, w': World, w'': World, step: Step)
    requires RunsMove(w, w', step) && w''.db.runs == w'.db.runs
    ensures RunsMove(w, w'', step)
  {
    hide Drops, Reviews, Breaks, Starts;
  }

  lemma WorkersMoveRuns(w: World, step: Step)
    requires RunsOk(w.db.runs, w.db.nextRun) && OfWorker(step)
    ensures RunsMove(w, WorkerAct(w, step), step)
  {
    if LeavesRuns(step) {
      hide RunsMove, Idle, WorkerAct;
      OtherStepsLeaveRuns(w, step);
      LeavesMeansIdle(w, step);
      IdleRuns(w, WorkerAct(w, step), step);
    } else {
      hide RunsMove, StartReviewStep, NoAdaptersStep, CheckStep, EmptyStep, BreakStep, TimeOutStep, CommitStep;
      match step
      case StartReview(s) => StartReviewRuns(w, s);
      case NoAdapters(s) => NoAdaptersRuns(w, s);
      case Check(s) => CheckRuns(w, s);
      case Empty(s) => EmptyRuns(w, s);
      case Break(s, retry) => BreakRuns(w, s, retry);
      case TimeOut(s) => TimeOutRuns(w, s);
      case Commit(s) => CommitRuns(w, s);
    }
  }

  // Which runs a step starts, and what status it gives the others.
  lemma RunFate(w: World, step: Step)
    requires Inv(w)
    ensures RunsMove(w, Next(w, step), step)
  {
    ActRows(w, step);
    assert RunsOk(w.db.runs, w.db.nextRun);
    hide RunsMove, Next, WorkerAct, Idle, Inv;
    if OfWorker(step) {
      WorkersMoveRuns(w, step);
      SameMove(w, WorkerAct(w, step), Next(w, step), step);
    } else if step.Recover? {
      RecoverRuns(w);
      SameMove(w, w.(db := RecoverExpired(w.db)), Next(w, step), step);
    } else {
      OthersLeaveRuns(w, step);
      LeavesMeansIdle(w, step);
      IdleRuns(w, Next(w, step), step);
    }
  }

  // ------------------------------------------------------------- reviewed heads

  // A head counts as reviewed when the findings of its run are stored, and when its
  // run had nothing to review.
  predicate TakesHead(w: World, step: Step, pr: nat) {
    match step
    case Commit(s) =>
      && s in w.sessions && w.sessions[s].pr == pr && w.sessions[s].stage.Reviewing?
      && LeaseLives(w.db, w.sessions[s].process) && HeadIs(w.db, w.sessions[s])
    case Advance(s) => s in w.sessions && w.sessions[s].pr == pr && w.sessions[s].stage.Emptied?
    case _ => false
  }

  predicate HeadsMove(w: World, w': World, step: Step) {
    && (forall pr <- w.db.prs ::
          && pr in w'.db.prs
          && w'.db.prs[pr].lastReviewed ==
               if TakesHead(w, step, pr) then Some(w.sessions[step.s].head) else w.db.prs[pr].lastReviewed)
    && (forall pr <- w'.db.prs | pr !in w.db.prs :: w'.db.prs[pr].lastReviewed == None)
  }

  predicate SamePrs(w: World, w': World) {
    w'.db.prs == w.db.prs
  }

  lemma CommitHeads(w: World, s: nat)
    ensures HeadsMove(w, CommitStep(w, s), Commit(s))
  {
    hide CommitReview, CommitRetry;
    if s in w.sessions && w.sessions[s].stage.Reviewing? {
      CommitExactly(w.db, w.sessions[s].stage.run, w.sessions[s].pr, w.sessions[s].head, w.sessions[s].process);
    }
  }

  lemma AdvanceHeads(w: World, s: nat)
    ensures HeadsMove(w, AdvanceStep(w, s), Advance(s))
  {
  }

  lemma IdleHeads(w: World, w': World, step: Step)
    requires SamePrs(w, w') && !step.Commit? && !step.Advance?
    ensures HeadsMove(w, w', step)
  {
  }

  lemma ClaimLeavesPrs(w: World, process: nat)
    ensures SamePrs(w, ClaimStep(w, process))
  {
    hide First;
  }

  lemma RefuseLeavesPrs(w: World, s: nat, cause: Cause)
    ensures SamePrs(w, RefuseStep(w, s, cause))
  {
  }

  lemma ReplaceLeavesPrs(w: World, s: nat)
    ensures SamePrs(w, ReplaceStep(w, s))
  {
    if In(w, s, Outdated) {
      ReplaceRows(w.db, w.sessions[s].job, w.sessions[s].process);
    }
    hide ReplaceStale;
  }

  lemma StagesLeavePrs(w: World, s: nat, retry: bool)
    ensures SamePrs(w, OutdateStep(w, s)) && SamePrs(w, StartRetryStep(w, s)) && SamePrs(w, SkipRetryStep(w, s))
    ensures SamePrs(w, FailRetryStep(w, s, retry)) && SamePrs(w, StartReviewStep(w, s))
  {
    hide Retryable;
  }

  lemma EndsLeavePrs(w: World, s: nat, retry: bool)
    ensures SamePrs(w, NoAdaptersStep(w, s)) && SamePrs(w, EmptyStep(w, s)) && SamePrs(w, CheckStep(w, s))
  {
    hide AtHead;
  }

  lemma BreaksLeavePrs(w: World, s: nat, retry: bool)
    ensures SamePrs(w, BreakStep(w, s, retry)) && SamePrs(w, TimeOutStep(w, s))
  {
  }

  lemma ReportsLeavePrs(w: World, s: nat)
    ensures SamePrs(w, ReportDoneStep(w, s)) && SamePrs(w, ReportFailedStep(w, s)) && SamePrs(w, End(w, s))
  {
    hide Pow2;
  }

  lemma OtherStepsLeavePrs(w: World, step: Step)
    requires OfWorker(step) && !step.Commit? && !step.Advance?
    ensures SamePrs(w, WorkerAct(w, step))
  {
    hide SamePrs, ClaimStep, RefuseStep, OutdateStep, StartReviewStep, StartRetryStep, NoAdaptersStep, CheckStep;
    hide SkipRetryStep, FailRetryStep, EmptyStep, BreakStep, TimeOutStep, ReplaceStep, ReportDoneStep, ReportFailedStep;
    hide End;
    match step
    case ClaimBy(p) => ClaimLeavesPrs(w, p);
    case Refuse(s, cause) => RefuseLeavesPrs(w, s, cause);
    case Outdate(s) => StagesLeavePrs(w, s, false);
    case StartReview(s) => StagesLeavePrs(w, s, false);
    case StartRetry(s) => StagesLeavePrs(w, s, false);
    case SkipRetry(s) => StagesLeavePrs(w, s, false);
    case FailRetry(s, retry) => StagesLeavePrs(w, s, retry);
    case NoAdapters(s) => EndsLeavePrs(w, s, false);
    case Check(s) => EndsLeavePrs(w, s, false);
    case Empty(s) => EndsLeavePrs(w, s, false);
    case Break(s, retry) => BreaksLeavePrs(w, s, retry);
    case TimeOut(s) => BreaksLeavePrs(w, s, false);
    case Replace(s) => ReplaceLeavesPrs(w, s);
    case ReportDone(s) => ReportsLeavePrs(w, s);
    case ReportFailed(s) => ReportsLeavePrs(w, s);
    case Crash(s) => ReportsLeavePrs(w, s);
  }

  lemma OthersMoveHeads(w: World, step: Step)
    requires !OfWorker(step)
    ensures HeadsMove(w, w.(db := RowsAfter(w.db, step)), step)
  {
    hide SyncOne, Poll, EnqueueOrRevive, LastListed;
    match step
    case PollStep(items, known, limit, auto, skipDraft) => PollPrs(w.db, items, known, limit, auto, skipDraft);
    case Webhook(item, skipDraft) => SyncOnePrs(w.db, item, true, skipDraft);
    case RequestReview(pr) =>
      if pr in w.db.prs {
        RequestRows(w.db, pr, w.db.prs[pr].head, Manual, None);
      }
    case RequestRetry(pr, run) =>
      if pr in w.db.prs {
        RequestRows(w.db, pr, w.db.prs[pr].head, Retry, Some(run));
      }
    case _ =>
  }

  lemma SameHeads(w: World, w': World, w'': World, step: Step)
    requires HeadsMove(w, w', step) && w''.db.prs == w'.db.prs
    ensures HeadsMove(w, w'', step)
  {
    hide TakesHead;
  }

  // Which step takes which head as reviewed.
  lemma ReviewedFate(w: World, step: Step)
    ensures HeadsMove(w, Next(w, step), step)
  {
    ActRows(w, step);
    hide HeadsMove, Next, CommitStep, AdvanceStep;
    if step.Commit? {
      CommitHeads(w, step.s);
      SameHeads(w, CommitStep(w, step.s), Next(w, step), step);
    } else if step.Advance? {
      AdvanceHeads(w, step.s);
      SameHeads(w, AdvanceStep(w, step.s), Next(w, step), step);
    } else if OfWorker(step) {
      hide WorkerAct;
      OtherStepsLeavePrs(w, step);
      IdleHeads(w, Next(w, step), step);
    } else {
      hide RowsAfter;
      OthersMoveHeads(w, step);
      SameHeads(w, w.(db := RowsAfter(w.db, step)), Next(w, step), step);
    }
  }

  // -------------------------------------------------------------------- jobs

  predicate Mine(w: World, s: nat, j: nat) {
    s in w.sessions && w.sessions[s].job == j && j in w.db.jobs && w.db.jobs[j].owner == Some(w.sessions[s].process)
  }

  // What a job is after a step that neither enqueues nor recovers jobs: a worker ends
  // the job it owns, or puts it back after a failure that may be retried, and a
  // person cancels what waits.
  function GivenJob(w: World, step: Step, j: nat): Job
    requires j in w.db.jobs
  {
    var job := w.db.jobs[j];
    match step
    case ClaimBy(p) =>
      if p < w.db.nextProcess && First(w.db.jobs, w.db.now, w.db.nextJob) == Some(j)
      then job.(status := Running, owner := Some(p), attempts := job.attempts + 1) else job
    case Refuse(s, cause) =>
      if Mine(w, s, j) && In(w, s, Claimed) && (cause == ClosedPr || cause == DisabledRepo || cause == NoVendor)
      then job.(status := Canceled, error := cause, owner := None) else job
    case ReportDone(s) =>
      if Mine(w, s, j) && w.sessions[s].stage.Returned?
      then job.(status := Done, run := Some(w.sessions[s].stage.run), owner := None) else job
    case ReportFailed(s) =>
      if Mine(w, s, j) && w.sessions[s].stage.Failing? then
        var stage := w.sessions[s].stage;
        var again := stage.retry && job.attempts < 3;
        var minutes := if job.attempts == 0 then 1 else if job.attempts == 1 then 2 else 4;
        job.(status := if again then Queued else Failed, nextRun := if again then w.db.now + 60 * minutes else job.nextRun,
             error := Broken, owner := None, run := if stage.broken.Some? then stage.broken else job.run)
      else job
    case CancelReview(pr) =>
      if job.pr == pr && job.status == Queued then job.(status := Canceled, error := ByUser) else job
    case _ => job
  }

  predicate JobsFollow(w: World, w': World, step: Step) {
    && w'.db.jobs.Keys == w.db.jobs.Keys
    && forall j <- w.db.jobs :: w'.db.jobs[j] == GivenJob(w, step, j)
  }

  predicate Enqueues(step: Step) {
    step.Replace? || step.Recover? || step.PollStep? || step.Webhook? || step.RequestReview? || step.RequestRetry?
  }

  predicate ChangesJobs(step: Step) {
    step.ClaimBy? || step.Refuse? || step.ReportDone? || step.ReportFailed? || step.CancelReview?
  }

  lemma ClaimJobs(w: World, p: nat)
    requires forall j <- w.db.jobs :: j < w.db.nextJob
    ensures JobsFollow(w, ClaimStep(w, p), ClaimBy(p))
  {
    hide First;
  }

  lemma RefuseJobs(w: World, s: nat, cause: Cause)
    ensures JobsFollow(w, RefuseStep(w, s, cause), Refuse(s, cause))
  {
  }

  lemma ReportDoneJobs(w: World, s: nat)
    ensures JobsFollow(w, ReportDoneStep(w, s), ReportDone(s))
  {
  }

  lemma ReportFailedJobs(w: World, s: nat)
    ensures JobsFollow(w, ReportFailedStep(w, s), ReportFailed(s))
  {
    hide Mine;
    MineIs(w, s);
    if s in w.sessions && w.sessions[s].stage.Failing? {
      var x := w.sessions[s];
      FailureExactly(w.db, x.job, x.stage.broken, x.stage.retry, x.process);
      hide MarkFailed;
    }
  }

  lemma MineIs(w: World, s: nat)
    ensures forall j :: Mine(w, s, j) <==>
      s in w.sessions && w.sessions[s].job == j && j in w.db.jobs && w.db.jobs[j].owner == Some(w.sessions[s].process)
  {
  }

  lemma CancelJobs(w: World, pr: nat)
    ensures JobsFollow(w, w.(db := CancelQueued(w.db, pr)), CancelReview(pr))
  {
  }

  predicate SameJobs(w: World, w': World) {
    w'.db.jobs == w.db.jobs
  }

  lemma IdleJobs(w: World, w': World, step: Step)
    requires SameJobs(w, w') && !ChangesJobs(step)
    ensures JobsFollow(w, w', step)
  {
  }

  lemma StagesLeaveJobs(w: World, s: nat, retry: bool)
    ensures SameJobs(w, OutdateStep(w, s)) && SameJobs(w, StartRetryStep(w, s)) && SameJobs(w, SkipRetryStep(w, s))
    ensures SameJobs(w, FailRetryStep(w, s, retry)) && SameJobs(w, StartReviewStep(w, s))
  {
    hide Retryable;
  }

  lemma RunsLeaveJobs(w: World, s: nat)
    ensures SameJobs(w, NoAdaptersStep(w, s)) && SameJobs(w, EmptyStep(w, s)) && SameJobs(w, CheckStep(w, s))
  {
    hide AtHead;
  }

  lemma AdvanceLeavesJobs(w: World, s: nat)
    ensures SameJobs(w, AdvanceStep(w, s)) && SameJobs(w, End(w, s))
  {
  }

  lemma BreaksLeaveJobs(w: World, s: nat, retry: bool)
    ensures SameJobs(w, BreakStep(w, s, retry)) && SameJobs(w, TimeOutStep(w, s))
  {
  }

  lemma CommitLeavesJobs(w: World, s: nat)
    ensures SameJobs(w, CommitStep(w, s))
  {
    hide CommitReview, CommitRetry;
    if s in w.sessions && w.sessions[s].stage.Reviewing? {
      CommitExactly(w.db, w.sessions[s].stage.run, w.sessions[s].pr, w.sessions[s].head, w.sessions[s].process);
    }
  }

  lemma OtherStepsLeaveJobs(w: World, step: Step)
    requires OfWorker(step) && !ChangesJobs(step) && !Enqueues(step)
    ensures SameJobs(w, WorkerAct(w, step))
  {
    hide SameJobs, OutdateStep, StartReviewStep, StartRetryStep, NoAdaptersStep, CheckStep, SkipRetryStep, FailRetryStep;
    hide EmptyStep, AdvanceStep, BreakStep, TimeOutStep, CommitStep, End;
    match step
    case Outdate(s) => StagesLeaveJobs(w, s, false);
    case StartReview(s) => StagesLeaveJobs(w, s, false);
    case StartRetry(s) => StagesLeaveJobs(w, s, false);
    case SkipRetry(s) => StagesLeaveJobs(w, s, false);
    case FailRetry(s, retry) => StagesLeaveJobs(w, s, retry);
    case NoAdapters(s) => RunsLeaveJobs(w, s);
    case Check(s) => RunsLeaveJobs(w, s);
    case Empty(s) => RunsLeaveJobs(w, s);
    case Advance(s) => AdvanceLeavesJobs(w, s);
    case Break(s, retry) => BreaksLeaveJobs(w, s, retry);
    case TimeOut(s) => BreaksLeaveJobs(w, s, false);
    case Commit(s) => CommitLeavesJobs(w, s);
    case Crash(s) => AdvanceLeavesJobs(w, s);
  }

  lemma SameFollow(w: World, w': World, w'': World, step: Step)
    requires JobsFollow(w, w', step) && w''.db.jobs == w'.db.jobs
    ensures JobsFollow(w, w'', step)
  {
    hide GivenJob;
  }

  lemma ChangesFollow(w: World, step: Step)
    requires ChangesJobs(step) && forall j <- w.db.jobs :: j < w.db.nextJob
    ensures JobsFollow(w, Act(w, step), step)
  {
    hide JobsFollow, ClaimStep, RefuseStep, ReportDoneStep, ReportFailedStep, CancelQueued;
    match step
    case ClaimBy(p) => ClaimJobs(w, p);
    case Refuse(s, cause) => RefuseJobs(w, s, cause);
    case ReportDone(s) => ReportDoneJobs(w, s);
    case ReportFailed(s) => ReportFailedJobs(w, s);
    case CancelReview(pr) => CancelJobs(w, pr);
  }

  lemma OthersLeaveJobs(w: World, step: Step)
    requires !OfWorker(step) && !ChangesJobs(step) && !Enqueues(step)
    ensures RowsAfter(w.db, step).jobs == w.db.jobs
  {
  }

  // What every step that does not enqueue makes of the jobs.
  lemma JobFate(w: World, step: Step)
    requires Inv(w) && !Enqueues(step)
    ensures JobsFollow(w, Next(w, step), step)
  {
    ActRows(w, step);
    assert forall j <- w.db.jobs :: j < w.db.nextJob;
    hide JobsFollow, Next, Inv, Act, WorkerAct, RowsAfter, OfWorker, Enqueues;
    if ChangesJobs(step) {
      ChangesFollow(w, step);
      SameFollow(w, Act(w, step), Next(w, step), step);
    } else {
      if OfWorker(step) {
        OtherStepsLeaveJobs(w, step);
      } else {
        OthersLeaveJobs(w, step);
      }
      IdleJobs(w, Next(w, step), step);
    }
  }

  // ----------------------------------------------------------------- sessions

  predicate MayRetry(db: Rows, x: Session, r: nat) {
    && x.trigger == Retry && x.retryRun == Some(r) && r in db.runs
    && db.runs[r].pr == x.pr && db.runs[r].head == x.head && db.runs[r].status == Reviewed
  }

  // A worker's step leads from one stage to another, or ends the session.
  ghost predicate Leads(db: Rows, x: Session, step: Step, stage: Option<Stage>) {
    match step
    case Refuse(_, cause) => x.stage == Claimed && (cause == ClosedPr || cause == DisabledRepo || cause == NoVendor) && stage == None
    case Outdate(_) => x.stage == Claimed && stage == Some(Outdated)
    case StartReview(_) => x.stage == Claimed && x.trigger != Retry && stage == Some(Reviewing(db.nextRun))
    case StartRetry(_) => x.stage == Claimed && exists r :: MayRetry(db, x, r) && stage == Some(Retrying(r))
    case SkipRetry(_) => x.stage.Retrying? && stage == Some(Returned(x.stage.run))
    case FailRetry(_, retry) => x.stage == Claimed && x.trigger == Retry && stage == Some(Failing(x.retryRun, retry))
    case NoAdapters(_) => x.stage.Reviewing? && stage == Some(Returned(x.stage.run))
    case Check(_) => x.stage.Reviewing? && stage == Some(if HeadIs(db, x) then Checked(x.stage.run) else Outdated)
    case Empty(_) => x.stage.Checked? && stage == Some(Emptied(x.stage.run))
    case Advance(_) => x.stage.Emptied? && stage == Some(Returned(x.stage.run))
    case Break(_, retry) =>
      || (x.stage == Claimed && stage == Some(Failing(None, retry)))
      || ((x.stage.Reviewing? || x.stage.Retrying? || x.stage.Checked? || x.stage.Emptied?) &&
          stage == Some(Failing(Some(x.stage.run), retry)))
    case TimeOut(_) => (x.stage.Reviewing? || x.stage.Retrying?) && stage == Some(Failing(None, true))
    case Commit(_) =>
      && (x.stage.Reviewing? || x.stage.Retrying?)
      && stage == if !LeaseLives(db, x.process) then None
                  else if HeadIs(db, x) then Some(Returned(x.stage.run)) else Some(Outdated)
    case Replace(_) => x.stage == Outdated && stage == None
    case ReportDone(_) => x.stage.Returned? && stage == None
    case ReportFailed(_) => x.stage.Failing? && stage == None
    case Crash(_) => stage == None
    case _ => false
  }

  function StageIn(w: World, s: nat): Option<Stage> {
    if s in w.sessions then Some(w.sessions[s].stage) else None
  }

  predicate OfSession(step: Step) {
    OfWorker(step) && !step.ClaimBy?
  }

  // The step's session goes where the step leads it, or stays; it keeps the rest of
  // what it is, and all other sessions stay.
  ghost predicate SessionMoves(w: World, w': World, step: Step)
    requires OfSession(step)
  {
    && w'.sessions - {step.s} == w.sessions - {step.s}
    && (step.s !in w.sessions ==> step.s !in w'.sessions)
    && (step.s in w.sessions ==>
          || Leads(w.db, w.sessions[step.s], step, StageIn(w', step.s))
          || ((forall stage :: !Leads(w.db, w.sessions[step.s], step, stage)) && step.s in w'.sessions
              && w'.sessions[step.s].stage == w.sessions[step.s].stage))
    && (step.s in w'.sessions && step.s in w.sessions ==>
          w'.sessions[step.s] == w.sessions[step.s].(stage := w'.sessions[step.s].stage))
  }

  lemma AtMoves(w: World, w': World, step: Step, stage: Stage)
    requires OfSession(step) && step.s in w.sessions && Leads(w.db, w.sessions[step.s], step, Some(stage))
    requires w'.sessions == w.sessions[step.s := w.sessions[step.s].(stage := stage)]
    ensures SessionMoves(w, w', step)
  {
    hide Leads;
  }

  lemma EndMoves(w: World, w': World, step: Step)
    requires OfSession(step) && step.s in w.sessions && Leads(w.db, w.sessions[step.s], step, None)
    requires w'.sessions == w.sessions - {step.s}
    ensures SessionMoves(w, w', step)
  {
    hide Leads;
  }

  lemma StayMoves(w: World, w': World, step: Step)
    requires OfSession(step) && w'.sessions == w.sessions
    requires step.s in w.sessions ==> forall stage :: !Leads(w.db, w.sessions[step.s], step, stage)
    ensures SessionMoves(w, w', step)
  {
    hide Leads;
  }

  lemma OutdateMoves(w: World, s: nat)
    ensures SessionMoves(w, OutdateStep(w, s), Outdate(s))
  {
    hide SessionMoves;
    if In(w, s, Claimed) { AtMoves(w, OutdateStep(w, s), Outdate(s), Outdated); } else { StayMoves(w, w, Outdate(s)); }
  }

  lemma StartReviewMoves(w: World, s: nat)
    ensures SessionMoves(w, StartReviewStep(w, s), StartReview(s))
  {
    hide SessionMoves;
    if In(w, s, Claimed) && w.sessions[s].trigger != Retry {
      AtMoves(w, StartReviewStep(w, s), StartReview(s), Reviewing(w.db.nextRun));
    } else {
      StayMoves(w, w, StartReview(s));
    }
  }

  lemma StartRetryMoves(w: World, s: nat)
    ensures SessionMoves(w, StartRetryStep(w, s), StartRetry(s))
  {
    hide SessionMoves;
    if In(w, s, Claimed) && Retryable(w.db, w.sessions[s]) {
      var r := w.sessions[s].retryRun.value;
      assert MayRetry(w.db, w.sessions[s], r);
      AtMoves(w, StartRetryStep(w, s), StartRetry(s), Retrying(r));
    } else {
      StayMoves(w, w, StartRetry(s));
    }
  }

  lemma RetryMoves(w: World, s: nat, retry: bool)
    ensures SessionMoves(w, SkipRetryStep(w, s), SkipRetry(s))
    ensures SessionMoves(w, FailRetryStep(w, s, retry), FailRetry(s, retry))
  {
    hide SessionMoves;
    if s in w.sessions && w.sessions[s].stage.Retrying? {
      AtMoves(w, SkipRetryStep(w, s), SkipRetry(s), Returned(w.sessions[s].stage.run));
    } else {
      StayMoves(w, w, SkipRetry(s));
    }
    if In(w, s, Claimed) && w.sessions[s].trigger == Retry {
      AtMoves(w, FailRetryStep(w, s, retry), FailRetry(s, retry), Failing(w.sessions[s].retryRun, retry));
    } else {
      StayMoves(w, w, FailRetry(s, retry));
    }
  }

  lemma NoAdaptersMoves(w: World, s: nat)
    ensures SessionMoves(w, NoAdaptersStep(w, s), NoAdapters(s))
  {
    hide SessionMoves, FinishRun;
    if IsReviewing(w, s) {
      AtMoves(w, NoAdaptersStep(w, s), NoAdapters(s), Returned(w.sessions[s].stage.run));
    } else {
      StayMoves(w, w, NoAdapters(s));
    }
  }

  lemma CheckMoves(w: World, s: nat)
    ensures SessionMoves(w, CheckStep(w, s), Check(s))
  {
    hide SessionMoves, FinishRun;
    if IsReviewing(w, s) {
      AtMoves(w, CheckStep(w, s), Check(s), if HeadIs(w.db, w.sessions[s]) then Checked(w.sessions[s].stage.run) else Outdated);
    } else {
      StayMoves(w, w, Check(s));
    }
  }

  lemma EmptyMoves(w: World, s: nat)
    ensures SessionMoves(w, EmptyStep(w, s), Empty(s)) && SessionMoves(w, AdvanceStep(w, s), Advance(s))
  {
    hide SessionMoves, FinishRun, MarkReviewed;
    if s in w.sessions && w.sessions[s].stage.Checked? {
      AtMoves(w, EmptyStep(w, s), Empty(s), Emptied(w.sessions[s].stage.run));
    } else {
      StayMoves(w, w, Empty(s));
    }
    if s in w.sessions && w.sessions[s].stage.Emptied? {
      AtMoves(w, AdvanceStep(w, s), Advance(s), Returned(w.sessions[s].stage.run));
    } else {
      StayMoves(w, w, Advance(s));
    }
  }

  lemma BreakMoves(w: World, s: nat, retry: bool)
    ensures SessionMoves(w, BreakStep(w, s, retry), Break(s, retry))
  {
    hide SessionMoves, FinishRun;
    if s !in w.sessions {
      StayMoves(w, w, Break(s, retry));
    } else if w.sessions[s].stage == Claimed {
      AtMoves(w, BreakStep(w, s, retry), Break(s, retry), Failing(None, retry));
    } else {
      BreakMovesOn(w, s, retry);
    }
  }

  lemma BreakMovesOn(w: World, s: nat, retry: bool)
    requires s in w.sessions && w.sessions[s].stage != Claimed
    ensures SessionMoves(w, BreakStep(w, s, retry), Break(s, retry))
  {
    hide SessionMoves, FinishRun;
    var stage := w.sessions[s].stage;
    if stage.Reviewing? || stage.Retrying? || stage.Checked? || stage.Emptied? {
      AtMoves(w, BreakStep(w, s, retry), Break(s, retry), Failing(Some(stage.run), retry));
    } else {
      StayMoves(w, w, Break(s, retry));
    }
  }

  lemma TimeOutMoves(w: World, s: nat)
    ensures SessionMoves(w, TimeOutStep(w, s), TimeOut(s))
  {
    hide SessionMoves, BreakRunsOf;
    if s in w.sessions && (w.sessions[s].stage.Reviewing? || w.sessions[s].stage.Retrying?) {
      AtMoves(w, TimeOutStep(w, s), TimeOut(s), Failing(None, true));
    } else {
      StayMoves(w, w, TimeOut(s));
    }
  }

  lemma CommitSessions(w: World, s: nat)
    requires s in w.sessions && (w.sessions[s].stage.Reviewing? || w.sessions[s].stage.Retrying?)
    ensures var x := w.sessions[s];
      CommitStep(w, s).sessions ==
        if !LeaseLives(w.db, x.process) then w.sessions - {s}
        else w.sessions[s := x.(stage := if HeadIs(w.db, x) then Returned(x.stage.run) else Outdated)]
  {
    hide CommitReview;
    CommitExactly(w.db, w.sessions[s].stage.run, w.sessions[s].pr, w.sessions[s].head, w.sessions[s].process);
  }

  lemma CommitMoves(w: World, s: nat)
    ensures SessionMoves(w, CommitStep(w, s), Commit(s))
  {
    hide SessionMoves, LeaseLives, HeadIs;
    if s in w.sessions && (w.sessions[s].stage.Reviewing? || w.sessions[s].stage.Retrying?) {
      CommitSessions(w, s);
      hide CommitStep;
      var x := w.sessions[s];
      if LeaseLives(w.db, x.process) {
        AtMoves(w, CommitStep(w, s), Commit(s), if HeadIs(w.db, x) then Returned(x.stage.run) else Outdated);
      } else {
        EndMoves(w, CommitStep(w, s), Commit(s));
      }
    } else {
      StayMoves(w, w, Commit(s));
    }
  }

  lemma EndsMove(w: World, s: nat, cause: Cause)
    ensures SessionMoves(w, RefuseStep(w, s, cause), Refuse(s, cause))
    ensures SessionMoves(w, ReplaceStep(w, s), Replace(s))
  {
    hide SessionMoves, MarkCanceled, ReplaceStale;
    if In(w, s, Claimed) && cause in {ClosedPr, DisabledRepo, NoVendor} {
      EndMoves(w, RefuseStep(w, s, cause), Refuse(s, cause));
    } else {
      StayMoves(w, w, Refuse(s, cause));
    }
    if In(w, s, Outdated) {
      EndMoves(w, ReplaceStep(w, s), Replace(s));
    } else {
      StayMoves(w, w, Replace(s));
    }
  }

  lemma ReportsMove(w: World, s: nat)
    ensures SessionMoves(w, ReportDoneStep(w, s), ReportDone(s))
    ensures SessionMoves(w, ReportFailedStep(w, s), ReportFailed(s))
    ensures SessionMoves(w, End(w, s), Crash(s))
  {
    hide SessionMoves, MarkDone, MarkFailed;
    if s in w.sessions && w.sessions[s].stage.Returned? {
      EndMoves(w, ReportDoneStep(w, s), ReportDone(s));
    } else {
      StayMoves(w, w, ReportDone(s));
    }
    if s in w.sessions && w.sessions[s].stage.Failing? {
      EndMoves(w, ReportFailedStep(w, s), ReportFailed(s));
    } else {
      StayMoves(w, w, ReportFailed(s));
    }
    if s in w.sessions {
      EndMoves(w, End(w, s), Crash(s));
    } else {
      assert End(w, s).sessions == w.sessions;
      StayMoves(w, End(w, s), Crash(s));
    }
  }

  lemma ActMoves(w: World, step: Step)
    requires OfSession(step)
    ensures SessionMoves(w, WorkerAct(w, step), step)
  {
    hide SessionMoves, RefuseStep, OutdateStep, StartReviewStep, StartRetryStep, NoAdaptersStep, CheckStep;
    hide SkipRetryStep, FailRetryStep, EmptyStep, AdvanceStep, BreakStep, TimeOutStep, CommitStep, ReplaceStep;
    hide ReportDoneStep, ReportFailedStep, End;
    match step
    case Refuse(s, cause) => EndsMove(w, s, cause);
    case Outdate(s) => OutdateMoves(w, s);
    case StartReview(s) => StartReviewMoves(w, s);
    case StartRetry(s) => StartRetryMoves(w, s);
    case SkipRetry(s) => RetryMoves(w, s, false);
    case FailRetry(s, retry) => RetryMoves(w, s, retry);
    case NoAdapters(s) => NoAdaptersMoves(w, s);
    case Check(s) => CheckMoves(w, s);
    case Empty(s) => EmptyMoves(w, s);
    case Advance(s) => EmptyMoves(w, s);
    case Break(s, retry) => BreakMoves(w, s, retry);
    case TimeOut(s) => TimeOutMoves(w, s);
    case Commit(s) => CommitMoves(w, s);
    case Replace(s) => EndsMove(w, s, ClosedPr);
    case ReportDone(s) => ReportsMove(w, s);
    case ReportFailed(s) => ReportsMove(w, s);
    case Crash(s) => ReportsMove(w, s);
  }

  lemma SameSessions(w: World, w': World, w'': World, step: Step)
    requires OfSession(step) && SessionMoves(w, w', step) && w''.sessions == w'.sessions
    ensures SessionMoves(w, w'', step)
  {
    hide Leads, OfSession;
  }

  // Where a worker's step leads its session.
  lemma SessionFate(w: World, step: Step)
    requires OfSession(step)
    ensures SessionMoves(w, Next(w, step), step)
  {
    ActRows(w, step);
    ActMoves(w, step);
    hide SessionMoves, WorkerAct, Next, Act;
    SameSessions(w, WorkerAct(w, step), Next(w, step), step);
  }

  // A claim starts a session for the first ready job, as the job was when claimed;
  // everybody else leaves the sessions alone.
  lemma NewSession(w: World, step: Step)
    requires !OfSession(step)
    ensures var claimed := step.ClaimBy? && step.process < w.db.nextProcess
                           && First(w.db.jobs, w.db.now, w.db.nextJob).Some?;
      if claimed then
        var j := First(w.db.jobs, w.db.now, w.db.nextJob).value;
        var job := w.db.jobs[j];
        Next(w, step).sessions == w.sessions[w.nextSession :=
          Session(step.process, j, job.pr, job.head, job.trigger, job.retryRun, Claimed)]
      else Next(w, step).sessions == w.sessions
  {
    ActRows(w, step);
    hide First, Next, RowsAfter;
  }
}
