// What holds after any run of workers, processes, polls and people.
module QueueTheorems {
  import opened Text
  import opened JobQueue
  import opened QueueRows
  import opened WorkerProtocol
  import opened QueueSafety
  import opened QueueSteps
  import opened QueueWork

  // ---------------------------------------------------------------- every run

  lemma StartOk()
    ensures Inv(Start())
  {
  }

  lemma WorkerKeeps(w: World, step: Step)
    requires Inv(w) && OfWorker(step)
    ensures Inv(Tracked(w, WorkerAct(w, step)))
  {
    hide Inv, Tracked, ClaimStep, RefuseStep, OutdateStep, StartReviewStep, StartRetryStep, NoAdaptersStep, CheckStep;
    hide SkipRetryStep, FailRetryStep;
    hide EmptyStep, AdvanceStep, BreakStep, TimeOutStep, CommitStep, ReplaceStep, ReportDoneStep, ReportFailedStep;
    hide End;
    match step
    case ClaimBy(p) => ClaimKeeps(w, p);
    case Refuse(s, cause) => RefuseKeeps(w, s, cause);
    case Outdate(s) => OutdateKeeps(w, s);
    case StartReview(s) => StartReviewKeeps(w, s);
    case StartRetry(s) => StartRetryKeeps(w, s);
    case SkipRetry(s) => SkipRetryKeeps(w, s);
    case FailRetry(s, retry) => FailRetryKeeps(w, s, retry);
    case NoAdapters(s) => NoAdaptersKeeps(w, s);
    case Check(s) => CheckKeeps(w, s);
    case Empty(s) => EmptyKeeps(w, s);
    case Advance(s) => AdvanceKeeps(w, s);
    case Break(s, retry) => BreakKeeps(w, s, retry);
    case TimeOut(s) => TimeOutKeeps(w, s);
    case Commit(s) => CommitKeeps(w, s);
    case Replace(s) => ReplaceKeeps(w, s);
    case ReportDone(s) => ReportDoneKeeps(w, s);
    case ReportFailed(s) => ReportFailedKeeps(w, s);
    case Crash(s) => CrashKeeps(w, s);
  }

  lemma OutsideKeeps(w: World, step: Step)
    requires Inv(w) && !OfWorker(step)
    ensures Inv(Next(w, step))
  {
    hide Inv, Next, OfWorker;
    SomeoneActs(step);
    match step
    case RegisterStep => RegisterKeeps(w);
    case Beat(p) => BeatKeeps(w, p);
    case Leave(p) => LeaveKeeps(w, p);
    case Recover => RecoverKeeps(w);
    case Tick(seconds) => TickKeeps(w, seconds);
    case PollStep(items, known, limit, auto, skipDraft) => PollKeeps(w, items, known, limit, auto, skipDraft);
    case Webhook(item, skipDraft) => WebhookKeeps(w, item, skipDraft);
    case RequestReview(pr) => RequestReviewKeeps(w, pr);
    case RequestRetry(pr, run) => RequestRetryKeeps(w, pr, run);
    case CancelReview(pr) => CancelReviewKeeps(w, pr);
    case _ =>
  }

  lemma SomeoneActs(step: Step)
    ensures OfWorker(step) || step.RegisterStep? || step.Beat? || step.Leave? || step.Recover? || step.Tick?
            || step.PollStep? || step.Webhook? || step.RequestReview? || step.RequestRetry? || step.CancelReview?
  {
  }

  lemma StepKeeps(w: World, step: Step)
    requires Inv(w)
    ensures Inv(Next(w, step))
  {
    hide Inv, OfWorker, WorkerAct, RowsAfter, Track;
    if OfWorker(step) {
      WorkerKeeps(w, step);
      assert !step.Recover? by { RecoveryIsOutside(step); }
    } else {
      OutsideKeeps(w, step);
    }
  }

  lemma RecoveryIsOutside(step: Step)
    requires OfWorker(step)
    ensures !step.Recover?
  {
  }

  lemma {:induction false} RunKeeps(w: World, steps: seq<Step>)
    requires Inv(w)
    ensures Inv(RunSteps(w, steps))
    decreases |steps|
  {
    hide Inv, Next;
    if steps != [] {
      StepKeeps(w, steps[0]);
      RunKeeps(Next(w, steps[0]), steps[1..]);
    }
  }

  lemma Reachable(steps: seq<Step>)
    ensures Inv(RunSteps(Start(), steps))
  {
    hide Inv, RunSteps;
    StartOk();
    RunKeeps(Start(), steps);
  }

  // ------------------------------------------------------------ leases and fencing

  predicate SameClock(db: Rows, db': Rows) {
    db'.leases == db.leases && db'.now == db.now && db'.nextProcess == db.nextProcess
  }

  lemma SameIsSame(db: Rows)
    ensures SameClock(db, db)
  {
  }

  lemma ClockKept(db: Rows, db': Rows)
    requires SameClock(db, db')
    ensures LeasesKept(db, db') && db.nextProcess <= db'.nextProcess
  {
  }

  lemma EndsClock(w: World, s: nat, cause: Cause)
    ensures SameClock(w.db, RefuseStep(w, s, cause).db) && SameClock(w.db, ReportDoneStep(w, s).db)
  {
  }

  lemma FailedClock(w: World, s: nat)
    ensures SameClock(w.db, ReportFailedStep(w, s).db)
  {
    hide Pow2;
  }

  lemma ReplaceClock(w: World, s: nat)
    ensures SameClock(w.db, ReplaceStep(w, s).db)
  {
    hide ReplaceStale;
    if s in w.sessions {
      ReplaceRows(w.db, w.sessions[s].job, w.sessions[s].process);
    }
  }

  lemma CommitRows(db: Rows, r: nat, pr: nat, head: string, process: nat)
    ensures SameClock(db, CommitReview(db, r, pr, head, process).0)
  {
    hide Live, AtHead;
  }

  lemma CommitClock(w: World, s: nat)
    ensures SameClock(w.db, CommitStep(w, s).db)
  {
    hide CommitReview, SameClock;
    SameIsSame(w.db);
    if IsReviewing(w, s) {
      var x := w.sessions[s];
      CommitRows(w.db, x.stage.run, x.pr, x.head, x.process);
    }
  }

  lemma RunClock(w: World, s: nat, retry: bool)
    ensures SameClock(w.db, NoAdaptersStep(w, s).db) && SameClock(w.db, CheckStep(w, s).db)
    ensures SameClock(w.db, EmptyStep(w, s).db) && SameClock(w.db, AdvanceStep(w, s).db)
    ensures SameClock(w.db, BreakStep(w, s, retry).db)
  {
    hide AtHead;
  }

  lemma StartClock(w: World, s: nat, p: nat)
    ensures SameClock(w.db, StartReviewStep(w, s).db) && SameClock(w.db, StartRetryStep(w, s).db)
    ensures SameClock(w.db, OutdateStep(w, s).db) && SameClock(w.db, TimeOutStep(w, s).db)
    ensures SameClock(w.db, ClaimStep(w, p).db)
  {
    hide Retryable, First;
  }

  lemma RetryClock(w: World, s: nat, retry: bool)
    ensures SameClock(w.db, SkipRetryStep(w, s).db) && SameClock(w.db, FailRetryStep(w, s, retry).db)
  {
  }

  lemma WorkerClock(w: World, step: Step)
    requires OfWorker(step)
    ensures SameClock(w.db, WorkerAct(w, step).db)
  {
    hide SameClock, ClaimStep, RefuseStep, OutdateStep, StartReviewStep, StartRetryStep, NoAdaptersStep, CheckStep;
    hide SkipRetryStep, FailRetryStep;
    hide EmptyStep, AdvanceStep, BreakStep, TimeOutStep, CommitStep, ReplaceStep, ReportDoneStep, ReportFailedStep;
    SameIsSame(w.db);
    match step
    case ClaimBy(p) => StartClock(w, 0, p);
    case Refuse(s, cause) => EndsClock(w, s, cause);
    case Outdate(s) => StartClock(w, s, 0);
    case StartReview(s) => StartClock(w, s, 0);
    case StartRetry(s) => StartClock(w, s, 0);
    case SkipRetry(s) => RetryClock(w, s, false);
    case FailRetry(s, retry) => RetryClock(w, s, retry);
    case NoAdapters(s) => RunClock(w, s, false);
    case Check(s) => RunClock(w, s, false);
    case Empty(s) => RunClock(w, s, false);
    case Advance(s) => RunClock(w, s, false);
    case Break(s, retry) => RunClock(w, s, retry);
    case TimeOut(s) => StartClock(w, s, 0);
    case Commit(s) => CommitClock(w, s);
    case Replace(s) => ReplaceClock(w, s);
    case ReportDone(s) => EndsClock(w, s, Nothing);
    case ReportFailed(s) => FailedClock(w, s);
    case Crash(s) =>
  }

  lemma RequestClock(db: Rows, pr: nat, run: nat)
    ensures SameClock(db, ReviewRequested(db, pr)) && SameClock(db, RetryRequested(db, pr, run))
  {
    hide EnqueueOrRevive;
    if pr in db.prs {
      RequestRows(db, pr, db.prs[pr].head, Manual, None);
      RequestRows(db, pr, db.prs[pr].head, Retry, Some(run));
    }
  }

  lemma OutsideClock(db: Rows, step: Step)
    requires step.PollStep? || step.Webhook? || step.RequestReview? || step.RequestRetry? || step.CancelReview?
    ensures SameClock(db, RowsAfter(db, step))
  {
    hide SyncAll, SyncOne, ReviewRequested, RetryRequested;
    match step
    case PollStep(items, _, _, auto, skipDraft) => SyncAllSyncs(db, items, auto, skipDraft);
    case Webhook(item, skipDraft) => SyncOneSyncs(db, item, true, skipDraft);
    case RequestReview(pr) => RequestClock(db, pr, 0);
    case RequestRetry(pr, run) => RequestClock(db, pr, run);
    case CancelReview(_) =>
  }

  lemma LeaseClock(db: Rows, p: nat, seconds: nat)
    ensures LeasesKept(db, Register(db)) && LeasesKept(db, Heartbeat(db, p)) && LeasesKept(db, Release(db, p))
    ensures LeasesKept(db, RecoverExpired(db)) && LeasesKept(db, db.(now := db.now + seconds))
  {
  }

  // No step brings an expired or released lease back.
  lemma StepLeases(w: World, step: Step)
    ensures LeasesKept(w.db, Next(w, step).db) && w.db.nextProcess <= Next(w, step).db.nextProcess
  {
    hide Track, WorkerAct, Poll, SyncOne, CancelQueued, ReviewRequested, RetryRequested, SameClock, LeasesKept;
    if OfWorker(step) {
      WorkerClock(w, step);
      ClockKept(w.db, WorkerAct(w, step).db);
    } else if step.Beat? {
      LeaseClock(w.db, step.process, 0);
    } else if step.Leave? {
      LeaseClock(w.db, step.process, 0);
    } else if step.Tick? {
      LeaseClock(w.db, 0, step.seconds);
    } else if step.RegisterStep? || step.Recover? {
      LeaseClock(w.db, 0, 0);
    } else {
      OutsideClock(w.db, step);
      ClockKept(w.db, RowsAfter(w.db, step));
    }
  }

  // A process whose lease has expired or was released never has a live one again.
  lemma {:induction false} ExpiredForGood(w: World, steps: seq<Step>, p: nat)
    requires p < w.db.nextProcess && !Live(w.db.leases, w.db.now, p)
    ensures !Live(RunSteps(w, steps).db.leases, RunSteps(w, steps).db.now, p)
    decreases |steps|
  {
    hide Next, Live;
    if steps != [] {
      StepLeases(w, steps[0]);
      ExpiredForGood(Next(w, steps[0]), steps[1..], p);
    }
  }

  // ------------------------------------------------------------------- the log

  // The runs that are reviewed now and were not, apart from the given one.
  predicate NoneReviewed(runs: Runs, runs': Runs, except: Option<nat>) {
    forall r <- runs' | runs'[r].status == Reviewed :: except == Some(r) || (r in runs && runs[r].status == Reviewed)
  }

  // Findings are inserted, and runs marked as reviewed, by processes with a live
  // lease only.
  predicate LogsFenced(w: World, w': World) {
    || (w'.log == w.log && NoneReviewed(w.db.runs, w'.db.runs, None))
    || (|w'.log| == |w.log| + 1 && w'.log[..|w.log|] == w.log
        && Live(w.db.leases, w.db.now, w'.log[|w.log|].process)
        && NoneReviewed(w.db.runs, w'.db.runs, Some(w'.log[|w.log|].run)))
  }

  lemma SameRunsFenced(w: World, w': World)
    requires w'.log == w.log && w'.db.runs == w.db.runs
    ensures LogsFenced(w, w')
  {
  }

  lemma EndsFenced(w: World, s: nat, cause: Cause, p: nat)
    ensures LogsFenced(w, RefuseStep(w, s, cause)) && LogsFenced(w, ReportDoneStep(w, s))
    ensures LogsFenced(w, ReportFailedStep(w, s)) && LogsFenced(w, ClaimStep(w, p)) && LogsFenced(w, End(w, s))
  {
    hide LogsFenced, Pow2, First;
    SameRunsFenced(w, RefuseStep(w, s, cause));
    SameRunsFenced(w, ReportDoneStep(w, s));
    SameRunsFenced(w, ReportFailedStep(w, s));
    SameRunsFenced(w, ClaimStep(w, p));
    SameRunsFenced(w, End(w, s));
  }

  lemma StaysFenced(w: World, s: nat)
    ensures LogsFenced(w, OutdateStep(w, s)) && LogsFenced(w, StartRetryStep(w, s))
    ensures LogsFenced(w, AdvanceStep(w, s)) && LogsFenced(w, ReplaceStep(w, s))
  {
    hide LogsFenced, Retryable, ReplaceStale;
    if s in w.sessions {
      ReplaceRows(w.db, w.sessions[s].job, w.sessions[s].process);
    }
    SameRunsFenced(w, OutdateStep(w, s));
    SameRunsFenced(w, StartRetryStep(w, s));
    SameRunsFenced(w, AdvanceStep(w, s));
    SameRunsFenced(w, ReplaceStep(w, s));
  }

  lemma RetryFenced(w: World, s: nat, retry: bool)
    ensures LogsFenced(w, SkipRetryStep(w, s)) && LogsFenced(w, FailRetryStep(w, s, retry))
  {
    hide LogsFenced;
    SameRunsFenced(w, SkipRetryStep(w, s));
    SameRunsFenced(w, FailRetryStep(w, s, retry));
  }

  lemma StartFenced(w: World, s: nat)
    ensures LogsFenced(w, StartReviewStep(w, s)) && LogsFenced(w, NoAdaptersStep(w, s))
  {
  }

  lemma CheckFenced(w: World, s: nat)
    ensures LogsFenced(w, CheckStep(w, s)) && LogsFenced(w, EmptyStep(w, s))
  {
    hide AtHead;
  }

  lemma BreakFenced(w: World, s: nat, retry: bool)
    ensures LogsFenced(w, BreakStep(w, s, retry)) && LogsFenced(w, TimeOutStep(w, s))
  {
  }

  lemma CommitFenced(w: World, s: nat)
    ensures LogsFenced(w, CommitStep(w, s))
  {
    hide Live;
  }

  lemma WorkerFenced(w: World, step: Step)
    requires OfWorker(step)
    ensures LogsFenced(w, WorkerAct(w, step))
  {
    hide LogsFenced, ClaimStep, RefuseStep, OutdateStep, StartReviewStep, StartRetryStep, NoAdaptersStep, CheckStep;
    hide SkipRetryStep, FailRetryStep;
    hide EmptyStep, AdvanceStep, BreakStep, TimeOutStep, CommitStep, ReplaceStep, ReportDoneStep, ReportFailedStep;
    hide End;
    match step
    case ClaimBy(p) => EndsFenced(w, 0, Nothing, p);
    case Refuse(s, cause) => EndsFenced(w, s, cause, 0);
    case Outdate(s) => StaysFenced(w, s);
    case StartReview(s) => StartFenced(w, s);
    case StartRetry(s) => StaysFenced(w, s);
    case SkipRetry(s) => RetryFenced(w, s, false);
    case FailRetry(s, retry) => RetryFenced(w, s, retry);
    case NoAdapters(s) => StartFenced(w, s);
    case Check(s) => CheckFenced(w, s);
    case Empty(s) => CheckFenced(w, s);
    case Advance(s) => StaysFenced(w, s);
    case Break(s, retry) => BreakFenced(w, s, retry);
    case TimeOut(s) => BreakFenced(w, s, false);
    case Commit(s) => CommitFenced(w, s);
    case Replace(s) => StaysFenced(w, s);
    case ReportDone(s) => EndsFenced(w, s, Nothing, 0);
    case ReportFailed(s) => EndsFenced(w, s, Nothing, 0);
    case Crash(s) => EndsFenced(w, s, Nothing, 0);
  }

  lemma OutsideReviews(db: Rows, step: Step)
    requires !OfWorker(step)
    ensures NoneReviewed(db.runs, RowsAfter(db, step).runs, None)
  {
    hide OfWorker, SyncAll, SyncOne, EnqueueOrRevive, Live, RecoveredJob;
    SomeoneActs(step);
    match step
    case PollStep(items, _, _, auto, skipDraft) => SyncAllSyncs(db, items, auto, skipDraft);
    case Webhook(item, skipDraft) => SyncOneSyncs(db, item, true, skipDraft);
    case RequestReview(pr) =>
      if pr in db.prs {
        RequestRows(db, pr, db.prs[pr].head, Manual, None);
      }
    case RequestRetry(pr, run) =>
      if pr in db.prs {
        RequestRows(db, pr, db.prs[pr].head, Retry, Some(run));
      }
    case _ =>
  }

  lemma StepFenced(w: World, step: Step)
    ensures LogsFenced(w, Next(w, step))
  {
    hide Track, WorkerAct, RowsAfter, NoneReviewed, Live, OfWorker;
    if OfWorker(step) {
      WorkerFenced(w, step);
    } else {
      OutsideReviews(w.db, step);
    }
  }
}
