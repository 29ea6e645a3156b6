// What gets a job on its way, and that nothing else is needed for it to end.
module QueueProgress {
  import opened Text
  import opened JobQueue
  import opened QueueRows
  import opened WorkerProtocol
  import opened QueueSafety
  import opened QueueSteps
  import opened QueueWork
  import opened QueueTheorems
  import opened QueueGuarantees

  // ------------------------------------------------------- runs one after another

  lemma {:induction false} RunStepsConcat(w: World, a: seq<Step>, b: seq<Step>)
    ensures RunSteps(w, a + b) == RunSteps(RunSteps(w, a), b)
    decreases |a|
  {
    hide Next;
    if a == [] {
      ConcatNone(b);
    } else {
      ConcatTail(a, b);
      RunStepsConcat(Next(w, a[0]), a[1..], b);
    }
  }

  lemma {:induction false} UndisturbedConcat(w: World, a: seq<Step>, b: seq<Step>, j: nat)
    requires Undisturbed(w, a, j) && Undisturbed(RunSteps(w, a), b, j)
    ensures Undisturbed(w, a + b, j)
    decreases |a|
  {
    hide Next, Restarts;
    if a == [] {
      ConcatNone(b);
    } else {
      ConcatTail(a, b);
      UndisturbedConcat(Next(w, a[0]), a[1..], b, j);
    }
  }

  lemma OneStep(w: World, step: Step)
    ensures RunSteps(w, [step]) == Next(w, step)
  {
    hide Next;
    assert [step][1..] == [];
  }

  lemma OneUndisturbed(w: World, step: Step, j: nat)
    requires j in w.db.jobs && !Ended(w.db.jobs[j]) && j in Next(w, step).db.jobs && !step.Recover?
    ensures Undisturbed(w, [step], j)
  {
    hide Next;
    assert [step][1..] == [];
  }

  // ------------------------------------------------------------ what a session does

  // How many more steps a session can take.
  function Rank(stage: Stage): nat {
    match stage
    case Claimed => 5
    case Reviewing(_) => 4
    case Retrying(_) => 4
    case Checked(_) => 3
    case Emptied(_) => 2
    case _ => 1
  }

  // The session is as it was, or further on, or gone.
  predicate GoesOn(sessions: Sessions, sessions': Sessions, s: nat) {
    s in sessions' ==>
      s in sessions
      && (sessions'[s] == sessions[s]
          || (sessions'[s] == sessions[s].(stage := sessions'[s].stage)
              && Rank(sessions'[s].stage) < Rank(sessions[s].stage)))
  }

  lemma ReviewGoesOn(w: World, t: nat, s: nat, retry: bool)
    ensures GoesOn(w.sessions, OutdateStep(w, t).sessions, s) && GoesOn(w.sessions, StartReviewStep(w, t).sessions, s)
    ensures GoesOn(w.sessions, StartRetryStep(w, t).sessions, s) && GoesOn(w.sessions, SkipRetryStep(w, t).sessions, s)
    ensures GoesOn(w.sessions, FailRetryStep(w, t, retry).sessions, s)
  {
    hide Retryable;
  }

  lemma EmptyGoesOn(w: World, t: nat, s: nat)
    ensures GoesOn(w.sessions, NoAdaptersStep(w, t).sessions, s) && GoesOn(w.sessions, CheckStep(w, t).sessions, s)
    ensures GoesOn(w.sessions, EmptyStep(w, t).sessions, s) && GoesOn(w.sessions, AdvanceStep(w, t).sessions, s)
  {
    hide AtHead;
  }

  lemma BreakGoesOn(w: World, t: nat, s: nat, retry: bool)
    ensures GoesOn(w.sessions, BreakStep(w, t, retry).sessions, s) && GoesOn(w.sessions, TimeOutStep(w, t).sessions, s)
  {
  }

  lemma CommitGoesOn(w: World, t: nat, s: nat)
    ensures GoesOn(w.sessions, CommitStep(w, t).sessions, s)
  {
    hide AtHead, Live;
  }

  lemma EndGoesOn(w: World, t: nat, s: nat, cause: Cause)
    ensures GoesOn(w.sessions, RefuseStep(w, t, cause).sessions, s) && GoesOn(w.sessions, ReplaceStep(w, t).sessions, s)
    ensures GoesOn(w.sessions, ReportDoneStep(w, t).sessions, s)
    ensures GoesOn(w.sessions, ReportFailedStep(w, t).sessions, s)
  {
    hide ReplaceStale, Pow2;
  }

  lemma ClaimGoesOn(w: World, p: nat, s: nat)
    requires s != w.nextSession
    ensures GoesOn(w.sessions, ClaimStep(w, p).sessions, s)
  {
    hide First;
  }

  lemma WorkerGoesOn(w: World, step: Step, s: nat)
    requires OfWorker(step) && (step.ClaimBy? ==> s != w.nextSession)
    ensures GoesOn(w.sessions, WorkerAct(w, step).sessions, s)
  {
    hide GoesOn, ClaimStep, RefuseStep, OutdateStep, StartReviewStep, StartRetryStep, NoAdaptersStep;
    hide CheckStep, EmptyStep, AdvanceStep, BreakStep, TimeOutStep, CommitStep, ReplaceStep, ReportDoneStep;
    hide ReportFailedStep, SkipRetryStep, FailRetryStep;
    match step
    case ClaimBy(p) => ClaimGoesOn(w, p, s);
    case Refuse(t, cause) => EndGoesOn(w, t, s, cause);
    case Outdate(t) => ReviewGoesOn(w, t, s, false);
    case StartReview(t) => ReviewGoesOn(w, t, s, false);
    case StartRetry(t) => ReviewGoesOn(w, t, s, false);
    case SkipRetry(t) => ReviewGoesOn(w, t, s, false);
    case FailRetry(t, retry) => ReviewGoesOn(w, t, s, retry);
    case NoAdapters(t) => EmptyGoesOn(w, t, s);
    case Check(t) => EmptyGoesOn(w, t, s);
    case Empty(t) => EmptyGoesOn(w, t, s);
    case Advance(t) => EmptyGoesOn(w, t, s);
    case Break(t, retry) => BreakGoesOn(w, t, s, retry);
    case TimeOut(t) => BreakGoesOn(w, t, s, false);
    case Commit(t) => CommitGoesOn(w, t, s);
    case Replace(t) => EndGoesOn(w, t, s, Nothing);
    case ReportDone(t) => EndGoesOn(w, t, s, Nothing);
    case ReportFailed(t) => EndGoesOn(w, t, s, Nothing);
    case Crash(t) => Unchanged(w.sessions, t, s);
  }

  // A session is as it was, or further on, or gone, and only a claim adds one.
  lemma SessionGoesOn(w: World, step: Step, s: nat)
    requires step.ClaimBy? ==> s != w.nextSession
    ensures GoesOn(w.sessions, Next(w, step).sessions, s)
  {
    hide GoesOn, Track, RowsAfter, WorkerAct, OfWorker;
    Unchanged(w.sessions, 0, s);
    if OfWorker(step) {
      WorkerGoesOn(w, step, s);
    }
  }

  lemma Unchanged(sessions: Sessions, t: nat, s: nat)
    ensures GoesOn(sessions, sessions, s) && GoesOn(sessions, sessions - {t}, s)
  {
  }

  // The steps of a run that bring a session further on or end it.
  ghost function Acts(w: World, steps: seq<Step>, s: nat): nat
    decreases |steps|
  {
    if steps == [] || s !in w.sessions then 0
    else
      var w' := Next(w, steps[0]);
      (if s in w'.sessions && w'.sessions[s] == w.sessions[s] then 0 else 1) + Acts(w', steps[1..], s)
  }

  // Whatever the schedule, a session is over after at most five steps of its own.
  lemma {:induction false} ActsBounded(w: World, steps: seq<Step>, s: nat)
    requires Inv(w) && s in w.sessions
    ensures Acts(w, steps, s) <= Rank(w.sessions[s].stage) <= 5
    decreases |steps|
  {
    hide Next, Inv;
    if steps != [] {
      assert s < w.nextSession by { SessionsBelow(w); }
      SessionGoesOn(w, steps[0], s);
      StepKeeps(w, steps[0]);
      if s in Next(w, steps[0]).sessions {
        ActsBounded(Next(w, steps[0]), steps[1..], s);
      }
    }
  }

  lemma SessionsBelow(w: World)
    requires Inv(w)
    ensures forall s <- w.sessions :: s < w.nextSession
  {
    hide JobsOk, SessionsOk, HeadsOk, LogOk, BudgetsOk;
  }

  // --------------------------------------------------------------- held jobs

  predicate HoldsJob(w: World, s: nat, j: nat) {
    s in w.sessions && w.sessions[s].job == j && Owns(w.db, j, w.sessions[s].process)
  }

  // A worker is at work on the job, in the name of the process that owns it.
  ghost predicate Held(w: World, j: nat) {
    exists s :: HoldsJob(w, s, j)
  }

  lemma HeldIsRunning(w: World, s: nat, j: nat)
    requires Inv(w) && HoldsJob(w, s, j)
    ensures w.db.jobs[j].status == Running
  {
    hide SessionsOk, HeadsOk, LogOk, BudgetsOk, OneRowPerHead;
    assert JobOk(w.db.jobs[j], w.db.nextProcess);
  }

  // How a session can end, failing if it has not got any further.
  function Closing(s: nat, stage: Stage, retry: bool): seq<Step> {
    match stage
    case Outdated => [Replace(s)]
    case Returned(_) => [ReportDone(s)]
    case Failing(_, _) => [ReportFailed(s)]
    case _ => [Break(s, retry), ReportFailed(s)]
  }

  // The job has been given back for another attempt, or it is over.
  predicate GivenBack(before: Job, after: Job) {
    Ended(after) || (after.status == Queued && after.attempts == before.attempts && before.attempts < MAX_ATTEMPTS)
  }

  lemma ReportGivesBack(w: World, s: nat, j: nat)
    requires HoldsJob(w, s, j) && w.db.jobs[j].status == Running
    requires w.sessions[s].stage.Returned? || w.sessions[s].stage.Failing?
    ensures var step := if w.sessions[s].stage.Returned? then ReportDone(s) else ReportFailed(s);
      var w' := Next(w, step);
      && j in w'.db.jobs && GivenBack(w.db.jobs[j], w'.db.jobs[j])
      && w'.db.nextProcess == w.db.nextProcess
  {
    hide Track, Pow2;
  }

  lemma ReplaceGivesBack(w: World, s: nat, j: nat)
    requires Inv(w) && HoldsJob(w, s, j) && w.db.jobs[j].status == Running && w.sessions[s].stage.Outdated?
    ensures var w' := Next(w, Replace(s));
      && j in w'.db.jobs && GivenBack(w.db.jobs[j], w'.db.jobs[j])
      && w'.db.nextProcess == w.db.nextProcess
  {
    hide SessionsOk, HeadsOk, LogOk, BudgetsOk, Track, EnqueueHead, JobsMove, JobsOk, OnlyEnqueued;
    var process := w.sessions[s].process;
    var db1 := CancelHeld(w.db, j, process);
    var job := w.db.jobs[j];
    CancelHeldMoves(w.db, j, process);
    MovesOk(w.db, db1, HeldBy(w.db, j, process), false);
    ReplaceRows(w.db, j, process);
    if job.pr in w.db.prs && w.db.prs[job.pr].head != "" && w.db.prs[job.pr].head != job.head {
      HeadElsewhere(db1, j, job.pr, w.db.prs[job.pr].head, if job.trigger == Auto then Auto else Manual, job.priority);
      HeadKeepsJob(db1, j, job.pr, w.db.prs[job.pr].head, if job.trigger == Auto then Auto else Manual, job.priority);
    }
  }

  lemma HeadKeepsJob(db: Rows, j: nat, pr: nat, head: string, trigger: Trigger, priority: int)
    requires JobsOk(db.jobs, db.nextJob, db.nextProcess) && j in db.jobs
    ensures j in EnqueueHead(db, pr, head, trigger, priority).jobs
  {
    hide JobsOk, LookUp;
  }

  lemma BreakFails(w: World, s: nat, j: nat, retry: bool)
    requires HoldsJob(w, s, j)
    requires !w.sessions[s].stage.Outdated? && !w.sessions[s].stage.Returned? && !w.sessions[s].stage.Failing?
    ensures var w' := Next(w, Break(s, retry));
      && HoldsJob(w', s, j) && w'.sessions[s].stage.Failing? && w'.db.jobs == w.db.jobs
      && w'.db.nextProcess == w.db.nextProcess
  {
    hide Track, BreakStep;
    BreakIs(w, s, retry);
  }

  lemma BreakIs(w: World, s: nat, retry: bool)
    requires s in w.sessions
    requires !w.sessions[s].stage.Outdated? && !w.sessions[s].stage.Returned? && !w.sessions[s].stage.Failing?
    ensures var w' := BreakStep(w, s, retry);
      && s in w'.sessions && w'.sessions[s].job == w.sessions[s].job && w'.sessions[s].process == w.sessions[s].process
      && w'.sessions[s].stage.Failing? && w'.db.jobs == w.db.jobs && w'.db.nextProcess == w.db.nextProcess
  {
  }

  // A job that a worker holds can always be given back or ended in two steps of
  // that worker, wherever it is.
  lemma HeldIsGivenBack(w: World, s: nat, j: nat, retry: bool)
    requires Inv(w) && HoldsJob(w, s, j)
    ensures var steps := Closing(s, w.sessions[s].stage, retry);
      var w' := RunSteps(w, steps);
      && |steps| <= 2 && Undisturbed(w, steps, j)
      && j in w'.db.jobs && GivenBack(w.db.jobs[j], w'.db.jobs[j])
      && w'.db.nextProcess == w.db.nextProcess
  {
    hide Next, Inv, HoldsJob, GivenBack, RunSteps, Undisturbed;
    HeldIsRunning(w, s, j);
    HoldsSession(w, s, j);
    var stage := w.sessions[s].stage;
    if stage.Outdated? {
      ReplaceGivesBack(w, s, j);
      OneStep(w, Replace(s));
      OneUndisturbed(w, Replace(s), j);
    } else if stage.Returned? || stage.Failing? {
      ReportGivesBack(w, s, j);
      var step := if stage.Returned? then ReportDone(s) else ReportFailed(s);
      OneStep(w, step);
      OneUndisturbed(w, step, j);
    } else {
      BreakFails(w, s, j, retry);
      var w1 := Next(w, Break(s, retry));
      HoldsSession(w1, s, j);
      ReportGivesBack(w1, s, j);
      assert [Break(s, retry), ReportFailed(s)] == [Break(s, retry)] + [ReportFailed(s)];
      OneStep(w, Break(s, retry));
      OneStep(w1, ReportFailed(s));
      RunStepsConcat(w, [Break(s, retry)], [ReportFailed(s)]);
      OneUndisturbed(w, Break(s, retry), j);
      OneUndisturbed(w1, ReportFailed(s), j);
      UndisturbedConcat(w, [Break(s, retry)], [ReportFailed(s)], j);
    }
  }

  lemma HoldsSession(w: World, s: nat, j: nat)
    requires HoldsJob(w, s, j)
    ensures s in w.sessions && w.sessions[s].job == j && j in w.db.jobs
  {
  }

  predicate CanEnd(step: Step, s: nat) {
    (step.Refuse? || step.Replace? || step.ReportDone? || step.ReportFailed? || step.Commit? || step.Crash?) && step.s == s
  }

  lemma OthersStay(w: World, step: Step, s: nat)
    requires s in w.sessions && !CanEnd(step, s)
    ensures s in Next(w, step).sessions
  {
    hide Track, RowsAfter, First, CommitReview, CommitRetry, MarkDone, MarkFailed, MarkCanceled, ReplaceStale, AtHead;
    hide Retryable;
  }

  lemma RefuseGivesBack(w: World, s: nat, cause: Cause, j: nat)
    requires HoldsJob(w, s, j) && s !in Next(w, Refuse(s, cause)).sessions
    ensures var w' := Next(w, Refuse(s, cause)); j in w'.db.jobs && GivenBack(w.db.jobs[j], w'.db.jobs[j])
  {
    hide Track;
  }

  lemma LostCommit(w: World, s: nat, j: nat)
    requires HoldsJob(w, s, j) && s !in Next(w, Commit(s)).sessions
    ensures !Live(w.db.leases, w.db.now, w.sessions[s].process) && Next(w, Commit(s)).db.jobs == w.db.jobs
  {
    hide Track, Live, AtHead;
  }

  lemma EndsAt(w: World, s: nat, j: nat)
    requires HoldsJob(w, s, j)
    ensures s !in Next(w, Replace(s)).sessions ==> w.sessions[s].stage.Outdated?
    ensures s !in Next(w, ReportDone(s)).sessions ==> w.sessions[s].stage.Returned?
    ensures s !in Next(w, ReportFailed(s)).sessions ==> w.sessions[s].stage.Failing?
  {
    hide Track, ReplaceStale, MarkDone, MarkFailed;
  }

  // A session that ends has given its job back, unless it crashed or found that
  // its process has lost its lease.
  lemma EndingGivesBack(w: World, step: Step, s: nat, j: nat)
    requires Inv(w) && HoldsJob(w, s, j) && step != Crash(s) && s !in Next(w, step).sessions
    ensures j in Next(w, step).db.jobs
    ensures GivenBack(w.db.jobs[j], Next(w, step).db.jobs[j])
            || (step == Commit(s) && !Live(w.db.leases, w.db.now, w.sessions[s].process))
  {
    hide Inv, Next, HoldsJob, GivenBack, Live, CanEnd;
    HoldsSession(w, s, j);
    HeldIsRunning(w, s, j);
    EndsAt(w, s, j);
    if !CanEnd(step, s) {
      OthersStay(w, step, s);
    } else {
      match step
      case Refuse(t, cause) => assert t == s by { EndsOwn(step, s); } RefuseGivesBack(w, s, cause, j);
      case Replace(t) => assert t == s by { EndsOwn(step, s); } ReplaceGivesBack(w, s, j);
      case ReportDone(t) => assert t == s by { EndsOwn(step, s); } ReportGivesBack(w, s, j);
      case ReportFailed(t) => assert t == s by { EndsOwn(step, s); } ReportGivesBack(w, s, j);
      case Commit(t) => assert t == s by { EndsOwn(step, s); } LostCommit(w, s, j);
      case _ => EndsOwn(step, s);
    }
  }

  lemma EndsOwn(step: Step, s: nat)
    requires CanEnd(step, s)
    ensures step.Refuse? || step.Replace? || step.ReportDone? || step.ReportFailed? || step.Commit? || step.Crash?
    ensures step.s == s
  {
  }

  // ------------------------------------------------------------------ waiting jobs

  // The ready jobs that are claimed before this one.
  function AheadOf(db: Rows, j: nat): set<nat>
    requires j in db.jobs
  {
    set i <- db.jobs | i != j && Ready(db.jobs, db.now, i) && Before(db.jobs, i, j)
  }

  lemma FirstOrAhead(w: World, j: nat)
    requires Inv(w) && Ready(w.db.jobs, w.db.now, j)
    ensures var first := First(w.db.jobs, w.db.now, w.db.nextJob);
      first.Some? && (if AheadOf(w.db, j) == {} then first.value == j else first.value in AheadOf(w.db, j))
  {
    hide SessionsOk, HeadsOk, LogOk, BudgetsOk, OneRowPerHead, First;
    FirstIsFirst(w.db.jobs, w.db.now, w.db.nextJob);
    assert j < w.db.nextJob;
    var first := First(w.db.jobs, w.db.now, w.db.nextJob);
    if first.value != j {
      assert first.value in AheadOf(w.db, j);
    }
  }

  // The claim of a job by a process.
  predicate ClaimedBy(w: World, w': World, j: nat, p: nat)
    requires j in w.db.jobs
  {
    && j in w'.db.jobs && w'.db.jobs[j].status == Running && w'.db.jobs[j].attempts == w.db.jobs[j].attempts + 1
    && HoldsJob(w', w.nextSession, j) && w'.sessions[w.nextSession].process == p
    && w'.sessions[w.nextSession].stage == Claimed
  }

  lemma ClaimNextInTurn(w: World, p: nat, j: nat)
    requires Inv(w) && Ready(w.db.jobs, w.db.now, j) && p < w.db.nextProcess
    ensures var w' := Next(w, ClaimBy(p));
      && w'.db.now == w.db.now && w'.db.nextProcess == w.db.nextProcess
      && w'.nextSession == w.nextSession + 1 && j in w'.db.jobs
      && (if AheadOf(w.db, j) == {} then ClaimedBy(w, w', j, p)
          else w'.db.jobs[j] == w.db.jobs[j] && |AheadOf(w'.db, j)| == |AheadOf(w.db, j)| - 1)
  {
    hide Inv, Next, First, AheadOf, HoldsJob;
    FirstOrAhead(w, j);
    var f := First(w.db.jobs, w.db.now, w.db.nextJob).value;
    ClaimIs(w, p);
    if AheadOf(w.db, j) == {} {
      ClaimHolds(w, p);
    } else {
      assert f != j by { NotAhead(w.db, j); }
      AheadShrinks(w.db, f, j, p);
    }
  }

  lemma ClaimIs(w: World, p: nat)
    requires First(w.db.jobs, w.db.now, w.db.nextJob).Some? && p < w.db.nextProcess
    ensures var w' := Next(w, ClaimBy(p));
      w'.db == Claim(w.db, First(w.db.jobs, w.db.now, w.db.nextJob).value, p) && w'.nextSession == w.nextSession + 1
  {
    hide First, Track;
  }

  lemma ClaimHolds(w: World, p: nat)
    requires First(w.db.jobs, w.db.now, w.db.nextJob).Some? && p < w.db.nextProcess
    ensures var w' := Next(w, ClaimBy(p));
      var f := First(w.db.jobs, w.db.now, w.db.nextJob).value;
      HoldsJob(w', w.nextSession, f) && w'.sessions[w.nextSession].process == p
      && w'.sessions[w.nextSession].stage == Claimed
  {
    hide First, Track;
  }

  lemma NotAhead(db: Rows, j: nat)
    requires j in db.jobs
    ensures j !in AheadOf(db, j)
  {
  }

  lemma AheadShrinks(db: Rows, f: nat, j: nat, p: nat)
    requires j in db.jobs && f in AheadOf(db, j)
    ensures |AheadOf(Claim(db, f, p), j)| == |AheadOf(db, j)| - 1
  {
    assert AheadOf(Claim(db, f, p), j) == AheadOf(db, j) - {f};
  }

  function Claims(ps: seq<nat>): seq<Step> {
    seq(|ps|, i requires 0 <= i < |ps| => ClaimBy(ps[i]))
  }

  lemma ClaimsTail(ps: seq<nat>)
    requires ps != []
    ensures Claims(ps) != [] && Claims(ps)[0] == ClaimBy(ps[0]) && Claims(ps)[1..] == Claims(ps[1..])
  {
  }

  // A ready job is claimed exactly when the ready jobs before it have been: it
  // waits for one claim each, whoever makes them, and the next one is its own.
  lemma {:induction false} ClaimedInTurn(w: World, ps: seq<nat>, j: nat)
    requires Inv(w) && Ready(w.db.jobs, w.db.now, j) && (forall i | 0 <= i < |ps| :: ps[i] < w.db.nextProcess)
    requires |ps| <= |AheadOf(w.db, j)| + 1
    ensures var w' := RunSteps(w, Claims(ps));
      && Undisturbed(w, Claims(ps), j) && w'.db.nextProcess == w.db.nextProcess && j in w'.db.jobs
      && (if |ps| <= |AheadOf(w.db, j)| then w'.db.jobs[j] == w.db.jobs[j]
          else w'.db.jobs[j].status == Running && w'.db.jobs[j].attempts == w.db.jobs[j].attempts + 1
               && w.nextSession + |ps| == w'.nextSession
               && HoldsJob(w', w'.nextSession - 1, j)
               && w'.sessions[w'.nextSession - 1].process == ps[|ps| - 1]
               && w'.sessions[w'.nextSession - 1].stage == Claimed)
    decreases |ps|
  {
    hide Inv, Next, HoldsJob, Claims, AheadOf;
    if ps == [] {
      assert Claims(ps) == [] by { NoClaims(); }
    } else {
      ClaimsTail(ps);
      ClaimNextInTurn(w, ps[0], j);
      StepKeeps(w, ClaimBy(ps[0]));
      var w1 := Next(w, ClaimBy(ps[0]));
      if |AheadOf(w.db, j)| > 0 {
        ClaimedInTurn(w1, ps[1..], j);
      } else {
        assert ps[1..] == [];
        NoClaims();
      }
    }
  }

  lemma NoClaims()
    ensures Claims([]) == []
  {
  }

  // ----------------------------------------------------------------- every job ends

  // Time passes and workers work; nobody crashes, recovers, asks or cancels.
  predicate IsWork(step: Step) {
    step.Tick? || (OfWorker(step) && !step.Crash?)
  }

  predicate AllWork(steps: seq<Step>) {
    forall i | 0 <= i < |steps| :: IsWork(steps[i])
  }

  lemma ClosingIsWork(s: nat, stage: Stage, retry: bool)
    ensures AllWork(Closing(s, stage, retry))
  {
  }

  // What is left of a job, however many of its claims went to recoveries.
  function Remaining(job: Job): nat {
    var room := if job.attempts < MAX_ATTEMPTS then MAX_ATTEMPTS - job.attempts else 0;
    match job.status
    case Queued => 2 * room + 2
    case Running => 2 * room + if room > 0 then 3 else 1
    case _ => 0
  }

  lemma TickMakesReady(w: World, j: nat)
    requires j in w.db.jobs && w.db.jobs[j].status == Queued
    ensures var nextRun := w.db.jobs[j].nextRun;
      var w' := Next(w, Tick(if nextRun > w.db.now then nextRun - w.db.now else 0));
      && w'.db.jobs == w.db.jobs && w'.db.nextProcess == w.db.nextProcess && Ready(w'.db.jobs, w'.db.now, j)
  {
    hide Track;
  }

  // A waiting job is claimed once its time has come and the jobs before it are.
  lemma QueuedIsClaimed(w: World, j: nat, p: nat) returns (steps: seq<Step>, s: nat)
    requires Inv(w) && j in w.db.jobs && w.db.jobs[j].status == Queued && p < w.db.nextProcess
    ensures AllWork(steps) && Undisturbed(w, steps, j)
    ensures var w' := RunSteps(w, steps);
      && j in w'.db.jobs && HoldsJob(w', s, j) && s in w'.sessions
      && w'.sessions[s].stage == Claimed && w'.sessions[s].process == p
      && w'.db.jobs[j].status == Running && w'.db.jobs[j].attempts == w.db.jobs[j].attempts + 1
      && w'.db.nextProcess == w.db.nextProcess
  {
    hide Inv, Next, AheadOf, Undisturbed, RunSteps;
    var nextRun := w.db.jobs[j].nextRun;
    var tick := Tick(if nextRun > w.db.now then nextRun - w.db.now else 0);
    var w1 := Next(w, tick);
    TickMakesReady(w, j);
    StepKeeps(w, tick);
    OneStep(w, tick);
    OneUndisturbed(w, tick, j);
    var ps := seq(|AheadOf(w1.db, j)| + 1, _ => p);
    ClaimedInTurn(w1, ps, j);
    steps := [tick] + Claims(ps);
    RunStepsConcat(w, [tick], Claims(ps));
    UndisturbedConcat(w, [tick], Claims(ps), j);
    s := RunSteps(w, steps).nextSession - 1;
  }

  // However its attempts fail, retryably or not, every job that waits or that a
  // worker holds comes to its end by work alone.
  lemma {:induction false} WorkEnds(w: World, j: nat, p: nat, errors: nat -> bool) returns (steps: seq<Step>)
    requires Inv(w) && j in w.db.jobs && p < w.db.nextProcess
    requires w.db.jobs[j].status == Running ==> Held(w, j)
    ensures AllWork(steps) && Undisturbed(w, steps, j)
    ensures j in RunSteps(w, steps).db.jobs && Ended(RunSteps(w, steps).db.jobs[j])
    decreases Remaining(w.db.jobs[j])
  {
    hide Inv, Next, AheadOf, Undisturbed, RunSteps, HoldsJob, AllWork, Closing;
    var job := w.db.jobs[j];
    steps := [];
    if Ended(job) {
      NothingDone(w, j);
    } else {
      var s: nat;
      if job.status == Running {
        s :| HoldsJob(w, s, j);
        HoldsSession(w, s, j);
        steps := Closing(s, w.sessions[s].stage, errors(job.attempts));
        HeldIsGivenBack(w, s, j, errors(job.attempts));
        ClosingIsWork(s, w.sessions[s].stage, errors(job.attempts));
      } else {
        steps, s := QueuedIsClaimed(w, j, p);
        assert Held(RunSteps(w, steps), j);
      }
      var w1 := RunSteps(w, steps);
      RunKeeps(w, steps);
      var rest := WorkEnds(w1, j, p, errors);
      RunStepsConcat(w, steps, rest);
      UndisturbedConcat(w, steps, rest, j);
      WorkConcat(steps, rest);
      steps := steps + rest;
    }
  }

  lemma NothingDone(w: World, j: nat)
    ensures AllWork([]) && Undisturbed(w, [], j) && RunSteps(w, []) == w
  {
  }

  lemma WorkConcat(a: seq<Step>, b: seq<Step>)
    requires AllWork(a) && AllWork(b)
    ensures AllWork(a + b)
  {
  }

  // ------------------------------------------------------------------ abandoned jobs

  predicate Abandoned(w: World, j: nat) {
    && j in w.db.jobs && w.db.jobs[j].status == Running
    && forall s <- w.sessions :: !HoldsJob(w, s, j)
  }

  // A crash alone leaves the job running, with nobody at work on it.
  lemma CrashAbandons(w: World, s: nat, j: nat)
    requires Inv(w) && HoldsJob(w, s, j) && Live(w.db.leases, w.db.now, w.sessions[s].process)
    ensures Abandoned(Next(w, Crash(s)), j) && Next(w, Crash(s)).db == w.db
  {
    hide HeadsOk, LogOk, BudgetsOk, JobsOk, Track, StageOk, Live;
    HeldIsRunning(w, s, j);
    forall t <- w.sessions | t != s ensures !HoldsJob(w, t, j) {
      assert Apart(w.db, w.sessions[s], w.sessions[t]);
    }
  }

  predicate SameJob(jobs: Jobs, jobs': Jobs, j: nat)
    requires j in jobs
  {
    j in jobs' && jobs'[j] == jobs[j]
  }

  lemma EnqueuedElsewhere(jobs: Jobs, jobs': Jobs, j: nat)
    requires OnlyEnqueued(jobs, jobs') && j in jobs && jobs[j].status == Running
    ensures SameJob(jobs, jobs', j)
  {
  }

  lemma EndsElsewhere(w: World, t: nat, j: nat, cause: Cause)
    requires j in w.db.jobs && !HoldsJob(w, t, j)
    ensures SameJob(w.db.jobs, RefuseStep(w, t, cause).db.jobs, j)
    ensures SameJob(w.db.jobs, ReportDoneStep(w, t).db.jobs, j)
    ensures SameJob(w.db.jobs, ReportFailedStep(w, t).db.jobs, j)
  {
    hide Pow2;
  }

  lemma ReplacesElsewhere(w: World, t: nat, j: nat)
    requires Inv(w) && j in w.db.jobs && w.db.jobs[j].status == Running && !HoldsJob(w, t, j)
    ensures SameJob(w.db.jobs, ReplaceStep(w, t).db.jobs, j)
  {
    hide SessionsOk, HeadsOk, LogOk, BudgetsOk, EnqueueHead, JobsMove, JobsOk, OnlyEnqueued, Owns;
    if In(w, t, Outdated) && w.sessions[t].job in w.db.jobs {
      var x := w.sessions[t];
      var job, db1 := w.db.jobs[x.job], CancelHeld(w.db, x.job, x.process);
      CancelHeldMoves(w.db, x.job, x.process);
      MovesOk(w.db, db1, HeldBy(w.db, x.job, x.process), false);
      if job.pr in w.db.prs {
        var head, trigger := w.db.prs[job.pr].head, if job.trigger == Auto then Auto else Manual;
        EnqueueHeadEnqueues(db1, job.pr, head, trigger, job.priority);
        EnqueuedElsewhere(db1.jobs, EnqueueHead(db1, job.pr, head, trigger, job.priority).jobs, j);
      }
    }
  }

  lemma ClaimsElsewhere(w: World, p: nat, j: nat)
    requires j in w.db.jobs && w.db.jobs[j].status == Running
    ensures SameJob(w.db.jobs, ClaimStep(w, p).db.jobs, j)
  {
    hide First;
  }

  lemma WorkerElsewhere(w: World, step: Step, j: nat)
    requires Inv(w) && Abandoned(w, j) && OfWorker(step)
    ensures SameJob(w.db.jobs, WorkerAct(w, step).db.jobs, j)
  {
    hide Inv, HoldsJob;
    if KeepsJobs(step) {
      JobsStay(w, step);
    } else {
      hide RefuseStep, ReportDoneStep, ReportFailedStep, ReplaceStep, ClaimStep;
      match step
      case ClaimBy(p) => ClaimsElsewhere(w, p, j);
      case Refuse(t, cause) => NotHolding(w, t, j); EndsElsewhere(w, t, j, cause);
      case ReportDone(t) => NotHolding(w, t, j); EndsElsewhere(w, t, j, Nothing);
      case ReportFailed(t) => NotHolding(w, t, j); EndsElsewhere(w, t, j, Nothing);
      case Replace(t) => NotHolding(w, t, j); ReplacesElsewhere(w, t, j);
      case _ =>
    }
  }

  lemma NotHolding(w: World, t: nat, j: nat)
    requires Abandoned(w, j)
    ensures !HoldsJob(w, t, j)
  {
  }

  lemma RequestsElsewhere(db: Rows, pr: nat, head: string, trigger: Trigger, retryRun: Option<nat>, j: nat)
    requires JobsOk(db.jobs, db.nextJob, db.nextProcess) && j in db.jobs && db.jobs[j].status == Running
    ensures SameJob(db.jobs, EnqueueOrRevive(db, pr, head, trigger, retryRun).0.jobs, j)
  {
    hide OneRowPerHead;
  }

  lemma RowsElsewhere(db: Rows, step: Step, j: nat)
    requires JobsOk(db.jobs, db.nextJob, db.nextProcess) && !OfWorker(step) && !step.Recover?
    requires j in db.jobs && db.jobs[j].status == Running
    ensures SameJob(db.jobs, RowsAfter(db, step).jobs, j)
  {
    hide OfWorker, Poll, SyncOne, EnqueueOrRevive, JobsOk, OnlyEnqueued;
    SomeoneActs(step);
    match step
    case PollStep(items, known, limit, auto, skipDraft) =>
      PollEnqueues(db, items, known, limit, auto, skipDraft);
      EnqueuedElsewhere(db.jobs, RowsAfter(db, step).jobs, j);
    case Webhook(item, skipDraft) =>
      SyncOneEnqueues(db, item, true, skipDraft);
      EnqueuedElsewhere(db.jobs, RowsAfter(db, step).jobs, j);
    case RequestReview(pr) =>
      if pr in db.prs {
        RequestsElsewhere(db, pr, db.prs[pr].head, Manual, None, j);
      }
    case RequestRetry(pr, run) =>
      if pr in db.prs {
        RequestsElsewhere(db, pr, db.prs[pr].head, Retry, Some(run), j);
      }
    case _ =>
  }

  lemma NewSessions(w: World, step: Step, s: nat)
    requires s in Next(w, step).sessions && s !in w.sessions
    ensures Next(w, step).sessions[s].job in w.db.jobs
    ensures w.db.jobs[Next(w, step).sessions[s].job].status == Queued
  {
    hide Next, GoesOn;
    if step.ClaimBy? {
      ClaimedSession(w, step.process, s);
    } else {
      SessionGoesOn(w, step, s);
      Absent(w.sessions, Next(w, step).sessions, s);
    }
  }

  lemma ClaimedSession(w: World, p: nat, s: nat)
    requires s in Next(w, ClaimBy(p)).sessions && s !in w.sessions
    ensures Next(w, ClaimBy(p)).sessions[s].job in w.db.jobs
    ensures w.db.jobs[Next(w, ClaimBy(p)).sessions[s].job].status == Queued
  {
    hide Track, First;
  }

  lemma Absent(sessions: Sessions, sessions': Sessions, s: nat)
    requires s !in sessions && GoesOn(sessions, sessions', s)
    ensures s !in sessions'
  {
  }

  lemma StaysAbandoned(w: World, step: Step, j: nat)
    requires Inv(w) && Abandoned(w, j) && !step.Recover?
    ensures SameJob(w.db.jobs, Next(w, step).db.jobs, j) && Abandoned(Next(w, step), j)
  {
    hide Inv, WorkerAct, RowsAfter, OfWorker, Track, Next;
    JobAbandoned(w, step, j);
    SessionsBelow(w);
    var w' := Next(w, step);
    forall s <- w'.sessions ensures !HoldsJob(w', s, j) {
      if s in w.sessions {
        SessionGoesOn(w, step, s);
        NotHolding(w, s, j);
      } else {
        NewSessions(w, step, s);
      }
    }
  }

  lemma JobAbandoned(w: World, step: Step, j: nat)
    requires Inv(w) && Abandoned(w, j) && !step.Recover?
    ensures SameJob(w.db.jobs, Next(w, step).db.jobs, j)
  {
    hide SessionsOk, HeadsOk, LogOk, BudgetsOk, JobsOk, WorkerAct, RowsAfter, OfWorker, Track;
    if OfWorker(step) {
      WorkerElsewhere(w, step, j);
    } else {
      RowsElsewhere(w.db, step, j);
    }
  }

  predicate NoRecovery(steps: seq<Step>) {
    forall i | 0 <= i < |steps| :: !steps[i].Recover?
  }

  // An abandoned job stays as it is, whatever anybody does, until a recovery.
  lemma {:induction false} AbandonedForGood(w: World, steps: seq<Step>, j: nat)
    requires Inv(w) && Abandoned(w, j) && NoRecovery(steps)
    ensures SameJob(w.db.jobs, RunSteps(w, steps).db.jobs, j) && Abandoned(RunSteps(w, steps), j)
    decreases |steps|
  {
    hide Inv, Next;
    if steps != [] {
      StaysAbandoned(w, steps[0], j);
      StepKeeps(w, steps[0]);
      AbandonedForGood(Next(w, steps[0]), steps[1..], j);
    }
  }

  predicate LeadsToEnd(w: World, steps: seq<Step>, j: nat) {
    NoRecovery(steps) && j in RunSteps(w, steps).db.jobs && Ended(RunSteps(w, steps).db.jobs[j])
  }

  // In every state a job can come to its end without a recovery exactly when it
  // is not abandoned.
  lemma EndsUnlessAbandoned(w: World, j: nat, p: nat)
    requires Inv(w) && j in w.db.jobs && p < w.db.nextProcess
    ensures (exists steps :: LeadsToEnd(w, steps, j)) <==> !Abandoned(w, j)
  {
    hide Inv, RunSteps, HoldsJob, Undisturbed;
    if Abandoned(w, j) {
      forall steps ensures !LeadsToEnd(w, steps, j) {
        if NoRecovery(steps) {
          AbandonedForGood(w, steps, j);
        }
      }
    } else {
      assert w.db.jobs[j].status == Running ==> Held(w, j);
      var steps := WorkEnds(w, j, p, _ => true);
      WorkRecoversNothing(steps);
      assert LeadsToEnd(w, steps, j);
    }
  }

  lemma WorkRecoversNothing(steps: seq<Step>)
    requires AllWork(steps)
    ensures NoRecovery(steps)
  {
    forall i | 0 <= i < |steps| ensures !steps[i].Recover? {
      assert IsWork(steps[i]);
    }
  }

  // And a recovery puts every job back whose owner is dead.
  lemma RecoveryReleases(w: World, j: nat)
    requires Inv(w) && j in w.db.jobs && w.db.jobs[j].status == Running
    ensures var job := Next(w, Recover).db.jobs[j];
      if Live(w.db.leases, w.db.now, w.db.jobs[j].owner.value) then job == w.db.jobs[j]
      else job.status == Queued && job.attempts == w.db.jobs[j].attempts
  {
    hide SessionsOk, HeadsOk, LogOk, BudgetsOk, OneRowPerHead, Track, Live;
    assert JobOk(w.db.jobs[j], w.db.nextProcess);
  }
}
