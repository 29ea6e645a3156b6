// The steps of a worker on its job keep the invariant.
module QueueWork {
  import opened Text
  import opened JobQueue
  import opened QueueRows
  import opened WorkerProtocol
  import opened QueueSafety
  import opened QueueSteps

  // What a step leads to, with the history brought up to date.
  function Tracked(w: World, w': World): World {
    w'.(budgets := Track(w.budgets, w.db.jobs, w'.db.jobs, false))
  }

  lemma IdleKeeps(w: World)
    requires Inv(w)
    ensures Inv(Tracked(w, w))
  {
    hide SessionsOk, HeadsOk, LogOk, BudgetsOk, JobsMove, Track, JobsOk;
    SameMoves(w.db, {}, false);
    EnqueueStepKeeps(w, w.db);
  }

  // --------------------------------------------------------------------- claiming

  lemma NobodyHolds(w: World, j: nat)
    requires Inv(w) && j in w.db.jobs && w.db.jobs[j].status == Queued
    ensures forall s <- w.sessions | w.sessions[s].job == j :: !Live(w.db.leases, w.db.now, w.sessions[s].process)
  {
    hide HeadsOk, LogOk, BudgetsOk, OneRowPerHead, Live, StageOk, Apart;
    assert JobOk(w.db.jobs[j], w.db.nextProcess);
    forall s <- w.sessions | w.sessions[s].job == j ensures !Live(w.db.leases, w.db.now, w.sessions[s].process) {
      assert SessionOk(w.db, w.sessions[s]);
    }
  }

  lemma NewSession(db: Rows, sessions: Sessions, s: nat, x: Session)
    requires SessionsOk(db, sessions) && s !in sessions && SessionOk(db, x) && Writes(x.stage).None?
    requires forall t <- sessions | sessions[t].job == x.job :: !Live(db.leases, db.now, sessions[t].process)
    ensures SessionsOk(db, sessions[s := x])
  {
    hide SessionOk, Live;
    var sessions' := sessions[s := x];
    forall t, u | t in sessions' && u in sessions' && t != u ensures Apart(db, sessions'[t], sessions'[u]) {
      if t != s && u != s {
        assert Apart(db, sessions[t], sessions[u]);
      }
    }
  }

  lemma ClaimKeeps(w: World, process: nat)
    requires Inv(w)
    ensures Inv(Tracked(w, ClaimStep(w, process)))
  {
    hide HeadsOk, LogOk, BudgetsOk, Track, OneRowPerHead, SessionsOk, AllLegal, First, Live;
    IdleKeeps(w);
    var first := First(w.db.jobs, w.db.now, w.db.nextJob);
    if first.Some? && process < w.db.nextProcess {
      var j := first.value;
      var job, db' := w.db.jobs[j], Claim(w.db, j, process);
      ClaimMoves(w.db, j, process);
      BudgetsKept(w.budgets, w.db.jobs, db'.jobs, false);
      var x := Session(process, j, job.pr, job.head, job.trigger, job.retryRun, Claimed);
      NobodyHolds(w, j);
      assert forall s <- w.sessions :: Spares(w.db, db', {}, {}, w.sessions[s]);
      SessionsFrame(w.db, db', {}, {}, w.sessions);
      NewSession(db', w.sessions, w.nextSession, x);
      HeadsFrame(w.db.prs, w.db.runs, w.sessions, db'.prs, db'.runs, w.sessions[w.nextSession := x], {});
    }
  }

  // ------------------------------------------------------- a session that ends

  lemma EndKeeps(w: World, s: nat, db': Rows, jobs: set<nat>)
    requires Inv(w) && s in w.sessions && JobsMove(w.db, db', jobs, false)
    requires db' == w.db.(jobs := db'.jobs, nextJob := db'.nextJob)
    requires jobs <= HeldBy(w.db, w.sessions[s].job, w.sessions[s].process)
    ensures Inv(Tracked(w, End(w.(db := db'), s)))
  {
    hide SessionsOk, HeadsOk, LogOk, BudgetsOk, JobsMove, JobsOk, Track;
    QuietWork(w, s, db', None, jobs, {});
  }

  lemma CrashKeeps(w: World, s: nat)
    requires Inv(w)
    ensures Inv(Tracked(w, End(w, s)))
  {
    hide SessionsOk, HeadsOk, LogOk, BudgetsOk, JobsMove, JobsOk, Track;
    if s in w.sessions {
      SameMoves(w.db, {}, false);
      EndKeeps(w, s, w.db, {});
    } else {
      IdleKeeps(w);
      assert w.sessions - {s} == w.sessions;
    }
  }

  lemma RefuseKeeps(w: World, s: nat, cause: Cause)
    requires Inv(w)
    ensures Inv(Tracked(w, RefuseStep(w, s, cause)))
  {
    hide SessionsOk, HeadsOk, LogOk, BudgetsOk, JobsMove, JobsOk, Track;
    IdleKeeps(w);
    CrashKeeps(w, s);
    if s in w.sessions && MarkCanceled(w.db, w.sessions[s].job, cause, w.sessions[s].process).Ok? {
      var j, p := w.sessions[s].job, w.sessions[s].process;
      CanceledMoves(w.db, j, cause, p);
      EndKeeps(w, s, MarkCanceled(w.db, j, cause, p).value, {j});
    }
  }

  lemma ReportDoneKeeps(w: World, s: nat)
    requires Inv(w)
    ensures Inv(Tracked(w, ReportDoneStep(w, s)))
  {
    hide SessionsOk, HeadsOk, LogOk, BudgetsOk, JobsMove, JobsOk, Track;
    IdleKeeps(w);
    CrashKeeps(w, s);
    if s in w.sessions && w.sessions[s].stage.Returned? {
      var j, p, r := w.sessions[s].job, w.sessions[s].process, w.sessions[s].stage.run;
      if MarkDone(w.db, j, r, p).Ok? {
        DoneMoves(w.db, j, r, p);
        EndKeeps(w, s, MarkDone(w.db, j, r, p).value, {j});
      }
    }
  }

  lemma ReportFailedKeeps(w: World, s: nat)
    requires Inv(w)
    ensures Inv(Tracked(w, ReportFailedStep(w, s)))
  {
    hide SessionsOk, HeadsOk, LogOk, BudgetsOk, JobsMove, JobsOk, Track, Pow2;
    IdleKeeps(w);
    CrashKeeps(w, s);
    if s in w.sessions && w.sessions[s].stage.Failing? {
      var j, p, stage := w.sessions[s].job, w.sessions[s].process, w.sessions[s].stage;
      if MarkFailed(w.db, j, stage.broken, stage.retry, p).Ok? {
        FailedMoves(w.db, j, stage.broken, stage.retry, p);
        EndKeeps(w, s, MarkFailed(w.db, j, stage.broken, stage.retry, p).value, {j});
      }
    }
  }

  lemma ReplaceRows(db: Rows, j: nat, process: nat)
    ensures var db' := ReplaceStale(db, j, process); db' == db.(jobs := db'.jobs, nextJob := db'.nextJob)
  {
    hide LookUp, Revivable, NewJob, Revived;
  }

  lemma ReplaceKeeps(w: World, s: nat)
    requires Inv(w)
    ensures Inv(Tracked(w, ReplaceStep(w, s)))
  {
    hide SessionsOk, HeadsOk, LogOk, BudgetsOk, JobsMove, JobsOk, Track, ReplaceStale;
    IdleKeeps(w);
    if In(w, s, Outdated) {
      var j, p := w.sessions[s].job, w.sessions[s].process;
      ReplaceMoves(w.db, j, p);
      ReplaceRows(w.db, j, p);
      EndKeeps(w, s, ReplaceStale(w.db, j, p), HeldBy(w.db, j, p));
    }
  }

  // -------------------------------------------------- a session that carries on

  lemma AtSession(w: World, s: nat)
    requires Inv(w) && s in w.sessions
    ensures SessionOk(w.db, w.sessions[s])
  {
    hide HeadsOk, LogOk, BudgetsOk, JobsOk, SessionOk;
  }

  // Only the stage of the session changes, and perhaps the runs.
  lemma StageKeeps(w: World, s: nat, db': Rows, stage: Stage, runs: set<nat>)
    requires Inv(w) && s in w.sessions
    requires db' == w.db.(runs := db'.runs, nextRun := db'.nextRun)
    requires RunsKept(w.db.runs, db'.runs, runs) && RunsOk(db'.runs, db'.nextRun)
    requires forall r <- runs :: Writes(w.sessions[s].stage) == Some(r)
    requires forall r <- db'.runs | db'.runs[r].status == Reviewed :: r in w.db.runs && w.db.runs[r].status == Reviewed
    requires StageOk(db'.runs, w.sessions[s].(stage := stage))
    requires Writes(stage).Some? ==>
      Writes(stage) == Writes(w.sessions[s].stage) || Writes(stage).value !in w.db.runs
    ensures Inv(Tracked(w, At(w.(db := db'), s, stage)))
  {
    hide SessionsOk, HeadsOk, LogOk, BudgetsOk, JobsMove, JobsOk, Track, RunsKept, StageOk;
    AtSession(w, s);
    SameMoves(w.db, {}, false);
    assert JobsMove(w.db, db', {}, false) by { RunsLeaveJobs(w.db, db'); }
    QuietWork(w, s, db', Some(w.sessions[s].(stage := stage)), {}, runs);
  }

  lemma RunsLeaveJobs(db: Rows, db': Rows)
    requires JobsMove(db, db, {}, false) && db' == db.(runs := db'.runs, nextRun := db'.nextRun)
    ensures JobsMove(db, db', {}, false)
  {
    hide JobsOk, Kept, AllLegal;
  }

  lemma SameRuns(runs: Runs)
    ensures RunsKept(runs, runs, {})
  {
  }

  lemma OutdateKeeps(w: World, s: nat)
    requires Inv(w)
    ensures Inv(Tracked(w, OutdateStep(w, s)))
  {
    hide SessionsOk, HeadsOk, LogOk, BudgetsOk, JobsOk, Track, RunsKept;
    IdleKeeps(w);
    SameRuns(w.db.runs);
    if In(w, s, Claimed) {
      StageKeeps(w, s, w.db, Outdated, {});
    }
  }

  lemma StartReviewKeeps(w: World, s: nat)
    requires Inv(w)
    ensures Inv(Tracked(w, StartReviewStep(w, s)))
  {
    hide SessionsOk, HeadsOk, LogOk, BudgetsOk, JobsOk, Track;
    IdleKeeps(w);
    if In(w, s, Claimed) && w.sessions[s].trigger != Retry {
      var x := w.sessions[s];
      StageKeeps(w, s, CreateRun(w.db, x.pr, x.head, x.process, x.job), Reviewing(w.db.nextRun), {});
    }
  }

  lemma StartRetryKeeps(w: World, s: nat)
    requires Inv(w)
    ensures Inv(Tracked(w, StartRetryStep(w, s)))
  {
    hide SessionsOk, HeadsOk, LogOk, BudgetsOk, JobsOk, Track, RunsKept;
    IdleKeeps(w);
    SameRuns(w.db.runs);
    if In(w, s, Claimed) && Retryable(w.db, w.sessions[s]) {
      StageKeeps(w, s, w.db, Retrying(w.sessions[s].retryRun.value), {});
    }
  }

  lemma SkipRetryKeeps(w: World, s: nat)
    requires Inv(w)
    ensures Inv(Tracked(w, SkipRetryStep(w, s)))
  {
    hide SessionsOk, HeadsOk, LogOk, BudgetsOk, JobsOk, Track, RunsKept;
    IdleKeeps(w);
    SameRuns(w.db.runs);
    if s in w.sessions && w.sessions[s].stage.Retrying? {
      StageKeeps(w, s, w.db, Returned(w.sessions[s].stage.run), {});
    }
  }

  lemma FailRetryKeeps(w: World, s: nat, retry: bool)
    requires Inv(w)
    ensures Inv(Tracked(w, FailRetryStep(w, s, retry)))
  {
    hide SessionsOk, HeadsOk, LogOk, BudgetsOk, JobsOk, Track, RunsKept;
    IdleKeeps(w);
    SameRuns(w.db.runs);
    if In(w, s, Claimed) && w.sessions[s].trigger == Retry {
      StageKeeps(w, s, w.db, Failing(w.sessions[s].retryRun, retry), {});
    }
  }

  // The session ends its own run.
  lemma FinishKeeps(w: World, s: nat, status: RunStatus, stage: Stage)
    requires Inv(w) && s in w.sessions && Writes(w.sessions[s].stage).Some? && status != Reviewed
    requires Writes(stage).Some? ==> status == Dropped && stage == Emptied(Writes(w.sessions[s].stage).value)
    requires !stage.Retrying?
    ensures Inv(Tracked(w, At(w.(db := FinishRun(w.db, Writes(w.sessions[s].stage).value, status)), s, stage)))
  {
    hide SessionsOk, HeadsOk, LogOk, BudgetsOk, JobsOk, Track;
    AtSession(w, s);
    var r := Writes(w.sessions[s].stage).value;
    var db' := FinishRun(w.db, r, status);
    StageKeeps(w, s, db', stage, {r});
  }

  lemma NoAdaptersKeeps(w: World, s: nat)
    requires Inv(w)
    ensures Inv(Tracked(w, NoAdaptersStep(w, s)))
  {
    hide Inv, FinishRun, Track;
    IdleKeeps(w);
    if IsReviewing(w, s) {
      FinishKeeps(w, s, Dropped, Returned(w.sessions[s].stage.run));
    }
  }

  lemma CheckKeeps(w: World, s: nat)
    requires Inv(w)
    ensures Inv(Tracked(w, CheckStep(w, s)))
  {
    hide SessionsOk, HeadsOk, LogOk, BudgetsOk, JobsOk, Track, RunsKept, FinishRun;
    IdleKeeps(w);
    SameRuns(w.db.runs);
    if IsReviewing(w, s) {
      AtSession(w, s);
      FinishKeeps(w, s, Dropped, Outdated);
      StageKeeps(w, s, w.db, Checked(w.sessions[s].stage.run), {});
    }
  }

  lemma EmptyKeeps(w: World, s: nat)
    requires Inv(w)
    ensures Inv(Tracked(w, EmptyStep(w, s)))
  {
    hide Inv, FinishRun, Track;
    IdleKeeps(w);
    if s in w.sessions && w.sessions[s].stage.Checked? {
      FinishKeeps(w, s, Dropped, Emptied(w.sessions[s].stage.run));
    }
  }

  lemma BreakKeeps(w: World, s: nat, retry: bool)
    requires Inv(w)
    ensures Inv(Tracked(w, BreakStep(w, s, retry)))
  {
    hide SessionsOk, HeadsOk, LogOk, BudgetsOk, JobsOk, Track, RunsKept, FinishRun;
    IdleKeeps(w);
    SameRuns(w.db.runs);
    if s in w.sessions {
      var stage := w.sessions[s].stage;
      if Writes(stage).Some? {
        FinishKeeps(w, s, Broke, Failing(Writes(stage), retry));
      } else if stage.Claimed? {
        StageKeeps(w, s, w.db, Failing(None, retry), {});
      } else if stage.Retrying? {
        StageKeeps(w, s, w.db, Failing(Some(stage.run), retry), {});
      }
    }
  }

  lemma TimeOutKeeps(w: World, s: nat)
    requires Inv(w)
    ensures Inv(Tracked(w, TimeOutStep(w, s)))
  {
    hide SessionsOk, HeadsOk, LogOk, BudgetsOk, JobsOk, Track;
    IdleKeeps(w);
    if s in w.sessions && (w.sessions[s].stage.Reviewing? || w.sessions[s].stage.Retrying?) {
      StageKeeps(w, s, BreakRunsOf(w.db, w.sessions[s].job), Failing(None, true), {});
    }
  }

  // ------------------------------------------------------------ heads reviewed

  lemma OthersWriteElsewhere(w: World, s: nat)
    requires Inv(w) && s in w.sessions && Writes(w.sessions[s].stage).Some?
    ensures forall t <- w.sessions | t != s :: Writes(w.sessions[t].stage) != Writes(w.sessions[s].stage)
  {
    hide HeadsOk, LogOk, BudgetsOk, JobsOk, SessionOk;
    forall t <- w.sessions | t != s ensures Writes(w.sessions[t].stage) != Writes(w.sessions[s].stage) {
      assert Apart(w.db, w.sessions[s], w.sessions[t]);
    }
  }

  // The session gives up its run, which ended, and the head counts as reviewed.
  lemma ReviewedHeads(w: World, s: nat, db': Rows, x': Session, r: nat)
    requires Inv(w) && s in w.sessions && Writes(w.sessions[s].stage) == Some(r) && Writes(x'.stage) == None
    requires RunsKept(w.db.runs, db'.runs, {r}) && IsRunFor(db'.runs, r, w.sessions[s])
    requires db'.runs[r].status == Reviewed || db'.runs[r].status == Dropped
    requires db'.prs == MarkReviewed(w.db, w.sessions[s].pr, w.sessions[s].head).prs
    ensures HeadsOk(db'.prs, db'.runs, w.sessions[s := x'])
  {
    hide LogOk, BudgetsOk, JobsOk, SessionsOk;
    var sessions', pr, head := w.sessions[s := x'], w.sessions[s].pr, w.sessions[s].head;
    OthersWriteElsewhere(w, s);
    HeadsFrame(w.db.prs, w.db.runs, w.sessions, w.db.prs, db'.runs, sessions', {r});
    assert Settled(db'.runs, sessions', r, pr, head);
    forall p <- db'.prs | db'.prs[p].lastReviewed.Some?
      ensures exists q :: Settled(db'.runs, sessions', q, p, db'.prs[p].lastReviewed.value)
    {
      if p != pr {
        assert db'.prs[p] == w.db.prs[p];
      }
    }
  }

  lemma AdvanceKeeps(w: World, s: nat)
    requires Inv(w)
    ensures Inv(Tracked(w, AdvanceStep(w, s)))
  {
    hide SessionsOk, HeadsOk, LogOk, BudgetsOk, JobsOk, Track, RunsKept, JobsMove, Live;
    IdleKeeps(w);
    if s in w.sessions && w.sessions[s].stage.Emptied? {
      var x, r := w.sessions[s], w.sessions[s].stage.run;
      var db', x' := MarkReviewed(w.db, x.pr, x.head), x.(stage := Returned(r));
      AtSession(w, s);
      assert RunsKept(w.db.runs, w.db.runs, {r}) by { SameRunsBut(w.db.runs, {r}); }
      ReviewedHeads(w, s, db', x', r);
      assert JobsMove(w.db, db', {}, false) by { PrsLeaveJobs(w.db, db'); }
      WorkKeeps(w, s, db', Some(x'), w.log, {}, {r});
    }
  }

  lemma SameRunsBut(runs: Runs, except: set<nat>)
    ensures RunsKept(runs, runs, except)
  {
  }

  lemma PrsLeaveJobs(db: Rows, db': Rows)
    requires JobsOk(db.jobs, db.nextJob, db.nextProcess)
    requires db'.jobs == db.jobs && db'.nextJob == db.nextJob && db'.nextProcess == db.nextProcess
    ensures JobsMove(db, db', {}, false)
  {
    SameMoves(db, {}, false);
  }

  // The log gets one more entry, and its run is the only one newly reviewed.
  lemma OneMoreEntry(w: World, db': Rows, e: Insertion, runs: set<nat>)
    requires Inv(w) && RunsKept(w.db.runs, db'.runs, runs) && w.db.nextProcess == db'.nextProcess
    requires InsertionOk(db'.runs, db'.nextProcess, e)
    requires forall r <- db'.runs | db'.runs[r].status == Reviewed ::
      r == e.run || (r in w.db.runs && w.db.runs[r].status == Reviewed)
    ensures LogOk(db'.runs, db'.nextProcess, w.log + [e])
  {
    hide SessionsOk, HeadsOk, BudgetsOk, JobsOk, RunsKept, InsertionOk;
    assert (w.log + [e])[|w.log|] == e;
    LogFrame(w.db.runs, w.db.nextProcess, w.log, db'.runs, db'.nextProcess, w.log + [e], runs);
  }

  lemma CommitReviewKeeps(w: World, s: nat)
    requires Inv(w) && IsReviewing(w, s) && Live(w.db.leases, w.db.now, w.sessions[s].process)
    requires AtHead(w.db, w.sessions[s].pr, w.sessions[s].head)
    ensures Inv(Tracked(w, CommitStep(w, s)))
  {
    hide SessionsOk, HeadsOk, LogOk, BudgetsOk, JobsOk, Track, JobsMove, Live;
    var x, r := w.sessions[s], w.sessions[s].stage.run;
    var db', x' := CommitReview(w.db, r, x.pr, x.head, x.process).0, x.(stage := Returned(r));
    AtSession(w, s);
    assert RunsKept(w.db.runs, db'.runs, {r});
    ReviewedHeads(w, s, db', x', r);
    var e := Insertion(x.process, x.job, r, x.head, w.db.prs[x.pr].head);
    OneMoreEntry(w, db', e, {r});
    assert JobsMove(w.db, db', {}, false) by { PrsLeaveJobs(w.db, db'); }
    WorkKeeps(w, s, db', Some(x'), w.log + [e], {}, {r});
  }

  lemma CommitRetryKeeps(w: World, s: nat)
    requires Inv(w) && s in w.sessions && w.sessions[s].stage.Retrying?
    requires Live(w.db.leases, w.db.now, w.sessions[s].process)
    requires AtHead(w.db, w.sessions[s].pr, w.sessions[s].head)
    ensures Inv(Tracked(w, CommitStep(w, s)))
  {
    hide SessionsOk, HeadsOk, LogOk, BudgetsOk, JobsOk, Track, JobsMove, Live, RunsKept;
    var x, r := w.sessions[s], w.sessions[s].stage.run;
    var x' := x.(stage := Returned(r));
    AtSession(w, s);
    SameRuns(w.db.runs);
    var e := Insertion(x.process, x.job, r, x.head, w.db.prs[x.pr].head);
    OneMoreEntry(w, w.db, e, {});
    HeadsFrame(w.db.prs, w.db.runs, w.sessions, w.db.prs, w.db.runs, w.sessions[s := x'], {});
    SameMoves(w.db, {}, false);
    WorkKeeps(w, s, w.db, Some(x'), w.log + [e], {}, {});
  }

  lemma CommitKeeps(w: World, s: nat)
    requires Inv(w)
    ensures Inv(Tracked(w, CommitStep(w, s)))
  {
    hide Inv, Track, FinishRun, Live, MarkReviewed, AtHead;
    IdleKeeps(w);
    CrashKeeps(w, s);
    if s in w.sessions {
      var x := w.sessions[s];
      if Live(w.db.leases, w.db.now, x.process) && AtHead(w.db, x.pr, x.head) {
        if x.stage.Reviewing? {
          CommitReviewKeeps(w, s);
        } else if x.stage.Retrying? {
          CommitRetryKeeps(w, s);
        }
      } else if x.stage.Reviewing? {
        FinishKeeps(w, s, Dropped, Outdated);
      } else if x.stage.Retrying? {
        MovedRetryKeeps(w, s);
      }
    }
  }

  lemma MovedRetryKeeps(w: World, s: nat)
    requires Inv(w) && s in w.sessions
    ensures Inv(Tracked(w, At(w, s, Outdated)))
  {
    hide SessionsOk, HeadsOk, LogOk, BudgetsOk, JobsOk, Track, RunsKept;
    SameRuns(w.db.runs);
    StageKeeps(w, s, w.db, Outdated, {});
  }
}
