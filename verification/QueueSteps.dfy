// Each step of the workers, the leases and everybody else keeps the invariant.
module QueueSteps {
  import opened Text
  import opened JobQueue
  import opened QueueRows
  import opened WorkerProtocol
  import opened QueueSafety

  // -------------------------------------------------------- leases and the clock

  lemma LeaseStepKeeps(w: World, db': Rows)
    requires Inv(w)
    requires db' == w.db.(leases := db'.leases, now := db'.now, nextProcess := db'.nextProcess)
    requires LeasesKept(w.db, db') && LeasesOk(db'.leases, db'.nextProcess) && w.db.nextProcess <= db'.nextProcess
    ensures Inv(w.(db := db', budgets := Track(w.budgets, w.db.jobs, db'.jobs, false)))
  {
    hide SessionsOk, HeadsOk, LogOk, BudgetsOk, Live, OneRowPerHead;
    SameMoves(w.db, {}, false);
    RowsFrame(w, db', {}, false);
  }

  lemma RegisterKeeps(w: World)
    requires Inv(w)
    ensures Inv(Next(w, RegisterStep))
  {
    hide JobsOk, SessionsOk, HeadsOk, LogOk, BudgetsOk, RunsOk, Track;
    LeaseStepKeeps(w, Register(w.db));
  }

  lemma BeatKeeps(w: World, p: nat)
    requires Inv(w)
    ensures Inv(Next(w, Beat(p)))
  {
    hide JobsOk, SessionsOk, HeadsOk, LogOk, BudgetsOk, RunsOk, Track;
    LeaseStepKeeps(w, Heartbeat(w.db, p));
  }

  lemma LeaveKeeps(w: World, p: nat)
    requires Inv(w)
    ensures Inv(Next(w, Leave(p)))
  {
    hide JobsOk, SessionsOk, HeadsOk, LogOk, BudgetsOk, RunsOk, Track;
    LeaseStepKeeps(w, Release(w.db, p));
  }

  lemma TickKeeps(w: World, seconds: nat)
    requires Inv(w)
    ensures Inv(Next(w, Tick(seconds)))
  {
    hide JobsOk, SessionsOk, HeadsOk, LogOk, BudgetsOk, RunsOk, Track;
    LeaseStepKeeps(w, w.db.(now := w.db.now + seconds));
  }

  lemma RecoverKeeps(w: World)
    requires Inv(w)
    ensures Inv(Next(w, Recover))
  {
    hide HeadsOk, LogOk, BudgetsOk, RunsOk, Track, OneRowPerHead, Apart, StageOk, JobsMove;
    var db' := RecoverExpired(w.db);
    RecoverMoves(w.db);
    forall s <- w.sessions | Live(db'.leases, db'.now, w.sessions[s].process)
      ensures w.sessions[s].job !in Orphans(w.db)
    {
      assert SessionOk(w.db, w.sessions[s]);
    }
    RowsFrame(w, db', Orphans(w.db), true);
  }

  // ------------------------------------------------------------------ enqueueing

  lemma EnqueueStepKeeps(w: World, db': Rows)
    requires Inv(w) && JobsMove(w.db, db', {}, false)
    requires db'.leases == w.db.leases && db'.now == w.db.now && db'.nextProcess == w.db.nextProcess
    requires db'.runs == w.db.runs && db'.nextRun == w.db.nextRun
    requires forall pr <- db'.prs | db'.prs[pr].lastReviewed.Some? ::
      pr in w.db.prs && w.db.prs[pr].lastReviewed == db'.prs[pr].lastReviewed
    ensures Inv(w.(db := db', budgets := Track(w.budgets, w.db.jobs, db'.jobs, false)))
  {
    hide SessionsOk, HeadsOk, LogOk, BudgetsOk, OneRowPerHead, JobsMove, JobsOk;
    RowsFrame(w, db', {}, false);
  }

  // Polls and webhook calls change heads, states and jobs only.
  predicate Synced(db: Rows, db': Rows) {
    && db'.leases == db.leases && db'.now == db.now && db'.nextProcess == db.nextProcess
    && db'.runs == db.runs && db'.nextRun == db.nextRun
    && (forall pr <- db'.prs | db'.prs[pr].lastReviewed.Some? ::
          pr in db.prs && db.prs[pr].lastReviewed == db'.prs[pr].lastReviewed)
  }

  lemma EnqueueSyncs(db: Rows, pr: nat, head: string)
    ensures var db' := Enqueue(db, pr, head, Auto, 0).0;
      db' == db.(jobs := db'.jobs, nextJob := db'.nextJob)
  {
    hide LookUp, Revivable, NewJob, Revived;
  }

  lemma SyncOneSyncs(db: Rows, item: Listed, auto: bool, skipDraft: bool)
    ensures Synced(db, SyncOne(db, item, auto, skipDraft))
  {
    hide Enqueue;
    EnqueueSyncs(Upsert(db, item.pr, item.head, item.open), item.pr, item.head);
  }

  lemma {:induction false} SyncAllSyncs(db: Rows, items: seq<Listed>, auto: bool, skipDraft: bool)
    ensures Synced(db, SyncAll(db, items, auto, skipDraft))
  {
    hide SyncOne;
    if items != [] {
      var n := |items| - 1;
      SyncAllSyncs(db, items[..n], auto, skipDraft);
      SyncOneSyncs(SyncAll(db, items[..n], auto, skipDraft), items[n], auto, skipDraft);
    }
  }

  lemma PollKeeps(w: World, items: seq<Listed>, known: set<nat>, limit: nat, auto: bool, skipDraft: bool)
    requires Inv(w)
    ensures Inv(Next(w, PollStep(items, known, limit, auto, skipDraft)))
  {
    hide SessionsOk, HeadsOk, LogOk, BudgetsOk, OneRowPerHead, JobsMove, OnlyEnqueued, Track, SyncAll;
    var db' := Poll(w.db, items, known, limit, auto, skipDraft);
    SyncAllSyncs(w.db, items, auto, skipDraft);
    PollEnqueues(w.db, items, known, limit, auto, skipDraft);
    EnqueuedMoves(w.db, db');
    EnqueueStepKeeps(w, db');
  }

  lemma WebhookKeeps(w: World, item: Listed, skipDraft: bool)
    requires Inv(w)
    ensures Inv(Next(w, Webhook(item, skipDraft)))
  {
    hide SessionsOk, HeadsOk, LogOk, BudgetsOk, OneRowPerHead, JobsMove, OnlyEnqueued, Track, SyncOne, JobOk;
    var db' := SyncOne(w.db, item, true, skipDraft);
    SyncOneSyncs(w.db, item, true, skipDraft);
    SyncOneEnqueues(w.db, item, true, skipDraft);
    EnqueuedMoves(w.db, db');
    EnqueueStepKeeps(w, db');
  }

  lemma RequestRows(db: Rows, pr: nat, head: string, trigger: Trigger, retryRun: Option<nat>)
    ensures var db' := EnqueueOrRevive(db, pr, head, trigger, retryRun).0;
      db' == db.(jobs := db'.jobs, nextJob := db'.nextJob)
  {
    hide LookUp, NewJob, Revived, Upgraded, Conflicts;
  }

  lemma RequestReviewKeeps(w: World, pr: nat)
    requires Inv(w)
    ensures Inv(Next(w, RequestReview(pr)))
  {
    hide SessionsOk, HeadsOk, LogOk, BudgetsOk, JobsMove, Track, EnqueueOrRevive, JobsOk;
    SameMoves(w.db, {}, false);
    if pr in w.db.prs {
      var head := w.db.prs[pr].head;
      RequestMoves(w.db, pr, head, Manual, None);
      RequestRows(w.db, pr, head, Manual, None);
    }
    EnqueueStepKeeps(w, ReviewRequested(w.db, pr));
  }

  lemma RequestRetryKeeps(w: World, pr: nat, run: nat)
    requires Inv(w)
    ensures Inv(Next(w, RequestRetry(pr, run)))
  {
    hide SessionsOk, HeadsOk, LogOk, BudgetsOk, JobsMove, Track, EnqueueOrRevive, JobsOk;
    SameMoves(w.db, {}, false);
    if pr in w.db.prs {
      var head := w.db.prs[pr].head;
      RequestMoves(w.db, pr, head, Retry, Some(run));
      RequestRows(w.db, pr, head, Retry, Some(run));
    }
    EnqueueStepKeeps(w, RetryRequested(w.db, pr, run));
  }

  lemma CancelReviewKeeps(w: World, pr: nat)
    requires Inv(w)
    ensures Inv(Next(w, CancelReview(pr)))
  {
    hide SessionsOk, HeadsOk, LogOk, BudgetsOk, JobsMove, Track, CancelQueued, JobsOk;
    CancelQueuedMoves(w.db, pr);
    assert CancelQueued(w.db, pr) == w.db.(jobs := CancelQueued(w.db, pr).jobs) by { CancelRows(w.db, pr); }
    EnqueueStepKeeps(w, CancelQueued(w.db, pr));
  }

  lemma CancelRows(db: Rows, pr: nat)
    ensures CancelQueued(db, pr) == db.(jobs := CancelQueued(db, pr).jobs)
  {
  }

  // --------------------------------------------------------------- one session

  function After(sessions: Sessions, s: nat, x': Option<Session>): Sessions {
    if x'.Some? then sessions[s := x'.value] else sessions - {s}
  }

  // What a step of session s may do.
  ghost predicate Work(w: World, s: nat, db': Rows, x': Option<Session>, jobs: set<nat>, runs: set<nat>) {
    && s in w.sessions && JobsMove(w.db, db', jobs, false)
    && db'.leases == w.db.leases && db'.now == w.db.now && db'.nextProcess == w.db.nextProcess
    && RunsKept(w.db.runs, db'.runs, runs) && RunsOk(db'.runs, db'.nextRun)
    && jobs <= HeldBy(w.db, w.sessions[s].job, w.sessions[s].process)
    && (forall r <- runs :: Writes(w.sessions[s].stage) == Some(r))
    && (x'.Some? ==>
          && SessionOk(db', x'.value)
          && x'.value.process == w.sessions[s].process && x'.value.job == w.sessions[s].job
          && (Writes(x'.value.stage).Some? ==>
                Writes(x'.value.stage) == Writes(w.sessions[s].stage)
                || Writes(x'.value.stage).value !in w.db.runs))
  }

  lemma OthersSpared(w: World, s: nat, db': Rows, x': Option<Session>, jobs: set<nat>, runs: set<nat>, t: nat)
    requires Inv(w) && Work(w, s, db', x', jobs, runs) && t in w.sessions && t != s
    ensures SessionOk(db', w.sessions[t])
    ensures x'.Some? ==> Apart(db', x'.value, w.sessions[t]) && Apart(db', w.sessions[t], x'.value)
  {
    hide HeadsOk, LogOk, BudgetsOk, OneRowPerHead, AllLegal;
    var x, y := w.sessions[s], w.sessions[t];
    assert SessionOk(w.db, x) && SessionOk(w.db, y) && Apart(w.db, x, y) && Apart(w.db, y, x);
    assert LeasesKept(w.db, db');
    assert Spares(w.db, db', jobs, runs, y);
    SessionFrame(w.db, db', jobs, runs, y);
  }

  lemma OthersApart(w: World, s: nat, db': Rows, x': Option<Session>, jobs: set<nat>, runs: set<nat>, t: nat, u: nat)
    requires Inv(w) && Work(w, s, db', x', jobs, runs) && t in w.sessions && u in w.sessions && t != u
    ensures Apart(db', w.sessions[t], w.sessions[u])
  {
    hide HeadsOk, LogOk, BudgetsOk, OneRowPerHead, AllLegal, JobsOk, SessionOk, RunsKept;
    assert Apart(w.db, w.sessions[t], w.sessions[u]);
  }

  lemma WorkSessions(w: World, s: nat, db': Rows, x': Option<Session>, jobs: set<nat>, runs: set<nat>)
    requires Inv(w) && Work(w, s, db', x', jobs, runs)
    ensures SessionsOk(db', After(w.sessions, s, x'))
  {
    var sessions' := After(w.sessions, s, x');
    assert x'.Some? ==> SessionOk(db', x'.value);
    hide Inv, Work, SessionOk, Apart;
    forall t <- sessions' ensures SessionOk(db', sessions'[t]) {
      if t != s {
        OthersSpared(w, s, db', x', jobs, runs, t);
      }
    }
    forall t, u | t in sessions' && u in sessions' && t != u ensures Apart(db', sessions'[t], sessions'[u]) {
      if t == s {
        OthersSpared(w, s, db', x', jobs, runs, u);
      } else if u == s {
        OthersSpared(w, s, db', x', jobs, runs, t);
      } else {
        OthersApart(w, s, db', x', jobs, runs, t, u);
      }
    }
  }

  lemma WorkKeeps(
    w: World, s: nat, db': Rows, x': Option<Session>, log': seq<Insertion>, jobs: set<nat>, runs: set<nat>)
    requires Inv(w) && Work(w, s, db', x', jobs, runs)
    requires HeadsOk(db'.prs, db'.runs, After(w.sessions, s, x')) && LogOk(db'.runs, db'.nextProcess, log')
    ensures Inv(w.(db := db', sessions := After(w.sessions, s, x'), log := log',
                   budgets := Track(w.budgets, w.db.jobs, db'.jobs, false)))
  {
    WorkSessions(w, s, db', x', jobs, runs);
    hide SessionsOk, HeadsOk, LogOk, JobsOk, BudgetsOk, AllLegal, Kept, RunsKept, Track;
    BudgetsKept(w.budgets, w.db.jobs, db'.jobs, false);
  }

  // A session's step that leaves the reviewed heads and the log alone.
  lemma QuietWork(w: World, s: nat, db': Rows, x': Option<Session>, jobs: set<nat>, runs: set<nat>)
    requires Inv(w) && Work(w, s, db', x', jobs, runs) && db'.prs == w.db.prs
    requires forall r <- db'.runs | db'.runs[r].status == Reviewed :: r in w.db.runs && w.db.runs[r].status == Reviewed
    ensures Inv(w.(db := db', sessions := After(w.sessions, s, x'),
                   budgets := Track(w.budgets, w.db.jobs, db'.jobs, false)))
  {
    hide SessionsOk, JobsMove, JobsOk, BudgetsOk, RunsKept, Track, SessionOk;
    var sessions' := After(w.sessions, s, x');
    LogFrame(w.db.runs, w.db.nextProcess, w.log, db'.runs, db'.nextProcess, w.log, runs);
    HeadsFrame(w.db.prs, w.db.runs, w.sessions, db'.prs, db'.runs, sessions', runs);
    WorkKeeps(w, s, db', x', w.log, jobs, runs);
  }
}
