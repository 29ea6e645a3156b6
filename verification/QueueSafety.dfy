// What holds between the queue's rows and the workers.
module QueueSafety {
  import opened Text
  import opened JobQueue
  import opened QueueRows
  import opened WorkerProtocol

  type Runs = map<nat, JobQueue.Run>
  type Sessions = map<nat, Session>

  // ------------------------------------------------------------- the invariant

  // The run whose status a session is still going to change.
  function Writes(stage: Stage): Option<nat> {
    match stage
    case Reviewing(r) => Some(r)
    case Checked(r) => Some(r)
    case Emptied(r) => Some(r)
    case _ => None
  }

  predicate IsRunFor(runs: Runs, r: nat, x: Session) {
    r in runs && runs[r].pr == x.pr && runs[r].head == x.head
  }

  predicate StageOk(runs: Runs, x: Session) {
    match x.stage
    case Reviewing(r) => IsRunFor(runs, r, x) && (runs[r].status == InProgress || runs[r].status == Broke)
    case Checked(r) => IsRunFor(runs, r, x) && (runs[r].status == InProgress || runs[r].status == Broke)
    case Emptied(r) => IsRunFor(runs, r, x) && runs[r].status == Dropped
    case Retrying(r) => IsRunFor(runs, r, x) && runs[r].status == Reviewed
    case _ => true
  }

  // A worker with a live lease owns the job it works on.
  predicate SessionOk(db: Rows, x: Session) {
    && x.process < db.nextProcess
    && x.job in db.jobs && db.jobs[x.job].pr == x.pr && db.jobs[x.job].head == x.head
    && (Live(db.leases, db.now, x.process) ==> Owns(db, x.job, x.process))
    && StageOk(db.runs, x)
  }

  // Two sessions never write the same run, and a process with a live lease has
  // one session for a job.
  predicate Apart(db: Rows, x: Session, y: Session) {
    && (Writes(x.stage).Some? ==> Writes(x.stage) != Writes(y.stage))
    && !(x.job == y.job && x.process == y.process && Live(db.leases, db.now, x.process))
  }

  predicate SessionsOk(db: Rows, sessions: Sessions) {
    && (forall s <- sessions :: SessionOk(db, sessions[s]))
    && (forall s, t | s in sessions && t in sessions && s != t :: Apart(db, sessions[s], sessions[t]))
  }

  predicate RunsOk(runs: Runs, nextRun: nat) {
    forall r <- runs :: r < nextRun
  }

  predicate LeasesOk(leases: map<nat, nat>, nextProcess: nat) {
    forall p <- leases :: p < nextProcess
  }

  // A run of this head that ended with a review or without anything to review,
  // and that nobody is going to change.
  predicate Settled(runs: Runs, sessions: Sessions, r: nat, pr: nat, head: string) {
    && r in runs && runs[r].pr == pr && runs[r].head == head
    && (runs[r].status == Reviewed || runs[r].status == Dropped)
    && (forall s <- sessions :: Writes(sessions[s].stage) != Some(r))
  }

  ghost predicate HeadsOk(prs: map<nat, Pr>, runs: Runs, sessions: Sessions) {
    forall pr <- prs | prs[pr].lastReviewed.Some? :: exists r :: Settled(runs, sessions, r, pr, prs[pr].lastReviewed.value)
  }

  predicate InsertionOk(runs: Runs, nextProcess: nat, e: Insertion) {
    && e.current == e.head && e.run in runs && runs[e.run].head == e.head
    && e.process < nextProcess
  }

  predicate Logged(log: seq<Insertion>, r: nat) {
    exists i :: 0 <= i < |log| && log[i].run == r
  }

  predicate LogOk(runs: Runs, nextProcess: nat, log: seq<Insertion>) {
    && (forall i | 0 <= i < |log| :: InsertionOk(runs, nextProcess, log[i]))
    && (forall r <- runs | runs[r].status == Reviewed :: Logged(log, r))
  }

  predicate BudgetOk(job: Job, b: Budget) {
    && b.requeues < MAX_ATTEMPTS && b.claims <= MAX_ATTEMPTS + b.recoveries
    && (!Ended(job) ==> job.attempts == b.claims)
    && (job.status == Queued ==> b.requeues <= job.attempts && job.attempts < MAX_ATTEMPTS + b.recoveries)
    && (job.status == Running ==> b.requeues < job.attempts)
  }

  predicate BudgetsOk(jobs: Jobs, budgets: map<nat, Budget>) {
    forall j <- jobs :: j in budgets && BudgetOk(jobs[j], budgets[j])
  }

  ghost predicate Inv(w: World) {
    && JobsOk(w.db.jobs, w.db.nextJob, w.db.nextProcess)
    && LeasesOk(w.db.leases, w.db.nextProcess)
    && RunsOk(w.db.runs, w.db.nextRun)
    && (forall s <- w.sessions :: s < w.nextSession)
    && SessionsOk(w.db, w.sessions)
    && HeadsOk(w.db.prs, w.db.runs, w.sessions)
    && LogOk(w.db.runs, w.db.nextProcess, w.log)
    && BudgetsOk(w.db.jobs, w.budgets)
  }

  // ------------------------------------------------------------------- budgets

  lemma BudgetKept(job: Job, after: Job, b: Budget, recovery: bool)
    requires BudgetOk(job, b) && Legal(Some(job), after, recovery)
    ensures BudgetOk(after, BudgetAfter(map[0 := b], map[0 := job], 0, after, recovery))
  {
  }

  lemma BudgetsKept(budgets: map<nat, Budget>, jobs: Jobs, jobs': Jobs, recovery: bool)
    requires BudgetsOk(jobs, budgets) && AllLegal(jobs, jobs', recovery)
    ensures BudgetsOk(jobs', Track(budgets, jobs, jobs', recovery))
  {
    hide BudgetOk, Legal;
    forall j <- jobs' ensures BudgetOk(jobs'[j], BudgetAfter(budgets, jobs, j, jobs'[j], recovery)) {
      if j in jobs {
        BudgetKept(jobs[j], jobs'[j], budgets[j], recovery);
      } else {
        assert Legal(None, jobs'[j], recovery);
        NewBudget(jobs'[j], recovery);
      }
    }
  }

  lemma NewBudget(job: Job, recovery: bool)
    requires Legal(None, job, recovery)
    ensures BudgetOk(job, Budget(0, 0, 0))
  {
  }

  // -------------------------------------------------------------------- frames

  // Runs stay what they are, except that runs in progress may break and the
  // given ones may end.
  predicate RunsKept(runs: Runs, runs': Runs, except: set<nat>) {
    forall r <- runs ::
      && r in runs' && runs'[r].pr == runs[r].pr && runs'[r].head == runs[r].head
      && (r !in except ==>
            runs'[r].status == runs[r].status || (runs[r].status == InProgress && runs'[r].status == Broke))
  }

  // No dead process comes to life.
  ghost predicate LeasesKept(db: Rows, db': Rows) {
    forall p: nat | p < db.nextProcess && Live(db'.leases, db'.now, p) :: Live(db.leases, db.now, p)
  }

  // The rows change apart from what a session relies on.
  predicate Spares(db: Rows, db': Rows, jobs: set<nat>, runs: set<nat>, x: Session) {
    && (Live(db'.leases, db'.now, x.process) ==> x.job !in jobs)
    && (Writes(x.stage).Some? ==> Writes(x.stage).value !in runs)
    && (x.stage.Retrying? ==> x.stage.run !in runs)
  }

  ghost predicate RowsKept(db: Rows, db': Rows, jobs: set<nat>, runs: set<nat>) {
    && Kept(db.jobs, db'.jobs, jobs) && RunsKept(db.runs, db'.runs, runs) && LeasesKept(db, db')
    && db.nextProcess <= db'.nextProcess
  }

  lemma SessionFrame(db: Rows, db': Rows, jobs: set<nat>, runs: set<nat>, x: Session)
    requires SessionOk(db, x) && RowsKept(db, db', jobs, runs) && Spares(db, db', jobs, runs, x)
    ensures SessionOk(db', x)
  {
    hide Live;
    assert Live(db'.leases, db'.now, x.process) ==> Live(db.leases, db.now, x.process);
  }

  lemma SessionsFrame(db: Rows, db': Rows, jobs: set<nat>, runs: set<nat>, sessions: Sessions)
    requires SessionsOk(db, sessions) && RowsKept(db, db', jobs, runs)
    requires forall s <- sessions :: Spares(db, db', jobs, runs, sessions[s])
    ensures SessionsOk(db', sessions)
  {
    hide Live, Kept, RunsKept, StageOk;
    forall s <- sessions ensures SessionOk(db', sessions[s]) {
      hide SessionOk, RowsKept;
      SessionFrame(db, db', jobs, runs, sessions[s]);
    }
    forall s, t | s in sessions && t in sessions && s != t ensures Apart(db', sessions[s], sessions[t]) {
      assert Apart(db, sessions[s], sessions[t]) && SessionOk(db, sessions[s]);
    }
  }

  lemma HeadsFrame(
    prs: map<nat, Pr>, runs: Runs, sessions: Sessions, prs': map<nat, Pr>, runs': Runs, sessions': Sessions,
    except: set<nat>)
    requires HeadsOk(prs, runs, sessions) && RunsKept(runs, runs', except)
    requires forall pr <- prs' | prs'[pr].lastReviewed.Some? :: pr in prs && prs[pr].lastReviewed == prs'[pr].lastReviewed
    requires forall r <- runs | r in except :: exists s <- sessions :: Writes(sessions[s].stage) == Some(r)
    requires forall s <- sessions' | Writes(sessions'[s].stage).Some? ::
      Writes(sessions'[s].stage).value !in runs
      || (s in sessions && Writes(sessions[s].stage) == Writes(sessions'[s].stage))
    ensures HeadsOk(prs', runs', sessions')
  {
    forall pr <- prs' | prs'[pr].lastReviewed.Some?
      ensures exists r :: Settled(runs', sessions', r, pr, prs'[pr].lastReviewed.value)
    {
      var r :| Settled(runs, sessions, r, pr, prs[pr].lastReviewed.value);
      assert Settled(runs', sessions', r, pr, prs'[pr].lastReviewed.value);
    }
  }

  lemma LogFrame(runs: Runs, n: nat, log: seq<Insertion>, runs': Runs, n': nat, log': seq<Insertion>, except: set<nat>)
    requires LogOk(runs, n, log) && RunsKept(runs, runs', except) && n <= n'
    requires log' == log || (|log'| == |log| + 1 && log'[..|log|] == log && InsertionOk(runs', n', log'[|log|]))
    requires forall r <- runs' | runs'[r].status == Reviewed :: (r in runs && runs[r].status == Reviewed) || Logged(log', r)
    ensures LogOk(runs', n', log')
  {
    forall i | 0 <= i < |log'| ensures InsertionOk(runs', n', log'[i]) {
      if i < |log| {
        assert log'[i] == log[i] && InsertionOk(runs, n, log[i]);
      }
    }
    forall r <- runs' | runs'[r].status == Reviewed ensures Logged(log', r) {
      if r in runs && runs[r].status == Reviewed {
        assert Logged(log, r);
        var i :| 0 <= i < |log| && log[i].run == r;
        assert log'[i] == log[i];
      }
    }
  }

  // Everybody's steps that leave sessions and the log alone.
  lemma RowsFrame(w: World, db': Rows, jobs: set<nat>, recovery: bool)
    requires Inv(w) && JobsMove(w.db, db', jobs, recovery)
    requires RunsKept(w.db.runs, db'.runs, {}) && db'.runs.Keys == w.db.runs.Keys && db'.nextRun == w.db.nextRun
    requires LeasesKept(w.db, db') && LeasesOk(db'.leases, db'.nextProcess) && w.db.nextProcess <= db'.nextProcess
    requires forall s <- w.sessions :: Live(db'.leases, db'.now, w.sessions[s].process) ==> w.sessions[s].job !in jobs
    requires forall pr <- db'.prs | db'.prs[pr].lastReviewed.Some? ::
      pr in w.db.prs && w.db.prs[pr].lastReviewed == db'.prs[pr].lastReviewed
    ensures Inv(w.(db := db', budgets := Track(w.budgets, w.db.jobs, db'.jobs, recovery)))
  {
    hide JobsOk, Kept, AllLegal, Live, SessionOk, Apart, Settled, Logged, InsertionOk, BudgetOk, BudgetAfter, BudgetsOk;
    hide HeadsOk, LogOk, SessionsOk;
    SessionsFrame(w.db, db', jobs, {}, w.sessions);
    HeadsFrame(w.db.prs, w.db.runs, w.sessions, db'.prs, db'.runs, w.sessions, {});
    LogFrame(w.db.runs, w.db.nextProcess, w.log, db'.runs, db'.nextProcess, w.log, {});
    BudgetsKept(w.budgets, w.db.jobs, db'.jobs, recovery);
  }
}
