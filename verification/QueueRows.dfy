// What the queue's transactions do to jobs, whoever calls them.
module QueueRows {
  import opened Text
  import opened JobQueue

  // A job has an owner exactly while it is running.
  predicate JobOk(job: Job, nextProcess: nat) {
    (job.owner.Some? <==> job.status == Running) && (job.owner.Some? ==> job.owner.value < nextProcess)
  }

  // There is at most one job for a head of a pull request.
  ghost predicate OneRowPerHead(jobs: Jobs) {
    forall i, j, pr, head | IsFor(jobs, i, pr, head) && IsFor(jobs, j, pr, head) :: i == j
  }

  ghost predicate JobsOk(jobs: Jobs, nextJob: nat, nextProcess: nat) {
    && OneRowPerHead(jobs)
    && (forall j <- jobs :: j < nextJob && JobOk(jobs[j], nextProcess))
  }

  // Jobs stay, and keep their owners except for the given ones.
  predicate Kept(jobs: Jobs, jobs': Jobs, except: set<nat>) {
    forall j <- jobs ::
      && j in jobs' && jobs'[j].pr == jobs[j].pr && jobs'[j].head == jobs[j].head
      && (jobs[j].owner.Some? && j !in except ==> jobs'[j].owner == jobs[j].owner)
  }

  // The ways in which a job changes, as far as its budget is concerned.
  predicate Legal(before: Option<Job>, after: Job, recovery: bool) {
    if before.None? then after.status == Queued && after.attempts == 0
    else
      var job := before.value;
      if job.status == Queued && after.status == Running then after.attempts == job.attempts + 1
      else if job.status == Running && after.status == Queued then
        after.attempts == job.attempts && (recovery || job.attempts < MAX_ATTEMPTS)
      else if Ended(job) then after.status == job.status || (after.status == Queued && after.attempts == 0)
      else after.attempts == job.attempts && (after.status == job.status || Ended(after))
  }

  predicate AllLegal(jobs: Jobs, jobs': Jobs, recovery: bool) {
    forall j <- jobs' :: Legal(if j in jobs then Some(jobs[j]) else None, jobs'[j], recovery)
  }

  ghost predicate JobsMove(db: Rows, db': Rows, except: set<nat>, recovery: bool) {
    && JobsOk(db'.jobs, db'.nextJob, db'.nextProcess)
    && Kept(db.jobs, db'.jobs, except) && AllLegal(db.jobs, db'.jobs, recovery)
  }

  // ------------------------------------------------------------------- look-ups

  lemma {:induction false} LookUpExact(jobs: Jobs, n: nat, pr: nat, head: string)
    ensures var found := LookUp(jobs, n, pr, head);
      if found.Some? then IsFor(jobs, found.value, pr, head) else forall j: nat | j < n :: !IsFor(jobs, j, pr, head)
  {
    if n > 0 {
      LookUpExact(jobs, n - 1, pr, head);
    }
  }

  // The claimed job is ready, and no ready job has a higher priority or the same
  // priority and a smaller number.
  lemma {:induction false} FirstIsFirst(jobs: Jobs, now: nat, n: nat)
    ensures var first := First(jobs, now, n);
      if first.Some? then
        Ready(jobs, now, first.value) && forall j: nat | j < n && Ready(jobs, now, j) :: Before(jobs, first.value, j)
      else forall j: nat | j < n :: !Ready(jobs, now, j)
  {
    if n > 0 {
      FirstIsFirst(jobs, now, n - 1);
    }
  }

  // ------------------------------------------------------------------ one row more

  lemma InsertMoves(db: Rows, job: Job)
    requires JobsOk(db.jobs, db.nextJob, db.nextProcess)
    requires job.status == Queued && job.attempts == 0 && job.owner == None
    requires forall j :: !IsFor(db.jobs, j, job.pr, job.head)
    ensures JobsMove(db, Insert(db, job), {}, false)
  {
    var jobs' := db.jobs[db.nextJob := job];
    forall i, j, pr, head | IsFor(jobs', i, pr, head) && IsFor(jobs', j, pr, head) ensures i == j {
      assert i != db.nextJob ==> IsFor(db.jobs, i, pr, head);
      assert j != db.nextJob ==> IsFor(db.jobs, j, pr, head);
    }
  }

  // A job changes in place.
  lemma ChangeMoves(db: Rows, j: nat, job: Job, except: set<nat>)
    requires JobsOk(db.jobs, db.nextJob, db.nextProcess) && j in db.jobs
    requires job.pr == db.jobs[j].pr && job.head == db.jobs[j].head && JobOk(job, db.nextProcess)
    requires job.owner == db.jobs[j].owner || db.jobs[j].owner == None || j in except
    requires Legal(Some(db.jobs[j]), job, false)
    ensures JobsMove(db, db.(jobs := db.jobs[j := job]), except, false)
  {
    var jobs' := db.jobs[j := job];
    forall i, k, pr, head | IsFor(jobs', i, pr, head) && IsFor(jobs', k, pr, head) ensures i == k {
      assert IsFor(db.jobs, i, pr, head) && IsFor(db.jobs, k, pr, head);
    }
  }

  lemma NoneFor(db: Rows, pr: nat, head: string)
    requires JobsOk(db.jobs, db.nextJob, db.nextProcess) && LookUp(db.jobs, db.nextJob, pr, head).None?
    ensures forall j :: !IsFor(db.jobs, j, pr, head)
  {
    LookUpExact(db.jobs, db.nextJob, pr, head);
  }

  lemma SameMoves(db: Rows, except: set<nat>, recovery: bool)
    requires JobsOk(db.jobs, db.nextJob, db.nextProcess)
    ensures JobsMove(db, db, except, recovery)
  {
  }

  // ------------------------------------------------------------------ enqueueing

  // An enqueue on the program's own account: everything else stays, and what
  // starts over had been canceled by the program.
  predicate OnlyEnqueued(jobs: Jobs, jobs': Jobs) {
    && (forall j <- jobs :: j in jobs')
    && (forall j <- jobs' ::
          if j in jobs && jobs'[j] == jobs[j] then true
          else jobs'[j].status == Queued && jobs'[j].attempts == 0 && jobs'[j].owner == None
               && (j in jobs ==> Revivable(jobs[j]) && jobs'[j].pr == jobs[j].pr && jobs'[j].head == jobs[j].head))
  }

  lemma EnqueuedMoves(db: Rows, db': Rows)
    requires JobsOk(db.jobs, db.nextJob, db.nextProcess) && OnlyEnqueued(db.jobs, db'.jobs)
    requires JobsOk(db'.jobs, db'.nextJob, db'.nextProcess)
    ensures JobsMove(db, db', {}, false)
  {
    hide OneRowPerHead;
  }

  lemma EnqueuedTwice(jobs: Jobs, jobs1: Jobs, jobs2: Jobs)
    requires OnlyEnqueued(jobs, jobs1) && OnlyEnqueued(jobs1, jobs2)
    ensures OnlyEnqueued(jobs, jobs2)
  {
  }

  lemma InsertEnqueues(db: Rows, pr: nat, head: string, trigger: Trigger, priority: int)
    requires JobsOk(db.jobs, db.nextJob, db.nextProcess) && LookUp(db.jobs, db.nextJob, pr, head).None?
    ensures var db' := Insert(db, NewJob(pr, head, trigger, priority, None));
      OnlyEnqueued(db.jobs, db'.jobs) && JobsOk(db'.jobs, db'.nextJob, db'.nextProcess)
  {
    NoneFor(db, pr, head);
    InsertMoves(db, NewJob(pr, head, trigger, priority, None));
  }

  lemma ReviveEnqueues(db: Rows, j: nat, trigger: Trigger, retryRun: Option<nat>)
    requires JobsOk(db.jobs, db.nextJob, db.nextProcess) && j in db.jobs && Revivable(db.jobs[j])
    ensures var db' := db.(jobs := db.jobs[j := Revived(db.jobs[j], trigger, retryRun)]);
      OnlyEnqueued(db.jobs, db'.jobs) && JobsOk(db'.jobs, db'.nextJob, db'.nextProcess)
  {
    ChangeMoves(db, j, Revived(db.jobs[j], trigger, retryRun), {});
  }

  lemma EnqueueEnqueues(db: Rows, pr: nat, head: string, trigger: Trigger, priority: int)
    requires JobsOk(db.jobs, db.nextJob, db.nextProcess)
    ensures var db' := Enqueue(db, pr, head, trigger, priority).0;
      OnlyEnqueued(db.jobs, db'.jobs) && JobsOk(db'.jobs, db'.nextJob, db'.nextProcess)
  {
    hide JobsOk, Insert, NewJob, Revived, OnlyEnqueued;
    var found := LookUp(db.jobs, db.nextJob, pr, head);
    NothingEnqueued(db.jobs);
    if found.None? {
      InsertEnqueues(db, pr, head, trigger, priority);
    } else if found.value in db.jobs && Revivable(db.jobs[found.value]) {
      ReviveEnqueues(db, found.value, trigger, db.jobs[found.value].retryRun);
    }
  }

  lemma NothingEnqueued(jobs: Jobs)
    ensures OnlyEnqueued(jobs, jobs)
  {
  }

  lemma EnqueueHeadEnqueues(db: Rows, pr: nat, head: string, trigger: Trigger, priority: int)
    requires JobsOk(db.jobs, db.nextJob, db.nextProcess)
    ensures var db' := EnqueueHead(db, pr, head, trigger, priority);
      OnlyEnqueued(db.jobs, db'.jobs) && JobsOk(db'.jobs, db'.nextJob, db'.nextProcess)
  {
    hide JobsOk, Insert, NewJob, Revived, OnlyEnqueued;
    var found := LookUp(db.jobs, db.nextJob, pr, head);
    NothingEnqueued(db.jobs);
    if found.None? {
      InsertEnqueues(db, pr, head, trigger, priority);
    } else if found.value in db.jobs && Revivable(db.jobs[found.value]) {
      ReviveEnqueues(db, found.value, trigger, None);
    }
  }

  lemma SyncOneEnqueues(db: Rows, item: Listed, auto: bool, skipDraft: bool)
    requires JobsOk(db.jobs, db.nextJob, db.nextProcess)
    ensures var db' := SyncOne(db, item, auto, skipDraft);
      OnlyEnqueued(db.jobs, db'.jobs) && JobsOk(db'.jobs, db'.nextJob, db'.nextProcess)
  {
    hide JobsOk, Enqueue, OnlyEnqueued;
    var db1 := Upsert(db, item.pr, item.head, item.open);
    EnqueueEnqueues(db1, item.pr, item.head, Auto, 0);
    NothingEnqueued(db.jobs);
  }

  lemma {:induction false} SyncAllEnqueues(db: Rows, items: seq<Listed>, auto: bool, skipDraft: bool)
    requires JobsOk(db.jobs, db.nextJob, db.nextProcess)
    ensures var db' := SyncAll(db, items, auto, skipDraft);
      OnlyEnqueued(db.jobs, db'.jobs) && JobsOk(db'.jobs, db'.nextJob, db'.nextProcess)
  {
    hide JobsOk, SyncOne, OnlyEnqueued;
    NothingEnqueued(db.jobs);
    if items != [] {
      var n := |items| - 1;
      SyncAllEnqueues(db, items[..n], auto, skipDraft);
      var before := SyncAll(db, items[..n], auto, skipDraft);
      SyncOneEnqueues(before, items[n], auto, skipDraft);
      EnqueuedTwice(db.jobs, before.jobs, SyncOne(before, items[n], auto, skipDraft).jobs);
    }
  }

  // A poll touches no job but those it enqueues.
  lemma PollEnqueues(db: Rows, items: seq<Listed>, known: set<nat>, limit: nat, auto: bool, skipDraft: bool)
    requires JobsOk(db.jobs, db.nextJob, db.nextProcess)
    ensures var db' := Poll(db, items, known, limit, auto, skipDraft);
      OnlyEnqueued(db.jobs, db'.jobs) && JobsOk(db'.jobs, db'.nextJob, db'.nextProcess)
  {
    hide JobsOk, OnlyEnqueued;
    SyncAllEnqueues(db, items, auto, skipDraft);
  }

  // ------------------------------------------------------------ the other writers

  lemma RequestMoves(db: Rows, pr: nat, head: string, trigger: Trigger, retryRun: Option<nat>)
    requires JobsOk(db.jobs, db.nextJob, db.nextProcess)
    ensures JobsMove(db, EnqueueOrRevive(db, pr, head, trigger, retryRun).0, {}, false)
  {
    hide OneRowPerHead, JobsMove;
    var found := LookUp(db.jobs, db.nextJob, pr, head);
    if found.None? {
      NoneFor(db, pr, head);
      InsertMoves(db, NewJob(pr, head, trigger, 0, retryRun));
    } else if found.value in db.jobs {
      var job := db.jobs[found.value];
      var revived := if Ended(job) then Revived(job, trigger, retryRun) else job;
      ChangeMoves(db, found.value, Upgraded(revived, trigger), {});
    } else {
      SameMoves(db, {}, false);
    }
  }

  lemma ClaimMoves(db: Rows, j: nat, process: nat)
    requires JobsOk(db.jobs, db.nextJob, db.nextProcess) && process < db.nextProcess
    requires j in db.jobs && db.jobs[j].status == Queued
    ensures JobsMove(db, Claim(db, j, process), {}, false)
  {
    hide OneRowPerHead, JobsMove;
    ChangeMoves(db, j, Claim(db, j, process).jobs[j], {});
  }

  lemma DoneMoves(db: Rows, j: nat, run: nat, process: nat)
    requires JobsOk(db.jobs, db.nextJob, db.nextProcess) && MarkDone(db, j, run, process).Ok?
    ensures JobsMove(db, MarkDone(db, j, run, process).value, {j}, false)
  {
    hide OneRowPerHead, JobsMove;
    ChangeMoves(db, j, MarkDone(db, j, run, process).value.jobs[j], {j});
  }

  lemma CanceledMoves(db: Rows, j: nat, cause: Cause, process: nat)
    requires JobsOk(db.jobs, db.nextJob, db.nextProcess) && MarkCanceled(db, j, cause, process).Ok?
    ensures JobsMove(db, MarkCanceled(db, j, cause, process).value, {j}, false)
  {
    hide OneRowPerHead, JobsMove;
    ChangeMoves(db, j, MarkCanceled(db, j, cause, process).value.jobs[j], {j});
  }

  lemma FailedMoves(db: Rows, j: nat, run: Option<nat>, retry: bool, process: nat)
    requires JobsOk(db.jobs, db.nextJob, db.nextProcess) && MarkFailed(db, j, run, retry, process).Ok?
    ensures JobsMove(db, MarkFailed(db, j, run, retry, process).value, {j}, false)
  {
    hide OneRowPerHead, JobsMove, Pow2;
    ChangeMoves(db, j, MarkFailed(db, j, run, retry, process).value.jobs[j], {j});
  }

  lemma CancelHeldMoves(db: Rows, j: nat, process: nat)
    requires JobsOk(db.jobs, db.nextJob, db.nextProcess)
    ensures JobsMove(db, CancelHeld(db, j, process), HeldBy(db, j, process), false)
  {
    hide OneRowPerHead, JobsMove;
    if Owns(db, j, process) && (db.jobs[j].status == Queued || db.jobs[j].status == Running) {
      ChangeMoves(db, j, CancelHeld(db, j, process).jobs[j], {j});
    } else {
      SameMoves(db, HeldBy(db, j, process), false);
    }
  }

  function HeldBy(db: Rows, j: nat, process: nat): set<nat> {
    if Owns(db, j, process) then {j} else {}
  }

  lemma EnqueuedAfter(db: Rows, db1: Rows, db2: Rows, j: nat, except: set<nat>)
    requires JobsMove(db, db1, except, false) && OnlyEnqueued(db1.jobs, db2.jobs)
    requires JobsOk(db2.jobs, db2.nextJob, db2.nextProcess)
    requires forall i <- db1.jobs | i in db.jobs && db1.jobs[i] != db.jobs[i] :: i == j && !Ended(db.jobs[i])
    requires forall i <- db1.jobs :: i in db.jobs
    requires j in db1.jobs ==> db2.jobs[j] == db1.jobs[j]
    ensures JobsMove(db, db2, except, false)
  {
    hide OneRowPerHead;
    forall i <- db2.jobs ensures Legal(if i in db.jobs then Some(db.jobs[i]) else None, db2.jobs[i], false) {
      if i in db1.jobs && db2.jobs[i] == db1.jobs[i] {
        assert Legal(Some(db.jobs[i]), db1.jobs[i], false);
      }
    }
  }

  lemma ReplaceMoves(db: Rows, j: nat, process: nat)
    requires JobsOk(db.jobs, db.nextJob, db.nextProcess)
    ensures JobsMove(db, ReplaceStale(db, j, process), HeldBy(db, j, process), false)
  {
    hide OneRowPerHead, JobsMove, EnqueueHead, OnlyEnqueued, JobsOk;
    CancelHeldMoves(db, j, process);
    SameMoves(db, HeldBy(db, j, process), false);
    if j in db.jobs {
      var job, db1 := db.jobs[j], CancelHeld(db, j, process);
      if job.pr in db.prs && db.prs[job.pr].head != "" && db.prs[job.pr].head != job.head {
        var head := db.prs[job.pr].head;
        var trigger := if job.trigger == Auto then Auto else Manual;
        assert JobsOk(db1.jobs, db1.nextJob, db1.nextProcess) by { MovesOk(db, db1, HeldBy(db, j, process), false); }
        EnqueueHeadEnqueues(db1, job.pr, head, trigger, job.priority);
        HeadElsewhere(db1, j, job.pr, head, trigger, job.priority);
        EnqueuedAfter(db, db1, EnqueueHead(db1, job.pr, head, trigger, job.priority), j, HeldBy(db, j, process));
      }
    }
  }

  lemma MovesOk(db: Rows, db': Rows, except: set<nat>, recovery: bool)
    requires JobsMove(db, db', except, recovery)
    ensures JobsOk(db'.jobs, db'.nextJob, db'.nextProcess)
  {
  }

  lemma HeadElsewhere(db: Rows, j: nat, pr: nat, head: string, trigger: Trigger, priority: int)
    requires JobsOk(db.jobs, db.nextJob, db.nextProcess) && j in db.jobs && db.jobs[j].head != head
    ensures EnqueueHead(db, pr, head, trigger, priority).jobs[j] == db.jobs[j]
  {
    hide OneRowPerHead;
    LookUpExact(db.jobs, db.nextJob, pr, head);
  }

  lemma CancelQueuedMoves(db: Rows, pr: nat)
    requires JobsOk(db.jobs, db.nextJob, db.nextProcess)
    ensures JobsMove(db, CancelQueued(db, pr), {}, false)
  {
    var jobs' := CancelQueued(db, pr).jobs;
    forall i, k, p, head | IsFor(jobs', i, p, head) && IsFor(jobs', k, p, head) ensures i == k {
      assert IsFor(db.jobs, i, p, head) && IsFor(db.jobs, k, p, head);
    }
  }

  // Running jobs whose owner has no live lease.
  function Orphans(db: Rows): set<nat> {
    set j <- db.jobs | db.jobs[j].owner.Some? && !Live(db.leases, db.now, db.jobs[j].owner.value)
  }

  lemma RecoverMoves(db: Rows)
    requires JobsOk(db.jobs, db.nextJob, db.nextProcess)
    ensures JobsMove(db, RecoverExpired(db), Orphans(db), true)
  {
    hide Live;
    var jobs' := RecoverExpired(db).jobs;
    forall i, k, p, head | IsFor(jobs', i, p, head) && IsFor(jobs', k, p, head) ensures i == k {
      assert IsFor(db.jobs, i, p, head) && IsFor(db.jobs, k, p, head);
    }
  }
}
