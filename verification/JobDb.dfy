// The queue's transactions on stored rows.
module JobDb {
  import opened Text
  import opened JobQueue

  lemma LookUpStep(jobs: Jobs, n: nat, pr: nat, head: string)
    ensures LookUp(jobs, n + 1, pr, head) ==
      if LookUp(jobs, n, pr, head).Some? then LookUp(jobs, n, pr, head)
      else if IsFor(jobs, n, pr, head) then Some(n) else None
  {
  }

  lemma {:induction false} FoundStays(jobs: Jobs, m: nat, n: nat, pr: nat, head: string)
    requires m <= n && LookUp(jobs, m, pr, head).Some?
    ensures LookUp(jobs, n, pr, head) == LookUp(jobs, m, pr, head)
  {
    if m < n {
      FoundStays(jobs, m, n - 1, pr, head);
    }
  }

  lemma SyncStep(db: Rows, items: seq<Listed>, i: nat, auto: bool, skipDraft: bool)
    requires i < |items|
    ensures SyncAll(db, items[..i + 1], auto, skipDraft) ==
      SyncOne(SyncAll(db, items[..i], auto, skipDraft), items[i], auto, skipDraft)
  {
    hide SyncOne;
    assert items[..i + 1][..i] == items[..i];
  }

  // What a recovery leaves at work belongs to processes whose lease it leaves.
  lemma LeftIsAlive(db: Rows)
    ensures var after := RecoverExpired(db);
      && (forall j <- after.jobs | after.jobs[j].status == Running && after.jobs[j].owner.Some? ::
            after.jobs[j].owner.value in after.leases)
      && (forall r <- after.runs | after.runs[r].status == InProgress :: after.runs[r].owner in after.leases)
      && (forall p :: p in after.leases <==> Live(db.leases, db.now, p))
  {
  }

  class ReviewDb {
    var jobs: Jobs
    var runs: map<nat, Run>
    var prs: map<nat, Pr>
    var leases: map<nat, nat>
    var now: nat
    var nextJob: nat
    var nextRun: nat
    var nextProcess: nat

    function Stored(): Rows
      reads this
    {
      Rows(jobs, runs, prs, leases, now, nextJob, nextRun, nextProcess)
    }

    constructor ()
      ensures Stored() == Rows(map[], map[], map[], map[], 0, 0, 0, 0)
    {
      jobs, runs, prs, leases, now := map[], map[], map[], map[], 0;
      nextJob, nextRun, nextProcess := 0, 0, 0;
    }

    method Find(pr: nat, head: string) returns (found: Option<nat>)
      ensures found == LookUp(jobs, nextJob, pr, head)
    {
      var n := 0;
      while n < nextJob
        invariant n <= nextJob
        invariant LookUp(jobs, n, pr, head) == None
      {
        LookUpStep(jobs, n, pr, head);
        if n in jobs && jobs[n].pr == pr && jobs[n].head == head {
          FoundStays(jobs, n + 1, nextJob, pr, head);
          return Some(n);
        }
        n := n + 1;
      }
      return None;
    }

    method EnqueueWithResult(pr: nat, head: string, trigger: Trigger, priority: int) returns (changed: bool)
      modifies `jobs, `nextJob
      ensures (Stored(), changed) == Enqueue(old(Stored()), pr, head, trigger, priority)
    {
      var found := Find(pr, head);
      if found.None? {
        jobs, nextJob := jobs[nextJob := NewJob(pr, head, trigger, priority, None)], nextJob + 1;
        return true;
      }
      var j := found.value;
      if j in jobs && jobs[j].status == Canceled && IsSystemCancel(jobs[j].error) {
        jobs := jobs[j := jobs[j].(
          status := Queued, trigger := trigger, nextRun := 0, attempts := 0, error := Nothing)];
        return true;
      }
      return false;
    }

    method EnqueueForcibly(pr: nat, head: string, trigger: Trigger, retryRun: Option<nat>) returns (ok: bool)
      modifies `jobs, `nextJob
      ensures (Stored(), ok) == EnqueueOrRevive(old(Stored()), pr, head, trigger, retryRun)
    {
      var found := Find(pr, head);
      if found.None? {
        jobs, nextJob := jobs[nextJob := NewJob(pr, head, trigger, 0, retryRun)], nextJob + 1;
        return true;
      }
      var j := found.value;
      if j !in jobs {
        return false;
      }
      var job := jobs[j];
      if job.status == Done || job.status == Failed || job.status == Canceled {
        job := job.(status := Queued, trigger := trigger, retryRun := retryRun, nextRun := 0, attempts := 0,
                    error := Nothing);
      }
      if trigger == Manual && job.status == Queued && job.trigger == Auto {
        job := job.(trigger := Manual);
      }
      jobs := jobs[j := job];
      return !Conflicts(job, trigger, retryRun);
    }

    method ClaimNext(process: nat) returns (claimed: Option<nat>)
      modifies `jobs
      ensures claimed == First(old(jobs), now, nextJob)
      ensures Stored() == if claimed.Some? then Claim(old(Stored()), claimed.value, process) else old(Stored())
    {
      claimed := None;
      var n := 0;
      while n < nextJob
        invariant n <= nextJob
        invariant claimed == First(jobs, now, n)
      {
        if n in jobs && jobs[n].status == Queued && jobs[n].nextRun <= now {
          if claimed.None? || jobs[claimed.value].priority < jobs[n].priority {
            claimed := Some(n);
          }
        }
        n := n + 1;
      }
      if claimed.Some? {
        var j := claimed.value;
        jobs := jobs[j := jobs[j].(status := Running, owner := Some(process), attempts := jobs[j].attempts + 1)];
      }
    }

    method MarkJobDone(j: nat, run: nat, process: nat) returns (r: Result<(), Error>)
      modifies `jobs
      ensures r.Ok? <==> Owns(old(Stored()), j, process)
      ensures Stored() == if r.Ok? then MarkDone(old(Stored()), j, run, process).value else old(Stored())
    {
      if j !in jobs || jobs[j].owner != Some(process) {
        return Err(LeaseLost);
      }
      jobs := jobs[j := jobs[j].(status := Done, run := Some(run), owner := None)];
      return Ok(());
    }

    method MarkJobCanceled(j: nat, cause: Cause, process: nat) returns (r: Result<(), Error>)
      modifies `jobs
      ensures r.Ok? <==> Owns(old(Stored()), j, process)
      ensures Stored() == if r.Ok? then MarkCanceled(old(Stored()), j, cause, process).value else old(Stored())
    {
      if j !in jobs || jobs[j].owner != Some(process) {
        return Err(LeaseLost);
      }
      jobs := jobs[j := jobs[j].(status := Canceled, error := cause, owner := None)];
      return Ok(());
    }

    method MarkJobFailed(j: nat, run: Option<nat>, retry: bool, process: nat) returns (r: Result<(), Error>)
      modifies `jobs
      ensures r.Ok? <==> Owns(old(Stored()), j, process)
      ensures Stored() == if r.Ok? then MarkFailed(old(Stored()), j, run, retry, process).value else old(Stored())
    {
      if j !in jobs || jobs[j].owner != Some(process) {
        return Err(LeaseLost);
      }
      var job := jobs[j].(error := Broken, owner := None);
      if run.Some? {
        job := job.(run := run);
      }
      if retry && job.attempts < MAX_ATTEMPTS {
        job := job.(status := Queued, nextRun := now + Pow2(job.attempts) * MINUTE);
      } else {
        job := job.(status := Failed);
      }
      jobs := jobs[j := job];
      return Ok(());
    }

    method CancelStaleAndEnqueueLatest(j: nat, process: nat)
      modifies `jobs, `nextJob
      ensures Stored() == ReplaceStale(old(Stored()), j, process)
    {
      if j !in jobs {
        return;
      }
      var job := jobs[j];
      if job.owner == Some(process) && (job.status == Queued || job.status == Running) {
        jobs := jobs[j := job.(status := Canceled, error := StaleHead, owner := None)];
      }
      if job.pr !in prs || prs[job.pr].head == "" || prs[job.pr].head == job.head {
        return;
      }
      var trigger, head := if job.trigger == Auto then Auto else Manual, prs[job.pr].head;
      var found := Find(job.pr, head);
      if found.None? {
        jobs, nextJob := jobs[nextJob := NewJob(job.pr, head, trigger, job.priority, None)], nextJob + 1;
        return;
      }
      var latest := found.value;
      if latest in jobs && jobs[latest].status == Canceled && IsSystemCancel(jobs[latest].error) {
        jobs := jobs[latest := jobs[latest].(
          status := Queued, trigger := trigger, retryRun := None, nextRun := 0, attempts := 0, error := Nothing)];
      }
    }

    method CancelReview(pr: nat)
      modifies `jobs
      ensures Stored() == CancelQueued(old(Stored()), pr)
      ensures jobs.Keys == old(jobs).Keys && forall j <- jobs :: !(jobs[j].pr == pr && jobs[j].status == Queued)
      ensures forall j <- jobs | jobs[j] != old(jobs)[j] ::
        old(jobs)[j].pr == pr && old(jobs)[j].status == Queued
        && jobs[j].status == Canceled && !Revivable(jobs[j]) && jobs[j].attempts == old(jobs)[j].attempts
    {
      jobs := map j <- jobs ::
        if jobs[j].pr == pr && jobs[j].status == Queued then jobs[j].(status := Canceled, error := ByUser)
        else jobs[j];
    }

    method RegisterProcess() returns (p: nat)
      modifies `leases, `nextProcess
      ensures p == old(nextProcess) && Stored() == Register(old(Stored()))
      ensures Live(leases, now, p) && forall q | q != p :: Live(leases, now, q) <==> Live(old(leases), now, q)
    {
      p := nextProcess;
      leases, nextProcess := leases[p := now + LEASE_TTL], nextProcess + 1;
    }

    method Beat(p: nat) returns (alive: bool)
      modifies `leases
      ensures alive <==> Live(old(leases), now, p)
      ensures Stored() == Heartbeat(old(Stored()), p)
    {
      alive := p in leases && now < leases[p];
      if alive {
        leases := leases[p := now + LEASE_TTL];
      }
    }

    method Recover()
      modifies `jobs, `runs, `leases
      ensures Stored() == RecoverExpired(old(Stored()))
      ensures forall j <- jobs | jobs[j].status == Running && jobs[j].owner.Some? :: jobs[j].owner.value in leases
      ensures forall r <- runs | runs[r].status == InProgress :: runs[r].owner in leases
      ensures forall p :: p in leases <==> Live(old(leases), now, p)
    {
      var db := Stored();
      jobs := map j <- jobs :: RecoveredJob(db, jobs[j]);
      runs := map r <- runs :: RecoveredRun(db, runs[r]);
      leases := map p <- leases | now < leases[p] :: leases[p];
      hide RecoveredJob, RecoveredRun;
      LeftIsAlive(db);
    }

    // The lease, the head and then all rows in one transaction.
    method CommitRun(r: nat, pr: nat, head: string, process: nat) returns (barrier: Barrier)
      modifies `runs, `prs
      ensures (Stored(), barrier) == CommitReview(old(Stored()), r, pr, head, process)
    {
      if !(process in leases && now < leases[process]) {
        return Lost;
      }
      if pr !in prs || prs[pr].head != head {
        if r in runs {
          runs := runs[r := runs[r].(status := Dropped)];
        }
        return Moved;
      }
      if r in runs {
        runs := runs[r := runs[r].(status := Reviewed)];
      }
      prs := prs[pr := prs[pr].(lastReviewed := Some(head))];
      return Committed;
    }

    method UpsertPr(pr: nat, head: string, open: bool)
      modifies `prs
      ensures Stored() == Upsert(old(Stored()), pr, head, open)
      ensures AtHead(Stored(), pr, head) && prs.Keys == old(prs).Keys + {pr}
      ensures prs[pr].lastReviewed == if pr in old(prs) then old(prs)[pr].lastReviewed else None
      ensures forall q <- prs | q != pr :: prs[q] == old(prs)[q]
    {
      if pr in prs {
        prs := prs[pr := prs[pr].(head := head, open := open)];
      } else {
        prs := prs[pr := Pr(head, open, None)];
      }
    }

    method PollRepo(items: seq<Listed>, known: set<nat>, limit: nat, auto: bool, skipDraft: bool)
      modifies `jobs, `nextJob, `prs
      ensures Stored() == Poll(old(Stored()), items, known, limit, auto, skipDraft)
    {
      for i := 0 to |items|
        invariant runs == old(runs) && leases == old(leases) && now == old(now)
        invariant nextRun == old(nextRun) && nextProcess == old(nextProcess)
        invariant Stored() == SyncAll(old(Stored()), items[..i], auto, skipDraft)
      {
        ghost var before := Stored();
        var item := items[i];
        UpsertPr(item.pr, item.head, item.open);
        if auto && !(skipDraft && item.draft) && prs[item.pr].lastReviewed != Some(item.head) {
          var _ := EnqueueWithResult(item.pr, item.head, Auto, 0);
        }
        SyncStep(old(Stored()), items, i, auto, skipDraft);
        assert Stored() == SyncOne(before, item, auto, skipDraft);
      }
      assert items[..|items|] == items;
      if |items| < limit {
        var gone := known - (set item <- items :: item.pr);
        prs := map pr <- prs :: if pr in gone && prs[pr].open then prs[pr].(open := false) else prs[pr];
      }
    }
  }
}
