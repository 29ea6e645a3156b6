// What the queue's transactions leave in the rows, said on the rows alone.
module QueueEffects {
  import opened Text
  import opened JobQueue
  import opened QueueRows
  import opened QueueSteps

  // ------------------------------------------------------------------- polling

  // A listed pull request that is to be reviewed: no draft to be skipped, and its
  // head is not the one that was reviewed last.
  predicate ToReview(prs: map<nat, Pr>, item: Listed, auto: bool, skipDraft: bool) {
    && auto && !(item.draft && skipDraft)
    && (item.pr in prs ==> prs[item.pr].lastReviewed != Some(item.head))
  }

  predicate CanceledByProgram(job: Job) {
    job.status == Canceled
    && (job.error == ClosedPr || job.error == DisabledRepo || job.error == NoVendor || job.error == StaleHead)
  }

  // The head of a pull request has a job that the program has not canceled.
  ghost predicate HasJob(jobs: Jobs, pr: nat, head: string) {
    exists j <- jobs :: jobs[j].pr == pr && jobs[j].head == head && !CanceledByProgram(jobs[j])
  }

  // The job is new or starts over, for an item that is to be reviewed.
  predicate EnqueuedFor(jobs: Jobs, job: Job, j: nat, item: Listed) {
    && job.pr == item.pr && job.head == item.head && job.status == Queued && job.trigger == Auto
    && job.attempts == 0 && job.nextRun == 0 && job.error == Nothing && job.owner == None
    && (j in jobs ==>
          CanceledByProgram(jobs[j])
          && job == jobs[j].(status := Queued, trigger := Auto, nextRun := 0, attempts := 0, error := Nothing))
    && (j !in jobs ==> job.priority == 0 && job.run == None && job.retryRun == None)
  }

  ghost predicate JobsAfter(before: Jobs, after: Jobs, prs: map<nat, Pr>, items: seq<Listed>, auto: bool, skipDraft: bool) {
    && (forall j <- before :: j in after)
    && (forall j <- after :: (j in before && after[j] == before[j])
          || exists i :: 0 <= i < |items| && ToReview(prs, items[i], auto, skipDraft) && EnqueuedFor(before, after[j], j, items[i]))
    && (forall i | 0 <= i < |items| && ToReview(prs, items[i], auto, skipDraft) :: HasJob(after, items[i].pr, items[i].head))
  }

  // The last listing of a pull request, if it is listed.
  function LastListed(items: seq<Listed>, pr: nat): Option<Listed> {
    if items == [] then None
    else if items[|items| - 1].pr == pr then Some(items[|items| - 1])
    else LastListed(items[..|items| - 1], pr)
  }

  // Listed pull requests get the listed head and state and keep what was reviewed;
  // the others stay.
  ghost predicate PrsAfter(before: map<nat, Pr>, after: map<nat, Pr>, items: seq<Listed>) {
    && (forall pr :: pr in after <==> pr in before || LastListed(items, pr).Some?)
    && (forall pr <- after ::
          var listed := LastListed(items, pr);
          if listed.Some? then
            after[pr] == Pr(listed.value.head, listed.value.open, if pr in before then before[pr].lastReviewed else None)
          else pr in before && after[pr] == before[pr])
  }

  lemma SyncOnePrs(db: Rows, item: Listed, auto: bool, skipDraft: bool)
    ensures SyncOne(db, item, auto, skipDraft).prs == db.prs[item.pr :=
      Pr(item.head, item.open, if item.pr in db.prs then db.prs[item.pr].lastReviewed else None)]
  {
    hide LookUp, Revivable, NewJob, Revived;
  }

  lemma {:induction false} SyncAllPrs(db: Rows, items: seq<Listed>, auto: bool, skipDraft: bool)
    ensures PrsAfter(db.prs, SyncAll(db, items, auto, skipDraft).prs, items)
  {
    hide SyncOne;
    if items != [] {
      var n := |items| - 1;
      SyncAllPrs(db, items[..n], auto, skipDraft);
      SyncOnePrs(SyncAll(db, items[..n], auto, skipDraft), items[n], auto, skipDraft);
    }
  }

  // What an enqueue does, by looking at the rows.
  lemma EnqueueExactly(db: Rows, pr: nat, head: string, trigger: Trigger, priority: int)
    requires JobsOk(db.jobs, db.nextJob, db.nextProcess)
    ensures var (db', changed) := Enqueue(db, pr, head, trigger, priority);
      && (forall j | IsFor(db.jobs, j, pr, head) ::
            if CanceledByProgram(db.jobs[j])
            then changed && db' == db.(jobs := db.jobs[j :=
                   db.jobs[j].(status := Queued, trigger := trigger, nextRun := 0, attempts := 0, error := Nothing)])
            else !changed && db' == db)
      && ((forall j :: !IsFor(db.jobs, j, pr, head)) ==>
            changed && db' == db.(
              jobs := db.jobs[db.nextJob := Job(pr, head, trigger, Queued, priority, 0, None, 0, None, None, Nothing)],
              nextJob := db.nextJob + 1))
  {
    LookUpExact(db.jobs, db.nextJob, pr, head);
  }

  lemma NothingToDo(jobs: Jobs, prs: map<nat, Pr>, auto: bool, skipDraft: bool)
    ensures JobsAfter(jobs, jobs, prs, [], auto, skipDraft)
  {
  }

  // One more item that is not to be reviewed.
  lemma ItemSkipped(before: Jobs, after: Jobs, prs: map<nat, Pr>, items: seq<Listed>, item: Listed, auto: bool, skipDraft: bool)
    requires JobsAfter(before, after, prs, items, auto, skipDraft) && !ToReview(prs, item, auto, skipDraft)
    ensures JobsAfter(before, after, prs, items + [item], auto, skipDraft)
  {
    hide ToReview, EnqueuedFor, HasJob;
    var more := items + [item];
    assert forall i | 0 <= i < |items| :: more[i] == items[i];
    forall j <- after | !(j in before && after[j] == before[j])
      ensures exists i :: 0 <= i < |more| && ToReview(prs, more[i], auto, skipDraft) && EnqueuedFor(before, after[j], j, more[i])
    {
      var i :| 0 <= i < |items| && ToReview(prs, items[i], auto, skipDraft) && EnqueuedFor(before, after[j], j, items[i]);
      assert more[i] == items[i];
    }
  }

  // One more item that is: its job appears, starts over, or was there already.
  lemma ItemEnqueued(
      before: Jobs, mid: Jobs, after: Jobs, prs: map<nat, Pr>, items: seq<Listed>, item: Listed, auto: bool, skipDraft: bool)
    requires JobsAfter(before, mid, prs, items, auto, skipDraft) && ToReview(prs, item, auto, skipDraft)
    requires forall j <- mid :: j in after
    requires forall j <- after | !(j in mid && after[j] == mid[j]) :: EnqueuedFor(mid, after[j], j, item)
    requires HasJob(after, item.pr, item.head)
    ensures JobsAfter(before, after, prs, items + [item], auto, skipDraft)
  {
    hide ToReview;
    var more := items + [item];
    assert more[|items|] == item && forall i | 0 <= i < |items| :: more[i] == items[i];
    forall j <- after | !(j in before && after[j] == before[j])
      ensures exists i :: 0 <= i < |more| && ToReview(prs, more[i], auto, skipDraft) && EnqueuedFor(before, after[j], j, more[i])
    {
      if j in mid && after[j] == mid[j] {
        var i :| 0 <= i < |items| && ToReview(prs, items[i], auto, skipDraft) && EnqueuedFor(before, after[j], j, items[i]);
        assert more[i] == items[i];
      } else {
        assert EnqueuedFor(before, after[j], j, more[|items|]) by { FirstEnqueued(before, mid, after, prs, items, j, item, auto, skipDraft); }
      }
    }
    forall i | 0 <= i < |more| && ToReview(prs, more[i], auto, skipDraft) ensures HasJob(after, more[i].pr, more[i].head) {
      if i < |items| {
        JobStays(mid, after, items[i].pr, items[i].head, item);
      }
    }
  }

  lemma FirstEnqueued(
      before: Jobs, mid: Jobs, after: Jobs, prs: map<nat, Pr>, items: seq<Listed>, j: nat, item: Listed, auto: bool,
      skipDraft: bool)
    requires JobsAfter(before, mid, prs, items, auto, skipDraft) && j in after && EnqueuedFor(mid, after[j], j, item)
    ensures EnqueuedFor(before, after[j], j, item)
  {
    hide ToReview, HasJob;
  }

  lemma JobStays(mid: Jobs, after: Jobs, pr: nat, head: string, item: Listed)
    requires HasJob(mid, pr, head) && forall j <- mid :: j in after
    requires forall j <- after | !(j in mid && after[j] == mid[j]) :: EnqueuedFor(mid, after[j], j, item)
    ensures HasJob(after, pr, head)
  {
    var j :| j in mid && mid[j].pr == pr && mid[j].head == head && !CanceledByProgram(mid[j]);
    assert after[j].pr == pr && after[j].head == head && !CanceledByProgram(after[j]);
  }

  lemma EnqueueRows(db: Rows, item: Listed)
    requires JobsOk(db.jobs, db.nextJob, db.nextProcess)
    ensures var after := Enqueue(db, item.pr, item.head, Auto, 0).0.jobs;
      && (forall j <- db.jobs :: j in after)
      && (forall j <- after | !(j in db.jobs && after[j] == db.jobs[j]) :: EnqueuedFor(db.jobs, after[j], j, item))
      && HasJob(after, item.pr, item.head)
  {
    hide Enqueue, OneRowPerHead;
    EnqueueExactly(db, item.pr, item.head, Auto, 0);
    var after := Enqueue(db, item.pr, item.head, Auto, 0).0.jobs;
    if j: nat :| IsFor(db.jobs, j, item.pr, item.head) {
      assert JobOk(db.jobs[j], db.nextProcess);
      assert after[j].pr == item.pr && after[j].head == item.head && !CanceledByProgram(after[j]);
    } else {
      assert after[db.nextJob].pr == item.pr && !CanceledByProgram(after[db.nextJob]);
    }
  }

  lemma SyncOneJobs(db: Rows, item: Listed, auto: bool, skipDraft: bool)
    ensures SyncOne(db, item, auto, skipDraft).jobs ==
      if ToReview(db.prs, item, auto, skipDraft) then Enqueue(Upsert(db, item.pr, item.head, item.open), item.pr, item.head, Auto, 0).0.jobs
      else db.jobs
  {
    hide Enqueue;
  }

  lemma {:induction false} SyncAllJobs(db: Rows, items: seq<Listed>, auto: bool, skipDraft: bool)
    requires JobsOk(db.jobs, db.nextJob, db.nextProcess)
    ensures JobsAfter(db.jobs, SyncAll(db, items, auto, skipDraft).jobs, db.prs, items, auto, skipDraft)
  {
    hide SyncOne, JobsAfter, JobsOk, Enqueue, OnlyEnqueued, PrsAfter;
    if items == [] {
      NothingToDo(db.jobs, db.prs, auto, skipDraft);
    } else {
      var n := |items| - 1;
      var mid, item := SyncAll(db, items[..n], auto, skipDraft), items[n];
      assert items == items[..n] + [item];
      SyncAllJobs(db, items[..n], auto, skipDraft);
      SyncAllEnqueues(db, items[..n], auto, skipDraft);
      SyncAllPrs(db, items[..n], auto, skipDraft);
      SameToReview(db.prs, mid.prs, items[..n], item, auto, skipDraft);
      SyncOneJobs(mid, item, auto, skipDraft);
      hide ToReview, EnqueuedFor, HasJob;
      if ToReview(db.prs, item, auto, skipDraft) {
        EnqueueRows(Upsert(mid, item.pr, item.head, item.open), item);
        ItemEnqueued(db.jobs, mid.jobs, SyncOne(mid, item, auto, skipDraft).jobs, db.prs, items[..n], item, auto, skipDraft);
      } else {
        ItemSkipped(db.jobs, mid.jobs, db.prs, items[..n], item, auto, skipDraft);
      }
    }
  }

  lemma SameToReview(before: map<nat, Pr>, after: map<nat, Pr>, items: seq<Listed>, item: Listed, auto: bool, skipDraft: bool)
    requires PrsAfter(before, after, items)
    ensures ToReview(after, item, auto, skipDraft) <==> ToReview(before, item, auto, skipDraft)
  {
  }

  // After a poll every listed pull request that is to be reviewed has a job for its
  // head that the program has not canceled, and no job is new or starts over but
  // for these. What was reviewed last is judged by the rows before the poll.
  lemma PollExactly(db: Rows, items: seq<Listed>, known: set<nat>, limit: nat, auto: bool, skipDraft: bool)
    requires JobsOk(db.jobs, db.nextJob, db.nextProcess)
    ensures JobsAfter(db.jobs, Poll(db, items, known, limit, auto, skipDraft).jobs, db.prs, items, auto, skipDraft)
  {
    hide SyncAll, JobsAfter;
    SyncAllJobs(db, items, auto, skipDraft);
  }

  // The pull requests after a poll: the listed ones are as listed, and of the
  // others those are closed that were known to be open before the list was fetched,
  // unless the list may have been cut off.
  lemma PollPrs(db: Rows, items: seq<Listed>, known: set<nat>, limit: nat, auto: bool, skipDraft: bool)
    ensures var before, after := db.prs, Poll(db, items, known, limit, auto, skipDraft).prs;
      && (forall pr :: pr in after <==> pr in before || LastListed(items, pr).Some?)
      && (forall pr <- after ::
            var listed := LastListed(items, pr);
            if listed.Some? then
              after[pr] == Pr(listed.value.head, listed.value.open, if pr in before then before[pr].lastReviewed else None)
            else
              pr in before && after[pr] == if pr in known && |items| < limit then before[pr].(open := false) else before[pr])
  {
    hide SyncAll;
    SyncAllPrs(db, items, auto, skipDraft);
    forall pr ensures LastListed(items, pr).Some? <==> pr in (set item <- items :: item.pr) {
      ListedIs(items, pr);
    }
  }

  lemma {:induction false} ListedIs(items: seq<Listed>, pr: nat)
    ensures LastListed(items, pr).Some? <==> pr in (set item <- items :: item.pr)
  {
    if items != [] {
      var n := |items| - 1;
      ListedIs(items[..n], pr);
      assert items == items[..n] + [items[n]];
    }
  }

  // A webhook call is a poll of one pull request that closes nothing.
  lemma WebhookExactly(db: Rows, item: Listed, skipDraft: bool)
    requires JobsOk(db.jobs, db.nextJob, db.nextProcess)
    ensures var after := SyncOne(db, item, true, skipDraft);
      && JobsAfter(db.jobs, after.jobs, db.prs, [item], true, skipDraft) && PrsAfter(db.prs, after.prs, [item])
  {
    hide SyncOne, JobsAfter, PrsAfter;
    SyncAllJobs(db, [item], true, skipDraft);
    SyncAllPrs(db, [item], true, skipDraft);
    assert [item][..0] == [];
    assert SyncAll(db, [item], true, skipDraft) == SyncOne(SyncAll(db, [], true, skipDraft), item, true, skipDraft);
  }

  // ---------------------------------------------------------------- on request

  predicate Over(job: Job) {
    job.status == Done || job.status == Failed || job.status == Canceled
  }

  // A person asks: a finished job starts over, a waiting automatic one becomes
  // manual, and one under way for another purpose is a conflict.
  lemma RequestExactly(db: Rows, pr: nat, head: string, trigger: Trigger, retryRun: Option<nat>)
    requires JobsOk(db.jobs, db.nextJob, db.nextProcess)
    ensures var (db', ok) := EnqueueOrRevive(db, pr, head, trigger, retryRun);
      && ((forall j :: !IsFor(db.jobs, j, pr, head)) ==>
            ok && db' == db.(
              jobs := db.jobs[db.nextJob := Job(pr, head, trigger, Queued, 0, 0, None, 0, None, retryRun, Nothing)],
              nextJob := db.nextJob + 1))
      && (forall j | IsFor(db.jobs, j, pr, head) ::
            var job := db.jobs[j];
            if Over(job) then
              ok && db' == db.(jobs := db.jobs[j := job.(
                status := Queued, trigger := trigger, retryRun := retryRun, nextRun := 0, attempts := 0, error := Nothing)])
            else if trigger == Manual && job.status == Queued && job.trigger == Auto then
              ok && db' == db.(jobs := db.jobs[j := job.(trigger := Manual)])
            else
              db' == db
              && (ok <==> (trigger == Manual ==> job.trigger == Manual)
                          && (trigger == Retry ==> job.trigger == Retry && job.retryRun == retryRun)))
  {
    LookUpExact(db.jobs, db.nextJob, pr, head);
    if j: nat :| IsFor(db.jobs, j, pr, head) {
      assert db.jobs[j := db.jobs[j]] == db.jobs;
    }
  }

  // ------------------------------------------------------------------ one claim

  lemma ClaimExactly(db: Rows, j: nat, process: nat)
    requires j in db.jobs
    ensures Claim(db, j, process) == db.(jobs := db.jobs[j :=
      db.jobs[j].(status := Running, owner := Some(process), attempts := db.jobs[j].attempts + 1)])
  {
  }

  // Done and canceled, by the owner alone.
  lemma EndsExactly(db: Rows, j: nat, run: nat, cause: Cause, process: nat)
    ensures var mine := j in db.jobs && db.jobs[j].owner == Some(process);
      && MarkDone(db, j, run, process) ==
           (if mine then Ok(db.(jobs := db.jobs[j := db.jobs[j].(status := Done, run := Some(run), owner := None)]))
            else Err(LeaseLost))
      && MarkCanceled(db, j, cause, process) ==
           (if mine then Ok(db.(jobs := db.jobs[j := db.jobs[j].(status := Canceled, error := cause, owner := None)]))
            else Err(LeaseLost))
  {
  }

  lemma Doubled(n: nat)
    ensures Pow2(0) == 1 && Pow2(1) == 2 && Pow2(2) == 4
  {
    assert Pow2(1) == 2 * Pow2(0) && Pow2(2) == 2 * Pow2(1);
  }

  // A failure: one that may be retried puts the job back twice, for two minutes the
  // first time and for four the second, and otherwise the job has failed.
  lemma FailureExactly(db: Rows, j: nat, run: Option<nat>, retry: bool, process: nat)
    ensures var mine := j in db.jobs && db.jobs[j].owner == Some(process);
      MarkFailed(db, j, run, retry, process).Ok? <==> mine
    ensures j in db.jobs && db.jobs[j].owner == Some(process) ==>
      var job, db' := db.jobs[j], MarkFailed(db, j, run, retry, process).value;
      var again := retry && job.attempts < 3;
      var minutes := if job.attempts == 0 then 1 else if job.attempts == 1 then 2 else 4;
      db' == db.(jobs := db.jobs[j := job.(
        status := if again then Queued else Failed, nextRun := if again then db.now + 60 * minutes else job.nextRun,
        error := Broken, owner := None, run := if run.Some? then run else job.run)])
  {
    Doubled(0);
  }

  // ---------------------------------------------------------------- a moved head

  // The job of the old head is canceled if it is still held, and then the new head
  // gets one, as an enqueue on the program's own account would.
  lemma ReplaceExactly(db: Rows, j: nat, process: nat)
    requires JobsOk(db.jobs, db.nextJob, db.nextProcess) && j in db.jobs
    ensures var job, db' := db.jobs[j], ReplaceStale(db, j, process);
      var held := job.owner == Some(process) && (job.status == Queued || job.status == Running);
      var jobs := if held then db.jobs[j := job.(status := Canceled, error := StaleHead, owner := None)] else db.jobs;
      var moved := job.pr in db.prs && db.prs[job.pr].head != "" && db.prs[job.pr].head != job.head;
      && (!moved ==> db' == db.(jobs := jobs))
      && (moved ==>
            var head, trigger := db.prs[job.pr].head, if job.trigger == Auto then Auto else Manual;
            && ((forall i :: !IsFor(db.jobs, i, job.pr, head)) ==>
                  db' == db.(
                    jobs := jobs[db.nextJob := Job(job.pr, head, trigger, Queued, job.priority, 0, None, 0, None, None, Nothing)],
                    nextJob := db.nextJob + 1))
            && (forall i | IsFor(db.jobs, i, job.pr, head) ::
                  if CanceledByProgram(db.jobs[i]) then
                    db' == db.(jobs := jobs[i := db.jobs[i].(
                      status := Queued, trigger := trigger, retryRun := None, nextRun := 0, attempts := 0, error := Nothing)])
                  else db' == db.(jobs := jobs)))
  {
    hide OneRowPerHead, EnqueueHead;
    var job, db1 := db.jobs[j], CancelHeld(db, j, process);
    if job.pr in db.prs && db.prs[job.pr].head != "" && db.prs[job.pr].head != job.head {
      var head := db.prs[job.pr].head;
      CancelHeldMoves(db, j, process);
      MovesOk(db, db1, HeldBy(db, j, process), false);
      HeadExactly(db1, job.pr, head, if job.trigger == Auto then Auto else Manual, job.priority);
      forall i ensures IsFor(db1.jobs, i, job.pr, head) <==> IsFor(db.jobs, i, job.pr, head) {
      }
      forall i | IsFor(db.jobs, i, job.pr, head) ensures db1.jobs[i] == db.jobs[i] {
      }
    }
  }

  lemma HeadExactly(db: Rows, pr: nat, head: string, trigger: Trigger, priority: int)
    requires JobsOk(db.jobs, db.nextJob, db.nextProcess)
    ensures var db' := EnqueueHead(db, pr, head, trigger, priority);
      && ((forall i :: !IsFor(db.jobs, i, pr, head)) ==>
            db' == db.(
              jobs := db.jobs[db.nextJob := Job(pr, head, trigger, Queued, priority, 0, None, 0, None, None, Nothing)],
              nextJob := db.nextJob + 1))
      && (forall i | IsFor(db.jobs, i, pr, head) ::
            if CanceledByProgram(db.jobs[i]) then
              db' == db.(jobs := db.jobs[i := db.jobs[i].(
                status := Queued, trigger := trigger, retryRun := None, nextRun := 0, attempts := 0, error := Nothing)])
            else db' == db)
  {
    LookUpExact(db.jobs, db.nextJob, pr, head);
  }

  // -------------------------------------------------------------- leases and runs

  // A lease lasts a minute from when it is given or extended, and only a live one is
  // extended.
  lemma LeasesExactly(db: Rows, p: nat)
    ensures Register(db) == db.(leases := db.leases[db.nextProcess := db.now + 60], nextProcess := db.nextProcess + 1)
    ensures Heartbeat(db, p) ==
      if p in db.leases && db.now < db.leases[p] then db.(leases := db.leases[p := db.now + 60]) else db
    ensures Release(db, p) == db.(leases := db.leases - {p})
  {
  }

  // A recovery: running jobs and runs in progress of processes without a live lease
  // are given back, and their leases are gone.
  lemma RecoveryExactly(db: Rows)
    ensures var db' := RecoverExpired(db);
      && db' == db.(jobs := db'.jobs, runs := db'.runs, leases := db'.leases)
      && db'.jobs.Keys == db.jobs.Keys && db'.runs.Keys == db.runs.Keys
      && (forall p :: p in db'.leases <==> p in db.leases && db.now < db.leases[p])
      && (forall p <- db'.leases :: db'.leases[p] == db.leases[p])
      && (forall j <- db.jobs ::
            var job := db.jobs[j];
            db'.jobs[j] ==
              if job.status == Running && job.owner.Some? && job.owner.value !in db'.leases
              then job.(status := Queued, owner := None, error := LeaseExpired) else job)
      && (forall r <- db.runs ::
            var run := db.runs[r];
            db'.runs[r] ==
              if run.status == InProgress && run.owner !in db'.leases then run.(status := Broke) else run)
  {
  }

  // The commit of a first review: nothing without a live lease; the run is dropped
  // when the head has moved; otherwise it is reviewed, and so is the head.
  lemma CommitExactly(db: Rows, r: nat, pr: nat, head: string, process: nat)
    ensures var (db', barrier) := CommitReview(db, r, pr, head, process);
      if !(process in db.leases && db.now < db.leases[process]) then barrier == Lost && db' == db
      else if pr in db.prs && db.prs[pr].head == head then
        && barrier == Committed
        && db' == db.(
             runs := if r in db.runs then db.runs[r := db.runs[r].(status := Reviewed)] else db.runs,
             prs := db.prs[pr := db.prs[pr].(lastReviewed := Some(head))])
      else
        && barrier == Moved
        && db' == db.(runs := if r in db.runs then db.runs[r := db.runs[r].(status := Dropped)] else db.runs)
  {
  }

  // A new run belongs to its process and job, and the time limit breaks the runs in
  // progress of the job.
  lemma RunsExactly(db: Rows, pr: nat, head: string, owner: nat, j: nat)
    ensures CreateRun(db, pr, head, owner, j) ==
      db.(runs := db.runs[db.nextRun := Run(pr, head, InProgress, owner, j)], nextRun := db.nextRun + 1)
    ensures var db' := BreakRunsOf(db, j);
      && db' == db.(runs := db'.runs) && db'.runs.Keys == db.runs.Keys
      && forall r <- db.runs ::
           db'.runs[r] ==
             if db.runs[r].job == j && db.runs[r].status == InProgress then db.runs[r].(status := Broke) else db.runs[r]
  {
  }
}
