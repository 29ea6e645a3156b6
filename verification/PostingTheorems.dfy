// What holds after any run of requests, remote calls, crashes and other people.
module PostingTheorems {
  import opened Text
  import opened Posting
  import opened PostingRows
  import opened PostingProtocol
  import opened PostingSafety
  import opened PostingSteps
  import opened PostingRequest

  // ------------------------------------------------------------------ finishing

  lemma RowsGrow(w: World)
    requires Inv(w) && HasOp(w) && w.handler.stage.Marked?
    ensures var rows := Supersede(w.db.posted, w.handler.prev)
                        + [PostedRow(MarkerOf(w).vendor, w.handler.stage.review, false)];
      Inv(w.(db := w.db.(posted := rows)))
  {
    hide RowsOk, OneCarrier, FlightsOk, LandedOk, RemotesOk, Counts, PostedFindings, ReviewsOk;
    hide Targets;
    var rows := Supersede(w.db.posted, w.handler.prev)
                + [PostedRow(MarkerOf(w).vendor, w.handler.stage.review, false)];
    assert Written(w.db.ops, w.handler.op, w.handler.stage.review, w.reviews, w.nextReview, w.applied);
    PostedRowsKeep(w, rows);
  }

  lemma FinalizedFindings(w: World, ops': Ops, findings': Findings, o: nat)
    requires o in ops' && o in w.db.ops && w.db.ops[o].status == RemoteApplied
    requires PostedFindings(w.db.ops, w.db.findings, w.applied) && Times(w.applied, ops'[o].identity) >= 1
    requires findings' == PostedIn(w.db.findings, ops'[o].newIds)
    requires ops' == w.db.ops[o := ops'[o]] && ops'[o].status == Succeeded
    ensures PostedFindings(ops', findings', w.applied)
  {
    forall id <- findings' | findings'[id].status == FindingStatus.Posted
      ensures exists p :: PostedThrough(ops', w.applied, p, id)
    {
      if id in ops'[o].newIds {
        assert PostedThrough(ops', w.applied, o, id);
      } else {
        var p :| PostedThrough(w.db.ops, w.applied, p, id);
        assert PostedThrough(ops', w.applied, p, id);
      }
    }
  }

  lemma FinishWorld(w: World, o: nat)
    requires WorldOk(w) && o in w.db.ops && w.db.ops[o].status == RemoteApplied
    ensures Finalize(w.db, o).Ok?
    ensures WorldOk(w.(db := Finalize(w.db, o).value))
  {
    hide PostedOk, ReviewsOk, OneCarrier, LandedOk, RemotesOk, Counts, PostedFindings, FlightsOk;
    hide Reservations, Listings, OnePerVendor, Settled, Started, Carried, PostFindings, PostedIn;
    FinalizeKeeps(w.db, o);
    OpenIsFinalizable(w.db, o);
    var db', m := Finalize(w.db, o).value, w.db.ops[o].identity;
    MarkedIsWritten(w, o);
    CountAt(w, m);
    MarkerStatus(w.db.ops, o);
    MarkerStatus(db'.ops, o);
    FinalizedFindings(w, db'.ops, db'.findings, o);
    assert o !in w.flights by {
      if o in w.flights {
        FlightIsApplying(w, o);
        assert false;
      }
    }
    OperationChanges(w, db', o, m);
  }

  lemma FinishKeeps(w: World)
    requires Inv(w)
    ensures Inv(FinishStep(w))
    ensures HasOp(w) && w.handler.stage.Marked? ==> FinishStep(w).handler == Looping(w.handler.rest)
  {
    hide WorldOk, TodoOk, Finalize, Supersede, Written;
    if HasOp(w) && w.handler.stage.Marked? {
      var o := w.handler.op;
      RowsGrow(w);
      var rows := Supersede(w.db.posted, w.handler.prev) + [PostedRow(MarkerOf(w).vendor, w.handler.stage.review, false)];
      var w1 := w.(db := w.db.(posted := rows));
      assert HoldingOk(w);
      FinishWorld(w1, o);
      var db' := Finalize(w1.db, o).value;
      HandlerFields(w1.(db := db'), FinishStep(w));
      FinishTodo(w1.db, o, w.handler.rest);
    }
  }

  lemma FinishTodo(db: Db, o: nat, rest: seq<Comment>)
    requires o in db.ops && Finalize(db, o).Ok? && TodoOk(db.ops, db.findings, rest)
    ensures TodoOk(Finalize(db, o).value.ops, Finalize(db, o).value.findings, rest)
  {
    hide TodoOk, PostFindings;
    var db' := Finalize(db, o).value;
    PostExactly(db.findings, o, db.ops[o].newIds);
    assert NothingNew(db.ops, db'.ops, rest);
    TodoFrame(db.ops, db.findings, db'.ops, db'.findings, rest);
  }

  // ---------------------------------------------------------------- every run

  lemma CrashKeeps(w: World)
    requires Inv(w)
    ensures Inv(w.(handler := Absent))
  {
  }

  lemma RestKeeps(w: World, w': World)
    requires Inv(w) && w' == w.(latest := w'.latest, others := w'.others)
    ensures Inv(w')
  {
    hide RowsOk, PostedOk, ReviewsOk, OneCarrier, FlightsOk, LandedOk, RemotesOk, Counts, PostedFindings, TodoOk;
    hide Carried, Written;
    if w.handler.Holding? {
      assert HoldingOk(w);
      assert StageOk(w');
    }
  }

  lemma OthersSendKeeps(w: World, r: nat)
    requires Inv(w)
    ensures Inv(OthersSendStep(w, r))
  {
    hide Inv;
    RestKeeps(w, OthersSendStep(w, r));
  }

  lemma LoseMarkerKeeps(w: World, r: nat)
    requires Inv(w)
    ensures Inv(LoseMarker(w, r))
  {
    hide Inv, Lose;
    if r in w.reviews {
      LossKeeps(w, r, w.reviews[r := w.reviews[r].(marker := None)]);
    }
  }

  predicate OfRequest(s: Step) {
    || s.Begin? || s.PrepareNext? || s.ClaimNext? || s.Search? || s.Send? || s.Receive? || s.FallBack? || s.Abort?
    || s.Mark? || s.Finish? || s.Fail? || s.Crash?
  }

  lemma RequestKeeps(w: World, s: Step)
    requires Inv(w) && OfRequest(s)
    ensures Inv(Next(w, s))
  {
    hide Inv, BeginStep, PrepareStep, ClaimStep, SearchStep, SendStep, ReceiveStep, FallBackStep, AbortStep, MarkStep;
    hide FinishStep, FailStep;
    match s
    case Begin(order, bodies) => BeginKeeps(w, order, bodies);
    case PrepareNext(head, policy) => PrepareStepKeeps(w, head, policy);
    case ClaimNext => ClaimKeeps(w);
    case Search => SearchKeeps(w);
    case Send => SendKeeps(w);
    case Receive => ReceiveKeeps(w);
    case FallBack => FallBackKeeps(w);
    case Abort => AbortStepKeeps(w);
    case Mark => MarkKeeps(w);
    case Finish => FinishKeeps(w);
    case Fail => FailKeeps(w);
    case Crash => CrashKeeps(w);
  }

  lemma OthersKeep(w: World, s: Step)
    requires Inv(w) && !OfRequest(s)
    ensures Inv(Next(w, s))
  {
    hide Inv, LandStep, InsertStep, OthersPostStep, Lose, LoseMarker, OthersSendStep, Patch;
    match s
    case Land(o) => LandKeeps(w, o);
    case Drop(o) => DropKeeps(w, o);
    case Insert(vendor, eligible, id) => InsertFindingKeeps(w, vendor, eligible, id);
    case PatchStatus(id, status) =>
      if Patch(w.db, id, status).Ok? {
        PatchStatusKeeps(w, id, status);
      }
    case Wait(minutes) => WaitKeeps(w, minutes);
    case OthersCreate(vendor) => CreateKeeps(w, vendor);
    case OthersOverwrite(r) => LoseMarkerKeeps(w, r);
    case OthersDelete(r) =>
      if r in w.reviews {
        LossKeeps(w, r, w.reviews - {r});
      }
    case OthersPost(vendor, r) => OthersPostKeeps(w, vendor, r);
    case OthersSupersede(i) =>
      if i < |w.db.posted| {
        SupersedeKeeps(w, i);
      }
    case OthersSend(r) => OthersSendKeeps(w, r);
    case OthersLand(r) =>
      LoseMarkerKeeps(w, r);
      RestKeeps(LoseMarker(w, r), LoseMarker(w, r).(others := w.others - {r}));
    case MoveOn(latest) => RestKeeps(w, w.(latest := latest));
  }

  lemma StepKeeps(w: World, s: Step)
    requires Inv(w)
    ensures Inv(Next(w, s))
  {
    hide Inv, Next, OfRequest;
    if OfRequest(s) {
      RequestKeeps(w, s);
    } else {
      OthersKeep(w, s);
    }
  }

  lemma StartOk()
    ensures Inv(Start())
  {
  }

  lemma {:induction false} RunKeeps(w: World, steps: seq<Step>)
    requires Inv(w)
    ensures Inv(Run(w, steps))
    decreases |steps|
  {
    hide Inv, Next;
    if steps != [] {
      StepKeeps(w, steps[0]);
      RunKeeps(Next(w, steps[0]), steps[1..]);
    }
  }

  lemma Reachable(steps: seq<Step>)
    ensures Inv(Run(Start(), steps))
  {
    hide Inv;
    StartOk();
    RunKeeps(Start(), steps);
  }

  // ------------------------------------------------------------- at most once

  // After any run a marker was written once for each time others took it away
  // from its open operation and at most once more, and at least once when the
  // operation has been applied. While the operation is open the count is exact.
  lemma WrittenOnceUnlessTaken(steps: seq<Step>, m: Identity)
    ensures var w := Run(Start(), steps);
      && Times(w.taken, m) <= Times(w.applied, m) <= 1 + Times(w.taken, m)
      && (Settled(w.db.ops, m) ==> 1 <= Times(w.applied, m))
      && (!Settled(w.db.ops, m) ==>
            Times(w.applied, m) == (if Carried(w.reviews, m) then 1 else 0) + Times(w.taken, m))
  {
    hide WorldOk, HandlerOk, Settled, Carried, Started, Run;
    Reachable(steps);
    CountAt(Run(Start(), steps), m);
  }

  predicate TakesMarkers(s: Step) {
    s.OthersOverwrite? || s.OthersDelete? || s.OthersLand?
  }

  predicate SettledRow(op: Operation, op': Operation) {
    && (op.status == Succeeded ==> op' == op)
    && (op.status == RemoteApplied ==>
          op'.identity == op.identity && (op'.status == RemoteApplied || op'.status == Succeeded))
  }

  predicate SettledKept(ops: Ops, ops': Ops) {
    forall o <- ops | ops[o].status == Succeeded || ops[o].status == RemoteApplied ::
      o in ops' && SettledRow(ops[o], ops'[o])
  }

  lemma PrepareKept(db: Db, identity: Identity, newIds: seq<nat>)
    requires forall o <- db.ops :: o < db.nextOp
    ensures Prepare(db, identity, newIds).Ok? ==> SettledKept(db.ops, Prepare(db, identity, newIds).value.ops)
  {
    hide Reserve, HasIdentity;
  }

  lemma ClaimKept(db: Db, o: nat, token: nat)
    ensures SettledKept(db.ops, Claim(db, o, token).ops)
  {
  }

  lemma AbortKept(db: Db, o: nat, token: nat)
    ensures AbortUnapplied(db, o, token).Ok? ==> SettledKept(db.ops, AbortUnapplied(db, o, token).value.ops)
  {
  }

  lemma MarkKept(db: Db, o: nat, r: nat, token: nat)
    ensures MarkRemote(db, o, r, token).Ok? ==> SettledKept(db.ops, MarkRemote(db, o, r, token).value.ops)
  {
  }

  lemma FailKept(db: Db, o: nat, token: nat)
    ensures SettledKept(db.ops, MarkError(db, o, token).ops)
  {
  }

  lemma FinalizeKept(db: Db, o: nat)
    requires o in db.ops && db.ops[o].status != Succeeded
    ensures Finalize(db, o).Ok? ==> SettledKept(db.ops, Finalize(db, o).value.ops)
  {
  }

  lemma PrepareStepKept(w: World, head: string, policy: string)
    requires Inv(w)
    ensures SettledKept(w.db.ops, PrepareStep(w, head, policy).db.ops)
  {
    hide Prepare, SettledKept, Inv, LatestPosted, OpOf, HasIdentity, UniqueIdentities;
    SameKept(w.db.ops);
    OpsBelow(w);
    if w.handler.Looping? && w.handler.todo != [] {
      var c := w.handler.todo[0];
      PrepareKept(w.db, Identity(head, policy, c.vendor, c.body), c.newIds);
    }
  }

  lemma HolderKept(w: World)
    ensures SettledKept(w.db.ops, ClaimStep(w).db.ops) && SettledKept(w.db.ops, AbortStep(w).db.ops)
    ensures SettledKept(w.db.ops, MarkStep(w).db.ops) && SettledKept(w.db.ops, FailStep(w).db.ops)
  {
    hide Claim, AbortUnapplied, MarkRemote, MarkError, SettledKept, Claimable;
    SameKept(w.db.ops);
    if w.handler.Holding? {
      ClaimKept(w.db, w.handler.op, w.handler.token);
      AbortKept(w.db, w.handler.op, w.handler.token);
      FailKept(w.db, w.handler.op, w.handler.token);
      if w.handler.stage.Returned? {
        MarkKept(w.db, w.handler.op, w.handler.stage.review, w.handler.token);
      }
    }
  }

  lemma FinishKept(w: World)
    requires Inv(w)
    ensures SettledKept(w.db.ops, FinishStep(w).db.ops)
  {
    hide Finalize, SettledKept, Inv, Supersede;
    SameKept(w.db.ops);
    MarkedIsOpen(w);
    if HasOp(w) && w.handler.stage.Marked? {
      var rows := Supersede(w.db.posted, w.handler.prev)
                  + [PostedRow(MarkerOf(w).vendor, w.handler.stage.review, false)];
      FinalizeKept(w.db.(posted := rows), w.handler.op);
    }
  }

  // Finished operations stay as they are in every step, and applied ones can only
  // be finished.
  lemma StepKept(w: World, s: Step)
    requires Inv(w)
    ensures SettledKept(w.db.ops, Next(w, s).db.ops)
  {
    hide SettledKept, Inv, PrepareStep, ClaimStep, AbortStep, MarkStep, FailStep, FinishStep, SearchStep, LandStep;
    hide Patch, SendStep, LoseMarker, InsertStep, OthersSendStep, OthersPostStep, BeginStep, ReceiveStep, FallBackStep;
    hide Lose;
    SameKept(w.db.ops);
    OthersLeaveOps(w, s);
    RequestLeavesOps(w, s);
    match s
    case PrepareNext(head, policy) => PrepareStepKept(w, head, policy);
    case ClaimNext => HolderKept(w);
    case Abort => HolderKept(w);
    case Mark => HolderKept(w);
    case Fail => HolderKept(w);
    case Finish => FinishKept(w);
    case Search => SearchLeavesDb(w);
    case Send => SendLeavesDb(w);
    case Land(o) => LandLeavesDb(w, o);
    case PatchStatus(id, status) => PatchOps(w.db, id, status);
    case _ =>
  }

  lemma SameKept(ops: Ops)
    ensures SettledKept(ops, ops)
  {
  }

  lemma OthersLeaveOps(w: World, s: Step)
    ensures s.OthersPost? ==> OthersPostStep(w, s.vendor, s.review).db.ops == w.db.ops
    ensures s.OthersOverwrite? || s.OthersLand? ==> LoseMarker(w, s.review).db == w.db
    ensures s.OthersSend? ==> OthersSendStep(w, s.review).db == w.db
    ensures s.Insert? ==> InsertStep(w, s.vendor, s.eligible, s.id).db.ops == w.db.ops
  {
    hide Lose;
  }

  lemma RequestLeavesOps(w: World, s: Step)
    ensures s.Begin? ==> BeginStep(w, s.order, s.bodies).db == w.db
    ensures ReceiveStep(w).db == w.db && FallBackStep(w).db == w.db
  {
    hide Lists, CommentsOf;
  }

  lemma PatchOps(db: Db, id: nat, status: FindingStatus)
    ensures Patch(db, id, status).Ok? ==> Patch(db, id, status).value.ops == db.ops
  {
  }

  predicate SameCounts(w: World, w': World) {
    w'.taken == w.taken && w'.applied == w.applied
  }

  lemma SearchLeavesDb(w: World)
    ensures SearchStep(w).db == w.db && SameCounts(w, SearchStep(w))
  {
    hide At;
    if At(w, Claimed) && HasOp(w) && Carried(w.reviews, MarkerOf(w)) {
      var r :| SearchStep(w) == w.(handler := w.handler.(stage := Returned(r)));
    }
  }

  lemma SendLeavesDb(w: World)
    ensures SendStep(w).db == w.db && SameCounts(w, SendStep(w))
  {
    hide MarkerOf, TargetOf, At;
  }

  lemma LandLeavesDb(w: World, o: nat)
    ensures LandStep(w, o).db == w.db && LandStep(w, o).taken == w.taken
  {
    hide Bump;
  }

  lemma PrepareLeavesCounts(w: World, head: string, policy: string)
    ensures SameCounts(w, PrepareStep(w, head, policy))
  {
    hide Prepare, UniqueIdentities, HasIdentity, LatestPosted, OpOf;
  }

  lemma ClaimLeavesCounts(w: World)
    ensures SameCounts(w, ClaimStep(w))
  {
    hide At, Claimable, Claim;
  }

  lemma AbortLeavesCounts(w: World)
    ensures SameCounts(w, AbortStep(w))
  {
    hide Answered, AbortUnapplied;
  }

  lemma MarkLeavesCounts(w: World)
    ensures SameCounts(w, MarkStep(w))
  {
    hide MarkRemote;
  }

  lemma FinishLeavesCounts(w: World)
    ensures SameCounts(w, FinishStep(w))
  {
    hide Finalize, MarkerOf, HasOp, Supersede;
  }

  lemma FailLeavesCounts(w: World)
    ensures SameCounts(w, FailStep(w))
  {
    hide MarkError;
  }

  lemma OthersPostLeavesCounts(w: World, vendor: string, r: nat)
    ensures SameCounts(w, OthersPostStep(w, vendor, r)) && SameCounts(w, OthersSendStep(w, r))
  {
  }

  lemma LossLeavesApplied(w: World, r: nat)
    ensures LoseMarker(w, r).applied == w.applied
  {
    hide Lose;
  }

  lemma InsertLeavesCounts(w: World, vendor: string, eligible: bool, id: nat)
    ensures SameCounts(w, InsertStep(w, vendor, eligible, id))
  {
  }

  lemma AnswerLeavesCounts(w: World)
    ensures SameCounts(w, ReceiveStep(w)) && SameCounts(w, FallBackStep(w))
  {
    hide Answered;
  }

  lemma RequestLeavesCounts(w: World, s: Step)
    requires OfRequest(s)
    ensures SameCounts(w, Next(w, s))
  {
    hide PrepareStep, ClaimStep, AbortStep, MarkStep, FailStep, FinishStep, SearchStep, SendStep, BeginStep, ReceiveStep;
    hide FallBackStep, SameCounts;
    match s
    case Begin(order, bodies) => BeginLeavesCounts(w, order, bodies);
    case PrepareNext(head, policy) => PrepareLeavesCounts(w, head, policy);
    case ClaimNext => ClaimLeavesCounts(w);
    case Search => SearchLeavesDb(w);
    case Send => SendLeavesDb(w);
    case Receive => AnswerLeavesCounts(w);
    case FallBack => AnswerLeavesCounts(w);
    case Abort => AbortLeavesCounts(w);
    case Mark => MarkLeavesCounts(w);
    case Finish => FinishLeavesCounts(w);
    case Fail => FailLeavesCounts(w);
    case Crash => assert SameCounts(w, w.(handler := Absent)) by { CrashLeavesCounts(w); }
  }

  lemma CrashLeavesCounts(w: World)
    ensures SameCounts(w, w.(handler := Absent))
  {
  }

  predicate IsPlain(s: Step) {
    || s.Drop? || s.PatchStatus? || s.Wait? || s.OthersCreate? || s.OthersDelete? || s.OthersSupersede? || s.MoveOn?
  }

  lemma PlainLeaveCounts(w: World, s: Step)
    requires IsPlain(s)
    ensures !TakesMarkers(s) ==> Next(w, s).taken == w.taken
    ensures Next(w, s).applied == w.applied
  {
    hide Patch, Lose;
  }

  lemma OthersLeaveCounts(w: World, s: Step)
    requires !OfRequest(s)
    ensures !TakesMarkers(s) ==> Next(w, s).taken == w.taken
    ensures !s.Land? ==> Next(w, s).applied == w.applied
  {
    if IsPlain(s) {
      hide Next;
      PlainLeaveCounts(w, s);
    } else {
      hide LandStep, LoseMarker, InsertStep, OthersSendStep, OthersPostStep;
      match s
      case Land(o) => LandLeavesDb(w, o);
      case Insert(vendor, eligible, id) => InsertLeavesCounts(w, vendor, eligible, id);
      case OthersPost(vendor, r) => OthersPostLeavesCounts(w, vendor, r);
      case OthersSend(r) => OthersPostLeavesCounts(w, "", r);
      case OthersOverwrite(r) => LossLeavesApplied(w, r);
      case OthersLand(r) => LossLeavesApplied(w, r);
    }
  }

  lemma CountsStay(w: World, s: Step)
    ensures !TakesMarkers(s) ==> Next(w, s).taken == w.taken
    ensures !s.Land? ==> Next(w, s).applied == w.applied
  {
    hide Next, OfRequest;
    if OfRequest(s) {
      RequestLeavesCounts(w, s);
    } else {
      OthersLeaveCounts(w, s);
    }
  }

  lemma BeginLeavesCounts(w: World, order: seq<nat>, bodies: map<string, string>)
    ensures SameCounts(w, BeginStep(w, order, bodies))
  {
    hide CommentsOf, Lists;
  }

  lemma OpsBelow(w: World)
    requires Inv(w)
    ensures forall o <- w.db.ops :: o < w.db.nextOp
  {
    hide PostedOk, ReviewsOk, OneCarrier, FlightsOk, LandedOk, RemotesOk, Counts, PostedFindings, HandlerOk;
    hide Reservations, Listings, OnePerVendor, UniqueIdentities;
  }

  lemma MarkedIsOpen(w: World)
    requires Inv(w)
    ensures HasOp(w) && w.handler.stage.Marked? ==> w.db.ops[w.handler.op].status == RemoteApplied
  {
    hide WorldOk;
  }

  lemma {:induction false} TakenStaysOver(w: World, steps: seq<Step>)
    requires forall i | 0 <= i < |steps| :: !TakesMarkers(steps[i])
    ensures Run(w, steps).taken == w.taken
    decreases |steps|
  {
    hide Next;
    if steps != [] {
      CountsStay(w, steps[0]);
      TakenStaysOver(Next(w, steps[0]), steps[1..]);
    }
  }

  lemma SettledStays(ops: Ops, ops': Ops, m: Identity)
    requires SettledKept(ops, ops') && Settled(ops, m)
    ensures Settled(ops', m)
  {
    var o :| o in ops && IsSettled(ops[o], m);
    assert SettledRow(ops[o], ops'[o]);
    assert IsSettled(ops'[o], m);
  }

  lemma LosesOpenOnly(w: World, r: nat, m: Identity)
    requires Settled(w.db.ops, m) && r in w.reviews
    ensures Times(Lose(w, r), m) == Times(w.taken, m)
  {
    hide Settled;
  }

  lemma LandsOpenOnly(w: World, o: nat, m: Identity)
    requires Inv(w) && Settled(w.db.ops, m)
    ensures Times(LandStep(w, o).applied, m) == Times(w.applied, m)
  {
    hide PostedOk, ReviewsOk, OneCarrier, LandedOk, RemotesOk, Counts, PostedFindings, HandlerOk, FlightsOk;
    hide Reservations, Listings, OnePerVendor, Statuses, Settled, Bump;
    if o in w.flights {
      FlightIsApplying(w, o);
      FlightAt(w, o);
      MarkerStatus(w.db.ops, o);
      TimesBump(w.applied, w.flights[o].identity);
    }
  }

  lemma SettledCounts(w: World, s: Step, m: Identity)
    requires Inv(w) && Settled(w.db.ops, m)
    ensures Settled(Next(w, s).db.ops, m)
    ensures Times(Next(w, s).applied, m) == Times(w.applied, m) && Times(Next(w, s).taken, m) == Times(w.taken, m)
  {
    hide Inv, Settled, Times;
    CountsStay(w, s);
    SettledRowsStay(w, s, m);
    match s
    case Land(o) => hide LandStep; LandsOpenOnly(w, o, m);
    case OthersOverwrite(r) => hide Lose; LosesMarker(w, r, m);
    case OthersLand(r) => hide LoseMarker; LosesMarker(w, r, m);
    case OthersDelete(r) =>
      hide Lose;
      if r in w.reviews {
        LosesOpenOnly(w, r, m);
      }
    case _ => hide Next;
  }

  lemma SettledRowsStay(w: World, s: Step, m: Identity)
    requires Inv(w) && Settled(w.db.ops, m)
    ensures Settled(Next(w, s).db.ops, m)
  {
    hide Inv, Settled, Next, SettledKept;
    StepKept(w, s);
    SettledStays(w.db.ops, Next(w, s).db.ops, m);
  }

  lemma LosesMarker(w: World, r: nat, m: Identity)
    requires Settled(w.db.ops, m)
    ensures Times(LoseMarker(w, r).taken, m) == Times(w.taken, m)
  {
    hide Settled, Lose;
    if r in w.reviews {
      LosesOpenOnly(w, r, m);
    }
  }

  // Once the operation of a marker has been applied, the marker is never written
  // again, whatever others do to the review.
  lemma {:induction false} SettledForGood(w: World, steps: seq<Step>, m: Identity)
    requires Inv(w) && Settled(w.db.ops, m)
    ensures Settled(Run(w, steps).db.ops, m) && Times(Run(w, steps).applied, m) == Times(w.applied, m)
    decreases |steps|
  {
    hide Inv, Next, Settled, Times;
    if steps != [] {
      SettledCounts(w, steps[0], m);
      StepKeeps(w, steps[0]);
      SettledForGood(Next(w, steps[0]), steps[1..], m);
    }
  }

  // When no person rewrites or deletes reviews and no call of another run lands on
  // them, no interleaving of posts, crashes, lost or late calls and retries writes
  // a marker twice.
  lemma AtMostOnce(steps: seq<Step>, m: Identity)
    requires forall i | 0 <= i < |steps| :: !TakesMarkers(steps[i])
    ensures Times(Run(Start(), steps).applied, m) <= 1
  {
    hide Run;
    TakenStaysOver(Start(), steps);
    WrittenOnceUnlessTaken(steps, m);
  }

  // ------------------------------------------------------------- reservations

  // After any run a finding is reserved exactly by the unfinished operation that
  // lists it, and there is at most one of those for a vendor.
  lemma ReservationsConserved(steps: seq<Step>)
    ensures var db := Run(Start(), steps).db;
      && (forall id: nat, o: nat :: id in db.findings && db.findings[id].reservedBy == Some(o) <==> ListsOpen(db.ops, o, id))
      && (forall id <- db.findings | db.findings[id].reservedBy.Some? :: Postable(db.findings[id].status))
      && OnePerVendor(db.ops)
  {
    hide HandlerOk, Run, Listings;
    Reachable(steps);
    var db := Run(Start(), steps).db;
    assert forall o, id | ListsOpen(db.ops, o, id) :: ReservedFor(db.findings, id, o);
  }

  // The last transaction of a post never finds a reservation gone.
  lemma FinalizeNeverConflicts(steps: seq<Step>)
    ensures var w := Run(Start(), steps);
      && (forall o <- w.db.ops | w.db.ops[o].status == RemoteApplied :: Finalize(w.db, o).Ok?)
      && (HasOp(w) && w.handler.stage.Marked? ==> FinishStep(w).handler == Looping(w.handler.rest))
  {
    hide WorldOk, HandlerOk, Run, Finalize, FinishStep;
    Reachable(steps);
    var w := Run(Start(), steps);
    FinishKeeps(w);
    forall o <- w.db.ops | w.db.ops[o].status == RemoteApplied ensures Finalize(w.db, o).Ok? {
      FinishWorld(w, o);
    }
  }

  // A finished operation is never opened, changed or finalised again.
  lemma {:induction false} SucceededForGood(w: World, steps: seq<Step>, o: nat)
    requires Inv(w) && o in w.db.ops && w.db.ops[o].status == Succeeded
    ensures o in Run(w, steps).db.ops && Run(w, steps).db.ops[o] == w.db.ops[o]
    decreases |steps|
  {
    hide Inv, Next;
    if steps != [] {
      StepKept(w, steps[0]);
      StepKeeps(w, steps[0]);
      SucceededForGood(Next(w, steps[0]), steps[1..], o);
    }
  }

  // A finding is posted only through a finished operation whose marker was
  // written on GitHub.
  lemma PostedOnlyWhenWritten(steps: seq<Step>, id: nat)
    requires id in Run(Start(), steps).db.findings
    requires Run(Start(), steps).db.findings[id].status == FindingStatus.Posted
    ensures var w := Run(Start(), steps);
      exists o <- w.db.ops ::
        w.db.ops[o].status == Succeeded && id in w.db.ops[o].newIds && Times(w.applied, w.db.ops[o].identity) >= 1
  {
    hide RowsOk, PostedOk, ReviewsOk, OneCarrier, FlightsOk, LandedOk, RemotesOk, Counts, HandlerOk, Run;
    Reachable(steps);
    var w := Run(Start(), steps);
    var o :| PostedThrough(w.db.ops, w.applied, o, id);
    assert w.db.ops[o].status == Succeeded;
  }
}
