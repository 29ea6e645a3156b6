// When a request brings an unfinished operation to its end.
module PostingProgress {
  import opened Text
  import opened Posting
  import opened PostingRows
  import opened PostingProtocol
  import opened PostingSafety
  import opened PostingSteps
  import opened PostingRequest
  import opened PostingTheorems

  // One request goes on, well or badly, and its calls land: nobody else does
  // anything, no time passes, and no new request begins.
  predicate IsAlone(s: Step) {
    s.Land? || (OfRequest(s) && !s.Begin?)
  }

  predicate AllAlone(steps: seq<Step>) {
    forall i | 0 <= i < |steps| :: IsAlone(steps[i])
  }

  predicate Finished(ops: Ops, o: nat) {
    o in ops && ops[o].status == Succeeded
  }

  predicate Ends(w: World, w': World, steps: seq<Step>, o: nat) {
    AllAlone(steps) && Finished(w'.db.ops, o)
  }

  ghost predicate CanFinish(w: World, o: nat) {
    exists steps :: Ends(w, Run(w, steps), steps, o)
  }

  lemma DoneCanFinish(w: World, o: nat)
    requires Finished(w.db.ops, o)
    ensures CanFinish(w, o)
  {
    assert Run(w, []) == w;
    assert Ends(w, Run(w, []), [], o);
  }

  lemma StepCanFinish(w: World, s: Step, o: nat)
    requires IsAlone(s) && CanFinish(Next(w, s), o)
    ensures CanFinish(w, o)
  {
    hide Next, Finished, IsAlone;
    var steps :| Ends(Next(w, s), Run(Next(w, s), steps), steps, o);
    var more := [s] + steps;
    assert more[1..] == steps;
    assert Ends(w, Run(w, more), more, o);
  }

  // ------------------------------------------------------------------- carrying on

  predicate Holds(w: World, o: nat, stage: Stage) {
    HasOp(w) && w.handler.op == o && w.handler.stage == stage
  }

  lemma FromMarked(w: World, o: nat, r: nat)
    requires Inv(w) && Holds(w, o, Marked(r))
    ensures CanFinish(w, o)
  {
    hide Inv, CanFinish, Finalize, Supersede;
    FinishKeeps(w);
    MarkedIsOpen(w);
    var rows := Supersede(w.db.posted, w.handler.prev) + [PostedRow(MarkerOf(w).vendor, r, false)];
    FinalizeFinishes(w.db.(posted := rows), o);
    DoneCanFinish(FinishStep(w), o);
    StepCanFinish(w, Finish, o);
  }

  lemma FinalizeFinishes(db: Db, o: nat)
    requires o in db.ops
    ensures Finalize(db, o).Ok? ==> Finished(Finalize(db, o).value.ops, o)
  {
    hide PostFindings;
  }

  lemma FromReturned(w: World, o: nat, r: nat)
    requires Inv(w) && Holds(w, o, PostingProtocol.Stage.Returned(r))
    ensures CanFinish(w, o)
  {
    hide Inv, CanFinish;
    assert Owns(w.db, o, w.handler.token) by { OwnsHeld(w); }
    MarkKeeps(w);
    MarkIs(w, r);
    FromMarked(MarkStep(w), o, r);
    StepCanFinish(w, Mark, o);
  }

  lemma OwnsHeld(w: World)
    requires Inv(w) && w.handler.Holding? && !w.handler.stage.Prepared? && !w.handler.stage.Marked?
    ensures HasOp(w) && Owns(w.db, w.handler.op, w.handler.token)
  {
    hide WorldOk, TodoOk, Written;
    StageOfHandler(w);
  }

  lemma MarkIs(w: World, r: nat)
    requires HasOp(w) && w.handler.stage == PostingProtocol.Stage.Returned(r) && Owns(w.db, w.handler.op, w.handler.token)
    ensures Holds(MarkStep(w), w.handler.op, Marked(r))
  {
  }

  lemma SendIs(w: World)
    requires HasOp(w) && w.handler.stage == Searched
    ensures var o, w' := w.handler.op, SendStep(w);
      && w'.handler == w.handler.(stage := Calling) && w'.db == w.db && w'.reviews == w.reviews
      && o in w'.flights && w'.flights[o].target == TargetOf(w) && o !in w'.landed
  {
    hide MarkerOf, TargetOf;
  }

  lemma LandIs(w: World, o: nat)
    requires o in w.flights
    ensures var w' := LandStep(w, o);
      && w'.handler == w.handler && w'.db == w.db && o !in w'.flights
      && (if w.flights[o].target.None? || w.flights[o].target.value in w.reviews then o in w'.landed
          else w'.landed == w.landed)
  {
    hide Bump;
  }

  lemma ReceiveIs(w: World)
    requires HasOp(w) && w.handler.stage == Calling && w.handler.op !in w.flights
    ensures w.handler.op in w.landed ==>
      Holds(ReceiveStep(w), w.handler.op, PostingProtocol.Stage.Returned(w.landed[w.handler.op]))
    ensures w.handler.op !in w.landed && w.handler.update ==>
      Holds(FallBackStep(w), w.handler.op, Searched) && !FallBackStep(w).handler.update
  {
  }

  lemma NoTarget(w: World)
    requires w.handler.Holding? && !w.handler.update
    ensures TargetOf(w) == None
  {
  }

  // The call is sent and lands; when the review to update is gone, one is created.
  lemma {:induction false} FromSearched(w: World, o: nat)
    requires Inv(w) && Holds(w, o, Searched)
    ensures CanFinish(w, o)
    decreases w.handler.update
  {
    hide Inv, CanFinish, SendStep, LandStep, ReceiveStep, FallBackStep, TargetOf;
    var w1 := SendStep(w);
    var w2 := LandStep(w1, o);
    SendIs(w);
    LandIs(w1, o);
    ReceiveIs(w2);
    SendKeeps(w);
    LandKeeps(w1, o);
    if o in w2.landed {
      ReceiveKeeps(w2);
      FromReturned(ReceiveStep(w2), o, w2.landed[o]);
      StepCanFinish(w2, Receive, o);
    } else {
      if !w.handler.update {
        NoTarget(w);
      }
      FallBackKeeps(w2);
      FromSearched(FallBackStep(w2), o);
      StepCanFinish(w2, FallBack, o);
    }
    StepCanFinish(w1, Land(o), o);
    StepCanFinish(w, Send, o);
  }

  lemma FromClaimed(w: World, o: nat)
    requires Inv(w) && Holds(w, o, Claimed)
    ensures CanFinish(w, o)
  {
    hide Inv, CanFinish, SearchStep;
    SearchKeeps(w);
    var w1 := SearchStep(w);
    SearchIs(w);
    if w1.handler.stage == Searched {
      FromSearched(w1, o);
    } else {
      var r := w1.handler.stage.review;
      FromReturned(w1, o, r);
    }
    StepCanFinish(w, Search, o);
  }

  lemma SearchIs(w: World)
    requires HasOp(w) && w.handler.stage == Claimed
    ensures var o, w' := w.handler.op, SearchStep(w);
      && HasOp(w') && (Holds(w', o, Searched)
          || (w'.handler.stage.Returned? && Holds(w', o, PostingProtocol.Stage.Returned(w'.handler.stage.review))))
  {
    hide Carried;
    if Carried(w.reviews, MarkerOf(w)) {
      var r :| SearchStep(w) == w.(handler := w.handler.(stage := PostingProtocol.Stage.Returned(r)));
    }
  }

  lemma FromPrepared(w: World, o: nat)
    requires Inv(w) && Holds(w, o, Prepared) && Claimable(w.db, o) && o !in w.flights
    ensures CanFinish(w, o)
  {
    hide Inv, CanFinish;
    ClaimKeeps(w);
    FromClaimed(ClaimStep(w), o);
    StepCanFinish(w, ClaimNext, o);
  }

  // ----------------------------------------------------------------- refused

  // The request has been turned away from this operation.
  predicate Refused(w: World, o: nat) {
    && o in w.db.ops && Unfinished(w.db.ops[o])
    && (w.handler.Absent? || (At(w, Prepared) && !Claimable(w.db, w.handler.op)))
  }

  lemma StaysRefused(w: World, s: Step, o: nat)
    requires Refused(w, o) && IsAlone(s)
    ensures Refused(Next(w, s), o)
  {
    hide Next, Claimable;
    if s.Land? {
      LandIsNext(w, s.op);
      LandKeepsOps(w, s.op);
    } else if w.handler.Absent? {
      AbsentStays(w, s);
    } else {
      PreparedStays(w, s);
    }
  }

  lemma LandIsNext(w: World, p: nat)
    ensures Next(w, Land(p)) == LandStep(w, p)
  {
  }

  lemma AbsentStays(w: World, s: Step)
    requires w.handler.Absent? && OfRequest(s) && !s.Begin?
    ensures Next(w, s) == w
  {
  }

  lemma PreparedStays(w: World, s: Step)
    requires At(w, Prepared) && !Claimable(w.db, w.handler.op) && OfRequest(s) && !s.Begin?
    ensures Next(w, s) == w
      || (Next(w, s).handler.Absent?
          && forall o <- w.db.ops :: o in Next(w, s).db.ops && Next(w, s).db.ops[o].status == w.db.ops[o].status)
  {
    hide Claimable, PrepareStep, SearchStep, FinishStep;
    if s.PrepareNext? {
      PrepareElsewhere(w, s.head, s.policy);
    } else if s.Search? {
      SearchElsewhere(w);
    } else if s.Finish? {
      FinishElsewhere(w);
    }
  }

  lemma PrepareElsewhere(w: World, head: string, policy: string)
    requires w.handler.Holding?
    ensures PrepareStep(w, head, policy) == w
  {
  }

  lemma FinishElsewhere(w: World)
    requires At(w, Prepared)
    ensures FinishStep(w) == w
  {
  }

  lemma LandKeepsOps(w: World, p: nat)
    ensures LandStep(w, p).db == w.db && LandStep(w, p).handler == w.handler
  {
    hide Bump;
  }

  lemma SearchElsewhere(w: World)
    requires !At(w, Claimed)
    ensures SearchStep(w) == w
  {
  }

  lemma {:induction false} RefusedForGood(w: World, steps: seq<Step>, o: nat)
    requires Refused(w, o) && AllAlone(steps)
    ensures !Finished(Run(w, steps).db.ops, o)
    decreases |steps|
  {
    hide Next, IsAlone;
    if steps != [] {
      hide Refused;
      StaysRefused(w, steps[0], o);
      RefusedForGood(Next(w, steps[0]), steps[1..], o);
    }
  }

  lemma CannotFinish(w: World, o: nat)
    requires Refused(w, o)
    ensures !CanFinish(w, o)
  {
    hide Refused, AllAlone, Finished, Run;
    forall steps ensures !Ends(w, Run(w, steps), steps, o) {
      if AllAlone(steps) {
        RefusedForGood(w, steps, o);
      }
    }
  }

  // ------------------------------------------------------------------ the request

  function IdentityOf(c: Comment, head: string, policy: string): Identity {
    Identity(head, policy, c.vendor, c.body)
  }

  // The next comment of the request is for the vendor of this operation.
  predicate IsNext(w: World, o: nat) {
    w.handler.Looping? && w.handler.todo != [] && OpenFor(w.db.ops, o, w.handler.todo[0].vendor)
  }

  lemma RowsOf(w: World)
    requires Inv(w)
    ensures RowsOk(w.db.ops, w.db.findings, w.db.nextOp)
    ensures w.handler.Looping? ==> TodoOk(w.db.ops, w.db.findings, w.handler.todo)
  {
    hide RowsOk, PostedOk, ReviewsOk, OneCarrier, FlightsOk, LandedOk, RemotesOk, Counts, PostedFindings, TodoOk;
  }

  lemma SameOperation(w: World, o: nat, head: string, policy: string)
    requires Inv(w) && w.latest && IsNext(w, o)
    requires w.db.ops[o].identity == IdentityOf(w.handler.todo[0], head, policy)
    ensures var w' := PrepareStep(w, head, policy);
      && w'.db == w.db && w'.flights == w.flights
      && (if w.db.ops[o].status == RemoteApplied
          then w.db.ops[o].remoteId.Some? && Holds(w', o, Marked(w.db.ops[o].remoteId.value))
          else Holds(w', o, Prepared))
  {
    hide Inv, TodoOk, Reservations, Listings, OnePerVendor, LatestPosted, Reserve;
    RowsOf(w);
    var m := w.db.ops[o].identity;
    assert HasIdentity(w.db.ops, m);
    assert OpOf(w.db.ops, m) == o;
    hide HasIdentity, OpOf, UniqueIdentities;
  }

  // The findings of the open operation are not free for another one.
  lemma OtherIsRefused(w: World, o: nat, head: string, policy: string)
    requires Inv(w) && w.latest && IsNext(w, o)
    requires w.db.ops[o].identity != IdentityOf(w.handler.todo[0], head, policy)
    ensures Refused(PrepareStep(w, head, policy), o)
  {
    hide Inv, Reservations, Listings, OnePerVendor, LatestPosted, UniqueIdentities, HasIdentity, OpOf, Refused, Prepare;
    hide Claimable;
    RowsOf(w);
    var c, m := w.handler.todo[0], IdentityOf(w.handler.todo[0], head, policy);
    if HasIdentity(w.db.ops, m) {
      OtherIsFinished(w, o, m);
      FinishedIsRefused(w, o, head, policy);
    } else {
      ReservedAlready(w, o);
      assert Prepare(w.db, m, c.newIds).Err? by { NotPrepared(w, o, m); }
      AbsentIsRefused(w, o);
    }
  }

  lemma AbsentIsRefused(w: World, o: nat)
    requires o in w.db.ops && Unfinished(w.db.ops[o])
    ensures Refused(w.(handler := Absent), o)
  {
  }

  lemma OtherIsFinished(w: World, o: nat, m: Identity)
    requires RowsOk(w.db.ops, w.db.findings, w.db.nextOp) && HasIdentity(w.db.ops, m)
    requires OpenFor(w.db.ops, o, m.vendor) && w.db.ops[o].identity != m
    ensures !Unfinished(w.db.ops[OpOf(w.db.ops, m)])
  {
    hide Reservations, Listings, UniqueIdentities, HasIdentity;
    var p := OpOf(w.db.ops, m);
    assert Unfinished(w.db.ops[p]) ==> OpenFor(w.db.ops, p, m.vendor);
  }

  lemma FinishedIsRefused(w: World, o: nat, head: string, policy: string)
    requires Inv(w) && w.latest && IsNext(w, o)
    requires var m := IdentityOf(w.handler.todo[0], head, policy);
      UniqueIdentities(w.db.ops) && HasIdentity(w.db.ops, m) && !Unfinished(w.db.ops[OpOf(w.db.ops, m)])
    ensures Refused(PrepareStep(w, head, policy), o)
  {
    hide Inv, LatestPosted, UniqueIdentities, HasIdentity, OpOf, Reserve;
  }

  lemma ReservedAlready(w: World, o: nat)
    requires RowsOk(w.db.ops, w.db.findings, w.db.nextOp) && IsNext(w, o)
    requires TodoOk(w.db.ops, w.db.findings, w.handler.todo)
    ensures exists id <- w.handler.todo[0].newIds :: !Reservable(w.db.findings, id)
  {
    hide OnePerVendor, UniqueIdentities, Statuses, NoRepeats;
    var c := w.handler.todo[0];
    assert Listing(w.db.findings, c.vendor, w.db.ops[o].newIds) && Covers(w.db.ops, c.vendor, c.newIds);
    var id := w.db.ops[o].newIds[0];
    assert id in w.db.ops[o].newIds;
    assert ListsOpen(w.db.ops, o, id);
    assert ReservedFor(w.db.findings, id, o);
  }

  lemma NotPrepared(w: World, o: nat, m: Identity)
    requires IsNext(w, o) && !HasIdentity(w.db.ops, m)
    requires exists id <- w.handler.todo[0].newIds :: !Reservable(w.db.findings, id)
    ensures Prepare(w.db, m, w.handler.todo[0].newIds).Err?
  {
    hide Reservable, Reserve, HasIdentity;
    ReserveExactly(w.db.findings, w.db.nextOp, w.handler.todo[0].newIds);
  }

  // A request whose next comment is for the vendor of an unfinished operation
  // brings that operation to its end, unless it fails on the way, exactly when its
  // run is the latest, the comment is the very one the operation was made for, and
  // the operation has been applied or can be claimed. Otherwise nothing this
  // request does finishes it.
  lemma FinishesExactly(w: World, o: nat, head: string, policy: string)
    requires Inv(w) && IsNext(w, o) && o !in w.flights
    ensures CanFinish(Next(w, PrepareNext(head, policy)), o) <==>
      && w.latest && w.db.ops[o].identity == IdentityOf(w.handler.todo[0], head, policy)
      && (w.db.ops[o].status == RemoteApplied || Claimable(w.db, o))
  {
    hide Inv, CanFinish, PrepareStep, Refused, Claimable;
    PrepareStepKeeps(w, head, policy);
    var w' := PrepareStep(w, head, policy);
    if !w.latest {
      OutdatedIsRefused(w, o, head, policy);
      CannotFinish(w', o);
    } else if w.db.ops[o].identity != IdentityOf(w.handler.todo[0], head, policy) {
      OtherIsRefused(w, o, head, policy);
      CannotFinish(w', o);
    } else {
      SameOperation(w, o, head, policy);
      if w.db.ops[o].status == RemoteApplied {
        FromMarked(w', o, w.db.ops[o].remoteId.value);
      } else if Claimable(w.db, o) {
        FromPrepared(w', o);
      } else {
        HeldIsRefused(w', o);
        CannotFinish(w', o);
      }
    }
  }

  lemma OutdatedIsRefused(w: World, o: nat, head: string, policy: string)
    requires Inv(w) && !w.latest && IsNext(w, o)
    ensures Refused(PrepareStep(w, head, policy), o)
  {
    hide Inv, Reservations, Listings, OnePerVendor, Prepare, LatestPosted, OpOf, HasIdentity;
    RowsOf(w);
  }

  lemma HeldIsRefused(w: World, o: nat)
    requires Holds(w, o, Prepared) && !Claimable(w.db, o) && Unfinished(w.db.ops[o])
    ensures Refused(w, o)
  {
    hide Claimable;
  }
}
