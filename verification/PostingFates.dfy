// What the steps of a post make of operations, calls under way, reviews and the
// request itself, told from the point of view of a single one of these.
module PostingFates {
  import opened Text
  import opened Posting
  import opened PostingRows
  import opened PostingProtocol
  import opened PostingSafety
  import opened PostingSteps
  import opened PostingRequest
  import opened PostingTheorems
  import opened PostingEffects
  import opened PostingRecords

  // ---------------------------------------------------------------- operations

  // The request holds operation o.
  predicate Holds(w: World, o: nat) {
    w.handler.Holding? && w.handler.op == o && o in w.db.ops
  }

  predicate AppliesIt(w: World, o: nat) {
    Holds(w, o) && w.db.ops[o].status == Applying && w.db.ops[o].owner == Some(w.handler.token)
  }

  // Not started yet, or not heard of for twenty minutes.
  predicate Waits(w: World, o: nat) {
    && o in w.db.ops
    && (w.db.ops[o].status == Pending
        || (w.db.ops[o].status == Applying && w.db.now >= w.db.ops[o].lockedAt + 20))
  }

  // What becomes of an operation; given up, it is gone.
  function GivenOp(w: World, s: Step, o: nat): Option<Operation>
    requires o in w.db.ops
  {
    var op := w.db.ops[o];
    match s
    case ClaimNext =>
      if Holds(w, o) && w.handler.stage == Prepared && Waits(w, o) && o !in w.flights
      then Some(op.(status := Applying, owner := Some(w.handler.token), lockedAt := w.db.now)) else Some(op)
    case Abort =>
      if AppliesIt(w, o) && w.handler.stage == Calling && o !in w.flights && o !in w.landed && w.handler.update
         && op.remoteId == None
      then None else Some(op)
    case Mark =>
      if AppliesIt(w, o) && w.handler.stage.Returned?
      then Some(op.(status := RemoteApplied, remoteId := Some(w.handler.stage.review), failed := false, owner := None,
                    lockedAt := 0))
      else Some(op)
    case Finish =>
      if Holds(w, o) && w.handler.stage.Marked?
      then Some(op.(status := Succeeded, failed := false, owner := None, lockedAt := 0)) else Some(op)
    case Fail => if AppliesIt(w, o) then Some(op.(failed := true)) else Some(op)
    case _ => Some(op)
  }

  function OpIn(ops: Ops, o: nat): Option<Operation> {
    if o in ops then Some(ops[o]) else None
  }

  predicate OpsFollow(w: World, w': World, s: Step) {
    && (forall o <- w.db.ops :: OpIn(w'.db.ops, o) == GivenOp(w, s, o))
    && (!s.PrepareNext? ==> w'.db.ops.Keys <= w.db.ops.Keys)
  }

  predicate SameOps(w: World, w': World) {
    w'.db.ops == w.db.ops
  }

  lemma IdleOps(w: World, w': World, s: Step)
    requires SameOps(w, w') && forall o <- w.db.ops :: GivenOp(w, s, o) == Some(w.db.ops[o])
    ensures OpsFollow(w, w', s)
  {
    hide GivenOp;
  }

  lemma PlainOps(w: World, w': World, s: Step)
    requires SameOps(w, w') && !(s.ClaimNext? || s.Abort? || s.Mark? || s.Finish? || s.Fail?)
    ensures OpsFollow(w, w', s)
  {
    IdleOps(w, w', s);
  }

  lemma HeldOpFollows(w: World, w': World, s: Step, after: Option<Operation>)
    requires HasOp(w) && !s.PrepareNext? && GivenOp(w, s, w.handler.op) == after
    requires w'.db.ops == if after.Some? then w.db.ops[w.handler.op := after.value] else w.db.ops - {w.handler.op}
    ensures OpsFollow(w, w', s)
  {
    forall p <- w.db.ops | p != w.handler.op ensures GivenOp(w, s, p) == Some(w.db.ops[p]) {
      OnlyHeld(w, s, p);
    }
    hide GivenOp;
  }

  lemma OnlyHeld(w: World, s: Step, p: nat)
    requires p in w.db.ops && !Holds(w, p)
    ensures GivenOp(w, s, p) == Some(w.db.ops[p])
  {
  }

  lemma NothingHeld(w: World, w': World, s: Step)
    requires SameOps(w, w') && !HasOp(w)
    ensures OpsFollow(w, w', s)
  {
    forall p <- w.db.ops ensures GivenOp(w, s, p) == Some(w.db.ops[p]) {
      OnlyHeld(w, s, p);
    }
    hide GivenOp;
  }

  lemma ClaimOps(w: World)
    ensures OpsFollow(w, ClaimStep(w), ClaimNext)
  {
    if w.handler.Holding? {
      ClaimExactly(w.db, w.handler.op, w.handler.token);
    }
    hide Claim, Claimable, OpsFollow;
    if HasOp(w) {
      HeldOpFollows(w, ClaimStep(w), ClaimNext, GivenOp(w, ClaimNext, w.handler.op));
    } else {
      NothingHeld(w, ClaimStep(w), ClaimNext);
    }
  }

  lemma AbortOps(w: World)
    ensures OpsFollow(w, AbortStep(w), Abort)
  {
    if w.handler.Holding? {
      AbortExactly(w.db, w.handler.op, w.handler.token);
    }
    hide AbortUnapplied, OpsFollow;
    if HasOp(w) {
      HeldOpFollows(w, AbortStep(w), Abort, GivenOp(w, Abort, w.handler.op));
    } else {
      NothingHeld(w, AbortStep(w), Abort);
    }
  }

  lemma MarkOps(w: World)
    ensures OpsFollow(w, MarkStep(w), Mark)
  {
    if w.handler.Holding? && w.handler.stage.Returned? {
      OwnerExactly(w.db, w.handler.op, w.handler.stage.review, w.handler.token);
    }
    hide MarkRemote, OpsFollow;
    if HasOp(w) {
      HeldOpFollows(w, MarkStep(w), Mark, GivenOp(w, Mark, w.handler.op));
    } else {
      NothingHeld(w, MarkStep(w), Mark);
    }
  }

  lemma FailOps(w: World)
    ensures OpsFollow(w, FailStep(w), Fail)
  {
    if w.handler.Holding? {
      OwnerExactly(w.db, w.handler.op, 0, w.handler.token);
    }
    hide MarkError;
  }

  lemma FinishOps(w: World)
    requires Inv(w)
    ensures OpsFollow(w, Next(w, Finish), Finish)
  {
    hide Inv, Next, PostedNow, RowAdded;
    if HasOp(w) && w.handler.stage.Marked? {
      FinishExactly(w, w.handler.stage.review);
    } else {
      IdleFinish(w);
    }
  }

  lemma PrepareOps(w: World, head: string, policy: string)
    requires Inv(w)
    ensures OpsFollow(w, PrepareStep(w, head, policy), PrepareNext(head, policy))
  {
    OpsBelow(w);
    hide Inv, Prepare, UniqueIdentities, HasIdentity, LatestPosted, OpOf;
    if w.handler.Looping? && w.handler.todo != [] {
      var c := w.handler.todo[0];
      PreparedOps(w.db, Identity(head, policy, c.vendor, c.body), c.newIds);
    }
  }

  lemma PreparedOps(db: Db, identity: Identity, newIds: seq<nat>)
    requires forall o <- db.ops :: o < db.nextOp
    ensures Prepare(db, identity, newIds).Ok? ==>
      forall o <- db.ops :: o in Prepare(db, identity, newIds).value.ops && Prepare(db, identity, newIds).value.ops[o] == db.ops[o]
  {
    hide HasIdentity, Reserve;
  }

  lemma OthersLeaveAllOps(w: World, s: Step)
    requires !OfRequest(s)
    ensures SameOps(w, Next(w, s))
  {
    hide Patch, LandStep, LoseMarker, InsertStep, OthersSendStep, OthersPostStep, Lose;
    OthersLeaveOps(w, s);
    match s
    case Land(o) => LandLeavesDb(w, o);
    case PatchStatus(id, status) => PatchOps(w.db, id, status);
    case _ =>
  }

  // What every step makes of the operations there are.
  lemma OpFate(w: World, s: Step)
    requires Inv(w)
    ensures OpsFollow(w, Next(w, s), s)
  {
    hide Inv, OpsFollow, SameOps;
    if s.Finish? {
      hide Next;
      FinishOps(w);
    } else if !OfRequest(s) {
      hide Next;
      OthersLeaveAllOps(w, s);
      PlainOps(w, Next(w, s), s);
    } else {
      RequestOps(w, s);
    }
  }

  lemma RequestOps(w: World, s: Step)
    requires Inv(w) && OfRequest(s) && !s.Finish?
    ensures OpsFollow(w, Next(w, s), s)
  {
    hide Inv, OpsFollow;
    hide PrepareStep, ClaimStep, AbortStep, MarkStep, FailStep, SearchStep, SendStep, BeginStep, ReceiveStep, FallBackStep;
    RequestLeavesOps(w, s);
    match s
    case PrepareNext(head, policy) => PrepareOps(w, head, policy);
    case ClaimNext => ClaimOps(w);
    case Abort => AbortOps(w);
    case Mark => MarkOps(w);
    case Fail => FailOps(w);
    case Search => SearchLeavesDb(w); PlainOps(w, SearchStep(w), s);
    case Send => SendLeavesDb(w); PlainOps(w, SendStep(w), s);
    case Begin(order, bodies) => PlainOps(w, BeginStep(w, order, bodies), s);
    case Receive => PlainOps(w, ReceiveStep(w), s);
    case FallBack => PlainOps(w, FallBackStep(w), s);
    case Crash => PlainOps(w, w.(handler := Absent), s);
  }

  // The only new operation is the one a request prepares: for its head, policy and
  // next comment, when there is none for these and all findings of the comment can
  // be reserved.
  lemma NewOp(w: World, head: string, policy: string)
    requires Inv(w)
    ensures var w' := Next(w, PrepareNext(head, policy));
      var goes := w.handler.Looping? && w.handler.todo != [] && w.latest;
      if !goes then w'.db == w.db
      else
        var c := w.handler.todo[0];
        var identity := Identity(head, policy, c.vendor, c.body);
        var known := exists o <- w.db.ops :: w.db.ops[o].identity == identity;
        var free := (forall i | 0 <= i < |c.newIds| :: IsFree(w.db.findings, c.newIds[i])) && NoRepeats(c.newIds);
        if !known && free then
          && w'.db.ops == w.db.ops[w.db.nextOp := Operation(identity, Pending, None, 0, c.newIds, None, false)]
          && TakenBy(w.db.findings, w'.db.findings, c.newIds, w.db.nextOp)
          && w'.handler.Holding? && w'.handler.op == w.db.nextOp
        else w'.db == w.db && (known <==> w'.handler.Holding?)
  {
    if w.handler.Looping? && w.handler.todo != [] && w.latest {
      UniqueIn(w);
      OpsBelow(w);
      hide Inv, IsFree, NoRepeats;
      var c := w.handler.todo[0];
      var identity := Identity(head, policy, c.vendor, c.body);
      PrepareExactly(w.db, identity, c.newIds);
      var known := exists o <- w.db.ops :: w.db.ops[o].identity == identity;
      var free := (forall i | 0 <= i < |c.newIds| :: IsFree(w.db.findings, c.newIds[i])) && NoRepeats(c.newIds);
      if known {
        PrepareGoesOn(w, head, policy, w.db);
      } else if free {
        var db := Prepare(w.db, identity, c.newIds).value;
        AddedIsUnique(w.db, db, identity);
        PrepareGoesOn(w, head, policy, db);
        assert db.ops[OpOf(db.ops, identity)].identity == identity;
      } else {
        PrepareRefuses(w, head, policy);
      }
    } else {
      hide UniqueIdentities, HasIdentity, LatestPosted, OpOf, Prepare;
    }
  }

  lemma UniqueIn(w: World)
    requires Inv(w)
    ensures UniqueIdentities(w.db.ops)
  {
    hide PostedOk, ReviewsOk, OneCarrier, FlightsOk, LandedOk, RemotesOk, Counts, PostedFindings, HandlerOk;
    hide Reservations, Listings, OnePerVendor, UniqueIdentities;
  }

  lemma AddedIsUnique(db: Db, db': Db, identity: Identity)
    requires UniqueIdentities(db.ops) && !(exists o <- db.ops :: db.ops[o].identity == identity)
    requires exists op: Operation :: op.identity == identity && db'.ops == db.ops[db.nextOp := op]
    requires forall o <- db.ops :: o < db.nextOp
    ensures UniqueIdentities(db'.ops) && HasIdentity(db'.ops, identity) && OpOf(db'.ops, identity) == db.nextOp
  {
    assert db'.ops[db.nextOp].identity == identity;
  }

  lemma PrepareGoesOn(w: World, head: string, policy: string, db: Db)
    requires w.handler.Looping? && w.handler.todo != [] && w.latest && UniqueIdentities(w.db.ops)
    requires var c := w.handler.todo[0];
      var identity := Identity(head, policy, c.vendor, c.body);
      && Prepare(w.db, identity, c.newIds) == Ok(db) && UniqueIdentities(db.ops)
      && exists o <- db.ops :: db.ops[o].identity == identity
    ensures var c := w.handler.todo[0];
      var identity := Identity(head, policy, c.vendor, c.body);
      var w' := PrepareStep(w, head, policy);
      && HasIdentity(db.ops, identity)
      && w'.db == db && w'.handler.Holding? && w'.handler.op == OpOf(db.ops, identity)
  {
    hide UniqueIdentities, LatestPosted, Prepare;
  }

  lemma PrepareRefuses(w: World, head: string, policy: string)
    requires w.handler.Looping? && w.handler.todo != [] && w.latest
    requires var c := w.handler.todo[0]; Prepare(w.db, Identity(head, policy, c.vendor, c.body), c.newIds).Err?
    ensures var w' := PrepareStep(w, head, policy); w'.db == w.db && !w'.handler.Holding?
  {
    hide UniqueIdentities, HasIdentity, LatestPosted, OpOf, Prepare;
  }

  // ------------------------------------------------------- calls and reviews

  // A request whose search found nothing sends a call: an update of the review that
  // was recorded when it prepared, or a new review.
  lemma SendExactly(w: World)
    requires HasOp(w)
    ensures var o := w.handler.op;
      var recorded := if w.handler.prev.Some? && w.handler.prev.value < |w.db.posted|
                      then Some(w.db.posted[w.handler.prev.value].review) else None;
      Next(w, Send).flights ==
        if w.handler.stage == Searched
        then w.flights[o := Flight(w.db.ops[o].identity, if w.handler.update then recorded else None)] else w.flights
  {
  }

  // A call that arrives writes its marker, to a new review or to the one it updates
  // if that is still there; one that is lost does nothing.
  lemma LandExactly(w: World, o: nat)
    ensures Next(w, Drop(o)) == w.(flights := w.flights - {o})
    ensures o !in w.flights ==> Next(w, Land(o)) == w
    ensures o in w.flights ==>
      var w', m, target := Next(w, Land(o)), w.flights[o].identity, w.flights[o].target;
      && w'.flights == w.flights - {o} && w'.db == w.db && w'.handler == w.handler && w'.taken == w.taken
      && (target == None ==>
            && w'.reviews == w.reviews[w.nextReview := Review(m.vendor, Some(m))] && w'.nextReview == w.nextReview + 1
            && w'.landed == w.landed[o := w.nextReview]
            && forall x :: Times(w'.applied, x) == Times(w.applied, x) + if x == m then 1 else 0)
      && (target.Some? && target.value in w.reviews ==>
            && w'.reviews == w.reviews[target.value := w.reviews[target.value].(marker := Some(m))]
            && w'.landed == w.landed[o := target.value] && w'.nextReview == w.nextReview
            && forall x :: Times(w'.applied, x) == Times(w.applied, x) + if x == m then 1 else 0)
      && (target.Some? && target.value !in w.reviews ==>
            w'.reviews == w.reviews && w'.landed == w.landed && w'.applied == w.applied)
  {
    if o in w.flights {
      TimesBump(w.applied, w.flights[o].identity);
    }
    hide Bump;
  }

  // ------------------------------------------------------------- the request

  // Where a step leads a request that holds an operation: to another stage, or away
  // from it. The search finds a review with the marker whenever there is one.
  ghost predicate Leads(w: World, s: Step, stage: Option<Stage>)
    requires HasOp(w)
  {
    var h, o := w.handler, w.handler.op;
    var answered := h.stage == Calling && o !in w.flights;
    match s
    case ClaimNext =>
      h.stage == Prepared && (if !Waits(w, o) then stage == None else o !in w.flights && stage == Some(Claimed))
    case Search =>
      && h.stage == Claimed
      && if exists r <- w.reviews :: w.reviews[r].marker == Some(w.db.ops[o].identity)
         then exists r <- w.reviews :: w.reviews[r].marker == Some(w.db.ops[o].identity) && stage == Some(Returned(r))
         else stage == Some(Searched)
    case Send => h.stage == Searched && stage == Some(Calling)
    case Receive => answered && o in w.landed && stage == Some(Returned(w.landed[o]))
    case FallBack => answered && o !in w.landed && h.update && stage == Some(Searched)
    case Abort => answered && o !in w.landed && h.update && stage == None
    case Mark => h.stage.Returned? && stage == if AppliesIt(w, o) then Some(Marked(h.stage.review)) else None
    case Finish => h.stage.Marked? && stage == None
    case Fail => stage == None
    case Crash => stage == None
    case _ => false
  }

  function StageIn(w: World): Option<Stage> {
    if w.handler.Holding? then Some(w.handler.stage) else None
  }

  ghost predicate RequestMoves(w: World, w': World, s: Step)
    requires HasOp(w)
  {
    || Leads(w, s, StageIn(w'))
    || ((forall stage :: !Leads(w, s, stage)) && w'.handler == w.handler)
  }

  lemma ClaimLeads(w: World)
    requires HasOp(w)
    ensures RequestMoves(w, ClaimStep(w), ClaimNext)
  {
    ClaimExactly(w.db, w.handler.op, w.handler.token);
    hide Claim, Claimable;
    var stage := if w.handler.stage == Prepared && Waits(w, w.handler.op) then Some(Claimed) else None;
    assert w.handler.stage == Prepared && !(Waits(w, w.handler.op) && w.handler.op in w.flights) ==> Leads(w, ClaimNext, stage);
  }

  lemma SearchLeads(w: World)
    requires HasOp(w)
    ensures RequestMoves(w, SearchStep(w), Search)
  {
    if w.handler.stage == Claimed {
      var m := MarkerOf(w);
      if Carried(w.reviews, m) {
        var r :| Carries(w.reviews, r, m) && SearchStep(w) == w.(handler := w.handler.(stage := Returned(r)));
        assert w.reviews[r].marker == Some(w.db.ops[w.handler.op].identity);
      } else {
        forall r <- w.reviews ensures w.reviews[r].marker != Some(m) {
          assert !Carries(w.reviews, r, m);
        }
      }
    }
  }

  lemma CallLeads(w: World)
    requires HasOp(w)
    ensures RequestMoves(w, SendStep(w), Send)
    ensures RequestMoves(w, ReceiveStep(w), Receive)
    ensures RequestMoves(w, FallBackStep(w), FallBack)
  {
    hide TargetOf;
  }

  lemma AbortLeads(w: World)
    requires HasOp(w)
    ensures RequestMoves(w, AbortStep(w), Abort)
    ensures RequestMoves(w, FailStep(w), Fail)
  {
    hide AbortUnapplied, MarkError;
  }

  lemma MarkLeads(w: World)
    requires HasOp(w)
    ensures RequestMoves(w, MarkStep(w), Mark)
  {
    if w.handler.stage.Returned? {
      OwnerExactly(w.db, w.handler.op, w.handler.stage.review, w.handler.token);
    }
    hide MarkRemote;
  }

  lemma FinishLeads(w: World)
    requires Inv(w) && HasOp(w)
    ensures RequestMoves(w, Next(w, Finish), Finish)
    ensures w.handler.stage.Marked? ==> Next(w, Finish).handler == Looping(w.handler.rest)
  {
    hide Inv, Next, PostedNow, RowAdded;
    if w.handler.stage.Marked? {
      FinishExactly(w, w.handler.stage.review);
    } else {
      IdleFinish(w);
    }
  }

  lemma NotLed(w: World, s: Step)
    requires HasOp(w) && !OfRequest(s)
    ensures forall stage :: !Leads(w, s, stage)
  {
  }

  lemma BeginIdles(w: World, s: Step)
    requires HasOp(w) && (s.Begin? || s.PrepareNext?)
    ensures RequestMoves(w, Next(w, s), s)
  {
    hide CommentsOf, Lists, Prepare, UniqueIdentities, HasIdentity, LatestPosted, OpOf;
  }

  // Where every step leads a request that holds an operation.
  lemma RequestFate(w: World, s: Step)
    requires Inv(w) && HasOp(w)
    ensures RequestMoves(w, Next(w, s), s)
  {
    if OfRequest(s) {
      RequestLed(w, s);
    } else {
      hide Inv, Leads, Next, OfRequest, HasOp;
      OthersStay(w, s);
      NotLed(w, s);
    }
  }

  lemma RequestLed(w: World, s: Step)
    requires Inv(w) && HasOp(w) && OfRequest(s)
    ensures RequestMoves(w, Next(w, s), s)
  {
    hide Inv, RequestMoves, PrepareStep, ClaimStep, AbortStep, MarkStep, FailStep, SearchStep, SendStep, ReceiveStep;
    hide FallBackStep, BeginStep, HasOp;
    match s
    case ClaimNext => ClaimLeads(w);
    case Search => SearchLeads(w);
    case Send => CallLeads(w);
    case Receive => CallLeads(w);
    case FallBack => CallLeads(w);
    case Abort => AbortLeads(w);
    case Fail => AbortLeads(w);
    case Mark => MarkLeads(w);
    case Finish => hide Next; FinishLeads(w);
    case Crash => CrashLeads(w);
    case _ => hide Next; BeginIdles(w, s);
  }

  lemma CrashLeads(w: World)
    requires HasOp(w)
    ensures RequestMoves(w, w.(handler := Absent), Crash)
  {
  }
}
