// The steps of the request keep the invariant.
module PostingRequest {
  import opened Text
  import opened Posting
  import opened PostingRows
  import opened PostingProtocol
  import opened PostingSafety
  import opened PostingSteps

  // ------------------------------------------------------ what is to be posted

  lemma {:induction false} PendingOnce(findings: Findings, order: seq<nat>)
    requires NoRepeats(order)
    ensures NoRepeats(PendingIds(findings, order))
  {
    hide IsPending;
    hide NoRepeats;
    if order != [] {
      var n := |order| - 1;
      InitOnce(order);
      PendingOnce(findings, order[..n]);
      PendingIdsAre(findings, order[..n]);
      if IsPending(findings, order[n]) {
        AppendOnce(PendingIds(findings, order[..n]), order[n]);
      }
    }
  }

  lemma {:induction false} VendorsAre(findings: Findings, ids: seq<nat>)
    requires forall id <- ids :: id in findings
    ensures NoRepeats(VendorsOf(findings, ids))
    ensures forall id <- ids :: findings[id].vendor in VendorsOf(findings, ids)
  {
    if ids != [] {
      var n := |ids| - 1;
      VendorsAre(findings, ids[..n]);
      assert ids == ids[..n] + [ids[n]];
    }
  }

  lemma {:induction false} VendorsAppear(findings: Findings, ids: seq<nat>, v: string)
    requires forall id <- ids :: id in findings
    requires v in VendorsOf(findings, ids)
    ensures exists id <- ids :: findings[id].vendor == v
  {
    var n := |ids| - 1;
    if v in VendorsOf(findings, ids[..n]) {
      VendorsAppear(findings, ids[..n], v);
    } else {
      assert findings[ids[n]].vendor == v;
    }
  }

  lemma {:induction false} IdsAre(findings: Findings, ids: seq<nat>, v: string)
    requires (forall id <- ids :: id in findings) && NoRepeats(ids)
    ensures NoRepeats(IdsOfVendor(findings, ids, v))
    ensures forall id :: id in IdsOfVendor(findings, ids, v) <==> id in ids && findings[id].vendor == v
  {
    hide NoRepeats;
    if ids != [] {
      var n := |ids| - 1;
      InitOnce(ids);
      IdsAre(findings, ids[..n], v);
      var rest := IdsOfVendor(findings, ids[..n], v);
      if findings[ids[n]].vendor == v {
        AppendOnce(rest, ids[n]);
      }
    }
  }

  // A comment takes in every free or reserved finding of its vendor.
  lemma CommentOk(ops: Ops, findings: Findings, order: seq<nat>, v: string)
    requires Lists(order, findings) && Reservations(ops, findings) && Listings(ops, findings)
    requires forall id <- PendingIds(findings, order) :: id in findings
    requires v in VendorsOf(findings, PendingIds(findings, order))
    ensures var ids := IdsOfVendor(findings, PendingIds(findings, order), v);
      Listing(findings, v, ids) && Covers(ops, v, ids)
  {
    hide NoRepeats, VendorsOf, IdsOfVendor, PendingIds;
    var pending := PendingIds(findings, order);
    PendingIdsAre(findings, order);
    PendingOnce(findings, order);
    IdsAre(findings, pending, v);
    VendorsAppear(findings, pending, v);
    var ids := IdsOfVendor(findings, pending, v);
    forall o, id | OpenFor(ops, o, v) && ListsOpen(ops, o, id) ensures id in ids {
      assert Listing(findings, v, ops[o].newIds);
      assert ReservedFor(findings, id, o);
    }
  }

  lemma CommentsOk(ops: Ops, findings: Findings, order: seq<nat>, bodyOf: string -> string)
    requires Lists(order, findings) && Reservations(ops, findings) && Listings(ops, findings)
    ensures TodoOk(ops, findings, CommentsOf(findings, order, bodyOf))
  {
    hide Lists, Reservations, Listings, Listing, Covers, PendingIds, VendorsOf, IdsOfVendor, IsPending;
    var pending := PendingIds(findings, order);
    PendingIdsAre(findings, order);
    assert forall id <- pending :: id in findings by { PendingPresent(findings, order); }
    VendorsAre(findings, pending);
    var vendors := VendorsOf(findings, pending);
    forall i | 0 <= i < |vendors|
      ensures Listing(findings, vendors[i], IdsOfVendor(findings, pending, vendors[i]))
      ensures Covers(ops, vendors[i], IdsOfVendor(findings, pending, vendors[i]))
    {
      CommentOk(ops, findings, order, vendors[i]);
    }
  }

  lemma PendingPresent(findings: Findings, order: seq<nat>)
    ensures forall id <- PendingIds(findings, order) :: id in findings
  {
    PendingIdsAre(findings, order);
  }

  lemma BeginKeeps(w: World, order: seq<nat>, bodies: map<string, string>)
    requires Inv(w)
    ensures Inv(BeginStep(w, order, bodies))
  {
    hide PostedOk, ReviewsOk, OneCarrier, FlightsOk, LandedOk, RemotesOk, Counts, PostedFindings, TodoOk;
    hide Reservations, Listings, Lists, CommentsOf;
    if w.handler.Absent? && w.latest && Lists(order, w.db.findings) {
      CommentsOk(w.db.ops, w.db.findings, order, v => BodyIn(bodies, v));
    }
  }

  // --------------------------------------------------------- one operation changes

  lemma FlightsAfter(ops: Ops, ops': Ops, o: nat, flights: map<nat, Flight>, reviews: Reviews, n: nat)
    requires FlightsOk(ops, flights, reviews, n) && AgreeExcept(ops, ops', o)
    requires o in flights ==>
      o in ops && o in ops' && ops'[o].status == ops[o].status && ops'[o].identity == ops[o].identity
    ensures FlightsOk(ops', flights, reviews, n)
  {
    hide Carried, Targets;
    forall p <- flights ensures FlightOk(ops', p, flights[p], reviews, n) {
      assert FlightOk(ops, p, flights[p], reviews, n);
    }
  }

  // An operation changes, appears or goes: what has to be looked at for the
  // rows and the remote side.
  ghost predicate OperationChange(w: World, db': Db, o: nat, m: Identity) {
    && AgreeExcept(w.db.ops, db'.ops, o) && w.db.nextOp <= db'.nextOp && db'.posted == w.db.posted
    && (o in w.db.ops ==> w.db.ops[o].identity == m)
    && (o in db'.ops ==> db'.ops[o].identity == m)
    && (o !in w.db.ops ==> o >= w.db.nextOp)
    && (o in w.flights ==> o in db'.ops && db'.ops[o].status == Applying && o in w.db.ops)
    && CountOk(db'.ops, w.reviews, w.applied, w.taken, m)
    && (o in db'.ops && db'.ops[o].remoteId.Some? ==>
          Written(db'.ops, o, db'.ops[o].remoteId.value, w.reviews, w.nextReview, w.applied))
  }

  lemma OperationChanges(w: World, db': Db, o: nat, m: Identity)
    requires WorldOk(w) && OperationChange(w, db', o, m)
    requires RowsOk(db'.ops, db'.findings, db'.nextOp) && PostedFindings(db'.ops, db'.findings, w.applied)
    ensures WorldOk(w.(db := db'))
  {
    hide RowsOk, PostedOk, ReviewsOk, OneCarrier, Counts, PostedFindings, CountOk, FlightsOk, LandedOk, RemotesOk;
    hide Written, AgreeExcept;
    assert o in w.flights ==> w.db.ops[o].status == Applying by {
      if o in w.flights {
        FlightIsApplying(w, o);
      }
    }
    FlightsAfter(w.db.ops, db'.ops, o, w.flights, w.reviews, w.nextReview);
    CountsFrame(w.db.ops, db'.ops, o, m, w.reviews, w.applied, w.taken);
    WrittenAfter(w, db', o, m);
  }

  lemma WrittenAfter(w: World, db': Db, o: nat, m: Identity)
    requires OperationChange(w, db', o, m)
    requires LandedOk(w.db.ops, w.db.nextOp, w.landed, w.reviews, w.nextReview, w.applied)
    requires RemotesOk(w.db.ops, w.reviews, w.nextReview, w.applied)
    ensures LandedOk(db'.ops, db'.nextOp, w.landed, w.reviews, w.nextReview, w.applied)
    ensures RemotesOk(db'.ops, w.reviews, w.nextReview, w.applied)
  {
    hide CountOk, Targets;
    forall p <- w.landed ensures p < db'.nextOp && Written(db'.ops, p, w.landed[p], w.reviews, w.nextReview, w.applied) {
      assert Written(w.db.ops, p, w.landed[p], w.reviews, w.nextReview, w.applied);
    }
    forall p <- db'.ops | db'.ops[p].remoteId.Some?
      ensures Written(db'.ops, p, db'.ops[p].remoteId.value, w.reviews, w.nextReview, w.applied)
    {
      if p != o {
        assert Written(w.db.ops, p, w.db.ops[p].remoteId.value, w.reviews, w.nextReview, w.applied);
      }
    }
  }

  lemma FlightIsApplying(w: World, o: nat)
    requires WorldOk(w) && o in w.flights
    ensures o in w.db.ops && w.db.ops[o].status == Applying
  {
    hide RowsOk, PostedOk, ReviewsOk, OneCarrier, LandedOk, RemotesOk, Counts, PostedFindings;
    assert FlightOk(w.db.ops, o, w.flights[o], w.reviews, w.nextReview);
  }

  lemma CountAt(w: World, m: Identity)
    requires WorldOk(w)
    ensures CountOk(w.db.ops, w.reviews, w.applied, w.taken, m)
  {
    hide RowsOk, PostedOk, ReviewsOk, OneCarrier, LandedOk, RemotesOk, PostedFindings, FlightsOk, CountOk;
  }

  // ------------------------------------------------------------------ preparing

  lemma PrepareWorld(w: World, identity: Identity, newIds: seq<nat>)
    requires WorldOk(w)
    requires Listing(w.db.findings, identity.vendor, newIds) && Covers(w.db.ops, identity.vendor, newIds)
    requires Prepare(w.db, identity, newIds).Ok?
    ensures WorldOk(w.(db := Prepare(w.db, identity, newIds).value))
    ensures HasIdentity(Prepare(w.db, identity, newIds).value.ops, identity)
    ensures UniqueIdentities(Prepare(w.db, identity, newIds).value.ops)
  {
    hide PostedOk, ReviewsOk, OneCarrier, LandedOk, RemotesOk, Counts, PostedFindings, FlightsOk;
    hide Reserve, Reservations, Listings, OnePerVendor, Listing, Covers, Settled, Started, Carried, Written;
    PrepareKeeps(w.db, identity, newIds);
    if !HasIdentity(w.db.ops, identity) {
      var o, db' := w.db.nextOp, Prepare(w.db, identity, newIds).value;
      ReserveExactly(w.db.findings, o, newIds);
      PostedFindingsFrame(w.db.ops, w.db.findings, w.applied, db'.ops, db'.findings, w.applied);
      CountAt(w, identity);
      NoMarker(w.db.ops, identity);
      MarkerStatus(db'.ops, o);
      assert o !in w.flights by {
        if o in w.flights {
          FlightIsApplying(w, o);
          assert false;
        }
      }
      OperationChanges(w, db', o, identity);
    }
  }

  lemma NoMarker(ops: Ops, m: Identity)
    requires !HasIdentity(ops, m)
    ensures !Settled(ops, m) && !Started(ops, m)
  {
  }

  lemma PrepareStepKeeps(w: World, head: string, policy: string)
    requires Inv(w)
    ensures Inv(PrepareStep(w, head, policy))
  {
    hide WorldOk, Prepare, LatestPosted, Listing, Covers, UniqueIdentities, HasIdentity, OpOf;
    if w.handler.Looping? && w.handler.todo != [] && UniqueIdentities(w.db.ops) && !w.latest {
      HandlerFields(w, w.(handler := Absent));
    } else if w.handler.Looping? && w.handler.todo != [] && UniqueIdentities(w.db.ops) {
      var c, rest := w.handler.todo[0], w.handler.todo[1..];
      var identity, prev := Identity(head, policy, c.vendor, c.body), LatestPosted(w.db.posted, c.vendor);
      if Prepare(w.db, identity, c.newIds).Ok? {
        var db' := Prepare(w.db, identity, c.newIds).value;
        PrepareWorld(w, identity, c.newIds);
        HandlerFields(w.(db := db'), PrepareStep(w, head, policy));
        PreparedHandler(w, head, policy);
      } else {
        HandlerFields(w, w.(handler := Absent));
      }
    }
  }

  lemma HandlerFields(w: World, w': World)
    requires WorldOk(w) && w' == w.(handler := w'.handler, nextToken := w'.nextToken)
    ensures WorldOk(w')
  {
  }

  lemma PreparedHandler(w: World, head: string, policy: string)
    requires Inv(w) && w.handler.Looping? && w.handler.todo != [] && UniqueIdentities(w.db.ops) && w.latest
    requires var c := w.handler.todo[0];
      var prepared := Prepare(w.db, Identity(head, policy, c.vendor, c.body), c.newIds);
      && prepared.Ok? && WorldOk(w.(db := prepared.value)) && UniqueIdentities(prepared.value.ops)
      && HasIdentity(prepared.value.ops, Identity(head, policy, c.vendor, c.body))
    ensures HandlerOk(PrepareStep(w, head, policy))
  {
    hide PostedOk, ReviewsOk, OneCarrier, LandedOk, Counts, PostedFindings, FlightsOk;
    hide Reservations, Listings, OnePerVendor, Carried, Written, HasIdentity, TodoOk, Prepare;
    hide RemotesOk, UniqueIdentities;
    var c, rest, w' := w.handler.todo[0], w.handler.todo[1..], PrepareStep(w, head, policy);
    var identity := Identity(head, policy, c.vendor, c.body);
    var db' := Prepare(w.db, identity, c.newIds).value;
    var o := OpOf(db'.ops, identity);
    TodoTail(w.db.ops, w.db.findings, w.handler.todo);
    PreparedTodo(w.db, identity, c.newIds, rest);
    MarkedIsWritten(w.(db := db'), o);
    assert StageOk(w');
  }

  lemma TodoTail(ops: Ops, findings: Findings, todo: seq<Comment>)
    requires TodoOk(ops, findings, todo) && todo != []
    ensures TodoOk(ops, findings, todo[1..])
    ensures forall i | 0 <= i < |todo[1..]| :: todo[1..][i].vendor != todo[0].vendor
  {
    hide Listing, Covers;
  }

  lemma PreparedTodo(db: Db, identity: Identity, newIds: seq<nat>, rest: seq<Comment>)
    requires TodoOk(db.ops, db.findings, rest) && Prepare(db, identity, newIds).Ok?
    requires Statuses(db.ops, db.nextOp)
    requires forall i | 0 <= i < |rest| :: rest[i].vendor != identity.vendor
    ensures var db' := Prepare(db, identity, newIds).value;
      TodoOk(db'.ops, db'.findings, rest) && db'.posted == db.posted
  {
    hide TodoOk, Reserve;
    if !HasIdentity(db.ops, identity) {
      var db' := Prepare(db, identity, newIds).value;
      ReserveExactly(db.findings, db.nextOp, newIds);
      assert NothingNew(db.ops, db'.ops, rest);
      TodoFrame(db.ops, db.findings, db'.ops, db'.findings, rest);
    }
  }

  lemma MarkedIsWritten(w: World, o: nat)
    requires WorldOk(w) && o in w.db.ops
    ensures w.db.ops[o].remoteId.Some? ==>
      Written(w.db.ops, o, w.db.ops[o].remoteId.value, w.reviews, w.nextReview, w.applied)
  {
    hide RowsOk, PostedOk, ReviewsOk, OneCarrier, LandedOk, Counts, PostedFindings, FlightsOk, Written;
  }

  // ----------------------------------------------------- claiming and searching

  // An operation that stays unfinished changes under the request that holds it.
  lemma HeldChange(w: World, op: Operation)
    requires Inv(w) && HasOp(w) && Unfinished(w.db.ops[w.handler.op]) && Unfinished(op)
    requires op.identity == MarkerOf(w) && op.newIds == w.db.ops[w.handler.op].newIds
    requires op.remoteId.Some? <==> op.status == RemoteApplied
    requires op.remoteId.Some? ==>
      Written(w.db.ops, w.handler.op, op.remoteId.value, w.reviews, w.nextReview, w.applied)
    requires w.handler.op in w.flights ==> op.status == Applying
    requires if op.status == RemoteApplied then Times(w.applied, op.identity) >= 1 && !Settled(w.db.ops, op.identity)
      else op.status == Applying && w.db.ops[w.handler.op].status != RemoteApplied
    ensures WorldOk(w.(db := w.db.(ops := w.db.ops[w.handler.op := op])))
    ensures TodoOk(w.db.ops[w.handler.op := op], w.db.findings, w.handler.rest)
  {
    hide PostedOk, ReviewsOk, OneCarrier, LandedOk, RemotesOk, Counts, PostedFindings, FlightsOk, StageOk, TodoOk;
    hide Reservations, Listings, OnePerVendor, Settled, Started, Carried;
    var o, m := w.handler.op, MarkerOf(w);
    var ops' := w.db.ops[o := op];
    UpdateKeeps(w.db.ops, w.db.findings, w.db.nextOp, o, op);
    CountAt(w, m);
    MarkerStatus(w.db.ops, o);
    MarkerStatus(ops', o);
    PostedFindingsFrame(w.db.ops, w.db.findings, w.applied, ops', w.db.findings, w.applied);
    OperationChanges(w, w.db.(ops := ops'), o, m);
    assert NothingNew(w.db.ops, ops', w.handler.rest);
    TodoFrame(w.db.ops, w.db.findings, ops', w.db.findings, w.handler.rest);
  }

  lemma ClaimKeeps(w: World)
    requires Inv(w)
    ensures Inv(ClaimStep(w))
  {
    hide PostedOk, ReviewsOk, OneCarrier, LandedOk, RemotesOk, Counts, PostedFindings, FlightsOk, TodoOk;
    hide Reservations, Listings, OnePerVendor, Settled, Carried, Written;
    if At(w, Prepared) && Claimable(w.db, w.handler.op) && w.handler.op !in w.flights {
      var o, w' := w.handler.op, ClaimStep(w);
      HeldChange(w, w.db.ops[o].(status := Applying, owner := Some(w.handler.token), lockedAt := w.db.now));
      assert StageOk(w');
    }
  }

  lemma HandlerOnly(w: World, w': World)
    requires Inv(w) && HasOp(w) && w' == w.(handler := w'.handler) && w'.handler.Holding?
    requires w'.handler.op == w.handler.op && w'.handler.prev == w.handler.prev && w'.handler.rest == w.handler.rest
    requires StageOk(w')
    ensures Inv(w')
  {
    hide TodoOk, StageOk;
  }

  lemma SearchKeeps(w: World)
    requires Inv(w)
    ensures Inv(SearchStep(w))
  {
    hide PostedOk, OneCarrier, LandedOk, RemotesOk, PostedFindings, FlightsOk, TodoOk, Counts;
    hide Reservations, Listings, OnePerVendor, Settled, Started, Inv;
    if At(w, Claimed) && HasOp(w) {
      var o, m, w' := w.handler.op, MarkerOf(w), SearchStep(w);
      assert StageOk(w) by { StageOfHandler(w); }
      if Carried(w.reviews, m) {
        AdoptedIsWritten(w, w'.handler.stage.review);
      }
      HandlerOnly(w, w');
    }
  }

  lemma StageOfHandler(w: World)
    requires Inv(w) && w.handler.Holding?
    ensures HasOp(w) && StageOk(w)
  {
    hide StageOk, WorldOk;
  }

  lemma AdoptedIsWritten(w: World, r: nat)
    requires Inv(w) && HasOp(w) && Owns(w.db, w.handler.op, w.handler.token) && Carries(w.reviews, r, MarkerOf(w))
    ensures Written(w.db.ops, w.handler.op, r, w.reviews, w.nextReview, w.applied)
  {
    hide PostedOk, OneCarrier, LandedOk, RemotesOk, PostedFindings, FlightsOk, TodoOk, Counts;
    hide Reservations, Listings, OnePerVendor, Settled, Started, HandlerOk;
    CarriesIsCarried(w.reviews, r, MarkerOf(w));
    CountAt(w, MarkerOf(w));
    MarkerStatus(w.db.ops, w.handler.op);
  }

  // ----------------------------------------------------------- the remote call

  lemma SendKeeps(w: World)
    requires Inv(w)
    ensures Inv(SendStep(w))
  {
    hide ReviewsOk, OneCarrier, RemotesOk, Counts, PostedFindings, TodoOk, RowsOk, Carried, Written;
    if At(w, Searched) && HasOp(w) {
      var o, w', target := w.handler.op, SendStep(w), TargetOf(w);
      assert HoldingOk(w);
      assert FlightOk(w.db.ops, o, w'.flights[o], w.reviews, w.nextReview);
      forall p <- w'.flights ensures FlightOk(w.db.ops, p, w'.flights[p], w.reviews, w.nextReview) {
        assert p != o ==> FlightOk(w.db.ops, p, w.flights[p], w.reviews, w.nextReview);
      }
      assert StageOk(w');
    }
  }

  lemma ReceiveKeeps(w: World)
    requires Inv(w)
    ensures Inv(ReceiveStep(w))
  {
    hide ReviewsOk, OneCarrier, RemotesOk, Counts, PostedFindings, TodoOk, RowsOk, Carried, PostedOk, FlightsOk;
    hide Targets;
    if Answered(w) && w.handler.op in w.landed {
      assert HoldingOk(w);
      assert Written(w.db.ops, w.handler.op, w.landed[w.handler.op], w.reviews, w.nextReview, w.applied);
      HandlerOnly(w, ReceiveStep(w));
    }
  }

  lemma FallBackKeeps(w: World)
    requires Inv(w)
    ensures Inv(FallBackStep(w))
  {
    hide WorldOk, TodoOk, Carried, Written;
    if Answered(w) && w.handler.op !in w.landed && w.handler.update {
      assert HoldingOk(w);
      HandlerOnly(w, FallBackStep(w));
    }
  }

  lemma AbortStepKeeps(w: World)
    requires Inv(w)
    ensures Inv(AbortStep(w))
  {
    hide PostedOk, ReviewsOk, OneCarrier, LandedOk, RemotesOk, Counts, PostedFindings, FlightsOk, TodoOk;
    hide Reservations, Listings, OnePerVendor, Settled, Started, Carried;
    if Answered(w) && w.handler.op !in w.landed && w.handler.update {
      assert HoldingOk(w);
      var o, m, r := w.handler.op, MarkerOf(w), AbortUnapplied(w.db, w.handler.op, w.handler.token);
      if r.Ok? {
        AbortKeeps(w.db, o, w.handler.token);
        CountAt(w, m);
        MarkerStatus(w.db.ops, o);
        NoMarker(r.value.ops, m);
        PostedFindingsFrame(w.db.ops, w.db.findings, w.applied, r.value.ops, r.value.findings, w.applied);
        OperationChanges(w, r.value, o, m);
        HandlerFields(w.(db := r.value), AbortStep(w));
      }
    }
  }

  // ----------------------------------------------------- recording and finishing

  lemma MarkKeeps(w: World)
    requires Inv(w)
    ensures Inv(MarkStep(w))
  {
    hide PostedOk, ReviewsOk, OneCarrier, LandedOk, RemotesOk, Counts, PostedFindings, FlightsOk, TodoOk;
    hide Reservations, Listings, OnePerVendor, Settled, Started, Carried;
    if w.handler.Holding? && w.handler.stage.Returned? {
      assert HoldingOk(w);
      var o, w' := w.handler.op, MarkStep(w);
      MarkerStatus(w.db.ops, o);
      HeldChange(w, w'.db.ops[o]);
      HandlerFields(w.(db := w'.db), w');
      assert StageOk(w');
    }
  }

  lemma FailKeeps(w: World)
    requires Inv(w)
    ensures Inv(FailStep(w))
  {
    hide PostedOk, ReviewsOk, OneCarrier, LandedOk, RemotesOk, Counts, PostedFindings, FlightsOk, TodoOk;
    hide Reservations, Listings, OnePerVendor, Settled, Started, Carried, Written;
    if w.handler.Holding? {
      assert HoldingOk(w);
      if Owns(w.db, w.handler.op, w.handler.token) {
        HeldChange(w, w.db.ops[w.handler.op].(failed := true));
        HandlerFields(w.(db := MarkError(w.db, w.handler.op, w.handler.token)), FailStep(w));
      }
    }
  }
}
