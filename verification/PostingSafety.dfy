// What every step of the posting protocol keeps.
module PostingSafety {
  import opened Text
  import opened Posting
  import opened PostingRows
  import opened PostingProtocol

  type Reviews = map<nat, Review>
  type Counters = map<Identity, nat>

  // ------------------------------------------------------------- the invariant

  ghost predicate Started(ops: Ops, m: Identity) {
    exists o <- ops :: ops[o].identity == m && ops[o].status != Pending
  }

  // A review number that is only ever given to reviews of this vendor.
  predicate Targets(reviews: Reviews, nextReview: nat, r: nat, vendor: string) {
    r < nextReview && (r in reviews ==> reviews[r].vendor == vendor)
  }

  predicate PostedOk(posted: seq<PostedRow>, reviews: Reviews, nextReview: nat) {
    forall i | 0 <= i < |posted| :: Targets(reviews, nextReview, posted[i].review, posted[i].vendor)
  }

  ghost predicate ReviewsOk(reviews: Reviews, nextReview: nat) {
    forall r <- reviews ::
      r < nextReview && (reviews[r].marker.Some? ==> reviews[r].marker.value.vendor == reviews[r].vendor)
  }

  ghost predicate OneCarrier(reviews: Reviews) {
    forall r, s, m | Carries(reviews, r, m) && Carries(reviews, s, m) :: r == s
  }

  // A call under way belongs to an operation that is being applied and has not
  // been applied yet.
  ghost predicate FlightOk(ops: Ops, o: nat, flight: Flight, reviews: Reviews, nextReview: nat) {
    && o in ops && ops[o].status == Applying && ops[o].identity == flight.identity
    && !Carried(reviews, flight.identity)
    && (flight.target.Some? ==> Targets(reviews, nextReview, flight.target.value, flight.identity.vendor))
  }

  ghost predicate FlightsOk(ops: Ops, flights: map<nat, Flight>, reviews: Reviews, nextReview: nat) {
    forall o <- flights :: FlightOk(ops, o, flights[o], reviews, nextReview)
  }

  predicate Written(ops: Ops, o: nat, r: nat, reviews: Reviews, nextReview: nat, applied: Counters) {
    o in ops ==>
      Times(applied, ops[o].identity) >= 1 && Targets(reviews, nextReview, r, ops[o].identity.vendor)
  }

  predicate LandedOk(
    ops: Ops, nextOp: nat, landed: map<nat, nat>, reviews: Reviews, nextReview: nat, applied: Counters)
  {
    forall o <- landed :: o < nextOp && Written(ops, o, landed[o], reviews, nextReview, applied)
  }

  // While its operation is open, a marker has been written once for the review
  // that carries it and once for each time others took it away.
  ghost predicate CountOk(ops: Ops, reviews: Reviews, applied: Counters, taken: Counters, m: Identity) {
    && (Carried(reviews, m) ==> Started(ops, m))
    && (if Settled(ops, m) then 1 <= Times(applied, m) && Times(taken, m) <= Times(applied, m) <= 1 + Times(taken, m)
        else Times(applied, m) == (if Carried(reviews, m) then 1 else 0) + Times(taken, m))
  }

  ghost predicate Counts(ops: Ops, reviews: Reviews, applied: Counters, taken: Counters) {
    forall m :: CountOk(ops, reviews, applied, taken, m)
  }

  ghost predicate TodoOk(ops: Ops, findings: Findings, todo: seq<Comment>) {
    && (forall i, j | 0 <= i < j < |todo| :: todo[i].vendor != todo[j].vendor)
    && (forall i | 0 <= i < |todo| ::
          Listing(findings, todo[i].vendor, todo[i].newIds) && Covers(ops, todo[i].vendor, todo[i].newIds))
  }

  ghost predicate StageOk(w: World)
    requires HasOp(w)
  {
    var o, m := w.handler.op, MarkerOf(w);
    match w.handler.stage
    case Prepared => true
    case Claimed => Owns(w.db, o, w.handler.token) && o !in w.flights
    case Searched => Owns(w.db, o, w.handler.token) && o !in w.flights && !Carried(w.reviews, m)
    case Calling =>
      Owns(w.db, o, w.handler.token) && (o !in w.flights && o !in w.landed ==> !Carried(w.reviews, m))
    case Returned(r) =>
      && Owns(w.db, o, w.handler.token) && o !in w.flights
      && Written(w.db.ops, o, r, w.reviews, w.nextReview, w.applied)
    case Marked(r) =>
      && w.db.ops[o].status == RemoteApplied && w.db.ops[o].remoteId == Some(r)
      && Written(w.db.ops, o, r, w.reviews, w.nextReview, w.applied)
  }

  ghost predicate HoldingOk(w: World)
    requires w.handler.Holding?
  {
    && HasOp(w) && StageOk(w)
    && TodoOk(w.db.ops, w.db.findings, w.handler.rest)
    && (forall i | 0 <= i < |w.handler.rest| :: w.handler.rest[i].vendor != MarkerOf(w).vendor)
    && (w.handler.prev.Some? ==>
          w.handler.prev.value < |w.db.posted| && w.db.posted[w.handler.prev.value].vendor == MarkerOf(w).vendor)
  }

  ghost predicate HandlerOk(w: World) {
    match w.handler
    case Absent => true
    case Looping(todo) => TodoOk(w.db.ops, w.db.findings, todo)
    case Holding(_, _, _, _, _, _) => HoldingOk(w)
  }

  predicate PostedThrough(ops: Ops, applied: Counters, o: nat, id: nat) {
    o in ops && ops[o].status == Succeeded && id in ops[o].newIds && Times(applied, ops[o].identity) >= 1
  }

  // A finding is posted only by an operation that has been applied remotely.
  ghost predicate PostedFindings(ops: Ops, findings: Findings, applied: Counters) {
    forall id <- findings | findings[id].status == FindingStatus.Posted :: exists o :: PostedThrough(ops, applied, o, id)
  }

  // An operation that was applied remembers the review it wrote.
  predicate RemotesOk(ops: Ops, reviews: Reviews, nextReview: nat, applied: Counters) {
    forall o <- ops | ops[o].remoteId.Some? :: Written(ops, o, ops[o].remoteId.value, reviews, nextReview, applied)
  }

  ghost predicate WorldOk(w: World) {
    && RowsOk(w.db.ops, w.db.findings, w.db.nextOp)
    && PostedOk(w.db.posted, w.reviews, w.nextReview)
    && ReviewsOk(w.reviews, w.nextReview)
    && OneCarrier(w.reviews)
    && FlightsOk(w.db.ops, w.flights, w.reviews, w.nextReview)
    && LandedOk(w.db.ops, w.db.nextOp, w.landed, w.reviews, w.nextReview, w.applied)
    && RemotesOk(w.db.ops, w.reviews, w.nextReview, w.applied)
    && Counts(w.db.ops, w.reviews, w.applied, w.taken)
    && PostedFindings(w.db.ops, w.db.findings, w.applied)
  }

  ghost predicate Inv(w: World) {
    WorldOk(w) && HandlerOk(w)
  }

  // ---------------------------------------------------------------- counting

  predicate Grown(counts: Counters, counts': Counters) {
    forall m <- counts :: Times(counts, m) <= Times(counts', m)
  }

  lemma TimesBump(counts: Counters, m: Identity)
    ensures forall x :: Times(Bump(counts, m), x) == Times(counts, x) + (if x == m then 1 else 0)
    ensures Grown(counts, Bump(counts, m))
  {
  }

  lemma GrownTimes(counts: Counters, counts': Counters, m: Identity)
    requires Grown(counts, counts')
    ensures Times(counts, m) <= Times(counts', m)
  {
  }

  // -------------------------------------------------------- markers and rows

  lemma MarkerStatus(ops: Ops, o: nat)
    requires UniqueIdentities(ops) && o in ops
    ensures Settled(ops, ops[o].identity) <==> ops[o].status == RemoteApplied || ops[o].status == Succeeded
    ensures Started(ops, ops[o].identity) <==> ops[o].status != Pending
  {
    assert IsSettled(ops[o], ops[o].identity) <==> ops[o].status == RemoteApplied || ops[o].status == Succeeded;
  }

  predicate AgreeExcept(ops: Ops, ops': Ops, o: nat) {
    && (forall p <- ops :: p != o ==> p in ops' && ops'[p] == ops[p])
    && (forall p <- ops' :: p != o ==> p in ops && ops'[p] == ops[p])
  }

  lemma OtherMarkers(ops: Ops, ops': Ops, o: nat, m: Identity)
    requires AgreeExcept(ops, ops', o)
    requires o in ops ==> ops[o].identity != m
    requires o in ops' ==> ops'[o].identity != m
    ensures Settled(ops', m) <==> Settled(ops, m)
    ensures Started(ops', m) <==> Started(ops, m)
  {
    if Settled(ops, m) {
      var p :| p in ops && IsSettled(ops[p], m);
      assert IsSettled(ops'[p], m);
    }
    if Settled(ops', m) {
      var p :| p in ops' && IsSettled(ops'[p], m);
      assert IsSettled(ops[p], m);
    }
    if Started(ops, m) {
      var p :| p in ops && ops[p].identity == m && ops[p].status != Pending;
      assert ops'[p].identity == m;
    }
    if Started(ops', m) {
      var p :| p in ops' && ops'[p].identity == m && ops'[p].status != Pending;
      assert ops[p].identity == m;
    }
  }

  // Only the count of the changed operation's marker has to be looked at.
  lemma CountsFrame(ops: Ops, ops': Ops, o: nat, m: Identity, reviews: Reviews, applied: Counters, taken: Counters)
    requires Counts(ops, reviews, applied, taken) && AgreeExcept(ops, ops', o)
    requires o in ops ==> ops[o].identity == m
    requires o in ops' ==> ops'[o].identity == m
    requires CountOk(ops', reviews, applied, taken, m)
    ensures Counts(ops', reviews, applied, taken)
  {
    hide AgreeExcept, Started, Settled, Carried;
    forall x ensures CountOk(ops', reviews, applied, taken, x) {
      if x != m {
        OtherMarkers(ops, ops', o, x);
        assert CountOk(ops, reviews, applied, taken, x);
      }
    }
  }

  // ------------------------------------------------------- changes of reviews

  predicate VendorsKept(reviews: Reviews, n: nat, reviews': Reviews, n': nat) {
    && n <= n'
    && (forall r <- reviews' :: if r in reviews then reviews'[r].vendor == reviews[r].vendor else n <= r)
  }

  lemma CarriedAfterWrite(reviews: Reviews, r: nat, review: Review, m: Identity)
    requires OneCarrier(reviews)
    ensures Carried(reviews[r := review], m) <==>
      review.marker == Some(m) || (Carried(reviews, m) && !Carries(reviews, r, m))
  {
    var reviews' := reviews[r := review];
    if review.marker == Some(m) {
      assert Carries(reviews', r, m);
    } else if Carried(reviews, m) {
      var s :| Carries(reviews, s, m);
      assert s != r ==> Carries(reviews', s, m);
      if Carried(reviews', m) {
        var t :| Carries(reviews', t, m);
        assert Carries(reviews, t, m);
      }
    } else if Carried(reviews', m) {
      var t :| Carries(reviews', t, m);
      assert Carries(reviews, t, m);
    }
  }

  lemma CarriedAfterDelete(reviews: Reviews, r: nat, m: Identity)
    requires OneCarrier(reviews)
    ensures Carried(reviews - {r}, m) <==> Carried(reviews, m) && !Carries(reviews, r, m)
  {
    var reviews' := reviews - {r};
    if Carried(reviews, m) {
      var s :| Carries(reviews, s, m);
      assert s != r ==> Carries(reviews', s, m);
    }
    if Carried(reviews', m) {
      var t :| Carries(reviews', t, m);
      assert Carries(reviews, t, m);
    }
  }

  lemma FlightsFrame(
    ops: Ops, flights: map<nat, Flight>, flights': map<nat, Flight>, reviews: Reviews, n: nat, reviews': Reviews,
    n': nat)
    requires FlightsOk(ops, flights, reviews, n) && VendorsKept(reviews, n, reviews', n')
    requires forall o <- flights' :: o in flights && flights'[o] == flights[o]
    requires forall o <- flights' :: !Carried(reviews', flights'[o].identity)
    ensures FlightsOk(ops, flights', reviews', n')
  {
    hide Carried;
    forall o <- flights' ensures FlightOk(ops, o, flights'[o], reviews', n') {
      assert FlightOk(ops, o, flights[o], reviews, n);
    }
  }

  lemma WrittenFrame(
    ops: Ops, o: nat, r: nat, reviews: Reviews, n: nat, applied: Counters, reviews': Reviews, n': nat,
    applied': Counters)
    requires Written(ops, o, r, reviews, n, applied)
    requires VendorsKept(reviews, n, reviews', n') && Grown(applied, applied')
    ensures Written(ops, o, r, reviews', n', applied')
  {
    if o in ops {
      GrownTimes(applied, applied', ops[o].identity);
    }
  }

  lemma LandedFrame(
    ops: Ops, nextOp: nat, landed: map<nat, nat>, reviews: Reviews, n: nat, applied: Counters, reviews': Reviews,
    n': nat, applied': Counters)
    requires LandedOk(ops, nextOp, landed, reviews, n, applied) && RemotesOk(ops, reviews, n, applied)
    requires VendorsKept(reviews, n, reviews', n') && Grown(applied, applied')
    ensures LandedOk(ops, nextOp, landed, reviews', n', applied') && RemotesOk(ops, reviews', n', applied')
  {
    hide Written, VendorsKept, Grown;
    forall o <- landed ensures o < nextOp && Written(ops, o, landed[o], reviews', n', applied') {
      WrittenFrame(ops, o, landed[o], reviews, n, applied, reviews', n', applied');
    }
    forall o <- ops | ops[o].remoteId.Some? ensures Written(ops, o, ops[o].remoteId.value, reviews', n', applied') {
      WrittenFrame(ops, o, ops[o].remoteId.value, reviews, n, applied, reviews', n', applied');
    }
  }

  // What others do to reviews and calls leaves the stage of the request alone.
  ghost predicate StageKept(w: World, w': World)
    requires HasOp(w)
  {
    var o, m := w.handler.op, MarkerOf(w);
    && w'.handler == w.handler && w'.db.ops == w.db.ops
    && VendorsKept(w.reviews, w.nextReview, w'.reviews, w'.nextReview) && Grown(w.applied, w'.applied)
    && (if o in w.flights
        then o !in w'.flights && o !in w'.landed ==> !Carried(w'.reviews, m)
        else o !in w'.flights && w.landed.Keys <= w'.landed.Keys
             && (Carried(w'.reviews, m) ==> Carried(w.reviews, m)))
  }

  lemma StageFrame(w: World, w': World)
    requires HasOp(w) && StageOk(w) && StageKept(w, w')
    ensures HasOp(w') && StageOk(w')
  {
    hide Carried, VendorsKept, Grown, Written;
    match w.handler.stage
    case Returned(r) =>
      WrittenFrame(w.db.ops, w.handler.op, r, w.reviews, w.nextReview, w.applied, w'.reviews, w'.nextReview, w'.applied);
    case Marked(r) =>
      WrittenFrame(w.db.ops, w.handler.op, r, w.reviews, w.nextReview, w.applied, w'.reviews, w'.nextReview, w'.applied);
    case _ =>
  }

  lemma HandlerFrame(w: World, w': World)
    requires HandlerOk(w) && w'.handler == w.handler && w'.db == w.db
    requires w.handler.Holding? && HasOp(w) ==> StageKept(w, w')
    ensures HandlerOk(w')
  {
    hide StageOk, StageKept, TodoOk;
    if w.handler.Holding? {
      assert HoldingOk(w);
      StageFrame(w, w');
    }
  }

  lemma PostedFindingsFrame(ops: Ops, findings: Findings, applied: Counters, ops': Ops, findings': Findings, applied': Counters)
    requires PostedFindings(ops, findings, applied) && Grown(applied, applied')
    requires forall id <- findings' | findings'[id].status == FindingStatus.Posted ::
      id in findings && findings[id].status == FindingStatus.Posted
    requires forall o <- ops | ops[o].status == Succeeded :: o in ops' && ops'[o] == ops[o]
    ensures PostedFindings(ops', findings', applied')
  {
    hide Grown;
    forall id <- findings' | findings'[id].status == FindingStatus.Posted
      ensures exists o :: PostedThrough(ops', applied', o, id)
    {
      var o :| PostedThrough(ops, applied, o, id);
      GrownTimes(applied, applied', ops[o].identity);
      assert PostedThrough(ops', applied', o, id);
    }
  }
}
