// Each step of the posting protocol keeps the invariant.
module PostingSteps {
  import opened Text
  import opened Posting
  import opened PostingRows
  import opened PostingProtocol
  import opened PostingSafety

  // ------------------------------------------------- the remote side and others

  lemma DropKeeps(w: World, o: nat)
    requires Inv(w)
    ensures Inv(w.(flights := w.flights - {o}))
  {
    hide RowsOk, PostedOk, ReviewsOk, OneCarrier, LandedOk, RemotesOk, Counts, PostedFindings, Carried;
    var w' := w.(flights := w.flights - {o});
    assert forall p <- w.flights :: FlightOk(w.db.ops, p, w.flights[p], w.reviews, w.nextReview);
    FlightsFrame(w.db.ops, w.flights, w'.flights, w.reviews, w.nextReview, w.reviews, w.nextReview);
    HandlerFrame(w, w');
  }

  lemma CreateKeeps(w: World, vendor: string)
    requires Inv(w)
    ensures Inv(Next(w, OthersCreate(vendor)))
  {
    hide RowsOk, Counts, PostedFindings, Carried, Settled, Started, Written, LandedOk, RemotesOk, HandlerOk;
    var r, review := w.nextReview, Review(vendor, None);
    var w' := w.(reviews := w.reviews[r := review], nextReview := r + 1);
    forall m ensures Carried(w'.reviews, m) <==> Carried(w.reviews, m) {
      CarriedAfterWrite(w.reviews, r, review, m);
    }
    SameCarriedCounts(w, w'.reviews);
    forall p <- w.flights ensures !Carried(w'.reviews, w.flights[p].identity) {
      assert FlightOk(w.db.ops, p, w.flights[p], w.reviews, w.nextReview);
    }
    FlightsFrame(w.db.ops, w.flights, w.flights, w.reviews, w.nextReview, w'.reviews, w'.nextReview);
    LandedFrame(w.db.ops, w.db.nextOp, w.landed, w.reviews, w.nextReview, w.applied, w'.reviews, w'.nextReview, w.applied);
    HandlerStays(w, w');
    FewerCarriers(w.reviews, w'.reviews);
  }

  lemma FewerCarriers(reviews: Reviews, reviews': Reviews)
    requires OneCarrier(reviews)
    requires forall r <- reviews' | reviews'[r].marker.Some? :: r in reviews && reviews'[r].marker == reviews[r].marker
    ensures OneCarrier(reviews')
  {
    forall s, t, m | Carries(reviews', s, m) && Carries(reviews', t, m) ensures s == t {
      assert Carries(reviews, s, m) && Carries(reviews, t, m);
    }
  }

  lemma SameCarriedCounts(w: World, reviews': Reviews)
    requires Counts(w.db.ops, w.reviews, w.applied, w.taken)
    requires forall m :: Carried(reviews', m) <==> Carried(w.reviews, m)
    ensures Counts(w.db.ops, reviews', w.applied, w.taken)
  {
    hide Carried, Settled, Started;
    forall m ensures CountOk(w.db.ops, reviews', w.applied, w.taken, m) {
      assert CountOk(w.db.ops, w.reviews, w.applied, w.taken, m);
    }
  }

  // Others only take markers away.
  lemma HandlerStays(w: World, w': World)
    requires HandlerOk(w) && w'.handler == w.handler && w'.db == w.db
    requires FlightsOk(w.db.ops, w.flights, w.reviews, w.nextReview)
    requires w'.flights == w.flights && w'.landed == w.landed && w'.applied == w.applied
    requires VendorsKept(w.reviews, w.nextReview, w'.reviews, w'.nextReview)
    requires forall m :: Carried(w'.reviews, m) ==> Carried(w.reviews, m)
    ensures HandlerOk(w')
  {
    hide Carried, VendorsKept, StageOk, TodoOk;
    HandlerFrame(w, w');
  }

  lemma LossKeeps(w: World, r: nat, reviews': Reviews)
    requires Inv(w) && r in w.reviews
    requires reviews' == w.reviews - {r} || reviews' == w.reviews[r := w.reviews[r].(marker := None)]
    ensures Inv(w.(taken := Lose(w, r), reviews := reviews'))
  {
    hide RowsOk, Counts, PostedFindings, Carried, Settled, Started, Written, LandedOk, RemotesOk, HandlerOk;
    hide Lose, FlightOk;
    var w' := w.(taken := Lose(w, r), reviews := reviews');
    forall m ensures Carried(reviews', m) <==> Carried(w.reviews, m) && !Carries(w.reviews, r, m) {
      CarriedAfterDelete(w.reviews, r, m);
      CarriedAfterWrite(w.reviews, r, w.reviews[r].(marker := None), m);
    }
    LossCounts(w, r, reviews');
    forall p <- w.flights ensures !Carried(reviews', w.flights[p].identity) {
      assert FlightOk(w.db.ops, p, w.flights[p], w.reviews, w.nextReview);
      FlightNotCarried(w.db.ops, p, w.flights[p], w.reviews, w.nextReview);
    }
    FlightsFrame(w.db.ops, w.flights, w.flights, w.reviews, w.nextReview, reviews', w.nextReview);
    LandedFrame(w.db.ops, w.db.nextOp, w.landed, w.reviews, w.nextReview, w.applied, reviews', w.nextReview, w.applied);
    HandlerStays(w, w');
    FewerCarriers(w.reviews, reviews');
  }

  lemma FlightNotCarried(ops: Ops, o: nat, flight: Flight, reviews: Reviews, n: nat)
    requires FlightOk(ops, o, flight, reviews, n)
    ensures !Carried(reviews, flight.identity)
  {
  }

  lemma LossCounts(w: World, r: nat, reviews': Reviews)
    requires r in w.reviews && Counts(w.db.ops, w.reviews, w.applied, w.taken)
    requires forall m :: Carried(reviews', m) <==> Carried(w.reviews, m) && !Carries(w.reviews, r, m)
    ensures Counts(w.db.ops, reviews', w.applied, Lose(w, r))
  {
    hide Carried, Settled, Started, Bump;
    var marker := w.reviews[r].marker;
    if marker.Some? {
      TimesBump(w.taken, marker.value);
      assert Carried(w.reviews, marker.value) by { CarriesIsCarried(w.reviews, r, marker.value); }
    }
    forall m ensures CountOk(w.db.ops, reviews', w.applied, Lose(w, r), m) {
      assert CountOk(w.db.ops, w.reviews, w.applied, w.taken, m);
    }
  }

  lemma CarriesIsCarried(reviews: Reviews, r: nat, m: Identity)
    requires Carries(reviews, r, m)
    ensures Carried(reviews, m)
  {
  }

  lemma PostedRowsKeep(w: World, posted: seq<PostedRow>)
    requires Inv(w) && PostedOk(posted, w.reviews, w.nextReview)
    requires |w.db.posted| <= |posted|
    requires forall i | 0 <= i < |w.db.posted| :: posted[i].vendor == w.db.posted[i].vendor
    ensures Inv(w.(db := w.db.(posted := posted)))
  {
    hide RowsOk, ReviewsOk, OneCarrier, FlightsOk, LandedOk, RemotesOk, Counts, PostedFindings, TodoOk, Carried;
    hide Written, PostedOk;
    var w' := w.(db := w.db.(posted := posted));
    if w.handler.Holding? {
      assert HoldingOk(w);
      assert StageOk(w');
    }
  }

  lemma OthersPostKeeps(w: World, vendor: string, r: nat)
    requires Inv(w)
    ensures Inv(OthersPostStep(w, vendor, r))
  {
    hide RowsOk, OneCarrier, FlightsOk, LandedOk, RemotesOk, Counts, PostedFindings, HandlerOk;
    if r in w.reviews && w.reviews[r].vendor == vendor {
      PostedRowsKeep(w, w.db.posted + [PostedRow(vendor, r, false)]);
    }
  }

  lemma SupersedeKeeps(w: World, i: nat)
    requires Inv(w) && i < |w.db.posted|
    ensures Inv(w.(db := w.db.(posted := w.db.posted[i := w.db.posted[i].(superseded := true)])))
  {
    hide RowsOk, OneCarrier, FlightsOk, LandedOk, RemotesOk, Counts, PostedFindings, HandlerOk, ReviewsOk;
    PostedRowsKeep(w, w.db.posted[i := w.db.posted[i].(superseded := true)]);
  }

  lemma WaitKeeps(w: World, minutes: nat)
    requires Inv(w)
    ensures Inv(w.(db := w.db.(now := w.db.now + minutes)))
  {
    hide RowsOk, PostedOk, ReviewsOk, OneCarrier, FlightsOk, LandedOk, RemotesOk, Counts, PostedFindings, TodoOk;
    hide Carried, Written;
    if w.handler.Holding? {
      assert HoldingOk(w);
      assert StageOk(w.(db := w.db.(now := w.db.now + minutes)));
    }
  }

  // -------------------------------------------------------------- findings change

  predicate NotNew(ops: Ops, ops': Ops, o: nat, vendor: string) {
    OpenFor(ops', o, vendor) ==> OpenFor(ops, o, vendor) && ops'[o].newIds == ops[o].newIds
  }

  ghost predicate NothingNew(ops: Ops, ops': Ops, todo: seq<Comment>) {
    forall i, o: nat | 0 <= i < |todo| :: NotNew(ops, ops', o, todo[i].vendor)
  }

  lemma TodoFrame(ops: Ops, findings: Findings, ops': Ops, findings': Findings, todo: seq<Comment>)
    requires TodoOk(ops, findings, todo)
    requires findings.Keys <= findings'.Keys
    requires forall id <- findings ::
      findings'[id].vendor == findings[id].vendor && findings'[id].eligible == findings[id].eligible
    requires NothingNew(ops, ops', todo)
    ensures TodoOk(ops', findings', todo)
  {
    hide NoRepeats;
    forall i | 0 <= i < |todo|
      ensures Listing(findings', todo[i].vendor, todo[i].newIds) && Covers(ops', todo[i].vendor, todo[i].newIds)
    {
      assert Listing(findings, todo[i].vendor, todo[i].newIds) && Covers(ops, todo[i].vendor, todo[i].newIds);
      forall o, id | OpenFor(ops', o, todo[i].vendor) && ListsOpen(ops', o, id) ensures id in todo[i].newIds {
        assert NotNew(ops, ops', o, todo[i].vendor);
        assert OpenFor(ops, o, todo[i].vendor) && ListsOpen(ops, o, id);
      }
    }
  }

  lemma FindingsKeep(w: World, findings': Findings)
    requires Inv(w) && RowsOk(w.db.ops, findings', w.db.nextOp)
    requires w.db.findings.Keys <= findings'.Keys
    requires forall id <- w.db.findings ::
      findings'[id].vendor == w.db.findings[id].vendor && findings'[id].eligible == w.db.findings[id].eligible
    requires forall id <- findings' | findings'[id].status == FindingStatus.Posted ::
      id in w.db.findings && w.db.findings[id].status == FindingStatus.Posted
    ensures Inv(w.(db := w.db.(findings := findings')))
  {
    hide RowsOk, PostedOk, ReviewsOk, OneCarrier, FlightsOk, LandedOk, RemotesOk, Counts, PostedFindings, TodoOk;
    hide Carried, Written, OpenFor;
    var w' := w.(db := w.db.(findings := findings'));
    PostedFindingsFrame(w.db.ops, w.db.findings, w.applied, w.db.ops, findings', w.applied);
    if w.handler.Looping? {
      TodoFrame(w.db.ops, w.db.findings, w.db.ops, findings', w.handler.todo);
    }
    if w.handler.Holding? {
      assert HoldingOk(w);
      TodoFrame(w.db.ops, w.db.findings, w.db.ops, findings', w.handler.rest);
      assert StageOk(w');
    }
  }

  lemma PatchStatusKeeps(w: World, id: nat, status: FindingStatus)
    requires Inv(w) && Patch(w.db, id, status).Ok?
    ensures Inv(w.(db := Patch(w.db, id, status).value))
  {
    hide RowsOk, PostedOk, ReviewsOk, OneCarrier, FlightsOk, LandedOk, RemotesOk, Counts, PostedFindings, HandlerOk;
    PatchKeeps(w.db, id, status);
    FindingsKeep(w, Patch(w.db, id, status).value.findings);
  }

  lemma InsertFindingKeeps(w: World, vendor: string, eligible: bool, id: nat)
    requires Inv(w)
    ensures Inv(InsertStep(w, vendor, eligible, id))
  {
    hide RowsOk, PostedOk, ReviewsOk, OneCarrier, FlightsOk, LandedOk, RemotesOk, Counts, PostedFindings, HandlerOk;
    if id !in w.db.findings {
      var finding := Finding(vendor, Unreviewed, None, eligible);
      InsertKeeps(w.db, id, finding);
      FindingsKeep(w, w.db.findings[id := finding]);
    }
  }

  // ------------------------------------------------------------- a call lands

  // The review that a call overwrites carries the marker of a settled operation.
  lemma OverwrittenIsSettled(w: World, o: nat, r: nat, m': Identity)
    requires Inv(w) && o in w.flights && Carries(w.reviews, r, m')
    requires Targets(w.reviews, w.nextReview, r, w.flights[o].identity.vendor)
    ensures Settled(w.db.ops, m') && m' != w.flights[o].identity
  {
    hide PostedOk, OneCarrier, LandedOk, RemotesOk, PostedFindings, HandlerOk, Reservations, Listings, Settled;
    var ops, m := w.db.ops, w.flights[o].identity;
    assert FlightOk(ops, o, w.flights[o], w.reviews, w.nextReview);
    CarriesIsCarried(w.reviews, r, m');
    assert m' != m;
    assert CountOk(ops, w.reviews, w.applied, w.taken, m');
    var p :| p in ops && ops[p].identity == m' && ops[p].status != Pending;
    MarkerStatus(ops, p);
    assert OpenFor(ops, o, m.vendor);
    assert ops[p].status == Applying ==> OpenFor(ops, p, m.vendor);
  }

  function WriteReview(w: World, o: nat, r: nat, nextReview: nat): World
    requires o in w.flights
  {
    var m := w.flights[o].identity;
    w.(flights := w.flights - {o},
       reviews := w.reviews[r := Review(m.vendor, Some(m))],
       landed := w.landed[o := r],
       nextReview := nextReview,
       applied := Bump(w.applied, m))
  }

  lemma LandKeeps(w: World, o: nat)
    requires Inv(w)
    ensures Inv(LandStep(w, o))
  {
    hide RowsOk, PostedOk, ReviewsOk, OneCarrier, LandedOk, RemotesOk, Counts, PostedFindings, HandlerOk, Carried;
    hide FlightsOk, Inv;
    if o in w.flights {
      var flight := w.flights[o];
      assert FlightOk(w.db.ops, o, flight, w.reviews, w.nextReview) by { FlightAt(w, o); }
      if flight.target.None? {
        FreshTarget(w, flight.identity.vendor);
        WriteKeeps(w, o, w.nextReview, w.nextReview + 1);
      } else if flight.target.value in w.reviews {
        WriteKeeps(w, o, flight.target.value, w.nextReview);
      } else {
        DropKeeps(w, o);
      }
    }
  }

  lemma FlightAt(w: World, o: nat)
    requires Inv(w) && o in w.flights
    ensures FlightOk(w.db.ops, o, w.flights[o], w.reviews, w.nextReview)
  {
    hide RowsOk, PostedOk, ReviewsOk, OneCarrier, LandedOk, RemotesOk, Counts, PostedFindings, HandlerOk;
  }

  lemma FreshTarget(w: World, vendor: string)
    requires Inv(w)
    ensures w.nextReview !in w.reviews
    ensures Targets(w.reviews, w.nextReview + 1, w.nextReview, vendor)
  {
    hide RowsOk, PostedOk, OneCarrier, LandedOk, RemotesOk, Counts, PostedFindings, HandlerOk, FlightsOk;
  }

  lemma WriteKeeps(w: World, o: nat, r: nat, n': nat)
    requires Inv(w) && o in w.flights
    requires if r in w.reviews then w.nextReview == n' else r == w.nextReview && n' == r + 1
    requires Targets(w.reviews, n', r, w.flights[o].identity.vendor)
    ensures Inv(WriteReview(w, o, r, n'))
  {
    hide RowsOk, PostedOk, ReviewsOk, OneCarrier, LandedOk, RemotesOk, Counts, PostedFindings, HandlerOk, FlightsOk;
    var m, w' := w.flights[o].identity, WriteReview(w, o, r, n');
    assert FlightOk(w.db.ops, o, w.flights[o], w.reviews, w.nextReview) by { FlightAt(w, o); }
    TimesBump(w.applied, m);
    WriteReviews(w, o, r, n');
    WriteCounts(w, o, r, n');
    WriteFlights(w, o, r, n');
    WriteHandler(w, o, r, n');
    LandedFrame(w.db.ops, w.db.nextOp, w.landed, w.reviews, w.nextReview, w.applied, w'.reviews, n', w'.applied);
    WriteLanded(w, o, r, n');
    PostedFindingsFrame(w.db.ops, w.db.findings, w.applied, w.db.ops, w.db.findings, w'.applied);
  }

  lemma WriteReviews(w: World, o: nat, r: nat, n': nat)
    requires Inv(w) && o in w.flights
    requires if r in w.reviews then w.nextReview == n' else r == w.nextReview && n' == r + 1
    requires Targets(w.reviews, n', r, w.flights[o].identity.vendor)
    ensures var w' := WriteReview(w, o, r, n');
      && PostedOk(w'.db.posted, w'.reviews, n') && ReviewsOk(w'.reviews, n') && OneCarrier(w'.reviews)
      && VendorsKept(w.reviews, w.nextReview, w'.reviews, n')
      && forall x :: Carried(w'.reviews, x) <==>
           x == w.flights[o].identity || (Carried(w.reviews, x) && !Carries(w.reviews, r, x))
  {
    hide RowsOk, LandedOk, RemotesOk, Counts, PostedFindings, HandlerOk, FlightsOk, Bump;
    var m, w' := w.flights[o].identity, WriteReview(w, o, r, n');
    assert !Carried(w.reviews, m) by { FlightAt(w, o); }
    forall x ensures Carried(w'.reviews, x) <==> x == m || (Carried(w.reviews, x) && !Carries(w.reviews, r, x)) {
      CarriedAfterWrite(w.reviews, r, Review(m.vendor, Some(m)), x);
    }
    forall s, t, x | Carries(w'.reviews, s, x) && Carries(w'.reviews, t, x) ensures s == t {
      if s != r {
        assert Carries(w.reviews, s, x);
      }
      if t != r {
        assert Carries(w.reviews, t, x);
      }
    }
  }

  lemma WriteCounts(w: World, o: nat, r: nat, n': nat)
    requires Inv(w) && o in w.flights && Targets(w.reviews, n', r, w.flights[o].identity.vendor)
    requires r in w.reviews ==> w.nextReview == n'
    requires forall x :: Carried(w.reviews[r := Review(w.flights[o].identity.vendor, Some(w.flights[o].identity))], x) <==>
      x == w.flights[o].identity || (Carried(w.reviews, x) && !Carries(w.reviews, r, x))
    ensures var w' := WriteReview(w, o, r, n'); Counts(w'.db.ops, w'.reviews, w'.applied, w'.taken)
  {
    hide PostedOk, ReviewsOk, OneCarrier, LandedOk, RemotesOk, PostedFindings, HandlerOk, FlightsOk, Bump;
    hide Carried, Settled, Started, Reservations, Listings, OnePerVendor, Statuses;
    var ops, m, w' := w.db.ops, w.flights[o].identity, WriteReview(w, o, r, n');
    TimesBump(w.applied, m);
    assert FlightOk(ops, o, w.flights[o], w.reviews, w.nextReview) by { FlightAt(w, o); }
    MarkerStatus(ops, o);
    forall x ensures CountOk(ops, w'.reviews, w'.applied, w'.taken, x) {
      assert CountOk(ops, w.reviews, w.applied, w.taken, x);
      if Carries(w.reviews, r, x) {
        OverwrittenIsSettled(w, o, r, x);
      }
    }
  }

  lemma WriteFlights(w: World, o: nat, r: nat, n': nat)
    requires Inv(w) && o in w.flights
    requires var w' := WriteReview(w, o, r, n');
      && VendorsKept(w.reviews, w.nextReview, w'.reviews, n')
      && forall x :: Carried(w'.reviews, x) <==>
           x == w.flights[o].identity || (Carried(w.reviews, x) && !Carries(w.reviews, r, x))
    ensures var w' := WriteReview(w, o, r, n'); FlightsOk(w'.db.ops, w'.flights, w'.reviews, n')
  {
    hide PostedOk, ReviewsOk, OneCarrier, LandedOk, RemotesOk, Counts, PostedFindings, HandlerOk, Bump, VendorsKept;
    hide Carried, Reservations, Listings, OnePerVendor, Statuses;
    var w' := WriteReview(w, o, r, n');
    FlightAt(w, o);
    forall p <- w'.flights ensures !Carried(w'.reviews, w'.flights[p].identity) {
      FlightAt(w, p);
    }
    FlightsFrame(w.db.ops, w.flights, w'.flights, w.reviews, w.nextReview, w'.reviews, n');
  }

  lemma WriteHandler(w: World, o: nat, r: nat, n': nat)
    requires Inv(w) && o in w.flights
    requires var w' := WriteReview(w, o, r, n');
      && VendorsKept(w.reviews, w.nextReview, w'.reviews, n')
      && forall x :: Carried(w'.reviews, x) <==>
           x == w.flights[o].identity || (Carried(w.reviews, x) && !Carries(w.reviews, r, x))
    ensures HandlerOk(WriteReview(w, o, r, n'))
  {
    hide PostedOk, ReviewsOk, OneCarrier, LandedOk, RemotesOk, Counts, PostedFindings, Bump, VendorsKept, Grown;
    hide Carried, Reservations, Listings, OnePerVendor, Statuses, StageOk, TodoOk;
    var w' := WriteReview(w, o, r, n');
    TimesBump(w.applied, w.flights[o].identity);
    FlightAt(w, o);
    if w.handler.Holding? && HasOp(w) {
      var h, m := w.handler.op, MarkerOf(w);
      if h in w.flights {
        FlightAt(w, h);
      }
      assert h != o ==> m != w.flights[o].identity;
      assert StageKept(w, w');
    }
    HandlerFrame(w, w');
  }

  lemma WriteLanded(w: World, o: nat, r: nat, n': nat)
    requires Inv(w) && o in w.flights && Targets(w.reviews, n', r, w.flights[o].identity.vendor)
    requires var w' := WriteReview(w, o, r, n');
      LandedOk(w.db.ops, w.db.nextOp, w.landed, w'.reviews, n', w'.applied)
    ensures var w' := WriteReview(w, o, r, n');
      LandedOk(w.db.ops, w.db.nextOp, w'.landed, w'.reviews, n', w'.applied)
  {
    hide PostedOk, ReviewsOk, OneCarrier, RemotesOk, Counts, PostedFindings, Bump, HandlerOk, FlightsOk;
    hide Carried, Reservations, Listings, OnePerVendor, UniqueIdentities;
    TimesBump(w.applied, w.flights[o].identity);
    FlightAt(w, o);
  }
}
