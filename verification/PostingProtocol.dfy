// Posting as a protocol: one request at a time holds the run's lock, remote
// calls can be lost or answered too late, requests can crash between any two
// transactions, and other runs and people can change the reviews on GitHub.
module PostingProtocol {
  import opened Text
  import opened Posting

  // -------------------------------------------------------- what is to be posted

  datatype Comment = Comment(vendor: string, body: string, newIds: seq<nat>)

  predicate IsPending(findings: Findings, id: nat) {
    id in findings && findings[id].eligible && Postable(findings[id].status)
  }

  function PendingIds(findings: Findings, order: seq<nat>): seq<nat> {
    if order == [] then []
    else
      var rest := PendingIds(findings, order[..|order| - 1]);
      var id := order[|order| - 1];
      if IsPending(findings, id) then rest + [id] else rest
  }

  function VendorsOf(findings: Findings, ids: seq<nat>): seq<string>
    requires forall id <- ids :: id in findings
  {
    if ids == [] then []
    else
      var rest := VendorsOf(findings, ids[..|ids| - 1]);
      var v := findings[ids[|ids| - 1]].vendor;
      if v in rest then rest else rest + [v]
  }

  function IdsOfVendor(findings: Findings, ids: seq<nat>, vendor: string): seq<nat>
    requires forall id <- ids :: id in findings
  {
    if ids == [] then []
    else
      var rest := IdsOfVendor(findings, ids[..|ids| - 1], vendor);
      var id := ids[|ids| - 1];
      if findings[id].vendor == vendor then rest + [id] else rest
  }

  lemma {:induction false} PendingIdsAre(findings: Findings, order: seq<nat>)
    ensures forall id :: id in PendingIds(findings, order) <==> id in order && IsPending(findings, id)
  {
    hide IsPending;
    if order != [] {
      var n := |order| - 1;
      PendingIdsAre(findings, order[..n]);
      assert order == order[..n] + [order[n]];
    }
  }

  // One comment for each vendor with pending findings, in order of appearance.
  // `bodyOf` formats the displayed findings of a vendor.
  function CommentsOf(findings: Findings, order: seq<nat>, bodyOf: string -> string): seq<Comment> {
    var pending := PendingIds(findings, order);
    PendingIdsAre(findings, order);
    var vendors := VendorsOf(findings, pending);
    seq(|vendors|, i requires 0 <= i < |vendors| =>
      Comment(vendors[i], bodyOf(vendors[i]), IdsOfVendor(findings, pending, vendors[i])))
  }

  // ------------------------------------------------------------------- the world

  datatype Review = Review(vendor: string, marker: Option<Identity>)

  datatype Stage = Prepared | Claimed | Searched | Calling | Returned(review: nat) | Marked(review: nat)

  // The request that holds the lock of the run, if any.
  datatype Handler =
    | Absent
    | Looping(todo: seq<Comment>)
    | Holding(stage: Stage, op: nat, token: nat, prev: Option<nat>, update: bool, rest: seq<Comment>)

  datatype Flight = Flight(identity: Identity, target: Option<nat>)

  datatype World = World(
    db: Db, handler: Handler, reviews: map<nat, Review>,
    flights: map<nat, Flight>,        // remote calls under way, by operation
    landed: map<nat, nat>,            // the review that the last call of an operation wrote
    applied: map<Identity, nat>,      // how often a marker was written remotely
    taken: map<Identity, nat>,        // how often others removed the marker of an open operation
    nextReview: nat, nextToken: nat,
    latest: bool,                     // no newer run, and the head has not moved
    others: set<nat>)                 // reviews that other runs' calls under way are going to update

  datatype Step =
    // the request
    | Begin(order: seq<nat>, bodies: map<string, string>)
    | PrepareNext(head: string, policy: string)
    | ClaimNext
    | Search
    | Send
    | Receive
    | FallBack
    | Abort
    | Mark
    | Finish
    | Fail
    | Crash
    // the remote side
    | Land(op: nat)
    | Drop(op: nat)
    // everybody else; a person rewrites or deletes reviews, other runs update them
    | Insert(vendor: string, eligible: bool, id: nat)
    | PatchStatus(id: nat, status: FindingStatus)
    | Wait(minutes: nat)
    | OthersCreate(vendor: string)
    | OthersOverwrite(review: nat)
    | OthersDelete(review: nat)
    | OthersPost(vendor: string, review: nat)
    | OthersSupersede(row: nat)
    | OthersSend(review: nat)
    | OthersLand(review: nat)
    | MoveOn(latest: bool)            // the head moves, perhaps back, or a newer run appears

  function Start(): World {
    World(Db(map[], map[], [], 0, 0), Absent, map[], map[], map[], map[], map[], 0, 0, true, {})
  }

  function Times(counts: map<Identity, nat>, m: Identity): nat {
    if m in counts then counts[m] else 0
  }

  function Bump(counts: map<Identity, nat>, m: Identity): map<Identity, nat> {
    counts[m := Times(counts, m) + 1]
  }

  predicate Carries(reviews: map<nat, Review>, r: nat, m: Identity) {
    r in reviews && reviews[r].marker == Some(m)
  }

  ghost predicate Carried(reviews: map<nat, Review>, m: Identity) {
    exists r :: Carries(reviews, r, m)
  }

  predicate IsSettled(op: Operation, m: Identity) {
    op.identity == m && (op.status == RemoteApplied || op.status == Succeeded)
  }

  // The operation of this marker no longer applies anything.
  predicate Settled(ops: Ops, m: Identity) {
    exists o <- ops :: IsSettled(ops[o], m)
  }

  // The row of the latest review posted for a vendor.
  function LatestPosted(posted: seq<PostedRow>, vendor: string): (row: Option<nat>)
    ensures row.Some? ==> row.value < |posted| && posted[row.value].vendor == vendor
  {
    if posted == [] then None
    else
      var n := |posted| - 1;
      if posted[n].vendor == vendor && !posted[n].superseded then Some(n) else LatestPosted(posted[..n], vendor)
  }

  function Supersede(posted: seq<PostedRow>, row: Option<nat>): seq<PostedRow> {
    if row.Some? && row.value < |posted|
    then posted[row.value := posted[row.value].(superseded := true)] else posted
  }

  function OpOf(ops: Ops, m: Identity): (o: nat)
    requires UniqueIdentities(ops) && HasIdentity(ops, m)
    ensures o in ops && ops[o].identity == m
  {
    var op :| op in ops && ops[op].identity == m;
    op
  }

  function BodyIn(bodies: map<string, string>, vendor: string): string {
    if vendor in bodies then bodies[vendor] else ""
  }

  predicate Lists(order: seq<nat>, findings: Findings) {
    && (forall id <- findings :: id in order)
    && (forall id <- order :: id in findings)
    && NoRepeats(order)
  }

  // ------------------------------------------------------------------- the steps

  // Only the latest run of the pull request, on its current head, is posted.
  function BeginStep(w: World, order: seq<nat>, bodies: map<string, string>): World {
    if w.handler.Absent? && w.latest && Lists(order, w.db.findings)
    then w.(handler := Looping(CommentsOf(w.db.findings, order, v => BodyIn(bodies, v))))
    else w
  }

  // Whether the run is still the latest is asked again before each comment.
  function PrepareStep(w: World, head: string, policy: string): World {
    if !w.handler.Looping? || w.handler.todo == [] || !UniqueIdentities(w.db.ops) then w
    else if !w.latest then w.(handler := Absent)
    else
      var c := w.handler.todo[0];
      var prev := LatestPosted(w.db.posted, c.vendor);
      var identity := Identity(head, policy, c.vendor, c.body);
      var prepared := Prepare(w.db, identity, c.newIds);
      if prepared.Err? || !UniqueIdentities(prepared.value.ops) || !HasIdentity(prepared.value.ops, identity)
      then w.(handler := Absent)
      else
        var db := prepared.value;
        var o := OpOf(db.ops, identity);
        var stage :=
          if db.ops[o].status == RemoteApplied && db.ops[o].remoteId.Some?
          then Marked(db.ops[o].remoteId.value) else Prepared;
        w.(db := db,
           handler := Holding(stage, o, w.nextToken, prev, prev.Some?, w.handler.todo[1..]),
           nextToken := w.nextToken + 1)
  }

  predicate At(w: World, stage: Stage) {
    w.handler.Holding? && w.handler.stage == stage
  }

  // A takeover finds the previous holder's remote call landed or lost: this is
  // what the program's 20 minutes stand for, and it is assumed here.
  function ClaimStep(w: World): World {
    if !At(w, Prepared) then w
    else if !Claimable(w.db, w.handler.op) then w.(handler := Absent)
    else if w.handler.op in w.flights then w
    else w.(db := Claim(w.db, w.handler.op, w.handler.token), handler := w.handler.(stage := Claimed))
  }

  function MarkerOf(w: World): Identity
    requires w.handler.Holding? && w.handler.op in w.db.ops
  {
    w.db.ops[w.handler.op].identity
  }

  predicate HasOp(w: World) {
    w.handler.Holding? && w.handler.op in w.db.ops
  }

  // Listing the reviews of the pull request is complete.
  ghost function SearchStep(w: World): World {
    if !At(w, Claimed) || !HasOp(w) then w
    else if Carried(w.reviews, MarkerOf(w)) then
      var r :| Carries(w.reviews, r, MarkerOf(w));
      w.(handler := w.handler.(stage := Returned(r)))
    else w.(handler := w.handler.(stage := Searched))
  }

  function TargetOf(w: World): Option<nat>
    requires w.handler.Holding?
  {
    var h := w.handler;
    if h.update && h.prev.Some? && h.prev.value < |w.db.posted|
    then Some(w.db.posted[h.prev.value].review) else None
  }

  function SendStep(w: World): World {
    if !At(w, Searched) || !HasOp(w) then w
    else
      w.(flights := w.flights[w.handler.op := Flight(MarkerOf(w), TargetOf(w))],
         landed := w.landed - {w.handler.op},
         handler := w.handler.(stage := Calling))
  }

  predicate Answered(w: World) {
    At(w, Calling) && w.handler.op !in w.flights
  }

  function ReceiveStep(w: World): World {
    if Answered(w) && w.handler.op in w.landed
    then w.(handler := w.handler.(stage := Returned(w.landed[w.handler.op])))
    else w
  }

  // The review to update is gone: create one instead.
  function FallBackStep(w: World): World {
    if Answered(w) && w.handler.op !in w.landed && w.handler.update
    then w.(handler := w.handler.(stage := Searched, update := false))
    else w
  }

  // The review to update is gone and creating one is not allowed.
  function AbortStep(w: World): World {
    if Answered(w) && w.handler.op !in w.landed && w.handler.update then
      var r := AbortUnapplied(w.db, w.handler.op, w.handler.token);
      w.(db := if r.Ok? then r.value else w.db, handler := Absent)
    else w
  }

  function MarkStep(w: World): World {
    if !w.handler.Holding? || !w.handler.stage.Returned? then w
    else
      var r := MarkRemote(w.db, w.handler.op, w.handler.stage.review, w.handler.token);
      if r.Err? then w.(handler := Absent)
      else w.(db := r.value, handler := w.handler.(stage := Marked(w.handler.stage.review)))
  }

  function FinishStep(w: World): World {
    if !HasOp(w) || !w.handler.stage.Marked? then w
    else
      var vendor := MarkerOf(w).vendor;
      var rows := Supersede(w.db.posted, w.handler.prev) + [PostedRow(vendor, w.handler.stage.review, false)];
      var r := Finalize(w.db.(posted := rows), w.handler.op);
      if r.Err? then w.(handler := Absent)
      else w.(db := r.value, handler := Looping(w.handler.rest))
  }

  function FailStep(w: World): World {
    if w.handler.Holding? then w.(db := MarkError(w.db, w.handler.op, w.handler.token), handler := Absent)
    else w
  }

  function LandStep(w: World, o: nat): World {
    if o !in w.flights then w
    else
      var m, target := w.flights[o].identity, w.flights[o].target;
      if target.None? then
        w.(flights := w.flights - {o},
           reviews := w.reviews[w.nextReview := Review(m.vendor, Some(m))],
           landed := w.landed[o := w.nextReview],
           nextReview := w.nextReview + 1,
           applied := Bump(w.applied, m))
      else if target.value in w.reviews then
        w.(flights := w.flights - {o},
           reviews := w.reviews[target.value := w.reviews[target.value].(marker := Some(m))],
           landed := w.landed[o := target.value],
           applied := Bump(w.applied, m))
      else w.(flights := w.flights - {o})
  }

  // A review loses its marker; the loss is counted while the operation is open.
  function Lose(w: World, r: nat): map<Identity, nat>
    requires r in w.reviews
  {
    var marker := w.reviews[r].marker;
    if marker.Some? && !Settled(w.db.ops, marker.value) then Bump(w.taken, marker.value) else w.taken
  }

  function InsertStep(w: World, vendor: string, eligible: bool, id: nat): World {
    if id in w.db.findings then w
    else w.(db := w.db.(findings := w.db.findings[id := Finding(vendor, Unreviewed, None, eligible)]))
  }

  // Another run posts a review of the same vendor on the pull request.
  function OthersPostStep(w: World, vendor: string, r: nat): World {
    if r in w.reviews && w.reviews[r].vendor == vendor
    then w.(db := w.db.(posted := w.db.posted + [PostedRow(vendor, r, false)]))
    else w
  }

  // The call of another run, which passed its checks while it was the latest, is
  // on its way to a review that was recorded.
  function OthersSendStep(w: World, r: nat): World {
    if exists i :: 0 <= i < |w.db.posted| && w.db.posted[i].review == r then w.(others := w.others + {r}) else w
  }

  function LoseMarker(w: World, r: nat): World {
    if r !in w.reviews then w
    else w.(taken := Lose(w, r), reviews := w.reviews[r := w.reviews[r].(marker := None)])
  }

  ghost function Next(w: World, s: Step): World {
    match s
    case Begin(order, bodies) => BeginStep(w, order, bodies)
    case PrepareNext(head, policy) => PrepareStep(w, head, policy)
    case ClaimNext => ClaimStep(w)
    case Search => SearchStep(w)
    case Send => SendStep(w)
    case Receive => ReceiveStep(w)
    case FallBack => FallBackStep(w)
    case Abort => AbortStep(w)
    case Mark => MarkStep(w)
    case Finish => FinishStep(w)
    case Fail => FailStep(w)
    case Crash => w.(handler := Absent)
    case Land(o) => LandStep(w, o)
    case Drop(o) => w.(flights := w.flights - {o})
    case Insert(vendor, eligible, id) => InsertStep(w, vendor, eligible, id)
    case PatchStatus(id, status) =>
      var r := Patch(w.db, id, status);
      if r.Ok? then w.(db := r.value) else w
    case Wait(minutes) => w.(db := w.db.(now := w.db.now + minutes))
    case OthersCreate(vendor) =>
      w.(reviews := w.reviews[w.nextReview := Review(vendor, None)], nextReview := w.nextReview + 1)
    case OthersOverwrite(r) => LoseMarker(w, r)
    case OthersDelete(r) =>
      if r !in w.reviews then w else w.(taken := Lose(w, r), reviews := w.reviews - {r})
    case OthersPost(vendor, r) => OthersPostStep(w, vendor, r)
    case OthersSupersede(i) =>
      if i < |w.db.posted|
      then w.(db := w.db.(posted := w.db.posted[i := w.db.posted[i].(superseded := true)])) else w
    case OthersSend(r) => OthersSendStep(w, r)
    case OthersLand(r) => if r in w.others then LoseMarker(w, r).(others := w.others - {r}) else w
    case MoveOn(latest) => w.(latest := latest)
  }

  ghost function Run(w: World, steps: seq<Step>): World
    decreases |steps|
  {
    if steps == [] then w else Run(Next(w, steps[0]), steps[1..])
  }
}
