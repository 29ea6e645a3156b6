// What is posted, and what each transaction of a post does, in terms of the rows.
module PostingEffects {
  import opened Text
  import opened Posting
  import opened PostingRows
  import opened PostingProtocol
  import opened PostingRequest

  // ---------------------------------------------------------------- the comments

  // Approved or edited, and not ruled out as a duplicate or as out of scope.
  predicate ToPost(findings: Findings, id: nat) {
    && id in findings && findings[id].eligible
    && (findings[id].status == FindingStatus.Approved || findings[id].status == FindingStatus.Edited)
  }

  predicate ToPostBy(findings: Findings, id: nat, vendor: string) {
    ToPost(findings, id) && findings[id].vendor == vendor
  }

  predicate PickedFor(findings: Findings, order: seq<nat>, vendor: string, at: seq<nat>, ids: seq<nat>) {
    && Picks(at, |order|) && |ids| == |at|
    && (forall i | 0 <= i < |order| :: i in at <==> ToPostBy(findings, order[i], vendor))
    && forall k | 0 <= k < |at| :: ids[k] == order[at[k]]
  }

  // In display order, what is to be posted of this vendor.
  ghost predicate AllOfVendor(findings: Findings, order: seq<nat>, vendor: string, ids: seq<nat>) {
    exists at: seq<nat> :: PickedFor(findings, order, vendor, at, ids)
  }

  function VendorIds(findings: Findings, order: seq<nat>, vendor: string): seq<nat> {
    PendingIdsAre(findings, order);
    IdsOfVendor(findings, PendingIds(findings, order), vendor)
  }

  lemma PickMore(findings: Findings, order: seq<nat>, vendor: string, ids: seq<nat>, id: nat)
    requires AllOfVendor(findings, order, vendor, ids)
    ensures AllOfVendor(findings, order + [id], vendor, if ToPostBy(findings, id, vendor) then ids + [id] else ids)
  {
    hide ToPostBy;
    var at: seq<nat> :| PickedFor(findings, order, vendor, at, ids);
    PicksMore(at, |order|);
    if ToPostBy(findings, id, vendor) {
      assert PickedFor(findings, order + [id], vendor, at + [|order|], ids + [id]);
    } else {
      assert PickedFor(findings, order + [id], vendor, at, ids);
    }
  }

  lemma VendorIdsMore(findings: Findings, order: seq<nat>, vendor: string, id: nat)
    ensures VendorIds(findings, order + [id], vendor) ==
      if ToPostBy(findings, id, vendor) then VendorIds(findings, order, vendor) + [id] else VendorIds(findings, order, vendor)
  {
    assert (order + [id])[..|order|] == order;
    var pending := PendingIds(findings, order);
    PendingIdsAre(findings, order);
    PendingIdsAre(findings, order + [id]);
    assert (pending + [id])[..|pending|] == pending;
  }

  lemma NothingPicked(findings: Findings, vendor: string)
    ensures AllOfVendor(findings, [], vendor, VendorIds(findings, [], vendor))
  {
    assert PickedFor(findings, [], vendor, [], []);
  }

  lemma {:induction false} VendorIdsExactly(findings: Findings, order: seq<nat>, vendor: string)
    ensures AllOfVendor(findings, order, vendor, VendorIds(findings, order, vendor))
  {
    hide AllOfVendor, VendorIds, ToPostBy;
    if order == [] {
      NothingPicked(findings, vendor);
    } else {
      var n := |order| - 1;
      VendorIdsExactly(findings, order[..n], vendor);
      assert order == order[..n] + [order[n]];
      PickMore(findings, order[..n], vendor, VendorIds(findings, order[..n], vendor), order[n]);
      VendorIdsMore(findings, order[..n], vendor, order[n]);
    }
  }

  // The first of these findings by a vendor.
  predicate FirstBy(findings: Findings, ids: seq<nat>, vendor: string, p: nat)
    requires forall id <- ids :: id in findings
  {
    p < |ids| && findings[ids[p]].vendor == vendor && forall k | 0 <= k < p :: findings[ids[k]].vendor != vendor
  }

  // Vendors in the order in which they first appear.
  lemma {:induction false} VendorsInOrder(findings: Findings, ids: seq<nat>) returns (firsts: seq<nat>)
    requires forall id <- ids :: id in findings
    ensures |firsts| == |VendorsOf(findings, ids)| && Picks(firsts, |ids|)
    ensures forall i | 0 <= i < |firsts| :: FirstBy(findings, ids, VendorsOf(findings, ids)[i], firsts[i])
  {
    if ids == [] {
      firsts := [];
    } else {
      var n := |ids| - 1;
      var before, v := ids[..n], findings[ids[n]].vendor;
      firsts := VendorsInOrder(findings, before);
      assert ids == before + [ids[n]];
      VendorsAre(findings, before);
      forall i | 0 <= i < |firsts| ensures FirstBy(findings, ids, VendorsOf(findings, before)[i], firsts[i]) {
        FirstStays(findings, before, ids[n], VendorsOf(findings, before)[i], firsts[i]);
      }
      PicksMore(firsts, n);
      if v !in VendorsOf(findings, before) {
        NewIsFirst(findings, before, ids[n]);
        firsts := firsts + [n];
      }
    }
  }

  lemma FirstStays(findings: Findings, before: seq<nat>, id: nat, vendor: string, p: nat)
    requires (forall x <- before + [id] :: x in findings) && (forall x <- before :: x in findings)
    requires FirstBy(findings, before, vendor, p)
    ensures FirstBy(findings, before + [id], vendor, p)
  {
  }

  lemma NewIsFirst(findings: Findings, before: seq<nat>, id: nat)
    requires (forall x <- before + [id] :: x in findings) && (forall x <- before :: x in findings)
    requires findings[id].vendor !in VendorsOf(findings, before)
    ensures FirstBy(findings, before + [id], findings[id].vendor, |before|)
  {
    VendorsAre(findings, before);
    hide VendorsOf;
    forall k | 0 <= k < |before| ensures findings[(before + [id])[k]].vendor != findings[id].vendor {
      assert before[k] in before;
    }
  }

  // Finding a comes before finding b.
  predicate Earlier(order: seq<nat>, a: nat, b: nat) {
    exists p, q :: 0 <= p < q < |order| && order[p] == a && order[q] == b
  }

  lemma {:induction false} PendingEarlier(findings: Findings, order: seq<nat>, p: nat, q: nat)
    requires p < q < |PendingIds(findings, order)|
    ensures Earlier(order, PendingIds(findings, order)[p], PendingIds(findings, order)[q])
  {
    var n := |order| - 1;
    var ids, before := PendingIds(findings, order), PendingIds(findings, order[..n]);
    if q < |before| {
      PendingEarlier(findings, order[..n], p, q);
      var x, y :| 0 <= x < y < n && order[..n][x] == ids[p] && order[..n][y] == ids[q];
      assert order[x] == ids[p] && order[y] == ids[q];
    } else {
      PendingIdsAre(findings, order[..n]);
      assert before[p] in order[..n];
      var x :| 0 <= x < n && order[..n][x] == ids[p];
      assert order[x] == ids[p] && order[n] == ids[q];
    }
  }

  lemma {:induction false} FirstIsHead(findings: Findings, ids: seq<nat>, vendor: string, p: nat)
    requires (forall id <- ids :: id in findings) && FirstBy(findings, ids, vendor, p)
    ensures IdsOfVendor(findings, ids, vendor) != [] && IdsOfVendor(findings, ids, vendor)[0] == ids[p]
  {
    var n := |ids| - 1;
    var before := ids[..n];
    assert ids == before + [ids[n]];
    if p < n {
      assert FirstBy(findings, before, vendor, p);
      FirstIsHead(findings, before, vendor, p);
    } else {
      NoneOfVendor(findings, before, vendor);
    }
  }

  lemma {:induction false} NoneOfVendor(findings: Findings, ids: seq<nat>, vendor: string)
    requires (forall id <- ids :: id in findings) && forall k | 0 <= k < |ids| :: findings[ids[k]].vendor != vendor
    ensures IdsOfVendor(findings, ids, vendor) == []
  {
    if ids != [] {
      assert forall k | 0 <= k < |ids| - 1 :: ids[..|ids| - 1][k] == ids[k];
      NoneOfVendor(findings, ids[..|ids| - 1], vendor);
    }
  }

  lemma PendingIsToPost(findings: Findings)
    ensures forall id :: IsPending(findings, id) <==> ToPost(findings, id)
    ensures forall id | ToPost(findings, id) :: id in findings
  {
  }

  // There is one comment for each vendor with something to post, with all of that
  // in display order; the comments come in the order of their first findings.
  lemma CommentsExactly(findings: Findings, order: seq<nat>, bodyOf: string -> string)
    ensures var comments := CommentsOf(findings, order, bodyOf);
      && (forall i | 0 <= i < |comments| ::
            && comments[i].newIds != [] && comments[i].body == bodyOf(comments[i].vendor)
            && AllOfVendor(findings, order, comments[i].vendor, comments[i].newIds))
      && (forall id <- order | ToPost(findings, id) :: exists i | 0 <= i < |comments| :: comments[i].vendor == findings[id].vendor)
      && (forall i, j | 0 <= i < j < |comments| ::
            comments[i].vendor != comments[j].vendor && Earlier(order, comments[i].newIds[0], comments[j].newIds[0]))
  {
    hide AllOfVendor, ToPost, IsPending, Earlier, PendingIds, VendorsOf, IdsOfVendor, FirstBy;
    var comments, pending := CommentsOf(findings, order, bodyOf), PendingIds(findings, order);
    PendingIdsAre(findings, order);
    PendingPresent(findings, order);
    PendingIsToPost(findings);
    VendorsAre(findings, pending);
    var vendors := VendorsOf(findings, pending);
    var firsts := VendorsInOrder(findings, pending);
    forall i | 0 <= i < |comments|
      ensures comments[i].newIds != [] && comments[i].body == bodyOf(comments[i].vendor)
      ensures AllOfVendor(findings, order, comments[i].vendor, comments[i].newIds)
      ensures comments[i].newIds[0] == pending[firsts[i]]
    {
      VendorIdsExactly(findings, order, vendors[i]);
      FirstIsHead(findings, pending, vendors[i], firsts[i]);
    }
    forall id <- order | ToPost(findings, id) ensures exists i | 0 <= i < |comments| :: comments[i].vendor == findings[id].vendor {
      assert id in pending && findings[id].vendor in vendors;
      var i :| 0 <= i < |vendors| && vendors[i] == findings[id].vendor;
      assert comments[i].vendor == vendors[i];
    }
    forall i, j | 0 <= i < j < |comments|
      ensures comments[i].vendor != comments[j].vendor && Earlier(order, comments[i].newIds[0], comments[j].newIds[0])
    {
      PendingEarlier(findings, order, firsts[i], firsts[j]);
    }
  }

  // -------------------------------------------------------------- the transactions

  // Approved or edited, and taken by no operation.
  predicate IsFree(findings: Findings, id: nat) {
    && id in findings && findings[id].reservedBy == None
    && (findings[id].status == FindingStatus.Approved || findings[id].status == FindingStatus.Edited)
  }

  predicate TakenBy(before: Findings, after: Findings, ids: seq<nat>, o: nat) {
    && after.Keys == before.Keys
    && forall id <- before :: after[id] == if id in ids then before[id].(reservedBy := Some(o)) else before[id]
  }

  // The operation with this identity, or a new one that takes its findings, which
  // all have to be free; otherwise nothing changes.
  lemma PrepareExactly(db: Db, identity: Identity, newIds: seq<nat>)
    ensures var r := Prepare(db, identity, newIds);
      var known := exists o <- db.ops :: db.ops[o].identity == identity;
      var free := (forall i | 0 <= i < |newIds| :: IsFree(db.findings, newIds[i])) && NoRepeats(newIds);
      && (known ==> r == Ok(db))
      && (!known && !free ==> r == Err(PostingConflict))
      && (!known && free ==>
            && r.Ok? && TakenBy(db.findings, r.value.findings, newIds, db.nextOp)
            && r.value == db.(
                 ops := db.ops[db.nextOp := Operation(identity, Pending, None, 0, newIds, None, false)],
                 findings := r.value.findings, nextOp := db.nextOp + 1))
  {
    hide Reserve;
    ReserveExactly(db.findings, db.nextOp, newIds);
    FreeIs(db.findings, newIds);
  }

  lemma FreeIs(findings: Findings, ids: seq<nat>)
    ensures AllReservable(findings, ids) <==> (forall i | 0 <= i < |ids| :: IsFree(findings, ids[i])) && NoRepeats(ids)
  {
    if forall i | 0 <= i < |ids| :: IsFree(findings, ids[i]) {
      forall id <- ids ensures Reservable(findings, id) {
      }
    }
    if AllReservable(findings, ids) {
      forall i | 0 <= i < |ids| ensures IsFree(findings, ids[i]) {
        assert Reservable(findings, ids[i]);
      }
    }
  }

  // An operation can be claimed before it was started, and again when nothing was
  // heard of it for twenty minutes.
  lemma ClaimExactly(db: Db, o: nat, token: nat)
    ensures var waits := o in db.ops && db.ops[o].status == Pending;
      var stuck := o in db.ops && db.ops[o].status == Applying && db.now >= db.ops[o].lockedAt + 20;
      && (Claimable(db, o) <==> waits || stuck)
      && Claim(db, o, token) ==
           if waits || stuck
           then db.(ops := db.ops[o := db.ops[o].(status := Applying, owner := Some(token), lockedAt := db.now)]) else db
  {
  }

  // Only the owner of an operation that is being applied records its review, notes
  // an error or gives it up, and it gives up only what was not applied.
  lemma OwnerExactly(db: Db, o: nat, review: nat, token: nat)
    ensures var mine := o in db.ops && db.ops[o].status == Applying && db.ops[o].owner == Some(token);
      && MarkRemote(db, o, review, token) ==
           (if mine then
              Ok(db.(ops := db.ops[o := db.ops[o].(
                status := RemoteApplied, remoteId := Some(review), failed := false, owner := None, lockedAt := 0)]))
            else Err(PostingConflict))
      && MarkError(db, o, token) == (if mine then db.(ops := db.ops[o := db.ops[o].(failed := true)]) else db)
  {
  }

  lemma AbortExactly(db: Db, o: nat, token: nat)
    ensures var r := AbortUnapplied(db, o, token);
      var mine := o in db.ops && db.ops[o].status == Applying && db.ops[o].owner == Some(token);
      && (r.Ok? <==> mine && db.ops[o].remoteId == None) && (r.Err? ==> r == Err(PostingConflict))
      && (r.Ok? ==>
            && r.value == db.(ops := db.ops - {o}, findings := r.value.findings)
            && r.value.findings.Keys == db.findings.Keys
            && forall id <- db.findings ::
                 r.value.findings[id] ==
                   if db.findings[id].reservedBy == Some(o) then db.findings[id].(reservedBy := None) else db.findings[id])
  {
  }

  // A person approves, dismisses or edits a finding that no operation has taken.
  lemma PatchExactly(db: Db, id: nat, status: FindingStatus)
    ensures Patch(db, id, status) ==
      if id !in db.findings then Err(NotFound)
      else if db.findings[id].reservedBy != None then Err(PostingConflict)
      else if status == FindingStatus.Unreviewed || status == FindingStatus.Posted then Err(BadStatus)
      else Ok(db.(findings := db.findings[id := db.findings[id].(status := status)]))
  {
  }
}
