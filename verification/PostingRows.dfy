// What the posting transactions keep: every reservation belongs to exactly one
// unfinished operation, and a vendor has at most one of those.
module PostingRows {
  import opened Text
  import opened Posting

  predicate ListsOpen(ops: Ops, o: nat, id: nat) {
    o in ops && Unfinished(ops[o]) && id in ops[o].newIds
  }

  predicate ReservedFor(findings: Findings, id: nat, o: nat) {
    id in findings && findings[id].reservedBy == Some(o) && Postable(findings[id].status)
  }

  // A finding is reserved exactly by the unfinished operation that lists it, and
  // stays approved or edited while it is.
  ghost predicate Reservations(ops: Ops, findings: Findings) {
    && (forall o, id | ListsOpen(ops, o, id) :: ReservedFor(findings, id, o))
    && (forall id <- findings | findings[id].reservedBy.Some? :: ListsOpen(ops, findings[id].reservedBy.value, id))
  }

  predicate Listing(findings: Findings, vendor: string, ids: seq<nat>) {
    && ids != [] && NoRepeats(ids)
    && (forall id <- ids :: id in findings && findings[id].vendor == vendor && findings[id].eligible)
  }

  predicate Listings(ops: Ops, findings: Findings) {
    forall o <- ops :: Unfinished(ops[o]) ==> Listing(findings, ops[o].identity.vendor, ops[o].newIds)
  }

  predicate OpenFor(ops: Ops, o: nat, vendor: string) {
    o in ops && Unfinished(ops[o]) && ops[o].identity.vendor == vendor
  }

  ghost predicate OnePerVendor(ops: Ops) {
    forall o, p, vendor | OpenFor(ops, o, vendor) && OpenFor(ops, p, vendor) :: o == p
  }

  predicate Statuses(ops: Ops, nextOp: nat) {
    forall o <- ops :: o < nextOp && (ops[o].remoteId.Some? <==> ops[o].status == RemoteApplied || ops[o].status == Succeeded)
  }

  ghost predicate RowsOk(ops: Ops, findings: Findings, nextOp: nat) {
    && Reservations(ops, findings) && Listings(ops, findings)
    && OnePerVendor(ops) && UniqueIdentities(ops) && Statuses(ops, nextOp)
  }

  // ids takes in whatever the vendor's unfinished operations list.
  ghost predicate Covers(ops: Ops, vendor: string, ids: seq<nat>) {
    forall o, id | OpenFor(ops, o, vendor) && ListsOpen(ops, o, id) :: id in ids
  }

  // ------------------------------------------------------------- reserving

  function Reserved(findings: Findings, o: nat, ids: seq<nat>): Findings {
    map id <- findings :: if id in ids then findings[id].(reservedBy := Some(o)) else findings[id]
  }

  predicate AllReservable(findings: Findings, ids: seq<nat>) {
    NoRepeats(ids) && forall id <- ids :: Reservable(findings, id)
  }

  // Preparing succeeds exactly when all findings are free and none is listed twice.
  lemma {:induction false} ReserveExactly(findings: Findings, o: nat, ids: seq<nat>)
    ensures Reserve(findings, o, ids).Ok? <==> AllReservable(findings, ids)
    ensures Reserve(findings, o, ids).Ok? ==> Reserve(findings, o, ids).value == Reserved(findings, o, ids)
  {
    if ids == [] {
      assert Reserved(findings, o, ids) == findings;
    } else if Reservable(findings, ids[0]) {
      var next := findings[ids[0] := findings[ids[0]].(reservedBy := Some(o))];
      ReserveExactly(next, o, ids[1..]);
      assert ids == [ids[0]] + ids[1..];
      if AllReservable(next, ids[1..]) {
        forall id <- ids ensures Reservable(findings, id) {
          if id != ids[0] {
            assert id in ids[1..] && Reservable(next, id);
          }
        }
        forall i, j | 0 <= i < j < |ids| ensures ids[i] != ids[j] {
          assert ids[j] == ids[1..][j - 1] && Reservable(next, ids[j]);
          assert i > 0 ==> ids[i] == ids[1..][i - 1];
        }
        assert Reserved(next, o, ids[1..]) == Reserved(findings, o, ids);
      }
      if AllReservable(findings, ids) {
        forall id <- ids[1..] ensures Reservable(next, id) {
          var i :| 0 <= i < |ids[1..]| && ids[1..][i] == id;
          assert ids[i + 1] == id && ids[0] != ids[i + 1];
          assert Reservable(findings, id);
        }
      }
    }
  }

  lemma OpenReserved(ops: Ops, findings: Findings, p: nat, id: nat)
    requires Reservations(ops, findings) && ListsOpen(ops, p, id)
    ensures !Reservable(findings, id)
  {
    assert ReservedFor(findings, id, p);
  }

  lemma FreshVendor(ops: Ops, findings: Findings, vendor: string, ids: seq<nat>, p: nat)
    requires Reservations(ops, findings) && Listings(ops, findings)
    requires Covers(ops, vendor, ids) && AllReservable(findings, ids)
    ensures !OpenFor(ops, p, vendor)
  {
    hide Reservable, NoRepeats;
    if OpenFor(ops, p, vendor) {
      var id := ops[p].newIds[0];
      assert ListsOpen(ops, p, id);
      OpenReserved(ops, findings, p, id);
      assert false;
    }
  }

  lemma AddedReservations(ops: Ops, findings: Findings, o: nat, op: Operation)
    requires Reservations(ops, findings) && o !in ops && Unfinished(op)
    requires AllReservable(findings, op.newIds)
    ensures Reservations(ops[o := op], Reserved(findings, o, op.newIds))
  {
    hide NoRepeats;
    var ops', findings' := ops[o := op], Reserved(findings, o, op.newIds);
    forall p, id | ListsOpen(ops', p, id) ensures ReservedFor(findings', id, p) {
      if p != o {
        assert ListsOpen(ops, p, id) && ReservedFor(findings, id, p);
      } else {
        assert Reservable(findings, id);
      }
    }
    forall id <- findings' | findings'[id].reservedBy.Some?
      ensures ListsOpen(ops', findings'[id].reservedBy.value, id)
    {
      if id !in op.newIds {
        assert ListsOpen(ops, findings[id].reservedBy.value, id);
      }
    }
  }

  lemma AddedVendor(ops: Ops, findings: Findings, o: nat, op: Operation)
    requires Reservations(ops, findings) && Listings(ops, findings) && OnePerVendor(ops)
    requires o !in ops && Covers(ops, op.identity.vendor, op.newIds) && AllReservable(findings, op.newIds)
    ensures OnePerVendor(ops[o := op])
  {
    hide Reservations, Listings, Covers, AllReservable;
    var ops' := ops[o := op];
    forall p, q, vendor | OpenFor(ops', p, vendor) && OpenFor(ops', q, vendor) ensures p == q {
      if p != o {
        assert OpenFor(ops, p, vendor);
        FreshVendor(ops, findings, op.identity.vendor, op.newIds, p);
      }
      if q != o {
        assert OpenFor(ops, q, vendor);
        FreshVendor(ops, findings, op.identity.vendor, op.newIds, q);
      }
    }
  }

  lemma SameListings(ops: Ops, findings: Findings, findings': Findings)
    requires Listings(ops, findings)
    requires findings'.Keys >= findings.Keys
    requires forall id <- findings ::
      findings'[id].vendor == findings[id].vendor && findings'[id].eligible == findings[id].eligible
    ensures Listings(ops, findings')
  {
    hide NoRepeats;
    forall o <- ops | Unfinished(ops[o]) ensures Listing(findings', ops[o].identity.vendor, ops[o].newIds) {
      assert Listing(findings, ops[o].identity.vendor, ops[o].newIds);
    }
  }

  lemma PrepareKeeps(db: Db, identity: Identity, newIds: seq<nat>)
    requires RowsOk(db.ops, db.findings, db.nextOp)
    requires Listing(db.findings, identity.vendor, newIds) && Covers(db.ops, identity.vendor, newIds)
    requires Prepare(db, identity, newIds).Ok?
    ensures var db' := Prepare(db, identity, newIds).value;
      RowsOk(db'.ops, db'.findings, db'.nextOp) && HasIdentity(db'.ops, identity)
  {
    hide Reserve, Reservations, Listings, OnePerVendor, Covers, Listing, AllReservable, Reserved;
    if !HasIdentity(db.ops, identity) {
      var o, op := db.nextOp, Operation(identity, Pending, None, 0, newIds, None, false);
      var ops', findings' := db.ops[o := op], Reserved(db.findings, o, newIds);
      ReserveExactly(db.findings, o, newIds);
      AddedReservations(db.ops, db.findings, o, op);
      AddedVendor(db.ops, db.findings, o, op);
      AddedListings(db.ops, db.findings, o, op);
      assert HasIdentity(ops', identity) by { assert ops'[o].identity == identity; }
    }
  }

  lemma AddedListings(ops: Ops, findings: Findings, o: nat, op: Operation)
    requires Listings(ops, findings) && Listing(findings, op.identity.vendor, op.newIds)
    ensures Listings(ops[o := op], Reserved(findings, o, op.newIds))
  {
    hide NoRepeats;
    assert Listings(ops[o := op], findings);
    SameListings(ops[o := op], findings, Reserved(findings, o, op.newIds));
  }

  // ------------------------------------------- changing one operation only

  // An operation that stays unfinished may change its owner, its status and its
  // remote review.
  lemma UpdateKeeps(ops: Ops, findings: Findings, nextOp: nat, o: nat, op: Operation)
    requires RowsOk(ops, findings, nextOp)
    requires o in ops && Unfinished(ops[o]) && Unfinished(op)
    requires op.identity == ops[o].identity && op.newIds == ops[o].newIds
    requires op.remoteId.Some? <==> op.status == RemoteApplied || op.status == Succeeded
    ensures RowsOk(ops[o := op], findings, nextOp)
  {
    hide Listing;
    var ops' := ops[o := op];
    assert forall p, id :: ListsOpen(ops', p, id) <==> ListsOpen(ops, p, id);
    assert forall p, vendor :: OpenFor(ops', p, vendor) <==> OpenFor(ops, p, vendor);
  }

  // --------------------------------------------------------------- aborting

  lemma AbortKeeps(db: Db, o: nat, token: nat)
    requires RowsOk(db.ops, db.findings, db.nextOp) && AbortUnapplied(db, o, token).Ok?
    ensures var db' := AbortUnapplied(db, o, token).value; RowsOk(db'.ops, db'.findings, db'.nextOp)
  {
    hide Listing;
    var ops', findings' := db.ops - {o}, Release(db.findings, o);
    forall p, id | ListsOpen(ops', p, id) ensures ReservedFor(findings', id, p) {
      assert ListsOpen(db.ops, p, id) && ReservedFor(db.findings, id, p);
    }
    forall id <- findings' | findings'[id].reservedBy.Some?
      ensures ListsOpen(ops', findings'[id].reservedBy.value, id)
    {
      assert ListsOpen(db.ops, db.findings[id].reservedBy.value, id);
    }
    SameListings(ops', db.findings, findings');
    assert forall p, vendor :: OpenFor(ops', p, vendor) ==> OpenFor(db.ops, p, vendor);
  }

  // -------------------------------------------------------------- finalising

  function PostedIn(findings: Findings, ids: seq<nat>): Findings {
    map id <- findings ::
      if id in ids then findings[id].(status := FindingStatus.Posted, reservedBy := None) else findings[id]
  }

  predicate AllFinalizable(findings: Findings, o: nat, ids: seq<nat>) {
    NoRepeats(ids) && forall id <- ids :: Finalizable(findings, o, id)
  }

  lemma {:induction false} PostExactly(findings: Findings, o: nat, ids: seq<nat>)
    ensures PostFindings(findings, o, ids).Ok? <==> AllFinalizable(findings, o, ids)
    ensures PostFindings(findings, o, ids).Ok? ==> PostFindings(findings, o, ids).value == PostedIn(findings, ids)
  {
    if ids == [] {
      assert PostedIn(findings, ids) == findings;
    } else if Finalizable(findings, o, ids[0]) {
      var next := findings[ids[0] := findings[ids[0]].(status := FindingStatus.Posted, reservedBy := None)];
      PostExactly(next, o, ids[1..]);
      assert ids == [ids[0]] + ids[1..];
      if AllFinalizable(next, o, ids[1..]) {
        forall id <- ids ensures Finalizable(findings, o, id) {
          if id != ids[0] {
            assert id in ids[1..] && Finalizable(next, o, id);
          }
        }
        forall i, j | 0 <= i < j < |ids| ensures ids[i] != ids[j] {
          assert ids[j] == ids[1..][j - 1] && Finalizable(next, o, ids[j]);
          assert i > 0 ==> ids[i] == ids[1..][i - 1];
        }
        assert PostedIn(next, ids[1..]) == PostedIn(findings, ids);
      }
      if AllFinalizable(findings, o, ids) {
        forall id <- ids[1..] ensures Finalizable(next, o, id) {
          var i :| 0 <= i < |ids[1..]| && ids[1..][i] == id;
          assert ids[i + 1] == id && ids[0] != ids[i + 1];
          assert Finalizable(findings, o, id);
        }
      }
    }
  }

  // An operation that is not yet finished can always be finalised.
  lemma OpenIsFinalizable(db: Db, o: nat)
    requires RowsOk(db.ops, db.findings, db.nextOp) && o in db.ops && Unfinished(db.ops[o])
    ensures AllFinalizable(db.findings, o, db.ops[o].newIds)
    ensures Finalize(db, o).Ok?
    ensures Finalize(db, o).value.findings == PostedIn(db.findings, db.ops[o].newIds)
  {
    hide PostFindings, NoRepeats;
    assert Listing(db.findings, db.ops[o].identity.vendor, db.ops[o].newIds);
    forall id <- db.ops[o].newIds ensures Finalizable(db.findings, o, id) {
      assert ListsOpen(db.ops, o, id) && ReservedFor(db.findings, id, o);
    }
    PostExactly(db.findings, o, db.ops[o].newIds);
  }

  lemma FinalizeKeeps(db: Db, o: nat)
    requires RowsOk(db.ops, db.findings, db.nextOp) && o in db.ops && db.ops[o].status == RemoteApplied
    ensures Finalize(db, o).Ok?
    ensures var db' := Finalize(db, o).value; RowsOk(db'.ops, db'.findings, db'.nextOp)
  {
    hide PostFindings, NoRepeats, Listing;
    OpenIsFinalizable(db, o);
    var db', ids := Finalize(db, o).value, db.ops[o].newIds;
    forall p, id | ListsOpen(db'.ops, p, id) ensures ReservedFor(db'.findings, id, p) {
      assert ListsOpen(db.ops, p, id) && ReservedFor(db.findings, id, p);
      assert ListsOpen(db.ops, o, id) ==> ReservedFor(db.findings, id, o);
    }
    forall id <- db'.findings | db'.findings[id].reservedBy.Some?
      ensures ListsOpen(db'.ops, db'.findings[id].reservedBy.value, id)
    {
      assert ListsOpen(db.ops, db.findings[id].reservedBy.value, id);
    }
    FinalListings(db, o);
    assert forall p, vendor :: OpenFor(db'.ops, p, vendor) ==> OpenFor(db.ops, p, vendor);
  }

  lemma FinalListings(db: Db, o: nat)
    requires o in db.ops && Listings(db.ops, db.findings) && Finalize(db, o).Ok?
    requires Finalize(db, o).value.findings == PostedIn(db.findings, db.ops[o].newIds)
    ensures Listings(Finalize(db, o).value.ops, Finalize(db, o).value.findings)
  {
    hide PostFindings, Listing;
    var db' := Finalize(db, o).value;
    assert Listings(db'.ops, db.findings);
    SameListings(db'.ops, db.findings, db'.findings);
  }

  // ------------------------------------------------------------ other writers

  lemma PatchKeeps(db: Db, id: nat, status: FindingStatus)
    requires RowsOk(db.ops, db.findings, db.nextOp) && Patch(db, id, status).Ok?
    ensures RowsOk(db.ops, Patch(db, id, status).value.findings, db.nextOp)
  {
    hide Listing;
    var findings' := Patch(db, id, status).value.findings;
    forall p, i | ListsOpen(db.ops, p, i) ensures ReservedFor(findings', i, p) {
      assert ReservedFor(db.findings, i, p);
    }
    SameListings(db.ops, db.findings, findings');
  }

  lemma InsertKeeps(db: Db, id: nat, finding: Finding)
    requires RowsOk(db.ops, db.findings, db.nextOp) && id !in db.findings && finding.reservedBy == None
    ensures RowsOk(db.ops, db.findings[id := finding], db.nextOp)
  {
    hide Listing;
    var findings' := db.findings[id := finding];
    forall p, i | ListsOpen(db.ops, p, i) ensures ReservedFor(findings', i, p) {
      assert ReservedFor(db.findings, i, p);
    }
    SameListings(db.ops, db.findings, findings');
  }
}
