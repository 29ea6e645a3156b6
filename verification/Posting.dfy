// The rows behind crash-safe posting: operations, the findings they reserve and
// the reviews already posted, with the transactions that change them. All rows
// belong to one review run.
//
// The operation key and the marker are hashes of the operation's identity;
// hashes are taken to be injective, so the identity stands for both.
module Posting {
  import opened Text

  datatype Identity = Identity(head: string, policy: string, vendor: string, body: string)

  datatype OpStatus = Pending | Applying | RemoteApplied | Succeeded

  datatype Operation = Operation(
    identity: Identity, status: OpStatus, owner: Option<nat>, lockedAt: nat,
    newIds: seq<nat>, remoteId: Option<nat>, failed: bool)

  datatype FindingStatus = Unreviewed | Approved | Dismissed | Edited | Posted

  datatype Finding = Finding(vendor: string, status: FindingStatus, reservedBy: Option<nat>, eligible: bool)

  datatype PostedRow = PostedRow(vendor: string, review: nat, superseded: bool)

  type Ops = map<nat, Operation>
  type Findings = map<nat, Finding>

  datatype Db = Db(
    ops: Ops, findings: Findings, posted: seq<PostedRow>, nextOp: nat, now: nat)

  datatype Error = PostingConflict | NotFound | BadStatus

  // Minutes after which an operation that is still being applied can be taken over.
  const TAKEOVER: nat := 20

  predicate Postable(status: FindingStatus) {
    status == Approved || status == Edited
  }

  predicate Unfinished(op: Operation) {
    op.status != Succeeded
  }

  // ----------------------------------------------------- what the rows become

  predicate Reservable(findings: Findings, id: nat) {
    id in findings && Postable(findings[id].status) && findings[id].reservedBy == None
  }

  function Reserve(findings: Findings, op: nat, ids: seq<nat>): Result<Findings, Error> {
    if ids == [] then Ok(findings)
    else if !Reservable(findings, ids[0]) then Err(PostingConflict)
    else Reserve(findings[ids[0] := findings[ids[0]].(reservedBy := Some(op))], op, ids[1..])
  }

  predicate HasIdentity(ops: Ops, identity: Identity) {
    exists o <- ops :: ops[o].identity == identity
  }

  predicate UniqueIdentities(ops: Ops) {
    forall o, p | o in ops && p in ops && ops[o].identity == ops[p].identity :: o == p
  }

  function Prepare(db: Db, identity: Identity, newIds: seq<nat>): Result<Db, Error> {
    if HasIdentity(db.ops, identity) then Ok(db)
    else
      var reserved := Reserve(db.findings, db.nextOp, newIds);
      if reserved.Err? then Err(PostingConflict)
      else
        Ok(db.(ops := db.ops[db.nextOp := Operation(identity, Pending, None, 0, newIds, None, false)],
               findings := reserved.value,
               nextOp := db.nextOp + 1))
  }

  predicate Claimable(db: Db, o: nat) {
    && o in db.ops
    && (db.ops[o].status == Pending
        || (db.ops[o].status == Applying && db.ops[o].lockedAt + TAKEOVER <= db.now))
  }

  function Claim(db: Db, o: nat, token: nat): Db {
    if Claimable(db, o)
    then db.(ops := db.ops[o := db.ops[o].(status := Applying, owner := Some(token), lockedAt := db.now)])
    else db
  }

  predicate Owns(db: Db, o: nat, token: nat) {
    o in db.ops && db.ops[o].status == Applying && db.ops[o].owner == Some(token)
  }

  function Release(findings: Findings, o: nat): Findings {
    map id <- findings :: if findings[id].reservedBy == Some(o) then findings[id].(reservedBy := None) else findings[id]
  }

  function AbortUnapplied(db: Db, o: nat, token: nat): Result<Db, Error> {
    if !Owns(db, o, token) || db.ops[o].remoteId.Some? then Err(PostingConflict)
    else Ok(db.(ops := db.ops - {o}, findings := Release(db.findings, o)))
  }

  function MarkRemote(db: Db, o: nat, review: nat, token: nat): Result<Db, Error> {
    if !Owns(db, o, token) then Err(PostingConflict)
    else
      Ok(db.(ops := db.ops[o := db.ops[o].(
        status := RemoteApplied, remoteId := Some(review), failed := false, owner := None, lockedAt := 0)]))
  }

  function MarkError(db: Db, o: nat, token: nat): Db {
    if Owns(db, o, token) then db.(ops := db.ops[o := db.ops[o].(failed := true)]) else db
  }

  predicate Finalizable(findings: Findings, o: nat, id: nat) {
    id in findings && Postable(findings[id].status) && findings[id].reservedBy == Some(o)
  }

  function PostFindings(findings: Findings, o: nat, ids: seq<nat>): Result<Findings, Error> {
    if ids == [] then Ok(findings)
    else if !Finalizable(findings, o, ids[0]) then Err(PostingConflict)
    else PostFindings(findings[ids[0] := findings[ids[0]].(status := Posted, reservedBy := None)], o, ids[1..])
  }

  function Finalize(db: Db, o: nat): Result<Db, Error>
    requires o in db.ops
  {
    var done := PostFindings(db.findings, o, db.ops[o].newIds);
    if done.Err? then Err(PostingConflict)
    else
      Ok(db.(findings := done.value,
             ops := db.ops[o := db.ops[o].(status := Succeeded, failed := false, owner := None, lockedAt := 0)]))
  }

  // A person changes the status of a finding.
  function Patch(db: Db, id: nat, status: FindingStatus): Result<Db, Error> {
    if id !in db.findings then Err(NotFound)
    else if db.findings[id].reservedBy.Some? then Err(PostingConflict)
    else if status !in {Approved, Dismissed, Edited} then Err(BadStatus)
    else Ok(db.(findings := db.findings[id := db.findings[id].(status := status)]))
  }

  // ------------------------------------------------- the transactions themselves

  class PostDb {
    var ops: Ops
    var findings: Findings
    var posted: seq<PostedRow>
    var nextOp: nat
    var now: nat

    function Rows(): Db
      reads this
    {
      Db(ops, findings, posted, nextOp, now)
    }

    constructor ()
      ensures Rows() == Db(map[], map[], [], 0, 0)
    {
      ops, findings, posted, nextOp, now := map[], map[], [], 0, 0;
    }

    method PrepareOp(identity: Identity, newIds: seq<nat>) returns (r: Result<nat, Error>)
      requires forall o <- ops :: o < nextOp
      modifies this
      ensures Prepare(old(Rows()), identity, newIds).Ok? <==> r.Ok?
      ensures Rows() == if r.Ok? then Prepare(old(Rows()), identity, newIds).value else old(Rows())
      ensures r.Ok? ==> r.value in ops && ops[r.value].identity == identity
    {
      if existing :| existing in ops && ops[existing].identity == identity {
        return Ok(existing);
      }
      var opsBefore, before, op := ops, findings, nextOp;
      ops := ops[op := Operation(identity, Pending, None, 0, newIds, None, false)];
      for i := 0 to |newIds|
        invariant ops == old(ops)[op := Operation(identity, Pending, None, 0, newIds, None, false)]
        invariant posted == old(posted) && nextOp == old(nextOp) && now == old(now)
        invariant Reserve(before, op, newIds) == Reserve(findings, op, newIds[i..])
      {
        DropStep(newIds, i);
        var id := newIds[i];
        if !(id in findings && Postable(findings[id].status) && findings[id].reservedBy == None) {
          ops, findings := opsBefore, before;
          return Err(PostingConflict);
        }
        findings := findings[id := findings[id].(reservedBy := Some(op))];
      }
      nextOp := nextOp + 1;
      return Ok(op);
    }

    method ClaimOp(o: nat, token: nat) returns (claimed: bool)
      modifies `ops
      ensures claimed <==> Claimable(old(Rows()), o)
      ensures Rows() == Claim(old(Rows()), o, token)
    {
      claimed := o in ops
        && (ops[o].status == Pending || (ops[o].status == Applying && ops[o].lockedAt + TAKEOVER <= now));
      if claimed {
        ops := ops[o := ops[o].(status := Applying, owner := Some(token), lockedAt := now)];
      }
    }

    method AbortUnappliedOp(o: nat, token: nat) returns (r: Result<(), Error>)
      modifies `ops, `findings
      ensures r.Ok? <==> AbortUnapplied(old(Rows()), o, token).Ok?
      ensures Rows() == if r.Ok? then AbortUnapplied(old(Rows()), o, token).value else old(Rows())
    {
      if o !in ops || ops[o].status != Applying || ops[o].owner != Some(token) || ops[o].remoteId.Some? {
        return Err(PostingConflict);
      }
      findings := map id <- findings ::
        if findings[id].reservedBy == Some(o) then findings[id].(reservedBy := None) else findings[id];
      ops := ops - {o};
      return Ok(());
    }

    method MarkRemoteOp(o: nat, review: nat, token: nat) returns (r: Result<(), Error>)
      modifies `ops
      ensures r.Ok? <==> MarkRemote(old(Rows()), o, review, token).Ok?
      ensures Rows() == if r.Ok? then MarkRemote(old(Rows()), o, review, token).value else old(Rows())
    {
      if o in ops && ops[o].status == Applying && ops[o].owner == Some(token) {
        ops := ops[o := ops[o].(
          status := RemoteApplied, remoteId := Some(review), failed := false, owner := None, lockedAt := 0)];
        return Ok(());
      }
      return Err(PostingConflict);
    }

    method MarkErrorOp(o: nat, token: nat)
      modifies `ops
      ensures Rows() == MarkError(old(Rows()), o, token)
    {
      if o in ops && ops[o].status == Applying && ops[o].owner == Some(token) {
        ops := ops[o := ops[o].(failed := true)];
      }
    }

    // On a conflict the caller rolls the transaction back.
    method FinalizeOp(o: nat) returns (r: Result<(), Error>)
      requires o in ops
      modifies `ops, `findings
      ensures r.Ok? <==> Finalize(old(Rows()), o).Ok?
      ensures Rows() == if r.Ok? then Finalize(old(Rows()), o).value else old(Rows())
    {
      var newIds, before := ops[o].newIds, findings;
      for i := 0 to |newIds|
        invariant ops == old(ops)
        invariant PostFindings(before, o, newIds) == PostFindings(findings, o, newIds[i..])
      {
        DropStep(newIds, i);
        var id := newIds[i];
        if !(id in findings && findings[id].reservedBy == Some(o) && Postable(findings[id].status)) {
          findings := before;
          return Err(PostingConflict);
        }
        findings := findings[id := findings[id].(status := Posted, reservedBy := None)];
      }
      ops := ops[o := ops[o].(status := Succeeded, failed := false, owner := None, lockedAt := 0)];
      return Ok(());
    }

    method PatchFinding(id: nat, status: FindingStatus) returns (r: Result<(), Error>)
      modifies `findings
      ensures r.Ok? <==> Patch(old(Rows()), id, status).Ok?
      ensures Rows() == if r.Ok? then Patch(old(Rows()), id, status).value else old(Rows())
    {
      if id !in findings {
        return Err(NotFound);
      }
      if findings[id].reservedBy.Some? {
        return Err(PostingConflict);
      }
      if status !in {Approved, Dismissed, Edited} {
        return Err(BadStatus);
      }
      findings := findings[id := findings[id].(status := status)];
      return Ok(());
    }
  }
}
