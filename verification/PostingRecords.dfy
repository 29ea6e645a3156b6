// What a post records, and that the next post of the vendor updates it.
module PostingRecords {
  import opened Text
  import opened Posting
  import opened PostingRows
  import opened PostingProtocol
  import opened PostingSafety
  import opened PostingSteps
  import opened PostingRequest
  import opened PostingTheorems

  // --------------------------------------------------------- the last transaction

  // Row i holds review r and is the latest of the vendor that is not superseded.
  predicate IsLatest(posted: seq<PostedRow>, vendor: string, r: nat, i: nat) {
    && i < |posted| && posted[i] == PostedRow(vendor, r, false)
    && forall k | i < k < |posted| :: posted[k].vendor != vendor || posted[k].superseded
  }

  ghost predicate LatestIs(posted: seq<PostedRow>, vendor: string, r: nat) {
    exists i: nat :: IsLatest(posted, vendor, r, i)
  }

  // The findings of the operation are posted and free, and all others as before.
  predicate PostedNow(before: Findings, after: Findings, ids: seq<nat>) {
    && after.Keys == before.Keys
    && forall id <- before ::
         after[id] == if id in ids then before[id].(status := FindingStatus.Posted, reservedBy := None) else before[id]
  }

  // One row more, for the review that was written; the row the request had found is
  // superseded, and all others are as before.
  predicate RowAdded(before: seq<PostedRow>, after: seq<PostedRow>, prev: Option<nat>, row: PostedRow) {
    && |after| == |before| + 1 && after[|before|] == row
    && forall i | 0 <= i < |before| :: after[i] == if prev == Some(i) then before[i].(superseded := true) else before[i]
  }

  lemma SupersedeIs(posted: seq<PostedRow>, prev: Option<nat>, row: PostedRow)
    ensures RowAdded(posted, Supersede(posted, prev) + [row], prev, row)
  {
  }

  lemma FinalizeIs(db: Db, o: nat)
    requires o in db.ops && Finalize(db, o).Ok?
    ensures var after := Finalize(db, o).value;
      && after == db.(findings := after.findings, ops := after.ops)
      && after.ops == db.ops[o := db.ops[o].(status := Succeeded, failed := false, owner := None, lockedAt := 0)]
      && PostedNow(db.findings, after.findings, db.ops[o].newIds)
  {
    hide PostFindings;
    PostExactly(db.findings, o, db.ops[o].newIds);
  }

  // The last transaction of a post always goes through: the operation is finished,
  // its findings are posted, and the review is on record.
  lemma FinishExactly(w: World, r: nat)
    requires Inv(w) && HasOp(w) && w.handler.stage == Marked(r)
    ensures var o, w' := w.handler.op, Next(w, Finish);
      && w' == w.(db := w'.db, handler := Looping(w.handler.rest))
      && w'.db.ops == w.db.ops[o := w.db.ops[o].(status := Succeeded, failed := false, owner := None, lockedAt := 0)]
      && PostedNow(w.db.findings, w'.db.findings, w.db.ops[o].newIds)
      && RowAdded(w.db.posted, w'.db.posted, w.handler.prev, PostedRow(MarkerOf(w).vendor, r, false))
      && w'.db.nextOp == w.db.nextOp && w'.db.now == w.db.now
  {
    hide Inv, Finalize, Supersede, PostedNow, RowAdded;
    FinishKeeps(w);
    var row := PostedRow(MarkerOf(w).vendor, r, false);
    var rows := Supersede(w.db.posted, w.handler.prev) + [row];
    SupersedeIs(w.db.posted, w.handler.prev, row);
    FinishGoesThrough(w);
    FinalizeIs(w.db.(posted := rows), w.handler.op);
  }

  lemma FinishGoesThrough(w: World)
    requires Inv(w) && HasOp(w) && w.handler.stage.Marked?
    ensures var rows := Supersede(w.db.posted, w.handler.prev)
                        + [PostedRow(MarkerOf(w).vendor, w.handler.stage.review, false)];
      Finalize(w.db.(posted := rows), w.handler.op).Ok?
  {
    hide Inv, Finalize, Supersede;
    RowsGrow(w);
    MarkedIsOpen(w);
    var rows := Supersede(w.db.posted, w.handler.prev)
                + [PostedRow(MarkerOf(w).vendor, w.handler.stage.review, false)];
    var w1 := w.(db := w.db.(posted := rows));
    WorldIsOk(w1);
    FinishWorld(w1, w.handler.op);
  }

  lemma WorldIsOk(w: World)
    requires Inv(w)
    ensures WorldOk(w)
  {
    hide WorldOk, HandlerOk;
  }

  // After a post its review is the vendor's latest on record.
  lemma RecordedIsLatest(w: World, r: nat)
    requires Inv(w) && HasOp(w) && w.handler.stage == Marked(r)
    ensures LatestIs(Next(w, Finish).db.posted, MarkerOf(w).vendor, r)
  {
    hide Inv, Next, PostedNow;
    FinishExactly(w, r);
    assert IsLatest(Next(w, Finish).db.posted, MarkerOf(w).vendor, r, |w.db.posted|);
  }

  // ------------------------------------------------------------------ it stays so

  // The request finishes a post of this vendor.
  predicate Finishes(w: World, s: Step, vendor: string) {
    s.Finish? && HasOp(w) && w.handler.stage.Marked? && MarkerOf(w).vendor == vendor
  }

  predicate RecordsElsewhere(s: Step) {
    s.OthersPost? || s.OthersSupersede?
  }

  predicate SameRows(w: World, w': World) {
    w'.db.posted == w.db.posted
  }

  lemma PrepareLeavesRows(w: World, head: string, policy: string)
    ensures SameRows(w, PrepareStep(w, head, policy))
  {
    hide UniqueIdentities, HasIdentity, LatestPosted, OpOf, Reserve;
  }

  lemma ClaimLeavesRows(w: World)
    ensures SameRows(w, ClaimStep(w))
  {
    hide At, Claimable;
  }

  lemma AbortLeavesRows(w: World)
    ensures SameRows(w, AbortStep(w))
  {
    hide Answered, Release;
  }

  lemma MarkLeavesRows(w: World)
    ensures SameRows(w, MarkStep(w))
  {
  }

  lemma FailLeavesRows(w: World)
    ensures SameRows(w, FailStep(w))
  {
  }

  lemma RequestLeavesRows(w: World, s: Step)
    requires OfRequest(s) && !s.Finish?
    ensures SameRows(w, Next(w, s))
  {
    hide PrepareStep, ClaimStep, AbortStep, MarkStep, FailStep, SearchStep, SendStep, BeginStep, ReceiveStep, FallBackStep;
    RequestLeavesOps(w, s);
    match s
    case PrepareNext(head, policy) => PrepareLeavesRows(w, head, policy);
    case ClaimNext => ClaimLeavesRows(w);
    case Search => SearchLeavesDb(w);
    case Send => SendLeavesDb(w);
    case Abort => AbortLeavesRows(w);
    case Mark => MarkLeavesRows(w);
    case Fail => FailLeavesRows(w);
    case _ =>
  }

  lemma OthersLeaveRows(w: World, s: Step)
    requires !OfRequest(s) && !RecordsElsewhere(s)
    ensures Next(w, s).db.posted == w.db.posted
  {
    hide Lose, Bump;
  }

  lemma IdleFinish(w: World)
    requires !(HasOp(w) && w.handler.stage.Marked?)
    ensures Next(w, Finish) == w
  {
  }

  lemma LatestKept(before: seq<PostedRow>, after: seq<PostedRow>, prev: Option<nat>, row: PostedRow, vendor: string, r: nat)
    requires LatestIs(before, vendor, r) && RowAdded(before, after, prev, row) && row.vendor != vendor
    requires prev.Some? ==> prev.value < |before| && before[prev.value].vendor != vendor
    ensures LatestIs(after, vendor, r)
  {
    var i: nat :| IsLatest(before, vendor, r, i);
    assert IsLatest(after, vendor, r, i);
  }

  lemma PrevIsOwn(w: World)
    requires Inv(w) && w.handler.Holding?
    ensures HasOp(w)
    ensures w.handler.prev.Some? ==>
      w.handler.prev.value < |w.db.posted| && w.db.posted[w.handler.prev.value].vendor == MarkerOf(w).vendor
  {
    hide WorldOk, TodoOk, StageOk;
  }

  // Only a post of the same vendor changes which review is the latest on record.
  lemma LatestStays(w: World, s: Step, vendor: string, r: nat)
    requires Inv(w) && LatestIs(w.db.posted, vendor, r) && !RecordsElsewhere(s) && !Finishes(w, s, vendor)
    ensures LatestIs(Next(w, s).db.posted, vendor, r)
  {
    hide Inv, Next, LatestIs, PostedNow, RowAdded;
    if s.Finish? {
      if HasOp(w) && w.handler.stage.Marked? {
        FinishExactly(w, w.handler.stage.review);
        PrevIsOwn(w);
        LatestKept(w.db.posted, Next(w, s).db.posted, w.handler.prev,
                   PostedRow(MarkerOf(w).vendor, w.handler.stage.review, false), vendor, r);
      } else {
        IdleFinish(w);
      }
    } else if OfRequest(s) {
      RequestLeavesRows(w, s);
    } else {
      OthersLeaveRows(w, s);
    }
  }

  // Nobody else records anything, and no other post of this vendor is finished.
  ghost predicate NothingRecorded(w: World, steps: seq<Step>, vendor: string)
    decreases |steps|
  {
    steps == [] ||
    (!RecordsElsewhere(steps[0]) && !Finishes(w, steps[0], vendor) && NothingRecorded(Next(w, steps[0]), steps[1..], vendor))
  }

  lemma {:induction false} LatestStaysOver(w: World, steps: seq<Step>, vendor: string, r: nat)
    requires Inv(w) && LatestIs(w.db.posted, vendor, r) && NothingRecorded(w, steps, vendor)
    ensures LatestIs(Run(w, steps).db.posted, vendor, r)
    decreases |steps|
  {
    hide Inv, Next, LatestIs, Finishes;
    if steps != [] {
      LatestStays(w, steps[0], vendor, r);
      StepKeeps(w, steps[0]);
      LatestStaysOver(Next(w, steps[0]), steps[1..], vendor, r);
    }
  }

  // ----------------------------------------------------- the next post of a vendor

  // The row that a request finds is the last one that is not superseded.
  lemma {:induction false} LatestExactly(posted: seq<PostedRow>, vendor: string, i: nat)
    ensures LatestPosted(posted, vendor) == Some(i) <==> i < |posted| && IsLatest(posted, vendor, posted[i].review, i)
    ensures LatestPosted(posted, vendor) == None <==>
      forall k | 0 <= k < |posted| :: posted[k].vendor != vendor || posted[k].superseded
  {
    if posted != [] {
      var n := |posted| - 1;
      var before := posted[..n];
      LatestExactly(before, vendor, i);
      assert forall k | 0 <= k < n :: posted[k] == before[k];
      if i < n && IsLatest(before, vendor, before[i].review, i) && LatestPosted(posted, vendor) != Some(n) {
        assert IsLatest(posted, vendor, posted[i].review, i);
      }
      if i < n && IsLatest(posted, vendor, posted[i].review, i) {
        assert IsLatest(before, vendor, before[i].review, i);
      }
    }
  }

  // The request with this token updates review r.
  predicate Updating(w: World, token: nat, r: nat) {
    && token < w.nextToken
    && (w.handler.Holding? && w.handler.token == token ==>
          && w.handler.update && w.handler.prev.Some? && w.handler.prev.value < |w.db.posted|
          && w.db.posted[w.handler.prev.value].review == r)
  }

  lemma PrepareTakes(w: World, head: string, policy: string)
    requires w.handler.Looping? && w.handler.todo != [] && PrepareStep(w, head, policy).handler.Holding?
    ensures var h := PrepareStep(w, head, policy).handler;
      && h.token == w.nextToken && PrepareStep(w, head, policy).nextToken == w.nextToken + 1
      && h.prev == LatestPosted(w.db.posted, w.handler.todo[0].vendor) && h.update == h.prev.Some?
  {
    hide UniqueIdentities, HasIdentity, LatestPosted, Prepare, OpOf;
  }

  // A request that goes on to a vendor with a review on record is going to update it.
  lemma PrepareUpdates(w: World, head: string, policy: string, r: nat)
    requires w.handler.Looping? && w.handler.todo != [] && LatestIs(w.db.posted, w.handler.todo[0].vendor, r)
    requires Next(w, PrepareNext(head, policy)).handler.Holding?
    ensures Next(w, PrepareNext(head, policy)).handler.token == w.nextToken
    ensures Updating(Next(w, PrepareNext(head, policy)), w.nextToken, r)
  {
    hide PrepareStep, LatestPosted;
    var i: nat :| IsLatest(w.db.posted, w.handler.todo[0].vendor, r, i);
    LatestExactly(w.db.posted, w.handler.todo[0].vendor, i);
    PrepareLeavesRows(w, head, policy);
    PrepareTakes(w, head, policy);
  }

  // Rows are added and superseded, and name the same review for good.
  predicate RowsStay(before: seq<PostedRow>, after: seq<PostedRow>) {
    |before| <= |after| && forall i | 0 <= i < |before| :: after[i].review == before[i].review
  }

  lemma StepRows(w: World, s: Step)
    requires Inv(w)
    ensures RowsStay(w.db.posted, Next(w, s).db.posted)
  {
    hide Inv, Next, PostedNow, OfRequest;
    if s.Finish? {
      if HasOp(w) && w.handler.stage.Marked? {
        FinishExactly(w, w.handler.stage.review);
      } else {
        IdleFinish(w);
      }
    } else if OfRequest(s) {
      RequestLeavesRows(w, s);
    } else if RecordsElsewhere(s) {
      OthersRecord(w, s);
    } else {
      OthersLeaveRows(w, s);
    }
  }

  lemma OthersRecord(w: World, s: Step)
    requires RecordsElsewhere(s)
    ensures RowsStay(w.db.posted, Next(w, s).db.posted)
  {
  }

  // What a request is going to update is settled when it prepares, except that it
  // may fall back to creating a review.
  predicate HandlerMoves(w: World, w': World) {
    && w.nextToken <= w'.nextToken
    && (w'.handler.Holding? && w'.handler.token < w.nextToken ==>
          && w.handler.Holding? && w'.handler.token == w.handler.token && w'.handler.prev == w.handler.prev
          && w'.handler.update == w.handler.update && w'.handler.op == w.handler.op)
  }

  lemma PrepareMoves(w: World, head: string, policy: string)
    ensures HandlerMoves(w, PrepareStep(w, head, policy))
  {
    hide UniqueIdentities, HasIdentity, LatestPosted, OpOf, Prepare;
  }

  lemma ClaimMoves(w: World)
    ensures HandlerMoves(w, ClaimStep(w)) && HandlerMoves(w, ReceiveStep(w)) && HandlerMoves(w, SendStep(w))
  {
    hide Claimable, Claim, MarkerOf, TargetOf;
  }

  lemma SearchMoves(w: World)
    ensures HandlerMoves(w, SearchStep(w))
  {
    hide Carried, MarkerOf;
  }

  lemma AbortMoves(w: World)
    ensures HandlerMoves(w, AbortStep(w)) && HandlerMoves(w, FailStep(w))
  {
    hide AbortUnapplied, MarkError;
  }

  lemma MarkMoves(w: World)
    ensures HandlerMoves(w, MarkStep(w)) && HandlerMoves(w, FinishStep(w))
  {
    hide MarkRemote, Finalize, Supersede;
  }

  predicate SameHandler(w: World, w': World) {
    w'.handler == w.handler && w'.nextToken == w.nextToken
  }

  lemma LandStays(w: World, o: nat)
    ensures SameHandler(w, LandStep(w, o))
  {
    hide Bump;
  }

  lemma LossStays(w: World, r: nat)
    ensures SameHandler(w, LoseMarker(w, r))
  {
    hide Lose;
  }

  lemma PlainStay(w: World, s: Step)
    requires IsPlain(s)
    ensures SameHandler(w, Next(w, s))
  {
    hide Lose, Patch;
  }

  lemma RowsByOthersStay(w: World, s: Step)
    ensures s.Insert? ==> SameHandler(w, InsertStep(w, s.vendor, s.eligible, s.id))
    ensures s.OthersPost? ==> SameHandler(w, OthersPostStep(w, s.vendor, s.review))
    ensures s.OthersSend? ==> SameHandler(w, OthersSendStep(w, s.review))
  {
  }

  lemma OthersStay(w: World, s: Step)
    requires !OfRequest(s)
    ensures SameHandler(w, Next(w, s))
  {
    if IsPlain(s) {
      hide Next;
      PlainStay(w, s);
    } else {
      hide LandStep, LoseMarker, InsertStep, OthersSendStep, OthersPostStep;
      RowsByOthersStay(w, s);
      match s
      case Land(o) => LandStays(w, o);
      case OthersOverwrite(r) => LossStays(w, r);
      case OthersLand(r) => LossStays(w, r);
      case _ =>
    }
  }

  lemma StepMoves(w: World, s: Step)
    requires !s.FallBack?
    ensures HandlerMoves(w, Next(w, s))
  {
    hide PrepareStep, ClaimStep, AbortStep, MarkStep, FailStep, FinishStep, SearchStep, SendStep, ReceiveStep, HandlerMoves;
    hide BeginStep, OfRequest;
    if OfRequest(s) {
      match s
      case Begin(order, bodies) => BeginMoves(w, order, bodies);
      case PrepareNext(head, policy) => PrepareMoves(w, head, policy);
      case ClaimNext => ClaimMoves(w);
      case Send => ClaimMoves(w);
      case Receive => ClaimMoves(w);
      case Search => SearchMoves(w);
      case Abort => AbortMoves(w);
      case Fail => AbortMoves(w);
      case Mark => MarkMoves(w);
      case Finish => MarkMoves(w);
      case Crash => CrashMoves(w);
      case _ => NotOfRequest(s);
    } else {
      hide Next;
      OthersStay(w, s);
      StayMoves(w, Next(w, s));
    }
  }

  lemma NotOfRequest(s: Step)
    requires OfRequest(s)
    ensures !(s.Land? || s.Drop? || s.Insert? || s.PatchStatus? || s.Wait? || s.MoveOn?)
    ensures !(s.OthersCreate? || s.OthersOverwrite? || s.OthersDelete?)
    ensures !(s.OthersPost? || s.OthersSupersede? || s.OthersSend? || s.OthersLand?)
  {
  }

  lemma StayMoves(w: World, w': World)
    requires SameHandler(w, w')
    ensures HandlerMoves(w, w')
  {
  }

  lemma CrashMoves(w: World)
    ensures HandlerMoves(w, w.(handler := Absent))
  {
  }

  lemma BeginMoves(w: World, order: seq<nat>, bodies: map<string, string>)
    ensures HandlerMoves(w, BeginStep(w, order, bodies))
  {
    hide CommentsOf, Lists;
  }

  lemma UpdatingStays(w: World, s: Step, token: nat, r: nat)
    requires Inv(w) && Updating(w, token, r) && !s.FallBack?
    ensures Updating(Next(w, s), token, r)
  {
    hide Inv, Next;
    StepRows(w, s);
    StepMoves(w, s);
  }

  lemma {:induction false} UpdatingStaysOver(w: World, steps: seq<Step>, token: nat, r: nat)
    requires Inv(w) && Updating(w, token, r) && forall i | 0 <= i < |steps| :: !steps[i].FallBack?
    ensures Updating(Run(w, steps), token, r)
    decreases |steps|
  {
    hide Inv, Next, Updating;
    if steps != [] {
      UpdatingStays(w, steps[0], token, r);
      StepKeeps(w, steps[0]);
      UpdatingStaysOver(Next(w, steps[0]), steps[1..], token, r);
    }
  }

  lemma SendsToTarget(w: World, r: nat)
    requires HasOp(w) && At(w, Searched) && Updating(w, w.handler.token, r)
    ensures w.handler.op in Next(w, Send).flights
    ensures Next(w, Send).flights[w.handler.op] == Flight(MarkerOf(w), Some(r))
  {
  }

  // Once a vendor has a review r on record, whatever happens until the next request
  // goes on to the vendor, that request sends its call to r, unless others recorded
  // something in between or r was gone and it fell back to creating a review.
  lemma NextPostUpdates(w: World, between: seq<Step>, head: string, policy: string, after: seq<Step>, vendor: string, r: nat)
    requires Inv(w) && LatestIs(w.db.posted, vendor, r) && NothingRecorded(w, between, vendor)
    requires var w1 := Run(w, between);
      w1.handler.Looping? && w1.handler.todo != [] && w1.handler.todo[0].vendor == vendor
    requires Next(Run(w, between), PrepareNext(head, policy)).handler.Holding?
    requires forall i | 0 <= i < |after| :: !after[i].FallBack?
    ensures var w1 := Run(w, between);
      var w2 := Run(Next(w1, PrepareNext(head, policy)), after);
      At(w2, Searched) && HasOp(w2) && w2.handler.token == w1.nextToken ==>
        && w2.handler.op in Next(w2, Send).flights
        && Next(w2, Send).flights[w2.handler.op] == Flight(MarkerOf(w2), Some(r))
  {
    hide Inv, Next, Run, LatestIs, NothingRecorded, Updating, MarkerOf;
    var w1 := Run(w, between);
    LatestStaysOver(w, between, vendor, r);
    RunKeeps(w, between);
    PrepareUpdates(w1, head, policy, r);
    StepKeeps(w1, PrepareNext(head, policy));
    var w2 := Run(Next(w1, PrepareNext(head, policy)), after);
    UpdatingStaysOver(Next(w1, PrepareNext(head, policy)), after, w1.nextToken, r);
    if At(w2, Searched) && HasOp(w2) && w2.handler.token == w1.nextToken {
      SendsToTarget(w2, r);
    }
  }

  // So a post that is finished is updated by the next one, not doubled.
  lemma PostIsUpdated(w: World, r: nat, between: seq<Step>, head: string, policy: string, after: seq<Step>)
    requires Inv(w) && HasOp(w) && w.handler.stage == Marked(r)
    requires NothingRecorded(Next(w, Finish), between, MarkerOf(w).vendor)
    requires var w1 := Run(Next(w, Finish), between);
      w1.handler.Looping? && w1.handler.todo != [] && w1.handler.todo[0].vendor == MarkerOf(w).vendor
    requires Next(Run(Next(w, Finish), between), PrepareNext(head, policy)).handler.Holding?
    requires forall i | 0 <= i < |after| :: !after[i].FallBack?
    ensures var w1 := Run(Next(w, Finish), between);
      var w2 := Run(Next(w1, PrepareNext(head, policy)), after);
      At(w2, Searched) && HasOp(w2) && w2.handler.token == w1.nextToken ==>
        && w2.handler.op in Next(w2, Send).flights
        && Next(w2, Send).flights[w2.handler.op] == Flight(MarkerOf(w2), Some(r))
  {
    hide Inv, Next, Run, LatestIs, NothingRecorded, MarkerOf, At;
    RecordedIsLatest(w, r);
    StepKeeps(w, Finish);
    NextPostUpdates(Next(w, Finish), between, head, policy, after, MarkerOf(w).vendor, r);
  }
}
