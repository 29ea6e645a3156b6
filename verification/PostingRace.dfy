// A run in which a marker is written twice, although the run being posted is the
// latest one throughout: the call of an older run, sent before, updates the
// recorded review between the first call and its recording.
module PostingRace {
  import opened Text
  import opened Posting
  import opened PostingProtocol

  const ID := Identity("head", "policy", "vendor", "body")

  function Held(owner: nat, at: nat): Operation {
    Operation(ID, Applying, Some(owner), at, [0], None, false)
  }

  const RESERVED: Findings := map[0 := Finding("vendor", Approved, Some(0), true)]

  // The review that an earlier run of the pull request has posted.
  const POSTED: seq<PostedRow> := [PostedRow("vendor", 0, false)]

  function FirstClaim(): World {
    World(Db(map[0 := Held(0, 0)], RESERVED, POSTED, 1, 0), Holding(Claimed, 0, 0, Some(0), true, []),
          map[0 := Review("vendor", None)], map[], map[], map[], map[], 1, 1, true, {0})
  }

  function Overwritten(): World {
    World(Db(map[0 := Held(0, 0)], RESERVED, POSTED, 1, 20), Absent,
          map[0 := Review("vendor", None)], map[], map[0 := 0], map[ID := 1], map[ID := 1], 1, 1, true, {})
  }

  function SecondClaim(): World {
    World(Db(map[0 := Held(1, 20)], RESERVED, POSTED, 1, 20), Holding(Claimed, 0, 1, Some(0), true, []),
          map[0 := Review("vendor", None)], map[], map[0 := 0], map[ID := 1], map[ID := 1], 1, 2, true, {})
  }

  lemma {:induction false} RunConcat(w: World, a: seq<Step>, b: seq<Step>)
    ensures Run(w, a + b) == Run(Run(w, a), b)
    decreases |a|
  {
    hide Next;
    if a == [] {
      ConcatNone(b);
    } else {
      ConcatTail(a, b);
      RunConcat(Next(w, a[0]), a[1..], b);
    }
  }

  lemma RunStep(w: World, s: Step, rest: seq<Step>)
    ensures Run(w, [s] + rest) == Run(Next(w, s), rest)
  {
    hide Next;
    ConcatTail([s], rest);
  }

  lemma RunNothing(w: World)
    ensures Run(w, []) == w
  {
  }

  lemma OneComment(findings: Findings, bodies: map<string, string>)
    requires findings.Keys == {0} && findings[0].vendor == "vendor" && IsPending(findings, 0)
    requires bodies == map["vendor" := "body"]
    ensures Lists([0], findings)
    ensures CommentsOf(findings, [0], v => BodyIn(bodies, v)) == [Comment("vendor", "body", [0])]
  {
    assert [0][..0] == [];
    assert PendingIds(findings, [0]) == [0];
    assert VendorsOf(findings, [0]) == ["vendor"];
    assert IdsOfVendor(findings, [0], "vendor") == [0];
  }

  const BODIES: map<string, string> := map["vendor" := "body"]

  function Recording(): seq<Step> {
    [OthersCreate("vendor")] + ([OthersPost("vendor", 0)] + ([OthersSend(0)] + []))
  }

  function Approve(): seq<Step> {
    [Insert("vendor", true, 0)] + ([PatchStatus(0, Approved)] + [])
  }

  function Claiming(): seq<Step> {
    [Begin([0], BODIES)] + ([PrepareNext("head", "policy")] + ([ClaimNext] + []))
  }

  function Sending(): seq<Step> {
    [Search] + ([Send] + ([Land(0)] + []))
  }

  function Losing(): seq<Step> {
    [Crash] + ([OthersLand(0)] + ([Wait(20)] + []))
  }

  const APPROVED: Findings := map[0 := Finding("vendor", Approved, None, true)]

  function Recorded(): World {
    World(Db(map[], map[], POSTED, 0, 0), Absent, map[0 := Review("vendor", None)], map[], map[], map[], map[], 1, 0,
          true, {0})
  }

  function Approving(): World {
    Recorded().(db := Db(map[], APPROVED, POSTED, 0, 0))
  }

  lemma Records()
    ensures Run(Start(), Recording()) == Recorded()
  {
    hide Run, Next;
    var w1 := Start().(reviews := map[0 := Review("vendor", None)], nextReview := 1);
    var w2 := w1.(db := w1.db.(posted := POSTED));
    RunStep(Start(), OthersCreate("vendor"), [OthersPost("vendor", 0)] + ([OthersSend(0)] + []));
    RunStep(w1, OthersPost("vendor", 0), [OthersSend(0)] + []);
    RunStep(w2, OthersSend(0), []);
    RunNothing(Recorded());
    RecordsOne(w1, w2);
    RecordsSent(w2);
  }

  lemma RecordsOne(w1: World, w2: World)
    requires w1 == Start().(reviews := map[0 := Review("vendor", None)], nextReview := 1)
    requires w2 == w1.(db := w1.db.(posted := POSTED))
    ensures Next(Start(), OthersCreate("vendor")) == w1 && Next(w1, OthersPost("vendor", 0)) == w2
  {
  }

  lemma RecordsSent(w: World)
    requires w.db.posted == POSTED && w.others == {}
    ensures Next(w, OthersSend(0)) == w.(others := {0})
  {
    assert w.db.posted[0].review == 0;
  }

  lemma Approves()
    ensures Run(Recorded(), Approve()) == Approving()
  {
    hide Run;
    var w := Next(Recorded(), Insert("vendor", true, 0));
    RunStep(Recorded(), Insert("vendor", true, 0), [PatchStatus(0, Approved)] + []);
    RunStep(w, PatchStatus(0, Approved), []);
    RunNothing(Next(w, PatchStatus(0, Approved)));
    assert Next(w, PatchStatus(0, Approved)) == Approving();
  }

  lemma ClaimingIs(w: World, w1: World, w2: World, w3: World)
    requires w1 == Next(w, Begin([0], BODIES)) && w2 == Next(w1, PrepareNext("head", "policy"))
    requires w3 == Next(w2, ClaimNext)
    ensures Run(w, Claiming()) == w3
  {
    hide Next, Run;
    RunStep(w, Begin([0], BODIES), [PrepareNext("head", "policy")] + ([ClaimNext] + []));
    RunStep(w1, PrepareNext("head", "policy"), [ClaimNext] + []);
    RunStep(w2, ClaimNext, []);
    RunNothing(w3);
  }

  lemma FirstClaims()
    ensures Run(Approving(), Claiming()) == FirstClaim()
  {
    hide CommentsOf, Run;
    var w := Approving();
    OneComment(APPROVED, BODIES);
    var w1 := w.(handler := Looping([Comment("vendor", "body", [0])]));
    assert Next(w, Begin([0], BODIES)) == w1;
    var op := Operation(ID, Pending, None, 0, [0], None, false);
    var w2 := w1.(db := Db(map[0 := op], RESERVED, POSTED, 1, 0),
                  handler := Holding(Prepared, 0, 0, Some(0), true, []), nextToken := 1);
    FirstPrepares(w1);
    assert Next(w1, PrepareNext("head", "policy")) == w2;
    assert Next(w2, ClaimNext) == FirstClaim();
    ClaimingIs(w, w1, w2, FirstClaim());
  }

  lemma FirstPrepares(w1: World)
    requires w1 == Approving().(handler := Looping([Comment("vendor", "body", [0])]))
    ensures var op := Operation(ID, Pending, None, 0, [0], None, false);
      PrepareStep(w1, "head", "policy") ==
        w1.(db := Db(map[0 := op], RESERVED, POSTED, 1, 0),
            handler := Holding(Prepared, 0, 0, Some(0), true, []), nextToken := 1)
  {
    var op := Operation(ID, Pending, None, 0, [0], None, false);
    var rows: Ops := map[0 := op];
    assert Reserve(APPROVED, 0, [0]) == Ok(RESERVED) by {
      assert [0][1..] == [];
      assert APPROVED[0 := APPROVED[0].(reservedBy := Some(0))] == RESERVED;
    }
    assert Prepare(w1.db, ID, [0]) == Ok(Db(rows, RESERVED, POSTED, 1, 0));
    assert HasIdentity(rows, ID) by { assert rows[0].identity == ID; }
    assert OpOf(rows, ID) == 0;
    assert LatestPosted(w1.db.posted, "vendor") == Some(0);
    assert w1.handler.todo[1..] == [];
  }

  lemma SendingIs(w: World, w1: World, w2: World, w3: World)
    requires w1 == Next(w, Search) && w2 == Next(w1, Send) && w3 == Next(w2, Land(0))
    ensures Run(w, Sending()) == w3
  {
    hide Next, Run;
    RunStep(w, Search, [Send] + ([Land(0)] + []));
    RunStep(w1, Send, [Land(0)] + []);
    RunStep(w2, Land(0), []);
    RunNothing(w3);
  }

  // The review is still the one that was recorded, and nobody's marker is on it.
  predicate ToUpdate(w: World) {
    && HasOp(w) && w.handler.op == 0 && w.handler.update && w.handler.prev == Some(0)
    && w.db.posted == POSTED && w.reviews == map[0 := Review("vendor", None)]
  }

  // The search finds nothing, the call is sent and lands.
  lemma Sends(w: World)
    requires At(w, Claimed) && ToUpdate(w)
    ensures Run(w, Sending()).applied == Bump(w.applied, MarkerOf(w))
    ensures var m := MarkerOf(w);
      Run(w, Sending()) == w.(
        handler := w.handler.(stage := Calling), flights := w.flights - {0},
        reviews := map[0 := Review("vendor", Some(m))], landed := w.landed[0 := 0], applied := Bump(w.applied, m))
  {
    hide Run, Bump, Next, ToUpdate;
    assert HasOp(w) by { IsHeld(w); }
    var m := MarkerOf(w);
    var w1 := w.(handler := w.handler.(stage := Searched));
    var w2 := w1.(flights := w.flights[0 := Flight(m, Some(0))], landed := w.landed - {0},
                  handler := w.handler.(stage := Calling));
    var w3 := Next(w2, Land(0));
    FindsNothing(w);
    SendsUpdate(w1) by { Still(w, w1); }
    Lands(w2, m) by { Still(w, w1); }
    assert w2.flights - {0} == w.flights - {0};
    assert w2.landed[0 := 0] == w.landed[0 := 0];
    SendingIs(w, w1, w2, w3);
  }

  lemma IsHeld(w: World)
    requires ToUpdate(w)
    ensures HasOp(w) && w.handler.op == 0
  {
  }

  lemma Still(w: World, w': World)
    requires ToUpdate(w) && w' == w.(handler := w.handler.(stage := Searched))
    ensures ToUpdate(w') && w.reviews == map[0 := Review("vendor", None)]
  {
  }

  lemma FindsNothing(w: World)
    requires At(w, Claimed) && ToUpdate(w)
    ensures Next(w, Search) == w.(handler := w.handler.(stage := Searched))
  {
    assert !Carried(w.reviews, MarkerOf(w));
  }

  lemma SendsUpdate(w: World)
    requires At(w, Searched) && ToUpdate(w)
    ensures Next(w, Send) == w.(flights := w.flights[0 := Flight(MarkerOf(w), Some(0))], landed := w.landed - {0},
                                handler := w.handler.(stage := Calling))
  {
  }

  lemma Lands(w: World, m: Identity)
    requires 0 in w.flights && w.flights[0] == Flight(m, Some(0)) && w.reviews == map[0 := Review("vendor", None)]
    ensures Next(w, Land(0)) == w.(
      flights := w.flights - {0}, reviews := map[0 := Review("vendor", Some(m))],
      landed := w.landed[0 := 0], applied := Bump(w.applied, m))
  {
    hide Bump;
  }

  lemma Loses()
    ensures Run(Run(FirstClaim(), Sending()), Losing()) == Overwritten()
  {
    hide Run, Next;
    Sends(FirstClaim());
    var w := Run(FirstClaim(), Sending());
    assert w.flights == map[];
    assert w.reviews == map[0 := Review("vendor", Some(ID))] && w.landed == map[0 := 0] && w.applied == map[ID := 1];
    var w1, w2 := Next(w, Crash), Next(Next(w, Crash), OthersLand(0));
    RunStep(w, Crash, [OthersLand(0)] + ([Wait(20)] + []));
    RunStep(w1, OthersLand(0), [Wait(20)] + []);
    RunStep(w2, Wait(20), []);
    RunNothing(Next(w2, Wait(20)));
    assert w1 == w.(handler := Absent) by { Crashes(w); }
    IsOverwritten(w1);
    assert Next(w2, Wait(20)) == Overwritten() by { Waits(w2); }
  }

  lemma Crashes(w: World)
    ensures Next(w, Crash) == w.(handler := Absent)
  {
  }

  lemma IsOverwritten(w: World)
    requires w == Overwritten().(
      reviews := map[0 := Review("vendor", Some(ID))], taken := map[], db := FirstClaim().db, others := {0})
    ensures Next(w, OthersLand(0)) == Overwritten().(db := FirstClaim().db)
  {
    assert !Settled(w.db.ops, ID);
    assert Next(w, OthersLand(0)).reviews == map[0 := Review("vendor", None)];
    assert Next(w, OthersLand(0)).taken == map[ID := 1];
    assert Next(w, OthersLand(0)).others == {};
  }

  lemma Waits(w: World)
    requires w == Overwritten().(db := FirstClaim().db)
    ensures Next(w, Wait(20)) == Overwritten()
  {
  }

  lemma SecondClaims()
    ensures Run(Overwritten(), Claiming()) == SecondClaim()
  {
    hide CommentsOf, Run, Next;
    var w := Overwritten();
    var w1 := w.(handler := Looping([Comment("vendor", "body", [0])]));
    var w2 := w1.(handler := Holding(Prepared, 0, 1, Some(0), true, []), nextToken := 2);
    SecondBegins();
    SecondPrepares(w1);
    ClaimsAgain(w2);
    ClaimingIs(w, w1, w2, SecondClaim());
  }

  lemma SecondBegins()
    ensures Next(Overwritten(), Begin([0], BODIES)) ==
      Overwritten().(handler := Looping([Comment("vendor", "body", [0])]))
  {
    hide CommentsOf;
    OneComment(RESERVED, BODIES);
  }

  lemma SecondPrepares(w: World)
    requires w == Overwritten().(handler := Looping([Comment("vendor", "body", [0])]))
    ensures Next(w, PrepareNext("head", "policy")) ==
      w.(handler := Holding(Prepared, 0, 1, Some(0), true, []), nextToken := 2)
  {
    assert HasIdentity(w.db.ops, ID) by { assert w.db.ops[0].identity == ID; }
    assert OpOf(w.db.ops, ID) == 0;
    assert LatestPosted(w.db.posted, "vendor") == Some(0);
    assert w.handler.todo[1..] == [];
  }

  lemma ClaimsAgain(w: World)
    requires w == Overwritten().(handler := Holding(Prepared, 0, 1, Some(0), true, []), nextToken := 2)
    ensures Next(w, ClaimNext) == SecondClaim()
  {
    assert Next(w, ClaimNext).db.ops == map[0 := Held(1, 20)];
  }

  predicate KeepsLatest(steps: seq<Step>) {
    forall i | 0 <= i < |steps| :: !steps[i].MoveOn? && !steps[i].OthersOverwrite? && !steps[i].OthersDelete?
  }

  lemma PartsKeepLatest()
    ensures KeepsLatest(Recording()) && KeepsLatest(Approve()) && KeepsLatest(Claiming()) && KeepsLatest(Sending())
    ensures KeepsLatest(Losing())
  {
  }

  lemma BothKeepLatest(a: seq<Step>, b: seq<Step>)
    requires KeepsLatest(a) && KeepsLatest(b)
    ensures KeepsLatest(a + b)
  {
  }

  lemma Continues(before: seq<Step>, w: World, next: seq<Step>)
    requires KeepsLatest(before) && KeepsLatest(next) && Run(Start(), before) == w
    ensures KeepsLatest(before + next) && Run(Start(), before + next) == Run(w, next)
  {
    hide Run, KeepsLatest;
    BothKeepLatest(before, next);
    RunConcat(Start(), before, next);
  }

  // Posting is not at most once, even for the latest run and with no person
  // touching the reviews.
  lemma WrittenTwice()
    ensures exists steps :: KeepsLatest(steps) && Times(Run(Start(), steps).applied, ID) == 2
  {
    hide Run, Next, KeepsLatest, Recording, Approve, Claiming, Sending, Losing;
    PartsKeepLatest();
    Records();
    Approves();
    FirstClaims();
    Loses();
    SecondClaims();
    Sends(SecondClaim());
    var sent := Run(FirstClaim(), Sending());
    var steps := Recording();
    Continues(steps, Recorded(), Approve());
    steps := steps + Approve();
    Continues(steps, Approving(), Claiming());
    steps := steps + Claiming();
    Continues(steps, FirstClaim(), Sending());
    steps := steps + Sending();
    Continues(steps, sent, Losing());
    steps := steps + Losing();
    Continues(steps, Overwritten(), Claiming());
    steps := steps + Claiming();
    Continues(steps, SecondClaim(), Sending());
    steps := steps + Sending();
    assert Times(Run(Start(), steps).applied, ID) == 2;
  }
}
