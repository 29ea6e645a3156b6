// The summary row of each run, kept by triggers on the finding table.
module FindingSummary {
  import opened Text

  datatype Finding = Finding(run: nat, status: string, eligible: bool)

  type Findings = map<nat, Finding>

  datatype Summary = Summary(
    maxId: nat, total: int, pending: int, approved: int, dismissed: int, edited: int, posted: int, unknown: int,
    postable: int)

  datatype Tables = Tables(findings: Findings, summaries: map<nat, Summary>, nextId: nat)

  predicate IsPostable(f: Finding) {
    f.eligible && (f.status == "approved" || f.status == "edited")
  }

  predicate IsUnknown(f: Finding) {
    f.status !in {"pending", "approved", "dismissed", "edited", "posted"}
  }

  function Bit(b: bool): int {
    if b then 1 else 0
  }

  function Max(a: nat, b: nat): nat {
    if a < b then b else a
  }

  function Clamped(n: int): int {
    if n < 0 then 0 else n
  }

  // The finding of a run with the largest id below n.
  function LastBelow(findings: Findings, n: nat, run: nat): nat {
    if n == 0 then 0
    else if n - 1 in findings && findings[n - 1].run == run then n - 1
    else LastBelow(findings, n - 1, run)
  }

  // --------------------------------------------------------------- the triggers

  // What a finding adds to the summary of its run.
  function Added(summaries: map<nat, Summary>, id: nat, f: Finding): map<nat, Summary> {
    summaries[f.run :=
      if f.run in summaries then
        var s := summaries[f.run];
        Summary(Max(s.maxId, id), s.total + 1, s.pending + Bit(f.status == "pending"),
                s.approved + Bit(f.status == "approved"), s.dismissed + Bit(f.status == "dismissed"),
                s.edited + Bit(f.status == "edited"), s.posted + Bit(f.status == "posted"),
                s.unknown + Bit(IsUnknown(f)), s.postable + Bit(IsPostable(f)))
      else
        Summary(id, 1, Bit(f.status == "pending"), Bit(f.status == "approved"), Bit(f.status == "dismissed"),
                Bit(f.status == "edited"), Bit(f.status == "posted"), Bit(IsUnknown(f)), Bit(IsPostable(f)))]
  }

  // What a finding takes from the summary of the run it was in; `last` is now the
  // last finding of that run.
  function Removed(summaries: map<nat, Summary>, f: Finding, maxChanges: bool, last: nat): map<nat, Summary> {
    if f.run !in summaries then summaries
    else
      var s := summaries[f.run];
      summaries[f.run :=
        Summary(if maxChanges then last else s.maxId, Clamped(s.total - 1),
                Clamped(s.pending - Bit(f.status == "pending")), Clamped(s.approved - Bit(f.status == "approved")),
                Clamped(s.dismissed - Bit(f.status == "dismissed")), Clamped(s.edited - Bit(f.status == "edited")),
                Clamped(s.posted - Bit(f.status == "posted")), Clamped(s.unknown - Bit(IsUnknown(f))),
                Clamped(s.postable - Bit(IsPostable(f))))]
  }

  function Insert(t: Tables, f: Finding): Tables {
    Tables(t.findings[t.nextId := f], Added(t.summaries, t.nextId, f), t.nextId + 1)
  }

  function MaxIs(t: Tables, run: nat, id: nat): bool {
    run in t.summaries && t.summaries[run].maxId == id
  }

  function Delete(t: Tables, id: nat): Tables {
    if id !in t.findings then t
    else
      var f, rest := t.findings[id], t.findings - {id};
      t.(findings := rest, summaries := Removed(t.summaries, f, MaxIs(t, f.run, id), LastBelow(rest, t.nextId, f.run)))
  }

  function Update(t: Tables, id: nat, f: Finding): Tables {
    if id !in t.findings then t
    else
      var before, after := t.findings[id], t.findings[id := f];
      var maxChanges := before.run != f.run && MaxIs(t, before.run, id);
      t.(findings := after,
         summaries := Added(Removed(t.summaries, before, maxChanges, LastBelow(after, t.nextId, before.run)), id, f))
  }

  // --------------------------------------------------------------- the recount

  // The findings of a run that satisfy p.
  function Where(findings: Findings, run: nat, p: Finding -> bool): set<nat> {
    set id | id in findings && findings[id].run == run && p(findings[id])
  }

  function Any(f: Finding): bool {
    true
  }

  function Has(status: string): Finding -> bool {
    (f: Finding) => f.status == status
  }

  // What counting the rows of a run gives.
  function Recount(findings: Findings, nextId: nat, run: nat): Summary {
    Summary(LastBelow(findings, nextId, run), |Where(findings, run, Any)|, |Where(findings, run, Has("pending"))|,
            |Where(findings, run, Has("approved"))|, |Where(findings, run, Has("dismissed"))|,
            |Where(findings, run, Has("edited"))|, |Where(findings, run, Has("posted"))|,
            |Where(findings, run, IsUnknown)|, |Where(findings, run, IsPostable)|)
  }

  function RunsOf(findings: Findings): set<nat> {
    set id | id in findings :: findings[id].run
  }

  // Summaries for runs that have findings and no summary yet.
  function Backfill(t: Tables): Tables {
    t.(summaries := t.summaries +
         (map run | run in RunsOf(t.findings) && run !in t.summaries :: Recount(t.findings, t.nextId, run)))
  }

  class SummaryDb {
    var findings: Findings
    var summaries: map<nat, Summary>
    var nextId: nat

    function Stored(): Tables
      reads this
    {
      Tables(findings, summaries, nextId)
    }

    constructor ()
      ensures Stored() == Tables(map[], map[], 1)
    {
      findings, summaries, nextId := map[], map[], 1;
    }

    // The upsert that the insert and the update trigger end with.
    method AddToSummary(id: nat, f: Finding)
      modifies `summaries
      ensures summaries == Added(old(summaries), id, f)
    {
      var s := Summary(id, 0, 0, 0, 0, 0, 0, 0, 0);
      if f.run in summaries {
        s := summaries[f.run];
        s := s.(maxId := Max(s.maxId, id));
      }
      s := s.(total := s.total + 1, unknown := s.unknown + Bit(IsUnknown(f)),
              postable := s.postable + Bit(IsPostable(f)));
      s := s.(pending := s.pending + Bit(f.status == "pending"), approved := s.approved + Bit(f.status == "approved"),
              dismissed := s.dismissed + Bit(f.status == "dismissed"));
      s := s.(edited := s.edited + Bit(f.status == "edited"), posted := s.posted + Bit(f.status == "posted"));
      summaries := summaries[f.run := s];
    }

    method InsertFinding(f: Finding) returns (id: nat)
      modifies this
      ensures id == old(nextId) && Stored() == Insert(old(Stored()), f)
    {
      id := nextId;
      findings, nextId := findings[id := f], nextId + 1;
      AddToSummary(id, f);
    }

    method DeleteFinding(id: nat)
      modifies `findings, `summaries
      ensures Stored() == Delete(old(Stored()), id)
      ensures findings == old(findings) - {id}
      ensures forall run <- summaries | id !in old(findings) || old(findings)[id].run != run ::
        run in old(summaries) && summaries[run] == old(summaries)[run]
    {
      if id in findings {
        var f, isMax := findings[id], findings[id].run in summaries && summaries[findings[id].run].maxId == id;
        findings := findings - {id};
        summaries := Removed(summaries, f, isMax, LastBelow(findings, nextId, f.run));
      }
    }

    method UpdateFinding(id: nat, f: Finding)
      modifies `findings, `summaries
      ensures Stored() == Update(old(Stored()), id, f)
    {
      if id in findings {
        var before := findings[id];
        var isMax := before.run in summaries && summaries[before.run].maxId == id;
        findings := findings[id := f];
        summaries := Removed(summaries, before, before.run != f.run && isMax, LastBelow(findings, nextId, before.run));
        AddToSummary(id, f);
      }
    }
  }

  // ----------------------------------------------------------------- agreement

  ghost predicate Agrees(t: Tables) {
    && t.nextId > 0
    && (forall id <- t.findings :: 0 < id < t.nextId && t.findings[id].run in t.summaries)
    && (forall run <- t.summaries :: t.summaries[run] == Recount(t.findings, t.nextId, run))
  }

  lemma {:induction false} LastIs(findings: Findings, n: nat, run: nat)
    ensures var last := LastBelow(findings, n, run);
      if exists id | 0 <= id < n :: id in findings && findings[id].run == run
      then last < n && last in findings && findings[last].run == run
           && (forall id | last < id < n :: !(id in findings && findings[id].run == run))
      else last == 0
  {
    if n > 0 {
      LastIs(findings, n - 1, run);
      if n - 1 in findings && findings[n - 1].run == run {
        assert exists id | 0 <= id < n :: id in findings && findings[id].run == run;
      } else if exists id | 0 <= id < n :: id in findings && findings[id].run == run {
        var id :| 0 <= id < n && id in findings && findings[id].run == run;
        assert id < n - 1;
      }
    }
  }

  lemma {:induction false} LastSame(findings: Findings, findings': Findings, n: nat, run: nat)
    requires forall id | 0 <= id < n ::
      (id in findings && findings[id].run == run) <==> (id in findings' && findings'[id].run == run)
    ensures LastBelow(findings, n, run) == LastBelow(findings', n, run)
  {
    if n > 0 {
      LastSame(findings, findings', n - 1, run);
    }
  }

  lemma WhereJoined(findings: Findings, id: nat, f: Finding, run: nat, p: Finding -> bool)
    requires id !in findings && f.run == run && p(f)
    ensures Where(findings[id := f], run, p) == Where(findings, run, p) + {id}
  {
    var more := findings[id := f];
    forall i ensures i in Where(more, run, p) <==> i in Where(findings, run, p) + {id} {
      assert i in more <==> i == id || i in findings;
    }
  }

  lemma WhereStays(findings: Findings, id: nat, f: Finding, run: nat, p: Finding -> bool)
    requires id !in findings && !(f.run == run && p(f))
    ensures Where(findings[id := f], run, p) == Where(findings, run, p)
  {
  }

  // A finding more: a count grows where the finding counts.
  lemma WhereGrows(findings: Findings, id: nat, f: Finding, run: nat, p: Finding -> bool)
    requires id !in findings
    ensures |Where(findings[id := f], run, p)| == |Where(findings, run, p)| + Bit(f.run == run && p(f))
  {
    assert id !in Where(findings, run, p);
    hide Where;
    if f.run == run && p(f) {
      WhereJoined(findings, id, f, run, p);
    } else {
      WhereStays(findings, id, f, run, p);
    }
  }

  // The summary that one more finding leads to.
  function Grown(s: Summary, f: Finding, maxId: nat): Summary {
    Summary(maxId, s.total + 1, s.pending + Bit(f.status == "pending"),
            s.approved + Bit(f.status == "approved"), s.dismissed + Bit(f.status == "dismissed"),
            s.edited + Bit(f.status == "edited"), s.posted + Bit(f.status == "posted"),
            s.unknown + Bit(IsUnknown(f)), s.postable + Bit(IsPostable(f)))
  }

  lemma RecountGrows(findings: Findings, n: nat, id: nat, f: Finding, run: nat)
    requires id !in findings && id < n
    ensures var more := findings[id := f];
      Recount(more, n, run) ==
        if f.run == run then Grown(Recount(findings, n, run), f, Max(LastBelow(findings, n, run), id))
        else Recount(findings, n, run)
  {
    hide Where, IsUnknown, IsPostable;
    WhereGrows(findings, id, f, run, Any);
    WhereGrows(findings, id, f, run, Has("pending"));
    WhereGrows(findings, id, f, run, Has("approved"));
    WhereGrows(findings, id, f, run, Has("dismissed"));
    WhereGrows(findings, id, f, run, Has("edited"));
    WhereGrows(findings, id, f, run, Has("posted"));
    WhereGrows(findings, id, f, run, IsUnknown);
    WhereGrows(findings, id, f, run, IsPostable);
    LastGrows(findings, n, id, f, run);
  }

  lemma LastGrows(findings: Findings, n: nat, id: nat, f: Finding, run: nat)
    requires id !in findings && id < n
    ensures LastBelow(findings[id := f], n, run) ==
      if f.run == run then Max(LastBelow(findings, n, run), id) else LastBelow(findings, n, run)
  {
    var more := findings[id := f];
    if f.run == run {
      LastIs(findings, n, run);
      LastIs(more, n, run);
      assert id in more && more[id].run == run;
      var before, after := LastBelow(findings, n, run), LastBelow(more, n, run);
      if before in findings && findings[before].run == run && before < n {
        assert before in more && more[before].run == run;
      }
      assert after != id ==> after in findings && findings[after].run == run;
    } else {
      LastSame(findings, more, n, run);
    }
  }

  lemma EmptyRecount(findings: Findings, n: nat, run: nat)
    requires forall id <- findings :: findings[id].run != run
    ensures Recount(findings, n, run) == Summary(0, 0, 0, 0, 0, 0, 0, 0, 0)
  {
    LastIs(findings, n, run);
    assert forall p :: Where(findings, run, p) == {};
  }

  // ------------------------------------------------------------- every statement

  // What adding a finding to its run's summary makes of the other runs' is
  // nothing, and of its own a recount.
  lemma AddedAgrees(base: Findings, summaries: map<nat, Summary>, n: nat, id: nat, f: Finding, run: nat)
    requires id !in base && 0 < id < n
    requires f.run !in summaries ==> forall i <- base :: base[i].run != f.run
    requires run in Added(summaries, id, f)
    requires run in summaries ==>
      summaries[run].(maxId := 0) == Recount(base, n, run).(maxId := 0)
      && (summaries[run].maxId == LastBelow(base, n, run)
          || (run == f.run && summaries[run].maxId == Max(LastBelow(base, n, run), id)))
    ensures Added(summaries, id, f)[run] == Recount(base[id := f], n, run)
  {
    hide Where, IsUnknown, IsPostable, LastBelow;
    RecountGrows(base, n, id, f, run);
    if f.run !in summaries && run == f.run {
      EmptyRecount(base, n, run);
    }
  }

  lemma Counted(findings: Findings, n: nat, run: nat)
    ensures var s := Recount(findings, n, run);
      && s.total >= 0 && s.pending >= 0 && s.approved >= 0 && s.dismissed >= 0 && s.edited >= 0 && s.posted >= 0
      && s.unknown >= 0 && s.postable >= 0
  {
  }

  // The clamps at zero never take effect: what is taken away was counted.
  lemma ClampsIdle(base: Findings, n: nat, id: nat, f: Finding)
    requires id !in base && id < n
    ensures var s := Recount(base[id := f], n, f.run);
      && s.total >= 1 && s.pending >= Bit(f.status == "pending") && s.approved >= Bit(f.status == "approved")
      && s.dismissed >= Bit(f.status == "dismissed") && s.edited >= Bit(f.status == "edited")
      && s.posted >= Bit(f.status == "posted") && s.unknown >= Bit(IsUnknown(f)) && s.postable >= Bit(IsPostable(f))
  {
    hide Recount, IsUnknown, IsPostable;
    RecountGrows(base, n, id, f, f.run);
    Counted(base, n, f.run);
  }

  // Taking a finding away leaves the counts of the findings without it.
  lemma RemovedAgrees(
    base: Findings, summaries: map<nat, Summary>, n: nat, id: nat, f: Finding, maxChanges: bool, run: nat)
    requires id !in base && 0 < id < n && f.run in summaries && run in summaries
    requires summaries[run] == Recount(base[id := f], n, run)
    ensures var removed := Removed(summaries, f, maxChanges, LastBelow(base, n, f.run))[run];
      && removed.(maxId := 0) == Recount(base, n, run).(maxId := 0)
      && (run == f.run && !maxChanges ==> removed.maxId == Max(LastBelow(base, n, run), id))
      && (run != f.run || maxChanges ==> removed.maxId == LastBelow(base, n, run))
  {
    hide Where, IsUnknown, IsPostable, LastBelow;
    RecountGrows(base, n, id, f, run);
    Counted(base, n, run);
    ClampsIdle(base, n, id, f);
  }

  lemma InsertAgrees(t: Tables, f: Finding)
    requires Agrees(t)
    ensures Agrees(Insert(t, f))
  {
    hide Recount, Added;
    var id, n, t' := t.nextId, t.nextId + 1, Insert(t, f);
    assert forall run :: run in t'.summaries <==> run in t.summaries || run == f.run by { AddedKeys(t.summaries, id, f); }
    forall run <- t'.summaries ensures t'.summaries[run] == Recount(t'.findings, n, run) {
      OneMore(t.findings, t.nextId, run);
      AddedAgrees(t.findings, t.summaries, n, id, f, run);
    }
  }

  lemma AddedKeys(summaries: map<nat, Summary>, id: nat, f: Finding)
    ensures Added(summaries, id, f).Keys == summaries.Keys + {f.run}
  {
  }

  lemma OneMore(findings: Findings, n: nat, run: nat)
    requires n !in findings
    ensures Recount(findings, n + 1, run) == Recount(findings, n, run)
    ensures Recount(findings, n, run).maxId == LastBelow(findings, n, run)
    ensures LastBelow(findings, n + 1, run) == LastBelow(findings, n, run)
  {
    hide Where;
  }

  lemma RemovedKeys(summaries: map<nat, Summary>, f: Finding, maxChanges: bool, last: nat)
    ensures Removed(summaries, f, maxChanges, last).Keys == summaries.Keys
  {
  }

  lemma RecountMax(findings: Findings, n: nat, run: nat)
    ensures Recount(findings, n, run).maxId == LastBelow(findings, n, run)
  {
    hide Where;
  }

  lemma DeleteAgrees(t: Tables, id: nat)
    requires Agrees(t)
    ensures Agrees(Delete(t, id))
  {
    hide Recount, Removed, LastBelow;
    if id in t.findings {
      var f, base, n, t' := t.findings[id], t.findings - {id}, t.nextId, Delete(t, id);
      assert t.findings == base[id := f];
      var maxChanges := MaxIs(t, f.run, id);
      RemovedKeys(t.summaries, f, maxChanges, LastBelow(base, n, f.run));
      forall run <- t'.summaries ensures t'.summaries[run] == Recount(base, n, run) {
        RemovedAgrees(base, t.summaries, n, id, f, maxChanges, run);
        RecountMax(base, n, run);
        RecountMax(t.findings, n, run);
        LastGrows(base, n, id, f, run);
      }
    }
  }

  lemma UpdateAgrees(t: Tables, id: nat, f: Finding)
    requires Agrees(t)
    ensures Agrees(Update(t, id, f))
  {
    hide Recount, Removed, Added, LastBelow;
    if id in t.findings {
      var before, base, after := t.findings[id], t.findings - {id}, t.findings[id := f];
      var n, t' := t.nextId, Update(t, id, f);
      assert t.findings == base[id := before] && after == base[id := f];
      var maxChanges := before.run != f.run && MaxIs(t, before.run, id);
      var last := LastBelow(base, n, before.run);
      if maxChanges {
        LastGrows(base, n, id, f, before.run);
      }
      var removed := Removed(t.summaries, before, maxChanges, LastBelow(after, n, before.run));
      assert removed == Removed(t.summaries, before, maxChanges, last) by {
        LastUnused(t.summaries, before, maxChanges, LastBelow(after, n, before.run), last);
      }
      RemovedKeys(t.summaries, before, maxChanges, last);
      AddedKeys(removed, id, f);
      forall run <- t'.summaries ensures t'.summaries[run] == Recount(after, n, run) {
        if run in removed {
          RemovedAgrees(base, t.summaries, n, id, before, maxChanges, run);
          RecountMax(t.findings, n, run);
          LastGrows(base, n, id, before, run);
        }
        AddedAgrees(base, removed, n, id, f, run);
      }
    }
  }

  lemma LastUnused(summaries: map<nat, Summary>, f: Finding, maxChanges: bool, last: nat, last': nat)
    requires maxChanges ==> last == last'
    ensures Removed(summaries, f, maxChanges, last) == Removed(summaries, f, maxChanges, last')
  {
  }

  lemma BackfillAgrees(t: Tables)
    requires Agrees(t)
    ensures Backfill(t) == t
  {
    hide Recount;
    assert RunsOf(t.findings) <= t.summaries.Keys;
    assert Backfill(t).summaries == t.summaries;
  }

  // Before the triggers existed there were findings and no summaries.
  lemma FirstBackfillAgrees(t: Tables)
    requires t.summaries == map[] && t.nextId > 0 && forall id <- t.findings :: 0 < id < t.nextId
    ensures Agrees(Backfill(t))
  {
    hide Recount;
  }

  // ------------------------------------------------------------------- histories

  datatype Statement = InsertRow(f: Finding) | DeleteRow(id: nat) | UpdateRow(id: nat, f: Finding) | BackfillRows

  function Do(t: Tables, s: Statement): Tables {
    match s
    case InsertRow(f) => Insert(t, f)
    case DeleteRow(id) => Delete(t, id)
    case UpdateRow(id, f) => Update(t, id, f)
    case BackfillRows => Backfill(t)
  }

  function DoAll(t: Tables, statements: seq<Statement>): Tables {
    if statements == [] then t
    else Do(DoAll(t, statements[..|statements| - 1]), statements[|statements| - 1])
  }

  lemma {:induction false} StatementsAgree(t: Tables, statements: seq<Statement>)
    requires Agrees(t)
    ensures Agrees(DoAll(t, statements))
  {
    hide Agrees, Insert, Delete, Update, Backfill;
    if statements != [] {
      var n := |statements| - 1;
      StatementsAgree(t, statements[..n]);
      var before := DoAll(t, statements[..n]);
      match statements[n]
      case InsertRow(f) => InsertAgrees(before, f);
      case DeleteRow(id) => DeleteAgrees(before, id);
      case UpdateRow(id, f) => UpdateAgrees(before, id, f);
      case BackfillRows => BackfillAgrees(before);
    }
  }

  // After any inserts, deletes, updates and moves between runs, the summary of a
  // run is what counting its rows gives, and a run without one has no rows.
  lemma SummaryIsRecount(statements: seq<Statement>, run: nat)
    ensures var t := DoAll(Tables(map[], map[], 1), statements);
      if run in t.summaries then t.summaries[run] == Recount(t.findings, t.nextId, run)
      else Where(t.findings, run, Any) == {}
  {
    hide Recount, DoAll;
    var start := Tables(map[], map[], 1);
    StatementsAgree(start, statements);
  }

  // The counts by status add up to the total, which the paged list insists on,
  // and no more findings can be posted than there are.
  lemma StatusesAddUp(findings: Findings, n: nat, run: nat)
    ensures var s := Recount(findings, n, run);
      && s.pending + s.approved + s.dismissed + s.edited + s.posted + s.unknown == s.total
      && s.postable <= s.approved + s.edited
  {
    Partition(findings, run);
    Disjoint(findings, run, Has("approved"), Has("edited"));
    Subset(Where(findings, run, IsPostable), Where(findings, run, Has("approved")) + Where(findings, run, Has("edited")));
  }

  lemma Disjoint(findings: Findings, run: nat, p: Finding -> bool, q: Finding -> bool)
    requires forall f :: !(p(f) && q(f))
    ensures |Where(findings, run, p) + Where(findings, run, q)| == |Where(findings, run, p)| + |Where(findings, run, q)|
  {
    assert Where(findings, run, p) !! Where(findings, run, q);
  }

  function Either(p: Finding -> bool, q: Finding -> bool): Finding -> bool {
    (f: Finding) => p(f) || q(f)
  }

  lemma CountEither(findings: Findings, run: nat, p: Finding -> bool, q: Finding -> bool)
    requires forall f :: !(p(f) && q(f))
    ensures |Where(findings, run, Either(p, q))| == |Where(findings, run, p)| + |Where(findings, run, q)|
  {
    Disjoint(findings, run, p, q);
    assert Where(findings, run, Either(p, q)) == Where(findings, run, p) + Where(findings, run, q);
  }

  lemma Partition(findings: Findings, run: nat)
    ensures var s := Recount(findings, 0, run);
      s.pending + s.approved + s.dismissed + s.edited + s.posted + s.unknown == s.total
  {
    var p1 := Either(Has("pending"), Has("approved"));
    var p2 := Either(p1, Has("dismissed"));
    var p3 := Either(p2, Has("edited"));
    var p4 := Either(p3, Has("posted"));
    var p5 := Either(p4, IsUnknown);
    forall f ensures p5(f) == Any(f) {
      assert IsUnknown(f) <==> !p4(f);
    }
    assert Where(findings, run, p5) == Where(findings, run, Any);
    hide Where;
    CountEither(findings, run, Has("pending"), Has("approved"));
    CountEither(findings, run, p1, Has("dismissed"));
    CountEither(findings, run, p2, Has("edited"));
    CountEither(findings, run, p3, Has("posted"));
    CountEither(findings, run, p4, IsUnknown);
  }

  lemma Subset(a: set<nat>, b: set<nat>)
    requires a <= b
    ensures |a| <= |b|
  {
    assert b == a + (b - a);
  }
}
