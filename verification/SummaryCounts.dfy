// The summary of a run in terms of the rows alone.
module SummaryCounts {
  import opened Text
  import opened FindingSummary

  // How many findings there are of each status, how many can be posted, and which
  // came last.
  predicate CountsRows(findings: Findings, run: nat, s: Summary) {
    && s.total == |set id <- findings | findings[id].run == run|
    && s.pending == |set id <- findings | findings[id].run == run && findings[id].status == "pending"|
    && s.approved == |set id <- findings | findings[id].run == run && findings[id].status == "approved"|
    && s.dismissed == |set id <- findings | findings[id].run == run && findings[id].status == "dismissed"|
    && s.edited == |set id <- findings | findings[id].run == run && findings[id].status == "edited"|
    && s.posted == |set id <- findings | findings[id].run == run && findings[id].status == "posted"|
    && s.unknown == |set id <- findings | findings[id].run == run && findings[id].status != "pending"
                       && findings[id].status != "approved" && findings[id].status != "dismissed"
                       && findings[id].status != "edited" && findings[id].status != "posted"|
    && s.postable == |set id <- findings | findings[id].run == run && findings[id].eligible
                        && (findings[id].status == "approved" || findings[id].status == "edited")|
    && (forall id <- findings | findings[id].run == run :: id <= s.maxId)
    && (if exists id <- findings :: findings[id].run == run
        then s.maxId in findings && findings[s.maxId].run == run else s.maxId == 0)
  }

  lemma PlainCounts(findings: Findings, run: nat)
    ensures Where(findings, run, Any) == set id <- findings | findings[id].run == run
    ensures Where(findings, run, Has("pending")) == set id <- findings | findings[id].run == run && findings[id].status == "pending"
    ensures Where(findings, run, Has("approved")) == set id <- findings | findings[id].run == run && findings[id].status == "approved"
    ensures Where(findings, run, Has("dismissed")) == set id <- findings | findings[id].run == run && findings[id].status == "dismissed"
    ensures Where(findings, run, Has("edited")) == set id <- findings | findings[id].run == run && findings[id].status == "edited"
    ensures Where(findings, run, Has("posted")) == set id <- findings | findings[id].run == run && findings[id].status == "posted"
  {
  }

  lemma OtherCounts(findings: Findings, run: nat)
    ensures Where(findings, run, IsUnknown) ==
      set id <- findings | findings[id].run == run && findings[id].status != "pending"
        && findings[id].status != "approved" && findings[id].status != "dismissed"
        && findings[id].status != "edited" && findings[id].status != "posted"
    ensures Where(findings, run, IsPostable) ==
      set id <- findings | findings[id].run == run && findings[id].eligible
        && (findings[id].status == "approved" || findings[id].status == "edited")
  {
  }

  lemma RecountExactly(findings: Findings, n: nat, run: nat)
    requires forall id <- findings :: 0 < id < n
    ensures CountsRows(findings, run, Recount(findings, n, run))
  {
    PlainCounts(findings, run);
    OtherCounts(findings, run);
    LastIs(findings, n, run);
    hide Where, LastBelow;
  }

  // After any statements the summary of a run counts its rows, and a run without a
  // summary has none.
  lemma SummaryExactly(statements: seq<Statement>, run: nat)
    ensures var t := DoAll(Tables(map[], map[], 1), statements);
      if run in t.summaries then CountsRows(t.findings, run, t.summaries[run])
      else forall id <- t.findings :: t.findings[id].run != run
  {
    hide Recount, DoAll, CountsRows;
    var t := DoAll(Tables(map[], map[], 1), statements);
    StatementsAgree(Tables(map[], map[], 1), statements);
    if run in t.summaries {
      RecountExactly(t.findings, t.nextId, run);
    }
  }

  // What the statements make of the rows themselves; a backfill leaves the summaries
  // that are there alone.
  lemma RowsExactly(t: Tables, s: Statement)
    ensures var after := Do(t, s);
      match s
      case InsertRow(f) => after.findings == t.findings[t.nextId := f] && after.nextId == t.nextId + 1
      case DeleteRow(id) => after.findings == t.findings - {id} && after.nextId == t.nextId
      case UpdateRow(id, f) =>
        after.findings == (if id in t.findings then t.findings[id := f] else t.findings) && after.nextId == t.nextId
      case BackfillRows =>
        && after.findings == t.findings && after.nextId == t.nextId
        && (forall run <- t.summaries :: run in after.summaries && after.summaries[run] == t.summaries[run])
        && (forall run <- after.summaries :: run in t.summaries || exists id <- t.findings :: t.findings[id].run == run)
  {
    hide Added, Removed, Recount;
  }
}
