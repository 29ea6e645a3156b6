// What a vendor's run reports, and what a retry selects or refuses.
module ChunkSelection {
  import opened Text
  import opened ChunkRetry

  // ------------------------------------------------------------- one vendor's run

  predicate Answers(ask: nat -> Answer, p: Prompt) {
    ask(p.index).Answered?
  }

  predicate TooLate(ask: nat -> Answer, p: Prompt) {
    ask(p.index) == NoAnswer(false)
  }

  // Each chunk is done, timed out or failed as its prompt was answered, too late or
  // not; the vendor's status adds these up.
  predicate ReportsAnswers(prompts: seq<Prompt>, ask: nat -> Answer, status: VendorStatus, chunks: seq<Outcome>) {
    && |chunks| == |prompts|
    && (forall i | 0 <= i < |prompts| ::
          chunks[i] == Outcome(prompts[i].index, prompts[i].basis,
                               if Answers(ask, prompts[i]) then Done
                               else if TooLate(ask, prompts[i]) then TimedOut else Failed))
    && (status == AllDone <==> forall p <- prompts :: Answers(ask, p))
    && (status == Partial <==> (exists p <- prompts :: Answers(ask, p)) && exists p <- prompts :: !Answers(ask, p))
    && (status == NoneInTime <==> prompts != [] && forall p <- prompts :: TooLate(ask, p))
    && (status == NoneDone <==>
          (forall p <- prompts :: !Answers(ask, p)) && exists p <- prompts :: !Answers(ask, p) && !TooLate(ask, p))
  }

  lemma RunExactly(prompts: seq<Prompt>, ask: nat -> Answer)
    ensures ReportsAnswers(prompts, ask, StatusOf(Outcomes(prompts, ask)), Outcomes(prompts, ask))
  {
    var chunks := Outcomes(prompts, ask);
    forall i | 0 <= i < |prompts|
      ensures chunks[i] == Outcome(prompts[i].index, prompts[i].basis,
                                   if Answers(ask, prompts[i]) then Done
                                   else if TooLate(ask, prompts[i]) then TimedOut else Failed)
    {
      OutcomeIs(prompts[i], ask);
    }
    hide Outcomes, Answers, TooLate;
    StatusIs(prompts, ask, chunks);
  }

  lemma OutcomeIs(p: Prompt, ask: nat -> Answer)
    ensures OutcomeOf(p, ask(p.index)) ==
      Outcome(p.index, p.basis, if Answers(ask, p) then Done else if TooLate(ask, p) then TimedOut else Failed)
  {
  }

  lemma NeverBoth(ask: nat -> Answer, p: Prompt)
    ensures !(Answers(ask, p) && TooLate(ask, p))
  {
  }

  lemma StatusIs(prompts: seq<Prompt>, ask: nat -> Answer, chunks: seq<Outcome>)
    requires |chunks| == |prompts|
    requires forall i | 0 <= i < |prompts| ::
      chunks[i].status == if Answers(ask, prompts[i]) then Done else if TooLate(ask, prompts[i]) then TimedOut else Failed
    ensures var status := StatusOf(chunks);
      && (status == AllDone <==> forall p <- prompts :: Answers(ask, p))
      && (status == Partial <==> (exists p <- prompts :: Answers(ask, p)) && exists p <- prompts :: !Answers(ask, p))
      && (status == NoneInTime <==> prompts != [] && forall p <- prompts :: TooLate(ask, p))
      && (status == NoneDone <==>
            (forall p <- prompts :: !Answers(ask, p)) && exists p <- prompts :: !Answers(ask, p) && !TooLate(ask, p))
  {
    hide Answers, TooLate;
    forall i | 0 <= i < |prompts| ensures !(Answers(ask, prompts[i]) && TooLate(ask, prompts[i])) {
      NeverBoth(ask, prompts[i]);
    }
    assert prompts != [] ==> prompts[0] in prompts;
    assert EveryOne(chunks, Done) <==> forall p <- prompts :: Answers(ask, p) by {
      AllAre(prompts, ask, chunks);
    }
    assert EveryOne(chunks, TimedOut) <==> forall p <- prompts :: TooLate(ask, p) by {
      AllAre(prompts, ask, chunks);
    }
    assert AnyDone(chunks) <==> exists p <- prompts :: Answers(ask, p) by {
      AllAre(prompts, ask, chunks);
    }
  }

  lemma AllAre(prompts: seq<Prompt>, ask: nat -> Answer, chunks: seq<Outcome>)
    requires |chunks| == |prompts|
    requires forall i | 0 <= i < |prompts| :: !(Answers(ask, prompts[i]) && TooLate(ask, prompts[i]))
    requires forall i | 0 <= i < |prompts| ::
      chunks[i].status == if Answers(ask, prompts[i]) then Done else if TooLate(ask, prompts[i]) then TimedOut else Failed
    ensures EveryOne(chunks, Done) <==> forall p <- prompts :: Answers(ask, p)
    ensures EveryOne(chunks, TimedOut) <==> forall p <- prompts :: TooLate(ask, p)
    ensures AnyDone(chunks) <==> exists p <- prompts :: Answers(ask, p)
  {
    hide Answers, TooLate;
    if forall p <- prompts :: Answers(ask, p) {
      forall i | 0 <= i < |chunks| ensures chunks[i].status == Done {
        assert prompts[i] in prompts;
      }
    }
    if forall p <- prompts :: TooLate(ask, p) {
      forall i | 0 <= i < |chunks| ensures chunks[i].status == TimedOut {
        assert prompts[i] in prompts;
      }
    }
    if i :| 0 <= i < |chunks| && chunks[i].status == Done {
      assert prompts[i] in prompts;
    }
  }

  // ------------------------------------------------------------------- attempts

  // Attempts are added when all numbers are positive and ascend, and there are at
  // most twenty.
  lemma AppendExactly(attempts: seq<Attempt>, added: seq<Attempt>)
    ensures var all := attempts + added;
      var ascending := (forall i | 0 <= i < |all| :: all[i].number > 0)
        && forall i | 0 < i < |all| :: all[i - 1].number < all[i].number;
      Append(attempts, added) == if !ascending then Err(NotIncreasing) else if |all| > 20 then Err(TooMany) else Ok(all)
  {
    var all := attempts + added;
    if forall i | 0 < i < |all| :: all[i - 1].number < all[i].number {
      NumbersAscend(all);
    }
    if Increasing(all) {
      assert forall i | 0 < i < |all| :: all[i - 1].number < all[i].number;
    }
  }

  lemma {:induction false} NumbersAscend(all: seq<Attempt>)
    requires forall i | 0 < i < |all| :: all[i - 1].number < all[i].number
    ensures forall i, j | 0 <= i < j < |all| :: all[i].number < all[j].number
  {
    if all != [] {
      var n := |all| - 1;
      var before := all[..n];
      assert forall i | 0 <= i < n :: before[i] == all[i];
      NumbersAscend(before);
      forall i, j | 0 <= i < j < |all| ensures all[i].number < all[j].number {
        if j == n && i < n - 1 {
          assert before[i].number < before[n - 1].number;
        }
      }
    }
  }

  // ----------------------------------------------------------- what is selected

  // The review attempt with the highest number, and the first of those.
  predicate IsLatestReview(attempts: seq<Attempt>, i: nat) {
    && i < |attempts| && attempts[i].phase == Review
    && (forall k | 0 <= k < |attempts| && attempts[k].phase == Review :: attempts[k].number <= attempts[i].number)
    && (forall k | 0 <= k < i && attempts[k].phase == Review :: attempts[k].number < attempts[i].number)
  }

  lemma LatestStays(before: seq<Attempt>, last: Attempt, i: nat)
    requires IsLatestReview(before, i) && (last.phase == Review ==> last.number <= before[i].number)
    ensures IsLatestReview(before + [last], i)
  {
  }

  lemma LastIsLatest(before: seq<Attempt>, last: Attempt)
    requires last.phase == Review
    requires forall k | 0 <= k < |before| && before[k].phase == Review :: before[k].number < last.number
    ensures IsLatestReview(before + [last], |before|)
  {
  }

  lemma {:induction false} LatestExactly(attempts: seq<Attempt>)
    ensures Latest(attempts).None? <==> forall i | 0 <= i < |attempts| :: attempts[i].phase != Review
    ensures Latest(attempts).Some? ==> exists i: nat :: IsLatestReview(attempts, i) && attempts[i] == Latest(attempts).value
  {
    if attempts != [] {
      var n := |attempts| - 1;
      var before, last := attempts[..n], attempts[n];
      LatestExactly(before);
      assert attempts == before + [last];
      if Latest(before).Some? {
        var i: nat :| IsLatestReview(before, i) && before[i] == Latest(before).value;
        if last.phase == Review && before[i].number < last.number {
          LastIsLatest(before, last);
        } else {
          LatestStays(before, last, i);
        }
      } else if last.phase == Review {
        LastIsLatest(before, last);
      }
    }
  }

  // The prompt now built for the chunk is the one it was reviewed with.
  predicate SamePrompt(prompts: seq<Prompt>, chunk: Outcome) {
    exists i | 0 <= i < |prompts| ::
      prompts[i] == Prompt(chunk.index, chunk.basis) && forall k | i < k < |prompts| :: prompts[k].index != chunk.index
  }

  lemma SamePromptStep(before: seq<Prompt>, last: Prompt, chunk: Outcome)
    ensures SamePrompt(before + [last], chunk) <==>
      if last.index == chunk.index then last.basis == chunk.basis else SamePrompt(before, chunk)
  {
    var all, n := before + [last], |before|;
    if last == Prompt(chunk.index, chunk.basis) {
      assert all[n] == last;
    }
    if SamePrompt(before, chunk) && last.index != chunk.index {
      var i :| 0 <= i < n && before[i] == Prompt(chunk.index, chunk.basis)
        && forall k | i < k < n :: before[k].index != chunk.index;
      assert all[i] == before[i];
    }
    if SamePrompt(all, chunk) {
      var i :| 0 <= i < |all| && all[i] == Prompt(chunk.index, chunk.basis)
        && forall k | i < k < |all| :: all[k].index != chunk.index;
      if i < n {
        assert all[n].index != chunk.index;
        assert before[i] == all[i] && forall k | i < k < n :: before[k] == all[k];
      }
    }
  }

  lemma {:induction false} CurrentExactly(prompts: seq<Prompt>, chunk: Outcome)
    ensures SamePrompt(prompts, chunk) <==> Current(prompts, chunk.index) == Some(Prompt(chunk.index, chunk.basis))
    ensures Current(prompts, chunk.index).Some? ==> Current(prompts, chunk.index).value.index == chunk.index
  {
    if prompts != [] {
      var n := |prompts| - 1;
      CurrentExactly(prompts[..n], chunk);
      SamePromptStep(prompts[..n], prompts[n], chunk);
      hide SamePrompt;
      assert prompts == prompts[..n] + [prompts[n]];
    }
  }

  // In order, the prompts of the chunks that are not done.
  predicate SelectsOpen(chunks: seq<Outcome>, at: seq<nat>, again: seq<Prompt>) {
    && Picks(at, |chunks|)
    && (forall i | 0 <= i < |chunks| :: i in at <==> chunks[i].status != Done)
    && |again| == |at| && forall k | 0 <= k < |at| :: again[k] == Prompt(chunks[at[k]].index, chunks[at[k]].basis)
  }

  ghost predicate Selects(chunks: seq<Outcome>, again: seq<Prompt>) {
    exists at: seq<nat> :: SelectsOpen(chunks, at, again)
  }

  lemma SelectMore(chunks: seq<Outcome>, again: seq<Prompt>, c: Outcome)
    requires Selects(chunks, again)
    ensures Selects(chunks + [c], if c.status == Done then again else again + [Prompt(c.index, c.basis)])
  {
    var at: seq<nat> :| SelectsOpen(chunks, at, again);
    PicksMore(at, |chunks|);
    if c.status == Done {
      assert SelectsOpen(chunks + [c], at, again);
    } else {
      assert SelectsOpen(chunks + [c], at + [|chunks|], again + [Prompt(c.index, c.basis)]);
    }
  }

  lemma NothingSelected()
    ensures Selects([], [])
  {
    assert SelectsOpen([], [], []);
  }

  predicate AllSame(prompts: seq<Prompt>, chunks: seq<Outcome>) {
    forall c <- chunks :: SamePrompt(prompts, c)
  }

  lemma {:induction false} UnresolvedExactly(chunks: seq<Outcome>, prompts: seq<Prompt>)
    ensures Unresolved(chunks, prompts).Ok? <==> AllSame(prompts, chunks)
    ensures Unresolved(chunks, prompts).Err? ==> Unresolved(chunks, prompts) == Err(NewRunRequired)
    ensures Unresolved(chunks, prompts).Ok? ==> Selects(chunks, Unresolved(chunks, prompts).value)
  {
    hide SamePrompt, Current, Selects;
    if chunks == [] {
      NothingSelected();
    } else {
      var n := |chunks| - 1;
      UnresolvedExactly(chunks[..n], prompts);
      CurrentExactly(prompts, chunks[n]);
      assert chunks == chunks[..n] + [chunks[n]];
      if Unresolved(chunks, prompts).Ok? {
        SelectMore(chunks[..n], Unresolved(chunks[..n], prompts).value, chunks[n]);
      }
    }
  }

  // A vendor can be retried when it has a review attempt and the prompts of all its
  // chunks are unchanged; then the chunks that are not done are run again.
  lemma SelectionExactly(attempts: seq<Attempt>, prompts: seq<Prompt>)
    ensures RetryPrompts(attempts, prompts).Ok? <==>
      exists i: nat :: IsLatestReview(attempts, i) && AllSame(prompts, attempts[i].chunks)
    ensures forall i: nat | IsLatestReview(attempts, i) ::
      RetryPrompts(attempts, prompts).Ok? ==> Selects(attempts[i].chunks, RetryPrompts(attempts, prompts).value)
    ensures RetryPrompts(attempts, prompts).Err? ==> RetryPrompts(attempts, prompts) == Err(NewRunRequired)
  {
    hide Unresolved, AllSame, Selects, Latest;
    LatestExactly(attempts);
    if Latest(attempts).Some? {
      UnresolvedExactly(Latest(attempts).value.chunks, prompts);
      var l: nat :| IsLatestReview(attempts, l) && attempts[l] == Latest(attempts).value;
      forall i: nat | IsLatestReview(attempts, i) ensures i == l {
        assert attempts[i].number == attempts[l].number;
      }
    }
  }

  // ------------------------------------------------------------------ a whole retry

  // The vendor is disabled, or what it reviewed has changed.
  predicate Unable(vendors: Vendors, enabled: set<string>, prompts: seq<Prompt>, v: string)
    requires v in vendors
  {
    vendors[v].status != AllDone && (v !in enabled || RetryPrompts(vendors[v].attempts, prompts).Err?)
  }

  predicate RunsAgain(row: VendorRow, prompts: seq<Prompt>) {
    && row.status != AllDone && RetryPrompts(row.attempts, prompts).Ok?
    && RetryPrompts(row.attempts, prompts).value != []
  }

  predicate Refused(row: VendorRow, prompts: seq<Prompt>, number: nat, error: Error) {
    RunsAgain(row, prompts) && Append(row.attempts, [Attempt(number, Review, [])]) == Err(error)
  }

  // A vendor that is run again gets one more attempt and the findings of its chunks
  // that are done; its status is that of the attempt.
  predicate Retried(before: VendorRow, after: VendorRow, prompts: seq<Prompt>, ask: nat -> Answer, number: nat) {
    if RunsAgain(before, prompts) then
      var again := RetryPrompts(before.attempts, prompts).value;
      && after.attempts == before.attempts + [Attempt(number, Review, Outcomes(again, ask))]
      && after.status == StatusOf(Outcomes(again, ask))
      && after.stored == before.stored + FindingsOf(again, ask, number)
    else after == before
  }

  lemma AppendByNumbers(attempts: seq<Attempt>, a: Attempt, b: Attempt)
    requires a.number == b.number
    ensures Append(attempts, [a]).Err? == Append(attempts, [b]).Err?
    ensures Append(attempts, [a]).Err? ==> Append(attempts, [a]).error == Append(attempts, [b]).error
  {
    var one, other := attempts + [a], attempts + [b];
    assert forall i | 0 <= i < |one| :: one[i].number == other[i].number;
  }

  lemma RowExactly(row: VendorRow, prompts: seq<Prompt>, ask: nat -> Answer, number: nat)
    ensures var r := RowAfter(row, prompts, ask, number);
      && (r == Err(NewRunRequired) <==> row.status != AllDone && RetryPrompts(row.attempts, prompts).Err?)
      && (r == Err(NotIncreasing) <==> Refused(row, prompts, number, NotIncreasing))
      && (r == Err(TooMany) <==> Refused(row, prompts, number, TooMany))
      && (r.Ok? ==> Retried(row, r.value, prompts, ask, number))
  {
    hide RetryPrompts, Outcomes, StatusOf, FindingsOf, Append;
    SelectionErr(row.attempts, prompts);
    if RunsAgain(row, prompts) {
      var chunks := Outcomes(RetryPrompts(row.attempts, prompts).value, ask);
      AppendByNumbers(row.attempts, Attempt(number, Review, []), Attempt(number, Review, chunks));
      AppendIs(row.attempts, [Attempt(number, Review, chunks)]);
    }
  }

  lemma SelectionErr(attempts: seq<Attempt>, prompts: seq<Prompt>)
    ensures RetryPrompts(attempts, prompts).Err? ==> RetryPrompts(attempts, prompts) == Err(NewRunRequired)
  {
    hide RetryPrompts;
    SelectionExactly(attempts, prompts);
  }

  lemma AppendIs(attempts: seq<Attempt>, added: seq<Attempt>)
    ensures Append(attempts, added).Ok? ==> Append(attempts, added).value == attempts + added
    ensures Append(attempts, added).Err? ==> Append(attempts, added).error in {NotIncreasing, TooMany}
  {
  }

  lemma RowsFail(vendors: Vendors, prompts: seq<Prompt>, ask: Asked, number: nat, error: Error)
    requires error != NewRunRequired
    ensures AnyFails(vendors, prompts, ask, number, error) <==> exists v <- vendors :: Refused(vendors[v], prompts, number, error)
  {
    hide RowAfter, Retried, Refused, RetryPrompts;
    forall v <- vendors
      ensures RowAfter(vendors[v], prompts, AskFor(ask, v), number) == Err(error) <==> Refused(vendors[v], prompts, number, error)
    {
      RowExactly(vendors[v], prompts, AskFor(ask, v), number);
    }
  }

  lemma SomeUnable(vendors: Vendors, enabled: set<string>, prompts: seq<Prompt>, ask: Asked, number: nat)
    ensures !(FailedVendors(vendors) <= enabled) || AnyFails(vendors, prompts, ask, number, NewRunRequired) <==>
      exists v <- vendors :: Unable(vendors, enabled, prompts, v)
  {
    hide RowAfter, Retried, Refused, RetryPrompts;
    forall v <- vendors
      ensures RowAfter(vendors[v], prompts, AskFor(ask, v), number) == Err(NewRunRequired) <==>
        vendors[v].status != AllDone && RetryPrompts(vendors[v].attempts, prompts).Err?
    {
      RowExactly(vendors[v], prompts, AskFor(ask, v), number);
    }
    assert FailedVendors(vendors) <= enabled <==> forall v <- vendors :: vendors[v].status == AllDone || v in enabled;
  }

  lemma NoRowFails(
      vendors: Vendors, enabled: set<string>, prompts: seq<Prompt>, ask: Asked, number: nat, v: string)
    requires RetryRun(vendors, enabled, prompts, ask, number).Ok? && v in vendors
    ensures RowAfter(vendors[v], prompts, AskFor(ask, v), number).Ok?
  {
    hide RowAfter;
    var row := RowAfter(vendors[v], prompts, AskFor(ask, v), number);
    if row.Err? {
      assert row == Err(row.error);
      assert AnyFails(vendors, prompts, ask, number, row.error);
      match row.error
      case NewRunRequired => assert false;
      case NotIncreasing => assert false;
      case TooMany => assert false;
    }
  }

  lemma RowsRetried(vendors: Vendors, enabled: set<string>, prompts: seq<Prompt>, ask: Asked, number: nat)
    requires RetryRun(vendors, enabled, prompts, ask, number).Ok?
    ensures var after := RetryRun(vendors, enabled, prompts, ask, number).value;
      after.Keys == vendors.Keys
      && forall v <- vendors :: Retried(vendors[v], after[v], prompts, AskFor(ask, v), number)
  {
    hide RowAfter, Retried, Refused, RetryPrompts;
    var after := RetryRun(vendors, enabled, prompts, ask, number).value;
    forall v <- vendors ensures Retried(vendors[v], after[v], prompts, AskFor(ask, v), number) {
      var row := RowAfter(vendors[v], prompts, AskFor(ask, v), number);
      RowExactly(vendors[v], prompts, AskFor(ask, v), number);
      NoRowFails(vendors, enabled, prompts, ask, number, v);
      assert after[v] == row.value;
    }
  }

  // A retry of a run is refused when some vendor cannot be retried, then when an
  // attempt would be out of order or one too many; otherwise every vendor with
  // chunks left is run again, and the others stay as they are.
  lemma RetryExactly(vendors: Vendors, enabled: set<string>, prompts: seq<Prompt>, ask: Asked, number: nat)
    ensures var r := RetryRun(vendors, enabled, prompts, ask, number);
      var unable := exists v <- vendors :: Unable(vendors, enabled, prompts, v);
      var disordered := exists v <- vendors :: Refused(vendors[v], prompts, number, NotIncreasing);
      var full := exists v <- vendors :: Refused(vendors[v], prompts, number, TooMany);
      && (r == Err(NewRunRequired) <==> unable)
      && (r == Err(NotIncreasing) <==> !unable && disordered)
      && (r == Err(TooMany) <==> !unable && !disordered && full)
      && (r.Ok? ==> r.value.Keys == vendors.Keys
                    && forall v <- vendors :: Retried(vendors[v], r.value[v], prompts, AskFor(ask, v), number))
  {
    SomeUnable(vendors, enabled, prompts, ask, number);
    RowsFail(vendors, prompts, ask, number, NotIncreasing);
    RowsFail(vendors, prompts, ask, number, TooMany);
    if RetryRun(vendors, enabled, prompts, ask, number).Ok? {
      RowsRetried(vendors, enabled, prompts, ask, number);
    }
    hide AnyFails, Unable, Refused, Retried, FailedVendors;
  }
}
