// Over the first review and any number of retries every chunk is done at most
// once and contributes its findings at most once.
module ChunkHistory {
  import opened Text
  import opened ChunkRetry

  // ------------------------------------------------------------- the invariant

  predicate DoneAt(attempts: seq<Attempt>, a: nat, c: nat, index: nat) {
    && a < |attempts| && attempts[a].phase == Review && c < |attempts[a].chunks|
    && attempts[a].chunks[c].index == index && attempts[a].chunks[c].status == Done
  }

  // Some review attempt has done this chunk.
  ghost predicate Resolved(attempts: seq<Attempt>, index: nat) {
    exists a: nat, c: nat :: DoneAt(attempts, a, c, index)
  }

  predicate LeftAt(chunks: seq<Outcome>, c: nat, index: nat) {
    c < |chunks| && chunks[c].index == index && chunks[c].status != Done
  }

  ghost predicate Left(chunks: seq<Outcome>, index: nat) {
    exists c: nat :: LeftAt(chunks, c, index)
  }

  predicate OneEach(chunks: seq<Outcome>) {
    forall c, d | 0 <= c < d < |chunks| :: chunks[c].index != chunks[d].index
  }

  ghost predicate DoneOnce(attempts: seq<Attempt>) {
    forall a: nat, c: nat, b: nat, d: nat, index: nat | DoneAt(attempts, a, c, index) && DoneAt(attempts, b, d, index) :: a == b && c == d
  }

  ghost predicate Source(attempts: seq<Attempt>, s: Stored) {
    exists a: nat, c: nat :: DoneAt(attempts, a, c, s.chunk) && attempts[a].number == s.attempt
  }

  // What the latest review attempt leaves over is exactly what no attempt has
  // done.
  ghost predicate Split(attempts: seq<Attempt>, chunks: seq<Outcome>, indices: set<nat>) {
    forall index: nat ::
      && (index in indices <==> Resolved(attempts, index) || Left(chunks, index))
      && !(Resolved(attempts, index) && Left(chunks, index))
  }

  ghost predicate RowOk(row: VendorRow, indices: set<nat>) {
    && Increasing(row.attempts) && Latest(row.attempts).Some?
    && var latest := Latest(row.attempts).value;
    && OneEach(latest.chunks) && row.status == StatusOf(latest.chunks)
    && Split(row.attempts, latest.chunks, indices) && DoneOnce(row.attempts)
    && (forall s <- row.stored :: Source(row.attempts, s))
  }

  // ---------------------------------------------------------- what is run again

  // The chunks not done, as prompts.
  function OpenOf(chunks: seq<Outcome>): seq<Prompt> {
    if chunks == [] then []
    else
      var before, c := OpenOf(chunks[..|chunks| - 1]), chunks[|chunks| - 1];
      if c.status == Done then before else before + [Prompt(c.index, c.basis)]
  }

  lemma {:induction false} CurrentHasIndex(prompts: seq<Prompt>, index: nat)
    requires Current(prompts, index).Some?
    ensures Current(prompts, index).value.index == index
  {
    if prompts[|prompts| - 1].index != index {
      CurrentHasIndex(prompts[..|prompts| - 1], index);
    }
  }

  // A retry runs again exactly the chunks not done, under the same basis.
  lemma {:induction false} UnresolvedAreOpen(chunks: seq<Outcome>, prompts: seq<Prompt>)
    requires Unresolved(chunks, prompts).Ok?
    ensures Unresolved(chunks, prompts).value == OpenOf(chunks)
  {
    if chunks != [] {
      UnresolvedAreOpen(chunks[..|chunks| - 1], prompts);
      CurrentHasIndex(prompts, chunks[|chunks| - 1].index);
    }
  }

  predicate OnePrompt(prompts: seq<Prompt>) {
    forall i, j | 0 <= i < j < |prompts| :: prompts[i].index != prompts[j].index
  }

  lemma {:induction false} OpenAre(chunks: seq<Outcome>)
    ensures forall index: nat :: HasIndex(OpenOf(chunks), index) <==> Left(chunks, index)
    ensures OneEach(chunks) ==> OnePrompt(OpenOf(chunks))
  {
    if chunks == [] {
      assert forall index: nat :: !Left(chunks, index);
    } else {
      var n := |chunks| - 1;
      var init, before, c := chunks[..n], OpenOf(chunks[..n]), chunks[n];
      OpenAre(init);
      forall index: nat ensures HasIndex(OpenOf(chunks), index) <==> Left(chunks, index) {
        LeftStep(chunks, index);
        IndexStep(before, Prompt(c.index, c.basis), index);
      }
      if OneEach(chunks) {
        assert OneEach(init);
        assert !Left(init, c.index);
        assert !HasIndex(before, c.index);
      }
    }
  }

  lemma LeftStep(chunks: seq<Outcome>, index: nat)
    requires chunks != []
    ensures var n := |chunks| - 1;
      Left(chunks, index) <==> Left(chunks[..n], index) || (chunks[n].index == index && chunks[n].status != Done)
  {
    var n := |chunks| - 1;
    if Left(chunks[..n], index) {
      var c: nat :| LeftAt(chunks[..n], c, index);
      assert LeftAt(chunks, c, index);
    }
    if chunks[n].index == index && chunks[n].status != Done {
      assert LeftAt(chunks, n, index);
    }
    if Left(chunks, index) {
      var c: nat :| LeftAt(chunks, c, index);
      assert c < n ==> LeftAt(chunks[..n], c, index);
    }
  }

  lemma IndexStep(prompts: seq<Prompt>, p: Prompt, index: nat)
    ensures HasIndex(prompts + [p], index) <==> HasIndex(prompts, index) || p.index == index
  {
    var more := prompts + [p];
    assert more[|prompts|] == p;
    if HasIndex(prompts, index) {
      var i :| 0 <= i < |prompts| && prompts[i].index == index;
      assert more[i].index == index;
    }
  }

  lemma {:induction false} LatestIsLast(attempts: seq<Attempt>, last: Attempt)
    requires Increasing(attempts + [last]) && last.phase == Review
    ensures Latest(attempts + [last]) == Some(last)
  {
    assert (attempts + [last])[..|attempts|] == attempts;
    LatestIsOne(attempts);
    var all := attempts + [last];
    assert all[|attempts|] == last;
    if Latest(attempts).Some? {
      var i :| 0 <= i < |attempts| && attempts[i] == Latest(attempts).value;
      assert all[i].number < all[|attempts|].number;
    }
  }

  lemma {:induction false} LatestIsOne(attempts: seq<Attempt>)
    ensures Latest(attempts).Some? ==> Latest(attempts).value in attempts && Latest(attempts).value.phase == Review
  {
    if attempts != [] {
      LatestIsOne(attempts[..|attempts| - 1]);
      assert attempts == attempts[..|attempts| - 1] + [attempts[|attempts| - 1]];
    }
  }

  // ----------------------------------------------------------------- one attempt

  lemma OutcomesAre(prompts: seq<Prompt>, ask: nat -> Answer, i: nat)
    requires i < |prompts|
    ensures Outcomes(prompts, ask)[i].index == prompts[i].index
    ensures Outcomes(prompts, ask)[i].status == Done <==> ask(prompts[i].index).Answered?
  {
    assert Outcomes(prompts, ask)[i] == OutcomeOf(prompts[i], ask(prompts[i].index));
  }

  // Findings come from chunks that were done in this attempt.
  lemma {:induction false} FindingsHaveSource(prompts: seq<Prompt>, ask: nat -> Answer, number: nat)
    ensures forall s <- FindingsOf(prompts, ask, number) ::
      s.attempt == number && HasIndex(prompts, s.chunk) && ask(s.chunk).Answered?
  {
    if prompts != [] {
      var n := |prompts| - 1;
      var p := prompts[n];
      FindingsHaveSource(prompts[..n], ask, number);
      forall s <- FindingsOf(prompts, ask, number)
        ensures s.attempt == number && HasIndex(prompts, s.chunk) && ask(s.chunk).Answered?
      {
        IndexStep(prompts[..n], p, s.chunk);
        assert prompts == prompts[..n] + [p];
        if s !in FindingsOf(prompts[..n], ask, number) {
          assert s in FromChunk(p.index, number, ask(p.index));
        }
      }
    }
  }

  lemma DoneOrLeft(prompts: seq<Prompt>, ask: nat -> Answer, index: nat)
    requires OnePrompt(prompts)
    ensures var chunks := Outcomes(prompts, ask);
      && (HasIndex(prompts, index) <==> Left(chunks, index) || (exists c: nat :: DoneIn(chunks, c, index)))
      && !(Left(chunks, index) && exists c: nat :: DoneIn(chunks, c, index))
  {
    var chunks := Outcomes(prompts, ask);
    forall i | 0 <= i < |prompts| ensures chunks[i].index == prompts[i].index {
      OutcomesAre(prompts, ask, i);
    }
    if HasIndex(prompts, index) {
      var i: nat :| i < |prompts| && prompts[i].index == index;
      assert DoneIn(chunks, i, index) || LeftAt(chunks, i, index);
    }
  }

  predicate DoneIn(chunks: seq<Outcome>, c: nat, index: nat) {
    c < |chunks| && chunks[c].index == index && chunks[c].status == Done
  }

  lemma OutcomesOneEach(prompts: seq<Prompt>, ask: nat -> Answer)
    requires OnePrompt(prompts)
    ensures OneEach(Outcomes(prompts, ask))
  {
    var chunks := Outcomes(prompts, ask);
    forall c, d | 0 <= c < d < |chunks| ensures chunks[c].index != chunks[d].index {
      OutcomesAre(prompts, ask, c);
      OutcomesAre(prompts, ask, d);
    }
  }

  lemma ResolvedStep(attempts: seq<Attempt>, last: Attempt, index: nat)
    ensures Resolved(attempts + [last], index) <==>
      Resolved(attempts, index) || (last.phase == Review && exists c: nat :: DoneIn(last.chunks, c, index))
  {
    var all := attempts + [last];
    assert all[|attempts|] == last;
    if Resolved(attempts, index) {
      var a: nat, c: nat :| DoneAt(attempts, a, c, index);
      assert DoneAt(all, a, c, index);
    }
    if last.phase == Review && exists c: nat :: DoneIn(last.chunks, c, index) {
      var c: nat :| DoneIn(last.chunks, c, index);
      assert DoneAt(all, |attempts|, c, index);
    }
    if Resolved(all, index) {
      var a: nat, c: nat :| DoneAt(all, a, c, index);
      if a < |attempts| {
        assert DoneAt(attempts, a, c, index);
      } else {
        assert DoneIn(last.chunks, c, index);
      }
    }
  }

  lemma DoneOnceStep(attempts: seq<Attempt>, last: Attempt)
    requires DoneOnce(attempts) && OneEach(last.chunks)
    requires last.phase == Review ==> forall c: nat, index: nat | DoneIn(last.chunks, c, index) :: !Resolved(attempts, index)
    ensures DoneOnce(attempts + [last])
  {
    var all := attempts + [last];
    assert all[|attempts|] == last;
    forall a: nat, c: nat, b: nat, d: nat, index: nat | DoneAt(all, a, c, index) && DoneAt(all, b, d, index) ensures a == b && c == d {
      if a < |attempts| {
        assert DoneAt(attempts, a, c, index);
      } else {
        assert DoneIn(last.chunks, c, index);
      }
      if b < |attempts| {
        assert DoneAt(attempts, b, d, index);
      } else {
        assert DoneIn(last.chunks, d, index);
      }
    }
  }

  lemma SourceStays(attempts: seq<Attempt>, last: Attempt, s: Stored)
    requires Source(attempts, s)
    ensures Source(attempts + [last], s)
  {
    var a: nat, c: nat :| DoneAt(attempts, a, c, s.chunk) && attempts[a].number == s.attempt;
    assert DoneAt(attempts + [last], a, c, s.chunk);
  }

  lemma NewSource(attempts: seq<Attempt>, last: Attempt, s: Stored, c: nat)
    requires last.phase == Review && DoneIn(last.chunks, c, s.chunk) && last.number == s.attempt
    ensures Source(attempts + [last], s)
  {
    assert (attempts + [last])[|attempts|] == last;
    assert DoneAt(attempts + [last], |attempts|, c, s.chunk);
  }

  lemma NewSources(attempts: seq<Attempt>, prompts: seq<Prompt>, ask: nat -> Answer, number: nat)
    ensures forall s <- FindingsOf(prompts, ask, number) ::
      Source(attempts + [Attempt(number, Review, Outcomes(prompts, ask))], s)
  {
    FindingsHaveSource(prompts, ask, number);
    forall s <- FindingsOf(prompts, ask, number)
      ensures Source(attempts + [Attempt(number, Review, Outcomes(prompts, ask))], s)
    {
      var i: nat :| i < |prompts| && prompts[i].index == s.chunk;
      OutcomesAre(prompts, ask, i);
      NewSource(attempts, Attempt(number, Review, Outcomes(prompts, ask)), s, i);
    }
  }

  // ------------------------------------------------------------------- every step

  function IndicesOf(prompts: seq<Prompt>): set<nat> {
    set i | 0 <= i < |prompts| :: prompts[i].index
  }

  lemma SplitFirst(prompts: seq<Prompt>, ask: nat -> Answer)
    requires OnePrompt(prompts)
    ensures var chunks := Outcomes(prompts, ask);
      Split([Attempt(1, Review, chunks)], chunks, IndicesOf(prompts))
  {
    hide Outcomes;
    var chunks := Outcomes(prompts, ask);
    var first := Attempt(1, Review, chunks);
    forall index: nat
      ensures index in IndicesOf(prompts) <==> Resolved([first], index) || Left(chunks, index)
      ensures !(Resolved([first], index) && Left(chunks, index))
    {
      DoneOrLeft(prompts, ask, index);
      ResolvedStep([], first, index);
      assert [] + [first] == [first];
      assert !Resolved([], index);
    }
  }

  lemma FirstRowOk(prompts: seq<Prompt>, ask: nat -> Answer, verify: seq<Outcome>)
    requires OnePrompt(prompts)
    ensures RowOk(FirstRow(prompts, ask, verify), IndicesOf(prompts))
  {
    hide Outcomes, FindingsOf, IndicesOf, Split;
    var chunks, row := Outcomes(prompts, ask), FirstRow(prompts, ask, verify);
    var first, second := Attempt(1, Review, chunks), Attempt(2, Verify, verify);
    ConcatNone([first]);
    OutcomesOneEach(prompts, ask);
    SplitFirst(prompts, ask);
    assert Latest([first]) == Some(first) by { LatestIsLast([], first); }
    assert DoneOnce([first]) by { DoneOnceStep([], first); }
    NewSources([], prompts, ask, 1);
    if verify != [] {
      assert ([first] + [second])[..1] == [first];
      assert Latest([first] + [second]) == Some(first);
      VerifyResolvesNothing([first], second);
      assert Split([first] + [second], chunks, IndicesOf(prompts)) by {
        SplitVerify([first], second, chunks, IndicesOf(prompts));
      }
      forall s <- row.stored ensures Source(row.attempts, s) {
        SourceStays([first], second, s);
      }
    }
  }

  lemma VerifyResolvesNothing(attempts: seq<Attempt>, last: Attempt)
    requires last.phase == Verify && DoneOnce(attempts)
    ensures DoneOnce(attempts + [last])
  {
    var all := attempts + [last];
    assert all[|attempts|] == last;
    forall a: nat, c: nat, b: nat, d: nat, index: nat | DoneAt(all, a, c, index) && DoneAt(all, b, d, index) ensures a == b && c == d {
      assert DoneAt(attempts, a, c, index) && DoneAt(attempts, b, d, index);
    }
  }

  lemma SplitVerify(attempts: seq<Attempt>, last: Attempt, chunks: seq<Outcome>, indices: set<nat>)
    requires Split(attempts, chunks, indices) && last.phase == Verify
    ensures Split(attempts + [last], chunks, indices)
  {
    hide Resolved, Left;
    forall index: nat ensures Resolved(attempts + [last], index) <==> Resolved(attempts, index) {
      ResolvedStep(attempts, last, index);
    }
  }

  lemma SplitRetry(attempts: seq<Attempt>, chunks: seq<Outcome>, last: Attempt, ask: nat -> Answer, indices: set<nat>)
    requires Split(attempts, chunks, indices) && OneEach(chunks)
    requires last.phase == Review && last.chunks == Outcomes(OpenOf(chunks), ask)
    ensures Split(attempts + [last], last.chunks, indices)
    ensures forall c: nat, index: nat | DoneIn(last.chunks, c, index) :: !Resolved(attempts, index)
  {
    hide Resolved, Left, Outcomes, OpenOf;
    OpenAre(chunks);
    forall index: nat
      ensures index in indices <==> Resolved(attempts + [last], index) || Left(last.chunks, index)
      ensures !(Resolved(attempts + [last], index) && Left(last.chunks, index))
      ensures (exists c: nat :: DoneIn(last.chunks, c, index)) ==> !Resolved(attempts, index)
    {
      ResolvedStep(attempts, last, index);
      DoneOrLeft(OpenOf(chunks), ask, index);
    }
  }

  lemma RowAfterOk(row: VendorRow, prompts: seq<Prompt>, ask: nat -> Answer, number: nat, indices: set<nat>)
    requires RowOk(row, indices) && RowAfter(row, prompts, ask, number).Ok?
    ensures RowOk(RowAfter(row, prompts, ask, number).value, indices)
  {
    hide Outcomes, FindingsOf, Split, DoneOnce, OneEach, StatusOf, Latest, Increasing, Unresolved, OpenOf;
    var again := RetryPrompts(row.attempts, prompts);
    if row.status != AllDone && again.Ok? && again.value != [] {
      var latest := Latest(row.attempts).value;
      UnresolvedAreOpen(latest.chunks, prompts);
      var last := Attempt(number, Review, Outcomes(again.value, ask));
      SplitRetry(row.attempts, latest.chunks, last, ask, indices);
      OpenAre(latest.chunks);
      OutcomesOneEach(again.value, ask);
      DoneOnceStep(row.attempts, last);
      LatestIsLast(row.attempts, last);
      NewSources(row.attempts, again.value, ask, number);
      var row' := RowAfter(row, prompts, ask, number).value;
      forall s <- row'.stored ensures Source(row'.attempts, s) {
        if s in row.stored {
          SourceStays(row.attempts, last, s);
        }
      }
    }
  }

  // ------------------------------------------------------------------- histories

  // One retry as it happened.
  datatype Try = Try(enabled: set<string>, prompts: seq<Prompt>, ask: Asked, number: nat)

  // The number is above those used by the failed vendors.
  predicate IsNext(vendors: Vendors, number: nat) {
    && number >= 1
    && forall v <- FailedVendors(vendors) ::
         forall i | 0 <= i < |vendors[v].attempts| :: vendors[v].attempts[i].number < number
  }

  function AfterTry(vendors: Vendors, t: Try): Vendors {
    var r := RetryRun(vendors, t.enabled, t.prompts, t.ask, t.number);
    if r.Ok? then r.value else vendors
  }

  function AfterTries(vendors: Vendors, tries: seq<Try>): Vendors {
    if tries == [] then vendors else AfterTry(AfterTries(vendors, tries[..|tries| - 1]), tries[|tries| - 1])
  }

  ghost predicate RunOk(vendors: Vendors, indices: set<nat>) {
    forall v <- vendors :: RowOk(vendors[v], indices)
  }

  lemma AfterTryOk(vendors: Vendors, t: Try, indices: set<nat>)
    requires RunOk(vendors, indices)
    ensures RunOk(AfterTry(vendors, t), indices)
  {
    hide RowOk, RowAfter, AnyFails, FailedVendors;
    forall v <- vendors ensures RowOk(AfterTry(vendors, t)[v], indices) {
      if RowAfter(vendors[v], t.prompts, AskFor(t.ask, v), t.number).Ok? {
        RowAfterOk(vendors[v], t.prompts, AskFor(t.ask, v), t.number, indices);
      }
    }
  }

  // After the first review and any retries, successful or not, all rows are as
  // they should be.
  lemma {:induction false} HistoryOk(
    names: set<string>, prompts: seq<Prompt>, ask: Asked, verify: string -> seq<Outcome>, tries: seq<Try>)
    requires OnePrompt(prompts)
    ensures RunOk(AfterTries(FirstRun(names, prompts, ask, verify), tries), IndicesOf(prompts))
  {
    hide RowOk, FirstRow, IndicesOf, AfterTry;
    if tries == [] {
      forall v <- names ensures RowOk(FirstRow(prompts, AskFor(ask, v), verify(v)), IndicesOf(prompts)) {
        FirstRowOk(prompts, AskFor(ask, v), verify(v));
      }
    } else {
      var n := |tries| - 1;
      HistoryOk(names, prompts, ask, verify, tries[..n]);
      AfterTryOk(AfterTries(FirstRun(names, prompts, ask, verify), tries[..n]), tries[n], IndicesOf(prompts));
    }
  }

  // Whatever happened: a chunk was done at most once, its stored findings come
  // from the one attempt that did it, and a vendor's status says done exactly
  // when all chunks are.
  lemma ChunksDoneOnce(
    names: set<string>, prompts: seq<Prompt>, ask: Asked, verify: string -> seq<Outcome>, tries: seq<Try>, v: string)
    requires OnePrompt(prompts) && v in AfterTries(FirstRun(names, prompts, ask, verify), tries)
    ensures var row := AfterTries(FirstRun(names, prompts, ask, verify), tries)[v];
      && DoneOnce(row.attempts)
      && (row.status == AllDone <==> forall index <- IndicesOf(prompts) :: Resolved(row.attempts, index))
      && (forall s, t | s in row.stored && t in row.stored && s.chunk == t.chunk :: s.attempt == t.attempt)
      && (forall s <- row.stored :: s.chunk in IndicesOf(prompts) && Resolved(row.attempts, s.chunk))
  {
    HistoryOk(names, prompts, ask, verify, tries);
    hide AfterTries, FirstRun, IndicesOf;
    var row := AfterTries(FirstRun(names, prompts, ask, verify), tries)[v];
    RowMeans(row, IndicesOf(prompts));
  }

  lemma RowMeans(row: VendorRow, indices: set<nat>)
    requires RowOk(row, indices)
    ensures row.status == AllDone <==> forall index <- indices :: Resolved(row.attempts, index)
    ensures forall s, t | s in row.stored && t in row.stored && s.chunk == t.chunk :: s.attempt == t.attempt
    ensures forall s <- row.stored :: s.chunk in indices && Resolved(row.attempts, s.chunk)
  {
    hide Increasing, Latest;
    var chunks := Latest(row.attempts).value.chunks;
    assert row.status == AllDone <==> EveryOne(chunks, Done);
    if !EveryOne(chunks, Done) {
      var c: nat :| c < |chunks| && chunks[c].status != Done;
      assert LeftAt(chunks, c, chunks[c].index);
      assert Left(chunks, chunks[c].index);
    }
    forall s <- row.stored ensures s.chunk in indices && Resolved(row.attempts, s.chunk) {
      assert Source(row.attempts, s);
    }
    forall s, t | s in row.stored && t in row.stored && s.chunk == t.chunk ensures s.attempt == t.attempt {
      assert Source(row.attempts, s) && Source(row.attempts, t);
    }
  }

  // A retry never runs a chunk again that some attempt has done.
  lemma DoneIsNotRunAgain(row: VendorRow, prompts: seq<Prompt>, indices: set<nat>, p: Prompt)
    requires RowOk(row, indices) && RetryPrompts(row.attempts, prompts).Ok?
    requires p in RetryPrompts(row.attempts, prompts).value
    ensures !Resolved(row.attempts, p.index) && p.index in indices
  {
    hide Increasing, Latest, DoneOnce, Source, OpenOf, Unresolved, Left;
    var latest := Latest(row.attempts).value;
    UnresolvedAreOpen(latest.chunks, prompts);
    OpenAre(latest.chunks);
    assert HasIndex(OpenOf(latest.chunks), p.index);
  }

  // The next number keeps the attempts in order, so that storing a retry is never
  // refused for the order of its attempts.
  lemma NeverOutOfOrder(vendors: Vendors, t: Try, indices: set<nat>)
    requires RunOk(vendors, indices) && IsNext(vendors, t.number)
    ensures RetryRun(vendors, t.enabled, t.prompts, t.ask, t.number) != Err(NotIncreasing)
  {
    hide Latest, DoneOnce, Source, Split, OneEach, StatusOf, Outcomes, FindingsOf, RetryPrompts;
    forall v <- vendors ensures RowAfter(vendors[v], t.prompts, AskFor(t.ask, v), t.number) != Err(NotIncreasing) {
      assert RowOk(vendors[v], indices);
      var row, again := vendors[v], RetryPrompts(vendors[v].attempts, t.prompts);
      SelectingNeverOrders(row.attempts, t.prompts);
      if row.status != AllDone && again.Ok? {
        assert v in FailedVendors(vendors);
        IncreasingStep(row.attempts, Attempt(t.number, Review, Outcomes(again.value, AskFor(t.ask, v))));
      }
    }
  }

  lemma SelectingNeverOrders(attempts: seq<Attempt>, prompts: seq<Prompt>)
    ensures RetryPrompts(attempts, prompts) != Err(NotIncreasing)
  {
    if Latest(attempts).Some? {
      UnresolvedErrors(Latest(attempts).value.chunks, prompts);
    }
  }

  lemma {:induction false} UnresolvedErrors(chunks: seq<Outcome>, prompts: seq<Prompt>)
    ensures Unresolved(chunks, prompts) != Err(NotIncreasing)
  {
    if chunks != [] {
      UnresolvedErrors(chunks[..|chunks| - 1], prompts);
    }
  }

  lemma IncreasingStep(attempts: seq<Attempt>, last: Attempt)
    requires Increasing(attempts) && last.number >= 1
    requires forall i | 0 <= i < |attempts| :: attempts[i].number < last.number
    ensures Increasing(attempts + [last])
  {
  }
}
