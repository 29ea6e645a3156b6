// What is stored of a chunk: the findings of the one answer that resolved it, each
// once and in order, or nothing.
module ChunkAnswers {
  import opened Text
  import opened ChunkRetry
  import opened ChunkHistory

  // The stored findings of one chunk.
  function OfChunk(stored: seq<Stored>, index: nat): seq<Stored> {
    if stored == [] then []
    else
      var before, last := OfChunk(stored[..|stored| - 1], index), stored[|stored| - 1];
      if last.chunk == index then before + [last] else before
  }

  lemma {:induction false} OfChunkConcat(a: seq<Stored>, b: seq<Stored>, index: nat)
    ensures OfChunk(a + b, index) == OfChunk(a, index) + OfChunk(b, index)
  {
    if b == [] {
      ConcatNone(a);
      ConcatNone(OfChunk(a, index));
    } else {
      var n := |b| - 1;
      assert (a + b)[..|a + b| - 1] == a + b[..n] && (a + b)[|a + b| - 1] == b[n];
      OfChunkConcat(a, b[..n], index);
      Assoc(OfChunk(a, index), OfChunk(b[..n], index), [b[n]]);
    }
  }

  lemma {:induction false} OfChunkWhole(stored: seq<Stored>, chunk: nat, index: nat)
    requires forall s <- stored :: s.chunk == chunk
    ensures OfChunk(stored, index) == if chunk == index then stored else []
  {
    if stored != [] {
      var n := |stored| - 1;
      OfChunkWhole(stored[..n], chunk, index);
      assert stored == stored[..n] + [stored[n]];
    }
  }

  lemma {:induction false} OfChunkFound(prompts: seq<Prompt>, ask: nat -> Answer, number: nat, index: nat)
    requires OnePrompt(prompts)
    ensures OfChunk(FindingsOf(prompts, ask, number), index) ==
      if HasIndex(prompts, index) then FromChunk(index, number, ask(index)) else []
  {
    hide FindingsOf, FromChunk, OfChunk, HasIndex;
    if prompts == [] {
      NoneFound(ask, number, index);
    } else {
      var n := |prompts| - 1;
      var p, before := prompts[n], prompts[..n];
      var here := FromChunk(p.index, number, ask(p.index));
      OfChunkFound(before, ask, number, index);
      assert before + [p] == prompts;
      FoundStep(before, p, ask, number);
      OfChunkConcat(FindingsOf(before, ask, number), here, index);
      OneChunk(p.index, number, ask(p.index), index);
      IndexStep(before, p, index);
      LastIsNew(prompts);
      ConcatNone(OfChunk(FindingsOf(before, ask, number), index));
      ConcatNone(here);
    }
  }

  lemma NoneFound(ask: nat -> Answer, number: nat, index: nat)
    ensures !HasIndex([], index) && FindingsOf([], ask, number) == [] && OfChunk([], index) == []
  {
  }

  lemma FoundStep(before: seq<Prompt>, p: Prompt, ask: nat -> Answer, number: nat)
    ensures FindingsOf(before + [p], ask, number) ==
      FindingsOf(before, ask, number) + FromChunk(p.index, number, ask(p.index))
  {
    hide FromChunk;
    assert (before + [p])[..|before|] == before;
  }

  lemma OneChunk(chunk: nat, number: nat, answer: Answer, index: nat)
    ensures OfChunk(FromChunk(chunk, number, answer), index) ==
      if chunk == index then FromChunk(chunk, number, answer) else []
  {
    hide OfChunk;
    OfChunkWhole(FromChunk(chunk, number, answer), chunk, index);
  }

  lemma LastIsNew(prompts: seq<Prompt>)
    requires prompts != [] && OnePrompt(prompts)
    ensures var n := |prompts| - 1; !HasIndex(prompts[..n], prompts[n].index)
  {
  }

  // ------------------------------------------------------------------- one vendor

  // The attempt of this number has done the chunk, and what is stored of the chunk
  // is what it was answered.
  ghost predicate Keeps(row: VendorRow, index: nat, number: nat, answer: Answer) {
    && (exists a: nat, c: nat :: DoneAt(row.attempts, a, c, index) && row.attempts[a].number == number)
    && answer.Answered? && OfChunk(row.stored, index) == FromChunk(index, number, answer)
  }

  lemma KeepsMore(row: VendorRow, after: VendorRow, last: Attempt, index: nat, number: nat, answer: Answer)
    requires Keeps(row, index, number, answer) && after.attempts == row.attempts + [last]
    requires OfChunk(after.stored, index) == OfChunk(row.stored, index)
    ensures Keeps(after, index, number, answer)
  {
    var a: nat, c: nat :| DoneAt(row.attempts, a, c, index) && row.attempts[a].number == number;
    assert DoneAt(after.attempts, a, c, index) && after.attempts[a] == row.attempts[a];
  }

  // A review attempt is added, with what it found.
  lemma AddedRow(attempts: seq<Attempt>, stored: seq<Stored>, again: seq<Prompt>, ask: nat -> Answer, number: nat,
      row: VendorRow, index: nat)
    requires OnePrompt(again)
    requires row.attempts == attempts + [Attempt(number, Review, Outcomes(again, ask))]
    requires row.stored == stored + FindingsOf(again, ask, number)
    ensures if HasIndex(again, index) && ask(index).Answered?
      then Resolved(row.attempts, index)
           && (OfChunk(stored, index) == [] ==> Keeps(row, index, number, ask(index)))
      else (Resolved(row.attempts, index) <==> Resolved(attempts, index))
           && OfChunk(row.stored, index) == OfChunk(stored, index)
  {
    hide FindingsOf, FromChunk;
    var last := Attempt(number, Review, Outcomes(again, ask));
    OfChunkFound(again, ask, number, index);
    OfChunkConcat(stored, FindingsOf(again, ask, number), index);
    ConcatNone(OfChunk(stored, index));
    ConcatNone(FromChunk(index, number, ask(index)));
    ResolvedStep(attempts, last, index);
    if !ask(index).Answered? {
      NoAnswerStores(index, number, ask(index));
    }
    if HasIndex(again, index) && ask(index).Answered? {
      var c: nat :| c < |again| && again[c].index == index;
      OutcomesAre(again, ask, c);
      assert DoneIn(last.chunks, c, index);
      assert row.attempts[|attempts|] == last && DoneAt(row.attempts, |attempts|, c, index);
    } else if exists c: nat :: DoneIn(last.chunks, c, index) {
      var c: nat :| DoneIn(last.chunks, c, index);
      OutcomesAre(again, ask, c);
    }
  }

  lemma NoAnswerStores(index: nat, number: nat, answer: Answer)
    requires !answer.Answered?
    ensures FromChunk(index, number, answer) == []
  {
  }

  // Who was told what: the answers of the first review and of the retries.
  ghost predicate Told(ask: Asked, tries: seq<Try>, v: string, index: nat, number: nat, answer: Answer) {
    || (number == 1 && answer == ask(v, index))
    || exists i :: 0 <= i < |tries| && tries[i].number == number && answer == tries[i].ask(v, index)
  }

  // A chunk that is resolved has what one answer said, and any other has nothing.
  ghost predicate Exact(row: VendorRow, ask: Asked, tries: seq<Try>, v: string, index: nat) {
    if Resolved(row.attempts, index)
    then exists number: nat, answer: Answer :: Told(ask, tries, v, index, number, answer) && Keeps(row, index, number, answer)
    else OfChunk(row.stored, index) == []
  }

  lemma FirstExact(prompts: seq<Prompt>, ask: Asked, v: string, verify: seq<Outcome>, index: nat)
    requires OnePrompt(prompts)
    ensures Exact(FirstRow(prompts, AskFor(ask, v), verify), ask, [], v, index)
  {
    hide FindingsOf, Outcomes, FromChunk, Resolved, Keeps, OfChunk, StatusOf;
    var mine := AskFor(ask, v);
    var row := FirstRow(prompts, mine, verify);
    var first := Attempt(1, Review, Outcomes(prompts, mine));
    var alone := VendorRow(row.status, [first], row.stored);
    assert [] + [first] == [first] && [] + row.stored == row.stored;
    NothingYet(index);
    AddedRow([], [], prompts, mine, 1, alone, index);
    assert Told(ask, [], v, index, 1, mine(index));
    if verify == [] {
      ConcatNone([first]);
      assert row == alone;
    } else {
      var second := Attempt(2, Verify, verify);
      ResolvedStep([first], second, index);
      if Keeps(alone, index, 1, mine(index)) {
        KeepsMore(alone, row, second, index, 1, mine(index));
      }
    }
  }

  lemma NothingYet(index: nat)
    ensures !Resolved([], index) && OfChunk([], index) == []
  {
  }

  lemma ToldMore(ask: Asked, tries: seq<Try>, t: Try, v: string, index: nat, number: nat, answer: Answer)
    requires Told(ask, tries, v, index, number, answer)
    ensures Told(ask, tries + [t], v, index, number, answer)
  {
    if i :| 0 <= i < |tries| && tries[i].number == number && answer == tries[i].ask(v, index) {
      assert (tries + [t])[i] == tries[i];
    }
  }

  lemma ToldLast(ask: Asked, tries: seq<Try>, t: Try, v: string, index: nat)
    ensures Told(ask, tries + [t], v, index, t.number, t.ask(v, index))
  {
    assert (tries + [t])[|tries|] == t;
  }

  // Nothing happens to this vendor.
  lemma SameExact(row: VendorRow, ask: Asked, tries: seq<Try>, t: Try, v: string, index: nat)
    requires Exact(row, ask, tries, v, index)
    ensures Exact(row, ask, tries + [t], v, index)
  {
    hide Resolved, Keeps, Told, OfChunk;
    if Resolved(row.attempts, index) {
      var number: nat, answer: Answer :| Told(ask, tries, v, index, number, answer) && Keeps(row, index, number, answer);
      ToldMore(ask, tries, t, v, index, number, answer);
    }
  }

  // The chunks that are run again are those nobody has done.
  lemma AgainIsOpen(row: VendorRow, prompts: seq<Prompt>, indices: set<nat>, index: nat)
    requires RowOk(row, indices) && RetryPrompts(row.attempts, prompts).Ok?
    ensures OnePrompt(RetryPrompts(row.attempts, prompts).value)
    ensures HasIndex(RetryPrompts(row.attempts, prompts).value, index) ==> !Resolved(row.attempts, index)
  {
    hide Increasing, DoneOnce, Source, OpenOf, Unresolved, Left, StatusOf, Latest;
    var latest := Latest(row.attempts).value;
    UnresolvedAreOpen(latest.chunks, prompts);
    OpenAre(latest.chunks);
  }

  lemma RowExact(row: VendorRow, ask: Asked, tries: seq<Try>, t: Try, v: string, indices: set<nat>, index: nat)
    requires RowOk(row, indices) && Exact(row, ask, tries, v, index)
    requires RowAfter(row, t.prompts, AskFor(t.ask, v), t.number).Ok?
    ensures Exact(RowAfter(row, t.prompts, AskFor(t.ask, v), t.number).value, ask, tries + [t], v, index)
  {
    hide FindingsOf, Outcomes, FromChunk, Resolved, Keeps, OfChunk, StatusOf, RowOk, Told, RetryPrompts, HasIndex;
    var mine := AskFor(t.ask, v);
    var again, after := RetryPrompts(row.attempts, t.prompts), RowAfter(row, t.prompts, mine, t.number).value;
    SameExact(row, ask, tries, t, v, index);
    if row.status != AllDone && again.value != [] {
      AgainIsOpen(row, t.prompts, indices, index);
      AddedRow(row.attempts, row.stored, again.value, mine, t.number, after, index);
      ToldLast(ask, tries, t, v, index);
      if Resolved(row.attempts, index) {
        var number: nat, answer: Answer :| Told(ask, tries + [t], v, index, number, answer) && Keeps(row, index, number, answer);
        KeepsMore(row, after, Attempt(t.number, Review, Outcomes(again.value, mine)), index, number, answer);
      }
    }
  }

  // Whatever happened: of a chunk that is resolved exactly the findings of the
  // answer that resolved it are stored, each once and in order, under the number of
  // its attempt; of any other chunk nothing is.
  lemma {:induction false} StoredIsAnswered(
    names: set<string>, prompts: seq<Prompt>, ask: Asked, verify: string -> seq<Outcome>, tries: seq<Try>, v: string,
    index: nat)
    requires OnePrompt(prompts) && v in names
    ensures v in AfterTries(FirstRun(names, prompts, ask, verify), tries)
    ensures Exact(AfterTries(FirstRun(names, prompts, ask, verify), tries)[v], ask, tries, v, index)
  {
    hide FirstRow, RowAfter, Exact, AnyFails, FailedVendors, OnePrompt;
    if tries == [] {
      FirstExact(prompts, ask, v, verify(v), index);
    } else {
      var n := |tries| - 1;
      var before, t := AfterTries(FirstRun(names, prompts, ask, verify), tries[..n]), tries[n];
      StoredIsAnswered(names, prompts, ask, verify, tries[..n], v, index);
      HistoryOk(names, prompts, ask, verify, tries[..n]);
      assert tries == tries[..n] + [t];
      SameExact(before[v], ask, tries[..n], t, v, index);
      if RowAfter(before[v], t.prompts, AskFor(t.ask, v), t.number).Ok? {
        RowExact(before[v], ask, tries[..n], t, v, IndicesOf(prompts), index);
      }
    }
  }
}
