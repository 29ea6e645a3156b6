// The driver `chunk_records_by_budget`, and what it does to a whole diff: which
// lines each chunk owns, how long a chunk can be, and when the driver fails.
module DiffChunks {
  import opened Text
  import opened DiffFilter

  // ----------------------------------------------------- the blocks of a diff

  predicate IsBlock(group: seq<string>) {
    group != [] && WellCut(group) && BodyLength(group[1..]) == |group| - 1
  }

  lemma {:induction false} GroupsAreBlocks(lines: seq<string>)
    requires WellCut(lines)
    ensures forall g <- Groups(lines) :: IsBlock(g)
    decreases |lines|
  {
    if lines != [] {
      var n := 1 + BodyLength(lines[1..]);
      FirstIsBlock(lines);
      RestIsWellCut(lines, n);
      hide IsBlock, WellCut, BodyLength;
      GroupsAreBlocks(lines[n..]);
    }
  }

  lemma FirstIsBlock(lines: seq<string>)
    requires WellCut(lines) && lines != []
    ensures IsBlock(lines[..1 + BodyLength(lines[1..])])
  {
    hide BodyLength, IsLine, EndsLine;
    var n := 1 + BodyLength(lines[1..]);
    BodyOfPrefix(lines[1..]);
    assert lines[..n][1..] == lines[1..][..n - 1];
  }

  lemma RestIsWellCut(lines: seq<string>, n: nat)
    requires WellCut(lines) && n <= |lines|
    ensures WellCut(lines[n..])
  {
    hide IsLine, EndsLine;
  }

  lemma {:induction false} BodyOfPrefix(lines: seq<string>)
    ensures BodyLength(lines[..BodyLength(lines)]) == BodyLength(lines)
  {
    if lines != [] && !IsFileHeader(lines[0]) {
      BodyOfPrefix(lines[1..]);
      var n := BodyLength(lines);
      assert lines[..n][1..] == lines[1..][..n - 1];
    }
  }

  lemma BlockAlone(target: string -> string, group: seq<string>)
    requires IsBlock(group)
    ensures Lines(Join(group)) == group
    ensures Keys(target, Join(group)) == GroupKeys(target, group)
  {
    hide GroupKeys;
    CutOfJoin(group);
    assert group[..|group|] == group;
    assert group[|group|..] == [];
    assert Groups(group) == [group];
    assert [group][1..] == [];
    ConcatNone(GroupKeys(target, group));
    assert KeysOfGroups(target, [group]) == GroupKeys(target, group) + KeysOfGroups(target, []);
  }

  // ---------------------------------------------------------------- the driver

  lemma PiecesStep(target: string -> string, hash8: string -> string, groups: seq<seq<string>>, i: nat, budget: nat)
    requires i < |groups|
    ensures PiecesOf(target, hash8, groups[i..], budget)
         == GroupPieces(target, hash8, groups[i], budget) + PiecesOf(target, hash8, groups[i + 1..], budget)
  {
    hide GroupPieces;
    DropStep(groups, i);
  }

  lemma RecordsConcat(a: seq<Piece>, b: seq<Piece>)
    ensures RecordsOf(a + b) == RecordsOf(a) + RecordsOf(b)
  {
    hide RecordOf;
  }

  method CollectPieces(target: string -> string, hash8: string -> string, diff: string, budget: nat)
    returns (pieces: seq<Record>)
    ensures pieces == RecordsOf(PiecesOf(target, hash8, Groups(Lines(diff)), budget))
  {
    hide Lines, Groups, GroupKeys, OversizedPieces, PiecesOf, IsBlock, RecordsOf, Keys, Elements;
    var blocks := SplitFileBlocks(target, diff);
    ghost var groups := Groups(Lines(diff));
    LinesAreWellCut(diff);
    GroupsAreBlocks(Lines(diff));
    pieces := [];
    ghost var done: seq<Piece> := [];
    NothingYet(target, hash8, groups, budget);
    for i := 0 to |blocks|
      invariant PiecesOf(target, hash8, groups, budget) == done + PiecesOf(target, hash8, groups[i..], budget)
      invariant pieces == RecordsOf(done)
    {
      var path, text := blocks[i].path, blocks[i].text;
      ghost var more := GroupPieces(target, hash8, groups[i], budget);
      BlockAlone(target, groups[i]);
      PiecesStep(target, hash8, groups, i, budget);
      Assoc(done, more, PiecesOf(target, hash8, groups[i + 1..], budget));
      RecordsConcat(done, more);
      if |text| > budget {
        var split := SplitOversizedBlock(hash8, path, text, budget);
        pieces := pieces + split;
      } else {
        var owned := ChangedLines(target, text);
        OneRecord(Piece(text, GroupKeys(target, groups[i])));
        pieces := pieces + [Record(text, owned)];
      }
      done := done + more;
    }
    NothingLeft(target, hash8, groups, done, budget);
  }

  lemma NothingYet(target: string -> string, hash8: string -> string, groups: seq<seq<string>>, budget: nat)
    ensures PiecesOf(target, hash8, groups, budget) == [] + PiecesOf(target, hash8, groups[0..], budget)
    ensures RecordsOf([]) == []
  {
    assert groups[0..] == groups;
  }

  lemma NothingLeft(target: string -> string, hash8: string -> string, groups: seq<seq<string>>, done: seq<Piece>, budget: nat)
    ensures done + PiecesOf(target, hash8, groups[|groups|..], budget) == done
  {
  }

  lemma PackStep(budget: nat, done: seq<Piece>, current: Piece, pieces: seq<Piece>, i: nat)
    requires i < |pieces|
    ensures
      var full := current.text != "" && |current.text| + |pieces[i].text| > budget;
      var next := Append(if full then NOTHING else current, pieces[i]);
      var flushed := |next.text| >= budget && next.text != "";
      done + Pack(budget, current, pieces[i..])
      == ((if full then done + [current] else done) + if flushed then [next] else [])
         + Pack(budget, if flushed then NOTHING else next, pieces[i + 1..])
  {
    DropStep(pieces, i);
    var full := current.text != "" && |current.text| + |pieces[i].text| > budget;
    var next := Append(if full then NOTHING else current, pieces[i]);
    var flushed := |next.text| >= budget && next.text != "";
    var a, b := if full then [current] else [], if flushed then [next] else [];
    var rest := Pack(budget, if flushed then NOTHING else next, pieces[i + 1..]);
    hide Pack, Append;
    Assoc(done, a, b + rest);
    Assoc(a, b, rest);
    Assoc(done + a, b, rest);
    ConcatNone(done);
  }

  lemma RecordsPush(done: seq<Piece>, piece: Piece)
    ensures RecordsOf(done + [piece]) == RecordsOf(done) + [RecordOf(piece)]
    ensures RecordsOf(done + []) == RecordsOf(done)
  {
    hide RecordOf;
    ConcatNone(done);
  }

  // The packing loop; `pieces` are the records of `ghosts`.
  method PackRecords(budget: nat, pieces: seq<Record>, ghost ghosts: seq<Piece>) returns (packed: seq<Record>)
    requires budget > 0 && pieces == RecordsOf(ghosts)
    ensures packed == RecordsOf(Pack(budget, NOTHING, ghosts))
  {
    hide Pack, Elements;
    packed := [];
    var currentText: string := "";
    var currentOwned: set<Key> := {};
    ghost var current := NOTHING;
    ghost var done: seq<Piece> := [];
    PackStart(budget, ghosts);
    for i := 0 to |pieces|
      invariant packed == RecordsOf(done)
      invariant currentText == current.text && currentOwned == Elements(current.keys)
      invariant Pack(budget, NOTHING, ghosts) == done + Pack(budget, current, ghosts[i..])
    {
      PackStep(budget, done, current, ghosts, i);
      RecordsPush(done, current);
      if currentText != "" && |currentText| + |pieces[i].text| > budget {
        packed := packed + [Record(currentText, currentOwned)];
        done := done + [current];
        currentText, currentOwned := "", {};
        current := NOTHING;
        NoElements();
      }
      currentText := currentText + pieces[i].text;
      currentOwned := currentOwned + pieces[i].owned;
      ElementsConcat(current.keys, ghosts[i].keys);
      current := Append(current, ghosts[i]);
      RecordsPush(done, current);
      ConcatNone(done);
      if |currentText| >= budget {
        packed := packed + [Record(currentText, currentOwned)];
        done := done + [current];
        currentText, currentOwned := "", {};
        current := NOTHING;
        NoElements();
      }
    }
    PackEnd(budget, current, ghosts);
    RecordsPush(done, current);
    if currentText != "" {
      packed := packed + [Record(currentText, currentOwned)];
    }
  }

  lemma NoElements()
    ensures Elements(NOTHING.keys) == {}
  {
  }

  lemma PackStart(budget: nat, pieces: seq<Piece>)
    ensures Pack(budget, NOTHING, pieces) == [] + Pack(budget, NOTHING, pieces[0..])
    ensures Elements(NOTHING.keys) == {} && RecordsOf([]) == []
  {
    assert pieces[0..] == pieces;
  }

  lemma PackEnd(budget: nat, current: Piece, pieces: seq<Piece>)
    ensures Pack(budget, current, pieces[|pieces|..]) == if current.text == "" then [] else [current]
  {
  }

  method ChunkRecordsByBudget(target: string -> string, hash8: string -> string, diff: string, budget: int)
    returns (r: Result<seq<DiffChunk>, ChunkError>)
    ensures r == ChunkRecords(target, hash8, diff, budget)
  {
    hide Pack, PiecesOf, Groups, Lines, Keys, Elements;
    if budget <= 0 {
      return Err(BudgetNotPositive);
    }
    if diff == "" {
      return Ok([]);
    }
    var pieces := CollectPieces(target, hash8, diff, budget);
    var packed := PackRecords(budget, pieces, PiecesOf(target, hash8, Groups(Lines(diff)), budget));
    hide ChunkPieces, RecordsOf, DisjointOwners, OwnedIn;
    NothingOwned(packed);
    var records: seq<DiffChunk> := [];
    var seen: set<Key> := {};
    for i := 0 to |packed|
      invariant |records| == i && forall j | 0 <= j < i :: records[j] == DiffChunk(j, packed[j].text, packed[j].owned)
      invariant seen == OwnedIn(packed[..i])
      invariant DisjointOwners(packed[..i])
    {
      OwnersStep(packed, i);
      if exists key :: key in packed[i].owned && key in seen {
        return Err(MultipleOwners);
      }
      seen := seen + packed[i].owned;
      records := records + [DiffChunk(i, packed[i].text, packed[i].owned)];
    }
    assert packed[..|packed|] == packed;
    var expected := ChangedLines(target, diff);
    if seen != expected {
      return Err(LostLines);
    }
    assert records == Numbered(packed);
    return Ok(records);
  }

  lemma NothingOwned(packed: seq<Record>)
    ensures OwnedIn(packed[..0]) == {} && DisjointOwners(packed[..0])
  {
  }

  // One chunk more: it shares a line with the earlier ones, or adds its own.
  lemma OwnersStep(packed: seq<Record>, i: nat)
    requires i < |packed| && DisjointOwners(packed[..i])
    ensures OwnedIn(packed[..i + 1]) == OwnedIn(packed[..i]) + packed[i].owned
    ensures packed[i].owned !! OwnedIn(packed[..i]) ==> DisjointOwners(packed[..i + 1])
    ensures !(packed[i].owned !! OwnedIn(packed[..i])) ==> !DisjointOwners(packed)
  {
    assert packed[..i + 1][..i] == packed[..i];
    OwnedHas(packed[..i]);
    hide OwnedIn;
    assert forall j | 0 <= j < i :: packed[..i][j] == packed[j] && packed[..i + 1][j] == packed[j];
    if key :| key in packed[i].owned && key in OwnedIn(packed[..i]) {
      var j :| 0 <= j < i && key in packed[..i][j].owned;
      assert !(packed[j].owned !! packed[i].owned);
    }
  }

  lemma {:induction false} OwnedHas(chunks: seq<Record>)
    ensures forall key :: key in OwnedIn(chunks) <==> exists i :: 0 <= i < |chunks| && key in chunks[i].owned
  {
    if chunks != [] {
      OwnedHas(chunks[..|chunks| - 1]);
    }
  }
}
