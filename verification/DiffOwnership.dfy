// Ownership is total and exclusive: which diffs and budgets the chunker accepts,
// and what every accepted diff gets back.
module DiffOwnership {
  import opened Text
  import opened DiffFilter
  import opened DiffChunks

  // ------------------------------------------- ownership, piece by piece

  function KeysOf(pieces: seq<Piece>): seq<Key> {
    if pieces == [] then [] else pieces[0].keys + KeysOf(pieces[1..])
  }

  lemma {:induction false} KeysOfConcat(a: seq<Piece>, b: seq<Piece>)
    ensures KeysOf(a + b) == KeysOf(a) + KeysOf(b)
  {
    if a == [] {
      ConcatNone(b);
      ConcatNone(KeysOf(b));
    } else {
      KeysOfConcat(a[1..], b);
      ConcatTail(a, b);
      Assoc(a[0].keys, KeysOf(a[1..]), KeysOf(b));
    }
  }

  function NewCursor(cursor: Option<Hunk>): Option<nat> {
    if cursor.Some? then Some(cursor.value.newStart) else None
  }

  // The splitter sees the same added lines as the scan of the whole diff.
  lemma {:induction false} UnitsOwnAddedLines(lines: seq<string>, cursor: Option<Hunk>)
    ensures OwnedBy(Units(lines, cursor)) == AddedLines(lines, NewCursor(cursor))
  {
    if lines != [] {
      UnitsOwnAddedLines(lines[1..], NextHunk(lines[0], cursor));
      OwnedConcat(UnitHere(lines[0], cursor), Units(lines[1..], NextHunk(lines[0], cursor)));
      SameCursor(lines[0], cursor);
    }
  }

  lemma SameCursor(line: string, cursor: Option<Hunk>)
    ensures NewCursor(NextHunk(line, cursor)) == NextNew(line, NewCursor(cursor))
    ensures OwnedBy(UnitHere(line, cursor)) == AddedHere(line, NewCursor(cursor))
  {
    hide ParseHunk;
    assert IsAdded(line) ==> line[0] == '+';
    assert IsRemoved(line) ==> line[0] == '-';
    assert IsContext(line) ==> line[0] == ' ';
  }

  lemma {:induction false} OwnedConcat(a: seq<HunkLine>, b: seq<HunkLine>)
    ensures OwnedBy(a + b) == OwnedBy(a) + OwnedBy(b)
  {
    if a == [] {
      ConcatNone(b);
      ConcatNone(OwnedBy(b));
    } else {
      OwnedConcat(a[1..], b);
      ConcatTail(a, b);
      Assoc(if a[0].owned.Some? then [a[0].owned.value] else [], OwnedBy(a[1..]), OwnedBy(b));
    }
  }

  function OwnedByAll(groups: seq<seq<HunkLine>>): seq<nat> {
    if groups == [] then [] else OwnedBy(groups[0]) + OwnedByAll(groups[1..])
  }

  lemma {:induction false} OwnedByAllConcat(a: seq<seq<HunkLine>>, b: seq<seq<HunkLine>>)
    ensures OwnedByAll(a + b) == OwnedByAll(a) + OwnedByAll(b)
  {
    hide OwnedBy;
    if a == [] {
      ConcatNone(b);
      ConcatNone(OwnedByAll(b));
    } else {
      OwnedByAllConcat(a[1..], b);
      ConcatTail(a, b);
      Assoc(OwnedBy(a[0]), OwnedByAll(a[1..]), OwnedByAll(b));
    }
  }

  lemma OwnedByOne(units: seq<HunkLine>)
    ensures OwnedByAll(One(units)) == OwnedBy(units)
  {
    if units != [] {
      ConcatNone(OwnedBy(units));
      assert [units][1..] == [];
    }
  }

  // Splitting into hunks, truncation included, neither drops nor repeats a line.
  lemma {:induction false} SplitKeepsOwners(prefix: string, budget: nat, current: seq<HunkLine>, units: seq<HunkLine>)
    requires forall u <- units :: u.text != ""
    ensures OwnedByAll(Split(prefix, budget, current, units)) == OwnedBy(current) + OwnedBy(units)
    decreases |units|
  {
    hide Render, OwnedBy, OwnedByAll, Fit, Follows;
    OwnedByOne(current);
    if units == [] {
      NoOwners();
      ConcatNone(OwnedBy(current));
    } else {
      var unit, rest := units[0], units[1..];
      var kept := if Breaks(current, unit) then [] else current;
      var a := if Breaks(current, unit) then [current] else [];
      var fitted := Fit(prefix, unit, budget);
      assert units == [unit] + rest;
      OwnedConcat([unit], rest);
      Assoc(OwnedBy(current), OwnedBy([unit]), OwnedBy(rest));
      NoOwners();
      OwnedByOne(kept);
      ConcatNone(OwnedBy([unit]) + OwnedBy(rest));
      if |Render(prefix, kept + [unit])| <= budget {
        SplitKeepsOwners(prefix, budget, kept + [unit], rest);
        OwnedConcat(kept, [unit]);
        Assoc(OwnedBy(kept), OwnedBy([unit]), OwnedBy(rest));
        OwnedByAllConcat(a, Split(prefix, budget, kept + [unit], rest));
      } else {
        SplitKeepsOwners(prefix, budget, [fitted], rest);
        FitKeepsOwner(prefix, unit, budget);
        OwnedByAllConcat(One(kept), Split(prefix, budget, [fitted], rest));
        OwnedByAllConcat(a, One(kept) + Split(prefix, budget, [fitted], rest));
      }
    }
  }

  lemma NoOwners()
    ensures OwnedByAll([]) == [] && OwnedBy([]) == []
  {
  }

  lemma FitKeepsOwner(prefix: string, unit: HunkLine, budget: nat)
    requires unit.text != ""
    ensures OwnedBy([Fit(prefix, unit, budget)]) == OwnedBy([unit])
  {
    hide Render;
    SameOwner(Fit(prefix, unit, budget), unit);
  }

  lemma SameOwner(a: HunkLine, b: HunkLine)
    requires a.owned == b.owned
    ensures OwnedBy([a]) == OwnedBy([b])
  {
    assert [a][1..] == [] && [b][1..] == [];
  }

  lemma {:induction false} RenderedKeys(prefix: string, path: string, groups: seq<seq<HunkLine>>)
    requires forall i | 0 <= i < |groups| :: groups[i] != []
    ensures KeysOf(RenderAll(prefix, path, groups)) == Tag(path, OwnedByAll(groups))
  {
    hide Render, OwnedBy, Tag;
    if groups == [] {
      NoTags(path);
    } else {
      RenderedKeys(prefix, path, groups[1..]);
      assert RenderAll(prefix, path, groups)[1..] == RenderAll(prefix, path, groups[1..]);
      TagConcat(path, OwnedBy(groups[0]), OwnedByAll(groups[1..]));
    }
  }

  lemma NoTags(path: string)
    ensures Tag(path, []) == []
  {
  }

  // The guard that decides whether an oversized block keeps its owners.
  predicate Kept(target: string -> string, hash8: string -> string, group: seq<string>, budget: nat) {
    || |Join(group)| <= budget
    || GroupKeys(target, group) == []
    || |SyntheticPrefix(hash8, PathOf(target, group), budget)| + 28 < budget
  }

  lemma GroupPiecesKeys(target: string -> string, hash8: string -> string, group: seq<string>, budget: nat)
    ensures KeysOf(GroupPieces(target, hash8, group, budget))
         == if Kept(target, hash8, group, budget) then GroupKeys(target, group) else []
  {
    hide Render, SyntheticPrefix, AddedLines, OwnedBy, Split;
    var path := PathOf(target, group);
    if |Join(group)| <= budget {
      OneKeys(Piece(Join(group), GroupKeys(target, group)));
    } else {
      var units := Units(group, None);
      var prefix := SyntheticPrefix(hash8, path, budget);
      UnitTexts(group, None);
      UnitsOwnAddedLines(group, None);
      assert OwnedBy(units) == AddedLines(group, None);
      if Rewritable(prefix, units, budget) {
        SplitKeepsOwners(prefix, budget, [], units);
        NoOwners();
        ConcatNone(OwnedBy(units));
        RenderedKeys(prefix, path, Split(prefix, budget, [], units));
      } else {
        OneKeys(MetadataPiece(prefix, path, budget));
        if units == [] {
          NoOwners();
          NoTags(path);
        }
      }
    }
  }

  lemma OneKeys(piece: Piece)
    ensures KeysOf([piece]) == piece.keys
  {
    assert [piece][1..] == [];
    ConcatNone(piece.keys);
  }

  predicate AllKept(target: string -> string, hash8: string -> string, groups: seq<seq<string>>, budget: nat) {
    forall g <- groups :: Kept(target, hash8, g, budget)
  }

  lemma {:induction false} PiecesKeys(target: string -> string, hash8: string -> string, groups: seq<seq<string>>, budget: nat)
    requires AllKept(target, hash8, groups, budget)
    ensures KeysOf(PiecesOf(target, hash8, groups, budget)) == KeysOfGroups(target, groups)
  {
    hide Kept, GroupPieces, GroupKeys;
    if groups != [] {
      PiecesKeys(target, hash8, groups[1..], budget);
      GroupPiecesKeys(target, hash8, groups[0], budget);
      KeysOfConcat(GroupPieces(target, hash8, groups[0], budget), PiecesOf(target, hash8, groups[1..], budget));
    }
  }

  // ----------------------------------------------------- packing keeps owners

  predicate Solid(piece: Piece) {
    piece.text != ""
  }

  lemma GroupPiecesSolid(target: string -> string, hash8: string -> string, group: seq<string>, budget: nat)
    requires budget > 0 && IsBlock(group)
    ensures forall p <- GroupPieces(target, hash8, group, budget) :: Solid(p)
  {
    hide GroupKeys, Split, SyntheticPrefix, Units, BodyLength;
    LastLine(group);
    UnitTexts(group, None);
    var prefix := SyntheticPrefix(hash8, PathOf(target, group), budget);
    SyntheticNotEmpty(hash8, PathOf(target, group), budget);
  }

  lemma SyntheticNotEmpty(hash8: string -> string, path: string, budget: nat)
    ensures SyntheticPrefix(hash8, path, budget) != ""
  {
  }

  lemma {:induction false} PiecesSolid(target: string -> string, hash8: string -> string, groups: seq<seq<string>>, budget: nat)
    requires budget > 0 && forall g <- groups :: IsBlock(g)
    ensures forall p <- PiecesOf(target, hash8, groups, budget) :: Solid(p)
  {
    hide GroupPieces, IsBlock, Solid;
    if groups != [] {
      GroupPiecesSolid(target, hash8, groups[0], budget);
      PiecesSolid(target, hash8, groups[1..], budget);
    }
  }

  lemma {:induction false} PackKeepsKeys(budget: nat, current: Piece, pieces: seq<Piece>)
    requires current.text == "" ==> current.keys == []
    requires forall p <- pieces :: Solid(p)
    ensures KeysOf(Pack(budget, current, pieces)) == current.keys + KeysOf(pieces)
    decreases |pieces|
  {
    if pieces == [] {
      OneKeys(current);
      ConcatNone(current.keys);
    } else {
      var piece, rest := pieces[0], pieces[1..];
      var full := current.text != "" && |current.text| + |piece.text| > budget;
      var next := Append(if full then NOTHING else current, piece);
      var flushed := |next.text| >= budget && next.text != "";
      var onward := if flushed then NOTHING else next;
      assert Solid(piece) && |next.text| >= |piece.text|;
      PackKeepsKeys(budget, onward, rest);
      PackUnfold(budget, current, pieces);
      hide Pack;
      var a, b := if full then [current] else [], if flushed then [next] else [];
      OneKeys(current);
      OneKeys(next);
      KeysOfConcat(a + b, Pack(budget, onward, rest));
      KeysOfConcat(a, b);
      hide KeysOf;
      KeysRegroup(current.keys, piece.keys, KeysOf(rest));
      NoKeys();
    }
  }

  lemma NoKeys()
    ensures KeysOf([]) == []
  {
  }

  lemma KeysRegroup(a: seq<Key>, b: seq<Key>, c: seq<Key>)
    ensures (a + b) + c == a + (b + c)
    ensures [] + a == a && [] + b == b && [] + c == c && a + [] == a && [] + (b + c) == b + c
    ensures (a + b) + [] == a + b && a + ([] + b) == a + b
  {
  }

  lemma PackUnfold(budget: nat, current: Piece, pieces: seq<Piece>)
    requires pieces != []
    ensures
      var full := current.text != "" && |current.text| + |pieces[0].text| > budget;
      var next := Append(if full then NOTHING else current, pieces[0]);
      var flushed := |next.text| >= budget && next.text != "";
      Pack(budget, current, pieces)
      == (if full then [current] else []) + (if flushed then [next] else [])
         + Pack(budget, if flushed then NOTHING else next, pieces[1..])
  {
  }

  // --------------------------------------------------- when the driver accepts

  lemma NoRepeatsParts<T>(a: seq<T>, b: seq<T>)
    requires NoRepeats(a + b)
    ensures NoRepeats(a) && NoRepeats(b) && Elements(a) !! Elements(b)
  {
    forall i, j | 0 <= i < j < |a| ensures a[i] != a[j] {
      assert (a + b)[i] == a[i] && (a + b)[j] == a[j];
    }
    forall i, j | 0 <= i < j < |b| ensures b[i] != b[j] {
      assert (a + b)[|a| + i] == b[i] && (a + b)[|a| + j] == b[j];
    }
    forall x | x in a ensures x !in b {
      var i :| 0 <= i < |a| && a[i] == x;
      assert (a + b)[i] == x;
      assert forall j | 0 <= j < |b| :: (a + b)[|a| + j] == b[j];
    }
  }

  lemma {:induction false} OwnersOfPieces(pieces: seq<Piece>)
    ensures forall key :: key in KeysOf(pieces) <==> exists i :: 0 <= i < |pieces| && key in pieces[i].keys
  {
    if pieces != [] {
      OwnersOfPieces(pieces[1..]);
      assert forall i | 1 <= i < |pieces| :: pieces[i] == pieces[1..][i - 1];
    }
  }

  lemma OwnedAreKeys(pieces: seq<Piece>)
    ensures OwnedIn(RecordsOf(pieces)) == Elements(KeysOf(pieces))
  {
    OwnersOfPieces(pieces);
    OwnedHas(RecordsOf(pieces));
    hide OwnedIn, KeysOf;
    forall key ensures key in OwnedIn(RecordsOf(pieces)) <==> key in KeysOf(pieces) {
      assert forall i | 0 <= i < |pieces| :: key in RecordsOf(pieces)[i].owned <==> key in pieces[i].keys;
    }
  }

  lemma {:induction false} DistinctKeysDisjoint(pieces: seq<Piece>)
    requires NoRepeats(KeysOf(pieces))
    ensures forall i, j | 0 <= i < j < |pieces| :: Elements(pieces[i].keys) !! Elements(pieces[j].keys)
  {
    if pieces != [] {
      NoRepeatsParts(pieces[0].keys, KeysOf(pieces[1..]));
      DistinctKeysDisjoint(pieces[1..]);
      OwnersOfPieces(pieces[1..]);
      forall i, j | 0 <= i < j < |pieces| ensures Elements(pieces[i].keys) !! Elements(pieces[j].keys) {
        assert pieces[j] == pieces[1..][j - 1];
        if i > 0 {
          assert pieces[i] == pieces[1..][i - 1];
        }
      }
    }
  }

  // Whatever is dropped, pieces never own more than the diff does.
  lemma {:induction false} PiecesOwnNoMore(target: string -> string, hash8: string -> string, groups: seq<seq<string>>, budget: nat)
    requires NoRepeats(KeysOfGroups(target, groups))
    ensures NoRepeats(KeysOf(PiecesOf(target, hash8, groups, budget)))
    ensures forall key :: key in KeysOf(PiecesOf(target, hash8, groups, budget)) <==>
      exists g <- groups :: Kept(target, hash8, g, budget) && key in GroupKeys(target, g)
  {
    hide Kept, GroupPieces, GroupKeys, NoRepeats;
    if groups != [] {
      var first := GroupPieces(target, hash8, groups[0], budget);
      var rest := PiecesOf(target, hash8, groups[1..], budget);
      NoRepeatsParts(GroupKeys(target, groups[0]), KeysOfGroups(target, groups[1..]));
      PiecesOwnNoMore(target, hash8, groups[1..], budget);
      GroupPiecesKeys(target, hash8, groups[0], budget);
      KeysOfConcat(first, rest);
      KeysHaveGroup(target, groups[1..]);
      NoRepeatsNone();
      NoRepeatsJoin(KeysOf(first), KeysOf(rest));
      assert groups == [groups[0]] + groups[1..];
    } else {
      NoRepeatsNone();
    }
  }

  lemma NoRepeatsNone()
    ensures NoRepeats<Key>([])
  {
  }

  lemma NoRepeatsJoin<T>(a: seq<T>, b: seq<T>)
    requires NoRepeats(a) && NoRepeats(b) && Elements(a) !! Elements(b)
    ensures NoRepeats(a + b)
  {
    forall i, j | 0 <= i < j < |a + b| ensures (a + b)[i] != (a + b)[j] {
      if i < |a| <= j {
        assert (a + b)[i] in Elements(a) && (a + b)[j] in Elements(b);
      }
    }
  }

  lemma {:induction false} OneGroupPerKey(target: string -> string, groups: seq<seq<string>>)
    requires NoRepeats(KeysOfGroups(target, groups))
    ensures forall i, j, key | 0 <= i < j < |groups| && key in GroupKeys(target, groups[i]) ::
      key !in GroupKeys(target, groups[j])
  {
    hide GroupKeys, NoRepeats;
    if groups != [] {
      var rest := groups[1..];
      NoRepeatsParts(GroupKeys(target, groups[0]), KeysOfGroups(target, rest));
      OneGroupPerKey(target, rest);
      KeysHaveGroup(target, rest);
      forall i, j, key | 0 <= i < j < |groups| && key in GroupKeys(target, groups[i])
        ensures key !in GroupKeys(target, groups[j])
      {
        assert groups[j] == rest[j - 1];
        if i == 0 {
          assert key in Elements(GroupKeys(target, groups[0]));
        } else {
          assert groups[i] == rest[i - 1];
        }
      }
    }
  }

  lemma {:induction false} KeysHaveGroup(target: string -> string, groups: seq<seq<string>>)
    ensures forall g, key | g in groups && key in GroupKeys(target, g) :: key in KeysOfGroups(target, groups)
  {
    hide GroupKeys;
    if groups != [] {
      KeysHaveGroup(target, groups[1..]);
      assert groups == [groups[0]] + groups[1..];
    }
  }

  lemma PackedKeys(target: string -> string, hash8: string -> string, diff: string, budget: nat)
    requires budget > 0
    ensures KeysOf(ChunkPieces(target, hash8, diff, budget))
         == KeysOf(PiecesOf(target, hash8, Groups(Lines(diff)), budget))
  {
    hide Pack, PiecesOf, KeysOf, Lines, Groups, IsBlock;
    LinesAreWellCut(diff);
    GroupsAreBlocks(Lines(diff));
    PiecesSolid(target, hash8, Groups(Lines(diff)), budget);
    PackKeepsKeys(budget, NOTHING, PiecesOf(target, hash8, Groups(Lines(diff)), budget));
    ConcatNone(KeysOf(PiecesOf(target, hash8, Groups(Lines(diff)), budget)));
  }

  // A diff that names no added line twice is accepted exactly when the guard of
  // the splitter keeps every oversized block that has added lines. The error
  // for a line with two owners never happens.
  lemma AcceptedExactly(target: string -> string, hash8: string -> string, diff: string, budget: nat)
    requires budget > 0 && NoRepeats(Keys(target, diff))
    ensures ChunkRecords(target, hash8, diff, budget) != Err(MultipleOwners)
    ensures ChunkRecords(target, hash8, diff, budget).Ok? <==> AllKept(target, hash8, Groups(Lines(diff)), budget)
  {
    var groups := Groups(Lines(diff));
    var pieces := PiecesOf(target, hash8, groups, budget);
    hide Kept, GroupKeys, Groups, Lines, PiecesOf, KeysOf, Pack;
    if diff == "" {
      NoGroups();
    } else {
      PackedKeys(target, hash8, diff, budget);
      var packed := ChunkPieces(target, hash8, diff, budget);
      hide ChunkPieces;
      PiecesOwnNoMore(target, hash8, groups, budget);
      DistinctKeysDisjoint(packed);
      OwnedAreKeys(packed);
      if AllKept(target, hash8, groups, budget) {
        PiecesKeys(target, hash8, groups, budget);
      } else {
        var i :| 0 <= i < |groups| && !Kept(target, hash8, groups[i], budget);
        var key := SomeKey(target, hash8, groups[i], budget);
        OneGroupPerKey(target, groups);
        KeysHaveGroup(target, groups);
        assert key !in KeysOf(pieces);
        assert key in Elements(Keys(target, diff));
      }
    }
  }

  lemma NoGroups()
    ensures Groups(Lines("")) == []
  {
  }

  lemma SomeKey(target: string -> string, hash8: string -> string, group: seq<string>, budget: nat) returns (key: Key)
    requires !Kept(target, hash8, group, budget)
    ensures key in GroupKeys(target, group)
  {
    key := GroupKeys(target, group)[0];
  }

  // ------------------------------------------- what the guard means in numbers

  // Eight hexadecimal characters.
  ghost predicate IsHash8(hash8: string -> string) {
    forall s :: |hash8(s)| == 8 && forall c <- hash8(s) :: c in "0123456789abcdef"
  }

  // Oversized blocks with added lines survive exactly when the budget is at
  // least 82, or is 32 more than the header that repeats their path.
  lemma KeptInNumbers(target: string -> string, hash8: string -> string, group: seq<string>, budget: nat)
    requires IsHash8(hash8)
    requires |Join(group)| > budget && GroupKeys(target, group) != []
    ensures Kept(target, hash8, group, budget)
       <==> budget >= 82 || |HeaderFor(DisplayName(PathOf(target, group)))| + 32 <= budget
  {
    hide GroupKeys, PathOf, Join;
    var display := DisplayName(PathOf(target, group));
    assert |HeaderFor("oversized-" + hash8(display))| == 53;
  }

  // Every added line has exactly one owner, and nothing else is owned.
  predicate Partitions(chunks: seq<DiffChunk>, lines: set<Key>) {
    && (forall key <- lines :: exists i :: 0 <= i < |chunks| && key in chunks[i].owned)
    && (forall i | 0 <= i < |chunks| :: chunks[i].owned <= lines)
    && (forall i, j | 0 <= i < j < |chunks| :: chunks[i].owned !! chunks[j].owned)
  }

  lemma NumberedPartition(records: seq<Record>, lines: set<Key>)
    requires DisjointOwners(records) && OwnedIn(records) == lines
    ensures Partitions(Numbered(records), lines)
  {
    OwnedHas(records);
    hide OwnedIn;
    var chunks := Numbered(records);
    assert forall i | 0 <= i < |chunks| :: chunks[i].owned == records[i].owned;
    forall key <- lines ensures exists i :: 0 <= i < |chunks| && key in chunks[i].owned {
      var i :| 0 <= i < |records| && key in records[i].owned;
      assert key in chunks[i].owned;
    }
  }

  // Acceptance means that ownership is total and exclusive.
  lemma AcceptedPartitions(target: string -> string, hash8: string -> string, diff: string, budget: int)
    requires ChunkRecords(target, hash8, diff, budget).Ok?
    ensures Partitions(ChunkRecords(target, hash8, diff, budget).value, Elements(Keys(target, diff)))
  {
    hide Keys, Elements, ChunkPieces, RecordsOf, OwnedIn;
    if diff == "" {
      NoKeysInNothing(target);
    } else {
      hide DisjointOwners, Partitions, Numbered;
      NumberedPartition(RecordsOf(ChunkPieces(target, hash8, diff, budget)), Elements(Keys(target, diff)));
    }
  }

  lemma NoKeysInNothing(target: string -> string)
    ensures Elements(Keys(target, "")) == {}
  {
  }

  lemma OwnershipIsTotal(target: string -> string, hash8: string -> string, diff: string, budget: nat)
    requires IsHash8(hash8) && budget >= 82
    requires NoRepeats(Keys(target, diff))
    ensures ChunkRecords(target, hash8, diff, budget).Ok?
    ensures Partitions(ChunkRecords(target, hash8, diff, budget).value, Elements(Keys(target, diff)))
  {
    var groups := Groups(Lines(diff));
    forall g <- groups ensures Kept(target, hash8, g, budget) {
      if |Join(g)| > budget && GroupKeys(target, g) != [] {
        KeptInNumbers(target, hash8, g, budget);
      }
    }
    hide *;
    assert AllKept(target, hash8, groups, budget) by { AllKeptFrom(target, hash8, groups, budget); }
    AcceptedExactly(target, hash8, diff, budget);
    AcceptedPartitions(target, hash8, diff, budget);
  }

  lemma AllKeptFrom(target: string -> string, hash8: string -> string, groups: seq<seq<string>>, budget: nat)
    requires forall g <- groups :: Kept(target, hash8, g, budget)
    ensures AllKept(target, hash8, groups, budget)
  {
    hide Kept;
  }

  // ----------------------------------------- well-formed diffs name a line once

  // Each hunk starts at or after the line the previous one stopped at.
  predicate Ascending(lines: seq<string>, cursor: Option<nat>, floor: nat) {
    lines != [] ==>
      var next := NextNew(lines[0], cursor);
      && ("@@" <= lines[0] && next.Some? ==> floor <= next.value)
      && Ascending(lines[1..], next, if next.Some? then next.value else floor)
  }

  lemma {:induction false} AscendingLines(lines: seq<string>, cursor: Option<nat>, floor: nat)
    requires Ascending(lines, cursor, floor)
    requires cursor.Some? ==> cursor.value == floor
    ensures NoRepeats(AddedLines(lines, cursor))
    ensures forall n <- AddedLines(lines, cursor) :: floor <= n
  {
    hide ParseHunk, IsAdded, IsContext;
    if lines != [] {
      var next := NextNew(lines[0], cursor);
      var here, rest := AddedHere(lines[0], cursor), AddedLines(lines[1..], next);
      AscendingLines(lines[1..], next, if next.Some? then next.value else floor);
      if here == [] {
        ConcatNone(rest);
      } else {
        PrependSmaller(here[0], rest);
        assert here == [here[0]];
      }
    }
  }

  lemma PrependSmaller(n: nat, rest: seq<nat>)
    requires NoRepeats(rest) && forall m <- rest :: n < m
    ensures NoRepeats([n] + rest)
  {
    forall i, j | 0 <= i < j < |rest| + 1 ensures ([n] + rest)[i] != ([n] + rest)[j] {
      assert ([n] + rest)[j] == rest[j - 1] && rest[j - 1] in rest;
      if i > 0 {
        assert ([n] + rest)[i] == rest[i - 1];
      }
    }
  }

  predicate DistinctPaths(target: string -> string, groups: seq<seq<string>>) {
    forall i, j | 0 <= i < j < |groups| && PathOf(target, groups[i]) != "" ::
      PathOf(target, groups[i]) != PathOf(target, groups[j])
  }

  lemma {:induction false} WellFormedNamesOnce(target: string -> string, groups: seq<seq<string>>)
    requires DistinctPaths(target, groups)
    requires forall g <- groups :: Ascending(g, None, 0)
    ensures NoRepeats(KeysOfGroups(target, groups))
    ensures forall key <- KeysOfGroups(target, groups) :: exists g <- groups :: PathOf(target, g) == key.0 != ""
  {
    hide PathOf;
    if groups != [] {
      var path, rest := PathOf(target, groups[0]), groups[1..];
      WellFormedNamesOnce(target, rest);
      AscendingLines(groups[0], None, 0);
      TagOnce(path, AddedLines(groups[0], None));
      assert groups == [groups[0]] + rest;
      assert forall g <- rest :: path != "" ==> PathOf(target, g) != path by {
        forall g <- rest ensures path != "" ==> PathOf(target, g) != path {
          var j :| 0 <= j < |rest| && rest[j] == g;
          assert groups[j + 1] == g;
        }
      }
      hide Tag, AddedLines, Ascending;
      NoRepeatsJoin(GroupKeys(target, groups[0]), KeysOfGroups(target, rest));
    }
  }

  lemma TagOnce(path: string, numbers: seq<nat>)
    requires NoRepeats(numbers)
    ensures NoRepeats(Tag(path, numbers))
    ensures forall key <- Tag(path, numbers) :: key.0 == path != ""
  {
  }

  // For a well-formed diff and a budget of at least 82, neither ownership error
  // of the program can fire.
  lemma WellFormedIsAccepted(target: string -> string, hash8: string -> string, diff: string, budget: nat)
    requires IsHash8(hash8) && budget >= 82
    requires DistinctPaths(target, Groups(Lines(diff)))
    requires forall g <- Groups(Lines(diff)) :: Ascending(g, None, 0)
    ensures ChunkRecords(target, hash8, diff, budget).Ok?
    ensures Partitions(ChunkRecords(target, hash8, diff, budget).value, Elements(Keys(target, diff)))
  {
    hide DistinctPaths, Ascending, Groups, Lines, ChunkRecords, NoRepeats, Elements, KeysOfGroups, Partitions;
    WellFormedNamesOnce(target, Groups(Lines(diff)));
    OwnershipIsTotal(target, hash8, diff, budget);
  }

  // --------------------------------------------------------------- hard budget

  predicate Within(pieces: seq<Piece>, budget: nat) {
    forall p <- pieces :: |p.text| <= budget
  }

  // The one-line hunk header of each line of a block that is printed anew fits.
  predicate HeadersFit(target: string -> string, hash8: string -> string, group: seq<string>, budget: nat) {
    var prefix, units := SyntheticPrefix(hash8, PathOf(target, group), budget), Units(group, None);
    |Join(group)| > budget && Rewritable(prefix, units, budget) ==>
      forall u <- units :: |prefix| + 24 + |Dec(u.oldNo)| + |Dec(u.newNo)| <= budget
  }

  lemma HeaderLength(unit: HunkLine)
    requires unit.oldCount <= 9 && unit.newCount <= 9
    ensures |HunkOf([unit])| == 24 + |Dec(unit.oldNo)| + |Dec(unit.newNo)|
  {
    assert [unit][1..] == [];
    assert OldCount([unit]) == unit.oldCount && NewCount([unit]) == unit.newCount;
  }

  lemma RenderLength(prefix: string, unit: HunkLine)
    ensures |Render(prefix, [unit])| == |prefix| + |HunkOf([unit])| + |unit.text|
  {
    hide HunkOf;
    assert Texts([unit]) == [unit.text];
    assert [unit.text][1..] == [];
    ConcatNone(unit.text);
    assert Join([unit.text]) == unit.text + Join([]);
  }

  // A unit on its own is within the budget exactly when its header is.
  lemma FitWithin(prefix: string, unit: HunkLine, budget: nat)
    requires unit.text != ""
    ensures |Render(prefix, [Fit(prefix, unit, budget)])| <= budget <==> |prefix| + |HunkOf([unit])| <= budget
  {
    var fitted := Fit(prefix, unit, budget);
    RenderLength(prefix, unit);
    RenderLength(prefix, fitted);
    assert HunkOf([fitted]) == HunkOf([unit]) by {
      assert [unit][1..] == [] && [fitted][1..] == [];
    }
    hide HunkOf, Render;
  }

  lemma {:induction false} SplitWithin(prefix: string, budget: nat, current: seq<HunkLine>, units: seq<HunkLine>)
    requires forall u <- units :: u.text != "" && |prefix| + |HunkOf([u])| <= budget
    requires current != [] ==> |Render(prefix, current)| <= budget
    ensures forall g <- Split(prefix, budget, current, units) :: |Render(prefix, g)| <= budget
    decreases |units|
  {
    hide Render, HunkOf, Follows, Fit;
    if units != [] {
      var unit, rest := units[0], units[1..];
      var kept := if Breaks(current, unit) then [] else current;
      if |Render(prefix, kept + [unit])| <= budget {
        SplitWithin(prefix, budget, kept + [unit], rest);
      } else {
        FitWithin(prefix, unit, budget);
        SplitWithin(prefix, budget, [Fit(prefix, unit, budget)], rest);
      }
    }
  }

  lemma {:induction false} UnitCounts(lines: seq<string>, cursor: Option<Hunk>)
    ensures forall u <- Units(lines, cursor) :: u.oldCount <= 1 && u.newCount <= 1
  {
    hide ParseHunk;
    if lines != [] {
      UnitCounts(lines[1..], NextHunk(lines[0], cursor));
    }
  }

  lemma UnitHeadersFit(prefix: string, group: seq<string>, budget: nat)
    requires forall u <- Units(group, None) :: |prefix| + 24 + |Dec(u.oldNo)| + |Dec(u.newNo)| <= budget
    ensures forall u <- Units(group, None) :: u.text != "" && |prefix| + |HunkOf([u])| <= budget
  {
    var units := Units(group, None);
    UnitTexts(group, None);
    UnitCounts(group, None);
    hide Units;
    forall u <- units ensures |prefix| + |HunkOf([u])| <= budget {
      HeaderLength(u);
    }
  }

  lemma GroupWithin(target: string -> string, hash8: string -> string, group: seq<string>, budget: nat)
    requires HeadersFit(target, hash8, group, budget)
    ensures Within(GroupPieces(target, hash8, group, budget), budget)
  {
    hide HunkOf, Render, SyntheticPrefix, Units, Split, GroupKeys, PathOf, Join, Dec;
    var prefix := SyntheticPrefix(hash8, PathOf(target, group), budget);
    var units := Units(group, None);
    if |Join(group)| > budget && Rewritable(prefix, units, budget) {
      UnitHeadersFit(prefix, group, budget);
      SplitWithin(prefix, budget, [], units);
    }
  }

  lemma {:induction false} PackWithin(budget: nat, current: Piece, pieces: seq<Piece>)
    requires |current.text| <= budget && Within(pieces, budget)
    ensures Within(Pack(budget, current, pieces), budget)
    decreases |pieces|
  {
    if pieces != [] {
      var full := current.text != "" && |current.text| + |pieces[0].text| > budget;
      var next := Append(if full then NOTHING else current, pieces[0]);
      assert |pieces[0].text| <= budget;
      PackWithin(budget, if |next.text| >= budget && next.text != "" then NOTHING else next, pieces[1..]);
      PackUnfold(budget, current, pieces);
      hide Pack;
    }
  }

  lemma {:induction false} PiecesWithin(target: string -> string, hash8: string -> string, groups: seq<seq<string>>, budget: nat)
    requires forall g <- groups :: HeadersFit(target, hash8, g, budget)
    ensures Within(PiecesOf(target, hash8, groups, budget), budget)
  {
    hide HeadersFit, GroupPieces;
    if groups != [] {
      GroupWithin(target, hash8, groups[0], budget);
      PiecesWithin(target, hash8, groups[1..], budget);
    }
  }

  // Room in front of each line keeps every chunk within the budget.
  lemma BudgetIsHard(target: string -> string, hash8: string -> string, diff: string, budget: nat)
    requires forall g <- Groups(Lines(diff)) :: HeadersFit(target, hash8, g, budget)
    requires ChunkRecords(target, hash8, diff, budget).Ok?
    ensures forall c <- ChunkRecords(target, hash8, diff, budget).value :: |c.text| <= budget
  {
    hide HeadersFit, PiecesOf, Pack, Groups, Lines, OwnedIn, DisjointOwners, Keys;
    PiecesWithin(target, hash8, Groups(Lines(diff)), budget);
    PackWithin(budget, NOTHING, PiecesOf(target, hash8, Groups(Lines(diff)), budget));
  }

  // ----------------------------------------------------- nothing is reworded

  function TextsOf(pieces: seq<Piece>): seq<string> {
    seq(|pieces|, i requires 0 <= i < |pieces| => pieces[i].text)
  }

  function ChunkTexts(chunks: seq<DiffChunk>): seq<string> {
    seq(|chunks|, i requires 0 <= i < |chunks| => chunks[i].text)
  }

  lemma TextsConcat(a: seq<Piece>, b: seq<Piece>)
    ensures Join(TextsOf(a + b)) == Join(TextsOf(a)) + Join(TextsOf(b))
  {
    hide Join;
    JoinConcat(TextsOf(a), TextsOf(b));
    assert TextsOf(a + b) == TextsOf(a) + TextsOf(b);
  }

  lemma OneText(piece: Piece)
    ensures Join(TextsOf([piece])) == piece.text
    ensures Join(TextsOf([])) == ""
  {
    assert TextsOf([piece]) == [piece.text];
    assert [piece.text][1..] == [];
    ConcatNone(piece.text);
    assert Join([piece.text]) == piece.text + Join([]);
  }

  lemma {:induction false} PackKeepsText(budget: nat, current: Piece, pieces: seq<Piece>)
    ensures Join(TextsOf(Pack(budget, current, pieces))) == current.text + Join(TextsOf(pieces))
    decreases |pieces|
  {
    OneText(current);
    if pieces == [] {
      ConcatNone(current.text);
    } else {
      var piece, rest := pieces[0], pieces[1..];
      var full := current.text != "" && |current.text| + |piece.text| > budget;
      var next := Append(if full then NOTHING else current, piece);
      var flushed := |next.text| >= budget && next.text != "";
      var onward := if flushed then NOTHING else next;
      PackKeepsText(budget, onward, rest);
      PackUnfold(budget, current, pieces);
      hide Pack, Join, TextsOf;
      var a, b := if full then [current] else [], if flushed then [next] else [];
      OneText(next);
      OneText(piece);
      TextsConcat(a + b, Pack(budget, onward, rest));
      TextsConcat(a, b);
      TextsConcat([piece], rest);
      assert pieces == [piece] + rest;
      TextRegroup(current.text, piece.text, Join(TextsOf(rest)));
    }
  }

  lemma TextRegroup(a: string, b: string, c: string)
    ensures (a + b) + c == a + (b + c)
    ensures [] + a == a && [] + b == b && [] + c == c && a + [] == a && [] + (b + c) == b + c
    ensures (a + b) + [] == a + b && a + ([] + b) == a + b
  {
  }

  function JoinAll(groups: seq<seq<string>>): string {
    if groups == [] then "" else Join(groups[0]) + JoinAll(groups[1..])
  }

  lemma {:induction false} GroupsJoin(lines: seq<string>)
    ensures JoinAll(Groups(lines)) == Join(lines)
    decreases |lines|
  {
    if lines != [] {
      GroupsUnfold(lines);
      hide Join, JoinAll, Groups;
      var n := 1 + BodyLength(lines[1..]);
      GroupsJoin(lines[n..]);
      JoinAllStep(lines[..n], Groups(lines[n..]));
      JoinConcat(lines[..n], lines[n..]);
    }
  }

  lemma GroupsUnfold(lines: seq<string>)
    requires lines != []
    ensures
      var n := 1 + BodyLength(lines[1..]);
      Groups(lines) == [lines[..n]] + Groups(lines[n..]) && lines == lines[..n] + lines[n..]
  {
    hide BodyLength;
    TakeDrop(lines, 1 + BodyLength(lines[1..]));
  }

  lemma JoinAllStep(first: seq<string>, rest: seq<seq<string>>)
    ensures JoinAll([first] + rest) == Join(first) + JoinAll(rest)
  {
    hide Join;
    assert ([first] + rest)[1..] == rest;
  }

  lemma {:induction false} SmallGroupsKeepText(target: string -> string, hash8: string -> string, groups: seq<seq<string>>, budget: nat)
    requires forall g <- groups :: |Join(g)| <= budget
    ensures Join(TextsOf(PiecesOf(target, hash8, groups, budget))) == JoinAll(groups)
  {
    hide GroupKeys, Join, TextsOf, PathOf, OversizedPieces;
    if groups == [] {
      OneText(NOTHING);
    } else {
      SmallGroupsKeepText(target, hash8, groups[1..], budget);
      var piece := Piece(Join(groups[0]), GroupKeys(target, groups[0]));
      assert GroupPieces(target, hash8, groups[0], budget) == [piece];
      OneText(piece);
      TextsConcat([piece], PiecesOf(target, hash8, groups[1..], budget));
    }
  }

  lemma NoText()
    ensures Join([]) == ""
  {
  }

  // When no block is oversized, the chunk texts concatenate back to the diff.
  lemma ChunksConcatenate(target: string -> string, hash8: string -> string, diff: string, budget: nat)
    requires forall g <- Groups(Lines(diff)) :: |Join(g)| <= budget
    requires ChunkRecords(target, hash8, diff, budget).Ok?
    ensures Join(ChunkTexts(ChunkRecords(target, hash8, diff, budget).value)) == diff
  {
    hide Join, PiecesOf, Pack, Groups, Lines, OwnedIn, DisjointOwners, Keys;
    LinesAreWellCut(diff);
    if diff == "" {
      NoText();
      assert ChunkTexts([]) == [];
    } else {
      var chunks := ChunkRecords(target, hash8, diff, budget).value;
      var pieces := PiecesOf(target, hash8, Groups(Lines(diff)), budget);
      SmallGroupsKeepText(target, hash8, Groups(Lines(diff)), budget);
      GroupsJoin(Lines(diff));
      PackKeepsText(budget, NOTHING, pieces);
      ConcatNone(diff);
      assert ChunkTexts(chunks) == TextsOf(Pack(budget, NOTHING, pieces));
    }
  }
}
