// How far the budget of the chunker is kept, and a diff that shows its limits.
module DiffLimits {
  import opened Text
  import opened DiffFilter
  import opened DiffChunks
  import opened DiffOwnership
  import opened DiffRoundTrip

  // --------------------------------------------------------- every piece survives

  predicate Reaches(chunks: seq<Piece>, length: nat) {
    exists i :: 0 <= i < |chunks| && length <= |chunks[i].text|
  }

  lemma ReachesMore(a: seq<Piece>, b: seq<Piece>, length: nat)
    requires Reaches(a, length) || Reaches(b, length)
    ensures Reaches(a + b, length)
  {
    if Reaches(a, length) {
      var i :| 0 <= i < |a| && length <= |a[i].text|;
      assert (a + b)[i] == a[i];
    } else {
      var i :| 0 <= i < |b| && length <= |b[i].text|;
      assert (a + b)[|a| + i] == b[i];
    }
  }

  // Packing only makes texts longer.
  lemma {:induction false} PackReaches(budget: nat, current: Piece, pieces: seq<Piece>, length: nat)
    requires length > 0
    requires length <= |current.text| || exists i :: 0 <= i < |pieces| && length <= |pieces[i].text|
    ensures Reaches(Pack(budget, current, pieces), length)
    decreases |pieces|
  {
    if pieces == [] {
      assert Pack(budget, current, pieces)[0] == current;
    } else {
      var full := current.text != "" && |current.text| + |pieces[0].text| > budget;
      var next := Append(if full then NOTHING else current, pieces[0]);
      var flushed := |next.text| >= budget && next.text != "";
      var a, b := if full then [current] else [], if flushed then [next] else [];
      var onward := if flushed then NOTHING else next;
      PackUnfold(budget, current, pieces);
      hide Pack, Reaches;
      if full && length <= |current.text| {
        OneReaches(current, length);
        ReachesMore(a, b, length);
        ReachesMore(a + b, Pack(budget, onward, pieces[1..]), length);
      } else if flushed && length <= |next.text| {
        OneReaches(next, length);
        ReachesMore(a, b, length);
        ReachesMore(a + b, Pack(budget, onward, pieces[1..]), length);
      } else {
        SomeRest(pieces, length);
        PackReaches(budget, onward, pieces[1..], length);
        ReachesMore(a + b, Pack(budget, onward, pieces[1..]), length);
      }
    }
  }

  lemma OneReaches(piece: Piece, length: nat)
    requires length <= |piece.text|
    ensures Reaches([piece], length)
  {
    assert [piece][0] == piece;
  }

  lemma SomeRest(pieces: seq<Piece>, length: nat)
    requires pieces != []
    ensures (exists i :: 0 <= i < |pieces| && length <= |pieces[i].text|) ==>
      length <= |pieces[0].text| || exists i :: 0 <= i < |pieces[1..]| && length <= |pieces[1..][i].text|
  {
    if i :| 0 <= i < |pieces| && length <= |pieces[i].text| {
      assert i > 0 ==> pieces[1..][i - 1] == pieces[i];
    }
  }

  // The chunks are within the budget exactly when the pieces are.
  lemma PackWithinExactly(budget: nat, pieces: seq<Piece>)
    ensures Within(Pack(budget, NOTHING, pieces), budget) <==> Within(pieces, budget)
  {
    hide Pack;
    if Within(pieces, budget) {
      PackWithin(budget, NOTHING, pieces);
    } else {
      var p :| p in pieces && |p.text| > budget;
      var i :| 0 <= i < |pieces| && pieces[i] == p;
      PackReaches(budget, NOTHING, pieces, budget + 1);
      var k :| 0 <= k < |Pack(budget, NOTHING, pieces)| && budget + 1 <= |Pack(budget, NOTHING, pieces)[k].text|;
      assert Pack(budget, NOTHING, pieces)[k] in Pack(budget, NOTHING, pieces);
    }
  }

  // ------------------------------------------------------ which hunks are too long

  // There is room for a header in front of the first line of a hunk.
  predicate StartFits(prefix: string, units: seq<HunkLine>, budget: nat)
    requires units != []
  {
    |prefix| + |HunkOf([units[0]])| <= budget
  }

  lemma {:induction false} CountsGrow(units: seq<HunkLine>)
    ensures units != [] ==> OldCount([units[0]]) <= OldCount(units) && NewCount([units[0]]) <= NewCount(units)
  {
    if units != [] {
      assert [units[0]][1..] == [];
    }
  }

  lemma HeaderGrows(units: seq<HunkLine>)
    requires units != []
    ensures |HunkOf([units[0]])| <= |HunkOf(units)|
  {
    hide OldCount, NewCount, Dec;
    CountsGrow(units);
    DecGrows(OldCount([units[0]]), OldCount(units));
    DecGrows(NewCount([units[0]]), NewCount(units));
  }

  lemma WithinStarts(prefix: string, units: seq<HunkLine>, budget: nat)
    requires units != [] && |Render(prefix, units)| <= budget
    ensures StartFits(prefix, units, budget)
  {
    hide HunkOf;
    HeaderGrows(units);
  }

  predicate ExactlyWithin(prefix: string, budget: nat, groups: seq<seq<HunkLine>>)
    requires forall i | 0 <= i < |groups| :: groups[i] != []
  {
    forall i | 0 <= i < |groups| :: |Render(prefix, groups[i])| <= budget <==> StartFits(prefix, groups[i], budget)
  }

  lemma FittedStarts(prefix: string, unit: HunkLine, budget: nat)
    requires unit.text != ""
    ensures |Render(prefix, [Fit(prefix, unit, budget)])| <= budget <==>
      StartFits(prefix, [Fit(prefix, unit, budget)], budget)
  {
    FitWithin(prefix, unit, budget);
    var fitted := Fit(prefix, unit, budget);
    assert HunkOf([fitted]) == HunkOf([unit]) by {
      assert [unit][1..] == [] && [fitted][1..] == [];
    }
  }

  lemma {:induction false} SplitExactly(prefix: string, budget: nat, current: seq<HunkLine>, units: seq<HunkLine>)
    requires forall u <- units :: u.text != ""
    requires current != [] ==> (|Render(prefix, current)| <= budget <==> StartFits(prefix, current, budget))
    ensures ExactlyWithin(prefix, budget, Split(prefix, budget, current, units))
    decreases |units|
  {
    hide Render, Follows, Fit, StartFits;
    if units != [] {
      var unit, rest := units[0], units[1..];
      var kept := if Breaks(current, unit) then [] else current;
      if |Render(prefix, kept + [unit])| <= budget {
        WithinStarts(prefix, kept + [unit], budget);
        SplitExactly(prefix, budget, kept + [unit], rest);
      } else {
        FittedStarts(prefix, unit, budget);
        SplitExactly(prefix, budget, [Fit(prefix, unit, budget)], rest);
      }
    }
  }

  // Every continuation hunk of an oversized block has room for a header in front
  // of its first line.
  predicate StartsFit(target: string -> string, hash8: string -> string, group: seq<string>, budget: nat) {
    var prefix := SyntheticPrefix(hash8, PathOf(target, group), budget);
    var units := Units(group, None);
    UnitTexts(group, None);
    |Join(group)| > budget && Rewritable(prefix, units, budget) ==>
      forall i | 0 <= i < |Split(prefix, budget, [], units)| ::
        StartFits(prefix, Split(prefix, budget, [], units)[i], budget)
  }

  lemma GroupWithinExactly(target: string -> string, hash8: string -> string, group: seq<string>, budget: nat)
    ensures Within(GroupPieces(target, hash8, group, budget), budget) <==> StartsFit(target, hash8, group, budget)
  {
    hide HunkOf, SyntheticPrefix, Units, Split, GroupKeys, PathOf, Join, Render, StartFits;
    var prefix := SyntheticPrefix(hash8, PathOf(target, group), budget);
    var units := Units(group, None);
    UnitTexts(group, None);
    if |Join(group)| > budget && Rewritable(prefix, units, budget) {
      SplitExactly(prefix, budget, [], units);
      RenderedWithin(prefix, PathOf(target, group), Split(prefix, budget, [], units), budget);
    }
  }

  lemma RenderedWithin(prefix: string, path: string, groups: seq<seq<HunkLine>>, budget: nat)
    requires (forall i | 0 <= i < |groups| :: groups[i] != []) && ExactlyWithin(prefix, budget, groups)
    ensures Within(RenderAll(prefix, path, groups), budget) <==>
      forall i | 0 <= i < |groups| :: StartFits(prefix, groups[i], budget)
  {
    hide Render, StartFits;
    var pieces := RenderAll(prefix, path, groups);
    assert forall i | 0 <= i < |groups| :: pieces[i] in pieces && |pieces[i].text| == |Render(prefix, groups[i])|;
  }

  lemma {:induction false} PiecesWithinExactly(target: string -> string, hash8: string -> string, groups: seq<seq<string>>, budget: nat)
    ensures Within(PiecesOf(target, hash8, groups, budget), budget) <==>
      forall g <- groups :: StartsFit(target, hash8, g, budget)
  {
    hide StartsFit, GroupPieces;
    if groups != [] {
      GroupWithinExactly(target, hash8, groups[0], budget);
      PiecesWithinExactly(target, hash8, groups[1..], budget);
      WithinConcat(GroupPieces(target, hash8, groups[0], budget), PiecesOf(target, hash8, groups[1..], budget), budget);
      assert groups == [groups[0]] + groups[1..];
    }
  }

  lemma WithinConcat(a: seq<Piece>, b: seq<Piece>, budget: nat)
    ensures Within(a + b, budget) <==> Within(a, budget) && Within(b, budget)
  {
    assert forall p :: p in a + b <==> p in a || p in b;
  }

  // No chunk is longer than the budget exactly when every continuation hunk has
  // room for a header in front of its first line.
  lemma StartsDecide(target: string -> string, hash8: string -> string, diff: string, budget: nat)
    requires ChunkRecords(target, hash8, diff, budget).Ok?
    ensures (forall c <- ChunkRecords(target, hash8, diff, budget).value :: |c.text| <= budget) <==>
      forall g <- Groups(Lines(diff)) :: StartsFit(target, hash8, g, budget)
  {
    hide StartsFit, PiecesOf, Pack, Groups, Lines, OwnedIn, DisjointOwners, Keys;
    if diff == "" {
      NoGroups();
    } else {
      var pieces := PiecesOf(target, hash8, Groups(Lines(diff)), budget);
      PiecesWithinExactly(target, hash8, Groups(Lines(diff)), budget);
      PackWithinExactly(budget, pieces);
      NumberedWithin(Pack(budget, NOTHING, pieces), budget);
    }
  }

  lemma NumberedWithin(pieces: seq<Piece>, budget: nat)
    ensures (forall c <- Numbered(RecordsOf(pieces)) :: |c.text| <= budget) <==> Within(pieces, budget)
  {
    var chunks := Numbered(RecordsOf(pieces));
    assert forall i | 0 <= i < |pieces| :: chunks[i] in chunks && chunks[i].text == pieces[i].text;
  }

  // ------------------------------------------------- from hunks to single lines

  lemma {:induction false} DecTenfold(m: nat, n: nat)
    requires m / 10 <= n
    ensures |Dec(m)| <= |Dec(n)| + 1
  {
    if m >= 10 {
      DecGrows(m / 10, n);
    } else {
      DecGrows(0, n);
    }
  }

  // A number that is a larger has at most half as many digits more.
  lemma {:induction false} DecStretch(n: nat, a: nat)
    ensures |Dec(n + a)| <= |Dec(n)| + (a + 1) / 2
    decreases a
  {
    if a > 0 {
      if (n + a) / 10 <= n {
        DecTenfold(n + a, n);
      } else {
        var b := (n + a) / 10 - n;
        assert b <= a / 10;
        DecStretch(n, b);
        DecTenfold(n + a, n + b);
      }
    }
  }

  // The lines of a group follow one another: each coordinate moves by at most one
  // a line. A group that is not full has at least as many characters as lines.
  predicate Stretch(prefix: string, budget: nat, group: seq<HunkLine>) {
    group != [] ==>
      var first, last := group[0], group[|group| - 1];
      && last.oldNo + last.oldCount <= first.oldNo + |group| && last.newNo + last.newCount <= first.newNo + |group|
      && first.oldCount <= 1 && first.newCount <= 1
      && (|Render(prefix, group)| >= budget || |Join(Texts(group))| >= |group|)
  }

  predicate Sized(u: HunkLine) {
    u.text != "" && u.oldCount <= 1 && u.newCount <= 1
  }

  lemma {:induction false} CountsConcat(group: seq<HunkLine>, unit: HunkLine)
    ensures OldCount(group + [unit]) == OldCount(group) + unit.oldCount
    ensures NewCount(group + [unit]) == NewCount(group) + unit.newCount
  {
    if group == [] {
      assert group + [unit] == [unit] && [unit][1..] == [];
    } else {
      ConcatTail(group, [unit]);
      CountsConcat(group[1..], unit);
    }
  }

  lemma TextsGrow(group: seq<HunkLine>, unit: HunkLine)
    ensures Join(Texts(group + [unit])) == Join(Texts(group)) + unit.text
  {
    hide Join;
    assert Texts(group + [unit]) == Texts(group) + [unit.text];
    JoinConcat(Texts(group), [unit.text]);
    OneLine(unit.text);
  }

  lemma RenderLonger(prefix: string, group: seq<HunkLine>, unit: HunkLine)
    requires group != []
    ensures |Render(prefix, group + [unit])| >= |Render(prefix, group)| + |unit.text|
  {
    hide OldCount, NewCount, Dec, Texts, Join;
    CountsConcat(group, unit);
    TextsGrow(group, unit);
    DecGrows(OldCount(group), OldCount(group + [unit]));
    DecGrows(NewCount(group), NewCount(group + [unit]));
  }

  lemma RenderParts(prefix: string, group: seq<HunkLine>)
    requires group != []
    ensures |Render(prefix, group)| == |prefix| + |HunkOf(group)| + |Join(Texts(group))|
  {
    hide HunkOf, Join, Texts;
  }

  // A line that joins a group within the budget would fit on its own.
  lemma JoinedFits(prefix: string, budget: nat, group: seq<HunkLine>, unit: HunkLine)
    requires group != [] && Stretch(prefix, budget, group) && Follows(unit, group[|group| - 1]) && Sized(unit)
    requires |Render(prefix, group + [unit])| <= budget
    ensures Stretch(prefix, budget, group + [unit]) && |prefix| + |HunkOf([unit])| <= budget
  {
    hide HunkOf, Render, Join, Texts, Dec;
    var first, more := group[0], group + [unit];
    RenderLonger(prefix, group, unit);
    TextsGrow(group, unit);
    RenderParts(prefix, more);
    HeaderGrows(more);
    HeaderLength(first);
    HeaderLength(unit);
    assert more[0] == first && more[|more| - 1] == unit;
    DecStretch(first.oldNo, |group|);
    DecStretch(first.newNo, |group|);
    DecGrows(unit.oldNo, first.oldNo + |group|);
    DecGrows(unit.newNo, first.newNo + |group|);
  }

  // A line that begins a group, shortened if need be.
  lemma BegunStretches(prefix: string, budget: nat, unit: HunkLine)
    requires Sized(unit)
    ensures Stretch(prefix, budget, [Fit(prefix, unit, budget)])
  {
    hide HunkOf, Follows;
    var fitted := Fit(prefix, unit, budget);
    RenderLength(prefix, unit);
    RenderLength(prefix, fitted);
    FittedHunk(prefix, unit, budget);
    hide Render;
    assert Texts([fitted]) == [fitted.text];
    OneLine(fitted.text);
  }

  // The group that is being built comes out with its first line.
  lemma {:induction false} CurrentComesOut(prefix: string, budget: nat, current: seq<HunkLine>, units: seq<HunkLine>)
    requires current != [] && forall u <- units :: u.text != ""
    ensures var groups := Split(prefix, budget, current, units); groups != [] && groups[0][0] == current[0]
    decreases |units|
  {
    hide Render, Follows, Fit;
    if units != [] && !Breaks(current, units[0]) && |Render(prefix, current + [units[0]])| <= budget {
      CurrentComesOut(prefix, budget, current + [units[0]], units[1..]);
    }
  }

  predicate AllStart(prefix: string, budget: nat, groups: seq<seq<HunkLine>>)
    requires forall i | 0 <= i < |groups| :: groups[i] != []
  {
    forall i | 0 <= i < |groups| :: StartFits(prefix, groups[i], budget)
  }

  // When every group has room for a header in front of its first line, every
  // single line has.
  lemma {:induction false} LinesFit(prefix: string, budget: nat, current: seq<HunkLine>, units: seq<HunkLine>)
    requires (forall u <- units :: u.text != "" && Sized(u)) && Stretch(prefix, budget, current)
    requires AllStart(prefix, budget, Split(prefix, budget, current, units))
    ensures forall u <- units :: |prefix| + |HunkOf([u])| <= budget
    decreases |units|
  {
    hide Render, Fit, HunkOf, Stretch, Sized, Follows;
    if units != [] {
      var unit, rest := units[0], units[1..];
      assert Sized(unit);
      LineFits(prefix, budget, current, units);
      var kept := if Breaks(current, unit) then [] else current;
      var next := if |Render(prefix, kept + [unit])| <= budget then kept + [unit] else [Fit(prefix, unit, budget)];
      SplitTail(prefix, budget, current, units);
      LinesFit(prefix, budget, next, rest);
      assert units == [unit] + rest;
    }
  }

  // What is left to split is the rest of the groups.
  lemma SplitTail(prefix: string, budget: nat, current: seq<HunkLine>, units: seq<HunkLine>)
    requires units != [] && forall u <- units :: u.text != ""
    requires AllStart(prefix, budget, Split(prefix, budget, current, units))
    ensures var kept := if Breaks(current, units[0]) then [] else current;
      var next := if |Render(prefix, kept + [units[0]])| <= budget then kept + [units[0]]
                  else [Fit(prefix, units[0], budget)];
      AllStart(prefix, budget, Split(prefix, budget, next, units[1..]))
  {
    hide Render, Fit, StartFits, Follows, Split;
    var unit := units[0];
    var kept := if Breaks(current, unit) then [] else current;
    var next := if |Render(prefix, kept + [unit])| <= budget then kept + [unit] else [Fit(prefix, unit, budget)];
    var groups, tail := Split(prefix, budget, current, units), Split(prefix, budget, next, units[1..]);
    var head := SplitUnfold(prefix, budget, current, units);
    assert forall i | 0 <= i < |tail| :: tail[i] == groups[|head| + i];
  }

  lemma SplitUnfold(prefix: string, budget: nat, current: seq<HunkLine>, units: seq<HunkLine>)
    returns (head: seq<seq<HunkLine>>)
    requires units != [] && forall u <- units :: u.text != ""
    ensures var kept := if Breaks(current, units[0]) then [] else current;
      var next := if |Render(prefix, kept + [units[0]])| <= budget then kept + [units[0]]
                  else [Fit(prefix, units[0], budget)];
      Split(prefix, budget, current, units) == head + Split(prefix, budget, next, units[1..])
  {
    hide Render, Fit, Follows;
    var unit, rest := units[0], units[1..];
    var kept := if Breaks(current, unit) then [] else current;
    var before := if Breaks(current, unit) then [current] else [];
    if |Render(prefix, kept + [unit])| <= budget {
      head := before;
    } else {
      head := before + One(kept);
      Assoc(before, One(kept), Split(prefix, budget, [Fit(prefix, unit, budget)], rest));
    }
  }

  // The first line left either joins the group or begins one of its own.
  lemma LineFits(prefix: string, budget: nat, current: seq<HunkLine>, units: seq<HunkLine>)
    requires units != [] && (forall u <- units :: u.text != "" && Sized(u)) && Stretch(prefix, budget, current)
    requires AllStart(prefix, budget, Split(prefix, budget, current, units))
    ensures |prefix| + |HunkOf([units[0]])| <= budget
    ensures var kept := if Breaks(current, units[0]) then [] else current;
      var next := if |Render(prefix, kept + [units[0]])| <= budget then kept + [units[0]]
                  else [Fit(prefix, units[0], budget)];
      Stretch(prefix, budget, next)
  {
    hide Render, Fit, HunkOf, Stretch, Follows;
    var unit := units[0];
    var kept := if Breaks(current, unit) then [] else current;
    if |Render(prefix, kept + [unit])| <= budget {
      if kept == [] {
        assert kept + [unit] == [unit];
        RenderLength(prefix, unit);
        BegunStretches(prefix, budget, unit);
        FitsAlready(prefix, budget, unit);
      } else {
        JoinedFits(prefix, budget, kept, unit);
      }
    } else {
      BegunStretches(prefix, budget, unit);
      SplitTail(prefix, budget, current, units);
      CurrentComesOut(prefix, budget, [Fit(prefix, unit, budget)], units[1..]);
      StartOfFitted(prefix, budget, unit, units[1..]);
    }
  }

  lemma FitsAlready(prefix: string, budget: nat, unit: HunkLine)
    requires unit.text != "" && |Render(prefix, [unit])| <= budget
    ensures Fit(prefix, unit, budget) == unit
  {
    hide Render;
  }

  lemma StartOfFitted(prefix: string, budget: nat, unit: HunkLine, rest: seq<HunkLine>)
    requires unit.text != "" && forall u <- rest :: u.text != ""
    requires var groups := Split(prefix, budget, [Fit(prefix, unit, budget)], rest);
      AllStart(prefix, budget, groups) && groups != [] && groups[0][0] == Fit(prefix, unit, budget)
    ensures |prefix| + |HunkOf([unit])| <= budget
  {
    hide Render, Fit, HunkOf, Follows, Split;
    FittedHunk(prefix, unit, budget);
  }

  lemma GroupLinesFit(target: string -> string, hash8: string -> string, group: seq<string>, budget: nat)
    requires StartsFit(target, hash8, group, budget)
    ensures HeadersFit(target, hash8, group, budget)
  {
    hide HunkOf, SyntheticPrefix, Units, Split, PathOf, Join, Render, Dec, StartFits;
    var prefix := SyntheticPrefix(hash8, PathOf(target, group), budget);
    var units := Units(group, None);
    UnitTexts(group, None);
    UnitCounts(group, None);
    if |Join(group)| > budget && Rewritable(prefix, units, budget) {
      LinesFit(prefix, budget, [], units);
      forall u <- units ensures |prefix| + 24 + |Dec(u.oldNo)| + |Dec(u.newNo)| <= budget {
        HeaderLength(u);
      }
    }
  }

  // No chunk is longer than the budget exactly when the prefix, the 24 characters
  // of a hunk header and the digits of both numbers fit for each line of a block
  // that is printed anew.
  lemma BudgetIsKeptExactly(target: string -> string, hash8: string -> string, diff: string, budget: nat)
    requires ChunkRecords(target, hash8, diff, budget).Ok?
    ensures (forall c <- ChunkRecords(target, hash8, diff, budget).value :: |c.text| <= budget) <==>
      forall g <- Groups(Lines(diff)) :: HeadersFit(target, hash8, g, budget)
  {
    hide StartsFit, HeadersFit, Groups, Lines, ChunkRecords;
    if forall g <- Groups(Lines(diff)) :: HeadersFit(target, hash8, g, budget) {
      BudgetIsHard(target, hash8, diff, budget);
    }
    StartsDecide(target, hash8, diff, budget);
    if forall g <- Groups(Lines(diff)) :: StartsFit(target, hash8, g, budget) {
      forall g <- Groups(Lines(diff)) ensures HeadersFit(target, hash8, g, budget) {
        GroupLinesFit(target, hash8, g, budget);
      }
    }
  }

  // ------------------------------------------------------------------ the limits met

  // One added line, far down in a file whose name has 17 characters or more.
  const LINE: string := "+x\n"

  const UNIT: HunkLine := HunkLine(LINE, 1000, 1000, 0, 1, Some(1000))

  function LongLines(path: string): seq<string> {
    Printed(HeaderFor(path), [UNIT], [LINE])
  }

  function LongDiff(path: string): string {
    Join(LongLines(path))
  }

  predicate Decodes(target: string -> string, path: string) {
    target(Chomp(HeaderFor(path))) == path
  }

  lemma HeaderLong(path: string)
    ensures |HeaderFor(path)| == 17 + 2 * |path| && HeaderFor(path)[0] == 'd'
  {
  }

  lemma LineIsPlain()
    ensures PlainTexts([LINE]) && AddedLines([LINE], Some(1000)) == [1000]
    ensures IsAdded(LINE) && !("@@" <= LINE)
  {
    assert [LINE][1..] == [];
    assert LINE[0] == '+' && LINE[1] == 'x';
    assert AddedHere(LINE, Some(1000)) == [1000];
    ConcatNone([1000]);
    assert AddedLines([LINE], Some(1000)) == [1000] + AddedLines([], Some(1001));
  }

  lemma IsOneBlock(path: string)
    requires '\n' !in path
    ensures IsBlock(LongLines(path)) && IsFileHeader(LongLines(path)[0])
    ensures LongDiff(path) == HeaderFor(path) + HunkOf([UNIT]) + LINE
  {
    hide HeaderFor, HunkOf, IsFileHeader, IsLine, EndsLine, Join, IsBlock, PlainTexts;
    HeaderLong(path);
    LineIsPlain();
    HeaderIsLine(path);
    PrintedIsBlock(path, [UNIT], [LINE]);
    OneLine(LINE);
  }

  lemma GroupsOfBlock(group: seq<string>)
    requires IsBlock(group)
    ensures Groups(Lines(Join(group))) == [group]
  {
    CutOfJoin(group);
    hide BodyLength, Lines, Join;
    assert group[..|group|] == group;
    assert group[|group|..] == [];
  }

  lemma LongKeys(target: string -> string, path: string)
    requires Decodes(target, path) && path != "" && '\n' !in path
    ensures Groups(Lines(LongDiff(path))) == [LongLines(path)]
    ensures GroupKeys(target, LongLines(path)) == [(path, 1000)] && Keys(target, LongDiff(path)) == [(path, 1000)]
    ensures PathOf(target, LongLines(path)) == path
  {
    hide HeaderFor, HunkOf, IsFileHeader, Join, IsBlock, PlainTexts, AddedLines, Lines, Groups, Chomp, PathOf, Keys;
    hide Printed, Tag;
    IsOneBlock(path);
    LongGroup(target, path);
    BlockAlone(target, LongLines(path));
    GroupsOfBlock(LongLines(path));
  }

  lemma LongGroup(target: string -> string, path: string)
    requires Decodes(target, path) && path != "" && '\n' !in path
    ensures PathOf(target, LongLines(path)) == path && GroupKeys(target, LongLines(path)) == [(path, 1000)]
  {
    hide HeaderFor, HunkOf, IsFileHeader, Join, IsBlock, PlainTexts, AddedLines, Chomp;
    IsOneBlock(path);
    LineIsPlain();
    PrintedLines(path, [UNIT], [LINE]);
    HeaderLong(path);
    assert Tag(path, [1000]) == [(path, 1000)];
  }

  lemma HeadUnits(a: string, b: string, line: string, h: Hunk)
    requires !("@@" <= a) && "@@" <= b && ParseHunk(b) == Some(h) && IsAdded(line) && !("@@" <= line)
    ensures Units([a, b] + [line], None) == [AddedUnit(line, h)]
  {
    hide ParseHunk, IsAdded, AddedUnit, Units;
    var lines := [a, b] + [line];
    UnitsStep(lines, 0, None);
    UnitsStep(lines, 1, None);
    UnitsStep(lines, 2, Some(h));
    assert lines[0..] == lines;
    NoMoreUnits(lines, Some(Hunk(h.oldStart, h.newStart + 1)));
  }

  lemma LongUnits(path: string)
    ensures Units(LongLines(path), None) == [UNIT]
  {
    hide HeaderFor, HunkOf, ParseHunk, PrintHunk, IsLine, EndsLine, Units, IsAdded;
    HeaderLong(path);
    LineIsPlain();
    HunkRoundTrip(1000, 0, 1000, 1);
    HunkIsLine(1000, 0, 1000, 1);
    HunkOfUnit();
    HeadUnits(HeaderFor(path), HunkOf([UNIT]), LINE, Hunk(1000, 1000));
  }

  lemma HunkOfUnit()
    ensures HunkOf([UNIT]) == PrintHunk(1000, 0, 1000, 1)
  {
    assert [UNIT][1..] == [];
    assert OldCount([UNIT]) == 0 + OldCount([]) && NewCount([UNIT]) == 1 + NewCount([]);
    assert UNIT.oldNo == 1000 && UNIT.newNo == 1000;
    hide PrintHunk;
  }

  lemma FourDigits()
    ensures |HunkOf([UNIT])| == 32
  {
    assert |Dec(1)| == 1;
    assert |Dec(10)| == 2;
    assert |Dec(100)| == 3;
    assert |Dec(1000)| == 4;
    hide Dec;
    HeaderLength(UNIT);
  }

  // A long enough name: the printed diff is over the budget, and so is its name
  // with the room that the splitter wants.
  lemma LongIsLarge(path: string)
    requires |path| >= 17 && '\n' !in path
    ensures |LongDiff(path)| > 82 && |HeaderFor(path)| + 32 > 82
  {
    IsOneBlock(path);
    HeaderLong(path);
    FourDigits();
    hide HeaderFor, HunkOf;
  }

  lemma OneKeyOnce(key: Key)
    ensures NoRepeats([key])
  {
  }

  // One less than the bound, and the added line of every such file is lost.
  lemma LostAt81(target: string -> string, hash8: string -> string, path: string)
    requires IsHash8(hash8) && Decodes(target, path) && |path| >= 17 && '\n' !in path
    ensures ChunkRecords(target, hash8, LongDiff(path), 81) == Err(LostLines)
  {
    hide IsHash8, HeaderFor, Groups, Lines, Keys, GroupKeys, Kept, LongDiff, LongLines, ChunkPieces, OwnedIn;
    hide DisjointOwners, NoRepeats;
    LongIsLarge(path);
    LongKeys(target, path);
    OneKeyOnce((path, 1000));
    assert |Join(LongLines(path))| > 81 by { DiffOfLines(path); }
    KeptInNumbers(target, hash8, LongLines(path), 81);
    AcceptedExactly(target, hash8, LongDiff(path), 81);
    assert LongLines(path) in Groups(Lines(LongDiff(path)));
  }

  lemma DiffOfLines(path: string)
    ensures LongDiff(path) == Join(LongLines(path))
  {
  }

  // At the bound it is kept, but the printed hunk is longer than the budget.
  lemma TooLongAt82(target: string -> string, hash8: string -> string, path: string)
    requires IsHash8(hash8) && Decodes(target, path) && |path| >= 17 && '\n' !in path
    ensures var r := ChunkRecords(target, hash8, LongDiff(path), 82);
      r.Ok? && exists c <- r.value :: |c.text| > 82
  {
    hide IsHash8, HeaderFor, Groups, Lines, Keys, GroupKeys, Kept, LongDiff, LongLines, ChunkRecords, NoRepeats;
    hide StartsFit, Partitions, Elements;
    LongKeys(target, path);
    OneKeyOnce((path, 1000));
    OwnershipIsTotal(target, hash8, LongDiff(path), 82);
    StartsDecide(target, hash8, LongDiff(path), 82);
    LongStarts(target, hash8, path);
    assert LongLines(path) in Groups(Lines(LongDiff(path)));
  }

  lemma LongStarts(target: string -> string, hash8: string -> string, path: string)
    requires IsHash8(hash8) && Decodes(target, path) && |path| >= 17 && '\n' !in path
    ensures !StartsFit(target, hash8, LongLines(path), 82)
  {
    hide Render, Fit, Follows, Units, LongLines, Decodes, PathOf, GroupKeys, Groups, Lines, Keys;
    LongKeys(target, path);
    LongIsLarge(path);
    LongUnits(path);
    FourDigits();
    assert |Join(LongLines(path))| > 82 by { DiffOfLines(path); }
    var prefix := SyntheticPrefix(hash8, path, 82);
    assert prefix == HeaderFor("oversized-" + hash8(path)) && |prefix| == 53;
    UnitTexts(LongLines(path), None);
    assert |Render(prefix, [UNIT])| > 82 by { RenderLength(prefix, UNIT); }
    SplitOne(prefix, UNIT, 82);
    assert HunkOf([Fit(prefix, UNIT, 82)]) == HunkOf([UNIT]) by { FittedHunk(prefix, UNIT, 82); }
    var groups := Split(prefix, 82, [], [UNIT]);
    assert groups[0][0] == Fit(prefix, UNIT, 82) && [groups[0][0]] == [Fit(prefix, UNIT, 82)];
    assert |prefix| + |HunkOf([groups[0][0]])| > 82;
    assert Rewritable(prefix, [UNIT], 82);
  }

  lemma SplitOne(prefix: string, unit: HunkLine, budget: nat)
    requires unit.text != "" && |Render(prefix, [unit])| > budget
    ensures Split(prefix, budget, [], [unit]) == [[Fit(prefix, unit, budget)]]
  {
    hide Render, Fit;
    assert [] + [unit] == [unit] && [unit][1..] == [];
  }

  lemma FittedHunk(prefix: string, unit: HunkLine, budget: nat)
    requires unit.text != ""
    ensures HunkOf([Fit(prefix, unit, budget)]) == HunkOf([unit])
  {
    hide Render, PrintHunk;
    assert [unit][1..] == [] && [Fit(prefix, unit, budget)][1..] == [];
  }
}
