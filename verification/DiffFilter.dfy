// The diff chunker: scanning a unified diff, splitting it into file blocks,
// re-printing oversized blocks as continuation hunks, and packing the pieces
// into chunks that own the added lines.
//
// Two parts of the program are parameters here: `target` decodes the path out of
// a `diff --git` header, and `hash8` gives the eight hexadecimal characters that
// replace a path too long for the budget.
//
// An ownership dictionary {path: {line, ...}} is the set of its (path, line)
// pairs. The functions below give the same information as a sequence in the
// order of the text, so that ownership of a concatenation is a concatenation.
module DiffFilter {
  import opened Text

  type Key = (string, nat)

  // ------------------------------------------------------------ hunk headers

  datatype Hunk = Hunk(oldStart: nat, newStart: nat)

  // The optional ",count" of a range.
  function SkipCount(s: string): string {
    if s != "" && s[0] == ',' && DigitRun(s[1..]) > 0 then s[1 + DigitRun(s[1..])..] else s
  }

  // Both header patterns of the program accept these lines.
  function ParseHunk(line: string): Option<Hunk> {
    if !("@@ -" <= line) then None
    else
      var a := line[4..];
      var i := DigitRun(a);
      var b := SkipCount(a[i..]);
      if i == 0 || !(" +" <= b) then None
      else
        var c := b[2..];
        var j := DigitRun(c);
        if j == 0 || !(" @@" <= SkipCount(c[j..])) then None
        else Some(Hunk(Value(a[..i]), Value(c[..j])))
  }

  function PrintHunk(oldStart: nat, oldCount: nat, newStart: nat, newCount: nat): string {
    "@@ -" + (Dec(oldStart) + ("," + (Dec(oldCount)
    + (" +" + (Dec(newStart) + ("," + (Dec(newCount) + " @@ continued\n")))))))
  }

  // -------------------------------------------------------------- file blocks

  // ^diff --git .+$
  predicate IsFileHeader(line: string) {
    "diff --git " <= line && |Chomp(line)| > 11
  }

  // How many leading lines belong to the current block.
  function BodyLength(lines: seq<string>): (length: nat)
    ensures length <= |lines|
    ensures forall i | 0 <= i < length :: !IsFileHeader(lines[i])
    ensures length < |lines| ==> IsFileHeader(lines[length])
  {
    if lines == [] || IsFileHeader(lines[0]) then 0
    else
      var n := 1 + BodyLength(lines[1..]);
      assert forall i | 1 <= i < n :: lines[i] == lines[1..][i - 1];
      n
  }

  // The lines of each block, a preamble without a header included.
  function Groups(lines: seq<string>): seq<seq<string>>
    decreases |lines|
  {
    if lines == [] then []
    else
      var n := 1 + BodyLength(lines[1..]);
      [lines[..n]] + Groups(lines[n..])
  }

  function PathOf(target: string -> string, group: seq<string>): string {
    if group != [] && IsFileHeader(group[0]) then target(Chomp(group[0])) else ""
  }

  datatype Block = Block(path: string, text: string)

  function BlocksOf(target: string -> string, groups: seq<seq<string>>): seq<Block> {
    seq(|groups|, i requires 0 <= i < |groups| => Block(PathOf(target, groups[i]), Join(groups[i])))
  }

  lemma MoreBlocks(target: string -> string, done: seq<seq<string>>, group: seq<string>)
    ensures BlocksOf(target, done + [group])
         == BlocksOf(target, done) + [Block(PathOf(target, group), Join(group))]
  {
    hide PathOf, Join;
  }

  method SplitFileBlocks(target: string -> string, diff: string) returns (blocks: seq<Block>)
    ensures blocks == BlocksOf(target, Groups(Lines(diff)))
  {
    hide PathOf, Join, Lines, BlocksOf;
    var rest := Lines(diff);
    ghost var done: seq<seq<string>> := [];
    blocks := [];
    NoBlocks(target);
    ConcatNone(Groups(rest));
    while rest != []
      invariant Groups(Lines(diff)) == done + Groups(rest)
      invariant blocks == BlocksOf(target, done)
      decreases |rest|
    {
      var n := 1 + BodyLength(rest[1..]);
      MoreBlocks(target, done, rest[..n]);
      Assoc(done, [rest[..n]], Groups(rest[n..]));
      blocks := blocks + [Block(PathOf(target, rest[..n]), Join(rest[..n]))];
      done := done + [rest[..n]];
      rest := rest[n..];
    }
    ConcatNone(done);
  }

  lemma NoBlocks(target: string -> string)
    ensures BlocksOf(target, []) == []
  {
  }

  // ------------------------------------------------------ added lines of a diff

  predicate IsAdded(line: string) {
    "+" <= line && !("+++" <= line)
  }

  predicate IsRemoved(line: string) {
    "-" <= line && !("---" <= line)
  }

  predicate IsContext(line: string) {
    " " <= line
  }

  // What one line does to the next new-side number; None outside a hunk.
  function NextNew(line: string, cursor: Option<nat>): Option<nat> {
    if "@@" <= line then
      var hunk := ParseHunk(line);
      if hunk.Some? then Some(hunk.value.newStart) else None
    else if cursor.Some? && (IsAdded(line) || IsContext(line)) then Some(cursor.value + 1)
    else cursor
  }

  function AddedHere(line: string, cursor: Option<nat>): seq<nat> {
    if !("@@" <= line) && cursor.Some? && IsAdded(line) then [cursor.value] else []
  }

  // The new-side numbers of the added lines, given the next new-side number.
  function AddedLines(lines: seq<string>, cursor: Option<nat>): seq<nat> {
    if lines == [] then []
    else AddedHere(lines[0], cursor) + AddedLines(lines[1..], NextNew(lines[0], cursor))
  }

  function Tag(path: string, numbers: seq<nat>): seq<Key> {
    if path == "" then [] else seq(|numbers|, i requires 0 <= i < |numbers| => (path, numbers[i]))
  }

  function GroupKeys(target: string -> string, group: seq<string>): seq<Key> {
    Tag(PathOf(target, group), AddedLines(group, None))
  }

  function KeysOfGroups(target: string -> string, groups: seq<seq<string>>): seq<Key> {
    if groups == [] then [] else GroupKeys(target, groups[0]) + KeysOfGroups(target, groups[1..])
  }

  // Every added line of a text, in order.
  function Keys(target: string -> string, text: string): seq<Key> {
    KeysOfGroups(target, Groups(Lines(text)))
  }

  function Elements<T>(s: seq<T>): set<T> {
    set x | x in s
  }

  lemma TagConcat(path: string, a: seq<nat>, b: seq<nat>)
    ensures Tag(path, a + b) == Tag(path, a) + Tag(path, b)
  {
  }

  lemma {:induction false} KeysOfConcat(target: string -> string, a: seq<seq<string>>, b: seq<seq<string>>)
    ensures KeysOfGroups(target, a + b) == KeysOfGroups(target, a) + KeysOfGroups(target, b)
  {
    hide GroupKeys;
    if a == [] {
      ConcatNone(b);
      ConcatNone(KeysOfGroups(target, b));
    } else {
      KeysOfConcat(target, a[1..], b);
      ConcatTail(a, b);
      Assoc(GroupKeys(target, a[0]), KeysOfGroups(target, a[1..]), KeysOfGroups(target, b));
    }
  }

  method ChangedLines(target: string -> string, diff: string) returns (out: set<Key>)
    ensures out == Elements(Keys(target, diff))
  {
    hide PathOf, AddedLines, Groups, Lines;
    out := {};
    var groups := Groups(Lines(diff));
    ghost var found: seq<Key> := [];
    ConcatNone(Keys(target, diff));
    for b := 0 to |groups|
      invariant out == Elements(found)
      invariant Keys(target, diff) == found + KeysOfGroups(target, groups[b..])
    {
      DropStep(groups, b);
      var path := PathOf(target, groups[b]);
      ghost var keys := GroupKeys(target, groups[b]);
      Assoc(found, keys, KeysOfGroups(target, groups[b + 1..]));
      if path != "" {
        out := ChangedInBlock(path, groups[b], out, found);
      } else {
        ConcatNone(found);
      }
      found := found + keys;
    }
    ConcatNone(found);
  }

  lemma {:induction false} AddedStep(lines: seq<string>, i: nat, cursor: Option<nat>)
    requires i < |lines|
    ensures AddedLines(lines[i..], cursor)
         == AddedHere(lines[i], cursor) + AddedLines(lines[i + 1..], NextNew(lines[i], cursor))
  {
    hide AddedHere, NextNew;
    DropStep(lines, i);
  }

  // The inner loop of the scan, over the lines of one block.
  method ChangedInBlock(path: string, lines: seq<string>, before: set<Key>, ghost found: seq<Key>)
    returns (out: set<Key>)
    requires path != "" && before == Elements(found)
    ensures out == Elements(found + Tag(path, AddedLines(lines, None)))
  {
    hide ParseHunk, IsAdded, IsContext, AddedLines, Tag;
    out := before;
    var cursor: Option<nat> := None;
    ghost var numbers: seq<nat> := [];
    ConcatNone(AddedLines(lines, None));
    TagNone(path);
    ConcatNone(found);
    for i := 0 to |lines|
      invariant out == Elements(found + Tag(path, numbers))
      invariant AddedLines(lines, None) == numbers + AddedLines(lines[i..], cursor)
    {
      var line := lines[i];
      ghost var here, next := AddedHere(line, cursor), NextNew(line, cursor);
      AddedStep(lines, i, cursor);
      Assoc(numbers, here, AddedLines(lines[i + 1..], next));
      TagMore(path, found, numbers, here);
      if "@@" <= line {
        var hunk := ParseHunk(line);
        cursor := if hunk.Some? then Some(hunk.value.newStart) else None;
      } else if cursor.None? {
      } else if IsAdded(line) {
        out := out + {(path, cursor.value)};
        cursor := Some(cursor.value + 1);
      } else if IsContext(line) {
        cursor := Some(cursor.value + 1);
      }
      numbers := numbers + here;
    }
    NoMoreLines(lines, cursor);
    ConcatNone(numbers);
  }

  lemma NoMoreLines(lines: seq<string>, cursor: Option<nat>)
    ensures AddedLines(lines[|lines|..], cursor) == []
  {
  }

  lemma TagNone(path: string)
    ensures Tag(path, []) == []
  {
  }

  lemma TagMore(path: string, found: seq<Key>, numbers: seq<nat>, more: seq<nat>)
    requires path != "" && |more| <= 1
    ensures Elements(found + Tag(path, numbers + more))
         == Elements(found + Tag(path, numbers)) + (set n <- more :: (path, n))
  {
    if more == [] {
      ConcatNone(numbers);
    } else {
      assert more == [more[0]];
      assert Tag(path, numbers + more) == Tag(path, numbers) + [(path, more[0])];
      assert found + Tag(path, numbers + more) == (found + Tag(path, numbers)) + [(path, more[0])];
    }
  }

  // -------------------------------------------------------- oversized blocks

  datatype HunkLine = HunkLine(
    text: string, oldNo: nat, newNo: nat, oldCount: nat, newCount: nat, owned: Option<nat>)

  function AddedUnit(line: string, at: Hunk): HunkLine {
    HunkLine(line, at.oldStart, at.newStart, 0, 1, Some(at.newStart))
  }

  function RemovedUnit(line: string, at: Hunk): HunkLine {
    HunkLine(line, at.oldStart, at.newStart, 1, 0, None)
  }

  function ContextUnit(line: string, at: Hunk): HunkLine {
    HunkLine(line, at.oldStart, at.newStart, 1, 1, None)
  }

  function NextHunk(line: string, cursor: Option<Hunk>): Option<Hunk> {
    if "@@" <= line then ParseHunk(line)
    else if cursor.None? then None
    else
      var at := cursor.value;
      if IsAdded(line) then Some(Hunk(at.oldStart, at.newStart + 1))
      else if IsRemoved(line) then Some(Hunk(at.oldStart + 1, at.newStart))
      else if IsContext(line) then Some(Hunk(at.oldStart + 1, at.newStart + 1))
      else cursor
  }

  function UnitHere(line: string, cursor: Option<Hunk>): seq<HunkLine> {
    if "@@" <= line || cursor.None? then []
    else if IsAdded(line) then [AddedUnit(line, cursor.value)]
    else if IsRemoved(line) then [RemovedUnit(line, cursor.value)]
    else if IsContext(line) then [ContextUnit(line, cursor.value)]
    else []
  }

  function Units(lines: seq<string>, cursor: Option<Hunk>): seq<HunkLine> {
    if lines == [] then []
    else UnitHere(lines[0], cursor) + Units(lines[1..], NextHunk(lines[0], cursor))
  }

  lemma {:induction false} UnitsStep(lines: seq<string>, i: nat, cursor: Option<Hunk>)
    requires i < |lines|
    ensures Units(lines[i..], cursor)
         == UnitHere(lines[i], cursor) + Units(lines[i + 1..], NextHunk(lines[i], cursor))
  {
    hide UnitHere, NextHunk;
    DropStep(lines, i);
  }

  method HunkLineUnits(text: string) returns (units: seq<HunkLine>)
    ensures units == Units(Lines(text), None)
  {
    hide ParseHunk, IsAdded, IsRemoved, IsContext, AddedUnit, RemovedUnit, ContextUnit, Lines, Units;
    units := [];
    var lines := Lines(text);
    var cursor: Option<Hunk> := None;
    ConcatNone(Units(lines, None));
    for i := 0 to |lines|
      invariant Units(lines, None) == units + Units(lines[i..], cursor)
    {
      var line := lines[i];
      ghost var here, next := UnitHere(line, cursor), NextHunk(line, cursor);
      UnitsStep(lines, i, cursor);
      Assoc(units, here, Units(lines[i + 1..], next));
      ConcatNone(units);
      if "@@" <= line {
        cursor := ParseHunk(line);
      } else if cursor.Some? {
        var at := cursor.value;
        if IsAdded(line) {
          units := units + [AddedUnit(line, at)];
          cursor := Some(Hunk(at.oldStart, at.newStart + 1));
        } else if IsRemoved(line) {
          units := units + [RemovedUnit(line, at)];
          cursor := Some(Hunk(at.oldStart + 1, at.newStart));
        } else if IsContext(line) {
          units := units + [ContextUnit(line, at)];
          cursor := Some(Hunk(at.oldStart + 1, at.newStart + 1));
        }
      }
    }
    NoMoreUnits(lines, cursor);
    ConcatNone(units);
  }

  lemma NoMoreUnits(lines: seq<string>, cursor: Option<Hunk>)
    ensures Units(lines[|lines|..], cursor) == []
  {
  }

  function HeaderFor(display: string): string {
    "diff --git a/" + display + " b/" + display + "\n"
  }

  function DisplayName(path: string): string {
    if path == "" then "unknown" else path
  }

  function SyntheticPrefix(hash8: string -> string, path: string, budget: nat): string {
    if |HeaderFor(DisplayName(path))| + 32 > budget
    then HeaderFor("oversized-" + hash8(DisplayName(path)))
    else HeaderFor(DisplayName(path))
  }

  function OldCount(units: seq<HunkLine>): nat {
    if units == [] then 0 else units[0].oldCount + OldCount(units[1..])
  }

  function NewCount(units: seq<HunkLine>): nat {
    if units == [] then 0 else units[0].newCount + NewCount(units[1..])
  }

  function Texts(units: seq<HunkLine>): seq<string> {
    seq(|units|, i requires 0 <= i < |units| => units[i].text)
  }

  function HunkOf(units: seq<HunkLine>): string
    requires units != []
  {
    PrintHunk(units[0].oldNo, OldCount(units), units[0].newNo, NewCount(units))
  }

  function Render(prefix: string, units: seq<HunkLine>): string
    requires units != []
  {
    prefix + HunkOf(units) + Join(Texts(units))
  }

  const MARKER := " \U{2026} [truncated; inspect snapshot]\n"

  function Take(s: string, n: int): string {
    if n <= 0 then "" else if n < |s| then s[..n] else s
  }

  // A diff line cut down to `room` characters, its first character kept.
  function Shorten(text: string, room: int): string
    requires text != ""
  {
    var sigil := if text[0] in "+- " then text[..1] else " ";
    if room <= 1 then Take(sigil, room)
    else if room <= 1 + |MARKER| then Take(sigil + "\U{2026}\n", room)
    else sigil + Chomp(Take(text[1..], room - 1 - |MARKER|)) + MARKER
  }

  function Truncate(prefix: string, unit: HunkLine, budget: nat): HunkLine
    requires unit.text != ""
  {
    unit.(text := Shorten(unit.text, budget - |prefix + HunkOf([unit])|))
  }

  // A unit on its own, truncated when even that does not fit.
  function Fit(prefix: string, unit: HunkLine, budget: nat): HunkLine
    requires unit.text != ""
  {
    if |Render(prefix, [unit])| > budget then Truncate(prefix, unit, budget) else unit
  }

  predicate Follows(next: HunkLine, previous: HunkLine) {
    && next.oldNo == previous.oldNo + previous.oldCount
    && next.newNo == previous.newNo + previous.newCount
  }

  function One<T>(s: seq<T>): seq<seq<T>> {
    if s == [] then [] else [s]
  }

  // The groups of units that end up in one continuation hunk each.
  function Split(prefix: string, budget: nat, current: seq<HunkLine>, units: seq<HunkLine>): (r: seq<seq<HunkLine>>)
    requires forall u <- units :: u.text != ""
    ensures forall i | 0 <= i < |r| :: r[i] != []
    decreases |units|
  {
    if units == [] then One(current)
    else
      var unit := units[0];
      var broken := current != [] && !Follows(unit, current[|current| - 1]);
      var kept := if broken then [] else current;
      (if broken then [current] else []) +
      if |Render(prefix, kept + [unit])| <= budget
      then Split(prefix, budget, kept + [unit], units[1..])
      else One(kept) + Split(prefix, budget, [Fit(prefix, unit, budget)], units[1..])
  }

  datatype Piece = Piece(text: string, keys: seq<Key>)

  function OwnedBy(units: seq<HunkLine>): seq<nat> {
    if units == [] then []
    else (if units[0].owned.Some? then [units[0].owned.value] else []) + OwnedBy(units[1..])
  }

  function PieceOf(prefix: string, path: string, units: seq<HunkLine>): Piece
    requires units != []
  {
    Piece(Render(prefix, units), Tag(path, OwnedBy(units)))
  }

  function MetadataPiece(prefix: string, path: string, budget: nat): Piece {
    Piece(Take(prefix + "# oversized diff metadata: " + DisplayName(path) + "\n", budget), [])
  }

  lemma {:induction false} UnitTexts(lines: seq<string>, cursor: Option<Hunk>)
    ensures forall u <- Units(lines, cursor) ::
      u.text in lines && (IsAdded(u.text) || IsRemoved(u.text) || IsContext(u.text))
  {
    if lines != [] {
      UnitTexts(lines[1..], NextHunk(lines[0], cursor));
    }
  }

  predicate Rewritable(prefix: string, units: seq<HunkLine>, budget: nat) {
    units != [] && |prefix| + 28 < budget
  }

  // What the program stores for a piece: its text and a set of owned lines.
  datatype Record = Record(text: string, owned: set<Key>)

  function RecordOf(piece: Piece): Record {
    Record(piece.text, Elements(piece.keys))
  }

  function RecordsOf(pieces: seq<Piece>): seq<Record> {
    seq(|pieces|, i requires 0 <= i < |pieces| => RecordOf(pieces[i]))
  }

  function RenderAll(prefix: string, path: string, groups: seq<seq<HunkLine>>): seq<Piece>
    requires forall i | 0 <= i < |groups| :: groups[i] != []
  {
    seq(|groups|, i requires 0 <= i < |groups| => PieceOf(prefix, path, groups[i]))
  }

  function OversizedPieces(hash8: string -> string, path: string, group: seq<string>, budget: nat): seq<Piece> {
    var units := Units(group, None);
    var prefix := SyntheticPrefix(hash8, path, budget);
    UnitTexts(group, None);
    if !Rewritable(prefix, units, budget) then [MetadataPiece(prefix, path, budget)]
    else RenderAll(prefix, path, Split(prefix, budget, [], units))
  }

  predicate Breaks(current: seq<HunkLine>, unit: HunkLine) {
    current != [] && !Follows(unit, current[|current| - 1])
  }

  lemma SplitStep(prefix: string, budget: nat, done: seq<seq<HunkLine>>, current: seq<HunkLine>, units: seq<HunkLine>, i: nat)
    requires i < |units| && forall u <- units :: u.text != ""
    ensures
      var unit := units[i];
      var kept := if Breaks(current, unit) then [] else current;
      var done' := if Breaks(current, unit) then done + [current] else done;
      done + Split(prefix, budget, current, units[i..]) ==
        if |Render(prefix, kept + [unit])| <= budget
        then done' + Split(prefix, budget, kept + [unit], units[i + 1..])
        else (done' + One(kept)) + Split(prefix, budget, [Fit(prefix, unit, budget)], units[i + 1..])
  {
    hide Render, Fit, Follows;
    DropStep(units, i);
    var unit := units[i];
    var kept := if Breaks(current, unit) then [] else current;
    var done' := if Breaks(current, unit) then done + [current] else done;
    var rest :=
      if |Render(prefix, kept + [unit])| <= budget
      then Split(prefix, budget, kept + [unit], units[i + 1..])
      else One(kept) + Split(prefix, budget, [Fit(prefix, unit, budget)], units[i + 1..]);
    ConcatNone(rest);
    Assoc(done, [current], rest);
    Assoc(done', One(kept), Split(prefix, budget, [Fit(prefix, unit, budget)], units[i + 1..]));
  }

  lemma {:induction false} OwnedPairs(path: string, units: seq<HunkLine>)
    requires path != ""
    ensures Elements(Tag(path, OwnedBy(units))) == set u <- units | u.owned.Some? :: (path, u.owned.value)
  {
    if units != [] {
      var here := if units[0].owned.Some? then [units[0].owned.value] else [];
      OwnedPairs(path, units[1..]);
      TagConcat(path, here, OwnedBy(units[1..]));
      ElementsConcat(Tag(path, here), Tag(path, OwnedBy(units[1..])));
      assert units == [units[0]] + units[1..];
      assert Tag(path, here) == if units[0].owned.Some? then [(path, units[0].owned.value)] else [];
    }
  }

  lemma ElementsConcat<T>(a: seq<T>, b: seq<T>)
    ensures Elements(a + b) == Elements(a) + Elements(b)
  {
  }

  // The closure `flush` of the splitter: the record of the current group, if any.
  method FlushHunk(prefix: string, path: string, current: seq<HunkLine>) returns (out: seq<Record>)
    requires forall g <- One(current) :: g != []
    ensures out == RecordsOf(RenderAll(prefix, path, One(current)))
  {
    hide Render, Tag;
    if current == [] {
      return [];
    }
    var owned := set u <- current | u.owned.Some? :: u.owned.value;
    var pairs: set<Key> := {};
    if path == "" {
      NoTag(OwnedBy(current));
    } else {
      pairs := set n <- owned :: (path, n);
      OwnedPairs(path, current);
    }
    assert pairs == Elements(Tag(path, OwnedBy(current)));
    out := [Record(Render(prefix, current), pairs)];
  }

  lemma NoTag(numbers: seq<nat>)
    ensures Tag("", numbers) == []
  {
  }

  method SplitOversizedBlock(hash8: string -> string, path: string, text: string, budget: nat)
    returns (pieces: seq<Record>)
    ensures pieces == RecordsOf(OversizedPieces(hash8, path, Lines(text), budget))
  {
    hide Render, Fit, Follows, Units, SyntheticPrefix, Split, RenderAll, RecordsOf, Lines, MetadataPiece;
    var units := HunkLineUnits(text);
    UnitTexts(Lines(text), None);
    var prefix := SyntheticPrefix(hash8, path, budget);
    if units == [] || |prefix| + 28 >= budget {
      OneRecord(MetadataPiece(prefix, path, budget));
      return [RecordOf(MetadataPiece(prefix, path, budget))];
    }
    pieces := [];
    var current: seq<HunkLine> := [];
    ghost var done: seq<seq<HunkLine>> := [];
    NoRecords(prefix, path);
    ConcatNone(Split(prefix, budget, [], units));
    for i := 0 to |units|
      invariant forall j | 0 <= j < |done| :: done[j] != []
      invariant pieces == RecordsOf(RenderAll(prefix, path, done))
      invariant Split(prefix, budget, [], units) == done + Split(prefix, budget, current, units[i..])
    {
      var unit := units[i];
      SplitStep(prefix, budget, done, current, units, i);
      if current != [] && !Follows(unit, current[|current| - 1]) {
        var more := FlushHunk(prefix, path, current);
        MoreRecords(prefix, path, done, current);
        pieces := pieces + more;
        done := done + [current];
        current := [];
      }
      var candidate := current + [unit];
      if |Render(prefix, candidate)| <= budget {
        current := candidate;
      } else {
        var more := FlushHunk(prefix, path, current);
        MoreRecords(prefix, path, done, current);
        pieces := pieces + more;
        done := done + One(current);
        current := [Fit(prefix, unit, budget)];
      }
    }
    var more := FlushHunk(prefix, path, current);
    MoreRecords(prefix, path, done, current);
    SplitEnd(prefix, budget, current, units);
    pieces := pieces + more;
  }

  lemma SplitEnd(prefix: string, budget: nat, current: seq<HunkLine>, units: seq<HunkLine>)
    ensures Split(prefix, budget, current, units[|units|..]) == One(current)
  {
  }

  lemma OneRecord(piece: Piece)
    ensures RecordsOf([piece]) == [RecordOf(piece)]
  {
  }

  lemma NoRecords(prefix: string, path: string)
    ensures RecordsOf(RenderAll(prefix, path, [])) == []
  {
  }

  lemma MoreRecords(prefix: string, path: string, done: seq<seq<HunkLine>>, current: seq<HunkLine>)
    requires forall j | 0 <= j < |done| :: done[j] != []
    ensures RecordsOf(RenderAll(prefix, path, done + One(current)))
         == RecordsOf(RenderAll(prefix, path, done)) + RecordsOf(RenderAll(prefix, path, One(current)))
  {
    hide PieceOf, RecordOf;
    ConcatNone(done);
  }

  // ----------------------------------------------------------------- packing

  function GroupPieces(target: string -> string, hash8: string -> string, group: seq<string>, budget: nat): seq<Piece> {
    if |Join(group)| > budget then OversizedPieces(hash8, PathOf(target, group), group, budget)
    else [Piece(Join(group), GroupKeys(target, group))]
  }

  function PiecesOf(target: string -> string, hash8: string -> string, groups: seq<seq<string>>, budget: nat): seq<Piece> {
    if groups == [] then []
    else GroupPieces(target, hash8, groups[0], budget) + PiecesOf(target, hash8, groups[1..], budget)
  }

  const NOTHING := Piece("", [])

  function Append(a: Piece, b: Piece): Piece {
    Piece(a.text + b.text, a.keys + b.keys)
  }

  function Pack(budget: nat, current: Piece, pieces: seq<Piece>): seq<Piece>
    decreases |pieces|
  {
    if pieces == [] then (if current.text == "" then [] else [current])
    else
      var full := current.text != "" && |current.text| + |pieces[0].text| > budget;
      var next := Append(if full then NOTHING else current, pieces[0]);
      var flushed := |next.text| >= budget && next.text != "";
      (if full then [current] else []) + (if flushed then [next] else [])
      + Pack(budget, if flushed then NOTHING else next, pieces[1..])
  }

  function ChunkPieces(target: string -> string, hash8: string -> string, diff: string, budget: nat): seq<Piece> {
    Pack(budget, NOTHING, PiecesOf(target, hash8, Groups(Lines(diff)), budget))
  }

  datatype DiffChunk = DiffChunk(index: nat, text: string, owned: set<Key>)

  datatype ChunkError = BudgetNotPositive | MultipleOwners | LostLines

  predicate DisjointOwners(chunks: seq<Record>) {
    forall i, j | 0 <= i < j < |chunks| :: chunks[i].owned !! chunks[j].owned
  }

  function OwnedIn(chunks: seq<Record>): set<Key> {
    if chunks == [] then {} else OwnedIn(chunks[..|chunks| - 1]) + chunks[|chunks| - 1].owned
  }

  function Numbered(chunks: seq<Record>): seq<DiffChunk> {
    seq(|chunks|, i requires 0 <= i < |chunks| => DiffChunk(i, chunks[i].text, chunks[i].owned))
  }

  function ChunkRecords(target: string -> string, hash8: string -> string, diff: string, budget: int):
    Result<seq<DiffChunk>, ChunkError>
  {
    if budget <= 0 then Err(BudgetNotPositive)
    else if diff == "" then Ok([])
    else
      var chunks := RecordsOf(ChunkPieces(target, hash8, diff, budget));
      if !DisjointOwners(chunks) then Err(MultipleOwners)
      else if OwnedIn(chunks) != Elements(Keys(target, diff)) then Err(LostLines)
      else Ok(Numbered(chunks))
  }
}
