// What the scanner reads, said without the scanner: which lines are hunk headers,
// where blocks begin, and which numbers the lines of a hunk have.
module DiffSyntax {
  import opened Text
  import opened DiffFilter
  import opened DiffOwnership
  import opened DiffRoundTrip

  // ---------------------------------------------------------------- hunk headers

  // An omitted count, or a comma and digits.
  predicate IsCount(count: string) {
    count == "" || (|count| >= 2 && count[0] == ',' && AllDigits(count[1..]))
  }

  predicate IsNumber(digits: string) {
    digits != "" && AllDigits(digits)
  }

  // `@@ -left[,count] +right[,count] @@tail`
  function HeaderText(left: string, leftCount: string, right: string, rightCount: string, tail: string): string {
    "@@ -" + (left + (leftCount + (" +" + (right + (rightCount + (" @@" + tail))))))
  }

  lemma CountTaken(count: string, rest: string)
    requires IsCount(count) && rest != "" && rest[0] == ' '
    ensures SkipCount(count + rest) == rest
  {
    if count == "" {
      assert count + rest == rest;
    } else {
      assert count == "," + count[1..];
      Assoc(",", count[1..], rest);
      CountSkipped(count[1..], rest);
    }
  }

  lemma CountIsNoDigit(count: string, rest: string)
    requires IsCount(count) && rest != "" && rest[0] == ' '
    ensures count + rest != "" && !IsDigit((count + rest)[0])
  {
  }

  // Every such line is read as a header with these two numbers.
  lemma HeaderParses(left: string, leftCount: string, right: string, rightCount: string, tail: string)
    requires IsNumber(left) && IsCount(leftCount) && IsNumber(right) && IsCount(rightCount)
    ensures ParseHunk(HeaderText(left, leftCount, right, rightCount, tail)) == Some(Hunk(Value(left), Value(right)))
  {
    var end := " @@" + tail;
    var fromRightCount := rightCount + end;
    var fromPlus := " +" + (right + fromRightCount);
    var fromLeftCount := leftCount + fromPlus;
    hide SkipCount, DigitRun, Value;
    Cut("@@ -", left + fromLeftCount);
    CountIsNoDigit(leftCount, fromPlus);
    RunOfDigits(left, fromLeftCount);
    Cut(left, fromLeftCount);
    CountTaken(leftCount, fromPlus);
    Cut(" +", right + fromRightCount);
    CountIsNoDigit(rightCount, end);
    RunOfDigits(right, fromRightCount);
    Cut(right, fromRightCount);
    CountTaken(rightCount, end);
    Cut(" @@", tail);
  }

  // What SkipCount takes off is a count.
  lemma SkippedIsCount(s: string) returns (count: string)
    ensures IsCount(count) && s == count + SkipCount(s)
  {
    if s != "" && s[0] == ',' && DigitRun(s[1..]) > 0 {
      var n := 1 + DigitRun(s[1..]);
      count := s[..n];
      assert count[1..] == s[1..][..n - 1];
      TakeDrop(s, n);
    } else {
      count := "";
      assert s == count + s;
    }
  }

  lemma RunIsNumber(s: string)
    ensures AllDigits(s[..DigitRun(s)])
  {
  }

  // Nothing else is.
  lemma ParsesOnlyHeaders(line: string) returns (left: string, leftCount: string, right: string, rightCount: string, tail: string)
    requires ParseHunk(line).Some?
    ensures IsNumber(left) && IsCount(leftCount) && IsNumber(right) && IsCount(rightCount)
    ensures line == HeaderText(left, leftCount, right, rightCount, tail)
    ensures ParseHunk(line) == Some(Hunk(Value(left), Value(right)))
  {
    hide DigitRun, SkipCount, Value;
    var a := line[4..];
    left := a[..DigitRun(a)];
    RunIsNumber(a);
    var afterLeft := a[DigitRun(a)..];
    leftCount := SkippedIsCount(afterLeft);
    var b := SkipCount(afterLeft);
    var c := b[2..];
    right := c[..DigitRun(c)];
    RunIsNumber(c);
    var afterRight := c[DigitRun(c)..];
    rightCount := SkippedIsCount(afterRight);
    var d := SkipCount(afterRight);
    tail := d[3..];
    TakeDrop(line, 4);
    TakeDrop(a, DigitRun(a));
    TakeDrop(b, 2);
    TakeDrop(c, DigitRun(c));
    TakeDrop(d, 3);
    hide ParseHunk;
    assert line == "@@ -" + a && a == left + afterLeft && afterLeft == leftCount + b && b == " +" + c;
    assert c == right + afterRight && afterRight == rightCount + d && d == " @@" + tail;
  }

  ghost predicate IsHeader(line: string, a: nat, c: nat) {
    exists left: string, leftCount: string, right: string, rightCount: string, tail: string ::
      IsHeaderOf(line, left, leftCount, right, rightCount, tail) && Value(left) == a && Value(right) == c
  }

  predicate IsHeaderOf(line: string, left: string, leftCount: string, right: string, rightCount: string, tail: string) {
    && IsNumber(left) && IsCount(leftCount) && IsNumber(right) && IsCount(rightCount)
    && line == HeaderText(left, leftCount, right, rightCount, tail)
  }

  // A line is read as the header of a hunk exactly when it has this form; either
  // count may be omitted, and anything may follow.
  lemma HeadersExactly(line: string, a: nat, c: nat)
    ensures ParseHunk(line) == Some(Hunk(a, c)) <==> IsHeader(line, a, c)
  {
    hide ParseHunk, HeaderText, Value;
    if ParseHunk(line).Some? {
      var left, leftCount, right, rightCount, tail := ParsesOnlyHeaders(line);
      assert IsHeaderOf(line, left, leftCount, right, rightCount, tail);
    }
    if IsHeader(line, a, c) {
      var left, leftCount, right, rightCount, tail :|
        IsHeaderOf(line, left, leftCount, right, rightCount, tail) && Value(left) == a && Value(right) == c;
      HeaderParses(left, leftCount, right, rightCount, tail);
    }
  }

  // The text of a count that may be omitted.
  function CountText(count: Option<nat>): string {
    if count.None? then "" else "," + Dec(count.value)
  }

  // Headers as they are printed by git, with either count or none.
  lemma PrintedHeaders(a: nat, b: Option<nat>, c: nat, d: Option<nat>, tail: string)
    ensures ParseHunk("@@ -" + Dec(a) + CountText(b) + " +" + Dec(c) + CountText(d) + " @@" + tail) == Some(Hunk(a, c))
  {
    DecParses(a);
    DecParses(c);
    CountPrints(b);
    CountPrints(d);
    HeaderParses(Dec(a), CountText(b), Dec(c), CountText(d), tail);
    hide Dec, CountText, ParseHunk;
    HeaderRegroups(Dec(a), CountText(b), Dec(c), CountText(d), tail);
  }

  lemma CountPrints(count: Option<nat>)
    ensures IsCount(CountText(count))
  {
    if count.Some? {
      DecParses(count.value);
      assert CountText(count)[1..] == Dec(count.value);
    }
  }

  lemma HeaderRegroups(a: string, b: string, c: string, d: string, tail: string)
    ensures "@@ -" + a + b + " +" + c + d + " @@" + tail == HeaderText(a, b, c, d, tail)
  {
    var end := " @@" + tail;
    Assoc("@@ -" + a + b + " +" + c + d, " @@", tail);
    Assoc("@@ -" + a + b + " +" + c, d, end);
    Assoc("@@ -" + a + b + " +", c, d + end);
    Assoc("@@ -" + a + b, " +", c + (d + end));
    Assoc("@@ -" + a, b, " +" + (c + (d + end)));
    Assoc("@@ -", a, b + (" +" + (c + (d + end))));
  }

  // ----------------------------------------------------------- lines of a hunk

  // `+++` and `---` at the start of a line mark a file, not a change.
  predicate Adds(line: string) {
    |line| >= 1 && line[0] == '+' && !(|line| >= 3 && line[1] == '+' && line[2] == '+')
  }

  predicate Removes(line: string) {
    |line| >= 1 && line[0] == '-' && !(|line| >= 3 && line[1] == '-' && line[2] == '-')
  }

  predicate Stays(line: string) {
    |line| >= 1 && line[0] == ' '
  }

  predicate Cuts(line: string) {
    |line| >= 2 && line[0] == '@' && line[1] == '@'
  }

  // The last line before k that begins with `@@`.
  predicate IsLastCut(lines: seq<string>, h: nat, k: nat) {
    h < k <= |lines| && Cuts(lines[h]) && forall i | h < i < k :: !Cuts(lines[i])
  }

  // The lines between h and k that the old side has, and the new side.
  function OldSide(lines: seq<string>, h: nat, k: nat): set<nat>
    requires k <= |lines|
  {
    set i: nat | h < i < k && (Removes(lines[i]) || Stays(lines[i]))
  }

  function NewSide(lines: seq<string>, h: nat, k: nat): set<nat>
    requires k <= |lines|
  {
    set i: nat | h < i < k && (Adds(lines[i]) || Stays(lines[i]))
  }

  // Line k is in a hunk with these coordinates: the header's numbers and as many
  // more as lines of that side are in between.
  predicate IsAt(lines: seq<string>, h: nat, k: nat, at: Hunk)
    requires k <= |lines|
  {
    && IsLastCut(lines, h, k) && ParseHunk(lines[h]).Some?
    && at.oldStart == ParseHunk(lines[h]).value.oldStart + |OldSide(lines, h, k)|
    && at.newStart == ParseHunk(lines[h]).value.newStart + |NewSide(lines, h, k)|
  }

  // The coordinates in front of line k: those of the last header, moved on.
  ghost predicate IsCursor(lines: seq<string>, k: nat, cursor: Option<Hunk>)
    requires k <= |lines|
  {
    match cursor
    case Some(at) => exists h: nat :: IsAt(lines, h, k, at)
    case None => forall h: nat | IsLastCut(lines, h, k) :: ParseHunk(lines[h]).None?
  }

  lemma SidesStep(lines: seq<string>, h: nat, k: nat)
    requires h < k < |lines|
    ensures OldSide(lines, h, k + 1) ==
      OldSide(lines, h, k) + if Removes(lines[k]) || Stays(lines[k]) then {k} else {}
    ensures NewSide(lines, h, k + 1) == NewSide(lines, h, k) + if Adds(lines[k]) || Stays(lines[k]) then {k} else {}
    ensures k !in OldSide(lines, h, k) && k !in NewSide(lines, h, k)
  {
    hide Adds, Removes, Stays;
  }

  lemma NoSides(lines: seq<string>, k: nat)
    requires k < |lines|
    ensures OldSide(lines, k, k + 1) == {} && NewSide(lines, k, k + 1) == {}
  {
  }

  lemma KindsAre(line: string)
    ensures IsAdded(line) == Adds(line) && IsRemoved(line) == Removes(line) && IsContext(line) == Stays(line)
    ensures "@@" <= line <==> Cuts(line)
  {
    assert |line| >= 3 ==> ("+++" <= line <==> line[0] == '+' && line[1] == '+' && line[2] == '+');
    assert |line| >= 3 ==> ("---" <= line <==> line[0] == '-' && line[1] == '-' && line[2] == '-');
  }

  // One line on, the scanner's coordinates are again those counted from the header.
  lemma CursorStep(lines: seq<string>, k: nat, cursor: Option<Hunk>)
    requires k < |lines| && IsCursor(lines, k, cursor)
    ensures IsCursor(lines, k + 1, NextHunk(lines[k], cursor))
  {
    hide ParseHunk, Adds, Removes, Stays, Cuts, OldSide, NewSide, IsAdded, IsRemoved, IsContext;
    var line, next := lines[k], NextHunk(lines[k], cursor);
    KindsAre(line);
    KindsApart(line);
    if Cuts(line) {
      assert IsLastCut(lines, k, k + 1);
      NoSides(lines, k);
      if next.Some? {
        assert IsAt(lines, k, k + 1, next.value);
      }
    } else if cursor.Some? {
      var h: nat :| IsAt(lines, h, k, cursor.value);
      SidesStep(lines, h, k);
      assert IsAt(lines, h, k + 1, next.value);
    } else {
      assert forall h: nat | IsLastCut(lines, h, k + 1) :: IsLastCut(lines, h, k);
    }
  }

  lemma KindsApart(line: string)
    ensures !(Adds(line) && Removes(line)) && !(Adds(line) && Stays(line)) && !(Removes(line) && Stays(line))
    ensures Cuts(line) ==> !Adds(line) && !Removes(line) && !Stays(line)
  {
  }

  // ------------------------------------------------------------- every unit

  // Line k is in a hunk: the last `@@` line before it is a header.
  predicate InHunk(lines: seq<string>, h: nat, k: nat) {
    && k < |lines| && IsLastCut(lines, h, k) && ParseHunk(lines[h]).Some?
    && (Adds(lines[k]) || Removes(lines[k]) || Stays(lines[k]))
  }

  // The places of the lines in hunks, from line k on.
  ghost function Places(lines: seq<string>, k: nat): seq<nat>
    decreases |lines| - k
  {
    if k >= |lines| then []
    else (if exists h: nat :: InHunk(lines, h, k) then [k] else []) + Places(lines, k + 1)
  }

  // A unit is a line with its coordinates, its share of both sides, and its number
  // if it is an added line.
  ghost predicate IsUnit(lines: seq<string>, k: nat, u: HunkLine) {
    exists h: nat :: IsUnitOf(lines, h, k, u)
  }

  predicate IsUnitOf(lines: seq<string>, h: nat, k: nat, u: HunkLine) {
    && InHunk(lines, h, k) && IsAt(lines, h, k, Hunk(u.oldNo, u.newNo)) && u.text == lines[k]
    && u.oldCount == (if Adds(lines[k]) then 0 else 1) && u.newCount == (if Removes(lines[k]) then 0 else 1)
    && u.owned == if Adds(lines[k]) then Some(u.newNo) else None
  }

  lemma UnitIs(lines: seq<string>, k: nat, cursor: Option<Hunk>)
    requires k < |lines| && IsCursor(lines, k, cursor)
    ensures (exists h: nat :: InHunk(lines, h, k)) <==> |UnitHere(lines[k], cursor)| == 1
    ensures |UnitHere(lines[k], cursor)| <= 1
    ensures |UnitHere(lines[k], cursor)| == 1 ==> IsUnit(lines, k, UnitHere(lines[k], cursor)[0])
  {
    hide ParseHunk, Adds, Removes, Stays, Cuts, OldSide, NewSide, IsAdded, IsRemoved, IsContext;
    KindsAre(lines[k]);
    KindsApart(lines[k]);
    if cursor.Some? {
      var h: nat :| IsAt(lines, h, k, cursor.value);
      if Adds(lines[k]) || Removes(lines[k]) || Stays(lines[k]) {
        assert InHunk(lines, h, k);
        assert IsUnitOf(lines, h, k, UnitHere(lines[k], cursor)[0]);
      }
    }
  }

  ghost predicate AreUnits(lines: seq<string>, places: seq<nat>, units: seq<HunkLine>) {
    |units| == |places| && forall i | 0 <= i < |places| :: IsUnit(lines, places[i], units[i])
  }

  lemma {:induction false} UnitsFrom(lines: seq<string>, k: nat, cursor: Option<Hunk>)
    requires k <= |lines| && IsCursor(lines, k, cursor)
    ensures AreUnits(lines, Places(lines, k), Units(lines[k..], cursor))
    decreases |lines| - k
  {
    hide IsCursor, IsUnit, Units, UnitHere, NextHunk, InHunk;
    if k == |lines| {
      NoMoreUnits(lines, cursor);
    } else {
      UnitsStep(lines, k, cursor);
      UnitIs(lines, k, cursor);
      CursorStep(lines, k, cursor);
      UnitsFrom(lines, k + 1, NextHunk(lines[k], cursor));
      var here, rest := UnitHere(lines[k], cursor), Units(lines[k + 1..], NextHunk(lines[k], cursor));
      OneMoreUnit(lines, k, here, Places(lines, k + 1), rest);
    }
  }

  lemma OneMoreUnit(lines: seq<string>, k: nat, here: seq<HunkLine>, places: seq<nat>, rest: seq<HunkLine>)
    requires |here| <= 1 && (|here| == 1 ==> IsUnit(lines, k, here[0])) && AreUnits(lines, places, rest)
    ensures AreUnits(lines, (if |here| == 1 then [k] else []) + places, here + rest)
  {
    hide IsUnit;
  }

  // The units of a block are its lines in hunks, in order, with the numbers counted
  // from their header.
  lemma UnitsExactly(lines: seq<string>)
    ensures AreUnits(lines, Places(lines, 0), Units(lines, None))
  {
    assert lines[0..] == lines;
    UnitsFrom(lines, 0, None);
  }

  // ------------------------------------------------------------- every added line

  // Line k is an added line of this number: its header begins at c on the new side,
  // and the rest is counted.
  ghost predicate IsNumbered(lines: seq<string>, h: nat, k: nat, n: nat) {
    && k < |lines| && Adds(lines[k]) && IsLastCut(lines, h, k)
    && exists a: nat, c: nat :: IsHeader(lines[h], a, c) && n == c + |NewSide(lines, h, k)|
  }

  ghost predicate HasNumber(lines: seq<string>, n: nat) {
    exists h: nat, k: nat :: IsNumbered(lines, h, k, n)
  }

  lemma NumberIs(lines: seq<string>, h: nat, k: nat, n: nat)
    ensures IsNumbered(lines, h, k, n) <==>
      && InHunk(lines, h, k) && Adds(lines[k]) && n == ParseHunk(lines[h]).value.newStart + |NewSide(lines, h, k)|
  {
    hide ParseHunk, IsHeader, Adds, Removes, Stays, Cuts, NewSide;
    if k < |lines| && IsLastCut(lines, h, k) {
      forall a: nat, c: nat ensures ParseHunk(lines[h]) == Some(Hunk(a, c)) <==> IsHeader(lines[h], a, c) {
        HeadersExactly(lines[h], a, c);
      }
      if ParseHunk(lines[h]).Some? {
        var hunk := ParseHunk(lines[h]).value;
        assert ParseHunk(lines[h]) == Some(Hunk(hunk.oldStart, hunk.newStart));
        assert IsHeader(lines[h], hunk.oldStart, hunk.newStart);
      }
    }
  }

  lemma {:induction false} OwnedAt(units: seq<HunkLine>, n: nat)
    ensures n in OwnedBy(units) <==> exists i :: 0 <= i < |units| && units[i].owned == Some(n)
  {
    if units != [] {
      var rest := units[1..];
      OwnedAt(rest, n);
      if i :| 0 <= i < |units| && units[i].owned == Some(n) {
        assert i > 0 ==> rest[i - 1] == units[i];
      }
      if i :| 0 <= i < |rest| && rest[i].owned == Some(n) {
        assert units[i + 1] == rest[i];
      }
    }
  }

  lemma {:induction false} PlacesAre(lines: seq<string>, from: nat, k: nat)
    requires from <= |lines|
    ensures k in Places(lines, from) <==> from <= k && exists h: nat :: InHunk(lines, h, k)
    decreases |lines| - from
  {
    hide IsLastCut, ParseHunk, Adds, Removes, Stays;
    if from < |lines| {
      PlacesAre(lines, from + 1, k);
    }
  }

  lemma OneCut(lines: seq<string>, h: nat, i: nat, k: nat)
    requires IsLastCut(lines, h, k) && IsLastCut(lines, i, k)
    ensures h == i
  {
    hide Cuts;
  }

  // The numbers that the scanner finds are exactly those of the added lines.
  lemma NumbersExactly(lines: seq<string>, n: nat)
    ensures n in AddedLines(lines, None) <==> HasNumber(lines, n)
  {
    hide ParseHunk, IsHeader, Adds, Removes, Stays, Cuts, NewSide, OldSide, AddedLines, Units, Places, OwnedBy, InHunk;
    var units, places := Units(lines, None), Places(lines, 0);
    UnitsOwnAddedLines(lines, None);
    UnitsExactly(lines);
    OwnedAt(units, n);
    if i :| 0 <= i < |units| && units[i].owned == Some(n) {
      var h: nat :| IsUnitOf(lines, h, places[i], units[i]);
      NumberIs(lines, h, places[i], n);
    }
    if HasNumber(lines, n) {
      var h: nat, k: nat :| IsNumbered(lines, h, k, n);
      NumberIs(lines, h, k, n);
      PlacesAre(lines, 0, k);
      var i :| 0 <= i < |places| && places[i] == k;
      var g: nat :| IsUnitOf(lines, g, k, units[i]);
      OneCut(lines, g, h, k) by { InHunkCut(lines, g, k); InHunkCut(lines, h, k); }
      assert units[i].owned == Some(n);
    }
  }

  lemma InHunkCut(lines: seq<string>, h: nat, k: nat)
    requires InHunk(lines, h, k)
    ensures IsLastCut(lines, h, k)
  {
  }

  // ------------------------------------------------------------------- blocks

  // `diff --git ` and at least one more character.
  predicate StartsFile(line: string) {
    |line| >= 12 && line[..11] == "diff --git " && line[11] != '\n'
  }

  lemma FileHeaderIs(line: string)
    requires IsLine(line)
    ensures IsFileHeader(line) <==> StartsFile(line)
  {
    assert |line| > 12 ==> line[..|line| - 1][11] == line[11];
  }

  function Flatten<T>(groups: seq<seq<T>>): seq<T> {
    if groups == [] then [] else groups[0] + Flatten(groups[1..])
  }

  // Cut in front of every file header, and nowhere else.
  predicate CutAtHeaders(groups: seq<seq<string>>, lines: seq<string>) {
    && Flatten(groups) == lines
    && (forall i | 0 <= i < |groups| :: groups[i] != [])
    && (forall i, j | 0 <= i < |groups| && 0 < j < |groups[i]| :: !StartsFile(groups[i][j]))
    && (forall i | 0 < i < |groups| :: StartsFile(groups[i][0]))
  }

  lemma {:induction false} GroupsCut(lines: seq<string>)
    requires forall l <- lines :: IsLine(l)
    ensures CutAtHeaders(Groups(lines), lines)
    ensures lines != [] ==> Groups(lines) != [] && Groups(lines)[0][0] == lines[0]
    decreases |lines|
  {
    hide IsLine, StartsFile, BodyLength, CutAtHeaders;
    if lines == [] {
      assert CutAtHeaders([], []) by { NothingCut(); }
    } else {
      var n := 1 + BodyLength(lines[1..]);
      FirstCut(lines);
      GroupsUnfold(lines);
      hide Groups;
      var rest := lines[n..];
      GroupsCut(rest);
      assert forall j | 0 < j < n :: lines[..n][j] == lines[j];
      CutCons(lines[..n], Groups(rest), rest);
    }
  }

  lemma NothingCut()
    ensures CutAtHeaders([], [])
  {
  }

  lemma CutCons(first: seq<string>, more: seq<seq<string>>, rest: seq<string>)
    requires CutAtHeaders(more, rest) && first != [] && forall j | 0 < j < |first| :: !StartsFile(first[j])
    requires rest != [] ==> StartsFile(rest[0]) && more != [] && more[0] != [] && more[0][0] == rest[0]
    ensures CutAtHeaders([first] + more, first + rest)
  {
    hide StartsFile;
    var groups := [first] + more;
    assert groups[1..] == more;
    assert forall i | 0 < i < |groups| :: groups[i] == more[i - 1];
    if rest == [] {
      assert more == [] by { NothingFlat(more); }
    }
  }

  lemma NothingFlat(groups: seq<seq<string>>)
    requires Flatten(groups) == [] && forall i | 0 <= i < |groups| :: groups[i] != []
    ensures groups == []
  {
  }

  lemma FirstCut(lines: seq<string>)
    requires lines != [] && forall l <- lines :: IsLine(l)
    ensures var n := 1 + BodyLength(lines[1..]);
      && (forall j | 0 < j < n :: !StartsFile(lines[j])) && (n < |lines| ==> StartsFile(lines[n]))
  {
    hide IsLine, StartsFile, IsFileHeader;
    var n := 1 + BodyLength(lines[1..]);
    forall j | 0 <= j < |lines| ensures IsFileHeader(lines[j]) <==> StartsFile(lines[j]) {
      FileHeaderIs(lines[j]);
    }
    assert forall j | 0 < j < |lines| :: lines[1..][j - 1] == lines[j];
  }

  // The blocks of a diff are its lines, cut in front of every file header.
  lemma BlocksExactly(diff: string)
    ensures CutAtHeaders(Groups(Lines(diff)), Lines(diff))
  {
    LinesAreWellCut(diff);
    GroupsCut(Lines(diff));
  }

  // Line n of a file is found as added exactly when some block of that file has an
  // added line that counting from its hunk header numbers so.
  lemma KeysExactly(target: string -> string, diff: string, path: string, n: nat)
    ensures (path, n) in Keys(target, diff) <==>
      path != "" && exists g <- Groups(Lines(diff)) ::
        g != [] && StartsFile(g[0]) && target(Chomp(g[0])) == path && HasNumber(g, n)
  {
    hide HasNumber, AddedLines, StartsFile, IsFileHeader, Chomp, Groups, Lines, IsLine;
    LinesAreWellCut(diff);
    BlocksExactly(diff);
    var groups := Groups(Lines(diff));
    KeysInGroups(target, groups, (path, n));
    forall g <- groups ensures g != [] && (IsFileHeader(g[0]) <==> StartsFile(g[0])) {
      GroupLine(groups, Lines(diff), g);
      FileHeaderIs(g[0]);
    }
    forall g <- groups
      ensures (path, n) in GroupKeys(target, g) <==>
        path != "" && StartsFile(g[0]) && target(Chomp(g[0])) == path && HasNumber(g, n)
    {
      NumbersExactly(g, n);
      TagHas(PathOf(target, g), AddedLines(g, None), path, n);
    }
  }

  lemma TagHas(path: string, numbers: seq<nat>, p: string, n: nat)
    ensures (p, n) in Tag(path, numbers) <==> path != "" && p == path && n in numbers
  {
    if path != "" && n in numbers {
      var i :| 0 <= i < |numbers| && numbers[i] == n;
      assert Tag(path, numbers)[i] == (path, n);
    }
  }

  lemma GroupLine(groups: seq<seq<string>>, lines: seq<string>, g: seq<string>)
    requires CutAtHeaders(groups, lines) && g in groups && WellCut(lines)
    ensures g != [] && IsLine(g[0])
  {
    hide StartsFile, IsLine;
    var i :| 0 <= i < |groups| && groups[i] == g;
    InFlatten(groups, i, 0);
  }

  lemma {:induction false} InFlatten<T>(groups: seq<seq<T>>, i: nat, j: nat)
    requires i < |groups| && j < |groups[i]|
    ensures groups[i][j] in Flatten(groups)
  {
    if i > 0 {
      InFlatten(groups[1..], i - 1, j);
    }
  }

  lemma {:induction false} KeysInGroups(target: string -> string, groups: seq<seq<string>>, key: Key)
    ensures key in KeysOfGroups(target, groups) <==> exists g <- groups :: key in GroupKeys(target, g)
  {
    hide GroupKeys;
    if groups != [] {
      KeysInGroups(target, groups[1..], key);
      assert groups == [groups[0]] + groups[1..];
    }
  }
}
