// The chunker prints what the scanner reads: scanning the text of a chunk gives
// back exactly the lines the chunk owns, continuation hunks and truncated lines
// included.
module DiffRoundTrip {
  import opened Text
  import opened DiffFilter
  import opened DiffChunks
  import opened DiffOwnership

  // -------------------------------------------------- hunk headers print and parse

  lemma HunkRoundTrip(a: nat, b: nat, c: nat, d: nat)
    ensures ParseHunk(PrintHunk(a, b, c, d)) == Some(Hunk(a, c))
  {
    var tail := " @@ continued\n";
    var fromCount2 := "," + (Dec(d) + tail);
    var fromNew := Dec(c) + fromCount2;
    var fromPlus := " +" + fromNew;
    var fromCount1 := "," + (Dec(b) + fromPlus);
    var line := PrintHunk(a, b, c, d);
    assert line == "@@ -" + (Dec(a) + fromCount1);
    hide PrintHunk;
    DecParses(a);
    DecParses(b);
    DecParses(c);
    DecParses(d);
    hide Dec;
    Cut("@@ -", Dec(a) + fromCount1);
    RunOfDigits(Dec(a), fromCount1);
    Cut(Dec(a), fromCount1);
    CountSkipped(Dec(b), fromPlus);
    Cut(" +", fromNew);
    RunOfDigits(Dec(c), fromCount2);
    Cut(Dec(c), fromCount2);
    CountSkipped(Dec(d), tail);
    assert " @@" <= tail;
  }

  lemma Cut<T>(a: seq<T>, b: seq<T>)
    ensures a <= a + b && (a + b)[|a|..] == b && (a + b)[..|a|] == a
  {
  }

  lemma CountSkipped(digits: string, rest: string)
    requires digits != "" && AllDigits(digits) && rest != "" && !IsDigit(rest[0])
    ensures SkipCount("," + (digits + rest)) == rest
  {
    RunOfDigits(digits, rest);
    Cut(",", digits + rest);
    Cut(digits, rest);
    assert ("," + (digits + rest))[1 + |digits|..] == (digits + rest)[|digits|..];
  }

  // ------------------------------------------------------------ well-made units

  predicate Sane(u: HunkLine) {
    && IsLine(u.text)
    && var at := Hunk(u.oldNo, u.newNo);
       || (IsAdded(u.text) && u == AddedUnit(u.text, at))
       || (IsRemoved(u.text) && u == RemovedUnit(u.text, at))
       || (IsContext(u.text) && u == ContextUnit(u.text, at))
  }

  // Units that can be printed one after the other.
  predicate Stacked(units: seq<HunkLine>) {
    && (forall i | 0 <= i < |units| :: Sane(units[i]))
    && (forall i | 0 <= i < |units| - 1 :: EndsLine(units[i].text))
  }

  predicate Chain(units: seq<HunkLine>) {
    forall i | 0 <= i < |units| - 1 :: Follows(units[i + 1], units[i])
  }

  lemma {:induction false} UnitsStacked(lines: seq<string>, cursor: Option<Hunk>)
    requires WellCut(lines)
    ensures Stacked(Units(lines, cursor))
    ensures lines != [] && EndsLine(lines[|lines| - 1]) && Units(lines, cursor) != [] ==>
      EndsLine(Units(lines, cursor)[|Units(lines, cursor)| - 1].text)
  {
    hide ParseHunk, Stacked, EndsLine, IsLine, UnitHere, NextHunk, WellCut;
    if lines == [] {
      NoneStacked();
    } else {
      WellCutTail(lines);
      var next := NextHunk(lines[0], cursor);
      var here, rest := UnitHere(lines[0], cursor), Units(lines[1..], next);
      UnitsStacked(lines[1..], next);
      UnitHereSane(lines[0], cursor);
      if here == [] {
        ConcatNone(rest);
      } else {
        assert here == [here[0]];
        if |lines| == 1 {
          NoLinesNoUnits(next);
        }
        StackOne(here[0], rest);
      }
    }
  }

  lemma WellCutTail(lines: seq<string>)
    requires WellCut(lines) && lines != []
    ensures WellCut(lines[1..]) && IsLine(lines[0]) && (|lines| > 1 ==> EndsLine(lines[0]))
  {
    hide IsLine, EndsLine;
  }

  lemma UnitHereSane(line: string, cursor: Option<Hunk>)
    requires IsLine(line)
    ensures |UnitHere(line, cursor)| <= 1
    ensures forall u <- UnitHere(line, cursor) :: Sane(u) && u.text == line
  {
  }

  lemma NoneStacked()
    ensures Stacked([])
  {
  }

  lemma StackOne(u: HunkLine, rest: seq<HunkLine>)
    requires Sane(u) && Stacked(rest) && (rest == [] || EndsLine(u.text))
    ensures Stacked([u] + rest)
    ensures ([u] + rest)[|rest|] == if rest == [] then u else rest[|rest| - 1]
  {
    hide Sane, EndsLine;
  }

  lemma NoLinesNoUnits(cursor: Option<Hunk>)
    ensures Units([], cursor) == []
  {
  }

  // Scanning printed units gives back the lines they own.
  lemma {:induction false} ScanUnits(units: seq<HunkLine>)
    requires units != [] && Chain(units) && forall i | 0 <= i < |units| :: Sane(units[i])
    ensures AddedLines(Texts(units), Some(units[0].newNo)) == OwnedBy(units)
  {
    hide AddedHere, NextNew, Sane, Chain, Texts;
    var u, rest := units[0], units[1..];
    TextsTail(units);
    ScanOne(u);
    if rest == [] {
      NoTexts();
    } else {
      ChainTail(units);
      ScanUnits(rest);
    }
  }

  lemma TextsTail(units: seq<HunkLine>)
    requires units != []
    ensures Texts(units) != [] && Texts(units)[0] == units[0].text && Texts(units)[1..] == Texts(units[1..])
  {
  }

  lemma NoTexts()
    ensures Texts([]) == []
  {
  }

  lemma ChainTail(units: seq<HunkLine>)
    requires |units| > 1 && Chain(units)
    ensures Chain(units[1..]) && Follows(units[1], units[0])
  {
    var rest := units[1..];
    hide Follows;
    forall i | 0 <= i < |rest| - 1 ensures Follows(rest[i + 1], rest[i]) {
      assert Follows(units[i + 2], units[i + 1]);
    }
    assert Follows(units[0 + 1], units[0]);
  }

  lemma ScanOne(u: HunkLine)
    requires Sane(u)
    ensures AddedHere(u.text, Some(u.newNo)) == if u.owned.Some? then [u.owned.value] else []
    ensures NextNew(u.text, Some(u.newNo)) == Some(u.newNo + u.newCount)
  {
    hide ParseHunk;
    Kind(u.text);
  }

  // --------------------------------------------------------- truncated units

  predicate SameKind(a: string, b: string) {
    && (IsAdded(a) ==> IsAdded(b))
    && (IsRemoved(a) ==> IsRemoved(b))
    && (IsContext(a) ==> IsContext(b))
  }

  // The kind of a line depends on its first three characters.
  lemma Kind(t: string)
    ensures IsAdded(t) <==> t != "" && t[0] == '+' && !(|t| >= 3 && t[1] == '+' && t[2] == '+')
    ensures IsRemoved(t) <==> t != "" && t[0] == '-' && !(|t| >= 3 && t[1] == '-' && t[2] == '-')
    ensures IsContext(t) <==> t != "" && t[0] == ' '
  {
    assert |t| >= 3 ==> ("+++" <= t <==> t[0] == "+++"[0] && t[1] == "+++"[1] && t[2] == "+++"[2]);
    assert |t| >= 3 ==> ("---" <= t <==> t[0] == "---"[0] && t[1] == "---"[1] && t[2] == "---"[2]);
  }

  lemma ShortenedLine(text: string, room: int)
    requires IsLine(text) && text[0] in "+- " && room >= 1
    ensures IsLine(Shorten(text, room)) && SameKind(text, Shorten(text, room))
  {
    if room <= 1 + |MARKER| {
      ShortStub(text, room);
    } else {
      BodyHasNoBreak(text, room - 1 - |MARKER|);
      MarkedLine(text, Chomp(Take(text[1..], room - 1 - |MARKER|)));
    }
  }

  lemma ShortStub(text: string, room: int)
    requires IsLine(text) && text[0] in "+- " && 1 <= room <= 1 + |MARKER|
    ensures IsLine(Shorten(text, room)) && SameKind(text, Shorten(text, room))
  {
    var t := Shorten(text, room);
    var full := [text[0], '\U{2026}', '\n'];
    assert text[..1] + "\U{2026}\n" == full;
    assert t == if room == 1 then [text[0]] else if room == 2 then [text[0], '\U{2026}'] else full;
    Kind(text);
    Kind(t);
    hide IsAdded, IsRemoved, IsContext, Shorten;
  }

  // The marker starts with a space, so it cannot complete a `+++` or `---`.
  lemma MarkedLine(text: string, body: string)
    requires text != "" && body <= text[1..] && '\n' !in body && text[0] in "+- "
    ensures IsLine(text[..1] + body + MARKER) && SameKind(text, text[..1] + body + MARKER)
  {
    assert MARKER[0] == ' ' && IsLine(MARKER);
    EndLine(text[..1] + body, MARKER);
    KindKept(text, body, MARKER);
  }

  lemma EndLine(a: string, line: string)
    requires '\n' !in a && IsLine(line)
    ensures IsLine(a + line)
  {
    assert (a + line)[..|a + line| - 1] == a + line[..|line| - 1];
  }

  lemma KindKept(text: string, body: string, rest: string)
    requires text != "" && body <= text[1..] && rest != "" && rest[0] == ' '
    ensures SameKind(text, text[..1] + body + rest)
  {
    var t := text[..1] + body + rest;
    Kind(text);
    Kind(t);
    hide IsAdded, IsRemoved, IsContext;
    assert t[0] == text[0];
    assert |body| >= 1 ==> t[1] == text[1];
    assert |body| >= 2 ==> t[2] == text[2];
    assert |body| == 0 ==> t[1] == ' ';
    assert |body| == 1 ==> t[2] == ' ';
  }

  lemma TruncatedIsSane(prefix: string, u: HunkLine, budget: nat)
    requires Sane(u) && |prefix| + |HunkOf([u])| < budget
    ensures Sane(Truncate(prefix, u, budget))
  {
    SaneSigil(u);
    ShortenedLine(u.text, budget - |prefix + HunkOf([u])|);
    hide Shorten, HunkOf, IsLine, IsAdded, IsRemoved, IsContext;
  }

  lemma SaneSigil(u: HunkLine)
    requires Sane(u)
    ensures u.text[0] in "+- "
  {
  }

  lemma BodyHasNoBreak(text: string, k: nat)
    requires IsLine(text)
    ensures '\n' !in Chomp(Take(text[1..], k))
    ensures Chomp(Take(text[1..], k)) <= text[1..]
  {
    var rest := text[1..];
    assert forall i | 0 <= i < |rest| - 1 :: rest[i] == text[..|text| - 1][i + 1];
  }

  // ------------------------------------------------------ the hunks of a block

  // What a group of units looks like when the splitter closes it.
  predicate Printable(units: seq<HunkLine>) {
    units != [] && Chain(units) && Stacked(units)
  }

  // A unit whose header alone fills the budget, and which is printed blank.
  predicate Blanked(prefix: string, budget: nat, group: seq<HunkLine>, units: seq<HunkLine>) {
    && |group| == 1 && group[0].text == ""
    && exists u <- units :: u.text != "" && |prefix| + |HunkOf([u])| >= budget && group == [Truncate(prefix, u, budget)]
  }

  predicate Closed(prefix: string, budget: nat, group: seq<HunkLine>)
    requires group != []
  {
    EndsLine(group[|group| - 1].text) || |Render(prefix, group)| >= budget
  }

  // The state of the splitting loop. `loose`: the block ends without a newline.
  predicate Current(prefix: string, budget: nat, current: seq<HunkLine>, units: seq<HunkLine>, all: seq<HunkLine>, loose: bool) {
    && (current == [] || Printable(current) || Blanked(prefix, budget, current, all))
    && (current == [] || (units == [] && loose) || Closed(prefix, budget, current))
  }

  lemma RenderGrows(prefix: string, a: seq<HunkLine>, u: HunkLine)
    requires a != []
    ensures |Render(prefix, a + [u])| >= |Render(prefix, a)| + |u.text|
  {
    CountsGrow(a, u);
    DecGrows(OldCount(a), OldCount(a + [u]));
    DecGrows(NewCount(a), NewCount(a + [u]));
    JoinConcat(Texts(a), [u.text]);
    OneLine(u.text);
    assert Texts(a + [u]) == Texts(a) + [u.text];
    hide OldCount, NewCount, Dec, Join, Texts;
    assert (a + [u])[0] == a[0];
  }

  lemma OneLine(line: string)
    ensures Join([line]) == line
  {
    assert [line][1..] == [];
    ConcatNone(line);
    assert Join([line]) == line + Join([]);
  }

  lemma {:induction false} CountsGrow(a: seq<HunkLine>, u: HunkLine)
    ensures OldCount(a + [u]) == OldCount(a) + u.oldCount
    ensures NewCount(a + [u]) == NewCount(a) + u.newCount
  {
    if a == [] {
      assert [u][1..] == [];
      ConcatNone([u]);
    } else {
      CountsGrow(a[1..], u);
      ConcatTail(a, [u]);
    }
  }

  // A group that takes one more unit stays printable.
  lemma Extend(prefix: string, budget: nat, kept: seq<HunkLine>, u: HunkLine, units: seq<HunkLine>, all: seq<HunkLine>, loose: bool)
    requires Current(prefix, budget, kept, units, all, loose) && units != [] && Sane(u)
    requires kept != [] ==> Follows(u, kept[|kept| - 1])
    requires |Render(prefix, kept + [u])| <= budget
    ensures Printable(kept + [u])
  {
    hide Sane, Follows;
    if kept == [] {
      ConcatNone([u]);
    } else {
      RenderGrows(prefix, kept, u);
      SaneNotEmpty(u);
      hide Render;
      assert !(|Render(prefix, kept)| >= budget);
      assert EndsLine(kept[|kept| - 1].text);
      ChainPush(kept, u);
    }
  }

  lemma SaneNotEmpty(u: HunkLine)
    requires Sane(u)
    ensures u.text != ""
  {
  }

  lemma ChainPush(a: seq<HunkLine>, u: HunkLine)
    requires a != [] && Chain(a) && Follows(u, a[|a| - 1])
    ensures Chain(a + [u])
  {
    hide Follows;
    forall i | 0 <= i < |a| ensures Follows((a + [u])[i + 1], (a + [u])[i]) {
      if i < |a| - 1 {
        assert Follows(a[i + 1], a[i]);
      }
    }
  }

  lemma FittedCurrent(prefix: string, budget: nat, u: HunkLine, rest: seq<HunkLine>, all: seq<HunkLine>, loose: bool)
    requires Sane(u) && u in all && ((rest == [] && loose) || EndsLine(u.text))
    ensures Current(prefix, budget, [Fit(prefix, u, budget)], rest, all, loose)
  {
    SaneNotEmpty(u);
    RenderLength(prefix, u);
    if |Render(prefix, [u])| > budget {
      hide Sane, Render, HunkOf, EndsLine;
      if |prefix| + |HunkOf([u])| >= budget {
        BlankedUnit(prefix, budget, u, all);
      } else {
        StubbedUnit(prefix, budget, u);
      }
    }
  }

  lemma SameHunk(u: HunkLine, text: string)
    ensures HunkOf([u.(text := text)]) == HunkOf([u])
  {
    assert [u][1..] == [] && [u.(text := text)][1..] == [];
  }

  lemma BlankedUnit(prefix: string, budget: nat, u: HunkLine, all: seq<HunkLine>)
    requires u.text != "" && u in all && |prefix| + |HunkOf([u])| >= budget
    ensures Blanked(prefix, budget, [Truncate(prefix, u, budget)], all)
    ensures Closed(prefix, budget, [Truncate(prefix, u, budget)])
  {
    BlankText(u.text, budget - |prefix + HunkOf([u])|);
    RenderLength(prefix, Truncate(prefix, u, budget));
    SameHunk(u, "");
    hide Shorten, HunkOf, Render;
  }

  lemma StubbedUnit(prefix: string, budget: nat, u: HunkLine)
    requires Sane(u) && u.text != "" && |prefix| + |HunkOf([u])| < budget
    ensures Printable([Truncate(prefix, u, budget)])
    ensures Closed(prefix, budget, [Truncate(prefix, u, budget)])
  {
    TruncatedIsSane(prefix, u, budget);
    StubFills(u.text, budget - |prefix + HunkOf([u])|);
    RenderLength(prefix, Truncate(prefix, u, budget));
    SameHunk(u, Truncate(prefix, u, budget).text);
    hide Shorten, HunkOf, Render, Sane;
  }

  lemma BlankText(text: string, room: int)
    requires text != "" && room <= 0
    ensures Shorten(text, room) == ""
  {
  }

  lemma StubFills(text: string, room: int)
    requires text != "" && room >= 1
    ensures EndsLine(Shorten(text, room)) || |Shorten(text, room)| == room
  {
    if room > 1 + |MARKER| {
      assert EndsLine(MARKER);
      hide Take, Chomp;
    } else if room >= 3 {
      var sigil := if text[0] in "+- " then text[..1] else " ";
      assert sigil + "\U{2026}\n" == [sigil[0], '\U{2026}', '\n'];
    }
  }

  predicate Ready(units: seq<HunkLine>, loose: bool) {
    && Stacked(units)
    && (units != [] && !loose ==> EndsLine(units[|units| - 1].text))
  }

  predicate GoodGroup(prefix: string, budget: nat, group: seq<HunkLine>, all: seq<HunkLine>) {
    Printable(group) || Blanked(prefix, budget, group, all)
  }

  predicate GoodSplit(prefix: string, budget: nat, groups: seq<seq<HunkLine>>, all: seq<HunkLine>, loose: bool)
    requires forall i | 0 <= i < |groups| :: groups[i] != []
  {
    forall i | 0 <= i < |groups| ::
      && GoodGroup(prefix, budget, groups[i], all)
      && (Closed(prefix, budget, groups[i]) || (loose && i == |groups| - 1))
  }

  lemma GoodCons(prefix: string, budget: nat, first: seq<HunkLine>, rest: seq<seq<HunkLine>>, all: seq<HunkLine>, loose: bool)
    requires first != [] && forall i | 0 <= i < |rest| :: rest[i] != []
    requires GoodGroup(prefix, budget, first, all) && Closed(prefix, budget, first)
    requires GoodSplit(prefix, budget, rest, all, loose)
    ensures GoodSplit(prefix, budget, [first] + rest, all, loose)
  {
    hide GoodGroup, Closed;
  }

  lemma {:induction false} SplitIsGood(
      prefix: string, budget: nat, current: seq<HunkLine>, units: seq<HunkLine>, all: seq<HunkLine>, loose: bool)
    requires Ready(units, loose) && (forall u <- units :: u in all && u.text != "")
    requires Current(prefix, budget, current, units, all, loose)
    ensures GoodSplit(prefix, budget, Split(prefix, budget, current, units), all, loose)
    decreases |units|
  {
    hide Render, Sane, Follows, Fit, HunkOf, EndsLine, Chain, Stacked, Blanked, GoodSplit;
    if units == [] {
      LastGroup(prefix, budget, current, all, loose);
    } else {
      var unit, rest := units[0], units[1..];
      ReadyTail(units, loose);
      var broken := Breaks(current, unit);
      var kept := if broken then [] else current;
      if |Render(prefix, kept + [unit])| <= budget {
        Extend(prefix, budget, kept, unit, units, all, loose);
        LastOf(kept, unit);
        SplitIsGood(prefix, budget, kept + [unit], rest, all, loose);
        if broken {
          GoodCons(prefix, budget, current, Split(prefix, budget, kept + [unit], rest), all, loose);
        } else {
          ConcatNone(Split(prefix, budget, kept + [unit], rest));
        }
      } else {
        FittedCurrent(prefix, budget, unit, rest, all, loose);
        SplitIsGood(prefix, budget, [Fit(prefix, unit, budget)], rest, all, loose);
        var tail := Split(prefix, budget, [Fit(prefix, unit, budget)], rest);
        ConcatNone(tail);
        if current != [] {
          GoodCons(prefix, budget, current, tail, all, loose);
        }
        ConcatNone([current] + tail);
        Assoc([current], [], tail);
      }
    }
  }

  lemma LastGroup(prefix: string, budget: nat, current: seq<HunkLine>, all: seq<HunkLine>, loose: bool)
    requires Current(prefix, budget, current, [], all, loose)
    ensures GoodSplit(prefix, budget, One(current), all, loose)
  {
    hide Printable, Blanked, Closed;
  }

  lemma LastOf(a: seq<HunkLine>, u: HunkLine)
    ensures (a + [u])[|a + [u]| - 1] == u
  {
  }

  lemma ReadyTail(units: seq<HunkLine>, loose: bool)
    requires Ready(units, loose) && units != []
    ensures Ready(units[1..], loose) && Sane(units[0])
    ensures (units[1..] == [] && loose) || EndsLine(units[0].text)
  {
    hide Sane, EndsLine;
  }

  // ----------------------------------------------------- reading a piece back

  lemma {:induction false} DecHasNoBreak(n: nat)
    ensures '\n' !in Dec(n)
  {
    DecParses(n);
    assert forall i | 0 <= i < |Dec(n)| :: IsDigit(Dec(n)[i]);
    hide Dec;
  }

  lemma HunkIsLine(a: nat, b: nat, c: nat, d: nat)
    ensures IsLine(PrintHunk(a, b, c, d)) && EndsLine(PrintHunk(a, b, c, d)) && "@@" <= PrintHunk(a, b, c, d)
  {
    DecHasNoBreak(a);
    DecHasNoBreak(b);
    DecHasNoBreak(c);
    DecHasNoBreak(d);
    var tail := " @@ continued\n";
    var fromCount2 := "," + (Dec(d) + tail);
    var fromPlus := " +" + (Dec(c) + fromCount2);
    var fromCount1 := "," + (Dec(b) + fromPlus);
    assert PrintHunk(a, b, c, d) == "@@ -" + (Dec(a) + fromCount1);
    hide Dec, PrintHunk;
    assert IsLine(tail) && EndsLine(tail);
    EndBoth(Dec(d), tail);
    EndBoth(",", Dec(d) + tail);
    EndBoth(Dec(c), fromCount2);
    EndBoth(" +", Dec(c) + fromCount2);
    EndBoth(Dec(b), fromPlus);
    EndBoth(",", Dec(b) + fromPlus);
    EndBoth(Dec(a), fromCount1);
    EndBoth("@@ -", Dec(a) + fromCount1);
  }

  lemma EndBoth(a: string, line: string)
    requires '\n' !in a && IsLine(line) && EndsLine(line)
    ensures IsLine(a + line) && EndsLine(a + line)
  {
    EndLine(a, line);
  }

  lemma HeaderIsLine(display: string)
    requires '\n' !in display
    ensures IsLine(HeaderFor(display)) && EndsLine(HeaderFor(display)) && IsFileHeader(HeaderFor(display))
  {
    var line := HeaderFor(display);
    assert line[..|line| - 1] == "diff --git a/" + display + " b/" + display;
  }

  lemma {:induction false} NoHeaders(lines: seq<string>)
    requires forall l <- lines :: !IsFileHeader(l)
    ensures BodyLength(lines) == |lines|
  {
    hide IsFileHeader;
    if lines != [] {
      NoHeaders(lines[1..]);
    }
  }

  // The lines of a printed hunk.
  function Printed(prefix: string, units: seq<HunkLine>, texts: seq<string>): seq<string>
    requires units != []
  {
    [prefix, HunkOf(units)] + texts
  }

  predicate PlainTexts(texts: seq<string>) {
    WellCut(texts) && forall t <- texts :: !IsFileHeader(t)
  }

  lemma PrintedIsBlock(display: string, units: seq<HunkLine>, texts: seq<string>)
    requires units != [] && '\n' !in display && PlainTexts(texts)
    ensures IsBlock(Printed(HeaderFor(display), units, texts))
    ensures Join(Printed(HeaderFor(display), units, texts)) == HeaderFor(display) + HunkOf(units) + Join(texts)
  {
    HeaderIsLine(display);
    HunkIsLine(units[0].oldNo, OldCount(units), units[0].newNo, NewCount(units));
    assert !IsFileHeader(HunkOf(units));
    hide HeaderFor, HunkOf, IsFileHeader, IsLine, EndsLine, Join, IsBlock, PlainTexts;
    BlockOf(HeaderFor(display), HunkOf(units), texts);
  }

  lemma BlockOf(a: string, b: string, texts: seq<string>)
    requires IsLine(a) && EndsLine(a) && IsLine(b) && EndsLine(b) && !IsFileHeader(b) && PlainTexts(texts)
    ensures IsBlock([a, b] + texts)
    ensures Join([a, b] + texts) == a + b + Join(texts)
  {
    hide IsFileHeader, IsLine, EndsLine, Join;
    assert ([a, b] + texts)[1..] == [b] + texts;
    NoHeaders([b] + texts);
    JoinConcat([a, b], texts);
    JoinTwo(a, b);
  }

  lemma JoinTwo(a: string, b: string)
    ensures Join([a, b]) == a + b
  {
    assert [a, b][1..] == [b];
    OneLine(b);
  }

  lemma PrintedLines(display: string, units: seq<HunkLine>, texts: seq<string>)
    requires units != []
    ensures AddedLines(Printed(HeaderFor(display), units, texts), None) == AddedLines(texts, Some(units[0].newNo))
  {
    HunkRoundTrip(units[0].oldNo, OldCount(units), units[0].newNo, NewCount(units));
    HunkIsLine(units[0].oldNo, OldCount(units), units[0].newNo, NewCount(units));
    assert HeaderFor(display)[0] == 'd' && !("@@" <= HeaderFor(display));
    hide HeaderFor, HunkOf, ParseHunk, IsLine, EndsLine, AddedLines;
    HeadLines(HeaderFor(display), HunkOf(units), texts, Hunk(units[0].oldNo, units[0].newNo));
  }

  lemma HeadLines(a: string, b: string, rest: seq<string>, h: Hunk)
    requires !("@@" <= a) && "@@" <= b && ParseHunk(b) == Some(h)
    ensures AddedLines([a, b] + rest, None) == AddedLines(rest, Some(h.newStart))
  {
    var lines := [a, b] + rest;
    hide AddedLines, ParseHunk;
    AddedStep(lines, 0, None);
    AddedStep(lines, 1, None);
    assert lines[0..] == lines && lines[2..] == rest;
    ConcatNone(AddedLines(rest, Some(h.newStart)));
  }

  // What a reader of the printed piece sees: units with a text.
  function ShownBy(units: seq<HunkLine>): seq<nat> {
    if units != [] && units[0].text == "" then [] else OwnedBy(units)
  }

  lemma PrintableTexts(units: seq<HunkLine>)
    requires Printable(units)
    ensures PlainTexts(Texts(units)) && ShownBy(units) == OwnedBy(units)
  {
    hide OwnedBy, Chain;
    forall i | 0 <= i < |units| ensures !IsFileHeader(units[i].text) && units[i].text != "" {
      SaneSigil(units[i]);
    }
    hide Sane, IsFileHeader, EndsLine;
    assert forall i | 0 <= i < |units| :: IsLine(units[i].text) by {
      forall i | 0 <= i < |units| ensures IsLine(units[i].text) {
        SaneIsLine(units[i]);
      }
    }
    hide IsLine;
  }

  lemma SaneIsLine(u: HunkLine)
    requires Sane(u)
    ensures IsLine(u.text)
  {
  }

  // Reading a printed piece gives exactly the shown lines, under the path that
  // its header decodes to.
  lemma PieceReadsBack(target: string -> string, prefix: string, display: string, budget: nat, group: seq<HunkLine>, all: seq<HunkLine>)
    requires prefix == HeaderFor(display) && '\n' !in display
    requires group != [] && GoodGroup(prefix, budget, group, all)
    ensures Keys(target, Render(prefix, group)) == Tag(target(Chomp(prefix)), ShownBy(group))
    ensures Lines(Render(prefix, group)) != [] && IsFileHeader(Lines(Render(prefix, group))[0])
  {
    var texts := if group[0].text == "" then [] else Texts(group);
    if Printable(group) {
      PrintableTexts(group);
      SaneNotEmpty(group[0]);
      ScanUnits(group);
    } else {
      assert Texts(group) == [""];
      OneLine("");
      NothingScanned(group[0].newNo);
    }
    HeaderIsLine(display);
    hide HeaderFor, HunkOf, ParseHunk, IsLine, EndsLine, Printable, Blanked, OwnedBy, AddedLines, Texts, PlainTexts, Keys, Lines, IsFileHeader;
    JoinNone();
    assert Join(texts) == Join(Texts(group));
    PrintedIsBlock(display, group, texts);
    PrintedLines(display, group, texts);
    BlockAlone(target, Printed(prefix, group, texts));
    hide Join;
  }

  lemma JoinNone()
    ensures Join([]) == "" && PlainTexts([])
  {
  }

  lemma NothingScanned(n: nat)
    ensures AddedLines([], Some(n)) == []
  {
  }

  // -------------------------------------------------- texts without any hunk

  predicate NoHunk(lines: seq<string>) {
    forall i | 0 <= i < |lines| :: !("@@" <= lines[i])
  }

  lemma {:induction false} NoHunkNoLines(lines: seq<string>)
    requires NoHunk(lines)
    ensures AddedLines(lines, None) == []
  {
    hide ParseHunk, IsAdded, IsContext;
    if lines != [] {
      NoHunkNoLines(lines[1..]);
    }
  }

  lemma {:induction false} NoHunkNoKeys(target: string -> string, lines: seq<string>)
    requires NoHunk(lines)
    ensures KeysOfGroups(target, Groups(lines)) == []
    decreases |lines|
  {
    hide BodyLength, NoHunk;
    if lines != [] {
      var n := 1 + BodyLength(lines[1..]);
      GroupsUnfold(lines);
      hide Groups, AddedLines, PathOf;
      NoHunkParts(lines, n);
      NoHunkNoLines(lines[..n]);
      NoHunkNoKeys(target, lines[n..]);
      NoTags(PathOf(target, lines[..n]));
      FirstKeys(target, lines[..n], Groups(lines[n..]));
    }
  }

  lemma NoHunkParts(lines: seq<string>, n: nat)
    requires n <= |lines| && NoHunk(lines)
    ensures NoHunk(lines[..n]) && NoHunk(lines[n..])
  {
  }

  lemma FirstKeys(target: string -> string, first: seq<string>, rest: seq<seq<string>>)
    ensures KeysOfGroups(target, [first] + rest) == GroupKeys(target, first) + KeysOfGroups(target, rest)
  {
    hide GroupKeys;
    assert ([first] + rest)[1..] == rest;
  }

  lemma TakeCut(a: string, b: string, n: int)
    requires n >= 0
    ensures Take(a + b, n) == if n <= |a| then Take(a, n) else a + Take(b, n - |a|)
  {
  }

  function Note(path: string): string {
    "# oversized diff metadata: " + DisplayName(path) + "\n"
  }

  lemma NoteIsLine(path: string)
    requires '\n' !in DisplayName(path)
    ensures IsLine(Note(path)) && EndsLine(Note(path)) && Note(path)[0] == '#'
  {
    assert Note(path)[..|Note(path)| - 1] == "# oversized diff metadata: " + DisplayName(path);
  }

  // The metadata piece shows no added line, however it is cut.
  lemma MetadataReadsBack(target: string -> string, display: string, path: string, budget: nat)
    requires '\n' !in display && '\n' !in DisplayName(path) && budget > 0
    ensures Keys(target, MetadataPiece(HeaderFor(display), path, budget).text) == []
    ensures var text := MetadataPiece(HeaderFor(display), path, budget).text;
      |text| >= budget || (EndsLine(text) && Lines(text) != [] && IsFileHeader(Lines(text)[0]))
  {
    var prefix, note := HeaderFor(display), Note(path);
    assert MetadataPiece(prefix, path, budget).text == Take(prefix + note, budget) by {
      assert prefix + "# oversized diff metadata: " + DisplayName(path) + "\n" == prefix + note;
    }
    hide MetadataPiece;
    TakeCut(prefix, note, budget);
    HeaderIsLine(display);
    NoteIsLine(path);
    assert prefix[0] == 'd';
    hide HeaderFor, IsFileHeader, DisplayName, Note, Take;
    if budget <= |prefix| {
      CutLine(prefix, budget);
      OneLineReadsBack(target, Take(prefix, budget));
    } else {
      CutLine(note, budget - |prefix|);
      TwoLinesReadBack(target, prefix, Take(note, budget - |prefix|));
    }
  }

  lemma OneLineReadsBack(target: string -> string, line: string)
    requires IsLine(line) && line[0] != '@'
    ensures Keys(target, line) == []
  {
    OneLine(line);
    assert WellCut([line]);
    CutOfJoin([line]);
    hide Lines, Join, Groups, KeysOfGroups, IsLine;
    NoHunkNoKeys(target, [line]);
  }

  lemma TwoLinesReadBack(target: string -> string, a: string, b: string)
    requires IsLine(a) && EndsLine(a) && a[0] != '@' && IsLine(b) && b[0] != '@'
    ensures Keys(target, a + b) == [] && Lines(a + b) == [a, b]
    ensures EndsLine(b) ==> EndsLine(a + b)
  {
    assert NoHunk([a, b]);
    assert WellCut([a, b]);
    hide IsLine, EndsLine, NoHunk, WellCut;
    JoinTwo(a, b);
    CutOfJoin([a, b]);
    NoHunkNoKeys(target, [a, b]);
    EndsLineConcat(a, b);
  }

  lemma EndsLineConcat(a: string, b: string)
    ensures EndsLine(b) ==> EndsLine(a + b)
  {
  }

  lemma CutLine(line: string, n: int)
    requires IsLine(line) && n > 0
    ensures IsLine(Take(line, n)) && Take(line, n)[0] == line[0]
    ensures n >= |line| ==> Take(line, n) == line
    ensures n <= |line| ==> |Take(line, n)| == n
  {
    if n < |line| {
      assert line[..n][..n - 1] == line[..|line| - 1][..n - 1];
    }
  }

  // -------------------------------------------------------- whole piece lists

  predicate Opens(text: string) {
    Lines(text) != [] && IsFileHeader(Lines(text)[0])
  }

  // Scanning the text of the piece gives back its lines.
  predicate Faithful(target: string -> string, piece: Piece) {
    Keys(target, piece.text) == piece.keys
  }

  predicate Starts(budget: nat, piece: Piece) {
    Opens(piece.text) || |piece.text| >= budget
  }

  predicate Stops(budget: nat, piece: Piece) {
    EndsLine(piece.text) || |piece.text| >= budget
  }

  predicate Pieced(target: string -> string, budget: nat, pieces: seq<Piece>, headless: bool, loose: bool) {
    forall i | 0 <= i < |pieces| ::
      && Solid(pieces[i]) && Faithful(target, pieces[i])
      && (Starts(budget, pieces[i]) || (headless && i == 0))
      && (Stops(budget, pieces[i]) || (loose && i == |pieces| - 1))
  }

  lemma PiecedConcat(target: string -> string, budget: nat, a: seq<Piece>, b: seq<Piece>, headless: bool, loose: bool)
    requires Pieced(target, budget, a, headless, false)
    requires Pieced(target, budget, b, false, loose)
    ensures Pieced(target, budget, a + b, headless, loose)
  {
    hide Solid, Faithful, Starts, Stops;
  }

  // When an oversized block can be read back: its path survives in the printed
  // header, and the one-line hunk header of each added line leaves room for one
  // more character. The path of a block without added lines may be lost.
  predicate Readable(target: string -> string, hash8: string -> string, group: seq<string>, budget: nat) {
    var path := PathOf(target, group);
    var prefix := SyntheticPrefix(hash8, path, budget);
    |Join(group)| > budget ==>
      && '\n' !in path
      && (AddedLines(group, None) != [] ==> path != "" && target(Chomp(prefix)) == path)
      && (forall u <- Units(group, None) | u.owned.Some? :: |prefix| + |HunkOf([u])| < budget)
  }

  lemma {:induction false} NoneOwned(groups: seq<seq<HunkLine>>)
    requires OwnedByAll(groups) == []
    ensures forall i | 0 <= i < |groups| :: OwnedBy(groups[i]) == []
  {
    hide OwnedBy;
    if groups != [] {
      NoneOwned(groups[1..]);
      assert forall i | 1 <= i < |groups| :: groups[i] == groups[1..][i - 1];
    }
  }

  function DisplayOf(hash8: string -> string, path: string, budget: nat): string {
    if |HeaderFor(DisplayName(path))| + 32 > budget
    then "oversized-" + hash8(DisplayName(path))
    else DisplayName(path)
  }

  lemma PrefixDisplay(hash8: string -> string, path: string, budget: nat)
    requires IsHash8(hash8) && '\n' !in path
    ensures SyntheticPrefix(hash8, path, budget) == HeaderFor(DisplayOf(hash8, path, budget))
    ensures '\n' !in DisplayOf(hash8, path, budget) && '\n' !in DisplayName(path)
  {
    var h := hash8(DisplayName(path));
    assert forall c <- h :: c in "0123456789abcdef" && c != '\n';
  }

  lemma BlankOwnsNothing(prefix: string, budget: nat, group: seq<HunkLine>, all: seq<HunkLine>)
    requires Blanked(prefix, budget, group, all)
    requires forall u <- all | u.owned.Some? :: |prefix| + |HunkOf([u])| < budget
    ensures OwnedBy(group) == [] && ShownBy(group) == []
  {
    hide HunkOf;
    assert group[0].owned.None?;
    assert group[1..] == [];
  }

  // One printed piece: reading it back gives exactly what it owns.
  lemma GroupFaithful(target: string -> string, path: string, prefix: string, display: string, budget: nat,
      group: seq<HunkLine>, all: seq<HunkLine>)
    requires prefix == HeaderFor(display) && '\n' !in display
    requires group != [] && GoodGroup(prefix, budget, group, all)
    requires OwnedBy(group) == [] || (path != "" && target(Chomp(prefix)) == path)
    requires forall u <- all | u.owned.Some? :: |prefix| + |HunkOf([u])| < budget
    ensures Faithful(target, PieceOf(prefix, path, group)) && Opens(PieceOf(prefix, path, group).text)
  {
    hide HeaderFor, HunkOf, OwnedBy, ShownBy, Keys, Render, Printable, Blanked, Chomp, Tag, Lines, IsFileHeader;
    PieceReadsBack(target, prefix, display, budget, group, all);
    if Printable(group) {
      PrintableTexts(group);
    } else {
      BlankOwnsNothing(prefix, budget, group, all);
    }
    NoTags(path);
    NoTags(target(Chomp(prefix)));
  }

  lemma RenderStops(prefix: string, path: string, budget: nat, group: seq<HunkLine>)
    requires group != [] && Closed(prefix, budget, group)
    ensures Stops(budget, PieceOf(prefix, path, group))
  {
    var n := |group| - 1;
    var last := group[n].text;
    hide HunkOf;
    if EndsLine(last) {
      assert Texts(group) == Texts(group)[..n] + [last];
      JoinConcat(Texts(group)[..n], [last]);
      OneLine(last);
      EndsLineConcat(Join(Texts(group)[..n]), last);
      EndsLineConcat(prefix + HunkOf(group), Join(Texts(group)));
    }
  }

  lemma PieceSolid(prefix: string, path: string, group: seq<HunkLine>)
    requires group != []
    ensures Solid(PieceOf(prefix, path, group))
  {
  }

  lemma SplitPieced(target: string -> string, path: string, prefix: string, display: string, budget: nat,
      groups: seq<seq<HunkLine>>, all: seq<HunkLine>, loose: bool)
    requires prefix == HeaderFor(display) && '\n' !in display
    requires forall i | 0 <= i < |groups| :: groups[i] != []
    requires GoodSplit(prefix, budget, groups, all, loose)
    requires OwnedByAll(groups) == [] || (path != "" && target(Chomp(prefix)) == path)
    requires forall u <- all | u.owned.Some? :: |prefix| + |HunkOf([u])| < budget
    ensures Pieced(target, budget, RenderAll(prefix, path, groups), false, loose)
  {
    if OwnedByAll(groups) == [] {
      NoneOwned(groups);
    }
    hide OwnedByAll, OwnedBy, HeaderFor, HunkOf, GoodGroup, Closed, Chomp, GoodPiece, RenderAll, Pieced;
    forall i | 0 <= i < |groups| ensures GoodPiece(target, budget, prefix, path, groups[i]) {
      OnePieced(target, path, prefix, display, budget, groups[i], all);
    }
    GoodPieces(target, budget, prefix, path, groups, loose);
  }

  predicate GoodPiece(target: string -> string, budget: nat, prefix: string, path: string, group: seq<HunkLine>)
    requires group != []
  {
    var piece := PieceOf(prefix, path, group);
    && Solid(piece) && Faithful(target, piece) && Starts(budget, piece)
    && (Closed(prefix, budget, group) ==> Stops(budget, piece))
  }

  lemma GoodPieces(target: string -> string, budget: nat, prefix: string, path: string, groups: seq<seq<HunkLine>>,
      loose: bool)
    requires forall i | 0 <= i < |groups| :: groups[i] != []
    requires forall i | 0 <= i < |groups| ::
      GoodPiece(target, budget, prefix, path, groups[i])
      && (Closed(prefix, budget, groups[i]) || (loose && i == |groups| - 1))
    ensures Pieced(target, budget, RenderAll(prefix, path, groups), false, loose)
  {
    hide PieceOf, Faithful, Solid, Closed, Starts, Stops;
    assert forall i | 0 <= i < |groups| :: RenderAll(prefix, path, groups)[i] == PieceOf(prefix, path, groups[i]);
  }

  lemma OnePieced(target: string -> string, path: string, prefix: string, display: string, budget: nat,
      group: seq<HunkLine>, all: seq<HunkLine>)
    requires prefix == HeaderFor(display) && '\n' !in display
    requires group != [] && GoodGroup(prefix, budget, group, all)
    requires OwnedBy(group) == [] || (path != "" && target(Chomp(prefix)) == path)
    requires forall u <- all | u.owned.Some? :: |prefix| + |HunkOf([u])| < budget
    ensures GoodPiece(target, budget, prefix, path, group)
  {
    hide OwnedBy, PieceOf, HeaderFor, HunkOf, GoodGroup, Faithful, Solid, Closed, Opens, Stops;
    GroupFaithful(target, path, prefix, display, budget, group, all);
    PieceSolid(prefix, path, group);
    if Closed(prefix, budget, group) {
      RenderStops(prefix, path, budget, group);
    }
  }

  predicate Loose(group: seq<string>) {
    group != [] && !EndsLine(group[|group| - 1])
  }

  lemma BlockReady(group: seq<string>)
    requires IsBlock(group)
    ensures Ready(Units(group, None), Loose(group))
    ensures forall u <- Units(group, None) :: u.text != ""
  {
    UnitsStacked(group, None);
    UnitTexts(group, None);
    hide Stacked, Units;
  }

  lemma RewrittenPieced(target: string -> string, path: string, prefix: string, display: string, group: seq<string>, budget: nat)
    requires prefix == HeaderFor(display) && '\n' !in display && IsBlock(group)
    requires AddedLines(group, None) != [] ==> path != "" && target(Chomp(prefix)) == path
    requires forall u <- Units(group, None) | u.owned.Some? :: |prefix| + |HunkOf([u])| < budget
    requires forall u <- Units(group, None) :: u.text != ""
    ensures Pieced(target, budget, RenderAll(prefix, path, Split(prefix, budget, [], Units(group, None))), false, Loose(group))
  {
    var units := Units(group, None);
    hide Units, AddedLines, HunkOf, HeaderFor, Split, OwnedBy, Loose, Stacked, Ready, EndsLine, IsBlock, Chomp;
    BlockReady(group);
    UnitsOwnAddedLines(group, None);
    SplitIsGood(prefix, budget, [], units, units, Loose(group));
    SplitKeepsOwners(prefix, budget, [], units);
    NoOwners();
    ConcatNone(OwnedBy(units));
    hide GoodSplit, OwnedByAll, RenderAll, Pieced;
    SplitPieced(target, path, prefix, display, budget, Split(prefix, budget, [], units), units, Loose(group));
  }

  lemma MetadataPieced(target: string -> string, path: string, display: string, budget: nat, loose: bool)
    requires '\n' !in display && '\n' !in DisplayName(path) && budget > 0
    ensures Pieced(target, budget, [MetadataPiece(HeaderFor(display), path, budget)], false, loose)
  {
    var prefix := HeaderFor(display);
    hide HeaderFor, DisplayName;
    MetadataReadsBack(target, display, path, budget);
    MetadataSolid(prefix, path, budget);
    MetadataKeys(prefix, path, budget);
    hide MetadataPiece, Keys, EndsLine, Lines;
  }

  lemma OversizedPieced(target: string -> string, hash8: string -> string, group: seq<string>, budget: nat)
    requires IsHash8(hash8) && budget > 0 && IsBlock(group) && |Join(group)| > budget
    requires Readable(target, hash8, group, budget)
    ensures Pieced(target, budget, OversizedPieces(hash8, PathOf(target, group), group, budget), false, Loose(group))
  {
    var path := PathOf(target, group);
    var prefix := SyntheticPrefix(hash8, path, budget);
    var display := DisplayOf(hash8, path, budget);
    hide PathOf, SyntheticPrefix, DisplayOf, Join, IsBlock, IsHash8, Units, HeaderFor, HunkOf, AddedLines, Split, RenderAll, Loose, Pieced, MetadataPiece, Chomp;
    PrefixDisplay(hash8, path, budget);
    UnitTexts(group, None);
    if Rewritable(prefix, Units(group, None), budget) {
      RewrittenPieced(target, path, prefix, display, group, budget);
    } else {
      MetadataPieced(target, path, display, budget, Loose(group));
    }
  }

  lemma MetadataKeys(prefix: string, path: string, budget: nat)
    ensures MetadataPiece(prefix, path, budget).keys == []
  {
  }

  lemma MetadataSolid(prefix: string, path: string, budget: nat)
    requires budget > 0
    ensures Solid(MetadataPiece(prefix, path, budget))
  {
  }

  predicate Headless(group: seq<string>) {
    group != [] && !IsFileHeader(group[0])
  }

  lemma SmallPieced(target: string -> string, group: seq<string>, budget: nat)
    requires IsBlock(group)
    ensures Pieced(target, budget, [Piece(Join(group), GroupKeys(target, group))], Headless(group), Loose(group))
  {
    BlockAlone(target, group);
    LastLine(group);
    hide Keys, GroupKeys, Join, Lines, IsFileHeader;
  }

  lemma GroupPieced(target: string -> string, hash8: string -> string, group: seq<string>, budget: nat)
    requires IsHash8(hash8) && budget > 0 && IsBlock(group)
    requires Readable(target, hash8, group, budget)
    ensures Pieced(target, budget, GroupPieces(target, hash8, group, budget), Headless(group), Loose(group))
  {
    if |Join(group)| > budget {
      OversizedPieced(target, hash8, group, budget);
      hide Faithful, Solid, Starts, Stops;
    } else {
      SmallPieced(target, group, budget);
    }
  }

  // The blocks of a diff follow one another: only the first may lack a header,
  // only the last may lack a final newline.
  predicate InOrder(groups: seq<seq<string>>, headless: bool) {
    forall i | 0 <= i < |groups| ::
      && IsBlock(groups[i])
      && (Headless(groups[i]) ==> headless && i == 0)
      && (Loose(groups[i]) ==> i == |groups| - 1)
  }

  lemma {:induction false} GroupsInOrder(lines: seq<string>, headless: bool)
    requires WellCut(lines)
    requires lines != [] && !IsFileHeader(lines[0]) ==> headless
    ensures InOrder(Groups(lines), headless)
    decreases |lines|
  {
    hide IsFileHeader, IsLine, EndsLine, IsBlock, BodyLength, InOrder;
    if lines == [] {
      NoneInOrder(headless);
    } else {
      var n := 1 + BodyLength(lines[1..]);
      FirstBlock(lines);
      hide Groups, WellCut;
      GroupsInOrder(lines[n..], false);
      NotEmptyGroups(lines[n..]);
      InOrderCons(lines[..n], Groups(lines[n..]), headless);
    }
  }

  lemma NoneInOrder(headless: bool)
    ensures InOrder([], headless)
  {
  }

  lemma InOrderCons(first: seq<string>, rest: seq<seq<string>>, headless: bool)
    requires IsBlock(first) && (Headless(first) ==> headless) && (Loose(first) ==> rest == [])
    requires InOrder(rest, false)
    ensures InOrder([first] + rest, headless)
  {
    hide IsBlock, Headless, Loose;
  }

  lemma FirstBlock(lines: seq<string>)
    requires WellCut(lines) && lines != []
    ensures
      var n := 1 + BodyLength(lines[1..]);
      && WellCut(lines[n..]) && IsBlock(lines[..n])
      && Groups(lines) == [lines[..n]] + Groups(lines[n..])
      && (Headless(lines[..n]) <==> !IsFileHeader(lines[0]))
      && (lines[n..] != [] ==> IsFileHeader(lines[n..][0]) && !Loose(lines[..n]))
  {
    var n := 1 + BodyLength(lines[1..]);
    hide IsFileHeader, IsLine, EndsLine, IsBlock, BodyLength, Groups, WellCut;
    GroupsUnfold(lines);
    GroupsAreBlocks(lines);
    WellCutSlice(lines, n);
    assert Groups(lines)[0] == lines[..n];
    if n < |lines| {
      assert lines[1..][n - 1] == lines[n];
    }
  }

  lemma WellCutSlice(lines: seq<string>, n: nat)
    requires WellCut(lines) && 1 <= n <= |lines|
    ensures WellCut(lines[n..])
    ensures n < |lines| ==> EndsLine(lines[..n][n - 1])
  {
    hide IsLine, EndsLine;
  }

  lemma NotEmptyGroups(lines: seq<string>)
    ensures Groups(lines) == [] <==> lines == []
  {
  }

  lemma {:induction false} PiecesPieced(target: string -> string, hash8: string -> string, groups: seq<seq<string>>, budget: nat, headless: bool)
    requires IsHash8(hash8) && budget > 0 && InOrder(groups, headless)
    requires forall g <- groups :: Readable(target, hash8, g, budget)
    ensures Pieced(target, budget, PiecesOf(target, hash8, groups, budget), headless, true)
  {
    hide IsHash8, IsBlock, Readable, GroupPieces, Headless, Loose, Faithful, Solid, Starts, Stops;
    if groups != [] {
      GroupPieced(target, hash8, groups[0], budget);
      PiecesPieced(target, hash8, groups[1..], budget, false);
      var a, b := GroupPieces(target, hash8, groups[0], budget), PiecesOf(target, hash8, groups[1..], budget);
      if |groups| == 1 {
        assert b == [];
        ConcatNone(a);
      } else {
        PiecedConcat(target, budget, a, b, headless, true);
      }
    }
  }

  // ------------------------------------------------------------------ chunks

  lemma {:induction false} GroupsConcat(a: seq<string>, b: seq<string>)
    requires b != [] && IsFileHeader(b[0])
    ensures Groups(a + b) == Groups(a) + Groups(b)
    decreases |a|
  {
    hide IsFileHeader;
    if a == [] {
      ConcatNone(b);
      ConcatNone(Groups(b));
    } else {
      var n := 1 + BodyLength(a[1..]);
      ConcatTail(a, b);
      BodyConcat(a[1..], b);
      GroupsUnfold(a);
      GroupsUnfold(a + b);
      ConcatSplit(a, b, n);
      hide Groups, BodyLength;
      GroupsConcat(a[n..], b);
      Assoc([a[..n]], Groups(a[n..]), Groups(b));
    }
  }

  lemma {:induction false} BodyConcat(a: seq<string>, b: seq<string>)
    requires b != [] && IsFileHeader(b[0])
    ensures BodyLength(a + b) == BodyLength(a)
  {
    hide IsFileHeader;
    if a == [] {
      ConcatNone(b);
    } else {
      ConcatTail(a, b);
      BodyConcat(a[1..], b);
    }
  }

  lemma KeysConcat(target: string -> string, a: string, b: string)
    requires EndsLine(a) && Opens(b)
    ensures Keys(target, a + b) == Keys(target, a) + Keys(target, b)
  {
    LinesConcat(a, b);
    hide Lines, IsFileHeader, EndsLine, Groups;
    GroupsConcat(Lines(a), Lines(b));
    DiffFilter.KeysOfConcat(target, Groups(Lines(a)), Groups(Lines(b)));
  }

  predicate Growing(target: string -> string, budget: nat, current: Piece, pieces: seq<Piece>) {
    && (current.text == "" ==> current.keys == [])
    && (current.text != "" ==>
        && Faithful(target, current) && |current.text| < budget
        && (pieces != [] ==> EndsLine(current.text)))
  }

  lemma {:induction false} PackFaithful(target: string -> string, budget: nat, current: Piece, pieces: seq<Piece>, headless: bool)
    requires Growing(target, budget, current, pieces)
    requires Pieced(target, budget, pieces, headless, true) && (current.text != "" ==> !headless)
    ensures forall p <- Pack(budget, current, pieces) :: Faithful(target, p)
    decreases |pieces|
  {
    hide Keys, Opens, EndsLine;
    if pieces != [] {
      var piece, rest := pieces[0], pieces[1..];
      var full := current.text != "" && |current.text| + |piece.text| > budget;
      var next := Append(if full then NOTHING else current, piece);
      var flushed := |next.text| >= budget && next.text != "";
      PackUnfold(budget, current, pieces);
      hide Pack;
      PiecedTail(target, budget, pieces, headless);
      NextFaithful(target, budget, current, piece, headless);
      NextStops(budget, if full then NOTHING else current, piece);
      PackFaithful(target, budget, if flushed then NOTHING else next, rest, false);
    }
  }

  lemma PiecedTail(target: string -> string, budget: nat, pieces: seq<Piece>, headless: bool)
    requires Pieced(target, budget, pieces, headless, true) && pieces != []
    ensures Pieced(target, budget, pieces[1..], false, true)
    ensures Solid(pieces[0]) && Faithful(target, pieces[0]) && (headless || Starts(budget, pieces[0]))
    ensures pieces[1..] != [] ==> Stops(budget, pieces[0])
  {
    hide Solid, Faithful, Starts, Stops;
  }

  lemma NextFaithful(target: string -> string, budget: nat, current: Piece, piece: Piece, headless: bool)
    requires Growing(target, budget, current, [piece])
    requires Solid(piece) && Faithful(target, piece) && (headless || Starts(budget, piece))
    requires current.text != "" ==> !headless
    ensures var full := current.text != "" && |current.text| + |piece.text| > budget;
      var next := Append(if full then NOTHING else current, piece);
      next.text != "" && Faithful(target, next)
  {
    var full := current.text != "" && |current.text| + |piece.text| > budget;
    hide Opens, EndsLine;
    if current.text == "" || full {
      ConcatNone(piece.text);
      ConcatNone(piece.keys);
    } else {
      KeysConcat(target, current.text, piece.text);
      hide Keys;
    }
  }

  lemma NextStops(budget: nat, current: Piece, piece: Piece)
    ensures Stops(budget, piece) && |Append(current, piece).text| < budget ==> EndsLine(Append(current, piece).text)
  {
    EndsLineConcat(current.text, piece.text);
    hide EndsLine;
  }

  lemma FaithfulChunks(target: string -> string, pieces: seq<Piece>)
    requires forall p <- pieces :: Faithful(target, p)
    ensures forall c <- Numbered(RecordsOf(pieces)) :: Elements(Keys(target, c.text)) == c.owned
  {
    hide Keys, Elements;
    var chunks := Numbered(RecordsOf(pieces));
    forall i | 0 <= i < |chunks| ensures Elements(Keys(target, chunks[i].text)) == chunks[i].owned {
      assert Faithful(target, pieces[i]);
    }
  }

  // Scanning a chunk gives back exactly the lines the chunk owns.
  lemma ChunksReadBack(target: string -> string, hash8: string -> string, diff: string, budget: nat)
    requires IsHash8(hash8)
    requires forall g <- Groups(Lines(diff)) :: Readable(target, hash8, g, budget)
    requires ChunkRecords(target, hash8, diff, budget).Ok?
    ensures forall c <- ChunkRecords(target, hash8, diff, budget).value :: Elements(Keys(target, c.text)) == c.owned
  {
    hide IsHash8, Readable, OwnedIn, DisjointOwners, Keys, Elements, Groups, PiecesOf, Pack, WellCut, InOrder, IsFileHeader, IsBlock, Pieced;
    if diff != "" {
      LinesAreWellCut(diff);
      var groups := Groups(Lines(diff));
      hide Lines, Numbered, RecordsOf;
      GroupsInOrder(Lines(diff), true);
      PiecesPieced(target, hash8, groups, budget, true);
      PackFaithful(target, budget, NOTHING, PiecesOf(target, hash8, groups, budget), true);
      FaithfulChunks(target, ChunkPieces(target, hash8, diff, budget));
    }
  }

  // ---------------------------------------------- exactly when a piece reads back

  lemma TagsEqual(p: string, a: seq<nat>, q: string, b: seq<nat>)
    ensures Tag(p, a) == Tag(q, b) <==>
      (p == q != "" && a == b) || ((p == "" || a == []) && (q == "" || b == []))
  {
    var x, y := Tag(p, a), Tag(q, b);
    if p != "" && q != "" && a != [] && x == y {
      assert x[0] == (p, a[0]) && y[0] == (q, b[0]);
      assert forall i | 0 <= i < |a| :: x[i] == (p, a[i]) && y[i] == (q, b[i]);
      assert a == b;
    }
  }

  // A printed piece reads back exactly when its header decodes to its path and
  // no owned line was blanked, or when there is nothing to see and nothing owned.
  lemma ReadsBackExactly(target: string -> string, path: string, prefix: string, display: string, budget: nat,
      group: seq<HunkLine>, all: seq<HunkLine>)
    requires prefix == HeaderFor(display) && '\n' !in display
    requires group != [] && GoodGroup(prefix, budget, group, all)
    ensures Faithful(target, PieceOf(prefix, path, group)) <==>
      || (target(Chomp(prefix)) == path != "" && ShownBy(group) == OwnedBy(group))
      || ((target(Chomp(prefix)) == "" || ShownBy(group) == []) && (path == "" || OwnedBy(group) == []))
  {
    hide HeaderFor, OwnedBy, ShownBy, Keys, Render, GoodGroup, Chomp, Tag, Lines, IsFileHeader;
    PieceReadsBack(target, prefix, display, budget, group, all);
    TagsEqual(target(Chomp(prefix)), ShownBy(group), path, OwnedBy(group));
  }

  // ------------------------------------------------------------- plain headers

  predicate IsSpace(c: char) {
    c in " \t\r\n"
  }

  function WordLength(s: string): (n: nat)
    ensures n <= |s|
    ensures s != "" && !IsSpace(s[0]) ==> n > 0
  {
    if s == "" || IsSpace(s[0]) then 0 else 1 + WordLength(s[1..])
  }

  // shlex.split on a text without quotes and backslashes
  function Words(s: string): seq<string>
    decreases |s|
  {
    if s == "" then []
    else if IsSpace(s[0]) then Words(s[1..])
    else [s[..WordLength(s)]] + Words(s[WordLength(s)..])
  }

  function PlainTarget(header: string): string {
    var words := Words(header);
    if |words| != 4 || words[0] != "diff" || words[1] != "--git" then ""
    else if "b/" <= words[3] then words[3][2..] else words[3]
  }

  predicate Plain(path: string) {
    path != "" && forall c <- path :: !IsSpace(c) && c !in "\"'\\"
  }

  predicate IsWord(s: string) {
    s != "" && forall i | 0 <= i < |s| :: !IsSpace(s[i])
  }

  lemma {:induction false} WordEnds(word: string, rest: string)
    requires IsWord(word) && (rest == "" || IsSpace(rest[0]))
    ensures WordLength(word + rest) == |word|
  {
    hide IsSpace;
    ConcatTail(word, rest);
    if |word| > 1 {
      WordEnds(word[1..], rest);
    } else {
      assert word[1..] == "";
      ConcatNone(rest);
    }
  }

  lemma WordsStep(word: string, rest: string)
    requires IsWord(word)
    ensures Words(word + (" " + rest)) == [word] + Words(rest)
    ensures Words(word) == [word]
  {
    WordEnds(word, " " + rest);
    WordEnds(word, "");
    ConcatNone(word);
    ConcatSplit(word, " " + rest, |word|);
    assert (word + (" " + rest))[0] == word[0];
    assert word[|word|..] == "" && word[..|word|] == word;
    ConcatNone(" " + rest);
    assert (" " + rest)[0] == ' ' && (" " + rest)[1..] == rest;
    assert Words(" " + rest) == Words(rest);
    ConcatNone([word]);
  }

  function Spaced(a: string, b: string, c: string, d: string): string {
    a + (" " + (b + (" " + (c + (" " + d)))))
  }

  lemma FourWords(a: string, b: string, c: string, d: string)
    requires IsWord(a) && IsWord(b) && IsWord(c) && IsWord(d)
    ensures Words(Spaced(a, b, c, d)) == [a, b, c, d]
  {
    hide IsWord, Words;
    WordsStep(a, b + (" " + (c + (" " + d))));
    WordsStep(b, c + (" " + d));
    WordsStep(c, d);
    WordsStep(d, "");
  }

  lemma HeaderIsSpaced(path: string)
    ensures Chomp(HeaderFor(path)) == Spaced("diff", "--git", "a/" + path, "b/" + path)
  {
    var header := "diff --git a/" + path + " b/" + path;
    assert Chomp(HeaderFor(path)) == header;
    hide HeaderFor, Chomp;
    assert "diff --git a/" == "diff" + " " + "--git" + " " + "a/";
    assert " b/" == " " + "b/";
  }

  lemma PlainHeaderDecodes(path: string)
    requires Plain(path)
    ensures PlainTarget(Chomp(HeaderFor(path))) == path
  {
    hide HeaderFor, Chomp, Words, Spaced;
    HeaderIsSpaced(path);
    PlainWord("a/", path);
    PlainWord("b/", path);
    assert IsWord("diff") && IsWord("--git");
    FourWords("diff", "--git", "a/" + path, "b/" + path);
    assert "b/" <= "b/" + path && ("b/" + path)[2..] == path;
  }

  lemma PlainWord(side: string, path: string)
    requires Plain(path) && side in ["a/", "b/"]
    ensures IsWord(side + path)
  {
    assert forall i | 0 <= i < |path| :: path[i] in path && !IsSpace(path[i]);
  }

  // The decoder agrees with the plain reading of plain headers.
  ghost predicate DecodesPlain(target: string -> string) {
    forall path | Plain(path) :: target(Chomp(HeaderFor(path))) == PlainTarget(Chomp(HeaderFor(path)))
  }

  // A condition to check before the call: plain paths that fit the prefix, and
  // hunk headers that leave room for one character.
  predicate PlainAndRoomy(target: string -> string, group: seq<string>, budget: nat) {
    var path := PathOf(target, group);
    |Join(group)| > budget ==>
      && Plain(path) && |HeaderFor(path)| + 32 <= budget
      && forall u <- Units(group, None) :: |HeaderFor(path)| + 25 + |Dec(u.oldNo)| + |Dec(u.newNo)| <= budget
  }

  lemma PlainIsReadable(target: string -> string, hash8: string -> string, group: seq<string>, budget: nat)
    requires DecodesPlain(target) && PlainAndRoomy(target, group, budget)
    ensures Readable(target, hash8, group, budget)
  {
    var path := PathOf(target, group);
    var units := Units(group, None);
    if |Join(group)| > budget {
      PlainHeaderDecodes(path);
      assert '\n' !in path by {
        assert IsSpace('\n');
      }
      assert SyntheticPrefix(hash8, path, budget) == HeaderFor(path);
      UnitCounts(group, None);
      hide Units, HeaderFor, PathOf, Dec, HunkOf, Join, Plain, Chomp, PlainTarget, SyntheticPrefix, AddedLines;
      forall u <- units ensures |HeaderFor(path)| + |HunkOf([u])| < budget {
        HeaderLength(u);
      }
    }
  }

  lemma PlainChunksReadBack(target: string -> string, hash8: string -> string, diff: string, budget: nat)
    requires IsHash8(hash8) && DecodesPlain(target)
    requires forall g <- Groups(Lines(diff)) :: PlainAndRoomy(target, g, budget)
    requires ChunkRecords(target, hash8, diff, budget).Ok?
    ensures forall c <- ChunkRecords(target, hash8, diff, budget).value :: Elements(Keys(target, c.text)) == c.owned
  {
    hide IsHash8, DecodesPlain, PlainAndRoomy, Readable, ChunkRecords, Keys, Elements, Groups, Lines;
    forall g <- Groups(Lines(diff)) ensures Readable(target, hash8, g, budget) {
      PlainIsReadable(target, hash8, g, budget);
    }
    ChunksReadBack(target, hash8, diff, budget);
  }
}
