// What the chunks look like, character by character: how a line is cut, how lines
// are taken into a hunk and hunks into a chunk, and that no line is lost.
module DiffPieces {
  import opened Text
  import opened DiffFilter
  import opened DiffChunks
  import opened DiffOwnership
  import opened DiffRoundTrip
  import opened DiffLimits
  import opened DiffSyntax

  // ------------------------------------------------------------- lines cut short

  // What is shown of a line when there is room for so many characters.
  function Shown(text: string, room: int): string
    requires text != ""
  {
    if |text| <= room then text
    else if room <= 0 then ""
    else if room == 1 then text[..1]
    else if room == 2 then text[..1] + "\U{2026}"
    else if room <= 34 then text[..1] + "\U{2026}\n"
    else text[..room - 33] + " \U{2026} [truncated; inspect snapshot]\n"
  }

  // The characters left for a line after the prefix and a hunk header of its own.
  function RoomFor(prefix: string, u: HunkLine, budget: nat): int {
    budget - |prefix| - |HunkOf([u])|
  }

  lemma ShortenIsShown(text: string, room: int)
    requires IsLine(text) && text[0] in "+- " && |text| > room
    ensures Shorten(text, room) == Shown(text, room)
  {
    assert |MARKER| == 33;
    if room > 34 {
      LongLineCut(text, room - 34);
    } else if room >= 2 {
      var full := text[..1] + "\U{2026}\n";
      assert full == [text[0], '\U{2026}', '\n'];
      assert text[..1] + "\U{2026}" == [text[0], '\U{2026}'];
      assert full[..2] == [text[0], '\U{2026}'];
    }
  }

  lemma LongLineCut(text: string, k: nat)
    requires IsLine(text) && text[0] in "+- " && |text| > k + 34
    ensures text[..1] + Chomp(Take(text[1..], k)) == text[..k + 1]
  {
    var body := Take(text[1..], k);
    assert body == text[1..][..k] && body == text[1..k + 1];
    assert forall i | 0 <= i < k :: body[i] == text[..|text| - 1][i + 1];
    assert Chomp(body) == body;
  }

  // A line on its own is shown as far as there is room, and keeps its numbers.
  lemma FittedExactly(prefix: string, u: HunkLine, budget: nat)
    requires Sane(u)
    ensures Fit(prefix, u, budget) == u.(text := Shown(u.text, RoomFor(prefix, u, budget)))
  {
    hide HunkOf, Shown, Shorten, IsLine, IsAdded, IsRemoved, IsContext;
    SaneSigil(u);
    SaneIsLine(u);
    RenderLength(prefix, u);
    var room := RoomFor(prefix, u, budget);
    if |u.text| > room {
      ShortenIsShown(u.text, room);
    } else {
      WholeIsShown(u.text, room);
    }
  }

  lemma WholeIsShown(text: string, room: int)
    requires text != "" && |text| <= room
    ensures Shown(text, room) == text
  {
  }

  // A line that is cut and has room for the marker fills the budget.
  lemma CutFillsBudget(prefix: string, u: HunkLine, budget: nat)
    requires Sane(u) && RoomFor(prefix, u, budget) > 34 && |u.text| > RoomFor(prefix, u, budget)
    ensures |Render(prefix, [Fit(prefix, u, budget)])| == budget
    ensures u.text[..RoomFor(prefix, u, budget) - 33] <= Fit(prefix, u, budget).text
  {
    FittedExactly(prefix, u, budget);
    hide HunkOf, Render, Fit;
    var fitted := Fit(prefix, u, budget);
    RenderLength(prefix, fitted);
    assert HunkOf([fitted]) == HunkOf([u]) by { SameHunk(u, fitted); }
    assert |" \U{2026} [truncated; inspect snapshot]\n"| == 33;
  }

  lemma SameHunk(u: HunkLine, v: HunkLine)
    requires v == u.(text := v.text)
    ensures HunkOf([v]) == HunkOf([u])
  {
    hide PrintHunk;
    assert [u][1..] == [] && [v][1..] == [];
  }

  // ------------------------------------------------------ lines taken into hunks

  function FitAll(prefix: string, units: seq<HunkLine>, budget: nat): seq<HunkLine>
    requires forall u <- units :: u.text != ""
  {
    seq(|units|, i requires 0 <= i < |units| => Fit(prefix, units[i], budget))
  }

  predicate IsNext(next: HunkLine, previous: HunkLine) {
    && next.oldNo == previous.oldNo + previous.oldCount
    && next.newNo == previous.newNo + previous.newCount
  }

  lemma FollowsIs(next: HunkLine, previous: HunkLine)
    ensures Follows(next, previous) <==> IsNext(next, previous)
  {
  }

  predicate Contiguous(group: seq<HunkLine>) {
    forall i | 0 <= i < |group| - 1 :: IsNext(group[i + 1], group[i])
  }

  // The first n lines make a hunk: they follow one another and fit, and the next
  // one does not follow or does not fit any more.
  predicate TakesLines(prefix: string, budget: nat, group: seq<HunkLine>, units: seq<HunkLine>, n: nat)
    requires forall u <- units :: u.text != ""
  {
    && 0 < n <= |units| && group == FitAll(prefix, units[..n], budget) && Contiguous(group)
    && (n == 1 || |Render(prefix, group)| <= budget)
    && (n < |units| ==>
          !IsNext(units[n], group[n - 1]) || |Render(prefix, group + [units[n]])| > budget)
  }

  // Each hunk takes as many of the lines left as it can.
  predicate CutGreedily(prefix: string, budget: nat, groups: seq<seq<HunkLine>>, units: seq<HunkLine>)
    requires forall u <- units :: u.text != ""
    decreases |groups|
  {
    if groups == [] then units == []
    else
      TakesLines(prefix, budget, groups[0], units, |groups[0]|)
      && CutGreedily(prefix, budget, groups[1..], units[|groups[0]|..])
  }

  // A line and a line break, at least.
  predicate Ample(u: HunkLine) {
    Sized(u) && |u.text| >= 2
  }

  // A hunk that is not full has twice as many characters as lines.
  predicate Roomy(prefix: string, budget: nat, group: seq<HunkLine>) {
    Stretch(prefix, budget, group)
    && (group != [] ==> |Render(prefix, group)| >= budget || |Join(Texts(group))| >= 2 * |group|)
  }

  // A line that joins a hunk would have fitted alone, and is shown whole.
  lemma JoinedWhole(prefix: string, budget: nat, group: seq<HunkLine>, unit: HunkLine)
    requires group != [] && Roomy(prefix, budget, group) && Follows(unit, group[|group| - 1]) && Sized(unit)
    requires |Render(prefix, group + [unit])| <= budget
    ensures Fit(prefix, unit, budget) == unit && Stretch(prefix, budget, group + [unit])
    ensures |unit.text| >= 2 ==> Roomy(prefix, budget, group + [unit])
  {
    hide HunkOf, Render, Join, Texts, Dec;
    var first, more := group[0], group + [unit];
    JoinedFits(prefix, budget, group, unit);
    RenderLonger(prefix, group, unit);
    TextsGrow(group, unit);
    RenderParts(prefix, more);
    RenderLength(prefix, unit);
    HeaderGrows(more);
    HeaderLength(first);
    HeaderLength(unit);
    assert more[0] == first;
    DecStretch(first.oldNo, |group|);
    DecStretch(first.newNo, |group|);
    DecGrows(unit.oldNo, first.oldNo + |group|);
    DecGrows(unit.newNo, first.newNo + |group|);
  }

  lemma CutLength(text: string, room: int)
    requires text != ""
    ensures room >= 2 ==> |Shorten(text, room)| >= 2
    ensures room <= 1 ==> |Shorten(text, room)| == if room <= 0 then 0 else 1
  {
    assert |MARKER| == 33;
  }

  // A line that begins a hunk, cut or not.
  lemma BegunRoomy(prefix: string, budget: nat, unit: HunkLine)
    requires Ample(unit)
    ensures Roomy(prefix, budget, [Fit(prefix, unit, budget)])
  {
    hide HunkOf, Follows, Shorten;
    BegunStretches(prefix, budget, unit);
    var fitted := Fit(prefix, unit, budget);
    CutLength(unit.text, budget - |prefix + HunkOf([unit])|);
    RenderLength(prefix, unit);
    RenderLength(prefix, fitted);
    FittedHunk(prefix, unit, budget);
    hide Render, Stretch;
    assert Texts([fitted]) == [fitted.text];
    OneLine(fitted.text);
  }

  lemma FitAllMore(prefix: string, done: seq<HunkLine>, unit: HunkLine, budget: nat)
    requires unit.text != "" && forall u <- done :: u.text != ""
    ensures FitAll(prefix, done + [unit], budget) == FitAll(prefix, done, budget) + [Fit(prefix, unit, budget)]
  {
    hide Fit;
  }

  lemma HunkCloses(prefix: string, budget: nat, done: seq<HunkLine>, units: seq<HunkLine>, rest: seq<seq<HunkLine>>)
    requires done != [] && (forall u <- done :: u.text != "") && (forall u <- units :: u.text != "")
    requires var current := FitAll(prefix, done, budget);
      && Contiguous(current) && (|current| == 1 || |Render(prefix, current)| <= budget)
      && (units == [] || !IsNext(units[0], current[|current| - 1]) || |Render(prefix, current + [units[0]])| > budget)
    requires CutGreedily(prefix, budget, rest, units)
    ensures CutGreedily(prefix, budget, [FitAll(prefix, done, budget)] + rest, done + units)
  {
    hide Render, Fit, IsNext, Contiguous;
    var all, n := done + units, |done|;
    assert all[..n] == done && all[n..] == units;
    assert ([FitAll(prefix, done, budget)] + rest)[1..] == rest;
  }

  predicate Open(prefix: string, budget: nat, current: seq<HunkLine>, done: seq<HunkLine>, units: seq<HunkLine>) {
    && (forall u <- done :: u.text != "") && (forall u <- units :: u.text != "")
    && current == FitAll(prefix, done, budget) && Contiguous(current)
    && (|current| <= 1 || |Render(prefix, current)| <= budget)
    && (units != [] ==> Roomy(prefix, budget, current))
  }

  predicate Lined(units: seq<HunkLine>) {
    (forall u <- units :: Sized(u) && u.text != "") && forall i | 0 <= i < |units| - 1 :: |units[i].text| >= 2
  }

  lemma OpensOne(prefix: string, budget: nat, unit: HunkLine, rest: seq<HunkLine>)
    requires Lined([unit] + rest)
    ensures Open(prefix, budget, [Fit(prefix, unit, budget)], [unit], rest)
  {
    hide Fit, Render, Stretch, Join, Texts;
    var units := [unit] + rest;
    assert units[0] == unit && unit in units && forall u <- rest :: u in units;
    assert FitAll(prefix, [unit], budget) == [Fit(prefix, unit, budget)];
    if rest != [] {
      BegunRoomy(prefix, budget, unit);
    }
  }

  lemma OpensMore(prefix: string, budget: nat, current: seq<HunkLine>, done: seq<HunkLine>, unit: HunkLine, rest: seq<HunkLine>)
    requires Lined([unit] + rest) && Open(prefix, budget, current, done, [unit] + rest) && current != []
    requires Follows(unit, current[|current| - 1]) && |Render(prefix, current + [unit])| <= budget
    ensures Open(prefix, budget, current + [unit], done + [unit], rest)
  {
    hide Fit, Render, Roomy;
    var units := [unit] + rest;
    assert units[0] == unit && unit in units && forall u <- rest :: u in units;
    JoinedWhole(prefix, budget, current, unit);
    FitAllMore(prefix, done, unit, budget);
  }

  lemma LinedTail(unit: HunkLine, rest: seq<HunkLine>)
    requires Lined([unit] + rest)
    ensures Lined(rest) && unit.text != ""
  {
    var units := [unit] + rest;
    assert units[0] == unit && forall i | 0 <= i < |rest| :: units[i + 1] == rest[i];
    assert forall u <- rest :: u in units;
  }

  // The splitter cuts greedily, from any point on.
  lemma {:induction false} SplitGreedy(
      prefix: string, budget: nat, current: seq<HunkLine>, done: seq<HunkLine>, units: seq<HunkLine>)
    requires Lined(units) && Open(prefix, budget, current, done, units)
    ensures forall u <- done + units :: u.text != ""
    ensures CutGreedily(prefix, budget, Split(prefix, budget, current, units), done + units)
    decreases |units|
  {
    OpenTexts(prefix, budget, current, done, units);
    if units == [] {
      ConcatNone(done);
      SplitEnds(prefix, budget, current, done);
    } else {
      var unit, rest := units[0], units[1..];
      assert units == [unit] + rest;
      LinedTail(unit, rest);
      SplitUnfolds(prefix, budget, current, units);
      hide Render, Fit, Split, Open, CutGreedily, Lined, Breaks;
      if current != [] && !Breaks(current, unit) && |Render(prefix, current + [unit])| <= budget {
        Joins(current, unit);
        OpensMore(prefix, budget, current, done, unit, rest);
        SplitGreedy(prefix, budget, current + [unit], done + [unit], rest);
        Assoc(done, [unit], rest);
      } else {
        OpensOne(prefix, budget, unit, rest);
        SplitGreedy(prefix, budget, [Fit(prefix, unit, budget)], [unit], rest);
        CurrentCloses(prefix, budget, current, done, units, Split(prefix, budget, [Fit(prefix, unit, budget)], rest));
      }
    }
  }

  lemma Joins(current: seq<HunkLine>, unit: HunkLine)
    requires current != [] && !Breaks(current, unit)
    ensures Follows(unit, current[|current| - 1])
  {
    hide Follows;
  }

  lemma OpenTexts(prefix: string, budget: nat, current: seq<HunkLine>, done: seq<HunkLine>, units: seq<HunkLine>)
    requires Open(prefix, budget, current, done, units)
    ensures (forall u <- done + units :: u.text != "") && (forall u <- units :: u.text != "")
  {
    hide Contiguous, Roomy, Render, Fit;
  }

  lemma CurrentCloses(prefix: string, budget: nat, current: seq<HunkLine>, done: seq<HunkLine>, units: seq<HunkLine>,
      rest: seq<seq<HunkLine>>)
    requires units != [] && Open(prefix, budget, current, done, units)
    requires current == [] || Breaks(current, units[0]) || |Render(prefix, current + [units[0]])| > budget
    requires CutGreedily(prefix, budget, rest, units)
    ensures (forall u <- done + units :: u.text != "") && CutGreedily(prefix, budget, One(current) + rest, done + units)
  {
    hide Render, Fit, Contiguous, Roomy, CutGreedily, Follows;
    if done == [] {
      ConcatNone(units);
      ConcatNone(rest);
    } else {
      FollowsIs(units[0], current[|current| - 1]);
      HunkCloses(prefix, budget, done, units, rest);
    }
  }

  lemma SplitEnds(prefix: string, budget: nat, current: seq<HunkLine>, done: seq<HunkLine>)
    requires Open(prefix, budget, current, done, [])
    ensures CutGreedily(prefix, budget, Split(prefix, budget, current, []), done)
  {
    hide Render, Fit, Follows, Contiguous;
    if done != [] {
      HunkCloses(prefix, budget, done, [], []);
      ConcatNone(done);
      ConcatNone([current]);
    }
  }

  // One step of the splitter, in two cases.
  lemma SplitUnfolds(prefix: string, budget: nat, current: seq<HunkLine>, units: seq<HunkLine>)
    requires units != [] && forall u <- units :: u.text != ""
    ensures var unit, rest := units[0], units[1..];
      Split(prefix, budget, current, units) ==
        if current != [] && !Breaks(current, unit) && |Render(prefix, current + [unit])| <= budget
        then Split(prefix, budget, current + [unit], rest)
        else One(current) + Split(prefix, budget, [Fit(prefix, unit, budget)], rest)
  {
    hide Render, Follows;
    var unit, rest := units[0], units[1..];
    assert [] + [unit] == [unit];
    if |Render(prefix, [unit])| <= budget {
      FitsAlready(prefix, budget, unit);
    }
    hide Fit;
    var tail := Split(prefix, budget, [Fit(prefix, unit, budget)], rest);
    assert [current] + [] == [current] && [] + tail == tail;
  }

  // -------------------------------------------------------------- printed hunks

  function OldLines(group: seq<HunkLine>): set<nat> {
    set i: nat | i < |group| && group[i].oldCount == 1
  }

  function NewLines(group: seq<HunkLine>): set<nat> {
    set i: nat | i < |group| && group[i].newCount == 1
  }

  lemma {:induction false} CountsAreLines(group: seq<HunkLine>)
    requires forall u <- group :: u.oldCount <= 1 && u.newCount <= 1
    ensures OldCount(group) == |OldLines(group)| && NewCount(group) == |NewLines(group)|
  {
    hide OldLines, NewLines, OldCount, NewCount;
    if group == [] {
      NoLinesCounted();
    } else {
      var n := |group| - 1;
      var init, last := group[..n], group[n];
      assert group == init + [last];
      CountsAreLines(init);
      CountsConcat(init, last);
      LinesCounted(init, last);
    }
  }

  lemma NoLinesCounted()
    ensures OldCount([]) == |OldLines([])| && NewCount([]) == |NewLines([])|
  {
    assert OldLines([]) == {} && NewLines([]) == {};
  }

  lemma LinesCounted(init: seq<HunkLine>, last: HunkLine)
    ensures |OldLines(init + [last])| == |OldLines(init)| + if last.oldCount == 1 then 1 else 0
    ensures |NewLines(init + [last])| == |NewLines(init)| + if last.newCount == 1 then 1 else 0
  {
    var more := init + [last];
    assert forall i: nat | i < |init| :: more[i] == init[i];
    OneMorePlace(OldLines(init), OldLines(more), |init|, last.oldCount == 1);
    OneMorePlace(NewLines(init), NewLines(more), |init|, last.newCount == 1);
  }

  lemma OneMorePlace(before: set<nat>, after: set<nat>, n: nat, more: bool)
    requires forall i :: i in after <==> i in before || (i == n && more)
    requires n !in before
    ensures |after| == |before| + if more then 1 else 0
  {
    assert after == before + if more then {n} else {};
  }

  // The text of a hunk as it is printed.
  function HunkText(prefix: string, group: seq<HunkLine>): string
    requires group != []
  {
    prefix + "@@ -" + Dec(group[0].oldNo) + "," + Dec(|OldLines(group)|) + " +" + Dec(group[0].newNo) + ","
    + Dec(|NewLines(group)|) + " @@ continued\n" + Flatten(Texts(group))
  }

  lemma {:induction false} JoinIsFlatten(lines: seq<string>)
    ensures Join(lines) == Flatten(lines)
  {
    if lines != [] {
      JoinIsFlatten(lines[1..]);
    }
  }

  lemma RegroupHunk(prefix: string, a: string, b: string, c: string, d: string, body: string)
    ensures prefix + "@@ -" + a + "," + b + " +" + c + "," + d + " @@ continued\n" + body ==
      prefix + ("@@ -" + (a + ("," + (b + (" +" + (c + ("," + (d + " @@ continued\n")))))))) + body
  {
    var end := " @@ continued\n";
    Assoc(prefix + "@@ -" + a + "," + b + " +" + c + ",", d, end);
    Assoc(prefix + "@@ -" + a + "," + b + " +" + c, ",", d + end);
    Assoc(prefix + "@@ -" + a + "," + b + " +", c, "," + (d + end));
    Assoc(prefix + "@@ -" + a + "," + b, " +", c + ("," + (d + end)));
    Assoc(prefix + "@@ -" + a + ",", b, " +" + (c + ("," + (d + end))));
    Assoc(prefix + "@@ -" + a, ",", b + (" +" + (c + ("," + (d + end)))));
    Assoc(prefix + "@@ -", a, "," + (b + (" +" + (c + ("," + (d + end))))));
    Assoc(prefix, "@@ -", a + ("," + (b + (" +" + (c + ("," + (d + end)))))));
  }

  // A hunk is printed with the numbers of its first line and how many lines each
  // side has, and then its lines.
  lemma RenderExactly(prefix: string, group: seq<HunkLine>)
    requires group != [] && forall u <- group :: u.oldCount <= 1 && u.newCount <= 1
    ensures Render(prefix, group) == HunkText(prefix, group)
  {
    hide Dec, OldCount, NewCount, OldLines, NewLines, Texts, Join, Flatten;
    CountsAreLines(group);
    JoinIsFlatten(Texts(group));
    RegroupHunk(prefix, Dec(group[0].oldNo), Dec(|OldLines(group)|), Dec(group[0].newNo), Dec(|NewLines(group)|),
                Flatten(Texts(group)));
  }

  // ----------------------------------------------------------- one oversized block

  function PrefixText(display: string): string {
    "diff --git a/" + display + " b/" + display + "\n"
  }

  // The header in front of each hunk; a path that leaves too little room is hashed.
  function PrefixFor(hash8: string -> string, path: string, budget: nat): string {
    var display := if path == "" then "unknown" else path;
    if |PrefixText(display)| + 32 > budget then PrefixText("oversized-" + hash8(display)) else PrefixText(display)
  }

  ghost predicate PiecesAre(hash8: string -> string, path: string, units: seq<HunkLine>, budget: nat, pieces: seq<Piece>)
    requires forall u <- units :: u.text != ""
  {
    var prefix := PrefixFor(hash8, path, budget);
    if units == [] || |prefix| + 28 >= budget then
      var note := prefix + "# oversized diff metadata: " + (if path == "" then "unknown" else path) + "\n";
      |pieces| == 1 && pieces[0].text == if |note| <= budget then note else note[..budget]
    else
      exists groups :: CutGreedily(prefix, budget, groups, units) && PrintsGroups(prefix, groups, pieces)
  }

  predicate PrintsGroups(prefix: string, groups: seq<seq<HunkLine>>, pieces: seq<Piece>) {
    |pieces| == |groups|
    && forall i | 0 <= i < |groups| :: groups[i] != [] && pieces[i].text == HunkText(prefix, groups[i])
  }

  lemma PrefixIs(hash8: string -> string, path: string, budget: nat)
    ensures SyntheticPrefix(hash8, path, budget) == PrefixFor(hash8, path, budget)
  {
  }

  lemma MetadataIs(prefix: string, path: string, budget: nat)
    ensures var note := prefix + "# oversized diff metadata: " + (if path == "" then "unknown" else path) + "\n";
      MetadataPiece(prefix, path, budget).text == if |note| <= budget then note else note[..budget]
  {
  }

  lemma UnitsLined(group: seq<string>)
    requires WellCut(group)
    ensures Lined(Units(group, None)) && forall u <- Units(group, None) :: u.oldCount <= 1 && u.newCount <= 1 && u.text != ""
  {
    hide Units, WellCut;
    var units := Units(group, None);
    UnitTexts(group, None);
    UnitCounts(group, None);
    UnitsStacked(group, None);
    forall i | 0 <= i < |units| - 1 ensures |units[i].text| >= 2 {
      TwoCharacters(units[i]);
    }
  }

  lemma TwoCharacters(u: HunkLine)
    requires Sane(u) && EndsLine(u.text)
    ensures |u.text| >= 2
  {
    hide ParseHunk;
    SaneSigil(u);
    assert u.text[0] != '\n';
  }

  lemma {:induction false} GroupsCounted(prefix: string, budget: nat, groups: seq<seq<HunkLine>>, units: seq<HunkLine>)
    requires forall u <- units :: u.text != "" && u.oldCount <= 1 && u.newCount <= 1
    requires CutGreedily(prefix, budget, groups, units)
    ensures forall i | 0 <= i < |groups| :: groups[i] != [] && forall u <- groups[i] :: u.oldCount <= 1 && u.newCount <= 1
  {
    hide Render, Fit, Contiguous, IsNext;
    if groups != [] {
      var n := |groups[0]|;
      GroupsCounted(prefix, budget, groups[1..], units[n..]);
      forall u <- groups[0] ensures u.oldCount <= 1 && u.newCount <= 1 {
        var i :| 0 <= i < n && groups[0][i] == u;
        FitKeepsCounts(prefix, units[i], budget);
      }
      assert forall i | 0 < i < |groups| :: groups[i] == groups[1..][i - 1];
    }
  }

  lemma FitKeepsCounts(prefix: string, u: HunkLine, budget: nat)
    requires u.text != ""
    ensures Fit(prefix, u, budget).oldCount == u.oldCount && Fit(prefix, u, budget).newCount == u.newCount
  {
    hide Render, Shorten;
  }

  // What becomes of an oversized block, to the character.
  lemma OversizedExactly(hash8: string -> string, path: string, group: seq<string>, budget: nat)
    requires WellCut(group)
    ensures forall u <- Units(group, None) :: u.text != ""
    ensures PiecesAre(hash8, path, Units(group, None), budget, OversizedPieces(hash8, path, group, budget))
  {
    hide Units, WellCut, SyntheticPrefix, PrefixFor, MetadataPiece, HunkText, Render, CutGreedily, Split, Lined;
    var units, prefix := Units(group, None), PrefixFor(hash8, path, budget);
    PrefixIs(hash8, path, budget);
    UnitsLined(group);
    if !Rewritable(prefix, units, budget) {
      MetadataIs(prefix, path, budget);
    } else {
      var groups := Split(prefix, budget, [], units);
      StartsGreedy(prefix, budget, units);
      GroupsCounted(prefix, budget, groups, units);
      PrintsAll(prefix, path, groups);
      assert CutGreedily(prefix, budget, groups, units) && PrintsGroups(prefix, groups, RenderAll(prefix, path, groups));
    }
  }

  lemma StartsGreedy(prefix: string, budget: nat, units: seq<HunkLine>)
    requires Lined(units) && forall u <- units :: u.text != ""
    ensures CutGreedily(prefix, budget, Split(prefix, budget, [], units), units)
  {
    hide Render, Fit, Split, CutGreedily;
    ConcatNone(units);
    assert FitAll(prefix, [], budget) == [];
    assert Open(prefix, budget, [], [], units);
    SplitGreedy(prefix, budget, [], [], units);
  }

  lemma PrintsAll(prefix: string, path: string, groups: seq<seq<HunkLine>>)
    requires forall i | 0 <= i < |groups| :: groups[i] != [] && forall u <- groups[i] :: u.oldCount <= 1 && u.newCount <= 1
    ensures PrintsGroups(prefix, groups, RenderAll(prefix, path, groups))
  {
    hide Render, HunkText;
    forall i | 0 <= i < |groups|
      ensures RenderAll(prefix, path, groups)[i].text == HunkText(prefix, groups[i])
    {
      RenderExactly(prefix, groups[i]);
    }
  }

  // ------------------------------------------------------- hunks taken into chunks

  function TextsOfPieces(pieces: seq<Piece>): string {
    if pieces == [] then "" else TextsOfPieces(pieces[..|pieces| - 1]) + pieces[|pieces| - 1].text
  }

  function KeysOfPieces(pieces: seq<Piece>): seq<Key> {
    if pieces == [] then [] else KeysOfPieces(pieces[..|pieces| - 1]) + pieces[|pieces| - 1].keys
  }

  // The first n pieces make a chunk: none but the last fills the budget, each fits
  // behind the ones before, and the next one does not, or the budget is used up.
  predicate TakesPieces(budget: nat, chunk: Piece, pieces: seq<Piece>, n: nat) {
    && 0 < n <= |pieces| && chunk == Piece(TextsOfPieces(pieces[..n]), KeysOfPieces(pieces[..n]))
    && (forall m: nat | 0 < m < n ::
          |TextsOfPieces(pieces[..m])| < budget && |TextsOfPieces(pieces[..m])| + |pieces[m].text| <= budget)
    && (n < |pieces| ==> |chunk.text| >= budget || |chunk.text| + |pieces[n].text| > budget)
  }

  // Each chunk takes as many of the pieces left as it can.
  ghost predicate PackedGreedily(budget: nat, chunks: seq<Piece>, pieces: seq<Piece>)
    decreases |chunks|
  {
    if chunks == [] then pieces == []
    else exists n: nat :: TakesPieces(budget, chunks[0], pieces, n) && PackedGreedily(budget, chunks[1..], pieces[n..])
  }

  // A chunk that is being filled.
  predicate Filling(budget: nat, current: Piece, done: seq<Piece>) {
    && current == Piece(TextsOfPieces(done), KeysOfPieces(done))
    && (current.text == "" <==> done == [])
    && (forall m: nat | 0 < m < |done| ::
          |TextsOfPieces(done[..m])| < budget && |TextsOfPieces(done[..m])| + |done[m].text| <= budget)
  }

  lemma ChunkCloses(budget: nat, current: Piece, done: seq<Piece>, pieces: seq<Piece>, rest: seq<Piece>)
    requires Filling(budget, current, done) && done != []
    requires pieces == [] || |current.text| >= budget || |current.text| + |pieces[0].text| > budget
    requires PackedGreedily(budget, rest, pieces)
    ensures PackedGreedily(budget, [current] + rest, done + pieces)
  {
    hide TextsOfPieces, KeysOfPieces;
    var all, n := done + pieces, |done|;
    assert all[..n] == done && all[n..] == pieces;
    forall m: nat | 0 < m < n ensures all[..m] == done[..m] && all[m] == done[m] {
    }
    assert ([current] + rest)[1..] == rest;
    assert TakesPieces(budget, current, all, n);
  }

  lemma FillsMore(budget: nat, current: Piece, done: seq<Piece>, piece: Piece)
    requires Filling(budget, current, done) && piece.text != ""
    requires done != [] ==> |current.text| < budget && |current.text| + |piece.text| <= budget
    ensures Filling(budget, Append(current, piece), done + [piece])
  {
    var more := done + [piece];
    assert more[..|done|] == done;
    hide TextsOfPieces, KeysOfPieces;
    forall m: nat | 0 < m < |more|
      ensures |TextsOfPieces(more[..m])| < budget && |TextsOfPieces(more[..m])| + |more[m].text| <= budget
    {
      if m < |done| {
        assert more[..m] == done[..m] && more[m] == done[m];
      }
    }
    TextsOfMore(done, piece);
  }

  lemma TextsOfMore(done: seq<Piece>, piece: Piece)
    ensures TextsOfPieces(done + [piece]) == TextsOfPieces(done) + piece.text
    ensures KeysOfPieces(done + [piece]) == KeysOfPieces(done) + piece.keys
  {
    assert (done + [piece])[..|done|] == done;
  }

  lemma NothingFills(budget: nat)
    ensures Filling(budget, NOTHING, []) && TextsOfPieces([]) == "" && KeysOfPieces([]) == []
  {
  }

  // The packing loop takes greedily, from any point on.
  lemma {:induction false} PackGreedily(budget: nat, current: Piece, done: seq<Piece>, pieces: seq<Piece>)
    requires Filling(budget, current, done) && (done != [] ==> |current.text| < budget)
    requires forall p <- pieces :: p.text != ""
    ensures PackedGreedily(budget, Pack(budget, current, pieces), done + pieces)
    decreases |pieces|, 0
  {
    hide PackedGreedily, TextsOfPieces, KeysOfPieces;
    if pieces == [] {
      PackEnds(budget, current, done);
    } else {
      PackUnfold(budget, current, pieces);
      hide Pack, Filling, Append;
      FillingIs(budget, current, done);
      var piece, rest := pieces[0], pieces[1..];
      assert pieces == [piece] + rest;
      if current.text != "" && |current.text| + |piece.text| > budget {
        NothingFills(budget);
        PackPiece(budget, NOTHING, [], piece, rest);
        NothingBefore(piece, pieces);
        ChunkCloses(budget, current, done, pieces, PackRest(budget, NOTHING, piece, rest));
        Assoc([current], Flushed(budget, Append(NOTHING, piece)), Pack(budget, Onward(budget, Append(NOTHING, piece)), rest));
      } else {
        PackPiece(budget, current, done, piece, rest);
        Assoc(done, [piece], rest);
        assert [] + Flushed(budget, Append(current, piece)) == Flushed(budget, Append(current, piece));
      }
    }
  }

  lemma NothingBefore(piece: Piece, pieces: seq<Piece>)
    ensures [] + pieces == pieces && [] + [piece] == [piece]
  {
  }

  lemma FillingIs(budget: nat, current: Piece, done: seq<Piece>)
    requires Filling(budget, current, done)
    ensures current.text == "" <==> done == []
  {
  }

  lemma PackEnds(budget: nat, current: Piece, done: seq<Piece>)
    requires Filling(budget, current, done)
    ensures PackedGreedily(budget, Pack(budget, current, []), done + [])
  {
    hide TextsOfPieces, KeysOfPieces;
    if done == [] {
      assert Pack(budget, current, []) == [] && done + [] == [];
    } else {
      ChunkCloses(budget, current, done, [], []);
      assert [current] + [] == [current] == Pack(budget, current, []);
    }
  }

  function Flushed(budget: nat, next: Piece): seq<Piece> {
    if |next.text| >= budget && next.text != "" then [next] else []
  }

  function Onward(budget: nat, next: Piece): Piece {
    if |next.text| >= budget && next.text != "" then NOTHING else next
  }

  // What comes out once a piece has been taken in.
  function PackRest(budget: nat, current: Piece, piece: Piece, rest: seq<Piece>): seq<Piece> {
    Flushed(budget, Append(current, piece)) + Pack(budget, Onward(budget, Append(current, piece)), rest)
  }

  lemma {:induction false} PackPiece(budget: nat, current: Piece, done: seq<Piece>, piece: Piece, rest: seq<Piece>)
    requires Filling(budget, current, done) && piece.text != "" && forall p <- rest :: p.text != ""
    requires done != [] ==> |current.text| < budget && |current.text| + |piece.text| <= budget
    ensures PackedGreedily(budget, PackRest(budget, current, piece, rest), done + [piece] + rest)
    decreases |rest|, 1
  {
    hide PackedGreedily, TextsOfPieces, KeysOfPieces, Pack, Filling;
    var next := Append(current, piece);
    FillsMore(budget, current, done, piece);
    FillingIs(budget, next, done + [piece]);
    if |next.text| >= budget {
      NothingFills(budget);
      PackGreedily(budget, NOTHING, [], rest);
      NothingBefore(piece, rest);
      ChunkCloses(budget, next, done + [piece], rest, Pack(budget, NOTHING, rest));
    } else {
      PackGreedily(budget, next, done + [piece], rest);
      NothingBefore(piece, Pack(budget, next, rest));
    }
  }

  // The chunks are the pieces, packed greedily.
  lemma ChunksExactly(target: string -> string, hash8: string -> string, diff: string, budget: nat)
    requires ChunkRecords(target, hash8, diff, budget).Ok? && diff != ""
    ensures PackedGreedily(budget, ChunkPieces(target, hash8, diff, budget), PiecesOf(target, hash8, Groups(Lines(diff)), budget))
    ensures ChunkRecords(target, hash8, diff, budget).value == Numbered(RecordsOf(ChunkPieces(target, hash8, diff, budget)))
  {
    hide Filling, Pack, PackedGreedily, PiecesOf, OwnedIn, DisjointOwners, Keys, Groups, Lines, IsBlock;
    var pieces := PiecesOf(target, hash8, Groups(Lines(diff)), budget);
    LinesAreWellCut(diff);
    GroupsAreBlocks(Lines(diff));
    PiecesSolid(target, hash8, Groups(Lines(diff)), budget);
    NothingFills(budget);
    PackGreedily(budget, NOTHING, [], pieces);
    assert [] + pieces == pieces;
  }

  // -------------------------------------------------------------- no line is lost

  predicate ContainsAt(text: string, part: string, i: nat) {
    i + |part| <= |text| && text[i..i + |part|] == part
  }

  ghost predicate Contains(text: string, part: string) {
    exists i: nat :: ContainsAt(text, part, i)
  }

  lemma ContainsInside(a: string, text: string, b: string, part: string)
    requires Contains(text, part)
    ensures Contains(a + text + b, part)
  {
    var i: nat :| ContainsAt(text, part, i);
    assert (a + text + b)[|a| + i..|a| + i + |part|] == text[i..i + |part|];
    assert ContainsAt(a + text + b, part, |a| + i);
  }

  lemma ContainsItself(text: string)
    ensures Contains(text, text)
  {
    assert ContainsAt(text, text, 0);
  }

  lemma {:induction false} FlattenContains(texts: seq<string>, k: nat)
    requires k < |texts|
    ensures Contains(Flatten(texts), texts[k])
  {
    hide Contains;
    var first, rest := texts[0], Flatten(texts[1..]);
    if k == 0 {
      ContainsItself(first);
      ContainsInside("", first, rest, first);
      assert "" + first + rest == first + rest;
    } else {
      FlattenContains(texts[1..], k - 1);
      ContainsInside(first, rest, "", texts[k]);
      assert first + rest + "" == first + rest;
    }
  }

  lemma HunkContains(prefix: string, group: seq<HunkLine>, u: HunkLine)
    requires u in group
    ensures Contains(HunkText(prefix, group), u.text)
  {
    hide Contains, Flatten, Dec, OldLines, NewLines;
    var k :| 0 <= k < |group| && group[k] == u;
    FlattenContains(Texts(group), k);
    var head := prefix + "@@ -" + Dec(group[0].oldNo) + "," + Dec(|OldLines(group)|) + " +" + Dec(group[0].newNo) + ","
      + Dec(|NewLines(group)|) + " @@ continued\n";
    ContainsInside(head, Flatten(Texts(group)), "", u.text);
    ConcatNone(head + Flatten(Texts(group)));
  }

  // Every line comes out in some hunk, cut if it does not fit alone.
  lemma {:induction false} LineComesOut(
      prefix: string, budget: nat, groups: seq<seq<HunkLine>>, units: seq<HunkLine>, i: nat) returns (k: nat)
    requires (forall u <- units :: u.text != "") && CutGreedily(prefix, budget, groups, units) && i < |units|
    ensures k < |groups| && Fit(prefix, units[i], budget) in groups[k]
  {
    hide Render, Fit, Contiguous, IsNext;
    var n := |groups[0]|;
    if i < n {
      k := 0;
      assert groups[0][i] == Fit(prefix, units[i], budget);
    } else {
      var rest := LineComesOut(prefix, budget, groups[1..], units[n..], i - n);
      k := rest + 1;
    }
  }

  lemma {:induction false} TextsContain(pieces: seq<Piece>, k: nat)
    requires k < |pieces|
    ensures Contains(TextsOfPieces(pieces), pieces[k].text)
  {
    hide Contains;
    var n := |pieces| - 1;
    var init, last := TextsOfPieces(pieces[..n]), pieces[n].text;
    if k == n {
      ContainsItself(last);
      ContainsInside(init, last, "", last);
      ConcatNone(init + last);
    } else {
      TextsContain(pieces[..n], k);
      ContainsInside("", init, last, pieces[k].text);
      assert "" + init + last == init + last;
    }
  }

  // Every piece is in some chunk.
  lemma {:induction false} PieceComesOut(budget: nat, chunks: seq<Piece>, pieces: seq<Piece>, k: nat) returns (c: nat)
    requires PackedGreedily(budget, chunks, pieces) && k < |pieces|
    ensures c < |chunks| && Contains(chunks[c].text, pieces[k].text)
    decreases |chunks|
  {
    hide Contains, TextsOfPieces, KeysOfPieces;
    var n: nat :| TakesPieces(budget, chunks[0], pieces, n) && PackedGreedily(budget, chunks[1..], pieces[n..]);
    if k < n {
      c := 0;
      TextsContain(pieces[..n], k);
    } else {
      var rest := PieceComesOut(budget, chunks[1..], pieces[n..], k - n);
      c := rest + 1;
    }
  }

  lemma {:induction false} PieceOfGroup(
      target: string -> string, hash8: string -> string, groups: seq<seq<string>>, budget: nat, g: seq<string>, p: Piece)
      returns (k: nat)
    requires g in groups && p in GroupPieces(target, hash8, g, budget)
    ensures var pieces := PiecesOf(target, hash8, groups, budget); k < |pieces| && pieces[k] == p
  {
    hide GroupPieces;
    var first := GroupPieces(target, hash8, groups[0], budget);
    if groups[0] == g {
      k :| 0 <= k < |first| && first[k] == p;
    } else {
      var rest := PieceOfGroup(target, hash8, groups[1..], budget, g, p);
      k := |first| + rest;
    }
  }

  lemma ContainsInner(text: string, inner: string, part: string)
    requires Contains(text, inner) && Contains(inner, part)
    ensures Contains(text, part)
  {
    var i: nat :| ContainsAt(text, inner, i);
    var j: nat :| ContainsAt(inner, part, j);
    assert text[i + j..i + j + |part|] == inner[j..j + |part|] by { InnerSlice(text, inner, i, j, |part|); }
    assert ContainsAt(text, part, i + j);
  }

  lemma InnerSlice(text: string, inner: string, i: nat, j: nat, n: nat)
    requires i + |inner| <= |text| && text[i..i + |inner|] == inner && j + n <= |inner|
    ensures text[i + j..i + j + n] == inner[j..j + n]
  {
    var a, b, whole := text[i + j..i + j + n], inner[j..j + n], text[i..i + |inner|];
    forall k | 0 <= k < n ensures a[k] == b[k] {
      assert inner[j + k] == whole[j + k];
    }
  }

  // A piece of a block is in some chunk, as it is.
  lemma PieceIsInChunk(target: string -> string, hash8: string -> string, diff: string, budget: nat, g: seq<string>, p: Piece)
    requires ChunkRecords(target, hash8, diff, budget).Ok? && g in Groups(Lines(diff))
    requires p in GroupPieces(target, hash8, g, budget)
    ensures exists c <- ChunkRecords(target, hash8, diff, budget).value :: Contains(c.text, p.text)
  {
    hide Contains, PackedGreedily, PiecesOf, GroupPieces, ChunkRecords, Groups, Lines, ChunkPieces;
    if diff == "" {
      NoGroups();
    } else {
      ChunksExactly(target, hash8, diff, budget);
      var pieces, chunks := PiecesOf(target, hash8, Groups(Lines(diff)), budget), ChunkPieces(target, hash8, diff, budget);
      var k := PieceOfGroup(target, hash8, Groups(Lines(diff)), budget, g, p);
      var i := PieceComesOut(budget, chunks, pieces, k);
      var c := Numbered(RecordsOf(chunks))[i];
      assert c.text == chunks[i].text;
    }
  }

  // Every line of a block that is printed anew is in some chunk: whole when there
  // is room for it behind a header of its own, and otherwise as far as there is.
  lemma EveryLineIsShown(target: string -> string, hash8: string -> string, diff: string, budget: nat, g: seq<string>, i: nat)
    requires ChunkRecords(target, hash8, diff, budget).Ok? && g in Groups(Lines(diff)) && |Join(g)| > budget
    requires i < |Units(g, None)|
    requires |PrefixFor(hash8, PathOf(target, g), budget)| + 28 < budget
    ensures var u := Units(g, None)[i];
      && u.text != ""
      && exists c <- ChunkRecords(target, hash8, diff, budget).value ::
           Contains(c.text, Shown(u.text, RoomFor(PrefixFor(hash8, PathOf(target, g), budget), u, budget)))
  {
    hide Contains, ChunkRecords, Groups, Lines, PrefixFor, Units, CutGreedily, HunkText, WellCut, Shown, HunkOf, Join, PathOf;
    hide OversizedPieces;
    BlocksWellCut(diff, g);
    var path := PathOf(target, g);
    var units, prefix := Units(g, None), PrefixFor(hash8, path, budget);
    OversizedExactly(hash8, path, g, budget);
    var pieces := OversizedPieces(hash8, path, g, budget);
    var groups :| CutGreedily(prefix, budget, groups, units) && PrintsGroups(prefix, groups, pieces);
    var k := LineComesOut(prefix, budget, groups, units, i);
    var u := units[i];
    UnitsStacked(g, None);
    assert Sane(u);
    FittedExactly(prefix, u, budget);
    HunkContains(prefix, groups[k], Fit(prefix, u, budget));
    assert pieces[k] in GroupPieces(target, hash8, g, budget);
    PieceIsInChunk(target, hash8, diff, budget, g, pieces[k]);
    var c :| c in ChunkRecords(target, hash8, diff, budget).value && Contains(c.text, pieces[k].text);
    ContainsInner(c.text, pieces[k].text, Fit(prefix, u, budget).text);
  }

  lemma BlocksWellCut(diff: string, g: seq<string>)
    requires g in Groups(Lines(diff))
    ensures WellCut(g)
  {
    hide Groups, Lines;
    LinesAreWellCut(diff);
    GroupsAreBlocks(Lines(diff));
  }

  // A block that fits the budget is in some chunk as it is.
  lemma BlockIsShown(target: string -> string, hash8: string -> string, diff: string, budget: nat, g: seq<string>)
    requires ChunkRecords(target, hash8, diff, budget).Ok? && g in Groups(Lines(diff)) && |Join(g)| <= budget
    ensures exists c <- ChunkRecords(target, hash8, diff, budget).value :: Contains(c.text, Join(g))
  {
    hide Contains, ChunkRecords, Groups, Lines, Join, GroupKeys;
    PieceIsInChunk(target, hash8, diff, budget, g, Piece(Join(g), GroupKeys(target, g)));
  }

  lemma {:induction false} OwnedInIs(chunks: seq<Record>, key: Key)
    ensures key in OwnedIn(chunks) <==> exists i | 0 <= i < |chunks| :: key in chunks[i].owned
  {
    if chunks != [] {
      var n := |chunks| - 1;
      OwnedInIs(chunks[..n], key);
      if i :| 0 <= i < n && key in chunks[..n][i].owned {
        assert key in chunks[i].owned;
      }
    }
  }

  // Chunking fails for a budget that is not positive, then when two pieces own the
  // same line, and then when the lines owned are not those added.
  lemma ErrorsExactly(target: string -> string, hash8: string -> string, diff: string, budget: int)
    ensures var r := ChunkRecords(target, hash8, diff, budget);
      && (r == Err(BudgetNotPositive) <==> budget <= 0)
      && (budget > 0 && diff == "" ==> r == Ok([]))
      && (budget > 0 && diff != "" ==>
            var chunks, added := ChunkPieces(target, hash8, diff, budget), Keys(target, diff);
            var shared := exists i, j, key | 0 <= i < j < |chunks| :: key in chunks[i].keys && key in chunks[j].keys;
            var same := forall key :: key in added <==> exists i | 0 <= i < |chunks| :: key in chunks[i].keys;
            && (r == Err(MultipleOwners) <==> shared)
            && (r == Err(LostLines) <==> !shared && !same)
            && (r.Ok? ==> |r.value| == |chunks| && forall i | 0 <= i < |chunks| ::
                  r.value[i].index == i && r.value[i].text == chunks[i].text
                  && forall key :: key in r.value[i].owned <==> key in chunks[i].keys))
  {
    hide Keys;
    if budget > 0 && diff != "" {
      var chunks, added := ChunkPieces(target, hash8, diff, budget), Keys(target, diff);
      hide ChunkPieces;
      var records := RecordsOf(chunks);
      SharedIs(chunks);
      SameIs(chunks, added);
    }
  }

  lemma SharedIs(chunks: seq<Piece>)
    ensures !DisjointOwners(RecordsOf(chunks)) <==>
      exists i, j, key | 0 <= i < j < |chunks| :: key in chunks[i].keys && key in chunks[j].keys
  {
    var records := RecordsOf(chunks);
    if i, j, key :| 0 <= i < j < |chunks| && key in chunks[i].keys && key in chunks[j].keys {
      assert key in records[i].owned && key in records[j].owned;
    }
    if !DisjointOwners(records) {
      var i, j :| 0 <= i < j < |records| && !(records[i].owned !! records[j].owned);
      var key :| key in records[i].owned && key in records[j].owned;
      assert key in chunks[i].keys && key in chunks[j].keys;
    }
  }

  lemma SameIs(chunks: seq<Piece>, added: seq<Key>)
    ensures OwnedIn(RecordsOf(chunks)) == Elements(added) <==>
      forall key :: key in added <==> exists i | 0 <= i < |chunks| :: key in chunks[i].keys
  {
    var records := RecordsOf(chunks);
    forall key ensures key in OwnedIn(records) <==> exists i | 0 <= i < |chunks| :: key in chunks[i].keys {
      OwnedInIs(records, key);
      if i :| 0 <= i < |chunks| && key in chunks[i].keys {
        assert key in records[i].owned;
      }
    }
    if OwnedIn(records) == Elements(added) {
      forall key ensures key in added <==> exists i | 0 <= i < |chunks| :: key in chunks[i].keys {
        assert key in Elements(added) <==> key in added;
      }
    }
  }
}
