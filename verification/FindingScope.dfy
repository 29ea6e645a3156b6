// What normalizing a path and applying the scope mean, without following how they
// are computed.
module FindingScope {
  import opened Text
  import opened FindingPolicy

  // ------------------------------------------------------------ normal paths

  predicate Slashless(segments: seq<string>) {
    segments != [] && forall i | 0 <= i < |segments| :: '/' !in segments[i]
  }

  lemma {:induction false} SegmentsOfJoined(segments: seq<string>)
    requires Slashless(segments)
    ensures Segments(JoinParts(segments)) == segments
  {
    if |segments| == 1 {
      SegmentsOfPart(segments[0], "");
    } else {
      SegmentsOfJoined(segments[1..]);
      SegmentsOfPart(segments[0], JoinParts(segments[1..]));
    }
  }

  lemma JoinPush(c: char, segments: seq<string>)
    requires segments != []
    ensures JoinParts([[c] + segments[0]] + segments[1..]) == [c] + JoinParts(segments)
  {
    var pushed := [[c] + segments[0]] + segments[1..];
    assert pushed[1..] == segments[1..];
  }

  lemma {:induction false} JoinSegments(path: string)
    ensures JoinParts(Segments(path)) == path
  {
    if path != "" {
      var rest := Segments(path[1..]);
      JoinSegments(path[1..]);
      assert path == [path[0]] + path[1..];
      if path[0] == '/' {
        assert ([""] + rest)[1..] == rest;
      } else {
        JoinPush(path[0], rest);
      }
    }
  }

  // A path is cut in one way only into pieces without slashes.
  lemma SegmentsExactly(path: string, segments: seq<string>)
    ensures Segments(path) == segments <==> Slashless(segments) && JoinParts(segments) == path
  {
    JoinSegments(path);
    if Slashless(segments) {
      SegmentsOfJoined(segments);
    }
  }

  // The pieces that count, in order: not empty and not ".".
  predicate PiecesKept(segments: seq<string>, at: seq<nat>, kept: seq<string>) {
    && Picks(at, |segments|)
    && (forall i | 0 <= i < |segments| :: i in at <==> segments[i] != "" && segments[i] != ".")
    && |kept| == |at| && forall k | 0 <= k < |at| :: kept[k] == segments[at[k]]
  }

  lemma PieceMore(segments: seq<string>, at: seq<nat>, kept: seq<string>, last: string)
    requires PiecesKept(segments, at, kept)
    ensures !IsPart(last) ==> PiecesKept(segments + [last], at, kept)
    ensures IsPart(last) ==> PiecesKept(segments + [last], at + [|segments|], kept + [last])
  {
    PicksMore(at, |segments|);
    hide Picks;
  }

  lemma {:induction false} PartsMore(segments: seq<string>, last: string)
    ensures Parts(segments + [last]) == if IsPart(last) then Parts(segments) + [last] else Parts(segments)
  {
    if segments == [] {
      assert ([] + [last])[1..] == [];
    } else {
      PartsMore(segments[1..], last);
      assert (segments + [last])[1..] == segments[1..] + [last];
    }
  }

  lemma {:induction false} PartsKept(segments: seq<string>)
    ensures exists at :: PiecesKept(segments, at, Parts(segments))
  {
    if segments == [] {
      assert PiecesKept(segments, [], Parts(segments));
    } else {
      hide PiecesKept, Parts, IsPart;
      var n := |segments| - 1;
      PartsKept(segments[..n]);
      var at :| PiecesKept(segments[..n], at, Parts(segments[..n]));
      PieceMore(segments[..n], at, Parts(segments[..n]), segments[n]);
      PartsMore(segments[..n], segments[n]);
      assert segments == segments[..n] + [segments[n]];
    }
  }

  ghost predicate IsNormal(segments: seq<string>, normal: string) {
    exists at, kept :: PiecesKept(segments, at, kept) && normal == JoinParts(kept)
  }

  // A path made of these pieces has no normal form exactly when it is empty or
  // absolute, contains a zero, goes up, or has no piece that counts; otherwise its
  // normal form is made of the pieces that count.
  lemma NormalizeExactly(path: string, segments: seq<string>)
    requires Slashless(segments) && path == JoinParts(segments)
    ensures Normalize(path).None? <==>
      || segments[0] == "" || '\0' in path || ".." in segments
      || forall i | 0 <= i < |segments| :: segments[i] == "" || segments[i] == "."
    ensures Normalize(path).Some? ==> IsNormal(segments, Normalize(path).value)
  {
    hide JoinParts, Parts, Segments;
    SegmentsExactly(path, segments);
    FirstPiece(segments);
    PartsKept(segments);
    var at :| PiecesKept(segments, at, Parts(segments));
    assert ".." in Parts(segments) <==> ".." in segments by {
      UpIsKept(segments, at, Parts(segments));
    }
    assert Parts(segments) == [] <==> forall i | 0 <= i < |segments| :: segments[i] == "" || segments[i] == "." by {
      NoneKept(segments, at, Parts(segments));
    }
  }

  lemma FirstPiece(segments: seq<string>)
    requires Slashless(segments)
    ensures segments[0] == "" <==> JoinParts(segments) == "" || JoinParts(segments)[0] == '/'
  {
  }

  lemma UpIsKept(segments: seq<string>, at: seq<nat>, kept: seq<string>)
    requires PiecesKept(segments, at, kept)
    ensures ".." in kept <==> ".." in segments
  {
    if i :| 0 <= i < |segments| && segments[i] == ".." {
      var k :| 0 <= k < |at| && at[k] == i;
      assert kept[k] == "..";
    }
  }

  lemma NoneKept(segments: seq<string>, at: seq<nat>, kept: seq<string>)
    requires PiecesKept(segments, at, kept)
    ensures kept == [] <==> forall i | 0 <= i < |segments| :: segments[i] == "" || segments[i] == "."
  {
    if at != [] {
      assert at[0] in at;
    }
  }

  // ------------------------------------------------------------------- scope

  predicate OnOwnedLine(f: Finding, owners: Owners) {
    Normalize(f.file).Some? && (Normalize(f.file).value, f.line) in owners
  }

  // The finding as it is stored: under its normal path if it has one, with the
  // chunk that owns its line; it can be posted exactly when there is such a chunk.
  predicate Placed(f: Finding, g: Finding, owners: Owners) {
    && g == f.(file := g.file, owner := g.owner, scope := g.scope, eligible := g.eligible)
    && (Normalize(f.file).Some? ==> g.file == Normalize(f.file).value)
    && (Normalize(f.file).None? ==> g.file == f.file)
    && (g.eligible <==> OnOwnedLine(f, owners))
    && (OnOwnedLine(f, owners) ==>
          var chunk := owners[(Normalize(f.file).value, f.line)];
          g.owner == Some(chunk) && g.scope == if chunk == f.source then Owned else Reassigned)
    && (!OnOwnedLine(f, owners) ==> g.owner == None && g.scope == WouldReject)
  }

  predicate ScopedRows(
    findings: seq<Finding>, at: seq<nat>, kept: seq<Finding>, owners: Owners, enforce: bool)
  {
    && Picks(at, |findings|)
    && (forall i | 0 <= i < |findings| :: i in at <==> !enforce || OnOwnedLine(findings[i], owners))
    && |kept| == |at| && forall k | 0 <= k < |at| :: Placed(findings[at[k]], kept[k], owners)
  }

  lemma ScopedIsPlaced(f: Finding, owners: Owners)
    ensures Placed(f, Scoped(f, owners), owners)
    ensures OwnerOf(f, owners).Some? <==> OnOwnedLine(f, owners)
  {
    hide Normalize;
  }

  lemma RowsGrow(findings: seq<Finding>, at: seq<nat>, kept: seq<Finding>, owners: Owners, enforce: bool, f: Finding)
    requires ScopedRows(findings, at, kept, owners, enforce)
    ensures enforce && !OnOwnedLine(f, owners) ==> ScopedRows(findings + [f], at, kept, owners, enforce)
    ensures !enforce || OnOwnedLine(f, owners) ==>
      ScopedRows(findings + [f], at + [|findings|], kept + [Scoped(f, owners)], owners, enforce)
  {
    hide OnOwnedLine, Placed, Scoped;
    ScopedIsPlaced(f, owners);
    PicksMore(at, |findings|);
  }

  ghost predicate IsScoped(findings: seq<Finding>, kept: seq<Finding>, owners: Owners, enforce: bool) {
    exists at :: ScopedRows(findings, at, kept, owners, enforce)
  }

  lemma ScopedMore(findings: seq<Finding>, kept: seq<Finding>, owners: Owners, enforce: bool, f: Finding)
    requires IsScoped(findings, kept, owners, enforce)
    ensures IsScoped(findings + [f], if enforce && OwnerOf(f, owners).None? then kept else kept + [Scoped(f, owners)],
                     owners, enforce)
  {
    hide ScopedRows, OwnerOf, OnOwnedLine, Scoped;
    var at :| ScopedRows(findings, at, kept, owners, enforce);
    ScopedIsPlaced(f, owners);
    RowsGrow(findings, at, kept, owners, enforce, f);
  }

  lemma NothingScoped(owners: Owners, enforce: bool)
    ensures IsScoped([], [], owners, enforce)
  {
    assert ScopedRows([], [], [], owners, enforce);
  }

  // Applying the scope keeps the findings in order: all of them, or when enforced
  // those on lines that a chunk owns.
  lemma {:induction false} ScopeExactly(findings: seq<Finding>, owners: Owners, enforce: bool)
    ensures IsScoped(findings, ScopeAll(findings, owners, enforce), owners, enforce)
  {
    hide IsScoped, OwnerOf, Scoped;
    if findings == [] {
      NothingScoped(owners, enforce);
    } else {
      var n := |findings| - 1;
      ScopeExactly(findings[..n], owners, enforce);
      ScopedMore(findings[..n], ScopeAll(findings[..n], owners, enforce), owners, enforce, findings[n]);
      assert findings == findings[..n] + [findings[n]];
    }
  }
}
