// Where a finding belongs: its normalized path, and the chunk that owns the line
// it points at.
module FindingPolicy {
  import opened Text

  // -------------------------------------------------------------------- paths

  // A path cut at every slash.
  function Segments(path: string): (parts: seq<string>)
    ensures parts != []
    ensures forall i | 0 <= i < |parts| :: '/' !in parts[i]
  {
    if path == "" then [""]
    else
      var rest := Segments(path[1..]);
      if path[0] == '/' then [""] + rest else [[path[0]] + rest[0]] + rest[1..]
  }

  predicate IsPart(part: string) {
    part != "" && part != "."
  }

  function Parts(segments: seq<string>): seq<string> {
    if segments == [] then []
    else if IsPart(segments[0]) then [segments[0]] + Parts(segments[1..])
    else Parts(segments[1..])
  }

  function JoinParts(parts: seq<string>): string {
    if parts == [] then "" else if |parts| == 1 then parts[0] else parts[0] + "/" + JoinParts(parts[1..])
  }

  // The path as findings are compared by it: relative, without empty and "."
  // parts; none for absolute paths and paths that go up.
  function Normalize(path: string): Option<string> {
    if path == "" || '\0' in path || path[0] == '/' then None
    else
      var parts := Parts(Segments(path));
      if ".." in parts || parts == [] then None else Some(JoinParts(parts))
  }

  predicate Clean(parts: seq<string>) {
    forall i | 0 <= i < |parts| :: IsPart(parts[i]) && parts[i] != ".." && '/' !in parts[i] && '\0' !in parts[i]
  }

  lemma {:induction false} PartsAre(segments: seq<string>)
    ensures forall i | 0 <= i < |Parts(segments)| :: IsPart(Parts(segments)[i]) && Parts(segments)[i] in segments
  {
    if segments != [] {
      PartsAre(segments[1..]);
    }
  }

  lemma {:induction false} CleanParts(parts: seq<string>)
    requires Clean(parts)
    ensures Parts(parts) == parts
  {
    if parts != [] {
      assert Clean(parts[1..]) by {
        forall i | 0 <= i < |parts[1..]| ensures IsPart(parts[1..][i]) && parts[1..][i] != ".." && '/' !in parts[1..][i] && '\0' !in parts[1..][i] {
          assert parts[1..][i] == parts[i + 1];
        }
      }
      CleanParts(parts[1..]);
    }
  }

  lemma {:induction false} SegmentsOfPart(part: string, rest: string)
    requires '/' !in part
    ensures Segments(part) == [part]
    ensures Segments(part + "/" + rest) == [part] + Segments(rest)
  {
    if part == "" {
      assert part + "/" + rest == ['/'] + rest;
    } else {
      var tail := part[1..];
      SegmentsOfPart(tail, rest);
      var whole := part + "/" + rest;
      assert whole[1..] == tail + "/" + rest;
      assert [part[0]] + tail == part;
    }
  }

  lemma {:induction false} SegmentsOfJoin(parts: seq<string>)
    requires Clean(parts) && parts != []
    ensures Segments(JoinParts(parts)) == parts
    ensures JoinParts(parts) != "" && JoinParts(parts)[0] != '/' && '\0' !in JoinParts(parts)
  {
    assert IsPart(parts[0]) && '/' !in parts[0] && '\0' !in parts[0];
    if |parts| == 1 {
      SegmentsOfPart(parts[0], "");
    } else {
      var rest := parts[1..];
      assert Clean(rest) by {
        forall i | 0 <= i < |rest| ensures IsPart(rest[i]) && rest[i] != ".." && '/' !in rest[i] && '\0' !in rest[i] {
          assert rest[i] == parts[i + 1];
        }
      }
      SegmentsOfJoin(rest);
      SegmentsOfPart(parts[0], JoinParts(rest));
      assert parts == [parts[0]] + rest;
    }
  }

  lemma {:induction false} SegmentChars(path: string, c: char)
    requires c !in path
    ensures forall i | 0 <= i < |Segments(path)| :: c !in Segments(path)[i]
  {
    if path != "" {
      SegmentChars(path[1..], c);
      assert path == [path[0]] + path[1..];
    }
  }

  // Normalizing is idempotent: a normalized path is its own normal form.
  lemma NormalizeTwice(path: string)
    requires Normalize(path).Some?
    ensures Normalize(Normalize(path).value) == Normalize(path)
  {
    hide Segments, Parts, JoinParts;
    var segments := Segments(path);
    var parts := Parts(segments);
    PartsAre(segments);
    SegmentChars(path, '\0');
    assert Clean(parts);
    SegmentsOfJoin(parts);
    CleanParts(parts);
  }

  // -------------------------------------------------------------------- scope

  datatype Scope = Unscoped | Owned | Reassigned | WouldReject

  datatype Finding = Finding(
    vendor: string, file: string, line: int, category: string, claim: string, source: nat,
    owner: Option<nat>, scope: Scope, eligible: bool, group: Option<nat>, suggested: bool)

  // The chunk that owns each changed line.
  type Owners = map<(string, int), nat>

  function OwnerOf(f: Finding, owners: Owners): Option<nat> {
    var path := Normalize(f.file);
    if path.Some? && (path.value, f.line) in owners then Some(owners[(path.value, f.line)]) else None
  }

  function Scoped(f: Finding, owners: Owners): Finding {
    var path, owner := Normalize(f.file), OwnerOf(f, owners);
    f.(file := if path.Some? then path.value else f.file,
       owner := owner,
       scope := if owner.None? then WouldReject else if owner.value == f.source then Owned else Reassigned,
       eligible := owner.Some?)
  }

  // When the scope is enforced, findings outside the changed lines are dropped.
  function ScopeAll(findings: seq<Finding>, owners: Owners, enforce: bool): seq<Finding> {
    if findings == [] then []
    else
      var before := ScopeAll(findings[..|findings| - 1], owners, enforce);
      var f := findings[|findings| - 1];
      if enforce && OwnerOf(f, owners).None? then before else before + [Scoped(f, owners)]
  }

  lemma {:induction false} ScopeStep(findings: seq<Finding>, i: nat, owners: Owners, enforce: bool)
    requires i < |findings|
    ensures ScopeAll(findings[..i + 1], owners, enforce) ==
      var before := ScopeAll(findings[..i], owners, enforce);
      if enforce && OwnerOf(findings[i], owners).None? then before else before + [Scoped(findings[i], owners)]
  {
    hide OwnerOf, Scoped;
    assert findings[..i + 1][..i] == findings[..i];
  }

  method ApplyFindingScope(findings: seq<Finding>, owners: Owners, enforce: bool) returns (kept: seq<Finding>)
    ensures kept == ScopeAll(findings, owners, enforce)
  {
    hide Normalize;
    kept := [];
    for i := 0 to |findings|
      invariant kept == ScopeAll(findings[..i], owners, enforce)
    {
      ScopeStep(findings, i, owners, enforce);
      var f := findings[i];
      var path := Normalize(f.file);
      if path.Some? {
        f := f.(file := path.value);
      }
      var owner := if path.Some? && (path.value, f.line) in owners then Some(owners[(path.value, f.line)]) else None;
      f := f.(owner := owner);
      if owner.None? {
        f := f.(scope := WouldReject, eligible := false);
        if enforce {
          continue;
        }
      } else if owner.value == f.source {
        f := f.(scope := Owned, eligible := true);
      } else {
        f := f.(scope := Reassigned, eligible := true);
      }
      kept := kept + [f];
    }
    assert findings[..|findings|] == findings;
  }

  // A finding's location once the scope has been applied: its path is normal, and
  // it can be posted exactly when some chunk owns its line.
  predicate InScope(f: Finding, owners: Owners) {
    && (Normalize(f.file).Some? ==> Normalize(f.file) == Some(f.file))
    && f.owner == OwnerOf(f, owners)
    && (f.eligible <==> f.owner.Some?)
    && (f.scope == Owned <==> f.owner == Some(f.source))
    && (f.scope == WouldReject <==> f.owner == None)
  }

  lemma ScopedIsInScope(f: Finding, owners: Owners)
    ensures InScope(Scoped(f, owners), owners)
  {
    hide Normalize;
    if Normalize(f.file).Some? {
      NormalizeTwice(f.file);
    }
  }

  lemma {:induction false} KeptIsScoped(findings: seq<Finding>, owners: Owners, enforce: bool)
    ensures forall g <- ScopeAll(findings, owners, enforce) ::
      exists f <- findings :: g == Scoped(f, owners) && (enforce ==> OwnerOf(f, owners).Some?)
  {
    hide OwnerOf, Scoped;
    if findings != [] {
      var n := |findings| - 1;
      KeptIsScoped(findings[..n], owners, enforce);
      assert findings == findings[..n] + [findings[n]];
      forall g <- ScopeAll(findings, owners, enforce)
        ensures exists f <- findings :: g == Scoped(f, owners) && (enforce ==> OwnerOf(f, owners).Some?)
      {
        if g in ScopeAll(findings[..n], owners, enforce) {
          var f :| f in findings[..n] && g == Scoped(f, owners) && (enforce ==> OwnerOf(f, owners).Some?);
          assert f in findings;
        } else {
          assert g == Scoped(findings[n], owners) && findings[n] in findings;
        }
      }
    }
  }

  lemma {:induction false} ScopedIsKept(findings: seq<Finding>, owners: Owners, enforce: bool, f: Finding)
    requires f in findings && (OwnerOf(f, owners).Some? || !enforce)
    ensures Scoped(f, owners) in ScopeAll(findings, owners, enforce)
  {
    hide OwnerOf, Scoped;
    var n := |findings| - 1;
    assert findings == findings[..n] + [findings[n]];
    if f in findings[..n] {
      ScopedIsKept(findings[..n], owners, enforce, f);
    }
  }

  // What remains is in scope, and enforcing the scope keeps exactly the findings
  // on lines that a chunk owns.
  lemma ScopeKeeps(findings: seq<Finding>, owners: Owners, enforce: bool)
    ensures var kept := ScopeAll(findings, owners, enforce);
      && (forall g <- kept :: InScope(g, owners) && (enforce ==> g.eligible))
      && (forall f <- findings :: (OwnerOf(f, owners).Some? || !enforce) ==> Scoped(f, owners) in kept)
      && (forall g <- kept :: exists f <- findings :: g == Scoped(f, owners))
  {
    hide ScopeAll, InScope, OwnerOf;
    var kept := ScopeAll(findings, owners, enforce);
    KeptIsScoped(findings, owners, enforce);
    forall g <- kept ensures InScope(g, owners) && (enforce ==> g.eligible) {
      var f :| f in findings && g == Scoped(f, owners) && (enforce ==> OwnerOf(f, owners).Some?);
      ScopedIsInScope(f, owners);
    }
    forall f <- findings | OwnerOf(f, owners).Some? || !enforce ensures Scoped(f, owners) in kept {
      ScopedIsKept(findings, owners, enforce, f);
    }
  }
}
