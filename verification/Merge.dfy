// Merging findings of several vendors: a finding joins the first group whose
// first member is close enough, or starts a group of its own.
module Merge {
  import opened Text
  import opened FindingPolicy

  const LINE_PROXIMITY: nat := 5

  // Members of a group are given by their index in the input.
  type Groups = seq<seq<nat>>

  predicate Close(h: Finding, f: Finding) {
    && h.file == f.file && h.category == f.category
    && -(LINE_PROXIMITY as int) <= h.line - f.line <= LINE_PROXIMITY
  }

  predicate Indices(groups: Groups, n: nat) {
    forall g | 0 <= g < |groups| :: groups[g] != [] && forall k | 0 <= k < |groups[g]| :: groups[g][k] < n
  }

  // The first group that finding i is close to the head of.
  function FirstClose(groups: Groups, findings: seq<Finding>, i: nat): (g: nat)
    requires Indices(groups, |findings|) && i < |findings|
    ensures g <= |groups|
    ensures g < |groups| ==> Close(findings[groups[g][0]], findings[i])
    ensures forall h | 0 <= h < g :: !Close(findings[groups[h][0]], findings[i])
  {
    if groups == [] then 0
    else if Close(findings[groups[0][0]], findings[i]) then 0
    else
      assert forall h | 0 <= h < |groups[1..]| :: groups[1..][h] == groups[h + 1];
      1 + FirstClose(groups[1..], findings, i)
  }

  function Place(groups: Groups, findings: seq<Finding>, i: nat): (placed: Groups)
    requires Indices(groups, |findings|) && i < |findings|
    ensures Indices(placed, |findings|)
  {
    var g := FirstClose(groups, findings, i);
    if g < |groups| then groups[g := groups[g] + [i]] else groups + [[i]]
  }

  function GroupsOf(findings: seq<Finding>, n: nat): (groups: Groups)
    requires n <= |findings|
    ensures Indices(groups, |findings|)
  {
    if n == 0 then [] else Place(GroupsOf(findings, n - 1), findings, n - 1)
  }

  function Flat(groups: Groups): seq<nat> {
    if groups == [] then [] else Flat(groups[..|groups| - 1]) + groups[|groups| - 1]
  }

  datatype Merged = Merged(finding: Finding, consensus: bool, group: nat)

  // Findings of two vendors agree.
  predicate Agree(group: seq<nat>, findings: seq<Finding>)
    requires forall k | 0 <= k < |group| :: group[k] < |findings|
  {
    exists j, k :: 0 <= j < |group| && 0 <= k < |group| && findings[group[j]].vendor != findings[group[k]].vendor
  }

  function Tagged(group: seq<nat>, findings: seq<Finding>, g: nat): seq<Merged>
    requires forall k | 0 <= k < |group| :: group[k] < |findings|
  {
    seq(|group|, k requires 0 <= k < |group| => Merged(findings[group[k]], Agree(group, findings), g))
  }

  function MergedOf(groups: Groups, findings: seq<Finding>): seq<Merged>
    requires Indices(groups, |findings|)
  {
    if groups == [] then []
    else
      var n := |groups| - 1;
      assert Indices(groups[..n], |findings|);
      MergedOf(groups[..n], findings) + Tagged(groups[n], findings, n)
  }

  method VendorsDiffer(group: seq<nat>, findings: seq<Finding>) returns (differ: bool)
    requires forall k | 0 <= k < |group| :: group[k] < |findings|
    ensures differ <==> Agree(group, findings)
  {
    var vendors: set<string> := {};
    for k := 0 to |group|
      invariant forall v :: v in vendors <==> exists j | 0 <= j < k :: findings[group[j]].vendor == v
    {
      vendors := vendors + {findings[group[k]].vendor};
    }
    differ := |vendors| > 1;
    DifferMeans(group, findings, vendors);
  }

  lemma DifferMeans(group: seq<nat>, findings: seq<Finding>, vendors: set<string>)
    requires forall k | 0 <= k < |group| :: group[k] < |findings|
    requires forall v :: v in vendors <==> exists j | 0 <= j < |group| :: findings[group[j]].vendor == v
    ensures |vendors| > 1 <==> Agree(group, findings)
  {
    SeveralMembers(vendors);
    if |vendors| > 1 {
      var v, w :| v in vendors && w in vendors && v != w;
      var j :| 0 <= j < |group| && findings[group[j]].vendor == v;
      var k :| 0 <= k < |group| && findings[group[k]].vendor == w;
      assert findings[group[j]].vendor != findings[group[k]].vendor;
    }
    if Agree(group, findings) {
      var j, k :| 0 <= j < |group| && 0 <= k < |group| && findings[group[j]].vendor != findings[group[k]].vendor;
      assert findings[group[j]].vendor in vendors && findings[group[k]].vendor in vendors;
    }
  }

  lemma SeveralMembers(s: set<string>)
    ensures |s| > 1 <==> exists v, w :: v in s && w in s && v != w
  {
    if |s| > 1 {
      var v :| v in s;
      assert |s - {v}| == |s| - 1;
      var w :| w in s - {v};
    }
    if v, w :| v in s && w in s && v != w {
      assert {v, w} <= s;
      var rest := s - {v, w};
      assert s == rest + {v, w} && |s| == |rest| + |{v, w}|;
    }
  }

  method PlaceInGroup(groups: Groups, findings: seq<Finding>, i: nat) returns (placed: Groups)
    requires Indices(groups, |findings|) && i < |findings|
    ensures placed == Place(groups, findings, i)
  {
    hide Close;
    var g := 0;
    while g < |groups|
      invariant g <= |groups|
      invariant forall h | 0 <= h < g :: !Close(findings[groups[h][0]], findings[i])
    {
      if Close(findings[groups[g][0]], findings[i]) {
        return groups[g := groups[g] + [i]];
      }
      g := g + 1;
    }
    return groups + [[i]];
  }

  method TagGroups(groups: Groups, findings: seq<Finding>) returns (out: seq<Merged>)
    requires Indices(groups, |findings|)
    ensures out == MergedOf(groups, findings)
  {
    hide Agree;
    out := [];
    for g := 0 to |groups|
      invariant Indices(groups[..g], |findings|)
      invariant out == MergedOf(groups[..g], findings)
    {
      var consensus := VendorsDiffer(groups[g], findings);
      assert groups[..g + 1][..g] == groups[..g];
      out := out + seq(|groups[g]|, k requires 0 <= k < |groups[g]| => Merged(findings[groups[g][k]], consensus, g));
      assert Tagged(groups[g], findings, g) ==
        seq(|groups[g]|, k requires 0 <= k < |groups[g]| => Merged(findings[groups[g][k]], consensus, g));
    }
    assert groups[..|groups|] == groups;
  }

  method DeterministicMerge(findings: seq<Finding>) returns (out: seq<Merged>)
    ensures out == MergedOf(GroupsOf(findings, |findings|), findings)
  {
    hide Place, MergedOf;
    var groups: Groups := [];
    for i := 0 to |findings|
      invariant groups == GroupsOf(findings, i)
    {
      groups := PlaceInGroup(groups, findings, i);
    }
    out := TagGroups(groups, findings);
  }

  // ----------------------------------------------------------------- properties

  // Members come in input order and are close to the head of their group, and to
  // the head of no earlier group.
  predicate GroupOk(groups: Groups, findings: seq<Finding>, g: nat)
    requires Indices(groups, |findings|) && g < |groups|
  {
    && (forall j, k | 0 <= j < k < |groups[g]| :: groups[g][j] < groups[g][k])
    && (forall k | 0 <= k < |groups[g]| :: Close(findings[groups[g][0]], findings[groups[g][k]]))
    && (forall h, k | 0 <= h < g && 0 <= k < |groups[g]| :: !Close(findings[groups[h][0]], findings[groups[g][k]]))
  }

  predicate GroupsOk(groups: Groups, findings: seq<Finding>, n: nat)
    requires n <= |findings|
  {
    && Indices(groups, n) && Indices(groups, |findings|)
    && forall g | 0 <= g < |groups| :: GroupOk(groups, findings, g)
  }

  lemma PlaceKeeps(groups: Groups, findings: seq<Finding>, n: nat)
    requires n < |findings| && GroupsOk(groups, findings, n)
    ensures GroupsOk(Place(groups, findings, n), findings, n + 1)
  {
    var g, placed := FirstClose(groups, findings, n), Place(groups, findings, n);
    assert forall h | 0 <= h < |groups| :: placed[h][0] == groups[h][0];
    hide Close;
    SelfClose(findings[n]);
    forall h | 0 <= h < |placed| ensures GroupOk(placed, findings, h) {
      if h < |groups| {
        assert GroupOk(groups, findings, h);
      }
    }
  }

  lemma SelfClose(f: Finding)
    ensures Close(f, f)
  {
  }

  lemma {:induction false} GroupsAreOk(findings: seq<Finding>, n: nat)
    requires n <= |findings|
    ensures GroupsOk(GroupsOf(findings, n), findings, n)
  {
    hide GroupsOk;
    if n == 0 {
      NoGroupsOk(findings);
    } else {
      GroupsAreOk(findings, n - 1);
      PlaceKeeps(GroupsOf(findings, n - 1), findings, n - 1);
    }
  }

  lemma NoGroupsOk(findings: seq<Finding>)
    ensures GroupsOk([], findings, 0)
  {
  }

  lemma {:induction false} FlatUpdate(groups: Groups, g: nat, i: nat)
    requires g < |groups|
    ensures multiset(Flat(groups[g := groups[g] + [i]])) == multiset(Flat(groups)) + multiset{i}
  {
    var n := |groups| - 1;
    var updated := groups[g := groups[g] + [i]];
    if g < n {
      FlatUpdate(groups[..n], g, i);
      assert updated[..n] == groups[..n][g := groups[..n][g] + [i]];
    } else {
      assert updated[..n] == groups[..n];
    }
  }

  function UpTo(n: nat): (s: seq<nat>)
    ensures |s| == n && forall i | 0 <= i < n :: s[i] == i
  {
    if n == 0 then [] else UpTo(n - 1) + [n - 1]
  }

  lemma FlatAppend(groups: Groups, group: seq<nat>)
    ensures Flat(groups + [group]) == Flat(groups) + group
  {
    assert (groups + [group])[..|groups|] == groups;
  }

  lemma PlaceFlat(groups: Groups, findings: seq<Finding>, i: nat)
    requires Indices(groups, |findings|) && i < |findings|
    ensures multiset(Flat(Place(groups, findings, i))) == multiset(Flat(groups)) + multiset{i}
  {
    hide Flat, Close;
    var g := FirstClose(groups, findings, i);
    if g < |groups| {
      FlatUpdate(groups, g, i);
    } else {
      FlatAppend(groups, [i]);
    }
  }

  // Every finding ends up in exactly one place.
  lemma {:induction false} FlatIsPermutation(findings: seq<Finding>, n: nat)
    requires n <= |findings|
    ensures multiset(Flat(GroupsOf(findings, n))) == multiset(UpTo(n))
  {
    hide Place, Flat, UpTo;
    if n == 0 {
      assert UpTo(0) == [];
      assert Flat([]) == [] by { FlatNothing(); }
    } else {
      FlatIsPermutation(findings, n - 1);
      UpToStep(n);
      PlaceFlat(GroupsOf(findings, n - 1), findings, n - 1);
    }
  }

  lemma FlatNothing()
    ensures Flat([]) == []
  {
  }

  function Picked(findings: seq<Finding>, indices: seq<nat>): seq<Finding>
    requires forall k | 0 <= k < |indices| :: indices[k] < |findings|
  {
    seq(|indices|, k requires 0 <= k < |indices| => findings[indices[k]])
  }

  lemma {:induction false} FlatBounded(groups: Groups, n: nat)
    requires Indices(groups, n)
    ensures forall k | 0 <= k < |Flat(groups)| :: Flat(groups)[k] < n
  {
    if groups != [] {
      assert Indices(groups[..|groups| - 1], n);
      FlatBounded(groups[..|groups| - 1], n);
    }
  }

  lemma Without<T>(s: seq<T>, p: nat)
    requires p < |s|
    ensures multiset(s) == multiset(s[..p] + s[p + 1..]) + multiset{s[p]}
  {
    assert s == s[..p] + [s[p]] + s[p + 1..];
  }

  lemma {:induction false} PickedPermutation(findings: seq<Finding>, indices: seq<nat>, n: nat)
    requires n <= |findings| && multiset(indices) == multiset(UpTo(n))
    ensures forall k | 0 <= k < |indices| :: indices[k] < |findings|
    ensures multiset(Picked(findings, indices)) == multiset(findings[..n])
    decreases n, 1
  {
    forall k | 0 <= k < |indices| ensures indices[k] < n {
      assert indices[k] in multiset(indices);
      assert indices[k] in UpTo(n);
    }
    if n == 0 {
      assert |indices| == |multiset(indices)| == 0;
    } else {
      var last: nat := n - 1;
      assert last in multiset(UpTo(n));
      var p :| 0 <= p < |indices| && indices[p] == last;
      PickedWithout(findings, indices, n, p);
    }
  }

  lemma PickedWithout(findings: seq<Finding>, indices: seq<nat>, n: nat, p: nat)
    requires 0 < n <= |findings| && multiset(indices) == multiset(UpTo(n))
    requires forall k | 0 <= k < |indices| :: indices[k] < |findings|
    requires p < |indices| && indices[p] == n - 1
    ensures multiset(Picked(findings, indices)) == multiset(findings[..n])
    decreases n, 0
  {
    hide Picked, UpTo;
    var rest, picked, last := indices[..p] + indices[p + 1..], Picked(findings, indices), findings[n - 1];
    assert multiset(rest) == multiset(UpTo(n - 1)) by {
      Without(indices, p);
      UpToStep(n);
      Cancel(multiset(rest), multiset(UpTo(n - 1)), indices[p]);
    }
    PickedPermutation(findings, rest, n - 1);
    PickedRest(findings, indices, rest, p);
    InitAndLast(findings, n);
  }

  lemma UpToStep(n: nat)
    requires n > 0
    ensures multiset(UpTo(n)) == multiset(UpTo(n - 1)) + multiset{(n - 1) as nat}
  {
  }

  lemma InitAndLast<T>(s: seq<T>, n: nat)
    requires 0 < n <= |s|
    ensures multiset(s[..n]) == multiset(s[..n - 1]) + multiset{s[n - 1]}
  {
    assert s[..n] == s[..n - 1] + [s[n - 1]];
  }

  lemma PickedRest(findings: seq<Finding>, indices: seq<nat>, rest: seq<nat>, p: nat)
    requires p < |indices| && rest == indices[..p] + indices[p + 1..]
    requires forall k | 0 <= k < |indices| :: indices[k] < |findings|
    requires forall k | 0 <= k < |rest| :: rest[k] < |findings|
    ensures multiset(Picked(findings, indices)) == multiset(Picked(findings, rest)) + multiset{findings[indices[p]]}
  {
    var picked := Picked(findings, indices);
    Without(picked, p);
    assert Picked(findings, rest) == picked[..p] + picked[p + 1..];
  }

  lemma Cancel<T>(a: multiset<T>, b: multiset<T>, x: T)
    requires a + multiset{x} == b + multiset{x}
    ensures a == b
  {
    assert a == (a + multiset{x}) - multiset{x};
  }

  function FindingsOf(out: seq<Merged>): seq<Finding> {
    seq(|out|, k requires 0 <= k < |out| => out[k].finding)
  }

  lemma {:induction false} MergedArePicked(groups: Groups, findings: seq<Finding>)
    requires Indices(groups, |findings|)
    ensures forall k | 0 <= k < |Flat(groups)| :: Flat(groups)[k] < |findings|
    ensures FindingsOf(MergedOf(groups, findings)) == Picked(findings, Flat(groups))
  {
    FlatBounded(groups, |findings|);
    if groups != [] {
      var n := |groups| - 1;
      assert Indices(groups[..n], |findings|);
      MergedArePicked(groups[..n], findings);
      var a, b := MergedOf(groups[..n], findings), Tagged(groups[n], findings, n);
      assert FindingsOf(a + b) == FindingsOf(a) + FindingsOf(b);
      assert FindingsOf(b) == Picked(findings, groups[n]);
    }
  }

  // Merging loses, adds and changes no finding.
  lemma MergeIsPermutation(findings: seq<Finding>)
    ensures multiset(FindingsOf(MergedOf(GroupsOf(findings, |findings|), findings))) == multiset(findings)
  {
    var groups := GroupsOf(findings, |findings|);
    MergedArePicked(groups, findings);
    FlatIsPermutation(findings, |findings|);
    PickedPermutation(findings, Flat(groups), |findings|);
    assert findings[..|findings|] == findings;
  }

  // Every member of a group is within five lines of its head, in the same file
  // and category; a head is more than five lines from the heads of all earlier
  // groups of its file and category.
  lemma GroupsAreClose(findings: seq<Finding>, g: nat)
    requires g < |GroupsOf(findings, |findings|)|
    ensures var groups := GroupsOf(findings, |findings|);
      && (forall k | 0 <= k < |groups[g]| :: Close(findings[groups[g][0]], findings[groups[g][k]]))
      && (forall h | 0 <= h < g :: !Close(findings[groups[h][0]], findings[groups[g][0]]))
  {
    GroupsAreOk(findings, |findings|);
    assert GroupOk(GroupsOf(findings, |findings|), findings, g);
  }

  lemma {:induction false} TagsAre(groups: Groups, findings: seq<Finding>, m: nat)
    requires Indices(groups, |findings|) && m < |MergedOf(groups, findings)|
    ensures var x := MergedOf(groups, findings)[m];
      && x.group < |groups| && (exists k | 0 <= k < |groups[x.group]| :: x.finding == findings[groups[x.group][k]])
      && (x.consensus <==> Agree(groups[x.group], findings))
  {
    var n := |groups| - 1;
    assert Indices(groups[..n], |findings|);
    var before := MergedOf(groups[..n], findings);
    if m < |before| {
      TagsAre(groups[..n], findings, m);
    } else {
      assert MergedOf(groups, findings)[m] == Tagged(groups[n], findings, n)[m - |before|];
      assert groups[n][m - |before|] < |findings|;
    }
  }

  // ------------------------------------------------------------------ stability

  ghost predicate Precedes(s: seq<nat>, i: nat, j: nat) {
    exists p, q :: 0 <= p < q < |s| && s[p] == i && s[q] == j
  }

  predicate SamePlace(f: Finding, h: Finding) {
    f.file == h.file && f.line == h.line && f.category == h.category
  }

  // Both findings went to the same group.
  lemma SameGroup(groups: Groups, findings: seq<Finding>, n: nat, g: nat, h: nat, i: nat, j: nat)
    requires n <= |findings| && GroupsOk(groups, findings, n) && g < |groups| && h < |groups|
    requires i in groups[g] && j in groups[h] && i < n && j < n && SamePlace(findings[i], findings[j])
    ensures g == h
  {
    assert GroupOk(groups, findings, g) && GroupOk(groups, findings, h);
    assert Close(findings[groups[g][0]], findings[i]) && Close(findings[groups[h][0]], findings[j]);
    assert Close(findings[groups[g][0]], findings[j]) && Close(findings[groups[h][0]], findings[i]);
  }

  lemma {:induction false} WhichGroup(groups: Groups, i: nat) returns (g: nat)
    requires i in Flat(groups)
    ensures g < |groups| && i in groups[g]
  {
    var n := |groups| - 1;
    if i in groups[n] {
      g := n;
    } else {
      g := WhichGroup(groups[..n], i);
    }
  }

  lemma {:induction false} FlatHolds(groups: Groups, g: nat) returns (at: nat)
    requires g < |groups|
    ensures at + |groups[g]| <= |Flat(groups)| && Flat(groups)[at..at + |groups[g]|] == groups[g]
  {
    var n := |groups| - 1;
    if g == n {
      at := |Flat(groups[..n])|;
    } else {
      at := FlatHolds(groups[..n], g);
      assert Flat(groups)[at..at + |groups[g]|] == Flat(groups[..n])[at..at + |groups[g]|];
    }
  }

  lemma PrecedesInGroup(groups: Groups, g: nat, k: nat, l: nat)
    requires g < |groups| && k < l < |groups[g]|
    ensures Precedes(Flat(groups), groups[g][k], groups[g][l])
  {
    var at := FlatHolds(groups, g);
    var flat := Flat(groups);
    assert flat[at + k] == flat[at..at + |groups[g]|][k] && flat[at + l] == flat[at..at + |groups[g]|][l];
  }

  lemma IsPlaced(findings: seq<Finding>, i: nat)
    requires i < |findings|
    ensures i in Flat(GroupsOf(findings, |findings|))
  {
    hide Flat, GroupsOf;
    FlatIsPermutation(findings, |findings|);
    assert UpTo(|findings|)[i] == i;
    assert i in multiset(Flat(GroupsOf(findings, |findings|)));
  }

  // Findings at the same file, line and category stay in input order.
  lemma MergeIsStable(findings: seq<Finding>, i: nat, j: nat)
    requires i < j < |findings| && SamePlace(findings[i], findings[j])
    ensures Precedes(Flat(GroupsOf(findings, |findings|)), i, j)
  {
    hide Flat, GroupsOf, Close, Precedes;
    var groups := GroupsOf(findings, |findings|);
    GroupsAreOk(findings, |findings|);
    IsPlaced(findings, i);
    IsPlaced(findings, j);
    var g := WhichGroup(groups, i);
    var h := WhichGroup(groups, j);
    SameGroup(groups, findings, |findings|, g, h, i, j);
    assert GroupOk(groups, findings, g);
    var k, l :| 0 <= k < |groups[g]| && 0 <= l < |groups[g]| && groups[g][k] == i && groups[g][l] == j;
    PrecedesInGroup(groups, g, k, l);
  }
}
