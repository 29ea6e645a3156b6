// The merged list, described by its own entries.
module MergeOrder {
  import opened Text
  import opened FindingPolicy
  import opened Merge
  import opened DedupeHistory

  // The same category, in one file and at most five lines apart.
  predicate Near(a: Finding, b: Finding) {
    && a.file == b.file && a.category == b.category
    && a.line - b.line <= 5 && b.line - a.line <= 5
  }

  // Entry h is the first of its group.
  predicate IsHead(out: seq<Merged>, h: nat)
    requires h < |out|
  {
    forall p | 0 <= p < h :: out[p].group != out[h].group
  }

  predicate TwoVendors(out: seq<Merged>, g: nat) {
    exists p, q | 0 <= p < |out| && 0 <= q < |out| ::
      out[p].group == g && out[q].group == g && out[p].finding.vendor != out[q].finding.vendor
  }

  // order[p] is the place in the input of entry p.
  predicate ListsOnce(findings: seq<Finding>, out: seq<Merged>, order: seq<nat>) {
    && |out| == |order| == |findings| && NoRepeats(order)
    && forall p | 0 <= p < |out| :: order[p] < |findings| && out[p].finding == findings[order[p]]
  }

  predicate GroupByGroup(out: seq<Merged>, order: seq<nat>) {
    && |out| == |order|
    && (out != [] ==> out[0].group == 0)
    && (forall p | 0 < p < |out| ::
          || (out[p].group == out[p - 1].group && order[p - 1] < order[p])
          || (out[p].group == out[p - 1].group + 1 && IsHead(out, p)))
    && (forall p, q | 0 <= p < q < |out| && IsHead(out, p) && IsHead(out, q) :: order[p] < order[q])
  }

  // A finding is in the group of the first head that it is near to.
  predicate WithFirstNear(out: seq<Merged>) {
    forall h, p | 0 <= h < |out| && 0 <= p < |out| && IsHead(out, h) ::
      && (out[p].group == out[h].group ==> Near(out[h].finding, out[p].finding))
      && (out[h].group < out[p].group ==> !Near(out[h].finding, out[p].finding))
  }

  predicate TaggedByVendors(out: seq<Merged>) {
    forall p | 0 <= p < |out| :: out[p].consensus <==> TwoVendors(out, out[p].group)
  }

  // ----------------------------------------------------- where the entries come from

  function Offset(groups: Groups, g: nat): nat
    requires g <= |groups|
  {
    |Flat(groups[..g])|
  }

  lemma OffsetStep(groups: Groups, g: nat)
    requires g < |groups|
    ensures Offset(groups, g + 1) == Offset(groups, g) + |groups[g]|
  {
    assert groups[..g + 1][..g] == groups[..g];
  }

  lemma {:induction false} OffsetsGrow(groups: Groups, g: nat, h: nat)
    requires g < h <= |groups|
    ensures Offset(groups, g) + |groups[g]| <= Offset(groups, h)
    decreases h
  {
    hide Offset;
    OffsetStep(groups, h - 1);
    if g < h - 1 {
      OffsetsGrow(groups, g, h - 1);
    }
  }

  // Entry m is member k of group g.
  predicate ComesFrom(groups: Groups, findings: seq<Finding>, m: nat, g: nat, k: nat) {
    && Indices(groups, |findings|) && g < |groups| && k < |groups[g]| && m == Offset(groups, g) + k
    && m < |MergedOf(groups, findings)| == |Flat(groups)|
    && Flat(groups)[m] == groups[g][k]
    && MergedOf(groups, findings)[m] == Merged(findings[groups[g][k]], Agree(groups[g], findings), g)
  }

  lemma FewerIndices(groups: Groups, n: nat, g: nat)
    requires Indices(groups, n) && g <= |groups|
    ensures Indices(groups[..g], n)
  {
  }

  lemma {:induction false} SameSizes(groups: Groups, findings: seq<Finding>)
    requires Indices(groups, |findings|)
    ensures |MergedOf(groups, findings)| == |Flat(groups)|
  {
    hide Agree;
    if groups != [] {
      var n := |groups| - 1;
      FewerIndices(groups, |findings|, n);
      SameSizes(groups[..n], findings);
    }
  }

  lemma MergedLast(groups: Groups, findings: seq<Finding>)
    requires Indices(groups, |findings|) && groups != []
    ensures var n := |groups| - 1;
      && Indices(groups[..n], |findings|)
      && Flat(groups) == Flat(groups[..n]) + groups[n]
      && MergedOf(groups, findings) == MergedOf(groups[..n], findings) + Tagged(groups[n], findings, n)
  {
    hide Tagged;
    FewerIndices(groups, |findings|, |groups| - 1);
  }

  lemma {:induction false} MemberAt(groups: Groups, findings: seq<Finding>, g: nat, k: nat)
    requires Indices(groups, |findings|) && g < |groups| && k < |groups[g]|
    ensures ComesFrom(groups, findings, Offset(groups, g) + k, g, k)
    decreases |groups|
  {
    hide Flat, MergedOf, Agree;
    var n := |groups| - 1;
    MergedLast(groups, findings);
    SameSizes(groups, findings);
    SameSizes(groups[..n], findings);
    if g < n {
      MemberAt(groups[..n], findings, g, k);
      assert groups[..n][..g] == groups[..g];
    }
  }

  lemma {:induction false} PlaceOf(groups: Groups, findings: seq<Finding>, m: nat) returns (g: nat, k: nat)
    requires Indices(groups, |findings|) && m < |MergedOf(groups, findings)|
    ensures ComesFrom(groups, findings, m, g, k)
    decreases |groups|
  {
    hide ComesFrom, Agree;
    SameSizes(groups, findings);
    var n := |groups| - 1;
    MergedLast(groups, findings);
    SameSizes(groups[..n], findings);
    if m < |Flat(groups[..n])| {
      g, k := PlaceOf(groups[..n], findings, m);
      FromFewer(groups, findings, m, g, k);
    } else {
      g, k := n, m - |Flat(groups[..n])|;
    }
    MemberAt(groups, findings, g, k);
  }

  lemma FromFewer(groups: Groups, findings: seq<Finding>, m: nat, g: nat, k: nat)
    requires groups != [] && Indices(groups, |findings|) && ComesFrom(groups[..|groups| - 1], findings, m, g, k)
    ensures g < |groups| && k < |groups[g]| && m == Offset(groups, g) + k
  {
    hide Flat, MergedOf, Agree;
    assert groups[..|groups| - 1][..g] == groups[..g];
  }

  // Of two entries the earlier one is in an earlier group, or earlier in its group.
  lemma PlacesAscend(groups: Groups, findings: seq<Finding>, m: nat, g: nat, k: nat, m': nat, g': nat, k': nat)
    requires ComesFrom(groups, findings, m, g, k) && ComesFrom(groups, findings, m', g', k')
    ensures m < m' <==> g < g' || (g == g' && k < k')
  {
    hide Offset, Flat, MergedOf, Agree;
    if g < g' {
      OffsetsGrow(groups, g, g');
    } else if g' < g {
      OffsetsGrow(groups, g', g);
    }
  }

  // The first entry of a group is its first member.
  lemma HeadsAre(groups: Groups, findings: seq<Finding>, m: nat, g: nat, k: nat)
    requires ComesFrom(groups, findings, m, g, k)
    ensures IsHead(MergedOf(groups, findings), m) <==> k == 0
  {
    hide Offset, Flat, MergedOf, Agree;
    var out := MergedOf(groups, findings);
    if k > 0 {
      MemberAt(groups, findings, g, 0);
      assert out[Offset(groups, g)].group == g;
    } else {
      forall p: nat | p < m ensures out[p].group != g {
        var g', k' := PlaceOf(groups, findings, p);
        PlacesAscend(groups, findings, p, g', k', m, g, k);
      }
    }
  }

  // ------------------------------------------------------------------- the groups

  // Heads of later groups come later in the input.
  predicate HeadsAscend(groups: Groups) {
    (forall g | 0 <= g < |groups| :: groups[g] != []) &&
    forall g, h | 0 <= g < h < |groups| :: groups[g][0] < groups[h][0]
  }

  lemma PlaceHeads(groups: Groups, findings: seq<Finding>, n: nat)
    requires n < |findings| && Indices(groups, n) && Indices(groups, |findings|) && HeadsAscend(groups)
    ensures HeadsAscend(Place(groups, findings, n))
  {
    hide Close;
    var placed := Place(groups, findings, n);
    assert forall g | 0 <= g < |groups| :: placed[g][0] == groups[g][0] && groups[g][0] < n;
  }

  lemma IndicesOf(groups: Groups, findings: seq<Finding>, n: nat)
    requires n <= |findings| && GroupsOk(groups, findings, n)
    ensures Indices(groups, n)
  {
    hide GroupOk;
  }

  lemma NoHeads()
    ensures HeadsAscend([])
  {
  }

  lemma {:induction false} HeadsOf(findings: seq<Finding>, n: nat)
    requires n <= |findings|
    ensures HeadsAscend(GroupsOf(findings, n))
  {
    hide GroupsOk, Place, HeadsAscend, Indices;
    if n == 0 {
      NoHeads();
    } else {
      HeadsOf(findings, n - 1);
      GroupsAreOk(findings, n - 1);
      IndicesOf(GroupsOf(findings, n - 1), findings, n - 1);
      PlaceHeads(GroupsOf(findings, n - 1), findings, n - 1);
    }
  }

  // ------------------------------------------------------------------- the result

  lemma OrderOnce(findings: seq<Finding>)
    ensures NoRepeats(Flat(GroupsOf(findings, |findings|))) && |Flat(GroupsOf(findings, |findings|))| == |findings|
  {
    hide Flat, GroupsOf, UpTo, NoRepeats;
    FlatIsPermutation(findings, |findings|);
    OrderFrom(Flat(GroupsOf(findings, |findings|)), |findings|);
  }

  lemma CloseIsNear(a: Finding, b: Finding)
    ensures Close(a, b) <==> Near(a, b)
  {
  }

  lemma MergedListsOnce(findings: seq<Finding>)
    ensures var groups := GroupsOf(findings, |findings|);
      ListsOnce(findings, MergedOf(groups, findings), Flat(groups))
  {
    hide Flat, GroupsOf, MergedOf, NoRepeats, Agree, Offset;
    var groups := GroupsOf(findings, |findings|);
    OrderOnce(findings);
    SameSizes(groups, findings);
    var out := MergedOf(groups, findings);
    forall p: nat | p < |out| ensures Flat(groups)[p] < |findings| && out[p].finding == findings[Flat(groups)[p]] {
      var g, k := PlaceOf(groups, findings, p);
    }
  }

  lemma NextEntry(groups: Groups, findings: seq<Finding>, p: nat)
    requires Indices(groups, |findings|) && 0 < p < |MergedOf(groups, findings)|
    requires forall g | 0 <= g < |groups| :: GroupOk(groups, findings, g)
    requires |MergedOf(groups, findings)| == |Flat(groups)|
    ensures var out, order := MergedOf(groups, findings), Flat(groups);
      || (out[p].group == out[p - 1].group && order[p - 1] < order[p])
      || (out[p].group == out[p - 1].group + 1 && IsHead(out, p))
  {
    hide Flat, MergedOf, Agree, Close, Offset, IsHead;
    var g, k := PlaceOf(groups, findings, p - 1);
    var g', k' := PlaceOf(groups, findings, p);
    PlacesAscend(groups, findings, p - 1, g, k, p, g', k');
    HeadsAre(groups, findings, p, g', k');
    assert GroupOk(groups, findings, g);
    if g < g' {
      OffsetsGrow(groups, g, g');
      if g + 1 < g' {
        OffsetStep(groups, g);
        OffsetsGrow(groups, g + 1, g');
      }
    }
  }

  lemma FirstEntry(groups: Groups, findings: seq<Finding>)
    requires Indices(groups, |findings|) && MergedOf(groups, findings) != []
    ensures MergedOf(groups, findings)[0].group == 0
  {
    hide Flat, MergedOf, Agree, Offset;
    var g, k := PlaceOf(groups, findings, 0);
    if g > 0 {
      OffsetsGrow(groups, 0, g);
    }
  }

  lemma HeadEntries(groups: Groups, findings: seq<Finding>, p: nat, q: nat)
    requires Indices(groups, |findings|) && HeadsAscend(groups)
    requires p < q < |MergedOf(groups, findings)| == |Flat(groups)|
    requires IsHead(MergedOf(groups, findings), p) && IsHead(MergedOf(groups, findings), q)
    ensures Flat(groups)[p] < Flat(groups)[q]
  {
    hide Flat, MergedOf, Agree, IsHead, Offset;
    var g, k := PlaceOf(groups, findings, p);
    var h, l := PlaceOf(groups, findings, q);
    HeadsAre(groups, findings, p, g, k);
    HeadsAre(groups, findings, q, h, l);
    PlacesAscend(groups, findings, p, g, k, q, h, l);
  }

  lemma EntriesGroupByGroup(groups: Groups, findings: seq<Finding>)
    requires GroupsOk(groups, findings, |findings|) && HeadsAscend(groups)
    ensures GroupByGroup(MergedOf(groups, findings), Flat(groups))
  {
    hide Flat, MergedOf, Agree, GroupOk, IsHead, Offset, HeadsAscend;
    var out, order := MergedOf(groups, findings), Flat(groups);
    SameSizes(groups, findings);
    if out != [] {
      FirstEntry(groups, findings);
    }
    forall p | 0 < p < |out|
      ensures (out[p].group == out[p - 1].group && order[p - 1] < order[p]) ||
              (out[p].group == out[p - 1].group + 1 && IsHead(out, p))
    {
      NextEntry(groups, findings, p);
    }
    forall p, q | 0 <= p < q < |out| && IsHead(out, p) && IsHead(out, q) ensures order[p] < order[q] {
      HeadEntries(groups, findings, p, q);
    }
  }

  lemma MergedGroupByGroup(findings: seq<Finding>)
    ensures var groups := GroupsOf(findings, |findings|);
      GroupByGroup(MergedOf(groups, findings), Flat(groups))
  {
    hide GroupsOk, HeadsAscend, GroupByGroup, MergedOf, Flat, GroupsOf;
    GroupsAreOk(findings, |findings|);
    HeadsOf(findings, |findings|);
    EntriesGroupByGroup(GroupsOf(findings, |findings|), findings);
  }

  lemma MergedWithFirstNear(findings: seq<Finding>)
    ensures WithFirstNear(MergedOf(GroupsOf(findings, |findings|), findings))
  {
    var groups := GroupsOf(findings, |findings|);
    GroupsAreOk(findings, |findings|);
    hide Flat, GroupsOf, MergedOf, Agree, IsHead, Close, Near, Offset;
    var out := MergedOf(groups, findings);
    forall h, p | 0 <= h < |out| && 0 <= p < |out| && IsHead(out, h)
      ensures out[p].group == out[h].group ==> Near(out[h].finding, out[p].finding)
      ensures out[h].group < out[p].group ==> !Near(out[h].finding, out[p].finding)
    {
      var g, k := PlaceOf(groups, findings, h);
      var g', k' := PlaceOf(groups, findings, p);
      HeadsAre(groups, findings, h, g, k);
      assert GroupOk(groups, findings, g');
      CloseIsNear(out[h].finding, out[p].finding);
    }
  }

  lemma MergedTagged(findings: seq<Finding>)
    ensures TaggedByVendors(MergedOf(GroupsOf(findings, |findings|), findings))
  {
    var groups := GroupsOf(findings, |findings|);
    hide Flat, GroupsOf, MergedOf, Offset;
    var out := MergedOf(groups, findings);
    forall p: nat | p < |out| ensures out[p].consensus <==> TwoVendors(out, out[p].group) {
      var g, k := PlaceOf(groups, findings, p);
      AgreeIsTwoVendors(groups, findings, g);
    }
  }

  lemma AgreeIsTwoVendors(groups: Groups, findings: seq<Finding>, g: nat)
    requires Indices(groups, |findings|) && g < |groups|
    ensures Agree(groups[g], findings) <==> TwoVendors(MergedOf(groups, findings), g)
  {
    hide Flat, MergedOf, Offset;
    var out := MergedOf(groups, findings);
    if Agree(groups[g], findings) {
      var j, k :| 0 <= j < |groups[g]| && 0 <= k < |groups[g]| &&
        findings[groups[g][j]].vendor != findings[groups[g][k]].vendor;
      MemberAt(groups, findings, g, j);
      MemberAt(groups, findings, g, k);
      var p, q := Offset(groups, g) + j, Offset(groups, g) + k;
      assert out[p].group == g && out[q].group == g;
    }
    if TwoVendors(out, g) {
      var p, q :| 0 <= p < |out| && 0 <= q < |out| &&
        out[p].group == g && out[q].group == g && out[p].finding.vendor != out[q].finding.vendor;
      var g1, j := PlaceOf(groups, findings, p);
      var g2, k := PlaceOf(groups, findings, q);
      assert findings[groups[g][j]].vendor != findings[groups[g][k]].vendor;
    }
  }

  // The merged list has every finding once, group by group; a group starts with the
  // finding that came first, and a finding is in the group of the first such head
  // that it is near to; it is tagged when its group has two vendors.
  lemma MergedExactly(findings: seq<Finding>)
    ensures var groups := GroupsOf(findings, |findings|);
      var out, order := MergedOf(groups, findings), Flat(groups);
      ListsOnce(findings, out, order) && GroupByGroup(out, order) && WithFirstNear(out) && TaggedByVendors(out)
  {
    hide ListsOnce, GroupByGroup, WithFirstNear, TaggedByVendors, MergedOf, GroupsOf, Flat;
    MergedListsOnce(findings);
    MergedGroupByGroup(findings);
    MergedWithFirstNear(findings);
    MergedTagged(findings);
  }
}
