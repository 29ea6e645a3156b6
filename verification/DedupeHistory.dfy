// Whole histories: a first review, perhaps merged for display, and any number of
// retries.
module DedupeHistory {
  import opened Text
  import opened FindingPolicy
  import opened Dedupe
  import opened DedupeEquivalence
  import opened Merge

  // --------------------------------------------- the same grouping, up to names

  // The rows agree in everything but the names of their groups.
  predicate SameGrouping(a: seq<Finding>, b: seq<Finding>) {
    && |a| == |b|
    && (forall i | 0 <= i < |a| :: a[i].(group := None) == b[i].(group := None) && (a[i].group.Some? <==> b[i].group.Some?))
    && (forall i, j | 0 <= i < |a| && 0 <= j < |a| && a[i].group.Some? && a[j].group.Some? ::
          a[i].group == a[j].group <==> b[i].group == b[j].group)
  }

  lemma NumberedGroup(
    rows: seq<Finding>, base: seq<Finding>, keys: seq<Key>, num: Numbering, enforce: bool, i: nat)
    requires Numbered(rows, base, keys, num, enforce) && i < |rows|
    ensures rows[i].group == if keys[i] in num then Some(num[keys[i]]) else base[i].group
    ensures rows[i].(group := None) ==
      (if keys[i] in num then Assigned(base[i], 0, keys[i] !in keys[..i], enforce) else base[i]).(group := None)
  {
  }

  // There is only one way to group the same findings, up to the names of groups.
  lemma GroupingIsUnique(
    a: seq<Finding>, b: seq<Finding>, base: seq<Finding>, canon: string -> string, enforce: bool)
    requires Grouped(a, base, canon, enforce) && Grouped(b, base, canon, enforce) && Ungrouped(base)
    ensures SameGrouping(a, b)
  {
    hide KeysOf, Numbered, Shared, Assigned;
    var keys := KeysOf(base, canon);
    var m :| Complete(m, keys) && Injective(m) && Numbered(a, base, keys, m, enforce);
    var n :| Complete(n, keys) && Injective(n) && Numbered(b, base, keys, n, enforce);
    assert |a| == |base| by { NumberedSizes(a, base, keys, m, enforce); }
    assert |b| == |base| by { NumberedSizes(b, base, keys, n, enforce); }
    forall i | 0 <= i < |a|
      ensures a[i].group == if keys[i] in m then Some(m[keys[i]]) else None
      ensures b[i].group == if keys[i] in m then Some(n[keys[i]]) else None
      ensures a[i].(group := None) == b[i].(group := None)
    {
      NumberedGroup(a, base, keys, m, enforce, i);
      NumberedGroup(b, base, keys, n, enforce, i);
      assert keys[i] in m <==> keys[i] in n;
    }
  }

  lemma NumberedSizes(rows: seq<Finding>, base: seq<Finding>, keys: seq<Key>, num: Numbering, enforce: bool)
    requires Numbered(rows, base, keys, num, enforce)
    ensures |rows| == |base|
  {
  }

  // ------------------------------------------------------------------ histories

  function Together(batches: seq<seq<Finding>>): seq<Finding> {
    if batches == [] then [] else Together(batches[..|batches| - 1]) + batches[|batches| - 1]
  }

  // The stored rows after some retries.
  function After(stored: seq<Finding>, retries: seq<seq<Finding>>, canon: string -> string, enforce: bool): seq<Finding> {
    if retries == [] then stored
    else
      Regroup(After(stored, retries[..|retries| - 1], canon, enforce), retries[|retries| - 1], canon, enforce)
  }

  lemma {:induction false} RetriesKeepGrouped(
    stored: seq<Finding>, base: seq<Finding>, retries: seq<seq<Finding>>, canon: string -> string, enforce: bool)
    requires Grouped(stored, base, canon, enforce) && Ungrouped(base)
    requires forall r | 0 <= r < |retries| :: Ungrouped(retries[r])
    ensures Grouped(After(stored, retries, canon, enforce), base + Together(retries), canon, enforce)
    ensures Ungrouped(base + Together(retries))
  {
    hide Grouped, Regroup;
    if retries == [] {
      assert base + Together(retries) == base;
    } else {
      var n := |retries| - 1;
      RetriesKeepGrouped(stored, base, retries[..n], canon, enforce);
      RetryKeepsGrouped(
        After(stored, retries[..n], canon, enforce), base + Together(retries[..n]), retries[n], canon, enforce);
      Assoc(base, Together(retries[..n]), retries[n]);
      UngroupedConcat(base + Together(retries[..n]), retries[n]);
    }
  }

  lemma UngroupedConcat(a: seq<Finding>, b: seq<Finding>)
    requires Ungrouped(a) && Ungrouped(b)
    ensures Ungrouped(a + b)
  {
  }

  // Grouping retry by retry equals grouping everything at once, up to the names
  // of the groups, whatever grouped rows it started from.
  lemma IncrementalIsBatch(
    stored: seq<Finding>, base: seq<Finding>, retries: seq<seq<Finding>>, canon: string -> string, enforce: bool)
    requires Grouped(stored, base, canon, enforce) && Ungrouped(base)
    requires forall r | 0 <= r < |retries| :: Ungrouped(retries[r])
    ensures SameGrouping(
      After(stored, retries, canon, enforce), Batch(base + Together(retries), canon, enforce))
  {
    hide Grouped, SameGrouping, After, Together, Batch, Ungrouped;
    RetriesKeepGrouped(stored, base, retries, canon, enforce);
    BatchIsGrouped(base + Together(retries), canon, enforce);
    GroupingIsUnique(
      After(stored, retries, canon, enforce), Batch(base + Together(retries), canon, enforce),
      base + Together(retries), canon, enforce);
  }

  lemma HistoryIsBatch(first: seq<Finding>, retries: seq<seq<Finding>>, canon: string -> string, enforce: bool)
    requires Ungrouped(first) && forall r | 0 <= r < |retries| :: Ungrouped(retries[r])
    ensures SameGrouping(
      After(Batch(first, canon, enforce), retries, canon, enforce), Batch(first + Together(retries), canon, enforce))
  {
    hide Grouped, SameGrouping, After, Together, Batch, Ungrouped;
    BatchIsGrouped(first, canon, enforce);
    IncrementalIsBatch(Batch(first, canon, enforce), first, retries, canon, enforce);
  }

  // ----------------------------------------------------------- what can be posted

  // Grouping takes a finding out of what can be posted exactly when it is
  // enforced and the same was found before.
  lemma EligibleIs(rows: seq<Finding>, base: seq<Finding>, canon: string -> string, enforce: bool, i: nat)
    requires Grouped(rows, base, canon, enforce) && i < |rows|
    ensures |rows| == |base|
    ensures var keys := KeysOf(base, canon);
      rows[i].eligible <==> base[i].eligible && !(enforce && keys[i] in keys[..i])
  {
    hide KeysOf, Shared;
    var keys := KeysOf(base, canon);
    var num :| Complete(num, keys) && Injective(num) && Numbered(rows, base, keys, num, enforce);
    if keys[i] in keys[..i] {
      var j :| 0 <= j < i && keys[..i][j] == keys[i];
      assert keys[j] == keys[i];
      SharedMeans(keys, keys[i]);
    }
  }

  // A retry never changes whether a stored finding can be posted.
  lemma RetryKeepsEligible(
    stored: seq<Finding>, base: seq<Finding>, found: seq<Finding>, canon: string -> string, enforce: bool, i: nat)
    requires Grouped(stored, base, canon, enforce) && Ungrouped(base) && Ungrouped(found) && i < |stored|
    ensures i < |Regroup(stored, found, canon, enforce)|
    ensures Regroup(stored, found, canon, enforce)[i].eligible == stored[i].eligible
  {
    hide Grouped, KeyOf, Regroup;
    var rows := Regroup(stored, found, canon, enforce);
    RetryKeepsGrouped(stored, base, found, canon, enforce);
    GroupedSize(stored, base, canon, enforce);
    GroupedSize(rows, base + found, canon, enforce);
    EligibleIs(stored, base, canon, enforce, i);
    EligibleIs(rows, base + found, canon, enforce, i);
    KeysConcat(base, found, canon);
    var keysS, keys := KeysOf(base, canon), KeysOf(base + found, canon);
    assert keys[..i] == keysS[..i] && keys[i] == keysS[i];
  }

  lemma GroupedSize(rows: seq<Finding>, base: seq<Finding>, canon: string -> string, enforce: bool)
    requires Grouped(rows, base, canon, enforce)
    ensures |rows| == |base|
  {
  }

  predicate AllInScope(base: seq<Finding>, owners: Owners) {
    forall i | 0 <= i < |base| :: InScope(base[i], owners)
  }

  predicate OnlyPostable(rows: seq<Finding>, keys: seq<Key>, k: Key, f: nat)
    requires |rows| == |keys| && f < |rows|
  {
    && keys[f] == k && rows[f].eligible
    && (forall j | 0 <= j < |rows| && keys[j] == k && rows[j].eligible :: j == f)
  }

  // When grouping is enforced, a key found on a line that a chunk owns can be
  // posted exactly once, through the finding stored first; a key found elsewhere
  // cannot be posted at all.
  lemma OnePostableEach(rows: seq<Finding>, base: seq<Finding>, canon: string -> string, owners: Owners, i: nat)
    requires Grouped(rows, base, canon, true) && AllInScope(base, owners) && i < |rows|
    ensures |rows| == |base|
    ensures var keys := KeysOf(base, canon);
      var k := keys[i];
      if k.path.Some? && (k.path.value, k.line) in owners
      then exists f | 0 <= f < |rows| :: OnlyPostable(rows, keys, k, f) else !rows[i].eligible
  {
    hide Grouped, KeyOf, Normalize;
    GroupedSize(rows, base, canon, true);
    var keys := KeysOf(base, canon);
    var k := keys[i];
    EligibleIs(rows, base, canon, true, i);
    assert InScope(base[i], owners) && KeyOf(base[i], canon) == k;
    OwnedByKey(base[i], canon, owners);
    if k.path.Some? && (k.path.value, k.line) in owners {
      PlacesAre(keys, k);
      var f := Places(keys, k)[0];
      FirstPlace(keys, k, 0);
      EligibleIs(rows, base, canon, true, f);
      assert InScope(base[f], owners) && KeyOf(base[f], canon) == k;
      OwnedByKey(base[f], canon, owners);
      forall j | 0 <= j < |rows| && keys[j] == k && rows[j].eligible ensures j == f {
        EligibleIs(rows, base, canon, true, j);
        assert j in Places(keys, k);
        var x :| 0 <= x < |Places(keys, k)| && Places(keys, k)[x] == j;
        FirstPlace(keys, k, x);
      }
      assert OnlyPostable(rows, keys, k, f);
    }
  }

  lemma OwnedByKey(f: Finding, canon: string -> string, owners: Owners)
    requires InScope(f, owners)
    ensures var k := KeyOf(f, canon); f.eligible <==> k.path.Some? && (k.path.value, k.line) in owners
  {
    hide Normalize;
  }

  // -------------------------------------------------------- stored after merging

  predicate IsOrder(order: seq<nat>, n: nat) {
    && |order| == n && NoRepeats(order)
    && (forall p | 0 <= p < |order| :: order[p] < n) && (forall i | 0 <= i < n :: i in order)
  }

  // The findings are picked in another order that keeps those that share a key
  // and can be posted as they were.
  ghost predicate Rearranges(order: seq<nat>, keys: seq<Key>, base: seq<Finding>) {
    && |base| == |keys| && IsOrder(order, |base|)
    && forall i, j | 0 <= i < j < |base| && keys[i] == keys[j] && base[i].eligible && base[j].eligible ::
         Precedes(order, i, j)
  }

  lemma {:induction false} UpToOnce(n: nat, i: nat)
    ensures multiset(UpTo(n))[i] == if i < n then 1 else 0
  {
    if n == 0 {
      assert UpTo(0) == [];
    } else {
      hide UpTo;
      UpToStep(n);
      UpToOnce(n - 1, i);
      var last: nat := n - 1;
      assert multiset(UpTo(n))[i] == multiset(UpTo(n - 1))[i] + (if i == last then 1 else 0);
    }
  }

  lemma CountTwice(s: seq<nat>, p: nat, q: nat)
    requires p < q < |s| && s[p] == s[q]
    ensures multiset(s)[s[p]] >= 2
  {
    Without(s, q);
    var rest := s[..q] + s[q + 1..];
    assert rest[p] == s[p];
    assert s[p] in multiset(rest);
  }

  lemma OrderFrom(order: seq<nat>, n: nat)
    requires multiset(order) == multiset(UpTo(n))
    ensures IsOrder(order, n)
  {
    assert |order| == |multiset(order)| == |multiset(UpTo(n))| == n;
    forall p | 0 <= p < |order| ensures order[p] < n {
      assert order[p] in multiset(order);
      UpToOnce(n, order[p]);
    }
    forall i | 0 <= i < n ensures i in order {
      UpToOnce(n, i);
      assert i as nat in multiset(order);
    }
    forall p, q | 0 <= p < q < |order| ensures order[p] != order[q] {
      UpToOnce(n, order[p]);
      if order[p] == order[q] {
        CountTwice(order, p, q);
        assert false;
      }
    }
  }

  // Findings with the same key can be posted alike before they are grouped.
  predicate EligibleByKey(base: seq<Finding>, keys: seq<Key>) {
    |base| == |keys| &&
    forall i, j | 0 <= i < |keys| && 0 <= j < |keys| && keys[i] == keys[j] :: base[i].eligible == base[j].eligible
  }

  lemma ScopeDecidesEligible(base: seq<Finding>, canon: string -> string, owners: Owners)
    requires AllInScope(base, owners)
    ensures EligibleByKey(base, KeysOf(base, canon))
  {
    hide KeyOf, InScope;
    forall i | 0 <= i < |base|
      ensures var k := KeysOf(base, canon)[i];
        base[i].eligible <==> k.path.Some? && (k.path.value, k.line) in owners
    {
      OwnedByKey(base[i], canon, owners);
    }
  }

  lemma SharedThere(keys: seq<Key>, keys': seq<Key>, order: seq<nat>, k: Key)
    requires IsOrder(order, |keys|) && |keys'| == |keys|
    requires forall p | 0 <= p < |order| :: order[p] < |keys| && keys'[p] == keys[order[p]]
    requires Shared(keys, k)
    ensures Shared(keys', k)
  {
    hide Shared;
    SharedMeans(keys, k);
    SharedMeans(keys', k);
    var i: nat, j: nat :| i < j < |keys| && keys[i] == k && keys[j] == k;
    assert i in order && j in order;
    var p: nat :| p < |order| && order[p] == i;
    var q: nat :| q < |order| && order[q] == j;
    assert keys'[p] == k && keys'[q] == k;
    assert p < q || q < p;
  }

  lemma SharedBack(keys: seq<Key>, keys': seq<Key>, order: seq<nat>, k: Key)
    requires IsOrder(order, |keys|) && |keys'| == |keys|
    requires forall p | 0 <= p < |order| :: order[p] < |keys| && keys'[p] == keys[order[p]]
    requires Shared(keys', k)
    ensures Shared(keys, k)
  {
    hide Shared;
    SharedMeans(keys, k);
    SharedMeans(keys', k);
    var p: nat, q: nat :| p < q < |keys'| && keys'[p] == k && keys'[q] == k;
    var i, j := order[p], order[q];
    assert keys[i] == k && keys[j] == k;
    assert i < j || j < i;
  }

  lemma EarlierThere(base: seq<Finding>, keys: seq<Key>, keys': seq<Key>, order: seq<nat>, p: nat)
    requires Rearranges(order, keys, base) && |keys'| == |order| == |keys| && p < |order|
    requires forall q | 0 <= q < |order| :: order[q] < |keys| && keys'[q] == keys[order[q]]
    requires EligibleByKey(base, keys) && base[order[p]].eligible && keys[order[p]] in keys[..order[p]]
    ensures keys'[p] in keys'[..p]
  {
    var i := order[p];
    var j :| 0 <= j < i && keys[..i][j] == keys[i];
    assert keys[j] == keys[i];
    assert Precedes(order, j, i);
    var q, q' :| 0 <= q < q' < |order| && order[q] == j && order[q'] == i;
    assert q' == p;
    assert keys'[..p][q] == keys'[p];
  }

  lemma PlacesDecide(order: seq<nat>, p: nat, q: nat)
    requires NoRepeats(order) && p < |order| && q < |order|
    ensures Precedes(order, order[p], order[q]) ==> p < q
  {
  }

  lemma EarlierBack(base: seq<Finding>, keys: seq<Key>, keys': seq<Key>, order: seq<nat>, p: nat)
    requires Rearranges(order, keys, base) && |keys'| == |order| == |keys| && p < |order|
    requires forall q | 0 <= q < |order| :: order[q] < |keys| && keys'[q] == keys[order[q]]
    requires EligibleByKey(base, keys) && base[order[p]].eligible && keys'[p] in keys'[..p]
    ensures keys[order[p]] in keys[..order[p]]
  {
    var i := order[p];
    var q :| 0 <= q < p && keys'[..p][q] == keys'[p];
    var j := order[q];
    assert keys[j] == keys[i];
    PlacesDecide(order, p, q);
    assert !Precedes(order, i, j) && i != j;
    assert keys[..i][j] == keys[i];
  }

  lemma LabelRearranged(
    base: seq<Finding>, keys: seq<Key>, base': seq<Finding>, keys': seq<Key>, order: seq<nat>, num: Numbering,
    enforce: bool, p: nat)
    requires Rearranges(order, keys, base) && |keys'| == |order| == |keys| == |base'| && p < |order|
    requires forall q | 0 <= q < |order| ::
      order[q] < |keys| && keys'[q] == keys[order[q]] && base'[q] == base[order[q]]
    requires EligibleByKey(base, keys)
    requires |base| == |keys|
    ensures Labelled(base[order[p]], keys, order[p], num, enforce) == Labelled(base'[p], keys', p, num, enforce)
  {
    hide Rearranges, EligibleByKey;
    if base[order[p]].eligible {
      if keys[order[p]] in keys[..order[p]] {
        EarlierThere(base, keys, keys', order, p);
      }
      if keys'[p] in keys'[..p] {
        EarlierBack(base, keys, keys', order, p);
      }
    }
  }

  lemma CompleteRearranged(keys: seq<Key>, keys': seq<Key>, order: seq<nat>, num: Numbering)
    requires IsOrder(order, |keys|) && |keys'| == |keys|
    requires forall p | 0 <= p < |order| :: order[p] < |keys| && keys'[p] == keys[order[p]]
    requires Complete(num, keys)
    ensures Complete(num, keys')
  {
    hide Shared;
    forall k ensures k in num <==> Shared(keys', k) {
      if Shared(keys, k) {
        SharedThere(keys, keys', order, k);
      }
      if Shared(keys', k) {
        SharedBack(keys, keys', order, k);
      }
    }
  }

  // Grouping does not depend on the order in which the findings are stored, as
  // long as findings that can be posted keep theirs where they share a key.
  lemma RearrangedIsGrouped(
    rows: seq<Finding>, base: seq<Finding>, order: seq<nat>, canon: string -> string, enforce: bool)
    requires Grouped(rows, base, canon, enforce) && Rearranges(order, KeysOf(base, canon), base)
    requires EligibleByKey(base, KeysOf(base, canon))
    ensures |rows| == |base| && |order| == |base| && forall p | 0 <= p < |order| :: order[p] < |base|
    ensures Grouped(Picked(rows, order), Picked(base, order), canon, enforce)
  {
    hide KeyOf, Shared, Labelled, EligibleByKey, NoRepeats, Complete, Injective;
    var keys := KeysOf(base, canon);
    var num :| Complete(num, keys) && Injective(num) && Numbered(rows, base, keys, num, enforce);
    var rows', base' := Picked(rows, order), Picked(base, order);
    var keys' := KeysOf(base', canon);
    assert forall p | 0 <= p < |keys'| :: keys'[p] == keys[order[p]];
    CompleteRearranged(keys, keys', order, num);
    forall p | 0 <= p < |rows'| ensures rows'[p] == Labelled(base'[p], keys', p, num, enforce) {
      LabelRearranged(base, keys, base', keys', order, num, enforce, p);
    }
  }

  // Merging for display keeps findings apart that can be posted and share a key.
  lemma MergeRearranges(base: seq<Finding>, canon: string -> string, owners: Owners)
    requires AllInScope(base, owners)
    ensures Rearranges(Flat(GroupsOf(base, |base|)), KeysOf(base, canon), base)
  {
    hide Flat, GroupsOf, KeyOf, Precedes, UpTo, IsOrder;
    var keys := KeysOf(base, canon);
    FlatIsPermutation(base, |base|);
    OrderFrom(Flat(GroupsOf(base, |base|)), |base|);
    forall i, j | 0 <= i < j < |base| && keys[i] == keys[j] && base[i].eligible && base[j].eligible
      ensures Precedes(Flat(GroupsOf(base, |base|)), i, j)
    {
      assert InScope(base[i], owners) && InScope(base[j], owners);
      SameKeySamePlace(base[i], base[j], canon, owners);
      MergeIsStable(base, i, j);
    }
  }

  lemma SameKeySamePlace(f: Finding, h: Finding, canon: string -> string, owners: Owners)
    requires InScope(f, owners) && InScope(h, owners) && f.eligible && h.eligible
    requires KeyOf(f, canon) == KeyOf(h, canon)
    ensures SamePlace(f, h)
  {
    hide Normalize;
  }

  // A first review that is merged for display, then retried any number of times,
  // is grouped like all its rows at once, in the order they are stored in.
  lemma MergedHistoryIsBatch(
    first: seq<Finding>, retries: seq<seq<Finding>>, canon: string -> string, owners: Owners, enforce: bool)
    requires Ungrouped(first) && AllInScope(first, owners)
    requires forall r | 0 <= r < |retries| :: Ungrouped(retries[r])
    ensures var order := Flat(GroupsOf(first, |first|));
      && |Batch(first, canon, enforce)| == |first| && forall p | 0 <= p < |order| :: order[p] < |first|
    ensures var order := Flat(GroupsOf(first, |first|));
      SameGrouping(
        After(Picked(Batch(first, canon, enforce), order), retries, canon, enforce),
        Batch(Picked(first, order) + Together(retries), canon, enforce))
  {
    hide Grouped, SameGrouping, After, Together, Batch, Ungrouped, Flat, GroupsOf, Rearranges, EligibleByKey;
    var order := Flat(GroupsOf(first, |first|));
    BatchIsGrouped(first, canon, enforce);
    MergeRearranges(first, canon, owners);
    ScopeDecidesEligible(first, canon, owners);
    RearrangedIsGrouped(Batch(first, canon, enforce), first, order, canon, enforce);
    assert Ungrouped(Picked(first, order)) by { PickedUngrouped(first, order); }
    IncrementalIsBatch(
      Picked(Batch(first, canon, enforce), order), Picked(first, order), retries, canon, enforce);
  }

  lemma PickedUngrouped(findings: seq<Finding>, order: seq<nat>)
    requires Ungrouped(findings) && forall p | 0 <= p < |order| :: order[p] < |findings|
    ensures Ungrouped(Picked(findings, order))
  {
  }
}
