// Duplicate candidates: grouping all findings of a run at once, and grouping the
// findings of a retry with those already stored.
module Dedupe {
  import opened Text
  import opened FindingPolicy

  // ---------------------------------------------------------------------- keys

  // Two findings are candidates for being duplicates when their keys agree.
  datatype Key = Key(vendor: string, path: Option<string>, line: int, category: string, claim: string)

  // `canon` is the canonical form of a claim.
  function KeyOf(f: Finding, canon: string -> string): Key {
    Key(f.vendor, Normalize(f.file), f.line, f.category, canon(f.claim))
  }

  function KeysOf(findings: seq<Finding>, canon: string -> string): (keys: seq<Key>)
    ensures |keys| == |findings|
  {
    seq(|findings|, i requires 0 <= i < |findings| => KeyOf(findings[i], canon))
  }

  // Keys in the order of their first appearance.
  function Distinct(keys: seq<Key>): seq<Key> {
    if keys == [] then []
    else
      var before := Distinct(keys[..|keys| - 1]);
      var k := keys[|keys| - 1];
      if k in before then before else before + [k]
  }

  // Where a key occurs.
  function Places(keys: seq<Key>, k: Key): (places: seq<nat>)
    ensures forall i | 0 <= i < |places| :: places[i] < |keys| && keys[places[i]] == k
    ensures forall i, j | 0 <= i < j < |places| :: places[i] < places[j]
  {
    if keys == [] then []
    else
      var n := |keys| - 1;
      var before := Places(keys[..n], k);
      assert forall i | 0 <= i < |before| :: keys[before[i]] == keys[..n][before[i]];
      if keys[n] == k then before + [n] else before
  }

  predicate Shared(keys: seq<Key>, k: Key) {
    |Places(keys, k)| >= 2
  }

  // ------------------------------------------------------------------ labelling

  // All findings with key k get group g; when enforced, the first one only can be
  // posted.
  function Assigned(f: Finding, g: nat, first: bool, enforce: bool): Finding {
    f.(group := Some(g), suggested := true, eligible := f.eligible && (first || !enforce))
  }

  function Assign(rows: seq<Finding>, keys: seq<Key>, k: Key, g: nat, enforce: bool): (out: seq<Finding>)
    requires |rows| == |keys|
    ensures |out| == |rows|
  {
    seq(|rows|, i requires 0 <= i < |rows| =>
      if keys[i] == k then Assigned(rows[i], g, k !in keys[..i], enforce) else rows[i])
  }

  function BatchOver(rows: seq<Finding>, keys: seq<Key>, order: seq<Key>, last: nat, enforce: bool): seq<Finding>
    requires |rows| == |keys|
    decreases |order|
  {
    if order == [] then rows
    else if !Shared(keys, order[0]) then BatchOver(rows, keys, order[1..], last, enforce)
    else BatchOver(Assign(rows, keys, order[0], last + 1, enforce), keys, order[1..], last + 1, enforce)
  }

  // Everything at once.
  function Batch(findings: seq<Finding>, canon: string -> string, enforce: bool): seq<Finding> {
    var keys := KeysOf(findings, canon);
    BatchOver(findings, keys, Distinct(keys), 0, enforce)
  }

  // The group that the first n rows already have for a key.
  function KnownGroup(rows: seq<Finding>, keys: seq<Key>, n: nat, k: Key): Option<nat>
    requires |rows| == |keys| && n <= |rows|
  {
    if n == 0 then None
    else
      var before := KnownGroup(rows, keys, n - 1, k);
      if before.Some? then before else if keys[n - 1] == k then rows[n - 1].group else None
  }

  function MaxGroup(rows: seq<Finding>): nat {
    if rows == [] then 0
    else
      var before, g := MaxGroup(rows[..|rows| - 1]), rows[|rows| - 1].group;
      if g.Some? && g.value > before then g.value else before
  }

  function Cleared(rows: seq<Finding>, keys: seq<Key>, n: nat, k: Key): (out: seq<Finding>)
    requires |rows| == |keys|
    ensures |out| == |rows|
  {
    seq(|rows|, i requires 0 <= i < |rows| =>
      if i >= n && keys[i] == k then rows[i].(group := None, suggested := false) else rows[i])
  }

  // The first n rows are stored, the others come from the retry.
  function RegroupOver(rows: seq<Finding>, keys: seq<Key>, n: nat, order: seq<Key>, last: nat, enforce: bool): seq<Finding>
    requires |rows| == |keys| && n <= |rows|
    decreases |order|
  {
    if order == [] then rows
    else
      var k := order[0];
      if !Shared(keys, k) then RegroupOver(Cleared(rows, keys, n, k), keys, n, order[1..], last, enforce)
      else
        var known := KnownGroup(rows, keys, n, k);
        if known.Some?
        then RegroupOver(Assign(rows, keys, k, known.value, enforce), keys, n, order[1..], last, enforce)
        else RegroupOver(Assign(rows, keys, k, last + 1, enforce), keys, n, order[1..], last + 1, enforce)
  }

  function Regroup(stored: seq<Finding>, found: seq<Finding>, canon: string -> string, enforce: bool): seq<Finding> {
    RegroupOver(stored + found, KeysOf(stored + found, canon), |stored|, Distinct(KeysOf(found, canon)),
                MaxGroup(stored), enforce)
  }

  // ------------------------------------------------------------------ look-ups

  lemma {:induction false} PlacesAre(keys: seq<Key>, k: Key)
    ensures forall i: nat :: i in Places(keys, k) <==> i < |keys| && keys[i] == k
  {
    if keys != [] {
      var n := |keys| - 1;
      PlacesAre(keys[..n], k);
      assert forall i: nat | i < n :: keys[..n][i] == keys[i];
    }
  }

  // The first place of a key is the one nothing equal comes before.
  lemma FirstPlace(keys: seq<Key>, k: Key, i: nat)
    requires i < |Places(keys, k)|
    ensures i == 0 <==> k !in keys[..Places(keys, k)[i]]
  {
    var places := Places(keys, k);
    PlacesAre(keys, k);
    if i > 0 {
      assert keys[..places[i]][places[0]] == k;
    } else {
      assert forall j: nat | j < places[0] :: keys[j] == k ==> j in places;
    }
  }

  lemma SharedMeans(keys: seq<Key>, k: Key)
    ensures Shared(keys, k) <==> exists i: nat, j: nat :: i < j < |keys| && keys[i] == k && keys[j] == k
  {
    var places := Places(keys, k);
    PlacesAre(keys, k);
    if Shared(keys, k) {
      assert places[0] < places[1];
    }
    if i: nat, j: nat :| i < j < |keys| && keys[i] == k && keys[j] == k {
      assert i in places && j in places;
    }
  }

  lemma {:induction false} DistinctAre(keys: seq<Key>)
    ensures NoRepeats(Distinct(keys))
    ensures forall k :: k in Distinct(keys) <==> k in keys
  {
    hide NoRepeats;
    if keys != [] {
      var n := |keys| - 1;
      DistinctAre(keys[..n]);
      assert keys == keys[..n] + [keys[n]];
      if keys[n] !in Distinct(keys[..n]) {
        AppendOnce(Distinct(keys[..n]), keys[n]);
      }
    } else {
      NothingRepeats();
    }
  }

  lemma NothingRepeats()
    ensures NoRepeats<Key>([])
  {
  }

  // ------------------------------------------------------------------- methods

  // Setting the group of a key, place by place.
  method AssignPlaces(rows: seq<Finding>, keys: seq<Key>, k: Key, g: nat, enforce: bool) returns (out: seq<Finding>)
    requires |rows| == |keys|
    ensures out == Assign(rows, keys, k, g, enforce)
  {
    var places := Places(keys, k);
    out := rows;
    for index := 0 to |places|
      invariant |out| == |rows|
      invariant forall i | 0 <= i < |rows| ::
        out[i] == if i in places[..index] then Assigned(rows[i], g, k !in keys[..i], enforce) else rows[i]
    {
      FirstPlace(keys, k, index);
      var f := out[places[index]].(group := Some(g), suggested := true);
      if enforce && index > 0 {
        f := f.(eligible := false);
      }
      assert places[index] !in places[..index];
      assert places[..index + 1] == places[..index] + [places[index]];
      out := out[places[index] := f];
    }
    assert places[..|places|] == places;
    PlacesAre(keys, k);
  }

  method GroupDuplicateCandidates(findings: seq<Finding>, canon: string -> string, enforce: bool)
    returns (rows: seq<Finding>)
    ensures rows == Batch(findings, canon, enforce)
  {
    var keys := KeysOf(findings, canon);
    var order, last := Distinct(keys), 0;
    rows := findings;
    for i := 0 to |order|
      invariant |rows| == |keys|
      invariant BatchOver(rows, keys, order[i..], last, enforce) == Batch(findings, canon, enforce)
    {
      DropStep(order, i);
      if |Places(keys, order[i])| < 2 {
        continue;
      }
      last := last + 1;
      rows := AssignPlaces(rows, keys, order[i], last, enforce);
    }
  }

  lemma RegroupStep(rows: seq<Finding>, keys: seq<Key>, n: nat, order: seq<Key>, last: nat, enforce: bool)
    requires |rows| == |keys| && n <= |rows| && order != []
    ensures var k := order[0];
      var known := KnownGroup(rows, keys, n, k);
      RegroupOver(rows, keys, n, order, last, enforce) ==
        if !Shared(keys, k) then RegroupOver(Cleared(rows, keys, n, k), keys, n, order[1..], last, enforce)
        else if known.Some? then RegroupOver(Assign(rows, keys, k, known.value, enforce), keys, n, order[1..], last, enforce)
        else RegroupOver(Assign(rows, keys, k, last + 1, enforce), keys, n, order[1..], last + 1, enforce)
  {
    hide Cleared, Assign, KnownGroup, Shared;
  }

  lemma RegroupEnd(rows: seq<Finding>, keys: seq<Key>, n: nat, last: nat, enforce: bool)
    requires |rows| == |keys| && n <= |rows|
    ensures RegroupOver(rows, keys, n, [], last, enforce) == rows
  {
  }

  method GroupRetryDuplicates(stored: seq<Finding>, found: seq<Finding>, canon: string -> string, enforce: bool)
    returns (rows: seq<Finding>)
    ensures rows == Regroup(stored, found, canon, enforce)
  {
    hide RegroupOver, KnownGroup, Assign, Cleared, MaxGroup, Distinct;
    rows := stored + found;
    var keys, order, last := KeysOf(rows, canon), Distinct(KeysOf(found, canon)), MaxGroup(stored);
    for i := 0 to |order|
      invariant |rows| == |keys|
      invariant RegroupOver(rows, keys, |stored|, order[i..], last, enforce) == Regroup(stored, found, canon, enforce)
    {
      DropStep(order, i);
      RegroupStep(rows, keys, |stored|, order[i..], last, enforce);
      var k := order[i];
      if |Places(keys, k)| < 2 {
        rows := Cleared(rows, keys, |stored|, k);
      } else {
        var group := KnownGroup(rows, keys, |stored|, k);
        if group.None? {
          last := last + 1;
          group := Some(last);
        }
        rows := AssignPlaces(rows, keys, k, group.value, enforce);
      }
    }
    assert order[|order|..] == [];
    RegroupEnd(rows, keys, |stored|, last, enforce);
  }
}
