// Grouping the findings of every retry with those already stored comes to the
// same as grouping all findings at once.
module DedupeEquivalence {
  import opened Text
  import opened FindingPolicy
  import opened Dedupe

  // ------------------------------------------------------- what a grouping is

  type Numbering = map<Key, nat>

  ghost predicate Injective(num: Numbering) {
    forall k, l | k in num && l in num && num[k] == num[l] :: k == l
  }

  // Exactly the keys that several findings have get a number.
  ghost predicate Complete(num: Numbering, keys: seq<Key>) {
    forall k :: k in num <==> Shared(keys, k)
  }

  function Labelled(f: Finding, keys: seq<Key>, i: nat, num: Numbering, enforce: bool): Finding
    requires i < |keys|
  {
    if keys[i] in num then Assigned(f, num[keys[i]], keys[i] !in keys[..i], enforce) else f
  }

  predicate Numbered(rows: seq<Finding>, base: seq<Finding>, keys: seq<Key>, num: Numbering, enforce: bool) {
    && |rows| == |base| == |keys|
    && forall i | 0 <= i < |rows| :: rows[i] == Labelled(base[i], keys, i, num, enforce)
  }

  // The rows are the given findings with duplicates grouped: findings share a
  // group exactly when they share a key, and only findings that share one have a
  // group. When enforced, only the first of a group can still be posted.
  ghost predicate Grouped(rows: seq<Finding>, base: seq<Finding>, canon: string -> string, enforce: bool) {
    exists num ::
      Complete(num, KeysOf(base, canon)) && Injective(num) && Numbered(rows, base, KeysOf(base, canon), num, enforce)
  }

  predicate Ungrouped(findings: seq<Finding>) {
    forall i | 0 <= i < |findings| :: findings[i].group == None && !findings[i].suggested
  }

  // ------------------------------------------------------------- all at once

  lemma AssignNumbers(
    rows: seq<Finding>, base: seq<Finding>, keys: seq<Key>, num: Numbering, k: Key, g: nat, enforce: bool)
    requires Numbered(rows, base, keys, num, enforce) && (k in num ==> num[k] == g)
    ensures Numbered(Assign(rows, keys, k, g, enforce), base, keys, num[k := g], enforce)
  {
  }

  lemma {:induction false} BatchNumbers(
    rows: seq<Finding>, base: seq<Finding>, keys: seq<Key>, order: seq<Key>, last: nat, num: Numbering, enforce: bool)
    returns (full: Numbering)
    requires Numbered(rows, base, keys, num, enforce) && Injective(num) && NoRepeats(order)
    requires forall k <- num :: num[k] <= last
    requires forall k <- order :: k !in num
    ensures Numbered(BatchOver(rows, keys, order, last, enforce), base, keys, full, enforce) && Injective(full)
    ensures forall k :: k in full <==> k in num || (k in order && Shared(keys, k))
    decreases |order|
  {
    hide Numbered, Assign, Shared, NoRepeats;
    if order == [] {
      full := num;
    } else {
      var k, rest := order[0], order[1..];
      TailOnce(order);
      if !Shared(keys, k) {
        full := BatchNumbers(rows, base, keys, rest, last, num, enforce);
      } else {
        AssignNumbers(rows, base, keys, num, k, last + 1, enforce);
        full := BatchNumbers(
          Assign(rows, keys, k, last + 1, enforce), base, keys, rest, last + 1, num[k := last + 1], enforce);
      }
    }
  }

  lemma BatchIsGrouped(findings: seq<Finding>, canon: string -> string, enforce: bool)
    ensures Grouped(Batch(findings, canon, enforce), findings, canon, enforce)
  {
    var keys := KeysOf(findings, canon);
    DistinctAre(keys);
    hide BatchOver, Distinct, KeysOf, NoRepeats;
    var num := BatchNumbers(findings, findings, keys, Distinct(keys), 0, map[], enforce);
    forall k ensures k in num <==> Shared(keys, k) {
      if Shared(keys, k) {
        assert keys[Places(keys, k)[0]] == k;
      }
    }
  }

  // ------------------------------------------------------------- incrementally

  // Keys in `done` are dealt with, and stored rows are labelled in any case.
  predicate Partly(
    rows: seq<Finding>, base: seq<Finding>, keys: seq<Key>, n: nat, done: set<Key>, num: Numbering, enforce: bool)
  {
    && |rows| == |base| == |keys| && n <= |rows|
    && forall i | 0 <= i < |rows| ::
         rows[i] == if i < n || keys[i] in done then Labelled(base[i], keys, i, num, enforce) else base[i]
  }

  lemma AssignPartly(
    rows: seq<Finding>, base: seq<Finding>, keys: seq<Key>, n: nat, done: set<Key>, num: Numbering, k: Key, g: nat,
    enforce: bool)
    requires Partly(rows, base, keys, n, done, num, enforce) && (k in num ==> num[k] == g)
    ensures Partly(Assign(rows, keys, k, g, enforce), base, keys, n, done + {k}, num[k := g], enforce)
  {
  }

  lemma ClearedPartly(
    rows: seq<Finding>, base: seq<Finding>, keys: seq<Key>, n: nat, done: set<Key>, num: Numbering, k: Key,
    enforce: bool)
    requires Partly(rows, base, keys, n, done, num, enforce) && k !in num && Ungrouped(base)
    ensures Partly(Cleared(rows, keys, n, k), base, keys, n, done + {k}, num, enforce)
  {
  }

  lemma {:induction false} KnownIs(
    rows: seq<Finding>, base: seq<Finding>, keys: seq<Key>, n: nat, m: nat, done: set<Key>, num: Numbering, k: Key,
    enforce: bool)
    requires Partly(rows, base, keys, n, done, num, enforce) && Ungrouped(base) && m <= n
    ensures KnownGroup(rows, keys, m, k) == if k in num && k in keys[..m] then Some(num[k]) else None
  {
    PartlySizes(rows, base, keys, n, done, num, enforce);
    hide Partly, KnownGroup, Ungrouped;
    if m > 0 {
      KnownIs(rows, base, keys, n, m - 1, done, num, k, enforce);
      KnownStep(rows, keys, m, k);
      GroupAt(rows, base, keys, n, done, num, m - 1, enforce);
    } else {
      KnownNone(rows, keys, k);
    }
  }

  lemma KnownNone(rows: seq<Finding>, keys: seq<Key>, k: Key)
    requires |rows| == |keys|
    ensures KnownGroup(rows, keys, 0, k) == None
  {
  }

  lemma KnownStep(rows: seq<Finding>, keys: seq<Key>, m: nat, k: Key)
    requires |rows| == |keys| && 0 < m <= |rows|
    ensures var before := KnownGroup(rows, keys, m - 1, k);
      KnownGroup(rows, keys, m, k) ==
        if before.Some? then before else if keys[m - 1] == k then rows[m - 1].group else None
    ensures k in keys[..m] <==> k in keys[..m - 1] || keys[m - 1] == k
  {
    assert keys[..m] == keys[..m - 1] + [keys[m - 1]];
  }

  lemma GroupAt(
    rows: seq<Finding>, base: seq<Finding>, keys: seq<Key>, n: nat, done: set<Key>, num: Numbering, i: nat,
    enforce: bool)
    requires Partly(rows, base, keys, n, done, num, enforce) && Ungrouped(base) && i < n
    ensures rows[i].group == if keys[i] in num then Some(num[keys[i]]) else None
  {
  }

  lemma {:induction false} RegroupNumbers(
    rows: seq<Finding>, base: seq<Finding>, keys: seq<Key>, n: nat, order: seq<Key>, last: nat, done: set<Key>,
    num: Numbering, enforce: bool)
    returns (full: Numbering)
    requires Partly(rows, base, keys, n, done, num, enforce) && Ungrouped(base) && Injective(num)
    requires forall k <- num :: num[k] <= last && Shared(keys, k) && (k in keys[..n] || k in done)
    requires NoRepeats(order) && forall k <- order :: k !in done
    ensures Partly(RegroupOver(rows, keys, n, order, last, enforce), base, keys, n, done + (set k <- order), full, enforce)
    ensures Injective(full)
    ensures forall k :: k in full <==> k in num || (k in order && Shared(keys, k))
    decreases |order|
  {
    hide Partly, Assign, Cleared, Shared, KnownGroup, Ungrouped, RegroupOver, NoRepeats, Injective;
    if order == [] {
      full := num;
      assert |rows| == |keys| && n <= |rows| by { PartlySizes(rows, base, keys, n, done, num, enforce); }
      RegroupEnd(rows, keys, n, last, enforce);
      assert done + (set k <- order) == done;
    } else {
      var k, rest := order[0], order[1..];
      TailOnce(order);
      PartlySizes(rows, base, keys, n, done, num, enforce);
      RegroupStep(rows, keys, n, order, last, enforce);
      assert done + {k} + (set l <- rest) == done + (set l <- order);
      KnownIs(rows, base, keys, n, n, done, num, k, enforce);
      var known := KnownGroup(rows, keys, n, k);
      if !Shared(keys, k) {
        ClearedPartly(rows, base, keys, n, done, num, k, enforce);
        full := RegroupNumbers(Cleared(rows, keys, n, k), base, keys, n, rest, last, done + {k}, num, enforce);
      } else if known.Some? {
        AssignPartly(rows, base, keys, n, done, num, k, known.value, enforce);
        assert num[k := known.value] == num;
        full := RegroupNumbers(
          Assign(rows, keys, k, known.value, enforce), base, keys, n, rest, last, done + {k}, num, enforce);
      } else {
        AssignPartly(rows, base, keys, n, done, num, k, last + 1, enforce);
        assert k !in num;
        FreshNumber(num, k, last);
        full := RegroupNumbers(
          Assign(rows, keys, k, last + 1, enforce), base, keys, n, rest, last + 1, done + {k}, num[k := last + 1],
          enforce);
      }
    }
  }

  lemma FreshNumber(num: Numbering, k: Key, last: nat)
    requires Injective(num) && k !in num && forall l <- num :: num[l] <= last
    ensures Injective(num[k := last + 1])
  {
  }

  lemma PartlySizes(
    rows: seq<Finding>, base: seq<Finding>, keys: seq<Key>, n: nat, done: set<Key>, num: Numbering, enforce: bool)
    requires Partly(rows, base, keys, n, done, num, enforce)
    ensures |rows| == |base| == |keys| && n <= |rows|
  {
  }

  lemma {:induction false} MaxGroupBounds(rows: seq<Finding>, i: nat)
    requires i < |rows| && rows[i].group.Some?
    ensures rows[i].group.value <= MaxGroup(rows)
  {
    if i < |rows| - 1 {
      MaxGroupBounds(rows[..|rows| - 1], i);
    }
  }

  lemma LabelledKey(f: Finding, keys: seq<Key>, i: nat, num: Numbering, enforce: bool, canon: string -> string)
    requires i < |keys|
    ensures KeyOf(Labelled(f, keys, i, num, enforce), canon) == KeyOf(f, canon)
  {
  }

  lemma SameKeys(rows: seq<Finding>, base: seq<Finding>, num: Numbering, canon: string -> string, enforce: bool)
    requires Numbered(rows, base, KeysOf(base, canon), num, enforce)
    ensures KeysOf(rows, canon) == KeysOf(base, canon)
  {
    hide KeyOf, Labelled;
    var keys := KeysOf(base, canon);
    forall i | 0 <= i < |rows| ensures KeyOf(rows[i], canon) == keys[i] {
      LabelledKey(base[i], keys, i, num, enforce, canon);
    }
  }

  lemma KeysConcat(a: seq<Finding>, b: seq<Finding>, canon: string -> string)
    ensures KeysOf(a + b, canon) == KeysOf(a, canon) + KeysOf(b, canon)
  {
    hide KeyOf;
  }

  lemma FromEither(a: seq<Key>, b: seq<Key>, j: nat)
    requires j < |a + b|
    ensures j < |a| || (a + b)[j] in b
  {
  }

  lemma SharedInMore(a: seq<Key>, b: seq<Key>, k: Key)
    ensures Shared(a, k) ==> Shared(a + b, k)
    ensures k !in b ==> (Shared(a + b, k) <==> Shared(a, k))
  {
    hide Shared;
    SharedMeans(a, k);
    SharedMeans(a + b, k);
    if Shared(a, k) {
      var i: nat, j: nat :| i < j < |a| && a[i] == k && a[j] == k;
      assert (a + b)[i] == k && (a + b)[j] == k;
    }
    if k !in b && Shared(a + b, k) {
      var i: nat, j: nat :| i < j < |a + b| && (a + b)[i] == k && (a + b)[j] == k;
      FromEither(a, b, j);
      assert a[i] == k && a[j] == k;
    }
  }

  // The stored rows and what a retry found start out partly labelled.
  lemma StartPartly(
    stored: seq<Finding>, baseS: seq<Finding>, keysS: seq<Key>, found: seq<Finding>, keysF: seq<Key>, num: Numbering,
    enforce: bool)
    requires Numbered(stored, baseS, keysS, num, enforce) && |found| == |keysF|
    ensures Partly(stored + found, baseS + found, keysS + keysF, |stored|, {}, num, enforce)
  {
    var keys := keysS + keysF;
    forall i | 0 <= i < |stored| ensures (stored + found)[i] == Labelled((baseS + found)[i], keys, i, num, enforce) {
      assert keys[..i] == keysS[..i] && keys[i] == keysS[i];
    }
  }

  lemma NumbersBounded(stored: seq<Finding>, base: seq<Finding>, keys: seq<Key>, num: Numbering, enforce: bool, k: Key)
    requires Numbered(stored, base, keys, num, enforce) && k in num && Shared(keys, k)
    ensures num[k] <= MaxGroup(stored)
  {
    var i := Places(keys, k)[0];
    assert stored[i].group == Some(num[k]);
    MaxGroupBounds(stored, i);
  }

  lemma FullyNumbered(
    rows: seq<Finding>, base: seq<Finding>, keys: seq<Key>, n: nat, done: set<Key>, num: Numbering, enforce: bool)
    requires Partly(rows, base, keys, n, done, num, enforce)
    requires forall i | n <= i < |keys| :: keys[i] in done
    ensures Numbered(rows, base, keys, num, enforce)
  {
  }

  lemma StoredNumbers(
    stored: seq<Finding>, base: seq<Finding>, keysS: seq<Key>, keysF: seq<Key>, num: Numbering, enforce: bool)
    requires Complete(num, keysS) && Numbered(stored, base, keysS, num, enforce)
    ensures |stored| == |keysS|
    ensures forall k <- num ::
      num[k] <= MaxGroup(stored) && Shared(keysS + keysF, k) && k in (keysS + keysF)[..|stored|]
  {
    assert |stored| == |keysS|;
    hide Numbered, Shared, MaxGroup;
    forall k <- num
      ensures num[k] <= MaxGroup(stored) && Shared(keysS + keysF, k) && k in (keysS + keysF)[..|stored|]
    {
      NumbersBounded(stored, base, keysS, num, enforce, k);
      SharedInMore(keysS, keysF, k);
      SharedMeans(keysS, k);
      assert (keysS + keysF)[..|stored|] == keysS;
    }
  }

  lemma NowComplete(num: Numbering, full: Numbering, keysS: seq<Key>, keysF: seq<Key>, order: seq<Key>)
    requires Complete(num, keysS) && forall k :: k in order <==> k in keysF
    requires forall k :: k in full <==> k in num || (k in order && Shared(keysS + keysF, k))
    ensures Complete(full, keysS + keysF)
  {
    hide Shared;
    forall k ensures k in full <==> Shared(keysS + keysF, k) {
      SharedInMore(keysS, keysF, k);
    }
  }

  // A retry keeps the grouping: if the stored rows were grouped, they are with
  // the findings of the retry added.
  lemma RetryKeepsGrouped(
    stored: seq<Finding>, base: seq<Finding>, found: seq<Finding>, canon: string -> string, enforce: bool)
    requires Grouped(stored, base, canon, enforce) && Ungrouped(base) && Ungrouped(found)
    ensures Grouped(Regroup(stored, found, canon, enforce), base + found, canon, enforce)
  {
    hide Partly, RegroupOver, Distinct, KeysOf, MaxGroup, NoRepeats, Numbered, Shared, Complete, Injective;
    var keysS, keysF := KeysOf(base, canon), KeysOf(found, canon);
    var keys, order := keysS + keysF, Distinct(keysF);
    var num :| Complete(num, keysS) && Injective(num) && Numbered(stored, base, keysS, num, enforce);
    SameKeys(stored, base, num, canon, enforce);
    KeysConcat(stored, found, canon);
    KeysConcat(base, found, canon);
    DistinctAre(keysF);
    StoredNumbers(stored, base, keysS, keysF, num, enforce);
    StartPartly(stored, base, keysS, found, keysF, num, enforce);
    assert Ungrouped(base + found);
    hide Ungrouped;
    var full := RegroupNumbers(
      stored + found, base + found, keys, |stored|, order, MaxGroup(stored), {}, num, enforce);
    forall i | |stored| <= i < |keys| ensures keys[i] in {} + (set k <- order) {
      assert keys[i] == keysF[i - |keysS|];
    }
    FullyNumbered(
      Regroup(stored, found, canon, enforce), base + found, keys, |stored|, {} + (set k <- order), full, enforce);
    NowComplete(num, full, keysS, keysF, order);
  }
}
