// Which findings end up in one group, by the fields of the findings alone.
module DedupeFields {
  import opened Text
  import opened FindingPolicy
  import opened Dedupe
  import opened DedupeEquivalence
  import opened DedupeHistory

  // One vendor claims the same of the same line, as far as paths and claims can be
  // compared.
  predicate Alike(a: Finding, b: Finding, canon: string -> string) {
    && a.vendor == b.vendor
    && Normalize(a.file) == Normalize(b.file)
    && a.line == b.line
    && a.category == b.category
    && canon(a.claim) == canon(b.claim)
  }

  predicate HasPartner(base: seq<Finding>, i: nat, canon: string -> string)
    requires i < |base|
  {
    exists j | 0 <= j < |base| :: j != i && Alike(base[i], base[j], canon)
  }

  predicate HasEarlier(base: seq<Finding>, i: nat, canon: string -> string)
    requires i < |base|
  {
    exists j | 0 <= j < i :: Alike(base[i], base[j], canon)
  }

  // Findings are in one group exactly when they are alike, and in none when nothing
  // is like them; when enforced, those with one like them before them cannot be
  // posted. Nothing else about a finding changes.
  predicate GroupedByFields(rows: seq<Finding>, base: seq<Finding>, canon: string -> string, enforce: bool) {
    && |rows| == |base|
    && (forall i, j | 0 <= i < |rows| && 0 <= j < |rows| && i != j ::
          rows[i].group.Some? && rows[i].group == rows[j].group <==> Alike(base[i], base[j], canon))
    && (forall i | 0 <= i < |rows| ::
          (rows[i].group.Some? <==> HasPartner(base, i, canon)) && (rows[i].suggested <==> HasPartner(base, i, canon)))
    && (forall i | 0 <= i < |rows| :: rows[i].eligible <==> base[i].eligible && !(enforce && HasEarlier(base, i, canon)))
    && (forall i | 0 <= i < |rows| ::
          rows[i] == base[i].(group := rows[i].group, suggested := rows[i].suggested, eligible := rows[i].eligible))
  }

  lemma KeysAgree(a: Finding, b: Finding, canon: string -> string)
    ensures KeyOf(a, canon) == KeyOf(b, canon) <==> Alike(a, b, canon)
  {
    hide Normalize;
  }

  lemma SharedByFields(base: seq<Finding>, canon: string -> string, i: nat)
    requires i < |base|
    ensures Shared(KeysOf(base, canon), KeyOf(base[i], canon)) <==> HasPartner(base, i, canon)
    ensures KeyOf(base[i], canon) in KeysOf(base, canon)[..i] <==> HasEarlier(base, i, canon)
  {
    hide KeyOf, Alike, Shared;
    var keys := KeysOf(base, canon);
    var k := keys[i];
    SharedMeans(keys, k);
    forall j | 0 <= j < |base| ensures keys[j] == k <==> Alike(base[i], base[j], canon) {
      KeysAgree(base[i], base[j], canon);
    }
    if j: nat :| j < |base| && j != i && Alike(base[i], base[j], canon) {
      assert keys[j] == k;
      assert i < j || j < i;
    }
    if k in keys[..i] {
      var j :| 0 <= j < i && keys[..i][j] == k;
      assert keys[j] == k;
    }
    if j: nat :| j < i && Alike(base[i], base[j], canon) {
      assert keys[..i][j] == k;
    }
  }

  lemma LabelledRow(f: Finding, keys: seq<Key>, i: nat, num: Numbering, enforce: bool)
    requires i < |keys| && f.group == None && !f.suggested
    ensures var row := Labelled(f, keys, i, num, enforce);
      && row.group == (if keys[i] in num then Some(num[keys[i]]) else None)
      && (row.suggested <==> keys[i] in num)
      && (row.eligible <==> f.eligible && !(enforce && keys[i] in num && keys[i] in keys[..i]))
      && row == f.(group := row.group, suggested := row.suggested, eligible := row.eligible)
  {
  }

  lemma EarlierIsPartner(base: seq<Finding>, i: nat, canon: string -> string)
    requires i < |base|
    ensures HasEarlier(base, i, canon) ==> HasPartner(base, i, canon)
  {
    hide Alike;
  }

  lemma GroupedExactly(rows: seq<Finding>, base: seq<Finding>, canon: string -> string, enforce: bool)
    requires Grouped(rows, base, canon, enforce) && Ungrouped(base)
    ensures GroupedByFields(rows, base, canon, enforce)
  {
    hide KeyOf, Alike, Shared, Labelled, HasPartner, HasEarlier;
    var keys := KeysOf(base, canon);
    var num :| Complete(num, keys) && Injective(num) && Numbered(rows, base, keys, num, enforce);
    forall i | 0 <= i < |rows|
      ensures keys[i] in num <==> HasPartner(base, i, canon)
      ensures rows[i].group == if keys[i] in num then Some(num[keys[i]]) else None
      ensures rows[i].suggested <==> HasPartner(base, i, canon)
      ensures rows[i].eligible <==> base[i].eligible && !(enforce && HasEarlier(base, i, canon))
      ensures rows[i] == base[i].(group := rows[i].group, suggested := rows[i].suggested, eligible := rows[i].eligible)
    {
      SharedByFields(base, canon, i);
      EarlierIsPartner(base, i, canon);
      LabelledRow(base[i], keys, i, num, enforce);
    }
    forall i, j | 0 <= i < |rows| && 0 <= j < |rows| && i != j
      ensures rows[i].group.Some? && rows[i].group == rows[j].group <==> Alike(base[i], base[j], canon)
    {
      KeysAgree(base[i], base[j], canon);
      if Alike(base[i], base[j], canon) {
        PartnerIs(base, i, j, canon);
        assert rows[j].group == Some(num[keys[j]]) by { AlikeBack(base[i], base[j], canon); PartnerIs(base, j, i, canon); }
      }
    }
  }

  lemma PartnerIs(base: seq<Finding>, i: nat, j: nat, canon: string -> string)
    requires i < |base| && j < |base| && i != j && Alike(base[i], base[j], canon)
    ensures HasPartner(base, i, canon)
  {
  }

  lemma AlikeBack(a: Finding, b: Finding, canon: string -> string)
    requires Alike(a, b, canon)
    ensures Alike(b, a, canon)
  {
  }

  // Grouping all findings of a run at once.
  lemma BatchExactly(findings: seq<Finding>, canon: string -> string, enforce: bool)
    requires Ungrouped(findings)
    ensures GroupedByFields(Batch(findings, canon, enforce), findings, canon, enforce)
  {
    hide Grouped, GroupedByFields, Batch;
    BatchIsGrouped(findings, canon, enforce);
    GroupedExactly(Batch(findings, canon, enforce), findings, canon, enforce);
  }

  // Any number of retries on grouped findings.
  lemma RetriesExactly(
    stored: seq<Finding>, base: seq<Finding>, retries: seq<seq<Finding>>, canon: string -> string, enforce: bool)
    requires Grouped(stored, base, canon, enforce) && Ungrouped(base)
    requires forall r | 0 <= r < |retries| :: Ungrouped(retries[r])
    ensures GroupedByFields(After(stored, retries, canon, enforce), base + Together(retries), canon, enforce)
  {
    hide Grouped, GroupedByFields, After, Together, Ungrouped;
    RetriesKeepGrouped(stored, base, retries, canon, enforce);
    GroupedExactly(After(stored, retries, canon, enforce), base + Together(retries), canon, enforce);
  }

  // A first review and any number of retries.
  lemma HistoryExactly(first: seq<Finding>, retries: seq<seq<Finding>>, canon: string -> string, enforce: bool)
    requires Ungrouped(first) && forall r | 0 <= r < |retries| :: Ungrouped(retries[r])
    ensures GroupedByFields(
      After(Batch(first, canon, enforce), retries, canon, enforce), first + Together(retries), canon, enforce)
  {
    hide Grouped, GroupedByFields, After, Together, Batch, Ungrouped;
    BatchIsGrouped(first, canon, enforce);
    RetriesExactly(Batch(first, canon, enforce), first, retries, canon, enforce);
  }
}
