// The order of the findings of a run, and the rows that paging through them yields.
module PagingRows {
  import opened Text
  import opened Paging

  // ------------------------------------------------------------------ the order

  // Critical, high and medium come in this order and before everything else.
  predicate MoreSevere(a: Option<string>, b: Option<string>) {
    || (a == Some("critical") && b != Some("critical"))
    || (a == Some("high") && b != Some("critical") && b != Some("high"))
    || (a == Some("medium") && b != Some("critical") && b != Some("high") && b != Some("medium"))
  }

  predicate Agreed(a: Row, b: Row) {
    a.consensus == Some("consensus") && b.consensus != Some("consensus")
  }

  // Nothing known about the confidence counts as minus one.
  predicate Surer(a: Row, b: Row) {
    var sureA := if a.confidence == None then -1.0 else a.confidence.value;
    var sureB := if b.confidence == None then -1.0 else b.confidence.value;
    sureA > sureB
  }

  // No file counts as the empty one.
  function FileName(r: Row): string {
    match r.file case None => "" case Some(name) => name
  }

  // The texts agree up to a place where a ends or has the smaller character.
  ghost predicate Alphabetically(a: string, b: string) {
    exists n: nat :: SplitsAt(a, b, n)
  }

  predicate SplitsAt(a: string, b: string, n: nat) {
    n <= |a| && n < |b| && a[..n] == b[..n] && (n == |a| || a[n] < b[n])
  }

  // By severity, then what vendors agree on, then the surest, then by file, then
  // the oldest.
  ghost predicate Before(a: Row, b: Row) {
    if MoreSevere(a.severity, b.severity) || MoreSevere(b.severity, a.severity) then MoreSevere(a.severity, b.severity)
    else if Agreed(a, b) || Agreed(b, a) then Agreed(a, b)
    else if Surer(a, b) || Surer(b, a) then Surer(a, b)
    else if FileName(a) != FileName(b) then Alphabetically(FileName(a), FileName(b))
    else a.id < b.id
  }

  lemma SplitsLater(a: string, b: string, n: nat)
    requires a != "" && b != "" && a[0] == b[0] && SplitsAt(a[1..], b[1..], n)
    ensures SplitsAt(a, b, n + 1)
  {
    FirstAnd(a, n + 1);
    FirstAnd(b, n + 1);
  }

  lemma SplitsSooner(a: string, b: string, n: nat)
    requires a != "" && SplitsAt(a, b, n)
    ensures n == 0 ==> a[0] < b[0]
    ensures n > 0 ==> a[0] == b[0] && SplitsAt(a[1..], b[1..], n - 1)
  {
    if n > 0 {
      FirstAnd(a, n);
      FirstAnd(b, n);
      assert a[0] == a[..n][0] == b[..n][0] == b[0];
      assert a[1..][..n - 1] == a[..n][1..] && b[1..][..n - 1] == b[..n][1..];
    }
  }

  lemma {:induction false} TextLessIs(a: string, b: string)
    ensures TextLess(a, b) <==> Alphabetically(a, b)
  {
    if a != "" && b != "" {
      hide SplitsAt;
      TextLessIs(a[1..], b[1..]);
      if a[0] < b[0] {
        assert SplitsAt(a, b, 0) by { SplitsAtOnce(a, b); }
      } else if TextLess(a, b) {
        var n: nat :| SplitsAt(a[1..], b[1..], n);
        SplitsLater(a, b, n);
      } else if n: nat :| SplitsAt(a, b, n) {
        SplitsSooner(a, b, n);
      }
    } else if a == "" && b != "" {
      assert SplitsAt(a, b, 0);
    }
  }

  lemma SplitsAtOnce(a: string, b: string)
    requires a != "" && b != "" && a[0] < b[0]
    ensures SplitsAt(a, b, 0)
  {
    assert a[..0] == b[..0];
  }

  lemma FirstAnd(s: string, n: nat)
    requires 0 < n <= |s|
    ensures s[..n] == [s[0]] + s[1..][..n - 1]
  {
  }

  // The generated columns sort as the findings are meant to be ordered.
  lemma OrderExactly(a: Row, b: Row)
    ensures Less(SortKey(a), SortKey(b)) <==> Before(a, b)
  {
    hide TextLess, Alphabetically;
    TextLessIs(FileName(a), FileName(b));
    TextOrder(FileName(a), FileName(b));
  }

  // ------------------------------------------------------------------- the rows

  lemma {:induction false} InsertKeepsRows(r: Row, sorted: seq<Row>, x: Row)
    ensures x in Insert(r, sorted) <==> x == r || x in sorted
  {
    hide Less, SortKey;
    if sorted != [] {
      InsertKeepsRows(r, sorted[1..], x);
      assert sorted == [sorted[0]] + sorted[1..];
    }
  }

  lemma {:induction false} SelectedRows(table: seq<Row>, snapshot: nat, after: Option<Position>, x: Row)
    ensures x in Select(table, snapshot, after) <==> x in table && Wanted(x, snapshot, after)
  {
    hide Wanted;
    if table != [] {
      SelectedRows(table[1..], snapshot, after, x);
      assert table == [table[0]] + table[1..];
    }
  }

  lemma {:induction false} OrderedRows(rows: seq<Row>, x: Row)
    ensures x in OrderBy(rows) <==> x in rows
  {
    hide Insert;
    if rows != [] {
      OrderedRows(rows[1..], x);
      InsertKeepsRows(rows[0], OrderBy(rows[1..]), x);
      assert rows == [rows[0]] + rows[1..];
    }
  }

  // What a page shows are rows of the table.
  lemma PageRows(table: seq<Row>, snapshot: nat, after: Option<Position>, limit: nat, x: Row)
    requires limit >= 1 && x in Page(table, snapshot, after, limit).0
    ensures x in table && x.id <= snapshot
  {
    hide OrderBy, Select, FindingPosition;
    var all := OrderBy(Select(table, snapshot, after));
    assert x in all;
    OrderedRows(Select(table, snapshot, after), x);
    SelectedRows(table, snapshot, after, x);
  }

  // Row x was there when some page was fetched.
  ghost predicate Shown(tables: nat -> seq<Row>, x: Row) {
    exists i: nat :: x in tables(i)
  }

  lemma {:induction false} WalkRows(
      tables: nat -> seq<Row>, i: nat, snapshot: nat, after: Option<Position>, limit: nat, pages: nat, x: Row)
    requires limit >= 1 && x in Walk(tables, i, snapshot, after, limit, pages).0
    ensures Shown(tables, x) && x.id <= snapshot
    decreases pages
  {
    hide Page;
    var (items, next) := Page(tables(i), snapshot, after, limit);
    if x in items {
      PageRows(tables(i), snapshot, after, limit, x);
    } else {
      WalkRows(tables, i + 1, snapshot, next, limit, pages - 1, x);
    }
  }

  // The rows come in order, each was in the table, and every id of the snapshot
  // comes exactly once.
  ghost predicate InOrder(tables: nat -> seq<Row>, snapshot: nat, rows: seq<Row>) {
    && (forall i, j | 0 <= i < j < |rows| :: Before(rows[i], rows[j]) && rows[i].id != rows[j].id)
    && (forall x <- rows :: Shown(tables, x) && x.id <= snapshot)
    && (forall x <- tables(0) | x.id <= snapshot :: exists k | 0 <= k < |rows| :: rows[k].id == x.id)
  }

  lemma KeysInOrder(rows: seq<Row>)
    requires Ascending(Keys(rows)) && NoRepeats(Keys(rows))
    ensures forall i, j | 0 <= i < j < |rows| :: Before(rows[i], rows[j])
  {
    hide Less, SortKey, Before;
    forall i, j | 0 <= i < j < |rows| ensures Before(rows[i], rows[j]) {
      assert Less(Keys(rows)[i], Keys(rows)[j]);
      OrderExactly(rows[i], rows[j]);
    }
  }

  lemma AscendingOnce(keys: seq<Position>)
    requires Ascending(keys)
    ensures NoRepeats(keys)
  {
    hide Less;
    forall i, j | 0 <= i < j < |keys| ensures keys[i] != keys[j] {
      Order(keys[i], keys[j]);
    }
  }

  lemma KeyIn(rows: seq<Row>, x: Row)
    requires x in rows
    ensures SortKey(x) in Keys(rows)
  {
    hide SortKey;
    var i :| 0 <= i < |rows| && rows[i] == x;
    assert Keys(rows)[i] == SortKey(x);
  }

  lemma KeyFrom(rows: seq<Row>, key: Position)
    requires key in Keys(rows)
    ensures exists k | 0 <= k < |rows| :: SortKey(rows[k]) == key
  {
    hide SortKey;
    var k :| 0 <= k < |Keys(rows)| && Keys(rows)[k] == key;
    assert SortKey(rows[k]) == key;
  }

  // Following the cursors shows the findings in the order they are meant to have.
  lemma WalkInOrder(tables: nat -> seq<Row>, snapshot: nat, limit: nat)
    requires Steady(tables, snapshot) && limit >= 1
    ensures var (rows, finished) := Walk(tables, 0, snapshot, None, limit, |SnapshotKeys(tables(0), snapshot)| + 1);
      finished && InOrder(tables, snapshot, rows)
  {
    hide Walk, Less, Keys, NoRepeats, SortKey, Before, SnapshotKeys, Ascending, Shown;
    WalkIsExact(tables, snapshot, limit);
    var keys := SnapshotKeys(tables(0), snapshot);
    var rows := Walk(tables, 0, snapshot, None, limit, |keys| + 1).0;
    AscendingOnce(keys);
    KeysInOrder(rows);
    IdsDiffer(tables, snapshot, rows);
    forall x <- rows ensures Shown(tables, x) && x.id <= snapshot {
      WalkRows(tables, 0, snapshot, None, limit, |keys| + 1, x);
    }
    forall x <- tables(0) | x.id <= snapshot ensures exists k | 0 <= k < |rows| :: rows[k].id == x.id {
      KeyIn(tables(0), x);
      IdOfKey(x);
      assert SortKey(x) in keys;
      KeyFrom(rows, SortKey(x));
      var k :| 0 <= k < |rows| && SortKey(rows[k]) == SortKey(x);
      IdOfKey(rows[k]);
    }
  }

  lemma IdOfKey(r: Row)
    ensures SortKey(r).id == r.id
  {
  }

  // Keys of one table with the same id are equal.
  lemma KeyOfId(table: seq<Row>, p: Position, q: Position)
    requires Table(table) && p in Keys(table) && q in Keys(table) && p.id == q.id
    ensures p == q
  {
    KeyFrom(table, p);
    KeyFrom(table, q);
    hide SortKey, Keys;
    var i :| 0 <= i < |table| && SortKey(table[i]) == p;
    var j :| 0 <= j < |table| && SortKey(table[j]) == q;
    IdOfKey(table[i]);
    IdOfKey(table[j]);
    assert i < j || j < i || i == j;
  }

  lemma IdsDiffer(tables: nat -> seq<Row>, snapshot: nat, rows: seq<Row>)
    requires Steady(tables, snapshot) && Keys(rows) == SnapshotKeys(tables(0), snapshot) && NoRepeats(Keys(rows))
    requires forall q :: q in SnapshotKeys(tables(0), snapshot) <==> q in Keys(tables(0)) && q.id <= snapshot
    ensures forall i, j | 0 <= i < j < |rows| :: rows[i].id != rows[j].id
  {
    hide SnapshotKeys, SortKey;
    assert Table(tables(0));
    forall i, j | 0 <= i < j < |rows| ensures rows[i].id != rows[j].id {
      var p, q := Keys(rows)[i], Keys(rows)[j];
      assert p in Keys(rows) && q in Keys(rows);
      IdOfKey(rows[i]);
      IdOfKey(rows[j]);
      if rows[i].id == rows[j].id {
        KeyOfId(tables(0), p, q);
      }
    }
  }
}
