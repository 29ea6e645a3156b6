// Paging through the findings of a run by position.
module Paging {
  import opened Text

  // `rest` stands for the columns that are not sorted by.
  datatype Row = Row(
    id: nat, severity: Option<string>, consensus: Option<string>, confidence: Option<real>, file: Option<string>,
    rest: string)

  datatype Position = Position(severity: int, consensus: int, confidence: real, file: string, id: nat)

  // ------------------------------------------------------------------ positions

  function SeverityOrder(severity: Option<string>): int {
    if severity == Some("critical") then 0
    else if severity == Some("high") then 1
    else if severity == Some("medium") then 2
    else 3
  }

  function Coalesce<T>(x: Option<T>, y: T): T {
    if x.Some? then x.value else y
  }

  // The generated columns that the query sorts by.
  function SortKey(r: Row): Position {
    Position(SeverityOrder(r.severity), if r.consensus == Some("consensus") then 0 else 1,
             -Coalesce(r.confidence, -1.0), Coalesce(r.file, ""), r.id)
  }

  // The position that a cursor records.
  function FindingPosition(r: Row): Position {
    var severity :=
      match r.severity
      case None => 3
      case Some(s) => if s == "critical" then 0 else if s == "high" then 1 else if s == "medium" then 2 else 3;
    var consensus := if r.consensus.Some? && r.consensus.value == "consensus" then 0 else 1;
    var confidence := -(if r.confidence.Some? then r.confidence.value else -1.0);
    var file := if r.file.Some? && r.file.value != "" then r.file.value else "";
    Position(severity, consensus, confidence, file, r.id)
  }

  // A cursor continues where the query stopped, whichever columns are null.
  lemma PositionIsSortKey(r: Row)
    ensures FindingPosition(r) == SortKey(r)
  {
    if r.file.Some? && r.file.value == "" {
      assert SortKey(r).file == "";
    }
  }

  // ---------------------------------------------------------------------- order

  predicate TextLess(a: string, b: string) {
    if b == "" then false
    else if a == "" then true
    else a[0] < b[0] || (a[0] == b[0] && TextLess(a[1..], b[1..]))
  }

  predicate Less(p: Position, q: Position) {
    if p.severity != q.severity then p.severity < q.severity
    else if p.consensus != q.consensus then p.consensus < q.consensus
    else if p.confidence != q.confidence then p.confidence < q.confidence
    else if p.file != q.file then TextLess(p.file, q.file)
    else p.id < q.id
  }

  lemma {:induction false} TextOrder(a: string, b: string)
    ensures TextLess(a, b) || TextLess(b, a) || a == b
    ensures !(TextLess(a, b) && TextLess(b, a)) && !TextLess(a, a)
  {
    if a != "" {
      TextOrder(a[1..], if b != "" then b[1..] else "");
      if b != "" {
        assert a == [a[0]] + a[1..] && b == [b[0]] + b[1..];
      }
    }
  }

  lemma {:induction false} TextTransitive(a: string, b: string, c: string)
    requires TextLess(a, b) && TextLess(b, c)
    ensures TextLess(a, c)
  {
    if a != "" && a[0] == b[0] && b[0] == c[0] {
      TextTransitive(a[1..], b[1..], c[1..]);
    }
  }

  lemma Order(p: Position, q: Position)
    ensures Less(p, q) || Less(q, p) || p == q
    ensures !(Less(p, q) && Less(q, p)) && !Less(p, p)
  {
    TextOrder(p.file, q.file);
  }

  lemma Transitive(p: Position, q: Position, r: Position)
    requires Less(p, q) && Less(q, r)
    ensures Less(p, r)
  {
    hide TextLess;
    TextOrder(p.file, q.file);
    TextOrder(q.file, r.file);
    if TextLess(p.file, q.file) && TextLess(q.file, r.file) {
      TextTransitive(p.file, q.file, r.file);
      TextOrder(p.file, r.file);
    }
  }

  // -------------------------------------------------------------------- queries

  function Insert(r: Row, sorted: seq<Row>): (out: seq<Row>)
    ensures |out| == |sorted| + 1
  {
    if sorted == [] then [r]
    else if Less(SortKey(r), SortKey(sorted[0])) then [r] + sorted
    else [sorted[0]] + Insert(r, sorted[1..])
  }

  // The rows in the order of the query.
  function OrderBy(rows: seq<Row>): (out: seq<Row>)
    ensures |out| == |rows|
  {
    if rows == [] then [] else Insert(rows[0], OrderBy(rows[1..]))
  }

  predicate Wanted(r: Row, snapshot: nat, after: Option<Position>) {
    r.id <= snapshot && (after.Some? ==> Less(after.value, SortKey(r)))
  }

  function Select(rows: seq<Row>, snapshot: nat, after: Option<Position>): seq<Row> {
    if rows == [] then []
    else if Wanted(rows[0], snapshot, after) then [rows[0]] + Select(rows[1..], snapshot, after)
    else Select(rows[1..], snapshot, after)
  }

  function Limited(rows: seq<Row>, limit: nat): seq<Row> {
    if |rows| <= limit then rows else rows[..limit]
  }

  function FindingsPage(table: seq<Row>, snapshot: nat, after: Option<Position>, limit: nat): seq<Row> {
    Limited(OrderBy(Select(table, snapshot, after)), limit)
  }

  // One answer of the endpoint: one row more than asked for tells whether there
  // is a next page.
  function Page(table: seq<Row>, snapshot: nat, after: Option<Position>, limit: nat): (seq<Row>, Option<Position>)
    requires limit >= 1
  {
    var rows := FindingsPage(table, snapshot, after, limit + 1);
    var items := Limited(rows, limit);
    (items, if |rows| > limit then Some(FindingPosition(items[|items| - 1])) else None)
  }

  // Following the cursors. The table may change from page to page.
  function Walk(tables: nat -> seq<Row>, i: nat, snapshot: nat, after: Option<Position>, limit: nat, pages: nat)
    : (seq<Row>, bool)
    requires limit >= 1
    decreases pages
  {
    if pages == 0 then ([], false)
    else
      var (items, next) := Page(tables(i), snapshot, after, limit);
      if next.None? then (items, true)
      else
        var (more, finished) := Walk(tables, i + 1, snapshot, next, limit, pages - 1);
        (items + more, finished)
  }

  // ------------------------------------------------------------------- sorted keys

  function Keys(rows: seq<Row>): (keys: seq<Position>)
    ensures |keys| == |rows|
  {
    seq(|rows|, i requires 0 <= i < |rows| => SortKey(rows[i]))
  }

  function InsertKey(p: Position, sorted: seq<Position>): (out: seq<Position>)
    ensures |out| == |sorted| + 1
  {
    if sorted == [] then [p]
    else if Less(p, sorted[0]) then [p] + sorted
    else [sorted[0]] + InsertKey(p, sorted[1..])
  }

  function SortKeys(keys: seq<Position>): (out: seq<Position>)
    ensures |out| == |keys|
  {
    if keys == [] then [] else InsertKey(keys[0], SortKeys(keys[1..]))
  }

  predicate Ascending(keys: seq<Position>) {
    forall i, j | 0 <= i < j < |keys| :: Less(keys[i], keys[j])
  }

  lemma KeysOfConcat(a: seq<Row>, b: seq<Row>)
    ensures Keys(a + b) == Keys(a) + Keys(b)
  {
  }

  lemma KeysTail(rows: seq<Row>)
    requires rows != []
    ensures Keys(rows)[0] == SortKey(rows[0]) && Keys(rows)[1..] == Keys(rows[1..])
  {
  }

  lemma {:induction false} KeysOfInsert(r: Row, sorted: seq<Row>)
    ensures Keys(Insert(r, sorted)) == InsertKey(SortKey(r), Keys(sorted))
  {
    hide Less, SortKey;
    if sorted == [] {
    } else {
      KeysTail(sorted);
      KeysOfInsert(r, sorted[1..]);
      KeysOfConcat([r], sorted);
      KeysOfConcat([sorted[0]], Insert(r, sorted[1..]));
    }
  }

  lemma {:induction false} KeysOfOrderBy(rows: seq<Row>)
    ensures Keys(OrderBy(rows)) == SortKeys(Keys(rows))
  {
    hide Less, SortKey, Insert, InsertKey;
    if rows != [] {
      KeysTail(rows);
      KeysOfOrderBy(rows[1..]);
      KeysOfInsert(rows[0], OrderBy(rows[1..]));
    }
  }

  function AfterKeys(keys: seq<Position>, snapshot: nat, after: Option<Position>): seq<Position> {
    if keys == [] then []
    else if keys[0].id <= snapshot && (after.Some? ==> Less(after.value, keys[0]))
    then [keys[0]] + AfterKeys(keys[1..], snapshot, after)
    else AfterKeys(keys[1..], snapshot, after)
  }

  lemma {:induction false} KeysOfSelect(rows: seq<Row>, snapshot: nat, after: Option<Position>)
    ensures Keys(Select(rows, snapshot, after)) == AfterKeys(Keys(rows), snapshot, after)
  {
    hide Less;
    if rows != [] {
      KeysTail(rows);
      assert SortKey(rows[0]).id == rows[0].id;
      KeysOfSelect(rows[1..], snapshot, after);
      KeysOfConcat([rows[0]], Select(rows[1..], snapshot, after));
    }
  }

  lemma {:induction false} InsertedAre(p: Position, sorted: seq<Position>)
    requires Ascending(sorted) && p !in sorted
    ensures Ascending(InsertKey(p, sorted))
    ensures forall q :: q in InsertKey(p, sorted) <==> q == p || q in sorted
  {
    hide Less;
    if sorted != [] {
      var rest := sorted[1..];
      assert sorted == [sorted[0]] + rest;
      Order(p, sorted[0]);
      if Less(p, sorted[0]) {
        forall j | 0 <= j < |sorted| ensures Less(p, sorted[j]) {
          if j > 0 {
            Transitive(p, sorted[0], sorted[j]);
          }
        }
      } else {
        assert Ascending(rest);
        InsertedAre(p, rest);
        var more := InsertKey(p, rest);
        forall q | q in more ensures Less(sorted[0], q) {
          if q in rest {
            var j :| 0 <= j < |rest| && rest[j] == q;
            assert sorted[j + 1] == q;
          }
        }
      }
    }
  }

  lemma {:induction false} SortedAre(keys: seq<Position>)
    requires NoRepeats(keys)
    ensures Ascending(SortKeys(keys))
    ensures forall q :: q in SortKeys(keys) <==> q in keys
  {
    hide Less, NoRepeats, Ascending, InsertKey;
    if keys == [] {
      assert Ascending([]) by { NothingAscends(); }
    } else {
      TailOnce(keys);
      SortedAre(keys[1..]);
      InsertedAre(keys[0], SortKeys(keys[1..]));
    }
  }

  lemma NothingAscends()
    ensures Ascending([])
  {
  }

  // Sorted lists with the same members are equal.
  lemma {:induction false} AscendingIsUnique(a: seq<Position>, b: seq<Position>)
    requires Ascending(a) && Ascending(b) && forall q :: q in a <==> q in b
    ensures a == b
  {
    hide Less;
    if a == [] {
      if b != [] {
        HeadIsIn(b);
        assert false;
      }
    } else {
      assert a[0] in b;
      var j :| 0 <= j < |b| && b[j] == a[0];
      assert b[0] in a;
      var i :| 0 <= i < |a| && a[i] == b[0];
      Order(a[0], b[0]);
      assert a[0] == b[0];
      TailOf(a);
      TailOf(b);
      AscendingIsUnique(a[1..], b[1..]);
      assert a == [a[0]] + a[1..] && b == [b[0]] + b[1..];
    }
  }

  lemma HeadIsIn(b: seq<Position>)
    requires b != []
    ensures b[0] in b
  {
  }

  lemma TailOf(a: seq<Position>)
    requires Ascending(a) && a != []
    ensures Ascending(a[1..]) && forall q :: q in a[1..] <==> q in a && q != a[0]
  {
    hide Less;
    assert a == [a[0]] + a[1..];
    forall q | q in a[1..] ensures q != a[0] {
      var j :| 0 <= j < |a[1..]| && a[1..][j] == q;
      assert Less(a[0], a[j + 1]);
      Order(a[0], a[0]);
    }
  }

  lemma {:induction false} SelectedAre(keys: seq<Position>, snapshot: nat, after: Option<Position>)
    ensures forall q :: q in AfterKeys(keys, snapshot, after) <==>
      q in keys && q.id <= snapshot && (after.Some? ==> Less(after.value, q))
    ensures NoRepeats(keys) ==> NoRepeats(AfterKeys(keys, snapshot, after))
  {
    hide Less;
    if keys != [] {
      SelectedAre(keys[1..], snapshot, after);
      assert keys == [keys[0]] + keys[1..];
    }
  }

  // ------------------------------------------------------------------- the walk

  predicate Table(rows: seq<Row>) {
    forall i, j | 0 <= i < j < |rows| :: rows[i].id != rows[j].id
  }

  lemma TableKeys(rows: seq<Row>)
    requires Table(rows)
    ensures NoRepeats(Keys(rows))
  {
  }

  // The keys of the snapshot in order.
  function SnapshotKeys(table: seq<Row>, snapshot: nat): seq<Position> {
    SortKeys(AfterKeys(Keys(table), snapshot, None))
  }

  // The keys after position k of the snapshot are the rest of the snapshot.
  lemma RestOfSnapshot(table: seq<Row>, snapshot: nat, n: nat)
    requires Table(table) && n <= |SnapshotKeys(table, snapshot)|
    ensures var keys := SnapshotKeys(table, snapshot);
      SortKeys(AfterKeys(Keys(table), snapshot, if n == 0 then None else Some(keys[n - 1]))) == keys[n..]
  {
    hide Less, AfterKeys, SortKeys, Keys, NoRepeats;
    var all, keys := Keys(table), SnapshotKeys(table, snapshot);
    TableKeys(table);
    SelectedAre(all, snapshot, None);
    SortedAre(AfterKeys(all, snapshot, None));
    if n > 0 {
      var after := Some(keys[n - 1]);
      SelectedAre(all, snapshot, after);
      SortedAre(AfterKeys(all, snapshot, after));
      assert Ascending(keys[n..]);
      forall q ensures q in keys[n..] <==> q in SortKeys(AfterKeys(all, snapshot, after)) {
        LaterIs(keys, n, q);
      }
      AscendingIsUnique(SortKeys(AfterKeys(all, snapshot, after)), keys[n..]);
    }
  }

  lemma LaterIs(keys: seq<Position>, n: nat, q: Position)
    requires Ascending(keys) && 0 < n <= |keys|
    ensures q in keys[n..] <==> q in keys && Less(keys[n - 1], q)
  {
    hide Less;
    if q in keys[n..] {
      var j :| 0 <= j < |keys[n..]| && keys[n..][j] == q;
      assert keys[n + j] == q;
    }
    assert forall j | 0 <= j < n - 1 :: Less(keys[j], keys[n - 1]);
    if q in keys && Less(keys[n - 1], q) {
      var j :| 0 <= j < |keys| && keys[j] == q;
      Order(keys[n - 1], q);
      assert keys[n..][j - n] == q;
    }
  }

  // What one page returns, by keys.
  lemma PageKeys(table: seq<Row>, snapshot: nat, limit: nat, n: nat)
    requires Table(table) && limit >= 1 && n <= |SnapshotKeys(table, snapshot)|
    ensures var keys := SnapshotKeys(table, snapshot);
      var after := if n == 0 then None else Some(keys[n - 1]);
      var (items, next) := Page(table, snapshot, after, limit);
      if |keys| - n > limit then Keys(items) == keys[n..n + limit] && next == Some(keys[n + limit - 1])
      else Keys(items) == keys[n..] && next == None
  {
    hide Less, AfterKeys, SortKeys, Select, OrderBy, SortKey, FindingPosition;
    var keys := SnapshotKeys(table, snapshot);
    var after := if n == 0 then None else Some(keys[n - 1]);
    var rows := OrderBy(Select(table, snapshot, after));
    RestOfSnapshot(table, snapshot, n);
    KeysOfSelect(table, snapshot, after);
    KeysOfOrderBy(Select(table, snapshot, after));
    assert Keys(rows) == keys[n..];
    if |rows| > limit {
      var items := rows[..limit];
      assert Keys(items) == Keys(rows)[..limit];
      assert Limited(Limited(rows, limit + 1), limit) == items;
      PositionIsSortKey(items[limit - 1]);
      assert FindingPosition(items[limit - 1]) == Keys(items)[limit - 1];
    }
  }

  // Between the pages the sort keys within the snapshot stay as they are.
  ghost predicate Steady(tables: nat -> seq<Row>, snapshot: nat) {
    forall i: nat :: Table(tables(i)) && SnapshotKeys(tables(i), snapshot) == SnapshotKeys(tables(0), snapshot)
  }

  lemma {:induction false} WalkFrom(tables: nat -> seq<Row>, i: nat, snapshot: nat, limit: nat, n: nat, pages: nat)
    requires Steady(tables, snapshot) && limit >= 1 && n <= |SnapshotKeys(tables(0), snapshot)|
    requires pages * limit >= |SnapshotKeys(tables(0), snapshot)| - n && pages >= 1
    ensures var keys := SnapshotKeys(tables(0), snapshot);
      var (rows, finished) := Walk(tables, i, snapshot, if n == 0 then None else Some(keys[n - 1]), limit, pages);
      finished && Keys(rows) == keys[n..]
    decreases pages
  {
    hide SnapshotKeys, Page, Keys;
    var keys := SnapshotKeys(tables(0), snapshot);
    assert Table(tables(i)) && SnapshotKeys(tables(i), snapshot) == keys;
    PageKeys(tables(i), snapshot, limit, n);
    if |keys| - n > limit {
      assert pages >= 2;
      assert (pages - 1) * limit == pages * limit - limit;
      WalkFrom(tables, i + 1, snapshot, limit, n + limit, pages - 1);
      var after := if n == 0 then None else Some(keys[n - 1]);
      var items := Page(tables(i), snapshot, after, limit).0;
      var more := Walk(tables, i + 1, snapshot, Some(keys[n + limit - 1]), limit, pages - 1).0;
      KeysOfConcat(items, more);
      assert keys[n..] == keys[n..n + limit] + keys[n + limit..];
    }
  }

  // Following the cursors until there is none yields every finding of the
  // snapshot exactly once, in order, and takes a bounded number of pages, whatever
  // is inserted beyond the snapshot in the meantime.
  lemma WalkIsExact(tables: nat -> seq<Row>, snapshot: nat, limit: nat)
    requires Steady(tables, snapshot) && limit >= 1
    ensures var keys := SnapshotKeys(tables(0), snapshot);
      var (rows, finished) := Walk(tables, 0, snapshot, None, limit, |keys| + 1);
      finished && Keys(rows) == keys && Ascending(keys)
    ensures forall q :: q in SnapshotKeys(tables(0), snapshot) <==> q in Keys(tables(0)) && q.id <= snapshot
  {
    hide Walk, Less, Keys, NoRepeats;
    var keys := SnapshotKeys(tables(0), snapshot);
    assert (|keys| + 1) * limit >= |keys| by { AtLeast(|keys| + 1, limit); }
    WalkFrom(tables, 0, snapshot, limit, 0, |keys| + 1);
    assert Table(tables(0));
    TableKeys(tables(0));
    SelectedAre(Keys(tables(0)), snapshot, None);
    SortedAre(AfterKeys(Keys(tables(0)), snapshot, None));
    assert keys[0..] == keys;
  }

  lemma AtLeast(a: nat, b: nat)
    requires b >= 1
    ensures a * b >= a
  {
  }

  // The table later on: its rows with other columns edited, and rows beyond the
  // snapshot inserted.
  predicate Moves(table: seq<Row>, after: seq<Row>, snapshot: nat) {
    && |table| <= |after|
    && (forall i | 0 <= i < |table| :: SortKey(after[i]) == SortKey(table[i]))
    && (forall i | |table| <= i < |after| :: after[i].id > snapshot)
  }

  // Editing columns that are not sorted by and inserting rows is steady.
  lemma MovesAreSteady(table: seq<Row>, after: seq<Row>, snapshot: nat)
    requires Moves(table, after, snapshot)
    ensures SnapshotKeys(after, snapshot) == SnapshotKeys(table, snapshot)
  {
    hide SortKeys, SortKey;
    var edited, later := after[..|table|], after[|table|..];
    assert Keys(edited) == Keys(table);
    assert after == edited + later;
    InsertsAreSteady(edited, later, snapshot);
  }

  // Inserting rows beyond the snapshot is steady.
  lemma InsertsAreSteady(table: seq<Row>, later: seq<Row>, snapshot: nat)
    requires forall i | 0 <= i < |later| :: later[i].id > snapshot
    ensures SnapshotKeys(table + later, snapshot) == SnapshotKeys(table, snapshot)
  {
    hide SortKeys;
    KeysOfConcat(table, later);
    NoneSelected(Keys(table), Keys(later), snapshot);
  }

  lemma {:induction false} NoneSelected(keys: seq<Position>, later: seq<Position>, snapshot: nat)
    requires forall i | 0 <= i < |later| :: later[i].id > snapshot
    ensures AfterKeys(keys + later, snapshot, None) == AfterKeys(keys, snapshot, None)
    decreases |keys| + |later|
  {
    if keys == [] {
      ConcatNone(later);
      if later != [] {
        NoneSelected([], later[1..], snapshot);
        ConcatNone(later[1..]);
      }
    } else {
      ConcatTail(keys, later);
      NoneSelected(keys[1..], later, snapshot);
    }
  }
}
