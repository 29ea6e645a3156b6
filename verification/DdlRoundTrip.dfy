// Reading a printed schema back gives the columns that were printed.
module DdlRoundTrip {
  import opened Text
  import opened Ddl
  import opened DdlParts

  // ------------------------------------------------------------------- columns

  // Characters that mean nothing to the splitter.
  predicate AllPlain(s: string) {
    forall i | 0 <= i < |s| :: s[i] !in {'-', '/', '\'', '"', '`', '[', '(', ')', ','}
  }

  // What may stand between the parentheses of a type.
  predicate AllInner(s: string) {
    forall i | 0 <= i < |s| :: IsWord(s[i]) || s[i] == ','
  }

  lemma {:induction false} SplitPlain(a: string, rest: string, depth: nat, item: string)
    requires AllPlain(a)
    ensures Split(a + rest, Plain, depth, item) == Split(rest, Plain, depth, item + a)
  {
    if a == "" {
      ConcatNone(rest);
      ConcatNone(item);
    } else {
      ConcatTail(a, rest);
      SplitPlain(a[1..], rest, depth, item + [a[0]]);
      assert item + [a[0]] + a[1..] == item + a;
    }
  }

  lemma {:induction false} SplitInner(a: string, rest: string, item: string)
    requires AllInner(a)
    ensures Split(a + rest, Plain, 1, item) == Split(rest, Plain, 1, item + a)
  {
    if a == "" {
      ConcatNone(rest);
      ConcatNone(item);
    } else {
      ConcatTail(a, rest);
      SplitInner(a[1..], rest, item + [a[0]]);
      assert item + [a[0]] + a[1..] == item + a;
    }
  }

  lemma {:induction false} SplitQuoted(a: string, rest: string, depth: nat, item: string)
    requires ']' !in a
    ensures Split(a + "]" + rest, Quoted(']'), depth, item) == Split(rest, Plain, depth, item + a + "]")
  {
    if a == "" {
      assert a + "]" + rest == "]" + rest;
      assert item + a + "]" == item + "]";
    } else {
      var s := a + "]" + rest;
      assert s[1..] == a[1..] + "]" + rest && s[0] == a[0];
      SplitQuoted(a[1..], rest, depth, item + [a[0]]);
      assert item + [a[0]] + a[1..] + "]" == item + a + "]";
    }
  }

  lemma SplitBracketed(a: string, rest: string, depth: nat, item: string)
    requires ']' !in a
    ensures Split("[" + a + "]" + rest, Plain, depth, item) == Split(rest, Plain, depth, item + "[" + a + "]")
  {
    var s := "[" + a + "]" + rest;
    assert s[0] == '[' && s[1..] == a + "]" + rest;
    SplitQuoted(a, rest, depth, item + "[");
  }

  lemma SplitParens(a: string, rest: string, item: string)
    requires AllInner(a)
    ensures Split("(" + a + ")" + rest, Plain, 0, item) == Split(rest, Plain, 0, item + "(" + a + ")")
  {
    var s := "(" + a + ")" + rest;
    assert s[0] == '(' && s[1..] == a + (")" + rest);
    SplitInner(a, ")" + rest, item + "(");
    assert (")" + rest)[1..] == rest && (")" + rest)[0] == ')';
    assert item + "(" + a + [')'] == item + "(" + a + ")";
  }

  lemma DigitsAreInner(n: nat)
    ensures AllInner(Dec(n))
  {
    DecParses(n);
    assert forall i | 0 <= i < |Dec(n)| :: IsDigit(Dec(n)[i]);
  }

  // What stands in parentheses behind the name of a type.
  function TypeInner(row: Column): Option<string>
    requires Valid(row)
  {
    var name := row.dataType.value;
    if Fold(name) in {"char", "nchar", "varchar", "nvarchar", "binary", "varbinary"} then
      var length := Within(row.length, -1, 1000000);
      if length == Some(-1) then Some("MAX") else if length.Some? && length.value > 0 then Some(Dec(length.value)) else None
    else if Fold(name) in {"decimal", "numeric"} then
      var p, s := Within(row.precision, 1, 38), Within(row.scale, 0, 38);
      if p.Some? && s.Some? && s.value <= p.value then Some(Dec(p.value) + "," + Dec(s.value)) else None
    else None
  }

  function Parenthesized(inner: Option<string>): string {
    if inner.Some? then "(" + inner.value + ")" else ""
  }

  lemma TypeSqlIs(row: Column)
    requires Valid(row)
    ensures TypeSql(row) == row.dataType.value + Parenthesized(TypeInner(row))
  {
    hide Fold, Dec, IsTypeName, IsIdentifier, Parenthesized;
    var name := row.dataType.value;
    NoParentheses(name);
    if Fold(name) in {"char", "nchar", "varchar", "nvarchar", "binary", "varbinary"} {
      var length := Within(row.length, -1, 1000000);
      if length == Some(-1) {
        InParentheses(name, "MAX");
      } else if length.Some? && length.value > 0 {
        InParentheses(name, Dec(length.value));
      }
    } else {
      var p, s := Within(row.precision, 1, 38), Within(row.scale, 0, 38);
      if TypeInner(row).Some? {
        InTwo(name, Dec(p.value), Dec(s.value));
      }
    }
  }

  lemma NoParentheses(name: string)
    ensures name + Parenthesized(None) == name
  {
  }

  lemma InParentheses(name: string, inner: string)
    ensures name + "(" + inner + ")" == name + Parenthesized(Some(inner))
    ensures inner == "MAX" ==> name + "(MAX)" == name + Parenthesized(Some(inner))
  {
  }

  lemma InTwo(name: string, a: string, b: string)
    ensures name + "(" + a + "," + b + ")" == name + Parenthesized(Some(a + "," + b))
  {
  }

  lemma InnerIs(row: Column)
    requires Valid(row)
    ensures TypeInner(row).Some? ==> AllInner(TypeInner(row).value)
  {
    hide Fold, Dec, IsTypeName, IsIdentifier;
    forall n: nat ensures AllInner(Dec(n)) {
      DigitsAreInner(n);
    }
  }

  // A type is a name, perhaps with something in parentheses.
  lemma TypeShape(row: Column) returns (inner: Option<string>)
    requires Valid(row)
    ensures TypeSql(row) == row.dataType.value + if inner.Some? then "(" + inner.value + ")" else ""
    ensures inner.Some? ==> AllInner(inner.value)
  {
    hide TypeSql, TypeInner, AllInner, IsTypeName, IsIdentifier;
    inner := TypeInner(row);
    TypeSqlIs(row);
    InnerIs(row);
  }

  function Nullable(row: Column): string {
    if row.nullable then " NULL" else " NOT NULL"
  }

  lemma ColumnShape(row: Column) returns (inner: Option<string>)
    requires Valid(row)
    ensures inner.Some? ==> AllInner(inner.value)
    ensures ColumnSql(row) ==
      "  [" + row.name.value + "]" + (" " + row.dataType.value) +
      ((if inner.Some? then "(" + inner.value + ")" else "") + Nullable(row))
  {
    hide TypeSql;
    inner := TypeShape(row);
    var n, t, x := row.name.value, row.dataType.value, if inner.Some? then "(" + inner.value + ")" else "";
    assert "  [" + n + "] " + (t + x) + Nullable(row) == "  [" + n + "]" + (" " + t) + (x + Nullable(row));
  }

  lemma Regroup(a: string, b: string, c: string, d: string, e: string)
    ensures a + b + (c + d) + e == a + (b + (c + d + e))
  {
    Assoc(a, b, c + d);
    Assoc(a, b + (c + d), e);
    Assoc(b, c + d, e);
  }

  lemma RegroupItem(item: string, a: string, b: string, c: string, d: string)
    ensures item + a + b + c + d == item + (a + b + (c + d))
  {
    Assoc(item, a, b);
    Assoc(item, a + b, c);
    Assoc(item, a + b + c, d);
    Assoc(a + b, c, d);
  }

  lemma Indented(n: string, rest: string, item: string)
    ensures "  [" + n + "]" + rest == "  " + ("[" + n + "]" + rest)
    ensures item + "  " + "[" + n + "]" == item + ("  [" + n + "]")
  {
  }

  // Splitting passes over a printed column as a whole.
  lemma SplitColumn(row: Column, rest: string, item: string)
    requires Valid(row)
    ensures Split(ColumnSql(row) + rest, Plain, 0, item) == Split(rest, Plain, 0, item + ColumnSql(row))
  {
    hide ColumnSql, Split, Nullable, AllPlain, IsIdentifier, IsTypeName;
    var inner := ColumnShape(row);
    var n, t, x := row.name.value, " " + row.dataType.value, if inner.Some? then "(" + inner.value + ")" else "";
    IdentifierChars(n, ']');
    TypeIsPlain(row);
    Regroup("  [" + n + "]", t, x, Nullable(row), rest);
    RegroupItem(item, "  [" + n + "]", t, x, Nullable(row));
    SplitName(n, t + (x + Nullable(row) + rest), item);
    SplitPlain(t, x + Nullable(row) + rest, 0, item + ("  [" + n + "]"));
    NullableIs(row);
    SplitTail(x, inner, Nullable(row), rest, item + ("  [" + n + "]") + t);
  }

  lemma NullableIs(row: Column)
    ensures Nullable(row) == " NULL" || Nullable(row) == " NOT NULL"
  {
  }

  lemma SplitName(n: string, rest: string, item: string)
    requires ']' !in n
    ensures Split("  [" + n + "]" + rest, Plain, 0, item) == Split(rest, Plain, 0, item + ("  [" + n + "]"))
  {
    hide Split;
    Indented(n, rest, item);
    SplitPlain("  ", "[" + n + "]" + rest, 0, item);
    SplitBracketed(n, rest, 0, item + "  ");
  }

  lemma TypeIsPlain(row: Column)
    requires Valid(row)
    ensures AllPlain(" " + row.dataType.value)
  {
  }

  lemma SplitTail(x: string, inner: Option<string>, end: string, rest: string, item: string)
    requires x == if inner.Some? then "(" + inner.value + ")" else ""
    requires inner.Some? ==> AllInner(inner.value)
    requires end == " NULL" || end == " NOT NULL"
    ensures Split(x + end + rest, Plain, 0, item) == Split(rest, Plain, 0, item + x + end)
  {
    hide Split;
    assert x + end + rest == x + (end + rest);
    if inner.Some? {
      SplitParens(inner.value, end + rest, item);
      assert item + "(" + inner.value + ")" == item + x;
    } else {
      ConcatNone(end + rest);
      ConcatNone(item);
    }
    SplitPlain(end, rest, 0, item + x);
  }

  // ------------------------------------------------------------------- one item

  function ColumnName(row: Column): string
    requires Valid(row)
  {
    Fold(row.name.value)
  }

  lemma ItemShape(before: string, n: string, a: string, b: string, after: string)
    ensures before + ("  [" + n + "]" + a + b) + after == before + "  " + ("[" + n + "]" + (a + b + after))
  {
    Assoc("  [" + n + "]", a, b);
    Assoc(before, "  [" + n + "]" + (a + b), after);
    Assoc("  [" + n + "]", a + b, after);
    Indented(n, a + b + after, "");
    Assoc(before, "  ", "[" + n + "]" + (a + b + after));
  }

  lemma AfterBlank(blank: string, value: string)
    requires AllSpace(blank) && value != "" && value[0] == '['
    ensures AfterComments(blank + value) == value
  {
    hide SpaceRun, LStrip;
    SpaceRunIs(blank, value);
  }

  lemma ItemIs(row: Column, before: string, after: string)
    requires Valid(row) && AllSpace(before)
    ensures ItemColumn(before + ColumnSql(row) + after) ==
      if ColumnName(row) in CONSTRAINTS then None else Some(ColumnName(row))
  {
    hide ColumnSql, AfterComments, Identifier, NormalizeIdentifier, Fold, Nullable, IsIdentifier, IsTypeName;
    var inner := ColumnShape(row);
    var n, t := row.name.value, " " + row.dataType.value;
    var b := (if inner.Some? then "(" + inner.value + ")" else "") + Nullable(row);
    ItemShape(before, n, t, b, after);
    AfterBlank(before + "  ", "[" + n + "]" + (t + b + after));
    IdentifierIs(n, t + b + after);
    NormalizeBracketed(n);
  }

  lemma IdentifierIs(n: string, tail: string)
    requires IsIdentifier(n)
    ensures Identifier("[" + n + "]" + tail) == Some("[" + n + "]")
  {
    hide Until;
    var value := "[" + n + "]" + tail;
    IdentifierChars(n, ']');
    UntilIs(n, ']', tail);
    assert value[1..] == n + [']'] + tail;
    assert value[..|n| + 2] == "[" + n + "]";
  }

  // ------------------------------------------------------------------ the items

  function Body(rows: seq<Column>): string
    requires forall i | 0 <= i < |rows| :: Valid(rows[i])
  {
    Separated(ColumnTexts(rows), ",\n") + "\n"
  }

  lemma BodyStep(rows: seq<Column>)
    requires forall i | 0 <= i < |rows| :: Valid(rows[i])
    requires |rows| >= 1
    ensures Body(rows) == if |rows| == 1 then ColumnSql(rows[0]) + "\n" else ColumnSql(rows[0]) + (",\n" + Body(rows[1..]))
  {
    hide ColumnSql, Valid;
    assert ColumnTexts(rows)[1..] == ColumnTexts(rows[1..]);
    if |rows| > 1 {
      var a, b := ColumnSql(rows[0]), Separated(ColumnTexts(rows[1..]), ",\n");
      assert a + ",\n" + b + "\n" == a + (",\n" + (b + "\n"));
    }
  }

  function ItemColumns(rows: seq<Column>): set<string>
    requires forall i | 0 <= i < |rows| :: Valid(rows[i])
  {
    set i | 0 <= i < |rows| && ColumnName(rows[i]) !in CONSTRAINTS :: ColumnName(rows[i])
  }

  lemma ItemsStep(item: string, items: seq<string>)
    ensures ColumnsIn([item] + items) ==
      (if ItemColumn(item).Some? then {ItemColumn(item).value} else {}) + ColumnsIn(items)
  {
    hide ItemColumn;
    var all := [item] + items;
    forall c ensures c in ColumnsIn(all) <==>
      c in (if ItemColumn(item).Some? then {ItemColumn(item).value} else {}) + ColumnsIn(items)
    {
      if c in ColumnsIn(all) {
        var i :| 0 <= i < |all| && ItemColumn(all[i]) == Some(c);
        if i > 0 {
          assert items[i - 1] == all[i];
        }
      }
      if c in ColumnsIn(items) {
        var i :| 0 <= i < |items| && ItemColumn(items[i]) == Some(c);
        assert all[i + 1] == items[i];
      }
      if ItemColumn(item) == Some(c) {
        assert all[0] == item;
      }
    }
  }

  lemma ItemColumnsStep(rows: seq<Column>)
    requires forall i | 0 <= i < |rows| :: Valid(rows[i])
    requires rows != []
    ensures var c := ColumnName(rows[0]);
      ItemColumns(rows) == (if c in CONSTRAINTS then {} else {c}) + ItemColumns(rows[1..])
  {
    hide Valid, ColumnName;
    var rest := rows[1..];
    assert rows == [rows[0]] + rest;
    forall c ensures c in ItemColumns(rows) <==>
      c in (if ColumnName(rows[0]) in CONSTRAINTS then {} else {ColumnName(rows[0])}) + ItemColumns(rest)
    {
      if c in ItemColumns(rows) {
        var i :| 0 <= i < |rows| && ColumnName(rows[i]) !in CONSTRAINTS && ColumnName(rows[i]) == c;
        if i > 0 {
          assert rest[i - 1] == rows[i];
        }
      }
      if c in ItemColumns(rest) {
        var i :| 0 <= i < |rest| && ColumnName(rest[i]) !in CONSTRAINTS && ColumnName(rest[i]) == c;
        assert rows[i + 1] == rest[i];
      }
    }
  }

  lemma {:induction false} BodyColumns(rows: seq<Column>)
    requires forall i | 0 <= i < |rows| :: Valid(rows[i])
    requires rows != []
    ensures ColumnsIn(Split("\n" + Body(rows), Plain, 0, "")) == ItemColumns(rows)
  {
    hide ColumnSql, Valid, Split, ItemColumn, ColumnsIn, ItemColumns, ColumnName, Body;
    BodyStep(rows);
    ItemColumnsStep(rows);
    SplitPlain("\n", Body(rows), 0, "");
    var c, text := ColumnName(rows[0]), ColumnSql(rows[0]);
    if |rows| == 1 {
      SplitColumn(rows[0], "\n", "" + "\n");
      LastItem("" + "\n" + text);
      var item := "" + "\n" + text + "\n";
      assert item == "\n" + text + "\n";
      ItemIs(rows[0], "\n", "\n");
      ItemsStep(item, []);
      ConcatNone([item]);
      assert ColumnsIn([]) == {} by { NoItems(); }
      assert ItemColumns(rows[1..]) == {} by { NoRows(); }
    } else {
      var rest := ",\n" + Body(rows[1..]);
      SplitColumn(rows[0], rest, "" + "\n");
      CommaEnds("" + "\n" + text, "\n" + Body(rows[1..]));
      assert rest == "," + ("\n" + Body(rows[1..]));
      BodyColumns(rows[1..]);
      var item := "\n" + text + "";
      assert item == "" + "\n" + text;
      ItemIs(rows[0], "\n", "");
      ItemsStep(item, Split("\n" + Body(rows[1..]), Plain, 0, ""));
    }
  }

  lemma LastItem(item: string)
    ensures Split("\n", Plain, 0, item) == [item + "\n"]
  {
    SplitPlain("\n", "", 0, item);
    ConcatNone("\n");
  }

  lemma SplitComma(s: string, item: string)
    requires s != "" && s[0] == ','
    ensures Split(s, Plain, 0, item) == [item] + Split(s[1..], Plain, 0, "")
  {
  }

  lemma CommaEnds(item: string, rest: string)
    ensures Split("," + rest, Plain, 0, item) == [item] + Split(rest, Plain, 0, "")
  {
    hide Split;
    SplitComma("," + rest, item);
    assert ("," + rest)[1..] == rest;
  }

  lemma NoItems()
    ensures ColumnsIn([]) == {}
  {
  }

  lemma NoRows()
    ensures ItemColumns([]) == {}
  {
  }

  // -------------------------------------------------------------- one statement

  lemma StatementIs(k: TableKey, rows: seq<Column>, after: string)
    requires forall i | 0 <= i < |rows| :: Valid(rows[i])
    requires rows != [] && IsIdentifier(k.schema) && IsIdentifier(k.table)
    requires after == ";" || after == ";\n"
    ensures StatementColumns(HeaderLine(k) + Body(rows) + ")" + after) == ItemColumns(rows)
  {
    hide Body, Split, ColumnsIn, ItemColumns, Until, LastPlace, Valid, IsIdentifier;
    var front := "CREATE TABLE [" + k.schema + "].[" + k.table + "] ";
    var body := "\n" + Body(rows);
    var statement := HeaderLine(k) + Body(rows) + ")" + after;
    IdentifierChars(k.schema, '(');
    IdentifierChars(k.table, '(');
    assert '(' !in front;
    assert statement == front + ['('] + (body + ")" + after);
    UntilIs(front, '(', body + ")" + after);
    assert statement == (front + "(" + body) + [')'] + after;
    assert ')' !in after;
    LastPlaceIs(front + "(" + body, ')', after);
    assert statement[|front| + 1..|front| + 1 + |body|] == body;
    BodyColumns(rows);
  }
}
