// The catalog read back from a printed schema.
module DdlCatalog {
  import opened Text
  import opened Ddl
  import opened DdlParts
  import opened DdlRoundTrip

  // --------------------------------------------------------------------- lines

  lemma LineAlone(line: string)
    requires IsLine(line)
    ensures Lines(line) == [line]
  {
    ConsWellCut(line, []);
    ConcatNone([line]);
    CutOfJoin([line]);
    ConcatNone(line);
  }

  lemma LineBefore(line: string, rest: string)
    requires IsLine(line) && EndsLine(line)
    ensures Lines(line + rest) == [line] + Lines(rest)
  {
    LineAlone(line);
    LinesConcat(line, rest);
  }

  function BodyLines(rows: seq<Column>): (lines: seq<string>)
    requires forall i | 0 <= i < |rows| :: Valid(rows[i])
    ensures |lines| == |rows|
  {
    if rows == [] then []
    else [ColumnSql(rows[0]) + (if |rows| == 1 then "\n" else ",\n")] + BodyLines(rows[1..])
  }

  lemma DoesNotEnd(line: string)
    requires '-' !in line && LStrip(line) != "" && LStrip(line)[0] != ')'
    requires RStrip(line) != "" && RStrip(line)[|RStrip(line)| - 1] != ';'
    ensures !Terminates(line)
  {
    hide BeforeComment, LStrip, RStrip;
    NoComment(line);
  }

  lemma WithoutNewline(text: string)
    requires text != "" && !IsSpace(text[|text| - 1])
    ensures RStrip(text + "\n") == text
  {
    var line := text + "\n";
    assert line[..|line| - 1] == text;
  }

  // A printed column takes one line, which does not look like the end of a
  // definition.
  lemma ColumnLine(row: Column, end: string)
    requires Valid(row) && (end == "\n" || end == ",\n")
    ensures IsLine(ColumnSql(row) + end) && EndsLine(ColumnSql(row) + end) && !Terminates(ColumnSql(row) + end)
  {
    hide ColumnSql, RStrip, LStrip, SpaceRun, Terminates, IsIdentifier, IsLine, EndsLine, Nullable;
    var inner := ColumnShape(row);
    var n, t, x := row.name.value, " " + row.dataType.value, if inner.Some? then "(" + inner.value + ")" else "";
    var tail := "[" + n + "]" + t + (x + Nullable(row));
    NamedText(n, t, x + Nullable(row));
    ColumnChars(row, inner, x, tail);
    NullableEnds("  [" + n + "]" + t, x, row);
    OneEnd("  " + tail, end);
    Assoc("  ", tail, end);
    SpaceRunIs("  ", tail + end);
    LastIsNotSemicolon("  " + tail, end);
    DoesNotEnd("  " + tail + end);
  }

  lemma NamedText(n: string, t: string, end: string)
    ensures "  [" + n + "]" + t + end == "  " + ("[" + n + "]" + t + end)
  {
  }

  lemma NullableEnds(a: string, x: string, row: Column)
    ensures var text := a + (x + Nullable(row)); text != "" && text[|text| - 1] == 'L'
  {
  }

  lemma OneEnd(text: string, end: string)
    requires '\n' !in text && '-' !in text && (end == "\n" || end == ",\n")
    ensures IsLine(text + end) && EndsLine(text + end) && '-' !in text + end
  {
    assert (text + end)[..|text + end| - 1] == text + end[..|end| - 1];
  }

  lemma ColumnChars(row: Column, inner: Option<string>, x: string, tail: string)
    requires Valid(row) && x == if inner.Some? then "(" + inner.value + ")" else ""
    requires inner.Some? ==> AllInner(inner.value)
    requires tail == "[" + row.name.value + "]" + (" " + row.dataType.value) + (x + Nullable(row))
    ensures '\n' !in "  " + tail && '-' !in "  " + tail
  {
    hide IsIdentifier, IsTypeName;
    IdentifierChars(row.name.value, '\n');
    IdentifierChars(row.name.value, '-');
    TypeChars(row.dataType.value);
    assert '\n' !in x && '-' !in x;
    assert '\n' !in Nullable(row) && '-' !in Nullable(row);
  }

  lemma TypeChars(t: string)
    requires IsTypeName(t)
    ensures '\n' !in t && '-' !in t
  {
  }

  lemma LastIsNotSemicolon(text: string, end: string)
    requires end == "\n" || end == ",\n"
    requires text != "" && text[|text| - 1] == 'L'
    ensures var t := RStrip(text + end); t != "" && t[|t| - 1] != ';'
  {
    var line := text + end;
    if end == "\n" {
      assert line[..|line| - 1] == text;
    } else {
      assert line[..|line| - 1] == text + ",";
    }
  }

  lemma {:induction false} LinesOfBody(rows: seq<Column>)
    requires forall i | 0 <= i < |rows| :: Valid(rows[i])
    requires rows != []
    ensures Lines(Body(rows)) == BodyLines(rows) && EndsLine(Body(rows))
    ensures forall i | 0 <= i < |rows| :: !Terminates(BodyLines(rows)[i])
    ensures Join(BodyLines(rows)) == Body(rows)
  {
    hide ColumnSql, Valid, Terminates, Body, IsLine, EndsLine, Lines;
    BodyStep(rows);
    if |rows| == 1 {
      var line := ColumnSql(rows[0]) + "\n";
      ColumnLine(rows[0], "\n");
      LineAlone(line);
      assert BodyLines(rows) == [line] by { assert BodyLines(rows[1..]) == []; }
      ConcatNone(line);
    } else {
      var line, rest := ColumnSql(rows[0]) + ",\n", Body(rows[1..]);
      ColumnLine(rows[0], ",\n");
      LinesOfBody(rows[1..]);
      assert Body(rows) == line + rest;
      LineBefore(line, rest);
      EndsTogether(line, rest);
    }
  }

  lemma EndsTogether(a: string, b: string)
    requires EndsLine(b)
    ensures EndsLine(a + b)
  {
  }

  lemma HeaderLineIs(k: TableKey)
    requires IsIdentifier(k.schema) && IsIdentifier(k.table)
    ensures IsLine(HeaderLine(k)) && EndsLine(HeaderLine(k)) && !Terminates(HeaderLine(k))
  {
    hide LStrip, RStrip, SpaceRun, IsIdentifier, Terminates;
    var line := HeaderLine(k);
    IdentifierChars(k.schema, '\n');
    IdentifierChars(k.table, '\n');
    IdentifierChars(k.schema, '-');
    IdentifierChars(k.table, '-');
    var front := "CREATE TABLE [" + k.schema + "].[" + k.table + "] (";
    assert line == front + "\n";
    assert '\n' !in front && '-' !in line;
    assert line[..|line| - 1] == front;
    SpaceRunIs("", line);
    ConcatNone(line);
    WithoutNewline(front);
    DoesNotEnd(line);
  }

  // ------------------------------------------------------------- one definition

  lemma {:induction false} EndIs(lines: seq<string>, n: nat)
    requires n < |lines| && Terminates(lines[n]) && forall i | 0 <= i < n :: !Terminates(lines[i])
    ensures EndOf(lines) == n
  {
    hide Terminates;
    if n > 0 {
      assert forall i | 0 <= i < n - 1 :: lines[1..][i] == lines[i + 1];
      EndIs(lines[1..], n - 1);
    }
  }

  function Definition(k: TableKey, rows: seq<Column>, after: string): string
    requires forall i | 0 <= i < |rows| :: Valid(rows[i])
  {
    HeaderLine(k) + Body(rows) + ")" + after
  }

  lemma LinesOfDefinition(k: TableKey, rows: seq<Column>, after: string, rest: string)
    requires forall i | 0 <= i < |rows| :: Valid(rows[i])
    requires rows != [] && IsIdentifier(k.schema) && IsIdentifier(k.table)
    requires (after == ";" && rest == "") || after == ";\n"
    ensures Lines(Definition(k, rows, after) + rest) == [HeaderLine(k)] + (BodyLines(rows) + ([")" + after] + Lines(rest)))
  {
    hide Body, HeaderLine, IsIdentifier, Valid, Lines, IsLine, BodyLines;
    HeaderLineIs(k);
    LinesOfBody(rows);
    var end := ")" + after;
    assert IsLine(end) by { EndIsLine(after); }
    assert Definition(k, rows, after) + rest == HeaderLine(k) + (Body(rows) + (end + rest));
    LineBefore(HeaderLine(k), Body(rows) + (end + rest));
    LinesConcat(Body(rows), end + rest);
    if rest == "" {
      ConcatNone(end);
      LineAlone(end);
      assert Lines(rest) == [] by { NoLines(); }
      ConcatNone([end]);
    } else {
      LineBefore(end, rest);
    }
  }

  lemma NoLines()
    ensures Lines("") == []
  {
  }

  lemma EndIsLine(after: string)
    requires after == ";" || after == ";\n"
    ensures IsLine(")" + after) && (after == ";\n" ==> EndsLine(")" + after)) && Terminates(")" + after)
  {
    hide BeforeComment, RStrip, SpaceRun;
    SpaceRunIs("", ")" + after);
    ConcatNone(")" + after);
  }

  lemma JoinOfDefinition(k: TableKey, rows: seq<Column>, after: string)
    requires forall i | 0 <= i < |rows| :: Valid(rows[i])
    requires rows != []
    ensures Join([HeaderLine(k)] + (BodyLines(rows) + [")" + after])) == Definition(k, rows, after)
  {
    hide Body, HeaderLine, Valid, BodyLines;
    var end := ")" + after;
    LinesOfBody(rows);
    JoinConcat([HeaderLine(k)], BodyLines(rows) + [end]);
    JoinConcat(BodyLines(rows), [end]);
    JoinOne(HeaderLine(k));
    JoinOne(end);
    FourParts(HeaderLine(k), Body(rows), ")", after);
  }

  lemma FourParts(a: string, b: string, c: string, d: string)
    ensures a + (b + (c + d)) == a + b + c + d
  {
  }

  lemma JoinOne(line: string)
    ensures Join([line]) == line
  {
    ConcatNone(line);
  }

  // A definition is read as one table, and reading goes on behind it.
  lemma ParsesDefinition(k: TableKey, rows: seq<Column>, after: string, rest: string)
    requires forall i | 0 <= i < |rows| :: Valid(rows[i])
    requires rows != [] && IsIdentifier(k.schema) && IsIdentifier(k.table)
    requires (after == ";" && rest == "") || after == ";\n"
    ensures ParseTables(Lines(Definition(k, rows, after) + rest)) ==
      [Parsed(NameIn(k), Definition(k, rows, after))] + ParseTables(Lines(rest))
  {
    hide Body, HeaderLine, IsIdentifier, Valid, Lines, BodyLines, Header, Terminates, Unquoted, AfterDot, Join, EndOf;
    hide QualifiedIn, NameIn, ParseTables, Definition;
    LinesOfDefinition(k, rows, after, rest);
    var end := ")" + after;
    var own := [HeaderLine(k)] + (BodyLines(rows) + [end]);
    var lines := [HeaderLine(k)] + (BodyLines(rows) + ([end] + Lines(rest)));
    assert lines == own + Lines(rest);
    var n := 1 + |BodyLines(rows)|;
    HeaderLineIs(k);
    LinesOfBody(rows);
    EndIsLine(after);
    assert lines[n] == end && lines[..n + 1] == own && lines[n + 1..] == Lines(rest);
    forall i | 0 <= i < n ensures !Terminates(lines[i]) {
      if i > 0 {
        assert lines[i] == BodyLines(rows)[i - 1];
      }
    }
    EndIs(lines, n);
    HeaderIs(k, "");
    ConcatNone(HeaderLine(k));
    NameIs(k);
    NameNonempty(k);
    JoinOfDefinition(k, rows, after);
    ParseStep(lines);
  }

  lemma NameNonempty(k: TableKey)
    requires IsIdentifier(k.schema) && IsIdentifier(k.table)
    ensures NameIn(k) != ""
  {
    NameIs(k);
  }

  lemma SkipsBlank(rest: string)
    ensures ParseTables(Lines("\n" + rest)) == ParseTables(Lines(rest))
  {
    hide Lines;
    LineBefore("\n", rest);
    var lines := ["\n"] + Lines(rest);
    assert Header("\n") == None by { NoHeader(); }
    assert lines[1..] == Lines(rest);
    SkipStep(lines);
  }

  lemma NoHeader()
    ensures Header("\n") == None
  {
    SpaceRunIs("\n", "");
    ConcatNone("\n");
  }

  // ------------------------------------------------------------------ the schema

  function Printed(rows: seq<Column>, keys: seq<TableKey>): string
    requires forall i | 0 <= i < |rows| :: Valid(rows[i])
  {
    Separated(TableTexts(rows, keys), "\n\n")
  }

  lemma PrintedStep(rows: seq<Column>, keys: seq<TableKey>)
    requires forall i | 0 <= i < |rows| :: Valid(rows[i])
    requires keys != []
    ensures var own := RowsOf(rows, keys[0]);
      Printed(rows, keys) ==
        if |keys| == 1 then Definition(keys[0], own, ";") + ""
        else Definition(keys[0], own, ";\n") + ("\n" + Printed(rows, keys[1..]))
  {
    hide Valid, RowsOf, ColumnTexts, TableSql, Definition, TableTexts;
    var own, table := RowsOf(rows, keys[0]), TableSql(keys[0], RowsOf(rows, keys[0]));
    assert TableTexts(rows, keys)[1..] == TableTexts(rows, keys[1..]) by { TextsTail(rows, keys); }
    assert TableTexts(rows, keys)[0] == table by { FirstText(rows, keys); }
    DefinitionIs(keys[0], own);
    ConcatNone(table);
    if |keys| > 1 {
      BlankLine(table, Printed(rows, keys[1..]));
    }
  }

  lemma FirstText(rows: seq<Column>, keys: seq<TableKey>)
    requires forall i | 0 <= i < |rows| :: Valid(rows[i])
    requires keys != []
    ensures TableTexts(rows, keys)[0] == TableSql(keys[0], RowsOf(rows, keys[0]))
  {
    hide Valid, RowsOf, TableSql;
  }

  lemma DefinitionIs(k: TableKey, own: seq<Column>)
    requires forall i | 0 <= i < |own| :: Valid(own[i])
    ensures TableSql(k, own) == Definition(k, own, ";")
    ensures TableSql(k, own) + "\n" == Definition(k, own, ";\n")
  {
    hide Valid, ColumnTexts;
    var texts := Separated(ColumnTexts(own), ",\n");
    assert HeaderLine(k) + texts + "\n);" == HeaderLine(k) + (texts + "\n") + ")" + ";";
    EndSwap(HeaderLine(k) + Body(own));
  }

  lemma EndSwap(s: string)
    ensures s + ")" + ";\n" == (s + ")" + ";") + "\n"
  {
  }

  lemma BlankLine(table: string, rest: string)
    ensures table + "\n\n" + rest == (table + "\n") + ("\n" + rest)
  {
  }

  lemma TextsTail(rows: seq<Column>, keys: seq<TableKey>)
    requires forall i | 0 <= i < |rows| :: Valid(rows[i])
    requires keys != []
    ensures TableTexts(rows, keys)[1..] == TableTexts(rows, keys[1..])
  {
    hide Valid, RowsOf, TableSql;
    var a, b := TableTexts(rows, keys)[1..], TableTexts(rows, keys[1..]);
    forall i | 0 <= i < |b| ensures a[i] == b[i] {
      assert keys[1..][i] == keys[i + 1];
    }
  }

  // What is read for table i.
  ghost predicate ReadAs(p: Parsed, rows: seq<Column>, k: TableKey)
    requires forall i | 0 <= i < |rows| :: Valid(rows[i])
  {
    CatalogKeys(p.name, p.statement) == KeysIn(k) && StatementColumns(p.statement) == ItemColumns(RowsOf(rows, k))
  }

  predicate KeysOk(rows: seq<Column>, keys: seq<TableKey>)
    requires forall i | 0 <= i < |rows| :: Valid(rows[i])
  {
    forall i | 0 <= i < |keys| ::
      IsIdentifier(keys[i].schema) && IsIdentifier(keys[i].table) && RowsOf(rows, keys[i]) != []
  }

  lemma DefinitionReadAs(rows: seq<Column>, k: TableKey, after: string)
    requires forall i | 0 <= i < |rows| :: Valid(rows[i])
    requires IsIdentifier(k.schema) && IsIdentifier(k.table) && RowsOf(rows, k) != []
    requires after == ";" || after == ";\n"
    ensures ReadAs(Parsed(NameIn(k), Definition(k, RowsOf(rows, k), after)), rows, k)
  {
    hide CatalogKeys, StatementColumns, Body, HeaderLine, RowsOf, IsIdentifier, KeysIn, NameIn, Valid, Header, QualifiedIn;
    var own := RowsOf(rows, k);
    var statement := Definition(k, own, after);
    assert statement == HeaderLine(k) + (Body(own) + ")" + after);
    HeaderIs(k, Body(own) + ")" + after);
    KeysAre(k, statement);
    StatementIs(k, own, after);
  }

  lemma {:induction false} SchemaReadAs(rows: seq<Column>, keys: seq<TableKey>)
    requires forall i | 0 <= i < |rows| :: Valid(rows[i])
    requires KeysOk(rows, keys)
    ensures var tables := ParseTables(Lines(Printed(rows, keys)));
      |tables| == |keys| && forall i | 0 <= i < |keys| :: ReadAs(tables[i], rows, keys[i])
  {
    hide Valid, RowsOf, ReadAs, Lines, ParseTables, Definition, IsIdentifier, Printed, NameIn;
    if keys == [] {
      assert ParseTables(Lines(Printed(rows, keys))) == [] by { NothingPrinted(rows); }
    } else {
      var k, own := keys[0], RowsOf(rows, keys[0]);
      PrintedStep(rows, keys);
      if |keys| == 1 {
        ParsesDefinition(k, own, ";", "");
        DefinitionReadAs(rows, k, ";");
        assert ParseTables(Lines("")) == [] by { NothingParsed(); }
      } else {
        var rest := Printed(rows, keys[1..]);
        ParsesDefinition(k, own, ";\n", "\n" + rest);
        SkipsBlank(rest);
        DefinitionReadAs(rows, k, ";\n");
        SchemaReadAs(rows, keys[1..]);
        var tables := ParseTables(Lines(Printed(rows, keys)));
        assert tables[1..] == ParseTables(Lines(rest));
        forall i | 0 <= i < |keys| ensures ReadAs(tables[i], rows, keys[i]) {
          if i > 0 {
            assert tables[i] == tables[1..][i - 1] && keys[i] == keys[1..][i - 1];
          }
        }
      }
    }
  }

  lemma NothingParsed()
    ensures ParseTables(Lines("")) == []
  {
  }

  lemma NothingPrinted(rows: seq<Column>)
    requires forall i | 0 <= i < |rows| :: Valid(rows[i])
    ensures ParseTables(Lines(Printed(rows, []))) == []
  {
    hide Valid;
    assert TableTexts(rows, []) == [];
    NothingParsed();
  }

  // ----------------------------------------------------------------- the catalog

  predicate TableHas(p: Parsed, key: string) {
    key in CatalogKeys(p.name, p.statement)
  }

  lemma {:induction false} CatalogMeans(tables: seq<Parsed>, key: string)
    ensures key in CatalogOf(tables) <==> exists i | 0 <= i < |tables| :: TableHas(tables[i], key)
    ensures forall c :: c in ColumnsAt(CatalogOf(tables), key) <==>
      exists i | 0 <= i < |tables| :: TableHas(tables[i], key) && c in StatementColumns(tables[i].statement)
  {
    hide CatalogKeys, StatementColumns;
    if tables != [] {
      var n := |tables| - 1;
      var init, last := tables[..n], tables[n];
      CatalogMeans(init, key);
      assert forall i | 0 <= i < n :: init[i] == tables[i];
      LastTable(CatalogOf(init), last, key);
      forall c ensures c in ColumnsAt(CatalogOf(tables), key) <==>
        exists i | 0 <= i < |tables| :: TableHas(tables[i], key) && c in StatementColumns(tables[i].statement)
      {
        if i :| 0 <= i < |tables| && TableHas(tables[i], key) && c in StatementColumns(tables[i].statement) {
          assert i < n ==> init[i] == tables[i];
        }
      }
    }
  }

  lemma LastTable(catalog: Catalog, last: Parsed, key: string)
    ensures var keys, columns := CatalogKeys(last.name, last.statement), StatementColumns(last.statement);
      var more := WithTable(catalog, keys, columns);
      && (key in more <==> key in catalog || TableHas(last, key))
      && ColumnsAt(more, key) == ColumnsAt(catalog, key) + if TableHas(last, key) then columns else {}
  {
    hide CatalogKeys, StatementColumns;
  }

  lemma {:induction false} RowsOfAre(rows: seq<Column>, k: TableKey)
    requires forall i | 0 <= i < |rows| :: Valid(rows[i])
    ensures forall r :: r in RowsOf(rows, k) <==> r in rows && Valid(r) && KeyOf(r) == k
  {
    hide Valid, KeyOf;
    if rows != [] {
      var n := |rows| - 1;
      RowsOfAre(rows[..n], k);
      assert rows == rows[..n] + [rows[n]];
    }
  }

  lemma {:induction false} TableKeysAre(rows: seq<Column>)
    requires forall i | 0 <= i < |rows| :: Valid(rows[i])
    ensures forall k :: k in TableKeys(rows) <==> exists i | 0 <= i < |rows| :: KeyOf(rows[i]) == k
  {
    hide Valid, KeyOf;
    if rows != [] {
      var n := |rows| - 1;
      TableKeysAre(rows[..n]);
      assert forall i | 0 <= i < n :: rows[..n][i] == rows[i];
    }
  }

  lemma {:induction false} ValidRowsAre(rows: seq<Column>)
    ensures forall r :: r in ValidRows(rows) <==> r in rows && Valid(r)
  {
    hide Valid;
    if rows != [] {
      var n := |rows| - 1;
      ValidRowsAre(rows[..n]);
      assert rows == rows[..n] + [rows[n]];
    }
  }

  lemma ColumnsOfRows(rows: seq<Column>, c: string)
    requires forall i | 0 <= i < |rows| :: Valid(rows[i])
    ensures c in ItemColumns(rows) <==> exists r <- rows :: ReadsColumn(r, c)
  {
    hide Valid, ColumnName;
    if c in ItemColumns(rows) {
      var i :| 0 <= i < |rows| && ColumnName(rows[i]) !in CONSTRAINTS && ColumnName(rows[i]) == c;
      assert ReadsColumn(rows[i], c) && rows[i] in rows;
    }
    if r :| r in rows && ReadsColumn(r, c) {
      var i :| 0 <= i < |rows| && rows[i] == r;
      assert ColumnName(rows[i]) == c;
    }
  }

  // A printed row is read back as column c.
  predicate ReadsColumn(r: Column, c: string) {
    Valid(r) && ColumnName(r) == c && c !in CONSTRAINTS
  }

  // A printed row is read back under a catalog key.
  predicate ReadsKey(r: Column, key: string) {
    Valid(r) && key in KeysIn(KeyOf(r))
  }

  lemma AllKeysOk(rows: seq<Column>)
    requires forall i | 0 <= i < |rows| :: Valid(rows[i])
    ensures KeysOk(rows, TableKeys(rows))
  {
    hide IsIdentifier, RowsOf, TableKeys;
    TableKeysAre(rows);
    var keys := TableKeys(rows);
    forall j | 0 <= j < |keys|
      ensures IsIdentifier(keys[j].schema) && IsIdentifier(keys[j].table) && RowsOf(rows, keys[j]) != []
    {
      assert keys[j] in keys;
      var i :| 0 <= i < |rows| && KeyOf(rows[i]) == keys[j];
      RowsOfAre(rows, keys[j]);
      assert rows[i] in RowsOf(rows, keys[j]);
    }
  }

  lemma TableOfRow(rows: seq<Column>, r: Column) returns (i: nat)
    requires (forall j | 0 <= j < |rows| :: Valid(rows[j])) && r in rows
    ensures Valid(r) && i < |TableKeys(rows)| && TableKeys(rows)[i] == KeyOf(r)
  {
    hide Valid, KeyOf, TableKeys;
    TableKeysAre(rows);
    var j :| 0 <= j < |rows| && rows[j] == r;
    assert KeyOf(rows[j]) in TableKeys(rows);
    i :| 0 <= i < |TableKeys(rows)| && TableKeys(rows)[i] == KeyOf(r);
  }

  lemma RowOfTable(rows: seq<Column>, i: nat) returns (r: Column)
    requires (forall j | 0 <= j < |rows| :: Valid(rows[j])) && i < |TableKeys(rows)|
    ensures r in rows && Valid(r) && KeyOf(r) == TableKeys(rows)[i]
  {
    hide Valid, KeyOf, TableKeys;
    TableKeysAre(rows);
    var k := TableKeys(rows)[i];
    assert k in TableKeys(rows);
    var j :| 0 <= j < |rows| && KeyOf(rows[j]) == k;
    r := rows[j];
  }

  lemma KeyReadsBack(valid: seq<Column>, tables: seq<Parsed>, key: string)
    requires forall i | 0 <= i < |valid| :: Valid(valid[i])
    requires |tables| == |TableKeys(valid)|
    requires forall i | 0 <= i < |tables| :: ReadAs(tables[i], valid, TableKeys(valid)[i])
    ensures (exists i | 0 <= i < |tables| :: TableHas(tables[i], key)) <==> exists r <- valid :: ReadsKey(r, key)
  {
    hide Valid, KeyOf, TableKeys, CatalogKeys, StatementColumns, KeysIn;
    if i: nat :| i < |tables| && TableHas(tables[i], key) {
      var r := RowOfTable(valid, i);
      assert ReadAs(tables[i], valid, TableKeys(valid)[i]);
      assert ReadsKey(r, key);
    }
    if r :| r in valid && ReadsKey(r, key) {
      var i := TableOfRow(valid, r);
      assert ReadAs(tables[i], valid, TableKeys(valid)[i]);
      assert TableHas(tables[i], key);
    }
  }

  lemma ColumnReadsBack(valid: seq<Column>, tables: seq<Parsed>, key: string, c: string)
    requires forall i | 0 <= i < |valid| :: Valid(valid[i])
    requires |tables| == |TableKeys(valid)|
    requires forall i | 0 <= i < |tables| :: ReadAs(tables[i], valid, TableKeys(valid)[i])
    ensures (exists i | 0 <= i < |tables| :: TableHas(tables[i], key) && c in StatementColumns(tables[i].statement))
      <==> exists r <- valid :: ReadsKey(r, key) && ReadsColumn(r, c)
  {
    hide Valid, KeyOf, TableKeys, CatalogKeys, StatementColumns, KeysIn, ReadsColumn, RowsOf, ItemColumns;
    if i: nat :| i < |tables| && TableHas(tables[i], key) && c in StatementColumns(tables[i].statement) {
      var k := TableKeys(valid)[i];
      assert ReadAs(tables[i], valid, k);
      ColumnsOfRows(RowsOf(valid, k), c);
      RowsOfAre(valid, k);
      var r :| r in RowsOf(valid, k) && ReadsColumn(r, c);
      assert r in valid && ReadsKey(r, key);
    }
    if r :| r in valid && ReadsKey(r, key) && ReadsColumn(r, c) {
      var i := TableOfRow(valid, r);
      var k := TableKeys(valid)[i];
      assert ReadAs(tables[i], valid, k);
      RowsOfAre(valid, k);
      ColumnsOfRows(RowsOf(valid, k), c);
      assert TableHas(tables[i], key);
    }
  }

  // What reading a printed schema gives, for all rows: a key and a column are
  // there exactly when some printed row is read under them.
  lemma SchemaReadsBack(rows: seq<Column>, key: string, c: string)
    ensures var catalog := BuildCatalog(RenderSchema(rows));
      && (key in catalog <==> exists r <- rows :: ReadsKey(r, key))
      && (c in ColumnsAt(catalog, key) <==> exists r <- rows :: ReadsKey(r, key) && ReadsColumn(r, c))
  {
    hide ValidRows, TableKeys, Lines, ParseTables, ReadAs, TableHas, CatalogOf, StatementColumns, ReadsColumn, KeysIn;
    hide KeysOk, TableTexts, Separated;
    var valid := ValidRows(rows);
    var keys := TableKeys(valid);
    AllKeysOk(valid);
    SchemaReadAs(valid, keys);
    assert RenderSchema(rows) == Printed(valid, keys);
    var tables := ParseTables(Lines(Printed(valid, keys)));
    CatalogMeans(tables, key);
    KeyReadsBack(valid, tables, key);
    ColumnReadsBack(valid, tables, key, c);
    ValidRowsAre(rows);
    assert forall r :: ReadsKey(r, key) ==> Valid(r);
  }

  // The keys that a table is meant to be found under.
  function IntendedKeys(k: TableKey): set<string> {
    {Fold(k.table), Fold(k.schema) + "." + Fold(k.table)}
  }

  // A table is found under the keys it is meant to be found under exactly when
  // neither its name nor its schema's has a '$' in it.
  lemma KeysAreIntended(k: TableKey)
    requires IsIdentifier(k.schema) && IsIdentifier(k.table)
    ensures KeysIn(k) == IntendedKeys(k) <==> '$' !in k.schema && '$' !in k.table
  {
    hide Cut, Fold;
    CutIs(k.schema);
    CutIs(k.table);
    var dotted := Fold(k.schema) + "." + Fold(k.table);
    assert dotted[|k.schema|] == '.';
    FoldHasNoDot(Cut(k.schema));
    FoldHasNoDot(Cut(k.table));
    assert dotted in IntendedKeys(k);
  }

  lemma FoldHasNoDot(s: string)
    requires AllWord(s)
    ensures '.' !in Fold(s)
  {
    forall i | 0 <= i < |s| ensures Fold(s)[i] != '.' {
      assert IsWord(s[i]);
    }
  }

  predicate Plainly(r: Column) {
    Valid(r) ==>
      '$' !in r.schema.value && '$' !in r.table.value && ColumnName(r) !in CONSTRAINTS
  }

  // Without '$' in names of schemas and tables and without columns named like
  // constraints, the catalog has exactly the printed columns of each table, under
  // its qualified name, and the union over schemas under its bare name.
  lemma PlainSchemaReadsBack(rows: seq<Column>, key: string, c: string)
    requires forall r <- rows :: Plainly(r)
    ensures c in ColumnsAt(BuildCatalog(RenderSchema(rows)), key) <==>
      exists r <- rows :: Valid(r) && key in IntendedKeys(KeyOf(r)) && c == ColumnName(r)
  {
    hide BuildCatalog, RenderSchema, KeysIn, IntendedKeys, ColumnName, IsIdentifier, IsTypeName;
    SchemaReadsBack(rows, key, c);
    forall r <- rows | Valid(r) ensures KeysIn(KeyOf(r)) == IntendedKeys(KeyOf(r)) {
      assert Plainly(r);
      KeysAreIntended(KeyOf(r));
    }
    forall r <- rows ensures Valid(r) ==> ColumnName(r) !in CONSTRAINTS {
      assert Plainly(r);
    }
  }

  lemma FoldDollar(s: string)
    ensures '$' in Fold(s) <==> '$' in s
  {
    forall i | 0 <= i < |s| ensures Fold(s)[i] == '$' <==> s[i] == '$' {
    }
    if '$' in s {
      var i :| 0 <= i < |s| && s[i] == '$';
      assert Fold(s)[i] == '$';
    }
  }

  function DottedKey(k: TableKey): string {
    Fold(k.schema) + "." + Fold(k.table)
  }

  // Only names without '$' give a qualified key.
  lemma QualifiedKeyIsPlain(k: TableKey, key: string)
    requires IsIdentifier(k.schema) && IsIdentifier(k.table) && key in KeysIn(k) && '.' in key
    ensures '$' !in key
  {
    hide Fold, Cut;
    CutIs(k.schema);
    CutIs(k.table);
    FoldHasNoDot(Cut(k.schema));
    FoldHasNoDot(Cut(k.table));
    FoldDollar(k.schema);
    FoldDollar(k.table);
    if '$' !in k.schema && '$' !in k.table {
      FoldHasNoDot(k.table) by { CutWhole(k.table); }
      assert key == DottedKey(k);
    }
  }

  // The catalog that the printed rows stand for.
  predicate Intended(rows: seq<Column>, key: string, c: string) {
    exists r <- rows :: Valid(r) && key in IntendedKeys(KeyOf(r)) && c == ColumnName(r)
  }

  predicate ReadsAsIntended(rows: seq<Column>, key: string, c: string) {
    c in ColumnsAt(BuildCatalog(RenderSchema(rows)), key) <==> Intended(rows, key, c)
  }

  lemma PlainIsNeeded(rows: seq<Column>, r: Column)
    requires r in rows && Valid(r)
    requires ReadsAsIntended(rows, DottedKey(KeyOf(r)), ColumnName(r))
    ensures Plainly(r)
  {
    hide BuildCatalog, RenderSchema, KeysIn, ColumnName, IsIdentifier, IsTypeName, Fold;
    var k, c := KeyOf(r), ColumnName(r);
    var key := DottedKey(k);
    SchemaReadsBack(rows, key, c);
    assert Intended(rows, key, c);
    var r' :| r' in rows && ReadsKey(r', key) && ReadsColumn(r', c);
    assert key[|Fold(k.schema)|] == '.';
    QualifiedKeyIsPlain(KeyOf(r'), key);
    FoldDollar(k.schema);
    FoldDollar(k.table);
  }

  // A printed schema is read back as it was meant exactly when no printed name of
  // a schema or table has a '$' and no printed column is named like a constraint.
  lemma ReadsBackExactlyPlain(rows: seq<Column>)
    ensures (forall key, c :: ReadsAsIntended(rows, key, c)) <==> forall r <- rows :: Plainly(r)
  {
    hide BuildCatalog, RenderSchema, KeysIn, IntendedKeys, ColumnName, Valid, Plainly, DottedKey;
    if forall r <- rows :: Plainly(r) {
      forall key, c ensures ReadsAsIntended(rows, key, c) {
        PlainSchemaReadsBack(rows, key, c);
      }
    }
    if forall key, c :: ReadsAsIntended(rows, key, c) {
      forall r <- rows ensures Plainly(r) {
        if Valid(r) {
          assert ReadsAsIntended(rows, DottedKey(KeyOf(r)), ColumnName(r));
          PlainIsNeeded(rows, r);
        } else {
          InvalidIsPlain(r);
        }
      }
    }
  }

  lemma InvalidIsPlain(r: Column)
    requires !Valid(r)
    ensures Plainly(r)
  {
  }

  // The table dbo.a$b is not found under its name, but as "a".
  lemma DollarIsCut()
    ensures var row := Column(Some("dbo"), Some("a$b"), Some("id"), Some("int"), false, None, None, None);
      var catalog := BuildCatalog(RenderSchema([row]));
      "dbo.a$b" !in catalog && "a$b" !in catalog && "a" in catalog && "id" in catalog["a"]
  {
    hide BuildCatalog, RenderSchema;
    var row := Column(Some("dbo"), Some("a$b"), Some("id"), Some("int"), false, None, None, None);
    assert Cut("a$b") == "a" by { CutFirst("a$b", 1); }
    assert '$' !in "dbo" && "a$b"[1] == '$';
    assert Fold("a") == ['a'];
    assert KeysIn(KeyOf(row)) == {"a"};
    SchemaReadsBack([row], "dbo.a$b", "id");
    SchemaReadsBack([row], "a$b", "id");
    SchemaReadsBack([row], "a", "id");
    assert row in [row] && ReadsKey(row, "a") && ReadsColumn(row, "id");
  }

  lemma CutFirst(s: string, n: nat)
    requires n < |s| && s[n] == '$' && '$' !in s[..n]
    ensures Cut(s) == s[..n]
  {
  }
}
