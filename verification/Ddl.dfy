// Table definitions: printing them from catalog rows, and reading a catalog back
// from text. Lines end with '\n'; letters, digits and white space are ASCII.
module Ddl {
  import opened Text

  // ----------------------------------------------------------------- characters

  predicate IsLetter(c: char) {
    'a' <= c <= 'z' || 'A' <= c <= 'Z'
  }

  predicate IsWord(c: char) {
    IsLetter(c) || IsDigit(c) || c == '_'
  }

  predicate IsSpace(c: char) {
    c in {' ', '\t', '\n', '\r'}
  }

  function LowerChar(c: char): char {
    if 'A' <= c <= 'Z' then (c as int + 32) as char else c
  }

  function Fold(s: string): (t: string)
    ensures |t| == |s|
  {
    seq(|s|, i requires 0 <= i < |s| => LowerChar(s[i]))
  }

  function SpaceRun(s: string): (n: nat)
    ensures n <= |s|
  {
    if s == "" || !IsSpace(s[0]) then 0 else 1 + SpaceRun(s[1..])
  }

  function LStrip(s: string): string {
    s[SpaceRun(s)..]
  }

  function RStrip(s: string): string {
    if s == "" || !IsSpace(s[|s| - 1]) then s else RStrip(s[..|s| - 1])
  }

  function Strip(s: string): string {
    RStrip(LStrip(s))
  }

  predicate StartsWith(s: string, prefix: string) {
    |prefix| <= |s| && s[..|prefix|] == prefix
  }

  // ------------------------------------------------------------------- printing

  datatype Column = Column(
    schema: Option<string>, table: Option<string>, name: Option<string>, dataType: Option<string>, nullable: bool,
    length: Option<int>, precision: Option<int>, scale: Option<int>)

  predicate IsIdentifier(s: string) {
    && 1 <= |s| <= 128 && (IsLetter(s[0]) || s[0] == '_')
    && forall i | 0 <= i < |s| :: IsWord(s[i]) || s[i] == '$'
  }

  predicate IsTypeName(s: string) {
    1 <= |s| <= 64 && IsLetter(s[0]) && forall i | 0 <= i < |s| :: IsWord(s[i])
  }

  // Rows that are printed; the others are skipped.
  predicate Valid(row: Column) {
    && row.schema.Some? && IsIdentifier(row.schema.value)
    && row.table.Some? && IsIdentifier(row.table.value)
    && row.name.Some? && IsIdentifier(row.name.value)
    && row.dataType.Some? && IsTypeName(row.dataType.value)
  }

  function Within(x: Option<int>, low: int, high: int): Option<int> {
    if x.Some? && low <= x.value <= high then x else None
  }

  function TypeSql(row: Column): string
    requires Valid(row)
  {
    var name := row.dataType.value;
    if Fold(name) in {"char", "nchar", "varchar", "nvarchar", "binary", "varbinary"} then
      var length := Within(row.length, -1, 1000000);
      if length == Some(-1) then name + "(MAX)"
      else if length.Some? && length.value > 0 then name + "(" + Dec(length.value) + ")"
      else name
    else if Fold(name) in {"decimal", "numeric"} then
      var p, s := Within(row.precision, 1, 38), Within(row.scale, 0, 38);
      if p.Some? && s.Some? && s.value <= p.value then name + "(" + Dec(p.value) + "," + Dec(s.value) + ")" else name
    else name
  }

  function ColumnSql(row: Column): string
    requires Valid(row)
  {
    "  [" + row.name.value + "] " + TypeSql(row) + (if row.nullable then " NULL" else " NOT NULL")
  }

  datatype TableKey = TableKey(schema: string, table: string)

  function KeyOf(row: Column): TableKey
    requires Valid(row)
  {
    TableKey(row.schema.value, row.table.value)
  }

  function ValidRows(rows: seq<Column>): (valid: seq<Column>)
    ensures forall i | 0 <= i < |valid| :: Valid(valid[i])
  {
    if rows == [] then []
    else
      var before, row := ValidRows(rows[..|rows| - 1]), rows[|rows| - 1];
      if Valid(row) then before + [row] else before
  }

  // Tables in the order of their first column.
  function TableKeys(rows: seq<Column>): seq<TableKey>
    requires forall i | 0 <= i < |rows| :: Valid(rows[i])
  {
    if rows == [] then []
    else
      var before, k := TableKeys(rows[..|rows| - 1]), KeyOf(rows[|rows| - 1]);
      if k in before then before else before + [k]
  }

  function RowsOf(rows: seq<Column>, k: TableKey): (own: seq<Column>)
    requires forall i | 0 <= i < |rows| :: Valid(rows[i])
    ensures forall i | 0 <= i < |own| :: Valid(own[i]) && KeyOf(own[i]) == k
  {
    if rows == [] then []
    else
      var before, row := RowsOf(rows[..|rows| - 1], k), rows[|rows| - 1];
      if KeyOf(row) == k then before + [row] else before
  }

  function Separated(parts: seq<string>, separator: string): string {
    if parts == [] then ""
    else if |parts| == 1 then parts[0]
    else parts[0] + separator + Separated(parts[1..], separator)
  }

  function ColumnTexts(rows: seq<Column>): (texts: seq<string>)
    requires forall i | 0 <= i < |rows| :: Valid(rows[i])
    ensures |texts| == |rows|
  {
    seq(|rows|, i requires 0 <= i < |rows| => ColumnSql(rows[i]))
  }

  function TableSql(k: TableKey, rows: seq<Column>): string
    requires forall i | 0 <= i < |rows| :: Valid(rows[i])
  {
    "CREATE TABLE [" + k.schema + "].[" + k.table + "] (\n" + Separated(ColumnTexts(rows), ",\n") + "\n);"
  }

  function TableTexts(rows: seq<Column>, keys: seq<TableKey>): (texts: seq<string>)
    requires forall i | 0 <= i < |rows| :: Valid(rows[i])
    ensures |texts| == |keys|
  {
    seq(|keys|, i requires 0 <= i < |keys| => TableSql(keys[i], RowsOf(rows, keys[i])))
  }

  function RenderSchema(rows: seq<Column>): string {
    var valid := ValidRows(rows);
    Separated(TableTexts(valid, TableKeys(valid)), "\n\n")
  }

  // The columns collected so far, by table, and the order of the tables.
  ghost predicate Collected(columns: map<TableKey, seq<Column>>, order: seq<TableKey>, valid: seq<Column>)
    requires forall i | 0 <= i < |valid| :: Valid(valid[i])
  {
    && order == TableKeys(valid) && (forall k :: k in columns <==> k in order)
    && (forall k <- columns :: columns[k] == RowsOf(valid, k))
    && (forall k | k !in columns :: RowsOf(valid, k) == [])
  }

  lemma CollectStep(columns: map<TableKey, seq<Column>>, order: seq<TableKey>, valid: seq<Column>, row: Column)
    requires forall i | 0 <= i < |valid| :: Valid(valid[i])
    requires Valid(row) && Collected(columns, order, valid)
    ensures var k := KeyOf(row);
      Collected(columns[k := (if k in columns then columns[k] else []) + [row]],
                if k in columns then order else order + [k], valid + [row])
  {
    hide KeyOf;
    assert (valid + [row])[..|valid|] == valid;
  }

  lemma ValidStep(rows: seq<Column>, i: nat)
    requires i < |rows|
    ensures ValidRows(rows[..i + 1]) ==
      if Valid(rows[i]) then ValidRows(rows[..i]) + [rows[i]] else ValidRows(rows[..i])
  {
    hide Valid;
    assert rows[..i + 1][..i] == rows[..i];
  }

  // The columns of each table, collected in one pass over the rows.
  method CollectTables(rows: seq<Column>) returns (order: seq<TableKey>, columns: map<TableKey, seq<Column>>)
    ensures Collected(columns, order, ValidRows(rows))
  {
    hide Collected, ValidRows, Valid;
    order, columns := [], map[];
    NothingCollected();
    assert rows[..0] == [];
    for i := 0 to |rows|
      invariant Collected(columns, order, ValidRows(rows[..i]))
    {
      ValidStep(rows, i);
      var row := rows[i];
      if Valid(row) {
        CollectStep(columns, order, ValidRows(rows[..i]), row);
        var k := KeyOf(row);
        if k !in columns {
          order := order + [k];
          columns := columns[k := [row]];
        } else {
          columns := columns[k := columns[k] + [row]];
        }
        ConcatNone([row]);
      }
    }
    assert rows[..|rows|] == rows;
  }

  lemma NothingCollected()
    ensures ValidRows([]) == [] && Collected(map[], [], [])
  {
  }

  lemma CollectedMeans(columns: map<TableKey, seq<Column>>, order: seq<TableKey>, valid: seq<Column>)
    requires forall i | 0 <= i < |valid| :: Valid(valid[i])
    requires Collected(columns, order, valid)
    ensures order == TableKeys(valid)
    ensures forall i | 0 <= i < |order| :: order[i] in columns && columns[order[i]] == RowsOf(valid, order[i])
  {
  }

  lemma TextsStep(rows: seq<Column>, keys: seq<TableKey>, i: nat)
    requires i < |keys| && forall j | 0 <= j < |rows| :: Valid(rows[j])
    ensures TableTexts(rows, keys[..i + 1]) == TableTexts(rows, keys[..i]) + [TableSql(keys[i], RowsOf(rows, keys[i]))]
  {
    hide TableSql, RowsOf, Valid, TableTexts;
    var more, fewer := TableTexts(rows, keys[..i + 1]), TableTexts(rows, keys[..i]);
    var last := TableSql(keys[i], RowsOf(rows, keys[i]));
    forall j | 0 <= j <= i ensures more[j] == (fewer + [last])[j] {
      TextAt(rows, keys[..i + 1], j);
      if j < i {
        TextAt(rows, keys[..i], j);
      }
    }
  }

  lemma TextAt(rows: seq<Column>, keys: seq<TableKey>, j: nat)
    requires j < |keys| && forall i | 0 <= i < |rows| :: Valid(rows[i])
    ensures TableTexts(rows, keys)[j] == TableSql(keys[j], RowsOf(rows, keys[j]))
  {
    hide TableSql, RowsOf, Valid;
  }

  method PrintSchema(rows: seq<Column>) returns (text: string)
    ensures text == RenderSchema(rows)
  {
    hide Collected, ValidRows, Valid, TableTexts, RowsOf, TableKeys, TableSql;
    var order, columns := CollectTables(rows);
    ghost var valid := ValidRows(rows);
    CollectedMeans(columns, order, valid);
    var texts := [];
    assert order[..0] == [];
    for i := 0 to |order|
      invariant texts == TableTexts(valid, order[..i])
    {
      TextsStep(valid, order, i);
      texts := texts + [TableSql(order[i], columns[order[i]])];
    }
    assert order[..|order|] == order;
    return Separated(texts, "\n\n");
  }

  // ------------------------------------------------------------ reading: headers

  function WordRun(s: string): (n: nat)
    ensures n <= |s|
  {
    if s == "" || !IsWord(s[0]) then 0 else 1 + WordRun(s[1..])
  }

  // A word, perhaps with a quote or bracket on either side; how long it is.
  function NamePart(s: string): (n: Option<nat>)
    ensures n.Some? ==> 0 < n.value <= |s|
  {
    var open := if s != "" && s[0] in {'`', '"', '['} then 1 else 0;
    var w := WordRun(s[open..]);
    if w == 0 then None
    else
      var close := if open + w < |s| && s[open + w] in {'`', '"', ']'} then 1 else 0;
      Some(open + w + close)
  }

  // A name that another one may precede with a dot.
  function QualifiedName(s: string): Option<string> {
    var first := NamePart(s);
    if first.None? then None
    else
      var p, rest := first.value, s[first.value..];
      var second := if rest != "" && rest[0] == '.' then NamePart(rest[1..]) else None;
      if second.Some? then Some(s[..p + 1 + second.value]) else Some(s[..p])
  }

  // The text after a keyword in any case and the white space that follows it.
  function AfterKeyword(s: string, keyword: string): Option<string> {
    if |s| < |keyword| || Fold(s[..|keyword|]) != keyword then None
    else
      var rest := s[|keyword|..];
      if SpaceRun(rest) == 0 then None else Some(LStrip(rest))
  }

  function AfterIfNotExists(s: string): Option<string> {
    var a := AfterKeyword(s, "if");
    var b := if a.Some? then AfterKeyword(a.value, "not") else None;
    if b.Some? then AfterKeyword(b.value, "exists") else None
  }

  // The qualified name in the header of a table definition.
  function Header(line: string): Option<string> {
    var a := AfterKeyword(LStrip(line), "create");
    var b := if a.Some? then AfterKeyword(a.value, "table") else None;
    if b.None? then None
    else
      var c := AfterIfNotExists(b.value);
      if c.Some? && QualifiedName(c.value).Some? then QualifiedName(c.value) else QualifiedName(b.value)
  }

  // The text up to a comment that runs to the end of the line.
  function BeforeComment(s: string): (t: string)
    decreases |s|
  {
    if s == "" then ""
    else if StartsWith(s, "--") then "" else [s[0]] + BeforeComment(s[1..])
  }

  predicate Terminates(line: string) {
    StartsWith(LStrip(line), ")") || (var t := RStrip(BeforeComment(line)); t != "" && t[|t| - 1] == ';')
  }

  function EndOf(lines: seq<string>): (n: nat)
    requires lines != []
    ensures n < |lines|
  {
    if Terminates(lines[0]) || |lines| == 1 then 0 else 1 + EndOf(lines[1..])
  }

  function AfterDot(s: string): string {
    if '.' !in s then s else
      var n := |s| - 1;
      if s[n] == '.' then "" else AfterDot(s[..n]) + [s[n]]
  }

  predicate IsQuote(c: char) {
    c in {'`', '"', '[', ']', ' '}
  }

  function Unquoted(s: string): string
    decreases |s|
  {
    if s == "" then ""
    else if IsQuote(s[0]) then Unquoted(s[1..])
    else if IsQuote(s[|s| - 1]) then Unquoted(s[..|s| - 1])
    else s
  }

  datatype Parsed = Parsed(name: string, statement: string)

  function ParseTables(lines: seq<string>): seq<Parsed>
    decreases |lines|
  {
    if lines == [] then []
    else
      var h := Header(lines[0]);
      if h.None? then ParseTables(lines[1..])
      else
        var end, name := EndOf(lines), Unquoted(AfterDot(h.value));
        (if name != "" then [Parsed(name, Join(lines[..end + 1]))] else []) + ParseTables(lines[end + 1..])
  }

  // The line that ends the definition starting at `start`.
  method FindEnd(lines: seq<string>, start: nat) returns (end: nat)
    requires start < |lines|
    ensures end == start + EndOf(lines[start..])
  {
    hide Terminates;
    var i := start;
    while i < |lines| && !Terminates(lines[i])
      invariant start <= i <= |lines|
      invariant EndOf(lines[start..]) == if i < |lines| then i - start + EndOf(lines[i..]) else |lines| - 1 - start
    {
      DropStep(lines, i);
      i := i + 1;
    }
    if i < |lines| {
      DropStep(lines, i);
    }
    return if i < |lines| then i else |lines| - 1;
  }

  method ParseTablesLoop(ddl: string) returns (tables: seq<Parsed>)
    ensures tables == ParseTables(Lines(ddl))
  {
    hide Lines, Header, Unquoted, AfterDot, EndOf, Join, ParseTables;
    var lines := Lines(ddl);
    tables := [];
    var i := 0;
    ConcatNone(ParseTables(lines));
    assert lines[0..] == lines;
    while i < |lines|
      invariant i <= |lines| && tables + ParseTables(lines[i..]) == ParseTables(lines)
    {
      DropStep(lines, i);
      var h := Header(lines[i]);
      if h.None? {
        SkipStep(lines[i..]);
        i := i + 1;
      } else {
        var end := FindEnd(lines, i);
        DefinitionStep(lines, i, end, tables);
        var name := Unquoted(AfterDot(h.value));
        tables := tables + if name != "" then [Parsed(name, Join(lines[i..end + 1]))] else [];
        i := end + 1;
      }
    }
    NothingToParse(lines, i);
    ConcatNone(tables);
  }

  lemma NothingToParse(lines: seq<string>, i: nat)
    requires i == |lines|
    ensures ParseTables(lines[i..]) == []
  {
  }

  lemma DefinitionStep(lines: seq<string>, i: nat, end: nat, tables: seq<Parsed>)
    requires i < |lines| && Header(lines[i]).Some? && end == i + EndOf(lines[i..])
    ensures end < |lines|
    ensures var name := Unquoted(AfterDot(Header(lines[i]).value));
      var found := if name != "" then [Parsed(name, Join(lines[i..end + 1]))] else [];
      tables + found + ParseTables(lines[end + 1..]) == tables + ParseTables(lines[i..])
  {
    hide Header, Unquoted, AfterDot, EndOf, Join, ParseTables;
    DropStep(lines, i);
    ParseStep(lines[i..]);
    SliceOf(lines, i, end + 1);
    DropDrop(lines, i, end + 1);
  }

  lemma SkipStep(lines: seq<string>)
    requires lines != [] && Header(lines[0]).None?
    ensures ParseTables(lines) == ParseTables(lines[1..])
  {
    hide Header, EndOf, Unquoted, AfterDot, Join;
  }

  lemma DropDrop(lines: seq<string>, i: nat, j: nat)
    requires i <= j <= |lines|
    ensures lines[i..][j - i..] == lines[j..]
  {
  }

  lemma SliceOf(lines: seq<string>, i: nat, j: nat)
    requires i <= j <= |lines|
    ensures lines[i..][..j - i] == lines[i..j]
  {
  }

  lemma ParseStep(lines: seq<string>)
    requires lines != [] && Header(lines[0]).Some?
    ensures var end, name := EndOf(lines), Unquoted(AfterDot(Header(lines[0]).value));
      ParseTables(lines) ==
        (if name != "" then [Parsed(name, Join(lines[..end + 1]))] else []) + ParseTables(lines[end + 1..])
  {
    hide Header, EndOf, Unquoted, AfterDot, Join;
  }

  // ------------------------------------------------------------ reading: columns

  datatype Mode = Plain | Quoted(q: char) | LineComment | BlockComment

  // Cutting a column list at the commas outside parentheses, quotes and comments.
  function Split(s: string, mode: Mode, depth: nat, item: string): (items: seq<string>)
    ensures items != []
    decreases |s|
  {
    if s == "" then [item]
    else
      var c, rest := s[0], s[1..];
      match mode
      case LineComment => Split(rest, if c == '\n' then Plain else LineComment, depth, item + [c])
      case BlockComment =>
        if StartsWith(s, "*/") then Split(s[2..], Plain, depth, item + "*/")
        else Split(rest, BlockComment, depth, item + [c])
      case Quoted(q) =>
        if c != q then Split(rest, mode, depth, item + [c])
        else if rest != "" && rest[0] == q && q != ']' then Split(s[2..], mode, depth, item + [q, q])
        else Split(rest, Plain, depth, item + [c])
      case Plain =>
        if StartsWith(s, "--") then Split(s[2..], LineComment, depth, item + "--")
        else if StartsWith(s, "/*") then Split(s[2..], BlockComment, depth, item + "/*")
        else if c in {'\'', '"', '`'} then Split(rest, Quoted(c), depth, item + [c])
        else if c == '[' then Split(rest, Quoted(']'), depth, item + [c])
        else if c == '(' then Split(rest, Plain, depth + 1, item + [c])
        else if c == ')' && depth > 0 then Split(rest, Plain, depth - 1, item + [c])
        else if c == ',' && depth == 0 then [item] + Split(rest, Plain, depth, "")
        else Split(rest, Plain, depth, item + [c])
  }

  function AfterComments(item: string): string
    decreases |item|
  {
    var value := LStrip(item);
    if StartsWith(value, "--") then
      var rest := AfterLine(value);
      if rest.None? then "" else AfterComments(rest.value)
    else if StartsWith(value, "/*") then
      var rest := AfterBlock(value[2..]);
      if rest.None? then "" else AfterComments(rest.value)
    else value
  }

  function AfterLine(s: string): (rest: Option<string>)
    ensures rest.Some? ==> |rest.value| < |s|
  {
    if s == "" then None else if s[0] == '\n' then Some(s[1..]) else AfterLine(s[1..])
  }

  function AfterBlock(s: string): (rest: Option<string>)
    ensures rest.Some? ==> |rest.value| < |s|
  {
    if s == "" then None else if StartsWith(s, "*/") then Some(s[2..]) else AfterBlock(s[1..])
  }

  // Up to the next character c.
  function Until(s: string, c: char): (length: nat)
    ensures length <= |s| && (forall i | 0 <= i < length :: s[i] != c) && (length < |s| ==> s[length] == c)
  {
    if s == "" || s[0] == c then 0
    else
      var n := 1 + Until(s[1..], c);
      assert forall i | 1 <= i < n :: s[i] == s[1..][i - 1];
      n
  }

  function NameRun(s: string): (n: nat)
    ensures n <= |s|
  {
    if s == "" || !(IsWord(s[0]) || s[0] == '$') then 0 else 1 + NameRun(s[1..])
  }

  // An identifier at the start of a text, quoted or plain.
  function Identifier(s: string): Option<string> {
    if s == "" then None
    else if s[0] in {'`', '"', '['} then
      var close := if s[0] == '[' then ']' else s[0];
      var n := Until(s[1..], close);
      if n > 0 && n < |s| - 1 then Some(s[..n + 2]) else None
    else if IsLetter(s[0]) || s[0] == '_' then Some(s[..NameRun(s)])
    else None
  }

  predicate Pair(open: char, close: char) {
    (open == '`' && close == '`') || (open == '"' && close == '"') || (open == '[' && close == ']')
  }

  function NormalizeIdentifier(raw: string): string {
    var value := Strip(raw);
    if |value| >= 2 && Pair(value[0], value[|value| - 1]) then Fold(value[1..|value| - 1]) else Fold(value)
  }

  const CONSTRAINTS := {"constraint", "primary", "foreign", "unique", "check", "key", "index", "exclude"}

  function ItemColumn(item: string): Option<string> {
    var m := Identifier(AfterComments(item));
    if m.None? then None
    else
      var column := NormalizeIdentifier(m.value);
      if column in CONSTRAINTS then None else Some(column)
  }

  function ColumnsIn(items: seq<string>): set<string> {
    set i | 0 <= i < |items| && ItemColumn(items[i]).Some? :: ItemColumn(items[i]).value
  }

  // The last place of c in s, or the length of s.
  function LastPlace(s: string, c: char): (place: nat)
    ensures place <= |s|
  {
    if s == "" then 0
    else if s[|s| - 1] == c then |s| - 1
    else
      var n := LastPlace(s[..|s| - 1], c);
      if n == |s| - 1 then |s| else n
  }

  function StatementColumns(statement: string): set<string> {
    var start, end := Until(statement, '('), LastPlace(statement, ')');
    if start == |statement| || end == |statement| || end <= start then {}
    else ColumnsIn(Split(statement[start + 1..end], Plain, 0, ""))
  }

  // -------------------------------------------------------------------- catalogs

  function CatalogKeys(name: string, statement: string): set<string> {
    var key, h := NormalizeIdentifier(name), Header(statement);
    if h.None? || '.' !in h.value then {key}
    else
      var dot := Until(h.value, '.');
      var schema, table := h.value[..dot], NormalizeIdentifier(h.value[dot + 1..]);
      if table == key then {key, NormalizeIdentifier(schema) + "." + table} else {key}
  }

  type Catalog = map<string, set<string>>

  function ColumnsAt(catalog: Catalog, key: string): set<string> {
    if key in catalog then catalog[key] else {}
  }

  function WithTable(catalog: Catalog, keys: set<string>, columns: set<string>): Catalog {
    map key | key in catalog.Keys + keys :: if key in keys then ColumnsAt(catalog, key) + columns else catalog[key]
  }

  function CatalogOf(tables: seq<Parsed>): Catalog {
    if tables == [] then map[]
    else
      var last := tables[|tables| - 1];
      WithTable(CatalogOf(tables[..|tables| - 1]), CatalogKeys(last.name, last.statement), StatementColumns(last.statement))
  }

  function BuildCatalog(ddl: string): Catalog {
    CatalogOf(ParseTables(Lines(ddl)))
  }

  method BuildDatabaseCatalog(ddl: string) returns (catalog: Catalog)
    ensures catalog == BuildCatalog(ddl)
  {
    hide ParseTables, CatalogKeys, StatementColumns, Lines;
    var tables := ParseTablesLoop(ddl);
    catalog := map[];
    for i := 0 to |tables|
      invariant catalog == CatalogOf(tables[..i])
    {
      assert tables[..i + 1][..i] == tables[..i];
      var columns := StatementColumns(tables[i].statement);
      var keys := CatalogKeys(tables[i].name, tables[i].statement);
      catalog := map key | key in catalog.Keys + keys ::
        if key in keys then ColumnsAt(catalog, key) + columns else catalog[key];
    }
    assert tables[..|tables|] == tables;
  }
}
