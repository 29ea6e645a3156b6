// How the reader sees the pieces of a printed table definition.
module DdlParts {
  import opened Text
  import opened Ddl

  // ------------------------------------------------------------------ runs

  predicate AllWord(s: string) {
    forall i | 0 <= i < |s| :: IsWord(s[i])
  }

  predicate AllSpace(s: string) {
    forall i | 0 <= i < |s| :: IsSpace(s[i])
  }

  lemma {:induction false} WordRunIs(a: string, rest: string)
    requires AllWord(a) && (rest == "" || !IsWord(rest[0]))
    ensures WordRun(a + rest) == |a|
  {
    if a == "" {
      ConcatNone(rest);
    } else {
      ConcatTail(a, rest);
      WordRunIs(a[1..], rest);
    }
  }

  lemma {:induction false} SpaceRunIs(a: string, rest: string)
    requires AllSpace(a) && (rest == "" || !IsSpace(rest[0]))
    ensures SpaceRun(a + rest) == |a| && LStrip(a + rest) == rest
  {
    if a == "" {
      ConcatNone(rest);
    } else {
      ConcatTail(a, rest);
      SpaceRunIs(a[1..], rest);
    }
  }

  lemma {:induction false} UntilIs(a: string, c: char, rest: string)
    requires c !in a
    ensures Until(a + [c] + rest, c) == |a|
  {
    if a == "" {
      assert a + [c] + rest == [c] + rest;
    } else {
      var s := a + [c] + rest;
      assert s[1..] == a[1..] + [c] + rest;
      UntilIs(a[1..], c, rest);
    }
  }

  lemma {:induction false} LastPlaceIs(a: string, c: char, rest: string)
    requires c !in rest
    ensures LastPlace(a + [c] + rest, c) == |a|
  {
    var s := a + [c] + rest;
    if rest == "" {
      assert s[|s| - 1] == c;
    } else {
      var n := |rest| - 1;
      assert s[..|s| - 1] == a + [c] + rest[..n];
      LastPlaceIs(a, c, rest[..n]);
    }
  }

  lemma {:induction false} NoComment(s: string)
    requires '-' !in s
    ensures BeforeComment(s) == s
  {
    if s != "" {
      assert '-' !in s[1..];
      NoComment(s[1..]);
    }
  }

  // Nothing to strip at the end.
  lemma NothingToStrip(s: string)
    requires s != "" && !IsSpace(s[0]) && !IsSpace(s[|s| - 1])
    ensures Strip(s) == s
  {
  }

  // -------------------------------------------------------------- identifiers

  // The part of a name in front of the first '$'.
  function Cut(s: string): (t: string)
    ensures |t| <= |s| && t == s[..|t|] && '$' !in t && (|t| < |s| ==> s[|t|] == '$')
  {
    var n := Until(s, '$');
    s[..n]
  }

  lemma CutIs(s: string)
    requires IsIdentifier(s)
    ensures AllWord(Cut(s)) && Cut(s) != "" && (Cut(s) == s <==> '$' !in s)
    ensures IsLetter(Cut(s)[0]) || Cut(s)[0] == '_'
  {
    hide Until;
    var t := Cut(s);
    forall i | 0 <= i < |t| ensures IsWord(t[i]) {
      assert t[i] == s[i] && t[i] in t;
    }
    assert s[0] != '$';
    if Cut(s) != s {
      assert |t| < |s| && s[|t|] == '$';
    }
  }

  lemma IdentifierChars(s: string, c: char)
    requires IsIdentifier(s) && !IsWord(c) && c != '$'
    ensures c !in s
  {
  }

  lemma NormalizeName(s: string)
    requires AllWord(s) && s != ""
    ensures NormalizeIdentifier(s) == Fold(s)
  {
    NothingToStrip(s);
    assert IsWord(s[0]);
  }

  lemma NormalizeBracketed(s: string)
    ensures NormalizeIdentifier("[" + s + "]") == Fold(s)
  {
    var raw := "[" + s + "]";
    NothingToStrip(raw);
    assert raw[1..|raw| - 1] == s;
  }

  lemma NormalizeOpen(s: string)
    requires AllWord(s) && s != ""
    ensures NormalizeIdentifier("[" + s) == Fold("[" + s)
  {
    var raw := "[" + s;
    assert IsWord(raw[|raw| - 1]);
    NothingToStrip(raw);
  }

  lemma FoldOpen(s: string, t: string)
    requires AllWord(t) && t != ""
    ensures Fold("[" + s) != Fold(t)
  {
    assert IsWord(t[0]);
    assert Fold("[" + s)[0] == '[' && Fold(t)[0] != '[';
  }

  lemma {:induction false} UnquotedName(s: string)
    requires AllWord(s) && s != ""
    ensures Unquoted(s) == s && Unquoted("[" + s) == s && Unquoted("[" + s + "]") == s
  {
    assert IsWord(s[0]) && IsWord(s[|s| - 1]);
    assert ("[" + s)[1..] == s;
    assert ("[" + s + "]")[1..] == s + "]";
    assert (s + "]")[..|s|] == s;
  }

  // ------------------------------------------------------------------- headers

  function HeaderLine(k: TableKey): string {
    "CREATE TABLE [" + k.schema + "].[" + k.table + "] (\n"
  }

  lemma Folds(s: string, rest: string, keyword: string)
    requires |s| == |keyword| && forall i | 0 <= i < |s| :: LowerChar(s[i]) == keyword[i]
    requires rest != "" && !IsSpace(rest[0])
    ensures AfterKeyword(s + " " + rest, keyword) == Some(rest)
  {
    var whole := s + " " + rest;
    assert whole[..|s|] == s;
    assert Fold(s) == keyword;
    assert whole[|s|..] == " " + rest;
    SpaceRunIs(" ", rest);
  }

  lemma HeaderText(rest: string)
    ensures "CREATE TABLE " + rest == "CREATE" + " " + ("TABLE" + " " + rest)
  {
  }

  lemma NotSpaced(c: char, rest: string)
    requires !IsSpace(c)
    ensures LStrip([c] + rest) == [c] + rest
  {
    SpaceRunIs("", [c] + rest);
    assert "" + ([c] + rest) == [c] + rest;
  }

  lemma CreateFolds(rest: string)
    requires rest != "" && !IsSpace(rest[0])
    ensures AfterKeyword("CREATE" + " " + rest, "create") == Some(rest)
    ensures AfterKeyword("TABLE" + " " + rest, "table") == Some(rest)
  {
    hide AfterKeyword;
    Folds("CREATE", rest, "create");
    Folds("TABLE", rest, "table");
  }

  // Past the keywords of a header.
  lemma HeaderKeywords(rest: string)
    requires rest != "" && rest[0] == '['
    ensures Header("CREATE TABLE " + rest) == QualifiedName(rest)
  {
    hide QualifiedName, AfterKeyword, LStrip;
    var second := "TABLE" + " " + rest;
    HeaderText(rest);
    assert "CREATE TABLE " + rest == ['C'] + ("REATE TABLE " + rest);
    NotSpaced('C', "REATE TABLE " + rest);
    assert second[0] == 'T';
    CreateFolds(second);
    CreateFolds(rest);
    NoKeyword(rest);
  }

  lemma NoKeyword(rest: string)
    requires rest != "" && rest[0] == '['
    ensures AfterKeyword(rest, "if") == None
  {
    if |rest| >= 2 {
      assert Fold(rest[..2])[0] == '[';
    }
  }

  // A bracketed name is read up to its first '$'.
  lemma BracketedPart(s: string, rest: string)
    requires IsIdentifier(s)
    ensures NamePart("[" + s + "]" + rest) == Some(1 + |Cut(s)| + if '$' in s then 0 else 1)
  {
    CutIs(s);
    var t, whole := Cut(s), "[" + s + "]" + rest;
    var after := s[|t|..] + "]" + rest;
    assert whole[1..] == t + after;
    assert after[0] == if '$' in s then '$' else ']';
    hide Cut;
    WordRunIs(t, after);
    assert whole[1 + |t|] == after[0];
  }

  function QualifiedIn(k: TableKey): string {
    if '$' in k.schema then "[" + Cut(k.schema)
    else "[" + k.schema + "].[" + Cut(k.table) + (if '$' in k.table then "" else "]")
  }

  lemma QualifiedPlain(a: string, rest: string)
    requires NamePart(a + rest) == Some(|a|) && rest != "" && rest[0] != '.'
    ensures QualifiedName(a + rest) == Some(a)
  {
    hide NamePart;
    ConcatSplit(a, rest, |a|);
  }

  lemma QualifiedDot(a: string, b: string, m: nat)
    requires NamePart(a + ("." + b)) == Some(|a|) && NamePart(b) == Some(m) && m <= |b|
    ensures QualifiedName(a + ("." + b)) == Some(a + "." + b[..m])
  {
    hide NamePart;
    var whole := a + ("." + b);
    assert whole[|a|..] == "." + b && ("." + b)[1..] == b;
    assert whole[..|a| + 1 + m] == a + "." + b[..m];
  }

  lemma QualifiedIs(k: TableKey, rest: string)
    requires IsIdentifier(k.schema) && IsIdentifier(k.table)
    ensures QualifiedName("[" + k.schema + "].[" + k.table + "]" + rest) == Some(QualifiedIn(k))
  {
    hide NamePart, Cut, QualifiedName, IsIdentifier;
    if '$' in k.schema {
      SchemaIsCut(k, rest);
    } else {
      SchemaIsWhole(k, rest);
    }
  }

  lemma DottedText(a: string, b: string, rest: string)
    ensures "[" + a + "].[" + b + "]" + rest == "[" + a + "]" + ("." + ("[" + b + "]" + rest))
  {
  }

  lemma CutText(t: string, more: string, rest: string)
    ensures "[" + (t + more) + "]" + rest == ("[" + t) + (more + "]" + rest)
  {
  }

  lemma SchemaIsCut(k: TableKey, rest: string)
    requires IsIdentifier(k.schema) && '$' in k.schema
    ensures QualifiedName("[" + k.schema + "].[" + k.table + "]" + rest) == Some(QualifiedIn(k))
  {
    hide NamePart, Cut, QualifiedName, IsIdentifier;
    var tail := "." + ("[" + k.table + "]" + rest);
    var t := Cut(k.schema);
    var more := k.schema[|t|..];
    DottedText(k.schema, k.table, rest);
    BracketedPart(k.schema, tail);
    CutRest(k.schema);
    CutText(t, more, tail);
    QualifiedPlain("[" + t, more + "]" + tail);
  }

  lemma SchemaIsWhole(k: TableKey, rest: string)
    requires IsIdentifier(k.schema) && IsIdentifier(k.table) && '$' !in k.schema
    ensures QualifiedName("[" + k.schema + "].[" + k.table + "]" + rest) == Some(QualifiedIn(k))
  {
    hide NamePart, Cut, QualifiedName, IsIdentifier;
    var second := "[" + k.table + "]" + rest;
    var m := 1 + |Cut(k.table)| + if '$' in k.table then 0 else 1;
    DottedText(k.schema, k.table, rest);
    CutWhole(k.schema);
    BracketedPart(k.schema, "." + second);
    BracketedPart(k.table, rest);
    BracketedPrefix(k.table, rest);
    QualifiedDot("[" + k.schema + "]", second, m);
    DottedName(k.schema, Cut(k.table), if '$' in k.table then "" else "]");
  }

  lemma DottedName(a: string, t: string, end: string)
    ensures "[" + a + "]" + "." + ("[" + t + end) == "[" + a + "].[" + t + end
  {
  }

  lemma CutRest(s: string)
    requires '$' in s
    ensures |Cut(s)| < |s| && s[|Cut(s)|] == '$' && s == Cut(s) + s[|Cut(s)|..]
  {
    hide Until;
    var t := Cut(s);
    TakeDrop(s, |t|);
  }

  lemma CutWhole(s: string)
    requires '$' !in s
    ensures Cut(s) == s
  {
    hide Until;
    assert Cut(s) == s[..|Cut(s)|];
  }

  lemma BracketedPrefix(s: string, rest: string)
    ensures var m := 1 + |Cut(s)| + if '$' in s then 0 else 1;
      && m <= |"[" + s + "]" + rest|
      && ("[" + s + "]" + rest)[..m] == "[" + Cut(s) + (if '$' in s then "" else "]")
  {
    hide Cut;
    if '$' in s {
      CutRest(s);
    } else {
      CutWhole(s);
    }
  }

  lemma HeaderIs(k: TableKey, rest: string)
    requires IsIdentifier(k.schema) && IsIdentifier(k.table)
    ensures Header(HeaderLine(k) + rest) == Some(QualifiedIn(k))
  {
    hide Header, QualifiedName;
    var tail := "[" + k.schema + "].[" + k.table + "]" + (" (\n" + rest);
    assert HeaderLine(k) + rest == "CREATE TABLE " + tail;
    HeaderKeywords(tail);
    QualifiedIs(k, " (\n" + rest);
  }

  // The name that a printed definition is read under.
  function NameIn(k: TableKey): string {
    if '$' in k.schema then Cut(k.schema) else Cut(k.table)
  }

  lemma {:induction false} AfterDotIs(a: string, b: string)
    requires '.' !in b
    ensures AfterDot(a + "." + b) == b && AfterDot(b) == b
  {
    var s := a + "." + b;
    assert s[|a|] == '.';
    if b != "" {
      var n := |b| - 1;
      assert s[..|s| - 1] == a + "." + b[..n];
      AfterDotIs(a, b[..n]);
      assert b == b[..n] + [b[n]];
    }
  }

  lemma NameIs(k: TableKey)
    requires IsIdentifier(k.schema) && IsIdentifier(k.table)
    ensures Unquoted(AfterDot(QualifiedIn(k))) == NameIn(k)
    ensures AllWord(NameIn(k)) && NameIn(k) != ""
  {
    hide Cut, AfterDot, Unquoted;
    CutIs(k.schema);
    CutIs(k.table);
    UnquotedName(NameIn(k));
    var t := Cut(k.table);
    assert '.' !in Cut(k.schema) && '.' !in t;
    if '$' in k.schema {
      AfterDotIs("", "[" + Cut(k.schema));
    } else {
      var b := "[" + t + (if '$' in k.table then "" else "]");
      assert "[" + t + "" == "[" + t;
      assert QualifiedIn(k) == ("[" + k.schema + "]") + "." + b;
      AfterDotIs("[" + k.schema + "]", b);
    }
  }

  // The catalog keys that a printed definition is read under.
  function KeysIn(k: TableKey): set<string> {
    if '$' in k.schema then {Fold(Cut(k.schema))}
    else if '$' in k.table then {Fold(Cut(k.table))}
    else {Fold(k.table), Fold(k.schema) + "." + Fold(k.table)}
  }

  lemma KeysAre(k: TableKey, statement: string)
    requires IsIdentifier(k.schema) && IsIdentifier(k.table) && Header(statement) == Some(QualifiedIn(k))
    ensures CatalogKeys(NameIn(k), statement) == KeysIn(k)
  {
    hide Cut, Header, NormalizeIdentifier, Fold, AllWord, Until, IsIdentifier, CatalogKeys;
    NameIs(k);
    NormalizeName(NameIn(k));
    CutIs(k.schema);
    if '$' in k.schema {
      UndottedKeys(NameIn(k), statement, Cut(k.schema));
    } else {
      QualifiedKeys(k, statement);
    }
  }

  lemma UndottedKeys(name: string, statement: string, t: string)
    requires AllWord(t) && Header(statement) == Some("[" + t)
    ensures CatalogKeys(name, statement) == {NormalizeIdentifier(name)}
  {
    hide Header, NormalizeIdentifier;
    NoDot(t);
  }

  lemma QualifiedKeys(k: TableKey, statement: string)
    requires IsIdentifier(k.schema) && IsIdentifier(k.table) && Header(statement) == Some(QualifiedIn(k))
    requires '$' !in k.schema && NormalizeIdentifier(NameIn(k)) == Fold(Cut(k.table))
    ensures CatalogKeys(NameIn(k), statement) == KeysIn(k)
  {
    hide Cut, Header, NormalizeIdentifier, Fold, AllWord, Until, IsIdentifier, CatalogKeys;
    CutIs(k.table);
    IdentifierChars(k.schema, '.') by { DotIsNoWord(); }
    NormalizeBracketed(k.schema);
    var t := Cut(k.table);
    var schema, after := "[" + k.schema + "]", "[" + t + (if '$' in k.table then "" else "]");
    DottedName(k.schema, t, if '$' in k.table then "" else "]");
    NoDotInside(k.schema);
    DottedKeys(NameIn(k), statement, schema, after);
    if '$' in k.table {
      ConcatNone("[" + t);
      NormalizeOpen(t);
      FoldOpen(t, t);
    } else {
      NormalizeBracketed(t);
    }
  }

  lemma DotIsNoWord()
    ensures !IsWord('.')
  {
  }

  lemma NoDotInside(a: string)
    requires '.' !in a
    ensures '.' !in "[" + a + "]"
  {
  }

  lemma NoDot(t: string)
    requires AllWord(t)
    ensures '.' !in "[" + t
  {
  }

  lemma DottedKeys(name: string, statement: string, schema: string, after: string)
    requires Header(statement) == Some(schema + ['.'] + after) && '.' !in schema
    ensures CatalogKeys(name, statement) ==
      var key, table := NormalizeIdentifier(name), NormalizeIdentifier(after);
      if table == key then {key, NormalizeIdentifier(schema) + "." + table} else {key}
  {
    hide Header, NormalizeIdentifier;
    var h := schema + ['.'] + after;
    UntilIs(schema, '.', after);
    assert h[..|schema|] == schema && h[|schema| + 1..] == after;
    assert h[|schema|] == '.';
  }
}
