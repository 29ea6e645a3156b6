// Which texts the schema reader takes for headers, ends, items and columns, and how
// a type is printed, without following the scanning.
module DdlForms {
  import opened Text
  import opened Ddl
  import opened DdlParts

  // ------------------------------------------------------------------- types

  // Lengths and precisions are printed for the types that have them, when they make
  // sense.
  lemma TypeExactly(row: Column)
    requires Valid(row)
    ensures var t, kind := row.dataType.value, Fold(row.dataType.value);
      var sized := kind == "char" || kind == "nchar" || kind == "varchar" || kind == "nvarchar"
                   || kind == "binary" || kind == "varbinary";
      var scaled := kind == "decimal" || kind == "numeric";
      && (sized && row.length == Some(-1) ==> TypeSql(row) == t + "(MAX)")
      && (sized && row.length.Some? && 1 <= row.length.value <= 1000000 ==>
            TypeSql(row) == t + "(" + Dec(row.length.value) + ")")
      && (sized && (row.length == None || row.length.value < -1 || row.length.value == 0 || row.length.value > 1000000) ==>
            TypeSql(row) == t)
      && (scaled && row.precision.Some? && row.scale.Some? && 1 <= row.precision.value <= 38
          && 0 <= row.scale.value <= row.precision.value ==>
            TypeSql(row) == t + "(" + Dec(row.precision.value) + "," + Dec(row.scale.value) + ")")
      && (scaled && (row.precision == None || row.scale == None || row.precision.value < 1 || row.precision.value > 38
                     || row.scale.value < 0 || row.scale.value > row.precision.value) ==>
            TypeSql(row) == t)
      && (!sized && !scaled ==> TypeSql(row) == t)
  {
    hide IsIdentifier, IsTypeName, Dec;
  }

  // ------------------------------------------------------------------- names

  predicate Opens(s: string) {
    s == "" || s == "`" || s == "\"" || s == "["
  }

  predicate Closes(s: string) {
    s == "" || s == "`" || s == "\"" || s == "]"
  }

  // `part` is a whole word, with a quote or bracket on either side if there is one.
  predicate IsPartBefore(open: string, word: string, close: string, rest: string) {
    && Opens(open) && word != "" && AllWord(word) && Closes(close)
    && (close == "" ==> rest == "" || !(IsWord(rest[0]) || Closes([rest[0]])))
  }

  ghost predicate PartForm(part: string, rest: string) {
    exists open, word, close :: part == open + word + close && IsPartBefore(open, word, close, rest)
  }

  lemma {:induction false} WordRunMeans(s: string)
    ensures AllWord(s[..WordRun(s)]) && (WordRun(s) < |s| ==> !IsWord(s[WordRun(s)]))
  {
    if s != "" && IsWord(s[0]) {
      WordRunMeans(s[1..]);
      assert s[..WordRun(s)] == [s[0]] + s[1..][..WordRun(s[1..])];
    }
  }

  lemma NamePartFinds(s: string)
    requires NamePart(s).Some?
    ensures PartForm(s[..NamePart(s).value], s[NamePart(s).value..])
  {
    var o := if s != "" && s[0] in {'`', '"', '['} then 1 else 0;
    WordRunMeans(s[o..]);
    var w := WordRun(s[o..]);
    var c := if o + w < |s| && s[o + w] in {'`', '"', ']'} then 1 else 0;
    var n := o + w + c;
    assert NamePart(s) == Some(n);
    var open, word, close := s[..o], s[o..][..w], s[o + w..n];
    assert s[..n] == open + word + close;
    assert o + w < |s| ==> s[o..][w] == s[o + w];
    assert IsPartBefore(open, word, close, s[n..]);
  }

  lemma Slices(a: string, b: string, c: string)
    ensures (a + b + c)[|a|..] == b + c && (a + b + c)[|a| + |b|..] == c && (a + b + c)[..|a|] == a
  {
  }

  lemma Starting(open: string, word: string, more: string)
    requires Opens(open) && word != "" && IsWord(word[0])
    ensures var s := open + word + more; (if s[0] in {'`', '"', '['} then 1 else 0) == |open|
  {
    var s := open + word + more;
    if open == "" {
      assert s[0] == word[0];
    } else {
      assert s[0] == open[0];
    }
  }

  lemma Closing(close: string, rest: string)
    requires Closes(close) && (close == "" ==> rest == "" || !(IsWord(rest[0]) || Closes([rest[0]])))
    ensures close + rest == "" || !IsWord((close + rest)[0])
    ensures (if close + rest != "" && (close + rest)[0] in {'`', '"', ']'} then 1 else 0) == |close|
  {
    if close != "" {
      assert (close + rest)[0] == close[0];
    } else {
      ConcatNone(rest);
    }
  }

  lemma NamePartIs(s: string, open: string, word: string, more: string, closed: nat)
    requires s == open + word + more && word != "" && |open| + |word| + closed <= |s|
    requires (if s[0] in {'`', '"', '['} then 1 else 0) == |open|
    requires WordRun(word + more) == |word|
    requires (if more != "" && more[0] in {'`', '"', ']'} then 1 else 0) == closed
    ensures NamePart(s) == Some(|open| + |word| + closed)
  {
    hide WordRun;
    Slices(open, word, more);
    assert s[|open|..] == word + more;
    assert |open| + |word| < |s| <==> more != "";
    assert more != "" ==> s[|open| + |word|] == more[0];
  }

  lemma PartIsFound(open: string, word: string, close: string, rest: string)
    requires IsPartBefore(open, word, close, rest)
    ensures NamePart(open + word + close + rest) == Some(|open + word + close|)
  {
    hide WordRun, NamePart;
    var s, more := open + word + close + rest, close + rest;
    assert IsWord(word[0]);
    hide AllWord, IsWord, Opens, Closes;
    Starting(open, word, more);
    Closing(close, rest);
    WordRunIs(word, more);
    assert s == open + word + more;
    NamePartIs(s, open, word, more, |close|);
  }

  // The part at the start of a text is the only one that a whole word makes.
  lemma NamePartExactly(s: string, part: string, rest: string)
    requires s == part + rest
    ensures NamePart(s) == Some(|part|) <==> PartForm(part, rest)
  {
    if NamePart(s) == Some(|part|) {
      NamePartFinds(s);
      assert s[..|part|] == part && s[|part|..] == rest;
    }
    if PartForm(part, rest) {
      var open, word, close :| part == open + word + close && IsPartBefore(open, word, close, rest);
      PartIsFound(open, word, close, rest);
    }
  }

  ghost predicate StartsPart(s: string) {
    exists n | 0 <= n <= |s| :: PartForm(s[..n], s[n..])
  }

  lemma StartsExactly(s: string)
    ensures NamePart(s).Some? <==> StartsPart(s)
  {
    if NamePart(s).Some? {
      NamePartFinds(s);
    }
    if StartsPart(s) {
      var n :| 0 <= n <= |s| && PartForm(s[..n], s[n..]);
      assert s == s[..n] + s[n..];
      NamePartExactly(s, s[..n], s[n..]);
    }
  }

  ghost predicate TwoParts(first: string, second: string, rest: string) {
    PartForm(first, "." + second + rest) && PartForm(second, rest)
  }

  // One part, or two with a dot between them when another part follows the dot.
  ghost predicate NameForm(name: string, rest: string) {
    || (PartForm(name, rest) && !(rest != "" && rest[0] == '.' && StartsPart(rest[1..])))
    || exists first, second :: name == first + "." + second && TwoParts(first, second, rest)
  }

  lemma QualifiedFinds(s: string)
    requires QualifiedName(s).Some?
    ensures QualifiedName(s).value <= s && NameForm(QualifiedName(s).value, s[|QualifiedName(s).value|..])
  {
    hide NamePart, PartForm;
    var p := NamePart(s).value;
    var first, rest := s[..p], s[p..];
    assert s == first + rest;
    NamePartExactly(s, first, rest);
    if rest != "" && rest[0] == '.' && NamePart(rest[1..]).Some? {
      var q := NamePart(rest[1..]).value;
      var second, after := rest[1..][..q], rest[1..][q..];
      assert rest[1..] == second + after;
      NamePartExactly(rest[1..], second, after);
      assert rest == "." + second + after;
      assert s[..p + 1 + q] == first + "." + second && s[p + 1 + q..] == after;
      assert TwoParts(first, second, after);
    } else {
      if rest != "" && rest[0] == '.' {
        StartsExactly(rest[1..]);
      }
    }
  }

  lemma QualifiedIsFound(s: string, name: string, rest: string)
    requires s == name + rest && NameForm(name, rest)
    ensures QualifiedName(s) == Some(name)
  {
    hide NamePart, PartForm, StartsPart;
    if first, second :| name == first + "." + second && TwoParts(first, second, rest) {
      assert s == first + ("." + second + rest);
      NamePartExactly(s, first, "." + second + rest);
      assert s[|first|..] == "." + second + rest;
      assert (s[|first|..])[1..] == second + rest;
      NamePartExactly(second + rest, second, rest);
      assert s[..|first| + 1 + |second|] == name;
    } else {
      NamePartExactly(s, name, rest);
      assert s[|name|..] == rest && s[..|name|] == name;
      if rest != "" && rest[0] == '.' {
        StartsExactly(rest[1..]);
      }
    }
  }

  // ------------------------------------------------------------------ headers

  // A keyword in any case, white space, and then something else.
  ghost predicate AfterWord(s: string, keyword: string, rest: string) {
    exists k, w :: s == k + w + rest && Fold(k) == keyword && w != "" && AllSpace(w) && (rest == "" || !IsSpace(rest[0]))
  }

  lemma {:induction false} SpaceRunMeans(s: string)
    ensures AllSpace(s[..SpaceRun(s)]) && (SpaceRun(s) < |s| ==> !IsSpace(s[SpaceRun(s)]))
  {
    if s != "" && IsSpace(s[0]) {
      SpaceRunMeans(s[1..]);
      assert s[..SpaceRun(s)] == [s[0]] + s[1..][..SpaceRun(s[1..])];
    }
  }

  lemma KeywordFound(s: string, keyword: string)
    requires AfterKeyword(s, keyword).Some?
    ensures AfterWord(s, keyword, AfterKeyword(s, keyword).value)
  {
    hide SpaceRun;
    var k, t := s[..|keyword|], s[|keyword|..];
    SpaceRunMeans(t);
    var w, rest := t[..SpaceRun(t)], t[SpaceRun(t)..];
    assert t == w + rest && s == k + t;
    assert s == k + w + rest;
  }

  lemma KeywordIsFound(s: string, k: string, w: string, rest: string)
    requires s == k + w + rest && w != "" && AllSpace(w) && (rest == "" || !IsSpace(rest[0]))
    ensures AfterKeyword(s, Fold(k)) == Some(rest)
  {
    hide SpaceRun;
    Slices(k, w, rest);
    SpaceRunIs(w, rest);
    assert s[..|Fold(k)|] == k;
  }

  lemma KeywordExactly(s: string, keyword: string, rest: string)
    ensures AfterKeyword(s, keyword) == Some(rest) <==> AfterWord(s, keyword, rest)
  {
    hide AfterKeyword, AllSpace, Fold;
    if AfterKeyword(s, keyword) == Some(rest) {
      KeywordFound(s, keyword);
    }
    if AfterWord(s, keyword, rest) {
      var k, w :| s == k + w + rest && Fold(k) == keyword && w != "" && AllSpace(w) && (rest == "" || !IsSpace(rest[0]));
      KeywordIsFound(s, k, w, rest);
    }
  }

  ghost predicate AfterCreateTable(line: string, rest: string) {
    exists lead, a, b ::
      line == lead + a && AllSpace(lead) && a != "" && !IsSpace(a[0])
      && AfterWord(a, "create", b) && AfterWord(b, "table", rest)
  }

  ghost predicate AfterCondition(s: string, rest: string) {
    exists a, b :: AfterWord(s, "if", a) && AfterWord(a, "not", b) && AfterWord(b, "exists", rest)
  }

  // The name follows "create table", and "if not exists" if a name follows that.
  ghost predicate HeaderForm(line: string, name: string) {
    exists s, rest ::
      && AfterCreateTable(line, s)
      && ((exists c :: AfterCondition(s, c) && c == name + rest && NameForm(name, rest))
          || ((forall c, n, r :: !(AfterCondition(s, c) && c == n + r && NameForm(n, r))) && s == name + rest && NameForm(name, rest)))
  }

  lemma ConditionExactly(s: string, rest: string)
    ensures AfterIfNotExists(s) == Some(rest) <==> AfterCondition(s, rest)
  {
    hide AfterKeyword, AfterWord;
    forall a ensures AfterKeyword(s, "if") == Some(a) <==> AfterWord(s, "if", a) {
      KeywordExactly(s, "if", a);
    }
    forall a, b ensures AfterKeyword(a, "not") == Some(b) <==> AfterWord(a, "not", b) {
      KeywordExactly(a, "not", b);
    }
    forall b ensures AfterKeyword(b, "exists") == Some(rest) <==> AfterWord(b, "exists", rest) {
      KeywordExactly(b, "exists", rest);
    }
  }

  function PastCreateTable(line: string): Option<string> {
    var a := AfterKeyword(LStrip(line), "create");
    if a.Some? then AfterKeyword(a.value, "table") else None
  }

  lemma StripExactly(line: string, lead: string, a: string)
    requires line == lead + a && AllSpace(lead) && a != "" && !IsSpace(a[0])
    ensures LStrip(line) == a
  {
    SpaceRunIs(lead, a);
  }

  lemma NotAllSpace(a: string, b: string)
    requires AfterWord(a, "create", b)
    ensures a != "" && !IsSpace(a[0])
  {
    var k, w :| a == k + w + b && Fold(k) == "create" && w != "" && AllSpace(w) && (b == "" || !IsSpace(b[0]));
    assert Fold(k)[0] == 'c' && |k| == |Fold(k)| == 6;
    assert LowerChar(k[0]) == Fold(k)[0];
  }

  lemma CreateTableExactly(line: string, rest: string)
    ensures PastCreateTable(line) == Some(rest) <==> AfterCreateTable(line, rest)
  {
    hide AfterKeyword, AfterWord, AllSpace;
    if PastCreateTable(line) == Some(rest) {
      var a := LStrip(line);
      var b := AfterKeyword(a, "create").value;
      KeywordExactly(a, "create", b);
      KeywordExactly(b, "table", rest);
      SpaceRunMeans(line);
      NotAllSpace(a, b);
      assert line == line[..SpaceRun(line)] + a;
    }
    if AfterCreateTable(line, rest) {
      var lead, a, b :| line == lead + a && AllSpace(lead) && a != "" && !IsSpace(a[0])
        && AfterWord(a, "create", b) && AfterWord(b, "table", rest);
      StripExactly(line, lead, a);
      KeywordExactly(a, "create", b);
      KeywordExactly(b, "table", rest);
    }
  }

  lemma QualifiedExactly(s: string, name: string)
    ensures QualifiedName(s) == Some(name) <==> exists rest :: s == name + rest && NameForm(name, rest)
  {
    hide QualifiedName, NameForm;
    if QualifiedName(s) == Some(name) {
      QualifiedFinds(s);
      assert s == name + s[|name|..];
    }
    if rest :| s == name + rest && NameForm(name, rest) {
      QualifiedIsFound(s, name, rest);
    }
  }

  ghost predicate Named(s: string) {
    exists c, n, r :: AfterCondition(s, c) && c == n + r && NameForm(n, r)
  }

  lemma NamedExactly(s: string)
    ensures Named(s) <==> AfterIfNotExists(s).Some? && QualifiedName(AfterIfNotExists(s).value).Some?
  {
    hide AfterCondition, NameForm, QualifiedName, AfterIfNotExists;
    var c := AfterIfNotExists(s);
    if c.Some? && QualifiedName(c.value).Some? {
      ConditionExactly(s, c.value);
      var n := QualifiedName(c.value).value;
      QualifiedExactly(c.value, n);
      var r :| c.value == n + r && NameForm(n, r);
    }
    if Named(s) {
      var d, n, r :| AfterCondition(s, d) && d == n + r && NameForm(n, r);
      ConditionExactly(s, d);
      QualifiedExactly(d, n);
    }
  }

  lemma HeaderUnfolds(line: string)
    ensures Header(line) ==
      if PastCreateTable(line).None? then None
      else
        var s := PastCreateTable(line).value;
        var c := AfterIfNotExists(s);
        if c.Some? && QualifiedName(c.value).Some? then QualifiedName(c.value) else QualifiedName(s)
  {
    hide AfterKeyword, AfterIfNotExists, QualifiedName, LStrip;
  }

  // A line is the header of a definition of this name.
  lemma HeaderExactly(line: string, name: string)
    ensures Header(line) == Some(name) <==> HeaderForm(line, name)
  {
    HeaderUnfolds(line);
    hide Header, PastCreateTable, AfterCreateTable, AfterCondition, NameForm, QualifiedName, AfterIfNotExists;
    if PastCreateTable(line).Some? {
      var s := PastCreateTable(line).value;
      CreateTableExactly(line, s);
      NamedExactly(s);
      NameAfter(line, s, name);
    } else {
      forall s ensures !AfterCreateTable(line, s) {
        CreateTableExactly(line, s);
      }
    }
  }

  lemma NameAfter(line: string, s: string, name: string)
    requires PastCreateTable(line) == Some(s)
    requires Named(s) <==> AfterIfNotExists(s).Some? && QualifiedName(AfterIfNotExists(s).value).Some?
    ensures HeaderForm(line, name) <==>
      (if Named(s) then QualifiedName(AfterIfNotExists(s).value) else QualifiedName(s)) == Some(name)
  {
    hide PastCreateTable, AfterCreateTable, AfterCondition, NameForm, QualifiedName, AfterIfNotExists;
    CreateTableExactly(line, s);
    forall t | AfterCreateTable(line, t) ensures t == s {
      CreateTableExactly(line, t);
    }
    if Named(s) {
      var c := AfterIfNotExists(s).value;
      forall d ensures AfterCondition(s, d) <==> d == c {
        ConditionExactly(s, d);
      }
      QualifiedExactly(c, name);
    } else {
      QualifiedExactly(s, name);
    }
  }

  // --------------------------------------------------------------------- ends

  predicate HasDashes(s: string) {
    exists i | 0 <= i < |s| - 1 :: s[i] == '-' && s[i + 1] == '-'
  }

  // The comment that runs to the end of the line, if there is one, left out.
  ghost predicate Uncommented(line: string, text: string) {
    exists comment ::
      && line == text + comment && !HasDashes(text)
      && (comment == "" || (StartsWith(comment, "--") && (text == "" || text[|text| - 1] != '-')))
  }

  // The line closes the list of columns, or its text ends with a semicolon.
  ghost predicate EndForm(line: string) {
    || (exists lead, rest :: line == lead + ")" + rest && AllSpace(lead))
    || (exists text, space :: Uncommented(line, text + ";" + space) && AllSpace(space))
  }

  lemma {:induction false} UncommentedIs(line: string)
    ensures Uncommented(line, BeforeComment(line))
  {
    if line == "" {
      assert line == "" + "";
    } else if StartsWith(line, "--") {
      assert line == "" + line;
    } else {
      UncommentedIs(line[1..]);
      var text := BeforeComment(line[1..]);
      var comment :| line[1..] == text + comment && !HasDashes(text)
        && (comment == "" || (StartsWith(comment, "--") && (text == "" || text[|text| - 1] != '-')));
      assert line == [line[0]] + line[1..];
      assert line == ([line[0]] + text) + comment;
      DashesBefore(line, text, comment);
    }
  }

  lemma DashesBefore(line: string, text: string, comment: string)
    requires line != "" && !StartsWith(line, "--") && line[1..] == text + comment && !HasDashes(text)
    requires comment == "" || (StartsWith(comment, "--") && (text == "" || text[|text| - 1] != '-'))
    ensures !HasDashes([line[0]] + text)
    ensures comment == "" || ([line[0]] + text)[|text|] != '-'
  {
    var more := [line[0]] + text;
    if line[0] == '-' && text != "" {
      assert line[1] == text[0];
      assert line[..2] == [line[0], line[1]];
      assert text[0] != '-';
    }
    if comment != "" && text == "" {
      assert line[1] == comment[0] == '-';
      assert line[..2] == [line[0], line[1]];
    }
    forall i | 0 <= i < |more| - 1 ensures !(more[i] == '-' && more[i + 1] == '-') {
      if i > 0 {
        assert more[i] == text[i - 1] && more[i + 1] == text[i];
        var before := i - 1;
        assert !(text[before] == '-' && text[before + 1] == '-');
      }
    }
  }

  lemma StartsDashes(s: string)
    ensures StartsWith(s, "--") <==> |s| >= 2 && s[0] == '-' && s[1] == '-'
  {
    if |s| >= 2 {
      assert s[..2] == [s[0], s[1]];
    }
  }

  lemma NoDashesAt(text: string, i: nat)
    requires !HasDashes(text) && i + 1 < |text|
    ensures !(text[i] == '-' && text[i + 1] == '-')
  {
  }

  lemma TailNoDashes(text: string)
    requires !HasDashes(text) && text != ""
    ensures !HasDashes(text[1..])
  {
    forall i | 0 <= i < |text[1..]| - 1 ensures !(text[1..][i] == '-' && text[1..][i + 1] == '-') {
      NoDashesAt(text, i + 1);
    }
  }

  lemma {:induction false} OneUncommented(line: string, text: string)
    requires Uncommented(line, text)
    ensures text == BeforeComment(line)
  {
    var comment :| line == text + comment && !HasDashes(text)
      && (comment == "" || (StartsWith(comment, "--") && (text == "" || text[|text| - 1] != '-')));
    if text == "" {
      assert line == comment;
    } else {
      var rest := text[1..];
      assert line[0] == text[0] && line[1..] == rest + comment;
      StartsDashes(line);
      if |text| > 1 {
        NoDashesAt(text, 0);
      }
      TailNoDashes(text);
      assert rest != "" ==> rest[|rest| - 1] == text[|text| - 1];
      assert Uncommented(line[1..], rest);
      OneUncommented(line[1..], rest);
    }
  }

  lemma {:induction false} RStripMeans(s: string)
    ensures |RStrip(s)| <= |s| && s[..|RStrip(s)|] == RStrip(s) && AllSpace(s[|RStrip(s)|..])
    ensures RStrip(s) != "" ==> !IsSpace(RStrip(s)[|RStrip(s)| - 1])
  {
    if s != "" && IsSpace(s[|s| - 1]) {
      var n := |s| - 1;
      RStripMeans(s[..n]);
      var t := RStrip(s);
      assert s[|t|..] == s[..n][|t|..] + [s[n]];
    }
  }

  lemma {:induction false} RStripIs(text: string, space: string)
    requires AllSpace(space) && text != "" && !IsSpace(text[|text| - 1])
    ensures RStrip(text + space) == text
  {
    if space == "" {
      assert text + space == text;
    } else {
      var n := |space| - 1;
      assert (text + space)[..|text + space| - 1] == text + space[..n];
      RStripIs(text, space[..n]);
    }
  }

  lemma SemicolonExactly(s: string)
    ensures RStrip(s) != "" && RStrip(s)[|RStrip(s)| - 1] == ';' <==>
      exists text, space :: s == text + ";" + space && AllSpace(space)
  {
    RStripMeans(s);
    var t := RStrip(s);
    if t != "" && t[|t| - 1] == ';' {
      assert s == t[..|t| - 1] + ";" + s[|t|..];
    }
    if text, space :| s == text + ";" + space && AllSpace(space) {
      RStripIs(text + ";", space);
    }
  }

  lemma ParenExactly(line: string)
    ensures StartsWith(LStrip(line), ")") <==> exists lead, rest :: line == lead + ")" + rest && AllSpace(lead)
  {
    SpaceRunMeans(line);
    if StartsWith(LStrip(line), ")") {
      var t := LStrip(line);
      assert t == ")" + t[1..];
      assert line == line[..SpaceRun(line)] + ")" + t[1..];
    }
    if lead, rest :| line == lead + ")" + rest && AllSpace(lead) {
      assert line == lead + (")" + rest);
      SpaceRunIs(lead, ")" + rest);
      assert (")" + rest)[..1] == ")";
    }
  }

  // A definition ends with the first line of this form.
  lemma EndExactly(line: string)
    ensures Terminates(line) <==> EndForm(line)
  {
    ParenExactly(line);
    UncommentedIs(line);
    SemicolonExactly(BeforeComment(line));
    hide Uncommented, AllSpace, RStrip, LStrip;
    if exists text, space :: Uncommented(line, text + ";" + space) && AllSpace(space) {
      var text, space :| Uncommented(line, text + ";" + space) && AllSpace(space);
      OneUncommented(line, text + ";" + space);
    }
  }
}
