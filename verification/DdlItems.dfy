// How the schema reader cuts a definition into items and reads the names in it,
// without following the scanning.
module DdlItems {
  import opened Text
  import opened Ddl
  import opened DdlParts

  // ------------------------------------------------------------------ cutting

  lemma SeparatedStep(first: string, rest: seq<string>)
    requires rest != []
    ensures Separated([first] + rest, ",") == first + "," + Separated(rest, ",")
  {
    assert ([first] + rest)[1..] == rest;
  }

  // Nothing is lost: the items with commas between them are the text.
  lemma {:induction false} SplitJoins(s: string, mode: Mode, depth: nat, item: string)
    ensures Separated(Split(s, mode, depth, item), ",") == item + s
    decreases |s|
  {
    if s == "" {
      ConcatNone(item);
    } else {
      SplitGoesOn(s, mode, depth, item);
    }
  }

  lemma {:induction false} SplitGoesOn(s: string, mode: Mode, depth: nat, item: string)
    requires s != ""
    ensures Separated(Split(s, mode, depth, item), ",") == item + s
    decreases |s|, 0
  {
    var c, rest := s[0], s[1..];
    assert s == [c] + rest;
    assert item + s == (item + [c]) + rest;
    if mode == Plain && !StartsWith(s, "--") && !StartsWith(s, "/*") && c == ',' && depth == 0 {
      SplitJoins(rest, Plain, depth, "");
      ConcatNone(rest);
      SeparatedStep(item, Split(rest, Plain, depth, ""));
      assert item + "," + rest == item + s;
    } else {
      SplitOne(s, mode, depth, item);
      var n, mode', depth' := Consumed(s, mode), NextMode(s, mode), NextDepth(s, mode, depth);
      SplitJoins(s[n..], mode', depth', item + s[..n]);
      assert item + s == (item + s[..n]) + s[n..];
    }
  }

  // How far the scan moves at once: over both characters of a comment sign or of a
  // doubled quote.
  function Consumed(s: string, mode: Mode): (n: nat)
    requires s != ""
    ensures 1 <= n <= |s| && n <= 2
  {
    match mode
    case LineComment => 1
    case BlockComment => if StartsWith(s, "*/") then 2 else 1
    case Quoted(q) => if s[0] == q && |s| > 1 && s[1] == q && q != ']' then 2 else 1
    case Plain => if StartsWith(s, "--") || StartsWith(s, "/*") then 2 else 1
  }

  function NextMode(s: string, mode: Mode): Mode
    requires s != ""
  {
    match mode
    case LineComment => if s[0] == '\n' then Plain else mode
    case BlockComment => if StartsWith(s, "*/") then Plain else mode
    case Quoted(q) => if s[0] != q || (|s| > 1 && s[1] == q && q != ']') then mode else Plain
    case Plain =>
      if StartsWith(s, "--") then LineComment
      else if StartsWith(s, "/*") then BlockComment
      else if s[0] in {'\'', '"', '`'} then Quoted(s[0])
      else if s[0] == '[' then Quoted(']') else Plain
  }

  function NextDepth(s: string, mode: Mode, depth: nat): nat
    requires s != ""
  {
    if mode != Plain then depth
    else if s[0] == '(' then depth + 1
    else if s[0] == ')' && depth > 0 then depth - 1 else depth
  }

  lemma SplitOne(s: string, mode: Mode, depth: nat, item: string)
    requires s != "" && !(mode == Plain && !StartsWith(s, "--") && !StartsWith(s, "/*") && s[0] == ',' && depth == 0)
    ensures var n := Consumed(s, mode);
      Split(s, mode, depth, item) == Split(s[n..], NextMode(s, mode), NextDepth(s, mode, depth), item + s[..n])
  {
    assert s[..1] == [s[0]];
    if |s| > 1 {
      assert s[..2] == [s[0], s[1]];
    }
  }

  // A comma outside of everything cuts.
  lemma CommaCuts(rest: string, item: string)
    ensures Split("," + rest, Plain, 0, item) == [item] + Split(rest, Plain, 0, "")
  {
    assert ("," + rest)[1..] == rest;
    if rest != "" {
      assert ("," + rest)[..2] == [',', rest[0]];
    }
  }

  lemma OneOn(c: char, rest: string)
    ensures ([c] + rest)[0] == c && ([c] + rest)[1..] == rest
  {
  }

  lemma {:induction false} QuotedBody(q: char, body: string, rest: string, depth: nat, item: string)
    requires q !in body && (q == ']' || rest == "" || rest[0] != q)
    ensures Split(body + ([q] + rest), Quoted(q), depth, item) == Split(rest, Plain, depth, item + body + [q])
  {
    if body == "" {
      ConcatNone([q] + rest);
      OneOn(q, rest);
      ConcatNone(item);
    } else {
      var c, tail := body[0], body[1..];
      assert body + ([q] + rest) == [c] + (tail + ([q] + rest));
      OneOn(c, tail + ([q] + rest));
      QuotedBody(q, tail, rest, depth, item + [c]);
      assert item + [c] + tail == item + body;
    }
  }

  // What is quoted is passed over, commas and all; so is what is in brackets.
  lemma QuotedPasses(open: char, body: string, rest: string, depth: nat, item: string)
    requires open == '\'' || open == '"' || open == '`' || open == '['
    requires var close := if open == '[' then ']' else open; close !in body && (open == '[' || rest == "" || rest[0] != close)
    ensures var close := if open == '[' then ']' else open;
      Split([open] + (body + ([close] + rest)), Plain, depth, item) ==
        Split(rest, Plain, depth, item + [open] + body + [close])
  {
    var close := if open == '[' then ']' else open;
    OneOn(open, body + ([close] + rest));
    QuotedBody(close, body, rest, depth, item + [open]);
    hide Split;
    FirstChar(open, body + ([close] + rest), depth, item);
  }

  lemma FirstChar(open: char, more: string, depth: nat, item: string)
    requires open == '\'' || open == '"' || open == '`' || open == '['
    ensures Split([open] + more, Plain, depth, item) ==
      Split(more, Quoted(if open == '[' then ']' else open), depth, item + [open])
  {
    var s := [open] + more;
    OneOn(open, more);
    if more != "" {
      assert s[..2] == [open, more[0]];
    }
  }

  // A doubled quote does not end what is quoted.
  lemma DoubledPasses(q: char, rest: string, depth: nat, item: string)
    requires q != ']'
    ensures Split([q, q] + rest, Quoted(q), depth, item) == Split(rest, Quoted(q), depth, item + [q, q])
  {
    var s := [q, q] + rest;
    assert s[0] == q && s[1..] == [q] + rest && s[2..] == rest;
  }

  lemma {:induction false} LineBody(body: string, rest: string, depth: nat, item: string)
    requires '\n' !in body
    ensures Split(body + ("\n" + rest), LineComment, depth, item) == Split(rest, Plain, depth, item + body + "\n")
  {
    if body == "" {
      ConcatNone("\n" + rest);
      OneOn('\n', rest);
      ConcatNone(item);
    } else {
      var c, tail := body[0], body[1..];
      assert body + ("\n" + rest) == [c] + (tail + ("\n" + rest));
      OneOn(c, tail + ("\n" + rest));
      LineBody(tail, rest, depth, item + [c]);
      assert item + [c] + tail == item + body;
    }
  }

  // A comment to the end of the line is passed over.
  lemma LineCommentPasses(body: string, rest: string, depth: nat, item: string)
    requires '\n' !in body
    ensures Split("--" + (body + ("\n" + rest)), Plain, depth, item) == Split(rest, Plain, depth, item + "--" + body + "\n")
  {
    var s := "--" + (body + ("\n" + rest));
    assert s[..2] == "--" && s[2..] == body + ("\n" + rest);
    LineBody(body, rest, depth, item + "--");
  }

  // No end of a block comment begins within the text.
  predicate NoBlockEnd(body: string) {
    forall i | 0 <= i < |body| :: body[i] == '*' ==> i + 1 < |body| && body[i + 1] != '/'
  }

  lemma BlockStep(c: char, tail: string, depth: nat, item: string)
    requires c == '*' ==> tail == "" || tail[0] != '/'
    ensures Split([c] + tail, BlockComment, depth, item) == Split(tail, BlockComment, depth, item + [c])
  {
    OneOn(c, tail);
    if tail != "" {
      assert ([c] + tail)[..2] == [c, tail[0]];
    }
  }

  lemma {:induction false} BlockBody(body: string, rest: string, depth: nat, item: string)
    requires NoBlockEnd(body)
    ensures Split(body + ("*/" + rest), BlockComment, depth, item) == Split(rest, Plain, depth, item + body + "*/")
  {
    if body == "" {
      ConcatNone("*/" + rest);
      assert ("*/" + rest)[..2] == "*/" && ("*/" + rest)[2..] == rest;
      ConcatNone(item);
    } else {
      var c, tail := body[0], body[1..];
      hide Split;
      assert body + ("*/" + rest) == [c] + (tail + ("*/" + rest));
      assert forall i | 0 <= i < |tail| :: tail[i] == body[i + 1];
      assert tail != "" ==> (tail + ("*/" + rest))[0] == body[1];
      BlockStep(c, tail + ("*/" + rest), depth, item);
      BlockBody(tail, rest, depth, item + [c]);
      assert item + [c] + tail == item + body;
    }
  }

  // A block comment is passed over.
  lemma BlockCommentPasses(body: string, rest: string, depth: nat, item: string)
    requires NoBlockEnd(body)
    ensures Split("/*" + (body + ("*/" + rest)), Plain, depth, item) == Split(rest, Plain, depth, item + "/*" + body + "*/")
  {
    var s := "/*" + (body + ("*/" + rest));
    assert s[..2] == "/*" && s[2..] == body + ("*/" + rest);
    BlockBody(body, rest, depth, item + "/*");
  }

  // A character that opens or closes nothing.
  predicate Inert(c: char) {
    c != '\'' && c != '"' && c != '`' && c != '[' && c != '(' && c != ')' && c != '-' && c != '/'
  }

  lemma InertStep(c: char, rest: string, depth: nat, item: string)
    requires Inert(c) && (c != ',' || depth > 0)
    ensures Split([c] + rest, Plain, depth, item) == Split(rest, Plain, depth, item + [c])
  {
    OneOn(c, rest);
    if rest != "" {
      assert ([c] + rest)[..2] == [c, rest[0]];
    }
  }

  lemma {:induction false} InertPasses(body: string, rest: string, depth: nat, item: string)
    requires forall i | 0 <= i < |body| :: Inert(body[i]) && (body[i] != ',' || depth > 0)
    ensures Split(body + rest, Plain, depth, item) == Split(rest, Plain, depth, item + body)
  {
    hide Split;
    if body == "" {
      ConcatNone(rest);
      ConcatNone(item);
    } else {
      var c, tail := body[0], body[1..];
      assert body + rest == [c] + (tail + rest);
      assert forall i | 0 <= i < |tail| :: tail[i] == body[i + 1];
      InertStep(c, tail + rest, depth, item);
      InertPasses(tail, rest, depth, item + [c]);
      assert item + [c] + tail == item + body;
    }
  }

  lemma ParenStep(rest: string, depth: nat, item: string)
    ensures Split("(" + rest, Plain, depth, item) == Split(rest, Plain, depth + 1, item + "(")
    ensures Split(")" + rest, Plain, depth + 1, item) == Split(rest, Plain, depth, item + ")")
    ensures Split(")" + rest, Plain, 0, item) == Split(rest, Plain, 0, item + ")")
  {
    OneOn('(', rest);
    OneOn(')', rest);
    if rest != "" {
      assert ("(" + rest)[..2] == ['(', rest[0]];
      assert (")" + rest)[..2] == [')', rest[0]];
    }
  }

  // What is in parentheses is passed over, commas and all, at any depth.
  lemma ParensPass(body: string, rest: string, depth: nat, item: string)
    requires forall i | 0 <= i < |body| :: Inert(body[i])
    ensures Split("(" + (body + (")" + rest)), Plain, depth, item) == Split(rest, Plain, depth, item + "(" + body + ")")
  {
    hide Split;
    ParenStep(body + (")" + rest), depth, item);
    InertPasses(body, ")" + rest, depth + 1, item + "(");
    ParenStep(rest, depth, item + "(" + body);
  }

  // -------------------------------------------------------- comments before an item

  lemma SpacedStrip(space: string, text: string)
    requires AllSpace(space) && text != "" && !IsSpace(text[0])
    ensures LStrip(space + text) == text
  {
    SpaceRunIs(space, text);
  }

  lemma {:induction false} LineEnds(body: string, rest: string)
    requires '\n' !in body
    ensures AfterLine(body + ("\n" + rest)) == Some(rest)
  {
    if body == "" {
      ConcatNone("\n" + rest);
      OneOn('\n', rest);
    } else {
      assert body + ("\n" + rest) == [body[0]] + (body[1..] + ("\n" + rest));
      OneOn(body[0], body[1..] + ("\n" + rest));
      LineEnds(body[1..], rest);
    }
  }

  lemma {:induction false} NoLineEnds(body: string)
    requires '\n' !in body
    ensures AfterLine(body) == None
  {
    if body != "" {
      NoLineEnds(body[1..]);
    }
  }

  lemma {:induction false} BlockEnds(body: string, rest: string)
    requires NoBlockEnd(body)
    ensures AfterBlock(body + ("*/" + rest)) == Some(rest)
  {
    if body == "" {
      ConcatNone("*/" + rest);
      assert ("*/" + rest)[..2] == "*/" && ("*/" + rest)[2..] == rest;
    } else {
      var tail := body[1..];
      var s := body + ("*/" + rest);
      assert s == [body[0]] + (tail + ("*/" + rest));
      OneOn(body[0], tail + ("*/" + rest));
      assert forall i | 0 <= i < |tail| :: tail[i] == body[i + 1];
      assert s[..2] == [s[0], s[1]];
      assert tail != "" ==> s[1] == body[1];
      BlockEnds(tail, rest);
    }
  }

  // Comments in front of an item are skipped, and nothing else but white space is.
  lemma CommentsSkipped(space: string, body: string, rest: string)
    requires AllSpace(space)
    ensures '\n' !in body ==> AfterComments(space + ("--" + (body + ("\n" + rest)))) == AfterComments(rest)
    ensures '\n' !in body ==> AfterComments(space + ("--" + body)) == ""
    ensures NoBlockEnd(body) ==> AfterComments(space + ("/*" + (body + ("*/" + rest)))) == AfterComments(rest)
  {
    if '\n' !in body {
      LineSkipped(space, body, rest);
    }
    if NoBlockEnd(body) {
      BlockSkipped(space, body, rest);
    }
  }

  lemma LineSkipped(space: string, body: string, rest: string)
    requires AllSpace(space) && '\n' !in body
    ensures AfterComments(space + ("--" + (body + ("\n" + rest)))) == AfterComments(rest)
    ensures AfterComments(space + ("--" + body)) == ""
  {
    hide SpaceRun, LStrip, AfterLine;
    var text := "--" + (body + ("\n" + rest));
    SpacedStrip(space, text);
    assert text[..2] == "--";
    assert text == ("--" + body) + ("\n" + rest);
    LineEnds("--" + body, rest);
    SpacedStrip(space, "--" + body);
    assert ("--" + body)[..2] == "--";
    NoLineEnds("--" + body);
  }

  lemma BlockSkipped(space: string, body: string, rest: string)
    requires AllSpace(space) && NoBlockEnd(body)
    ensures AfterComments(space + ("/*" + (body + ("*/" + rest)))) == AfterComments(rest)
  {
    hide SpaceRun, LStrip, AfterBlock;
    var text := "/*" + (body + ("*/" + rest));
    SpacedStrip(space, text);
    assert text[..2] == "/*" && text[2..] == body + ("*/" + rest);
    BlockEnds(body, rest);
  }

  lemma NothingSkipped(space: string, text: string)
    requires AllSpace(space) && text != "" && !IsSpace(text[0]) && !StartsWith(text, "--") && !StartsWith(text, "/*")
    ensures AfterComments(space + text) == text
  {
    hide SpaceRun;
    SpacedStrip(space, text);
  }

  // ------------------------------------------------------------------- columns

  predicate IsConstraintWord(s: string) {
    || s == "constraint" || s == "primary" || s == "foreign" || s == "unique"
    || s == "check" || s == "key" || s == "index" || s == "exclude"
  }

  predicate Quotes(open: char, close: char) {
    (open == '`' && close == '`') || (open == '"' && close == '"') || (open == '[' && close == ']')
  }

  lemma QuotedNormal(open: char, name: string, close: char)
    requires Quotes(open, close)
    ensures NormalizeIdentifier([open] + name + [close]) == Fold(name)
  {
    var raw := [open] + name + [close];
    NothingToStrip(raw);
    assert raw[1..|raw| - 1] == name;
  }

  // An item that starts with a quoted name is a column of this name, in lower case,
  // whatever follows; unless the name is a word that starts a constraint.
  lemma QuotedColumn(item: string, open: char, name: string, close: char, rest: string)
    requires Quotes(open, close) && name != "" && close !in name
    requires AfterComments(item) == [open] + (name + ([close] + rest))
    ensures ItemColumn(item) == if IsConstraintWord(Fold(name)) then None else Some(Fold(name))
  {
    hide NormalizeIdentifier, AfterComments, Fold;
    var s := [open] + (name + ([close] + rest));
    OneOn(open, name + ([close] + rest));
    UntilIs(name, close, rest);
    assert name + ([close] + rest) == name + [close] + rest;
    assert s[..|name| + 2] == [open] + name + [close];
    QuotedNormal(open, name, close);
    ConstraintWords(Fold(name));
  }

  lemma ConstraintWords(s: string)
    ensures s in CONSTRAINTS <==> IsConstraintWord(s)
  {
  }

  predicate NameChar(c: char) {
    IsWord(c) || c == '$'
  }

  lemma {:induction false} NameRunIs(name: string, rest: string)
    requires (forall i | 0 <= i < |name| :: NameChar(name[i])) && (rest == "" || !NameChar(rest[0]))
    ensures NameRun(name + rest) == |name|
  {
    if name == "" {
      ConcatNone(rest);
    } else {
      ConcatTail(name, rest);
      NameRunIs(name[1..], rest);
    }
  }

  lemma PlainNormal(name: string)
    requires name != "" && forall i | 0 <= i < |name| :: NameChar(name[i])
    ensures NormalizeIdentifier(name) == Fold(name)
  {
    assert NameChar(name[0]) && NameChar(name[|name| - 1]);
    NothingToStrip(name);
  }

  // The same for a plain name, which is as long as it can be.
  lemma PlainColumn(item: string, name: string, rest: string)
    requires name != "" && (IsLetter(name[0]) || name[0] == '_') && forall i | 0 <= i < |name| :: NameChar(name[i])
    requires rest == "" || !NameChar(rest[0])
    requires AfterComments(item) == name + rest
    ensures ItemColumn(item) == if IsConstraintWord(Fold(name)) then None else Some(Fold(name))
  {
    hide NormalizeIdentifier, AfterComments, Fold, NameRun;
    NameRunIs(name, rest);
    PlainNormal(name);
    assert (name + rest)[..|name|] == name && (name + rest)[0] == name[0];
    ConstraintWords(Fold(name));
  }

  // Nothing else is a column.
  lemma NoColumn(item: string)
    requires var s := AfterComments(item);
      || s == ""
      || (!IsLetter(s[0]) && s[0] !in {'_', '`', '"', '['})
      || (s[0] in {'`', '"', '['} && (var close := if s[0] == '[' then ']' else s[0]; close !in s[1..] || s[1] == close))
    ensures ItemColumn(item) == None
  {
    hide AfterComments, NormalizeIdentifier;
    var s := AfterComments(item);
    if s != "" && s[0] in {'`', '"', '['} {
      var close := if s[0] == '[' then ']' else s[0];
      var n := Until(s[1..], close);
      assert n < |s[1..]| ==> s[1..][n] in s[1..];
    }
  }

  // The columns are those of the items between the first opening and the last
  // closing parenthesis.
  lemma StatementExactly(before: string, inside: string, after: string)
    requires '(' !in before && ')' !in after
    ensures StatementColumns(before + ("(" + (inside + (")" + after)))) == ColumnsIn(Split(inside, Plain, 0, ""))
  {
    hide Until, LastPlace, ColumnsIn, Split;
    var s := before + ("(" + (inside + (")" + after)));
    var rest := inside + (")" + after);
    assert s == before + "(" + rest;
    UntilIs(before, '(', rest);
    assert s == (before + "(" + inside) + ")" + after;
    LastPlaceIs(before + "(" + inside, ')', after);
    assert s[|before| + 1..|before + "(" + inside|] == inside;
  }

  lemma {:induction false} NotBefore(before: string, rest: string, c: char)
    requires c !in before
    ensures Until(before + rest, c) >= |before|
  {
    if before != "" {
      ConcatTail(before, rest);
      NotBefore(before[1..], rest, c);
    }
  }

  lemma {:induction false} NotBehind(before: string, rest: string, c: char)
    requires c !in rest
    ensures LastPlace(before + rest, c) < |before| || LastPlace(before + rest, c) == |before + rest|
  {
    if rest == "" {
      assert before + rest == before;
    } else {
      var n := |rest| - 1;
      var s := before + rest;
      assert s[|s| - 1] == rest[n] && s[..|s| - 1] == before + rest[..n];
      NotBehind(before, rest[..n], c);
    }
  }

  // There are none when no closing parenthesis follows an opening one.
  lemma NoStatement(before: string, rest: string)
    requires '(' !in before && ')' !in rest
    ensures StatementColumns(before + rest) == {}
  {
    hide Until, LastPlace, ColumnsIn, Split;
    NotBefore(before, rest, '(');
    NotBehind(before, rest, ')');
  }

  // -------------------------------------------------------------------- names

  // Outside white space and one pair of quotes or brackets are left off.
  lemma NormalExactly(space: string, core: string, more: string)
    requires AllSpace(space) && AllSpace(more) && core != "" && !IsSpace(core[0]) && !IsSpace(core[|core| - 1])
    ensures NormalizeIdentifier(space + core + more) ==
      if |core| >= 2 && Quotes(core[0], core[|core| - 1]) then Fold(core[1..|core| - 1]) else Fold(core)
  {
    assert space + core + more == space + (core + more);
    SpaceRunIs(space, core + more);
    StripEnd(core, more);
    hide LStrip, RStrip;
  }

  lemma {:induction false} StripEnd(core: string, more: string)
    requires AllSpace(more) && core != "" && !IsSpace(core[|core| - 1])
    ensures RStrip(core + more) == core
  {
    if more == "" {
      ConcatNone(core);
    } else {
      var n := |more| - 1;
      assert (core + more)[..|core + more| - 1] == core + more[..n];
      StripEnd(core, more[..n]);
    }
  }

  lemma {:induction false} LastSegment(a: string, b: string)
    requires '.' !in b
    ensures AfterDot(a + "." + b) == b && AfterDot(b) == b
  {
    var s := a + "." + b;
    assert s[|a|] == '.';
    if b != "" {
      var n := |b| - 1;
      assert s[|s| - 1] == b[n] && s[..|s| - 1] == a + "." + b[..n];
      assert b[n] in b;
      LastSegment(a, b[..n]);
    }
  }

  lemma {:induction false} QuotesOff(left: string, core: string, right: string)
    requires forall i | 0 <= i < |left| :: left[i] in {'`', '"', '[', ']', ' '}
    requires forall i | 0 <= i < |right| :: right[i] in {'`', '"', '[', ']', ' '}
    requires core == "" || (core[0] !in {'`', '"', '[', ']', ' '} && core[|core| - 1] !in {'`', '"', '[', ']', ' '})
    ensures Unquoted(left + core + right) == core
    decreases |left| + |right|
  {
    var s := left + core + right;
    if left != "" {
      assert s[0] == left[0] && s[1..] == left[1..] + core + right;
      QuotesOff(left[1..], core, right);
    } else if core == "" {
      assert s == right;
      if right != "" {
        assert s[1..] == "" + "" + right[1..];
        QuotesOff("", "", right[1..]);
      }
    } else if right != "" {
      var n := |right| - 1;
      assert s[0] == core[0] && s[|s| - 1] == right[n] && s[..|s| - 1] == left + core + right[..n];
      QuotesOff(left, core, right[..n]);
    } else {
      assert s == core;
    }
  }

  // A table is kept under its name, and under its schema as well when the header
  // names one and the same table.
  lemma KeysExactly(name: string, statement: string, schema: string, table: string)
    requires '.' !in schema
    ensures Header(statement) == Some(schema + "." + table) ==>
      CatalogKeys(name, statement) ==
        if NormalizeIdentifier(table) == NormalizeIdentifier(name)
        then {NormalizeIdentifier(name), NormalizeIdentifier(schema) + "." + NormalizeIdentifier(name)}
        else {NormalizeIdentifier(name)}
    ensures Header(statement) == None || '.' !in Header(statement).value ==>
      CatalogKeys(name, statement) == {NormalizeIdentifier(name)}
  {
    hide Header, NormalizeIdentifier, Until;
    if Header(statement) == Some(schema + "." + table) {
      UntilIs(schema, '.', table);
      var h := schema + "." + table;
      assert h[|schema|] == '.';
      assert h[..|schema|] == schema && h[|schema| + 1..] == table;
    }
  }
}
