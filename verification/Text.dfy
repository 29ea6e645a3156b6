// Text as the diff and DDL code sees it: lines that keep their terminator, and
// decimal numbers that are printed and parsed back.
module Text {

  datatype Option<+T> = None | Some(value: T)

  datatype Result<+T, +E> = Ok(value: T) | Err(error: E)

  // ------------------------------------------------------------ sequences

  lemma DropStep<T>(s: seq<T>, i: nat)
    requires i < |s|
    ensures s[i..] != [] && s[i..][0] == s[i] && s[i..][1..] == s[i + 1..]
  {
  }

  lemma TakeDrop<T>(s: seq<T>, n: nat)
    requires n <= |s|
    ensures s == s[..n] + s[n..]
  {
  }

  lemma Assoc<T>(a: seq<T>, b: seq<T>, c: seq<T>)
    ensures (a + b) + c == a + (b + c)
  {
  }

  lemma ConcatTail<T>(a: seq<T>, b: seq<T>)
    requires a != []
    ensures (a + b)[0] == a[0] && (a + b)[1..] == a[1..] + b
  {
  }

  lemma ConcatSplit<T>(a: seq<T>, b: seq<T>, n: nat)
    requires n <= |a|
    ensures (a + b)[..n] == a[..n] && (a + b)[n..] == a[n..] + b
  {
  }

  lemma ConcatNone<T>(a: seq<T>)
    ensures [] + a == a && a + [] == a
  {
  }

  // Ascending places in a list of n entries: those that are picked.
  predicate Picks(at: seq<nat>, n: nat) {
    && (forall k | 0 <= k < |at| :: at[k] < n)
    && (forall k, l | 0 <= k < l < |at| :: at[k] < at[l])
  }

  lemma PicksMore(at: seq<nat>, n: nat)
    requires Picks(at, n)
    ensures Picks(at, n + 1) && Picks(at + [n], n + 1)
  {
  }

  predicate NoRepeats<T(==)>(s: seq<T>) {
    forall i, j | 0 <= i < j < |s| :: s[i] != s[j]
  }

  lemma AppendOnce<T>(s: seq<T>, x: T)
    requires NoRepeats(s) && x !in s
    ensures NoRepeats(s + [x])
  {
  }

  lemma TailOnce<T>(s: seq<T>)
    requires NoRepeats(s) && s != []
    ensures NoRepeats(s[1..]) && s[0] !in s[1..]
    ensures forall x :: x in s <==> x == s[0] || x in s[1..]
  {
    assert s == [s[0]] + s[1..];
  }

  lemma InitOnce<T>(s: seq<T>)
    requires NoRepeats(s) && s != []
    ensures NoRepeats(s[..|s| - 1]) && s[|s| - 1] !in s[..|s| - 1]
    ensures forall x :: x in s <==> x in s[..|s| - 1] || x == s[|s| - 1]
  {
    assert s == s[..|s| - 1] + [s[|s| - 1]];
  }

  // ---------------------------------------------------------------- lines

  // The length of the first line of s, its newline included.
  function LineLength(s: string): (length: nat)
    requires s != ""
    ensures 1 <= length <= |s|
    ensures forall i | 0 <= i < length - 1 :: s[i] != '\n'
    ensures length < |s| ==> s[length - 1] == '\n'
  {
    if s[0] == '\n' || |s| == 1 then 1
    else
      var n := 1 + LineLength(s[1..]);
      assert forall i | 1 <= i < n - 1 :: s[i] == s[1..][i - 1];
      n
  }

  // splitlines(keepends=True), with '\n' as the only terminator.
  function Lines(s: string): seq<string>
    decreases |s|
  {
    if s == "" then [] else [s[..LineLength(s)]] + Lines(s[LineLength(s)..])
  }

  function Join(lines: seq<string>): string {
    if lines == [] then "" else lines[0] + Join(lines[1..])
  }

  function Chomp(line: string): string {
    if line != "" && line[|line| - 1] == '\n' then line[..|line| - 1] else line
  }

  predicate EndsLine(s: string) {
    s != "" && s[|s| - 1] == '\n'
  }

  predicate IsLine(line: string) {
    line != "" && '\n' !in line[..|line| - 1]
  }

  // A sequence of lines that a text can be cut into.
  predicate WellCut(lines: seq<string>) {
    && (forall i | 0 <= i < |lines| :: IsLine(lines[i]))
    && (forall i | 0 <= i < |lines| - 1 :: EndsLine(lines[i]))
  }

  lemma {:induction false} LinesAreWellCut(s: string)
    ensures WellCut(Lines(s)) && Join(Lines(s)) == s
    decreases |s|
  {
    hide WellCut, IsLine, EndsLine, LineLength;
    if s == "" {
      NothingIsWellCut();
    } else {
      var n := LineLength(s);
      var head, rest := s[..n], s[n..];
      HeadIsLine(s);
      LinesAreWellCut(rest);
      ConsWellCut(head, Lines(rest));
      TakeDrop(s, n);
    }
  }

  lemma NothingIsWellCut()
    ensures WellCut([])
  {
  }

  lemma HeadIsLine(s: string)
    requires s != ""
    ensures IsLine(s[..LineLength(s)])
    ensures LineLength(s) < |s| ==> EndsLine(s[..LineLength(s)])
  {
    hide LineLength;
    var n := LineLength(s);
    assert s[..n][..n - 1] == s[..n - 1];
  }

  lemma ConsWellCut(line: string, lines: seq<string>)
    requires IsLine(line) && WellCut(lines) && (lines == [] || EndsLine(line))
    ensures WellCut([line] + lines)
    ensures Join([line] + lines) == line + Join(lines)
  {
    assert ([line] + lines)[1..] == lines;
  }

  lemma {:induction false} CutOfJoin(lines: seq<string>)
    requires WellCut(lines)
    ensures Lines(Join(lines)) == lines
  {
    if lines != [] {
      var rest := Join(lines[1..]);
      CutOfJoin(lines[1..]);
      FirstLine(lines[0], rest);
      assert (lines[0] + rest)[|lines[0]|..] == rest;
      assert (lines[0] + rest)[..|lines[0]|] == lines[0];
    }
  }

  lemma {:induction false} FirstLine(line: string, rest: string)
    requires IsLine(line) && (rest == "" || EndsLine(line))
    ensures LineLength(line + rest) == |line|
  {
    if |line| > 1 {
      assert line[0] in line[..|line| - 1];
      assert line[1..][..|line| - 2] == line[..|line| - 1][1..];
      FirstLine(line[1..], rest);
      assert (line + rest)[1..] == line[1..] + rest;
    }
  }

  lemma {:induction false} JoinConcat(a: seq<string>, b: seq<string>)
    ensures Join(a + b) == Join(a) + Join(b)
  {
    if a == [] {
      ConcatNone(b);
      ConcatNone(Join(b));
    } else {
      JoinConcat(a[1..], b);
      ConcatTail(a, b);
      Assoc(a[0], Join(a[1..]), Join(b));
    }
  }

  lemma LinesConcat(a: string, b: string)
    requires a == "" || b == "" || EndsLine(a)
    ensures Lines(a + b) == Lines(a) + Lines(b)
  {
    ConcatNone(a);
    ConcatNone(b);
    ConcatNone(Lines(a));
    ConcatNone(Lines(b));
    if a != "" && b != "" {
      LinesAreWellCut(a);
      LinesAreWellCut(b);
      ConcatWellCut(Lines(a), Lines(b));
      CutOfJoin(Lines(a) + Lines(b));
    }
  }

  lemma ConcatWellCut(a: seq<string>, b: seq<string>)
    requires WellCut(a) && WellCut(b)
    requires a == [] || b == [] || EndsLine(Join(a))
    ensures WellCut(a + b) && Join(a + b) == Join(a) + Join(b)
  {
    JoinConcat(a, b);
    if a == [] || b == [] {
      ConcatNone(a);
      ConcatNone(b);
    } else {
      LastLine(a);
      hide Join;
      hide IsLine;
    }
  }

  lemma {:induction false} LastLine(lines: seq<string>)
    requires lines != [] && WellCut(lines)
    ensures Join(lines) != ""
    ensures EndsLine(Join(lines)) <==> EndsLine(lines[|lines| - 1])
  {
    if |lines| > 1 {
      LastLine(lines[1..]);
    }
  }

  // ------------------------------------------------------------- decimals

  predicate IsDigit(c: char) {
    '0' <= c <= '9'
  }

  predicate AllDigits(s: string) {
    forall i | 0 <= i < |s| :: IsDigit(s[i])
  }

  // str(n)
  function Dec(n: nat): string {
    if n < 10 then [('0' as int + n) as char]
    else Dec(n / 10) + [('0' as int + n % 10) as char]
  }

  // int(s) on a string of digits
  function Value(s: string): nat
    requires AllDigits(s)
  {
    if s == "" then 0
    else 10 * Value(s[..|s| - 1]) + (s[|s| - 1] as int - '0' as int)
  }

  // How many characters \d* takes.
  function DigitRun(s: string): (run: nat)
    ensures run <= |s| && forall i | 0 <= i < run :: IsDigit(s[i])
    ensures run < |s| ==> !IsDigit(s[run])
  {
    if s == "" || !IsDigit(s[0]) then 0
    else
      var n := 1 + DigitRun(s[1..]);
      assert forall i | 1 <= i < n :: s[i] == s[1..][i - 1];
      n
  }

  lemma {:induction false} DecParses(n: nat)
    ensures Dec(n) != "" && AllDigits(Dec(n)) && Value(Dec(n)) == n
  {
    if n >= 10 {
      DecParses(n / 10);
      assert Dec(n)[..|Dec(n)| - 1] == Dec(n / 10);
    }
  }

  lemma {:induction false} RunOfDigits(digits: string, rest: string)
    requires AllDigits(digits) && (rest == "" || !IsDigit(rest[0]))
    ensures DigitRun(digits + rest) == |digits|
  {
    if digits == "" {
      assert digits + rest == rest;
    } else {
      RunOfDigits(digits[1..], rest);
      assert (digits + rest)[1..] == digits[1..] + rest;
    }
  }

  // A longer number prints at least as many digits.
  lemma {:induction false} DecGrows(m: nat, n: nat)
    requires m <= n
    ensures 1 <= |Dec(m)| <= |Dec(n)|
  {
    if n >= 10 {
      DecGrows(if m < 10 then 0 else m / 10, n / 10);
    }
  }
}
