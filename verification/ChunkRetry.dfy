// Reviewing the chunks of a run with one vendor, and running again the chunks
// that failed. One run; its chunks have distinct indices.
module ChunkRetry {
  import opened Text

  datatype ChunkStatus = Done | Failed | TimedOut

  // `basis` stands for the hashes and the nonce that a chunk was reviewed under.
  datatype Prompt = Prompt(index: nat, basis: string)

  datatype Outcome = Outcome(index: nat, basis: string, status: ChunkStatus)

  datatype Phase = Review | Verify

  datatype Attempt = Attempt(number: nat, phase: Phase, chunks: seq<Outcome>)

  datatype VendorStatus = AllDone | Partial | NoneInTime | NoneDone

  // A finding as it is stored, with the chunk and the attempt it came from.
  datatype Stored = Stored(chunk: nat, attempt: nat, finding: string)

  datatype VendorRow = VendorRow(status: VendorStatus, attempts: seq<Attempt>, stored: seq<Stored>)

  datatype Answer = Answered(findings: seq<string>) | NoAnswer(inTime: bool)

  datatype Error = NewRunRequired | NotIncreasing | TooMany

  const MAX_ATTEMPTS: nat := 20

  // ------------------------------------------------------------- one vendor's run

  function OutcomeOf(p: Prompt, a: Answer): Outcome {
    Outcome(p.index, p.basis, match a case Answered(_) => Done case NoAnswer(inTime) => if inTime then Failed else TimedOut)
  }

  function Outcomes(prompts: seq<Prompt>, ask: nat -> Answer): (chunks: seq<Outcome>)
    ensures |chunks| == |prompts|
  {
    seq(|prompts|, i requires 0 <= i < |prompts| => OutcomeOf(prompts[i], ask(prompts[i].index)))
  }

  function FromChunk(index: nat, attempt: nat, a: Answer): seq<Stored> {
    match a
    case NoAnswer(_) => []
    case Answered(findings) => seq(|findings|, i requires 0 <= i < |findings| => Stored(index, attempt, findings[i]))
  }

  function FindingsOf(prompts: seq<Prompt>, ask: nat -> Answer, attempt: nat): seq<Stored> {
    if prompts == [] then []
    else
      var p := prompts[|prompts| - 1];
      FindingsOf(prompts[..|prompts| - 1], ask, attempt) + FromChunk(p.index, attempt, ask(p.index))
  }

  predicate AnyDone(chunks: seq<Outcome>) {
    exists i | 0 <= i < |chunks| :: chunks[i].status == Done
  }

  predicate EveryOne(chunks: seq<Outcome>, status: ChunkStatus) {
    forall i | 0 <= i < |chunks| :: chunks[i].status == status
  }

  function StatusOf(chunks: seq<Outcome>): VendorStatus {
    if EveryOne(chunks, Done) then AllDone
    else if AnyDone(chunks) then Partial
    else if EveryOne(chunks, TimedOut) then NoneInTime
    else NoneDone
  }

  function Count(chunks: seq<Outcome>, status: ChunkStatus): (n: nat)
    ensures n <= |chunks|
  {
    if chunks == [] then 0
    else Count(chunks[..|chunks| - 1], status) + if chunks[|chunks| - 1].status == status then 1 else 0
  }

  lemma {:induction false} CountDecides(chunks: seq<Outcome>, status: ChunkStatus)
    ensures Count(chunks, status) == |chunks| <==> EveryOne(chunks, status)
    ensures Count(chunks, status) > 0 <==> exists i | 0 <= i < |chunks| :: chunks[i].status == status
  {
    if chunks != [] {
      var n := |chunks| - 1;
      CountDecides(chunks[..n], status);
      assert forall i | 0 <= i < n :: chunks[..n][i] == chunks[i];
    }
  }

  lemma CountStep(chunks: seq<Outcome>, c: Outcome, status: ChunkStatus)
    ensures Count(chunks + [c], status) == Count(chunks, status) + if c.status == status then 1 else 0
  {
    assert (chunks + [c])[..|chunks|] == chunks;
  }

  lemma RunStep(prompts: seq<Prompt>, ask: nat -> Answer, attempt: nat, i: nat)
    requires i < |prompts|
    ensures var p := prompts[i];
      && FindingsOf(prompts[..i + 1], ask, attempt) ==
           FindingsOf(prompts[..i], ask, attempt) + FromChunk(p.index, attempt, ask(p.index))
      && Outcomes(prompts[..i + 1], ask) == Outcomes(prompts[..i], ask) + [OutcomeOf(p, ask(p.index))]
  {
    hide OutcomeOf, FromChunk;
    assert prompts[..i + 1][..i] == prompts[..i];
  }

  method RunVendor(prompts: seq<Prompt>, ask: nat -> Answer, attempt: nat)
    returns (status: VendorStatus, findings: seq<Stored>, chunks: seq<Outcome>)
    ensures chunks == Outcomes(prompts, ask) && findings == FindingsOf(prompts, ask, attempt)
    ensures status == StatusOf(chunks)
  {
    hide FindingsOf, Outcomes, Count;
    findings, chunks := [], [];
    var done, late := 0, 0;
    assert prompts[..0] == [];
    NothingRun(ask, attempt);
    for i := 0 to |prompts|
      invariant chunks == Outcomes(prompts[..i], ask) && findings == FindingsOf(prompts[..i], ask, attempt)
      invariant done == Count(chunks, Done) && late == Count(chunks, TimedOut)
    {
      var p := prompts[i];
      RunStep(prompts, ask, attempt, i);
      CountStep(chunks, OutcomeOf(p, ask(p.index)), Done);
      CountStep(chunks, OutcomeOf(p, ask(p.index)), TimedOut);
      match ask(p.index) {
        case Answered(found) =>
          findings := findings + seq(|found|, k requires 0 <= k < |found| => Stored(p.index, attempt, found[k]));
          chunks := chunks + [Outcome(p.index, p.basis, Done)];
          done := done + 1;
        case NoAnswer(inTime) =>
          ConcatNone(findings);
          chunks := chunks + [Outcome(p.index, p.basis, if inTime then Failed else TimedOut)];
          if !inTime {
            late := late + 1;
          }
      }
    }
    assert prompts[..|prompts|] == prompts;
    CountDecides(chunks, Done);
    CountDecides(chunks, TimedOut);
    if done == |chunks| {
      status := AllDone;
    } else if done > 0 {
      status := Partial;
    } else if chunks != [] && late == |chunks| {
      status := NoneInTime;
    } else {
      status := NoneDone;
    }
  }

  lemma NothingRun(ask: nat -> Answer, attempt: nat)
    ensures Outcomes([], ask) == [] && FindingsOf([], ask, attempt) == [] && forall status :: Count([], status) == 0
  {
  }

  // -------------------------------------------------------------------- attempts

  predicate Increasing(attempts: seq<Attempt>) {
    && (forall i | 0 <= i < |attempts| :: attempts[i].number >= 1)
    && (forall i, j | 0 <= i < j < |attempts| :: attempts[i].number < attempts[j].number)
  }

  // Whether stored attempts are in order, looking at each number once.
  method ValidateAttempts(attempts: seq<Attempt>) returns (ok: bool)
    ensures ok <==> Increasing(attempts) && |attempts| <= MAX_ATTEMPTS
  {
    if |attempts| > MAX_ATTEMPTS {
      return false;
    }
    var previous: nat := 0;
    for i := 0 to |attempts|
      invariant Increasing(attempts[..i])
      invariant previous == if i == 0 then 0 else attempts[i - 1].number
    {
      if attempts[i].number <= previous {
        if i > 0 {
          assert attempts[i - 1].number >= attempts[i].number;
        }
        return false;
      }
      previous := attempts[i].number;
      assert attempts[..i + 1] == attempts[..i] + [attempts[i]];
    }
    assert attempts[..|attempts|] == attempts;
    return true;
  }

  function Append(attempts: seq<Attempt>, added: seq<Attempt>): Result<seq<Attempt>, Error> {
    if !Increasing(attempts + added) then Err(NotIncreasing)
    else if |attempts + added| > MAX_ATTEMPTS then Err(TooMany)
    else Ok(attempts + added)
  }

  function Highest(attempts: seq<Attempt>): (highest: nat)
    ensures forall i | 0 <= i < |attempts| :: attempts[i].number <= highest
    ensures attempts == [] ==> highest == 0
    ensures attempts != [] ==> exists i | 0 <= i < |attempts| :: attempts[i].number == highest
  {
    if attempts == [] then 0
    else
      var n := |attempts| - 1;
      var before, last := Highest(attempts[..n]), attempts[n].number;
      assert forall i | 0 <= i < n :: attempts[..n][i] == attempts[i];
      if last > before then last else
        assert n == 0 ==> last == 0;
        before
  }

  // One more than any number used by the given vendors.
  method NextAttempt(rows: seq<VendorRow>) returns (next: nat)
    ensures next >= 1
    ensures forall r, i | 0 <= r < |rows| && 0 <= i < |rows[r].attempts| :: rows[r].attempts[i].number < next
    ensures next > 1 ==>
      exists r, i | 0 <= r < |rows| && 0 <= i < |rows[r].attempts| :: rows[r].attempts[i].number == next - 1
  {
    var maximum: nat := 0;
    for r := 0 to |rows|
      invariant forall q, i | 0 <= q < r && 0 <= i < |rows[q].attempts| :: rows[q].attempts[i].number <= maximum
      invariant maximum > 0 ==>
        exists q, i | 0 <= q < r && 0 <= i < |rows[q].attempts| :: rows[q].attempts[i].number == maximum
    {
      var highest := Highest(rows[r].attempts);
      if highest > maximum {
        maximum := highest;
      }
    }
    next := maximum + 1;
  }

  // --------------------------------------------------------- what to run again

  // The review attempt with the highest number; the first of them.
  function Latest(attempts: seq<Attempt>): Option<Attempt> {
    if attempts == [] then None
    else
      var before, last := Latest(attempts[..|attempts| - 1]), attempts[|attempts| - 1];
      if last.phase == Review && (before.None? || before.value.number < last.number) then Some(last) else before
  }

  predicate HasIndex(prompts: seq<Prompt>, index: nat) {
    exists i | 0 <= i < |prompts| :: prompts[i].index == index
  }

  // The prompt now built for a chunk; of several, the last.
  function Current(prompts: seq<Prompt>, index: nat): Option<Prompt> {
    if prompts == [] then None
    else
      var p := prompts[|prompts| - 1];
      if p.index == index then Some(p) else Current(prompts[..|prompts| - 1], index)
  }

  function Unresolved(chunks: seq<Outcome>, prompts: seq<Prompt>): Result<seq<Prompt>, Error> {
    if chunks == [] then Ok([])
    else
      var before, saved := Unresolved(chunks[..|chunks| - 1], prompts), chunks[|chunks| - 1];
      var candidate := Current(prompts, saved.index);
      if before.Err? then before
      else if candidate.None? || candidate.value.basis != saved.basis then Err(NewRunRequired)
      else if saved.status == Done then before
      else Ok(before.value + [candidate.value])
  }

  function RetryPrompts(attempts: seq<Attempt>, prompts: seq<Prompt>): Result<seq<Prompt>, Error> {
    var latest := Latest(attempts);
    if latest.None? then Err(NewRunRequired) else Unresolved(latest.value.chunks, prompts)
  }

  method RetryPromptChunks(attempts: seq<Attempt>, prompts: seq<Prompt>) returns (r: Result<seq<Prompt>, Error>)
    ensures r == RetryPrompts(attempts, prompts)
  {
    var latest := Latest(attempts);
    if latest.None? {
      return Err(NewRunRequired);
    }
    var chunks, retry: seq<Prompt> := latest.value.chunks, [];
    for i := 0 to |chunks|
      invariant Unresolved(chunks[..i], prompts) == Ok(retry)
    {
      var saved, candidate := chunks[i], Current(prompts, chunks[i].index);
      assert chunks[..i + 1][..i] == chunks[..i];
      if candidate.None? || candidate.value.basis != saved.basis {
        UnresolvedFails(chunks, prompts, i + 1);
        return Err(NewRunRequired);
      }
      if saved.status != Done {
        retry := retry + [candidate.value];
      }
    }
    assert chunks[..|chunks|] == chunks;
    return Ok(retry);
  }

  lemma {:induction false} UnresolvedFails(chunks: seq<Outcome>, prompts: seq<Prompt>, n: nat)
    requires n <= |chunks| && Unresolved(chunks[..n], prompts) == Err(NewRunRequired)
    ensures Unresolved(chunks, prompts) == Err(NewRunRequired)
    decreases |chunks| - n
  {
    if n < |chunks| {
      assert chunks[..n + 1][..n] == chunks[..n];
      UnresolvedFails(chunks, prompts, n + 1);
    } else {
      assert chunks[..n] == chunks;
    }
  }

  // ------------------------------------------------------------- the whole run

  type Vendors = map<string, VendorRow>

  type Asked = (string, nat) -> Answer

  function AskFor(ask: Asked, vendor: string): nat -> Answer {
    (i: nat) => ask(vendor, i)
  }

  function FirstRow(prompts: seq<Prompt>, ask: nat -> Answer, verify: seq<Outcome>): VendorRow {
    var chunks := Outcomes(prompts, ask);
    VendorRow(StatusOf(chunks),
              [Attempt(1, Review, chunks)] + (if verify == [] then [] else [Attempt(2, Verify, verify)]),
              FindingsOf(prompts, ask, 1))
  }

  // The first review; verifying its findings may add an attempt.
  function FirstRun(names: set<string>, prompts: seq<Prompt>, ask: Asked, verify: string -> seq<Outcome>): Vendors {
    map v <- names :: FirstRow(prompts, AskFor(ask, v), verify(v))
  }

  function FailedVendors(vendors: Vendors): set<string> {
    set v <- vendors | vendors[v].status != AllDone
  }

  function RetriedRow(row: VendorRow, again: seq<Prompt>, ask: nat -> Answer, number: nat): Result<VendorRow, Error> {
    var chunks := Outcomes(again, ask);
    var attempts := Append(row.attempts, [Attempt(number, Review, chunks)]);
    if attempts.Err? then Err(attempts.error)
    else Ok(VendorRow(StatusOf(chunks), attempts.value, row.stored + FindingsOf(again, ask, number)))
  }

  // What a retry makes of one vendor's row.
  function RowAfter(row: VendorRow, prompts: seq<Prompt>, ask: nat -> Answer, number: nat): Result<VendorRow, Error> {
    var again := RetryPrompts(row.attempts, prompts);
    if row.status == AllDone then Ok(row)
    else if again.Err? then Err(again.error)
    else if again.value == [] then Ok(row)
    else RetriedRow(row, again.value, ask, number)
  }

  predicate AnyFails(vendors: Vendors, prompts: seq<Prompt>, ask: Asked, number: nat, error: Error) {
    exists v <- vendors :: RowAfter(vendors[v], prompts, AskFor(ask, v), number) == Err(error)
  }

  function ValueOr(r: Result<VendorRow, Error>, row: VendorRow): VendorRow {
    if r.Ok? then r.value else row
  }

  // A retry: all failed vendors have to be enabled, and their chunks unchanged;
  // those with chunks left are run again, and everything is stored at once.
  function RetryRun(vendors: Vendors, enabled: set<string>, prompts: seq<Prompt>, ask: Asked, number: nat)
    : Result<Vendors, Error>
  {
    if !(FailedVendors(vendors) <= enabled) then Err(NewRunRequired)
    else if AnyFails(vendors, prompts, ask, number, NewRunRequired) then Err(NewRunRequired)
    else if AnyFails(vendors, prompts, ask, number, NotIncreasing) then Err(NotIncreasing)
    else if AnyFails(vendors, prompts, ask, number, TooMany) then Err(TooMany)
    else Ok(map v <- vendors :: ValueOr(RowAfter(vendors[v], prompts, AskFor(ask, v), number), vendors[v]))
  }
}
