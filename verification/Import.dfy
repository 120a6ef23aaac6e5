/**
 * Batch import of provider keys (internal/service/import.go): one pass over the
 * lines of a text, then one insert per accepted line. The fingerprint of a
 * secret is a parameter.
 */
module Import {
  import opened Basics
  import opened Text

  type Fingerprint = string -> string

  /** A row of the provider's keys. */
  datatype StoredKey = StoredKey(name: string, mark: string, sortOrder: int)

  const MAX_INT: int := 0x7fff_ffff_ffff_ffff
  const WIDTH: int := 0x1_0000_0000_0000_0000

  /** A count that has grown past the largest integer starts again from the smallest. */
  function Wrapped(n: nat): int {
    if n <= MAX_INT then n else (n - MAX_INT - 1) % WIDTH - MAX_INT - 1
  }

  // ----- Lines -----

  /** The pieces between line feeds; always one more than there are line feeds. */
  function Lines(text: string): (lines: seq<string>)
    ensures lines != []
  {
    if text == "" then [""]
    else
      var rest := Lines(text[1..]);
      if text[0] == '\n' then [""] + rest else [[text[0]] + rest[0]] + rest[1..]
  }

  function Unlines(lines: seq<string>): string
    requires lines != []
  {
    if |lines| == 1 then lines[0] else lines[0] + "\n" + Unlines(lines[1..])
  }

  /** The lines are the text cut at its line feeds, and at nothing else. */
  lemma {:induction false} LinesJoin(text: string)
    ensures Unlines(Lines(text)) == text
    ensures forall i :: 0 <= i < |Lines(text)| ==> '\n' !in Lines(text)[i]
  {
    if text != "" {
      LinesJoin(text[1..]);
      var rest := Lines(text[1..]);
      if text[0] == '\n' {
        assert Lines(text)[1..] == rest;
      } else {
        assert Lines(text)[1..] == rest[1..];
      }
    }
  }

  /** A line that is not blank: its number, the name before the first bar if there is a bar, the rest. */
  datatype Candidate = Candidate(line: nat, name: string, secret: string)

  function BarAt(line: string): (k: nat)
    ensures k <= |line| && (k < |line| ==> line[k] == '|')
    ensures forall i :: 0 <= i < k ==> line[i] != '|'
  {
    if line == "" || line[0] == '|' then 0 else 1 + BarAt(line[1..])
  }

  function Parsed(number: nat, raw: string): Candidate {
    var line := TrimSpace(raw);
    var bar := BarAt(line);
    if bar < |line| then Candidate(number, TrimSpace(line[..bar]), TrimSpace(line[bar + 1..]))
    else Candidate(number, "", line)
  }

  function Candidates(lines: seq<string>): seq<Candidate> {
    if lines == [] then []
    else
      var last := lines[|lines| - 1];
      Candidates(lines[..|lines| - 1]) + if Blank(last) then [] else [Parsed(|lines|, last)]
  }

  // ----- Numbers in names -----

  /** White space as the name pattern knows it. */
  const IS_PATTERN_SPACE: CharTest := (c: char) => c == ' ' || c == '\t' || c == '\n' || c == '\U{0C}' || c == '\r'

  /** The number of a name of the form "Key n". */
  function KeyNumber(name: string): Option<nat> {
    if |name| < 3 || name[..3] != "Key" then None
    else
      var rest := name[3..];
      var digits := TrimLeft(rest, IS_PATTERN_SPACE);
      if |digits| < |rest| && Digits(digits) then Some(Value(digits)) else None
  }

  /** The numbers that count: those that fit an integer. */
  function CountedNumber(name: string): Option<nat> {
    var n := KeyNumber(name);
    if n.Some? && n.value <= MAX_INT then n else None
  }

  function AutoName(n: int): string {
    "Key " + SignedDecimal(n)
  }

  lemma DigitsNameReads(d: string)
    requires Digits(d)
    ensures KeyNumber("Key " + d) == Some(Value(d))
  {
    var name := "Key " + d;
    assert IsDigit(d[0]);
    var rest := name[3..];
    assert name[..3] == "Key" && rest[0] == ' ' && rest[1..] == d;
    assert TrimLeft(rest, IS_PATTERN_SPACE) == TrimLeft(d, IS_PATTERN_SPACE) == d;
  }

  lemma AutoNameReads(n: nat)
    ensures KeyNumber(AutoName(n)) == Some(n)
  {
    DecimalReads(n);
    DigitsNameReads(Decimal(n));
  }

  /** `n` is the largest counted number among the names, 0 if there is none. */
  ghost predicate IsLargestNumber(keys: seq<StoredKey>, n: nat) {
    && n <= MAX_INT
    && (forall k :: k in keys && CountedNumber(k.name).Some? ==> CountedNumber(k.name).value <= n)
    && (n > 0 ==> exists k :: k in keys && CountedNumber(k.name) == Some(n))
  }

  function LargestNumber(keys: seq<StoredKey>): (n: nat)
    ensures IsLargestNumber(keys, n)
  {
    if keys == [] then 0
    else
      var front, last := keys[..|keys| - 1], keys[|keys| - 1];
      var before, number := LargestNumber(front), CountedNumber(last.name);
      assert keys == front + [last];
      if number.Some? && number.value > before then
        assert last in keys;
        number.value
      else before
  }

  // ----- Which lines are accepted -----

  datatype EntryError = NoError | EmptySecret | AlreadyStored | InBatch(line: nat)

  datatype Entry = Entry(line: nat, name: string, error: EntryError) {
    predicate Valid() {
      error.NoError?
    }
  }

  datatype Accepted = Accepted(name: string, secret: string, mark: string)

  /** What the pass is given: the stored fingerprints, and the largest stored number. */
  datatype Context = Context(fp: Fingerprint, stored: set<string>, maxN: nat)

  predicate SameMark(cx: Context, a: Candidate, b: Candidate) {
    a.secret != "" && cx.fp(a.secret) == cx.fp(b.secret)
  }

  /** A line is accepted when it has a secret that is neither stored nor on an earlier line. */
  predicate IsNew(cx: Context, before: seq<Candidate>, c: Candidate) {
    c.secret != "" && cx.fp(c.secret) !in cx.stored && forall j :: 0 <= j < |before| ==> !SameMark(cx, before[j], c)
  }

  ghost predicate IsFirst(cx: Context, before: seq<Candidate>, c: Candidate, j: int) {
    0 <= j < |before| && SameMark(cx, before[j], c) && forall i :: 0 <= i < j ==> !SameMark(cx, before[i], c)
  }

  /** The first earlier line with this fingerprint; 0 when there is none. */
  function FirstLine(cx: Context, before: seq<Candidate>, c: Candidate): nat {
    if before == [] then 0
    else if SameMark(cx, before[0], c) then before[0].line
    else FirstLine(cx, before[1..], c)
  }

  lemma {:induction false} FirstLineIs(cx: Context, before: seq<Candidate>, c: Candidate, j: nat)
    requires IsFirst(cx, before, c, j)
    ensures FirstLine(cx, before, c) == before[j].line
  {
    if j > 0 {
      var rest := before[1..];
      assert !SameMark(cx, before[0], c);
      assert IsFirst(cx, rest, c, j - 1) by {
        forall i | 0 <= i < j - 1 ensures !SameMark(cx, rest[i], c) {
          assert rest[i] == before[i + 1];
        }
      }
      FirstLineIs(cx, rest, c, j - 1);
    }
  }

  predicate TakesAutoName(cx: Context, before: seq<Candidate>, c: Candidate) {
    IsNew(cx, before, c) && c.name == ""
  }

  /** How many names have been generated. */
  function Generated(cx: Context, cands: seq<Candidate>): nat {
    if cands == [] then 0
    else
      var front := cands[..|cands| - 1];
      Generated(cx, front) + if TakesAutoName(cx, front, cands[|cands| - 1]) then 1 else 0
  }

  function NameFor(cx: Context, before: seq<Candidate>, c: Candidate): string {
    if TakesAutoName(cx, before, c) then AutoName(Wrapped(cx.maxN + Generated(cx, before) + 1)) else c.name
  }

  function EntryFor(cx: Context, before: seq<Candidate>, c: Candidate): Entry {
    Entry(c.line, NameFor(cx, before, c),
      if c.secret == "" then EmptySecret
      else if cx.fp(c.secret) in cx.stored then AlreadyStored
      else if IsNew(cx, before, c) then NoError
      else InBatch(FirstLine(cx, before, c)))
  }

  function Entries(cx: Context, cands: seq<Candidate>): (r: seq<Entry>)
    ensures |r| == |cands|
  {
    if cands == [] then []
    else
      var front, last := cands[..|cands| - 1], cands[|cands| - 1];
      Entries(cx, front) + [EntryFor(cx, front, last)]
  }

  function AcceptedKeys(cx: Context, cands: seq<Candidate>): seq<Accepted> {
    if cands == [] then []
    else
      var front, last := cands[..|cands| - 1], cands[|cands| - 1];
      AcceptedKeys(cx, front) +
        if IsNew(cx, front, last) then [Accepted(NameFor(cx, front, last), last.secret, cx.fp(last.secret))] else []
  }

  // ----- The pass -----

  datatype Result = Result(total: int, valid: int, invalid: int, entries: seq<Entry>)

  /** Every candidate is reported; those not accepted are invalid. */
  function Report(cx: Context, cands: seq<Candidate>): Result {
    Result(|cands|, |AcceptedKeys(cx, cands)|, |cands| - |AcceptedKeys(cx, cands)|, Entries(cx, cands))
  }

  /** The batch map: every fingerprint so far that is not stored, with the line it was first seen on. */
  ghost predicate IsBatch(cx: Context, cands: seq<Candidate>, batch: map<string, nat>) {
    && (forall j :: 0 <= j < |cands| ==> Recorded(cx, batch, cands[j]))
    && forall mark :: mark in batch ==> mark !in cx.stored && Leads(cx, cands, mark, batch[mark])
  }

  predicate Recorded(cx: Context, batch: map<string, nat>, c: Candidate) {
    c.secret == "" || cx.fp(c.secret) in cx.stored || cx.fp(c.secret) in batch
  }

  predicate Bears(cx: Context, c: Candidate, mark: string) {
    c.secret != "" && cx.fp(c.secret) == mark
  }

  /** The first candidate that bears the mark is on this line. */
  ghost predicate Leads(cx: Context, cands: seq<Candidate>, mark: string, line: nat) {
    exists j :: 0 <= j < |cands| && Bears(cx, cands[j], mark) && cands[j].line == line && Unseen(cx, cands[..j], mark)
  }

  ghost predicate Unseen(cx: Context, cands: seq<Candidate>, mark: string) {
    forall i :: 0 <= i < |cands| ==> !Bears(cx, cands[i], mark)
  }

  lemma LeadsMore(cx: Context, cands: seq<Candidate>, c: Candidate, mark: string, line: nat)
    requires Leads(cx, cands, mark, line)
    ensures Leads(cx, cands + [c], mark, line)
  {
    var j :| 0 <= j < |cands| && Bears(cx, cands[j], mark) && cands[j].line == line && Unseen(cx, cands[..j], mark);
    var more := cands + [c];
    assert more[j] == cands[j] && more[..j] == cands[..j];
  }

  lemma BatchSkips(cx: Context, cands: seq<Candidate>, batch: map<string, nat>, c: Candidate)
    requires IsBatch(cx, cands, batch) && Recorded(cx, batch, c)
    ensures IsBatch(cx, cands + [c], batch)
  {
    forall mark | mark in batch ensures Leads(cx, cands + [c], mark, batch[mark]) {
      LeadsMore(cx, cands, c, mark, batch[mark]);
    }
  }

  lemma BatchTakes(cx: Context, cands: seq<Candidate>, batch: map<string, nat>, c: Candidate)
    requires IsBatch(cx, cands, batch) && IsNew(cx, cands, c)
    ensures IsBatch(cx, cands + [c], batch[cx.fp(c.secret) := c.line])
  {
    var more, own := cands + [c], cx.fp(c.secret);
    var batch' := batch[own := c.line];
    forall mark | mark in batch' ensures mark !in cx.stored && Leads(cx, more, mark, batch'[mark]) {
      if mark == own {
        assert more[|cands|] == c && more[..|cands|] == cands;
        forall i | 0 <= i < |cands| ensures !Bears(cx, cands[i], own) {
          assert !SameMark(cx, cands[i], c);
        }
        assert Unseen(cx, cands, own);
      } else {
        LeadsMore(cx, cands, c, mark, batch[mark]);
      }
    }
    forall j | 0 <= j < |more| ensures Recorded(cx, batch', more[j]) {
      if j < |cands| { assert Recorded(cx, batch, cands[j]) && more[j] == cands[j]; }
    }
  }

  /** The batch map tells exactly what the definitions above ask. */
  lemma BatchDecides(cx: Context, cands: seq<Candidate>, batch: map<string, nat>, c: Candidate)
    requires IsBatch(cx, cands, batch) && c.secret != "" && cx.fp(c.secret) !in cx.stored
    ensures cx.fp(c.secret) !in batch <==> IsNew(cx, cands, c)
    ensures cx.fp(c.secret) in batch ==> batch[cx.fp(c.secret)] == FirstLine(cx, cands, c)
  {
    var mark := cx.fp(c.secret);
    if mark in batch {
      var j :| 0 <= j < |cands| && Bears(cx, cands[j], mark) && cands[j].line == batch[mark] &&
        Unseen(cx, cands[..j], mark);
      assert SameMark(cx, cands[j], c);
      forall i | 0 <= i < j ensures !SameMark(cx, cands[i], c) {
        assert !Bears(cx, cands[..j][i], mark);
      }
      FirstLineIs(cx, cands, c, j);
    } else {
      forall j | 0 <= j < |cands| ensures !SameMark(cx, cands[j], c) {
        assert Recorded(cx, batch, cands[j]);
      }
    }
  }

  method Parse(number: nat, raw: string) returns (c: Option<Candidate>)
    ensures c == if Blank(raw) then None else Some(Parsed(number, raw))
  {
    var line := TrimSpace(raw);
    if line == "" { return None; }
    var name, secret := "", line;
    var bar := 0;
    while bar < |line| && line[bar] != '|'
      invariant bar <= |line| && forall i :: 0 <= i < bar ==> line[i] != '|'
    {
      bar := bar + 1;
    }
    assert bar == BarAt(line);
    if bar < |line| { name, secret := TrimSpace(line[..bar]), TrimSpace(line[bar + 1..]); }
    c := Some(Candidate(number, name, secret));
  }

  /** What the loop holds after these candidates. */
  ghost predicate Holds(cx: Context, cands: seq<Candidate>, entries: seq<Entry>, accepted: seq<Accepted>,
      batch: map<string, nat>, nextAutoNum: int) {
    && entries == Entries(cx, cands) && accepted == AcceptedKeys(cx, cands)
    && IsBatch(cx, cands, batch) && nextAutoNum == Wrapped(cx.maxN + Generated(cx, cands))
  }

  lemma HoldsAtFirst(cx: Context)
    requires cx.maxN <= MAX_INT
    ensures Holds(cx, Candidates([]), [], [], map[], cx.maxN)
  {
  }

  lemma CandidatesNext(lines: seq<string>, idx: nat)
    requires idx < |lines|
    ensures Candidates(lines[..idx + 1]) ==
      if Blank(lines[idx]) then Candidates(lines[..idx]) else Candidates(lines[..idx]) + [Parsed(idx + 1, lines[idx])]
  {
    var more := lines[..idx + 1];
    assert more[..|more| - 1] == lines[..idx];
    assert Candidates(lines[..idx]) + [] == Candidates(lines[..idx]);
  }

  method ParseBatch(cx: Context, text: string) returns (result: Result, accepted: seq<Accepted>)
    requires cx.maxN <= MAX_INT
    ensures accepted == AcceptedKeys(cx, Candidates(Lines(text)))
    ensures result == Report(cx, Candidates(Lines(text)))
  {
    var lines := Lines(text);
    var entries: seq<Entry> := [];
    var batch: map<string, nat> := map[];
    var nextAutoNum := cx.maxN as int;
    accepted := [];
    HoldsAtFirst(cx);
    assert lines[..0] == [];
    for idx := 0 to |lines|
      invariant Holds(cx, Candidates(lines[..idx]), entries, accepted, batch, nextAutoNum)
    {
      ghost var cands := Candidates(lines[..idx]);
      CandidatesNext(lines, idx);
      var c := Parse(idx + 1, lines[idx]);
      if c.None? { continue; }
      entries, accepted, batch, nextAutoNum := Take(cx, cands, c.value, entries, accepted, batch, nextAutoNum);
    }
    assert lines[..|lines|] == lines;
    result := Result(|entries|, |accepted|, |entries| - |accepted|, entries);
  }

  method Take(cx: Context, ghost cands: seq<Candidate>, c: Candidate, entries: seq<Entry>, accepted: seq<Accepted>,
      batch: map<string, nat>, nextAutoNum: int)
    returns (entries': seq<Entry>, accepted': seq<Accepted>, batch': map<string, nat>, nextAutoNum': int)
    requires Holds(cx, cands, entries, accepted, batch, nextAutoNum)
    ensures Holds(cx, cands + [c], entries', accepted', batch', nextAutoNum')
  {
    var entry, key;
    entry, key, batch', nextAutoNum' := Decide(cx, cands, c, batch, nextAutoNum);
    entries', accepted' := entries + [entry], accepted;
    if key.Some? { accepted' := accepted + [key.value]; }
    OneMore(cx, cands, c);
  }

  /** What one more candidate adds. */
  lemma OneMore(cx: Context, cands: seq<Candidate>, c: Candidate)
    ensures Entries(cx, cands + [c]) == Entries(cx, cands) + [EntryFor(cx, cands, c)]
    ensures
      AcceptedKeys(cx, cands + [c]) == AcceptedKeys(cx, cands) +
        if IsNew(cx, cands, c) then [Accepted(NameFor(cx, cands, c), c.secret, cx.fp(c.secret))] else []
    ensures Generated(cx, cands + [c]) == Generated(cx, cands) + if TakesAutoName(cx, cands, c) then 1 else 0
  {
    assert (cands + [c])[..|cands|] == cands;
  }

  /** One line against what has been seen. */
  method Decide(cx: Context, ghost cands: seq<Candidate>, c: Candidate, batch: map<string, nat>, nextAutoNum: int)
    returns (entry: Entry, key: Option<Accepted>, batch': map<string, nat>, nextAutoNum': int)
    requires IsBatch(cx, cands, batch) && nextAutoNum == Wrapped(cx.maxN + Generated(cx, cands))
    ensures entry == EntryFor(cx, cands, c)
    ensures
      key == if IsNew(cx, cands, c) then Some(Accepted(NameFor(cx, cands, c), c.secret, cx.fp(c.secret))) else None
    ensures IsBatch(cx, cands + [c], batch')
    ensures nextAutoNum' == Wrapped(cx.maxN + Generated(cx, cands) + if TakesAutoName(cx, cands, c) then 1 else 0)
  {
    entry, key, batch', nextAutoNum' := Entry(c.line, c.name, NoError), None, batch, nextAutoNum;
    if c.secret == "" {
      BatchSkips(cx, cands, batch, c);
      return entry.(error := EmptySecret), None, batch, nextAutoNum;
    }
    var mark := cx.fp(c.secret);
    if mark in cx.stored {
      BatchSkips(cx, cands, batch, c);
      return entry.(error := AlreadyStored), None, batch, nextAutoNum;
    }
    BatchDecides(cx, cands, batch, c);
    if mark in batch {
      BatchSkips(cx, cands, batch, c);
      return entry.(error := InBatch(batch[mark])), None, batch, nextAutoNum;
    }
    BatchTakes(cx, cands, batch, c);
    var name;
    name, nextAutoNum' := NameNext(cx, cands, c, nextAutoNum);
    return entry.(name := name), Some(Accepted(name, c.secret, mark)), batch[mark := c.line], nextAutoNum';
  }

  /** The name of an accepted line: its own, or the next generated one. */
  method NameNext(cx: Context, ghost cands: seq<Candidate>, c: Candidate, nextAutoNum: int)
    returns (name: string, nextAutoNum': int)
    requires IsNew(cx, cands, c) && nextAutoNum == Wrapped(cx.maxN + Generated(cx, cands))
    ensures name == NameFor(cx, cands, c)
    ensures nextAutoNum' == Wrapped(cx.maxN + Generated(cx, cands) + if TakesAutoName(cx, cands, c) then 1 else 0)
  {
    if c.name != "" { return c.name, nextAutoNum; }
    WrappedNext(cx.maxN + Generated(cx, cands));
    nextAutoNum' := if nextAutoNum == MAX_INT then -MAX_INT - 1 else nextAutoNum + 1;
    name := AutoName(nextAutoNum');
  }

  lemma WrappedNext(n: nat)
    ensures Wrapped(n + 1) == if Wrapped(n) == MAX_INT then -MAX_INT - 1 else Wrapped(n) + 1
  {
    if n > MAX_INT {
      var m := n - MAX_INT - 1;
      assert (m + 1) % WIDTH == if m % WIDTH == WIDTH - 1 then 0 else m % WIDTH + 1;
    }
  }

  // ----- The table -----

  function Marks(keys: seq<StoredKey>): set<string> {
    set k | k in keys :: k.mark
  }

  /** The largest sort order, -1 for an empty table. */
  function MaxSort(keys: seq<StoredKey>): int {
    if keys == [] then -1
    else if |keys| == 1 then keys[0].sortOrder
    else
      var before, last := MaxSort(keys[..|keys| - 1]), keys[|keys| - 1].sortOrder;
      if last > before then last else before
  }

  /** The accepted keys in line order, with consecutive sort orders above `from`. */
  function Inserted(accepted: seq<Accepted>, from: int): (r: seq<StoredKey>)
    ensures |r| == |accepted|
    ensures forall i :: 0 <= i < |r| ==> r[i] == StoredKey(accepted[i].name, accepted[i].mark, from + 1 + i)
  {
    seq(|accepted|, i requires 0 <= i < |accepted| => StoredKey(accepted[i].name, accepted[i].mark, from + 1 + i))
  }

  function ContextOf(fp: Fingerprint, keys: seq<StoredKey>): (cx: Context)
    ensures cx.maxN <= MAX_INT
  {
    Context(fp, Marks(keys), LargestNumber(keys))
  }

  class ProviderKeys {
    var keys: seq<StoredKey>

    constructor ()
      ensures keys == []
    {
      keys := [];
    }

    /**
     * Preview and commit report the same; commit appends exactly the accepted
     * keys. Nothing is stored for a provider that does not exist, or when one
     * of the keys, `failing` counted from the first, cannot be encrypted or
     * inserted: the transaction is rolled back.
     */
    method ImportProviderKeys(fp: Fingerprint, text: string, commit: bool, known: bool, failing: Option<nat>)
      returns (result: Option<Result>)
      modifies this
      ensures
        var cx, cands := ContextOf(fp, old(keys)), Candidates(Lines(text));
        var accepted := AcceptedKeys(cx, cands);
        var broken := commit && failing.Some? && failing.value < |accepted|;
        && result == (if known && !broken then Some(Report(cx, cands)) else None)
        && keys == old(keys) + if known && !broken && commit then Inserted(accepted, MaxSort(old(keys))) else []
    {
      if !known { return None; }
      var cx := Scan(fp);
      var report, accepted := ParseBatch(cx, text);
      if commit && |accepted| > 0 {
        var committed := Commit(accepted, failing);
        if !committed { return None; }
      }
      result := Some(report);
    }

    /** The stored fingerprints and the largest stored number. */
    method Scan(fp: Fingerprint) returns (cx: Context)
      ensures cx == ContextOf(fp, keys)
    {
      var stored: set<string> := {};
      var maxN := 0;
      for i := 0 to |keys|
        invariant stored == Marks(keys[..i]) && maxN == LargestNumber(keys[..i])
      {
        assert keys[..i + 1] == keys[..i] + [keys[i]];
        MarksSnoc(keys[..i], keys[i]);
        LargestSnoc(keys[..i], keys[i]);
        stored := stored + {keys[i].mark};
        var number := CountedNumber(keys[i].name);
        if number.Some? && number.value > maxN { maxN := number.value; }
      }
      assert keys[..|keys|] == keys;
      cx := Context(fp, stored, maxN);
    }

    /** One transaction: all the rows, or none. */
    method Commit(accepted: seq<Accepted>, failing: Option<nat>) returns (committed: bool)
      modifies this
      ensures committed <==> !(failing.Some? && failing.value < |accepted|)
      ensures keys == old(keys) + if committed then Inserted(accepted, MaxSort(old(keys))) else []
    {
      ghost var rows := Inserted(accepted, MaxSort(keys));
      var maxSort := MaxSort(keys);
      var inserted: seq<StoredKey> := [];
      for i := 0 to |accepted|
        invariant maxSort == MaxSort(keys) + i && inserted == rows[..i]
        invariant keys == old(keys) && (failing.Some? ==> i <= failing.value)
      {
        if failing == Some(i) { return false; }
        maxSort := maxSort + 1;
        assert rows[..i + 1] == rows[..i] + [rows[i]];
        inserted := inserted + [StoredKey(accepted[i].name, accepted[i].mark, maxSort)];
      }
      assert rows[..|accepted|] == rows;
      keys := keys + inserted;
      committed := true;
    }
  }

  lemma LargestSnoc(keys: seq<StoredKey>, key: StoredKey)
    ensures
      var before, number := LargestNumber(keys), CountedNumber(key.name);
      LargestNumber(keys + [key]) == if number.Some? && number.value > before then number.value else before
  {
    assert (keys + [key])[..|keys|] == keys;
  }

  lemma MarksSnoc(keys: seq<StoredKey>, key: StoredKey)
    ensures Marks(keys + [key]) == Marks(keys) + {key.mark}
  {
    assert key in keys + [key];
    forall k | k in keys ensures k in keys + [key] {}
  }

  // ----- What an import means -----

  lemma {:induction false} AcceptedAreValid(cx: Context, cands: seq<Candidate>)
    ensures |AcceptedKeys(cx, cands)| == |ValidEntries(Entries(cx, cands))|
    ensures |AcceptedKeys(cx, cands)| <= |cands|
    ensures
      forall i :: 0 <= i < |AcceptedKeys(cx, cands)| ==>
        AcceptedKeys(cx, cands)[i].name == ValidEntries(Entries(cx, cands))[i].name
  {
    if cands != [] {
      var front, last := cands[..|cands| - 1], cands[|cands| - 1];
      AcceptedAreValid(cx, front);
      var entries := Entries(cx, cands);
      assert entries[..|entries| - 1] == Entries(cx, front);
    }
  }

  function ValidEntries(entries: seq<Entry>): seq<Entry> {
    if entries == [] then []
    else ValidEntries(entries[..|entries| - 1]) + if entries[|entries| - 1].Valid() then [entries[|entries| - 1]]
      else []
  }

  function CountNonBlank(lines: seq<string>): nat {
    if lines == [] then 0 else CountNonBlank(lines[..|lines| - 1]) + if Blank(lines[|lines| - 1]) then 0 else 1
  }

  /** Every line that is not blank is reported once. */
  lemma {:induction false} EveryLineReported(lines: seq<string>)
    ensures |Candidates(lines)| == CountNonBlank(lines)
  {
    if lines != [] { EveryLineReported(lines[..|lines| - 1]); }
  }

  ghost predicate HasMark(accepted: seq<Accepted>, mark: string) {
    exists i :: 0 <= i < |accepted| && accepted[i].mark == mark
  }

  lemma HasMarkSnoc(accepted: seq<Accepted>, key: Accepted, mark: string)
    ensures HasMark(accepted + [key], mark) <==> HasMark(accepted, mark) || key.mark == mark
  {
    var more := accepted + [key];
    if HasMark(accepted, mark) {
      var i :| 0 <= i < |accepted| && accepted[i].mark == mark;
      assert more[i] == accepted[i];
    }
    if key.mark == mark { assert more[|accepted|] == key; }
  }

  /** Some line of the text bears the mark. */
  ghost predicate Mentioned(cx: Context, cands: seq<Candidate>, mark: string) {
    !Unseen(cx, cands, mark)
  }

  lemma MentionedSnoc(cx: Context, cands: seq<Candidate>, c: Candidate, mark: string)
    ensures Mentioned(cx, cands + [c], mark) <==> Mentioned(cx, cands, mark) || Bears(cx, c, mark)
  {
    var more := cands + [c];
    assert more[|cands|] == c;
    if Mentioned(cx, cands, mark) {
      var j :| 0 <= j < |cands| && Bears(cx, cands[j], mark);
      assert more[j] == cands[j];
    }
  }

  /** A line is new exactly when its mark is neither stored nor mentioned before. */
  lemma NewIsUnseen(cx: Context, before: seq<Candidate>, c: Candidate)
    requires c.secret != ""
    ensures IsNew(cx, before, c) <==> cx.fp(c.secret) !in cx.stored && !Mentioned(cx, before, cx.fp(c.secret))
  {
    forall j | 0 <= j < |before| ensures SameMark(cx, before[j], c) <==> Bears(cx, before[j], cx.fp(c.secret)) {}
  }

  /** The accepted fingerprints: those of the text that were not stored. */
  lemma {:induction false} AcceptedMarks(cx: Context, cands: seq<Candidate>, mark: string)
    ensures HasMark(AcceptedKeys(cx, cands), mark) <==> mark !in cx.stored && Mentioned(cx, cands, mark)
  {
    if cands != [] {
      var front, last := cands[..|cands| - 1], cands[|cands| - 1];
      assert cands == front + [last];
      AcceptedMarks(cx, front, mark);
      MentionedSnoc(cx, front, last, mark);
      if last.secret != "" { NewIsUnseen(cx, front, last); }
      if !IsNew(cx, front, last) {
        assert AcceptedKeys(cx, cands) == AcceptedKeys(cx, front);
      } else {
        HasMarkSnoc(AcceptedKeys(cx, front), Accepted(NameFor(cx, front, last), last.secret, cx.fp(last.secret)), mark);
      }
    }
  }

  ghost predicate AllNew(cx: Context, accepted: seq<Accepted>) {
    && (forall i, j :: 0 <= i < j < |accepted| ==> accepted[i].mark != accepted[j].mark)
    && forall i :: 0 <= i < |accepted| ==> accepted[i].mark !in cx.stored
  }

  lemma AllNewSnoc(cx: Context, accepted: seq<Accepted>, key: Accepted)
    requires AllNew(cx, accepted) && key.mark !in cx.stored && !HasMark(accepted, key.mark)
    ensures AllNew(cx, accepted + [key])
  {
  }

  /** No two accepted keys share a fingerprint, and none is stored already. */
  lemma {:induction false} AcceptedAreNew(cx: Context, cands: seq<Candidate>)
    ensures AllNew(cx, AcceptedKeys(cx, cands))
  {
    if cands != [] {
      var front, last := cands[..|cands| - 1], cands[|cands| - 1];
      AcceptedAreNew(cx, front);
      if IsNew(cx, front, last) {
        AcceptedMarks(cx, front, cx.fp(last.secret));
        NewIsUnseen(cx, front, last);
        AllNewSnoc(cx, AcceptedKeys(cx, front), Accepted(NameFor(cx, front, last), last.secret, cx.fp(last.secret)));
      } else {
        assert AcceptedKeys(cx, cands) == AcceptedKeys(cx, front);
      }
    }
  }

  lemma {:induction false} NothingNew(cx: Context, cands: seq<Candidate>)
    requires forall j :: 0 <= j < |cands| && cands[j].secret != "" ==> cx.fp(cands[j].secret) in cx.stored
    ensures AcceptedKeys(cx, cands) == []
  {
    if cands != [] { NothingNew(cx, cands[..|cands| - 1]); }
  }

  /** Once a text has been committed, importing it again accepts nothing. */
  lemma ImportedAgain(fp: Fingerprint, keys: seq<StoredKey>, text: string)
    ensures
      var cands := Candidates(Lines(text));
      var after := keys + Inserted(AcceptedKeys(ContextOf(fp, keys), cands), MaxSort(keys));
      AcceptedKeys(ContextOf(fp, after), cands) == []
  {
    var cx, cands := ContextOf(fp, keys), Candidates(Lines(text));
    var accepted := AcceptedKeys(cx, cands);
    var rows := Inserted(accepted, MaxSort(keys));
    forall j | 0 <= j < |cands| && cands[j].secret != "" ensures fp(cands[j].secret) in Marks(keys + rows) {
      var mark := fp(cands[j].secret);
      AcceptedMarks(cx, cands, mark);
      assert Bears(cx, cands[j], mark);
      if mark in cx.stored {
        var k :| k in keys && k.mark == mark;
        assert k in keys + rows;
      } else {
        var i :| 0 <= i < |accepted| && accepted[i].mark == mark;
        assert rows[i] in keys + rows;
      }
    }
    NothingNew(ContextOf(fp, keys + rows), cands);
  }

  lemma {:induction false} MaxSortIsLargest(keys: seq<StoredKey>)
    ensures forall i :: 0 <= i < |keys| ==> keys[i].sortOrder <= MaxSort(keys)
  {
    if |keys| > 1 {
      MaxSortIsLargest(keys[..|keys| - 1]);
      assert forall i :: 0 <= i < |keys| - 1 ==> keys[i] == keys[..|keys| - 1][i];
    }
  }

  /** Fingerprints unique before a commit are unique after it, and the new keys come after every stored one. */
  lemma CommitKeepsUnique(fp: Fingerprint, keys: seq<StoredKey>, text: string)
    requires forall i, j :: 0 <= i < j < |keys| ==> keys[i].mark != keys[j].mark
    ensures
      var rows := Inserted(AcceptedKeys(ContextOf(fp, keys), Candidates(Lines(text))), MaxSort(keys));
      && (forall i, j :: 0 <= i < j < |keys + rows| ==> (keys + rows)[i].mark != (keys + rows)[j].mark)
      && (forall i, j :: 0 <= i < |keys| && 0 <= j < |rows| ==> keys[i].sortOrder < rows[j].sortOrder)
  {
    var cx, cands := ContextOf(fp, keys), Candidates(Lines(text));
    AcceptedAreNew(cx, cands);
    MaxSortIsLargest(keys);
    var rows := Inserted(AcceptedKeys(cx, cands), MaxSort(keys));
    forall i | 0 <= i < |keys| ensures keys[i].mark in cx.stored {
      assert keys[i] in keys;
    }
  }

  // ----- Generated names -----

  ghost predicate AutoNamed(cx: Context, cands: seq<Candidate>, i: int) {
    0 <= i < |cands| && TakesAutoName(cx, cands[..i], cands[i])
  }

  lemma {:induction false} EntryAt(cx: Context, cands: seq<Candidate>, i: nat)
    requires i < |cands|
    ensures Entries(cx, cands)[i] == EntryFor(cx, cands[..i], cands[i])
  {
    var front := cands[..|cands| - 1];
    if i < |front| {
      EntryAt(cx, front, i);
      assert front[..i] == cands[..i];
    }
  }

  lemma {:induction false} GeneratedGrows(cx: Context, cands: seq<Candidate>, i: nat)
    requires i <= |cands|
    ensures Generated(cx, cands[..i]) <= Generated(cx, cands)
    ensures AutoNamed(cx, cands, i) ==> Generated(cx, cands[..i]) < Generated(cx, cands)
  {
    if i == |cands| {
      assert cands[..i] == cands;
    } else {
      var front := cands[..|cands| - 1];
      assert front[..i] == cands[..i];
      GeneratedGrows(cx, front, i);
    }
  }

  /** The line that takes the `k`-th generated name. */
  lemma {:induction false} TakerOf(cx: Context, cands: seq<Candidate>, k: nat) returns (i: nat)
    requires k < Generated(cx, cands)
    ensures AutoNamed(cx, cands, i) && Generated(cx, cands[..i]) == k
  {
    var front := cands[..|cands| - 1];
    if k < Generated(cx, front) {
      i := TakerOf(cx, front, k);
      assert front[..i] == cands[..i];
    } else {
      i := |front|;
    }
  }

  /** The name reads as a number above every stored one. */
  ghost predicate AboveStored(keys: seq<StoredKey>, name: string) {
    && KeyNumber(name).Some?
    && forall k :: k in keys && KeyNumber(k.name).Some? ==> KeyNumber(k.name).value < KeyNumber(name).value
  }

  /** Every stored number counts, because it fits an integer. */
  ghost predicate AllCounted(keys: seq<StoredKey>) {
    forall k :: k in keys && KeyNumber(k.name).Some? ==> KeyNumber(k.name).value <= MAX_INT
  }

  /** Generated names read as numbers, and these rise from line to line. */
  ghost predicate Rising(cx: Context, cands: seq<Candidate>) {
    && (forall i :: AutoNamed(cx, cands, i) ==> KeyNumber(Entries(cx, cands)[i].name).Some?)
    && forall i, j :: i < j && AutoNamed(cx, cands, i) && AutoNamed(cx, cands, j) ==>
         KeyNumber(Entries(cx, cands)[i].name).value < KeyNumber(Entries(cx, cands)[j].name).value
  }

  lemma NameOf(cx: Context, cands: seq<Candidate>, i: nat)
    requires AutoNamed(cx, cands, i)
    ensures Entries(cx, cands)[i].name == AutoName(Wrapped(cx.maxN + Generated(cx, cands[..i]) + 1))
  {
    NameAt(cx, cands, i);
  }

  lemma NumberOf(cx: Context, cands: seq<Candidate>, i: nat)
    requires AutoNamed(cx, cands, i) && cx.maxN + Generated(cx, cands[..i]) < MAX_INT
    ensures KeyNumber(Entries(cx, cands)[i].name) == Some(cx.maxN + Generated(cx, cands[..i]) + 1)
  {
    NameOf(cx, cands, i);
    AutoNameReads(cx.maxN + Generated(cx, cands[..i]) + 1);
  }

  lemma NameAt(cx: Context, cands: seq<Candidate>, i: nat)
    requires i < |cands|
    ensures Entries(cx, cands)[i].name == NameFor(cx, cands[..i], cands[i])
  {
    EntryAt(cx, cands, i);
  }

  lemma MinusDoesNotRead(n: int)
    requires n < 0
    ensures KeyNumber(AutoName(n)) == None
  {
    var name, signed := AutoName(n), SignedDecimal(n);
    var rest := name[3..];
    assert signed[0] == '-' && !IsDigit(signed[0]);
    assert rest[0] == ' ' && rest[1..] == signed;
    assert TrimLeft(rest, IS_PATTERN_SPACE) == TrimLeft(signed, IS_PATTERN_SPACE) == signed;
  }

  /** When the count fits, the names are consecutive numbers from the largest counted one. */
  lemma FittingNamesRise(cx: Context, cands: seq<Candidate>)
    requires cx.maxN + Generated(cx, cands) <= MAX_INT
    ensures Rising(cx, cands)
    ensures forall i :: AutoNamed(cx, cands, i) ==> KeyNumber(Entries(cx, cands)[i].name).GetOr(0) > cx.maxN
  {
    forall i | AutoNamed(cx, cands, i)
      ensures KeyNumber(Entries(cx, cands)[i].name) == Some(cx.maxN + Generated(cx, cands[..i]) + 1)
    {
      GeneratedGrows(cx, cands, i);
      NumberOf(cx, cands, i);
    }
    forall i, j | i < j && AutoNamed(cx, cands, i) && AutoNamed(cx, cands, j)
      ensures Generated(cx, cands[..i]) < Generated(cx, cands[..j])
    {
      var front := cands[..j];
      assert front[..i] == cands[..i];
      GeneratedGrows(cx, front, i);
    }
  }

  /** When it does not fit, the name after the largest integer is negative. */
  lemma OverflowingName(cx: Context, cands: seq<Candidate>) returns (i: nat)
    requires cx.maxN <= MAX_INT < cx.maxN + Generated(cx, cands)
    ensures AutoNamed(cx, cands, i) && KeyNumber(Entries(cx, cands)[i].name).None?
  {
    i := TakerOf(cx, cands, MAX_INT - cx.maxN);
    NameOf(cx, cands, i);
    assert Wrapped(MAX_INT + 1) == -MAX_INT - 1;
    MinusDoesNotRead(-MAX_INT - 1);
  }

  /**
   * Generated names rise from line to line exactly as long as their count fits
   * an integer; otherwise one of them is negative. They rise above every stored
   * number exactly if, besides, every stored number fits one: larger ones are
   * passed over.
   */
  lemma NamesRise(fp: Fingerprint, keys: seq<StoredKey>, cands: seq<Candidate>)
    ensures
      var cx := ContextOf(fp, keys);
      && (Rising(cx, cands) <==> cx.maxN + Generated(cx, cands) <= MAX_INT)
      && ((forall i :: AutoNamed(cx, cands, i) ==> AboveStored(keys, Entries(cx, cands)[i].name)) <==>
            Generated(cx, cands) == 0 || (cx.maxN + Generated(cx, cands) <= MAX_INT && AllCounted(keys)))
  {
    var cx := ContextOf(fp, keys);
    if cx.maxN + Generated(cx, cands) > MAX_INT {
      var i := OverflowingName(cx, cands);
      assert !AboveStored(keys, Entries(cx, cands)[i].name);
    } else {
      FittingNamesRise(cx, cands);
      if AllCounted(keys) {
        forall i | AutoNamed(cx, cands, i) ensures AboveStored(keys, Entries(cx, cands)[i].name) {
          CountedAreBelow(keys, Entries(cx, cands)[i].name);
        }
      } else if Generated(cx, cands) > 0 {
        var k :| k in keys && KeyNumber(k.name).Some? && KeyNumber(k.name).value > MAX_INT;
        var i := FirstIsSmall(cx, cands);
        assert !AboveStored(keys, Entries(cx, cands)[i].name);
      } else {
        NoneGenerated(cx, cands);
      }
    }
  }

  lemma CountedAreBelow(keys: seq<StoredKey>, name: string)
    requires AllCounted(keys) && KeyNumber(name).GetOr(0) > LargestNumber(keys)
    ensures AboveStored(keys, name)
  {
    forall k | k in keys && KeyNumber(k.name).Some? ensures KeyNumber(k.name).value <= LargestNumber(keys) {
      assert CountedNumber(k.name) == KeyNumber(k.name);
    }
  }

  lemma FirstIsSmall(cx: Context, cands: seq<Candidate>) returns (i: nat)
    requires 0 < Generated(cx, cands) && cx.maxN + Generated(cx, cands) <= MAX_INT
    ensures AutoNamed(cx, cands, i) && KeyNumber(Entries(cx, cands)[i].name) == Some(cx.maxN + 1)
  {
    i := TakerOf(cx, cands, 0);
    NumberOf(cx, cands, i);
  }

  lemma NoneGenerated(cx: Context, cands: seq<Candidate>)
    requires Generated(cx, cands) == 0
    ensures forall i :: !AutoNamed(cx, cands, i)
  {
    forall i | AutoNamed(cx, cands, i) ensures false {
      GeneratedGrows(cx, cands, i);
    }
  }

  lemma MarkOf(fp: Fingerprint, key: StoredKey)
    ensures ContextOf(fp, [key]) == Context(fp, {key.mark}, CountedNumber(key.name).GetOr(0))
  {
    assert key in [key];
    assert key.mark in Marks([key]);
    assert forall k :: k in [key] ==> k == key;
  }

  lemma OneLine()
    ensures Candidates(Lines("s")) == [Candidate(1, "", "s")]
  {
    assert "s"[1..] == "" && Lines("") == [""];
    assert ["s"[0]] + "" == "s" && [""][1..] == [];
    assert Lines("s") == ["s"];
    TrimIsTrimmed("s", IS_SPACE);
    assert !IS_SPACE("s"[0]);
    assert BarAt("") == 0 && BarAt("s") == 1;
    assert ["s"][..0] == [] && Candidates([]) == [];
  }

  /** One new nameless line over one stored key. */
  lemma OneGenerated(fp: Fingerprint, key: StoredKey)
    requires fp("s") != key.mark
    ensures
      var cx, c := ContextOf(fp, [key]), Candidate(1, "", "s");
      && AutoNamed(cx, [c], 0)
      && Entries(cx, [c])[0].name == AutoName(Wrapped(CountedNumber(key.name).GetOr(0) + 1))
  {
    var cx, c := ContextOf(fp, [key]), Candidate(1, "", "s");
    MarkOf(fp, key);
    assert [c][..0] == [];
    assert AutoNamed(cx, [c], 0);
    NameOf(cx, [c], 0);
    assert Generated(cx, []) == 0;
  }

  /** With "Key 9223372036854775807" stored, the next generated name is "Key -9223372036854775808". */
  lemma NameOverflows(fp: Fingerprint, mark: string) returns (keys: seq<StoredKey>, cands: seq<Candidate>)
    requires fp("s") != mark
    ensures keys == [StoredKey(AutoName(MAX_INT), mark, 0)] && cands == Candidates(Lines("s"))
    ensures AutoNamed(ContextOf(fp, keys), cands, 0) && !Rising(ContextOf(fp, keys), cands)
    ensures Entries(ContextOf(fp, keys), cands)[0].name == AutoName(-MAX_INT - 1)
  {
    keys, cands := [StoredKey(AutoName(MAX_INT), mark, 0)], [Candidate(1, "", "s")];
    OneLine();
    AutoNameReads(MAX_INT);
    OneGenerated(fp, keys[0]);
    assert Wrapped(MAX_INT + 1) == -MAX_INT - 1;
    MinusDoesNotRead(-MAX_INT - 1);
  }

  /** With "Key 9223372036854775808" stored, the next generated name is "Key 1". */
  lemma LargeNumberIsPassedOver(fp: Fingerprint, mark: string) returns (keys: seq<StoredKey>, cands: seq<Candidate>)
    requires fp("s") != mark
    ensures keys == [StoredKey(AutoName(MAX_INT + 1), mark, 0)] && cands == Candidates(Lines("s"))
    ensures AutoNamed(ContextOf(fp, keys), cands, 0) && Rising(ContextOf(fp, keys), cands)
    ensures Entries(ContextOf(fp, keys), cands)[0].name == AutoName(1)
    ensures !AboveStored(keys, Entries(ContextOf(fp, keys), cands)[0].name)
  {
    keys, cands := [StoredKey(AutoName(MAX_INT + 1), mark, 0)], [Candidate(1, "", "s")];
    OneLine();
    AutoNameReads(MAX_INT + 1);
    AutoNameReads(1);
    OneGenerated(fp, keys[0]);
    MarkOf(fp, keys[0]);
    assert keys[0] in keys;
    assert Wrapped(1) == 1;
    assert [cands[0]][..0] == [];
    FittingNamesRise(ContextOf(fp, keys), cands);
  }
}
