/** What a batch import makes of each line and each stored name, told from their characters. */
module ImportFields {
  import opened Basics
  import opened Text
  import opened Import

  // ----- Lines -----

  ghost predicate HasWords(line: string) {
    exists i :: 0 <= i < |line| && !IsWhite(line[i])
  }

  /** The name stands before the first bar, the secret behind it; without a bar all is secret. */
  ghost predicate Reads(line: string, name: string, secret: string) {
    var t := TrimSpace(line);
    && ('|' !in t ==> name == "" && secret == t)
    && forall k :: 0 <= k < |t| && t[k] == '|' && '|' !in t[..k] ==>
         name == TrimSpace(t[..k]) && secret == TrimSpace(t[k + 1..])
  }

  /** The candidates are the lines with words, in order, each with its number and its parts. */
  ghost predicate AreLines(cands: seq<Candidate>, lines: seq<string>, at: seq<nat>) {
    && |at| == |cands|
    && (forall i :: 0 <= i < |at| ==>
          && at[i] < |lines| && HasWords(lines[at[i]]) && cands[i].line == at[i] + 1
          && Reads(lines[at[i]], cands[i].name, cands[i].secret))
    && (forall i, j :: 0 <= i < j < |at| ==> at[i] < at[j])
    && (forall k: nat :: k < |lines| && HasWords(lines[k]) ==> k in at)
  }

  lemma ParsedReads(number: nat, line: string)
    ensures Parsed(number, line).line == number
    ensures Reads(line, Parsed(number, line).name, Parsed(number, line).secret)
  {
    var t := TrimSpace(line);
    var bar := BarAt(t);
    forall k: nat | k < |t| && t[k] == '|' && '|' !in t[..k] ensures k == bar {
      FirstBar(t, k);
    }
  }

  lemma {:induction false} FirstBar(t: string, k: nat)
    requires k < |t| && t[k] == '|' && '|' !in t[..k]
    ensures BarAt(t) == k
  {
    if k > 0 {
      assert t[0] == t[..k][0];
      assert t[1..][..k - 1] == t[..k][1..];
      FirstBar(t[1..], k - 1);
    }
  }

  lemma AreLinesSnoc(cands: seq<Candidate>, lines: seq<string>, at: seq<nat>, line: string, c: Candidate)
    requires AreLines(cands, lines, at)
    ensures
      HasWords(line) && c.line == |lines| + 1 && Reads(line, c.name, c.secret) ==>
        AreLines(cands + [c], lines + [line], at + [|lines|])
    ensures !HasWords(line) ==> AreLines(cands, lines + [line], at)
  {
    var at' := at + [|lines|];
    assert at'[|at|] == |lines|;
    forall k: nat | k in at ensures k in at' {
    }
  }

  lemma {:induction false} CandidatesAreLines(lines: seq<string>) returns (at: seq<nat>)
    ensures AreLines(Candidates(lines), lines, at)
  {
    if lines == [] {
      at := [];
    } else {
      var front, last := lines[..|lines| - 1], lines[|lines| - 1];
      at := CandidatesAreLines(front);
      at := NextLine(Candidates(front), front, at, last);
      CandidatesSnoc(front, last);
      assert lines == front + [last];
    }
  }

  lemma CandidatesSnoc(front: seq<string>, last: string)
    ensures
      Candidates(front + [last]) == Candidates(front) + if Blank(last) then [] else [Parsed(|front| + 1, last)]
  {
    assert (front + [last])[..|front|] == front;
  }

  lemma NextLine(cands: seq<Candidate>, lines: seq<string>, at: seq<nat>, line: string) returns (at': seq<nat>)
    requires AreLines(cands, lines, at)
    ensures AreLines(cands + if Blank(line) then [] else [Parsed(|lines| + 1, line)], lines + [line], at')
  {
    var c := Parsed(|lines| + 1, line);
    BlankMeans(line);
    ParsedReads(|lines| + 1, line);
    AreLinesSnoc(cands, lines, at, line, c);
    assert cands + [] == cands;
    at' := at + if Blank(line) then [] else [|lines|];
    assert at + [] == at;
  }

  // ----- Verdicts -----

  /** The earlier line has a secret of the same fingerprint. */
  predicate Repeats(cx: Context, cands: seq<Candidate>, j: int, i: int)
    requires 0 <= j < |cands| && 0 <= i < |cands|
  {
    cands[j].secret != "" && cx.fp(cands[j].secret) == cx.fp(cands[i].secret)
  }

  ghost predicate FirstRepeat(cx: Context, cands: seq<Candidate>, j: int, i: int)
    requires 0 <= j < |cands| && 0 <= i < |cands|
  {
    Repeats(cx, cands, j, i) && forall k :: 0 <= k < j ==> !Repeats(cx, cands, k, i)
  }

  /** Every line is reported under its number, with the first reason that applies, or as valid. */
  lemma Verdict(cx: Context, cands: seq<Candidate>, i: nat)
    requires i < |cands|
    ensures
      var e, c := Entries(cx, cands)[i], cands[i];
      && e.line == c.line && (e.Valid() <==> e.error == NoError)
      && (c.secret == "" ==> e.error == EmptySecret)
      && (c.secret != "" && cx.fp(c.secret) in cx.stored ==> e.error == AlreadyStored)
      && (c.secret != "" && cx.fp(c.secret) !in cx.stored ==>
            && ((forall j :: 0 <= j < i ==> !Repeats(cx, cands, j, i)) ==> e.error == NoError)
            && forall j :: 0 <= j < i && FirstRepeat(cx, cands, j, i) ==> e.error == InBatch(cands[j].line))
      && (c.name != "" || !e.Valid() ==> e.name == c.name)
  {
    var before, c := cands[..i], cands[i];
    EntryAt(cx, cands, i);
    forall j | 0 <= j < i ensures SameMark(cx, before[j], c) <==> Repeats(cx, cands, j, i) {
    }
    forall j | 0 <= j < i && FirstRepeat(cx, cands, j, i)
      ensures FirstLine(cx, before, c) == cands[j].line
    {
      FirstLineIs(cx, before, c, j);
    }
  }

  /** The report counts the lines, the valid ones and the others. */
  lemma ReportCounts(cx: Context, cands: seq<Candidate>)
    ensures
      var r := Report(cx, cands);
      && r.entries == Entries(cx, cands) && r.total == |cands|
      && r.valid == |ValidEntries(Entries(cx, cands))| && r.invalid == |cands| - r.valid
  {
    AcceptedAreValid(cx, cands);
  }

  /** The keys to be stored are the valid lines in order: the name reported, the secret and its fingerprint. */
  lemma {:induction false} AcceptedAt(cx: Context, cands: seq<Candidate>) returns (at: seq<nat>)
    ensures |at| == |AcceptedKeys(cx, cands)|
    ensures
      forall i :: 0 <= i < |at| ==>
        && at[i] < |cands| && Entries(cx, cands)[at[i]].Valid()
        && AcceptedKeys(cx, cands)[i] ==
             Accepted(Entries(cx, cands)[at[i]].name, cands[at[i]].secret, cx.fp(cands[at[i]].secret))
    ensures forall i, j :: 0 <= i < j < |at| ==> at[i] < at[j]
    ensures forall k: nat :: k < |cands| && Entries(cx, cands)[k].Valid() ==> k in at
  {
    if cands == [] {
      at := [];
    } else {
      var front, last := cands[..|cands| - 1], cands[|cands| - 1];
      at := AcceptedAt(cx, front);
      var all := at + if IsNew(cx, front, last) then [|front|] else [];
      forall k: nat | k < |cands| && Entries(cx, cands)[k].Valid() ensures k in all {
        if k == |front| {
          assert all[|at|] == k;
        } else {
          assert Entries(cx, front)[k].Valid();
        }
      }
      at := all;
    }
  }

  // ----- Numbers -----

  /** White space of the name pattern. */
  predicate IsGap(c: char) {
    c in {' ', '\t', '\n', '\U{0C}', '\r'}
  }

  /** The name is "Key", a gap, and digits from the k-th character on. */
  ghost predicate IsNumbered(name: string, k: int) {
    && 3 < k < |name| && name[..3] == "Key"
    && (forall i :: 3 <= i < k ==> IsGap(name[i]))
    && forall i :: k <= i < |name| ==> '0' <= name[i] <= '9'
  }

  /** A name has a number exactly if it has this form, and it is the number of its digits. */
  lemma NumberedNames(name: string)
    ensures KeyNumber(name).Some? <==> exists k :: IsNumbered(name, k)
    ensures
      forall k :: IsNumbered(name, k) ==>
        (forall i :: 0 <= i < |name[k..]| ==> IsDigit(name[k..][i])) && KeyNumber(name) == Some(Value(name[k..]))
  {
    if |name| >= 3 && name[..3] == "Key" {
      var rest := name[3..];
      LeftTrim(rest, IS_PATTERN_SPACE);
      var digits := TrimLeft(rest, IS_PATTERN_SPACE);
      var cut := |rest| - |digits|;
      forall i | 3 <= i < 3 + cut ensures IS_PATTERN_SPACE(name[i]) {
        assert rest[..cut][i - 3] == name[i];
      }
      forall k | IsNumbered(name, k) ensures name[k..] == digits && KeyNumber(name) == Some(Value(digits)) {
        GapEnds(name, k, cut);
        assert rest[cut..] == name[k..];
      }
      if KeyNumber(name).Some? {
        forall i | 3 + cut <= i < |name| ensures '0' <= name[i] <= '9' {
          assert digits[i - 3 - cut] == name[i];
        }
        assert IsNumbered(name, 3 + cut);
      }
    }
  }

  lemma GapEnds(name: string, k: int, cut: nat)
    requires IsNumbered(name, k) && 3 + cut <= |name|
    requires forall i :: 3 <= i < 3 + cut ==> IS_PATTERN_SPACE(name[i])
    requires 3 + cut < |name| ==> !IS_PATTERN_SPACE(name[3 + cut])
    ensures k == 3 + cut
  {
    var first := name[k];
    assert 3 + cut < k ==> IsGap(name[3 + cut]);
  }

  /** The numbers that count fit a signed 64-bit integer. */
  lemma CountedNumbers(name: string)
    ensures
      CountedNumber(name) ==
        if KeyNumber(name).Some? && KeyNumber(name).value <= 9_223_372_036_854_775_807 then KeyNumber(name) else None
  {
  }

  // ----- The table -----

  /** The pass knows every stored fingerprint, and the largest stored number that fits, 0 without one. */
  lemma ContextHolds(fp: Fingerprint, keys: seq<StoredKey>)
    ensures
      var cx := ContextOf(fp, keys);
      && cx.fp == fp
      && (forall mark :: mark in cx.stored <==> exists k :: k in keys && k.mark == mark)
      && (forall k :: k in keys && CountedNumber(k.name).Some? ==> CountedNumber(k.name).value <= cx.maxN)
      && (cx.maxN > 0 ==> exists k :: k in keys && CountedNumber(k.name) == Some(cx.maxN))
  {
  }

  /** The new rows have the names and fingerprints of the accepted keys, and the orders after the largest stored one. */
  lemma RowsStored(keys: seq<StoredKey>, accepted: seq<Accepted>, i: nat, last: int)
    requires i < |accepted|
    requires forall k :: k in keys ==> k.sortOrder <= last
    requires if keys == [] then last == -1 else exists k :: k in keys && k.sortOrder == last
    ensures Inserted(accepted, MaxSort(keys))[i] == StoredKey(accepted[i].name, accepted[i].mark, last + 1 + i)
  {
    MaxSortIsLargest(keys);
    MaxSortIsThere(keys);
  }

  lemma {:induction false} MaxSortIsThere(keys: seq<StoredKey>)
    ensures if keys == [] then MaxSort(keys) == -1 else exists k :: k in keys && k.sortOrder == MaxSort(keys)
  {
    if keys != [] {
      var front, last := keys[..|keys| - 1], keys[|keys| - 1];
      assert last in keys;
      MaxSortIsThere(front);
    }
  }
}
