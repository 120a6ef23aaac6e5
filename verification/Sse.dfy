/**
 * Server-sent events: the incremental parser scanSSE (internal/provider/sse.go),
 * the frames the translators print, and the pass-through loop of ProxyStream
 * (internal/provider/client.go).
 */
module Sse {
  import opened Basics

  newtype Byte = x: int | 0 <= x < 256

  type Bytes = seq<Byte>

  const NL: Byte := 10
  const CR: Byte := 13
  const SPACE: Byte := 32
  const COLON: Byte := 58
  const EVENT: Bytes := [101, 118, 101, 110, 116]
  const DATA: Bytes := [100, 97, 116, 97]

  // ----- Lines -----

  /** The position of the first `b`, or the length. */
  function Find(s: Bytes, b: Byte): (i: nat)
    ensures i <= |s| && b !in s[..i] && (i < |s| ==> s[i] == b)
  {
    if s == [] || s[0] == b then 0 else 1 + Find(s[1..], b)
  }

  /** The lines ended by a newline, and what follows the last newline. */
  function Complete(s: Bytes): seq<Bytes>
    decreases |s|
  {
    var i := Find(s, NL);
    if i == |s| then [] else [s[..i]] + Complete(s[i + 1..])
  }

  function Rest(s: Bytes): Bytes
    decreases |s|
  {
    var i := Find(s, NL);
    if i == |s| then s else Rest(s[i + 1..])
  }

  function Unlines(lines: seq<Bytes>): Bytes {
    if lines == [] then [] else lines[0] + [NL] + Unlines(lines[1..])
  }

  lemma FindIs(s: Bytes, b: Byte, i: nat)
    requires i < |s| && b !in s[..i] && s[i] == b
    ensures Find(s, b) == i
  {
  }

  /** One line in front. */
  lemma SplitCons(line: Bytes, more: Bytes)
    requires NL !in line
    ensures Complete(line + [NL] + more) == [line] + Complete(more) && Rest(line + [NL] + more) == Rest(more)
  {
    var s := line + [NL] + more;
    assert s[..|line|] == line && s[|line|] == NL && s[|line| + 1..] == more;
    FindIs(s, NL, |line|);
  }

  /** Lines put together and split again. */
  lemma {:induction false} SplitUnlines(lines: seq<Bytes>, tail: Bytes)
    requires NL !in tail && forall k :: 0 <= k < |lines| ==> NL !in lines[k]
    ensures Complete(Unlines(lines) + tail) == lines && Rest(Unlines(lines) + tail) == tail
  {
    if lines == [] {
      assert [] + tail == tail;
      assert Find(tail, NL) == |tail|;
    } else {
      Assoc(lines[0] + [NL], Unlines(lines[1..]), tail);
      SplitCons(lines[0], Unlines(lines[1..]) + tail);
      SplitUnlines(lines[1..], tail);
      assert lines == [lines[0]] + lines[1..];
    }
  }

  lemma UnlinesCons(line: Bytes, lines: seq<Bytes>)
    ensures Unlines([line] + lines) == line + [NL] + Unlines(lines)
  {
    assert ([line] + lines)[1..] == lines;
  }

  /** Every input is its lines followed by its rest, and neither holds a newline. */
  lemma {:induction false} UnlinesSplit(s: Bytes)
    ensures Unlines(Complete(s)) + Rest(s) == s
    ensures NL !in Rest(s) && forall k :: 0 <= k < |Complete(s)| ==> NL !in Complete(s)[k]
    decreases |s|
  {
    var i := Find(s, NL);
    if i == |s| {
      assert s[..i] == s;
      assert [] + s == s;
    } else {
      var line, more := s[..i], s[i + 1..];
      assert s == line + [NL] + more;
      SplitCons(line, more);
      UnlinesSplit(more);
      UnlinesCons(line, Complete(more));
      Assoc(line + [NL], Unlines(Complete(more)), Rest(more));
    }
  }

  /** Splitting piecewise: the rest of what was read is carried over to the next piece. */
  lemma {:induction false} SplitAppend(a: Bytes, b: Bytes)
    ensures Complete(a + b) == Complete(a) + Complete(Rest(a) + b)
    ensures Rest(a + b) == Rest(Rest(a) + b)
    decreases |a|
  {
    var i := Find(a, NL);
    if i < |a| {
      assert (a + b)[..i] == a[..i];
      FindIs(a + b, NL, i);
      assert (a + b)[i + 1..] == a[i + 1..] + b;
      SplitAppend(a[i + 1..], b);
      Assoc([a[..i]], Complete(a[i + 1..]), Complete(Rest(a) + b));
    } else {
      assert [] + Complete(a + b) == Complete(a + b);
    }
  }

  // ----- Events -----

  datatype Event = Event(name: Bytes, data: Bytes)

  /** The event under construction. */
  datatype Parser = Parser(event: Bytes, data: seq<Bytes>)

  const FRESH := Parser([], [])

  function Join(parts: seq<Bytes>): Bytes {
    if parts == [] then [] else if |parts| == 1 then parts[0] else parts[0] + [NL] + Join(parts[1..])
  }

  function TrimCR(line: Bytes): Bytes {
    if line != [] && line[|line| - 1] == CR then line[..|line| - 1] else line
  }

  function TrimSpacePrefix(value: Bytes): Bytes {
    if value != [] && value[0] == SPACE then value[1..] else value
  }

  function Pending(p: Parser): Event {
    Event(p.event, Join(p.data))
  }

  /** One line: a blank line dispatches, a comment or a line without colon is skipped. */
  function ParseLine(p: Parser, raw: Bytes): (Parser, seq<Event>) {
    var line := TrimCR(raw);
    var colon := Find(line, COLON);
    if line == [] then (FRESH, if p.data == [] then [] else [Pending(p)])
    else if colon == 0 || colon == |line| then (p, [])
    else
      var name, value := line[..colon], TrimSpacePrefix(line[colon + 1..]);
      if name == EVENT then (p.(event := value), [])
      else if name == DATA then (p.(data := p.data + [value]), [])
      else (p, [])
  }

  function ParseLines(p: Parser, lines: seq<Bytes>): (Parser, seq<Event>) {
    if lines == [] then (p, [])
    else
      var (p1, es1) := ParseLines(p, lines[..|lines| - 1]);
      var (p2, es2) := ParseLine(p1, lines[|lines| - 1]);
      (p2, es1 + es2)
  }

  lemma ParseLinesSnoc(p: Parser, lines: seq<Bytes>, line: Bytes)
    ensures
      var (p1, es1) := ParseLines(p, lines);
      ParseLines(p, lines + [line]).0 == ParseLine(p1, line).0 &&
        ParseLines(p, lines + [line]).1 == es1 + ParseLine(p1, line).1
  {
    assert (lines + [line])[..|lines|] == lines;
  }

  lemma {:induction false} ParseLinesAppend(p: Parser, a: seq<Bytes>, b: seq<Bytes>)
    ensures
      var (p1, es1) := ParseLines(p, a);
      var (p2, es2) := ParseLines(p1, b);
      ParseLines(p, a + b).0 == p2 && ParseLines(p, a + b).1 == es1 + es2
  {
    if b == [] {
      assert a + b == a;
    } else {
      var front := b[..|b| - 1];
      assert (a + b)[..|a + b| - 1] == a + front;
      ParseLinesAppend(p, a, front);
      var (p1, es1) := ParseLines(p, a);
      var (p2, es2) := ParseLines(p1, front);
      Assoc(es1, es2, ParseLine(p2, b[|b| - 1]).1);
    }
  }

  // ----- The whole input at once -----

  /** How the reads end: end of input, a read error, or a cancelled request. */
  datatype Ending = Eof | ReadError | Cancelled

  /** How the scan ends; Refused when the callback asked to stop. */
  datatype Outcome = Scanned | Refused | Broken | Stopped

  function OutcomeOf(ending: Ending): Outcome {
    match ending
    case Eof => Scanned
    case ReadError => Broken
    case Cancelled => Stopped
  }

  /** The callback's answer to the latest of the events delivered so far. */
  type Callback = seq<Event> -> bool

  /** How many events are delivered: up to and including the first one refused. */
  function Delivered(accept: Callback, events: seq<Event>): (n: nat)
    ensures n <= |events|
  {
    if events == [] then 0
    else
      var n := |events| - 1;
      var before := Delivered(accept, events[..n]);
      if before == n && (n == 0 || accept(events[..n])) then n + 1 else before
  }

  predicate AllAccepted(accept: Callback, events: seq<Event>) {
    forall k :: 0 < k <= |events| ==> accept(events[..k])
  }

  /** What the bytes mean: at the end of input an unfinished line is dropped and an undispatched event delivered. */
  function AllEvents(bytes: Bytes, ending: Ending): seq<Event> {
    var (p, events) := ParseLines(FRESH, Complete(bytes));
    events + if ending.Eof? && p.data != [] then [Pending(p)] else []
  }

  function Result(bytes: Bytes, ending: Ending, accept: Callback): Outcome {
    if AllAccepted(accept, AllEvents(bytes, ending)) then OutcomeOf(ending) else Refused
  }

  lemma {:induction false} DeliveredAll(accept: Callback, events: seq<Event>)
    requires forall k :: 0 < k < |events| ==> accept(events[..k])
    ensures Delivered(accept, events) == |events|
  {
    if events != [] {
      var n := |events| - 1;
      forall k | 0 < k < n ensures accept(events[..n][..k]) {
        assert events[..n][..k] == events[..k];
      }
      DeliveredAll(accept, events[..n]);
    }
  }

  /** Nothing is delivered after the first refusal. */
  lemma {:induction false} DeliveredRefused(accept: Callback, events: seq<Event>, more: seq<Event>)
    requires events != [] && !accept(events)
    requires forall k :: 0 < k < |events| ==> accept(events[..k])
    ensures Delivered(accept, events + more) == |events|
  {
    if more == [] {
      assert events + more == events;
      DeliveredAll(accept, events);
    } else {
      var n := |events + more| - 1;
      assert (events + more)[..n] == events + more[..|more| - 1];
      DeliveredRefused(accept, events, more[..|more| - 1]);
      if n == |events| { assert (events + more)[..n] == events; }
    }
  }

  /** The latest event is the first one refused. */
  predicate JustRefused(accept: Callback, events: seq<Event>) {
    events != [] && !accept(events) && forall k :: 0 < k < |events| ==> accept(events[..k])
  }

  lemma RefusedOutcome(bytes: Bytes, ending: Ending, accept: Callback, done: seq<Bytes>, more: seq<Bytes>)
    requires Complete(bytes) == done + more && JustRefused(accept, ParseLines(FRESH, done).1)
    ensures
      var es, all := ParseLines(FRESH, done).1, AllEvents(bytes, ending);
      Result(bytes, ending, accept) == Refused && all[..Delivered(accept, all)] == es
  {
    var (p, es) := ParseLines(FRESH, done);
    var all := AllEvents(bytes, ending);
    ParseLinesAppend(FRESH, done, more);
    var tail := all[|es|..];
    assert all == es + tail;
    DeliveredRefused(accept, es, tail);
    assert all[..|es|] == es;
  }

  // ----- The scanner as it runs -----

  method HandleLine(event: Bytes, dataLines: seq<Bytes>, raw: Bytes)
    returns (event': Bytes, dataLines': seq<Bytes>, out: seq<Event>)
    ensures Parser(event', dataLines') == ParseLine(Parser(event, dataLines), raw).0
    ensures out == ParseLine(Parser(event, dataLines), raw).1
  {
    event', dataLines', out := event, dataLines, [];
    var line := TrimCR(raw);
    if line == [] {
      if dataLines != [] { out := [Event(event, Join(dataLines))]; }
      event', dataLines' := [], [];
      return;
    }
    if line[0] == COLON { return; }
    var colon := Find(line, COLON);
    if colon < |line| {
      var name, value := line[..colon], TrimSpacePrefix(line[colon + 1..]);
      if name == EVENT {
        event' := value;
      } else if name == DATA {
        dataLines' := dataLines + [value];
      }
    }
  }

  /** The inner loop: handle every complete line of the pending bytes, until the callback refuses an event. */
  method Drain(event: Bytes, dataLines: seq<Bytes>, pending: Bytes, events: seq<Event>, accept: Callback)
    returns (event': Bytes, dataLines': seq<Bytes>, pending': Bytes, events': seq<Event>, refused: bool,
      ghost lines: seq<Bytes>)
    requires AllAccepted(accept, events)
    ensures Parser(event', dataLines') == ParseLines(Parser(event, dataLines), lines).0
    ensures events' == events + ParseLines(Parser(event, dataLines), lines).1
    ensures Complete(pending) == lines + Complete(pending') && Rest(pending') == Rest(pending)
    ensures
      if refused then JustRefused(accept, events')
        else AllAccepted(accept, events') && Complete(pending') == [] && pending' == Rest(pending)
  {
    event', dataLines', pending', events', lines := event, dataLines, pending, events, [];
    ghost var start := Parser(event, dataLines);
    var idx := Find(pending', NL);
    while idx < |pending'|
      invariant idx == Find(pending', NL)
      invariant Complete(pending) == lines + Complete(pending') && Rest(pending') == Rest(pending)
      invariant
        Parser(event', dataLines') == ParseLines(start, lines).0 && events' == events + ParseLines(start, lines).1
      invariant AllAccepted(accept, events')
      decreases |pending'|
    {
      ghost var before := events';
      var raw, out := pending'[..idx], [];
      event', dataLines', out := HandleLine(event', dataLines', raw);
      ParseLinesSnoc(start, lines, raw);
      Assoc(lines, [raw], Complete(pending'[idx + 1..]));
      Assoc(events, ParseLines(start, lines).1, out);
      lines := lines + [raw];
      pending' := pending'[idx + 1..];
      events' := events' + out;
      AcceptedSoFar(accept, before, out);
      if out != [] && !accept(events') {
        refused := true;
        return;
      }
      idx := Find(pending', NL);
    }
    refused := false;
  }

  /** All that was read so far has been handled, and nothing was refused. */
  ghost predicate Handled(total: Bytes, event: Bytes, dataLines: seq<Bytes>, pending: Bytes, events: seq<Event>,
      accept: Callback) {
    && pending == Rest(total)
    && Parser(event, dataLines) == ParseLines(FRESH, Complete(total)).0 &&
         events == ParseLines(FRESH, Complete(total)).1
    && AllAccepted(accept, events)
  }

  lemma DrainedAll(total: Bytes, more: Bytes, p: Parser, events: seq<Event>, lines: seq<Bytes>, pending: Bytes)
    requires ParseLines(FRESH, Complete(total)) == (p, events)
    requires Complete(Rest(total) + more) == lines + Complete(pending) && Rest(pending) == Rest(Rest(total) + more)
    ensures Complete(total + more) == Complete(total) + lines + Complete(pending) && Rest(total + more) == Rest(pending)
    ensures ParseLines(FRESH, Complete(total) + lines).0 == ParseLines(p, lines).0
    ensures ParseLines(FRESH, Complete(total) + lines).1 == events + ParseLines(p, lines).1
  {
    SplitAppend(total, more);
    Assoc(Complete(total), lines, Complete(pending));
    ParseLinesAppend(FRESH, Complete(total), lines);
  }

  lemma RefusedEarly(pieces: seq<Bytes>, i: nat, ending: Ending, accept: Callback, done: seq<Bytes>, more: seq<Bytes>)
    requires
      i <= |pieces| && Complete(Concat(pieces[..i])) == done + more && JustRefused(accept, ParseLines(FRESH, done).1)
    ensures
      var all := AllEvents(Concat(pieces), ending);
      Result(Concat(pieces), ending, accept) == Refused && all[..Delivered(accept, all)] == ParseLines(FRESH, done).1
  {
    var total, later := Concat(pieces[..i]), Concat(pieces[i..]);
    ConcatSplit(pieces, i);
    SplitAppend(total, later);
    Assoc(done, more, Complete(Rest(total) + later));
    RefusedOutcome(Concat(pieces), ending, accept, done, more + Complete(Rest(total) + later));
  }

  /**
   * Incremental parsing refines whole-input parsing: whatever the split into
   * reads, the callback sees the events of the concatenation, up to the first
   * it refuses.
   */
  method ScanSSE(pieces: seq<Bytes>, ending: Ending, accept: Callback) returns (events: seq<Event>, outcome: Outcome)
    ensures var all := AllEvents(Concat(pieces), ending); events == all[..Delivered(accept, all)]
    ensures outcome == Result(Concat(pieces), ending, accept)
  {
    var event, dataLines, pending := [], [], [];
    events := [];
    for i := 0 to |pieces|
      invariant Handled(Concat(pieces[..i]), event, dataLines, pending, events, accept)
    {
      ghost var total, p, before := Concat(pieces[..i]), Parser(event, dataLines), events;
      pending := pending + pieces[i];
      var refused;
      ghost var lines;
      event, dataLines, pending, events, refused, lines := Drain(event, dataLines, pending, events, accept);
      ConcatSnoc(pieces, i);
      DrainedAll(total, pieces[i], p, before, lines, pending);
      if refused {
        RefusedEarly(pieces, i + 1, ending, accept, Complete(total) + lines, Complete(pending));
        return events, Refused;
      }
      assert Complete(total) + lines + [] == Complete(total) + lines;
    }
    assert pieces[..|pieces|] == pieces;
    var last := if ending.Eof? && dataLines != [] then [Event(event, Join(dataLines))] else [];
    AcceptedSoFar(accept, events, last);
    events := events + last;
    DeliveredAll(accept, events);
    assert events[..|events|] == events;
    if last != [] && !accept(events) { return events, Refused; }
    outcome := OutcomeOf(ending);
  }

  lemma AcceptedSoFar(accept: Callback, events: seq<Event>, out: seq<Event>)
    requires AllAccepted(accept, events) && |out| <= 1
    ensures forall k :: 0 < k < |events + out| ==> accept((events + out)[..k])
    ensures out == [] || accept(events + out) <==> AllAccepted(accept, events + out)
  {
    var all := events + out;
    forall k | 0 < k <= |events| ensures accept(all[..k]) {
      assert all[..k] == events[..k];
    }
    assert all[..|all|] == all;
    if out == [] { assert all == events; }
  }

  lemma ConcatSnoc(pieces: seq<Bytes>, i: nat)
    requires i < |pieces|
    ensures Concat(pieces[..i + 1]) == Concat(pieces[..i]) + pieces[i]
  {
    assert pieces[..i + 1] == pieces[..i] + [pieces[i]];
    ConcatAppend(pieces[..i], [pieces[i]]);
    assert Concat([pieces[i]]) == pieces[i] + [];
  }

  lemma ConcatSplit(pieces: seq<Bytes>, i: nat)
    requires i <= |pieces|
    ensures Concat(pieces) == Concat(pieces[..i]) + Concat(pieces[i..])
  {
    assert pieces == pieces[..i] + pieces[i..];
    ConcatAppend(pieces[..i], pieces[i..]);
  }

  // ----- Printed frames -----

  /** A frame as the translators print it: with an event name, or data only. */
  datatype Frame = Named(event: Bytes, payload: Bytes) | Bare(payload: Bytes)

  function NameLines(f: Frame): seq<Bytes> {
    if f.Named? then [EVENT + [COLON, SPACE] + f.event] else []
  }

  function FrameLines(f: Frame): seq<Bytes> {
    NameLines(f) + [DATA + [COLON, SPACE] + f.payload, []]
  }

  function Print(f: Frame): Bytes {
    Unlines(FrameLines(f))
  }

  function EventOf(f: Frame): Event {
    Event(if f.Named? then f.event else [], f.payload)
  }

  /** No newline, no carriage return at the end: what a JSON printer produces. */
  predicate Clean(s: Bytes) {
    NL !in s && (s == [] || s[|s| - 1] != CR)
  }

  predicate CleanFrame(f: Frame) {
    Clean(f.payload) && (f.Named? ==> Clean(f.event))
  }

  function Prints(fs: seq<Frame>): seq<Bytes> {
    if fs == [] then [] else [Print(fs[0])] + Prints(fs[1..])
  }

  function EventsOf(fs: seq<Frame>): seq<Event> {
    if fs == [] then [] else [EventOf(fs[0])] + EventsOf(fs[1..])
  }

  function AllLines(fs: seq<Frame>): seq<Bytes> {
    if fs == [] then [] else FrameLines(fs[0]) + AllLines(fs[1..])
  }

  lemma FieldLine(p: Parser, name: Bytes, value: Bytes)
    requires name in {EVENT, DATA} && Clean(value)
    ensures ParseLine(p, name + [COLON, SPACE] + value) ==
            (if name == EVENT then p.(event := value) else p.(data := p.data + [value]), [])
  {
    var line := name + [COLON, SPACE] + value;
    assert line[|line| - 1] == if value == [] then SPACE else value[|value| - 1];
    assert line[..|name|] == name && line[|name|] == COLON;
    FindIs(line, COLON, |name|);
    assert line[|name| + 1..] == [SPACE] + value;
    assert ([SPACE] + value)[1..] == value;
  }

  lemma NameParses(f: Frame)
    requires CleanFrame(f)
    ensures
      ParseLines(FRESH, NameLines(f)).0 == Parser(if f.Named? then f.event else [], []) &&
        ParseLines(FRESH, NameLines(f)).1 == []
  {
    assert ParseLines(FRESH, []) == (FRESH, []);
    if f.Named? {
      FieldLine(FRESH, EVENT, f.event);
      ParseLinesSnoc(FRESH, [], NameLines(f)[0]);
      assert [] + NameLines(f) == NameLines(f) == [NameLines(f)[0]];
    }
  }

  lemma ParseTwoMore(p: Parser, front: seq<Bytes>, first: Bytes, second: Bytes)
    ensures
      var (p1, es1) := ParseLines(p, front);
      var (p2, es2) := ParseLine(p1, first);
      var (p3, es3) := ParseLine(p2, second);
      ParseLines(p, front + [first, second]).0 == p3 && ParseLines(p, front + [first, second]).1 == es1 + es2 + es3
  {
    ParseLinesSnoc(p, front, first);
    ParseLinesSnoc(p, front + [first], second);
    assert front + [first] + [second] == front + [first, second];
  }

  lemma FrameParses(f: Frame)
    requires CleanFrame(f)
    ensures ParseLines(FRESH, FrameLines(f)).0 == FRESH && ParseLines(FRESH, FrameLines(f)).1 == [EventOf(f)]
  {
    var data := DATA + [COLON, SPACE] + f.payload;
    var p := Parser(if f.Named? then f.event else [], []);
    NameParses(f);
    DataParses(p, f.payload);
    ParseTwoMore(FRESH, NameLines(f), data, []);
  }

  /** The data line of a frame and the blank line after it. */
  lemma DataParses(p: Parser, payload: Bytes)
    requires Clean(payload) && p.data == []
    ensures ParseLine(p, DATA + [COLON, SPACE] + payload) == (Parser(p.event, [payload]), [])
    ensures ParseLine(Parser(p.event, [payload]), []) == (FRESH, [Event(p.event, payload)])
  {
    FieldLine(p, DATA, payload);
    assert [] + [payload] == [payload];
  }

  lemma {:induction false} LinesParse(fs: seq<Frame>)
    requires forall k :: 0 <= k < |fs| ==> CleanFrame(fs[k])
    ensures ParseLines(FRESH, AllLines(fs)).0 == FRESH && ParseLines(FRESH, AllLines(fs)).1 == EventsOf(fs)
  {
    if fs != [] {
      FrameParses(fs[0]);
      LinesParse(fs[1..]);
      ParseLinesAppend(FRESH, FrameLines(fs[0]), AllLines(fs[1..]));
    }
  }

  lemma {:induction false} UnlinesAppend(a: seq<Bytes>, b: seq<Bytes>)
    ensures Unlines(a + b) == Unlines(a) + Unlines(b)
  {
    if a == [] {
      assert a + b == b;
    } else {
      assert (a + b)[1..] == a[1..] + b;
      UnlinesAppend(a[1..], b);
      Assoc(a[0] + [NL], Unlines(a[1..]), Unlines(b));
    }
  }

  lemma {:induction false} PrintsAreLines(fs: seq<Frame>)
    requires forall k :: 0 <= k < |fs| ==> CleanFrame(fs[k])
    ensures Concat(Prints(fs)) == Unlines(AllLines(fs))
    ensures forall k :: 0 <= k < |AllLines(fs)| ==> NL !in AllLines(fs)[k]
  {
    if fs != [] {
      PrintsAreLines(fs[1..]);
      UnlinesAppend(FrameLines(fs[0]), AllLines(fs[1..]));
      assert forall k :: 0 <= k < |FrameLines(fs[0])| ==> NL !in FrameLines(fs[0])[k];
    }
  }

  /** Parsing any sequence of printed frames, however it is cut into reads, returns exactly what was printed. */
  lemma PrintParse(fs: seq<Frame>, pieces: seq<Bytes>)
    requires forall k :: 0 <= k < |fs| ==> CleanFrame(fs[k])
    requires Concat(pieces) == Concat(Prints(fs))
    ensures AllEvents(Concat(pieces), Eof) == EventsOf(fs)
  {
    PrintsAreLines(fs);
    SplitUnlines(AllLines(fs), []);
    assert Unlines(AllLines(fs)) + [] == Unlines(AllLines(fs));
    LinesParse(fs);
    assert EventsOf(fs) + [] == EventsOf(fs);
  }

  // ----- Pass-through -----

  /** The payload the usage collector is shown for a line, if any; `trim` is white-space trimming. */
  function Payload(trim: Bytes -> Bytes, done: Bytes, raw: Bytes): seq<Bytes> {
    var line := TrimCR(raw);
    if DATA + [COLON] <= line then
      var value := trim(line[|DATA| + 1..]);
      if value == [] || value == done then [] else [value]
    else []
  }

  function Payloads(trim: Bytes -> Bytes, done: Bytes, lines: seq<Bytes>): seq<Bytes> {
    if lines == [] then [] else Payloads(trim, done, lines[..|lines| - 1]) + Payload(trim, done, lines[|lines| - 1])
  }

  /** The lines of one read, and what they show the collector; the unfinished line is carried over. */
  method Tee(trim: Bytes -> Bytes, done: Bytes, pending: Bytes, piece: Bytes) returns (rest: Bytes, shown: seq<Bytes>)
    ensures shown == Payloads(trim, done, Complete(pending + piece)) && rest == Rest(pending + piece)
  {
    var data := pending + piece;
    ghost var lines, whole := [], Complete(data);
    shown := [];
    var idx := Find(data, NL);
    while idx < |data|
      invariant idx == Find(data, NL)
      invariant whole == lines + Complete(data) && Rest(pending + piece) == Rest(data)
      invariant shown == Payloads(trim, done, lines)
      decreases |data|
    {
      var raw := data[..idx];
      shown := shown + Payload(trim, done, raw);
      Assoc(lines, [raw], Complete(data[idx + 1..]));
      assert (lines + [raw])[..|lines|] == lines;
      lines := lines + [raw];
      data := data[idx + 1..];
      idx := Find(data, NL);
    }
    assert lines + [] == lines;
    rest := data;
  }

  lemma {:induction false} PayloadsAppend(trim: Bytes -> Bytes, done: Bytes, a: seq<Bytes>, b: seq<Bytes>)
    ensures Payloads(trim, done, a + b) == Payloads(trim, done, a) + Payloads(trim, done, b)
  {
    if b == [] {
      assert a + b == a;
    } else {
      var front := b[..|b| - 1];
      assert (a + b)[..|a + b| - 1] == a + front;
      PayloadsAppend(trim, done, a, front);
      Assoc(Payloads(trim, done, a), Payloads(trim, done, front), Payload(trim, done, b[|b| - 1]));
    }
  }

  /**
   * A client that takes `room` reads and then goes away gets these reads as
   * they came. The collector is shown the data lines of the input, whatever the
   * split into reads, up to and including the read that could not be written.
   */
  method ProxyStream(pieces: seq<Bytes>, ending: Ending, room: nat, trim: Bytes -> Bytes, done: Bytes)
    returns (written: Bytes, observed: seq<Bytes>, outcome: Outcome)
    ensures written == Concat(pieces[..if room < |pieces| then room else |pieces|])
    ensures observed == Payloads(trim, done, Complete(Concat(pieces[..if room < |pieces| then room + 1 else |pieces|])))
    ensures outcome == if room < |pieces| then Refused else OutcomeOf(ending)
  {
    var pending := [];
    written, observed := [], [];
    for i := 0 to |pieces|
      invariant i <= room && written == Concat(pieces[..i]) && pending == Rest(written)
      invariant observed == Payloads(trim, done, Complete(written))
    {
      SplitAppend(written, pieces[i]);
      ConcatSnoc(pieces, i);
      PayloadsAppend(trim, done, Complete(written), Complete(pending + pieces[i]));
      var shown;
      pending, shown := Tee(trim, done, pending, pieces[i]);
      observed := observed + shown;
      if i == room { return written, observed, Refused; }
      written := written + pieces[i];
    }
    assert pieces[..|pieces|] == pieces;
    outcome := OutcomeOf(ending);
  }
}
