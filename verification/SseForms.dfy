/**
 * Event streams as others may write them: comments, lines without a colon,
 * unknown fields, several data lines, with or without a space after the colon,
 * ended by a line feed or a carriage return and a line feed.
 */
module SseForms {
  import opened Basics
  import opened Sse

  datatype Form =
    | Blank
    | Comment(text: Bytes)
    | Loose(text: Bytes)
    | Named(value: Bytes, spaced: bool)
    | Datum(value: Bytes, spaced: bool)
    | Unknown(name: Bytes, value: Bytes)

  /** A line, and whether a carriage return comes before its line feed. */
  datatype Line = Line(form: Form, cr: bool)

  const EVENT_NAME: Bytes := [101, 118, 101, 110, 116]
  const DATA_NAME: Bytes := [100, 97, 116, 97]

  function Spaced(value: Bytes, spaced: bool): Bytes {
    (if spaced then [32] else []) + value
  }

  function Text(form: Form): Bytes {
    match form
    case Blank => []
    case Comment(text) => [58] + text
    case Loose(text) => text
    case Named(value, spaced) => EVENT_NAME + [58] + Spaced(value, spaced)
    case Datum(value, spaced) => DATA_NAME + [58] + Spaced(value, spaced)
    case Unknown(name, value) => name + [58] + value
  }

  function Raw(line: Line): Bytes {
    Text(line.form) + if line.cr then [13] else []
  }

  /** The forms exclude each other, and the text does not end the line itself. */
  ghost predicate WellWritten(line: Line) {
    && 10 !in Text(line.form)
    && (!line.cr && Text(line.form) != [] ==> Text(line.form)[|Text(line.form)| - 1] != 13)
    && match line.form
       case Loose(text) => text != [] && 58 !in text
       case Named(value, spaced) => !spaced && value != [] ==> value[0] != 32
       case Datum(value, spaced) => !spaced && value != [] ==> value[0] != 32
       case Unknown(name, _) => name != [] && 58 !in name && name != EVENT_NAME && name != DATA_NAME
       case _ => true
  }

  // ----- What is meant -----

  /** The lines after the last blank one. */
  function Group(lines: seq<Line>): seq<Line> {
    if lines == [] || lines[|lines| - 1].form.Blank? then []
    else Group(lines[..|lines| - 1]) + [lines[|lines| - 1]]
  }

  /** The latest name in a group. */
  function NameIn(group: seq<Line>): Bytes {
    if group == [] then []
    else
      match group[|group| - 1].form
      case Named(value, _) => value
      case _ => NameIn(group[..|group| - 1])
  }

  function DataIn(group: seq<Line>): seq<Bytes> {
    if group == [] then []
    else
      DataIn(group[..|group| - 1]) +
        match group[|group| - 1].form
        case Datum(value, _) => [value]
        case _ => []
  }

  /** The pieces with line feeds between them. */
  function Glued(parts: seq<Bytes>): Bytes {
    if parts == [] then []
    else if |parts| == 1 then parts[0]
    else Glued(parts[..|parts| - 1]) + [10] + parts[|parts| - 1]
  }

  /** A group with data is an event; one without is none. */
  function EventIn(group: seq<Line>): seq<Event> {
    if DataIn(group) == [] then [] else [Event(NameIn(group), Glued(DataIn(group)))]
  }

  /** The events dispatched by blank lines. */
  function Dispatched(lines: seq<Line>): seq<Event> {
    if lines == [] then []
    else
      var front := lines[..|lines| - 1];
      Dispatched(front) + if lines[|lines| - 1].form.Blank? then EventIn(Group(front)) else []
  }

  /** What the whole input means: a group left open counts only if the input came to its end. */
  function Meant(lines: seq<Line>, ending: Ending): seq<Event> {
    Dispatched(lines) + if ending.Eof? then EventIn(Group(lines)) else []
  }

  // ----- The parser agrees -----

  lemma TrimmedRaw(line: Line)
    requires WellWritten(line)
    ensures TrimCR(Raw(line)) == Text(line.form)
  {
    var text := Text(line.form);
    if line.cr {
      assert Raw(line)[..|Raw(line)| - 1] == text;
    } else {
      assert Raw(line) == text;
    }
  }

  lemma ColonAt(name: Bytes, rest: Bytes)
    requires 58 !in name
    ensures Find(name + [58] + rest, COLON) == |name|
    ensures (name + [58] + rest)[..|name|] == name && (name + [58] + rest)[|name| + 1..] == rest
  {
    var s := name + [58] + rest;
    assert s[..|name|] == name && s[|name|] == 58;
    FindIs(s, COLON, |name|);
  }

  lemma {:induction false} NoColonAt(s: Bytes)
    requires 58 !in s
    ensures Find(s, COLON) == |s|
  {
    if s != [] { NoColonAt(s[1..]); }
  }

  lemma Unspaced(value: Bytes, spaced: bool)
    requires !spaced && value != [] ==> value[0] != 32
    ensures TrimSpacePrefix(Spaced(value, spaced)) == value
  {
    if spaced {
      assert Spaced(value, spaced)[1..] == value;
    } else {
      assert Spaced(value, spaced) == value;
    }
  }

  /** What one line does to the event under construction. */
  function Taken(p: Parser, form: Form): (Parser, seq<Event>) {
    match form
    case Blank => (FRESH, if p.data == [] then [] else [Event(p.event, Glued(p.data))])
    case Named(value, _) => (Parser(value, p.data), [])
    case Datum(value, _) => (Parser(p.event, p.data + [value]), [])
    case _ => (p, [])
  }

  lemma LineTaken(p: Parser, line: Line)
    requires WellWritten(line)
    ensures ParseLine(p, Raw(line)) == Taken(p, line.form)
  {
    TrimmedRaw(line);
    match line.form
    case Blank => JoinGlued(p.data);
    case Comment(text) => CommentTaken(p, Raw(line), text);
    case Loose(text) => LooseTaken(p, Raw(line), text);
    case Named(value, spaced) =>
      Unspaced(value, spaced);
      FieldTaken(p, Raw(line), EVENT_NAME, Spaced(value, spaced));
    case Datum(value, spaced) =>
      Unspaced(value, spaced);
      FieldTaken(p, Raw(line), DATA_NAME, Spaced(value, spaced));
    case Unknown(name, value) => FieldTaken(p, Raw(line), name, value);
  }

  lemma CommentTaken(p: Parser, raw: Bytes, text: Bytes)
    requires TrimCR(raw) == [58] + text
    ensures ParseLine(p, raw) == (p, [])
  {
    ColonAt([], text);
    assert [] + [58] + text == [58] + text;
  }

  lemma LooseTaken(p: Parser, raw: Bytes, text: Bytes)
    requires TrimCR(raw) == text && text != [] && 58 !in text
    ensures ParseLine(p, raw) == (p, [])
  {
    NoColonAt(text);
  }

  lemma FieldTaken(p: Parser, raw: Bytes, name: Bytes, rest: Bytes)
    requires TrimCR(raw) == name + [58] + rest && name != [] && 58 !in name
    ensures
      ParseLine(p, raw) ==
        if name == EVENT_NAME then (Parser(TrimSpacePrefix(rest), p.data), [])
        else if name == DATA_NAME then (Parser(p.event, p.data + [TrimSpacePrefix(rest)]), [])
        else (p, [])
  {
    ColonAt(name, rest);
  }

  lemma {:induction false} JoinGlued(parts: seq<Bytes>)
    ensures Join(parts) == Glued(parts)
    decreases |parts|
  {
    if |parts| > 1 {
      var front, last := parts[..|parts| - 1], parts[|parts| - 1];
      assert parts == front + [last];
      JoinGlued(front);
      JoinSnoc(front, last);
    }
  }

  lemma {:induction false} JoinSnoc(front: seq<Bytes>, last: Bytes)
    requires front != []
    ensures Join(front + [last]) == Join(front) + [10] + last
  {
    var all := front + [last];
    assert all[0] == front[0];
    if |front| == 1 {
      assert all[1..] == [last] && Join([last]) == last;
    } else {
      assert all[1..] == front[1..] + [last];
      JoinSnoc(front[1..], last);
      Assoc(front[0] + [NL], Join(front[1..]), [10] + last);
      Assoc(Join(front), [10], last);
      Assoc(Join(front[1..]), [10], last);
    }
  }

  function Raws(lines: seq<Line>): (r: seq<Bytes>)
    ensures |r| == |lines| && forall k :: 0 <= k < |r| ==> r[k] == Raw(lines[k])
  {
    seq(|lines|, k requires 0 <= k < |lines| => Raw(lines[k]))
  }

  lemma OneMoreTaken(raws: seq<Bytes>, line: Line)
    requires WellWritten(line)
    ensures
      var (p, es) := ParseLines(FRESH, raws);
      && ParseLines(FRESH, raws + [Raw(line)]).0 == Taken(p, line.form).0
      && ParseLines(FRESH, raws + [Raw(line)]).1 == es + Taken(p, line.form).1
  {
    ParseLinesSnoc(FRESH, raws, Raw(line));
    LineTaken(ParseLines(FRESH, raws).0, line);
  }

  lemma RawsSnoc(front: seq<Line>, last: Line)
    ensures Raws(front + [last]) == Raws(front) + [Raw(last)]
  {
  }

  /** The parser stands where the lines leave off, and has delivered what they dispatch. */
  ghost predicate Agrees(raws: seq<Bytes>, lines: seq<Line>) {
    ParseLines(FRESH, raws).0 == Standing(lines) && ParseLines(FRESH, raws).1 == Dispatched(lines)
  }

  lemma AgreesFirst()
    ensures Agrees([], [])
  {
  }

  lemma AgreesNext(raws: seq<Bytes>, front: seq<Line>, last: Line)
    requires Agrees(raws, front) && WellWritten(last)
    ensures Agrees(raws + [Raw(last)], front + [last])
  {
    OneMoreTaken(raws, last);
    NextStanding(front, last);
  }

  ghost predicate AllWritten(lines: seq<Line>) {
    forall k :: 0 <= k < |lines| ==> WellWritten(lines[k])
  }

  lemma LastWritten(lines: seq<Line>)
    requires AllWritten(lines) && lines != []
    ensures
      var front, last := lines[..|lines| - 1], lines[|lines| - 1];
      AllWritten(front) && WellWritten(last) && lines == front + [last]
  {
  }

  lemma {:induction false} LinesTaken(lines: seq<Line>) returns (raws: seq<Bytes>)
    requires AllWritten(lines)
    ensures raws == Raws(lines) && Agrees(raws, lines)
  {
    if lines == [] {
      raws := [];
      AgreesFirst();
    } else {
      var front, last := lines[..|lines| - 1], lines[|lines| - 1];
      LastWritten(lines);
      raws := LinesTaken(front);
      AgreesNext(raws, front, last);
      RawsSnoc(front, last);
      raws := raws + [Raw(last)];
    }
  }

  /** The event under construction after these lines. */
  function Standing(lines: seq<Line>): Parser {
    Parser(NameIn(Group(lines)), DataIn(Group(lines)))
  }

  lemma NextStanding(front: seq<Line>, last: Line)
    ensures Taken(Standing(front), last.form).0 == Standing(front + [last])
    ensures Dispatched(front + [last]) == Dispatched(front) + Taken(Standing(front), last.form).1
  {
    GroupSnoc(front, last);
    assert (front + [last])[..|front|] == front;
  }

  lemma GroupSnoc(front: seq<Line>, last: Line)
    ensures
      var lines := front + [last];
      && (last.form.Blank? ==> Group(lines) == [])
      && (!last.form.Blank? ==>
            && NameIn(Group(lines)) == (if last.form.Named? then last.form.value else NameIn(Group(front)))
            && DataIn(Group(lines)) == DataIn(Group(front)) + if last.form.Datum? then [last.form.value] else [])
  {
    var lines := front + [last];
    assert lines[..|front|] == front;
    if !last.form.Blank? { assert Group(lines)[..|Group(front)|] == Group(front); }
  }

  /**
   * Parsing any such lines gives the events they mean: data lines joined by
   * line feeds, the latest name, nothing for a group without data; a group left
   * open at the end of the input counts, one cut off does not, and neither does
   * what follows the last line feed.
   */
  lemma FormsMean(lines: seq<Line>, tail: Bytes, ending: Ending)
    requires 10 !in tail && AllWritten(lines)
    ensures AllEvents(Unlines(Raws(lines)) + tail, ending) == Meant(lines, ending)
  {
    forall k | 0 <= k < |lines| ensures NL !in Raws(lines)[k] {
      assert WellWritten(lines[k]);
    }
    SplitUnlines(Raws(lines), tail);
    var raws := LinesTaken(lines);
    JoinGlued(DataIn(Group(lines)));
  }

  // ----- What the collector is shown -----

  /** A data line shows its trimmed value, unless that is empty or the marker. */
  lemma DataShown(trim: Bytes -> Bytes, done: Bytes, rest: Bytes, cr: bool)
    requires !cr && rest != [] ==> rest[|rest| - 1] != 13
    ensures
      Payload(trim, done, [100, 97, 116, 97, 58] + rest + if cr then [13] else []) ==
        if trim(rest) == [] || trim(rest) == done then [] else [trim(rest)]
  {
    var line := [100, 97, 116, 97, 58] + rest;
    var raw := line + if cr then [13] else [];
    if cr { assert raw[..|raw| - 1] == line; } else { assert raw == line; }
    assert TrimCR(raw) == line && line[5..] == rest;
    assert line[..5] == DATA + [COLON];
  }

  /** Other lines show nothing. */
  lemma OnlyDataShown(trim: Bytes -> Bytes, done: Bytes, raw: Bytes)
    ensures Payload(trim, done, raw) != [] ==> |raw| >= 5 && raw[..5] == [100, 97, 116, 97, 58]
  {
    var line := TrimCR(raw);
    if DATA + [COLON] <= line {
      assert line[..5] == DATA + [COLON];
      assert raw[..5] == line[..5];
    }
  }

  // ----- How a scan ends -----

  /** The scan ends as its input does, unless the callback refused one of the events meant. */
  lemma ScanEnds(bytes: Bytes, ending: Ending, accept: Callback)
    ensures
      var all, result := AllEvents(bytes, ending), Result(bytes, ending, accept);
      && (result == Refused <==> exists k :: 0 < k <= |all| && !accept(all[..k]))
      && (result == Scanned ==> ending == Eof) && (result == Broken ==> ending == ReadError)
      && (result == Stopped ==> ending == Cancelled)
  {
  }
}
