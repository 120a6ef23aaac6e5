/** What an Anthropic client reads of a Responses upstream's stream. */
module PipelineProofs {
  import opened Basics
  import opened Wire
  import opened ChatUnits
  import opened Pipeline
  import C = ChatToAnthropic
  import P = ChatToAnthropicProofs
  import R = ResponsesToChat
  import RP = ResponsesToChatProofs
  import Reader = ChatReader
  import Sse

  // ----- The chunks of the first translator -----

  /** A step sends a chunk exactly when its action speaks or ends the stream. */
  lemma StepSends(ids: IdSource, s: R.State, front: seq<R.Input>, x: R.Input)
    requires RP.Tracks(s, front) && !s.finished
    ensures ChunksOf(R.Step(ids, s, x).1) != [] <==> RP.Speaks(front, x.action) || RP.Ends(x.action)
  {
    var fs := R.Step(ids, s, x).1;
    if x.action.DoneItem? { RP.IndexIsPlace(s, front, x.action.key); }
    if fs != [] {
      assert ChunksOf(fs) == ChunkIn(fs[0]) + ChunksOf(fs[1..]);
    }
  }

  lemma {:induction false} RunSends(u: Setup, xs: seq<R.Input>)
    ensures ChunksOf(ChatFrames(u, xs)) != [] <==> RP.Spoke(RP.Live(xs)) || RP.Over(RP.Live(xs))
  {
    if xs != [] {
      var front, x := xs[..|xs| - 1], xs[|xs| - 1];
      var (s, fs) := R.Run(u.chatIds, R.Start(u.model, u.chatId), front);
      RunSends(u, front);
      RP.RunReads(u.chatIds, u.model, u.chatId, front);
      ChunksOfAppend(fs, R.Step(u.chatIds, s, x).1);
      if !s.finished {
        StepSends(u.chatIds, s, RP.Live(front), x);
        RP.SpokeSnoc(RP.Live(front), x);
        assert (RP.Live(front) + [x])[|RP.Live(front)|] == x;
      }
    }
  }

  /** Of the chunks a reader accepts, only the last may finish. */
  lemma {:induction false} OnlyLastFinishes(r: Reader.Reply, fs: seq<ChatFrame>)
    requires r.finish.None? && !r.done && Reader.Read(Some(r), fs).Some?
    ensures
      var chunks, end := ChunksOf(fs), Reader.Read(Some(r), fs).value;
      && (forall k :: 0 <= k < |chunks| - 1 ==> !C.Finishes(chunks[k]))
      && (P.Stopped(chunks) <==> end.finish.Some?)
      && (end.finish.Some? ==> chunks[|chunks| - 1].choices[0].finish == end.finish)
    decreases fs
  {
    if fs != [] {
      var r1 := Reader.ReadFrame(r, fs[0]).value;
      if r1.finish.None? {
        OnlyLastFinishes(r1, fs[1..]);
        assert ChunksOf(fs) == [fs[0].chunk] + ChunksOf(fs[1..]);
      } else {
        OnlyDoneAfter(r1, fs[1..]);
        assert ChunksOf(fs) == [fs[0].chunk] + [];
      }
    }
  }

  lemma {:induction false} OnlyDoneAfter(r: Reader.Reply, fs: seq<ChatFrame>)
    requires r.finish.Some? && Reader.Read(Some(r), fs).Some?
    ensures ChunksOf(fs) == [] && Reader.Read(Some(r), fs).value.finish == r.finish
    decreases fs
  {
    if fs != [] {
      OnlyDoneAfter(Reader.ReadFrame(r, fs[0]).value, fs[1..]);
    }
  }

  function StopFor(xs: seq<R.Input>): string {
    if RP.Over(xs) then C.ChatFinishToAnthropic(RP.FinishIn(xs)) else "end_turn"
  }

  lemma LiveChunks(u: Setup, xs: seq<R.Input>)
    ensures
      var chunks := ChunksOf(ChatFrames(u, xs));
      && P.Live(Received(ChatFrames(u, xs))) == chunks
      && P.StopIn(chunks) == StopFor(RP.Live(xs))
      && P.Units(chunks) == UnitsIn(ChatFrames(u, xs))
  {
    var fs := ChatFrames(u, xs);
    RP.RunReads(u.chatIds, u.model, u.chatId, xs);
    OnlyLastFinishes(Reader.NO_REPLY, fs);
    LiveWhileOpen(ChunksOf(fs));
  }

  lemma CallsAppend(us: seq<C.Unit>, vs: seq<C.Unit>, tool: int)
    requires P.Calls(us, tool) || (vs != [] && vs[0].Call? && vs[0].tool == tool)
    ensures P.Calls(us + vs, tool)
  {
    if P.Calls(us, tool) {
      var q :| 0 <= q < |us| && us[q].Call? && us[q].tool == tool;
      assert (us + vs)[q] == us[q];
    } else {
      assert (us + vs)[|us|] == vs[0];
    }
  }

  lemma AddCalls(ids: IdSource, s: R.State, front: seq<R.Input>, x: R.Input, fs: seq<ChatFrame>, place: nat)
    requires RP.Tracks(s, front) && !s.finished
    requires place < |RP.Slots(front + [x])| && (place < |RP.Slots(front)| ==> P.Calls(UnitsIn(fs), place))
    ensures P.Calls(UnitsIn(fs + R.Step(ids, s, x).1), place)
  {
    var s' := s.(model := if s.model == "" then x.model else s.model);
    UnitsInAppend(fs, R.Step(ids, s, x).1);
    RP.ActUnits(ids, s', x.action);
    RP.SlotsSnoc(front, x);
    CallsAppend(UnitsIn(fs), RP.StepUnits(ids, s', x.action), place);
  }

  /** Every announced item is called on the Chat side under its place. */
  lemma {:induction false} AnnouncedIsCalled(u: Setup, xs: seq<R.Input>, place: nat)
    requires place < |RP.Slots(RP.Live(xs))|
    ensures P.Calls(UnitsIn(ChatFrames(u, xs)), place)
  {
    if xs != [] {
      var front, x := xs[..|xs| - 1], xs[|xs| - 1];
      var (s, fs) := R.Run(u.chatIds, R.Start(u.model, u.chatId), front);
      RP.RunReads(u.chatIds, u.model, u.chatId, front);
      if place < |RP.Slots(RP.Live(front))| { AnnouncedIsCalled(u, front, place); }
      if s.finished {
        assert fs + [] == fs;
      } else {
        AddCalls(u.chatIds, s, RP.Live(front), x, fs, place);
      }
    }
  }

  // ----- The output token count -----

  /** The output tokens the upstream reports when it completes the response. */
  function OutputFor(xs: seq<R.Input>): Option<int> {
    if xs != [] && xs[|xs| - 1].action.Complete? then xs[|xs| - 1].action.output else None
  }

  predicate Untold(s: R.State) {
    s.promptTokens.None? && s.completionTokens.None?
  }

  lemma EndOutput(ids: IdSource, s: R.State, front: seq<R.Input>, x: R.Input, fs: seq<ChatFrame>)
    requires RP.Ends(x.action) && !s.finished && Untold(s)
    ensures P.OutputIn(ChunksOf(fs + R.Step(ids, s, x).1)) == OutputFor(front + [x])
  {
    var more := R.Step(ids, s, x).1;
    assert more == [more[0]] + [Done];
    ChunksOfAppend(fs, more);
    ChunksOfAppend([more[0]], [Done]);
    assert ChunksOf([Done]) == ChunkIn(Done) + ChunksOf([]);
    assert ChunksOf([more[0]]) == ChunkIn(more[0]) + ChunksOf([]);
    assert ChunksOf(more) == [more[0].chunk];
    assert (front + [x])[|front|] == x;
  }

  lemma {:induction false} RunUntold(u: Setup, xs: seq<R.Input>)
    ensures
      var s := R.Run(u.chatIds, R.Start(u.model, u.chatId), xs).0;
      !s.finished ==> Untold(s)
  {
    if xs != [] { RunUntold(u, xs[..|xs| - 1]); }
  }

  lemma {:induction false} RunOutput(u: Setup, xs: seq<R.Input>)
    ensures P.OutputIn(ChunksOf(ChatFrames(u, xs))) == OutputFor(RP.Live(xs))
  {
    if RP.Over(RP.Live(xs)) {
      var front, x := xs[..|xs| - 1], xs[|xs| - 1];
      assert xs == front + [x];
      if RP.Over(RP.Live(front)) {
        RunOutput(u, front);
        StaysOver(u, front, x);
      } else {
        LastOutput(u, front, x);
      }
    } else {
      OverStops(u, xs);
    }
  }

  lemma LiveSnoc(front: seq<R.Input>, x: R.Input)
    ensures RP.Live(front + [x]) == if RP.Over(RP.Live(front)) then RP.Live(front) else RP.Live(front) + [x]
  {
    assert (front + [x])[..|front|] == front;
  }

  /** Nothing follows what ended the stream. */
  lemma StaysOver(u: Setup, front: seq<R.Input>, x: R.Input)
    requires RP.Over(RP.Live(front))
    ensures ChatFrames(u, front + [x]) == ChatFrames(u, front) && RP.Live(front + [x]) == RP.Live(front)
  {
    LiveSnoc(front, x);
    ChatNext(u, front, x);
    RP.RunReads(u.chatIds, u.model, u.chatId, front);
    assert ChatFrames(u, front) + [] == ChatFrames(u, front);
  }

  lemma LastOutput(u: Setup, front: seq<R.Input>, x: R.Input)
    requires !RP.Over(RP.Live(front)) && RP.Over(RP.Live(front + [x]))
    ensures P.OutputIn(ChunksOf(ChatFrames(u, front + [x]))) == OutputFor(RP.Live(front + [x]))
  {
    var s := R.Run(u.chatIds, R.Start(u.model, u.chatId), front).0;
    LiveSnoc(front, x);
    assert RP.Live(front + [x])[|RP.Live(front)|] == x;
    ChatNext(u, front, x);
    RP.RunReads(u.chatIds, u.model, u.chatId, front);
    RunUntold(u, front);
    EndOutput(u.chatIds, s, RP.Live(front), x, ChatFrames(u, front));
  }

  /** The chunks finish exactly if a live event ended the stream. */
  lemma OverStops(u: Setup, xs: seq<R.Input>)
    ensures P.Stopped(ChunksOf(ChatFrames(u, xs))) <==> RP.Over(RP.Live(xs))
  {
    RP.RunReads(u.chatIds, u.model, u.chatId, xs);
    OnlyLastFinishes(Reader.NO_REPLY, ChatFrames(u, xs));
  }

  // ----- The head of an item's block -----

  /** The event that announced the item first. */
  function FirstAdd(xs: seq<R.Input>, key: string): Option<R.Action> {
    if xs == [] then None
    else
      var before, a := FirstAdd(xs[..|xs| - 1], key), xs[|xs| - 1].action;
      if before.None? && a.AddItem? && a.key == key then Some(a) else before
  }

  /** The unit carries the item's name and, if it has one, its call id. */
  predicate Introduces(unit: Option<C.Unit>, a: Option<R.Action>) {
    && unit.Some? && unit.value.Call? && a.Some? && a.value.AddItem?
    && unit.value.name == a.value.name && (a.value.callId != "" ==> unit.value.id == a.value.callId)
  }

  /** Announced items are introduced by their announcement, and no other place is called. */
  ghost predicate Introduced(us: seq<C.Unit>, xs: seq<R.Input>) {
    var slots := RP.Slots(xs);
    && (forall place: nat :: |slots| <= place ==> P.FirstCall(us, place).None?)
    && (forall key :: key != "" && key in slots ==> Introduces(P.FirstCall(us, IndexOf(slots, key)), FirstAdd(xs, key)))
    && (forall key :: key != "" && key !in slots ==> FirstAdd(xs, key).None?)
  }

  /** The place the units of one step call, if any. */
  lemma StepCalls(ids: IdSource, s: R.State, front: seq<R.Input>, x: R.Input, place: nat)
    requires RP.Tracks(s, front) && RP.Stable(front + [x])
    ensures
      var first, slots, a := P.FirstCall(RP.StepUnits(ids, s, x.action), place), RP.Slots(front), x.action;
      if a.AddItem? && place == Reader.PlaceOf(slots, a.key, "") then Introduces(first, Some(a))
      else |slots| <= place ==> first.None?
  {
    var us, a, slots := RP.StepUnits(ids, s, x.action), x.action, RP.Slots(front);
    RP.StableFront(front, x);
    if |us| == 1 {
      assert us == [us[0]];
      FirstOfOne(us[0], place);
    } else {
      assert P.FirstCall([], place) == None;
    }
    if a.AddItem? { Reader.NumbersPlace(s.toolByItem, slots, "", a.key); }
    if a.Json? { RP.IndexIsPlace(s, front, a.item); }
    if a.DoneItem? { RP.IndexIsPlace(s, front, a.key); }
  }

  lemma AddSnoc(front: seq<R.Input>, x: R.Input, key: string)
    ensures FirstAdd(front + [x], key) ==
      if FirstAdd(front, key).None? && x.action.AddItem? && x.action.key == key then Some(x.action)
        else FirstAdd(front, key)
  {
    assert (front + [x])[..|front|] == front;
  }

  lemma StepIntroduces(ids: IdSource, s: R.State, front: seq<R.Input>, x: R.Input, us: seq<C.Unit>)
    requires RP.Tracks(s, front) && RP.Stable(front + [x]) && Introduced(us, front)
    ensures Introduced(us + RP.StepUnits(ids, s, x.action), front + [x])
  {
    var vs, slots, a := RP.StepUnits(ids, s, x.action), RP.Slots(front), x.action;
    var more := RP.Slots(front + [x]);
    RP.SlotsSnoc(front, x);
    forall place: nat | |more| <= place ensures P.FirstCall(us + vs, place).None? {
      FirstCallAppend(us, vs, place);
      StepCalls(ids, s, front, x, place);
    }
    forall key | key != "" && key in more ensures Introduces(P.FirstCall(us + vs, IndexOf(more, key)),
      FirstAdd(front + [x], key)) {
      AddSnoc(front, x, key);
      FirstCallAppend(us, vs, IndexOf(more, key));
      if key in slots {
        RP.SamePlace(slots, more, key);
      } else {
        NewPlace(slots, key);
        StepCalls(ids, s, front, x, |slots|);
      }
    }
    forall key | key != "" && key !in more ensures FirstAdd(front + [x], key).None? {
      AddSnoc(front, x, key);
    }
  }

  lemma NewPlace(slots: seq<string>, key: string)
    requires key !in slots
    ensures IndexOf(slots + [key], key) == |slots|
  {
    assert (slots + [key])[|slots|] == key;
    assert (slots + [key])[..|slots|] == slots;
  }

  lemma {:induction false} RunIntroduces(u: Setup, xs: seq<R.Input>)
    requires RP.Stable(RP.Live(xs))
    ensures Introduced(UnitsIn(ChatFrames(u, xs)), RP.Live(xs))
  {
    if xs == [] {
      assert UnitsIn([]) == [];
    } else {
      var front, x := xs[..|xs| - 1], xs[|xs| - 1];
      var (s, fs) := R.Run(u.chatIds, R.Start(u.model, u.chatId), front);
      RP.RunReads(u.chatIds, u.model, u.chatId, front);
      if s.finished {
        assert fs + [] == fs;
        RunIntroduces(u, front);
      } else {
        RP.StableFront(RP.Live(front), x);
        RunIntroduces(u, front);
        var s' := s.(model := if s.model == "" then x.model else s.model);
        UnitsInAppend(fs, R.Step(u.chatIds, s, x).1);
        RP.ActUnits(u.chatIds, s', x.action);
        StepIntroduces(u.chatIds, s', RP.Live(front), x, UnitsIn(fs));
      }
    }
  }

  // ----- What the client reads -----

  /** Some live event says something or ends the stream: the client gets a message start. */
  ghost predicate Answers(xs: seq<R.Input>) {
    RP.Spoke(RP.Live(xs)) || RP.Over(RP.Live(xs))
  }

  /** The stream is finished for the client: an event ended it, the marker came, or the response was read to its end. */
  predicate Closed(events: seq<ResponsesEvent>, ending: Sse.Ending) {
    ending.Eof? || Upstream(events) != events || RP.Over(RP.Live(Inputs(events)))
  }

  lemma ClosedInlet(u: Setup, events: seq<ResponsesEvent>, ending: Sse.Ending)
    requires Closed(events, ending)
    ensures Inlet(u, events, ending) == C.Stream(u.ids, u.model, u.id, Received(ChatFrames(u, Inputs(events))))
  {
    var input := Received(ChatFrames(u, Inputs(events)));
    var (s, fs) := C.Run(u.ids, C.Start(u.model, u.id), input);
    assert fs + C.Finish(s).1 + [] == fs + C.Finish(s).1;
    if Upstream(events) == events && !ending.Eof? {
      LiveChunks(u, Inputs(events));
      P.RunIs(u.ids, u.model, u.id, input);
      OverStops(u, Inputs(events));
      assert fs + [] == fs;
    }
  }

  /** A stream that is not finished leaves its reader in the middle of the message. */
  lemma OpenInlet(u: Setup, events: seq<ResponsesEvent>, ending: Sse.Ending)
    requires !Closed(events, ending)
    ensures
      var chunks := ChunksOf(ChatFrames(u, Inputs(events)));
      var r := P.Read(false, Some(P.Waiting), Inlet(u, events, ending));
      if chunks == [] then r == Some(P.Waiting)
      else
        var m := P.MessageOf(u.ids, u.model, u.id, chunks);
        r == Some(P.Reading(m.id, m.model, m.blocks, !C.EmitAll(u.ids, C.NO_BLOCKS, P.Units(chunks)).0.open.Closed?))
  {
    var chunks := ChunksOf(ChatFrames(u, Inputs(events)));
    var input := Received(ChatFrames(u, Inputs(events)));
    LiveChunks(u, Inputs(events));
    OverStops(u, Inputs(events));
    P.RunIs(u.ids, u.model, u.id, input);
    if chunks != [] {
      var name, us := P.NameIn(u.model, chunks), P.Units(chunks);
      var body := C.EmitAll(u.ids, C.NO_BLOCKS, us).1;
      assert [MessageStart(u.id, name)] + body + [] == [MessageStart(u.id, name)] + body;
      P.OpeningReads(false, u.id, name, body);
      P.UnitsRead(false, u.ids, u.id, name, us);
    }
  }

  /**
   * For every Responses event sequence and every way its reads can end. The
   * client gets a message exactly if some live event said something or ended
   * the stream. It is complete exactly if, besides, the stream was finished;
   * else the reader is left in the middle of it. Its content is the upstream
   * text (with the "[Error] " text when an error ends it) and reasoning; its
   * stop reason and output count are the upstream's; and, in a run whose
   * argument events all name announced items, every item whose deltas precede
   * its finished form has one tool block with its name, its call id and its
   * arguments, taken from the deltas or from the finished item but never both.
   */
  lemma InletReads(u: Setup, events: seq<ResponsesEvent>, ending: Sse.Ending)
    returns (message: P.Message, blockOf: map<int, nat>, open: bool)
    ensures P.Read(false, Some(P.Waiting), Inlet(u, events, ending)) == Outcome(events, ending, message, open)
    ensures Answers(Inputs(events)) ==> Tells(message, u, RP.Live(Inputs(events)))
    ensures
      var chunks := ChunksOf(ChatFrames(u, Inputs(events)));
      Answers(Inputs(events)) ==> chunks != [] && message.model == P.NameIn(u.model, chunks)
    ensures
      var live := RP.Live(Inputs(events));
      Answers(Inputs(events)) ==> forall key :: KeptItem(live, key) ==> HasBlock(message.blocks, blockOf, live, key)
    ensures forall i, j :: i in blockOf && j in blockOf && i != j ==> blockOf[i] != blockOf[j]
  {
    var xs, fs := Inputs(events), ChatFrames(u, Inputs(events));
    var live, chunks := RP.Live(xs), ChunksOf(ChatFrames(u, xs));
    RunSends(u, xs);
    LiveChunks(u, xs);
    message, blockOf, open := P.Message("", "", [], "", None), map[], false;
    if Closed(events, ending) {
      ClosedInlet(u, events, ending);
      P.StreamReads(false, u.ids, u.model, u.id, Received(fs));
    } else {
      OpenInlet(u, events, ending);
    }
    if chunks != [] {
      message := P.MessageOf(u.ids, u.model, u.id, chunks);
      blockOf := C.Run(u.ids, C.Start(u.model, u.id), Received(fs)).0.blocks.tools;
      open := !C.EmitAll(u.ids, C.NO_BLOCKS, P.Units(chunks)).0.open.Closed?;
      P.StreamConserves(u.ids, u.model, u.id, Received(fs));
      RP.RunKeeps(u.chatIds, u.model, u.chatId, xs);
      RunOutput(u, xs);
      forall key | KeptItem(live, key) ensures HasBlock(message.blocks, blockOf, live, key) {
        ItemBlock(u, xs, key, message.blocks, blockOf);
      }
    }
  }

  /** What the reader has in the end. */
  ghost function Outcome(events: seq<ResponsesEvent>, ending: Sse.Ending, message: P.Message,
      open: bool): Option<P.Reader> {
    if Answers(Inputs(events)) then
      if Closed(events, ending) then Some(P.Complete(message))
      else Some(P.Reading(message.id, message.model, message.blocks, open))
    else if Closed(events, ending) then None
    else Some(P.Waiting)
  }

  predicate Tells(message: P.Message, u: Setup, live: seq<R.Input>) {
    && message.id == u.id && P.TextOf(message.blocks) == RP.TextIn(live) &&
         P.ThinkingOf(message.blocks) == RP.ReasonIn(live)
    && message.stop == StopFor(live) && message.output == OutputFor(live)
  }

  /** An announced item whose deltas precede its finished form, in a run whose argument events name announced items. */
  ghost predicate KeptItem(live: seq<R.Input>, key: string) {
    key != "" && key in RP.Slots(live) && RP.Stable(live) && RP.DeltasFirst(live, key)
  }

  ghost predicate HasBlock(blocks: seq<P.Block>, blockOf: map<int, nat>, live: seq<R.Input>, key: string)
    requires key in RP.Slots(live)
  {
    var tool := IndexOf(RP.Slots(live), key);
    && tool in blockOf && blockOf[tool] < |blocks|
    && Heads(blocks[blockOf[tool]].head, FirstAdd(live, key))
    && blocks[blockOf[tool]].text == if RP.HasDelta(live, key) then RP.DeltaText(live, key) else RP.DoneText(live, key)
  }

  /** The head carries the item's name and, if it has one, its call id. */
  predicate Heads(head: BlockHead, a: Option<R.Action>) {
    && head.ToolHead? && a.Some? && a.value.AddItem?
    && head.name == a.value.name && (a.value.callId != "" ==> head.id == a.value.callId)
  }

  lemma ItemBlock(u: Setup, xs: seq<R.Input>, key: string, blocks: seq<P.Block>, blockOf: map<int, nat>)
    requires KeptItem(RP.Live(xs), key)
    requires
      var us := UnitsIn(ChatFrames(u, xs));
      && (forall i :: i in blockOf <==> P.Calls(us, i))
      && (forall i :: i in blockOf ==> blockOf[i] < |blocks| && blocks[blockOf[i]].text == P.ArgumentsOf(us, i))
      && (forall i :: i in blockOf ==> P.HeadFrom(blocks[blockOf[i]].head, P.FirstCall(us, i)))
    ensures HasBlock(blocks, blockOf, RP.Live(xs), key)
  {
    var live := RP.Live(xs);
    RP.RunKeeps(u.chatIds, u.model, u.chatId, xs);
    RP.ItemArguments(live, key);
    RunIntroduces(u, xs);
    AnnouncedIsCalled(u, xs, IndexOf(RP.Slots(live), key));
  }

  /** The client's reader ends with a complete message exactly if the upstream answered and the stream was finished. */
  lemma AcceptedExactly(u: Setup, events: seq<ResponsesEvent>, ending: Sse.Ending)
    ensures
      var r := P.Read(false, Some(P.Waiting), Inlet(u, events, ending));
      r.Some? && r.value.Complete? <==> Answers(Inputs(events)) && Closed(events, ending)
  {
    var _, _, _ := InletReads(u, events, ending);
  }

  /** One text delta, then a broken connection: the client has the text, and no end of it. */
  lemma BrokenIsLeftOpen(u: Setup, raw: string, text: string) returns (events: seq<ResponsesEvent>)
    requires raw != "[DONE]" && text != ""
    ensures |events| == 1 && events[0].raw == raw
    ensures
      var r := P.Read(false, Some(P.Waiting), Inlet(u, events, Sse.ReadError));
      r.Some? && r.value.Reading? && P.TextOf(r.value.blocks) == text
    ensures
      var r := P.Read(false, Some(P.Waiting), Inlet(u, events, Sse.Eof));
      r.Some? && r.value.Complete? && P.TextOf(r.value.message.blocks) == text
  {
    var typ := "response.output_text.delta";
    var e := SseEvent(typ, raw, Some(ResponsesPayload(typ, text, "", None, None, None, "")));
    events := [e];
    assert Upstream(events) == events by { assert events[1..] == []; }
    var xs := Inputs(events);
    var x := R.Input("", R.Text(text));
    assert R.Decode(e) == x;
    assert xs == [x];
    OneText(x, text);
    var broken, _, _ := InletReads(u, events, Sse.ReadError);
    var whole, _, _ := InletReads(u, events, Sse.Eof);
  }

  lemma OneText(x: R.Input, text: string)
    requires x.action == R.Text(text)
    ensures RP.Live([x]) == [x] && !RP.Over([x]) && RP.Spoke([x]) && RP.TextIn([x]) == text
  {
    assert [x][..0] == [];
    assert RP.Live([]) == [] && RP.TextIn([]) == "";
    assert RP.Live([x]) == [] + [x];
    assert RP.Speaks([x][..0], [x][0].action);
    assert RP.TextIn([x]) == "" + text;
  }
}
