/**
 * Serving an Anthropic client from a Responses upstream: the two translators
 * in sequence (internal/provider/proxy_responses.go, ProxyResponsesInletStream).
 */
module Pipeline {
  import opened Basics
  import opened Wire
  import opened ChatUnits
  import C = ChatToAnthropic
  import R = ResponsesToChat
  import Sse

  predicate IsDone(e: ResponsesEvent) {
    e.raw == "[DONE]"
  }

  /** The events before the upstream's [DONE] marker. */
  function Upstream(events: seq<ResponsesEvent>): seq<ResponsesEvent> {
    if events == [] || IsDone(events[0]) then [] else [events[0]] + Upstream(events[1..])
  }

  /** Who translates: the random ids and the message ids of both translators, and the model name. */
  datatype Setup = Setup(chatIds: IdSource, chatId: string, ids: IdSource, id: string, model: string)

  function Inputs(events: seq<ResponsesEvent>): seq<R.Input> {
    R.Inputs(Upstream(events))
  }

  function ChatFrames(u: Setup, xs: seq<R.Input>): seq<ChatFrame> {
    R.Run(u.chatIds, R.Start(u.model, u.chatId), xs).1
  }

  /** The second translator after these events, and what it has written; the marker makes it finish. */
  function Answered(u: Setup, seen: seq<ResponsesEvent>): (C.State, seq<AnthropicFrame>) {
    var (s, fs) := C.Run(u.ids, C.Start(u.model, u.id), Received(ChatFrames(u, Inputs(seen))));
    if Upstream(seen) == seen then (s, fs) else (C.Finish(s).0, fs + C.Finish(s).1)
  }

  /**
   * What a client that takes everything is sent. Only when the events end
   * because the upstream's response does is the stream finished for it.
   */
  function Inlet(u: Setup, events: seq<ResponsesEvent>, ending: Sse.Ending): seq<AnthropicFrame> {
    var (s, fs) := Answered(u, events);
    if ending.Eof? then fs + C.Finish(s).1 else fs
  }

  /** What arrives of these frames at a client that takes so many and then goes away. */
  function Taken(fs: seq<AnthropicFrame>, room: nat): seq<AnthropicFrame> {
    fs[..if room < |fs| then room else |fs|]
  }

  // ----- The loop as it runs -----

  lemma {:induction false} UpstreamSnoc(front: seq<ResponsesEvent>, e: ResponsesEvent)
    ensures Upstream(front + [e]) == if Upstream(front) == front && !IsDone(e) then front + [e] else Upstream(front)
    ensures |Upstream(front)| <= |front|
  {
    if front == [] {
      assert front + [e] == [e];
      assert [e][1..] == [];
    } else {
      assert (front + [e])[1..] == front[1..] + [e];
      UpstreamSnoc(front[1..], e);
      if !IsDone(front[0]) {
        assert front == [front[0]] + front[1..];
        assert Upstream(front) == front <==> Upstream(front[1..]) == front[1..] by {
          if Upstream(front) == front { assert Upstream(front)[1..] == front[1..]; }
        }
        assert [front[0]] + (front[1..] + [e]) == front + [e];
      }
    }
  }

  lemma ReceivedAppend(fs: seq<ChatFrame>, gs: seq<ChatFrame>)
    ensures Received(fs + gs) == Received(fs) + Received(gs)
  {
    ChunksOfAppend(fs, gs);
  }

  lemma ReceivedOne(f: ChatFrame)
    ensures Received([f]) == if f.Data? then [Some(f.chunk)] else []
  {
    assert ChunksOf([f]) == ChunkIn(f) + ChunksOf([]);
    assert ChunksOf([f]) == ChunkIn(f);
  }

  class Client {
    const room: nat
    var written: seq<AnthropicFrame>

    constructor (room: nat)
      ensures this.room == room && written == []
    {
      this.room, written := room, [];
    }

    /** Frame by frame; the first that cannot be written ends the response. */
    method Write(frames: seq<AnthropicFrame>) returns (ok: bool)
      requires |written| <= room
      modifies this
      ensures ok <==> |old(written) + frames| <= room
      ensures written == Taken(old(written) + frames, room)
    {
      for i := 0 to |frames|
        invariant |written| <= room && written == old(written) + frames[..i]
      {
        if |written| == room {
          assert written == (old(written) + frames)[..room];
          return false;
        }
        written := written + [frames[i]];
      }
      assert frames[..|frames|] == frames;
      ok := true;
    }
  }

  lemma TakenLonger(fs: seq<AnthropicFrame>, more: seq<AnthropicFrame>, room: nat)
    requires fs <= more && room < |fs|
    ensures Taken(fs, room) == Taken(more, room)
  {
    assert more[..|fs|] == fs;
    assert more[..room] == fs[..room];
  }

  /** One more frame of the first translator's. */
  lemma ReceivedNext(ids: IdSource, s: C.State, frames: seq<ChatFrame>, i: nat)
    requires i < |frames|
    ensures
      var before := C.Run(ids, s, Received(frames[..i]));
      var step := if frames[i].Data? then C.Feed(ids, before.0, Some(frames[i].chunk)) else (before.0, []);
      && C.Run(ids, s, Received(frames[..i + 1])).0 == step.0
      && C.Run(ids, s, Received(frames[..i + 1])).1 == before.1 + step.1
  {
    ReceivedOne(frames[i]);
    ReceivedAppend(frames[..i], [frames[i]]);
    assert frames[..i] + [frames[i]] == frames[..i + 1];
    if frames[i].Data? {
      var xs := Received(frames[..i]) + [Some(frames[i].chunk)];
      assert xs[..|xs| - 1] == Received(frames[..i]);
    } else {
      assert Received(frames[..i]) + [] == Received(frames[..i]);
    }
  }

  /** What was written of some frames is a beginning of what is written of all. */
  lemma RunGrows(ids: IdSource, s: C.State, frames: seq<ChatFrame>, i: nat)
    requires i <= |frames|
    ensures C.Run(ids, s, Received(frames[..i])).1 <= C.Run(ids, s, Received(frames)).1
  {
    assert frames == frames[..i] + frames[i..];
    ReceivedAppend(frames[..i], frames[i..]);
    C.RunAppend(ids, s, Received(frames[..i]), Received(frames[i..]));
  }

  /** One frame of the first translator's; only chunks are fed. */
  method FeedFrame(toAnthropic: C.ChatToAnthropicTranslator, frame: ChatFrame, client: Client,
      ghost before: seq<AnthropicFrame>, ghost sofar: seq<AnthropicFrame>) returns (ok: bool)
    requires |client.written| <= client.room && client.written == before + sofar
    modifies toAnthropic, client
    ensures
      var s := old(toAnthropic.Model());
      var step := if frame.Data? then C.Feed(toAnthropic.ids, s, Some(frame.chunk)) else (s, []);
      && toAnthropic.Model() == step.0
      && (ok <==> |before + (sofar + step.1)| <= client.room)
      && client.written == Taken(before + (sofar + step.1), client.room)
  {
    if frame.Data? {
      var fs := toAnthropic.FeedChunk(Some(frame.chunk));
      Assoc(before, sofar, fs);
      ok := client.Write(fs);
    } else {
      assert sofar + [] == sofar;
      ok := true;
    }
  }

  /** The frames of one event, each fed to the second translator, until the client refuses one. */
  method FeedFrames(toAnthropic: C.ChatToAnthropicTranslator, frames: seq<ChatFrame>, client: Client) returns (ok: bool)
    requires |client.written| <= client.room
    modifies toAnthropic, client
    ensures
      var (s, fs) := C.Run(toAnthropic.ids, old(toAnthropic.Model()), Received(frames));
      && (ok <==> |old(client.written) + fs| <= client.room)
      && client.written == Taken(old(client.written) + fs, client.room)
      && (ok ==> toAnthropic.Model() == s)
  {
    ghost var start, before := toAnthropic.Model(), client.written;
    ghost var ids := toAnthropic.ids;
    for i := 0 to |frames|
      invariant toAnthropic.Model() == C.Run(ids, start, Received(frames[..i])).0
      invariant |client.written| <= client.room
      invariant client.written == before + C.Run(ids, start, Received(frames[..i])).1
    {
      ReceivedNext(ids, start, frames, i);
      ghost var sofar := C.Run(ids, start, Received(frames[..i])).1;
      var wrote := FeedFrame(toAnthropic, frames[i], client, before, sofar);
      if !wrote {
        RunGrows(ids, start, frames, i + 1);
        TakenLonger(before + C.Run(ids, start, Received(frames[..i + 1])).1,
          before + C.Run(ids, start, Received(frames)).1, client.room);
        return false;
      }
    }
    assert frames[..|frames|] == frames;
    ok := true;
  }

  lemma {:induction false} RunFinished(ids: IdSource, s: C.State, xs: seq<Option<ChatChunk>>)
    requires s.finished
    ensures C.Run(ids, s, xs) == (s, [])
  {
    if xs != [] {
      RunFinished(ids, s, xs[..|xs| - 1]);
      assert [] + C.Feed(ids, s, xs[|xs| - 1]).1 == [];
    }
  }

  /** Both translators, and what has been written so far. */
  datatype Reached = Reached(chat: R.State, anthropic: C.State, written: seq<AnthropicFrame>)

  function Start(u: Setup): Reached {
    Reached(R.Start(u.model, u.chatId), C.Start(u.model, u.id), [])
  }

  /** One event: the marker finishes the second translator, any other goes through both. */
  function Next(u: Setup, r: Reached, e: ResponsesEvent): Reached {
    if IsDone(e) then Reached(r.chat, C.Finish(r.anthropic).0, r.written + C.Finish(r.anthropic).1)
    else
      var (chat, frames) := R.Step(u.chatIds, r.chat, R.Decode(e));
      var (anthropic, fs) := C.Run(u.ids, r.anthropic, Received(frames));
      Reached(chat, anthropic, r.written + fs)
  }

  /** The second translator and the written frames are those of these events; so is the first, before the marker. */
  ghost predicate InStep(u: Setup, seen: seq<ResponsesEvent>, r: Reached) {
    && r.anthropic == Answered(u, seen).0 && r.written == Answered(u, seen).1
    && (Upstream(seen) == seen ==> r.chat == R.Run(u.chatIds, R.Start(u.model, u.chatId), R.Inputs(seen)).0)
  }

  lemma InputsSnoc(seen: seq<ResponsesEvent>, e: ResponsesEvent)
    ensures R.Inputs(seen + [e]) == R.Inputs(seen) + [R.Decode(e)]
  {
  }

  /** One more event on the Chat side. */
  lemma ChatNext(u: Setup, xs: seq<R.Input>, x: R.Input)
    ensures
      var s := R.Run(u.chatIds, R.Start(u.model, u.chatId), xs).0;
      && R.Run(u.chatIds, R.Start(u.model, u.chatId), xs + [x]).0 == R.Step(u.chatIds, s, x).0
      && ChatFrames(u, xs + [x]) == ChatFrames(u, xs) + R.Step(u.chatIds, s, x).1
  {
    assert (xs + [x])[..|xs|] == xs;
  }

  /** An event before the marker: both translators go on. */
  lemma LiveStep(u: Setup, seen: seq<ResponsesEvent>, e: ResponsesEvent, r: Reached)
    requires InStep(u, seen, r) && Upstream(seen) == seen && !IsDone(e)
    ensures InStep(u, seen + [e], Next(u, r, e))
  {
    var frames, xs := R.Step(u.chatIds, r.chat, R.Decode(e)).1, R.Inputs(seen);
    UpstreamSnoc(seen, e);
    InputsSnoc(seen, e);
    ChatNext(u, xs, R.Decode(e));
    ReceivedAppend(ChatFrames(u, xs), frames);
    C.RunAppend(u.ids, C.Start(u.model, u.id), Received(ChatFrames(u, xs)), Received(frames));
  }

  /** An event after the marker: the second translator has finished. */
  lemma LateStep(u: Setup, seen: seq<ResponsesEvent>, e: ResponsesEvent, r: Reached)
    requires InStep(u, seen, r) && Upstream(seen) != seen && !IsDone(e)
    ensures InStep(u, seen + [e], Next(u, r, e))
  {
    UpstreamSnoc(seen, e);
    assert |Upstream(seen + [e])| < |seen + [e]|;
    RunFinished(u.ids, r.anthropic, Received(R.Step(u.chatIds, r.chat, R.Decode(e)).1));
    assert r.written + [] == r.written;
  }

  lemma DoneStep(u: Setup, seen: seq<ResponsesEvent>, e: ResponsesEvent, r: Reached)
    requires InStep(u, seen, r) && IsDone(e)
    ensures InStep(u, seen + [e], Next(u, r, e))
  {
    UpstreamSnoc(seen, e);
    assert |Upstream(seen + [e])| < |seen + [e]|;
    if Upstream(seen) != seen { assert r.written + [] == r.written; }
  }

  lemma StepInStep(u: Setup, seen: seq<ResponsesEvent>, e: ResponsesEvent, r: Reached)
    requires InStep(u, seen, r)
    ensures InStep(u, seen + [e], Next(u, r, e))
  {
    if IsDone(e) {
      DoneStep(u, seen, e, r);
    } else if Upstream(seen) == seen {
      LiveStep(u, seen, e, r);
    } else {
      LateStep(u, seen, e, r);
    }
  }

  lemma NextGrows(u: Setup, r: Reached, e: ResponsesEvent)
    ensures r.written <= Next(u, r, e).written
  {
  }

  // ----- The run of the loop, were nothing refused -----

  function After(u: Setup, events: seq<ResponsesEvent>, n: nat): Reached
    requires n <= |events|
  {
    if n == 0 then Start(u) else Next(u, After(u, events, n - 1), events[n - 1])
  }

  ghost predicate StepAt(u: Setup, states: seq<Reached>, events: seq<ResponsesEvent>, n: int)
    requires |states| == |events| + 1 && 0 < n <= |events|
  {
    states[n] == Next(u, states[n - 1], events[n - 1])
  }

  ghost predicate Traced(u: Setup, states: seq<Reached>, events: seq<ResponsesEvent>) {
    && |states| == |events| + 1 && states[0] == Start(u)
    && forall n :: 0 < n <= |events| ==> StepAt(u, states, events, n)
  }

  lemma TraceOf(u: Setup, events: seq<ResponsesEvent>) returns (states: seq<Reached>)
    ensures Traced(u, states, events)
  {
    states := seq(|events| + 1, n requires 0 <= n <= |events| => After(u, events, n));
    forall n | 0 < n <= |events| ensures StepAt(u, states, events, n) {
      assert states[n] == After(u, events, n) && states[n - 1] == After(u, events, n - 1);
    }
  }

  lemma {:induction false} TraceInStep(u: Setup, states: seq<Reached>, events: seq<ResponsesEvent>, n: nat)
    requires Traced(u, states, events) && n <= |events|
    ensures InStep(u, events[..n], states[n])
  {
    if n == 0 {
      assert Received([]) == [];
    } else {
      assert StepAt(u, states, events, n);
      TraceInStep(u, states, events, n - 1);
      StepInStep(u, events[..n - 1], events[n - 1], states[n - 1]);
      assert events[..n] == events[..n - 1] + [events[n - 1]];
    }
  }

  lemma Longer(a: seq<AnthropicFrame>, b: seq<AnthropicFrame>, c: seq<AnthropicFrame>)
    requires a <= b <= c
    ensures a <= c
  {
    assert c[..|a|] == b[..|a|];
  }

  lemma {:induction false} TraceGrows(u: Setup, states: seq<Reached>, events: seq<ResponsesEvent>, i: nat)
    requires Traced(u, states, events) && i <= |events|
    ensures states[i].written <= states[|events|].written
    decreases |events| - i
  {
    if i < |events| {
      assert StepAt(u, states, events, i + 1);
      NextGrows(u, states[i], events[i]);
      TraceGrows(u, states, events, i + 1);
      Longer(states[i].written, states[i + 1].written, states[|events|].written);
    }
  }

  /** A client that refused a frame of the first events has all it will get of the stream. */
  lemma RefusedInlet(u: Setup, states: seq<Reached>, events: seq<ResponsesEvent>, ending: Sse.Ending, i: nat, room: nat)
    requires Traced(u, states, events) && i <= |events| && room < |states[i].written|
    ensures Taken(states[i].written, room) == Taken(Inlet(u, events, ending), room)
    ensures room < |Inlet(u, events, ending)|
  {
    TraceGrows(u, states, events, i);
    TraceInStep(u, states, events, |events|);
    assert events[..|events|] == events;
    Longer(states[i].written, states[|events|].written, Inlet(u, events, ending));
    TakenLonger(states[i].written, Inlet(u, events, ending), room);
  }

  /** One event delivered by the scanner. */
  method HandleEvent(u: Setup, e: ResponsesEvent, toChat: R.ResponsesToChatTranslator,
      toAnthropic: C.ChatToAnthropicTranslator,
                     client: Client) returns (ok: bool)
    requires
      toChat.NoEmptyKey() && toChat.ids == u.chatIds && toAnthropic.ids == u.ids && |client.written| <= client.room
    modifies toChat, toAnthropic, client
    ensures toChat.NoEmptyKey()
    ensures
      var r := Next(u, old(Reached(toChat.Model(), toAnthropic.Model(), client.written)), e);
      && (ok <==> |r.written| <= client.room)
      && client.written == Taken(r.written, client.room)
      && (ok ==> Reached(toChat.Model(), toAnthropic.Model(), client.written) == r)
  {
    if IsDone(e) {
      var fs := toAnthropic.FinishStream();
      ok := client.Write(fs);
    } else {
      var frames := toChat.FeedEvent(e);
      ok := FeedFrames(toAnthropic, frames, client);
    }
  }

  /** The events in order, until the client refuses a frame; `handled` counts them. */
  method HandleAll(u: Setup, events: seq<ResponsesEvent>, ghost states: seq<Reached>,
      toChat: R.ResponsesToChatTranslator,
                   toAnthropic: C.ChatToAnthropicTranslator, client: Client) returns (ok: bool, ghost handled: nat)
    requires Traced(u, states, events)
    requires
      toChat.NoEmptyKey() && toChat.ids == u.chatIds && toAnthropic.ids == u.ids && |client.written| <= client.room
    requires Reached(toChat.Model(), toAnthropic.Model(), client.written) == states[0]
    modifies toChat, toAnthropic, client
    ensures handled <= |events| && client.written == Taken(states[handled].written, client.room)
    ensures ok <==> |states[handled].written| <= client.room
    ensures ok ==> handled == |events| && toAnthropic.Model() == states[handled].anthropic
  {
    handled := 0;
    for i := 0 to |events|
      invariant handled == i && toChat.NoEmptyKey() && |client.written| <= client.room
      invariant Reached(toChat.Model(), toAnthropic.Model(), client.written) == states[i]
    {
      assert StepAt(u, states, events, i + 1);
      handled := i + 1;
      var went := HandleEvent(u, events[i], toChat, toAnthropic, client);
      if !went { return false, handled; }
    }
    ok := true;
  }

  /**
   * The events as the scanner delivers them, how its reads end, and a client
   * that takes `room` frames: it gets exactly the frames the specification
   * sends, up to its room, and the outcome says which way it ended.
   */
  method ProxyResponsesInletStream(u: Setup, events: seq<ResponsesEvent>, ending: Sse.Ending, client: Client)
    returns (outcome: Sse.Outcome)
    requires client.written == []
    modifies client
    ensures client.written == Taken(Inlet(u, events, ending), client.room)
    ensures outcome == if client.room < |Inlet(u, events, ending)| then Sse.Refused else Sse.OutcomeOf(ending)
  {
    var toChat := new R.ResponsesToChatTranslator(u.chatIds, u.model, u.chatId);
    var toAnthropic := new C.ChatToAnthropicTranslator(u.ids, u.model, u.id);
    ghost var states := TraceOf(u, events);
    assert events[..|events|] == events;
    TraceInStep(u, states, events, |events|);
    var ok;
    ghost var handled;
    ok, handled := HandleAll(u, events, states, toChat, toAnthropic, client);
    if ok {
      outcome := EndResponse(u, events, ending, toAnthropic, client);
    } else {
      RefusedInlet(u, states, events, ending, handled, client.room);
      outcome := Sse.Refused;
    }
  }

  /** After the scan: only a response read to its end is finished for the client. */
  method EndResponse(u: Setup, ghost events: seq<ResponsesEvent>, ending: Sse.Ending,
      toAnthropic: C.ChatToAnthropicTranslator, client: Client)
    returns (outcome: Sse.Outcome)
    requires |client.written| <= client.room
    requires toAnthropic.Model() == Answered(u, events).0 && client.written == Answered(u, events).1
    modifies toAnthropic, client
    ensures client.written == Taken(Inlet(u, events, ending), client.room)
    ensures outcome == if client.room < |Inlet(u, events, ending)| then Sse.Refused else Sse.OutcomeOf(ending)
  {
    if !ending.Eof? { return Sse.OutcomeOf(ending); }
    var fs := toAnthropic.FinishStream();
    var ok := client.Write(fs);
    outcome := if ok then Sse.Scanned else Sse.Refused;
  }
}
