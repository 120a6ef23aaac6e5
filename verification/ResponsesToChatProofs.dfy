/** What the Chat stream written by ResponsesToChatTranslator means to its reader. */
module ResponsesToChatProofs {
  import opened Basics
  import opened Wire
  import opened ResponsesToChat
  import opened ChatReader
  import opened ChatUnits
  import C = ChatToAnthropic
  import P = ChatToAnthropicProofs

  predicate Ends(a: Action) {
    a.Complete? || a.Fail?
  }

  predicate Over(xs: seq<Input>) {
    xs != [] && Ends(xs[|xs| - 1].action)
  }

  /** The inputs that count: up to and including the first that ends the stream. */
  function Live(xs: seq<Input>): seq<Input> {
    if xs == [] then []
    else
      var before := Live(xs[..|xs| - 1]);
      if Over(before) then before else before + [xs[|xs| - 1]]
  }

  /** Does the action put something in the reply, given what came before? */
  ghost predicate Speaks(before: seq<Input>, a: Action) {
    match a
    case DoneItem(key, arguments) => Carries(before, key, arguments)
    case Text(_) => true
    case Reason(_) => true
    case AddItem(_, _, _) => true
    case Json(_, _) => true
    case Fail(_) => true
    case _ => false
  }

  ghost predicate Spoke(xs: seq<Input>) {
    exists k :: 0 <= k < |xs| && Speaks(xs[..k], xs[k].action)
  }

  /** The item keys announced, in order; "" for an item without one. */
  function Slots(xs: seq<Input>): seq<string> {
    if xs == [] then []
    else
      var before, a := Slots(xs[..|xs| - 1]), xs[|xs| - 1].action;
      if a.AddItem? then Announce(before, a.key, "") else before
  }

  /** The tool index an argument event is attributed to: the item's place, or the latest item's when it is unknown. */
  function PlaceFor(slots: seq<string>, key: string): nat {
    if key != "" && key in slots then IndexOf(slots, key) else if slots == [] then 0 else |slots| - 1
  }

  /** Argument text was already sent for this tool index. */
  ghost predicate Sent(xs: seq<Input>, place: nat) {
    if xs == [] then false
    else
      var front, a := xs[..|xs| - 1], xs[|xs| - 1].action;
      Sent(front, place)
      || (a.Json? && PlaceFor(Slots(front), a.item) == place)
      || (a.DoneItem? && a.arguments != "" && PlaceFor(Slots(front), a.key) == place)
  }

  /** A finished item contributes its arguments exactly when none were sent for its index before. */
  ghost predicate Carries(before: seq<Input>, key: string, arguments: string) {
    arguments != "" && !Sent(before, PlaceFor(Slots(before), key))
  }

  function DefaultFinish(xs: seq<Input>): string {
    if Slots(xs) == [] then "stop" else "tool_calls"
  }

  function FinishIn(xs: seq<Input>): string {
    if Over(xs) && xs[|xs| - 1].action.Fail? then "stop" else DefaultFinish(xs)
  }

  ghost predicate Tracks(s: State, xs: seq<Input>) {
    && s.finished == Over(xs)
    && s.roleSent == Spoke(xs)
    && s.toolIndex == |Slots(xs)|
    && Numbers(s.toolByItem, Slots(xs), "")
    && (forall i: nat :: i in s.argsEmitted <==> Sent(xs, i))
  }

  lemma SpokeSnoc(front: seq<Input>, x: Input)
    ensures Spoke(front + [x]) <==> Spoke(front) || Speaks(front, x.action)
  {
    var all := front + [x];
    assert all[..|front|] == front;
    assert forall k :: 0 <= k < |front| ==> all[..k] == front[..k];
    if Speaks(front, x.action) { assert Speaks(all[..|front|], all[|front|].action); }
    if Spoke(front) {
      var k :| 0 <= k < |front| && Speaks(front[..k], front[k].action);
      assert Speaks(all[..k], all[k].action);
    }
    if Spoke(all) && !Speaks(front, x.action) {
      var k :| 0 <= k < |all| && Speaks(all[..k], all[k].action);
      assert Speaks(front[..k], front[k].action);
    }
  }

  lemma SlotsSnoc(front: seq<Input>, x: Input)
    ensures Slots(front + [x]) == if x.action.AddItem? then Announce(Slots(front), x.action.key, "") else Slots(front)
  {
    assert (front + [x])[..|front|] == front;
  }

  lemma SentSnoc(front: seq<Input>, x: Input, place: nat)
    ensures Sent(front + [x], place) <==>
            || Sent(front, place)
            || (x.action.Json? && PlaceFor(Slots(front), x.action.item) == place)
            || (x.action.DoneItem? && x.action.arguments != "" && PlaceFor(Slots(front), x.action.key) == place)
  {
    assert (front + [x])[..|front|] == front;
  }

  lemma IndexIsPlace(s: State, xs: seq<Input>, key: string)
    requires Tracks(s, xs)
    ensures IndexFor(s, key) == PlaceFor(Slots(xs), key)
  {
    NumbersPlace(s.toolByItem, Slots(xs), "", key);
  }

  lemma StepTracks(ids: IdSource, s: State, front: seq<Input>, x: Input)
    requires Tracks(s, front) && !s.finished
    ensures Tracks(Step(ids, s, x).0, front + [x])
  {
    var a := x.action;
    assert (front + [x])[|front|] == x;
    SpokeSnoc(front, x);
    SlotsSnoc(front, x);
    StepSent(ids, s, front, x);
    if a.DoneItem? { IndexIsPlace(s, front, a.key); }
    if a.AddItem? {
      NumbersPlace(s.toolByItem, Slots(front), "", a.key);
      AnnounceNumbers(s.toolByItem, Slots(front), "", a.key);
    }
  }

  lemma StepSent(ids: IdSource, s: State, front: seq<Input>, x: Input)
    requires Tracks(s, front) && !s.finished
    ensures forall i: nat :: i in Step(ids, s, x).0.argsEmitted <==> Sent(front + [x], i)
  {
    if x.action.Json? { IndexIsPlace(s, front, x.action.item); }
    if x.action.DoneItem? { IndexIsPlace(s, front, x.action.key); }
    forall i: nat ensures i in Step(ids, s, x).0.argsEmitted <==> Sent(front + [x], i) {
      SentSnoc(front, x, i);
    }
  }

  lemma EndReads(ids: IdSource, s: State, front: seq<Input>, x: Input)
    requires Tracks(s, front) && !s.finished && Ends(x.action)
    ensures Read(Some(Reply(Spoke(front), None, false)), Step(ids, s, x).1)
         == Some(Reply(Spoke(front) || x.action.Fail?, Some(FinishIn(front + [x])), true))
  {
    var r, fs := Reply(Spoke(front), None, false), Step(ids, s, x).1;
    assert (front + [x])[|front|] == x;
    SlotsSnoc(front, x);
    assert fs == [fs[0], Done];
    ReadTwo(r, fs[0], Done);
  }

  lemma StepReads(ids: IdSource, s: State, front: seq<Input>, x: Input)
    requires Tracks(s, front) && !s.finished
    ensures Read(Some(Reply(Spoke(front), None, false)), Step(ids, s, x).1)
         == Some(Reply(Spoke(front + [x]),
                       if Ends(x.action) then Some(FinishIn(front + [x])) else None, Ends(x.action)))
  {
    var a, r, fs := x.action, Reply(Spoke(front), None, false), Step(ids, s, x).1;
    SpokeSnoc(front, x);
    if Ends(a) {
      EndReads(ids, s, front, x);
    } else {
      if a.DoneItem? { IndexIsPlace(s, front, a.key); }
      if |fs| == 1 { ReadOne(r, fs[0]); }
    }
  }

  lemma {:induction false} RunReads(ids: IdSource, model: string, id: string, xs: seq<Input>)
    ensures
      var (s, fs), live := Run(ids, Start(model, id), xs), Live(xs);
      && Tracks(s, live)
      && Read(Some(NO_REPLY), fs) ==
           Some(Reply(Spoke(live), if Over(live) then Some(FinishIn(live)) else None, Over(live)))
  {
    if xs != [] {
      var front, x := xs[..|xs| - 1], xs[|xs| - 1];
      var (s, fs) := Run(ids, Start(model, id), front);
      RunReads(ids, model, id, front);
      ReadAppend(Some(NO_REPLY), fs, Step(ids, s, x).1);
      if s.finished {
        assert fs + [] == fs;
      } else {
        StepTracks(ids, s, Live(front), x);
        StepReads(ids, s, Live(front), x);
        assert (Live(front) + [x])[|Live(front)|] == x;
      }
    }
  }

  /**
   * For every event sequence ended by Finish: one finish reason, then one
   * [DONE], which is last; the role comes exactly once, with the first delta,
   * when there is one.
   */
  lemma StreamIsOneReply(ids: IdSource, model: string, id: string, xs: seq<Input>)
    ensures Read(Some(NO_REPLY), Stream(ids, model, id, xs))
         == Some(Reply(Spoke(Live(xs)), Some(FinishIn(Live(xs))), true))
  {
    var (s, fs) := Run(ids, Start(model, id), xs);
    RunReads(ids, model, id, xs);
    ReadAppend(Some(NO_REPLY), fs, Finish(s).1);
    if s.finished {
      assert fs + [] == fs;
    } else {
      ReadTwo(Reply(Spoke(Live(xs)), None, false), Finish(s).1[0], Done);
      assert Finish(s).1 == [Finish(s).1[0], Done];
    }
  }

  /**
   * Tool indices. The chunk for an added item carries the item's place among
   * the announced ones, counted 0, 1, 2, ... in order of first announcement; an
   * item announced again keeps its place, and later items change no place. It
   * also carries the item's call id, or the next drawn one.
   */
  lemma ItemGetsItsPlace(ids: IdSource, model: string, id: string, xs: seq<Input>, x: Input)
    requires x.action.AddItem? && !Over(Live(xs))
    ensures
      var s, slots, a := Run(ids, Start(model, id), xs).0, Slots(Live(xs)), x.action;
      var frames, place := Step(ids, s, x).1, PlaceOf(slots, a.key, "");
      && |frames| == 1 && frames[0].Data? && |frames[0].chunk.choices| == 1
      && |frames[0].chunk.choices[0].delta.tools| == 1
      && frames[0].chunk.choices[0].delta.tools[0].index == Some(place)
      && frames[0].chunk.choices[0].delta.tools[0].name == a.name
      && frames[0].chunk.choices[0].delta.tools[0].id ==
           (if a.callId == "" then "call_" + ids(Draws(Live(xs))) else a.callId)
      && place < |Slots(Live(xs) + [x])| && Slots(Live(xs) + [x])[place] == a.key
      && slots <= Slots(Live(xs) + [x])
  {
    RunReads(ids, model, id, xs);
    RunDraws(ids, model, id, xs);
    NumbersPlace(Run(ids, Start(model, id), xs).0.toolByItem, Slots(Live(xs)), "", x.action.key);
    SlotsSnoc(Live(xs), x);
  }

  /** How many items came without a call id. */
  function Draws(xs: seq<Input>): nat {
    if xs == [] then 0
    else
      var a := xs[|xs| - 1].action;
      Draws(xs[..|xs| - 1]) + if a.AddItem? && a.callId == "" then 1 else 0
  }

  lemma {:induction false} RunDraws(ids: IdSource, model: string, id: string, xs: seq<Input>)
    ensures Run(ids, Start(model, id), xs).0.draws == Draws(Live(xs))
  {
    if xs != [] {
      var front, x := xs[..|xs| - 1], xs[|xs| - 1];
      var s := Run(ids, Start(model, id), front).0;
      RunDraws(ids, model, id, front);
      RunReads(ids, model, id, front);
      if !s.finished {
        StepDraws(ids, s, x);
        DrawsSnoc(Live(front), x);
      }
    }
  }

  lemma StepDraws(ids: IdSource, s: State, x: Input)
    requires !s.finished
    ensures Step(ids, s, x).0.draws == s.draws + if x.action.AddItem? && x.action.callId == "" then 1 else 0
  {
  }

  lemma DrawsSnoc(front: seq<Input>, x: Input)
    ensures Draws(front + [x]) == Draws(front) + if x.action.AddItem? && x.action.callId == "" then 1 else 0
  {
    assert (front + [x])[..|front|] == front;
  }

  // ----- Conservation -----

  function TextOf(a: Action): string {
    if a.Text? then a.text else if a.Fail? then "[Error] " + a.message else ""
  }

  function TextIn(xs: seq<Input>): string {
    if xs == [] then "" else TextIn(xs[..|xs| - 1]) + TextOf(xs[|xs| - 1].action)
  }

  function ReasonIn(xs: seq<Input>): string {
    if xs == [] then ""
    else ReasonIn(xs[..|xs| - 1]) + (if xs[|xs| - 1].action.Reason? then xs[|xs| - 1].action.text else "")
  }

  /** The arguments sent for a tool index: its deltas, and a finished item's only when nothing was sent before. */
  ghost function ArgumentsOf(front: seq<Input>, a: Action, place: nat): string {
    if a.Json? && PlaceFor(Slots(front), a.item) == place then a.json
    else if a.DoneItem? && PlaceFor(Slots(front), a.key) == place && Carries(front, a.key, a.arguments) then a.arguments
    else ""
  }

  ghost function ArgumentsIn(xs: seq<Input>, place: nat): string {
    if xs == [] then ""
    else ArgumentsIn(xs[..|xs| - 1], place) + ArgumentsOf(xs[..|xs| - 1], xs[|xs| - 1].action, place)
  }

  /** The units the chunks of one step amount to. */
  function StepUnits(ids: IdSource, s: State, a: Action): seq<C.Unit> {
    match a
    case Text(text) => C.SayUnits(Some(text))
    case Reason(text) => C.ThinkUnits(Some(text))
    case AddItem(key, callId, name) =>
      [C.Call(if key in s.toolByItem then s.toolByItem[key] else s.toolIndex, if callId == ""
        then "call_" + ids(s.draws) else callId, name, "")]
    case Json(item, json) => [C.Call(IndexFor(s, item), "", "", json)]
    case DoneItem(key, arguments) =>
      if IndexFor(s, key) in s.argsEmitted || arguments == "" then [] else [C.Call(IndexFor(s, key), "", "", arguments)]
    case Fail(message) => [C.Say("[Error] " + message)]
    case _ => []
  }

  lemma SpeakUnits(s: State, content: Option<string>, reasoning: Option<string>, tools: seq<ToolDelta>)
    ensures
      UnitsIn(Speak(s, content, reasoning, tools).1) == C.SayUnits(content) + C.ThinkUnits(reasoning) +
        C.CallUnits(tools)
  {
    DeltaUnits(Speak(s, content, reasoning, tools).1[0], content, reasoning, tools);
  }

  lemma ClosingUnits(f: ChatFrame, content: Option<string>)
    requires
      f.Data? && |f.chunk.choices| == 1 && f.chunk.choices[0].delta.(role := "") == ChatDelta("", content, None, [])
    ensures UnitsIn([f, Done]) == C.SayUnits(content)
  {
    assert [f, Done] == [f] + [Done];
    UnitsInAppend([f], [Done]);
    UnitsInOne(Done);
    DeltaUnits(f, content, None, []);
    assert C.CallUnits([]) == [];
  }

  lemma ActUnits(ids: IdSource, s: State, a: Action)
    ensures UnitsIn(Act(ids, s, a).1) == StepUnits(ids, s, a)
  {
    var fs := Act(ids, s, a).1;
    assert C.CallUnits([]) == [];
    assert UnitsIn([]) == [];
    match a
    case Text(text) => SpeakUnits(s, Some(text), None, []);
    case Reason(text) => SpeakUnits(s, None, Some(text), []);
    case AddItem(_, _, _) =>
      assert fs == Speak(s, None, None, fs[0].chunk.choices[0].delta.tools).1;
      SpeakUnits(s, None, None, fs[0].chunk.choices[0].delta.tools);
      OneCall(fs[0].chunk.choices[0].delta.tools[0]);
    case Json(item, json) => AddUnits(s, IndexFor(s, item), json);
    case DoneItem(key, arguments) => AddUnits(s, IndexFor(s, key), arguments);
    case Fail(message) => ClosingUnits(fs[0], Some("[Error] " + message));
    case Complete(_, _) => ClosingUnits(fs[0], None);
    case Nothing =>
  }

  lemma AddUnits(s: State, idx: nat, json: string)
    ensures UnitsIn(AddArguments(s, idx, json).1) == [C.Call(idx, "", "", json)]
  {
    var s' := s.(argsEmitted := s.argsEmitted + {idx});
    SpeakUnits(s', None, None, [ToolDelta(Some(idx), "", "", json)]);
    OneCall(ToolDelta(Some(idx), "", "", json));
  }

  /** Everything sent so far, read as text, thinking and arguments. */
  ghost predicate Kept(fs: seq<ChatFrame>, xs: seq<Input>) {
    && Content(fs) == TextIn(xs)
    && Reasoning(fs) == ReasonIn(xs)
    && (forall place: nat :: P.ArgumentsOf(UnitsIn(fs), place) == ArgumentsIn(xs, place))
  }

  lemma UnitsMean(ids: IdSource, s: State, front: seq<Input>, a: Action)
    requires Tracks(s, front)
    ensures P.Said(StepUnits(ids, s, a)) == TextOf(a)
    ensures P.Thought(StepUnits(ids, s, a)) == if a.Reason? then a.text else ""
    ensures forall place: nat :: P.ArgumentsOf(StepUnits(ids, s, a), place) == ArgumentsOf(front, a, place)
  {
    var us := StepUnits(ids, s, a);
    if |us| == 1 {
      assert us == [us[0]];
      SaidOne(us[0]);
    }
    if a.Json? { IndexIsPlace(s, front, a.item); }
    if a.DoneItem? { IndexIsPlace(s, front, a.key); }
  }

  lemma StepKeeps(ids: IdSource, s: State, fs: seq<ChatFrame>, front: seq<Input>, x: Input)
    requires Tracks(s, front) && !s.finished && Kept(fs, front)
    ensures Kept(fs + Step(ids, s, x).1, front + [x])
  {
    var s' := s.(model := if s.model == "" then x.model else s.model);
    var us := StepUnits(ids, s', x.action);
    ActUnits(ids, s', x.action);
    UnitsMean(ids, s', front, x.action);
    UnitsInAppend(fs, Step(ids, s, x).1);
    SaidAppend(UnitsIn(fs), us);
    ThoughtAppend(UnitsIn(fs), us);
    assert (front + [x])[..|front|] == front;
    forall place: nat ensures P.ArgumentsOf(UnitsIn(fs) + us, place) == ArgumentsIn(front + [x], place) {
      ArgumentsAppend(UnitsIn(fs), us, place);
    }
  }

  /** For every event sequence: the content, the reasoning and each tool's arguments are exactly those of the events. */
  lemma {:induction false} RunKeeps(ids: IdSource, model: string, id: string, xs: seq<Input>)
    ensures Kept(Run(ids, Start(model, id), xs).1, Live(xs))
  {
    if xs == [] {
      assert UnitsIn([]) == [];
    } else {
      var front, x := xs[..|xs| - 1], xs[|xs| - 1];
      var (s, fs) := Run(ids, Start(model, id), front);
      RunKeeps(ids, model, id, front);
      RunReads(ids, model, id, front);
      if s.finished {
        assert fs + [] == fs;
      } else {
        StepKeeps(ids, s, fs, Live(front), x);
      }
    }
  }

  // ----- Items with stable ids -----

  /** The item an argument event names. */
  function Named(a: Action): Option<string> {
    if a.Json? then Some(a.item) else if a.DoneItem? then Some(a.key) else None
  }

  /** Every argument event names an item announced before it. */
  ghost predicate Stable(xs: seq<Input>) {
    forall p :: 0 <= p < |xs| && Named(xs[p].action).Some? ==>
      Named(xs[p].action).value != "" && Named(xs[p].action).value in Slots(xs[..p])
  }

  /** No delta of the item follows its finished form. */
  ghost predicate DeltasFirst(xs: seq<Input>, key: string) {
    forall p, q :: 0 <= p < q < |xs| && xs[p].action.DoneItem? && xs[p].action.key == key ==>
      !(xs[q].action.Json? && xs[q].action.item == key)
  }

  ghost predicate HasDelta(xs: seq<Input>, key: string) {
    exists p :: 0 <= p < |xs| && xs[p].action.Json? && xs[p].action.item == key
  }

  function DeltaText(xs: seq<Input>, key: string): string {
    if xs == [] then ""
    else
      var a := xs[|xs| - 1].action;
      DeltaText(xs[..|xs| - 1], key) + (if a.Json? && a.item == key then a.json else "")
  }

  /** The arguments of the item's finished form: the first non-empty ones. */
  function DoneText(xs: seq<Input>, key: string): string {
    if xs == [] then ""
    else
      var before, a := DoneText(xs[..|xs| - 1], key), xs[|xs| - 1].action;
      if before == "" && a.DoneItem? && a.key == key then a.arguments else before
  }

  ghost predicate KeepsItem(xs: seq<Input>, key: string) {
    var place := IndexOf'(Slots(xs), key);
    && (Sent(xs, place) <==> HasDelta(xs, key) || DoneText(xs, key) != "")
    && ArgumentsIn(xs, place) == (if HasDelta(xs, key) then DeltaText(xs, key) else DoneText(xs, key))
  }

  /** The place of a key, or the next free place. */
  function IndexOf'(slots: seq<string>, key: string): nat {
    if key in slots then IndexOf(slots, key) else |slots|
  }

  lemma HasDeltaSnoc(front: seq<Input>, x: Input, key: string)
    ensures HasDelta(front + [x], key) <==> HasDelta(front, key) || (x.action.Json? && x.action.item == key)
  {
    var all := front + [x];
    if x.action.Json? && x.action.item == key { assert all[|front|].action.item == key; }
    if HasDelta(front, key) {
      var p :| 0 <= p < |front| && front[p].action.Json? && front[p].action.item == key;
      assert all[p] == front[p];
    }
  }

  lemma StableFront(front: seq<Input>, x: Input)
    requires Stable(front + [x])
    ensures Stable(front)
    ensures Named(x.action).Some? ==> Named(x.action).value != "" && Named(x.action).value in Slots(front)
  {
    var all := front + [x];
    assert all[..|front|] == front && all[|front|] == x;
    forall p | 0 <= p < |front| && Named(front[p].action).Some?
      ensures Named(front[p].action).value != "" && Named(front[p].action).value in Slots(front[..p])
    {
      assert all[..p] == front[..p] && all[p] == front[p];
    }
  }

  /** Nothing is ever sent for a place not handed out yet. */
  lemma {:induction false} NothingBeyond(xs: seq<Input>, place: nat)
    requires Stable(xs) && place >= |Slots(xs)|
    ensures !Sent(xs, place) && ArgumentsIn(xs, place) == ""
  {
    if xs != [] {
      var front, x := xs[..|xs| - 1], xs[|xs| - 1];
      assert xs == front + [x];
      StableFront(front, x);
      NothingBeyond(front, place);
    }
  }

  /** An item not announced yet has no arguments. */
  lemma {:induction false} NothingUnannounced(xs: seq<Input>, key: string)
    requires Stable(xs) && key !in Slots(xs)
    ensures !HasDelta(xs, key) && DeltaText(xs, key) == "" && DoneText(xs, key) == ""
  {
    if xs != [] {
      var front, x := xs[..|xs| - 1], xs[|xs| - 1];
      assert xs == front + [x];
      StableFront(front, x);
      HasDeltaSnoc(front, x, key);
      NothingUnannounced(front, key);
    }
  }

  lemma {:induction false} NoDeltaAfterDone(xs: seq<Input>, key: string)
    requires DoneText(xs, key) != ""
    ensures exists p :: 0 <= p < |xs| && xs[p].action.DoneItem? && xs[p].action.key == key
  {
    var front, x := xs[..|xs| - 1], xs[|xs| - 1];
    if DoneText(front, key) != "" {
      NoDeltaAfterDone(front, key);
      var p :| 0 <= p < |front| && front[p].action.DoneItem? && front[p].action.key == key;
      assert xs[p] == front[p];
    }
  }

  lemma {:induction false} DeltaTextNeedsDelta(xs: seq<Input>, key: string)
    requires !HasDelta(xs, key)
    ensures DeltaText(xs, key) == ""
  {
    if xs != [] {
      var front, x := xs[..|xs| - 1], xs[|xs| - 1];
      assert xs == front + [x];
      HasDeltaSnoc(front, x, key);
      DeltaTextNeedsDelta(front, key);
    }
  }

  lemma SamePlace(slots: seq<string>, more: seq<string>, key: string)
    requires slots <= more && key in slots
    ensures key in more && IndexOf(more, key) == IndexOf(slots, key)
  {
    assert more[IndexOf(slots, key)] == key;
    assert more[..|slots|] == slots;
  }

  lemma DoneThenNoDelta(front: seq<Input>, x: Input, key: string)
    requires DoneText(front, key) != "" && DeltasFirst(front + [x], key)
    ensures !(x.action.Json? && x.action.item == key)
  {
    var xs := front + [x];
    NoDeltaAfterDone(front, key);
    var p :| 0 <= p < |front| && front[p].action.DoneItem? && front[p].action.key == key;
    assert xs[p] == front[p] && xs[|front|] == x;
  }

  /** The item is announced by this very step. */
  lemma NewItemStep(front: seq<Input>, x: Input, key: string)
    requires Stable(front + [x]) && key != "" && key !in Slots(front)
    ensures KeepsItem(front + [x], key)
  {
    var xs, slots := front + [x], Slots(front);
    assert xs[..|front|] == front;
    StableFront(front, x);
    SlotsSnoc(front, x);
    HasDeltaSnoc(front, x, key);
    NothingBeyond(front, |slots|);
    NothingUnannounced(front, key);
    if key in Slots(xs) {
      assert Slots(xs) == slots + [key];
      assert IndexOf(Slots(xs), key) == |slots| by { assert key !in Slots(xs)[..|slots|]; }
      SentSnoc(front, x, |slots|);
    } else {
      NothingBeyond(xs, |Slots(xs)|);
      NothingUnannounced(xs, key);
    }
  }

  lemma TextsSnoc(front: seq<Input>, x: Input, key: string, place: nat)
    ensures DeltaText(front + [x], key) ==
      DeltaText(front, key) + if x.action.Json? && x.action.item == key then x.action.json else ""
    ensures DoneText(front + [x], key) ==
      if DoneText(front, key) == "" && x.action.DoneItem? && x.action.key == key then x.action.arguments
        else DoneText(front, key)
    ensures ArgumentsIn(front + [x], place) == ArgumentsIn(front, place) + ArgumentsOf(front, x.action, place)
  {
    assert (front + [x])[..|front|] == front;
  }

  /** Different items have different places. */
  lemma Addressed(slots: seq<string>, item: string, key: string)
    requires item != "" && item in slots && key in slots
    ensures PlaceFor(slots, item) == IndexOf(slots, key) <==> item == key
  {
    assert slots[IndexOf(slots, item)] == item && slots[IndexOf(slots, key)] == key;
  }

  /** What one input changes about an announced item. */
  lemma KnownSnoc(front: seq<Input>, x: Input, key: string)
    requires Stable(front + [x]) && key != "" && key in Slots(front)
    ensures
      var a, place := x.action, IndexOf(Slots(front), key);
      var delta, done := a.Json? && a.item == key, a.DoneItem? && a.key == key;
      && key in Slots(front + [x]) && IndexOf(Slots(front + [x]), key) == place
      && (HasDelta(front + [x], key) <==> HasDelta(front, key) || delta)
      && (Sent(front + [x], place) <==> Sent(front, place) || delta || (done && a.arguments != ""))
      && ArgumentsOf(front, a, place) ==
           if delta then a.json else if done && a.arguments != "" && !Sent(front, place) then a.arguments else ""
  {
    StableFront(front, x);
    SlotsSnoc(front, x);
    HasDeltaSnoc(front, x, key);
    if Named(x.action).Some? { Addressed(Slots(front), Named(x.action).value, key); }
    SamePlace(Slots(front), Slots(front + [x]), key);
    SentSnoc(front, x, IndexOf(Slots(front), key));
  }

  lemma ItemStep(front: seq<Input>, x: Input, key: string)
    requires Stable(front + [x]) && DeltasFirst(front + [x], key) && key != ""
    requires KeepsItem(front, key)
    ensures KeepsItem(front + [x], key)
  {
    if key !in Slots(front) {
      NewItemStep(front, x, key);
    } else {
      KnownSnoc(front, x, key);
      TextsSnoc(front, x, key, IndexOf(Slots(front), key));
      if DoneText(front, key) != "" { DoneThenNoDelta(front, x, key); }
      if !HasDelta(front, key) { DeltaTextNeedsDelta(front, key); }
    }
  }

  /**
   * In a run whose argument events all name announced items, for each item
   * whose deltas precede its finished form: the argument fragments sent for it
   * concatenate to its arguments, taken from the deltas when there are any and
   * from the finished item otherwise, never from both.
   */
  lemma {:induction false} ItemArguments(xs: seq<Input>, key: string)
    requires Stable(xs) && DeltasFirst(xs, key) && key != ""
    ensures KeepsItem(xs, key)
  {
    if xs == [] {
      assert !HasDelta(xs, key);
    } else {
      var front, x := xs[..|xs| - 1], xs[|xs| - 1];
      assert xs == front + [x];
      StableFront(front, x);
      forall p, q | 0 <= p < q < |front| && front[p].action.DoneItem? && front[p].action.key == key
        ensures !(front[q].action.Json? && front[q].action.item == key)
      {
        assert xs[p] == front[p] && xs[q] == front[q];
      }
      ItemArguments(front, key);
      ItemStep(front, x, key);
    }
  }
}
