/** What becomes of tool calls on the way from Anthropic to Chat, for every event sequence. */
module AnthropicToolProofs {
  import opened Basics
  import opened Wire
  import opened AnthropicToChat
  import opened AnthropicToChatProofs
  import opened ChatReader
  import opened ChatUnits
  import C = ChatToAnthropic
  import P = ChatToAnthropicProofs

  /** The tool index a fragment is attributed to: its block's place, or the latest one when the block is unknown. */
  function PlaceFor(slots: seq<int>, block: int): nat {
    if block >= 0 && block in slots then IndexOf(slots, block) else if slots == [] then 0 else |slots| - 1
  }

  function ArgumentsOf(front: seq<Action>, a: Action, place: nat): string {
    if a.Json? && PlaceFor(Slots(front), a.block) == place then a.json else ""
  }

  /** The argument text of a tool index. */
  function ArgumentsIn(actions: seq<Action>, place: nat): string {
    if actions == [] then ""
    else
      var front := actions[..|actions| - 1];
      ArgumentsIn(front, place) + ArgumentsOf(front, actions[|actions| - 1], place)
  }

  /** A fragment came before any tool was started. */
  predicate Orphaned(actions: seq<Action>) {
    actions != [] &&
    (Orphaned(actions[..|actions| - 1]) || (actions[|actions| - 1].Json? && Slots(actions[..|actions| - 1]) == []))
  }

  /** The start that announced the tool index. */
  function StartOf(actions: seq<Action>, place: nat): Option<Action> {
    if actions == [] then None
    else
      var front, a := actions[..|actions| - 1], actions[|actions| - 1];
      var before := StartOf(front, place);
      if before.None? && a.OpenTool? && |Slots(front)| == place < |Slots(actions)| then Some(a) else before
  }

  lemma {:induction false} StartedPlaces(actions: seq<Action>, place: nat)
    ensures StartOf(actions, place).Some? <==> place < |Slots(actions)|
    ensures StartOf(actions, place).Some? ==> StartOf(actions, place).value.OpenTool?
  {
    if actions != [] {
      StartedPlaces(actions[..|actions| - 1], place);
      SlotsSnoc(actions[..|actions| - 1], actions[|actions| - 1]);
      assert actions == actions[..|actions| - 1] + [actions[|actions| - 1]];
    }
  }

  /** The tool indices the translator has announced. */
  ghost predicate Begun(s: State, actions: seq<Action>) {
    forall i :: i in s.toolStarted <==> 0 <= i < |Slots(actions)| || (i == 0 && Orphaned(actions))
  }

  lemma JsonPlace(s: State, actions: seq<Action>, block: int)
    requires Tracks(s, actions)
    ensures JsonIndex(s, block) == PlaceFor(Slots(actions), block)
  {
    NumbersPlace(s.toolByBlock, Slots(actions), -1, block);
  }

  lemma OrphanedSnoc(front: seq<Action>, a: Action)
    ensures Orphaned(front + [a]) <==> Orphaned(front) || (a.Json? && Slots(front) == [])
  {
    assert (front + [a])[..|front|] == front;
  }

  lemma StepBegun(ids: IdSource, s: State, front: seq<Action>, a: Action)
    requires Tracks(s, front) && Begun(s, front) && !s.finished
    ensures Begun(Step(ids, s, a).0, front + [a])
  {
    SlotsSnoc(front, a);
    OrphanedSnoc(front, a);
    if a.OpenTool? { NumbersPlace(s.toolByBlock, Slots(front), -1, KeyOf(a.block)); }
    if a.Json? { JsonPlace(s, front, a.block); }
  }

  /** How a tool is introduced: by its start, or without a name by a fragment that came too early. */
  predicate Introduces(unit: Option<C.Unit>, start: Option<Action>, orphan: bool) {
    if orphan then unit.Some? && unit.value.Call? && unit.value.name == ""
    else if start.None? then unit.None?
    else
      && unit.Some? && unit.value.Call? && start.value.OpenTool?
      && unit.value.name == start.value.name && (start.value.id != "" ==> unit.value.id == start.value.id)
  }

  ghost predicate ToolKept(us: seq<C.Unit>, actions: seq<Action>, place: nat) {
    && P.ArgumentsOf(us, place) == ArgumentsIn(actions, place)
    && Introduces(P.FirstCall(us, place), StartOf(actions, place), place == 0 && Orphaned(actions))
  }

  lemma StartArguments(ids: IdSource, s: State, a: Action, place: nat)
    requires a.OpenTool?
    ensures P.ArgumentsOf(ActionUnits(ids, s, a), place) == ""
  {
    var us := ActionUnits(ids, s, a);
    var u := us[0];
    assert us == [u] && u.arguments == "";
    OneArguments(u, place);
  }

  /** At most one announcement, and the call with the fragment. */
  lemma FragmentCalls(ids: IdSource, s: State, a: Action) returns (early: seq<C.Unit>)
    requires a.Json?
    ensures ActionUnits(ids, s, a) == early + [C.Call(JsonIndex(s, a.block), "", "", a.json)]
    ensures early == [] || (|early| == 1 && early[0].Call? && early[0].arguments == "")
  {
    var idx := JsonIndex(s, a.block);
    early := if idx in s.toolStarted then [] else [C.Call(idx, DrawId(ids, s), "", "")];
  }

  lemma CallsArguments(early: seq<C.Unit>, last: C.Unit, place: nat)
    requires early == [] || (|early| == 1 && early[0].Call? && early[0].arguments == "")
    requires last.Call?
    ensures P.ArgumentsOf(early + [last], place) == if last.tool == place then last.arguments else ""
  {
    if early == [] {
      assert early + [last] == [last];
      OneArguments(last, place);
    } else {
      assert early + [last] == [early[0], last];
      TwoCalls(early[0], last, place);
    }
  }

  lemma FragmentArguments(ids: IdSource, s: State, a: Action, place: nat)
    requires a.Json?
    ensures P.ArgumentsOf(ActionUnits(ids, s, a), place) == if JsonIndex(s, a.block) == place then a.json else ""
  {
    var early := FragmentCalls(ids, s, a);
    CallsArguments(early, C.Call(JsonIndex(s, a.block), "", "", a.json), place);
  }

  lemma OtherArguments(ids: IdSource, s: State, a: Action, place: nat)
    requires !a.OpenTool? && !a.Json?
    ensures P.ArgumentsOf(ActionUnits(ids, s, a), place) == ""
  {
    var us := ActionUnits(ids, s, a);
    if us != [] {
      var u := us[0];
      assert us == [u] && u.Say?;
      OneArguments(u, place);
    }
  }

  /** The argument text in the units of one action. */
  lemma UnitsArguments(ids: IdSource, s: State, front: seq<Action>, a: Action, place: nat)
    requires Tracks(s, front) && !s.finished
    ensures P.ArgumentsOf(ActionUnits(ids, s, a), place) == ArgumentsOf(front, a, place)
  {
    if a.OpenTool? {
      StartArguments(ids, s, a, place);
    } else if a.Json? {
      JsonPlace(s, front, a.block);
      FragmentArguments(ids, s, a, place);
    } else {
      OtherArguments(ids, s, a, place);
    }
  }

  /** The place the units of one action call first. */
  lemma UnitsFirst(ids: IdSource, s: State, front: seq<Action>, a: Action, place: nat)
    requires Tracks(s, front) && !s.finished
    ensures
      var first := P.FirstCall(ActionUnits(ids, s, a), place);
      if a.OpenTool? && place == PlaceOf(Slots(front), KeyOf(a.block), -1) then Introduces(first, Some(a), false)
      else if a.Json? && place == PlaceFor(Slots(front), a.block) then Introduces(first, None, true)
      else first.None?
  {
    var us := ActionUnits(ids, s, a);
    if a.OpenTool? { NumbersPlace(s.toolByBlock, Slots(front), -1, KeyOf(a.block)); }
    if a.Json? { JsonPlace(s, front, a.block); }
    if |us| == 2 {
      assert us == [us[0]] + [us[1]];
      FirstCallAppend([us[0]], [us[1]], place);
      FirstOfOne(us[0], place);
      FirstOfOne(us[1], place);
    } else if |us| == 1 {
      assert us == [us[0]];
      FirstOfOne(us[0], place);
    } else {
      assert us == [];
    }
  }

  lemma StartSnoc(front: seq<Action>, a: Action, place: nat)
    ensures StartOf(front + [a], place) ==
      if StartOf(front, place).None? && a.OpenTool? && |Slots(front)| == place < |Slots(front + [a])| then Some(a)
        else StartOf(front, place)
  {
    assert (front + [a])[..|front|] == front;
  }

  lemma ArgumentsSnoc(front: seq<Action>, a: Action, place: nat)
    ensures ArgumentsIn(front + [a], place) == ArgumentsIn(front, place) + ArgumentsOf(front, a, place)
  {
    assert (front + [a])[..|front|] == front;
  }

  lemma StepKeepsHead(ids: IdSource, s: State, front: seq<Action>, a: Action, us: seq<C.Unit>, place: nat)
    requires Tracks(s, front) && !s.finished
    requires Introduces(P.FirstCall(us, place), StartOf(front, place), place == 0 && Orphaned(front))
    ensures
      Introduces(P.FirstCall(us + ActionUnits(ids, s, a), place), StartOf(front + [a], place),
                 place == 0 && Orphaned(front + [a]))
  {
    SlotsSnoc(front, a);
    OrphanedSnoc(front, a);
    StartSnoc(front, a, place);
    StartedPlaces(front, place);
    UnitsFirst(ids, s, front, a, place);
    FirstCallAppend(us, ActionUnits(ids, s, a), place);
  }

  lemma StepKeepsArguments(ids: IdSource, s: State, front: seq<Action>, a: Action, us: seq<C.Unit>, place: nat)
    requires Tracks(s, front) && !s.finished && P.ArgumentsOf(us, place) == ArgumentsIn(front, place)
    ensures P.ArgumentsOf(us + ActionUnits(ids, s, a), place) == ArgumentsIn(front + [a], place)
  {
    ArgumentsSnoc(front, a, place);
    UnitsArguments(ids, s, front, a, place);
    ArgumentsAppend(us, ActionUnits(ids, s, a), place);
  }

  /**
   * For every event sequence: each tool index receives exactly the argument
   * text of the fragments attributed to it, and is introduced by the start that
   * announced it, with its name and, if it has one, its id; only tool index 0
   * is introduced by a fragment instead, without a name, exactly if one came
   * before any start.
   */
  lemma {:induction false} ToolsSurvive(ids: IdSource, model: string, id: string, actions: seq<Action>, place: nat)
    ensures ToolKept(UnitsIn(Run(ids, Start(model, id), actions).1), Live(actions), place)
    ensures Begun(Run(ids, Start(model, id), actions).0, Live(actions))
  {
    if actions == [] {
      assert UnitsIn([]) == [];
    } else {
      var front, a := actions[..|actions| - 1], actions[|actions| - 1];
      var (s, fs) := Run(ids, Start(model, id), front);
      ToolsSurvive(ids, model, id, front, place);
      RunReads(ids, model, id, front);
      if s.finished {
        assert fs + [] == fs;
      } else {
        StepBegun(ids, s, Live(front), a);
        UnitsInAppend(fs, Step(ids, s, a).1);
        StepUnits(ids, s, a);
        StepKeepsHead(ids, s, Live(front), a, UnitsIn(fs), place);
        StepKeepsArguments(ids, s, Live(front), a, UnitsIn(fs), place);
      }
    }
  }

  // ----- Drawn ids -----

  /** The action needs a drawn id: a start without one, or the first fragment of all before any start. */
  predicate NeedsId(front: seq<Action>, a: Action) {
    (a.OpenTool? && a.id == "") || (a.Json? && Slots(front) == [] && !Orphaned(front))
  }

  function Draws(actions: seq<Action>): nat {
    if actions == [] then 0
    else
      var front := actions[..|actions| - 1];
      Draws(front) + if NeedsId(front, actions[|actions| - 1]) then 1 else 0
  }

  lemma JsonStarted(s: State, front: seq<Action>, block: int)
    requires Tracks(s, front) && Begun(s, front)
    ensures JsonIndex(s, block) in s.toolStarted <==> !(Slots(front) == [] && !Orphaned(front))
    ensures Slots(front) == [] ==> JsonIndex(s, block) == 0
  {
    JsonPlace(s, front, block);
  }

  lemma StepDraws(ids: IdSource, s: State, front: seq<Action>, a: Action)
    requires Tracks(s, front) && Begun(s, front) && !s.finished
    ensures Step(ids, s, a).0.draws == s.draws + if NeedsId(front, a) then 1 else 0
  {
    if a.Json? { JsonStarted(s, front, a.block); }
  }

  lemma {:induction false} RunDraws(ids: IdSource, model: string, id: string, actions: seq<Action>)
    ensures Run(ids, Start(model, id), actions).0.draws == Draws(Live(actions))
  {
    if actions != [] {
      var front, a := actions[..|actions| - 1], actions[|actions| - 1];
      var s := Run(ids, Start(model, id), front).0;
      RunDraws(ids, model, id, front);
      RunReads(ids, model, id, front);
      ToolsSurvive(ids, model, id, front, 0);
      if !s.finished {
        StepDraws(ids, s, Live(front), a);
        assert (Live(front) + [a])[..|Live(front)|] == Live(front);
      }
    }
  }

  /**
   * Whatever came before: a start is announced under its own id, or the next
   * drawn one if it has none, and so is the tool of the first fragment that
   * comes too early. Nothing else draws an id.
   */
  lemma DrawnInOrder(ids: IdSource, model: string, id: string, actions: seq<Action>, a: Action)
    requires !Over(Live(actions))
    ensures
      var s, live := Run(ids, Start(model, id), actions).0, Live(actions);
      var us, next := UnitsIn(Step(ids, s, a).1), Draws(Live(actions));
      && (a.OpenTool? ==>
            us == [C.Call(PlaceOf(Slots(live), KeyOf(a.block), -1), if a.id == "" then "call_" + ids(next) else a.id,
              a.name, "")])
      && (a.Json? && NeedsId(live, a) ==>
            us == [C.Call(0, "call_" + ids(next), "", ""), C.Call(0, "", "", a.json)])
      && Step(ids, s, a).0.draws == next + if NeedsId(live, a) then 1 else 0
  {
    var s, live := Run(ids, Start(model, id), actions).0, Live(actions);
    RunReads(ids, model, id, actions);
    RunDraws(ids, model, id, actions);
    ToolsSurvive(ids, model, id, actions, 0);
    StepUnits(ids, s, a);
    StepDraws(ids, s, live, a);
    if a.OpenTool? { StartIndex(s, live, a.block); }
    if a.Json? && NeedsId(live, a) { OrphanCalls(ids, s, live, a); }
  }

  lemma OrphanCalls(ids: IdSource, s: State, front: seq<Action>, a: Action)
    requires Tracks(s, front) && Begun(s, front) && a.Json? && NeedsId(front, a)
    ensures ActionUnits(ids, s, a) == [C.Call(0, "call_" + ids(s.draws), "", ""), C.Call(0, "", "", a.json)]
  {
    JsonStarted(s, front, a.block);
  }

  /** An early fragment takes index 0 without a name, and the start that follows announces index 0 again. */
  lemma OrphanTakesIndex(ids: IdSource, model: string, id: string, json: string, callId: string, name: string)
    requires callId != ""
    ensures
      var early, start := Json(0, json), OpenTool(0, callId, name);
      var units := UnitsIn(Run(ids, Start(model, id), [early, start]).1);
      && P.FirstCall(units, 0).Some? && P.FirstCall(units, 0).value.Call? && P.FirstCall(units, 0).value.name == ""
      && P.ArgumentsOf(units, 0) == json
      && units != [] && units[|units| - 1..] == [C.Call(0, callId, name, "")]
  {
    var early, start := Json(0, json), OpenTool(0, callId, name);
    ToolsSurvive(ids, model, id, [early, start], 0);
    OrphanActions(early, start, json);
    OrphanUnits(ids, model, id, early, start);
  }

  lemma OrphanActions(early: Action, start: Action, json: string)
    requires early == Json(0, json) && start.OpenTool?
    ensures Live([early, start]) == [early, start] && Orphaned([early, start]) && ArgumentsIn([early, start], 0) == json
  {
    assert [] + [early] == [early] && [early] + [start] == [early, start];
    LiveOf([], early);
    LiveOf([early], start);
    OrphanedSnoc([], early);
    OrphanedSnoc([early], start);
    OrphanArguments(early, start, json);
  }

  lemma LiveOf(front: seq<Action>, a: Action)
    requires Live(front) == front && !Over(front)
    ensures Live(front + [a]) == front + [a]
  {
    assert (front + [a])[..|front|] == front;
  }

  lemma OrphanArguments(early: Action, start: Action, json: string)
    requires early == Json(0, json) && start.OpenTool?
    ensures ArgumentsIn([early, start], 0) == json
  {
    assert [] + [early] == [early] && [early] + [start] == [early, start];
    ArgumentsSnoc([], early, 0);
    ArgumentsSnoc([early], start, 0);
    assert ArgumentsIn([], 0) == "" && ArgumentsOf([], early, 0) == json && ArgumentsOf([early], start, 0) == "";
    assert "" + json == json && json + "" == json;
  }

  /** The last unit of the two actions is the start's. */
  lemma OrphanUnits(ids: IdSource, model: string, id: string, early: Action, start: Action)
    requires early.Json? && start.OpenTool? && start.block == 0 && start.id != ""
    ensures
      var units := UnitsIn(Run(ids, Start(model, id), [early, start]).1);
      units != [] && units[|units| - 1..] == [C.Call(0, start.id, start.name, "")]
  {
    assert [early, start][..1] == [early] && [early][..0] == [];
    var s0 := Start(model, id);
    var s1 := Step(ids, s0, early).0;
    assert Run(ids, s0, []) == (s0, []);
    assert Run(ids, s0, [early]).0 == s1;
    var fs1, fs2 := Run(ids, s0, [early]).1, Step(ids, s1, start).1;
    assert Run(ids, s0, [early, start]).1 == fs1 + fs2;
    UnitsInAppend(fs1, fs2);
    StepUnits(ids, s1, start);
  }
}
