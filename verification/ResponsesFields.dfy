/** The Chat reply a client reads, told from what happened upstream. */
module ResponsesFields {
  import opened Basics
  import opened Wire
  import opened ResponsesEvents
  import opened ChatUnits
  import R = ResponsesToChat
  import RP = ResponsesToChatProofs
  import Reader = ChatReader
  import C = ChatToAnthropic
  import P = ChatToAnthropicProofs
  import F = AnthropicToChatFields

  // ----- What was heard -----

  predicate IsEnd(h: Happening) {
    h.Completes? || h.CompletesUncounted? || h.Fails?
  }

  /** What happened up to and including the first end. */
  function Heard(ps: seq<Post>): seq<Post> {
    if ps == [] then []
    else if IsEnd(ps[0].what) then [ps[0]]
    else [ps[0]] + Heard(ps[1..])
  }

  /** The texts, and the error text. */
  function TextSaid(ps: seq<Post>): string {
    if ps == [] then "" else TextSaid(ps[..|ps| - 1]) + TextBy(ps[|ps| - 1])
  }

  function TextBy(p: Post): string {
    match p.what
    case Says(text) => text
    case Fails(_, _) => "[Error] " + FailureText(p)
    case _ => ""
  }

  function ReasonsGiven(ps: seq<Post>): string {
    if ps == [] then ""
    else
      ReasonsGiven(ps[..|ps| - 1]) + if ps[|ps| - 1].what.Reasons? then ps[|ps| - 1].what.text else ""
  }

  /** It says something, announces an item, brings arguments or fails. */
  predicate IsHeard(h: Happening) {
    match h
    case Says(text) => text != ""
    case Reasons(text) => text != ""
    case Announces(_, _, _, _) => true
    case Argues(_, json, _) => json != ""
    case Closes(_, final, _) => FinalText(final) != ""
    case Fails(_, _) => true
    case _ => false
  }

  ghost predicate AnythingHeard(ps: seq<Post>) {
    exists k :: 0 <= k < |ps| && IsHeard(ps[k].what)
  }

  ghost predicate AnyCall(ps: seq<Post>) {
    exists k :: 0 <= k < |ps| && ps[k].what.Announces?
  }

  predicate Ended(ps: seq<Post>) {
    ps != [] && IsEnd(ps[|ps| - 1].what)
  }

  function InputCount(ps: seq<Post>): Option<int> {
    if ps != [] && ps[|ps| - 1].what.Completes? then CountOf(ps[|ps| - 1].what.input) else None
  }

  function OutputCount(ps: seq<Post>): Option<int> {
    if ps != [] && ps[|ps| - 1].what.Completes? then CountOf(ps[|ps| - 1].what.output) else None
  }

  /** The model the chunks name: the request's, or the first one an event names. */
  function ModelIn(model: string, ps: seq<Post>): string {
    if ps == [] then model
    else
      var before := ModelIn(model, ps[..|ps| - 1]);
      if before == "" then ModelOf(ps[|ps| - 1]) else before
  }

  // ----- The inputs behind them -----

  function InputsFor(ps: seq<Post>): (r: seq<R.Input>)
    ensures |r| == |ps| && forall k :: 0 <= k < |ps| ==> r[k] == InputFor(ps[k])
  {
    seq(|ps|, k requires 0 <= k < |ps| => InputFor(ps[k]))
  }

  lemma InputsSnoc(front: seq<Post>, p: Post)
    ensures InputsFor(front + [p]) == InputsFor(front) + [InputFor(p)]
  {
  }

  lemma InputsCons(p: Post, rest: seq<Post>)
    ensures InputsFor([p] + rest) == [InputFor(p)] + InputsFor(rest)
  {
  }

  ghost predicate AllWellPosted(ps: seq<Post>) {
    forall k :: 0 <= k < |ps| ==> WellPosted(ps[k])
  }

  lemma InputsPrinted(ps: seq<Post>)
    requires AllWellPosted(ps)
    ensures R.Inputs(PrintAll(ps)) == InputsFor(ps)
  {
    forall k | 0 <= k < |ps| ensures R.Inputs(PrintAll(ps))[k] == InputsFor(ps)[k] {
      DecodePrint(ps[k]);
    }
  }

  lemma EndsFor(p: Post)
    ensures RP.Ends(ActionFor(p)) <==> IsEnd(p.what)
  {
  }

  lemma {:induction false} LiveFrom(a: seq<R.Input>, b: seq<R.Input>)
    ensures RP.Live(a + b) == if RP.Over(RP.Live(a)) then RP.Live(a) else RP.Live(a) + RP.Live(b)
  {
    if b == [] {
      assert a + b == a;
    } else {
      var front, last := b[..|b| - 1], b[|b| - 1];
      assert (a + b)[..|a + b| - 1] == a + front;
      LiveFrom(a, front);
      if !RP.Over(RP.Live(a)) { OverAppend(RP.Live(a), RP.Live(front)); }
    }
  }

  lemma OverAppend(a: seq<R.Input>, b: seq<R.Input>)
    requires !RP.Over(a)
    ensures RP.Over(a + b) <==> RP.Over(b)
  {
    if b == [] { assert a + b == a; }
  }

  lemma {:induction false} HeardIsLive(ps: seq<Post>)
    ensures InputsFor(Heard(ps)) == RP.Live(InputsFor(ps))
  {
    if ps == [] {
      assert InputsFor(ps) == [];
    } else {
      var p, rest := ps[0], ps[1..];
      var x := InputFor(p);
      assert ps == [p] + rest;
      HeardIsLive(rest);
      EndsFor(p);
      LiveOne(x);
      LiveFrom([x], InputsFor(rest));
      InputsCons(p, rest);
      InputsCons(p, Heard(rest));
      assert InputsFor([p]) == [x];
    }
  }

  lemma LiveOne(x: R.Input)
    ensures RP.Live([x]) == [x] && (RP.Over([x]) <==> RP.Ends(x.action))
  {
    assert [x][..0] == [] && RP.Live([]) == [] && [] + [x] == [x];
  }

  // ----- What they say -----

  lemma {:induction false} TextTold(ps: seq<Post>)
    ensures RP.TextIn(InputsFor(ps)) == TextSaid(ps) && RP.ReasonIn(InputsFor(ps)) == ReasonsGiven(ps)
  {
    if ps != [] {
      var front, p := ps[..|ps| - 1], ps[|ps| - 1];
      TextTold(front);
      assert ps == front + [p];
      InputsSnoc(front, p);
      TextSnoc(InputsFor(front), InputFor(p));
      PostText(p);
    }
  }

  lemma TextSnoc(front: seq<R.Input>, x: R.Input)
    ensures RP.TextIn(front + [x]) == RP.TextIn(front) + RP.TextOf(x.action)
    ensures RP.ReasonIn(front + [x]) == RP.ReasonIn(front) + if x.action.Reason? then x.action.text else ""
  {
    assert (front + [x])[..|front|] == front;
  }

  lemma PostText(p: Post)
    ensures RP.TextOf(ActionFor(p)) == TextBy(p)
    ensures
      (if ActionFor(p).Reason? then ActionFor(p).text else "") == if p.what.Reasons? then p.what.text else ""
  {
  }

  predicate Brings(a: R.Action) {
    a.Text? || a.Reason? || a.AddItem? || a.Json? || a.Fail? || (a.DoneItem? && a.arguments != "")
  }

  lemma {:induction false} SentSpoke(xs: seq<R.Input>, place: nat)
    requires RP.Sent(xs, place)
    ensures RP.Spoke(xs)
  {
    var front, x := xs[..|xs| - 1], xs[|xs| - 1];
    assert xs == front + [x];
    RP.SpokeSnoc(front, x);
    RP.SentSnoc(front, x, place);
    if RP.Sent(front, place) { SentSpoke(front, place); }
  }

  ghost predicate AnyBrings(xs: seq<R.Input>) {
    exists k :: 0 <= k < |xs| && Brings(xs[k].action)
  }

  /** A finished item whose arguments are not sent again is not the first that is heard. */
  lemma {:induction false} SpokeIsBrought(xs: seq<R.Input>)
    ensures RP.Spoke(xs) <==> AnyBrings(xs)
  {
    if xs != [] {
      var front, x := xs[..|xs| - 1], xs[|xs| - 1];
      assert xs == front + [x];
      SpokeIsBrought(front);
      RP.SpokeSnoc(front, x);
      BringsSnoc(front, x);
      if x.action.DoneItem? && x.action.arguments != "" {
        var place := RP.PlaceFor(RP.Slots(front), x.action.key);
        if RP.Sent(front, place) { SentSpoke(front, place); }
      }
    }
  }

  lemma BringsSnoc(front: seq<R.Input>, x: R.Input)
    ensures AnyBrings(front + [x]) <==> AnyBrings(front) || Brings(x.action)
  {
    var all := front + [x];
    if Brings(x.action) { assert Brings(all[|front|].action); }
    if AnyBrings(front) {
      var k :| 0 <= k < |front| && Brings(front[k].action);
      assert Brings(all[k].action);
    }
  }

  lemma HeardTold(ps: seq<Post>)
    ensures RP.Spoke(InputsFor(ps)) <==> AnythingHeard(ps)
  {
    SpokeIsBrought(InputsFor(ps));
    forall k | 0 <= k < |ps| ensures Brings(InputsFor(ps)[k].action) <==> IsHeard(ps[k].what) {
    }
  }

  lemma {:induction false} CallsTold(ps: seq<Post>)
    ensures RP.Slots(InputsFor(ps)) != [] <==> AnyCall(ps)
  {
    if ps == [] {
      assert InputsFor(ps) == [];
    } else {
      var front, p := ps[..|ps| - 1], ps[|ps| - 1];
      CallsTold(front);
      assert ps == front + [p];
      InputsSnoc(front, p);
      RP.SlotsSnoc(InputsFor(front), InputFor(p));
      CallSnoc(front, p);
    }
  }

  lemma CallSnoc(front: seq<Post>, p: Post)
    ensures AnyCall(front + [p]) <==> AnyCall(front) || p.what.Announces?
  {
    var all := front + [p];
    if p.what.Announces? { assert all[|front|].what.Announces?; }
    if AnyCall(front) {
      var k :| 0 <= k < |front| && front[k].what.Announces?;
      assert all[k].what.Announces?;
    }
  }

  lemma OverTold(ps: seq<Post>)
    ensures RP.Over(InputsFor(ps)) <==> Ended(ps)
  {
    if ps != [] { EndsFor(ps[|ps| - 1]); }
  }

  /** A failure stops the reply; else it depends on whether a call was announced. */
  ghost predicate FinishesAs(ps: seq<Post>, finish: string) {
    if ps != [] && ps[|ps| - 1].what.Fails? then finish == "stop"
    else finish == if AnyCall(ps) then "tool_calls" else "stop"
  }

  lemma FinishTold(ps: seq<Post>)
    ensures FinishesAs(ps, RP.FinishIn(InputsFor(ps)))
  {
    CallsTold(ps);
    OverTold(ps);
    if ps != [] { assert InputsFor(ps)[|ps| - 1] == InputFor(ps[|ps| - 1]); }
  }

  // ----- The last chunk -----

  ghost predicate NoneEnds(ps: seq<Post>) {
    forall k :: 0 <= k < |ps| ==> !IsEnd(ps[k].what)
  }

  ghost predicate Holds(s: R.State, model: string, ps: seq<Post>) {
    !s.finished && s.model == ModelIn(model, ps) && s.promptTokens.None? && s.completionTokens.None?
  }

  lemma StepHolds(ids: IdSource, s: R.State, model: string, front: seq<Post>, p: Post)
    requires Holds(s, model, front) && !IsEnd(p.what)
    ensures Holds(R.Step(ids, s, InputFor(p)).0, model, front + [p])
  {
    assert (front + [p])[..|front|] == front;
    EndsFor(p);
  }

  lemma {:induction false} RunHolds(ids: IdSource, model: string, id: string, ps: seq<Post>)
    requires NoneEnds(ps)
    ensures Holds(R.Run(ids, R.Start(model, id), InputsFor(ps)).0, model, ps)
  {
    if ps == [] {
      assert InputsFor(ps) == [];
    } else {
      var front, p := ps[..|ps| - 1], ps[|ps| - 1];
      RunHolds(ids, model, id, front);
      assert ps == front + [p];
      InputsSnoc(front, p);
      RunSnoc(ids, R.Start(model, id), InputsFor(front), InputFor(p));
      StepHolds(ids, R.Run(ids, R.Start(model, id), InputsFor(front)).0, model, front, p);
    }
  }

  lemma RunSnoc(ids: IdSource, s: R.State, front: seq<R.Input>, x: R.Input)
    ensures
      var (s1, fs1) := R.Run(ids, s, front);
      && R.Run(ids, s, front + [x]).0 == R.Step(ids, s1, x).0
      && R.Run(ids, s, front + [x]).1 == fs1 + R.Step(ids, s1, x).1
  {
    assert (front + [x])[..|front|] == front;
  }

  lemma {:induction false} RunLive(ids: IdSource, model: string, id: string, xs: seq<R.Input>)
    ensures R.Run(ids, R.Start(model, id), xs) == R.Run(ids, R.Start(model, id), RP.Live(xs))
  {
    if xs != [] {
      var front, x := xs[..|xs| - 1], xs[|xs| - 1];
      RunLive(ids, model, id, front);
      RP.RunReads(ids, model, id, front);
      if RP.Over(RP.Live(front)) {
        assert R.Run(ids, R.Start(model, id), front).1 + [] == R.Run(ids, R.Start(model, id), front).1;
      } else {
        RunSnoc(ids, R.Start(model, id), RP.Live(front), x);
      }
    }
  }

  /** The last chunk names the model, and carries the counts if the response was completed with any. */
  ghost predicate LastChunk(last: ChatChunk, model: string, ps: seq<Post>) {
    last.model == ModelIn(model, ps) && F.Sums(last.usage, InputCount(ps), OutputCount(ps))
  }

  ghost predicate EndsOnce(heard: seq<Post>) {
    NoneEnds(heard) || (heard != [] && NoneEnds(heard[..|heard| - 1]) && IsEnd(heard[|heard| - 1].what))
  }

  lemma {:induction false} HeardEnds(ps: seq<Post>)
    ensures EndsOnce(Heard(ps))
  {
    if ps != [] && !IsEnd(ps[0].what) {
      HeardEnds(ps[1..]);
      EndsOnceCons(ps[0], Heard(ps[1..]));
    }
  }

  lemma EndsOnceCons(p: Post, rest: seq<Post>)
    requires !IsEnd(p.what) && EndsOnce(rest)
    ensures EndsOnce([p] + rest)
  {
    var all := [p] + rest;
    if rest != [] { assert all[..|all| - 1] == [p] + rest[..|rest| - 1]; }
  }

  lemma EndFrames(ids: IdSource, s: R.State, model: string, front: seq<Post>, p: Post) returns (last: ChatChunk)
    requires Holds(s, model, front) && IsEnd(p.what)
    ensures R.Step(ids, s, InputFor(p)).1 == [Data(last), Done] && R.Step(ids, s, InputFor(p)).0.finished
    ensures LastChunk(last, model, front + [p])
  {
    EndsFor(p);
    var fs := R.Step(ids, s, InputFor(p)).1;
    last := fs[0].chunk;
    assert fs == [fs[0], fs[1]];
    assert (front + [p])[..|front|] == front && (front + [p])[|front|] == p;
  }

  lemma HeardStreamEnds(ids: IdSource, model: string, id: string, heard: seq<Post>)
    returns (body: seq<ChatFrame>, last: ChatChunk)
    requires EndsOnce(heard)
    ensures R.Stream(ids, model, id, InputsFor(heard)) == body + [Data(last), Done] && LastChunk(last, model, heard)
  {
    if NoneEnds(heard) {
      RunHolds(ids, model, id, heard);
      var (s, fs) := R.Run(ids, R.Start(model, id), InputsFor(heard));
      body, last := fs, R.Finish(s).1[0].chunk;
      assert R.Finish(s).1 == [Data(last), Done];
      if heard != [] { assert !IsEnd(heard[|heard| - 1].what); }
    } else {
      var front, p := heard[..|heard| - 1], heard[|heard| - 1];
      assert heard == front + [p];
      body, last := ClosedEnds(ids, model, id, front, p);
    }
  }

  lemma ClosedEnds(ids: IdSource, model: string, id: string, front: seq<Post>, p: Post)
    returns (body: seq<ChatFrame>, last: ChatChunk)
    requires NoneEnds(front) && IsEnd(p.what)
    ensures R.Stream(ids, model, id, InputsFor(front + [p])) == body + [Data(last), Done]
    ensures LastChunk(last, model, front + [p])
  {
    RunHolds(ids, model, id, front);
    InputsSnoc(front, p);
    RunSnoc(ids, R.Start(model, id), InputsFor(front), InputFor(p));
    var (s, fs) := R.Run(ids, R.Start(model, id), InputsFor(front));
    last := EndFrames(ids, s, model, front, p);
    body := fs;
    assert body + [Data(last), Done] + [] == body + [Data(last), Done];
  }

  lemma StreamIsHeard(ids: IdSource, model: string, id: string, ps: seq<Post>)
    ensures R.Stream(ids, model, id, InputsFor(ps)) == R.Stream(ids, model, id, InputsFor(Heard(ps)))
  {
    HeardIsLive(ps);
    RunLive(ids, model, id, InputsFor(ps));
  }

  lemma {:induction false} RunIsOneReplys(ids: IdSource, model: string, id: string, xs: seq<R.Input>)
    ensures
      var (s, fs) := R.Run(ids, R.Start(model, id), xs);
      s.id == id && F.OneReplys(fs, id)
  {
    if xs != [] {
      var front, x := xs[..|xs| - 1], xs[|xs| - 1];
      RunIsOneReplys(ids, model, id, front);
      StepIsOneReplys(ids, R.Run(ids, R.Start(model, id), front).0, x);
    }
  }

  lemma StepIsOneReplys(ids: IdSource, s: R.State, x: R.Input)
    ensures R.Step(ids, s, x).0.id == s.id && F.OneReplys(R.Step(ids, s, x).1, s.id)
  {
  }

  // ----- The reply -----

  lemma StreamContent(ids: IdSource, model: string, id: string, xs: seq<R.Input>)
    ensures Content(R.Stream(ids, model, id, xs)) == RP.TextIn(RP.Live(xs))
    ensures Reasoning(R.Stream(ids, model, id, xs)) == RP.ReasonIn(RP.Live(xs))
  {
    var (s, fs) := R.Run(ids, R.Start(model, id), xs);
    RP.RunKeeps(ids, model, id, xs);
    UnitsInAppend(fs, R.Finish(s).1);
    assert C.CallUnits([]) == [];
    if s.finished {
      assert UnitsIn([]) == [];
    } else {
      LastUnits(R.Finish(s).1[0]);
    }
    SaidAppend(UnitsIn(fs), UnitsIn(R.Finish(s).1));
    ThoughtAppend(UnitsIn(fs), UnitsIn(R.Finish(s).1));
  }

  lemma LastUnits(f: ChatFrame)
    requires f.Data? && |f.chunk.choices| == 1 && f.chunk.choices[0].delta == EMPTY_DELTA
    ensures UnitsIn([f, Done]) == []
  {
    assert [f, Done] == [f] + [Done];
    UnitsInAppend([f], [Done]);
    UnitsInOne(Done);
    DeltaUnits(f, None, None, []);
    assert C.CallUnits([]) == [];
  }

  /**
   * The reply to whatever happens upstream, in any order: one finish reason,
   * then [DONE], the role once if anything was said; the content is the texts,
   * with the error's, and the reasoning the reasons, up to the end; the last
   * chunk names the model and has the token counts under their own names.
   */
  lemma HappeningsTell(ids: IdSource, model: string, id: string, ps: seq<Post>)
    returns (body: seq<ChatFrame>, last: ChatChunk)
    requires AllWellPosted(ps)
    ensures
      var fs, heard := R.Stream(ids, model, id, R.Inputs(PrintAll(ps))), Heard(ps);
      var reply := Reader.Read(Some(Reader.NO_REPLY), fs);
      && reply.Some? && reply.value.done && reply.value.finish.Some? && FinishesAs(heard, reply.value.finish.value)
      && (reply.value.role <==> AnythingHeard(heard))
      && Content(fs) == TextSaid(heard) && Reasoning(fs) == ReasonsGiven(heard)
      && fs == body + [Data(last), Done] && LastChunk(last, model, heard) && F.OneReplys(fs, id)
  {
    var xs, heard := InputsFor(ps), Heard(ps);
    InputsPrinted(ps);
    HeardIsLive(ps);
    RP.StreamIsOneReply(ids, model, id, xs);
    FinishTold(heard);
    HeardTold(heard);
    StreamContent(ids, model, id, xs);
    TextTold(heard);
    StreamIsHeard(ids, model, id, ps);
    HeardEnds(ps);
    body, last := HeardStreamEnds(ids, model, id, heard);
    StreamIsOneReplys(ids, model, id, xs);
  }

  lemma StreamIsOneReplys(ids: IdSource, model: string, id: string, xs: seq<R.Input>)
    ensures F.OneReplys(R.Stream(ids, model, id, xs), id)
  {
    RunIsOneReplys(ids, model, id, xs);
    assert F.OneReplys(R.Finish(R.Run(ids, R.Start(model, id), xs).0).1, id);
  }

  // ----- Items -----

  predicate AnnouncesKey(h: Happening, key: string) {
    h.Announces? && KeyOf(h.key, h.callId) == key
  }

  ghost predicate Announced(ps: seq<Post>, key: string) {
    key != "" && exists k :: 0 <= k < |ps| && AnnouncesKey(ps[k].what, key)
  }

  /** The first announcement of an item. */
  function FirstAnnounced(ps: seq<Post>, key: string): Option<Happening> {
    if ps == [] then None
    else
      var before, h := FirstAnnounced(ps[..|ps| - 1], key), ps[|ps| - 1].what;
      if before.None? && AnnouncesKey(h, key) then Some(h) else before
  }

  predicate ArguesFor(h: Happening, key: string) {
    h.Argues? && h.item == key
  }

  predicate ClosesKey(h: Happening, key: string) {
    h.Closes? && KeyOf(h.key, "") == key
  }

  ghost predicate HasFragment(ps: seq<Post>, key: string) {
    exists k :: 0 <= k < |ps| && ArguesFor(ps[k].what, key) && ps[k].what.json != ""
  }

  function FragmentText(ps: seq<Post>, key: string): string {
    if ps == [] then ""
    else
      var h := ps[|ps| - 1].what;
      FragmentText(ps[..|ps| - 1], key) + if ArguesFor(h, key) then h.json else ""
  }

  /** The arguments of the item's finished form: the first that are not empty. */
  function ClosingText(ps: seq<Post>, key: string): string {
    if ps == [] then ""
    else
      var before, h := ClosingText(ps[..|ps| - 1], key), ps[|ps| - 1].what;
      if before == "" && ClosesKey(h, key) then FinalText(h.final) else before
  }

  /** An item's arguments: its fragments if it has any, and else those it is finished with. */
  ghost function ItemText(ps: seq<Post>, key: string): string {
    if HasFragment(ps, key) then FragmentText(ps, key) else ClosingText(ps, key)
  }

  /** Arguments, in fragments or finished, come for items announced before. */
  ghost predicate AllKnown(ps: seq<Post>) {
    forall k :: 0 <= k < |ps| ==> KnownAt(ps, k)
  }

  ghost predicate KnownAt(ps: seq<Post>, k: nat)
    requires k < |ps|
  {
    match ps[k].what
    case Argues(item, json, _) => json != "" ==> Announced(ps[..k], item)
    case Closes(key, _, _) => Announced(ps[..k], KeyOf(key, ""))
    case _ => true
  }

  /** No fragment of the item comes after its finished form. */
  ghost predicate FragmentsFirst(ps: seq<Post>, key: string) {
    forall j, k :: 0 <= j < k < |ps| && ClosesKey(ps[j].what, key) ==>
      !(ArguesFor(ps[k].what, key) && ps[k].what.json != "")
  }

  lemma {:induction false} AnnouncedTold(ps: seq<Post>, key: string)
    requires key != ""
    ensures key in RP.Slots(InputsFor(ps)) <==> Announced(ps, key)
  {
    if ps == [] {
      assert InputsFor(ps) == [];
    } else {
      var front, p := ps[..|ps| - 1], ps[|ps| - 1];
      AnnouncedTold(front, key);
      assert ps == front + [p];
      InputsSnoc(front, p);
      RP.SlotsSnoc(InputsFor(front), InputFor(p));
      AnnouncedSnoc(front, p, key);
    }
  }

  lemma AnnouncedSnoc(front: seq<Post>, p: Post, key: string)
    ensures Announced(front + [p], key) <==> Announced(front, key) || (key != "" && AnnouncesKey(p.what, key))
  {
    var all := front + [p];
    if AnnouncesKey(p.what, key) { assert AnnouncesKey(all[|front|].what, key); }
    if Announced(front, key) {
      var k :| 0 <= k < |front| && AnnouncesKey(front[k].what, key);
      assert AnnouncesKey(all[k].what, key);
    }
  }

  lemma FragmentTold(ps: seq<Post>, key: string)
    ensures RP.HasDelta(InputsFor(ps), key) <==> HasFragment(ps, key)
  {
    var xs := InputsFor(ps);
    forall k | 0 <= k < |ps|
      ensures xs[k].action.Json? && xs[k].action.item == key <==> ArguesFor(ps[k].what, key) && ps[k].what.json != ""
    {
    }
  }

  lemma ActionTexts(front: seq<R.Input>, x: R.Input, key: string)
    ensures RP.DeltaText(front + [x], key) ==
      RP.DeltaText(front, key) + if x.action.Json? && x.action.item == key then x.action.json else ""
    ensures RP.DoneText(front + [x], key) ==
      if RP.DoneText(front, key) == "" && x.action.DoneItem? && x.action.key == key then x.action.arguments
        else RP.DoneText(front, key)
  {
    RP.TextsSnoc(front, x, key, 0);
  }

  lemma PostItem(p: Post, key: string)
    ensures
      var a := ActionFor(p);
      && (if a.Json? && a.item == key then a.json else "") == (if ArguesFor(p.what, key) then p.what.json else "")
      && (a.DoneItem? && a.key == key <==> ClosesKey(p.what, key))
      && (a.DoneItem? && a.key == key ==> a.arguments == FinalText(p.what.final))
  {
  }

  lemma {:induction false} FragmentTextTold(ps: seq<Post>, key: string)
    ensures RP.DeltaText(InputsFor(ps), key) == FragmentText(ps, key)
  {
    if ps == [] {
      assert InputsFor(ps) == [];
    } else {
      var front, p := ps[..|ps| - 1], ps[|ps| - 1];
      FragmentTextTold(front, key);
      assert ps == front + [p];
      InputsSnoc(front, p);
      ActionTexts(InputsFor(front), InputFor(p), key);
      PostItem(p, key);
    }
  }

  lemma {:induction false} ClosingTextTold(ps: seq<Post>, key: string)
    ensures RP.DoneText(InputsFor(ps), key) == ClosingText(ps, key)
  {
    if ps == [] {
      assert InputsFor(ps) == [];
    } else {
      var front, p := ps[..|ps| - 1], ps[|ps| - 1];
      ClosingTextTold(front, key);
      assert ps == front + [p];
      InputsSnoc(front, p);
      ActionTexts(InputsFor(front), InputFor(p), key);
      PostItem(p, key);
    }
  }

  lemma KnownTold(ps: seq<Post>)
    ensures AllKnown(ps) ==> RP.Stable(InputsFor(ps))
  {
    var xs := InputsFor(ps);
    if AllKnown(ps) {
      forall k | 0 <= k < |xs| && RP.Named(xs[k].action).Some?
        ensures RP.Named(xs[k].action).value != "" && RP.Named(xs[k].action).value in RP.Slots(xs[..k])
      {
        assert KnownAt(ps, k);
        assert xs[..k] == InputsFor(ps[..k]);
        AnnouncedTold(ps[..k], RP.Named(xs[k].action).value);
      }
    }
  }

  lemma FirstTold(ps: seq<Post>, key: string)
    requires FragmentsFirst(ps, key)
    ensures RP.DeltasFirst(InputsFor(ps), key)
  {
    var xs := InputsFor(ps);
    forall k | 0 <= k < |ps|
      ensures xs[k].action.Json? && xs[k].action.item == key <==> ArguesFor(ps[k].what, key) && ps[k].what.json != ""
      ensures xs[k].action.DoneItem? && xs[k].action.key == key <==> ClosesKey(ps[k].what, key)
    {
    }
  }
}
