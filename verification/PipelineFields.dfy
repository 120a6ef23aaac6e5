/** What an Anthropic client reads of a Responses upstream, told from what happened upstream. */
module PipelineFields {
  import opened Basics
  import opened Wire
  import opened Pipeline
  import opened PipelineProofs
  import opened ResponsesEvents
  import opened ChatUnits
  import H = ResponsesFields
  import C = ChatToAnthropic
  import P = ChatToAnthropicProofs
  import R = ResponsesToChat
  import RP = ResponsesToChatProofs
  import Sse

  /** What happened before the marker. */
  function BeforeMarker(ps: seq<Post>): seq<Post> {
    if ps == [] || ps[0].what.Marker? then [] else [ps[0]] + BeforeMarker(ps[1..])
  }

  /** What counts: up to the marker, or the first end. */
  function Counting(ps: seq<Post>): seq<Post> {
    H.Heard(BeforeMarker(ps))
  }

  lemma {:induction false} MarkerTold(ps: seq<Post>)
    requires H.AllWellPosted(ps)
    ensures Upstream(PrintAll(ps)) == PrintAll(BeforeMarker(ps)) && H.AllWellPosted(BeforeMarker(ps))
    ensures Upstream(PrintAll(ps)) == PrintAll(ps) <==> BeforeMarker(ps) == ps
    ensures |BeforeMarker(ps)| <= |ps|
  {
    if ps == [] {
      assert PrintAll(ps) == [];
    } else {
      assert WellPosted(ps[0]);
      PrintCons(ps[0], ps[1..]);
      assert ps == [ps[0]] + ps[1..];
      if ps[0].what.Marker? {
        assert PrintAll([]) == [];
      } else {
        MarkerTold(ps[1..]);
        PrintCons(ps[0], BeforeMarker(ps[1..]));
        assert |PrintAll(BeforeMarker(ps[1..]))| == |BeforeMarker(ps[1..])|;
      }
    }
  }

  lemma PrintCons(p: Post, rest: seq<Post>)
    ensures PrintAll([p] + rest) == [Print(p)] + PrintAll(rest)
    ensures PrintAll([p] + rest)[1..] == PrintAll(rest) && Print(p).raw == p.raw
  {
  }

  /** The inputs that count, as they are decoded from what was printed. */
  lemma CountingTold(ps: seq<Post>)
    requires H.AllWellPosted(ps)
    ensures Inputs(PrintAll(ps)) == H.InputsFor(BeforeMarker(ps))
    ensures RP.Live(Inputs(PrintAll(ps))) == H.InputsFor(Counting(ps))
  {
    MarkerTold(ps);
    H.InputsPrinted(BeforeMarker(ps));
    H.HeardIsLive(BeforeMarker(ps));
  }

  // ----- What the client reads -----

  /** Something was said, or the stream ended. */
  ghost predicate Answered(ps: seq<Post>) {
    H.AnythingHeard(ps) || H.Ended(ps)
  }

  /** The client's stream is finished: an end, the marker, or the end of the upstream's response. */
  ghost predicate Finished(ps: seq<Post>, ending: Sse.Ending) {
    ending.Eof? || (exists k :: 0 <= k < |ps| && ps[k].what.Marker?) || H.Ended(Counting(ps))
  }

  lemma {:induction false} MarkerThere(ps: seq<Post>)
    ensures BeforeMarker(ps) != ps <==> exists k :: 0 <= k < |ps| && ps[k].what.Marker?
    ensures |BeforeMarker(ps)| <= |ps|
  {
    if ps != [] {
      MarkerThere(ps[1..]);
      assert ps == [ps[0]] + ps[1..];
      if ps[0].what.Marker? {
        assert ps[0].what.Marker?;
      } else if k :| 0 <= k < |ps| && ps[k].what.Marker? {
        assert ps[1..][k - 1].what.Marker?;
      }
      if k :| 0 <= k < |ps[1..]| && ps[1..][k].what.Marker? {
        assert ps[k + 1].what.Marker?;
      }
      if !ps[0].what.Marker? {
        assert BeforeMarker(ps)[1..] == BeforeMarker(ps[1..]);
      }
    }
  }

  /** What happened up to the first that is said, or to the end. */
  function UpToSaid(ps: seq<Post>): seq<Post> {
    if ps == [] then []
    else if H.IsHeard(ps[0].what) || H.IsEnd(ps[0].what) then [ps[0]]
    else [ps[0]] + UpToSaid(ps[1..])
  }

  lemma {:induction false} UpToSaidSnoc(front: seq<Post>, p: Post)
    ensures UpToSaid(front + [p]) == if SaidAny(front) then UpToSaid(front) else front + [p]
  {
    if front == [] {
      assert UpToSaid([p]) == [p];
      assert [] + [p] == [p];
    } else {
      assert (front + [p])[1..] == front[1..] + [p];
      assert front + [p] == [front[0]] + (front[1..] + [p]);
      UpToSaidSnoc(front[1..], p);
      SaidCons(front);
    }
  }

  ghost predicate SaidAny(ps: seq<Post>) {
    exists k :: 0 <= k < |ps| && (H.IsHeard(ps[k].what) || H.IsEnd(ps[k].what))
  }

  lemma SaidCons(ps: seq<Post>)
    requires ps != []
    ensures SaidAny(ps) <==> H.IsHeard(ps[0].what) || H.IsEnd(ps[0].what) || SaidAny(ps[1..])
  {
    if k :| 0 <= k < |ps[1..]| && (H.IsHeard(ps[1..][k].what) || H.IsEnd(ps[1..][k].what)) {
      assert ps[k + 1] == ps[1..][k];
    }
    if k :| 1 <= k < |ps| && (H.IsHeard(ps[k].what) || H.IsEnd(ps[k].what)) {
      assert ps[1..][k - 1] == ps[k];
    }
  }

  /** Chunks come of what is said or ends. */
  lemma ChunksTold(u: Setup, heard: seq<Post>)
    requires H.EndsOnce(heard)
    ensures ChunksOf(ChatFrames(u, H.InputsFor(heard))) != [] <==> SaidAny(heard)
  {
    RunSends(u, H.InputsFor(heard));
    OnceIsLive(heard);
    H.HeardTold(heard);
    H.OverTold(heard);
    SaidIsAnswered(heard);
  }

  lemma SaidIsAnswered(heard: seq<Post>)
    requires H.EndsOnce(heard)
    ensures SaidAny(heard) <==> Answered(heard)
  {
    if SaidAny(heard) {
      var k :| 0 <= k < |heard| && (H.IsHeard(heard[k].what) || H.IsEnd(heard[k].what));
      assert H.IsHeard(heard[k].what) || k == |heard| - 1;
    }
    if H.Ended(heard) { assert H.IsEnd(heard[|heard| - 1].what); }
  }

  lemma {:induction false} OnceIsLive(heard: seq<Post>)
    requires H.EndsOnce(heard)
    ensures RP.Live(H.InputsFor(heard)) == H.InputsFor(heard)
  {
    H.HeardIsLive(heard);
    OnceIsHeard(heard);
  }

  lemma {:induction false} OnceIsHeard(heard: seq<Post>)
    requires H.EndsOnce(heard)
    ensures H.Heard(heard) == heard
  {
    if heard != [] {
      if H.IsEnd(heard[0].what) {
        assert |heard| == 1;
      } else {
        var rest := heard[1..];
        if !H.NoneEnds(heard) { assert rest[..|rest| - 1] == heard[..|heard| - 1][1..]; }
        OnceIsHeard(rest);
        assert heard == [heard[0]] + rest;
      }
    }
  }

  /** The first chunk names the model known by then. */
  lemma {:induction false} FirstModel(u: Setup, heard: seq<Post>)
    requires H.EndsOnce(heard)
    ensures
      var chunks := ChunksOf(ChatFrames(u, H.InputsFor(heard)));
      chunks != [] ==> chunks[0].model == H.ModelIn(u.model, UpToSaid(heard))
  {
    if heard != [] {
      var front, p := heard[..|heard| - 1], heard[|heard| - 1];
      assert heard == front + [p] && H.NoneEnds(front);
      FirstModel(u, front);
      ChunksTold(u, front);
      UpToSaidSnoc(front, p);
      NextModel(u, front, p);
    }
  }

  lemma NextModel(u: Setup, front: seq<Post>, p: Post)
    requires H.NoneEnds(front)
    ensures
      var before := ChunksOf(ChatFrames(u, H.InputsFor(front)));
      var chunks := ChunksOf(ChatFrames(u, H.InputsFor(front + [p])));
      if before != [] then chunks != [] && chunks[0] == before[0]
      else chunks != [] ==> chunks[0].model == H.ModelIn(u.model, front + [p])
  {
    var start, xs := R.Start(u.model, u.chatId), H.InputsFor(front);
    H.InputsSnoc(front, p);
    H.RunSnoc(u.chatIds, start, xs, InputFor(p));
    H.RunHolds(u.chatIds, u.model, u.chatId, front);
    var (s, fs) := R.Run(u.chatIds, start, xs);
    ChunksOfAppend(fs, R.Step(u.chatIds, s, InputFor(p)).1);
    ModelSnoc(u.model, front, p);
    StepModel(u.chatIds, s, InputFor(p));
  }

  lemma ModelSnoc(model: string, front: seq<Post>, p: Post)
    ensures
      H.ModelIn(model, front + [p]) ==
        if H.ModelIn(model, front) == "" then InputFor(p).model else H.ModelIn(model, front)
  {
    assert (front + [p])[..|front|] == front;
  }

  lemma StepModel(ids: IdSource, s: R.State, x: R.Input)
    requires !s.finished
    ensures
      var chunks := ChunksOf(R.Step(ids, s, x).1);
      chunks != [] ==> chunks[0].model == if s.model == "" then x.model else s.model
  {
    var fs := R.Step(ids, s, x).1;
    if fs != [] { assert ChunksOf(fs) == ChunkIn(fs[0]) + ChunksOf(fs[1..]); }
  }

  /** What is in the message. */
  ghost predicate TellsOf(message: P.Message, u: Setup, heard: seq<Post>) {
    && message.id == u.id && message.model == H.ModelIn(u.model, UpToSaid(heard))
    && P.TextOf(message.blocks) == H.TextSaid(heard) && P.ThinkingOf(message.blocks) == H.ReasonsGiven(heard)
    && message.output == H.OutputCount(heard)
    && message.stop == (if H.Ended(heard) && !heard[|heard| - 1].what.Fails? && H.AnyCall(heard) then "tool_use"
                        else "end_turn")
  }

  /** An announced item's block has its name, its call id and its arguments. */
  ghost predicate ItemBlockIs(block: P.Block, heard: seq<Post>, key: string) {
    var first := H.FirstAnnounced(heard, key);
    && block.head.ToolHead? && first.Some? && first.value.Announces?
    && block.head.name == first.value.name && (first.value.callId != "" ==> block.head.id == first.value.callId)
    && block.text == H.ItemText(heard, key)
  }

  lemma {:induction false} AnnouncementTold(ps: seq<Post>, key: string)
    ensures
      var a, h := FirstAdd(H.InputsFor(ps), key), H.FirstAnnounced(ps, key);
      && (a.None? <==> h.None?)
      && (h.Some? ==>
            a.value.AddItem? && h.value.Announces? && a.value.name == h.value.name && a.value.callId == h.value.callId)
  {
    if ps == [] {
      assert H.InputsFor(ps) == [];
    } else {
      var front, p := ps[..|ps| - 1], ps[|ps| - 1];
      AnnouncementTold(front, key);
      assert ps == front + [p];
      H.InputsSnoc(front, p);
      AddSnoc(H.InputsFor(front), InputFor(p), key);
    }
  }

  lemma StopTold(heard: seq<Post>)
    ensures
      StopFor(H.InputsFor(heard)) ==
        if H.Ended(heard) && !heard[|heard| - 1].what.Fails? && H.AnyCall(heard) then "tool_use" else "end_turn"
  {
    H.OverTold(heard);
    H.FinishTold(heard);
    H.CallsTold(heard);
  }

  lemma OutputTold(heard: seq<Post>)
    ensures OutputFor(H.InputsFor(heard)) == H.OutputCount(heard)
  {
  }

  lemma MessageTold(message: P.Message, u: Setup, heard: seq<Post>)
    requires Tells(message, u, H.InputsFor(heard)) && H.EndsOnce(heard)
    requires
      var chunks := ChunksOf(ChatFrames(u, H.InputsFor(heard)));
      chunks != [] && message.model == P.NameIn(u.model, chunks)
    ensures TellsOf(message, u, heard)
  {
    H.TextTold(heard);
    StopTold(heard);
    OutputTold(heard);
    FirstModel(u, heard);
    KeptModel(u.model, UpToSaid(heard));
  }

  lemma {:induction false} KeptModel(model: string, ps: seq<Post>)
    ensures model != "" ==> H.ModelIn(model, ps) == model
  {
    if ps != [] { KeptModel(model, ps[..|ps| - 1]); }
  }

  /** Only what was heard makes frames. */
  lemma FramesTold(u: Setup, ps: seq<Post>)
    requires H.AllWellPosted(ps)
    ensures ChatFrames(u, Inputs(PrintAll(ps))) == ChatFrames(u, H.InputsFor(Counting(ps)))
    ensures H.EndsOnce(Counting(ps))
  {
    CountingTold(ps);
    H.RunLive(u.chatIds, u.model, u.chatId, Inputs(PrintAll(ps)));
    H.HeardEnds(BeforeMarker(ps));
  }

  /** An announced item with its fragments before its finished form, where all arguments are for known items. */
  ghost predicate ItemKept(heard: seq<Post>, key: string) {
    H.Announced(heard, key) && H.AllKnown(heard) && H.FragmentsFirst(heard, key)
  }

  lemma ItemTold(heard: seq<Post>, key: string, blocks: seq<P.Block>, blockOf: map<int, nat>)
    requires ItemKept(heard, key)
    requires
      KeptItem(H.InputsFor(heard), key) ==> HasBlock(blocks, blockOf, H.InputsFor(heard), key)
    ensures key in RP.Slots(H.InputsFor(heard))
    ensures
      var tool := IndexOf(RP.Slots(H.InputsFor(heard)), key);
      tool in blockOf && blockOf[tool] < |blocks| && ItemBlockIs(blocks[blockOf[tool]], heard, key)
  {
    H.AnnouncedTold(heard, key);
    H.KnownTold(heard);
    H.FirstTold(heard, key);
    AnnouncementTold(heard, key);
    H.FragmentTold(heard, key);
    H.FragmentTextTold(heard, key);
    H.ClosingTextTold(heard, key);
  }

  /** The block of each item that has one. */
  function BlocksByKey(slots: seq<string>, blockOf: map<int, nat>): map<string, nat> {
    map key | key in slots && key != "" && IndexOf(slots, key) in blockOf :: blockOf[IndexOf(slots, key)]
  }

  /** What the reader has in the end: nothing, a broken off or a complete message, or a stream that is none. */
  ghost predicate Leaves(r: Option<P.Reader>, ps: seq<Post>, ending: Sse.Ending, message: P.Message, open: bool) {
    if Answered(Counting(ps)) then
      r == Some(if Finished(ps, ending) then P.Complete(message)
                else P.Reading(message.id, message.model, message.blocks, open))
    else r == if Finished(ps, ending) then None else Some(P.Waiting)
  }

  lemma EndTold(ps: seq<Post>, ending: Sse.Ending)
    requires H.AllWellPosted(ps)
    ensures Answers(Inputs(PrintAll(ps))) <==> Answered(Counting(ps))
    ensures Closed(PrintAll(ps), ending) <==> Finished(ps, ending)
  {
    CountingTold(ps);
    MarkerTold(ps);
    MarkerThere(ps);
    H.HeardTold(Counting(ps));
    H.OverTold(Counting(ps));
  }

  /**
   * Whatever happens upstream, in any order, under any names the events may
   * have for it, and however its response ends: the client has a message
   * exactly if something was said or the stream ended, complete exactly if it
   * was finished besides; its text, reasoning, stop reason and output count are
   * those of what happened; and each item has one block of its own, with its
   * name, its call id and its arguments.
   */
  lemma HappeningsRead(u: Setup, ps: seq<Post>, ending: Sse.Ending)
    returns (message: P.Message, blockOf: map<string, nat>, open: bool)
    requires H.AllWellPosted(ps)
    ensures Leaves(P.Read(false, Some(P.Waiting), Inlet(u, PrintAll(ps), ending)), ps, ending, message, open)
    ensures Answered(Counting(ps)) ==> TellsOf(message, u, Counting(ps))
    ensures
      Answered(Counting(ps)) ==>
        forall key :: ItemKept(Counting(ps), key) ==>
          && key in blockOf && blockOf[key] < |message.blocks|
          && ItemBlockIs(message.blocks[blockOf[key]], Counting(ps), key)
    ensures forall i, j :: i in blockOf && j in blockOf && i != j ==> blockOf[i] != blockOf[j]
  {
    var heard, toolOf := Counting(ps), map[];
    message, toolOf, open := InletReads(u, PrintAll(ps), ending);
    EndTold(ps, ending);
    CountingTold(ps);
    var slots := RP.Slots(H.InputsFor(heard));
    blockOf := BlocksByKey(slots, toolOf);
    if Answered(heard) {
      FramesTold(u, ps);
      MessageTold(message, u, heard);
      forall key | ItemKept(heard, key)
        ensures key in blockOf && blockOf[key] < |message.blocks|
        ensures ItemBlockIs(message.blocks[blockOf[key]], heard, key)
      {
        ItemTold(heard, key, message.blocks, toolOf);
      }
    }
    forall i, j | i in blockOf && j in blockOf && i != j ensures blockOf[i] != blockOf[j] {
      assert slots[IndexOf(slots, i)] == i && slots[IndexOf(slots, j)] == j;
    }
  }
}
