/** The units of a Chat stream, piece by piece: lemmas shared by both translators that write one. */
module ChatUnits {
  import opened Basics
  import opened Wire
  import C = ChatToAnthropic
  import P = ChatToAnthropicProofs

  lemma {:induction false} UnitsAppend(a: seq<ChatChunk>, b: seq<ChatChunk>)
    ensures P.Units(a + b) == P.Units(a) + P.Units(b)
  {
    if b == [] {
      assert a + b == a;
    } else {
      var front := b[..|b| - 1];
      assert (a + b)[..|a + b| - 1] == a + front;
      UnitsAppend(a, front);
      Assoc(P.Units(a), P.Units(front), C.UnitsOf(b[|b| - 1]));
    }
  }

  lemma {:induction false} SaidAppend(us: seq<C.Unit>, vs: seq<C.Unit>)
    ensures P.Said(us + vs) == P.Said(us) + P.Said(vs)
  {
    if vs == [] {
      assert us + vs == us;
    } else {
      var front, v := vs[..|vs| - 1], vs[|vs| - 1];
      assert (us + vs)[..|us + vs| - 1] == us + front;
      SaidAppend(us, front);
      Assoc(P.Said(us), P.Said(front), if v.Say? then v.text else "");
    }
  }

  /** The units of some frames. */
  function UnitsIn(fs: seq<ChatFrame>): seq<C.Unit> {
    P.Units(ChunksOf(fs))
  }

  lemma UnitsInAppend(fs: seq<ChatFrame>, gs: seq<ChatFrame>)
    ensures UnitsIn(fs + gs) == UnitsIn(fs) + UnitsIn(gs)
  {
    ChunksOfAppend(fs, gs);
    UnitsAppend(ChunksOf(fs), ChunksOf(gs));
  }

  lemma UnitsInOne(f: ChatFrame)
    ensures UnitsIn([f]) == if f.Data? then C.UnitsOf(f.chunk) else []
  {
    assert ChunksOf([f]) == ChunkIn(f) + ChunksOf([]);
    assert ChunksOf([f]) == ChunkIn(f);
    if f.Data? {
      assert [f.chunk][..0] == [];
      assert P.Units([f.chunk]) == P.Units([]) + C.UnitsOf(f.chunk);
      assert P.Units([]) == [];
    }
  }

  lemma {:induction false} ThoughtAppend(us: seq<C.Unit>, vs: seq<C.Unit>)
    ensures P.Thought(us + vs) == P.Thought(us) + P.Thought(vs)
  {
    if vs == [] {
      assert us + vs == us;
    } else {
      var front, v := vs[..|vs| - 1], vs[|vs| - 1];
      assert (us + vs)[..|us + vs| - 1] == us + front;
      ThoughtAppend(us, front);
      Assoc(P.Thought(us), P.Thought(front), if v.Think? then v.text else "");
    }
  }

  lemma {:induction false} ArgumentsAppend(us: seq<C.Unit>, vs: seq<C.Unit>, tool: int)
    ensures P.ArgumentsOf(us + vs, tool) == P.ArgumentsOf(us, tool) + P.ArgumentsOf(vs, tool)
  {
    if vs == [] {
      assert us + vs == us;
    } else {
      var front, v := vs[..|vs| - 1], vs[|vs| - 1];
      assert (us + vs)[..|us + vs| - 1] == us + front;
      ArgumentsAppend(us, front, tool);
      Assoc(P.ArgumentsOf(us, tool), P.ArgumentsOf(front, tool), if v.Call? && v.tool == tool then v.arguments else "");
    }
  }

  lemma OneCall(t: ToolDelta)
    ensures C.CallUnits([t]) == [C.UnitOf(t)]
  {
  }

  lemma DeltaUnits(f: ChatFrame, content: Option<string>, reasoning: Option<string>, tools: seq<ToolDelta>)
    requires f.Data? && |f.chunk.choices| == 1
    requires f.chunk.choices[0].delta.(role := "") == ChatDelta("", content, reasoning, tools)
    ensures UnitsIn([f]) == C.SayUnits(content) + C.ThinkUnits(reasoning) + C.CallUnits(tools)
  {
    UnitsInOne(f);
  }

  lemma SaidOne(u: C.Unit)
    ensures P.Said([u]) == if u.Say? then u.text else ""
    ensures P.Thought([u]) == if u.Think? then u.text else ""
    ensures forall tool :: P.ArgumentsOf([u], tool) == if u.Call? && u.tool == tool then u.arguments else ""
  {
    assert [u][..0] == [];
    assert P.Said([u]) == P.Said([]) + if u.Say? then u.text else "";
    assert P.Thought([u]) == P.Thought([]) + if u.Think? then u.text else "";
    forall tool ensures P.ArgumentsOf([u], tool) == if u.Call? && u.tool == tool then u.arguments else "" {
      OneArguments(u, tool);
    }
  }

  lemma OneArguments(u: C.Unit, tool: int)
    ensures P.ArgumentsOf([u], tool) == if u.Call? && u.tool == tool then u.arguments else ""
  {
    assert [u][..0] == [] && P.ArgumentsOf([], tool) == "";
  }

  /** The call that introduces a tool, in two runs of units. */
  lemma {:induction false} FirstCallAppend(us: seq<C.Unit>, vs: seq<C.Unit>, tool: int)
    ensures
      P.FirstCall(us + vs, tool) == if P.FirstCall(us, tool).Some? then P.FirstCall(us, tool) else P.FirstCall(vs, tool)
  {
    if vs == [] {
      assert us + vs == us;
    } else {
      var front := vs[..|vs| - 1];
      assert (us + vs)[..|us + vs| - 1] == us + front;
      FirstCallAppend(us, front, tool);
    }
  }

  lemma FirstOfOne(u: C.Unit, tool: int)
    ensures P.FirstCall([u], tool) == if u.Call? && u.tool == tool then Some(u) else None
  {
    assert [u][..0] == [];
    assert P.FirstCall([], tool) == None;
  }

  /** Calls say nothing and think nothing. */
  lemma {:induction false} CallsAreSilent(us: seq<C.Unit>)
    requires forall k :: 0 <= k < |us| ==> us[k].Call?
    ensures P.Said(us) == "" && P.Thought(us) == ""
  {
    if us != [] { CallsAreSilent(us[..|us| - 1]); }
  }

  /** A call without arguments adds none to those of the next. */
  lemma TwoCalls(first: C.Unit, second: C.Unit, tool: int)
    requires first.Call? && first.arguments == "" && second.Call?
    ensures P.ArgumentsOf([first, second], tool) == if second.tool == tool then second.arguments else ""
  {
    assert [first, second] == [first] + [second];
    ArgumentsAppend([first], [second], tool);
    OneArguments(first, tool);
    OneArguments(second, tool);
  }

  /** The content of some frames. */
  function Content(fs: seq<ChatFrame>): string {
    P.Said(UnitsIn(fs))
  }

  function Reasoning(fs: seq<ChatFrame>): string {
    P.Thought(UnitsIn(fs))
  }

  /** The chunks of a Chat stream as the second translator decodes them. */
  function Received(fs: seq<ChatFrame>): seq<Option<ChatChunk>> {
    SomeAll(ChunksOf(fs))
  }

  function SomeAll(chunks: seq<ChatChunk>): seq<Option<ChatChunk>> {
    seq(|chunks|, k requires 0 <= k < |chunks| => Some(chunks[k]))
  }

  /** While no chunk has finished, a prefix of chunks is all live. */
  lemma {:induction false} LiveWhileOpen(chunks: seq<ChatChunk>)
    requires forall k :: 0 <= k < |chunks| - 1 ==> !C.Finishes(chunks[k])
    ensures P.Live(SomeAll(chunks)) == chunks
  {
    if chunks != [] {
      var n := |chunks| - 1;
      LiveWhileOpen(chunks[..n]);
      assert SomeAll(chunks)[..n] == SomeAll(chunks[..n]);
      assert chunks[..n] + [chunks[n]] == chunks;
    }
  }
}
