/**
 * An independent reader of Chat chunk streams, shared by both translators that
 * write one, and the numbering of tool calls in order of announcement.
 */
module ChatReader {
  import opened Basics
  import opened Wire

  /** What has been seen: the role, the finish reason, the [DONE] marker. */
  datatype Reply = Reply(role: bool, finish: Option<string>, done: bool)

  const NO_REPLY := Reply(false, None, false)

  /**
   * One frame. Chunks carry one choice; the role comes with the first delta
   * that says anything and with no other; one finish reason, after which only
   * [DONE] may come, and nothing after that.
   */
  function ReadFrame(r: Reply, f: ChatFrame): Option<Reply> {
    match f
    case Done => if r.finish.Some? && !r.done then Some(r.(done := true)) else None
    case Data(chunk) =>
      if r.finish.Some? || r.done || |chunk.choices| != 1 then None
      else
        var delta := chunk.choices[0].delta;
        var speaks := delta.content.Some? || delta.reasoning.Some? || delta.tools != [];
        if delta.role != (if speaks && !r.role then "assistant" else "") then None
        else Some(Reply(r.role || speaks, chunk.choices[0].finish, false))
  }

  function Read(r: Option<Reply>, fs: seq<ChatFrame>): Option<Reply>
    decreases fs
  {
    if fs == [] || r.None? then r else Read(ReadFrame(r.value, fs[0]), fs[1..])
  }

  lemma {:induction false} ReadAppend(r: Option<Reply>, fs: seq<ChatFrame>, gs: seq<ChatFrame>)
    ensures Read(r, fs + gs) == Read(Read(r, fs), gs)
    decreases fs
  {
    if fs == [] || r.None? {
      assert [] + gs == gs;
    } else {
      assert (fs + gs)[1..] == fs[1..] + gs;
      ReadAppend(ReadFrame(r.value, fs[0]), fs[1..], gs);
    }
  }

  lemma ReadOne(r: Reply, f: ChatFrame)
    ensures Read(Some(r), [f]) == ReadFrame(r, f)
  {
    assert [f][1..] == [];
  }

  lemma ReadTwo(r: Reply, f: ChatFrame, g: ChatFrame)
    ensures Read(Some(r), [f, g]) == if ReadFrame(r, f).None? then None else ReadFrame(ReadFrame(r, f).value, g)
  {
    assert [f, g] == [f] + [g];
    ReadAppend(Some(r), [f], [g]);
    ReadOne(r, f);
    if ReadFrame(r, f).Some? { ReadOne(ReadFrame(r, f).value, g); }
  }

  /**
   * The keys of the announced tool calls in order; a nameless call always gets
   * an entry of its own, a named one only the first time.
   */
  function Announce<K(==)>(slots: seq<K>, key: K, nameless: K): seq<K> {
    if key != nameless && key in slots then slots else slots + [key]
  }

  /** The number of the call just announced. */
  function PlaceOf<K(==)>(slots: seq<K>, key: K, nameless: K): nat {
    if key != nameless && key in slots then IndexOf(slots, key) else |slots|
  }

  /** The map remembers the place of every named call, and named calls have one place each. */
  ghost predicate Numbers<K(!new)>(places: map<K, nat>, slots: seq<K>, nameless: K) {
    && (forall key :: key in places <==> key != nameless && key in slots)
    && (forall key :: key in places ==> places[key] < |slots| && slots[places[key]] == key)
    && (forall j, k :: 0 <= j < k < |slots| && slots[j] != nameless ==> slots[j] != slots[k])
  }

  lemma NumbersPlace<K(!new)>(places: map<K, nat>, slots: seq<K>, nameless: K, key: K)
    requires Numbers(places, slots, nameless)
    ensures PlaceOf(slots, key, nameless) == if key in places then places[key] else |slots|
  {
    if key in places {
      assert slots[IndexOf(slots, key)] == slots[places[key]];
    }
  }

  lemma AnnounceNumbers<K(!new)>(places: map<K, nat>, slots: seq<K>, nameless: K, key: K)
    requires Numbers(places, slots, nameless)
    ensures
      var places' := if key == nameless then places else places[key := PlaceOf(slots, key, nameless)];
      Numbers(places', Announce(slots, key, nameless), nameless)
  {
    NumbersPlace(places, slots, nameless, key);
    var slots' := Announce(slots, key, nameless);
    if slots' != slots {
      assert slots'[|slots|] == key;
      forall k | k in places ensures k in slots' {
        assert slots'[places[k]] == k;
      }
    }
  }
}
