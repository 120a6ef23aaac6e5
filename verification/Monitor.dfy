/**
 * Live monitoring: the hub that fans request events out to subscribers
 * (internal/httpapi/monitor_hub.go), and the feed a browser rebuilds from them
 * (ui/src/lib/monitor.svelte.ts).
 */
module Monitor {
  import opened Basics

  /** A finished request as stored and sent. */
  datatype Record = Record(id: string, cancelled: bool, status: Option<int>, error: string)

  datatype Event = Started(id: string) | Routed(id: string) | Streaming(id: string) | Finished(record: Record)

  // ----- The hub -----

  const SUB_BUFFER := 256

  /** A buffered channel. Sending on a closed channel, or closing it again, panics. */
  datatype Channel = Channel(open: bool, queue: seq<Event>)

  /** Every channel ever made, the subscribed ones, and the active request ids. */
  datatype Hub = Hub(channels: seq<Channel>, subs: set<nat>, active: set<string>)

  const NEW_HUB := Hub([], {}, {})

  ghost predicate OpenIffSubscribed(h: Hub) {
    && (forall ch :: ch in h.subs ==> ch < |h.channels|)
    && (forall ch :: 0 <= ch < |h.channels| ==> (ch in h.subs <==> h.channels[ch].open))
  }

  predicate HasRoom(c: Channel) {
    |c.queue| < SUB_BUFFER
  }

  /** A subscriber with room gets the event; one without is closed. */
  function Offered(c: Channel, ev: Event): Channel {
    if HasRoom(c) then c.(queue := c.queue + [ev]) else c.(open := false)
  }

  function Published(h: Hub, ev: Event): Hub
    requires forall ch :: ch in h.subs ==> ch < |h.channels|
  {
    Hub(seq(|h.channels|, ch requires 0 <= ch < |h.channels| =>
          if ch in h.subs then Offered(h.channels[ch], ev) else h.channels[ch]),
        (set ch | ch in h.subs && HasRoom(h.channels[ch])), h.active)
  }

  function Subscribed(h: Hub): Hub {
    h.(channels := h.channels + [Channel(true, [])], subs := h.subs + {|h.channels|})
  }

  function Unsubscribed(h: Hub, ch: nat): Hub
    requires ch < |h.channels|
  {
    if ch in h.subs then h.(channels := h.channels[ch := h.channels[ch].(open := false)], subs := h.subs - {ch}) else h
  }

  class MonitorHub {
    var channels: seq<Channel>
    var subs: set<nat>
    var active: set<string>

    ghost function Model(): Hub
      reads this
    {
      Hub(channels, subs, active)
    }

    constructor ()
      ensures Model() == NEW_HUB
    {
      channels, subs, active := [], {}, {};
    }

    method Send(ch: nat, ev: Event)
      requires ch < |channels| && channels[ch].open && HasRoom(channels[ch])
      modifies this`channels
      ensures channels == old(channels)[ch := old(channels)[ch].(queue := old(channels)[ch].queue + [ev])]
    {
      channels := channels[ch := channels[ch].(queue := channels[ch].queue + [ev])];
    }

    method Close(ch: nat)
      requires ch < |channels| && channels[ch].open
      modifies this`channels
      ensures channels == old(channels)[ch := old(channels)[ch].(open := false)]
    {
      channels := channels[ch := channels[ch].(open := false)];
    }

    method Subscribe() returns (ch: nat, snapshot: set<string>)
      requires OpenIffSubscribed(Model())
      modifies this
      ensures Model() == Subscribed(old(Model())) && ch == |old(channels)| && snapshot == old(active)
      ensures OpenIffSubscribed(Model())
    {
      ch := |channels|;
      channels := channels + [Channel(true, [])];
      subs := subs + {ch};
      snapshot := active;
    }

    method Unsubscribe(ch: nat)
      requires OpenIffSubscribed(Model()) && ch < |channels|
      modifies this
      ensures Model() == Unsubscribed(old(Model()), ch) && OpenIffSubscribed(Model())
      ensures !channels[ch].open
    {
      if ch in subs {
        subs := subs - {ch};
        Close(ch);
      }
    }

    /** No send hits a closed channel and no channel is closed twice: Send and Close require it open. */
    method Publish(ev: Event)
      requires OpenIffSubscribed(Model())
      modifies this
      ensures Model() == Published(old(Model()), ev) && OpenIffSubscribed(Model())
    {
      ghost var before := Model();
      var todo := subs;
      while todo != {}
        invariant todo <= subs <= before.subs && active == before.active && |channels| == |before.channels|
        invariant forall ch :: ch in todo ==> ch < |channels| && channels[ch] == before.channels[ch]
        invariant
          forall ch :: 0 <= ch < |channels| && ch !in todo ==> channels[ch] == Published(before, ev).channels[ch]
        invariant forall ch :: ch in before.subs && ch !in todo ==> (ch in subs <==> HasRoom(before.channels[ch]))
        decreases todo
      {
        var ch :| ch in todo;
        if HasRoom(channels[ch]) {
          Send(ch, ev);
        } else {
          subs := subs - {ch};
          Close(ch);
        }
        todo := todo - {ch};
      }
      assert channels == Published(before, ev).channels;
    }

    /** The first half of publishStarted; the event is published after the lock is released. */
    method Register(id: string)
      modifies this`active
      ensures Model() == old(Model()).(active := old(active) + {id})
    {
      active := active + {id};
    }

    /** The first half of publishFinished. */
    method Remove(id: string)
      modifies this`active
      ensures Model() == old(Model()).(active := old(active) - {id})
    {
      active := active - {id};
    }
  }

  // ----- The feed -----

  datatype FeedState = Active | InStream | Completed | Failed | Cancelled

  datatype Entry = Entry(id: string, state: FeedState)

  predicate IsActive(e: Entry) {
    e.state.Active? || e.state.InStream?
  }

  function Outcome(r: Record): FeedState {
    if r.cancelled then Cancelled
    else if (r.status.Some? && r.status.value >= 400) || r.error != "" then Failed
    else Completed
  }

  function FromStarted(id: string): Entry {
    Entry(id, Active)
  }

  function FromRecord(r: Record): Entry {
    Entry(r.id, Outcome(r))
  }

  function Actives(ids: seq<string>): (r: seq<Entry>)
    ensures |r| == |ids| && forall k :: 0 <= k < |r| ==> r[k] == FromStarted(ids[k])
  {
    seq(|ids|, k requires 0 <= k < |ids| => FromStarted(ids[k]))
  }

  function Seeded(recent: seq<Record>): (r: seq<Entry>)
    ensures |r| == |recent| && forall k :: 0 <= k < |r| ==> r[k] == FromRecord(recent[k])
  {
    seq(|recent|, k requires 0 <= k < |recent| => FromRecord(recent[k]))
  }

  function HelloFeed(active: seq<string>, recent: seq<Record>): seq<Entry> {
    Actives(active) + Seeded(recent)
  }

  /** The first entry of the request, or the length. */
  function FindEntry(feed: seq<Entry>, id: string): (i: nat)
    ensures i <= |feed| && (i < |feed| ==> feed[i].id == id)
    ensures forall k :: 0 <= k < i ==> feed[k].id != id
  {
    if feed == [] || feed[0].id == id then 0 else 1 + FindEntry(feed[1..], id)
  }

  /** The first finished entry, or the length. */
  function FirstFinished(feed: seq<Entry>): (i: nat)
    ensures i <= |feed| && (i < |feed| ==> !IsActive(feed[i]))
    ensures forall k :: 0 <= k < i ==> IsActive(feed[k])
  {
    if feed == [] || !IsActive(feed[0]) then 0 else 1 + FirstFinished(feed[1..])
  }

  /** The entries that are active, or those that are not, in order. */
  function Only(feed: seq<Entry>, active: bool): seq<Entry> {
    if feed == [] then [] else (if IsActive(feed[0]) == active then [feed[0]] else []) + Only(feed[1..], active)
  }

  function Reduce(feed: seq<Entry>, ev: Event): seq<Entry> {
    match ev
    case Started(id) => if FindEntry(feed, id) < |feed| then feed else [FromStarted(id)] + feed
    case Routed(_) => feed
    case Streaming(id) =>
      var i := FindEntry(feed, id);
      if i < |feed| && feed[i].state.Active? then feed[i := feed[i].(state := InStream)] else feed
    case Finished(r) =>
      var i := FindEntry(feed, r.id);
      if i < |feed| then
        var others := feed[..i] + feed[i + 1..];
        Only(others, true) + [feed[i].(state := Outcome(r))] + Only(others, false)
      else
        var at := FirstFinished(feed);
        feed[..at] + [FromRecord(r)] + feed[at..]
  }

  class FeedStore {
    var feed: seq<Entry>

    constructor ()
      ensures feed == []
    {
      feed := [];
    }

    method OnHello(active: seq<string>, recent: seq<Record>)
      modifies this
      ensures feed == HelloFeed(active, recent)
    {
      feed := Actives(active) + Seeded(recent);
    }

    method OnStarted(id: string)
      modifies this
      ensures feed == Reduce(old(feed), Started(id))
    {
      if FindEntry(feed, id) < |feed| { return; }
      feed := [FromStarted(id)] + feed;
    }

    method OnStreaming(id: string)
      modifies this
      ensures feed == Reduce(old(feed), Streaming(id))
    {
      var i := FindEntry(feed, id);
      if i == |feed| { return; }
      if feed[i].state == Active { feed := feed[i := feed[i].(state := InStream)]; }
    }

    method OnFinished(r: Record)
      modifies this
      ensures feed == Reduce(old(feed), Finished(r))
    {
      var i := FindEntry(feed, r.id);
      if i < |feed| {
        var entry := feed[i].(state := Outcome(r));
        var others := feed[..i] + feed[i + 1..];
        feed := Only(others, true) + [entry] + Only(others, false);
      } else {
        var at := FirstFinished(feed);
        if at == |feed| {
          feed := feed + [FromRecord(r)];
        } else {
          feed := feed[..at] + [FromRecord(r)] + feed[at..];
        }
      }
    }
  }

  // ----- What the feed says about one request -----

  ghost predicate Shows(feed: seq<Entry>, id: string) {
    exists k :: 0 <= k < |feed| && feed[k].id == id
  }

  ghost predicate ShowsActive(feed: seq<Entry>, id: string) {
    exists k :: 0 <= k < |feed| && feed[k].id == id && IsActive(feed[k])
  }

  /** Active entries come first, one per request. */
  ghost predicate Ordered(feed: seq<Entry>) {
    forall j, k :: 0 <= j < k < |feed| && IsActive(feed[k]) ==> IsActive(feed[j]) && feed[j].id != feed[k].id
  }

  /** In an ordered feed, picking the active entries is cutting it in two. */
  lemma {:induction false} OnlyIsCut(feed: seq<Entry>)
    requires Ordered(feed)
    ensures Only(feed, true) == feed[..FirstFinished(feed)] && Only(feed, false) == feed[FirstFinished(feed)..]
  {
    if feed != [] {
      assert Ordered(feed[1..]) by {
        forall j, k | 0 <= j < k < |feed[1..]| && IsActive(feed[1..][k])
          ensures IsActive(feed[1..][j]) && feed[1..][j].id != feed[1..][k].id
        {
          assert feed[1..][j] == feed[j + 1] && feed[1..][k] == feed[k + 1];
        }
      }
      OnlyIsCut(feed[1..]);
      assert !IsActive(feed[0]) ==> FirstFinished(feed[1..]) == 0;
    }
  }

  lemma StartedReduces(feed: seq<Entry>, id: string, other: string)
    requires Ordered(feed)
    ensures
      var feed' := Reduce(feed, Started(id));
      && Ordered(feed')
      && (Shows(feed', other) <==> Shows(feed, other) || other == id)
      && (ShowsActive(feed', other) <==> ShowsActive(feed, other) || (other == id && !Shows(feed, id)))
  {
    Unfound(feed, id);
    if FindEntry(feed, id) == |feed| {
      StartedOrdered(feed, id);
      Shifted(feed, [FromStarted(id)] + feed, other);
    }
  }

  lemma Unfound(feed: seq<Entry>, id: string)
    ensures FindEntry(feed, id) == |feed| <==> !Shows(feed, id)
  {
  }

  lemma StartedOrdered(feed: seq<Entry>, id: string)
    requires Ordered(feed) && !Shows(feed, id)
    ensures Ordered([FromStarted(id)] + feed)
  {
    var feed' := [FromStarted(id)] + feed;
    assert forall k :: 0 < k < |feed'| ==> feed'[k] == feed[k - 1];
  }

  /** One more entry in front. */
  lemma Shifted(feed: seq<Entry>, feed': seq<Entry>, id: string)
    requires |feed'| == |feed| + 1 && forall k :: 0 <= k < |feed| ==> feed'[k + 1] == feed[k]
    ensures Shows(feed', id) <==> Shows(feed, id) || feed'[0].id == id
    ensures ShowsActive(feed', id) <==> ShowsActive(feed, id) || (feed'[0].id == id && IsActive(feed'[0]))
  {
    if Shows(feed, id) {
      var k :| 0 <= k < |feed| && feed[k].id == id;
      assert feed'[k + 1].id == id;
    }
    if ShowsActive(feed, id) {
      var k :| 0 <= k < |feed| && feed[k].id == id && IsActive(feed[k]);
      assert feed'[k + 1].id == id && IsActive(feed'[k + 1]);
    }
    if k :| 0 < k < |feed'| && feed'[k].id == id {
      assert feed[k - 1].id == id;
    }
    if k :| 0 < k < |feed'| && feed'[k].id == id && IsActive(feed'[k]) {
      assert feed[k - 1].id == id && IsActive(feed[k - 1]);
    }
  }

  lemma StreamingReduces(feed: seq<Entry>, id: string, other: string)
    requires Ordered(feed)
    ensures
      var feed' := Reduce(feed, Streaming(id));
      && Ordered(feed')
      && (Shows(feed', other) <==> Shows(feed, other)) && (ShowsActive(feed', other) <==> ShowsActive(feed, other))
  {
    var feed' := Reduce(feed, Streaming(id));
    assert |feed'| == |feed|;
    assert forall k :: 0 <= k < |feed| ==> feed'[k].id == feed[k].id && IsActive(feed'[k]) == IsActive(feed[k]);
  }

  /** The feed cut at `at` with one entry put in between. */
  lemma Inserted(feed: seq<Entry>, at: nat, e: Entry, id: string)
    requires at <= |feed|
    ensures
      var feed' := feed[..at] + [e] + feed[at..];
      && (Shows(feed', id) <==> Shows(feed, id) || e.id == id)
      && (ShowsActive(feed', id) <==> ShowsActive(feed, id) || (e.id == id && IsActive(e)))
  {
    assert feed == feed[..at] + feed[at..];
    ShowsBoth(feed[..at], feed[at..], id);
    ShowsBoth(feed[..at], [e], id);
    ShowsBoth(feed[..at] + [e], feed[at..], id);
    assert [e][0] == e;
  }

  lemma ShowsBoth(a: seq<Entry>, b: seq<Entry>, id: string)
    ensures Shows(a + b, id) <==> Shows(a, id) || Shows(b, id)
    ensures ShowsActive(a + b, id) <==> ShowsActive(a, id) || ShowsActive(b, id)
  {
    assert forall k :: 0 <= k < |a| ==> (a + b)[k] == a[k];
    assert forall k :: 0 <= k < |b| ==> (a + b)[|a| + k] == b[k];
  }

  lemma InsertedOrdered(feed: seq<Entry>, at: nat, e: Entry)
    requires Ordered(feed) && at == FirstFinished(feed) && !IsActive(e)
    ensures Ordered(feed[..at] + [e] + feed[at..])
  {
    var feed' := feed[..at] + [e] + feed[at..];
    assert forall k :: 0 <= k < at ==> feed'[k] == feed[k];
    assert forall k :: at < k < |feed'| ==> feed'[k] == feed[k - 1] && !IsActive(feed'[k]) by {
      forall k | at < k < |feed'| ensures feed'[k] == feed[k - 1] && !IsActive(feed'[k]) {
        assert !IsActive(feed[at]);
      }
    }
  }

  lemma Dropped(feed: seq<Entry>, i: nat, id: string)
    requires Ordered(feed) && i < |feed|
    ensures
      var rest := feed[..i] + feed[i + 1..];
      && Ordered(rest)
      && (id != feed[i].id ==>
            (Shows(rest, id) <==> Shows(feed, id)) && (ShowsActive(rest, id) <==> ShowsActive(feed, id)))
      && (id == feed[i].id && i == FindEntry(feed, id) ==> !ShowsActive(rest, id))
  {
    var rest := feed[..i] + feed[i + 1..];
    assert forall k :: 0 <= k < i ==> rest[k] == feed[k];
    assert forall k :: i <= k < |rest| ==> rest[k] == feed[k + 1];
    forall j, k | 0 <= j < k < |rest| && IsActive(rest[k]) ensures IsActive(rest[j]) && rest[j].id != rest[k].id {
      assert rest[j] == feed[if j < i then j else j + 1] && rest[k] == feed[if k < i then k else k + 1];
    }
    if id != feed[i].id {
      if Shows(feed, id) {
        var k :| 0 <= k < |feed| && feed[k].id == id;
        assert rest[if k < i then k else k - 1] == feed[k];
      }
      if ShowsActive(feed, id) {
        var k :| 0 <= k < |feed| && feed[k].id == id && IsActive(feed[k]);
        assert rest[if k < i then k else k - 1] == feed[k];
      }
    }
  }

  function Placed(feed: seq<Entry>, at: nat, e: Entry): seq<Entry>
    requires at <= |feed|
  {
    feed[..at] + [e] + feed[at..]
  }

  lemma PlacedReads(feed: seq<Entry>, e: Entry, id: string)
    requires Ordered(feed) && !IsActive(e)
    ensures
      var feed' := Placed(feed, FirstFinished(feed), e);
      && Ordered(feed')
      && (Shows(feed', id) <==> Shows(feed, id) || e.id == id)
      && (ShowsActive(feed', id) <==> ShowsActive(feed, id))
  {
    Inserted(feed, FirstFinished(feed), e, id);
    InsertedOrdered(feed, FirstFinished(feed), e);
  }

  lemma Absent(feed: seq<Entry>, id: string)
    requires FindEntry(feed, id) == |feed|
    ensures !Shows(feed, id) && !ShowsActive(feed, id)
  {
  }

  /** A finished request that the feed knows moves to the front of the finished ones. */
  lemma KnownFinished(feed: seq<Entry>, r: Record)
    requires Ordered(feed) && FindEntry(feed, r.id) < |feed|
    ensures
      var i := FindEntry(feed, r.id);
      var rest := feed[..i] + feed[i + 1..];
      Ordered(rest) && Reduce(feed, Finished(r)) == Placed(rest, FirstFinished(rest), feed[i].(state := Outcome(r)))
  {
    var i := FindEntry(feed, r.id);
    DroppedOrdered(feed, i);
    OnlyIsCut(feed[..i] + feed[i + 1..]);
  }

  lemma DroppedOrdered(feed: seq<Entry>, i: nat)
    requires Ordered(feed) && i < |feed|
    ensures Ordered(feed[..i] + feed[i + 1..])
  {
    Dropped(feed, i, feed[i].id);
  }

  lemma MovedReads(feed: seq<Entry>, i: nat, e: Entry, other: string)
    requires Ordered(feed) && i < |feed| && i == FindEntry(feed, e.id) && !IsActive(e)
    ensures
      var rest := feed[..i] + feed[i + 1..];
      var feed' := Placed(rest, FirstFinished(rest), e);
      && Ordered(rest) && Ordered(feed')
      && (Shows(feed', other) <==> Shows(feed, other) || other == e.id)
      && (ShowsActive(feed', other) <==> ShowsActive(feed, other) && other != e.id)
  {
    Dropped(feed, i, other);
    PlacedReads(feed[..i] + feed[i + 1..], e, other);
  }

  /** A finished request that the feed does not know is put there. */
  lemma UnknownFinished(feed: seq<Entry>, r: Record)
    requires FindEntry(feed, r.id) == |feed|
    ensures Reduce(feed, Finished(r)) == Placed(feed, FirstFinished(feed), FromRecord(r))
  {
  }

  /** How a feed and the one after it show `other`, when request `id` finished in between. */
  ghost predicate FinishShown(feed: seq<Entry>, feed': seq<Entry>, id: string, other: string) {
    && Ordered(feed')
    && (Shows(feed', other) <==> Shows(feed, other) || other == id)
    && (ShowsActive(feed', other) <==> ShowsActive(feed, other) && other != id)
  }

  lemma KnownShown(feed: seq<Entry>, r: Record, other: string)
    requires Ordered(feed) && FindEntry(feed, r.id) < |feed|
    ensures FinishShown(feed, Reduce(feed, Finished(r)), r.id, other)
  {
    var i := FindEntry(feed, r.id);
    KnownFinished(feed, r);
    MovedReads(feed, i, feed[i].(state := Outcome(r)), other);
  }

  lemma UnknownShown(feed: seq<Entry>, r: Record, other: string)
    requires Ordered(feed) && FindEntry(feed, r.id) == |feed|
    ensures FinishShown(feed, Reduce(feed, Finished(r)), r.id, other)
  {
    UnknownFinished(feed, r);
    PlacedReads(feed, FromRecord(r), other);
    Absent(feed, r.id);
  }

  lemma FinishedReduces(feed: seq<Entry>, r: Record, other: string)
    requires Ordered(feed)
    ensures FinishShown(feed, Reduce(feed, Finished(r)), r.id, other)
  {
    if FindEntry(feed, r.id) < |feed| { KnownShown(feed, r, other); } else { UnknownShown(feed, r, other); }
  }

  lemma HelloShows(active: seq<string>, recent: seq<Record>, id: string)
    requires Distinct(active)
    ensures
      var feed := HelloFeed(active, recent);
      && Ordered(feed)
      && (Shows(feed, id) <==> id in active || exists k :: 0 <= k < |recent| && recent[k].id == id)
      && (ShowsActive(feed, id) <==> id in active)
  {
    var feed := HelloFeed(active, recent);
    assert forall k :: 0 <= k < |active| ==> feed[k] == FromStarted(active[k]);
    assert forall k :: |active| <= k < |feed| ==> feed[k] == FromRecord(recent[k - |active|]);
    if id in active {
      var k :| 0 <= k < |active| && active[k] == id;
      assert feed[k].id == id && IsActive(feed[k]);
    }
    if k :| 0 <= k < |recent| && recent[k].id == id {
      assert feed[|active| + k].id == id;
    }
  }

  // ----- In numbers and states -----

  /** An event goes to every subscriber with fewer than 256 events waiting, and every other one is closed. */
  lemma PublishedTo(h: Hub, ev: Event, ch: nat)
    requires OpenIffSubscribed(h) && ch < |h.channels|
    ensures
      var h', c := Published(h, ev), h.channels[ch];
      && |h'.channels| == |h.channels| && h'.active == h.active
      && if ch !in h.subs then ch !in h'.subs && h'.channels[ch] == c
         else if |c.queue| < 256 then ch in h'.subs && h'.channels[ch] == Channel(true, c.queue + [ev])
         else ch !in h'.subs && h'.channels[ch] == Channel(false, c.queue)
  {
  }

  /** How a record ended. */
  predicate EndedAs(r: Record, state: FeedState) {
    && (r.cancelled ==> state == Cancelled)
    && (!r.cancelled && (r.error != "" || (r.status.Some? && r.status.value >= 400)) ==> state == Failed)
    && (!r.cancelled && r.error == "" && (r.status.None? || r.status.value < 400) ==> state == Completed)
  }

  /** A finished request has one entry more if it had none, and an entry that says how it ended. */
  lemma FinishedEntry(feed: seq<Entry>, r: Record) returns (k: nat)
    ensures
      var feed' := Reduce(feed, Finished(r));
      && k < |feed'| && feed'[k].id == r.id && EndedAs(r, feed'[k].state)
      && |feed'| == |feed| + if exists j :: 0 <= j < |feed| && feed[j].id == r.id then 0 else 1
  {
    var i := FindEntry(feed, r.id);
    if i < |feed| {
      var others := feed[..i] + feed[i + 1..];
      k := |Only(others, true)|;
      OnlySplit(others);
    } else {
      k := FirstFinished(feed);
    }
  }

  lemma {:induction false} OnlySplit(feed: seq<Entry>)
    ensures |Only(feed, true)| + |Only(feed, false)| == |feed|
  {
    if feed != [] { OnlySplit(feed[1..]); }
  }

  /** A started request that was not shown comes first, active; the first entry of a streaming one says so. */
  lemma StartedEntry(feed: seq<Entry>, id: string)
    ensures
      Reduce(feed, Started(id)) ==
        if exists j :: 0 <= j < |feed| && feed[j].id == id then feed else [Entry(id, Active)] + feed
    ensures
      forall i :: 0 <= i < |feed| && feed[i].id == id && (forall j :: 0 <= j < i ==> feed[j].id != id) ==>
        Reduce(feed, Streaming(id)) == if feed[i].state.Active? then feed[i := Entry(id, InStream)] else feed
  {
  }

  /** A greeted feed holds the active requests, then the recent records as they ended. */
  lemma HelloEntries(active: seq<string>, recent: seq<Record>)
    ensures
      var feed := HelloFeed(active, recent);
      && |feed| == |active| + |recent|
      && (forall k :: 0 <= k < |active| ==> feed[k] == Entry(active[k], Active))
      && forall k :: 0 <= k < |recent| ==> Records(recent[k], feed[|active| + k])
  {
    var a, b := Actives(active), Seeded(recent);
    assert forall k :: 0 <= k < |active| ==> (a + b)[k] == a[k];
    forall k | 0 <= k < |recent| ensures (a + b)[|active| + k] == b[k] && Records(recent[k], b[k]) {
      RecordEntry(recent[k]);
    }
  }

  predicate Records(r: Record, e: Entry) {
    e.id == r.id && EndedAs(r, e.state)
  }

  lemma RecordEntry(r: Record)
    ensures Records(r, FromRecord(r))
  {
  }
}
