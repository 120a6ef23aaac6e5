/**
 * Request threads, the hub and its subscribers, interleaved in any order
 * (internal/httpapi/gateway_telemetry.go, monitor_hub.go, monitoring.go).
 * Every step below is one critical section or one I/O of the program.
 */
module MonitorSystem {
  import opened Basics
  import opened Monitor

  /**
   * Where a request thread is: registered as active, start published, finish
   * stored in the database (skipped when that write fails), removed from the
   * active requests, finish published.
   */
  datatype Phase = Idle | Registered | Running | Stored | Removed | Ended

  /** A subscriber: it holds a snapshot until it has read the recent records and sent its hello; then its feed grows. */
  datatype Client = Greeting(snapshot: seq<string>) | Following(feed: seq<Entry>)

  datatype System = System(hub: Hub, phases: map<string, Phase>, stored: set<string>, clients: map<nat, Client>)

  /** A server started over the records of requests that earlier ones stored. */
  function Initial(past: set<string>): System {
    System(NEW_HUB, map id | id in past :: Ended, past, map[])
  }

  datatype Step =
    | Register(id: string)
    | PublishStart(id: string)
    | PublishRouted(id: string)
    | PublishStreaming(id: string)
    | Store(id: string)
    | Remove(id: string)
    | PublishFinish(record: Record)
    | Subscribe(snapshot: seq<string>)
    | Hello(ch: nat, recent: seq<Record>)
    | Deliver(ch: nat)
    | Unsubscribe(ch: nat)

  function PhaseOf(s: System, id: string): Phase {
    if id in s.phases then s.phases[id] else Idle
  }

  function At(s: System, id: string, phase: Phase): System {
    s.(phases := s.phases[id := phase])
  }

  ghost predicate Lists(snapshot: seq<string>, ids: set<string>) {
    Distinct(snapshot) && forall id :: id in snapshot <==> id in ids
  }

  ghost predicate Enabled(s: System, a: Step) {
    match a
    case Register(id) => PhaseOf(s, id).Idle?
    case PublishStart(id) => PhaseOf(s, id).Registered?
    case PublishRouted(id) => PhaseOf(s, id).Running?
    case PublishStreaming(id) => PhaseOf(s, id).Running?
    case Store(id) => PhaseOf(s, id).Running?
    case Remove(id) => PhaseOf(s, id).Running? || PhaseOf(s, id).Stored?
    case PublishFinish(record) => PhaseOf(s, record.id).Removed?
    case Subscribe(snapshot) => Lists(snapshot, s.hub.active)
    case Hello(ch, recent) =>
      ch in s.clients && s.clients[ch].Greeting? && forall k :: 0 <= k < |recent| ==> recent[k].id in s.stored
    case Deliver(ch) =>
      ch in s.clients && s.clients[ch].Following? && ch < |s.hub.channels| && s.hub.channels[ch].queue != []
    case Unsubscribe(ch) => ch < |s.hub.channels|
  }

  ghost function Publish(s: System, ev: Event): System
    requires OpenIffSubscribed(s.hub)
  {
    s.(hub := Published(s.hub, ev))
  }

  ghost function Apply(s: System, a: Step): System
    requires OpenIffSubscribed(s.hub) && Enabled(s, a)
  {
    match a
    case Register(id) => At(s, id, Registered).(hub := s.hub.(active := s.hub.active + {id}))
    case PublishStart(id) => At(Publish(s, Started(id)), id, Running)
    case PublishRouted(id) => Publish(s, Routed(id))
    case PublishStreaming(id) => Publish(s, Streaming(id))
    case Store(id) => At(s, id, Stored).(stored := s.stored + {id})
    case Remove(id) => At(s, id, Removed).(hub := s.hub.(active := s.hub.active - {id}))
    case PublishFinish(record) => At(Publish(s, Finished(record)), record.id, Ended)
    case Subscribe(snapshot) =>
      s.(hub := Subscribed(s.hub), clients := s.clients[|s.hub.channels| := Greeting(snapshot)])
    case Hello(ch, recent) => s.(clients := s.clients[ch := Following(HelloFeed(s.clients[ch].snapshot, recent))])
    case Deliver(ch) =>
      var c := s.hub.channels[ch];
      s.(hub := s.hub.(channels := s.hub.channels[ch := c.(queue := c.queue[1..])]),
         clients := s.clients[ch := Following(Reduce(s.clients[ch].feed, c.queue[0]))])
    case Unsubscribe(ch) => s.(hub := Unsubscribed(s.hub, ch))
  }

  // ----- What a client will show about one request once its queue is drained -----

  datatype View = View(known: bool, active: bool)

  function ViewStep(v: View, ev: Event, id: string): View {
    match ev
    case Started(x) => if x != id || v.known then v else View(true, true)
    case Finished(r) => if r.id != id then v else View(true, false)
    case _ => v
  }

  function ViewAfter(v: View, queue: seq<Event>, id: string): View {
    if queue == [] then v else ViewStep(ViewAfter(v, queue[..|queue| - 1], id), queue[|queue| - 1], id)
  }

  lemma ViewSnoc(v: View, queue: seq<Event>, ev: Event, id: string)
    ensures ViewAfter(v, queue + [ev], id) == ViewStep(ViewAfter(v, queue, id), ev, id)
  {
    assert (queue + [ev])[..|queue|] == queue;
  }

  lemma {:induction false} ViewFront(v: View, queue: seq<Event>, id: string)
    requires queue != []
    ensures ViewAfter(v, queue, id) == ViewAfter(ViewStep(v, queue[0], id), queue[1..], id)
  {
    if |queue| > 1 {
      var front := queue[..|queue| - 1];
      ViewFront(v, front, id);
      assert front[1..] == queue[1..][..|queue[1..]| - 1];
    }
  }

  ghost function FeedView(feed: seq<Entry>, id: string): View {
    View(Shows(feed, id), ShowsActive(feed, id))
  }

  lemma ReduceView(feed: seq<Entry>, ev: Event, id: string)
    requires Ordered(feed)
    ensures Ordered(Reduce(feed, ev)) && FeedView(Reduce(feed, ev), id) == ViewStep(FeedView(feed, id), ev, id)
  {
    match ev
    case Started(x) => StartedReduces(feed, x, id);
    case Routed(_) =>
    case Streaming(x) => StreamingReduces(feed, x, id);
    case Finished(r) => FinishedReduces(feed, r, id);
  }

  /** What the program owes a request in each phase. */
  predicate Fits(phase: Phase, v: View) {
    match phase
    case Idle => !v.known && !v.active
    case Registered => v.known ==> v.active
    case Running => v.active
    case Stored => true
    case Removed => true
    case Ended => !v.active
  }

  /** Before its hello a client may still find the request among the recent records, if it is stored by then. */
  ghost predicate ClientFits(phase: Phase, stored: bool, c: Client, queue: seq<Event>, id: string) {
    match c
    case Greeting(snapshot) =>
      var active := id in snapshot;
      Fits(phase, ViewAfter(View(active, active), queue, id)) &&
        (stored ==> Fits(phase, ViewAfter(View(true, active), queue, id)))
    case Following(feed) => Fits(phase, ViewAfter(FeedView(feed, id), queue, id))
  }

  ghost predicate WellShaped(c: Client) {
    match c
    case Greeting(snapshot) => Distinct(snapshot)
    case Following(feed) => Ordered(feed)
  }

  ghost predicate ChannelFits(s: System, ch: nat, id: string)
    requires ch in s.clients && ch < |s.hub.channels|
  {
    ClientFits(PhaseOf(s, id), id in s.stored, s.clients[ch], s.hub.channels[ch].queue, id)
  }

  ghost predicate Shape(s: System) {
    && OpenIffSubscribed(s.hub)
    && (forall ch :: ch in s.clients <==> 0 <= ch < |s.hub.channels|)
    && (forall ch :: ch in s.clients ==> WellShaped(s.clients[ch]))
  }

  ghost predicate Invariant(s: System) {
    && Shape(s)
    && (forall id :: id in s.hub.active <==> PhaseOf(s, id) in {Registered, Running, Stored})
    && (forall id :: id in s.stored ==> PhaseOf(s, id) in {Stored, Removed, Ended})
    && (forall ch, id :: ch in s.hub.subs ==> ChannelFits(s, ch, id))
  }

  // ----- Every step keeps the invariant -----

  /** Publishing appends the event to every queue still subscribed. */
  lemma PublishShape(s: System, ev: Event)
    requires Shape(s)
    ensures Shape(Publish(s, ev)) && Publish(s, ev).hub.subs <= s.hub.subs
    ensures
      forall ch :: ch in Publish(s, ev).hub.subs ==>
        Publish(s, ev).hub.channels[ch].queue == s.hub.channels[ch].queue + [ev]
  {
    var h' := Published(s.hub, ev);
    forall ch | 0 <= ch < |h'.channels| ensures ch in h'.subs <==> h'.channels[ch].open {}
  }

  /** How one request fares when an event is published while its phase becomes `phase`. */
  lemma PublishFits(s: System, ev: Event, id: string, phase: Phase, ch: nat)
    requires Invariant(s) && ch in Publish(s, ev).hub.subs
    requires ch in s.hub.subs && Publish(s, ev).hub.channels[ch].queue == s.hub.channels[ch].queue + [ev]
    requires
      var before := PhaseOf(s, id);
      match ev
      case Started(x) => if x == id then before.Registered? && phase.Running? else phase == before
      case Finished(r) => if r.id == id then phase.Ended? else phase == before
      case _ => phase == before
    ensures ClientFits(phase, id in s.stored, s.clients[ch], Publish(s, ev).hub.channels[ch].queue, id)
  {
    var queue := s.hub.channels[ch].queue;
    assert ChannelFits(s, ch, id);
    match s.clients[ch]
    case Greeting(snapshot) =>
      var active := id in snapshot;
      ViewSnoc(View(active, active), queue, ev, id);
      ViewSnoc(View(true, active), queue, ev, id);
    case Following(feed) =>
      ViewSnoc(FeedView(feed, id), queue, ev, id);
  }

  lemma PublishKeeps(s: System, ev: Event, id: string, phase: Phase)
    requires Invariant(s)
    requires
      match ev
      case Started(x) => x == id && PhaseOf(s, id).Registered? && phase.Running?
      case Finished(r) => r.id == id && PhaseOf(s, id).Removed? && phase.Ended?
      case _ => phase == PhaseOf(s, id)
    ensures Invariant(At(Publish(s, ev), id, phase))
  {
    var s' := At(Publish(s, ev), id, phase);
    PublishShape(s, ev);
    forall other ensures PhaseOf(s', other) == if other == id then phase else PhaseOf(s, other) {}
    forall ch, other | ch in s'.hub.subs ensures ChannelFits(s', ch, other) {
      PublishFits(s, ev, other, PhaseOf(s', other), ch);
    }
  }

  lemma RequestKeeps(s: System, a: Step)
    requires Invariant(s) && Enabled(s, a) && (a.Register? || a.Store? || a.Remove?)
    ensures Invariant(Apply(s, a))
  {
    var s' := Apply(s, a);
    forall other ensures PhaseOf(s', other) == if other == a.id then PhaseOf(s', a.id) else PhaseOf(s, other) {}
    forall ch, other | ch in s'.hub.subs ensures ChannelFits(s', ch, other) {
      assert ChannelFits(s, ch, other);
    }
  }

  lemma SubscribeKeeps(s: System, snapshot: seq<string>)
    requires Invariant(s) && Enabled(s, Subscribe(snapshot))
    ensures Invariant(Apply(s, Subscribe(snapshot)))
  {
    var s' := Apply(s, Subscribe(snapshot));
    forall ch, id | ch in s'.hub.subs ensures ChannelFits(s', ch, id) {
      if ch < |s.hub.channels| {
        assert ChannelFits(s, ch, id);
      } else {
        assert s'.hub.channels[ch].queue == [];
      }
    }
  }

  lemma HelloKeeps(s: System, ch: nat, recent: seq<Record>)
    requires Invariant(s) && Enabled(s, Hello(ch, recent))
    ensures Invariant(Apply(s, Hello(ch, recent)))
  {
    var s' := Apply(s, Hello(ch, recent));
    var snapshot := s.clients[ch].snapshot;
    HelloShows(snapshot, recent, "");
    forall c, id | c in s'.hub.subs ensures ChannelFits(s', c, id) {
      assert ChannelFits(s, c, id);
      if c == ch {
        HelloShows(snapshot, recent, id);
        var feed := HelloFeed(snapshot, recent);
        var active := id in snapshot;
        assert FeedView(feed, id) == View(active || exists k :: 0 <= k < |recent| && recent[k].id == id, active);
      }
    }
  }

  lemma DeliverKeeps(s: System, ch: nat)
    requires Invariant(s) && Enabled(s, Deliver(ch))
    ensures Invariant(Apply(s, Deliver(ch)))
  {
    var s' := Apply(s, Deliver(ch));
    var queue, feed := s.hub.channels[ch].queue, s.clients[ch].feed;
    ReduceView(feed, queue[0], "");
    forall c, id | c in s'.hub.subs ensures ChannelFits(s', c, id) {
      assert ChannelFits(s, c, id);
      if c == ch {
        ReduceView(feed, queue[0], id);
        ViewFront(FeedView(feed, id), queue, id);
      }
    }
  }

  lemma UnsubscribeKeeps(s: System, ch: nat)
    requires Invariant(s) && Enabled(s, Unsubscribe(ch))
    ensures Invariant(Apply(s, Unsubscribe(ch)))
  {
    var s' := Apply(s, Unsubscribe(ch));
    forall c, id | c in s'.hub.subs ensures ChannelFits(s', c, id) {
      assert ChannelFits(s, c, id);
    }
  }

  lemma StepKeeps(s: System, a: Step)
    requires Invariant(s) && Enabled(s, a)
    ensures Invariant(Apply(s, a))
  {
    match a
    case PublishStart(id) => PublishKeeps(s, Started(id), id, Running);
    case PublishRouted(id) =>
      PublishKeeps(s, Routed(id), id, Running);
      assert At(Publish(s, Routed(id)), id, Running).phases == s.phases;
    case PublishStreaming(id) =>
      PublishKeeps(s, Streaming(id), id, Running);
      assert At(Publish(s, Streaming(id)), id, Running).phases == s.phases;
    case PublishFinish(record) => PublishKeeps(s, Finished(record), record.id, Ended);
    case Subscribe(snapshot) => SubscribeKeeps(s, snapshot);
    case Hello(ch, recent) => HelloKeeps(s, ch, recent);
    case Deliver(ch) => DeliverKeeps(s, ch);
    case Unsubscribe(ch) => UnsubscribeKeeps(s, ch);
    case _ => RequestKeeps(s, a);
  }

  // ----- Every run -----

  /** `trace` is a run: it starts over some stored records and each state follows by an enabled step. */
  ghost predicate IsRun(trace: seq<System>, steps: seq<Step>) {
    && |trace| == |steps| + 1 && trace[0] == Initial(trace[0].stored)
    && forall k :: 0 <= k < |steps| ==>
         OpenIffSubscribed(trace[k].hub) && Enabled(trace[k], steps[k]) && trace[k + 1] == Apply(trace[k], steps[k])
  }

  lemma {:induction false} RunKeeps(trace: seq<System>, steps: seq<Step>, n: nat)
    requires IsRun(trace, steps) && n < |trace|
    ensures Invariant(trace[n])
  {
    if n > 0 {
      RunKeeps(trace, steps, n - 1);
      StepKeeps(trace[n - 1], steps[n - 1]);
    }
  }

  /** A greeted client, still subscribed, that has read all its events. */
  predicate Drained(s: System, ch: nat) {
    && ch in s.hub.subs && ch < |s.hub.channels| && s.hub.channels[ch].queue == []
    && ch in s.clients && s.clients[ch].Following?
  }

  /** The request is not between registration and its start event, nor between its finish and its finish event. */
  predicate Settled(phase: Phase) {
    phase.Idle? || phase.Running? || phase.Ended?
  }

  /**
   * Agreement, in every interleaving and over any stored records: a channel is subscribed exactly while it
   * is open; and once the queue of a subscribed client is drained, the client
   * shows a settled request as active exactly when the hub does, in spite of a
   * snapshot that races with the events.
   */
  lemma Agreement(trace: seq<System>, steps: seq<Step>, n: nat)
    requires IsRun(trace, steps) && n < |trace|
    ensures
      var s := trace[n];
      && OpenIffSubscribed(s.hub)
      && forall ch, id :: Drained(s, ch) && Settled(PhaseOf(s, id)) ==>
           (ShowsActive(s.clients[ch].feed, id) <==> id in s.hub.active)
  {
    RunKeeps(trace, steps, n);
    var s := trace[n];
    forall ch, id | Drained(s, ch) && Settled(PhaseOf(s, id))
      ensures ShowsActive(s.clients[ch].feed, id) <==> id in s.hub.active
    {
      assert ChannelFits(s, ch, id);
    }
  }

  /** One subscriber that has not greeted yet, and one request whose start is in its queue. */
  ghost function Began(id: string): System {
    System(Hub([Channel(true, [Started(id)])], {0}, {id}), map[id := Running], {}, map[0 := Greeting([])])
  }

  lemma BeganIsReached(id: string) returns (trace: seq<System>, steps: seq<Step>)
    ensures IsRun(trace, steps) && trace[|trace| - 1] == Began(id)
  {
    trace, steps := [Initial({})], [];
    assert Apply(Initial({}), Subscribe([])) == SubscribedOnly();
    RunSnoc(trace, steps, Subscribe([]), SubscribedOnly());
    trace, steps := trace + [SubscribedOnly()], steps + [Subscribe([])];
    assert Apply(SubscribedOnly(), Register(id)) == SubscribedThen(id);
    RunSnoc(trace, steps, Register(id), SubscribedThen(id));
    trace, steps := trace + [SubscribedThen(id)], steps + [Register(id)];
    StartIsQueued(id);
    RunSnoc(trace, steps, PublishStart(id), Began(id));
    trace, steps := trace + [Began(id)], steps + [PublishStart(id)];
  }

  lemma StartIsQueued(id: string)
    ensures OpenIffSubscribed(SubscribedThen(id).hub) && Apply(SubscribedThen(id), PublishStart(id)) == Began(id)
  {
    var s2 := SubscribedThen(id);
    assert s2.hub.channels[0].queue + [Started(id)] == [Started(id)];
    assert Offered(s2.hub.channels[0], Started(id)) == Channel(true, [Started(id)]);
    assert Published(s2.hub, Started(id)) == Began(id).hub by {
      assert Published(s2.hub, Started(id)).channels == [Channel(true, [Started(id)])];
      assert Published(s2.hub, Started(id)).subs == {0};
    }
    assert Apply(s2, PublishStart(id)) == Began(id);
  }

  ghost function SubscribedOnly(): System {
    System(Hub([Channel(true, [])], {0}, {}), map[], {}, map[0 := Greeting([])])
  }

  ghost function SubscribedThen(id: string): System {
    System(Hub([Channel(true, [])], {0}, {id}), map[id := Registered], {}, map[0 := Greeting([])])
  }

  /** The feed of a client greeted with the stored record, after the start event that was waiting for it. */
  lemma StartedAfterHello(r: Record)
    ensures Ordered(HelloFeed([], [r]))
    ensures !ShowsActive(Reduce(HelloFeed([], [r]), Started(r.id)), r.id)
  {
    HelloShows([], [r], r.id);
    assert [r][0].id == r.id;
    ReduceView(HelloFeed([], [r]), Started(r.id), r.id);
  }

  /**
   * The settled condition is needed: a request that finishes in the database
   * between a subscription and its hello reaches the client as finished while
   * the hub still lists it as active.
   */
  lemma StoredMayDisagree(r: Record) returns (trace: seq<System>, steps: seq<Step>)
    ensures IsRun(trace, steps)
    ensures
      var s := trace[|trace| - 1];
      && Drained(s, 0)
      && PhaseOf(s, r.id).Stored? && r.id in s.hub.active && !ShowsActive(s.clients[0].feed, r.id)
  {
    trace, steps := BeganIsReached(r.id);
    StartedAfterHello(r);
    var s4 := Apply(Began(r.id), Store(r.id));
    var s5 := Apply(s4, Hello(0, [r]));
    var s6 := Apply(s5, Deliver(0));
    RunSnoc(trace, steps, Store(r.id), s4);
    trace, steps := trace + [s4], steps + [Store(r.id)];
    RunSnoc(trace, steps, Hello(0, [r]), s5);
    trace, steps := trace + [s5], steps + [Hello(0, [r])];
    RunSnoc(trace, steps, Deliver(0), s6);
    trace, steps := trace + [s6], steps + [Deliver(0)];
  }

  lemma RunSnoc(trace: seq<System>, steps: seq<Step>, a: Step, s: System)
    requires IsRun(trace, steps) && OpenIffSubscribed(trace[|trace| - 1].hub) && Enabled(trace[|trace| - 1], a)
    requires s == Apply(trace[|trace| - 1], a)
    ensures IsRun(trace + [s], steps + [a])
  {
  }
}
