/**
 * Fairness of what routing hands out: over whole runs of calls for keys and
 * for targets, each element of a list comes first its share of times.
 */
module RoutingProofs {
  import opened Basics
  import opened Routing

  // ----- Runs of lists -----

  datatype Element = OfKey(key: ProviderKey) | OfRoute(route: Route)

  /** One list handed out. */
  datatype Listing = Listing(key: ListKey, selection: Selection, items: seq<Element>, result: seq<Element>)

  ghost predicate Listed(c: Cursors, l: Listing, c': Cursors) {
    Lists(c, l.key, l.selection, l.items, l.result, c')
  }

  ghost predicate History(cs: seq<Cursors>, log: seq<Listing>) {
    |cs| == |log| + 1 && forall j :: 0 <= j < |log| ==> Listed(cs[j], log[j], cs[j + 1])
  }

  /** The elements that came first in the lists of one key. */
  function Firsts(log: seq<Listing>, key: ListKey): seq<Element> {
    if log == [] then []
    else
      var last := log[|log| - 1];
      Firsts(log[..|log| - 1], key) + if last.key == key && last.result != [] then [last.result[0]] else []
  }

  /** Every list of this key is drawn round robin from the same elements. */
  ghost predicate Fixed(log: seq<Listing>, key: ListKey, items: seq<Element>) {
    forall j :: 0 <= j < |log| && log[j].key == key ==> log[j].selection.RoundRobin? && log[j].items == items
  }

  /** The draw behind a list; a list that is not turned draws nothing. */
  function DrawFor(l: Listing): Call {
    Call(l.key, if l.selection.RoundRobin? then |l.items| else 1)
  }

  function Draws(log: seq<Listing>): (calls: seq<Call>)
    ensures |calls| == |log| && forall j :: 0 <= j < |calls| ==> calls[j] == DrawFor(log[j])
  {
    seq(|log|, j requires 0 <= j < |log| => DrawFor(log[j]))
  }

  lemma OneDraw(c: Cursors, l: Listing, c': Cursors)
    requires Listed(c, l, c')
    ensures c' == Drawn(c, l.key, DrawFor(l).n).cursors
    ensures
      l.selection.RoundRobin? && l.items != [] ==>
        l.result != [] && Drawn(c, l.key, |l.items|).head < |l.items|
        && l.result[0] == l.items[Drawn(c, l.key, |l.items|).head]
  {
    var n := |l.items|;
    if l.selection.RoundRobin? && n > 1 {
      MovedOn(CursorAt(c, l.key));
      Division(CursorAt(c, l.key), n);
      assert l.result[0] == l.items[(CursorAt(c, l.key) + 0) % n];
    }
  }

  /** The elements at some places. */
  function At(items: seq<Element>, heads: seq<nat>): (r: seq<Element>)
    requires forall i :: 0 <= i < |heads| ==> heads[i] < |items|
    ensures |r| == |heads| && forall i :: 0 <= i < |r| ==> r[i] == items[heads[i]]
  {
    seq(|heads|, i requires 0 <= i < |heads| => items[heads[i]])
  }

  ghost predicate Follows(cs: seq<Cursors>, log: seq<Listing>, key: ListKey, items: seq<Element>)
    requires |cs| == |log| + 1
  {
    var heads := Heads(cs[0], Draws(log), key);
    && cs[|log|] == After(cs[0], Draws(log))
    && (forall i :: 0 <= i < |heads| ==> heads[i] < |items|)
    && Firsts(log, key) == At(items, heads)
  }

  lemma {:induction false} HistoryFollows(cs: seq<Cursors>, log: seq<Listing>, key: ListKey, items: seq<Element>)
    requires History(cs, log) && Fixed(log, key, items) && items != []
    ensures Follows(cs, log, key, items)
  {
    if log == [] {
      assert Draws(log) == [];
    } else {
      var n := |log| - 1;
      var front, last := log[..n], log[n];
      var before := cs[..n + 1];
      assert History(before, front) && Fixed(front, key, items) by {
        forall j | 0 <= j < n ensures Listed(before[j], front[j], before[j + 1]) {
          assert Listed(cs[j], log[j], cs[j + 1]);
        }
      }
      HistoryFollows(before, front, key, items);
      OneDraw(cs[n], last, cs[n + 1]);
      assert log == front + [last];
      FollowsNext(cs, front, last, key, items);
    }
  }

  lemma FollowsNext(cs: seq<Cursors>, front: seq<Listing>, last: Listing, key: ListKey, items: seq<Element>)
    requires |cs| == |front| + 2 && Follows(cs[..|front| + 1], front, key, items) && items != []
    requires last.key == key ==> last.selection.RoundRobin? && last.items == items
    requires cs[|front| + 1] == Drawn(cs[|front|], last.key, DrawFor(last).n).cursors
    requires
      last.key == key ==>
        var d := Drawn(cs[|front|], key, |items|);
        last.result != [] && d.head < |items| && last.result[0] == items[d.head]
    ensures Follows(cs, front + [last], key, items)
  {
    assert Draws(front + [last]) == Draws(front) + [DrawFor(last)];
    AfterSnoc(cs[0], Draws(front), DrawFor(last), key);
    DrawnLast(cs[0], Draws(front), DrawFor(last));
    FirstsSnoc(front, last, key);
  }

  lemma DrawnLast(c: Cursors, front: seq<Call>, last: Call)
    ensures After(c, front + [last]) == Drawn(After(c, front), last.key, last.n).cursors
  {
    assert (front + [last])[..|front|] == front;
  }

  lemma FirstsSnoc(front: seq<Listing>, last: Listing, key: ListKey)
    ensures Firsts(front + [last], key) ==
      Firsts(front, key) + if last.key == key && last.result != [] then [last.result[0]] else []
  {
    assert (front + [last])[..|front|] == front;
  }

  lemma {:induction false} CountIsTally(items: seq<Element>, heads: seq<nat>, h: nat)
    requires Distinct(items) && h < |items| && forall i :: 0 <= i < |heads| ==> heads[i] < |items|
    ensures multiset(At(items, heads))[items[h]] == Tally(heads, h)
  {
    if heads == [] {
      assert At(items, heads) == [];
    } else {
      var front, last := heads[..|heads| - 1], heads[|heads| - 1];
      CountIsTally(items, front, h);
      assert At(items, heads) == At(items, front) + [items[last]];
      assert items[last] == items[h] <==> last == h;
    }
  }

  /** The cursor does not wrap, or wraps where a round of `n` ends. */
  predicate KeepsCount(c: Cursors, key: ListKey, m: nat, n: nat)
    requires n > 0
  {
    (if key in c then c[key] else 0) + m < 0x1_0000_0000_0000_0000 || 0x1_0000_0000_0000_0000 % n == 0
  }

  /** Of `m` lists, a share of one n-th, rounded down or up. */
  predicate FairShare(count: nat, m: nat, n: nat)
    requires n > 0
  {
    m / n <= count <= (m + n - 1) / n
  }

  lemma ListsAreFair(cs: seq<Cursors>, log: seq<Listing>, key: ListKey, items: seq<Element>, x: Element)
    requires History(cs, log) && InWidth(cs[0])
    requires Fixed(log, key, items) && Distinct(items) && x in items
    requires KeepsCount(cs[0], key, |Firsts(log, key)|, |items|)
    ensures FairShare(multiset(Firsts(log, key))[x], |Firsts(log, key)|, |items|)
  {
    var h := IndexOf(items, x);
    HistoryFollows(cs, log, key, items);
    var heads := Heads(cs[0], Draws(log), key);
    CountIsTally(items, heads, h);
    Division(WRAP, |items|);
    Fair(cs[0], Draws(log), key, |items|, h);
  }

  // ----- Runs of calls -----

  /** A call for the keys of a provider, or for the targets of a group, with its answer. */
  datatype Answer =
    | Keys(provider: Provider, keys: seq<ProviderKey>)
    | Targets(group: Group, providers: map<int, Provider>, targets: Option<seq<Target>>)

  ghost predicate Answers(c: Cursors, a: Answer, c': Cursors) {
    match a
    case Keys(p, keys) => KeysGiven(c, p, keys, c')
    case Targets(g, providers, targets) =>
      exists cs, found :: GroupGiven(cs, found, g, providers, targets, c') && cs[0] == c
  }

  ghost predicate Calls(cs: seq<Cursors>, answers: seq<Answer>) {
    |cs| == |answers| + 1 && forall j :: 0 <= j < |answers| ==> Answers(cs[j], answers[j], cs[j + 1])
  }

  /** The first key of each target whose provider has this list. */
  function TargetHeads(targets: seq<Target>, key: ListKey): multiset<Element> {
    if targets == [] then multiset{}
    else
      var t := targets[0];
      (if ListKey("provider", t.route.provider) == key && t.keys != [] then multiset{OfKey(t.keys[0])} else multiset{})
      + TargetHeads(targets[1..], key)
  }

  /** The first route, when the list is the group's. */
  function RouteHead(group: int, targets: seq<Target>, key: ListKey): multiset<Element> {
    if ListKey("group", group) == key && targets != [] then multiset{OfRoute(targets[0].route)} else multiset{}
  }

  /**
   * What comes first in the lists of this key that an answer holds: its keys,
   * its targets, the keys of each of its targets.
   */
  function HeadsIn(a: Answer, key: ListKey): multiset<Element> {
    match a
    case Keys(p, keys) =>
      if ListKey("provider", p.id) == key && keys != [] then multiset{OfKey(keys[0])} else multiset{}
    case Targets(g, _, targets) =>
      if targets.None? then multiset{} else TargetHeads(targets.value, key) + RouteHead(g.id, targets.value, key)
  }

  function AllHeads(answers: seq<Answer>, key: ListKey): multiset<Element> {
    if answers == [] then multiset{}
    else AllHeads(answers[..|answers| - 1], key) + HeadsIn(answers[|answers| - 1], key)
  }

  /** The routes of the usable members, in order. */
  function UsableRoutes(members: seq<Member>, providers: map<int, Provider>): seq<Route> {
    if members == [] then []
    else
      var m := members[|members| - 1];
      UsableRoutes(members[..|members| - 1], providers)
      + if m.enabled && m.route.Some? && m.route.value.provider in providers
          && EnabledKeys(providers[m.route.value.provider].keys) != []
        then [m.route.value] else []
  }

  /** If the list is this provider's, it is round robin over these elements. */
  ghost predicate SameKeys(p: Provider, key: ListKey, items: seq<Element>) {
    ListKey("provider", p.id) == key ==> p.selection.RoundRobin? && OfKeys(EnabledKeys(p.keys)) == items
  }

  /** Whatever the call asks for, the list of this key is drawn round robin from these elements. */
  ghost predicate SameList(a: Answer, key: ListKey, items: seq<Element>) {
    match a
    case Keys(p, _) => SameKeys(p, key, items)
    case Targets(g, providers, _) =>
      && (forall i :: i in providers ==> SameKeys(providers[i], key, items))
      && (ListKey("group", g.id) == key ==>
            g.selection.RoundRobin? && OfRoutes(UsableRoutes(g.members, providers)) == items)
  }

  /** Providers are found by their ids. */
  ghost predicate Keyed(a: Answer) {
    a.Targets? ==> forall i :: i in a.providers ==> a.providers[i].id == i
  }

  // ----- The lists behind a call -----

  lemma {:induction false} FirstsAppend(a: seq<Listing>, b: seq<Listing>, key: ListKey)
    ensures Firsts(a + b, key) == Firsts(a, key) + Firsts(b, key)
  {
    if b == [] {
      assert a + b == a;
    } else {
      var front, last := b[..|b| - 1], b[|b| - 1];
      assert a + b == a + front + [last] && b == front + [last];
      FirstsAppend(a, front, key);
      FirstsSnoc(a + front, last, key);
      FirstsSnoc(front, last, key);
    }
  }

  lemma HistoryAppend(cs: seq<Cursors>, a: seq<Listing>, ds: seq<Cursors>, b: seq<Listing>)
    requires History(cs, a) && History(ds, b) && cs[|a|] == ds[0]
    ensures History(cs + ds[1..], a + b)
  {
    var all := cs + ds[1..];
    forall j | 0 <= j < |a + b| ensures Listed(all[j], (a + b)[j], all[j + 1]) {
      if j < |a| {
        assert Listed(cs[j], a[j], cs[j + 1]);
      } else {
        assert Listed(ds[j - |a|], b[j - |a|], ds[j - |a| + 1]);
      }
    }
  }

  function OfKeys(keys: seq<ProviderKey>): (r: seq<Element>)
    ensures |r| == |keys| && forall i :: 0 <= i < |r| ==> r[i] == OfKey(keys[i])
  {
    seq(|keys|, i requires 0 <= i < |keys| => OfKey(keys[i]))
  }

  function OfRoutes(routes: seq<Route>): (r: seq<Element>)
    ensures |r| == |routes| && forall i :: 0 <= i < |r| ==> r[i] == OfRoute(routes[i])
  {
    seq(|routes|, i requires 0 <= i < |routes| => OfRoute(routes[i]))
  }

  function RoutesOf(targets: seq<Target>): (r: seq<Route>)
    ensures |r| == |targets| && forall i :: 0 <= i < |r| ==> r[i] == targets[i].route
  {
    seq(|targets|, i requires 0 <= i < |targets| => targets[i].route)
  }

  /** Lists that lead from one state of the cursors to another, with these elements first. */
  ghost predicate Logged(cs: seq<Cursors>, log: seq<Listing>, c: Cursors, c': Cursors, key: ListKey,
      heads: multiset<Element>) {
    History(cs, log) && cs[0] == c && cs[|log|] == c' && multiset(Firsts(log, key)) == heads
  }

  lemma LoggedNothing(c: Cursors, key: ListKey)
    ensures Logged([c], [], c, c, key, multiset{})
  {
    assert Firsts([], key) == [];
  }

  lemma LoggedOne(c: Cursors, l: Listing, c': Cursors, key: ListKey)
    requires Listed(c, l, c')
    ensures
      Logged([c, c'], [l], c, c', key, if l.key == key && l.result != [] then multiset{l.result[0]} else multiset{})
  {
    FirstsSnoc([], l, key);
    assert [] + [l] == [l] && Firsts([], key) == [];
  }

  lemma LoggedAppend(cs: seq<Cursors>, a: seq<Listing>, ds: seq<Cursors>, b: seq<Listing>, c0: Cursors, c1: Cursors,
      c2: Cursors, key: ListKey, m: multiset<Element>, n: multiset<Element>)
    requires Logged(cs, a, c0, c1, key, m) && Logged(ds, b, c1, c2, key, n)
    ensures Logged(cs + ds[1..], a + b, c0, c2, key, m + n)
  {
    HistoryAppend(cs, a, ds, b);
    FirstsAppend(a, b, key);
  }

  lemma FixedAppend(a: seq<Listing>, b: seq<Listing>, key: ListKey, items: seq<Element>)
    requires Fixed(a, key, items) && Fixed(b, key, items)
    ensures Fixed(a + b, key, items)
  {
  }

  /** The one list behind an answer with keys. */
  lemma KeysLogged(c: Cursors, p: Provider, keys: seq<ProviderKey>, c': Cursors, key: ListKey, items: seq<Element>)
    returns (log: seq<Listing>)
    requires KeysGiven(c, p, keys, c')
    ensures
      Logged([c, c'], log, c, c', key,
             if ListKey("provider", p.id) == key && keys != [] then multiset{OfKey(keys[0])} else multiset{})
    ensures SameKeys(p, key, items) ==> Fixed(log, key, items)
  {
    var l := Listing(ListKey("provider", p.id), p.selection, OfKeys(EnabledKeys(p.keys)), OfKeys(keys));
    assert Listed(c, l, c');
    LoggedOne(c, l, c', key);
    log := [l];
  }

  lemma MemberLogged(c: Cursors, providers: map<int, Provider>, m: Member, found: seq<Target>, c': Cursors,
      key: ListKey, items: seq<Element>)
    returns (cs: seq<Cursors>, log: seq<Listing>)
    requires MemberGiven(c, providers, m, found, c') && forall i :: i in providers ==> providers[i].id == i
    ensures Logged(cs, log, c, c', key, TargetHeads(found, key))
    ensures (forall i :: i in providers ==> SameKeys(providers[i], key, items)) ==> Fixed(log, key, items)
  {
    if found == [] {
      cs, log := [c], [];
      LoggedNothing(c, key);
    } else {
      log := KeysLogged(c, providers[m.route.value.provider], found[0].keys, c', key, items);
      cs := [c, c'];
      assert found[1..] == [];
    }
  }

  lemma {:induction false} MembersLogged(ds: seq<Cursors>, providers: map<int, Provider>, members: seq<Member>,
      found: seq<seq<Target>>, key: ListKey, items: seq<Element>)
    returns (cs: seq<Cursors>, log: seq<Listing>)
    requires MembersGiven(ds, providers, members, found) && forall i :: i in providers ==> providers[i].id == i
    ensures Logged(cs, log, ds[0], ds[|members|], key, TargetHeads(Concat(found), key))
    ensures (forall i :: i in providers ==> SameKeys(providers[i], key, items)) ==> Fixed(log, key, items)
  {
    if members == [] {
      cs, log := [ds[0]], [];
      LoggedNothing(ds[0], key);
    } else {
      var n := |members| - 1;
      MembersFront(ds, providers, members, found);
      cs, log := MembersLogged(ds[..n + 1], providers, members[..n], found[..n], key, items);
      var es, more := MemberLogged(ds[n], providers, members[n], found[n], ds[n + 1], key, items);
      ConcatLast(found);
      HeadsAppend(Concat(found[..n]), found[n], key);
      LoggedAppend(cs, log, es, more, ds[0], ds[n], ds[n + 1], key, TargetHeads(Concat(found[..n]), key),
                   TargetHeads(found[n], key));
      cs, log := cs + es[1..], log + more;
    }
  }

  lemma ConcatLast(parts: seq<seq<Target>>)
    requires parts != []
    ensures Concat(parts) == Concat(parts[..|parts| - 1]) + parts[|parts| - 1]
  {
    var last := parts[|parts| - 1];
    assert parts == parts[..|parts| - 1] + [last];
    ConcatAppend(parts[..|parts| - 1], [last]);
    assert Concat([last]) == last + [] == last;
  }

  lemma MembersFront(ds: seq<Cursors>, providers: map<int, Provider>, members: seq<Member>, found: seq<seq<Target>>)
    requires MembersGiven(ds, providers, members, found) && members != []
    ensures
      var n := |members| - 1;
      && MembersGiven(ds[..n + 1], providers, members[..n], found[..n])
      && MemberGiven(ds[n], providers, members[n], found[n], ds[n + 1])
  {
    var n := |members| - 1;
    var es := ds[..n + 1];
    forall i | 0 <= i < n ensures MemberGiven(es[i], providers, members[..n][i], found[..n][i], es[i + 1]) {
      assert MemberGiven(ds[i], providers, members[i], found[i], ds[i + 1]);
    }
  }

  lemma {:induction false} HeadsAppend(a: seq<Target>, b: seq<Target>, key: ListKey)
    ensures TargetHeads(a + b, key) == TargetHeads(a, key) + TargetHeads(b, key)
  {
    if a == [] {
      assert a + b == b;
    } else {
      assert (a + b)[1..] == a[1..] + b;
      HeadsAppend(a[1..], b, key);
    }
  }

  /** A list that was turned is a rotation. */
  lemma ListsRotate<T(!new)>(c: Cursors, key: ListKey, selection: Selection, items: seq<T>, result: seq<T>, c': Cursors)
    returns (k: nat)
    requires Lists(c, key, selection, items, result, c')
    ensures k <= |items| && result == items[k..] + items[..k]
  {
    k := 0;
    if selection.RoundRobin? && |items| > 1 {
      var cursor := CursorAt(c, key);
      k := cursor % |items|;
      forall i | 0 <= i < |items| ensures result[i] == Rotation(items, k)[i] {
        RotationAt(items, k, i);
        SameRemainder(cursor, i, |items|);
      }
    }
  }

  /** Turning the targets keeps the keys at the head of each. */
  lemma TurnedHeads(c: Cursors, list: ListKey, selection: Selection, items: seq<Target>, result: seq<Target>,
      c': Cursors, key: ListKey)
    requires Lists(c, list, selection, items, result, c')
    ensures TargetHeads(result, key) == TargetHeads(items, key)
  {
    var k := ListsRotate(c, list, selection, items, result, c');
    assert items[..k] + items[k..] == items;
    HeadsSwap(items[..k], items[k..], key);
  }

  lemma HeadsSwap(a: seq<Target>, b: seq<Target>, key: ListKey)
    ensures TargetHeads(b + a, key) == TargetHeads(a + b, key)
  {
    HeadsAppend(a, b, key);
    HeadsAppend(b, a, key);
  }

  lemma {:induction false} FoundRoutes(cs: seq<Cursors>, providers: map<int, Provider>, members: seq<Member>,
      found: seq<seq<Target>>)
    requires MembersGiven(cs, providers, members, found)
    ensures RoutesOf(Concat(found)) == UsableRoutes(members, providers)
  {
    if members != [] {
      var n := |members| - 1;
      MembersFront(cs, providers, members, found);
      FoundRoutes(cs[..n + 1], providers, members[..n], found[..n]);
      ConcatLast(found);
      FoundRoute(cs[n], providers, members[n], found[n], cs[n + 1]);
      assert RoutesOf(Concat(found)) == RoutesOf(Concat(found[..n])) + RoutesOf(found[n]);
    }
  }

  lemma FoundRoute(c: Cursors, providers: map<int, Provider>, m: Member, found: seq<Target>, c': Cursors)
    requires MemberGiven(c, providers, m, found, c')
    ensures
      RoutesOf(found) ==
        if m.enabled && m.route.Some? && m.route.value.provider in providers
          && EnabledKeys(providers[m.route.value.provider].keys) != []
        then [m.route.value] else []
  {
  }

  /** The list of targets behind an answer for a group. */
  lemma RoutesLogged(c: Cursors, g: Group, out: seq<Target>, targets: seq<Target>, c': Cursors, key: ListKey)
    returns (l: Listing)
    requires Lists(c, ListKey("group", g.id), g.selection, out, targets, c') && out != []
    ensures l == Listing(ListKey("group", g.id), g.selection, OfRoutes(RoutesOf(out)), OfRoutes(RoutesOf(targets)))
    ensures Logged([c, c'], [l], c, c', key, RouteHead(g.id, targets, key))
  {
    l := Listing(ListKey("group", g.id), g.selection, OfRoutes(RoutesOf(out)), OfRoutes(RoutesOf(targets)));
    assert Listed(c, l, c');
    LoggedOne(c, l, c', key);
  }

  lemma GroupLogged(ds: seq<Cursors>, found: seq<seq<Target>>, a: Answer, c': Cursors, key: ListKey,
      items: seq<Element>)
    returns (cs: seq<Cursors>, log: seq<Listing>)
    requires a.Targets? && Keyed(a) && GroupGiven(ds, found, a.group, a.providers, a.targets, c')
    ensures Logged(cs, log, ds[0], c', key, HeadsIn(a, key))
    ensures SameList(a, key, items) ==> Fixed(log, key, items)
  {
    var g, out := a.group, Concat(found);
    var c := ds[|g.members|];
    cs, log := MembersLogged(ds, a.providers, g.members, found, key, items);
    if out != [] {
      var targets := a.targets.value;
      var l := RoutesLogged(c, g, out, targets, c', key);
      TurnedHeads(c, ListKey("group", g.id), g.selection, out, targets, c', key);
      LoggedAppend(cs, log, [c, c'], [l], ds[0], c, c', key, TargetHeads(out, key), RouteHead(g.id, targets, key));
      FoundRoutes(ds, a.providers, g.members, found);
      cs, log := cs + [c, c'][1..], log + [l];
    }
  }

  /** The lists behind any answer show its heads, and are of the elements that stay the same. */
  lemma AnswerLogged(c: Cursors, a: Answer, c': Cursors, key: ListKey, items: seq<Element>)
    returns (cs: seq<Cursors>, log: seq<Listing>)
    requires Answers(c, a, c') && Keyed(a)
    ensures Logged(cs, log, c, c', key, HeadsIn(a, key))
    ensures SameList(a, key, items) ==> Fixed(log, key, items)
  {
    match a
    case Keys(p, given) =>
      log := KeysLogged(c, p, given, c', key, items);
      cs := [c, c'];
    case Targets(g, providers, targets) =>
      var ds, found :| GroupGiven(ds, found, g, providers, targets, c') && ds[0] == c;
      cs, log := GroupLogged(ds, found, a, c', key, items);
  }

  lemma {:induction false} CallsLogged(ds: seq<Cursors>, answers: seq<Answer>, key: ListKey, items: seq<Element>)
    returns (cs: seq<Cursors>, log: seq<Listing>)
    requires Calls(ds, answers)
    requires forall j :: 0 <= j < |answers| ==> Keyed(answers[j]) && SameList(answers[j], key, items)
    ensures Logged(cs, log, ds[0], ds[|answers|], key, AllHeads(answers, key)) && Fixed(log, key, items)
  {
    if answers == [] {
      cs, log := [ds[0]], [];
      LoggedNothing(ds[0], key);
    } else {
      var n := |answers| - 1;
      CallsFront(ds, answers);
      cs, log := CallsLogged(ds[..n + 1], answers[..n], key, items);
      var es, more := AnswerLogged(ds[n], answers[n], ds[n + 1], key, items);
      LoggedAppend(cs, log, es, more, ds[0], ds[n], ds[n + 1], key, AllHeads(answers[..n], key),
                   HeadsIn(answers[n], key));
      FixedAppend(log, more, key, items);
      cs, log := cs + es[1..], log + more;
    }
  }

  lemma CallsFront(ds: seq<Cursors>, answers: seq<Answer>)
    requires Calls(ds, answers) && answers != []
    ensures
      var n := |answers| - 1;
      Calls(ds[..n + 1], answers[..n]) && Answers(ds[n], answers[n], ds[n + 1])
  {
    var n := |answers| - 1;
    var es := ds[..n + 1];
    forall j | 0 <= j < n ensures Answers(es[j], answers[..n][j], es[j + 1]) {
      assert Answers(ds[j], answers[j], ds[j + 1]);
    }
  }

  // ----- Fairness -----

  /**
   * In any run of calls for the keys of providers and the targets of groups:
   * as long as a list, a round-robin provider's enabled keys or a round-robin
   * group's usable routes, keeps its n elements, each of them comes first in
   * m/n of the m such lists handed out, rounded down or up, whatever is asked
   * for in between, unless the list's cursor wraps at a width that n does not
   * divide.
   */
  lemma AnswersAreFair(cs: seq<Cursors>, answers: seq<Answer>, key: ListKey, items: seq<Element>, x: Element)
    requires Calls(cs, answers) && InWidth(cs[0])
    requires forall j :: 0 <= j < |answers| ==> Keyed(answers[j]) && SameList(answers[j], key, items)
    requires Distinct(items) && x in items
    requires KeepsCount(cs[0], key, |AllHeads(answers, key)|, |items|)
    ensures FairShare(AllHeads(answers, key)[x], |AllHeads(answers, key)|, |items|)
  {
    var ds, log := CallsLogged(cs, answers, key, items);
    assert |multiset(Firsts(log, key))| == |Firsts(log, key)|;
    ListsAreFair(ds, log, key, items, x);
  }
}
