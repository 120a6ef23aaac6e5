/**
 * Round-robin routing: the cursors (internal/service/service.go), the keys of
 * a provider (internal/service/provider_keys.go) and the targets of a group
 * (internal/service/groups.go).
 */
module Routing {
  import opened Basics
  import opened Text

  /** A cursor is a 64-bit counter; one that was never used stands at 0. */
  const WRAP: nat := 0x1_0000_0000_0000_0000

  /** The list a cursor belongs to. The program joins the two parts to one text, which stands for the pair. */
  datatype ListKey = ListKey(domain: string, id: int)

  type Cursors = map<ListKey, nat>

  function CursorKey(key: ListKey): string {
    key.domain + ":" + SignedDecimal(key.id)
  }

  function CursorAt(c: Cursors, key: ListKey): nat {
    if key in c then c[key] else 0
  }

  ghost predicate InWidth(c: Cursors) {
    forall key :: key in c ==> c[key] < WRAP
  }

  datatype Draw = Draw(head: nat, cursors: Cursors)

  /** One draw among n: with a single choice the cursor stays where it is. */
  function Drawn(c: Cursors, key: ListKey, n: nat): Draw {
    if n <= 1 then Draw(0, c)
    else Draw(Residue(CursorAt(c, key), n), c[key := Residue(CursorAt(c, key) + 1, WRAP)])
  }

  /** The list read from its `k`-th element on, around the end. */
  function Rotation<T>(items: seq<T>, k: nat): seq<T>
    requires k <= |items|
  {
    items[k..] + items[..k]
  }

  /** A rotation keeps every element as often as it was, and each keeps its successor around the circle. */
  lemma RotationIsCyclic<T>(items: seq<T>, k: nat)
    requires k < |items|
    ensures multiset(Rotation(items, k)) == multiset(items)
    ensures Rotation(items, k)[0] == items[k]
    ensures forall i :: 0 <= i < |items| ==> Rotation(items, k)[i] == items[(k + i) % |items|]
  {
    assert items == items[..k] + items[k..];
    forall i: nat | i < |items| ensures Rotation(items, k)[i] == items[(k + i) % |items|] {
      RotationAt(items, k, i);
    }
  }

  lemma RotationAt<T>(items: seq<T>, k: nat, i: nat)
    requires k < |items| && i < |items|
    ensures Rotation(items, k)[i] == items[(k + i) % |items|]
  {
    if k + i < |items| {
      Divides(k + i, 0, k + i, |items|);
    } else {
      Divides(k + i, 1, k + i - |items|, |items|);
    }
  }

  /** Quotient and remainder are the only such pair. */
  lemma Divides(x: int, q: int, r: int, n: int)
    requires 0 <= r < n && x == q * n + r
    ensures x / n == q && x % n == r
  {
    var p := x / n;
    Distributes(p, q, n);
    SmallMultiple(p - q, n);
  }

  lemma Distributes(a: int, b: int, n: int)
    ensures (a - b) * n == a * n - b * n
  {
  }

  lemma SmallMultiple(d: int, n: int)
    requires -n < d * n < n
    ensures d == 0
  {
    assert d >= 1 ==> d * n >= n;
    assert d <= -1 ==> d * n <= -n;
  }

  /** The remainder and the quotient, by subtraction. */
  function Residue(x: nat, n: nat): (r: nat)
    requires n > 0
    ensures r < n
  {
    if x < n then x else Residue(x - n, n)
  }

  function Quotient(x: nat, n: nat): nat
    requires n > 0
  {
    if x < n then 0 else 1 + Quotient(x - n, n)
  }

  lemma {:induction false} Division(x: nat, n: nat)
    requires n > 0
    ensures Quotient(x, n) == x / n && Residue(x, n) == x % n
  {
    if x < n {
      Divides(x, 0, x, n);
    } else {
      Division(x - n, n);
      var q := (x - n) / n;
      assert (q + 1) * n == q * n + n;
      Divides(x, q + 1, (x - n) % n, n);
    }
  }

  lemma {:induction false} ResidueNext(x: nat, n: nat)
    requires n > 0
    ensures Residue(x + 1, n) == if Residue(x, n) + 1 == n then 0 else Residue(x, n) + 1
    ensures Quotient(x + 1, n) == Quotient(x, n) + if Residue(x, n) + 1 == n then 1 else 0
  {
    if x >= n { ResidueNext(x - n, n); }
  }

  lemma {:induction false} ResidueAdd(x: nat, m: nat, n: nat)
    requires n > 0 && Residue(m, n) == 0
    ensures Residue(x + m, n) == Residue(x, n)
  {
    if m >= n { ResidueAdd(x, m - n, n); }
  }

  // ----- Which element heads the list -----

  datatype Call = Call(key: ListKey, n: nat)

  /** The cursors after a run of calls. */
  function After(c: Cursors, calls: seq<Call>): Cursors {
    if calls == [] then c
    else
      var last := calls[|calls| - 1];
      Drawn(After(c, calls[..|calls| - 1]), last.key, last.n).cursors
  }

  /** The heads drawn for one list, in order, in a run of calls for any lists. */
  function Heads(c: Cursors, calls: seq<Call>, key: ListKey): seq<nat> {
    if calls == [] then []
    else
      var front, last := calls[..|calls| - 1], calls[|calls| - 1];
      Heads(c, front, key) + if last.key == key then [Drawn(After(c, front), key, last.n).head] else []
  }

  lemma NoColon(id: int)
    ensures forall i :: 0 <= i < |SignedDecimal(id)| ==> SignedDecimal(id)[i] != ':'
  {
    var digits := Decimal(if id < 0 then -id else id);
    assert Digits(digits);
    forall i | 0 <= i < |SignedDecimal(id)| ensures SignedDecimal(id)[i] != ':' {
      if id >= 0 {
        assert IsDigit(digits[i]);
      } else if i > 0 {
        assert SignedDecimal(id)[i] == digits[i - 1] && IsDigit(digits[i - 1]);
      }
    }
  }

  lemma LastColon(key: ListKey)
    ensures
      var text, colon := CursorKey(key), |key.domain|;
      colon < |text| && text[colon] == ':' && forall i :: colon < i < |text| ==> text[i] != ':'
  {
    NoColon(key.id);
    var text := CursorKey(key);
    forall i | |key.domain| < i < |text| ensures text[i] != ':' {
      assert text[i] == SignedDecimal(key.id)[i - |key.domain| - 1];
    }
  }

  /** The joined text identifies the list: two lists never share a cursor. */
  lemma CursorKeyInjective(a: ListKey, b: ListKey)
    requires CursorKey(a) == CursorKey(b)
    ensures a == b
  {
    LastColon(a);
    LastColon(b);
    var text, colon := CursorKey(a), |a.domain|;
    assert colon == |b.domain|;
    assert text[..colon] == a.domain && text[..colon] == b.domain;
    assert text[colon + 1..] == SignedDecimal(a.id) && text[colon + 1..] == SignedDecimal(b.id);
    SignedDecimalInjective(a.id, b.id);
  }

  /** The cursor of a list of `n` moves on as if it never wrapped: it does not, or `n` divides the width. */
  predicate Steady(start: nat, draws: nat, n: nat)
    requires n > 0
  {
    start + draws < WRAP || Residue(WRAP, n) == 0
  }

  ghost predicate SizeFixed(calls: seq<Call>, key: ListKey, n: nat) {
    forall k :: 0 <= k < |calls| && calls[k].key == key ==> calls[k].n == n
  }

  /**
   * Counting in the width and then around the circle is counting around the
   * circle, as long as the cursor is steady.
   */
  lemma {:induction false} ResidueInWidth(x: nat, n: nat)
    requires n > 0 && (x < WRAP || Residue(WRAP, n) == 0)
    ensures Residue(Residue(x, WRAP), n) == Residue(x, n)
    decreases x
  {
    if x >= WRAP {
      ResidueInWidth(x - WRAP, n);
      ResidueAdd(x - WRAP, WRAP, n);
    }
  }

  /** The heads run around a circle of `n`, from place `start` on. */
  ghost predicate Cycle(heads: seq<nat>, start: nat, n: nat)
    requires n > 0
  {
    heads != [] ==>
      && Cycle(heads[..|heads| - 1], start, n)
      && heads[|heads| - 1] == Residue(Residue(start + |heads| - 1, WRAP), n)
  }

  lemma {:induction false} CycleAt(heads: seq<nat>, start: nat, n: nat, j: nat)
    requires n > 0 && Cycle(heads, start, n) && j < |heads|
    ensures heads[j] == Residue(Residue(start + j, WRAP), n)
  {
    if j < |heads| - 1 { CycleAt(heads[..|heads| - 1], start, n, j); }
  }

  lemma CycleSnoc(heads: seq<nat>, start: nat, n: nat, h: nat)
    requires n > 0 && Cycle(heads, start, n) && h == Residue(Residue(start + |heads|, WRAP), n)
    ensures Cycle(heads + [h], start, n)
  {
    assert (heads + [h])[..|heads|] == heads;
  }

  /** One more call for this list, or for another one. */
  lemma AfterSnoc(c: Cursors, front: seq<Call>, last: Call, key: ListKey)
    ensures last.key == key ==>
      After(c, front + [last]) == Drawn(After(c, front), key, last.n).cursors
      && Heads(c, front + [last], key) == Heads(c, front, key) + [Drawn(After(c, front), key, last.n).head]
    ensures last.key != key ==>
      CursorAt(After(c, front + [last]), key) == CursorAt(After(c, front), key)
      && Heads(c, front + [last], key) == Heads(c, front, key)
  {
    assert (front + [last])[..|front|] == front;
  }

  lemma StepInWidth(x: nat)
    ensures Residue(Residue(x, WRAP) + 1, WRAP) == Residue(x + 1, WRAP)
  {
    ResidueNext(x, WRAP);
  }

  /** The cursor of a list counts the calls for it, and no others. */
  lemma {:induction false} CursorCounts(c: Cursors, calls: seq<Call>, key: ListKey, n: nat)
    requires InWidth(c) && n > 1 && SizeFixed(calls, key, n)
    ensures
      CursorAt(After(c, calls), key) == Residue(CursorAt(c, key) + |Heads(c, calls, key)|, WRAP)
  {
    if calls != [] {
      var front, last := calls[..|calls| - 1], calls[|calls| - 1];
      assert calls == front + [last];
      var moves := |Heads(c, front, key)|;
      AfterSnoc(c, front, last, key);
      CursorCounts(c, front, key, n);
      if last.key == key {
        StepInWidth(CursorAt(c, key) + moves);
        DrawnAt(After(c, front), key, n);
      }
    }
  }

  lemma DrawnAt(c: Cursors, key: ListKey, n: nat)
    requires n > 1
    ensures CursorAt(Drawn(c, key, n).cursors, key) == Residue(CursorAt(c, key) + 1, WRAP)
  {
  }

  lemma HeadIs(c: Cursors, calls: seq<Call>, key: ListKey, n: nat)
    requires InWidth(c) && n > 0 && SizeFixed(calls, key, n)
    ensures Drawn(After(c, calls), key, n).head ==
      Residue(Residue(CursorAt(c, key) + |Heads(c, calls, key)|, WRAP), n)
  {
    if n > 1 { CursorCounts(c, calls, key, n); }
  }

  /**
   * The heads of one list run around the circle from where its cursor stands,
   * whatever is drawn for other lists in between.
   */
  lemma {:induction false} HeadsCycle(c: Cursors, calls: seq<Call>, key: ListKey, n: nat)
    requires InWidth(c) && n > 0 && SizeFixed(calls, key, n)
    ensures Cycle(Heads(c, calls, key), CursorAt(c, key), n)
  {
    if calls != [] {
      var front, last := calls[..|calls| - 1], calls[|calls| - 1];
      assert calls == front + [last];
      AfterSnoc(c, front, last, key);
      HeadsCycle(c, front, key, n);
      if last.key == key { NextHead(c, front, key, n); }
    }
  }

  lemma NextHead(c: Cursors, front: seq<Call>, key: ListKey, n: nat)
    requires InWidth(c) && n > 0 && SizeFixed(front, key, n) && Cycle(Heads(c, front, key), CursorAt(c, key), n)
    ensures Cycle(Heads(c, front, key) + [Drawn(After(c, front), key, n).head], CursorAt(c, key), n)
  {
    HeadIs(c, front, key, n);
    CycleSnoc(Heads(c, front, key), CursorAt(c, key), n, Drawn(After(c, front), key, n).head);
  }

  /** How often `h` heads the list. */
  function Tally(heads: seq<nat>, h: nat): nat {
    if heads == [] then 0 else Tally(heads[..|heads| - 1], h) + if heads[|heads| - 1] == h then 1 else 0
  }

  /** How many numbers below `k` leave the remainder `h`. */
  function Below(k: nat, n: nat, h: nat): nat
    requires h < n
  {
    Quotient(k, n) + if Residue(k, n) > h then 1 else 0
  }

  lemma {:induction false} TallyIsDifference(heads: seq<nat>, start: nat, n: nat, h: nat)
    requires h < n && Cycle(heads, start, n) && Steady(start, |heads|, n)
    ensures Tally(heads, h) == Below(start + |heads|, n, h) - Below(start, n, h)
  {
    if heads != [] {
      var k := start + |heads| - 1;
      TallyIsDifference(heads[..|heads| - 1], start, n, h);
      ResidueInWidth(k, n);
      ResidueNext(k, n);
    }
  }

  /** Any `m` numbers in a row leave a remainder floor(m/n) or ceil(m/n) times. */
  lemma {:induction false} DifferenceIsFair(start: nat, m: nat, n: nat, h: nat)
    requires h < n
    ensures Quotient(m, n) <= Below(start + m, n, h) - Below(start, n, h) <= Quotient(m + n - 1, n)
    decreases start + m
  {
    if m >= n {
      DifferenceIsFair(start, m - n, n, h);
    } else if start >= n {
      DifferenceIsFair(start - n, m, n, h);
    } else {
      assert m > 0 ==> Quotient(m + n - 1, n) == 1 + Quotient(m - 1, n) == 1;
      assert start + m >= n ==> Below(start + m, n, h) == 1 + Below(start + m - n, n, h);
    }
  }

  /**
   * Fairness: in any run of calls in which a list of fixed size `n` is drawn m
   * times, each of its elements heads it floor(m/n) or ceil(m/n) times,
   * regardless of the calls for other lists, unless its cursor wraps at a
   * width that `n` does not divide.
   */
  lemma Fair(c: Cursors, calls: seq<Call>, key: ListKey, n: nat, h: nat)
    requires InWidth(c) && h < n && SizeFixed(calls, key, n)
    requires Steady(CursorAt(c, key), |Heads(c, calls, key)|, n)
    ensures
      var m := |Heads(c, calls, key)|;
      m / n <= Tally(Heads(c, calls, key), h) <= (m + n - 1) / n
  {
    HeadsCycle(c, calls, key, n);
    var start, heads := CursorAt(c, key), Heads(c, calls, key);
    TallyIsDifference(heads, start, n, h);
    DifferenceIsFair(start, |heads|, n, h);
    Division(|heads|, n);
    Division(|heads| + n - 1, n);
  }

  // ----- Keys and targets -----

  datatype Selection = Ordered | RoundRobin

  datatype ProviderKey = ProviderKey(id: int, enabled: bool)

  datatype Provider = Provider(id: int, selection: Selection, keys: seq<ProviderKey>)

  datatype Route = Route(provider: int, model: int, name: string)

  /** A member's route is missing when its model or provider is disabled, or unknown. */
  datatype Member = Member(enabled: bool, route: Option<Route>)

  datatype Target = Target(route: Route, keys: seq<ProviderKey>)

  datatype Group = Group(id: int, selection: Selection, members: seq<Member>)

  function EnabledKeys(keys: seq<ProviderKey>): (r: seq<ProviderKey>)
    ensures forall k :: k in r <==> k in keys && k.enabled
  {
    if keys == [] then []
    else EnabledKeys(keys[..|keys| - 1]) + if keys[|keys| - 1].enabled then [keys[|keys| - 1]] else []
  }

  datatype Turned<T> = Turned(items: seq<T>, cursors: Cursors)

  /** A list in the order it is used this time. */
  function TurnedList<T>(c: Cursors, key: ListKey, selection: Selection, items: seq<T>): (r: Turned<T>)
    ensures |r.items| == |items| && multiset(r.items) == multiset(items)
  {
    if selection.RoundRobin? && |items| > 1 then
      var d := Drawn(c, key, |items|);
      RotationIsCyclic(items, d.head);
      Turned(Rotation(items, d.head), d.cursors)
    else Turned(items, c)
  }

  function KeysOf(c: Cursors, p: Provider): Turned<ProviderKey> {
    TurnedList(c, ListKey("provider", p.id), p.selection, EnabledKeys(p.keys))
  }

  /** The usable members in position order, each with its provider's keys as drawn at that moment. */
  function Candidates(c: Cursors, providers: map<int, Provider>, members: seq<Member>): Turned<Target> {
    if members == [] then Turned([], c)
    else
      var before, m := Candidates(c, providers, members[..|members| - 1]), members[|members| - 1];
      if !m.enabled || m.route.None? || m.route.value.provider !in providers then before
      else
        var keys := KeysOf(before.cursors, providers[m.route.value.provider]);
        Turned(before.items + if keys.items == [] then [] else [Target(m.route.value, keys.items)], keys.cursors)
  }

  // ----- What is handed out -----

  /**
   * A list was handed out: read from the cursor's place on, around the end,
   * and the cursor moved by one; without round robin, or with a single
   * element, as it is.
   */
  ghost predicate Lists<T(!new)>(c: Cursors, key: ListKey, selection: Selection, items: seq<T>, result: seq<T>,
      c': Cursors) {
    && |result| == |items|
    && if selection.RoundRobin? && |items| > 1 then
         var cursor := if key in c then c[key] else 0;
         && (forall i :: 0 <= i < |items| ==> result[i] == items[(cursor + i) % |items|])
         && c' == c[key := (cursor + 1) % 0x1_0000_0000_0000_0000]
       else result == items && c' == c
  }

  lemma TurnedLists<T(!new)>(c: Cursors, key: ListKey, selection: Selection, items: seq<T>)
    ensures
      var turned := TurnedList(c, key, selection, items);
      Lists(c, key, selection, items, turned.items, turned.cursors)
  {
    if selection.RoundRobin? && |items| > 1 {
      var cursor, turned := CursorAt(c, key), TurnedList(c, key, selection, items);
      forall i | 0 <= i < |items| ensures turned.items[i] == items[(cursor + i) % |items|] {
        TurnedAt(items, cursor, i);
      }
      MovedOn(cursor);
    }
  }

  lemma TurnedAt<T>(items: seq<T>, cursor: nat, i: nat)
    requires i < |items|
    ensures Rotation(items, Residue(cursor, |items|))[i] == items[(cursor + i) % |items|]
  {
    Division(cursor, |items|);
    RotationAt(items, cursor % |items|, i);
    SameRemainder(cursor, i, |items|);
  }

  lemma MovedOn(cursor: nat)
    ensures Residue(cursor + 1, WRAP) == (cursor + 1) % 0x1_0000_0000_0000_0000
  {
    Division(cursor + 1, WRAP);
  }

  lemma SameRemainder(x: nat, i: nat, n: nat)
    requires n > 0
    ensures (x % n + i) % n == (x + i) % n
  {
    var q, r := x / n, x % n + i;
    assert x + i == q * n + r;
    var p, s := r / n, r % n;
    assert x + i == (q + p) * n + s by { assert (q + p) * n == q * n + p * n; }
    Divides(x + i, q + p, s, n);
  }

  /** The keys given for a provider. */
  ghost predicate KeysGiven(c: Cursors, p: Provider, keys: seq<ProviderKey>, c': Cursors) {
    Lists(c, ListKey("provider", p.id), p.selection, EnabledKeys(p.keys), keys, c')
  }

  /** The target found for a member: none, unless it is usable and its provider has a key. */
  ghost predicate MemberGiven(c: Cursors, providers: map<int, Provider>, m: Member, found: seq<Target>, c': Cursors) {
    if !m.enabled || m.route.None? || m.route.value.provider !in providers
      || EnabledKeys(providers[m.route.value.provider].keys) == []
    then found == [] && c' == c
    else
      && |found| == 1 && found[0].route == m.route.value
      && KeysGiven(c, providers[m.route.value.provider], found[0].keys, c')
  }

  /** The members one after the other. */
  ghost predicate MembersGiven(cs: seq<Cursors>, providers: map<int, Provider>, members: seq<Member>,
      found: seq<seq<Target>>) {
    && |cs| == |members| + 1 && |found| == |members|
    && forall i :: 0 <= i < |members| ==> MemberGiven(cs[i], providers, members[i], found[i], cs[i + 1])
  }

  /** The targets given for a group: those found for its members, as one list; an error if there are none. */
  ghost predicate GroupGiven(cs: seq<Cursors>, found: seq<seq<Target>>, group: Group, providers: map<int, Provider>,
      targets: Option<seq<Target>>, c': Cursors) {
    && MembersGiven(cs, providers, group.members, found)
    && if Concat(found) == [] then targets.None? && c' == cs[|group.members|]
       else
         && targets.Some?
         && Lists(cs[|group.members|], ListKey("group", group.id), group.selection, Concat(found), targets.value, c')
  }

  lemma {:induction false} CandidatesGiven(c: Cursors, providers: map<int, Provider>, members: seq<Member>)
    returns (cs: seq<Cursors>, found: seq<seq<Target>>)
    ensures MembersGiven(cs, providers, members, found) && cs[0] == c
    ensures Candidates(c, providers, members) == Turned(Concat(found), cs[|members|])
  {
    if members == [] {
      cs, found := [c], [];
    } else {
      var front, m := members[..|members| - 1], members[|members| - 1];
      cs, found := CandidatesGiven(c, providers, front);
      var more, c1 := MemberFound(cs[|front|], providers, m);
      MembersSnoc(cs, providers, front, found, m, more, c1);
      ConcatMore(found, more);
      assert members == front + [m];
      cs, found := cs + [c1], found + [more];
    }
  }

  lemma ConcatMore(found: seq<seq<Target>>, more: seq<Target>)
    ensures Concat(found + [more]) == Concat(found) + more
  {
    ConcatAppend(found, [more]);
    assert Concat([more]) == more + [] == more;
  }

  lemma MemberFound(c: Cursors, providers: map<int, Provider>, m: Member) returns (found: seq<Target>, c': Cursors)
    ensures MemberGiven(c, providers, m, found, c')
    ensures
      if !m.enabled || m.route.None? || m.route.value.provider !in providers then found == [] && c' == c
      else
        var keys := KeysOf(c, providers[m.route.value.provider]);
        found == (if keys.items == [] then [] else [Target(m.route.value, keys.items)]) && c' == keys.cursors
  {
    found, c' := [], c;
    if m.enabled && m.route.Some? && m.route.value.provider in providers {
      var p := providers[m.route.value.provider];
      TurnedLists(c, ListKey("provider", p.id), p.selection, EnabledKeys(p.keys));
      var keys := KeysOf(c, p);
      found := if keys.items == [] then [] else [Target(m.route.value, keys.items)];
      c' := keys.cursors;
    }
  }

  lemma MembersSnoc(cs: seq<Cursors>, providers: map<int, Provider>, members: seq<Member>, found: seq<seq<Target>>,
      m: Member, more: seq<Target>, c: Cursors)
    requires MembersGiven(cs, providers, members, found) && MemberGiven(cs[|members|], providers, m, more, c)
    ensures MembersGiven(cs + [c], providers, members + [m], found + [more])
  {
  }

  /** What a failover run needs: some target, and some key for every target. */
  ghost predicate Usable(targets: seq<Target>) {
    targets != [] && forall t :: t in targets ==> t.keys != []
  }

  method Rotate<T>(items: seq<T>, cursor: nat) returns (rotated: seq<T>)
    requires cursor < |items|
    ensures rotated == Rotation(items, cursor)
  {
    rotated := [];
    for i := 0 to |items|
      invariant rotated == Rotation(items, cursor)[..i]
    {
      RotationAt(items, cursor, i);
      rotated := rotated + [items[(cursor + i) % |items|]];
    }
  }

  class RouterState {
    var rrCursors: Cursors

    constructor ()
      ensures rrCursors == map[]
    {
      rrCursors := map[];
    }

    method NextRoundRobinCursor(domain: string, id: int, n: nat) returns (head: nat)
      modifies this
      ensures Draw(head, rrCursors) == Drawn(old(rrCursors), ListKey(domain, id), n)
      ensures n > 0 ==> head < n
    {
      if n <= 1 { return 0; }
      var key := ListKey(domain, id);
      var curr := if key in rrCursors then rrCursors[key] else 0;
      Division(curr + 1, WRAP);
      Division(curr, n);
      rrCursors := rrCursors[key := (curr + 1) % WRAP];
      head := curr % n;
    }

    method Turn<T>(domain: string, id: int, selection: Selection, items: seq<T>) returns (turned: seq<T>)
      modifies this
      ensures Turned(turned, rrCursors) == TurnedList(old(rrCursors), ListKey(domain, id), selection, items)
    {
      if !(selection.RoundRobin? && |items| > 1) { return items; }
      var cursor := NextRoundRobinCursor(domain, id, |items|);
      turned := Rotate(items, cursor);
    }

    method EligibleKeys(p: Provider) returns (keys: seq<ProviderKey>)
      modifies this
      ensures Turned(keys, rrCursors) == KeysOf(old(rrCursors), p)
      ensures KeysGiven(old(rrCursors), p, keys, rrCursors)
      ensures multiset(keys) == multiset(EnabledKeys(p.keys))
    {
      var enabled: seq<ProviderKey> := [];
      for i := 0 to |p.keys|
        invariant enabled == EnabledKeys(p.keys[..i]) && rrCursors == old(rrCursors)
      {
        assert p.keys[..i + 1][..i] == p.keys[..i];
        if p.keys[i].enabled { enabled := enabled + [p.keys[i]]; }
      }
      assert p.keys[..|p.keys|] == p.keys;
      keys := Turn("provider", p.id, p.selection, enabled);
      TurnedLists(old(rrCursors), ListKey("provider", p.id), p.selection, enabled);
    }

    method TurnTargets(group: Group, out: seq<Target>) returns (turned: seq<Target>)
      modifies this
      ensures
        Turned(turned, rrCursors) == TurnedList(old(rrCursors), ListKey("group", group.id), group.selection, out)
      ensures Lists(old(rrCursors), ListKey("group", group.id), group.selection, out, turned, rrCursors)
      ensures forall t :: t in out <==> t in turned
    {
      turned := Turn("group", group.id, group.selection, out);
      TurnedLists(old(rrCursors), ListKey("group", group.id), group.selection, out);
      SameElements(out, turned);
    }

    /** No usable member is an error; drawing keys for members that then fail has moved cursors all the same. */
    method ResolveGroupTargets(group: Group, providers: map<int, Provider>)
      returns (targets: Option<seq<Target>>, ghost cs: seq<Cursors>, ghost found: seq<seq<Target>>)
      modifies this
      ensures GroupGiven(cs, found, group, providers, targets, rrCursors) && cs[0] == old(rrCursors)
      ensures targets.None? <==> Candidates(old(rrCursors), providers, group.members).items == []
      ensures targets.Some? ==> Usable(targets.value)
      ensures
        var candidates := Candidates(old(rrCursors), providers, group.members);
        var turned := TurnedList(candidates.cursors, ListKey("group", group.id), group.selection, candidates.items);
        if targets.None? then rrCursors == candidates.cursors else Turned(targets.value, rrCursors) == turned
    {
      var out: seq<Target> := [];
      for i := 0 to |group.members|
        invariant Turned(out, rrCursors) == Candidates(old(rrCursors), providers, group.members[..i])
        invariant forall t :: t in out ==> t.keys != []
      {
        var m := group.members[i];
        assert group.members[..i + 1][..i] == group.members[..i];
        if !m.enabled || m.route.None? || m.route.value.provider !in providers { continue; }
        var keys := EligibleKeys(providers[m.route.value.provider]);
        if keys == [] { continue; }
        out := out + [Target(m.route.value, keys)];
      }
      assert group.members[..|group.members|] == group.members;
      cs, found := CandidatesGiven(old(rrCursors), providers, group.members);
      if out == [] { return None, cs, found; }
      var turned := TurnTargets(group, out);
      targets := Some(turned);
    }
  }

  // ----- Which keys are enabled -----

  /** The enabled keys are those of the provider with the mark set, in their order, and none is left out. */
  lemma {:induction false} EnabledInOrder(keys: seq<ProviderKey>) returns (at: seq<nat>)
    ensures Picked(keys, at, EnabledKeys(keys), (k: ProviderKey) => k.enabled, (k: ProviderKey) => k)
  {
    if keys == [] {
      at := [];
    } else {
      var front, key := keys[..|keys| - 1], keys[|keys| - 1];
      at := EnabledInOrder(front);
      PickedSnoc(front, at, EnabledKeys(front), (k: ProviderKey) => k.enabled, (k: ProviderKey) => k, key);
      assert keys == front + [key];
      at := at + if key.enabled then [|front|] else [];
      assert EnabledKeys(front) + [] == EnabledKeys(front);
    }
  }

  lemma SameElements<T>(a: seq<T>, b: seq<T>)
    requires multiset(a) == multiset(b)
    ensures forall x :: x in a <==> x in b
  {
    forall x ensures x in a <==> x in b {
      assert x in multiset(a) <==> x in multiset(b);
    }
  }
}
