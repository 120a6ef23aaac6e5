/**
 * A JSON library with the law asked of one: each value is written in a prefix
 * code, numbers and lengths in unary, and read by looking for the value.
 */
module JsonCodec {
  import opened Basics
  import opened Translate

  // ----- Writing -----

  function Unary(n: nat): string {
    if n == 0 then "." else "1" + Unary(n - 1)
  }

  function Counted(s: string): string {
    Unary(|s|) + s
  }

  ghost function Written(v: Json): string
    decreases v, 1, 0
  {
    match v
    case Null => "n"
    case Flag(on) => if on then "t" else "f"
    case Number(amount) => "d" + Unary(amount)
    case Scalar(text) => "s" + Counted(text)
    case List(items) => "l" + WrittenItems(v, items)
    case Object(members) => "o" + WrittenMembers(v, members)
  }

  ghost predicate Within(v: Json, items: seq<Json>) {
    v.List? && forall i :: 0 <= i < |items| ==> items[i] in v.items
  }

  ghost predicate Among(v: Json, m: map<string, Json>) {
    v.Object? && forall k :: k in m ==> k in v.members && v.members[k] == m[k]
  }

  ghost function WrittenItems(v: Json, items: seq<Json>): string
    requires Within(v, items)
    decreases v, 0, |items|
  {
    if items == [] then "."
    else
      assert items[0] in v.items;
      "+" + Written(items[0]) + WrittenItems(v, items[1..])
  }

  ghost function WrittenMembers(v: Json, m: map<string, Json>): string
    requires Among(v, m)
    decreases v, 0, |m|
  {
    if m == map[] then "."
    else
      var k :| k in m;
      assert v.members[k] == m[k];
      "+" + Counted(k) + Written(m[k]) + WrittenMembers(v, m - {k})
  }

  // ----- Two writings that continue to the same text are the same -----

  lemma {:induction false} UnaryReads(n: nat, m: nat, x: string, y: string)
    requires Unary(n) + x == Unary(m) + y
    ensures n == m && x == y
  {
    TagReads(Unary(n), Unary(m), x, y);
    if n > 0 {
      assert Unary(n)[1..] == Unary(n - 1) && Unary(m)[1..] == Unary(m - 1);
      UnaryReads(n - 1, m - 1, x, y);
    } else {
      assert "" + x == x && "" + y == y;
    }
  }

  lemma CountedReads(a: string, b: string, x: string, y: string)
    requires Counted(a) + x == Counted(b) + y
    ensures a == b && x == y
  {
    assert Counted(a) + x == Unary(|a|) + (a + x) && Counted(b) + y == Unary(|b|) + (b + y);
    UnaryReads(|a|, |b|, a + x, b + y);
    assert (a + x)[..|a|] == a && (b + y)[..|b|] == b && (a + x)[|a|..] == x && (b + y)[|b|..] == y;
  }

  /** The tag in front tells the kinds apart. */
  lemma TagReads(a: string, b: string, x: string, y: string)
    requires a != "" && b != "" && a + x == b + y
    ensures a[0] == b[0] && a[1..] + x == b[1..] + y
  {
    assert (a + x)[0] == a[0] && (b + y)[0] == b[0];
    assert (a + x)[1..] == a[1..] + x && (b + y)[1..] == b[1..] + y;
  }

  lemma {:induction false} Reads(v: Json, w: Json, x: string, y: string)
    requires Written(v) + x == Written(w) + y
    ensures v == w && x == y
    decreases v, 1, 0
  {
    TagReads(Written(v), Written(w), x, y);
    match v
    case Null => SameTag(v, w, x, y);
    case Flag(_) => SameTag(v, w, x, y);
    case Number(amount) => UnaryReads(amount, w.amount, x, y);
    case Scalar(text) => CountedReads(text, w.text, x, y);
    case List(items) => ItemsRead(v, items, w, w.items, x, y);
    case Object(members) => MembersRead(v, members, w, w.members, x, y);
  }

  lemma SameTag(v: Json, w: Json, x: string, y: string)
    requires Written(v)[0] == Written(w)[0] && (v.Null? || v.Flag?)
    requires Written(v)[1..] + x == Written(w)[1..] + y
    ensures v == w && x == y
  {
    assert Written(v)[1..] == Written(w)[1..] == "";
    assert "" + x == x && "" + y == y;
  }

  lemma {:induction false} ItemsRead(v: Json, vs: seq<Json>, w: Json, ws: seq<Json>, x: string, y: string)
    requires Within(v, vs) && Within(w, ws) && WrittenItems(v, vs) + x == WrittenItems(w, ws) + y
    ensures vs == ws && x == y
    decreases v, 0, |vs|
  {
    TagReads(WrittenItems(v, vs), WrittenItems(w, ws), x, y);
    if vs == [] {
      assert "" + x == x && "" + y == y;
    } else {
      assert vs[0] in v.items;
      var p, q := WrittenItems(v, vs[1..]), WrittenItems(w, ws[1..]);
      assert WrittenItems(v, vs)[1..] == Written(vs[0]) + p && WrittenItems(w, ws)[1..] == Written(ws[0]) + q;
      Assoc(Written(vs[0]), p, x);
      Assoc(Written(ws[0]), q, y);
      Reads(vs[0], ws[0], p + x, q + y);
      ItemsRead(v, vs[1..], w, ws[1..], x, y);
      assert vs == [vs[0]] + vs[1..] && ws == [ws[0]] + ws[1..];
    }
  }

  lemma {:induction false} MembersRead(v: Json, m: map<string, Json>, w: Json, n: map<string, Json>, x: string,
      y: string)
    requires Among(v, m) && Among(w, n) && WrittenMembers(v, m) + x == WrittenMembers(w, n) + y
    ensures m == n && x == y
    decreases v, 0, |m|
  {
    TagReads(WrittenMembers(v, m), WrittenMembers(w, n), x, y);
    MembersTag(v, m);
    MembersTag(w, n);
    if m == map[] {
      assert "" + x == x && "" + y == y;
    } else {
      var k := SameMember(v, m, w, n, x, y);
      var p, q := WrittenMembers(v, m - {k}) + x, WrittenMembers(w, n - {k}) + y;
      assert v.members[k] == m[k];
      Reads(m[k], n[k], p, q);
      MembersRead(v, m - {k}, w, n - {k}, x, y);
      Restored(m, n, k);
    }
  }

  lemma Restored(m: map<string, Json>, n: map<string, Json>, k: string)
    requires k in m && k in n && m[k] == n[k] && m - {k} == n - {k}
    ensures m == n
  {
    assert m == (m - {k})[k := m[k]] && n == (n - {k})[k := n[k]];
  }

  /** Both begin with the same member. */
  lemma SameMember(v: Json, m: map<string, Json>, w: Json, n: map<string, Json>, x: string, y: string)
    returns (k: string)
    requires Among(v, m) && Among(w, n) && WrittenMembers(v, m) + x == WrittenMembers(w, n) + y
    requires m != map[] && n != map[]
    ensures k in m && k in n
    ensures Written(m[k]) + (WrittenMembers(v, m - {k}) + x) == Written(n[k]) + (WrittenMembers(w, n - {k}) + y)
  {
    k := FirstMember(v, m);
    var l := FirstMember(w, n);
    EntryReads(k, l, Written(m[k]), Written(n[l]), WrittenMembers(v, m - {k}), WrittenMembers(w, n - {l}), x, y);
  }

  lemma MembersTag(v: Json, m: map<string, Json>)
    requires Among(v, m)
    ensures WrittenMembers(v, m)[0] == if m == map[] then '.' else '+'
    ensures m == map[] ==> WrittenMembers(v, m)[1..] == ""
  {
    if m != map[] { var k := FirstMember(v, m); }
  }

  lemma EntryReads(k: string, l: string, e: string, f: string, p: string, q: string, x: string, y: string)
    requires "+" + Counted(k) + e + p + x == "+" + Counted(l) + f + q + y
    ensures k == l && e + (p + x) == f + (q + y)
  {
    var a, b := Counted(k) + (e + (p + x)), Counted(l) + (f + (q + y));
    assert "+" + Counted(k) + e + p + x == "+" + a && "+" + Counted(l) + f + q + y == "+" + b;
    assert ("+" + a)[1..] == a && ("+" + b)[1..] == b;
    CountedReads(k, l, e + (p + x), f + (q + y));
  }

  lemma FirstMember(v: Json, m: map<string, Json>) returns (k: string)
    requires Among(v, m) && m != map[]
    ensures k in m
    ensures WrittenMembers(v, m) == "+" + Counted(k) + Written(m[k]) + WrittenMembers(v, m - {k})
  {
    k :| k in m && WrittenMembers(v, m) == "+" + Counted(k) + Written(m[k]) + WrittenMembers(v, m - {k});
  }

  // ----- Reading -----

  ghost function ReadBack(s: string): Option<Json> {
    if exists v :: Written(v) == s then (var v :| Written(v) == s; Some(v)) else None
  }

  /** The law can be met. */
  lemma LawfulCodecExists() returns (codec: Codec)
    ensures Lawful(codec)
  {
    codec := Codec((s: string) => ReadBack(s), (v: Json) => Written(v), (parts: seq<Part>) => "");
    forall v ensures ReadBack(Written(v)) == Some(v) {
      forall w | Written(w) == Written(v) ensures w == v { Reads(w, v, "", ""); }
    }
  }
}
