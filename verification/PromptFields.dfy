/** Which rules and layers reach a request, and in which words, told from their fields. */
module PromptFields {
  import opened Basics
  import opened Text
  import R = PromptRules
  import P = Prompts

  // ----- Rules -----

  /** A loaded rule is its row, and claims what some target row of its id names. */
  lemma LoadedClaims(rules: seq<R.RuleRow>, targets: seq<R.TargetRow>, i: nat, t: R.Target)
    requires i < |rules|
    ensures
      var loaded := R.Combine(rules, targets);
      && |loaded| == |rules| && loaded[i].row == rules[i]
      && (t in loaded[i].claims <==> exists j :: 0 <= j < |targets| && targets[j] == R.TargetRow(rules[i].id, t))
  {
    if t in R.ClaimsOf(rules[i].id, targets) {
      var j :| 0 <= j < |targets| && targets[j].rule == rules[i].id && targets[j].target == t;
      assert targets[j] == R.TargetRow(rules[i].id, t);
    }
  }

  predicate Names(r: R.Rule, group: Option<int>, model: int) {
    && r.row.enabled
    && ((model != 0 && R.ModelTarget(model) in r.claims) || (group.Some? && R.GroupTarget(group.value) in r.claims))
  }

  /** The segments of a request are the enabled rules that claim its model or its group, in position order. */
  lemma {:induction false} SegmentsPicked(rules: seq<R.Rule>, group: Option<int>, model: int) returns (at: seq<nat>)
    ensures
      Picked(rules, at, R.Segments(rules, group, model), (r: R.Rule) => Names(r, group, model),
             (r: R.Rule) => R.Segment(r.row.id, r.row.name, r.row.prompt))
  {
    var keep, make := (r: R.Rule) => Names(r, group, model),
        (r: R.Rule) => R.Segment(r.row.id, r.row.name, r.row.prompt);
    if rules == [] {
      at := [];
      PickedNone(keep, make);
    } else {
      var front, last := rules[..|rules| - 1], rules[|rules| - 1];
      at := SegmentsPicked(front, group, model);
      PickedSnoc(front, at, R.Segments(front, group, model), keep, make, last);
      assert rules == front + [last];
      at := at + if keep(last) then [|front|] else [];
    }
  }

  /** The enabled rule of the model decides whether the base prompt goes; without one, that of the group. */
  lemma SuppressedBy(rules: seq<R.Rule>, group: Option<int>, model: int)
    requires R.ExclusiveClaims(rules)
    ensures
      var ofModel := (r: R.Rule) => r.row.enabled && model != 0 && R.ModelTarget(model) in r.claims;
      var ofGroup := (r: R.Rule) => r.row.enabled && group.Some? && R.GroupTarget(group.value) in r.claims;
      && (forall r :: r in rules && ofModel(r) ==> (R.Suppresses(rules, group, model) <==> !r.row.inherit))
      && ((forall r :: r in rules ==> !ofModel(r)) ==>
            forall r :: r in rules && ofGroup(r) ==> (R.Suppresses(rules, group, model) <==> !r.row.inherit))
      && ((forall r :: r in rules ==> !ofModel(r) && !ofGroup(r)) ==> !R.Suppresses(rules, group, model))
  {
    forall r | r in rules && r.row.enabled && model != 0 && R.ModelTarget(model) in r.claims
      ensures R.Suppresses(rules, group, model) <==> !r.row.inherit
    {
      var i :| 0 <= i < |rules| && rules[i] == r;
      R.ModelDecides(rules, group, model, i);
    }
    if forall r :: r in rules ==> !(r.row.enabled && model != 0 && R.ModelTarget(model) in r.claims) {
      forall k | 0 <= k < |rules| ensures !R.ForModel(rules[k], model) {
        assert rules[k] in rules;
      }
      forall r | r in rules && r.row.enabled && group.Some? && R.GroupTarget(group.value) in r.claims
        ensures R.Suppresses(rules, group, model) <==> !r.row.inherit
      {
        var i :| 0 <= i < |rules| && rules[i] == r;
        R.GroupDecides(rules, group, model, i);
      }
      if R.Suppresses(rules, group, model) {
        var i :| 0 <= i < |rules| && R.ForGroup(rules[i], group) && !rules[i].row.inherit;
        assert rules[i] in rules;
      }
    }
  }

  // ----- Layers -----

  /** The base prompt comes first unless suppressed, then the rules in order, the style prompt last. */
  lemma LayerOrder(globalPrompt: string, suppressed: bool, segments: seq<P.Layer>, caveman: string)
    ensures
      var layers, base := P.Layers(globalPrompt, suppressed, segments, caveman), if suppressed then 0 else 1;
      && |layers| == base + |segments| + 1
      && (!suppressed ==> layers[0] == P.Layer(globalPrompt, ""))
      && (forall i :: 0 <= i < |segments| ==> layers[base + i] == segments[i])
      && layers[|layers| - 1] == P.Layer(caveman, "")
  {
  }

  /** The words of a layer: its title in the header, and its text without line feeds at the ends. */
  function Worded(l: P.Layer): string {
    (if TrimSpace(l.title) == "" then "Pogu router preferences:"
     else "Pogu router preferences (" + TrimSpace(l.title) + "):")
    + "\n" + Trim(l.text, (c: char) => c == '\n')
  }

  ghost predicate HasWords(l: P.Layer) {
    exists i :: 0 <= i < |l.text| && !IsWhite(l.text[i])
  }

  lemma LayerWorded(l: P.Layer)
    ensures P.Wrap(l) == Worded(l) && (Blank(l.text) <==> !HasWords(l))
  {
    BlankMeans(l.text);
    SameTrim(l.text, IS_NEWLINE, (c: char) => c == '\n');
  }

  lemma {:induction false} SameLeft(s: string, a: CharTest, b: CharTest)
    requires forall c: char :: a(c) == b(c)
    ensures TrimLeft(s, a) == TrimLeft(s, b)
  {
    if s != [] { SameLeft(s[1..], a, b); }
  }

  lemma {:induction false} SameRight(s: string, a: CharTest, b: CharTest)
    requires forall c: char :: a(c) == b(c)
    ensures TrimRight(s, a) == TrimRight(s, b)
  {
    if s != [] { SameRight(s[..|s| - 1], a, b); }
  }

  lemma SameTrim(s: string, a: CharTest, b: CharTest)
    requires forall c: char :: a(c) == b(c)
    ensures Trim(s, a) == Trim(s, b)
  {
    SameLeft(s, a, b);
    SameRight(TrimLeft(s, a), a, b);
  }

  lemma EntriesSnoc(front: seq<P.Layer>, last: P.Layer)
    ensures HasWords(last) ==> P.Entries(front + [last]) == P.Entries(front) + [P.Message("system", Worded(last))]
    ensures HasWords(last) ==> P.Wrapped(front + [last]) == P.Wrapped(front) + [Worded(last)]
    ensures
      !HasWords(last) ==>
        P.Entries(front + [last]) == P.Entries(front) && P.Wrapped(front + [last]) == P.Wrapped(front)
  {
    assert (front + [last])[..|front|] == front;
    LayerWorded(last);
    assert P.Entries(front) + [] == P.Entries(front) && P.Wrapped(front) + [] == P.Wrapped(front);
  }

  /** A list that grows with each layer to keep picks these. */
  lemma {:induction false} PicksBy<U(!new)>(layers: seq<P.Layer>, f: seq<P.Layer> -> seq<U>, keep: P.Layer -> bool,
      make: P.Layer -> U) returns (at: seq<nat>)
    requires f([]) == []
    requires forall front, last :: f(front + [last]) == if keep(last) then f(front) + [make(last)] else f(front)
    ensures Picked(layers, at, f(layers), keep, make)
  {
    if layers == [] {
      at := [];
      PickedNone(keep, make);
    } else {
      var front, last := layers[..|layers| - 1], layers[|layers| - 1];
      at := PicksBy(front, f, keep, make);
      PickedSnoc(front, at, f(front), keep, make, last);
      assert layers == front + [last];
      at := at + if keep(last) then [|front|] else [];
    }
  }

  /** The messages put into a chat: one of role system for each layer that is not blank, in order. */
  lemma EntriesPicked(layers: seq<P.Layer>) returns (at: seq<nat>)
    ensures
      Picked(layers, at, P.Entries(layers), (l: P.Layer) => HasWords(l),
             (l: P.Layer) => P.Message("system", Worded(l)))
  {
    forall front, last { EntriesSnoc(front, last); }
    at := PicksBy(layers, P.Entries, (l: P.Layer) => HasWords(l), (l: P.Layer) => P.Message("system", Worded(l)));
  }

  /** The texts put into a system field: the same words, in the same order. */
  lemma TextsPicked(layers: seq<P.Layer>) returns (at: seq<nat>)
    ensures Picked(layers, at, P.Wrapped(layers), (l: P.Layer) => HasWords(l), (l: P.Layer) => Worded(l))
  {
    forall front, last { EntriesSnoc(front, last); }
    at := PicksBy(layers, P.Wrapped, (l: P.Layer) => HasWords(l), (l: P.Layer) => Worded(l));
  }

  /** What one more text makes of a system field: a text grows by a rule and the text, a list by an element. */
  lemma SystemGrows(system: P.SystemField, texts: seq<string>, last: string)
    requires forall i :: 0 <= i < |texts| ==> texts[i] != ""
    ensures P.WithTexts(system, []) == system
    ensures
      var before, after := P.WithTexts(system, texts), P.WithTexts(system, texts + [last]);
      match before
      case Absent => after == P.Words(last)
      case Words(own) => after == P.Words(if own == "" then last else own + "\n\n---\n" + last)
      case Blocks(own) => after == P.Blocks(own + [last])
      case Foreign => after == P.Foreign
  {
    if texts != [] { P.JoinSpeaks(texts); }
    P.WithTextsSnoc(system, texts, last);
    if system.Words? { assert [system.text] + [] == [system.text]; }
    if system.Blocks? { assert system.texts + [] == system.texts; }
  }

  /** The layers go behind the last system message of a chat, in front if there is none. */
  lemma BlockPlace(own: seq<P.Message>, block: seq<P.Message>) returns (at: nat)
    ensures at <= |own| && P.Inserted(own, block) == own[..at] + block + own[at..]
    ensures at > 0 ==> own[at - 1].role == "system"
    ensures forall i :: at <= i < |own| ==> own[i].role != "system"
  {
    at := P.SystemEnd(own);
  }

  /** A chat body without a list of messages is left alone; nothing but the messages, or the system field, changes. */
  lemma OnlyThere(body: P.Body, protocol: P.Protocol, layers: seq<P.Layer>)
    ensures
      var out := P.Layered(body, protocol, layers);
      && out.model == body.model
      && (protocol.OpenAI? ==> out.system == body.system && (out.messages.None? <==> body.messages.None?))
      && (protocol.Anthropic? ==> out.messages == body.messages)
      && (protocol.OpenAI? && body.messages.Some? ==>
            out.messages.value == P.Inserted(body.messages.value, P.Entries(layers)))
      && (protocol.Anthropic? ==> out.system == P.WithTexts(body.system, P.Wrapped(layers)))
  {
  }
}
