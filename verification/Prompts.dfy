/**
 * Prompt injection (internal/provider/prompts.go) and its layering
 * (internal/httpapi/gateway.go, injectPromptSegments).
 */
module Prompts {
  import opened Basics
  import opened Text

  /** An item of a chat body; items that are no objects have an empty role. */
  datatype Message = Message(role: string, content: string)

  datatype SystemField = Absent | Words(text: string) | Blocks(texts: seq<string>) | Foreign

  /** The parts of a request body that matter here; `messages` may be missing or no list. */
  datatype Body = Body(model: string, messages: Option<seq<Message>>, system: SystemField)

  datatype Protocol = OpenAI | Anthropic

  datatype Layer = Layer(text: string, title: string)

  const HEADER := "Pogu router preferences:"
  const SEPARATOR := "\n\n---\n"

  function HeaderFor(title: string): string {
    var l := TrimSpace(title);
    if l == "" then HEADER else "Pogu router preferences (" + l + "):"
  }

  function Wrap(layer: Layer): string {
    HeaderFor(layer.title) + "\n" + Trim(layer.text, IS_NEWLINE)
  }

  // ----- Chat bodies -----

  /** `at` is the place right after the last system message, the front when there is none. */
  predicate AfterSystem(messages: seq<Message>, at: nat) {
    && at <= |messages|
    && (at > 0 ==> messages[at - 1].role == "system")
    && forall i :: at <= i < |messages| ==> messages[i].role != "system"
  }

  function SystemEnd(messages: seq<Message>): (at: nat)
    ensures AfterSystem(messages, at)
  {
    if messages == [] then 0
    else if messages[|messages| - 1].role == "system" then |messages|
    else SystemEnd(messages[..|messages| - 1])
  }

  lemma SystemEndUnique(messages: seq<Message>, at: nat)
    requires AfterSystem(messages, at)
    ensures at == SystemEnd(messages)
  {
    var e := SystemEnd(messages);
    assert e > 0 ==> messages[e - 1].role == "system";
    assert at > 0 ==> messages[at - 1].role == "system";
  }

  function Inserted(messages: seq<Message>, block: seq<Message>): seq<Message> {
    var at := SystemEnd(messages);
    messages[..at] + block + messages[at..]
  }

  function InsertedIn(body: Body, block: seq<Message>): Body {
    if body.messages.None? then body else body.(messages := Some(Inserted(body.messages.value, block)))
  }

  function Entry(layer: Layer): Message {
    Message("system", Wrap(layer))
  }

  method InjectChatPromptLabeled(body: Body, prompt: string, title: string) returns (out: Body)
    ensures out == if Blank(prompt) then body else InsertedIn(body, [Entry(Layer(prompt, title))])
  {
    if TrimSpace(prompt) == "" { return body; }
    if body.messages.None? { return body; }
    var raw := body.messages.value;
    var at := 0;
    for i := 0 to |raw|
      invariant 0 <= at <= i
      invariant at > 0 ==> raw[at - 1].role == "system"
      invariant forall k :: at <= k < i ==> raw[k].role != "system"
    {
      if raw[i].role == "system" { at := i + 1; }
    }
    SystemEndUnique(raw, at);
    out := body.(messages := Some(raw[..at] + [Entry(Layer(prompt, title))] + raw[at..]));
  }

  // ----- Anthropic bodies -----

  function AppendedText(system: SystemField, text: string): SystemField {
    match system
    case Absent => Words(text)
    case Words(own) => if own == "" then Words(text) else Words(own + SEPARATOR + text)
    case Blocks(texts) => Blocks(texts + [text])
    case Foreign => Foreign
  }

  function Appended(system: SystemField, layer: Layer): SystemField {
    AppendedText(system, Wrap(layer))
  }

  method InjectAnthropicPromptLabeled(body: Body, prompt: string, title: string) returns (out: Body)
    ensures out == if Blank(prompt) then body else body.(system := Appended(body.system, Layer(prompt, title)))
  {
    if TrimSpace(prompt) == "" { return body; }
    var layer := Layer(prompt, title);
    match body.system
    case Absent => out := body.(system := Words(Wrap(layer)));
    case Words(text) =>
      if text == "" {
        out := body.(system := Words(Wrap(layer)));
      } else {
        out := body.(system := Words(text + SEPARATOR + Wrap(layer)));
      }
    case Blocks(texts) => out := body.(system := Blocks(texts + [Wrap(layer)]));
    case Foreign => out := body;
  }

  // ----- Layers -----

  /** The layers in the order they are applied: the base prompt unless suppressed, the rules, the style prompt last. */
  function Layers(globalPrompt: string, suppressed: bool, segments: seq<Layer>, caveman: string): seq<Layer> {
    BaseLayers(globalPrompt, suppressed) + segments + [Layer(caveman, "")]
  }

  function BaseLayers(globalPrompt: string, suppressed: bool): seq<Layer> {
    if suppressed then [] else [Layer(globalPrompt, "")]
  }

  function Entries(layers: seq<Layer>): (r: seq<Message>)
    ensures forall i :: 0 <= i < |r| ==> r[i].role == "system"
  {
    if layers == [] then []
    else Entries(layers[..|layers| - 1]) + if Blank(layers[|layers| - 1].text) then []
      else [Entry(layers[|layers| - 1])]
  }

  function Wrapped(layers: seq<Layer>): seq<string> {
    if layers == [] then []
    else Wrapped(layers[..|layers| - 1]) + if Blank(layers[|layers| - 1].text) then [] else [Wrap(layers[|layers| - 1])]
  }

  function Join(parts: seq<string>): string {
    if parts == [] then ""
    else if |parts| == 1 then parts[0]
    else Join(parts[..|parts| - 1]) + SEPARATOR + parts[|parts| - 1]
  }

  /** What a system field says in text: the parts it is made of. */
  function WithTexts(system: SystemField, texts: seq<string>): SystemField {
    match system
    case Absent => if texts == [] then Absent else Words(Join(texts))
    case Words(text) => if text == "" then Words(Join(texts)) else Words(Join([text] + texts))
    case Blocks(own) => Blocks(own + texts)
    case Foreign => Foreign
  }

  lemma WrapSpeaks(layer: Layer)
    ensures Wrap(layer) != ""
  {
  }

  lemma JoinSnoc(texts: seq<string>, last: string)
    requires texts != []
    ensures Join(texts + [last]) == Join(texts) + SEPARATOR + last
  {
    var more := texts + [last];
    assert more[..|more| - 1] == texts;
  }

  lemma WithTextsSnoc(system: SystemField, texts: seq<string>, last: string)
    requires texts != [] ==> Join(texts) != ""
    ensures WithTexts(system, texts + [last]) == AppendedText(WithTexts(system, texts), last)
  {
    match system
    case Absent =>
      if texts != [] { JoinSnoc(texts, last); } else { assert [] + [last] == [last]; }
    case Words(text) =>
      if text == "" {
        if texts != [] { JoinSnoc(texts, last); } else { assert [] + [last] == [last]; }
      } else {
        WordsSnoc(text, texts, last);
      }
    case Blocks(own) => Assoc(own, texts, [last]);
    case Foreign =>
  }

  lemma WordsSnoc(text: string, texts: seq<string>, last: string)
    requires text != ""
    ensures WithTexts(Words(text), texts + [last]) == AppendedText(WithTexts(Words(text), texts), last)
  {
    Assoc([text], texts, [last]);
    JoinSnoc([text] + texts, last);
    JoinSpeaks([text] + texts);
  }

  lemma {:induction false} JoinSpeaks(texts: seq<string>)
    requires texts != [] && texts[0] != ""
    ensures Join(texts) != ""
  {
    if |texts| > 1 { JoinSpeaks(texts[..|texts| - 1]); }
  }

  /** A block inserted after the last system message ends where the next one goes. */
  lemma InsertedTwice(messages: seq<Message>, block: seq<Message>, entry: Message)
    requires entry.role == "system" && forall i :: 0 <= i < |block| ==> block[i].role == "system"
    ensures Inserted(Inserted(messages, block), [entry]) == Inserted(messages, block + [entry])
  {
    var at := SystemEnd(messages);
    var once := Inserted(messages, block);
    InsertedEnd(messages, block);
    SystemEndUnique(once, at + |block|);
    assert once[..at + |block|] == messages[..at] + block;
    assert once[at + |block|..] == messages[at..];
  }

  /**
   * The layered body, built by injecting one layer after the other. On the chat
   * side it is the original with all non-blank layers as one contiguous block
   * after the last system message; on the Anthropic side they end the system
   * field, in order.
   */
  method InjectPromptSegments(body: Body, rawBody: Body, protocol: Protocol, globalPrompt: string, suppressed: bool,
                              segments: seq<Layer>, caveman: string) returns (outBody: Body, outRaw: Body)
    ensures BothLayered(body, rawBody, protocol, Layers(globalPrompt, suppressed, segments, caveman), outBody, outRaw)
  {
    outBody, outRaw := ApplyBase(body, rawBody, protocol, globalPrompt, suppressed);
    ghost var base := BaseLayers(globalPrompt, suppressed);
    outBody, outRaw := ApplyRules(body, rawBody, protocol, base, outBody, outRaw, segments);
    outBody, outRaw := ApplyLayer(body, rawBody, protocol, base + segments, outBody, outRaw, Layer(caveman, ""));
  }

  method ApplyBase(body: Body, rawBody: Body, protocol: Protocol, globalPrompt: string, suppressed: bool)
    returns (outBody: Body, outRaw: Body)
    ensures BothLayered(body, rawBody, protocol, BaseLayers(globalPrompt, suppressed), outBody, outRaw)
  {
    outBody, outRaw := body, rawBody;
    Unlayered(body);
    Unlayered(rawBody);
    if !suppressed {
      outBody, outRaw := ApplyLayer(body, rawBody, protocol, [], body, rawBody, Layer(globalPrompt, ""));
      assert [] + [Layer(globalPrompt, "")] == BaseLayers(globalPrompt, suppressed);
    }
  }

  method ApplyRules(ghost body: Body, ghost rawBody: Body, protocol: Protocol, ghost done: seq<Layer>,
                    atBody: Body, atRaw: Body, segments: seq<Layer>) returns (outBody: Body, outRaw: Body)
    requires BothLayered(body, rawBody, protocol, done, atBody, atRaw)
    ensures BothLayered(body, rawBody, protocol, done + segments, outBody, outRaw)
  {
    outBody, outRaw := atBody, atRaw;
    assert done + segments[..0] == done;
    for i := 0 to |segments|
      invariant BothLayered(body, rawBody, protocol, done + segments[..i], outBody, outRaw)
    {
      outBody, outRaw := ApplyLayer(body, rawBody, protocol, done + segments[..i], outBody, outRaw, segments[i]);
      assert done + segments[..i + 1] == done + segments[..i] + [segments[i]];
    }
    assert done + segments[..|segments|] == done + segments;
  }

  function Layered(body: Body, protocol: Protocol, layers: seq<Layer>): Body {
    match protocol
    case OpenAI => InsertedIn(body, Entries(layers))
    case Anthropic => body.(system := WithTexts(body.system, Wrapped(layers)))
  }

  /** The native body is layered for Anthropic clients only. */
  ghost predicate BothLayered(body: Body, rawBody: Body, protocol: Protocol, layers: seq<Layer>, outBody: Body,
      outRaw: Body) {
    && outBody == Layered(body, protocol, layers)
    && outRaw == if protocol.Anthropic? then Layered(rawBody, protocol, layers) else rawBody
  }

  lemma Unlayered(body: Body)
    ensures Layered(body, OpenAI, []) == body && Layered(body, Anthropic, []) == body
  {
    if body.messages.Some? {
      assert Inserted(body.messages.value, []) == body.messages.value;
    }
  }

  lemma {:induction false} WrappedSpeaks(layers: seq<Layer>)
    ensures Wrapped(layers) != [] ==> Join(Wrapped(layers)) != ""
  {
    if layers != [] {
      var front, last := layers[..|layers| - 1], layers[|layers| - 1];
      WrappedSpeaks(front);
      if !Blank(last.text) {
        WrapSpeaks(last);
        if Wrapped(front) != [] {
          JoinSnoc(Wrapped(front), Wrap(last));
        } else {
          assert [] + [Wrap(last)] == [Wrap(last)];
        }
      }
    }
  }

  function OneMore(body: Body, protocol: Protocol, layer: Layer): Body {
    if Blank(layer.text) then body
    else if protocol.OpenAI? then InsertedIn(body, [Entry(layer)])
    else body.(system := Appended(body.system, layer))
  }

  lemma LayeredSnoc(body: Body, protocol: Protocol, done: seq<Layer>, layer: Layer)
    ensures Layered(body, protocol, done + [layer]) == OneMore(Layered(body, protocol, done), protocol, layer)
  {
    assert (done + [layer])[..|done|] == done;
    if Blank(layer.text) {
      assert Entries(done + [layer]) == Entries(done) && Wrapped(done + [layer]) == Wrapped(done);
    } else {
      assert Entries(done + [layer]) == Entries(done) + [Entry(layer)];
      assert Wrapped(done + [layer]) == Wrapped(done) + [Wrap(layer)];
      if protocol.OpenAI? {
        if body.messages.Some? { InsertedTwice(body.messages.value, Entries(done), Entry(layer)); }
      } else {
        WrappedSpeaks(done);
        WithTextsSnoc(body.system, Wrapped(done), Wrap(layer));
      }
    }
  }

  method Inject(body: Body, protocol: Protocol, layer: Layer) returns (out: Body)
    ensures out == OneMore(body, protocol, layer)
  {
    if layer.text == "" { return body; }
    if protocol.Anthropic? {
      out := InjectAnthropicPromptLabeled(body, layer.text, layer.title);
    } else {
      out := InjectChatPromptLabeled(body, layer.text, layer.title);
    }
  }

  method ApplyLayer(ghost body: Body, ghost rawBody: Body, protocol: Protocol, ghost done: seq<Layer>,
                    atBody: Body, atRaw: Body, layer: Layer) returns (outBody: Body, outRaw: Body)
    requires BothLayered(body, rawBody, protocol, done, atBody, atRaw)
    ensures BothLayered(body, rawBody, protocol, done + [layer], outBody, outRaw)
  {
    LayeredSnoc(body, protocol, done, layer);
    LayeredSnoc(rawBody, protocol, done, layer);
    outBody := Inject(atBody, protocol, layer);
    outRaw := atRaw;
    if protocol.Anthropic? { outRaw := Inject(atRaw, protocol, layer); }
  }

  /**
   * Layering on a chat body: one contiguous block of system messages, one per
   * non-blank layer in order, with the original messages before and after it;
   * nothing of the client's own is moved, and no system message follows it.
   */
  lemma LayeringIsOneBlock(body: Body, layers: seq<Layer>)
    requires body.messages.Some?
    ensures Layered(body, OpenAI, layers).messages.Some?
    ensures OneBlock(body.messages.value, Entries(layers), Layered(body, OpenAI, layers).messages.value)
  {
    InsertedIsOneBlock(body.messages.value, Entries(layers));
  }

  ghost predicate OneBlock(own: seq<Message>, block: seq<Message>, out: seq<Message>) {
    exists at: nat :: at + |block| <= |out| && AfterSystem(own, at) && AfterSystem(out, at + |block|)
      && out[at..at + |block|] == block && out[..at] + out[at + |block|..] == own
  }

  lemma InsertedIsOneBlock(own: seq<Message>, block: seq<Message>)
    requires forall i :: 0 <= i < |block| ==> block[i].role == "system"
    ensures OneBlock(own, block, Inserted(own, block))
  {
    var at := SystemEnd(own);
    var out := Inserted(own, block);
    var next := at + |block|;
    assert out[..at] == own[..at];
    assert out[at..next] == block;
    assert out[next..] == own[at..];
    assert own[..at] + own[at..] == own;
    InsertedEnd(own, block);
  }

  lemma InsertedEnd(own: seq<Message>, block: seq<Message>)
    requires forall i :: 0 <= i < |block| ==> block[i].role == "system"
    ensures AfterSystem(Inserted(own, block), SystemEnd(own) + |block|)
  {
    var at := SystemEnd(own);
    var out := Inserted(own, block);
    forall i | at + |block| <= i < |out| ensures out[i].role != "system" {
      assert out[i] == own[i - |block|];
    }
    if block != [] {
      assert out[at + |block| - 1] == block[|block| - 1];
    } else if at > 0 {
      assert out[at - 1] == own[at - 1];
    }
  }
}
