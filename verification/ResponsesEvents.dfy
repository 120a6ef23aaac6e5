/**
 * What happens upstream of a Responses stream, and how it is printed as events:
 * every field that plays no part is left to a context, so that a happening has
 * all the events that say it. Decoding a printed event gives the happening.
 */
module ResponsesEvents {
  import opened Basics
  import opened Wire
  import R = ResponsesToChat

  // ----- Happenings -----

  /** Where the key of an item stands. */
  datatype Keying = OwnId(id: string) | EventId(id: string) | ByCall

  /** A count under its present or its former name. */
  datatype Count = Modern(value: int) | Legacy(value: int) | Missing

  /** Where the arguments of a finished item stand, as a text or as another value. */
  datatype Final =
    | InArguments(text: string)
    | InInput(text: string)
    | ArgumentsValue(printed: string)
    | InputValue(printed: string)
    | NoArguments

  datatype Failing = InError(message: string) | InResponse(message: string) | EmptyError | Unexplained

  datatype Ending = Completed | Finished | Incomplete

  datatype Happening =
    | Says(text: string)
    | Reasons(text: string)
    | Announces(key: Keying, callId: string, name: string, custom: bool)
    | Argues(item: string, json: string, custom: bool)
    | Closes(key: Keying, final: Final, custom: bool)
    | Completes(input: Count, output: Count, ending: Ending)
    | CompletesUncounted(ending: Ending, response: bool)
    | Fails(failing: Failing, failed: bool)
    | OtherItem(typ: string, done: bool)
    | NoItem(done: bool)
    | Other(typ: string)
    | Garbled
    | Marker

  /** A happening with all that it leaves open: the event's name or data, and the other fields. */
  datatype Post = Post(what: Happening, name: string, raw: string, byName: bool, rest: ResponsesPayload)

  ghost predicate KnownType(typ: string) {
    typ in {"response.output_text.delta", "response.output_item.added", "response.function_call_arguments.delta",
            "response.custom_tool_call_input.delta", "response.output_item.done", "response.completed",
            "response.done", "response.incomplete", "error", "response.failed",
            "response.reasoning_summary_text.delta"}
  }

  /** The forms exclude each other; only the marker has its data. */
  ghost predicate WellPosted(p: Post) {
    && (p.what.Marker? <==> p.raw == "[DONE]")
    && match p.what
       case Announces(OwnId(id), _, _, _) => id != ""
       case Announces(EventId(id), _, _, _) => id != ""
       case Closes(OwnId(id), _, _) => id != ""
       case Closes(ByCall, _, _) => false
       case Fails(InError(message), _) => message != ""
       case Fails(InResponse(message), _) => message != ""
       case Fails(Unexplained, _) => ResponseIn(p.rest).error in {None, Some("")}
       case OtherItem(typ, _) => typ !in {"function_call", "custom_tool_call"}
       case Other(typ) => !KnownType(typ) && (typ == "" ==> p.byName)
       case _ => true
  }

  // ----- Printing -----

  function EndingType(ending: Ending): string {
    match ending
    case Completed => "response.completed"
    case Finished => "response.done"
    case Incomplete => "response.incomplete"
  }

  function TypeFor(h: Happening): string {
    match h
    case Says(_) => "response.output_text.delta"
    case Reasons(_) => "response.reasoning_summary_text.delta"
    case Announces(_, _, _, _) => "response.output_item.added"
    case Argues(_, _, custom) =>
      if custom then "response.custom_tool_call_input.delta" else "response.function_call_arguments.delta"
    case Closes(_, _, _) => "response.output_item.done"
    case Completes(_, _, ending) => EndingType(ending)
    case CompletesUncounted(ending, _) => EndingType(ending)
    case Fails(_, failed) => if failed then "response.failed" else "error"
    case OtherItem(_, done) => if done then "response.output_item.done" else "response.output_item.added"
    case NoItem(done) => if done then "response.output_item.done" else "response.output_item.added"
    case Other(typ) => typ
    case _ => "response.created"
  }

  function CallType(custom: bool): string {
    if custom then "custom_tool_call" else "function_call"
  }

  function ItemIn(p: ResponsesPayload): ItemField {
    p.item.GetOr(ItemField("", "", "", "", Absent, Absent))
  }

  function ResponseIn(p: ResponsesPayload): ResponseField {
    p.response.GetOr(ResponseField("", None, None))
  }

  function UsageIn(p: ResponsesPayload): ResponsesUsage {
    ResponseIn(p).usage.GetOr(ResponsesUsage(None, None, None, None))
  }

  function NoText(arg: JsonArg): JsonArg {
    if arg.Str? then Absent else arg
  }

  function WithKey(p: ResponsesPayload, item: ItemField, key: Keying): ResponsesPayload {
    match key
    case OwnId(id) => p.(item := Some(item.(id := id)))
    case EventId(id) => p.(item := Some(item.(id := "")), itemId := id)
    case ByCall => p.(item := Some(item.(id := "")), itemId := "")
  }

  function WithFinal(item: ItemField, final: Final): ItemField {
    match final
    case InArguments(text) => item.(arguments := Str(text))
    case InInput(text) => item.(arguments := NoText(item.arguments), input := Str(text))
    case ArgumentsValue(printed) => item.(arguments := JsonArg.Other(printed), input := NoText(item.input))
    case InputValue(printed) => item.(arguments := Absent, input := JsonArg.Other(printed))
    case NoArguments => item.(arguments := Absent, input := Absent)
  }

  function WithInput(u: ResponsesUsage, count: Count): ResponsesUsage {
    match count
    case Modern(value) => u.(input := Some(value))
    case Legacy(value) => u.(input := None, prompt := Some(value))
    case Missing => u.(input := None, prompt := None)
  }

  function WithOutput(u: ResponsesUsage, count: Count): ResponsesUsage {
    match count
    case Modern(value) => u.(output := Some(value))
    case Legacy(value) => u.(output := None, completion := Some(value))
    case Missing => u.(output := None, completion := None)
  }

  function WithFailure(p: ResponsesPayload, failing: Failing): ResponsesPayload {
    match failing
    case InError(message) => p.(error := Some(message))
    case InResponse(message) => p.(error := None, response := Some(ResponseIn(p).(error := Some(message))))
    case EmptyError => p.(error := Some(""))
    case Unexplained => p.(error := None)
  }

  /** The fields that say it, over the rest. */
  function Fields(h: Happening, p: ResponsesPayload): ResponsesPayload {
    match h
    case Says(text) => p.(delta := text)
    case Reasons(text) => p.(delta := text)
    case Announces(key, callId, name, custom) =>
      WithKey(p, ItemIn(p).(typ := CallType(custom), callId := callId, name := name), key)
    case Argues(item, json, _) => p.(itemId := item, delta := json)
    case Closes(key, final, custom) => WithKey(p, WithFinal(ItemIn(p), final).(typ := CallType(custom)), key)
    case Completes(input, output, _) =>
      p.(response := Some(ResponseIn(p).(usage := Some(WithOutput(WithInput(UsageIn(p), input), output)))))
    case CompletesUncounted(_, response) =>
      p.(response := if response then Some(ResponseIn(p).(usage := None)) else None)
    case Fails(failing, _) => WithFailure(p, failing)
    case OtherItem(typ, _) => p.(item := Some(ItemIn(p).(typ := typ)))
    case NoItem(_) => p.(item := None)
    case _ => p
  }

  function Print(p: Post): ResponsesEvent {
    var typ, fields := TypeFor(p.what), Fields(p.what, p.rest);
    if p.what.Garbled? || p.what.Marker? then SseEvent(p.name, p.raw, None)
    else if p.byName then SseEvent(typ, p.raw, Some(fields.(typ := "")))
    else SseEvent(p.name, p.raw, Some(fields.(typ := typ)))
  }

  function PrintAll(ps: seq<Post>): (r: seq<ResponsesEvent>)
    ensures |r| == |ps| && forall k :: 0 <= k < |ps| ==> r[k] == Print(ps[k])
  {
    seq(|ps|, k requires 0 <= k < |ps| => Print(ps[k]))
  }

  // ----- What a happening says -----

  function CountOf(count: Count): Option<int> {
    match count
    case Modern(value) => Some(value)
    case Legacy(value) => Some(value)
    case Missing => None
  }

  function FinalText(final: Final): string {
    match final
    case InArguments(text) => text
    case InInput(text) => text
    case ArgumentsValue(printed) => printed
    case InputValue(printed) => printed
    case NoArguments => ""
  }

  /** The key of an announced item. */
  function KeyOf(key: Keying, callId: string): string {
    match key
    case OwnId(id) => id
    case EventId(id) => id
    case ByCall => callId
  }

  /** The message of a failure, or the whole event printed. */
  function FailureText(p: Post): string
    requires p.what.Fails?
  {
    match p.what.failing
    case InError(message) => message
    case InResponse(message) => message
    case _ => p.rest.printed
  }

  /** The model an event names, if it has a response. */
  function ModelOf(p: Post): string {
    if p.what.Garbled? || p.what.Marker? then ""
    else
      match Fields(p.what, p.rest).response
      case None => ""
      case Some(response) => response.model
  }

  function ActionFor(p: Post): R.Action {
    match p.what
    case Says(text) => if text == "" then R.Nothing else R.Text(text)
    case Reasons(text) => if text == "" then R.Nothing else R.Reason(text)
    case Announces(key, callId, name, _) => R.AddItem(KeyOf(key, callId), callId, name)
    case Argues(item, json, _) => if json == "" then R.Nothing else R.Json(item, json)
    case Closes(key, final, _) => R.DoneItem(KeyOf(key, ""), FinalText(final))
    case Completes(input, output, _) => R.Complete(CountOf(input), CountOf(output))
    case CompletesUncounted(_, _) => R.Complete(None, None)
    case Fails(_, _) => R.Fail(FailureText(p))
    case _ => R.Nothing
  }

  function InputFor(p: Post): R.Input {
    R.Input(ModelOf(p), ActionFor(p))
  }

  /** Decoding what was printed gives the happening. */
  lemma DecodePrint(p: Post)
    requires WellPosted(p)
    ensures R.Decode(Print(p)) == InputFor(p)
  {
    if !p.what.Garbled? && !p.what.Marker? {
      TypePrinted(p);
      ActionPrinted(p, Fields(p.what, p.rest).(typ := if p.byName then "" else TypeFor(p.what)));
    }
  }

  lemma TypePrinted(p: Post)
    requires WellPosted(p) && !p.what.Marker? && !p.what.Garbled?
    ensures R.TypeOf(Print(p)) == TypeFor(p.what)
  {
  }

  lemma ActionPrinted(p: Post, fields: ResponsesPayload)
    requires WellPosted(p) && !p.what.Marker? && !p.what.Garbled?
    requires fields == Fields(p.what, p.rest).(typ := fields.typ)
    ensures R.DecodeAction(TypeFor(p.what), fields) == ActionFor(p)
  {
    match p.what
    case Announces(_, _, _, _) => AnnouncePrinted(p, fields);
    case Closes(_, _, _) => ClosePrinted(p, fields);
    case Completes(_, _, _) => CompletePrinted(p, fields);
    case CompletesUncounted(_, _) => CompletePrinted(p, fields);
    case Fails(_, _) => FailurePrinted(p, fields);
    case Says(_) => DeltaPrinted(p, fields);
    case Reasons(_) => DeltaPrinted(p, fields);
    case Argues(_, _, _) => DeltaPrinted(p, fields);
    case _ => OtherPrinted(p, fields);
  }

  lemma AnnouncePrinted(p: Post, fields: ResponsesPayload)
    requires WellPosted(p) && p.what.Announces? && fields == Fields(p.what, p.rest).(typ := fields.typ)
    ensures R.DecodeAction(TypeFor(p.what), fields) == ActionFor(p)
  {
  }

  lemma ClosePrinted(p: Post, fields: ResponsesPayload)
    requires WellPosted(p) && p.what.Closes? && fields == Fields(p.what, p.rest).(typ := fields.typ)
    ensures R.DecodeAction(TypeFor(p.what), fields) == ActionFor(p)
  {
    var item := fields.item.value;
    assert R.ArgumentsString(item.arguments, item.input) == FinalText(p.what.final);
  }

  lemma CompletePrinted(p: Post, fields: ResponsesPayload)
    requires p.what.Completes? || p.what.CompletesUncounted?
    requires fields == Fields(p.what, p.rest).(typ := fields.typ)
    ensures R.DecodeAction(TypeFor(p.what), fields) == ActionFor(p)
  {
    UsagePrinted(p, fields);
    EndingDecodes(p.what.ending, fields);
  }

  lemma UsagePrinted(p: Post, fields: ResponsesPayload)
    requires p.what.Completes? || p.what.CompletesUncounted?
    requires fields == Fields(p.what, p.rest).(typ := fields.typ)
    ensures ActionFor(p) == R.Complete(R.UsagePair(fields).0, R.UsagePair(fields).1)
  {
  }

  lemma EndingDecodes(ending: Ending, fields: ResponsesPayload)
    ensures
      R.DecodeAction(EndingType(ending), fields) == R.Complete(R.UsagePair(fields).0, R.UsagePair(fields).1)
  {
  }

  lemma FailurePrinted(p: Post, fields: ResponsesPayload)
    requires WellPosted(p) && p.what.Fails? && fields == Fields(p.what, p.rest).(typ := fields.typ)
    ensures R.DecodeAction(TypeFor(p.what), fields) == ActionFor(p)
  {
    MessagePrinted(p, fields);
    FailureDecodes(p.what.failed, fields);
  }

  lemma MessagePrinted(p: Post, fields: ResponsesPayload)
    requires WellPosted(p) && p.what.Fails? && fields == Fields(p.what, p.rest).(typ := fields.typ)
    ensures R.FailureText(fields) == FailureText(p)
  {
  }

  lemma FailureDecodes(failed: bool, fields: ResponsesPayload)
    ensures
      R.DecodeAction(if failed then "response.failed" else "error", fields) == R.Fail(R.FailureText(fields))
  {
  }

  lemma DeltaPrinted(p: Post, fields: ResponsesPayload)
    requires fields == Fields(p.what, p.rest).(typ := fields.typ)
    requires p.what.Says? || p.what.Reasons? || p.what.Argues?
    ensures R.DecodeAction(TypeFor(p.what), fields) == ActionFor(p)
  {
  }

  lemma OtherPrinted(p: Post, fields: ResponsesPayload)
    requires WellPosted(p) && fields == Fields(p.what, p.rest).(typ := fields.typ)
    requires p.what.OtherItem? || p.what.NoItem? || p.what.Other?
    ensures R.DecodeAction(TypeFor(p.what), fields) == ActionFor(p)
  {
  }

  // ----- Every event is printed by some happening -----

  function KeyingOf(item: ItemField, itemId: string, announced: bool): Keying {
    if item.id != "" then OwnId(item.id) else if announced && itemId == "" then ByCall else EventId(itemId)
  }

  function FinalOf(item: ItemField): Final {
    match (item.arguments, item.input)
    case (Str(text), _) => InArguments(text)
    case (_, Str(text)) => InInput(text)
    case (Other(printed), _) => ArgumentsValue(printed)
    case (Absent, Other(printed)) => InputValue(printed)
    case (Absent, Absent) => NoArguments
  }

  function CountIn(present: Option<int>, former: Option<int>): Count {
    match (present, former)
    case (Some(value), _) => Modern(value)
    case (None, Some(value)) => Legacy(value)
    case (None, None) => Missing
  }

  function ItemHappening(p: ResponsesPayload, done: bool): Happening {
    match p.item
    case None => NoItem(done)
    case Some(item) =>
      if item.typ != "function_call" && item.typ != "custom_tool_call" then OtherItem(item.typ, done)
      else
        var custom := item.typ == "custom_tool_call";
        if done then Closes(KeyingOf(item, p.itemId, false), FinalOf(item), custom)
        else Announces(KeyingOf(item, p.itemId, true), item.callId, item.name, custom)
  }

  function EndHappening(p: ResponsesPayload, ending: Ending): Happening {
    match p.response
    case None => CompletesUncounted(ending, false)
    case Some(response) =>
      match response.usage
      case None => CompletesUncounted(ending, true)
      case Some(u) => Completes(CountIn(u.input, u.prompt), CountIn(u.output, u.completion), ending)
  }

  function FailureHappening(p: ResponsesPayload, failed: bool): Happening {
    match p.error
    case Some(message) => Fails(if message == "" then EmptyError else InError(message), failed)
    case None =>
      match ResponseIn(p).error
      case Some(message) => Fails(if message == "" then Unexplained else InResponse(message), failed)
      case None => Fails(Unexplained, failed)
  }

  function HappeningIn(typ: string, p: ResponsesPayload): Happening {
    match typ
    case "response.output_text.delta" => Says(p.delta)
    case "response.reasoning_summary_text.delta" => Reasons(p.delta)
    case "response.output_item.added" => ItemHappening(p, false)
    case "response.output_item.done" => ItemHappening(p, true)
    case "response.function_call_arguments.delta" => Argues(p.itemId, p.delta, false)
    case "response.custom_tool_call_input.delta" => Argues(p.itemId, p.delta, true)
    case "response.completed" => EndHappening(p, Completed)
    case "response.done" => EndHappening(p, Finished)
    case "response.incomplete" => EndHappening(p, Incomplete)
    case "error" => FailureHappening(p, false)
    case "response.failed" => FailureHappening(p, true)
    case _ => Happening.Other(typ)
  }

  const NOTHING := ResponsesPayload("", "", "", None, None, None, "")

  function PostOf(e: ResponsesEvent): Post {
    match e.payload
    case None => Post(if e.raw == "[DONE]" then Marker else Garbled, e.event, e.raw, false, NOTHING)
    case Some(p) =>
      var byName := p.typ == "";
      Post(HappeningIn(if byName then e.event else p.typ, p), e.event, e.raw, byName, p)
  }

  lemma EveryEvent(e: ResponsesEvent)
    requires e.raw == "[DONE]" ==> e.payload.None?
    ensures WellPosted(PostOf(e)) && Print(PostOf(e)) == e
  {
    if e.payload.Some? {
      var p := e.payload.value;
      if p.typ == "" {
        HappeningFits(e.event, p);
        NamelessFits(e, p);
      } else {
        HappeningFits(p.typ, p);
      }
    }
  }

  lemma NamelessFits(e: ResponsesEvent, p: ResponsesPayload)
    requires p.typ == "" && e.payload == Some(p) && Fitting(e.event, HappeningIn(e.event, p), p)
    ensures Print(PostOf(e)) == e
  {
    assert Fields(HappeningIn(e.event, p), p).(typ := "") == p;
  }

  /** The happening has this type and these fields. */
  ghost predicate Fitting(typ: string, h: Happening, p: ResponsesPayload) {
    && Fields(h, p) == p && TypeFor(h) == typ && !h.Marker? && !h.Garbled?
    && if h.Other? then !KnownType(typ) else Postable(h, p)
  }

  lemma HappeningFits(typ: string, p: ResponsesPayload)
    ensures Fitting(typ, HappeningIn(typ, p), p)
  {
    match typ
    case "response.output_item.added" => ItemFits(p, false);
    case "response.output_item.done" => ItemFits(p, true);
    case "response.completed" => EndFits(p, Completed);
    case "response.done" => EndFits(p, Finished);
    case "response.incomplete" => EndFits(p, Incomplete);
    case "error" => FailureFits(p, false);
    case "response.failed" => FailureFits(p, true);
    case _ =>
  }

  /** Well posted wherever it stands, but for the marker's data. */
  ghost predicate Postable(h: Happening, p: ResponsesPayload) {
    forall name, raw, byName :: raw != "[DONE]" ==> WellPosted(Post(h, name, raw, byName, p))
  }

  lemma FailureFits(p: ResponsesPayload, failed: bool)
    ensures Fields(FailureHappening(p, failed), p) == p && Postable(FailureHappening(p, failed), p)
    ensures FailureHappening(p, failed).Fails? && FailureHappening(p, failed).failed == failed
  {
  }

  lemma ItemFits(p: ResponsesPayload, done: bool)
    ensures Fields(ItemHappening(p, done), p) == p && Postable(ItemHappening(p, done), p)
    ensures
      TypeFor(ItemHappening(p, done)) == if done then "response.output_item.done" else "response.output_item.added"
    ensures !ItemHappening(p, done).Marker? && !ItemHappening(p, done).Garbled?
  {
    if p.item.Some? { FinalFits(p.item.value); }
  }

  lemma FinalFits(item: ItemField)
    ensures WithFinal(item, FinalOf(item)) == item
  {
  }

  lemma EndFits(p: ResponsesPayload, ending: Ending)
    ensures Fields(EndHappening(p, ending), p) == p && Postable(EndHappening(p, ending), p)
    ensures TypeFor(EndHappening(p, ending)) == EndingType(ending)
    ensures !EndHappening(p, ending).Marker? && !EndHappening(p, ending).Garbled?
  {
  }
}
