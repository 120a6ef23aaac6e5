/**
 * The failover loop of the gateway (internal/httpapi/gateway.go) and the
 * accounting that goes with it (internal/httpapi/gateway_telemetry.go,
 * internal/telemetry/telemetry.go). What an upstream does with each attempt,
 * and what the clock reads, is a script indexed by the attempt number.
 */
module Gateway {
  import opened Basics
  import opened Prompts
  import opened Routing

  // ----- What can happen to an attempt -----

  datatype WriterCall = WriteHeader(status: int) | Write(data: string) | Flush

  /** What `errors.Is` and `errors.As` can tell about an error. */
  datatype Failure = Failure(canceled: bool, deadline: bool, matchesContext: bool, upstream: Option<int>)

  /**
   * One attempt: its key's secret cannot be read, or the proxy calls the
   * response writer and returns. Times are in nanoseconds.
   */
  datatype Turn =
    | Unreadable(failure: Failure, start: int, end: int)
    | Proxied(calls: seq<WriterCall>, error: Option<Failure>, firstByte: Option<int>, start: int, end: int)

  type Script = nat -> Turn

  const BAD_GATEWAY := 502
  const UNAVAILABLE := 503

  predicate IsFailoverStatus(status: int) {
    status == 401 || status == 402 || status == 403 || status == 429
  }

  /** Nothing reached the client and another key may do better. */
  predicate FailsOver(turn: Turn) {
    match turn
    case Unreadable(_, _, _) => true
    case Proxied(calls, error, _, _, _) =>
      && error.Some? && calls == [] && !error.value.canceled && !error.value.matchesContext
      && error.value.upstream.Some? && IsFailoverStatus(error.value.upstream.value)
  }

  // ----- Classification -----

  datatype Category = NoError | Canceled | Auth | RateLimit | Server | Upstream | Connection | Internal

  function Classify(e: Failure): Category {
    if e.canceled || e.deadline then Canceled
    else if e.upstream.None? then Connection
    else
      var status := e.upstream.value;
      if status == 401 || status == 403 then Auth
      else if status == 429 then RateLimit
      else if 500 <= status <= 599 then Server
      else if 400 <= status <= 499 then Upstream
      else Connection
  }

  function ClientStatusForUpstream(e: Failure, fallback: int): int {
    if e.upstream.Some? && 400 <= e.upstream.value <= 599 then e.upstream.value
    else if fallback == 500 then BAD_GATEWAY
    else fallback
  }

  function FirstStatus(calls: seq<WriterCall>): int
    requires calls != []
  {
    if calls[0].WriteHeader? then calls[0].status else 200
  }

  /** How an attempt is recorded. */
  datatype End = End(status: Option<int>, success: bool, category: Category)

  function SuccessEnd(calls: seq<WriterCall>): End {
    End(Some(if calls != [] && 200 <= FirstStatus(calls) <= 299 then FirstStatus(calls) else 200), true, NoError)
  }

  function CommittedOrCanceledEnd(e: Failure, calls: seq<WriterCall>): End {
    var category := Classify(e);
    var sent := if calls == [] then 500 else FirstStatus(calls);
    if calls == [] || category == Auth || category == RateLimit || category == Upstream || category == Server
    then End(Some(ClientStatusForUpstream(e, sent)), false, category)
    else End(Some(sent), false, category)
  }

  predicate CommittedOrCanceled(e: Failure, calls: seq<WriterCall>) {
    calls != [] || e.canceled || e.matchesContext
  }

  function EndOf(turn: Turn): End {
    match turn
    case Unreadable(_, _, _) => End(None, false, Internal)
    case Proxied(calls, error, _, _, _) =>
      if error.None? then SuccessEnd(calls)
      else if CommittedOrCanceled(error.value, calls) then CommittedOrCanceledEnd(error.value, calls)
      else End(Some(ClientStatusForUpstream(error.value, BAD_GATEWAY)), false, Classify(error.value))
  }

  function FailureOf(turn: Turn): Option<Failure> {
    if turn.Unreadable? then Some(turn.failure) else turn.error
  }

  function Millis(nanoseconds: int): nat {
    if nanoseconds < 0 then 0 else nanoseconds / 1_000_000
  }

  function Duration(turn: Turn): nat {
    Millis(turn.end - turn.start)
  }

  // ----- The plan -----

  /** A target with the prompt rules that apply to its model. */
  datatype Planned = Planned(target: Target, suppressed: bool, segments: seq<Layer>)

  /** What target resolution guarantees (`Routing.Usable`): some target, and some key for each. */
  ghost predicate UsablePlan(plan: seq<Planned>) {
    plan != [] && forall t :: 0 <= t < |plan| ==> plan[t].target.keys != []
  }

  datatype Attempt = Attempt(target: nat, key: ProviderKey)

  function AttemptsOn(target: nat, keys: seq<ProviderKey>): (r: seq<Attempt>)
    ensures |r| == |keys| && forall j :: 0 <= j < |r| ==> r[j] == Attempt(target, keys[j])
  {
    seq(|keys|, j requires 0 <= j < |keys| => Attempt(target, keys[j]))
  }

  /** Every (target, key) pair, in lexicographic order. */
  function Pairs(plan: seq<Planned>): seq<Attempt> {
    if plan == [] then []
    else Pairs(plan[..|plan| - 1]) + AttemptsOn(|plan| - 1, plan[|plan| - 1].target.keys)
  }

  lemma {:induction false} PairsPrefix(plan: seq<Planned>, t: nat)
    requires t <= |plan|
    ensures Pairs(plan[..t]) <= Pairs(plan)
  {
    if t == |plan| {
      assert plan[..t] == plan;
    } else {
      PairsPrefix(plan[..|plan| - 1], t);
      assert plan[..|plan| - 1][..t] == plan[..t];
    }
  }

  lemma PairAt(plan: seq<Planned>, t: nat, j: nat)
    requires t < |plan| && j < |plan[t].target.keys|
    ensures |Pairs(plan[..t])| + j < |Pairs(plan)|
    ensures Pairs(plan)[|Pairs(plan[..t])| + j] == Attempt(t, plan[t].target.keys[j])
  {
    PairsPrefix(plan, t + 1);
    assert plan[..t + 1][..t] == plan[..t];
  }

  // ----- The account -----

  datatype Entry =
    | StartRequest(attempt: Attempt)
    | StartAttempt(number: nat, attempt: Attempt)
    | FinishAttempt(number: nat, end: End, ms: nat)
    | FinishRequest(end: End, ttft: Option<nat>, upstreamMS: nat)

  function Total(script: Script, n: nat): nat {
    if n == 0 then 0 else Total(script, n - 1) + Duration(script(n))
  }

  /** The delay to the first byte any attempt delivered. */
  function FirstByteDelay(script: Script, startedAt: int, n: nat): Option<nat> {
    if n == 0 then None
    else
      var before := FirstByteDelay(script, startedAt, n - 1);
      if before.Some? || script(n).Unreadable? || script(n).firstByte.None? then before
      else Some(Millis(script(n).firstByte.value - startedAt))
  }

  /** The failover status of the latest attempt that had one. */
  function LastStatus(script: Script, n: nat): int {
    if n == 0 then BAD_GATEWAY
    else if script(n).Proxied? && FailsOver(script(n)) then script(n).error.value.upstream.value
    else LastStatus(script, n - 1)
  }

  function StartOf(pairs: seq<Attempt>, n: nat): Entry
    requires 0 < n <= |pairs|
  {
    if n == 1 then StartRequest(pairs[0]) else StartAttempt(n, pairs[n - 1])
  }

  /** The account of the first `n` attempts. */
  function AttemptLog(pairs: seq<Attempt>, script: Script, n: nat): seq<Entry>
    requires n <= |pairs|
  {
    if n == 0 then []
    else
      var end := FinishAttempt(n, EndOf(script(n)), Duration(script(n)));
      AttemptLog(pairs, script, n - 1) + [StartOf(pairs, n)] + [end]
  }

  /** How the request ends when its last attempt is the n-th. */
  function RequestEnd(script: Script, n: nat): End
    requires n > 0
  {
    if FailsOver(script(n)) then End(Some(LastStatus(script, n)), false, Classify(FailureOf(script(n)).value))
    else EndOf(script(n))
  }

  function Closing(script: Script, startedAt: int, n: nat): Entry
    requires n > 0
  {
    FinishRequest(RequestEnd(script, n), FirstByteDelay(script, startedAt, n), Total(script, n))
  }

  // ----- What the client is sent -----

  /** A call that reached the client, by the attempt it came from; 0 is the gateway itself. */
  datatype Sent = Sent(author: nat, call: WriterCall)

  /** A body written first implies a 200 header. */
  function Forwarded(author: nat, calls: seq<WriterCall>): seq<Sent> {
    if calls == [] then []
    else
      (if calls[0].WriteHeader? then [] else [Sent(author, WriteHeader(200))]) + Signed(author, calls)
  }

  function Signed(author: nat, calls: seq<WriterCall>): (r: seq<Sent>)
    ensures |r| == |calls| && forall i :: 0 <= i < |r| ==> r[i] == Sent(author, calls[i])
  {
    seq(|calls|, i requires 0 <= i < |calls| => Sent(author, calls[i]))
  }

  lemma SignedSnoc(author: nat, calls: seq<WriterCall>, call: WriterCall)
    ensures Signed(author, calls + [call]) == Signed(author, calls) + [Sent(author, call)]
  {
  }

  function OwnStatus(targets: nat, script: Script, n: nat): int
    requires n > 0
  {
    if FailsOver(script(n)) then
      var status := LastStatus(script, n);
      if targets > 1 && status == BAD_GATEWAY then UNAVAILABLE else status
    else if script(n).Proxied? && script(n).error.Some? then ClientStatusForUpstream(script(n).error.value, BAD_GATEWAY)
    else 200
  }

  /** All the client gets when the last attempt is the n-th. */
  function Response(targets: nat, script: Script, n: nat): seq<Sent>
    requires n > 0
  {
    var last := script(n);
    if last.Proxied? && (last.error.None? || CommittedOrCanceled(last.error.value, last.calls))
      then Forwarded(n, last.calls)
    else [Sent(0, WriteHeader(OwnStatus(targets, script, n)))]
  }

  // ----- What each attempt sends upstream -----

  datatype Prompting = Prompting(protocol: Protocol, globalPrompt: string, caveman: string)

  /** The translated body and the client's own, for one target. */
  datatype Bodies = Bodies(body: Body, rawBody: Body)

  datatype UpstreamCall = UpstreamCall(attempt: Attempt, bodies: Bodies)

  /** The attempts whose secret could be read. */
  function Called(pairs: seq<Attempt>, script: Script, n: nat): seq<Attempt>
    requires n <= |pairs|
  {
    if n == 0 then []
    else Called(pairs, script, n - 1) + if script(n).Unreadable? then [] else [pairs[n - 1]]
  }

  function AttemptsOf(calls: seq<UpstreamCall>): (r: seq<Attempt>)
    ensures |r| == |calls| && forall i :: 0 <= i < |r| ==> r[i] == calls[i].attempt
  {
    seq(|calls|, i requires 0 <= i < |calls| => calls[i].attempt)
  }

  // ----- The objects -----

  class ClientConnection {
    var sent: seq<Sent>

    constructor ()
      ensures sent == []
    {
      sent := [];
    }
  }

  class StatusWriter {
    const client: ClientConnection
    const author: nat
    var committed: bool
    var status: int

    constructor (client: ClientConnection, author: nat)
      ensures this.client == client && this.author == author && !committed
    {
      this.client, this.author, committed, status := client, author, false, 0;
    }

    method WriteHeader(status: int)
      modifies this, client
      ensures committed && this.status == if old(committed) then old(this.status) else status
      ensures client.sent == old(client.sent) + [Sent(author, WriterCall.WriteHeader(status))]
    {
      if !committed { committed, this.status := true, status; }
      client.sent := client.sent + [Sent(author, WriterCall.WriteHeader(status))];
    }

    method Pass(call: WriterCall)
      requires !call.WriteHeader?
      modifies this, client
      ensures committed && status == if old(committed) then old(status) else 200
      ensures client.sent ==
        old(client.sent) + (if old(committed) then [] else [Sent(author, WriterCall.WriteHeader(200))]) +
          [Sent(author, call)]
    {
      if !committed { WriteHeader(200); }
      client.sent := client.sent + [Sent(author, call)];
    }

    method Take(call: WriterCall)
      modifies this, client
      ensures committed && status == if old(committed) then old(status) else FirstStatus([call])
      ensures client.sent == old(client.sent) + Passed(author, old(committed), call)
    {
      match call
      case WriteHeader(s) => WriteHeader(s);
      case _ => Pass(call);
    }

    /** The proxy's calls, one after the other. */
    method Drive(calls: seq<WriterCall>)
      requires !committed
      modifies this, client
      ensures committed <==> calls != []
      ensures committed ==> status == FirstStatus(calls)
      ensures client.sent == old(client.sent) + Forwarded(author, calls)
    {
      for i := 0 to |calls|
        invariant committed <==> i > 0
        invariant committed ==> status == FirstStatus(calls)
        invariant client.sent == old(client.sent) + Forwarded(author, calls[..i])
      {
        Take(calls[i]);
        ForwardedSnoc(author, calls[..i], calls[i]);
        assert calls[..i + 1] == calls[..i] + [calls[i]];
        Assoc(old(client.sent), Forwarded(author, calls[..i]), Passed(author, i > 0, calls[i]));
      }
      assert calls[..|calls|] == calls;
    }
  }

  /** What one more call adds to what the client gets. */
  function Passed(author: nat, committed: bool, call: WriterCall): seq<Sent> {
    if committed || call.WriteHeader? then [Sent(author, call)]
      else [Sent(author, WriteHeader(200)), Sent(author, call)]
  }

  lemma ForwardedSnoc(author: nat, calls: seq<WriterCall>, call: WriterCall)
    ensures Forwarded(author, calls + [call]) == Forwarded(author, calls) + Passed(author, calls != [], call)
  {
    SignedSnoc(author, calls, call);
    if calls != [] {
      assert (calls + [call])[0] == calls[0];
      var head := if calls[0].WriteHeader? then [] else [Sent(author, WriteHeader(200))];
      Assoc(head, Signed(author, calls), [Sent(author, call)]);
    }
  }

  /** What the telemetry of a request holds. */
  datatype Account = Account(log: seq<Entry>, upstreamMS: nat, ttft: Option<nat>)

  class GatewayTelemetry {
    const startedAt: int
    var upstreamMS: nat
    var ttftMS: Option<nat>
    var log: seq<Entry>

    function View(): Account
      reads this
    {
      Account(log, upstreamMS, ttftMS)
    }

    constructor (startedAt: int, first: Attempt)
      ensures this.startedAt == startedAt && View() == Account([StartRequest(first)], 0, None)
    {
      this.startedAt, upstreamMS, ttftMS, log := startedAt, 0, None, [StartRequest(first)];
    }

    method RecordAttemptStart(number: nat, attempt: Attempt)
      modifies this`log
      ensures log == old(log) + [StartAttempt(number, attempt)]
    {
      log := log + [StartAttempt(number, attempt)];
    }

    /** The running total skips what is not positive, the record's own duration is 0 there: they agree. */
    method RecordAttemptFinish(number: nat, end: End, start: int, completed: int)
      modifies this`log, this`upstreamMS
      ensures log == old(log) + [FinishAttempt(number, end, Millis(completed - start))]
      ensures upstreamMS == old(upstreamMS) + Millis(completed - start)
    {
      var ms := if completed < start then -((start - completed) / 1_000_000) else (completed - start) / 1_000_000;
      if ms > 0 { upstreamMS := upstreamMS + ms; }
      log := log + [FinishAttempt(number, end, if completed < start then 0 else (completed - start) / 1_000_000)];
    }

    method NoteFirstByte(first: int)
      modifies this`ttftMS
      ensures ttftMS == if old(ttftMS).Some? then old(ttftMS) else Some(Millis(first - startedAt))
    {
      if ttftMS.Some? { return; }
      var ms := first - startedAt;
      ttftMS := Some(if ms < 0 then 0 else ms / 1_000_000);
    }

    method RecordRequestFinish(end: End)
      modifies this`log
      ensures log == old(log) + [FinishRequest(end, ttftMS, upstreamMS)]
    {
      log := log + [FinishRequest(end, ttftMS, upstreamMS)];
    }

    method FinishSuccess(number: nat, tracked: StatusWriter, ghost calls: seq<WriterCall>, start: int, completed: int)
      requires tracked.committed <==> calls != []
      requires tracked.committed ==> tracked.status == FirstStatus(calls)
      modifies this`log, this`upstreamMS
      ensures upstreamMS == old(upstreamMS) + Millis(completed - start)
      ensures
        log == old(log) + [FinishAttempt(number, SuccessEnd(calls), Millis(completed - start)),
          FinishRequest(SuccessEnd(calls), ttftMS, upstreamMS)]
    {
      var status200 := 200;
      if tracked.committed && 200 <= tracked.status <= 299 { status200 := tracked.status; }
      RecordAttemptFinish(number, End(Some(status200), true, NoError), start, completed);
      RecordRequestFinish(End(Some(status200), true, NoError));
    }

    method FinishCommittedOrCanceled(number: nat, e: Failure, tracked: StatusWriter, ghost calls: seq<WriterCall>,
        start: int, completed: int)
      requires tracked.committed <==> calls != []
      requires tracked.committed ==> tracked.status == FirstStatus(calls)
      modifies this`log, this`upstreamMS
      ensures upstreamMS == old(upstreamMS) + Millis(completed - start)
      ensures
        var end := CommittedOrCanceledEnd(e, calls);
        log == old(log) + [FinishAttempt(number, end, Millis(completed - start)),
          FinishRequest(end, ttftMS, upstreamMS)]
    {
      var category := Classify(e);
      var clientStatus := 500;
      var httpStatus: Option<int> := None;
      if tracked.committed {
        clientStatus := tracked.status;
        httpStatus := Some(clientStatus);
      }
      if httpStatus.None? || category == Auth || category == RateLimit || category == Upstream || category == Server {
        httpStatus := Some(ClientStatusForUpstream(e, clientStatus));
      }
      RecordAttemptFinish(number, End(httpStatus, false, category), start, completed);
      RecordRequestFinish(End(httpStatus, false, category));
    }
  }

  // ----- The loop -----

  /** What the gateway does with an attempt once the proxy has returned. */
  method Settle(n: nat, turn: Turn, tracked: StatusWriter, rec: GatewayTelemetry, client: ClientConnection)
    returns (failedOver: bool)
    requires turn.Proxied? && tracked.client == client
    requires tracked.committed <==> turn.calls != []
    requires tracked.committed ==> tracked.status == FirstStatus(turn.calls)
    modifies rec`log, rec`upstreamMS, client
    ensures failedOver <==> FailsOver(turn)
    ensures rec.upstreamMS == old(rec.upstreamMS) + Duration(turn)
    ensures
      rec.log == old(rec.log) + [FinishAttempt(n, EndOf(turn), Duration(turn))]
        + if failedOver then [] else [FinishRequest(EndOf(turn), rec.ttftMS, rec.upstreamMS)]
    ensures client.sent == old(client.sent) + OwnReply(turn)
  {
    if turn.error.None? {
      rec.FinishSuccess(n, tracked, turn.calls, turn.start, turn.end);
      return false;
    }
    var e := turn.error.value;
    if tracked.committed || e.canceled || e.matchesContext {
      rec.FinishCommittedOrCanceled(n, e, tracked, turn.calls, turn.start, turn.end);
      return false;
    }
    if e.upstream.Some? && IsFailoverStatus(e.upstream.value) {
      rec.RecordAttemptFinish(n, End(e.upstream, false, Classify(e)), turn.start, turn.end);
      return true;
    }
    var statusVal := ClientStatusForUpstream(e, BAD_GATEWAY);
    rec.RecordAttemptFinish(n, End(Some(statusVal), false, Classify(e)), turn.start, turn.end);
    rec.RecordRequestFinish(End(Some(statusVal), false, Classify(e)));
    client.sent := client.sent + [Sent(0, WriteHeader(statusVal))];
    return false;
  }

  /** What the gateway itself writes when a request ends with this attempt before all keys are spent. */
  function OwnReply(turn: Turn): seq<Sent>
    requires turn.Proxied?
  {
    if turn.error.None? || CommittedOrCanceled(turn.error.value, turn.calls) || FailsOver(turn) then []
    else [Sent(0, WriteHeader(ClientStatusForUpstream(turn.error.value, BAD_GATEWAY)))]
  }

  /** The account after one more attempt; the start of the first is written ahead. */
  function Accounted(a: Account, n: nat, attempt: Attempt, turn: Turn, startedAt: int): Account {
    var started := if n > 1 then a.log + [StartAttempt(n, attempt)] else a.log;
    var ttft := if a.ttft.Some? || turn.Unreadable? || turn.firstByte.None? then a.ttft
      else Some(Millis(turn.firstByte.value - startedAt));
    var total := a.upstreamMS + Duration(turn);
    Account(started + [FinishAttempt(n, EndOf(turn), Duration(turn))] +
      (if FailsOver(turn) then [] else [FinishRequest(EndOf(turn), ttft, total)]),
            total, ttft)
  }

  /** What reaches the client during one attempt. */
  function Reply(n: nat, turn: Turn): seq<Sent> {
    if turn.Unreadable? then [] else Forwarded(n, turn.calls) + OwnReply(turn)
  }

  method TryKey(n: nat, attempt: Attempt, turn: Turn, rec: GatewayTelemetry, client: ClientConnection)
    returns (failedOver: bool)
    modifies rec, client
    ensures failedOver <==> FailsOver(turn)
    ensures rec.View() == Accounted(old(rec.View()), n, attempt, turn, rec.startedAt)
    ensures client.sent == old(client.sent) + Reply(n, turn)
  {
    if n > 1 { rec.RecordAttemptStart(n, attempt); }
    if turn.Unreadable? {
      rec.RecordAttemptFinish(n, End(None, false, Internal), turn.start, turn.end);
      return true;
    }
    var tracked := new StatusWriter(client, n);
    tracked.Drive(turn.calls);
    if turn.firstByte.Some? { rec.NoteFirstByte(turn.firstByte.value); }
    failedOver := Settle(n, turn, tracked, rec, client);
  }

  /** What the client asked for, where it can go, and what will happen. */
  datatype Job = Job(plan: seq<Planned>, body: Body, rawBody: Body, prompting: Prompting, script: Script,
      startedAt: int)

  function LayersFor(prompting: Prompting, planned: Planned): seq<Layer> {
    Layers(prompting.globalPrompt, planned.suppressed, planned.segments, prompting.caveman)
  }

  /** The client's bodies, layered for one target; no other target plays a part. */
  function BodiesOf(job: Job, t: nat): Bodies
    requires t < |job.plan|
  {
    var planned, p := job.plan[t], job.prompting;
    var body, raw := job.body.(model := planned.target.route.name), job.rawBody.(model := planned.target.route.name);
    Bodies(Layered(body, p.protocol, LayersFor(p, planned)),
           if p.protocol.Anthropic? then Layered(raw, p.protocol, LayersFor(p, planned)) else raw)
  }

  /** Everything that has been accumulated after some attempts. */
  datatype State = State(account: Account, lastStatus: int, sent: seq<Sent>, calls: seq<UpstreamCall>)

  function Next(s: State, n: nat, turn: Turn, startedAt: int, call: UpstreamCall): State {
    State(Accounted(s.account, n, call.attempt, turn, startedAt),
          if turn.Proxied? && FailsOver(turn) then turn.error.value.upstream.value else s.lastStatus,
          s.sent + Reply(n, turn),
          if turn.Unreadable? then s.calls else s.calls + [call])
  }

  /** The state after the first `n` of the calls that are planned. */
  ghost function StateAfter(s: State, planned: seq<UpstreamCall>, script: Script, startedAt: int, n: nat): State
    requires n <= |planned|
  {
    if n == 0 then s
    else Next(StateAfter(s, planned, script, startedAt, n - 1), n, script(n), startedAt, planned[n - 1])
  }

  ghost predicate StepAt(states: seq<State>, planned: seq<UpstreamCall>, script: Script, startedAt: int, n: int)
    requires |states| == |planned| + 1 && 0 < n <= |planned|
  {
    states[n] == Next(states[n - 1], n, script(n), startedAt, planned[n - 1])
  }

  /** The states before and after each of the calls that are planned, were they all to be made. */
  ghost predicate Traced(states: seq<State>, planned: seq<UpstreamCall>, script: Script, startedAt: int) {
    && |states| == |planned| + 1
    && forall n :: 0 < n <= |planned| ==> StepAt(states, planned, script, startedAt, n)
  }

  /** The states that follow from a first one. */
  lemma TraceFrom(s: State, planned: seq<UpstreamCall>, script: Script, startedAt: int) returns (states: seq<State>)
    ensures Traced(states, planned, script, startedAt) && states[0] == s
  {
    states := seq(|planned| + 1, n requires 0 <= n <= |planned| => StateAfter(s, planned, script, startedAt, n));
    forall n | 0 < n <= |planned| ensures StepAt(states, planned, script, startedAt, n) {
      assert states[n] == StateAfter(s, planned, script, startedAt, n);
      assert states[n - 1] == StateAfter(s, planned, script, startedAt, n - 1);
    }
  }

  /** The first `n` attempts all failed over. */
  ghost predicate AllFailOver(script: Script, n: nat) {
    n == 0 || (AllFailOver(script, n - 1) && FailsOver(script(n)))
  }

  lemma {:induction false} AllFailOverMeans(script: Script, n: nat)
    ensures AllFailOver(script, n) <==> forall i :: 1 <= i <= n ==> FailsOver(script(i))
  {
    if n > 0 { AllFailOverMeans(script, n - 1); }
  }

  /** One attempt with its call. */
  method TryCall(n: nat, turn: Turn, call: UpstreamCall, lastBefore: int, before: seq<UpstreamCall>,
      rec: GatewayTelemetry, client: ClientConnection)
    returns (failedOver: bool, lastHTTPStatus: int, calls: seq<UpstreamCall>)
    modifies rec, client
    ensures failedOver <==> FailsOver(turn)
    ensures State(rec.View(), lastHTTPStatus, client.sent, calls) ==
      Next(State(old(rec.View()), lastBefore, old(client.sent), before), n, turn, rec.startedAt, call)
  {
    lastHTTPStatus, calls := lastBefore, before;
    failedOver := TryKey(n, call.attempt, turn, rec, client);
    if turn.Proxied? {
      calls := calls + [call];
      if failedOver { lastHTTPStatus := turn.error.value.upstream.value; }
    }
  }

  /** The n-th call of those planned. */
  method TryAt(n: nat, script: Script, call: UpstreamCall, ghost planned: seq<UpstreamCall>, ghost states: seq<State>,
      lastBefore: int, callsBefore: seq<UpstreamCall>, rec: GatewayTelemetry, client: ClientConnection)
    returns (failedOver: bool, lastHTTPStatus: int, calls: seq<UpstreamCall>)
    requires 0 < n <= |planned| && call == planned[n - 1] && AllFailOver(script, n - 1)
    requires Traced(states, planned, script, rec.startedAt)
    requires State(rec.View(), lastBefore, client.sent, callsBefore) == states[n - 1]
    modifies rec, client
    ensures State(rec.View(), lastHTTPStatus, client.sent, calls) == states[n]
    ensures if failedOver then AllFailOver(script, n) else !FailsOver(script(n))
  {
    assert StepAt(states, planned, script, rec.startedAt, n);
    failedOver, lastHTTPStatus, calls := TryCall(n, script(n), call, lastBefore, callsBefore, rec, client);
  }

  /** The keys of one target, in order, until one does not fail over. */
  method TryTarget(t: nat, keys: seq<ProviderKey>, bodies: Bodies, script: Script, ghost planned: seq<UpstreamCall>,
      ghost states: seq<State>,
      before: nat, lastBefore: int, callsBefore: seq<UpstreamCall>, rec: GatewayTelemetry, client: ClientConnection)
    returns (n: nat, lastHTTPStatus: int, calls: seq<UpstreamCall>, ended: bool)
    requires
      Traced(states, planned, script, rec.startedAt) && AllFailOver(script, before) &&
        PlannedOn(planned, before, t, keys, bodies)
    requires State(rec.View(), lastBefore, client.sent, callsBefore) == states[before]
    modifies rec, client
    ensures n <= |planned| && State(rec.View(), lastHTTPStatus, client.sent, calls) == states[n]
    ensures if ended then before < n && AllFailOver(script, n - 1) && !FailsOver(script(n))
      else n == before + |keys| && AllFailOver(script, n)
  {
    n, lastHTTPStatus, calls := before, lastBefore, callsBefore;
    for j := 0 to |keys|
      invariant n == before + j && AllFailOver(script, n)
      invariant State(rec.View(), lastHTTPStatus, client.sent, calls) == states[n]
    {
      n := n + 1;
      var call := UpstreamCall(Attempt(t, keys[j]), bodies);
      var failedOver;
      failedOver, lastHTTPStatus, calls := TryAt(n, script, call, planned, states, lastHTTPStatus, calls, rec, client);
      if !failedOver { return n, lastHTTPStatus, calls, true; }
    }
    ended := false;
  }

  lemma {:induction false} PairsOnPlan(plan: seq<Planned>)
    ensures forall i :: 0 <= i < |Pairs(plan)| ==> Pairs(plan)[i].target < |plan|
  {
    if plan != [] { PairsOnPlan(plan[..|plan| - 1]); }
  }

  lemma PairsGrow(plan: seq<Planned>, t: nat)
    requires t < |plan|
    ensures |Pairs(plan[..t + 1])| == |Pairs(plan[..t])| + |plan[t].target.keys|
    ensures |Pairs(plan[..t + 1])| <= |Pairs(plan)|
  {
    assert plan[..t + 1][..t] == plan[..t];
    PairsPrefix(plan, t + 1);
  }

  /** The bodies of every target. */
  ghost predicate Prepared(job: Job, bodies: seq<Bodies>) {
    |bodies| == |job.plan| && forall t {:trigger BodiesOf(job, t)} :: 0 <= t < |bodies| ==>
      bodies[t] == BodiesOf(job, t)
  }

  /** The calls of all attempts, were they all to be made. */
  ghost function PlannedCalls(plan: seq<Planned>, bodies: seq<Bodies>): (r: seq<UpstreamCall>)
    requires |bodies| == |plan|
    ensures |r| == |Pairs(plan)|
    ensures
      forall i :: 0 <= i < |r| ==>
        Pairs(plan)[i].target < |plan| && r[i] == UpstreamCall(Pairs(plan)[i], bodies[Pairs(plan)[i].target])
  {
    PairsOnPlan(plan);
    seq(|Pairs(plan)|, i requires 0 <= i < |Pairs(plan)| => UpstreamCall(Pairs(plan)[i], bodies[Pairs(plan)[i].target]))
  }

  /** The calls planned for the keys of one target all have its bodies. */
  ghost predicate PlannedOn(planned: seq<UpstreamCall>, before: nat, t: nat, keys: seq<ProviderKey>, bodies: Bodies) {
    && before + |keys| <= |planned|
    && forall j :: 0 <= j < |keys| ==> planned[before + j] == UpstreamCall(Attempt(t, keys[j]), bodies)
  }

  lemma PlannedFor(plan: seq<Planned>, bodies: seq<Bodies>, t: nat)
    requires |bodies| == |plan| && t < |plan|
    ensures |Pairs(plan[..t + 1])| == |Pairs(plan[..t])| + |plan[t].target.keys|
    ensures PlannedOn(PlannedCalls(plan, bodies), |Pairs(plan[..t])|, t, plan[t].target.keys, bodies[t])
  {
    PairsGrow(plan, t);
    var planned, before, keys := PlannedCalls(plan, bodies), |Pairs(plan[..t])|, plan[t].target.keys;
    forall j: nat | j < |keys| ensures planned[before + j] == UpstreamCall(Attempt(t, keys[j]), bodies[t]) {
      PairAt(plan, t, j);
    }
  }

  /** The bodies for one target, rebuilt from those of the client. */
  method PrepareBodies(job: Job, t: nat, ghost bodies: seq<Bodies>) returns (prepared: Bodies)
    requires t < |job.plan| && Prepared(job, bodies)
    ensures prepared == bodies[t]
  {
    var planned, p := job.plan[t], job.prompting;
    var sentBody, sentRaw := InjectPromptSegments(
      job.body.(model := planned.target.route.name), job.rawBody.(model := planned.target.route.name),
      p.protocol, p.globalPrompt, planned.suppressed, planned.segments, p.caveman);
    prepared := Bodies(sentBody, sentRaw);
    assert prepared == BodiesOf(job, t);
  }

  /** One target: its bodies, and its keys with them. */
  method TryNext(job: Job, ghost bodies: seq<Bodies>, ghost planned: seq<UpstreamCall>, ghost states: seq<State>,
      t: nat, before: nat, lastBefore: int, callsBefore: seq<UpstreamCall>, rec: GatewayTelemetry,
      client: ClientConnection)
    returns (n: nat, lastHTTPStatus: int, calls: seq<UpstreamCall>, ended: bool)
    requires t < |job.plan| && Prepared(job, bodies) && planned == PlannedCalls(job.plan, bodies)
    requires before == |Pairs(job.plan[..t])| <= |planned|
    requires Traced(states, planned, job.script, rec.startedAt) && AllFailOver(job.script, before)
    requires State(rec.View(), lastBefore, client.sent, callsBefore) == states[before]
    modifies rec, client
    ensures n <= |planned| && State(rec.View(), lastHTTPStatus, client.sent, calls) == states[n]
    ensures if ended then n > 0 && AllFailOver(job.script, n - 1) && !FailsOver(job.script(n))
      else n == |Pairs(job.plan[..t + 1])| && AllFailOver(job.script, n)
  {
    var prepared := PrepareBodies(job, t, bodies);
    PlannedFor(job.plan, bodies, t);
    n, lastHTTPStatus, calls, ended :=
      TryTarget(t, job.plan[t].target.keys, prepared, job.script, planned, states, before, lastBefore, callsBefore,
        rec, client);
  }

  /** All targets in order, until an attempt does not fail over; `n` is the number of the last attempt. */
  method TryPlan(job: Job, ghost bodies: seq<Bodies>, ghost planned: seq<UpstreamCall>, ghost states: seq<State>,
      rec: GatewayTelemetry, client: ClientConnection)
    returns (n: nat, lastHTTPStatus: int, calls: seq<UpstreamCall>, ended: bool)
    requires
      Prepared(job, bodies) && planned == PlannedCalls(job.plan, bodies) &&
        Traced(states, planned, job.script, rec.startedAt)
    requires State(rec.View(), BAD_GATEWAY, client.sent, []) == states[0]
    modifies rec, client
    ensures n <= |planned| && State(rec.View(), lastHTTPStatus, client.sent, calls) == states[n]
    ensures if ended then n > 0 && AllFailOver(job.script, n - 1) && !FailsOver(job.script(n))
      else n == |planned| && AllFailOver(job.script, n)
  {
    n, lastHTTPStatus, calls, ended := 0, BAD_GATEWAY, [], false;
    for t := 0 to |job.plan|
      invariant n == |Pairs(job.plan[..t])| && n <= |planned| && AllFailOver(job.script, n)
      invariant State(rec.View(), lastHTTPStatus, client.sent, calls) == states[n]
    {
      n, lastHTTPStatus, calls, ended :=
        TryNext(job, bodies, planned, states, t, n, lastHTTPStatus, calls, rec, client);
      if ended { return; }
    }
    assert job.plan[..|job.plan|] == job.plan;
  }

  /** Every key has failed over. */
  method Exhausted(targets: nat, failure: Failure, lastHTTPStatus: int, rec: GatewayTelemetry, client: ClientConnection)
    modifies rec, client
    ensures
      var end := End(Some(lastHTTPStatus), false, Classify(failure));
      rec.log == old(rec.log) + [FinishRequest(end, old(rec.ttftMS), old(rec.upstreamMS))]
    ensures
      var status := if targets > 1 && lastHTTPStatus == BAD_GATEWAY then UNAVAILABLE else lastHTTPStatus;
      client.sent == old(client.sent) + [Sent(0, WriteHeader(status))]
  {
    rec.RecordRequestFinish(End(Some(lastHTTPStatus), false, Classify(failure)));
    var status := lastHTTPStatus;
    if targets > 1 && status == BAD_GATEWAY { status := UNAVAILABLE; }
    client.sent := client.sent + [Sent(0, WriteHeader(status))];
  }

  /** The account of a request that has ended with its n-th attempt. */
  ghost predicate Ended(rec: GatewayTelemetry, pairs: seq<Attempt>, script: Script, n: nat)
    requires 0 < n <= |pairs|
    reads rec
  {
    rec.log == AttemptLog(pairs, script, n) + [Closing(script, rec.startedAt, n)]
  }

  /** Every call has the bodies of its own target. */
  ghost predicate BodiesFit(calls: seq<UpstreamCall>, bodies: seq<Bodies>) {
    forall i :: 0 <= i < |calls| ==>
      calls[i].attempt.target < |bodies| && calls[i].bodies == bodies[calls[i].attempt.target]
  }

  /** What has been accumulated while every attempt failed over. */
  ghost predicate Failing(planned: seq<UpstreamCall>, script: Script, startedAt: int, n: nat, s: State)
    requires 0 < |planned| && n <= |planned|
  {
    && s.account.log ==
         (if n == 0 then [StartRequest(planned[0].attempt)] else AttemptLog(AttemptsOf(planned), script, n))
    && s.account.upstreamMS == Total(script, n) && s.account.ttft == FirstByteDelay(script, startedAt, n)
    && s.lastStatus == LastStatus(script, n) && s.sent == []
  }

  lemma {:induction false} FailingState(states: seq<State>, planned: seq<UpstreamCall>, script: Script, startedAt: int,
      n: nat)
    requires Traced(states, planned, script, startedAt) && 0 < |planned| && n <= |planned| && AllFailOver(script, n)
    requires Failing(planned, script, startedAt, 0, states[0])
    ensures Failing(planned, script, startedAt, n, states[n])
  {
    if n > 0 {
      FailingState(states, planned, script, startedAt, n - 1);
      assert StepAt(states, planned, script, startedAt, n);
      FailingNext(planned, script, startedAt, n, states[n - 1]);
    }
  }

  /** One attempt adds its start, unless that was written ahead, and its finish. */
  lemma LogNext(pairs: seq<Attempt>, script: Script, n: nat, a: Account, startedAt: int)
    requires 0 < n <= |pairs|
    requires a.log == if n == 1 then [StartRequest(pairs[0])] else AttemptLog(pairs, script, n - 1)
    ensures
      var a' := Accounted(a, n, pairs[n - 1], script(n), startedAt);
      var closing := [FinishRequest(EndOf(script(n)), a'.ttft, a'.upstreamMS)];
      a'.log == AttemptLog(pairs, script, n) + if FailsOver(script(n)) then [] else closing
  {
    if n == 1 { assert AttemptLog(pairs, script, 0) + [StartOf(pairs, 1)] == [StartRequest(pairs[0])]; }
  }

  lemma FailingNext(planned: seq<UpstreamCall>, script: Script, startedAt: int, n: nat, s: State)
    requires 0 < n <= |planned| && Failing(planned, script, startedAt, n - 1, s) && FailsOver(script(n))
    ensures Failing(planned, script, startedAt, n, Next(s, n, script(n), startedAt, planned[n - 1]))
  {
    LogNext(AttemptsOf(planned), script, n, s.account, startedAt);
  }

  lemma ClosingIs(a: Account, attempt: Attempt, script: Script, startedAt: int, n: nat)
    requires
      n > 0 && a.upstreamMS == Total(script, n - 1) && a.ttft == FirstByteDelay(script, startedAt, n - 1) &&
        !FailsOver(script(n))
    ensures
      var a' := Accounted(a, n, attempt, script(n), startedAt);
      Closing(script, startedAt, n) == FinishRequest(EndOf(script(n)), a'.ttft, a'.upstreamMS)
  {
  }

  lemma EndingLog(pairs: seq<Attempt>, script: Script, startedAt: int, n: nat, a: Account)
    requires 0 < n <= |pairs| && !FailsOver(script(n))
    requires a.log == if n == 1 then [StartRequest(pairs[0])] else AttemptLog(pairs, script, n - 1)
    requires a.upstreamMS == Total(script, n - 1) && a.ttft == FirstByteDelay(script, startedAt, n - 1)
    ensures
      Accounted(a, n, pairs[n - 1], script(n), startedAt).log == AttemptLog(pairs, script, n) +
        [Closing(script, startedAt, n)]
  {
    LogNext(pairs, script, n, a, startedAt);
    ClosingIs(a, pairs[n - 1], script, startedAt, n);
  }

  lemma EndingNext(planned: seq<UpstreamCall>, targets: nat, script: Script, startedAt: int, n: nat, s: State)
    requires 0 < n <= |planned| && Failing(planned, script, startedAt, n - 1, s) && !FailsOver(script(n))
    ensures
      var s' := Next(s, n, script(n), startedAt, planned[n - 1]);
      && s'.account.log == AttemptLog(AttemptsOf(planned), script, n) + [Closing(script, startedAt, n)]
      && s'.sent == Response(targets, script, n)
  {
    EndingLog(AttemptsOf(planned), script, startedAt, n, s.account);
    ReplyEnds(targets, script, n);
  }

  lemma ReplyEnds(targets: nat, script: Script, n: nat)
    requires n > 0 && !FailsOver(script(n))
    ensures [] + Reply(n, script(n)) == Response(targets, script, n)
  {
  }

  /** The calls of one state after those of the one before. */
  lemma TraceCalls(states: seq<State>, planned: seq<UpstreamCall>, script: Script, startedAt: int, n: nat)
    requires Traced(states, planned, script, startedAt) && 0 < n <= |planned|
    ensures
      states[n].calls == if script(n).Unreadable? then states[n - 1].calls else states[n - 1].calls + [planned[n - 1]]
  {
    assert StepAt(states, planned, script, startedAt, n);
  }

  /** The calls made: those of the attempts with a readable secret, each with the bodies of its own target. */
  lemma {:induction false} CallsOfState(plan: seq<Planned>, bodies: seq<Bodies>, states: seq<State>,
      planned: seq<UpstreamCall>, script: Script, startedAt: int, n: nat)
    requires |bodies| == |plan| && planned == PlannedCalls(plan, bodies)
    requires Traced(states, planned, script, startedAt) && n <= |planned| && states[0].calls == []
    ensures AttemptsOf(states[n].calls) == Called(Pairs(plan), script, n) && BodiesFit(states[n].calls, bodies)
  {
    if n > 0 {
      CallsOfState(plan, bodies, states, planned, script, startedAt, n - 1);
      TraceCalls(states, planned, script, startedAt, n);
      var call := planned[n - 1];
      assert call.attempt == Pairs(plan)[n - 1] && BodiesFit([call], bodies);
      CallsNext(Pairs(plan), bodies, script, n, states[n - 1].calls, call);
    }
  }

  lemma CallsNext(pairs: seq<Attempt>, bodies: seq<Bodies>, script: Script, n: nat, before: seq<UpstreamCall>,
      call: UpstreamCall)
    requires 0 < n <= |pairs| && call.attempt == pairs[n - 1]
    requires AttemptsOf(before) == Called(pairs, script, n - 1)
    requires BodiesFit(before, bodies) && BodiesFit([call], bodies)
    ensures
      var calls := if script(n).Unreadable? then before else before + [call];
      AttemptsOf(calls) == Called(pairs, script, n) && BodiesFit(calls, bodies)
  {
    CalledNext(pairs, script, n, before, call);
    BodiesFitAppend(before, [call], bodies);
  }

  lemma CalledNext(pairs: seq<Attempt>, script: Script, n: nat, before: seq<UpstreamCall>, call: UpstreamCall)
    requires 0 < n <= |pairs| && AttemptsOf(before) == Called(pairs, script, n - 1) && call.attempt == pairs[n - 1]
    ensures AttemptsOf(if script(n).Unreadable? then before else before + [call]) == Called(pairs, script, n)
  {
    assert AttemptsOf(before + [call]) == AttemptsOf(before) + [call.attempt];
  }

  lemma BodiesFitAppend(a: seq<UpstreamCall>, b: seq<UpstreamCall>, bodies: seq<Bodies>)
    requires BodiesFit(a, bodies) && BodiesFit(b, bodies)
    ensures BodiesFit(a + b, bodies)
  {
  }

  /** Nothing came of the attempt: its secret is unreadable, or the upstream turned the key down, nothing written. */
  ghost predicate TurnedDown(turn: Turn) {
    match turn
    case Unreadable(_, _, _) => true
    case Proxied(calls, None, _, _, _) => false
    case Proxied(calls, Some(e), _, _, _) =>
      calls == [] && !(e.canceled || e.matchesContext) && e.upstream in {Some(401), Some(402), Some(403), Some(429)}
  }

  ghost predicate AllTurnedDown(script: Script, n: nat) {
    forall j :: 1 <= j <= n ==> TurnedDown(script(j))
  }

  lemma TurnedDownFailsOver(turn: Turn)
    ensures TurnedDown(turn) <==> FailsOver(turn)
  {
  }

  lemma GoesOnExactly(script: Script, n: nat, total: nat, i: nat)
    requires 0 < n <= total && (forall j :: 1 <= j < n ==> FailsOver(script(j)))
    requires n < total ==> !FailsOver(script(n))
    requires 1 <= i < total
    ensures i < n <==> AllTurnedDown(script, i)
  {
    forall j ensures TurnedDown(script(j)) <==> FailsOver(script(j)) {
      TurnedDownFailsOver(script(j));
    }
  }

  /**
   * The request, with `n` the number of its last attempt. Every earlier attempt
   * failed over; the last one did not, or was the last of the plan: attempt
   * i + 1 is made exactly if all before it were turned down. Attempts
   * take the pairs of the plan in order; each is called upstream, unless its
   * secret is unreadable, with the bodies of its own target.
   */
  method Serve(job: Job, client: ClientConnection) returns (n: nat, rec: GatewayTelemetry, calls: seq<UpstreamCall>)
    requires UsablePlan(job.plan) && client.sent == []
    modifies client
    ensures 0 < n <= |Pairs(job.plan)|
    ensures forall i :: 1 <= i < n ==> FailsOver(job.script(i))
    ensures n < |Pairs(job.plan)| ==> !FailsOver(job.script(n))
    ensures forall i: nat :: 1 <= i < |Pairs(job.plan)| ==> (i < n <==> AllTurnedDown(job.script, i))
    ensures rec.startedAt == job.startedAt && Ended(rec, Pairs(job.plan), job.script, n)
    ensures client.sent == Response(|job.plan|, job.script, n)
    ensures AttemptsOf(calls) == Called(Pairs(job.plan), job.script, n)
    ensures
      forall i :: 0 <= i < |calls| ==>
        calls[i].attempt.target < |job.plan| && calls[i].bodies == BodiesOf(job, calls[i].attempt.target)
  {
    ghost var bodies := AllBodies(job);
    ghost var planned := PlannedCalls(job.plan, bodies);
    FirstPlanned(job.plan, bodies);
    rec := new GatewayTelemetry(job.startedAt, Attempt(0, job.plan[0].target.keys[0]));
    ghost var states := TraceFrom(State(rec.View(), BAD_GATEWAY, [], []), planned, job.script, job.startedAt);
    var lastHTTPStatus, ended;
    n, lastHTTPStatus, calls, ended := TryPlan(job, bodies, planned, states, rec, client);
    CallsOfState(job.plan, bodies, states, planned, job.script, job.startedAt, n);
    AllFailOverMeans(job.script, if ended then n - 1 else n);
    Conclude(|job.plan|, job.script, planned, states, n, lastHTTPStatus, calls, ended, rec, client);
    FittingBodies(job, bodies, calls);
    forall i: nat | 1 <= i < |Pairs(job.plan)| ensures i < n <==> AllTurnedDown(job.script, i) {
      GoesOnExactly(job.script, n, |Pairs(job.plan)|, i);
    }
  }

  lemma AllBodies(job: Job) returns (bodies: seq<Bodies>)
    ensures Prepared(job, bodies)
  {
    bodies := seq(|job.plan|, t requires 0 <= t < |job.plan| => BodiesOf(job, t));
  }

  lemma FittingBodies(job: Job, bodies: seq<Bodies>, calls: seq<UpstreamCall>)
    requires Prepared(job, bodies) && BodiesFit(calls, bodies)
    ensures
      forall i :: 0 <= i < |calls| ==>
        calls[i].attempt.target < |job.plan| && calls[i].bodies == BodiesOf(job, calls[i].attempt.target)
  {
  }

  lemma FirstPlanned(plan: seq<Planned>, bodies: seq<Bodies>)
    requires UsablePlan(plan) && |bodies| == |plan|
    ensures
      PlannedCalls(plan, bodies) != [] && PlannedCalls(plan, bodies)[0].attempt == Attempt(0, plan[0].target.keys[0])
    ensures AttemptsOf(PlannedCalls(plan, bodies)) == Pairs(plan)
  {
    PairAt(plan, 0, 0);
    assert plan[..0] == [];
  }

  /** The end of the request, after the loop or out of it. */
  method Conclude(targets: nat, script: Script, ghost planned: seq<UpstreamCall>, ghost states: seq<State>, n: nat,
      lastHTTPStatus: int, ghost calls: seq<UpstreamCall>, ended: bool,
                  rec: GatewayTelemetry, client: ClientConnection)
    requires
      Traced(states, planned, script, rec.startedAt) && 0 < n <= |planned| &&
        Failing(planned, script, rec.startedAt, 0, states[0])
    requires State(rec.View(), lastHTTPStatus, client.sent, calls) == states[n]
    requires if ended then AllFailOver(script, n - 1) && !FailsOver(script(n)) else AllFailOver(script, n)
    modifies rec, client
    ensures Ended(rec, AttemptsOf(planned), script, n)
    ensures client.sent == Response(targets, script, n)
  {
    if ended {
      FailingState(states, planned, script, rec.startedAt, n - 1);
      assert StepAt(states, planned, script, rec.startedAt, n);
      EndingNext(planned, targets, script, rec.startedAt, n, states[n - 1]);
    } else {
      FailingState(states, planned, script, rec.startedAt, n);
      Exhausted(targets, FailureOf(script(n)).value, lastHTTPStatus, rec, client);
    }
  }

  // ----- What the account says -----

  /** Every call that reaches the client has the same author: one response at most. */
  lemma OneResponse(targets: nat, script: Script, n: nat)
    requires n > 0
    ensures
      var sent := Response(targets, script, n);
      forall i, j :: 0 <= i < |sent| && 0 <= j < |sent| ==> sent[i].author == sent[j].author
    ensures
      forall i :: 0 <= i < |Response(targets, script, n)| && Response(targets, script, n)[i].author > 0 ==>
        Response(targets, script, n)[i].author == n && script(n).Proxied?
  {
    var last := script(n);
    if last.Proxied? && (last.error.None? || CommittedOrCanceled(last.error.value, last.calls)) {
      ForwardedAuthor(n, last.calls);
    }
  }

  lemma ForwardedAuthor(author: nat, calls: seq<WriterCall>)
    ensures forall i :: 0 <= i < |Forwarded(author, calls)| ==> Forwarded(author, calls)[i].author == author
  {
  }

  function Starts(log: seq<Entry>): seq<(nat, Attempt)> {
    if log == [] then []
    else
      Starts(log[..|log| - 1]) +
        match log[|log| - 1]
        case StartRequest(a) => [(1, a)]
        case StartAttempt(number, a) => [(number, a)]
        case _ => []
  }

  function Finishes(log: seq<Entry>): seq<(nat, End)> {
    if log == [] then []
    else
      Finishes(log[..|log| - 1]) +
        match log[|log| - 1]
        case FinishAttempt(number, end, _) => [(number, end)]
        case _ => []
  }

  function RecordedTime(log: seq<Entry>): nat {
    if log == [] then 0
    else RecordedTime(log[..|log| - 1]) + if log[|log| - 1].FinishAttempt? then log[|log| - 1].ms else 0
  }

  ghost predicate Numbered(starts: seq<(nat, Attempt)>, pairs: seq<Attempt>, n: nat)
    requires n <= |pairs|
  {
    |starts| == n && forall i :: 0 <= i < n ==> starts[i].0 == i + 1 && starts[i].1 == pairs[i]
  }

  ghost predicate FinishedAs(finishes: seq<(nat, End)>, script: Script, n: nat) {
    |finishes| == n && forall i :: 0 <= i < n ==> finishes[i].0 == i + 1 && finishes[i].1 == EndOf(script(i + 1))
  }

  lemma LogStep(before: seq<Entry>, start: Entry, end: Entry, n: nat, attempt: Attempt)
    requires end.FinishAttempt? && start == if n == 1 then StartRequest(attempt) else StartAttempt(n, attempt)
    ensures Starts(before + [start] + [end]) == Starts(before) + [(n, attempt)]
    ensures Finishes(before + [start] + [end]) == Finishes(before) + [(end.number, end.end)]
    ensures RecordedTime(before + [start] + [end]) == RecordedTime(before) + end.ms
  {
    var started := before + [start];
    assert started[..|started| - 1] == before && (started + [end])[..|started|] == started;
  }

  lemma {:induction false} LogStarts(pairs: seq<Attempt>, script: Script, n: nat)
    requires n <= |pairs|
    ensures Numbered(Starts(AttemptLog(pairs, script, n)), pairs, n)
  {
    if n > 0 {
      LogStarts(pairs, script, n - 1);
      LogStep(AttemptLog(pairs, script, n - 1), StartOf(pairs, n),
        FinishAttempt(n, EndOf(script(n)), Duration(script(n))), n, pairs[n - 1]);
    }
  }

  lemma {:induction false} LogFinishes(pairs: seq<Attempt>, script: Script, n: nat)
    requires n <= |pairs|
    ensures FinishedAs(Finishes(AttemptLog(pairs, script, n)), script, n)
  {
    if n > 0 {
      LogFinishes(pairs, script, n - 1);
      LogStep(AttemptLog(pairs, script, n - 1), StartOf(pairs, n),
        FinishAttempt(n, EndOf(script(n)), Duration(script(n))), n, pairs[n - 1]);
    }
  }

  lemma {:induction false} LogTime(pairs: seq<Attempt>, script: Script, n: nat)
    requires n <= |pairs|
    ensures RecordedTime(AttemptLog(pairs, script, n)) == Total(script, n)
  {
    if n > 0 {
      LogTime(pairs, script, n - 1);
      LogStep(AttemptLog(pairs, script, n - 1), StartOf(pairs, n),
        FinishAttempt(n, EndOf(script(n)), Duration(script(n))), n, pairs[n - 1]);
    }
  }

  lemma {:induction false} LogStaysOpen(pairs: seq<Attempt>, script: Script, n: nat)
    requires n <= |pairs|
    ensures forall i :: 0 <= i < |AttemptLog(pairs, script, n)| ==> !AttemptLog(pairs, script, n)[i].FinishRequest?
  {
    if n > 0 { LogStaysOpen(pairs, script, n - 1); }
  }

  /**
   * The account of every request: attempts numbered 1 to n in the order of the
   * plan, each started once and finished once; the request finished once, at
   * the end; no attempt but the last a success, and the request a success
   * exactly when the last attempt is; and the upstream time of the request is
   * the sum of what its attempts record.
   */
  lemma AccountAddsUp(pairs: seq<Attempt>, script: Script, startedAt: int, n: nat)
    requires 0 < n <= |pairs| && forall i :: 1 <= i < n ==> FailsOver(script(i))
    ensures
      var closing := Closing(script, startedAt, n);
      var log := AttemptLog(pairs, script, n) + [closing];
      && Numbered(Starts(log), pairs, n)
      && FinishedAs(Finishes(log), script, n)
      && (forall i :: 0 <= i < |log| ==> (log[i].FinishRequest? <==> i == |log| - 1))
      && (forall i :: 0 <= i < n - 1 ==> !Finishes(log)[i].1.success)
      && closing.end.success == Finishes(log)[n - 1].1.success
      && closing.upstreamMS == RecordedTime(log)
  {
    LogStarts(pairs, script, n);
    LogFinishes(pairs, script, n);
    LogTime(pairs, script, n);
    LogStaysOpen(pairs, script, n);
    var log := AttemptLog(pairs, script, n) + [Closing(script, startedAt, n)];
    assert log[..|log| - 1] == AttemptLog(pairs, script, n);
    forall i | 1 <= i < n ensures !EndOf(script(i)).success {
      assert FailsOver(script(i));
    }
  }

  /** Success is claimed exactly when the proxy returned without an error. */
  lemma SuccessMeansNoError(script: Script, n: nat)
    requires n > 0
    ensures RequestEnd(script, n).success <==> script(n).Proxied? && script(n).error.None?
    ensures RequestEnd(script, n).success <==> RequestEnd(script, n).category == NoError
  {
  }

  lemma {:induction false} NeverCalled(script: Script, n: nat)
    requires forall i :: 1 <= i <= n ==> FailsOver(script(i))
    ensures LastStatus(script, n) == BAD_GATEWAY <==> forall i :: 1 <= i <= n ==> script(i).Unreadable?
    ensures LastStatus(script, n) == BAD_GATEWAY || IsFailoverStatus(LastStatus(script, n))
  {
    if n > 0 {
      NeverCalled(script, n - 1);
      assert FailsOver(script(n));
    }
  }

  /**
   * The gateway answers for itself with the status it records, but for one
   * case: with several targets and not one readable secret it answers 503 and
   * records 502.
   */
  lemma OwnStatusIsRecorded(targets: nat, script: Script, n: nat)
    requires n > 0 && forall i :: 1 <= i < n ==> FailsOver(script(i))
    requires
      || FailsOver(script(n))
      || (&& script(n).Proxied? && script(n).error.Some?
          && !CommittedOrCanceled(script(n).error.value, script(n).calls))
    ensures Response(targets, script, n) == [Sent(0, WriteHeader(OwnStatus(targets, script, n)))]
    ensures
      RequestEnd(script, n).status != Some(OwnStatus(targets, script, n)) <==>
        targets > 1 && forall i :: 1 <= i <= n ==> script(i).Unreadable?
  {
    if FailsOver(script(n)) { NeverCalled(script, n); }
  }

  /** Two targets with one key each, neither readable: 503 is answered, 502 recorded. */
  lemma UnreadableKeysDisagree(failure: Failure) returns (script: Script)
    ensures FailsOver(script(1)) && FailsOver(script(2))
    ensures Response(2, script, 2) == [Sent(0, WriteHeader(UNAVAILABLE))]
    ensures RequestEnd(script, 2).status == Some(BAD_GATEWAY)
  {
    script := (n: nat) => Unreadable(failure, 0, 0);
    assert forall i :: 1 <= i <= 2 ==> FailsOver(script(i));
    NeverCalled(script, 2);
  }
}
