/** What a request comes to, in statuses and times: read off the fields of what happened to its attempts. */
module GatewayProofs {
  import opened Basics
  import opened Gateway
  import opened Prompts
  import opened Routing

  // ----- Categories -----

  /** Which errors are recorded under which category. */
  lemma Categories(e: Failure)
    ensures Classify(e) == Canceled <==> e.canceled || e.deadline
    ensures Classify(e) == Auth <==> !e.canceled && !e.deadline && e.upstream in {Some(401), Some(403)}
    ensures Classify(e) == RateLimit <==> !e.canceled && !e.deadline && e.upstream == Some(429)
    ensures
      Classify(e) == Server <==>
        !e.canceled && !e.deadline && e.upstream.Some? && 500 <= e.upstream.value <= 599
    ensures
      Classify(e) == Upstream <==>
        && !e.canceled && !e.deadline && e.upstream.Some? && 400 <= e.upstream.value <= 499
        && e.upstream.value !in {401, 403, 429}
    ensures
      Classify(e) == Connection <==>
        !e.canceled && !e.deadline && (e.upstream.None? || e.upstream.value < 400 || e.upstream.value > 599)
  {
  }

  // ----- Statuses -----

  /** The status of a first call: its own, or 200 when a body or a flush comes first. */
  predicate Begins(calls: seq<WriterCall>, status: int) {
    && calls != []
    && match calls[0]
       case WriteHeader(s) => status == s
       case _ => status == 200
  }

  /** The calls of one attempt as they reach the client. */
  ghost predicate PassedOn(sent: seq<Sent>, author: nat, calls: seq<WriterCall>) {
    var implied := if calls == [] || calls[0].WriteHeader? then 0 else 1;
    && |sent| == |calls| + implied
    && (implied == 1 ==> sent[0] == Sent(author, WriteHeader(200)))
    && forall i :: 0 <= i < |calls| ==> sent[implied + i] == Sent(author, calls[i])
  }

  lemma ForwardedPasses(author: nat, calls: seq<WriterCall>)
    ensures PassedOn(Forwarded(author, calls), author, calls)
  {
  }

  /** The proxy returned without an error: its calls reach the client, and the request is a success. */
  lemma Succeeds(targets: nat, script: Script, n: nat)
    requires n > 0 && script(n).Proxied? && script(n).error.None?
    ensures PassedOn(Response(targets, script, n), n, script(n).calls)
    ensures
      var end := RequestEnd(script, n);
      && end.success && end.category == NoError && end.status.Some?
      && (forall s :: 200 <= s <= 299 && Begins(script(n).calls, s) ==> end.status.value == s)
      && ((forall s :: 200 <= s <= 299 ==> !Begins(script(n).calls, s)) ==> end.status.value == 200)
      && EndOf(script(n)) == end
  {
    var calls := script(n).calls;
    ForwardedPasses(n, calls);
    if calls != [] { assert Begins(calls, FirstStatus(calls)); }
  }

  /**
   * The proxy failed after it wrote something, or was cancelled: its calls are
   * all the client gets. The upstream's status is recorded if it is an error
   * status, unless the request was cancelled with something written; else what
   * was sent, or 502.
   */
  lemma BreaksOff(targets: nat, script: Script, n: nat)
    requires n > 0 && script(n).Proxied? && script(n).error.Some?
    requires script(n).calls != [] || script(n).error.value.canceled || script(n).error.value.matchesContext
    ensures PassedOn(Response(targets, script, n), n, script(n).calls)
    ensures
      var e, calls, end := script(n).error.value, script(n).calls, RequestEnd(script, n);
      && !end.success && end.category == Classify(e) && end.status.Some? && EndOf(script(n)) == end
      && if e.upstream.Some? && 400 <= e.upstream.value <= 599 && ((!e.canceled && !e.deadline) || calls == [])
         then end.status == e.upstream
         else if calls == [] then end.status == Some(502) else Begins(calls, end.status.value)
  {
    ForwardedPasses(n, script(n).calls);
    BrokenEnd(script(n).error.value, script(n).calls);
  }

  lemma BrokenEnd(e: Failure, calls: seq<WriterCall>)
    ensures
      var end := CommittedOrCanceledEnd(e, calls);
      && !end.success && end.category == Classify(e) && end.status.Some?
      && if e.upstream.Some? && 400 <= e.upstream.value <= 599 && ((!e.canceled && !e.deadline) || calls == [])
         then end.status == e.upstream
         else if calls == [] then end.status == Some(502) else Begins(calls, end.status.value)
  {
    Categories(e);
  }

  /** The proxy failed with nothing written and no other key may do better: the gateway answers with what it records. */
  lemma Refused(targets: nat, script: Script, n: nat)
    requires n > 0 && script(n).Proxied? && script(n).calls == [] && script(n).error.Some?
    requires !script(n).error.value.canceled && !script(n).error.value.matchesContext
    requires script(n).error.value.upstream !in {Some(401), Some(402), Some(403), Some(429)}
    ensures
      var e, end := script(n).error.value, RequestEnd(script, n);
      && !end.success && end.category == Classify(e) && EndOf(script(n)) == end
      && end.status == (if e.upstream.Some? && 400 <= e.upstream.value <= 599 then e.upstream else Some(502))
      && Response(targets, script, n) == [Sent(0, WriteHeader(end.status.value))]
  {
  }

  /** The attempts that went on: unreadable ones are internal errors, the others keep the upstream's status. */
  lemma WentOn(turn: Turn)
    requires TurnedDown(turn)
    ensures turn.Unreadable? ==> EndOf(turn) == End(None, false, Internal)
    ensures
      turn.Proxied? ==>
        && turn.error.Some? && turn.error.value.upstream.Some?
        && EndOf(turn) == End(turn.error.value.upstream, false, Classify(turn.error.value))
  {
  }

  /**
   * Every key was spent: the gateway answers with the status of the last
   * readable attempt and records it; with none, 502 is recorded, and answered
   * when there is one target, else 503.
   */
  lemma {:induction false} Spent(targets: nat, script: Script, n: nat, last: nat)
    requires n > 0 && AllTurnedDown(script, n)
    requires last <= n && (forall i :: last < i <= n ==> script(i).Unreadable?)
    requires last > 0 ==> script(last).Proxied?
    ensures
      var end := RequestEnd(script, n);
      && !end.success
      && end.category == Classify(if script(n).Unreadable? then script(n).failure else script(n).error.value)
      && (last > 0 ==>
            && script(last).error.Some? && end.status == script(last).error.value.upstream
            && end.status in {Some(401), Some(402), Some(403), Some(429)}
            && Response(targets, script, n) == [Sent(0, WriteHeader(end.status.value))])
      && (last == 0 ==>
            && end.status == Some(502)
            && Response(targets, script, n) == [Sent(0, WriteHeader(if targets > 1 then 503 else 502))])
  {
    LastReadable(script, n, last);
    assert TurnedDown(script(n));
    if last > 0 { assert TurnedDown(script(last)); }
  }

  lemma {:induction false} LastReadable(script: Script, n: nat, last: nat)
    requires AllTurnedDown(script, n)
    requires last <= n && (forall i :: last < i <= n ==> script(i).Unreadable?)
    requires last > 0 ==> script(last).Proxied?
    ensures last == 0 ==> LastStatus(script, n) == 502
    ensures last > 0 ==> TurnedDown(script(last)) && LastStatus(script, n) == script(last).error.value.upstream.value
  {
    if n > 0 {
      assert TurnedDown(script(n));
      if n > last { LastReadable(script, n - 1, last); }
    }
  }

  // ----- Times -----

  /** Whole milliseconds from one time to another; none when the clock ran backwards. */
  ghost predicate IsDelay(from: int, to: int, ms: nat) {
    if to <= from then ms == 0 else ms * 1_000_000 <= to - from < (ms + 1) * 1_000_000
  }

  function FinishTimes(log: seq<Entry>): seq<nat> {
    if log == [] then []
    else FinishTimes(log[..|log| - 1]) + if log[|log| - 1].FinishAttempt? then [log[|log| - 1].ms] else []
  }

  lemma MillisAreDelays(from: int, to: int)
    ensures IsDelay(from, to, Millis(to - from))
  {
  }

  /** Each attempt is recorded with its own duration. */
  lemma {:induction false} AttemptTimes(pairs: seq<Attempt>, script: Script, n: nat)
    requires n <= |pairs|
    ensures
      var times := FinishTimes(AttemptLog(pairs, script, n));
      |times| == n && forall i :: 0 <= i < n ==> IsDelay(script(i + 1).start, script(i + 1).end, times[i])
  {
    if n > 0 {
      AttemptTimes(pairs, script, n - 1);
      MillisAreDelays(script(n).start, script(n).end);
      var end := FinishAttempt(n, EndOf(script(n)), Duration(script(n)));
      TimesSnoc(AttemptLog(pairs, script, n - 1), StartOf(pairs, n));
      TimesSnoc(AttemptLog(pairs, script, n - 1) + [StartOf(pairs, n)], end);
    }
  }

  lemma TimesSnoc(log: seq<Entry>, e: Entry)
    ensures FinishTimes(log + [e]) == FinishTimes(log) + if e.FinishAttempt? then [e.ms] else []
  {
    assert (log + [e])[..|log|] == log;
  }

  predicate Delivers(turn: Turn) {
    turn.Proxied? && turn.firstByte.Some?
  }

  /** The recorded delay to the first byte is that of the first attempt that delivered one. */
  lemma {:induction false} FirstByteTime(script: Script, startedAt: int, n: nat)
    requires n > 0
    ensures
      var ttft := Closing(script, startedAt, n).ttft;
      && (ttft.None? <==> forall i :: 1 <= i <= n ==> !Delivers(script(i)))
      && forall k :: 1 <= k <= n && Delivers(script(k)) && (forall i :: 1 <= i < k ==> !Delivers(script(i))) ==>
           ttft.Some? && IsDelay(startedAt, script(k).firstByte.value, ttft.value)
  {
    FirstDelay(script, startedAt, n);
  }

  lemma {:induction false} FirstDelay(script: Script, startedAt: int, n: nat)
    ensures
      var ttft := FirstByteDelay(script, startedAt, n);
      && (ttft.None? <==> forall i :: 1 <= i <= n ==> !Delivers(script(i)))
      && forall k :: 1 <= k <= n && Delivers(script(k)) && (forall i :: 1 <= i < k ==> !Delivers(script(i))) ==>
           ttft.Some? && IsDelay(startedAt, script(k).firstByte.value, ttft.value)
  {
    if n > 0 {
      FirstDelay(script, startedAt, n - 1);
      if Delivers(script(n)) { MillisAreDelays(startedAt, script(n).firstByte.value); }
    }
  }

  // ----- Bodies -----

  /**
   * An attempt is sent the client's body for the model of its own target,
   * layered with its own rules, and for Anthropic clients the native body too.
   */
  lemma BodiesSent(job: Job, t: nat)
    requires t < |job.plan|
    ensures
      var planned, p, sent := job.plan[t], job.prompting, BodiesOf(job, t);
      var layers := Layers(p.globalPrompt, planned.suppressed, planned.segments, p.caveman);
      && sent.body == Layered(job.body.(model := planned.target.route.name), p.protocol, layers)
      && sent.body.model == sent.rawBody.model == planned.target.route.name
      && (p.protocol.Anthropic? ==>
            sent.rawBody == Layered(job.rawBody.(model := planned.target.route.name), Anthropic, layers))
      && (p.protocol.OpenAI? ==> sent.rawBody == job.rawBody.(model := planned.target.route.name))
  {
  }
}
