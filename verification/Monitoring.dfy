/**
 * Totals and time series of the monitoring page (internal/telemetry/monitoring.go),
 * over the records of a window in a calendar without offset changes.
 */
module Monitoring {
  import opened Basics

  // ----- Calendar -----

  const HOUR: nat := 3_600_000_000_000
  const DAY: nat := 86_400_000_000_000

  /** A wall-clock time; `nanos` counts from midnight. */
  datatype Time = Time(year: int, month: int, day: int, nanos: int)

  predicate Leap(year: int) {
    year % 4 == 0 && (year % 100 != 0 || year % 400 == 0)
  }

  function MonthLength(year: int, month: int): (n: nat)
    ensures 28 <= n <= 31
  {
    if month == 2 then (if Leap(year) then 29 else 28)
    else if month in {4, 6, 9, 11} then 30
    else 31
  }

  predicate Valid(t: Time) {
    1 <= t.month <= 12 && 1 <= t.day <= MonthLength(t.year, t.month) && 0 <= t.nanos < DAY
  }

  predicate Before(a: Time, b: Time) {
    if a.year != b.year then a.year < b.year
    else if a.month != b.month then a.month < b.month
    else if a.day != b.day then a.day < b.day
    else a.nanos < b.nanos
  }

  predicate AtMost(a: Time, b: Time) {
    !Before(b, a)
  }

  function NextDay(t: Time): Time {
    if t.day < MonthLength(t.year, t.month) then t.(day := t.day + 1)
    else if t.month < 12 then t.(month := t.month + 1, day := 1)
    else t.(year := t.year + 1, month := 1, day := 1)
  }

  function PreviousDay(t: Time): Time {
    if t.day > 1 then t.(day := t.day - 1)
    else if t.month > 1 then t.(month := t.month - 1, day := MonthLength(t.year, t.month - 1))
    else t.(year := t.year - 1, month := 12, day := 31)
  }

  // ----- Windows and buckets -----

  datatype Range = Daily | Monthly | Yearly

  function Start(r: Range, now: Time): Time {
    match r
    case Yearly => Time(now.year, 1, 1, 0)
    case Monthly => Time(now.year, now.month, 1, 0)
    case Daily => Time(now.year, now.month, now.day, 0)
  }

  function PreviousStart(r: Range, now: Time): Time {
    var start := Start(r, now);
    match r
    case Yearly => start.(year := start.year - 1)
    case Monthly =>
      if start.month > 1 then start.(month := start.month - 1) else start.(year := start.year - 1, month := 12)
    case Daily => PreviousDay(start)
  }

  function Bucketize(r: Range, t: Time): Time {
    match r
    case Yearly => Time(t.year, t.month, 1, 0)
    case Monthly => Time(t.year, t.month, t.day, 0)
    case Daily => t.(nanos := t.nanos / HOUR * HOUR)
  }

  /** The next boundary; months roll into the next year, days into the next month, hours into the next day. */
  function NextBucket(r: Range, t: Time): Time {
    match r
    case Yearly => if t.month < 12 then t.(month := t.month + 1) else t.(year := t.year + 1, month := 1)
    case Monthly => NextDay(t)
    case Daily =>
      if t.nanos + HOUR < DAY then t.(nanos := t.nanos + HOUR) else NextDay(t.(nanos := t.nanos + HOUR - DAY))
  }

  predicate InWindow(r: Range, now: Time, t: Time) {
    Valid(t) && AtMost(Start(r, now), t) && AtMost(t, now)
  }

  /** The place of a time in its window, counted in buckets. */
  function UnitOf(r: Range, t: Time): int {
    match r
    case Yearly => t.month - 1
    case Monthly => t.day - 1
    case Daily => t.nanos / HOUR
  }

  /** The `k`-th boundary of the window; the one after `now` opens the next window or is still in this one. */
  function Boundary(r: Range, now: Time, k: nat): Time {
    match r
    case Yearly => Time(now.year, k + 1, 1, 0)
    case Monthly => Time(now.year, now.month, k + 1, 0)
    case Daily => Time(now.year, now.month, now.day, k * HOUR)
  }

  lemma UnitInRange(r: Range, t: Time)
    requires Valid(t)
    ensures 0 <= UnitOf(r, t)
  {
  }

  /** Stepping from boundary to boundary runs through all of them and past `now`. */
  lemma StepsThrough(r: Range, now: Time, k: nat)
    requires Valid(now) && k <= UnitOf(r, now)
    ensures Boundary(r, now, 0) == Bucketize(r, Start(r, now)) == Start(r, now)
    ensures Valid(Boundary(r, now, k)) && AtMost(Boundary(r, now, k), now)
    ensures
      var next := NextBucket(r, Boundary(r, now, k));
      && Valid(next) && Before(Boundary(r, now, k), next)
      && if k < UnitOf(r, now) then next == Boundary(r, now, k + 1) else Before(now, next)
  {
  }

  /** Every time of the window lies in exactly one bucket: the one it is put in. */
  lemma InOneBucket(r: Range, now: Time, t: Time, k: nat)
    requires Valid(now) && InWindow(r, now, t) && k <= UnitOf(r, now)
    ensures 0 <= UnitOf(r, t) <= UnitOf(r, now)
    ensures Bucketize(r, t) == Boundary(r, now, k) <==> k == UnitOf(r, t)
    ensures AtMost(Boundary(r, now, k), t) && Before(t, NextBucket(r, Boundary(r, now, k))) <==> k == UnitOf(r, t)
  {
  }

  /** The window before ends where this one starts, and is exactly the year, month or day that starts there. */
  lemma PreviousWindow(r: Range, now: Time, t: Time)
    requires Valid(now) && Valid(t)
    ensures AtMost(PreviousStart(r, now), t) && Before(t, Start(r, now)) <==> Start(r, t) == PreviousStart(r, now)
  {
  }

  // ----- Tallies -----

  datatype Record = Record(ts: Time, cancelled: bool, status: Option<int>, error: string,
                           input: Option<int>, output: Option<int>, latency: Option<int>)

  /** A sum, and whether anything was added to it. */
  datatype TokenTotals = TokenTotals(sum: int, known: bool) {
    function Add(v: Option<int>): TokenTotals {
      if v.None? then this else TokenTotals(sum + v.value, true)
    }

    function Value(): Option<int> {
      if known then Some(sum) else None
    }

    function Merge(other: TokenTotals): TokenTotals {
      TokenTotals(sum + other.sum, known || other.known)
    }
  }

  datatype Tally = Tally(requests: nat, succeeded: nat, failed: nat, cancelled: nat,
                         inputs: TokenTotals, outputs: TokenTotals, latency: int, timed: nat)

  const NO_TOKENS := TokenTotals(0, false)
  const ZERO := Tally(0, 0, 0, 0, NO_TOKENS, NO_TOKENS, 0, 0)

  predicate Failing(rec: Record) {
    (rec.status.Some? && rec.status.value >= 400) || rec.error != ""
  }

  function Observed(t: Tally, rec: Record): Tally {
    Tally(t.requests + 1,
          t.succeeded + if !rec.cancelled && !Failing(rec) then 1 else 0,
          t.failed + if !rec.cancelled && Failing(rec) then 1 else 0,
          t.cancelled + if rec.cancelled then 1 else 0,
          t.inputs.Add(rec.input), t.outputs.Add(rec.output),
          t.latency + rec.latency.GetOr(0), t.timed + if rec.latency.Some? then 1 else 0)
  }

  function TallyOf(records: seq<Record>): Tally {
    if records == [] then ZERO else Observed(TallyOf(records[..|records| - 1]), records[|records| - 1])
  }

  /** Adding up the counts of two disjoint sets of records. */
  function Merge(a: Tally, b: Tally): Tally {
    Tally(a.requests + b.requests, a.succeeded + b.succeeded, a.failed + b.failed, a.cancelled + b.cancelled,
          a.inputs.Merge(b.inputs), a.outputs.Merge(b.outputs), a.latency + b.latency, a.timed + b.timed)
  }

  class Totals {
    var requests: nat
    var succeeded: nat
    var failed: nat
    var cancelled: nat
    var inputs: TokenTotals
    var outputs: TokenTotals
    var latency: int
    var timed: nat

    function View(): Tally
      reads this
    {
      Tally(requests, succeeded, failed, cancelled, inputs, outputs, latency, timed)
    }

    constructor ()
      ensures View() == ZERO
    {
      requests, succeeded, failed, cancelled := 0, 0, 0, 0;
      inputs, outputs, latency, timed := NO_TOKENS, NO_TOKENS, 0, 0;
    }

    method Observe(rec: Record)
      modifies this
      ensures View() == Observed(old(View()), rec)
    {
      requests := requests + 1;
      if rec.cancelled {
        cancelled := cancelled + 1;
      } else if Failing(rec) {
        failed := failed + 1;
      } else {
        succeeded := succeeded + 1;
      }
      inputs := inputs.Add(rec.input);
      outputs := outputs.Add(rec.output);
      if rec.latency.Some? {
        latency := latency + rec.latency.value;
        timed := timed + 1;
      }
    }
  }

  /** One window of a summary. */
  method ObserveWindow(records: seq<Record>) returns (totals: Totals)
    ensures totals.View() == TallyOf(records)
  {
    totals := new Totals();
    for i := 0 to |records|
      invariant fresh(totals) && totals.View() == TallyOf(records[..i])
    {
      totals.Observe(records[i]);
      assert records[..i + 1][..i] == records[..i];
    }
    assert records[..|records|] == records;
  }

  lemma {:induction false} EveryRequestHasOneOutcome(records: seq<Record>)
    ensures
      var t := TallyOf(records);
      t.requests == |records| == t.succeeded + t.failed + t.cancelled
  {
    if records != [] { EveryRequestHasOneOutcome(records[..|records| - 1]); }
  }

  // ----- The series -----

  datatype Bucket = Bucket(t: Time, tally: Tally)

  /** The records put in the bucket at `at`, in order. */
  function InBucket(r: Range, records: seq<Record>, at: Time): seq<Record> {
    if records == [] then []
    else
      var last := records[|records| - 1];
      InBucket(r, records[..|records| - 1], at) + if Bucketize(r, last.ts) == at then [last] else []
  }

  function BucketTally(r: Range, records: seq<Record>, at: Time): Tally {
    TallyOf(InBucket(r, records, at))
  }

  /** One bucket per boundary of the window up to now, empty ones included. */
  ghost predicate IsSeries(r: Range, now: Time, records: seq<Record>, out: seq<Bucket>) {
    |out| == UnitOf(r, now) + 1 && StartsSeries(r, now, records, out)
  }

  ghost predicate StartsSeries(r: Range, now: Time, records: seq<Record>, out: seq<Bucket>) {
    forall k :: 0 <= k < |out| ==> out[k] == BucketAt(r, records, Boundary(r, now, k))
  }

  function BucketAt(r: Range, records: seq<Record>, at: Time): Bucket {
    Bucket(at, BucketTally(r, records, at))
  }

  lemma BucketTallySnoc(r: Range, records: seq<Record>, rec: Record, at: Time)
    ensures BucketTally(r, records + [rec], at) ==
      if Bucketize(r, rec.ts) == at then Observed(BucketTally(r, records, at), rec) else BucketTally(r, records, at)
  {
    var more := records + [rec];
    assert more[..|more| - 1] == records && more[|more| - 1] == rec;
    if Bucketize(r, rec.ts) == at {
      var before := InBucket(r, records, at);
      assert InBucket(r, more, at) == before + [rec];
      assert (before + [rec])[..|before + [rec]| - 1] == before;
    } else {
      assert InBucket(r, more, at) == InBucket(r, records, at);
    }
  }

  /** The buckets that hold records, keyed by their boundary. */
  ghost predicate IsFilled(r: Range, records: seq<Record>, spans: map<Time, Tally>) {
    forall at :: BucketTally(r, records, at) == if at in spans then spans[at] else ZERO
  }

  lemma FilledSnoc(r: Range, records: seq<Record>, rec: Record, spans: map<Time, Tally>)
    requires IsFilled(r, records, spans)
    ensures
      var at := Bucketize(r, rec.ts);
      IsFilled(r, records + [rec], spans[at := Observed(if at in spans then spans[at] else ZERO, rec)])
  {
    var at := Bucketize(r, rec.ts);
    var spans' := spans[at := Observed(if at in spans then spans[at] else ZERO, rec)];
    forall any ensures BucketTally(r, records + [rec], any) == if any in spans' then spans'[any] else ZERO {
      BucketTallySnoc(r, records, rec, any);
    }
  }

  method FillSpans(r: Range, records: seq<Record>) returns (spans: map<Time, Tally>)
    ensures IsFilled(r, records, spans)
  {
    spans := map[];
    for i := 0 to |records|
      invariant IsFilled(r, records[..i], spans)
    {
      FilledSnoc(r, records[..i], records[i], spans);
      assert records[..i + 1] == records[..i] + [records[i]];
      var at := Bucketize(r, records[i].ts);
      spans := spans[at := Observed(if at in spans then spans[at] else ZERO, records[i])];
    }
    assert records[..|records|] == records;
  }

  method TimeSeries(r: Range, now: Time, records: seq<Record>) returns (out: seq<Bucket>)
    requires Valid(now)
    ensures IsSeries(r, now, records, out)
  {
    var spans := FillSpans(r, records);
    out := Emit(r, now, records, spans);
  }

  /** After `n` buckets: the next boundary of the window, or one past now. */
  ghost predicate Stands(r: Range, now: Time, n: nat, at: Time) {
    n <= UnitOf(r, now) + 1 && if n <= UnitOf(r, now) then at == Boundary(r, now, n) else Before(now, at)
  }

  lemma StandsFirst(r: Range, now: Time)
    requires Valid(now)
    ensures Stands(r, now, 0, Bucketize(r, Start(r, now)))
  {
    UnitInRange(r, now);
    StepsThrough(r, now, 0);
  }

  lemma StandsNext(r: Range, now: Time, n: nat, at: Time)
    requires Valid(now) && Stands(r, now, n, at)
    ensures AtMost(at, now) <==> n <= UnitOf(r, now)
    ensures AtMost(at, now) ==> at == Boundary(r, now, n) && Stands(r, now, n + 1, NextBucket(r, at))
  {
    if n <= UnitOf(r, now) { StepsThrough(r, now, n); }
  }

  lemma SeriesSnoc(r: Range, now: Time, records: seq<Record>, spans: map<Time, Tally>, out: seq<Bucket>)
    requires IsFilled(r, records, spans) && StartsSeries(r, now, records, out)
    ensures
      var bt := Boundary(r, now, |out|);
      StartsSeries(r, now, records, out + [Bucket(bt, if bt in spans then spans[bt] else ZERO)])
  {
    var bt := Boundary(r, now, |out|);
    assert BucketTally(r, records, bt) == if bt in spans then spans[bt] else ZERO;
  }

  /** One bucket per boundary, until the boundary lies behind now. */
  method Emit(r: Range, now: Time, ghost records: seq<Record>, spans: map<Time, Tally>) returns (out: seq<Bucket>)
    requires Valid(now) && IsFilled(r, records, spans)
    ensures IsSeries(r, now, records, out)
  {
    out := [];
    var bt := Bucketize(r, Start(r, now));
    StandsFirst(r, now);
    while AtMost(bt, now)
      invariant Stands(r, now, |out|, bt)
      invariant StartsSeries(r, now, records, out)
      decreases UnitOf(r, now) + 1 - |out|
    {
      StandsNext(r, now, |out|, bt);
      SeriesSnoc(r, now, records, spans, out);
      out := out + [Bucket(bt, if bt in spans then spans[bt] else ZERO)];
      bt := NextBucket(r, bt);
    }
    StandsNext(r, now, |out|, bt);
  }

  function MergeAll(buckets: seq<Bucket>): Tally {
    if buckets == [] then ZERO else Merge(MergeAll(buckets[..|buckets| - 1]), buckets[|buckets| - 1].tally)
  }

  /** Observing a record in one bucket observes it in the sum. */
  lemma {:induction false} MergeObserved(before: seq<Bucket>, after: seq<Bucket>, u: nat, rec: Record)
    requires |after| == |before| && u < |before| && after[u].tally == Observed(before[u].tally, rec)
    requires forall k :: 0 <= k < |before| && k != u ==> after[k].tally == before[k].tally
    ensures MergeAll(after) == Observed(MergeAll(before), rec)
  {
    var last := |before| - 1;
    ObservedMerge(MergeAll(before[..last]), before[last].tally, rec);
    if u < last {
      MergeObserved(before[..last], after[..last], u, rec);
    } else {
      MergeSame(before[..last], after[..last]);
    }
  }

  lemma ObservedMerge(a: Tally, b: Tally, rec: Record)
    ensures Merge(Observed(a, rec), b) == Observed(Merge(a, b), rec) == Merge(a, Observed(b, rec))
  {
  }

  lemma {:induction false} MergeSame(a: seq<Bucket>, b: seq<Bucket>)
    requires |a| == |b| && forall k :: 0 <= k < |a| ==> a[k].tally == b[k].tally
    ensures MergeAll(a) == MergeAll(b)
  {
    if a != [] { MergeSame(a[..|a| - 1], b[..|b| - 1]); }
  }

  predicate Empty(b: Bucket) {
    b.tally == ZERO
  }

  lemma {:induction false} MergeZeros(buckets: seq<Bucket>)
    requires forall k :: 0 <= k < |buckets| ==> Empty(buckets[k])
    ensures MergeAll(buckets) == ZERO
  {
    if buckets != [] {
      var front, last := buckets[..|buckets| - 1], buckets[|buckets| - 1];
      MergeZeros(front);
      MergeZero(last);
    }
  }

  lemma MergeZero(b: Bucket)
    requires Empty(b)
    ensures Merge(ZERO, b.tally) == ZERO
  {
    MergeNone(ZERO, b.tally);
  }

  lemma MergeNone(a: Tally, b: Tally)
    requires a.requests == a.succeeded == a.failed == a.cancelled == a.latency == a.timed == 0
    requires a.inputs.sum == a.outputs.sum == 0 && !a.inputs.known && !a.outputs.known
    ensures Merge(a, b) == b
  {
  }

  function SeriesOf(r: Range, now: Time, records: seq<Record>): (out: seq<Bucket>)
    requires UnitOf(r, now) >= 0
    ensures IsSeries(r, now, records, out)
  {
    seq(UnitOf(r, now) + 1, k requires 0 <= k <= UnitOf(r, now) => BucketAt(r, records, Boundary(r, now, k)))
  }

  /** The boundaries strictly increase, start with the window, and reach past now. */
  lemma SeriesCoversWindow(r: Range, now: Time, records: seq<Record>, out: seq<Bucket>)
    requires Valid(now) && IsSeries(r, now, records, out)
    ensures out != [] && out[0].t == Start(r, now)
    ensures forall k :: 0 <= k < |out| - 1 ==> NextBucket(r, out[k].t) == out[k + 1].t
    ensures forall i, j :: 0 <= i < j < |out| ==> Before(out[i].t, out[j].t)
    ensures AtMost(out[|out| - 1].t, now) && Before(now, NextBucket(r, out[|out| - 1].t))
    ensures forall t :: InWindow(r, now, t) ==> 0 <= UnitOf(r, t) < |out| && Bucketize(r, t) == out[UnitOf(r, t)].t
  {
    UnitInRange(r, now);
    forall k: nat | k < |out|
      ensures NextBucket(r, out[k].t) == if k < |out| - 1 then out[k + 1].t else NextBucket(r, out[k].t)
      ensures k == 0 ==> out[k].t == Start(r, now)
      ensures k == |out| - 1 ==> AtMost(out[k].t, now) && Before(now, NextBucket(r, out[k].t))
    {
      StepsThrough(r, now, k);
    }
    forall t | InWindow(r, now, t) ensures 0 <= UnitOf(r, t) < |out| && Bucketize(r, t) == out[UnitOf(r, t)].t {
      InOneBucket(r, now, t, 0);
      InOneBucket(r, now, t, UnitOf(r, t));
    }
  }

  /** The buckets of a series add up to the totals of its window, whatever is counted. */
  lemma {:induction false} SeriesAddsUp(r: Range, now: Time, records: seq<Record>, out: seq<Bucket>)
    requires Valid(now) && IsSeries(r, now, records, out)
    requires forall i :: 0 <= i < |records| ==> InWindow(r, now, records[i].ts)
    ensures MergeAll(out) == TallyOf(records)
  {
    UnitInRange(r, now);
    if records == [] {
      assert forall k :: 0 <= k < |out| ==> Empty(out[k]);
      MergeZeros(out);
    } else {
      var front, rec := records[..|records| - 1], records[|records| - 1];
      assert records == front + [rec];
      var before := SeriesOf(r, now, front);
      SeriesAddsUp(r, now, front, before);
      var u := OneObserves(r, now, front, rec, before, out);
      MergeObserved(before, out, u, rec);
    }
  }

  /** One more record is observed in one bucket. */
  lemma OneObserves(r: Range, now: Time, front: seq<Record>, rec: Record, before: seq<Bucket>, out: seq<Bucket>)
    returns (u: nat)
    requires Valid(now) && InWindow(r, now, rec.ts)
    requires IsSeries(r, now, front, before) && IsSeries(r, now, front + [rec], out)
    ensures u < |before| && out[u].tally == Observed(before[u].tally, rec)
    ensures forall k :: 0 <= k < |before| && k != u ==> out[k].tally == before[k].tally
  {
    InOneBucket(r, now, rec.ts, 0);
    u := UnitOf(r, rec.ts);
    forall k: nat | k < |out|
      ensures out[k].tally == if k == u then Observed(before[k].tally, rec) else before[k].tally
    {
      InOneBucket(r, now, rec.ts, k);
      BucketTallySnoc(r, front, rec, Boundary(r, now, k));
    }
  }

  // ----- What is counted -----

  /** How many records are to be counted. */
  function CountIf(records: seq<Record>, counts: Record -> bool): nat {
    if records == [] then 0
    else CountIf(records[..|records| - 1], counts) + if counts(records[|records| - 1]) then 1 else 0
  }

  /** The sum of the values that are known. */
  function SumOf(records: seq<Record>, value: Record -> Option<int>): int {
    if records == [] then 0
    else
      SumOf(records[..|records| - 1], value) +
        match value(records[|records| - 1])
        case None => 0
        case Some(v) => v
  }

  predicate IsCancelled(rec: Record) {
    rec.cancelled
  }

  predicate HasFailed(rec: Record) {
    !rec.cancelled && (rec.error != "" || (rec.status.Some? && rec.status.value >= 400))
  }

  predicate HasSucceeded(rec: Record) {
    !rec.cancelled && rec.error == "" && (rec.status.None? || rec.status.value < 400)
  }

  /** The totals of any records: requests by outcome, the known tokens of each kind, the known latencies. */
  lemma {:induction false} TallyCounts(records: seq<Record>)
    ensures
      var t := TallyOf(records);
      && t.requests == |records|
      && t.cancelled == CountIf(records, IsCancelled) && t.failed == CountIf(records, HasFailed)
      && t.succeeded == CountIf(records, HasSucceeded)
      && t.inputs.sum == SumOf(records, (rec: Record) => rec.input)
      && t.outputs.sum == SumOf(records, (rec: Record) => rec.output)
      && t.latency == SumOf(records, (rec: Record) => rec.latency)
      && t.timed == CountIf(records, (rec: Record) => rec.latency.Some?)
      && (t.inputs.known <==> CountIf(records, (rec: Record) => rec.input.Some?) > 0)
      && (t.outputs.known <==> CountIf(records, (rec: Record) => rec.output.Some?) > 0)
  {
    if records != [] { TallyCounts(records[..|records| - 1]); }
  }

  /** A sum is reported exactly if something was added to it. */
  lemma TokensReported(records: seq<Record>)
    ensures
      TallyOf(records).inputs.Value() ==
        if CountIf(records, (rec: Record) => rec.input.Some?) > 0
        then Some(SumOf(records, (rec: Record) => rec.input)) else None
    ensures
      TallyOf(records).outputs.Value() ==
        if CountIf(records, (rec: Record) => rec.output.Some?) > 0
        then Some(SumOf(records, (rec: Record) => rec.output)) else None
  {
    TallyCounts(records);
  }

  /** The k-th bucket counts the records from its boundary to the next, in order, and no others. */
  lemma BucketPicked(r: Range, now: Time, records: seq<Record>, k: nat) returns (at: seq<nat>)
    requires Valid(now) && k <= UnitOf(r, now)
    requires forall i :: 0 <= i < |records| ==> InWindow(r, now, records[i].ts)
    ensures
      var from := Boundary(r, now, k);
      Picked(records, at, InBucket(r, records, from),
             (rec: Record) => AtMost(from, rec.ts) && Before(rec.ts, NextBucket(r, from)), (rec: Record) => rec)
  {
    at := BucketAtPicked(r, records, Boundary(r, now, k));
    forall rec | rec in records
      ensures Bucketize(r, rec.ts) == Boundary(r, now, k) <==>
        AtMost(Boundary(r, now, k), rec.ts) && Before(rec.ts, NextBucket(r, Boundary(r, now, k)))
    {
      InOneBucket(r, now, rec.ts, k);
    }
  }

  lemma {:induction false} BucketAtPicked(r: Range, records: seq<Record>, from: Time) returns (at: seq<nat>)
    ensures
      Picked(records, at, InBucket(r, records, from), (rec: Record) => Bucketize(r, rec.ts) == from,
             (rec: Record) => rec)
  {
    var keep, make := (rec: Record) => Bucketize(r, rec.ts) == from, (rec: Record) => rec;
    if records == [] {
      at := [];
      PickedNone(keep, make);
    } else {
      var front, last := records[..|records| - 1], records[|records| - 1];
      at := BucketAtPicked(r, front, from);
      PickedSnoc(front, at, InBucket(r, front, from), keep, make, last);
      assert records == front + [last];
      at := at + if keep(last) then [|front|] else [];
    }
  }
}
