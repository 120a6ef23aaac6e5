/**
 * Prompt rules and their cache (internal/service/promptrules.go): loading the
 * two tables, resolving the rules of a request, and the cache as readers,
 * loads and mutations interleave.
 */
module PromptRules {
  import opened Basics

  datatype Target = GroupTarget(group: int) | ModelTarget(model: int)

  datatype RuleRow = RuleRow(id: int, name: string, prompt: string, inherit: bool, enabled: bool)

  datatype TargetRow = TargetRow(rule: int, target: Target)

  /** The rule table in position order, and the target table. */
  datatype Tables = Tables(rules: seq<RuleRow>, targets: seq<TargetRow>)

  datatype Rule = Rule(row: RuleRow, claims: set<Target>)

  /** The keys of the schema: rule ids are unique, and so are targets. */
  ghost predicate Keyed(t: Tables) {
    UniqueRules(t.rules) && UniqueTargets(t.targets)
  }

  ghost predicate UniqueRules(rules: seq<RuleRow>) {
    forall i, j :: 0 <= i < j < |rules| ==> rules[i].id != rules[j].id
  }

  ghost predicate UniqueTargets(targets: seq<TargetRow>) {
    forall i, j :: 0 <= i < j < |targets| ==> targets[i].target != targets[j].target
  }

  function ClaimsOf(id: int, targets: seq<TargetRow>): set<Target> {
    set i | 0 <= i < |targets| && targets[i].rule == id :: targets[i].target
  }

  /** What a load of these two tables yields. */
  function Combine(rules: seq<RuleRow>, targets: seq<TargetRow>): (r: seq<Rule>)
    ensures |r| == |rules|
    ensures forall i :: 0 <= i < |r| ==> r[i] == Rule(rules[i], ClaimsOf(rules[i].id, targets))
  {
    seq(|rules|, i requires 0 <= i < |rules| => Rule(rules[i], ClaimsOf(rules[i].id, targets)))
  }

  function Loaded(t: Tables): seq<Rule> {
    Combine(t.rules, t.targets)
  }

  // ----- Loading -----

  lemma ClaimsSnoc(id: int, front: seq<TargetRow>, row: TargetRow)
    ensures ClaimsOf(id, front + [row]) == ClaimsOf(id, front) + if row.rule == id then {row.target} else {}
  {
    var all := front + [row];
    forall t ensures t in ClaimsOf(id, all) <==> t in ClaimsOf(id, front) || (row.rule == id && t == row.target) {
      if t in ClaimsOf(id, front) {
        var i :| 0 <= i < |front| && front[i].rule == id && front[i].target == t;
        assert all[i] == front[i];
      }
      if row.rule == id && t == row.target { assert all[|front|] == row; }
    }
  }

  /** Two queries, one index: each target row is added to its rule; a row of an unknown rule is skipped. */
  method LoadPromptRules(rules: seq<RuleRow>, targets: seq<TargetRow>) returns (out: seq<Rule>)
    requires UniqueRules(rules)
    ensures out == Combine(rules, targets)
  {
    out := [];
    var index: map<int, nat> := map[];
    for i := 0 to |rules|
      invariant |out| == i && forall k :: 0 <= k < i ==> out[k] == Rule(rules[k], {})
      invariant forall id :: id in index <==> exists k :: 0 <= k < i && rules[k].id == id
      invariant forall id :: id in index ==> index[id] < i && rules[index[id]].id == id
    {
      out := out + [Rule(rules[i], {})];
      index := index[rules[i].id := i];
    }
    for j := 0 to |targets|
      invariant |out| == |rules|
      invariant forall k :: 0 <= k < |out| ==> out[k] == Rule(rules[k], ClaimsOf(rules[k].id, targets[..j]))
    {
      var row := targets[j];
      assert targets[..j + 1] == targets[..j] + [row];
      forall k | 0 <= k < |out|
        ensures
          ClaimsOf(rules[k].id, targets[..j + 1]) ==
            out[k].claims + if row.rule == rules[k].id then {row.target} else {}
      {
        ClaimsSnoc(rules[k].id, targets[..j], row);
      }
      if row.rule in index {
        var i := index[row.rule];
        assert forall k :: 0 <= k < |rules| && rules[k].id == row.rule ==> k == i;
        out := out[i := out[i].(claims := out[i].claims + {row.target})];
      } else {
        assert forall k :: 0 <= k < |rules| ==> rules[k].id != row.rule;
      }
    }
    assert targets[..|targets|] == targets;
  }

  // ----- Resolution -----

  datatype Segment = Segment(id: int, name: string, text: string)

  predicate ForModel(r: Rule, model: int) {
    r.row.enabled && model != 0 && ModelTarget(model) in r.claims
  }

  predicate ForGroup(r: Rule, group: Option<int>) {
    r.row.enabled && group.Some? && GroupTarget(group.value) in r.claims
  }

  predicate Applies(r: Rule, group: Option<int>, model: int) {
    ForModel(r, model) || ForGroup(r, group)
  }

  function SegmentOf(r: Rule): Segment {
    Segment(r.row.id, r.row.name, r.row.prompt)
  }

  /** The rules that apply, in position order. */
  function Segments(rules: seq<Rule>, group: Option<int>, model: int): seq<Segment> {
    if rules == [] then []
    else
      var r := rules[|rules| - 1];
      Segments(rules[..|rules| - 1], group, model) + if Applies(r, group, model) then [SegmentOf(r)] else []
  }

  /** No two rules claim the same target. */
  ghost predicate ExclusiveClaims(rules: seq<Rule>) {
    forall i, j :: 0 <= i < j < |rules| ==> rules[i].claims !! rules[j].claims
  }

  /**
   * Also of rules and targets read at different times: unique ids in the one
   * and unique targets in the other suffice.
   */
  lemma CombineIsExclusive(rules: seq<RuleRow>, targets: seq<TargetRow>)
    requires UniqueRules(rules) && UniqueTargets(targets)
    ensures ExclusiveClaims(Combine(rules, targets))
  {
    var out := Combine(rules, targets);
    forall i, j | 0 <= i < |out| && 0 <= j < |out| && !(out[i].claims !! out[j].claims) ensures i == j {
      var x :| x in out[i].claims && x in out[j].claims;
      OneRowPerTarget(targets, rules[i].id, rules[j].id, x);
    }
  }

  lemma OneRowPerTarget(targets: seq<TargetRow>, a: int, b: int, x: Target)
    requires UniqueTargets(targets) && x in ClaimsOf(a, targets) && x in ClaimsOf(b, targets)
    ensures a == b
  {
    var p :| 0 <= p < |targets| && targets[p].rule == a && targets[p].target == x;
    var q :| 0 <= q < |targets| && targets[q].rule == b && targets[q].target == x;
    assert p == q;
  }

  /**
   * The most specific applying rule decides: the model's, else the group's; it
   * suppresses the base prompt unless it inherits.
   */
  ghost predicate Suppresses(rules: seq<Rule>, group: Option<int>, model: int) {
    if exists i :: 0 <= i < |rules| && ForModel(rules[i], model)
    then exists i :: 0 <= i < |rules| && ForModel(rules[i], model) && !rules[i].row.inherit
    else exists i :: 0 <= i < |rules| && ForGroup(rules[i], group) && !rules[i].row.inherit
  }

  method ResolvePromptRules(rules: seq<Rule>, group: Option<int>, model: int)
    returns (segments: seq<Segment>, suppressed: bool)
    requires ExclusiveClaims(rules)
    ensures segments == Segments(rules, group, model)
    ensures suppressed <==> Suppresses(rules, group, model)
  {
    var modelRule: Option<Rule>, groupRule: Option<Rule> := None, None;
    segments := [];
    ghost var atModel, atGroup := 0, 0;
    for i := 0 to |rules|
      invariant segments == Segments(rules[..i], group, model)
      invariant modelRule.None? ==> forall k :: 0 <= k < i ==> !ForModel(rules[k], model)
      invariant groupRule.None? ==> forall k :: 0 <= k < i ==> !ForGroup(rules[k], group)
      invariant
        modelRule.Some? ==> 0 <= atModel < i && rules[atModel] == modelRule.value && ForModel(rules[atModel], model)
      invariant
        groupRule.Some? ==> 0 <= atGroup < i && rules[atGroup] == groupRule.value && ForGroup(rules[atGroup], group)
    {
      var r := rules[i];
      assert rules[..i + 1][..i] == rules[..i];
      if r.row.enabled {
        var matchesModel := model != 0 && ModelTarget(model) in r.claims;
        var matchesGroup := group.Some? && GroupTarget(group.value) in r.claims;
        if matchesModel { modelRule, atModel := Some(r), i; }
        if matchesGroup { groupRule, atGroup := Some(r), i; }
        if matchesModel || matchesGroup { segments := segments + [SegmentOf(r)]; }
      }
    }
    assert rules[..|rules|] == rules;
    suppressed := false;
    if modelRule.Some? {
      suppressed := !modelRule.value.row.inherit;
      ModelDecides(rules, group, model, atModel);
    } else if groupRule.Some? {
      suppressed := !groupRule.value.row.inherit;
      GroupDecides(rules, group, model, atGroup);
    }
  }

  lemma ModelDecides(rules: seq<Rule>, group: Option<int>, model: int, i: nat)
    requires ExclusiveClaims(rules) && i < |rules| && ForModel(rules[i], model)
    ensures Suppresses(rules, group, model) <==> !rules[i].row.inherit
  {
    OneClaimant(rules, ModelTarget(model), i);
  }

  lemma GroupDecides(rules: seq<Rule>, group: Option<int>, model: int, i: nat)
    requires ExclusiveClaims(rules) && i < |rules| && ForGroup(rules[i], group)
    requires forall k :: 0 <= k < |rules| ==> !ForModel(rules[k], model)
    ensures Suppresses(rules, group, model) <==> !rules[i].row.inherit
  {
    OneClaimant(rules, GroupTarget(group.value), i);
  }

  lemma OneClaimant(rules: seq<Rule>, t: Target, i: nat)
    requires ExclusiveClaims(rules) && i < |rules| && t in rules[i].claims
    ensures forall j :: 0 <= j < |rules| && t in rules[j].claims ==> j == i
  {
  }

  // ----- Reordering -----

  function Ids(rules: seq<RuleRow>): (ids: seq<int>)
    ensures |ids| == |rules| && forall i :: 0 <= i < |ids| ==> ids[i] == rules[i].id
  {
    seq(|rules|, i requires 0 <= i < |rules| => rules[i].id)
  }

  ghost function Elements<T>(items: seq<T>): set<T> {
    set x | x in items
  }

  lemma {:induction false} DistinctSize<T(!new)>(items: seq<T>)
    requires Distinct(items)
    ensures |Elements(items)| == |items|
  {
    if items != [] {
      var front, last := items[..|items| - 1], items[|items| - 1];
      DistinctSize(front);
      assert Elements(items) == Elements(front) + {last};
    }
  }

  lemma SubsetOfItsSize<T>(a: set<T>, b: set<T>)
    requires a <= b && |a| == |b|
    ensures a == b
  {
    assert b == a + (b - a);
    assert |b| == |a| + |b - a|;
  }

  /** Every id of the table exactly once. */
  ghost predicate NamesEveryRule(ids: seq<int>, rules: seq<RuleRow>) {
    Distinct(ids) && forall id :: id in ids <==> id in Ids(rules)
  }

  lemma EveryRuleByCount(ids: seq<int>, rules: seq<RuleRow>)
    requires Distinct(Ids(rules)) && Distinct(ids)
    ensures NamesEveryRule(ids, rules) <==> |ids| == |rules| && forall id :: id in ids ==> id in Ids(rules)
  {
    DistinctSize(ids);
    DistinctSize(Ids(rules));
    var a, b := Elements(ids), Elements(Ids(rules));
    if NamesEveryRule(ids, rules) {
      assert a == b;
    } else if |ids| == |rules| && (forall id :: id in ids ==> id in Ids(rules)) {
      SubsetOfItsSize(a, b);
      assert forall id :: id in ids <==> id in a;
      assert forall id :: id in Ids(rules) <==> id in b;
    }
  }

  /** The row with this id. */
  ghost predicate RowAt(rules: seq<RuleRow>, id: int, row: RuleRow) {
    row in rules && row.id == id
  }

  /** An order is accepted iff it names every rule exactly once; then the same rows stand in that order. */
  method ReorderPromptRules(rules: seq<RuleRow>, ruleIDs: seq<int>) returns (result: Option<seq<RuleRow>>)
    requires Distinct(Ids(rules))
    ensures result.Some? <==> NamesEveryRule(ruleIDs, rules)
    ensures result.Some? ==> Ids(result.value) == ruleIDs && forall row :: row in result.value <==> row in rules
  {
    if |ruleIDs| != |rules| {
      if Distinct(ruleIDs) { EveryRuleByCount(ruleIDs, rules); }
      return None;
    }
    var current := RowsById(rules);
    var out := RowsInOrder(rules, ruleIDs, current);
    if out.None? {
      if Distinct(ruleIDs) { EveryRuleByCount(ruleIDs, rules); }
      return None;
    }
    EveryRuleByCount(ruleIDs, rules);
    forall row | row in rules ensures row in out.value {
      RowIsPlaced(rules, ruleIDs, out.value, row);
    }
    result := out;
    assert Ids(out.value) == ruleIDs;
  }

  method RowsById(rules: seq<RuleRow>) returns (current: map<int, RuleRow>)
    ensures forall id :: id in current <==> id in Ids(rules)
    ensures forall id :: id in current ==> RowAt(rules, id, current[id])
  {
    current := map[];
    for i := 0 to |rules|
      invariant forall id :: id in current <==> id in Ids(rules)[..i]
      invariant forall id :: id in current ==> RowAt(rules, id, current[id])
    {
      assert Ids(rules)[..i + 1] == Ids(rules)[..i] + [rules[i].id];
      current := current[rules[i].id := rules[i]];
    }
    assert Ids(rules)[..|rules|] == Ids(rules);
  }

  /** The rows as the ids name them, unless one is unknown or named twice. */
  method RowsInOrder(rules: seq<RuleRow>, ruleIDs: seq<int>, current: map<int, RuleRow>)
    returns (out: Option<seq<RuleRow>>)
    requires forall id :: id in current <==> id in Ids(rules)
    requires forall id :: id in current ==> RowAt(rules, id, current[id])
    ensures out.Some? <==> Distinct(ruleIDs) && forall id :: id in ruleIDs ==> id in Ids(rules)
    ensures out.Some? ==> |out.value| == |ruleIDs|
    ensures out.Some? ==> forall j :: 0 <= j < |ruleIDs| ==> RowAt(rules, ruleIDs[j], out.value[j])
  {
    var seen: set<int> := {};
    var rows: seq<RuleRow> := [];
    for k := 0 to |ruleIDs|
      invariant Distinct(ruleIDs[..k]) && |rows| == k
      invariant forall id :: id in seen <==> id in ruleIDs[..k]
      invariant forall j :: 0 <= j < k ==> ruleIDs[j] in Ids(rules) && RowAt(rules, ruleIDs[j], rows[j])
    {
      var id := ruleIDs[k];
      if id !in current || id in seen {
        assert id in ruleIDs;
        if id in seen { NotDistinct(ruleIDs, k); }
        return None;
      }
      assert ruleIDs[..k + 1] == ruleIDs[..k] + [id];
      seen := seen + {id};
      rows := rows + [current[id]];
    }
    assert ruleIDs[..|ruleIDs|] == ruleIDs;
    out := Some(rows);
  }

  lemma NotDistinct(ids: seq<int>, k: nat)
    requires k < |ids| && ids[k] in ids[..k]
    ensures !Distinct(ids)
  {
    var j :| 0 <= j < k && ids[..k][j] == ids[k];
    assert ids[j] == ids[k];
  }

  lemma RowIsPlaced(rules: seq<RuleRow>, ids: seq<int>, out: seq<RuleRow>, row: RuleRow)
    requires Distinct(Ids(rules)) && NamesEveryRule(ids, rules) && row in rules
    requires |out| == |ids| && forall j :: 0 <= j < |ids| ==> RowAt(rules, ids[j], out[j])
    ensures row in out
  {
    var i :| 0 <= i < |rules| && rules[i] == row;
    assert Ids(rules)[i] in ids;
    var j :| 0 <= j < |ids| && ids[j] == row.id;
    var m :| 0 <= m < |rules| && rules[m] == out[j];
    assert Ids(rules)[m] == Ids(rules)[i];
  }

  // ----- The cache -----

  /**
   * A cached load: the rules, and the versions of the two tables its queries
   * saw; a load that fails in its second query keeps the rows it had read.
   */
  datatype Cached = Good(rules: seq<Rule>, rulesSeen: nat, targetsSeen: nat) | Bad(rules: seq<Rule>)

  /**
   * The thread that holds the write lock to load: before and after its first
   * query. Without rules the second query's result plays no part.
   */
  datatype Loader = NoLoader | Locked | HasRules(seen: nat)

  /**
   * The committed versions of the tables (the last one is current), the cache,
   * the loading thread, and the versions whose mutator has committed but not
   * yet invalidated the cache.
   */
  datatype Store = Store(history: seq<Tables>, cache: Option<Cached>, loader: Loader, pending: set<nat>)

  datatype Step =
    | Commit(tables: Tables)
    | Invalidate(version: nat)
    | LockForLoad
    | ReadRules
    | ReadTargets
    | FailLoad(read: nat)

  function Initial(t: Tables): Store {
    Store([t], None, NoLoader, {})
  }

  function Current(s: Store): nat
    requires s.history != []
  {
    |s.history| - 1
  }

  /** Mutations commit at any time; invalidating and starting a load need the lock a loading thread holds. */
  predicate Enabled(s: Store, a: Step) {
    s.history != [] &&
    match a
    case Commit(_) => true
    case Invalidate(v) => v in s.pending && s.loader.NoLoader?
    case LockForLoad => s.loader.NoLoader? && s.cache.None?
    case ReadRules => s.loader.Locked?
    case ReadTargets => s.loader.HasRules? && s.loader.seen < |s.history|
    case FailLoad(_) => s.loader.Locked? || (s.loader.HasRules? && s.loader.seen < |s.history|)
  }

  function Apply(s: Store, a: Step): Store
    requires Enabled(s, a)
  {
    match a
    case Commit(tables) => s.(history := s.history + [tables], pending := s.pending + {|s.history|})
    case Invalidate(v) => s.(cache := None, pending := s.pending - {v})
    case LockForLoad => s.(loader := Locked)
    case ReadRules => s.(loader := HasRules(Current(s)))
    case ReadTargets =>
      var seen := s.loader.seen;
      s.(cache := Some(Good(Combine(s.history[seen].rules, s.history[Current(s)].targets), seen, Current(s))),
        loader := NoLoader)
    case FailLoad(read) =>
      var targets := s.history[Current(s)].targets;
      var rules :=
        if s.loader.HasRules? then Combine(s.history[s.loader.seen].rules,
          targets[..if read < |targets| then read else |targets|]) else [];
      s.(cache := Some(Bad(rules)), loader := NoLoader)
  }

  /** Every committed version that is not pending has been seen by both queries of what is cached or being loaded. */
  ghost predicate Invariant(s: Store) {
    && s.history != []
    && (forall v :: v in s.pending ==> v < |s.history|)
    && (!s.loader.NoLoader? ==> s.cache.None?)
    && (s.loader.HasRules? ==> s.loader.seen < |s.history| && forall v :: s.loader.seen < v < |s.history| ==>
         v in s.pending)
    && (s.cache.Some? && s.cache.value.Good? ==>
          var c := s.cache.value;
          && c.rulesSeen < |s.history| && c.targetsSeen < |s.history|
          && c.rules == Combine(s.history[c.rulesSeen].rules, s.history[c.targetsSeen].targets)
          && (forall v :: c.rulesSeen < v < |s.history| ==> v in s.pending)
          && (forall v :: c.targetsSeen < v < |s.history| ==> v in s.pending))
  }

  lemma StepKeeps(s: Store, a: Step)
    requires Invariant(s) && Enabled(s, a)
    ensures Invariant(Apply(s, a))
  {
    var s' := Apply(s, a);
    if a.Commit? {
      assert forall v :: 0 <= v < |s.history| ==> s'.history[v] == s.history[v];
    }
  }

  ghost predicate IsRun(trace: seq<Store>, steps: seq<Step>) {
    && |trace| == |steps| + 1 && (exists t :: trace[0] == Initial(t))
    && forall k :: 0 <= k < |steps| ==> Enabled(trace[k], steps[k]) && trace[k + 1] == Apply(trace[k], steps[k])
  }

  lemma {:induction false} RunKeeps(trace: seq<Store>, steps: seq<Step>, n: nat)
    requires IsRun(trace, steps) && n < |trace|
    ensures Invariant(trace[n])
  {
    if n > 0 {
      RunKeeps(trace, steps, n - 1);
      StepKeeps(trace[n - 1], steps[n - 1]);
    }
  }

  /** The cache was filled by a load that succeeded, and differs from the tables. */
  predicate Stale(s: Store)
    requires s.history != []
  {
    s.cache.Some? && s.cache.value.Good? && s.cache.value.rules != Loaded(s.history[Current(s)])
  }

  /**
   * Coherence, in every interleaving: a cache filled by a load that succeeded
   * differs from the tables only while some committed mutation has not yet
   * invalidated it.
   */
  lemma Coherence(trace: seq<Store>, steps: seq<Step>, n: nat)
    requires IsRun(trace, steps) && n < |trace|
    ensures
      var s := trace[n];
      s.history != [] && (Stale(s) ==> s.pending != {})
  {
    RunKeeps(trace, steps, n);
    var s := trace[n];
    if Stale(s) {
      assert Current(s) in s.pending;
    }
  }

  lemma {:induction false} ReturnedStays(trace: seq<Store>, steps: seq<Step>, m: nat, n: nat, v: nat)
    requires IsRun(trace, steps) && m <= n < |trace|
    requires v < |trace[m].history| && v !in trace[m].pending
    ensures v < |trace[n].history| && v !in trace[n].pending
    decreases n
  {
    if m < n {
      ReturnedStays(trace, steps, m, n - 1, v);
      assert trace[n] == Apply(trace[n - 1], steps[n - 1]);
    }
  }

  /**
   * Freshness: once a mutation has returned, whatever rules are cached at any
   * later time come from that mutation's version of each table, or a later one;
   * so a resolution that starts after the mutation returned sees it.
   */
  lemma ReadYourWrites(trace: seq<Store>, steps: seq<Step>, m: nat, n: nat, v: nat)
    requires IsRun(trace, steps) && m <= n < |trace|
    requires v < |trace[m].history| && v !in trace[m].pending
    requires trace[n].cache.Some? && trace[n].cache.value.Good?
    ensures
      var s := trace[n];
      var c := s.cache.value;
      && v <= c.rulesSeen < |s.history| && v <= c.targetsSeen < |s.history|
      && c.rules == Combine(s.history[c.rulesSeen].rules, s.history[c.targetsSeen].targets)
  {
    RunKeeps(trace, steps, n);
    ReturnedStays(trace, steps, m, n, v);
  }

  /**
   * A failed load breaks both: with rules in the table and nothing pending, the
   * cache holds none, and keeps them out until the next mutation.
   */
  lemma FailedLoadIsCached(t: Tables) returns (trace: seq<Store>, steps: seq<Step>)
    requires t.rules != []
    ensures IsRun(trace, steps)
    ensures
      var s := trace[|trace| - 1];
      s.cache == Some(Bad([])) && s.pending == {} && s.history == [t] && Loaded(t) != [] && !Enabled(s, LockForLoad)
  {
    steps := [LockForLoad, FailLoad(0)];
    var s1 := Apply(Initial(t), LockForLoad);
    trace := [Initial(t), s1, Apply(s1, FailLoad(0))];
    assert trace[0] == Initial(t);
  }

  // ----- What is cached can be resolved -----

  ghost predicate AllKeyed(s: Store) {
    forall v :: 0 <= v < |s.history| ==> Keyed(s.history[v])
  }

  /** No two cached rules claim the same target. */
  ghost predicate CacheIsExclusive(s: Store) {
    s.cache.Some? ==> ExclusiveClaims(s.cache.value.rules)
  }

  lemma StepKeepsExclusive(s: Store, a: Step)
    requires Invariant(s) && Enabled(s, a) && CacheIsExclusive(s) && AllKeyed(Apply(s, a))
    ensures AllKeyed(s) && CacheIsExclusive(Apply(s, a))
  {
    var s' := Apply(s, a);
    assert forall v :: 0 <= v < |s.history| ==> s'.history[v] == s.history[v];
    var targets := s.history[Current(s)].targets;
    assert Keyed(s'.history[Current(s)]);
    match a
    case ReadTargets => CombineIsExclusive(s.history[s.loader.seen].rules, targets);
    case FailLoad(read) =>
      if s.loader.HasRules? {
        CombineIsExclusive(s.history[s.loader.seen].rules, targets[..if read < |targets| then read else |targets|]);
      }
    case _ =>
  }

  /**
   * In every interleaving over tables that keep their keys, whatever is cached,
   * be it of two versions or of a load that failed, has exclusive claims, as
   * resolution needs.
   */
  lemma {:induction false} CachedIsExclusive(trace: seq<Store>, steps: seq<Step>, n: nat)
    requires IsRun(trace, steps) && n < |trace| && AllKeyed(trace[n])
    ensures CacheIsExclusive(trace[n])
  {
    if n > 0 {
      assert trace[n] == Apply(trace[n - 1], steps[n - 1]);
      RunKeeps(trace, steps, n - 1);
      EarlierKeyed(trace[n - 1], steps[n - 1]);
      CachedIsExclusive(trace, steps, n - 1);
      StepKeepsExclusive(trace[n - 1], steps[n - 1]);
    }
  }

  lemma EarlierKeyed(s: Store, a: Step)
    requires Enabled(s, a) && AllKeyed(Apply(s, a))
    ensures AllKeyed(s)
  {
    assert forall v :: 0 <= v < |s.history| ==> Apply(s, a).history[v] == s.history[v];
  }

  // ----- The cache as one thread runs it -----

  class RuleCache {
    var promptLoaded: bool
    var promptRules: seq<Rule>

    constructor ()
      ensures !promptLoaded
    {
      promptLoaded, promptRules := false, [];
    }

    /**
     * A hit returns the cached rules; a miss loads, and the next call hits. The
     * rule rows are None when the first query fails; the target rows are those
     * read before the second query ended or failed.
     */
    method Snapshot(rows: Option<seq<RuleRow>>, targets: seq<TargetRow>) returns (rules: seq<Rule>)
      requires rows.Some? ==> UniqueRules(rows.value)
      modifies this
      ensures
        rules == if old(promptLoaded) then old(promptRules) else if rows.None? then [] else Combine(rows.value, targets)
      ensures promptLoaded && promptRules == rules
    {
      if promptLoaded { return promptRules; }
      rules := [];
      if rows.Some? { rules := LoadPromptRules(rows.value, targets); }
      promptRules := rules;
      promptLoaded := true;
    }

    method Invalidate()
      modifies this
      ensures !promptLoaded
    {
      promptRules := [];
      promptLoaded := false;
    }
  }
}
