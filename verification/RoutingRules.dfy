/** Routing rules: a cached array that the engine sorts in place, and the first rule that matches. */
module RoutingRules {
  import opened Wrappers

  type Time = int

  datatype Rule = Rule(
    id: nat, name: string, priority: int, destination: string, conditionField: string, conditionValue: string)

  datatype Route = Route(destination: string, ruleName: string)

  datatype RoutingError = NoRuleMatched

  const TTL_MS := 300000

  // ---------- a stable sort by priority ----------

  /** `r` behind everything that does not come after it. */
  function Insert(sorted: seq<Rule>, r: Rule): seq<Rule> {
    if sorted != [] && sorted[|sorted| - 1].priority > r.priority
    then Insert(sorted[..|sorted| - 1], r) + [sorted[|sorted| - 1]]
    else sorted + [r]
  }

  function Sorted(rules: seq<Rule>): seq<Rule> {
    if rules == [] then [] else Insert(Sorted(rules[..|rules| - 1]), rules[|rules| - 1])
  }

  predicate Ordered(rules: seq<Rule>) {
    forall i, j :: 0 <= i < j < |rules| ==> rules[i].priority <= rules[j].priority
  }

  /** The rules of one priority, in their order. */
  function OfPriority(rules: seq<Rule>, p: int): seq<Rule> {
    if rules == [] then []
    else OfPriority(rules[..|rules| - 1], p) + if rules[|rules| - 1].priority == p then [rules[|rules| - 1]] else []
  }

  lemma OfPriorityPush(rules: seq<Rule>, r: Rule, p: int)
    ensures OfPriority(rules + [r], p) == OfPriority(rules, p) + if r.priority == p then [r] else []
  {
    assert (rules + [r])[..|rules|] == rules;
  }

  lemma {:induction false} InsertMembers(sorted: seq<Rule>, r: Rule)
    ensures |Insert(sorted, r)| == |sorted| + 1 && multiset(Insert(sorted, r)) == multiset(sorted) + multiset{r}
  {
    if sorted != [] && sorted[|sorted| - 1].priority > r.priority {
      InsertMembers(sorted[..|sorted| - 1], r);
      assert sorted == sorted[..|sorted| - 1] + [sorted[|sorted| - 1]];
    }
  }

  lemma {:induction false} InsertOrdered(sorted: seq<Rule>, r: Rule, bound: int)
    requires Ordered(sorted) && r.priority <= bound && forall i :: 0 <= i < |sorted| ==> sorted[i].priority <= bound
    ensures Ordered(Insert(sorted, r))
    ensures forall i :: 0 <= i < |Insert(sorted, r)| ==> Insert(sorted, r)[i].priority <= bound
  {
    if sorted != [] && sorted[|sorted| - 1].priority > r.priority {
      InsertOrdered(sorted[..|sorted| - 1], r, sorted[|sorted| - 1].priority);
    }
  }

  lemma {:induction false} InsertIsStable(sorted: seq<Rule>, r: Rule, p: int)
    requires Ordered(sorted)
    ensures OfPriority(Insert(sorted, r), p) == OfPriority(sorted, p) + if r.priority == p then [r] else []
  {
    if sorted != [] && sorted[|sorted| - 1].priority > r.priority {
      var front, last := sorted[..|sorted| - 1], sorted[|sorted| - 1];
      InsertIsStable(front, r, p);
      OfPriorityPush(Insert(front, r), last, p);
      if last.priority == p { NoneOfPriority(front, r, p); }
    } else {
      OfPriorityPush(sorted, r, p);
    }
  }

  /** Something already overtaken has no other priority in common. */
  lemma NoneOfPriority(front: seq<Rule>, r: Rule, p: int)
    requires r.priority < p
    ensures OfPriority(front, p) + (if r.priority == p then [r] else []) == OfPriority(front, p)
  {
  }

  /** Sorting permutes the rules into priority order. */
  lemma {:induction false} SortIsOrdered(rules: seq<Rule>)
    ensures Ordered(Sorted(rules)) && |Sorted(rules)| == |rules| && multiset(Sorted(rules)) == multiset(rules)
  {
    if rules != [] {
      var front, last := rules[..|rules| - 1], rules[|rules| - 1];
      SortIsOrdered(front);
      InsertMembers(Sorted(front), last);
      InsertOrdered(Sorted(front), last, Highest(Sorted(front), last));
      assert rules == front + [last];
    }
  }

  function Highest(sorted: seq<Rule>, r: Rule): int {
    if sorted != [] && sorted[|sorted| - 1].priority > r.priority then sorted[|sorted| - 1].priority else r.priority
  }

  /** Ties keep their order. */
  lemma {:induction false} SortIsStable(rules: seq<Rule>, p: int)
    ensures OfPriority(Sorted(rules), p) == OfPriority(rules, p)
  {
    if rules != [] {
      var front := rules[..|rules| - 1];
      SortIsStable(front, p);
      SortIsOrdered(front);
      InsertIsStable(Sorted(front), rules[|rules| - 1], p);
    }
  }

  lemma {:induction false} SortOfOrdered(rules: seq<Rule>)
    requires Ordered(rules)
    ensures Sorted(rules) == rules
  {
    if rules != [] {
      var front, last := rules[..|rules| - 1], rules[|rules| - 1];
      assert forall i, j :: 0 <= i < j < |front| ==> front[i] == rules[i] && front[j] == rules[j];
      SortOfOrdered(front);
      AppendInOrder(front, last);
      assert rules == front + [last];
    }
  }

  lemma AppendInOrder(sorted: seq<Rule>, r: Rule)
    requires sorted != [] ==> sorted[|sorted| - 1].priority <= r.priority
    ensures Insert(sorted, r) == sorted + [r]
  {
  }

  /** Sorting a sorted cache again changes nothing. */
  lemma SortTwice(rules: seq<Rule>)
    ensures Sorted(Sorted(rules)) == Sorted(rules)
  {
    SortIsOrdered(rules);
    SortOfOrdered(Sorted(rules));
  }

  lemma SortedSnoc(rules: seq<Rule>, r: Rule)
    ensures Sorted(rules + [r]) == Insert(Sorted(rules), r)
  {
    assert (rules + [r])[..|rules|] == rules;
  }

  lemma {:induction false} InsertAt(sorted: seq<Rule>, r: Rule, j: nat)
    requires j <= |sorted| && (j > 0 ==> sorted[j - 1].priority <= r.priority)
    requires forall k :: j <= k < |sorted| ==> sorted[k].priority > r.priority
    ensures Insert(sorted, r) == sorted[..j] + [r] + sorted[j..]
  {
    if j < |sorted| {
      var front := sorted[..|sorted| - 1];
      InsertAt(front, r, j);
      assert front[..j] == sorted[..j] && front[j..] + [sorted[|sorted| - 1]] == sorted[j..];
    } else {
      assert sorted[..j] + [r] + sorted[j..] == sorted + [r];
    }
  }

  lemma Shifted(front: seq<Rule>, r: Rule, j: nat, shifted: seq<Rule>)
    requires j <= |front| && |shifted| == |front| + 1 && shifted[j] == r
    requires forall k :: 0 <= k < j ==> shifted[k] == front[k]
    requires forall k :: j < k <= |front| ==> shifted[k] == front[k - 1]
    requires j > 0 ==> front[j - 1].priority <= r.priority
    requires forall k :: j <= k < |front| ==> front[k].priority > r.priority
    ensures shifted == Insert(front, r)
  {
    InsertAt(front, r, j);
    assert shifted == front[..j] + [r] + front[j..];
  }

  /** Moves the rule at `i` to its place in the part before it. */
  method InsertInPlace(a: array<Rule>, i: nat)
    requires i < a.Length
    modifies a
    ensures a[..i + 1] == Insert(old(a[..i]), old(a[i])) && a[i + 1..] == old(a[i + 1..])
  {
    ghost var was := a[..];
    var r, j := a[i], i;
    while j > 0 && a[j - 1].priority > r.priority
      invariant 0 <= j <= i
      invariant forall k :: 0 <= k < j ==> a[k] == was[k]
      invariant forall k :: j < k <= i ==> a[k] == was[k - 1]
      invariant forall k :: i < k < a.Length ==> a[k] == was[k]
      invariant forall k :: j <= k < i ==> was[k].priority > r.priority
    {
      a[j] := a[j - 1];
      j := j - 1;
    }
    a[j] := r;
    Shifted(was[..i], r, j, a[..i + 1]);
    assert a[i + 1..] == was[i + 1..];
  }

  /** A stable sort in place, one rule at a time. */
  method SortInPlace(a: array<Rule>)
    modifies a
    ensures a[..] == Sorted(old(a[..]))
  {
    ghost var was := a[..];
    var i := 0;
    while i < a.Length
      invariant 0 <= i <= a.Length
      invariant a[..i] == Sorted(was[..i]) && a[i..] == was[i..]
    {
      assert a[i] == a[i..][0] == was[i..][0] == was[i];
      assert was[..i + 1] == was[..i] + [was[i]] && a[i..][1..] == a[i + 1..] && was[i..][1..] == was[i + 1..];
      SortedSnoc(was[..i], was[i]);
      InsertInPlace(a, i);
      i := i + 1;
    }
    assert a[..i] == a[..] && was[..i] == was;
  }

  // ---------- the rule that applies ----------

  /** What the loop over the sorted rules finds. */
  function FirstMatch(rules: seq<Rule>, matches: Rule -> bool): Option<Rule> {
    if rules == [] then None else if matches(rules[0]) then Some(rules[0]) else FirstMatch(rules[1..], matches)
  }

  predicate Preferred(r: Rule, over: Option<Rule>) {
    over.None? || r.priority < over.value.priority
  }

  /** The matching rule of least priority in load order, ties to the earlier one. */
  function Best(rules: seq<Rule>, matches: Rule -> bool): Option<Rule> {
    if rules == [] then None
    else
      var best := Best(rules[..|rules| - 1], matches);
      if matches(rules[|rules| - 1]) && Preferred(rules[|rules| - 1], best) then Some(rules[|rules| - 1]) else best
  }

  /** `Best` is a minimum: a matching rule that none before beats or equals and none after beats. */
  lemma {:induction false} BestIsLeast(rules: seq<Rule>, matches: Rule -> bool)
    ensures Best(rules, matches).None? <==> forall i :: 0 <= i < |rules| ==> !matches(rules[i])
    ensures Best(rules, matches).Some? ==> exists i ::
      && 0 <= i < |rules| && rules[i] == Best(rules, matches).value && matches(rules[i])
      && (forall j :: 0 <= j < |rules| && matches(rules[j]) ==> rules[i].priority <= rules[j].priority)
      && (forall j :: 0 <= j < i && matches(rules[j]) ==> rules[i].priority < rules[j].priority)
  {
    if rules != [] {
      var n := |rules| - 1;
      BestIsLeast(rules[..n], matches);
      var best := Best(rules[..n], matches);
      if matches(rules[n]) && Preferred(rules[n], best) {
        assert Best(rules, matches) == Some(rules[n]);
        LeastSoFar(rules, n, matches);
      } else if best.Some? {
        var i :| 0 <= i < n && rules[..n][i] == best.value && matches(rules[..n][i])
          && (forall j :: 0 <= j < n && matches(rules[..n][j]) ==> rules[..n][i].priority <= rules[..n][j].priority)
          && (forall j :: 0 <= j < i && matches(rules[..n][j]) ==> rules[..n][i].priority < rules[..n][j].priority);
        Least(rules, i, n, matches);
      } else {
        assert forall i :: 0 <= i < n ==> !matches(rules[..n][i]) && rules[..n][i] == rules[i];
      }
    }
  }

  lemma LeastSoFar(rules: seq<Rule>, n: nat, matches: Rule -> bool)
    requires n + 1 == |rules| && matches(rules[n]) && Preferred(rules[n], Best(rules[..n], matches))
    requires Best(rules[..n], matches).None? <==> forall i :: 0 <= i < n ==> !matches(rules[..n][i])
    requires Best(rules[..n], matches).Some? ==>
      forall j :: 0 <= j < n && matches(rules[..n][j]) ==>
        Best(rules[..n], matches).value.priority <= rules[..n][j].priority
    ensures forall j :: 0 <= j < n && matches(rules[j]) ==> rules[n].priority < rules[j].priority
  {
    forall j | 0 <= j < n && matches(rules[j]) ensures rules[n].priority < rules[j].priority {
      assert rules[..n][j] == rules[j];
    }
  }

  lemma Least(rules: seq<Rule>, i: nat, n: nat, matches: Rule -> bool)
    requires i < n && n + 1 == |rules| && matches(rules[i])
    requires !(matches(rules[n]) && rules[n].priority < rules[i].priority)
    requires forall j :: 0 <= j < n && matches(rules[..n][j]) ==> rules[i].priority <= rules[..n][j].priority
    requires forall j :: 0 <= j < i && matches(rules[..n][j]) ==> rules[i].priority < rules[..n][j].priority
    ensures forall j :: 0 <= j < |rules| && matches(rules[j]) ==> rules[i].priority <= rules[j].priority
    ensures forall j :: 0 <= j < i && matches(rules[j]) ==> rules[i].priority < rules[j].priority
  {
    assert forall j :: 0 <= j < n ==> rules[..n][j] == rules[j];
  }

  lemma {:induction false} FirstMatchPush(rules: seq<Rule>, r: Rule, matches: Rule -> bool)
    ensures FirstMatch(rules + [r], matches)
      == if FirstMatch(rules, matches).Some? then FirstMatch(rules, matches) else if matches(r) then Some(r) else None
  {
    if rules != [] {
      assert (rules + [r])[1..] == rules[1..] + [r];
      FirstMatchPush(rules[1..], r, matches);
    }
  }

  lemma {:induction false} FirstMatchIn(rules: seq<Rule>, matches: Rule -> bool)
    ensures FirstMatch(rules, matches).Some? ==> FirstMatch(rules, matches).value in rules
  {
    if rules != [] {
      FirstMatchIn(rules[1..], matches);
    }
  }

  lemma {:induction false} InsertFirstMatch(sorted: seq<Rule>, r: Rule, matches: Rule -> bool)
    requires Ordered(sorted)
    ensures FirstMatch(Insert(sorted, r), matches)
      == if matches(r) && Preferred(r, FirstMatch(sorted, matches)) then Some(r) else FirstMatch(sorted, matches)
  {
    if sorted != [] && sorted[|sorted| - 1].priority > r.priority {
      var front, last := sorted[..|sorted| - 1], sorted[|sorted| - 1];
      InsertFirstMatch(front, r, matches);
      FirstMatchPush(Insert(front, r), last, matches);
      FirstMatchPush(front, last, matches);
      assert sorted == front + [last];
    } else {
      FirstMatchPush(sorted, r, matches);
      FirstMatchIn(sorted, matches);
    }
  }

  /** The first match after sorting is the minimum of the rules as loaded. */
  lemma {:induction false} FirstSortedMatchIsBest(rules: seq<Rule>, matches: Rule -> bool)
    ensures FirstMatch(Sorted(rules), matches) == Best(rules, matches)
  {
    if rules != [] {
      var front := rules[..|rules| - 1];
      FirstSortedMatchIsBest(front, matches);
      SortIsOrdered(front);
      InsertFirstMatch(Sorted(front), rules[|rules| - 1], matches);
    }
  }

  /** The rule in place `i` matches, none that matches has a lower priority, and none before it the same. */
  predicate IsBestAt(rules: seq<Rule>, matches: Rule -> bool, i: nat) {
    && i < |rules| && matches(rules[i])
    && (forall j :: 0 <= j < |rules| && matches(rules[j]) ==> rules[i].priority <= rules[j].priority)
    && (forall j :: 0 <= j < i && matches(rules[j]) ==> rules[i].priority < rules[j].priority)
  }

  /** The route is the destination and the name of the best match, and there is none exactly if no rule matches. */
  lemma RouteIsOfBest(rules: seq<Rule>, matches: Rule -> bool)
    ensures var r := RouteOf(Best(rules, matches));
      && (r.Err? <==> forall i :: 0 <= i < |rules| ==> !matches(rules[i]))
      && (r.Ok? ==> exists i: nat :: IsBestAt(rules, matches, i) && r.result.destination == rules[i].destination
                                     && r.result.ruleName == rules[i].name)
  {
    BestIsLeast(rules, matches);
    if i :| && 0 <= i < |rules| && Some(rules[i]) == Best(rules, matches) && matches(rules[i])
            && (forall j :: 0 <= j < |rules| && matches(rules[j]) ==> rules[i].priority <= rules[j].priority)
            && (forall j :: 0 <= j < i && matches(rules[j]) ==> rules[i].priority < rules[j].priority)
    {
      assert IsBestAt(rules, matches, i);
    }
  }

  function RouteOf(best: Option<Rule>): Result<Route, RoutingError> {
    if best.Some? then Ok(Route(best.value.destination, best.value.name)) else Err(NoRuleMatched)
  }

  // ---------- the loader and the engine ----------

  class RuleLoader {
    var cache: array?<Rule>
    var loadedAt: Time
    /** The rules in the order in which the database returned them. */
    ghost var snapshot: seq<Rule>

    /** Whatever sorting has been done to the cached array, it sorts to what the snapshot sorts to. */
    ghost predicate Valid()
      reads this, cache
    {
      cache != null ==> Sorted(cache[..]) == Sorted(snapshot)
    }

    predicate Fresh(now: Time)
      reads this
    {
      cache != null && now - loadedAt < TTL_MS
    }

    constructor ()
      ensures Valid() && cache == null
    {
      cache, loadedAt, snapshot := null, 0, [];
    }

    /** `found` is what the database would return now, and `now` the clock at the check and at the load. */
    method LoadActiveRules(found: seq<Rule>, now: Time) returns (rules: array<Rule>)
      requires Valid()
      modifies this
      ensures Valid() && cache == rules
      ensures old(Fresh(now)) == old(cache != null && now - loadedAt < 300000)
      ensures old(Fresh(now)) ==> cache == old(cache) && snapshot == old(snapshot) && loadedAt == old(loadedAt)
      ensures !old(Fresh(now)) ==> fresh(rules) && snapshot == found && loadedAt == now && rules[..] == found
    {
      if cache != null && now - loadedAt < TTL_MS {
        return cache;
      }
      rules := new Rule[|found|](i requires 0 <= i < |found| => found[i]);
      assert rules[..] == found;
      cache, loadedAt, snapshot := rules, now, found;
    }

    method ClearCache()
      requires Valid()
      modifies this
      ensures Valid() && cache == null
    {
      cache := null;
    }
  }

  class RouteEngine {
    const ruleLoader: RuleLoader

    constructor (ruleLoader: RuleLoader)
      ensures this.ruleLoader == ruleLoader
    {
      this.ruleLoader := ruleLoader;
    }

    /** The route of the snapshot's best match, or an error if nothing in it matches; the snapshot
        is the cached one if it is fresh. The cached array ends up sorted. */
    method Resolve(found: seq<Rule>, now: Time, matches: Rule -> bool) returns (r: Result<Route, RoutingError>)
      requires ruleLoader.Valid()
      modifies ruleLoader, ruleLoader.cache
      ensures ruleLoader.Valid() && ruleLoader.cache != null && ruleLoader.cache[..] == Sorted(ruleLoader.snapshot)
      ensures old(ruleLoader.Fresh(now)) ==>
        ruleLoader.snapshot == old(ruleLoader.snapshot) && ruleLoader.loadedAt == old(ruleLoader.loadedAt)
      ensures !old(ruleLoader.Fresh(now)) ==> ruleLoader.snapshot == found && ruleLoader.loadedAt == now
      ensures r == RouteOf(Best(ruleLoader.snapshot, matches))
      ensures r.Err? <==> forall i :: 0 <= i < |ruleLoader.snapshot| ==> !matches(ruleLoader.snapshot[i])
      ensures r.Ok? ==> exists i: nat ::
        && IsBestAt(ruleLoader.snapshot, matches, i)
        && r.result == Route(ruleLoader.snapshot[i].destination, ruleLoader.snapshot[i].name)
    {
      var rules := ruleLoader.LoadActiveRules(found, now);
      SortInPlace(rules);
      SortTwice(ruleLoader.snapshot);
      FirstSortedMatchIsBest(ruleLoader.snapshot, matches);
      RouteIsOfBest(ruleLoader.snapshot, matches);
      var i := 0;
      while i < rules.Length
        invariant 0 <= i <= rules.Length
        invariant FirstMatch(rules[..], matches) == FirstMatch(rules[i..], matches)
      {
        var rule := rules[i];
        if matches(rule) {
          return Ok(Route(rule.destination, rule.name));
        }
        assert rules[i..][1..] == rules[i + 1..];
        i := i + 1;
      }
      return Err(NoRuleMatched);
    }
  }

  // ---------- any sequence of resolutions and clearings ----------

  datatype Op = Resolve(wait: nat, found: seq<Rule>, matches: Rule -> bool) | ClearCache(wait: nat)

  /** A cached snapshot with the number of the operation that loaded it. */
  datatype Entry = Entry(snapshot: seq<Rule>, loadedAt: Time, loadedBy: nat)

  datatype State = State(now: Time, count: nat, cached: Option<Entry>)

  function Next(s: State, op: Op): State {
    var t := s.now + op.wait;
    match op
    case ClearCache(_) => State(t, s.count + 1, None)
    case Resolve(_, found, _) =>
      State(t, s.count + 1,
            if s.cached.Some? && t - s.cached.value.loadedAt < TTL_MS then s.cached else Some(Entry(found, t, s.count)))
  }

  function Run(s: State, ops: seq<Op>): State
    decreases |ops|
  {
    if ops == [] then s else Run(Next(s, ops[0]), ops[1..])
  }

  const START := State(0, 0, None)

  lemma {:induction false} RunPush(s: State, ops: seq<Op>, op: Op)
    ensures Run(s, ops + [op]) == Next(Run(s, ops), op)
    decreases |ops|
  {
    if ops == [] {
      assert (ops + [op])[1..] == [];
    } else {
      assert (ops + [op])[1..] == ops[1..] + [op];
      RunPush(Next(s, ops[0]), ops[1..], op);
    }
  }

  /** The snapshot came from a resolution since which nothing cleared the cache, at its time. */
  predicate LoadedBy(ops: seq<Op>, e: Entry) {
    && e.loadedBy < |ops| && ops[e.loadedBy].Resolve? && ops[e.loadedBy].found == e.snapshot
    && (forall i :: e.loadedBy < i < |ops| ==> !ops[i].ClearCache?)
    && e.loadedAt == Run(START, ops[..e.loadedBy + 1]).now
  }

  lemma {:induction false} CacheHasAnOrigin(ops: seq<Op>)
    ensures var s := Run(START, ops);
      && s.count == |ops| && (s.cached.Some? ==> LoadedBy(ops, s.cached.value) && s.cached.value.loadedAt <= s.now)
    decreases |ops|
  {
    if ops != [] {
      var before, op := ops[..|ops| - 1], ops[|ops| - 1];
      CacheHasAnOrigin(before);
      assert ops == before + [op];
      RunPush(START, before, op);
      var s := Run(START, before);
      if s.cached.Some? { assert ops[..s.cached.value.loadedBy + 1] == before[..s.cached.value.loadedBy + 1]; }
      assert ops[..|before| + 1] == ops;
    }
  }

  /** After any operations, a resolution answers with the minimum over rows that the database held
      at its own or an earlier resolution less than five minutes ago, with no clearing in between. */
  lemma ResolvesFreshSnapshot(ops: seq<Op>, op: Op)
    requires op.Resolve?
    ensures var s := Run(START, ops + [op]);
      && s.cached.Some? && LoadedBy(ops + [op], s.cached.value) && 0 <= s.now - s.cached.value.loadedAt < 300000
  {
    CacheHasAnOrigin(ops + [op]);
    RunPush(START, ops, op);
  }
}
