/**
 * Communication policies (pkg/admin/policy.go) and the embedded enforcer
 * (internal/gateway/policy.go).
 *
 * Evaluate sorts with an unstable sort and takes the first match. `MayDecide` collects
 * every result some sorted permutation gives; `Wins` is the declarative rule, a matching
 * policy of maximal priority. The two are proved equal.
 */
module Policy {
  import opened Wrappers

  const WILDCARD: string := "*"

  datatype Action = Allow | Deny | OtherAction(name: string)
  datatype Direction = Unidirectional | Bidirectional | OtherDirection(name: string)

  datatype Rule = Rule(id: string, sourceId: string, targetId: string, direction: Direction, action: Action,
                       priority: int)

  predicate Matches(p: Rule, source: string, target: string) {
    var srcMatch := p.sourceId == WILDCARD || p.sourceId == source;
    var tgtMatch := p.targetId == WILDCARD || p.targetId == target;
    if srcMatch && tgtMatch then true
    else if p.direction == Bidirectional then
      (p.sourceId == WILDCARD || p.sourceId == target) && (p.targetId == WILDCARD || p.targetId == source)
    else false
  }

  ghost predicate SortedByPriority(rules: seq<Rule>) {
    forall i, j :: 0 <= i < j < |rules| ==> rules[i].priority >= rules[j].priority
  }

  /** A result sort.Slice may leave: any sorted permutation. */
  ghost predicate IsSortOf(sorted: seq<Rule>, rules: seq<Rule>) {
    multiset(sorted) == multiset(rules) && SortedByPriority(sorted)
  }

  /** The scan: the action of the first matching rule, or deny. */
  function FirstMatch(rules: seq<Rule>, source: string, target: string): Action {
    if rules == [] then Deny
    else if Matches(rules[0], source, target) then rules[0].action
    else FirstMatch(rules[1..], source, target)
  }

  // ---------------------------------------------------------------------
  // The code
  // ---------------------------------------------------------------------

  /** Inserts before the first rule of lower or equal priority. */
  function Insert(p: Rule, sorted: seq<Rule>): (r: seq<Rule>)
    ensures multiset(r) == multiset(sorted) + multiset{p}
  {
    if sorted == [] || sorted[0].priority <= p.priority then
      assert multiset([p] + sorted) == multiset([p]) + multiset(sorted);
      [p] + sorted
    else
      assert sorted == [sorted[0]] + sorted[1..];
      [sorted[0]] + Insert(p, sorted[1..])
  }

  /** A sort on the copy; callers rely only on its contract, which is all sort.Slice gives. */
  method SortRules(rules: seq<Rule>) returns (sorted: seq<Rule>)
    ensures IsSortOf(sorted, rules)
  {
    sorted := [];
    for i := 0 to |rules|
      invariant IsSortOf(sorted, rules[..i])
    {
      assert rules[..i + 1] == rules[..i] + [rules[i]];
      InsertKeepsSorted(rules[i], sorted);
      sorted := Insert(rules[i], sorted);
    }
    assert rules[..|rules|] == rules;
  }

  method Evaluate(rules: seq<Rule>, source: string, target: string) returns (a: Action)
    ensures Wins(rules, source, target, a) && MayDecide(rules, source, target, a)
  {
    var sorted := SortRules(rules);
    for i := 0 to |sorted|
      invariant FirstMatch(sorted, source, target) == FirstMatch(sorted[i..], source, target)
    {
      if Matches(sorted[i], source, target) {
        FirstMatchWins(sorted, rules, source, target);
        return sorted[i].action;
      }
      assert sorted[i..][1..] == sorted[i + 1..];
    }
    FirstMatchWins(sorted, rules, source, target);
    return Deny;
  }

  method Allowed(listed: Result<seq<Rule>, string>, source: string, target: string) returns (r: Result<bool, string>)
    ensures listed.Err? ==> r == Err(listed.error)
    ensures listed.Ok? ==> r.Ok? && exists a :: Wins(listed.value, source, target, a) && r.value == (a == Allow)
  {
    if listed.Err? { return Err(listed.error); }
    var a := Evaluate(listed.value, source, target);
    return Ok(a == Allow);
  }

  predicate Concerns(p: Rule, agent: string) {
    p.sourceId == agent || p.targetId == agent || p.sourceId == WILDCARD || p.targetId == WILDCARD
  }

  function Concerning(rules: seq<Rule>, agent: string): seq<Rule> {
    if rules == [] then []
    else
      var init, last := rules[..|rules| - 1], rules[|rules| - 1];
      if Concerns(last, agent) then Concerning(init, agent) + [last] else Concerning(init, agent)
  }

  method ListPoliciesFor(listed: Result<seq<Rule>, string>, agent: string) returns (r: Result<seq<Rule>, string>)
    ensures r == if listed.Err? then Err(listed.error) else Ok(Concerning(listed.value, agent))
  {
    if listed.Err? { return Err(listed.error); }
    var all := listed.value;
    var out := [];
    for i := 0 to |all|
      invariant out == Concerning(all[..i], agent)
    {
      assert all[..i + 1][..i] == all[..i];
      if Concerns(all[i], agent) { out := out + [all[i]]; }
    }
    assert all[..|all|] == all;
    return Ok(out);
  }

  // ---------------------------------------------------------------------
  // The declarative rule, and that it is exactly what the code may return
  // ---------------------------------------------------------------------

  /** A matching rule than which no matching rule has a higher priority. */
  ghost predicate IsTop(rules: seq<Rule>, source: string, target: string, p: Rule) {
    && p in rules && Matches(p, source, target)
    && (forall q :: q in rules && Matches(q, source, target) ==> q.priority <= p.priority)
  }

  ghost predicate Wins(rules: seq<Rule>, source: string, target: string, a: Action) {
    || (a == Deny && forall q :: q in rules ==> !Matches(q, source, target))
    || (exists p :: IsTop(rules, source, target, p) && p.action == a)
  }

  /** Some sorted permutation makes Evaluate return `a`. */
  ghost predicate MayDecide(rules: seq<Rule>, source: string, target: string, a: Action) {
    exists sorted :: IsSortOf(sorted, rules) && FirstMatch(sorted, source, target) == a
  }

  lemma ConsKeepsSorted(p: Rule, tail: seq<Rule>)
    requires SortedByPriority(tail) && forall q :: q in tail ==> q.priority <= p.priority
    ensures SortedByPriority([p] + tail)
  {
  }

  lemma {:induction false} InsertKeepsSorted(p: Rule, sorted: seq<Rule>)
    requires SortedByPriority(sorted)
    ensures SortedByPriority(Insert(p, sorted))
  {
    if sorted == [] {
    } else if sorted[0].priority <= p.priority {
      ConsKeepsSorted(p, sorted);
    } else {
      var rest := sorted[1..];
      InsertKeepsSorted(p, rest);
      var tail := Insert(p, rest);
      forall q | q in tail ensures q.priority <= sorted[0].priority {
        assert q in multiset(tail);
        if q != p { assert q in multiset(rest); }
      }
      ConsKeepsSorted(sorted[0], tail);
    }
  }

  lemma SameMembers(sorted: seq<Rule>, rules: seq<Rule>, p: Rule)
    requires multiset(sorted) == multiset(rules)
    ensures p in sorted <==> p in rules
  {
    assert p in sorted <==> p in multiset(sorted);
    assert p in rules <==> p in multiset(rules);
  }

  /** In a sorted list the first match has maximal priority among the matches. */
  lemma {:induction false} FirstMatchIsTop(sorted: seq<Rule>, source: string, target: string)
    requires SortedByPriority(sorted)
    ensures Wins(sorted, source, target, FirstMatch(sorted, source, target))
  {
    if sorted != [] {
      if Matches(sorted[0], source, target) {
        assert IsTop(sorted, source, target, sorted[0]);
      } else {
        var rest := sorted[1..];
        FirstMatchIsTop(rest, source, target);
        assert forall q :: q in sorted <==> q == sorted[0] || q in rest;
        if p :| IsTop(rest, source, target, p) && p.action == FirstMatch(rest, source, target) {
          assert IsTop(sorted, source, target, p);
        }
      }
    }
  }

  lemma FirstMatchWins(sorted: seq<Rule>, rules: seq<Rule>, source: string, target: string)
    requires IsSortOf(sorted, rules)
    ensures Wins(rules, source, target, FirstMatch(sorted, source, target))
  {
    FirstMatchIsTop(sorted, source, target);
    forall q ensures q in sorted <==> q in rules { SameMembers(sorted, rules, q); }
    if p :| IsTop(sorted, source, target, p) && p.action == FirstMatch(sorted, source, target) {
      assert IsTop(rules, source, target, p);
    }
  }

  /** A rule inserted by its priority is the first match when no matching rule outranks it. */
  lemma {:induction false} InsertedIsFirst(p: Rule, sorted: seq<Rule>, source: string, target: string)
    requires Matches(p, source, target)
    requires forall q :: q in sorted && Matches(q, source, target) ==> q.priority <= p.priority
    ensures FirstMatch(Insert(p, sorted), source, target) == p.action
  {
    if sorted != [] && sorted[0].priority > p.priority {
      InsertedIsFirst(p, sorted[1..], source, target);
    }
  }

  lemma {:induction false} SomeSortExists(rules: seq<Rule>) returns (sorted: seq<Rule>)
    ensures IsSortOf(sorted, rules)
  {
    if rules == [] {
      sorted := [];
    } else {
      var init, last := rules[..|rules| - 1], rules[|rules| - 1];
      assert rules == init + [last];
      sorted := SomeSortExists(init);
      InsertKeepsSorted(last, sorted);
      sorted := Insert(last, sorted);
    }
  }

  /** Every top rule is chosen by some sorted permutation: the one that puts it first among its equals. */
  lemma TopIsReached(rules: seq<Rule>, source: string, target: string, p: Rule)
    requires IsTop(rules, source, target, p)
    ensures MayDecide(rules, source, target, p.action)
  {
    var i :| 0 <= i < |rules| && rules[i] == p;
    var others := rules[..i] + rules[i + 1..];
    assert rules == rules[..i] + [p] + rules[i + 1..];
    var sorted := SomeSortExists(others);
    forall q | q in sorted ensures q in rules {
      SameMembers(sorted, others, q);
    }
    InsertKeepsSorted(p, sorted);
    InsertedIsFirst(p, sorted, source, target);
    assert multiset(Insert(p, sorted)) == multiset(others) + multiset{p} == multiset(rules);
    assert IsSortOf(Insert(p, sorted), rules);
  }

  /** What Evaluate may return, over every sorted permutation, is exactly the declarative rule. */
  lemma MayDecideIsWins(rules: seq<Rule>, source: string, target: string, a: Action)
    ensures MayDecide(rules, source, target, a) <==> Wins(rules, source, target, a)
  {
    if MayDecide(rules, source, target, a) {
      var sorted :| IsSortOf(sorted, rules) && FirstMatch(sorted, source, target) == a;
      FirstMatchWins(sorted, rules, source, target);
    }
    if Wins(rules, source, target, a) {
      if p :| IsTop(rules, source, target, p) && p.action == a {
        TopIsReached(rules, source, target, p);
      } else {
        var sorted := SomeSortExists(rules);
        FirstMatchWins(sorted, rules, source, target);
      }
    }
  }

  // ---------------------------------------------------------------------
  // Whom a rule is about
  // ---------------------------------------------------------------------

  /** The rule names the pair, each end by name or by "*". */
  predicate Names(p: Rule, source: string, target: string) {
    p.sourceId in {source, "*"} && p.targetId in {target, "*"}
  }

  /** A rule speaks for the pair it names, and for the reverse pair only if it is bidirectional. */
  predicate SpeaksFor(p: Rule, source: string, target: string) {
    Names(p, source, target) || (p.direction == Bidirectional && Names(p, target, source))
  }

  lemma MatchesExactlyWhenItSpeaks(p: Rule, source: string, target: string)
    ensures Matches(p, source, target) <==> SpeaksFor(p, source, target)
  {
  }

  /**
   * The rule in terms of a policy's fields: what Evaluate may return is the action of a rule
   * that speaks for the pair and that no other such rule outranks, and deny when none speaks.
   */
  lemma DecidedByWhoSpeaks(rules: seq<Rule>, source: string, target: string, a: Action)
    ensures MayDecide(rules, source, target, a) <==>
            || (exists p :: p in rules && SpeaksFor(p, source, target) && p.action == a
                            && forall q :: q in rules && q.priority > p.priority ==> !SpeaksFor(q, source, target))
            || (a == Deny && forall p :: p in rules ==> !SpeaksFor(p, source, target))
  {
    MayDecideIsWins(rules, source, target, a);
    forall p ensures Matches(p, source, target) <==> SpeaksFor(p, source, target) {
      MatchesExactlyWhenItSpeaks(p, source, target);
    }
  }

  /** One rule alone decides for the pairs it speaks for, and deny stands for all others. */
  lemma OneRuleDecides(p: Rule, source: string, target: string, a: Action)
    ensures MayDecide([p], source, target, a) <==> a == if SpeaksFor(p, source, target) then p.action else Deny
  {
    DecidedByWhoSpeaks([p], source, target, a);
    assert p in [p];
  }

  /** A list without bidirectional rules that names the pair nowhere denies it, whatever it says of the reverse pair. */
  lemma OneWayRulesDoNotReverse(rules: seq<Rule>, source: string, target: string, a: Action)
    requires forall p :: p in rules ==> p.direction != Bidirectional
    requires forall p :: p in rules ==> !Names(p, source, target)
    ensures MayDecide(rules, source, target, a) <==> a == Deny
  {
    DecidedByWhoSpeaks(rules, source, target, a);
  }

  /** The list shown keeps the order: of two lists in a row, first what is listed of the first, then of the second. */
  lemma {:induction false} ListedInOrder(first: seq<Rule>, second: seq<Rule>, agent: string)
    ensures Concerning(first + second, agent) == Concerning(first, agent) + Concerning(second, agent)
    ensures |first| == 1 ==> Concerning(first, agent) == if Concerns(first[0], agent) then first else []
    decreases |second|
  {
    if second == [] {
      assert first + second == first;
    } else {
      var init := second[..|second| - 1];
      assert (first + second)[..|first + second| - 1] == first + init;
      ListedInOrder(first, init, agent);
    }
    if |first| == 1 { assert first[..0] == []; }
  }

  /** An agent is shown exactly the rules that speak for some pair it is part of. */
  lemma ListedExactlyWhenItSpeaks(rules: seq<Rule>, agent: string, p: Rule)
    ensures p in Concerning(rules, agent) <==>
            p in rules && exists peer :: SpeaksFor(p, agent, peer) || SpeaksFor(p, peer, agent)
  {
    ConcerningMembers(rules, agent, p);
    if Concerns(p, agent) {
      assert SpeaksFor(p, agent, p.targetId) || SpeaksFor(p, p.sourceId, agent);
    }
  }

  // ---------------------------------------------------------------------
  // Consequences
  // ---------------------------------------------------------------------

  /**
   * The decision is the same for every sort and every input order exactly when the
   * top-priority matches agree on the action.
   */
  lemma DecisionIsUniqueExactlyWhen(rules: seq<Rule>, source: string, target: string)
    ensures (forall a, b :: MayDecide(rules, source, target, a) && MayDecide(rules, source, target, b) ==> a == b)
            <==> forall p, q ::
                   IsTop(rules, source, target, p) && IsTop(rules, source, target, q) ==> p.action == q.action
  {
    forall a { MayDecideIsWins(rules, source, target, a); }
    if forall a, b :: MayDecide(rules, source, target, a) && MayDecide(rules, source, target, b) ==> a == b {
      forall p, q | IsTop(rules, source, target, p) && IsTop(rules, source, target, q) ensures p.action == q.action {
        assert Wins(rules, source, target, p.action) && Wins(rules, source, target, q.action);
      }
    }
  }

  /** Reordering the input changes no possible decision; with agreeing top matches it changes no decision at all. */
  lemma OrderDoesNotMatter(rules: seq<Rule>, rules': seq<Rule>, source: string, target: string, a: Action, b: Action)
    requires multiset(rules) == multiset(rules')
    requires forall p, q :: IsTop(rules, source, target, p) && IsTop(rules, source, target, q) ==> p.action == q.action
    requires MayDecide(rules, source, target, a) && MayDecide(rules', source, target, b)
    ensures a == b
  {
    DecisionIsUniqueExactlyWhen(rules, source, target);
    var sorted :| IsSortOf(sorted, rules') && FirstMatch(sorted, source, target) == b;
    assert IsSortOf(sorted, rules);
    assert MayDecide(rules, source, target, b);
  }

  /** With only bidirectional policies, both directions have the same possible decisions. */
  lemma BidirectionalIsSymmetric(rules: seq<Rule>, x: string, y: string, a: Action)
    requires forall p :: p in rules ==> p.direction == Bidirectional
    ensures MayDecide(rules, x, y, a) <==> MayDecide(rules, y, x, a)
  {
    MayDecideIsWins(rules, x, y, a);
    MayDecideIsWins(rules, y, x, a);
    assert forall p :: p in rules ==> (Matches(p, x, y) <==> Matches(p, y, x));
    assert forall p :: IsTop(rules, x, y, p) <==> IsTop(rules, y, x, p);
  }

  lemma {:induction false} ConcerningMembers(rules: seq<Rule>, agent: string, p: Rule)
    ensures p in Concerning(rules, agent) <==> p in rules && Concerns(p, agent)
  {
    if rules != [] {
      assert rules == rules[..|rules| - 1] + [rules[|rules| - 1]];
      ConcerningMembers(rules[..|rules| - 1], agent, p);
    }
  }

  lemma SameMatchesSameWins(rules: seq<Rule>, rules': seq<Rule>, source: string, target: string, a: Action)
    requires forall p :: Matches(p, source, target) ==> (p in rules <==> p in rules')
    ensures Wins(rules, source, target, a) <==> Wins(rules', source, target, a)
  {
    assert forall p :: IsTop(rules, source, target, p) <==> IsTop(rules', source, target, p);
    assert (forall q :: q in rules ==> !Matches(q, source, target))
           <==> (forall q :: q in rules' ==> !Matches(q, source, target));
  }

  /** The list an agent may query decides exactly like the full list, for it and towards it. */
  lemma ListedPoliciesDecideAlike(rules: seq<Rule>, agent: string, peer: string, a: Action)
    ensures MayDecide(Concerning(rules, agent), agent, peer, a) <==> MayDecide(rules, agent, peer, a)
    ensures MayDecide(Concerning(rules, agent), peer, agent, a) <==> MayDecide(rules, peer, agent, a)
  {
    var listed := Concerning(rules, agent);
    forall p ensures p in listed <==> p in rules && Concerns(p, agent) {
      ConcerningMembers(rules, agent, p);
    }
    SameMatchesSameWins(listed, rules, agent, peer, a);
    SameMatchesSameWins(listed, rules, peer, agent, a);
    MayDecideIsWins(listed, agent, peer, a);
    MayDecideIsWins(rules, agent, peer, a);
    MayDecideIsWins(listed, peer, agent, a);
    MayDecideIsWins(rules, peer, agent, a);
  }
}
