/**
  Rule selection with its trace: the exact rule, else the first matching wildcard, else the
  default. The trace is a list of objects; the one selected is marked in place after the
  search has pushed it.

  How a single condition is matched is the parameter `Matcher`.
 */
module PolicyTrace {
  import opened Basics

  datatype Approval = Never | Required | Deny

  datatype Decision = Allow | RequireApproval | Denied

  datatype Condition = Condition(key: string, expected: string)

  datatype Rule = Rule(approval: Approval, conditions: seq<Condition>)

  datatype Tool = Tool(pattern: string, rule: Rule)

  /** `tools` in the order of `Object.entries`; its keys are distinct. */
  datatype Policy = Policy(tools: seq<Tool>, default: Rule)

  type Matcher = Condition -> bool

  datatype MatchType = Exact | Wildcard | Default

  datatype Entry = Entry(matchType: MatchType, pattern: string, matched: seq<bool>, conditionsMatched: bool, selected: bool)

  ghost predicate DistinctPatterns(p: Policy) {
    forall i, j | 0 <= i < j < |p.tools| :: p.tools[i].pattern != p.tools[j].pattern
  }

  function DecisionOf(r: Rule): Decision {
    match r.approval
    case Never => Allow
    case Required => RequireApproval
    case Deny => Denied
  }

  predicate Holds(r: Rule, m: Matcher) {
    forall c | c in r.conditions :: m(c)
  }

  function EvaluateConditions(cs: seq<Condition>, m: Matcher): (r: seq<bool>)
    ensures |r| == |cs| && forall i | 0 <= i < |cs| :: r[i] == m(cs[i])
  {
    seq(|cs|, i requires 0 <= i < |cs| => m(cs[i]))
  }

  /** The pattern is `prefix*` with a prefix that ends in a dot, and the tool name starts with that prefix. */
  predicate Covers(pattern: string, toolName: string) {
    && |pattern| >= 2
    && pattern[|pattern| - 2..] == ".*"
    && pattern[..|pattern| - 1] <= toolName
  }

  function FindExact(tools: seq<Tool>, toolName: string): Option<Rule> {
    if tools == [] then None
    else if tools[0].pattern == toolName then Some(tools[0].rule)
    else FindExact(tools[1..], toolName)
  }

  predicate Applies(tool: Tool, toolName: string, m: Matcher) {
    Covers(tool.pattern, toolName) && Holds(tool.rule, m)
  }

  // ------------------------------------------------------------ the trace

  function EntryOf(matchType: MatchType, pattern: string, r: Rule, m: Matcher, selected: bool): Entry {
    Entry(matchType, pattern, EvaluateConditions(r.conditions, m), Holds(r, m), selected)
  }

  /** The wildcard rules that are tried, the last one selected if its conditions hold. */
  function WildcardEntries(tools: seq<Tool>, toolName: string, m: Matcher): seq<Entry> {
    if tools == [] then []
    else if !Covers(tools[0].pattern, toolName) then WildcardEntries(tools[1..], toolName, m)
    else
      var holds := Holds(tools[0].rule, m);
      [EntryOf(Wildcard, tools[0].pattern, tools[0].rule, m, holds)]
      + if holds then [] else WildcardEntries(tools[1..], toolName, m)
  }

  /** The first wildcard rule that covers the tool and whose conditions hold. */
  function FirstWildcard(tools: seq<Tool>, toolName: string, m: Matcher): Option<Tool> {
    if tools == [] then None
    else if Covers(tools[0].pattern, toolName) && Holds(tools[0].rule, m) then Some(tools[0])
    else FirstWildcard(tools[1..], toolName, m)
  }

  const DEFAULT_ENTRY: Entry := Entry(Default, "default", [], true, true)

  function ExactEntries(p: Policy, toolName: string, m: Matcher): seq<Entry> {
    match FindExact(p.tools, toolName)
    case None => []
    case Some(r) => [EntryOf(Exact, toolName, r, m, Holds(r, m))]
  }

  function TraceOf(p: Policy, toolName: string, m: Matcher): seq<Entry> {
    var exact := FindExact(p.tools, toolName);
    if exact.Some? && Holds(exact.value, m) then ExactEntries(p, toolName, m)
    else
      ExactEntries(p, toolName, m) + WildcardEntries(p.tools, toolName, m)
      + if FirstWildcard(p.tools, toolName, m).Some? then [] else [DEFAULT_ENTRY]
  }

  class RuleEvaluation {
    const matchType: MatchType
    const pattern: string
    const matched: seq<bool>
    const conditionsMatched: bool
    var selected: bool

    constructor (matchType: MatchType, pattern: string, matched: seq<bool>, conditionsMatched: bool)
      ensures View() == Entry(matchType, pattern, matched, conditionsMatched, false)
    {
      this.matchType, this.pattern, this.matched := matchType, pattern, matched;
      this.conditionsMatched, selected := conditionsMatched, false;
    }

    function View(): Entry
      reads this
    {
      Entry(matchType, pattern, matched, conditionsMatched, selected)
    }
  }

  /** What the list of objects shows at the moment. */
  ghost predicate Shows(es: seq<RuleEvaluation>, vs: seq<Entry>)
    reads es
  {
    |es| == |vs| && forall i | 0 <= i < |es| :: es[i].View() == vs[i]
  }

  datatype Evaluation = Evaluation(decision: Decision, rule: Rule, matchedRule: string)

  method Every(matched: seq<bool>) returns (all: bool)
    ensures all <==> forall i | 0 <= i < |matched| :: matched[i]
  {
    for i := 0 to |matched|
      invariant forall k | 0 <= k < i :: matched[k]
    {
      if !matched[i] {
        return false;
      }
    }
    return true;
  }

  method NewEvaluation(matchType: MatchType, pattern: string, r: Rule, m: Matcher) returns (e: RuleEvaluation)
    ensures fresh(e)
    ensures e.View() == EntryOf(matchType, pattern, r, m, false)
  {
    var matched := EvaluateConditions(r.conditions, m);
    var all := Every(matched);
    e := new RuleEvaluation(matchType, pattern, matched, all);
    assert all == Holds(r, m) by {
      if all {
        forall c | c in r.conditions ensures m(c) {
          var i :| 0 <= i < |r.conditions| && r.conditions[i] == c;
          assert matched[i];
        }
      } else {
        var i :| 0 <= i < |matched| && !matched[i];
        assert r.conditions[i] in r.conditions;
      }
    }
  }

  /** The same entries with the last one not yet marked as selected. */
  function Unmarked(es: seq<Entry>): seq<Entry> {
    if es == [] then [] else es[..|es| - 1] + [es[|es| - 1].(selected := false)]
  }

  /** One round of the search, after `tried` has been pushed. */
  lemma WildcardRound(tools: seq<Tool>, toolName: string, m: Matcher, tried: seq<Entry>, i: nat)
    requires i < |tools|
    ensures var all := tried + WildcardEntries(tools[i..], toolName, m);
            var e := EntryOf(Wildcard, tools[i].pattern, tools[i].rule, m, false);
            if !Covers(tools[i].pattern, toolName) then all == tried + WildcardEntries(tools[i + 1..], toolName, m)
            else if e.conditionsMatched then Unmarked(all) == tried + [e] && all != []
            else all == (tried + [e]) + WildcardEntries(tools[i + 1..], toolName, m)
    ensures FirstWildcard(tools[i..], toolName, m)
         == if Applies(tools[i], toolName, m) then Some(tools[i]) else FirstWildcard(tools[i + 1..], toolName, m)
  {
    assert tools[i..][0] == tools[i] && tools[i..][1..] == tools[i + 1..];
    var e := EntryOf(Wildcard, tools[i].pattern, tools[i].rule, m, false);
    if Covers(tools[i].pattern, toolName) && e.conditionsMatched {
      var all := tried + WildcardEntries(tools[i..], toolName, m);
      assert all == tried + [e.(selected := true)];
      assert all[..|all| - 1] == tried;
    }
  }

  /** No two entries of the list are the same object. */
  ghost predicate Apart(es: seq<RuleEvaluation>) {
    forall i, j | 0 <= i < j < |es| :: es[i] != es[j]
  }

  lemma PushOne(es: seq<RuleEvaluation>, vs: seq<Entry>, e: RuleEvaluation)
    requires Shows(es, vs) && Apart(es) && e !in es
    ensures Shows(es + [e], vs + [e.View()]) && Apart(es + [e])
  {
  }

  /** Where the loop stands: `tried` is pushed, and the rules from the `i`-th on are left. */
  ghost predicate Searching(p: Policy, toolName: string, m: Matcher, tried: seq<Entry>, i: nat) {
    && i <= |p.tools|
    && WildcardEntries(p.tools, toolName, m) == tried + WildcardEntries(p.tools[i..], toolName, m)
    && FirstWildcard(p.tools, toolName, m) == FirstWildcard(p.tools[i..], toolName, m)
  }

  /** One round of the search. */
  lemma SearchOn(p: Policy, toolName: string, m: Matcher, tried: seq<Entry>, i: nat)
    requires i < |p.tools| && Searching(p, toolName, m, tried, i)
    ensures var tool := p.tools[i];
            var e := EntryOf(Wildcard, tool.pattern, tool.rule, m, false);
            && (!Covers(tool.pattern, toolName) ==> Searching(p, toolName, m, tried, i + 1))
            && (Covers(tool.pattern, toolName) && !e.conditionsMatched ==> Searching(p, toolName, m, tried + [e], i + 1))
            && (Covers(tool.pattern, toolName) && e.conditionsMatched ==>
                  FirstWildcard(p.tools, toolName, m) == Some(tool)
                  && Unmarked(WildcardEntries(p.tools, toolName, m)) == tried + [e])
  {
    WildcardRound(p.tools, toolName, m, tried, i);
  }

  /** `findWildcardRule` pushes what it tries; the evaluation it returns is still unselected. */
  method FindWildcardRule(p: Policy, toolName: string, m: Matcher)
    returns (pushed: seq<RuleEvaluation>, found: Option<Tool>)
    ensures fresh(pushed) && Apart(pushed)
    ensures found == FirstWildcard(p.tools, toolName, m)
    ensures found.Some? ==> pushed != []
    ensures var all := WildcardEntries(p.tools, toolName, m);
            Shows(pushed, if found.Some? then Unmarked(all) else all)
  {
    pushed, found := [], None;
    var i := 0;
    ghost var tried: seq<Entry> := [];
    assert p.tools[0..] == p.tools;
    while i < |p.tools|
      invariant fresh(pushed) && Apart(pushed) && Shows(pushed, tried)
      invariant 0 <= i <= |p.tools| && Searching(p, toolName, m, tried, i)
    {
      SearchOn(p, toolName, m, tried, i);
      var tool := p.tools[i];
      i := i + 1;
      if !Covers(tool.pattern, toolName) {
        continue;
      }
      var evaluation := NewEvaluation(Wildcard, tool.pattern, tool.rule, m);
      PushOne(pushed, tried, evaluation);
      pushed := pushed + [evaluation];
      tried := tried + [evaluation.View()];
      if evaluation.conditionsMatched {
        return pushed, Some(tool);
      }
    }
    assert tried + [] == tried;
  }

  method EvaluatePolicyTrace(p: Policy, toolName: string, m: Matcher)
    returns (evaluation: Evaluation, fallbackPath: seq<MatchType>, matchType: MatchType, trace: seq<RuleEvaluation>)
    ensures Shows(trace, TraceOf(p, toolName, m))
    ensures fallbackPath == Kinds(TraceOf(p, toolName, m))
    ensures Selected(p, toolName, m) == (matchType, evaluation.matchedRule, evaluation.rule)
    ensures evaluation.decision == DecisionOf(evaluation.rule)
  {
    trace := [];
    var exact := FindExact(p.tools, toolName);
    if exact.Some? {
      var exactEvaluation := NewEvaluation(Exact, toolName, exact.value, m);
      if exactEvaluation.conditionsMatched {
        exactEvaluation.selected := true;
        trace := [exactEvaluation];
        TraceKinds(p, toolName, m);
        return Evaluation(DecisionOf(exact.value), exact.value, toolName), [Exact], Exact, trace;
      }
      trace := [exactEvaluation];
    }
    var rule, kind, pattern;
    rule, pattern, kind, fallbackPath, trace := Fallback(p, toolName, m, trace);
    return Evaluation(DecisionOf(rule), rule, pattern), fallbackPath, kind, trace;
  }

  /** The part of `evaluatePolicyTrace` behind an exact rule that is absent or failed. */
  method Fallback(p: Policy, toolName: string, m: Matcher, tried: seq<RuleEvaluation>)
    returns (rule: Rule, pattern: string, kind: MatchType, fallbackPath: seq<MatchType>, trace: seq<RuleEvaluation>)
    requires FindExact(p.tools, toolName).Some? ==> !Holds(FindExact(p.tools, toolName).value, m)
    requires Shows(tried, ExactEntries(p, toolName, m))
    ensures Shows(trace, TraceOf(p, toolName, m))
    ensures fallbackPath == Kinds(TraceOf(p, toolName, m))
    ensures Selected(p, toolName, m) == (kind, pattern, rule)
  {
    var exact := tried != [];
    FallbackTrace(p, toolName, m);
    ghost var first, wild := ExactEntries(p, toolName, m), WildcardEntries(p.tools, toolName, m);
    var pushed, wildcard := FindWildcardRule(p, toolName, m);
    if wildcard.Some? {
      trace := EndWithWildcard(tried, pushed, first, wild);
      return wildcard.value.rule, wildcard.value.pattern, Wildcard,
             if exact then [Exact, Wildcard] else [Wildcard], trace;
    }
    ShowsJoined(tried, pushed, first, wild);
    trace, fallbackPath := DefaultRule(tried + pushed, exact, first, wild);
    return p.default, "default", Default, fallbackPath, trace;
  }

  /** The trace behind an exact rule that is absent or failed, and the kinds in it. */
  lemma FallbackTrace(p: Policy, toolName: string, m: Matcher)
    requires FindExact(p.tools, toolName).Some? ==> !Holds(FindExact(p.tools, toolName).value, m)
    ensures var first, wild := ExactEntries(p, toolName, m), WildcardEntries(p.tools, toolName, m);
            var exact: seq<MatchType> := if first != [] then [Exact] else [];
            && LastSelected(wild, FirstWildcard(p.tools, toolName, m).Some?)
            && (forall e | e in first :: e.matchType == Exact)
            && (forall e | e in wild :: e.matchType == Wildcard)
            && (FirstWildcard(p.tools, toolName, m).Some? ==>
                  TraceOf(p, toolName, m) == first + wild
                  && Kinds(TraceOf(p, toolName, m)) == exact + [Wildcard])
            && (FirstWildcard(p.tools, toolName, m).None? ==>
                  TraceOf(p, toolName, m) == first + wild + [DEFAULT_ENTRY]
                  && Kinds(TraceOf(p, toolName, m)) == exact + (if wild == [] then [] else [Wildcard]) + [Default])
  {
    TraceKinds(p, toolName, m);
    WildcardLast(p.tools, toolName, m);
    WildcardKinds(p.tools, toolName, m);
    var first, wild := ExactEntries(p, toolName, m), WildcardEntries(p.tools, toolName, m);
    assert first + wild + [] == first + wild;
  }

  lemma ShowsJoined(a: seq<RuleEvaluation>, b: seq<RuleEvaluation>, vs: seq<Entry>, ws: seq<Entry>)
    requires Shows(a, vs) && Shows(b, ws)
    ensures Shows(a + b, vs + ws)
  {
  }

  /** `wildcardRule.evaluation.selected = true`: the object is the last one pushed. */
  method MarkSelected(pushed: seq<RuleEvaluation>, ghost es: seq<Entry>)
    requires pushed != [] && Shows(pushed, Unmarked(es)) && LastSelected(es, true)
    requires Apart(pushed)
    modifies pushed[|pushed| - 1]
    ensures Shows(pushed, es)
  {
    var last := pushed[|pushed| - 1];
    last.selected := true;
    forall i | 0 <= i < |pushed| ensures pushed[i].View() == es[i] {
      assert i < |pushed| - 1 ==> pushed[i] != last;
    }
  }

  method EndWithWildcard(tried: seq<RuleEvaluation>, pushed: seq<RuleEvaluation>, ghost first: seq<Entry>,
      ghost wild: seq<Entry>)
    returns (trace: seq<RuleEvaluation>)
    requires Shows(tried, first)
    requires pushed != [] && Shows(pushed, Unmarked(wild)) && LastSelected(wild, true) && Apart(pushed)
    requires pushed[|pushed| - 1] !in tried
    modifies pushed[|pushed| - 1]
    ensures Shows(trace, first + wild)
  {
    MarkSelected(pushed, wild);
    ShowsJoined(tried, pushed, first, wild);
    return tried + pushed;
  }

  method DefaultRule(evaluations: seq<RuleEvaluation>, exact: bool, ghost first: seq<Entry>, ghost wild: seq<Entry>)
    returns (trace: seq<RuleEvaluation>, fallbackPath: seq<MatchType>)
    requires Shows(evaluations, first + wild)
    requires forall e | e in first :: e.matchType == Exact
    requires forall e | e in wild :: e.matchType == Wildcard
    ensures Shows(trace, first + wild + [DEFAULT_ENTRY])
    ensures fallbackPath == (if exact then [Exact] else []) + (if wild == [] then [] else [Wildcard]) + [Default]
  {
    var anyWildcard := SomeWildcard(evaluations);
    assert anyWildcard <==> wild != [] by {
      assert forall i | 0 <= i < |first| :: (first + wild)[i] in first;
      assert forall i | |first| <= i < |evaluations| :: (first + wild)[i] in wild;
      if wild != [] {
        assert evaluations[|first|].View() in wild;
      }
    }
    var defaultRule := new RuleEvaluation(Default, "default", [], true);
    defaultRule.selected := true;
    trace := evaluations + [defaultRule];
    fallbackPath := (if exact then [Exact] else []) + (if anyWildcard then [Wildcard] else []) + [Default];
  }

  /** `ruleEvaluations.some(...)`. */
  method SomeWildcard(es: seq<RuleEvaluation>) returns (some: bool)
    ensures some <==> exists i :: 0 <= i < |es| && es[i].View().matchType == Wildcard
  {
    for i := 0 to |es|
      invariant forall k | 0 <= k < i :: es[k].View().matchType != Wildcard
    {
      if es[i].matchType == Wildcard {
        assert es[i].View().matchType == Wildcard;
        return true;
      }
    }
    return false;
  }

  // ------------------------------------------------------------ what the trace says

  /** The rule in force, by the simple rule: exact, else first wildcard, else default. */
  function Selected(p: Policy, toolName: string, m: Matcher): (MatchType, string, Rule) {
    var exact := FindExact(p.tools, toolName);
    if exact.Some? && Holds(exact.value, m) then (Exact, toolName, exact.value)
    else
      match FirstWildcard(p.tools, toolName, m)
      case Some(tool) => (Wildcard, tool.pattern, tool.rule)
      case None => (Default, "default", p.default)
  }

  /** The kinds of the entries, each once, in order. */
  function Kinds(es: seq<Entry>): seq<MatchType> {
    if es == [] then []
    else
      var before := Kinds(es[..|es| - 1]);
      if es[|es| - 1].matchType in before then before else before + [es[|es| - 1].matchType]
  }

  lemma {:induction false} WildcardKinds(tools: seq<Tool>, toolName: string, m: Matcher)
    ensures forall e | e in WildcardEntries(tools, toolName, m) :: e.matchType == Wildcard
  {
    if tools != [] {
      WildcardKinds(tools[1..], toolName, m);
    }
  }

  /** Nothing is selected but the last, which is if `found`; and an entry is selected when its conditions hold. */
  ghost predicate LastSelected(es: seq<Entry>, found: bool) {
    && (found ==> es != [])
    && forall i | 0 <= i < |es| :: es[i].selected == es[i].conditionsMatched == (found && i == |es| - 1)
  }

  lemma LastSelectedCons(e: Entry, es: seq<Entry>, found: bool)
    requires !e.selected && !e.conditionsMatched && LastSelected(es, found)
    ensures LastSelected([e] + es, found)
  {
  }

  lemma {:induction false} WildcardLast(tools: seq<Tool>, toolName: string, m: Matcher)
    ensures var es, first := WildcardEntries(tools, toolName, m), FirstWildcard(tools, toolName, m);
            LastSelected(es, first.Some?) && (first.Some? ==> es[|es| - 1].pattern == first.value.pattern)
  {
    if tools != [] {
      WildcardLast(tools[1..], toolName, m);
      var rest := WildcardEntries(tools[1..], toolName, m);
      if Covers(tools[0].pattern, toolName) && !Holds(tools[0].rule, m) {
        LastSelectedCons(EntryOf(Wildcard, tools[0].pattern, tools[0].rule, m, false), rest,
                         FirstWildcard(tools[1..], toolName, m).Some?);
      }
    }
  }

  lemma {:induction false} KindsOfAlike(first: seq<Entry>, es: seq<Entry>, kind: MatchType)
    requires forall e | e in es :: e.matchType == kind
    requires kind !in Kinds(first)
    ensures Kinds(first + es) == Kinds(first) + if es == [] then [] else [kind]
    decreases |es|
  {
    if es == [] {
      assert first + es == first;
      assert Kinds(first) + [] == Kinds(first);
    } else {
      var front := es[..|es| - 1];
      KindsOfAlike(first, front, kind);
      assert (first + es)[..|first + es| - 1] == first + front;
      assert (first + es)[|first + es| - 1] == es[|es| - 1];
      assert es[|es| - 1] in es;
      assert Kinds(first) + [] == Kinds(first);
    }
  }

  lemma TraceKinds(p: Policy, toolName: string, m: Matcher)
    ensures var exact, wild := FindExact(p.tools, toolName), WildcardEntries(p.tools, toolName, m);
            Kinds(TraceOf(p, toolName, m)) ==
            if exact.Some? && Holds(exact.value, m) then [Exact]
            else
              (if exact.Some? then [Exact] else []) + (if wild != [] then [Wildcard] else [])
              + if FirstWildcard(p.tools, toolName, m).Some? then [] else [Default]
  {
    var exact, wild := FindExact(p.tools, toolName), WildcardEntries(p.tools, toolName, m);
    var first := ExactEntries(p, toolName, m);
    assert Kinds(first) == if exact.Some? then [Exact] else [];
    WildcardKinds(p.tools, toolName, m);
    KindsOfAlike(first, wild, Wildcard);
    var last := if FirstWildcard(p.tools, toolName, m).Some? then [] else [DEFAULT_ENTRY];
    KindsOfAlike(first + wild, last, Default);
  }

  /**
    Exactly one entry is selected and it is the last; every entry before it failed a condition,
    and the selected one is the rule in force.
   */
  lemma OneSelectedAndLast(p: Policy, toolName: string, m: Matcher)
    ensures var t := TraceOf(p, toolName, m);
            && t != []
            && (forall i | 0 <= i < |t| ::
                  t[i].selected == t[i].conditionsMatched && (t[i].selected <==> i == |t| - 1))
            && Selected(p, toolName, m).0 == t[|t| - 1].matchType
            && Selected(p, toolName, m).1 == t[|t| - 1].pattern
  {
    WildcardLast(p.tools, toolName, m);
    WildcardKinds(p.tools, toolName, m);
    var wild := WildcardEntries(p.tools, toolName, m);
    if wild != [] {
      assert wild[|wild| - 1] in wild;
    }
  }

  /** The `i`-th rule is a wildcard rule that applies, and none before it does. */
  ghost predicate FirstAt(tools: seq<Tool>, toolName: string, m: Matcher, i: nat) {
    i < |tools| && Applies(tools[i], toolName, m) && forall j: nat | j < i :: !Applies(tools[j], toolName, m)
  }

  lemma {:induction false} FirstWildcardIsFirst(tools: seq<Tool>, toolName: string, m: Matcher)
    ensures match FirstWildcard(tools, toolName, m)
            case None => forall i: nat | i < |tools| :: !Applies(tools[i], toolName, m)
            case Some(tool) => exists i: nat :: FirstAt(tools, toolName, m, i) && tools[i] == tool
  {
    if tools != [] {
      var rest := tools[1..];
      if Applies(tools[0], toolName, m) {
        assert FirstAt(tools, toolName, m, 0);
      } else {
        FirstWildcardIsFirst(rest, toolName, m);
        if FirstWildcard(rest, toolName, m).Some? {
          var i: nat :| FirstAt(rest, toolName, m, i) && rest[i] == FirstWildcard(rest, toolName, m).value;
          forall j: nat | j < i + 1 ensures !Applies(tools[j], toolName, m) {
            assert j > 0 ==> tools[j] == rest[j - 1];
          }
          assert FirstAt(tools, toolName, m, i + 1);
        }
      }
    }
  }

  lemma {:induction false} FindExactFinds(tools: seq<Tool>, toolName: string)
    ensures match FindExact(tools, toolName)
            case None => forall i | 0 <= i < |tools| :: tools[i].pattern != toolName
            case Some(r) => Tool(toolName, r) in tools
  {
    if tools != [] && tools[0].pattern != toolName {
      FindExactFinds(tools[1..], toolName);
    }
  }

  /**
    The rule in force, without the search: the tool's own rule if its conditions hold; else a
    wildcard rule that applies and has no applicable wildcard rule before it; else, when there
    is neither, the default.
   */
  lemma SelectionMeaning(p: Policy, toolName: string, m: Matcher)
    requires DistinctPatterns(p)
    ensures var (kind, pattern, rule) := Selected(p, toolName, m);
            var exactHolds := exists r :: Tool(toolName, r) in p.tools && Holds(r, m);
            && (kind == Exact <==> exactHolds)
            && (kind == Exact ==> pattern == toolName && Tool(toolName, rule) in p.tools && Holds(rule, m))
            && (kind == Wildcard ==> exists i: nat ::
                  FirstAt(p.tools, toolName, m, i) && p.tools[i] == Tool(pattern, rule))
            && (kind == Default <==>
                  !exactHolds && forall i: nat | i < |p.tools| :: !Applies(p.tools[i], toolName, m))
            && (kind == Default ==> rule == p.default)
  {
    FirstWildcardIsFirst(p.tools, toolName, m);
    FindExactFinds(p.tools, toolName);
    var exact := FindExact(p.tools, toolName);
    forall r | Tool(toolName, r) in p.tools ensures exact == Some(r) {
      var i :| 0 <= i < |p.tools| && p.tools[i] == Tool(toolName, r);
      var j :| 0 <= j < |p.tools| && p.tools[j] == Tool(toolName, exact.value);
      assert i == j;
    }
  }
}
