/**
  Narrowing a policy decision by the content a scope has been exposed to, the evidence that
  binds the decision to the exposures it was computed from, and the guard that compares them
  again when the call is dispatched.

  The hash of the evidence is a parameter, assumed injective.
 */
module ContentInfluence {
  import opened Basics
  import opened ContentExposures

  datatype Approval = Never | Required | Deny

  datatype Decision = Allow | RequireApproval | Denied

  datatype Source = NoSource | From(integrity: Integrity)

  /** `otherwise` is never `Never`: a guard only narrows. */
  datatype Guard = Guard(allowFrom: seq<Source>, otherwise: Approval)

  datatype Rule = Rule(approval: Approval, influence: Option<Guard>)

  const SOURCE_ORDER: seq<Source> := [
    NoSource, From(OrganizationManaged), From(VerifiedPublisher),
    From(AuthenticatedExternal), From(PublicUntrusted), From(Unknown)]

  function Strictness(a: Approval): nat {
    match a
    case Never => 1
    case Required => 2
    case Deny => 3
  }

  function StricterApproval(base: Approval, restriction: Approval): Approval {
    if Strictness(restriction) > Strictness(base) then restriction else base
  }

  function DecisionForApproval(a: Approval): Decision {
    match a
    case Never => Allow
    case Required => RequireApproval
    case Deny => Denied
  }

  function Filter(order: seq<Source>, unique: set<Source>): seq<Source> {
    if order == [] then []
    else (if order[0] in unique then [order[0]] else []) + Filter(order[1..], unique)
  }

  function Unique(observed: seq<Integrity>): set<Source> {
    set i | i in observed :: From(i)
  }

  function NormalizedObservedSources(observed: seq<Integrity>, scopeVerified: bool): seq<Source> {
    if !scopeVerified then [From(Unknown)]
    else Filter(SOURCE_ORDER, if observed == [] then {NoSource} else Unique(observed))
  }

  datatype Evaluation = Evaluation(
    baseDecision: Decision,
    effectiveApproval: Approval,
    effectiveDecision: Decision,
    observedSources: seq<Source>,
    restrictionApplied: bool,
    sourcesAllowed: bool)

  predicate AllAllowed(sources: seq<Source>, guard: Guard) {
    forall s | s in sources :: s in guard.allowFrom
  }

  function EvaluateContentInfluence(rule: Rule, observed: seq<Integrity>, scopeVerified: bool): Evaluation {
    var base := DecisionForApproval(rule.approval);
    var sources := NormalizedObservedSources(observed, scopeVerified);
    if rule.influence.None? || AllAllowed(sources, rule.influence.value) then
      Evaluation(base, rule.approval, base, sources, false, true)
    else
      var effective := StricterApproval(rule.approval, rule.influence.value.otherwise);
      Evaluation(base, effective, DecisionForApproval(effective), sources, effective != rule.approval, false)
  }

  /** Normalisation keeps exactly what was observed. */
  lemma {:induction false} FilterKeeps(order: seq<Source>, unique: set<Source>, s: Source)
    ensures s in Filter(order, unique) <==> s in order && s in unique
  {
    if order != [] {
      FilterKeeps(order[1..], unique, s);
      assert order == [order[0]] + order[1..];
    }
  }

  lemma ObservedMeaning(observed: seq<Integrity>, scopeVerified: bool, s: Source)
    ensures s in NormalizedObservedSources(observed, scopeVerified) <==>
              if !scopeVerified then s == From(Unknown)
              else if observed == [] then s == NoSource
              else s.From? && s.integrity in observed
  {
    var unique := if observed == [] then {NoSource} else Unique(observed);
    FilterKeeps(SOURCE_ORDER, unique, s);
    InSourceOrder(s);
  }

  lemma InSourceOrder(s: Source)
    ensures s in SOURCE_ORDER
  {
    var o := SOURCE_ORDER;
    match s
    case NoSource => assert o[0] == s;
    case From(OrganizationManaged) => assert o[1] == s;
    case From(VerifiedPublisher) => assert o[2] == s;
    case From(AuthenticatedExternal) => assert o[3] == s;
    case From(PublicUntrusted) => assert o[4] == s;
    case From(Unknown) => assert o[5] == s;
  }

  /** Whatever was observed, the effective decision is at least as strict as the base decision. */
  lemma NeverLooser(rule: Rule, observed: seq<Integrity>, scopeVerified: bool)
    ensures var e := EvaluateContentInfluence(rule, observed, scopeVerified);
            && Strictness(e.effectiveApproval) >= Strictness(rule.approval)
            && e.effectiveDecision == DecisionForApproval(e.effectiveApproval)
            && e.baseDecision == DecisionForApproval(rule.approval)
            && (e.restrictionApplied <==> Strictness(e.effectiveApproval) > Strictness(rule.approval))
  {
  }

  // ------------------------------------------------------------ the gate's reading of a scope

  const MAX_INFLUENCE_EXPOSURES: nat := 256

  /** What a store that cannot be read is taken for. */
  const UNREADABLE: Listing := Listing(true, [], -1)

  /** `None` is a call without a scope; a scope too large to read counts as unknown content. */
  function ObservedIntegrities(lookup: Option<Listing>): seq<Integrity> {
    match lookup
    case None => []
    case Some(l) => if l.overflow then [Unknown] else Integrities(l.records)
  }

  function Integrities(records: seq<Exposure>): (r: seq<Integrity>)
    ensures |r| == |records| && forall i | 0 <= i < |r| :: r[i] == records[i].integrity
  {
    seq(|records|, i requires 0 <= i < |records| => records[i].integrity)
  }

  function Lookup(le: Order, history: seq<Exposure>): Listing {
    List(le, history, MAX_INFLUENCE_EXPOSURES)
  }

  /** The effective approval of a rule in a verified scope with these exposures. */
  function Effective(rule: Rule, le: Order, history: seq<Exposure>): Approval {
    EvaluateContentInfluence(rule, ObservedIntegrities(Some(Lookup(le, history))), true).effectiveApproval
  }

  predicate Overflows(history: seq<Exposure>) { |history| > MAX_INFLUENCE_EXPOSURES }

  /** Every exposure of the scope is of a kind the guard allows. */
  ghost predicate ExposuresAllowed(guard: Guard, history: seq<Exposure>) {
    forall r | r in history :: From(r.integrity) in guard.allowFrom
  }

  /** When the guard lets a scope pass: by its exposures, by their absence, or by their number. */
  ghost predicate Passes(guard: Guard, history: seq<Exposure>) {
    if Overflows(history) then From(Unknown) in guard.allowFrom
    else if history == [] then NoSource in guard.allowFrom
    else ExposuresAllowed(guard, history)
  }

  /** Which observations the guard lets pass. */
  ghost predicate ObservedAllowed(guard: Guard, observed: seq<Integrity>) {
    if observed == [] then NoSource in guard.allowFrom else forall i | i in observed :: From(i) in guard.allowFrom
  }

  lemma AllowedMeaning(guard: Guard, observed: seq<Integrity>)
    ensures AllAllowed(NormalizedObservedSources(observed, true), guard) <==> ObservedAllowed(guard, observed)
  {
    var sources := NormalizedObservedSources(observed, true);
    if AllAllowed(sources, guard) {
      ObservedMeaning(observed, true, NoSource);
      forall i | i in observed ensures From(i) in guard.allowFrom {
        ObservedMeaning(observed, true, From(i));
      }
    } else {
      var s :| s in sources && s !in guard.allowFrom;
      ObservedMeaning(observed, true, s);
    }
  }

  lemma IntegritiesAllowed(guard: Guard, records: seq<Exposure>, history: seq<Exposure>)
    requires forall x :: x in records <==> x in history
    ensures (forall i | i in Integrities(records) :: From(i) in guard.allowFrom) <==> ExposuresAllowed(guard, history)
  {
    var observed := Integrities(records);
    if ExposuresAllowed(guard, history) {
      forall i | i in observed ensures From(i) in guard.allowFrom {
        var k :| 0 <= k < |observed| && observed[k] == i;
        assert records[k] in history;
      }
    } else {
      var r :| r in history && From(r.integrity) !in guard.allowFrom;
      assert r in records;
      var k :| 0 <= k < |records| && records[k] == r;
      assert observed[k] in observed;
    }
  }

  lemma ReadingOfScope(le: Order, history: seq<Exposure>, guard: Guard)
    requires TotalPreorder(le)
    ensures AllAllowed(NormalizedObservedSources(ObservedIntegrities(Some(Lookup(le, history))), true), guard)
            <==> Passes(guard, history)
  {
    var l := Lookup(le, history);
    AllowedMeaning(guard, ObservedIntegrities(Some(l)));
    if !Overflows(history) {
      SortOrders(le, history);
      SameMembers(l.records, history);
      IntegritiesAllowed(guard, l.records, history);
    }
  }

  lemma SameMembers(a: seq<Exposure>, b: seq<Exposure>)
    requires multiset(a) == multiset(b)
    ensures |a| == |b| && forall x :: x in a <==> x in b
  {
    assert |multiset(a)| == |a| && |multiset(b)| == |b|;
    forall x ensures x in a <==> x in b {
      assert x in a <==> x in multiset(a);
      assert x in b <==> x in multiset(b);
    }
  }

  /**
    When more exposures loosen the decision of a fixed rule: the guard is stricter than the
    rule, it held back the smaller scope, and it lets the larger one pass. That needs the very
    first exposure (nothing was observed and nothing is not allowed) or an overflow (the scope
    has become unreadable and unknown content is allowed).
   */
  ghost predicate Loosens(rule: Rule, history: seq<Exposure>, more: seq<Exposure>) {
    && rule.influence.Some?
    && var guard := rule.influence.value;
       && Strictness(guard.otherwise) > Strictness(rule.approval)
       && !Passes(guard, history)
       && (if Overflows(history + more) then !Overflows(history) && From(Unknown) in guard.allowFrom
           else history == [] && more != [] && ExposuresAllowed(guard, more))
  }

  lemma PassesLater(guard: Guard, history: seq<Exposure>, more: seq<Exposure>)
    ensures !Passes(guard, history) && Passes(guard, history + more) <==>
              !Passes(guard, history)
              && if Overflows(history + more) then !Overflows(history) && From(Unknown) in guard.allowFrom
                 else history == [] && more != [] && ExposuresAllowed(guard, more)
  {
    if history == [] {
      assert history + more == more;
    } else if !Overflows(history + more) && Passes(guard, history + more) {
      forall r | r in history ensures From(r.integrity) in guard.allowFrom {
        assert r in history + more;
      }
    }
  }

  lemma EffectiveMeaning(rule: Rule, le: Order, history: seq<Exposure>)
    requires TotalPreorder(le)
    ensures Effective(rule, le, history)
         == if rule.influence.None? || Passes(rule.influence.value, history) then rule.approval
            else StricterApproval(rule.approval, rule.influence.value.otherwise)
  {
    if rule.influence.Some? {
      ReadingOfScope(le, history, rule.influence.value);
    }
  }

  lemma LooserExactlyWhen(rule: Rule, le: Order, history: seq<Exposure>, more: seq<Exposure>)
    requires TotalPreorder(le)
    ensures Strictness(Effective(rule, le, history + more)) < Strictness(Effective(rule, le, history))
            <==> Loosens(rule, history, more)
  {
    EffectiveMeaning(rule, le, history);
    EffectiveMeaning(rule, le, history + more);
    if rule.influence.Some? {
      PassesLater(rule.influence.value, history, more);
    }
  }

  /** From the first exposure on, and as long as the scope can be read, exposures only narrow. */
  lemma NarrowsFromFirstExposure(rule: Rule, le: Order, history: seq<Exposure>, more: seq<Exposure>)
    requires TotalPreorder(le)
    requires history != [] && !Overflows(history + more)
    ensures Strictness(Effective(rule, le, history + more)) >= Strictness(Effective(rule, le, history))
  {
    LooserExactlyWhen(rule, le, history, more);
  }

  /** The first exposure can allow what an unexposed scope was denied. */
  lemma FirstExposureCanLoosen(le: Order, first: Exposure)
    requires TotalPreorder(le) && first.integrity == OrganizationManaged
    ensures var rule := Rule(Never, Some(Guard([From(OrganizationManaged)], Deny)));
            Effective(rule, le, []) == Deny && Effective(rule, le, [first]) == Never
  {
    var rule := Rule(Never, Some(Guard([From(OrganizationManaged)], Deny)));
    EffectiveMeaning(rule, le, []);
    EffectiveMeaning(rule, le, [first]);
  }

  /** One exposure too many can allow what the exposures before it forbade. */
  lemma OverflowCanLoosen(le: Order, history: seq<Exposure>, last: Exposure)
    requires TotalPreorder(le)
    requires |history| == MAX_INFLUENCE_EXPOSURES
    requires forall r | r in history :: r.integrity == PublicUntrusted
    ensures var rule := Rule(Never, Some(Guard([From(Unknown)], Deny)));
            Effective(rule, le, history) == Deny && Effective(rule, le, history + [last]) == Never
  {
    var rule := Rule(Never, Some(Guard([From(Unknown)], Deny)));
    assert history[0] in history;
    EffectiveMeaning(rule, le, history);
    EffectiveMeaning(rule, le, history + [last]);
  }

  // ------------------------------------------------------------ evidence

  datatype Reference = Reference(integrity: Integrity, sourceId: Option<string>, sourceToolCallId: string)

  /** The fields that the binding hash covers. */
  datatype Core<H> = Core(
    baseDecision: Decision,
    effectiveDecision: Decision,
    exposureRevision: int,
    snapshotHash: H,
    scopeId: Option<string>,
    scopeVerified: bool,
    observedSources: seq<Source>,
    policyVersionHash: string,
    policyVersionId: Option<string>,
    selectedRule: Guard,
    sourceCount: nat,
    sourceCountIsLowerBound: bool,
    sourceReferences: seq<Reference>)

  datatype Evidence<H> = Evidence(core: Core<H>, bindingHash: H, evaluatedAt: string)

  datatype Snapshot = Snapshot(exposureRevision: int, scopeId: Option<string>, overflow: bool, records: seq<Exposure>)

  datatype Hashes<!H> = Hashes(ofCore: Core<H> -> H, ofSnapshot: Snapshot -> H)

  ghost predicate CollisionFree<H(!new)>(h: Hashes<H>) {
    && (forall a, b | h.ofCore(a) == h.ofCore(b) :: a == b)
    && (forall a, b | h.ofSnapshot(a) == h.ofSnapshot(b) :: a == b)
  }

  predicate LowerHex(c: char) { '0' <= c <= '9' || 'a' <= c <= 'f' }

  predicate IsScopeId(id: string) {
    |id| == 74 && id[..10] == "influence_" && forall i | 10 <= i < 74 :: LowerHex(id[i])
  }

  const MAX_REFERENCES: nat := 32

  /** `ordered` are the looked up records in the order of their source tool calls. */
  function BuildEvidence<H>(
    h: Hashes<H>, e: Evaluation, lookup: Option<Listing>, ordered: seq<Exposure>, scopeId: Option<string>,
    policyVersionHash: string, policyVersionId: Option<string>, guard: Guard, evaluatedAt: string): Evidence<H>
  {
    var revision := if lookup.Some? then lookup.value.revision else 0;
    var overflow := lookup.Some? && lookup.value.overflow;
    var core := Core(
      e.baseDecision, e.effectiveDecision, revision,
      h.ofSnapshot(Snapshot(revision, scopeId, overflow, ordered)),
      scopeId, scopeId.Some? && scopeId.value != "", e.observedSources,
      policyVersionHash, policyVersionId, guard, |ordered|, overflow, References(Take(ordered, MAX_REFERENCES)));
    Evidence(core, h.ofCore(core), evaluatedAt)
  }

  function References(records: seq<Exposure>): seq<Reference> {
    seq(|records|, i requires 0 <= i < |records| =>
      Reference(records[i].integrity, records[i].sourceId, records[i].sourceToolCallId))
  }

  function ValidBindingHash<H(==)>(h: Hashes<H>, e: Evidence<H>): Option<H> {
    var id := e.core.scopeId;
    if e.core.exposureRevision < 0
      || e.core.scopeVerified != (id.Some? && id.value != "")
      || (id.Some? && !IsScopeId(id.value))
      || h.ofCore(e.core) != e.bindingHash
    then None else Some(e.bindingHash)
  }

  datatype RevisionGuard = RevisionGuard(scopeId: string, revision: int)

  function RevisionGuardOf<H(==)>(h: Hashes<H>, e: Option<Evidence<H>>,
      authoritative: Option<string>): Option<RevisionGuard> {
    if authoritative.None? || authoritative.value == "" || e.None? || ValidBindingHash(h, e.value).None?
      || !e.value.core.scopeVerified || e.value.core.scopeId != authoritative
    then None else Some(RevisionGuard(authoritative.value, e.value.core.exposureRevision))
  }

  /** No field under the hash can be changed while the hash stays: valid evidence with equal hashes is equal. */
  lemma BindingHashBinds<H(!new)>(h: Hashes<H>, a: Evidence<H>, b: Evidence<H>)
    requires CollisionFree(h)
    requires ValidBindingHash(h, a).Some? && ValidBindingHash(h, b).Some?
    ensures a.bindingHash == b.bindingHash <==> a.core == b.core
  {
  }

  /** A store that could not be read (revision -1) never yields valid evidence. */
  lemma UnreadableStoreGivesNoEvidence<H(!new)>(
    h: Hashes<H>, e: Evaluation, scopeId: string, hash: string, versionId: Option<string>, guard: Guard, at: string)
    ensures ValidBindingHash(h, BuildEvidence(h, e, Some(UNREADABLE), [], Some(scopeId), hash, versionId, guard, at)).None?
  {
  }

  /** The comparison inside the dispatch transaction: no guard, or the scope's revision is the expected one. */
  predicate RevisionMatches(guard: Option<RevisionGuard>, scopes: map<string, seq<Exposure>>) {
    guard.Some? ==>
      guard.value.revision == (if guard.value.scopeId in scopes then |scopes[guard.value.scopeId]| else 0)
  }

  /** What a scope held before, it still holds. */
  ghost predicate Grows(before: map<string, seq<Exposure>>, after: map<string, seq<Exposure>>) {
    forall id | id in before :: id in after && exists more :: after[id] == RecordAll(before[id], more)
  }

  function HistoryOf(scopes: map<string, seq<Exposure>>, id: string): seq<Exposure> {
    if id in scopes then scopes[id] else []
  }

  /** The evidence of the decision on a rule in a verified scope that had these exposures. */
  ghost predicate DecidedAt<H>(
    h: Hashes<H>, le: Order, rule: Rule, scopeId: string, history: seq<Exposure>, ordered: seq<Exposure>, evidence: Evidence<H>)
  {
    && IsScopeId(scopeId) && rule.influence.Some?
    && var lookup := Lookup(le, history);
       var e := EvaluateContentInfluence(rule, ObservedIntegrities(Some(lookup)), true);
       evidence == BuildEvidence(h, e, Some(lookup), ordered, Some(scopeId), evidence.core.policyVersionHash,
                                 evidence.core.policyVersionId, rule.influence.value, evidence.evaluatedAt)
  }

  /** The guard of such evidence carries the revision the decision was computed at, and the evidence carries that decision. */
  lemma GuardOfDecision<H>(
    h: Hashes<H>, le: Order, rule: Rule, scopeId: string, history: seq<Exposure>, ordered: seq<Exposure>, evidence: Evidence<H>)
    requires DecidedAt(h, le, rule, scopeId, history, ordered, evidence)
    ensures RevisionGuardOf(h, Some(evidence), Some(scopeId)) == Some(RevisionGuard(scopeId, |history|))
    ensures evidence.core.effectiveDecision == DecisionForApproval(Effective(rule, le, history))
  {
    NeverLooser(rule, ObservedIntegrities(Some(Lookup(le, history))), true);
  }

  /**
    Dispatch happens at the decision's own revision. The evidence was computed from the scope
    as it was at some earlier time; if the guard it yields matches when the call is dispatched,
    the scope has the same exposures as then, and evaluating the rule at that moment would
    give the same decision and the same evidence.
   */
  lemma DispatchedAtDecisionRevision<H>(
    h: Hashes<H>, le: Order, rule: Rule, scopeId: string, before: map<string, seq<Exposure>>,
    after: map<string, seq<Exposure>>, ordered: seq<Exposure>, evidence: Evidence<H>)
    requires Grows(before, after)
    requires DecidedAt(h, le, rule, scopeId, HistoryOf(before, scopeId), ordered, evidence)
    ensures var guard := RevisionGuardOf(h, Some(evidence), Some(scopeId));
            && (RevisionMatches(guard, after) <==> HistoryOf(after, scopeId) == HistoryOf(before, scopeId))
            && (RevisionMatches(guard, after) ==>
                  DecidedAt(h, le, rule, scopeId, HistoryOf(after, scopeId), ordered, evidence))
  {
    GuardOfDecision(h, le, rule, scopeId, HistoryOf(before, scopeId), ordered, evidence);
    if scopeId in before {
      var more :| after[scopeId] == RecordAll(before[scopeId], more);
      RevisionNamesState(HistoryOf(before, scopeId), more);
    }
  }
}
