/**
  The store of the interleaving protocol is the memory store's records of one call: each of its
  operations answers and writes as the transaction on the tables does, for the input that the
  service hands to it.
 */
module ProtocolRefinement {
  import opened Basics
  import opened Records
  import opened OutcomeReports
  import opened AuthorizationStore
  import P = GrantProtocol
  import CE = ContentExposures
  import CI = ContentInfluence

  function CallStateOf(t: ToolCall): CallState {
    CallState(t.status, t.error, t.result, t.resultDelivery, t.resultWithheld, t.updatedAt)
  }

  function WithCallState(t: ToolCall, c: CallState): ToolCall {
    t.(status := c.status, error := c.error, result := c.result, resultDelivery := c.delivery,
       resultWithheld := c.withheld, updatedAt := c.updatedAt)
  }

  function Key(u: Setup): CallKey { (Workspace(u.identity.workspaceId), u.identity.id) }

  predicate OfCall(u: Setup, g: Grant) { (g.body.workspaceId, g.body.toolCallId) == Key(u) }

  /** The attempt of the call, if it has one. */
  function AttemptOf(u: Setup, t: Tables): Option<Attempt> {
    if Key(u) in t.attemptOf then t.attempts.Get(t.attemptOf[Key(u)]) else None
  }

  function CellOf(a: Attempt): P.AttemptCell { P.AttemptCell(a.state, a.grantId, a.outcome) }

  /** The grants of the call, with the times of their consumption. */
  ghost predicate ShowsGrants(u: Setup, t: Tables, grants: map<string, Option<Timestamp>>) {
    forall g :: (g in grants <==> g in t.grants.at && OfCall(u, t.grants.at[g]))
                && (g in grants ==> grants[g] == t.grants.at[g].consumedAt)
  }

  ghost predicate ShowsReceipt(u: Setup, t: Tables, a: Attempt, receipt: Option<ReceiptOutcome>) {
    if u.hasReceipt then
      Truthy(a.binding.receiptId) && t.receipts.Has(a.binding.receiptId.value)
      && t.receipts.at[a.binding.receiptId.value].outcome == receipt
    else receipt == None
  }

  /** The protocol's store shows the records of the call, the history of its scope and nothing else. */
  ghost predicate Shows(u: Setup, t: Tables, s: P.Store) {
    && AttemptOf(u, t).Some? && s.attempt == CellOf(AttemptOf(u, t).value)
    && ShowsGrants(u, t, s.grants)
    && ShowsReceipt(u, t, AttemptOf(u, t).value, s.receipt)
    && t.toolCalls.Has(u.identity.id) && t.toolCalls.at[u.identity.id].identity == u.identity
    && s.call == CallStateOf(t.toolCalls.at[u.identity.id])
    && s.scope == ScopeHistory(t.scopes, Key(u).0, u.identity.influenceScopeId.GetOr(""))
  }

  lemma AttemptIsOfCall(u: Setup, t: Tables)
    requires Keyed(t) && AttemptOf(u, t).Some?
    ensures var a := AttemptOf(u, t).value;
            a.identity.id in t.attempts.at && t.attempts.at[a.identity.id] == a && KeyOf(a) == Key(u)
            && t.attemptOf[Key(u)] == a.identity.id
  {
  }

  // ------------------------------------------------------------ dispatch

  /** The answers of the dispatch, as the protocol names them. */
  function RefusalOf(a: Answer): Option<P.Refusal> {
    match a
    case Done => None
    case GrantNotFound => Some(P.NotFound)
    case AlreadyConsumed => Some(P.AlreadyConsumed)
    case StateMismatch => Some(P.NotDispatched)
    case BindingMismatch => Some(P.NotBound)
    case _ => Some(P.InfluenceChanged)
  }

  /** What the service hands to the dispatch: attempt and grant of one call, which it has read before. */
  ghost predicate DispatchOfCall(u: Setup, t: Tables, i: DispatchInput)
    requires AttemptOf(u, t).Some?
  {
    var a := AttemptOf(u, t).value;
    && i.attemptId == a.identity.id && i.owner == a.identity.reservationOwner
    && (i.workspaceId, i.toolCallId) == Key(u)
    && (t.grants.Has(i.grantId) ==> OfCall(u, t.grants.at[i.grantId]))
    && i.guard == P.RevisionGuard(u)
  }

  /** The guard of the call names the scope of the call. */
  lemma GuardNamesScope(u: Setup)
    ensures P.RevisionGuard(u).Some? ==> u.identity.influenceScopeId == Some(P.RevisionGuard(u).value.scopeId)
  {
  }

  lemma SameRevision(u: Setup, t: Tables, s: P.Store)
    requires Shows(u, t, s)
    ensures RevisionMatches(t.scopes, Key(u).0, P.RevisionGuard(u))
            <==> (P.RevisionGuard(u).Some? ==> P.RevisionGuard(u).value.revision == |s.scope|)
  {
    GuardNamesScope(u);
  }

  lemma SameRefusal(u: Setup, t: Tables, s: P.Store, i: DispatchInput)
    requires Keyed(t) && Shows(u, t, s) && DispatchOfCall(u, t, i)
    ensures P.DispatchAtomically(s, i.grantId, i.guard, i.at).1 == RefusalOf(Dispatch(t, i).1)
  {
    AttemptIsOfCall(u, t);
    SameRevision(u, t, s);
    assert i.grantId in s.grants <==> i.grantId in t.grants.at && OfCall(u, t.grants.at[i.grantId]);
  }

  lemma SwapShows(u: Setup, t: Tables, s: P.Store, i: DispatchInput)
    requires Keyed(t) && Shows(u, t, s) && DispatchOfCall(u, t, i) && Dispatch(t, i).1 == Done
    ensures Shows(u, Dispatch(t, i).0,
                  s.(grants := s.grants[i.grantId := Some(i.at)], attempt := s.attempt.(state := Dispatched)))
  {
    AttemptIsOfCall(u, t);
    DispatchWrites(t, i);
  }

  lemma DispatchRefines(u: Setup, t: Tables, s: P.Store, i: DispatchInput)
    requires Keyed(t) && Shows(u, t, s) && DispatchOfCall(u, t, i)
    ensures var (s', refusal) := P.DispatchAtomically(s, i.grantId, i.guard, i.at);
            refusal == RefusalOf(Dispatch(t, i).1) && Shows(u, Dispatch(t, i).0, s')
  {
    SameRefusal(u, t, s, i);
    ProtocolWrites(s, i);
    if Dispatch(t, i).1 == Done {
      SwapShows(u, t, s, i);
    } else {
      RefusedDispatchKeeps(t, i);
    }
  }

  lemma ProtocolWrites(s: P.Store, i: DispatchInput)
    ensures var (s', refusal) := P.DispatchAtomically(s, i.grantId, i.guard, i.at);
            s' == if refusal.Some? then s
                  else s.(grants := s.grants[i.grantId := Some(i.at)], attempt := s.attempt.(state := Dispatched))
  {
  }

  // ------------------------------------------------------------ the outcome

  function TransitionOf(a: Answer): P.Transition {
    match a
    case Done => P.Transitioned
    case StateMismatch => P.WrongState
    case _ => P.ReplayOrTerminal
  }

  /** What `reportOutcome` hands to the transition of the call's attempt. */
  function OutcomeTransition(a: Attempt, o: AttemptOutcome): TransitionInput {
    TransitionInput(a.identity.id, a.identity.workspaceId, a.identity.reservationOwner, Dispatched, o.status, Some(o),
                    o.recordedAt, None)
  }

  lemma SameTransition(u: Setup, t: Tables, s: P.Store, r: Report, o: AttemptOutcome)
    requires Keyed(t) && Shows(u, t, s)
    requires o.status != Reserved && o.status != Dispatched && o.status != FailedBeforeDispatch
    ensures P.TransitionAtomically(s, r, o).1 == TransitionOf(Transition(t, OutcomeTransition(AttemptOf(u, t).value, o)).1)
  {
    AttemptIsOfCall(u, t);
  }

  lemma CompletionShows(u: Setup, t: Tables, s: P.Store, r: Report, o: AttemptOutcome)
    requires Keyed(t) && Shows(u, t, s) && o.status != Dispatched
    requires Transition(t, OutcomeTransition(AttemptOf(u, t).value, o)).1 == Done
    ensures Shows(u, Transition(t, OutcomeTransition(AttemptOf(u, t).value, o)).0,
                  s.(attempt := s.attempt.(state := o.status, outcome := Some(o)), winner := Some(r)))
  {
    AttemptIsOfCall(u, t);
    TransitionWrites(t, OutcomeTransition(AttemptOf(u, t).value, o));
  }

  lemma TransitionRefines(u: Setup, t: Tables, s: P.Store, r: Report, at: Timestamp)
    requires Keyed(t) && Shows(u, t, s)
    ensures var o := OutcomeOf(u, r, at);
            var i := OutcomeTransition(AttemptOf(u, t).value, o);
            var (s', transition) := P.TransitionAtomically(s, r, o);
            transition == TransitionOf(Transition(t, i).1) && Shows(u, Transition(t, i).0, s')
  {
    var o := OutcomeOf(u, r, at);
    var i := OutcomeTransition(AttemptOf(u, t).value, o);
    SameTransition(u, t, s, r, o);
    if Transition(t, i).1 == Done {
      CompletionShows(u, t, s, r, o);
    } else {
      RefusedTransitionKeeps(t, i);
    }
  }

  lemma ReceiptRefines(u: Setup, t: Tables, s: P.Store, o: ReceiptOutcome)
    requires Keyed(t) && Shows(u, t, s) && u.hasReceipt
    ensures var (t', answer) := RecordReceiptOutcome(t, AttemptOf(u, t).value.binding.receiptId.value, o);
            && (answer == Existing <==> s.receipt.Some?) && (answer == Done <==> s.receipt.None?)
            && Shows(u, t', P.RecordReceiptAtomically(s, o))
  {
  }

  lemma CallWriteRefines(u: Setup, t: Tables, s: P.Store, c: CallState)
    requires Keyed(t) && Shows(u, t, s)
    ensures var call := WithCallState(t.toolCalls.at[u.identity.id], c);
            Shows(u, t.(toolCalls := t.toolCalls.Set(call.Id(), call)), s.(call := c))
  {
  }

  lemma ExposureRefines(u: Setup, t: Tables, s: P.Store, x: CE.Exposure)
    requires Shows(u, t, s) && u.identity.influenceScopeId.Some?
    ensures Shows(u, RecordExposure(t, Key(u).0, u.identity.influenceScopeId.value, x), s.(scope := CE.Record(s.scope, x)))
  {
  }
}
