/**
  Consumption of execution grants over the whole store: the reads of a consumption happen one
  by one, each checked when it is made, while every other transaction on grants, attempts,
  receipts, approvals, calls and exposures may run in between.
 */
module AuthorizationRuns {
  import opened Basics
  import opened Records
  import opened AuthorizationStore
  import AA = ApprovalAuthorization
  import CE = ContentExposures
  import CI = ContentInfluence
  import GC = GrantChecks
  import OA = OutcomeAtomicity

  // ------------------------------------------------------------ one consumption

  /** Where a consumption stands, with what it has read. */
  datatype Stage =
    | Arrived
    | GrantRead(grant: Grant, activePolicy: Option<Hash>, grantCheckedAt: int)
    | ReceiptRead(grant: Grant, activePolicy: Option<Hash>, grantCheckedAt: int, receipt: Option<Receipt>)
    | AttemptRead(grant: Grant, activePolicy: Option<Hash>, grantCheckedAt: int, receipt: Option<Receipt>, attempt: Attempt)
    | CallRead(grant: Grant, activePolicy: Option<Hash>, grantCheckedAt: int, receipt: Option<Receipt>, attempt: Attempt,
               toolCall: ToolCall, receiptCheckedAt: int)
    | Checked(seen: GC.Reads)
    | Authorized_(seen: GC.Reads)
    | Dispatched_(seen: GC.Reads)
    | Refused

  /** `native` is a server-owned native authorization that was presented and accepted. */
  datatype Consumption = Consumption(grantId: string, workspaceId: string, input: GC.ConsumeInput, native: bool, stage: Stage)

  datatype Env = Env(now: int, at: Timestamp, activePolicy: Option<Hash>, fails: bool)

  function Refuse(c: Consumption): Consumption { c.(stage := Refused) }

  function ReadGrant(parse: AA.Parse, t: Tables, c: Consumption, e: Env): Consumption {
    var g := t.grants.Get(c.grantId);
    if g.None? || g.value.body.workspaceId != c.workspaceId
      || !GC.GrantUsable(parse, c.input, g.value, e.activePolicy, e.now)
    then Refuse(c)
    else c.(stage := GrantRead(g.value, e.activePolicy, e.now))
  }

  function ReadReceipt(t: Tables, c: Consumption, s: Stage): Consumption
    requires s.GrantRead?
  {
    var receipt := Referenced(t.receipts, s.grant.body.receiptId);
    if !GC.GrantReceiptUsable(s.grant.body, receipt) then Refuse(c)
    else c.(stage := ReceiptRead(s.grant, s.activePolicy, s.grantCheckedAt, receipt))
  }

  /** `getExecutionAttemptByToolCallId`. */
  function AttemptOfCall(t: Tables, workspaceId: string, toolCallId: string): Option<Attempt> {
    if (workspaceId, toolCallId) in t.attemptOf && t.attemptOf[(workspaceId, toolCallId)] != ""
    then t.attempts.Get(t.attemptOf[(workspaceId, toolCallId)]) else None
  }

  function ReadAttempt(t: Tables, c: Consumption, s: Stage): Consumption
    requires s.ReceiptRead?
  {
    var g := s.grant.body;
    var a := AttemptOfCall(t, g.workspaceId, g.toolCallId);
    if a.None? || a.value.state != Reserved || !GC.AttemptMatchesGrant(a.value, g, true) then Refuse(c)
    else c.(stage := AttemptRead(s.grant, s.activePolicy, s.grantCheckedAt, s.receipt, a.value))
  }

  /** A prepared action needs the server's own authorization, every other call that of its adapter. */
  predicate CallerAuthorized(c: Consumption, t: ToolCall) {
    if c.native then t.PreparedAction().Some?
    else t.PreparedAction().None? && McpEvidenceConsistent(t.identity, t.action.envelope)
  }

  function ReadCall(parse: AA.Parse, t: Tables, c: Consumption, s: Stage, e: Env): Consumption
    requires s.AttemptRead?
  {
    var g := s.grant.body;
    var call := t.toolCalls.Get(g.toolCallId);
    if call.None? || call.value.Id() != g.toolCallId || !CallerAuthorized(c, call.value)
      || !GC.ToolCallCurrent(call.value, s.attempt, g, false)
      || !GC.ReceiptCurrent(parse, s.receipt, call.value, s.attempt, g, e.now)
    then Refuse(c)
    else c.(stage := CallRead(s.grant, s.activePolicy, s.grantCheckedAt, s.receipt, s.attempt, call.value, e.now))
  }

  function ReadApproval(parse: AA.Parse, t: Tables, c: Consumption, s: Stage, e: Env): Consumption
    requires s.CallRead?
  {
    var approval := Referenced(t.approvals, s.attempt.binding.approvalId);
    if !GC.ApprovalUsable(parse, approval, s.toolCall, s.attempt, s.grant.body, e.now) then Refuse(c)
    else
      c.(stage := Checked(GC.Reads(s.grant, s.activePolicy, s.receipt, s.attempt, s.toolCall, approval,
                                   s.grantCheckedAt, s.receiptCheckedAt, e.now, e.now)))
  }

  /** The one-shot execution authorization is issued and consumed in one step. */
  function Authorize(parse: AA.Parse, c: Consumption, s: Stage, e: Env): Consumption
    requires s.Checked?
  {
    var r := s.seen.(boundAt := e.now);
    var expires := parse(r.grant.body.expiresAt);
    if (expires.Some? && expires.value <= e.now) || !GC.Bindable(parse, r.approval, r.attempt, r.toolCall, e.now) then Refuse(c)
    else c.(stage := Authorized_(r))
  }

  /** What the service hands to the dispatch transaction. */
  function AtomicInput(r: GC.Reads, at: Timestamp): DispatchInput {
    var id := r.attempt.identity;
    DispatchInput(
      id.id, r.grant.body.workspaceId, id.reservationOwner, r.grant.body.id, r.grant.body.toolCallId, at,
      CI.RevisionGuardOf(HASHES, r.toolCall.identity.contentInfluence,
                         AuthoritativeScopeId(r.toolCall.identity, r.toolCall.action.envelope)))
  }

  /** A step that only reads and checks. */
  function StepReading(parse: AA.Parse, t: Tables, c: Consumption, e: Env): Consumption {
    match c.stage
    case Arrived => ReadGrant(parse, t, c, e)
    case GrantRead(_, _, _) => ReadReceipt(t, c, c.stage)
    case ReceiptRead(_, _, _, _) => ReadAttempt(t, c, c.stage)
    case AttemptRead(_, _, _, _, _) => ReadCall(parse, t, c, c.stage, e)
    case CallRead(_, _, _, _, _, _, _) => ReadApproval(parse, t, c, c.stage, e)
    case Checked(_) => Authorize(parse, c, c.stage, e)
    case _ => c
  }

  function StepConsumption(parse: AA.Parse, t: Tables, c: Consumption, e: Env): (Tables, Consumption) {
    if c.stage.Dispatched_? || c.stage.Refused? then (t, c)
    else if e.fails then (t, Refuse(c))
    else if c.stage.Authorized_? then
      var (u, answer) := Dispatch(t, AtomicInput(c.stage.seen, e.at));
      (u, if answer == Done then c.(stage := Dispatched_(c.stage.seen)) else Refuse(c))
    else (t, StepReading(parse, t, c, e))
  }

  // ------------------------------------------------------------ runs

  /**
    What may happen: the transactions of the store, writes of approvals, receipts and calls with
    any content, the arrival of a consumption and its next step. Grants are created unconsumed
    and under new ids, and published attempts have an id.
   */
  datatype Event =
    | PutApproval(approval: Approval)
    | PutReceipt(receipt: Receipt)
    | PutCall(toolCall: ToolCall)
    | CreateGrant(grant: Grant)
    | ReserveCall(record: Attempt, presented: Option<Authorization>, now: int)
    | BindCall(bind: BindInput)
    | TransitionCall(transition: TransitionInput)
    | PublishCall(publication: GC.Publication)
    | RecordCall(recording: OA.Recording)
    | AdoptCall(adoption: OA.Adoption)
    | RecordReceipt(receiptId: string, outcome: ReceiptOutcome)
    | Expose(workspaceId: string, scopeId: string, exposure: CE.Exposure)
    | Arrive(grantId: string, workspaceId: string, input: GC.ConsumeInput, native: bool)
    | Advance(index: nat, env: Env)

  datatype World = World(tables: Tables, consumptions: seq<Consumption>)

  /** The laws of the clock and the text of hashes are parameters of a run. */
  datatype Setting = Setting(parse: AA.Parse, text: Hash -> string)

  function Change(p: Setting, t: Tables, e: Event): Tables {
    match e
    case PutApproval(a) => t.(approvals := t.approvals.Set(a.id, a))
    case PutReceipt(r) => t.(receipts := t.receipts.Set(r.body.id, r))
    case PutCall(c) => t.(toolCalls := t.toolCalls.Set(c.Id(), c))
    case CreateGrant(g) =>
      if t.grants.Has(g.body.id) || g.consumedAt.Some? then t else t.(grants := t.grants.Set(g.body.id, g))
    case ReserveCall(record, presented, now) => Reserve(p.parse, now, t, record, presented).0
    case BindCall(i) => Bind(t, i).0
    case TransitionCall(i) => Transition(t, i).0
    case PublishCall(q) => if q.attempt.identity.id == "" then t else Publish(p.text, t, q).0
    case RecordCall(r) => RecordOutcome(t, r).0
    case AdoptCall(i) => AdoptOutcome(t, i).0
    case RecordReceipt(id, o) => RecordReceiptOutcome(t, id, o).0
    case Expose(ws, scope, x) => RecordExposure(t, ws, scope, x)
    case Arrive(_, _, _, _) => t
    case Advance(_, _) => t
  }

  function Next(p: Setting, w: World, e: Event): World {
    match e
    case Arrive(g, ws, input, native) => w.(consumptions := w.consumptions + [Consumption(g, ws, input, native, Arrived)])
    case Advance(i, env) =>
      if i >= |w.consumptions| then w
      else
        var (t, c) := StepConsumption(p.parse, w.tables, w.consumptions[i], env);
        World(t, w.consumptions[i := c])
    case _ => w.(tables := Change(p, w.tables, e))
  }

  function Run(p: Setting, events: seq<Event>): World {
    if events == [] then World(EMPTY, []) else Next(p, Run(p, events[..|events| - 1]), events[|events| - 1])
  }

  // ------------------------------------------------------------ what a consumption has seen stays true

  function GrantOf(s: Stage): Option<Grant> {
    match s
    case Arrived => None
    case GrantRead(g, _, _) => Some(g)
    case ReceiptRead(g, _, _, _) => Some(g)
    case AttemptRead(g, _, _, _, _) => Some(g)
    case CallRead(g, _, _, _, _, _, _) => Some(g)
    case Checked(r) => Some(r.grant)
    case Authorized_(r) => Some(r.grant)
    case Dispatched_(r) => Some(r.grant)
    case Refused => None
  }

  function AttemptIn(s: Stage): Option<Attempt> {
    match s
    case AttemptRead(_, _, _, _, a) => Some(a)
    case CallRead(_, _, _, _, a, _, _) => Some(a)
    case Checked(r) => Some(r.attempt)
    case Authorized_(r) => Some(r.attempt)
    case Dispatched_(r) => Some(r.attempt)
    case _ => None
  }

  /** The grant and the attempt that were read are still stored, as they were in all that lasts. */
  ghost predicate Remembers(t: Tables, c: Consumption) {
    && (GrantOf(c.stage).Some? ==>
          var g := GrantOf(c.stage).value;
          g.body.id == c.grantId && c.grantId in t.grants.at && SameGrant(g, t.grants.at[c.grantId]))
    && (AttemptIn(c.stage).Some? ==>
          var a := AttemptIn(c.stage).value;
          a.identity.id in t.attempts.at && SameAttempt(a, t.attempts.at[a.identity.id]))
  }

  /** Everything that was read so far has passed its checks. */
  ghost predicate CheckedSoFar(parse: AA.Parse, c: Consumption) {
    match c.stage
    case Arrived => true
    case GrantRead(g, policy, at) => GC.GrantUsable(parse, c.input, g, policy, at)
    case ReceiptRead(g, policy, at, receipt) => GC.GrantUsable(parse, c.input, g, policy, at) && GC.GrantReceiptUsable(g.body, receipt)
    case AttemptRead(g, policy, at, receipt, a) =>
      && GC.GrantUsable(parse, c.input, g, policy, at) && GC.GrantReceiptUsable(g.body, receipt)
      && a.state == Reserved && GC.AttemptMatchesGrant(a, g.body, true)
    case CallRead(g, policy, at, receipt, a, t, now) =>
      && GC.GrantUsable(parse, c.input, g, policy, at) && GC.GrantReceiptUsable(g.body, receipt)
      && a.state == Reserved && GC.AttemptMatchesGrant(a, g.body, true)
      && t.Id() == g.body.toolCallId
      && GC.ToolCallCurrent(t, a, g.body, false) && GC.ReceiptCurrent(parse, receipt, t, a, g.body, now)
    case Checked(r) => GC.ChecksPass(parse, c.input, r)
    case Authorized_(r) => GC.ChecksPass(parse, c.input, r) && GC.Bindable(parse, r.approval, r.attempt, r.toolCall, r.boundAt)
    case Dispatched_(r) => GC.ChecksPass(parse, c.input, r) && GC.Bindable(parse, r.approval, r.attempt, r.toolCall, r.boundAt)
    case Refused => true
  }

  ghost predicate Sound(w: World) {
    && Keyed(w.tables)
    && forall i | 0 <= i < |w.consumptions| :: Remembers(w.tables, w.consumptions[i])
  }

  ghost predicate AllChecked(parse: AA.Parse, w: World) {
    forall i | 0 <= i < |w.consumptions| :: CheckedSoFar(parse, w.consumptions[i])
  }

  lemma LastingIsRemembered(s: Tables, t: Tables, c: Consumption)
    requires Lasting(s, t) && Remembers(s, c)
    ensures Remembers(t, c)
  {
  }

  /** The writes that no transaction guards. */
  predicate PlainWrite(e: Event) { e.PutApproval? || e.PutReceipt? || e.PutCall? || e.CreateGrant? || e.Expose? }

  lemma PlainWriteLasts(p: Setting, t: Tables, e: Event)
    requires Keyed(t) && PlainWrite(e)
    ensures Good(t, Change(p, t, e))
  {
    match e
    case PutApproval(a) => ApprovalSet(t, a);
    case PutReceipt(r) => ReceiptsSet(t, t.receipts.Set(r.body.id, r));
    case PutCall(c) => CallSet(t, c, t.receipts);
    case CreateGrant(g) => GrantCreated(t, g);
    case Expose(ws, scope, x) => RecordExposureLasts(t, ws, scope, x);
  }

  predicate AttemptWrite(e: Event) { e.ReserveCall? || e.BindCall? || e.TransitionCall? || e.PublishCall? }

  lemma AttemptWriteLasts(p: Setting, t: Tables, e: Event)
    requires Keyed(t) && AttemptWrite(e)
    ensures Good(t, Change(p, t, e))
  {
    match e
    case ReserveCall(record, presented, now) => ReserveLasts(p.parse, now, t, record, presented);
    case BindCall(i) => BindLasts(t, i);
    case TransitionCall(i) => TransitionLasts(t, i);
    case PublishCall(q) => PublicationLasts(p, t, q);
  }

  lemma RecordCallLasts(p: Setting, t: Tables, r: OA.Recording)
    requires Keyed(t)
    ensures Good(t, Change(p, t, RecordCall(r)))
  {
    RecordOutcomeLasts(t, r);
  }

  lemma AdoptCallLasts(p: Setting, t: Tables, i: OA.Adoption)
    requires Keyed(t)
    ensures Good(t, Change(p, t, AdoptCall(i)))
  {
    AdoptOutcomeLasts(t, i);
  }

  lemma ChangeLasts(p: Setting, t: Tables, e: Event)
    requires Keyed(t)
    ensures Good(t, Change(p, t, e))
  {
    if PlainWrite(e) {
      PlainWriteLasts(p, t, e);
    } else if AttemptWrite(e) {
      AttemptWriteLasts(p, t, e);
    } else if e.RecordCall? {
      RecordCallLasts(p, t, e.recording);
    } else if e.AdoptCall? {
      AdoptCallLasts(p, t, e.adoption);
    } else if e.RecordReceipt? {
      RecordReceiptOutcomeLasts(t, e.receiptId, e.outcome);
    } else {
      NothingChanges(t);
    }
  }

  lemma GrantCreated(t: Tables, g: Grant)
    requires Keyed(t)
    ensures Good(t, if t.grants.Has(g.body.id) || g.consumedAt.Some? then t else t.(grants := t.grants.Set(g.body.id, g)))
  {
    NothingChanges(t);
    if !t.grants.Has(g.body.id) {
      GrantSet(t, g);
    }
  }

  lemma PublicationLasts(p: Setting, t: Tables, q: GC.Publication)
    requires Keyed(t)
    ensures Good(t, if q.attempt.identity.id == "" then t else Publish(p.text, t, q).0)
  {
    NothingChanges(t);
    if q.attempt.identity.id != "" {
      PublishLasts(p.text, t, q);
    }
  }

  // ------------------------------------------------------------ one step remembers

  /** Whoever goes on with the grant and the attempt it had, or with none, still remembers. */
  lemma KeepsRemembering(t: Tables, c: Consumption, s: Stage)
    requires Remembers(t, c)
    requires GrantOf(s) == GrantOf(c.stage) || GrantOf(s) == None
    requires AttemptIn(s) == AttemptIn(c.stage) || AttemptIn(s) == None
    ensures Remembers(t, c.(stage := s))
  {
  }

  lemma GrantIsRead(parse: AA.Parse, t: Tables, c: Consumption, e: Env)
    requires Keyed(t) && Remembers(t, c) && c.stage.Arrived?
    ensures Remembers(t, ReadGrant(parse, t, c, e))
  {
  }

  /** The attempt that is found by its call is stored under its own id. */
  lemma AttemptOfCallIsStored(t: Tables, workspaceId: string, toolCallId: string)
    requires Keyed(t) && AttemptOfCall(t, workspaceId, toolCallId).Some?
    ensures var a := AttemptOfCall(t, workspaceId, toolCallId).value;
            a.identity.id in t.attempts.at && t.attempts.at[a.identity.id] == a
  {
  }

  lemma AttemptIsRead(t: Tables, c: Consumption)
    requires Keyed(t) && Remembers(t, c) && c.stage.ReceiptRead?
    ensures Remembers(t, ReadAttempt(t, c, c.stage))
  {
    var g := c.stage.grant.body;
    if AttemptOfCall(t, g.workspaceId, g.toolCallId).Some? {
      AttemptOfCallIsStored(t, g.workspaceId, g.toolCallId);
    }
  }

  /** Every other read leaves grant and attempt as they were. */
  lemma ReadingKeepsGrantAndAttempt(parse: AA.Parse, t: Tables, c: Consumption, e: Env)
    requires c.stage.GrantRead? || c.stage.AttemptRead? || c.stage.CallRead? || c.stage.Checked?
    ensures var s := StepReading(parse, t, c, e).stage;
            && StepReading(parse, t, c, e) == c.(stage := s)
            && (s == Refused || (GrantOf(s) == GrantOf(c.stage) && AttemptIn(s) == AttemptIn(c.stage)))
  {
  }

  lemma ReadingRemembers(parse: AA.Parse, t: Tables, c: Consumption, e: Env)
    requires Keyed(t) && Remembers(t, c)
    ensures Remembers(t, StepReading(parse, t, c, e))
  {
    if c.stage.Arrived? {
      GrantIsRead(parse, t, c, e);
    } else if c.stage.ReceiptRead? {
      AttemptIsRead(t, c);
    } else if c.stage.GrantRead? || c.stage.AttemptRead? || c.stage.CallRead? || c.stage.Checked? {
      ReadingKeepsGrantAndAttempt(parse, t, c, e);
      KeepsRemembering(t, c, StepReading(parse, t, c, e).stage);
    }
  }

  lemma DispatchRemembers(t: Tables, c: Consumption, i: DispatchInput)
    requires Keyed(t) && Remembers(t, c) && c.stage.Authorized_?
    ensures var u := Dispatch(t, i).0;
            Good(t, u) && Remembers(u, c.(stage := Dispatched_(c.stage.seen))) && Remembers(u, Refuse(c))
  {
    DispatchLasts(t, i);
    LastingIsRemembered(t, Dispatch(t, i).0, c);
    EndingRemembers(Dispatch(t, i).0, c);
  }

  lemma EndingRemembers(t: Tables, c: Consumption)
    requires Remembers(t, c) && c.stage.Authorized_?
    ensures Remembers(t, c.(stage := Dispatched_(c.stage.seen))) && Remembers(t, Refuse(c))
  {
    KeepsRemembering(t, c, Dispatched_(c.stage.seen));
    KeepsRemembering(t, c, Refused);
  }

  lemma StepRemembers(parse: AA.Parse, t: Tables, c: Consumption, e: Env)
    requires Keyed(t) && Remembers(t, c)
    ensures var (u, d) := StepConsumption(parse, t, c, e); Good(t, u) && Remembers(u, d)
  {
    NothingChanges(t);
    if c.stage.Dispatched_? || c.stage.Refused? {
    } else if e.fails {
      KeepsRemembering(t, c, Refused);
    } else if c.stage.Authorized_? {
      DispatchRemembers(t, c, AtomicInput(c.stage.seen, e.at));
    } else {
      ReadingRemembers(parse, t, c, e);
    }
  }

  /** What lasts keeps every consumption but the one that moved. */
  lemma OthersStaySound(w: World, v: World, moved: nat)
    requires Sound(w) && Good(w.tables, v.tables) && |v.consumptions| >= |w.consumptions|
    requires forall i | 0 <= i < |w.consumptions| && i != moved :: v.consumptions[i] == w.consumptions[i]
    requires forall i | 0 <= i < |v.consumptions|
               && (i == moved || i >= |w.consumptions|) :: Remembers(v.tables, v.consumptions[i])
    ensures Sound(v)
  {
    forall i | 0 <= i < |v.consumptions| ensures Remembers(v.tables, v.consumptions[i]) {
      if i < |w.consumptions| && i != moved {
        LastingIsRemembered(w.tables, v.tables, w.consumptions[i]);
      }
    }
  }

  lemma AdvanceIsSound(p: Setting, w: World, i: nat, env: Env)
    requires Sound(w)
    ensures Sound(Next(p, w, Advance(i, env))) && Lasting(w.tables, Next(p, w, Advance(i, env)).tables)
  {
    NothingChanges(w.tables);
    if i < |w.consumptions| {
      var (t, c) := StepConsumption(p.parse, w.tables, w.consumptions[i], env);
      StepRemembers(p.parse, w.tables, w.consumptions[i], env);
      MovedIsSound(w, i, t, c);
    }
  }

  lemma MovedIsSound(w: World, i: nat, t: Tables, c: Consumption)
    requires Sound(w) && i < |w.consumptions| && Good(w.tables, t) && Remembers(t, c)
    ensures Sound(World(t, w.consumptions[i := c]))
  {
    OthersStaySound(w, World(t, w.consumptions[i := c]), i);
  }

  lemma NextIsSound(p: Setting, w: World, e: Event)
    requires Sound(w)
    ensures Sound(Next(p, w, e)) && Lasting(w.tables, Next(p, w, e).tables)
  {
    if e.Advance? {
      AdvanceIsSound(p, w, e.index, e.env);
    } else {
      ChangeLasts(p, w.tables, e);
      OthersStaySound(w, Next(p, w, e), |w.consumptions|);
    }
  }

  /** In every reachable state: records are found where they belong, and what consumptions have read lasts. */
  lemma {:induction false} EveryRunIsSound(p: Setting, events: seq<Event>)
    ensures Sound(Run(p, events))
  {
    if events != [] {
      EveryRunIsSound(p, events[..|events| - 1]);
      NextIsSound(p, Run(p, events[..|events| - 1]), events[|events| - 1]);
    }
  }

  // ------------------------------------------------------------ one step checks

  lemma FirstReadsAreChecked(parse: AA.Parse, t: Tables, c: Consumption, e: Env)
    requires CheckedSoFar(parse, c) && (c.stage.Arrived? || c.stage.GrantRead? || c.stage.ReceiptRead?)
    ensures CheckedSoFar(parse, StepReading(parse, t, c, e))
  {
  }

  lemma CallIsChecked(parse: AA.Parse, t: Tables, c: Consumption, e: Env)
    requires CheckedSoFar(parse, c) && c.stage.AttemptRead?
    ensures CheckedSoFar(parse, ReadCall(parse, t, c, c.stage, e))
  {
  }

  lemma ApprovalIsChecked(parse: AA.Parse, t: Tables, c: Consumption, e: Env)
    requires CheckedSoFar(parse, c) && c.stage.CallRead?
    ensures CheckedSoFar(parse, ReadApproval(parse, t, c, c.stage, e))
  {
  }

  /** The binding does not look at the time that the checks looked at. */
  lemma AuthorizedIsChecked(parse: AA.Parse, c: Consumption, e: Env)
    requires CheckedSoFar(parse, c) && c.stage.Checked?
    ensures CheckedSoFar(parse, Authorize(parse, c, c.stage, e))
  {
  }

  lemma DispatchedIsChecked(parse: AA.Parse, c: Consumption)
    requires CheckedSoFar(parse, c) && c.stage.Authorized_?
    ensures CheckedSoFar(parse, c.(stage := Dispatched_(c.stage.seen)))
  {
  }

  lemma ReadingIsChecked(parse: AA.Parse, t: Tables, c: Consumption, e: Env)
    requires CheckedSoFar(parse, c)
    ensures CheckedSoFar(parse, StepReading(parse, t, c, e))
  {
    if c.stage.Arrived? || c.stage.GrantRead? || c.stage.ReceiptRead? {
      FirstReadsAreChecked(parse, t, c, e);
    } else if c.stage.AttemptRead? {
      CallIsChecked(parse, t, c, e);
    } else if c.stage.CallRead? {
      ApprovalIsChecked(parse, t, c, e);
    } else if c.stage.Checked? {
      AuthorizedIsChecked(parse, c, e);
    }
  }

  lemma StepIsChecked(parse: AA.Parse, t: Tables, c: Consumption, e: Env)
    requires CheckedSoFar(parse, c)
    ensures CheckedSoFar(parse, StepConsumption(parse, t, c, e).1)
  {
    if c.stage.Dispatched_? || c.stage.Refused? || e.fails {
    } else if c.stage.Authorized_? {
      DispatchedIsChecked(parse, c);
    } else {
      ReadingIsChecked(parse, t, c, e);
    }
  }

  lemma NextIsChecked(p: Setting, w: World, e: Event)
    requires AllChecked(p.parse, w)
    ensures AllChecked(p.parse, Next(p, w, e))
  {
    if e.Advance? && e.index < |w.consumptions| {
      StepIsChecked(p.parse, w.tables, w.consumptions[e.index], e.env);
    }
  }

  /** In every reachable state everything that was read has passed its checks. */
  lemma {:induction false} EveryRunIsChecked(p: Setting, events: seq<Event>)
    ensures AllChecked(p.parse, Run(p, events))
  {
    if events != [] {
      EveryRunIsChecked(p, events[..|events| - 1]);
      NextIsChecked(p, Run(p, events[..|events| - 1]), events[|events| - 1]);
    }
  }

  // ------------------------------------------------------------ later states

  lemma {:induction false} RunsLast(p: Setting, events: seq<Event>, k: nat)
    requires k <= |events|
    ensures Lasting(Run(p, events[..k]).tables, Run(p, events).tables)
    decreases |events|
  {
    EveryRunIsSound(p, events);
    if k == |events| {
      assert events[..k] == events;
      NothingChanges(Run(p, events).tables);
    } else {
      var before := events[..|events| - 1];
      RunsLast(p, before, k);
      assert before[..k] == events[..k];
      EveryRunIsSound(p, before);
      NextIsSound(p, Run(p, before), events[|events| - 1]);
      LastingIsTransitive(Run(p, events[..k]).tables, Run(p, before).tables, Run(p, events).tables);
    }
  }

  // ------------------------------------------------------------ where an attempt comes from

  /** The approval that an attempt names was stored when the attempt was made, and it was made for it. */
  ghost predicate MadeFor(t: Tables, a: Attempt, bound: Approval) {
    && Truthy(a.binding.approvalId) && t.approvals.Get(a.binding.approvalId.value) == Some(bound)
    && GC.BoundToApproval(a, bound)
  }

  lemma ReservationIsBound(p: Setting, t: Tables, record: Attempt, presented: Option<Authorization>, now: int)
    requires Keyed(t) && Reserve(p.parse, now, t, record, presented).1 == Done && Truthy(record.binding.approvalId)
    ensures exists bound :: MadeFor(t, record, bound)
  {
    var bound := t.approvals.Get(record.binding.approvalId.value);
    assert ApprovalReservable(p.parse, now, record, bound, presented);
    assert MadeFor(t, record, bound.value);
  }

  lemma PublicationIsBound(p: Setting, t: Tables, q: GC.Publication)
    requires Keyed(t) && Publish(p.text, t, q).1 == Done
    ensures exists bound :: MadeFor(t, q.attempt, bound)
    ensures q.attempt.identity.inputHash == JsonHash(q.toolCall.action.input)
  {
    CreatedIsNew(p.text, t, q);
    var bound := t.approvals.at[q.approvalId];
    GC.PublicationBinds(q, p.text, StoredFor(t, q, bound, t.toolCalls.at[q.toolCall.Id()]));
    assert MadeFor(t, q.attempt, bound);
  }

  /** The attempt that an event makes, if it makes one. */
  function MadeBy(p: Setting, t: Tables, e: Event): Option<Attempt> {
    match e
    case ReserveCall(record, presented, now) => if Reserve(p.parse, now, t, record, presented).1 == Done then Some(record) else None
    case PublishCall(q) => if q.attempt.identity.id != "" && Publish(p.text, t, q).1 == Done then Some(q.attempt) else None
    case _ => None
  }

  lemma MadeIsBound(p: Setting, t: Tables, e: Event)
    requires Keyed(t) && MadeBy(p, t, e).Some? && Truthy(MadeBy(p, t, e).value.binding.approvalId)
    ensures exists bound :: MadeFor(t, MadeBy(p, t, e).value, bound)
  {
    if e.ReserveCall? {
      ReservationIsBound(p, t, e.record, e.presented, e.now);
    } else {
      PublicationIsBound(p, t, e.publication);
    }
  }

  /** An attempt that was not there before an event was made by it. */
  ghost predicate NewOnesAreMade(p: Setting, t: Tables, u: Tables, e: Event) {
    forall id | id in u.attempts.at && id !in t.attempts.at ::
      MadeBy(p, t, e).Some? && MadeBy(p, t, e).value.identity.id == id && u.attempts.at[id] == MadeBy(p, t, e).value
  }

  /** An event that adds no attempt. */
  ghost predicate SameAttempts(t: Tables, u: Tables) { forall id | id in u.attempts.at :: id in t.attempts.at }

  lemma RecordingAddsNone(t: Tables, r: OA.Recording)
    requires Keyed(t)
    ensures SameAttempts(t, RecordOutcome(t, r).0)
  {
    RecordOutcomeLasts(t, r);
  }

  lemma BindingAddsNone(t: Tables, i: BindInput)
    requires Keyed(t)
    ensures SameAttempts(t, Bind(t, i).0)
  {
  }

  lemma TransitionAddsNone(t: Tables, i: TransitionInput)
    requires Keyed(t)
    ensures SameAttempts(t, Transition(t, i).0)
  {
    if Transition(t, i).1 == Done {
      TransitionWrites(t, i);
    }
  }

  lemma PublicationMakes(p: Setting, t: Tables, q: GC.Publication)
    requires Keyed(t)
    ensures var (u, answer) := Publish(p.text, t, q);
            forall id | id in u.attempts.at && id !in t.attempts.at ::
              answer == Done && q.attempt.identity.id == id && u.attempts.at[id] == q.attempt
  {
    if Publish(p.text, t, q).1 == Done {
      CreatedIsNew(p.text, t, q);
      IssueMakes(t, q);
    } else {
      RefusedPublicationKeeps(p.text, t, q);
    }
  }

  lemma IssueMakes(t: Tables, q: GC.Publication)
    ensures forall id | id in Issue(t, q).attempts.at && id !in t.attempts.at ::
              q.attempt.identity.id == id && Issue(t, q).attempts.at[id] == q.attempt
  {
  }

  lemma ReservationMakes(p: Setting, t: Tables, e: Event)
    requires e.ReserveCall?
    ensures NewOnesAreMade(p, t, Change(p, t, e), e)
  {
  }

  lemma ChangeMakes(p: Setting, t: Tables, e: Event)
    requires Keyed(t)
    ensures NewOnesAreMade(p, t, Change(p, t, e), e)
  {
    if e.PublishCall? {
      PublicationMakes(p, t, e.publication);
    } else if e.ReserveCall? {
      ReservationMakes(p, t, e);
    } else if e.BindCall? {
      BindingAddsNone(t, e.bind);
    } else if e.TransitionCall? {
      TransitionAddsNone(t, e.transition);
    } else if e.RecordCall? {
      RecordingAddsNone(t, e.recording);
    } else {
      assert Change(p, t, e).attempts == t.attempts;
    }
  }

  lemma DispatchAddsNone(t: Tables, i: DispatchInput)
    requires Keyed(t)
    ensures SameAttempts(t, Dispatch(t, i).0)
  {
    if Dispatch(t, i).1 == Done {
      DispatchWrites(t, i);
    }
  }

  lemma NextMakes(p: Setting, w: World, e: Event)
    requires Keyed(w.tables)
    ensures NewOnesAreMade(p, w.tables, Next(p, w, e).tables, e)
  {
    if e.Advance? {
      if e.index < |w.consumptions| {
        StepAddsNone(p.parse, w.tables, w.consumptions[e.index], e.env);
      }
    } else {
      ChangeMakes(p, w.tables, e);
    }
  }

  lemma StepAddsNone(parse: AA.Parse, t: Tables, c: Consumption, env: Env)
    requires Keyed(t)
    ensures SameAttempts(t, StepConsumption(parse, t, c, env).0)
  {
    if c.stage.Authorized_? {
      DispatchAddsNone(t, AtomicInput(c.stage.seen, env.at));
    }
  }

  /** Event `k` of the run made this attempt. */
  predicate MadeAt(p: Setting, events: seq<Event>, k: nat, a: Attempt) {
    k < |events| && MadeBy(p, Run(p, events[..k]).tables, events[k]) == Some(a)
  }

  lemma OneMoreEvent(p: Setting, before: seq<Event>, last: Event)
    ensures Run(p, before + [last]) == Next(p, Run(p, before), last)
    ensures Lasting(Run(p, before).tables, Run(p, before + [last]).tables)
    ensures NewOnesAreMade(p, Run(p, before).tables, Run(p, before + [last]).tables, last)
  {
    assert (before + [last])[..|before + [last]| - 1] == before;
    EveryRunIsSound(p, before);
    NextIsSound(p, Run(p, before), last);
    NextMakes(p, Run(p, before), last);
  }

  /** A stored attempt was there before the last event, or was made by it. */
  lemma KeptOrMade(p: Setting, before: seq<Event>, last: Event, id: string)
    requires id in Run(p, before + [last]).tables.attempts.at
    ensures var t, u := Run(p, before).tables, Run(p, before + [last]).tables;
            if id in t.attempts.at then SameAttempt(t.attempts.at[id], u.attempts.at[id])
            else MadeBy(p, t, last) == Some(u.attempts.at[id]) && u.attempts.at[id].identity.id == id
  {
    OneMoreEvent(p, before, last);
  }

  lemma MadeEarlier(p: Setting, before: seq<Event>, last: Event, k: nat, a: Attempt)
    requires MadeAt(p, before, k, a)
    ensures MadeAt(p, before + [last], k, a)
  {
    assert (before + [last])[..k] == before[..k];
  }

  /** Every stored attempt was made by one event of the run, and has lasted since. */
  lemma {:induction false} Origin(p: Setting, events: seq<Event>, id: string) returns (k: nat, made: Attempt)
    requires id in Run(p, events).tables.attempts.at
    ensures MadeAt(p, events, k, made) && made.identity.id == id
    ensures SameAttempt(made, Run(p, events).tables.attempts.at[id])
    decreases |events|
  {
    var before, last := events[..|events| - 1], events[|events| - 1];
    assert before + [last] == events;
    KeptOrMade(p, before, last, id);
    if id in Run(p, before).tables.attempts.at {
      k, made := Origin(p, before, id);
      MadeEarlier(p, before, last, k, made);
    } else {
      k, made := |events| - 1, Run(p, events).tables.attempts.at[id];
    }
  }

  lemma SameAttemptSameApproval(t: Tables, a: Attempt, b: Attempt, bound: Approval)
    requires SameAttempt(a, b)
    ensures MadeFor(t, a, bound) <==> MadeFor(t, b, bound)
  {
  }

  /** The approval a stored attempt was made for, and the event that made it. */
  lemma OriginOfApproval(p: Setting, events: seq<Event>, id: string) returns (k: nat, bound: Approval)
    requires id in Run(p, events).tables.attempts.at && Truthy(Run(p, events).tables.attempts.at[id].binding.approvalId)
    ensures k < |events| && (events[k].PublishCall? || events[k].ReserveCall?)
    ensures MadeFor(Run(p, events[..k]).tables, Run(p, events).tables.attempts.at[id], bound)
    ensures events[k].PublishCall? ==>
              Run(p, events).tables.attempts.at[id].identity.inputHash == JsonHash(events[k].publication.toolCall.action.input)
  {
    var made: Attempt;
    k, made := Origin(p, events, id);
    var start := Run(p, events[..k]).tables;
    EveryRunIsSound(p, events[..k]);
    MadeIsBound(p, start, events[k]);
    bound :| MadeFor(start, made, bound);
    SameAttemptSameApproval(start, made, Run(p, events).tables.attempts.at[id], bound);
    if events[k].PublishCall? {
      PublicationIsBound(p, start, events[k].publication);
    }
  }

  // ------------------------------------------------------------ guarantees

  predicate IsDispatched(w: World, i: nat) {
    i < |w.consumptions| && w.consumptions[i].stage.Dispatched_?
  }

  function SeenBy(w: World, i: nat): GC.Reads
    requires IsDispatched(w, i)
  {
    w.consumptions[i].stage.seen
  }

  /**
    A dispatched call honours its approval, over every run of the store: whichever transactions
    and writes came in between, the approval that was read is the one that stood when the
    attempt was made, with the authorization it had then, still approved and not expired; it
    matches the original call field by field, and the runner's input is the approved one. For a
    published call that is the published input.
   */
  lemma DispatchHonoursApproval(p: Setting, events: seq<Event>, i: nat) returns (k: nat, bound: Approval)
    requires IsDispatched(Run(p, events), i)
    requires Truthy(SeenBy(Run(p, events), i).attempt.binding.approvalId)
    ensures var r, c := SeenBy(Run(p, events), i), Run(p, events).consumptions[i];
            && k < |events| && (events[k].PublishCall? || events[k].ReserveCall?)
            && Run(p, events[..k]).tables.approvals.Get(r.attempt.binding.approvalId.value) == Some(bound)
            && GC.BoundToApproval(r.attempt, bound)
            && GC.HonoursApproval(p.parse, bound, c.input, r)
            && (events[k].PublishCall? ==> c.input.input == events[k].publication.toolCall.action.input)
  {
    EveryRunIsSound(p, events);
    var w := Run(p, events);
    var r := SeenBy(w, i);
    EveryRunIsChecked(p, events);
    assert Remembers(w.tables, w.consumptions[i]) && CheckedSoFar(p.parse, w.consumptions[i]);
    k, bound := OriginOfApproval(p, events, r.attempt.identity.id);
    GC.ChecksHonourBinding(p.parse, bound, w.consumptions[i].input, r);
  }

  // ------------------------------------------------------------ one dispatch for each call

  predicate Consumed(t: Tables, grantId: string) { grantId in t.grants.at && t.grants.at[grantId].consumedAt.Some? }

  predicate DispatchedFor(w: World, i: nat, grantId: string) {
    IsDispatched(w, i) && w.consumptions[i].grantId == grantId
  }

  /** The consumed grants are those of the dispatched consumptions, each of one of them. */
  ghost predicate Logged(w: World) {
    && (forall i: nat | IsDispatched(w, i) :: Consumed(w.tables, w.consumptions[i].grantId))
    && (forall id | Consumed(w.tables, id) :: exists i: nat :: DispatchedFor(w, i, id))
    && (forall i: nat, j: nat | i < j && IsDispatched(w, i) && IsDispatched(w, j) ::
          w.consumptions[i].grantId != w.consumptions[j].grantId)
  }

  /** Only a dispatch consumes a grant. */
  ghost predicate NoneConsumed(t: Tables, u: Tables) { forall id | Consumed(u, id) :: Consumed(t, id) }

  lemma IssueConsumesNone(t: Tables, q: GC.Publication)
    requires q.grant.consumedAt == None
    ensures NoneConsumed(t, Issue(t, q))
  {
  }

  lemma PublicationConsumesNone(p: Setting, t: Tables, q: GC.Publication)
    requires Keyed(t)
    ensures NoneConsumed(t, Publish(p.text, t, q).0)
  {
    if Publish(p.text, t, q).1 == Done {
      CreatedIsNew(p.text, t, q);
      IssueConsumesNone(t, q);
    } else {
      RefusedPublicationKeeps(p.text, t, q);
    }
  }

  lemma AttemptsOnly(p: Setting, t: Tables, e: Event)
    ensures e.ReserveCall? ==> Change(p, t, e).grants == t.grants
    ensures e.BindCall? ==> Change(p, t, e).grants == t.grants
  {
  }

  lemma RecordingOnly(t: Tables, r: OA.Recording)
    ensures RecordOutcome(t, r).0.grants == t.grants
  {
  }

  lemma AdoptionOnly(t: Tables, i: OA.Adoption)
    ensures AdoptOutcome(t, i).0.grants == t.grants
  {
  }

  lemma TransitionOnly(t: Tables, i: TransitionInput)
    ensures Transition(t, i).0.grants == t.grants
  {
  }

  lemma ChangeConsumesNone(p: Setting, t: Tables, e: Event)
    requires Keyed(t)
    ensures NoneConsumed(t, Change(p, t, e))
  {
    if e.PublishCall? {
      PublicationConsumesNone(p, t, e.publication);
    } else if e.ReserveCall? || e.BindCall? {
      AttemptsOnly(p, t, e);
    } else if e.TransitionCall? {
      TransitionOnly(t, e.transition);
    } else if e.RecordCall? {
      RecordingOnly(t, e.recording);
    } else if e.AdoptCall? {
      AdoptionOnly(t, e.adoption);
    }
  }

  /** Nobody is dispatched by this step. */
  ghost predicate SameDispatches(w: World, v: World) {
    && |v.consumptions| >= |w.consumptions|
    && (forall i: nat | IsDispatched(v, i) :: IsDispatched(w, i))
    && (forall i: nat | i < |w.consumptions| ::
          (IsDispatched(w, i) ==> IsDispatched(v, i)) && v.consumptions[i].grantId == w.consumptions[i].grantId)
  }

  lemma QuietIsLogged(w: World, v: World)
    requires Logged(w) && SameDispatches(w, v) && Lasting(w.tables, v.tables) && NoneConsumed(w.tables, v.tables)
    ensures Logged(v)
  {
    forall id | Consumed(v.tables, id) ensures exists i: nat :: DispatchedFor(v, i, id) {
      var i: nat :| DispatchedFor(w, i, id);
      assert DispatchedFor(v, i, id);
    }
  }

  /** Consumption `i` is dispatched with its own grant, which nobody had consumed. */
  lemma DispatchIsLogged(w: World, v: World, i: nat)
    requires Logged(w) && i < |w.consumptions| && !IsDispatched(w, i)
    requires Lasting(w.tables, v.tables) && !Consumed(w.tables, w.consumptions[i].grantId)
    requires IsDispatched(v, i) && v.consumptions == w.consumptions[i := v.consumptions[i]]
    requires v.consumptions[i].grantId == w.consumptions[i].grantId
    requires forall id :: Consumed(v.tables, id) <==> Consumed(w.tables, id) || id == w.consumptions[i].grantId
    ensures Logged(v)
  {
    forall id | Consumed(v.tables, id) ensures exists j: nat :: DispatchedFor(v, j, id) {
      if id == w.consumptions[i].grantId {
        assert DispatchedFor(v, i, id);
      } else {
        var j: nat :| DispatchedFor(w, j, id);
        assert DispatchedFor(v, j, id);
      }
    }
    forall j: nat | j != i && IsDispatched(v, j) ensures v.consumptions[j].grantId != v.consumptions[i].grantId {
      assert IsDispatched(w, j);
    }
  }

  /** A step dispatches a consumption through the transaction, or changes no table. */
  lemma StepDispatches(p: Setting, t: Tables, c: Consumption, env: Env)
    ensures var (u, d) := StepConsumption(p.parse, t, c, env);
            && d.grantId == c.grantId
            && (if d.stage.Dispatched_? && !c.stage.Dispatched_?
                then c.stage.Authorized_? && d == c.(stage := Dispatched_(c.stage.seen))
                     && Dispatch(t, AtomicInput(c.stage.seen, env.at)) == (u, Done)
                else u == t && (d.stage.Dispatched_? <==> c.stage.Dispatched_?))
  {
    if c.stage.Authorized_? {
      RefusedDispatchKeeps(t, AtomicInput(c.stage.seen, env.at));
    }
  }

  lemma DispatchConsumes(t: Tables, i: DispatchInput)
    requires Keyed(t) && Dispatch(t, i).1 == Done
    ensures !Consumed(t, i.grantId)
    ensures forall id :: Consumed(Dispatch(t, i).0, id) <==> Consumed(t, id) || id == i.grantId
  {
    DispatchWrites(t, i);
  }

  /** Consumption `i` gets its dispatch. */
  lemma DispatchStepIsLogged(w: World, i: nat, at: Timestamp, u: Tables)
    requires Keyed(w.tables) && Logged(w) && i < |w.consumptions| && w.consumptions[i].stage.Authorized_?
    requires w.consumptions[i].stage.seen.grant.body.id == w.consumptions[i].grantId
    requires Dispatch(w.tables, AtomicInput(w.consumptions[i].stage.seen, at)) == (u, Done)
    ensures Logged(World(u, w.consumptions[i := w.consumptions[i].(stage := Dispatched_(w.consumptions[i].stage.seen))]))
  {
    var input := AtomicInput(w.consumptions[i].stage.seen, at);
    DispatchConsumes(w.tables, input);
    DispatchLasts(w.tables, input);
    DispatchIsLogged(w, World(u,
                     w.consumptions[i := w.consumptions[i].(stage := Dispatched_(w.consumptions[i].stage.seen))]), i);
  }

  /** Consumption `i` does something else. */
  lemma QuietStepIsLogged(w: World, i: nat, d: Consumption)
    requires Keyed(w.tables) && Logged(w) && i < |w.consumptions| && d.grantId == w.consumptions[i].grantId
    requires d.stage.Dispatched_? <==> w.consumptions[i].stage.Dispatched_?
    ensures Logged(World(w.tables, w.consumptions[i := d]))
  {
    NothingChanges(w.tables);
    QuietIsLogged(w, World(w.tables, w.consumptions[i := d]));
  }

  lemma StepIsLogged(p: Setting, w: World, i: nat, env: Env, u: Tables, d: Consumption)
    requires Keyed(w.tables) && Logged(w) && i < |w.consumptions|
    requires w.consumptions[i].stage.Authorized_? ==> w.consumptions[i].stage.seen.grant.body.id == w.consumptions[i].grantId
    requires StepConsumption(p.parse, w.tables, w.consumptions[i], env) == (u, d)
    ensures Logged(World(u, w.consumptions[i := d]))
  {
    var c := w.consumptions[i];
    StepDispatches(p, w.tables, c, env);
    if d.stage.Dispatched_? && !c.stage.Dispatched_? {
      DispatchStepIsLogged(w, i, env.at, u);
    } else {
      QuietStepIsLogged(w, i, d);
    }
  }

  lemma GrantIsRemembered(w: World, i: nat)
    requires Sound(w) && i < |w.consumptions|
    ensures w.consumptions[i].stage.Authorized_? ==> w.consumptions[i].stage.seen.grant.body.id == w.consumptions[i].grantId
  {
    assert Remembers(w.tables, w.consumptions[i]);
  }

  lemma NextIsLogged(p: Setting, w: World, e: Event)
    requires Sound(w) && Logged(w)
    ensures Logged(Next(p, w, e))
  {
    if e.Advance? && e.index < |w.consumptions| {
      var (u, d) := StepConsumption(p.parse, w.tables, w.consumptions[e.index], e.env);
      GrantIsRemembered(w, e.index);
      StepIsLogged(p, w, e.index, e.env, u, d);
    } else {
      ChangeIsLogged(p, w, e);
    }
  }

  lemma ChangeIsLogged(p: Setting, w: World, e: Event)
    requires Keyed(w.tables) && Logged(w) && (e.Advance? ==> e.index >= |w.consumptions|)
    ensures Logged(Next(p, w, e))
  {
    NothingChanges(w.tables);
    ChangeLasts(p, w.tables, e);
    ChangeConsumesNone(p, w.tables, e);
    QuietIsLogged(w, Next(p, w, e));
  }

  lemma {:induction false} EveryRunIsLogged(p: Setting, events: seq<Event>)
    ensures Logged(Run(p, events))
  {
    if events != [] {
      EveryRunIsLogged(p, events[..|events| - 1]);
      EveryRunIsSound(p, events[..|events| - 1]);
      NextIsLogged(p, Run(p, events[..|events| - 1]), events[|events| - 1]);
    }
  }

  /** The call a dispatched consumption is for. */
  function CallOf(w: World, i: nat): CallKey
    requires IsDispatched(w, i)
  {
    (SeenBy(w, i).grant.body.workspaceId, SeenBy(w, i).grant.body.toolCallId)
  }

  /** A dispatched consumption's attempt is the only one of its call, and bound to its grant for good. */
  lemma OneAttemptOfCall(p: Setting, w: World, i: nat)
    requires Sound(w) && AllChecked(p.parse, w) && IsDispatched(w, i)
    ensures var key := CallOf(w, i);
            && key in w.tables.attemptOf && w.tables.attemptOf[key] in w.tables.attempts.at
            && w.tables.attempts.at[w.tables.attemptOf[key]].grantId == Some(w.consumptions[i].grantId)
  {
    var r := SeenBy(w, i);
    assert Remembers(w.tables, w.consumptions[i]) && CheckedSoFar(p.parse, w.consumptions[i]);
    assert GC.AttemptMatchesGrant(r.attempt, r.grant.body, true);
    var stored := w.tables.attempts.at[r.attempt.identity.id];
    assert KeyOf(stored) == KeyOf(r.attempt) == CallOf(w, i);
  }

  /**
    Over every run of the store: a grant is consumed exactly by the one consumption that was
    dispatched with it, after all of its checks, and no call is dispatched twice, whatever
    grants exist for it.
   */
  lemma EachCallIsDispatchedOnce(p: Setting, events: seq<Event>)
    ensures var w := Run(p, events);
            && (forall id :: Consumed(w.tables, id) <==> exists i: nat :: DispatchedFor(w, i, id))
            && (forall i: nat | IsDispatched(w, i) :: GC.ChecksPass(p.parse, w.consumptions[i].input, SeenBy(w, i)))
            && (forall i: nat, j: nat | IsDispatched(w, i) && IsDispatched(w, j) && CallOf(w, i) == CallOf(w, j) :: i == j)
  {
    EveryRunIsSound(p, events);
    EveryRunIsChecked(p, events);
    EveryRunIsLogged(p, events);
    var w := Run(p, events);
    forall i: nat | IsDispatched(w, i) ensures GC.ChecksPass(p.parse, w.consumptions[i].input, SeenBy(w, i)) {
      assert CheckedSoFar(p.parse, w.consumptions[i]);
    }
    forall i: nat, j: nat | IsDispatched(w, i) && IsDispatched(w, j) && CallOf(w, i) == CallOf(w, j) ensures i == j {
      OneAttemptOfCall(p, w, i);
      OneAttemptOfCall(p, w, j);
    }
  }
}
