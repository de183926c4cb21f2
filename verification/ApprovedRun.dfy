/**
  The approved call in the store: the gate's publication is written into the tables, and a
  consumption that runs by itself from there is dispatched.
 */
module ApprovedRun {
  import opened Basics
  import opened Records
  import opened AuthorizationStore
  import opened AuthorizationRuns
  import AA = ApprovalAuthorization
  import AD = ApprovedDispatch
  import CI = ContentInfluence
  import GC = GrantChecks
  import S = GrantConsumption

  lemma {:induction false} NothingFound<V>(table: Table<V>, from: seq<string>, p: V -> bool)
    requires forall id | id in table.at :: !p(table.at[id])
    ensures table.FirstOf(from, p) == None
  {
    if from != [] {
      NothingFound(table, from[1..], p);
    }
  }

  /** The call is pending with its finalized approval, and nothing has been published for it. */
  ghost predicate Pending(t: Tables, call: ToolCall, ap: Approval) {
    && Keyed(t)
    && t.approvals.Get(ap.id) == Some(ap) && t.toolCalls.Get(call.Id()) == Some(call)
    && (call.WorkspaceId(), call.Id()) !in t.attemptOf
    && (forall id | id in t.grants.at :: (t.grants.at[id].body.workspaceId, t.grants.at[id].body.toolCallId) != (call.WorkspaceId(), call.Id()))
    && (forall id | id in t.receipts.at ::
          (t.receipts.at[id].body.workspaceId, t.receipts.at[id].body.toolCallId) != (call.WorkspaceId(), call.Id()))
  }

  /** The ids of the publication are its own. */
  predicate NewIds(t: Tables, i: AD.Issue) {
    && i.attemptId != "" && i.grantId != "" && i.receiptId != ""
    && !t.attempts.Has(i.attemptId) && !t.grants.Has(i.grantId) && !t.receipts.Has(i.receiptId)
  }

  lemma NothingStoredYet(t: Tables, call: ToolCall, ap: Approval, p: GC.Publication)
    requires Pending(t, call, ap) && p.toolCall.identity == call.identity
    ensures StoredFor(t, p, ap, call) == GC.Stored(ap, call, None, None, None)
  {
    var ws, id := call.WorkspaceId(), call.Id();
    NothingFound(t.grants, t.grants.ids, (g: Grant) => g.body.workspaceId == ws && g.body.toolCallId == id);
    NothingFound(t.receipts, t.receipts.ids, (r: Receipt) => r.body.workspaceId == ws && r.body.toolCallId == id);
  }

  lemma WrittenWhenCreated(text: Hash -> string, t: Tables, p: GC.Publication, ap: Approval, call: ToolCall)
    requires t.approvals.Get(p.approvalId) == Some(ap) && t.toolCalls.Get(p.toolCall.Id()) == Some(call)
    requires call.WorkspaceId() == p.toolCall.WorkspaceId() && GC.PublicationCandidate(p, text) && !IdsTaken(t, p)
    requires GC.Publish(p, text, StoredFor(t, p, ap, call)).1 == GC.Created
    ensures Publish(text, t, p) == (Issue(t, p), Done)
  {
  }

  /** The ids of the publication, and what it says of the call and its approval. */
  lemma PublicationNames(call: ToolCall, ap: Approval, input: Json, e: Envelope, i: AD.Issue, details: Json,
      text: Hash -> string)
    ensures var p := AD.PublicationFor(call, ap, input, e, i, details, text);
            && p.approvalId == ap.id && p.toolCall.identity == call.identity
            && p.attempt.identity.id == i.attemptId && p.grant.body.id == i.grantId && p.receipt.body.id == i.receiptId
            && KeyOf(p.attempt) == (call.WorkspaceId(), call.Id())
            && p.grant.body.workspaceId == call.WorkspaceId() && p.grant.body.toolCallId == call.Id()
            && p.toolCall.action == AD.ApprovedCall(call, input, e).action
  {
  }

  lemma PublicationIsWritten(
    parse: AA.Parse, text: Hash -> string, t: Tables, call: ToolCall, ap: Approval, input: Json, e: Envelope, i: AD.Issue, details: Json)
    requires Pending(t, call, ap) && AD.ApprovedFor(parse, call, ap, input, e) && NewIds(t, i)
    ensures var p := AD.PublicationFor(call, ap, input, e, i, details, text);
            Publish(text, t, p) == (Issue(t, p), Done)
  {
    var p := AD.PublicationFor(call, ap, input, e, i, details, text);
    AD.PublicationIsCandidate(parse, call, ap, input, e, i, details, text);
    AD.ApprovedCallIsPublished(parse, call, ap, input, e, i, details, text);
    PublicationNames(call, ap, input, e, i, details, text);
    NothingStoredYet(t, call, ap, p);
    WrittenWhenCreated(text, t, p, ap, call);
  }

  /** Time passes without a failure; policy, approval and grant hold on. */
  predicate HoldsOn(parse: AA.Parse, call: ToolCall, ap: Approval, grantExpiresAt: Timestamp, envs: seq<Env>) {
    && ap.authorization.Some? && parse(grantExpiresAt).Some?
    && forall k | 0 <= k < |envs| ::
         && !envs[k].fails && envs[k].activePolicy == call.identity.policyVersionHash
         && !AA.Expired(parse, ap.authorization.value, envs[k].now) && envs[k].now < parse(grantExpiresAt).value
  }

  /** Every record that a consumption reads is the published one. */
  ghost predicate Reads(t: Tables, p: GC.Publication, ap: Approval) {
    && t.grants.Get(p.grant.body.id) == Some(p.grant)
    && t.receipts.Get(p.receipt.body.id) == Some(p.receipt)
    && AttemptOfCall(t, p.grant.body.workspaceId, p.grant.body.toolCallId) == Some(p.attempt)
    && t.attempts.Get(p.attempt.identity.id) == Some(p.attempt)
    && t.toolCalls.Get(p.grant.body.toolCallId) == Some(p.toolCall)
    && t.approvals.Get(ap.id) == Some(ap)
  }

  lemma IssuedIsRead(t: Tables, p: GC.Publication, ap: Approval)
    requires t.approvals.Get(ap.id) == Some(ap) && p.attempt.identity.id != ""
    requires KeyOf(p.attempt) == (p.grant.body.workspaceId, p.grant.body.toolCallId)
               && p.grant.body.toolCallId == p.toolCall.Id()
    ensures Reads(Issue(t, p), p, ap)
  {
  }

  /** The consumption with the records it has come to. */
  function Seen(p: GC.Publication, ap: Approval, policy: Option<Hash>, g: int, r: int, a: int, b: int): GC.Reads {
    GC.Reads(p.grant, policy, Some(p.receipt), p.attempt, p.toolCall, Some(ap), g, r, a, b)
  }

  /** What does not depend on time: the records of the publication name each other. */
  predicate Joined(p: GC.Publication, ap: Approval) {
    && Truthy(p.grant.body.receiptId) && p.grant.body.receiptId == Some(p.receipt.body.id)
    && GC.GrantReceiptUsable(p.grant.body, Some(p.receipt))
    && p.grant.consumedAt == None && p.attempt.state == Reserved && GC.AttemptMatchesGrant(p.attempt, p.grant.body, true)
    && p.toolCall.Id() == p.grant.body.toolCallId && GC.ToolCallCurrent(p.toolCall, p.attempt, p.grant.body, false)
    && p.attempt.binding.approvalId == Some(ap.id) && ap.id != ""
  }

  /** What does: every check that looks at the clock. */
  predicate Passing(parse: AA.Parse, p: GC.Publication, ap: Approval, c: GC.ConsumeInput, policy: Option<Hash>, now: int) {
    && GC.GrantUsable(parse, c, p.grant, policy, now)
    && GC.ReceiptCurrent(parse, Some(p.receipt), p.toolCall, p.attempt, p.grant.body, now)
    && GC.ApprovalUsable(parse, Some(ap), p.toolCall, p.attempt, p.grant.body, now)
    && GC.Bindable(parse, Some(ap), p.attempt, p.toolCall, now)
    && parse(p.grant.body.expiresAt).Some? && now < parse(p.grant.body.expiresAt).value
  }

  /** A published approved call passes every check before something expires. */
  lemma PassesEveryCheck(
    parse: AA.Parse, text: Hash -> string, call: ToolCall, ap: Approval, input: Json, e: Envelope, i: AD.Issue, details: Json, now: int)
    requires AD.ApprovedFor(parse, call, ap, input, e) && AD.EvidenceInOrder(call) && i.grantId != "" && i.receiptId != ""
    requires !AA.Expired(parse, ap.authorization.value, now)
    requires parse(i.grantExpiresAt).Some? && parse(i.grantExpiresAt).value > now
    ensures var p := AD.PublicationFor(call, ap, input, e, i, details, text);
            var c := GC.ConsumeInput(input, call.identity.policyVersionHash, call.Id(), call.ToolName());
            Joined(p, ap) && Passing(parse, p, ap, c, call.identity.policyVersionHash, now)
  {
    AD.ApprovedCallDispatches(parse, call, ap, input, e, i, details, text, now);
  }

  /** The dispatch of what was read, as long as the scope has the decision's revision. */
  lemma DispatchSucceeds(t: Tables, p: GC.Publication, ap: Approval, r: GC.Reads, at: Timestamp)
    requires Reads(t, p, ap) && Joined(p, ap)
    requires r.grant == p.grant && r.attempt == p.attempt && r.toolCall == p.toolCall
    requires RevisionMatches(t.scopes, p.grant.body.workspaceId, AtomicInput(r, at).guard)
    ensures Dispatch(t, AtomicInput(r, at)).1 == Done
  {
  }

  /** A step that reads leads where its reading leads. */
  lemma ReadingLeads(parse: AA.Parse, t: Tables, c: Consumption, s: Stage, e: Env, next: Stage)
    requires !e.fails && !s.Dispatched_? && !s.Refused? && !s.Authorized_?
    requires StepReading(parse, t, c.(stage := s), e) == c.(stage := next)
    ensures S.Leads(parse, t, c, s, e, next)
  {
  }

  lemma ReadsTheGrant(parse: AA.Parse, t: Tables, p: GC.Publication, ap: Approval, c: Consumption, env: Env)
    requires Reads(t, p, ap) && !env.fails && c.grantId == p.grant.body.id && c.workspaceId == p.grant.body.workspaceId
    requires GC.GrantUsable(parse, c.input, p.grant, env.activePolicy, env.now)
    ensures S.Leads(parse, t, c, Arrived, env, GrantRead(p.grant, env.activePolicy, env.now))
  {
    ReadingLeads(parse, t, c, Arrived, env, GrantRead(p.grant, env.activePolicy, env.now));
  }

  lemma ReadsTheReceipt(parse: AA.Parse, t: Tables, p: GC.Publication, ap: Approval, c: Consumption, env: Env,
      policy: Option<Hash>, at: int)
    requires Reads(t, p, ap) && !env.fails
    requires Truthy(p.grant.body.receiptId) && p.grant.body.receiptId == Some(p.receipt.body.id)
    requires GC.GrantReceiptUsable(p.grant.body, Some(p.receipt))
    ensures S.Leads(parse, t, c, GrantRead(p.grant, policy, at), env, ReceiptRead(p.grant, policy, at, Some(p.receipt)))
  {
    ReadingLeads(parse, t, c, GrantRead(p.grant, policy, at), env, ReceiptRead(p.grant, policy, at, Some(p.receipt)));
  }

  lemma ReadsTheAttempt(parse: AA.Parse, t: Tables, p: GC.Publication, ap: Approval, c: Consumption, env: Env,
      policy: Option<Hash>, at: int)
    requires Reads(t, p, ap) && !env.fails
    requires p.attempt.state == Reserved && GC.AttemptMatchesGrant(p.attempt, p.grant.body, true)
    ensures S.Leads(parse, t, c, ReceiptRead(p.grant, policy, at, Some(p.receipt)), env,
                    AttemptRead(p.grant, policy, at, Some(p.receipt), p.attempt))
  {
    ReadingLeads(parse, t, c, ReceiptRead(p.grant, policy, at, Some(p.receipt)), env,
                 AttemptRead(p.grant, policy, at, Some(p.receipt), p.attempt));
  }

  lemma ReadsTheCall(parse: AA.Parse, t: Tables, p: GC.Publication, ap: Approval, c: Consumption, env: Env,
      policy: Option<Hash>, at: int)
    requires Reads(t, p, ap) && !env.fails && CallerAuthorized(c, p.toolCall) && p.toolCall.Id() == p.grant.body.toolCallId
    requires GC.ToolCallCurrent(p.toolCall, p.attempt, p.grant.body, false)
    requires GC.ReceiptCurrent(parse, Some(p.receipt), p.toolCall, p.attempt, p.grant.body, env.now)
    ensures S.Leads(parse, t, c, AttemptRead(p.grant, policy, at, Some(p.receipt), p.attempt), env,
                    CallRead(p.grant, policy, at, Some(p.receipt), p.attempt, p.toolCall, env.now))
  {
    ReadingLeads(parse, t, c, AttemptRead(p.grant, policy, at, Some(p.receipt), p.attempt), env,
                 CallRead(p.grant, policy, at, Some(p.receipt), p.attempt, p.toolCall, env.now));
  }

  lemma ReadsTheApproval(
    parse: AA.Parse, t: Tables, p: GC.Publication, ap: Approval, c: Consumption, env: Env, policy: Option<Hash>, at: int, r: int)
    requires Reads(t, p, ap) && !env.fails && p.attempt.binding.approvalId == Some(ap.id) && ap.id != ""
    requires GC.ApprovalUsable(parse, Some(ap), p.toolCall, p.attempt, p.grant.body, env.now)
    ensures S.Leads(parse, t, c, CallRead(p.grant, policy, at, Some(p.receipt), p.attempt, p.toolCall, r), env,
                    Checked(Seen(p, ap, policy, at, r, env.now, env.now)))
  {
    ReadingLeads(parse, t, c, CallRead(p.grant, policy, at, Some(p.receipt), p.attempt, p.toolCall, r), env,
                 Checked(Seen(p, ap, policy, at, r, env.now, env.now)));
  }

  lemma UsesTheAuthorization(
    parse: AA.Parse, t: Tables, p: GC.Publication, ap: Approval, c: Consumption, env: Env, policy: Option<Hash>, at: int, r: int, a: int)
    requires !env.fails && GC.Bindable(parse, Some(ap), p.attempt, p.toolCall, env.now)
    requires parse(p.grant.body.expiresAt).Some? && env.now < parse(p.grant.body.expiresAt).value
    ensures S.Leads(parse, t, c, Checked(Seen(p, ap, policy, at, r, a, a)), env, Authorized_(Seen(p, ap, policy, at, r, a, env.now)))
  {
    ReadingLeads(parse, t, c, Checked(Seen(p, ap, policy, at, r, a, a)), env, Authorized_(Seen(p, ap, policy, at,
                 r, a, env.now)));
  }

  /** The consumption of the approved input by the runner that may consume it. */
  function ConsumptionOf(call: ToolCall, input: Json, i: AD.Issue, native: bool): Consumption {
    Consumption(i.grantId, call.WorkspaceId(), GC.ConsumeInput(input, call.identity.policyVersionHash, call.Id(), call.ToolName()),
                native, Arrived)
  }

  /** The records that the consumption has read when it is dispatched. */
  function FinallySeen(p: GC.Publication, ap: Approval, policy: Option<Hash>, envs: seq<Env>): GC.Reads
    requires |envs| == S.STEPS
  {
    Seen(p, ap, policy, envs[0].now, envs[3].now, envs[4].now, envs[5].now)
  }

  /** The environment of a consumption that meets no failure and nothing expired. */
  ghost predicate PassingAll(parse: AA.Parse, p: GC.Publication, ap: Approval, c: Consumption,
      policy: Option<Hash>, envs: seq<Env>) {
    && |envs| == S.STEPS
    && forall k | 0 <= k < |envs| ::
         !envs[k].fails && envs[k].activePolicy == policy && Passing(parse, p, ap, c.input, policy, envs[k].now)
  }

  /** What the steps of such a consumption lead to, one after another. */
  function StageAt(p: GC.Publication, ap: Approval, policy: Option<Hash>, envs: seq<Env>, k: nat): Stage
    requires |envs| == S.STEPS && k <= 6
  {
    var at, r, a := envs[0].now, envs[3].now, envs[4].now;
    match k
    case 0 => Arrived
    case 1 => GrantRead(p.grant, policy, at)
    case 2 => ReceiptRead(p.grant, policy, at, Some(p.receipt))
    case 3 => AttemptRead(p.grant, policy, at, Some(p.receipt), p.attempt)
    case 4 => CallRead(p.grant, policy, at, Some(p.receipt), p.attempt, p.toolCall, r)
    case 5 => Checked(Seen(p, ap, policy, at, r, a, a))
    case _ => Authorized_(FinallySeen(p, ap, policy, envs))
  }

  /** The step from stage `k` leads to the next one. */
  ghost predicate LeadsFrom(parse: AA.Parse, t: Tables, p: GC.Publication, ap: Approval, c: Consumption,
      policy: Option<Hash>, envs: seq<Env>, k: nat)
    requires |envs| == S.STEPS && k < 6
  {
    S.Leads(parse, t, c, StageAt(p, ap, policy, envs, k), envs[k], StageAt(p, ap, policy, envs, k + 1))
  }

  lemma FirstStepsLead(parse: AA.Parse, t: Tables, p: GC.Publication, ap: Approval, c: Consumption,
      policy: Option<Hash>, envs: seq<Env>, k: nat)
    requires |envs| == S.STEPS && Reads(t, p, ap) && Joined(p, ap)
    requires k < 3 && !envs[k].fails && envs[0].activePolicy == policy
               && GC.GrantUsable(parse, c.input, p.grant, policy, envs[0].now)
    requires c.grantId == p.grant.body.id && c.workspaceId == p.grant.body.workspaceId
    ensures LeadsFrom(parse, t, p, ap, c, policy, envs, k)
  {
    if k == 0 {
      ReadsTheGrant(parse, t, p, ap, c, envs[0]);
    } else if k == 1 {
      ReadsTheReceipt(parse, t, p, ap, c, envs[1], policy, envs[0].now);
    } else {
      ReadsTheAttempt(parse, t, p, ap, c, envs[2], policy, envs[0].now);
    }
  }

  lemma CallStepLeads(parse: AA.Parse, t: Tables, p: GC.Publication, ap: Approval, c: Consumption,
      policy: Option<Hash>, envs: seq<Env>)
    requires |envs| == S.STEPS && Reads(t, p, ap) && !envs[3].fails && CallerAuthorized(c, p.toolCall)
    requires p.toolCall.Id() == p.grant.body.toolCallId && GC.ToolCallCurrent(p.toolCall, p.attempt, p.grant.body, false)
    requires GC.ReceiptCurrent(parse, Some(p.receipt), p.toolCall, p.attempt, p.grant.body, envs[3].now)
    ensures LeadsFrom(parse, t, p, ap, c, policy, envs, 3)
  {
    ReadsTheCall(parse, t, p, ap, c, envs[3], policy, envs[0].now);
  }

  lemma ApprovalStepLeads(parse: AA.Parse, t: Tables, p: GC.Publication, ap: Approval, c: Consumption,
      policy: Option<Hash>, envs: seq<Env>)
    requires |envs| == S.STEPS && Reads(t, p, ap) && !envs[4].fails && p.attempt.binding.approvalId == Some(ap.id)
               && ap.id != ""
    requires GC.ApprovalUsable(parse, Some(ap), p.toolCall, p.attempt, p.grant.body, envs[4].now)
    ensures LeadsFrom(parse, t, p, ap, c, policy, envs, 4)
  {
    ReadsTheApproval(parse, t, p, ap, c, envs[4], policy, envs[0].now, envs[3].now);
  }

  lemma LastStepLeads(parse: AA.Parse, t: Tables, p: GC.Publication, ap: Approval, c: Consumption,
      policy: Option<Hash>, envs: seq<Env>)
    requires |envs| == S.STEPS && !envs[5].fails && GC.Bindable(parse, Some(ap), p.attempt, p.toolCall, envs[5].now)
    requires parse(p.grant.body.expiresAt).Some? && envs[5].now < parse(p.grant.body.expiresAt).value
    ensures LeadsFrom(parse, t, p, ap, c, policy, envs, 5)
  {
    UsesTheAuthorization(parse, t, p, ap, c, envs[5], policy, envs[0].now, envs[3].now, envs[4].now);
  }

  /** Each step of the consumption leads on, as long as its own check passes. */
  lemma StepLeads(parse: AA.Parse, t: Tables, p: GC.Publication, ap: Approval, c: Consumption,
      policy: Option<Hash>, envs: seq<Env>, k: nat)
    requires |envs| == S.STEPS && k < 6 && Reads(t, p, ap) && Joined(p, ap) && CallerAuthorized(c, p.toolCall)
    requires c.grantId == p.grant.body.id && c.workspaceId == p.grant.body.workspaceId
    requires !envs[k].fails && envs[0].activePolicy == policy && GC.GrantUsable(parse, c.input, p.grant, policy, envs[0].now)
    requires Passing(parse, p, ap, c.input, policy, envs[k].now)
    ensures LeadsFrom(parse, t, p, ap, c, policy, envs, k)
  {
    if k < 3 {
      FirstStepsLead(parse, t, p, ap, c, policy, envs, k);
    } else if k == 3 {
      CallStepLeads(parse, t, p, ap, c, policy, envs);
    } else if k == 4 {
      ApprovalStepLeads(parse, t, p, ap, c, policy, envs);
    } else {
      LastStepLeads(parse, t, p, ap, c, policy, envs);
    }
  }

  lemma {:induction false} ReadsOn(
    parse: AA.Parse, t: Tables, p: GC.Publication, ap: Approval, c: Consumption, policy: Option<Hash>, envs: seq<Env>, k: nat)
    requires |envs| == S.STEPS && k <= 6
    requires forall n: nat | n < k :: LeadsFrom(parse, t, p, ap, c, policy, envs, n)
    ensures S.Rest(parse, t, c, Arrived, envs, 0) == S.Rest(parse, t, c, StageAt(p, ap, policy, envs, k), envs, k)
  {
    if k > 0 {
      ReadsOn(parse, t, p, ap, c, policy, envs, k - 1);
      assert LeadsFrom(parse, t, p, ap, c, policy, envs, k - 1);
      S.GoesOn(parse, t, c, StageAt(p, ap, policy, envs, k - 1), StageAt(p, ap, policy, envs, k), envs, k - 1);
    }
  }

  lemma PassesAt(parse: AA.Parse, p: GC.Publication, ap: Approval, c: Consumption, policy: Option<Hash>,
      envs: seq<Env>, k: nat)
    requires PassingAll(parse, p, ap, c, policy, envs) && k < 6
    ensures !envs[k].fails && envs[0].activePolicy == policy && GC.GrantUsable(parse, c.input, p.grant, policy, envs[0].now)
    ensures Passing(parse, p, ap, c.input, policy, envs[k].now)
  {
  }

  lemma StepLeadsOn(parse: AA.Parse, t: Tables, p: GC.Publication, ap: Approval, c: Consumption,
      policy: Option<Hash>, envs: seq<Env>, k: nat)
    requires Reads(t, p, ap) && Joined(p, ap) && PassingAll(parse, p, ap, c, policy, envs) && CallerAuthorized(c, p.toolCall)
    requires c.grantId == p.grant.body.id && c.workspaceId == p.grant.body.workspaceId && k < 6
    ensures LeadsFrom(parse, t, p, ap, c, policy, envs, k)
  {
    PassesAt(parse, p, ap, c, policy, envs, k);
    StepLeads(parse, t, p, ap, c, policy, envs, k);
  }

  lemma ReadsThrough(parse: AA.Parse, t: Tables, p: GC.Publication, ap: Approval, c: Consumption,
      policy: Option<Hash>, envs: seq<Env>)
    requires Reads(t, p, ap) && Joined(p, ap) && PassingAll(parse, p, ap, c, policy, envs) && CallerAuthorized(c, p.toolCall)
    requires c.grantId == p.grant.body.id && c.workspaceId == p.grant.body.workspaceId
    ensures S.Rest(parse, t, c, Arrived, envs, 0) == S.Rest(parse, t, c, StageAt(p, ap, policy, envs, 6), envs, 6)
  {
    forall k: nat | k < 6 ensures LeadsFrom(parse, t, p, ap, c, policy, envs, k) {
      StepLeadsOn(parse, t, p, ap, c, policy, envs, k);
    }
    ReadsOn(parse, t, p, ap, c, policy, envs, 6);
  }

  /** A consumption that reads the records of a publication, joined and passing, is dispatched. */
  lemma PublishedIsDispatched(
    parse: AA.Parse, t: Tables, p: GC.Publication, ap: Approval, c: Consumption, policy: Option<Hash>, envs: seq<Env>)
    requires Reads(t, p, ap) && Joined(p, ap) && PassingAll(parse, p, ap, c, policy, envs) && CallerAuthorized(c, p.toolCall)
    requires c.stage == Arrived && c.grantId == p.grant.body.id && c.workspaceId == p.grant.body.workspaceId
    requires RevisionMatches(t.scopes, p.grant.body.workspaceId, AtomicInput(FinallySeen(p, ap, policy, envs), envs[6].at).guard)
    ensures S.Drive(parse, t, c, envs).1 == c.(stage := Dispatched_(FinallySeen(p, ap, policy, envs)))
  {
    ReadsThrough(parse, t, p, ap, c, policy, envs);
    PassesAt(parse, p, ap, c, policy, envs, 0);
    StartsWhole(parse, t, c, envs);
    AuthorizedIsDispatched(parse, t, p, ap, c, policy, envs);
  }

  lemma StartsWhole(parse: AA.Parse, t: Tables, c: Consumption, envs: seq<Env>)
    requires c.stage == Arrived
    ensures S.Drive(parse, t, c, envs) == S.Rest(parse, t, c, Arrived, envs, 0)
  {
    assert envs[0..] == envs && c.(stage := Arrived) == c;
  }

  lemma AuthorizedIsDispatched(parse: AA.Parse, t: Tables, p: GC.Publication, ap: Approval, c: Consumption,
      policy: Option<Hash>, envs: seq<Env>)
    requires |envs| == S.STEPS && !envs[6].fails && Reads(t, p, ap) && Joined(p, ap)
    requires RevisionMatches(t.scopes, p.grant.body.workspaceId, AtomicInput(FinallySeen(p, ap, policy, envs), envs[6].at).guard)
    ensures S.Rest(parse, t, c, StageAt(p, ap, policy, envs, 6), envs, 6).1
         == c.(stage := Dispatched_(FinallySeen(p, ap, policy, envs)))
  {
    DispatchSucceeds(t, p, ap, FinallySeen(p, ap, policy, envs), envs[6].at);
    DispatchEnds(parse, t, c, FinallySeen(p, ap, policy, envs), envs);
  }

  lemma DispatchEnds(parse: AA.Parse, t: Tables, c: Consumption, r: GC.Reads, envs: seq<Env>)
    requires |envs| == S.STEPS && !envs[6].fails && Dispatch(t, AtomicInput(r, envs[6].at)).1 == Done
    ensures S.Rest(parse, t, c, Authorized_(r), envs, 6).1 == c.(stage := Dispatched_(r))
  {
    S.DriveOn(parse, t, c.(stage := Authorized_(r)), envs, 6);
    S.EndedStays(parse, Dispatch(t, AtomicInput(r, envs[6].at)).0, c.(stage := Dispatched_(r)), envs[7..]);
  }

  lemma PassesThroughout(
    parse: AA.Parse, text: Hash -> string, call: ToolCall, ap: Approval, input: Json, e: Envelope, i: AD.Issue, details: Json,
    native: bool, envs: seq<Env>)
    requires AD.ApprovedFor(parse, call, ap, input, e) && AD.EvidenceInOrder(call) && i.grantId != "" && i.receiptId != ""
    requires |envs| == S.STEPS && HoldsOn(parse, call, ap, i.grantExpiresAt, envs)
    ensures var p := AD.PublicationFor(call, ap, input, e, i, details, text);
            Joined(p, ap) && PassingAll(parse, p, ap, ConsumptionOf(call, input, i, native), call.identity.policyVersionHash, envs)
  {
    forall k | 0 <= k < |envs| {
      PassesEveryCheck(parse, text, call, ap, input, e, i, details, envs[k].now);
    }
    PassesEveryCheck(parse, text, call, ap, input, e, i, details, envs[0].now);
  }

  /**
    The way of an approved call through the store: its publication is written, and the consumption
    of the approved input that follows is dispatched, if nothing fails or expires meanwhile, the
    policy stays active and the scope has the revision that the decision was computed at.
   */
  lemma ApprovedCallRuns(
    parse: AA.Parse, text: Hash -> string, t: Tables, call: ToolCall, ap: Approval, input: Json, e: Envelope, i: AD.Issue,
    details: Json, native: bool, envs: seq<Env>)
    requires Pending(t, call, ap) && NewIds(t, i)
    requires AD.ApprovedFor(parse, call, ap, input, e) && AD.EvidenceInOrder(call)
    requires |envs| == S.STEPS && HoldsOn(parse, call, ap, i.grantExpiresAt, envs)
    requires CallerAuthorized(ConsumptionOf(call, input, i, native), AD.ApprovedCall(call, input, e))
    requires RevisionMatches(t.scopes, call.WorkspaceId(),
               CI.RevisionGuardOf(HASHES, call.identity.contentInfluence, AuthoritativeScopeId(call.identity, Some(e))))
    ensures var p := AD.PublicationFor(call, ap, input, e, i, details, text);
            && Publish(text, t, p) == (Issue(t, p), Done)
            && S.Drive(parse, Issue(t, p), ConsumptionOf(call, input, i, native), envs).1.stage
               == Dispatched_(FinallySeen(p, ap, call.identity.policyVersionHash, envs))
  {
    var p, c := AD.PublicationFor(call, ap, input, e, i, details, text), ConsumptionOf(call, input, i, native);
    PublicationIsWritten(parse, text, t, call, ap, input, e, i, details);
    PassesThroughout(parse, text, call, ap, input, e, i, details, native, envs);
    PublicationNames(call, ap, input, e, i, details, text);
    IssuedIsRead(t, p, ap);
    PublishedIsDispatched(parse, Issue(t, p), p, ap, c, call.identity.policyVersionHash, envs);
  }
}
