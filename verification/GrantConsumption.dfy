/**
  `consumeGrant` as the service runs it over the store: the reads and checks in their order, and
  the dispatch at the end, proved to be the steps of a consumption that runs by itself. `envs`
  holds the clock, the active policy and the possible failure of each await.
 */
module GrantConsumption {
  import opened Basics
  import opened Records
  import opened AuthorizationStore
  import opened AuthorizationRuns
  import AA = ApprovalAuthorization
  import GC = GrantChecks

  /** The number of steps of a consumption. */
  const STEPS: nat := 7

  /** A consumption that runs alone, as long as the environment lasts. */
  function Drive(parse: AA.Parse, t: Tables, c: Consumption, envs: seq<Env>): (Tables, Consumption)
    decreases |envs|
  {
    if envs == [] then (t, c)
    else
      var (u, d) := StepConsumption(parse, t, c, envs[0]);
      Drive(parse, u, d, envs[1..])
  }

  lemma DriveOn(parse: AA.Parse, t: Tables, c: Consumption, envs: seq<Env>, k: nat)
    requires k < |envs|
    ensures var (u, d) := StepConsumption(parse, t, c, envs[k]);
            Drive(parse, t, c, envs[k..]) == Drive(parse, u, d, envs[k + 1..])
  {
    assert envs[k..][0] == envs[k] && envs[k..][1..] == envs[k + 1..];
  }

  lemma {:induction false} EndedStays(parse: AA.Parse, t: Tables, c: Consumption, envs: seq<Env>)
    requires c.stage.Refused? || c.stage.Dispatched_?
    ensures Drive(parse, t, c, envs) == (t, c)
    decreases |envs|
  {
    if envs != [] {
      EndedStays(parse, t, c, envs[1..]);
    }
  }

  /** What the step of a consumption at `s` leads to, when it only reads. */
  ghost predicate Leads(parse: AA.Parse, t: Tables, c: Consumption, s: Stage, e: Env, next: Stage) {
    StepConsumption(parse, t, c.(stage := s), e) == (t, c.(stage := next))
  }

  /** The rest of a consumption that stands at `s` before its step `k`. */
  ghost function Rest(parse: AA.Parse, t: Tables, c: Consumption, s: Stage, envs: seq<Env>, k: nat): (Tables, Consumption)
    requires k <= |envs|
  {
    Drive(parse, t, c.(stage := s), envs[k..])
  }

  lemma GoesOn(parse: AA.Parse, t: Tables, c: Consumption, s: Stage, next: Stage, envs: seq<Env>, k: nat)
    requires k < |envs| && Leads(parse, t, c, s, envs[k], next)
    ensures Rest(parse, t, c, s, envs, k) == Rest(parse, t, c, next, envs, k + 1)
    ensures next == Refused ==> Rest(parse, t, c, s, envs, k) == (t, Refuse(c))
  {
    DriveOn(parse, t, c.(stage := s), envs, k);
    if next == Refused {
      EndedStays(parse, t, Refuse(c), envs[k + 1..]);
    }
  }

  class ExecutionGrantService {
    const parse: AA.Parse
    const store: MemoryStore

    constructor (parse: AA.Parse, store: MemoryStore)
      ensures this.parse == parse && this.store == store
    {
      this.parse, this.store := parse, store;
    }

    method CheckGrant(c: Consumption, e: Env) returns (next: Stage)
      ensures Leads(parse, store.View(), c, Arrived, e, next) && (next.GrantRead? || next == Refused)
    {
      if e.fails {
        return Refused;
      }
      var grant := store.executionGrants.Get(c.grantId);
      if grant.None? || grant.value.body.workspaceId != c.workspaceId {
        return Refused;
      }
      var g := grant.value.body;
      if grant.value.consumedAt.Some? {
        return Refused;
      }
      var expires := parse(g.expiresAt);
      if expires.Some? && expires.value <= e.now {
        return Refused;
      }
      if g.toolCallId != c.input.toolCallId || g.toolName != c.input.toolName {
        return Refused;
      }
      if TruthyHash(g.policyVersionHash) && (!TruthyHash(e.activePolicy) || g.policyVersionHash != e.activePolicy) {
        return Refused;
      }
      if TruthyHash(g.policyVersionHash) && TruthyHash(c.input.policyVersionHash)
        && g.policyVersionHash != c.input.policyVersionHash {
        return Refused;
      }
      if g.inputHash != JsonHash(c.input.input) || grant.value.signature != Signature(g) {
        return Refused;
      }
      return GrantRead(grant.value, e.activePolicy, e.now);
    }

    method CheckReceipt(c: Consumption, s: Stage, e: Env) returns (next: Stage)
      requires s.GrantRead?
      ensures Leads(parse, store.View(), c, s, e, next) && (next.ReceiptRead? || next == Refused)
    {
      if e.fails {
        return Refused;
      }
      var g, receipt := s.grant.body, None;
      if Truthy(g.receiptId) {
        receipt := store.actionReceipts.Get(g.receiptId.value);
      }
      if !GC.GrantReceiptUsable(g, receipt) {
        return Refused;
      }
      return ReceiptRead(s.grant, s.activePolicy, s.grantCheckedAt, receipt);
    }

    method CheckAttempt(c: Consumption, s: Stage, e: Env) returns (next: Stage)
      requires s.ReceiptRead?
      ensures Leads(parse, store.View(), c, s, e, next) && (next.AttemptRead? || next == Refused)
    {
      if e.fails {
        return Refused;
      }
      var g := s.grant.body;
      var key := (g.workspaceId, g.toolCallId);
      if key !in store.executionAttemptByToolCall || store.executionAttemptByToolCall[key] == "" {
        return Refused;
      }
      var attempt := store.executionAttempts.Get(store.executionAttemptByToolCall[key]);
      if attempt.None? || attempt.value.state != Reserved || !GC.AttemptMatchesGrant(attempt.value, g, true) {
        return Refused;
      }
      return AttemptRead(s.grant, s.activePolicy, s.grantCheckedAt, s.receipt, attempt.value);
    }

    method CheckCall(c: Consumption, s: Stage, e: Env) returns (next: Stage)
      requires s.AttemptRead?
      ensures Leads(parse, store.View(), c, s, e, next) && (next.CallRead? || next == Refused)
    {
      if e.fails {
        return Refused;
      }
      var g := s.grant.body;
      var toolCall := store.toolCalls.Get(g.toolCallId);
      if toolCall.None? || toolCall.value.Id() != g.toolCallId || !CallerAuthorized(c, toolCall.value) {
        return Refused;
      }
      if !GC.ToolCallCurrent(toolCall.value, s.attempt, g, false) {
        return Refused;
      }
      if !GC.ReceiptCurrent(parse, s.receipt, toolCall.value, s.attempt, g, e.now) {
        return Refused;
      }
      return CallRead(s.grant, s.activePolicy, s.grantCheckedAt, s.receipt, s.attempt, toolCall.value, e.now);
    }

    method CheckApproval(c: Consumption, s: Stage, e: Env) returns (next: Stage)
      requires s.CallRead?
      ensures Leads(parse, store.View(), c, s, e, next) && (next.Checked? || next == Refused)
    {
      if e.fails {
        return Refused;
      }
      var approval: Option<Approval> := None;
      if Truthy(s.attempt.binding.approvalId) {
        approval := store.approvals.Get(s.attempt.binding.approvalId.value);
        if !GC.ApprovalCurrent(parse, approval, s.toolCall, s.attempt, s.grant.body, e.now) {
          return Refused;
        }
      }
      return Checked(GC.Reads(s.grant, s.activePolicy, s.receipt, s.attempt, s.toolCall, approval,
                              s.grantCheckedAt, s.receiptCheckedAt, e.now, e.now));
    }

    method UseAuthorization(c: Consumption, s: Stage, e: Env) returns (next: Stage)
      requires s.Checked?
      ensures Leads(parse, store.View(), c, s, e, next) && (next.Authorized_? || next == Refused)
    {
      if e.fails {
        return Refused;
      }
      var r := s.seen.(boundAt := e.now);
      var expires := parse(r.grant.body.expiresAt);
      if expires.Some? && expires.value <= e.now {
        return Refused;
      }
      if !GC.Bindable(parse, r.approval, r.attempt, r.toolCall, e.now) {
        return Refused;
      }
      return Authorized_(r);
    }

    /** Everything before the dispatch. */
    method Check(c: Consumption, envs: seq<Env>) returns (checked: Option<GC.Reads>)
      requires |envs| == STEPS
      ensures var all := Rest(parse, store.View(), c, Arrived, envs, 0);
              if checked.Some? then all == Rest(parse, store.View(), c, Authorized_(checked.value), envs, 6)
              else all == (store.View(), Refuse(c))
    {
      ghost var t := store.View();
      var a := CheckGrant(c, envs[0]);
      GoesOn(parse, t, c, Arrived, a, envs, 0);
      if a == Refused {
        return None;
      }
      var b := CheckReceipt(c, a, envs[1]);
      GoesOn(parse, t, c, a, b, envs, 1);
      if b == Refused {
        return None;
      }
      var d := CheckAttempt(c, b, envs[2]);
      GoesOn(parse, t, c, b, d, envs, 2);
      if d == Refused {
        return None;
      }
      checked := CheckCurrent(c, d, envs);
    }

    /** The checks against the call and its approval, and the one-shot authorization. */
    method CheckCurrent(c: Consumption, s: Stage, envs: seq<Env>) returns (checked: Option<GC.Reads>)
      requires |envs| == STEPS && s.AttemptRead?
      ensures var all := Rest(parse, store.View(), c, s, envs, 3);
              if checked.Some? then all == Rest(parse, store.View(), c, Authorized_(checked.value), envs, 6)
              else all == (store.View(), Refuse(c))
    {
      ghost var t := store.View();
      var a := CheckCall(c, s, envs[3]);
      GoesOn(parse, t, c, s, a, envs, 3);
      if a == Refused {
        return None;
      }
      var b := CheckApproval(c, a, envs[4]);
      GoesOn(parse, t, c, a, b, envs, 4);
      if b == Refused {
        return None;
      }
      var d := UseAuthorization(c, b, envs[5]);
      GoesOn(parse, t, c, b, d, envs, 5);
      if d == Refused {
        return None;
      }
      return Some(d.seen);
    }

    /** `consumeGrant`. */
    method ConsumeGrant(grantId: string, workspaceId: string, input: GC.ConsumeInput, native: bool, envs: seq<Env>)
      returns (dispatched: Option<GC.Reads>)
      requires |envs| == STEPS
      modifies store
      ensures var c := Consumption(grantId, workspaceId, input, native, Arrived);
              Drive(parse, old(store.View()), c, envs)
              == (store.View(), c.(stage := if dispatched.Some? then Dispatched_(dispatched.value) else Refused))
    {
      var c := Consumption(grantId, workspaceId, input, native, Arrived);
      assert envs[0..] == envs && c.(stage := Arrived) == c;
      ghost var t := store.View();
      dispatched := Check(c, envs);
      if dispatched.None? {
        return;
      }
      ghost var authorized := c.(stage := Authorized_(dispatched.value));
      DriveOn(parse, t, authorized, envs, 6);
      assert envs[7..] == [];
      if envs[6].fails {
        return None;
      }
      var answer := store.ConsumeExecutionGrantAndDispatchAttemptAtomically(AtomicInput(dispatched.value, envs[6].at));
      if answer != Done {
        return None;
      }
    }
  }
}
