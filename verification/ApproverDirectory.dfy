/**
  The approver directory: who may approve as whom. A user answers to two names, its id and its
  effective principal, and no two users of a workspace may share one.

  `String.prototype.trim` and the slug of a display name are parameters.
 */
module ApproverDirectory {
  import opened Basics
  import opened Decimals

  datatype Key = Key(workspaceId: string, id: string)

  datatype User = User(key: Key, principalId: Option<string>, displayName: string, enabled: bool, telegramChatId: Option<string>)

  datatype UserInput = UserInput(principalId: Option<string>, displayName: Option<string>, enabled: Option<bool>)

  type Users = map<Key, User>

  type Trim = string -> string

  ghost predicate Idempotent(trim: Trim) {
    forall s :: trim(trim(s)) == trim(s)
  }

  function BlankToUndefined(trim: Trim, value: Option<string>): Option<string> {
    if value.Some? && trim(value.value) != "" then Some(trim(value.value)) else None
  }

  /** The service's reading of the principal a user acts as. */
  function AuthorizationPrincipalId(trim: Trim, u: User): string {
    BlankToUndefined(trim, u.principalId).GetOr(u.key.id)
  }

  /** The store's reading, which does not trim. */
  function EffectiveIdentity(u: User): string {
    if u.principalId.None? || u.principalId.value == "" then u.key.id else u.principalId.value
  }

  // ------------------------------------------------------------ the store

  /** The record another user of the workspace stands in the way of. */
  predicate Blocks(existing: User, record: User) {
    && existing.key.workspaceId == record.key.workspaceId
    && existing.key.id != record.key.id
    && EffectiveIdentity(existing) == EffectiveIdentity(record)
  }

  predicate PrincipalAvailable(users: Users, record: User) {
    forall k | k in users :: !Blocks(users[k], record)
  }

  // ------------------------------------------------------------ the service

  datatype Outcome = Done | IdentityConflict | StoreConflict | NotFound | NoFreeId

  datatype Result = Result(users: Users, outcome: Outcome)

  function StoreUpsert(users: Users, record: User): Result {
    if PrincipalAvailable(users, record) then Result(users[record.key := record], Done)
    else Result(users, StoreConflict)
  }

  /** Another user of the workspace already answers to one of the proposed names. */
  predicate Claims(trim: Trim, u: User, k: Key, principalId: Option<string>) {
    && u.key.workspaceId == k.workspaceId
    && u.key.id != k.id
    && (u.key.id in {k.id, principalId.GetOr(k.id)}
        || AuthorizationPrincipalId(trim, u) in {k.id, principalId.GetOr(k.id)})
  }

  predicate UniqueAuthorizationIdentity(trim: Trim, users: Users, k: Key, principalId: Option<string>) {
    forall x | x in users :: !Claims(trim, users[x], k, principalId)
  }

  function Find(users: Users, k: Key): Option<User> {
    if k in users then Some(users[k]) else None
  }

  /** The record `upsertUser` writes, built from what it read. */
  function MergedUser(trim: Trim, existing: Option<User>, k: Key, input: UserInput): User {
    match existing
    case None =>
      User(k, BlankToUndefined(trim, input.principalId), BlankToUndefined(trim, input.displayName).GetOr(k.id),
           input.enabled.GetOr(true), None)
    case Some(u) =>
      User(k,
           Coalesce(BlankToUndefined(trim, input.principalId), u.principalId),
           BlankToUndefined(trim, input.displayName).GetOr(u.displayName),
           input.enabled.GetOr(u.enabled),
           u.telegramChatId)
  }

  function Upsert(trim: Trim, users: Users, k: Key, input: UserInput): Result {
    var record := MergedUser(trim, Find(users, k), k, input);
    if UniqueAuthorizationIdentity(trim, users, k, record.principalId) then StoreUpsert(users, record)
    else Result(users, IdentityConflict)
  }

  /** Every id and principal of the workspace, and its group ids. */
  function ExistingIds(trim: Trim, users: Users, groups: set<Key>, workspaceId: string): set<string> {
    (set k | k in users && users[k].key.workspaceId == workspaceId :: users[k].key.id)
    + (set k | k in users && users[k].key.workspaceId == workspaceId :: AuthorizationPrincipalId(trim, users[k]))
    + (set g | g in groups && g.workspaceId == workspaceId :: g.id)
  }

  datatype Op =
    | UpsertUser(key: Key, input: UserInput)
    | CreateUser(workspaceId: string, base: string, input: UserInput)
    | ConnectTelegram(key: Key, chatId: string)
    | DisconnectTelegram(key: Key)
    | DisableUser(key: Key)
    | DeleteUser(key: Key)

  /** One service call that runs from its first read to its last write by itself. */
  function Apply(trim: Trim, users: Users, groups: set<Key>, op: Op): Result {
    match op
    case UpsertUser(k, input) => Upsert(trim, users, k, input)
    case CreateUser(workspaceId, base, input) =>
      (match FirstFree(ExistingIds(trim, users, groups, workspaceId), base, 1)
       case None => Result(users, NoFreeId)
       case Some(id) => Upsert(trim, users, Key(workspaceId, id), input))
    case ConnectTelegram(k, chatId) =>
      if k !in users then Result(users, NotFound)
      else StoreUpsert(users, users[k].(telegramChatId := Some(chatId)))
    case DisconnectTelegram(k) =>
      if k !in users then Result(users, NotFound)
      else StoreUpsert(users, users[k].(telegramChatId := None))
    case DisableUser(k) =>
      if k !in users then Upsert(trim, users, k, UserInput(None, Some(k.id), Some(false)))
      else StoreUpsert(users, users[k].(enabled := false))
    case DeleteUser(k) =>
      if k !in users then Result(users, NotFound) else Result(users - {k}, Done)
  }

  class ApproverDirectoryService {
    const trim: Trim
    var users: Users
    var groups: set<Key>

    constructor (trim: Trim)
      ensures this.trim == trim && users == map[] && groups == {}
    {
      this.trim := trim;
      users, groups := map[], {};
    }

    /** `assertApproverPrincipalAvailable`, over the stored users in any order. */
    method PrincipalConflict(record: User) returns (conflict: bool)
      ensures conflict <==> !PrincipalAvailable(users, record)
    {
      var rest := users.Keys;
      while rest != {}
        invariant rest <= users.Keys
        invariant forall k | k in users && k !in rest :: !Blocks(users[k], record)
        decreases |rest|
      {
        var k :| k in rest;
        if Blocks(users[k], record) {
          return true;
        }
        rest := rest - {k};
      }
      return false;
    }

    method UpsertApproverUser(record: User) returns (outcome: Outcome)
      modifies this`users
      ensures Result(users, outcome) == StoreUpsert(old(users), record)
    {
      var conflict := PrincipalConflict(record);
      if conflict {
        return StoreConflict;
      }
      users := users[record.key := record];
      return Done;
    }

    method CallUpsertUser(k: Key, input: UserInput) returns (outcome: Outcome)
      modifies this`users
      ensures Result(users, outcome) == Upsert(trim, old(users), k, input)
    {
      var existing := Find(users, k);
      var principalId := Coalesce(
        BlankToUndefined(trim, input.principalId), if existing.Some? then existing.value.principalId else None);
      if exists x | x in users :: Claims(trim, users[x], k, principalId) {
        return IdentityConflict;
      }
      outcome := UpsertApproverUser(MergedUser(trim, existing, k, input));
    }

    method CallCreateUser(workspaceId: string, base: string, input: UserInput) returns (outcome: Outcome)
      modifies this`users
      ensures Result(users, outcome) == Apply(trim, old(users), groups, CreateUser(workspaceId, base, input))
    {
      var id := NextGeneratedDirectoryId(ExistingIds(trim, users, groups, workspaceId), base);
      if id.None? {
        return NoFreeId;
      }
      outcome := CallUpsertUser(Key(workspaceId, id.value), input);
    }

    method CallDisableUser(k: Key) returns (outcome: Outcome)
      modifies this`users
      ensures Result(users, outcome) == Apply(trim, old(users), groups, DisableUser(k))
    {
      if k !in users {
        outcome := CallUpsertUser(k, UserInput(None, Some(k.id), Some(false)));
      } else {
        outcome := UpsertApproverUser(users[k].(enabled := false));
      }
    }

    method CallDeleteUser(k: Key) returns (outcome: Outcome)
      modifies this`users
      ensures Result(users, outcome) == Apply(trim, old(users), groups, DeleteUser(k))
    {
      if k !in users {
        return NotFound;
      }
      users := users - {k};
      return Done;
    }
  }

  // ------------------------------------------------------------ sequential runs

  /** The names a user answers to. */
  function Names(u: User): set<string> {
    {u.key.id, EffectiveIdentity(u)}
  }

  /** Records are stored under their key with a trimmed principal, and share no name in a workspace. */
  ghost predicate Disjoint(trim: Trim, users: Users) {
    && (forall k | k in users :: users[k].key == k && Trimmed(trim, users[k]))
    && (forall j, k | j in users && k in users && j != k && j.workspaceId == k.workspaceId ::
          Names(users[j]) !! Names(users[k]))
  }

  predicate Trimmed(trim: Trim, u: User) {
    u.principalId.Some? ==> u.principalId.value != "" && trim(u.principalId.value) == u.principalId.value
  }

  lemma UpsertKeepsDisjoint(trim: Trim, users: Users, k: Key, input: UserInput)
    requires Idempotent(trim) && Disjoint(trim, users)
    ensures var r := Upsert(trim, users, k, input);
            Disjoint(trim, r.users) && r.outcome in {Done, IdentityConflict}
  {
    var record := MergedUser(trim, Find(users, k), k, input);
    if UniqueAuthorizationIdentity(trim, users, k, record.principalId) {
      forall x | x in users && x != k && x.workspaceId == k.workspaceId
        ensures Names(users[x]) !! Names(record)
      {
        assert !Claims(trim, users[x], k, record.principalId);
        assert AuthorizationPrincipalId(trim, users[x]) == EffectiveIdentity(users[x]);
      }
      forall x | x in users ensures !Blocks(users[x], record) {
        if x != k && x.workspaceId == k.workspaceId {
          assert EffectiveIdentity(record) in Names(record);
          assert EffectiveIdentity(users[x]) in Names(users[x]);
        }
      }
    }
  }

  lemma RewriteKeepsDisjoint(trim: Trim, users: Users, k: Key, record: User)
    requires Disjoint(trim, users) && k in users
    requires record.key == k && record.principalId == users[k].principalId
    ensures StoreUpsert(users, record).outcome == Done
    ensures Disjoint(trim, StoreUpsert(users, record).users)
  {
    assert Names(record) == Names(users[k]);
    forall x | x in users ensures !Blocks(users[x], record) {
      if x != k && x.workspaceId == k.workspaceId {
        assert EffectiveIdentity(users[x]) in Names(users[x]);
        assert EffectiveIdentity(record) in Names(users[k]);
      }
    }
  }

  /** Calls that run one at a time keep all names apart, and the store never has to object. */
  lemma CallKeepsDisjoint(trim: Trim, users: Users, groups: set<Key>, op: Op)
    requires Idempotent(trim) && Disjoint(trim, users)
    ensures Disjoint(trim, Apply(trim, users, groups, op).users)
    ensures Apply(trim, users, groups, op).outcome != StoreConflict
  {
    match op
    case UpsertUser(k, input) => UpsertKeepsDisjoint(trim, users, k, input);
    case CreateUser(workspaceId, base, input) =>
      var id := FirstFree(ExistingIds(trim, users, groups, workspaceId), base, 1);
      if id.Some? {
        UpsertKeepsDisjoint(trim, users, Key(workspaceId, id.value), input);
      }
    case ConnectTelegram(k, chatId) =>
      if k in users {
        RewriteKeepsDisjoint(trim, users, k, users[k].(telegramChatId := Some(chatId)));
      }
    case DisconnectTelegram(k) =>
      if k in users {
        RewriteKeepsDisjoint(trim, users, k, users[k].(telegramChatId := None));
      }
    case DisableUser(k) =>
      if k in users {
        RewriteKeepsDisjoint(trim, users, k, users[k].(enabled := false));
      } else {
        UpsertKeepsDisjoint(trim, users, k, UserInput(None, Some(k.id), Some(false)));
      }
    case DeleteUser(k) =>
  }

  function RunCalls(trim: Trim, groups: set<Key>, ops: seq<Op>): Users {
    if ops == [] then map[]
    else Apply(trim, RunCalls(trim, groups, ops[..|ops| - 1]), groups, ops[|ops| - 1]).users
  }

  lemma {:induction false} SequentialRunsStayDisjoint(trim: Trim, groups: set<Key>, ops: seq<Op>)
    requires Idempotent(trim)
    ensures Disjoint(trim, RunCalls(trim, groups, ops))
  {
    if ops != [] {
      SequentialRunsStayDisjoint(trim, groups, ops[..|ops| - 1]);
      CallKeepsDisjoint(trim, RunCalls(trim, groups, ops[..|ops| - 1]), groups, ops[|ops| - 1]);
    }
  }

  // ------------------------------------------------------------ stale reads

  /** Store steps of calls that interleave: a write may rest on any earlier read. */
  datatype StoreStep = Write(record: User) | Delete(key: Key)

  function RunStore(steps: seq<StoreStep>): Users {
    if steps == [] then map[]
    else
      var users := RunStore(steps[..|steps| - 1]);
      match steps[|steps| - 1]
      case Write(record) => StoreUpsert(users, record).users
      case Delete(k) => users - {k}
  }

  ghost predicate IdentitiesDistinct(users: Users) {
    && (forall k | k in users :: users[k].key == k)
    && (forall j, k | j in users && k in users && j != k && j.workspaceId == k.workspaceId ::
          EffectiveIdentity(users[j]) != EffectiveIdentity(users[k]))
  }

  /** Whatever records are written in whatever order, no two users of a workspace act as one principal. */
  lemma {:induction false} AnyInterleavingKeepsIdentitiesDistinct(steps: seq<StoreStep>)
    ensures IdentitiesDistinct(RunStore(steps))
  {
    if steps != [] {
      AnyInterleavingKeepsIdentitiesDistinct(steps[..|steps| - 1]);
      var users, step := RunStore(steps[..|steps| - 1]), steps[|steps| - 1];
      if step.Write? && PrincipalAvailable(users, step.record) {
        forall k | k in users && k != step.record.key && k.workspaceId == step.record.key.workspaceId
          ensures EffectiveIdentity(users[k]) != EffectiveIdentity(step.record)
        {
          assert !Blocks(users[k], step.record);
        }
      }
    }
  }

  lemma SecondWriteAccepted(users: Users, a: User, b: User)
    requires a.key != b.key && a.key.workspaceId == b.key.workspaceId
    requires forall k | k in users :: users[k].key == k
    requires PrincipalAvailable(users, b)
    ensures PrincipalAvailable(users[a.key := a], b) <==> EffectiveIdentity(a) != EffectiveIdentity(b)
  {
    var after := users[a.key := a];
    assert after[a.key] == a;
    forall x | x in after && x != a.key ensures !Blocks(after[x], b) {
      assert !Blocks(users[x], b);
    }
  }

  lemma BothWritten(trim: Trim, users: Users, a: User, b: User)
    requires a.key != b.key && a.key.workspaceId == b.key.workspaceId
    requires Disjoint(trim, users[a.key := a]) && Disjoint(trim, users[b.key := b])
    ensures Disjoint(trim, users[a.key := a][b.key := b]) <==> Names(a) !! Names(b)
  {
    var withA, withB := users[a.key := a], users[b.key := b];
    var both := withA[b.key := b];
    assert both[a.key] == a && both[b.key] == b && withA[a.key] == a && withB[b.key] == b;
    if Names(a) !! Names(b) {
      forall x, y | x in both && y in both && x != y && x.workspaceId == y.workspaceId
        ensures Names(both[x]) !! Names(both[y])
      {
        if x != b.key && y != b.key {
          assert both[x] == withA[x] && both[y] == withA[y];
        } else if x != a.key && y != a.key {
          assert both[x] == withB[x] && both[y] == withB[y];
        }
      }
    }
  }

  /**
    Two upserts of different users that both pass the service check on the same snapshot. The
    store refuses the second if and only if both act as one principal. If it accepts, the names
    stay apart if and only if neither user's id is the other's principal: the store does not
    look at ids.
   */
  lemma StaleUpserts(trim: Trim, users: Users, j: Key, k: Key, forJ: UserInput, forK: UserInput)
    requires Idempotent(trim) && Disjoint(trim, users)
    requires j != k && j.workspaceId == k.workspaceId
    requires Upsert(trim, users, j, forJ).outcome == Done && Upsert(trim, users, k, forK).outcome == Done
    ensures var a, b := MergedUser(trim, Find(users, j), j, forJ), MergedUser(trim, Find(users, k), k, forK);
            var second := StoreUpsert(StoreUpsert(users, a).users, b);
            && (second.outcome == StoreConflict <==> EffectiveIdentity(a) == EffectiveIdentity(b))
            && (second.outcome == Done ==>
                  (Disjoint(trim, second.users)
                   <==> EffectiveIdentity(a) != k.id && EffectiveIdentity(b) != j.id))
  {
    var a, b := MergedUser(trim, Find(users, j), j, forJ), MergedUser(trim, Find(users, k), k, forK);
    UpsertKeepsDisjoint(trim, users, j, forJ);
    UpsertKeepsDisjoint(trim, users, k, forK);
    assert Upsert(trim, users, j, forJ).users == users[j := a];
    assert Upsert(trim, users, k, forK).users == users[k := b];
    SecondWriteAccepted(users, a, b);
    BothWritten(trim, users, a, b);
    NamesApart(a, b);
  }

  /** `a` acting as `b` and `b` acting as `c`, both checked against an empty directory, are both stored. */
  lemma StaleReadsCanShareAName()
    ensures var trim: Trim := s => s;
            var j, k := Key("w", "a"), Key("w", "b");
            var forJ, forK := UserInput(Some("b"), None, None), UserInput(Some("c"), None, None);
            var first := StoreUpsert(map[], MergedUser(trim, None, j, forJ));
            var second := StoreUpsert(first.users, MergedUser(trim, None, k, forK));
            && Upsert(trim, map[], j, forJ).outcome == Done && Upsert(trim, map[], k, forK).outcome == Done
            && second.outcome == Done && !Disjoint(trim, second.users)
  {
    var trim: Trim := s => s;
    StaleUpserts(trim, map[], Key("w", "a"), Key("w", "b"),
                 UserInput(Some("b"), None, None), UserInput(Some("c"), None, None));
  }

  lemma NamesApart(a: User, b: User)
    ensures Names(a) !! Names(b) <==>
              && a.key.id != b.key.id && EffectiveIdentity(a) != EffectiveIdentity(b)
              && EffectiveIdentity(a) != b.key.id && EffectiveIdentity(b) != a.key.id
  {
    assert a.key.id in Names(a) && EffectiveIdentity(a) in Names(a);
    assert b.key.id in Names(b) && EffectiveIdentity(b) in Names(b);
  }

  // ------------------------------------------------------------ generated ids

  const LAST_SUFFIX: nat := 9_999

  function DigitChar(d: Digit): char { '0' + d as char }

  function Show(ds: seq<Digit>): (s: string)
    ensures |s| == |ds| && forall i | 0 <= i < |ds| :: s[i] == DigitChar(ds[i])
  {
    seq(|ds|, i requires 0 <= i < |ds| => DigitChar(ds[i]))
  }

  /** `base`, `base_2`, `base_3` and so on. */
  function Candidate(base: string, k: nat): string {
    if k <= 1 then base else base + "_" + Show(Digits(k))
  }

  /** The first candidate from the `k`-th that is not taken, up to the last suffix the loop tries. */
  function FirstFree(taken: set<string>, base: string, k: nat): Option<string>
    decreases LAST_SUFFIX + 1 - k
  {
    if k > LAST_SUFFIX then None
    else if Candidate(base, k) !in taken then Some(Candidate(base, k))
    else FirstFree(taken, base, k + 1)
  }

  method NextGeneratedDirectoryId(taken: set<string>, base: string) returns (id: Option<string>)
    ensures id == FirstFree(taken, base, 1)
  {
    var candidate := base;
    var suffix := 2;
    while suffix <= 10_000
      invariant 2 <= suffix <= 10_001
      invariant candidate == Candidate(base, suffix - 1)
      invariant FirstFree(taken, base, 1) == FirstFree(taken, base, suffix - 1)
      decreases 10_001 - suffix
    {
      if candidate !in taken {
        return Some(candidate);
      }
      candidate := base + "_" + Show(Digits(suffix));
      suffix := suffix + 1;
    }
    return None;
  }

  lemma CandidatesDiffer(base: string, j: nat, k: nat)
    requires 1 <= j < k
    ensures Candidate(base, j) != Candidate(base, k)
  {
    if Candidate(base, j) == Candidate(base, k) {
      var n := |base| + 1;
      assert j > 1;
      var a, b := Digits(j), Digits(k);
      assert Candidate(base, j)[n..] == Show(a);
      assert Candidate(base, k)[n..] == Show(b);
      assert |a| == |b|;
      forall i | 0 <= i < |a| ensures a[i] == b[i] {
        assert Show(a)[i] == Show(b)[i];
        assert DigitChar(a[i]) == DigitChar(b[i]);
      }
      assert a == b;
      ValueOfDigits(j);
      ValueOfDigits(k);
    }
  }

  function Candidates(base: string, n: nat): set<string> {
    set k | 1 <= k <= n :: Candidate(base, k)
  }

  lemma {:induction false} CandidateCount(base: string, n: nat)
    ensures |Candidates(base, n)| == n
  {
    if n == 0 {
      assert Candidates(base, n) == {};
    } else {
      var before, last := Candidates(base, n - 1), Candidate(base, n);
      CandidateCount(base, n - 1);
      assert last !in before by {
        if last in before {
          var k :| 1 <= k <= n - 1 && last == Candidate(base, k);
          CandidatesDiffer(base, k, n);
        }
      }
      assert Candidates(base, n) == before + {last};
    }
  }

  lemma {:induction false} FirstFreeFrom(taken: set<string>, base: string, k: nat)
    requires 1 <= k <= LAST_SUFFIX + 1
    ensures match FirstFree(taken, base, k)
            case Some(id) => id !in taken
            case None => forall i | k <= i <= LAST_SUFFIX :: Candidate(base, i) in taken
    decreases LAST_SUFFIX + 1 - k
  {
    if k <= LAST_SUFFIX && Candidate(base, k) in taken {
      FirstFreeFrom(taken, base, k + 1);
    }
  }

  lemma {:induction false} SubsetSize<T>(a: set<T>, b: set<T>)
    requires a <= b
    ensures |a| <= |b|
  {
    assert b == a + (b - a);
    assert |b| == |a| + |b - a|;
  }

  /** A generated id is new, and there is one unless all 9,999 candidates are taken. */
  lemma AllocationSucceeds(taken: set<string>, base: string)
    ensures match FirstFree(taken, base, 1)
            case Some(id) => id !in taken
            case None => Candidates(base, LAST_SUFFIX) <= taken && |taken| >= 9_999
    ensures |taken| < 9_999 ==> FirstFree(taken, base, 1).Some?
  {
    FirstFreeFrom(taken, base, 1);
    CandidateCount(base, LAST_SUFFIX);
    if FirstFree(taken, base, 1).None? {
      SubsetSize(Candidates(base, LAST_SUFFIX), taken);
    }
  }
}
