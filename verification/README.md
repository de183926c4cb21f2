# A verified model of ActionProxy

ActionProxy is an approval gateway for tool calls. A call may reach its real effect only through a
one-time execution grant, its outcome is recorded once, and what a model gets to see of it is shown
only after the exposure to that content is on record. This project models the parts of the server,
the MCP wrapper and the SDK runner that carry these promises, and proves them in Dafny.

Check everything with `dafny verify dfyconfig.toml`.

## How the model is organised

| files | what they model |
|---|---|
| `Records`, `OutcomeReports` | the stored records of one call, and the three projections of an outcome report |
| `GrantProtocol`, `ProtocolSafety`, `ProtocolTheorems`, `ReleaseStability` | consumption and reporting as interleaving steps of one store; the invariants of every reachable state; first writer wins, exposure before visibility, crash and replay; when a released result stays released |
| `GrantService` | the same operations as the service runs them, updating a store in place, proved equal to the steps |
| `RunnerProtocol` | any number of wrappers and SDK runners around the server, over a lossy network |
| `AuthorizationStore`, `AuthorizationRuns`, `GrantConsumption`, `ProtocolRefinement` | the memory store with all of its tables and transactions; runs in which consumptions read and check record by record between them; the service method; the protocol's store as the records of one call |
| `GrantChecks`, `ApprovedDispatch`, `ApprovedRun`, `ApprovalAuthorization`, `ExecutionAuthorization` | what is checked when a grant is consumed, the publication of an approved call and its way to dispatch, on its records and through the store, the approval's binding, the one-shot token |
| `OutcomeAtomicity` | the store transactions that record or adopt the outcome of a prepared action |
| `ContentExposures`, `ContentInfluence` | the exposures of a scope, the narrowing of a decision by them, the revision guard at dispatch |
| `JsonLexemes`, `JsonScanner`, `DuplicateKeyCheck`, `CanonicalJson` | the duplicate-key scanner and the canonical printer, over UTF-16 code units (RFC 8259 sections 4 and 7, RFC 8785 section 3.2.3) |
| `Framing`, `RequestPeer` | the Content-Length framer and the JSON-RPC peer of the MCP wrapper |
| `AuditChain` | the hash-chained audit log, its append queue and its verifier |
| `PolicyTrace`, `RateLimit`, `ApproverDirectory` | rule selection with its trace, the fixed-window limiter, the approver directory |

Code of the repository that changes things step by step is imperative here: the scanner moves one
shared index, the framer consumes its buffer, the peer, the audit store, the memory store, the
limiter, the exposure scope, the directory and the grant service are classes whose methods update
fields. Each method is proved against a function on values, and the theorems are about those
functions and their runs.

## Assumptions

- SHA-256 and HMAC do not collide, and only the server signs. `AuditChain` and `ContentInfluence`
  take the hash as a parameter and say so in a `requires`; `Records.Hash` is symbolic, with one
  constructor for each kind of hashed value. Where the source compares two hashes of records of one
  kind, the model compares the records.
- The store operations are atomic and do what the memory store does
  (`apps/server/src/storage/memory-store.ts:514-810`). The steps of a service method interleave
  freely between them.
- Identifiers are drawn at random or derived from a seed: those of attempts are never empty, and a
  grant that is created outside of a publication has a new one. Clock texts are never empty.
- Clocks, `Date.parse`, `toISOString`, `trim`, slugs, locale comparison, `JSON.parse` of a frame body
  and the result of a single policy condition are parameters with the laws stated where they are used.
- A network message reaches the server at most once: no runner repeats a consumption or a report.

## What turned out not to hold

Each has a lemma with a failing input and a lemma that says exactly when the property holds.

- A frame whose header is within three bytes of the header limit is accepted or refused depending on
  the cut (`Framing.TheCutDecides`); it arrives under every cut exactly when it leaves them room
  (`Framing.HeaderRoomIsExact`).
- The scanner takes all white space of JavaScript (`JsonScanner.AcceptedTextThatIsNotRfcJson`); an
  accepted text is RFC 8259 JSON exactly when one pass over it meets no other white space outside of
  string literals (`JsonScanner.AcceptedIsRfcJson`).
- More exposures can loosen a decision: the first one, when nothing observed is not allowed
  (`ContentInfluence.FirstExposureCanLoosen`), and the 257th, when unknown content is allowed
  (`ContentInfluence.OverflowCanLoosen`); nothing else does (`ContentInfluence.LooserExactlyWhen`).
- A call that returned normally can end as timed out (`RunnerProtocol.NormalReturnWithoutSuccess`);
  it does exactly when the report that completed the attempt came from a runner that gave up waiting
  for its own consumption (`RunnerProtocol.WhoBeatsTheCall`), so not while nobody gives up
  (`RunnerProtocol.UndisturbedReturnIsRecorded`).
- A released result can be withheld again, when the same report is sent twice
  (`ReleaseStability.ReleasedCanBeWithheldAgain`); it stays released exactly when no report of the
  same outcome is under way that read the call before it was projected
  (`ReleaseStability.StaysReleasedIffUnthreatened`).
- Two directory updates that read the same snapshot can leave one user's id as another's principal
  (`ApproverDirectory.StaleReadsCanShareAName`); exactly when is `ApproverDirectory.StaleUpserts`.
- `verifyAuditStore` calls an intact log broken (`AuditChain.TwoEventsDoNotFitOne`), exactly when it is
  longer than the limit (`AuditChain.IntactLogVerifiesIffItFits`).
- The transaction that adopts an outcome after a lost recording can refuse what the recording had
  accepted (`OutcomeAtomicity.StaleErrorStopsAdoption`). For the calls that the service builds this
  is so exactly when the report is a success and the stored call has an error
  (`OutcomeAtomicity.ReportedAdoptionCompletes`); the gate stores no authorized call with one. For any
  call at all the condition is in `OutcomeAtomicity.AdoptionCompletesRecording`.

## Model

| member | source | states |
|---|---|---|
| `RunnerProtocol.AtMostOneCall` | packages/mcp-wrapper/src/wrap-server.ts:414-467 | over every interleaving of any number of runners and a network that loses requests and replies, at most one downstream call is made for a tool call, by the runner whose consumption of the bound grant won |
| `RunnerProtocol.OutcomeTellsTheCall` | packages/mcp-wrapper/src/wrap-server.ts:446-501 | an attempt recorded succeeded or failed after dispatch had exactly one call and it returned normally; one recorded cancelled had none and gets none |
| `RunnerProtocol.WhoBeatsTheCall` | packages/mcp-wrapper/src/wrap-server.ts:431-444 | after a call that returned normally a terminal attempt is timed out or unknown if and only if the arrived message with the winning report was sent by a runner that gave up on its consumption, succeeded or failed if and only if the caller sent it, and never cancelled |
| `RunnerProtocol.UndisturbedReturnIsRecorded` | packages/mcp-wrapper/src/wrap-server.ts:469-501 | while no runner gives up on its consumption, a terminal attempt after a normal return is in the state that the caller's own report asks for |
| `RunnerProtocol.NormalReturnWithoutSuccess` | packages/mcp-wrapper/src/wrap-server.ts:414-444 | for every call that can be dispatched in its scope there is a history of two wrapper runs on one grant, such as a request that the host sends again, in which the call returns normally and the attempt ends as timed out |
| `RunnerProtocol.EveryHistoryIsSound` | packages/sdk-js/src/external-runner.ts:60-93 | every history keeps: one dispatched consumption, every request traced to the message that became it, one holder of the grant, every report earned by what its sender went through |
| `ProtocolSafety.EveryRunIsSound` | apps/server/src/security/execution-grants.ts:473-843 | every reachable state of the server, whatever requests interleave and wherever they stop: the attempt, the receipt, the call, the exposure and the audit events all tell the first accepted report |
| `ProtocolSafety.EveryStepIsGood` | apps/server/src/security/execution-grants.ts:580-830 | no step of any request undoes what another one relies on: attempts and receipts stay, exposures and events are never lost, the call is only ever projected |
| `ProtocolSafety.FirstReportWins` | apps/server/src/storage/memory-store.ts:557-574 | the compare-and-swap from dispatched makes the acceptable report the winner and keeps the store sound |
| `ProtocolSafety.ConsumeSteps` | apps/server/src/storage/memory-store.ts:589-619 | whatever the checks on other records answer, a consumption dispatches only the reserved attempt bound to its grant and leaves every other request undisturbed |
| `ProtocolTheorems.AttemptsOnlyGoForward` | apps/server/src/storage/memory-store.ts:557-574 | along any run an attempt goes from reserved to dispatched to one terminal state, and from there on neither it nor a recorded receipt outcome changes |
| `ProtocolTheorems.OnlyTheFirstOutcomeIsAccepted` | apps/server/src/security/execution-grants.ts:677-708 | a report that got through says what the attempt says; a different one is refused at the attempt even if it read the attempt before that was terminal |
| `ProtocolTheorems.ExposureBeforeVisibility` | apps/server/src/security/execution-grants.ts:731-758 | in every reachable state a classified MCP call that shows its child result has its exposure recorded in its scope and audited |
| `ProtocolTheorems.TerminalEventsOnce` | apps/server/src/security/execution-grants.ts:766-830 | every event with a deterministic id is stored at most once, and executed and failed events agree with the attempt |
| `ProtocolTheorems.WelcomeReportCompletes` | apps/server/src/security/execution-grants.ts:592-843 | from whatever sound state, an acceptable report that nobody contradicted before completes attempt, receipt, call, exposure and audit events when the store works |
| `ProtocolTheorems.ReplayReachesTheCrashFreeState` | apps/server/src/security/execution-grants.ts:677-830 | if the process stopped anywhere after the attempt became terminal, sending the identical report again reaches the crash-free final state up to timestamps, each event stored once |
| `ProtocolTheorems.CompleteStatesAgree` | apps/server/src/security/execution-grants.ts:592-634 | two complete states for one report differ only in times and actor |
| `ReleaseStability.StaysReleasedIffUnthreatened` | apps/server/src/security/execution-grants.ts:721-738 | in every reachable state with a released result: it stays released over all continuations if and only if no report alike to the winner is between its read of the still authorized call and its write |
| `ReleaseStability.ReleasedCanBeWithheldAgain` | apps/server/src/security/execution-grants.ts:721-738 | from every state in which a call is dispatched, two equal reports of a result that needs its exposure have an order of steps in which the result is released and later withheld |
| `ProtocolTheorems.DispatchSeesTheDecisionsScope` | apps/server/src/security/execution-grants.ts:1004-1009 | for a call whose evidence was computed from its scope at some moment of the run: a later consumption is dispatched only if the scope is exactly as it was then, so that deciding again gives the same decision, and is refused for its influence only if the scope has changed |
| `OutcomeReports.AlikeReportsProjectAlike` | apps/server/src/security/execution-grants.ts:1074-1129 | the attempt's outcome determines receipt outcome, terminal call and need for exposure, up to time and actor |
| `OutcomeReports.AlikeMeansSameOutcome` | apps/server/src/security/execution-grants.ts:1352-1370 | the comparison of a terminal attempt with a report ignores exactly the time |
| `OutcomeReports.ChildResultsRequireExposure` | apps/server/src/security/execution-grants.ts:545-566 | an acceptable report of a classified MCP call that carries a child result always requires its exposure first |
| `GrantService.ExecutionGrantService.ReportOutcome` | apps/server/src/security/execution-grants.ts:473-843 | the method, with a clock and a possible failure at each await, ends in the store and the answer of the interleaving steps when one request runs by itself |
| `GrantConsumption.ExecutionGrantService.ConsumeGrant` | apps/server/src/security/execution-grants.ts:217-400 | the method over the whole store, with a clock, the active policy and a possible failure at each await, reads and refuses in the source's order and ends in the store and the stage that the interleaving steps reach when it runs by itself |
| `GrantService.ExecutionGrantService.RecordOutcome` | apps/server/src/security/execution-grants.ts:677-730 | attempt, receipt and call are written in this order with the conflicts in between |
| `GrantService.ExecutionGrantService.ExposeAndRelease` | apps/server/src/security/execution-grants.ts:731-758 | exposure, its audit event, then the release; any failure leaves the result withheld |
| `AuthorizationStore.MemoryStore.ReserveExecutionAttemptAtomically` | apps/server/src/storage/memory-store.ts:514-533 | one attempt for each call, and only one whose binding names the stored call, approval and receipt |
| `AuthorizationStore.MemoryStore.BindExecutionAttemptGrantAtomically` | apps/server/src/storage/memory-store.ts:576-588 | a reserved attempt gets one grant, once |
| `AuthorizationStore.MemoryStore.ConsumeExecutionGrantAndDispatchAttemptAtomically` | apps/server/src/storage/memory-store.ts:589-619 | the swap of grant and attempt, with each refusal in the order of its tests |
| `AuthorizationStore.MemoryStore.TransitionExecutionAttemptAtomically` | apps/server/src/storage/memory-store.ts:557-574 | the swap of an attempt's state, with replay, ownership, exposure guard and the transitions that are valid |
| `AuthorizationStore.MemoryStore.PublishApprovedExternalAuthorizationAtomically` | apps/server/src/storage/memory-store.ts:621-671 | receipt, grant, attempt and call of an approved call are written together or not at all |
| `AuthorizationStore.MemoryStore.RecordActionReceiptOutcomeAtomically` | apps/server/src/storage/memory-store.ts:779-788 | the first outcome of a receipt stays |
| `AuthorizationRuns.DispatchHonoursApproval` | apps/server/src/security/execution-grants.ts:217-400 | over every run of the store, whichever transactions and writes come between the reads of a consumption: a dispatched call whose attempt names an approval was checked against that approval, approved, consumed as approved, unexpired, with the authorization that stood when the attempt was made, matching the original call field by field; the runner's input is the approved one, and for a published call the published one |
| `AuthorizationRuns.EachCallIsDispatchedOnce` | apps/server/src/storage/memory-store.ts:514-619 | over every run of the store a grant is consumed exactly by the one consumption dispatched with it, after all of its checks passed, and no call is dispatched twice, whatever grants exist for it |
| `AuthorizationRuns.OriginOfApproval` | apps/server/src/storage/memory-store.ts:839-943 | every stored attempt that names an approval was made by one reservation or publication of the run, while that approval was stored as approved with the bound authorization and input |
| `AuthorizationRuns.RunsLast` | apps/server/src/storage/memory-store.ts:514-699 | no later event changes an attempt's identity, binding or grant, the attempt of a call, or what a grant's signature covers |
| `ProtocolRefinement.DispatchRefines` | apps/server/src/storage/memory-store.ts:589-619 | on the records of one call the protocol's dispatch answers and writes as the transaction on the tables |
| `ProtocolRefinement.TransitionRefines` | apps/server/src/storage/memory-store.ts:557-574 | so does its transition, for every report |
| `ProtocolRefinement.ReceiptRefines` | apps/server/src/storage/memory-store.ts:779-788 | and its write of a receipt's outcome |
| `GrantChecks.PublicationBindsApproval` | apps/server/src/storage/memory-store.ts:621-671 | a created publication binds the attempt to the approval, keeps the call's identity, and can afterwards only be replayed, by exactly itself |
| `ApprovedDispatch.ApprovedCallDispatches` | apps/server/src/services/action-gate.ts:1652-1758 | the other direction: what the gate publishes for a finalized approval is created, and with nothing changed or expired the approved input passes every check of consumption and can be bound |
| `ApprovedRun.ApprovedCallRuns` | apps/server/src/services/action-gate.ts:1652-1758 | through the store: from any tables in which nothing is stored for the pending call, the gate's publication is written, and the consumption of the approved input that follows reads its way to the dispatch, if nothing fails or expires, the policy stays active and the scope has the decision's revision |
| `ApprovedDispatch.ApprovedCallIsPublished` | apps/server/src/storage/approved-external-authorization-atomicity.ts:79-186 | the gate's receipt, grant, attempt and call pass the integrity check and match the stored approval and pending call |
| `ApprovedDispatch.PublishedApprovalIsCurrent` | apps/server/src/security/execution-grants.ts:1244-1287 | the original call reconstructed from an edited one still matches the authorization the approval was asked for with |
| `GrantChecks.ChecksHonourBinding` | apps/server/src/security/execution-grants.ts:1244-1287 | what the current-record checks imply for any attempt that is bound to an approval |
| `GrantChecks.BindingAddsFewConditions` | apps/server/src/contracts/execution-authorization.ts:250-422 | after the checks the execution binding fails exactly for a missing envelope hash, policy hash or grant id, for approval state without an approval, or for an approval that expired in between |
| `GrantChecks.BuiltAttemptIsCurrent` | apps/server/src/contracts/execution-attempt.ts:95-135 | an attempt built from a call stays current for that call exactly as long as the call itself was sound |
| `ApprovalAuthorization.BuiltAuthorizationMatches` | apps/server/src/contracts/approval-authorization.ts:72-133 | building and checking fit: the built authorization matches its approval and call exactly when these cohere |
| `ExecutionAuthorization.ExecutionAuthorizationAuthority.Issue` | apps/server/src/contracts/execution-authorization.ts:226-246 | a fresh unconsumed token for the binding; earlier tokens stay |
| `ExecutionAuthorization.ExecutionAuthorizationAuthority.ConsumeToken` | apps/server/src/contracts/execution-authorization.ts:195-219 | over the authority's life each token is granted at most once, for an equal binding, before its expiry |
| `OutcomeAtomicity.AcceptedRecordingIsFinal` | apps/server/src/storage/memory-store.ts:701-767 | an accepted recording makes the same request a replay and leaves the attempt adoptable and its projection complete |
| `OutcomeAtomicity.SettledForGood` | apps/server/src/storage/external-outcome-recording-atomicity.ts:119-216 | whatever recordings, adoptions and releases follow, attempt, receipt and the call's outcome stay, and a released result is never withheld again |
| `OutcomeAtomicity.ReleaseKeepsReplay` | apps/server/src/storage/external-outcome-recording-atomicity.ts:208-216 | release keeps the original request a replay exactly when it said anything about withholding; a request that withholds differently is a conflict unless it only precedes the release |
| `OutcomeAtomicity.OnlyAuthorizedCallsAreAdopted` | apps/server/src/storage/external-outcome-adoption-atomicity.ts:149-159 | the second alternative of the last adoption test never decides; an adoption settles the call and makes itself a replay |
| `OutcomeAtomicity.AdoptableCandidatesAgree` | apps/server/src/storage/external-outcome-adoption-atomicity.ts:80-132 | any two candidates adoptable against one stored attempt agree on status, time, delivery, and on result and remediation or error |
| `OutcomeAtomicity.AdoptionCompletesRecording` | apps/server/src/storage/memory-store.ts:673-699 | after only the attempt was completed, adopting the same outcome is accepted under an exact condition and then reaches the recording's own state |
| `OutcomeAtomicity.ReportedAdoptionCompletes` | apps/server/src/security/execution-grants.ts:612-663 | for the terminal call that a report builds from the stored one, a failure is always adopted, and a success exactly when the stored call has no error |
| `OutcomeAtomicity.StaleErrorStopsAdoption` | apps/server/src/storage/external-outcome-adoption-atomicity.ts:80-132 | a call with an error on which a recording is accepted and its adoption refused |
| `ContentInfluence.NeverLooser` | apps/server/src/policy/content-influence.ts:18-62 | the effective decision is never looser than the base, and a restriction is reported exactly when it is stricter |
| `ContentInfluence.LooserExactlyWhen` | apps/server/src/services/action-gate.ts:1103-1144 | further exposures loosen a fixed rule's decision exactly in two cases a caller can see: the first exposure of an allowed kind, or an overflow where unknown content is allowed |
| `ContentInfluence.NarrowsFromFirstExposure` | apps/server/src/policy/content-influence.ts:74-92 | from the first exposure on, while the scope can be read, exposures only narrow |
| `ContentInfluence.FirstExposureCanLoosen` | apps/server/src/policy/content-influence.ts:74-92 | a scope without exposures that is denied, and allowed after its first one |
| `ContentInfluence.OverflowCanLoosen` | apps/server/src/services/action-gate.ts:1126-1128 | a scope of 256 forbidden exposures that a 257th makes pass |
| `ContentInfluence.ReadingOfScope` | apps/server/src/services/action-gate.ts:1115-1132 | what the gate reads from the store lets a guard pass exactly by the exposures, their absence, or their number |
| `ContentInfluence.DispatchedAtDecisionRevision` | apps/server/src/contracts/content-influence.ts:132-147 | the guard of evidence for a verified scope matches at dispatch exactly when the scope still has the exposures of the decision, and then the evidence is that of the decision made now |
| `ContentExposures.ExposureScope.RecordContentExposure` | apps/server/src/storage/memory-store.ts:152-163 | a tool call is recorded once; a second record is a replay or a conflict and changes nothing; the ordered prefix stays the least records of the whole history |
| `ContentExposures.ExposureScope.InsertIntoBoundedPrefix` | apps/server/src/storage/memory-store.ts:1135-1149 | the binary search and the cut equal stable insertion into the whole order, cut |
| `ContentExposures.ExposureScope.ListContentExposures` | apps/server/src/storage/memory-store.ts:165-174 | the list is the least records of everything recorded, with the overflow told exactly |
| `ContentExposures.PrefixInsert` | apps/server/src/storage/memory-store.ts:1135-1149 | inserting into the kept prefix loses nothing that the cut of the full order would keep |
| `ContentExposures.SortOrders` | apps/server/src/storage/memory-store.ts:1151-1154 | the order of the records is sorted and a permutation of the history |
| `ContentExposures.VerdictMeaning` | apps/server/src/storage/memory-store.ts:1156-1160 | which records are new, replayed or in conflict |
| `ContentExposures.RevisionNamesState` | apps/server/src/storage/memory-store.ts:1118-1125 | histories only grow, so equal revisions of one scope are equal states |
| `DuplicateKeyCheck.AssertNoDuplicateJsonKeys` | apps/server/src/contracts/action-request.ts:358-445 | the recursive descent over one shared index terminates and returns normally exactly on one JSON value without a repeated decoded name |
| `DuplicateKeyCheck.Scanner.Members` | apps/server/src/contracts/action-request.ts:381-401 | the member loop ends where the grammar says, with its set of names |
| `DuplicateKeyCheck.Scanner.SkipString` | apps/server/src/contracts/action-request.ts:420-439 | the walk to the closing quote stops exactly at the first unescaped one |
| `JsonScanner.AcceptsExactly` | apps/server/src/contracts/action-request.ts:358-445 | acceptance is equivalent to being the text of one value in which no object repeats a decoded name |
| `JsonScanner.RepeatReported` | apps/server/src/contracts/action-request.ts:381-401 | on the text of a value the only error is the duplicate one, raised exactly when a name repeats, with a name that does |
| `JsonScanner.RepeatIsReal` | apps/server/src/contracts/action-request.ts:388-390 | on any text, JSON or not, the duplicate error means that a complete member of the same open object has that name |
| `JsonScanner.ReadingIsUnique` | apps/server/src/contracts/action-request.ts:366-379 | an accepted text has one parse tree |
| `JsonScanner.AcceptedTextIsUnambiguous` | apps/server/src/contracts/action-request.ts:358-445 | first-wins and last-wins parsers read the same value from an accepted text |
| `JsonScanner.AcceptedIsRfcJson` | apps/server/src/contracts/action-request.ts:361-363 | an accepted text is RFC 8259 JSON exactly when one pass over its units finds, outside of string literals, no white space but that of section 2 |
| `JsonScanner.AcceptedTextThatIsNotRfcJson` | apps/server/src/contracts/action-request.ts:361-363 | a no-break space before a digit is accepted |
| `JsonLexemes.DecodeEscape` | apps/server/src/contracts/action-request.ts:512-512 | printing a string literal and reading it back gives the string, lone surrogates included |
| `JsonLexemes.BodyLengthOfDecodable` | apps/server/src/contracts/action-request.ts:420-439 | the walk over a string agrees with its decoding about where it ends |
| `JsonLexemes.NumberLengthPrefix` | apps/server/src/contracts/action-request.ts:376-377 | what the number expression matches is a number of the grammar |
| `CanonicalJson.SerializeCanonicalJson` | apps/server/src/contracts/action-request.ts:510-548 | the serializer prints the canonical text, and throws exactly on values that JSON cannot express |
| `CanonicalJson.CanonicalTextDecidesEquality` | apps/server/src/contracts/action-request.ts:510-548 | two values print alike exactly when they are the same JSON value up to member order, undefined members and the sign of zero |
| `CanonicalJson.CanonicalTextParsesBack` | apps/server/src/contracts/action-request.ts:510-548 | the canonical text is RFC 8259 JSON, passes the duplicate-key check, and every parser reads the value back from it |
| `CanonicalJson.PrintableIsJson` | apps/server/src/contracts/action-request.ts:510-520 | a value prints exactly when it stands for a JSON value |
| `CanonicalJson.SortFacts` | apps/server/src/contracts/action-request.ts:539-541 | the members are a permutation in code-unit order |
| `Framing.JsonRpcFramer.Push` | packages/mcp-wrapper/src/wrap-server.ts:757-790 | a push yields the messages complete in buffer and chunk and keeps the rest, which stays below `maxHeaderBytes + 4 + maxFrameBytes` |
| `Framing.PushesCompose` | packages/mcp-wrapper/src/wrap-server.ts:757-790 | after a push that returned, the next chunk is treated as if both had come as one: same messages, same failure, same buffer |
| `Framing.ChunkingIrrelevant` | packages/mcp-wrapper/src/wrap-server.ts:757-790 | where no prefix throws, no cut of the bytes makes a difference |
| `Framing.EncodedMessagesArrive` | packages/mcp-wrapper/src/wrap-server.ts:793-796 | encoded messages within the limits arrive exactly, in order, with an empty buffer, however the bytes are cut |
| `Framing.LengthReadBack` | packages/mcp-wrapper/src/wrap-server.ts:774-778 | the header expression finds exactly the announced length in the encoder's header |
| `Framing.HeaderRoomIsExact` | packages/mcp-wrapper/src/wrap-server.ts:762-771 | a message arrives under every cut of its frame exactly when the frame is within the limits and its header has three bytes of room below the header limit |
| `Framing.TheCutDecides` | packages/mcp-wrapper/src/wrap-server.ts:762-771 | a frame that is taken in one piece and refused in two |
| `Framing.RetainedBound` | packages/mcp-wrapper/src/wrap-server.ts:762-786 | the bound on what is kept between pushes |
| `RequestPeer.EveryRunIsValid` | packages/mcp-wrapper/src/wrap-server.ts:833-933 | in every run each issued id is pending once or settled once, never both; timers are exactly those of pending requests and no settled request keeps a listener |
| `RequestPeer.FirstVerdictSettles` | packages/mcp-wrapper/src/wrap-server.ts:877-924 | each request is settled by the first response, timeout, abort or failure after its birth, and by nothing else |
| `RequestPeer.OneStatus` | packages/mcp-wrapper/src/wrap-server.ts:926-933 | the peer's state shows each request in exactly the status its own history gives it |
| `RequestPeer.JsonRpcPeer.SendRequest` | packages/mcp-wrapper/src/wrap-server.ts:877-917 | issuing, with an already aborted signal or a failing write |
| `RequestPeer.JsonRpcPeer.OnMessage` | packages/mcp-wrapper/src/wrap-server.ts:853-870 | only a message with an id and no method settles, and only a pending number id |
| `RequestPeer.JsonRpcPeer.FailAll` | packages/mcp-wrapper/src/wrap-server.ts:919-924 | the loop over the keys settles every pending request once |
| `AuditChain.HeadCommitsToHistory` | apps/server/src/security/audit-chain.ts:67-118 | two verified logs with the same last hash are equal in length and in every hashed field |
| `AuditChain.VerifyAuditEvents` | apps/server/src/security/audit-chain.ts:67-99 | the report lists exactly the faults, and says valid exactly of linked logs |
| `AuditChain.EveryRunIsSound` | apps/server/src/security/audit-chain.ts:22-47 | every run of concurrent appends, with repeated ids, failing writes and restarts, leaves a linked log without repeated ids |
| `AuditChain.TimesIncreaseIffFirstIsValid` | apps/server/src/security/audit-chain.ts:52-60 | stored times strictly increase exactly when the first stored time can be read |
| `AuditChain.TimeOrderIsAppendOrder` | apps/server/src/security/audit-chain.ts:31-41 | a store that sorts by time returns append order |
| `AuditChain.WithoutTheQueueTheChainBreaks` | apps/server/src/security/audit-chain.ts:22-26 | any two appends that both read before either writes break the chain |
| `AuditChain.IntactLogVerifiesIffItFits` | apps/server/src/security/audit-chain.ts:62-65 | an intact log verifies exactly when it fits the window |
| `AuditChain.TwoEventsDoNotFitOne` | apps/server/src/security/audit-chain.ts:62-65 | two intact events that are reported as broken with a limit of one |
| `AuditChain.VerifyAuditStore` | apps/server/src/security/audit-chain.ts:62-65 | the reversed newest-first window is verified |
| `AuditChain.JsonlAuditStore.Append` | apps/server/src/storage/jsonl-audit-store.ts:30-34 | append once by id; a failed write leaves file and ids as they were |
| `AuditChain.JsonlAuditStore.constructor` | apps/server/src/storage/jsonl-audit-store.ts:10-28 | reopening a file knows the ids in it |
| `AuditChain.ChainedAuditStore.StartNext` | apps/server/src/security/audit-chain.ts:28-42 | the event at the head of the queue is chained to the newest stored event |
| `PolicyTrace.EvaluatePolicyTrace` | apps/server/src/policy/evaluate-policy.ts:26-95 | the objects of the trace, one of them marked after it was pushed, show the specified trace; the fallback path is the kinds of its entries; the rule is the one in force |
| `PolicyTrace.FindWildcardRule` | apps/server/src/policy/evaluate-policy.ts:97-124 | every covering wildcard rule up to the first that holds is pushed, none selected |
| `PolicyTrace.OneSelectedAndLast` | apps/server/src/policy/evaluate-policy.ts:26-95 | exactly one entry is selected, it is the last and the rule in force, and every earlier entry failed a condition |
| `PolicyTrace.SelectionMeaning` | apps/server/src/policy/evaluate-policy.ts:26-124 | the exact rule if its conditions hold, else a wildcard rule that applies with none applicable before it, else the default, each exactly then |
| `PolicyTrace.TraceKinds` | apps/server/src/policy/evaluate-policy.ts:79-95 | which kinds the trace of each outcome contains |
| `RateLimit.SlidingBound` | apps/server/src/security/http-security.ts:231-248 | over every history with a monotone clock one key is admitted at most `2 * max(1, max) - 1` times in any half-open interval of the window's length |
| `RateLimit.SlidingBoundIsReached` | apps/server/src/security/http-security.ts:231-248 | the bound is reached for every `max` and every window of at least two milliseconds |
| `RateLimit.OneMillisecondWindow` | apps/server/src/security/http-security.ts:231-248 | in a window of one millisecond the bound is `max(1, max)` |
| `RateLimit.BucketBound` | apps/server/src/security/http-security.ts:244-247 | one bucket admits at most `max(1, max)` requests |
| `RateLimit.RejectedOnlyWhenFull` | apps/server/src/security/http-security.ts:244-247 | a rejected request is preceded by a full bucket within the window |
| `RateLimit.RateLimiter.Enforce` | apps/server/src/security/http-security.ts:231-248 | the in-place update of the bucket map, one key at a time |
| `ApproverDirectory.SequentialRunsStayDisjoint` | apps/server/src/services/approver-directory.ts:60-139 | sequential runs keep the names of different users of a workspace apart |
| `ApproverDirectory.CallKeepsDisjoint` | apps/server/src/services/approver-directory.ts:308-324 | and the store's own conflict is never reached there |
| `ApproverDirectory.AnyInterleavingKeepsIdentitiesDistinct` | apps/server/src/storage/approver-principal-constraint.ts:16-38 | whatever records are written on whatever reads, no two users of a workspace act as one principal |
| `ApproverDirectory.StaleUpserts` | apps/server/src/storage/approver-principal-constraint.ts:16-38 | for two upserts checked on one snapshot: exactly when the store refuses the second, and exactly when names stay apart if it does not |
| `ApproverDirectory.StaleReadsCanShareAName` | apps/server/src/services/approver-directory.ts:65-94 | two such upserts after which one name belongs to two users |
| `ApproverDirectory.ApproverDirectoryService.CallUpsertUser` | apps/server/src/services/approver-directory.ts:65-94 | the service's check and the store's write in sequence |
| `ApproverDirectory.ApproverDirectoryService.PrincipalConflict` | apps/server/src/storage/approver-principal-constraint.ts:16-30 | the scan finds a conflict exactly when there is one |
| `ApproverDirectory.NextGeneratedDirectoryId` | apps/server/src/services/approver-directory.ts:285-306 | the loop returns the first free candidate, or none after the last suffix |
| `ApproverDirectory.AllocationSucceeds` | apps/server/src/services/approver-directory.ts:299-305 | a generated id is new, and one is found unless all 9,999 candidates, hence at least 9,999 identifiers, are taken |

## Left out

- HTTP routes, the web console, configuration, notifications, OIDC, child processes and telemetry: plumbing around the modelled parts.
- The SQL stores: assumed to keep the contracts of the memory store.
- `stableStringify` orders keys by locale; only the injectivity of its hash is used.
- Error texts, JSON paths in errors and the kind of an HTTP error: the model keeps which check refuses, not how it is worded.
- Cyclic, sparse, symbol-keyed and non-plain objects in the serializer: the values are a datatype.
- Numbers in JSON: kept as the text that `JSON.stringify` gives them, so equal texts stand for equal numbers.
- The newline framer, UTF-8 decoding of a body and `JSON.parse`: library behaviour; header white space outside ASCII is not modelled.
- Condition matchers of policy rules, and tool names that are members of `Object.prototype`: a rule's conditions are judged by a parameter.
- Prepared native actions in the interleaving protocol: their store transactions are in `OutcomeAtomicity`, their token check and coordinator are not modelled.
- MCP session tokens and the comparison of the authenticated adapter with the originating one: a call of a wrapped MCP tool is only required to have consistent evidence of its scope and its adapter.
- Hashing an absent value throws in the source; the model treats the comparison as unequal, which changes the store as little.
- `ProtocolSafety.ConsumeSteps`: the checks on receipt, approval and binding are any answer of the environment; `AuthorizationRuns` makes them, record by record, over the whole store.
- `AuthorizationRuns.DispatchHonoursApproval`: whether a server-owned native authorization was accepted, and whether the authenticated adapter is the originating one, are inputs of a consumption; the hook before dispatch is a failure that may happen.
- `RunnerProtocol.AtMostOneCall`: the runners' sequences of awaited effects are steps of a state machine, so that they can interleave; one tool call with any number of grants is modelled, since calls share no state but the scope.
- `ProtocolTheorems.ReplayReachesTheCrashFreeState`: for a call without a verified scope whose report needs an exposure the result stays withheld; the theorem asks for the scope. For MCP calls the server refuses such reports outright.
- `AuditChain.EveryRunIsSound`: a write either happens or leaves nothing on disk, and the file holds no unreadable line.
- `ApproverDirectory.SequentialRunsStayDisjoint`: groups occur only as taken identifiers; contact fields other than one Telegram field are merged in the same way and left out.
- `CanonicalJson.SerializeCanonicalJson`: one kind of failure stands for all the errors of the serializer.
