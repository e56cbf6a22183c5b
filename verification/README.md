# GPT Session Bridge: protocol and session verification

This project models the parts of GPT Session Bridge that decide what is accepted, what is
owed to whom and what may still happen, and proves properties of them for all inputs, all
runs and all interleavings.  JSON text is a sequence of UTF-16 code units; asynchronous code
is cut at its awaits, any other call, frame or timer coming in between.

Objects whose methods update fields are classes with those fields.  Each method is proved to
make the step of a state machine, a function of values, and the theorems are about the runs
of that machine; loops are proved against functions with their own lemmas.

| files | what they model |
|---|---|
| `Utf16`, `Decimal`, `Numerals`, `JsonValue` | texts, numbers, values and equality up to key order |
| `Canonicalizer` | the printer of RFC 8785 (sections 3.2.2.2 and 3.2.3) with its budgets |
| `JsonGrammar`, `JsonScan`, `JsonLanguage`, `JsonScanner` | the grammar of RFC 8259 (sections 2 to 7) as syntax trees, the scan as functions, the two related, and the recursive scanner object |
| `JsonRoundTrip`, `Envelope`, `AssistantEnvelope` | printer and scanner are inverse to each other; framing, and the schema and limits of what is framed |
| `ToolSchema`, `CodexContract`, `StrictScanner`, `ResponsesServer` | argument schemas, the projected history and its digest chain, the strict boundary with its own scanner |
| `AgentRuntime`, `AgentRuntimeInvariant`, `ResponsesAgentRuntime` | pending workflows, requests in flight, adapters and expiry |
| `AgentSession`, `AgentSessionCoordinator` | the rounds of a browser workflow under cancel, close and restart |
| `BrowserSession`, `BrowserSessionInvariant`, `BrowserSessionCommands`, `BrowserSessionFrames`, `BrowserPromises`, `BrowserSessionCoordinator` | commands, attempts, turns, timers, promises and snapshots of a browser session |
| `BrowserModelRoutes` | publication and resolution of model routes |
| `TabSession`, `TabSessionInvariant`, `FairPages`, `ReusedTurn`, `BrowserTabSession` | the extension's side: one page, one native connection, orphaned operations |
| `ThreadRoute`, `ThreadRouting`, `ThreadBound`, `ThreadRouter`, `AppServerRouter` | route decisions, pinned threads, requests bound to them, quarantine and reservations, the facade's owned requests |
| `CursorStore`, `ModelCatalog` | the expiring cursor store and the merged model list |
| `JsonLines`, `JsonLineWriter` | incremental decoding and queued writing of JSON lines |
| `Results`, `Tables` | results, options and sizes of maps |

Three statements one might expect are false of the code; each has a concrete counterexample:

- The session coordinator does not settle every promise it hands out.  It drops the attempt of
  a status read or of a renewal before it looks at the status (lines 911-913 and 938-940 of
  `browser-session-coordinator.ts`), and the cancellation of a timed-out turn before it ends the
  transport (line 1060); the promise then has no holder left.  `BrowserPromises.PromiseLost` is
  such a run, `BrowserPromises.LostExactly` says exactly when it happens.
- A reserved settlement can fail for lack of room: `ThreadRouting.ForgettingOverbooks` is a run
  that forgets a thread while it is being resumed.  `ThreadRouting.RefusedForRoom` says exactly
  when a response is refused so.  That no run without such a forgetting comes to it
  (`ThreadRouting.ReservedRoom`) is one direction only: after one, there may be room all the same.
- An assistant envelope, printed canonically, does not always survive its own frame, because
  canonical text leaves U+FEFF as it is and the parser refuses it:
  `AssistantEnvelope.MarkedRefused`.  `AssistantEnvelope.FramedParses` says exactly which do.

A page may refuse a cancellation that comes after the end of its turn (lines 267-281 of
`content-script.ts`).  Such a refusal ends page, connection and session
(`FairPages.LateRefusalsEnd`) as long as no newer turn has the turn's name.  With one that has,
and a cancellation named alike, it is sent on in the wrong session
(`ReusedTurn.RefusalMisdelivered`); the coordinator does not draw an identifier again while it
is among the recent ones.

What is assumed of the outside is an argument of the theorem that needs it: SHA-256 is an
injective function (`Injective`), `prints` tells which numerals with a fraction or an exponent
are the print of a double, a page is fair (`FairPages.Fair`), a turn is not cancelled by the
request that started it (`FairPages.Careful`), a parser inverts its encoder
(`JsonLines.Faithful`).  Clocks, random draws, ports and checks that are not modelled are
outcomes carried by the events.

## Model

| member | source | states |
|---|---|---|
| JsonRoundTrip.RoundTrip | packages/protocol/src/tool-workflow-v2.ts:192-291 | the scanner accepts every canonical text whole, counts the nodes and levels the canonicalizer counted, reads back the same value up to key order, and printing what was read gives the same text |
| JsonLanguage.AcceptsIffAdmissible | packages/protocol/src/tool-workflow-v2.ts:399-602 | the scanner accepts a text if and only if some RFC 8259 syntax tree with white space around it spells it and the tree has canonical numbers, well-formed strings, distinct unreserved decoded keys, at most 32 levels and at most 4096 values |
| JsonLanguage.InspectSpelled | packages/protocol/src/tool-workflow-v2.ts:408-602 | on any RFC 8259 text the scanner accepts, or throws the error of the first rule broken in reading order |
| JsonLanguage.InspectFound | packages/protocol/src/tool-workflow-v2.ts:408-415 | whatever is accepted is spelled by the tree that was read, and that tree breaks no rule |
| JsonLanguage.AdmissibleUnique | packages/protocol/src/tool-workflow-v2.ts:399-602 | an accepted text has one syntax tree only |
| JsonRoundTrip.CanonicalInjective | packages/protocol/src/tool-workflow-v2.ts:246-291 | two accepted values have one canonical text exactly when they are equal up to key order |
| JsonRoundTrip.CanonicalIffAcceptable | packages/protocol/src/tool-workflow-v2.ts:196-291 | the canonicalizer accepts exactly the values within the budgets with supported numbers, well-formed strings and unreserved keys, and then spells the canonical tree of the sorted value |
| JsonRoundTrip.ScannedIsCanonicalizable | packages/protocol/src/tool-workflow-v2.ts:192-222 | whatever the scanner lets through, the canonicalizer accepts |
| JsonValue.SameIffNormalized | packages/protocol/src/tool-workflow-v2.ts:321-340 | `sameJsonValue` holds exactly when sorting keys at every level makes the two values identical |
| JsonValue.SortedUnique | packages/protocol/src/tool-workflow-v2.ts:246-277 | members with distinct keys have one sorted order only, so canonical text does not depend on insertion order |
| Utf16.LessTotal | packages/protocol/src/tool-workflow-v2.ts:293-295 | UTF-16 order tells any two different keys apart |
| Utf16.HasLoneSurrogate | packages/protocol/src/tool-workflow-v2.ts:604-618 | the loop finds a lone surrogate exactly when the text is not well paired |
| Canonicalizer.CanonicalizeString | packages/protocol/src/tool-workflow-v2.ts:286-291 | quotes and escapes a well-paired string, and refuses any other |
| Canonicalizer.CanonicalizeValue | packages/protocol/src/tool-workflow-v2.ts:196-222 | the recursion over one shared counter ends with the text and the count of the specification, or with the same error; a node is counted before its own checks |
| Canonicalizer.CanonicalizeArray | packages/protocol/src/tool-workflow-v2.ts:224-244 | the loop joins the items' texts in order and stops at the first error |
| Canonicalizer.CanonicalizeObject | packages/protocol/src/tool-workflow-v2.ts:246-277 | the loop takes the keys in UTF-16 order, refuses reserved and malformed ones, and stops at the first error |
| Canonicalizer.CanonicalizeToolWorkflowJson | packages/protocol/src/tool-workflow-v2.ts:192-194 | starts at depth 1 with no node counted |
| JsonScanner.JsonStructureScanner.Inspect | packages/protocol/src/tool-workflow-v2.ts:408-415 | passes exactly when the specified scan of the whole source finds a value, and otherwise throws its error |
| JsonScanner.JsonStructureScanner.Value | packages/protocol/src/tool-workflow-v2.ts:417-453 | leaves index and node count where the scan of one value ends, or throws what the scan stops with |
| JsonScanner.JsonStructureScanner.Object | packages/protocol/src/tool-workflow-v2.ts:455-486 | the member loop does what the scan of an object says, with the keys seen so far |
| JsonScanner.JsonStructureScanner.Key | packages/protocol/src/tool-workflow-v2.ts:464-477 | reads a key and its colon; repeated and reserved keys are refused after decoding |
| JsonScanner.JsonStructureScanner.Array | packages/protocol/src/tool-workflow-v2.ts:488-504 | the element loop does what the scan of an array says |
| JsonScanner.JsonStructureScanner.Separator | packages/protocol/src/tool-workflow-v2.ts:479-484 | ends a pass: closing bracket, or comma and white space, or neither |
| JsonScanner.JsonStructureScanner.String | packages/protocol/src/tool-workflow-v2.ts:506-552 | returns the decoded string and stops after its closing quote, or refuses a control character, a bad escape or a lone surrogate |
| JsonScanner.JsonStructureScanner.Number | packages/protocol/src/tool-workflow-v2.ts:554-570 | takes the longest RFC 8259 numeral and accepts it only in canonical form |
| JsonScanner.JsonStructureScanner.Literal | packages/protocol/src/tool-workflow-v2.ts:572-577 | advances past the literal exactly when the source goes on with it |
| JsonScanner.JsonStructureScanner.SkipWhitespace | packages/protocol/src/tool-workflow-v2.ts:579-583 | stops at the first character that is no white space |
| JsonScanner.JsonStructureScanner.Take | packages/protocol/src/tool-workflow-v2.ts:591-597 | advances exactly when the character is there |
| JsonGrammar.CanonicalIntegers | packages/protocol/src/tool-workflow-v2.ts:554-570 | of the numerals without fraction and exponent the scanner lets through all but `-0` and those of unsafe integers |
| AssistantEnvelope.FramedParses | packages/protocol/src/tool-workflow-v2.ts:117-190 | a canonical object, framed, is parsed, and then to itself up to key order, if and only if it fits the schema of an assistant envelope and the limit for its arguments or its text, the frame fits its byte limit, and no key or string contains U+FEFF |
| AssistantEnvelope.ReprintParses | packages/protocol/src/tool-workflow-v2.ts:117-194 | what has been parsed can be printed, and framed again is parsed to the same value exactly when the frame fits and the value is without U+FEFF |
| AssistantEnvelope.FinalParses | packages/protocol/src/tool-workflow-v2.ts:126-165 | a final envelope of up to 10000 code units of text comes back from its own frame exactly when the text is without U+FEFF |
| AssistantEnvelope.MarkedRefused | packages/protocol/src/tool-workflow-v2.ts:126-144 | the condition is needed: a final envelope whose text is U+FEFF is within the schema and every limit, and is refused; the same envelope with an empty text is parsed |
| AssistantEnvelope.ResultRefused | packages/protocol/src/tool-workflow-v2.ts:167-184 | the envelope of a tool's result, framed as the bridge frames it, is none of the assistant's and is refused |
| Envelope.UnwrappedIsFramed | packages/protocol/src/tool-workflow-v2.ts:117-150 | what gets past the scanner is the two marker lines around one line, a JSON object that the canonicalizer can print |
| StrictScanner.StrictJsonScanner.Inspect | apps/bridge/src/http/responses-server-v2.ts:1103-1110 | the server's own scanner passes exactly when the first scanner's specification finds a value |
| StrictScanner.StrictJsonScanner.Value | apps/bridge/src/http/responses-server-v2.ts:1112-1138 | moves index and node count to the end of the specified scan of a value, or throws where it stops |
| StrictScanner.StrictJsonScanner.Object | apps/bridge/src/http/responses-server-v2.ts:1140-1167 | the member loop, with the keys seen so far, ends where the scan of an object ends |
| StrictScanner.StrictJsonScanner.Key | apps/bridge/src/http/responses-server-v2.ts:1148-1158 | reads a key and its colon; repeated and reserved keys are refused in one test |
| StrictScanner.StrictJsonScanner.Array | apps/bridge/src/http/responses-server-v2.ts:1169-1184 | the element loop ends where the scan of an array ends |
| StrictScanner.StrictJsonScanner.Separator | apps/bridge/src/http/responses-server-v2.ts:1161-1165 | the end of a pass of either loop |
| StrictScanner.StrictJsonScanner.String | apps/bridge/src/http/responses-server-v2.ts:1186-1222 | returns the decoded string, or refuses what the scan of a string refuses |
| StrictScanner.StrictJsonScanner.Number | apps/bridge/src/http/responses-server-v2.ts:1224-1241 | the longest numeral, if it is canonical |
| StrictScanner.StrictJsonScanner.Literal | apps/bridge/src/http/responses-server-v2.ts:1243-1248 | advances exactly when the literal is there |
| StrictScanner.StrictJsonScanner.SkipWhitespace | apps/bridge/src/http/responses-server-v2.ts:1250-1254 | stops at the first unit that is no white space |
| StrictScanner.StrictJsonScanner.Take | apps/bridge/src/http/responses-server-v2.ts:1262-1268 | advances exactly when the character is there |
| ResponsesServer.ParseStrictJsonObject | apps/bridge/src/http/responses-server-v2.ts:1077-1092 | size, second scanner, object test and canonicalization in this order give the result of the specification |
| ResponsesServer.StrictIffAdmissible | apps/bridge/src/http/responses-server-v2.ts:1077-1272 | the server's own scanner accepts the same language: `parseStrictJsonObject` succeeds exactly on the admissible object texts within its size, returns the object they spell, and the canonicalization after it never refuses |
| ToolSchema.SameTextIsSameJson | apps/bridge/src/tooling/certified-tool-schema.ts:430-439 | `sameJson`, by canonical texts, agrees with `sameJsonValue` on all accepted values |
| ToolSchema.VerdictIgnoresKeyOrder | apps/bridge/src/tooling/certified-tool-schema.ts:222-316 | a schema gives one verdict on arguments that are equal up to key order |
| CodexContract.ArgumentsAreCanonical | apps/bridge/src/http/codex-responses-v2-contract.ts:558-571 | `parseCanonicalArguments` accepts exactly the canonical texts of objects within the byte limit, and reads them back |
| CodexContract.ReencodedVerdict | apps/bridge/src/http/codex-responses-v2-contract.ts:488-531 | committed arguments, re-encoded canonically, are parsed and judged by the schema as they were before |
| AgentRuntimeInvariant.AcceptedHistory | apps/bridge/src/http/responses-agent-runtime.ts:313-397 | in every run the input accepted at a workflow's n-th continuation is its initial messages and exactly its first n + 1 calls with one output each, each call emitted once; every later input starts with the same exchanges |
| AgentRuntimeInvariant.AtEveryAwait | apps/bridge/src/http/responses-agent-runtime.ts:218-397 | at every await of every run: pending workflows and requests in flight stay within the limit, each live adapter belongs to exactly one of them, no adapter is closed twice, eligible calls were emitted, and each pending entry's call is its server's to continue |
| AgentRuntimeInvariant.RunSound | apps/bridge/src/http/responses-agent-runtime.ts:233-557 | all of these, with the chaining of each workflow's history, are kept by every event |
| CodexContract.HistoryExtends | apps/bridge/src/http/codex-responses-v2-contract.ts:278-346 | a continuation accepted against the digest of a history is that history and one exchange more, and its own digest is that of the whole |
| CodexContract.HistoryInjective | apps/bridge/src/http/codex-responses-v2-contract.ts:325-332 | two histories with one canonical text are one history |
| CodexContract.ProjectMessagePrefix | apps/bridge/src/http/codex-responses-v2-contract.ts:348-366 | the loop projects every message, or refuses the list for the first that is none |
| CodexContract.ProjectContinuationInput | apps/bridge/src/http/codex-responses-v2-contract.ts:278-346 | messages first, then pairs of a certified call and an output for it; all but the last pair must have the expected digest, and the result carries the digest of all of them |
| CodexContract.CountMessages | apps/bridge/src/http/codex-responses-v2-contract.ts:291-297 | the messages counted are the longest prefix of messages |
| CodexContract.GatherHistory | apps/bridge/src/http/codex-responses-v2-contract.ts:309-324 | the pair loop gathers the exchanges in order, or stops with the error of the first bad one |
| ResponsesServer.ContinuationBound | apps/bridge/src/http/responses-server-v2.ts:428-494 | a continuation the boundary admits has the initial request's fields, tools and messages, and its last exchange holds the committed call and an output for it |
| ResponsesServer.ReadBack | apps/bridge/src/http/responses-server-v2.ts:596-663 | what the boundary reads from a projected request is that request up to key order, and prints as it was |
| ResponsesServer.ResponsesServerV2.AdmitContinuationRequest | apps/bridge/src/http/responses-server-v2.ts:428-494 | a committed call's eligibility is used up by the first attempt with it, whatever becomes of the attempt; an ineligible call is refused |
| ResponsesServer.ResponsesServerV2.CreateToolCallLifecycle | apps/bridge/src/http/responses-server-v2.ts:496-529 | a call is emitted in one lifecycle at most, spent before its identity can fail, and eligible only if the lifecycle was made |
| ResponsesAgentRuntime.ResponsesAgentRuntime.HandleRequest | apps/bridge/src/http/responses-agent-runtime.ts:186-216 | from the arrival of a request to its first await the fields change as the machine's arrival step says, and every invariant above holds again |
| ResponsesAgentRuntime.ResponsesAgentRuntime.HandleInitial | apps/bridge/src/http/responses-agent-runtime.ts:233-268 | reserves a place in flight before the adapter exists, or changes nothing |
| ResponsesAgentRuntime.ResponsesAgentRuntime.HandleContinuation | apps/bridge/src/http/responses-agent-runtime.ts:313-355 | takes the entry out of the table before anything is checked, and keeps the sum of pending and in flight |
| ResponsesAgentRuntime.ResponsesAgentRuntime.AfterYield | apps/bridge/src/http/responses-agent-runtime.ts:270-274 | the adapter is entered only if the client is still there |
| ResponsesAgentRuntime.ResponsesAgentRuntime.AfterAnswer | apps/bridge/src/http/responses-agent-runtime.ts:274-283 | a final answer, a call or a failure: who owns the adapter afterwards, and what was emitted |
| ResponsesAgentRuntime.ResponsesAgentRuntime.AfterWrite | apps/bridge/src/http/responses-agent-runtime.ts:283-302 | a written call becomes a pending entry unless the runtime is closed, full or the id is taken; otherwise the adapter is closed once |
| ResponsesAgentRuntime.ResponsesAgentRuntime.OnDisconnect | apps/bridge/src/http/responses-agent-runtime.ts:649-674 | a lost client closes the adapter it still owns |
| ResponsesAgentRuntime.ResponsesAgentRuntime.PruneExpired | apps/bridge/src/http/responses-agent-runtime.ts:513-525 | expired entries go, and each of their adapters is closed |
| ResponsesAgentRuntime.ResponsesAgentRuntime.Close | apps/bridge/src/http/responses-agent-runtime.ts:218-231 | after closing nothing is pending and no adapter is live |
| ResponsesAgentRuntime.ResponsesAgentRuntime.EndTask | apps/bridge/src/http/responses-agent-runtime.ts:305-310 | the `finally` gives the place in flight back and closes what was not handed on |
| ResponsesAgentRuntime.ResponsesAgentRuntime.PruneEntries | apps/bridge/src/http/responses-agent-runtime.ts:513-525 | the loop removes exactly the entries whose time has come |
| ResponsesAgentRuntime.ResponsesAgentRuntime.CloseAdapters | apps/bridge/src/http/responses-agent-runtime.ts:218-231 | the loop closes each live adapter named, once |
| ResponsesAgentRuntime.ResponsesAgentRuntime.CloseAdapter | apps/bridge/src/http/responses-agent-runtime.ts:551-557 | an adapter that is no longer live is not closed again |
| AgentSession.WorkflowsAlternate | apps/bridge/src/browser/agent-session-coordinator.ts:310-616 | under every interleaving with cancel, close and a newer start each workflow alternates prompt and outcome, stops within 33 rounds and keeps its byte total; while it awaits the assistant it has made as many calls as rounds have gone by, while it awaits the child one more |
| AgentSession.BudgetTestsCannotFire | apps/bridge/src/browser/agent-session-coordinator.ts:353-356 | in no reachable state is a continuation refused by the round budget or a reply by the call budget |
| AgentSession.SupersededTouchesNothing | apps/bridge/src/browser/agent-session-coordinator.ts:472-616 | whatever still happens to a superseded workflow leaves the newer one, the phase, the terminal code and the generated values as they are |
| AgentSession.IssuedDistinct | apps/bridge/src/browser/agent-session-coordinator.ts:784-813 | no generated value repeats within a window of 4096 |
| AgentSession.RunSound | apps/bridge/src/browser/agent-session-coordinator.ts:310-616 | the coordinator's invariant holds at every await of every run |
| AgentSessionCoordinator.AgentSessionCoordinator.StartWorkflow | apps/bridge/src/browser/agent-session-coordinator.ts:310-329 | a start changes the fields as the machine's start step says up to its first await |
| AgentSessionCoordinator.AgentSessionCoordinator.ContinueWorkflow | apps/bridge/src/browser/agent-session-coordinator.ts:331-387 | the tests are made in the source's order, a failed one ends the workflow with its code, and nothing of the round is recorded before all have passed |
| AgentSessionCoordinator.AgentSessionCoordinator.AfterRenewal | apps/bridge/src/browser/agent-session-coordinator.ts:478-483 | after the renewal a workflow that has ended or been superseded goes no further |
| AgentSessionCoordinator.AgentSessionCoordinator.OnDelta | apps/bridge/src/browser/agent-session-coordinator.ts:489-512 | text is added to the round's output within its byte and count limits, or the turn is failed |
| AgentSessionCoordinator.AgentSessionCoordinator.AfterTurn | apps/bridge/src/browser/agent-session-coordinator.ts:535-596 | the challenge is spent once, and a reply that passes every check is a final text or one call |
| AgentSessionCoordinator.AgentSessionCoordinator.CompleteWorkflow | apps/bridge/src/browser/agent-session-coordinator.ts:756-762 | only the active workflow's end makes the coordinator idle |
| AgentSessionCoordinator.AgentSessionCoordinator.CommitToolCall | apps/bridge/src/browser/agent-session-coordinator.ts:587-615 | a call is counted and becomes the one pending call |
| AgentSessionCoordinator.AgentSessionCoordinator.AfterThrow | apps/bridge/src/browser/agent-session-coordinator.ts:324-329 | the handler of a call that threw fails the workflow it belongs to, and no other |
| AgentSessionCoordinator.AgentSessionCoordinator.CancelActive | apps/bridge/src/browser/agent-session-coordinator.ts:389-408 | cancels the active workflow if there is one |
| AgentSessionCoordinator.AgentSessionCoordinator.CloseSession | apps/bridge/src/browser/agent-session-coordinator.ts:410-429 | closing ends the active workflow and refuses all later calls |
| AgentSessionCoordinator.AgentSessionCoordinator.SubmitRound | apps/bridge/src/browser/agent-session-coordinator.ts:472-533 | a round is submitted up to its first await |
| AgentSessionCoordinator.AgentSessionCoordinator.FailWorkflow | apps/bridge/src/browser/agent-session-coordinator.ts:764-776 | the first failure of a workflow is its last, and only the active one changes the coordinator |
| AgentSessionCoordinator.AgentSessionCoordinator.CreateUniqueRandomValue | apps/bridge/src/browser/agent-session-coordinator.ts:788-813 | the first of eight draws that is not among the recent values, which are then brought up to date |
| BrowserPromises.PromisesAccounted | apps/bridge/src/browser/browser-session-coordinator.ts:1206-1323 | in every run no promise settles twice; an unsettled one is held exactly once by an attempt or the turn, or is lost; its holder has a running timer (the connection's, unless a failed frame is about to end the transport); once the transport is gone only lost promises are unsettled |
| BrowserPromises.LostExactly | apps/bridge/src/browser/browser-session-coordinator.ts:904-945 | an event loses a promise exactly when it is a correlated status or activity report that the installed status refuses, or an error for the cancellation of a timed-out turn; it then loses that one, which was held and unsettled |
| BrowserPromises.LostCounted | apps/bridge/src/browser/browser-session-coordinator.ts:1016-1082 | over a run as many promises are lost as events drop one, and a lost promise stays lost |
| BrowserPromises.PromiseLost | apps/bridge/src/browser/browser-session-coordinator.ts:904-915 | such a run exists from the initial state: a status report crossing the answer to the first status read leaves the read's promise unsettled after the transport has ended |
| BrowserSessionFrames.RoutesAreCurrent | apps/bridge/src/browser/browser-session-coordinator.ts:1084-1124 | in every run snapshot generations never repeat, a revision names one catalog within a session, and a turn is current only for the snapshot installed last |
| BrowserSessionFrames.RunSound | apps/bridge/src/browser/browser-session-coordinator.ts:316-1483 | the correlation table, attempts, turn, timers, leases and snapshots stay consistent under every interleaving of calls, frames, timers and delivery continuations |
| BrowserModelRoutes.TokensDieWithTheirSnapshot | apps/bridge/src/browser/browser-model-catalog.ts:57-67 | in every run a token published from one snapshot resolves against another only if they are the same, and a turn asked for by its route is current only if that snapshot is the last |
| BrowserModelRoutes.ResolveModelRoute | apps/bridge/src/browser/browser-model-catalog.ts:57-67 | finds the model of the current snapshot whose token it is, finds none when there is none, and fails when two models cannot be told apart |
| BrowserModelRoutes.ReadPublished | apps/bridge/src/browser/browser-model-catalog.ts:69-131 | publishes every model in order, or throws, exactly when two have one public key or one token |
| BrowserModelRoutes.DistinctModels | apps/bridge/src/browser/browser-model-catalog.ts:86-101 | with an injective token that is when two models have one identifier or one public key |
| BrowserSessionCoordinator.BrowserSessionCoordinator.AttachTransport | apps/bridge/src/browser/browser-session-coordinator.ts:316-337 | a lease number is given once, and never while another transport is attached or the coordinator closed |
| BrowserSessionCoordinator.BrowserSessionCoordinator.DetachTransport | apps/bridge/src/browser/browser-session-coordinator.ts:339-352 | only the current lease ends the transport |
| BrowserSessionCoordinator.BrowserSessionCoordinator.CloseCoordinator | apps/bridge/src/browser/browser-session-coordinator.ts:354-368 | the first close tears everything down for good |
| BrowserSessionCoordinator.BrowserSessionCoordinator.OpenSession | apps/bridge/src/browser/browser-session-coordinator.ts:370-408 | a session is opened only from the disconnected phase; without room in the table the attempt is rejected and reset |
| BrowserSessionCoordinator.BrowserSessionCoordinator.CloseSession | apps/bridge/src/browser/browser-session-coordinator.ts:410-464 | an attempt to connect is rejected, the disconnect promise is held, and a full table ends the transport |
| BrowserSessionCoordinator.BrowserSessionCoordinator.ReadAgentStatus | apps/bridge/src/browser/browser-session-coordinator.ts:466-498 | one status read at a time; without room its promise is rejected and nothing else changes |
| BrowserSessionCoordinator.BrowserSessionCoordinator.RefreshAgentStatus | apps/bridge/src/browser/browser-session-coordinator.ts:466-498 | the public call keeps every invariant |
| BrowserSessionCoordinator.BrowserSessionCoordinator.NoteAgentActivity | apps/bridge/src/browser/browser-session-coordinator.ts:500-555 | one renewal at a time, for a status that is not stale |
| BrowserSessionCoordinator.BrowserSessionCoordinator.StartBrowserTurn | apps/bridge/src/browser/browser-session-coordinator.ts:557-725 | a turn starts only for the current snapshot and with no other turn; without room both its promises are settled |
| BrowserSessionCoordinator.BrowserSessionCoordinator.StartCancelling | apps/bridge/src/browser/browser-session-coordinator.ts:1206-1247 | a cancellation refused for lack of room leaves the turn's phase as it was |
| BrowserSessionCoordinator.BrowserSessionCoordinator.CancelBrowserTurn | apps/bridge/src/browser/browser-session-coordinator.ts:1180-1204 | cancels the active turn once, if it can be cancelled |
| BrowserSessionCoordinator.BrowserSessionCoordinator.TurnTimer | apps/bridge/src/browser/browser-session-coordinator.ts:1249-1270 | a turn that times out is cancelled once, or the transport ends |
| BrowserSessionCoordinator.BrowserSessionCoordinator.CommandTimer | apps/bridge/src/browser/browser-session-coordinator.ts:1376-1389 | a command that is still pending when its timer fires ends the transport |
| BrowserSessionCoordinator.BrowserSessionCoordinator.SendingFailed | apps/bridge/src/browser/browser-session-coordinator.ts:1424-1437 | a failed send ends the transport it was made on, and no later one |
| BrowserSessionCoordinator.BrowserSessionCoordinator.ReservePending | apps/bridge/src/browser/browser-session-coordinator.ts:1365-1390 | a command is added within the capacity under an unused id, or the table is unchanged |
| BrowserSessionCoordinator.BrowserSessionCoordinator.CreateIdentifier | apps/bridge/src/browser/browser-session-coordinator.ts:1502-1524 | an identifier in use is not drawn again |
| BrowserSessionCoordinator.BrowserSessionCoordinator.SettleDeferred | apps/bridge/src/browser/browser-session-coordinator.ts:1285-1323 | one more settlement of a promise, recorded as repeated if it was settled before |
| BrowserSessionCoordinator.BrowserSessionCoordinator.SettleActiveTurn | apps/bridge/src/browser/browser-session-coordinator.ts:1285-1323 | the turn's commands go and its promises are settled, the start's only if it was not acknowledged |
| BrowserSessionCoordinator.BrowserSessionCoordinator.ResetSession | apps/bridge/src/browser/browser-session-coordinator.ts:1454-1483 | all that waits is settled and forgotten with the session |
| BrowserSessionCoordinator.BrowserSessionCoordinator.TeardownTransport | apps/bridge/src/browser/browser-session-coordinator.ts:1440-1452 | the lease goes first, then the session |
| BrowserSessionCoordinator.BrowserSessionCoordinator.SendCommand | apps/bridge/src/browser/browser-session-coordinator.ts:1402-1423 | a port that throws ends the transport at once |
| BrowserSessionCoordinator.BrowserSessionCoordinator.HandleSessionConnected | apps/bridge/src/browser/browser-session-coordinator.ts:814-840 | goes on to the catalog, or only clears the command while disconnecting |
| BrowserSessionCoordinator.BrowserSessionCoordinator.InstallCapabilities | apps/bridge/src/browser/browser-session-coordinator.ts:1084-1124 | a redefined revision and one too many are refused; a change makes a snapshot with a new generation, a repetition none |
| BrowserSessionCoordinator.BrowserSessionCoordinator.HandleCapabilitiesResult | apps/bridge/src/browser/browser-session-coordinator.ts:861-888 | installs the catalog, settles the connection and asks for the status |
| BrowserSessionCoordinator.BrowserSessionCoordinator.HandleCapabilitiesChanged | apps/bridge/src/browser/browser-session-coordinator.ts:890-902 | installs a catalog of a session that is ready and ignores one while disconnecting |
| BrowserSessionCoordinator.BrowserSessionCoordinator.InstallAgentStatus | apps/bridge/src/browser/browser-session-coordinator.ts:1126-1142 | refuses an older revision and a redefined one |
| BrowserSessionCoordinator.BrowserSessionCoordinator.HandleAgentStatusResult | apps/bridge/src/browser/browser-session-coordinator.ts:904-915 | drops the attempt before the status is looked at, so that a refused status leaves its promise unsettled |
| BrowserSessionCoordinator.BrowserSessionCoordinator.HandleAgentActivityResult | apps/bridge/src/browser/browser-session-coordinator.ts:927-945 | the same for a renewal |
| BrowserSessionCoordinator.BrowserSessionCoordinator.HandleAgentStatusChanged | apps/bridge/src/browser/browser-session-coordinator.ts:917-925 | installs the status of the current session |
| BrowserSessionCoordinator.BrowserSessionCoordinator.HandleTurnStarted | apps/bridge/src/browser/browser-session-coordinator.ts:947-963 | acknowledges the turn once, settles its start and starts its timer; a turn being cancelled stays so |
| BrowserSessionCoordinator.BrowserSessionCoordinator.HandleCancelError | apps/bridge/src/browser/browser-session-coordinator.ts:1054-1075 | a refused cancellation restores the phase of before; for a timed-out turn the transport ends and the cancellation's promise is lost |
| BrowserSessionCoordinator.BrowserSessionCoordinator.HandleRemoteError | apps/bridge/src/browser/browser-session-coordinator.ts:1016-1082 | each kind of command ends in its own way, session commands with the transport |
| BrowserSessionCoordinator.BrowserSessionCoordinator.HandleTurnFrame | apps/bridge/src/browser/browser-session-coordinator.ts:965-1014 | output and completion need an acknowledged turn of that name, an end only its name |
| BrowserSessionCoordinator.BrowserSessionCoordinator.Dispatch | apps/bridge/src/browser/browser-session-coordinator.ts:757-812 | every frame goes to its handler, and any other is a violation |
| BrowserSessionCoordinator.BrowserSessionCoordinator.Receive | apps/bridge/src/browser/browser-session-coordinator.ts:727-745 | a frame for an old lease is ignored, a second one during a delivery ends the transport |
| BrowserSessionCoordinator.BrowserSessionCoordinator.ConsumerDone | apps/bridge/src/browser/browser-session-coordinator.ts:978-989 | a failed consumer ends the transport only while its own turn is active |
| BrowserSessionCoordinator.BrowserSessionCoordinator.FinishReceiving | apps/bridge/src/browser/browser-session-coordinator.ts:746-755 | a handler that threw ends the transport it was for, if that is still attached |
| TabSessionInvariant.OneOperation | apps/browser-extension/src/session/browser-tab-session.ts:334-518 | in every run at most one operation of the page is outstanding, counting the read, the turn and what closed sessions left; every answer sent names the session of its command, and each command is answered in order: a read once, a turn begun once, streamed and ended once |
| FairPages.AnswersReachTheirSession | apps/browser-extension/src/session/browser-tab-session.ts:520-619 | against a page that answers only what it was asked, and after its last word on a turn says no more about it than that a cancellation came too late, each frame sent for one of its events goes out in the very session in which the page was asked, and that session is still open |
| FairPages.LateRefusalsEnd | apps/browser-extension/src/session/browser-tab-session.ts:772-817 | such a late refusal is never sent on: page, native connection and session end, whichever session is open by then |
| ReusedTurn.RefusalMisdelivered | apps/browser-extension/src/session/browser-tab-session.ts:772-799 | why the newer turn must not have the name: a run in which a turn and its cancellation are named as in the session before, and the late refusal goes out in the new session |
| TabSessionInvariant.PermitsAreOneShot | apps/browser-extension/src/session/browser-tab-session.ts:656-674 | no agent turn permit is used twice with one page, and no more than 64 are |
| FairPages.MatchedStep | apps/browser-extension/src/session/browser-tab-session.ts:704-817 | what the page still has its last word to say on is always the one operation outstanding, late refusals included |
| TabSessionInvariant.RunSound | apps/browser-extension/src/session/browser-tab-session.ts:198-999 | the links, the outstanding operation, the log of answers and the permits stay consistent in every run |
| BrowserTabSession.BrowserTabSession.End | apps/browser-extension/src/session/browser-tab-session.ts:957-999 | everything of the page, the native connection and the session goes with the generation; the native host is told once, if it can be |
| BrowserTabSession.BrowserTabSession.SendNative | apps/browser-extension/src/session/browser-tab-session.ts:834-840 | a frame is sent, or the handler throws with the state as it was |
| BrowserTabSession.BrowserTabSession.SendPage | apps/browser-extension/src/session/browser-tab-session.ts:819-832 | a command is given to a page that is ready, or everything ends |
| BrowserTabSession.BrowserTabSession.CloseSession | apps/browser-extension/src/session/browser-tab-session.ts:348-365 | what is outstanding becomes an orphan, and the session is over |
| BrowserTabSession.BrowserTabSession.ReadCapabilities | apps/browser-extension/src/session/browser-tab-session.ts:366-385 | a read is asked for only while nothing else is outstanding |
| BrowserTabSession.BrowserTabSession.StartTextTurn | apps/browser-extension/src/session/browser-tab-session.ts:423-479 | a turn is asked for only while nothing else is outstanding |
| BrowserTabSession.BrowserTabSession.StartAgentTurn | apps/browser-extension/src/session/browser-tab-session.ts:621-702 | the permit is consumed before the page is asked, and refused the second time |
| BrowserTabSession.BrowserTabSession.CancelPageTurn | apps/browser-extension/src/session/browser-tab-session.ts:480-506 | one cancellation of the current turn at a time |
| BrowserTabSession.BrowserTabSession.HandleApplication | apps/browser-extension/src/session/browser-tab-session.ts:334-518 | the reply to each frame, and the state it leaves |
| BrowserTabSession.BrowserTabSession.ReceiveFromNative | apps/browser-extension/src/session/browser-tab-session.ts:306-332 | frames of an old connection are ignored, and a reply that cannot be sent ends everything |
| BrowserTabSession.BrowserTabSession.DrainOrphanedTurn | apps/browser-extension/src/session/browser-tab-session.ts:728-765 | an orphaned turn goes through its events unheard, and a wrong one is refused |
| BrowserTabSession.BrowserTabSession.DrainOrphanedPageEvent | apps/browser-extension/src/session/browser-tab-session.ts:704-766 | an event of an orphan is taken, and any other left for the session |
| BrowserTabSession.BrowserTabSession.HandlePageFailure | apps/browser-extension/src/session/browser-tab-session.ts:772-817 | a failed read, cancellation or start is told apart by its ids, and answered in its session |
| BrowserTabSession.BrowserTabSession.HandleTurnEvent | apps/browser-extension/src/session/browser-tab-session.ts:558-605 | an event of the turn is answered in order, or refused |
| BrowserTabSession.BrowserTabSession.HandleSessionEvent | apps/browser-extension/src/session/browser-tab-session.ts:539-619 | an event of the session sends its answer, or throws |
| BrowserTabSession.BrowserTabSession.HandlePageEvent | apps/browser-extension/src/session/browser-tab-session.ts:520-619 | orphans are drained before the session is looked at |
| BrowserTabSession.BrowserTabSession.ReceiveFromPage | apps/browser-extension/src/session/browser-tab-session.ts:268-283 | events of an old page are ignored, and a refused one ends everything |
| BrowserTabSession.BrowserTabSession.Open | apps/browser-extension/src/session/browser-tab-session.ts:198-206 | connects anew only when idle or after an error |
| BrowserTabSession.BrowserTabSession.AfterTabs | apps/browser-extension/src/session/browser-tab-session.ts:208-226 | a call that has been overtaken changes nothing more |
| BrowserTabSession.BrowserTabSession.AfterInjection | apps/browser-extension/src/session/browser-tab-session.ts:228-262 | the page of a call that has been overtaken is not taken |
| BrowserTabSession.BrowserTabSession.Close | apps/browser-extension/src/session/browser-tab-session.ts:264-266 | ends everything and leaves the session idle |
| BrowserTabSession.BrowserTabSession.ReceivePageReady | apps/browser-extension/src/session/browser-tab-session.ts:285-304 | a page that is ready opens the native connection, once |
| BrowserTabSession.BrowserTabSession.ReceiveNativeReady | apps/browser-extension/src/session/browser-tab-session.ts:312-321 | the session is connected when the native link is ready |
| BrowserTabSession.BrowserTabSession.PageDisconnected | apps/browser-extension/src/session/browser-tab-session.ts:945-949 | only the current page's loss ends everything |
| BrowserTabSession.BrowserTabSession.NativeDisconnected | apps/browser-extension/src/session/browser-tab-session.ts:951-955 | only the current native connection's loss ends everything |
| ThreadRouting.RunSound | packages/core/src/routing/thread-router.ts:144-691 | in every reachable state the reservation counter is the number of pending requests that hold a slot, each quarantined thread belongs to exactly one pending request with a count of 1, and no table is over its limit |
| ThreadRouting.PinnedUntilForgotten | packages/core/src/routing/thread-router.ts:222-292 | a pinned thread keeps its route until it is forgotten |
| ThreadRouting.ForkSharesRoute | packages/core/src/routing/thread-router.ts:222-292 | a committed fork takes the route of the thread it was reported to come from whenever that is pinned, and both keep it until one is forgotten |
| ThreadRouting.ReservedRoom | packages/core/src/routing/thread-router.ts:281-290 | in a run that forgets no thread with a resume of it pending, threads and reservations fit the capacity and no response is refused for lack of room |
| ThreadRouting.RunRoomy | packages/core/src/routing/thread-router.ts:180-213 | threads, reservations and orphaned resumes exceed the capacity by no more than the number of such forgettings |
| ThreadRouting.RefusedForRoom | packages/core/src/routing/thread-router.ts:281-290 | exactly when a response is refused for lack of room: the table is full, and with a larger capacity it would commit a thread that is not pinned; no other verdict depends on the capacity |
| ThreadRouting.ForgettingOverbooks | packages/core/src/routing/thread-router.ts:509-511 | the condition is needed: with room for one thread, forgetting it while it is being resumed makes a start be refused for lack of room |
| ThreadRouting.BlockedNeverPinned | packages/core/src/routing/thread-router.ts:663-672 | a blocked thread that is not pinned never will be |
| ThreadRoute.KeyInjective | packages/core/src/routing/thread-router.ts:694-706 | two requests share a key only if direction and id are the same |
| ThreadBound.BoundForLife | packages/core/src/routing/thread-router.ts:294-363 | whatever has happened since a web thread was pinned, short of forgetting it, every request sent on for it names the thread's own model and effort in every place |
| ThreadRouter.ThreadRouter.ValidateThreadBound | packages/core/src/routing/thread-router.ts:294-363 | the verdict on a bound request, with the tables left as they are |
| ThreadRouter.ThreadRouter.PrepareThreadLifecycle | packages/core/src/routing/thread-router.ts:144-220 | a request is refused with the first error in the source's order and nothing changed, or recorded with its quarantine and slot |
| ThreadRouter.ThreadRouter.RecordDecision | packages/core/src/routing/thread-router.ts:180-219 | capacity and quarantine are checked before anything is written |
| ThreadRouter.ThreadRouter.SettleThreadLifecycle | packages/core/src/routing/thread-router.ts:222-292 | the pending request is released whatever the response says; what is committed, blocked or refused is the verdict |
| ThreadRouter.ThreadRouter.Commit | packages/core/src/routing/thread-router.ts:266-291 | a changed route or a fork unlike its source blocks the thread instead of re-pinning it |
| ThreadRouter.ThreadRouter.AssertAvailable | packages/core/src/routing/thread-router.ts:627-634 | a thread is available exactly when neither blocked nor quarantined |
| ThreadRouter.ThreadRouter.DiscardPending | packages/core/src/routing/thread-router.ts:491-499 | a discarded request gives back its quarantine and slot, once |
| ThreadRouter.ThreadRouter.ClearPending | packages/core/src/routing/thread-router.ts:501-507 | nothing stays pending, quarantined or reserved, and the number cleared is told |
| ThreadRouter.ThreadRouter.ForgetThread | packages/core/src/routing/thread-router.ts:509-511 | only the thread's route goes |
| ThreadRouter.ThreadRouter.ReleasePending | packages/core/src/routing/thread-router.ts:613-619 | the request, its quarantine and its slot go together |
| ThreadRouter.ThreadRouter.BlockThread | packages/core/src/routing/thread-router.ts:663-672 | a full table marks the router compromised instead of dropping the thread |
| ThreadRouter.ThreadRouter.QuarantineThread | packages/core/src/routing/thread-router.ts:674-679 | one more reference to the thread |
| ThreadRouter.ThreadRouter.ReleaseThreadQuarantine | packages/core/src/routing/thread-router.ts:681-691 | one reference less, and none at zero |
| AppServerRouter.AppServerRouter.HandleLifecycle | apps/bridge/src/facade/app-server-router.ts:93-120 | the owned lifecycle keys stay the router's pending keys: both get the key of a forwarded request, neither of a refused one |
| AppServerRouter.AppServerRouter.HandleRequest | apps/bridge/src/facade/app-server-router.ts:97-167 | any other request leaves the router alone, and is owned afterwards exactly when it is forwarded: its key is valid and free, its own checks pass, there is room and, passed through, it can be sent |
| AppServerRouter.AppServerRouter.HandleResponse | apps/bridge/src/facade/app-server-router.ts:203-277 | the owner is released first, and a lifecycle request settles; the two tables agree again even where it throws |
| AppServerRouter.AppServerRouter.ReserveOwned | apps/bridge/src/facade/app-server-router.ts:343-351 | a taken key and a full table are refused |
| AppServerRouter.AppServerRouter.DropOwned | apps/bridge/src/facade/app-server-router.ts:220-224 | one key goes and no other |
| AppServerRouter.AppServerRouter.ClearPending | apps/bridge/src/facade/app-server-router.ts:314-317 | both tables are emptied together |
| ModelCatalog.FollowingListsAll | packages/core/src/catalog/model-catalog.ts:138-242 | a client that follows its cursors from the start, with any limits and whatever other clients do meanwhile, is listed all native entries and then each virtual model of the first snapshot once, in order; the cursors end; no virtual model appears before the native list has ended without a collision |
| CursorStore.CursorLasts | packages/core/src/catalog/opaque-cursor-store.ts:51-103 | a created cursor reads back its value until a call observes its expiry or as many further creations as the capacity are made, whatever is called in between |
| CursorStore.RunSound | packages/core/src/catalog/opaque-cursor-store.ts:51-131 | no run leaves more entries than the capacity or two with one cursor |
| CursorStore.PruneKeeps | packages/core/src/catalog/opaque-cursor-store.ts:125-131 | pruning keeps what has not expired, in order |
| CursorStore.OpaqueCursorStore.Create | packages/core/src/catalog/opaque-cursor-store.ts:51-81 | the first of the draws that is unused, after pruning and evicting the oldest if full |
| CursorStore.OpaqueCursorStore.Read | packages/core/src/catalog/opaque-cursor-store.ts:83-103 | a value before its expiry, an error for an unknown or expired cursor, and the pruning both bring |
| CursorStore.OpaqueCursorStore.ActiveSize | packages/core/src/catalog/opaque-cursor-store.ts:109-112 | what is counted has not expired |
| CursorStore.OpaqueCursorStore.PruneExpired | packages/core/src/catalog/opaque-cursor-store.ts:125-131 | exactly the expired entries go |
| ModelCatalog.VirtualModelCatalog.PrepareList | packages/core/src/catalog/model-catalog.ts:138-186 | a native request, a virtual page, or the error of the first failing check, and the store it leaves |
| ModelCatalog.VirtualModelCatalog.MergeNativePage | packages/core/src/catalog/model-catalog.ts:188-242 | the page with its next cursor, or the error of a repeated cursor or a collision |
| ModelCatalog.VirtualModelCatalog.PaginateVirtualModels | packages/core/src/catalog/model-catalog.ts:268-288 | a slice of the snapshot, and a cursor for the rest if there is one |
| ModelCatalog.VirtualModelCatalog.Observe | packages/core/src/catalog/model-catalog.ts:191-196 | the ids and names seen so far are those of every native entry |
| ModelCatalog.VirtualModelCatalog.Collides | packages/core/src/catalog/model-catalog.ts:366-395 | a collision is found exactly when a virtual model shares an id or a name with a native one, or a native name is reserved |
| JsonLines.ChunkingIrrelevant | apps/bridge/src/transport/jsonl-decoder.ts:36-120 | however a stream is cut, the decoder returns the messages of the whole stream or fails with the error of the whole stream |
| JsonLines.FramesDecode | apps/bridge/src/transport/jsonl-writer.ts:57-91 | every list of frames the writer accepts decodes to the messages written, under the same frame limit |
| JsonLineWriter.SentDecodes | apps/bridge/src/transport/jsonl-writer.ts:57-165 | at any moment of any run what has been sent decodes, wherever it is cut, to the messages accepted first, in order |
| JsonLineWriter.RunSound | apps/bridge/src/transport/jsonl-writer.ts:57-198 | in every run the queue keeps its bounds and no promise settles twice or differently |
| JsonLines.AppServerJsonLineDecoder.Push | apps/bridge/src/transport/jsonl-decoder.ts:36-65 | a chunk gives the messages of the lines it completes and leaves the rest pending; a failed decoder stays closed |
| JsonLines.AppServerJsonLineDecoder.FinishStream | apps/bridge/src/transport/jsonl-decoder.ts:67-85 | the last line is decoded without its line feed |
| JsonLines.AppServerJsonLineDecoder.AppendSegment | apps/bridge/src/transport/jsonl-decoder.ts:87-100 | never overflows the buffer, because the frame limit is met first |
| JsonLines.AppServerJsonLineDecoder.ConsumeLine | apps/bridge/src/transport/jsonl-decoder.ts:102-120 | the pending bytes are one line, with a carriage return removed, and are then gone |
| JsonLineWriter.AppServerJsonLineWriter.Submit | apps/bridge/src/transport/jsonl-writer.ts:57-91 | a frame is queued within all three limits, or rejected without a trace |
| JsonLineWriter.AppServerJsonLineWriter.StartNext | apps/bridge/src/transport/jsonl-writer.ts:97-165 | the head of the queue is written, and no other |
| JsonLineWriter.AppServerJsonLineWriter.OnCallback | apps/bridge/src/transport/jsonl-writer.ts:121-165 | a written frame settles its promise only after its callback, and its drain if one is awaited |
| JsonLineWriter.AppServerJsonLineWriter.OnDrain | apps/bridge/src/transport/jsonl-writer.ts:121-165 | a drain settles the frame whose callback has come |
| JsonLineWriter.AppServerJsonLineWriter.OnResume | apps/bridge/src/transport/jsonl-writer.ts:97-119 | the pump goes on to the next frame, or stops |
| JsonLineWriter.AppServerJsonLineWriter.OnFail | apps/bridge/src/transport/jsonl-writer.ts:167-179 | a failure rejects everything queued, once |
| JsonLineWriter.AppServerJsonLineWriter.FailAll | apps/bridge/src/transport/jsonl-writer.ts:167-179 | the queue is emptied and every promise in it rejected |

## Left out

- Numbers: the printing of fractions and exponents is the oracle `prints`, and `isMultipleOf` with the comparison of non-integers is the oracle `Arithmetic`; `-0` is not a value.
- JsonScanner.JsonStructureScanner.String: the four steps over the digits of an escape are one step of the model.
- StrictScanner.StrictJsonScanner.String: as for the first scanner, the four steps over the digits of an escape are one step.
- AssistantEnvelope.FramedParses: the copy that the schema library makes of a value is the value; freezing is not modelled.
- Schemas of the zod library but the assistant envelope's, other identifier patterns, freezing and property descriptors: inputs are already plain data of the right shape.
- ToolSchema: a schema is given as read; the checks of `isSchemaNode` on its spelling are not modelled.
- CodexContract: `projectToolContract` and the request fields are given as projected.
- ResponsesServer.ContinuationBound: the allowed scalars of a request and the shape of its messages are the predicates of `Profile`; identities, the events of a lifecycle and the call reference are not modelled.
- AgentRuntimeInvariant.AcceptedHistory: request binding, route and model checks and the writing to the client are outcomes; the clock is valid; `calls` and `inputs` are logs kept for the statement.
- AgentSession.WorkflowsAlternate: bindings, leases, manifests and prompts are outcomes; the browser boundary does not call back while it is called; the microtask between a throw and its handler is a state of its own.
- BrowserPromises.PromisesAccounted: the sequence numbers of frames, frame schemas and the clock of leases are outcomes; an identifier still in use is taken to be among the 2048 recent ones, which the source does not draw again; the microtask between a failed handler and the end of the transport is a state of its own.
- BrowserModelRoutes.TokensDieWithTheirSnapshot: the form of tokens, display names and efforts besides the default are not modelled; the public key is any function.
- TabSessionInvariant.OneOperation: the sequence numbers of both links, heartbeats, the handshake's content, the agent status and its reports, the catalog kept for agent turns, and the popup's binding are not modelled.
- That coordinator and tab session never meet a protocol violation together is not claimed: a cancellation crossing a completion makes the tab report a failure of a settled turn.
- ThreadRoute: a route's provider follows from its kind and is not a field; the reserved name space and the registry's contents are arguments.
- ThreadRouting.RunSound: the validations of reviews, realtime sessions, identities and relations, and the search for private provider material, only read the tables and are not modelled.
- AppServerRouter.AppServerRouter.HandleRequest: a model list with a native cursor is sent on, since a request already read by its schema is read again with only a string replaced; the other requests' own checks are one outcome, and the rewriting of responses is not modelled.
- ModelCatalog.FollowingListsAll: an entry is its id and its name; the shape of pages beyond that, and the validity of the virtual definitions, are given.
- JsonLineWriter.RunSound: the stream's callbacks are events; as in the source, a frame already written can still be rejected if its failure is reported first.
- The ChatGPT page driver, the popup, Windows setup, the registry, files, processes, HTTP and SSE, the .NET helper: input and output, or foreign calls.
- `NativeHostRelay`: it rests on a native link session that is not part of this model.
- Sequence links, the activation lease and the conversation ownership guard: short invariants of their own.
