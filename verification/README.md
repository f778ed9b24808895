# Lares: money and authority under retries, lost replies and arbitrary chunking

This project models the parts of Lares that decide whether money may be spent and whether an action
may run, and proves what they promise. Everything is stated for every input, every interleaving or
every reachable state.

| file | what it models |
|---|---|
| `BudgetLedger.dfy`, `BudgetStore.dfy` | the admission ledger: accounts, windows, bindings, attempts, grants, permits; each locked transaction is one step, and the store class takes exactly those steps |
| `LedgerSafety.dfy`, `LedgerPermits.dfy`, `Receipts.dfy`, `Admissions.dfy` | caps, freezing, permits, owner jobs and receipts over whole runs; what each answer of the ledger means |
| `Money.dfy`, `Pricing.dfy` | decimal amounts, reviewed tariffs, the reservation and the actual charge |
| `SourceTransaction.dfy`, `VaultSources.dfy` | the owned PostgreSQL transaction against a peer that may lose any message; validation of retained sources inside it |
| `OneShot.dfy`, `OneShotRuns.dfy` | a gateway request: one accepted reply, one physical send, one receipt, and where each comes from |
| `UsageGrammar.dfy`, `TerminalEvidence.dfy`, `UsageDocuments.dfy` | which provider documents prove a usage |
| `LineEndings.dfy`, `EventStream.dfy`, `WireEvidence.dfy`, `Chunkings.dfy`, `WireObservation.dfy`, `ResponseGrammar.dfy` | the incremental reader of the provider's bytes (the block structure of sections 9.2.5 and 9.2.6 of the WHATWG HTML Living Standard) |
| `PricedEvidence.dfy` | bytes to ledger: what the wire proves can be priced and settles |
| `CanonicalJson.dfy`, `JsonReading.dfy` | the key-sorted JSON text an approval card is bound to (strings as in section 7 of RFC 8259) |
| `Approvals.dfy`, `Supersede.dfy`, `RequestedEvents.dfy`, `OneTurnRuns.dfy` | approval rows under all their writers, the withdrawal of replaced cards and the attaching of reserved ones |
| `AccountTickets.dfy` | ticketed updates of connected accounts and their resource bindings |
| `SignalWalk.dfy` | the walk over cyclic error values |
| `Paging.dfy` | pages of a long text that split no surrogate pair |

How to read it. Pure code is functions and lemmas. Code that changes state is a class whose methods
are proved to take the steps of a specification function (`Apply`, `Step`, `Feed`, `FeedWire`,
`Exec`, `Outcome`), and the run theorems are about those functions. Time, randomness, network
replies, provider verification, hashes, the JSON decoder and collation are inputs: a clock value, a
fresh id, a `Fate` per message, a boolean verdict, a function parameter. A hash is taken as
injective and stands for the text it hashes.

Where the code does not do what its comments or its intent say, the code is modelled as it is and
the exact condition is proved:

- Chunking. All chunkings of a stream read alike exactly when it is over the limit or holds no
  CR CR LF; if no chunk is empty, exactly when no byte follows a CR CR LF
  (`Chunkings.ChunkingsAgreeExactly`, `Chunkings.ProperChunkingsAgreeExactly`).
  `Chunkings.OneResponseTwoReadings` is one response whose bytes prove a usage in three chunks and
  none in two.
- Superseding. After an event, open cards that nothing tells apart can come from different turns,
  exactly when arriving cards of different turns mix, or when a reserved card, whose row holds no
  target, opens beside an older card that its ask does not replace (`OneTurnRuns.OneTurnExactly`,
  with the two failures in `OneTurnRuns.MixedEventLeavesBoth` and
  `OneTurnRuns.StrandedEventLeavesBoth`).
- Paging with a limit of one repeats text exactly when a low surrogate follows an even run of high
  ones, which no well-formed text has (`Paging.LosslessAtOne`, `Paging.TwoHighsRepeat`).
- The comment above the canonical printer says that an undefined value is dropped, and then that its
  key is kept with `null`; the code does the latter and so does the model.
- The fingerprint binds tool and input even for a tool whose name contains spaces
  (`CanonicalJson.PreImageBinds`).

## Model

| member | source | states |
|---|---|---|
| `BudgetStore.Store.ReadLiability` | packages/agent-kit/src/budget-admission-store.ts:138-152 | the loop over rows computes the account's liability: the active window's opening, plus reserved or settled amounts of that window, plus every conflict's largest amount; none without a window |
| `BudgetStore.Store.Prepare` | packages/agent-kit/src/budget-admission-store.ts:158-312 | one preparation, whatever becomes of its COMMIT, is exactly the ledger's prepare step, refusals and unique keys included |
| `BudgetStore.Store.DecideTicket` | packages/agent-kit/src/budget-admission-store.ts:317-354 | the admission checks reach exactly the ledger's decision, member cap before installation cap |
| `BudgetStore.Store.AdmitTicket` | packages/agent-kit/src/budget-admission-store.ts:313-372 | one admission is exactly the ledger's admit step; a permit is minted only after an acknowledged COMMIT |
| `BudgetStore.Store.ConsumeDispatchPermit` | packages/agent-kit/src/budget-admission-store.ts:79-83 | a permit answers once and is burned by the read |
| `BudgetStore.Store.MarkUnknown` | packages/agent-kit/src/budget-admission-store.ts:373-376 | only an admitted attempt becomes unknown |
| `BudgetStore.Store.Settle` | packages/agent-kit/src/budget-admission-store.ts:379-398 | one receipt is exactly the ledger's settle step: first receipt wins, a differing or excessive one conflicts and freezes |
| `BudgetStore.Store.RecordGatewayGrant` | packages/agent-kit/src/budget-admission-store.ts:106-118 | one grant per admitted, matching attempt |
| `LedgerSafety.AdmissionKeepsCaps` | packages/agent-kit/src/budget-admission-store.ts:336-354 | an admitted attempt leaves the installation and every member within its cap |
| `LedgerSafety.StepKeepsSafe` | packages/agent-kit/src/budget-admission-store.ts:313-398 | every step of the store, and every allowed change elsewhere, keeps: caps hold unless something conflicted, and a conflict means frozen or retired |
| `LedgerSafety.OpenedIsSafe` | packages/agent-kit/src/budget-admission-store.ts:138-152 | a ledger without attempts whose windows open within their caps satisfies that invariant |
| `LedgerSafety.CapsHoldOverRuns` | packages/agent-kit/src/budget-admission-store.ts:138-155 | in every state of every run without a conflict, the installation's and every member's liability is at most its cap |
| `LedgerSafety.NoAdmissionAfterConflict` | packages/agent-kit/src/budget-admission-store.ts:379-398 | after a conflict no attempt is ever admitted again, in any run |
| `LedgerPermits.StepKeepsOnePermit` | packages/agent-kit/src/budget-admission-store.ts:350-371 | every step keeps invocations distinct and at most one permit per charged attempt |
| `LedgerPermits.OnePermitPerInvocation` | packages/agent-kit/src/budget-admission-store.ts:178-185 | over all interleavings, retries and lost acknowledgements, two successful permit reads are for two different invocations |
| `LedgerPermits.BurnedWasAdmitted` | packages/agent-kit/src/budget-admission-store.ts:366-371 | a permit is only ever burned for an attempt the ledger has charged |
| `LedgerPermits.CountFalls` | packages/agent-kit/src/budget-admission-store.ts:328-331 | rows that are outstanding only if they were before do not raise the count; an expired prepared attempt never counts again |
| `LedgerPermits.OwnerJobsBounded` | packages/agent-kit/src/budget-admission-store.ts:293-305 | in every reachable state each member, agent and incarnation has at most eight outstanding owner jobs |
| `LedgerPermits.AtMostEightJobs` | packages/agent-kit/src/budget-admission-store.ts:293-305 | counted one by one, at most eight jobs are admitted, unknown, or prepared and unexpired |
| `Admissions.PreparedExactly` | packages/agent-kit/src/budget-admission-store.ts:166-188 | what a preparation demands of the rows, in both directions |
| `Admissions.MadeMeans` | packages/agent-kit/src/budget-admission-store.ts:182-185 | the row a preparation makes: the call asked for under the binding's terms, reserving its maximum |
| `Admissions.AdmissionIsOfThePreparedCall` | packages/agent-kit/src/budget-admission-store.ts:331-354 | over any run a permit is given only to the prepared ticket, for the very call, before expiry, under unchanged accounts, endpoint and epoch, with room under both caps |
| `Admissions.PreparedIsAdmitted` | packages/agent-kit/src/budget-admission-store.ts:331-354 | conversely, prepared and admitted with that observation, nothing changed and with room, the call is allowed |
| `Admissions.RefusalRetires` | packages/agent-kit/src/budget-admission-store.ts:316-330 | a refused prepared attempt is retired, and nothing else changes |
| `Admissions.LimitIsNamed` | packages/agent-kit/src/budget-admission-store.ts:339-348 | a limit is named only when it refuses, the member's before the installation's |
| `Admissions.AdmissionCharges` | packages/agent-kit/src/budget-admission-store.ts:142-151 | an admission raises the liability of the installation and the member by the reservation, and nobody else's |
| `Admissions.UnknownStaysCharged` | packages/agent-kit/src/budget-admission-store.ts:373-376 | losing track of a call changes no liability |
| `Admissions.FirstReceiptCharges` | packages/agent-kit/src/budget-admission-store.ts:386-394 | a first receipt exchanges the reservation for the amount in the call's month; a conflicting one charges the amount in every month |
| `Admissions.ReceiptTakenExactly` | packages/agent-kit/src/budget-admission-store.ts:381-386 | a receipt is taken exactly for an admitted attempt whose binding and call it repeats |
| `Admissions.VerdictExactly` | packages/agent-kit/src/budget-admission-store.ts:387-395 | the first receipt stands, and when a later one conflicts |
| `Admissions.ReceiptIsOfThePreparedCall` | packages/agent-kit/src/budget-admission-store.ts:381-386 | over any run a receipt that is taken repeats the call the attempt was prepared for |
| `Admissions.SettlementStands` | packages/agent-kit/src/budget-admission-store.ts:391-392 | a settlement on file is never replaced |
| `Admissions.GrantExactly` | packages/agent-kit/src/budget-admission-store.ts:108-118 | when a grant is recorded, and what it changes |
| `Admissions.GrantStands` | packages/agent-kit/src/budget-admission-store.ts:108-118 | a grant is never replaced |
| `Admissions.PermitWorksOnce` | packages/agent-kit/src/budget-admission-store.ts:366-371 | only an acknowledged admission mints a permit, which answers once for its attempt |
| `Receipts.ArrivalsExplained` | packages/agent-kit/src/budget-admission-store.ts:386-394 | what the attempt holds after any history of receipts and marks is what the set of distinct reports says |
| `Receipts.ConflictCoversEveryReport` | packages/agent-kit/src/budget-admission-store.ts:142-151 | a conflict charges exactly the largest of the reservation and every reported amount |
| `Receipts.ReceiptConfluence` | packages/agent-kit/src/budget-admission-store.ts:373-398 | histories with the same distinct reports, in any order, with repeats and marks anywhere, settle or conflict alike and charge the same |
| `Receipts.RunArrives` | packages/agent-kit/src/budget-admission-store.ts:373-398 | after any run of the ledger a charged attempt is what its own arrivals make of it, whatever else happens |
| `Receipts.LedgerConfluence` | packages/agent-kit/src/budget-admission-store.ts:373-398 | two runs that bring one attempt the same distinct reports settle it, put it in conflict and charge it alike |
| `Receipts.SettleIsAnArrival` | packages/agent-kit/src/budget-admission-store.ts:379-398 | the ledger's settle step on a correlated receipt is that arrival on its row |
| `Money.DecimalRoundTrip` | packages/agent-kit/src/budget-admission-store.ts:21-23 | every number of units prints to a decimal that parses back to it |
| `Money.CanonicalIsDecimal` | packages/agent-kit/src/budget-admission-store.ts:16-23 | every accepted amount's canonical form is the decimal of its units, below 10^36 units |
| `Money.DecimalIsCanonical` | packages/agent-kit/src/budget-admission-store.ts:16-23 | what is printed is accepted unchanged, up to 18 integral digits |
| `Money.AcceptedExactly` | packages/agent-kit/src/budget-admission-store.ts:14-17 | the accepted amounts by their shape |
| `Money.UnitsMean` | packages/agent-kit/src/budget-admission-store.ts:21-22 | an amount with k fractional digits is worth its digits times 10^(18-k) units |
| `Pricing.AmountIsExact` | packages/agent-kit/src/gateway-pricing.ts:24-30 | an amount is its exact sum rounded up once, and is "0" exactly for a zero sum |
| `Pricing.ActualAmountIsExact` | packages/agent-kit/src/gateway-pricing.ts:39-48 | every safe-integer usage is priced, within 18 integral digits, at the least number of units that covers the four charges |
| `Pricing.MaximumCoversReviewedUsage` | packages/agent-kit/src/gateway-pricing.ts:31-38 | usage within the reviewed limits never costs more than the maximum liability, which is positive |
| `Pricing.MaximumIsPositive` | packages/agent-kit/src/gateway-pricing.ts:36-37 | a reviewed profile is refused a liability exactly when every rate it can charge is zero |
| `Pricing.PriceIsLeastCover` | packages/agent-kit/src/gateway-pricing.ts:43-47 | the price is the least number of units that covers input, output, cache reads and cache writes at the profile's own rates, cached tokens taken out of OpenAI input |
| `Pricing.MaximumIsAttained` | packages/agent-kit/src/gateway-pricing.ts:33-37 | some usage within the reviewed limits costs exactly the maximum |
| `Pricing.ReviewedReceiptSettles` | packages/agent-kit/src/budget-admission-store.ts:388-394 | with the maximum reserved, the first receipt for reviewed usage settles at its exact cost without conflict |
| `SourceTransaction.OwnedTransaction` | packages/agent-kit/src/console-source-transaction.ts:197-261 | whatever is lost, the outcome is true of the database; a value only after an acknowledged COMMIT; COMMIT is tried exactly when BEGIN was answered and no stage throws or invalidates; a value is returned exactly when its COMMIT is acknowledged and nothing after it fails; what is retired is what the stages that ran invalidated; a connection that may hold an open transaction is destroyed |
| `SourceTransaction.Conduct` | packages/agent-kit/src/console-source-transaction.ts:197-250 | the client's variables agree with the database when its guarded block ends |
| `SourceTransaction.StagesStop` | packages/agent-kit/src/console-source-transaction.ts:201-212 | the stages come through exactly when none of them throws or invalidates |
| `SourceTransaction.CommitAndObserve` | packages/agent-kit/src/console-source-transaction.ts:235-250 | when the COMMIT is acknowledged, when the work is durable and when its value is returned |
| `SourceTransaction.RetireSources` | packages/agent-kit/src/console-source-transaction.ts:213-233 | retirement makes no work durable, and revokes all or none of exactly the retired bindings; its outcomes are true |
| `SourceTransaction.Compensate` | packages/agent-kit/src/console-source-transaction.ts:218-222 | the loop has revoked every retired binding in the open compensation, or stopped |
| `SourceTransaction.Stages` | packages/agent-kit/src/console-source-transaction.ts:201-212 | the guarded block ends as its stages in order say: each until one throws, the hooks and the last guard only while nothing is retired, everything invalidated retired |
| `SourceTransaction.ConsoleSourceTransaction` | packages/agent-kit/src/console-source-transaction.ts:150-262 | a used boundary is refused; over its whole life a boundary is told one outcome if it is used, the true one, and none otherwise |
| `VaultSources.InspectUnion` | packages/agent-kit/src/console-vault-source-history.ts:35-51 | the ordered walk finds any stale capture, and otherwise exactly the permitted new areas and all retained deadlines |
| `VaultSources.PrepareSources` | packages/agent-kit/src/console-vault-source-history.ts:21-55 | invalidated exactly when a retained capture is invalid, whatever is requested; refused exactly for a bad request; otherwise exactly the new areas, once each, in order |
| `VaultSources.CaptureHoldsExactly` | packages/agent-kit/src/console-vault-source-history.ts:40-46 | a capture holds exactly while its area may be used at the same revision, under the same definition, before the expiry it was made with |
| `VaultSources.PermittedExactly` | packages/agent-kit/src/console-vault-source-history.ts:31-34 | when a new area is permitted |
| `VaultSources.BadRequestExactly` | packages/agent-kit/src/console-vault-source-history.ts:30-52 | when a request is refused |
| `VaultSources.SourceCheckedTransaction` | packages/agent-kit/src/console-source-transaction.ts:78-81 | a stale source retires its conversation's binding: nothing durable but revocations, no value, even if the callback swallows the error |
| `OneShot.StepMoves` | images/gateway-runtime/admission_contract.py:393-434 | what any hook can do to the right to dispatch and settle |
| `OneShot.HistoryOf` | images/gateway-runtime/lares_gateway.py:740-781 | after any run the state records where the accepted reply, the send and the receipt are |
| `OneShot.OneSendOneReceipt` | images/gateway-runtime/lares_gateway.py:376-399 | over any run at most one accepted reply, one send, strictly before both deadlines and after that reply, and one receipt, after the send |
| `OneShot.NothingAfterClose` | images/gateway-runtime/lares_gateway.py:700-708 | no send and no receipt after a close, no receipt after a disconnect |
| `OneShotRuns.AcceptedIsAReplyToIt` | images/gateway-runtime/admission_contract.py:415-434 | over any run every accepted reply is allowed, echoes this request field by field, is valid for 1 to 3000 ms and names a permitted key, and is counted from its own request's start |
| `OneShotRuns.ReplyIsAccepted` | images/gateway-runtime/admission_contract.py:415-434 | conversely a captured, awaiting request accepts such a reply and is armed until the earlier deadline |
| `OneShotRuns.SentIsOfThisRequest` | images/gateway-runtime/lares_gateway.py:376-399 | every send follows such a reply, holds the lock of a guarded hook, and carries the agent's key where one was named |
| `OneShotRuns.ReceiptIsOfTheRecord` | images/gateway-runtime/lares_gateway.py:700-708 | every receipt is of the usage the watched stream last ended with |
| `OneShotRuns.OrdinaryRequestSettles` | images/gateway-runtime/lares_gateway.py:740-817 | a request everything goes well for is accepted, sent and settled |
| `OneShotRuns.DeployedExactly` | images/gateway-runtime/lares_gateway.py:783-817 | when a deployment phase is counted |
| `OneShot.RequestState.Burn` | images/gateway-runtime/admission_contract.py:401-405 | the right is consumed exactly when fresh, armed and not dispatched |
| `OneShot.RequestState.PreCallHook` | images/gateway-runtime/lares_gateway.py:740-768 | the pre-call hook asks for admission at most once |
| `OneShot.RequestState.AcceptReply` | images/gateway-runtime/lares_gateway.py:767-774 | the reply that was awaited is taken in once, with the time its request started |
| `OneShot.RequestState.Admit` | images/gateway-runtime/admission_contract.py:415-434 | a reply arms the request exactly when it echoes it, names a permitted key, is short-lived, and the request is still captured |
| `OneShot.RequestState.DeploymentHook` | images/gateway-runtime/lares_gateway.py:783-817 | deployment phases are counted only after admission and before dispatch |
| `OneShot.RequestState.BeforeHttpHook` | images/gateway-runtime/lares_gateway.py:648-681 | a reconnect or retry after the first attempt gets no policy lock |
| `OneShot.RequestState.AcquireLock` | images/gateway-runtime/lares_gateway.py:309-318 | the lock opens for a fresh, admitted, undispatched request that holds none |
| `OneShot.RequestState.CheckLockedRows` | images/gateway-runtime/lares_gateway.py:329-360 | rows that no longer allow the call, or a request no longer fresh, give the lock back |
| `OneShot.RequestState.HandleRequest` | images/gateway-runtime/lares_gateway.py:376-399 | the physical send happens exactly when the policy is held, the key is the selected one and the burn succeeds |
| `OneShot.RequestState.RecordUsage` | images/gateway-runtime/lares_gateway.py:412-434 | usage is recorded for a dispatched request only |
| `OneShot.RequestState.SettleOnce` | images/gateway-runtime/lares_gateway.py:700-708 | one receipt, for recorded usage, never after close, cancel or an earlier receipt |
| `OneShot.RequestState.ClientDisconnects` | images/gateway-runtime/lares_gateway.py:983-983 | a disconnect cancels |
| `OneShot.RequestState.CloseRequest` | images/gateway-runtime/admission_contract.py:407-410 | closing is irreversible, drops the held lock and clears the selected key |
| `UsageGrammar.AnthropicResult` | images/gateway-runtime/admission_contract.py:543-570 | usage comes out exactly for message_start, partial documents with outputs that never fall, one final delta, one message_stop and no more |
| `UsageGrammar.AnthropicOutputIsMaximum` | images/gateway-runtime/admission_contract.py:555-564 | the output charged is the largest any document reported |
| `UsageGrammar.OpenAiResult` | images/gateway-runtime/admission_contract.py:571-592 | usage comes out exactly for one id throughout, one finish with no choice after it, and one report not before the finish |
| `TerminalEvidence.TerminalGrammar` | images/gateway-runtime/admission_contract.py:540-592 | the same characterisation over whole JSON documents, for both paths |
| `TerminalEvidence.PoisonIsPermanent` | images/gateway-runtime/admission_contract.py:540-542 | once poisoned, no later document brings usage back |
| `TerminalEvidence.OpenAiUsage` | images/gateway-runtime/admission_contract.py:490-500 | cached tokens never exceed the input and nothing is written to the cache |
| `TerminalEvidence.EmbeddingUsage` | images/gateway-runtime/admission_contract.py:507-514 | an embedding has input tokens only |
| `UsageDocuments.AnthropicUsageExactly` | images/gateway-runtime/admission_contract.py:502-505 | each count under its own name, cache counts zero when absent |
| `UsageDocuments.OpenAiUsageExactly` | images/gateway-runtime/admission_contract.py:490-500 | prompt and completion make the total, and the cached part of the prompt |
| `UsageDocuments.EmbeddingUsageExactly` | images/gateway-runtime/admission_contract.py:507-514 | prompt tokens alone make the total |
| `UsageDocuments.MessageExactly` | images/gateway-runtime/admission_contract.py:532-534 | which complete message has which usage |
| `UsageDocuments.ChatExactly` | images/gateway-runtime/admission_contract.py:535-537 | which complete chat has which usage |
| `UsageDocuments.EmbeddingsExactly` | images/gateway-runtime/admission_contract.py:524-530 | which embedding response has which usage |
| `UsageDocuments.StartExactly` | images/gateway-runtime/admission_contract.py:546-554 | which document starts a message |
| `UsageDocuments.DeltaExactly` | images/gateway-runtime/admission_contract.py:555-564 | which document is a delta, and which the final one |
| `UsageDocuments.ChunkExactly` | images/gateway-runtime/admission_contract.py:572-588 | which document is a chunk, with which choice and usage |
| `UsageDocuments.WrittenStreamMeans` | images/gateway-runtime/admission_contract.py:543-570 | a message stream written by the provider means its usage |
| `TerminalEvidence.Reader.FeedDocument` | images/gateway-runtime/admission_contract.py:540-589 | the mutable reader takes exactly the grammar's step |
| `TerminalEvidence.Reader.FeedAnthropic` | images/gateway-runtime/admission_contract.py:543-570 | the field updates for an Anthropic document are the grammar's step |
| `TerminalEvidence.Reader.FeedOpenAi` | images/gateway-runtime/admission_contract.py:571-588 | the field updates for an OpenAI document are the grammar's step |
| `TerminalEvidence.Reader.FinalUsage` | images/gateway-runtime/admission_contract.py:591-592 | the result read from the fields is the grammar's result |
| `LineEndings.NormalIncremental` | images/gateway-runtime/admission_contract.py:616-616 | normalising a normalised buffer plus new bytes is normalising the whole, without CR CR LF |
| `LineEndings.NormalLeavesCrLf` | images/gateway-runtime/admission_contract.py:616-616 | a CR LF is left over exactly where a CR CR LF was |
| `LineEndings.CutsAgreeExactly` | images/gateway-runtime/admission_contract.py:614-616 | every cut, empty pieces included, leaves the same text exactly when there is no CR CR LF |
| `LineEndings.ProperCutsAgreeExactly` | images/gateway-runtime/admission_contract.py:614-616 | every cut into two pieces that are not empty does so exactly when no byte follows a CR CR LF |
| `EventStream.DrainContinues` | images/gateway-runtime/admission_contract.py:618-619 | what was drained does not depend on what follows |
| `EventStream.ChunkingIndependence` | images/gateway-runtime/admission_contract.py:609-632 | for any event handler, any chunking of a stream without CR CR LF ends in the same buffer and state, limit included |
| `WireEvidence.ChunkingDoesNotMatter` | images/gateway-runtime/admission_contract.py:609-640 | any chunking of a response without CR CR LF proves the same usage: size limit, cut CR LF pairs and [DONE] included |
| `WireEvidence.CrCrLfMatters` | images/gateway-runtime/admission_contract.py:616-626 | an accepted chat stream whose marker ends in CR CR LF proves its usage when cut before the last LF and nothing uncut |
| `Chunkings.ChunkingsAgreeExactly` | images/gateway-runtime/admission_contract.py:609-632 | the reader's buffer and event log are the same under all chunkings exactly for a stream over the limit or without CR CR LF |
| `Chunkings.ProperChunkingsAgreeExactly` | images/gateway-runtime/admission_contract.py:609-632 | under all chunkings without an empty chunk, exactly for one over the limit or with no byte after a CR CR LF |
| `Chunkings.ProperChunkingIndependence` | images/gateway-runtime/admission_contract.py:609-632 | for such a stream and such chunks any event handler ends in the same buffer and state |
| `Chunkings.ProperChunkingDoesNotMatter` | images/gateway-runtime/admission_contract.py:609-640 | and any response proves the same usage |
| `Chunkings.ChunkingsDiffer` | images/gateway-runtime/admission_contract.py:609-640 | from a fresh reader, any one-document chat response closed by CR CR LF: three chunks prove a usage, two of the same bytes none |
| `Chunkings.OneResponseTwoReadings` | images/gateway-runtime/admission_contract.py:609-640 | one such response, byte by byte |
| `WireEvidence.WireReader.FeedRaw` | images/gateway-runtime/admission_contract.py:609-632 | feeding bytes is exactly the specified step |
| `WireEvidence.WireReader.DrainBuffer` | images/gateway-runtime/admission_contract.py:617-632 | the loop handles exactly the complete events, and a refusal drops the buffer |
| `WireEvidence.WireReader.HandlePayload` | images/gateway-runtime/admission_contract.py:622-630 | one payload: [DONE] once and only after usage on the chat path, else a document |
| `WireEvidence.WireReader.Finish` | images/gateway-runtime/admission_contract.py:634-640 | the usage the whole response proves |
| `WireObservation.Observe` | images/gateway-runtime/lares_gateway.py:412-434 | a whole stream is judged by all its bytes whichever chunk showed the marker; a failed one proves nothing; no client sees the marker before the usage is recorded; proven streams pass on whole |
| `WireObservation.DrainTail` | images/gateway-runtime/lares_gateway.py:417-430 | the tail is read to the end, or the evidence is poisoned |
| `WireObservation.RecordedUsageIsOfTheBytes` | images/gateway-runtime/lares_gateway.py:412-434 | the recorded usage depends on the bytes, not on their chunks |
| `ResponseGrammar.UsageProvenExactly` | images/gateway-runtime/admission_contract.py:596-640 | a response without CR CR LF proves usage u, in any chunks, exactly when its status, type and size are accepted and it is a complete document with u, or a stream whose events' payloads say u in the full grammar, a chat closed by one last marker, and only blanks remain |
| `ResponseGrammar.SplitIsEvents` | images/gateway-runtime/admission_contract.py:618-619 | there is one way to split a text into events at its blank lines |
| `ResponseGrammar.DrainFolds` | images/gateway-runtime/admission_contract.py:617-632 | the reader hands exactly those events to its handler in turn |
| `ResponseGrammar.LinesJoin` | images/gateway-runtime/admission_contract.py:620-623 | splitting an event at line feeds and joining give it back |
| `ResponseGrammar.DataLineMeans` | images/gateway-runtime/admission_contract.py:620-620 | which lines are data, and what their value is |
| `ResponseGrammar.WrittenStreamProves` | images/gateway-runtime/admission_contract.py:609-640 | payloads written as events, in any chunks, prove exactly the usage they say |
| `ResponseGrammar.UnclosedChatProvesNothing` | images/gateway-runtime/admission_contract.py:637-637 | a chat that ends before its marker proves nothing |
| `PricedEvidence.ProvenUsageIsShaped` | images/gateway-runtime/admission_contract.py:485-519 | every usage any response proves has safe counts in the shape of its format |
| `PricedEvidence.ProvenUsageIsPriced` | packages/agent-kit/src/gateway-pricing.ts:39-48 | every proven usage is priced under the profile of its format, overages included |
| `PricedEvidence.ProvenUsageSettles` | packages/agent-kit/src/budget-admission-store.ts:379-398 | from bytes to ledger: within the reviewed limits the first receipt settles at the exact cost |
| `CanonicalJson.PrintsAlikeExactly` | packages/agent-kit/src/approval-ledger.ts:104-117 | two values print alike exactly when they are the same call: lists in order, records in any order, undefined as null |
| `CanonicalJson.PrintUnique` | packages/agent-kit/src/approval-ledger.ts:104-117 | where two printed values agree up to what follows, they are the same value and the same text follows |
| `CanonicalJson.QuoteUnique` | packages/agent-kit/src/approval-ledger.ts:106-106 | a quoted string, escapes and lone surrogates included, is read back whole |
| `CanonicalJson.SamePrints` | packages/agent-kit/src/approval-ledger.ts:112-117 | the same call prints alike whatever order its keys were built in |
| `CanonicalJson.SortedUnique` | packages/agent-kit/src/approval-ledger.ts:112-112 | only one order of a record's entries is sorted by code units |
| `CanonicalJson.PrintScans` | packages/agent-kit/src/approval-ledger.ts:104-117 | a printed value closes its strings and has spaces only inside them |
| `CanonicalJson.PreImageBinds` | packages/agent-kit/src/approval-ledger.ts:121-123 | the hashed text decides tool and input, whatever characters the tool name holds |
| `JsonReading.PrintSays` | packages/agent-kit/src/approval-ledger.ts:104-117 | what is printed is JSON by the rules of RFC 8259 that says the value it came from, keys ascending by code unit |
| `JsonReading.EscapedReads` | packages/agent-kit/src/approval-ledger.ts:106-106 | the escapes of section 7 read every string back |
| `JsonReading.PrintIsWellFormed` | packages/agent-kit/src/approval-ledger.ts:104-123 | the printed text holds no lone surrogate, whatever the value's strings hold |
| `Approvals.RunAdvances` | packages/agent-kit/src/approval-ledger.ts:161-196 | under any interleaving of all writers: outcomes move only unanswered, approved, terminal; answered moment set with the outcome and never changed; request id, place, payload and first reservation never change; rows and their unique ids are kept |
| `Approvals.AssignedAdvances` | packages/agent-kit/src/approval-execution.ts:158-161 | each UPDATE, on each row it matches, is such a move |
| `Approvals.FirstAnswerStands` | packages/agent-kit/src/approval-ledger.ts:183-196 | the first answer stands through any later writes; an approval is overtaken only by age or a changed payload |
| `Approvals.PassedCallWasShown` | packages/agent-kit/src/approval-ledger.ts:343-396 | a call passes exactly on a standing, young enough card that was shown this very tool and input |
| `Approvals.ExecutedCallWasReserved` | packages/agent-kit/src/approval-execution.ts:165-182 | an exact call runs only as reserved, before the first expiry, on that member's approval |
| `Approvals.WithdrawnNeverPasses` | packages/agent-kit/src/approval-ledger.ts:362-369 | a card settled against the call refuses it in every later state, for the same reason |
| `Approvals.RefusalExactly` | packages/agent-kit/src/approval-ledger.ts:362-379 | why a call is refused, in which order of precedence |
| `Approvals.InsertLands` | packages/agent-kit/src/approval-ledger.ts:166-171 | a card is recorded exactly when neither its call nor its request is known, unanswered |
| `Approvals.AnswerLands` | packages/agent-kit/src/approval-ledger.ts:188-192 | the recorder answers an unanswered card without an exact reservation, and no other |
| `Approvals.StaleLands` | packages/agent-kit/src/approval-ledger.ts:416-421 | a stale verdict lands on any unanswered or approved card and keeps the moment of the answer |
| `Approvals.ExactRefusalLands` | packages/agent-kit/src/approval-execution.ts:199-200 | a refusal lands on a standing reserved card |
| `Approvals.UseLands` | packages/agent-kit/src/approval-ledger.ts:428-433 | a pass is counted and keeps the first use's moment |
| `Approvals.PersonalApprovalLands` | services/chief-of-staff/lib/personal-send-approval.ts:57-59 | a personal approval lands on an unanswered card, and again only for its member |
| `Approvals.PersonalRefusalLands` | packages/agent-kit/src/personal-action-store.ts:240-252 | a personal cancellation lands on a standing reserved card |
| `Approvals.ClaimLands` | services/keeper/lib/vault-console-broker.ts:190-192 | a claim lands on an approved card not used yet |
| `Approvals.ClaimedOnce` | services/keeper/lib/vault-console-broker.ts:190-192 | an approval is claimed for use at most once, whatever is written afterwards |
| `Approvals.Ledger.AttachPersonal` | packages/agent-kit/src/personal-action-store.ts:149-159 | attaches a personal card's request id once, under its own checks |
| `Approvals.Ledger.RecordAsk` | packages/agent-kit/src/approval-ledger.ts:161-175 | inserts an unanswered row unless its call or request is known |
| `Approvals.Ledger.Answered` | packages/agent-kit/src/approval-ledger.ts:183-196 | is the guarded answer statement |
| `Approvals.Ledger.AssertApprovedCall` | packages/agent-kit/src/approval-ledger.ts:343-396 | decides by the row as read; failed writes never turn a refusal into a pass; a stale or changed card is settled so |
| `Approvals.Ledger.SettleQuietly` | packages/agent-kit/src/approval-ledger.ts:414-425 | writes expired or payload-changed over a standing row only |
| `Approvals.Ledger.MarkUsedQuietly` | packages/agent-kit/src/approval-ledger.ts:426-441 | counts a use and keeps the first use's moment |
| `Approvals.Ledger.RecordWithSession` | packages/agent-kit/src/approval-supersede-hook.ts:78-92 | inserts, then fills the place of a row that had none |
| `Approvals.Ledger.SettleAsRevised` | packages/agent-kit/src/approval-supersede-hook.ts:115-122 | withdraws an unanswered card, and says whether it did |
| `Approvals.Ledger.Reserve` | packages/agent-kit/src/approval-execution.ts:107-125 | the first reservation is never rewritten; a retry succeeds exactly with the same terms on the same unanswered call before the first expiry |
| `Approvals.Ledger.AttachExact` | packages/agent-kit/src/approval-execution.ts:135-141 | attaches a request id once, to the call it shows, and never a second call's id |
| `Approvals.Ledger.ApproveResponse` | packages/agent-kit/src/approval-execution.ts:147-163 | approves exactly the reserved, attached, standing call; afterwards that call may execute, and no other row moved |
| `Approvals.Ledger.SettleExactInput` | packages/agent-kit/src/approval-execution.ts:197-201 | only the three refusals settle a reserved call |
| `Supersede.SelectMeans` | packages/agent-kit/src/approval-supersede.ts:41-50 | selects exactly the open cards of the same tool, an earlier turn and a target that does not differ |
| `Supersede.Collect` | packages/agent-kit/src/approval-supersede-hook.ts:184-203 | the asks are exactly the tool approvals with all their names, in order |
| `Supersede.AsksExactly` | packages/agent-kit/src/approval-supersede-hook.ts:185-202 | which requests become asks, with which fingerprint and target |
| `Supersede.OpenAsks` | packages/agent-kit/src/approval-supersede-hook.ts:94-113 | lists exactly the session's unanswered cards that do not arrive |
| `Supersede.OnInputRequested` | packages/agent-kit/src/approval-supersede-hook.ts:174-235 | records every arriving card, then cancels exactly the cards some arriving card replaces |
| `Supersede.WithdrawSelected` | packages/agent-kit/src/approval-supersede-hook.ts:222-235 | the nested loops withdraw each selected card once |
| `RequestedEvents.AttachRequested` | packages/agent-kit/src/approval-record-hook.ts:77-117 | on a console turn every approval request gets its row's request id, or the first refusal ends the turn |
| `RequestedEvents.AllRecorded` | packages/agent-kit/src/approval-supersede-hook.ts:206-212 | what the ledger holds for each arriving card after recording |
| `RequestedEvents.HooksCommute` | packages/agent-kit/src/approval-execution.ts:135-141 | wherever the attaches fall among the superseding hook's steps, the event leaves the ledger as if they came first |
| `OneTurnRuns.ArrivingRow` | packages/agent-kit/src/approval-execution.ts:118-120 | which arriving cards are open after recording and attaching, and with which turn and target |
| `OneTurnRuns.OneTurnExactly` | packages/agent-kit/src/approval-supersede-hook.ts:184-235 | with turns that do not go back, an event with its attaches keeps one turn per kind of card exactly unless it mixes or strands, both read off the ledger before it |
| `OneTurnRuns.StrandingMeans` | packages/agent-kit/src/approval-execution.ts:118-120 | for a card reserved in this turn, the stranded card is an older listed one of the tool whose target differs from every arriving ask's |
| `OneTurnRuns.MixedEventLeavesBoth` | packages/agent-kit/src/approval-supersede-hook.ts:94-113 | a concrete event whose returning card leaves both open |
| `OneTurnRuns.StrandedEventLeavesBoth` | packages/agent-kit/src/approval-execution.ts:118-120 | a concrete reserved card that leaves an older one open, in either order of the hooks |
| `OneTurnRuns.OneTurnOverRuns` | packages/agent-kit/src/approval-supersede.ts:41-50 | over runs of events, attaches and other writers the invariant holds in every state exactly when no event mixes or strands |
| `OneTurnRuns.SupersededNeverPasses` | packages/agent-kit/src/approval-ledger.ts:362-369 | a replaced card is withdrawn wherever the attaches fall, stays cancelled as revised, and never passes or executes later |
| `OneTurnRuns.WithdrawnExactly` | packages/agent-kit/src/approval-supersede.ts:41-50 | an open card is withdrawn exactly by an event of its session with a card of its tool from a later turn that does not differ in target; otherwise it stays as it was |
| `OneTurnRuns.OthersUnanswered` | packages/agent-kit/src/approval-supersede-hook.ts:206-235 | an event answers no card that arrives and none answered already |
| `AccountTickets.PersistResources` | packages/agent-kit/src/account-store.ts:174-190 | the loop binds what is presented, or refuses a dropped resource |
| `AccountTickets.PersistLeavesPresented` | packages/agent-kit/src/account-store.ts:174-190 | of every presented kind exactly the presented resources are bound; binding ids and everything else are kept |
| `AccountTickets.UpsertAllBinds` | packages/agent-kit/src/account-store.ts:185-189 | what is bound, under which id and owner, and with the last presented label |
| `AccountTickets.CountersCount` | packages/agent-kit/src/account-store.ts:113-124 | both counters advance together, once per committed change and for nothing else, over any interleaving |
| `AccountTickets.TicketStaysExactly` | packages/agent-kit/src/account-store.ts:87-93 | a ticket is current exactly when no change of its account committed since |
| `AccountTickets.OneCommitPerTicket` | packages/agent-kit/src/account-store.ts:194-232 | of all renewals, replacements and status changes on one ticket at most one commits |
| `AccountTickets.SelectionNeverReturns` | packages/agent-kit/src/account-store.ts:135-148 | a selection never resolves after a later change of its account |
| `AccountTickets.StatusChangeExactly` | packages/agent-kit/src/account-store.ts:113-124 | when a status change commits, and the status, reason and counters it writes |
| `AccountTickets.RenewalExactly` | packages/agent-kit/src/account-store.ts:207-230 | when a renewal commits, and the account and bindings it leaves |
| `AccountTickets.ReplacementExactly` | packages/agent-kit/src/account-store.ts:207-223 | when a replacement commits, and the two accounts it leaves |
| `AccountTickets.CreationExactly` | packages/agent-kit/src/account-store.ts:244-252 | when a creation commits, and what it leaves |
| `AccountTickets.BoundResourceResolves` | packages/agent-kit/src/account-store.ts:267-277 | a bound resource of a working account can be selected at once |
| `AccountTickets.StatusIsTheLastChange` | packages/agent-kit/src/account-store.ts:113-124 | after any interleaving the status is that of the last committed change |
| `AccountTickets.Store.BeginUpdate` | packages/agent-kit/src/account-store.ts:106-112 | hands out a ticket that is current as it is taken |
| `AccountTickets.Store.ChangeStatus` | packages/agent-kit/src/account-store.ts:113-124 | commits exactly on a current ticket and advances both counters |
| `AccountTickets.Store.MayStart` | packages/agent-kit/src/account-store.ts:199-203 | no provider work for a stale ticket or another connector |
| `AccountTickets.Store.FinishRenew` | packages/agent-kit/src/account-store.ts:207-232 | renews the same identity on a current ticket, with its resources, or changes nothing |
| `AccountTickets.Store.FinishReplace` | packages/agent-kit/src/account-store.ts:207-223 | revokes the old account and creates the new one on a current ticket, or changes nothing |
| `AccountTickets.Store.FinishCreate` | packages/agent-kit/src/account-store.ts:244-253 | creates an account of an identity not connected yet, with its resources, or changes nothing |
| `AccountTickets.Store.FinishBind` | packages/agent-kit/src/account-store.ts:267-277 | binds one more resource on a current ticket of a working account, and moves no counter |
| `SignalWalk.CollectSignals` | packages/agent-kit/src/gateway-budget.ts:211-260 | ends on every finite graph, cycles included, and collects exactly the types, messages and statuses reachable through carriers and JSON text |
| `SignalWalk.NamedFieldsCount` | packages/agent-kit/src/gateway-budget.ts:236-256 | every named field of a reachable object shows its signal or is reached |
| `SignalWalk.CarriedWeight` | packages/agent-kit/src/gateway-budget.ts:252-257 | what a parsed object queues weighs less than the object, which makes the walk end |
| `SignalWalk.Visit` | packages/agent-kit/src/gateway-budget.ts:230-257 | what one node shows and what hangs from it |
| `SignalWalk.IsBudgetExceeded` | packages/agent-kit/src/gateway-budget.ts:281-295 | true exactly when a marker is reachable and, if any status is, a 400 or 429 is |
| `SignalWalk.IsBudgetAdmissionRefused` | packages/agent-kit/src/gateway-budget.ts:311-314 | true exactly when the refusal type is reachable and every reachable status is 400 |
| `Paging.BoundText` | packages/agent-kit/src/bounded-text.ts:33-76 | the page, its offsets and its notes; range errors and offsets past the end included |
| `Paging.NextIsLater` | packages/agent-kit/src/bounded-text.ts:54-72 | from any offset the next offset is later |
| `Paging.PageIsWhole` | packages/agent-kit/src/bounded-text.ts:52-62 | with a limit of two or more no page starts or ends inside a pair |
| `Paging.PageIsFull` | packages/agent-kit/src/bounded-text.ts:53-63 | a page runs to the end or to the limit, one short only behind a high surrogate |
| `Paging.LosslessFromTwo` | packages/agent-kit/src/bounded-text.ts:33-76 | with a limit of two or more the pages of every text are that text, no pair split |
| `Paging.LosslessAtOne` | packages/agent-kit/src/bounded-text.ts:59-62 | with a limit of one, lossless and splitting no pair exactly when every run of high surrogates before a low one is odd, as in every well-formed text |
| `Paging.TwoHighsRepeat` | packages/agent-kit/src/bounded-text.ts:59-62 | two high surrogates and a low one read back as four units |

## Left out

- SQL text, pool handling, query timeouts and real clocks: each locked transaction or statement is one atomic step and time is an input.
- SHA-256, HMAC, signatures and AES: a hash stands for what it hashes; the UTF-8 encoding of the hashed text is not modelled.
- BudgetStore.Store.Prepare: the three prepare operations differ in how they obtain authority; the authority reads themselves are inputs, and the unique invocation hash is given.
- BudgetStore.Store.AdmitTicket: the reset date in a limit denial and the provider key carried by the permit are not modelled.
- BudgetStore.Store.Settle: the conflict hash column is not modelled; it is written and never read by the ledger.
- LedgerSafety.CapsHoldOverRuns: writers outside the store (provisioning, policy changes, erasure) are any change that keeps attempts, lowers no cap within a month, opens new windows within the cap, reopens no frozen or retired installation, and revokes or erases a binding but never changes it (the database's own guard, services/box/sql/011_budget_admission.sql:121-124).
- readStatus, discoverGatewayTicket and gatewaySettlement: reads that change nothing.
- SourceTransaction.OwnedTransaction: a nested call on a client that is already owned runs its callback only, and is not modelled; neither is the per-statement time limit.
- VaultSources.PrepareSources: locale-aware ordering is a rank parameter; the area and grant stores are inputs.
- OneShot: LiteLLM's own callback and router validation, diagnostics and the denial sentence; key files and the locked rows' contents are booleans.
- WireEvidence: the strict JSON parser is a parameter, and the content type is already classified.
- CanonicalJson.PrintsAlikeExactly: trees with integer numbers that print in plain decimal; fractions, exponents, functions, and nodes shared or cyclic (printed as a marker string) are not modelled.
- Approvals: deletion of rows with their member; the personal store's own rows and the services' further conditions on a claim are inputs.
- Approvals.Ledger.ApproveResponse: the session, policy and target reads are booleans.
- Supersede.OnInputRequested: every write reaches the database, the order of the listed cards is open, and the cancel call to the agent's own route is not modelled.
- OneTurnRuns.OneTurnExactly: each request id names one card, with its tool and its target where the row holds one; a call asked before under another request id keeps its row.
- RequestedEvents.AttachRequested: an ordinary turn only inserts rows without a place, which is the statement of Approvals.Ledger.RecordAsk.
- Target extraction from a tool's input (`approvalTarget`): a function parameter, since it only reads fields.
- AccountTickets: credential custody is a boolean, provider verification an input; list, read and the point-of-use credential callback change nothing and are not modelled.
- SignalWalk.CollectSignals: the JSON reader is a parameter of which only "JSON text is never shorter than what it says" is assumed.
- The wording of refusals, cards and failure answers, the deadline, delivery, catalogue, grant and definition stores: easier than the above or resting on code outside this model.
