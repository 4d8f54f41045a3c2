# A verified model of a local memory and agent runtime

This Dafny project models the state machines of a local memory and agent runtime that is built on append-only
stores, and proves what its protocols keep. `dafny verify dfyconfig.toml` checks everything.

| modules | what they model |
|---|---|
| Memory, MemoryInvariant, MemorySync, MemorySweep, MemoryReview, MemoryRuns, MemoryChains, MemoryCycles, MemoryCounterexamples, MemoryRepository | the product memory repository: five tables, synchronisation with rename detection, reviews with supersession, over every run |
| Retrieval, Context, Recall, RecallCounterexamples, Explain | ranking, context compilation under a token budget, the project memory tools |
| Events, EventContracts, Payloads, Targets, Ledger, Runs, Crockford | event contracts with payload bounds and canonical sizes, portable targets, the append-only ledger, run reconstruction, derived identities |
| Broker, Protocol, ProtocolWorld, ProtocolShape, ProtocolLedger, ProtocolSteps, ProtocolSafety, ProtocolRuns, ProtocolProgress, ProtocolDecisions, ProtocolAbandoned, ProtocolCounterexamples, ContextCounterexamples | the chat and capability services as step programs that may stop anywhere, what they keep, when they complete, and the single-use grant broker |
| Artifacts, Imports, ImportCounterexamples, Proposals, ProposalCounterexamples, Workspace | content-addressed storage, governed imports, proposal decisions, workspace export and restore |
| Wrappers, Relational | results and tables |

Objects that the source updates in place are classes here (`MemoryRepository.Repository`, `Ledger.EventStore`,
`Broker.GrantStore`, `Artifacts.ArtifactStore`, `Imports.ImportService`, `Workspace.Volume`); their methods are proved
equal to functions on values, and the lemmas are about those functions. The two agent services are modelled as a state
machine over the steps between which a process can stop.

Hashes are modelled by what they hash, so equal digests mean equal contents, and derived identities are pairs of a
request and a purpose. Transactions are atomic and serialisable. Clocks, providers, file contents and file-system
failures are parameters that may take any value. New random ids are assumed unused, a snapshot lists a path once, and
handlers of one run are serialised, while grant claims, other runs and other writers interleave freely.

## Where the code does less than its documentation suggests

For each of these there are an exact condition and, after the semicolon, a state or an input that shows it.

- An answer the provider contract allows but no event can carry (longer than 16,384 characters, more than 64
  citations, or over 64 KiB in canonical form) is lost after the provider was asked, and its run stays pending for ever
  (`EventContracts.AnswerFitsExactly`, `ProtocolProgress.UnhinderedCallCompletes`;
  `ProtocolCounterexamples.LongAnswerStrands`, `ManyCitationsStrand`). A model name of more than 128 characters ends a
  call before any event is stored (`ProtocolProgress.PreparableExactly`, `UnpreparableCallEnds`;
  `ProtocolCounterexamples.LongModelNameIsRefused`).
- The grant contract is stricter than the tool request (extension pattern, device names); an approved target it refuses
  leaves its run at the approval for ever (`ProtocolDecisions.GrantIsReachedExactly`;
  `ProtocolCounterexamples.RefusedTargetsStrand`).
- When a selected content is superseded or changed before the follow-up call, the approved and read run stays at its
  observation for ever (`ProtocolDecisions.ContextIsReachedExactly`, `StaleContextStrandsExactly`;
  `ContextCounterexamples.SupersededContextStrands`).
- A decision call that raised after its decision was stored raises another error when it is retried, unless the last
  event of its run is a failed tool (`ProtocolRuns.DecisionRetryRaisesExactly`, `ProtocolDecisions.LoopIsRetried`;
  `ProtocolCounterexamples.FailedFollowupIsRetried`).
- An accepted run can lack a context (`Runs.HasContextExactly`; `Runs.ContextCanBeSkipped`), and the acceptor alone
  bounds no tool calls (`Runs.CallCounts`; `Runs.AnyNumberOfToolCalls`).
- Superseding is acyclic on revisions but not on record ids once a synchronisation changes content
  (`MemoryCycles.ReviewClosesCycleExactly`; `MemoryCounterexamples.ReplacementsCanReturnToARecord`).
- One note whose title or body is empty or too long for a record fails the synchronisation of its whole source
  (`MemoryRuns.SyncSucceedsExactly`; `MemoryCounterexamples.OneNoteFailsAll`).
- A note that vanished and came back unchanged is selected by recall and explained as missing
  (`Explain.AgreesExactly`; `Explain.ReturnedNoteIsExplainedAsMissing`).
- Recall raises for a selected record of more than 16 domains or 65,536 characters, which creation and review accept,
  and for request ids whose time is past the calendar (`Recall.RecallFailsExactly`, `Crockford.TimeIsDefinedExactly`;
  `RecallCounterexamples`).
- The greedy budget is not monotone (`Context.BudgetIsMonotoneExactly`; `Context.BudgetIsNotMonotone`).
- An import found under another spelling of its name, or one whose derived association key a client used itself, is
  not replayed but reported as a conflict (`Imports.SuccessReplaysExactly`; `ImportCounterexamples`), and so is one that
  could not be read (`Imports.UnreadableConflicts`; `ImportCounterexamples.UnreadableFileConflicts`).
- A request time whose offset has seconds passes the transport contract and raises in an import or a decision
  (`Imports.ImportSucceedsExactly`, `Proposals.DecisionEventIsValid`; `ImportCounterexamples.SecondsInOffsetRaise`,
  `ProposalCounterexamples.SecondsInOffsetRaise`).
- One review without a readable decision, or one pending proposal without a usable target, makes the projection of all
  proposals fail (`Proposals.AppendBreaksExactly`; `ProposalCounterexamples.OneEventBreaksAll`). The services write no
  such event; only a direct writer of the ledger can.
- A leftover temporary file in the artifact directory, or a stored text that holds a path of the host, blocks every
  later export (`Workspace.LeftoverBlocks`, `Workspace.HostPathBlocks`; `Workspace.BlockedWorkspaces`).

## Model

| member | source | states |
|---|---|---|
| MemoryRuns.After | src/oscillink_agent/memory/repository.py:241-744 | Every state that any interleaving of creations, synchronisations and reviews reaches is consistent: stored authority is candidate or curated, every current record is a stored revision, bindings and Obsidian records are in bijection, the decisions on each revision are none, approved, rejected, or approved then superseded, and review and sync keys and event ids are unique. |
| MemoryRuns.ApplyKeeps | src/oscillink_agent/memory/repository.py:286-318 | One transaction of any kind, accepted or rolled back, keeps that consistency. |
| MemoryRuns.CreateOutcome | src/oscillink_agent/memory/repository.py:241-318 | A creation adds exactly one candidate and its first revision, or changes nothing; a body outside the bounds of the record contract changes nothing. |
| MemoryRuns.SyncOutcome | src/oscillink_agent/memory/repository.py:342-368 | An accepted synchronisation repeats a logged one and changes nothing, or is logged under a new key and event with the counts of its loop and its sweep. |
| MemoryRuns.SyncSucceedsExactly | src/oscillink_agent/memory/repository.py:342-550 | In any reachable store a synchronisation succeeds exactly when its key is portable and it repeats a logged row, or its key and event are new and every note makes a record; it changes the store exactly in the second case, and a new one with a note that makes no record fails as a whole. |
| MemoryRuns.SyncReplay | src/oscillink_agent/memory/repository.py:381-407 | A key that is logged already changes no table; it is accepted exactly when event, source and snapshot are those logged, and reports the logged counts and the current records of the source. |
| MemorySync.IdentifyExact | src/oscillink_agent/memory/repository.py:422-448 | A note keeps the identity bound to its path; at a new path it takes over an identity exactly when one vanished place, and no other, is bound to its content hash; otherwise it gets a new one. |
| MemorySync.BoundOnce | src/oscillink_agent/memory/repository.py:487-500 | No record is bound at two places. |
| MemorySync.SyncNoteKeeps | src/oscillink_agent/memory/repository.py:420-501 | One round of the rename loop keeps bindings and Obsidian records in bijection, with equal source key, locator and content hash. |
| MemorySync.RoundsKeep | src/oscillink_agent/memory/repository.py:420-501 | After every number of rounds the tables are consistent, each note was counted once as created, revised or unchanged, and the record count grew by the created ones. |
| MemorySync.RoundsFound | src/oscillink_agent/memory/repository.py:463-501 | After n rounds each of the first n notes is bound to a record that says exactly what the note says. |
| MemorySync.RoundsElsewhere | src/oscillink_agent/memory/repository.py:487-500 | Places outside the notes seen so far keep their binding and their record. |
| MemorySync.RoundsIdentities | src/oscillink_agent/memory/repository.py:422-448 | A place the snapshot still has, or of another source, keeps its record identity. |
| MemorySync.RoundsLoseNone | src/oscillink_agent/memory/repository.py:420-501 | No record or stored revision is lost, and records of native origin or of other sources are unchanged. |
| MemorySweep.SweepReaches | src/oscillink_agent/memory/repository.py:502-523 | The sweep marks exactly the records bound at lapsed places, counts those not marked before, and touches nothing else. |
| MemorySweep.SyncReflects | src/oscillink_agent/memory/repository.py:414-523 | After a synchronisation every note is found as it is, and every lapsed place holds its old record with only the status changed to missing. |
| MemorySweep.SyncFrames | src/oscillink_agent/memory/repository.py:414-523 | The whole transaction loses no record, keeps identities of remaining places and of other sources, and leaves the review log alone. |
| MemorySweep.SyncAccounts | src/oscillink_agent/memory/repository.py:416-419 | created + revised + unchanged is the number of notes, the record count grows by created, and missing counts the lapsed records not yet marked. |
| MemorySweep.SyncIdempotent | src/oscillink_agent/memory/repository.py:414-550 | The same snapshot once more leaves records, revisions and bindings unchanged and reports created 0, revised 0, missing 0 and every note unchanged. |
| MemoryReview.LatestIsLastDecision | src/oscillink_agent/memory/repository.py:585-608 | The review found for a revision is the last decision logged for it. |
| MemoryReview.AuthorityIsLastDecision | src/oscillink_agent/memory/repository.py:724-744 | A record is read under its stored authority until it is decided, and then under its last decision. |
| MemoryReview.ReviewOutcome | src/oscillink_agent/memory/repository.py:642-719 | An accepted review repeats a logged row, or adds one row under a new key and event after an allowed transition. |
| MemoryReview.ReviewKeeps | src/oscillink_agent/memory/repository.py:642-722 | A review keeps every invariant of the tables. |
| MemoryReview.StaysGoverned | src/oscillink_agent/memory/repository.py:675-703 | A decision is accepted only where it continues the decisions on its revision: approved or rejected first, superseded only after approved. |
| MemoryReview.NewRowOk | src/oscillink_agent/memory/repository.py:688-703 | A superseding review replaces an approved revision by another record that is approved at that moment. |
| MemoryReview.ReplayAddsNothing | src/oscillink_agent/memory/repository.py:655-674 | A review whose key is logged adds no row; it is accepted exactly when the logged row is the one the request would log against the current content. |
| MemoryReview.ReplacedLater | src/oscillink_agent/memory/repository.py:675-722 | A revision is replaced only after it became a replacement itself. |
| MemoryReview.ChainIsAcyclic | src/oscillink_agent/memory/repository.py:675-722 | Along a chain of replacements review sequence numbers increase, no revision comes back, and the chain is no longer than the log. |
| MemoryReview.SupersededEndsApproved | src/oscillink_agent/memory/repository.py:675-722 | From every superseded revision a chain of replacements leads to an approved one. |
| MemoryChains.SyncKeepsAuthority | src/oscillink_agent/memory/repository.py:565-583 | A synchronisation keeps every stored revision readable under the authority it had. |
| MemoryChains.ReplacementsEnd | src/oscillink_agent/memory/repository.py:675-722 | In a reachable store in which no record is decided under two content hashes, synced records included, following the newest reviews from a superseded record ends, without repetition, in a record whose decided content is approved. |
| MemoryChains.NativeReplacementsEnd | src/oscillink_agent/memory/repository.py:675-722 | In a store of native records, which never decides a record under two hashes, the same path follows what a reader is shown and ends in a currently approved record. |
| MemoryCycles.ReviewClosesCycleExactly | src/oscillink_agent/memory/repository.py:675-722 | A review that supersedes a by b closes a cycle of record ids exactly when b already led to a along logged replacements, which can be seen before the call; the longer log is cyclic exactly then or when it was before. |
| MemoryCycles.RunIsCyclicExactly | src/oscillink_agent/memory/repository.py:241-744 | The replacements logged by any run form a cycle of record ids exactly when one of its accepted reviews named a replacement that led back to the superseded record. |
| MemoryCycles.DecidedOnceIsAcyclic | src/oscillink_agent/memory/repository.py:675-722 | Where no record is decided under two content hashes the replacements have no cycle of record ids. |
| MemoryCounterexamples.ReplacementsCanReturnToARecord | src/oscillink_agent/memory/repository.py:675-722 | A reachable store with synced records in which two record ids supersede each other, so that the cycles above do arise. |
| MemoryCounterexamples.OneNoteFailsAll | src/oscillink_agent/memory/obsidian.py:371-373 | Two notes, one with a first heading of 513 characters: the synchronisation of both stores nothing, that of the other alone stores it. |
| MemoryRepository.Repository.constructor | src/oscillink_agent/memory/repository.py:133-239 | A new repository is empty and consistent. |
| MemoryRepository.Repository.LatestReview | src/oscillink_agent/memory/repository.py:585-608 | The loop finds the newest review of one revision. |
| MemoryRepository.Repository.Get | src/oscillink_agent/memory/repository.py:558-563 | Reads the current record under its review state. |
| MemoryRepository.Repository.List | src/oscillink_agent/memory/repository.py:552-556 | Reads all current records in row order under their review state. |
| MemoryRepository.Repository.GetRevision | src/oscillink_agent/memory/repository.py:565-583 | Finds the newest stored revision with one content hash. |
| MemoryRepository.Repository.WriteRecord | src/oscillink_agent/memory/repository.py:324-340 | Replaces the current row and adds the revision unless the same one is stored. |
| MemoryRepository.Repository.CreateNative | src/oscillink_agent/memory/repository.py:241-318 | Creates a candidate, returns an equal stored one, reports a conflict, or refuses a body outside its contract, keeping all invariants. |
| MemoryRepository.Repository.SyncNote | src/oscillink_agent/memory/repository.py:420-501 | One round in place equals the specified round. |
| MemoryRepository.Repository.SyncObsidian | src/oscillink_agent/memory/repository.py:342-550 | The whole transaction in place equals the specified one, keeps all invariants, and changes nothing when it fails; one note outside the record contract fails the whole synchronisation. |
| MemoryRepository.Repository.Review | src/oscillink_agent/memory/repository.py:610-722 | The review transaction in place equals the specified one, keeps all invariants, and changes nothing when it fails. |
| Retrieval.LexicalScore | src/oscillink_agent/retrieval/service.py:42-56 | The sum over query terms of their counts, capped, with the weighted overlaps, is the specified score. |
| Retrieval.UnmatchedExactly | src/oscillink_agent/retrieval/service.py:42-56 | The score is zero exactly when no query term occurs in title, topics, classification or content. |
| Retrieval.OrderedIsUnique | src/oscillink_agent/retrieval/service.py:109 | Two orderings by falling score and rising id of the same entries with distinct ids are equal. |
| Retrieval.SortOrders | src/oscillink_agent/retrieval/service.py:109 | The sort is a permutation in falling score and rising id. |
| Retrieval.RankMemoryRecords | src/oscillink_agent/retrieval/service.py:78-124 | The loop with its counters computes the specified ranking. |
| Retrieval.RankIgnoresOrder | src/oscillink_agent/retrieval/service.py:78-124 | The ranking, the unmatched records and the counts are the same for every permutation of records with distinct ids. |
| Retrieval.RankOrders | src/oscillink_agent/retrieval/service.py:109-113 | Ranks are 1..n, scores never rise, ties are in id order, and exactly the eligible matching records are ranked. |
| Retrieval.RankIgnoresCandidate | src/oscillink_agent/retrieval/service.py:98-100 | One more candidate changes the not-approved count by one and nothing else. |
| Context.CompileContext | src/oscillink_agent/context/compiler.py:17-92 | The budget loop computes the specified manifest and selected records, or fails when a validator rejects the manifest. |
| Context.SelectAccounts | src/oscillink_agent/context/compiler.py:29-44 | The total is the sum of the chosen token counts and within the budget, and every ranked record is chosen or omitted. |
| Context.SelectIsMaximal | src/oscillink_agent/context/compiler.py:29-44 | No record omitted for the budget would fit in what is left of it at the end. |
| Context.GreedyIsFirst | src/oscillink_agent/context/compiler.py:29-44 | Among all selections within the budget the greedy one is lexicographically first by rank. |
| Context.BudgetIsMonotoneExactly | src/oscillink_agent/context/compiler.py:27-45 | For every ranked list, every larger budget keeps what a smaller one chose exactly when no record that costs tokens is ranked after a dearer one. |
| Context.BudgetIsNotMonotone | src/oscillink_agent/context/compiler.py:27-45 | A list where a larger budget drops what a smaller one includes. |
| Context.ManifestValidExactly | src/oscillink_agent/domain/context.py:9-145 | A compiled manifest meets every validator exactly when the budget is positive and at most 9007199254740991 and each selected record has at most 16 domains and a title of 1 to 512 characters. |
| Context.SiftCounts | src/oscillink_agent/retrieval/service.py:89-107 | The four exclusion counts and the ranked and unmatched records count every record once, by its standing. |
| Context.ManifestAccountsForAll | src/oscillink_agent/context/compiler.py:27-92 | Items, omissions and exclusion counts of a manifest partition all records. |
| Recall.ProposalsGrow | src/oscillink_agent/integrations/mcp/server.py:347-462 | Any sequence of remember and correct calls keeps the store consistent and extends the record list by new candidates alone. |
| Recall.ProposalsDoNotInterfere | src/oscillink_agent/integrations/mcp/server.py:70-112 | No sequence of remember and correct calls changes the items, omissions or returned records of recall, for any query and budget; only the not-approved count grows, by the number of new candidates. |
| Recall.ProposalReplays | src/oscillink_agent/integrations/mcp/server.py:385-425 | An accepted proposal repeated after any further proposals adds nothing and names the same record and hash. |
| Recall.ListedIsDistinct | src/oscillink_agent/memory/repository.py:552-556 | The records a reader sees have distinct ids. |
| Recall.RecallFailsExactly | src/oscillink_agent/integrations/mcp/server.py:63-112 | A well-formed recall over any reachable store with eligible records raises exactly when the first ten digits of its id come after 76EZ91ZPZZ, or a selected record has more than 16 domains or more than 65,536 characters; otherwise it returns the greedy choice in rank order, compiled at the time of the id. |
| RecallCounterexamples.SeventeenDomainsRefuse | src/oscillink_agent/integrations/mcp/contracts.py:154-173 | A reachable store with one approved record of 17 domains from which every matching recall raises. |
| RecallCounterexamples.LongContentRefuses | src/oscillink_agent/integrations/mcp/contracts.py:154-162 | The same for one approved record of one word and 65,537 characters. |
| RecallCounterexamples.LateRequestsRefuse | src/oscillink_agent/integrations/mcp/server.py:63-92 | A reachable store with the smallest approved record, from which recall raises exactly for the request ids whose time is past the calendar. |
| Explain.ExplainTool | src/oscillink_agent/integrations/mcp/server.py:115-194 | The explanation built with its lineage list is the specified one. |
| Explain.ProposeTool | src/oscillink_agent/integrations/mcp/server.py:347-462 | The remember and correct tool on a repository object equals the specified proposal, and changes nothing when it is refused. |
| Explain.AgreesExactly | src/oscillink_agent/integrations/mcp/server.py:115-148 | Explanation and recall agree on a revision exactly when it is not the current approved content or the newest stored row of it and the current row give its source the same missing mark. |
| Explain.AgreesOnNative | src/oscillink_agent/integrations/mcp/server.py:115-148 | They always agree on native records. |
| Explain.ReturnedNoteIsExplainedAsMissing | src/oscillink_agent/integrations/mcp/server.py:128-136 | A note that vanished and came back unchanged is selected by recall and explained as missing: a concrete run. |
| Crockford.DerivedToken | src/oscillink_agent/agent_runtime/service.py:53-60 | The loop writes 26 digits that decode to the 130 bits. |
| Crockford.DecodeEncode | src/oscillink_agent/agent_runtime/service.py:53-60 | Encoding then decoding returns the number. |
| Crockford.EncodeDecode | src/oscillink_agent/integrations/mcp/server.py:63-67 | Decoding then encoding returns the text. |
| Crockford.OrderIsNumeric | src/oscillink_agent/retrieval/service.py:109 | Tokens are ordered as texts exactly as the numbers they stand for. |
| Crockford.RequestTime | src/oscillink_agent/integrations/mcp/server.py:63-67 | The loop reads the first ten digits as a time, and raises past the calendar. |
| Crockford.TimeIsDefinedExactly | src/oscillink_agent/integrations/mcp/server.py:63-67 | A request id has a time exactly when its first ten digits do not come after 76EZ91ZPZZ. |
| Crockford.SomeTimeIsTooLate | src/oscillink_agent/integrations/mcp/server.py:63-67 | Some well-formed request id has no time. |
| Payloads.FreezeBounded | src/oscillink_agent/domain/events.py:183-223 | Validating and freezing in one pass succeeds exactly on bounded payloads and then yields the frozen value. |
| Payloads.FreezeKeeps | src/oscillink_agent/domain/events.py:162-170 | Freezing yields the same JSON value with immutable containers throughout. |
| Payloads.ThawOfFrozen | src/oscillink_agent/domain/events.py:173-180 | Thawing a frozen value yields the same JSON value with ordinary containers, and freezing that returns the frozen value. |
| Payloads.FreezeIsCanonical | src/oscillink_agent/domain/events.py:162-170 | Values that are the same JSON freeze to the same value. |
| Payloads.StoredPayloadReadsBack | src/oscillink_agent/domain/events.py:430-440 | A stored payload is accepted again after it was thawed and freezes to the stored one. |
| EventContracts.RequestFitsExactly | src/oscillink_agent/domain/events.py:430-435 | A request payload is accepted exactly when its message has at most 16,384 characters and the canonical bytes of message and budget together take at most 65,475. |
| EventContracts.AnswerFitsExactly | src/oscillink_agent/domain/events.py:430-435 | A final-response payload is accepted exactly when the answer has at most 16,384 characters, cites at most 64 records within their bounds, and its canonical form takes at most 64 KiB, counted member by member. |
| Ledger.AcceptedExactly | src/oscillink_agent/storage/sqlite.py:83-149 | An event is accepted exactly when its key is portable, its parents and artifacts are there, and it is stored already under its key or clashes with no id, key or proposal review. |
| Ledger.AppendOneKeeps | src/oscillink_agent/storage/sqlite.py:83-149 | An accepted event keeps the ledger sound, which then extends the old one and holds the event. |
| Ledger.AppendManyKeeps | src/oscillink_agent/storage/sqlite.py:76-81 | A committed batch keeps the ledger sound and adds entries of the batch only. |
| Ledger.BatchesGrow | src/oscillink_agent/storage/sqlite.py:76-81 | Over any sequence of batches the ledger only grows and stays sound. |
| Ledger.ReappendingChangesNothing | src/oscillink_agent/storage/sqlite.py:131-136 | A committed batch appended again at any later time, over a larger artifact store, succeeds and changes nothing. |
| Ledger.FreshAppend | src/oscillink_agent/storage/sqlite.py:76-149 | A committed batch of new entries adds exactly them, in order. |
| Ledger.MoreArtifacts | src/oscillink_agent/storage/sqlite.py:101-112 | References that resolved keep resolving when the artifact store grows. |
| Ledger.ParentPrecedes | src/oscillink_agent/storage/sqlite.py:92-100 | A causal parent is stored before its child. |
| Ledger.CausalityIsAcyclic | src/oscillink_agent/storage/sqlite.py:92-100 | Following causes never comes back. |
| Ledger.EventStore.GetByIdempotency | src/oscillink_agent/storage/sqlite.py:230-259 | The loop finds the event of a key. |
| Ledger.EventStore.GetEvent | src/oscillink_agent/storage/sqlite.py:199-228 | The loop finds the event of an id. |
| Ledger.EventStore.StreamOf | src/oscillink_agent/storage/sqlite.py:151-173 | The loop yields the events of a session in insertion order. |
| Ledger.EventStore.AppendEvent | src/oscillink_agent/storage/sqlite.py:83-149 | One insert with its error order equals the specified one and changes nothing when it fails. |
| Ledger.EventStore.AppendBatch | src/oscillink_agent/storage/sqlite.py:76-81 | A batch is committed as a whole, with its ids returned, or rolled back. |
| Runs.ReconstructRun | src/oscillink_agent/agent_runtime/contracts.py:180-268 | The loop succeeds exactly on accepted streams and yields the state, steps, counts and context they stand for. |
| Runs.PrefixesAreRuns | src/oscillink_agent/agent_runtime/contracts.py:190-235 | Every nonempty prefix of a run is a run. |
| Runs.PendingExactly | src/oscillink_agent/agent_runtime/contracts.py:98-137 | A run has no pending action exactly when no event can follow it. |
| Runs.TerminalIsLast | src/oscillink_agent/agent_runtime/contracts.py:109-137 | A terminal step is the last one. |
| Runs.CallCounts | src/oscillink_agent/agent_runtime/contracts.py:262-267 | Tool calls never outnumber model calls, and a completed run has one model call more. |
| Runs.HasContextExactly | src/oscillink_agent/agent_runtime/contracts.py:215-226 | A run without the older form of model calls has a context exactly when its second step compiled one. |
| Runs.ContextCanBeSkipped | src/oscillink_agent/agent_runtime/contracts.py:109-113 | A model call may follow the request directly: an accepted run without a context. |
| Runs.AnyNumberOfToolCalls | src/oscillink_agent/agent_runtime/contracts.py:109-137 | For every number of tool calls some run is accepted; the acceptor alone does not bound them. |
| Broker.ReadIsWhole | src/oscillink_agent/capabilities/broker.py:207-258 | A read succeeds exactly on a stable, decodable file within the bound, and returns all of it. |
| Broker.UsedAtMostOnce | src/oscillink_agent/capabilities/broker.py:139-192 | Under any interleaving each grant is used at most once, by its subject and within its window. |
| Broker.DocumentsStay | src/oscillink_agent/capabilities/broker.py:92-131 | A registered grant keeps its document through everything that follows. |
| Broker.GrantsAreApproved | src/oscillink_agent/capabilities/broker.py:78-108 | Every stored grant was bound to the human approval event that names it. |
| Broker.GrantStore.RegisterGrant | src/oscillink_agent/capabilities/broker.py:92-131 | Registration in place equals the specified one and changes nothing when it is denied. |
| Broker.GrantStore.ClaimGrant | src/oscillink_agent/capabilities/broker.py:139-192 | The claim in place equals the specified one and changes nothing when it is denied. |
| Broker.GrantStore.ExecuteFileRead | src/oscillink_agent/capabilities/broker.py:194-258 | The use is consumed before the file is read, whatever the read yields. |
| Protocol.ChatEventsAreValid | src/oscillink_agent/domain/events.py:398-485 | Which events of the chat service can be built: a request exactly when its payload fits and its author is a human name, pending, success and tool request exactly when the model name fits its 128-character label, an answer exactly when also its payload fits, and context and failure always. |
| Protocol.DecisionEventsAreValid | src/oscillink_agent/domain/events.py:398-485 | Claim, observation and tool failure can always be built, a decision exactly when its author is a human name and it is not the event it decides on. |
| Protocol.FollowupEventsAreValid | src/oscillink_agent/domain/events.py:398-485 | The follow-up failure can always be built, its pending and success events exactly when the model name fits its label, its answer exactly when the payload fits too. |
| ProtocolRuns.After | src/oscillink_agent/capabilities/service.py:189-541 | Every state reachable by the two services, under any interleaving of calls for different runs, crashes between steps, other ledger writers and other brokers, satisfies the invariant of the protocol. |
| ProtocolRuns.ApplyKeeps | src/oscillink_agent/agent_runtime/service.py:123-508 | Every step of a handler, a crash, and every step of another writer keeps that invariant. |
| ProtocolRuns.RunsAreAccepted | src/oscillink_agent/agent_runtime/repository.py:56-90 | Every reachable run is empty or is accepted, has 3 to 11 steps, can be inspected with its context from the artifact store, and claims a tool and observes at most once. |
| ProtocolRuns.DispatchesAreBounded | src/oscillink_agent/agent_runtime/service.py:312-322 | The provider is asked at most twice per run, never twice about the same pending event, a second time only in a run of nine or more steps, and always after the pending event is in the ledger. |
| ProtocolRuns.GrantsAreUsedOnce | src/oscillink_agent/capabilities/service.py:361-378 | No grant is used twice, whoever else uses the broker. |
| ProtocolRuns.ChatRetryReturnsTheSame | src/oscillink_agent/agent_runtime/service.py:134-181 | A chat retry with the same key and request appends and dispatches nothing and returns the response first returned, or the one a decision call completed the run with. |
| ProtocolRuns.DecisionRetryReturnsTheSame | src/oscillink_agent/capabilities/service.py:203-227 | A decision retry with the same key and decision returns the response first returned. |
| ProtocolRuns.ChatRetryRaisesExactly | src/oscillink_agent/agent_runtime/service.py:182-187 | A chat call that raised after its request was stored, in whatever way, raises again at every later retry: the same error exactly when its provider had failed, and otherwise that the dispatch is uncertain. |
| ProtocolRuns.DecisionRetryRaisesExactly | src/oscillink_agent/capabilities/service.py:203-227 | A decision call that raised after its decision was stored, in whatever way, raises again at every later retry, by what its run records: the same error exactly when the last event of the run is a failed tool, and that nothing is pending exactly when neither the tool nor the follow-up call had failed. |
| ProtocolRuns.StartChatKeeps | src/oscillink_agent/agent_runtime/service.py:134-181 | Beginning a chat call keeps the invariant, whether it answers, refuses or proceeds. |
| ProtocolRuns.StartDecisionKeeps | src/oscillink_agent/capabilities/service.py:203-252 | Beginning a decision call keeps the invariant, whether it answers, refuses or proceeds. |
| ProtocolRuns.OtherAppendKeeps | src/oscillink_agent/storage/sqlite.py:76-81 | Appends of other writers under other run ids keep the invariant. |
| ProtocolSafety.AdvanceKeeps | src/oscillink_agent/capabilities/service.py:281-541 | Every step of a running handler keeps the invariant. |
| ProtocolSafety.AppendStepKeeps | src/oscillink_agent/agent_runtime/service.py:323-508 | A step that appends, committed or failed, keeps the invariant. |
| ProtocolSafety.PrepareStepKeeps | src/oscillink_agent/agent_runtime/service.py:312-315 | The preparation commits only for a run without events and keeps the invariant. |
| ProtocolSafety.DispatchStepKeeps | src/oscillink_agent/agent_runtime/service.py:317-322 | A dispatch of a stored pending event keeps the invariant. |
| ProtocolSafety.ReadStepKeeps | src/oscillink_agent/capabilities/service.py:361-381 | The claim and the file read keep the invariant. |
| ProtocolLedger.InspectFinds | src/oscillink_agent/agent_runtime/repository.py:56-90 | Inspecting a run under its session yields its events and context; under another session it is not found. |
| ProtocolLedger.BatchAppended | src/oscillink_agent/agent_runtime/repository.py:47-54 | A committed batch that continues a run adds exactly its rows. |
| ProtocolLedger.BatchCommitsExactly | src/oscillink_agent/storage/sqlite.py:83-149 | A batch of built events that continues a run is committed exactly when its keys are portable and free, its ids are free and its artifacts resolve. |
| ProtocolProgress.PreparableExactly | src/oscillink_agent/agent_runtime/service.py:236-312 | The first three events of a call can be built exactly when its author is a human name, its request payload fits and the model name fits its label. |
| ProtocolProgress.RecordableExactly | src/oscillink_agent/agent_runtime/service.py:323-500 | A result can be recorded exactly when it is no answer or an answer within the payload bounds. |
| ProtocolProgress.StepAppendsExactly | src/oscillink_agent/capabilities/service.py:254-541 | In any reachable state a step with something to append appends it exactly when all its events can be built, its keys are portable and free, its ids free and its artifacts there; otherwise the call raises the error that stopped it, is over, and leaves the ledger as it was. |
| ProtocolProgress.UnpreparableCallEnds | src/oscillink_agent/agent_runtime/service.py:213-315 | A call whose first events cannot be built is refused: its manifest has become an artifact and the refusal is answered, and nothing else in the whole state has changed. |
| ProtocolProgress.UnhinderedCallCompletes | src/oscillink_agent/agent_runtime/service.py:123-508 | From any reachable state a chat call whose first events can be built, whose keys and ids are free, and which nothing interrupts, asks the provider once; it stores what the provider made of it and returns the response, or raises the error, that says so exactly when the result can be recorded, and otherwise stores nothing and raises. |
| ProtocolDecisions.AskingCallWaits | src/oscillink_agent/agent_runtime/service.py:387-436 | A chat call whose provider asks for a tool leaves its run waiting for exactly the decision on that request. |
| ProtocolDecisions.GrantIsReachedExactly | src/oscillink_agent/capabilities/service.py:281-323 | After an approval is stored the call gets to register its grant exactly when the grant contract accepts the target; a target without an extension is recorded as denied, and for any other the call raises and the approval is the last event of its run. |
| ProtocolDecisions.ContextIsReachedExactly | src/oscillink_agent/capabilities/service.py:110-145 | After an observation is stored the call goes on to ask the provider exactly when every content the manifest selected is still the current one of its record and approved; otherwise it raises and the observation is the last event of its run. |
| ProtocolDecisions.UnhinderedDecisionCompletes | src/oscillink_agent/capabilities/service.py:228-541 | From any reachable state in which a run waits, an approving call with free keys and ids, an acceptable target in a scope, a readable file within its bound and a valid grant runs the whole loop uninterrupted, for every provider result and every memory store: approval, claim and observation are stored; the second intent is stored and the provider asked exactly when the selected contents are still to be had; what it makes of it is stored exactly when it can be recorded; and the call answers or raises accordingly. |
| ProtocolDecisions.LoopIsRetried | src/oscillink_agent/capabilities/service.py:203-227 | At any later time a retry of such a call returns its answer again, or raises another error than the call did: the kind of failure a failed follow-up has stored, and otherwise that nothing is pending. |
| ProtocolDecisions.StaleContextStrandsExactly | src/oscillink_agent/capabilities/service.py:110-128 | After such a call nothing is ever added to its run, which stands still at its observation exactly when some selected content was no longer the current one of its record, or no longer approved. |
| ProtocolDecisions.UnacceptableTargetStrands | src/oscillink_agent/capabilities/service.py:291-323 | An approved target that has an extension but that no grant may name leaves its run at the approval in every later state. |
| ProtocolAbandoned.IdleForEver | src/oscillink_agent/agent_runtime/service.py:146-187 | No later event, question or decision is added to a run that has begun, waits for no decision and has no working call. |
| ProtocolAbandoned.UnrecordedAnswerStrands | src/oscillink_agent/agent_runtime/service.py:438-508 | After a call whose answer cannot be recorded the provider has been asked once and, whatever happens later, the run says that the answer is still awaited. |
| ProtocolCounterexamples.LongAnswerStrands | src/oscillink_agent/providers/base.py:79-84 | A reachable run that stays pending for ever after the provider answered 16,385 characters. |
| ProtocolCounterexamples.LongModelNameIsRefused | src/oscillink_agent/providers/base.py:20-26 | A provider with a model name of 129 characters: the first call in an empty world is refused with its manifest stored and no event. |
| ProtocolCounterexamples.ManyCitationsStrand | src/oscillink_agent/agent_runtime/service.py:202-210 | The same after an answer of one character that cites the 65 records of one token which a budget of 65 selected. |
| ProtocolCounterexamples.ManySelected | src/oscillink_agent/domain/context.py:63-118 | The manifest of that call has 65 items, is valid, and has exactly those citations. |
| ProtocolCounterexamples.FailedFollowupIsRetried | src/oscillink_agent/capabilities/service.py:446-485 | A reachable run whose follow-up call timed out: the call raised that the follow-up failed, and every retry raises the timeout. |
| ProtocolCounterexamples.RefusedDecisionProceedsLater | src/oscillink_agent/capabilities/service.py:228-232 | A decision that is refused because its run has not begun goes on when it is repeated after the run asked for it. |
| ContextCounterexamples.SupersededContextStrands | src/oscillink_agent/capabilities/service.py:110-128 | A record is approved when it is selected and superseded by one more review, in a reachable memory store, before the follow-up call: the run stands still at its observation and every retry raises another error. |
| ProtocolCounterexamples.RefusedTargetsStrand | src/oscillink_agent/domain/capabilities.py:21-64 | Reachable runs that stay approved for ever, for the targets con.txt and notes.tar_gz. |
| ProtocolLedger.PreparationAppended | src/oscillink_agent/agent_runtime/service.py:236-312 | A preparation is committed only when the run has no event yet. |
| ProtocolShape.ShapeIsRun | src/oscillink_agent/agent_runtime/contracts.py:190-235 | Every trajectory the services can take is an accepted run of at most eleven steps. |
| ProtocolShape.OneClaimOneObservation | src/oscillink_agent/capabilities/service.py:360-406 | A trajectory has at most one claim and one observation. |
| ProtocolShape.BatchContinues | src/oscillink_agent/capabilities/service.py:254-533 | Whatever a handler appends names the last event of its run as parent and has the kind and content of its position. |
| ProtocolSteps.ReplyStaysTrue | src/oscillink_agent/agent_runtime/repository.py:92-126 | A response a run stood for once, it stands for ever after. |
| ProtocolSteps.FinalSays | src/oscillink_agent/agent_runtime/service.py:429-508 | The response a call returns is what its run says once the last append is committed. |
| Artifacts.ChunkedIsWhole | src/oscillink_agent/storage/artifacts.py:92-159 | However a stream is cut into chunks, publishing it is publishing its whole content; it is refused exactly when it breaks off, is too long or of another length, or the stored object is corrupt. |
| Artifacts.FilesStay | src/oscillink_agent/storage/artifacts.py:57-90 | No publication replaces or removes a stored file, so a corrupt object is never overwritten. |
| Artifacts.PublishedIsReadBack | src/oscillink_agent/storage/artifacts.py:161-177 | What was published is read back unchanged at any later time. |
| Artifacts.ReportedIsGrowth | src/oscillink_agent/storage/artifacts.py:92-159 | Over any sequence of publications the bytes reported as new are the bytes the store grew by. |
| Artifacts.ArtifactStore.Read | src/oscillink_agent/storage/artifacts.py:161-177 | Reading verifies the content address. |
| Artifacts.ArtifactStore.PutContent | src/oscillink_agent/storage/artifacts.py:57-90 | Publication in place equals the specified one and changes nothing when it fails. |
| Artifacts.ArtifactStore.PutStream | src/oscillink_agent/storage/artifacts.py:92-159 | The chunk loop equals the specified publication and publishes nothing when it fails. |
| Imports.ImportPublishesExactly | src/oscillink_agent/storage/imports.py:105-183 | An import succeeds exactly when the selection is allowed and the whole file of the seen size arrives and meets no corrupt object; its new bytes are the growth of the store. |
| Imports.ImportSucceedsExactly | src/oscillink_agent/artifact_imports/service.py:182-402 | A call under a new key succeeds exactly when its target record exists, its time has an offset in whole minutes, its actor fits, all roots can be opened, the file is published under a name within its contract, and neither times, ids nor keys of its two events stand in the way. |
| Imports.UniqueBytesAreGrowth | src/oscillink_agent/storage/imports.py:163-183 | Over any sequence of imports, refused ones included, the bytes reported as unique are what the store grew by. |
| Imports.ImportEventsAreValid | src/oscillink_agent/storage/imports.py:246-271 | After the checks made before an import, its outcome event and association meet the whole event contract, payload bounds included, exactly when they are not recorded before they were observed. |
| Imports.ImportLeaves | src/oscillink_agent/artifact_imports/service.py:182-402 | Every call keeps store and ledger sound, a refusal publishes nothing, and an answered call has left its outcome under its key. |
| Imports.RefusalReplays | src/oscillink_agent/artifact_imports/service.py:236-266 | A refusal that was returned is returned again at any later time, whatever the source then is. |
| Imports.UnreadableConflicts | src/oscillink_agent/artifact_imports/service.py:246-256 | A file that could not be read or stored, such as one below a regular file, raises when its outcome is recorded, and every repetition is a conflict. |
| Imports.SuccessReplaysExactly | src/oscillink_agent/artifact_imports/service.py:236-309 | A success that was returned is returned again exactly when the file was found under the selected name and, without a target, nobody stored an event under the derived association key; otherwise it is a conflict. |
| ImportCounterexamples.OtherSpellingConflicts | src/oscillink_agent/artifact_imports/service.py:138-152 | From an empty store: notes.md is found as Notes.md, the import is returned, and its repetition is a conflict. |
| ImportCounterexamples.UsedDerivedKeyConflicts | src/oscillink_agent/artifact_imports/service.py:268-282 | From an empty store: a second import under the key derived from the first is returned, and from then on the repetition of the first is a conflict. |
| ImportCounterexamples.UnreadableFileConflicts | src/oscillink_agent/storage/imports.py:217-236 | From an empty store: a target below a regular file raises while its outcome is recorded, and its repetition is a conflict although the file can be read by then. |
| ImportCounterexamples.SecondsInOffsetRaise | src/oscillink_agent/artifact_imports/contracts.py:13-22 | From an empty store: a request time with an offset of thirty seconds raises and changes nothing; without the seconds the same request is answered. |
| Imports.ImportService.ImportFile | src/oscillink_agent/storage/imports.py:105-183 | Publishing a selection in place equals the specified import. |
| Imports.ImportService.Import | src/oscillink_agent/artifact_imports/service.py:182-402 | The service over its two stores equals the specified call. |
| Proposals.ProjectProposals | src/oscillink_agent/proposals/repository.py:12-55 | The dictionaries and the pass over the events compute the specified projection. |
| Proposals.ResolvedNeverChanges | src/oscillink_agent/proposals/repository.py:12-55 | Over a longer ledger the projection keeps every proposal at its place, and a decided proposal unchanged; a projection that fails fails over every longer ledger too. |
| Proposals.AppendBreaksExactly | src/oscillink_agent/proposals/repository.py:19-55 | One more event makes the whole projection fail exactly when it is a review without a readable decision of a listed proposal, or a pending proposal of an import that names no usable record, whose import names no source, or whose review is unreadable. |
| ProposalCounterexamples.OneEventBreaksAll | src/oscillink_agent/proposals/repository.py:36-54 | A ledger with one listed proposal accepts a valid review without a decision, or a valid proposal without a target; after either no proposal can be listed or decided. |
| Proposals.DecisionEventIsValid | src/oscillink_agent/domain/events.py:398-485 | A decision event can be built exactly when its author is a human name, its offset is in whole minutes, it is not recorded before it was observed, and it is not the proposal itself. |
| ProposalCounterexamples.SecondsInOffsetRaise | src/oscillink_agent/proposals/contracts.py:11-23 | On that ledger a decision with an offset of thirty seconds raises, and without the seconds it is recorded. |
| Proposals.DecisionOutcome | src/oscillink_agent/proposals/service.py:38-153 | An accepted decision is stored once and its proposal reads back with it. |
| Proposals.DecisionIsFinal | src/oscillink_agent/proposals/service.py:48-110 | After an accepted decision a repetition returns it unchanged at any later time at which the ledger can be projected, and raises otherwise; every other request is refused. |
| Proposals.StoredDecisionReadsBack | src/oscillink_agent/proposals/service.py:150-153 | A stored decision always reads back: the service never stores one and then fails. |
| Proposals.DecideProposal | src/oscillink_agent/proposals/service.py:38-153 | The service equals the specified decision and changes nothing when it fails. |
| Workspace.RestoreOfExport | src/oscillink_agent/workspaces/export.py:118-302 | Restoring the bundle of a workspace yields exactly its databases and content-addressed artifacts. |
| Workspace.BuildBundle | src/oscillink_agent/workspaces/export.py:140-185 | The loops produce a bundle exactly when every database is sound, of the current version and free of host paths, and every artifact entry is content addressed. |
| Workspace.BundleIsValid | src/oscillink_agent/workspaces/export.py:199-226 | The bundle of a workspace passes the manifest and file checks. |
| Workspace.LeftoverBlocks | src/oscillink_agent/workspaces/export.py:82-95 | One temporary file that a cut-off publication leaves in the artifact directory keeps any exportable workspace from being exported, until it is removed. |
| Workspace.HostPathBlocks | src/oscillink_agent/workspaces/export.py:34-79 | A stored text with a drive or root folder after white space or a quotation mark blocks the export of its workspace, and of every later one whose database still dumps it. |
| Workspace.BlockedWorkspaces | src/oscillink_agent/workspaces/export.py:72-95 | The smallest workspaces that could be exported but for one leftover file, or for the message see /etc/hosts in the ledger. |
| Workspace.Volume.Rename | src/oscillink_agent/workspaces/export.py:99-115 | A rename is atomic and changes nothing when it fails. |
| Workspace.Volume.Publish | src/oscillink_agent/workspaces/export.py:99-115 | Publishing puts the staged tree in place or restores the old one, and at every moment the old tree is whole under its own or the aside name, or the new one is in place. |
| Workspace.Volume.Export | src/oscillink_agent/workspaces/export.py:118-196 | An export leaves the source as it is and publishes its bundle exactly when the source is exportable and the destination may be taken. |
| Workspace.Volume.StageVerified | src/oscillink_agent/workspaces/export.py:270-284 | Only a bundle that passes every check is staged; otherwise the staging directory is removed. |
| Workspace.Volume.Restore | src/oscillink_agent/workspaces/export.py:258-302 | A restore replaces the active workspace by the content of the bundle or leaves everything as it was, unless putting the old one back fails, when it is whole under the rollback name; in every intermediate state the old or the new workspace is whole. |

## Left out

- HTTP routes, the tool server shell, command line, web client and contract plumbing: transport and user interface.
- Providers, health and status probes, authentication: a provider is any result (answer, tool request, failure, interruption).
- Hash functions, canonical JSON and secure randomness: assumed injective, order-independent and fresh.
- Tokenising, case folding and white-space splitting of text: a text carries its terms and its number of words.
- Symbolic links, file identity, synchronising to disk and directory listing: a selection carries what the walk shows, a directory is a map from path to content.
- A process kill between the two renames of a restore, which the code does not repair: the model covers exceptions, not kills.
- Concurrent decisions on one tool request and concurrent chat calls for one request: the code's check and append are not one transaction, so handlers of one run are serialised.
- Events of other writers under a run id derived from a chat request: assumed not to occur.
- Decisions on runs that were not made by the chat service.
- A chat call whose context cannot be compiled: it raises before it stores anything, under the conditions of Context.ManifestValidExactly; a chat call of the model carries a compiled context. The memory store that a follow-up call meets may be any store.
- A target record of a malformed identity: in the model such a proposal names no record.
- Schema migrations, ledger corruption checks and database damage while a store is open.
- Parsing and classifying notes, evaluation metrics, display projections of memory, the construction-time state locks of contracts.
- Associations of imports with vault documents; a target is a product memory record.
- Names of errors where several raise the same way: the model keeps the classes a caller can tell apart.
- Sensitivity labels and payload hashes of events: fixed or determined by the other fields.
- The fields a grant contract fixes (capability, single use, no network) and the checks of the broker that repeat them.
- Texts that encode identities, sessions and timestamps: identities are numbers and derived pairs, times are integers, so their patterns hold by construction; in a payload they count for their length.
- Enumerated and patterned labels of records (category, domains, topics): values of their contracts by construction; ranks, scores and counts are assumed to be representable as JSON numbers.
- Lone surrogates in texts: a character of the model is a Unicode scalar value.
- Faults of the disk under the artifact store and the ledger: a source may break off while it is read, a store does not.
- A review whose decision text is the word for a pending proposal: a review of the model decides or is unreadable.
- Workspace.Volume.Export: a failure to remove the replaced bundle reports failure although the new bundle is in place, and what is then left of the old one is not modelled.
- Workspace.Volume.Restore: what is left of the old workspace when its removal fails after success is not modelled.
