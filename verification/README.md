# Verified models of the gateway's core

This project models the parts of the Microsoft 365 gateway that carry its
guarantees, and proves those guarantees for every input, every run and every
interleaving of the model.  `dafny verify dfyconfig.toml` checks all of it.

| files | what they model |
|---|---|
| `AliasVictims`, `AliasRegistry`, `AliasProtocol`, `AliasRuns`, `AliasOutcomes` | the admission of Responses aliases: many alias objects and one registry object that talk by RPC |
| `LeaseRow`, `LeaseRuns`, `LeaseOutcomes`, `ChatSession` | the lease-fenced row of one session object: acquire, supersede, bind, switch, rebind, commit, checkpoint, abandon |
| `Utf8`, `PortableTail`, `PortableTurns` | the byte-bounded portable history that such a row persists |
| `AnthropicEvents`, `AnthropicBlocks`, `AnthropicRuns`, `AnthropicTools`, `AnthropicOrder`, `AnthropicTransducer`, `SseSplitter`, `AnthropicBody` | the incremental SSE splitter, the transducer from OpenAI deltas to Anthropic content blocks, and the read loop that joins them |
| `TerminalDelivery`, `DeliveryProgress`, `TerminalScanner` | who may tell the client `response.completed`, and the scanner that watches a printed stream for it |
| `PromptTokens`, `PromptPrefix`, `PromptAssembly`, `PromptBounds`, `PromptLayers`, `PromptRetention` | the token estimate, and the assembly of a prompt inside its character and token budgets |
| `CompactSuffix`, `ToolResult` | two more loops that fit text into a limit: compacted history, oversized tool results |
| `SocketReader`, `SocketOutcomes`, `AzHex`, `AzHexValue`, `Exchange`, `ExchangeOutcomes` | the ChatHub transport: queue or waiters, the text codec, and the rules that keep submission at most once |
| `CompletionEvidence`, `EvidenceVerdict` | the fold over the tool history that decides which completion claims an answer may make |
| `Utf16` | JavaScript strings as sequences of UTF-16 code units |

How the models are built:

- Code that works in place is a class or a method with the loops of the source,
  proved equal to a specification function over values; what the source promises
  is then proved about that function, mostly as an invariant over all runs.
- Beside the safety of whole runs stands, operation by operation, what each step
  writes, when it succeeds, and that everything else stays (the modules named
  Outcomes), so that doing nothing, or something else, satisfies no theorem.
- A protocol is a state machine whose step is one stretch of code between two
  awaits; a sequence of enabled steps is one interleaving.  RPCs may fail, be
  lost, or be answered after their caller has gone.
- `crypto.randomUUID` is a counter that never repeats, `Date.now` a parameter of
  each call, and a failing call is a reply that leaves the state as the source
  leaves it.
- Regular expressions over prose, the Unicode property of pictographs and the
  task-anchor codec are uninterpreted parameters; the theorems hold for all of them.

Results that say where the code does less than its documentation suggests:

- The closing size check of `boundPrompt` can fire, exactly for token limits of
  3 to 6: the truncation marker alone costs six tokens, more than their third.
- The Anthropic stream keeps the event order it promises (README.md:464) with one
  exception: a read that finishes the message and leaves more than 1,048,576
  characters behind it sends `error` after `message_stop`, because the cap check
  looks at `failed` only (src/anthropic.ts:835-838).
- The bounds of 64 and 512 aliases give way by one for each registration that a
  reset of the registry object tears between its INSERT and its evictions
  (src/chat-session.ts:723-764), until a later registration comes to its end.
- The SSE splitter depends on chunking exactly for bodies that contain CR CR LF.
- The suffix kept by `compactTextSuffix` is not the longest one that is safe when
  the search stops at a low surrogate that has no high surrogate before it.
- `prefixWithinLimits` counts emoji by another rule than the estimator, so its
  prefix may cost up to twice its limit, and this factor is reached.

Assumptions, each stated as a guard or a precondition in the files:

- Aliases: one seed per alias key is in flight at a time, a caller that holds its
  ticket does not seed the key again, a repeated seed of a visible alias reaches
  the registry before its registration expires (`AliasRuns.LateRepeatUnregisters`
  shows why), alias rows hold no lease, and setting an alarm does not fail.
- Leases: the empty lease id is never presented, and nobody names a random id
  before it is drawn.  The anchor codec changes nothing on its second pass.
- Terminal delivery: the caller commits before it stages, or never commits.
- Submission: an attempt that sent the prompt reports it when it fails
  (`Exchange.HiddenSubmissionRepeats` shows why), and account selection leaves out
  the accounts already attempted.
- Printed streams: event names are lower-case words, and a printed JSON object has
  no raw line break and ends in a brace.

## Model

| member | source | states |
|---|---|---|
| `AliasVictims.EvictionRestoresBounds` | src/chat-session.ts:732-750 | Whatever a table with distinct sequence numbers held, taking out the rows the three eviction queries select leaves at most 64 rows in every group and 512 in all. |
| `AliasVictims.NewestIsNoVictim` | src/chat-session.ts:753-756 | A registration that has not expired and has the highest sequence number is never selected, so the check that a registration evicts itself never fires. |
| `AliasVictims.SurvivorsAreNewest` | src/chat-session.ts:738-744 | A row that survives is newer than every unexpired row of its own group that is evicted. |
| `AliasVictims.SurvivorsAreNewestOfAll` | src/chat-session.ts:745-750 | A row that survives is newer than every row, of any group, that falls to the bound of 512. |
| `AliasVictims.SelectionRestores` | src/chat-session.ts:732-750 | Evicting what one registration selects leaves at most 64 rows in its group and 512 in all, even in a table that was over its bounds, and no group larger than it was. |
| `AliasVictims.SelectedAreVictims` | src/chat-session.ts:732-750 | Querying overflow for the registering group alone selects the same rows as applying the bound to every group, if the table was bounded before. |
| `AliasRegistryObject.AliasRegistry.RegisterLocked` | src/chat-session.ts:688-770 | One admission from start to end, whatever the victims' objects answer: an invalid or conflicting request changes nothing, a repeat changes nothing and is accepted, an insertion is accepted exactly when every victim answers; then its group and the whole table are within bounds, otherwise the new row is gone. A bounded table stays bounded in every case. |
| `AliasRegistryObject.AliasRegistry.EvictAll` | src/chat-session.ts:752-762 | The eviction loop removes all victims, or stops at the first that is busy or unreachable and reports it. |
| `AliasProtocol.SeedKeepsInv` | src/chat-session.ts:1977-2146 | Every stretch of seed() between two awaits, including a crash and a lost answer, keeps the cross-object invariant. |
| `AliasProtocol.RowKeepsInv` | src/chat-session.ts:2152-2191 | Publishing, revoking and expiring one alias row keep the invariant; what they do to the row is AliasOutcomes.RowsChangeExactly. |
| `AliasProtocol.RegistryKeepsInv` | src/chat-session.ts:660-775 | Every stretch of registration, eviction, withdrawal and expiry sweep in the registry object keeps the invariant, and so does a reset of that object at any await. |
| `AliasProtocol.RunKeepsInv` | src/chat-session.ts:660-775 | The invariant holds after every interleaving of seed, register, publish, revoke, evict, expiry and registry resets over any number of alias objects. |
| `AliasProtocol.PublishedAliasesAreBounded` | src/chat-session.ts:20-38 | In every reachable state each published alias has a registry row of its own generation and group; at most 64 published aliases share a group and at most 512 exist, plus one for each registration torn by a reset since the last one that came to its end in that group, or in any. Without a torn registration the bounds are 64 and 512. |
| `AliasRuns.TornBoundsAreReached` | src/chat-session.ts:723-770 | These bounds are exact: for every t a run with t torn registrations publishes 64 + t aliases of one group, and another publishes 512 + t in all. |
| `AliasRuns.TornAdmission` | src/chat-session.ts:697-731 | How one alias too many comes about: the registry resets behind the INSERT, the seeding call dies, and a repeated seed finds the row, is accepted without eviction and admits itself. |
| `AliasProtocol.RegistrationIsFailClosed` | src/chat-session.ts:752-769 | When a registration ends otherwise than by a reset, either all victims are dead and the table is exactly the surviving rows with the new one, or the new row is withdrawn and its caller is not accepted. |
| `AliasProtocol.RepeatIsNoOp` | src/chat-session.ts:697-710 | Registering a visible alias again leaves registry, rows and sequence alone, and is accepted while the alias has not expired. |
| `AliasRuns.LateRepeatUnregisters` | src/chat-session.ts:697-770 | The retry window is needed: a run, legal but for its last registration, in which a repeat comes after the registration it repeats has expired, is registered afresh, meets a busy victim, and is withdrawn while the alias stays visible. |
| `AliasOutcomes.RowsChangeExactly` | src/chat-session.ts:1977-2191 | What becomes of every alias row in every step: inserted by seed() alone, invisible and short-lived; made visible by a publisher with its ticket or by an accepted seed() that does not defer, until the time it was registered for; deleted under its own generation by revocation, expiry, eviction or its own seed(); and otherwise untouched. |
| `AliasOutcomes.PublishShows` | src/chat-session.ts:2152-2177 | In every reachable state with a valid ticket for a row that is not visible, publishing is possible and makes exactly that alias visible, under the generation and until the time of the ticket; its registration is there already, and every other row and the registry stay as they are. |
| `AliasOutcomes.RevokeHides` | src/chat-session.ts:2178-2191 | After a revocation the generation of the ticket is in no row, a row of another generation and every other row are as they were, and the registry is told. |
| `AliasOutcomes.RevokedStaysHidden` | src/chat-session.ts:2178-2191 | An alias revoked under its ticket is never visible again under that generation, whatever happens later. |
| `AliasOutcomes.TicketIsPublished` | src/chat-session.ts:2099-2177 | A legal run from the start: a seed() with deferred visibility is registered, its caller hears of the ticket, and publishes the alias with it. |
| `AliasOutcomes.RegistrationsChangeExactly` | src/chat-session.ts:655-775 | What becomes of every registration in every step: it enters by an insertion alone, with the next sequence number, and leaves by a notice of its own generation, by eviction, or by withdrawal of the row being admitted. |
| `AliasOutcomes.AnswersExactly` | src/chat-session.ts:667-770 | A waiting seed() is accepted exactly when its own registration stands or comes to its end, refused exactly when its request has expired, conflicts or is withdrawn, and waits otherwise. |
| `AliasOutcomes.RequestsAreExact` | src/chat-session.ts:2033-2104 | What seed() asks for: the generation and group of its own row, for a week, or for as long as a visible row has left. |
| `AliasOutcomes.TicketsChangeExactly` | src/chat-session.ts:2106-2113 | A ticket is handed over exactly when a deferred seed() was accepted and its caller hears it, with the generation and time that were registered. |
| `AliasOutcomes.EvictionsAreExact` | src/chat-session.ts:732-762 | A registration sets out to evict exactly the rows of its three queries, a sweep exactly the expired ones, and only a victim that answered moves on to be dropped. |
| `LeaseRuns.AcquireKeeps` | src/chat-session.ts:1006-1127 | acquire, with its deletion of expired rows and its protocol rollover, keeps the lease invariant. |
| `LeaseRuns.SupersededKeeps` | src/chat-session.ts:1259-1357 | Superseding, even from a row read before another call changed it, keeps the invariant. |
| `LeaseRuns.CompleteKeeps` | src/chat-session.ts:1685-1754 | A commit stores the given coordinates and account together with the invariant. |
| `LeaseRuns.CheckpointKeeps` | src/chat-session.ts:1630-1683 | A checkpoint commit forgets the coordinates and keeps the invariant. |
| `LeaseRuns.AbandonKeeps` | src/chat-session.ts:1870-1975 | All three kinds of abandonment keep the invariant. |
| `LeaseRuns.RebindKeeps` | src/chat-session.ts:1479-1551 | Rebinding a locked session to another account forgets the coordinates and keeps the invariant. |
| `LeaseRuns.RunKeepsInv` | src/chat-session.ts:1006-1975 | The invariant holds after every run of calls on one session object, with supersedeActive interleaving with other calls while it waits for the runner, and with deployments that retire the protocol generation of the stored row. |
| `LeaseRuns.StaleLeasesAreInert` | src/chat-session.ts:1006-1975 | In every reachable state a call that presents a lease id older than the last one issued changes nothing. |
| `LeaseRuns.LateCancelKeepsResult` | src/chat-session.ts:1848-1856 | After a final or checkpoint commit, abandonIfActive for that lease is without effect after any later calls. |
| `LeaseRuns.LastCommitMeans` | src/chat-session.ts:1042-1128 | The last commit of a history is a commit that only leases have followed: both directions. |
| `LeaseRuns.OnlyCommittedCoordinatesAreReused` | src/chat-session.ts:1042-1128 | In every run, deployments included, a lease on used coordinates names exactly the pair and account of an earlier commit with no abandon, checkpoint, supersede, rebind or rollover since; every other lease has a pair never seen before. |
| `LeaseRuns.DeploymentEndsReuse` | src/chat-session.ts:1042-1056 | After a deployment the next lease continues nothing: whatever was committed, its pair was never seen before. |
| `LeaseRuns.RolloverHappens` | src/chat-session.ts:1042-1056 | The rollover is reached: in a legal run a session commits a pair, new code goes live, and the next lease is on another pair of the same account. |
| `LeaseRuns.CommitIsContinued` | src/chat-session.ts:1057-1127 | The converse: while row and protocol last, the next acquire after a successful commit succeeds and continues exactly the committed pair on its account, with the portable state as committed, under a new lease. |
| `LeaseRuns.BoundTwice` | src/chat-session.ts:152-174 | What was once fitted into the row budget fits again, unchanged, so reading a committed row never refuses it. |
| `LeaseRuns.RunningLeaseExcludes` | src/chat-session.ts:1030-1035 | While a lease runs, acquire and a new branch are refused and change nothing. |
| `LeaseRuns.NewLeaseHoldsRow` | src/chat-session.ts:1075-1127 | A lease handed out is the newest one, and the row is held under it with the coordinates and account it names. |
| `LeaseRuns.OnlyHolderActs` | src/chat-session.ts:1220-1975 | A call that presents a lease which does not hold the row changes nothing and is answered with no grant and no success. |
| `LeaseRuns.PersistedPortableIsBounded` | src/chat-session.ts:152-174 | Anchors and protocol tail of every reachable row together take at most 64 KiB of UTF-8. |
| `LeaseOutcomes.HistoryChangesExactly` | src/chat-session.ts:1006-1975 | Which calls write anchors and history tail, and what: a final commit and a checkpoint store the suffix of the caller's tail that fits, a split-phase commit that of the row's own, a promotion replaces the tail alone, a merge the anchors alone, an abandonment goes back to its checkpoint or drops the tail; every other call leaves both as they are, or as they fit. |
| `LeaseOutcomes.PendingChangesExactly` | src/chat-session.ts:1006-1975 | Which calls write pending call and ledger, and what: a commit keeps the caller's ledger if it is final and gives one, and else the row's; a checkpoint stores its own; an abandonment restores its checkpoint or clears both. |
| `LeaseOutcomes.FinalTailIsReplayed` | src/chat-session.ts:1057-1127 | From a commit to the next turn: the next lease after a final commit carries the caller's ledger, no pending call, the merged anchors and the suffix of the caller's tail that fits, on the committed pair and account. |
| `LeaseOutcomes.FittingTailIsKept` | src/chat-session.ts:152-174 | A tail for which the row has room is stored whole. |
| `LeaseOutcomes.CommitStores` | src/chat-session.ts:1630-1754 | What a commit and a checkpoint store, in one place: coordinates, ledger, anchors and tail. |
| `LeaseOutcomes.EndingStores` | src/chat-session.ts:1553-1975 | What promotion, merge and abandonment store; a tombstone locks the account and draws new coordinates, any other abandonment keeps both as they were. |
| `LeaseOutcomes.LocksExactly` | src/chat-session.ts:1479-1975 | The account lock is set by an explicit lock, a commit, a checkpoint and a tombstone, released by a rebind, and by nothing else. |
| `LeaseOutcomes.AccountsChangeExactly` | src/chat-session.ts:1006-1551 | The account column is written by bind, switch and rebind, and emptied by a lease on an unlocked row that it does not continue. |
| `LeaseOutcomes.CommitmentsChangeExactly` | src/chat-session.ts:1006-1975 | A row is committed by a commit alone, and stays so until a checkpoint, a rebind, an abandonment, a supersession or a rollover. |
| `LeaseOutcomes.CoordinatesChangeExactly` | src/chat-session.ts:1006-1975 | A commit stores the given coordinates, exactly these calls draw new ones, and every other call leaves them. |
| `LeaseOutcomes.LeasesChangeExactly` | src/chat-session.ts:1006-1975 | A lease runs fifteen minutes from its grant, ends with a commit, checkpoint, release or abandonment, and nothing else touches it. |
| `LeaseOutcomes.CompletedLeasesChangeExactly` | src/chat-session.ts:1630-1754 | The lease that a commit or a checkpoint ended is remembered until the next turn, a rebind or an abandonment. |
| `LeaseOutcomes.RunsChangeExactly` | src/chat-session.ts:1220-1253 | The upstream run is set by its mark and cleared by its own clearance, by every end of a lease and by every grant. |
| `LeaseOutcomes.ClocksChangeExactly` | src/chat-session.ts:1006-1975 | Every call that writes the row stamps it with its own clock, a late supersession with that of its probe. |
| `LeaseOutcomes.KindStays` | src/chat-session.ts:1006-1975 | No call changes kind or expiry of a row; a deployment alone makes it old, and a rollover or a new lease renews it. |
| `LeaseOutcomes.InsertedRowsAre` | src/chat-session.ts:1006-1198 | What a new row holds: nothing for a new session, the snapshot for a response branch and for a seeded alias. |
| `LeaseOutcomes.LeasesCarryTheirRow` | src/chat-session.ts:1084-1356 | A lease carries coordinates, account, lock, pending call and portable state of its row; a superseding one the content its probe saw. |
| `LeaseOutcomes.RowsEndExactly` | src/chat-session.ts:1204-1213 | A row is deleted exactly by the discard, release or abandonment of a response branch, by the alarm when lease and lifetime have run out, and by a branch that then finds no room. |
| `LeaseOutcomes.CommitsSucceedExactly` | src/chat-session.ts:1630-1754 | A commit and a checkpoint succeed exactly under the lease that holds the row, on its account, with a final tail where one is due and room in the row. |
| `LeaseOutcomes.CallsSucceedExactly` | src/chat-session.ts:1204-1975 | When each of the other calls that present a lease succeeds: both directions. |
| `LeaseOutcomes.GrantsExactly` | src/chat-session.ts:1006-1357 | When acquire, a new branch, supersedeActive and its second half hand out a lease: both directions. |
| `ChatSessionObject.ChatSession.AcquireLease` | src/chat-session.ts:1006-1127 | Busy fence, alias refusal, expiry, rollover, then the lease. A lease it grants is the newest, holds the row, and continues the last commit or names a pair never seen before. The lease invariant of all runs is kept: the object requires and ensures it in every method. |
| `ChatSessionObject.ChatSession.GrantLease` | src/chat-session.ts:1057-1127 | The leasing half of acquire: it continues exactly a committed row. A lease it grants is the newest, holds the row, and continues the last commit or names a pair never seen before. The lease invariant of all runs is kept: the object requires and ensures it in every method. |
| `ChatSessionObject.ChatSession.StartBranch` | src/chat-session.ts:1133-1198 | A response branch replaces only an idle, expired row. A lease it grants is the newest, holds the row, and continues the last commit or names a pair never seen before. The lease invariant of all runs is kept: the object requires and ensures it in every method. |
| `ChatSessionObject.ChatSession.DiscardBranch` | src/chat-session.ts:1204-1213 | Deletes the branch completed under the presented lease, or changes nothing. The lease invariant of all runs is kept: the object requires and ensures it in every method. |
| `ChatSessionObject.ChatSession.Supersede` | src/chat-session.ts:1259-1311 | Reads the active row; asks the runner first if a running upstream must be spared. A lease it grants is the newest, holds the row, and continues the last commit or names a pair never seen before. The lease invariant of all runs is kept: the object requires and ensures it in every method. |
| `ChatSessionObject.ChatSession.FinishSupersede` | src/chat-session.ts:1312-1357 | Takes the row over only if the lease that was read still holds it, and never continues a commit. A lease it grants is the newest, holds the row, and continues the last commit or names a pair never seen before. The lease invariant of all runs is kept: the object requires and ensures it in every method. |
| `ChatSessionObject.ChatSession.MarkRun` | src/chat-session.ts:1220-1242 | On success the row runs under that lease and account. A lease that does not hold the row changes nothing. The lease invariant of all runs is kept: the object requires and ensures it in every method. |
| `ChatSessionObject.ChatSession.ClearRun` | src/chat-session.ts:1244-1253 | On success no run is active under that lease. A lease that does not hold the row changes nothing. The lease invariant of all runs is kept: the object requires and ensures it in every method. |
| `ChatSessionObject.ChatSession.Bind` | src/chat-session.ts:1359-1416 | On success the lease holds the row under that account, on the coordinates it had. A lease that does not hold the row changes nothing. The lease invariant of all runs is kept: the object requires and ensures it in every method. |
| `ChatSessionObject.ChatSession.SwitchAccount` | src/chat-session.ts:1418-1465 | Succeeds only on an uncommitted, unlocked row, which then belongs to the new account. A lease that does not hold the row changes nothing. The lease invariant of all runs is kept: the object requires and ensures it in every method. |
| `ChatSessionObject.ChatSession.RebindAccount` | src/chat-session.ts:1479-1551 | Succeeds only on a locked row; afterwards nothing is committed and the history has no last commit. A lease that does not hold the row changes nothing. The lease invariant of all runs is kept: the object requires and ensures it in every method. |
| `ChatSessionObject.ChatSession.MergeAnchors` | src/chat-session.ts:1553-1586 | On success the row holds the merged anchors beside its own tail as it fits, and keeps lease, coordinates, pending call and history. A lease that does not hold the row changes nothing. The lease invariant of all runs is kept: the object requires and ensures it in every method. |
| `ChatSessionObject.ChatSession.LockAccount` | src/chat-session.ts:1588-1596 | On success the row is locked to that account. A lease that does not hold the row changes nothing. The lease invariant of all runs is kept: the object requires and ensures it in every method. |
| `ChatSessionObject.ChatSession.CommitCompleted` | src/chat-session.ts:1685-1754 | On success the lease is over, the last commit of the history is exactly the given pair and account, no call is pending, and the row holds the suffix that fits of the caller's tail if the commit is final and of its own if not. A lease that does not hold the row changes nothing. The lease invariant of all runs is kept: the object requires and ensures it in every method. |
| `ChatSessionObject.ChatSession.CommitCheckpoint` | src/chat-session.ts:1630-1683 | On success the lease is over, the history has no last commit, and the row holds the given ledger, the merged anchors and the suffix of the given tail that fits. A lease that does not hold the row changes nothing. The lease invariant of all runs is kept: the object requires and ensures it in every method. |
| `ChatSessionObject.ChatSession.PromoteTail` | src/chat-session.ts:1764-1814 | Succeeds only on a committed row with exactly the expected pair and account; the row then holds the suffix of the new tail that fits, and anchors, pending call, history and leases are untouched. The lease invariant of all runs is kept: the object requires and ensures it in every method. |
| `ChatSessionObject.ChatSession.ReleaseLease` | src/chat-session.ts:1816-1835 | Afterwards the lease does not hold the row; the history is untouched. A lease that does not hold the row changes nothing. The lease invariant of all runs is kept: the object requires and ensures it in every method. |
| `ChatSessionObject.ChatSession.Abandon` | src/chat-session.ts:1870-1975 | On success the lease is over, the history has no last commit, and a row that is left holds the given checkpoint or neither pending call nor tail; a tombstone locks its account and draws new coordinates. In active-only mode a lease that does not hold the row changes nothing. The lease invariant of all runs is kept: the object requires and ensures it in every method. |
| `ChatSessionObject.ChatSession.ExpireWhenIdle` | src/chat-session.ts:2223-2245 | Deletes the row only when its lease and its lifetime have both run out. The lease invariant of all runs is kept: the object requires and ensures it in every method. |
| `Utf8.RoundTrip` | src/chat-session.ts:99-107 | Decoding an encoding gives the characters back, for every sequence of Unicode scalar values. |
| `Utf8.ScalarsOfText` | src/chat-session.ts:99-107 | Every sequence of scalar values written as UTF-16 is read back as itself. |
| `Utf8.DecodePrefix` | src/chat-session.ts:220-236 | The fatal decoder accepts a prefix of an encoding exactly when it ends between characters, and then reads those characters. |
| `Utf8.BytesShowOffsets` | src/chat-session.ts:214-216 | A byte of an encoding is a continuation byte exactly when no character starts there. |
| `PortableTail.BoundedUtf8Suffix` | src/chat-session.ts:210-217 | The byte scan finds the first character boundary that fits. |
| `PortableTail.BoundedUtf8Prefix` | src/chat-session.ts:220-236 | Backing up until the decoder accepts finds the last character boundary that fits. |
| `PortableTail.FirstKeptIsLeast` | src/chat-session.ts:210-217 | A suffix fits exactly when it starts at that boundary or later. |
| `PortableTail.LastKeptIsGreatest` | src/chat-session.ts:220-236 | A prefix fits exactly when it ends at that boundary or earlier. |
| `PortableTail.SuffixAndPrefixFit` | src/chat-session.ts:210-236 | Both results take at most maxBytes. |
| `PortableTurns.SplitJoins` | src/chat-session.ts:277-279 | Splitting at the turn separator loses nothing. |
| `PortableTurns.TurnsKeepTheirOrder` | src/chat-session.ts:277-281 | The complete turns of a text are those of its pieces, each trimmed, in their order. |
| `PortableTurns.TrimTakesSpaceOnly` | src/chat-session.ts:238-250 | Trimming takes white space off both ends, all of it, and nothing else. |
| `PortableTurns.CompactOversizedPortableTurn` | src/chat-session.ts:252-266 | The compaction of one oversized turn: request prefix, assistant header, omission marker. |
| `PortableTurns.CompactionFits` | src/chat-session.ts:252-266 | A compaction fits, and its closing size check never fails: a matched turn with room for its suffix shows the longest prefix of its own request that fits, then header and omission marker; every other turn leaves nothing. |
| `PortableTurns.BoundedPortableProtocolSuffix` | src/chat-session.ts:274-301 | The loop over raw turns with its running byte count. |
| `PortableTurns.KeepTurnsIsLongestRun` | src/chat-session.ts:283-300 | The turns it keeps are the newest ones, they fit, and no longer run of newest turns does. |
| `PortableTurns.SuffixFits` | src/chat-session.ts:274-301 | The result takes at most maxBytes of UTF-8, framed or not. |
| `PortableTurns.FramedKeepsLongestRun` | src/chat-session.ts:283-301 | Framed text that must be cut becomes exactly the longest run of newest complete turns that fits, or the compaction of the newest turn when not even that fits. |
| `PortableTurns.UnframedKeepsLongestSuffix` | src/chat-session.ts:277-281 | Text without a complete turn becomes its longest code-point suffix, except for a byte order mark in front. |
| `PortableTurns.PortableIsBounded` | src/chat-session.ts:152-174 | Anchors are kept as they are; with the tail they take at most 64 KiB, and with the other columns and the reserve at most 192 KiB. |
| `AnthropicEvents.TerminalIsLast` | src/anthropic.ts:666-689 | In a well-formed output message_stop or error is the last event. |
| `AnthropicEvents.OpeningIsFirst` | src/anthropic.ts:808-819 | message_start is the first event and occurs once. |
| `AnthropicEvents.BlocksAreNumbered` | src/anthropic.ts:604-655 | Blocks are numbered 0, 1, 2, ... in the order they start, each starting with no block open. |
| `AnthropicRuns.ConsumedIsSound` | src/anthropic.ts:680-794 | One payload keeps output, open block, numbering and tool bookkeeping in agreement, and ends the stream with exactly one terminal event if it ends it. |
| `AnthropicRuns.Run` | src/anthropic.ts:680-794 | After every sequence of payloads output and bookkeeping agree; this is what well-formedness of the output rests on. |
| `AnthropicRuns.OutputIsWellFormed` | src/anthropic.ts:680-794 | What the consumer of payloads sends is well formed at every moment, for every sequence of payloads. The reads around it are in AnthropicBody. |
| `AnthropicRuns.OutputOnlyGrows` | src/anthropic.ts:680-794 | A further payload only extends the output, and after a terminal event no payload adds anything. |
| `AnthropicRuns.ContentIsConserved` | src/anthropic.ts:716-784 | All text received is sent, in order; per tool index, the argument text sent followed by what is pending is all fragments received, until the stream breaks. |
| `AnthropicRuns.ToolUseEmitsAllArguments` | src/anthropic.ts:657-689 | A stream that ends with stop_reason tool_use has emitted every argument fragment of every tool, each tool in one block of its own. |
| `AnthropicTools.BlocksAnnounceTheirTools` | src/anthropic.ts:604-655 | At every moment of every run each block has been announced once: a tool's block under the id and name that the input gave for that tool first, every other block as text. |
| `AnthropicTools.ToolUseIsFaithful` | src/anthropic.ts:623-689 | A message that ends with tool_use has one block for every tool the input named, announced under its id and name and holding all its arguments. |
| `AnthropicTools.StopReasonIsExact` | src/anthropic.ts:673-794 | The output of a finished message ends with its stop reason and message_stop: max_tokens exactly for a finish reason of length, else tool_use exactly when the input named a tool or asks for tool calls, else end_turn. |
| `AnthropicOrder.OutputTellsInput` | src/anthropic.ts:604-794 | The events sent are those the payloads call for, in their order and piece by piece: one delta for each text and argument piece, a tool's block once id and name are known with what waited for it, a text block only where none is open, a ping for each empty delta. A broken stream is the beginning of that and an error. |
| `AnthropicOrder.StageIsExact` | src/anthropic.ts:680-794 | When a payload ends the message, when it breaks the stream and when the stream goes on. |
| `AnthropicOrder.RejectsExactly` | src/anthropic.ts:717-783 | A call delta is rejected exactly if it is ill-typed, contradicts a known id or name, comes when its block is closed or another tool's is open, or lets too much text wait. |
| `AnthropicOrder.AcceptsExactly` | src/anthropic.ts:717-783 | The calls of a chunk are accepted exactly when each can be shown after those before it. |
| `AnthropicOrder.ToolCallIsShown` | src/anthropic.ts:604-794 | One run from start to end: a tool call in two pieces comes out as one block with two deltas, for every id, name and text. |
| `AnthropicTransducer.Transducer.CloseBlock` | src/anthropic.ts:604-614 | Closes the open block and marks its tool closed. The new state is exactly that of the specification. |
| `AnthropicTransducer.Transducer.SendText` | src/anthropic.ts:712-715 | Opens a text block if needed and sends the text. The new state is exactly that of the specification. |
| `AnthropicTransducer.Transducer.StartTool` | src/anthropic.ts:623-656 | Starts, resumes or refuses a tool block. The new state is exactly that of the specification. |
| `AnthropicTransducer.Transducer.OpenTool` | src/anthropic.ts:641-655 | Opens the block of a named tool and flushes its buffered arguments; that it is announced under the tool's own id and name is AnthropicTools.BlocksAnnounceTheirTools. The new state is exactly that of the specification. |
| `AnthropicTransducer.Transducer.ToolTerminalReady` | src/anthropic.ts:657-665 | Reports whether every tool has its metadata and a block; otherwise the stream fails. The new state is exactly that of the specification. |
| `AnthropicTransducer.Transducer.EmitTerminal` | src/anthropic.ts:673-679 | Closes the block and sends message_delta and message_stop, once. The new state is exactly that of the specification. |
| `AnthropicTransducer.Transducer.ConsumeCall` | src/anthropic.ts:717-783 | One tool-call delta: validation, naming, block and arguments. The new state is exactly that of the specification. |
| `AnthropicTransducer.Transducer.PlaceArguments` | src/anthropic.ts:771-782 | Buffers or sends an argument fragment, with the buffer cap. The new state is exactly that of the specification. |
| `AnthropicTransducer.Transducer.Consume` | src/anthropic.ts:680-794 | One payload, from the terminal guard to the finish reason. The new state is exactly that of the specification. |
| `AnthropicTransducer.Transducer.CapExceeded` | src/anthropic.ts:835-838 | The check behind each read: error, whether or not the message was finished. The new state is exactly that of the specification. |
| `AnthropicTransducer.Transducer.BodyEnded` | src/anthropic.ts:840-851 | The end of the body: disconnect without a terminal is an error. The new state is exactly that of the specification. |
| `AnthropicTransducer.ReceivedIsWellFormed` | src/anthropic.ts:570-860 | Whenever the client cancels, what it received is well formed, except exactly when the buffer cap was exceeded behind a finished message. |
| `AnthropicBody.OutputWellFormedExactly` | src/anthropic.ts:820-838 | For every way the upstream body is read: the output after those reads is malformed exactly when one read both takes the payload that finishes the message and leaves more than 1,048,576 characters behind it, and then it is a finished message followed by one error. |
| `AnthropicBody.CompleteExactly` | src/anthropic.ts:820-851 | At the end of the body, or after a lost read, the output ends with exactly one message_stop or error, with that one exception. |
| `AnthropicBody.HaltedExactly` | src/anthropic.ts:820-838 | The loop goes on exactly while no read has left too much and the payloads so far leave the stream running; until then it has consumed all complete frames, each once. |
| `AnthropicBody.OutputOnlyExtends` | src/anthropic.ts:820-851 | A further read, and the end of the body, only add to what the client has received. |
| `AnthropicBody.OutputIgnoresChunking` | src/anthropic.ts:820-847 | What the client receives is decided by the text of the body alone, however it is cut, if it has no CR CR LF and no read leaves too much. |
| `AnthropicBody.SmallFramesAreWellFormed` | src/anthropic.ts:820-851 | A body whose frames stay two units under the cap always gives a complete, well-formed output, the same for every cutting. |
| `AnthropicBody.OversizedTailBreaks` | src/anthropic.ts:835-838 | The failing input, for every filler over the cap without line breaks: read together with the last frame it adds error after message_stop; read after it, it does not. |
| `AnthropicBody.FramesReadBack` | src/anthropic.ts:564-568 | A payload written as one data line for each of its lines is read back as it was, unless a line starts with white space. |
| `AnthropicBody.OtherLinesAreIgnored` | src/anthropic.ts:564-568 | Lines of other fields and comments change nothing, wherever they stand in a frame. |
| `AnthropicBody.LastFrameNeedsNoBlankLine` | src/anthropic.ts:840-847 | A body whose last frame comes without its blank line gives the client the same output as with it. |
| `AnthropicBody.Body.Read` | src/anthropic.ts:820-838 | One turn of the loop over the splitter and the transducer: unless the client went away, it has then received exactly what the chunks so far call for. |
| `AnthropicBody.Body.ConsumeAll` | src/anthropic.ts:827-834 | The frames of one read reach the transducer in order; the stream is then the one that all payloads so far call for, also when it ended in between. |
| `AnthropicBody.Body.End` | src/anthropic.ts:840-851 | The flush of a last frame and the disconnect check: the client has then received exactly the concluded output. |
| `SseSplitter.ChunkingIsInvisible` | src/anthropic.ts:820-847 | Reading gives the same frames and the same rest for every way of cutting a body into chunks, exactly for the bodies without CR CR LF. |
| `SseSplitter.SplitLosesReturn` | src/anthropic.ts:825-826 | Why not all bodies: a read that ends behind CR CR LF loses a character that a single read keeps. |
| `SseSplitter.FramesAreThePieces` | src/anthropic.ts:827-834 | The frames of a text and the rest join to the text again, each frame ends at the first blank line behind it, and the rest holds none. |
| `SseSplitter.PiecesAreTheFrames` | src/anthropic.ts:827-834 | The converse: no other cut of a text is like that. |
| `SseSplitter.NormaliseReplacesReturns` | src/anthropic.ts:826 | Normalisation replaces each CR LF by LF and changes nothing else. |
| `SseSplitter.SmallFramesNeverOverflow` | src/anthropic.ts:835-838 | A body whose frames stay two units under the cap never hits it, however it is cut. |
| `SseSplitter.Splitter.Read` | src/anthropic.ts:825-838 | One read: the blocks passed on, the buffer left and the overflow flag. |
| `TerminalDelivery.ResponsesTerminalDelivery.MarkCommitted` | src/openai.ts:6886-6892 | Records the commit; a cancelled staged alias is published. The new closure state is exactly that of the specification. |
| `TerminalDelivery.ResponsesTerminalDelivery.StartRevoke` | src/openai.ts:6853-6857 | Starts the memoised revocation of an undelivered alias. The new closure state is exactly that of the specification. |
| `TerminalDelivery.ResponsesTerminalDelivery.SendCompleted` | src/openai.ts:6904-6922 | The send, with its failure path. The new closure state is exactly that of the specification. |
| `TerminalDelivery.ResponsesTerminalDelivery.FailDeliveryNow` | src/openai.ts:6868-6877 | A failed send cancels and settles the alias. The new closure state is exactly that of the specification. |
| `TerminalDelivery.RunKeepsInv` | src/openai.ts:6840-6940 | The delivery invariant holds after every interleaving of stage, commit, claim, inner and bridge delivery, failed send and cancel. |
| `TerminalDelivery.CompletionFollowsPublication` | src/openai.ts:6840-6940 | response.completed reaches the client at most once and only after the alias is published; publish and revoke are each asked for at most once, publish never after revoke. |
| `TerminalDelivery.CommittedAliasSurvives` | src/openai.ts:7092-7141 | With commit before stage, an alias is never revoked and cancelling still publishes it. |
| `TerminalDelivery.UncommittedAliasIsRevoked` | src/openai.ts:7547-7561 | Without a commit, a cancelled staged alias is revoked and the client was not told about it. |
| `TerminalDelivery.CancelledStaysUndelivered` | src/openai.ts:6840-6940 | Once cancelled undelivered, the event stays undelivered for good. |
| `DeliveryProgress.QuietMeansDelivered` | src/openai.ts:6840-6940 | A run without a cancellation, a rejected publication or a failed send gets stuck only when it is done: once an owner has claimed and the inner delivery has started, if neither side has a step left, the client has received response.completed exactly once after one publication, and both sides have returned. |
| `DeliveryProgress.DeliveryAdvances` | src/openai.ts:6904-6922 | It does get there: every step of either deliverer leaves fewer of them, and no other step leaves more. |
| `DeliveryProgress.ThrowsOnlyOnFailure` | src/openai.ts:6904-6922 | Neither side throws unless somebody cancelled, the publication was rejected or a send failed. |
| `DeliveryProgress.DirectAsksForPublication` | src/openai.ts:6904-6912 | An uncancelled staged delivery whose owner is the direct side asks for publication when its turn comes. |
| `DeliveryProgress.StepsAreExact` | src/openai.ts:6840-6940 | Exactly which steps write owner, staging, commit, cancellation and delivery, and at which points either side throws. |
| `DeliveryProgress.CancellationSettlesAlias` | src/openai.ts:6868-6877 | Once a delivery has failed or was cancelled, a staged alias has been sent to publication if it was committed, and to revocation if not. |
| `TerminalDelivery.ResponsesTerminalDelivery.Claim` | src/openai.ts:6880-6885 | The first owner wins. The new closure state is exactly that of the specification. |
| `TerminalDelivery.ResponsesTerminalDelivery.BeginPublish` | src/openai.ts:6858-6867 | Starts the memoised publication, or refuses. The new closure state is exactly that of the specification. |
| `TerminalDelivery.ResponsesTerminalDelivery.Stage` | src/openai.ts:6893-6903 | Stages the alias; a cancelled delivery revokes it at once. The new closure state is exactly that of the specification. |
| `TerminalDelivery.ResponsesTerminalDelivery.Cancel` | src/openai.ts:6923-6938 | Cancels if the event is undelivered and settles the alias. The new closure state is exactly that of the specification. |
| `TerminalDelivery.ResponsesTerminalDelivery.DeliverInner` | src/openai.ts:6904-6916 | The inner delivery up to its first wait: uncancelled, the direct owner waits for the publication it has asked for, and behind the bridge the event is in the inner stream. The new closure state is exactly that of the specification. |
| `TerminalDelivery.ResponsesTerminalDelivery.FinishInner` | src/openai.ts:6904-6916 | The rest of the inner delivery. The new closure state is exactly that of the specification. |
| `TerminalDelivery.ResponsesTerminalDelivery.FinishBridge` | src/openai.ts:6917-6922 | The rest of the bridge delivery. The new closure state is exactly that of the specification. |
| `TerminalScanner.MatchesAreHeaders` | src/openai.ts:6969-6981 | In any part of a printed stream the pattern matches only at the header lines of completed and failed events. |
| `TerminalScanner.FirstIsFirstTerminal` | src/openai.ts:6969-6990 | The first match in the first n units is the first completed or failed event whose header line they hold. |
| `TerminalScanner.CarryLosesNothing` | src/openai.ts:6982-6993 | A match that begins before the 256-character carry would have been seen earlier. |
| `TerminalScanner.FiresExactlyOnFirstTerminal` | src/openai.ts:6979-6996 | However a printed stream is cut, a call on a fresh scanner fires exactly when its chunk brings the first completed or failed event, and reports that event. |
| `TerminalScanner.Scanner.Scan` | src/openai.ts:6985-6995 | One call: carry, seen event and answer. |
| `PromptTokens.CountPromptTokenClasses` | src/models.ts:142-162 | The loop counts every code point in its class. |
| `PromptTokens.CountsSplit` | src/models.ts:142-162 | Counts add up wherever a cut does not go through a surrogate pair. |
| `PromptTokens.EstimateSubadditive` | src/models.ts:102-108 | The rounding-up estimate of a whole is at most that of its parts, and at least that of each. |
| `PromptTokens.EstimateGrowsBySuffix` | src/models.ts:102-162 | A longer suffix is never estimated lower, even when it completes a surrogate pair. |
| `PromptTokens.JoinedEstimate` | src/openai.ts:1755-1785 | Joining with blank lines costs at most the sum of the pieces. |
| `PromptPrefix.PrefixWithinLimits` | src/openai.ts:1690-1716 | The loop with its own counters and its own emoji rule. |
| `PromptPrefix.ScanFits` | src/openai.ts:1690-1716 | The prefix ends between characters and is inside both limits by the counts of the loop. |
| `PromptPrefix.ScanIsLongest` | src/openai.ts:1690-1716 | Every longer prefix that ends between characters breaks a limit. |
| `PromptPrefix.PrefixWithinDouble` | src/openai.ts:1690-1716 | By the estimator the prefix costs at most twice the limit. |
| `PromptPrefix.DoubleIsReached` | src/openai.ts:1690-1716 | A character of the estimator's emoji blocks that is no pictograph reaches the factor two. |
| `PromptAssembly.BoundInstructions` | src/openai.ts:1734-1753 | The backward loop over the instruction layers. |
| `PromptAssembly.BoundLayer` | src/openai.ts:1744-1753 | One layer, whole or truncated with the marker; how much of it is shown is PromptLayers.LayerKeepsLongestPrefix. |
| `PromptAssembly.BoundHistory` | src/openai.ts:1756-1775 | The backward loop over the turns. |
| `PromptAssembly.BoundPrompt` | src/openai.ts:1718-1788 | The whole assembly with its marker and closing check. |
| `PromptLayers.LayerKeepsLongestPrefix` | src/openai.ts:1744-1753 | A layer that fits is kept whole; one that does not becomes its longest prefix between characters that fits beside the marker, and the marker. |
| `PromptLayers.LayersAreNewest` | src/openai.ts:1734-1753 | The instruction layers kept are the newest, in order, each cut to what the later ones leave of its third; an older one is left out only when nothing is left. |
| `PromptLayers.PromptIsAssembled` | src/openai.ts:1718-1788 | A prompt is its newest instruction layers, the marker exactly if turns were left out and it fits, and the longest run of newest turns that fits, in order, unless the whole is over a limit. |
| `PromptBounds.LayerStaysInside` | src/openai.ts:1744-1753 | A truncated layer keeps its character limit and costs at most max(6, 2a - 6) tokens for a available tokens. |
| `PromptBounds.InstructionShare` | src/openai.ts:1724-1755 | The instruction text takes at most a third of the characters; its tokens may exceed their third b, up to max(2b - 6, b + 5). |
| `PromptBounds.ClosingCheckFiresOnInstructions` | src/openai.ts:1786-1787 | The closing check fires exactly when the instruction text alone is estimated above the token limit. |
| `PromptBounds.ClosingCheckIsQuietExactly` | src/openai.ts:1718-1788 | It can fire for some prompt exactly when the token limit is 3, 4, 5 or 6. |
| `PromptBounds.HistoryIsNewestRun` | src/openai.ts:1762-1775 | The history kept is the longest run of newest turns that fits, and overflow is reported exactly when a turn was left. |
| `PromptRetention.EnsureCurrentTurnFits` | src/openai.ts:2110-2140 | The three forward loops of the check. |
| `PromptRetention.CheckIsExact` | src/openai.ts:2110-2140 | When the layers fit, the check passes exactly if the active turn fits beside them in characters and tokens. |
| `PromptRetention.CheckReservesThird` | src/openai.ts:2110-2140 | Whether or not the layers fit: the check passes exactly if the active turn fits beside what is reserved for them, which is all they take, or their third but for at most two characters. |
| `PromptRetention.ChatPrompt` | src/openai.ts:2142-2180 | Check, assembly and the blank test. |
| `PromptRetention.CurrentTurnIsKept` | src/openai.ts:2142-2180 | If the layers fit their third and the check passes, the prompt is all layers, perhaps the marker, and verbatim and in order the turns from some point no later than the last user turn. |
| `ToolResult.BoundedToolResultForPrompt` | src/openai.ts:2196-2217 | The loop leaves by its fourth iteration for every text shorter than 10^16, so the fallback is dead. |
| `ToolResult.SettlesByFour` | src/openai.ts:2200-2212 | The omitted count reaches its fixed point by the third value tried. |
| `ToolResult.DecimalReadsBack` | src/openai.ts:2200-2212 | A printed count reads as that count. |
| `ToolResult.CompactionIsHonest` | src/openai.ts:2196-2217 | The result is exactly limit long; when the marker fits it shows a head of two thirds, rounded up, and a tail of what is shown, and prints exactly how many code units it drops. |
| `ToolResult.OmitsMost` | src/openai.ts:2200-2212 | Of all honest compactions of that length the loop finds the one that omits most. |
| `CompactSuffix.CompactTextSuffix` | src/openai.ts:6247-6263 | The binary search finds the first start whose suffix is within the limit, then steps off a low surrogate. |
| `CompactSuffix.LongestSafeSuffix` | src/openai.ts:6247-6263 | The result is within the limit and never splits a pair; it is the longest such suffix exactly when the search does not stop at a low surrogate without its high one. |
| `CompactSuffix.PairedTextKeepsLongest` | src/openai.ts:6247-6263 | For text without lone surrogates it always is the longest. |
| `CompactSuffix.LoneSurrogateIsLost` | src/openai.ts:6259-6262 | The failing case: a lone low surrogate that fitted is dropped. |
| `SocketReader.RunKeepsInv` | src/chathub.ts:1663-1759 | Over every run queue and waiters are never both non-empty, the character count is exact and within the cap, and reads are served in order. |
| `SocketReader.ReadsArePrefix` | src/chathub.ts:1663-1759 | The values reads received are a prefix of the accepted frames, in order, and while the socket is open nothing else is missing but the queue. |
| `SocketReader.ReadsSettleOnce` | src/chathub.ts:1733-1753 | Every read either waits or has exactly one outcome, after every further run; a timeout loses nothing. |
| `SocketReader.EveryReadSettlesOnce` | src/chathub.ts:1663-1759 | From the start: after every run each read made so far either waits or has exactly one outcome. |
| `SocketReader.FirstReasonStays` | src/chathub.ts:1691-1705 | The first terminal reason is the one every later rejected read reports, and no frame is accepted after it. |
| `SocketOutcomes.AcceptsExactly` | src/chathub.ts:1668-1730 | A frame is accepted exactly when the reader is open, the frame is within the limits for one frame, and a read waits or the cap allows it. |
| `SocketOutcomes.EndsExactly` | src/chathub.ts:1663-1759 | For which reasons a reader ends, and when it drops what is queued: both directions. |
| `SocketOutcomes.SettlesExactly` | src/chathub.ts:1663-1759 | Which reads each step settles, with which value or reason. |
| `SocketOutcomes.WaitsExactly` | src/chathub.ts:1733-1753 | Which reads each step leaves waiting. |
| `SocketReader.Reader.FailWith` | src/chathub.ts:1691-1705 | The first reason stays, nobody waits any more, and no value is lost or invented. Kept by every method: queue and waiters balanced, frames in order, every read settled at most once. |
| `SocketReader.Reader.SettleWith` | src/chathub.ts:1668-1690 | An open reader gives the value to its oldest read, or keeps it for the next, or ends because nobody waits and the cap would be passed. Kept by every method: queue and waiters balanced, frames in order, every read settled at most once. |
| `SocketReader.Reader.Receive` | src/chathub.ts:1706-1730 | A frame is accepted only within the size limit and only as the next accepted value; a larger one ends the reader. Kept by every method: queue and waiters balanced, frames in order, every read settled at most once. |
| `SocketReader.Reader.Ask` | src/chathub.ts:1734-1752 | next(): the oldest queued frame, or the terminal reason, or a wait, and it says which. Kept by every method: queue and waiters balanced, frames in order, every read settled at most once. |
| `SocketReader.Reader.TimerFires` | src/chathub.ts:1744-1748 | Removes exactly the timed-out read. Kept by every method: queue and waiters balanced, frames in order, every read settled at most once. |
| `AzHex.TokensArePrefixFree` | src/chathub.ts:418-454 | No spelling of a unit is a proper prefix of another. |
| `AzHex.DecodeAZHEXString` | src/chathub.ts:421-454 | The index loop. |
| `AzHex.DecodesExactlyTheLanguage` | src/chathub.ts:421-454 | The decoder accepts exactly the concatenations of literals, ZHHX, and ZHHHH outside ASCII, and reads each in the one way there is. |
| `AzHex.RoundTrip` | src/chathub.ts:418-454 | It inverts the documented encoder for every UTF-16 string, with any mix of literal and ZHHHH outside ASCII. |
| `AzHexValue.DecodeAZHEXValue` | src/chathub.ts:458-489 | The traversal with its shared node budget. |
| `AzHexValue.DecodeArray` | src/chathub.ts:469-476 | The loop over array items. |
| `AzHexValue.DecodeObject` | src/chathub.ts:477-488 | The loop over entries with its key collision check. |
| `AzHexValue.AcceptsExactly` | src/chathub.ts:458-489 | A value is accepted exactly when it is at most 32 deep, at most 50,000 values large, all its strings decode and no two keys of an object decode alike; the result is then its translation. |
| `AzHexValue.TreesRoundTrip` | src/chathub.ts:458-489 | An encoded tree comes back unchanged exactly when it is within the limits and repeats no key. |
| `Exchange.ChatHub` | src/chathub.ts:2230-2292 | The attempt loop. |
| `Exchange.HubSubmitsOnce` | src/chathub.ts:1446-1559 | With attempts that report their submissions, chatHub submits at most once in at most two attempts and reports a submission it made. |
| `Exchange.HandleRound` | src/openai.ts:2902-3008 | The catch block with a failed account lock that replaces the cause: route retry, failover, or giving up with tombstone or release. |
| `Exchange.Exchange` | src/openai.ts:2791-3027 | The loop over accounts; it terminates. |
| `Exchange.ExchangeSubmitsOnce` | src/openai.ts:2791-3027 | Over every script of faithful runs at most one submission happens, on at most two distinct accounts; only the last account contacted can have submitted, and a failure after a submission tombstones the conversation. |
| `Exchange.PromptIsSubmittedOnce` | src/openai.ts:2791-3027 | The whole chain: over every script of attempts that report their submissions, run through chatHub on each account, the prompt goes out at most once, on at most two distinct accounts, and a failure after it tombstones the conversation. |
| `Exchange.HiddenSubmissionRepeats` | src/openai.ts:2920-2990 | The assumption is needed: a run that hides its submission lets the prompt go out twice. |
| `ExchangeOutcomes.HubEndsExactly` | src/chathub.ts:2230-2292 | The second attempt happens exactly when the first ended without a trace on a transport message; submissions and ending of the call are those of its attempts, a plain failure after the deadline being reported as the deadline. |
| `ExchangeOutcomes.RoundEndsExactly` | src/openai.ts:2902-3008 | Every way a round can end: when the route is changed, when another account takes over, and else the cause with its cleanup. |
| `ExchangeOutcomes.ExchangeEndsExactly` | src/openai.ts:2791-3027 | An exchange is one round or two; the second, on another account, follows exactly when the first moved on, and gives ending and cleanup. |
| `CompletionEvidence.FoldIsTally` | src/completion-evidence.ts:516-588 | For every action the summary holds the tally of exactly the statuses credited since its last reset. |
| `CompletionEvidence.SpecificClaimSupported` | src/completion-evidence.ts:685-751 | A specific claim is supported exactly when nothing is pending and some successful record is the last one credited with the action, with no later mutation when the action is verify. |
| `CompletionEvidence.PassiveRecordIsNeutral` | src/completion-evidence.ts:534-588 | A record without operations changes the verdict on no specific claim. |
| `CompletionEvidence.GenericClaimSupported` | src/completion-evidence.ts:656-676 | The claim that all is complete is supported exactly when nothing is pending, unclassified records are clean, every action last succeeded and one of them is more than a check. |
| `CompletionEvidence.AllowedExactlyWhenAllHold` | src/completion-evidence.ts:685-751 | An answer is let through exactly when the tool history supports every claim it makes. |
| `EvidenceVerdict.VerdictIsExact` | src/completion-evidence.ts:685-751 | The whole verdict from the tool history: the refuted claims in their order, the gravest of their reasons, and the turn ended for pending or failed evidence, toned down for unknown or missing evidence. |
| `EvidenceVerdict.ReasonIsWhy` | src/completion-evidence.ts:656-720 | The reason given for each claim is the one that the records themselves give. |
| `CompletionEvidence.EvaluateCompletionEvidence` | src/completion-evidence.ts:685-751 | The loop that fills the reason map, the filter and the gravest reason. |
| `CompletionEvidence.SummarizeCompletionEvidence` | src/completion-evidence.ts:552-588 | The two loops over completed and pending records. |
| `CompletionEvidence.Accumulator.UpdateActionEvidence` | src/completion-evidence.ts:516-528 | One action counter updated in place. |
| `CompletionEvidence.Accumulator.UpdateOrderedActionEvidence` | src/completion-evidence.ts:534-549 | One record: verification reset, then the credited actions. |
| `CompletionEvidence.Accumulator.AddCompleted` | src/completion-evidence.ts:569-582 | One completed record with all nine counters. |

## Left out

- Cryptography, OAuth, the admin, account and migration routes, R2 archiving, and the fetch and WebSocket calls themselves: I/O around the logic.
- `src/cloud-cleanup.ts`: its keep-N counter runs across rounds (src/cloud-cleanup.ts:41-43), so no keep-N guarantee holds as written.
- Heuristics over prose: refusal, commitment and claim patterns, tool capability guesses, command classifiers. They enter as given actions, statuses and claims.
- Repair prompts and the model-decision orchestration: their content is prose.
- `responsesPrompt`: a unit whose only text is empty shifts its two filters against each other (src/openai.ts:2279-2285), so retention is proved on `chatPrompt`.
- Rendering: prompt units come with their rendered text. The grouping of a tool call with its results and the escaping of roles are not part of the model.
- An unlimited token budget (`Infinity`): the limits of the model are natural numbers, every one of which is covered.
- `signalRFrameParts` and `parseSignalRHandshake`: a split at one character and a filter, with little to prove beyond it.
- The runner map of `ChatSession` (idempotent run ids, cancellation markers) and the caller-tools snapshot: kept beside the row and not read by the lease logic.
- Alarm scheduling and archive queueing: calls without effect on the rows.
- Identifier size limits: `World.fields` in `LeaseRow` stands for all column validation and says only valid with a size, or invalid.
- Usage counters and ping payloads of the Anthropic stream, a downstream that throws on enqueue, and the parsing of one payload: `AnthropicBody` takes decoded text and a parser that is left uninterpreted.
- PromptRetention.CurrentTurnIsKept: assumes that the instruction layers fit their third; when they are truncated, the forward loop of the check and the backward loop of the assembly may differ by some characters.
- AnthropicRuns.ToolUseEmitsAllArguments: does not cover stop_reason max_tokens, because that path skips the check that every tool has a block (src/anthropic.ts:785-790).
- AnthropicTransducer.Transducer.StartTool: two guards of the source that no state reaches are not written out: the one on the number of an open foreign block and the second test of `closed`.
- AliasProtocol.PublishedAliasesAreBounded: a call whose registration a reset tore may ask again in the model, where the source has it fail; a seed whose payload differs from the stored one is refused without effect in the source and is not a step of the model; an alias row that holds a lease does not occur, so busy is only a failed eviction.
- LeaseRuns.OnlyCommittedCoordinatesAreReused: `seed` is modelled only far enough to show that alias rows are never leased; its protocol is in `AliasProtocol`.
- Exchange.ExchangeSubmitsOnce: an RPC to the runner that fails without an answer is a run whose report is not faithful, which the assumption excludes.
- AzHexValue.TreesRoundTrip: objects are lists of entries, so the reordering of integer-like keys by JavaScript objects is not modelled.
- CompletionEvidence.GenericClaimSupported: the order in which the states of an object are listed is a parameter; it decides only which reason is given first, never whether the claim is supported.
- ToolResult.BoundedToolResultForPrompt: the fnv1a32 digest is a parameter of eight characters, and the two-thirds split is exact where the source rounds a double.
- TerminalScanner.FiresExactlyOnFirstTerminal: chunks are the pieces of text the streaming decoder delivers; splitting a character's bytes over two chunks is the decoder's business.
