# SentinelRAG: verified models of its protocols and algorithms

SentinelRAG is a multi-tenant retrieval-augmented generation service. Most of it is wiring around HTTP, SQL and
user interface, but its correctness rests on a handful of small protocols and algorithms. This project models
those in Dafny, in the form the source gives them (state machines for protocols whose steps interleave, classes and
loops where the source updates things in place, functions where it computes), and proves what they promise for
every input, every run and every interleaving.

`dafny verify dfyconfig.toml` checks everything.

## What is modelled

- **Idempotency-Key protocol** (`Idempotency`, `ClaimLiveness`). A timed transition system over one Redis key and any
  number of requests. Single execution holds for every interleaving exactly when leaders settle within 239 poll
  intervals, and no live marker outlives the request that claimed it.
- **Cost gate and reservations** (`CostGate`, `Reservations`, `BudgetProtocol`, `BudgetVisibility`, `BudgetLedger`). The
  decision function, the Redis store, and a concurrent machine in which check, reserve, book, release and commit are
  separate steps. Spend is bounded by the hard cap plus one estimate per blind request; the bound is tight. A held
  reservation is always seen by a full scan, the window between release and commit never is, and committed spend and
  the reservations in Redis are read off the events alone.
- **Query orchestration** (`Orchestrator`, `AuditTrail`). One mutable run whose every awaited call may raise, the
  session exit around it, and what of it lasts in Postgres and in the archive.
- **Chunkers** (`Text`, `Elements`, `Places`, `WordTokens`, `TokenWindows`, `SentenceSplit`, `SentenceTexts`,
  `StaleChunks`, `SemanticChunker`, `ChunkTexts`, `SlidingWindow`, `StructureAware`, `StructureTexts`). Conservation,
  order, overlap, size bounds and attribution, down to where each sentence, paragraph and element stands in the returned
  texts. `WordTokens` is a concrete tokenizer that meets every assumption made of one.
- **Trace stream** (`Sse`, `TraceStream`). Server generator, wire format, incremental reader, end to end.
- **Audit** (`AuditKey`, `DualWrite`, `Reconciliation`). Object keys, the dual write, and the daily repair that
  closes its gap.
- **Ingestion** (`Ingestion`, `IngestionResults`). Activities as transactions, retried at least once, and what a
  successful workflow leaves under the version row of its document and content.
- **Retrieval** (`StableSort`, `RankFusion`, `Decimals`, `Citations`, `Access`). Fusion, rerank, numbered context, citations,
  and the access predicate on both search backends.

## Where the code and its comments disagree

- `release_claim` says it never clobbers a stored result; get and delete are two round trips, so it can. It is
  safe exactly when at most one request can be past its claim (`Idempotency.ReleaseIsSafeIffAlone`).
- The gate cannot see a request between release and commit (`BudgetProtocol.CommitWindowIsBlind`), and requests that
  abstain book their embedding without passing it (the `ungated` term of `BudgetProtocol.SpendBound`, reached by
  `BudgetProtocol.BoundIsTight`).
- A tenant's downgrade policy may raise the price (`CostGate.OverrideCanBeDearer`); the default ladder cannot
  (`CostGate.DefaultDowngradeNeverDearer`).
- The orchestrator means to audit denied and failed queries and to mark their session row `failed`, but all of it
  shares the request's transaction, which the exception rolls back. An audit event of a run is in Postgres exactly
  when the run returned and its session committed; a denial or failure never is, and its only trace is the archive
  copy, there exactly when that one write succeeded (`Orchestrator.Run.Serve`, `AuditTrail.AuditOutlivesItsRunIff`,
  `AuditTrail.FailureIsOnlyArchived`). The cost of a model call whose run raises afterwards is not booked either.
- A sentence chunk can bring nothing new: exactly when an oversized sentence follows sentences that fit the
  overlap and the next sentence does not fit behind them, or there is none (`StaleChunks.StaleExactly`). Then a text
  can be returned twice (`StaleChunks.ChunkCanRepeat`, `StaleChunks.RepeatHappens`).
- Merging small leftovers back is bounded exactly when the target is at least twice the minimum less one
  (`SemanticChunker.BoundedIff`).
- Both window chunkers accept a negative overlap, and then lose tokens
  (`TokenWindows.CoverageIffNoGap`).
- Markup that is present but blank makes the structure-aware chunker drop a group
  (`StructureAware.DroppedIffBlankMarkup`).
- An SSE value with a line break does not survive (`Sse.RoundTripIffOneLine`).
- "Found by both arms beats found by one" holds exactly while neither arm returns more than `rrf_k + 1` hits, that is
  61; requests may ask for 200 (`RankFusion.AgreementWinsIff`).
- The ingestion workflow's docstring speaks of jobs that fan out over several documents. No caller creates one:
  every job has `documents_total` 1, and those count their document exactly once
  (`IngestionResults.SingleDocumentCounted`). A job of several documents would count them all exactly when no two
  finalizations are adjacent among its status writes (`IngestionResults.AllCountedIffNeverTwoInARow`,
  `IngestionResults.FanOutCanUndercount`).

## Model

| member | source | states |
|---|---|---|
| Idempotency.EpochStep | apps/api/app/api/v1/routes/query.py:89-174 | every enabled step of any request keeps the key in one of its three epochs (unclaimed, led, resolved), given a leader within the bound |
| Idempotency.LedStep | apps/api/app/services/idempotency.py:151-166 | while a timely leader runs, no waiter's polling runs out |
| Idempotency.EpochReached | apps/api/app/api/v1/routes/query.py:89-174 | every state of every well-timed behaviour is in an epoch |
| Idempotency.TimelyLeaderRunsOnce | apps/api/app/services/idempotency.py:75-166 | at every point of every interleaving at most one execution and one common reply; when all have settled, exactly one and every request returned it |
| Idempotency.LateLeaderRunsTwice | apps/api/app/services/idempotency.py:151-166 | for every latency from 239 intervals on there is a run with two executions |
| Idempotency.SingleExecutionIffTimely | apps/api/app/services/idempotency.py:38-41 | single execution is guaranteed if and only if the leader latency is below 239 poll intervals |
| Idempotency.RepliesAreComputed | apps/api/app/api/v1/routes/query.py:131-160 | with any timing, expiry or failure, every stored or returned reply was computed by some run for this key |
| Idempotency.ReleaseKeepsResults | apps/api/app/services/idempotency.py:105-122 | while at most one request is past its claim, release never removes a stored result |
| Idempotency.ReleaseCanClobber | apps/api/app/services/idempotency.py:105-122 | a reachable state from which release deletes a stored result |
| Idempotency.ReleaseIsSafeIffAlone | apps/api/app/services/idempotency.py:105-122 | over all behaviours with at most n requests past their claim, release never removes a stored result if and only if n is at most 1 |
| ClaimLiveness.LiveMarkerHasOwner | apps/api/app/services/idempotency.py:105-122 | in every behaviour, with any timing, a live pending marker means that some request is past its claim and not yet answered |
| ClaimLiveness.NoWaitingOnADeadLeader | apps/api/app/services/idempotency.py:105-122 | once no request is active, a look-up returns the stored result or goes on to claim, the claim succeeds unless a result is stored, and a waiter's next poll ends its wait |
| ClaimLiveness.RaisedClaimIsFreed | apps/api/app/services/idempotency.py:114-116 | a run in which the claimant raises and the next request goes straight to its own claim |
| ClaimLiveness.DeadClaimBlocksForTheTtl | apps/api/app/services/idempotency.py:38-41 | a marker that nobody releases blocks claims for exactly ninety seconds |
| ClaimLiveness.ResultAnswersForADay | apps/api/app/services/idempotency.py:38-41 | a stored result answers look-ups for exactly a day |
| CostGate.PricedPerToken | apps/api/app/services/cost_service.py:90-109 | the estimate is additive in input and output tokens, a thousand tokens cost the table price, and an unknown model costs as the dearest known one |
| CostGate.AdmittedIffUnderHardCap | apps/api/app/services/cost_service.py:148-177 | a request passes exactly when no budget is active or spend plus reservations plus estimate is strictly under the hard cap |
| CostGate.GateBands | apps/api/app/services/cost_service.py:160-195 | in percent of the limit: denied exactly from the hard threshold on; between the soft and the hard one on the named other model; on another model only there, and only on the named one |
| CostGate.PolicyBeforeLadder | apps/api/app/services/cost_service.py:207-214 | the tenant's policy wins, the ladder stands in where the policy names no model, and otherwise there is no target |
| CostGate.NeverDearerIffPricesBelow | apps/api/app/services/cost_service.py:44-66 | one model is never dearer than another for any request size exactly when both its unit prices are no higher |
| CostGate.DefaultDowngradeNeverDearer | apps/api/app/services/cost_service.py:207-214 | on the default ladder a downgrade never costs more than the estimate |
| CostGate.OverrideCanBeDearer | apps/api/app/services/cost_service.py:207-214 | for every limit there is a tenant policy whose downgrade is dearer |
| Reservations.ReservationStore.Reserve | apps/api/app/services/budget_reservation.py:58-90 | true exactly for positive amounts a connected store acknowledged; the key is set exactly when the command took effect, even if the client saw an error |
| Reservations.ReservationStore.Release | apps/api/app/services/budget_reservation.py:92-111 | removes exactly this key when the command took effect; a client error may leave it |
| Reservations.ReservationStore.PageTotal | apps/api/app/services/budget_reservation.py:133-141 | one page's total, skipping values gone or unparseable |
| Reservations.ReservationStore.TotalReserved | apps/api/app/services/budget_reservation.py:113-150 | the total over all pages of the cursor walk, or zero after any client error |
| Reservations.ScanNeverUnderReports | apps/api/app/services/budget_reservation.py:128-143 | a scan that yields every key at least once never reports less than what is in flight |
| Reservations.ScanIsExact | apps/api/app/services/budget_reservation.py:128-143 | a scan that yields every key once reports exactly what is in flight, in any order |
| Reservations.ReserveThenRelease | apps/api/app/services/budget_reservation.py:58-111 | reserving adds the amount to its tenant only, and releasing restores the store |
| BudgetProtocol.CheckSurvives | apps/api/app/services/cost_service.py:148-177 | whatever step any request takes, what a check in progress has read stays within what it has added up |
| BudgetProtocol.InvStep | apps/api/app/services/rag/stages/budget.py:75-101 | every step of every request keeps the protocol invariant |
| BudgetProtocol.ExposureByVisibility | apps/api/app/services/cost_service.py:148-177 | all exposure is counted usage, a seen reservation, or belongs to a blind request |
| BudgetProtocol.Admission | apps/api/app/services/rag/stages/budget.py:75-101 | an admission leaves exposure under the hard cap plus the blind allowance |
| BudgetProtocol.BoundStep | apps/api/app/services/rag/orchestrator.py:225-266 | every step keeps exposure within the starting spend or under the cap with allowance |
| BudgetProtocol.SpendBound | apps/api/app/services/budget_reservation.py:58-150 | in every interleaving, committed spend plus outstanding estimates is at most max(start, hard cap + k * ceiling) plus what was booked ungated |
| BudgetProtocol.HardCapHolds | apps/api/app/services/cost_service.py:148-177 | with no blind request at any decision, a tenant under its hard cap keeps committed spend plus all outstanding estimates strictly under it, apart from what was booked ungated |
| BudgetProtocol.BoundIsTight | apps/api/app/services/rag/orchestrator.py:184-193 | for every k, estimate, margin and ungated amount there is a run that commits the cap plus the whole allowance less the margin, plus the whole ungated amount |
| BudgetProtocol.CommitWindowIsBlind | apps/api/app/db/session.py:129-131 | a check that starts and decides between another request's release and commit is blind to it, in every behaviour |
| BudgetVisibility.HeldKeyIsThere | apps/api/app/services/budget_reservation.py:77-81 | in every behaviour a reservation that was placed is in Redis, with its amount, as long as its request generates or has booked and the key does not expire |
| BudgetVisibility.HolderIsSeen | apps/api/app/services/cost_service.py:148-158 | a check that began after that reservation and read every key present throughout has seen it and is not blind to its request |
| BudgetVisibility.CommittedIsCounted | apps/api/app/services/cost_service.py:148-158 | a request committed before the check read spend is counted and the check is not blind to it |
| BudgetVisibility.HolderBlocks | apps/api/app/services/cost_service.py:148-177 | in every behaviour, a held reservation that reaches the hard cap together with the starting spend and the new estimate makes the check deny |
| BudgetVisibility.OrderlyRunsKeepTheCap | apps/api/app/services/cost_service.py:148-177 | from the order of events alone: where every check scans fully and every other costed request has committed or placed its reservation before the check began and holds it through the decision, a tenant under its hard cap stays strictly under it, apart from ungated bookings |
| BudgetVisibility.LostStaysLost | apps/api/app/services/rag/orchestrator.py:199-223 | a request that raised or was denied never commits and adds nothing to committed spend |
| BudgetVisibility.SecondAdmittedIff | apps/api/app/services/cost_service.py:148-177 | of two requests in a row the second is admitted exactly when the spend and both estimates stay under the hard limit, or, where the reservation was lost, expired, unread or released early, the spend and its own estimate do |
| BudgetLedger.LedgerBalances | apps/api/app/services/rag/stages/persistence.py:29-81 | in every behaviour committed spend is the starting spend plus the actual cost of each request that committed and of each abstention, read off the events alone |
| BudgetLedger.SpendReadIsTheLedger | apps/api/app/services/cost_service.py:148-158 | what a check reads as spend is that ledger at the moment it reads |
| BudgetLedger.RedisHoldsWhatWasPlaced | apps/api/app/services/budget_reservation.py:58-111 | Redis holds exactly the positive estimates reserved and neither released nor expired since, each at its request's estimate |
| BudgetLedger.KeysAreHeld | apps/api/app/services/rag/orchestrator.py:255-266 | unless its release failed, a key in Redis belongs to a request between its reservation and its release |
| BudgetLedger.RestIsEmpty | apps/api/app/services/rag/orchestrator.py:255-266 | when every request has ended and every release got through, Redis holds nothing of the tenant |
| Orchestrator.Run.Gate | apps/api/app/services/rag/stages/budget.py:45-101 | passes only with the gate's model chosen and the reservation placed last; a denial is audited, then raises |
| Orchestrator.Run.AuditDecision | apps/api/app/services/rag/stages/budget.py:103-134 | exactly the denial or the downgrade event is recorded, before anything else the gate does, or nothing when recording raises |
| Orchestrator.Run.ReserveSpend | apps/api/app/services/rag/stages/budget.py:90-101 | the context is marked before the reservation, so a raising reserve is still released |
| Orchestrator.Run.Generate | apps/api/app/services/rag/stages/generation.py:24-52 | one model call at most, on the effective model |
| Orchestrator.Run.Persist | apps/api/app/services/rag/stages/persistence.py:29-81 | on success books exactly the embedding cost and, if generated, the completion cost |
| Orchestrator.Run.Pipeline | apps/api/app/services/rag/orchestrator.py:177-196 | up to persistence, whatever raises, the log stays ordered and gated; on success exactly one generation unless the run abstains |
| Orchestrator.Run.Finalize | apps/api/app/services/rag/orchestrator.py:225-253 | terminal status, then the audit event, then the release; raising leaves the log as it was |
| Orchestrator.Run.Fail | apps/api/app/services/rag/orchestrator.py:199-223 | failed status and audit when they work, and always the release |
| Orchestrator.Run.ReleaseIfAny | apps/api/app/services/rag/orchestrator.py:255-266 | releases exactly when a service is wired, the session opened and a reservation was marked |
| Orchestrator.Run.Execute | apps/api/app/services/rag/orchestrator.py:118-223 | for every fault pattern: the run returns exactly when none of the faults on its path occurs; a marked reservation is released once, as the last effect; generation only behind the gate and its reservation; returning runs are abstained exactly when nothing was reranked and book what they spent; inside the transaction, raising runs end failed when that write works; a denial never generates and is audited exactly when that write works; a returning run carries the downgrade event exactly when the gate downgraded it |
| Orchestrator.Run.Serve | apps/api/app/db/session.py:129-131 | Postgres keeps the run's row, audit events and bookings exactly when the run returns and the session commits, and nothing otherwise; no failed row, denial or failure event ever lasts |
| AuditTrail.Decided | apps/api/app/db/session.py:129-131 | every audit event of a run is recorded and is committed exactly when the run's session was |
| AuditTrail.AuditOutlivesItsRunIff | apps/api/app/services/rag/orchestrator.py:199-223 | in every settled interleaving an audit event of a run is in Postgres iff the run returned and committed; if not, it is in the archive iff its archive write succeeded, whatever reconciliation does |
| AuditTrail.FailureIsOnlyArchived | apps/api/app/services/rag/stages/budget.py:84-87 | a denial or failure event is never in Postgres and is in the archive iff its archive write succeeded |
| Orchestrator.CloseKeepsShape | apps/api/app/services/rag/orchestrator.py:199-253 | both exits leave an ordered, gated, settled log with the right terminal event |
| Orchestrator.DeniedNeverGenerates | apps/api/app/services/cost_service.py:217-235 | a gated log under a denial holds no model call |
| Orchestrator.ReservationCoversTheRun | apps/api/app/services/rag/stages/budget.py:60-79 | with a completion within its own estimate, the embedding and the completion together stay within what was reserved |
| WordTokens.MeasuredIsConsistent | packages/shared/python/sentinelrag_shared/chunking/semantic.py:33 | a tokenizer of words and newline runs gives every text back and meets all assumptions on token counts |
| WordTokens.SaySize | packages/shared/python/sentinelrag_shared/chunking/semantic.py:104 | that tokenizer has texts of every size, so the oversized and window branches are reached |
| TokenWindows.TokenWindowSplit | packages/shared/python/sentinelrag_shared/chunking/semantic.py:183-196 | the backstop loop yields the token windows |
| TokenWindows.WindowsReassemble | packages/shared/python/sentinelrag_shared/chunking/sliding_window.py:61-80 | dropping the overlap of every window but the first and concatenating gives the tokens back |
| TokenWindows.WindowCount | packages/shared/python/sentinelrag_shared/chunking/sliding_window.py:61-80 | the number of windows is 1 + ceil(max(0, n - target) / step) |
| TokenWindows.CeilDivRoundsUp | packages/shared/python/sentinelrag_shared/chunking/sliding_window.py:63-64 | the rounding in that count is the least multiple not below |
| TokenWindows.WindowsAreSpans | packages/shared/python/sentinelrag_shared/chunking/semantic.py:191-195 | window k is the slice of span k |
| TokenWindows.WindowsAdvance | packages/shared/python/sentinelrag_shared/chunking/sliding_window.py:61-80 | no later window lies inside its predecessor, and they share exactly the overlap |
| TokenWindows.CoverageIffNoGap | packages/shared/python/sentinelrag_shared/chunking/sliding_window.py:34-38 | every token is in a window exactly when the overlap is not negative or one window holds all |
| TokenWindows.AnchorAt | packages/shared/python/sentinelrag_shared/chunking/sliding_window.py:82-93 | the last element that starts at or before the offset, or none when all start later |
| SlidingWindow.BuildStream | packages/shared/python/sentinelrag_shared/chunking/sliding_window.py:40-55 | pieces, their elements and their running offsets, in order |
| SlidingWindow.PieceStartsAtOffset | packages/shared/python/sentinelrag_shared/chunking/sliding_window.py:46-57 | each recorded offset points at its piece in the joined text |
| SlidingWindow.OwnerIsUnique | packages/shared/python/sentinelrag_shared/chunking/sliding_window.py:82-93 | every position of the stream has one owning element |
| SlidingWindow.ChunkElements | packages/shared/python/sentinelrag_shared/chunking/sliding_window.py:40-80 | one chunk per window, numbered, each attributed to the owner of its first position |
| SlidingWindow.ChunkTextsAreWindows | packages/shared/python/sentinelrag_shared/chunking/sliding_window.py:61-80 | the chunk texts are the windows the semantic backstop makes of the same tokens |
| SlidingWindow.ChunksAreAttributedSlices | packages/shared/python/sentinelrag_shared/chunking/sliding_window.py:64-76 | a chunk whose window is cut between characters is a slice of the stream and carries the page and section of the element it begins in |
| SlidingWindow.WordsCutCleanly | packages/shared/python/sentinelrag_shared/chunking/sliding_window.py:64-67 | the word tokenizer cuts every window so |
| SentenceSplit.SentencesKeepText | packages/shared/python/sentinelrag_shared/chunking/semantic.py:141 | the boundary split loses nothing but whitespace |
| SentenceSplit.SentencesAreSolid | packages/shared/python/sentinelrag_shared/chunking/semantic.py:141 | the sentences of a stripped paragraph are stripped and non-empty |
| SentenceSplit.SentencesBreakExactly | packages/shared/python/sentinelrag_shared/chunking/semantic.py:35 | no sentence has a boundary inside, and all but the last end in a sentence end |
| SentenceSplit.TakeOverlap | packages/shared/python/sentinelrag_shared/chunking/semantic.py:151-160 | the backward loop yields the overlap tail and its token sum |
| SentenceSplit.OverlapIsSuffix | packages/shared/python/sentinelrag_shared/chunking/semantic.py:151-160 | the tail is a suffix within the overlap budget |
| SentenceSplit.OverlapIsLongest | packages/shared/python/sentinelrag_shared/chunking/semantic.py:151-160 | no longer suffix fits |
| SentenceSplit.SplitLongText | packages/shared/python/sentinelrag_shared/chunking/semantic.py:133-181 | the loop with its flush returns the texts of the piece-level split, whose contents `SentenceTexts` determines |
| SentenceSplit.EverySentenceOnceInOrder | packages/shared/python/sentinelrag_shared/chunking/semantic.py:162-180 | every non-blank sentence is introduced by exactly one piece, in source order |
| SentenceSplit.RunsCarryTheOverlap | packages/shared/python/sentinelrag_shared/chunking/semantic.py:146-180 | each run carries exactly the overlap of the sentence run before it and sums to at most target plus overlap |
| StaleChunks.TakeAllHolds | packages/shared/python/sentinelrag_shared/chunking/semantic.py:146-178 | what the splitter holds has the same overlap tails as all small sentences so far, and right after an oversized one it is that tail |
| StaleChunks.StaleExactly | packages/shared/python/sentinelrag_shared/chunking/semantic.py:162-180 | for all sentences: some chunk brings nothing new iff some oversized sentence follows a non-empty tail and the next sentence does not fit behind that tail, or there is none |
| StaleChunks.ParagraphStaleExactly | packages/shared/python/sentinelrag_shared/chunking/semantic.py:133-181 | the same for every paragraph the chunker splits |
| StaleChunks.TailIsNotEmpty | packages/shared/python/sentinelrag_shared/chunking/semantic.py:151-160 | the tail is not empty exactly when the latest small sentence fits the overlap |
| StaleChunks.TailIsWhole | packages/shared/python/sentinelrag_shared/chunking/semantic.py:151-160 | a whole run is carried, so that its text repeats, exactly when it fits the overlap |
| StaleChunks.TwoSentences | packages/shared/python/sentinelrag_shared/chunking/semantic.py:35 | a terminated sentence, a space and a second one split into the two |
| StaleChunks.ChunkCanRepeat | packages/shared/python/sentinelrag_shared/chunking/semantic.py:169-180 | for a short sentence before a closing oversized one, the first and the last returned text are the same |
| StaleChunks.RepeatHappens | packages/shared/python/sentinelrag_shared/chunking/semantic.py:169-181 | such a text exists for every configuration with a positive overlap |
| SentenceSplit.SplitTextsFit | packages/shared/python/sentinelrag_shared/chunking/semantic.py:133-196 | a paragraph gives one text or more, each non-empty and within target plus overlap |
| SentenceTexts.SentencesReachTexts | packages/shared/python/sentinelrag_shared/chunking/semantic.py:141-181 | every sentence within the target stands as a contiguous part of a returned text, and later sentences stand behind earlier ones |
| SentenceTexts.OversizedReachTexts | packages/shared/python/sentinelrag_shared/chunking/semantic.py:169-196 | every sentence over the target stands in the returned texts as its decoded token windows, one text each, in order and at its own place |
| SentenceTexts.TextsAreTheParagraph | packages/shared/python/sentinelrag_shared/chunking/semantic.py:133-181 | when no sentence fits the overlap, as at overlap zero, and none is oversized, the returned texts are the paragraph apart from whitespace |
| SentenceTexts.TextsAreTheParagraphIff | packages/shared/python/sentinelrag_shared/chunking/semantic.py:133-181 | for every paragraph without oversized sentences, the returned texts are the paragraph apart from whitespace exactly when no run carries an overlap |
| SentenceTexts.CutIffOversized | packages/shared/python/sentinelrag_shared/chunking/semantic.py:162-175 | some sentence is cut into token windows exactly when some sentence is over the target |
| SentenceTexts.RunsAreFull | packages/shared/python/sentinelrag_shared/chunking/semantic.py:176-180 | runs are filled greedily: none ends before the next sentence would exceed the target |
| SemanticChunker.Chunker.Emit | packages/shared/python/sentinelrag_shared/chunking/semantic.py:62-94 | appends the buffer as a chunk or merges it into the last one, as the block-level close does |
| SemanticChunker.Chunker.TakeElement | packages/shared/python/sentinelrag_shared/chunking/semantic.py:96-128 | one element moves the chunker as the block-level step does |
| SemanticChunker.ChunkElements | packages/shared/python/sentinelrag_shared/chunking/semantic.py:55-131 | the chunks are the rendered blocks, chunk i with index i |
| SemanticChunker.ParagraphsConserved | packages/shared/python/sentinelrag_shared/chunking/semantic.py:55-131 | each paragraph (or each text it is split into) lands in exactly one chunk, in source order, through every merge-back |
| ChunkTexts.ContributionsReachChunks | packages/shared/python/sentinelrag_shared/chunking/semantic.py:62-131 | every paragraph, or text of a split one, stands as a contiguous part of a returned chunk, in source order and without overlap |
| ChunkTexts.ParagraphsReachChunks | packages/shared/python/sentinelrag_shared/parsing/elements.py:42-53 | every element that shows anything and is no header, footer, page break or image stands, stripped, in a returned chunk unless it is oversized |
| ChunkTexts.FurnitureIsLeftOut | packages/shared/python/sentinelrag_shared/parsing/elements.py:42-53 | headers, footers, page breaks, images and blank elements contribute nothing |
| ChunkTexts.SentencesReachChunks | packages/shared/python/sentinelrag_shared/chunking/semantic.py:104-181 | every sentence within the target of a split paragraph stands in some returned chunk |
| ChunkTexts.ChunksAreFull | packages/shared/python/sentinelrag_shared/chunking/semantic.py:96-128 | no chunk ends without a reason: a split paragraph on either side, or the next paragraph did not fit |
| SemanticChunker.ChunksKeepTheirAnchor | packages/shared/python/sentinelrag_shared/chunking/semantic.py:75-93 | through every emit and merge-back a chunk's page and section are those of the text it begins with |
| SemanticChunker.MergeBackBounded | packages/shared/python/sentinelrag_shared/chunking/semantic.py:62-94 | with target at least 2 * min - 1, each block absorbs at most one leftover and stays within target + overlap (+ min if it absorbed) |
| SemanticChunker.ChunksBounded | packages/shared/python/sentinelrag_shared/chunking/semantic.py:55-131 | the same bound on every returned chunk's token count |
| SemanticChunker.MergeBackUnbounded | packages/shared/python/sentinelrag_shared/chunking/semantic.py:71-83 | below that target, one block absorbs any number of leftovers |
| SemanticChunker.MergeBackExceedsAnyBound | packages/shared/python/sentinelrag_shared/chunking/semantic.py:71-83 | that block has (n + 1) * c + n tokens, past any limit |
| SemanticChunker.BoundedIff | packages/shared/python/sentinelrag_shared/chunking/semantic.py:41-94 | on the word tokenizer every chunk of every document is within target + overlap + min if and only if target is at least 2 * min - 1 |
| StructureAware.ChunkElements | packages/shared/python/sentinelrag_shared/chunking/structure_aware.py:42-104 | the chunks render groups that partition the content in order; tables alone; several elements only within target; every split has a reason |
| StructureAware.GroupsPartition | packages/shared/python/sentinelrag_shared/chunking/structure_aware.py:73-103 | the groups, tagged with heading number and section, are exactly the non-heading chunkable elements tagged with their latest heading |
| StructureAware.PartitionIsDetermined | packages/shared/python/sentinelrag_shared/chunking/structure_aware.py:73-103 | any two such partitions of the same content are equal, so the chunker's is the only one |
| StructureAware.Chunker.Emit | packages/shared/python/sentinelrag_shared/chunking/structure_aware.py:48-71 | closes the buffer as the group-level draft says |
| StructureAware.Chunker.TakeElement | packages/shared/python/sentinelrag_shared/chunking/structure_aware.py:73-101 | one element moves the chunker as the group-level step does |
| StructureAware.DroppedIffBlankMarkup | packages/shared/python/sentinelrag_shared/chunking/structure_aware.py:52-60 | a group leaves no chunk exactly when every element carries markup of nothing but whitespace |
| StructureTexts.ContentsReachChunks | packages/shared/python/sentinelrag_shared/chunking/structure_aware.py:42-104 | every content element without blank markup stands, stripped, in a returned chunk whose section is the latest heading before it and whose page is that of the content its group begins with; a table is its chunk, with its markup |
| StructureTexts.LaterContentLaterChunk | packages/shared/python/sentinelrag_shared/chunking/structure_aware.py:73-103 | those chunks follow the order of the elements |
| Sse.ExtractAppend | apps/frontend/src/lib/use-trace-stream.ts:109-146 | extraction from more input continues extraction from less: cuts in the stream do not matter |
| Sse.ParseSseFrame | apps/frontend/src/lib/use-trace-stream.ts:177-193 | the line loop computes the frame's event name and joined data, or nothing when there is no data and the event is still the default |
| Sse.PrintParse | apps/api/app/api/v1/routes/query.py:335-356 | one-line event and data survive printing and parsing |
| Sse.EventAndDataParse | apps/frontend/src/lib/use-trace-stream.ts:177-193 | an event line and any number of data lines parse to that event and those lines; only the default event without data is nothing |
| Sse.KeepaliveIsNothing | apps/api/app/api/v1/routes/query.py:335-356 | a keepalive comment parses to no message |
| Sse.RoundTripIffOneLine | apps/frontend/src/lib/use-trace-stream.ts:177-193 | printing then parsing gives the message back exactly when both values are single lines |
| TraceStream.Reader.OnRead | apps/frontend/src/lib/use-trace-stream.ts:109-146 | one read handles exactly the frames it completes, until one ends the stream |
| TraceStream.ConsumeSse | apps/frontend/src/lib/use-trace-stream.ts:109-146 | the view depends only on the concatenation of the reads |
| TraceStream.EventGen | apps/api/app/api/v1/routes/query.py:335-356 | the generator loop sends the events its polls determine |
| TraceStream.WireExtracts | apps/frontend/src/lib/use-trace-stream.ts:109-146 | the reader extracts exactly the frames written, leaving nothing behind |
| TraceStream.PageShowsWhatTheServerPolled | apps/api/app/api/v1/routes/query.py:319-365 | end to end, for every poll outcome and every cut of the stream, the page shows exactly what the polls found up to the first settled status, each once and in order, and stops |
| TraceStream.SnapshotsAreFound | apps/api/app/api/v1/routes/query.py:335-356 | the snapshots are those of exactly the ticks that found the row with no settled status before, in order |
| AuditKey.DatesIncrease | packages/shared/python/sentinelrag_shared/audit/event.py:38-48 | the calendar is strictly monotone in the day number |
| AuditKey.InWindowIffSameDay | apps/temporal-worker/sentinelrag_worker/activities/audit_reconciliation.py:84-89 | the half-open window holds exactly the instants of the day |
| AuditKey.PadInjective | packages/shared/python/sentinelrag_shared/audit/event.py:38-48 | zero-padded fields of one width determine their numbers |
| AuditKey.KeyRoundTrip | packages/shared/python/sentinelrag_shared/audit/event.py:38-60 | decoding any event's key gives its id |
| AuditKey.PrefixMatchesExactly | packages/shared/python/sentinelrag_shared/audit/event.py:62-66 | a tenant and day prefix matches a key exactly when tenant and UTC day match |
| AuditKey.DirectoryIffSameHour | packages/shared/python/sentinelrag_shared/audit/event.py:38-48 | two events share an archive directory exactly when they share tenant and hour |
| AuditKey.ListingsAgree | apps/temporal-worker/sentinelrag_worker/activities/audit_reconciliation.py:109-132 | the SQL window and the prefix listing select the same event ids |
| DualWrite.InvStep | packages/shared/python/sentinelrag_shared/audit/service.py:52-88 | every step keeps one attempt per recorded event and secondary |
| DualWrite.OneAttemptPerSink | packages/shared/python/sentinelrag_shared/audit/service.py:52-97 | in every interleaving secondaries hold only recorded events and each has exactly one attempt per secondary |
| DualWrite.DecisionStays | packages/shared/python/sentinelrag_shared/audit/service.py:52-60 | an event is committed exactly when its transaction committed, and stays so |
| DualWrite.GapIsFailures | packages/shared/python/sentinelrag_shared/audit/service.py:90-97 | after a drain, what a secondary lacks is exactly what failed there |
| DualWrite.EveryCommittedEventArchived | packages/shared/python/sentinelrag_shared/audit/reconciliation.py:58-104 | after settling, runs archive all committed events exactly when their cap covers the failures; orphans are exactly the rolled-back events that got through |
| Reconciliation.SortedEnumerates | packages/shared/python/sentinelrag_shared/audit/reconciliation.py:46-55 | sorting a set lists each id once, increasing |
| Reconciliation.DriftAccountsForAll | packages/shared/python/sentinelrag_shared/audit/reconciliation.py:46-55 | the drift report lists exactly the two differences, and with the intersection counts every id of both stores once |
| Reconciliation.Backfill | packages/shared/python/sentinelrag_shared/audit/reconciliation.py:85-95 | uploads exactly the candidates still present and counts them |
| Reconciliation.ReconcileOneTenant | packages/shared/python/sentinelrag_shared/audit/reconciliation.py:58-104 | the archive grows by the capped smallest missing ids still present, and the report says so |
| Reconciliation.ExactListingRun | packages/shared/python/sentinelrag_shared/audit/reconciliation.py:58-104 | with exact listings one run is the step used for convergence |
| Reconciliation.HistoryFillsInOrder | apps/temporal-worker/sentinelrag_worker/activities/audit_reconciliation.py:181-192 | after any history of crashed or complete attempts the archive is its start plus exactly the smallest missing ids, one per upload |
| Reconciliation.HistoryIsSafe | apps/temporal-worker/sentinelrag_worker/activities/audit_reconciliation.py:181-192 | the archive only grows, only by Postgres ids, and orphans stay |
| Reconciliation.RunsFillByCap | packages/shared/python/sentinelrag_shared/audit/reconciliation.py:58-104 | r fault-free runs leave the start plus exactly the min(r * cap, m) smallest missing ids |
| Reconciliation.GapClosesExactlyOnTime | packages/shared/python/sentinelrag_shared/audit/reconciliation.py:58-104 | the gap is closed exactly when r * cap reaches what was missing |
| Ingestion.Database.PersistChunks | apps/temporal-worker/sentinelrag_worker/activities/ingestion.py:255-312 | the delete and insert loop is the chunking transaction |
| Ingestion.TransactionKeeps | apps/temporal-worker/sentinelrag_worker/activities/ingestion.py:89-416 | every activity transaction keeps the table invariant |
| Ingestion.EveryInterleavingKeeps | apps/temporal-worker/sentinelrag_worker/activities/ingestion.py:142-416 | in any order of any workflows' transactions: versions numbered 1..n with one per content hash, chunk indices unique per version, no dangling embedding, processed at most total |
| Ingestion.MaxIsCount | apps/temporal-worker/sentinelrag_worker/activities/ingestion.py:163-170 | the highest version number is the number of versions |
| Ingestion.UpsertOnce | apps/temporal-worker/sentinelrag_worker/activities/ingestion.py:142-186 | any number of upserts equals one |
| IngestionResults.UpsertReturnsItsVersion | apps/temporal-worker/sentinelrag_worker/activities/ingestion.py:143-186 | the id returned is that of the one version row of this document with this content, existing or new |
| Ingestion.FinalizeOnce | apps/temporal-worker/sentinelrag_worker/activities/ingestion.py:389-416 | any number of finalizations counts the document once |
| Ingestion.ChunkStage | apps/temporal-worker/sentinelrag_worker/activities/ingestion.py:254-312 | after any number of attempts the version has exactly the contents' rows and everything else is untouched |
| Ingestion.EmbedStage | apps/temporal-worker/sentinelrag_worker/activities/ingestion.py:315-381 | attempts cut after the wipe or after the insert, in any order, end in each chunk embedded once |
| IngestionResults.EmbeddingReplacesOneModel | apps/temporal-worker/sentinelrag_worker/activities/ingestion.py:315-381 | embedding gives each chunk of the version its content's vector and leaves other models' and other versions' embeddings as they were |
| Ingestion.WorkflowShape | apps/temporal-worker/sentinelrag_worker/workflows/ingestion.py:56-151 | however attempts were cut, success is the clean sequence over one chunked state |
| IngestionResults.SuccessIsComplete | apps/temporal-worker/sentinelrag_worker/workflows/ingestion.py:56-151 | success leaves the one version row of this document and content, pointing at the parsed text, with exactly the document's chunks and one embedding per chunk and model; other version rows and their chunks as they were |
| Ingestion.SuccessIsRecorded | apps/temporal-worker/sentinelrag_worker/activities/ingestion.py:389-416 | success marks the document indexed, completes the job and counts it once however often activities ran, and touches no other job |
| IngestionResults.JobFollowsItsEvents | apps/temporal-worker/sentinelrag_worker/activities/ingestion.py:89-122 | in any interleaving of transactions a job's row is decided by its own status writes |
| IngestionResults.DocumentFollowsItsEvents | apps/temporal-worker/sentinelrag_worker/activities/ingestion.py:89-122 | in any interleaving of transactions a document's status is what its latest status write says |
| IngestionResults.ProcessedIsCounted | apps/temporal-worker/sentinelrag_worker/activities/ingestion.py:403-414 | processed is the start plus the finalizations not directly preceded by another, capped at the total |
| IngestionResults.AllCountedIffNeverTwoInARow | apps/temporal-worker/sentinelrag_worker/activities/ingestion.py:403-414 | a job over several documents counts them all exactly when no two finalizations are adjacent among its status writes |
| IngestionResults.SingleDocumentCounted | apps/api/app/services/document_service.py:180-198 | a job of one document, in any interleaving of any workflows, has processed 1 once a finalization has landed and 0 before |
| IngestionResults.FanOutCanUndercount | apps/temporal-worker/sentinelrag_worker/workflows/ingestion.py:46-50 | were a job to fan out, two documents side by side would complete it with one of two counted; no caller creates such a job |
| IngestionResults.RetryRefinesCleanRun | apps/temporal-worker/sentinelrag_worker/workflows/ingestion.py:56-151 | a retried workflow ends as a clean one does for the version row of its document and content, up to the row ids handed out |
| StableSort.SortPermutes | packages/shared/python/sentinelrag_shared/retrieval/hybrid.py:164 | sorting keeps every entry |
| StableSort.SortIsStable | packages/shared/python/sentinelrag_shared/retrieval/hybrid.py:164 | the result is ordered by score, then by original position |
| RankFusion.Tabulate | packages/shared/python/sentinelrag_shared/retrieval/hybrid.py:141-162 | both loops leave one row per chunk with its fused score, ranks and source, in order of first appearance; invalid ranks are rejected |
| RankFusion.MergeWithRrf | packages/shared/python/sentinelrag_shared/retrieval/hybrid.py:127-191 | the stable top k by fused score, each chunk once, every dropped chunk outranked by every kept one; the error cases exactly |
| RankFusion.FusionIsDetermined | packages/shared/python/sentinelrag_shared/retrieval/hybrid.py:127-185 | that specification has only one solution |
| RankFusion.MergedComesFromArms | packages/shared/python/sentinelrag_shared/retrieval/hybrid.py:164-185 | a merged chunk has its rank, its fused score and the passage of an arm that found it, the keyword arm's if it did; its ranks name exactly the arms that found it, with a rank it has there; no chunk twice |
| RankFusion.BetterRankScoresHigher | packages/shared/python/sentinelrag_shared/retrieval/hybrid.py:141-162 | a better rank scores strictly higher |
| RankFusion.BetterInBothArmsComesFirst | packages/shared/python/sentinelrag_shared/retrieval/hybrid.py:141-164 | a chunk ranked no worse by both arms and better by one comes before the other |
| RankFusion.BothArmsWin | packages/shared/python/sentinelrag_shared/retrieval/hybrid.py:141-162 | with distinct ids per arm and ranks up to k + 1, a chunk both arms found scores strictly above any found by one |
| RankFusion.TieBehindFirst | packages/shared/python/sentinelrag_shared/retrieval/hybrid.py:141-164 | on hits numbered 1..n, a chunk both arms found at rank k + 2 ties with the first keyword-only hit and comes behind it |
| RankFusion.BoundIsTight | packages/shared/python/sentinelrag_shared/retrieval/hybrid.py:141-164 | for every k there are two such result lists of k + 2 hits |
| RankFusion.AgreementWinsIff | packages/shared/python/sentinelrag_shared/retrieval/hybrid.py:141-164 | over all pairs of result lists of at most h hits, agreement always wins if and only if h is at most k + 1 |
| Citations.RerankCandidates | apps/api/app/services/rag/stages/rerank.py:38-99 | disabled, degraded and normal rerank read merged candidates at the kept positions and renumber them; unusable answers raise |
| Citations.RerankPaths | apps/api/app/services/rag/stages/rerank.py:38-99 | switched off, all candidates stay in order with their scores; on a reranker error the first top_k do; otherwise place i shows the candidate named there, counted from the end if negative, with its new score; always renumbered and marked as reranked |
| Citations.RerankKeepsDistinct | apps/api/app/services/rag/stages/rerank.py:80-99 | chunks stay distinct exactly when the reranker names no position twice |
| Citations.RerankersAreUsable | packages/shared/python/sentinelrag_shared/llm/reranker.py:36-159 | both rerankers answer in range without repeats; the trivial one keeps the merge order with falling scores, and the cross-encoder keeps the best scores in order |
| Citations.Assemble | apps/api/app/services/rag/stages/context_assembly.py:17-28 | the context joins one line per reranked candidate, and citation i is candidate i; what a line shows is `Citations.LineShows` |
| Citations.LineShows | apps/api/app/services/rag/stages/context_assembly.py:17-28 | a line is its number in brackets with section and page, then the passage; the digits that head it read back as its number |
| Citations.ShownNumberCites | apps/api/app/services/rag/stages/context_assembly.py:17-28 | line j stands in the context, and an answer that repeats the number heading it persists the candidate whose passage it shows |
| Citations.ReferencedIffCited | apps/api/app/services/rag/_helpers.py:62-63 | an index is found exactly when its marker stands somewhere in the answer |
| Citations.PersistCitations | apps/api/app/services/rag/stages/persistence.py:109-136 | rows are exactly the selected candidates under their own numbers, strictly increasing |
| Citations.PersistedIffCited | apps/api/app/services/rag/stages/persistence.py:109-121 | a candidate is persisted exactly when the answer holds its marker or holds no marker at all |
| Citations.CitationsTraceBack | apps/api/app/services/rag/stages/persistence.py:109-136 | through merge, rerank and selection, every row names the document, page and section of a passage an arm retrieved and quotes its first 500 characters, under its rank and reranked score, and no chunk twice |
| Citations.WritingTheMarkerCites | apps/api/app/services/rag/stages/persistence.py:109-121 | writing [i] for a shown line persists that line, whatever else the answer says |
| Citations.ShowValue | apps/api/app/services/rag/stages/context_assembly.py:23-27 | a printed number parses back |
| Access.AuthorizedExactly | packages/shared/python/sentinelrag_shared/retrieval/access_filter.py:98-128 | for all table contents the two-join query yields, once each, exactly the tenant's collections that are tenant-visible (read only) or granted to the user or a held role at the level |
| Access.HigherLevelAdmitsLess | packages/shared/python/sentinelrag_shared/retrieval/access_filter.py:93-128 | the set shrinks as the required level rises |
| Access.WritingNeedsAGrant | packages/shared/python/sentinelrag_shared/retrieval/access_filter.py:110-114 | above read, only an explicit grant admits |
| Access.LevelsAreOrdered | packages/shared/python/sentinelrag_shared/retrieval/access_filter.py:60 | read is below write and write below admin, and no other level is known |
| Access.GrantOpens | packages/shared/python/sentinelrag_shared/retrieval/access_filter.py:98-128 | a grant to the user opens its collection for its level and every lower one |
| Access.GrantOpensNoMore | packages/shared/python/sentinelrag_shared/retrieval/access_filter.py:98-128 | with no other policy on it, the collection stays closed above the grant |
| Access.BackendsAgree | packages/shared/python/sentinelrag_shared/retrieval/opensearch_keyword_search.py:142-223 | the OpenSearch filter admits a mirrored chunk exactly when the Postgres predicate does |
| Access.AdmittedIsAllowed | packages/shared/python/sentinelrag_shared/retrieval/access_filter.py:130-152 | an admitted chunk is the caller's tenant's, in a requested collection the caller may use |

## Left out

- HTTP routes, dependency wiring, ORM models, telemetry, logging, JWT, settings and storage adapters: input and output.
- The React pages; of the frontend only the stream reader is modelled.
- Tokenizer, LLM, embedding and reranking models, full-text and vector scoring: oracles. Token counts are any functions; the size bounds of the semantic chunker assume that a paragraph break costs one token, a space none, and a decoded window no more tokens than it had. Real tokenizers meet this only approximately.
- Floating point and `Decimal`: reals. JSON: an oracle pair that round-trips to one line.
- Redis outages other than a failed scan, a failed reserve or a failed release; cancellation by `BaseException`.
- Each Redis round trip and each database transaction is one step; what a weaker isolation level would let two transactions do is not modelled.
- Reservation time-to-live values: a key may expire at any time.
- BudgetProtocol.SpendBound: assumes actual cost within the estimate; a tenant policy that downgrades to a dearer model breaks that.
- Idempotency.TimelyLeaderRunsOnce: assumes no stored result expires during the run and no claimant raises; the key derivation and body hash are not modelled.
- AuditKey.KeyRoundTrip: ids are canonical lower-case UUID text; the lenient spellings Python's `UUID` accepts are not modelled, and years stop at 9999.
- Ingestion: download, parsing and the object-storage copies of intermediate outputs; job cancellation, which the code overwrites.
- The two single-arm retrieval modes and the HTTP retrieval client: they pass one arm through.
- RankFusion.MergeWithRrf: the sort itself is modelled as an insertion into a sequence, not as the library's algorithm.
- SlidingWindow.ChunksAreAttributedSlices: says nothing of a window that begins or ends inside a multi-byte character; what the tokenizer then decodes is foreign code.
- Evaluation workflow, evaluators, grounding cascade, prompt versioning, CRUD services, cost scripts and month partitions: they would add only easy members.
- `fill_prompt` substitutes sequentially; nothing is claimed about it.
- The OpenSearch index as it changes: `Access.BackendsAgree` speaks of a chunk whose entry mirrors the tables.
