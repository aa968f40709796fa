# Verification of media_catalog

A Dafny model of the parts of `media_catalog` whose correctness spans many
calls, with proofs. SQL tables are maps from row id to record, a transaction
is a state that is committed as a whole or restored, and a digest is modelled
by what it is taken of (or, for file contents, by an injective function).

What is modelled, and what is proved about it:

* **Identities under review.** Reviewers confirm, reject and reopen "same
  identity" edges between accounts. Confirming extends or creates an identity,
  withdrawing a confirmation rebuilds the affected ones with a closure loop and
  a path-halving union-find. After any history of reviews and discovery, two
  accounts share an identity exactly when confirmed edges connect them
  (`IdentitiesAreComponents`), every membership cites a confirmation in force
  (`MembershipsStayJustified`), and the library planner's query returns exactly
  the rest of a seed's component (`QueryReturnsComponent`).
* **Resumable transfers.** The attempt loop with Range and If-Range over
  arbitrary responses, clock and cancellation: the engine's loops do what a
  transfer function says (`TransferEngine.Transfer`), and the theorems are about
  that function. Attempts are numbered and paired, naps keep to the deadline,
  received bytes are charged, and the partial that is kept lives in the staging
  file it was resumed from or in a new one (`TransferTells`). The bytes a transfer
  reports are the sum over its attempts (`TransferReceived`), and a completed one
  stages the body of its last response, after the pending partial if that is a
  206 for its ETag (`TransferCompletes`). With servers for which a strong ETag
  names one byte string (RFC 9110, section 8.8.3) and that do not relabel a
  pending partial, what is staged is of one representation and every partial ever
  kept is a beginning of the representation its ETag names (`TransferHonest`).
  What every status, fault, redirect, size, body and interruption leads to is
  written out in numbers (`TransferDecisions`), for every attempt as far as
  statuses and sleeps go (`EveryStatus`).
* **Acquisition runs.** Items, counters, budgets, attempt rows, the ledger of
  partial downloads and publication, as a class that commits one durable state
  after another. What becomes of an item - its row, its attempt rows, the bytes it
  publishes, the partial it leaves - is a function of the catalogue, the servers
  and the storage (`OutcomeOf`); a run ends with a report unless its
  request is refused or an item in turn has no outcome (`EndsExactly`), and the
  report is about the rows (`ReportMeans`). The states made durable by any
  runs, retries, recoveries and crashes form a history of these commands, and
  every state of every such history is sound. That takes both theorems: `Live`
  shows that every commit the service makes is one of the guarded steps, and
  `HistorySound` that these steps keep what is promised: a
  complete item's asset names published bytes that agree with the declared
  hashes, a satisfied item's asset goes back to such bytes or to the plan, a
  staging file and a run item have one open partial, which a retry will find, a
  finished run's counters are a recount of its rows, quarantine stays within its
  limit, and with honest servers every partial of the ledger is a beginning of
  what its ETag names. Every freshly downloaded item of every run has then
  published exactly what the response of its last attempt is part of
  (`HistoryServed`). What may send a request at all, and what stops an item
  instead, is stated over the rows of a run (`RunGated`). For whole runs, honest
  servers are assumed to send no strong ETag with a retryable error response.
* **Catalogue repairs.** Both compaction scripts lose no fact, leave no
  dangling reference and do nothing the second time, with the exact condition
  under which each commits and every row each leaves.
* **Cached scores.** Link discovery (with its key migration), lookup
  interpretation and manual assertion all keep a candidate's score equal to the
  fold over its distinct supporting evidence.
* **Link grammars.** A printed URL resolves to a link exactly when its host, its
  segments and its last query values mean it (`ResolvesExactly`), and is
  recognized as a post exactly when it names it (`RecognizesExactly`). A canonical
  URL resolves to the link it was printed from, and is recognized as the same
  post, with one exception that is characterised exactly.

## Where the code falls short of what it promises

* Un-confirming an edge and confirming it again can be refused, although
  decisions are meant to be reversible: exactly when both accounts still end
  confirmed edges but are no longer connected (`ReconfirmRefused`; a history that
  gets there is in `ChainCannotBeRestored`).
* A retryable error response that carries its own, different strong ETag makes
  the engine keep the old partial under the new ETag (`RelabelExactly`), and a
  later 206 can then splice two representations (`RelabelledResumeSplices`).
* A transfer can end in a `ValueError` of the `ResumeState` constructor: an
  attempt escapes exactly when a retryable failure leaves more staged bytes than
  the size announced beside a strong ETag (`OverrunsExactly`). Only a body longer
  than announced does that, and in an undisturbed attempt it always does
  (`EscapesUndisturbed`, `TransferEscapes`, and a server that sends two bytes for
  one in `OverlongBodyEscapes`).
* An attempt or a partial the catalogue cannot record aborts the whole run and
  leaves it active. An item aborts its run exactly when its transfer escapes,
  when something its observers see is outside the catalogue's constraints, or
  when publishing already stored bytes fails (`OutcomeOf`, `Acquire`). Concretely: a
  staging file that fails its integrity check (`IntegrityFailureAborts`), a retry
  with an item limit below its partial (`UnopenedAborts`), a body of unannounced
  length beyond the item limit (`OversizeAborts`). Where faults are catalogued and
  answers modest, no item aborts (`HarmlessRunEnds`).
* The recovery of an interrupted run counts the whole active partial of an item
  as received, including bytes taken over from an earlier run. That is more than
  the item received in its attempts exactly when the partial was taken over with
  more bytes than came in since its row was last written (`RecoveryOvercounts`; an
  item that had just taken a partial over in `ClaimThenCrash`).
* A retry reads the announced size from the item's last attempt row. When a
  resumed attempt is restarted by a 200 and the process dies before the attempt
  ends, that row still announces the old response's size (`RestartAnnounces`), and
  the retry hands it over beside bytes of the new one (`StaleSizeHandedOver`). It
  cannot spoil contents, since an honest 206 for that ETag is then refused
  (`WrongSizeRefused`), but when it is below the bytes at hand every retry of the
  run fails (`SizeConflict`). While the row shown is the one of the last ended
  attempt, the size is the partial's own or unknown (`FreshSize`).
* The replay-stamp repair aborts exactly when a link observation refers to a
  snapshot it deletes; the anchorless repair aborts exactly when two rows of one
  unique slot refer to observations that are duplicates of each other or a column
  of another name refers to a dropped observation (`AnchorlessRepair.CommitsExactly`).
  Small catalogues that fail these checks are in `CitedDuplicateAborts`,
  `CitedTwiceAborts` and `CitedElsewhereAborts`.
* Link discovery fails when the legacy and the new key (or digest) of a
  candidate both exist, or when it meets an unresolved reference for a
  candidate whose target is known (`UpsertRefused`), for instance one whose target
  a review resolved, met again under a new reference (`MetAgainFails`).
* A pattern's `$` also matches before a final newline, so a query id such as
  `1%0A` resolves to a target ending in a newline, which its canonical URL does
  not give back (`NewlineResolves`, `RoundTrip`).
* Which error `resolve_occurrence_variants` reports depends on the order of the
  entries exactly when one of them is malformed and some role is given two URLs
  (`FlawDependsOnOrder`).

## Model

| member | source | states |
|---|---|---|
| AccountForest.Forest.Find | src/media_catalog/discovery/review.py:214-219 | lists an unknown account, returns the root that represents its class, and halving the path changes no class |
| AccountForest.Forest.UniteAll | src/media_catalog/discovery/review.py:221-226 | after the loop two listed accounts have the same representative exactly when the edges connect them |
| AccountForest.Forest.Components | src/media_catalog/discovery/review.py:227-229 | groups every listed account once, under its representative |
| AccountForest.LinkRoots | src/media_catalog/discovery/review.py:225-226 | hanging one root below another keeps the parent links acyclic and joins exactly the two classes |
| AccountForest.Halve | src/media_catalog/discovery/review.py:216-218 | pointing an account at its grandparent keeps the forest acyclic and every class |
| Graph.AddEdge | src/media_catalog/discovery/review.py:148-156 | with one more edge exactly the old connections and those through the new edge exist |
| Graph.RestrictToClosed | src/media_catalog/discovery/review.py:206-211 | inside a closed set of accounts the edges outside it do not matter for connectedness |
| IdentityReview.CloseOver | src/media_catalog/discovery/review.py:188-198 | the fixed-point loop ends with the least superset of the start that is closed under the edges |
| IdentityReview.Pass | src/media_catalog/discovery/review.py:190-198 | one pass adds only reachable accounts, and adds none exactly when the set is closed |
| IdentityReview.ChooseIdentity | src/media_catalog/discovery/review.py:231-239 | reuses the first identity not yet taken that an account of the component, in order, belonged to, and none exactly when there is none |
| IdentityReview.AssignedRebuilds | src/media_catalog/discovery/review.py:201-271 | identities assigned to union-find components form a rebuilt membership table |
| IdentityReview.MatchReviewService.QueryConfirmedEdges | src/media_catalog/discovery/review.py:175-187 | returns exactly the confirmed same-identity edges, each with its newest confirmation |
| IdentityReview.MatchReviewService.RebuildIdentityComponent | src/media_catalog/discovery/review.py:159-271 | replaces the memberships of the closure around the withdrawn edge by one identity per component, and drops empty identities |
| IdentityReview.MatchReviewService.ResolveTarget | src/media_catalog/discovery/review.py:85-128 | finds or creates the account with the reference's platform and native id, field by field, and points candidate and reference at it, or says why the target is refused |
| IdentityReview.MatchReviewService.ConfirmIdentity | src/media_catalog/discovery/review.py:85-157 | joins, extends or creates an identity, and refuses exactly an unusable target or two identities |
| IdentityReview.MatchReviewService.Review | src/media_catalog/discovery/review.py:16-83 | a review is recorded with all its effects or refused with every table unchanged, and keeps the invariant; a recorded confirmation joins the subject with the target it had or the account its reference names, row by row |
| IdentityTables.RefusesOrAccepts | src/media_catalog/discovery/review.py:31-73 | a review is refused for some reason exactly when it is not accepted |
| ReviewEffects.ConfirmationJoins | src/media_catalog/discovery/review.py:85-157 | a recorded confirmation joins the subject with the candidate's target or, for a reference, with the account that has its platform and native id: the known one, or exactly one that is added; decision, candidate, reference and members change in these fields and no other |
| ReviewEffects.ConfirmationRefused | src/media_catalog/discovery/review.py:85-140 | the reasons a confirmation is refused, in the fields of candidate, reference, accounts and memberships, both ways |
| ReviewEffects.ExpectationsChecked | src/media_catalog/discovery/review.py:31-52 | a missing candidate, another generation or another revision than the reviewer saw is refused, in this order, both ways; a refused review writes nothing |
| ReviewEffects.OtherReviews | src/media_catalog/discovery/review.py:16-83 | any other verdict writes the candidate's state and revision and the decision, and memberships only when a confirmed edge is withdrawn |
| IdentityInvariant.AttachPartition | src/media_catalog/discovery/review.py:130-157 | adding a confirmed edge incrementally keeps identities equal to connected components |
| IdentityInvariant.RebuildPartition | src/media_catalog/discovery/review.py:159-271 | a rebuild after losing an edge restores identities equal to connected components |
| IdentityInvariant.RebuildEvidence | src/media_catalog/discovery/review.py:175-187 | after a rebuild every membership again cites a confirmed edge at that account and its confirmation |
| IdentityInvariant.ReviewKeepsInv | src/media_catalog/discovery/review.py:16-83 | every review, accepted or refused, keeps the whole invariant |
| IdentityInvariant.DiscoveryKeepsInv | src/media_catalog/discovery/candidates.py:77-212 | new accounts, references and candidates, and newly resolved targets of unconfirmed ones, keep the invariant |
| IdentityInvariant.RunKeepsInv | src/media_catalog/discovery/review.py:16-271 | the invariant holds in every state of every run of reviews and discovery |
| IdentityInvariant.IdentitiesAreComponents | src/media_catalog/discovery/review.py:130-157 | in every reachable state two accounts share an identity exactly when confirmed edges connect them, and membership means ending a confirmed edge |
| IdentityInvariant.MembershipsStayJustified | src/media_catalog/discovery/review.py:247-265 | in every reachable state a membership cites a currently confirmed candidate at that account and a "confirmed" decision of it, and no identity is empty |
| IdentityInvariant.ConflictIsMerge | src/media_catalog/discovery/review.py:139-140 | the identity-conflict refusal is exactly the attempt to join two different non-trivial components |
| IdentityInvariant.ReconfirmRefused | src/media_catalog/discovery/review.py:67-74 | after withdrawing an edge, confirming it again is refused exactly when both accounts end confirmed edges and are not connected |
| IdentityInvariant.IdentityIdSurvives | src/media_catalog/discovery/review.py:231-245 | the old identity's id survives a withdrawal exactly when one of its accounts still ends a confirmed edge |
| WithdrawnChain.ChainCannotBeRestored | src/media_catalog/discovery/review.py:139-140 | a run of reviews that ends in a state in which re-confirming a once confirmed edge is refused |
| LibraryExpansion.QueryReturnsComponent | src/media_catalog/library/planning.py:540-555 | for a seed account the confirmed-identity query returns exactly one row for each other account its confirmed edges connect it to, in every reachable state |
| TransferProtocol.SalvageHonest | src/media_catalog/acquisition/transfer.py:406-423 | what is kept of an honest attempt is a non-empty beginning of the representation its ETag names, and keeping it never raises |
| TransferProtocol.RelabelExactly | src/media_catalog/acquisition/transfer.py:406-417 | an error response leaves the partial honest under every naming exactly when it does not carry a different strong ETag with a retryable status |
| TransferProtocol.RelabelledResumeSplices | src/media_catalog/acquisition/transfer.py:408-412 | after such a response an honest 206 makes the engine append bytes of another representation |
| TransferEngine.TransferBudget.Charge | src/media_catalog/acquisition/transfer.py:62-67 | charges exactly the amount or, beyond the limit, nothing |
| TransferEngine.Transfer | src/media_catalog/acquisition/transfer.py:246-490 | the loops over clock, cancellation, budget, staging files and responses do exactly what the transfer function says, result, running total, events and pauses |
| TransferProperties.StreamFlows | src/media_catalog/acquisition/transfer.py:352-357 | streaming appends a beginning of the body, all of it unless stopped, charges every byte and respects item limit and budget |
| TransferProperties.ArrivesWhole | src/media_catalog/acquisition/transfer.py:352-357 | an undisturbed body that fits is streamed to its end |
| TransferProperties.AppendServes | src/media_catalog/acquisition/transfer.py:313-324 | a 206 that passes the checks continues exactly the partial it is appended to, whatever size that was thought to have |
| TransferProperties.WrongSizeRefused | src/media_catalog/acquisition/transfer.py:313-324 | a partial with a wrong size is not continued: an honest 206 for its ETag is refused for good |
| TransferProperties.AttemptHonest | src/media_catalog/acquisition/transfer.py:295-404 | an attempt on a trusted server stages bytes of one representation or leaves a beginning of one |
| TransferProperties.StagesExactly | src/media_catalog/acquisition/transfer.py:339-363 | an undisturbed attempt stages the pending bytes and the body exactly when lengths are as announced and the file closes |
| TransferProperties.OverrunsExactly | src/media_catalog/acquisition/transfer.py:406-423 | keeping a partial raises exactly when a retryable failure leaves more staged bytes than the size announced beside a strong ETag |
| TransferProperties.EscapeNeedsOverlong | src/media_catalog/acquisition/transfer.py:406-423 | that needs a response whose body is longer than it announces |
| TransferProperties.EscapesUndisturbed | src/media_catalog/acquisition/transfer.py:339-423 | an undisturbed attempt raises exactly on such a response |
| TransferProperties.HonestNotOverlong | src/media_catalog/acquisition/transfer.py:406-423 | an honest response is never such a response |
| TransferResults.TransferTells | src/media_catalog/acquisition/transfer.py:246-490 | attempts are numbered from one and paired, at most the limit, naps are the chosen delays and never reach the deadline, bytes are charged, a partial stays in its file or moves to a new one with its bytes accounted for, and the result is what the last attempt left |
| TransferResults.TransferReceived | src/media_catalog/acquisition/transfer.py:258-490 | the running total a transfer reports is the sum of the bytes over the attempts it recorded |
| TransferResults.TransferCompletes | src/media_catalog/acquisition/transfer.py:295-384 | whatever the servers are, a completed transfer ends in a 200 or 206, stages that response's body, after the pending partial exactly for a 206 with its ETag, and lengths are as announced |
| TransferResults.BackoffGrows | src/media_catalog/acquisition/transfer.py:472-477 | the delay is positive, never decreases and never exceeds its cap |
| TransferResults.TransferHonest | src/media_catalog/acquisition/transfer.py:246-490 | with honest servers that do not relabel the pending partial a transfer never raises, every partial kept is a beginning of what its ETag names, and what is staged is all of what the ETag of a last 206 names, or the body of a last 200, which is a beginning of what its strong ETag names and all of it when its length is announced |
| TransferResults.TransferStages | src/media_catalog/acquisition/transfer.py:295-404 | an undisturbed first attempt of the announced length completes the transfer with the pending bytes and the body |
| TransferResults.TransferEscapes | src/media_catalog/acquisition/transfer.py:406-423 | a transfer raises only if some response is overlong, and with an undisturbed first attempt it raises there exactly if that response is |
| TransferResults.OverlongBodyEscapes | src/media_catalog/acquisition/transfer.py:71-80 | two bytes where one was announced beside a strong ETag raise the ValueError |
| TransferResults.RestartAnnounces | src/media_catalog/acquisition/transfer.py:265-420 | an attempt restarted by a 200 and cut short shows a partial of the new response while its row still announces the old size |
| TransferResults.TransferGivesUp | src/media_catalog/acquisition/transfer.py:424-488 | without cancellation and deadline a transfer gives up only at a failure that is not retryable, an exhausted budget, the last attempt, or a sleep that would reach the deadline |
| TransferTable.StrongIsQuoted | src/media_catalog/acquisition/transfer.py:144-151 | an ETag is strong exactly when it is a quoted string |
| TransferDecisions.StatusDecides | src/media_catalog/acquisition/transfer.py:309-311 | the status of an undisturbed first answer decides: outcome and retryable flag by number for every status outside 200 to 299, and whether a second attempt follows, after Retry-After or the doubled and capped backoff |
| TransferDecisions.RetriedStatus | src/media_catalog/acquisition/transfer.py:453-488 | 408, 425, 429 and 500 to 599 with attempts and time left: the engine sleeps exactly that long and begins the second attempt |
| TransferDecisions.FinalStatus | src/media_catalog/acquisition/policies.py:75-92 | 401, 403, 404, 410 and every other status outside 200 to 299 end the transfer after one attempt with their own outcome, not retryable and without a partial |
| TransferDecisions.FaultDecides | src/media_catalog/acquisition/transfer.py:389-402 | each fault before an answer has its outcome; only timeouts and transport errors are tried again |
| TransferDecisions.PartialTooLarge | src/media_catalog/acquisition/transfer.py:528-560 | a pending partial larger than the item limit ends the transfer as a storage failure |
| TransferDecisions.RedirectDecides | src/media_catalog/acquisition/transfer.py:497-526 | a redirect too many or to a host that is not allowed ends the transfer as a policy failure |
| TransferDecisions.NewFileRefused | src/media_catalog/acquisition/transfer.py:334-340 | without a pending partial any success but a well-formed 200 of an accepted type ends the transfer as invalid content |
| TransferDecisions.ResumeRefused | src/media_catalog/acquisition/transfer.py:313-333 | a pending partial is given up as changed at any success but a 200 or a 206 with its ETag, from its end to the end of the announced size |
| TransferDecisions.SizeRefused | src/media_catalog/acquisition/transfer.py:342-349 | an announced size over the item limit, or else over the rest of the budget, ends the transfer with nothing received or charged |
| TransferDecisions.TypeRefused | src/media_catalog/acquisition/transfer.py:339-340 | so does a refused content type |
| TransferDecisions.BodyDecides | src/media_catalog/acquisition/transfer.py:352-357 | a body cut short by a fault, the budget or the item limit: what came before is received, charged and kept exactly under a strong ETag, and the cause decides what follows |
| TransferDecisions.LengthDecides | src/media_catalog/acquisition/transfer.py:358-361 | a body of another length than announced means a changed source and is tried again |
| TransferDecisions.AnswerStaged | src/media_catalog/acquisition/transfer.py:295-384 | a clean first answer is staged at once: the body of a 200, or the partial and the body of the 206 that continues it; exactly the body is charged |
| TransferDecisions.Recovers | src/media_catalog/acquisition/transfer.py:453-488 | after a 408, 425, 429 or 5xx a clean 200 completes the second attempt with exactly its body |
| TransferDecisions.StoppedTransfer | src/media_catalog/acquisition/transfer.py:352-357 | a cancellation or deadline noticed before a chunk interrupts the transfer with exactly the chunks before it received, charged and, under a strong ETag, kept |
| TransferDecisions.StoppedEarly | src/media_catalog/acquisition/transfer.py:569-573 | noticed before there is an answer it interrupts the transfer with nothing received or charged |
| TransferDecisions.EveryStatus | src/media_catalog/acquisition/transfer.py:424-488 | the same table for every attempt of a transfer, and every sleep follows a retryable row and lasts as long as that row asks |
| TransferRecords.BenignTransfer | src/media_catalog/records/acquisition.py:288-338 | with catalogued faults and modest answers a transfer returns and everything its observers see can be recorded |
| TransferRecords.UnopenedUnrecordable | src/media_catalog/migrations/0006_remote_media_acquisition.sql:207-285 | a staging file that cannot be opened for another reason, or a partial beyond the item limit, cannot be recorded |
| TransferRecords.OversizeUnrecordable | src/media_catalog/migrations/0006_remote_media_acquisition.sql:207-285 | nor can a body of unannounced length beyond the item limit |
| DeclaredClaims.CompareDeclaredClaims | src/media_catalog/acquisition/publication.py:56-94 | the comparisons contain an exact mismatch exactly when a declared hash disagrees and the item is no e621 derivative |
| DeclaredClaims.MismatchExactly | src/media_catalog/acquisition/publication.py:56-94 | bytes are refused exactly when a declared sha256 or md5 disagrees up to letter case, and never for an e621 derivative |
| DeclaredClaims.ComparisonsSay | src/media_catalog/acquisition/publication.py:56-94 | every declared value is compared once and nothing else, with the verdict of its kind: texts up to letter case, numbers, a media type only when it is one and one was measured |
| AcquisitionLedger.Database.ClaimResume | src/media_catalog/acquisition/service.py:286-345 | the source row is consumed and the item's own row opened for the same staging file in one commit |
| AcquisitionLedger.Database.ObservePartial | src/media_catalog/acquisition/service.py:239-284 | a partial in the current row's staging file updates that row, one in another file drops it and opens a new row, and it fails exactly when the ETag breaks the table's constraint |
| AcquisitionLedger.Database.FinishPartial | src/media_catalog/acquisition/service.py:347-349 | the open row stays exactly when the transfer keeps a resume |
| AcquisitionObserver.Observe | src/media_catalog/acquisition/service.py:187-284 | the observers record every event of a transfer, up to the first that cannot be recorded, and raise exactly if there is one; afterwards the attempt rows are the transfer's and the one open row shows its last partial |
| AcquisitionSteps.ClaimKeepsLedger | src/media_catalog/acquisition/service.py:286-345 | handing a partial over never makes two open rows for a staging file or an item |
| AcquisitionSteps.PutAttemptKeepsSound | src/media_catalog/acquisition/service.py:187-212 | recording an attempt keeps the promises about open partials, including the size they announce |
| AcquisitionSteps.PutBytesKeepsSafe | src/media_catalog/acquisition/publication.py:295 | publishing, or reusing what is published under the name, keeps every location pointing at its bytes |
| AcquisitionSteps.PutAssetKeepsSafe | src/media_catalog/acquisition/publication.py:118-160 | registering an asset after its bytes are published keeps every durable promise |
| AcquisitionSteps.ApplyKeepsSound | src/media_catalog/acquisition/service.py:380-1109 | every commit that is made keeps the durable state sound |
| AcquisitionTables.SetItemKeepsSafe | src/media_catalog/acquisition/service.py:430-845 | writing a row of an active run keeps every durable promise, as long as an item with an open partial stays unfinished or retryable |
| AcquisitionTables.QuarantineKeepsSafe | src/media_catalog/acquisition/publication.py:249-285 | a quarantine row within the remaining allowance keeps the bytes held for a run within its limit |
| AcquisitionTables.RowsPartition | src/media_catalog/acquisition/service.py:1087-1096 | every row of a run is counted as completed, deferred, failed or unfinished, and only once |
| AcquisitionTables.TracesToPublished | src/media_catalog/acquisition/service.py:442-488 | the asset of a done row was planned for its item, or a complete row of the same item cites it and it names published, agreeing bytes |
| Publication.VerifyPublishAndPersist | src/media_catalog/acquisition/publication.py:205-313 | fails exactly on the storage operation it needs and that does not work, links an asset only to published bytes that agree with the declared hashes, and refuses exactly disagreeing bytes, holding them within the allowance; the rows of store, assets, locations and quarantine it writes, one by one |
| AcquisitionOutcome.OutcomeFits | src/media_catalog/acquisition/service.py:143-159 | an item is stale exactly when its outcome says so, a quarantined item says why, and the bytes it received are the sum over its attempts |
| AcquisitionOutcome.HarmlessEnds | src/media_catalog/acquisition/service.py:430-845 | with catalogued faults and modest answers every item has an outcome |
| AcquisitionOutcome.OversizeAborts | src/media_catalog/acquisition/service.py:187-212 | a body of unannounced length beyond the item limit leaves the item without an outcome |
| AcquisitionOutcome.UnopenedAborts | src/media_catalog/acquisition/service.py:187-212 | so does a staging file that cannot be opened for a reason the catalogue does not know, or a partial beyond the item limit |
| AcquisitionOutcome.IntegrityFailureAborts | src/media_catalog/acquisition/service.py:187-212 | for one, a staging file that fails its integrity check |
| AcquisitionRun.FindPrior | src/media_catalog/acquisition/service.py:442-455 | the asset of the first done row of the plan item, and none exactly when no row of it is done |
| AcquisitionRun.Precheck | src/media_catalog/acquisition/service.py:442-605 | the branches without a download, each with the state, outcome and counter of its case; a satisfied item has the prior or the planned asset; an item passes only when it is current, allowed, eligible, not done and within budget and time |
| AcquisitionRun.Reconcile | src/media_catalog/acquisition/service.py:612-701 | exactly the stored bytes of the last row with hashes and no asset are linked or refused without a transfer, each with its row, and trouble with them fails the item or aborts the run |
| AcquisitionRun.Follow | src/media_catalog/acquisition/service.py:702-735 | raises exactly when the engine did or an event cannot be recorded; otherwise the ledger has an open row of the item exactly for the resume the transfer returns, in the file it names |
| AcquisitionRun.Fetch | src/media_catalog/acquisition/service.py:702-735 | a partial of an earlier run is taken over for good, received bytes are charged and are the sum over the recorded attempts, and with honest servers the staged bytes are what the response of the last attempt is part of |
| AcquisitionRun.Acquire | src/media_catalog/acquisition/service.py:430-845 | one item ends as its outcome function says, or aborts the run exactly when it has no outcome: state, retryable flag, received bytes, hashes, published bytes, attempt rows, held bytes, the partial left and the counter; nothing of other items changes but a partial handed over |
| AcquisitionRun.HonestVerdict | src/media_catalog/acquisition/service.py:702-845 | with honest servers a freshly downloaded item has published exactly the bytes that the response of its last attempt is part of |
| AcquisitionGates.GateDecides | src/media_catalog/acquisition/service.py:442-605 | what stops an item, in the order it is looked for, each with its whole verdict and no attempt: done before, satisfied by the plan, excluded, out of budget or time, stale, refused by policy |
| AcquisitionGates.SentOnly | src/media_catalog/acquisition/service.py:442-605 | an item with an attempt, complete, or aborting its run was current, allowed, eligible, not done before and within budget and time |
| AcquisitionGates.StoredBytesDecide | src/media_catalog/acquisition/service.py:606-701 | stored bytes of the last row with hashes are linked or refused without a request exactly while they have the recorded hash; else, and when the store fails, the item ends with the error's name |
| AcquisitionGates.TransferDecides | src/media_catalog/acquisition/service.py:702-845 | otherwise the item is what its transfer under the run's limits and the store make of it: given up, published, held in quarantine, failed in the store, or aborted |
| AcquisitionGates.RunGated | src/media_catalog/acquisition/service.py:430-605 | the rows of a whole run say so: each item's one new row against the catalogue, clock and budget at its turn |
| AcquisitionGates.RequestBegins | src/media_catalog/acquisition/service.py:380-428 | a request is refused with nothing written exactly for parallel transfers, too many items or a clash with the catalogue; else its items have rows and an empty run is opened |
| AcquisitionCounters.CountsAgree | src/media_catalog/acquisition/service.py:430-845 | after every item the incremental counters and reported causes equal a recount of the run's rows, and every row received what its attempts did |
| AcquisitionCounters.SettledFromGoing | src/media_catalog/acquisition/service.py:847-860 | at the end the counters sum to the planned items, and the run is complete exactly when every item is complete or satisfied |
| AcquisitionCounters.ReportMeans | src/media_catalog/acquisition/service.py:847-860 | what status and outcome of a run say about the states of its rows, both ways |
| AcquisitionCounters.StatusIs | src/media_catalog/acquisition/service.py:847-860 | the status and outcome of a run from its counters and its items' outcomes, case by case |
| AcquisitionService.Materialize | src/media_catalog/acquisition/service.py:95-130 | the plan's rows are found again or added under keys that stay unique, and it fails exactly when a row differs or an asset is missing |
| AcquisitionService.LaterResumesReady | src/media_catalog/acquisition/service.py:712-714 | handling one item leaves the partials waiting for later items open |
| AcquisitionService.Execute | src/media_catalog/acquisition/service.py:380-886 | nothing is written for a refused request; otherwise the items are handled one after the other, each with its own outcome, up to one without, which leaves the run active, and a run that returns has counted every planned item once, within the byte and quarantine budgets; the report's bytes are those charged and its outcomes those of the items |
| AcquisitionService.EndsExactly | src/media_catalog/acquisition/service.py:380-886 | no report exactly for a refused request (concurrency, item limit, plan conflict) or when some item has no outcome when it is its turn |
| AcquisitionService.HarmlessRunEnds | src/media_catalog/acquisition/service.py:380-886 | with catalogued faults and modest answers no report exactly for a refused request |
| AcquisitionRecovery.RecoverInterrupted | src/media_catalog/acquisition/service.py:1004-1109 | exactly the active run is closed: unfinished rows and running attempts become interrupted, and its counters are the recount |
| AcquisitionRecovery.RecoveryCloses | src/media_catalog/acquisition/service.py:1004-1109 | afterwards nothing of the run is unfinished, running or unsettled, other runs and finished rows are untouched, and a second recovery does nothing |
| AcquisitionRecovery.RecoveryWrites | src/media_catalog/acquisition/service.py:1004-1109 | the rows recovery writes, field by field: items, running attempts and the recount; nothing for a run that is not active |
| AcquisitionRecovery.RecoveryAgreesWithLoop | src/media_catalog/acquisition/service.py:1087-1108 | after a crash between items the recovery stores the counters the loop had |
| AcquisitionRecovery.RecoveryOvercounts | src/media_catalog/acquisition/service.py:1050-1084 | the received bytes recorded exceed what the item received in its attempts exactly when its partial was taken over with more bytes than the attempts since its row was written, and the one under way, received |
| AcquisitionRecovery.RecoveryUndercounts | src/media_catalog/acquisition/service.py:1050-1084 | an item without an open partial is recorded as having received nothing |
| AcquisitionRecovery.ClaimThenCrash | src/media_catalog/acquisition/service.py:1050-1084 | an item that took a partial over and received nothing is recorded as having received the whole partial |
| AcquisitionRetry.BuildResumes | src/media_catalog/acquisition/service.py:942-996 | hands over exactly the open partials of the selected rows, each under its item's key with the size its last attempt announces, and fails exactly when such a size is below the bytes at hand |
| AcquisitionRetry.FreshSize | src/media_catalog/acquisition/service.py:944-952 | while the last ended attempt is the one the partial was kept in, the size handed over is the partial's own or unknown |
| AcquisitionRetry.StaleSizeHandedOver | src/media_catalog/acquisition/service.py:944-952 | cut short between keeping a partial and the end of its attempt, the retry gets the size of another response |
| AcquisitionRetry.Retry | src/media_catalog/acquisition/service.py:888-1002 | recovers the run, plans exactly the selected rows in their order, hands over their partials and executes, or fails without more |
| AcquisitionRetry.RetryEndsExactly | src/media_catalog/acquisition/service.py:888-1002 | a retry with something to do ends without a report exactly when its request is refused or an item has no outcome |
| AcquisitionRetry.RetryChooses | src/media_catalog/acquisition/service.py:888-996 | a retry that begins a run plans the keys of exactly the rows worth retrying, in order, and hands over exactly their open partials with the size their last attempt announced |
| AcquisitionRetry.NoPartialStranded | src/media_catalog/acquisition/service.py:914-932 | in a run that is over, every open partial belongs to an item a retry selects |
| AcquisitionHistory.HistorySound | src/media_catalog/acquisition/service.py:380-1109 | the guarded steps keep every promise: every state of every history of runs, retries, recoveries and crashes is sound |
| AcquisitionHistory.Live | src/media_catalog/acquisition/service.py:380-1109 | the service makes only guarded steps: the states it makes durable under any commands are a history of exactly these commands |
| AcquisitionDownloads.ExecutedServed | src/media_catalog/acquisition/service.py:380-886 | with honest servers every freshly downloaded item of a run has published what the response of its last attempt is part of, also when it continued a partial of an earlier run |
| AcquisitionDownloads.HistoryServed | src/media_catalog/acquisition/service.py:380-1002 | and so it is for every run and retry of every history |
| AcquisitionPlanning.ResolveOccurrenceVariants | src/media_catalog/acquisition/planning.py:168-221 | succeeds exactly for a well-formed, unambiguous document, and then holds exactly the URLs that the occurrence, the entries and, where nobody else names one, the archive give to each role |
| AcquisitionPlanning.ReadExactly | src/media_catalog/acquisition/planning.py:193-215 | reading the entries succeeds exactly when none is malformed and no role gets two URLs, and then gives their union with the base |
| AcquisitionPlanning.OrderIsIrrelevant | src/media_catalog/acquisition/planning.py:193-215 | success and the resulting variants are the same for any order of the entries |
| AcquisitionPlanning.FlawDependsOnOrder | src/media_catalog/acquisition/planning.py:193-215 | which error is reported is the same for any order exactly when no entry is malformed or no role is given two URLs |
| AcquisitionPlanning.FlawIsFirst | src/media_catalog/acquisition/planning.py:193-215 | the first entry that is malformed or disagrees decides the reported error |
| AcquisitionPlanning.UnionIsVariants | src/media_catalog/acquisition/planning.py:168-221 | the archive's URL stands for itself and for the primary only where nothing else does |
| AcquisitionPlanning.FirstsInOrder | src/media_catalog/acquisition/planning.py:405-417 | the selections kept are in the order in which they first occur |
| AcquisitionPlanning.FirstsAreAll | src/media_catalog/acquisition/planning.py:405-417 | the first occurrences are distinct and are all the selections there are |
| AcquisitionPlanning.Deduplicate | src/media_catalog/acquisition/planning.py:395-417 | keeps the first occurrences in order and counts the rest, and fails exactly for none or too many distinct ones |
| ReplayHistory.SurvivingTwin | scripts/repair_replay_stamps.py:29-56 | every deleted row has a surviving row with the same facts at an earlier time, even when its twins are deleted too |
| ReplayHistory.NoFactLost | scripts/repair_replay_stamps.py:128-193 | a fact holds, and had been seen by a time, exactly as before the deletion |
| ReplayHistory.RemainingAreOrphans | scripts/repair_replay_stamps.py:214-219 | the stamped rows left are exactly the planned orphans |
| ReplayHistory.SecondRunDeletesNothing | scripts/repair_replay_stamps.py:128-143 | a second run finds nothing to delete and the same orphans |
| ReplayRepair.RepairIsIdempotent | scripts/repair_replay_stamps.py:180-220 | running the whole repair again changes nothing |
| ReplayRepair.PlannedProjections | scripts/repair_replay_stamps.py:154-165 | a projection is recomputable after the deletions exactly when it was when the plan counted it |
| ReplayRepair.RepairLeaves | scripts/repair_replay_stamps.py:58-96 | after the repair a stamped last-seen value is the time of a surviving observation in one of its tables (three for posts, two for tags) and none of them holds a later one; values without a stamp or an observation stay; exactly the stamped rows with an earlier twin are gone |
| ReplayRepair.LinksDecide | scripts/repair_replay_stamps.py:211-213 | the foreign key check passes exactly when every cited snapshot is there and is no stamped row with an earlier twin |
| ReplayRepair.CommitsExactly | scripts/repair_replay_stamps.py:211-213 | the foreign key check passes exactly when no link observation refers to a deleted snapshot |
| ReplayRepair.CitedDuplicateAborts | scripts/repair_replay_stamps.py:211-213 | a catalogue in which a link observation cites a stamped duplicate snapshot fails the check |
| ReplayRepair.Catalog.Apply | scripts/repair_replay_stamps.py:119-227 | commits the repaired catalogue or restores it, exactly by that condition; every row it leaves, deleted, retimed or recomputed, is stated over the rows themselves |
| AnchorlessRepair.Plan | scripts/repair_anchorless_observations.py:87-127 | lists every duplicate once with the earliest observation of its class |
| AnchorlessRepair.OnePerGroup | scripts/repair_anchorless_observations.py:44-62 | afterwards each class of kind, native id and payload has exactly one anchorless observation, the earliest |
| AnchorlessRepair.AnchoredUntouched | scripts/repair_anchorless_observations.py:44-62 | anchored observations are unchanged |
| AnchorlessRepair.ReferencesKeepContent | scripts/repair_anchorless_observations.py:152-169 | every re-pointed row refers to an existing observation with the content it referred to before |
| AnchorlessRepair.RepairFolds | scripts/repair_anchorless_observations.py:44-184 | an observation stays exactly when it is anchored or no earlier one without an anchor has its kind, native id and payload, and references to the others move to the earliest; nothing else changes |
| AnchorlessRepair.CleanExactly | scripts/repair_anchorless_observations.py:166-184 | when the script commits, stated over the rows |
| AnchorlessRepair.SecondPlanEmpty | scripts/repair_anchorless_observations.py:182-184 | a second plan is empty, so the duplicate check never fails |
| AnchorlessRepair.CommitsExactly | scripts/repair_anchorless_observations.py:166-184 | re-pointing breaks no unique constraint exactly when no two rows of one slot refer to duplicates of each other, and no foreign key exactly when none was broken and no other column refers to a dropped observation |
| AnchorlessRepair.CitedTwiceAborts | scripts/repair_anchorless_observations.py:166-184 | two rows of one slot that cite duplicates of each other collide |
| AnchorlessRepair.CitedElsewhereAborts | scripts/repair_anchorless_observations.py:166-184 | a dropped observation cited through another column breaks the foreign key check |
| AnchorlessRepair.Catalog.Apply | scripts/repair_anchorless_observations.py:142-192 | re-points, deletes and verifies, or restores the catalogue, exactly by that condition, stated over the rows before and after |
| ScoreStore.RecordKeepsInv | src/media_catalog/discovery/candidates.py:158-212 | linking evidence and refreshing one cache keeps every candidate's score equal to its fold |
| ScoreStore.RecordTwiceIsOnce | src/media_catalog/discovery/candidates.py:167-192 | evidence already linked is not counted again |
| ScoreStore.RecordAddsPoints | src/media_catalog/discovery/candidates.py:193-212 | new evidence raises the score by exactly its points and the generation by one |
| CandidateEffects.EvidenceIsWorth | src/media_catalog/discovery/candidates.py:193-212 | new exact, strong, moderate or weak evidence raises the score by 100, 70, 35 or 10 |
| CandidateEffects.OccurrenceWrites | src/media_catalog/discovery/candidates.py:16-212 | which occurrences lead to a candidate, and the row and evidence they write, field by field; a link to an account by its handle writes nothing |
| CandidateEffects.AssertionWrites | src/media_catalog/discovery/posts.py:36-134 | the row an assertion writes, same_work from the smaller id to the larger |
| CandidateEffects.SameWorkEitherWay | src/media_catalog/discovery/posts.py:51-53 | two posts asserted to be the same work from either side end on one row |
| CandidateEffects.LookupWrites | src/media_catalog/candidate_lookup/interpretation.py:400-491 | the row an account lookup writes, and nothing when it resolves to the seed |
| CandidateWriters.Generated | src/media_catalog/discovery/candidates.py:16-75 | an occurrence generates a candidate of its own kind and never, but for attributions, one with itself |
| CandidateWriters.CandidateStore.Upsert | src/media_catalog/discovery/candidates.py:77-212 | migrates, inserts or updates the candidate and its evidence, or leaves the store unchanged exactly when a constraint fails |
| CandidateWriters.MetAgainFails | src/media_catalog/discovery/candidates.py:77-212 | a candidate whose target a review resolved and that is met again under a new unresolved reference fails the upsert |
| CandidateWriters.OccurrenceCountsOnce | src/media_catalog/discovery/candidates.py:158-212 | regenerating from the same occurrence, also across the legacy migration, changes neither score nor generation |
| CandidateWriters.UpsertTwiceIsOnce | src/media_catalog/discovery/candidates.py:77-212 | repeating a successful step succeeds and changes nothing |
| CandidateWriters.CandidateStore.Discover | src/media_catalog/discovery/__init__.py:52-105 | the upserts of the found occurrences follow each other, up to the first that is refused, which takes all of them back; the invariant is kept |
| CandidateWriters.CandidateStore.LookUpPost | src/media_catalog/candidate_lookup/interpretation.py:219-330 | uses, upgrades or inserts the pair's candidate, records the evidence, keeps one candidate per pair and never turns sourced_from back |
| CandidateWriters.NoKeyCollision | src/media_catalog/candidate_lookup/interpretation.py:233-271 | neither the upgrade to sourced_from nor the insertion meets a taken candidate key |
| CandidateWriters.PairStaysUnique | src/media_catalog/candidate_lookup/interpretation.py:219-271 | at most one sourced_from or same_work candidate per unordered pair stays so |
| CandidateWriters.CandidateStore.LookUpAccount | src/media_catalog/candidate_lookup/interpretation.py:400-491 | records one more piece of evidence for the seed's candidate, or fails exactly when the URL resolves to the seed |
| CandidateWriters.CandidateStore.AssertPost | src/media_catalog/discovery/posts.py:36-134 | records a manual assertion under its ordered key, or fails exactly for equal endpoints or a relation posts cannot have |
| CandidateWriters.CandidateStore.WriteAll | src/media_catalog/candidate_lookup/interpretation.py:219-330 | the stores the writers pass through are a history of exactly these writings |
| CandidateWriters.UpsertedKeepsInv | src/media_catalog/discovery/candidates.py:77-212 | what an upsert does keeps every score equal to its fold |
| CandidateWriters.HistoryKeepsInv | src/media_catalog/discovery/candidates.py:158-212 | in every state of every history of discovery, lookups and assertions each score is the fold of its distinct supporting evidence |
| CandidateWriters.LookupsKeepPairs | src/media_catalog/candidate_lookup/interpretation.py:219-330 | in every state of every history of lookups pairs stay unique and sourced_from is never turned back |
| AccountDiscovery.WritingIsDiscovery | src/media_catalog/discovery/candidates.py:77-212 | every writing of the candidate store is a discovery step of the identity tables, and the two views of the candidates still agree |
| UrlText.PrintedSplits | src/media_catalog/link_resolution.py:52-62 | splitting a printed https URL gives back its host, path and query |
| UrlText.SegmentsStep | src/media_catalog/link_resolution.py:61 | a path is read back segment by segment |
| QueryText.PairReadsBack | src/media_catalog/link_resolution.py:62-73 | a printed key and value are read back with what follows them |
| LinkRoundTrip.ResolvedIsCanonical | src/media_catalog/link_resolution.py:86-227 | every resolved link has the canonical form of its platform family; which URL gives which is LinkForms.ResolvesExactly |
| LinkForms.ResolvesExactly | src/media_catalog/link_resolution.py:52-227 | a URL printed from a host, path segments and query pairs resolves to a link exactly when these mean it: hosts, paths, suffixes, languages and last query values written out for every family |
| LinkForms.PostForms | src/media_catalog/link_resolution.py:79-125 | on every danbooru and e621 host /posts/<id>, /posts/<id>.json and /post/show/<id> are the same post |
| LinkForms.PixivIllustrationText | src/media_catalog/link_resolution.py:152-166 | the old member_illust.php URL resolves to the post of its illust_id |
| LinkForms.QueryForm | src/media_catalog/link_resolution.py:67-149 | gelbooru hosts give the last id of the query |
| LinkForms.SankakuForms | src/media_catalog/link_resolution.py:169-183 | sankaku.app and chan.sankakucomplex.com give their id |
| LinkForms.PawchiveForms | src/media_catalog/link_resolution.py:186-200 | pawchive.pw and www.pawchive.pw give service, user and post |
| LinkForms.LanguageIgnored | src/media_catalog/link_resolution.py:86-183 | a language segment changes nothing, wherever it stands |
| LinkRoundTrip.RoundTrip | src/media_catalog/link_resolution.py:3-11 | resolving the canonical URL gives the same link exactly when the target ends in no newline |
| LinkRoundTrip.NewlineResolves | src/media_catalog/link_resolution.py:22-30 | an escaped newline after a numeric query id resolves, with the newline in the target |
| LinkRecognition.CanonicalKept | src/media_catalog/links.py:66-117 | canonicalization leaves the resolver's canonical URLs alone |
| LinkRecognition.RecognitionAgrees | src/media_catalog/links.py:134-250 | the canonical URL of a resolved danbooru, e621, gelbooru, pixiv or sankaku link is recognized as that post exactly when the target ends in no newline |
| LinkReferences.CanonicalForm | src/media_catalog/links.py:66-117 | a URL of a known host keeps path and query without the tracking keys, and gets the host's one name |
| LinkReferences.RecognizesExactly | src/media_catalog/links.py:120-250 | a URL of the five families is recognized as a post exactly when, whatever its language, host alias and tracking keys, it names that post |

## Left out

- HTTP sockets, TLS, redirect DNS checks, credentials, image inspection and the file system: only their contracts appear (byte limits, faults as parameters, bytes of a staging file).
- Staging names are numbers that are never used twice; the original draws them at random.
- The SQL engine: dropping and recreating triggers, concurrency between planning and the write lock, the stale-plan and schema-version checks of the repair scripts. Timestamps are naturals in the order of their text.
- Reviews of post and attribution candidates: they only record a decision and touch no identity.
- The library planner apart from the confirmed-identity query: target revisions, estimates, exclusions and its de-duplication.
- Header text: Content-Range, Content-Length and Retry-After are given as parsed values, an ETag as its trimmed text.
- TransferEngine.Transfer: storage errors raised while a failed session is detached or discarded are not modelled.
- TransferEngine.Transfer: an exception of an observer ends the original's transfer on the spot; here the transfer is computed to its end and what follows the event is not recorded, so clock and budget may be further on when the run is aborted.
- TransferEngine.Transfer: a control check that fires before the session opens drops a pending resume and leaves its file, so staging files are not conserved and nothing is claimed about them.
- AcquisitionTables.Durable: diagnostics, timestamps and the stored attempt count of an item are not modelled; three columns of a ledger row and the size in it exist only for the proofs and are read by no method but to carry them on.
- AcquisitionRun.Reconcile: the lookup is by plan item, and a retry of fewer items has a plan of its own, so "never downloads twice" is not claimed.
- AcquisitionRetry.Retry: the planner is a parameter that makes one item for each selected key, and the limits are always given; the original can take them from the run's row.
- AcquisitionService.Execute: the list of item summaries in the returned report is not modelled; it lacks the items refused by a changed policy and those whose publication failed. The counts of an existing plan are not compared, since the plan's digest determines its items.
- AcquisitionRecovery.RecoverInterrupted: bytes quarantined before the crash are not in the recovered run's counter, as in the original; the bound on quarantined bytes is proved on the rows.
- DeclaredClaims.CompareDeclaredClaims: letter case is folded for ASCII letters only.
- Publication.VerifyPublishAndPersist: occurrence sources, fingerprints and the stored comparison rows are not modelled.
- CandidateWriters.CandidateStore.LookUpPost: repeating a lookup across an upgrade from same_work to sourced_from records new evidence, because the digest contains the key; only the agreement of cache and fold is claimed.
- CandidateWriters: score versions, timestamps, review states and image characteristics are not modelled.
- LinkRecognition.Recognize: references other than posts of the five families, configured instances and non-ASCII digits are not modelled.
- UrlText.UrlSplit: bracketed hosts are refused; no supported platform has one. The normalisation check that urllib makes of a network location with characters beyond ASCII is omitted, so the model accepts user information the original refuses.
- QueryText.Unquote: bytes above 127 decode to one replacement character, which no accepted field contains.
- src/media_catalog/discovery/orchestration.py: each step is handed the whole remaining request budget, so that spent requests stay within the budget is not an invariant and nothing is claimed of it.
- Provider adapters, imports, remote synchronisation, relationships, seeding, projections and labelling: workflows over tables of their own, which no property proved here depends on.
- CLI families, doctor and read-only queries: they read the modelled tables and write none, so there is no invariant for them to keep.
