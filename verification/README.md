# EdgeCase Forge in Dafny: checkout, evidence pipeline and algorithmic cores

This project models the parts of EdgeCase Forge whose behaviour is hardest to see from one function at a
time, and proves what they promise.

**FlashCart checkout** (`Flash*.dfy`). `FlashModel` is a step machine of the concurrent store. A request is
a program counter with its local variables; each lock acquire or release and each read or write of shared
state is one step; any number of requests interleave, and new ones may arrive at any time. Stock and price
are arbitrary. `FlashInvariant`, `FlashSteps`, `FlashStable`, `FlashTables` and `FlashRuns` prove one
invariant over every run by rely and guarantee: a step keeps what its own request assumes (`FlashSteps`),
its effects on shared state are bounded by what the request holds (`Guarantee`), and nothing within that
bound disturbs another request (`FlashStable`). On top of it stand deadlock freedom and completion
(`FlashProgress`), conservation (`FlashStock`), status coherence (`FlashCoherence`, `FlashLife`, `FlashExact`,
`FlashOverlap`) and the other promises (`FlashTheorems`). `FlashAtomic` gives each handler one function and proves that a handler running alone
computes it, step by step; `FlashStore` is the same store as classes whose fields are updated in place,
each method proved against those functions; `FlashMeaning` states what those functions do field by field, and
`FlashReplay` reasons about whole histories of handlers that do not overlap. `FlashAnswers` proves who is let
in and what every answer means, over every interleaved run.

**Evidence to score** (`Harness`, `Differential`, `Verdicts`, `CaseRun`, `Ledger`, `Median`, `Summary`, `Suite`,
`SuiteRuns`, `Adjudication`, `Overlay`, `Confirmed`). From lists of test nodes and exit codes to candidate
kills, from there to a ledger written by sessions that may die before or in the middle of any disk
operation, to summaries with exact medians, to a write-once adjudication. The last module ties the stages
together: what a confirmed kill stands on, and why a confirmed score is never above the candidate score.

**Algorithmic cores** (`Mapper`, `Json`, `SchemaRefs`, `SchemaNormal`, `SchemaFlat`, `Provider`,
`ProviderMeaning`, `Framing`).
The call-graph worklist, reference inlining and normalisation of response schemas, the provider's retry and
repair loop with its accounting, and the byte stream behind a tree digest.

What the environment provides is a parameter: drawn order ids are arbitrary as long as none is drawn twice
(`Takes`), a valid webhook signature and a valid bearer header are inputs, a scanner's outcome is a function
of its case, the HTTP peer is an arbitrary function from the number of POSTs so far to replies, and a crash
is a chosen disk operation. A digest is modelled as injective: equal digests mean equal files. Scores and
delays are exact reals.

Five places where the code does something its readers may not expect; the model follows the code:

- A webhook and a creation can be at work on one order at once, and each writes its outcome over the other's.
  Three runs for every initial stock of at least one end, with all requests answered, in an order that is not
  coherent: a creation writes PAID (source_app.py:215-216) over an order a `payment.failed` webhook has failed
  and released (`FlashOverlap.OverlapBreaksCoherence`); a `payment.succeeded` webhook writes PAID (line 275)
  over an order the creation has meanwhile declined and released, for which there is no charge
  (`DeclineBreaksCoherence`); and a webhook looks the charge up (line 276) before it is stored by a creation
  that then times out, so that the paid order names no charge (`TimeoutLosesCharge`). `FlashExact` proves that
  there is nothing else: over every run, whatever overlaps, an order nobody is working on is coherent if and
  only if its last status write was not a PAID write that found it failed or cancelled and, when it is paid, no
  webhook looked the charge up in vain or a creation entered it (`CoherentExactly`, and one lemma for each clause).
  `FlashLife` supports it with a small automaton for the life of one order that every step of the store
  follows. `FlashCoherence` states what remains for a caller who keeps webhooks and creations of one order
  apart.
- A replay of an order that a webhook is failing at that moment can be answered without a status code: the
  replay reads the failure code between the webhook's two writes (source_app.py:280-281 against 178-179).
  `FlashOverlap.ReplayWithoutCode` is such a run, and `FlashAnswers.CodelessReplay` says there is no other way.
- A suite that dies between its last ledger append and its last summary keeps an incomplete summary forever:
  a resumed session finds nothing pending and never rewrites it, and adjudication then refuses the suite.
  `SuiteRuns.FinishedSummaryIff` is the exact condition, `StuckWithoutSummary` the unlucky run.
- A property called `$defs` is lost and one called `$ref` makes the schema fail when references are inlined,
  because the resolver does not tell property names from keywords (`SchemaRefs.DefsPropertyLost`,
  `RefPropertyFails`); the normaliser does.
- A failed request reports the request id of the last attempt that was answered, which is an earlier one
  whenever the last attempt timed out or broke off (`Provider.StaleIdentifier`); and an empty request-id header
  is kept for a result but not for an error.

## Model

| member | source | states |
|---|---|---|
| FlashRuns.RunInvariant | benchmarks/flashcart/source_app.py:117-288 | every state of every interleaved run satisfies the invariant: locks match program points, tables agree with each other, every request's local knowledge holds |
| FlashSteps.StepGuarantee | benchmarks/flashcart/source_app.py:117-288 | what one step may change is bounded by the locks its request holds: stock and release flags only under the inventory lock, the ledger only under the payment lock, an identity's entry only by a creation recording for that identity |
| FlashStable.Stable | benchmarks/flashcart/source_app.py:155-288 | non-interference: a step within that bound never breaks what another request has read and still relies on |
| FlashTheorems.IdentityExclusion | benchmarks/flashcart/source_app.py:117-119 | two creations inside their identity locks hold the same lock object exactly when their identities are equal, and then they are one request; the table grows during the run |
| FlashTheorems.SameIdentitySameOrder | benchmarks/flashcart/source_app.py:169-202 | creations that name an order name the same one if and only if they have the same user and key, and that order belongs to that user |
| FlashTheorems.IdempotencyBijection | benchmarks/flashcart/source_app.py:172-202 | once all requests are answered, the idempotency table is a bijection from identities onto orders, owners matching |
| FlashTheorems.Persistence | benchmarks/flashcart/source_app.py:201-202 | an identity keeps its order, an order its terms, a release flag, a charge, a timeout key and a processed event stay for the rest of the run |
| FlashProgress.LockOrder | benchmarks/flashcart/source_app.py:117-134 | in every step that takes a lock, the lock was free and every lock its request holds ranks below it: state or identity, then inventory, then payment |
| FlashProgress.DeadlockFree | benchmarks/flashcart/source_app.py:117-293 | in every state satisfying the invariant, if some request is unanswered then some request can take a step |
| FlashProgress.Completion | benchmarks/flashcart/source_app.py:155-293 | with no new arrivals a run is no longer than the work at its start, and where it cannot go on every request has been answered |
| FlashStock.Conservation | benchmarks/flashcart/source_app.py:122-134 | in every interleaved run stock + unreleased orders + stock taken for unpublished orders is the initial stock (an order whose stock is back but whose flag is still to be set counts as released) |
| FlashTheorems.StockBounds | benchmarks/flashcart/source_app.py:122-134 | stock is always between zero and the initial stock |
| FlashTheorems.QuietConservation | benchmarks/flashcart/source_app.py:122-134 | once all requests are answered, stock and unreleased orders hold all of the initial stock |
| FlashTheorems.PaymentLedger | benchmarks/flashcart/source_app.py:53-66 | charge numbers are exactly 1..n without repeats, at most one charge per order, its amount price × quantity whatever total was quoted, never for a declined token, and timeout keys are charged keys |
| FlashTheorems.OneTimeoutPerOrder | benchmarks/flashcart/source_app.py:63-65 | two requests are never both answered 504 about the same order |
| FlashTheorems.EventOnce | benchmarks/flashcart/source_app.py:266-288 | each processed event was applied by exactly one request and counted once, an event answered 404 or duplicate is not applied by that request, and a count without a mark belongs to the request about to mark it |
| FlashCoherence.StatusCoherence | benchmarks/flashcart/source_app.py:204-287 | without overlapping webhooks every order nobody is working on is released exactly when failed or cancelled, pending orders are charged, a paid order names its own charge, and statuses move only from pending to paid or failed and from paid to cancelled |
| FlashTheorems.PaidWithinStock | benchmarks/flashcart/source_app.py:204-217 | in those runs the paid quantities never exceed the initial stock |
| FlashLife.StepOrder | benchmarks/flashcart/source_app.py:155-288 | every step of every request is, for every order, one move of a small automaton: what it does to status, release flag, charge, charge id and failure code, and to the stage of the creation and of the state lock's holder at work on it |
| FlashExact.CoherentExactly | benchmarks/flashcart/source_app.py:204-287 | over every run, whatever overlaps: an order nobody is working on is coherent if and only if its last status write was not a PAID write that found it failed or cancelled and, when paid, no webhook looked its charge up in vain or a creation entered it |
| FlashExact.ReleaseExactly | benchmarks/flashcart/source_app.py:129-134 | such an order is paid although released if and only if its last status write was a PAID write that found it failed or cancelled; otherwise released means failed or cancelled, and failed or cancelled always means released |
| FlashExact.ChargedExactly | benchmarks/flashcart/source_app.py:53-66 | such an order has been charged if and only if its token is not the declined one, so a pending one always has |
| FlashExact.ChargeIdExactly | benchmarks/flashcart/source_app.py:273-278 | such an order, when paid, names its own charge if and only if no webhook looked the charge up in vain or a creation entered it; otherwise it names none |
| FlashExact.MoveExactly | benchmarks/flashcart/source_app.py:204-287 | in every run a status leaves the moves pending to paid or failed and paid to cancelled exactly when it is written over a status that is neither the one its writer had read nor the one it writes |
| FlashAnswers.RefusedAtTheDoor | benchmarks/flashcart/source_app.py:99-105 | over every run: an unsigned webhook and a request without a known bearer are answered 401, a creation without a key 400; they never get past their first step, and it changes nothing |
| FlashAnswers.RunHonest | benchmarks/flashcart/source_app.py:155-288 | over every run each answer means what it says: which order, whose, whether the payload matched, whether it is settled, failed, timed out or released, whether the event is processed; and nobody admitted is refused 401 or 400 |
| FlashAnswers.WritersMay | benchmarks/flashcart/source_app.py:204-287 | over every run a status is only written by who may: PAID by a signed webhook of success or the order's own creation, FAILED by a signed webhook of failure or its own creation with a declined token, CANCELLED by its owner or the administrator |
| FlashAnswers.AppliersSigned | benchmarks/flashcart/source_app.py:260-288 | whoever has applied an event was signed, and its order is no longer pending |
| FlashAnswers.OrderContents | benchmarks/flashcart/source_app.py:183-200 | over every run an order is for product 1, holds the quantity and token its creator asked for, and costs price × quantity |
| FlashAnswers.CodelessReplay | benchmarks/flashcart/source_app.py:178-179 | a replay finds a failed order without a failure code only while a webhook of failure is between its two writes to that order |
| FlashOverlap.OverlapBreaksCoherence | benchmarks/flashcart/source_app.py:215-282 | for every initial stock of at least one, a run in which all requests are answered and a paid order's stock is on the shelf: a failed webhook between the charge and the PAID write |
| FlashOverlap.DeclineBreaksCoherence | benchmarks/flashcart/source_app.py:208-275 | the same end through the webhook's PAID write over a declined order, which has no charge at all |
| FlashOverlap.TimeoutLosesCharge | benchmarks/flashcart/source_app.py:273-278 | for every initial stock of at least one, a run that ends with an order paid, charged and not released that names no charge |
| FlashOverlap.ReplayWithoutCode | benchmarks/flashcart/source_app.py:178-179 | for every initial stock of at least one, a run in which a replay is answered without a status code |
| FlashAtomic.CreateAlone | benchmarks/flashcart/source_app.py:155-217 | the steps of a creation that runs alone lead to exactly the state and reply of `CreateAtomic`, with no lock left behind |
| FlashAtomic.CancelAlone | benchmarks/flashcart/source_app.py:234-252 | the same for a cancellation, whoever else holds unrelated locks |
| FlashAtomic.WebhookAlone | benchmarks/flashcart/source_app.py:255-288 | the same for a signed webhook |
| FlashMeaning.CreateMeans | benchmarks/flashcart/source_app.py:169-217 | field by field, what a creation that runs alone does: replay, mismatch, unknown product, no stock, and a charge that exists, is declined, times out or succeeds |
| FlashMeaning.CancelMeans | benchmarks/flashcart/source_app.py:234-252 | the same for a cancellation: 404, 403, 409, already cancelled, and the release of a paid order |
| FlashMeaning.WebhookMeans | benchmarks/flashcart/source_app.py:266-288 | the same for a signed webhook: duplicate, 404, count and mark, and what success and failure do to a pending order |
| FlashStore.PaymentStub.Charge | benchmarks/flashcart/source_app.py:53-66 | the stub's new ledger, timeout keys and outcome, in place |
| FlashStore.Store.ReserveInventory | benchmarks/flashcart/source_app.py:122-126 | takes the quantity and nothing else, or refuses and changes nothing |
| FlashStore.Store.ReleaseInventoryOnce | benchmarks/flashcart/source_app.py:129-134 | gives an order's stock back unless that was done before |
| FlashStore.Store.CreateOrderCore | benchmarks/flashcart/source_app.py:169-217 | new state and reply of the core on the mutable store are those of `CreateAtomic` |
| FlashStore.Store.CreateOrder | benchmarks/flashcart/source_app.py:155-166 | no bearer: 401 and nothing changes; no key: 400 and nothing changes; otherwise the core |
| FlashStore.Store.CancelOrder | benchmarks/flashcart/source_app.py:234-252 | no bearer: 401 and nothing changes; otherwise owner, status and release in place, against `CancelAtomic` |
| FlashStore.Store.PaymentWebhook | benchmarks/flashcart/source_app.py:255-288 | no valid signature: 401 and nothing changes; otherwise duplicate, 404, effect and mark in place, against `WebhookAtomic` |
| FlashReplay.ExecSane | benchmarks/flashcart/source_app.py:155-288 | handlers that do not interleave keep every order coherent and all stock accounted for |
| FlashReplay.HistoryKeeps | benchmarks/flashcart/source_app.py:155-288 | over any history of such handlers identities keep orders, orders keep fingerprints, statuses only move as allowed, charges stay |
| FlashReplay.Replay | benchmarks/flashcart/source_app.py:174-181 | after any history, repeating a creation whose order is settled changes nothing and names the same order (402 if it failed, else 201), and another payload under its key answers 409 and changes nothing |
| FlashReplay.RetryAfterTimeout | benchmarks/flashcart/source_app.py:63-66 | repeating a creation that was answered 504 pays the same order with the charge made before, without a second charge or more stock |
| Harness.StatusPartition | src/edgecase_forge/baseline/executor.py:44-71 | every execution is scoreable, or the test's fault, or the evaluator's, and never two of them |
| Harness.CompleteMeans | src/edgecase_forge/baseline/executor.py:73-93 | a harness is scoreable exactly when it ran in time to exit code 0 or 1 with a report of at least one node and no errored node |
| Harness.InvalidTestMeans | src/edgecase_forge/baseline/executor.py:52-60 | an execution is the test's fault exactly when it ran and timed out, was interrupted, collected nothing or reported an errored node |
| Harness.InfrastructureMeans | src/edgecase_forge/baseline/executor.py:62-71 | it is the evaluator's exactly when it did not run or, in time, ended in another exit code or without a usable report |
| Harness.StatusMeans | src/edgecase_forge/baseline/executor.py:73-93 | each recorded status, from exit code, time limit, report and nodes |
| Differential.UniqueNodes | src/edgecase_forge/benchmark/differential.py:75-91 | each node id once; an id that occurs more than once becomes an error no side can use |
| Differential.BaseNameCuts | src/edgecase_forge/benchmark/differential.py:71-72 | the base name is the longest prefix without an opening bracket |
| Differential.MatchingOne | src/edgecase_forge/benchmark/differential.py:107-114 | a base name has a single matching index exactly when exactly one finding claims it |
| Differential.BuildDifferential | src/edgecase_forge/benchmark/differential.py:8-68 | the loops compute the evidence record that `Verdicts.EvidenceMeans` and its neighbours characterise over the raw node lists |
| Differential.RowKills | src/edgecase_forge/benchmark/differential.py:94-137 | with both harnesses complete, a row is a candidate kill exactly when its two nodes are a killing pair |
| Differential.CaseKillIff | src/edgecase_forge/benchmark/differential.py:8-137 | over raw node lists: a case is a candidate kill if and only if both harnesses are complete and some id occurs once on each side, passed clean, failed by assertion on the mutant, with a non-empty base name claimed by exactly one finding |
| Differential.SameBehaviourNeverKills | src/edgecase_forge/benchmark/differential.py:94-137 | a mutant with the clean build's node results is never a kill, and a run without a mutant never is |
| Verdicts.EvidenceMeans | src/edgecase_forge/benchmark/differential.py:33-66 | over raw node lists: a row for exactly the ids that occur; the false positives are the ids that occur once on clean and fail by assertion, the candidates those that pass once on clean, fail by assertion once on the mutant and are claimed by exactly one finding, with every harness complete |
| Verdicts.VerdictIff | src/edgecase_forge/benchmark/differential.py:116-137 | each of the six verdicts on an id, if and only if the raw nodes and harnesses are so |
| Verdicts.ReasonIff | src/edgecase_forge/benchmark/differential.py:116-137 | each of the eleven reasons, in the same terms |
| Verdicts.RowNames | src/edgecase_forge/benchmark/differential.py:104-114 | a row carries the base name of its clean test and exactly the positions of the findings with that name, in order |
| CaseRun.IntegrityErrors | src/edgecase_forge/benchmark/artifacts.py:50-64 | exactly the errors of changed tests and changed repositories |
| CaseRun.RunCase | src/edgecase_forge/benchmark/suite.py:151-345 | the ledger row and the evidence file of a case for each outcome of the scanner |
| CaseRun.StoredMeans | src/edgecase_forge/benchmark/artifacts.py:67-74 | the stored evidence is that of the two runs if nothing changed under them, and otherwise the same record with every verdict invalid, no candidate and no kill |
| CaseRun.RowKillIff | src/edgecase_forge/benchmark/suite.py:247-280 | a row is a candidate kill if and only if it is a mutant's, a test was generated, nothing changed under the run, both harnesses are complete and a killing pair exists |
| Ledger.ReadProgress | src/edgecase_forge/benchmark/artifacts.py:104-154 | accepts exactly the files without torn end, bad line, unscheduled or repeated pair, foreign source or modified artifact, and then returns their rows in order |
| SuiteRuns.TamperingRefused | src/edgecase_forge/benchmark/artifacts.py:256-290 | a line of the suite is accepted later exactly with the run directory and the evidence file its run left behind |
| SuiteRuns.EditRefused | src/edgecase_forge/benchmark/artifacts.py:271-287 | a row edited afterwards is accepted only with its own case, test and kill, as long as it points to its evidence |
| Median.MedianMonotone | src/edgecase_forge/benchmark/suite.py:578-585 | a list that is pointwise below another has a median at or below its median |
| Median.MedianBetween | src/edgecase_forge/benchmark/suite.py:578-585 | the median lies between minimum and maximum |
| Median.MedianIsMiddle | src/edgecase_forge/benchmark/suite.py:578-581 | the median is the middle value in order or, for an even number, the mean of the middle two |
| Summary.WriteSummary | src/edgecase_forge/benchmark/suite.py:492-585 | status, scores, median, range and blockers of a ledger; the lemmas below say over the rows what each of them is |
| Summary.CompleteScores | src/edgecase_forge/benchmark/suite.py:512-538 | in a complete matrix every repetition has a score, and it is its kills over the selected mutants |
| Summary.PublishedScore | src/edgecase_forge/benchmark/suite.py:535-585 | a score is published exactly for a complete matrix with a mutant, and it is the middle one of the repetitions' kill fractions |
| Summary.RepScoreMeans | src/edgecase_forge/benchmark/suite.py:511-534 | a repetition's figures over the rows: complete, evaluated, expected, kills, and a score exactly when complete with a mutant |
| Summary.CompleteMeans | src/edgecase_forge/benchmark/suite.py:504-510 | complete means a row for every selected case in every repetition and no other row |
| Summary.EvaluatedCount | src/edgecase_forge/benchmark/suite.py:513-515 | the evaluated mutants of a repetition are its rows other than the control's, each counted once |
| Summary.FullSelection | src/edgecase_forge/benchmark/freeze.py:18 | the full selection is C00 and then M01 to M10 |
| Summary.SummaryTotals | src/edgecase_forge/benchmark/suite.py:511-535 | the reported kills and evaluated mutants of the repetitions add up to the totals |
| Summary.KillsCount | src/edgecase_forge/benchmark/suite.py:513-516 | a repetition's kills are its mutant rows with a candidate kill, each counted once |
| Summary.KillsBound | src/edgecase_forge/benchmark/suite.py:513-516 | a repetition's kills never exceed its evaluated mutants, nor those the selected mutants |
| Summary.ScoreBounds | src/edgecase_forge/benchmark/suite.py:578-585 | a published score satisfies 0 ≤ minimum ≤ median ≤ maximum ≤ 1 |
| Suite.Runner.Session | src/edgecase_forge/benchmark/suite.py:101-148 | exactly what a session does to the disk: refusal of an unreadable ledger, or the pending pairs in schedule order up to the crash, a torn line for a crash inside an append, and the summary of the last pair it was written for |
| SuiteRuns.ScheduleOnce | src/edgecase_forge/benchmark/suite.py:119-122 | the schedule lists every pair of repetition and selected case exactly once |
| SuiteRuns.ScheduleAt | src/edgecase_forge/benchmark/suite.py:119-122 | its order is repetition by repetition and within each the selection's |
| SuiteRuns.PendingAre | src/edgecase_forge/benchmark/suite.py:117-122 | the pending pairs are the scheduled ones that are not done, without repeats |
| SuiteRuns.SessionKeeps | src/edgecase_forge/benchmark/suite.py:101-146 | wherever a session dies, the ledger stays a prefix of the schedule of acceptable lines, grows only at its end, and the summary covers a prefix of it |
| SuiteRuns.ReadableIffWhole | src/edgecase_forge/benchmark/artifacts.py:114-116 | on a reachable disk only a torn last line makes the ledger unreadable |
| SuiteRuns.HistorySafe | src/edgecase_forge/benchmark/suite.py:101-146 | after any sequence of runs, crashes and resumes: prefix of the repetition-major schedule, no pair twice, summary over a prefix |
| SuiteRuns.HistoryAppendOnly | src/edgecase_forge/benchmark/artifacts.py:157-161 | recorded lines never change, and after a torn append nothing changes any more |
| SuiteRuns.CompleteCoversAll | src/edgecase_forge/benchmark/suite.py:504-510 | a summary that says complete covers the whole ledger and the whole schedule |
| SuiteRuns.FinishedSummaryIff | src/edgecase_forge/benchmark/suite.py:119-146 | an uninterrupted session completes the ledger; it leaves a complete summary if and only if a pair was pending or the summary was complete before |
| SuiteRuns.StuckWithoutSummary | src/edgecase_forge/benchmark/suite.py:134-143 | a first run that dies just before its last summary leaves a whole ledger without a complete summary, and no later session changes anything |
| Adjudication.IndexDecisions | src/edgecase_forge/benchmark/adjudication.py:105-110 | succeeds exactly on decisions with distinct keys, and then maps each key to its decision |
| Adjudication.JoinDecisions | src/edgecase_forge/benchmark/adjudication.py:100-136 | succeeds exactly when every candidate kill has exactly one decision, every decision a candidate, and both hashes agree |
| Adjudication.Validate | src/edgecase_forge/benchmark/adjudication.py:44-136 | accepts exactly complete suites with their own complete summary and a matching decision file for this suite and fingerprint |
| Adjudication.AcceptsMeans | src/edgecase_forge/benchmark/adjudication.py:44-136 | what is accepted, condition by condition over the four files |
| Adjudication.MutantIdMeans | src/edgecase_forge/benchmark/adjudication.py:26 | a decision is about M followed by two digits, so never about the control |
| Adjudication.CountConfirmed | src/edgecase_forge/benchmark/adjudication.py:178-183 | the counter dictionary holds the confirmed kills of each repetition |
| Adjudication.ConfirmedCount | src/edgecase_forge/benchmark/adjudication.py:178-183 | a repetition's confirmed kills are its confirmed cases, each counted once |
| Adjudication.BuildAdjudicated | src/edgecase_forge/benchmark/adjudication.py:166-238 | scores, median, range, blockers and totals of the adjudicated summary, as the lemmas below characterise them |
| Adjudication.ConfirmedScoreMeans | src/edgecase_forge/benchmark/adjudication.py:184-195 | a repetition's confirmed figures over the reviewed cases, and a score exactly when a mutant is selected |
| Adjudication.PublishedConfirmed | src/edgecase_forge/benchmark/adjudication.py:196-222 | the confirmed score is the middle one of the repetitions' confirmed fractions |
| Overlay.OnceFile.WriteOnce | src/edgecase_forge/benchmark/adjudication.py:273-279 | writes an absent file, accepts an equal one, and never changes a file that is there |
| Overlay.Adjudicator.Adjudicate | src/edgecase_forge/benchmark/adjudication.py:44-163 | the new overlay in every case, crash included; success exactly when the inputs are accepted and both files hold their result |
| Overlay.WriteOnceForever | src/edgecase_forge/benchmark/adjudication.py:151-163 | over any sequence of adjudications of any inputs, interrupted or not, a written file never changes and the two files belong together and to accepted inputs |
| Overlay.CompletedOnlyBySame | src/edgecase_forge/benchmark/adjudication.py:151-163 | an adjudication that died between its files is completed by an uninterrupted run over the same inputs and by nothing else |
| Confirmed.ConfirmedKillSound | src/edgecase_forge/benchmark/adjudication.py:100-136 | whatever runs and crashes wrote the ledger, each confirmed case of an accepted adjudication stands on the ledger line of a mutant's untampered run, whose own node lists hold a killing pair, and on exactly one decision: a confirmation that names the test of that run and the digest of that run's evidence |
| Confirmed.SuiteSummaryIsOwn | src/edgecase_forge/benchmark/adjudication.py:83-89 | the files of a suite's own sessions, once accepted, satisfy what the score theorems assume of the summary |
| Confirmed.ReviewedAll | src/edgecase_forge/benchmark/adjudication.py:197-216 | confirmed + rejected = candidate kills = reviewed cases |
| Confirmed.ConfirmedBelowCandidate | src/edgecase_forge/benchmark/adjudication.py:178-196 | each repetition's confirmed score is at most its candidate score, which is at most one |
| Confirmed.MedianBelowCandidate | src/edgecase_forge/benchmark/adjudication.py:196-222 | the confirmed score lies within its range in [0, 1] and is at most the candidate score |
| Confirmed.ConfirmOrReject | src/edgecase_forge/benchmark/adjudication.py:178-222 | the bounds are met and can be strict: with one killed mutant, accepted inputs exist whose confirmation gives a confirmed score of one and whose rejection gives zero, and a subset selection stays ineligible |
| Confirmed.EligibleIff | src/edgecase_forge/benchmark/adjudication.py:197-216 | after adjudication the score is eligible if and only if the full selection ran, without integrity or infrastructure error, from a clean git state |
| Mapper.ReachableFunctions | src/edgecase_forge/contract/mapper.py:193-214 | terminates and returns exactly the functions reachable along calls, each once, the handler first, in non-decreasing call distance |
| SchemaRefs.ResolveIff | src/edgecase_forge/llm/response_schema.py:37-67 | resolution, total by (unused definitions, schema), succeeds if and only if along every chain of expansions each reference is known and no definition is expanded inside itself, siblings of `$ref` included |
| SchemaRefs.ResolveFlat | src/edgecase_forge/llm/response_schema.py:37-67 | a resolved schema holds no non-null reference and no block of definitions at any depth |
| SchemaRefs.ResolveTwice | src/edgecase_forge/llm/response_schema.py:37-67 | resolving a resolved schema again, with any definitions, changes nothing |
| SchemaRefs.MergedGet | src/edgecase_forge/llm/response_schema.py:59-61 | a reference object stands for its definition, overridden key by key by the siblings of `$ref` |
| SchemaRefs.ResolveGet | src/edgecase_forge/llm/response_schema.py:63-67 | other objects keep every key but `$defs`, each value resolved |
| SchemaRefs.ResolveKeys | src/edgecase_forge/llm/response_schema.py:63-67 | and they keep their order |
| SchemaRefs.ResolveElements | src/edgecase_forge/llm/response_schema.py:43-44 | lists are resolved element by element |
| SchemaRefs.TargetMeans | src/edgecase_forge/llm/response_schema.py:50-53 | exactly the references `#/$defs/` followed by a name refer to the definition of that name |
| SchemaRefs.DefsPropertyLost | src/edgecase_forge/llm/response_schema.py:63-67 | a property called `$defs` does not survive resolution |
| SchemaRefs.RefPropertyFails | src/edgecase_forge/llm/response_schema.py:51-54 | a property called `$ref` whose schema is an object makes resolution fail |
| SchemaNormal.NormalFormIff | src/edgecase_forge/llm/response_schema.py:70-90 | the fixed points of normalisation are exactly the normal forms: no removed keyword but as a property name, every object schema requiring its property names in order and closed to others |
| SchemaNormal.NormalIsNormal | src/edgecase_forge/llm/response_schema.py:70-90 | every result is such a normal form |
| SchemaNormal.Idempotent | src/edgecase_forge/llm/response_schema.py:70-90 | normalising twice is normalising once |
| SchemaNormal.PropertiesKept | src/edgecase_forge/llm/response_schema.py:80-81 | every property name is kept, in order, whatever it is, with its schema normalised |
| SchemaNormal.FieldsGet | src/edgecase_forge/llm/response_schema.py:77-83 | a keyword survives, normalised, exactly when it is not removed |
| SchemaNormal.NormalOkIff | src/edgecase_forge/llm/response_schema.py:84-87 | normalisation fails exactly when a kept object schema has properties that are not an object |
| SchemaNormal.RemovedAre | src/edgecase_forge/llm/response_schema.py:8-23 | the removed keywords, one by one |
| SchemaNormal.FieldsOrder | src/edgecase_forge/llm/response_schema.py:76-83 | the keywords that stay keep their order |
| SchemaNormal.NormalElements | src/edgecase_forge/llm/response_schema.py:71-72 | lists are normalised element by element |
| Json.NamesAre | src/edgecase_forge/llm/response_schema.py:88 | the required list holds the property names, each in its place |
| Json.KeysAre | src/edgecase_forge/llm/response_schema.py:88 | a dictionary's keys are those with a value, each once |
| Json.KeysPut | src/edgecase_forge/llm/response_schema.py:59-61 | assigning keeps the order of the keys and adds a new one at the end |
| SchemaFlat.Normalize | src/edgecase_forge/llm/response_schema.py:70-90 | the loops over fresh dictionaries compute that normalisation |
| SchemaFlat.FlatStrictSchema | src/edgecase_forge/llm/response_schema.py:26-34 | with the definitions under `$defs`, or none without that key, and an error if they are not an object, the pipeline succeeds exactly on expandable, well-shaped schemas and yields the normal form of the expansion |
| SchemaFlat.NestedInstance | src/edgecase_forge/llm/response_schema.py:26-90 | a nested model in full: reference, overriding sibling, removed and kept titles, required lists |
| Provider.Provider.Request | src/edgecase_forge/llm/openai_compatible.py:153-279 | sends POSTs until the first reply that is not retried, sleeps the prescribed delays, ends as that reply says; the branch for no response is unreachable |
| Provider.Provider.GenerateJson | src/edgecase_forge/llm/openai_compatible.py:83-139 | one request, and one repair after flawed output, sent with the first 12000 characters of that output and a note whether it was cut off; the exchange the lemmas below characterise |
| ProviderMeaning.ResultMeans | src/edgecase_forge/llm/openai_compatible.py:90-93 | a call returns only the output of its last reply, accepted by the check and not cut off |
| ProviderMeaning.RepairIff | src/edgecase_forge/llm/openai_compatible.py:91-122 | there is a second request if and only if the first one yields output that is cut off or not accepted |
| ProviderMeaning.FailureMeans | src/edgecase_forge/llm/openai_compatible.py:122-138 | the error kind of a failed call for each cause, and exactly the outputs it keeps |
| ProviderMeaning.TracesMean | src/edgecase_forge/llm/openai_compatible.py:366-384 | request ids and finish reasons of a result: those of the answers that carried its output, the flawed one first |
| ProviderMeaning.RequestMeans | src/edgecase_forge/llm/openai_compatible.py:168-279 | which replies are tried again, which carry output, and which error the others end in, by status code |
| ProviderMeaning.DelayMeans | src/edgecase_forge/llm/openai_compatible.py:182-226 | the wait after each reply: a server's wish of at most a minute, else the backoff, capped at a minute after an answer |
| ProviderMeaning.BackoffDoubles | src/edgecase_forge/llm/openai_compatible.py:182-224 | the backoff starts at the base and doubles with each attempt |
| Provider.ExactAccounting | src/edgecase_forge/llm/openai_compatible.py:366-396 | on every exit transport attempts are the POSTs sent, at most R+1 per request, semantic attempts the requests made, at most 2, and tokens those of the outputs received |
| Provider.ExchangeUnique | src/edgecase_forge/llm/openai_compatible.py:83-279 | the replies decide the number of POSTs and requests, the sleep and the outcome |
| Provider.StaleIdentifier | src/edgecase_forge/llm/openai_compatible.py:387-396 | a failed request reports the id of its last answered attempt, or none; it is an earlier attempt's if and only if the last reply is a timeout or a broken connection and the latest earlier answer has a non-empty id |
| Provider.TotalSleep | src/edgecase_forge/llm/openai_compatible.py:168-242 | a call sleeps at most 2(60·R + b·(2^R − 1)) seconds for R retries and backoff b ≥ 0 |
| Framing.TreeStream | src/edgecase_forge/benchmark/artifacts.py:77-92 | the loop feeds exactly the frames of the files not left out, and fails exactly when a length does not fit in eight bytes |
| Framing.ValueOfBigEndian | src/edgecase_forge/benchmark/artifacts.py:87-90 | a length that fits is read back from its big-endian bytes |
| Framing.BigEndianDigits | src/edgecase_forge/benchmark/artifacts.py:87-90 | those bytes are the digits to base 256, most significant first |
| Framing.OneFile | src/edgecase_forge/benchmark/artifacts.py:86-91 | the stream of one file: length of the path, path, length of the content, content |
| Framing.ShortMeans | src/edgecase_forge/benchmark/artifacts.py:87-90 | a length fits exactly when it is below 2^64 |
| Framing.ParseFrames | src/edgecase_forge/benchmark/artifacts.py:77-92 | parsing the stream recovers the ordered list of paths and contents |
| Framing.EqualStreamsEqualTrees | src/edgecase_forge/benchmark/artifacts.py:77-92 | two trees whose streams are equal hold the same files, apart from those left out |

## Left out

- FlashCart wiring: bearer header parsing, HMAC, request validation, response bodies, `get_product` and `get_order` (unsynchronised reads that change nothing); a reply is a status code and the order it is about.
- `reset_state`: not part of concurrent runs, since it clears the lock table; the evaluator's snapshot takes the same locks in the same order and is part of the deadlock proof.
- Webhooks in one event loop: the model lets them interleave with each other, which is more than the server does.
- `uuid4().hex[:10]`: ids are drawn fresh; a collision of the ten digits is not modelled.
- FlashStore.Store.CreateOrder: the mutable store is sequential; locks, blocking and interleaving are in the step machine, and `FlashAtomic` connects the two.
- FlashCoherence.StatusCoherence: holds for runs in which no webhook applies an event to an order a creation has in hand; without that assumption `FlashExact` states the exact condition.
- FlashReplay.Replay: for handlers that do not interleave; it does not speak of replays of an order that is still pending, apart from `RetryAfterTimeout`.
- Evidence rows: fields that decide no score (token counts, latencies, titles, claims, adjudication texts) are not in `LedgerRow` and `Row`, and counts kept per row are those the summary reads for scores and blockers.
- Differential.BuildDifferential: rows are a map by node id and candidates a set; the order by sorted id is not modelled.
- CaseRun.RunCase: `invalidate_differential` overwrites its argument in place; here the invalidated evidence is a new value.
- CaseRun.IntegrityErrors: the errors are a set; their sorted order is not modelled.
- Ledger.ReadProgress: type checks of single fields, path-escape checks and the digests of log files are one flag for an intact run directory; splitting bytes into lines is not modelled, so neither is a line separator inside a JSON string.
- Adjudication.JoinDecisions: cases are in ledger order, the source sorts them by repetition and case id; stripping of reasons and the sorted lists in error messages are not modelled.
- Adjudication.BuildAdjudicated: figures copied unchanged from the raw summary (control claims, error counts, provider and model names) are not modelled.
- Summary.WriteSummary: control, token and runtime figures of the summary are plain sums and not modelled.
- Suite: the configuration file, its comparison on resume, the event log and request delays; a scanner that raises ends the session like a crash before the append.
- Case selection, freezing and preflight, subprocesses, containers, JUnit parsing and the classification of assertion texts: the model starts from node lists and exit codes.
- Floating point: scores are exact reals.
- Mapper.ReachableFunctions: which names a function calls, and their sorted order, are inputs; `ast` traversal, fact extraction and risk signals are not modelled.
- SchemaRefs.Resolve: `active` is a set of names, the source's tuple is only searched; a definition that is not an object is an error here and an attribute error there.
- Provider.Provider.Request: clock, latency, headers and JSON decoding are inputs; message content that is not text, and a response model whose schema cannot be flattened, are not modelled.
- Provider.TotalSleep: the constructor does not refuse a negative backoff; the bound is for backoff b ≥ 0.
- Framing.TreeStream: the order of the file list is an input; the source sorts paths.
