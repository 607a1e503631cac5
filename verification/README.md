# Verified model of a payment middleware

mipit-core takes payments on one rail (PIX, SPEI, Bre-B, SWIFT, ACH, FedNow), turns them into a
canonical pacs.008 record, routes them and sends them out on another rail. This project models
the parts of it whose correctness is not visible from a single function, and proves what they
promise.

* **SWIFT MT103** (`FinScan`, `Mt103`, `Mt103Party`, `Mt103RoundTrip`, `Mt103Safe`, `Mt103Exact`,
  `Mt103Foreign`, `SwiftTranslation`, `SwiftParties`, `SwiftReturn`, `SwiftObjects`): what the independently written parser makes of every message whose printed fields
  contain no stray tag, blank, untrimmed and many-line texts included; and that it is what was printed
  exactly when the message fits the field widths, is trimmed, has a date from 1970 to 2069, a currency
  in capitals, whole cents and no gap in its party lines. The translation canonical to text to canonical
  is proved over the printed text, and without it over the object in between, field by field: which names,
  addresses, accounts, countries and banks of a payment come back. Messages from elsewhere are read with the
  fields and the defaults that the printer never needs.
* **Payment life cycle** (`PaymentTable`, `Lifecycle`, `LifecycleClaims`, `LifecycleTimes`, `PipelineActors`,
  `CompensationSaga`): pipelines,
  ACKs, dead letters and compensations as a step machine over one table, one SQL statement or publish a
  step, every step free to fail before or after its effect. The invariants hold over all interleavings;
  the classes are proved to take the machine's steps, failures included.
* **Idempotency keys** (`Idempotency`): at most one execution for a key over every interleaving, expiry
  included, at most one published message, and what each reply may name.
* **Resilience** (`CircuitBreaker`, `RateLimiter`, `HttpLimiter`): runs of overlapping calls, throughput
  bounds over every interval, laziness and sweeping that cannot be observed, exact retry hints.
* **ACH files** (`AchNacha`, `AchRecords`, `AchTranslation`, `AchPayments`): fixed columns that can be read
  back, blocks of ten, the declared block count; what the lines of a payment's file say of the payment, and
  what of it comes back.
* **Other translators** (`FedNow`, `BreB`, `DottedPath`): both round trips field by field, over identifiers
  packed into one string and unpacked again, the amount that is settled, and the mapping table's writes into
  a nested object.
* **Routing, reconciliation, exchange, CLABE** (`RoutingRules`, `RoutingConditions`, `Reconciliation`, `Fx`,
  `Clabe`): the cached and sorted rules, what each condition asks of a payment, one-pass statistics, cross
  rates, check digits.

`Text`, `Numerals`, `Rounding`, `Collections`, `Timeline`, `Wrappers` and `Canonical` hold what the others
share. Time is a
parameter of every operation that reads a clock. Amounts are exact: reals for money, whole
thousandths for bucket tokens.

## Where the code does not do what it says

Each of these is proved as a lemma, with the exact condition under which the code does meet the promise.

* COMPLETED is not final: the publish precedes the QUEUED write, and an ACK may land between them
  (`LifecycleClaims.CompletedCanBeOverwritten`). It is final over all runs without a dead letter or another
  ACK for the payment if and only if the pipeline has ended and no compensation holds the payment
  (`LifecycleClaims.FinalExactly`).
* A compensation that fails is said to stay COMPENSATING for review. It is COMPENSATED already when only
  its last audit entry fails, and when the first write fails nothing is marked
  (`CompensationSaga.StuckExactly`); either way later batches pass over exactly the marked payments
  (`CompensationSaga.BatchLeaves`).
* A request that loses the race for an idempotency key with another payload is answered 200 with the
  winner's payment instead of 409 (`Idempotency.LoserIsNotCompared`, `Idempotency.ConflictExactly`), and
  an expired key can never be used again (`Idempotency.ExpiredKeyIsDead`).
* HALF_OPEN admits any number of overlapping probes (`CircuitBreaker.OverlappingProbes`): an episode has
  a single one if and only if no call begins before it ends (`CircuitBreaker.SingleProbeExactly`). The first
  result ends it, whosever it is, so a call from before the opening can close the circuit under the
  probe if and only if one was in flight then (`CircuitBreaker.FirstResultDecides`,
  `CircuitBreaker.ProbeIsOvertaken`). With the default options the failure-rate rule can never open the
  circuit (`CircuitBreaker.RateRuleExactly`).
* The HTTP limiter is called a sliding window but is a fixed one: up to `2 * maxRequests - 1` requests
  pass within one window length (`HttpLimiter.BoundIsReached`), so that the promise is kept if and only if
  maxRequests is 1 (`HttpLimiter.SlidingExactly`), and a client that waits exactly the hinted seconds may
  still be refused (`HttpLimiter.RetryHint`).
* The type 1 and type 8 records of an ACH file are built too wide and cut; the batch number of the type
  8 record is not in its columns (`AchRecords.BatchControlIsShifted`), and the declared block count is one
  too many when the records fill their last block (`AchRecords.DeclaredBlocksExact`).
* A rail's answer that fails a payment leaves `failed_at` as it was: only `acked_at` is written
  (`LifecycleClaims.StampsTellTheTruth`, `LifecycleClaims.AnswerDecidesStatus`).
* The way back from ACH replaces the last digit of the originating routing number by a zero, since eight digits
  are printed (`AchPayments.RoundTrip`).
* Of a field 50A that starts with an account, as the SWIFT standard has it, the bank code below is lost, and of
  a field 59A without a slash the first line (`Mt103Foreign.OrderingFrom50A`, `Mt103Foreign.BeneficiaryFrom59A`).
* Routing takes any 18 digits for a CLABE and any IBAN form of eight characters or more for an IBAN, while the check
  digit and the translation to MT103 ask for more; bare NITs are Bre-B keys for routing and aliases for the
  Bre-B translation (`RoutingConditions.FormsElsewhere`).
* Not everything in an MT103 comes back: the debtor's bank is not printed, and field 72 is printed and
  never read (`Mt103RoundTrip.RoundTrip`, `SwiftReturn.SwiftRoundTrip`). A party without a name comes
  back with its first address line as the name (`Mt103Party.PartyExact`, `SwiftParties.PartyReturns`,
  `SwiftReturn.CountryReturns`), and a currency that is not in capitals makes the parser fall back to its
  defaults, so that the way back fails (`SwiftReturn.SwiftRoundTrip`).

## Model

| member | source | states |
|---|---|---|
| Mt103.SerializeMt103 | src/translation/canonical-to-swift-mt103.ts:68-125 | the step-by-step printer yields the text block whose fields, in order, are those of `Printed`; absent fields drop out |
| Mt103.Serialize50K | src/translation/canonical-to-swift-mt103.ts:74-82 | the appended and trimmed field 50K is its account, name and address lines |
| Mt103.Serialize59 | src/translation/canonical-to-swift-mt103.ts:89-102 | field 59A for an IBAN, else field 59 with at most two address lines |
| Mt103.SplitRemittance | src/translation/canonical-to-swift-mt103.ts:141-147 | the loop yields lines of 35 of the first 140 characters |
| Mt103.ParseMt103 | src/translation/swift-mt103-to-canonical.ts:94-181 | the branching parser builds the record of `Parsed`, defaults included |
| Mt103.ParseOrdering | src/translation/swift-mt103-to-canonical.ts:129-140 | 50A wins over 50K; 50K is read by line position |
| Mt103.ParseBeneficiary | src/translation/swift-mt103-to-canonical.ts:149-160 | 59A wins over 59; 59 is read by line position |
| FinScan.GetFieldOfRender | src/translation/swift-mt103-to-canonical.ts:99-103 | the tag scan over a printed block finds each field's own content and no other, whatever the other fields hold |
| Mt103RoundTrip.RoundTrip | src/translation/swift-mt103-to-canonical.ts:94-181 | for every printable message, parsing its printed text gives the stated record field by field; printable asks of the texts only that no printed field contains a tag or `-}` |
| Mt103RoundTrip.DefaultCharges | src/translation/canonical-to-swift-mt103.ts:109 | charges that are not given are printed as shared |
| Mt103Exact.RoundTripExact | src/translation/canonical-to-swift-mt103.ts:68-147 | parse after print returns all the parser looks for, which excludes field 72 and the ordering institution, if and only if the message fits (widths, trimmed, years 1970 to 2069, currency in capitals, whole cents, party lines without gaps) |
| Mt103Party.PartyExact | src/translation/swift-mt103-to-canonical.ts:136-140 | any party read by line position is the printed one if and only if every text is a line of its own and none is missing before a present one |
| Mt103Party.BeneficiaryExact | src/translation/swift-mt103-to-canonical.ts:148-160 | the same for any beneficiary, with or without IBAN |
| Mt103Exact.DateExact | src/translation/swift-mt103-to-canonical.ts:124-126 | the two-digit year comes back exactly for 1970 to 2069 |
| Numerals.AmountExact | src/translation/canonical-to-swift-mt103.ts:70 | two decimals carry an amount exactly when it is in whole cents |
| Mt103Exact.RemittanceLines | src/translation/canonical-to-swift-mt103.ts:141-147 | field 70 of any text comes back in lines of at most 35, at most four without line breaks in the text, that concatenate to its first 140 characters if and only if these are trimmed and without line breaks |
| Mt103Exact.RemittanceContent | src/translation/canonical-to-swift-mt103.ts:105-107 | field 70 keeps, line breaks aside, the first 140 characters trimmed, and so the whole text exactly when these are all there is and trimmed |
| Mt103Safe.ReferenceExact | src/translation/swift-mt103-to-canonical.ts:99-103 | a reference survives in front of any fields exactly when it is trimmed and neither a tag nor `-}` occurs in it |
| Mt103Safe.SafeTextsPrint | src/translation/canonical-to-swift-mt103.ts:68-125 | texts free of tags and `-}` one by one make a printable message, however they are cut into lines |
| Mt103Safe.CountryLineIsSafe | src/translation/canonical-to-swift-mt103.ts:32-34 | the made-up country line, colon included, cannot be mistaken for a tag |
| SwiftTranslation.RemittanceNeverCut | src/translation/canonical-to-swift-mt103.ts:127-138 | the text is reference part and subject of at most 127 characters, so that the cut to 140 takes nothing away; a remittance text follows the reference part in full exactly up to 105 characters |
| SwiftTranslation.TranslatedIsPrintable | src/translation/canonical-to-swift-mt103.ts:9-62 | every schema-valid payment is printable as soon as its own free texts are: reference, codes and field 72 always are |
| SwiftTranslation.SafeTextsAreSendable | src/translation/canonical-to-swift-mt103.ts:29-55 | for that it is enough that its texts are free of tags one by one, wherever the translation cuts them |
| SwiftReturn.SwiftRoundTrip | src/translation/swift-mt103-to-canonical.ts:186-267 | canonical to text to canonical succeeds, for account ids without line breaks, exactly from one cent up with a currency in capitals; currency, IBAN and remittance text come back, the creditor's bank exactly when trimmed, the amount exactly in whole cents, accounts as they are read; behind a one-line account or an IBAN each party's name exactly when it is a trimmed line of at most 35 characters, or missing with no address line to be taken for it, and each address exactly when its lines fit, three for the debtor and two for the creditor |
| SwiftReturn.AccountReads | src/translation/swift-mt103-to-canonical.ts:136-140 | a printed account comes back up to its first line break and trimmed at the end, hence unchanged exactly without either |
| SwiftReturn.CountryReturns | src/translation/swift-mt103-to-canonical.ts:270-276 | without an address a party's country comes back exactly when it is in capitals and two lines precede it: for one-line texts, an account that is not only a rail prefix, and a name; a creditor with an IBAN loses it |
| SwiftParties.PartyReturns | src/translation/swift-mt103-to-canonical.ts:136-160 | behind an account of one line, which names and which addresses of a canonical party come back, exactly |
| SwiftObjects.ObjectRoundTrip | src/translation/swift-mt103-to-canonical.ts:186-267 | canonical to MT103 object to canonical always succeeds; names exactly up to 35 characters, addresses up to three lines, accounts without rail prefix, currencies without small letters, the end-to-end id up to 16 plain characters, both banks, the amount always |
| SwiftObjects.SentCodes | src/translation/canonical-to-swift-mt103.ts:23-58 | the text of a payment is a credit with shared charges of the payment's day, exactly for 1970 to 2069, and its field 72 names the payment |
| SwiftObjects.CountryAtEnd | src/translation/swift-mt103-to-canonical.ts:270-276 | an address line gives its last two characters as country exactly if they are capitals that no word runs into |
| SwiftObjects.ReferenceAt | src/translation/canonical-to-swift-mt103.ts:23 | every character of a reference but letters, digits, slashes and hyphens becomes an X |
| Mt103Foreign.PlainFields | src/translation/swift-mt103-to-canonical.ts:110-126 | of any fields in any order each is read by its tag, and what stands in for missing ones: a fresh reference, a credit, nothing of today's date in dollars |
| Mt103Foreign.OrderingFrom50A | src/translation/swift-mt103-to-canonical.ts:130-135 | 50A decides over 50K: a bank code and an account below it, or an account behind a slash alone |
| Mt103Foreign.BeneficiaryFrom59A | src/translation/swift-mt103-to-canonical.ts:150-155 | 59A decides over 59: an IBAN behind a slash and the name below it |
| Mt103Foreign.OrderingFrom50K | src/translation/swift-mt103-to-canonical.ts:129-140 | without 50A the customer is read off the lines of 50K by their position |
| Mt103Foreign.BareFields | src/translation/swift-mt103-to-canonical.ts:95-103 | fields without a text block around them are read like those of a block |
| Mt103Foreign.SmallTag | src/translation/swift-mt103-to-canonical.ts:99-103 | a tag is found whether its letter is a capital or a small one |
| PaymentTable.PaymentRepository.Create | src/persistence/queries/index.ts:4-10 | one new RECEIVED row, placed last among equals in creation order; a taken id is refused |
| PaymentTable.PaymentRepository.UpdateStatus | src/persistence/queries/index.ts:14-26 | status and its time stamp in one row, an error if there is none |
| PaymentTable.PaymentRepository.UpdateCanonical | src/persistence/queries/index.ts:28-32 | canonical payload, status and time stamp in one row |
| PaymentTable.PaymentRepository.UpdateRoute | src/persistence/repositories/payment.repository.ts:132-150 | destination, rule, status and time stamp in one row; blank rails and rule names are refused |
| PaymentTable.PaymentRepository.UpdateTranslated | src/persistence/queries/index.ts:40-44 | the translated payload in one row |
| PaymentTable.PaymentRepository.UpdateRailAck | src/persistence/queries/index.ts:46-52 | ACK, status and time stamps in one row |
| PaymentTable.PaymentRepository.FindByStatuses | src/persistence/repositories/payment.repository.ts:239-246 | the oldest payments with a wanted status, at most the limit |
| PaymentTable.PlaceKeepsOrder | src/persistence/repositories/payment.repository.ts:239-246 | inserting keeps the listing in creation order |
| PaymentTable.PlacedLastOfEquals | src/persistence/repositories/payment.repository.ts:239-246 | a new payment stands behind all that were not created later and before all that were |
| Lifecycle.NextKeepsInv | src/persistence/queries/index.ts:14-52 | every single step of every actor keeps the life-cycle invariant |
| LifecycleClaims.StatusIsBacked | src/messaging/consumer.ts:58-113 | in every reachable state each status is backed by its ACK, payload and time-stamp columns, and four statuses never occur |
| LifecycleClaims.PublishedOnceAndStored | src/pipeline/payment-pipeline.ts:119-136 | each payment is published at most once, and its row keeps what was published for ever |
| LifecycleClaims.StoredBeforePublished | src/pipeline/payment-pipeline.ts:119-135 | destination and translation are in the row before the step that publishes them |
| LifecycleClaims.HistoryIsKept | src/persistence/queries/index.ts:14-52 | no row disappears and none of its time stamps, routing and sending ones included, is ever cleared, over any stretch of any run |
| LifecycleClaims.AnswerDecidesStatus | src/messaging/consumer.ts:58-68 | a rail's answer makes a stored payment COMPLETED if and only if it is ACCEPTED, REJECTED if and only if REJECTED, else FAILED, and changes nothing but the ACK columns and the completion time |
| LifecycleClaims.StampsTellTheTruth | src/persistence/queries/index.ts:14-52 | through any step a stamp is written only with its status and the present time, and a status is entered with its stamp, but for COMPENSATING and for failure by a rail's answer |
| LifecycleClaims.RowsStartReceived | src/persistence/queries/index.ts:4-10 | a row comes into being through its own pipeline only, RECEIVED now and with nothing else in it |
| LifecycleTimes.StampsAreOrdered | src/pipeline/payment-pipeline.ts:39-136 | in every reachable state every stamp lies between creation and the present, and validated, canonicalized, routed and queued are stamped in that order with none left out |
| LifecycleClaims.SettledStep | src/messaging/dlq-handler.ts:57-85 | a settled COMPLETED payment stays so through a step if and only if it is no dead letter and no other ACK |
| LifecycleClaims.FinalExactly | src/pipeline/payment-pipeline.ts:127-196 | from any reachable state COMPLETED is final over all runs without such a message if and only if the payment is settled |
| LifecycleClaims.CompletedCanBeOverwritten | src/pipeline/payment-pipeline.ts:127-136 | for any payment there is a run in which an ACK's COMPLETED is overwritten by QUEUED |
| PipelineActors.PaymentPipeline.Execute | src/pipeline/payment-pipeline.ts:39-196 | with nothing interfering, table, channel and outcome are those of the step machine, failures and catch block included; it goes through exactly for a new payment none of whose steps fails, routed to PIX, SPEI or BRE_B by a named rule, with a translation, and then row and message are the ones its collaborators' answers make |
| PipelineActors.UndisturbedExecution | src/pipeline/payment-pipeline.ts:39-136 | the same of the step machine alone |
| PipelineActors.ExecuteOutcome | src/pipeline/payment-pipeline.ts:39-196 | an execution ends QUEUED and stored, or FAILED, or where it stood if the catch block fails too; at most one message, no other row touched |
| PipelineActors.FinishKeepsInv | src/pipeline/payment-pipeline.ts:39-196 | a whole execution keeps the life-cycle invariant |
| PipelineActors.HandleAck | src/messaging/consumer.ts:38-113 | a valid ACK for a stored payment updates exactly its row unless the update fails, to COMPLETED if and only if ACCEPTED, REJECTED if and only if REJECTED and FAILED otherwise, and is acknowledged exactly when nothing fails after that and it names its rail; every other message is dropped |
| PipelineActors.HandleDeadLetter | src/messaging/dlq-handler.ts:43-85 | a dead letter marks exactly its row unless the update fails, and is requeued unless everything succeeds; an unreadable one is discarded |
| PipelineActors.RetryChain | src/messaging/dlq-handler.ts:94-146 | a message is dead-lettered exactly when it fails at every count up to the limit, and is otherwise handled at the first count at which it does not fail |
| PipelineActors.NewMessage | src/messaging/dlq-handler.ts:94-146 | a new message is dead-lettered exactly when its first four deliveries fail |
| CompensationSaga.CompensationService.Compensate | src/compensation/compensation-service.ts:37-115 | outcome and row for every way its reads, writes and audit entries can fail; no other row changes |
| CompensationSaga.AloneIs | src/compensation/compensation-service.ts:37-115 | that is what the machine's three steps do, and success is theirs |
| CompensationSaga.StuckExactly | src/compensation/compensation-service.ts:50-114 | a failed compensation leaves the payment compensable exactly when its first write did not take place; when it ends COMPENSATING, when COMPENSATED though reported as failed |
| CompensationSaga.CompensationExactly | src/compensation/compensation-service.ts:37-115 | only FAILED and dead-lettered payments are compensated, outcome by outcome, and only status and compensation stamp of the row change |
| CompensationSaga.CompensationService.CompensateBatch | src/compensation/compensation-service.ts:121-144 | table and counts are those of the tally over the oldest payments; an exception ends the batch |
| CompensationSaga.TalliedRows | src/compensation/compensation-service.ts:133-140 | every payment up to the first exception gets the row its own failures leave, and no other row changes |
| CompensationSaga.TalliedCounts | src/compensation/compensation-service.ts:130-144 | succeeded counts exactly the calls without failure, succeeded and failed together all calls that return |
| CompensationSaga.BatchLeaves | src/compensation/compensation-service.ts:121-144 | whatever fails, the backlog loses exactly the attempted payments that were marked |
| CompensationSaga.GoodTally | src/compensation/compensation-service.ts:121-144 | a batch in which nothing fails compensates all its payments; the rows below are about such batches |
| CompensationSaga.CompensateAllEffect | src/compensation/compensation-service.ts:133-140 | compensating a list changes exactly the rows it names, each once |
| CompensationSaga.BatchTakesOldest | src/compensation/compensation-service.ts:121-144 | a batch takes the oldest payments off the backlog and touches no other row |
| CompensationSaga.RoundsTakeOldest | src/compensation/compensation-service.ts:121-144 | after k batches exactly the oldest k * limit of the backlog are compensated |
| CompensationSaga.DrainedExactly | src/compensation/compensation-service.ts:121-144 | a backlog of n is empty after k batches if and only if k is at least ceil(n / limit) |
| CompensationSaga.CompensatedOnce | src/compensation/compensation-service.ts:45-47 | once the backlog is drained each payment that was in it is COMPENSATED and not compensable again |
| Idempotency.NextKeepsInv | src/api/routes/payments.ts:26-77 | every step of every concurrent request keeps the key table's invariant |
| Idempotency.AtMostOneExecution | src/api/routes/payments.ts:47-69 | every key leads to at most one pipeline execution, over every interleaving and after expiry |
| Idempotency.ExecutionsDiffer | src/api/routes/payments.ts:47-69 | no two executions are for one payment |
| Idempotency.OneMessagePerKey | src/api/routes/payments.ts:47-69 | each key leads to at most one published message and no message is that of two keys, over every run of the requests and every run of the life cycle |
| Idempotency.RepliesNameTheExecution | src/api/routes/payments.ts:41-61 | a reply that names a payment names that of the key's execution |
| Idempotency.RepliesAgree | src/api/routes/payments.ts:41-61 | two replies for one key never name different payments |
| Idempotency.ConflictExactly | src/api/routes/payments.ts:34-40 | 409 exactly when the lookup saw a live row with another hash, and then never an execution; another payload escapes exactly by finding no live row |
| Idempotency.LookupAnswers | src/persistence/queries/index.ts:63-64 | the lookup step refuses, replays what the row holds or goes on to claim, each if and only if the row says so |
| Idempotency.LoserIsNotCompared | src/api/routes/payments.ts:56-62 | a run in which the loser of a race with another payload is told the winner's payment |
| Idempotency.ExpiredKeyIsDead | src/persistence/queries/index.ts:66-70 | after expiry a request misses the row, cannot claim the key and is told nothing |
| Idempotency.IdempotencyRepository.TryInsert | src/persistence/repositories/idempotency.repository.ts:41-53 | claims if and only if the key has no row, expired or not |
| Idempotency.PostPayment | src/api/routes/payments.ts:26-77 | the handler alone answers, executes and leaves the table as the machine's steps of one request do; it executes exactly for a key without row |
| Idempotency.RetryAfterSuccess | src/api/routes/payments.ts:32-77 | a retry replays, is refused or is told nothing, never executes and leaves the table alone |
| CircuitBreaker.CircuitBreaker.Begin | src/resilience/circuit-breaker.ts:76-84 | refuses exactly while OPEN before the cooldown's end, naming that end |
| CircuitBreaker.CircuitBreaker.OnSuccess | src/resilience/circuit-breaker.ts:96-103 | counts, and closes a half-open circuit with an empty record |
| CircuitBreaker.CircuitBreaker.OnFailure | src/resilience/circuit-breaker.ts:105-126 | records, prunes and opens by the two rules |
| CircuitBreaker.ClosedBelowThreshold | src/resilience/circuit-breaker.ts:119-132 | over all interleavings a closed circuit stores fewer failures than the threshold, if and only if the threshold is positive |
| CircuitBreaker.NoCallDuringCooldown | src/resilience/circuit-breaker.ts:77-84 | no call admitted after an opening begins before that opening's cooldown is over |
| CircuitBreaker.LeavesOpen | src/resilience/circuit-breaker.ts:144-146 | OPEN is left exactly by a begin at or after the cooldown, for HALF_OPEN |
| CircuitBreaker.TransitionsExactly | src/resilience/circuit-breaker.ts:76-162 | what every step of any run does to state, opening time, success count and last failure, with both opening rules written out |
| CircuitBreaker.WindowAfterFailure | src/resilience/circuit-breaker.ts:164-167 | after each failure the incrementally pruned list is the whole log since the last close, filtered by the window |
| CircuitBreaker.WindowIsExact | src/resilience/circuit-breaker.ts:164-167 | the same in every reachable state, for the latest cutoff |
| CircuitBreaker.PruneKeepsExactly | src/resilience/circuit-breaker.ts:164-167 | pruning keeps exactly the failures after the cutoff, each as often as recorded |
| CircuitBreaker.RateRuleExactly | src/resilience/circuit-breaker.ts:134-141 | some run opens the circuit by the rate rule if and only if the options allow it; the defaults do not |
| CircuitBreaker.CountDecidesAlone | src/resilience/circuit-breaker.ts:128-142 | otherwise a failure opens a closed circuit exactly when the windowed log reaches the threshold |
| CircuitBreaker.OverlappingProbes | src/resilience/circuit-breaker.ts:76-94 | after the cooldown any number of overlapping calls are admitted |
| CircuitBreaker.SingleProbeExactly | src/resilience/circuit-breaker.ts:76-94 | a HALF_OPEN episode admits its first call and every other that begins in it: one in all if and only if no other begins |
| CircuitBreaker.FirstResultDecides | src/resilience/circuit-breaker.ts:87-114 | the first result in HALF_OPEN ends it, and other calls are then in flight exactly when some were before the probe |
| CircuitBreaker.ProbeIsOvertaken | src/resilience/circuit-breaker.ts:87-103 | runs in which calls from before the opening close the circuit under the probe, for every positive threshold and window |
| CircuitBreaker.NeverHalfOpenBetweenCalls | src/resilience/circuit-breaker.ts:76-94 | used sequentially the breaker is never HALF_OPEN between calls |
| CircuitBreaker.FirstCallAfterCooldownIsTheProbe | src/resilience/circuit-breaker.ts:76-94 | used sequentially, earlier calls are refused without effect and the first call after the cooldown is the episode's only probe |
| RateLimiter.RateLimiter.constructor | src/resilience/rate-limiter.ts:40-50 | one full bucket for each configured rail |
| RateLimiter.RateLimiter.Acquire | src/resilience/rate-limiter.ts:56-72 | refills, then takes a token or refuses with the hint; no other bucket changes |
| RateLimiter.RateLimiter.CanAcquire | src/resilience/rate-limiter.ts:77-83 | refills and answers as an acquire would |
| RateLimiter.RateLimiter.GetStatus | src/resilience/rate-limiter.ts:88-102 | the walk refills every bucket and reports whole tokens and rounded utilization in order |
| RateLimiter.StatusIsBounded | src/resilience/rate-limiter.ts:93-98 | reported are the whole tokens and the missing percentage rounded to the nearest; both stay in their bounds, which full and empty buckets reach |
| RateLimiter.RunKeepsInv | src/resilience/rate-limiter.ts:104-115 | tokens stay between zero and the capacity in every run |
| RateLimiter.AnswersAsReference | src/resilience/rate-limiter.ts:104-115 | the lazy bucket accepts exactly what a bucket refilled every millisecond accepts, whatever comes in between |
| RateLimiter.QueriesAreUnobservable | src/resilience/rate-limiter.ts:77-102 | runs with the same acquires at the same times answer them alike |
| RateLimiter.ThroughputBound | src/resilience/rate-limiter.ts:56-72 | in any interval of any run a rail is granted at most maxTokens + (t2 - t1) * maxTokens / 1000 |
| RateLimiter.RetryHintIsExact | src/resilience/rate-limiter.ts:65-69 | without another grant meanwhile an acquire succeeds if and only if the hinted time has passed |
| HttpLimiter.Middleware.OnRequest | src/api/middleware/rate-limit.ts:36-70 | counts in the client's live window, answers by the count, with the headers' values |
| HttpLimiter.Middleware.Sweep | src/api/middleware/rate-limit.ts:27-34 | removes exactly the stale windows |
| HttpLimiter.AdmitsAsOneWindow | src/api/middleware/rate-limit.ts:36-61 | what is admitted depends on the client's own request times alone |
| HttpLimiter.SweepsAreUnobservable | src/api/middleware/rate-limit.ts:27-34 | runs that differ only in sweeps and other clients admit a client's requests alike |
| HttpLimiter.ThroughputBound | src/api/middleware/rate-limit.ts:46-61 | within one window length fewer than 2 * maxRequests requests of a client are admitted |
| HttpLimiter.BoundIsReached | src/api/middleware/rate-limit.ts:46-61 | 2 * maxRequests - 1 of them can be |
| HttpLimiter.SlidingExactly | src/api/middleware/rate-limit.ts:46-61 | no run admits more than maxRequests within a window length if and only if maxRequests is 1 |
| HttpLimiter.WindowAdmitsTheFirst | src/api/middleware/rate-limit.ts:52-61 | a window admits exactly the first maxRequests of its requests |
| HttpLimiter.RetryHint | src/api/middleware/rate-limit.ts:61-69 | waiting the hinted seconds is enough if and only if the rest of the window is no whole number of seconds |
| AchNacha.SerializeAchNacha | src/translation/canonical-to-ach-nacha.ts:96-146 | the file is the lines of `Lines`, joined |
| AchNacha.PadToBlock | src/translation/canonical-to-ach-nacha.ts:140-143 | the loop ends and adds exactly the missing fillers |
| AchRecords.LineWidth | src/translation/canonical-to-ach-nacha.ts:96-146 | every line of every fitting transaction has 94 characters |
| AchRecords.BlocksOfTen | src/translation/canonical-to-ach-nacha.ts:140-143 | the line count is a multiple of ten with at most nine fillers |
| AchRecords.DeclaredBlocksExact | src/translation/canonical-to-ach-nacha.ts:135-138 | the declared block count is the real one if and only if (addenda + 5) mod 10 is not 0 |
| AchRecords.BatchHeaderColumns | src/translation/canonical-to-ach-nacha.ts:106-109 | the type 5 line's columns give its fields back, padded texts exactly when they fit and are trimmed |
| AchRecords.EntryColumns | src/translation/canonical-to-ach-nacha.ts:112-116 | the type 6 line's columns give routing, account, amount, names and trace back |
| AchRecords.AddendumColumns | src/translation/canonical-to-ach-nacha.ts:119-125 | the type 7 line's columns give its text and sequence number back |
| AchRecords.FileControlColumns | src/translation/canonical-to-ach-nacha.ts:136-138 | the type 9 line's columns give block count, entry count, hash and amount back |
| AchRecords.FileHeaderColumns | src/translation/canonical-to-ach-nacha.ts:103 | the type 1 line's columns give institution, clock and names back; the last character is the one that is lost |
| AchRecords.BatchControlColumns | src/translation/canonical-to-ach-nacha.ts:130-132 | the type 8 line's columns give service class, entry count, hash, amount and institution back, and three digits of the batch number |
| AchRecords.FileHeaderIs94 | src/translation/canonical-to-ach-nacha.ts:103 | the type 1 record is built 95 wide and loses its last character |
| AchRecords.BatchControlIsShifted | src/translation/canonical-to-ach-nacha.ts:130-132 | the type 8 record's last columns hold the institution's end and three digits of the batch number |
| AchRecords.FileSplits | src/translation/canonical-to-ach-nacha.ts:145 | splitting the file at line ends gives the lines back |
| AchTranslation.TranslatedFits | src/translation/canonical-to-ach-nacha.ts:9-90 | every schema-conforming payment under 10^10 cents translates to a fitting transaction with at most one addendum; what its lines say is in the rows of `AchPayments` |
| AchTranslation.TranslatedFileIsExact | src/translation/canonical-to-ach-nacha.ts:134-145 | its file has ten lines of 94 characters and declares its one block |
| AchTranslation.AliasReturns | src/translation/canonical-to-ach-nacha.ts:149-155 | an alias comes back if and only if it is routing/account with a trimmed account of at most 17 characters without rail prefix |
| AchPayments.FileNamesDebtor | src/translation/canonical-to-ach-nacha.ts:36-47 | the type 5 line of a payment's file reads service class 220, the debtor's name exactly when trimmed and at most 16 characters, CCD exactly with a destination routing number, purpose, tax digits, date, institution and batch number |
| AchPayments.FileCreditsCreditor | src/translation/canonical-to-ach-nacha.ts:49-84 | its type 6 line reads code 22, the creditor's routing number, account, cents, tax id and name, each text exactly when it fits and is trimmed, and the trace; a type 7 line with the remittance text follows exactly if there is one |
| AchPayments.RoundTrip | src/translation/ach-nacha-to-canonical.ts:172-255 | canonical to ACH to canonical succeeds exactly from one cent up; alias and amount come back under exact conditions, the debtor's name exactly if there is one, the creditor's exactly if it is trimmed and has at most 22 characters, and every other field under its own |
| FedNow.RoutingReturns | src/translation/canonical-to-fednow.ts:161-174 | a nine-character routing number comes back even when it is not numeric |
| FedNow.RoundTrip | src/translation/fednow-to-canonical.ts:166-225 | FedNow to canonical to FedNow: both routing numbers come back, each account if and only if it fits (behind nine digits at most 34 characters without rail prefix, behind anything else the packed text repeated to 34 characters), amounts if and only if printed with two decimals, and names, countries, addresses, end-to-end id, purpose and remittance text each under its exact condition |
| FedNow.SettlesInDollars | src/translation/canonical-to-fednow.ts:30-33 | the settlement amount of every payment is rounded to cents from its amount in dollars whatever the exchange data, else from the local amount if there is one, else from the amount at its rate or at 1 |
| FedNow.CanonicalRoundTrip | src/translation/canonical-to-fednow.ts:11-156 | canonical to FedNow to canonical succeeds exactly when a cent or more settles; names, addresses and end-to-end id always come back, a packed alias exactly when it survives |
| BreB.PartyReturns | src/translation/canonical-to-breb.ts:29-75 | account, NIT and CC of a party come back, each under its exact condition |
| BreB.RoundTrip | src/translation/breb-to-canonical.ts:164-206 | Bre-B to canonical to Bre-B: entity codes always come back, accounts exactly for slash-free codes, keys exactly without BREB- prefix, amounts exactly with two decimals, and names, subject and time under exact conditions |
| BreB.KeyTypes | src/translation/breb-to-canonical.ts:126-131 | a key is a phone number, a NIT or an e-mail address exactly by its form, and no key has two of the forms |
| BreB.PurposeByKey | src/translation/breb-to-canonical.ts:167-201 | a payment to a NIT, given or recognised, is a supplier payment, any other one between persons |
| BreB.CanonicalRoundTrip | src/translation/canonical-to-breb.ts:18-89 | canonical to Bre-B to canonical succeeds exactly from one cent up; names, tax ids and entity codes come back if there are any, time and subject always, the account as what is packed behind the code |
| Canonical.Unpacks | src/translation/canonical-to-fednow.ts:168-171 | a slash-free head packed with any tail can be unpacked |
| DottedPath.GetAfterSet | src/translation/pix-to-canonical.ts:48-61 | what is written can be read, and so can everything below it |
| DottedPath.GetElsewhere | src/translation/pix-to-canonical.ts:36-61 | paths of which neither is a prefix of the other do not interfere |
| DottedPath.SetsCommute | src/translation/pix-to-canonical.ts:48-61 | writes to such paths commute, errors included |
| DottedPath.SetTwice | src/translation/pix-to-canonical.ts:48-61 | the later of two writes to a path wins |
| DottedPath.SetOfGet | src/translation/pix-to-canonical.ts:36-61 | writing back what is there changes nothing if and only if it is there |
| DottedPath.SetFails | src/translation/pix-to-canonical.ts:53-58 | a write throws if and only if a part of its path before the last exists and is no object |
| DottedPath.ApplyMappings | src/translation/pix-to-canonical.ts:200-217 | the loop is the fold of its single mappings; of its result, every target of a mapping that passes holds its transformed value unless a later one touches it, every untouched path its default, and it fails exactly if it stops at some mapping |
| DottedPath.AppliedTargetHolds | src/translation/spei-to-canonical.ts:135-153 | the target of a mapping whose source is there and valid holds the transformed value, unless a later mapping that passes touches it |
| DottedPath.MappingDecides | src/translation/pix-to-canonical.ts:202-214 | source missing, no validation, valid, invalid or throwing: what each leaves at a mapping's target over the whole run |
| DottedPath.RunFailsExactly | src/translation/pix-to-canonical.ts:202-214 | the run fails, and with which error, exactly if it reaches a mapping whose validation throws or whose target cannot be written |
| DottedPath.UntouchedKeepsDefault | src/translation/spei-to-canonical.ts:135-153 | a path that no passing mapping touches keeps its default |
| DottedPath.OrderIsIrrelevant | src/translation/pix-to-canonical.ts:200-217 | swapping neighbouring mappings with unrelated targets changes nothing |
| DottedPath.AliasIsFilled | src/translation/pix-to-canonical.ts:222-227 | the fallback fills an empty alias with the creditor's, without rail prefix, replaces nothing and writes nowhere else; it throws exactly when the alias is no object |
| RoutingRules.SortInPlace | src/routing/route-engine.ts:23 | the array is sorted in place to the stable order |
| RoutingRules.SortIsOrdered | src/routing/route-engine.ts:23 | sorting permutes the rules into priority order |
| RoutingRules.SortIsStable | src/routing/route-engine.ts:23 | rules of one priority keep their order |
| RoutingRules.BestIsLeast | src/routing/route-engine.ts:25-38 | the chosen rule matches, is of least priority and first among equals; none exactly when nothing matches |
| RoutingRules.FirstSortedMatchIsBest | src/routing/route-engine.ts:22-38 | the first match after sorting is the minimum over the rules as loaded |
| RoutingRules.RouteIsOfBest | src/routing/route-engine.ts:33-36 | the route is the destination and the name of a matching rule of least priority, the first of these |
| RoutingRules.RuleLoader.LoadActiveRules | src/routing/rule-loader.ts:17-27 | serves the cached array while fresh, else loads; whatever sorting was done, the cache sorts to the snapshot's order |
| RoutingRules.RouteEngine.Resolve | src/routing/route-engine.ts:17-46 | destination and name of the snapshot's best match, an error exactly when nothing matches, over the shared array it sorts |
| RoutingRules.ResolvesFreshSnapshot | src/routing/rule-loader.ts:17-32 | in any run a resolution uses rows loaded less than five minutes ago with no clearing in between |
| RoutingConditions.AliasTypesExactly | src/routing/route-engine.ts:82-99 | no account id has the forms of two types, so that the inferred type is the one whose form it has, whatever the order of the tests |
| RoutingConditions.FormsElsewhere | src/routing/route-engine.ts:82-99 | where other components judge these forms differently: IBANs outside 15 to 34 characters, 18 digits with a wrong check digit, bare NITs |
| RoutingConditions.AliasCondition | src/routing/route-engine.ts:52-55 | `alias.type` matches exactly by the form of the creditor's account id |
| RoutingConditions.RangesExactly | src/routing/route-engine.ts:60-66 | a range of two plain numbers is the closed interval between them, without a hyphen it matches nothing |
| RoutingConditions.AmountCondition | src/routing/route-engine.ts:60-66 | `amount.range` matches exactly the amounts in that interval |
| RoutingConditions.HoursCondition | src/routing/route-engine.ts:104-113 | `rail.operating_hours` matches exactly on the named rail's weekdays between its first and last minute, in its time zone, and always for other rails |
| RoutingConditions.OtherConditions | src/routing/route-engine.ts:56-74 | country, availability and currency conditions, and that a field of another name never matches |
| Reconciliation.RunReconciliation | src/reconciliation/reconciliation-service.ts:87-199 | the one pass computes summary, stuck list, breakdown and anomalies of all payments |
| Reconciliation.SummaryCounts | src/reconciliation/reconciliation-service.ts:104-138 | each counter is an independent count, stuck ones the list's length, and together they never exceed the total |
| Reconciliation.StuckIffOverdue | src/reconciliation/reconciliation-service.ts:120-137 | the stuck list holds exactly the payments queued or sent for longer than the threshold, with their columns and the minutes waited, rounded |
| Reconciliation.AnomalyIffStalled | src/reconciliation/reconciliation-service.ts:160-174 | the anomalies are exactly the CANONICALIZED and ROUTED payments older than the threshold, with status and age; none is reported stuck as well |
| Reconciliation.StatsCount | src/reconciliation/reconciliation-service.ts:141-158 | each rail's statistics are independent counts |
| Reconciliation.BreakdownConserves | src/reconciliation/reconciliation-service.ts:177-190 | over the rails, sent adds up to the total and the others to the summary's counters |
| Reconciliation.RatesAreBounded | src/reconciliation/reconciliation-service.ts:179-188 | success rates are percentages and average latencies lie within any bounds on the latencies |
| Reconciliation.BreakdownLines | src/reconciliation/reconciliation-service.ts:177-190 | each line has its rail's exact numbers, success rate and average latency rounded to the nearest, and each rail used has its line |
| Reconciliation.LatenciesAre | src/reconciliation/reconciliation-service.ts:147-153 | a rail's latencies are the times from creation to completion of its completed payments, one for each that has both |
| Fx.RatesCompose | src/fx/fx-service.ts:58-67 | cross rates compose for any three currencies |
| Fx.DollarRates | src/fx/fx-service.ts:61-66 | a rate is units for one dollar: the direction of every conversion, and that unknown currencies count as the dollar |
| Fx.ConvertsWithinHalfACent | src/fx/fx-service.ts:72-77 | each conversion is within half a cent of the exact product |
| Fx.ThereAndBack | src/fx/fx-service.ts:72-77 | there and back at rate r drifts by at most 0.005 / r + 0.005 |
| Fx.FxService.GetRates | src/fx/fx-service.ts:80-125 | fresh cache, fallback, merged response or stale cache, and what happens to the cache |
| Fx.MergedRates | src/fx/fx-service.ts:110-116 | the five currencies at their fetched or built-in rates |
| Clabe.IsValidClabe | src/api/schemas/payment-request.ts:4-9 | the loop accepts exactly the 18 digits whose sum, every third digit from the first on counted three times, from the second seven times, from the third once, is a multiple of ten |
| Clabe.SumByPlace | src/api/schemas/payment-request.ts:6-7 | which digits count three times, seven times and once |
| Clabe.UniqueCheckDigit | src/api/schemas/payment-request.ts:7-8 | every 17-digit prefix has exactly one check digit |
| Clabe.SingleErrorDetected | src/api/schemas/payment-request.ts:4-9 | changing any one digit makes a valid number invalid |
| Clabe.NeighbourSwapUndetected | src/api/schemas/payment-request.ts:4-9 | exchanging neighbours goes unnoticed exactly when they are equal or five apart |
| Clabe.DistantSwapNeverDetected | src/api/schemas/payment-request.ts:6 | exchanging digits three places apart, or a multiple of three, is never noticed |

## Left out

- IEEE rounding: amounts are exact reals and `toFixed(2)` rounds ties upwards; from 1e21 on JavaScript prints exponents, which the model excludes.
- `parseFloat` on signs and exponents: `Numerals.ParseFloat` reads digits with an optional point, which is all the printers produce.
- Random and fresh values (ULIDs, UETR, trace and transaction ids) and clocks are parameters; payment ids are generated, so that the repository's refusal of blank ones never applies.
- Time zones and ISO timestamps: times are numbers and `created_at` is split text; the schema's datetime check is not modelled.
- Clocks that run back: runs wait non-negative times between clock reads, as the limiters and the breaker assume.
- Requests without an Idempotency-Key: they go straight to the pipeline.
- The key table's `expires_at` default: the lifetime of a row is a parameter of the insert.
- SHA-256: the request hash is an opaque text of the payload.
- Audit, webhook, event-stream and log calls: an audit call that throws is a step that fails after the effect before it.
- RabbitMQ and Postgres internals: one statement or publish is one atomic step, and ACK and dead-letter messages may arrive at any time and any number of times.
- The order of rows with equal `created_at`: the model takes the order of insertion.
- RoutingConditions.InRange: exponents, signs and `Infinity` in the text of an amount range are not read as `parseFloat` reads them.
- Interleaving of two rule loads during one awaited query: `Resolve` loads and sorts without another call in between.
- RoutingRules.SortInPlace: the library's stable sort is modelled as an insertion sort; only its result matters.
- DottedPath.ApplyMappings: nested objects are values, so sharing between the request and the canonical record, arrays and names inherited from the object prototype are not captured.
- Transformations and validations of the mapping table: the loop is proved for all of them; the validation may throw.
- PIX's native branch, Bre-B's generic branch, `canonicalToPix`, `canonicalToSpei`, the MX translators and the translator switch: field copies.
- Reconciliation's window query: the payments of the window are a parameter.
- `toUpperCase` beyond ASCII letters.
- `doReconnect` and its backoff delays, health and metrics endpoints, authentication: easy members or wiring.
