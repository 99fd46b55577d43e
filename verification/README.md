# PayGate payment engine: a verified model

PayGate collects UPI payments by giving every payment a unique exact amount and recognising the
money later, from an amount and an instant reported by a phone. This project models the engine
behind that and proves what it relies on. Every write of the program runs inside one
`BEGIN IMMEDIATE` transaction (internal/v4/storage/db.go:74-102), so a transaction is one atomic
step, and concurrency is the interleaving of such steps.

Check everything with `dafny verify dfyconfig.toml`.

## How it is built

| module | part of the system |
|---|---|
| `Common`, `Domain` | shared vocabulary, trimming and 64-bit arithmetic; the rows of the tables |
| `Allocator`, `Cancellation`, `CancellationOrder`, `History` | the amount allocator; the matcher's history scan, on rows as written and as its query orders them; history and outbox as sequences |
| `Ledger` | every payment transaction as a function on a snapshot of the tables, steps and runs |
| `LedgerInvariants`, `LedgerHistory` | what every step keeps, and the order in which history is written |
| `LedgerRecords`, `LedgerConfirmations` | what the tables record of each payment of a run, from any database: history, webhooks, observations |
| `LedgerWindows` | one amount, one instant, one payment: on every run from any database whose held amounts differ |
| `LedgerTheorems`, `LedgerWitnesses`, `ClockAssumption`, `SchemaGuards` | the other main results about reachable states and runs; concrete runs in which the exceptions occur; why the clock is assumed; the schema's triggers on these states |
| `PaymentOutcomes`, `RelayOutcomes` | what each payment and relay operation answers and leaves, in plain numbers and words |
| `MerchantView` | what webhooks alone tell a merchant about a payment, on every run |
| `PaymentService` | the service as a class that updates its tables in place, each method proved equal to its transaction |
| `Relay`, `RelayTheorems`, `RelayService` | relay ingestion: pairing, revocation, accept, process, finish, redact; exactly-once; the service class |
| `RelayBatch`, `RelayRetry`, `RelayTwins` | signed batches; what a batch re-sent after a cut does; when two readings of the clocks end alike |
| `Fingerprint` | the byte encoding that is hashed when an old event body is redacted |
| `Uniqueness` | grandfathered uniqueness: reconciliation on opening, triggers and unique indexes |
| `Webhooks` | the outbox sender: leased claims, retries, lost finishes, manual retries |
| `Activity` | the operator's feed: top-k merge of three ordered tables |
| `Money` | parsing and printing rupee texts |
| `Preflight`, `Cutover` | the v3 cutover: normalization, the collision checks, the import; an imported database as the start of runs |

A transaction is written twice where the program updates state: as a function (`CreateTx`,
`SettleTx`, `AcceptTx`, ...) that lemmas can reason about, and as a method of a class or an
imperative method with its loops, whose postcondition equates the new state with that function.
The theorems are about runs of the functions, hence about the methods. `PaymentOutcomes` and
`RelayOutcomes`, and the sections on one attempt, one text, one row and one payment in `Webhooks`, `Money`,
`Cancellation` and `Preflight`, say independently what the functions compute: bounds, delays, words and
fields as literals, without the constants and helpers the functions are made of.

Instants are integer milliseconds, amounts integer paise; sums that the program forms in int64
are wrapped explicitly (`Wrap64`). A digest or hash is a free constructor over what it digests.
Signature verification is represented by the (device, epoch) pair it yields, the notification
parser by an arbitrary function from an event to a result. Ids, random indexes and clock readings
are arbitrary parameters, drawn per transaction; that a fresh id collides is one of the error paths.

**Where runs start.** The theorems about windows, candidates, ambiguity, protected amounts and
completeness are about runs from any database whose reservations mirror its payments and whose held
amounts differ (`Startable`), whatever its history, keys and outbox; payments that were there before
the run are set apart only where two of them are rivals. `ImportIsStartable` shows that a v3 import
is such a start. What payments keep, and idempotent creates, need nothing of the start at all. The
results about history, webhooks, confirmations and the cancellation filter are about each payment the
run creates (`Unnamed`: at the start no row names it), in a database that may hold any others;
`NewPaymentsAreRecorded` and `RelayAfterCutover` compose them with the import. Lemmas named
`EmptyStart...` are the corollaries from the empty database.

**The clock assumption.** The program reads the clock before it takes the write lock
(internal/v4/payments/service.go:126). Theorems about runs assume that the readings of committed
creates do not decrease (`ClockForward`); no other step dates a window, a reservation or a key, so
no other reading is constrained in a run. `BackwardClockSharesAmount` shows three creates that break
this and give one amount to two payments with overlapping windows. The results about the span after
a cancellation or a reopen (`SpanIsDroppedIff` and what follows from it) assume forward readings of
every step (`CommitsForward`), and `ReopenRefusedIffTooLate` has a second clause for an edit that
does not read an earlier clock than the last create. History, webhooks, confirmations, the exactness of
the cancellation filter, enrollment epochs, exactly-once relay processing and the uniqueness triggers
need no such assumption.

## What the code does, where its documentation or a first guess says otherwise

- The repository's README speaks of an adjustment of at most 1.99 rupees. The code has six buckets
  and adjustments up to 599 paise (internal/v4/payments/allocator.go:31,
  internal/v4/storage/schema.go:633); the model follows the code.
- Generic app notifications confirm payments automatically, not only Paytm's
  (internal/v4/payments/matching.go:233-237).
- The overflow guards reserve less than the 599 paise an adjustment may add
  (internal/v4/payments/service.go:218-225, internal/v4/payments/allocator.go:42): `SumsFitIff` gives the exact bound,
  and `LargeRequestIs` the allocator's answer beyond it, which is never a lack of capacity.
- A payment moved out of "cancelled" other than to "pending" goes on being treated as cancelled by
  the matcher; the repository's tests want late evidence to stay rejected there.
  `CancellationFilterIsExactIff` says for which histories the filter is exact, and
  `LaterCancellationAcceptsEarlierInstant` that a later cancellation can make an instant acceptable again.
- The matcher reads history by (created_at, id), and ids are random, so status changes of one
  millisecond may be read in the wrong order. `RejectedIff` says of every history and every instant
  what it then answers. Money of an instant at which the payment is cancelled can pay it
  (`CancelledInstantIsAccepted`). Money of a payment reopened in row r is refused, at every later
  instant, exactly when a cancellation of the reopen's own millisecond has a greater id than every
  reopen of it (`ReopenedMoneyIsRefusedIff`, `ReopenedInstantIsRejected`). `ExactIffAtChanges` reduces
  exactness at all instants to the instants of the status changes and the milliseconds after them.
- Two payments may claim one amount at the instant at which one window ends and the next begins;
  money of that instant stays unsettled (`AmbiguityFailsClosed`, `BoundaryIsAmbiguous`). So may two
  imported payments whose windows overlapped and are over, which neither the preflight nor the import
  looks at (`RivalsAreImported`).
- A batch re-sent after a cut continues as if it had not been cut, but at the readings of the retry
  (`RetryContinues`). A posting time or an occurrence that one reading accepts and the other does not
  makes the outcome differ (`RetryAtLaterClockMayDiffer`); `LaterRetryAgreesIff` says exactly when it does not.
- Redacting an event that was stored with a payload hash can change the same/conflict verdict of a
  re-sent event (`RedactionTurnsDuplicateIntoConflict`); `RedactionChangesVerdictIff` says exactly when.
- A comma next to surrounding white space makes an amount unreadable (`StrandedCommaLosesAmount`);
  elsewhere commas are ignored (`CommasAreIgnoredIff`).
- The cutover's preflight compares held amounts within one profile only, and lets a paid row dated at
  the zero time pass. A set it accepts can still be refused by the import's trigger
  (`CrossProfilePairIsRefused`) or by a CHECK (`ZeroTimeIsRefused`); `ImportSucceedsIff` says exactly when.
- A manual webhook retry while the row is being sent is lost when that send is refused for good, with
  404 say, or was the last attempt; another failure replaces its immediate next attempt by the old
  attempt's delay (`RetryDuringSendIsLostIff`, `NotFoundLosesRetry`).

## Model

| member | source | states |
|---|---|---|
| Cancellation.OccurredDuringCancellation | internal/v4/payments/matching.go:309-356 | For any rows whatever, the one-pass scan answers true exactly for the declarative condition: some cancellation before t is followed in its segment by a later status row after t, or its segment is still open at the end |
| Cancellation.CancelledPeriodIsRejected | internal/v4/payments/matching.go:309-356 | On linked rows with non-decreasing instants every instant strictly between a cancellation and the next status change is rejected |
| Cancellation.RejectedIsCancelledPeriod | internal/v4/payments/matching.go:342-355 | If every exit from "cancelled" is a reopen or followed by another cancellation before any later instant, nothing else is rejected |
| Cancellation.UncleanExitIsOverRejected | internal/v4/payments/matching.go:342-355 | Any other exit makes the scan reject an instant at which the payment is not cancelled: the exit's own, or the next one when the payment was cancelled in that same millisecond |
| Cancellation.ScanIsExactIffLeftCleanly | internal/v4/payments/matching.go:309-356 | On linked rows with non-decreasing instants the scan rejects exactly the cancelled periods if and only if the history leaves "cancelled" cleanly |
| Cancellation.LaterCancellationAcceptsEarlierInstant | internal/v4/payments/matching.go:323-341 | A concrete history on which a later cancellation makes a rejected instant acceptable |
| Cancellation.OneRowRejects | internal/v4/payments/matching.go:323-341 | One row alone rejects exactly the later instants, if it is the cancelled event or a change to cancelled |
| Cancellation.NextRowDecides | internal/v4/payments/matching.go:323-355 | After a cancellation the next row ends it exactly if it is a change from cancelled to pending, at its instant |
| History.SortRowsSorts | internal/v4/payments/matching.go:310-311 | The rows the query yields are the stored ones in ascending (created_at, id) order |
| CancellationOrder.OrderedVerdictIsExactIff | internal/v4/payments/matching.go:309-356 | When the query reads the status changes as they happened, it never accepts an instant of a cancelled period, and is exact if and only if "cancelled" was left cleanly |
| CancellationOrder.RejectedIff | internal/v4/payments/matching.go:309-356 | For any rows with distinct ids, however ids order those of one millisecond, and any instant t: it is rejected if and only if, of the last millisecond before t with a cancellation or a reopen, a cancellation is read after every reopen, nothing of the kind lies at or before t since, and of the first millisecond after t with a status change one that is no cancellation is read before every cancellation |
| CancellationOrder.SpanIsRejectedIff | internal/v4/payments/matching.go:309-356 | So an instant between a cancellation or a reopen and the next status change is rejected if and only if a cancellation is read last in the millisecond in which that span began and a change that is no cancellation first in the one in which it ends |
| CancellationOrder.ExactIffAtChanges | internal/v4/payments/matching.go:309-356 | The verdict is the truth at every instant if and only if it is at the instant of each status change and a millisecond later |
| CancellationOrder.LateExitKeepsVerdict | internal/v4/payments/matching.go:342-355 | A status row read last that is neither a cancellation nor a reopen changes no verdict, whatever its instant |
| Allocator.LoadBucketCandidates | internal/v4/payments/allocator.go:92-145 | The pass over 99 slots, in wrapping int64, returns the free amounts that were not used recently, or all free ones if there are none |
| Allocator.ScanBuckets | internal/v4/payments/allocator.go:63-90 | The bucket loop computes the first bucket's choice with its guard, capacity and random-index errors |
| Allocator.SelectIsBest | internal/v4/payments/allocator.go:35-90 | The chosen amount is free, in the first bucket with a free one, and recently used only if every free amount of that bucket is; capacity is reported if and only if all 594 amounts are held |
| Allocator.SumsFitIff | internal/v4/payments/allocator.go:42-75 | No sum of the scan leaves int64 if and only if the request is at most MaxInt64 - 599 |
| Allocator.LargeRequestIs | internal/v4/payments/allocator.go:63-90 | Beyond that bound: the best amount of the buckets whose sums fit, and once those are full whatever wrapped slot of the next one the index draws, held or not; never a lack of capacity |
| Allocator.RoomMeansCapacity | internal/v4/payments/allocator.go:92-145 | By pigeonhole, fewer than 594 unreleased reservations leave room |
| PaymentOutcomes.PayableIsPreferred | internal/v4/payments/allocator.go:35-145 | By the reservations before it, a create hands out one of 594 adjustments of 1 to 599 paise: free, in the first bucket of 99 with a free one, and used within four hours only if every free one of that bucket was |
| PaymentOutcomes.PreferredAreDrawn | internal/v4/payments/allocator.go:74-86 | Each such adjustment is drawn by exactly one random index, so a uniform index chooses uniformly among them |
| PaymentService.Service.Create | internal/v4/payments/service.go:102-216 | The imperative create is the create transaction: idempotency, release, allocation, five inserts, or nothing |
| PaymentOutcomes.RequestIsTakenIff | internal/v4/payments/service.go:218-254 | The bounds a create request must meet, and that the trimmed texts are kept |
| PaymentOutcomes.CreateLeaves | internal/v4/payments/service.go:126-211 | Every row of a create that is no replay: windows of the given lengths or 300000 ms each, the texts, amounts and destination of request and profile, a reservation until reuse_after, overdue ones released, the key for 86400000 ms, one history row, one webhook |
| PaymentOutcomes.CreateAnswers | internal/v4/payments/service.go:126-153 | Exactly when a create conflicts, replays, finds no active profile or no capacity, and that a replay only drops expired keys |
| PaymentService.Service.Select | internal/v4/payments/allocator.go:35-90 | Releases due rows in place, then allocates |
| PaymentService.Service.Commit | internal/v4/payments/lifecycle.go:154-176 | A status change stores the payment, one history row and one webhook together, or none of them |
| PaymentService.Service.Cancel | internal/v4/payments/lifecycle.go:41-85 | Cancel moves only pending payments, repeats quietly on cancelled ones and refuses paid and expired ones |
| PaymentOutcomes.CancelAnswers | internal/v4/payments/lifecycle.go:41-85 | Unknown, paid and expired payments are refused as such, a cancelled one is left alone, a pending one is cancelled with one row and one webhook |
| PaymentService.ListDue | internal/v4/payments/lifecycle.go:87-120 | The listing loop yields the due payments in (grace_until, id) order up to the limit |
| PaymentService.Service.ExpireDue | internal/v4/payments/lifecycle.go:87-152 | The expiry loop is the expiry transaction, all or nothing, with its count |
| PaymentOutcomes.ExpireDueLeaves | internal/v4/payments/lifecycle.go:87-152 | The overdue payments, earliest first, 100 of them unless another limit up to 500 is given, are expired, each with its row and webhook, and counted; nothing else changes |
| PaymentService.ApplyEdit | internal/v4/adminpayments/edit.go:127-224 | Step by step, applyEdit accepts exactly the valid edits, computes the edited payment with its paid_at rule, the set of fields that really differ, and merchant visibility |
| PaymentService.Service.Edit | internal/v4/adminpayments/edit.go:32-108 | The operator edit with its reopen guards, history row and webhook |
| PaymentOutcomes.EditAnswers | internal/v4/adminpayments/edit.go:32-225 | Exactly when an edit is refused as unknown, invalid (lengths, metadata, any word but the four, paid_at without paid) or an unsafe reopen |
| PaymentOutcomes.EditLeaves | internal/v4/adminpayments/edit.go:32-249 | An edit that commits leaves the status named by the trimmed, lower-case word, the trimmed texts, paid_at while paid from the operator, before or the clock, and nothing else; one history row with its event name, and a webhook unless only the note changed |
| PaymentService.Service.MatchingCandidates | internal/v4/payments/matching.go:263-307 | The query and the filter loop return exactly the candidate set, without repetition |
| PaymentService.Service.ApplyMatchedPayment | internal/v4/payments/matching.go:366-398 | Marks a payment paid with its row and webhook, or enriches a paid one |
| PaymentService.Service.Settle | internal/v4/payments/matching.go:134-202 | The matcher's transaction from the candidate query on |
| PaymentOutcomes.SettleAnswers | internal/v4/payments/matching.go:134-192 | Unmatched, ambiguous, matched or corroborated by the candidates and earlier confirmations, and the one observation row that says so, filed under the payment's, its own or the active profile |
| PaymentOutcomes.SettleRefuses | internal/v4/payments/matching.go:205-224 | What is refused: no positive amount with paise, no time, Paytm evidence for another profile, no profile to file under, a second observation, clashing ids |
| LedgerInvariants.StepKeepsInv | internal/v4/payments/service.go:126-211 | Every step keeps the table invariants: mirrored reservations, unique held amounts, windows that meet in at most one instant, linked histories, outbox equal to history, key rows, unique observations |
| LedgerInvariants.RunKeepsInv | internal/v4/payments/allocator.go:54-145 | So does every run whose creates read a non-decreasing clock |
| LedgerHistory.RunKeepsChronicle | internal/v4/payments/lifecycle.go:154-176 | Over a run whose readings do not decrease, history is written in time order |
| LedgerHistory.RunKeepsOwnChronicle | internal/v4/payments/lifecycle.go:154-176 | So are the rows of one payment, whatever the database held of others |
| LedgerHistory.RunKeepsIds | internal/v4/payments/lifecycle.go:154-176 | Over any run whatever, history ids stay distinct |
| LedgerWindows.WindowsMeetAtOneInstant | internal/v4/payments/matching.go:263-307 | Two payments, not both from before the run, claim one amount and instant only where the older window ends and the newer begins |
| LedgerWindows.RunKeepsWindows | internal/v4/payments/allocator.go:54-145 | From any database whose reservations mirror its payments and whose held amounts differ, every run with forward creates keeps both, and keeps the windows of one amount apart but for pairs that were given |
| LedgerWindows.CandidatesAreUnambiguous | internal/v4/payments/matching.go:263-307 | On every run from such a database two candidates for one amount and instant share a window boundary or were both there before; at most two are new, and at most two there are unless two were there before |
| LedgerTheorems.EmptyStartIsUnambiguous | internal/v4/payments/matching.go:263-307 | From an empty database at most one candidate, or two at a shared boundary |
| LedgerWindows.AmbiguityFailsClosed | internal/v4/payments/matching.go:138-142 | On every such run an observation is ambiguous if and only if two payments of its amount, of fitting profiles and not read as cancelled, have windows that end and begin at its instant, or two from before the run claim it; ambiguous and unmatched ones add the observation row and change nothing else |
| LedgerTheorems.EmptyStartFailsClosed | internal/v4/payments/matching.go:138-142 | From an empty database, only the shared boundary |
| LedgerWitnesses.BoundaryIsAmbiguous | internal/v4/payments/matching.go:138-142 | A run of two creates that ends in such a state: the exception does occur |
| LedgerTheorems.InsideWindowIsUnique | internal/v4/payments/matching.go:263-307 | On every run from such a database money strictly inside a window has that payment as only candidate, unless the query reads the payment as cancelled at its instant, when it is none |
| LedgerTheorems.MatchingIsComplete | internal/v4/payments/matching.go:134-165 | On every run from such a database money strictly inside a window resolves to exactly that payment, paid at the occurrence, if and only if the query does not read the payment as cancelled at its instant; only two payments from before the run may be rivals |
| LedgerTheorems.OrderedMatchingIsComplete | internal/v4/payments/matching.go:134-165 | So for a payment of such a run money strictly inside its window and outside its cancelled periods resolves to it, if its status changes are read as they happened and "cancelled" was left cleanly |
| LedgerTheorems.MatchingIsSound | internal/v4/payments/matching.go:134-165 | A settled observation changes at most its only candidate; amount, window, release and profile fit; the scan accepts the instant, which lies outside every cancelled period when linked status changes are read as they happened. A first settlement is the payment before, paid at the occurrence, with each payer field the observation's unless that is blank, exactly one row and one webhook; a later one only fills blank payer fields |
| LedgerTheorems.UntouchedPaidHasEvidence | internal/v4/payments/matching.go:366-398 | On every run at any readings, from any database whose reservations mirror its payments, a paid payment of the run no operator touched has a matched observation of its amount at paid_at inside its window |
| LedgerTheorems.ConfirmationsAreOrdered | internal/v4/payments/matching.go:143-165 | For a payment of such a run that never left "paid" the first confirmation is matched, all later ones corroborated, the system settled it at most once, and a confirmed one is paid |
| LedgerRecords.HistoryReplays | internal/v4/payments/lifecycle.go:59-176 | On every run at any readings from any database, the history of each payment of the run links from pending to the stored status, paid_at is set exactly while paid, and its webhooks announce its history minus note-only edits, in order |
| LedgerRecords.RunAnnounces | internal/v4/payments/lifecycle.go:154-176 | Every run from any database adds to the outbox exactly the events of the history rows it adds, minus note-only edits, in the same order |
| LedgerRecords.RunKeepsTold | internal/v4/payments/lifecycle.go:59-176 | Any payment whose history replays to its status, imported or not, keeps such a history on every run |
| LedgerTheorems.EmptyStartReplays | internal/v4/payments/lifecycle.go:59-176 | From an empty database every history replays, and the whole outbox is the whole history minus note-only edits |
| MerchantView.RunIsShown | internal/v4/payments/lifecycle.go:154-176 | No step of any run breaks the picture a merchant has of a payment from its webhooks, whatever else the database holds |
| MerchantView.WebhooksTellTheState | internal/v4/payments/service.go:383-403 | On every run from any database, at any clock readings, the webhooks of a payment of the run start with its creation, each event name fits the statuses before and after, and the last body is what would be sent of the stored payment now, but for payer fields that were blank and filled silently |
| MerchantView.EmptyStartIsShown | internal/v4/payments/service.go:383-403 | The same of every payment, from an empty database |
| LedgerTheorems.CancellationFilterIsExactIff | internal/v4/payments/matching.go:295-356 | For each payment of a run, at any readings and from any database with distinct history ids, the filter drops exactly the instants at which the query reads the payment as cancelled, and is exact at all instants if and only if at each status change and a millisecond later; with changes read as they happened it never accepts a cancelled instant, and is exact if and only if "cancelled" was left cleanly |
| LedgerTheorems.SpanIsDroppedIff | internal/v4/payments/matching.go:295-356 | For each payment of a run forward in time, from any database with distinct history ids, an instant between a cancellation or a reopen and the next status change is dropped if and only if the query reads that span as cancelled |
| LedgerTheorems.SpanMoneyMatchesIff | internal/v4/payments/matching.go:263-307 | So, when reservations mirrored the payments and held amounts differed at the start, money of such an instant has the payment as a candidate, and then as the only one, if and only if it does not |
| LedgerTheorems.ReopenedMoneyIsRefusedIff | internal/v4/payments/matching.go:263-307 | Money of a payment of such a run that was last reopened is refused if and only if a cancellation of that millisecond has an id beyond those of its reopens |
| LedgerWitnesses.CancelledInstantIsAccepted | internal/v4/payments/matching.go:309-356 | A run of create, cancel, reopen and cancel, the last two in one millisecond, after which money of a cancelled instant pays the cancelled payment |
| LedgerWitnesses.ReopenedInstantIsRejected | internal/v4/payments/matching.go:309-356 | A run of create, cancel and reopen in one millisecond, after which every later instant of the pending payment is rejected |
| LedgerWitnesses.AnOrderIsAcceptable | internal/v4/payments/service.go:218-245 | There is a create request and a profile of the kind these runs assume |
| LedgerWindows.ProtectedAmountsDiffer | internal/v4/payments/allocator.go:54-60 | On every run from a database whose held amounts differ: until reuse_after a reservation is unreleased and no other protected payment has its amount |
| LedgerTheorems.EmptyStartProtects | internal/v4/payments/allocator.go:54-60 | The same from an empty database |
| LedgerTheorems.ReopenRefusedIffTooLate | internal/v4/adminpayments/edit.go:114-126 | On every such run a reopen is refused as unsafe if and only if reuse_after has passed or the reservation was released; for an edit that reads no earlier clock than the last create the second check is implied |
| LedgerTheorems.RunKeepsIdentity | internal/v4/payments/service.go:169-188 | No run, from any database and at any readings, deletes a payment or changes its amounts, destination snapshot or instants |
| LedgerTheorems.KeyOutlivesRun | internal/v4/payments/service.go:130-140 | A key row of any database survives every run without a create after it expires |
| LedgerTheorems.CreateIsIdempotent | internal/v4/payments/service.go:126-211 | For 24 hours after a create on any database, whatever runs in between, the same request gets the same payment with the same amount and destination, another request conflicts, and neither adds a row |
| LedgerTheorems.CreateSucceedsWithRoom | internal/v4/payments/service.go:126-211 | With fewer than 594 unreleased reservations a create with fresh ids succeeds, unless the random index lies outside the candidates, which index 0 never does: allocator, CHECKs and uniqueness all accept |
| LedgerTheorems.ExpireIsExact | internal/v4/payments/lifecycle.go:121-152 | Expiry moves exactly the listed payments from pending to expired and counts them |
| LedgerTheorems.DueOrderIsExact | internal/v4/payments/lifecycle.go:100-120 | The listed payments are distinct, due, ordered, as many as the limit allows, and none left out is earlier |
| ClockAssumption.BackwardClockSharesAmount | internal/v4/payments/service.go:126-188 | A create with an early clock reading gives one amount to two payments whose windows share 12 hours |
| SchemaGuards.InsertRefusedIffHeld | internal/v4/storage/schema.go:525-537 | Wherever held amounts differ, the insert trigger and both unique indexes refuse a reservation if and only if its amount is held |
| SchemaGuards.ReleaseIsAllowed | internal/v4/storage/schema.go:538-553 | A release pass is never stopped by the update trigger or the indexes: in whatever order it takes the rows it ends in the release of all due ones |
| SchemaGuards.ConsistencyTriggersStaySilent | internal/v4/storage/schema.go:452-486 | After every step, from imported tables too, each reservation matches its payment, so the consistency triggers never abort |
| RelayTheorems.RunEvolves | internal/v4/relay/service.go:243-317 | Under any interleaving the relay invariant holds, events keep their identity, and status leaves "received" at most once |
| RelayTheorems.DecidedEventIsFinal | internal/v4/payments/matching.go:76-125 | Once decided, an event's status stays for ever, every further processing is refused and finishing changes nothing |
| RelayTheorems.ExactlyOneVerdict | internal/v4/payments/matching.go:104-192 | On every run from any world that keeps the invariant, as one without events and observations does, each event has at most one observation, whose outcome is its status (corroborated stored as matched), and matched or unmatched never stand without one |
| RelayTheorems.ObservationsAreAuthorized | internal/v4/payments/matching.go:76-103 | An observation is only added by processing an open event of a device that is enabled under the request's epoch at commit |
| RelayTheorems.RunGrowsEpochs | internal/v4/relay/pairing.go:152-181 | Enrollment epochs never go back, even if the clock does |
| RelayTheorems.StepGrowsEpochs | internal/v4/relay/pairing.go:152-181 | Every pairing of a known device moves its epoch strictly forward |
| RelayTheorems.OldEpochIsDead | internal/v4/relay/service.go:365-380 | After a device is paired again, requests of the old epoch can never store or process an event |
| RelayTheorems.TokenWorksOnce | internal/v4/relay/pairing.go:120-187 | A pairing token pairs at most once, whatever runs |
| RelayTheorems.RedactionKeepsLegacyVerdict | internal/v4/relay/service.go:437-508 | Redacting a row without a hash changes no same/conflict verdict, for reliable and unreliable posting times |
| RelayTheorems.RedactionChangesVerdictIff | internal/v4/relay/service.go:437-508 | For any row with a body, redaction changes the verdict on a re-sent event if and only if the row carried a hash of other bytes and the fields agreed before, or agree once the texts are gone |
| RelayTheorems.RedactionTurnsDuplicateIntoConflict | internal/v4/relay/service.go:437-460 | A stored event and a re-sent body of other bytes and the same fields: accepted before redaction, a conflict after it |
| RelayTheorems.StaleSnapshotIsHarmless | internal/v4/relay/service.go:79-156 | Redaction reads rows before its transaction; when the guarded update still applies, the stale row equals the current one in what is written |
| RelayTheorems.RelayWorldsAreReachable | internal/v4/relay/service.go:243-317 | Every interleaving of relay workers, from any world whose tables can start a run, is on the payment tables a run of the payment service; when the creates in it read a forward clock, all theorems above hold of it |
| RelayBatch.BatchIsRun | internal/v4/relay/service.go:187-317 | Ingesting a batch, with clock readings, profile and ids drawn per item, is a run of the modelled transactions, at most two an item |
| RelayRetry.BatchRetryConverges | internal/v4/relay/service.go:230-240 | At the same readings it ends in the very world and answer of the batch sent once |
| RelayRetry.RetryContinues | internal/v4/relay/service.go:230-240 | A batch cut at any transaction boundary and re-sent at whatever readings, profiles and ids ends, but for the device's last-seen time, in the world and answer of the uninterrupted run that drew the first attempt's up to the cut and the retry's from there; unless stored data no longer agree at the new reading, when it stops with a conflict and changes nothing |
| RelayRetry.RetryRunsOn | internal/v4/relay/service.go:437-460 | Stored data agree, and the retry runs on, if every item from before the cut was stored from this very body or has a posting time as reliable at the new reading |
| RelayTwins.IngestedAlikeIff | internal/v4/relay/service.go:243-317 | One item at two readings leaves equal rows, timestamps aside, and equal answers if and only if it is taken alike: the same verdict and, when it is settled, the same decision of the matcher or the same refusal |
| RelayTwins.BatchesAlikeIff | internal/v4/relay/service.go:230-240 | So do two batches of the same items at every boundary between items, if and only if every item they get to is taken alike |
| RelayTwins.LaterRetryAgreesIff | internal/v4/relay/service.go:230-240 | What a later retry of a cut batch leaves after each item equals, timestamps aside and with the same answer, what the first attempt would have left uninterrupted at its own readings, if and only if every item from the cut on is taken alike at both |
| RelayTwins.VerdictFollowsReadings | internal/v4/relay/service.go:355-363 | The verdicts are the same when posting time and occurrence are judged alike at both readings and a stored event is equally the same or another |
| RelayTwins.SameVerdictsSuffice | internal/v4/payments/matching.go:295-356 | The same verdicts are enough when the payment clock has moved past the status rows of payments not paid yet: the filter then says the same in both runs, and so does the matcher |
| RelayTwins.RetryAtLaterClockMayDiffer | internal/v4/relay/service.go:355-363 | The readings do matter: an event too far in the future is ignored by an uninterrupted run, but processed when cut after acceptance and re-sent later |
| RelayBatch.DecidedBatchIsUntouched | internal/v4/relay/service.go:380-391 | A batch of decided events, sent whenever and with whatever draws, leaves events, payments, history, outbox and sessions as they were |
| RelayOutcomes.NewEventIsProcessedIff | internal/v4/relay/service.go:243-317 | A new event that reports one payment ends in the matcher's own outcome when posted in 1577836800000..now + 300000, not before the epoch, and occurred in epoch..now + 120000; otherwise ignored without an observation; what the matcher refuses, or Paytm evidence of a wrong app, stays open |
| RelayOutcomes.NewEventWithoutPayment | internal/v4/relay/service.go:254-277 | A new event that reports no payment ends as ignored, one that reports several as ambiguous if it was posted in time |
| RelayOutcomes.RevokedMeanwhileIsIgnored | internal/v4/relay/service.go:294-301 | An event whose device lost its enrollment between accept and processing ends as ignored |
| RelayOutcomes.KnownEventIsIngested | internal/v4/relay/service.go:246-251 | A decided event sent again is only acknowledged, an open one is processed, a conflict or a device that may not send changes nothing |
| RelayOutcomes.NewEventAnswers | internal/v4/relay/service.go:355-415 | A device that may send stores a new event with its data, an unbelieved posting time replaced by the clock, as ignored if it was posted before the enrollment; any other is refused |
| RelayOutcomes.KnownEventAnswers | internal/v4/relay/service.go:417-460 | An event sent again is a duplicate if the body, the data, or for a redacted legacy row the fingerprint of the data is the same, and a conflict otherwise |
| RelayOutcomes.ProcessAnswers | internal/v4/payments/matching.go:76-192 | Processing an open event of an enabled device under the epoch is the matcher's settlement with the event's word, and is refused otherwise; Paytm evidence only from com.paytm.business |
| RelayOutcomes.PairingIsOffered | internal/v4/relay/pairing.go:72-118 | A token of at least 22 bytes makes a session of 120000 ms unless another lifetime is given |
| RelayOutcomes.PairingAnswers | internal/v4/relay/pairing.go:120-187 | Exactly when pairing is refused for an unknown, used or expired token, and the device and session it leaves |
| RelayOutcomes.RevocationAnswers | internal/v4/relay/pairing.go:189-210 | Revoking disables an enabled device, and is refused for any other |
| RelayOutcomes.EventIsValidIff | internal/v4/relay/service.go:319-353 | The exact bounds of a valid event, and its normalized form |
| RelayOutcomes.BatchIsValidIff | internal/v4/relay/service.go:213-242 | 1 to 50 events, all valid |
| RelayOutcomes.RedactionLeaves | internal/v4/relay/service.go:123-147 | One guarded update: an old row with a text loses its texts, keeps its hash or takes the fingerprint of the row as read, and is ignored if it was open |
| RelayOutcomes.OldestGoFirst | internal/v4/relay/service.go:90-96 | Bodies are taken oldest first, by id on ties, and none left out is older |
| RelayService.Service.CreatePairing | internal/v4/relay/pairing.go:72-118 | Stores a new session that expires after the given or the default lifetime; a token that is too short or not new is refused |
| RelayService.Service.PairDevice | internal/v4/relay/pairing.go:120-187 | Consumes the token, upserts the device and computes the epoch, with every refusal |
| RelayService.Service.RevokeDevice | internal/v4/relay/pairing.go:189-209 | Clears enabled on an enabled device only |
| RelayService.Service.AcceptEvent | internal/v4/relay/service.go:365-451 | The accept transaction: authorization, duplicate verdict, insert |
| RelayService.Service.ApplyObservation | internal/v4/payments/matching.go:41-202 | The processing transaction with its authorization and replay checks |
| RelayService.Service.Finish | internal/v4/relay/service.go:519-546 | Moves only an event that is still received |
| RelayService.Service.RedactRawEvents | internal/v4/relay/service.go:79-156 | Query and redaction: exactly the oldest expired bodies up to the limit are redacted, and counted |
| RelayService.Service.SelectBodies | internal/v4/relay/service.go:90-95 | The query lists the expired bodies in (received_at, id) order up to the limit, leaving out none that is older |
| RelayService.Service.IngestVerifiedEvent | internal/v4/relay/service.go:243-317 | Accept, sanitize, parse, tolerance checks, process or finish |
| RelayService.Service.IngestBatch | internal/v4/relay/service.go:187-241 | Nothing is stored unless all items are valid; then items run in order up to the first error, at one relay clock reading and with the payment clock, profile and ids drawn per item |
| Fingerprint.EncodeIsInjective | internal/v4/relay/service.go:462-508 | The fingerprint bytes are uniquely decodable: equal bytes mean equal package, posting time, hint and texts |
| Fingerprint.TextIsPrefixFree | internal/v4/relay/service.go:489-499 | A tagged, length-prefixed text followed by anything determines the text and what follows |
| Fingerprint.NumberIsPrefixFree | internal/v4/relay/service.go:500-508 | So does a tagged 8-byte number, over int64 |
| Fingerprint.Utf8IsInjective | internal/v4/relay/service.go:489-499 | The bytes of a string determine it |
| Fingerprint.ByteLengthIsUtf8Length | internal/v4/relay/service.go:319-345 | The length that is checked against the size limits is the length of the encoded bytes |
| Fingerprint.EncodeIsLaidOut | internal/v4/relay/service.go:462-508 | The bytes are those of six fields in order: a zero for none, or a one, eight bytes most significant first of the length or the two's complement number, and the text |
| Uniqueness.ReconcileEstablishes | internal/v4/storage/schema.go:226-279 | Reconciliation succeeds if and only if no profile holds an unreleased amount twice; it establishes the grandfathering invariant, marks exactly the duplicates, rewrites nothing else and is idempotent |
| Uniqueness.MarkedIsSound | internal/v4/storage/schema.go:259-272 | After marking, both unique indexes can be built under exactly that condition |
| Uniqueness.InsertGuardIsExact | internal/v4/storage/schema.go:525-537 | An insert is accepted if and only if it is enforced and its amount is free or it is released; it keeps the invariant |
| Uniqueness.UpdateKeepsSound | internal/v4/storage/schema.go:538-553 | Every accepted update keeps the invariant; with an unchanged profile the trigger alone decides |
| Uniqueness.UpdateIsRefusedIff | internal/v4/storage/schema.go:538-553 | Exactly which updates the trigger refuses |
| Uniqueness.RunKeepsSound | internal/v4/storage/schema.go:518-558 | Over every run of writes and reopenings the invariant holds and groups of duplicates only shrink |
| Uniqueness.CleanStaysClean | internal/v4/storage/schema.go:518-558 | A database opened without duplicates never gets one |
| Uniqueness.SurvivorIsEnforcedAgain | internal/v4/storage/schema.go:259-265 | When a group has shrunk to one row, reopening enforces it again and its amount cannot be taken |
| Uniqueness.Reservations.Reconcile | internal/v4/storage/schema.go:226-279 | The reconciliation loop and index checks, rolled back as a whole on failure |
| Uniqueness.Reservations.InsertRow | internal/v4/storage/schema.go:529-537 | The guarded insert in place |
| Uniqueness.Reservations.UpdateRow | internal/v4/storage/schema.go:538-553 | The guarded update in place |
| Webhooks.DeliveredIsFinal | internal/v4/webhooks/service.go:240-262 | Over every run with crashes and manual retries a delivered row never changes, and no row's event ever does |
| Webhooks.ClaimsAreBounded | internal/v4/webhooks/service.go:178-262 | Without manual retry the attempts column counts the claims, at most MaxAttempts plus the lost finishes |
| Webhooks.DelaysGrow | internal/v4/webhooks/service.go:332-350 | Retry delays never decrease and stay between a minute and a day |
| Webhooks.BackoffIsBounded | internal/v4/webhooks/service.go:240-262 | Without manual retry all scheduled delays together are at most those of the first MaxAttempts - 1 attempts, by default 2676 minutes, crashes or not |
| Webhooks.AttemptConcludes | internal/v4/webhooks/service.go:178-262 | After a claim and its conclusion a row is delivered exactly by a 2xx answer, waits exactly when there was no answer or 408, 425, 429 or at least 500 and attempts are below the limit (8 by default), for 1, 5, 30, 120, 360, 720 and then 1440 minutes, and is given up otherwise |
| Webhooks.ClaimLeaves | internal/v4/webhooks/service.go:178-208 | A claim counts an attempt and leases the row for 120000 ms unless another lease is given; a row that may not be sent is left alone |
| Webhooks.RetryLeaves | internal/v4/webhooks/service.go:264-292 | A manual retry starts over exactly the rows that wait for a retry or were given up |
| Webhooks.BatchIsOrdered | internal/v4/webhooks/service.go:141-160 | A batch lists rows that may be sent by next attempt, event time and position, and leaves out nothing earlier |
| Webhooks.RetryDuringSendIsLostIff | internal/v4/webhooks/service.go:240-291 | After a manual retry of a row that is being sent, the row is given up if and only if the send is refused for good or was the last attempt; another failure puts the old attempt's delay in place of the immediate next attempt; success delivers |
| Webhooks.NotFoundLosesRetry | internal/v4/webhooks/service.go:240-291 | A second attempt answered 404 leaves a manually retried row given up |
| Webhooks.Sender.ListDue | internal/v4/webhooks/service.go:137-143 | The first due rows in (next attempt, created, rowid) order |
| Webhooks.Sender.TakeOne | internal/v4/webhooks/service.go:178-209 | The claim: one more attempt and a lease, on due rows only |
| Webhooks.Sender.Finish | internal/v4/webhooks/service.go:240-262 | Delivered, given up or put back with the attempt's delay |
| Webhooks.Sender.RetryOne | internal/v4/webhooks/service.go:264-291 | Revives only waiting-for-retry and exhausted rows |
| Webhooks.Sender.SendPending | internal/v4/webhooks/service.go:121-177 | With manual retries and new events before and during every send, up to the point where it is cancelled or fails: the round is a run of the outbox that visits the first due rows in order, skips those no longer due, and counts those it sent |
| Webhooks.UndisturbedSendsAll | internal/v4/webhooks/service.go:121-177 | Undisturbed, each row it gets to is claimed exactly once and concluded by its own response, and no other row changes |
| Activity.TopOfThree | internal/v4/operator/service.go:333-351 | Sorting the newest k of three ordered sources and cutting to k equals the first k of the stably sorted union |
| Activity.StableSortIsStable | internal/v4/operator/service.go:343-348 | The sort is a stable permutation into order |
| Activity.OrderedListsTable | internal/v4/operator/service.go:355-400 | Each source query lists every row once, newest first |
| Activity.NothingNewerIsMissing | internal/v4/operator/service.go:349-352 | Nothing left out belongs before anything shown |
| Activity.FeedIsExact | internal/v4/operator/service.go:323-427 | The feed shows rows of the three tables by instant, kind and row, the newest first, 100 unless another limit up to 500 is asked for, and leaves out only what stands after all of them |
| Activity.Feed.List | internal/v4/operator/service.go:323-353 | The three append loops, the sort and the cut return exactly the first entries of the full feed, for any tables and limit |
| Money.CommasAreIgnoredIff | internal/money/money.go:45-49 | One more comma changes what is read if and only if it strands white space of an otherwise readable text |
| Money.StrandedCommaLosesAmount | internal/money/money.go:45-49 | A text that is five rupees without the comma in front of it and unreadable with it |
| Money.FormatParsesBackIff | internal/money/money.go:45-69 | Parsing what was printed gives the amount back if and only if it is non-negative and within the rupee range |
| Money.AcceptedAmountsFit | internal/money/money.go:45-67 | Every accepted text gives an int64 amount without wrapping, which prints to a text of the same amount |
| Money.PrintedPayableIsRecognizedIff | internal/v4/observations/parser.go:168-180 | A printed payable is read back as the paise the matcher compares, exactly within the rupee range |
| Money.WholeRupeesAgree | internal/money/money.go:19-43 | A whole-rupee request and the same text as an amount are the same paise, unwrapped |
| Money.AmountIsReadAs | internal/money/money.go:45-67 | Rupees, or rupees, a point and one or two digits of which one alone counts tens of paise, are read as that amount up to 92233720368547757 rupees |
| Money.AcceptedIsWritten | internal/money/money.go:45-49 | Every accepted text, without commas and surrounding white space, is written so |
| Money.PayGateAmountIs | internal/v4/observations/parser.go:168-180 | Which texts are malformed, unrecognized, whole rupees or an amount |
| Money.WholeRupeesAreReadAs | internal/money/money.go:19-43 | The exact texts and range of a whole-rupee request |
| Money.PaiseArePrinted | internal/money/money.go:69 | How amounts are printed, negative ones too |
| Preflight.NormalizePayment | internal/v4/migratev3/normalize.go:14-94 | The early returns accept exactly the acceptable rows and fill in the normalized payment |
| Preflight.LegacyIsTakenIff | internal/v4/migratev3/normalize.go:14-94 | The exact legacy rows that are taken, in numbers and words |
| Preflight.ImportedRowsIff | internal/v4/migratev3/import.go:61-103 | Any rows whatever are imported if and only if each meets the CHECKs, in numbers, no two share an id or a key, and no two unexpired ones a payable |
| Preflight.AcceptedMeetsChecksIff | internal/v4/migratev3/normalize.go:14-94 | An accepted row meets every CHECK of its tables, if and only if it is not paid at the zero time |
| Preflight.Check | internal/v4/migratev3/migrate.go:99-143 | The loop accepts if and only if every row is acceptable and no two collide on id, key or held amount of a profile; its report counts each row once per category |
| Preflight.ReportAddsUp | internal/v4/migratev3/migrate.go:133-136 | Both report maps sum to the number of rows |
| Preflight.ImportSucceedsIff | internal/v4/migratev3/import.go:61-79 | An accepted set is imported if and only if no two held amounts are equal across profiles and no paid row is dated at the zero time |
| Preflight.ZeroTimeIsRefused | internal/v4/migratev3/import.go:61-79 | A paid row at the zero time: accepted, and refused by the CHECK on paid_at |
| Preflight.CrossProfilePairIsRefused | internal/v4/migratev3/import.go:61-79 | Two accounts that hold one amount: accepted, and refused by the uniqueness trigger |
| Cutover.ImportIsStartable | internal/v4/migratev3/import.go:61-79 | A successful import leaves reservations that mirror the payments and held amounts that differ |
| Cutover.LegacyIsStored | internal/v4/migratev3/import.go:61-79 | After an import each legacy row is a payment with every column as stated (status words, five minutes of grace, destinations, cut names) and a reservation released once its amount may be used again |
| Cutover.CutoverIsUnambiguous | internal/v4/migratev3/import.go:61-79 | So after the cutover, on every run of the service, candidates share a boundary unless both were imported, at most two are new, and protected amounts differ |
| Cutover.NewPaymentsAreRecorded | internal/v4/migratev3/import.go:61-128 | After the cutover, on every run, the history of each new payment replays, its webhooks announce it and show the payment, an untouched paid one has its evidence, and one that never left "paid" was matched first and settled at most once |
| Cutover.RelayAfterCutover | internal/v4/migratev3/import.go:61-145 | Under any interleaving of relay workers after the cutover each event keeps at most one verdict, the tables are those of a run from the import, and at most two candidates are new |
| Cutover.RivalsAreImported | internal/v4/migratev3/import.go:75-78 | Two v3 payments of one amount with overlapping windows that are over are imported, and money of an instant in both has both as candidates |

## Left out

- Preflight.MeetsChecks: does not model that `length()` in SQLite stops at the first NUL and that `json_valid` refuses very deep nesting. A name that starts with NUL, or metadata nested some thousand levels deep, passes the checks of the program and fails a CHECK, in the import as in create and edit.
- LedgerRecords.HistoryReplays: says nothing of the payments that were imported, nor do the results about webhooks and confirmations and `CancellationFilterIsExactIff`: histories imported from v3 have rows without webhooks and status rows without a status change. What the matcher does with their money, `RejectedIff` and `MatchingIsComplete` say of all payments.
- The answers of ingestion (accepted, duplicate, ignored): only the durable state is modelled, and a worker that loses a race may report another word.
- Metadata canonicalisation is an input (canonical text or malformed), as is the decoding of legacy metadata (unusable, or JSON with an optional event id).
- Configurable bucket counts and soft horizons: fixed at their production values.
- Response bodies and error texts of webhook sends are not kept.
- Webhook payload JSON is represented by the payment it is made from (`MerchantView` looks at the fields it sends only), changes_json by the status change and whether only the note changed.
- The device-less variant of applying an observation, which the running program does not use, is not part of this model.
- Strings are sequences of characters with their UTF-8 bytes; invalid byte sequences are not representable. Lower-casing is ASCII only, as are the words compared against.
- Feed entries are their instant, kind and row; titles, details and sources are not modelled.
- Sub-millisecond instants and error texts; two instants of one millisecond are one.
- HTTP, cookies, the web interface, settings, profiles, API keys, sessions, heartbeats and overview counters: plumbing or easy invariants.
- Signatures, hashes and key formats: uninterpreted, hashes injective.
- Notification parsing other than the paise test: an arbitrary function.
- SQLite: transactions are taken as atomic, serialised and all or nothing.
- Backup, restore, file handling and schema text checks: file I/O.
