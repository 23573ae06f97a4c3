# Verification of the Ubuy auction backend

This project models the parts of the auction backend whose correctness is spread over several
functions, processes and retries, and proves what they promise. `dafny verify dfyconfig.toml`
checks everything.

## What is modelled

**Bidding between awaits** (`BidProtocol`, `BidSafety`, `BidEndings`, `BidExclusion`, `BidWitnesses`).
`placeBid`, `endAuction` and `cancelAuction` on one auction are a state machine whose steps are the awaits:
take the lock, read the auction, read the latest bid, conditional update, insert, extend the user's set,
delete the lock, and the separate reads and saves of the others. Any number of calls interleave, any await
may fail, any process may die, and the lock may vanish at any moment, whether it expires or another call
deletes it. A document save writes only the fields whose value differs from what the call had read. Proved
for every interleaving: the price is a ratchet and the maximum of all accepted amounts, stored amounts are
distinct, an auction that left ACTIVE never becomes active again and keeps its price, a winner earned the
place with a bid of their own, and exactly when the stored bids obey the bidding rules, a cancellation holds
and a winner is cleared. Proved while holders are prompt: mutual exclusion, the bidding rules, and that a bid
screened before the end time is accepted less than three seconds after it (`AcceptedAfterEnd` nearly takes
that long).

**Whole handlers** (`Market`, `MarketService`, `MarketEffects`, `MarketRuns`, `MarketResults`, `MarketNotes`,
`MarketEndings`, `MarketTimes`, `MarketPayments`, `MarketWitnesses`, `Redelivery`, `TopBidders`). Every service
and job handler is a function on the whole state: auctions, bids, the users' `biddedAuctions`, notifications
keyed by recipient and dedupe key, and the queue as a put-if-absent table of job ids. `MarketService.Backend` is
the imperative form, one method per service method, each proved equal to its function and to keep the
invariant of every run; `MarketEffects` says when each handler accepts and everything it then writes. Runs are
arbitrary sequences of requests and job deliveries; jobs may be late, repeated, reordered, stale, or stopped
after any awaited write, and the lazy sweeps of the listing, profile and statistics queries are events of
their own. `Granularity` proves that an uninterrupted await-level `placeBid` does exactly what the
handler-level one does, in all its branches.

**A payment against a replacement of the winner** (`PaymentRace`). The confirmation and either the expiry job
or the creator's decision, split at their awaits.

**The single-flight cache** (`FetchCache`), **lockout and reset codes** (`Accounts` one handler at a time,
`AccountRace` with handlers split between read and save), **page arithmetic** (`Paging`), **payment link ids**
(`LinkIds`) and **request metrics** (`Metrics`). `Common`, `BidOrder`, `Division` and `Strings` hold what they
share.

Ids, password hashes and codes are opaque numbers. Prices are real numbers. Times are unbounded integers in
milliseconds. Job ids and dedupe keys are datatypes with one constructor per prefix, since the strings are
built from object ids and do not collide. The clock, the outcome of a password comparison, generated codes
and fetched values are inputs. Database and Redis operations are taken to be atomic per document or key; a
sort may order documents that tie on its keys either way, and `$group` may emit its rows in any order.

## What turned out not to hold

Each comes with a concrete run or input, and with the exact condition under which the expected property
holds.

- A sweep ends an auction without naming a winner, and `endAuction` then returns early: the bidder is told
  that they won and nobody can pay (`ToldButSwept`). An ended auction with bids has a winner exactly when no
  sweep ended it (`SweptExactlyWithoutWinner`); who can pay then, and when a user who was told so can, is
  `LinkExactly` and `ToldWinnerCanPay`.
- The end saved by `endAuction` or by a bid on an expired auction can name a winner who is not the highest
  bidder (`StaleWinner`, `LateBidNamesStaleWinner`; `EndedForTop`, `ExpiredForTop`, `WinnerIsTopExactly`).
- A call that dies between its update and its insertion leaves a price without a stored bid (`LostBid`,
  `PricesHold`).
- A cancelled auction can keep a winner (`CancelledWithWinner`, `CancelClearsWinner`).
- A saved cancellation can be undone by an end that was read before it (`CancelUndone`, `CancelHolds`).
- A call that outlives its three-second lock lets a user outbid themselves (`SlowHolderBreaksTheRules`,
  `SerialExactly`).
- A `paymentExpired` job killed after replacing the winner and redelivered never queues the new winner's
  jobs and never tells them (`NewWinnerForgotten`, `SwitchIsNotFinished`, `ExpiryJobLost`).
- A payment confirmed while the winner is being replaced can be forgotten or credited to the next bidder
  (`PaymentForgotten`, `PaymentMisattributed`, `OrderDecides`). That PAID is final is therefore a statement
  about handlers that do not overlap (`PaidIsFinal`).
- A payment made through a link and reported without naming the payer can be credited to the next bidder
  (`PaymentCreditedToNext`, `PaymentCredits`).
- Overlapping resets can use one code twice (`TwoResetsOneCode`, `CodesUsedOnce`).
- Overlapping logins can compare passwords without counting the failures (`GuessesNotCounted`,
  `LockedExactly`). The bound on guessing is therefore stated for handlers one at a time; `UndisturbedIsSerial`
  says when overlapping ones come to the same.
- A paid auction can get payment jobs, which then do nothing (`PaidButBilled`, `PaidIsBilledExactly`).
- A winner's expiry job can be due at another time than the stored due date (`ExpiryBeforeDate`,
  `ExpiryAgreesWithDate`).
- The search for a backup bidder stops after a hundred bids; on arbitrary data that can miss one
  (`CutoffMisses`, `CutoffIsExact`), under the bidding rules it cannot (`BackupSearchIsComplete`).

## Model

| member | source | states |
|---|---|---|
| BidProtocol.OnlyRaisesRaise | src/modules/bids/bids.service.ts:84-97 | of all steps only a successful conditional update touches price, highest bidder or the history of raises; it sets both together and strictly raises the price; no step touches creator, starting price or end time |
| BidProtocol.ClimbsStep | src/modules/bids/bids.service.ts:47-103 | every step keeps the price ladder: accepted amounts strictly rise above the starting price, none is the creator's, and the document shows the last one |
| BidProtocol.AccountsStep | src/modules/bids/bids.service.ts:84-109 | every step keeps the ledger: stored bids, bids in flight and lost bids make up the accepted updates, and no amount is stored twice |
| BidProtocol.NamesStep | src/modules/auctions/auctions.service.ts:456-470 | every step keeps that all names in the document and in all pending snapshots belong to users whose update was accepted |
| BidProtocol.InvHolds | src/modules/bids/bids.service.ts:25-159 | ladder, ledger and names hold after every run, whatever happens to the lock |
| BidSafety.PriceRatchet | src/modules/bids/bids.service.ts:84-103 | along every run the price never falls, and it rises exactly at the successful conditional updates |
| BidSafety.PricesHold | src/modules/bids/bids.service.ts:84-109 | in every interleaving the price is the maximum of the starting price and all accepted amounts and stored amounts are pairwise distinct; the document shows the largest stored bid and its bidder, or the starting price and nobody, if and only if the bid of the last accepted update, if any, is stored |
| BidSafety.EndIsFinal | src/modules/auctions/auctions.service.ts:456-470 | after the status first leaves ACTIVE it never returns, no update succeeds, and price and highest bidder are final |
| BidSafety.WinnerEarnedIt | src/modules/auctions/auctions.service.ts:464-467 | a stored winner is not the creator, and some earlier step of the run is that user's successful update |
| BidSafety.NoEarlyWinnerHolds | src/modules/bids/bids.service.ts:51-56 | an active auction and every snapshot whose save would end it have no winner |
| BidEndings.WinnerIsCrowned | src/modules/auctions/auctions.service.ts:456-470 | along every run the document has a winner if and only if an end read with a highest bidder was saved and no cancellation saved after it had seen a winner, or an initial winner was never so removed |
| BidEndings.WinnerIsTopExactly | src/modules/auctions/auctions.service.ts:456-470 | in every interleaving winner and highest bidder agree if and only if the last end saved and not knowingly removed names the user of the last accepted update |
| BidEndings.EndedForTop | src/modules/auctions/auctions.service.ts:456-470 | the end saved by `endAuction` names the highest bidder if and only if since its read nobody but the bidder it saw had an update accepted (if it saw none: only the user another end has named) |
| BidEndings.ExpiredForTop | src/modules/bids/bids.service.ts:51-56 | the same for the end saved by a bid on an expired auction |
| BidEndings.CancelClearsWinner | src/modules/auctions/auctions.service.ts:519-553 | a cancellation leaves no winner if and only if its read saw one, or no winner was saved and left standing between its read and its save |
| BidEndings.CancelHolds | src/modules/auctions/auctions.service.ts:456-470 | a cancelled auction stays cancelled along a run if and only if none of the ends already read when it was cancelled is saved in it |
| BidEndings.LeavesOnlyInTime | src/modules/bids/bids.service.ts:51-63 | in every interleaving an auction leaves ACTIVE by the end job, by a cancellation, or at or after its end time by a sweep or a late bid |
| BidEndings.OnlyCreatorCancels | src/modules/auctions/auctions.service.ts:526-528 | in every interleaving a cancelled auction, or one whose cancellation is due to be saved, was asked to be cancelled by its creator |
| BidExclusion.CheckedHolds | src/modules/bids/bids.service.ts:65-84 | along every run with increasing creation times a call that has seen all stored bids may follow the last of them |
| BidExclusion.SerialExactly | src/modules/bids/bids.service.ts:34-109 | whatever happens to the lock, stored bids rise with no two in a row by one user if and only if every bid stored without having seen the last one is another user's and higher |
| BidExclusion.UndisturbedIsSerial | src/modules/bids/bids.service.ts:65-109 | if no bid is stored between another call's check and its insertion, the stored bids obey the bidding rules |
| BidExclusion.SoloHolds | src/modules/bids/bids.service.ts:34-158 | in every punctual run at most one call is between lock and unlock, it has seen every stored bid, and no insertion is overtaken |
| BidExclusion.Exclusion | src/modules/bids/bids.service.ts:34-158 | in every punctual run at most one call is between lock and unlock, no insertion is overtaken, and the stored bids rise strictly in creation order with no two in a row by one user |
| BidExclusion.AcceptedSoonAfterEnd | src/modules/bids/bids.service.ts:51-97 | in every punctual run an update is accepted less than 3000 ms after the end time |
| BidWitnesses.StaleWinner | src/modules/auctions/auctions.service.ts:456-470 | a run that ends with winner and highest bidder different |
| BidWitnesses.LateBidNamesStaleWinner | src/modules/bids/bids.service.ts:51-97 | the same by the save of a bid on the expired auction, without end job or sweep |
| BidWitnesses.LostBid | src/modules/bids/bids.service.ts:84-109 | a run in which a call dies between update and insertion and the price shown has no stored bid |
| BidWitnesses.AcceptedAfterEnd | src/modules/bids/bids.service.ts:51-97 | a punctual run that accepts an update two milliseconds before that bound |
| BidWitnesses.CancelledWithWinner | src/modules/auctions/auctions.service.ts:519-553 | a run that ends CANCELLED with a winner |
| BidWitnesses.CancelUndone | src/modules/auctions/auctions.service.ts:456-470 | a run in which a saved cancellation turns back into ENDED |
| BidWitnesses.SlowHolderBreaksTheRules | src/modules/bids/bids.service.ts:156-158 | a run with increasing creation times in which a lock is outlived and one user's bids are adjacent |
| Granularity.LatestIsLatest | src/modules/bids/bids.service.ts:65-69 | the bid the handler-level model takes for the latest is a maximal one by creation time |
| Granularity.UninterruptedCallIsAtomic | src/modules/bids/bids.service.ts:25-159 | an uninterrupted call, accepted or refused on any branch and by a registered user or not, leaves document, bids, the users' sets and the lock as the handler-level function does |
| BidOrder.SortDescends | src/modules/auctions/auctions.service.ts:785-788 | bids with distinct amounts sort to a strictly descending list |
| BidOrder.SortRising | src/modules/auctions/auctions.service.ts:785-788 | bids rising in creation order sort to exactly the reverse order |
| MarketService.Backend.ScheduleWinnerPaymentLifecycle | src/modules/auctions/auctions.service.ts:616-646 | due date, reminder and expiry job, stopped after any of the three writes; keeps the invariant of every run |
| MarketService.Backend.Create | src/modules/auctions/auctions.service.ts:403-454 | new state and reply of creating an auction, with its end job and notification, either of which may fail; keeps the invariant of every run |
| MarketService.Backend.PlaceBid | src/modules/bids/bids.service.ts:25-159 | new state and reply of a bid in every branch, including the save of an expired auction; keeps the invariant of every run |
| MarketService.Backend.EndAuction | src/modules/auctions/auctions.service.ts:456-470 | ends an active auction for its highest bidder and leaves any other alone; keeps the invariant of every run |
| MarketService.Backend.HandleEndAuction | src/modules/auctions/auction.processor.ts:56-137 | new state of the end job, stopped after any awaited write; keeps the invariant of every run |
| MarketService.Backend.CancelAuction | src/modules/auctions/auctions.service.ts:519-614 | refusals, or the cancelled auction, its jobs removed and creator and bidders notified; keeps the invariant of every run |
| MarketService.Backend.NotifyBidders | src/modules/auctions/auctions.service.ts:576-608 | every bidder but the creator gets the notification once, in any order; keeps the invariant of every run |
| MarketService.Backend.DeleteAuction | src/modules/auctions/auctions.service.ts:207-243 | refusals, or auction, bids and jobs gone; keeps the invariant of every run |
| MarketService.Backend.ConfirmWinnerPayment | src/modules/auctions/auctions.service.ts:663-742 | refusals, repetition, or PAID with jobs removed and notifications; keeps the invariant of every run |
| MarketService.Backend.ConfirmWinnerPaymentByProvider | src/modules/auctions/auctions.service.ts:744-782 | refusals, repetition, or PAID with jobs removed; keeps the invariant of every run |
| MarketService.Backend.HandleWebhook | src/modules/payments/payments.service.ts:143-167 | a reported failure changes nothing; a success is the provider confirmation followed by the success notifications; keeps the invariant of every run |
| MarketService.Backend.FindNextHighestBidder | src/modules/auctions/auctions.service.ts:784-800 | the loop over the top hundred bids answers the first that is not the winner's |
| MarketService.Backend.ReplaceWinnerWithNextBidder | src/modules/auctions/auctions.service.ts:802-843 | not found, no next bidder, or the replaced auction with its history entry; keeps the invariant of every run |
| MarketService.Backend.HandlePaymentExpiryDecision | src/modules/auctions/auctions.service.ts:845-1023 | new state and reply of both decisions in every branch; keeps the invariant of every run |
| MarketService.Backend.HandlePaymentExpired | src/modules/auctions/auction.processor.ts:187-327 | new state of the expiry job in both modes, stopped after any awaited write; keeps the invariant of every run |
| MarketService.Backend.GetBidStatsForUser | src/modules/auctions/auctions.service.ts:245-296 | the sweep and the three counts; keeps the invariant of every run |
| MarketEffects.SchedulingExactly | src/modules/auctions/auctions.service.ts:616-646 | a complete scheduling leaves the payment due 24 hours from now, the expiry job due exactly then and the reminder exactly 12 hours before, except that a job still queued keeps its time |
| MarketEffects.EndsOnly | src/modules/auctions/auction.processor.ts:56-137 | a complete end job on an auction without bidder, or announced or cancelled before, at most ends and flags it |
| MarketEffects.EndAnnounces | src/modules/auctions/auction.processor.ts:56-137 | otherwise it ends and flags the auction, tells the highest bidder of the win and bills them from now; nothing else changes |
| MarketEffects.RequestEndExactly | src/modules/auctions/auctions.service.ts:481-517 | accepted if and only if the creator asks and the auction is active; the end job is then due at once and nothing else changes |
| MarketEffects.CreateExactly | src/modules/auctions/auctions.service.ts:403-454 | accepted if and only if the end is after the start; the stored auction, the end job at the end time or at once, and the creator's notification, unless their writes fail |
| MarketEffects.BidExactly | src/modules/bids/bids.service.ts:25-159 | when each refusal applies and when a bid is accepted, and all it then writes: price and bidder, the bid, the user's set and one notification to the user outbid |
| MarketEffects.CancelExactly | src/modules/auctions/auctions.service.ts:519-614 | accepted if and only if the creator asks and the auction is unpaid and not cancelled; status, winner and due date, the removed jobs, and exactly the creator and the other bidders told |
| MarketEffects.DeleteExactly | src/modules/auctions/auctions.service.ts:207-243 | accepted if and only if the creator asks and the auction is unpaid; exactly this auction, its bids and its jobs go |
| MarketEffects.SweepExactly | src/modules/auctions/auctions.service.ts:1239-1250 | a listing ends exactly the selected active auctions whose end time has come and changes nothing but their status |
| MarketEffects.StatsExactly | src/modules/auctions/auctions.service.ts:254-271 | the statistics do the same to the auctions the user has bid on, and answer if and only if there is such a user |
| MarketEffects.ConfirmExactly | src/modules/auctions/auctions.service.ts:663-742 | a winner's confirmation pays if and only if the auction is ended, unpaid and theirs, is a repetition if and only if it is paid and theirs, and then changes nothing; paying changes only the payment status, removes the winner's two jobs and tells winner and creator |
| MarketEffects.ProviderExactly | src/modules/auctions/auctions.service.ts:744-782 | the same for the provider's report, whose expected winner, if any, must be the winner |
| MarketEffects.WebhookExactly | src/modules/payments/payments.service.ts:143-167 | a reported failure changes nothing; a success, new or repeated, leaves winner and creator told |
| MarketEffects.ReminderExactly | src/modules/auctions/auction.processor.ts:139-185 | a reminder is written for the unpaid winner and for nobody else |
| MarketEffects.ExpiryTells | src/modules/auctions/auction.processor.ts:187-257 | an expiry job of anybody but the unpaid winner does nothing; one that does not replace the winner tells them and asks or informs the creator |
| MarketEffects.ExpirySwitches | src/modules/auctions/auction.processor.ts:259-327 | one that replaces the winner makes the backup winner at their own bid, bills them from now and tells both |
| MarketEffects.DecisionRefused | src/modules/auctions/auctions.service.ts:845-873 | when a decision is refused, and that it then changes nothing |
| MarketEffects.KeepExactly | src/modules/auctions/auctions.service.ts:875-928 | keeping the winner renews due date and both jobs from now and tells winner and creator |
| MarketEffects.PushExactly | src/modules/auctions/auctions.service.ts:930-1023 | pushing the next bidder removes the displaced winner's two jobs, bills the new winner from now, and tells the old winner, the new one and the creator |
| MarketRuns.CutoffIsExact | src/modules/auctions/auctions.service.ts:784-800 | on any bids the cut-off search agrees with an unbounded one if and only if one of the top hundred is somebody else's or all bids are the winner's |
| MarketResults.CutoffMisses | src/modules/auctions/auctions.service.ts:784-800 | a hundred and one bids on which the search misses the other bidder |
| MarketRuns.BackupUnderRules | src/modules/auctions/auctions.service.ts:784-800 | under the bidding rules the answer is one of the two top bids and is the best bid of anybody else |
| MarketRuns.QuietStep | src/modules/auctions/auctions.service.ts:456-843 | every handler that stores and deletes no bid changes any auction in one of six ways only, and marks PAID only an ended auction with a winner whose payment it confirms |
| MarketRuns.LoudStep | src/modules/bids/bids.service.ts:84-97 | of the other handlers an accepted bid raises an active auction's price and a deletion by the creator removes an unpaid one; other auctions stay |
| MarketRuns.SwitchKeepsOk | src/modules/auctions/auctions.service.ts:802-843 | a replacement passes the turn to the other of the two top bidders and keeps the invariant |
| MarketRuns.BidKeepsOk | src/modules/bids/bids.service.ts:84-109 | an accepted bid keeps the bidding rules and what the auction shows |
| MarketRuns.StepKeeps | src/modules/auctions/auction.processor.ts:39-54 | every request and every job delivery, stopped anywhere, keeps the invariant |
| MarketRuns.RunKeeps | src/modules/auctions/auctions.service.ts:207-1023 | the invariant holds in every world a run reaches from an empty database |
| MarketResults.BackupSearchIsComplete | src/modules/auctions/auctions.service.ts:784-800 | in every reachable world the cut-off search gives the largest bid of anybody else, and nothing exactly when nobody else has bid |
| MarketResults.WinnerHoldsOwnBest | src/modules/auctions/auctions.service.ts:802-843 | a set winner is the highest bidder of an ended auction, is not the creator, and the price is exactly that winner's own best bid |
| MarketResults.LinkChargesOwnBest | src/modules/payments/payments.service.ts:270-350 | a payment link goes to the winner of an unpaid auction for their own best bid, and a registered winner and the creator can always make one |
| MarketResults.HistoryAlternates | src/modules/auctions/auctions.service.ts:822-837 | history followed by winner and price alternates between the two highest bids starting with the top one, so the number of replacements decides both |
| MarketResults.TwoReplacementsRestore | src/modules/auctions/auctions.service.ts:802-843 | two replacements restore winner, highest bidder and price |
| MarketResults.HistoryOnlyGrows | src/modules/auctions/auctions.service.ts:822-830 | while an auction is stored its winner history only grows by appending |
| MarketResults.PaidIsFinal | src/modules/auctions/auctions.service.ts:663-782 | from PAID on nothing but the notified flag and the due date changes, and the auction is never deleted, over every run |
| MarketResults.PaidOnlyByTheWinner | src/modules/auctions/auctions.service.ts:744-774 | PAID is reached only from ENDED with a winner, by a confirmation that names that winner or a successful webhook that names nobody |
| MarketNotes.NotificationsAreStable | src/modules/notifications/notifications.service.ts:44-60 | a stored notification never changes, whatever is created under its key later |
| MarketEndings.EndingNames | src/modules/auctions/auctions.service.ts:1239-1250 | of all handlers that end an active auction only a sweep does not name the highest bidder as winner |
| MarketEndings.SweptExactlyWithoutWinner | src/modules/auctions/auctions.service.ts:461-467 | in every reachable world an ended auction has no winner if and only if nobody bid on it or the event that last took it out of ACTIVE was a sweep |
| MarketEndings.LinkExactly | src/modules/payments/payments.service.ts:270-308 | in every reachable world a payment link can be made if and only if the auction is ended, unpaid and has bids, no sweep ended it, the bidder whose turn it is after the replacements so far is registered, and the actor is that bidder or the creator |
| MarketEndings.ToldWinnerCanPay | src/modules/auctions/auction.processor.ts:83-117 | a holder of a won notification of an auction that no step of the run deletes is one of its two top bidders, and can make a payment link if and only if registered, the auction is ended and unpaid, no sweep ended it and it is their turn |
| MarketWitnesses.ToldButSwept | src/modules/auctions/auctions.service.ts:259-270 | a run in which a registered bidder is told of the win and neither they nor the creator can make a payment link |
| MarketEndings.RemindsWhoCanPay | src/modules/auctions/auction.processor.ts:139-185 | a reminder adds at most its own notification, and stores it if and only if its registered recipient is the winner and can make a payment link |
| MarketEndings.ImmediateEndEnds | src/modules/auctions/auctions.service.ts:481-517 | an accepted request leaves the end job due at once however it was queued before and changes nothing else, and its delivery ends the auction for its highest bidder |
| MarketTimes.JobsAreOnTime | src/modules/auctions/auctions.service.ts:412-426 | in every run, killed jobs included, each queued job is due as the event that queued it says: an end job at the end time or at once, a reminder 12 and an expiry 24 hours after the winner was billed |
| MarketTimes.DatesAreOnTime | src/modules/auctions/auctions.service.ts:620-625 | in every run a payment is due 24 hours after the event that last set its date |
| MarketTimes.ExpiryAgreesWithDate | src/modules/auctions/auctions.service.ts:616-646 | in every run a queued expiry job agrees with the stored due date if and only if both were set at the same time |
| MarketTimes.BillersBill | src/modules/auctions/auction.processor.ts:56-327 | in every run a winner whom a complete end job, expiry or decision names or announces has a due date from that moment and both jobs queued |
| MarketTimes.BilledUntilTaken | src/modules/auctions/auction.processor.ts:187-327 | in runs whose jobs complete a billed winner who has not paid has their expiry job queued, unless the queue itself was the last to take it out |
| MarketTimes.LeavesOnlyInTime | src/modules/auctions/auctions.service.ts:259-270 | in every run an auction leaves ACTIVE only through its end job, its creator, or at or after its end time a listing that selects it or a bid by somebody else |
| MarketPayments.LinkStaysRight | src/modules/payments/payments.service.ts:270-350 | along every later run that keeps the auction, the payer of a link is the winner again if and only if the number of replacements since is even, and the price is then the amount of the link |
| MarketPayments.PaymentCredits | src/modules/auctions/auctions.service.ts:744-782 | a report of that payment naming the payer is accepted if and only if the number of replacements since is even, and then credits them the amount of the link; one naming nobody is accepted for the winner by then, so it credits the payer if and only if that number is even |
| MarketWitnesses.PaymentCreditedToNext | src/modules/auctions/auctions.service.ts:744-782 | a run in which a payment reported without a name is credited to the next bidder at their own price |
| MarketPayments.PaidIsTold | src/modules/auctions/auctions.service.ts:678-709 | in every run winner and creator of a paid auction hold a notification of the payment |
| MarketPayments.PaidIsBilledExactly | src/modules/auctions/auction.processor.ts:56-137 | an expiry job of a paid auction's winner comes back if and only if an end job is delivered that finds the win unannounced and makes its fifth write |
| MarketWitnesses.ExpiryBeforeDate | src/modules/auctions/auctions.service.ts:616-646 | a run with a killed end job after which the expiry job is due before the stored due date |
| MarketWitnesses.PaidButBilled | src/modules/auctions/auction.processor.ts:56-137 | a run in which a paid auction gets payment jobs |
| MarketResults.StatsCountEverything | src/modules/auctions/auctions.service.ts:245-296 | the filtered counts equal the unfiltered ones in every reachable world, also after deletions |
| Redelivery.AttemptFrom | src/modules/auctions/auction.processor.ts:56-137 | an attempt stopped anywhere keeps the job under way or completed, and a full one completes it |
| Redelivery.EndRedelivered | src/modules/auctions/auction.processor.ts:56-137 | after any number of killed attempts the completing one leaves the auction up to the due date, the notifications and the jobs of one clean run: one won notification, one reminder, one expiry job |
| Redelivery.EndDatesThird | src/modules/auctions/auctions.service.ts:620-625 | of an end job killed anywhere the due date is there from the third write |
| Redelivery.ExpiryDatesThird | src/modules/auctions/auction.processor.ts:220-297 | of a switching expiry job killed anywhere the notification of the expiry is there from the first write and the due date from the third |
| Redelivery.ExpiredOnce | src/modules/auctions/auction.processor.ts:187-327 | any number of deliveries for one winner, whole or killed, replaces that winner at most once, by somebody else |
| Redelivery.SwitchIsNotFinished | src/modules/auctions/auction.processor.ts:187-327 | after any deliveries of a switching expiry job, whole or killed, the new winner's reminder, expiry job and notification are there if and only if they were before or the first delivery that replaced the winner came as far as writing them |
| Redelivery.ExpiryJobLost | src/modules/auctions/auction.processor.ts:261-297 | rerun until it completes, the job leaves the new winner's expiry job queued if and only if the first replacing attempt reached its fifth write |
| MarketWitnesses.NewWinnerForgotten | src/modules/auctions/auction.processor.ts:261-297 | a run from an empty database in which the new winner has no reminder, no expiry job and no notification after the redelivery |
| PaymentRace.TimedHolds | src/modules/auctions/auctions.service.ts:802-837 | in every interleaving the order in which the steps of confirmation and replacement took effect determines winner, payment status and where both stand |
| PaymentRace.OrderDecides | src/modules/auctions/auctions.service.ts:807-837 | for the expiry job and for the creator's decision: a payment stays with its payer if and only if it was saved before the check, is forgotten if and only if saved between check and second read, and credited to the next bidder if and only if saved after the second read |
| PaymentRace.StaleJobIsHarmless | src/modules/auctions/auction.processor.ts:189-203 | an expiry job queued for another winner never touches the payment |
| PaymentRace.PaymentForgotten | src/modules/auctions/auctions.service.ts:807-837 | an interleaving that forgets a confirmed payment |
| PaymentRace.PaymentMisattributed | src/modules/auctions/auctions.service.ts:807-837 | an interleaving that credits it to the next bidder |
| TopBidders.PipelineIsLeaderboard | src/modules/auctions/auctions.service.ts:313-388 | on distinct amounts the pipeline gives the leaderboard in whatever order rows are grouped |
| TopBidders.LeaderboardUnique | src/modules/auctions/auctions.service.ts:303-388 | the leaderboard is uniquely determined by its direct description |
| TopBidders.TopBiddersInEveryRun | src/modules/auctions/auctions.service.ts:298-401 | in every reachable world the query answers the leaderboard, and without a replacement its first row is the highest bidder at the current price |
| FetchCache.Cache.Get | src/modules/auctions/auctions.service.ts:72-113 | joins the pending fetch, answers the live value, or starts a fetch and records it |
| FetchCache.Cache.OnResolved | src/modules/auctions/auctions.service.ts:166-173 | the delivered value replaces the entry, with a new expiry and nothing pending |
| FetchCache.Cache.OnRejected | src/modules/auctions/auctions.service.ts:174-182 | removes the entry only if this fetch is its pending one |
| FetchCache.SingleFlight | src/modules/auctions/auctions.service.ts:76-112 | at most one fetch per key is running, and it is the entry's pending one |
| FetchCache.AnswersAreFresh | src/modules/auctions/auctions.service.ts:76-112 | every answer comes from a delivery younger than the lifetime, from the running fetch, or from one started now because there is none |
| FetchCache.StartsOnlyWhenStale | src/modules/auctions/auctions.service.ts:79-85 | a fetch starts if and only if the key has no entry, or a value past its expiry and nothing pending |
| FetchCache.FailureClears | src/modules/auctions/auctions.service.ts:96-104 | a failed fetch leaves no entry for its key and all others alone, and the next call starts afresh |
| FetchCache.FetchesAreRare | src/modules/auctions/auctions.service.ts:72-113 | in any window of length T of any run at most T / ttl + 1 fetches start for a key, plus one per failure |
| Accounts.AccountStore.HandleLogin | src/modules/auth/auth.service.ts:688-766 | reply, new counter and lock of a login in every branch, and whether the password was compared |
| Accounts.AccountStore.HandleIssue | src/modules/auth/auth.service.ts:437-450 | stores a code with its expiry unless the account has only Google sign-in |
| Accounts.AccountStore.HandleReset | src/modules/auth/auth.service.ts:640-665 | refuses a wrong or expired code, or sets the password and uses the code up |
| Accounts.CounterStaysSmall | src/modules/auth/auth.service.ts:722-728 | the failure counter stays below five over every run |
| Accounts.LoginExactly | src/modules/auth/auth.service.ts:688-766 | when a login is refused without looking at the password, granted, or counted, each if and only if, and what it leaves: nothing, no failures and no lock, one failure more, or at the fifth a lock of 15 minutes |
| Accounts.NoLoginWhileLocked | src/modules/auth/auth.service.ts:697-712 | over every run before a lock's deadline no login succeeds, no password is looked at and the lock stays |
| Accounts.FiveFailuresLock | src/modules/auth/auth.service.ts:722-728 | after five wrong passwords in a row nothing can log in or look at a password for 15 minutes |
| Accounts.AllowanceStep | src/modules/auth/auth.service.ts:697-759 | every event uses up at least as much of the remaining allowance as it compares passwords |
| Accounts.LockoutBoundsGuessing | src/modules/auth/auth.service.ts:697-759 | in any run a window of length T without a successful login has at most 5 (T / 15 min + 1) attempts whose outcome depends on whether the password matches |
| Accounts.BarrageReachesBound | src/modules/auth/auth.service.ts:726-728 | an unlocked account can be made to compare five passwords in each of any number of rounds |
| Accounts.BarrageFitsWindow | src/modules/auth/auth.service.ts:23-24 | those rounds take one lock window less than their number, so the bound is tight |
| Accounts.MarksPairUp | src/modules/auth/auth.service.ts:629-665 | along a run every reset directly follows the issue of its own code, in time |
| Accounts.ResetsUseTheirOwnCode | src/modules/auth/auth.service.ts:629-665 | every successful reset has its own issue at most ten minutes earlier with nothing in between, and resets never outnumber issues |
| Accounts.ResetExactly | src/modules/auth/auth.service.ts:629-665 | when a code is issued and when a reset succeeds, each if and only if, and what they leave |
| Accounts.CodeWorksTenMinutes | src/modules/auth/auth.service.ts:640-658 | a code neither replaced nor used sets the new password if and only if at most ten minutes have passed since its issue, whatever else happens |
| AccountRace.UndisturbedIsSerial | src/modules/auth/auth.service.ts:629-766 | overlapping handlers of an account, none of which saves after something was saved since its read, do and compare what they would one at a time in the order of their saves |
| AccountRace.SavesAreIndependent | src/modules/auth/auth.service.ts:722-766 | whatever overlaps, finishing a login never touches what other handlers store, nor they its counter and lock |
| AccountRace.LockedExactly | src/modules/auth/auth.service.ts:720-759 | the fifth wrong password on a clean account locks it if and only if none of the five logins saves after another saved since its read |
| AccountRace.CodesUsedOnce | src/modules/auth/auth.service.ts:629-665 | in every interleaving each issued code is used at most once if and only if no reset saves after another that used the same code saved since its read |
| AccountRace.TwoResetsOneCode | src/modules/auth/auth.service.ts:640-665 | an interleaving in which one code is used twice |
| AccountRace.GuessesNotCounted | src/modules/auth/auth.service.ts:720-759 | overlapping logins that all read before any saves compare any number of wrong passwords, and the counter ends at one |
| Paging.FirstPagesArePrefix | src/modules/auctions/auctions.service.ts:61-70 | the first n pages are exactly the first n times limit elements |
| Paging.PagesPartition | src/modules/auctions/auctions.service.ts:1089-1100 | pages 1 to totalPages concatenate to the whole list, none of them is empty and every later page is |
| Paging.Clamped | src/modules/auctions/auctions.service.ts:61-70 | missing page and limit mean 1 and 20, out-of-range ones the nearest of page 1 and limits 1 and 100, requests in range are kept, the skip is that of the earlier pages, and normalizing again changes nothing |
| LinkIds.LinkRoundTrip | src/modules/payments/payments.service.ts:61-70 | reading a printed link id gives its auction back for every object id and time |
| LinkIds.LinkFits | src/modules/payments/payments.service.ts:320-326 | a printed link id passes the length check if and only if the time has at most seventeen digits |
| LinkIds.LinkIdsDistinct | src/modules/payments/payments.service.ts:320 | different auctions or times get different link ids |
| LinkIds.ExtractIsSecondPart | src/modules/payments/payments.service.ts:61-70 | on any string the reader answers an id if and only if it is the second underscore-separated part and an object id |
| Metrics.ObservabilityMetrics.RecordHttpRequest | src/common/observability/observability-metrics.service.ts:48-72 | both maps and the total after one request |
| Metrics.ReplayMeans | src/common/observability/observability-metrics.service.ts:48-72 | after any requests both maps have the same keys and counts, and count, sum, minimum and maximum of a key are those of its durations |
| Metrics.SumBetween | src/common/observability/observability-metrics.service.ts:59-70 | count times minimum is at most the sum, which is at most count times maximum |
| Metrics.LargestWasMeasured | src/common/observability/observability-metrics.service.ts:51-56 | without negative durations the maximum is one that was measured |
| Metrics.TotalIsSum | src/common/observability/observability-metrics.service.ts:71 | the total is the sum of all counters |
| Metrics.LabelsRoundTrip | src/common/observability/observability-metrics.service.ts:138-143 | splitting a key gives the recorded labels back if and only if the route contains no bar |
| Metrics.UpperExactly | src/common/observability/observability-metrics.service.ts:235-237 | the method is recorded letter by letter in upper case |

## Left out

- Deletion between awaits: `BidProtocol` has no step that deletes the auction document; deletion is a
  handler-level event.
- Malformed auction ids: every id is taken to be a valid object id.
- Store failures inside handlers: the handler-level runs stop handlers after any awaited write only for the
  job handlers; the caught failures of single notifications are modelled for creation only.
- Equal creation times: handler-level runs give the bids of one auction strictly increasing creation times;
  the await-level results that need this say so.
- Socket emits, titles, messages and metadata of notifications, and their reading and deletion by users.
- Wishlists, the bidded-auctions listing, queue status, category keys of the cache and the projections.
- Cashfree, SMTP, Google token verification, JWT and bcrypt: only their outcomes appear as inputs. A verified
  payment link is the webhook event with the current winner as the expected one.
- BullMQ retries, backoff and retained failed jobs: any delivery at any time covers them.
- Concurrent upserts of one dedupe key: each upsert is one atomic step.
- Signup, e-mail verification codes and profile updates: they touch neither the lock nor the reset code.
- Lockout under overlapping logins: `Accounts.LockoutBoundsGuessing` takes the handlers of one account one at a
  time; for overlapping ones only `AccountRace` holds. Each request has one time, for its checks and its save.
- Clock changes and daylight saving in code expiry: ten minutes are 600000 milliseconds.
- Metrics: queue counters and the text exposition; upper case is that of the ASCII letters.
- LinkIds.LinkFits: timestamps are printed in plain decimal, as they are below 10^21.
