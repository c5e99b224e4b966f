# Live orders, fills and the forward books: a verified model

This project models the parts of the trading platform that must not lose or invent money, and proves what they
promise. Its centre is the live order-and-fill protocol of the Upstox adapter together with its restart path; around
it stand the paper combo book, the fetchers' limiter and date windows, the telemetry bridge, the replay's equity
curve, dealer gamma exposure and the time-to-expiry clock.

## How it is built

**The adapter.** `FillPoll` states what each operation of the adapter does as a function of its three collections, the
replies and the fee model. `UpstoxAdapter` holds the class itself: the insertion-ordered `_pending` dictionary, the
unconfirmed placements, the watched orders and the watch clock, updated in place by methods with the source's own
loops, each proved to compute its function. `SweepLaws`, `PollLaws`, `AbortLaws`, `BookLaws`, `LookUpLaws`,
`Adoptions` and `Replies` then prove what holds for *arbitrary* replies, malformed ones included: exact value
accounting, fairness, a complete report, and what each collection gains and loses.

**The whole system.** `World` puts Upstox's truth and the persistent ledger (totals per order, and the fill ids that
make its insert-or-ignore idempotent) beside the adapter's state. Upstox is assumed honest only here: an order's
executions only grow, a terminal status is final, ids are fresh, and a reply that can be read tells some past state of
the order. It may be stale, unreadable, refused or missing at any time. `Runs` is the state machine of a day:
placements, executions, order ends, polls, and crashes after any number of a poll's fills followed by a restart from
the ledger. One invariant, `World.Good`, is kept by every event, and the end-to-end theorems follow from it.
`Lifetime`, `Reported`, `Booking`, `Restart`, `FnoRunner` and `Replay` complete it: each ended order is reported once,
no fill is ever dropped as a duplicate, and a restart accounts for every open order, which it reads off the replayed
tables exactly as the ledger has them. `Day` walks through one concrete day with a crash, so the assumptions can all
be met at once.

**The rest.** `Combo` is the forward runner with its store, hook and retry loop, and `ComboUpdates` its short-circuit
over any history of the facts file, with a failure at any point. `RateLimiter`, `DateChunks`, `Telemetry`, `Equity`,
`Gex` (with `GexRows` for what one row contributes) and `Expiry` each prove the property their component exists for.
`InsertionDict` is a Python dictionary with its key order, `Orders` the shared vocabulary and the sums over fills.

Prices, fees and times are exact reals, quantities are unbounded integers, exceptions are result values, and
everything read from outside is a parameter, universally quantified.

## What the proofs found

Properties one would expect of the code that do not hold, each with the exact condition under which it does:

- A poll does not always report what it saw end. An order that ended rejected or cancelled leaves the poll, and no
  error carries it, exactly when a later order of the same sweep is the first that does not let the sweep go on and is
  answered with a 401 or 403, or with an oversized price (`AbortLaws.EndedOrdersAreCarried`,
  `AbortLaws.AbortLosesEndedOrder`; which replies abort a poll is `AbortLaws.AbortedExactly`).
- `_average_price` catches TypeError and ValueError but not the OverflowError of an integer too large for a float, so
  one such reply escapes the whole poll (`AbortLaws.UncaughtExactly`, `AbortLaws.OversizedPriceEscapes`). While an
  order's reply aborts every sweep that reaches it, no order behind it is ever asked about, whatever else Upstox
  replies and shows in its book and whatever is placed in between (`AbortLaws.AbortsStarve`).
- An order book that shows an order under an id already polled overwrites the entry there. Every pending order is
  kept, and every order a look-up adopts polled as itself, exactly when the ids found are all different and none was
  pending (`Adoptions.AdoptedArePolled`, `Adoptions.ConfirmationOverwrites`). With an honest book and distinct orders
  they always are (`Lifetime.HonestIsPolled`).
- The number of orders logged as resumed is right, and every order found in the book is polled as itself, exactly when
  no broker id is found for two orders. Of a pair sharing tag, side and quantity one is polled, both are counted, and
  neither is named in an alert (`Restart.ResumedCountIsExact`, `Restart.FoundArePolled`,
  `Restart.TwinsAreMiscounted`).
- The combo runner's mtime short-circuit loses no update, in any run, exactly when an mtime never comes back with
  something new: a version repeating an earlier one's mtime may add no date to, and may not change the latest date of,
  any version in between (`ComboUpdates.NoUpdateIsLost`). A repeated mtime with a new latest date always loses it
  (`ComboUpdates.SharedMtimeLosesUpdate`).
- The bridge's full-queue check and its drop are two actions, so a client that takes in between loses an envelope from
  a queue with room: the queue was still full exactly when the client had taken nothing since
  (`Telemetry.LossesComeFromFullQueues`, `Telemetry.LossWithRoom`).
- The comment at scripts/fetch_upstox_historical.py:82-87 says a 29-day window overshoots a month from any February
  start. It does so from a common-year February and also from January 31 of a common year, and never in a leap year
  (`DateChunks.TwentyNineDaysOvershoot`). The 27-day cap is safe, and so is 28.
- The report recovers the net returns not only when all of them exceed -1: it does so exactly when no return before
  the last equals -1 (`Equity.MonthlyIsSeries`).

## Model

| member | source | states |
|---|---|---|
| Requests.MakeRequest | core/brokers/upstox_adapter.py:173-228 | At least one and at most `attempts` calls; every call before the last came back retryable, and the result is the last one's; the final raise is reached only for `attempts` of zero or less |
| Requests.RequestMeans | core/brokers/upstox_adapter.py:173-228 | A request that places nothing: a 401 or 403 is an auth failure, a body is the reply, and everything else is unavailable, each exactly |
| Requests.PlacementIsSound | core/brokers/upstox_adapter.py:316-361 | If Upstox accepted the order the placement ends with its id or as ambiguous; an id names the accepted order; a refusal, auth failure or rate limit means it was not accepted |
| Requests.PlacementMeans | core/brokers/upstox_adapter.py:316-361 | How each reply ends a placement: a 401 or 403 is denied, a 429 unavailable, another 4xx or an explicit error refused, one usable id placed under it, each exactly; a fault, no answer or an unreadable body is ambiguous |
| Requests.AmbiguousMeansUndecided | core/brokers/upstox_adapter.py:231-236 | A placement is ambiguous exactly when the reply is consistent both with an accepted order and with none |
| Replies.FetchOrder | core/brokers/upstox_adapter.py:363-389 | A details request is one call; which failures are auth, unreachable or a contract error, each as an if-and-only-if, and the fields read otherwise; filled, rejected and cancelled exactly on their texts |
| Replies.StatusMeans | core/brokers/upstox_adapter.py:65-87 | Each of the five statuses is read exactly from its own texts, lower-cased; any other text is none of them |
| Replies.CompleteAndCancelled | core/brokers/upstox_adapter.py:525-542 | Of a reply the poll accepts: "complete" ends the order silently if all of it is filled and is a contract error if not, "cancelled" ends it unfilled with what it has, and "open" keeps it |
| Replies.FetchOrderBook | core/brokers/upstox_adapter.py:550-560 | The book is exactly the list of either documented shape in the last reply; at most `attempts` calls, each but the last retryable |
| Replies.StatusIgnoresCase | core/brokers/upstox_adapter.py:380-388 | A status means the same in any capitalisation |
| Replies.TagsAreAccepted | core/brokers/upstox_adapter.py:116-121 | Every signal id's tag has 1 to 40 plain characters, and a tag is its own tag; a plain id of at most 40 characters keeps its own, any other takes the first 40 of its digest |
| Replies.PlainChars | core/brokers/upstox_adapter.py:103 | The plain characters by code point: capital and small letters, digits, hyphen and underscore |
| Replies.OnlyDigestsCollide | core/brokers/upstox_adapter.py:99-121 | Two different signal ids share a tag only if one of them was hashed |
| Orders.FillIdInjective | core/brokers/upstox_adapter.py:512-513 | `broker_id-filled` is unique: equal texts come from equal ids and quantities, dashes in broker ids included |
| Orders.JsonReads | core/brokers/upstox_adapter.py:397-417 | A filled quantity is read exactly from a whole number or text that is one; a price from a positive number, text that is one, or true; only an oversized integer overflows |
| Orders.StrReads | core/brokers/upstox_adapter.py:512-513 | The digits written into a fill id read back as the number, with no zero in front |
| UpstoxAdapter.Adapter.PlaceOrder | core/brokers/upstox_adapter.py:249-349 | At most one POST, none when the payload cannot be built; an id is recorded pending, an ambiguous order unconfirmed, and any other outcome changes nothing |
| UpstoxAdapter.Adapter.PollOne | core/brokers/upstox_adapter.py:484-542 | The in-place poll of one order computes `PollOrder` on its entry: new entry or removal, fills appended, verdict |
| UpstoxAdapter.Adapter.BookMatches | core/brokers/upstox_adapter.py:562-581 | The loop collects exactly the matching ids, and those with the tag on another side or quantity, in book order |
| UpstoxAdapter.Adapter.LookUpOrders | core/brokers/upstox_adapter.py:445-462 | Looking up unconfirmed and watched orders over snapshots while updating the live dictionaries computes `LookUp` |
| UpstoxAdapter.Adapter.SweepPending | core/brokers/upstox_adapter.py:463-482 | The loop over the snapshot of ids, with its break, continue and reordering, computes `Sweep` |
| UpstoxAdapter.Adapter.Poll | core/brokers/upstox_adapter.py:420-482 | One whole `poll_fills`: new state, fills handed to the callback, calls made and what was raised |
| UpstoxAdapter.Adapter.ResumeOrders | core/brokers/upstox_adapter.py:638-671 | No orders: nothing asked; a book that cannot be read: nothing changed and its error propagates; otherwise the state of `Resume`, and the lists are, in order, the orders no entry with an id carries the tag of, those shown more than once, and those carried but never with their side and quantity |
| BookLaws.FindMeans | core/brokers/upstox_adapter.py:657-671 | What a book finds for an order, over its entries: missing exactly when no entry with an id carries the tag, elsewhere when some does but none with its side and quantity, twice when two entries match, found under an id when one entry alone matches and has it |
| BookLaws.ResumeShows | core/brokers/upstox_adapter.py:657-671 | For any book the three lists of a resume are exactly the orders absent from it, repeated in it and changed in it, in order |
| BookLaws.AbsentAreWatched | core/brokers/upstox_adapter.py:668-670 | After a resume exactly the orders absent from the book are newly watched, each with what the ledger holds |
| BookLaws.ShownArePolled | core/brokers/upstox_adapter.py:657-663 | After a resume an id is polled exactly if it was before or the book shows one of the orders once, under it: the last such order, with the ledger's quantity and price and the fee model's price of them |
| SweepLaws.OnePoll | core/brokers/upstox_adapter.py:484-542 | Any reply: at most one fill, positive in quantity and price, worth the growth of filled times average, its fee the growth of the stored fee, within the ordered quantity; without a fill the entry is untouched |
| SweepLaws.NewPartCost | core/brokers/upstox_adapter.py:496-503 | A new fill's quantity times price is the cumulative quantity times its average price, less what was reported before times its own |
| SweepLaws.ContractErrorKeepsTheFill | core/brokers/upstox_adapter.py:484-533 | On any acceptable reply with a new quantity the fill is booked, and a contract error follows exactly if the status is unreadable or says complete too early |
| SweepLaws.LeavesExactly | core/brokers/upstox_adapter.py:525-542 | When an order leaves the poll and as what: exactly on an acceptable reply that is rejected, cancelled, or complete in full |
| SweepLaws.Telescopes | core/brokers/upstox_adapter.py:488-523 | Over any sequence of replies: fills sum in quantity to reported minus seed, in value to average times filled minus the seed's, in fees to the stored fee minus the seed's, and never pass the order |
| SweepLaws.ChainIdsRise | core/brokers/upstox_adapter.py:512-523 | The fills of one order carry strictly rising cumulative quantities in their ids, so no two ids are equal |
| SweepLaws.FeesCatchUp | core/brokers/upstox_adapter.py:504-522 | However often the fee model failed before, once its own call on the filled quantity gives x all fees charged equal x less the seed |
| SweepLaws.NewFee | core/brokers/upstox_adapter.py:504-522 | A new fill charges the model's price of the quantity filled so far less what earlier fills carried; where the model fails it charges nothing and the stored fee stays |
| SweepLaws.SweepIsExpected | core/brokers/upstox_adapter.py:463-482 | The loop with running totals and early exits equals reading the orders one at a time: ended ones close the gap, an unreachable one goes last, others keep their place, nothing is asked after a stop |
| PollLaws.SweepAsksOnce | core/brokers/upstox_adapter.py:463-475 | Each sweep asks about each order at most once, in key order, and at most its last call is unreachable |
| PollLaws.NoStarvation | core/brokers/upstox_adapter.py:463-482 | An order at index k is asked about within k+1 sweeps that are not aborted, whatever is replied or placed in between and however many aborted sweeps intervene |
| PollLaws.PassedOverMovesUp | core/brokers/upstox_adapter.py:467-475 | An order a sweep did not reach stays pending and never moves back, and moves strictly forward after an outage |
| PollLaws.SilenceMeansClean | core/brokers/upstox_adapter.py:673-698 | A poll returns normally exactly when the book could be read if needed, nothing is unconfirmed, and every pending order answered as live or complete |
| AbortLaws.SilenceExactly | core/brokers/upstox_adapter.py:673-698 | The same over the replies and the book's entries: each unconfirmed placement shown once, and each pending order's reply readable and either not terminal or complete in full |
| AbortLaws.VerdictsMean | core/brokers/upstox_adapter.py:488-542 | What one order's poll ends as, over its entry and reply: live, complete, ended unfilled, a contract error, deferred, denied or uncaught, each as an if-and-only-if |
| AbortLaws.NewPriceIsPositive | core/brokers/upstox_adapter.py:496-503 | The price of a newly filled part is positive exactly when the order's cumulative value has grown |
| AbortLaws.AbortedExactly | core/brokers/upstox_adapter.py:445-482 | Which replies abort a poll: a denied book it needs, or, at the first order that does not let the sweep go on, a 401, 403 or oversized price; both directions |
| AbortLaws.UncaughtExactly | core/brokers/upstox_adapter.py:407-417 | An exception escapes the whole poll exactly when the order that aborts the sweep is newly filled at a price too large to convert |
| AbortLaws.EndedOrdersAreCarried | core/brokers/upstox_adapter.py:696-698 | What is raised carries exactly the orders that ended rejected or cancelled, if and only if no order aborts the sweep behind one that ended |
| AbortLaws.AbortLosesEndedOrder | core/brokers/upstox_adapter.py:441-442 | A concrete poll whose rejected order leaves the poll and is carried by no error |
| AbortLaws.AbortsStarve | core/brokers/upstox_adapter.py:463-479 | While one order's reply aborts every sweep that reaches it, no order behind it is ever asked about, over any polls with any other replies and look-ups and any placements between; from the front it lets no sweep complete |
| AbortLaws.OversizedPriceEscapes | core/brokers/upstox_adapter.py:407-417 | A concrete poll, one unit of five filled at an oversized price, that the exception escapes |
| AbortLaws.MostSevereIsRaised | core/brokers/upstox_adapter.py:673-698 | Which of the four errors a poll that no reply aborts raises, each as an if-and-only-if over what happened to the orders and the book |
| LookUpLaws.MatchIff | core/brokers/upstox_adapter.py:562-581 | An id matches exactly when some book entry has it with the order's tag, side and quantity |
| LookUpLaws.ConfirmedIff | core/brokers/upstox_adapter.py:616-636 | A poll that reads the book takes a placement out of the unconfirmed ones exactly when the book shows it once |
| Adoptions.ConfirmedIsAdopted | core/brokers/upstox_adapter.py:629-630 | A placement taken out is adopted under the one id found for it, with nothing filled, and that id is pending when the sweep starts, as exactly that if the ids found are new and distinct |
| LookUpLaws.WatchedIff | core/brokers/upstox_adapter.py:583-600 | A poll that reads the book takes an order out of the watch exactly when no check was made in the last 30 seconds and the book shows it once |
| Adoptions.WatchedIsAdopted | core/brokers/upstox_adapter.py:601-614 | It is adopted under that id with what the ledger held and the fee model's price of it, nothing if there is nothing or the model fails; its id is pending when the sweep starts and the clock reads the poll's time |
| LookUpLaws.ClockIs | core/brokers/upstox_adapter.py:583-589 | The watch clock is set to the poll's time by exactly the polls that check, and no other |
| LookUpLaws.LookUpReports | core/brokers/upstox_adapter.py:445-462 | A look-up reports an outage exactly when something is unconfirmed and the book is out of reach, and a contract error exactly when something is and the book is unusable or shows one of them twice |
| Adoptions.AdoptedArePolled | core/brokers/upstox_adapter.py:593-630 | When the sweep starts every previously pending order is as it was and every adopted one is polled as itself, if and only if the ids found are all different and none was pending |
| Adoptions.ConfirmationOverwrites | core/brokers/upstox_adapter.py:629-630 | A concrete look-up that overwrites a pending order, which nothing tracks afterwards |
| LookUpLaws.UnreadBookConfirmsNothing | core/brokers/upstox_adapter.py:448-457 | Without a readable book no unconfirmed or watched order moves |
| LookUpLaws.WatchingIsThrottled | core/brokers/upstox_adapter.py:583-589 | A poll within the interval of a watch check looks no watched order up, and with nothing unconfirmed does not depend on the book at all |
| WorldSteps.PollKeepsGood | core/brokers/upstox_adapter.py:420-542 | A poll keeps adapter, ledger and Upstox in agreement, and a crash after any number of its fills leaves a sound ledger |
| Restart.ResumeKeepsGood | core/brokers/upstox_adapter.py:638-671 | Resuming from the ledger restores the agreement; only orders shown twice or changed are left to the alerts |
| Restart.ResumeReports | core/brokers/upstox_adapter.py:657-671 | The three lists partition what is handed back by how the book shows it, over the book's entries, and in order |
| Restart.ResumePartitions | scripts/fno_runner.py:154-155 | Adopted, not found, duplicated and mismatched add up to all orders handed back |
| Restart.ResumedCountIsExact | scripts/fno_runner.py:154-158 | The resumed count equals the orders now polled if and only if no broker id was adopted twice |
| Restart.TwinsAreMiscounted | scripts/fno_runner.py:154-158 | Two orders sharing tag, side and quantity: one is polled, both are counted as resumed |
| Restart.FoundArePolled | core/brokers/upstox_adapter.py:658-663 | Distinct orders found in the book are all polled under their own ids as themselves if and only if no id is found for two of them |
| Restart.HonestAdoptersDiffer | core/brokers/upstox_adapter.py:562-581 | With distinct (tag, side, quantity) and an honest book adoption is injective |
| Runs.RunsStaySane | core/brokers/upstox_adapter.py:145-157 | The whole invariant holds in every reachable state, over placements, executions, ends, polls, crashes and restarts |
| Runs.ExactlyOnce | core/brokers/upstox_adapter.py:638-671 | After any run with any crashes, the ledger holds for each accepted order exactly its first so many executions by quantity and notional, and nothing for an order never accepted |
| Runs.AdapterIsLedger | core/brokers/upstox_adapter.py:488-523 | In any run the ledger's quantity and notional of a polled order are the adapter's reported and reported times average |
| Runs.NeverForgotten | core/brokers/upstox_adapter.py:145-157 | In any run an accepted order is polled, unconfirmed, watched, named in the last restart's alert, or fully booked and finished; no order is in two collections |
| Lifetime.HonestIsPolled | core/brokers/upstox_adapter.py:593-630 | With an honest book and distinct orders a look-up overwrites nothing: the ids found are new and all orders are polled as themselves |
| Lifetime.NeverForgotten | core/brokers/upstox_adapter.py:316-349 | Without a restart: polled or unconfirmed, until Upstox has ended the order and the ledger holds everything it executed |
| Runs.LeavesOnlyWhenBooked | core/brokers/upstox_adapter.py:525-542 | In any run, an order that leaves the poll is ended at Upstox, with every execution in the ledger |
| Runs.CarriedAreFinished | core/brokers/upstox_adapter.py:535-542 | Every order a poll reports ended is Upstox's own, under its own id, ended there and fully booked |
| Day.OneDay | core/brokers/upstox_adapter.py:638-671 | A concrete possible day: a partial fill booked by a poll that dies, a restart that resumes the order, and the rest; it ends with the order out of the poll and exactly its value in the ledger |
| Reported.PollTracksNoMore | core/brokers/upstox_adapter.py:445-482 | Whatever Upstox replies, a poll never takes in an order the adapter did not already hold |
| Reported.ReportedOnce | core/brokers/upstox_adapter.py:673-698 | An order that ended is at one place of one poll's report, and in no later report before a restart |
| Booking.InOrderIsFresh | core/brokers/upstox_adapter.py:512-513 | For any replies, no two fills of a sweep share an id and none reuses an id at or below its reported quantity |
| Booking.NothingIsIgnored | core/execution/persistence/fill_repository.py:13-36 | Over any run, the totals of the insert-or-ignore table are the sums of every fill ever handed over: none was dropped |
| Booking.RedeliveryIsIgnored | core/execution/persistence/fill_repository.py:13-36 | The table is idempotent: any fills under ids handed over before change nothing |
| Booking.StoredIdsDiffer | core/execution/persistence/fill_repository.py:17-24 | In any run the stored texts of two different fill ids differ |
| Booking.HonestReplyIsBooked | core/brokers/upstox_adapter.py:491-503 | The reply checks never refuse an honest, readable, non-stale reply: it is booked to exactly what it says, and a terminal one ends the poll |
| FnoRunner.OrderState.AddFill | core/execution/order_tracker.py:28-56 | Fails exactly on another order's fill or a non-positive quantity, changing nothing; otherwise adds the fill's quantity and value, with the status that follows |
| FnoRunner.OrderState.Replay | core/execution/order_tracker.py:113-124 | Replaying the stored fills restores an order's total quantity, value and status, from which a restart seeds the poll |
| FnoRunner.OrderState.MarkEnded | core/execution/order_tracker.py:126-140 | Closes an order, except one already fully filled, which stays so |
| Replay.RestoreRows | core/execution/handler.py:320-340 | The replay of the order and fill tables gives every order its row: quantity, value and status of its own fills, closed if recorded as ended |
| Replay.OpenMeans | scripts/fno_runner.py:124-133 | The orders handed back at a restart are exactly those placed that day whose row is created or partially filled, with the row's quantity and price |
| Replay.ReplayShowsLedger | scripts/fno_runner.py:124-128 | The open rows of a replay are exactly the orders the ledger shows working, each once, with the ledger's quantity and value |
| Replay.RestartSeesLedger | core/execution/handler.py:320-340 | In any run, dying after any number of a poll's fills, the stored fills can be replayed and the next process reads back exactly what the ledger shows |
| FnoRunner.AlertedIff | scripts/fno_runner.py:140-153 | An order is named in an alert exactly when it is in one of the three lists, and each kind of alert carries its own list |
| FnoRunner.ResumeOpenOrders | scripts/fno_runner.py:105-158 | Each of today's open orders is found in the book or named in an alert, never both or neither; all are polled or named if and only if no id is found twice; a clean ledger asks Upstox nothing; which alerts are raised and whom each names; the count logged is the open orders less those named |
| Combo.ComboRunner.Execute | core/execution/portfolio/carry_rebalancer.py:547-557 | The hook with its sink, in place, computes `CallHook`, including what a failure part-way leaves changed |
| Combo.CallMeans | core/execution/portfolio/carry_rebalancer.py:547-557 | A date off the calendar or not after the last executed changes nothing; any other is the last executed even if it fails; the row stored has the price files' P&L of the previous book less the new costs, and that book advances only if the sink succeeds |
| Combo.ComboRunner.Sink | scripts/ts_basis_daily_combo_forward.py:174-190 | The row stored holds the price files' P&L of the previous book since its date, less costs; the previous book advances only if the write and everything after it succeeded |
| Combo.ComboRunner.RunCycle | scripts/ts_basis_daily_combo_forward.py:140-172 | The in-place cycle computes `Cycle`, whichever step raises |
| Combo.RecordingExtends | core/execution/portfolio/combo_paper_store.py:167-195 | Recording a later date from the last state appends one row that continues the chain, and is the new last state |
| Combo.RecordingReplaces | core/execution/portfolio/combo_paper_store.py:167-195 | Recording leaves exactly the new row and every row of another date |
| Combo.RowsFollow | scripts/ts_basis_daily_combo_forward.py:174-190 | In a chain each row's P&L is that of exactly the previous row's book since its date, less its costs; its trades start from that book, and dates strictly rise |
| Combo.BookChainHolds | scripts/ts_basis_daily_combo_forward.py:233-241 | Over any cycles, failures and process restarts the store stays a chain and is only ever appended to |
| Combo.CumIsSum | core/execution/portfolio/combo_paper_store.py:173-179 | The stored cumulative P&L is the sum of every row's own |
| ComboUpdates.CycleMissesNothing | scripts/ts_basis_daily_combo_forward.py:143-171 | A cycle keeps it true that every later version carrying the recorded mtime has nothing pending that the recording cycle did not execute, whatever fails and however the file is replaced or appears between reads |
| ComboUpdates.CycleRecords | scripts/ts_basis_daily_combo_forward.py:143-172 | What a cycle comes to: skipped exactly on the recorded mtime, stopped at the step that fails with the recorded mtime kept, and if it completes the mtime read first is recorded |
| ComboUpdates.CycleExecutes | scripts/ts_basis_daily_combo_forward.py:152-172 | A cycle that completes executes exactly the file's dates that are on the calendar and after the last recorded one, or on an empty store the latest, each from its own read of the file |
| Combo.CycleCounts | scripts/ts_basis_daily_combo_forward.py:164-172 | A cycle that gets to its dates counts exactly those its hook executed, but not one that failed |
| ComboUpdates.RunMissesNothing | scripts/ts_basis_daily_combo_forward.py:233-241 | The same over any run of cycles and restarts |
| ComboUpdates.SkippedMeansNothingPending | scripts/ts_basis_daily_combo_forward.py:143-146 | If an mtime never comes back with something new, a skipped cycle has nothing pending that was not handed to the hook |
| ComboUpdates.NoUpdateIsLost | scripts/ts_basis_daily_combo_forward.py:143-172 | For every file history: no run loses an update if and only if an mtime never comes back with something new |
| ComboUpdates.DistinctMtimesLoseNothing | scripts/ts_basis_daily_combo_forward.py:143-146 | If every replacement of the file changes its mtime, no run loses an update |
| ComboUpdates.SharedMtimeLosesUpdate | scripts/ts_basis_daily_combo_forward.py:144-146 | However a version was processed, a later one with its mtime and a new latest date is skipped with an unexecuted date pending |
| RateLimiter.Limiter.Wait | scripts/fetch_upstox_historical.py:33-41 | One call keeps the window invariant and leaves the recorded calls of the last period before its start, and then itself |
| RateLimiter.WaitKeepsWindow | scripts/fetch_upstox_historical.py:33-41 | Although the list is pruned only before the sleep, call i+max stays at least a period after call i |
| RateLimiter.AtMostMaxPerWindow | scripts/fetch_upstox_historical.py:26-44 | Calls so spaced number at most `max` in any half-open window of one period |
| RateLimiter.AnyRun | scripts/fetch_intermarket_data.py:50-67 | However the calls come, a fresh limiter records each of them, spaced, and never more than `max` in any window |
| DateChunks.GetDateChunks | scripts/fetch_upstox_historical.py:94-100 | The loop ends; chunks are contiguous, latest first, cover [from, to] exactly, span at most the cap, and only the oldest may be shorter |
| DateChunks.EachDayOnce | scripts/fetch_intermarket_data.py:73-92 | A day is in some chunk exactly when it is in the range, and never in two |
| DateChunks.MinuteChunksFitAMonth | scripts/fetch_intermarket_data.py:73-92 | With either copy's cap for minutes every chunk lies within one calendar month of its start, for every Gregorian date |
| DateChunks.LargestSafeCap | scripts/fetch_upstox_historical.py:82-88 | A cap keeps every window within a month from every date if and only if it is at most 28 |
| DateChunks.TwentyNineDaysOvershoot | scripts/fetch_upstox_historical.py:82-88 | 29 days overshoot exactly from a common-year February or January 31 |
| DateChunks.DateOf | scripts/fetch_upstox_historical.py:77-78 | Every day number is a calendar date, so the statements over dates cover all days |
| Telemetry.NobodyIsEvicted | flask_app/__init__.py:99-112 | Under every interleaving `put_nowait` finds room, so pushing never removes a subscriber |
| Telemetry.ReceivedInOrder | flask_app/__init__.py:52-62 | What a client received followed by its queue is an in-order, repeat-free subsequence of what was published since it subscribed, and the queue holds at most 10 |
| Telemetry.NothingElseIsLost | flask_app/__init__.py:229-248 | Every envelope offered to a subscriber was received, is queued, or is one of the recorded drops |
| Telemetry.UnsubscribedGetsNothing | flask_app/__init__.py:59-62 | Once unsubscribed a client only takes what its queue already held, over every later run: nothing is added and nothing dropped |
| Telemetry.LossesComeFromFullQueues | flask_app/__init__.py:103-107 | Each drop was decided on a full queue, and came from one still full exactly when the client had taken nothing since; it took the front: never received, before all still queued, none lost twice |
| Telemetry.LossWithRoom | flask_app/__init__.py:103-107 | A run in which an envelope is dropped from a queue with room |
| Telemetry.LatestTelemetry.Update | flask_app/__init__.py:81-97 | The latest-wins store after one message, with the log buffer always the last 100 of all entries ever received |
| Equity.DeriveNetSeries | scripts/carry_paper_replay.py:282-321 | The loop computes the net return of each rebalance on the book before it; where every long name gains x and every short one y it is x - y less the costs over 10 million |
| Equity.ComputeEquityCurve | scripts/carry_paper_replay.py:212-279 | The incremental loop yields the curve of that same series: growth less one, and distance below the running peak; over such a period what 1 has grown to grows by x - y less the costs |
| Equity.UniformReturn | scripts/carry_paper_replay.py:257-266 | A period in which every long name gains x and every short one y, a name without a forward counting as 0 and each leg at its floor or above, returns x - y less the next costs over 10 million |
| Equity.ForwardMovesReturn | scripts/carry_paper_replay.py:306-312 | Raising one long name's forward by e raises the return by its share of the leg times e, and a short name's lowers it likewise |
| Equity.DrawdownIs | scripts/carry_paper_replay.py:268-270 | One plus the drawdown, times the highest growth so far, is the growth |
| Equity.CurveMeansSeries | scripts/carry_paper_replay.py:244-277 | The last value plus one is the product of (1 + r); drawdown is never positive, and zero exactly at a growth never exceeded before |
| Equity.PeakIsLargest | scripts/carry_paper_replay.py:268-270 | The running peak is attained and is the largest growth so far |
| Equity.MonthlyReturns | scripts/carry_production_report.py:339-344 | The report's loop: defined exactly when no earlier growth is zero, and then each month's ratio |
| Equity.MonthlyIsSeries | scripts/carry_production_report.py:339-344 | The report recovers the whole net series if and only if no return before the last equals -1 |
| Equity.RoundTrip | scripts/carry_production_report.py:339-344 | From captured books through the curve and back gives the direct series, under that same condition |
| Gex.Accumulates | core/analytics/options_analytics.py:346-347 | Adding to one strike moves the dictionary's sum by that amount and no other strike |
| GexRows.MassIs | core/analytics/options_analytics.py:329 | A row's mass is gamma times open interest times the lot: the caller's, else the row's, else 75, zeros not counting as given |
| GexRows.SideIs | core/analytics/options_analytics.py:277-285 | A row tells no side exactly when a price is missing, the close is not positive, open interest is unchanged or the move is under half a percent; otherwise dealers are short exactly where open interest and price moved the same way |
| GexRows.AssumedRow | core/analytics/options_analytics.py:325-345 | In assumed mode puts take their mass off and every other counted row adds it |
| GexRows.InferredRow | core/analytics/options_analytics.py:325-345 | In inferred mode a row that tells no side is counted but adds nothing, one dealers are short takes its mass off, one they are long adds it |
| GexRows.CroresAre | core/analytics/options_analytics.py:323 | A figure in crore is the exposure times the spot squared, over a billion |
| GexRows.ChainSums | core/analytics/options_analytics.py:325-358 | At every strike the call mass, the other mass and the exposure are the sums of what the rows add there: masses over counted rows by type, exposure over placed ones |
| GexRows.CountsAre | core/analytics/options_analytics.py:326-340 | The counts behind coverage and reliability are those of the counted, the placed and the down rows |
| GexRows.RegimeIs | core/analytics/options_analytics.py:364-371 | The regime is the sign of the net, and neutral for inferred sides within 100 crore of zero |
| GexRows.SharesAre | core/analytics/options_analytics.py:373-377 | Coverage and reliability exist for inferred sides only: the share of counted rows that tell a side, and whether fewer than four in five of those are down |
| Gex.CalculateGex | core/analytics/options_analytics.py:287-394 | Conservation in both sign modes: net = CE + other = sum over strikes = sum of the distribution; crore figures the same sums scaled; masses, sides, regime, coverage and reliability from the rows; in assumed mode gamma is call mass less put mass at every strike of CE and PE rows (in general, if and only if rows of neither type cancel there) |
| Gex.SumRows | core/analytics/options_analytics.py:325-358 | The loop over the chain: its dictionaries, totals, counts and sides each agree with the rows read so far |
| Gex.SidesAreLast | core/analytics/options_analytics.py:333-337 | A contract has an inferred side exactly when one of its rows is counted, and it is the last such row's |
| Gex.SumsAreConserved | core/analytics/options_analytics.py:345-362 | Dictionaries that sum the rows sum the distribution, and scaling commutes with summing, in total and per strike |
| Gex.AssumedIsDifference | core/analytics/options_analytics.py:330-345 | In assumed mode a strike's exposure is its call mass less its other mass, plus twice the mass of neither type |
| Gex.LevelMeans | core/analytics/options_analytics.py:519-550 | A level lies between the first adjacent strikes where cumulative gamma changes sign, at the zero of the line between them |
| Gex.NoLevelMeans | core/analytics/options_analytics.py:519-550 | No level means the cumulative gamma is on one side of zero at every strike |
| Gex.FindZeroGammaLevel | core/analytics/options_analytics.py:536-550 | The search returns the first crossing's interpolation, and nothing exactly when there is no crossing |
| Expiry.TimeToExpiryYears | core/analytics/wall_metrics.py:128-144 | The day-counting loop computes the weekdays left plus the fraction of today, over 252, floored |
| Expiry.YearsAre | core/analytics/wall_metrics.py:136-144 | Time to expiry in 252nds is the sessions left or a tenth, whichever is more: nothing after expiry, today's fraction on it, and the sessions after today besides before it |
| Expiry.SessionFraction | core/analytics/wall_metrics.py:115-125 | On a weekday, the seconds left of the 22500 from 9:15 to 15:30 over 22500; all before, none after |
| Expiry.FiveAWeek | core/analytics/wall_metrics.py:137-142 | Any n weeks hold 5n sessions |
| Expiry.WeekendsAre | core/analytics/wall_metrics.py:116 | The days that are no weekdays are the Saturdays and Sundays counted from a known one |
| Expiry.TimeNeverRises | core/analytics/wall_metrics.py:115-144 | Time to expiry never rises as the clock advances, across sessions, nights, weekends and expiry, and stays at or above a positive floor |
| Expiry.NightIsContinuous | core/analytics/wall_metrics.py:115-143 | From a close to the next open nothing is gained or lost |
| Expiry.DayUsesItsSession | core/analytics/wall_metrics.py:137-143 | Between opens exactly the weekdays passed are used up |
| Expiry.FloorExactly | core/analytics/wall_metrics.py:144 | The floor applies exactly when at most a tenth of a session is left |

## Left out

Assumptions the theorems about whole runs carry:

- The fill callback is subscribed, returns normally and books a fill before the poll goes on; a crash falls between
  fills.
- The day's orders have positive quantities and distinct ids, and no two share tag, side and quantity; the code relies
  on one order per signal and on the tag being unique. Requests are modelled within one trading day.
- The order and fill tables return what was written, and an order is recorded as ended only when a placement
  definitely failed or a poll reported it ended.
- Cycles of the combo runner are the only writers of its store, the price files behind `book_returns` do not change,
  and formation dates are read in ascending order.
- The limiter's clock does not run backwards and a sleep is never short; its lock makes calls one after another.

Not modelled:

- HTTP, JSON decoding, headers, logging, alert texts, backoff and rate-limit sleeps, and the `_rate_limit` spacing of
  the adapter: a request is one of a fixed set of outcomes.
- Floating point: rounding, NaN and infinities, so an infinite or NaN price or fee is outside the model.
- SHA-256 in `order_tag` is any function to 40 or more plain characters; the payload and instrument mapping of a
  placement are one flag saying whether it could be prepared.
- Fill timestamps, positions, order cancellation, the status query outside the poll and the kill switch.
- The database engines, SQL queries and file formats; `record` is atomic and `last_state` reads what it wrote.
- The hook's target-book construction and costs, and the pricing inside `book_returns`: a date's execution yields any
  book at any cost, and the P&L of a book is any function of it and the two dates.
- The combo store's drawdown on capital, its trade rows and its other P&L columns.
- Max pain, walls and put-call ratios, and the gamma and open interest that each distribution entry copies from its
  row.
- Powers, Sharpe ratios and formatting in the replay and the report.
- The telemetry bridge's ZeroMQ reception and heartbeat; queues are modelled as steps of a state machine, since their
  interleaving with the clients is the point.
- `get_date_chunks` near year 1, where the source's date arithmetic underflows.
- Replay.RestoreRows: replays order by order, taking each order's own fills, where the source routes each fill to its
  order.
- Runs.NeverForgotten: after a restart that cannot read the order book, or finds an order twice or changed, the order
  is accounted for by the critical alert alone, as the source intends.
