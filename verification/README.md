# CM-Desk: verification model

This project models the parts of CM-Desk, an options and futures trading desk, on which
money depends over whole runs, and proves what they guarantee. Prices, percentages and
moving averages are real numbers, quantities are whole, times are integers in IST.

| file | what it covers |
|---|---|
| `ChaseDesk`, `ChaseEngine` | the hourly Chase run: the stored row, the broker's orders and positions, and `generateSignal` with its order calls, as a class proved equal to a function on that state |
| `ChaseSignal` | re-evaluation, pausing, pending signals and the breach flag, over all hourly runs |
| `ChaseHours` | one hour read off row, bar and broker: when a signal ends, at which price it is entered, when an entry goes out |
| `ChaseOrders`, `ChaseRuns` | whole interleaved runs against a broker: no pyramiding, one stop, a stop that only tightens |
| `ChaseStops` | the orders as sent, the stop call's result, the two entry guards |
| `ChaseFill`, `ChaseEpisode` | sizing of covers, and one open episode under partial fills, cancels and a lagging feed |
| `Ema` | the hourly EMA, its stored and rounded form, and its bounds |
| `Pnl`, `TargetPnl` | points and rupees, mark to market, the profit ratchet |
| `SavedOrders`, `OrderSubmission` | the saved row that decides whether an order is placed again; splitting, retrying and looking up broker orders |
| `RateLimit` | the request limiter over all call sequences |
| `MarketCalendar`, `Clock` | sessions and the simulation clock |
| `ChaseUniverse`, `ChaseSettings` | underlying names, the settings table, its cache and its operations |
| `ChaseReset`, `FlattenOpen`, `KillDesk` | what the operator can do: reset, square off, kill |
| `StrategyTemplates` | the search for a free template name |
| `Text`, `Rounding`, `Options` | shared helpers |

Where the source updates state step by step, the model is a class or a method with loops
whose contract ties its result to a function on values; the properties are lemmas about
those functions. An `...Exactly` lemma states a condition under which a promise holds, in
both directions.

## Where the code and its descriptions part

The code is modelled as it is. These are the places where it does not do what a comment, a
message or a name says, each with a lemma.

- The rate limiter is headed a sliding window but is a fixed one: up to `2 * limit - 1` hits pass in one window length, and it slides exactly for a limit of one or a window of one millisecond (`RateLimit.AdmittedInAnyWindow`, `BoundIsAttained`, `SlidesExactly`).
- A cover that filled in part and was then cancelled is not counted, so the next breach tick can send too much (`ChaseEpisode.CancelledPartialFillOverCovers`).
- A fill is said to be subtracted only while the feed does not show it, but the cover size first compares all fills with the displayed position: once half of an opened size is filled, the remainder of a breached position is not sent (`ChaseEpisode.RemainderIsSentExactly`). Without a recorded opening, covers of earlier round trips count too (`OpeningInstantDecides`).
- The order lookup after an error takes the first order of matching quantity. A rejected one ahead of an accepted one makes the call send again, once its saved row has failed or been rejected; a sibling slice's order is reported as success for one that does not exist (`OrderSubmission.SliceTakesTwiceExactly`, `RejectionHidesTakenOrder`, `SiblingOrderPassesForOwn`).
- A rejected order is said to be retried, but its retries wait on the same order and send nothing until something else records the rejection (`OrderSubmission.RejectedOrderIsResentExactly`, `UnrecordedRejectionIsFinal`).
- The stop call sees only untriggered orders and sends another full exit beside those that have triggered and not yet filled (`ChaseRuns.RunIsBoundedExactly`, `ThirdExitBreaksBound`).
- The hourly entry guard lets an entry pass that the minute worker refuses: an unread quantity, or the other side still open (`ChaseStops.GuardsDifferExactly`, `HourlyEntersUnread`).
- Resetting every book is announced as all or nothing, but the probe does not ask whether the broker quantity was read (`ChaseReset.AllOrNothingExactly`, `PartialResetHappens`).
- A single reset is said to refuse a book with size; it does so only for LONG and SHORT, and an entry that filled without being promoted is lost to the desk (`ChaseReset.ResetOrphansFilledEntry`).
- A square-off cancels a position's stop before it sends its order, so a refused order leaves the position open without a stop (`FlattenOpen.RowKeepsStopExactly`, `RefusedOrderLosesStop`); a failed audit write reports one row as both flattened and skipped (`ReportedOnceExactly`, `FailedAuditReportsTwice`).
- Rows square off the broker's whole net of their contract: two of different tags send it twice; two of one tag send it once and both are reported (`FlattenOpen.OneRowPerContractExactly`, `TwoTagsSendTwice`, `SameTagSendsOnce`, `TwiceTheNetAtMost`).
- A saved order is keyed by instruction, without a day or a position, and once its broker order is known it is never placed again unless it was rejected, failed or cancelled. A later square-off of the same size is therefore reported as done with the old order, its stop already cancelled (`FlattenOpen.OwnOrderExactly`, `KnownOrderIsReused`, `OldSquareOffIsReused`), and a breached position of a size that was covered before is never covered (`ChaseEpisode.BreachLeavesMarketOrderExactly`, `RepeatedCoverIsNeverSent`, `SecondRoundTripIsStuck`).
- After a square-off the book to reset is guessed from the first letters of the contract, so squaring off a NIFTYNXT50 book can reset NIFTY's (`FlattenOpen.OneBookResetsAnotherExactly`, `ChaseUniverse.CoarseRuleGuesses`).
- The kill switch writes the status alone and leaves the breach flag (`ChaseSignal.KillLeavesBreachFlag`). It keeps a book only through a ledger row left open: a position without a row, whose order has not filled, or for which an old order was taken, loses its LONG or SHORT (`KillDesk.KillClearsHeldBookExactly`, `HeldBookIsCleared`), while a book the broker shows flat keeps it (`FlatBookIsKept`). As the kill also pauses the book, no hourly run manages such a position until it is resumed (`ChaseSignal.KilledBookComesBack`).
- A profit ratchet on a very small target lifts the loss floor onto an unchanged target (`TargetPnl.SmallTargetCollapses`).
- The simulated jump to the market close can move time backwards (`Clock.SimClock.JumpToMarketClose`).
- Copying a template with an empty name can be refused by the save (`StrategyTemplates.EmptyNameCollides`).

## Model

| member | source | states |
|---|---|---|
| ChaseEngine.Engine.GenerateSignal | lib/chaseSignal.ts:351-919 | one hourly run, step by step, ends in exactly the desk state of `ChaseDesk.Tick`; it calls itself at most once |
| ChaseEngine.Engine.EvaluateSignal | lib/chaseSignal.ts:534-707 | the waiting branch: nothing at 16:15, adopt a leftover position, or raise a signal and send its entry only after the row was written |
| ChaseEngine.Engine.TrailStop | lib/chaseSignal.ts:481-533 | the 13:15 trail writes the stop first and keeps the broker's stop only when that write succeeded and the book is open |
| ChaseEngine.Engine.PromoteFilled | lib/chaseSignal.ts:716-750 | a filled pending entry becomes LONG or SHORT, clears its breach flag and gets its stop |
| ChaseEngine.Engine.PlaceEntryTriggerOrder | lib/chaseSignal.ts:213-345 | an entry is sent only past every refusal: no future, book off or paused, side already held, order book unreadable, entry already working |
| ChaseEngine.Engine.PlaceSL | lib/kiteUtils.ts:1635-1847 | the stop call finds, leaves, amends, resizes, cancels and replaces, or places the exit, and never one on the wrong side |
| ChaseEngine.Engine.CancelOrder | lib/kiteUtils.ts:1586-1617 | only the first TRIGGER PENDING order of that symbol and side is cancelled |
| ChaseEngine.Engine.UpdateChaseStatus | lib/drizzleDbUtils.ts:205-240 | a row write takes effect exactly when it reports success |
| ChaseSignal.InvalidatedSignalStartsOver | lib/chaseSignal.ts:775-808 | an invalidated pending signal gives exactly the result of withdrawing it and running the waiting rule on the same bar; the cancel is the first event and at most one entry follows |
| ChaseSignal.TwoRunsToWaiting | lib/chaseSignal.ts:372-455 | from any state a flat paused or disabled book is AWAITING_SIGNAL after at most two runs, none of which sends an entry, the phantom LONG path included |
| ChaseSignal.PausedStaysWaiting | lib/chaseSignal.ts:372-414 | a paused or disabled waiting book does not move in any number of runs, whatever else fails |
| ChaseSignal.TickKeepsConsistent | lib/chaseSignal.ts:545-886 | one run keeps the stored row consistent: stop and entry on their sides, breach flag only while pending, a symbol always with a stop |
| ChaseSignal.RunsKeepConsistent | lib/chaseSignal.ts:545-886 | the same over every sequence of hours, whatever fails |
| ChaseSignal.BreachFlagIsShortLived | lib/chaseSignal.ts:775-864 | a run with bars, working cancels and working writes clears a breach flag raised before it |
| ChaseSignal.BreachFlagNeverTwice | lib/chaseSignal.ts:809-886 | so the flag never survives two successive such runs |
| ChaseSignal.RaisingBarIsHarmless | lib/chaseSignal.ts:576-661 | the bar that raised a signal, replayed, neither invalidates it nor marks a breach: it only retries the entry |
| ChaseSignal.StopMovesOnlyAtTrail | lib/chaseSignal.ts:457-533 | in one episode the stored stop moves only at 13:15 on a later day, to the tighter of stop and EMA |
| ChaseSignal.SignalIsRaisedExactly | lib/chaseSignal.ts:545-661 | a waiting flat book raises a signal exactly when the close leaves the band, on the next month's contract whenever two are loaded; a long is to be entered at the bar's high with its stop the rupee nearest to the lesser of EMA and low, a short the other way round |
| ChaseSignal.BreachIsFlaggedExactly | lib/chaseSignal.ts:809-886 | an unfilled pending signal is flagged exactly when the close crossed the whole band without passing the stop |
| ChaseSignal.KilledBookComesBack | lib/killDesk.ts:51-77 | the killed book is paused and no hour moves it; the first open hour after it resumes takes its position up again with the old stop; after a reset, which drops the contract, no hour does |
| ChaseSignal.KillLeavesBreachFlag | lib/killDesk.ts:70-77 | a status-only write leaves a consistent row exactly when no breach flag was up |
| ChaseHours.UnfilledSignalEndsAtClose | lib/chaseSignal.ts:754-774 | at 16:15 an unfilled pending signal goes back to waiting with its stop, entry and contract, dated today, and no order is touched |
| ChaseHours.NothingPendsOvernight | lib/chaseSignal.ts:754-774 | no sequence of hours that ends with a 16:15 run leaves a signal pending, writes and cancels working |
| ChaseHours.SignalStandsExactly | lib/chaseSignal.ts:754-886 | an unfilled signal outlives an hour, uncancelled and unchanged but for its flag, exactly when the hour is not 16:15, no flag was up and the close has not passed the stop |
| ChaseHours.WithdrawnOrderIsCancelled | lib/chaseSignal.ts:775-858 | what ends a signal cancels the first untriggered order of its contract and side and no other |
| ChaseHours.PausedSignalIsWithdrawn | lib/chaseSignal.ts:373-404 | a paused or disabled book asks once to cancel its pending order, cancels that one alone, and waits |
| ChaseHours.FilledSignalIsPromoted | lib/chaseSignal.ts:711-752 | a filled signal becomes the position it asked for, with its stop, contract and day |
| ChaseHours.HeldPositionRests | lib/chaseSignal.ts:457-480 | a held position is left alone, row, orders and log, at every hour but 13:15 of a later day |
| ChaseHours.PhantomStartsOver | lib/chaseSignal.ts:429-455 | LONG or SHORT without that position starts the same hour over as a waiting book |
| ChaseHours.TrailReachesEma | lib/chaseSignal.ts:481-512 | a 13:15 run moves the stored stop to the EMA when that is tighter, leaves it otherwise, and changes nothing else of the row |
| ChaseHours.RaisedEntryGoesOutExactly | lib/chaseSignal.ts:576-690 | an hour that raises a signal sends all lots, waiting at the bar's high for a long and at its low for a short, or at market when the price is there, exactly when no refusal applies and the broker accepts; otherwise nothing |
| ChaseHours.RetriedEntryGoesOutExactly | lib/chaseSignal.ts:887-903 | an hour that leaves a signal standing retries its entry at the stored point exactly when no refusal applies, the broker accepts and the close has not crossed the band; otherwise it sends nothing |
| ChaseHours.WaitingBookRestsAtClose | lib/chaseSignal.ts:534-544 | at 16:15 a waiting book raises nothing and adopts nothing |
| ChaseHours.QuietHourSendsNothing | lib/chaseSignal.ts:545-574 | a waiting book that raises nothing sends nothing |
| ChaseOrders.TickMove | lib/chaseSignal.ts:351-919 | every hourly run changes the order book by at most one cancel and one justified amend, exit or entry, and no position |
| ChaseRuns.RunKeepsWell | lib/chaseSignal.ts:351-919 | over every interleaving of hourly runs, triggers, fills, cancels and covers, orders keep their names and no two untriggered Chase orders share a symbol and side |
| ChaseRuns.OneWorkingStop | lib/kiteUtils.ts:1731-1790 | so over all those runs there is at most one working Chase stop per symbol and side |
| ChaseRuns.StopsOnlyTighten | lib/kiteUtils.ts:1731-1790 | over all those runs, within one LONG (SHORT) episode neither the stored stop nor a working stop's trigger ever falls (rises), through resizing, replacing and leaving alone |
| ChaseRuns.RunKeepsBounded | lib/chaseSignal.ts:231-281 | over those runs, as long as a stop call that sends or resizes an exit has room for it, every position plus the working orders in its direction stays within the contract's own lots times lot size |
| ChaseRuns.NoPyramiding | lib/chaseSignal.ts:231-281 | in particular a long position plus working BUY entries never exceeds the contract's cap, and a short one plus SELL entries |
| ChaseRuns.HourKeepsBoundExactly | lib/kiteUtils.ts:1731-1847 | an hourly run keeps that bound exactly when its stop call, if it sends or resizes, has room beside the exits that have triggered and not filled |
| ChaseRuns.ArmedExitsLeaveRoom | lib/kiteUtils.ts:1731-1740 | there is room whenever every working exit is a stop that has not triggered |
| ChaseRuns.RunIsBoundedExactly | lib/kiteUtils.ts:1731-1847 | over any interleaving whose entries fit their caps, started from a bounded book: the bound holds at every point exactly when every hourly run has that room |
| ChaseRuns.ThirdExitBreaksBound | lib/kiteUtils.ts:1731-1845 | a whole run without it: LONG 75 without orders, three 13:15 runs that each send an exit at another price, the first one triggered and unfilled; the fills end at -150 |
| ChaseStops.SentEntryFollowsSignal | lib/chaseSignal.ts:545-919 | whatever branch an hourly run takes, an entry it sends belongs to the signal it leaves stored: its side and full size, waiting at the stored entry point with its limit the offset beyond, or at market when the price is there |
| ChaseStops.StopCallCovers | lib/kiteUtils.ts:1682-1847 | when every order asked for goes out, the call leaves a working exit of full size within a rupee of the level, unless a stop of the right size could not be modified |
| ChaseStops.StopCallActsExactly | lib/kiteUtils.ts:1682-1847 | a stop call does something exactly on the exit side of a held position, allowed and with a readable book, when there is no untriggered Chase stop and an exit can go out, or its stop has another size and can be resized or cancelled, or is off the level and can be amended |
| ChaseStops.TrailLeavesCover | lib/chaseSignal.ts:481-533 | when every order asked for goes out, after a 13:15 trail the stored stop and the broker agree: the whole position has an exit at the new level |
| ChaseStops.PromotionLeavesCover | lib/chaseSignal.ts:716-750 | when every order asked for goes out, a filled entry is covered at its stored stop in the hour that promotes it |
| ChaseStops.GuardsDifferExactly | lib/chaseSignal.ts:57-76 | whatever the minute worker would enter the hourly run would too; the hourly run alone enters exactly when the other side is open or the quantity is unread |
| ChaseStops.HourlyEntersUnread | lib/chaseSignal.ts:231-281 | two books the hourly run enters and the minute worker does not: unread, and short while a long is asked for |
| ChaseFill.CoverOrderQty | lib/chaseFill.ts:157-187 | a cover is never larger than the displayed position |
| ChaseFill.StaleSizesAreIgnored | lib/chaseFill.ts:168-187 | an opened or ledger size of the other sign says nothing: the displayed position is covered unless its fills account for it |
| ChaseFill.EpisodeCoverFillQty | lib/chaseFill.ts:274-307 | the loop counts the fills of this side's cover orders, skipping cancelled and rejected ones and those before the opening instant |
| ChaseFill.OpeningCutsExactly | lib/chaseFill.ts:298-303 | orders dated before the opening instant in front of the book change nothing; exactly the uncancelled orders of the contract and side count that are undated or dated at or after it |
| ChaseFill.ProtectiveStopFillQty | lib/chaseFill.ts:224-248 | the loop counts the fills of this side's protective stops |
| ChaseFill.EpisodeNarrows | lib/chaseFill.ts:274-303 | a later opening instant only drops fills |
| ChaseFill.CoversAreStopsAndFlattens | lib/chaseFill.ts:224-303 | every counted cover is a protective stop or a plain market or limit order, and none is both |
| ChaseFill.RolloverKeepsLots | lib/chaseFill.ts:84-100 | a roll closes the whole book and opens as many lots as it closes |
| ChaseEpisode.CoverIsRemainderExactly | lib/chaseFill.ts:157-187 | a tick that asks for a cover asks for at least the true remainder, and for exactly that if and only if feed, opened size or ledger can be used |
| ChaseEpisode.RemainderIsSentExactly | lib/queue-processor/chaseQueue.ts:1268-1367 | with nothing working and a current feed, the remainder goes out exactly while less than half of the opened size is filled, earlier round trips counted when the opening is not recorded, no saved cover of its size stands in the way and the broker takes it |
| ChaseEpisode.BreachLeavesMarketOrderExactly | lib/queue-processor/chaseQueue.ts:1306-1367 | a breach tick that finds something to cover leaves a working market order exactly when one was working, a working stop could be converted, or with nothing working no saved cover of that size stands in the way and the broker takes the new one |
| ChaseEpisode.SendingIsSafeExactly | lib/chaseFill.ts:108-187 | a cover that goes out keeps fills plus outstanding covers within the opened size exactly under that condition |
| ChaseEpisode.EpisodeNeverReverses | lib/chaseFill.ts:108-187 | over any run of breach ticks, refused, reused and sent covers, partial fills, cancels and a lagging feed: fills plus covers never exceed the opened size, and LONG or SHORT is cleared only when truly flat |
| ChaseEpisode.OrderlyRunsAreAllowed | lib/chaseFill.ts:157-187 | with the opening on record, no cancelled partial cover and no cover dated before it, every run meets the condition, however far the feed lags and whatever was traded before |
| ChaseEpisode.ClearsExactly | lib/queue-processor/chaseQueue.ts:1371-1410 | a tick clears LONG or SHORT exactly when its second reading shows nothing, the order call raised no exception, and no stop was to be converted and could not be |
| ChaseEpisode.BreachLeavesOtherOrders | lib/queue-processor/chaseQueue.ts:1306-1367 | a breach tick changes no other order: at most one working stop turns into a market order of the same size, or one order is added |
| ChaseEpisode.OpeningInstantDecides | lib/queue-processor/chaseQueue.ts:1267-1284 | after a cover of 75 in an earlier round trip a new LONG 75 is covered in full with its opening recorded, and not at all without |
| ChaseEpisode.CancelledPartialFillOverCovers | lib/chaseFill.ts:293-304 | the counter's blind spot: a cover that filled 40 and was cancelled is not counted, and the next tick asks for 100 against 60 |
| ChaseEpisode.RepeatedCoverIsNeverSent | lib/trading/brokerPlace.ts:31-34 | an episode whose size was covered before on the contract, its row unchanged: over any run of breach ticks nothing is sent, the position stays open and its LONG or SHORT stands |
| ChaseEpisode.SecondRoundTripIsStuck | lib/trading/ledger.ts:185-209 | so of two round trips of 75 the first sends its cover and the second never does |
| Ema.CalculateEmaFromCandles | lib/ema.ts:11-76 | no reading exactly when today has no candle or history is too short; otherwise the rounded EMA, by rebuild or one step, with today's ceiled high, floored low and rounded last close |
| Ema.SeedLoop | lib/ema.ts:49-57 | the loop over an array of EMAs is the fold from the simple average |
| Ema.FoldIsWeighted | lib/ema.ts:53-59 | the recurrence is the textbook weighted average |
| Ema.EmaIsMeanOfThree | lib/ema.ts:46-57 | the EMA of the candles is the mean of the EMAs of their highs, lows and closes |
| Ema.FirstEmaIsMean | lib/ema.ts:50-52 | with just as many bars as the period it is their plain mean |
| Ema.IncrementalIsRebuild | lib/ema.ts:48-60 | one incremental step from a rebuilt EMA is a rebuild over one more candle |
| Ema.RebuildBetween | lib/ema.ts:46-57 | the unrounded EMA stays between the least and greatest typical price |
| Ema.PriorsConverge | lib/ema.ts:59 | two prior EMAs converge by exactly the factor 1 - 2/(period+1) per bar |
| Ema.StoredStaysNearExact | lib/chaseSignal.ts:181-211 | rounding every hour and feeding the stored value back stays within (period+1)/4 of the unrounded EMA, for any number of hours, gaps included |
| Ema.ReadingIsOrdered | lib/ema.ts:42-43 | a reading's whole-rupee low is not above its high |
| Pnl.RupeePnl | lib/pnl.ts:22-34 | the two running totals give the sum of signed rupee values |
| Pnl.AggregateFillsBySymbol | lib/pnl.ts:40-63 | the loop over the pending record yields one row per symbol with that symbol's signed totals |
| Pnl.SymbolsListed | lib/pnl.ts:41-62 | every symbol that occurs is listed once, and no other |
| Pnl.AggregationConserves | lib/pnl.ts:40-68 | the rows add up to all signed prices and quantities |
| Pnl.AggregationIsPermutable | lib/pnl.ts:40-68 | the order of the fills changes no row and no total |
| Pnl.RupeesAgainstPoints | lib/pnl.ts:26-54 | with one common fill size, rupees are size times points exactly when fills that are neither BUY nor SELL cancel out |
| Pnl.RupeesAreSizeTimesPoints | lib/pnl.ts:22-68 | in particular for every list of BUY and SELL fills |
| TargetPnl.MarkToMarket | lib/targetPnL.ts:49-64 | the reduce adds the last price of every open symbol and reports completion exactly when no symbol is open |
| TargetPnl.MarkToMarketIsClosingOut | lib/targetPnL.ts:49-65 | the unrounded points are the strategy points after one closing fill per open symbol, which brings every symbol flat |
| TargetPnl.Job.TargetPnL | lib/targetPnL.ts:38-132 | one run's verdict, ratchet and stored points, the unreadable job row included |
| TargetPnl.WatchFollows | lib/targetPnL.ts:83-132 | with both limits on, the job's successive runs follow the ratchet over their readings |
| TargetPnl.WithoutProfitLimit | lib/targetPnL.ts:83-132 | without the profit limit the levels never move, and the job squares off exactly when the loss limit is on and some reading falls below the floor |
| TargetPnl.WithoutLossLimit | lib/targetPnL.ts:107-123 | without the loss limit it never squares off |
| TargetPnl.ReadingIsNearest | lib/targetPnL.ts:49-66 | a reading is the half point nearest to what closing everything at the last prices would make |
| TargetPnl.RaiseMovesTarget | lib/targetPnL.ts:84-88 | a raise moves a target of whole tenths up exactly when target times percent reaches 5 |
| TargetPnl.RaiseAddsPercentage | lib/targetPnL.ts:84-88 | the next target is the tenth nearest to the old one plus the trailing percentage of it, ten when none is set |
| TargetPnl.RatchetHolds | lib/targetPnL.ts:83-97 | over any readings the loss floor never falls, stays below the target, and the target gains a tenth per raise |
| TargetPnl.FloorFollowsTarget | lib/targetPnL.ts:83-116 | one more reading raises the levels exactly when it beats the target, the floor then being the beaten target, and squares off exactly when it falls below the floor |
| TargetPnl.RaisesAreBounded | lib/targetPnL.ts:83-97 | readings bounded by B raise the target at most 10 * (B - first target) times, rounded up |
| TargetPnl.SmallTargetCollapses | lib/tickSize.ts:2-5 | below that size a raise leaves the target and lifts the floor onto it |
| RateLimit.Limiter.Hit | lib/rateLimit.js:28-40 | one call's verdict and the new buckets |
| RateLimit.AdmittedInAnyWindow | lib/rateLimit.js:28-40 | any half-open interval of one window admits at most 2 * limit - 1 hits of a key |
| RateLimit.BoundIsAttained | lib/rateLimit.js:31-34 | for every limit there is a sequence of hits that reaches that number |
| RateLimit.SlidesExactly | lib/rateLimit.js:1-40 | no interval of one window length admits more than `limit` hits, over all runs, exactly for a limit of one or a window of one millisecond |
| RateLimit.RefusalIsEarned | lib/rateLimit.js:35-38 | every refusal has at least `limit` earlier hits in the preceding window |
| MarketCalendar.NextSessionOpen | lib/marketCalendar.ts:280-295 | the least session open at or after the instant; none only when the search window holds none |
| MarketCalendar.StateOpenIsSessionOpen | lib/marketCalendar.ts:244-278 | the session state is OPEN exactly when the session is open |
| MarketCalendar.StatesOfTradingDay | lib/marketCalendar.ts:266-278 | the states of a trading day by the clock: a quarter of an hour before the open, half an hour after the close, overnight until six |
| MarketCalendar.LastOpenIsGreatest | lib/utils.ts:251-259 | the last trading day strictly before the date |
| MarketCalendar.LastOpenInvertsNext | lib/utils.ts:251-259 | from the trading day that follows d it comes back to d |
| Clock.SimClock.JumpToMarketOpen | lib/clock.ts:118-127 | the least open at or after now |
| Clock.SimClock.JumpToMarketClose | lib/clock.ts:129-139 | today's close even when it has passed, so exactly when the clock runs backwards is stated |
| Clock.SimClock.JumpToNextSession | lib/clock.ts:141-149 | the least open strictly after now |
| Clock.SimClock.JumpToNextTradingDay | lib/clock.ts:151-154 | the least open on a later day |
| Clock.SimClock.Add | lib/clock.ts:100-106 | a paused clock does not move |
| Clock.JumpsEnumerateOpens | lib/clock.ts:141-149 | iterated jumps visit every session open in order, none skipped |
| SavedOrders.NewOrderExactly | lib/trading/brokerPlace.ts:24-41 | a new order goes out exactly without a saved row, behind one that was rejected, failed or cancelled, or behind an unacknowledged one that is a minute old and missing from the broker's book; a known order is taken again |
| OrderSubmission.Slices | lib/kiteUtils.ts:1284-1291 | ceil(q / freeze) slices, each between 1 and the freeze quantity |
| OrderSubmission.SlicesPartitionRequest | lib/kiteUtils.ts:1284-1291 | the slices add up to the request |
| OrderSubmission.Submitter.PlaceOrder | lib/kiteUtils.ts:411-573 | one call places, reuses a known order or withholds, by the saved row, and leaves the row the call's outcome marks |
| OrderSubmission.Submitter.RemoteOrderSuccessEnsurer | lib/kiteUtils.ts:1203-1446 | split, submit, wait, retry and lookup end as specified, and terminate |
| OrderSubmission.SubmissionsAreBounded | lib/kiteUtils.ts:1231-1303 | at most ceil(q / freeze) times retryAttempts submissions |
| OrderSubmission.AttemptEndsExactly | lib/kiteUtils.ts:1316-1446 | every attempt is tried again, succeeds, gives up or throws for exactly the stated reasons: the awaited order and its answer, a lost order, the gate, a permanent, unhandled or unreadable error |
| OrderSubmission.CallEndsExactly | lib/kiteUtils.ts:1231-1446 | a whole unsplit call ends as its first attempt that is not tried again does and throws when there is none; a split one succeeds exactly when every slice does and throws exactly when its own gate refuses |
| OrderSubmission.LostOrdersAreRetried | lib/kiteUtils.ts:1417-1419 | after k lost orders the next accepted one completes the call, the request taken once, in k + 1 submissions |
| OrderSubmission.SecondOrderGoesOutExactly | lib/trading/brokerPlace.ts:24-41 | a slice with an accepted order sends another exactly when its saved row has failed or been rejected |
| OrderSubmission.RetrySendsSecondExactly | lib/kiteUtils.ts:1401-1436 | the next attempt sends a second order for an accepted one exactly when the lookup stopped at a rejected order and the saved row is terminal |
| OrderSubmission.SliceTakesTwiceExactly | lib/kiteUtils.ts:1384-1436 | over all attempts of one order, the broker takes more than was asked for exactly when an order is accepted while the slice has one and its row is terminal |
| OrderSubmission.CallExceedsExactly | lib/kiteUtils.ts:1283-1436 | the accepted quantity of a whole call exceeds the request exactly when a second order of an unsplit one is accepted, or, past the gate, slices taken more than once outweigh slices not taken at all |
| OrderSubmission.SliceIsOverExactly | lib/kiteUtils.ts:1384-1436 | a slice is taken more than once exactly when an order of it is accepted while it has one and its row is terminal |
| OrderSubmission.TakenNeverExceedsRequest | lib/kiteUtils.ts:1283-1436 | when no slice is, the accepted quantity of the whole call never exceeds the request, even when errors hide accepted orders |
| OrderSubmission.WithoutRejectionsTakenFits | lib/kiteUtils.ts:1384-1436 | in particular when no call leaves a rejected order and no book lists one, whatever the errors hide and the lookups find |
| OrderSubmission.HiddenOrderIsFound | lib/kiteUtils.ts:1401-1430 | such a call: a network error hides the accepted order, the lookup finds it, and the request is taken once |
| OrderSubmission.RejectionHidesTakenOrder | lib/kiteUtils.ts:1401-1436 | an order error that leaves a rejected order, a network error that hides an accepted one behind it, and an acknowledgement leave twice the request at the broker |
| OrderSubmission.RejectedOrderIsResentExactly | lib/kiteUtils.ts:1384-1387 | the retry of a rejected order sends a new one exactly when the rejection has reached the saved row |
| OrderSubmission.UnrecordedRejectionIsFinal | lib/trading/brokerPlace.ts:31-34 | otherwise all retries together send nothing and the call does not succeed |
| OrderSubmission.SuccessWithoutOrder | lib/kiteUtils.ts:1365-1430 | an attempt reports success without an order of its slice exactly when the lookup or the saved row gave it another's |
| OrderSubmission.SiblingOrderPassesForOwn | lib/kiteUtils.ts:1407-1415 | a sibling slice's order passes for the missing one: success with half the quantity |
| ChaseSettings.Store.ListChaseBooks | lib/chaseSettings.ts:67-76 | cached or read, the list is the ordered table: each book once, indices first, then by name |
| ChaseSettings.ListingIsUnique | lib/chaseSettings.ts:53-61 | a table has one such list, whatever order its rows are read in |
| ChaseSettings.IndicesLead | lib/chaseDefaults.ts:41 | the four indices lead in their fixed order and every other name follows |
| ChaseSettings.OrderBooks | lib/chaseSettings.ts:53-61 | sorted and a permutation |
| ChaseSettings.Store.GetChaseBook | lib/chaseSettings.ts:82-86 | the stored book of the upper-cased name, or a disabled default one |
| ChaseSettings.Store.SaveChaseBook | lib/chaseSettings.ts:153-177 | refused with nothing changed, or exactly one merged row; a cache that is left is the ordered table |
| ChaseSettings.Store.SaveChaseSettings | lib/chaseSettings.ts:179-219 | throws exactly when a check fails or a name is missing, says which, and then the table is unchanged; otherwise exactly the one, picked or enabled books are saved |
| ChaseSettings.ExactlyRequestedEnabled | lib/chaseSettings.ts:197-213 | after a save of instruments exactly the requested set is on, every other book is paused, and saving again changes nothing |
| ChaseSettings.MergeKeepsClamps | lib/chaseSettings.ts:130-151 | every stored book satisfies the clamps whatever the patch, and merging twice is merging once |
| ChaseSettings.ValidatedIsStoredAsGiven | lib/chaseValidation.ts:24-82 | a patch that passes the checks is stored as given, the protection to the nearest hundredth |
| ChaseSettings.RefusedExactly | lib/chaseValidation.ts:24-82 | a patch is refused exactly when its names do not do or a number it gives would not be stored as given |
| ChaseSettings.SavedBooksExactly | lib/chaseSettings.ts:187-219 | a save reaches the named book, every book when a set is picked, else exactly the books that are on |
| ChaseSettings.ProtectionSettles | lib/chaseDefaults.ts:72-78 | the protection lies between 0.25 and 5 and clamping again keeps it |
| ChaseSettings.Store.ResetChaseBooks | lib/chaseSettings.ts:221-230 | default books, NIFTY alone on and running |
| ChaseSettings.Store.PauseAllChaseBooks | lib/chaseSettings.ts:261-265 | every book paused and nothing else changed |
| ChaseSettings.Store.AddChaseUnderlying | lib/chaseSettings.ts:232-242 | the existing book, or a disabled default one added |
| ChaseSettings.Store.RemoveChaseUnderlying | lib/chaseSettings.ts:244-259 | removed exactly when known, waiting and without quantity |
| ChaseUniverse.UnderlyingRoundTrips | lib/chaseUniverse.ts:23-33 | every future of an underlying names that underlying |
| ChaseUniverse.NormalizedIsStable | lib/chaseUniverse.ts:14-21 | a normalised name is stable and is never a futures symbol |
| ChaseUniverse.RulesAgreeOnIndices | lib/trading/bookSplit.ts:166-173 | the coarse symbol rule names the right underlying exactly for the four indices |
| ChaseUniverse.CoarseRuleGuesses | lib/trading/bookSplit.ts:166-173 | it reads a NIFTYNXT50 future as NIFTY's |
| ChaseReset.OperatorDesk.ResetChaseSignalState | lib/chaseReset.ts:40-108 | refused with the row and, on a held book, the orders unchanged; otherwise the cleared row and one cancel |
| ChaseReset.RefusedExactly | lib/chaseReset.ts:18-75 | a LONG or SHORT is refused exactly when its quantity cannot be read, or when broker or ledger still has it on that side; any other book is reset unless the write fails |
| ChaseReset.ResetLeavesExits | lib/chaseReset.ts:71-81 | a reset cancels on the entry side only: exits of the book stay working |
| ChaseReset.ResetOrphansFilledEntry | lib/chaseReset.ts:14-31 | a filled entry not promoted yet is not refused: the next open hour would have made it LONG or SHORT, after the reset none does |
| ChaseReset.OperatorDesk.ResetAllChaseSignalState | lib/chaseReset.ts:134-168 | a refused plan changes no row and no order; otherwise each book is reset or refused on its own; no held book is touched |
| ChaseReset.AllOrNothingExactly | lib/operatorActionCopy.ts:260-292 | the promised all-or-nothing holds exactly when no book or every book is LONG or SHORT, unread, and flat in the ledger |
| ChaseReset.PartialResetHappens | lib/chaseReset.ts:110-132 | two books for which it does not hold |
| FlattenOpen.SelectRows | lib/flattenOpen.ts:49-65 | exactly the open rows in scope |
| FlattenOpen.BookScopeIsOwnFutures | lib/flattenOpen.ts:49-63 | the scope of a Chase book holds exactly the Chase rows of its own futures |
| FlattenOpen.RowIsReportedExactly | lib/flattenOpen.ts:154-215 | a selected row is reported exactly when it has size, on paper or in the session, its order is not stopped, and its saved row gives an earlier order or lets a new one go out without an error; the order is of its size, against its sign, under the Chase tag for Chase rows alone |
| FlattenOpen.SquareOffRow | lib/flattenOpen.ts:154-240 | one row: what is reported, what is sent and cancelled, what is saved, what follows |
| FlattenOpen.SubmitFlattenOrder | lib/kiteUtils.ts:359-573 | the order call of one row: stopped, withheld, given an earlier order, refused or placed, by its saved row, with the row it leaves |
| FlattenOpen.FlattenOpenPositions | lib/flattenOpen.ts:119-298 | reports, aborts, resets and saved rows of the whole call: only jobs without an open row are aborted, only books without one are reset, and orders beyond the rows' own are only cancelled |
| FlattenOpen.JobIsAbortedExactly | lib/flattenOpen.ts:234-279 | a job is aborted exactly when aborting is asked for and works, it has no open row any more, and an option row of it was squared off or it is the option job named |
| FlattenOpen.OneJobAbortsItself | lib/flattenOpen.ts:251-279 | squaring off one job aborts no other, and not while it has an open row |
| FlattenOpen.BookIsResetExactly | lib/flattenOpen.ts:234-295 | a Chase book is reset exactly when the scope names it or a squared-off Chase row reads as its, none is open any more and the reset does not refuse; every other row is as it was |
| FlattenOpen.OneBookResetsAnotherExactly | lib/flattenOpen.ts:234-295 | squaring off one Chase book resets another exactly when a contract reported as flattened reads as the other's by its first letters |
| FlattenOpen.OwnOrderExactly | lib/trading/brokerPlace.ts:24-41 | over the whole row loop, a row reported as flattened has an order of its own exactly when the saved row of its tag, contract, side and size is terminal by then, or knows no order, from that call or any day before, and is absent or a minute old with nothing in the broker's book |
| FlattenOpen.SecondRowSendsExactly | lib/trading/ledger.ts:240-260 | a second reported row of one tag, contract, side and size sends exactly when the saved row is terminal by then |
| FlattenOpen.KnownOrderIsReused | lib/trading/brokerPlace.ts:31-34 | once an order is known under an instruction, every later row of it that is not stopped is reported with that order |
| FlattenOpen.OldSquareOffIsReused | lib/trading/ledger.ts:185-209 | a square-off of the size of last week's: reported as flattened, nothing sent, the stop cancelled |
| FlattenOpen.ReportedOnceExactly | lib/flattenOpen.ts:209-232 | every selected row is reported once exactly when no audit write behind a returned order call failed |
| FlattenOpen.FailedAuditReportsTwice | lib/flattenOpen.ts:209-232 | a row reported as flattened and as skipped |
| FlattenOpen.UntouchedOrders | lib/flattenOpen.ts:172-193 | orders on a contract with no live attempt stay as they were, those of rows skipped outside the session included |
| FlattenOpen.RowKeepsStopExactly | lib/flattenOpen.ts:191-232 | a live row for which nothing reaches the broker keeps its waiting stop exactly when it was passed over before an order was tried, or the cancel failed |
| FlattenOpen.RefusedOrderLosesStop | lib/flattenOpen.ts:191-232 | a row whose order is refused is skipped and its stop is gone |
| FlattenOpen.OneRowPerContractExactly | lib/flattenOpen.ts:157-171 | while the broker's net has not moved, the square-off of a contract stays within it exactly when at most one row's order reaches the broker |
| FlattenOpen.SquareOffFlattensExactly | lib/flattenOpen.ts:157-207 | filled, the square-off leaves a contract flat exactly when one row's order reached the broker |
| FlattenOpen.OneOrderPerInstruction | lib/trading/ledger.ts:240-260 | while its saved row is not terminal and no call fails, all rows of one instruction together get one order at most |
| FlattenOpen.TwiceTheNetAtMost | lib/flattenOpen.ts:97-108 | so however many rows a contract has, at most twice its net is sent, once with the Chase tag and once without |
| FlattenOpen.SameTagSendsOnce | lib/flattenOpen.ts:97-108 | two CHASE rows of a contract of which the broker holds 150: one order of 150, reported for both |
| FlattenOpen.TwoTagsSendTwice | lib/flattenOpen.ts:97-108 | a CHASE row and one of another strategy on such a contract: 300 is sent |
| KillDesk.ChaseBooksKeptOpen | lib/killDesk.ts:12-27 | exactly the longest-prefix books of the uncovered skipped rows are kept |
| KillDesk.RunDeskKill | lib/killDesk.ts:29-103 | a kept book has its row from after the flatten, every other listed book differs in the status only; a book held at the broker is cleared exactly when none of its ledger rows is left open; a failed flatten keeps all; all books are paused; live positions are said to be left open exactly when a row was skipped for the closed market |
| KillDesk.ClosedMarketIsReported | lib/killDesk.ts:48 | in particular when the market is closed on a live row with size |
| KillDesk.KeptByRows | lib/killDesk.ts:12-27 | the kept books, read off the ledger rows: left without an order, not already flat, no other row of the contract reported |
| KillDesk.KillClearsHeldBookExactly | lib/killDesk.ts:59-77 | a LONG or SHORT that the broker still shows, or cannot show, is put back to waiting, its row otherwise untouched, exactly when no ledger row of the book is left open |
| KillDesk.HeldBookIsCleared | lib/killDesk.ts:59-77 | three books that are: without a ledger row, with an order that went out and has not filled, and with no order at all because one of its size filled some day before |
| KillDesk.FlatBookIsKept | lib/killDesk.ts:20-25 | a book the broker shows flat is kept through its ledger row |
| KillDesk.IntradayKillTouchesNoBook | lib/killDesk.ts:36-51 | killing intraday leaves every Chase row alone |
| KillDesk.FlattenKeepsHeldBooks | lib/flattenOpen.ts:281-295 | no flatten moves a LONG or SHORT that the broker shows on that side or cannot show |
| StrategyTemplates.DuplicateName | lib/strategyTemplates.ts:71-85 | the search ends within one more candidate than there are names, on the first free one |
| StrategyTemplates.TakenAtMost | lib/strategyTemplates.ts:78-83 | at most as many candidates are taken as there are names |
| StrategyTemplates.DuplicateIsAccepted | lib/strategyTemplateRules.ts:17-27 | for trimmed names the found name passes the save's check exactly when the copied name is not empty or "copy" is free |
| StrategyTemplates.EmptyNameCollides | lib/strategyTemplateRules.ts:22-26 | the empty name does collide |

## Left out

- The paper and mock books: only the live Chase book is modelled, in `FlattenOpen` also paper rows.
- Postgres, Redis, BullMQ, Slack and logging: rows and orders are in memory, and a write or call that can fail has an outcome parameter. Failures of `persistChaseSignal` and `postToSlack`, which would abort an hourly run in the middle, are not modelled.
- ChaseStops.StopCallCovers: that an order asked for goes out is one flag; besides a refusal it stands for a saved row of the same prices and size that gives an earlier order back, which `SavedOrders` models only for square-offs, covers and split orders.
- ChaseStops.TrailLeavesCover: the same flag.
- ChaseStops.PromotionLeavesCover: the same flag.
- ChaseStops.SentEntryFollowsSignal: the same flag for entries: an entry that only gives an earlier order back counts as not sent.
- ChaseRuns.NoPyramiding: position reads are taken to succeed and to be current at each hourly run; a stop call that sends or resizes an exit must have room for it beside the exits that have triggered, without which the bound is false (`ChaseRuns.HourKeepsBoundExactly`, `ChaseRuns.ThirdExitBreaksBound`).
- ChaseRuns.RunKeepsBounded: the same. Orders of other strategies on the same contract are not part of the runs. The broker may drop an order at any time but need not, so the end of a day drops none by itself.
- ChaseEpisode.EpisodeNeverReverses: orders of the day before the episode are dated before its opening, and none of them still works as a cover; the saved row of a cover may change in any way at any time; its order call is one attempt, and an exception ends the tick.
- The minute worker beyond its stop-hit cover: morning exits, the 09:16 classification, the expiry-day roll (apart from its order sizes) and simulated trading.
- Margin checks, risk gates, product and exchange choice, session cookies and the migration gate.
- `getCompletedOrdersbyTag`'s ledger fallback: the profit results apply to fills read from the broker.
- Floating-point error: arithmetic is over the reals.
- Time parsing and time zones: times are integers in IST, and the session hours, early closes, holidays and forced closures are given.
- getAcceptedPrevEma: whether the prior row carries the expected bar time is a parameter of `Ema.ResolvePrevEma`.
- Pnl.AggregateFillsBySymbol: lists symbols in order of first occurrence; an object with integer-like keys would list those first.
- OrderSubmission.Submitter.RemoteOrderSuccessEnsurer: slices run one after another, but a lookup may list any sibling orders at any time. The call starts without saved rows of its own, and a row moves between attempts only by a rejection being recorded. The paper branch and the response's orders are left out.
- ChaseSettings.Store.ListChaseBooks: operations run one at a time, so a read that overlaps a write and stores a stale list is not modelled, nor are writes by another process within the cache's five seconds; a patch field holds a number, so values that are no numbers and fractional EMA periods, which the table's integer column refuses, are left out, as are the audit events of pausing.
- ChaseSettings.OrderBooks: names are compared by character code, as `localeCompare` does on the capitals and digits of underlying names.
- ChaseSettings.Store.RemoveChaseUnderlying: the separate universe table is left out.
- KillDesk.RunDeskKill: aborting today's jobs and the desk halt are left out; the flatten is taken to fail only before it touches anything.
- FlattenOpen.FlattenOpenPositions: the broker's answers per row, and the positions after the orders, are parameters; a row is paper exactly when its order is executed on paper, an acknowledgement carries an order id, and saving a row succeeds (a failure is a stop before it); product, exchange and the last price passed to the order are left out.
- StrategyTemplates.DuplicateName: case folding and trimming are for ASCII letters and blanks; updating a template under its own name is left out.
- `clientKey` and the route table of the rate limiter, which only choose the key.
- `SystemClock`, and the clock that is installed globally.
- All pages, components, help texts, field mappers and formatting.
