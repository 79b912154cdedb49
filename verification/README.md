# GoRide, verified

GoRide dispatches rides: riders book a quote, drivers accept offers, trips run, payments
settle. Postgres holds the rows that count; Redis holds offers, mirrors, the driver pool
and a cache. There is no lock across the two. This project models the dispatch protocol
as interleaved steps over both stores and proves what the tables keep under every
interleaving; it models the same handlers as imperative service classes and proves them
to be that protocol run without interference; and it proves the self-contained
algorithms beside it: fares, geohash, polyline lookup, the event stream, idempotency keys
and location pings.

How the pieces fit:

- `Ledger` is Postgres: tables as maps, every transaction as one guarded step.
  `LedgerInvariants`, `LedgerHistory`, `LedgerGrowth` and `LedgerTheorems` prove what
  every transaction keeps, what a whole run adds up to, what is never taken back, and what
  that means for one row.
- `Redis` is the key families and the effect of each command. `Protocol` gives every
  request a program counter over atomic steps. `ProtocolSafety` lets Redis hold anything
  at all between any two steps and proves the tables safe anyway; `Requests` and `AsAsked`
  trace over the same runs which request asked for each change; `ProtocolMatching`
  proves the tier and city of offered and assigned drivers when only this program writes
  Redis and keys may vanish at any time, and `OfferClaims` accounts for every claim of the
  offer loop over the same runs. `OfferRuns` says when a driver is offered a ride twice over
  any interleaving; `OfferSteps` is what both need to know of the other handlers.
- `Coherence` and `CoherentRuns` run one request at a time and prove mirrors, pool,
  markers and cache in step with the rows. `Stores`, `DriverService`, `OfferLoop`,
  `RideService`, `MatchingService`, `TripService` and `PaymentService` are the services as
  classes that change their stores statement by statement; `Alone(before, after)` in their
  contracts says that the method's whole effect on both stores is that of the protocol's
  request run alone, and the other clauses say outright, without the protocol's terms, when
  it succeeds and what rows and keys it leaves. `SweepProgress` counts what repeated
  sweeps achieve, and `TripRuns` follows every trip over whole runs of such requests on one
  clock.
  Where a service relies on sound tables its contract asks for them; every run keeps them.
  What a database or Redis query answers is a parameter constrained to be a right answer
  (`Answers` for the geo search, `OldestMatching` for the sweeper's batch).
- `RideStates`, `TripClock`, `Pricing`, `Geohash`, `Polyline`, `EventStream`,
  `Idempotency` and `Pings` stand on their own; `DriverService` proves its location method
  to be one ping of `Pings`.

Times are integers (nanoseconds; milliseconds in `Pings`), money whole paise, and floating
point quotients exact reals. One-time codes and their hashes are strings compared for
equality; new row ids and payment references are values not used before. The great-circle
distance is any function that is never negative and zero exactly between equal points
(in `OfferLoop`, any function at all).

Four properties one might expect turn out to need a condition, which is proved exactly.

- No driver is offered a ride twice while the ride's tried set lives, exactly when no search
  records an offer to a driver whom another search offered the ride since the first one read
  that set (`OffersNewIffNoneStale`). One search at a time is enough. The comment at
  internal/matching/matching.go:134-136 calls the loop safe from several instances, with the
  conditional claim as the arbiter; the claim keeps a driver from holding two offers at once,
  not from being offered the same ride again (`TwoSearchesOfferTwice`).
- Two requests with one idempotency key get literally the same answer exactly when neither is
  the one that stored it, for the jsonb column drops the newline every handler ends its body
  with (`SameTextIffBothReplayed`, witness `ReplayDropsNewline`); as the column keeps them all
  answers agree.
- A driver with more than three pings in a second is held to three exactly when no two of them
  in turn reach Redis two seconds or more apart, the lifetime of the counter
  (`RateLimitExact`, witnesses `LatePingExceedsLimit` and
  `GapBeforeALiveCounterExceedsLimit`).
- A trip with n pauses is charged within n + 1 seconds of the time it was not paused exactly
  when every pause stays under the two hours its key lives (`ShortPausesAllCount`, witness
  `TwoHourPauseIsLost`); with 3600 pauses or more a lost pause is charged just the same,
  but a slack that itself exceeds an hour no longer tells it apart.

## Model

| member | source | states |
|---|---|---|
| ProtocolSafety.AnyRun | internal/drivers/drivers.go:5-10 | From any database without rides and any Redis contents, after any sequence of requests arriving, single steps of any of them, requests stopping, evictions and arbitrary rewrites of Redis, the tables are sound and the record of commits is in order. |
| ProtocolSafety.OnTripAfterAnyRun | internal/matching/matching.go:357-391 | After any such run a driver row is on_trip exactly when some active ride carries the driver, and no two do. |
| ProtocolSafety.MoneyAfterAnyRun | internal/payments/payments.go:186-267 | After any such run a completed ride has exactly one payment; ride, trip, payment and receipt carry one amount; a receipt exists exactly when the payment succeeded and repeats the charged duration. |
| ProtocolSafety.BoundedAfterAnyRun | internal/payments/payments.go:271-287 | After any such run every recorded move is legal, a ride moved at most six times and was assigned at most once, a payment was attempted at most three times, and a reference settled at most once. |
| ProtocolSafety.AuthorityStaysValid | internal/rides/rides.go:187-255 | At every commit made on a driver's or rider's authority, the authority read some steps earlier still holds. |
| ProtocolSafety.AcceptancesAgree | internal/matching/matching.go:286-352 | Any two requests that reported a successful acceptance of one ride, replays included, named the same driver, whom the ride still has. |
| ProtocolSafety.StepActs | internal/trips/trips.go:207-358 | Each step of each handler commits only on facts that still hold when it commits, and leaves the next step knowing what it needs; for an end this is that the fare computed from earlier reads is the fare of the rows committed against. |
| ProtocolSafety.KnowledgeStays | internal/rides/rides.go:279-295 | Nothing another request commits invalidates what a request has read and relies on. |
| ProtocolSafety.RunsAreSafe | internal/matching/matching.go:1-12 | Safety of the tables and of every request's knowledge is kept by every move of the interleaved system. |
| ProtocolSafety.FreshIsSafe | migrations/0004_rides.up.sql:1-31 | A database without rides, trips and payments is safe with any Redis contents. |
| AsAsked.CommitsAsAsked | internal/rides/rides.go:187-255 | In every world any run can reach, with Redis rewritten at will, the transaction a request attempts next is what it asked for when it came in, and the ride's driver or rider, its status and its code were such in the tables the request read first. |
| AsAsked.EntriesAsAsked | internal/trips/trips.go:79-153 | Every entry ever logged was committed by a request of the run that asked for just that change. |
| AsAsked.SettledAsConfirmed | internal/payments/payments.go:156-182 | After any run, a settlement on record went the way a confirmation said that came in under that very reference, which belongs to that payment. |
| AsAsked.StartedWithTheCode | internal/trips/trips.go:90-113 | After any run, a ride that was started was so by a request of its driver with the code that was on its row, arrived, at a point of the run. |
| AsAsked.CancelledByItsOwn | internal/rides/rides.go:187-225 | After any run, a cancelled ride was so by a request of its own rider or its own driver, and its status says by which. |
| AsAsked.AttemptedForItsRider | internal/payments/payments.go:78-140 | After any run, a payment attempted was so by a request of the rider of its ride, once completed. |
| AsAsked.BookedAsAsked | internal/rides/rides.go:122-168 | After any run, every ride is one that was booked: its rider, quote, tier and payment method are those of a booking that came in, its route the quote's, the quote the rider's own, and its fare the quote's price for its tier until it completes. |
| AsAsked.ShownToItsOwn | internal/rides/rides.go:172-181 | After any run, a view shown went to a request of the rider or the driver it names. |
| AsAsked.AcceptedAsAsked | internal/matching/matching.go:286-352 | After any run, an acceptance reported went to a request of that driver for that ride. |
| AsAsked.PriceStays | internal/trips/trips.go:279-302 | Nothing but an end changes a ride's fare. |
| AsAsked.RunsAreTraced | internal/rides/rides.go:388-424 | The record of who asked for what stays right over every move of the interleaved system. |
| Requests.StepIsFaithful | internal/rides/rides.go:279-295 | Each step of each handler attempts only what its request asked for, on what it read first, and leaves no more to do than that. |
| ProtocolMatching.OfferedAndAssignedDriversFit | internal/matching/matching.go:137-213 | With Redis written only by this program, after any interleaved run with evictions, every assigned driver and every holder of an offer has the ride's tier and its quote's city, which the assignment transaction never tests. |
| ProtocolMatching.EligibleFits | internal/matching/matching.go:249-251 | A candidate found in the city's pool whose mirror passes the filter is a driver row of that city and tier. |
| ProtocolMatching.PingFits | internal/drivers/drivers.go:329-397 | A ping pools its driver only under the city of its row, given that mirrors copy rows. |
| ProtocolMatching.StepFits | internal/matching/matching.go:217-244 | Every step of every handler keeps offers, mirrors and pool entries fitting the rows, and its own later writes as well. |
| ProtocolMatching.RunsFit | internal/matching/matching.go:137-213 | The same over every interleaved run without foreign writes to Redis. |
| OfferClaims.AssignmentsConsumeClaims | internal/matching/matching.go:286-318 | Over the same runs, for every driver and ride: assignments are at most the claims taken by acceptances, claims taken and the one still held are at most the claims made, and the ride carries the driver exactly when the one assignment was made. |
| OfferClaims.StepConserves | internal/matching/matching.go:166-185 | Each step of each handler conserves claims: one is held only if it was or is now made, is no longer held once taken, and an assignment follows a taking of its own. |
| OfferRuns.OffersNewIffNoneStale | internal/matching/matching.go:137-213 | Over any interleaving and any rewriting of Redis that spares one ride's tried set: the set ends up as what it was and the drivers offered the ride, who are new and all different if and only if no search records an offer to a driver somebody else offered the ride since that search read the set. |
| OfferRuns.NobodyIsOfferedTwice | internal/matching/matching.go:150-160 | Over any interleaved run, with at most one search of the ride at a time past its reading of the tried set, no driver is offered the ride twice, the tried set is exactly the drivers offered, and they are no more than there are drivers. |
| OfferRuns.OffersBounded | internal/matching/matching.go:233-244 | The bound by the number of drivers under the exact condition. |
| OfferRuns.OneAtATimeSeesAll | internal/matching/matching.go:150-160 | A search that no other overlaps has seen every offer made of the ride, so its own is never stale. |
| OfferRuns.TwoSearchesOfferTwice | internal/matching/matching.go:134-137 | The witness: wherever a driver can be offered a ride, two overlapping searches and a decline between them offer it to that driver twice. |
| OfferRuns.LoopStep | internal/matching/matching.go:137-213 | Every step of a search keeps to drivers untried when it read, and only recording an offer changes a tried set. |
| OfferSteps.OthersStep | internal/matching/matching.go:259-274 | No step of any other handler changes a tried set, and none but an acceptance assigns; none claims a driver. |
| LedgerInvariants.TxKeepsInv | migrations/0004_rides.up.sql:24-31 | Every transaction that commits on established facts keeps drivers, riders, trips and money sound. |
| LedgerInvariants.InsertRideKeeps | internal/rides/rides.go:142-158 | Booking keeps the tables sound, in particular one active ride per rider. |
| LedgerInvariants.MoveRideKeeps | internal/rides/rides.go:388-424 | A plain status write keeps them sound. |
| LedgerInvariants.CancelRideKeeps | internal/rides/rides.go:226-245 | A cancellation keeps them sound: whichever driver the ride has at that moment is freed. |
| LedgerInvariants.AssignRideKeeps | internal/matching/matching.go:357-391 | An assignment keeps them sound with the two row guards alone. |
| LedgerInvariants.RegenerateOtpKeeps | internal/rides/rides.go:332-343 | A new code keeps the code set exactly when a driver is. |
| LedgerInvariants.SetAvailabilityHeals | internal/drivers/drivers.go:106-125 | Going online or offline leaves the tables sound even when the driver was on trip without an active ride. |
| LedgerInvariants.StartTripKeeps | internal/trips/trips.go:115-139 | A start keeps ride and trip in lockstep. |
| LedgerInvariants.PauseKeeps | internal/trips/trips.go:159-195 | Pausing and resuming keep them sound. |
| LedgerInvariants.EndTripKeeps | internal/trips/trips.go:279-331 | An end keeps them sound: ride, trip, driver and the only payment change together, and the trip row prices itself. |
| LedgerInvariants.SettlementKeeps | internal/payments/payments.go:116-287 | Attempts and settlements keep them sound. |
| LedgerHistory.TxKeepsChronicle | internal/rides/state.go:34-64 | Every transaction keeps the record in order: legal paths, one assignment, counted attempts and settlements. |
| LedgerHistory.MovesBounded | internal/rides/state.go:34-64 | On a legal record a ride has moved no more often than its status has rank, at most six times. |
| LedgerHistory.AtMostSixMoves | internal/rides/state.go:30-64 | The same for the rides of a database with a record in order. |
| LedgerHistory.EveryMoveIsLegal | internal/rides/state.go:68-73 | Every recorded status write is an edge of the table and strictly raises the rank. |
| LedgerHistory.AssignedOnce | internal/matching/matching.go:364-366 | Every assignment ever recorded for a ride names the driver the ride has, and there is one. |
| LedgerHistory.PaymentsTerminate | internal/payments/payments.go:271-287 | Retries are the failures and never exceed three, attempts never exceed three and cover all settlements, a reference settles at most once. |
| LedgerHistory.OnlyOpenReferencesSettle | internal/payments/payments.go:399-401 | A confirmation changes the tables if and only if its payment is processing under that very reference; superseded, unknown and replayed ones change nothing. |
| LedgerGrowth.ApplyExtends | internal/matching/matching.go:364-366 | No transaction takes back a quote, a driver's tier and city, a ride's rider, quote, tier or driver, a trip's start, a payment's ride and amount, a receipt, or makes a superseded reference current again. |
| LedgerGrowth.ExtendsTransitive | internal/matching/matching.go:364-366 | Such growth adds up over any number of transactions. |
| LedgerTheorems.OnTripIffOneRide | internal/drivers/drivers.go:5-10 | In sound tables a driver is on trip exactly when one and only one active ride carries the driver. |
| LedgerTheorems.DriverIndexRedundant | migrations/0004_rides.up.sql:29-31 | The unique index on active drivers never refuses an assignment that passes the driver guard; the acceptance method relies on it. |
| LedgerTheorems.TripInLockstep | internal/trips/trips.go:115-139 | A trip row exists exactly while its ride is IN_PROGRESS or COMPLETED, has ended exactly when COMPLETED, and a code is set exactly when a driver is. |
| LedgerTheorems.SecondGuardsNeverFail | internal/trips/trips.go:97-139 | Once the status check of a start has passed, the missing-code and duplicate-trip branches are unreachable; once that of an end has, so are its missing trip and its second guard. |
| LedgerTheorems.OneAmount | internal/payments/payments.go:186-267 | All records of a completed ride agree on amount and duration, and it has one payment. |
| LedgerTheorems.SnapshotStrandsDriver | internal/rides/rides.go:215-245 | Freeing the driver of the authorisation read would strand the driver of an acceptance in between; freeing the one the transaction finds does not. |
| CoherentRuns.OneByOneCoherent | internal/drivers/drivers.go:100-279 | After any sequence of requests that do not overlap, with keys expiring between them, mirrors equal rows, pooled drivers are available in their city, markers name exactly the active ride, cached rides equal fresh loads but for the update time. |
| CoherentRuns.FreshCoherent | migrations/0004_rides.up.sql:1-31 | A database without rides and an empty Redis are in step. |
| CoherentRuns.GetRefinesUncached | internal/rides/rides.go:428-445 | A read through the cache shows, or refuses, what an uncached read would, up to the update time. |
| CoherentRuns.ToggleHeals | internal/drivers/drivers.go:100-136 | From an orphaned on_trip driver with any keys of its own in its city, one change of availability cannot be refused and restores everything. |
| CoherentRuns.StepInStep | internal/rides/rides.go:413-423 | Between two steps of a lone request only the keys of the driver and ride its last commit touched can lag. |
| CoherentRuns.AcceptInStep | internal/drivers/drivers.go:221-231 | The steps after an acceptance bring the driver's mirror, marker and pool entry and the ride's cache back in step. |
| CoherentRuns.CancelInStep | internal/rides/rides.go:245-253 | So do those after a cancellation. |
| CoherentRuns.EndInStep | internal/trips/trips.go:333-348 | So do those after an end. |
| CoherentRuns.ToggleInStep | internal/drivers/drivers.go:153-201 | So do those after a change of availability. |
| CoherentRuns.ReleaseInStep | internal/drivers/drivers.go:237-279 | Releasing a freed driver mirrors the row and pools the driver only if available. |
| CoherentRuns.GetInStep | internal/rides/rides.go:428-445 | Filling the cache keeps it equal to the rows. |
| Coherence.CommitLags | internal/rides/rides.go:413-416 | A commit leaves every key in step except those of the one driver and the one ride it touches. |
| Stores.MethodsKeepCoherence | internal/drivers/drivers.go:5-10 | Any service method whose effect is a request run alone keeps the tables sound and the keys in step. |
| DriverService.Drivers.SetAvailability | internal/drivers/drivers.go:100-136 | The protocol's request run alone. Refused exactly for an unknown driver and for one on trip whom a ride of one of the six active statuses carries; otherwise the row has the new status and the keys are those of an available, or an offline, driver, key by key. |
| DriverService.Drivers.GoAvailable | internal/drivers/drivers.go:153-183 | No marker, mirrored as available, and in the city's pool at the last position if one is fresh; nothing else changes. |
| DriverService.Drivers.GoOffline | internal/drivers/drivers.go:185-214 | The offer held is given up under both of its keys, and the driver is out of the pool, unmarked and mirrored as offline; nothing else changes. |
| DriverService.Drivers.MarkOnTrip | internal/drivers/drivers.go:221-231 | The driver leaves the pool, is marked with the ride and mirrored as on trip; nothing else changes. |
| DriverService.Drivers.Release | internal/drivers/drivers.go:237-279 | The protocol's release, whatever its caller does next: unmarked, mirrored as the row is, pooled if available and fresh; refused exactly for an unknown driver. |
| DriverService.Drivers.ReadAndClearTripDistance | internal/drivers/drivers.go:286-299 | Answers exactly when a counter is there and positive, within half a metre of it, halves up, and leaves no counter. |
| DriverService.Drivers.UpdateLocation | internal/drivers/drivers.go:329-397 | The protocol's two steps and one ping of the ping model. Refused exactly when a live counter of the driver and second stands at three or more; otherwise the position is stored, an available driver pooled there, and a jump of at most 200 metres added to the counter of the marked ride. |
| DriverService.PingIsSeen | internal/drivers/drivers.go:364-382 | An accepted ping leaves position, distance and counter as the ping model says. |
| OfferLoop.Offers.OfferNext | internal/matching/matching.go:137-213 | Offers the ride to the first returned candidate who is untried, mirrored as available, of the tier, with a fresh position and without an offer, under both offer keys and in the tried set; returns false, with Redis unchanged, exactly when none is. |
| OfferLoop.Offers.TryClaim | internal/matching/matching.go:166-185 | Claims and records for a driver holding no offer, else changes nothing. |
| OfferLoop.Offers.RequestMatch | internal/matching/matching.go:259-274 | One offer-loop step for a ride on file that is matching, nothing otherwise; false exactly when the ride is not on file. |
| OfferLoop.ClaimsNearest | internal/matching/matching.go:138-145 | The driver claimed is nearest of all within five kilometres who could be, and among the first ten returned. |
| OfferLoop.NoneMeansNone | internal/matching/matching.go:138-145 | If fewer than ten were returned and none could be claimed, nobody in the pool within the radius can. |
| RideService.Rides.UpdateStatus | internal/rides/rides.go:388-424 | Succeeds exactly when the ride has one of the given statuses; then status and update time, with a cancellation's reason and freed driver in the same commit, and the cache entry dropped; otherwise nothing changes. |
| RideService.Rides.Create | internal/rides/rides.go:122-168 | The protocol's booking run alone; succeeds exactly for the rider's unexpired quote with that tier and no active ride, then the row and the view shown have the tier, quote and payment booked, the quote's route and its price for the tier, and one offer-loop step has been made for it. |
| RideService.Rides.Book | internal/rides/rides.go:142-165 | Refused exactly while a ride of the rider has one of the six active statuses; otherwise the one new row is matching and has the tier, quote and payment booked, the quote's route and its price for the tier. |
| RideService.Rides.Cancel | internal/rides/rides.go:187-255 | The protocol's cancellation run alone. Succeeds exactly for the ride's own rider or driver before it is in progress; then the status says by which, the reason is on the row and in the view, and the driver found at commit is free. |
| RideService.Rides.Expire | internal/rides/rides.go:262-264 | Expires the ride exactly when it is still matching, and changes nothing else of it but its update time. |
| RideService.Rides.DriverProgress | internal/rides/rides.go:279-295 | The protocol's progress run alone; succeeds exactly for the assigned driver in the status before, and moves the ride one status on. |
| RideService.Rides.Arriving | internal/rides/rides.go:268-270 | The progress from assigned to arriving, each refusal exactly when its check fails. |
| RideService.Rides.Arrived | internal/rides/rides.go:273-275 | The progress from arriving to arrived, each refusal exactly when its check fails. |
| RideService.Rides.RegenerateOTP | internal/rides/rides.go:323-344 | Sets the new code, and the update time, exactly for the ride's rider between assignment and start. |
| RideService.Rides.CachedLoad | internal/rides/rides.go:428-445 | The protocol's read run alone: the cached view, with nothing changed, or the loaded one, which is then cached; not found exactly when there is neither. |
| RideService.Rides.Get | internal/rides/rides.go:172-181 | Shows the cached or loaded view to the rider or driver it names and to nobody else; not found and forbidden are told apart, and a loaded view is cached either way. |
| RideService.Rides.Load | internal/rides/rides.go:448-488 | The view of the ride's row with the card of its driver's. |
| MatchingService.Engine.AssignTx | internal/matching/matching.go:357-391 | Commits exactly when the ride is matching, the driver available and no other ride of the driver still active; then driver, code and status are on the ride's row and the driver's says on trip; otherwise nothing changes. |
| MatchingService.Engine.Accept | internal/matching/matching.go:286-352 | The protocol's acceptance run alone. With the ride's own offer held it succeeds exactly when the ride is matching and the driver available, and leaves rows and keys as an assignment does; without, exactly when the driver already has the ride, neither cancelled nor expired. The offer is consumed whatever happens, and each failure says which it was. |
| MatchingService.Engine.Decline | internal/matching/matching.go:396-428 | The protocol's decline run alone: the driver's offer key goes, the ride's if it named the driver, and then one offer-loop step for a ride still matching. |
| MatchingService.Engine.ClaimMatchingBatch | internal/matching/matching.go:490-532 | One row per locked ride, in order. |
| MatchingService.Engine.SweepRow | internal/matching/matching.go:462-484 | A row older than sixty seconds expires its ride if still matching; any other is offered on exactly when no offer is out. |
| MatchingService.Engine.SweepRows | internal/matching/matching.go:462-484 | The rows of a batch, one after another, are the loop of the protocol run alone; exactly the overdue ones expire. |
| MatchingService.Engine.Sweep | internal/matching/matching.go:455-485 | The protocol's sweep run alone; of all rides exactly the overdue ones of the batch expire, and the pool is left alone. |
| SweepProgress.SweepTakesFifty | internal/matching/matching.go:490-532 | One uncontended sweep expires fifty of the rides waiting, or all. |
| SweepProgress.SweepsExpire | internal/matching/matching.go:455-485 | After k sweeps with nothing else touching rides at least min(M, 50 k) of the M rides overdue at the first have expired. |
| SweepProgress.Ticks | internal/matching/matching.go:432-449 | The ticker's loop of sweeps, whichever oldest batch the database picks each time, expires at least min(M, 50 k) of them in k ticks. |
| TripService.Trips.Start | internal/trips/trips.go:79-153 | The protocol's start run alone. Succeeds exactly when the ride has this driver, is arrived, has exactly the code given and no trip row, and then the ride is in progress with a fresh trip row begun now; a wrong code, and every other refusal, is told and changes nothing. |
| TripService.Trips.Pause | internal/trips/trips.go:159-176 | The protocol's pause run alone. Succeeds exactly for the ride's driver while the trip is started; then the row is paused and the key holds the whole second it began and expires in two hours. |
| TripService.Trips.Resume | internal/trips/trips.go:180-195 | The protocol's resume run alone. Succeeds exactly for the ride's driver while the trip is paused; then the whole seconds since the key was set are added, and a rejected resume leaves tables, keys and the pause in flight as they were. |
| TripService.Trips.End | internal/trips/trips.go:207-358 | The protocol's end run alone. Succeeds exactly for the ride's driver while it is in progress; bills the metered distance to within half a metre, or the quoted one without a positive counter, at the ride's tier and the quoted surge, for the journey that really happened, charged within n + 1 seconds of its time net of n pauses; ride, trip, driver and one pending payment of that total by the ride's own payment method change together. |
| TripService.Trips.CommitBill | internal/trips/trips.go:279-331 | Commits exactly when the ride is in progress, its trip not ended and the payment id new; then all four rows change together, and otherwise none. |
| TripService.Trips.GatherBill | internal/trips/trips.go:207-277 | The bill has the rows' quote, tier, payment method, start and surge, the paused seconds with the pause in flight folded in, and the metered distance to within half a metre or the quoted one; refused exactly for others than the driver and outside progress. |
| TripService.Trips.ConsumePause | internal/trips/trips.go:397-415 | The whole seconds since the key was set, none if it is gone, two hours old or in the future, and no key left. |
| TripService.PauseIsWorth | internal/trips/trips.go:244-247 | The seconds the stores remember of a journey, plus what its key is worth now, are those of its pauses. |
| TripService.FairCharge | internal/trips/trips.go:249-254 | Every journey remembered is charged for at least nothing, at most its length, and within n + 1 seconds of its net time. |
| TripService.ClockKeepsOrder | internal/trips/trips.go:172-172 | As long as no call comes with an earlier clock than the one before, all journeys stay in order, whichever starts, pauses or resumes. |
| TripService.OthersLeaveTrips | internal/trips/trips.go:13-16 | No other request run alone changes a trip or the key of a pause, so every journey stays remembered. |
| TripRuns.PausesAndCharges | internal/trips/trips.go:159-358 | Over any sequence of requests of all kinds that do not overlap, on one clock that never goes back: a pause has a key exactly while its trip is paused, and every ended trip was priced within n + 1 seconds of the time its journey was not paused. |
| TripRuns.RequestKeeps | internal/trips/trips.go:79-358 | A start, pause, resume or end run alone until it is done adds to the history exactly what happened and keeps what the stores remember of it. |
| TripRuns.CallsKeep | internal/trips/trips.go:159-358 | The same by induction over the run. |
| PaymentService.Payments.Trigger | internal/payments/payments.go:78-140 | The protocol's trigger run alone. Succeeds exactly for the rider's completed ride whose payment is pending or has failed fewer than three times, which then waits under the new reference; exhausted exactly after three failures; otherwise nothing changes. |
| PaymentService.Payments.HandleWebhook | internal/payments/payments.go:156-182 | The protocol's confirmation run alone. The payment processing under that very reference succeeds, with a receipt of its amount, fare, distance, times and driven seconds, when the provider says success, and otherwise fails with one retry more and no receipt; under any other reference nothing changes, and only an unknown one is an error. |
| PaymentService.Payments.ApplySuccess | internal/payments/payments.go:186-267 | Payment and receipt commit together as the protocol's settlement, and nothing else changes. |
| PaymentService.Payments.ApplyFailure | internal/payments/payments.go:271-287 | The payment fails with one retry more, and nothing else changes. |
| PaymentService.ReferenceFindsRow | migrations/0006_payments.up.sql:7-7 | Looking a reference up finds exactly the row that holds it. |
| RideStates.SourcesFor | internal/rides/state.go:77-85 | Returns exactly the statuses from which the move is one of the seventeen legal ones. |
| RideStates.LegalRaisesRank | internal/rides/state.go:34-64 | Every legal move raises the rank, and the statuses without a move are exactly the inactive ones. |
| TripClock.StoringKeepsCharge | internal/payments/payments.go:238-244 | The duration a receipt recomputes from stored times is the one charged. |
| TripClock.ChargedExactly | internal/trips/trips.go:249-254 | The charge is the whole seconds of the trip less those of its pauses, or nothing. |
| TripClock.FoldedNearPausedTime | internal/trips/trips.go:397-415 | The folded whole seconds of n pauses differ by less than n seconds from the time paused. |
| TripClock.ChargeNearNetTime | internal/trips/trips.go:249-254 | A trip with n pauses is charged within n + 1 seconds of its net time, between nothing and its length. |
| TripClock.ShortPausesAllCount | internal/trips/constants.go:18-20 | A trip with n pauses is charged within n + 1 seconds of the time it was not paused if, and for n below 3600 only if, each pause is shorter than the key's two hours; otherwise it is charged two hours less n + 1 seconds too much, or more. |
| TripClock.TwoHourPauseIsLost | internal/trips/trips.go:397-415 | The witness: a trip of nothing but a pause of exactly two hours is charged 7200 seconds. |
| Pricing.Prices | internal/pricing/pricing.go:112-118 | Exactly the quoted fare of every tier. |
| Pricing.RoundIsNearest | internal/pricing/pricing.go:70-70 | The rounding is the nearest integer, halves away from zero, and nothing else. |
| Pricing.WholeRupees | internal/pricing/pricing.go:62-109 | Fares are multiples of 100 paise, each within 50 paise of its surged sum. |
| Pricing.QuotedFare | internal/pricing/pricing.go:62-71 | The quoted fare is the multiple of 100 paise nearest to base plus kilometres and minutes at the card's rates, times the surge. |
| Pricing.ItemisedFare | internal/pricing/pricing.go:91-109 | The final fare's distance and time are the whole paise nearest to each, and its total the multiple of 100 paise nearest to their sum with the base, times the surge. |
| Pricing.CardFares | internal/pricing/pricing.go:19-23 | The rate card, and what a leg of ten kilometres and twenty minutes costs by it. |
| Pricing.FareMonotone | internal/pricing/pricing.go:62-71 | The quoted fare never falls with distance, duration, surge or a dearer card. |
| Pricing.FinalFareMonotone | internal/pricing/pricing.go:91-109 | Nor does the final fare. |
| Pricing.TiersOrdered | internal/pricing/pricing.go:19-23 | Mini costs at most sedan, sedan at most xl, quoted and final. |
| Pricing.FinalFareNearFare | internal/pricing/pricing.go:62-109 | On equal inputs the final and the quoted fare differ by at most 100 paise for each begun hundredfold of surge, so by at most one rupee at any surge the program computes. |
| Pricing.FinalFareCanDiffer | internal/pricing/pricing.go:62-109 | They do differ: an input where the final fare is one rupee dearer. |
| Pricing.BucketMonotone | internal/pricing/pricing.go:122-137 | Surge rises with demand, falls with supply, and stays between 100 and 200. |
| Pricing.SurgeSteps | internal/pricing/pricing.go:122-137 | Without surge below the supply, then a fifth, a half and double more as demand reaches once, twice and three times the supply. |
| Geohash.Encode | internal/pricing/geohash.go:7-43 | The bit-interleaving loop prints the base32 groups of the point's bisection path. |
| Geohash.HashNamesItsCell | internal/pricing/geohash.go:7-43 | The decoded cell has the advertised size and contains a point exactly when that point has the same hash, for every point and precision. |
| Geohash.HashIsExpansion | internal/pricing/geohash.go:7-43 | On the globe the letters spell, five bits each, the interleaved binary expansions of longitude and latitude. |
| Geohash.CellIsExpansion | internal/pricing/geohash.go:17-31 | The western and southern edges of a path's cell are the numbers its even and its odd bits spell, in units of the cell's width from the date line and of its height from the south pole. |
| Geohash.CellBracketsPoint | internal/pricing/geohash.go:7-43 | For coordinates on the globe the cell contains the point in the plain sense. |
| Geohash.HashPrefix | internal/pricing/geohash.go:7-43 | A shorter hash of a point is a prefix of the longer one. |
| Geohash.CellSize | internal/pricing/geohash.go:17-31 | After n bits a cell spans 360/2^ceil(n/2) by 180/2^floor(n/2) degrees. |
| Geohash.CellHoldsItsPoints | internal/pricing/geohash.go:17-31 | A cell contains exactly the points whose bits lead to it. |
| Geohash.DecodeText | internal/pricing/geohash.go:33-40 | Decoding inverts the printing of the five-bit groups. |
| Geohash.LetterTable | internal/pricing/constants.go:32-32 | The letter of a digit is its entry of the base32 alphabet. |
| Polyline.PointAtDistance | web/src/lib/geo.ts:61-73 | The accumulating scan puts the point on the first segment whose end reaches the distance, dividing it in just that proportion in both coordinates, with the segment's bearing; past the end it is the end. |
| Polyline.CumulativeDistances | web/src/lib/geo.ts:78-83 | Each entry is the one before and the length of the leg between, from zero; an empty line has one entry, zero. |
| Polyline.PointAtDistanceCum | web/src/lib/geo.ts:87-111 | The binary search terminates and puts the point on the first segment whose end exceeds the distance, dividing it in just that proportion in both coordinates, with the segment's bearing; from the end on it is the end. |
| Polyline.SegmentDivides | web/src/lib/geo.ts:20-20 | Interpolation divides a segment in the proportion of the distances, in both coordinates. |
| Polyline.LookupRefinesScan | web/src/lib/geo.ts:87-111 | For every line and every distance not negative, search and scan give the same position, off the vertices the same bearing, and differ in the done flag exactly at the far end. |
| Polyline.NegativeDistance | web/src/lib/geo.ts:94-94 | Before the start they agree if and only if the first two points coincide. |
| Polyline.LevelRunIsOnePoint | web/src/lib/geo.ts:108-110 | Points with equal cumulative distance are one point. |
| EventStream.Serve | internal/events/hub.go:81-99 | The loop writes for its signals, in order, an event line and a data line for a payload and a ping comment for a tick, each with a blank line after. |
| EventStream.Client.Read | web/src/sse/stream.ts:56-65 | One read appends the chunk and hands over exactly the complete frames. |
| EventStream.Client.HandleFrame | web/src/sse/stream.ts:89-105 | A frame yields the event of its joined data lines, if they parse. |
| EventStream.DrainSplit | web/src/sse/stream.ts:56-65 | Draining early and again later is draining once. |
| EventStream.ChunkingIrrelevant | web/src/sse/stream.ts:54-66 | Any splitting of the stream into chunks gives the same events and the same remainder. |
| EventStream.FrameBoundary | internal/events/hub.go:106-108 | The first blank line of a stream that starts with a frame ends that frame. |
| EventStream.FrameData | web/src/sse/stream.ts:89-105 | A message frame yields its payload, a heartbeat nothing. |
| EventStream.RoundTrip | web/src/sse/stream.ts:50-66 | Whatever is printed, and however it is cut, the client has emitted what the payloads so far parse to, each in its place, and nothing else. |
| EventStream.LineAdds | web/src/sse/stream.ts:92-97 | A data line adds its text less one leading space, any other line nothing. |
| EventStream.ManyLinesArrive | web/src/sse/stream.ts:89-105 | A payload of any number of lines, sent one data line each, arrives whole. |
| Idempotency.Middleware.InsertIdemKey | internal/httpapi/idempotency.go:121-132 | The first insert wins and stores status and printed body, null for a blank one; later ones change nothing. |
| Idempotency.Middleware.Serve | internal/httpapi/idempotency.go:28-92 | Without interference the middleware answers as the interleaved request does. With a row stored it replays the reply, or answers 422 to a different request; without, it answers what the handler wrote and stores just that, its body as the column prints it or null for a blank one, exactly when the status is below 500. |
| Idempotency.Middleware.RunHandler | internal/httpapi/idempotency.go:150-169 | The capturing writer holds what the calls of the handler amount to: the last status set, 200 for a body without one, and all bodies. |
| Idempotency.EncodedReply | internal/httpapi/json.go:19-24 | A handler that encodes one JSON value is captured with its status and a body that ends in a newline. |
| Idempotency.RowWrittenOnce | internal/httpapi/idempotency.go:121-132 | Under every interleaving the row is written at most once and never changes. |
| Idempotency.OneAnswerPerKey | internal/httpapi/idempotency.go:53-90 | Every answer to one repeated request below 500 is the stored reply verbatim, or, of the one request that stored it, the reply of which the column keeps the normal form. |
| Idempotency.AnswersAgree | internal/httpapi/idempotency.go:53-90 | Any two answers below 500 agree as the column keeps them. |
| Idempotency.SameTextIffBothReplayed | internal/httpapi/idempotency.go:53-90 | Two such answers are literally the same if and only if neither is the one that was stored. |
| Idempotency.ReplayDropsNewline | internal/httpapi/idempotency.go:45-90 | The witness: a booking and its repetition, whose answer lacks the final newline. |
| Pings.RateLimitExact | internal/drivers/drivers.go:335-346 | With the round trips of all pings interleaved at will, of one driver and second never fewer than the first three are accepted, and exactly min(3, attempts) if and only if there were at most three or no gap of two seconds between two in turn. |
| Pings.PromptPingsAreLimited | internal/drivers/drivers.go:316-320 | So exactly min(3, attempts) where that driver's pings of that second reach Redis within two seconds of its start. |
| Pings.MeteredDistanceBound | internal/drivers/drivers.go:364-382 | The metered distance is at most 200 metres per ping landed since the last clear, over every run. |
| Pings.MeteredPerSecond | internal/drivers/drivers.go:364-382 | It is at most 600 metres per driver-second whose pings landed, where each of those seconds meets the exact condition of the limit. |
| Pings.LatePingExceedsLimit | internal/drivers/constants.go:26-28 | The witness: a ping that reaches Redis two seconds after reading its clock is a fourth one. |
| Pings.GapBeforeALiveCounterExceedsLimit | internal/drivers/constants.go:26-28 | A second witness: after a gap, the fourth accepted ping finds its counter alive. |

## Left out

- I/O failure: a request that hits one stops between two steps. So the branches that log a failed Redis command or card load and go on are not modelled, nor is the reload failure in the idempotency middleware.
- Postgres isolation: a transaction is one atomic step whose guards see the rows it commits against; re-evaluation under READ COMMITTED and lock waits are not modelled. The batch `FOR UPDATE SKIP LOCKED` may return any subset of the matching rows in the interleaved model.
- Floating point: fares, hashes and polylines are in exact arithmetic.
- Timestamps are taken to reach their microsecond columns cut, not rounded, as the driver library encodes them; the library is not part of this model, and TripClock.RoundingWouldNot shows that rounding would break the receipt's duration.
- Key lifetimes: in the interleaved model any key may vanish at any time; only the key of a pause carries its exact expiry. Once a tried set has expired its drivers may be offered the ride again. The rate counter has its lifetime in Pings and DriverService; in the interleaved model of dispatch a ping carries the limiter's answer and the metered distance as inputs.
- Mirror, pool and cache coherence under overlapping requests: late Redis writes can leave stale entries there, so it is proved only of requests that do not overlap, as is what the stores remember of a trip's pauses.
- Error values: the protocol tells success from refusal; which error a service returns is stated only where it says what failed.
- Every clock a request reads while ending a trip is one reading; a row's creation and update times share the request's clock.
- Idempotency.Middleware.Serve: models the middleware without interference, so its reload branch appears only in the interleaved model of the same module.
- Quote creation is an arbitrary insert: the distance estimate and the surge computation from demand counters only add easy members.
- Event publication, subscription and reconnect timing, decoding of multi-byte characters across chunks, and carriage returns, which the client does not treat as line ends.
- Password hashing, signatures, request hashes and identifier generation beyond equality and freshness.
- HTTP routing, validation, authentication, configuration, logging, metrics, the ride history query, the mock provider's timing, and the web client's panels and simulator.
