# Concert ticketing core — a Dafny model

This project models the core of a concert ticketing service: booking, inventory and ledger. It covers:

- the conditional stock update that is the only oversell guard;
- intake of queued booking messages, with idempotency-key deduplication;
- the reservation state machine: PENDING, CONFIRMED, PAID, DELIVERED and CANCELLED. Confirm, pay, deliver, cancel and partial refund drive it;
- the sweep that releases expired holds;
- the settlement report folded over the ledger;
- surge pricing and availability reads through the `stock::<id>` cache, with the reserve script, its rollback and the database-only reservation;
- the concert catalogue: cache-aside listing and detail reads, the search predicate with its minimum-capacity post-filter, creation and partial update;
- the dashboard's sold-ticket arithmetic;
- the mapping from error codes to HTTP statuses.

The Postgres tables are one abstract state, `Store.Tables`. That state holds:

- categories, bookings, ledger, payments, events and venues, each a `seq` in table order;
- a counter `nextId` that stands for UUID generation.

`Store.Database` is the class whose fields the services update in place. The Redis keyspaces are `Redis.Keyspace<V>`: a reachability flag and a map from key to value and TTL. `Redis.StringCache` and `Redis.ObjectCache` are the classes around them.

Each service operation comes in two forms:

- a pure transition function from the state before to the state after, plus what the caller sees (`Bookings.Intake`, `Payments.Pay`, `Concerts.Updated`, …);
- a method of the service class (`Bookings.BookingService`, `Payments.PaymentService`, `Pricing.PricingService`, `Inventory.InventoryService`, `Concerts.ConcertService`). The method performs the repository calls one at a time and ensures that it lands on the function's result.

An operation that throws inside its `@Transactional` method leaves every table as it was. The properties are lemmas about the functions. The central invariants are:

- `Store.WellFormed`: unique ids, at most one booking per idempotency key, ids below `nextId`, every booking on a stocked category;
- `Store.Conserved`: for every category, available stock plus the quantities of its non-cancelled bookings equals the allocation.

`Invariants.Run` is any sequence of booking, payment, refund and sweep calls.

Representation choices:

- BigDecimal amounts are `real`; they are exact.
- Java `int` sums over streams are wrapped to 32 bits explicitly (`Decimal.Int32Sum`).
- The double occupancy rate of the surge table is a `Rate` that is finite, +∞, −∞ or NaN. A zero allocation is therefore modelled exactly, and the table is proved equal to an integer cross-multiplication.
- Instants are integer seconds, and `now` is a parameter.

Two behaviours of the code worth noting:

- **A payment appends a CREDIT.** It is a CREDIT of the booking's total, not a DEBIT (`src/main/java/com/concert/ticketing/services/ledger/PaymentService.java:51`). In the settlement report a paid booking therefore nets to zero (`Settlement.PaymentCountsAsRefund`).
- **A null venue name is not "no filter".** `findByNameIgnoreCase` is a derived query, and with a null name it becomes an `IS NULL` condition. So a request without a venue looks for a venue whose name is null (`VenueRepository.NameMatches`).

## Model

| member | source | states |
|---|---|---|
| CategoryRepository.FindByEventId | src/main/java/com/concert/ticketing/repositories/TicketCategoryRepository.java:14-15 | a category is in the result exactly when it is in the table with that event id |
| CategoryRepository.AfterDecrease | src/main/java/com/concert/ticketing/repositories/TicketCategoryRepository.java:17-27 | a row whose id matches and whose stock is at least qty loses qty; every other row and every other column is unchanged |
| CategoryRepository.AfterIncrease | src/main/java/com/concert/ticketing/repositories/TicketCategoryRepository.java:29-32 | the matching row with a non-null stock gains qty with no upper bound; every other row is unchanged |
| CategoryRepository.DecreaseReportsOneRow | src/main/java/com/concert/ticketing/repositories/TicketCategoryRepository.java:17-27 | with unique ids the update reports at most one row, and one exactly when the row exists with stock ≥ qty |
| CategoryRepository.NothingDecreased | src/main/java/com/concert/ticketing/repositories/TicketCategoryRepository.java:22-24 | when no row matched, the table is unchanged |
| CategoryRepository.DecreasedRowExists | src/main/java/com/concert/ticketing/repositories/TicketCategoryRepository.java:17-27 | a reported row means the id exists and its stock covered qty |
| CategoryRepository.IncreaseReportsOneRow | src/main/java/com/concert/ticketing/repositories/TicketCategoryRepository.java:29-32 | the increment reports one row exactly when the id exists |
| CategoryRepository.DecreaseThenIncrease | src/main/java/com/concert/ticketing/repositories/TicketCategoryRepository.java:17-32 | a successful decrement by q followed by an increment by q restores the table |
| CategoryRepository.IncreasedIsFound | src/main/java/com/concert/ticketing/repositories/TicketCategoryRepository.java:29-32 | after the increment, findById shows the row with its stock raised by qty; every other id finds what it found before |
| CategoryRepository.FindById | src/main/java/com/concert/ticketing/services/pricing/PricingService.java:47-51 | the found category has the id and is in the table; None exactly when no row has it |
| Store.Database.DecreaseStock | src/main/java/com/concert/ticketing/repositories/TicketCategoryRepository.java:17-27 | the new table is the conditional decrement of the old one, and the row count is returned |
| Store.Database.IncreaseStock | src/main/java/com/concert/ticketing/repositories/TicketCategoryRepository.java:29-32 | the new table is the unconditional increment of the old one |
| BookingRepository.ExistsByIdempotencyKey | src/main/java/com/concert/ticketing/repositories/BookingRepository.java:12 | true iff a stored booking carries the key |
| BookingRepository.AtMostOnePerKey | src/main/java/com/concert/ticketing/repositories/BookingRepository.java:12 | under the unique key column, two bookings with the same key are the same row |
| BookingRepository.FindByUserId | src/main/java/com/concert/ticketing/repositories/BookingRepository.java:14 | exactly the bookings of the user |
| BookingRepository.FindExpiredBookings | src/main/java/com/concert/ticketing/repositories/BookingRepository.java:16-17 | exactly the PENDING bookings with expiresAt strictly before now, so a deadline equal to now is not selected |
| BookingRepository.ExpiredHaveDistinctIds | src/main/java/com/concert/ticketing/repositories/BookingRepository.java:16-17 | the selected bookings have distinct ids |
| BookingRepository.FindById | src/main/java/com/concert/ticketing/services/booking/BookingService.java:45-46 | the found booking has the id and is stored; None exactly when no row has it |
| Store.SavedIsFound | src/main/java/com/concert/ticketing/services/booking/BookingService.java:88-89 | after saving a stored booking, findById returns the saved value; every other id finds what it found before |
| Bookings.ValidateUserAccess | src/main/java/com/concert/ticketing/services/booking/BookingService.java:153-180 | access is granted iff the caller is an ADMIN or owns the booking; no principal is AccessDenied and an unknown user is USER_NOT_FOUND |
| Bookings.Details | src/main/java/com/concert/ticketing/services/booking/BookingService.java:41-56 | success iff the booking exists and the caller may see it; the result is that stored booking |
| Bookings.UserBookings | src/main/java/com/concert/ticketing/services/booking/BookingService.java:58-76 | success iff the caller may see the user's bookings; the result is exactly that user's bookings |
| Bookings.NewBooking | src/main/java/com/concert/ticketing/services/booking/BookingService.java:209-221 | PENDING, the requested quantity, total = price × quantity, expiresAt = now + 5 minutes, the message's key |
| Bookings.Intake | src/main/java/com/concert/ticketing/services/booking/BookingService.java:194-234 | Duplicate iff the key exists; a booking is created only after a matched decrement; any other outcome changes nothing |
| Bookings.IntakeCreatesIff | src/main/java/com/concert/ticketing/services/booking/BookingService.java:199-206 | a booking is created iff the key is new and the conditional decrement matched a row |
| Bookings.IntakeCreates | src/main/java/com/concert/ticketing/services/booking/BookingService.java:204-230 | a created intake decrements the category, appends exactly one PENDING booking and exactly one DEBIT of its total tagged with the category's event, and changes nothing else |
| Bookings.RedeliveryIsNoOp | src/main/java/com/concert/ticketing/services/booking/BookingService.java:199-202 | processing a message a second time changes nothing and creates nothing |
| Bookings.IntakePreserves | src/main/java/com/concert/ticketing/services/booking/BookingService.java:204-230 | intake keeps the constraints and stock conservation |
| Bookings.ReservationBalances | src/main/java/com/concert/ticketing/services/booking/BookingService.java:204-220 | the decrement is balanced by the new PENDING hold, category by category |
| Bookings.Confirmation | src/main/java/com/concert/ticketing/services/booking/BookingService.java:78-93 | unknown id is DATA_NOT_FOUND; success iff the booking is PENDING; a success saves that booking as CONFIRMED and changes nothing else; a refusal changes nothing |
| Bookings.ConfirmationEffect | src/main/java/com/concert/ticketing/services/booking/BookingService.java:84-88 | after a confirm, findById shows the booking CONFIRMED; every other booking and every other table is as it was |
| Bookings.ConfirmationPreserves | src/main/java/com/concert/ticketing/services/booking/BookingService.java:84-88 | confirm keeps the constraints and stock conservation |
| Bookings.Delivery | src/main/java/com/concert/ticketing/services/booking/BookingService.java:95-110 | unknown id is DATA_NOT_FOUND; success iff the booking is PAID; a success saves that booking as DELIVERED and changes nothing else; a refusal changes nothing |
| Bookings.DeliveryEffect | src/main/java/com/concert/ticketing/services/booking/BookingService.java:101-106 | after a deliver, findById shows the booking DELIVERED; every other booking and every other table is as it was |
| Bookings.DeliveryPreserves | src/main/java/com/concert/ticketing/services/booking/BookingService.java:101-106 | deliver keeps the constraints and stock conservation |
| Bookings.Cancellation | src/main/java/com/concert/ticketing/services/booking/BookingService.java:112-146 | unknown id is DATA_NOT_FOUND; a denied caller gets the access failure; a CANCELLED or DELIVERED booking is refused; success iff the booking is found, the caller has access, its status is live and its category loads; a success is exactly the three writes; a refusal changes nothing |
| Bookings.CancellationEffect | src/main/java/com/concert/ticketing/services/booking/BookingService.java:122-137 | after a cancel, findById shows the booking CANCELLED and its category with the quantity back on sale; one CREDIT of the total, tagged with the booking and its concert, ends the ledger; every other booking, category and table is as it was |
| Bookings.CancelWritesEffect | src/main/java/com/concert/ticketing/services/booking/BookingService.java:122-137 | the three writes read back through the repositories: status, stock and ledger as above, everything else unchanged |
| Bookings.CancellationPreserves | src/main/java/com/concert/ticketing/services/booking/BookingService.java:122-137 | cancel keeps the constraints and stock conservation: the seats go back once |
| Bookings.CancelPreserves | src/main/java/com/concert/ticketing/services/booking/BookingService.java:127-129 | returning a live booking's quantity and marking it CANCELLED keeps conservation |
| Bookings.StatusChangePreserves | src/main/java/com/concert/ticketing/services/booking/BookingService.java:84-88 | a change between live statuses keeps the constraints and conservation |
| Bookings.Refund | src/main/java/com/concert/ticketing/services/booking/BookingService.java:258-284 | unknown id is DATA_NOT_FOUND; a status other than PAID or DELIVERED, or an amount above the total, is refused; success iff neither holds and the category loads; a success appends one CREDIT of the requested amount for the booking and its concert and changes nothing else; a refusal changes nothing |
| Bookings.ValidatedIntake | src/main/java/com/concert/ticketing/services/booking/BookingService.java:204 | corrected intake: a quantity below one is refused without any change, any other message is processed as written |
| Bookings.CleanupAll | src/main/java/com/concert/ticketing/services/booking/BookingService.java:248-254 | the loop keeps the number of categories and bookings and every row's id, and writes no ledger entry, payment, event or venue (its effect on the bookings and the stock is CleanupAllPreserves) |
| Bookings.CleanupAllPreserves | src/main/java/com/concert/ticketing/services/booking/BookingService.java:248-254 | the loop over distinct live bookings cancels exactly those, keeps conservation and changes only bookings and stock |
| Bookings.SweepCancelsExactlyExpired | src/main/java/com/concert/ticketing/services/booking/BookingService.java:236-256 | the sweep cancels exactly the expired PENDING bookings, changes only stock in the categories, writes no ledger entry and keeps the invariants |
| Bookings.SweepReturnsReleasedSeats | src/main/java/com/concert/ticketing/services/booking/BookingService.java:248-254 | per category, the stock put back equals the seats the cancelled holds released |
| Bookings.BookingService.ProcessInternalBooking | src/main/java/com/concert/ticketing/services/booking/BookingService.java:194-234 | the database ends in Intake's state and keeps its invariants |
| Bookings.BookingService.ProcessValidatedBooking | src/main/java/com/concert/ticketing/services/booking/BookingService.java:194-234 | the database ends in the corrected intake's state and keeps its invariants |
| Bookings.BookingService.Confirm | src/main/java/com/concert/ticketing/services/booking/BookingService.java:78-93 | the database ends in Confirmation's state (the booking saved as CONFIRMED, nothing else) and keeps its invariants |
| Bookings.BookingService.Deliver | src/main/java/com/concert/ticketing/services/booking/BookingService.java:95-110 | the database ends in Delivery's state (the booking saved as DELIVERED, nothing else) and keeps its invariants |
| Bookings.BookingService.Cancel | src/main/java/com/concert/ticketing/services/booking/BookingService.java:112-146 | the database ends in Cancellation's state (on success the stock returned, the status CANCELLED and one CREDIT of the total) and keeps its invariants |
| Bookings.BookingService.PartialRefund | src/main/java/com/concert/ticketing/services/booking/BookingService.java:258-284 | the database ends in Refund's state (on success one CREDIT of the amount for the booking and its concert, nothing else) and keeps its invariants |
| Bookings.BookingService.CleanupExpiredReservations | src/main/java/com/concert/ticketing/services/booking/BookingService.java:236-256 | the loop ends in the sweep's state and keeps the invariants |
| Payments.Pay | src/main/java/com/concert/ticketing/services/ledger/PaymentService.java:26-54 | unknown booking is not-found; another status is refused with its name; success iff the booking is PENDING or CONFIRMED and its category loads; a refusal changes nothing; a success appends one payment and one CREDIT, both of the stored total, and saves the booking as PAID |
| Payments.PaymentRecordsBookingTotal | src/main/java/com/concert/ticketing/services/ledger/PaymentService.java:36-53 | the old payments and ledger stay as prefixes; the new payment and CREDIT carry the booking's stored total; the CREDIT is tagged with the booking and its concert; findById shows the booking PAID; every other booking, the categories and the events are unchanged |
| Payments.RequestedAmountIgnored | src/main/java/com/concert/ticketing/services/ledger/PaymentService.java:38 | the amount in the request plays no part |
| Payments.PaidOnce | src/main/java/com/concert/ticketing/services/ledger/PaymentService.java:30-34 | a second payment report is refused with the PAID status and changes nothing |
| Payments.PaymentPreserves | src/main/java/com/concert/ticketing/services/ledger/PaymentService.java:26-54 | paying keeps the constraints and conservation |
| Payments.PaymentService.ProcessSuccessfulPayment | src/main/java/com/concert/ticketing/services/ledger/PaymentService.java:26-54 | the database ends in Pay's state and keeps its invariants |
| Invariants.ApplyPreserves | src/main/java/com/concert/ticketing/services/booking/BookingService.java:194-284 | every booking, payment, refund and sweep call keeps the constraints and conservation |
| Invariants.RunPreserves | src/main/java/com/concert/ticketing/services/booking/BookingService.java:194-284 | every sequence of those calls keeps them |
| Invariants.ValidatedRunNeverOversells | src/main/java/com/concert/ticketing/repositories/TicketCategoryRepository.java:17-27 | with the quantity check, no sequence of calls drives a stock below zero or holds more seats than allocated |
| Invariants.NegativeQuantityOversells | src/main/java/com/concert/ticketing/services/booking/BookingService.java:204 | as written, a −5 order then a 10 order on five seats are both accepted, and a cancel leaves the stock at −5 |
| Store.HeldWithinAllocation | src/main/java/com/concert/ticketing/repositories/TicketCategoryRepository.java:17-27 | conservation with no negative stock bounds the held seats by the allocation |
| Settlement.ForConcert | src/main/java/com/concert/ticketing/repositories/LedgerRepository.java:10 | exactly the ledger entries of the concert |
| Settlement.GetSettlementReport | src/main/java/com/concert/ticketing/services/ledger/SettlementService.java:19-55 | revenue and booking count are the DEBIT sum and count; refunds and refund count are the CREDIT sum and count; net = revenue − refunds; transactionCount is the number of entries; one transaction view per entry, in order |
| Settlement.CountsWithinTransactions | src/main/java/com/concert/ticketing/services/ledger/SettlementService.java:27-35 | bookingCount + refundCount ≤ transactionCount |
| Settlement.NoEntriesSettleToZero | src/main/java/com/concert/ticketing/services/ledger/SettlementService.java:22-25 | a concert with no entries settles to zero sums and counts |
| Settlement.AppendedEntry | src/main/java/com/concert/ticketing/services/ledger/SettlementService.java:27-35 | one new entry moves only its own concert's sum and count of its own type |
| Settlement.IntakeAddsRevenue | src/main/java/com/concert/ticketing/services/booking/BookingService.java:224-230 | an intake adds the booking's total to its concert's revenue and one to its booking count |
| Settlement.PaymentCountsAsRefund | src/main/java/com/concert/ticketing/services/ledger/PaymentService.java:47-53 | a payment adds the booking's total to its concert's refunds, not to its revenue |
| Settlement.CancellationCountsAsRefund | src/main/java/com/concert/ticketing/services/booking/BookingService.java:131-137 | a cancel adds the booking's total and one entry to its concert's refunds and leaves its revenue unchanged |
| Settlement.RefundCountsAsRefund | src/main/java/com/concert/ticketing/services/booking/BookingService.java:274-279 | a partial refund adds the refunded amount and one entry to its concert's refunds and leaves its revenue unchanged |
| Pricing.SurgeByCrossMultiplication | src/main/java/com/concert/ticketing/services/pricing/PricingService.java:81-94 | for a positive allocation the double table is the first-match table over integers (10·sold > 9·total, …) |
| Pricing.SurgeMonotone | src/main/java/com/concert/ticketing/services/pricing/PricingService.java:85-96 | for a non-negative base price, less stock never lowers the price |
| Pricing.SurgeBounds | src/main/java/com/concert/ticketing/services/pricing/PricingService.java:85-96 | the price lies between 1.1 and 3.5 times the base price |
| Pricing.ZeroAllocationSurge | src/main/java/com/concert/ticketing/services/pricing/PricingService.java:81-96 | with no allocation, NaN gives 2.0×, a positive stock gives −∞ and 1.1×, and a negative stock gives +∞ and 3.5× |
| Pricing.WorkedExamples | src/test/java/com/concert/ticketing/services/pricing/PricingServiceTest.java:56-61 | 100000 with 10 of 100 left is 280000; with 95 left it is 110000 |
| Pricing.PriceCategory | src/main/java/com/concert/ticketing/services/pricing/PricingService.java:55-79 | on a miss the DB stock (null → 0) is used and written under `stock::<id>` with a 10-minute TTL; on a hit the parsed value is used and nothing is written; a cache failure is thrown |
| Pricing.SeededReadAgrees | src/main/java/com/concert/ticketing/services/pricing/PricingService.java:58-69 | reading again after a miss gives the same item and writes nothing more |
| Pricing.WarmCacheAgrees | src/main/java/com/concert/ticketing/services/pricing/PricingService.java:58-69 | a cached value equal to the DB stock prices like a miss |
| Pricing.PriceAll | src/main/java/com/concert/ticketing/services/pricing/PricingService.java:41-43 | one item per category, in order, each of the form the category's own pricing gives (see PriceAllItems for the tie to PriceCategory) |
| Pricing.PriceAllItems | src/main/java/com/concert/ticketing/services/pricing/PricingService.java:41-43 | a successful stream yields, for each category in order, exactly what PriceCategory yields for it in the cache the earlier categories left, and leaves the cache all of them leave |
| Pricing.PriceAllSucceeds | src/main/java/com/concert/ticketing/services/pricing/PricingService.java:41-43 | when every category in turn prices without a failure, the stream succeeds |
| Pricing.PriceAllFailures | src/main/java/com/concert/ticketing/services/pricing/PricingService.java:41-43 | the stream fails only with what the cache or the parsing throws |
| Pricing.Pricing | src/main/java/com/concert/ticketing/services/pricing/PricingService.java:31-44 | DATA_NOT_FOUND iff the event has no categories; otherwise one item per category with price = surge of its base price |
| Pricing.PricingOfEvent | src/main/java/com/concert/ticketing/services/pricing/PricingService.java:34-43 | an event with categories is priced by the stream over them |
| Pricing.PricingForCategory | src/main/java/com/concert/ticketing/services/pricing/PricingService.java:46-53 | DATA_NOT_FOUND iff the category is unknown; otherwise the cache and the item are exactly PriceCategory's for the found category |
| Pricing.PricingService.GetRealTimePricing | src/main/java/com/concert/ticketing/services/pricing/PricingService.java:31-44 | the loop ends in Pricing's cache and result |
| Pricing.PricingService.GetRealTimePricingForCategory | src/main/java/com/concert/ticketing/services/pricing/PricingService.java:46-53 | cache and result are PricingForCategory's: DATA_NOT_FOUND for an unknown id, otherwise PriceCategory's for the loaded category |
| Pricing.PricingService.PriceOf | src/main/java/com/concert/ticketing/services/pricing/PricingService.java:55-79 | cache and result are PriceCategory's for the loaded category |
| Inventory.ResolveStock | src/main/java/com/concert/ticketing/services/inventory/InventoryService.java:43-49 | a value other than the DB stock comes only from a reachable cache holding a parseable entry |
| Inventory.BuildAvailability | src/main/java/com/concert/ticketing/services/inventory/InventoryService.java:39-61 | AVAILABLE iff the reported stock is positive; a null stock is 0 and SOLD_OUT; a null allocation is 0 |
| Inventory.FallsBackToDatabase | src/main/java/com/concert/ticketing/services/inventory/InventoryService.java:43-49 | an unreachable cache, a missing key or an unparseable value gives the DB stock |
| Inventory.AvailabilityAgreesWithPricing | src/main/java/com/concert/ticketing/services/inventory/InventoryService.java:43-49 | when pricing succeeds, availability reports the same stock |
| Inventory.Availability | src/main/java/com/concert/ticketing/services/inventory/InventoryService.java:29-37 | one item per category of the event, in order |
| Inventory.InventoryService.GetAvailability | src/main/java/com/concert/ticketing/services/inventory/InventoryService.java:29-37 | the result is Availability of the cache and tables |
| Inventory.InventoryService.BuildAvailabilityResponse | src/main/java/com/concert/ticketing/services/inventory/InventoryService.java:39-61 | the item is BuildAvailability of the cache and tables |
| Inventory.ReserveFromCache | src/main/java/com/concert/ticketing/services/inventory/InventoryService.java:63-86 | an unreachable cache is rethrown; a missing or non-positive value gives −1 with no change; otherwise the value drops by exactly one and the new value is returned |
| Inventory.RollbackCache | src/main/java/com/concert/ticketing/services/inventory/InventoryService.java:88-96 | the cached value rises by exactly one (a missing key becomes 1); failures are swallowed |
| Inventory.InventoryService.ReserveFromRedis | src/main/java/com/concert/ticketing/services/inventory/InventoryService.java:63-86 | cache and result are ReserveFromCache's |
| Inventory.InventoryService.RollbackRedis | src/main/java/com/concert/ticketing/services/inventory/InventoryService.java:88-96 | the cache is RollbackCache's |
| Inventory.RollbackUndoesReservation | src/main/java/com/concert/ticketing/services/inventory/InventoryService.java:63-96 | a rollback after a successful reservation restores the cached value |
| Inventory.DatabaseOnlyReserve | src/main/java/com/concert/ticketing/services/inventory/InventoryService.java:98-116 | an unknown id is IllegalArgument, a null stock a NullPointerException, a stock ≤ 0 InsufficientStock ("Stock not available"), each with no change; success iff the row holds a positive stock, and then the row is saved with one seat fewer |
| Inventory.DatabaseOnlyIsDecreaseByOne | src/main/java/com/concert/ticketing/services/inventory/InventoryService.java:98-116 | it is the conditional decrement by one |
| Inventory.DatabaseOnlyUnbalances | src/main/java/com/concert/ticketing/services/inventory/InventoryService.java:98-116 | on a balanced store a successful reservation breaks conservation: no booking holds the seat |
| Inventory.InventoryService.ReserveFromDatabaseOnly | src/main/java/com/concert/ticketing/services/inventory/InventoryService.java:98-116 | the category table and the result are DatabaseOnlyReserve's |
| Redis.ReserveScript | src/main/java/com/concert/ticketing/services/inventory/InventoryService.java:65-70 | an unreachable server throws; −1 with no change for a missing key or a number ≤ 0; a positive number n gives n − 1, written back; text that is not a number fails with no change |
| Redis.ReserveThenIncrRestores | src/main/java/com/concert/ticketing/services/inventory/InventoryService.java:65-90 | INCR after a successful script restores the value |
| Redis.Incr | src/main/java/com/concert/ticketing/services/inventory/InventoryService.java:90 | a missing key becomes 1; a stored number n below the 64-bit maximum becomes n + 1, written back with its TTL kept; the maximum or a non-number fails and leaves the keyspace unchanged |
| Redis.StockKeysDistinct | src/main/java/com/concert/ticketing/services/pricing/PricingService.java:29 | distinct categories have distinct `stock::` keys |
| Decimal.ParseIntRoundTrip | src/main/java/com/concert/ticketing/services/pricing/PricingService.java:66-68 | Integer.parseInt reads back what String.valueOf wrote |
| Decimal.Int32Sum | src/main/java/com/concert/ticketing/services/analytics/AnalyticsService.java:24-27 | an int stream sum is the exact sum wrapped to 32 bits |
| Analytics.StatsOf | src/main/java/com/concert/ticketing/services/analytics/AnalyticsService.java:23-37 | fails iff a column is null; sold = Σ allocation − Σ stock with int wrap-around |
| Analytics.Occupancy | src/main/java/com/concert/ticketing/services/analytics/AnalyticsService.java:30 | 0 when nothing is allocated; a percentage when sold is within the allocation |
| Analytics.DashboardStats | src/main/java/com/concert/ticketing/services/analytics/AnalyticsService.java:20-44 | totalBookings is the number of bookings, and there is one entry per event |
| Analytics.SoldEqualsHeld | src/main/java/com/concert/ticketing/services/analytics/AnalyticsService.java:24-29 | in a conserved store, sold tickets are the seats held by live bookings (exactly, when that fits in an int) |
| Analytics.OccupancyIsPercentage | src/main/java/com/concert/ticketing/services/analytics/AnalyticsService.java:29-30 | with no oversell, occupancy lies in 0..100 |
| Errors.HandleServiceException | src/main/java/com/concert/ticketing/exception/GlobalExceptionHandler.java:14-32 | 44 → 404, 40 → 400, 41 → 401, any other code → 500; the body is "Failed" with the code and message |
| Errors.HandleGeneralException | src/main/java/com/concert/ticketing/exception/GlobalExceptionHandler.java:34-42 | 500 with code 99 and the message |
| Errors.Handle | src/main/java/com/concert/ticketing/exception/GlobalExceptionHandler.java:14-42 | a service error carries its ErrorList code; any other exception is 500 and 99 |
| Errors.ServiceErrorStatuses | src/main/java/com/concert/ticketing/constant/ErrorList.java:7-10 | DATA_NOT_FOUND and USER_NOT_FOUND are 404, FAILED_CONNECT_TO_BACKEND is 400, INVALID_CREDENTIALS is 401 |
| VenueRepository.FindByNameIgnoreCase | src/main/java/com/concert/ticketing/repositories/VenueRepository.java:13 | no venue iff none matches case-insensitively; a single result is the only match |
| ConcertKeys.NullNameCollides | src/main/java/com/concert/ticketing/services/concert/ConcertService.java:46-47 | the listing key for no filters equals the key for the name filter "null" |
| ConcertKeys.ListKeyInjective | src/main/java/com/concert/ticketing/services/concert/ConcertService.java:46-47 | corrected key: distinct filters have distinct keys |
| ConcertKeys.DetailKeysDistinct | src/main/java/com/concert/ticketing/services/concert/ConcertService.java:158 | distinct concerts have distinct detail keys |
| ConcertKeys.DetailIsNotListing | src/main/java/com/concert/ticketing/services/concert/ConcertService.java:46-47 | no detail key is a listing key |
| Concerts.Search | src/main/java/com/concert/ticketing/services/concert/ConcertService.java:57-103 | an event is listed iff it matches every given filter and, with minCap, its summed stock (null → 0) is at least minCap |
| Text.Lower | src/main/java/com/concert/ticketing/services/concert/ConcertService.java:65 | same length, each character mapped by the ASCII lower-casing |
| Text.ContainsAt | src/main/java/com/concert/ticketing/services/concert/ConcertService.java:65 | the `%…%` pattern matches exactly when the filter text occurs at some offset |
| Concerts.PostFilter | src/main/java/com/concert/ticketing/services/concert/ConcertService.java:94-103 | without minCap the query result is returned as is; with it, the result is the query's events with enough seats, in order |
| Concerts.MinCapMonotone | src/main/java/com/concert/ticketing/services/concert/ConcertService.java:94-103 | raising minCap never adds an event |
| Concerts.ListResponse | src/main/java/com/concert/ticketing/services/concert/ConcertService.java:106-137 | one data element per listed event, in order |
| Concerts.ListingAt | src/main/java/com/concert/ticketing/services/concert/ConcertService.java:41-150 | a cache failure is FAILED_CONNECT_TO_BACKEND; a hit returns the stored response unchanged; a miss returns the search and stores it for 5 minutes |
| Concerts.ListingIsCached | src/main/java/com/concert/ticketing/services/concert/ConcertService.java:50-54 | a second call serves the first response, whatever the tables are by then |
| Concerts.AsWrittenServesUnfilteredListing | src/main/java/com/concert/ticketing/services/concert/ConcertService.java:46-54 | as written, the name filter "null" is served the unfiltered listing |
| Concerts.NullNameFilterMisreported | src/main/java/com/concert/ticketing/services/concert/ConcertService.java:46-54 | as written, with one concert named "Rock", the name filter "null" matches nothing but is answered with Rock |
| Concerts.CorrectedListingKeepsFiltersApart | src/main/java/com/concert/ticketing/services/concert/ConcertService.java:46-54 | with the corrected key, another filter is answered by its own search |
| Concerts.Detail | src/main/java/com/concert/ticketing/services/concert/ConcertService.java:152-213 | a hit returns the stored response; a miss on an unknown id is DATA_NOT_FOUND; a found event is answered and stored for 10 minutes |
| Concerts.ResolveDate | src/main/java/com/concert/ticketing/services/concert/ConcertService.java:229-231 | a date exists iff the datetime and a known zone are both given |
| Concerts.NewEvent | src/main/java/com/concert/ticketing/services/concert/ConcertService.java:219-239 | success iff exactly one venue matches and the date resolves; no venue is DATA_NOT_FOUND, several venues or an unresolved date CreationFailed; the new event has a fresh id, the request's name, artist, description and zone, the venue found, the date in the named zone, and the status given or UPCOMING |
| Concerts.NewCategories | src/main/java/com/concert/ticketing/services/concert/ConcertService.java:243-251 | one category per requested one, in order, with stock initialised to its allocation |
| Concerts.CreatedAsWritten | src/main/java/com/concert/ticketing/services/concert/ConcertService.java:215-265 | as written: success iff NewEvent succeeds (one matching venue and a resolvable date); a failure saves nothing |
| Concerts.CreatedAsWrittenLosesCategories | src/main/java/com/concert/ticketing/services/concert/ConcertService.java:241-255 | as written, the saved concert shows no categories, whatever was requested |
| Concerts.Created | src/main/java/com/concert/ticketing/services/concert/ConcertService.java:215-265 | corrected creation: success iff NewEvent succeeds (one matching venue and a resolvable date); a failure saves nothing |
| Concerts.CreatedShowsRequestedCategories | src/main/java/com/concert/ticketing/services/concert/ConcertService.java:241-255 | corrected, the saved concert shows exactly the requested categories, each with stock equal to allocation |
| Concerts.CreationPreservesValid | src/main/java/com/concert/ticketing/services/concert/ConcertService.java:248 | creation keeps the constraints and establishes conservation for the new categories |
| Concerts.CreationKeepsWallClock | src/main/java/com/concert/ticketing/services/concert/ConcertService.java:229-231 | the offset the request's datetime carries plays no part: only its wall-clock reading and the named zone count |
| Concerts.Updated | src/main/java/com/concert/ticketing/services/concert/ConcertService.java:267-325 | an unknown id is DATA_NOT_FOUND; with the event found and the cache up, success iff the named venue (if any) matches exactly once and a given date has a known zone; no matching venue is DATA_NOT_FOUND, several or an unknown zone UPDATE_FAILED, an unreachable cache UPDATE_FAILED; a failure changes neither the tables nor the cache |
| Concerts.UpdateMerges | src/main/java/com/concert/ticketing/services/concert/ConcertService.java:280-311 | every non-null field is taken from the request and every null one kept; the date changes only with both datetime and timezone; no other event and no other table changes |
| Concerts.EmptyUpdateChangesNothing | src/main/java/com/concert/ticketing/services/concert/ConcertService.java:280-309 | an update with every field null leaves the event as it was |
| Concerts.UpdateEvictsOnlyDetail | src/main/java/com/concert/ticketing/services/concert/ConcertService.java:311-314 | the detail entry is removed, so the next detail read shows the update; a cached listing keeps being served stale |
| Concerts.UpdatePreservesValid | src/main/java/com/concert/ticketing/services/concert/ConcertService.java:267-325 | an update keeps the constraints and conservation |
| Concerts.ConcertService.CreateConcert | src/main/java/com/concert/ticketing/services/concert/ConcertService.java:215-265 | corrected: the database ends in Created's state, with the categories inserted, and keeps its invariants |
| Concerts.ConcertService.CreateConcertAsWritten | src/main/java/com/concert/ticketing/services/concert/ConcertService.java:215-265 | as written: the database ends in CreatedAsWritten's state, the event row alone, and keeps its invariants |
| Concerts.CreationAsWrittenPreservesValid | src/main/java/com/concert/ticketing/services/concert/ConcertService.java:215-265 | the as-written creation keeps the constraints and the stock balance |
| Concerts.ConcertService.UpdateConcert | src/main/java/com/concert/ticketing/services/concert/ConcertService.java:267-325 | tables and cache end in Updated's state; the invariants are kept |
| Concerts.ConcertService.GetAllConcerts | src/main/java/com/concert/ticketing/services/concert/ConcertService.java:41-150 | corrected: cache and result are Listing's, under the unambiguous key |
| Concerts.ConcertService.GetAllConcertsAsWritten | src/main/java/com/concert/ticketing/services/concert/ConcertService.java:41-150 | as written: cache and result are ListingAsWritten's, under the `%s` key |
| Concerts.ConcertService.ListUnder | src/main/java/com/concert/ticketing/services/concert/ConcertService.java:41-150 | cache and result are ListingAt's for the given key |
| Concerts.ConcertService.GetConcertDetail | src/main/java/com/concert/ticketing/services/concert/ConcertService.java:152-213 | cache and result are Detail's |

## Left out

- Concurrency is not modelled. This covers:
  - `@Transactional` isolation between callers;
  - `@Version` optimistic locking and the ConcurrentUpdateException it leads to;
  - the atomicity of the Lua script;
  - `@Scheduled` timing.

  Every call is one atomic step.
- The Kafka transport is not modelled. A queue of messages is a sequence of `Bookings.Intake` calls, and `Invariants.Run` covers any such sequence.
- HTTP controllers, authentication (JWT, BCrypt) and response wrapping are not modelled. The authenticated principal is the `Bookings.Caller` parameter, and the user lookup behind it is folded into that parameter.
- `mapToDto` and the DTO shapes are not modelled. Only the fields the properties speak about are kept.
- Clocks are not modelled: `LocalDateTime.now()` is a parameter.
- Redis TTL expiry is not modelled. The TTL given to a write is recorded and never fires.
- Floating point is modelled only in part:
  - The surge multiplier's double rate is exact in the model, including ±∞ and NaN, but real arithmetic stands in for binary doubles.
  - `String.format("%.2f%%")` on the occupancy is not modelled; occupancy stays a real.
- Lua `tonumber` of a non-canonical numeral (leading zeros, a sign, spaces) is not modelled. Redis values are the canonical decimal strings that the services write.
- The service itself never mis-parses, but a value that does not parse is modelled as the NumberFormatException it causes.
- `LIKE` wildcards (`%` and `_`) inside a filter value are taken literally. Lowercasing is ASCII only, not Unicode case mapping.
- Time zones are not modelled in full:
  - a zone id is resolved through a map of fixed offsets, without daylight saving rules;
  - an unknown zone id is an exception;
  - `ZonedDateTime.toString()` is rendered as the instant's number.
- A null `eventDate` on a stored event is not modelled, and neither is a null category price; the code would fail on both.
- A cached value of the wrong class is not modelled. The cast of a cached object to ConcertResponse is assumed to succeed.
- The request's `capacity` and `totalCapacity` fields are not modelled; the service never reads them.
- A failed cache write after a successful database read is not modelled. In the model a reachable cache accepts every write.
- Inventory.InventoryService.ReserveFromDatabaseOnly: does not ensure the database's invariants. The private method is never called, and `Inventory.DatabaseOnlyUnbalances` proves that it breaks stock conservation.
- getAllTransactions and `count()` are plain table reads. They are the `ledger` and `bookings` fields themselves.
- A null `quantity` in a booking request is not modelled; the quantity is an `int`. The code passes the null to `decreaseStock`, whose condition then matches no row, so the intake is rejected.
- A category whose `event` is null is not modelled; every category belongs to an event. The code would throw a NullPointerException at `getEvent().getId()`: in intake after the decrement and the save (`BookingService.java:226`), in cancel (`:134`), in the partial refund (`:276`) and in payment (`PaymentService.java:49`). Each transaction would roll back.
- Pricing.PriceCategory: requires the nullable Integer columns to hold 32-bit values, as the `int4` column type guarantees in the database. The store model does not carry that bound, so it is a requirement here rather than a consequence of `Valid()`. The int overflow in `total - available` is modelled with `Decimal.Int32Wrap`.
- Store.Database.IncreaseStock and Store.Database.DecreaseStock: the stock column and the quantity are unbounded integers. The database's `int4` arithmetic is not modelled: `available_stock + qty` (or `- qty` with a negative qty) beyond 2^31−1 raises "integer out of range", and the transaction rolls back. In the model the stock simply grows past 2^31−1.
- Bookings.Intake and Bookings.Cancellation: for the same reason, an intake or cancel whose stock update would leave the 32-bit range succeeds in the model, where the code fails and rolls back. The request quantity is an `int`, not a 32-bit `Integer`.

## Findings

| source | as written | input that shows it | evidently intended | confidence | as-written member | corrected member |
|---|---|---|---|---|---|---|
| src/main/java/com/concert/ticketing/services/booking/BookingService.java:204 | the booking quantity is never checked to be positive. The conditional decrement with a negative quantity raises the stock | on a category with 5 seats: an order for −5 seats (stock becomes 10), then an order for 10 seats (accepted), then cancel the first order. The stock ends at −5 with 10 seats held | refuse a quantity below one before anything is reserved, so no stock goes negative and no more seats are held than allocated | not executed | Invariants.NegativeQuantityOversells | Invariants.ValidatedRunNeverOversells |
| src/main/java/com/concert/ticketing/services/concert/ConcertService.java:241-255 | the categories are set on the event's `mappedBy` collection (EventsModel.java:45), which has no cascade, so saving the event does not insert them | create a concert with one category; reading the concert shows no categories | the requested categories are saved with the event, each with stock equal to its allocation | not executed | Concerts.CreatedAsWrittenLosesCategories | Concerts.CreatedShowsRequestedCategories |
| src/main/java/com/concert/ticketing/services/concert/ConcertService.java:46-47 | the listing cache key renders each filter with `%s`, so a null filter and the string "null" give the same key | list with no filters (cached), then list with the name filter "null". The second call is answered with every concert although none matches | the cache key tells every pair of distinct filters apart | not executed | Concerts.NullNameFilterMisreported | ConcertKeys.ListKeyInjective |
