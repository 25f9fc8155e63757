# Stock, booking, payment and eZee-sync ledger of VibeHouse

A model of the part of the VibeHouse backend in which money, stock and bookings meet, with proofs.
Guests book beds and add products; payments arrive by browser callback and webhook; administrators
supply, lend and issue stock; a worker and a periodic reconciler keep the eZee property system in step.

`dafny verify dfyconfig.toml` checks everything.

## How it is built

**The ledger.** `Tables` has the rows and their arithmetic. `Operations` says what each service call does
to all tables, as a function from the old tables and the call's arguments to the new tables and an
outcome. A call commits, refuses, or aborts. An abort happens exactly when a counter guarded by a CHECK
constraint (prisma/migrations/20260414000000_inventory_non_negative_constraints/migration.sql:17-22) would go
negative, or when a rollback meets a guest slot that a KYC submission refers to, whose foreign key refuses the
deletion (prisma/migrations/20260324071441_add_booking_slots_events_returnable_room_types/migration.sql:127). Where the program runs several transactions, the earlier ones stay (marking a payment FAILED
before a rollback that aborts, for instance). `findFirst` without an order may return any matching row:
the row it returned is an argument called `first`.

`Database` is the class with the mutable tables, and `PaymentService`, `GuestBookingService`,
`GuestStoreService`, `GuestKycService` and `AdminInventoryService` are the service methods over it, statement by statement:
early returns, loops over order lines, writes in the program's order, restored rows on abort. Each keeps
`Valid` - balanced and checked rows, references that resolve, borrowed counters that count what is out,
entitlements not overdrawn, KYC submissions on slots that exist, and stock accounted for by a ghost record of what was supplied (`Ledger`) - says
how that record changes, and computes exactly the function of `Operations`, for whatever row the database
picked. What these functions come to is stated without them, in `BookingLaws`, `CartLaws`, `PaymentLaws`,
`InventoryLaws` and `SlotLaws`: exactly when each call is accepted, with which refusal otherwise, and
which rows it writes with which values. `Effects` says what a call means for later ones: what can be asked for after
it, what undoes it, what it leaves alone.

`Runs` puts the calls together: a run is any sequence of calls with any arguments and answers. About runs are
proved, from empty tables: conservation of stock without any precondition (`Conservation`); what the counters
stand for under cart separation (`Coupling`, `Integrity`, `Borrowing`, `Reachable`); finality of CAPTURED and
the links of paid carts (`Payments`); entitlement to returnable items (`Entitlement`); units leaving the
reserved counter once (`Flows`); the ends of an addon fulfilment (`AddonFulfilment`); slots and KYC submissions
(`SlotIntegrity`); exactly which calls break the coupling or the links (`Exactness`, `Payments`); and what becomes
of a booking whose rollback a submission stopped (`HeldStock`, with a run in `KycWitness`).

*Cart separation* (`Coupling.Separated`) is the condition that cart calls work on orders that are not a
booking's own, and that a booking's capture or rollback works on the booking's own order. The code
does not enforce it: carts and booking orders share a table and are both found by "any PENDING order".
`SeparationWitness` is a run from empty tables in which it is broken: one guest's capture sells a towel
reserved for another, and the other guest's own capture then aborts. `Exactness` says exactly which calls
break the coupling, and `Reachable` what to check before a call whose order the database will pick.

**Statements.** `Interleaving` drops the assumption that a call is atomic for concurrent confirmations
of one reservation: unlocked reads, updates that hold their row lock until the transaction ends,
failure at any statement. The same transition system with the order search before the booking-row update
sells units twice (`InterleavingWitness`), so the order of the two statements is what the theorem rests on.
`InterleavingProgress` adds that nothing but other calls' locks and failures keeps a confirmation from its end.

**The sync protocol.** `EzeeSync` is the step relation of ledger calls, queue, worker and reconciler with drops,
duplicates, redelivery, dead letters, stale reads and crashes; refreshing and ingesting rows are split into reading
and writing. `EzeeNumbers` says exactly when two bookings get one reservation number. `EzeeSyncWorker` is the worker's handler as
a method, and its runs are histories of the protocol. `EzeeConfirmations` follows the ProcessBooking calls of a run:
which call queues a message, and when it may be deleted. `ColiveSync` is the handler of long-stay bookings.
`SqsConsumer`, `EzeeReconciliation` and `EzeeIngestion` are the polling loop, the three reconciliation passes
and the arrival list.

**Pure pieces.** `RoomOrders` (validation, slots, flattening into eZee rooms, nights), `RoomSummary` (summary printer
and parser), `PaymentSplit`, `Colive` (quote and draft), `CartPrices`. Money is in paise; `Math.round(x)` is the floor
of x + 1/2.

## What the code does that its comments do not say

- A booking payment that failed can still be captured: it confirms the cancelled booking again
  (src/payment/payment.service.ts:741-754). The model follows the code.
- A guest who submits KYC documents before the booking is paid makes the rollback of a failed payment abort. The
  payment is FAILED all the same and later reports are ignored, so the booking stays pending and its units
  reserved, even when the slot is deleted afterwards (`HeldStock.UnitsStayReserved`).
- The ingestion pass may create a row for a reservation that the worker has inserted and not stored yet; then two
  bookings carry its number (`EzeeNumbersWitness.NumberOnTwoRows`).
- A captured addon payment with two lines of one product that together exceed the stock neither
  completes nor asks for a refund; its transaction aborts and the payment stays as it was
  (`RepeatedLinesWitness.RepeatedLinesAbort`).
- Adding to a cart line after a price change recharges all its units at the new price under the old unit
  price (`CartPrices.AddedLineIsConsistentExactly`).
- Order and worker may count different nights when the inputs have times of day, and then the rates sent to
  eZee do not add up to what was charged (`RoomOrders.RequestMatchesEzee`).
- A monthly price of zero is a price: the test for a missing one sees a decimal object.
- The fulfilment comments speak of a serializable transaction; none is requested, and what protects a
  confirmation is the row lock of its first update (`Interleaving`).
- The sync handler says it skips completed steps; it skips only the insert. A redelivered message
  confirms and pays again.
- A long-stay sync that fails after storing the number is thrown for a retry, but the retry returns
  early: the draft stays unsynced for good (`ColiveSync.SyncedExactly`).
- In the arrival list, an entry without parts uses up its reservation number: a later entry of the
  same number is ignored (`EzeeIngestion.Deduplicated`).

## Model

| member | source | states |
|---|---|---|
| Tables.ReleaseUndoesReserve | src/payment/payment.service.ts:689-700 | releasing the lines that were reserved restores every inventory row, for lines that may repeat products |
| Tables.MovedKeepsBalance | prisma/migrations/20260414000000_inventory_non_negative_constraints/migration.sql:17-22 | moving order lines between counters never changes a row's total, damaged or borrowed count, nor the balance of the places a unit can be in |
| Tables.UnitsDistinct | src/payment/payment.service.ts:577-585 | with distinct products, a product's units are the quantity of its one line |
| Database.Database.MoveLines | src/payment/payment.service.ts:763-773 | one guarded update per commodity line equals the simultaneous move of each product's per-product sum, and fails, restoring the table, exactly when that sum violates a check |
| Database.Database.FindCart | src/guest/store/guest-store.service.ts:195-201 | an order of the reservation and guest with status PENDING, or there is none |
| Database.Database.FindPending | src/payment/payment.service.ts:757-760 | a PENDING order of the reservation, whoever's, or there is none |
| Database.Database.FindByPayment | src/payment/payment.service.ts:499-504 | some order linked to the payment, or none exists |
| Database.SomeShort | src/payment/payment.service.ts:541-543 | whether some commodity line alone exceeds its row, a missing row counting as none |
| PaymentService.CartTotal | src/payment/payment.service.ts:70-73 | the charged sum is the total of the line totals |
| PaymentService.CreateOrder | src/payment/payment.service.ts:34-125 | a payment is opened if and only if the guest has access, the cart has lines and no CAPTURED payment, its total is positive and every commodity line is covered; it is for the total of all lines of the cart; a stale payment is unlinked even if a later check refuses |
| PaymentLaws.ChargeIsTheSum | src/payment/payment.service.ts:70-73 | the charged total is zero for no lines and grows by each further line's total price, whatever its product |
| PaymentLaws.CheckoutExactly | src/payment/payment.service.ts:34-88 | when a payment is opened, for which amount, and with which refusal not: a link to a payment that is not CAPTURED does not stand in the way |
| PaymentLaws.CheckoutWrites | src/payment/payment.service.ts:103-125 | the new payment has the guest, the reservation, the lines' total, CREATED; the cart is linked to it and keeps its lines; nothing else is written |
| PaymentLaws.RefusedCheckoutWrites | src/payment/payment.service.ts:52-66 | a refused checkout removes the link to a stale payment if the cart got that far, and writes nothing else |
| PaymentLaws.BookingPaymentExactly | src/payment/payment.service.ts:162-207 | a booking payment is opened if and only if amount, booking and named order are in order; an unknown order fails only the link, after the payment is stored |
| Effects.BookPayCapture | src/payment/payment.service.ts:162-207 | booking, opening the payment for the booked total and capturing it, whatever the database answers: confirmed, that total captured, the order paid and linked to it, and the stock as if its lines were sold out of available at once |
| PaymentService.HandlePaymentFailure | src/payment/payment.service.ts:378-427 | CAPTURED and FAILED payments are left alone; FAILED is kept even if the rollback aborts; a cart is unlinked only while open |
| PaymentService.RollbackPendingBooking | src/payment/payment.service.ts:675-713 | acts on PENDING_PAYMENT only; release, deletion of order, slots and access, and cancellation happen together, or not at all when a check fails or a KYC submission refers to one of the slots |
| PaymentLaws.BookingFailureExactly | src/payment/payment.service.ts:386-427 | the failure of a booking's payment marks it FAILED; a booking still waiting is rolled back if and only if its found order is reserved in full and no KYC submission names one of its slots, and then it is cancelled, its slots, access and order are gone and the order's units are available again; otherwise nothing else is written |
| PaymentLaws.CartFailureExactly | src/payment/payment.service.ts:421-425 | the failure of a cart's payment marks it FAILED and unlinks exactly the open orders that were linked to it |
| PaymentLaws.FinalFailureExactly | src/payment/payment.service.ts:383-395 | unknown payments are refused, CAPTURED and FAILED ones reported and left alone |
| PaymentService.FulfilOrder | src/payment/payment.service.ts:476-496 | a CAPTURED payment changes nothing; otherwise the booking or the addon fulfilment by purpose |
| PaymentService.FulfilBookingOrder | src/payment/payment.service.ts:726-791 | on a confirmed booking only the payment is captured; otherwise confirmation, reserved to sold, order PAID and payment CAPTURED together, or nothing |
| PaymentLaws.BookingCaptureExactly | src/payment/payment.service.ts:741-778 | a captured booking payment confirms any known booking that is not CONFIRMED if and only if the found order is reserved in full; a CONFIRMED one only gets the payment CAPTURED; else nothing is written |
| PaymentLaws.BookingCaptureWrites | src/payment/payment.service.ts:749-791 | what a confirmation writes: the booking CONFIRMED, the payment CAPTURED, the order PAID, its units from reserved to sold |
| PaymentService.FulfilAddonOrder | src/payment/payment.service.ts:499-608 | all lines sold with payment CAPTURED and order PAID, or REFUND_NEEDED and FAILED_STOCK with no stock changed, or nothing |
| GuestBookingService.ValidateAddonSelections | src/guest/booking/guest-booking.service.ts:844-887 | the refusal of the first bad addon, or the order items in order with their exact total |
| GuestBookingService.ValidatedAddonsCovered | src/guest/booking/guest-booking.service.ts:480-496 | addons that passed validation pass the second check under the lock, when nothing runs in between |
| GuestBookingService.CreateBookingOrder | src/guest/booking/guest-booking.service.ts:447-606 | refusals in order; reservation of stock, booking, access, order and slots are written together or not at all, with the totals that were charged; an accepted booking's guest count is the sum of the quantities asked for, with one slot for each, the booker in the first and with access |
| BookingLaws.BookingExactly | src/guest/booking/guest-booking.service.ts:447-500 | accepted if and only if it is a stay of at least one night in at most six beds, each selection on offer with enough beds and a matching guest list, with addons that may be ordered and that the stock covers together per product; otherwise nothing is written |
| BookingLaws.BookingRefusalExactly | src/guest/booking/guest-booking.service.ts:448-500 | which refusal: dates and rooms, property, number of beds, the first bad selection, the first bad addon, the stock, in this order |
| BookingLaws.BookingRow | src/guest/booking/guest-booking.service.ts:501-568 | for every accepted booking: guests = sum of the requested quantities = slots; slots numbered 1..n, the booker in the first, the others free; access for the booker; every selection stored with its quantity, guests, rate and eZee ids |
| BookingLaws.QuantitiesAdd | src/guest/booking/guest-booking.service.ts:808-808 | that sum: zero for no selections, and each selection adds its quantity |
| BookingLaws.BookingOrder | src/guest/booking/guest-booking.service.ts:538-566 | the addon order: one line per addon at the product's price, open, unlinked, and none without addons; the charged addon total is the sum of its lines |
| BookingLaws.BookingStock | src/guest/booking/guest-booking.service.ts:891-906 | each commodity of the property moves from available to reserved by the sum of what all addons ask of it, and no other row changes |
| BookingLaws.RoomsAreCharged | src/guest/booking/guest-booking.service.ts:813-839 | the room total: every bed at the rate of the first offer with its id, for the nights of the stay, begun ones included |
| BookingLaws.BookedBedsMatch | src/sqs/workers/ezee-sync.worker.ts:489-528 | the stored rooms of every accepted booking, read back and flattened, are as many eZee rooms as beds asked for, as guests and as slots |
| BookingLaws.BookedReachesEzee | src/sqs/workers/ezee-sync.worker.ts:503-525 | the q-th bed of a selection comes after the beds of the selections before it, with the offer's eZee type, plan and rate, rate type or else the plan, the named guest or else the booker, and the title by gender |
| GuestBookingService.EnsureSlots | src/guest/booking/guest-booking.service.ts:745-781 | missing slots are created and the first free slot, if any, is given to the guest |
| GuestBookingService.LinkBooking | src/guest/booking/guest-booking.service.ts:79-125 | access is granted once; an already linked guest still takes another free slot |
| BookingLaws.LinkExactly | src/guest/booking/guest-booking.service.ts:79-125 | linking a known booking grants access and fills the first free slot and no other; without slots one per guest is made first |
| GuestStoreService.GetOrCreateCart | src/guest/store/guest-store.service.ts:194-216 | the guest's open order, or a new empty one and no other change |
| Effects.AdditionAddsUnits | src/guest/store/guest-store.service.ts:267-298 | an addition adds exactly its units of its product and none of any other, leaves a line of that product and bed, and never makes a second one |
| GuestStoreService.AddToCart | src/guest/store/guest-store.service.ts:221-301 | refusals in order; then only the guest's open order changes: its phase and the one line of the same product and bed |
| CartLaws.AdditionExactly | src/guest/store/guest-store.service.ts:221-257 | accepted if and only if the guest has access and the product is active at the property, not lent, not free, and in stock if counted; which refusal otherwise |
| CartLaws.AdditionWritesLine | src/guest/store/guest-store.service.ts:259-298 | the open order or a new one of the guest in the phase of the stay; the first line of that product and bed gets the units and is charged at today's price for all of them, or a line at today's price is appended |
| CartLaws.CartItemExactly | src/guest/store/guest-store.service.ts:352-372 | an item may be edited if and only if the guest has access, the item exists, is the guest's and its order is open; which refusal otherwise |
| CartLaws.ChangeExactly | src/guest/store/guest-store.service.ts:374-390 | a change is accepted if and only if a counted product's stock covers the new quantity; the line gets quantity and charge, nothing else changes |
| CartLaws.RemovalExactly | src/guest/store/guest-store.service.ts:398-415 | a removal takes exactly the item's line out of its order |
| Effects.ChangeSetsUnits | src/guest/store/guest-store.service.ts:384-390 | a change sets the item's units and charges them at the item's own unit price; other products' units and other orders stay |
| Effects.ChangeBackExactly | src/guest/store/guest-store.service.ts:352-393 | changing back restores all tables if and only if the item was charged at its own unit price before |
| Effects.RemovalTakesUnits | src/guest/store/guest-store.service.ts:398-415 | a removal takes the item's units and charge out and nothing else |
| Effects.AddThenRemove | src/guest/store/guest-store.service.ts:286-298 | removing what was just added as a new item restores the cart but for its phase |
| GuestStoreService.RequestBorrowable | src/guest/store/guest-store.service.ts:474-551 | refused without access, stock or with the item already out to the guest on this booking; otherwise one new loan and one unit from available to borrowed |
| InventoryLaws.BorrowExactly | src/guest/store/guest-store.service.ts:474-551 | when a guest's own loan is accepted, which refusal otherwise, and the loan and row it writes |
| Effects.NewProductIsOffered | src/admin/inventory/admin-inventory.service.ts:35-70 | a new product can be asked for at its own property up to its initial stock if it is a commodity, without limit if not, and not at all if lent or free; no other product's offer changes |
| Effects.EditDecidesOffers | src/admin/inventory/admin-inventory.service.ts:126-142 | an edit decides whether a product can be asked for at all, never how many units |
| Effects.CheckoutIgnoresEdits | src/payment/payment.service.ts:69-91 | opening a cart's payment commutes with any edit of a product: same outcome, amount and rows |
| Effects.RestockOffersMore | src/admin/inventory/admin-inventory.service.ts:224-239 | after a restock exactly that many more units can be asked for |
| Effects.DamageOffersLess | src/admin/inventory/admin-inventory.service.ts:271-293 | accepted if and only if that much is available, and then exactly that many fewer units can be asked for |
| Effects.RestockThenDamage | src/admin/inventory/admin-inventory.service.ts:284-293 | damaging what was restocked leaves only the damage on record |
| Effects.LendThenReturn | src/admin/inventory/admin-inventory.service.ts:408-460 | a loan that is returned leaves the stock row as it was, and cannot be returned again |
| Effects.BorrowThenReturn | src/guest/store/guest-store.service.ts:500-551 | likewise a guest's own loan, which the guest cannot repeat while it is out |
| Effects.IssueThenReturn | src/admin/inventory/admin-inventory.service.ts:1005-1032 | an issue returned in good condition restores the stock; damaged or lost it leaves what marking the units damaged would have |
| InventoryLaws.ProductIsCreated | src/admin/inventory/admin-inventory.service.ts:35-70 | the product and the stock row that creating a product writes |
| InventoryLaws.RestockExactly | src/admin/inventory/admin-inventory.service.ts:224-239 | accepted if and only if the row is in scope; then exactly that many more in total and available |
| InventoryLaws.DamageExactly | src/admin/inventory/admin-inventory.service.ts:271-293 | accepted if and only if the row is in scope and that much is available; the units move from total and available to damaged |
| InventoryLaws.LoanExactly | src/admin/inventory/admin-inventory.service.ts:408-460 | when a loan is accepted, which refusal otherwise, and the loan and row it writes |
| InventoryLaws.LoanReturnExactly | src/admin/inventory/admin-inventory.service.ts:578-605 | when a loan is closed, and the status and row written |
| AdminInventoryService.VerifyReturn | src/admin/inventory/admin-inventory.service.ts:578-605 | an unreturned loan is returned and one unit goes back from borrowed to available, together or not at all |
| AdminInventoryService.AlreadyIssued | src/admin/inventory/admin-inventory.service.ts:921-924 | the sum over all checkouts of the item, returned, lost or not |
| AdminInventoryService.ReturnableIssue | src/admin/inventory/admin-inventory.service.ts:880-953 | Done if and only if the product is an active returnable with that much available at the property, the item is a line of it in a PAID order of the guest, and no more is asked for than is pending on the item's entitlement row |
| InventoryLaws.IssueExactly | src/admin/inventory/admin-inventory.service.ts:880-931 | the same of the operation, with the refusal otherwise, and nothing written then |
| InventoryLaws.IssueLowersPending | src/admin/inventory/admin-inventory.service.ts:833-874 | an accepted issue lowers the pending units of its own entitlement row by exactly the quantity and those of no other row |
| InventoryLaws.AllPendingCanBeIssued | src/admin/inventory/admin-inventory.service.ts:920-929 | all that is pending of a paid item can be handed out when it is in stock, the last unit included, and then nothing is pending |
| InventoryLaws.NothingIssued | src/admin/inventory/admin-inventory.service.ts:856-866 | before the first checkout all ordered units of a row are pending |
| InventoryLaws.ListedExactly | src/admin/inventory/admin-inventory.service.ts:833-854 | the entitlement list has exactly the returnable lines of the reservation's PAID orders |
| AdminInventoryService.ReturnableVerifyReturn | src/admin/inventory/admin-inventory.service.ts:987-1032 | an issued checkout is closed once; GOOD units become available, others damaged and out of the total, together with the status or not at all |
| InventoryLaws.IssueReturnExactly | src/admin/inventory/admin-inventory.service.ts:987-1032 | an issued checkout is closed once; in GOOD condition its units become available, else they leave the total for the damaged count |
| CartPrices.AddedLineIsConsistentExactly | src/guest/store/guest-store.service.ts:267-298 | after an addition the line's total is its unit price times its quantity if and only if the price is still the one the line was made at (or it has no units); no other line changes |
| CartPrices.ChangedLineIsConsistent | src/guest/store/guest-store.service.ts:384-390 | changing the quantity makes it so again, at the old unit price |
| Ledger.StepKeepsSound | src/payment/payment.service.ts:476-496 | every modelled call in any state keeps what `Valid` says of the tables: balanced and checked rows, references that resolve, submissions on existing slots, borrowed counters that count what is out, entitlements not overdrawn |
| Ledger.StepKeepsAccounts | src/admin/inventory/admin-inventory.service.ts:231-239 | and total plus damaged of every row stays what was supplied, which only initial stock and restocks raise |
| Conservation.StepConserves | src/admin/inventory/admin-inventory.service.ts:231-239 | no modelled call changes the balance of a row or makes a guarded counter negative, and total plus damaged changes only by initial stock and restocks |
| Conservation.RunConserves | src/admin/inventory/admin-inventory.service.ts:284-293 | the same over any run |
| Conservation.StockIsConserved | src/admin/inventory/admin-inventory.service.ts:1005-1016 | after any run, with no precondition: total = available + reserved + sold + borrowed, total + damaged = everything supplied, and no counter is negative, the unguarded total included |
| Exactness.StepKeepsCoupling | src/payment/payment.service.ts:682-713 | under cart separation every call keeps: reserved = units on open booking orders and sold = units on paid orders, for every commodity row |
| Integrity.StepKeepsFit | src/guest/store/guest-store.service.ts:229-235 | every call keeps: orders belong to known bookings, name products of the booking's property, have distinct items, and checkouts name stocked products |
| Borrowing.StepKeepsBorrowingCoupled | src/admin/inventory/admin-inventory.service.ts:933-953 | every call, separated or not, keeps: borrowed = unreturned loans plus issued units |
| Reachable.RunKeepsCoupling | src/payment/payment.service.ts:749-788 | these invariants hold along every separated run |
| Reachable.RunKeepsBorrowing | src/admin/inventory/admin-inventory.service.ts:588-605 | the borrowing invariant holds along every run |
| Reachable.CountersAreExplained | src/guest/booking/guest-booking.service.ts:891-906 | in every state reachable under cart separation each counter of each product is the sum over orders and checkouts that it stands for |
| Reachable.ReachableCaptureConfirms | src/payment/payment.service.ts:749-791 | after any separated run a separated capture of a booking payment never fails or aborts: booking confirmed, payment captured, order paid |
| Reachable.ReachableFailureCancels | src/payment/payment.service.ts:682-713 | after any separated run a separated failure of a pending booking's payment marks it FAILED, and cancels the booking, removes its order, slots and access and releases its units if and only if no KYC submission refers to one of the slots; otherwise nothing else changes |
| Exactness.StepKeepsCouplingExactly | src/payment/payment.service.ts:682-713 | any call, with any answer of the database, keeps reserved and sold explained by the orders if and only if it is harmless: carts are rewritten only without losing reserved commodity units, captures and rollbacks take a booking's own order or one without commodities, addon captures sell what is neither reserved nor sold |
| Exactness.SeparatedIsHarmless | src/payment/payment.service.ts:756-778 | cart separation suffices for that |
| Payments.StepKeepsLinksExactly | src/payment/payment.service.ts:545-601 | any call keeps paid carts linked to captured payments if and only if it opens no cart payment for a booking's own order, no booking payment for a paid cart, and marks no unpaid cart paid by a booking's capture |
| Reachable.CountersStayExplainedExactly | src/payment/payment.service.ts:749-788 | over any run from empty tables the counters stay explained throughout if and only if every call is harmless |
| Reachable.CaptureSafeExactly | src/payment/payment.service.ts:757-760 | before a capture: whichever open order is found, it confirms and keeps the counters explained, if and only if each open order of the reservation is a booking's own or holds no commodity |
| Reachable.RollbackSafeExactly | src/payment/payment.service.ts:684-705 | before a rollback: whichever open order is found, it cancels and keeps the counters explained, if and only if no KYC submission refers to a slot of the reservation and each of its open orders is a booking's own or holds no commodity |
| Reachable.CaptureLinksSafeExactly | src/payment/payment.service.ts:756-778 | before a capture: whichever open order is found, paid carts stay linked to captured payments if and only if each open order of the reservation is a booking's own, or paid by this or another captured payment, or asks for more than is reserved, so that the capture aborts |
| Reachable.CaptureKeepsBothExactly | src/payment/payment.service.ts:757-760 | every answer confirms, with counters explained and links kept, if and only if each open order is a booking's own, or holds no commodity and is paid already |
| Reachable.AdditionSafeExactly | src/guest/store/guest-store.service.ts:194-202 | before an addition to a cart: safe for every answer if and only if no open order of the guest and reservation is a booking's own with commodities |
| Reachable.RollbackUndoesBooking | src/payment/payment.service.ts:675-713 | booking and then rolling back restores every table, every inventory row included, but for the cancelled booking row |
| SeparationWitness.SetupRuns | src/guest/booking/guest-booking.service.ts:501-565 | six calls from empty tables, all separated, that lead to two unpaid bookings and a cart |
| SeparationWitness.SeparationIsNeeded | src/payment/payment.service.ts:757-760 | from empty tables, after those calls one capture that is not separated: the counters are not explained, a cart is PAID without any payment, and the other guest's capture aborts |
| GuestKycService.SubmitKyc | src/guest/kyc/guest-kyc.service.ts:230-325 | refused without access, slot, consent or eighteen years; otherwise the slot has one submission, of its assigned guest or else of the caller, whatever the status of the booking |
| SlotLaws.SubmitExactly | src/guest/kyc/guest-kyc.service.ts:230-325 | accepted if and only if there is access, the slot exists, consent is given and the eighteenth birthday is not after today; it is the slot's guest's submission, or the caller's for a free slot; which refusal otherwise |
| SlotLaws.AddExactly | src/guest/kyc/guest-kyc.service.ts:345-361 | a new slot comes last, is free, and has the number after the greatest of the reservation, one if there is none |
| SlotIntegrity.AdultFromBirthday | src/guest/kyc/guest-kyc.service.ts:261-273 | the age check passes exactly when the eighteenth birthday is not after today |
| GuestKycService.DeleteSlot | src/guest/kyc/guest-kyc.service.ts:376-400 | refused without access or slot; otherwise the slot goes together with its submission |
| SlotLaws.DeleteExactly | src/guest/kyc/guest-kyc.service.ts:376-400 | with access and such a slot, exactly that slot and its submission go; which refusal otherwise |
| SlotIntegrity.SubmissionBlocksUntilDeleted | src/guest/kyc/guest-kyc.service.ts:393-395 | a submission blocks the rollback, and deleting its slot unblocks it if and only if no other slot has one |
| SlotIntegrity.AddThenDeleteSlot | src/guest/kyc/guest-kyc.service.ts:345-361 | adding a slot and deleting it again restores all tables: its number is one that no slot and no submission of the reservation has |
| SlotIntegrity.StepKeepsSlotsFit | prisma/migrations/20260324071441_add_booking_slots_events_returnable_room_types/migration.sql:115-127 | every modelled call keeps: access and slots belong to known bookings, slot numbers of a reservation are distinct, each submission refers to a slot that exists |
| HeldStock.StepHolds | src/payment/payment.service.ts:383-395 | a separated call that neither opens nor captures a booking payment of a reservation leaves it pending with its open order, once all its booking payments have failed |
| HeldStock.UnitsStayReserved | src/payment/payment.service.ts:386-427 | after any separated run, let the last open payment of a pending booking fail while a submission refers to one of its slots: over every separated run that opens and captures no further booking payment of it, the booking stays pending, its order open, and its units reserved |
| KycWitness.SubmissionStopsRollback | src/payment/payment.service.ts:705-705 | from empty tables: a booking with a towel, its payment opened, documents submitted; the failure aborts the rollback, the towel stays reserved, and reporting the failure again, even after the slot is deleted, changes nothing |
| Flows.StepFlows | src/payment/payment.service.ts:741-778 | the reserved counter changes by exactly the units of the order that a call creates, releases or sells |
| Flows.EveryReservedUnitLeavesOnce | src/payment/payment.service.ts:741-754 | over any separated run of bookings, failures, late captures and retries: units reserved = units released + units sold + units on open booking orders |
| Payments.StepKeepsPayments | src/payment/payment.service.ts:482-485 | no call deletes or rewrites a payment but for its status, and none takes one out of CAPTURED |
| Payments.CapturedIsFinal | src/payment/payment.service.ts:271-273 | over any run a CAPTURED payment stays as it is |
| Payments.StepKeepsLinks | src/payment/payment.service.ts:121-125 | under cart separation, with booking payments only given a booking's own order: addon payments link carts only, and paid carts have a CAPTURED payment |
| Reachable.PaidCartsAreCaptured | src/payment/payment.service.ts:588-601 | in every state reachable under cart separation every PAID upsell order is linked to a CAPTURED payment |
| AddonFulfilment.SellChecks | src/payment/payment.service.ts:576-585 | selling passes the checks if and only if no product's lines together exceed its available stock |
| AddonFulfilment.FulfilmentIsAllOrNothing | src/payment/payment.service.ts:516-608 | the three ends of a captured addon payment and exactly when each happens: refund iff some commodity line alone is not covered, abort iff all are but a product's lines together exceed, otherwise each product moves by its per-product sum; no abort with distinct products |
| RepeatedLinesWitness.RepeatedLinesAbort | src/guest/store/guest-store.service.ts:267-273 | from empty tables: two additions of one product for different beds and a checkout, all accepted, whose captured payment aborts and stays as it was |
| Entitlement.StepFreezesOrders | src/guest/store/guest-store.service.ts:371-372 | no call reopens an order or changes the lines of one that is no longer open |
| Entitlement.StepIssues | src/admin/inventory/admin-inventory.service.ts:997-1032 | units ever issued against an item only grow, and grow only within what it entitles to; returns restore nothing |
| Entitlement.RunNeverOverIssues | src/admin/inventory/admin-inventory.service.ts:920-929 | over any run the total ever issued against an item never exceeds its quantity on a non-open order |
| Reachable.PendingIsNeverNegative | src/admin/inventory/admin-inventory.service.ts:833-874 | in every reachable state every row of the entitlement list has 0 <= pending <= ordered and issued + pending = ordered |
| Interleaving.StepKeepsGood | src/payment/payment.service.ts:749-791 | one statement of any concurrent confirmation keeps: only the holder of the booking row is past its first update, its picked order is unpaid, and stock is explained by the paid orders |
| Interleaving.PaidUnitsMoved | src/payment/payment.service.ts:756-778 | in every interleaving of any number of confirmations of one reservation, exactly the units of its paid orders have moved from reserved to sold |
| Interleaving.MovedExactlyOnce | src/payment/payment.service.ts:749-788 | with one open order: its units have moved once as soon as any payment is captured and not before, and order paid, booking confirmed and payment captured agree |
| InterleavingProgress.AloneCompletes | src/payment/payment.service.ts:726-791 | from any initial state, with an open order that is reserved in full, any one call run alone reaches its end, and its effect is that of the confirmation as one step: confirmed, its payment captured, the order paid, its units sold, all locks released |
| InterleavingWitness.OrderBeforeLockMovesTwice | src/payment/payment.service.ts:750-760 | with the order search before the booking-row update, a schedule of two calls that moves the units of one order twice |
| EzeeReconciliation.ReconcileUnsyncedBookings | src/ezee/ezee-reconciliation.service.ts:78-121 | exactly one message for each booking that is CONFIRMED, active, without a number, with an id of this program, and has a CAPTURED booking payment; the message has the amount of such a payment |
| EzeeReconciliation.CollectUpdates | src/ezee/ezee-reconciliation.service.ts:160-212 | for a listed booking: "Checked In" gives CHECKED_IN and active, "Checked Out" CHECKED_OUT and inactive, "Cancelled Reservation" CANCELLED and inactive, "No Show" NO_SHOW and inactive, "Confirmed Reservation" and "Dayuse Reservation" CONFIRMED and active, any other word neither; a room name replaces the room; a failed fetch, missing reservation or empty list yields nothing |
| EzeeReconciliation.ReconcileEzeeState | src/ezee/ezee-reconciliation.service.ts:129-219 | the pass does that to every confirmed or checked-in, active, numbered row for which eZee answers, leaves every other row as it was, and writes exactly the rows that change |
| EzeeReconciliation.PassConverges | src/ezee/ezee-reconciliation.service.ts:36-44 | after one pass every answered row has the status, activity and room that eZee's words say, other rows are untouched, and a second pass against the same answers writes nothing |
| EzeeReconciliation.DriftFollows | src/ezee/ezee-reconciliation.service.ts:169-205 | the same of a row that is listed and refreshed in two steps, if it has not changed in between |
| EzeeIngestion.FetchReservationsByDateRange | src/ezee/ezee.service.ts:444-482 | the loop with its seen-set yields the summaries of the first entries of each number, with guests added over all parts |
| EzeeIngestion.FetchedExactly | src/ezee/ezee.service.ts:446-482 | the list has exactly a summary of the first entry of each number, unless that is empty: status and room of its first part, the guests of all parts, and at least one |
| EzeeIngestion.GuestsAdd | src/ezee/ezee.service.ts:457-461 | a part without a count of adults counts one, without a count of children none |
| EzeeIngestion.DeduplicatedIsDistinct | src/ezee/ezee.service.ts:446-453 | no reservation number occurs twice in the result |
| EzeeIngestion.CreatesAreFresh | src/ezee/ezee-reconciliation.service.ts:289-299 | a create never meets an existing reservation id, earlier creates of the same feed included |
| EzeeIngestion.IngestFeed | src/ezee/ezee-reconciliation.service.ts:272-316 | the rows after one property's feed, and exactly the created ids |
| EzeeIngestion.NewArrivalsGetRows | src/ezee/ezee-reconciliation.service.ts:289-316 | every arrival that is neither cached nor dead gets its row under its generated id |
| EzeeIngestion.RowExactly | src/ezee/ezee-reconciliation.service.ts:294-316 | dead arrivals are those reported "Cancelled Reservation" or "No Show"; a row is active, without a guest, with the arrival's number, room and guest count, CHECKED_IN or CHECKED_OUT if so reported and CONFIRMED otherwise |
| EzeeIngestion.CityCodeExactly | src/ezee/ezee-reconciliation.service.ts:281-282 | the code in a generated id: the first three letters of the city in capitals, UNK without one |
| EzeeIngestion.IngestExternalBookings | src/ezee/ezee-reconciliation.service.ts:251-316 | the same over all properties, each looking up what the ones before it created |
| EzeeIngestion.PassIsComplete | src/ezee/ezee-reconciliation.service.ts:281-297 | a pass keeps existing rows and keeps reservation numbers distinct across properties, caches every live arrival by number or generated id, and repeated over the same lists creates nothing |
| EzeeSync.NoStayWithoutMoney | src/payment/payment.service.ts:823-831 | in every history, a booking that is queued, in a worker's hands, synced, or past payment and not cancelled has a captured booking payment |
| EzeeSync.NoneIsSkipped | src/ezee/ezee-reconciliation.service.ts:102-117 | in every history the requeueing pass finds a captured payment for every confirmed unsynced own booking, and a send of its message that is not dropped queues the booking again |
| EzeeSync.StepKeepsMoneyFirst | src/sqs/workers/ezee-sync.worker.ts:101-173 | one event of any kind keeps the invariant behind these two |
| EzeeConfirmations.ConfirmationIsSent | src/payment/payment.service.ts:823-831 | every call that confirms a booking sends one message, for that booking and with the amount of a payment then captured for it; no other call sends one |
| EzeeSync.EffectBalances | src/sqs/workers/ezee-sync.worker.ts:129-173 | one worker step: what it inserts it stores, loses, or is about to store; a stored number is kept |
| EzeeSync.InsertsAreAccounted | src/sqs/workers/ezee-sync.worker.ts:234-242 | in every history, successful inserts of an own booking = 1 if its number is stored + runs that died between insert and store + a run between the two |
| EzeeSync.NumberIsWriteOnce | src/sqs/workers/ezee-sync.worker.ts:161-168 | in every history, a stored reservation number never changes, whatever follows |
| EzeeNumbers.StepKeepsNumbersDistinctExactly | src/sqs/workers/ezee-sync.worker.ts:161-168 | one event keeps reservation numbers distinct if and only if it does not store a number that another booking carries; only the worker's write and the ingestion's create store numbers |
| EzeeNumbers.NumbersStayDistinctExactly | src/ezee/ezee-reconciliation.service.ts:272-315 | over any history from empty tables numbers are distinct throughout if and only if no event stores a number that is taken at that moment |
| EzeeNumbersWitness.NumberOnTwoRows | src/ezee/ezee-reconciliation.service.ts:274-299 | from empty tables: the worker has inserted a booking and not stored its number, the pass finds the number uncached; whichever of the two writes first, two bookings end up with it |
| EzeeSyncWorker.HandleInsertBooking | src/sqs/workers/ezee-sync.worker.ts:101-242 | the message may be deleted if and only if the reads succeeded and either the booking or its guest does not exist, or there is a number, stored before or inserted and stored in this run, eZee accepted the confirmation and the last stage did not fail; row, inserts and lost numbers are exact whatever fails where, and the room stored is the one fetched |
| EzeeSyncWorker.HandlerExactly | src/sqs/workers/ezee-sync.worker.ts:101-242 | the same of the protocol's steps taken one after the other, which are the handler's |
| EzeeSyncWorker.RunIsHistory | src/sqs/workers/ezee-sync.worker.ts:99-99 | such a run is a history of the protocol, with the same row and counts |
| EzeeConfirmations.DeletingIsConfirmed | src/sqs/workers/ezee-sync.worker.ts:174-180 | in every history a worker that is about to delete its message, for a booking with a known guest, has had exactly one ProcessBooking call accepted in its run |
| EzeeConfirmations.OnlyConfirmedAreDeleted | src/sqs/workers/ezee-sync.worker.ts:234-242 | in every history, what takes a message off the queue is the dead-letter queue or such a worker, or one whose booking or guest does not exist |
| EzeeConfirmations.StepKeepsConfirming | src/sqs/workers/ezee-sync.worker.ts:101-242 | one event of any kind keeps the invariant behind these two |
| EzeeConfirmations.StoresWhatItHeard | src/sqs/workers/ezee-sync.worker.ts:161-198 | a worker's step writes its own row only: the number it was given when it persists, the room it was told when it fetches, and nothing else of the row |
| SqsConsumer.Consumer.PollLoop | src/sqs/sqs-consumer.service.ts:82-151 | a queued message's count falls if and only if some received copy's worker succeeded and its deletion was heard; a message that no worker succeeded on keeps its count, and no count falls by more than the successes; the loop ends only at shutdown, after finishing its round |
| ColiveSync.Drafts.HandleInsertColiveBooking | src/sqs/workers/ezee-sync.worker.ts:305-420 | the draft, inserts, lost numbers and success of one run, whatever fails where, and no other draft changed |
| ColiveSync.RunExactly | src/sqs/workers/ezee-sync.worker.ts:320-420 | the message is deleted if and only if there was a number before or every step succeeded; the status left is SYNCED, FAILED, PARTIAL or the old one, by what failed; at most one insert, lost unless its number is stored |
| ColiveSync.InsertsAreAccounted | src/sqs/workers/ezee-sync.worker.ts:320-324 | over any redeliveries: inserts = stored number + lost numbers, and a draft with a number never changes again |
| ColiveSync.SyncedExactly | src/sqs/workers/ezee-sync.worker.ts:403-420 | a draft ends up SYNCED if and only if one single run went through every step without being marked failed: a failure after storing the number is never resumed |
| RoomOrders.ValidateRoomSelections | src/guest/booking/guest-booking.service.ts:803-840 | accepted if and only if at most six units and every selection is known, covered and has a matching guest list; then rooms, price and guest count are exact, else the first error |
| RoomOrders.OrderIsUnique | src/guest/booking/guest-booking.service.ts:813-839 | these facts determine the order |
| RoomOrders.CreateBookingSlots | src/guest/booking/guest-booking.service.ts:783-799 | slots 1..n, the booker in the first |
| RoomOrders.StoredSelectionIsReadBack | src/sqs/workers/ezee-sync.worker.ts:433-445 | what the worker reads back of each stored selection is what was selected, at the rate and eZee ids it was offered with, the rate plan standing in for a missing rate type |
| RoomOrders.BuildEzeeRooms | src/sqs/workers/ezee-sync.worker.ts:489-528 | the q-th bed of a selection is at its flattened index, and there are no other rooms |
| RoomOrders.AcceptedOrderMatchesEzee | src/sqs/workers/ezee-sync.worker.ts:503-525 | for every accepted order: guest count = slots = eZee rooms, each named guest at the flattened index, and the rates over the nights add up to the charged room subtotal |
| RoomOrders.RequestMatchesEzee | src/guest/booking/guest-booking.service.ts:657-680 | from the requested instants to eZee: guest count = slots = rooms, each named guest at the flattened index, and the rooms' rates over the worker's nights equal the charged subtotal if and only if checkout's time of day is not later than checkin's, or both are on one day, or the rooms are free |
| RoomOrders.WorkerNights | src/sqs/workers/ezee-sync.worker.ts:530-534 | the worker counts the midnights between the two calendar days, and at least one night |
| RoomOrders.NightsAgree | src/sqs/workers/ezee-sync.worker.ts:530-534 | order and worker count the same nights if and only if checkout's time of day is not later than checkin's, or both fall on one day |
| RoomSummary.ParseRoomTypeName | src/sqs/workers/ezee-sync.worker.ts:466-484 | the parsing loop computes the segment-wise parse |
| RoomSummary.PrintParseRoundTrip | src/guest/booking/guest-booking.service.ts:474-474 | parsing a printed summary gives back, in order, the quantities and each room type's price and eZee ids (empty if missing, the plan for a missing rate type), for all printable names unique ignoring case, names ending in " x2" included |
| PaymentSplit.AddPayments | src/sqs/workers/ezee-sync.worker.ts:205-222 | one attempt per sub-reservation in order, or one for the reservation itself if there are none, whatever was refused before; parts add up to the amount, all but the last are the same whole rupees, the last larger by less than one rupee per target |
| PaymentSplit.PartsAddUp | src/sqs/workers/ezee-sync.worker.ts:386-394 | the colive handler's split adds up likewise |
| Colive.QuoteAddons | src/guest/colive/colive.service.ts:346-368 | one line per bookable input, in order, with the exact subtotal; others are skipped |
| Colive.LinesExactly | src/guest/colive/colive.service.ts:346-368 | every bookable input has its own line in order and there are no others: at most the asked and the allowed quantity and no less than the smaller, a monthly addon charged for each whole month, a one-time addon once |
| Colive.FoundAddon | src/guest/colive/colive.service.ts:349-350 | the addon of an input is the first of the catalogue with its id, or there is none |
| Colive.LinesAdd | src/guest/colive/colive.service.ts:367-367 | the addon subtotal is the sum of the lines |
| Colive.DraftAddons | src/guest/colive/colive.service.ts:500-523 | succeeds if and only if every input asked for is bookable, with the same lines; else the first error |
| Colive.CreateQuote | src/guest/colive/colive.service.ts:310-386 | the charges and savings of the quote; refused if and only if the room type has no monthly price |
| Colive.CreateDraftBooking | src/guest/colive/colive.service.ts:488-529 | the draft keeps the quote's room subtotal and tax and adds its own lines |
| Colive.DraftCostsWhatTheQuoteSaid | src/guest/colive/colive.service.ts:526-529 | with the same inputs lines and grand total agree; with others the grand total agrees if and only if the addon subtotal does |
| Colive.AcceptedInputsAreQuoted | src/guest/colive/colive.service.ts:347-349 | when the draft accepts its inputs, the quote skipped none that asked for something |
| Colive.RoomTotalExactly | src/guest/colive/colive.service.ts:311-333 | the room total is whole months at the monthly price plus the days over at the nightly rate, to the nearest rupee |
| Colive.RoomTotalMonotone | src/guest/colive/colive.service.ts:311-333 | a longer stay never has a smaller room total if a month costs at least 29 nights |
| Colive.RawPriceMonotoneExactly | src/guest/colive/colive.service.ts:333-333 | before rounding that holds if and only if a month costs at least 29 nights |
| Colive.SavingsWithinARupee | src/guest/colive/colive.service.ts:384-385 | if a month costs at most 30 nights the clamp at zero is inactive and savings are within a rupee of months x (30 nights - month) |
| Colive.TaxAndGrandTotal | src/guest/colive/colive.service.ts:379-381 | tax within half a rupee of 5%, and the grand total is strictly monotone in the subtotal |

## Left out

- Calls to Razorpay, SES, S3, Textract/OpenAI, Redis, SQS and MyGate, and signatures, tokens, guards, controllers, DTO validation and audit logs: outcomes are parameters, or steps that may fail.
- Caches: `catalog:<property>` is shared by two catalogues and reservations do not invalidate it, so cached answers need not agree with the tables.
- Events, admin users, room-type administration, listings and formatting, and the images and text recognition of KYC documents: easy members only.
- The VERIFIED status of a slot, which would lock it: the program reads it and never writes it.
- GuestKycService.DeleteSlot: the deletions of the submission and of the slot are two statements without a transaction in the program and one step here.
- `deleteProduct` and `getReturnableForecast`; the forecast subtracts damaged units from a total that already excludes them.
- `GuestBookingService.rollbackPendingBooking` and `confirmBooking`: nothing calls them; the payment service has its own.
- The availability lookup: its answer is an argument of a booking order. Beds can be oversold by repeating a room type in one request or by the DB fallback, which compares room names with summaries.
- One slot per guest: linking the same booking again takes another slot.
- "The folio total equals the money captured" and "the captured amount equals the order total": neither holds (duplicate messages pay again, carts can change after the Razorpay order is made).
- The order of sub-reservations, and the rate strings and rounding inside `insertBooking`.
- The confirmation of long-stay payments, and how `handleInsertColiveBooking` interleaves with anything else: redeliveries of its message run one after the other.
- Dates other than for nights, draft expiry, contact details and roles of access.
- Identifiers are numbers, generated ones are fresh, and stock rows are named by their product, since only creating a product makes one. The OVERDUE loan status is never set.
- PaymentService.FulfilOrder: runs as one atomic step; concurrent captures of one addon payment and rollback against capture rest on unlocked reads and are not safe at statement level.
- Interleaving.MovedExactlyOnce: no other transaction touches the reservation's orders, booking or stock rows in between; rollbacks are not interleaved.
- EzeeSync.InsertsAreAccounted: one message of a reservation is in flight at a time, as the FIFO group promises; a worker outliving its visibility timeout is not modelled.
- EzeeIngestion.IngestExternalBookings: a pass is one step (`EzeeSync` splits each row into look-up and create); linking a matching guest and the e-mail are left out.
- EzeeReconciliation.ReconcileEzeeState: the counters of the log line are left out, and the pass is one step (`EzeeSync` splits it into list and refresh).
- RoomSummary.PrintParseRoundTrip: letter case is that of ASCII, and the column's limit of 100 characters, which truncates or refuses long summaries, is left out.
- Colive.CreateQuote: prices and rates are whole paise; the property, room option and eZee lookups are arguments.
