# Box office booking kernel in Dafny

This project models the core of a theatre box-office backend: completing a
booking and the discount service it calls, plus user registration and login.

Completing a booking works in two phases.

**Pricing.** The handler walks the request's categories (`adults`,
`children`, `oap`, `social`, each with a price band and a quantity), in key
order:
- it skips entries with no band or a non-positive quantity;
- it counts tickets and prices each band from the performance's band prices, with a missing band priced at 0;
- for `children`, `oap` and `social` it fetches the percentage stored in the Discount table for "Children", "Old Age Pensioners" and "Social Group", and adds `price * pct / 100 * qty` to the category discount.

With more than 20 tickets, a further 5% of what remains of the
client-supplied base total is taken off. The result is the final discount
and the final total. The only caller in the repository
(frontend/frontend/src/app/book/[performanceId]/page.js:166) sends its own
final total as the base. That total already has the client's category
discounts taken off, at rates fixed in the page (lines 57-62) rather than read
from the Discount table, and above 20 tickets also the client's own 5% volume
discount (lines 81-85). So the category discounts, and above 20 tickets the
volume discount too, are taken twice. The model follows the handler and takes
`totalAmount` as given.

**Persistence.** The handler then runs a fixed sequence of writes:
1. it inserts a Booking row with the final discount and final total;
2. it inserts a Payment row for the final total;
3. it attaches the payment to the booking;
4. it builds one Ticket row per seat, at the undiscounted band price and on a random seat 1..100;
5. it inserts those rows, but only if there is at least one.

The first database statement that fails ends the run with a generic error.
Earlier writes are not rolled back.

**Registration and login.** Registration refuses a username already present
in UserLogin. Otherwise it inserts a User row, with the role defaulting to
"user", and a UserLogin row holding the password as given. Login joins
UserLogin with User, takes the first row for the username and compares the
password. An unknown user and a wrong password get the same answer. Admin
rights are granted exactly when the role is "admin".

Modules:
- `Wrappers`: `Option` and `Result`.
- `DiscountService`: the Discount table and the percentage arithmetic. It is pure.
- `BookingPricing`: specification functions for the pricing loop and volume discount, and the loop itself as a method.
- `BookingTickets`: the ticket list as a specification function, and the nested loop that builds it.
- `BookingController`: class `BoxOffice`. It holds the Discount, Booking, Payment and Ticket tables, with id counters for Booking and Payment, and runs the write sequence. The Ticket table's `TicketID` is left out because completing a booking never reads it.
- `AuthController`: `Login`, a pure function, and class `UserDirectory`, which holds the User and UserLogin tables and runs registration.

How the environment is modelled:
- **Database failures.** A `Failure` value names the first statement that errors. A failing Discount lookup only matters if a lookup is made. A failing ticket insert only matters if there are tickets.
- **Clock.** The Booking insert and the Payment insert each read the database clock `NOW()`. The two readings are separate parameters, `bookingNow` and `paymentNow`, so the two dates may differ.
- **Seat numbers.** `Math.random` is a sequence of draws in [0, 1), one per ticket, in the order the tickets are built. A draw `d` gives the seat `floor(d * 100) + 1`.
- **Categories.** The `categories` object is a sequence of (key, selection) entries in the order `Object.keys` returns them, which for these keys is insertion order. An empty band string stands for every falsy band.

A category key other than the four named ones is not ignored: its tickets
count toward the volume threshold and produce full-price tickets. It only
gets no category discount (`UndiscountedKeyAddsNoDiscount`).

## Model

| member | source | states |
|---|---|---|
| DiscountService.FirstMatch | backend/src/services/discount.service.js:10-14 | the row the lookup returns is the first row of the requested type; there is none exactly when no row has that type |
| DiscountService.GetDiscountPercentage | backend/src/services/discount.service.js:8-16 | 0 when no Discount row has the type, otherwise the percentage of the first matching row; a function of the table, which the lookup does not change |
| DiscountService.PercentageInRange | backend/src/services/discount.service.js:13-14 | if every stored percentage lies in 0..100, so does every lookup result |
| DiscountService.CalculateDiscount | backend/src/services/discount.service.js:20-21 | the discount is the amount that, scaled by 100, equals price times percentage |
| DiscountService.CalculateDiscountRates | backend/src/services/discount.service.js:20-21 | a 0% rate takes nothing off, 100% takes the whole price, and a rate in 0..100 takes between 0 and the price for a non-negative price |
| DiscountService.CalculateDiscountMonotone | backend/src/services/discount.service.js:20-21 | for a non-negative price the discount does not decrease as the percentage grows |
| BookingPricing.BandPrice | backend/src/controllers/booking.controller.js:114 | a band missing from the band prices costs 0, a present band its listed price; with non-negative listed prices every band price is non-negative; the ticket rows use the same lookup (line 193) |
| BookingPricing.DiscountTypeOf | backend/src/controllers/booking.controller.js:118-121 | exactly the keys children, oap and social have a discount type, namely "Children", "Old Age Pensioners" and "Social Group" |
| BookingPricing.VolumeDiscount | backend/src/controllers/booking.controller.js:133-138 | no extra discount at 20 tickets or fewer; beyond 20, 5% of the base total minus the category discount, so never more than that remainder when it is non-negative |
| BookingPricing.PriceBooking | backend/src/controllers/booking.controller.js:133-141 | final discount plus final total is exactly the client-supplied base total, which is not recomputed and may leave a negative total |
| BookingPricing.PriceCategories | backend/src/controllers/booking.controller.js:103-141 | the pricing loop fails, with the generic booking error, exactly when the Discount lookup fails and some purchased entry needs a lookup; otherwise it returns the quote of the category sums and the volume rule |
| BookingPricing.SumsAppend | backend/src/controllers/booking.controller.js:108-131 | ticket count, category discount and undiscounted value each add up over consecutive groups of categories |
| BookingPricing.SkippedEntryContributesNothing | backend/src/controllers/booking.controller.js:110 | an entry with no band or a non-positive quantity changes neither the ticket count, nor the category discount, nor the quote, wherever it stands |
| BookingPricing.UndiscountedKeyAddsNoDiscount | backend/src/controllers/booking.controller.js:116-130 | a key other than children, oap and social adds no category discount but still adds its tickets |
| BookingPricing.AbsentBandIsFree | backend/src/controllers/booking.controller.js:114 | a band missing from the band prices is priced at 0, so it adds neither discount nor value |
| BookingPricing.VolumeRule | backend/src/controllers/booking.controller.js:133-140 | with at most 20 tickets the final discount is the category discount; with more than 20 it adds 5% of the base total minus the category discount |
| BookingPricing.NoLookupNoCategoryDiscount | backend/src/controllers/booking.controller.js:118-130 | when no purchased entry has a discount type, the category discount is 0 |
| BookingPricing.VolumeOnlyDiscount | backend/src/controllers/booking.controller.js:133-141 | more than 20 tickets with no discounted category: the discount is 5% of the base total and the total is 95% of it |
| BookingPricing.CategoryDiscountBounded | backend/src/controllers/booking.controller.js:114-129 | with non-negative prices and percentages in 0..100, the category discount lies between 0 and the undiscounted value of the tickets |
| BookingPricing.EntryDiscountBounded | backend/src/controllers/booking.controller.js:125-129 | the discount one category contributes lies between 0 and the undiscounted value of its tickets |
| BookingPricing.WorkedExample | backend/src/controllers/booking.controller.js:108-141 | two adults and one child in a band at 10, with a 25% child rate: 3 tickets, discount 2.5, total 27.5 of a base of 30 |
| BookingTickets.SeatNumber | backend/src/controllers/booking.controller.js:196 | a random value in [0, 1) gives a seat in 1..100 |
| BookingTickets.CategoryTickets | backend/src/controllers/booking.controller.js:194-198 | a category yields exactly as many tickets as its quantity |
| BookingTickets.CategoryTicketsAt | backend/src/controllers/booking.controller.js:194-198 | the k-th ticket of a category carries the booking id, the seat of its own draw and the category's band price |
| BookingTickets.TicketRows | backend/src/controllers/booking.controller.js:186-199 | the ticket list has exactly as many rows as the tickets counted by the pricing loop |
| BookingTickets.TicketRowFields | backend/src/controllers/booking.controller.js:196-197 | every ticket carries the booking id and a seat in 1..100 taken from its own draw; nothing makes seats distinct |
| BookingTickets.TicketRowsBelongTo | backend/src/controllers/booking.controller.js:197 | every ticket names the new booking |
| BookingTickets.TicketRowPrices | backend/src/controllers/booking.controller.js:190-197 | a ticket built for a category belongs to a purchased entry and carries that band's undiscounted price |
| BookingTickets.TicketRowsStep | backend/src/controllers/booking.controller.js:188-199 | an entry with no band or a non-positive quantity adds no ticket; a purchased entry adds exactly its own tickets after those of the earlier entries |
| BookingTickets.CategoryTicketsSum | backend/src/controllers/booking.controller.js:193-198 | a category's tickets add up to its band price times its quantity |
| BookingTickets.TicketPricesAreUndiscounted | backend/src/controllers/booking.controller.js:186-199 | the ticket prices add up to the undiscounted value of the selections: no discount reaches the tickets |
| BookingTickets.PushCategoryTickets | backend/src/controllers/booking.controller.js:194-198 | the inner loop appends exactly one category's tickets to the list |
| BookingTickets.BuildTickets | backend/src/controllers/booking.controller.js:186-199 | the nested loop builds exactly the ticket list the specification function defines |
| BookingController.BoxOffice.constructor | backend/src/controllers/booking.controller.js:143-210 | empty Booking, Payment and Ticket tables satisfy the table invariant |
| BookingController.BoxOffice.InsertBooking | backend/src/controllers/booking.controller.js:144-158 | the Booking row is stored under a fresh id, with no payment attached yet |
| BookingController.BoxOffice.InsertPayment | backend/src/controllers/booking.controller.js:161-175 | the Payment row is stored under a fresh id and names an existing booking |
| BookingController.BoxOffice.LinkPayment | backend/src/controllers/booking.controller.js:177-184 | the booking's payment id becomes the new payment; nothing else changes |
| BookingController.BoxOffice.InsertTickets | backend/src/controllers/booking.controller.js:202-210 | the ticket rows are appended as given |
| BookingController.BoxOffice.RecordBooking | backend/src/controllers/booking.controller.js:143-184 | Booking insert, Payment insert and update run in order; the first failure stops the run with the generic error and keeps earlier writes; the Payment amount is the final total |
| BookingController.BoxOffice.CompleteBooking | backend/src/controllers/booking.controller.js:89-222 | the whole new state is fixed by how far the run gets: Booking row with final discount and total, Payment for the final total naming the booking, booking linked to the payment, tickets inserted only if there are any; a failure keeps earlier writes and returns the generic error; no payment, booking or ticket reference dangles |
| AuthController.RoleOf | backend/src/controllers/auth.controller.js:25 | a missing role defaults to "user"; a supplied role is kept as given |
| AuthController.FindLogin | backend/src/controllers/auth.controller.js:83-97 | the row login uses is the first UserLogin row for the username whose user exists; there is none exactly when no such row exists |
| AuthController.Login | backend/src/controllers/auth.controller.js:81-113 | a database error gives 500; an unknown user and a wrong password give the same 400 "Invalid username or password."; a success names a user holding a login row with these exact credentials, and reports admin exactly when that user's role is "admin" |
| AuthController.LoginSucceedsIff | backend/src/controllers/auth.controller.js:89-102 | with unique usernames, login succeeds exactly when some row holds this username and password for an existing user |
| AuthController.LoginAfterRegistration | backend/src/controllers/auth.controller.js:59-105 | adding a user and a login row for a fresh username makes login with that password succeed as that user |
| AuthController.UserDirectory.constructor | backend/src/controllers/auth.controller.js:15-69 | empty User and UserLogin tables satisfy the directory invariant |
| AuthController.UserDirectory.Register | backend/src/controllers/auth.controller.js:15-69 | covers the outcomes below; it keeps usernames unique and every login attached to a user |

`Register` establishes the following:
- a failing check gives 500;
- a taken username gives 400 "Username already exists." and writes nothing;
- a failing User insert gives 500 and writes nothing;
- a failing login insert gives 500 and leaves the User row behind;
- a success inserts one User row carrying the role, which defaults to "user", and one UserLogin row with the username and password;
- a success returns the new id, the name and the role;
- after a success, login with the same credentials succeeds.

## Left out

- HTTP routing, response formatting and the success messages: only the fields of a success and the error of a failure are modelled. Registration and login failures keep their status and message; a failed booking keeps only its message, since every booking failure is the same 500.
- The MySQL connection and callback plumbing: tables are in-memory maps and sequences. SQL `insertId` is a per-table counter starting at 1.
- The order of rows a query returns: the first row in table order stands for `results[0]`.
- Concurrency between requests: the handlers have no coordination, and each run is modelled as atomic.
- The client's `discountApplied` and `shipping` fields: the handler reads them but never uses them.
- Card details: they are stored as given, with no validation.
- The "Seat N" label: only the number N is modelled.
- JavaScript number semantics: prices and totals are exact reals, with no IEEE-754 rounding and no `parseFloat` of the stored percentage.
- Non-integer, string or missing quantities: a string quantity would be concatenated by `+=` in JavaScript, and an entry with a band but no `qty` is not skipped (`undefined <= 0` is false) and makes the ticket count NaN.
- A band whose price is falsy but present: 0 and a missing band are both priced at 0, and NaN is not modelled.
- The randomness source: seats come from the `draws` parameter rather than a generator.
- Username and discount-type matching: the queries compare with SQL `=`, which follows the column collation and ignores case under MySQL's default collations. The model compares strings exactly, so it does not capture "alice" finding or blocking the row of "Alice" in the duplicate check, the login query or the Discount lookup.
- Malformed request bodies: every field of a request is taken as present and well-typed. In the code, a missing or null `categories` or category entry throws into the generic 500 before any write. A missing or null `performanceDetails` throws at line 114 only when some entry is purchased; when none is, it is never read and the booking completes with no tickets. A missing `payment` throws only when the Payment row is built, after the Booking insert, so it ends in the same state as a failing Payment insert (`PaymentInsertFails`). A `role` sent as null is stored as NULL, because the default applies only to a missing role.
- Password hashing: the code stores and compares the password as given, and so does the model.
- The CRUD controllers (events, performances, users, admin), `getBookingDetails`, the legacy `server.js` duplicate of register and login, and the frontend are not part of this model.
- BookingController.BoxOffice.CompleteBooking: requires exactly one draw per ticket, because the number of `Math.random` calls is the ticket count.
- AuthController.UserDirectory.Register: unique usernames are an invariant of the model. Without concurrency the duplicate check maintains it; the schema's own constraints are not part of this model.
