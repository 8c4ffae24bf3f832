/**
 * Completing a booking against the Booking, Payment and Ticket tables:
 * price the selections, insert the Booking row, insert the Payment row,
 * attach the payment to the booking, then bulk-insert one Ticket row per
 * seat when there is at least one. The first statement that fails ends the
 * run with a generic error; earlier writes stay in place.
 */
module BookingController {
  import opened Wrappers
  import opened DiscountService
  import opened BookingPricing
  import opened BookingTickets

  /** Card details stored with a payment, as given. */
  datatype PaymentDetails = PaymentDetails(cardNumber: string, expiry: string, cvv: string, cardHolderName: string)

  /** The body of a booking request. The client's `discountApplied` is not used and so not modelled. */
  datatype BookingRequest = BookingRequest(
    userId: int, performanceId: int, eventId: int,
    totalAmount: real,
    payment: PaymentDetails,
    categories: seq<CategoryEntry>,
    performanceDetails: map<string, real>)

  /** A Booking row; `paymentId` is filled in by the update after the payment insert. */
  datatype BookingRow = BookingRow(
    userId: int, eventId: int, performanceId: int, bookingDate: int,
    discountApplied: real, totalAmount: real, paymentId: Option<nat>)

  /** A Payment row. */
  datatype PaymentRow = PaymentRow(bookingId: nat, details: PaymentDetails, paymentDate: int, amount: real)

  /** What a successful booking reports. */
  datatype Receipt = Receipt(bookingId: nat, paymentId: nat)

  /** The first database statement of the run that fails, if any. */
  datatype Failure =
    | NoFailure
    | DiscountLookupFails
    | BookingInsertFails
    | PaymentInsertFails
    | BookingUpdateFails
    | TicketInsertFails

  /** How far a run gets before it stops. */
  datatype Stage = NothingWritten | BookingInserted | PaymentInserted | PaymentLinked | Completed
  {
    function Rank(): nat
    {
      match this
      case NothingWritten => 0
      case BookingInserted => 1
      case PaymentInserted => 2
      case PaymentLinked => 3
      case Completed => 4
    }
  }

  /**
   * The stage a run reaches given the failing statement: a failing lookup
   * matters only if a lookup is made, a failing ticket insert only if
   * there are tickets to insert.
   */
  function StageReached(failure: Failure, cats: seq<CategoryEntry>): Stage
  {
    match failure
    case NoFailure => Completed
    case DiscountLookupFails => if NeedsLookup(cats) then NothingWritten else Completed
    case BookingInsertFails => NothingWritten
    case PaymentInsertFails => BookingInserted
    case BookingUpdateFails => PaymentInserted
    case TicketInsertFails => if TicketCount(cats) > 0 then PaymentLinked else Completed
  }

  /** The stage the Booking and Payment writes reach given the failing statement. */
  function WritesReached(failure: Failure): Stage
  {
    match failure
    case BookingInsertFails => NothingWritten
    case PaymentInsertFails => BookingInserted
    case BookingUpdateFails => PaymentInserted
    case _ => PaymentLinked
  }

  /** The Booking row a request writes, with the given payment reference. */
  function NewBooking(req: BookingRequest, bookingNow: int, q: Quote, paymentId: Option<nat>): BookingRow
  {
    BookingRow(req.userId, req.eventId, req.performanceId, bookingNow, q.finalDiscount, q.finalTotal, paymentId)
  }

  /** The quote a request gets against a Discount table. */
  function QuoteFor(req: BookingRequest, discounts: seq<DiscountRow>): Quote
  {
    PriceBooking(req.categories, req.performanceDetails, discounts, req.totalAmount)
  }

  /** The database: the read-only Discount table and the tables a booking writes, with their id counters. */
  class BoxOffice {
    var discounts: seq<DiscountRow>
    var bookings: map<nat, BookingRow>
    var payments: map<nat, PaymentRow>
    var tickets: seq<TicketRow>
    var nextBookingId: nat
    var nextPaymentId: nat

    /**
     * Ids below the counters; no reference dangles: every payment names a
     * booking, a booking's payment names it back and carries its total,
     * every ticket names a booking.
     */
    ghost predicate Valid()
      reads this
    {
      && (forall b :: b in bookings ==> b < nextBookingId)
      && (forall p :: p in payments ==> p < nextPaymentId)
      && (forall p :: p in payments ==> payments[p].bookingId in bookings)
      && (forall b :: b in bookings && bookings[b].paymentId.Some? ==>
            var p := bookings[b].paymentId.value;
            p in payments && payments[p].bookingId == b && payments[p].amount == bookings[b].totalAmount)
      && (forall t :: 0 <= t < |tickets| ==> tickets[t].bookingId in bookings)
    }

    constructor (discounts: seq<DiscountRow>)
      ensures Valid()
      ensures this.discounts == discounts && bookings == map[] && payments == map[] && tickets == []
    {
      this.discounts := discounts;
      bookings := map[];
      payments := map[];
      tickets := [];
      nextBookingId := 1;
      nextPaymentId := 1;
    }

    /** INSERT INTO Booking: the row gets the next id. */
    method InsertBooking(row: BookingRow) returns (id: nat)
      requires Valid() && row.paymentId.None?
      modifies this`bookings, this`nextBookingId
      ensures Valid()
      ensures id == old(nextBookingId) && id !in old(bookings)
      ensures bookings == old(bookings)[id := row] && nextBookingId == id + 1
    {
      id := nextBookingId;
      bookings := bookings[id := row];
      nextBookingId := nextBookingId + 1;
    }

    /** INSERT INTO Payment for an existing booking: the row gets the next id. */
    method InsertPayment(row: PaymentRow) returns (id: nat)
      requires Valid() && row.bookingId in bookings
      modifies this`payments, this`nextPaymentId
      ensures Valid()
      ensures id == old(nextPaymentId) && id !in old(payments)
      ensures payments == old(payments)[id := row] && nextPaymentId == id + 1
    {
      id := nextPaymentId;
      payments := payments[id := row];
      nextPaymentId := nextPaymentId + 1;
    }

    /** UPDATE Booking SET PaymentID: attach a payment made for this booking and its total. */
    method LinkPayment(bookingId: nat, paymentId: nat)
      requires Valid() && bookingId in bookings && paymentId in payments
      requires payments[paymentId].bookingId == bookingId
      requires payments[paymentId].amount == bookings[bookingId].totalAmount
      modifies this`bookings
      ensures Valid()
      ensures bookings == old(bookings)[bookingId := old(bookings)[bookingId].(paymentId := Some(paymentId))]
    {
      bookings := bookings[bookingId := bookings[bookingId].(paymentId := Some(paymentId))];
    }

    /** INSERT INTO Ticket: append rows for existing bookings. */
    method InsertTickets(rows: seq<TicketRow>)
      requires Valid() && forall t :: 0 <= t < |rows| ==> rows[t].bookingId in bookings
      modifies this`tickets
      ensures Valid()
      ensures tickets == old(tickets) + rows
    {
      tickets := tickets + rows;
    }

    /**
     * Steps 2 to 4 of a booking: insert the Booking row, insert the Payment
     * row for its final total, attach the payment to the booking. The
     * first failing statement ends the run and keeps what was written.
     */
    method RecordBooking(req: BookingRequest, quote: Quote, bookingNow: int, paymentNow: int, failure: Failure)
      returns (r: Result<Receipt, string>)
      requires Valid()
      modifies this`bookings, this`payments, this`nextBookingId, this`nextPaymentId
      ensures Valid()
      ensures var bookingId, paymentId := old(nextBookingId), old(nextPaymentId);
              var written := WritesReached(failure);
              && (r.Ok? <==> written == PaymentLinked)
              && (r.Ok? ==> r.value == Receipt(bookingId, paymentId))
              && (r.Err? ==> r.error == GenericError)
              && (nextBookingId == if written.Rank() >= 1 then bookingId + 1 else bookingId)
              && (bookings == if written.Rank() >= 1
                              then old(bookings)[bookingId :=
                                     NewBooking(req, bookingNow, quote, if written.Rank() >= 3 then Some(paymentId) else None)]
                              else old(bookings))
              && (nextPaymentId == if written.Rank() >= 2 then paymentId + 1 else paymentId)
              && (payments == if written.Rank() >= 2
                              then old(payments)[paymentId := PaymentRow(bookingId, req.payment, paymentNow, quote.finalTotal)]
                              else old(payments))
    {
      if failure == BookingInsertFails {
        return Err(GenericError);
      }
      var bookingId := InsertBooking(NewBooking(req, bookingNow, quote, None));
      if failure == PaymentInsertFails {
        return Err(GenericError);
      }
      var paymentId := InsertPayment(PaymentRow(bookingId, req.payment, paymentNow, quote.finalTotal));
      if failure == BookingUpdateFails {
        return Err(GenericError);
      }
      LinkPayment(bookingId, paymentId);
      return Ok(Receipt(bookingId, paymentId));
    }

    /**
     * Complete a booking. `draws` are the random values that choose the
     * seats, `bookingNow` and `paymentNow` the database clock as read by
     * the Booking and the Payment insert, `failure` the first statement that
     * fails. The new state is determined by the stage the run reaches.
     */
    method CompleteBooking(req: BookingRequest, draws: seq<real>, bookingNow: int, paymentNow: int,
                           failure: Failure)
      returns (r: Result<Receipt, string>)
      requires Valid()
      requires |draws| == TicketCount(req.categories) && ValidDraws(draws)
      modifies this`bookings, this`payments, this`tickets, this`nextBookingId, this`nextPaymentId
      ensures Valid()
      ensures var stage := StageReached(failure, req.categories);
              var q := QuoteFor(req, old(discounts));
              var bookingId, paymentId := old(nextBookingId), old(nextPaymentId);
              && (r.Ok? <==> stage == Completed)
              && (r.Ok? ==> r.value == Receipt(bookingId, paymentId))
              && (r.Err? ==> r.error == GenericError)
              && (nextBookingId == if stage.Rank() >= 1 then bookingId + 1 else bookingId)
              && (bookings == if stage.Rank() >= 1
                              then old(bookings)[bookingId :=
                                     NewBooking(req, bookingNow, q, if stage.Rank() >= 3 then Some(paymentId) else None)]
                              else old(bookings))
              && (nextPaymentId == if stage.Rank() >= 2 then paymentId + 1 else paymentId)
              && (payments == if stage.Rank() >= 2
                              then old(payments)[paymentId := PaymentRow(bookingId, req.payment, paymentNow, q.finalTotal)]
                              else old(payments))
              && (tickets == if stage == Completed
                             then old(tickets) + TicketRows(bookingId, req.categories, req.performanceDetails, draws)
                             else old(tickets))
    {
      // 1) pricing, with one Discount lookup per discounted category
      var priced := PriceCategories(req.categories, req.performanceDetails, discounts, req.totalAmount,
                                    failure == DiscountLookupFails);
      if priced.Err? {
        return Err(GenericError);
      }

      // 2) to 4) the Booking and Payment rows
      var recorded := RecordBooking(req, priced.value, bookingNow, paymentNow, failure);
      if recorded.Err? {
        return recorded;
      }
      var bookingId := recorded.value.bookingId;

      // 5) one ticket per seat, inserted only if there are any
      var rows := BuildTickets(bookingId, req.categories, req.performanceDetails, draws);
      if |rows| > 0 {
        if failure == TicketInsertFails {
          return Err(GenericError);
        }
        TicketRowsBelongTo(bookingId, req.categories, req.performanceDetails, draws);
        InsertTickets(rows);
      } else {
        assert tickets == old(tickets) + rows;
      }
      return recorded;
    }
  }
}
