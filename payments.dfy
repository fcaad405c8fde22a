/**
 * PaymentService: the gateway's report of a successful payment. The booking must be
 * PENDING or CONFIRMED; the payment row records the booking's own total, the booking
 * becomes PAID and the ledger receives a CREDIT of the same total, all in one transaction.
 */
module Payments {
  import opened Wrappers
  import opened Model
  import opened Errors
  import CategoryRepository
  import BookingRepository
  import opened Store
  import opened Bookings

  const BookingMissing: Failure := Unhandled(ResourceNotFound, "Booking not found")

  /** The IllegalStateException for a booking in any other status. */
  function NotPayable(s: BookingStatus): Failure {
    Unhandled(IllegalState, "Booking is not in a valid state for payment. Current status: " + s.Name())
  }

  /** Only a PENDING or CONFIRMED booking can be paid. */
  predicate Payable(s: BookingStatus) {
    s == Pending || s == Confirmed
  }

  /** The three writes of a payment. */
  function PaymentWrites(t: Tables, b: Booking, req: PaymentRequest, concertId: Uuid, now: Timestamp): Tables {
    t.(payments := t.payments + [Payment(b.id, b.totalAmount, None, req.paymentMethod, req.gatewayTransactionId, now)],
       bookings := Saved(t.bookings, b.(status := Paid)),
       ledger := t.ledger + [LedgerEntry(b.id, Some(concertId), b.totalAmount, Credit, now)])
  }

  /** processSuccessfulPayment. The category lookup comes last: a failure there rolls back the payment row. */
  function Pay(t: Tables, req: PaymentRequest, now: Timestamp): (r: (Tables, Outcome<()>))
    ensures BookingRepository.FindById(t.bookings, req.bookingId).None? ==> r.1 == Thrown(BookingMissing)
    ensures r.1.Success? <==>
      && BookingRepository.FindById(t.bookings, req.bookingId).Some?
      && Payable(BookingRepository.FindById(t.bookings, req.bookingId).value.status)
      && CategoryRepository.FindById(t.categories, BookingRepository.FindById(t.bookings, req.bookingId).value.categoryId).Some?
    ensures !r.1.Success? ==> r.0 == t
    ensures var found := BookingRepository.FindById(t.bookings, req.bookingId);
      found.Some? && !Payable(found.value.status) ==> r.1 == Thrown(NotPayable(found.value.status))
    // one payment row and one CREDIT, both of the stored total, and the booking saved as PAID
    ensures r.1.Success? ==>
      var b := BookingRepository.FindById(t.bookings, req.bookingId).value;
      var c := CategoryRepository.FindById(t.categories, b.categoryId).value;
      r.0 == t.(payments := t.payments + [Payment(b.id, b.totalAmount, None, req.paymentMethod, req.gatewayTransactionId, now)],
                bookings := Saved(t.bookings, b.(status := Paid)),
                ledger := t.ledger + [LedgerEntry(b.id, Some(c.eventId), b.totalAmount, Credit, now)])
  {
    match BookingRepository.FindById(t.bookings, req.bookingId)
    case None => (t, Thrown(BookingMissing))
    case Some(b) =>
      if !Payable(b.status) then (t, Thrown(NotPayable(b.status)))
      else
        match CategoryRepository.FindById(t.categories, b.categoryId)
        case None => (t, Thrown(NoCategory))
        case Some(c) => (PaymentWrites(t, b, req, c.eventId, now), Success(()))
  }

  /**
   * What a successful payment writes, read back through the repositories: one payment row and
   * one CREDIT, both for the booking's stored total whatever amount the request carries and both
   * after the rows already there; the CREDIT is tagged with the booking and its concert; the
   * booking becomes PAID and every other booking, the categories and the events stay as they were.
   */
  lemma PaymentRecordsBookingTotal(t: Tables, req: PaymentRequest, now: Timestamp, b: Booking, c: TicketCategory)
    requires Pay(t, req, now).1.Success?
    requires BookingRepository.FindById(t.bookings, req.bookingId) == Some(b)
    requires CategoryRepository.FindById(t.categories, b.categoryId) == Some(c)
    ensures var t' := Pay(t, req, now).0;
      && |t'.payments| == |t.payments| + 1 && t'.payments[..|t.payments|] == t.payments
      && t'.payments[|t.payments|].amount == b.totalAmount
      && t'.payments[|t.payments|].bookingId == req.bookingId
      && |t'.ledger| == |t.ledger| + 1 && t'.ledger[..|t.ledger|] == t.ledger
      && t'.ledger[|t.ledger|] == LedgerEntry(req.bookingId, Some(c.eventId), b.totalAmount, Credit, now)
      && BookingRepository.FindById(t'.bookings, req.bookingId) == Some(b.(status := Paid))
      && (forall x :: x != req.bookingId ==> BookingRepository.FindById(t'.bookings, x) == BookingRepository.FindById(t.bookings, x))
      && t'.categories == t.categories && t'.events == t.events && t'.venues == t.venues && t'.nextId == t.nextId
  {
    SavedIsFound(t.bookings, b.(status := Paid));
    var t' := Pay(t, req, now).0;
    assert t'.payments[..|t.payments|] == t.payments;
    assert t'.ledger[..|t.ledger|] == t.ledger;
  }

  /** The amount in the request plays no part. */
  lemma RequestedAmountIgnored(t: Tables, req: PaymentRequest, amount: Money, now: Timestamp)
    ensures Pay(t, req.(amount := amount), now) == Pay(t, req, now)
  {
  }

  /** A booking is paid at most once: once PAID, a second report is refused and changes nothing. */
  lemma PaidOnce(t: Tables, req: PaymentRequest, now: Timestamp, later: Timestamp)
    requires BookingRepository.UniqueIds(t.bookings)
    requires Pay(t, req, now).1.Success?
    ensures Pay(Pay(t, req, now).0, req, later) == (Pay(t, req, now).0, Thrown(NotPayable(Paid)))
  {
    var b := BookingRepository.FindById(t.bookings, req.bookingId).value;
    PaymentRecordsBookingTotal(t, req, now, b, CategoryRepository.FindById(t.categories, b.categoryId).value);
  }

  /** Paying keeps the database's constraints and the stock balance: a paid booking still holds its seats. */
  lemma PaymentPreserves(t: Tables, req: PaymentRequest, now: Timestamp)
    requires WellFormed(t) && Conserved(t)
    ensures WellFormed(Pay(t, req, now).0) && Conserved(Pay(t, req, now).0)
  {
    if Pay(t, req, now).1.Success? {
      StatusChangePreserves(t, BookingRepository.FindById(t.bookings, req.bookingId).value, Paid);
    }
  }

  class PaymentService {
    const db: Database

    constructor (db: Database)
      ensures this.db == db
    {
      this.db := db;
    }

    method ProcessSuccessfulPayment(req: PaymentRequest, now: Timestamp) returns (r: Outcome<()>)
      requires db.Valid()
      modifies db
      ensures db.Valid()
      ensures (db.State(), r) == Pay(old(db.State()), req, now)
    {
      ghost var t := db.State();
      PaymentPreserves(t, req, now);
      var found := BookingRepository.FindById(db.bookings, req.bookingId);
      if found.None? {
        return Thrown(BookingMissing);
      }
      var booking := found.value;
      if !Payable(booking.status) {
        return Thrown(NotPayable(booking.status));
      }
      // `booking.getCategory().getEvent()` is read after the first two saves; it fails the same way here
      var category := CategoryRepository.FindById(db.categories, booking.categoryId);
      if category.None? {
        return Thrown(NoCategory);
      }
      Settle(booking, req, category.value.eventId, now);
      r := Success(());
    }

    /** The payment row, the PAID status and the CREDIT. */
    method Settle(b: Booking, req: PaymentRequest, concertId: Uuid, now: Timestamp)
      modifies db
      ensures db.State() == PaymentWrites(old(db.State()), b, req, concertId, now)
    {
      db.AppendPayment(Payment(b.id, b.totalAmount, None, req.paymentMethod, req.gatewayTransactionId, now));
      db.SaveBooking(b.(status := Paid));
      db.AppendLedger(LedgerEntry(b.id, Some(concertId), b.totalAmount, Credit, now));
    }
  }
}
