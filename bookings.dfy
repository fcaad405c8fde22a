/**
 * BookingService: intake of queued booking messages, the reservation state machine
 * (confirm, deliver, cancel, partial refund) and the sweep that releases expired holds.
 *
 * Each operation is first given as a function from the tables before to the tables after
 * (and what the caller sees); the class below performs the same steps one repository call
 * at a time and is proved to land on that function's result. An operation that throws
 * inside its transaction leaves every table as it was.
 */
module Bookings {
  import opened Wrappers
  import opened Model
  import opened Errors
  import CategoryRepository
  import BookingRepository
  import Accounting
  import opened Store

  /** What intake did with a message. */
  datatype IntakeOutcome =
    | Duplicate            // the idempotency key was seen before: skipped
    | Rejected             // the conditional decrement matched no row: nothing reserved
    | Created(bookingId: Uuid)
    | InvalidQuantity      // only the corrected intake: the quantity is below one

  /**
   * The authenticated principal as the ownership check sees it: nobody, an ADMIN, or a
   * user whose username resolves to an account id (None when it resolves to no user).
   */
  datatype Caller = Anonymous | Admin | Customer(account: Option<Uuid>)

  /** validateUserAccess: admins see everything, a user only what they own. */
  function ValidateUserAccess(caller: Caller, owner: Uuid): (r: Option<Failure>)
    ensures r.None? <==> caller.Admin? || caller == Customer(Some(owner))
    ensures caller.Anonymous? ==> r == Some(Unhandled(AccessDenied, "User is not authenticated"))
    ensures caller == Customer(None) ==> r == Some(ServiceError(Postgre, UserNotFound))
  {
    match caller
    case Anonymous => Some(Unhandled(AccessDenied, "User is not authenticated"))
    case Admin => None
    case Customer(None) => Some(ServiceError(Postgre, UserNotFound))
    case Customer(Some(u)) => if u == owner then None else Some(ServiceError(Microservice, DataNotFound))
  }

  const NotFound: Failure := ServiceError(Postgre, DataNotFound)
  const Refused: Failure := ServiceError(Microservice, FailedConnectToBackend)
  /** `booking.getCategory().getEvent()` on a booking whose category cannot be loaded. */
  const NoCategory: Failure := Unhandled(NullPointer, "category")

  /** The booking created for a message whose stock was reserved. */
  function NewBooking(id: Uuid, msg: BookingMessage, price: Money, now: Timestamp): (b: Booking)
    ensures b.status == Pending && b.quantity == msg.request.quantity
    ensures b.totalAmount == price * (msg.request.quantity as real)
    ensures b.expiresAt == now + ReservationTtlSeconds && b.idempotencyKey == msg.idempotencyKey
  {
    Booking(id, msg.request.userId, msg.request.categoryId, msg.request.quantity,
      price * (msg.request.quantity as real), Pending, msg.idempotencyKey,
      now + ReservationTtlSeconds, now)
  }

  /** processInternalBooking: dedup on the key, conditional decrement, then booking and DEBIT. */
  function Intake(t: Tables, msg: BookingMessage, now: Timestamp): (r: (Tables, IntakeOutcome))
    ensures r.1 == Duplicate <==> BookingRepository.ExistsByIdempotencyKey(t.bookings, msg.idempotencyKey)
    ensures r.1.Created? ==> CategoryRepository.RowsDecreased(t.categories, msg.request.categoryId, msg.request.quantity) > 0
    ensures !r.1.Created? ==> r.0 == t
  {
    var req := msg.request;
    if BookingRepository.ExistsByIdempotencyKey(t.bookings, msg.idempotencyKey) then (t, Duplicate)
    else if CategoryRepository.RowsDecreased(t.categories, req.categoryId, req.quantity) == 0 then (t, Rejected)
    else
      var cats := CategoryRepository.AfterDecrease(t.categories, req.categoryId, req.quantity);
      // getReferenceById; a missing row would throw on first use and roll the transaction back
      match CategoryRepository.FindById(t.categories, req.categoryId)
      case None => (t, Rejected)
      case Some(category) =>
      var booking := NewBooking(t.nextId, msg, category.price, now);
      var debit := LedgerEntry(booking.id, Some(category.eventId), booking.totalAmount, Debit, now);
      (t.(categories := cats, bookings := t.bookings + [booking], ledger := t.ledger + [debit], nextId := t.nextId + 1),
       Created(booking.id))
  }

  /**
   * Intake as the booking request evidently intends it: a quantity below one is refused
   * before anything is read or written; any other message goes through processInternalBooking.
   */
  function ValidatedIntake(t: Tables, msg: BookingMessage, now: Timestamp): (r: (Tables, IntakeOutcome))
    ensures r.1 == InvalidQuantity <==> msg.request.quantity <= 0
    ensures msg.request.quantity <= 0 ==> r.0 == t
    ensures msg.request.quantity > 0 ==> r == Intake(t, msg, now)
  {
    if msg.request.quantity <= 0 then (t, InvalidQuantity) else Intake(t, msg, now)
  }

  /** confirm: PENDING becomes CONFIRMED; any other status is refused. */
  function Confirmation(t: Tables, id: Uuid): (r: (Tables, Outcome<string>))
    ensures BookingRepository.FindById(t.bookings, id).None? ==> r.1 == Thrown(NotFound)
    ensures r.1.Success? <==>
      BookingRepository.FindById(t.bookings, id).Some? && BookingRepository.FindById(t.bookings, id).value.status == Pending
    ensures !r.1.Success? ==> r.0 == t
    ensures r.1.Success? ==>
      r.0 == t.(bookings := Saved(t.bookings, BookingRepository.FindById(t.bookings, id).value.(status := Confirmed)))
  {
    match BookingRepository.FindById(t.bookings, id)
    case None => (t, Thrown(NotFound))
    case Some(b) =>
      if b.status != Pending then (t, Thrown(Refused))
      else (t.(bookings := Saved(t.bookings, b.(status := Confirmed))), Success("Booking confirmed Successfully"))
  }

  /** deliver: PAID becomes DELIVERED; any other status is refused. */
  function Delivery(t: Tables, id: Uuid): (r: (Tables, Outcome<string>))
    ensures BookingRepository.FindById(t.bookings, id).None? ==> r.1 == Thrown(NotFound)
    ensures r.1.Success? <==>
      BookingRepository.FindById(t.bookings, id).Some? && BookingRepository.FindById(t.bookings, id).value.status == Paid
    ensures !r.1.Success? ==> r.0 == t
    ensures r.1.Success? ==>
      r.0 == t.(bookings := Saved(t.bookings, BookingRepository.FindById(t.bookings, id).value.(status := Delivered)))
  {
    match BookingRepository.FindById(t.bookings, id)
    case None => (t, Thrown(NotFound))
    case Some(b) =>
      if b.status != Paid then (t, Thrown(Refused))
      else (t.(bookings := Saved(t.bookings, b.(status := Delivered))), Success("Booking delivered Successfully"))
  }

  /** The three writes of a cancellation: stock back, status CANCELLED, a CREDIT of the full amount. */
  function CancelWrites(t: Tables, b: Booking, concertId: Uuid, now: Timestamp): Tables {
    CleanupStep(t, b).(ledger := t.ledger + [LedgerEntry(b.id, Some(concertId), b.totalAmount, Credit, now)])
  }

  /** cancel: lookup, ownership, then refused for CANCELLED or DELIVERED, else the three writes. */
  function Cancellation(t: Tables, id: Uuid, caller: Caller, now: Timestamp): (r: (Tables, Outcome<string>))
    ensures BookingRepository.FindById(t.bookings, id).None? ==> r.1 == Thrown(NotFound)
    ensures var found := BookingRepository.FindById(t.bookings, id);
      found.Some? && ValidateUserAccess(caller, found.value.userId).Some? ==>
        r.1 == Thrown(ValidateUserAccess(caller, found.value.userId).value)
    ensures var found := BookingRepository.FindById(t.bookings, id);
      (found.Some? && ValidateUserAccess(caller, found.value.userId).None?
       && (found.value.status == Cancelled || found.value.status == Delivered)) ==> r.1 == Thrown(Refused)
    ensures r.1.Success? <==>
      var found := BookingRepository.FindById(t.bookings, id);
      && found.Some? && ValidateUserAccess(caller, found.value.userId).None?
      && found.value.status != Cancelled && found.value.status != Delivered
      && CategoryRepository.FindById(t.categories, found.value.categoryId).Some?
    ensures r.1.Success? ==>
      var b := BookingRepository.FindById(t.bookings, id).value;
      r.0 == CancelWrites(t, b, CategoryRepository.FindById(t.categories, b.categoryId).value.eventId, now)
    ensures !r.1.Success? ==> r.0 == t
  {
    match BookingRepository.FindById(t.bookings, id)
    case None => (t, Thrown(NotFound))
    case Some(b) =>
      match ValidateUserAccess(caller, b.userId)
      case Some(denied) => (t, Thrown(denied))
      case None =>
        if b.status == Cancelled || b.status == Delivered then (t, Thrown(Refused))
        else
          match CategoryRepository.FindById(t.categories, b.categoryId)
          case None => (t, Thrown(NoCategory))
          case Some(c) =>
            (CancelWrites(t, b, c.eventId, now), Success("Booking cancelled Successfully and inventory updated"))
  }

  /** partialRefund: PAID or DELIVERED only, and no more than the booking's total, per call. */
  function Refund(t: Tables, id: Uuid, amount: Money, now: Timestamp): (r: (Tables, Outcome<string>))
    ensures BookingRepository.FindById(t.bookings, id).None? ==> r.1 == Thrown(NotFound)
    ensures var found := BookingRepository.FindById(t.bookings, id);
      found.Some? && ((found.value.status != Paid && found.value.status != Delivered) || amount > found.value.totalAmount) ==>
        r.1 == Thrown(Refused)
    ensures r.1.Success? <==>
      var found := BookingRepository.FindById(t.bookings, id);
      && found.Some? && (found.value.status == Paid || found.value.status == Delivered) && amount <= found.value.totalAmount
      && CategoryRepository.FindById(t.categories, found.value.categoryId).Some?
    ensures !r.1.Success? ==> r.0 == t
    // one CREDIT of the requested amount, for the booking and its concert; no other table moves
    ensures r.1.Success? ==>
      var b := BookingRepository.FindById(t.bookings, id).value;
      var c := CategoryRepository.FindById(t.categories, b.categoryId).value;
      r.0 == t.(ledger := t.ledger + [LedgerEntry(id, Some(c.eventId), amount, Credit, now)])
  {
    match BookingRepository.FindById(t.bookings, id)
    case None => (t, Thrown(NotFound))
    case Some(b) =>
      if b.status != Paid && b.status != Delivered then (t, Thrown(Refused))
      else if amount > b.totalAmount then (t, Thrown(Refused))
      else
        match CategoryRepository.FindById(t.categories, b.categoryId)
        case None => (t, Thrown(NoCategory))
        case Some(c) =>
          (t.(ledger := t.ledger + [LedgerEntry(b.id, Some(c.eventId), amount, Credit, now)]),
           Success("Partial refund recorded Successfully"))
  }

  /** getById: lookup, then the ownership check. */
  function Details(t: Tables, id: Uuid, caller: Caller): (r: Outcome<Booking>)
    ensures r.Success? <==>
      BookingRepository.FindById(t.bookings, id).Some?
      && ValidateUserAccess(caller, BookingRepository.FindById(t.bookings, id).value.userId).None?
    ensures r.Success? ==> r.value in t.bookings && r.value.id == id
  {
    match BookingRepository.FindById(t.bookings, id)
    case None => Thrown(NotFound)
    case Some(b) =>
      match ValidateUserAccess(caller, b.userId)
      case Some(denied) => Thrown(denied)
      case None => Success(b)
  }

  /** getUserBookings: the ownership check comes first, then the query. */
  function UserBookings(t: Tables, userId: Uuid, caller: Caller): (r: Outcome<seq<Booking>>)
    ensures r.Success? <==> ValidateUserAccess(caller, userId).None?
    ensures r.Success? ==> forall b :: b in r.value <==> b in t.bookings && b.userId == userId
  {
    match ValidateUserAccess(caller, userId)
    case Some(denied) => Thrown(denied)
    case None => Success(BookingRepository.FindByUserId(t.bookings, userId))
  }

  /** The sweep's effect on one booking, and a cancellation's: marked CANCELLED, its quantity returned. */
  function CleanupStep(t: Tables, b: Booking): Tables {
    t.(bookings := Saved(t.bookings, b.(status := Cancelled)),
       categories := CategoryRepository.AfterIncrease(t.categories, b.categoryId, b.quantity))
  }

  /** The sweep's loop over a list of bookings, in list order. */
  function CleanupAll(t: Tables, xs: seq<Booking>): (r: Tables)
    ensures |r.categories| == |t.categories| && |r.bookings| == |t.bookings|
    ensures forall k :: 0 <= k < |r.categories| ==> r.categories[k].id == t.categories[k].id
    ensures forall j :: 0 <= j < |r.bookings| ==> r.bookings[j].id == t.bookings[j].id
    // the sweep writes no ledger entry, no payment and no event
    ensures r == t.(categories := r.categories, bookings := r.bookings)
    decreases |xs|
  {
    if xs == [] then t else CleanupStep(CleanupAll(t, xs[..|xs| - 1]), xs[|xs| - 1])
  }

  /** cleanupExpiredReservations: every booking the expiry query selects goes through one turn. */
  function Sweep(t: Tables, now: Timestamp): (r: Tables)
    ensures |r.categories| == |t.categories| && |r.bookings| == |t.bookings|
  {
    CleanupAll(t, BookingRepository.FindExpiredBookings(t.bookings, now))
  }

  // ---------------------------------------------------------------------------------------
  // Properties of the transitions.

  /** Intake creates a booking exactly when the key is new and the conditional decrement matched a row. */
  lemma IntakeCreatesIff(t: Tables, msg: BookingMessage, now: Timestamp)
    ensures Intake(t, msg, now).1.Created? <==>
      !BookingRepository.ExistsByIdempotencyKey(t.bookings, msg.idempotencyKey)
      && CategoryRepository.RowsDecreased(t.categories, msg.request.categoryId, msg.request.quantity) > 0
  {
    if CategoryRepository.RowsDecreased(t.categories, msg.request.categoryId, msg.request.quantity) > 0 {
      CategoryRepository.DecreasedRowExists(t.categories, msg.request.categoryId, msg.request.quantity);
    }
  }

  /** A successful intake adds exactly one PENDING booking and one DEBIT of its total, for the reserved stock. */
  lemma IntakeCreates(t: Tables, msg: BookingMessage, now: Timestamp, c: TicketCategory)
    requires Intake(t, msg, now).1.Created?
    requires CategoryRepository.FindById(t.categories, msg.request.categoryId) == Some(c)
    ensures Intake(t, msg, now).1 == Created(t.nextId)
    ensures Intake(t, msg, now).0.bookings == t.bookings + [NewBooking(t.nextId, msg, c.price, now)]
    ensures Intake(t, msg, now).0.ledger ==
      t.ledger + [LedgerEntry(t.nextId, Some(c.eventId), NewBooking(t.nextId, msg, c.price, now).totalAmount, Debit, now)]
    ensures Intake(t, msg, now).0 == t.(
      categories := CategoryRepository.AfterDecrease(t.categories, msg.request.categoryId, msg.request.quantity),
      bookings := Intake(t, msg, now).0.bookings, ledger := Intake(t, msg, now).0.ledger, nextId := t.nextId + 1)
  {
  }

  /** A write-back that keeps every row's id, key and category, and no stock turned null, keeps the constraints. */
  lemma WellFormedFrame(t: Tables, t': Tables)
    requires WellFormed(t)
    requires |t'.categories| == |t.categories|
    requires forall k :: 0 <= k < |t.categories| ==> t'.categories[k].id == t.categories[k].id
    requires StockedIds(t'.categories) == StockedIds(t.categories)
    requires |t'.bookings| == |t.bookings|
    requires forall j :: 0 <= j < |t.bookings| ==>
      && t'.bookings[j].id == t.bookings[j].id
      && t'.bookings[j].idempotencyKey == t.bookings[j].idempotencyKey
      && t'.bookings[j].categoryId == t.bookings[j].categoryId
    requires t'.events == t.events && t'.nextId == t.nextId
    ensures WellFormed(t')
  {
  }

  /** A status change from a live status to another live one keeps the constraints and the balance. */
  lemma ConfirmationPreserves(t: Tables, id: Uuid)
    requires WellFormed(t) && Conserved(t)
    ensures WellFormed(Confirmation(t, id).0) && Conserved(Confirmation(t, id).0)
  {
    if Confirmation(t, id).1.Success? {
      StatusChangePreserves(t, BookingRepository.FindById(t.bookings, id).value, Confirmed);
    }
  }

  lemma DeliveryPreserves(t: Tables, id: Uuid)
    requires WellFormed(t) && Conserved(t)
    ensures WellFormed(Delivery(t, id).0) && Conserved(Delivery(t, id).0)
  {
    if Delivery(t, id).1.Success? {
      StatusChangePreserves(t, BookingRepository.FindById(t.bookings, id).value, Delivered);
    }
  }

  /** confirm changes one thing: findById now shows the booking CONFIRMED. Every other booking and table is as it was. */
  lemma ConfirmationEffect(t: Tables, id: Uuid)
    requires Confirmation(t, id).1.Success?
    ensures var b := BookingRepository.FindById(t.bookings, id).value;
      var t' := Confirmation(t, id).0;
      && b.status == Pending
      && BookingRepository.FindById(t'.bookings, id) == Some(b.(status := Confirmed))
      && (forall x :: x != id ==> BookingRepository.FindById(t'.bookings, x) == BookingRepository.FindById(t.bookings, x))
      && |t'.bookings| == |t.bookings|
      && t' == t.(bookings := t'.bookings)
  {
    SavedIsFound(t.bookings, BookingRepository.FindById(t.bookings, id).value.(status := Confirmed));
  }

  /** deliver changes one thing: findById now shows the booking DELIVERED. Every other booking and table is as it was. */
  lemma DeliveryEffect(t: Tables, id: Uuid)
    requires Delivery(t, id).1.Success?
    ensures var b := BookingRepository.FindById(t.bookings, id).value;
      var t' := Delivery(t, id).0;
      && b.status == Paid
      && BookingRepository.FindById(t'.bookings, id) == Some(b.(status := Delivered))
      && (forall x :: x != id ==> BookingRepository.FindById(t'.bookings, x) == BookingRepository.FindById(t.bookings, x))
      && |t'.bookings| == |t.bookings|
      && t' == t.(bookings := t'.bookings)
  {
    SavedIsFound(t.bookings, BookingRepository.FindById(t.bookings, id).value.(status := Delivered));
  }

  /**
   * cancel's three writes, read back through the repositories: the booking is CANCELLED, its
   * category has its quantity back on sale, one CREDIT of its total for its concert ends the
   * ledger, and every other booking, category and table is as it was.
   */
  lemma CancellationEffect(t: Tables, id: Uuid, caller: Caller, now: Timestamp, b: Booking, c: TicketCategory)
    requires WellFormed(t)
    requires Cancellation(t, id, caller, now).1.Success?
    requires BookingRepository.FindById(t.bookings, id) == Some(b)
    requires CategoryRepository.FindById(t.categories, b.categoryId) == Some(c)
    ensures var t' := Cancellation(t, id, caller, now).0;
      && BookingRepository.FindById(t'.bookings, id) == Some(b.(status := Cancelled))
      && (forall x :: x != id ==> BookingRepository.FindById(t'.bookings, x) == BookingRepository.FindById(t.bookings, x))
      && c.availableStock.Some?
      && CategoryRepository.FindById(t'.categories, b.categoryId)
        == Some(c.(availableStock := Some(CategoryRepository.StockOf(c) + b.quantity)))
      && (forall y :: y != b.categoryId ==>
        CategoryRepository.FindById(t'.categories, y) == CategoryRepository.FindById(t.categories, y))
      && t'.ledger == t.ledger + [LedgerEntry(id, Some(c.eventId), b.totalAmount, Credit, now)]
      && t'.payments == t.payments && t'.events == t.events && t'.venues == t.venues && t'.nextId == t.nextId
  {
    var j := BookingRepository.IndexOf(t.bookings, id).value;
    assert b == t.bookings[j] && b.categoryId in StockedIds(t.categories);
    var k := CategoryRepository.IndexOf(t.categories, b.categoryId).value;
    StockedRow(t.categories, b.categoryId, k);
    assert Cancellation(t, id, caller, now).0 == CancelWrites(t, b, c.eventId, now);
    CancelWritesEffect(t, b, c, now);
  }

  /** The three writes of a cancellation, read back through the repositories. */
  lemma CancelWritesEffect(t: Tables, b: Booking, c: TicketCategory, now: Timestamp)
    requires BookingRepository.FindById(t.bookings, b.id) == Some(b)
    requires CategoryRepository.FindById(t.categories, b.categoryId) == Some(c) && c.availableStock.Some?
    ensures var t' := CancelWrites(t, b, c.eventId, now);
      && BookingRepository.FindById(t'.bookings, b.id) == Some(b.(status := Cancelled))
      && (forall x :: x != b.id ==> BookingRepository.FindById(t'.bookings, x) == BookingRepository.FindById(t.bookings, x))
      && CategoryRepository.FindById(t'.categories, b.categoryId)
        == Some(c.(availableStock := Some(CategoryRepository.StockOf(c) + b.quantity)))
      && (forall y :: y != b.categoryId ==>
        CategoryRepository.FindById(t'.categories, y) == CategoryRepository.FindById(t.categories, y))
      && t'.ledger == t.ledger + [LedgerEntry(b.id, Some(c.eventId), b.totalAmount, Credit, now)]
      && t'.payments == t.payments && t'.events == t.events && t'.venues == t.venues && t'.nextId == t.nextId
  {
    CancelledIsFound(t, b);
    RestockedIsFound(t, b, c);
  }

  /** The booking half of the cleanup step, read back. */
  lemma CancelledIsFound(t: Tables, b: Booking)
    requires BookingRepository.FindById(t.bookings, b.id) == Some(b)
    ensures BookingRepository.FindById(CleanupStep(t, b).bookings, b.id) == Some(b.(status := Cancelled))
    ensures forall x :: x != b.id ==>
      BookingRepository.FindById(CleanupStep(t, b).bookings, x) == BookingRepository.FindById(t.bookings, x)
  {
    SavedIsFound(t.bookings, b.(status := Cancelled));
  }

  /** The stock half of the cleanup step, read back. */
  lemma RestockedIsFound(t: Tables, b: Booking, c: TicketCategory)
    requires CategoryRepository.FindById(t.categories, b.categoryId) == Some(c) && c.availableStock.Some?
    ensures CategoryRepository.FindById(CleanupStep(t, b).categories, b.categoryId)
      == Some(c.(availableStock := Some(CategoryRepository.StockOf(c) + b.quantity)))
    ensures forall y :: y != b.categoryId ==>
      CategoryRepository.FindById(CleanupStep(t, b).categories, y) == CategoryRepository.FindById(t.categories, y)
  {
    CategoryRepository.IncreasedIsFound(t.categories, b.categoryId, b.quantity, c);
  }

  /** cancel returns exactly the cancelled booking's seats and never a cancelled booking's twice. */
  lemma CancellationPreserves(t: Tables, id: Uuid, caller: Caller, now: Timestamp)
    requires WellFormed(t) && Conserved(t)
    ensures WellFormed(Cancellation(t, id, caller, now).0) && Conserved(Cancellation(t, id, caller, now).0)
  {
    if Cancellation(t, id, caller, now).1.Success? {
      var b := BookingRepository.FindById(t.bookings, id).value;
      var c := CategoryRepository.FindById(t.categories, b.categoryId).value;
      var credit := LedgerEntry(b.id, Some(c.eventId), b.totalAmount, Credit, now);
      assert Cancellation(t, id, caller, now).0 == CleanupStep(t, b).(ledger := t.ledger + [credit]);
      CancelPreserves(t, b);
      LedgerIrrelevant(CleanupStep(t, b), t.ledger + [credit]);
    }
  }

  /** The constraints and the stock balance do not read the ledger. */
  lemma LedgerIrrelevant(t: Tables, ledger: seq<LedgerEntry>)
    requires WellFormed(t) && Conserved(t)
    ensures WellFormed(t.(ledger := ledger)) && Conserved(t.(ledger := ledger))
  {
  }

  /** Changing the status of a live booking to another live status keeps the constraints and the stock balance. */
  lemma StatusChangePreserves(t: Tables, b: Booking, s: BookingStatus)
    requires WellFormed(t) && Conserved(t)
    requires b in t.bookings && b.status != Cancelled && s != Cancelled
    ensures var t' := t.(bookings := Saved(t.bookings, b.(status := s)));
      WellFormed(t') && Conserved(t')
  {
    var j :| 0 <= j < |t.bookings| && t.bookings[j] == b;
    var b' := b.(status := s);
    SavedAt(t.bookings, j, b');
    var t' := t.(bookings := Saved(t.bookings, b'));
    WellFormedFrame(t, t');
    forall k | 0 <= k < |t.categories|
      ensures Balanced(t.categories[k], t'.bookings)
    {
      Accounting.ReservedUpdate(t.bookings, j, b', t.categories[k].id);
      assert Balanced(t.categories[k], t.bookings);
    }
  }

  /**
   * Cancelling a live booking (by cancel or by the sweep) keeps the constraints and the stock
   * balance: the seats it held go back on sale.
   */
  lemma CancelPreserves(t: Tables, b: Booking)
    requires WellFormed(t) && Conserved(t)
    requires b in t.bookings && b.status != Cancelled
    ensures WellFormed(CleanupStep(t, b)) && Conserved(CleanupStep(t, b))
  {
    CancelKeepsWellFormed(t, b);
    CancelKeepsBalance(t, b);
  }

  /** Cancelling a stored booking changes no id, key or category, and turns no stock null. */
  lemma CancelKeepsWellFormed(t: Tables, b: Booking)
    requires WellFormed(t) && b in t.bookings
    ensures WellFormed(CleanupStep(t, b))
  {
    var j :| 0 <= j < |t.bookings| && t.bookings[j] == b;
    SavedAt(t.bookings, j, b.(status := Cancelled));
    StockedIdsKept(t.categories, b.categoryId, b.quantity);
    WellFormedFrame(t, CleanupStep(t, b));
  }

  /** The seats a live booking held go back to its category's stock when it is cancelled. */
  lemma CancelKeepsBalance(t: Tables, b: Booking)
    requires WellFormed(t) && Conserved(t)
    requires b in t.bookings && b.status != Cancelled
    ensures Conserved(CleanupStep(t, b))
  {
    var j :| 0 <= j < |t.bookings| && t.bookings[j] == b;
    var b' := b.(status := Cancelled);
    SavedAt(t.bookings, j, b');
    var t' := CleanupStep(t, b);
    forall k | 0 <= k < |t.categories|
      ensures Balanced(t'.categories[k], t'.bookings)
    {
      var c := t.categories[k];
      Accounting.ReservedUpdate(t.bookings, j, b', c.id);
      assert Balanced(c, t.bookings);
      if c.id == b.categoryId {
        StockedRow(t.categories, c.id, k);
      }
    }
  }

  /** A reserved hold balances the decrement it came with. */
  lemma ReservationBalances(t: Tables, b: Booking)
    requires CategoryRepository.UniqueIds(t.categories) && Conserved(t)
    requires b.status == Pending
    requires CategoryRepository.RowsDecreased(t.categories, b.categoryId, b.quantity) > 0
    ensures forall k :: 0 <= k < |t.categories| ==>
      Balanced(CategoryRepository.AfterDecrease(t.categories, b.categoryId, b.quantity)[k], t.bookings + [b])
  {
    var cats' := CategoryRepository.AfterDecrease(t.categories, b.categoryId, b.quantity);
    CategoryRepository.DecreasedRowExists(t.categories, b.categoryId, b.quantity);
    var k0 :| 0 <= k0 < |t.categories| && CategoryRepository.CanDecrease(t.categories[k0], b.categoryId, b.quantity);
    forall k | 0 <= k < |t.categories|
      ensures Balanced(cats'[k], t.bookings + [b])
    {
      if t.categories[k].id == b.categoryId {
        assert k == k0;
      }
      RowReservationBalances(t.categories[k], cats'[k], t.bookings, b);
    }
  }

  /** One row of a reservation: the decremented row balances the new hold, any other row is untouched. */
  lemma RowReservationBalances(c: TicketCategory, c': TicketCategory, bs: seq<Booking>, b: Booking)
    requires Balanced(c, bs) && b.status == Pending
    requires c' == c.(availableStock := c'.availableStock) && c'.availableStock.Some? == c.availableStock.Some?
    requires c.id == b.categoryId ==> CategoryRepository.StockOf(c') == CategoryRepository.StockOf(c) - b.quantity
    requires c.id != b.categoryId ==> c' == c
    ensures Balanced(c', bs + [b])
  {
    Accounting.ReservedAppend(bs, b, c.id);
  }

  /** A booking with a fresh id, a new key and a stocked category can be added without breaking a constraint. */
  lemma InsertionKeepsWellFormed(t: Tables, cats: seq<TicketCategory>, b: Booking)
    requires WellFormed(t)
    requires |cats| == |t.categories| && forall k :: 0 <= k < |cats| ==> cats[k].id == t.categories[k].id
    requires StockedIds(cats) == StockedIds(t.categories) && b.categoryId in StockedIds(cats)
    requires b.id == t.nextId
    requires !BookingRepository.ExistsByIdempotencyKey(t.bookings, b.idempotencyKey)
    ensures WellFormed(t.(categories := cats, bookings := t.bookings + [b], nextId := t.nextId + 1))
  {
  }

  /** A new PENDING booking with its seats taken off the stock keeps the constraints and the balance. */
  lemma ReservationPreserves(t: Tables, b: Booking)
    requires WellFormed(t) && Conserved(t)
    requires b.status == Pending && b.id == t.nextId
    requires !BookingRepository.ExistsByIdempotencyKey(t.bookings, b.idempotencyKey)
    requires CategoryRepository.RowsDecreased(t.categories, b.categoryId, b.quantity) > 0
    ensures var held := t.(categories := CategoryRepository.AfterDecrease(t.categories, b.categoryId, b.quantity),
                           bookings := t.bookings + [b], nextId := t.nextId + 1);
      WellFormed(held) && Conserved(held)
  {
    var cats := CategoryRepository.AfterDecrease(t.categories, b.categoryId, b.quantity);
    ReservationBalances(t, b);
    StockedIdsKept(t.categories, b.categoryId, b.quantity);
    CategoryRepository.DecreasedRowExists(t.categories, b.categoryId, b.quantity);
    InsertionKeepsWellFormed(t, cats, b);
  }

  /** Intake keeps the constraints (fresh id, new key) and the stock balance (decrement matched by a hold). */
  lemma IntakePreserves(t: Tables, msg: BookingMessage, now: Timestamp)
    requires WellFormed(t) && Conserved(t)
    ensures WellFormed(Intake(t, msg, now).0) && Conserved(Intake(t, msg, now).0)
  {
    var req := msg.request;
    if Intake(t, msg, now).1.Created? {
      var c := CategoryRepository.FindById(t.categories, req.categoryId).value;
      IntakeCreates(t, msg, now, c);
      var b := NewBooking(t.nextId, msg, c.price, now);
      ReservationPreserves(t, b);
      var held := t.(categories := CategoryRepository.AfterDecrease(t.categories, req.categoryId, req.quantity),
                     bookings := t.bookings + [b], nextId := t.nextId + 1);
      LedgerIrrelevant(held, Intake(t, msg, now).0.ledger);
    }
  }

  /** Redelivering a message changes nothing: processing it twice is processing it once. */
  lemma RedeliveryIsNoOp(t: Tables, msg: BookingMessage, now: Timestamp, later: Timestamp)
    ensures var t1 := Intake(t, msg, now).0;
      Intake(t1, msg, later).0 == t1 && !Intake(t1, msg, later).1.Created?
  {
    var (t1, out) := Intake(t, msg, now);
    if out.Created? {
      var c := CategoryRepository.FindById(t.categories, msg.request.categoryId).value;
      IntakeCreates(t, msg, now, c);
      assert t1.bookings[|t.bookings|].idempotencyKey == msg.idempotencyKey;
    }
  }

  /** The sweep's reference result on the bookings table: exactly the expired ones become CANCELLED. */
  function ExpiredCancelled(bs: seq<Booking>, now: Timestamp): (r: seq<Booking>)
    ensures |r| == |bs|
  {
    seq(|bs|, j requires 0 <= j < |bs| =>
      if BookingRepository.IsExpired(bs[j], now) then bs[j].(status := Cancelled) else bs[j])
  }

  /** The bookings table once every booking listed in `xs` is CANCELLED. */
  function Marked(bs: seq<Booking>, xs: seq<Booking>): (r: seq<Booking>)
    ensures |r| == |bs|
  {
    seq(|bs|, j requires 0 <= j < |bs| => if bs[j] in xs then bs[j].(status := Cancelled) else bs[j])
  }

  /** Only stock changes in the category table. */
  ghost predicate OnlyStockChanged(before: seq<TicketCategory>, after: seq<TicketCategory>) {
    && |after| == |before|
    && forall k :: 0 <= k < |before| ==> after[k] == before[k].(availableStock := after[k].availableStock)
  }

  /** Cancelling one more listed booking, found at position `m`, extends the marking by that booking. */
  lemma MarkOneMore(bs: seq<Booking>, ys: seq<Booking>, x: Booking, m: nat)
    requires BookingRepository.UniqueIds(bs) && m < |bs| && bs[m] == x && x !in ys
    ensures Saved(Marked(bs, ys), x.(status := Cancelled)) == Marked(bs, ys + [x])
  {
    var r := Saved(Marked(bs, ys), x.(status := Cancelled));
    forall j | 0 <= j < |bs|
      ensures r[j] == Marked(bs, ys + [x])[j]
    {
      if bs[j].id == x.id {
        assert j == m;
      } else {
        assert bs[j] != x;
      }
    }
  }

  /**
   * The sweep's loop over distinct live bookings cancels each exactly once, keeps the
   * constraints and the stock balance, and writes nothing but bookings and stock.
   */
  lemma {:induction false} CleanupAllPreserves(t: Tables, xs: seq<Booking>)
    requires WellFormed(t) && Conserved(t)
    requires forall i :: 0 <= i < |xs| ==> xs[i] in t.bookings && xs[i].status != Cancelled
    requires BookingRepository.UniqueIds(xs)
    ensures var t' := CleanupAll(t, xs);
      && WellFormed(t') && Conserved(t')
      && t'.bookings == Marked(t.bookings, xs)
      && OnlyStockChanged(t.categories, t'.categories)
      && t' == t.(categories := t'.categories, bookings := t'.bookings)
    decreases |xs|
  {
    if xs == [] {
      assert Marked(t.bookings, xs) == t.bookings;
    } else {
      var n := |xs| - 1;
      var ys, x := xs[..n], xs[n];
      assert xs == ys + [x];
      CleanupAllPreserves(t, ys);
      var t1 := CleanupAll(t, ys);
      var m :| 0 <= m < |t.bookings| && t.bookings[m] == x;
      forall i | 0 <= i < n
        ensures ys[i] != x
      {
        assert xs[i].id != xs[n].id;
      }
      assert t1.bookings[m] == x;
      CancelPreserves(t1, x);
      MarkOneMore(t.bookings, ys, x, m);
    }
  }

  /**
   * cleanupExpiredReservations cancels exactly the PENDING bookings whose deadline has passed,
   * returns their seats, writes no ledger entry, and keeps the constraints and the stock balance.
   */
  lemma SweepCancelsExactlyExpired(t: Tables, now: Timestamp)
    requires WellFormed(t) && Conserved(t)
    ensures var t' := Sweep(t, now);
      && WellFormed(t') && Conserved(t')
      && t'.bookings == ExpiredCancelled(t.bookings, now)
      && OnlyStockChanged(t.categories, t'.categories)
      && t'.ledger == t.ledger && t'.payments == t.payments
      && t'.events == t.events && t'.venues == t.venues && t'.nextId == t.nextId
  {
    var xs := BookingRepository.FindExpiredBookings(t.bookings, now);
    BookingRepository.ExpiredHaveDistinctIds(t.bookings, now);
    CleanupAllPreserves(t, xs);
    forall j | 0 <= j < |t.bookings|
      ensures Marked(t.bookings, xs)[j] == ExpiredCancelled(t.bookings, now)[j]
    {
      assert t.bookings[j] in xs <==> BookingRepository.IsExpired(t.bookings[j], now);
    }
  }

  /** In a balanced store, what the sweep puts back on sale is exactly what the cancelled holds released. */
  lemma SweepReturnsReleasedSeats(t: Tables, now: Timestamp, k: nat)
    requires WellFormed(t) && Conserved(t) && k < |t.categories|
    ensures var t' := Sweep(t, now);
      var id := t.categories[k].id;
      CategoryRepository.StockOf(t'.categories[k]) - CategoryRepository.StockOf(t.categories[k])
        == Accounting.Reserved(t.bookings, id) - Accounting.Reserved(t'.bookings, id)
  {
    SweepCancelsExactlyExpired(t, now);
    var t' := Sweep(t, now);
    assert Balanced(t.categories[k], t.bookings);
    assert Balanced(t'.categories[k], t'.bookings);
  }

  /**
   * The service. Each method performs the service's repository calls in order and ends in the
   * state its function above describes; the database's constraints and stock conservation
   * hold before and after.
   */
  class BookingService {
    const db: Database

    constructor (db: Database)
      ensures this.db == db
    {
      this.db := db;
    }

    method ProcessInternalBooking(msg: BookingMessage, now: Timestamp) returns (outcome: IntakeOutcome)
      requires db.Valid()
      modifies db
      ensures db.Valid()
      ensures (db.State(), outcome) == Intake(old(db.State()), msg, now)
    {
      ghost var t := db.State();
      IntakePreserves(t, msg, now);
      if BookingRepository.ExistsByIdempotencyKey(db.bookings, msg.idempotencyKey) {
        return Duplicate;
      }
      outcome := Reserve(msg, now);
    }

    /** The corrected intake: the quantity check, then processInternalBooking. */
    method ProcessValidatedBooking(msg: BookingMessage, now: Timestamp) returns (outcome: IntakeOutcome)
      requires db.Valid()
      modifies db
      ensures db.Valid()
      ensures (db.State(), outcome) == ValidatedIntake(old(db.State()), msg, now)
    {
      if msg.request.quantity <= 0 {
        return InvalidQuantity;
      }
      outcome := ProcessInternalBooking(msg, now);
    }

    /** processInternalBooking past the idempotency check: the conditional decrement and its writes. */
    method Reserve(msg: BookingMessage, now: Timestamp) returns (outcome: IntakeOutcome)
      requires !BookingRepository.ExistsByIdempotencyKey(db.bookings, msg.idempotencyKey)
      modifies db
      ensures (db.State(), outcome) == Intake(old(db.State()), msg, now)
    {
      ghost var t := db.State();
      var req := msg.request;
      // the row getReferenceById loads after the decrement: same price, same event
      var category := CategoryRepository.FindById(db.categories, req.categoryId);
      var updated := db.DecreaseStock(req.categoryId, req.quantity);
      if updated > 0 {
        CategoryRepository.DecreasedRowExists(t.categories, req.categoryId, req.quantity);
        var c := category.value;
        var id := Record(msg, c, now);
        outcome := Created(id);
        IntakeCreates(t, msg, now, c);
      } else {
        outcome := Rejected;
        CategoryRepository.NothingDecreased(t.categories, req.categoryId, req.quantity);
      }
    }

    /** The booking row and its DEBIT, under a fresh id. */
    method Record(msg: BookingMessage, c: TicketCategory, now: Timestamp) returns (id: Uuid)
      modifies db
      ensures id == old(db.nextId)
      ensures db.State() == old(db.State()).(
        bookings := old(db.bookings) + [NewBooking(id, msg, c.price, now)],
        ledger := old(db.ledger) + [LedgerEntry(id, Some(c.eventId), NewBooking(id, msg, c.price, now).totalAmount, Debit, now)],
        nextId := id + 1)
    {
      id := db.FreshId();
      var booking := NewBooking(id, msg, c.price, now);
      db.InsertBooking(booking);
      db.AppendLedger(LedgerEntry(id, Some(c.eventId), booking.totalAmount, Debit, now));
    }

    method Confirm(id: Uuid) returns (r: Outcome<string>)
      requires db.Valid()
      modifies db
      ensures db.Valid()
      ensures (db.State(), r) == Confirmation(old(db.State()), id)
    {
      ghost var t := db.State();
      assert WellFormed(t) && Conserved(t);
      var found := BookingRepository.FindById(db.bookings, id);
      if found.None? {
        return Thrown(NotFound);
      }
      var booking := found.value;
      if booking.status != Pending {
        return Thrown(Refused);
      }
      db.SaveBooking(booking.(status := Confirmed));
      r := Success("Booking confirmed Successfully");
      ConfirmationPreserves(t, id);
    }

    method Deliver(id: Uuid) returns (r: Outcome<string>)
      requires db.Valid()
      modifies db
      ensures db.Valid()
      ensures (db.State(), r) == Delivery(old(db.State()), id)
    {
      ghost var t := db.State();
      assert WellFormed(t) && Conserved(t);
      var found := BookingRepository.FindById(db.bookings, id);
      if found.None? {
        return Thrown(NotFound);
      }
      var booking := found.value;
      if booking.status != Paid {
        return Thrown(Refused);
      }
      db.SaveBooking(booking.(status := Delivered));
      r := Success("Booking delivered Successfully");
      DeliveryPreserves(t, id);
    }

    method Cancel(id: Uuid, caller: Caller, now: Timestamp) returns (r: Outcome<string>)
      requires db.Valid()
      modifies db
      ensures db.Valid()
      ensures (db.State(), r) == Cancellation(old(db.State()), id, caller, now)
    {
      ghost var t := db.State();
      assert WellFormed(t) && Conserved(t);
      var found := BookingRepository.FindById(db.bookings, id);
      if found.None? {
        return Thrown(NotFound);
      }
      var booking := found.value;
      var denied := ValidateUserAccess(caller, booking.userId);
      if denied.Some? {
        return Thrown(denied.value);
      }
      if booking.status == Cancelled || booking.status == Delivered {
        return Thrown(Refused);
      }
      var category := CategoryRepository.FindById(db.categories, booking.categoryId);
      if category.None? {
        return Thrown(NoCategory);
      }
      CancellationPreserves(t, id, caller, now);
      WriteCancellation(booking, category.value.eventId, now);
      r := Success("Booking cancelled Successfully and inventory updated");
    }

    /** The three writes of cancel: the seats back, the status, the CREDIT entry. */
    method WriteCancellation(b: Booking, concertId: Uuid, now: Timestamp)
      modifies db
      ensures db.State() == CancelWrites(old(db.State()), b, concertId, now)
    {
      Release(b);
      db.AppendLedger(LedgerEntry(b.id, Some(concertId), b.totalAmount, Credit, now));
    }

    method PartialRefund(id: Uuid, amount: Money, now: Timestamp) returns (r: Outcome<string>)
      requires db.Valid()
      modifies db
      ensures db.Valid()
      ensures (db.State(), r) == Refund(old(db.State()), id, amount, now)
    {
      var found := BookingRepository.FindById(db.bookings, id);
      if found.None? {
        return Thrown(NotFound);
      }
      var booking := found.value;
      if booking.status != Paid && booking.status != Delivered {
        return Thrown(Refused);
      }
      if amount > booking.totalAmount {
        return Thrown(Refused);
      }
      var category := CategoryRepository.FindById(db.categories, booking.categoryId);
      if category.None? {
        return Thrown(NoCategory);
      }
      db.AppendLedger(LedgerEntry(booking.id, Some(category.value.eventId), amount, Credit, now));
      r := Success("Partial refund recorded Successfully");
    }

    /** The two writes shared by cancel and the sweep: the seats go back, the booking is CANCELLED. */
    method Release(b: Booking)
      modifies db
      ensures db.State() == CleanupStep(old(db.State()), b)
    {
      db.IncreaseStock(b.categoryId, b.quantity);
      db.SaveBooking(b.(status := Cancelled));
    }

    /** The sweep's loop: one release per booking, in list order. */
    method ReleaseAll(xs: seq<Booking>)
      modifies db
      ensures db.State() == CleanupAll(old(db.State()), xs)
    {
      ghost var t := db.State();
      var i := 0;
      while i < |xs|
        invariant 0 <= i <= |xs|
        invariant db.State() == CleanupAll(t, xs[..i])
      {
        Release(xs[i]);
        assert xs[..i + 1][..i] == xs[..i];
        i := i + 1;
      }
      assert xs[..i] == xs;
    }

    method CleanupExpiredReservations(now: Timestamp)
      requires db.Valid()
      modifies db
      ensures db.Valid()
      ensures db.State() == Sweep(old(db.State()), now)
    {
      ghost var t := db.State();
      var expired := BookingRepository.FindExpiredBookings(db.bookings, now);
      SweepCancelsExactlyExpired(t, now);
      if |expired| == 0 {
        return;
      }
      ReleaseAll(expired);
    }
  }
}
