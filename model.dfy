/**
 * The persistent entities of the booking core (the JPA models) and the messages that
 * drive it. Identifiers are natural numbers handed out by the database; money is an exact
 * decimal (BigDecimal) and so a `real`; instants are whole seconds.
 */
module Model {
  import opened Wrappers

  type Uuid = nat
  type Money = real
  type Timestamp = int

  /** How long a PENDING booking holds its stock: five minutes. */
  const ReservationTtlSeconds: int := 5 * 60

  /** The status column of a booking. */
  datatype BookingStatus = Pending | Confirmed | Paid | Delivered | Cancelled {
    /** The text stored in the column (the constant's `name()`). */
    function Name(): string {
      match this
      case Pending => "PENDING"
      case Confirmed => "CONFIRMED"
      case Paid => "PAID"
      case Delivered => "DELIVERED"
      case Cancelled => "CANCELLED"
    }
  }

  /** A row of ticket_categories; the two Integer columns are nullable. */
  datatype TicketCategory = TicketCategory(
    id: Uuid,
    eventId: Uuid,
    name: Option<string>,
    price: Money,
    totalAllocation: Option<int>,
    availableStock: Option<int>)

  /** A row of bookings. */
  datatype Booking = Booking(
    id: Uuid,
    userId: Uuid,
    categoryId: Uuid,
    quantity: int,
    totalAmount: Money,
    status: BookingStatus,
    idempotencyKey: string,
    expiresAt: Timestamp,
    createdAt: Timestamp)

  /** The type column of a ledger entry: the core writes only DEBIT and CREDIT. */
  datatype EntryType = Debit | Credit | OtherType(name: string) {
    /** The text stored in the type column. */
    function Name(): string {
      match this
      case Debit => "DEBIT"
      case Credit => "CREDIT"
      case OtherType(n) => n
    }
  }

  /** A row of ledger_entries; concert_id is nullable. */
  datatype LedgerEntry = LedgerEntry(
    bookingId: Uuid,
    concertId: Option<Uuid>,
    amount: Money,
    kind: EntryType,
    recordedAt: Timestamp)

  /** A row of payments. */
  datatype Payment = Payment(
    bookingId: Uuid,
    amount: Money,
    currency: Option<string>,
    paymentMethod: string,
    gatewayTransactionId: string,
    paidAt: Timestamp)

  /** A row of events (a concert). */
  datatype Event = Event(
    id: Uuid,
    name: Option<string>,
    artist: Option<string>,
    venueId: Option<Uuid>,
    eventDate: Timestamp,
    timezone: Option<string>,
    status: Option<string>,
    description: Option<string>)

  /** A row of venues. */
  datatype Venue = Venue(id: Uuid, name: Option<string>, address: Option<string>, capacity: Option<int>)

  /** The body of a booking request as the intake queue carries it. */
  datatype BookingRequest = BookingRequest(userId: Uuid, eventId: Uuid, categoryId: Uuid, quantity: int)

  /** A queued booking: the request plus the caller's idempotency key. */
  datatype BookingMessage = BookingMessage(request: BookingRequest, idempotencyKey: string)

  /** A successful payment reported by the gateway. */
  datatype PaymentRequest = PaymentRequest(
    bookingId: Uuid,
    paymentMethod: string,
    gatewayTransactionId: string,
    amount: Money,
    currency: Option<string>)
}
