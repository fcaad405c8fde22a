/**
 * The store under any sequence of the core's operations. Every operation, as written, keeps
 * the database's constraints and stock conservation (what is on sale plus what live bookings
 * hold equals the allocation). Conservation alone does not stop overselling: intake never
 * checks the quantity, and a negative quantity raises the stock. With the quantity check
 * added, no stock goes below zero and no category has more seats held than allocated.
 */
module Invariants {
  import opened Wrappers
  import Sequences
  import opened Model
  import opened Errors
  import CategoryRepository
  import BookingRepository
  import Accounting
  import opened Store
  import opened Bookings
  import opened Payments

  /** One call into the core. */
  datatype Command =
    | Ingest(msg: BookingMessage)
    | ConfirmBooking(id: Uuid)
    | DeliverBooking(id: Uuid)
    | CancelBooking(id: Uuid, caller: Caller)
    | RefundBooking(id: Uuid, amount: Money)
    | PayBooking(req: PaymentRequest)
    | SweepExpired

  /** One call at one instant. */
  datatype Step = Step(command: Command, at: Timestamp)

  /** The store after one call; `validated` selects the corrected intake. */
  function Apply(t: Tables, s: Step, validated: bool): Tables {
    match s.command
    case Ingest(msg) => if validated then ValidatedIntake(t, msg, s.at).0 else Intake(t, msg, s.at).0
    case ConfirmBooking(id) => Confirmation(t, id).0
    case DeliverBooking(id) => Delivery(t, id).0
    case CancelBooking(id, caller) => Cancellation(t, id, caller, s.at).0
    case RefundBooking(id, amount) => Refund(t, id, amount, s.at).0
    case PayBooking(req) => Pay(t, req, s.at).0
    case SweepExpired => Sweep(t, s.at)
  }

  /** The store after a sequence of calls, in order. */
  function Run(t: Tables, steps: seq<Step>, validated: bool): Tables
    decreases |steps|
  {
    if steps == [] then t else Run(Apply(t, steps[0], validated), steps[1..], validated)
  }

  /** An intake, plain or corrected, keeps the constraints and conservation. */
  lemma IngestStepPreserves(t: Tables, s: Step, validated: bool)
    requires WellFormed(t) && Conserved(t) && s.command.Ingest?
    ensures WellFormed(Apply(t, s, validated)) && Conserved(Apply(t, s, validated))
  {
    var msg := s.command.msg;
    if validated && msg.request.quantity <= 0 {
      assert Apply(t, s, validated) == t;
    } else {
      assert Apply(t, s, validated) == Intake(t, msg, s.at).0;
      IntakePreserves(t, msg, s.at);
    }
  }

  /** A cancel keeps the constraints and conservation. */
  lemma CancelStepPreserves(t: Tables, s: Step, validated: bool)
    requires WellFormed(t) && Conserved(t) && s.command.CancelBooking?
    ensures WellFormed(Apply(t, s, validated)) && Conserved(Apply(t, s, validated))
  {
    assert Apply(t, s, validated) == Cancellation(t, s.command.id, s.command.caller, s.at).0;
    CancellationPreserves(t, s.command.id, s.command.caller, s.at);
  }

  /** A payment keeps the constraints and conservation. */
  lemma PayStepPreserves(t: Tables, s: Step, validated: bool)
    requires WellFormed(t) && Conserved(t) && s.command.PayBooking?
    ensures WellFormed(Apply(t, s, validated)) && Conserved(Apply(t, s, validated))
  {
    assert Apply(t, s, validated) == Pay(t, s.command.req, s.at).0;
    PaymentPreserves(t, s.command.req, s.at);
  }

  /** A status change, a refund or a sweep keeps the constraints and conservation. */
  lemma OtherStepPreserves(t: Tables, s: Step, validated: bool)
    requires WellFormed(t) && Conserved(t)
    requires s.command.ConfirmBooking? || s.command.DeliverBooking? || s.command.RefundBooking? || s.command.SweepExpired?
    ensures WellFormed(Apply(t, s, validated)) && Conserved(Apply(t, s, validated))
  {
    match s.command
    case ConfirmBooking(id) =>
      assert Apply(t, s, validated) == Confirmation(t, id).0;
      ConfirmationPreserves(t, id);
    case DeliverBooking(id) =>
      assert Apply(t, s, validated) == Delivery(t, id).0;
      DeliveryPreserves(t, id);
    case RefundBooking(id, amount) =>
      assert Apply(t, s, validated) == Refund(t, id, amount, s.at).0;
    case SweepExpired =>
      assert Apply(t, s, validated) == Sweep(t, s.at);
      SweepCancelsExactlyExpired(t, s.at);
  }

  /** Every operation keeps the constraints and stock conservation. */
  lemma ApplyPreserves(t: Tables, s: Step, validated: bool)
    requires WellFormed(t) && Conserved(t)
    ensures WellFormed(Apply(t, s, validated)) && Conserved(Apply(t, s, validated))
  {
    if s.command.Ingest? {
      IngestStepPreserves(t, s, validated);
    } else if s.command.CancelBooking? {
      CancelStepPreserves(t, s, validated);
    } else if s.command.PayBooking? {
      PayStepPreserves(t, s, validated);
    } else {
      OtherStepPreserves(t, s, validated);
    }
  }

  /** ... and so does every sequence of them. */
  lemma {:induction false} RunPreserves(t: Tables, steps: seq<Step>, validated: bool)
    requires WellFormed(t) && Conserved(t)
    ensures WellFormed(Run(t, steps, validated)) && Conserved(Run(t, steps, validated))
    decreases |steps|
  {
    if steps != [] {
      ApplyPreserves(t, steps[0], validated);
      RunPreserves(Apply(t, steps[0], validated), steps[1..], validated);
    }
  }

  // ---------------------------------------------------------------------------------------
  // Overselling.

  /** Every booking row holds a positive quantity. */
  ghost predicate PositiveQuantities(bs: seq<Booking>) {
    forall j :: 0 <= j < |bs| ==> bs[j].quantity > 0
  }

  /** No category shows negative stock. */
  ghost predicate StockNonNegative(cats: seq<TicketCategory>) {
    forall k :: 0 <= k < |cats| ==> CategoryRepository.StockOf(cats[k]) >= 0
  }

  /** Writing back a stored booking with a new status keeps every quantity positive. */
  lemma SavedKeepsQuantities(bs: seq<Booking>, b: Booking, s: BookingStatus)
    requires PositiveQuantities(bs) && b in bs
    ensures PositiveQuantities(Saved(bs, b.(status := s)))
  {
  }

  /** Returning a positive quantity never makes a stock negative. */
  lemma IncreaseKeepsStock(cats: seq<TicketCategory>, id: Uuid, qty: int)
    requires StockNonNegative(cats) && qty > 0
    ensures StockNonNegative(CategoryRepository.AfterIncrease(cats, id, qty))
  {
    var r := CategoryRepository.AfterIncrease(cats, id, qty);
    forall k | 0 <= k < |cats|
      ensures CategoryRepository.StockOf(r[k]) >= 0
    {
      assert CategoryRepository.StockOf(cats[k]) >= 0;
    }
  }

  /** The sweep's loop over stored bookings keeps both halves of NoOversell. */
  lemma {:induction false} CleanupAllKeepsNoOversell(t: Tables, xs: seq<Booking>)
    requires NoOversell(t)
    requires forall i :: 0 <= i < |xs| ==> xs[i] in t.bookings
    ensures NoOversell(CleanupAll(t, xs))
    decreases |xs|
  {
    if xs != [] {
      var n := |xs| - 1;
      var init := CleanupAll(t, xs[..n]);
      forall i | 0 <= i < n
        ensures xs[..n][i] in t.bookings
      {
        assert xs[..n][i] == xs[i];
      }
      CleanupAllKeepsNoOversell(t, xs[..n]);
      var x := xs[n];
      assert x.quantity > 0;
      IncreaseKeepsStock(init.categories, x.categoryId, x.quantity);
      forall j | 0 <= j < |init.bookings|
        ensures Saved(init.bookings, x.(status := Cancelled))[j].quantity > 0
      {
        assert init.bookings[j].quantity > 0;
      }
    }
  }

  /** The corrected intake never oversells: a decremented row stays non-negative and the new hold is positive. */
  lemma ValidatedIntakeKeepsNoOversell(t: Tables, msg: BookingMessage, now: Timestamp)
    requires NoOversell(t)
    ensures NoOversell(ValidatedIntake(t, msg, now).0)
  {
    var req := msg.request;
    if ValidatedIntake(t, msg, now).1.Created? {
      var c := CategoryRepository.FindById(t.categories, req.categoryId).value;
      IntakeCreates(t, msg, now, c);
      var cats := CategoryRepository.AfterDecrease(t.categories, req.categoryId, req.quantity);
      forall k | 0 <= k < |cats|
        ensures CategoryRepository.StockOf(cats[k]) >= 0
      {
        assert CategoryRepository.StockOf(t.categories[k]) >= 0;
      }
    }
  }

  /** A cancel keeps NoOversell: it returns a positive quantity to the stock. */
  lemma CancelStepKeepsNoOversell(t: Tables, s: Step)
    requires NoOversell(t) && s.command.CancelBooking?
    ensures NoOversell(Apply(t, s, true))
  {
    var id, caller := s.command.id, s.command.caller;
    assert Apply(t, s, true) == Cancellation(t, id, caller, s.at).0;
    CancellationKeepsNoOversell(t, id, caller, s.at);
  }

  /** The state cancel leaves behind has no negative stock and no non-positive hold. */
  lemma CancellationKeepsNoOversell(t: Tables, id: Uuid, caller: Caller, now: Timestamp)
    requires NoOversell(t)
    ensures NoOversell(Cancellation(t, id, caller, now).0)
  {
    if Cancellation(t, id, caller, now).1.Success? {
      var b := BookingRepository.FindById(t.bookings, id).value;
      var c := CategoryRepository.FindById(t.categories, b.categoryId).value;
      assert Cancellation(t, id, caller, now).0 == CancelWrites(t, b, c.eventId, now);
      CancelWritesKeepNoOversell(t, b, c.eventId, now);
    }
  }

  /** The three writes of a cancellation keep NoOversell: the stock only grows. */
  lemma CancelWritesKeepNoOversell(t: Tables, b: Booking, concertId: Uuid, now: Timestamp)
    requires NoOversell(t) && b in t.bookings
    ensures NoOversell(CancelWrites(t, b, concertId, now))
  {
    assert CleanupAll(t, [b]) == CleanupStep(t, b) by {
      assert [b][..0] == [];
    }
    CleanupAllKeepsNoOversell(t, [b]);
  }

  /** A status change, a payment or a refund keeps NoOversell: no quantity and no stock moves. */
  lemma StatusStepKeepsNoOversell(t: Tables, s: Step)
    requires NoOversell(t)
    requires s.command.ConfirmBooking? || s.command.DeliverBooking? || s.command.RefundBooking? || s.command.PayBooking?
    ensures NoOversell(Apply(t, s, true))
  {
    match s.command
    case ConfirmBooking(id) =>
      assert Apply(t, s, true) == Confirmation(t, id).0;
      if Confirmation(t, id).1.Success? {
        SavedKeepsQuantities(t.bookings, BookingRepository.FindById(t.bookings, id).value, Confirmed);
      }
    case DeliverBooking(id) =>
      assert Apply(t, s, true) == Delivery(t, id).0;
      if Delivery(t, id).1.Success? {
        SavedKeepsQuantities(t.bookings, BookingRepository.FindById(t.bookings, id).value, Delivered);
      }
    case RefundBooking(id, amount) =>
      assert Apply(t, s, true) == Refund(t, id, amount, s.at).0;
    case PayBooking(req) =>
      assert Apply(t, s, true) == Pay(t, req, s.at).0;
      if Pay(t, req, s.at).1.Success? {
        SavedKeepsQuantities(t.bookings, BookingRepository.FindById(t.bookings, req.bookingId).value, Paid);
      }
  }

  /** With the corrected intake, every operation keeps NoOversell. */
  lemma ApplyKeepsNoOversell(t: Tables, s: Step)
    requires NoOversell(t)
    ensures NoOversell(Apply(t, s, true))
  {
    match s.command
    case Ingest(msg) =>
      assert Apply(t, s, true) == ValidatedIntake(t, msg, s.at).0;
      ValidatedIntakeKeepsNoOversell(t, msg, s.at);
    case CancelBooking(_, _) =>
      CancelStepKeepsNoOversell(t, s);
    case SweepExpired =>
      assert Apply(t, s, true) == Sweep(t, s.at);
      CleanupAllKeepsNoOversell(t, BookingRepository.FindExpiredBookings(t.bookings, s.at));
    case _ =>
      StatusStepKeepsNoOversell(t, s);
  }

  /**
   * With the corrected intake, no sequence of calls oversells: every stock stays at or above
   * zero and every category's held seats stay within its allocation.
   */
  lemma {:induction false} ValidatedRunNeverOversells(t: Tables, steps: seq<Step>)
    requires WellFormed(t) && Conserved(t) && NoOversell(t)
    ensures var t' := Run(t, steps, true);
      && NoOversell(t')
      && forall k :: 0 <= k < |t'.categories| ==>
        0 <= Accounting.Reserved(t'.bookings, t'.categories[k].id) <= CategoryRepository.AllocationOf(t'.categories[k])
    decreases |steps|
  {
    if steps == [] {
      forall k | 0 <= k < |t.categories|
        ensures 0 <= Accounting.Reserved(t.bookings, t.categories[k].id) <= CategoryRepository.AllocationOf(t.categories[k])
      {
        HeldWithinAllocation(t, k);
      }
    } else {
      ApplyPreserves(t, steps[0], true);
      ApplyKeepsNoOversell(t, steps[0]);
      ValidatedRunNeverOversells(Apply(t, steps[0], true), steps[1..]);
    }
  }

  // ---------------------------------------------------------------------------------------
  // The oversell as written.

  /** Category 0 of concert 1: five seats at 100.00, `stock` of them on sale. */
  function FiveSeatCategory(stock: int): TicketCategory {
    TicketCategory(0, 1, Some("GA"), 100.0, Some(5), Some(stock))
  }

  /** The category with all five seats on sale and nothing booked. */
  function FiveSeats(): Tables {
    Tables([FiveSeatCategory(5)], [], [], [], [], [], 2)
  }

  /** A message from user 7 for `qty` seats of category 0. */
  function Order(qty: int, key: string): BookingMessage {
    BookingMessage(BookingRequest(7, 1, 0, qty), key)
  }

  /** Intake of an order that the conditional decrement admits, on a one-category store. */
  lemma OrderAdmitted(t: Tables, stock: int, qty: int, key: string)
    requires t.categories == [FiveSeatCategory(stock)] && stock >= qty
    requires forall j :: 0 <= j < |t.bookings| ==> t.bookings[j].idempotencyKey != key
    ensures Intake(t, Order(qty, key), 0).1 == Created(t.nextId)
    ensures Intake(t, Order(qty, key), 0).0.categories == [FiveSeatCategory(stock - qty)]
    ensures Intake(t, Order(qty, key), 0).0.bookings == t.bookings + [NewBooking(t.nextId, Order(qty, key), 100.0, 0)]
    ensures Intake(t, Order(qty, key), 0).0.nextId == t.nextId + 1
  {
    assert CategoryRepository.CanDecrease(t.categories[0], 0, qty);
    CategoryRepository.DecreaseReportsOneRow(t.categories, 0, qty);
    IntakeCreates(t, Order(qty, key), 0, t.categories[0]);
  }

  /** An administrator's cancel of the first of two bookings on a one-category store. */
  lemma FirstCancelled(t: Tables, stock: int)
    requires t.categories == [FiveSeatCategory(stock)]
    requires |t.bookings| == 2 && t.bookings[0].id == 2 && t.bookings[1].id == 3
    requires t.bookings[0].status == Pending && t.bookings[0].categoryId == 0
    ensures Cancellation(t, 2, Admin, 0).1.Success?
    ensures Cancellation(t, 2, Admin, 0).0.categories == [FiveSeatCategory(stock + t.bookings[0].quantity)]
  {
    Sequences.IndexByUnique(t.bookings, BookingRepository.RowId, 2, 0);
  }

  /** The starting store satisfies every invariant. */
  lemma FiveSeatsSound()
    ensures WellFormed(FiveSeats()) && Conserved(FiveSeats()) && NoOversell(FiveSeats())
  {
    assert Accounting.Reserved([], 0) == 0;
  }

  /**
   * As written: an order for -5 seats raises the stock to 10, an order for 10 seats is then
   * accepted although the category has 5, and cancelling the first order leaves the stock at -5.
   */
  lemma NegativeQuantityOversells(t0: Tables)
    requires t0 == FiveSeats()
    ensures var t1 := Intake(t0, Order(-5, "a"), 0);
      var t2 := Intake(t1.0, Order(10, "b"), 0);
      var t3 := Cancellation(t2.0, 2, Admin, 0);
      && t1.1 == Created(2) && t2.1 == Created(3) && t3.1.Success?
      && |t2.0.bookings| == 2 && t2.0.bookings[1].quantity == 10 && t2.0.bookings[1].status == Pending
      && |t2.0.categories| == 1 && CategoryRepository.AllocationOf(t2.0.categories[0]) == 5
      && |t3.0.categories| == 1 && CategoryRepository.StockOf(t3.0.categories[0]) == -5
      && !NoOversell(t3.0)
  {
    TwoOrdersAdmitted(t0);
    FirstCancelled(Intake(Intake(t0, Order(-5, "a"), 0).0, Order(10, "b"), 0).0, 0);
  }

  /** The -5 order and then the 10-seat order are both admitted, leaving the stock at 0. */
  lemma TwoOrdersAdmitted(t0: Tables)
    requires t0 == FiveSeats()
    ensures var t1 := Intake(t0, Order(-5, "a"), 0);
      var t2 := Intake(t1.0, Order(10, "b"), 0);
      && t1.1 == Created(2) && t2.1 == Created(3)
      && t2.0.categories == [FiveSeatCategory(0)]
      && |t2.0.bookings| == 2 && t2.0.bookings[0].id == 2 && t2.0.bookings[1].id == 3
      && t2.0.bookings[0].status == Pending && t2.0.bookings[0].categoryId == 0 && t2.0.bookings[0].quantity == -5
      && t2.0.bookings[1].status == Pending && t2.0.bookings[1].quantity == 10
  {
    OrderAdmitted(t0, 5, -5, "a");
    var t1 := Intake(t0, Order(-5, "a"), 0).0;
    assert t1.bookings[0].quantity == -5;
    OrderAdmitted(t1, 10, 10, "b");
    var t2 := Intake(t1, Order(10, "b"), 0).0;
    assert t2.bookings[0] == t1.bookings[0];
  }
}
