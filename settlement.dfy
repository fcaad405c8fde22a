/**
 * SettlementService: the per-concert report over the ledger. The entries of one concert are
 * folded once, in repository order: DEBITs add to revenue, CREDITs to refunds, and an entry of
 * any other type is only counted as a transaction.
 */
module Settlement {
  import opened Wrappers
  import opened Model
  import Sequences
  import CategoryRepository
  import BookingRepository
  import opened Store
  import opened Bookings
  import opened Payments

  /** LedgerRepository.findByConcertId: the entries tagged with the concert, in table order. */
  function ForConcert(ledger: seq<LedgerEntry>, concertId: Uuid): (r: seq<LedgerEntry>)
    ensures forall e :: e in r <==> e in ledger && e.concertId == Some(concertId)
  {
    Sequences.Filter(ledger, (e: LedgerEntry) => e.concertId == Some(concertId))
  }

  /** What one entry adds to the sum of the entries whose type column reads `kind`. */
  function Gain(e: LedgerEntry, kind: string): Money {
    if e.kind.Name() == kind then e.amount else 0.0
  }

  /** What one entry adds to the number of entries whose type column reads `kind`. */
  function Hit(e: LedgerEntry, kind: string): nat {
    if e.kind.Name() == kind then 1 else 0
  }

  /** The sum of the amounts of the entries whose type column reads `kind`. */
  function Total(es: seq<LedgerEntry>, kind: string): Money
    decreases |es|
  {
    if es == [] then 0.0 else Total(es[..|es| - 1], kind) + Gain(es[|es| - 1], kind)
  }

  /** The number of entries whose type column reads `kind`. */
  function Tally(es: seq<LedgerEntry>, kind: string): nat
    decreases |es|
  {
    if es == [] then 0 else Tally(es[..|es| - 1], kind) + Hit(es[|es| - 1], kind)
  }

  /** Sums and counts over a prefix grow by the next entry. */
  lemma Fold(es: seq<LedgerEntry>, i: nat, kind: string)
    requires i < |es|
    ensures Total(es[..i + 1], kind) == Total(es[..i], kind) + Gain(es[i], kind)
    ensures Tally(es[..i + 1], kind) == Tally(es[..i], kind) + Hit(es[i], kind)
  {
    assert es[..i + 1][..i] == es[..i];
  }

  /** One element of the report's transactions list. */
  datatype Transaction = Transaction(bookingId: Uuid, amount: Money, kind: string, recordedAt: Timestamp)

  function View(e: LedgerEntry): Transaction {
    Transaction(e.bookingId, e.amount, e.kind.Name(), e.recordedAt)
  }

  /** The report map, field by field. */
  datatype Report = Report(
    concertId: Uuid,
    totalRevenue: Money,
    totalRefunds: Money,
    netRevenue: Money,
    transactionCount: nat,
    bookingCount: nat,
    refundCount: nat,
    transactions: seq<Transaction>)

  /** The loop of getSettlementReport: one pass over the entries, in order. */
  method Tabulate(entries: seq<LedgerEntry>) returns (totalRevenue: Money, totalRefunds: Money, debitCount: nat, creditCount: nat)
    ensures totalRevenue == Total(entries, "DEBIT") && debitCount == Tally(entries, "DEBIT")
    ensures totalRefunds == Total(entries, "CREDIT") && creditCount == Tally(entries, "CREDIT")
  {
    totalRevenue, totalRefunds := 0.0, 0.0;
    debitCount, creditCount := 0, 0;
    var i := 0;
    while i < |entries|
      invariant 0 <= i <= |entries|
      invariant totalRevenue == Total(entries[..i], "DEBIT") && debitCount == Tally(entries[..i], "DEBIT")
      invariant totalRefunds == Total(entries[..i], "CREDIT") && creditCount == Tally(entries[..i], "CREDIT")
    {
      var entry := entries[i];
      Fold(entries, i, "DEBIT");
      Fold(entries, i, "CREDIT");
      if entry.kind.Name() == "DEBIT" {
        assert Gain(entry, "CREDIT") == 0.0 && Hit(entry, "CREDIT") == 0 by {
          assert "DEBIT"[0] != "CREDIT"[0];
        }
        totalRevenue := totalRevenue + entry.amount;
        debitCount := debitCount + 1;
      } else if entry.kind.Name() == "CREDIT" {
        totalRefunds := totalRefunds + entry.amount;
        creditCount := creditCount + 1;
      }
      i := i + 1;
    }
    assert entries[..i] == entries;
  }

  /** getSettlementReport: the concert's entries, summed, counted and listed. */
  method GetSettlementReport(ledger: seq<LedgerEntry>, concertId: Uuid) returns (report: Report)
    ensures var es := ForConcert(ledger, concertId);
      && report.concertId == concertId
      && report.totalRevenue == Total(es, "DEBIT") && report.bookingCount == Tally(es, "DEBIT")
      && report.totalRefunds == Total(es, "CREDIT") && report.refundCount == Tally(es, "CREDIT")
      && report.netRevenue == report.totalRevenue - report.totalRefunds
      && report.transactionCount == |es|
      && |report.transactions| == |es|
      && forall i :: 0 <= i < |es| ==> report.transactions[i] == View(es[i])
  {
    var entries := ForConcert(ledger, concertId);
    var totalRevenue, totalRefunds, debitCount, creditCount := Tabulate(entries);
    var transactions := seq(|entries|, k requires 0 <= k < |entries| => View(entries[k]));
    report := Report(concertId, totalRevenue, totalRefunds, totalRevenue - totalRefunds,
      |entries|, debitCount, creditCount, transactions);
  }

  /** Entries of any other type are counted only as transactions: bookings plus refunds never exceed them. */
  lemma {:induction false} CountsWithinTransactions(es: seq<LedgerEntry>)
    ensures Tally(es, "DEBIT") + Tally(es, "CREDIT") <= |es|
    decreases |es|
  {
    if es != [] {
      CountsWithinTransactions(es[..|es| - 1]);
    }
  }

  /** A concert with no entries settles to zero sums and zero counts. */
  lemma NoEntriesSettleToZero(ledger: seq<LedgerEntry>, concertId: Uuid)
    requires forall e :: e in ledger ==> e.concertId != Some(concertId)
    ensures var es := ForConcert(ledger, concertId);
      Total(es, "DEBIT") == 0.0 && Total(es, "CREDIT") == 0.0 && Tally(es, "DEBIT") == 0 && Tally(es, "CREDIT") == 0
  {
  }

  /** One new entry changes its own concert's sums and counts by its amount and by one, and no other's. */
  lemma AppendedEntry(ledger: seq<LedgerEntry>, e: LedgerEntry, concertId: Uuid, kind: string)
    ensures var counted := e.concertId == Some(concertId) && e.kind.Name() == kind;
      && Total(ForConcert(ledger + [e], concertId), kind)
        == Total(ForConcert(ledger, concertId), kind) + (if counted then e.amount else 0.0)
      && Tally(ForConcert(ledger + [e], concertId), kind)
        == Tally(ForConcert(ledger, concertId), kind) + (if counted then 1 else 0)
  {
    var p := (x: LedgerEntry) => x.concertId == Some(concertId);
    Sequences.FilterAppend(ledger, e, p);
    var es := ForConcert(ledger, concertId);
    if p(e) {
      assert ForConcert(ledger + [e], concertId) == es + [e];
      assert (es + [e])[..|es + [e]| - 1] == es;
    } else {
      assert ForConcert(ledger + [e], concertId) == es;
    }
  }

  /** Each booking intake adds its total to its concert's revenue and one to its booking count. */
  lemma IntakeAddsRevenue(t: Tables, msg: BookingMessage, now: Timestamp, c: TicketCategory)
    requires Intake(t, msg, now).1.Created?
    requires CategoryRepository.FindById(t.categories, msg.request.categoryId) == Some(c)
    ensures var after := ForConcert(Intake(t, msg, now).0.ledger, c.eventId);
      var before := ForConcert(t.ledger, c.eventId);
      && Total(after, "DEBIT") == Total(before, "DEBIT") + NewBooking(t.nextId, msg, c.price, now).totalAmount
      && Tally(after, "DEBIT") == Tally(before, "DEBIT") + 1
      && Total(after, "CREDIT") == Total(before, "CREDIT")
  {
    IntakeCreates(t, msg, now, c);
    var e := LedgerEntry(t.nextId, Some(c.eventId), NewBooking(t.nextId, msg, c.price, now).totalAmount, Debit, now);
    AppendedEntry(t.ledger, e, c.eventId, "DEBIT");
    AppendedEntry(t.ledger, e, c.eventId, "CREDIT");
  }

  /**
   * A payment is settled as a refund: its CREDIT adds the booking's total to the concert's
   * refunds, so a sold-and-paid booking nets to zero revenue.
   */
  lemma PaymentCountsAsRefund(t: Tables, req: PaymentRequest, now: Timestamp, c: TicketCategory)
    requires Pay(t, req, now).1.Success?
    requires CategoryRepository.FindById(t.categories, BookingRepository.FindById(t.bookings, req.bookingId).value.categoryId) == Some(c)
    ensures var b := BookingRepository.FindById(t.bookings, req.bookingId).value;
      var after := ForConcert(Pay(t, req, now).0.ledger, c.eventId);
      var before := ForConcert(t.ledger, c.eventId);
      && Total(after, "CREDIT") == Total(before, "CREDIT") + b.totalAmount
      && Total(after, "DEBIT") == Total(before, "DEBIT")
  {
    var b := BookingRepository.FindById(t.bookings, req.bookingId).value;
    var e := LedgerEntry(b.id, Some(c.eventId), b.totalAmount, Credit, now);
    assert Pay(t, req, now).0.ledger == t.ledger + [e];
    AppendedEntry(t.ledger, e, c.eventId, "DEBIT");
    AppendedEntry(t.ledger, e, c.eventId, "CREDIT");
  }

  /** A cancellation settles as a refund of the booking's full total for its concert, and moves no revenue. */
  lemma CancellationCountsAsRefund(t: Tables, id: Uuid, caller: Caller, now: Timestamp, b: Booking, c: TicketCategory)
    requires Cancellation(t, id, caller, now).1.Success?
    requires BookingRepository.FindById(t.bookings, id) == Some(b)
    requires CategoryRepository.FindById(t.categories, b.categoryId) == Some(c)
    ensures var after := ForConcert(Cancellation(t, id, caller, now).0.ledger, c.eventId);
      var before := ForConcert(t.ledger, c.eventId);
      && Total(after, "CREDIT") == Total(before, "CREDIT") + b.totalAmount
      && Tally(after, "CREDIT") == Tally(before, "CREDIT") + 1
      && Total(after, "DEBIT") == Total(before, "DEBIT")
  {
    var e := LedgerEntry(b.id, Some(c.eventId), b.totalAmount, Credit, now);
    assert Cancellation(t, id, caller, now).0.ledger == t.ledger + [e];
    AppendedEntry(t.ledger, e, c.eventId, "DEBIT");
    AppendedEntry(t.ledger, e, c.eventId, "CREDIT");
  }

  /** A partial refund adds exactly the refunded amount to its concert's refunds, and moves no revenue. */
  lemma RefundCountsAsRefund(t: Tables, id: Uuid, amount: Money, now: Timestamp, b: Booking, c: TicketCategory)
    requires Refund(t, id, amount, now).1.Success?
    requires BookingRepository.FindById(t.bookings, id) == Some(b)
    requires CategoryRepository.FindById(t.categories, b.categoryId) == Some(c)
    ensures var after := ForConcert(Refund(t, id, amount, now).0.ledger, c.eventId);
      var before := ForConcert(t.ledger, c.eventId);
      && Total(after, "CREDIT") == Total(before, "CREDIT") + amount
      && Tally(after, "CREDIT") == Tally(before, "CREDIT") + 1
      && Total(after, "DEBIT") == Total(before, "DEBIT")
  {
    var e := LedgerEntry(id, Some(c.eventId), amount, Credit, now);
    assert Refund(t, id, amount, now).0.ledger == t.ledger + [e];
    AppendedEntry(t.ledger, e, c.eventId, "DEBIT");
    AppendedEntry(t.ledger, e, c.eventId, "CREDIT");
  }
}
