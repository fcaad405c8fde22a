/**
 * The relational store the services share: the Postgres tables as sequences in storage
 * order, plus the generator of fresh identifiers.
 */
module Store {
  import opened Wrappers
  import Sequences
  import opened Model
  import CategoryRepository
  import BookingRepository
  import Accounting
  import EventRepository

  /** A snapshot of every table. `nextId` is above every id handed out so far. */
  datatype Tables = Tables(
    categories: seq<TicketCategory>,
    bookings: seq<Booking>,
    ledger: seq<LedgerEntry>,
    payments: seq<Payment>,
    events: seq<Event>,
    venues: seq<Venue>,
    nextId: nat)

  /** JPA `save` of an entity that already has an id: the row with that id is replaced. */
  function Saved(bs: seq<Booking>, b: Booking): (r: seq<Booking>)
    ensures |r| == |bs|
    ensures forall j :: 0 <= j < |bs| && bs[j].id != b.id ==> r[j] == bs[j]
    ensures forall j :: 0 <= j < |bs| && bs[j].id == b.id ==> r[j] == b
  {
    seq(|bs|, j requires 0 <= j < |bs| => if bs[j].id == b.id then b else bs[j])
  }

  /** Under the primary key, saving rewrites exactly the one row that has the id. */
  lemma SavedAt(bs: seq<Booking>, j: nat, b: Booking)
    requires BookingRepository.UniqueIds(bs) && j < |bs| && bs[j].id == b.id
    ensures Saved(bs, b) == bs[j := b]
  {
  }

  /** After a save, findById returns the saved row for its id and the old row for every other id. */
  lemma SavedIsFound(bs: seq<Booking>, b: Booking)
    requires BookingRepository.FindById(bs, b.id).Some?
    ensures BookingRepository.FindById(Saved(bs, b), b.id) == Some(b)
    ensures forall x :: x != b.id ==> BookingRepository.FindById(Saved(bs, b), x) == BookingRepository.FindById(bs, x)
  {
    var r := Saved(bs, b);
    forall x
      ensures BookingRepository.IndexOf(r, x) == BookingRepository.IndexOf(bs, x)
    {
      Sequences.IndexBySameKeys(r, bs, BookingRepository.RowId, x);
    }
  }

  /** The ids of the categories whose available stock is not null. */
  function StockedIds(cats: seq<TicketCategory>): set<Uuid> {
    set k | 0 <= k < |cats| && cats[k].availableStock.Some? :: cats[k].id
  }

  /** The stock updates change no id and turn no stock null or non-null. */
  lemma StockedIdsKept(cats: seq<TicketCategory>, id: Uuid, qty: int)
    ensures StockedIds(CategoryRepository.AfterDecrease(cats, id, qty)) == StockedIds(cats)
    ensures StockedIds(CategoryRepository.AfterIncrease(cats, id, qty)) == StockedIds(cats)
  {
    var dec := CategoryRepository.AfterDecrease(cats, id, qty);
    var inc := CategoryRepository.AfterIncrease(cats, id, qty);
    assert forall k :: 0 <= k < |cats| ==> dec[k].id == cats[k].id && inc[k].id == cats[k].id;
  }

  /** Under the primary key, the one row with a stocked id has a non-null stock. */
  lemma StockedRow(cats: seq<TicketCategory>, id: Uuid, k: nat)
    requires CategoryRepository.UniqueIds(cats) && id in StockedIds(cats)
    requires k < |cats| && cats[k].id == id
    ensures cats[k].availableStock.Some?
  {
    var m :| 0 <= m < |cats| && cats[m].availableStock.Some? && cats[m].id == id;
    assert m == k;
  }

  /**
   * The constraints the database enforces: primary keys, the unique idempotency key,
   * every booking pointing at a stocked category, and ids below the generator.
   */
  ghost predicate WellFormed(t: Tables) {
    && CategoryRepository.UniqueIds(t.categories)
    && BookingRepository.UniqueIds(t.bookings)
    && BookingRepository.UniqueKeys(t.bookings)
    && (forall k :: 0 <= k < |t.categories| ==> t.categories[k].id < t.nextId)
    && (forall j :: 0 <= j < |t.bookings| ==> t.bookings[j].id < t.nextId)
    && (forall j :: 0 <= j < |t.bookings| ==> t.bookings[j].categoryId in StockedIds(t.categories))
    && (forall e :: 0 <= e < |t.events| ==> t.events[e].id < t.nextId)
  }

  /** One category's books balance: what is on sale plus what is held equals the allocation. */
  ghost predicate Balanced(c: TicketCategory, bs: seq<Booking>) {
    && c.availableStock.Some? == c.totalAllocation.Some?
    && CategoryRepository.StockOf(c) + Accounting.Reserved(bs, c.id) == CategoryRepository.AllocationOf(c)
  }

  /** Stock conservation over the whole store. */
  ghost predicate Conserved(t: Tables) {
    forall k :: 0 <= k < |t.categories| ==> Balanced(t.categories[k], t.bookings)
  }

  /** No category shows negative stock and no booking holds a non-positive quantity. */
  ghost predicate NoOversell(t: Tables) {
    && (forall k :: 0 <= k < |t.categories| ==> CategoryRepository.StockOf(t.categories[k]) >= 0)
    && (forall j :: 0 <= j < |t.bookings| ==> t.bookings[j].quantity > 0)
  }

  /** With stock conserved and nothing oversold, no category has more seats held than allocated. */
  lemma HeldWithinAllocation(t: Tables, k: nat)
    requires Conserved(t) && NoOversell(t) && k < |t.categories|
    ensures 0 <= Accounting.Reserved(t.bookings, t.categories[k].id) <= CategoryRepository.AllocationOf(t.categories[k])
  {
    Accounting.ReservedNonNegative(t.bookings, t.categories[k].id);
  }

  /**
   * The database. Each repository operation the services call is one method; each keeps
   * the database's own constraints.
   */
  class Database {
    var categories: seq<TicketCategory>
    var bookings: seq<Booking>
    var ledger: seq<LedgerEntry>
    var payments: seq<Payment>
    var events: seq<Event>
    var venues: seq<Venue>
    var nextId: nat

    function State(): Tables
      reads this
    {
      Tables(categories, bookings, ledger, payments, events, venues, nextId)
    }

    /** The database's constraints, and stock conservation, which every booking operation keeps. */
    ghost predicate Valid()
      reads this
    {
      WellFormed(State()) && Conserved(State())
    }

    constructor (initial: Tables)
      requires WellFormed(initial) && Conserved(initial)
      ensures Valid() && State() == initial
    {
      categories, bookings, ledger, payments := initial.categories, initial.bookings, initial.ledger, initial.payments;
      events, venues, nextId := initial.events, initial.venues, initial.nextId;
    }

    /** A fresh UUID: above every id in use. */
    method FreshId() returns (id: Uuid)
      modifies this`nextId
      ensures id == old(nextId) && nextId == old(nextId) + 1
    {
      id := nextId;
      nextId := nextId + 1;
    }

    /** `n` fresh UUIDs, one per new row of a save: the first is returned, the rest follow it. */
    method FreshIds(n: nat) returns (first: Uuid)
      modifies this`nextId
      ensures first == old(nextId) && nextId == old(nextId) + n
    {
      first := nextId;
      nextId := nextId + n;
    }

    /** TicketCategoryRepository.decreaseStock: the conditional UPDATE and its row count. */
    method DecreaseStock(id: Uuid, qty: int) returns (rows: int)
      modifies this`categories
      ensures categories == CategoryRepository.AfterDecrease(old(categories), id, qty)
      ensures rows == CategoryRepository.RowsDecreased(old(categories), id, qty)
    {
      rows := CategoryRepository.RowsDecreased(categories, id, qty);
      categories := CategoryRepository.AfterDecrease(categories, id, qty);
    }

    /** TicketCategoryRepository.increaseStock: the unconditional UPDATE. */
    method IncreaseStock(id: Uuid, qty: int)
      modifies this`categories
      ensures categories == CategoryRepository.AfterIncrease(old(categories), id, qty)
    {
      categories := CategoryRepository.AfterIncrease(categories, id, qty);
    }

    /** BookingRepository.save of a managed booking. */
    method SaveBooking(b: Booking)
      modifies this`bookings
      ensures bookings == Saved(old(bookings), b)
    {
      bookings := Saved(bookings, b);
    }

    /** BookingRepository.save of a new booking: the row is appended. */
    method InsertBooking(b: Booking)
      modifies this`bookings
      ensures bookings == old(bookings) + [b]
    {
      bookings := bookings + [b];
    }

    /** LedgerRepository.save: the ledger only grows. */
    method AppendLedger(e: LedgerEntry)
      modifies this`ledger
      ensures ledger == old(ledger) + [e]
    {
      ledger := ledger + [e];
    }

    /** TicketCategoryRepository.save of a managed category. */
    method SaveCategory(c: TicketCategory)
      modifies this`categories
      ensures categories == CategoryRepository.Saved(old(categories), c)
    {
      categories := CategoryRepository.Saved(categories, c);
    }

    /** Rows inserted into ticket_categories, in order. */
    method InsertCategories(cs: seq<TicketCategory>)
      modifies this`categories
      ensures categories == old(categories) + cs
    {
      categories := categories + cs;
    }

    /** EventRepository.save of a new event. */
    method InsertEvent(e: Event)
      modifies this`events
      ensures events == old(events) + [e]
    {
      events := events + [e];
    }

    /** EventRepository.save of a managed event. */
    method SaveEvent(e: Event)
      modifies this`events
      ensures events == EventRepository.Saved(old(events), e)
    {
      events := EventRepository.Saved(events, e);
    }

    /** PaymentRepository.save of a new payment. */
    method AppendPayment(p: Payment)
      modifies this`payments
      ensures payments == old(payments) + [p]
    {
      payments := payments + [p];
    }
  }
}
