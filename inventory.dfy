/**
 * InventoryService: the availability read, which prefers the `stock::` cache and falls back
 * to the row on any trouble, and three reservation helpers — the Redis "decrement if
 * positive" script, its INCR rollback and a database-only decrement. The three helpers are
 * private and nothing calls them; they are modelled as written.
 */
module Inventory {
  import opened Wrappers
  import opened Model
  import opened Errors
  import Decimal
  import CategoryRepository
  import EventRepository
  import Accounting
  import opened Store
  import opened Redis
  import Pricing

  const Available: string := "AVAILABLE"
  const SoldOut: string := "SOLD_OUT"

  /**
   * The stock the read settles on: the cached number when the cache answers with one, and the
   * row's (possibly null) stock on a miss, an unreachable cache or text that is not a number.
   */
  function ResolveStock(ks: Keyspace<string>, c: TicketCategory): (r: Option<int>)
    ensures r.Some? && r != c.availableStock ==>
      && ks.up && StockKey(c.id) in ks.entries
      && r == Decimal.ParseInt(ks.entries[StockKey(c.id)].value)
  {
    match Get(ks, StockKey(c.id))
    case Success(Some(text)) =>
      (match Decimal.ParseInt(text)
       case Some(v) => Some(v)
       case None => c.availableStock)
    case _ => c.availableStock
  }

  /** One element of the availability response. */
  datatype AvailabilityItem = AvailabilityItem(
    categoryId: Uuid,
    categoryName: Option<string>,
    concertName: Option<string>,
    artistName: Option<string>,
    totalAllocation: int,
    availableStock: int,
    status: string)

  /** buildAvailabilityResponse. */
  function BuildAvailability(ks: Keyspace<string>, events: seq<Event>, c: TicketCategory): (item: AvailabilityItem)
    ensures item.categoryId == c.id && item.categoryName == c.name
    ensures item.totalAllocation == CategoryRepository.AllocationOf(c)
    // the status and the reported number never disagree, and a null stock reads as sold out
    ensures item.status == Available <==> item.availableStock > 0
    ensures item.status == Available || item.status == SoldOut
    ensures ResolveStock(ks, c).None? ==> item.availableStock == 0 && item.status == SoldOut
  {
    var stock := ResolveStock(ks, c);
    var event := EventRepository.FindById(events, c.eventId);
    AvailabilityItem(
      c.id,
      c.name,
      if event.Some? then event.value.name else None,
      if event.Some? then event.value.artist else None,
      c.totalAllocation.GetOr(0),
      stock.GetOr(0),
      if stock.Some? && stock.value > 0 then Available else SoldOut)
  }

  /** An unreachable cache, a missing key or an unreadable value all report the row's stock. */
  lemma FallsBackToDatabase(ks: Keyspace<string>, events: seq<Event>, c: TicketCategory)
    requires !ks.up || StockKey(c.id) !in ks.entries || Decimal.ParseInt(ks.entries[StockKey(c.id)].value).None?
    ensures BuildAvailability(ks, events, c).availableStock == CategoryRepository.StockOf(c)
    ensures BuildAvailability(ks, events, c) == BuildAvailability(Keyspace(true, map[]), events, c)
  {
  }

  /**
   * The availability read and the pricing read report the same stock whenever the pricing
   * read succeeds: both take the cached number, and on a miss both take the row's.
   */
  lemma AvailabilityAgreesWithPricing(ks: Keyspace<string>, events: seq<Event>, c: TicketCategory)
    requires Pricing.Int32Columns(c)
    requires Pricing.PriceCategory(ks, events, c).1.Success?
    ensures Pricing.PriceCategory(ks, events, c).1.value.availableStock == BuildAvailability(ks, events, c).availableStock
  {
  }

  /** getAvailability: one item per category of the event, in order. */
  function Availability(ks: Keyspace<string>, t: Tables, eventId: Uuid): (items: seq<AvailabilityItem>)
    ensures |items| == |CategoryRepository.FindByEventId(t.categories, eventId)|
    ensures forall i :: 0 <= i < |items| ==>
      items[i] == BuildAvailability(ks, t.events, CategoryRepository.FindByEventId(t.categories, eventId)[i])
  {
    var cats := CategoryRepository.FindByEventId(t.categories, eventId);
    seq(|cats|, i requires 0 <= i < |cats| => BuildAvailability(ks, t.events, cats[i]))
  }

  /**
   * reserveFromRedis: the script's answer, with a connection failure rethrown and any other
   * error swallowed into null.
   */
  function ReserveFromCache(ks: Keyspace<string>, key: string): (r: (Keyspace<string>, Outcome<Option<int>>))
    ensures r.1.Thrown? <==> !ks.up
    ensures r.1 == Success(Some(-1)) || r.1 == Success(None) ==> r.0 == ks
    ensures ks.up && key !in ks.entries ==> r == (ks, Success(Some(-1)))
    ensures ks.up && key in ks.entries ==>
      match Decimal.ParseLong(ks.entries[key].value)
      case None => r == (ks, Success(None))
      case Some(v) =>
        if v <= 0 then r == (ks, Success(Some(-1)))
        else (r.1 == Success(Some(v - 1))
              && r.0.entries == ks.entries[key := ks.entries[key].(value := Decimal.IntToString(v - 1))])
  {
    var (ks', answer) := ReserveScript(ks, key);
    match answer
    case Success(v) => (ks', Success(Some(v)))
    case Thrown(f) => if f == ConnectionLost then (ks', Thrown(f)) else (ks', Success(None))
  }

  /** rollbackRedis: INCR with every failure swallowed. */
  function RollbackCache(ks: Keyspace<string>, key: string): (r: Keyspace<string>)
    ensures !ks.up ==> r == ks
    ensures ks.up && key !in ks.entries ==> r.entries == ks.entries[key := Entry("1", None)]
    ensures ks.up && key in ks.entries ==>
      match Decimal.ParseLong(ks.entries[key].value)
      case Some(v) =>
        if v < Decimal.Int64Max then r.entries == ks.entries[key := ks.entries[key].(value := Decimal.IntToString(v + 1))]
        else r == ks
      case None => r == ks
  {
    Incr(ks, key).0
  }

  /** A reservation rolled back returns the counter to the number it held, with its TTL. */
  lemma RollbackUndoesReservation(ks: Keyspace<string>, key: string)
    requires ReserveFromCache(ks, key).1.Success? && ReserveFromCache(ks, key).1.value.Some?
    requires ReserveFromCache(ks, key).1.value.value >= 0
    ensures key in ks.entries
    ensures RollbackCache(ReserveFromCache(ks, key).0, key).entries ==
      ks.entries[key := ks.entries[key].(value := Decimal.IntToString(ReserveFromCache(ks, key).1.value.value + 1))]
    ensures Decimal.ParseLong(ks.entries[key].value) == Some(ReserveFromCache(ks, key).1.value.value + 1)
  {
    var n := ReserveFromCache(ks, key).1.value.value;
    Decimal.ParseLongRoundTrip(n);
  }

  /** reserveFromDatabaseOnly: one seat off the row, read and written back whole. */
  function DatabaseOnlyReserve(cats: seq<TicketCategory>, id: Uuid): (r: (seq<TicketCategory>, Outcome<()>))
    ensures CategoryRepository.FindById(cats, id).None? ==>
      r == (cats, Thrown(Unhandled(IllegalArgument, "Category not found: " + Decimal.Digits(id))))
    ensures !r.1.Success? ==> r.0 == cats
    ensures r.1.Success? <==>
      CategoryRepository.FindById(cats, id).Some? && CategoryRepository.FindById(cats, id).value.availableStock.Some?
      && CategoryRepository.FindById(cats, id).value.availableStock.value > 0
    ensures (CategoryRepository.FindById(cats, id).Some? && CategoryRepository.FindById(cats, id).value.availableStock.None?) ==>
      r.1 == Thrown(Unhandled(NullPointer, ""))
    ensures (CategoryRepository.FindById(cats, id).Some? && CategoryRepository.FindById(cats, id).value.availableStock.Some?
             && CategoryRepository.FindById(cats, id).value.availableStock.value <= 0) ==>
      r.1 == Thrown(Unhandled(InsufficientStock, "Stock not available"))
    ensures r.1.Success? ==>
      var c := CategoryRepository.FindById(cats, id).value;
      r.0 == CategoryRepository.Saved(cats, c.(availableStock := Some(c.availableStock.value - 1)))
  {
    match CategoryRepository.FindById(cats, id)
    case None => (cats, Thrown(Unhandled(IllegalArgument, "Category not found: " + Decimal.Digits(id))))
    case Some(c) =>
      match c.availableStock
      // unboxing a null Integer
      case None => (cats, Thrown(Unhandled(NullPointer, "")))
      case Some(stock) =>
        if stock <= 0 then (cats, Thrown(Unhandled(InsufficientStock, "Stock not available")))
        else (CategoryRepository.Saved(cats, c.(availableStock := Some(stock - 1))), Success(()))
  }

  /** Under the primary key the database-only path is the conditional UPDATE with a quantity of one. */
  lemma DatabaseOnlyIsDecreaseByOne(cats: seq<TicketCategory>, id: Uuid)
    requires CategoryRepository.UniqueIds(cats)
    ensures DatabaseOnlyReserve(cats, id).1.Success? <==> CategoryRepository.RowsDecreased(cats, id, 1) == 1
    ensures DatabaseOnlyReserve(cats, id).0 == CategoryRepository.AfterDecrease(cats, id, 1)
  {
    CategoryRepository.DecreaseReportsOneRow(cats, id, 1);
    match CategoryRepository.IndexOf(cats, id)
    case None =>
      assert forall k :: 0 <= k < |cats| ==> !CategoryRepository.CanDecrease(cats[k], id, 1);
    case Some(k) =>
      forall j | 0 <= j < |cats| && j != k
        ensures !CategoryRepository.CanDecrease(cats[j], id, 1)
      {
        assert cats[j].id != id;
      }
      if !CategoryRepository.CanDecrease(cats[k], id, 1) {
        assert forall j :: 0 <= j < |cats| ==> !CategoryRepository.CanDecrease(cats[j], id, 1);
      }
  }

  /**
   * The database-only path takes a seat that no booking holds, so it breaks the stock balance
   * of the category it touches.
   */
  lemma DatabaseOnlyUnbalances(t: Tables, id: Uuid)
    requires WellFormed(t) && Conserved(t)
    requires DatabaseOnlyReserve(t.categories, id).1.Success?
    ensures !Conserved(t.(categories := DatabaseOnlyReserve(t.categories, id).0))
  {
    DatabaseOnlyIsDecreaseByOne(t.categories, id);
    var k := CategoryRepository.IndexOf(t.categories, id).value;
    var after := DatabaseOnlyReserve(t.categories, id).0;
    assert CategoryRepository.CanDecrease(t.categories[k], id, 1);
    assert Balanced(t.categories[k], t.bookings);
    assert !Balanced(after[k], t.bookings);
  }

  class InventoryService {
    const db: Database
    const cache: StringCache

    constructor (db: Database, cache: StringCache)
      ensures this.db == db && this.cache == cache
    {
      this.db := db;
      this.cache := cache;
    }

    method GetAvailability(eventId: Uuid) returns (items: seq<AvailabilityItem>)
      ensures items == Availability(cache.State(), db.State(), eventId)
    {
      var cats := CategoryRepository.FindByEventId(db.categories, eventId);
      items := [];
      var i := 0;
      while i < |cats|
        invariant 0 <= i <= |cats|
        invariant |items| == i
        invariant forall j :: 0 <= j < i ==> items[j] == BuildAvailability(cache.State(), db.events, cats[j])
      {
        var item := BuildAvailabilityResponse(cats[i]);
        items := items + [item];
        i := i + 1;
      }
    }

    method BuildAvailabilityResponse(c: TicketCategory) returns (item: AvailabilityItem)
      ensures item == BuildAvailability(cache.State(), db.events, c)
    {
      var stock: Option<int>;
      var cached := cache.Read(StockKey(c.id));
      if cached.Success? && cached.value.Some? {
        var parsed := Decimal.ParseInt(cached.value.value);
        stock := if parsed.Some? then parsed else c.availableStock;
      } else {
        stock := c.availableStock;
      }
      var event := EventRepository.FindById(db.events, c.eventId);
      item := AvailabilityItem(
        c.id,
        c.name,
        if event.Some? then event.value.name else None,
        if event.Some? then event.value.artist else None,
        c.totalAllocation.GetOr(0),
        stock.GetOr(0),
        if stock.Some? && stock.value > 0 then Available else SoldOut);
    }

    method ReserveFromRedis(key: string) returns (r: Outcome<Option<int>>)
      modifies cache
      ensures (cache.State(), r) == ReserveFromCache(old(cache.State()), key)
    {
      var answer := cache.Reserve(key);
      match answer
      case Success(v) =>
        r := Success(Some(v));
      case Thrown(f) =>
        r := if f == ConnectionLost then Thrown(f) else Success(None);
    }

    method RollbackRedis(key: string)
      modifies cache
      ensures cache.State() == RollbackCache(old(cache.State()), key)
    {
      var _ := cache.Increment(key);
    }

    method ReserveFromDatabaseOnly(categoryId: Uuid) returns (r: Outcome<()>)
      modifies db`categories
      ensures (db.categories, r) == DatabaseOnlyReserve(old(db.categories), categoryId)
    {
      var found := CategoryRepository.FindById(db.categories, categoryId);
      if found.None? {
        return Thrown(Unhandled(IllegalArgument, "Category not found: " + Decimal.Digits(categoryId)));
      }
      var category := found.value;
      if category.availableStock.None? {
        return Thrown(Unhandled(NullPointer, ""));
      }
      if category.availableStock.value <= 0 {
        return Thrown(Unhandled(InsufficientStock, "Stock not available"));
      }
      db.SaveCategory(category.(availableStock := Some(category.availableStock.value - 1)));
      r := Success(());
    }
  }
}
