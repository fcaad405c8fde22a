/**
 * PricingService: surge pricing from occupancy, read through the `stock::` cache.
 *
 * The occupancy is computed in Java as `(double) (total - available) / total`: the
 * subtraction is an `int` one (it wraps), and a zero total gives an infinity or NaN rather
 * than an exception. The model keeps those cases as a `Rate`. For a non-zero total the
 * quotient is kept as an exact rational: two `int`s whose quotient differs from 0.9, 0.7, 0.4
 * or 0.1 differ from it by more than 1/(10·2^31), far more than a double's rounding, so the
 * comparisons come out as with doubles. `1 + multiplier` is 3.5, 2.8, 2.3, 2.0 or 1.1, and
 * `BigDecimal.valueOf` reads those doubles back as exactly those decimals.
 */
module Pricing {
  import opened Wrappers
  import opened Model
  import opened Errors
  import Decimal
  import CategoryRepository
  import EventRepository
  import opened Store
  import opened Redis

  /** A stock value seeded into the cache lives ten minutes. */
  const StockTtlSeconds: int := 10 * 60

  predicate IsInt32(x: int) {
    Decimal.Int32Min <= x <= Decimal.Int32Max
  }

  /** The two Integer columns of a category hold Java ints, or null. */
  predicate Int32Columns(c: TicketCategory) {
    && (c.totalAllocation.Some? ==> IsInt32(c.totalAllocation.value))
    && (c.availableStock.Some? ==> IsInt32(c.availableStock.value))
  }

  predicate AllInt32(cats: seq<TicketCategory>) {
    forall k :: 0 <= k < |cats| ==> Int32Columns(cats[k])
  }

  /** A double occupancy: a quotient, or what dividing by zero gives. */
  datatype Rate = Finite(value: real) | PositiveInfinity | NegativeInfinity | NotANumber {
    /** `rate > bound`: false for NaN. */
    predicate Above(bound: real) {
      match this
      case Finite(v) => v > bound
      case PositiveInfinity => true
      case _ => false
    }

    /** `rate < bound`: false for NaN. */
    predicate Below(bound: real) {
      match this
      case Finite(v) => v < bound
      case NegativeInfinity => true
      case _ => false
    }
  }

  /** `(double) (total - available) / total`. */
  function OccupancyRate(total: int, available: int): Rate
    requires IsInt32(total) && IsInt32(available)
  {
    var sold := Decimal.Int32Wrap(total - available);
    if total != 0 then Finite(sold as real / total as real)
    else if sold > 0 then PositiveInfinity
    else if sold < 0 then NegativeInfinity
    else NotANumber
  }

  /** The multiplier table, first match from the top. */
  function Multiplier(rate: Rate): real {
    if rate.Above(0.9) then 2.5
    else if rate.Above(0.7) then 1.8
    else if rate.Above(0.4) then 1.3
    else if rate.Below(0.1) then 0.1
    else 1.0
  }

  /** calculateSurge: the base price times `1 + multiplier`. */
  function CalculateSurge(basePrice: Money, total: int, available: int): Money
    requires IsInt32(total) && IsInt32(available)
  {
    basePrice * (1.0 + Multiplier(OccupancyRate(total, available)))
  }

  /** The same table over integers: `sold / total > 9/10` is `10 * sold > 9 * total` for a positive total. */
  function IntegerMultiplier(sold: int, total: int): real {
    if 10 * sold > 9 * total then 2.5
    else if 10 * sold > 7 * total then 1.8
    else if 10 * sold > 4 * total then 1.3
    else if 10 * sold < total then 0.1
    else 1.0
  }

  lemma QuotientAbove(n: int, d: int, a: int, b: int)
    requires d > 0 && b > 0
    ensures n as real / d as real > a as real / b as real <==> n * b > a * d
  {
    var q := n as real / d as real;
    assert q * d as real == n as real;
    var p := a as real / b as real;
    assert p * b as real == a as real;
    assert (n * b) as real == q * (d * b) as real;
    assert (a * d) as real == p * (d * b) as real;
  }

  lemma QuotientBelow(n: int, d: int, a: int, b: int)
    requires d > 0 && b > 0
    ensures n as real / d as real < a as real / b as real <==> n * b < a * d
  {
    var q := n as real / d as real;
    assert q * d as real == n as real;
    var p := a as real / b as real;
    assert p * b as real == a as real;
    assert (n * b) as real == q * (d * b) as real;
    assert (a * d) as real == p * (d * b) as real;
  }

  /**
   * For a positive allocation and a difference that does not wrap, the table compares the
   * sold seats with tenths of the allocation.
   */
  lemma SurgeByCrossMultiplication(total: int, available: int)
    requires IsInt32(total) && IsInt32(available) && IsInt32(total - available)
    requires total > 0
    ensures Multiplier(OccupancyRate(total, available)) == IntegerMultiplier(total - available, total)
  {
    var sold := total - available;
    QuotientAbove(sold, total, 9, 10);
    QuotientAbove(sold, total, 7, 10);
    QuotientAbove(sold, total, 4, 10);
    QuotientBelow(sold, total, 1, 10);
  }

  /**
   * For a non-negative base price, selling more seats of a positively allocated category
   * never lowers its price.
   */
  lemma SurgeMonotone(basePrice: Money, total: int, available: int, fewer: int)
    requires basePrice >= 0.0
    requires total > 0 && IsInt32(total) && IsInt32(available) && IsInt32(fewer)
    requires IsInt32(total - available) && IsInt32(total - fewer)
    requires fewer <= available
    ensures CalculateSurge(basePrice, total, available) <= CalculateSurge(basePrice, total, fewer)
  {
    SurgeByCrossMultiplication(total, available);
    SurgeByCrossMultiplication(total, fewer);
    assert IntegerMultiplier(total - available, total) <= IntegerMultiplier(total - fewer, total);
  }

  /** The price never drops below 1.1 times, nor rises above 3.5 times, a non-negative base price. */
  lemma SurgeBounds(basePrice: Money, total: int, available: int)
    requires basePrice >= 0.0 && IsInt32(total) && IsInt32(available)
    ensures 1.1 * basePrice <= CalculateSurge(basePrice, total, available) <= 3.5 * basePrice
  {
    var m := Multiplier(OccupancyRate(total, available));
    assert 0.1 <= m <= 2.5;
  }

  /**
   * With no allocation the rate is NaN when nothing is sold (multiplier 1.0), +∞ when the stock
   * is negative (2.5) and -∞ when it is positive (0.1); the lowest stock wraps to a negative
   * difference.
   */
  lemma ZeroAllocationSurge(basePrice: Money, available: int)
    requires IsInt32(available)
    ensures CalculateSurge(basePrice, 0, available) == basePrice *
      (if available == 0 then 2.0
       else if available > 0 || available == Decimal.Int32Min then 1.1
       else 3.5)
  {
    var sold := Decimal.Int32Wrap(0 - available);
    if available == Decimal.Int32Min {
      assert sold == Decimal.Int32Min;
    } else {
      assert sold == -available;
    }
  }

  /** 100000 with 10 of 100 left is exactly 90% sold, so 1.8 applies; with 95 left, 0.1 applies. */
  lemma WorkedExamples()
    ensures CalculateSurge(100000.0, 100, 10) == 280000.0
    ensures CalculateSurge(100000.0, 100, 95) == 110000.0
  {
    SurgeByCrossMultiplication(100, 10);
    SurgeByCrossMultiplication(100, 95);
  }

  /** The response item for one category. */
  datatype PricingItem = PricingItem(
    categoryId: Uuid,
    concertName: Option<string>,
    artistName: Option<string>,
    currentPrice: Money,
    availableStock: int)

  /** The item for a category priced at the given stock; names come from its event, if it resolves. */
  function ItemFor(events: seq<Event>, c: TicketCategory, stock: int): PricingItem
    requires Int32Columns(c) && IsInt32(stock)
  {
    var event := EventRepository.FindById(events, c.eventId);
    PricingItem(c.id,
      if event.Some? then event.value.name else None,
      if event.Some? then event.value.artist else None,
      CalculateSurge(c.price, CategoryRepository.AllocationOf(c), stock),
      stock)
  }

  function NotANumeral(s: string): Failure {
    Unhandled(NumberFormat, "For input string: \"" + s + "\"")
  }

  /**
   * getRealTimePricingForCategory(category): a cached stock is parsed and used; a missing one
   * is read from the row (null as 0) and written back with a ten-minute TTL.
   */
  function PriceCategory(ks: Keyspace<string>, events: seq<Event>, c: TicketCategory): (r: (Keyspace<string>, Outcome<PricingItem>))
    requires Int32Columns(c)
    ensures !ks.up ==> r == (ks, Thrown(ConnectionLost))
    ensures r.1.Success? ==> IsInt32(r.1.value.availableStock) && r.1.value == ItemFor(events, c, r.1.value.availableStock)
    // a hit writes nothing and prices at the cached number, or fails on text that is not one
    ensures StockKey(c.id) in ks.entries ==> r.0 == ks
    ensures ks.up && StockKey(c.id) in ks.entries ==>
      match Decimal.ParseInt(ks.entries[StockKey(c.id)].value)
      case Some(v) => r.1.Success? && r.1.value.availableStock == v
      case None => r.1 == Thrown(NotANumeral(ks.entries[StockKey(c.id)].value))
    // a miss prices at the row's stock and seeds the cache with it
    ensures ks.up && StockKey(c.id) !in ks.entries ==>
      && r.1.Success? && r.1.value.availableStock == CategoryRepository.StockOf(c)
      && r.0.entries == ks.entries[StockKey(c.id) := Entry(Decimal.IntToString(CategoryRepository.StockOf(c)), Some(StockTtlSeconds))]
  {
    var key := StockKey(c.id);
    match Get(ks, key)
    case Thrown(f) => (ks, Thrown(f))
    case Success(None) =>
      var stock := c.availableStock.GetOr(0);
      // the GET has just succeeded, so the server is up and the SET goes through
      (Set(ks, key, Decimal.IntToString(stock), Some(StockTtlSeconds)).0, Success(ItemFor(events, c, stock)))
    case Success(Some(text)) =>
      match Decimal.ParseInt(text)
      case None => (ks, Thrown(NotANumeral(text)))
      case Some(stock) => (ks, Success(ItemFor(events, c, stock)))
  }

  /** Read-through: after a miss has seeded the cache, the next read hits and answers the same. */
  lemma SeededReadAgrees(ks: Keyspace<string>, events: seq<Event>, c: TicketCategory)
    requires Int32Columns(c) && ks.up && StockKey(c.id) !in ks.entries
    ensures PriceCategory(PriceCategory(ks, events, c).0, events, c) == PriceCategory(ks, events, c)
  {
    Decimal.ParseIntRoundTrip(CategoryRepository.StockOf(c));
  }

  /** A cache entry that agrees with the row prices the category as the row itself would. */
  lemma WarmCacheAgrees(ks: Keyspace<string>, events: seq<Event>, c: TicketCategory)
    requires Int32Columns(c) && ks.up && StockKey(c.id) in ks.entries
    requires ks.entries[StockKey(c.id)].value == Decimal.IntToString(CategoryRepository.StockOf(c))
    ensures PriceCategory(ks, events, c).1 == PriceCategory(ks.(entries := ks.entries - {StockKey(c.id)}), events, c).1
  {
    Decimal.ParseIntRoundTrip(CategoryRepository.StockOf(c));
  }

  /** The stream map over an event's categories: one item per category in order, or the first exception. */
  function PriceAll(ks: Keyspace<string>, events: seq<Event>, cats: seq<TicketCategory>): (r: (Keyspace<string>, Outcome<seq<PricingItem>>))
    requires AllInt32(cats)
    ensures r.1.Success? ==> |r.1.value| == |cats|
    ensures r.1.Success? ==> forall i :: 0 <= i < |cats| ==>
      IsInt32(r.1.value[i].availableStock) && r.1.value[i] == ItemFor(events, cats[i], r.1.value[i].availableStock)
    ensures !ks.up && cats != [] ==> r == (ks, Thrown(ConnectionLost))
    decreases |cats|
  {
    if cats == [] then (ks, Success([]))
    else
      var (ks1, first) := PriceCategory(ks, events, cats[0]);
      if first.Thrown? then (ks1, Thrown(first.failure))
      else
        var (ks2, rest) := PriceAll(ks1, events, cats[1..]);
        if rest.Thrown? then (ks2, rest) else (ks2, Success([first.value] + rest.value))
  }

  /** The cache once the stream has priced every category of `cats`, one after the other. */
  function KeyspaceAfter(ks: Keyspace<string>, events: seq<Event>, cats: seq<TicketCategory>): Keyspace<string>
    requires AllInt32(cats)
    decreases |cats|
  {
    if cats == [] then ks else KeyspaceAfter(PriceCategory(ks, events, cats[0]).0, events, cats[1..])
  }

  /** Pricing the first `i` categories is pricing the first one and then the next `i - 1`. */
  lemma KeyspaceAfterFirst(ks: Keyspace<string>, events: seq<Event>, cats: seq<TicketCategory>, i: nat)
    requires AllInt32(cats) && 0 < i <= |cats|
    ensures AllInt32(cats[..i]) && AllInt32(cats[1..][..i - 1])
    ensures KeyspaceAfter(ks, events, cats[..i]) == KeyspaceAfter(PriceCategory(ks, events, cats[0]).0, events, cats[1..][..i - 1])
  {
    assert cats[..i][1..] == cats[1..][..i - 1];
  }

  /**
   * A stream that succeeds yields, for each category in order, what pricing that category alone
   * yields in the cache the earlier categories left, and leaves the cache they all leave.
   */
  lemma {:induction false} PriceAllItems(ks: Keyspace<string>, events: seq<Event>, cats: seq<TicketCategory>)
    requires AllInt32(cats) && PriceAll(ks, events, cats).1.Success?
    ensures PriceAll(ks, events, cats).0 == KeyspaceAfter(ks, events, cats)
    ensures forall i :: 0 <= i < |cats| ==>
      AllInt32(cats[..i]) && PriceCategory(KeyspaceAfter(ks, events, cats[..i]), events, cats[i]).1 == Success(PriceAll(ks, events, cats).1.value[i])
    decreases |cats|
  {
    if cats != [] {
      var ks1 := PriceCategory(ks, events, cats[0]).0;
      PriceAllItems(ks1, events, cats[1..]);
      forall i | 0 <= i < |cats|
        ensures AllInt32(cats[..i])
        ensures PriceCategory(KeyspaceAfter(ks, events, cats[..i]), events, cats[i]).1 == Success(PriceAll(ks, events, cats).1.value[i])
      {
        if i == 0 {
          assert cats[..0] == [];
        } else {
          KeyspaceAfterFirst(ks, events, cats, i);
          assert cats[i] == cats[1..][i - 1];
        }
      }
    }
  }

  /** Conversely, when every category in turn prices without a failure, so does the stream. */
  lemma {:induction false} PriceAllSucceeds(ks: Keyspace<string>, events: seq<Event>, cats: seq<TicketCategory>)
    requires AllInt32(cats)
    requires forall i :: 0 <= i < |cats| ==>
      AllInt32(cats[..i]) && PriceCategory(KeyspaceAfter(ks, events, cats[..i]), events, cats[i]).1.Success?
    ensures PriceAll(ks, events, cats).1.Success?
    decreases |cats|
  {
    if cats != [] {
      var ks1 := PriceCategory(ks, events, cats[0]).0;
      assert cats[..0] == [];
      forall i | 0 <= i < |cats| - 1
        ensures AllInt32(cats[1..][..i])
        ensures PriceCategory(KeyspaceAfter(ks1, events, cats[1..][..i]), events, cats[1..][i]).1.Success?
      {
        KeyspaceAfterFirst(ks, events, cats, i + 1);
        assert cats[1..][i] == cats[i + 1];
      }
      PriceAllSucceeds(ks1, events, cats[1..]);
    }
  }

  /** The items gathered so far, followed by what the rest of the stream yields. */
  function Continued(items: seq<PricingItem>, rest: (Keyspace<string>, Outcome<seq<PricingItem>>)): (Keyspace<string>, Outcome<seq<PricingItem>>) {
    (rest.0, if rest.1.Thrown? then rest.1 else Success(items + rest.1.value))
  }

  /** The stream from position `i` prices category `i` first. */
  lemma PriceAllStep(ks: Keyspace<string>, events: seq<Event>, cats: seq<TicketCategory>, i: nat)
    requires AllInt32(cats) && i < |cats|
    ensures AllInt32(cats[i..]) && AllInt32(cats[i + 1..])
    ensures var first := PriceCategory(ks, events, cats[i]);
      PriceAll(ks, events, cats[i..]) ==
        if first.1.Thrown? then (first.0, Thrown(first.1.failure))
        else Continued([first.1.value], PriceAll(first.0, events, cats[i + 1..]))
  {
    assert cats[i..][1..] == cats[i + 1..];
  }

  /** Gathering one more item before the rest is gathering it after the items so far. */
  lemma ContinuedJoin(items: seq<PricingItem>, x: PricingItem, rest: (Keyspace<string>, Outcome<seq<PricingItem>>))
    ensures Continued(items, Continued([x], rest)) == Continued(items + [x], rest)
  {
    if rest.1.Success? {
      assert items + ([x] + rest.1.value) == (items + [x]) + rest.1.value;
    }
  }

  /** One turn of the stream: either it throws, or its item joins those gathered so far. */
  lemma ContinueStep(whole: (Keyspace<string>, Outcome<seq<PricingItem>>), ks: Keyspace<string>, events: seq<Event>,
                     cats: seq<TicketCategory>, i: nat, items: seq<PricingItem>, ks1: Keyspace<string>, item: Outcome<PricingItem>)
    requires AllInt32(cats) && i < |cats|
    requires AllInt32(cats[i..]) && whole == Continued(items, PriceAll(ks, events, cats[i..]))
    requires (ks1, item) == PriceCategory(ks, events, cats[i])
    ensures AllInt32(cats[i + 1..])
    ensures item.Thrown? ==> whole == (ks1, Thrown(item.failure))
    ensures item.Success? ==> whole == Continued(items + [item.value], PriceAll(ks1, events, cats[i + 1..]))
  {
    PriceAllStep(ks, events, cats, i);
    if item.Success? {
      ContinuedJoin(items, item.value, PriceAll(ks1, events, cats[i + 1..]));
    }
  }

  lemma ContinuedNothing(rest: (Keyspace<string>, Outcome<seq<PricingItem>>))
    ensures Continued([], rest) == rest
  {
    if rest.1.Success? {
      assert [] + rest.1.value == rest.1.value;
    }
  }

  const NoData: Failure := ServiceError(Postgre, DataNotFound)

  /** getRealTimePricing: DATA_NOT_FOUND for an event without categories. */
  function Pricing(ks: Keyspace<string>, t: Tables, eventId: Uuid): (r: (Keyspace<string>, Outcome<seq<PricingItem>>))
    requires AllInt32(t.categories)
    ensures CategoryRepository.FindByEventId(t.categories, eventId) == [] <==> r == (ks, Thrown(NoData))
    ensures r.1.Success? ==> |r.1.value| == |CategoryRepository.FindByEventId(t.categories, eventId)|
    ensures r.1.Success? ==> forall i :: 0 <= i < |r.1.value| ==>
      var c := CategoryRepository.FindByEventId(t.categories, eventId)[i];
      r.1.value[i].categoryId == c.id && c.eventId == eventId && Int32Columns(c) && IsInt32(r.1.value[i].availableStock)
      && r.1.value[i].currentPrice == CalculateSurge(c.price, CategoryRepository.AllocationOf(c), r.1.value[i].availableStock)
  {
    var cats := CategoryRepository.FindByEventId(t.categories, eventId);
    assert AllInt32(cats) by {
      forall k | 0 <= k < |cats| ensures Int32Columns(cats[k]) {
        assert cats[k] in t.categories;
      }
    }
    if cats == [] then (ks, Thrown(NoData))
    else
      var r := PriceAll(ks, t.events, cats);
      assert r.1 != Thrown(NoData) by {
        PriceAllFailures(ks, t.events, cats);
      }
      r
  }

  /** An event with categories is priced by the stream over them. */
  lemma PricingOfEvent(ks: Keyspace<string>, t: Tables, eventId: Uuid)
    requires AllInt32(t.categories)
    ensures AllInt32(CategoryRepository.FindByEventId(t.categories, eventId))
    ensures CategoryRepository.FindByEventId(t.categories, eventId) != [] ==>
      Pricing(ks, t, eventId) == PriceAll(ks, t.events, CategoryRepository.FindByEventId(t.categories, eventId))
  {
    var cats := CategoryRepository.FindByEventId(t.categories, eventId);
    forall k | 0 <= k < |cats| ensures Int32Columns(cats[k]) {
      assert cats[k] in t.categories;
    }
  }

  /** A stream over categories fails only with what the cache or the parsing throws. */
  lemma {:induction false} PriceAllFailures(ks: Keyspace<string>, events: seq<Event>, cats: seq<TicketCategory>)
    requires AllInt32(cats)
    ensures PriceAll(ks, events, cats).1.Thrown? ==>
      PriceAll(ks, events, cats).1.failure.Unhandled?
    decreases |cats|
  {
    if cats != [] {
      var (ks1, first) := PriceCategory(ks, events, cats[0]);
      if first.Success? {
        PriceAllFailures(ks1, events, cats[1..]);
      }
    }
  }

  /** getRealTimePricingForCategory(id): DATA_NOT_FOUND for an unknown category. */
  function PricingForCategory(ks: Keyspace<string>, t: Tables, categoryId: Uuid): (r: (Keyspace<string>, Outcome<PricingItem>))
    requires AllInt32(t.categories)
    ensures CategoryRepository.FindById(t.categories, categoryId).None? <==> r == (ks, Thrown(NoData))
    ensures r.1.Success? ==> r.1.value.categoryId == categoryId
    // a known category is priced exactly as the loaded-category overload prices it
    ensures var found := CategoryRepository.FindById(t.categories, categoryId);
      found.Some? ==> Int32Columns(found.value) && r == PriceCategory(ks, t.events, found.value)
  {
    match CategoryRepository.FindById(t.categories, categoryId)
    case None => (ks, Thrown(NoData))
    case Some(c) =>
      assert Int32Columns(c) by {
        var k := CategoryRepository.IndexOf(t.categories, categoryId).value;
        assert c == t.categories[k];
      }
      var r := PriceCategory(ks, t.events, c);
      assert r.1 != Thrown(NoData);
      r
  }

  class PricingService {
    const db: Database
    const cache: StringCache

    constructor (db: Database, cache: StringCache)
      ensures this.db == db && this.cache == cache
    {
      this.db := db;
      this.cache := cache;
    }

    method GetRealTimePricing(eventId: Uuid) returns (r: Outcome<seq<PricingItem>>)
      requires AllInt32(db.categories)
      modifies cache
      ensures (cache.State(), r) == Pricing(old(cache.State()), db.State(), eventId)
    {
      var cats := CategoryRepository.FindByEventId(db.categories, eventId);
      PricingOfEvent(cache.State(), db.State(), eventId);
      if |cats| == 0 {
        return Thrown(NoData);
      }
      ghost var start := cache.State();
      var items: seq<PricingItem> := [];
      var i := 0;
      assert cats[0..] == cats;
      ContinuedNothing(PriceAll(start, db.events, cats));
      while i < |cats|
        invariant 0 <= i <= |cats|
        invariant PriceAll(start, db.events, cats) == Continued(items, PriceAll(cache.State(), db.events, cats[i..]))
      {
        ghost var before := cache.State();
        var item := PriceOf(cats[i]);
        ContinueStep(PriceAll(start, db.events, cats), before, db.events, cats, i, items, cache.State(), item);
        if item.Thrown? {
          return Thrown(item.failure);
        }
        items := items + [item.value];
        i := i + 1;
      }
      assert cats[i..] == [];
      assert items + [] == items;
      r := Success(items);
    }

    method GetRealTimePricingForCategory(categoryId: Uuid) returns (r: Outcome<PricingItem>)
      requires AllInt32(db.categories)
      modifies cache
      ensures (cache.State(), r) == PricingForCategory(old(cache.State()), db.State(), categoryId)
    {
      var found := CategoryRepository.FindById(db.categories, categoryId);
      if found.None? {
        return Thrown(NoData);
      }
      var k := CategoryRepository.IndexOf(db.categories, categoryId).value;
      assert found.value == db.categories[k];
      r := PriceOf(found.value);
    }

    /** The private overload on a loaded category. */
    method PriceOf(c: TicketCategory) returns (r: Outcome<PricingItem>)
      requires Int32Columns(c)
      modifies cache
      ensures (cache.State(), r) == PriceCategory(old(cache.State()), db.events, c)
    {
      var key := StockKey(c.id);
      var cached := cache.Read(key);
      if cached.Thrown? {
        return Thrown(cached.failure);
      }
      if cached.value.None? {
        var stock := c.availableStock.GetOr(0);
        var _ := cache.Write(key, Decimal.IntToString(stock), Some(StockTtlSeconds));
        return Success(ItemFor(db.events, c, stock));
      }
      var parsed := Decimal.ParseInt(cached.value.value);
      if parsed.None? {
        return Thrown(NotANumeral(cached.value.value));
      }
      r := Success(ItemFor(db.events, c, parsed.value));
    }
  }
}
