/**
 * AnalyticsService: the dashboard. For each concert the allocations and the stocks of its
 * categories are summed as Java `int`s; their difference is the number of tickets sold and,
 * over the allocation, the occupancy in percent (0 when nothing is allocated). A null column
 * cannot be unboxed and fails the whole dashboard.
 */
module Analytics {
  import opened Wrappers
  import opened Model
  import opened Errors
  import Decimal
  import Accounting
  import CategoryRepository
  import opened Store

  /** One element of concertAnalytics; the percentage is kept exact rather than formatted. */
  datatype ConcertStats = ConcertStats(concertName: Option<string>, soldTickets: int, occupancyRate: real)

  /** The dashboard map. */
  datatype Dashboard = Dashboard(totalBookings: nat, concertAnalytics: seq<ConcertStats>)

  /** Unboxing a null Integer column. */
  const NullColumn: Failure := Unhandled(NullPointer, "")

  /** Neither Integer column of any of the categories is null. */
  predicate NoNullColumns(cs: seq<TicketCategory>) {
    forall i :: 0 <= i < |cs| ==> cs[i].totalAllocation.Some? && cs[i].availableStock.Some?
  }

  /** `totalAllocation > 0 ? (double) sold / totalAllocation * 100 : 0`. */
  function Occupancy(sold: int, total: int): (r: real)
    ensures total <= 0 ==> r == 0.0
    ensures 0 <= sold <= total ==> 0.0 <= r <= 100.0
  {
    if total > 0 then (sold as real) / (total as real) * 100.0 else 0.0
  }

  /**
   * The stats of one concert. Wrapping after every `int` addition and subtraction comes to the
   * exact difference of the two sums reduced once into the `int` range.
   */
  function StatsOf(t: Tables, e: Event): (r: Outcome<ConcertStats>)
    ensures var cs := CategoryRepository.FindByEventId(t.categories, e.id);
      && (r.Success? <==> NoNullColumns(cs))
      && (r.Thrown? ==> r == Thrown(NullColumn))
      && (r.Success? ==>
            && r.value.concertName == e.name
            && r.value.soldTickets == Decimal.Int32Wrap(
                 Decimal.Sum(CategoryRepository.Allocations(cs)) - Decimal.Sum(CategoryRepository.Stocks(cs))))
  {
    var cs := CategoryRepository.FindByEventId(t.categories, e.id);
    if !NoNullColumns(cs) then Thrown(NullColumn)
    else
      var allocations, stocks := CategoryRepository.Allocations(cs), CategoryRepository.Stocks(cs);
      var total := Decimal.Int32Sum(allocations);
      var stock := Decimal.Int32Sum(stocks);
      Decimal.Int32WrapDifference(Decimal.Sum(allocations), Decimal.Sum(stocks));
      var sold := Decimal.Int32Wrap(total - stock);
      Success(ConcertStats(e.name, sold, Occupancy(sold, total)))
  }

  /** The stats of each concert in turn; the first null column fails them all. */
  function AllStats(t: Tables, events: seq<Event>): (r: Outcome<seq<ConcertStats>>)
    ensures r.Success? <==> forall i :: 0 <= i < |events| ==> StatsOf(t, events[i]).Success?
    ensures r.Thrown? ==> r == Thrown(NullColumn)
    ensures r.Success? ==> |r.value| == |events| && forall i :: 0 <= i < |events| ==> r.value[i] == StatsOf(t, events[i]).value
    decreases |events|
  {
    if events == [] then Success([])
    else
      match StatsOf(t, events[0])
      case Thrown(failure) => Thrown(failure)
      case Success(first) =>
        match AllStats(t, events[1..])
        case Thrown(failure) => Thrown(failure)
        case Success(rest) => Success([first] + rest)
  }

  /** getDashboardStats: the number of bookings and one entry per concert, in table order. */
  function DashboardStats(t: Tables): (r: Outcome<Dashboard>)
    ensures r.Success? ==> r.value.totalBookings == |t.bookings| && |r.value.concertAnalytics| == |t.events|
    ensures r.Success? <==> forall i :: 0 <= i < |t.events| ==> StatsOf(t, t.events[i]).Success?
  {
    match AllStats(t, t.events)
    case Thrown(failure) => Thrown(failure)
    case Success(stats) => Success(Dashboard(|t.bookings|, stats))
  }

  /** The seats the bookings hold over some categories. */
  function HeldSeats(bs: seq<Booking>, cs: seq<TicketCategory>): int
    decreases |cs|
  {
    if cs == [] then 0 else HeldSeats(bs, cs[..|cs| - 1]) + Accounting.Reserved(bs, cs[|cs| - 1].id)
  }

  /** Over balanced categories, allocation minus stock is what the bookings hold. */
  lemma {:induction false} DifferenceIsHeld(bs: seq<Booking>, cs: seq<TicketCategory>)
    requires forall i :: 0 <= i < |cs| ==> Balanced(cs[i], bs)
    ensures Decimal.Sum(CategoryRepository.Allocations(cs)) - Decimal.Sum(CategoryRepository.Stocks(cs)) == HeldSeats(bs, cs)
    decreases |cs|
  {
    if cs != [] {
      var n := |cs| - 1;
      assert CategoryRepository.Allocations(cs)[..n] == CategoryRepository.Allocations(cs[..n]);
      assert CategoryRepository.Stocks(cs)[..n] == CategoryRepository.Stocks(cs[..n]);
      DifferenceIsHeld(bs, cs[..n]);
    }
  }

  /** With no booking of non-positive quantity, the held seats are not negative. */
  lemma {:induction false} HeldNonNegative(bs: seq<Booking>, cs: seq<TicketCategory>)
    requires forall j :: 0 <= j < |bs| ==> bs[j].quantity > 0
    ensures HeldSeats(bs, cs) >= 0
    decreases |cs|
  {
    if cs != [] {
      HeldNonNegative(bs, cs[..|cs| - 1]);
      Accounting.ReservedNonNegative(bs, cs[|cs| - 1].id);
    }
  }

  /** The categories of a concert are rows of the table, so conservation balances each of them. */
  lemma ConcertBalanced(t: Tables, e: Event)
    requires Conserved(t)
    ensures var cs := CategoryRepository.FindByEventId(t.categories, e.id);
      forall i :: 0 <= i < |cs| ==> Balanced(cs[i], t.bookings)
  {
    var cs := CategoryRepository.FindByEventId(t.categories, e.id);
    forall i | 0 <= i < |cs|
      ensures Balanced(cs[i], t.bookings)
    {
      assert cs[i] in t.categories;
      var k :| 0 <= k < |t.categories| && t.categories[k] == cs[i];
    }
  }

  /**
   * With stock conserved, soldTickets is the number of seats the concert's bookings hold,
   * reduced into the `int` range; exactly that number when it fits.
   */
  lemma SoldEqualsHeld(t: Tables, e: Event)
    requires Conserved(t)
    requires StatsOf(t, e).Success?
    ensures var held := HeldSeats(t.bookings, CategoryRepository.FindByEventId(t.categories, e.id));
      && StatsOf(t, e).value.soldTickets == Decimal.Int32Wrap(held)
      && (Decimal.Int32Min <= held <= Decimal.Int32Max ==> StatsOf(t, e).value.soldTickets == held)
  {
    ConcertBalanced(t, e);
    DifferenceIsHeld(t.bookings, CategoryRepository.FindByEventId(t.categories, e.id));
  }

  /**
   * With stock conserved, nothing oversold and the allocations summing within the `int`
   * range, no count wraps and the occupancy is a percentage between 0 and 100.
   */
  lemma OccupancyIsPercentage(t: Tables, e: Event)
    requires Conserved(t) && NoOversell(t)
    requires StatsOf(t, e).Success?
    requires var cs := CategoryRepository.FindByEventId(t.categories, e.id);
      Decimal.Int32Min <= Decimal.Sum(CategoryRepository.Allocations(cs)) <= Decimal.Int32Max
    ensures 0.0 <= StatsOf(t, e).value.occupancyRate <= 100.0
  {
    var cs := CategoryRepository.FindByEventId(t.categories, e.id);
    var allocations, stocks := CategoryRepository.Allocations(cs), CategoryRepository.Stocks(cs);
    ConcertBalanced(t, e);
    DifferenceIsHeld(t.bookings, cs);
    HeldNonNegative(t.bookings, cs);
    forall i | 0 <= i < |stocks|
      ensures stocks[i] >= 0
    {
      assert cs[i] in t.categories;
      var k :| 0 <= k < |t.categories| && t.categories[k] == cs[i];
    }
    Decimal.SumNonNegative(stocks);
    var total := Decimal.Int32Sum(allocations);
    var sold := StatsOf(t, e).value.soldTickets;
    assert total == Decimal.Sum(allocations);
    assert 0 <= sold <= total;
  }
}
