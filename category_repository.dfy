/**
 * TicketCategoryRepository: the queries over the ticket_categories table, stated on the
 * table's rows in storage order.
 */
module CategoryRepository {
  import opened Wrappers
  import opened Model
  import Sequences

  /** The primary key: no two rows share an id. */
  ghost predicate UniqueIds(cats: seq<TicketCategory>) {
    forall i, j :: 0 <= i < j < |cats| ==> cats[i].id != cats[j].id
  }

  /** `getAvailableStock()` with null read as 0, as the services do. */
  function StockOf(c: TicketCategory): int {
    c.availableStock.GetOr(0)
  }

  /** `getTotalAllocation()` with null read as 0. */
  function AllocationOf(c: TicketCategory): int {
    c.totalAllocation.GetOr(0)
  }

  /** The stocks of some categories, null read as 0, in order. */
  function Stocks(cs: seq<TicketCategory>): (r: seq<int>)
    ensures |r| == |cs| && forall i :: 0 <= i < |cs| ==> r[i] == StockOf(cs[i])
  {
    seq(|cs|, i requires 0 <= i < |cs| => StockOf(cs[i]))
  }

  /** The allocations of some categories, null read as 0, in order. */
  function Allocations(cs: seq<TicketCategory>): (r: seq<int>)
    ensures |r| == |cs| && forall i :: 0 <= i < |cs| ==> r[i] == AllocationOf(cs[i])
  {
    seq(|cs|, i requires 0 <= i < |cs| => AllocationOf(cs[i]))
  }

  /** The selection findByEventId makes: the category belongs to the event. */
  function ForEvent(eventId: Uuid): TicketCategory -> bool {
    (c: TicketCategory) => c.eventId == eventId
  }

  /** findByEventId: the categories of one event, in table order. */
  function FindByEventId(cats: seq<TicketCategory>, eventId: Uuid): (r: seq<TicketCategory>)
    ensures forall c :: c in r <==> c in cats && c.eventId == eventId
    ensures forall i :: 0 <= i < |r| ==> r[i].eventId == eventId
  {
    Sequences.Filter(cats, ForEvent(eventId))
  }

  /** The primary-key column. */
  function RowId(c: TicketCategory): Uuid {
    c.id
  }

  /** findById: the position of the first row with the id, if any. */
  function IndexOf(cats: seq<TicketCategory>, id: Uuid): Option<nat> {
    Sequences.IndexBy(cats, RowId, id)
  }

  /** findById: the stored category with the id, if there is one. */
  function FindById(cats: seq<TicketCategory>, id: Uuid): (r: Option<TicketCategory>)
    ensures r.Some? ==> r.value in cats && r.value.id == id
    ensures r.None? <==> forall c :: c in cats ==> c.id != id
  {
    match IndexOf(cats, id)
    case Some(k) => Some(cats[k])
    case None => None
  }

  /**
   * The WHERE clause of decreaseStock: the row has the id and `availableStock >= qty`
   * (a NULL stock compares as unknown and so never matches).
   */
  predicate CanDecrease(c: TicketCategory, id: Uuid, qty: int) {
    c.id == id && c.availableStock.Some? && c.availableStock.value >= qty
  }

  /** The table after decreaseStock's UPDATE: every matching row loses `qty`. */
  function AfterDecrease(cats: seq<TicketCategory>, id: Uuid, qty: int): (r: seq<TicketCategory>)
    ensures |r| == |cats|
    // only availableStock can change, and it stays null or non-null as it was
    ensures forall k :: 0 <= k < |r| ==>
      r[k] == cats[k].(availableStock := r[k].availableStock) && r[k].availableStock.Some? == cats[k].availableStock.Some?
    ensures forall k :: 0 <= k < |r| && !CanDecrease(cats[k], id, qty) ==> r[k] == cats[k]
    // the guard is the oversell protection: a decreased row never ends below zero
    ensures forall k :: 0 <= k < |r| && CanDecrease(cats[k], id, qty) ==>
      StockOf(r[k]) == StockOf(cats[k]) - qty && StockOf(r[k]) >= 0
  {
    seq(|cats|, k requires 0 <= k < |cats| =>
      if CanDecrease(cats[k], id, qty)
      then cats[k].(availableStock := Some(cats[k].availableStock.value - qty))
      else cats[k])
  }

  /** After increaseStock, findById shows the row with `qty` more on sale, and every other row as it was. */
  lemma IncreasedIsFound(cats: seq<TicketCategory>, id: Uuid, qty: int, c: TicketCategory)
    requires FindById(cats, id) == Some(c) && c.availableStock.Some?
    ensures FindById(AfterIncrease(cats, id, qty), id) == Some(c.(availableStock := Some(StockOf(c) + qty)))
    ensures forall x :: x != id ==> FindById(AfterIncrease(cats, id, qty), x) == FindById(cats, x)
  {
    var r := AfterIncrease(cats, id, qty);
    forall x
      ensures IndexOf(r, x) == IndexOf(cats, x)
    {
      Sequences.IndexBySameKeys(r, cats, RowId, x);
    }
  }

  /** decreaseStock's result: the number of rows its UPDATE changed. */
  function RowsDecreased(cats: seq<TicketCategory>, id: Uuid, qty: int): nat {
    Sequences.Count(cats, (c: TicketCategory) => CanDecrease(c, id, qty))
  }

  /** The table after increaseStock's UPDATE: every row with the id gains `qty` (NULL stays NULL). */
  function AfterIncrease(cats: seq<TicketCategory>, id: Uuid, qty: int): (r: seq<TicketCategory>)
    ensures |r| == |cats|
    ensures forall k :: 0 <= k < |r| ==>
      r[k] == cats[k].(availableStock := r[k].availableStock) && r[k].availableStock.Some? == cats[k].availableStock.Some?
    ensures forall k :: 0 <= k < |r| && cats[k].id != id ==> r[k] == cats[k]
    // no upper bound: the stock may pass totalAllocation
    ensures forall k :: 0 <= k < |r| && cats[k].id == id && cats[k].availableStock.Some? ==>
      StockOf(r[k]) == StockOf(cats[k]) + qty
  {
    seq(|cats|, k requires 0 <= k < |cats| =>
      if cats[k].id == id && cats[k].availableStock.Some?
      then cats[k].(availableStock := Some(cats[k].availableStock.value + qty))
      else cats[k])
  }

  /** A row counted by decreaseStock exists, so the lookup that follows finds it. */
  lemma DecreasedRowExists(cats: seq<TicketCategory>, id: Uuid, qty: int)
    requires RowsDecreased(cats, id, qty) > 0
    ensures IndexOf(cats, id).Some?
    ensures exists k :: 0 <= k < |cats| && CanDecrease(cats[k], id, qty)
  {
    Sequences.CountPositive(cats, (c: TicketCategory) => CanDecrease(c, id, qty));
  }

  /** When decreaseStock reports no row, its UPDATE changed nothing. */
  lemma NothingDecreased(cats: seq<TicketCategory>, id: Uuid, qty: int)
    requires RowsDecreased(cats, id, qty) == 0
    ensures AfterDecrease(cats, id, qty) == cats
  {
    forall k | 0 <= k < |cats|
      ensures !CanDecrease(cats[k], id, qty)
    {
      if CanDecrease(cats[k], id, qty) {
        Sequences.CountWitness(cats, (c: TicketCategory) => CanDecrease(c, id, qty), k);
      }
    }
  }

  /** increaseStock's result: every row with the id is matched, whatever its stock. */
  function RowsIncreased(cats: seq<TicketCategory>, id: Uuid): nat {
    Sequences.Count(cats, (c: TicketCategory) => c.id == id)
  }

  /**
   * Under the primary key decreaseStock reports 1 exactly when the row exists and holds at
   * least `qty`, and 0 otherwise.
   */
  lemma DecreaseReportsOneRow(cats: seq<TicketCategory>, id: Uuid, qty: int)
    requires UniqueIds(cats)
    ensures RowsDecreased(cats, id, qty) <= 1
    ensures RowsDecreased(cats, id, qty) == 1 <==> exists k :: 0 <= k < |cats| && CanDecrease(cats[k], id, qty)
  {
    var p := (c: TicketCategory) => CanDecrease(c, id, qty);
    match IndexOf(cats, id)
    case None =>
      Sequences.CountNone(cats, p);
    case Some(k) =>
      Sequences.CountOnlyAt(cats, p, k);
  }

  /** Under the primary key increaseStock reports 1 for an existing id and 0 for an unknown one. */
  lemma IncreaseReportsOneRow(cats: seq<TicketCategory>, id: Uuid)
    requires UniqueIds(cats)
    ensures RowsIncreased(cats, id) == if IndexOf(cats, id).Some? then 1 else 0
  {
    var p := (c: TicketCategory) => c.id == id;
    match IndexOf(cats, id)
    case None =>
      Sequences.CountNone(cats, p);
    case Some(k) =>
      Sequences.CountOnlyAt(cats, p, k);
  }

  /** A successful decreaseStock(id, q) followed by increaseStock(id, q) restores the table. */
  lemma DecreaseThenIncrease(cats: seq<TicketCategory>, id: Uuid, qty: int)
    requires UniqueIds(cats)
    requires RowsDecreased(cats, id, qty) > 0
    ensures AfterIncrease(AfterDecrease(cats, id, qty), id, qty) == cats
  {
    Sequences.CountPositive(cats, (c: TicketCategory) => CanDecrease(c, id, qty));
    var k :| 0 <= k < |cats| && CanDecrease(cats[k], id, qty);
    var r := AfterIncrease(AfterDecrease(cats, id, qty), id, qty);
    forall i | 0 <= i < |cats|
      ensures r[i] == cats[i]
    {
      if i != k {
        assert cats[i].id != id;
      }
    }
  }

  /** save of a managed category: the row with its id is replaced. */
  function Saved(cats: seq<TicketCategory>, c: TicketCategory): (r: seq<TicketCategory>)
    ensures |r| == |cats|
    ensures forall k :: 0 <= k < |cats| ==> r[k] == if cats[k].id == c.id then c else cats[k]
  {
    seq(|cats|, k requires 0 <= k < |cats| => if cats[k].id == c.id then c else cats[k])
  }
}
