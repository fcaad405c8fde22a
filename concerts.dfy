/**
 * ConcertService: the concert catalogue. Listings and details are read through a response
 * cache (cache-aside: a hit is returned as stored, a miss is computed from the tables and
 * stored with a TTL); creation writes a new event, and an update merges the request's
 * non-null fields into the stored event and evicts that concert's detail entry.
 *
 * Instants are seconds. A zone is given by its id and resolved through a table of fixed
 * offsets from UTC; `withZoneSameLocal` keeps the wall-clock reading and changes the zone,
 * so the instant stored is the request's reading taken in the named zone.
 */
module Concerts {
  import opened Wrappers
  import opened Model
  import opened Errors
  import Decimal
  import Text
  import Sequences
  import CategoryRepository
  import EventRepository
  import VenueRepository
  import opened Store
  import opened Redis
  import opened ConcertKeys

  /** A listing is cached for five minutes, a detail for ten. */
  const ListingTtlSeconds: int := 5 * 60
  const DetailTtlSeconds: int := 10 * 60

  /** The status of a concert created without one. */
  const DefaultStatus: string := "UPCOMING"

  /** A ZonedDateTime: a wall-clock reading and the offset from UTC it is read at, in seconds. */
  datatype ZonedTime = ZonedTime(local: int, offset: int) {
    /** The instant the reading denotes. */
    function Instant(): Timestamp {
      local - offset
    }

    /** The same wall-clock reading in a zone with another offset. */
    function WithZoneSameLocal(zoneOffset: int): ZonedTime {
      ZonedTime(local, zoneOffset)
    }
  }

  /** ConcertRequest.TicketCategory: one category as requests carry it and responses show it. */
  datatype CategoryView = CategoryView(categoryName: Option<string>, basePrice: Money, totalAllocation: Option<int>)

  /** One concert in a response. */
  datatype ConcertData = ConcertData(
    id: Option<Uuid>,
    concertName: Option<string>,
    artist: Option<string>,
    venueName: Option<string>,
    venueCapacity: Option<int>,
    datetime: Timestamp,
    status: Option<string>,
    categories: seq<CategoryView>)

  /** The response body of both reads; this is also what the cache stores. */
  datatype ConcertResponse = ConcertResponse(status: string, code: string, message: string, data: seq<ConcertData>)

  /** The body of a create or update request; every field may be null. */
  datatype ConcertRequest = ConcertRequest(
    name: Option<string>,
    artist: Option<string>,
    venue: Option<string>,
    datetime: Option<ZonedTime>,
    status: Option<string>,
    timezone: Option<string>,
    categories: Option<seq<CategoryView>>,
    description: Option<string>)

  /** The failures the service raises. */
  const NoData: Failure := ServiceError(Postgre, DataNotFound)
  const ListingFailed: Failure := ServiceError(Postgre, FailedConnectToBackend)
  const DetailFailed: Failure := ServiceError(Microservice, FailedConnectToBackend)
  const CreationFailed: Failure := ServiceError(Microservice, FailedConnectToBackend)
  const UpdateFailed: Failure := ServiceError(Postgre, FailedConnectToBackend)

  // ---------------------------------------------------------------- search

  /** `lower(column) LIKE '%' || lower(filter) || '%'`; a NULL column never matches. */
  predicate Like(column: Option<string>, filter: string) {
    column.Some? && Text.Contains(Text.Lower(column.value), Text.Lower(filter))
  }

  /** The venue an event references, if it has one. */
  function VenueOf(t: Tables, e: Event): Option<Venue> {
    EventRepository.VenueById(t.venues, e.venueId)
  }

  /**
   * The query's criteria: each non-null filter adds one condition and all must hold. The venue
   * condition joins the venue, so an event without one never matches it.
   */
  predicate Matches(t: Tables, e: Event, f: ConcertFilter) {
    && (f.name.Some? ==> Like(e.name, f.name.value))
    && (f.artist.Some? ==> e.artist.Some? && Text.Lower(e.artist.value) == Text.Lower(f.artist.value))
    && (f.venueName.Some? ==> VenueOf(t, e).Some? && Like(VenueOf(t, e).value.name, f.venueName.value))
    && (f.start.Some? ==> e.eventDate >= f.start.value)
    && (f.end.Some? ==> e.eventDate <= f.end.value)
  }

  /** The `int` sum of the available stock of an event's categories, null read as 0. */
  function AvailableSeats(cats: seq<TicketCategory>, eventId: Uuid): int {
    Decimal.Int32Sum(CategoryRepository.Stocks(CategoryRepository.FindByEventId(cats, eventId)))
  }

  /** At least `minCap` seats are on sale. */
  predicate HasSeats(cats: seq<TicketCategory>, e: Event, minCap: int) {
    AvailableSeats(cats, e.id) >= minCap
  }

  /** The events the query returns, in table order. */
  function Queried(t: Tables, f: ConcertFilter): seq<Event> {
    var criteria := f.(minCap := None);
    Sequences.Filter(t.events, (e: Event) => Matches(t, e, criteria))
  }

  /** The listing's events: the query's result, then the minCap post-filter when minCap is given. */
  function Search(t: Tables, f: ConcertFilter): (r: seq<Event>)
    ensures forall e :: e in r <==>
      && e in t.events
      && Matches(t, e, f)
      && (f.minCap.Some? ==> HasSeats(t.categories, e, f.minCap.value))
  {
    match f.minCap
    case None => Queried(t, f)
    case Some(m) => Sequences.Filter(Queried(t, f), (e: Event) => HasSeats(t.categories, e, m))
  }

  /** Without minCap nothing is post-filtered; with it, the post-filter only drops events, in order. */
  lemma PostFilter(t: Tables, f: ConcertFilter)
    ensures f.minCap.None? ==> Search(t, f) == Queried(t, f)
    ensures f.minCap.Some? ==>
      Search(t, f) == Sequences.Filter(Search(t, f.(minCap := None)), (e: Event) => HasSeats(t.categories, e, f.minCap.value))
  {
  }

  /** Raising minCap never adds an event to a listing. */
  lemma MinCapMonotone(t: Tables, f: ConcertFilter, low: int, high: int)
    requires low <= high
    ensures forall e :: e in Search(t, f.(minCap := Some(high))) ==> e in Search(t, f.(minCap := Some(low)))
  {
    var lo, hi := f.(minCap := Some(low)), f.(minCap := Some(high));
    forall e | e in Search(t, hi)
      ensures e in Search(t, lo)
    {
      assert Matches(t, e, hi) == Matches(t, e, lo);
    }
  }

  // ---------------------------------------------------------------- responses

  function CategoryViewOf(c: TicketCategory): CategoryView {
    CategoryView(c.name, c.price, c.totalAllocation)
  }

  /** The categories of a response, in table order. */
  function CategoryViews(cs: seq<TicketCategory>): (r: seq<CategoryView>)
    ensures |r| == |cs| && forall i :: 0 <= i < |cs| ==> r[i] == CategoryViewOf(cs[i])
  {
    seq(|cs|, i requires 0 <= i < |cs| => CategoryViewOf(cs[i]))
  }

  /** One concert as a response shows it; the venue fields stay null when there is no venue. */
  function DataOf(t: Tables, e: Event, id: Option<Uuid>): ConcertData {
    var v := VenueOf(t, e);
    ConcertData(id, e.name, e.artist,
      if v.Some? then v.value.name else None,
      if v.Some? then v.value.capacity else None,
      e.eventDate, e.status,
      CategoryViews(CategoryRepository.FindByEventId(t.categories, e.id)))
  }

  /** The listing response: one concert per event, with its id, and the count in the message. */
  function ListResponse(t: Tables, events: seq<Event>): (r: ConcertResponse)
    ensures |r.data| == |events| && forall i :: 0 <= i < |events| ==> r.data[i] == DataOf(t, events[i], Some(events[i].id))
  {
    ConcertResponse("Success", "00", "Retrieved " + Decimal.IntToString(|events|) + " concerts",
      seq(|events|, i requires 0 <= i < |events| => DataOf(t, events[i], Some(events[i].id))))
  }

  /** The detail response: the one concert, without its id. */
  function DetailResponse(t: Tables, e: Event): ConcertResponse {
    ConcertResponse("Success", "00", "Concert detail retrieved successfully", [DataOf(t, e, None)])
  }

  // ---------------------------------------------------------------- cached reads

  /**
   * getAllConcerts under a given cache key: a hit is returned as stored; a miss runs the
   * search and stores the response for five minutes. A cache that cannot be reached fails
   * the whole read.
   */
  function ListingAt(ks: Keyspace<ConcertResponse>, t: Tables, f: ConcertFilter, key: string)
    : (r: (Keyspace<ConcertResponse>, Outcome<ConcertResponse>))
    ensures !ks.up ==> r == (ks, Thrown(ListingFailed))
    ensures ks.up && key in ks.entries ==> r == (ks, Success(ks.entries[key].value))
    ensures ks.up && key !in ks.entries ==>
      && r.1 == Success(ListResponse(t, Search(t, f)))
      && r.0 == ks.(entries := ks.entries[key := Entry(r.1.value, Some(ListingTtlSeconds))])
  {
    match Get(ks, key)
    case Thrown(_) => (ks, Thrown(ListingFailed))
    case Success(Some(cached)) => (ks, Success(cached))
    case Success(None) =>
      var response := ListResponse(t, Search(t, f));
      (Set(ks, key, response, Some(ListingTtlSeconds)).0, Success(response))
  }

  /** getAllConcerts as written: keyed by the `%s` rendering of the six filters. */
  function ListingAsWritten(ks: Keyspace<ConcertResponse>, t: Tables, f: ConcertFilter)
    : (Keyspace<ConcertResponse>, Outcome<ConcertResponse>)
  {
    ListingAt(ks, t, f, ListKeyAsWritten(f))
  }

  /** getAllConcerts with the corrected, unambiguous key. */
  function Listing(ks: Keyspace<ConcertResponse>, t: Tables, f: ConcertFilter)
    : (Keyspace<ConcertResponse>, Outcome<ConcertResponse>)
  {
    ListingAt(ks, t, f, ListKey(f))
  }

  /** Once a listing is cached, the same filters get the same response whatever the tables hold. */
  lemma ListingIsCached(ks: Keyspace<ConcertResponse>, t: Tables, later: Tables, f: ConcertFilter)
    ensures var first := Listing(ks, t, f);
      Listing(first.0, later, f) == first
  {
  }

  /**
   * With the key as written, the listing of all concerts is also served for the name filter
   * "null", since both filters render to the same key.
   */
  lemma AsWrittenServesUnfilteredListing(ks: Keyspace<ConcertResponse>, t: Tables)
    ensures var everything := ConcertFilter(None, None, None, None, None, None);
      var named := everything.(name := Some("null"));
      var first := ListingAsWritten(ks, t, everything);
      ListingAsWritten(first.0, t, named) == first
  {
    NullNameCollides();
  }

  /** An event named "Rock" matches no name filter "null", yet the as-written listing shows it. */
  lemma NullNameFilterMisreported(ks: Keyspace<ConcertResponse>, t: Tables, rock: Event)
    requires ks.up && ListKeyAsWritten(ConcertFilter(None, None, None, None, None, None)) !in ks.entries
    requires t.events == [rock] && rock.name == Some("Rock")
    ensures var everything := ConcertFilter(None, None, None, None, None, None);
      var named := everything.(name := Some("null"));
      var served := ListingAsWritten(ListingAsWritten(ks, t, everything).0, t, named).1;
      && Search(t, named) == []
      && served == Success(ListResponse(t, [rock]))
  {
    var everything := ConcertFilter(None, None, None, None, None, None);
    var named := everything.(name := Some("null"));
    AsWrittenServesUnfilteredListing(ks, t);
    assert Matches(t, rock, everything);
    assert Search(t, everything) == [rock] by {
      Sequences.FilterAll(t.events, (e: Event) => Matches(t, e, everything));
    }
    RockIsNotNamedNull(t, rock);
    Sequences.FilterNone(t.events, (e: Event) => Matches(t, e, named));
  }

  /** The name filter "null" does not match an event named "Rock". */
  lemma RockIsNotNamedNull(t: Tables, rock: Event)
    requires rock.name == Some("Rock")
    ensures !Matches(t, rock, ConcertFilter(None, None, None, None, None, None).(name := Some("null")))
  {
    assert !Text.Contains("rock", "null") by {
      if Text.Contains("rock", "null") {
        Text.ContainedFirstOccurs("rock", "null");
      }
    }
    assert Text.Lower("Rock") == "rock";
  }

  /** With the corrected key, a listing cached for one filter is never served for another. */
  lemma CorrectedListingKeepsFiltersApart(ks: Keyspace<ConcertResponse>, t: Tables, f: ConcertFilter, g: ConcertFilter)
    requires ks.up && f != g && ListKey(g) !in ks.entries
    ensures Listing(Listing(ks, t, f).0, t, g).1 == Success(ListResponse(t, Search(t, g)))
  {
    assert ListKey(f) != ListKey(g) by {
      if ListKey(f) == ListKey(g) {
        ListKeyInjective(f, g);
      }
    }
  }

  /**
   * getConcertDetail: a hit is returned as stored; a miss reads the event, fails with
   * DATA_NOT_FOUND for an unknown id, and stores the response for ten minutes.
   */
  function Detail(ks: Keyspace<ConcertResponse>, t: Tables, id: Uuid)
    : (r: (Keyspace<ConcertResponse>, Outcome<ConcertResponse>))
    ensures !ks.up ==> r == (ks, Thrown(DetailFailed))
    ensures ks.up && DetailKey(id) in ks.entries ==> r == (ks, Success(ks.entries[DetailKey(id)].value))
    ensures ks.up && DetailKey(id) !in ks.entries ==>
      match EventRepository.FindById(t.events, id)
      case None => r == (ks, Thrown(NoData))
      case Some(e) =>
        && r.1 == Success(DetailResponse(t, e))
        && r.0 == ks.(entries := ks.entries[DetailKey(id) := Entry(r.1.value, Some(DetailTtlSeconds))])
  {
    match Get(ks, DetailKey(id))
    case Thrown(_) => (ks, Thrown(DetailFailed))
    case Success(Some(cached)) => (ks, Success(cached))
    case Success(None) =>
      match EventRepository.FindById(t.events, id)
      case None => (ks, Thrown(NoData))
      case Some(e) =>
        var response := DetailResponse(t, e);
        (Set(ks, DetailKey(id), response, Some(DetailTtlSeconds)).0, Success(response))
  }

  // ---------------------------------------------------------------- creation

  /** The instant a request's date names: its wall-clock reading in the request's zone. */
  function ResolveDate(req: ConcertRequest, zones: map<string, int>): (r: Option<Timestamp>)
    ensures r.Some? <==> req.datetime.Some? && req.timezone.Some? && req.timezone.value in zones
  {
    if req.datetime.Some? && req.timezone.Some? && req.timezone.value in zones
    then Some(req.datetime.value.WithZoneSameLocal(zones[req.timezone.value]).Instant())
    else None
  }

  /**
   * The event createConcert builds, or why it refuses: the venue must be the one venue with
   * that name (ignoring case), and the zone and the date must both be given and valid.
   */
  function NewEvent(t: Tables, req: ConcertRequest, zones: map<string, int>): (r: Outcome<Event>)
    ensures VenueRepository.FindByNameIgnoreCase(t.venues, req.venue) == VenueRepository.NoVenue ==> r == Thrown(NoData)
    ensures VenueRepository.FindByNameIgnoreCase(t.venues, req.venue) == VenueRepository.ManyVenues ==> r == Thrown(CreationFailed)
    ensures (VenueRepository.FindByNameIgnoreCase(t.venues, req.venue).OneVenue? && ResolveDate(req, zones).None?) ==>
      r == Thrown(CreationFailed)
    ensures r.Success? <==> VenueRepository.FindByNameIgnoreCase(t.venues, req.venue).OneVenue? && ResolveDate(req, zones).Some?
    ensures r.Success? ==>
      && r.value.id == t.nextId
      && r.value.name == req.name && r.value.artist == req.artist
      && r.value.description == req.description && r.value.timezone == req.timezone
      && VenueRepository.FindByNameIgnoreCase(t.venues, req.venue).OneVenue?
      && r.value.venueId == Some(VenueRepository.FindByNameIgnoreCase(t.venues, req.venue).venue.id)
      && ResolveDate(req, zones) == Some(r.value.eventDate)
      && (req.status.None? ==> r.value.status == Some(DefaultStatus))
      && (req.status.Some? ==> r.value.status == req.status)
  {
    match VenueRepository.FindByNameIgnoreCase(t.venues, req.venue)
    case NoVenue => Thrown(NoData)
    case ManyVenues => Thrown(CreationFailed)
    case OneVenue(v) =>
      match ResolveDate(req, zones)
      case None => Thrown(CreationFailed)
      case Some(date) =>
        Success(Event(t.nextId, req.name, req.artist, Some(v.id), date, req.timezone,
          Some(req.status.GetOr(DefaultStatus)), req.description))
  }

  /** A category row of a new event: its stock starts at its allocation. */
  function NewCategory(id: Uuid, eventId: Uuid, c: CategoryView): TicketCategory {
    TicketCategory(id, eventId, c.categoryName, c.basePrice, c.totalAllocation, c.totalAllocation)
  }

  /** The category rows of a new event, with consecutive ids from `firstId`. */
  function NewCategories(firstId: Uuid, eventId: Uuid, cs: seq<CategoryView>): (r: seq<TicketCategory>)
    ensures |r| == |cs| && forall i :: 0 <= i < |cs| ==> r[i] == NewCategory(firstId + i, eventId, cs[i])
  {
    seq(|cs|, i requires 0 <= i < |cs| => NewCategory(firstId + i, eventId, cs[i]))
  }

  /**
   * createConcert as written: the categories are attached only to the inverse side of the
   * event–category relation, which is not cascaded, so saving the event stores no category.
   */
  function CreatedAsWritten(t: Tables, req: ConcertRequest, zones: map<string, int>): (r: (Tables, Outcome<()>))
    ensures !r.1.Success? ==> r.0 == t
    ensures r.1.Success? <==> NewEvent(t, req, zones).Success?
  {
    match NewEvent(t, req, zones)
    case Thrown(failure) => (t, Thrown(failure))
    case Success(e) => (t.(events := t.events + [e], nextId := t.nextId + 1), Success(()))
  }

  /** createConcert as intended: the event and its categories, each category's stock at its allocation. */
  function Created(t: Tables, req: ConcertRequest, zones: map<string, int>): (r: (Tables, Outcome<()>))
    ensures !r.1.Success? ==> r.0 == t
    ensures r.1.Success? <==> NewEvent(t, req, zones).Success?
  {
    match NewEvent(t, req, zones)
    case Thrown(failure) => (t, Thrown(failure))
    case Success(e) =>
      var cs := req.categories.GetOr([]);
      (t.(events := t.events + [e],
          categories := t.categories + NewCategories(t.nextId + 1, t.nextId, cs),
          nextId := t.nextId + 1 + |cs|),
       Success(()))
  }

  /** Every category belongs to an event id already handed out. */
  ghost predicate CategoriesOfKnownIds(t: Tables) {
    forall k :: 0 <= k < |t.categories| ==> t.categories[k].eventId < t.nextId
  }

  /** A new event is the only one with its id, and has no category yet. */
  lemma NewEventIsFresh(t: Tables, e: Event)
    requires WellFormed(t) && CategoriesOfKnownIds(t) && e.id == t.nextId
    ensures EventRepository.FindById(t.events + [e], e.id) == Some(e)
    ensures CategoryRepository.FindByEventId(t.categories, e.id) == []
  {
    Sequences.FilterNone(t.categories, CategoryRepository.ForEvent(e.id));
  }

  /** As written, a concert created with categories shows none: its categories were never stored. */
  lemma CreatedAsWrittenLosesCategories(t: Tables, req: ConcertRequest, zones: map<string, int>)
    requires WellFormed(t) && CategoriesOfKnownIds(t)
    requires CreatedAsWritten(t, req, zones).1.Success?
    ensures var t' := CreatedAsWritten(t, req, zones).0;
      && EventRepository.FindById(t'.events, t.nextId) == Some(NewEvent(t, req, zones).value)
      && DataOf(t', NewEvent(t, req, zones).value, None).categories == []
  {
    NewEventIsFresh(t, NewEvent(t, req, zones).value);
  }

  /**
   * As intended, a created concert is found under the new id and shows exactly the requested
   * categories, each with its whole allocation on sale.
   */
  lemma CreatedShowsRequestedCategories(t: Tables, req: ConcertRequest, zones: map<string, int>)
    requires WellFormed(t) && CategoriesOfKnownIds(t)
    requires Created(t, req, zones).1.Success?
    ensures var t' := Created(t, req, zones).0;
      var e := NewEvent(t, req, zones).value;
      && EventRepository.FindById(t'.events, t.nextId) == Some(e)
      && DataOf(t', e, None).categories == req.categories.GetOr([])
      && forall c :: c in CategoryRepository.FindByEventId(t'.categories, e.id) ==> c.availableStock == c.totalAllocation
  {
    var e := NewEvent(t, req, zones).value;
    CreatedRows(t, req, zones);
    NewEventIsFresh(t, e);
    NewCategoriesFound(t, req.categories.GetOr([]));
  }

  /** A successful creation adds one event row and one category row per requested category. */
  lemma CreatedRows(t: Tables, req: ConcertRequest, zones: map<string, int>)
    requires Created(t, req, zones).1.Success?
    ensures var cs := req.categories.GetOr([]);
      Created(t, req, zones).0 == t.(events := t.events + [NewEvent(t, req, zones).value],
        categories := t.categories + NewCategories(t.nextId + 1, t.nextId, cs), nextId := t.nextId + 1 + |cs|)
  {
  }

  /** The categories of the new event are exactly the rows created for it. */
  lemma NewCategoriesFound(t: Tables, cs: seq<CategoryView>)
    requires CategoriesOfKnownIds(t)
    ensures var news := NewCategories(t.nextId + 1, t.nextId, cs);
      && CategoryRepository.FindByEventId(t.categories + news, t.nextId) == news
      && CategoryViews(news) == cs
  {
    var news := NewCategories(t.nextId + 1, t.nextId, cs);
    NewCategoriesSelected(t.categories, t.nextId, news);
    NewCategoriesViewed(t.nextId + 1, t.nextId, cs);
  }

  /** Rows of a new event id added after rows of older ids are exactly that event's categories. */
  lemma NewCategoriesSelected(older: seq<TicketCategory>, eventId: Uuid, news: seq<TicketCategory>)
    requires forall k :: 0 <= k < |older| ==> older[k].eventId < eventId
    requires forall k :: 0 <= k < |news| ==> news[k].eventId == eventId
    ensures CategoryRepository.FindByEventId(older + news, eventId) == news
  {
    var p := CategoryRepository.ForEvent(eventId);
    assert Sequences.Filter(older, p) == [] by {
      Sequences.FilterNone(older, p);
    }
    assert Sequences.Filter(news, p) == news by {
      Sequences.FilterAll(news, p);
    }
    Sequences.FilterConcat(older, news, p);
    assert [] + news == news;
  }

  /** The new rows show back the requested categories. */
  lemma NewCategoriesViewed(firstId: Uuid, eventId: Uuid, cs: seq<CategoryView>)
    ensures CategoryViews(NewCategories(firstId, eventId, cs)) == cs
  {
    var views := CategoryViews(NewCategories(firstId, eventId, cs));
    forall i | 0 <= i < |cs|
      ensures views[i] == cs[i]
    {
    }
  }

  /** Creation keeps the database's constraints and the stock balance: a new category holds no seats. */
  lemma CreationPreservesValid(t: Tables, req: ConcertRequest, zones: map<string, int>)
    requires WellFormed(t) && Conserved(t)
    ensures WellFormed(Created(t, req, zones).0) && Conserved(Created(t, req, zones).0)
  {
    if Created(t, req, zones).1.Success? {
      var cs := req.categories.GetOr([]);
      var news := NewCategories(t.nextId + 1, t.nextId, cs);
      var e := NewEvent(t, req, zones).value;
      CreatedRows(t, req, zones);
      NewRowsKeepWellFormed(t, e, news, |cs|);
      NewRowsKeepBalance(t, news);
    }
  }

  /** Rows with ids handed out after every existing one keep the primary keys and the references. */
  lemma NewRowsKeepWellFormed(t: Tables, e: Event, news: seq<TicketCategory>, n: nat)
    requires WellFormed(t) && e.id == t.nextId && |news| == n
    requires forall i :: 0 <= i < |news| ==> news[i].id == t.nextId + 1 + i
    ensures WellFormed(t.(events := t.events + [e], categories := t.categories + news, nextId := t.nextId + 1 + n))
  {
    var cats := t.categories + news;
    assert StockedIds(t.categories) <= StockedIds(cats) by {
      forall id | id in StockedIds(t.categories)
        ensures id in StockedIds(cats)
      {
        var m :| 0 <= m < |t.categories| && t.categories[m].availableStock.Some? && t.categories[m].id == id;
        assert cats[m] == t.categories[m];
      }
    }
  }

  /** New categories, whose stock is their allocation and whose ids no booking references, keep the balance. */
  lemma NewRowsKeepBalance(t: Tables, news: seq<TicketCategory>)
    requires WellFormed(t) && Conserved(t)
    requires forall i :: 0 <= i < |news| ==> news[i].id >= t.nextId && news[i].availableStock == news[i].totalAllocation
    ensures Conserved(t.(categories := t.categories + news))
  {
    var cats := t.categories + news;
    forall k | 0 <= k < |cats|
      ensures Balanced(cats[k], t.bookings)
    {
      if k >= |t.categories| {
        var c := news[k - |t.categories|];
        forall j | 0 <= j < |t.bookings|
          ensures t.bookings[j].categoryId != c.id
        {
          var m :| 0 <= m < |t.categories| && t.categories[m].availableStock.Some?
            && t.categories[m].id == t.bookings[j].categoryId;
        }
        Accounting.ReservedUnreferenced(t.bookings, c.id);
      } else {
        assert cats[k] == t.categories[k];
      }
    }
  }

  /** The as-written creation keeps the constraints and the balance too: it adds only the event row. */
  lemma CreationAsWrittenPreservesValid(t: Tables, req: ConcertRequest, zones: map<string, int>)
    requires WellFormed(t) && Conserved(t)
    ensures WellFormed(CreatedAsWritten(t, req, zones).0) && Conserved(CreatedAsWritten(t, req, zones).0)
  {
    if CreatedAsWritten(t, req, zones).1.Success? {
      var e := NewEvent(t, req, zones).value;
      NewRowsKeepWellFormed(t, e, [], 0);
      assert t.categories + [] == t.categories;
    }
  }

  /** Only the wall-clock reading of the request's date counts: the offset it was sent with does not. */
  lemma CreationKeepsWallClock(t: Tables, req: ConcertRequest, zones: map<string, int>, local: int, o1: int, o2: int)
    ensures Created(t, req.(datetime := Some(ZonedTime(local, o1))), zones)
         == Created(t, req.(datetime := Some(ZonedTime(local, o2))), zones)
  {
  }

  // ---------------------------------------------------------------- update

  /** The request's non-null name, artist, status and description over the stored ones. */
  function Merged(e: Event, req: ConcertRequest): Event {
    e.(name := if req.name.Some? then req.name else e.name,
       artist := if req.artist.Some? then req.artist else e.artist,
       status := if req.status.Some? then req.status else e.status,
       description := if req.description.Some? then req.description else e.description)
  }

  /** The update names no venue, or exactly one venue matches the name it gives. */
  predicate VenueResolves(t: Tables, req: ConcertRequest) {
    req.venue.None? || VenueRepository.FindByNameIgnoreCase(t.venues, req.venue).OneVenue?
  }

  /** The update leaves the date alone (datetime or zone missing), or its zone is known. */
  predicate DateResolves(req: ConcertRequest, zones: map<string, int>) {
    req.datetime.None? || req.timezone.None? || req.timezone.value in zones
  }

  /**
   * The event after the update's field writes: the merge, then the venue when one is named,
   * then the date and zone when both are given.
   */
  function Revised(t: Tables, e: Event, req: ConcertRequest, zones: map<string, int>): (r: Outcome<Event>)
    ensures r.Success? <==> VenueResolves(t, req) && DateResolves(req, zones)
    ensures req.venue.Some? && VenueRepository.FindByNameIgnoreCase(t.venues, req.venue).NoVenue? ==> r == Thrown(NoData)
    ensures req.venue.Some? && VenueRepository.FindByNameIgnoreCase(t.venues, req.venue).ManyVenues? ==> r == Thrown(UpdateFailed)
    ensures VenueResolves(t, req) && !DateResolves(req, zones) ==> r == Thrown(UpdateFailed)
  {
    var merged := Merged(e, req);
    var placed :=
      if req.venue.None? then Success(merged)
      else
        match VenueRepository.FindByNameIgnoreCase(t.venues, req.venue)
        case NoVenue => Thrown(NoData)
        case ManyVenues => Thrown(UpdateFailed)
        case OneVenue(v) => Success(merged.(venueId := Some(v.id)));
    match placed
    case Thrown(failure) => Thrown(failure)
    case Success(p) =>
      if req.datetime.Some? && req.timezone.Some? then
        match ResolveDate(req, zones)
        case None => Thrown(UpdateFailed)
        case Some(date) => Success(p.(eventDate := date, timezone := req.timezone))
      else Success(p)
  }

  /**
   * updateConcert: the revised event is saved and the concert's detail entry deleted, in one
   * transaction; any failure, the cache's included, leaves the tables as they were.
   */
  function Updated(t: Tables, ks: Keyspace<ConcertResponse>, id: Uuid, req: ConcertRequest, zones: map<string, int>)
    : (r: (Tables, Keyspace<ConcertResponse>, Outcome<()>))
    ensures EventRepository.FindById(t.events, id).None? ==> r == (t, ks, Thrown(NoData))
    ensures !r.2.Success? ==> r.0 == t && r.1 == ks
    ensures !ks.up ==> !r.2.Success?
    ensures EventRepository.FindById(t.events, id).Some? && ks.up ==>
      (r.2.Success? <==> VenueResolves(t, req) && DateResolves(req, zones))
    ensures (EventRepository.FindById(t.events, id).Some? && req.venue.Some?
             && VenueRepository.FindByNameIgnoreCase(t.venues, req.venue).NoVenue?) ==> r.2 == Thrown(NoData)
    ensures (EventRepository.FindById(t.events, id).Some? && req.venue.Some?
             && VenueRepository.FindByNameIgnoreCase(t.venues, req.venue).ManyVenues?) ==> r.2 == Thrown(UpdateFailed)
    ensures EventRepository.FindById(t.events, id).Some? && VenueResolves(t, req) && !DateResolves(req, zones) ==>
      r.2 == Thrown(UpdateFailed)
    // a cache that cannot delete the detail entry fails an otherwise valid update
    ensures EventRepository.FindById(t.events, id).Some? && VenueResolves(t, req) && DateResolves(req, zones) && !ks.up ==>
      r.2 == Thrown(UpdateFailed)
  {
    match EventRepository.FindById(t.events, id)
    case None => (t, ks, Thrown(NoData))
    case Some(stored) =>
      match Revised(t, stored, req, zones)
      case Thrown(failure) => (t, ks, Thrown(failure))
      case Success(e) =>
        var deleted := Delete(ks, DetailKey(id));
        if deleted.1.Thrown? then (t, ks, Thrown(UpdateFailed))
        else (t.(events := EventRepository.Saved(t.events, e)), deleted.0, Success(()))
  }

  /**
   * What a successful update stores: each of name, artist, status and description is the
   * request's when given and the stored one otherwise; the venue changes only when one is
   * named; date and zone change only when both are given. No other row or table changes.
   */
  lemma UpdateMerges(t: Tables, ks: Keyspace<ConcertResponse>, id: Uuid, req: ConcertRequest, zones: map<string, int>)
    requires Updated(t, ks, id, req, zones).2.Success?
    ensures var old_ := EventRepository.FindById(t.events, id).value;
      var t' := Updated(t, ks, id, req, zones).0;
      var new_ := EventRepository.FindById(t'.events, id).value;
      && EventRepository.FindById(t'.events, id).Some?
      && new_.id == id
      && new_.name == (if req.name.Some? then req.name else old_.name)
      && new_.artist == (if req.artist.Some? then req.artist else old_.artist)
      && new_.status == (if req.status.Some? then req.status else old_.status)
      && new_.description == (if req.description.Some? then req.description else old_.description)
      && (req.venue.None? ==> new_.venueId == old_.venueId)
      && (req.venue.Some? ==>
            && VenueRepository.FindByNameIgnoreCase(t.venues, req.venue).OneVenue?
            && new_.venueId == Some(VenueRepository.FindByNameIgnoreCase(t.venues, req.venue).venue.id))
      && (req.datetime.Some? && req.timezone.Some? ==> Some(new_.eventDate) == ResolveDate(req, zones) && new_.timezone == req.timezone)
      && (req.datetime.None? || req.timezone.None? ==> new_.eventDate == old_.eventDate && new_.timezone == old_.timezone)
      && |t'.events| == |t.events|
      && (forall j :: 0 <= j < |t.events| && t.events[j].id != id ==> t'.events[j] == t.events[j])
      && t' == t.(events := t'.events)
  {
    var stored := EventRepository.FindById(t.events, id).value;
    UpdateSavesRevision(t, ks, id, req, zones);
    var e := Revised(t, stored, req, zones).value;
    RevisionFields(t, stored, req, zones);
    EventRepository.SavedIsFound(t.events, e);
  }

  /** A successful update saves the revised event and changes no other table. */
  lemma UpdateSavesRevision(t: Tables, ks: Keyspace<ConcertResponse>, id: Uuid, req: ConcertRequest, zones: map<string, int>)
    requires Updated(t, ks, id, req, zones).2.Success?
    ensures EventRepository.FindById(t.events, id).Some?
    ensures var stored := EventRepository.FindById(t.events, id).value;
      && Revised(t, stored, req, zones).Success?
      && Updated(t, ks, id, req, zones).0 == t.(events := EventRepository.Saved(t.events, Revised(t, stored, req, zones).value))
  {
  }

  /** The revision keeps the id and takes each field from the request as the update promises. */
  lemma RevisionFields(t: Tables, e: Event, req: ConcertRequest, zones: map<string, int>)
    requires Revised(t, e, req, zones).Success?
    ensures var new_ := Revised(t, e, req, zones).value;
      && new_.id == e.id
      && new_.name == (if req.name.Some? then req.name else e.name)
      && new_.artist == (if req.artist.Some? then req.artist else e.artist)
      && new_.status == (if req.status.Some? then req.status else e.status)
      && new_.description == (if req.description.Some? then req.description else e.description)
      && (req.venue.None? ==> new_.venueId == e.venueId)
      && (req.venue.Some? ==>
            && VenueRepository.FindByNameIgnoreCase(t.venues, req.venue).OneVenue?
            && new_.venueId == Some(VenueRepository.FindByNameIgnoreCase(t.venues, req.venue).venue.id))
      && (req.datetime.Some? && req.timezone.Some? ==> Some(new_.eventDate) == ResolveDate(req, zones) && new_.timezone == req.timezone)
      && (req.datetime.None? || req.timezone.None? ==> new_.eventDate == e.eventDate && new_.timezone == e.timezone)
  {
  }

  /** An update that names no field rewrites the event with itself: the tables do not change. */
  lemma EmptyUpdateChangesNothing(t: Tables, ks: Keyspace<ConcertResponse>, id: Uuid, zones: map<string, int>)
    requires EventRepository.UniqueIds(t.events)
    requires ks.up && EventRepository.FindById(t.events, id).Some?
    ensures var nothing := ConcertRequest(None, None, None, None, None, None, None, None);
      var r := Updated(t, ks, id, nothing, zones);
      r.2 == Success(()) && r.0 == t
  {
    var stored := EventRepository.FindById(t.events, id).value;
    var saved := EventRepository.Saved(t.events, stored);
    forall j | 0 <= j < |t.events|
      ensures saved[j] == t.events[j]
    {
      if t.events[j].id == id {
        var m :| 0 <= m < |t.events| && t.events[m] == stored;
        assert m == j;
      }
    }
  }

  /**
   * A successful update evicts the concert's detail entry, so the next detail read shows the
   * updated event; every cached listing stays as it was and goes on being served.
   */
  lemma UpdateEvictsOnlyDetail(t: Tables, ks: Keyspace<ConcertResponse>, id: Uuid, req: ConcertRequest, zones: map<string, int>, f: ConcertFilter)
    requires Updated(t, ks, id, req, zones).2.Success?
    ensures var r := Updated(t, ks, id, req, zones);
      var updated := EventRepository.FindById(r.0.events, id).value;
      && DetailKey(id) !in r.1.entries
      && Detail(r.1, r.0, id).1 == Success(DetailResponse(r.0, updated))
      && (ListKey(f) in ks.entries ==> Listing(r.1, r.0, f) == (r.1, Success(ks.entries[ListKey(f)].value)))
  {
    UpdateDeletesDetailKey(t, ks, id, req, zones);
    UpdatedDetailServed(t, ks, id, req, zones);
    if ListKey(f) in ks.entries {
      UpdatedListingKept(t, ks, id, req, zones, f);
    }
  }

  /** After an update the detail read misses the cache and shows the stored revision. */
  lemma UpdatedDetailServed(t: Tables, ks: Keyspace<ConcertResponse>, id: Uuid, req: ConcertRequest, zones: map<string, int>)
    requires Updated(t, ks, id, req, zones).2.Success?
    ensures var r := Updated(t, ks, id, req, zones);
      Detail(r.1, r.0, id).1 == Success(DetailResponse(r.0, EventRepository.FindById(r.0.events, id).value))
  {
    UpdateMerges(t, ks, id, req, zones);
    UpdateDeletesDetailKey(t, ks, id, req, zones);
  }

  /** After an update a cached listing is still served as it was cached. */
  lemma UpdatedListingKept(t: Tables, ks: Keyspace<ConcertResponse>, id: Uuid, req: ConcertRequest, zones: map<string, int>, f: ConcertFilter)
    requires Updated(t, ks, id, req, zones).2.Success?
    requires ListKey(f) in ks.entries
    ensures var r := Updated(t, ks, id, req, zones);
      Listing(r.1, r.0, f) == (r.1, Success(ks.entries[ListKey(f)].value))
  {
    UpdateDeletesDetailKey(t, ks, id, req, zones);
    DetailIsNotListing(id, f);
    var r := Updated(t, ks, id, req, zones);
    assert r.1.entries[ListKey(f)] == ks.entries[ListKey(f)];
  }

  /** A successful update leaves the cache up with exactly the detail key removed. */
  lemma UpdateDeletesDetailKey(t: Tables, ks: Keyspace<ConcertResponse>, id: Uuid, req: ConcertRequest, zones: map<string, int>)
    requires Updated(t, ks, id, req, zones).2.Success?
    ensures var r := Updated(t, ks, id, req, zones);
      r.1.up && r.1.entries == ks.entries - {DetailKey(id)}
  {
  }

  /** An update keeps the database's constraints and the stock balance. */
  lemma UpdatePreservesValid(t: Tables, ks: Keyspace<ConcertResponse>, id: Uuid, req: ConcertRequest, zones: map<string, int>)
    requires WellFormed(t) && Conserved(t)
    ensures var t' := Updated(t, ks, id, req, zones).0;
      WellFormed(t') && Conserved(t')
  {
    if Updated(t, ks, id, req, zones).2.Success? {
      UpdateSavesRevision(t, ks, id, req, zones);
      var stored := EventRepository.FindById(t.events, id).value;
      EventSavePreserves(t, Revised(t, stored, req, zones).value);
    }
  }

  /** Saving an event changes no row's id, so it keeps the constraints and the stock balance. */
  lemma EventSavePreserves(t: Tables, e: Event)
    requires WellFormed(t) && Conserved(t)
    ensures WellFormed(t.(events := EventRepository.Saved(t.events, e)))
    ensures Conserved(t.(events := EventRepository.Saved(t.events, e)))
  {
    var saved := EventRepository.Saved(t.events, e);
    forall j | 0 <= j < |saved|
      ensures saved[j].id == t.events[j].id
    {
    }
  }

  // ---------------------------------------------------------------- the service

  class ConcertService {
    const db: Database
    const cache: ObjectCache<ConcertResponse>
    /** The zone rules: each zone id with its offset from UTC. */
    const zones: map<string, int>

    constructor (db: Database, cache: ObjectCache<ConcertResponse>, zones: map<string, int>)
      ensures this.db == db && this.cache == cache && this.zones == zones
    {
      this.db := db;
      this.cache := cache;
      this.zones := zones;
    }

    /** getAllConcerts with the corrected, unambiguous cache key. */
    method GetAllConcerts(f: ConcertFilter) returns (r: Outcome<ConcertResponse>)
      modifies cache`entries
      ensures (cache.State(), r) == Listing(old(cache.State()), db.State(), f)
    {
      r := ListUnder(f, ListKey(f));
    }

    /** getAllConcerts as written, with the `%s`-formatted cache key. */
    method GetAllConcertsAsWritten(f: ConcertFilter) returns (r: Outcome<ConcertResponse>)
      modifies cache`entries
      ensures (cache.State(), r) == ListingAsWritten(old(cache.State()), db.State(), f)
    {
      r := ListUnder(f, ListKeyAsWritten(f));
    }

    /** The listing cached under `key`, or the search, then cached under `key`. */
    method ListUnder(f: ConcertFilter, key: string) returns (r: Outcome<ConcertResponse>)
      modifies cache`entries
      ensures (cache.State(), r) == ListingAt(old(cache.State()), db.State(), f, key)
    {
      var cached := cache.Read(key);
      if cached.Thrown? {
        return Thrown(ListingFailed);
      }
      if cached.value.Some? {
        return Success(cached.value.value);
      }
      var response := ListResponse(db.State(), Search(db.State(), f));
      var _ := cache.Write(key, response, Some(ListingTtlSeconds));
      r := Success(response);
    }

    method GetConcertDetail(id: Uuid) returns (r: Outcome<ConcertResponse>)
      modifies cache`entries
      ensures (cache.State(), r) == Detail(old(cache.State()), db.State(), id)
    {
      var key := DetailKey(id);
      var cached := cache.Read(key);
      if cached.Thrown? {
        return Thrown(DetailFailed);
      }
      if cached.value.Some? {
        return Success(cached.value.value);
      }
      var found := EventRepository.FindById(db.events, id);
      if found.None? {
        return Thrown(NoData);
      }
      var response := DetailResponse(db.State(), found.value);
      var _ := cache.Write(key, response, Some(DetailTtlSeconds));
      r := Success(response);
    }

    /** createConcert as written: the event row alone; its categories are never inserted. */
    method CreateConcertAsWritten(req: ConcertRequest) returns (r: Outcome<()>)
      requires db.Valid()
      modifies db
      ensures db.Valid()
      ensures (db.State(), r) == CreatedAsWritten(old(db.State()), req, zones)
    {
      ghost var t := db.State();
      CreationAsWrittenPreservesValid(t, req, zones);
      var event := NewEvent(db.State(), req, zones);
      if event.Thrown? {
        return Thrown(event.failure);
      }
      var _ := db.FreshId();
      db.InsertEvent(event.value);
      r := Success(());
    }

    /** createConcert as intended, storing the categories with the event. */
    method CreateConcert(req: ConcertRequest) returns (r: Outcome<()>)
      requires db.Valid()
      modifies db
      ensures db.Valid()
      ensures (db.State(), r) == Created(old(db.State()), req, zones)
    {
      ghost var t := db.State();
      CreationPreservesValid(t, req, zones);
      var event := NewEvent(db.State(), req, zones);
      if event.Thrown? {
        return Thrown(event.failure);
      }
      var eventId := db.FreshId();
      db.InsertEvent(event.value);
      var cs := req.categories.GetOr([]);
      var firstId := db.FreshIds(|cs|);
      db.InsertCategories(NewCategories(firstId, eventId, cs));
      r := Success(());
      assert db.State() == Created(t, req, zones).0;
    }

    method UpdateConcert(id: Uuid, req: ConcertRequest) returns (r: Outcome<()>)
      requires db.Valid()
      modifies db`events, cache`entries
      ensures db.Valid()
      ensures (db.State(), cache.State(), r) == Updated(old(db.State()), old(cache.State()), id, req, zones)
    {
      ghost var t := db.State();
      UpdatePreservesValid(t, cache.State(), id, req, zones);
      var found := EventRepository.FindById(db.events, id);
      if found.None? {
        return Thrown(NoData);
      }
      var revised := Revised(db.State(), found.value, req, zones);
      if revised.Thrown? {
        return Thrown(revised.failure);
      }
      var before := db.events;
      db.SaveEvent(revised.value);
      var deleted := cache.Remove(DetailKey(id));
      if deleted.Thrown? {
        // the transaction rolls back
        db.events := before;
        return Thrown(UpdateFailed);
      }
      r := Success(());
    }
  }
}
