/** EventRepository and VenueRepository: lookups over the events and venues tables. */
module EventRepository {
  import opened Wrappers
  import opened Model

  /** The primary key of the events table. */
  ghost predicate UniqueIds(events: seq<Event>) {
    forall i, j :: 0 <= i < j < |events| ==> events[i].id != events[j].id
  }

  /** findById: the stored event with the id, if any. */
  function FindById(events: seq<Event>, id: Uuid): (r: Option<Event>)
    ensures r.Some? ==> r.value in events && r.value.id == id
    ensures r.None? <==> forall e :: e in events ==> e.id != id
    decreases |events|
  {
    if events == [] then None
    else if events[0].id == id then Some(events[0])
    else FindById(events[1..], id)
  }

  /** save of a managed event: the row with its id is replaced. */
  function Saved(events: seq<Event>, e: Event): (r: seq<Event>)
    ensures |r| == |events|
    ensures forall j :: 0 <= j < |events| ==> r[j] == if events[j].id == e.id then e else events[j]
  {
    seq(|events|, j requires 0 <= j < |events| => if events[j].id == e.id then e else events[j])
  }

  /** Under the primary key, the saved event is what findById returns afterwards. */
  lemma {:induction false} SavedIsFound(events: seq<Event>, e: Event)
    requires FindById(events, e.id).Some?
    ensures FindById(Saved(events, e), e.id) == Some(e)
    decreases |events|
  {
    if events[0].id != e.id {
      assert Saved(events, e)[1..] == Saved(events[1..], e);
      SavedIsFound(events[1..], e);
    }
  }

  /** The venue referenced by an event, if the reference is set and resolves. */
  function VenueById(venues: seq<Venue>, id: Option<Uuid>): (r: Option<Venue>)
    ensures r.Some? ==> id.Some? && r.value in venues && r.value.id == id.value
    ensures id.Some? && r.None? ==> forall v :: v in venues ==> v.id != id.value
    decreases |venues|
  {
    if id.None? || venues == [] then None
    else if venues[0].id == id.value then Some(venues[0])
    else VenueById(venues[1..], id)
  }
}
