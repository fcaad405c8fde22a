/** VenueRepository.findByNameIgnoreCase: a derived query that must match at most one row. */
module VenueRepository {
  import opened Wrappers
  import opened Model
  import Text
  import Sequences

  /** What the query yields: no row, the one row, or an error for more than one. */
  datatype Lookup = NoVenue | OneVenue(venue: Venue) | ManyVenues

  /**
   * The derived condition: `upper(name) = upper(?)` for a given name, and `name IS NULL`
   * when the argument itself is null.
   */
  predicate NameMatches(v: Venue, name: Option<string>) {
    match name
    case None => v.name.None?
    case Some(n) => v.name.Some? && Text.Lower(v.name.value) == Text.Lower(n)
  }

  function FindByNameIgnoreCase(venues: seq<Venue>, name: Option<string>): (r: Lookup)
    ensures r == NoVenue <==> forall v :: v in venues ==> !NameMatches(v, name)
    ensures r.OneVenue? ==> r.venue in venues && NameMatches(r.venue, name)
    ensures r.OneVenue? ==> forall v :: v in venues && NameMatches(v, name) ==> v == r.venue
  {
    var matching := Sequences.Filter(venues, (v: Venue) => NameMatches(v, name));
    if |matching| == 0 then NoVenue
    else if |matching| == 1 then (assert matching[0] in matching; OneVenue(matching[0]))
    else (assert matching[0] in matching; ManyVenues)
  }
}
