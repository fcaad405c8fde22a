/** BookingRepository: the read queries over the bookings table, in storage order. */
module BookingRepository {
  import opened Wrappers
  import opened Model
  import Sequences

  /** The primary key. */
  ghost predicate UniqueIds(bs: seq<Booking>) {
    forall i, j :: 0 <= i < j < |bs| ==> bs[i].id != bs[j].id
  }

  /** The unique constraint on the idempotency_key column. */
  ghost predicate UniqueKeys(bs: seq<Booking>) {
    forall i, j :: 0 <= i < j < |bs| ==> bs[i].idempotencyKey != bs[j].idempotencyKey
  }

  /** The primary-key column. */
  function RowId(b: Booking): Uuid {
    b.id
  }

  /** findById: the position of the first row with the id, if any. */
  function IndexOf(bs: seq<Booking>, id: Uuid): Option<nat> {
    Sequences.IndexBy(bs, RowId, id)
  }

  /** findById: the stored booking with the id, if there is one. */
  function FindById(bs: seq<Booking>, id: Uuid): (r: Option<Booking>)
    ensures r.Some? ==> r.value in bs && r.value.id == id
    ensures r.None? <==> forall b :: b in bs ==> b.id != id
  {
    match IndexOf(bs, id)
    case Some(j) => Some(bs[j])
    case None => None
  }

  /** existsByIdempotencyKey: whether some stored booking carries the key. */
  function ExistsByIdempotencyKey(bs: seq<Booking>, key: string): (r: bool)
    ensures r <==> exists i :: 0 <= i < |bs| && bs[i].idempotencyKey == key
    decreases |bs|
  {
    if bs == [] then false
    else bs[0].idempotencyKey == key || ExistsByIdempotencyKey(bs[1..], key)
  }

  /** With the unique constraint a key names at most one booking. */
  lemma AtMostOnePerKey(bs: seq<Booking>, key: string, i: nat, j: nat)
    requires UniqueKeys(bs)
    requires i < |bs| && j < |bs| && bs[i].idempotencyKey == key && bs[j].idempotencyKey == key
    ensures i == j
  {
  }

  /** findByUserId: the user's bookings, in table order. */
  function FindByUserId(bs: seq<Booking>, userId: Uuid): (r: seq<Booking>)
    ensures forall b :: b in r <==> b in bs && b.userId == userId
    ensures forall i :: 0 <= i < |r| ==> r[i].userId == userId
  {
    Sequences.Filter(bs, (b: Booking) => b.userId == userId)
  }

  /** The WHERE clause of findExpiredBookings: `status = 'PENDING' AND expiresAt < :now`. */
  predicate IsExpired(b: Booking, now: Timestamp) {
    b.status == Pending && b.expiresAt < now
  }

  /** The selection as a predicate value, so that every use names the same one. */
  function ExpiredAt(now: Timestamp): Booking -> bool {
    (b: Booking) => IsExpired(b, now)
  }

  /** findExpiredBookings: the PENDING bookings whose deadline lies strictly before `now`. */
  function FindExpiredBookings(bs: seq<Booking>, now: Timestamp): (r: seq<Booking>)
    ensures forall b :: b in r <==> b in bs && b.status == Pending && b.expiresAt < now
    ensures forall i :: 0 <= i < |r| ==> r[i].status == Pending && r[i].expiresAt < now
  {
    Sequences.Filter(bs, ExpiredAt(now))
  }

  /** The selected bookings have distinct ids, so the sweep never meets one booking twice. */
  lemma ExpiredHaveDistinctIds(bs: seq<Booking>, now: Timestamp)
    requires UniqueIds(bs)
    ensures UniqueIds(FindExpiredBookings(bs, now))
  {
    var id := (b: Booking) => b.id;
    assert Sequences.KeysDistinct(bs, id);
    Sequences.FilterKeepsKeysDistinct(bs, ExpiredAt(now), id);
    var r := FindExpiredBookings(bs, now);
    assert Sequences.KeysDistinct(r, id);
    forall i, j | 0 <= i < j < |r|
      ensures r[i].id != r[j].id
    {
      assert id(r[i]) != id(r[j]);
    }
  }
}
