/**
 * Stock accounting: how many tickets of a category the stored bookings hold. A booking
 * holds its quantity until it is CANCELLED; every other status keeps the seats taken.
 */
module Accounting {
  import opened Model

  /** What one booking holds of category `cid`. */
  function Contribution(b: Booking, cid: Uuid): int {
    if b.categoryId == cid && b.status != Cancelled then b.quantity else 0
  }

  /** The seats of category `cid` held by the bookings `bs`. */
  function Reserved(bs: seq<Booking>, cid: Uuid): int
    decreases |bs|
  {
    if bs == [] then 0
    else Reserved(bs[..|bs| - 1], cid) + Contribution(bs[|bs| - 1], cid)
  }

  /** A new row adds exactly its own contribution. */
  lemma ReservedAppend(bs: seq<Booking>, b: Booking, cid: Uuid)
    ensures Reserved(bs + [b], cid) == Reserved(bs, cid) + Contribution(b, cid)
  {
    assert (bs + [b])[..|bs|] == bs;
  }

  /** Rewriting one row changes the total by the difference of the two rows' contributions. */
  lemma {:induction false} ReservedUpdate(bs: seq<Booking>, j: nat, b: Booking, cid: Uuid)
    requires j < |bs|
    ensures Reserved(bs[j := b], cid) == Reserved(bs, cid) - Contribution(bs[j], cid) + Contribution(b, cid)
    decreases |bs|
  {
    var n := |bs| - 1;
    var updated := bs[j := b];
    if j == n {
      assert updated[..n] == bs[..n];
    } else {
      ReservedUpdate(bs[..n], j, b, cid);
      assert updated[..n] == bs[..n][j := b];
    }
  }

  /** Bookings of other categories hold nothing of `cid`. */
  lemma {:induction false} ReservedUnreferenced(bs: seq<Booking>, cid: Uuid)
    requires forall i :: 0 <= i < |bs| ==> bs[i].categoryId != cid
    ensures Reserved(bs, cid) == 0
    decreases |bs|
  {
    if bs != [] {
      ReservedUnreferenced(bs[..|bs| - 1], cid);
    }
  }

  /** With every quantity non-negative, the held seats are non-negative too. */
  lemma {:induction false} ReservedNonNegative(bs: seq<Booking>, cid: Uuid)
    requires forall i :: 0 <= i < |bs| ==> bs[i].quantity >= 0
    ensures Reserved(bs, cid) >= 0
    decreases |bs|
  {
    if bs != [] {
      ReservedNonNegative(bs[..|bs| - 1], cid);
    }
  }
}
