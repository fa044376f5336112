/** The bookings table and the owner's cancellation of a booking. */
module Bookings {
  import opened Wrappers

  datatype BookingStatus = Pending | Accepted | Cancelled

  /** A row of the bookings table. Dates are day numbers; `cancelledAt` is a timestamp. */
  datatype Booking = Booking(
    propertyId: nat,
    travelerId: nat,
    startDate: int,
    endDate: int,
    guests: nat,
    totalPrice: int,
    status: BookingStatus,
    cancelledAt: Option<int>)

  /** Two stays overlap when they share at least one calendar day, boundary days included: a
      stay ending on the day another starts conflicts with it. */
  predicate RangesOverlap(start1: int, end1: int, start2: int, end2: int) {
    start1 <= end2 && end1 >= start2
  }

  lemma RangesOverlapSymmetric(s1: int, e1: int, s2: int, e2: int)
    ensures RangesOverlap(s1, e1, s2, e2) <==> RangesOverlap(s2, e2, s1, e1)
  {
  }

  /** No two ACCEPTED bookings of one property overlap. */
  ghost predicate AcceptedDisjoint(t: map<nat, Booking>) {
    forall i, j :: i in t && j in t && i != j
      && t[i].status == Accepted && t[j].status == Accepted && t[i].propertyId == t[j].propertyId
      ==> !RangesOverlap(t[i].startDate, t[i].endDate, t[j].startDate, t[j].endDate)
  }

  function AcceptedIds(t: map<nat, Booking>): set<nat> {
    set k | k in t && t[k].status == Accepted
  }

  /** The row after `UPDATE bookings SET status = 'CANCELLED', cancelled_at = NOW()`: only those
      two fields change. */
  function Cancel(b: Booking, now: int): (r: Booking)
    ensures r.status == Cancelled && r.cancelledAt == Some(now)
    ensures r.(status := b.status, cancelledAt := b.cancelledAt) == b
  {
    b.(status := Cancelled, cancelledAt := Some(now))
  }

  /** The table after cancelling booking `id`. */
  function CancelIn(t: map<nat, Booking>, id: nat, now: int): map<nat, Booking>
    requires id in t
  {
    t[id := Cancel(t[id], now)]
  }

  /** Cancelling removes exactly the cancelled booking from the ACCEPTED set, and nothing joins it. */
  lemma CancelShrinksAccepted(t: map<nat, Booking>, id: nat, now: int)
    requires id in t
    ensures AcceptedIds(CancelIn(t, id, now)) == AcceptedIds(t) - {id}
    ensures AcceptedIds(CancelIn(t, id, now)) <= AcceptedIds(t)
  {
    var t' := CancelIn(t, id, now);
    forall k ensures k in AcceptedIds(t') <==> k in AcceptedIds(t) - {id} {
      if k != id && k in t {
        assert t'[k] == t[k];
      }
    }
  }

  /** Cancelling keeps every other booking as it was. */
  lemma CancelFrame(t: map<nat, Booking>, id: nat, now: int)
    requires id in t
    ensures CancelIn(t, id, now).Keys == t.Keys
    ensures forall k :: k in t && k != id ==> CancelIn(t, id, now)[k] == t[k]
  {
  }

  /** Cancellation keeps the no-overlap invariant among ACCEPTED bookings. */
  lemma CancelKeepsAcceptedDisjoint(t: map<nat, Booking>, id: nat, now: int)
    requires id in t && AcceptedDisjoint(t)
    ensures AcceptedDisjoint(CancelIn(t, id, now))
  {
    var t' := CancelIn(t, id, now);
    forall i, j | i in t' && j in t' && i != j
      && t'[i].status == Accepted && t'[j].status == Accepted && t'[i].propertyId == t'[j].propertyId
      ensures !RangesOverlap(t'[i].startDate, t'[i].endDate, t'[j].startDate, t'[j].endDate)
    {
      assert i != id && j != id;
      assert t'[i] == t[i] && t'[j] == t[j];
    }
  }

  /** The answers of `cancelBookingOwner`. */
  datatype CancelResponse =
    | NotFound
    | Forbidden
    | AlreadyCancelled
    | CancelledOk(booking: Booking)
  {
    function Status(): nat {
      match this
      case NotFound => 404
      case Forbidden => 403
      case AlreadyCancelled => 400
      case CancelledOk(_) => 200
    }

    function Message(): string {
      match this
      case NotFound => "Booking not found"
      case Forbidden => "You can only cancel bookings for your own properties"
      case AlreadyCancelled => "Booking is already cancelled"
      case CancelledOk(_) => "Booking cancelled successfully"
    }
  }

  /** Booking `id` is visible to the join with the properties table (`owners` maps a property id
      to its owner id). */
  predicate Visible(t: map<nat, Booking>, owners: map<nat, nat>, id: nat) {
    id in t && t[id].propertyId in owners
  }

  /** The session's owner is the owner of the booking's property (`owner_id === ownerId`). */
  predicate OwnedBy(t: map<nat, Booking>, owners: map<nat, nat>, id: nat, ownerId: Option<nat>)
    requires Visible(t, owners, id)
  {
    ownerId == Some(owners[t[id].propertyId])
  }

  /** The guard chain of `cancelBookingOwner`, in its order: missing booking, foreign property,
      already cancelled. None: the cancellation may proceed. */
  function CancelRefusal(t: map<nat, Booking>, owners: map<nat, nat>, id: nat, ownerId: Option<nat>): Option<CancelResponse>
  {
    if !Visible(t, owners, id) then Some(NotFound)
    else if !OwnedBy(t, owners, id, ownerId) then Some(Forbidden)
    else if t[id].status == Cancelled then Some(AlreadyCancelled)
    else None
  }

  /** After a successful cancellation the same request is refused as already cancelled, so a
      booking is never cancelled twice. */
  lemma CancelTwiceRefused(t: map<nat, Booking>, owners: map<nat, nat>, id: nat, ownerId: Option<nat>, now: int)
    requires CancelRefusal(t, owners, id, ownerId) == None
    ensures id in t
    ensures CancelRefusal(CancelIn(t, id, now), owners, id, ownerId) == Some(AlreadyCancelled)
  {
  }

  /** The bookings table. */
  class BookingStore {
    var bookings: map<nat, Booking>

    constructor (initial: map<nat, Booking>)
      ensures bookings == initial
    {
      bookings := initial;
    }

    /** `cancelBookingOwner`: 404, then 403, then 400 if already cancelled; otherwise the booking
        becomes CANCELLED with `cancelled_at` set to `now`, and the response carries the row as
        read back after the update. `ownerId` is the session's owner id, `owners` the owner of
        each property. */
    method CancelBookingOwner(owners: map<nat, nat>, ownerId: Option<nat>, id: nat, now: int)
      returns (r: CancelResponse)
      modifies this
      ensures !Visible(old(bookings), owners, id) ==> r == NotFound
      ensures Visible(old(bookings), owners, id) && !OwnedBy(old(bookings), owners, id, ownerId)
        ==> r == Forbidden
      ensures (Visible(old(bookings), owners, id) && OwnedBy(old(bookings), owners, id, ownerId)
        && old(bookings)[id].status == Cancelled) ==> r == AlreadyCancelled
      ensures r.CancelledOk? <==> CancelRefusal(old(bookings), owners, id, ownerId) == None
      ensures !r.CancelledOk? ==> bookings == old(bookings)
      ensures r.CancelledOk? ==>
        (bookings == CancelIn(old(bookings), id, now) && r.booking == bookings[id] && r.booking.status == Cancelled)
    {
      var refusal := CancelRefusal(bookings, owners, id, ownerId);
      if refusal.Some? {
        return refusal.value;
      }
      bookings := bookings[id := Cancel(bookings[id], now)];
      r := CancelledOk(bookings[id]);
    }
  }

  /** Cancelling the same booking twice: the first call succeeds, the second answers 400 and
      changes nothing. */
  method CancelTwice(store: BookingStore, owners: map<nat, nat>, ownerId: Option<nat>, id: nat, now: int, later: int)
    returns (first: CancelResponse, second: CancelResponse)
    requires CancelRefusal(store.bookings, owners, id, ownerId) == None
    modifies store
    ensures first.CancelledOk? && second == AlreadyCancelled && second.Status() == 400
    ensures store.bookings == CancelIn(old(store.bookings), id, now)
  {
    first := store.CancelBookingOwner(owners, ownerId, id, now);
    second := store.CancelBookingOwner(owners, ownerId, id, later);
  }
}
