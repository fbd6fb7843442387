/**
 * The overlap query shared by the three creation routes: an existing booking
 * conflicts with a requested window [start, end) on a product when it is on
 * the same product, its status is 'Booked' or 'In Use', and
 * `existing.startTime < end && existing.endTime > start`.
 */
module Availability {
  import opened BookingModel

  /** The statuses the overlap query matches (`status: { $in: ['Booked', 'In Use'] }`). */
  predicate IsActive(s: Status)
  {
    s == Booked || s == InUse
  }

  /** `startTime < end && endTime > start`: the strict half-open overlap test. */
  predicate Overlaps(b: Booking, start: Time, end: Time)
  {
    b.startTime < end && b.endTime > start
  }

  predicate ConflictsWith(b: Booking, productId: ProductId, start: Time, end: Time)
  {
    b.productId == productId && IsActive(b.status) && Overlaps(b, start, end)
  }

  /** The ids `Booking.find(...)` returns for the overlap query. */
  function Conflicts(bookings: map<BookingId, Booking>, productId: ProductId, start: Time, end: Time): (ids: set<BookingId>)
    ensures ids <= bookings.Keys
  {
    set id | id in bookings && ConflictsWith(bookings[id], productId, start, end)
  }

  /** Windows that only touch at a boundary never conflict. */
  lemma TouchingDoesNotConflict(b: Booking, productId: ProductId, start: Time, end: Time)
    requires b.endTime == start || b.startTime == end
    ensures !ConflictsWith(b, productId, start, end)
  {
  }

  /** 'Completed' and 'Cancel' bookings never conflict. */
  lemma InactiveDoesNotConflict(bookings: map<BookingId, Booking>, productId: ProductId, start: Time, end: Time)
    ensures forall id :: id in Conflicts(bookings, productId, start, end) ==>
      bookings[id].status != Completed && bookings[id].status != Cancel
  {
  }

  /** The test is symmetric in the two windows. */
  lemma OverlapsSymmetric(a: Booking, b: Booking)
    ensures Overlaps(a, b.startTime, b.endTime) <==> Overlaps(b, a.startTime, a.endTime)
  {
  }

  /** Instant t lies in the half-open window [start, end). */
  predicate Within(t: Time, start: Time, end: Time)
  {
    start <= t < end
  }

  /**
   * On non-empty windows the test agrees with the half-open reading: the two
   * windows [s, e) share an instant.
   */
  lemma OverlapsIffSharedInstant(b: Booking, start: Time, end: Time)
    requires b.startTime < b.endTime && start < end
    ensures Overlaps(b, start, end) <==>
      exists t :: Within(t, b.startTime, b.endTime) && Within(t, start, end)
  {
    if Overlaps(b, start, end) {
      var t := if b.startTime < start then start else b.startTime;
      assert Within(t, b.startTime, b.endTime) && Within(t, start, end);
    }
  }

  /** ActiveDisjoint: active bookings on one product have pairwise non-overlapping windows. */
  ghost predicate ActiveDisjoint(bookings: map<BookingId, Booking>)
  {
    forall i, j :: i in bookings && j in bookings && i != j
      && bookings[i].productId == bookings[j].productId
      && IsActive(bookings[i].status) && IsActive(bookings[j].status)
      ==> !Overlaps(bookings[i], bookings[j].startTime, bookings[j].endTime)
  }

  /** Adding a booking whose window passed the overlap query keeps ActiveDisjoint. */
  lemma AdmitKeepsDisjoint(bookings: map<BookingId, Booking>, id: BookingId, b: Booking)
    requires ActiveDisjoint(bookings)
    requires id !in bookings
    requires Conflicts(bookings, b.productId, b.startTime, b.endTime) == {}
    ensures ActiveDisjoint(bookings[id := b])
  {
    var bs := bookings[id := b];
    forall i, j | i in bs && j in bs && i != j
      && bs[i].productId == bs[j].productId
      && IsActive(bs[i].status) && IsActive(bs[j].status)
      ensures !Overlaps(bs[i], bs[j].startTime, bs[j].endTime)
    {
      if i == id {
        assert j !in Conflicts(bookings, b.productId, b.startTime, b.endTime);
        OverlapsSymmetric(bs[i], bs[j]);
      } else if j == id {
        assert i !in Conflicts(bookings, b.productId, b.startTime, b.endTime);
      }
    }
  }

  /** Moving a booking out of the active statuses keeps ActiveDisjoint. */
  lemma DeactivateKeepsDisjoint(bookings: map<BookingId, Booking>, id: BookingId, s: Status)
    requires ActiveDisjoint(bookings)
    requires id in bookings
    requires !IsActive(s)
    ensures ActiveDisjoint(bookings[id := bookings[id].(status := s)])
  {
  }

  /**
   * Setting an active booking ('Booked' or already 'In Use') to 'In Use',
   * arrived or not, keeps ActiveDisjoint: its window was already counted.
   */
  lemma ActivateKeepsDisjoint(bookings: map<BookingId, Booking>, id: BookingId, arrived: bool)
    requires ActiveDisjoint(bookings)
    requires id in bookings && IsActive(bookings[id].status)
    ensures ActiveDisjoint(bookings[id := bookings[id].(status := InUse, arrived := arrived)])
  {
    var bs := bookings[id := bookings[id].(status := InUse, arrived := arrived)];
    forall i, j | i in bs && j in bs && i != j
      && bs[i].productId == bs[j].productId
      && IsActive(bs[i].status) && IsActive(bs[j].status)
      ensures !Overlaps(bs[i], bs[j].startTime, bs[j].endTime)
    {
      assert IsActive(bookings[i].status) && IsActive(bookings[j].status);
    }
  }
}
