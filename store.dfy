/**
 * The in-memory stand-in for the two MongoDB collections the routes use,
 * the responses the booking handlers send, and what the creation routes
 * have in common: the record they build and the product update they make.
 */
module Store {
  import opened Wrappers
  import opened BookingModel
  import P = ProductModel
  import Pin

  /**
   * The Booking and Product collections and the ids of the User collection
   * (only their existence matters to the handlers). `nextId` stands for the
   * fresh ObjectId the database gives each inserted booking.
   */
  datatype Db = Db(
    bookings: map<BookingId, Booking>,
    products: map<ProductId, P.Product>,
    users: set<UserId>,
    nextId: BookingId)

  /** The failures the handlers report, one per distinct response. */
  datatype Error =
    | NotFoundOrStatusIncorrect   // /update-status
    | SlotTaken                   // the overlap query found a booking
    | NotFoundOrNotOwner          // /complete-booking, /cancel-booking
    | CannotAccept                // /accept-booking, status 400
    | CannotCancel                // /cancel-booking-admin, status 400
    | Forbidden                   // the isAdmin middleware, status 403
    | CannotConfirm               // /confirm-arrival
    | StationUnavailable          // POST /bookings, status 400
    | ServerError                 // an exception thrown after a save, status 500

  datatype Response = Ok | Created(id: BookingId, booking: Booking) | Fail(error: Error)

  /** What a handler leaves behind: the new store and its response. */
  datatype Step = Step(db: Db, response: Response)

  /** Thirty minutes in milliseconds: `30 * 60000`. */
  const HalfHour: int := 30 * 60000

  /** The station update most handlers make: when the station exists its status becomes `s`. */
  function SetProductStatus(products: map<ProductId, P.Product>, pid: ProductId, s: P.Status): (r: map<ProductId, P.Product>)
    ensures r.Keys == products.Keys
    ensures pid in r ==> r[pid] == products[pid].(status := s)
    ensures forall q :: q in r && q != pid ==> r[q] == products[q]
  {
    if pid in products then products[pid := products[pid].(status := s)] else products
  }

  /** The fields the creation routes pass; POST /bookings also passes `status: 'Booked'`. */
  function CreationFields(userId: UserId, productId: ProductId, start: Time, end: Time, pin: string, explicitStatus: bool): BookingFields
  {
    BookingFields(
      Some(userId), Some(productId),
      if explicitStatus then Some("Booked") else None,
      Some(pin), None, Some(start), Some(end), Some(start + HalfHour), None)
  }

  /**
   * The record a creation route saves: it always passes validation, has status
   * 'Booked' (explicit or by default), `arrived = false`, a six-digit PIN and
   * `expirationTime = start + 30 minutes`.
   */
  function NewBooking(userId: UserId, productId: ProductId, start: Time, end: Time, random: Pin.Draw, explicitStatus: bool, now: Time): (b: Booking)
    ensures Create(CreationFields(userId, productId, start, end, Pin.GeneratePin(random), explicitStatus), now) == Success(b)
    ensures b.userId == userId && b.productId == productId
    ensures b.startTime == start && b.endTime == end
    ensures b.expirationTime == start + HalfHour
    ensures b.status == Booked && !b.arrived && b.createdAt == now
    ensures b.pin == Pin.GeneratePin(random) && Pin.IsSixDigitPin(b.pin)
  {
    var pin := Pin.GeneratePin(random);
    var r := Create(CreationFields(userId, productId, start, end, pin, explicitStatus), now);
    assert r.Success?;
    r.value
  }

  /** Inserting a new booking under the fresh id. */
  function Insert(db: Db, b: Booking): (r: Db)
    ensures r.bookings == db.bookings[db.nextId := b] && r.nextId == db.nextId + 1
    ensures r.products == db.products && r.users == db.users
  {
    db.(bookings := db.bookings[db.nextId := b], nextId := db.nextId + 1)
  }

  /**
   * What every handler keeps: ids below `nextId`, and each booking holds a
   * six-digit PIN and expires thirty minutes after its start.
   */
  ghost predicate WellFormed(db: Db)
  {
    forall id :: id in db.bookings ==>
      && id < db.nextId
      && Pin.IsSixDigitPin(db.bookings[id].pin)
      && db.bookings[id].expirationTime == db.bookings[id].startTime + HalfHour
  }

  /** Two records of one reservation: they may differ only in status and arrival flag. */
  predicate SameReservation(a: Booking, b: Booking)
  {
    && a.userId == b.userId && a.productId == b.productId && a.pin == b.pin
    && a.startTime == b.startTime && a.endTime == b.endTime
    && a.expirationTime == b.expirationTime && a.createdAt == b.createdAt
  }

  /**
   * What no handler does: delete a booking or change anything of it but its
   * status and arrival flag, store a booking under an id that was not fresh,
   * add or remove a station or change anything of it but its status, or
   * touch the users.
   */
  predicate Evolves(before: Db, after: Db)
  {
    && (forall id :: id in before.bookings ==>
          id in after.bookings && SameReservation(before.bookings[id], after.bookings[id]))
    && (forall id :: id in after.bookings && id !in before.bookings ==> before.nextId <= id < after.nextId)
    && after.products.Keys == before.products.Keys
    && (forall pid :: pid in before.products ==>
          after.products[pid] == before.products[pid].(status := after.products[pid].status))
    && after.users == before.users
    && before.nextId <= after.nextId
  }

  lemma EvolvesTransitive(a: Db, b: Db, c: Db)
    requires Evolves(a, b) && Evolves(b, c)
    ensures Evolves(a, c)
  {
  }

  lemma EvolvesReflexive(db: Db)
    ensures Evolves(db, db)
  {
  }

  /** Setting one booking's status (and arrival flag) and one station's status evolves the store. */
  lemma SetStatusEvolves(db: Db, id: BookingId, s: Status, arrived: bool, pid: ProductId, ps: P.Status)
    requires id in db.bookings
    ensures Evolves(db, db.(bookings := db.bookings[id := db.bookings[id].(status := s, arrived := arrived)],
                             products := SetProductStatus(db.products, pid, ps)))
  {
  }

  /** Inserting under a fresh id and setting one station's status evolves the store. */
  lemma InsertEvolves(db: Db, b: Booking, pid: ProductId, ps: P.Status)
    requires db.nextId !in db.bookings
    ensures Evolves(db, Insert(db, b))
    ensures Evolves(db, Insert(db, b).(products := SetProductStatus(db.products, pid, ps)))
  {
  }
}
