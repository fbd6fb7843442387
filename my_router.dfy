/**
 * The booking handlers of routes/myRouter.js, each as a step from the store
 * before the request to the store after it and the response sent. Each
 * handler runs to completion before the next one starts.
 */
module MyRouter {
  import opened BookingModel
  import P = ProductModel
  import Pin
  import opened Availability
  import opened Store

  /** POST /update-status: the client-side timeout cancels a booking that is still 'Booked'. */
  function UpdateStatus(db: Db, id: BookingId): (st: Step)
    ensures st.response != Ok ==> st.db == db
  {
    if id in db.bookings && db.bookings[id].status == Booked then
      var b := db.bookings[id];
      Step(db.(bookings := db.bookings[id := b.(status := Cancel)],
               products := SetProductStatus(db.products, b.productId, P.Available)),
           Ok)
    else
      Step(db, Fail(NotFoundOrStatusIncorrect))
  }

  /**
   * POST /book: the overlap query alone guards admission; the product's own
   * status is not consulted. A missing product record is skipped.
   */
  function Book(db: Db, userId: UserId, productId: ProductId, start: Time, end: Time, random: Pin.Draw, now: Time): (st: Step)
    ensures st.response != Ok ==> st.db == db
  {
    if Conflicts(db.bookings, productId, start, end) != {} then
      Step(db, Fail(SlotTaken))
    else
      var b := NewBooking(userId, productId, start, end, random, false, now);
      Step(Insert(db, b).(products := SetProductStatus(db.products, productId, P.Booked)), Ok)
  }

  /** POST /complete-booking: only ownership is checked, not the current status. */
  function CompleteBooking(db: Db, id: BookingId, requester: UserId): (st: Step)
    ensures st.response != Ok ==> st.db == db
  {
    if id !in db.bookings || db.bookings[id].userId != requester then
      Step(db, Fail(NotFoundOrNotOwner))
    else
      var b := db.bookings[id];
      Step(db.(bookings := db.bookings[id := b.(status := Completed)],
               products := SetProductStatus(db.products, b.productId, P.Available)),
           Ok)
  }

  /** POST /cancel-booking: only ownership is checked, not the current status. */
  function CancelBooking(db: Db, id: BookingId, requester: UserId): (st: Step)
    ensures st.response != Ok ==> st.db == db
  {
    if id !in db.bookings || db.bookings[id].userId != requester then
      Step(db, Fail(NotFoundOrNotOwner))
    else
      var b := db.bookings[id];
      Step(db.(bookings := db.bookings[id := b.(status := Cancel)],
               products := SetProductStatus(db.products, b.productId, P.Available)),
           Ok)
  }

  /**
   * POST /accept-booking (admin). The booking is loaded with its product and
   * its user populated; a missing record populates as null, so the `required`
   * validator fails the save and the handler answers 500 with nothing written.
   */
  function AcceptBooking(db: Db, id: BookingId, isAdmin: bool): (st: Step)
    ensures st.response != Ok ==> st.db == db
  {
    if !isAdmin then
      Step(db, Fail(Forbidden))
    else if id !in db.bookings || db.bookings[id].status != Booked then
      Step(db, Fail(CannotAccept))
    else
      var b := db.bookings[id];
      if b.productId in db.products && b.userId in db.users then
        Step(db.(bookings := db.bookings[id := b.(status := InUse)],
                 products := SetProductStatus(db.products, b.productId, P.InUse)),
             Ok)
      else
        Step(db, Fail(ServerError))
  }

  /**
   * POST /cancel-booking-admin (admin). Without a product record the handler
   * throws after the booking was saved as 'Cancel'.
   */
  function CancelBookingAdmin(db: Db, id: BookingId, isAdmin: bool): (st: Step)
    ensures st.response != Ok && st.response != Fail(ServerError) ==> st.db == db
  {
    if !isAdmin then
      Step(db, Fail(Forbidden))
    else if id !in db.bookings || db.bookings[id].status != Booked then
      Step(db, Fail(CannotCancel))
    else
      var b := db.bookings[id];
      var saved := db.(bookings := db.bookings[id := b.(status := Cancel)]);
      if b.productId in db.products then
        Step(saved.(products := SetProductStatus(db.products, b.productId, P.Available)), Ok)
      else
        Step(saved, Fail(ServerError))
  }

  /** The rejection test of POST /confirm-arrival; the booking's status is not part of it. */
  predicate ArrivalRejected(db: Db, id: BookingId, pin: string, now: Time)
  {
    id !in db.bookings || db.bookings[id].pin != pin
    || now < db.bookings[id].startTime || now > db.bookings[id].endTime
  }

  /** POST /confirm-arrival: a matching PIN inside the closed window [start, end]. */
  function ConfirmArrival(db: Db, id: BookingId, pin: string, now: Time): (st: Step)
    ensures st.response != Ok ==> st.db == db
  {
    if ArrivalRejected(db, id, pin, now) then
      Step(db, Fail(CannotConfirm))
    else
      var b := db.bookings[id];
      Step(db.(bookings := db.bookings[id := b.(arrived := true, status := InUse)],
               products := SetProductStatus(db.products, b.productId, P.InUse)),
           Ok)
  }

  /** A booking the sweep selects: `status: 'Booked', expirationTime: { $lt: now }`. */
  predicate Expired(b: Booking, now: Time)
  {
    b.status == Booked && b.expirationTime < now
  }

  function ExpiredIds(bookings: map<BookingId, Booking>, now: Time): set<BookingId>
  {
    set id | id in bookings && Expired(bookings[id], now)
  }

  /** The products the sweep sets to 'Available': those of the selected bookings. */
  function ReleasedProducts(bookings: map<BookingId, Booking>, now: Time): set<ProductId>
  {
    set id | id in ExpiredIds(bookings, now) :: bookings[id].productId
  }

  /** The bookings after one sweep: each selected booking is 'Cancel', the rest are as they were. */
  function SweepBookings(bookings: map<BookingId, Booking>, now: Time): map<BookingId, Booking>
  {
    map id | id in bookings :: if Expired(bookings[id], now) then bookings[id].(status := Cancel) else bookings[id]
  }

  /** The products after one sweep. */
  function SweepProducts(bookings: map<BookingId, Booking>, products: map<ProductId, P.Product>, now: Time): map<ProductId, P.Product>
  {
    map pid | pid in products ::
      if pid in ReleasedProducts(bookings, now) then products[pid].(status := P.Available) else products[pid]
  }

  /** One pass of the `setInterval` callback at instant `now`. */
  function Sweep(db: Db, now: Time): (after: Db)
    ensures after.bookings.Keys == db.bookings.Keys && after.products.Keys == db.products.Keys
    ensures after.users == db.users && after.nextId == db.nextId
  {
    db.(bookings := SweepBookings(db.bookings, now),
        products := SweepProducts(db.bookings, db.products, now))
  }

  // ---------------------------------------------------------------------
  // What each handler promises

  /** /update-status acts only on a 'Booked' booking: it cancels it and frees its station; otherwise nothing changes. */
  lemma UpdateStatusOnlyCancelsBooked(db: Db, id: BookingId)
    ensures var st := UpdateStatus(db, id);
      && (st.response == Ok <==> id in db.bookings && db.bookings[id].status == Booked)
      && (st.response != Ok ==> st.db == db && st.response == Fail(NotFoundOrStatusIncorrect))
      && (st.response == Ok ==>
            && st.db.bookings == db.bookings[id := db.bookings[id].(status := Cancel)]
            && st.db.products == SetProductStatus(db.products, db.bookings[id].productId, P.Available)
            && st.db.nextId == db.nextId)
  {
  }

  /**
   * /book in myRouter.js: a conflict rejects the request and changes nothing;
   * otherwise exactly one booking is added under a fresh id, 'Booked', not
   * arrived, expiring thirty minutes after its start, and its station is set
   * to 'Booked' whatever its status was.
   */
  lemma BookAdmission(db: Db, userId: UserId, productId: ProductId, start: Time, end: Time, random: Pin.Draw, now: Time)
    requires WellFormed(db)
    ensures var st := Book(db, userId, productId, start, end, random, now);
      && (st.response == Ok <==> Conflicts(db.bookings, productId, start, end) == {})
      && (st.response != Ok ==> st.db == db)
      && (st.response == Ok ==>
            && db.nextId !in db.bookings
            && st.db.bookings.Keys == db.bookings.Keys + {db.nextId}
            && (forall id :: id in db.bookings ==> st.db.bookings[id] == db.bookings[id])
            && var b := st.db.bookings[db.nextId];
            && b.status == Booked && !b.arrived && b.userId == userId && b.productId == productId
            && b.startTime == start && b.endTime == end && b.expirationTime == start + HalfHour
            && st.db.bookings == db.bookings[db.nextId := NewBooking(userId, productId, start, end, random, false, now)]
            && st.db.nextId == db.nextId + 1
            && st.db.products == SetProductStatus(db.products, productId, P.Booked)
            && (productId in db.products ==> st.db.products[productId].status == P.Booked)
            && (forall q :: q in db.products && q != productId ==> st.db.products[q] == db.products[q]))
  {
  }

  /**
   * /complete-booking and /cancel-booking: a missing booking or another user
   * changes nothing; for the owner the status is set whatever it was, and the
   * station is freed.
   */
  lemma OwnerTransitionsIgnoreStatus(db: Db, id: BookingId, requester: UserId)
    ensures var done := CompleteBooking(db, id, requester);
            var gone := CancelBooking(db, id, requester);
      && (done.response == Ok <==> id in db.bookings && db.bookings[id].userId == requester)
      && (gone.response == Ok <==> id in db.bookings && db.bookings[id].userId == requester)
      && (done.response != Ok ==> done.db == db)
      && (gone.response != Ok ==> gone.db == db)
      && (done.response == Ok ==>
            && done.db.bookings == db.bookings[id := db.bookings[id].(status := Completed)]
            && done.db.products == SetProductStatus(db.products, db.bookings[id].productId, P.Available))
      && (gone.response == Ok ==>
            && gone.db.bookings == db.bookings[id := db.bookings[id].(status := Cancel)]
            && gone.db.products == SetProductStatus(db.products, db.bookings[id].productId, P.Available))
  {
  }

  /**
   * /accept-booking and /cancel-booking-admin act only on a 'Booked' booking
   * and only for an admin; otherwise nothing changes. Acceptance needs the
   * booking's station and user records and writes nothing without them;
   * cancellation writes the booking first and reports a server error after
   * it when the station record is missing.
   */
  lemma AdminTransitionsOnlyFromBooked(db: Db, id: BookingId, isAdmin: bool)
    ensures var acc := AcceptBooking(db, id, isAdmin);
            var can := CancelBookingAdmin(db, id, isAdmin);
            var acts := isAdmin && id in db.bookings && db.bookings[id].status == Booked;
      && (!acts ==> acc.db == db && can.db == db && acc.response.Fail? && can.response.Fail?)
      && (acts ==>
            var b := db.bookings[id];
            var found := b.productId in db.products && b.userId in db.users;
            && (acc.response == Ok <==> found)
            && (found ==>
                  && acc.db.bookings == db.bookings[id := b.(status := InUse)]
                  && acc.db.products == SetProductStatus(db.products, b.productId, P.InUse))
            && (!found ==> acc == Step(db, Fail(ServerError)))
            && can.db.bookings == db.bookings[id := b.(status := Cancel)]
            && can.db.products == SetProductStatus(db.products, b.productId, P.Available)
            && (can.response == Ok <==> b.productId in db.products)
            && (can.response != Ok ==> can.response == Fail(ServerError)))
  {
  }

  /**
   * /confirm-arrival: it fails and changes nothing when the booking is
   * missing, the PIN differs, or `now` lies outside the closed window
   * [start, end]; otherwise the booking is arrived and 'In Use', whatever its
   * previous status, and so is its station.
   */
  lemma ConfirmArrivalGate(db: Db, id: BookingId, pin: string, now: Time)
    ensures var st := ConfirmArrival(db, id, pin, now);
      && (st.response == Ok <==>
            id in db.bookings && db.bookings[id].pin == pin
            && db.bookings[id].startTime <= now <= db.bookings[id].endTime)
      && (st.response != Ok ==> st.db == db)
      && (st.response == Ok ==>
            && st.db.bookings == db.bookings[id := db.bookings[id].(arrived := true, status := InUse)]
            && st.db.products == SetProductStatus(db.products, db.bookings[id].productId, P.InUse))
  {
  }

  /** Confirming again with the same PIN succeeds again and changes nothing more. */
  lemma ConfirmArrivalTwice(db: Db, id: BookingId, pin: string, now: Time)
    requires ConfirmArrival(db, id, pin, now).response == Ok
    ensures var once := ConfirmArrival(db, id, pin, now).db;
      ConfirmArrival(once, id, pin, now) == Step(once, Ok)
  {
  }

  // ---------------------------------------------------------------------
  // The expiry sweep

  /** One sweep cancels exactly the selected bookings and leaves every other booking as it was. */
  lemma SweepCancelsExactlyExpired(bookings: map<BookingId, Booking>, now: Time)
    ensures var after := SweepBookings(bookings, now);
      && after.Keys == bookings.Keys
      && (forall id :: id in bookings && Expired(bookings[id], now) ==>
            after[id] == bookings[id].(status := Cancel))
      && (forall id :: id in bookings && !Expired(bookings[id], now) ==> after[id] == bookings[id])
  {
  }

  /** 'In Use', 'Completed' and 'Cancel' bookings are never touched by the sweep. */
  lemma SweepSparesUnbooked(bookings: map<BookingId, Booking>, id: BookingId, now: Time)
    requires id in bookings && bookings[id].status != Booked
    ensures SweepBookings(bookings, now)[id] == bookings[id]
  {
  }

  /** After a sweep no booking is left that the sweep would select. */
  lemma SweepLeavesNoneExpired(bookings: map<BookingId, Booking>, now: Time)
    ensures ExpiredIds(SweepBookings(bookings, now), now) == {}
  {
  }

  /** The sweep only changes statuses: see `Evolves`. */
  lemma SweepEvolves(db: Db, now: Time)
    ensures Evolves(db, Sweep(db, now))
  {
  }

  /** A second sweep at the same instant changes nothing. */
  lemma SweepIdempotent(db: Db, now: Time)
    ensures Sweep(Sweep(db, now), now) == Sweep(db, now)
  {
  }

  /** The station of every cancelled booking is 'Available' after the sweep; other stations keep their status. */
  lemma SweepReleasesStations(db: Db, now: Time)
    ensures var after := Sweep(db, now);
      && after.products.Keys == db.products.Keys
      && (forall id :: id in db.bookings && Expired(db.bookings[id], now) && db.bookings[id].productId in db.products ==>
            after.products[db.bookings[id].productId].status == P.Available)
      && (forall pid :: pid in db.products && pid !in ReleasedProducts(db.bookings, now) ==>
            after.products[pid] == db.products[pid])
  {
  }
}
