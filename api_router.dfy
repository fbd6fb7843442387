/**
 * The two creation routes of routes/apiRouter.js. Both run the same overlap
 * query; POST /bookings also demands that the product exists and is
 * 'Available', POST /book does not.
 */
module ApiRouter {
  import opened BookingModel
  import P = ProductModel
  import Pin
  import opened Availability
  import opened Store

  /** POST /bookings: availability, then overlap, then insert and mark the product 'Booked'. */
  function CreateBooking(db: Db, userId: UserId, productId: ProductId, start: Time, end: Time, random: Pin.Draw, now: Time): (st: Step)
    ensures !st.response.Created? ==> st.db == db
  {
    if productId !in db.products || db.products[productId].status != P.Available then
      Step(db, Fail(StationUnavailable))
    else if Conflicts(db.bookings, productId, start, end) != {} then
      Step(db, Fail(SlotTaken))
    else
      var b := NewBooking(userId, productId, start, end, random, true, now);
      Step(Insert(db, b).(products := SetProductStatus(db.products, productId, P.Booked)),
           Created(db.nextId, b))
  }

  /**
   * POST /book: the overlap query alone guards admission. Without a product
   * record the handler throws after the booking was saved.
   */
  function Book(db: Db, userId: UserId, productId: ProductId, start: Time, end: Time, random: Pin.Draw, now: Time): (st: Step)
    ensures st.response == Fail(SlotTaken) ==> st.db == db
  {
    if Conflicts(db.bookings, productId, start, end) != {} then
      Step(db, Fail(SlotTaken))
    else
      var b := NewBooking(userId, productId, start, end, random, false, now);
      if productId in db.products then
        Step(Insert(db, b).(products := SetProductStatus(db.products, productId, P.Booked)),
             Created(db.nextId, b))
      else
        Step(Insert(db, b), Fail(ServerError))
  }

  /** POST /bookings turns a request away, changing nothing, exactly when the station is missing or not 'Available' or the window is taken. */
  lemma CreateBookingAdmission(db: Db, userId: UserId, productId: ProductId, start: Time, end: Time, random: Pin.Draw, now: Time)
    ensures var st := CreateBooking(db, userId, productId, start, end, random, now);
      && (st.response.Created? <==>
            productId in db.products && db.products[productId].status == P.Available
            && Conflicts(db.bookings, productId, start, end) == {})
      && (!st.response.Created? ==> st.db == db)
      && (st.response.Created? ==> Admitted(db, st, userId, productId, start, end, random, now))
  {
  }

  /**
   * A created booking is returned with its PIN: it is stored under a fresh id
   * with status 'Booked', not arrived, expiring thirty minutes after its start,
   * no other booking changes and the station is set to 'Booked'.
   */
  ghost predicate Admitted(db: Db, st: Step, userId: UserId, productId: ProductId, start: Time, end: Time, random: Pin.Draw, now: Time)
    requires st.response.Created?
  {
    var b := st.response.booking;
    && st.response.id == db.nextId
    && st.db.bookings == db.bookings[db.nextId := b]
    && st.db.nextId == db.nextId + 1
    && b.pin == Pin.GeneratePin(random) && Pin.IsSixDigitPin(b.pin)
    && b.status == Booked && !b.arrived && b.createdAt == now
    && b.userId == userId && b.productId == productId
    && b.startTime == start && b.endTime == end && b.expirationTime == start + HalfHour
    && productId in st.db.products && st.db.products[productId].status == P.Booked
    && st.db.products.Keys == db.products.Keys
    && (forall q :: q in db.products && q != productId ==> st.db.products[q] == db.products[q])
  }

  /**
   * POST /book turns a request away, changing nothing, exactly when the window
   * is taken; otherwise the booking is saved, and it is returned unless the
   * station record is missing, which ends in a server error after the save.
   */
  lemma BookAdmission(db: Db, userId: UserId, productId: ProductId, start: Time, end: Time, random: Pin.Draw, now: Time)
    ensures var st := Book(db, userId, productId, start, end, random, now);
      && (st.response == Fail(SlotTaken) <==> Conflicts(db.bookings, productId, start, end) != {})
      && (st.response == Fail(SlotTaken) ==> st.db == db)
      && (st.response.Created? <==> Conflicts(db.bookings, productId, start, end) == {} && productId in db.products)
      && (st.response.Created? ==> Admitted(db, st, userId, productId, start, end, random, now))
      && (st.response == Fail(ServerError) <==> Conflicts(db.bookings, productId, start, end) == {} && productId !in db.products)
      && (st.response == Fail(ServerError) ==>
            && st.db.bookings == db.bookings[db.nextId := NewBooking(userId, productId, start, end, random, false, now)]
            && st.db.nextId == db.nextId + 1
            && st.db.products == db.products
            && st.db.users == db.users)
  {
  }

  /** POST /book admits a window on a station that is already 'Booked' or 'In Use' when nothing overlaps it. */
  lemma BookIgnoresStationStatus(db: Db, userId: UserId, productId: ProductId, start: Time, end: Time, random: Pin.Draw, now: Time)
    requires productId in db.products && db.products[productId].status != P.Available
    requires Conflicts(db.bookings, productId, start, end) == {}
    ensures Book(db, userId, productId, start, end, random, now).response.Created?
    ensures CreateBooking(db, userId, productId, start, end, random, now).response == Fail(StationUnavailable)
  {
  }
}
