/**
 * The booking handlers of both routers as one sequential state machine:
 * every request is one handler run to completion, and the expiry sweep is one
 * more kind of request. The invariants the handlers keep, the one they do not,
 * and the scenarios below are stated here.
 */
module Lifecycle {
  import opened BookingModel
  import P = ProductModel
  import Pin
  import opened Availability
  import opened Store
  import MyRouter
  import ApiRouter

  datatype Request =
    | UpdateStatus(id: BookingId)
    | Book(userId: UserId, productId: ProductId, start: Time, end: Time, random: Pin.Draw, now: Time)
    | CompleteBooking(id: BookingId, requester: UserId)
    | CancelBooking(id: BookingId, requester: UserId)
    | AcceptBooking(id: BookingId, isAdmin: bool)
    | CancelBookingAdmin(id: BookingId, isAdmin: bool)
    | ConfirmArrival(id: BookingId, pin: string, now: Time)
    | Sweep(now: Time)
    | ApiCreateBooking(userId: UserId, productId: ProductId, start: Time, end: Time, random: Pin.Draw, now: Time)
    | ApiBook(userId: UserId, productId: ProductId, start: Time, end: Time, random: Pin.Draw, now: Time)

  /** The handler a request reaches, or one sweep pass. */
  function Handle(db: Db, req: Request): (st: Step)
    ensures st.db.users == db.users && st.db.products.Keys == db.products.Keys && db.nextId <= st.db.nextId
  {
    match req
    case UpdateStatus(id) => MyRouter.UpdateStatus(db, id)
    case Book(u, p, s, e, r, now) => MyRouter.Book(db, u, p, s, e, r, now)
    case CompleteBooking(id, u) => MyRouter.CompleteBooking(db, id, u)
    case CancelBooking(id, u) => MyRouter.CancelBooking(db, id, u)
    case AcceptBooking(id, admin) => MyRouter.AcceptBooking(db, id, admin)
    case CancelBookingAdmin(id, admin) => MyRouter.CancelBookingAdmin(db, id, admin)
    case ConfirmArrival(id, pin, now) => MyRouter.ConfirmArrival(db, id, pin, now)
    case Sweep(now) => Step(MyRouter.Sweep(db, now), Ok)
    case ApiCreateBooking(u, p, s, e, r, now) => ApiRouter.CreateBooking(db, u, p, s, e, r, now)
    case ApiBook(u, p, s, e, r, now) => ApiRouter.Book(db, u, p, s, e, r, now)
  }

  /** The store after a sequence of requests, handled one after another. */
  function Run(db: Db, reqs: seq<Request>): (after: Db)
    ensures WellFormed(db) ==> Evolves(db, after)
    decreases |reqs|
  {
    if reqs == [] then db
    else
      var after := Run(Handle(db, reqs[0]).db, reqs[1..]);
      ChainEvolves(db, reqs[0], after);
      after
  }

  /** One handled request followed by any evolution of the store is still an evolution. */
  lemma ChainEvolves(db: Db, req: Request, after: Db)
    requires WellFormed(Handle(db, req).db) ==> Evolves(Handle(db, req).db, after)
    ensures WellFormed(db) ==> Evolves(db, after)
  {
    if WellFormed(db) {
      HandleKeepsWellFormed(db, req);
      HandleEvolves(db, req);
      EvolvesTransitive(db, Handle(db, req).db, after);
    }
  }

  /** On a well-formed store every handler only evolves the store: see `Evolves`. */
  lemma HandleEvolves(db: Db, req: Request)
    requires WellFormed(db)
    ensures Evolves(db, Handle(db, req).db)
  {
    var after := Handle(db, req).db;
    if after == db {
      EvolvesReflexive(db);
    } else {
      match req
      case UpdateStatus(id) =>
        SetStatusEvolves(db, id, Cancel, db.bookings[id].arrived, db.bookings[id].productId, P.Available);
      case Book(u, p, s, e, r, now) =>
        InsertEvolves(db, NewBooking(u, p, s, e, r, false, now), p, P.Booked);
      case CompleteBooking(id, u) =>
        SetStatusEvolves(db, id, Completed, db.bookings[id].arrived, db.bookings[id].productId, P.Available);
      case CancelBooking(id, u) =>
        SetStatusEvolves(db, id, Cancel, db.bookings[id].arrived, db.bookings[id].productId, P.Available);
      case AcceptBooking(id, admin) =>
        SetStatusEvolves(db, id, InUse, db.bookings[id].arrived, db.bookings[id].productId, P.InUse);
      case CancelBookingAdmin(id, admin) =>
        SetStatusEvolves(db, id, Cancel, db.bookings[id].arrived, db.bookings[id].productId, P.Available);
      case ConfirmArrival(id, pin, now) =>
        SetStatusEvolves(db, id, InUse, true, db.bookings[id].productId, P.InUse);
      case Sweep(now) =>
        MyRouter.SweepEvolves(db, now);
      case ApiCreateBooking(u, p, s, e, r, now) =>
        InsertEvolves(db, NewBooking(u, p, s, e, r, true, now), p, P.Booked);
      case ApiBook(u, p, s, e, r, now) =>
        InsertEvolves(db, NewBooking(u, p, s, e, r, false, now), p, P.Booked);
    }
  }

  /**
   * A rejected request changes nothing, except a server error from
   * /cancel-booking-admin or POST /book in apiRouter.js, which fail after
   * their first write.
   */
  lemma RejectionChangesNothing(db: Db, req: Request)
    requires Handle(db, req).response.Fail?
    requires Handle(db, req).response.error == ServerError ==> !req.CancelBookingAdmin? && !req.ApiBook?
    ensures Handle(db, req).db == db
  {
  }

  /**
   * Where a server error comes from: /accept-booking without the booking's
   * station or user record (nothing written), /cancel-booking-admin without
   * the station record (the booking already saved as 'Cancel'), and POST /book
   * in apiRouter.js without the station record (the booking already inserted).
   */
  lemma ServerErrorMeansMissingRecord(db: Db, req: Request)
    requires Handle(db, req).response == Fail(ServerError)
    ensures req.AcceptBooking? || req.CancelBookingAdmin? || req.ApiBook?
    ensures req.AcceptBooking? ==>
      && Handle(db, req).db == db
      && req.id in db.bookings
      && (db.bookings[req.id].productId !in db.products || db.bookings[req.id].userId !in db.users)
    ensures req.CancelBookingAdmin? ==>
      && req.id in db.bookings
      && db.bookings[req.id].productId !in db.products
      && Handle(db, req).db == db.(bookings := db.bookings[req.id := db.bookings[req.id].(status := Cancel)])
    ensures req.ApiBook? ==>
      && req.productId !in db.products
      && Handle(db, req).db == Insert(db, NewBooking(req.userId, req.productId, req.start, req.end, req.random, false, req.now))
  {
  }

  /** Every handler keeps the store well formed: fresh ids, six-digit PINs, expiry at start plus thirty minutes. */
  lemma HandleKeepsWellFormed(db: Db, req: Request)
    requires WellFormed(db)
    ensures WellFormed(Handle(db, req).db)
  {
  }

  lemma {:induction false} RunKeepsWellFormed(db: Db, reqs: seq<Request>)
    requires WellFormed(db)
    ensures WellFormed(Run(db, reqs))
    decreases |reqs|
  {
    if reqs != [] {
      HandleKeepsWellFormed(db, reqs[0]);
      RunKeepsWellFormed(Handle(db, reqs[0]).db, reqs[1..]);
    }
  }

  /** The sweep only moves bookings out of the active statuses, so it keeps ActiveDisjoint. */
  lemma SweepKeepsDisjoint(bookings: map<BookingId, Booking>, now: Time)
    requires ActiveDisjoint(bookings)
    ensures ActiveDisjoint(MyRouter.SweepBookings(bookings, now))
  {
  }

  /**
   * A request that cannot revive an inactive booking: anything but an arrival
   * confirmation, or one whose booking is missing or still active.
   */
  ghost predicate ConfirmsActive(db: Db, req: Request)
  {
    req.ConfirmArrival? ==> req.id in db.bookings ==> IsActive(db.bookings[req.id].status)
  }

  /**
   * Every handler keeps ActiveDisjoint (active bookings on one station never
   * overlap), /confirm-arrival as long as its booking is still active.
   * Admission is guarded by the overlap query, and the other handlers only
   * deactivate bookings or move an active one to 'In Use'.
   */
  lemma HandleKeepsDisjoint(db: Db, req: Request)
    requires WellFormed(db) && ActiveDisjoint(db.bookings)
    requires ConfirmsActive(db, req)
    ensures ActiveDisjoint(Handle(db, req).db.bookings)
  {
    match req
    case UpdateStatus(id) =>
      if id in db.bookings && db.bookings[id].status == Booked {
        DeactivateKeepsDisjoint(db.bookings, id, Cancel);
      }
    case Book(u, p, s, e, r, now) =>
      if Conflicts(db.bookings, p, s, e) == {} {
        AdmitKeepsDisjoint(db.bookings, db.nextId, NewBooking(u, p, s, e, r, false, now));
      }
    case CompleteBooking(id, u) =>
      if id in db.bookings && db.bookings[id].userId == u {
        DeactivateKeepsDisjoint(db.bookings, id, Completed);
      }
    case CancelBooking(id, u) =>
      if id in db.bookings && db.bookings[id].userId == u {
        DeactivateKeepsDisjoint(db.bookings, id, Cancel);
      }
    case AcceptBooking(id, admin) =>
      if admin && id in db.bookings && db.bookings[id].status == Booked {
        ActivateKeepsDisjoint(db.bookings, id, db.bookings[id].arrived);
        assert db.bookings[id].(status := InUse, arrived := db.bookings[id].arrived) == db.bookings[id].(status := InUse);
      }
    case CancelBookingAdmin(id, admin) =>
      if admin && id in db.bookings && db.bookings[id].status == Booked {
        DeactivateKeepsDisjoint(db.bookings, id, Cancel);
      }
    case ConfirmArrival(id, pin, now) =>
      if !MyRouter.ArrivalRejected(db, id, pin, now) {
        ActivateKeepsDisjoint(db.bookings, id, true);
      }
    case Sweep(now) =>
      SweepKeepsDisjoint(db.bookings, now);
    case ApiCreateBooking(u, p, s, e, r, now) =>
      if Conflicts(db.bookings, p, s, e) == {} {
        AdmitKeepsDisjoint(db.bookings, db.nextId, NewBooking(u, p, s, e, r, true, now));
      }
    case ApiBook(u, p, s, e, r, now) =>
      if Conflicts(db.bookings, p, s, e) == {} {
        AdmitKeepsDisjoint(db.bookings, db.nextId, NewBooking(u, p, s, e, r, false, now));
      }
  }

  /** Every arrival confirmation in the sequence finds its booking still active when it runs. */
  ghost predicate RunConfirmsActive(db: Db, reqs: seq<Request>)
    decreases |reqs|
  {
    reqs != [] ==> ConfirmsActive(db, reqs[0]) && RunConfirmsActive(Handle(db, reqs[0]).db, reqs[1..])
  }

  /** Any sequence of requests whose arrival confirmations all target active bookings keeps ActiveDisjoint. */
  lemma {:induction false} RunKeepsDisjoint(db: Db, reqs: seq<Request>)
    requires WellFormed(db) && ActiveDisjoint(db.bookings)
    requires RunConfirmsActive(db, reqs)
    ensures ActiveDisjoint(Run(db, reqs).bookings)
    decreases |reqs|
  {
    if reqs != [] {
      HandleKeepsDisjoint(db, reqs[0]);
      HandleKeepsWellFormed(db, reqs[0]);
      RunKeepsDisjoint(Handle(db, reqs[0]).db, reqs[1..]);
    }
  }

  /**
   * /confirm-arrival does not keep ActiveDisjoint: it does not check the status, so it
   * revives a 'Completed' or 'Cancel' booking whose window another active
   * booking on the same station has since taken.
   */
  lemma ConfirmArrivalRevivesOverlap(db: Db, id: BookingId, other: BookingId, now: Time)
    requires id in db.bookings && other in db.bookings && id != other
    requires db.bookings[id].productId == db.bookings[other].productId
    requires IsActive(db.bookings[other].status)
    requires Overlaps(db.bookings[id], db.bookings[other].startTime, db.bookings[other].endTime)
    requires db.bookings[id].startTime <= now <= db.bookings[id].endTime
    ensures !ActiveDisjoint(Handle(db, ConfirmArrival(id, db.bookings[id].pin, now)).db.bookings)
  {
    var after := Handle(db, ConfirmArrival(id, db.bookings[id].pin, now)).db.bookings;
    assert after[id].status == InUse && after[other] == db.bookings[other];
  }

  // ---------------------------------------------------------------------
  // Scenarios, from an empty store with one station

  const Station: ProductId := 7
  const Alice: UserId := 1
  const Bob: UserId := 2

  function Charger(s: P.Status): P.Product
  {
    P.Product("CH-7", 0, "Type 2", "0", "AC charger", s)
  }

  function Fresh(): Db
  {
    Db(map[], map[Station := Charger(P.Available)], {Alice, Bob}, 0)
  }

  const Ten: Time := 36_000_000        // 10:00
  const Eleven: Time := 39_600_000     // 11:00
  const Noon: Time := 43_200_000       // 12:00

  /**
   * Windows that touch at a boundary are both admitted by /book, the second
   * even though the station is already 'Booked'; POST /bookings turns the
   * second one away because the station is no longer 'Available'.
   */
  lemma TouchingWindowsScenario(r1: Pin.Draw, r2: Pin.Draw, now: Time)
    ensures var first := MyRouter.Book(Fresh(), Alice, Station, Ten, Eleven, r1, now);
      && first.response == Ok
      && MyRouter.Book(first.db, Bob, Station, Eleven, Noon, r2, now).response == Ok
      && ApiRouter.Book(first.db, Bob, Station, Eleven, Noon, r2, now).response.Created?
      && ApiRouter.CreateBooking(first.db, Bob, Station, Eleven, Noon, r2, now).response == Fail(StationUnavailable)
  {
  }

  /** [10:00, 11:00) then [10:30, 10:45): the second request is rejected and changes nothing. */
  lemma OverlapRejectedScenario(r1: Pin.Draw, r2: Pin.Draw, now: Time)
    ensures var first := MyRouter.Book(Fresh(), Alice, Station, Ten, Eleven, r1, now);
            var second := MyRouter.Book(first.db, Bob, Station, Ten + 1_800_000, Ten + 2_700_000, r2, now);
      && first.response == Ok
      && second == Step(first.db, Fail(SlotTaken))
  {
    var first := MyRouter.Book(Fresh(), Alice, Station, Ten, Eleven, r1, now);
    assert Conflicts(Fresh().bookings, Station, Ten, Eleven) == {};
    assert 0 in Conflicts(first.db.bookings, Station, Ten + 1_800_000, Ten + 2_700_000);
  }

  /**
   * The station status is overwritten by the last write, not derived from
   * the bookings: after two touching bookings, cancelling the first marks the
   * station 'Available' while the second is still 'Booked'.
   */
  lemma StationStatusDrifts(r1: Pin.Draw, r2: Pin.Draw, now: Time)
    ensures var first := MyRouter.Book(Fresh(), Alice, Station, Ten, Eleven, r1, now);
            var second := MyRouter.Book(first.db, Bob, Station, Eleven, Noon, r2, now);
            var after := MyRouter.CancelBooking(second.db, 0, Alice);
      && after.response == Ok
      && after.db.products[Station].status == P.Available
      && after.db.bookings[1].productId == Station
      && after.db.bookings[1].status == Booked
  {
  }

  /**
   * A 'Booked' booking past its expiry is 'Cancel' after one sweep and its
   * station 'Available'; one confirmed 'In Use' before the sweep is untouched.
   */
  lemma SweepScenario(r1: Pin.Draw, now: Time)
    ensures var first := MyRouter.Book(Fresh(), Alice, Station, Ten, Eleven, r1, now);
            var swept := MyRouter.Sweep(first.db, Ten + HalfHour + 1);
      && swept.bookings[0].status == Cancel
      && swept.products[Station].status == P.Available
    ensures var first := MyRouter.Book(Fresh(), Alice, Station, Ten, Eleven, r1, now);
            var arrived := MyRouter.ConfirmArrival(first.db, 0, first.db.bookings[0].pin, Ten);
            var swept := MyRouter.Sweep(arrived.db, Ten + HalfHour + 1);
      && arrived.response == Ok
      && swept.bookings[0] == arrived.db.bookings[0]
      && swept.bookings[0].status == InUse
  {
  }

  /** Book, cancel and book the same window again: the store then holds the cancelled booking and the new one. */
  lemma RebookSetup(r1: Pin.Draw, r2: Pin.Draw, now: Time)
    ensures var first := MyRouter.Book(Fresh(), Alice, Station, Ten, Eleven, r1, now);
            var cancelled := MyRouter.CancelBooking(first.db, 0, Alice);
            var again := MyRouter.Book(cancelled.db, Bob, Station, Ten, Eleven, r2, now);
      && again.response == Ok
      && again.db.bookings == map[0 := NewBooking(Alice, Station, Ten, Eleven, r1, false, now).(status := Cancel),
                                  1 := NewBooking(Bob, Station, Ten, Eleven, r2, false, now)]
  {
    var first := MyRouter.Book(Fresh(), Alice, Station, Ten, Eleven, r1, now);
    assert Conflicts(Fresh().bookings, Station, Ten, Eleven) == {};
    assert first.db.bookings == map[0 := NewBooking(Alice, Station, Ten, Eleven, r1, false, now)];
    var cancelled := MyRouter.CancelBooking(first.db, 0, Alice);
    assert cancelled.db.bookings == map[0 := NewBooking(Alice, Station, Ten, Eleven, r1, false, now).(status := Cancel)];
    assert Conflicts(cancelled.db.bookings, Station, Ten, Eleven) == {};
  }

  /**
   * The reachable break of ActiveDisjoint: book, cancel, book the same window
   * again, then confirm arrival on the cancelled booking with its PIN.
   */
  lemma ReviveScenario(r1: Pin.Draw, r2: Pin.Draw, now: Time)
    ensures var first := MyRouter.Book(Fresh(), Alice, Station, Ten, Eleven, r1, now);
            var cancelled := MyRouter.CancelBooking(first.db, 0, Alice);
            var again := MyRouter.Book(cancelled.db, Bob, Station, Ten, Eleven, r2, now);
            var revived := MyRouter.ConfirmArrival(again.db, 0, again.db.bookings[0].pin, Ten);
      && again.response == Ok
      && ActiveDisjoint(again.db.bookings)
      && revived.response == Ok
      && !ActiveDisjoint(revived.db.bookings)
  {
    RebookSetup(r1, r2, now);
    var first := MyRouter.Book(Fresh(), Alice, Station, Ten, Eleven, r1, now);
    var cancelled := MyRouter.CancelBooking(first.db, 0, Alice);
    var again := MyRouter.Book(cancelled.db, Bob, Station, Ten, Eleven, r2, now);
    ConfirmArrivalRevivesOverlap(again.db, 0, 1, Ten);
  }
}
