/**
 * The handlers as the routes run them: each finds a record, assigns its
 * fields and saves it, on a store whose two collections are fields of one
 * object. Every method is proved to leave the store and to answer as the
 * matching step function of MyRouter or ApiRouter says.
 */
module Server {
  import opened BookingModel
  import P = ProductModel
  import Pin
  import opened Availability
  import opened Store
  import MyRouter
  import ApiRouter
  import Lifecycle

  /** The bookings after the sweep has cancelled those in `done`. */
  ghost function CancelledIn(bs: map<BookingId, Booking>, done: set<BookingId>): map<BookingId, Booking>
  {
    map id | id in bs :: if id in done then bs[id].(status := Cancel) else bs[id]
  }

  ghost function StationsOf(bs: map<BookingId, Booking>, done: set<BookingId>): set<ProductId>
  {
    set i | i in done && i in bs :: bs[i].productId
  }

  /** The stations after the sweep has freed those of the bookings in `done`. */
  ghost function ReleasedIn(bs: map<BookingId, Booking>, ps: map<ProductId, P.Product>, done: set<BookingId>): map<ProductId, P.Product>
  {
    map pid | pid in ps :: if pid in StationsOf(bs, done) then ps[pid].(status := P.Available) else ps[pid]
  }

  /** Handling one more selected booking extends the partial sweep by that booking and its station. */
  lemma SweepOneMore(bs: map<BookingId, Booking>, ps: map<ProductId, P.Product>, done: set<BookingId>, id: BookingId)
    requires id in bs && id !in done
    ensures CancelledIn(bs, done)[id] == bs[id]
    ensures CancelledIn(bs, done + {id}) == CancelledIn(bs, done)[id := bs[id].(status := Cancel)]
    ensures ReleasedIn(bs, ps, done + {id}) == SetProductStatus(ReleasedIn(bs, ps, done), bs[id].productId, P.Available)
  {
  }

  /** Once every selected booking is handled, the partial sweep is the whole sweep. */
  lemma SweepAll(bs: map<BookingId, Booking>, ps: map<ProductId, P.Product>, now: Time)
    ensures CancelledIn(bs, MyRouter.ExpiredIds(bs, now)) == MyRouter.SweepBookings(bs, now)
    ensures ReleasedIn(bs, ps, MyRouter.ExpiredIds(bs, now)) == MyRouter.SweepProducts(bs, ps, now)
  {
  }

  class BookingSystem {
    var bookings: map<BookingId, Booking>
    var products: map<ProductId, P.Product>
    var nextId: BookingId
    /** The ids of the User collection, which none of these handlers writes. */
    const users: set<UserId>

    function State(): Db
      reads this
    {
      Db(bookings, products, users, nextId)
    }

    ghost predicate Valid()
      reads this
    {
      WellFormed(State())
    }

    /** A store with the given stations and users and no bookings. */
    constructor (stations: map<ProductId, P.Product>, accounts: set<UserId>)
      ensures Valid()
      ensures State() == Db(map[], stations, accounts, 0)
    {
      bookings := map[];
      products := stations;
      users := accounts;
      nextId := 0;
    }

    /** Looks the station up and, when it exists, saves it with status `s`. */
    method SaveProductStatus(pid: ProductId, s: P.Status)
      modifies this
      ensures products == SetProductStatus(old(products), pid, s)
      ensures bookings == old(bookings) && nextId == old(nextId)
    {
      if pid in products {
        var product := products[pid];
        products := products[pid := product.(status := s)];
      }
    }

    /** Saves a loaded booking with status `s`. */
    method SaveBookingStatus(id: BookingId, s: Status)
      requires id in bookings
      modifies this
      ensures bookings == old(bookings)[id := old(bookings)[id].(status := s)]
      ensures products == old(products) && nextId == old(nextId)
    {
      var booking := bookings[id];
      bookings := bookings[id := booking.(status := s)];
    }

    /** `await newBooking.save()`: insert under a fresh id. */
    method Insert(b: Booking) returns (id: BookingId)
      modifies this
      ensures id == old(nextId)
      ensures State() == Store.Insert(old(State()), b)
    {
      id := nextId;
      bookings := bookings[id := b];
      nextId := nextId + 1;
    }

    /** POST /update-status. */
    method UpdateStatus(id: BookingId) returns (r: Response)
      requires Valid()
      modifies this
      ensures Valid()
      ensures Step(State(), r) == MyRouter.UpdateStatus(old(State()), id)
    {
      if id in bookings && bookings[id].status == Booked {
        var productId := bookings[id].productId;
        SaveBookingStatus(id, Cancel);
        SaveProductStatus(productId, P.Available);
        r := Ok;
      } else {
        r := Fail(NotFoundOrStatusIncorrect);
      }
      Lifecycle.HandleKeepsWellFormed(old(State()), Lifecycle.UpdateStatus(id));
    }

    /** POST /book in myRouter.js. */
    method Book(userId: UserId, productId: ProductId, start: Time, end: Time, random: Pin.Draw, now: Time) returns (r: Response)
      requires Valid()
      modifies this
      ensures Valid()
      ensures Step(State(), r) == MyRouter.Book(old(State()), userId, productId, start, end, random, now)
    {
      var overlapping := Conflicts(bookings, productId, start, end);
      if overlapping != {} {
        r := Fail(SlotTaken);
      } else {
        var b := NewBooking(userId, productId, start, end, random, false, now);
        var _ := Insert(b);
        SaveProductStatus(productId, P.Booked);
        r := Ok;
      }
      Lifecycle.HandleKeepsWellFormed(old(State()), Lifecycle.Book(userId, productId, start, end, random, now));
    }

    /** POST /complete-booking. */
    method CompleteBooking(id: BookingId, requester: UserId) returns (r: Response)
      requires Valid()
      modifies this
      ensures Valid()
      ensures Step(State(), r) == MyRouter.CompleteBooking(old(State()), id, requester)
    {
      if id !in bookings || bookings[id].userId != requester {
        r := Fail(NotFoundOrNotOwner);
      } else {
        var productId := bookings[id].productId;
        SaveBookingStatus(id, Completed);
        SaveProductStatus(productId, P.Available);
        r := Ok;
      }
      Lifecycle.HandleKeepsWellFormed(old(State()), Lifecycle.CompleteBooking(id, requester));
    }

    /** POST /cancel-booking. */
    method CancelBooking(id: BookingId, requester: UserId) returns (r: Response)
      requires Valid()
      modifies this
      ensures Valid()
      ensures Step(State(), r) == MyRouter.CancelBooking(old(State()), id, requester)
    {
      if id !in bookings || bookings[id].userId != requester {
        r := Fail(NotFoundOrNotOwner);
      } else {
        var productId := bookings[id].productId;
        SaveBookingStatus(id, Cancel);
        SaveProductStatus(productId, P.Available);
        r := Ok;
      }
      Lifecycle.HandleKeepsWellFormed(old(State()), Lifecycle.CancelBooking(id, requester));
    }

    /** POST /accept-booking; `isAdmin` is the verdict of the admin middleware. */
    method AcceptBooking(id: BookingId, isAdmin: bool) returns (r: Response)
      requires Valid()
      modifies this
      ensures Valid()
      ensures Step(State(), r) == MyRouter.AcceptBooking(old(State()), id, isAdmin)
    {
      if !isAdmin {
        r := Fail(Forbidden);
      } else if id !in bookings || bookings[id].status != Booked {
        r := Fail(CannotAccept);
      } else {
        var productId := bookings[id].productId;
        if productId !in products || bookings[id].userId !in users {
          // The missing record populates as null and the save fails validation.
          r := Fail(ServerError);
        } else {
          SaveBookingStatus(id, InUse);
          SaveProductStatus(productId, P.InUse);
          r := Ok;
        }
      }
      Lifecycle.HandleKeepsWellFormed(old(State()), Lifecycle.AcceptBooking(id, isAdmin));
    }

    /** POST /cancel-booking-admin. */
    method CancelBookingAdmin(id: BookingId, isAdmin: bool) returns (r: Response)
      requires Valid()
      modifies this
      ensures Valid()
      ensures Step(State(), r) == MyRouter.CancelBookingAdmin(old(State()), id, isAdmin)
    {
      if !isAdmin {
        r := Fail(Forbidden);
      } else if id !in bookings || bookings[id].status != Booked {
        r := Fail(CannotCancel);
      } else {
        var productId := bookings[id].productId;
        SaveBookingStatus(id, Cancel);
        if productId in products {
          SaveProductStatus(productId, P.Available);
          r := Ok;
        } else {
          // Setting the status of a missing station throws.
          r := Fail(ServerError);
        }
      }
      Lifecycle.HandleKeepsWellFormed(old(State()), Lifecycle.CancelBookingAdmin(id, isAdmin));
    }

    /** POST /confirm-arrival at instant `now`. */
    method ConfirmArrival(id: BookingId, pin: string, now: Time) returns (r: Response)
      requires Valid()
      modifies this
      ensures Valid()
      ensures Step(State(), r) == MyRouter.ConfirmArrival(old(State()), id, pin, now)
    {
      if id !in bookings || bookings[id].pin != pin || now < bookings[id].startTime || now > bookings[id].endTime {
        r := Fail(CannotConfirm);
      } else {
        var booking := bookings[id];
        bookings := bookings[id := booking.(arrived := true, status := InUse)];
        SaveProductStatus(booking.productId, P.InUse);
        r := Ok;
      }
      Lifecycle.HandleKeepsWellFormed(old(State()), Lifecycle.ConfirmArrival(id, pin, now));
    }

    /**
     * One pass of the periodic expiry check: every booking the query selects
     * is cancelled and its station freed, one after another.
     */
    method Sweep(now: Time)
      requires Valid()
      modifies this
      ensures Valid()
      ensures State() == MyRouter.Sweep(old(State()), now)
    {
      var expired := MyRouter.ExpiredIds(bookings, now);
      ghost var bs0, ps0 := bookings, products;
      var todo := expired;
      while todo != {}
        invariant todo <= expired <= bs0.Keys
        invariant bookings == CancelledIn(bs0, expired - todo)
        invariant products == ReleasedIn(bs0, ps0, expired - todo)
        invariant nextId == old(nextId)
        decreases todo
      {
        var id :| id in todo;
        var booking := bookings[id];
        SweepOneMore(bs0, ps0, expired - todo, id);
        assert expired - todo + {id} == expired - (todo - {id});
        bookings := bookings[id := booking.(status := Cancel)];
        SaveProductStatus(booking.productId, P.Available);
        todo := todo - {id};
      }
      SweepAll(bs0, ps0, now);
      Lifecycle.HandleKeepsWellFormed(old(State()), Lifecycle.Sweep(now));
    }

    /** POST /bookings in apiRouter.js. */
    method CreateBooking(userId: UserId, productId: ProductId, start: Time, end: Time, random: Pin.Draw, now: Time) returns (r: Response)
      requires Valid()
      modifies this
      ensures Valid()
      ensures Step(State(), r) == ApiRouter.CreateBooking(old(State()), userId, productId, start, end, random, now)
    {
      if productId !in products || products[productId].status != P.Available {
        r := Fail(StationUnavailable);
      } else {
        var overlapping := Conflicts(bookings, productId, start, end);
        if overlapping != {} {
          r := Fail(SlotTaken);
        } else {
          var b := NewBooking(userId, productId, start, end, random, true, now);
          var id := Insert(b);
          var product := products[productId];
          products := products[productId := product.(status := P.Booked)];
          r := Created(id, b);
        }
      }
      Lifecycle.HandleKeepsWellFormed(old(State()), Lifecycle.ApiCreateBooking(userId, productId, start, end, random, now));
    }

    /** POST /book in apiRouter.js. */
    method ApiBook(userId: UserId, productId: ProductId, start: Time, end: Time, random: Pin.Draw, now: Time) returns (r: Response)
      requires Valid()
      modifies this
      ensures Valid()
      ensures Step(State(), r) == ApiRouter.Book(old(State()), userId, productId, start, end, random, now)
    {
      var pin := Pin.GeneratePin(random);
      var overlapping := Conflicts(bookings, productId, start, end);
      if overlapping != {} {
        r := Fail(SlotTaken);
      } else {
        var b := NewBooking(userId, productId, start, end, random, false, now);
        assert b.pin == pin;
        var id := Insert(b);
        if productId in products {
          var product := products[productId];
          products := products[productId := product.(status := P.Booked)];
          r := Created(id, b);
        } else {
          // Setting the status of a missing station throws.
          r := Fail(ServerError);
        }
      }
      Lifecycle.HandleKeepsWellFormed(old(State()), Lifecycle.ApiBook(userId, productId, start, end, random, now));
    }
  }
}
