/**
 * The Booking record of models/booking.js: a reservation of one charging
 * station by one user for a time window, with the PIN that confirms arrival.
 * The Mongoose schema is declarative; here it becomes a datatype for stored
 * records, a datatype for the fields handed to `new Booking({...})`, and the
 * function `Create` that applies the schema's defaults, its enum and its
 * `required` flags.
 */
module BookingModel {
  import opened Wrappers

  type BookingId = nat
  type UserId = nat
  type ProductId = nat

  /** An instant, as the milliseconds a JavaScript Date compares by. */
  type Time = int

  /** The schema's status enum. */
  datatype Status = Booked | Completed | Cancel | InUse

  /** The string the schema stores for each status. */
  function StatusName(s: Status): string
  {
    match s
    case Booked => "Booked"
    case Completed => "Completed"
    case Cancel => "Cancel"
    case InUse => "In Use"
  }

  /** Mongoose's enum validator: only the four names are accepted. */
  function ParseStatus(x: string): (r: Option<Status>)
    ensures r.Some? ==> StatusName(r.value) == x
    ensures r.None? ==> x !in {"Booked", "Completed", "Cancel", "In Use"}
  {
    if x == "Booked" then Some(Booked)
    else if x == "Completed" then Some(Completed)
    else if x == "Cancel" then Some(Cancel)
    else if x == "In Use" then Some(InUse)
    else None
  }

  lemma ParseStatusName(s: Status)
    ensures ParseStatus(StatusName(s)) == Some(s)
  {
  }

  /** A stored booking: every required field is present, the defaults applied. */
  datatype Booking = Booking(
    userId: UserId,
    productId: ProductId,
    status: Status,
    pin: string,
    arrived: bool,
    startTime: Time,
    endTime: Time,
    expirationTime: Time,
    createdAt: Time)

  /** The fields a route passes to `new Booking({...})`; `None` is a field left out. */
  datatype BookingFields = BookingFields(
    userId: Option<UserId>,
    productId: Option<ProductId>,
    status: Option<string>,
    pin: Option<string>,
    arrived: Option<bool>,
    startTime: Option<Time>,
    endTime: Option<Time>,
    expirationTime: Option<Time>,
    createdAt: Option<Time>)

  /** A required String path fails Mongoose's check when absent or empty. */
  predicate StringPresent(o: Option<string>)
  {
    o.Some? && o.value != ""
  }

  /** The paths whose validators fail; Mongoose reports all of them together. */
  function Invalid(f: BookingFields): set<string>
  {
    (if f.userId.None? then {"userId"} else {})
    + (if f.productId.None? then {"productId"} else {})
    + (if f.status.Some? && ParseStatus(f.status.value).None? then {"status"} else {})
    + (if !StringPresent(f.pin) then {"pin"} else {})
    + (if f.startTime.None? then {"startTime"} else {})
    + (if f.endTime.None? then {"endTime"} else {})
    + (if f.expirationTime.None? then {"expirationTime"} else {})
  }

  /**
   * Constructing and saving a Booking document at instant `now`: the defaults
   * `status = 'Booked'`, `arrived = false`, `createdAt = Date.now` fill the
   * fields left out, and the record is rejected when a validator fails.
   */
  function Create(f: BookingFields, now: Time): (r: Result<Booking, set<string>>)
    ensures r.Failure? <==> Invalid(f) != {}
    ensures r.Failure? ==> r.error == Invalid(f)
    ensures r.Success? ==>
      && Some(r.value.userId) == f.userId
      && Some(r.value.productId) == f.productId
      && Some(r.value.pin) == f.pin && r.value.pin != ""
      && Some(r.value.startTime) == f.startTime
      && Some(r.value.endTime) == f.endTime
      && Some(r.value.expirationTime) == f.expirationTime
      && (f.status.None? ==> r.value.status == Booked)
      && (f.status.Some? ==> StatusName(r.value.status) == f.status.value)
      && (f.arrived.None? ==> !r.value.arrived)
      && (f.arrived.Some? ==> r.value.arrived == f.arrived.value)
      && (f.createdAt.None? ==> r.value.createdAt == now)
      && (f.createdAt.Some? ==> r.value.createdAt == f.createdAt.value)
  {
    if Invalid(f) != {} then
      Failure(Invalid(f))
    else
      Success(Booking(
        f.userId.value,
        f.productId.value,
        if f.status.Some? then ParseStatus(f.status.value).value else Booked,
        f.pin.value,
        if f.arrived.Some? then f.arrived.value else false,
        f.startTime.value,
        f.endTime.value,
        f.expirationTime.value,
        if f.createdAt.Some? then f.createdAt.value else now))
  }
}
