/**
 * The Product record of models/product.js: a charging station. Only its
 * status takes part in booking; the other fields are kept so that the
 * schema's defaults and required flags can be stated.
 */
module ProductModel {
  import opened Wrappers

  /** The schema's status enum. */
  datatype Status = Available | Booked | InUse

  function StatusName(s: Status): string
  {
    match s
    case Available => "Available"
    case Booked => "Booked"
    case InUse => "In Use"
  }

  /** Mongoose's enum validator for the product status. */
  function ParseStatus(x: string): (r: Option<Status>)
    ensures r.Some? ==> StatusName(r.value) == x
    ensures r.None? ==> x !in {"Available", "Booked", "In Use"}
  {
    if x == "Available" then Some(Available)
    else if x == "Booked" then Some(Booked)
    else if x == "In Use" then Some(InUse)
    else None
  }

  lemma ParseStatusName(s: Status)
    ensures ParseStatus(StatusName(s)) == Some(s)
  {
  }

  /** A stored product. `price` is a JavaScript Number, kept here as an integer. */
  datatype Product = Product(
    chargeCode: string,
    price: int,
    connectorTypes: string,
    image: string,
    description: string,
    status: Status)

  /** The fields passed to `new Product({...})`; `None` is a field left out. */
  datatype ProductFields = ProductFields(
    chargeCode: Option<string>,
    price: Option<int>,
    connectorTypes: Option<string>,
    image: Option<string>,
    description: Option<string>,
    status: Option<string>)

  predicate StringPresent(o: Option<string>)
  {
    o.Some? && o.value != ""
  }

  /** The paths whose validators fail. */
  function Invalid(f: ProductFields): set<string>
  {
    (if !StringPresent(f.chargeCode) then {"charge_code"} else {})
    + (if !StringPresent(f.connectorTypes) then {"connector_types"} else {})
    + (if !StringPresent(f.description) then {"description"} else {})
    + (if f.status.Some? && ParseStatus(f.status.value).None? then {"status"} else {})
  }

  /**
   * Constructing and saving a Product document: `price` defaults to 0,
   * `image` to the number 0 cast to the String "0", `status` to 'Available'.
   */
  function Create(f: ProductFields): (r: Result<Product, set<string>>)
    ensures r.Failure? <==> Invalid(f) != {}
    ensures r.Failure? ==> r.error == Invalid(f)
    ensures r.Success? ==>
      && Some(r.value.chargeCode) == f.chargeCode && r.value.chargeCode != ""
      && Some(r.value.connectorTypes) == f.connectorTypes && r.value.connectorTypes != ""
      && Some(r.value.description) == f.description && r.value.description != ""
      && (f.price.None? ==> r.value.price == 0)
      && (f.price.Some? ==> r.value.price == f.price.value)
      && (f.image.None? ==> r.value.image == "0")
      && (f.image.Some? ==> r.value.image == f.image.value)
      && (f.status.None? ==> r.value.status == Available)
      && (f.status.Some? ==> StatusName(r.value.status) == f.status.value)
  {
    if Invalid(f) != {} then
      Failure(Invalid(f))
    else
      Success(Product(
        f.chargeCode.value,
        if f.price.Some? then f.price.value else 0,
        f.connectorTypes.value,
        if f.image.Some? then f.image.value else "0",
        f.description.value,
        if f.status.Some? then ParseStatus(f.status.value).value else Available))
  }
}
