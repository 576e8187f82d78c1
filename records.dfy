/** The two record shapes the routes store and return, and the values a request body may carry. */
module Records {

  /**
   * An inventory item. Dates are millisecond timestamps. The decimal `cost` is not part of
   * this model; a missing `donor` reads as the empty string.
   */
  datatype InventoryItem = InventoryItem(
    id: string,
    name: string,
    quantity: int,
    location: string,
    expiryDate: int,
    donor: string,
    purpose: string,
    category: string,
    minStockLevel: int,
    unit: string,
    createdAt: int,
    updatedAt: int,
    createdBy: string)

  /** A staff member. Dates are millisecond timestamps. */
  datatype StaffMember = StaffMember(
    id: string,
    name: string,
    role: string,
    specialty: string,
    shiftStart: string,
    shiftEnd: string,
    patientsServed: int,
    location: string,
    contactNumber: string,
    email: string,
    isActive: bool,
    createdAt: int,
    updatedAt: int)

  /** A JSON value as it arrives in a request body, for fields whose truthiness matters. */
  datatype JsValue = Undefined | JsNull | JsBool(b: bool) | JsNumber(n: int) | JsString(s: string) | JsObject

  /** `Boolean(v)`: JavaScript truthiness. */
  predicate Truthy(v: JsValue) {
    match v
    case Undefined => false
    case JsNull => false
    case JsBool(b) => b
    case JsNumber(n) => n != 0
    case JsString(s) => s != ""
    case JsObject => true
  }

  /**
   * The answer of a POST route: the appended record (status 200 with `success`, `data` and `message`),
   * or status 400 with an error message.
   */
  datatype PostResult<T> = Added(record: T) | BadRequest(error: string)

  const MissingRequiredFields: string := "Missing required fields"
}
