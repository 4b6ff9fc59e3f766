/**
 * The records kept in the backend's tables, the failures its repositories throw,
 * the JSON responses of its handlers and the 50% rule that decides `sold` vs `booked`.
 *
 * Attributes that a record may lack are `Option`s. A timestamp (`new Date().toISOString()`)
 * is an abstract ordered value supplied by the caller.
 */
module Records {
  import opened Wrappers

  /** Stands for an ISO-8601 timestamp string; larger is later. */
  type Timestamp = int

  /** Primary key of the `project_flats` and `booked_flats` tables. */
  datatype FlatKey = FlatKey(projectId: string, flatId: string)

  /** A flat's `status`; `Other` is any value besides the three the handlers use. */
  datatype FlatStatus = Free | Booked | Sold | Other(raw: string)

  /** The string stored for a status. */
  function StatusText(s: FlatStatus): string
  {
    match s
    case Free => "free"
    case Booked => "booked"
    case Sold => "sold"
    case Other(raw) => raw
  }

  /** `Other` carries only strings besides the three named statuses. */
  predicate WellFormedStatus(s: FlatStatus)
  {
    s.Other? ==> s.raw !in {"free", "booked", "sold"}
  }

  /** How a stored string is read: the three named values, anything else as `Other`. */
  function ParseStatus(t: string): (s: FlatStatus)
    ensures StatusText(s) == t && WellFormedStatus(s)
  {
    if t == "free" then Free
    else if t == "booked" then Booked
    else if t == "sold" then Sold
    else Other(t)
  }

  /** On well-formed statuses, comparing with `Sold` is the source's `status !== "sold"`. */
  lemma SoldTestAgrees(s: FlatStatus)
    requires WellFormedStatus(s)
    ensures s != Sold <==> StatusText(s) != "sold"
  {
  }

  /** The attributes of a flat that project creation supplies. */
  datatype Layout = Layout(block: string, floor: string, flatno: string, sqft: int, bhk: int)

  /**
   * A row of `project_flats`. A row that an update created on a key with no row has no
   * layout, no status and no timestamp (DynamoDB updates create missing items).
   */
  datatype Flat = Flat(
    key: FlatKey,
    layout: Option<Layout>,
    status: Option<FlatStatus>,
    loanApproved: Option<bool>,
    latestInvoiceId: Option<string>,
    rootInvoiceId: Option<string>,
    latestCancellationId: Option<string>,
    rootCancellationId: Option<string>,
    createdAt: Option<Timestamp>)

  /** The `customer` object of an invoice or cancellation. */
  datatype Party = Party(name: Option<string>, pan: Option<string>, phone: Option<string>)

  /**
   * A version of an invoice. `previousInvoiceId` is None when the attribute is absent or
   * falsy: such a version is the root of its chain.
   */
  datatype Invoice = Invoice(
    id: string,
    previousInvoiceId: Option<string>,
    totalAmount: Option<int>,
    advance: Option<int>,
    customer: Party)

  /** A version of a cancellation voucher, grouped by the invoice it cancels (`inv_id`). */
  datatype Cancellation = Cancellation(
    id: string,
    invId: string,
    version: int,
    previousId: Option<string>,
    netReturn: Option<int>,
    alreadyReturned: Option<int>,
    yetToBeReturned: Option<int>,
    customer: Party)

  /** A row of `projects`; the three counters are denormalised from the flats. */
  datatype Project = Project(
    projectId: string,
    name: string,
    totalApartments: int,
    totalBlocks: int,
    soldApartments: int,
    freeApartments: int,
    bookedApartments: int,
    createdAt: Timestamp)

  /** A row of `booked_flats`, one per flat key. */
  datatype Booking = Booking(
    key: FlatKey,
    customerId: string,
    customerName: string,
    totalPayment: int,
    paid: int,
    createdAt: Option<Timestamp>)

  datatype PaymentCustomer = PaymentCustomer(id: string, name: string)

  /** A row of `flat_payments`; rows are only ever added. */
  datatype Payment = Payment(
    paymentId: string,
    projectFlatKey: string,
    projectId: string,
    projectName: Option<string>,
    flatId: string,
    customer: PaymentCustomer,
    amount: int,
    summary: string,
    createdAt: Timestamp)

  datatype KycStatus = Pending | Approved

  /** A row of `kyc_customers`; "" stands for an empty or absent string attribute. */
  datatype Kyc = Kyc(
    id: string,
    name: string,
    phone: string,
    address: string,
    aadhaar: string,
    pan: string,
    voterId: string,
    otherId: string,
    aadhaarKey: string,
    panKey: string,
    voterKey: string,
    otherKey: string,
    status: KycStatus,
    createdAt: Option<Timestamp>)

  /** A JSON body field that may be `null`, absent or a string. */
  datatype JsValue = JsNull | JsUndefined | JsStr(s: string)

  /** `x || null` on an optional string: an empty string counts as missing too. */
  function OrNull(x: Option<string>): (r: Option<string>)
    ensures r.Some? <==> x.Some? && x.value != ""
    ensures r.Some? ==> r == x
  {
    if x == Some("") then None else x
  }

  /** What the repositories throw, and the exceptions the store raises for them. */
  datatype Failure =
    | NoFlatForInvoice        // "No flat found for currentLatestInvoiceId"
    | NoFlatForCancellation   // "No flat found for currentLatestCancellationId"
    | ConditionalCheckFailed  // a ConditionExpression did not hold
    | KeysRequired            // "projectId and flatId are required"
    | LoanAlreadyApproved     // "Loan already approved for this flat"
    | MissingAttribute        // `SET n = n + 1` on an item that lacks `n`
    | BrokenChain             // a back-link names no invoice: property read on undefined
    | EmptyKey                // a key attribute given as "" or undefined
    | NotDefined(name: string) // calling or constructing an identifier that is not bound

  /** A handler's JSON reply: HTTP status, the `success` flag and the payload. */
  datatype Response<+T> = Response(code: int, success: bool, body: Option<T>)

  function Fail<T>(code: int): Response<T>
  {
    Response(code, false, None)
  }

  /** `paid >= total * 0.5`, stated over the integers. */
  predicate HalfPaid(paid: int, total: int)
  {
    2 * paid >= total
  }

  /** The status the invoice handlers choose: `sold` from half paid on, else `booked`. */
  function StatusForPayment(paid: int, total: int): (s: FlatStatus)
    ensures s == Sold || s == Booked
  {
    if HalfPaid(paid, total) then Sold else Booked
  }

  /** Paying more never moves a flat from `sold` back to `booked`. */
  lemma StatusForPaymentMonotone(paid: int, more: int, total: int)
    requires paid <= more
    ensures StatusForPayment(paid, total) == Sold ==> StatusForPayment(more, total) == Sold
  {
  }

  /** `Number(x || 0)`: an absent amount counts as zero. */
  function AmountOrZero(x: Option<int>): int
  {
    x.GetOr(0)
  }
}
