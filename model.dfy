/**
 * The documents the backend stores and the JSON replies it sends.
 *
 * Orders, users and products are MongoDB documents; an order's status is a
 * free-text field that the code fills with one of six Hungarian literals, and
 * that an admin may overwrite with any text at all.
 */
module Model {
  import opened Common

  // ---------------------------------------------------------------------
  // Order status
  // ---------------------------------------------------------------------

  const AWAITING_PAYMENT: string := "Várakozás fizetésre"
  const PROCESSING: string := "Rendelés feldolgozás alatt"
  const PAID: string := "Fizetve"
  const PAYMENT_FAILED: string := "Fizetés sikertelen"
  const FULFILLED: string := "Teljesítve"
  const CANCELLED: string := "Sztornózva"

  /** The six statuses the code writes, plus whatever else an admin types in. */
  datatype Status =
    | AwaitingPayment
    | Processing
    | Paid
    | PaymentFailed
    | Fulfilled
    | Cancelled
    | Other(text: string)

  /** The text stored in the `status` field. */
  function StatusText(s: Status): string {
    match s
    case AwaitingPayment => AWAITING_PAYMENT
    case Processing => PROCESSING
    case Paid => PAID
    case PaymentFailed => PAYMENT_FAILED
    case Fulfilled => FULFILLED
    case Cancelled => CANCELLED
    case Other(t) => t
  }

  predicate IsKnownStatusText(t: string) {
    t == AWAITING_PAYMENT || t == PROCESSING || t == PAID ||
    t == PAYMENT_FAILED || t == FULFILLED || t == CANCELLED
  }

  /** Reading a stored status text; every text is accepted. */
  function ParseStatus(t: string): (s: Status)
    ensures StatusText(s) == t
    ensures s.Other? <==> !IsKnownStatusText(t)
  {
    if t == AWAITING_PAYMENT then AwaitingPayment
    else if t == PROCESSING then Processing
    else if t == PAID then Paid
    else if t == PAYMENT_FAILED then PaymentFailed
    else if t == FULFILLED then Fulfilled
    else if t == CANCELLED then Cancelled
    else Other(t)
  }

  /** A status value in normal form: `Other` never spells one of the six literals. */
  predicate Canonical(s: Status) {
    s.Other? ==> !IsKnownStatusText(s.text)
  }

  /** The six literals are pairwise different, so a canonical status survives a
      write-then-read of its text. */
  lemma ParseStatusText(s: Status)
    requires Canonical(s)
    ensures ParseStatus(StatusText(s)) == s
  {
    assert AWAITING_PAYMENT[0] == 'V' && PROCESSING[0] == 'R' && PAID[0] == 'F' &&
           FULFILLED[0] == 'T' && CANCELLED[0] == 'S';
    assert PAID[1] == 'i' && PAYMENT_FAILED[1] == 'i' && |PAID| != |PAYMENT_FAILED|;
  }

  // ---------------------------------------------------------------------
  // Orders
  // ---------------------------------------------------------------------

  /** The checkout form as the storefront sends it under `customer`. */
  datatype Customer = Customer(
    name: string, email: string, phone: string,
    city: string, address: string, zip: string,
    shipping: string, payment: string)

  /** One order line of the JSON body. The storefront never sends `unitPrice`. */
  datatype Item = Item(productId: string, name: string, qty: JsNum, price: JsNum, unitPrice: Option<int>)

  /** The body of `POST /api/order`; any field may be missing. `status`,
      `createdAt` and `customerId` are whatever the client put there. */
  datatype OrderBody = OrderBody(
    customer: Option<Customer>,
    items: Option<seq<Item>>,
    total: Option<int>,
    shippingFee: Option<int>,
    totalPrice: Option<int>,
    paymentMethod: Option<string>,
    status: Option<string>,
    createdAt: Option<int>,
    customerId: Option<string>)

  /** The value stored in `customerId`: an ObjectId, or (as a search key) a raw string. */
  datatype CustomerRef = Oid(hex: string) | Raw(text: string)

  /** The payment record the gateway hands back on execution (kept opaque). */
  datatype GatewayPayment = GatewayPayment(paymentId: string, payerId: string, record: string)

  /** A stored order document. */
  datatype Order = Order(
    id: string,
    customerId: CustomerRef,
    status: Status,
    createdAt: int,
    totalPrice: Option<int>,
    paymentDetails: Option<GatewayPayment>,
    customer: Option<Customer>,
    items: Option<seq<Item>>,
    total: Option<int>,
    shippingFee: Option<int>,
    paymentMethod: Option<string>)

  // ---------------------------------------------------------------------
  // Users, products, tokens
  // ---------------------------------------------------------------------

  const ADMIN: string := "admin"
  const DEFAULT_ROLE: string := "user"

  datatype UserDoc = UserDoc(id: string, email: string, password: string, role: string)

  /** A user as the API shows it: `.select("-password")`. */
  datatype UserView = UserView(id: string, email: string, role: string)

  function ViewOf(u: UserDoc): (v: UserView)
    ensures v.id == u.id && v.email == u.email && v.role == u.role
  {
    UserView(u.id, u.email, u.role)
  }

  /** Product fields as sent by the admin form; a missing field is `None`. */
  datatype ProductFields = ProductFields(
    name: Option<string>, price: Option<int>, stock: Option<int>,
    description: Option<string>, image: Option<string>)

  datatype ProductDoc = ProductDoc(id: string, fields: ProductFields)

  /** The claims a session token carries. */
  datatype Claims = Claims(id: string, role: string, email: string)

  /** A signed session token: its claims and its validity window. */
  datatype Token = Token(claims: Claims, expiresIn: string)

  // ---------------------------------------------------------------------
  // Replies
  // ---------------------------------------------------------------------

  /** The JSON bodies the handlers send. */
  datatype Body =
    | Message(message: string)                                  // { message }
    | Error(error: string)                                      // { error }
    | ErrorDetails(error: string, details: string)              // { error, details }
    | Fault(message: string, error: string)                     // { message, error }
    | Saved(message: string, action: string, orderId: string)   // { message, action: "success", orderId }
    | Redirecting(message: string, action: string, redirectUrl: string)
    | OrderJson(order: Option<Order>)                           // an order, or null
    | OrderList(orders: seq<Order>)
    | NoOrders(message: string)                                 // { message, orders: [] }
    | UserJson(user: Option<UserView>)                          // a user, or null
    | UserList(users: seq<UserView>)
    | ProductJson(product: Option<ProductDoc>)                  // a product, or null
    | ProductList(products: seq<ProductDoc>)
    | TokenJson(token: Token)                                   // { token }

  /** What a handler does with the response object. */
  datatype Reply =
    | Json(code: int, body: Body)   // res.status(code).json(body)
    | Redirect(location: string)    // res.redirect(location)
    | NoReply                       // the handler returns without responding
    | Forwarded                     // next(err) to Express's default handler
}
