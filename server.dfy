/**
 * `backend/server.js`: the checkout handler `POST /api/order`, the payment
 * callback `GET /api/paypal/execute` and the global error handler.
 *
 * The payment gateway, the mailer, the clock and the driver's id generator are
 * parameters: a gateway outcome, a `mailer` predicate saying which sends
 * succeed, the current time and the fresh `_id`.
 */
module Server {
  import opened Common
  import opened Model
  import opened Stores

  /** The payment method that selects prepayment through the gateway. */
  const PREPAYMENT: string := "Előreutalás"
  const APPROVAL_URL: string := "approval_url"
  const GENERIC_FAILURE: string := "Szerverhiba történt, kérjük próbálja újra később."
  const UNKNOWN_ERROR: string := "Ismeretlen hiba."
  const ID_FAILURE: string := "Szerverhiba az azonosító mentésekor."
  const DB_UNAVAILABLE: string := "Szerverhiba: Az adatbázis nem elérhető."
  const GATEWAY_FAILURE: string := "Hiba a PayPal fizetés kezdeményezésekor."
  const REDIRECT_MESSAGE: string := "Rendelés mentve, átirányítás PayPal-ra."
  const SAVED_MESSAGE: string := "Rendelés mentve, visszaigazoló email elküldve."

  // ---------------------------------------------------------------------
  // Global error handler
  // ---------------------------------------------------------------------

  /** A thrown JavaScript error: its optional `statusCode` and its `message`. */
  datatype JsError = JsError(statusCode: Option<int>, message: string)

  /** A `TypeError` from reading a property of `undefined`; it carries no status
      code. Its text stands in for the runtime's own message. */
  const TYPE_ERROR: JsError := JsError(None, "TypeError")

  /** The error a malformed ObjectId string raises; it carries no status code.
      Its text stands in for the library's own message. */
  const ID_ERROR: JsError := JsError(None, "BSONError")

  /** `err.statusCode || 500`. */
  function StatusCodeOf(err: JsError): (code: int)
    ensures err.statusCode.Some? && err.statusCode.value != 0 ==> code == err.statusCode.value
    ensures err.statusCode.None? || err.statusCode.value == 0 ==> code == 500
  {
    if err.statusCode.Some? && err.statusCode.value != 0 then err.statusCode.value else 500
  }

  /** The four-argument error middleware. */
  function HandleError(headersSent: bool, err: JsError): (r: Reply)
    ensures r.Forwarded? <==> headersSent
    ensures !headersSent ==> r.Json? && r.code == StatusCodeOf(err) && r.body.Fault?
    ensures r.Json? ==> r.body.message == GENERIC_FAILURE
    ensures r.Json? ==> r.body.error == (if err.message != "" then err.message else UNKNOWN_ERROR)
  {
    if headersSent then Forwarded
    else Json(StatusCodeOf(err), Fault(GENERIC_FAILURE, if err.message != "" then err.message else UNKNOWN_ERROR))
  }

  // ---------------------------------------------------------------------
  // Mail
  // ---------------------------------------------------------------------

  /** A message handed to the mailer: a notice to the shop owner (with its
      subject prefix) or a confirmation to the customer's address, if any. */
  datatype Mail = OwnerNotice(subjectPrefix: string) | Confirmation(to: Option<string>, subject: string)

  /** The sends that failed: each is logged and otherwise ignored. */
  function FailedSends(mails: seq<Mail>, mailer: Mail -> bool): (r: seq<Mail>)
    ensures forall m :: m in r <==> m in mails && !mailer(m)
  {
    if mails == [] then []
    else (if mailer(mails[0]) then [] else [mails[0]]) + FailedSends(mails[1..], mailer)
  }

  function CustomerEmail(c: Option<Customer>): Option<string> {
    if c.Some? then Some(c.value.email) else None
  }

  /** `${orderData.paymentMethod}` in a template literal. */
  function MethodText(m: Option<string>): string {
    if m.Some? then m.value else "undefined"
  }

  // ---------------------------------------------------------------------
  // POST /api/order
  // ---------------------------------------------------------------------

  /** The initial status: an exact comparison of `paymentMethod` with the prepayment literal. */
  function InitialStatus(paymentMethod: Option<string>): (s: Status)
    ensures s == AwaitingPayment <==> paymentMethod == Some(PREPAYMENT)
    ensures s != AwaitingPayment ==> s == Processing
  {
    if paymentMethod == Some(PREPAYMENT) then AwaitingPayment else Processing
  }

  /** The document stored for a submission: the body's fields with `status`,
      `createdAt` and `customerId` stamped by the server. The server replaces a
      missing `customer` with the empty object; the model keeps it absent,
      which the handlers read the same way, since they only read its `email`,
      and that is undefined in both. */
  function StampedOrder(body: OrderBody, userId: string, now: int, id: string): (o: Order)
    ensures o.id == id && o.customerId == Oid(userId) && o.createdAt == now
    ensures o.status == InitialStatus(body.paymentMethod)
    ensures o.paymentDetails.None?
    ensures o.totalPrice == body.totalPrice && o.total == body.total && o.shippingFee == body.shippingFee
    ensures o.items == body.items && o.customer == body.customer && o.paymentMethod == body.paymentMethod
  {
    Order(id, Oid(userId), InitialStatus(body.paymentMethod), now, body.totalPrice, None,
          body.customer, body.items, body.total, body.shippingFee, body.paymentMethod)
  }

  /** Whatever the client put in `status`, `createdAt` or `customerId` is discarded. */
  lemma ClientStampsIgnored(b1: OrderBody, b2: OrderBody, userId: string, now: int, id: string)
    requires b1.(status := None, createdAt := None, customerId := None) == b2.(status := None, createdAt := None, customerId := None)
    ensures StampedOrder(b1, userId, now, id) == StampedOrder(b2, userId, now, id)
  {
    assert b1.paymentMethod == b2.paymentMethod && b1.totalPrice == b2.totalPrice;
  }

  /** The customer email body reads `items`, `shippingFee` and `total`; without
      them it throws. */
  predicate CustomerMailBuildable(o: Order) {
    o.items.Some? && o.shippingFee.Some? && o.total.Some?
  }

  /** The gateway request reads `unitPrice` of every item and `totalPrice`. */
  predicate GatewayRequestBuildable(o: Order) {
    o.items.Some? && o.totalPrice.Some? &&
    forall k :: 0 <= k < |o.items.value| ==> o.items.value[k].unitPrice.Some?
  }

  /** A link of the created gateway payment. */
  datatype Link = Link(rel: string, href: string)

  /** What the gateway answers to a payment creation. */
  datatype CreateOutcome = CreateFailed(response: string) | Created(links: seq<Link>)

  /** The loop over `payment.links`: the first link whose `rel` is `approval_url`. */
  method FindApprovalUrl(links: seq<Link>) returns (url: Option<string>)
    ensures url.None? ==> forall k :: 0 <= k < |links| ==> links[k].rel != APPROVAL_URL
    ensures url.Some? ==> exists k :: 0 <= k < |links| && links[k].rel == APPROVAL_URL && links[k].href == url.value &&
                                     forall j :: 0 <= j < k ==> links[j].rel != APPROVAL_URL
  {
    var i := 0;
    while i < |links|
      invariant 0 <= i <= |links|
      invariant forall j :: 0 <= j < i ==> links[j].rel != APPROVAL_URL
    {
      if links[i].rel == APPROVAL_URL {
        return Some(links[i].href);
      }
      i := i + 1;
    }
    return None;
  }

  /** The checkout handler, run after the auth middleware accepted `user`.
      Returns the reply, the mails it handed to the mailer and those whose send
      failed (logged, never reported). */
  method SubmitOrder(store: OrderStore, user: Claims, body: OrderBody, now: int, newId: string,
                     gateway: CreateOutcome, mailer: Mail -> bool)
    returns (reply: Reply, mails: seq<Mail>, failed: seq<Mail>)
    requires store.Valid() && !store.HasId(newId)
    modifies store`docs
    ensures store.Valid()
    // Guards before the insert: the id conversion first, then the database handle.
    ensures !IsObjectId(user.id) ==> reply == Json(500, Message(ID_FAILURE)) && store.docs == old(store.docs)
    ensures IsObjectId(user.id) && !store.connected ==>
              reply == Json(503, Message(DB_UNAVAILABLE)) && store.docs == old(store.docs)
    // Past the guards exactly one stamped order is inserted, whatever happens afterwards.
    ensures IsObjectId(user.id) && store.connected ==>
              store.docs == old(store.docs) + [StampedOrder(body, user.id, now, newId)]
    // Non-prepayment: 200 with the new id, even when both mails fail.
    ensures IsObjectId(user.id) && store.connected && body.paymentMethod != Some(PREPAYMENT) &&
            CustomerMailBuildable(StampedOrder(body, user.id, now, newId)) ==>
              reply == Json(200, Saved(SAVED_MESSAGE, "success", newId)) &&
              mails == [OwnerNotice("Új rendelés (" + MethodText(body.paymentMethod) + ")"),
                        Confirmation(CustomerEmail(body.customer), "Rendelés visszaigazolása")]
    // Prepayment: the gateway decides between 500, 202 with the approval link, and silence.
    ensures IsObjectId(user.id) && store.connected && body.paymentMethod == Some(PREPAYMENT) &&
            CustomerMailBuildable(StampedOrder(body, user.id, now, newId)) &&
            GatewayRequestBuildable(StampedOrder(body, user.id, now, newId)) ==>
              match gateway
              case CreateFailed(resp) =>
                reply == Json(500, Fault(GATEWAY_FAILURE, resp)) &&
                mails == [OwnerNotice("PayPal kezdeményezés sikertelen")]
              case Created(links) =>
                mails == [] &&
                (reply.NoReply? <==> forall k :: 0 <= k < |links| ==> links[k].rel != APPROVAL_URL) &&
                (!reply.NoReply? ==>
                   exists k :: 0 <= k < |links| && links[k].rel == APPROVAL_URL &&
                               (forall j :: 0 <= j < k ==> links[j].rel != APPROVAL_URL) &&
                               reply == Json(202, Redirecting(REDIRECT_MESSAGE, "redirect", links[k].href)))
    // A throw while building a mail body or the gateway request goes to the error handler.
    ensures IsObjectId(user.id) && store.connected &&
            (!CustomerMailBuildable(StampedOrder(body, user.id, now, newId)) ||
             (body.paymentMethod == Some(PREPAYMENT) && !GatewayRequestBuildable(StampedOrder(body, user.id, now, newId)))) ==>
              reply == HandleError(false, TYPE_ERROR) && mails == []
    ensures failed == FailedSends(mails, mailer)
  {
    mails := [];
    if !IsObjectId(user.id) {
      reply := Json(500, Message(ID_FAILURE));
      failed := [];
      return;
    }
    if !store.connected {
      reply := Json(503, Message(DB_UNAVAILABLE));
      failed := [];
      return;
    }
    var order := StampedOrder(body, user.id, now, newId);
    store.InsertOne(order);

    if !CustomerMailBuildable(order) {
      reply := HandleError(false, TYPE_ERROR);
      failed := [];
      return;
    }
    if body.paymentMethod == Some(PREPAYMENT) {
      if !GatewayRequestBuildable(order) {
        reply := HandleError(false, TYPE_ERROR);
        failed := [];
        return;
      }
      match gateway {
        case CreateFailed(resp) =>
          mails := [OwnerNotice("PayPal kezdeményezés sikertelen")];
          reply := Json(500, Fault(GATEWAY_FAILURE, resp));
        case Created(links) =>
          var url := FindApprovalUrl(links);
          if url.Some? {
            reply := Json(202, Redirecting(REDIRECT_MESSAGE, "redirect", url.value));
          } else {
            reply := NoReply;
          }
      }
    } else {
      mails := [OwnerNotice("Új rendelés (" + MethodText(body.paymentMethod) + ")"),
                Confirmation(CustomerEmail(body.customer), "Rendelés visszaigazolása")];
      reply := Json(200, Saved(SAVED_MESSAGE, "success", newId));
    }
    failed := FailedSends(mails, mailer);
  }

  // ---------------------------------------------------------------------
  // GET /api/paypal/execute
  // ---------------------------------------------------------------------

  /** What the gateway answers to a payment execution. */
  datatype ExecuteOutcome = ExecuteFailed(response: string) | Executed(payment: GatewayPayment)

  /** A query parameter that is present and non-empty. */
  predicate Given(p: Option<string>) {
    p.Some? && p.value != ""
  }

  function MissingDataUrl(frontend: string): string { frontend + "/cancel?message=Hiányzó adatok." }
  function NotFoundUrl(frontend: string): string { frontend + "/cancel?message=A rendelés nem található." }
  function FailureUrl(frontend: string, orderId: string): string { frontend + "/cancel?orderId=" + orderId + "&message=Fizetési hiba." }
  function SuccessUrl(frontend: string, orderId: string): string { frontend + "/success?orderId=" + orderId }

  /** The payment callback. The order's current status is never consulted. */
  method ExecutePayment(store: OrderStore, frontend: string,
                        paymentId: Option<string>, payerId: Option<string>, orderId: Option<string>,
                        gateway: ExecuteOutcome, mailer: Mail -> bool)
    returns (reply: Reply, mails: seq<Mail>, failed: seq<Mail>)
    requires store.Valid()
    modifies store`docs
    ensures store.Valid()
    // Missing parameters: cancel page, nothing changes.
    ensures !(Given(paymentId) && Given(payerId) && Given(orderId)) ==>
              reply == Redirect(MissingDataUrl(frontend)) && store.docs == old(store.docs)
    // Lookup failures: nothing changes.
    ensures Given(paymentId) && Given(payerId) && Given(orderId) && (!store.connected || !IsObjectId(orderId.value)) ==>
              reply == HandleError(false, if store.connected then ID_ERROR else TYPE_ERROR) && store.docs == old(store.docs)
    ensures Given(paymentId) && Given(payerId) && Given(orderId) && store.connected && IsObjectId(orderId.value) &&
            FindOrder(old(store.docs), orderId.value).None? ==>
              reply == Redirect(NotFoundUrl(frontend)) && store.docs == old(store.docs)
    // The order exists: only that order's status and payment details change.
    ensures Given(paymentId) && Given(payerId) && Given(orderId) && store.connected && IsObjectId(orderId.value) &&
            FindOrder(old(store.docs), orderId.value).Some? ==>
              var id := orderId.value;
              var o := FindOrder(old(store.docs), id).value;
              |store.docs| == |old(store.docs)| &&
              (o.totalPrice.None? ==> reply == NoReply && store.docs == old(store.docs)) &&
              (o.totalPrice.Some? ==>
                 (forall i :: 0 <= i < |store.docs| && old(store.docs)[i].id != id ==> store.docs[i] == old(store.docs)[i]) &&
                 match gateway
                 case ExecuteFailed(_) =>
                   (forall i :: 0 <= i < |store.docs| && old(store.docs)[i].id == id ==>
                      store.docs[i] == old(store.docs)[i].(status := PaymentFailed, paymentDetails := None)) &&
                   reply == Redirect(FailureUrl(frontend, id)) && mails == []
                 case Executed(p) =>
                   (forall i :: 0 <= i < |store.docs| && old(store.docs)[i].id == id ==>
                      store.docs[i] == old(store.docs)[i].(status := Paid, paymentDetails := Some(p))) &&
                   (CustomerMailBuildable(o) ==>
                      reply == Redirect(SuccessUrl(frontend, id)) &&
                      mails == [OwnerNotice("Sikeres PayPal fizetés!"),
                                Confirmation(CustomerEmail(o.customer), "Rendelés visszaigazolása (Fizetve)")]) &&
                   (!CustomerMailBuildable(o) ==> reply == NoReply && mails == [OwnerNotice("Sikeres PayPal fizetés!")]))
    ensures failed == FailedSends(mails, mailer)
  {
    mails := [];
    failed := [];
    if !(Given(paymentId) && Given(payerId) && Given(orderId)) {
      reply := Redirect(MissingDataUrl(frontend));
      return;
    }
    var id := orderId.value;
    if !store.connected {
      reply := HandleError(false, TYPE_ERROR);
      return;
    }
    if !IsObjectId(id) {
      reply := HandleError(false, ID_ERROR);
      return;
    }
    var found := FindOrder(store.docs, id);
    if found.None? {
      reply := Redirect(NotFoundUrl(frontend));
      return;
    }
    var o := found.value;
    if o.totalPrice.None? {
      // `totalPrice.toFixed` throws outside any try block: the request is never answered.
      reply := NoReply;
      return;
    }
    match gateway {
      case ExecuteFailed(_) =>
        store.SetPaymentOutcome(id, PaymentFailed, None);
        reply := Redirect(FailureUrl(frontend, id));
      case Executed(p) =>
        store.SetPaymentOutcome(id, Paid, Some(p));
        if CustomerMailBuildable(o) {
          mails := [OwnerNotice("Sikeres PayPal fizetés!"),
                    Confirmation(CustomerEmail(o.customer), "Rendelés visszaigazolása (Fizetve)")];
          reply := Redirect(SuccessUrl(frontend, id));
        } else {
          mails := [OwnerNotice("Sikeres PayPal fizetés!")];
          reply := NoReply;
        }
    }
    failed := FailedSends(mails, mailer);
  }
}
