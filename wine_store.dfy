/**
 * `src/components/WineStore.jsx`: the shop page. The cart and its total, the
 * shipping fee, the form check and the order payload are expressions over the
 * component's state; `Storefront` holds that state and its handlers overwrite
 * it. The network answer to a request is a parameter.
 */
module WineStore {
  import opened Common
  import opened Model
  import opened Server

  // ---------------------------------------------------------------------
  // Products and cart lines
  // ---------------------------------------------------------------------

  /** A product as the page received it; a missing or non-numeric price is NaN. */
  datatype Product = Product(id: string, name: string, price: JsNum)

  /** A cart line: `{ id, name, price, qty }`. */
  datatype CartLine = CartLine(id: string, name: string, price: JsNum, qty: JsNum)

  /** `products.find(product => product._id === productId)`. */
  function FindProduct(products: seq<Product>, id: string): (r: Option<Product>)
    ensures r.Some? ==> r.value in products && r.value.id == id
    ensures r.None? ==> forall p :: p in products ==> p.id != id
  {
    if products == [] then None
    else if products[0].id == id then Some(products[0])
    else FindProduct(products[1..], id)
  }

  predicate InCart(cart: seq<CartLine>, id: string) {
    exists l :: l in cart && l.id == id
  }

  ghost predicate DistinctIds(cart: seq<CartLine>) {
    forall i, j :: 0 <= i < j < |cart| ==> cart[i].id != cart[j].id
  }

  /** The quantity field of the card: `Math.max(1, Number(value))`; NaN stays NaN. */
  function ClampQuantity(x: JsNum): (r: JsNum)
    ensures x.NaN? <==> r.NaN?
    ensures r.Num? ==> r.n >= 1 && r.n >= x.n
    ensures r.Num? && x.n >= 1 ==> r == x
    ensures x.Num? && x.n < 1 ==> r == Num(1)
  {
    if x.NaN? then NaN else if x.n >= 1 then x else Num(1)
  }

  /** `prevCart.map(item => item.id === id ? { ...item, qty: item.qty + q } : item)`. */
  function AddQty(cart: seq<CartLine>, id: string, q: JsNum): (r: seq<CartLine>)
    ensures |r| == |cart|
    ensures forall i :: 0 <= i < |r| ==> r[i].(qty := cart[i].qty) == cart[i]
    ensures forall i :: 0 <= i < |r| && cart[i].id != id ==> r[i] == cart[i]
    ensures forall i :: 0 <= i < |r| && cart[i].id == id ==> r[i].qty == AddNum(cart[i].qty, q)
  {
    seq(|cart|, i requires 0 <= i < |cart| =>
      if cart[i].id == id then cart[i].(qty := AddNum(cart[i].qty, q)) else cart[i])
  }

  /** `handleAddToCart`: an unknown product changes nothing; a product already in
      the cart gets its quantity raised; a new one is appended at the end. */
  function AddToCart(products: seq<Product>, cart: seq<CartLine>, id: string, quantity: JsNum): (r: seq<CartLine>)
    ensures FindProduct(products, id).None? ==> r == cart
    ensures FindProduct(products, id).Some? && InCart(cart, id) ==>
              |r| == |cart| &&
              forall i :: 0 <= i < |r| ==>
                (cart[i].id == id ==> r[i] == cart[i].(qty := AddNum(cart[i].qty, quantity))) &&
                (cart[i].id != id ==> r[i] == cart[i])
    ensures FindProduct(products, id).Some? && !InCart(cart, id) ==>
              var p := FindProduct(products, id).value;
              r == cart + [CartLine(id, p.name, p.price, quantity)]
  {
    match FindProduct(products, id)
    case None => cart
    case Some(p) =>
      if InCart(cart, id) then AddQty(cart, id, quantity)
      else cart + [CartLine(id, p.name, p.price, quantity)]
  }

  /** The remove button: `prevCart.filter(i => i.id !== id)`. */
  function RemoveFromCart(cart: seq<CartLine>, id: string): (r: seq<CartLine>)
    ensures forall l :: l in r <==> l in cart && l.id != id
    ensures |r| <= |cart|
  {
    if cart == [] then []
    else if cart[0].id == id then RemoveFromCart(cart[1..], id)
    else [cart[0]] + RemoveFromCart(cart[1..], id)
  }

  lemma {:induction false} AddToCartKeepsIdsDistinct(products: seq<Product>, cart: seq<CartLine>, id: string, quantity: JsNum)
    requires DistinctIds(cart)
    ensures DistinctIds(AddToCart(products, cart, id, quantity))
  {
    var r := AddToCart(products, cart, id, quantity);
    if FindProduct(products, id).Some? && !InCart(cart, id) {
      forall i, j | 0 <= i < j < |r| ensures r[i].id != r[j].id {
        if j == |cart| {
          assert cart[i] in cart;
        }
      }
    }
  }

  lemma {:induction false} RemoveFromCartKeepsIdsDistinct(cart: seq<CartLine>, id: string)
    requires DistinctIds(cart)
    ensures DistinctIds(RemoveFromCart(cart, id))
  {
    if cart != [] {
      RemoveFromCartKeepsIdsDistinct(cart[1..], id);
      var rest := RemoveFromCart(cart[1..], id);
      forall l | l in rest ensures l.id != cart[0].id {
        var k :| 0 <= k < |cart[1..]| && cart[1..][k] == l;
        assert cart[k + 1] == l;
      }
    }
  }

  /** With distinct ids, removing the line at position `k` keeps every other
      line in its order. */
  lemma {:induction false} RemoveFromCartAt(cart: seq<CartLine>, k: nat)
    requires DistinctIds(cart) && k < |cart|
    ensures RemoveFromCart(cart, cart[k].id) == cart[..k] + cart[k + 1..]
  {
    var tail := cart[1..];
    if k == 0 {
      HeadIdNotInTail(cart);
      RemoveAbsent(tail, cart[0].id);
      assert cart[..0] + cart[1..] == tail;
    } else {
      TailDistinct(cart, k);
      RemoveFromCartAt(tail, k - 1);
      assert RemoveFromCart(cart, cart[k].id) == [cart[0]] + (tail[..k - 1] + tail[k..]);
      DropAtAfterHead(cart, k);
    }
  }

  /** Removing position `k > 0` is keeping the head and removing position `k - 1` of the tail. */
  lemma DropAtAfterHead(cart: seq<CartLine>, k: nat)
    requires 0 < k < |cart|
    ensures [cart[0]] + (cart[1..][..k - 1] + cart[1..][k..]) == cart[..k] + cart[k + 1..]
  {
    assert cart[..k] == [cart[0]] + cart[1..][..k - 1];
    assert cart[k + 1..] == cart[1..][k..];
  }

  /** With distinct ids, no later line shares the first line's id. */
  lemma HeadIdNotInTail(cart: seq<CartLine>)
    requires DistinctIds(cart) && cart != []
    ensures forall l :: l in cart[1..] ==> l.id != cart[0].id
  {
    forall l | l in cart[1..] ensures l.id != cart[0].id {
      var j :| 0 <= j < |cart[1..]| && cart[1..][j] == l;
      assert cart[j + 1] == l;
    }
  }

  /** Dropping the first line keeps the ids distinct and moves line `k` one place down. */
  lemma TailDistinct(cart: seq<CartLine>, k: nat)
    requires DistinctIds(cart) && 0 < k < |cart|
    ensures DistinctIds(cart[1..]) && cart[1..][k - 1] == cart[k] && cart[0].id != cart[k].id
  {
    var tail := cart[1..];
    forall i, j | 0 <= i < j < |tail| ensures tail[i].id != tail[j].id {
      assert tail[i] == cart[i + 1] && tail[j] == cart[j + 1];
    }
  }

  /** Removing an id that is not in the cart changes nothing. */
  lemma {:induction false} RemoveAbsent(cart: seq<CartLine>, id: string)
    requires forall l :: l in cart ==> l.id != id
    ensures RemoveFromCart(cart, id) == cart
  {
    if cart != [] {
      RemoveAbsent(cart[1..], id);
      assert cart == [cart[0]] + cart[1..];
    }
  }

  // ---------------------------------------------------------------------
  // Totals
  // ---------------------------------------------------------------------

  /** `(Number(item.price) || 0) * (item.qty || 0)`. */
  function LineValue(l: CartLine): (v: int)
    ensures l.price.NaN? || l.qty.NaN? ==> v == 0
    ensures l.price.Num? && l.qty.Num? ==> v == l.price.n * l.qty.n
  {
    OrZero(l.price) * OrZero(l.qty)
  }

  /** `cart.reduce((sum, item) => sum + LineValue(item), 0)`, folded from the left. */
  function CartTotal(cart: seq<CartLine>): int
    decreases |cart|
  {
    if cart == [] then 0 else CartTotal(cart[..|cart| - 1]) + LineValue(cart[|cart| - 1])
  }

  /** The total is additive over any split of the cart. */
  lemma {:induction false} CartTotalConcat(a: seq<CartLine>, b: seq<CartLine>)
    ensures CartTotal(a + b) == CartTotal(a) + CartTotal(b)
    decreases |b|
  {
    if b == [] {
      assert a + b == a;
    } else {
      var b' := b[..|b| - 1];
      CartTotalConcat(a, b');
      assert (a + b)[..|a + b| - 1] == a + b';
    }
  }

  lemma CartTotalSingle(l: CartLine)
    ensures CartTotal([l]) == LineValue(l)
  {
    assert [l][..0] == [];
  }

  /** The total of a cart with one line singled out. */
  lemma CartTotalAround(a: seq<CartLine>, x: CartLine, b: seq<CartLine>)
    ensures CartTotal(a + [x] + b) == CartTotal(a) + LineValue(x) + CartTotal(b)
  {
    CartTotalConcat(a + [x], b);
    CartTotalConcat(a, [x]);
    CartTotalSingle(x);
  }

  /** Replacing one line changes the total by exactly the difference of the two line values. */
  lemma CartTotalUpdate(cart: seq<CartLine>, k: nat, l: CartLine)
    requires k < |cart|
    ensures CartTotal(cart[k := l]) == CartTotal(cart) - LineValue(cart[k]) + LineValue(l)
  {
    var a, b := cart[..k], cart[k + 1..];
    assert cart == a + [cart[k]] + b;
    assert cart[k := l] == a + [l] + b;
    CartTotalAround(a, cart[k], b);
    CartTotalAround(a, l, b);
  }

  /** With distinct ids, raising the quantity of an existing line updates that one position. */
  lemma AddToCartExisting(products: seq<Product>, cart: seq<CartLine>, k: nat, quantity: JsNum)
    requires DistinctIds(cart) && k < |cart| && FindProduct(products, cart[k].id).Some?
    ensures AddToCart(products, cart, cart[k].id, quantity) == cart[k := cart[k].(qty := AddNum(cart[k].qty, quantity))]
  {
    assert cart[k] in cart;
  }

  /** Adding more of a product already in the cart raises the total by the
      added quantity times that line's price, when the quantities are numbers. */
  lemma AddToCartExistingTotal(products: seq<Product>, cart: seq<CartLine>, k: nat, quantity: JsNum)
    requires DistinctIds(cart) && k < |cart| && FindProduct(products, cart[k].id).Some?
    requires quantity.Num? && cart[k].qty.Num?
    ensures CartTotal(AddToCart(products, cart, cart[k].id, quantity)) == CartTotal(cart) + OrZero(cart[k].price) * quantity.n
  {
    var l := cart[k].(qty := AddNum(cart[k].qty, quantity));
    AddToCartExisting(products, cart, k, quantity);
    CartTotalUpdate(cart, k, l);
    MergedLineValue(cart[k], quantity.n);
  }

  lemma MergedLineValue(line: CartLine, q: int)
    requires line.qty.Num?
    ensures LineValue(line.(qty := AddNum(line.qty, Num(q)))) == LineValue(line) + OrZero(line.price) * q
  {
    var price, n := OrZero(line.price), line.qty.n;
    assert price * (n + q) == price * n + price * q;
  }

  /** Adding a product not yet in the cart raises the total by its price times the quantity. */
  lemma AddToCartNewTotal(products: seq<Product>, cart: seq<CartLine>, id: string, quantity: JsNum)
    requires FindProduct(products, id).Some? && !InCart(cart, id)
    ensures CartTotal(AddToCart(products, cart, id, quantity)) ==
            CartTotal(cart) + OrZero(FindProduct(products, id).value.price) * OrZero(quantity)
  {
    var p := FindProduct(products, id).value;
    CartTotalConcat(cart, [CartLine(id, p.name, p.price, quantity)]);
    CartTotalSingle(CartLine(id, p.name, p.price, quantity));
  }

  /** Removing a line takes exactly its value off the total. */
  lemma RemoveFromCartTotal(cart: seq<CartLine>, k: nat)
    requires DistinctIds(cart) && k < |cart|
    ensures CartTotal(RemoveFromCart(cart, cart[k].id)) == CartTotal(cart) - LineValue(cart[k])
  {
    var a, b := cart[..k], cart[k + 1..];
    RemoveFromCartAt(cart, k);
    assert cart == a + [cart[k]] + b;
    CartTotalAround(a, cart[k], b);
    CartTotalConcat(a, b);
  }

  // ---------------------------------------------------------------------
  // Checkout form
  // ---------------------------------------------------------------------

  const COURIER: string := "futarszolgalat"
  const PARCEL_POINT: string := "posta"
  const PICKUP: string := "szemelyes"

  /** The three values of the shipping selector. Any other value would make the
      fee lookup read a property of `undefined`; the selector never offers one. */
  predicate IsShippingOption(s: string) {
    s == COURIER || s == PARCEL_POINT || s == PICKUP
  }

  function ShippingFee(shipping: string): (fee: int)
    requires IsShippingOption(shipping)
    ensures 0 <= fee <= INITIAL_FEE
    ensures fee == 0 <==> shipping == PICKUP
    ensures fee == INITIAL_FEE <==> shipping == COURIER
    ensures shipping == PARCEL_POINT ==> fee == 990
  {
    if shipping == COURIER then 1500 else if shipping == PARCEL_POINT then 990 else 0
  }

  /** The form starts with empty fields, courier shipping and card payment. */
  const INITIAL_FORM: Customer := Customer("", "", "", "", "", "", COURIER, "card")
  const INITIAL_FEE: int := 1500

  /** `validateForm`. */
  function ValidateForm(f: Customer): (ok: bool)
    ensures ok <==> f.name != "" && f.email != "" && '@' in f.email &&
                    (f.shipping != PICKUP ==> f.city != "" && f.address != "" && f.zip != "")
  {
    if f.name == "" || f.email == "" || (f.shipping != PICKUP && (f.city == "" || f.address == "" || f.zip == "")) then false
    else if '@' !in f.email then false
    else true
  }

  /** The order lines of the payload; `unitPrice` is never sent. */
  function PayloadItems(cart: seq<CartLine>): (items: seq<Item>)
    ensures |items| == |cart|
    ensures forall i :: 0 <= i < |items| ==> items[i].unitPrice.None?
    ensures forall i :: 0 <= i < |items| ==>
              items[i].productId == cart[i].id && items[i].name == cart[i].name &&
              items[i].qty == cart[i].qty && items[i].price == cart[i].price
  {
    seq(|cart|, i requires 0 <= i < |cart| => Item(cart[i].id, cart[i].name, cart[i].qty, cart[i].price, None))
  }

  /** `orderDetails`: the form as `customer`, one item per line, and the cart
      total plus the fee as both `total` and `totalPrice`. */
  function BuildPayload(cart: seq<CartLine>, form: Customer, fee: int): (b: OrderBody)
    ensures b.customer == Some(form) && b.paymentMethod == Some(form.payment)
    ensures b.items.Some? && |b.items.value| == |cart|
    ensures forall i :: 0 <= i < |cart| ==>
              b.items.value[i].productId == cart[i].id && b.items.value[i].name == cart[i].name &&
              b.items.value[i].qty == cart[i].qty &&
              b.items.value[i].price == cart[i].price && b.items.value[i].unitPrice.None?
    ensures b.total == Some(CartTotal(cart) + fee) && b.totalPrice == b.total && b.shippingFee == Some(fee)
    ensures b.status.None? && b.createdAt.None? && b.customerId.None?
  {
    var finalTotal := CartTotal(cart) + fee;
    OrderBody(Some(form), Some(PayloadItems(cart)), Some(finalTotal), Some(fee), Some(finalTotal),
              Some(form.payment), None, None, None)
  }

  /** The two payment choices the form offers. */
  predicate IsPaymentChoice(p: string) {
    p == "card" || p == "transfer"
  }

  /** The form's payment values never equal the server's prepayment literal, so
      every order placed from the shop starts as "being processed", and the
      server can always build the confirmation mail for it: past the id and
      database guards, the server answers it with a 200. */
  lemma ShopOrdersNeverPrepaid(cart: seq<CartLine>, form: Customer, fee: int, userId: string, now: int, id: string)
    requires IsPaymentChoice(form.payment)
    ensures BuildPayload(cart, form, fee).paymentMethod != Some(PREPAYMENT)
    ensures StampedOrder(BuildPayload(cart, form, fee), userId, now, id).status == Processing
    ensures CustomerMailBuildable(StampedOrder(BuildPayload(cart, form, fee), userId, now, id))
  {
    assert PREPAYMENT[0] != 'c' && PREPAYMENT[0] != 't';
  }

  /** Had the shop sent the prepayment literal with a non-empty cart, the server
      could not have built the gateway request: no item carries `unitPrice`. */
  lemma ShopPayloadNotPayable(cart: seq<CartLine>, form: Customer, fee: int, userId: string, now: int, id: string)
    requires |cart| > 0
    ensures !GatewayRequestBuildable(StampedOrder(BuildPayload(cart, form, fee), userId, now, id))
  {
    var b := BuildPayload(cart, form, fee);
    assert b.items.value[0].unitPrice.None?;
  }

  // ---------------------------------------------------------------------
  // Submission outcome
  // ---------------------------------------------------------------------

  const LOGIN_FOR_ORDER: string := "Bejelentkezés szükséges a rendeléshez."
  const FILL_REQUIRED: string := "Kérjük, töltse ki az összes kötelező mezőt!"
  const UNKNOWN_SERVER_ERROR: string := "Ismeretlen szerverhiba"

  /** `user?.token || localStorage.getItem("token")`: the first non-empty one. */
  function ChooseToken(userToken: Option<string>, storedToken: Option<string>): (t: Option<string>)
    ensures t.Some? ==> t.value != "" && (t == userToken || t == storedToken)
    ensures t.None? <==> (userToken.None? || userToken.value == "") && (storedToken.None? || storedToken.value == "")
    ensures userToken.Some? && userToken.value != "" ==> t == userToken
  {
    if userToken.Some? && userToken.value != "" then userToken
    else if storedToken.Some? && storedToken.value != "" then storedToken
    else None
  }

  /** What the page reads from the answer to `POST /api/order`: whether it was
      ok, and the JSON fields it looks at. `Pending` is a request that is never
      answered; `Failed` a rejected fetch with its message. */
  datatype ServerAnswer =
    | Answer(ok: bool, message: Option<string>, error: Option<string>, action: Option<string>, redirectUrl: Option<string>)
    | Pending
    | Failed(text: string)

  /** The answer the page sees for a reply of the order route. */
  function AnswerOf(r: Reply): (a: ServerAnswer)
    requires r.Json? || r.NoReply?
    ensures r.NoReply? <==> a.Pending?
    ensures r.Json? ==> a.Answer? && (a.ok <==> 200 <= r.code < 300)
    ensures r.Json? && r.body.Redirecting? ==> a.action == Some(r.body.action) && a.redirectUrl == Some(r.body.redirectUrl)
    ensures r.Json? && !r.body.Redirecting? ==> a.redirectUrl.None?
  {
    if r.NoReply? then Pending
    else
      var b := r.body;
      Answer(200 <= r.code < 300,
             match b
             case Message(m) => Some(m)
             case Fault(m, _) => Some(m)
             case Saved(m, _, _) => Some(m)
             case Redirecting(m, _, _) => Some(m)
             case NoOrders(m) => Some(m)
             case _ => None,
             match b
             case Error(e) => Some(e)
             case ErrorDetails(e, _) => Some(e)
             case Fault(_, e) => Some(e)
             case _ => None,
             match b
             case Saved(_, a, _) => Some(a)
             case Redirecting(_, a, _) => Some(a)
             case _ => None,
             match b
             case Redirecting(_, _, u) => Some(u)
             case _ => None)
  }

  /** `errorData.message || errorData.error || "Ismeretlen szerverhiba"`. */
  function ErrorText(a: ServerAnswer): (t: string)
    requires a.Answer?
    ensures t != ""
    ensures Truthy(a.message) ==> t == a.message.value
    ensures !Truthy(a.message) && Truthy(a.error) ==> t == a.error.value
    ensures (a.message.Some? && t == a.message.value) || (a.error.Some? && t == a.error.value) ||
            t == UNKNOWN_SERVER_ERROR
  {
    if Truthy(a.message) then a.message.value
    else if Truthy(a.error) then a.error.value
    else UNKNOWN_SERVER_ERROR
  }

  /** `data.action === "redirect" && data.redirectUrl`. */
  predicate IsRedirect(a: ServerAnswer) {
    a.Answer? && a.action == Some("redirect") && Truthy(a.redirectUrl)
  }

  /** A line under the form: its `type` and its text. */
  datatype Notice = Notice(kind: string, text: string)

  /** The state the promise chain leaves behind: the cart, where the window
      went, the notice under the form and whether the form is still busy. */
  datatype Checkout = Checkout(cart: seq<CartLine>, location: Option<string>, notice: Option<Notice>, busy: bool)

  /** `handleOrderSubmit` and the `then`/`catch`/`finally` of the form. */
  function CheckoutResult(cart: seq<CartLine>, token: Option<string>, answer: ServerAnswer): (c: Checkout)
    ensures token.None? ==> c == Checkout(cart, None, Some(Notice("error", LOGIN_FOR_ORDER)), false)
    ensures token.Some? && answer.Pending? ==> c == Checkout(cart, None, None, true)
    ensures token.Some? && answer.Failed? ==> c == Checkout(cart, None, Some(Notice("error", answer.text)), false)
    ensures token.Some? && answer.Answer? && !answer.ok ==>
              c == Checkout(cart, None, Some(Notice("error", ErrorText(answer))), false)
    ensures token.Some? && answer.Answer? && answer.ok && IsRedirect(answer) ==>
              c == Checkout(cart, answer.redirectUrl, None, false)
    ensures token.Some? && answer.Answer? && answer.ok && !IsRedirect(answer) ==>
              c.cart == [] && c.location.None? && !c.busy &&
              c.notice == if Truthy(answer.message) then Some(Notice("success", answer.message.value)) else None
    ensures c.cart == cart || c.cart == []
  {
    if token.None? then Checkout(cart, None, Some(Notice("error", LOGIN_FOR_ORDER)), false)
    else
      match answer
      case Pending => Checkout(cart, None, None, true)
      case Failed(text) => Checkout(cart, None, Some(Notice("error", text)), false)
      case Answer(ok, message, _, _, redirectUrl) =>
        if !ok then Checkout(cart, None, Some(Notice("error", ErrorText(answer))), false)
        else if IsRedirect(answer) then Checkout(cart, redirectUrl, None, false)
        else Checkout([], None, if Truthy(message) then Some(Notice("success", message.value)) else None, false)
  }

  /** A shop order the server accepts empties the cart and shows the server's message. */
  lemma AcceptedOrderEmptiesCart(cart: seq<CartLine>, token: string, orderId: string)
    requires token != ""
    ensures CheckoutResult(cart, Some(token), AnswerOf(Json(200, Saved(SAVED_MESSAGE, "success", orderId))))
            == Checkout([], None, Some(Notice("success", SAVED_MESSAGE)), false)
  {
    var a := AnswerOf(Json(200, Saved(SAVED_MESSAGE, "success", orderId)));
    assert a.action == Some("success");
    assert "success" != "redirect";
    assert Truthy(a.message);
  }

  // ---------------------------------------------------------------------
  // The page's state
  // ---------------------------------------------------------------------

  /** A request the page sent: the bearer token and the JSON body. */
  datatype OrderRequest = OrderRequest(token: string, body: OrderBody)

  /** The state of the shop page (`WineStore`) and of the order form it shows
      in the modal (`OrderForm`). */
  class Storefront {
    var products: seq<Product>
    var productsLoading: bool
    var productsError: Option<string>
    var cart: seq<CartLine>
    var modalOpen: bool
    var form: Customer
    var shippingFee: int
    var submitting: bool
    var notice: Option<Notice>
    var location: Option<string>
    var requests: seq<OrderRequest>

    ghost predicate Valid()
      reads this
    {
      DistinctIds(cart) && IsShippingOption(form.shipping) && shippingFee == ShippingFee(form.shipping)
    }

    constructor ()
      ensures Valid()
      ensures products == [] && productsLoading && productsError.None? && cart == []
      ensures !modalOpen && form == INITIAL_FORM && shippingFee == INITIAL_FEE
      ensures !submitting && notice.None? && location.None? && requests == []
    {
      products := [];
      productsLoading := true;
      productsError := None;
      cart := [];
      modalOpen := false;
      form := INITIAL_FORM;
      shippingFee := INITIAL_FEE;
      submitting := false;
      notice := None;
      location := None;
      requests := [];
    }

    /** The product fetch settled: a list, or an error message. */
    method ProductsLoaded(list: Option<seq<Product>>, error: string)
      requires Valid()
      modifies this`products, this`productsLoading, this`productsError
      ensures Valid() && !productsLoading
      ensures list.Some? ==> products == list.value && productsError == old(productsError)
      ensures list.None? ==> products == old(products) && productsError == Some(error)
    {
      if list.Some? {
        products := list.value;
      } else {
        productsError := Some(error);
      }
      productsLoading := false;
    }

    method Add(id: string, quantity: JsNum)
      requires Valid()
      modifies this`cart
      ensures Valid()
      ensures cart == AddToCart(products, old(cart), id, quantity)
    {
      AddToCartKeepsIdsDistinct(products, cart, id, quantity);
      cart := AddToCart(products, cart, id, quantity);
    }

    method Remove(id: string)
      requires Valid()
      modifies this`cart
      ensures Valid()
      ensures cart == RemoveFromCart(old(cart), id)
    {
      RemoveFromCartKeepsIdsDistinct(cart, id);
      cart := RemoveFromCart(cart, id);
    }

    /** `clearCart`. */
    method Clear()
      requires Valid()
      modifies this`cart
      ensures Valid() && cart == []
    {
      cart := [];
    }

    /** "Tovább a rendelésre": only a signed-in user gets the form; anyone else
      gets an alert (`alerted`). */
    method OpenOrderForm(signedIn: bool) returns (alerted: bool)
      requires Valid()
      modifies this`modalOpen
      ensures Valid()
      ensures alerted <==> !signedIn
      ensures modalOpen == (signedIn || old(modalOpen))
    {
      if !signedIn {
        return true;
      }
      modalOpen := true;
      alerted := false;
    }

    /** Closing the modal unmounts the form, which loses its state. */
    method CloseOrderForm()
      requires Valid()
      modifies this`modalOpen, this`form, this`shippingFee, this`submitting, this`notice
      ensures Valid()
      ensures !modalOpen && form == INITIAL_FORM && shippingFee == INITIAL_FEE && !submitting && notice.None?
    {
      modalOpen := false;
      form := INITIAL_FORM;
      shippingFee := INITIAL_FEE;
      submitting := false;
      notice := None;
    }

    /** Editing a form field; a new shipping choice also resets the fee. */
    method Edit(f: Customer)
      requires Valid() && IsShippingOption(f.shipping)
      modifies this`form, this`shippingFee
      ensures Valid()
      ensures form == f && shippingFee == ShippingFee(f.shipping)
    {
      form := f;
      shippingFee := ShippingFee(f.shipping);
    }

    /** `handleSubmit`: an invalid form only shows the notice; otherwise the
      payload is built and, when there is a token, sent; the answer decides the
      cart, the window location and the notice. */
    method Submit(userToken: Option<string>, storedToken: Option<string>, answer: ServerAnswer)
      requires Valid()
      modifies this`cart, this`submitting, this`notice, this`location, this`requests
      ensures Valid()
      ensures !ValidateForm(form) ==>
                notice == Some(Notice("error", FILL_REQUIRED)) && cart == old(cart) &&
                requests == old(requests) && submitting == old(submitting) && location == old(location)
      ensures ValidateForm(form) ==>
                var token := ChooseToken(userToken, storedToken);
                var c := CheckoutResult(old(cart), token, answer);
                requests == (if token.Some? then old(requests) + [OrderRequest(token.value, BuildPayload(old(cart), form, shippingFee))]
                             else old(requests)) &&
                cart == c.cart && notice == c.notice && submitting == c.busy &&
                location == (if c.location.Some? then c.location else old(location))
    {
      if !ValidateForm(form) {
        notice := Some(Notice("error", FILL_REQUIRED));
        return;
      }
      var payload := BuildPayload(cart, form, shippingFee);
      var token := ChooseToken(userToken, storedToken);
      if token.Some? {
        requests := requests + [OrderRequest(token.value, payload)];
      }
      var c := CheckoutResult(cart, token, answer);
      cart := c.cart;
      notice := c.notice;
      submitting := c.busy;
      if c.location.Some? {
        location := c.location;
      }
    }
  }
}
