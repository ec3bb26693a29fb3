/**
 * `backend/controllers/adminController.js`. Every route of the admin router
 * runs `authMiddleware` and then `adminOnly`, so each handler here requires an
 * acting user whose role is `admin`. No handler compares the acting user with
 * the target of the request.
 *
 * A malformed `:id` makes Mongoose's cast fail; the handler's catch turns that
 * into a 500 with its own error text.
 */
module AdminController {
  import opened Common
  import opened Model
  import opened Queries
  import opened Stores

  const ORDER_STATUS_FAILURE: string := "Státusz frissítése hiba."
  const PRODUCT_CREATE_FAILURE: string := "Termék létrehozási hiba."
  const PRODUCT_UPDATE_FAILURE: string := "Termék szerkesztési hiba."
  const PRODUCT_DELETE_FAILURE: string := "Termék törlési hiba."
  const PRODUCT_DELETED: string := "Termék törölve."
  const USER_UPDATE_FAILURE: string := "Felhasználó frissítési hiba."
  const USER_DELETE_FAILURE: string := "Felhasználó törlési hiba."
  const USER_DELETED: string := "Felhasználó törölve."

  // ---------------------------------------------------------------------
  // Orders
  // ---------------------------------------------------------------------

  /** `getAllOrders`: the unfulfilled orders, newest first, none dropped and none added. */
  function GetAllOrders(actor: Claims, docs: seq<Order>): (r: Reply)
    requires actor.role == ADMIN
    ensures r.Json? && r.code == 200 && r.body.OrderList?
    ensures NewestFirst(r.body.orders)
    ensures forall o :: o in r.body.orders <==> o in docs && StatusText(o.status) != FULFILLED
    ensures forall o :: multiset(r.body.orders)[o] == if StatusText(o.status) != FULFILLED then multiset(docs)[o] else 0
  {
    Json(200, OrderList(AdminOrderList(docs)))
  }

  /** `updateOrderStatus`: overwrites `status` with whatever text the body holds
      (an absent `status` writes nothing) and answers with the updated order,
      or `null` when no order has that id. */
  method UpdateOrderStatus(store: OrderStore, actor: Claims, id: string, status: Option<string>)
    returns (reply: Reply)
    requires store.Valid() && actor.role == ADMIN
    modifies store`docs
    ensures store.Valid()
    ensures !IsObjectId(id) ==> reply == Json(500, Error(ORDER_STATUS_FAILURE)) && store.docs == old(store.docs)
    ensures IsObjectId(id) && FindOrder(old(store.docs), id).None? ==>
              reply == Json(200, OrderJson(None)) && store.docs == old(store.docs)
    ensures IsObjectId(id) && FindOrder(old(store.docs), id).Some? ==>
              var o := FindOrder(old(store.docs), id).value;
              var updated := if status.Some? then o.(status := ParseStatus(status.value)) else o;
              reply == Json(200, OrderJson(Some(updated))) &&
              |store.docs| == |old(store.docs)| &&
              forall i :: 0 <= i < |store.docs| ==>
                store.docs[i] == if old(store.docs)[i].id == id then updated else old(store.docs)[i]
  {
    if !IsObjectId(id) {
      return Json(500, Error(ORDER_STATUS_FAILURE));
    }
    var found := FindOrder(store.docs, id);
    if found.None? {
      return Json(200, OrderJson(None));
    }
    var o := found.value;
    if status.Some? {
      var s := ParseStatus(status.value);
      store.SetStatus(id, s);
      reply := Json(200, OrderJson(Some(o.(status := s))));
      forall i | 0 <= i < |store.docs| && old(store.docs)[i].id == id
        ensures old(store.docs)[i] == o
      {
        assert o in old(store.docs);
      }
    } else {
      reply := Json(200, OrderJson(Some(o)));
      forall i | 0 <= i < |store.docs| && old(store.docs)[i].id == id
        ensures old(store.docs)[i] == o
      {
        assert o in old(store.docs);
      }
    }
  }

  // ---------------------------------------------------------------------
  // Products
  // ---------------------------------------------------------------------

  /** `getAllProducts`: the whole collection in its natural order. */
  function GetAllProducts(actor: Claims, docs: seq<ProductDoc>): (r: Reply)
    requires actor.role == ADMIN
    ensures r.Json? && r.code == 200 && r.body.ProductList?
    ensures r.body.products == docs
  {
    Json(200, ProductList(docs))
  }

  /** `createProduct`: saves the body as a new product; a body the product
      schema refuses (`schemaOk` false) is answered with a 500. */
  method CreateProduct(store: ProductStore, actor: Claims, fields: ProductFields, newId: string, schemaOk: bool)
    returns (reply: Reply)
    requires store.Valid() && actor.role == ADMIN && !store.HasId(newId)
    modifies store
    ensures store.Valid()
    ensures !schemaOk ==> reply == Json(500, Error(PRODUCT_CREATE_FAILURE)) && store.docs == old(store.docs)
    ensures schemaOk ==> store.docs == old(store.docs) + [ProductDoc(newId, fields)] &&
                         reply == Json(200, ProductJson(Some(ProductDoc(newId, fields))))
  {
    if !schemaOk {
      return Json(500, Error(PRODUCT_CREATE_FAILURE));
    }
    store.Insert(ProductDoc(newId, fields));
    reply := Json(200, ProductJson(Some(ProductDoc(newId, fields))));
  }

  /** `updateProduct`: the fields present in the body replace the stored ones;
      the reply is the updated product, or `null` for an unknown id. */
  method UpdateProduct(store: ProductStore, actor: Claims, id: string, upd: ProductFields)
    returns (reply: Reply)
    requires store.Valid() && actor.role == ADMIN
    modifies store
    ensures store.Valid()
    ensures !IsObjectId(id) ==> reply == Json(500, Error(PRODUCT_UPDATE_FAILURE)) && store.docs == old(store.docs)
    ensures IsObjectId(id) && FindProduct(old(store.docs), id).None? ==>
              reply == Json(200, ProductJson(None)) && store.docs == old(store.docs)
    ensures IsObjectId(id) && FindProduct(old(store.docs), id).Some? ==>
              var updated := ProductDoc(id, MergeFields(FindProduct(old(store.docs), id).value.fields, upd));
              reply == Json(200, ProductJson(Some(updated))) &&
              |store.docs| == |old(store.docs)| &&
              forall i :: 0 <= i < |store.docs| ==>
                store.docs[i] == if old(store.docs)[i].id == id then updated else old(store.docs)[i]
  {
    if !IsObjectId(id) {
      return Json(500, Error(PRODUCT_UPDATE_FAILURE));
    }
    var found := FindProduct(store.docs, id);
    if found.None? {
      return Json(200, ProductJson(None));
    }
    store.Update(id, upd);
    var p := found.value;
    reply := Json(200, ProductJson(Some(ProductDoc(id, MergeFields(p.fields, upd)))));
    forall i | 0 <= i < |store.docs| && old(store.docs)[i].id == id
      ensures old(store.docs)[i] == p
    {
      assert p in old(store.docs);
    }
  }

  /** `deleteProduct`: reports success whether or not the product existed. */
  method DeleteProduct(store: ProductStore, actor: Claims, id: string) returns (reply: Reply)
    requires store.Valid() && actor.role == ADMIN
    modifies store
    ensures store.Valid()
    ensures !IsObjectId(id) ==> reply == Json(500, Error(PRODUCT_DELETE_FAILURE)) && store.docs == old(store.docs)
    ensures IsObjectId(id) ==> reply == Json(200, Message(PRODUCT_DELETED)) &&
                               store.docs == RemoveProduct(old(store.docs), id) &&
                               !store.HasId(id)
  {
    if !IsObjectId(id) {
      return Json(500, Error(PRODUCT_DELETE_FAILURE));
    }
    store.Delete(id);
    reply := Json(200, Message(PRODUCT_DELETED));
  }

  // ---------------------------------------------------------------------
  // Users
  // ---------------------------------------------------------------------

  /** Every user as the API shows it, in collection order. */
  function Views(docs: seq<UserDoc>): (r: seq<UserView>)
    ensures |r| == |docs|
    ensures forall i :: 0 <= i < |r| ==> r[i] == ViewOf(docs[i])
  {
    seq(|docs|, i requires 0 <= i < |docs| => ViewOf(docs[i]))
  }

  /** `getAllUsers`: every user, with the password left out. */
  function GetAllUsers(actor: Claims, docs: seq<UserDoc>): (r: Reply)
    requires actor.role == ADMIN
    ensures r.Json? && r.code == 200 && r.body.UserList?
    ensures |r.body.users| == |docs|
    ensures forall i :: 0 <= i < |docs| ==>
              r.body.users[i].id == docs[i].id && r.body.users[i].email == docs[i].email &&
              r.body.users[i].role == docs[i].role
  {
    Json(200, UserList(Views(docs)))
  }

  /** `updateUser`: writes `email` and `role` from the body (an absent one is
      left alone). An email held by another user violates the unique index and
      yields a 500; an unknown id yields `null`. */
  method UpdateUser(store: UserStore, actor: Claims, id: string, email: Option<string>, role: Option<string>)
    returns (reply: Reply)
    requires store.Valid() && actor.role == ADMIN
    modifies store
    ensures store.Valid()
    ensures !IsObjectId(id) ==> reply == Json(500, Error(USER_UPDATE_FAILURE)) && store.docs == old(store.docs)
    ensures IsObjectId(id) && FindUser(old(store.docs), id).None? ==>
              reply == Json(200, UserJson(None)) && store.docs == old(store.docs)
    ensures IsObjectId(id) && FindUser(old(store.docs), id).Some? && email.Some? &&
            EmailTakenByOther(old(store.docs), id, email.value) ==>
              reply == Json(500, Error(USER_UPDATE_FAILURE)) && store.docs == old(store.docs)
    ensures IsObjectId(id) && FindUser(old(store.docs), id).Some? &&
            !(email.Some? && EmailTakenByOther(old(store.docs), id, email.value)) ==>
              var u := FindUser(old(store.docs), id).value;
              var updated := u.(email := if email.Some? then email.value else u.email,
                                role := if role.Some? then role.value else u.role);
              reply == Json(200, UserJson(Some(ViewOf(updated)))) &&
              |store.docs| == |old(store.docs)| &&
              forall i :: 0 <= i < |store.docs| ==>
                store.docs[i] == if old(store.docs)[i].id == id then updated else old(store.docs)[i]
  {
    if !IsObjectId(id) {
      return Json(500, Error(USER_UPDATE_FAILURE));
    }
    var found := FindUser(store.docs, id);
    if found.None? {
      return Json(200, UserJson(None));
    }
    if email.Some? && EmailTakenByOther(store.docs, id, email.value) {
      return Json(500, Error(USER_UPDATE_FAILURE));
    }
    var u := found.value;
    var updated := u.(email := if email.Some? then email.value else u.email,
                      role := if role.Some? then role.value else u.role);
    store.Replace(updated);
    reply := Json(200, UserJson(Some(ViewOf(updated))));
  }

  /** `deleteUser`: removes the user, even when it is the acting admin. */
  method DeleteUser(store: UserStore, actor: Claims, id: string) returns (reply: Reply)
    requires store.Valid() && actor.role == ADMIN
    modifies store
    ensures store.Valid()
    ensures !IsObjectId(id) ==> reply == Json(500, Error(USER_DELETE_FAILURE)) && store.docs == old(store.docs)
    ensures IsObjectId(id) ==> reply == Json(200, Message(USER_DELETED)) &&
                               store.docs == RemoveUser(old(store.docs), id) &&
                               !store.HasId(id)
    ensures IsObjectId(id) && id == actor.id ==> !store.HasId(actor.id)
  {
    if !IsObjectId(id) {
      return Json(500, Error(USER_DELETE_FAILURE));
    }
    store.Delete(id);
    reply := Json(200, Message(USER_DELETED));
  }
}
