/**
 * `backend/controllers/userController.js`. Every route of the user router runs
 * `authMiddleware` first, so each handler receives the verified claims of the
 * caller. Thrown errors go through `next(err)` to the global error handler.
 */
module UserController {
  import opened Common
  import opened Model
  import opened Queries
  import opened Stores
  import opened Server
  import opened AuthController

  const NO_ORDERS_YET: string := "Még nincsenek leadott rendeléseid."
  const USER_NOT_FOUND: string := "Felhasználó nem található"
  const WRONG_OLD_PASSWORD: string := "Hibás régi jelszó"
  const PASSWORD_CHANGED: string := "Jelszó módosítva!"

  /** Mongoose's failed cast of a malformed id; it carries no status code. Its
      text stands in for the library's own message. */
  const CAST_ERROR: JsError := JsError(None, "CastError")
  /** The unique email index refusing a write; it carries no status code. Its
      text stands in for the driver's own message. */
  const DUPLICATE_KEY_ERROR: JsError := JsError(None, "E11000 duplicate key error")
  /** What the password library throws when the text to compare is missing. */
  const COMPARE_ARGUMENT_ERROR: JsError := JsError(None, "data and hash arguments required")
  /** What the password library throws when the text to hash is missing. */
  const HASH_ARGUMENT_ERROR: JsError := JsError(None, "data and salt arguments required")

  // ---------------------------------------------------------------------
  // GET /api/user/orders
  // ---------------------------------------------------------------------

  /** The value `customerId` is compared with: an ObjectId when the caller id
      has that form, the raw text otherwise. */
  function SearchKey(id: string): (k: CustomerRef)
    ensures k.Oid? <==> IsObjectId(id)
    ensures k == Oid(id) || k == Raw(id)
  {
    if IsObjectId(id) then Oid(id) else Raw(id)
  }

  /** `getUserOrders`: the caller's own orders, newest first, or an explicit
      empty answer that is still a 200. */
  function GetUserOrders(caller: Claims, docs: seq<Order>): (r: Reply)
    ensures r.Json? && r.code == 200
    ensures r.body.NoOrders? <==> forall o :: o in docs ==> o.customerId != SearchKey(caller.id)
    ensures r.body.NoOrders? ==> r.body.message == NO_ORDERS_YET
    ensures !r.body.NoOrders? ==> r.body.OrderList? && |r.body.orders| > 0
    ensures r.body.OrderList? ==> NewestFirst(r.body.orders)
    ensures r.body.OrderList? ==> forall o :: o in r.body.orders <==> o in docs && o.customerId == SearchKey(caller.id)
    ensures r.body.OrderList? ==>
              forall o :: multiset(r.body.orders)[o] == if o.customerId == SearchKey(caller.id) then multiset(docs)[o] else 0
  {
    var list := CustomerOrderList(docs, SearchKey(caller.id));
    if |list| == 0 then Json(200, NoOrders(NO_ORDERS_YET))
    else
      assert list[0] in list;
      Json(200, OrderList(list))
  }

  /** An order the checkout handler stored for a caller shows up in that caller's
      list, and in no other caller's. */
  lemma SubmittedOrderListed(body: OrderBody, owner: Claims, now: int, id: string, docs: seq<Order>, caller: Claims)
    requires IsObjectId(owner.id)
    requires StampedOrder(body, owner.id, now, id) in docs
    ensures GetUserOrders(caller, docs).body.OrderList? && StampedOrder(body, owner.id, now, id) in GetUserOrders(caller, docs).body.orders
            <==> caller.id == owner.id
  {
    var o := StampedOrder(body, owner.id, now, id);
    if caller.id == owner.id {
      assert o.customerId == SearchKey(caller.id);
    }
  }

  // ---------------------------------------------------------------------
  // GET /api/user/profile
  // ---------------------------------------------------------------------

  /** `getProfile`: the caller's own record without the password. */
  function GetProfile(caller: Claims, docs: seq<UserDoc>): (r: Reply)
    ensures !IsObjectId(caller.id) ==> r == HandleError(false, CAST_ERROR)
    ensures IsObjectId(caller.id) && FindUser(docs, caller.id).None? ==> r == Json(404, Error(USER_NOT_FOUND))
    ensures IsObjectId(caller.id) && FindUser(docs, caller.id).Some? ==>
              r.Json? && r.code == 200 && r.body.UserJson? && r.body.user.Some? &&
              r.body.user.value.id == caller.id &&
              exists u :: u in docs && u.id == caller.id && r.body.user.value == ViewOf(u)
  {
    if !IsObjectId(caller.id) then HandleError(false, CAST_ERROR)
    else
      match FindUser(docs, caller.id)
      case None => Json(404, Error(USER_NOT_FOUND))
      case Some(u) => Json(200, UserJson(Some(ViewOf(u))))
  }

  // ---------------------------------------------------------------------
  // PUT /api/user/profile
  // ---------------------------------------------------------------------

  /** `updateProfile`: writes `email` (an absent one writes nothing) on the
      caller's own record only; the reply is the updated record or `null`.
      The update runs the schema's validators: `validationError` holds the
      message of a refused email, and the refusal is thrown to the error
      handler before anything is written. An absent email is not validated. */
  method UpdateProfile(store: UserStore, caller: Claims, email: Option<string>, validationError: Option<string>)
    returns (reply: Reply)
    requires store.Valid()
    modifies store
    ensures store.Valid()
    ensures !IsObjectId(caller.id) ==> reply == HandleError(false, CAST_ERROR) && store.docs == old(store.docs)
    ensures IsObjectId(caller.id) && email.Some? && validationError.Some? ==>
              reply == HandleError(false, JsError(None, validationError.value)) && store.docs == old(store.docs)
    ensures IsObjectId(caller.id) && !(email.Some? && validationError.Some?) &&
            FindUser(old(store.docs), caller.id).None? ==>
              reply == Json(200, UserJson(None)) && store.docs == old(store.docs)
    ensures IsObjectId(caller.id) && !(email.Some? && validationError.Some?) &&
            FindUser(old(store.docs), caller.id).Some? && email.Some? &&
            EmailTakenByOther(old(store.docs), caller.id, email.value) ==>
              reply == HandleError(false, DUPLICATE_KEY_ERROR) && store.docs == old(store.docs)
    ensures IsObjectId(caller.id) && !(email.Some? && validationError.Some?) &&
            FindUser(old(store.docs), caller.id).Some? &&
            !(email.Some? && EmailTakenByOther(old(store.docs), caller.id, email.value)) ==>
              var u := FindUser(old(store.docs), caller.id).value;
              var updated := if email.Some? then u.(email := email.value) else u;
              reply == Json(200, UserJson(Some(ViewOf(updated)))) &&
              |store.docs| == |old(store.docs)| &&
              forall i :: 0 <= i < |store.docs| ==>
                store.docs[i] == if old(store.docs)[i].id == caller.id then updated else old(store.docs)[i]
  {
    if !IsObjectId(caller.id) {
      return HandleError(false, CAST_ERROR);
    }
    if email.Some? && validationError.Some? {
      return HandleError(false, JsError(None, validationError.value));
    }
    var found := FindUser(store.docs, caller.id);
    if found.None? {
      return Json(200, UserJson(None));
    }
    if email.Some? && EmailTakenByOther(store.docs, caller.id, email.value) {
      return HandleError(false, DUPLICATE_KEY_ERROR);
    }
    var u := found.value;
    var updated := if email.Some? then u.(email := email.value) else u;
    store.Replace(updated);
    reply := Json(200, UserJson(Some(ViewOf(updated))));
  }

  // ---------------------------------------------------------------------
  // PUT /api/user/change-password
  // ---------------------------------------------------------------------

  /** `changePassword`. `matches(plain, stored)` is the password library's
      comparison and `hash` its salted hash; both are outside the model. The
      handler hashes the new password itself and then saves the document, so
      the stored value is what the schema's pre-save hook `saveHook` makes of
      that hash, as for a registration. The user is read by id without asking
      for the password field: `hashLoaded` says whether the schema returns the
      stored hash on such a read. When it does not, the comparison gets no hash
      and throws, exactly as for a missing old password. */
  method ChangePassword(store: UserStore, caller: Claims, oldPassword: Option<string>, newPassword: Option<string>,
                        matches: (string, string) -> bool, hash: string -> string, saveHook: string -> string,
                        hashLoaded: bool)
    returns (reply: Reply)
    requires store.Valid()
    modifies store
    ensures store.Valid()
    ensures !IsObjectId(caller.id) ==> reply == HandleError(false, CAST_ERROR) && store.docs == old(store.docs)
    ensures IsObjectId(caller.id) && FindUser(old(store.docs), caller.id).None? ==>
              reply == Json(404, Error(USER_NOT_FOUND)) && store.docs == old(store.docs)
    ensures IsObjectId(caller.id) && FindUser(old(store.docs), caller.id).Some? ==>
              var u := FindUser(old(store.docs), caller.id).value;
              (oldPassword.None? || !hashLoaded ==>
                 reply == HandleError(false, COMPARE_ARGUMENT_ERROR) && store.docs == old(store.docs)) &&
              (oldPassword.Some? && hashLoaded && !matches(oldPassword.value, u.password) ==>
                 reply == Json(403, Error(WRONG_OLD_PASSWORD)) && store.docs == old(store.docs)) &&
              (oldPassword.Some? && hashLoaded && matches(oldPassword.value, u.password) && newPassword.None? ==>
                 reply == HandleError(false, HASH_ARGUMENT_ERROR) && store.docs == old(store.docs)) &&
              (oldPassword.Some? && hashLoaded && matches(oldPassword.value, u.password) && newPassword.Some? ==>
                 reply == Json(200, Message(PASSWORD_CHANGED)) &&
                 |store.docs| == |old(store.docs)| &&
                 forall i :: 0 <= i < |store.docs| ==>
                   store.docs[i] == if old(store.docs)[i].id == caller.id
                                    then u.(password := saveHook(hash(newPassword.value)))
                                    else old(store.docs)[i])
  {
    if !IsObjectId(caller.id) {
      return HandleError(false, CAST_ERROR);
    }
    var found := FindUser(store.docs, caller.id);
    if found.None? {
      return Json(404, Error(USER_NOT_FOUND));
    }
    var u := found.value;
    if oldPassword.None? || !hashLoaded {
      return HandleError(false, COMPARE_ARGUMENT_ERROR);
    }
    if !matches(oldPassword.value, u.password) {
      return Json(403, Error(WRONG_OLD_PASSWORD));
    }
    if newPassword.None? {
      return HandleError(false, HASH_ARGUMENT_ERROR);
    }
    store.Replace(u.(password := saveHook(hash(newPassword.value))));
    reply := Json(200, Message(PASSWORD_CHANGED));
  }

  /** After a password change that stores `stored` for the user `u`, logging in
      with `u`'s email and the new password succeeds, with a token for `u`,
      exactly when the comparison accepts `stored`; otherwise it is the same
      400 as any wrong password. For `ChangePassword`, `stored` is
      `saveHook(hash(newPassword))`. */
  lemma ChangePasswordThenLogin(before: seq<UserDoc>, after: seq<UserDoc>, u: UserDoc, stored: string,
                                newPassword: string, matches: (string, string) -> bool)
    requires UsersWellFormed(before) && u in before && u.email != "" && newPassword != ""
    requires |after| == |before|
    requires forall i :: 0 <= i < |after| ==>
               after[i] == if before[i].id == u.id then u.(password := stored) else before[i]
    ensures Login(after, Some(u.email), Some(newPassword), matches)
            == if matches(newPassword, stored)
               then Json(200, TokenJson(Token(Claims(u.id, u.role, u.email), TOKEN_LIFETIME)))
               else Json(400, Error(BAD_CREDENTIALS))
  {
    var v := u.(password := stored);
    var k :| 0 <= k < |before| && before[k] == u;
    forall i | 0 <= i < |after| ensures after[i].id == before[i].id && after[i].email == before[i].email {
      if before[i].id == u.id {
        assert i == k;
      }
    }
    assert UsersWellFormed(after) by {
      forall i, j | 0 <= i < j < |after| ensures after[i].id != after[j].id && after[i].email != after[j].email {
        assert before[i].id != before[j].id && before[i].email != before[j].email;
      }
    }
    assert after[k] == v;
    FindUserByEmailUnique(after, v);
  }
}
