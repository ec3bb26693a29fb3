/**
 * `src/components/AdminPanel.jsx`: the admin's client for the `/api/admin`
 * routes, together with its product form (`ProductFormModal`).
 *
 * Each `fetch` is a request appended to `requests`; its answer is a parameter
 * of the handler that awaits it. `window.confirm` is a boolean parameter, and
 * every `alert` is appended to `alerts`. A list fetch is split in two steps,
 * `StartFetch` (everything before the `await`) and `FetchSettled` (everything
 * after), because the panel's other actions can happen in between.
 */
module AdminPanel {
  import opened Common
  import opened Model

  /** The user from the session context: the token's id and role, and the token itself. */
  datatype Session = Session(id: string, role: string, token: string)

  datatype View = ProductsView | OrdersView | UsersView

  /** The path below `/api/admin` that lists the entities of a view. */
  function Endpoint(v: View): (e: string)
    ensures v.ProductsView? ==> e == "products"
    ensures v.OrdersView? ==> e == "orders"
    ensures v.UsersView? ==> e == "users"
  {
    match v
    case ProductsView => "products"
    case OrdersView => "orders"
    case UsersView => "users"
  }

  datatype RequestBody = NoBody | StatusBody(status: string) | RoleBody(role: string) | ProductBody(fields: ProductFields)

  /** One `fetch` to `/api/admin/<path>` with the bearer token. */
  datatype ApiRequest = ApiRequest(verb: string, path: string, token: string, body: RequestBody)

  /** The list a list request answers with. */
  datatype Rows = ProductRows(products: seq<ProductDoc>) | OrderRows(orders: seq<Order>) | UserRows(users: seq<UserView>)

  predicate RowsFor(v: View, rows: Rows) {
    match v
    case ProductsView => rows.ProductRows?
    case OrdersView => rows.OrderRows?
    case UsersView => rows.UserRows?
  }

  /** How a request settles: a 2xx answer, a non-2xx answer with its optional
      `error` field, or a thrown error (network failure, unparsable body). */
  datatype Settled<T> = Done(data: T) | Rejected(error: Option<string>) | Thrown(message: string)

  const SELF_ROLE_CHANGE: string := "Nem módosíthatod saját szerepkörödet."
  const SELF_DELETE: string := "Nem törölheted saját magadat!"
  const PRODUCT_DELETE_FAILURE: string := "Törlési hiba."
  const STATUS_UPDATE_FAILURE: string := "Státusz frissítési hiba."
  const ROLE_UPDATE_FAILURE: string := "Szerepkör frissítési hiba."
  const USER_DELETE_FAILURE: string := "Felhasználó törlési hiba."
  const EDIT_FAILURE: string := "Hiba a termék szerkesztésekor."
  const CREATE_FAILURE: string := "Hiba a termék létrehozásakor."

  /** The form a new product starts from. */
  const BLANK_PRODUCT: ProductFields := ProductFields(Some(""), Some(0), Some(0), Some(""), Some(""))

  /** The statuses the order table offers, in display order. */
  const STATUS_OPTIONS: seq<string> := [AWAITING_PAYMENT, PROCESSING, PAID, FULFILLED, CANCELLED]

  /** The roles the user table offers. */
  const ROLE_OPTIONS: seq<string> := [DEFAULT_ROLE, ADMIN]

  /** The selector offers five distinct statuses the backend knows: every
      status the code writes except the failed payment, which an admin can
      therefore never pick. */
  lemma StatusOptionsAreKnown()
    ensures |STATUS_OPTIONS| == 5
    ensures forall i, j :: 0 <= i < j < 5 ==> STATUS_OPTIONS[i] != STATUS_OPTIONS[j]
    ensures forall t :: t in STATUS_OPTIONS <==> IsKnownStatusText(t) && t != PAYMENT_FAILED
    ensures forall t :: t in STATUS_OPTIONS ==> !ParseStatus(t).Other? && ParseStatus(t) != PaymentFailed
  {
    forall t | t in STATUS_OPTIONS
      ensures !ParseStatus(t).Other? && ParseStatus(t) != PaymentFailed
    {
      assert StatusText(ParseStatus(t)) == t;
    }
  }

  /** The role selector offers exactly the default role and the admin role. */
  lemma RoleOptionsAreRoles()
    ensures forall r :: r in ROLE_OPTIONS <==> r == DEFAULT_ROLE || r == ADMIN
    ensures ROLE_OPTIONS[0] != ROLE_OPTIONS[1]
  {
  }

  /** The product form's save: an edit goes to the product's own path with PUT,
      a new product to the collection with POST; both send the whole form. */
  function ProductRequest(product: Option<ProductDoc>, form: ProductFields, token: string): (r: ApiRequest)
    ensures product.Some? ==> r.verb == "PUT" && r.path == "products/" + product.value.id
    ensures product.None? ==> r.verb == "POST" && r.path == "products"
    ensures r.token == token && r.body == ProductBody(form)
  {
    match product
    case Some(p) => ApiRequest("PUT", "products/" + p.id, token, ProductBody(form))
    case None => ApiRequest("POST", "products", token, ProductBody(form))
  }

  /** The path the user routes give to one user record. */
  function UserPath(id: string): string {
    "users/" + id
  }

  lemma {:induction false} UserPathInjective(a: string, b: string)
    requires UserPath(a) == UserPath(b)
    ensures a == b
  {
    assert a == UserPath(a)[6..];
    assert b == UserPath(b)[6..];
  }

  class Panel {
    const user: Session
    var view: View
    var products: seq<ProductDoc>
    var orders: seq<Order>
    var users: seq<UserView>
    var loading: bool
    var error: Option<string>
    var modalOpen: bool
    var currentProduct: Option<ProductDoc>
    var form: ProductFields
    var formLoading: bool
    var formError: Option<string>
    var requests: seq<ApiRequest>
    var alerts: seq<string>

    predicate IsAdmin()
      reads this
    {
      user.role == ADMIN
    }

    /** Every request the panel has sent carries the session's token, goes out
        only for an admin, and none of them touches the admin's own user record. */
    ghost predicate Valid()
      reads this
    {
      (!IsAdmin() ==> requests == []) &&
      forall i :: 0 <= i < |requests| ==>
        requests[i].token == user.token && requests[i].path != UserPath(user.id)
    }

    /** The list request of the current view, which every successful change sends. */
    function Refetch(): ApiRequest
      reads this
    {
      ApiRequest("GET", Endpoint(view), user.token, NoBody)
    }

    /** `fetchData` up to its `await`: nothing at all for a non-admin; otherwise
        the loading flag is raised, the error cleared and the current view's
        list requested. */
    method StartFetch()
      requires Valid()
      modifies this`loading, this`error, this`requests
      ensures Valid()
      ensures !IsAdmin() ==> loading == old(loading) && error == old(error) && requests == old(requests)
      ensures IsAdmin() ==>
                loading && error.None? &&
                requests == old(requests) + [Refetch()]
    {
      if !IsAdmin() {
        return;
      }
      assert Endpoint(view) != UserPath(user.id) by {
        assert |UserPath(user.id)| >= 6 && UserPath(user.id)[0] == 'u';
        assert view.UsersView? || Endpoint(view)[0] != 'u';
      }
      loading := true;
      error := None;
      requests := requests + [Refetch()];
    }

    /** The panel mounts on the products view, and its effect fetches once. */
    constructor (session: Session)
      ensures Valid()
      ensures user == session && view == ProductsView
      ensures products == [] && orders == [] && users == [] && alerts == []
      ensures !modalOpen && currentProduct.None? && formError.None?
      ensures IsAdmin() ==> loading && error.None? && requests == [ApiRequest("GET", "products", session.token, NoBody)]
      ensures !IsAdmin() ==> !loading && error.None? && requests == []
    {
      user := session;
      view := ProductsView;
      products := [];
      orders := [];
      users := [];
      loading := false;
      error := None;
      modalOpen := false;
      currentProduct := None;
      form := BLANK_PRODUCT;
      formLoading := false;
      formError := None;
      requests := [];
      alerts := [];
      new;
      StartFetch();
    }

    /** `fetchData` after its `await`, for the fetch that was started on view
        `v`: only the list of that view is replaced; a refusal shows the
        answer's error, or `<endpoint> lekérési hiba.`. */
    method FetchSettled(v: View, answer: Settled<Rows>)
      requires Valid()
      requires answer.Done? ==> RowsFor(v, answer.data)
      modifies this`products, this`orders, this`users, this`loading, this`error
      ensures Valid() && !loading
      ensures answer.Done? && v.ProductsView? ==>
                products == answer.data.products && orders == old(orders) && users == old(users) && error == old(error)
      ensures answer.Done? && v.OrdersView? ==>
                orders == answer.data.orders && products == old(products) && users == old(users) && error == old(error)
      ensures answer.Done? && v.UsersView? ==>
                users == answer.data.users && products == old(products) && orders == old(orders) && error == old(error)
      ensures !answer.Done? ==> products == old(products) && orders == old(orders) && users == old(users)
      ensures answer.Rejected? ==> error == Some(OrElse(answer.error, Endpoint(v) + " lekérési hiba."))
      ensures answer.Thrown? ==> error == Some(answer.message)
    {
      match answer {
        case Done(rows) =>
          match rows {
            case ProductRows(p) => products := p;
            case OrderRows(o) => orders := o;
            case UserRows(u) => users := u;
          }
        case Rejected(e) =>
          error := Some(OrElse(e, Endpoint(v) + " lekérési hiba."));
        case Thrown(m) =>
          error := Some(m);
      }
      loading := false;
    }

    /** A tab button: switching to another view refetches, the same view does not. */
    method SelectView(v: View)
      requires Valid()
      modifies this`view, this`loading, this`error, this`requests
      ensures Valid() && view == v
      ensures v == old(view) ==> requests == old(requests) && loading == old(loading) && error == old(error)
      ensures v != old(view) && IsAdmin() ==>
                requests == old(requests) + [ApiRequest("GET", Endpoint(v), user.token, NoBody)] && loading && error.None?
      ensures v != old(view) && !IsAdmin() ==> requests == old(requests)
    {
      if v != view {
        view := v;
        StartFetch();
      }
    }

    /** What every mutation does once its request has settled: a success
        refetches the current view, a refusal alerts the answer's error or the
        handler's own text, and a thrown error is only logged. */
    method AfterMutation(answer: Settled<()>, failure: string)
      requires Valid() && IsAdmin()
      modifies this`loading, this`error, this`requests, this`alerts
      ensures Valid()
      ensures answer.Done? ==>
                requests == old(requests) + [Refetch()] && loading && error.None? && alerts == old(alerts)
      ensures answer.Rejected? ==>
                alerts == old(alerts) + [OrElse(answer.error, failure)] &&
                requests == old(requests) && loading == old(loading) && error == old(error)
      ensures answer.Thrown? ==>
                alerts == old(alerts) && requests == old(requests) && loading == old(loading) && error == old(error)
    {
      match answer {
        case Done(_) => StartFetch();
        case Rejected(e) => alerts := alerts + [OrElse(e, failure)];
        case Thrown(_) =>
      }
    }

    /** `deleteProduct`: nothing is sent unless the admin confirms. */
    method DeleteProduct(id: string, confirmed: bool, answer: Settled<()>)
      requires Valid() && IsAdmin()
      modifies this`loading, this`error, this`requests, this`alerts
      ensures Valid()
      ensures !confirmed ==> requests == old(requests) && alerts == old(alerts)
      ensures confirmed ==>
                requests == old(requests) + [ApiRequest("DELETE", "products/" + id, user.token, NoBody)] +
                            (if answer.Done? then [Refetch()] else [])
      ensures confirmed && answer.Rejected? ==> alerts == old(alerts) + [OrElse(answer.error, PRODUCT_DELETE_FAILURE)]
      ensures confirmed && !answer.Rejected? ==> alerts == old(alerts)
    {
      if !confirmed {
        return;
      }
      assert "products/" + id != UserPath(user.id) by {
        assert ("products/" + id)[0] == 'p' && UserPath(user.id)[0] == 'u';
      }
      requests := requests + [ApiRequest("DELETE", "products/" + id, user.token, NoBody)];
      AfterMutation(answer, PRODUCT_DELETE_FAILURE);
    }

    /** `updateOrderStatus`: the chosen text is sent as it is. */
    method UpdateOrderStatus(orderId: string, newStatus: string, answer: Settled<()>)
      requires Valid() && IsAdmin()
      modifies this`loading, this`error, this`requests, this`alerts
      ensures Valid()
      ensures requests == old(requests) + [ApiRequest("PUT", "orders/" + orderId + "/status", user.token, StatusBody(newStatus))] +
                          (if answer.Done? then [Refetch()] else [])
      ensures answer.Rejected? ==> alerts == old(alerts) + [OrElse(answer.error, STATUS_UPDATE_FAILURE)]
      ensures !answer.Rejected? ==> alerts == old(alerts)
    {
      assert "orders/" + orderId + "/status" != UserPath(user.id) by {
        assert ("orders/" + orderId + "/status")[0] == 'o' && UserPath(user.id)[0] == 'u';
      }
      requests := requests + [ApiRequest("PUT", "orders/" + orderId + "/status", user.token, StatusBody(newStatus))];
      AfterMutation(answer, STATUS_UPDATE_FAILURE);
    }

    /** `updateUserRole`: the admin's own record is refused on the client,
        with an alert and no request. */
    method UpdateUserRole(userId: string, newRole: string, answer: Settled<()>)
      requires Valid() && IsAdmin()
      modifies this`loading, this`error, this`requests, this`alerts
      ensures Valid()
      ensures userId == user.id ==> requests == old(requests) && alerts == old(alerts) + [SELF_ROLE_CHANGE]
      ensures userId != user.id ==>
                requests == old(requests) + [ApiRequest("PUT", UserPath(userId), user.token, RoleBody(newRole))] +
                            (if answer.Done? then [Refetch()] else [])
      ensures userId != user.id && answer.Rejected? ==> alerts == old(alerts) + [OrElse(answer.error, ROLE_UPDATE_FAILURE)]
      ensures userId != user.id && !answer.Rejected? ==> alerts == old(alerts)
    {
      if userId == user.id {
        alerts := alerts + [SELF_ROLE_CHANGE];
        return;
      }
      if UserPath(userId) == UserPath(user.id) {
        UserPathInjective(userId, user.id);
      }
      requests := requests + [ApiRequest("PUT", UserPath(userId), user.token, RoleBody(newRole))];
      AfterMutation(answer, ROLE_UPDATE_FAILURE);
    }

    /** `deleteUser`: the own record is refused before any confirmation;
        otherwise nothing is sent unless the admin confirms. */
    method DeleteUser(userId: string, confirmed: bool, answer: Settled<()>)
      requires Valid() && IsAdmin()
      modifies this`loading, this`error, this`requests, this`alerts
      ensures Valid()
      ensures userId == user.id ==> requests == old(requests) && alerts == old(alerts) + [SELF_DELETE]
      ensures userId != user.id && !confirmed ==> requests == old(requests) && alerts == old(alerts)
      ensures userId != user.id && confirmed ==>
                requests == old(requests) + [ApiRequest("DELETE", UserPath(userId), user.token, NoBody)] +
                            (if answer.Done? then [Refetch()] else [])
      ensures userId != user.id && confirmed && answer.Rejected? ==>
                alerts == old(alerts) + [OrElse(answer.error, USER_DELETE_FAILURE)]
      ensures userId != user.id && confirmed && !answer.Rejected? ==> alerts == old(alerts)
    {
      if userId == user.id {
        alerts := alerts + [SELF_DELETE];
        return;
      }
      if !confirmed {
        return;
      }
      if UserPath(userId) == UserPath(user.id) {
        UserPathInjective(userId, user.id);
      }
      requests := requests + [ApiRequest("DELETE", UserPath(userId), user.token, NoBody)];
      AfterMutation(answer, USER_DELETE_FAILURE);
    }

    /** "+ Új Termék Létrehozása": a fresh form for a new product. */
    method OpenCreateModal()
      modifies this`modalOpen, this`currentProduct, this`form, this`formLoading, this`formError
      ensures modalOpen && currentProduct.None? && form == BLANK_PRODUCT && !formLoading && formError.None?
    {
      currentProduct := None;
      modalOpen := true;
      form := BLANK_PRODUCT;
      formLoading := false;
      formError := None;
    }

    /** "Szerkesztés": the form starts from the product's stored fields. */
    method OpenEditModal(p: ProductDoc)
      modifies this`modalOpen, this`currentProduct, this`form, this`formLoading, this`formError
      ensures modalOpen && currentProduct == Some(p) && form == p.fields && !formLoading && formError.None?
    {
      currentProduct := Some(p);
      modalOpen := true;
      form := p.fields;
      formLoading := false;
      formError := None;
    }

    /** A change to one of the form's inputs. */
    method EditForm(f: ProductFields)
      modifies this`form
      ensures form == f
    {
      form := f;
    }

    /** "Mégse". */
    method CloseModal()
      modifies this`modalOpen
      ensures !modalOpen
    {
      modalOpen := false;
    }

    /** The form's `handleSubmit`: a success closes the form and refetches; a
        failure keeps it open with the answer's error, or with a text that
        depends on whether a product was being edited or created. */
    method SubmitProduct(answer: Settled<()>)
      requires Valid() && IsAdmin() && modalOpen
      modifies this`modalOpen, this`formLoading, this`formError, this`loading, this`error, this`requests
      ensures Valid() && !formLoading
      ensures requests == old(requests) + [ProductRequest(currentProduct, form, user.token)] +
                          (if answer.Done? then [Refetch()] else [])
      ensures answer.Done? ==> !modalOpen && loading && error.None?
      ensures !answer.Done? ==> loading == old(loading) && error == old(error)
      ensures answer.Rejected? ==>
                modalOpen && formError == Some(OrElse(answer.error, if currentProduct.Some? then EDIT_FAILURE else CREATE_FAILURE))
      ensures answer.Thrown? ==> modalOpen && formError == Some(answer.message)
    {
      formLoading := true;
      formError := None;
      var request := ProductRequest(currentProduct, form, user.token);
      assert request.path != UserPath(user.id) by {
        assert request.path[0] == 'p' && UserPath(user.id)[0] == 'u';
      }
      requests := requests + [request];
      match answer {
        case Done(_) =>
          modalOpen := false;
          StartFetch();
        case Rejected(e) =>
          formError := Some(OrElse(e, if currentProduct.Some? then EDIT_FAILURE else CREATE_FAILURE));
        case Thrown(m) =>
          formError := Some(m);
      }
      formLoading := false;
    }
  }
}
