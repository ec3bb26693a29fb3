/**
 * `backend/controllers/authController.js`: registration and login. The
 * password hash and its comparison, and the signing of the session token, are
 * outside the model: `saveHook` and `matches` are parameters, and a token is
 * represented by the claims and the validity window it is signed with.
 * `saveHook` is what the user schema's pre-save hook makes of the password
 * field when a document is saved; `backend/models/User.js`, which holds that
 * hook, is not part of this model.
 */
module AuthController {
  import opened Common
  import opened Model
  import opened Stores

  const CREDENTIALS_REQUIRED: string := "Az e-mail cím és a jelszó is kötelező."
  const SIGNUP_FAILURE: string := "Szerverhiba történt a regisztráció során."
  const ALREADY_REGISTERED: string := "Ez az e-mail cím már regisztrálva van."
  const SIGNED_UP: string := "Sikeres regisztráció!"
  const BAD_CREDENTIALS: string := "Hibás e-mail cím vagy jelszó!"
  const TOKEN_LIFETIME: string := "2h"

  /** `!email || !password`: a missing or empty field. */
  predicate Missing(field: Option<string>) {
    field.None? || field.value == ""
  }

  /** The document a registration saves: the password as the pre-save hook
      stores it, and the default role. */
  function NewAccount(id: string, email: string, password: string, saveHook: string -> string): (u: UserDoc)
    ensures u.id == id && u.email == email && u.password == saveHook(password) && u.role == DEFAULT_ROLE
  {
    UserDoc(id, email, saveHook(password), DEFAULT_ROLE)
  }

  /** `signup`. A document the user schema refuses (`validationError` holds its
      message) is a 500 with that detail; an email already stored violates the
      unique index and is a 400. No token is issued. */
  method Signup(store: UserStore, email: Option<string>, password: Option<string>, newId: string,
                saveHook: string -> string, validationError: Option<string>)
    returns (reply: Reply)
    requires store.Valid() && !store.HasId(newId)
    modifies store
    ensures store.Valid()
    ensures Missing(email) || Missing(password) ==>
              reply == Json(400, Error(CREDENTIALS_REQUIRED)) && store.docs == old(store.docs)
    ensures !Missing(email) && !Missing(password) && validationError.Some? ==>
              reply == Json(500, ErrorDetails(SIGNUP_FAILURE, validationError.value)) && store.docs == old(store.docs)
    ensures !Missing(email) && !Missing(password) && validationError.None? && FindUserByEmail(old(store.docs), email.value).Some? ==>
              reply == Json(400, Error(ALREADY_REGISTERED)) && store.docs == old(store.docs)
    ensures !Missing(email) && !Missing(password) && validationError.None? && FindUserByEmail(old(store.docs), email.value).None? ==>
              reply == Json(201, Message(SIGNED_UP)) &&
              store.docs == old(store.docs) + [NewAccount(newId, email.value, password.value, saveHook)]
  {
    if Missing(email) || Missing(password) {
      return Json(400, Error(CREDENTIALS_REQUIRED));
    }
    if validationError.Some? {
      return Json(500, ErrorDetails(SIGNUP_FAILURE, validationError.value));
    }
    if FindUserByEmail(store.docs, email.value).Some? {
      return Json(400, Error(ALREADY_REGISTERED));
    }
    store.Insert(NewAccount(newId, email.value, password.value, saveHook));
    reply := Json(201, Message(SIGNED_UP));
  }

  /** `login`. An unknown email and a wrong password get the very same answer;
      a match yields a token carrying exactly the id, role and email. */
  function Login(docs: seq<UserDoc>, email: Option<string>, password: Option<string>,
                 matches: (string, string) -> bool): (r: Reply)
    ensures Missing(email) || Missing(password) ==> r == Json(400, Error(CREDENTIALS_REQUIRED))
    ensures !Missing(email) && !Missing(password) ==>
              (r == Json(400, Error(BAD_CREDENTIALS)) <==>
                 (forall u :: u in docs ==> u.email != email.value) ||
                 (FindUserByEmail(docs, email.value).Some? &&
                  !matches(password.value, FindUserByEmail(docs, email.value).value.password)))
    ensures r.Json? && r.code == 200 ==>
              !Missing(email) && !Missing(password) &&
              exists u :: u in docs && u.email == email.value && matches(password.value, u.password) &&
                          r.body == TokenJson(Token(Claims(u.id, u.role, u.email), TOKEN_LIFETIME))
    ensures !Missing(email) && !Missing(password) && FindUserByEmail(docs, email.value).Some? &&
            matches(password.value, FindUserByEmail(docs, email.value).value.password) ==>
              var u := FindUserByEmail(docs, email.value).value;
              r == Json(200, TokenJson(Token(Claims(u.id, u.role, u.email), TOKEN_LIFETIME)))
    ensures r.Json? && (r.code == 200 || r.code == 400)
  {
    if Missing(email) || Missing(password) then Json(400, Error(CREDENTIALS_REQUIRED))
    else
      match FindUserByEmail(docs, email.value)
      case None => Json(400, Error(BAD_CREDENTIALS))
      case Some(u) =>
        if !matches(password.value, u.password) then Json(400, Error(BAD_CREDENTIALS))
        else Json(200, TokenJson(Token(Claims(u.id, u.role, u.email), TOKEN_LIFETIME)))
  }

  /** With emails unique, the lookup by email finds the one user holding it. */
  lemma {:induction false} FindUserByEmailUnique(docs: seq<UserDoc>, u: UserDoc)
    requires UsersWellFormed(docs) && u in docs
    ensures FindUserByEmail(docs, u.email) == Some(u)
  {
    if docs[0] != u {
      assert u in docs[1..];
      var k :| 0 <= k < |docs[1..]| && docs[1..][k] == u;
      assert docs[0].email != docs[k + 1].email;
      FindUserByEmailUnique(docs[1..], u);
    }
  }

  /** Registering and then logging in with the same password (whenever the
      comparison accepts what the hook stored for the password) yields a token
      for the new account with the default role. */
  lemma SignupThenLogin(docs: seq<UserDoc>, id: string, email: string, password: string,
                        saveHook: string -> string, matches: (string, string) -> bool)
    requires UsersWellFormed(docs) && FindUserByEmail(docs, email).None? && (forall v :: v in docs ==> v.id != id)
    requires email != "" && password != "" && matches(password, saveHook(password))
    ensures Login(docs + [NewAccount(id, email, password, saveHook)], Some(email), Some(password), matches)
            == Json(200, TokenJson(Token(Claims(id, DEFAULT_ROLE, email), TOKEN_LIFETIME)))
  {
    var u := NewAccount(id, email, password, saveHook);
    var d := docs + [u];
    assert UsersWellFormed(d) by {
      forall i, j | 0 <= i < j < |d| ensures d[i].id != d[j].id && d[i].email != d[j].email {
        if j == |docs| {
          assert d[i] in docs;
        }
      }
    }
    FindUserByEmailUnique(d, u);
  }
}
