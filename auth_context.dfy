/**
  The session store of the portal (`AuthProvider` in src/contexts/AuthContext.tsx):
  the signed-in `user` and the `isLoading` flag, held in memory, and the
  browser's key-value store, where the store keeps the bearer `token`, the
  serialised user under `user-data` and the `email` given at registration.

  Every operation is a value-level transition (a function over `Session`) and a
  method of `AuthStore` that performs the source's steps in order and is proved
  to end in the state the function gives.
 */
module Auth {
  import opened Maybe
  import opened JsValues

  /** A value held by the browser's key-value store: the text written by
      `setItem`, or the text `JSON.stringify(v)` produced, kept as the value it
      was produced from (`JSON.stringify(undefined)` is stored as "undefined"). */
  datatype Stored = Text(s: string) | JsonText(v: Option<Json>)

  type Store = map<string, Stored>

  const TokenKey: string := "token"
  const UserDataKey: string := "user-data"
  const EmailKey: string := "email"

  /** `!localStorage.getItem(key)` is false: the key is present with non-empty text. */
  predicate Holds(store: Store, key: string) {
    key in store && (store[key].Text? ==> store[key].s != "")
  }

  datatype Session = Session(user: Option<Json>, isLoading: bool, store: Store)

  /** A notification shown to the person using the portal. */
  datatype Toast = NoToast | ToastSuccess(shown: Option<Json>) | ToastError(text: string)

  /** `setUser(v)`: both null and undefined mean nobody is signed in. */
  function AsUser(v: Option<Json>): Option<Json> {
    if v == Some(JNull) then None else v
  }

  /** The text of a caught error, `error.message || fallback`. */
  function Caught(message: string, fallback: string): string {
    if message == "" then fallback else message
  }

  /** The message of `new Error(v)`. */
  function ErrorMessage(v: Json): string {
    JsonToString(v)
  }

  /** The session a freshly mounted provider starts from. */
  function Initial(store: Store): Session {
    Session(None, true, store)
  }

  // ---------------------------------------------------------------------------
  // Restoring the session on mount (fetchUserData).
  // ---------------------------------------------------------------------------

  /** `reply` is what GET /users/token answers; it is only asked for when a token is stored. */
  function Restored(s: Session, reply: Reply): (r: Session)
    ensures !r.isLoading
    ensures r.user == s.user || (reply.Responded? && reply.ok && r.user == AsUser(Some(reply.body)))
    ensures r.store == s.store || r.store == s.store - {TokenKey}
    ensures TokenKey in s.store && TokenKey !in r.store ==> Holds(s.store, TokenKey) && (reply.Thrown? || !reply.ok)
  {
    if !Holds(s.store, TokenKey) then s.(isLoading := false)
    else
      match reply
      case Thrown(_) => s.(store := s.store - {TokenKey}, isLoading := false)
      case Responded(ok, body) =>
        if ok then s.(user := AsUser(Some(body)), isLoading := false)
        else s.(store := s.store - {TokenKey}, isLoading := false)
  }

  lemma RestoreWithoutToken(s: Session, reply: Reply)
    requires !Holds(s.store, TokenKey)
    ensures Restored(s, reply) == s.(isLoading := false)
  {
  }

  lemma RestoreAccepted(s: Session, body: Json)
    requires Holds(s.store, TokenKey)
    ensures var r := Restored(s, Responded(true, body));
      r.user == AsUser(Some(body)) && r.store == s.store && !r.isLoading
  {
  }

  /** A rejected token, a failed request or an unparsable body all remove the
      token and leave the user as it was. */
  lemma RestoreRejected(s: Session, reply: Reply)
    requires Holds(s.store, TokenKey)
    requires reply.Thrown? || !reply.ok
    ensures var r := Restored(s, reply);
      r.user == s.user && r.store == s.store - {TokenKey} && TokenKey !in r.store && !r.isLoading
  {
  }

  // ---------------------------------------------------------------------------
  // Login.
  // ---------------------------------------------------------------------------

  /** The session and notification after POST /authorization/login answers `reply`. */
  function LoginResult(s: Session, reply: Reply): (r: (Session, Toast))
    ensures !r.0.isLoading
    ensures r.1.ToastError? || r.1.ToastSuccess?
    ensures r.1.ToastSuccess? ==> reply.Responded? && reply.ok
    ensures r.1.ToastError? ==> r.0 == s.(isLoading := false)
    ensures forall k :: k in s.store && k != TokenKey && k != UserDataKey ==> k in r.0.store && r.0.store[k] == s.store[k]
  {
    var failed := (msg: string) => (s.(isLoading := false), ToastError(Caught(msg, "An error occurred")));
    match reply
    case Thrown(m) => failed(m)
    case Responded(ok, body) =>
      if !ok then
        match ReadProp(Some(body), "message")
        case TypeError(m) => failed(m)
        case Value(msg) => failed(ErrorMessage(Or(msg, JStr("Login failed"))))
      else
        match ReadProp(Some(body), "data")
        case TypeError(m) => failed(m)
        case Value(d) =>
          match ReadProp(d, "user")
          case TypeError(m) => failed(m)
          case Value(u) =>
            (Session(AsUser(u), false,
                     s.store[TokenKey := Text(ToJsString(Get(body, "token")))][UserDataKey := JsonText(u)]),
             ToastSuccess(Get(body, "message")))
  }

  /** The user object of an accepted login body, `data.data.user`. */
  function LoginUser(body: Json): Option<Json> {
    Prop(Get(body, "data"), "user")
  }

  /** A body from which `data.data.user` can be read. */
  predicate LoginReadable(body: Json) {
    body.JObj? && !IsNullish(Get(body, "data"))
  }

  lemma LoginAccepted(s: Session, body: Json)
    requires LoginReadable(body)
    ensures var (r, t) := LoginResult(s, Responded(true, body));
      && r.user == AsUser(LoginUser(body))
      && r.store == s.store[TokenKey := Text(ToJsString(Get(body, "token")))][UserDataKey := JsonText(LoginUser(body))]
      && !r.isLoading
      && t == ToastSuccess(Get(body, "message"))
  {
  }

  /** A login the server refuses changes nothing but `isLoading`, and reports
      the body's message, or "Login failed" when it has none. */
  lemma LoginRefused(s: Session, body: Json)
    requires body != JNull
    ensures var (r, t) := LoginResult(s, Responded(false, body));
      && r == s.(isLoading := false)
      && (Truthy(Get(body, "message")) ==>
            t == ToastError(Caught(ErrorMessage(Get(body, "message").value), "An error occurred")))
      && (Truthy(Get(body, "message")) && Get(body, "message").value.JStr? ==>
            t == ToastError(Get(body, "message").value.s))
      && (!Truthy(Get(body, "message")) ==> t == ToastError("Login failed"))
  {
  }

  // ---------------------------------------------------------------------------
  // Registration.
  // ---------------------------------------------------------------------------

  const RegisteredText: string := "Registration successful! Please check your email to verify your account."

  /** The session, the value `register` returns or rethrows, and the
      notification after POST /authorization/register answers `reply`. */
  function RegisterResult(s: Session, email: string, reply: Reply): (r: (Session, Result<Json, string>, Toast))
    ensures !r.0.isLoading
    ensures r.1.Ok? <==> r.2.ToastSuccess?
    ensures r.1.Ok? ==> reply.Responded? && reply.ok && r.1.value == reply.body && r.0.user == AsUser(Some(reply.body))
    ensures r.1.Err? ==> r.0.user == s.user && r.2 == ToastError(Caught(r.1.error, "Registration failed"))
  {
    match reply
    case Thrown(m) =>
      (s.(isLoading := false), Err(m), ToastError(Caught(m, "Registration failed")))
    case Responded(ok, body) =>
      var stored := s.store[EmailKey := Text(email)];
      var failed := (msg: string) =>
        (s.(store := stored, isLoading := false), Err(msg), ToastError(Caught(msg, "Registration failed")));
      match ReadProp(Some(body), "message")
      case TypeError(m) => failed(m)
      case Value(msg) =>
        if !ok then failed(ErrorMessage(Or(msg, JStr("Registration failed"))))
        else
          (Session(AsUser(Some(body)), false, stored), Ok(body), ToastSuccess(Some(Or(msg, JStr(RegisteredText)))))
  }

  /** The email is written as soon as a body has been parsed, before the status
      is looked at: a refused registration stores it too. */
  lemma RegisterStoresEmail(s: Session, email: string, ok: bool, body: Json)
    ensures var r := RegisterResult(s, email, Responded(ok, body)).0;
      EmailKey in r.store && r.store[EmailKey] == Text(email)
  {
  }

  /** Registration never writes the token, whatever the reply. */
  lemma RegisterNeverWritesToken(s: Session, email: string, reply: Reply)
    ensures var r := RegisterResult(s, email, reply).0;
      (TokenKey in r.store <==> TokenKey in s.store)
      && (TokenKey in s.store ==> r.store[TokenKey] == s.store[TokenKey])
      && !r.isLoading
  {
  }

  /** An accepted registration signs in the whole body and returns it. */
  lemma RegisterAccepted(s: Session, email: string, body: Json)
    requires body != JNull
    ensures var (r, res, _) := RegisterResult(s, email, Responded(true, body));
      r.user == Some(body) && res == Ok(body)
  {
  }

  /** A refused registration rethrows the body's message, or "Registration
      failed" when it has none, and leaves the user as it was. */
  lemma RegisterRefused(s: Session, email: string, body: Json)
    requires body != JNull
    ensures var (r, res, _) := RegisterResult(s, email, Responded(false, body));
      && r.user == s.user
      && (Truthy(Get(body, "message")) ==> res == Err(ErrorMessage(Get(body, "message").value)))
      && (Truthy(Get(body, "message")) && Get(body, "message").value.JStr? ==>
            res == Err(Get(body, "message").value.s))
      && (!Truthy(Get(body, "message")) ==> res == Err("Registration failed"))
  {
  }

  // ---------------------------------------------------------------------------
  // Social logins, daily bonus, logout.
  // ---------------------------------------------------------------------------

  const GoogleEntry: string := "https://mlm-backend.pixl.uz/authorization/google"

  /** The fixed user the Facebook button signs in. */
  function FacebookUser(): Json {
    JObj(map["id" := JStr("3"), "name" := JStr("Facebook User"), "email" := JStr("user@facebook.com")])
  }

  function FacebookResult(s: Session): (r: Session)
    ensures !r.isLoading && r.user.Some?
    ensures UserDataKey in r.store && r.store[UserDataKey] == JsonText(r.user)
  {
    Session(Some(FacebookUser()), false, s.store[UserDataKey := JsonText(Some(FacebookUser()))])
  }

  /** The Facebook login signs in user "3" and writes user-data but no token. */
  lemma FacebookSignsInMockUser(s: Session)
    ensures var r := FacebookResult(s);
      && r.user.Some? && Get(r.user.value, "id") == Some(JStr("3"))
      && r.store - {UserDataKey} == s.store - {UserDataKey}
      && (TokenKey in r.store <==> TokenKey in s.store)
  {
  }

  function LoggedOut(s: Session): (r: Session)
    ensures r.user.None?
    ensures r.store.Keys == s.store.Keys - {TokenKey, UserDataKey}
  {
    s.(user := None, store := s.store - {UserDataKey, TokenKey})
  }

  /** After logout nobody is signed in and neither token nor user-data is stored. */
  lemma LogoutPurges(s: Session)
    ensures var r := LoggedOut(s);
      r.user == None && TokenKey !in r.store && UserDataKey !in r.store && r.isLoading == s.isLoading
      && forall k :: k in s.store && k != TokenKey && k != UserDataKey ==> k in r.store && r.store[k] == s.store[k]
  {
  }

  lemma LogoutIdempotent(s: Session)
    ensures LoggedOut(LoggedOut(s)) == LoggedOut(s)
  {
  }

  /** After logout, restoring finds no token: it makes no request and nobody is signed in. */
  lemma RestoreAfterLogout(s: Session, reply: Reply)
    ensures Restored(LoggedOut(s), reply).user == None
    ensures !Holds(LoggedOut(s).store, TokenKey)
  {
  }

  /** The session store itself: the provider's state and the browser store it writes. */
  class AuthStore {
    var user: Option<Json>
    var isLoading: bool
    var store: Store

    function State(): Session
      reads this
    {
      Session(user, isLoading, store)
    }

    constructor (browserStore: Store)
      ensures State() == Initial(browserStore)
    {
      user := None;
      isLoading := true;
      store := browserStore;
    }

    /** The effect that runs once on mount; `requested` tells whether it asked the server. */
    method RestoreSession(reply: Reply) returns (requested: bool)
      modifies this
      ensures State() == Restored(old(State()), reply)
      ensures requested == Holds(old(store), TokenKey)
    {
      requested := Holds(store, TokenKey);
      if !requested {
        isLoading := false;
        return;
      }
      match reply {
        case Thrown(_) =>
          store := store - {TokenKey};
        case Responded(ok, body) =>
          if ok {
            user := AsUser(Some(body));
          } else {
            store := store - {TokenKey};
          }
      }
      isLoading := false;
    }

    method Login(reply: Reply) returns (toast: Toast)
      modifies this
      ensures (State(), toast) == LoginResult(old(State()), reply)
    {
      isLoading := true;
      var error: Option<string> := None;
      match reply {
        case Thrown(m) =>
          error := Some(m);
        case Responded(ok, body) =>
          if !ok {
            match ReadProp(Some(body), "message") {
              case TypeError(m) => error := Some(m);
              case Value(msg) => error := Some(ErrorMessage(Or(msg, JStr("Login failed"))));
            }
          } else {
            match ReadProp(Some(body), "data") {
              case TypeError(m) => error := Some(m);
              case Value(d) =>
                match ReadProp(d, "user") {
                  case TypeError(m) => error := Some(m);
                  case Value(u) =>
                    user := AsUser(u);
                    store := store[TokenKey := Text(ToJsString(Get(body, "token")))];
                    store := store[UserDataKey := JsonText(u)];
                    toast := ToastSuccess(Get(body, "message"));
                }
            }
          }
      }
      if error.Some? {
        toast := ToastError(Caught(error.value, "An error occurred"));
      }
      isLoading := false;
    }

    /** `result` is what `register` returns, or the message of the error it rethrows. */
    method Register(email: string, reply: Reply) returns (result: Result<Json, string>, toast: Toast)
      modifies this
      ensures (State(), result, toast) == RegisterResult(old(State()), email, reply)
    {
      isLoading := true;
      match reply {
        case Thrown(m) =>
          result := Err(m);
        case Responded(ok, body) =>
          store := store[EmailKey := Text(email)];
          match ReadProp(Some(body), "message") {
            case TypeError(m) =>
              result := Err(m);
            case Value(msg) =>
              if !ok {
                result := Err(ErrorMessage(Or(msg, JStr("Registration failed"))));
              } else {
                toast := ToastSuccess(Some(Or(msg, JStr(RegisteredText))));
                user := AsUser(Some(body));
                result := Ok(body);
              }
          }
      }
      if result.Err? {
        toast := ToastError(Caught(result.error, "Registration failed"));
      }
      isLoading := false;
    }

    /** Google sign-in only sends the browser to the provider's entry page. */
    method LoginWithGoogle() returns (location: string)
      ensures location == GoogleEntry
    {
      location := GoogleEntry;
    }

    method LoginWithFacebook()
      modifies this
      ensures State() == FacebookResult(old(State()))
    {
      isLoading := true;
      user := Some(FacebookUser());
      store := store[UserDataKey := JsonText(Some(FacebookUser()))];
      isLoading := false;
    }

    /** The daily bonus has no logic yet: it changes nothing. */
    method ClaimDailyBonus()
      ensures State() == old(State())
    {
    }

    method Logout()
      modifies this
      ensures State() == LoggedOut(old(State()))
    {
      user := None;
      store := store - {UserDataKey};
      store := store - {TokenKey};
    }
  }
}
