/** The front end's session store (`authStore.ts`): who is signed in, the
    loading and error state of the sign-in form, the session kept in the
    browser's local storage across reloads, and the bearer header every
    request carries. Server answers and the browser's storage are inputs;
    `JSON.stringify` followed by `JSON.parse` gives back the session. */
module AuthStore {
  import opened Js

  /** `UserSession` (`types/auth.ts`). */
  datatype UserSession = UserSession(id: string, username: string, name: string, role: string, token: Opt<string>)

  /** What is kept under 'currentUser': a session the store wrote, or any
      other text. */
  datatype StoredUser = Json(session: UserSession) | OtherText(text: string)

  /** The two local-storage keys the store uses; None is a missing key. */
  datatype Storage = Storage(token: Option<string>, currentUser: Option<StoredUser>)

  /** The messages the store shows: the server's own, or one of its fixed
      Lao defaults (their wording is left out). */
  datatype Message = Said(text: string) | LoginFailed | RegisterFailed | Registered | PasswordChanged | PasswordChangeFailed

  /** What an axios call came back with: a response body, or an error that
      may carry the server's message. */
  datatype Reply<T> = Answered(success: bool, message: Opt<string>, data: T) | Failed(errorMessage: Opt<string>)

  datatype LoginData = LoginData(id: string, username: string, name: string, role: string, token: string)
  datatype UserData = UserData(id: string, username: string, name: string, role: string)

  /** `message || <default>` */
  function OrDefault(m: Opt<string>, default: Message): (r: Message)
    ensures Truthy(m) ==> r == Said(m.v) && r.text != ""
    ensures !Truthy(m) ==> r == default
  {
    if Truthy(m) then Said(m.v) else default
  }

  /** `getItem(key)` is truthy: present and not the empty string. */
  predicate TokenPresent(s: Storage) {
    s.token.Some? && s.token.value != ""
  }

  predicate UserPresent(s: Storage) {
    s.currentUser.Some? && (s.currentUser.value.Json? || s.currentUser.value.text != "")
  }

  /** What `JSON.parse` makes of a stored user: it throws, it gives `null`
      (or another value that has no session fields, such as a number), or
      it gives an object, taken as the session it spells out. */
  datatype Parsed = ParseThrows | ParsedNull | ParsedSession(session: UserSession)

  /** `JSON.parse` of the stored user: a session the store wrote comes
      back, the text "null" parses to `null`, and any other text parses as
      `parsedOther` says. */
  function Parse(stored: StoredUser, parsedOther: Parsed): (r: Parsed)
    ensures stored == OtherText("null") ==> r == ParsedNull
  {
    match stored
    case Json(s) => ParsedSession(s)
    case OtherText(text) => if text == "null" then ParsedNull else parsedOther
  }

  /** The user (None for a parsed `null`) and token `initializeAuth`
      restores, if any: both keys present and the stored user parses
      without throwing. */
  function Restored(s: Storage, parsedOther: Parsed): (r: Option<(Option<UserSession>, string)>)
    ensures r.Some? <==> TokenPresent(s) && UserPresent(s) && !Parse(s.currentUser.value, parsedOther).ParseThrows?
    ensures r.Some? ==> r.value.1 == s.token.value
    ensures r.Some? ==> (r.value.0.Some? <==> Parse(s.currentUser.value, parsedOther).ParsedSession?)
  {
    if TokenPresent(s) && UserPresent(s) then
      match Parse(s.currentUser.value, parsedOther)
      case ParseThrows => None
      case ParsedNull => Some((None, s.token.value))
      case ParsedSession(u) => Some((Some(u), s.token.value))
    else None
  }

  /** What is left in storage after `initializeAuth`: both keys are removed
      when a present stored user does not parse. */
  function AfterInit(s: Storage, parsedOther: Parsed): (r: Storage)
    ensures TokenPresent(s) && UserPresent(s) && Restored(s, parsedOther).None? ==> r == Storage(None, None)
    ensures !(TokenPresent(s) && UserPresent(s)) || Restored(s, parsedOther).Some? ==> r == s
  {
    if TokenPresent(s) && UserPresent(s) && Parse(s.currentUser.value, parsedOther).ParseThrows? then Storage(None, None) else s
  }

  /** The session `login` builds from the answer. */
  function SessionOf(d: LoginData): (u: UserSession)
    ensures u.token == Val(d.token)
  {
    UserSession(d.id, d.username, d.name, d.role, Val(d.token))
  }

  /** The storage after a successful sign-in. */
  function Saved(s: Storage, u: UserSession, token: string): Storage {
    Storage(Some(token), Some(Json(u)))
  }

  /** The storage after `logout`. */
  const Cleared: Storage := Storage(None, None)

  /** A sign-in survives a reload: the next `initializeAuth` restores the
      same session and token, whatever else is in storage, as long as the
      token is not empty; an empty token restores nothing. */
  lemma SignInSurvivesReload(s: Storage, d: LoginData, parsedOther: Parsed)
    ensures d.token != "" ==> Restored(Saved(s, SessionOf(d), d.token), parsedOther) == Some((Some(SessionOf(d)), d.token))
    ensures d.token == "" ==> Restored(Saved(s, SessionOf(d), d.token), parsedOther) == None
    ensures AfterInit(Saved(s, SessionOf(d), d.token), parsedOther) == Saved(s, SessionOf(d), d.token)
  {
  }

  /** After `logout` a reload restores nothing. */
  lemma SignOutSurvivesReload(parsedOther: Parsed)
    ensures Restored(Cleared, parsedOther) == None
    ensures AfterInit(Cleared, parsedOther) == Cleared
  {
  }

  /** A stored user that does not parse is dropped with the token, so the
      next reload does not try again. */
  lemma UnparsableDropped(s: Storage, parsedOther: Parsed)
    requires TokenPresent(s) && UserPresent(s) && Restored(s, parsedOther).None?
    ensures s.currentUser.value.OtherText? && s.currentUser.value.text != "null" && parsedOther == ParseThrows
    ensures Restored(AfterInit(s, parsedOther), parsedOther) == None
  {
  }

  /** A stored user "null" beside a token restores nobody, yet the store
      counts as signed in and keeps the token: the reload neither signs in
      a user nor clears storage. */
  lemma NullRestoresNobody(s: Storage, parsedOther: Parsed)
    requires TokenPresent(s) && s.currentUser == Some(OtherText("null"))
    ensures Restored(s, parsedOther) == Some((None, s.token.value))
    ensures AfterInit(s, parsedOther) == s
  {
  }

  class Store {
    var user: Option<UserSession>
    var isAuthenticated: bool
    var isAuthLoading: bool
    var authError: Option<Message>
    var storage: Storage
    /** `axios.defaults.headers.common['Authorization']` */
    var authHeader: Option<string>

    /** A user is only ever present when signed in, being signed in comes
        with a bearer header, and nothing is loading between actions. The
        converse of the first fails for a stored "null": `initializeAuth`
        then signs in with no user. */
    ghost predicate Valid()
      reads this
    {
      (user.Some? ==> isAuthenticated) && (isAuthenticated ==> authHeader.Some?) && !isAuthLoading
    }

    /** The store's initial state, over what the browser has stored. */
    constructor (stored: Storage)
      ensures Valid() && user == None && !isAuthenticated && authError == None
      ensures storage == stored && authHeader == None
    {
      user := None;
      isAuthenticated := false;
      isAuthLoading := false;
      authError := None;
      storage := stored;
      authHeader := None;
    }

    /** `initializeAuth`: with a token and a stored user that parses, the
        parsed value becomes the user (None for `null`), the store counts as
        signed in and the token is the bearer header; a stored user that
        does not parse removes both keys. */
    method InitializeAuth(parsedOther: Parsed)
      requires Valid()
      modifies this
      ensures Valid()
      ensures var r := Restored(old(storage), parsedOther);
        && (r.Some? ==> user == r.value.0 && isAuthenticated && authHeader == Some("Bearer " + r.value.1))
        && (r.None? ==> user == old(user) && isAuthenticated == old(isAuthenticated) && authHeader == old(authHeader))
      ensures storage == AfterInit(old(storage), parsedOther)
      ensures authError == old(authError)
    {
      var token := storage.token;
      if token.Some? && token.value != "" {
        var storedUser := storage.currentUser;
        if storedUser.Some? && (storedUser.value.Json? || storedUser.value.text != "") {
          var userData := Parse(storedUser.value, parsedOther);
          if userData.ParseThrows? {
            storage := storage.(currentUser := None);
            storage := storage.(token := None);
          } else {
            user := if userData.ParsedSession? then Some(userData.session) else None;
            isAuthenticated := true;
            authHeader := Some("Bearer " + token.value);
          }
        }
      }
    }

    /** `login`: a successful answer signs the user in, sets the bearer
        header and stores session and token; otherwise the server's message
        or the default is shown and the user is left as it was. */
    method Login(reply: Reply<LoginData>) returns (ok: bool)
      requires Valid()
      modifies this
      ensures Valid()
      ensures ok <==> reply.Answered? && reply.success
      ensures ok ==> && user == Some(SessionOf(reply.data)) && isAuthenticated
                     && authHeader == Some("Bearer " + reply.data.token)
                     && storage == Saved(old(storage), SessionOf(reply.data), reply.data.token)
                     && authError == None
      ensures !ok ==> && user == old(user) && isAuthenticated == old(isAuthenticated)
                      && authHeader == old(authHeader) && storage == old(storage)
                      && authError == Some(OrDefault(if reply.Answered? then reply.message else reply.errorMessage, LoginFailed))
    {
      isAuthLoading := true;
      authError := None;
      if reply.Failed? {
        authError := Some(OrDefault(reply.errorMessage, LoginFailed));
        isAuthLoading := false;
        return false;
      }
      if reply.success {
        var userSession := SessionOf(reply.data);
        user := Some(userSession);
        isAuthenticated := true;
        authHeader := Some("Bearer " + reply.data.token);
        storage := storage.(currentUser := Some(Json(userSession)));
        storage := storage.(token := Some(reply.data.token));
        isAuthLoading := false;
        return true;
      } else {
        authError := Some(OrDefault(reply.message, LoginFailed));
        isAuthLoading := false;
        return false;
      }
    }

    /** `register`: success with the server's message or the default; a
        failure shows and answers the server's message or the default.
        Nobody is signed in either way. */
    method Register(reply: Reply<()>) returns (success: bool, message: Message)
      requires Valid()
      modifies this
      ensures Valid()
      ensures success <==> reply.Answered? && reply.success
      ensures success ==> message == OrDefault(reply.message, Registered) && authError == None
      ensures !success ==> message == OrDefault(if reply.Answered? then reply.message else reply.errorMessage, RegisterFailed)
                           && authError == Some(message)
      ensures user == old(user) && isAuthenticated == old(isAuthenticated)
      ensures storage == old(storage) && authHeader == old(authHeader)
    {
      isAuthLoading := true;
      authError := None;
      if reply.Failed? {
        var errorMessage := OrDefault(reply.errorMessage, RegisterFailed);
        authError := Some(errorMessage);
        isAuthLoading := false;
        return false, errorMessage;
      }
      if reply.success {
        isAuthLoading := false;
        return true, OrDefault(reply.message, Registered);
      }
      authError := Some(OrDefault(reply.message, RegisterFailed));
      isAuthLoading := false;
      return false, authError.value;
    }

    /** `logout`: nobody is signed in, both keys and the header are gone. */
    method Logout()
      requires Valid()
      modifies this
      ensures Valid()
      ensures user == None && !isAuthenticated && storage == Cleared && authHeader == None
      ensures authError == old(authError)
    {
      user := None;
      isAuthenticated := false;
      storage := storage.(currentUser := None);
      storage := storage.(token := None);
      authHeader := None;
    }

    /** `fetchCurrentUser`: a successful check refreshes the signed-in
        user's fields, keeping its token, and stores it again; with nobody
        signed in it changes nothing but still answers true. */
    method FetchCurrentUser(reply: Reply<UserData>) returns (ok: bool)
      requires Valid()
      modifies this
      ensures Valid()
      ensures ok <==> reply.Answered? && reply.success
      ensures ok && old(user).Some? ==>
        && user == Some(UserSession(reply.data.id, reply.data.username, reply.data.name, reply.data.role, old(user).value.token))
        && storage == old(storage).(currentUser := Some(Json(user.value)))
      ensures !ok || old(user).None? ==> user == old(user) && storage == old(storage)
      ensures isAuthenticated == old(isAuthenticated) && authHeader == old(authHeader) && authError == old(authError)
    {
      if reply.Failed? || !reply.success {
        return false;
      }
      if user.Some? {
        user := Some(user.value.(id := reply.data.id, username := reply.data.username, name := reply.data.name, role := reply.data.role));
        storage := storage.(currentUser := Some(Json(user.value)));
      }
      return true;
    }

    /** `changePassword`: the server's answer, with a default message. A
        refusal shows the server's message as it is, even when missing. */
    method ChangePassword(reply: Reply<()>) returns (success: bool, message: Message)
      requires Valid()
      modifies this
      ensures Valid()
      ensures success <==> reply.Answered? && reply.success
      ensures success ==> message == OrDefault(reply.message, PasswordChanged) && authError == None
      ensures !success && reply.Answered? ==>
        && message == OrDefault(reply.message, PasswordChangeFailed)
        && authError == (if reply.message.Val? then Some(Said(reply.message.v)) else None)
      ensures reply.Failed? ==> message == OrDefault(reply.errorMessage, PasswordChangeFailed) && authError == Some(message)
      ensures user == old(user) && isAuthenticated == old(isAuthenticated)
      ensures storage == old(storage) && authHeader == old(authHeader)
    {
      authError := None;
      if reply.Failed? {
        var errorMessage := OrDefault(reply.errorMessage, PasswordChangeFailed);
        authError := Some(errorMessage);
        return false, errorMessage;
      }
      if reply.success {
        return true, OrDefault(reply.message, PasswordChanged);
      }
      authError := if reply.message.Val? then Some(Said(reply.message.v)) else None;
      return false, OrDefault(reply.message, PasswordChangeFailed);
    }

    /** `hasRole`: someone is signed in with that role. */
    predicate HasRole(role: string)
      reads this
    {
      user.Some? && user.value.role == role
    }

    /** `isAdmin` */
    predicate IsAdmin()
      reads this
    {
      user.Some? && user.value.role == "admin"
    }
  }

  /** `isAdmin()` is `hasRole('admin')`, and nobody signed in has no role. */
  lemma IsAdminIsHasRole(s: Store)
    ensures s.IsAdmin() <==> s.HasRole("admin")
    ensures s.user.None? ==> forall role :: !s.HasRole(role)
  {
  }
}
