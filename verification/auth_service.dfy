/** The session store of the front end: a bearer token and the user profile
    kept in the browser's localStorage under fixed keys, the register and
    login calls that fill it, the `/auth/me` check that clears it, and the
    header merge of the authorised-fetch helper.

    localStorage is a map from keys to strings. Every value the source
    writes is coerced to a string the way `localStorage.setItem` coerces it:
    an absent (`undefined`) value becomes the text "undefined". A user
    profile is represented by its JSON text; `JSON.stringify` and
    `JSON.parse` are taken to be exact inverses on it. */
module AuthService {
  import opened Common

  const TokenKey := "token"
  const UserKey := "user"
  const RegisterFallback := "Erreur lors de l'inscription"
  const LoginFallback := "Erreur lors de la connexion"

  /** The text `localStorage.setItem` stores for a value that may be absent. */
  function Coerce(v: Option<string>): (s: string)
    ensures v.Some? ==> s == v.value
    ensures v.None? ==> s == "undefined"
  {
    v.GetOr("undefined")
  }

  /** What `getUser` finds: nothing (the key is missing or holds the empty
      string, both falsy), a profile, or a text `JSON.parse` rejects (the
      "undefined" written for an absent profile). */
  datatype StoredUser = NoUser | Profile(json: string) | Unparsable

  /** `getUser` on a store. */
  function ReadUser(items: map<string, string>): (u: StoredUser)
    ensures u.NoUser? <==> UserKey !in items || items[UserKey] == ""
    ensures u.Unparsable? <==> UserKey in items && items[UserKey] == "undefined"
    ensures u.Profile? ==> UserKey in items && u.json == items[UserKey]
  {
    if UserKey !in items || items[UserKey] == "" then NoUser
    else if items[UserKey] == "undefined" then Unparsable
    else Profile(items[UserKey])
  }

  /** `getToken` on a store: `null` when the key is missing. */
  function ReadToken(items: map<string, string>): (t: Option<string>)
    ensures t.Some? <==> TokenKey in items
    ensures t.Some? ==> t.value == items[TokenKey]
  {
    if TokenKey in items then Some(items[TokenKey]) else None
  }

  /** The JSON text of a user profile: an object, so it starts with a brace. */
  predicate IsProfileJson(json: string) {
    |json| > 0 && json[0] == '{'
  }

  /** The decoded JSON body of a register or login response. */
  datatype AuthBody = AuthBody(token: Option<string>, user: Option<string>, error: Option<string>)

  /** The outcome of one HTTP request once its JSON body has been read:
      `Rejected` when `fetch` or `response.json()` threw, with the message. */
  datatype HttpReply<B> = Rejected(message: string) | Replied(ok: bool, body: B)

  /** What `register` or `login` returns or throws for `reply`. */
  function AuthOutcome(reply: HttpReply<AuthBody>, fallback: string): (r: Result<AuthBody>)
    ensures r.Success? <==> reply.Replied? && reply.ok
    ensures r.Success? ==> r.value == reply.body
    ensures reply.Rejected? ==> r == Failure(reply.message)
    ensures reply.Replied? && !reply.ok ==> r == Failure(OrElse(reply.body.error, fallback))
  {
    match reply
    case Rejected(m) => Failure(m)
    case Replied(ok, body) => if ok then Success(body) else Failure(OrElse(body.error, fallback))
  }

  /** The store after a successful register or login: token first, then user. */
  function Persisted(items: map<string, string>, body: AuthBody): (r: map<string, string>)
    ensures r.Keys == items.Keys + {TokenKey, UserKey}
    ensures ReadToken(r) == Some(Coerce(body.token))
    ensures r[UserKey] == Coerce(body.user)
    ensures forall k :: k in items && k != TokenKey && k != UserKey ==> r[k] == items[k]
  {
    items[TokenKey := Coerce(body.token)][UserKey := Coerce(body.user)]
  }

  /** The store after `register` or `login` with outcome `reply`. */
  function StoreAfter(items: map<string, string>, reply: HttpReply<AuthBody>): map<string, string> {
    if reply.Replied? && reply.ok then Persisted(items, reply.body) else items
  }

  /** `isAuthenticated` on a store: a non-empty token is stored. */
  function TokenPresent(items: map<string, string>): (b: bool)
    ensures b <==> TokenKey in items && items[TokenKey] != ""
  {
    Truthy(ReadToken(items))
  }

  /** A successful response that carries a profile leaves that profile
      readable, and one that carries a non-empty token leaves the store
      authenticated. */
  lemma PersistedSession(items: map<string, string>, body: AuthBody)
    ensures body.user.Some? && IsProfileJson(body.user.value) ==> ReadUser(Persisted(items, body)) == Profile(body.user.value)
    ensures Truthy(body.token) ==> TokenPresent(Persisted(items, body))
  {
  }

  /** A successful response without a token still authenticates the store:
      the text "undefined" is stored as the token. Without a profile, the
      stored profile can no longer be read. */
  lemma MissingFieldsArePersistedAsUndefined(items: map<string, string>, body: AuthBody)
    ensures body.token.None? ==> TokenPresent(Persisted(items, body)) && ReadToken(Persisted(items, body)) == Some("undefined")
    ensures body.user.None? ==> ReadUser(Persisted(items, body)).Unparsable?
  {
  }

  /** The options a caller passes to `fetchWithAuth`; absent fields are
      simply not set. */
  datatype FetchOptions = FetchOptions(httpMethod: Option<string>, body: Option<string>, headers: Option<map<string, string>>)

  /** The `fetch` call `fetchWithAuth` makes. */
  datatype FetchCall = FetchCall(url: string, options: FetchOptions)

  /** The value of the Authorization header for a stored token. */
  function Bearer(token: Option<string>): (h: string)
    ensures Truthy(token) ==> h == "Bearer " + token.value
    ensures !Truthy(token) ==> h == ""
  {
    if Truthy(token) then "Bearer " + token.value else ""
  }

  /** The headers of an authorised request: the defaults first, each
      replaced by the caller's header of the same name. */
  function MergeHeaders(token: Option<string>, own: Option<map<string, string>>): (h: map<string, string>)
    ensures h.Keys == {"Content-Type", "Authorization"} + own.GetOr(map[]).Keys
    ensures forall k :: k in own.GetOr(map[]) ==> h[k] == own.GetOr(map[])[k]
    ensures "Content-Type" !in own.GetOr(map[]) ==> h["Content-Type"] == "application/json"
    ensures "Authorization" !in own.GetOr(map[]) ==> h["Authorization"] == Bearer(token)
  {
    map["Content-Type" := "application/json", "Authorization" := Bearer(token)] + own.GetOr(map[])
  }

  /** A browser's localStorage, restricted to what the session code uses. */
  class LocalStorage {
    var items: map<string, string>

    constructor (items: map<string, string>)
      ensures this.items == items
    {
      this.items := items;
    }

    /** `getToken`. */
    function GetToken(): (t: Option<string>)
      reads this
      ensures t.Some? <==> TokenKey in items
      ensures t.Some? ==> t.value == items[TokenKey]
    {
      ReadToken(items)
    }

    /** `getUser`. */
    function GetUser(): (u: StoredUser)
      reads this
      ensures u.NoUser? <==> UserKey !in items || items[UserKey] == ""
      ensures u.Unparsable? <==> UserKey in items && items[UserKey] == "undefined"
      ensures u.Profile? ==> u.json == items[UserKey]
    {
      ReadUser(items)
    }

    /** `isAuthenticated`: a token is stored and it is not the empty string. */
    function IsAuthenticated(): (b: bool)
      reads this
      ensures b <==> TokenKey in items && items[TokenKey] != ""
    {
      TokenPresent(items)
    }

    /** `setToken`. */
    method SetToken(token: Option<string>)
      modifies this
      ensures items == old(items)[TokenKey := Coerce(token)]
      ensures GetToken() == Some(Coerce(token))
      ensures GetUser() == old(GetUser())
    {
      items := items[TokenKey := Coerce(token)];
    }

    /** `setUser`: stores the profile's JSON text. */
    method SetUser(user: Option<string>)
      modifies this
      ensures items == old(items)[UserKey := Coerce(user)]
      ensures user.Some? && IsProfileJson(user.value) ==> GetUser() == Profile(user.value)
      ensures user.None? ==> GetUser() == Unparsable
      ensures GetToken() == old(GetToken())
    {
      items := items[UserKey := Coerce(user)];
    }

    /** `removeToken`, and so `logout`: forgets the token and the profile,
        and nothing else. */
    method RemoveToken()
      modifies this
      ensures items == old(items) - {TokenKey, UserKey}
      ensures GetToken() == None && GetUser() == NoUser && !IsAuthenticated()
      ensures forall k :: k in old(items) && k != TokenKey && k != UserKey ==> k in items && items[k] == old(items)[k]
    {
      items := items - {TokenKey, UserKey};
    }

    /** `logout`. */
    method Logout()
      modifies this
      ensures items == old(items) - {TokenKey, UserKey}
      ensures !IsAuthenticated() && GetUser() == NoUser
    {
      RemoveToken();
    }

    /** The persistence shared by `register` and `login`: on an ok response
        the token and then the profile are stored and the body is returned;
        otherwise the server's `error` (or `fallback`) is thrown and the store
        is untouched. */
    method Authenticate(reply: HttpReply<AuthBody>, fallback: string) returns (r: Result<AuthBody>)
      modifies this
      ensures r == AuthOutcome(reply, fallback)
      ensures items == StoreAfter(old(items), reply)
    {
      match reply {
        case Rejected(m) =>
          r := Failure(m);
        case Replied(ok, body) =>
          if !ok {
            r := Failure(OrElse(body.error, fallback));
          } else {
            SetToken(body.token);
            SetUser(body.user);
            r := Success(body);
          }
      }
    }

    /** `register`, with the outcome of the POST to `/auth/register` given as `reply`. */
    method Register(reply: HttpReply<AuthBody>) returns (r: Result<AuthBody>)
      modifies this
      ensures r == AuthOutcome(reply, RegisterFallback)
      ensures items == StoreAfter(old(items), reply)
    {
      r := Authenticate(reply, RegisterFallback);
    }

    /** `login`, with the outcome of the POST to `/auth/login` given as `reply`. */
    method Login(reply: HttpReply<AuthBody>) returns (r: Result<AuthBody>)
      modifies this
      ensures r == AuthOutcome(reply, LoginFallback)
      ensures items == StoreAfter(old(items), reply)
    {
      r := Authenticate(reply, LoginFallback);
    }

    /** `getCurrentUser`, with the outcome of GET `/auth/me` given as `reply`
        (its body is the profile's JSON text). Returns the Authorization
        header of the request it sends (`None` when it sends none) and the
        profile, `None` standing for `null`. */
    method GetCurrentUser(reply: HttpReply<string>) returns (sent: Option<string>, r: Result<Option<string>>)
      modifies this
      ensures !old(IsAuthenticated()) ==> sent.None? && r == Success(None) && items == old(items)
      ensures old(IsAuthenticated()) ==> sent == Some("Bearer " + old(GetToken()).value)
      ensures old(IsAuthenticated()) && reply.Rejected? ==> r == Failure(reply.message) && items == old(items)
      ensures old(IsAuthenticated()) && reply.Replied? && !reply.ok ==>
                r == Success(None) && items == old(items) - {TokenKey, UserKey}
      ensures old(IsAuthenticated()) && reply.Replied? && reply.ok ==>
                r == Success(Some(reply.body)) && items == old(items)
    {
      var token := GetToken();
      if !Truthy(token) {
        return None, Success(None);
      }
      sent := Some("Bearer " + token.value);
      match reply {
        case Rejected(m) =>
          r := Failure(m);
        case Replied(ok, body) =>
          if !ok {
            RemoveToken();
            r := Success(None);
          } else {
            r := Success(Some(body));
          }
      }
    }

    /** `fetchWithAuth`: the call keeps the caller's URL and options and
        replaces only the headers, by the merge of `MergeHeaders`. */
    function FetchWithAuth(url: string, options: FetchOptions): (call: FetchCall)
      reads this
      ensures call.url == url
      ensures call.options.httpMethod == options.httpMethod && call.options.body == options.body
      ensures call.options.headers == Some(MergeHeaders(GetToken(), options.headers))
    {
      FetchCall(url, options.(headers := Some(MergeHeaders(GetToken(), options.headers))))
    }
  }
}
