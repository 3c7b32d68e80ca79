/** The session context: the reactive `user`, `loading` and `error` cells
    shared by the whole application, filled at startup from localStorage and
    updated by login, register and logout. */
module AuthContext {
  import opened Common
  import opened AuthService

  const InvalidReplyMessage := "Réponse invalide du serveur"

  /** The context's own check on what the service returned: a body is
      accepted only when it carries both a profile and a non-empty token;
      otherwise "Réponse invalide du serveur" is thrown. A thrown error
      passes through. */
  function Accepted(r: Result<AuthBody>): (a: Result<AuthBody>)
    ensures a.Success? <==> r.Success? && r.value.user.Some? && Truthy(r.value.token)
    ensures a.Success? ==> a == r
    ensures r.Failure? ==> a == r
    ensures r.Success? && a.Failure? ==> a.error == InvalidReplyMessage
  {
    match r
    case Failure(_) => r
    case Success(data) =>
      if data.user.Some? && Truthy(data.token) then r else Failure(InvalidReplyMessage)
  }

  /** Whatever the service returned, an outcome the context accepts comes
      with a store that is authenticated. */
  lemma {:induction false} AcceptedMeansAuthenticated(items: map<string, string>, reply: HttpReply<AuthBody>, fallback: string)
    requires Accepted(AuthOutcome(reply, fallback)).Success?
    ensures TokenPresent(StoreAfter(items, reply))
    ensures reply.body.user.Some? && IsProfileJson(reply.body.user.value) ==>
              ReadUser(StoreAfter(items, reply)) == Profile(reply.body.user.value)
  {
    PersistedSession(items, reply.body);
  }

  /** The converse does not hold: an ok response without a token is rejected
      by the context, yet leaves the store authenticated. */
  lemma RejectedButAuthenticated(items: map<string, string>, user: string)
    ensures var reply := Replied(true, AuthBody(None, Some(user), None));
      && Accepted(AuthOutcome(reply, LoginFallback)) == Failure(InvalidReplyMessage)
      && TokenPresent(StoreAfter(items, reply))
  {
  }

  class AuthProvider {
    var user: Option<string>
    var loading: bool
    var error: Option<string>
    const storage: LocalStorage

    constructor (storage: LocalStorage)
      ensures this.storage == storage
      ensures user.None? && loading && error.None?
    {
      this.storage := storage;
      user, loading, error := None, true, None;
    }

    /** The derived `isAuthenticated` value: a profile is held. */
    function IsAuthenticated(): (b: bool)
      reads this
      ensures b <==> user != None
    {
      user.Some?
    }

    /** The startup check. `ok` is false when `getUser` throws on a stored
        "undefined"; the effect then stops before clearing `loading`.
        Otherwise the stored profile is adopted only when a non-empty token
        is stored too, and `loading` ends false. */
    method CheckUser() returns (ok: bool)
      modifies this`user, this`loading
      ensures ok <==> !storage.GetUser().Unparsable?
      ensures !ok ==> user == old(user) && loading == old(loading)
      ensures ok ==> !loading
      ensures ok && storage.GetUser().Profile? && Truthy(storage.GetToken()) ==> user == Some(storage.GetUser().json)
      ensures ok && !(storage.GetUser().Profile? && Truthy(storage.GetToken())) ==> user == old(user)
    {
      var stored := storage.GetUser();
      if stored.Unparsable? {
        return false;
      }
      var token := storage.GetToken();
      if stored.Profile? && Truthy(token) {
        user := Some(stored.json);
      }
      loading := false;
      ok := true;
    }

    /** The part shared by `login` and `register`: clears `error`, runs the
        service call, and adopts the profile only when the context accepts
        the outcome; on failure records and rethrows the message. */
    method Complete(r: Result<AuthBody>) returns (a: Result<AuthBody>)
      modifies this`user, this`error
      ensures a == Accepted(r)
      ensures a.Success? ==> user == a.value.user && error.None?
      ensures a.Failure? ==> user == old(user) && error == Some(a.error)
    {
      error := None;
      match r {
        case Failure(m) =>
          error := Some(m);
          a := r;
        case Success(data) =>
          if data.user.Some? && Truthy(data.token) {
            user := data.user;
            a := r;
          } else {
            error := Some(InvalidReplyMessage);
            a := Failure(InvalidReplyMessage);
          }
      }
    }

    /** `login`, with the outcome of the service's request given as `reply`. */
    method Login(reply: HttpReply<AuthBody>) returns (a: Result<AuthBody>)
      modifies this`user, this`error, storage
      ensures a == Accepted(AuthOutcome(reply, LoginFallback))
      ensures a.Success? ==> user == reply.body.user && error.None? && IsAuthenticated()
      ensures a.Failure? ==> user == old(user) && error == Some(a.error)
      ensures storage.items == StoreAfter(old(storage.items), reply)
    {
      var r := storage.Login(reply);
      a := Complete(r);
    }

    /** `register`, with the outcome of the service's request given as `reply`. */
    method Register(reply: HttpReply<AuthBody>) returns (a: Result<AuthBody>)
      modifies this`user, this`error, storage
      ensures a == Accepted(AuthOutcome(reply, RegisterFallback))
      ensures a.Success? ==> user == reply.body.user && error.None? && IsAuthenticated()
      ensures a.Failure? ==> user == old(user) && error == Some(a.error)
      ensures storage.items == StoreAfter(old(storage.items), reply)
    {
      var r := storage.Register(reply);
      a := Complete(r);
    }

    /** `logout`: clears the persisted session, then the held profile. */
    method Logout()
      modifies this`user, storage
      ensures user.None? && !IsAuthenticated()
      ensures storage.items == old(storage.items) - {TokenKey, UserKey}
      ensures !storage.IsAuthenticated()
    {
      storage.Logout();
      user := None;
    }
  }
}
