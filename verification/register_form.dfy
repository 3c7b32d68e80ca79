/** The registration form: its submit handler validates the two passwords
    (minimum 6 here), then calls the session context's `register` once and
    shows the error it throws. */
module RegisterForm {
  import opened Common
  import opened PasswordPolicy
  import opened AuthService
  import opened AuthContext

  const MismatchMessage := "Les mots de passe ne correspondent pas"
  const TooShortMessage := "Le mot de passe doit contenir au moins 6 caractères"
  const FallbackMessage := "Erreur lors de l'inscription"

  /** The message the form shows once `register` has settled: nothing on
      success, otherwise the thrown message or, when it is empty, the
      form's own default. */
  function ErrorAfter(a: Result<AuthBody>): (e: string)
    ensures a.Success? ==> e == ""
    ensures a.Failure? ==> e != "" && (e == a.error || (a.error == "" && e == FallbackMessage))
  {
    match a
    case Success(_) => ""
    case Failure(m) => OrElse(Some(m), FallbackMessage)
  }

  class Register {
    var username: string
    var email: string
    var password: string
    var confirmPassword: string
    var loading: bool
    var localError: string
    const auth: AuthProvider

    constructor (auth: AuthProvider)
      ensures this.auth == auth
      ensures username == "" && email == "" && password == "" && confirmPassword == ""
      ensures !loading && localError == ""
    {
      this.auth := auth;
      username, email, password, confirmPassword := "", "", "", "";
      loading, localError := false, "";
    }

    /** The submit handler, with the outcome of the service's request given
        as `reply`. A failed check sets its message and leaves `loading`,
        the context and the store alone; valid input calls the context's
        `register` exactly once, and `loading` ends false. */
    method HandleSubmit(reply: HttpReply<AuthBody>) returns (called: bool)
      modifies this`loading, this`localError, auth`user, auth`error, auth.storage
      ensures var v := Check(password, confirmPassword, RegisterMinLength);
        && (called <==> v == Acceptable)
        && (v == Mismatch ==> localError == MismatchMessage)
        && (v == TooShort ==> localError == TooShortMessage)
        && (!called ==> loading == old(loading) && auth.user == old(auth.user) && auth.error == old(auth.error)
                        && auth.storage.items == old(auth.storage.items))
        && (called ==> !loading)
        && (called ==> localError == ErrorAfter(Accepted(AuthOutcome(reply, RegisterFallback))))
        && (called ==> auth.error == (var a := Accepted(AuthOutcome(reply, RegisterFallback));
                                      if a.Success? then None else Some(a.error)))
        && (called ==> auth.storage.items == StoreAfter(old(auth.storage.items), reply))
        && (called && Accepted(AuthOutcome(reply, RegisterFallback)).Success? ==> auth.user == reply.body.user)
        && (called && Accepted(AuthOutcome(reply, RegisterFallback)).Failure? ==> auth.user == old(auth.user))
    {
      var v := Check(password, confirmPassword, RegisterMinLength);
      if v == Mismatch {
        localError := MismatchMessage;
        return false;
      }
      if v == TooShort {
        localError := TooShortMessage;
        return false;
      }
      loading := true;
      localError := "";
      var a := auth.Register(reply);
      called := true;
      if a.Failure? {
        localError := OrElse(Some(a.error), FallbackMessage);
      }
      loading := false;
    }
  }
}
