/** The change-password dialog: its submit handler validates the two new
    passwords, sends the authorised request, and maps the outcome to the
    dialog's `error`, `loading` and `success` cells. */
module ChangePasswordForm {
  import opened Common
  import opened PasswordPolicy

  const MismatchMessage := "Les nouveaux mots de passe ne correspondent pas"
  const TooShortMessage := "Le nouveau mot de passe doit contenir au moins 8 caractères"
  const FallbackMessage := "Erreur lors du changement"
  const ConnectionMessage := "Erreur de connexion"

  /** The JSON body of the POST to `/api/auth/change-password`. */
  datatype ChangeRequest = ChangeRequest(currentPassword: string, newPassword: string)

  /** The outcome of the request once its JSON body is read: `Threw` when the
      request or `res.json()` threw, otherwise the status and the body's
      `error` field. */
  datatype Reply = Threw | Replied(ok: bool, error: Option<string>)

  /** The message the dialog shows after a request has completed. */
  function ErrorAfter(reply: Reply): (e: string)
    ensures reply.Threw? ==> e == ConnectionMessage
    ensures reply.Replied? && reply.ok ==> e == ""
    ensures reply.Replied? && !reply.ok ==> e != "" && (e == FallbackMessage || Some(e) == reply.error)
    ensures reply.Replied? && !reply.ok ==> e == OrElse(reply.error, FallbackMessage)
  {
    match reply
    case Threw => ConnectionMessage
    case Replied(ok, error) => if ok then "" else OrElse(error, FallbackMessage)
  }

  class ChangePassword {
    var currentPassword: string
    var newPassword: string
    var confirmPassword: string
    var loading: bool
    var error: string
    var success: bool

    constructor ()
      ensures currentPassword == "" && newPassword == "" && confirmPassword == ""
      ensures !loading && error == "" && !success
    {
      currentPassword, newPassword, confirmPassword := "", "", "";
      loading, error, success := false, "", false;
    }

    /** The submit handler, with the request's outcome given as `reply`.
        Returns the request it sends, or `None` when a check stops it. */
    method HandleSubmit(reply: Reply) returns (req: Option<ChangeRequest>)
      modifies this`loading, this`error, this`success
      ensures var v := Check(newPassword, confirmPassword, ChangeResetMinLength);
        && (req.Some? <==> v == Acceptable)
        && (req.Some? ==> req.value == ChangeRequest(currentPassword, newPassword))
        && (v == Mismatch ==> error == MismatchMessage)
        && (v == TooShort ==> error == TooShortMessage)
        && (v != Acceptable ==> loading == old(loading) && success == old(success))
        && (v == Acceptable ==> !loading && error == ErrorAfter(reply))
        && (v == Acceptable ==> success == (old(success) || (reply.Replied? && reply.ok)))
    {
      error := "";
      var v := Check(newPassword, confirmPassword, ChangeResetMinLength);
      if v == Mismatch {
        error := MismatchMessage;
        return None;
      }
      if v == TooShort {
        error := TooShortMessage;
        return None;
      }
      loading := true;
      req := Some(ChangeRequest(currentPassword, newPassword));
      match reply {
        case Threw =>
          error := ConnectionMessage;
        case Replied(ok, e) =>
          if ok {
            success := true;
          } else {
            error := OrElse(e, FallbackMessage);
          }
      }
      loading := false;
    }
  }
}
