/** The reset-password page: it reads a token from the link, validates the
    two passwords, posts them, and marks the link invalid for good when the
    server says the token has expired or is invalid. */
module ResetPasswordForm {
  import opened Common
  import opened PasswordPolicy

  const InvalidLinkMessage := "Lien de réinitialisation invalide"
  const MismatchMessage := "Les mots de passe ne correspondent pas"
  const TooShortMessage := "Le mot de passe doit contenir au moins 8 caractères"
  const FallbackMessage := "Erreur lors de la réinitialisation"
  const ConnectionMessage := "Erreur de connexion au serveur"

  /** The JSON body of the POST to `/api/auth/reset-password`; an absent
      token is sent as `null`. */
  datatype ResetRequest = ResetRequest(token: Option<string>, newPassword: string)

  /** The outcome of the request once its JSON body is read. */
  datatype Reply = Threw | Replied(ok: bool, error: Option<string>)

  /** A server error that says the link can no longer be used: it mentions
      "expiré" or "invalide". */
  predicate RevokesToken(error: Option<string>) {
    error.Some? && (Contains(error.value, "expiré") || Contains(error.value, "invalide"))
  }

  /** Both words are recognised wherever they appear in the message. */
  lemma RevokingMessages(prefix: string, suffix: string)
    ensures RevokesToken(Some(prefix + "expiré" + suffix))
    ensures RevokesToken(Some(prefix + "invalide" + suffix))
  {
    var e := prefix + "expiré" + suffix;
    assert e[|prefix|..|prefix| + |"expiré"|] == "expiré";
    ContainsAt(e, "expiré", |prefix|);
    var i := prefix + "invalide" + suffix;
    assert i[|prefix|..|prefix| + |"invalide"|] == "invalide";
    ContainsAt(i, "invalide", |prefix|);
  }

  /** A message in which neither word occurs at any offset does not revoke
      the link. */
  lemma KeepingMessages(error: string)
    requires forall k: nat :: !OccursAt(error, "expiré", k)
    requires forall k: nat :: !OccursAt(error, "invalide", k)
    ensures !RevokesToken(Some(error))
  {
    if Contains(error, "expiré") {
      var k := ContainsWitness(error, "expiré");
      assert false;
    }
    if Contains(error, "invalide") {
      var k := ContainsWitness(error, "invalide");
      assert false;
    }
  }

  class ResetPassword {
    /** The `token` query parameter of the link, absent when missing. */
    const token: Option<string>
    var newPassword: string
    var confirmPassword: string
    var loading: bool
    var error: string
    var success: bool
    var tokenValid: bool

    constructor (token: Option<string>)
      ensures this.token == token
      ensures newPassword == "" && confirmPassword == ""
      ensures !loading && error == "" && !success && tokenValid
    {
      this.token := token;
      newPassword, confirmPassword := "", "";
      loading, error, success, tokenValid := false, "", false, true;
    }

    /** The effect that runs when the token is read: a missing or empty token
        makes the link invalid. */
    method CheckToken()
      modifies this`tokenValid, this`error
      ensures !Truthy(token) ==> !tokenValid && error == InvalidLinkMessage
      ensures Truthy(token) ==> tokenValid == old(tokenValid) && error == old(error)
      ensures tokenValid ==> old(tokenValid)
    {
      if !Truthy(token) {
        tokenValid := false;
        error := InvalidLinkMessage;
      }
    }

    /** The submit handler, with the request's outcome given as `reply`. */
    method HandleSubmit(reply: Reply) returns (req: Option<ResetRequest>)
      modifies this`loading, this`error, this`success, this`tokenValid
      ensures tokenValid ==> old(tokenValid)
      ensures var v := Check(newPassword, confirmPassword, ChangeResetMinLength);
        && (req.Some? <==> v == Acceptable)
        && (req.Some? ==> req.value == ResetRequest(token, newPassword))
        && (v == Mismatch ==> error == MismatchMessage)
        && (v == TooShort ==> error == TooShortMessage)
        && (v != Acceptable ==> loading == old(loading) && success == old(success) && tokenValid == old(tokenValid))
        && (v == Acceptable ==> !loading)
        && (v == Acceptable && reply.Threw? ==> error == ConnectionMessage && success == old(success)
                                                && tokenValid == old(tokenValid))
        && (v == Acceptable && reply.Replied? && reply.ok ==> error == "" && success && tokenValid == old(tokenValid))
        && (v == Acceptable && reply.Replied? && !reply.ok ==>
              && error == OrElse(reply.error, FallbackMessage)
              && success == old(success)
              && tokenValid == (old(tokenValid) && !RevokesToken(reply.error)))
    {
      error := "";
      var v := Check(newPassword, confirmPassword, ChangeResetMinLength);
      if v == Mismatch {
        error := MismatchMessage;
        return None;
      }
      if v == TooShort {
        error := TooShortMessage;
        return None;
      }
      loading := true;
      req := Some(ResetRequest(token, newPassword));
      match reply {
        case Threw =>
          error := ConnectionMessage;
        case Replied(ok, e) =>
          if ok {
            success := true;
          } else {
            error := OrElse(e, FallbackMessage);
            if RevokesToken(e) {
              tokenValid := false;
            }
          }
      }
      loading := false;
    }
  }
}
