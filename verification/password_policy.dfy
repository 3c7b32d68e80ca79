/** The ordered checks that the password forms run before any request:
    the confirmation must match first, and only then is the length
    (in UTF-16 code units, as JavaScript counts it) compared with the
    form's minimum. */
module PasswordPolicy {
  import opened Common

  /** Minimum length of a new password on the change-password and
      reset-password forms. */
  const ChangeResetMinLength := 8

  /** Minimum length of a password on the registration form. */
  const RegisterMinLength := 6

  /** Which check stopped the submission, if any. */
  datatype Verdict = Mismatch | TooShort | Acceptable

  /** Checks `password` against its confirmation, then against `minLength`. */
  function Check(password: string, confirmation: string, minLength: nat): (v: Verdict)
    ensures v == Mismatch <==> password != confirmation
    ensures v == TooShort <==> password == confirmation && Utf16Length(password) < minLength
    ensures v == Acceptable <==> password == confirmation && Utf16Length(password) >= minLength
  {
    if password != confirmation then Mismatch
    else if Utf16Length(password) < minLength then TooShort
    else Acceptable
  }

  /** An accepted password is never empty when a positive minimum applies, and
      is at least as many characters long as the minimum asks for when it is
      made of Basic Multilingual Plane characters. */
  lemma AcceptedLength(password: string, minLength: nat)
    requires Check(password, password, minLength) == Acceptable
    ensures minLength > 0 ==> password != []
    ensures (forall i :: 0 <= i < |password| ==> password[i] as int <= 0xFFFF) ==> |password| >= minLength
  {
    if forall i :: 0 <= i < |password| ==> password[i] as int <= 0xFFFF {
      Utf16LengthOfBmp(password);
    }
  }
}
