/**
 * The password checks of the sign-up form (mismatch first, then length) and
 * of the reset form (length first, then mismatch). Length is JavaScript's
 * `password.length`, counted in UTF-16 code units.
 */
module PasswordRules {
  import opened Wrappers
  import Js

  const MinPasswordLength: nat := 6
  const PasswordsDoNotMatch := "Passwords do not match"
  const PasswordTooShort := "Password must be at least 6 characters"

  /** The pairs both forms let through. */
  predicate Acceptable(password: string, confirm: string) {
    password == confirm && Js.Utf16Length(password) >= MinPasswordLength
  }

  /** SignUp.jsx lines 15-23: the error shown, or None when sign-up proceeds. */
  function SignUpCheck(password: string, confirm: string): (r: Option<string>)
    ensures r.None? <==> Acceptable(password, confirm)
    ensures password != confirm ==> r == Some(PasswordsDoNotMatch)
    ensures password == confirm && !Acceptable(password, confirm) ==> r == Some(PasswordTooShort)
  {
    if password != confirm then Some(PasswordsDoNotMatch)
    else if Js.Utf16Length(password) < MinPasswordLength then Some(PasswordTooShort)
    else None
  }

  /** ResetPassword.jsx lines 15-23: the same two tests in the opposite order. */
  function ResetCheck(password: string, confirm: string): (r: Option<string>)
    ensures r.None? <==> Acceptable(password, confirm)
    ensures Js.Utf16Length(password) < MinPasswordLength ==> r == Some(PasswordTooShort)
    ensures Js.Utf16Length(password) >= MinPasswordLength && password != confirm ==> r == Some(PasswordsDoNotMatch)
  {
    if Js.Utf16Length(password) < MinPasswordLength then Some(PasswordTooShort)
    else if password != confirm then Some(PasswordsDoNotMatch)
    else None
  }

  /**
   * The two forms accept the same pairs, and report different errors
   * exactly when both tests fail.
   */
  lemma ChecksAgreeExceptOnDoubleFailure(password: string, confirm: string)
    ensures SignUpCheck(password, confirm).None? <==> ResetCheck(password, confirm).None?
    ensures SignUpCheck(password, confirm) != ResetCheck(password, confirm) <==>
      password != confirm && Js.Utf16Length(password) < MinPasswordLength
  {
  }

  /** "abc" / "abd": the reset form reports the length, the sign-up form the mismatch. */
  lemma ShortMismatchedPair()
    ensures SignUpCheck("abc", "abd") == Some(PasswordsDoNotMatch)
    ensures ResetCheck("abc", "abd") == Some(PasswordTooShort)
  {
  }

  /** Three astral characters are six code units long, so they pass the length test. */
  lemma AstralCharactersCountTwice()
    ensures Acceptable("\U{1F600}\U{1F600}\U{1F600}", "\U{1F600}\U{1F600}\U{1F600}")
  {
  }
}
