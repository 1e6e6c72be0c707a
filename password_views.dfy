/**
 * The sign-up form (components/SignUp.jsx) and the reset-password form
 * (components/ResetPassword.jsx). Each `handleSubmit` is split at its first
 * `await` into `Submit` and `Resolve`; the outcome of the Supabase calls is
 * a parameter, a failure carrying the thrown error's `message` (an error
 * without one is the empty message).
 */
module PasswordViews {
  import opened Wrappers
  import opened PasswordRules
  import opened Js
  import Api

  const SignUpFallback := "Could not create account. Please try again."
  const ResetFallback := "Failed to update password. Link may have expired."

  /** `err.message || fallback` */
  function MessageOr(message: string, fallback: string): (shown: string)
    ensures message != "" ==> shown == message
    ensures message == "" ==> shown == fallback
  {
    if message != "" then message else fallback
  }

  class SignUp {
    var email: string
    var password: string
    var confirmPassword: string
    var error: string
    var loading: bool

    /** SignUp.jsx lines 5-9 */
    constructor()
      ensures email == "" && password == "" && confirmPassword == "" && error == "" && !loading
    {
      email, password, confirmPassword := "", "", "";
      error := "";
      loading := false;
    }

    /** The `onChange` handlers of the three inputs. */
    method SetEmail(v: string)
      modifies this
      ensures email == v && password == old(password) && confirmPassword == old(confirmPassword)
      ensures error == old(error) && loading == old(loading)
    {
      email := v;
    }

    method SetPassword(v: string)
      modifies this
      ensures password == v && email == old(email) && confirmPassword == old(confirmPassword)
      ensures error == old(error) && loading == old(loading)
    {
      password := v;
    }

    method SetConfirmPassword(v: string)
      modifies this
      ensures confirmPassword == v && email == old(email) && password == old(password)
      ensures error == old(error) && loading == old(loading)
    {
      confirmPassword := v;
    }

    /**
     * Lines 11-29 up to `signUp`: a pair `SignUpCheck` refuses shows that
     * error and neither calls `signUp` nor sets loading; an acceptable pair
     * starts loading and calls `signUp(email, password)`.
     */
    method Submit() returns (call: Option<(string, string)>)
      modifies this
      ensures email == old(email) && password == old(password) && confirmPassword == old(confirmPassword)
      ensures call.Some? <==> Acceptable(old(password), old(confirmPassword))
      ensures call.None? ==> error == SignUpCheck(old(password), old(confirmPassword)).value && loading == old(loading)
      ensures call.Some? ==> call.value == (old(email), old(password)) && error == "" && loading
    {
      error := "";
      var problem := SignUpCheck(password, confirmPassword);
      if problem.Some? {
        error := problem.value;
        return None;
      }
      loading := true;
      call := Some((email, password));
    }

    /**
     * Lines 29-38: with the session fetched after signing up, `onSignupSuccess`
     * receives it; a thrown error shows its message or the fallback and the
     * callback is not called. Loading ends either way.
     */
    method Resolve(outcome: Result<Option<Api.Session>, string>) returns (notified: Callback<Option<Api.Session>>)
      modifies this
      ensures !loading
      ensures email == old(email) && password == old(password) && confirmPassword == old(confirmPassword)
      ensures outcome.Success? ==> notified == Called(outcome.value) && error == old(error)
      ensures outcome.Failure? ==> notified == NotCalled && error == MessageOr(outcome.error, SignUpFallback)
    {
      if outcome.Success? {
        notified := Called(outcome.value);
      } else {
        notified := NotCalled;
        error := MessageOr(outcome.error, SignUpFallback);
      }
      loading := false;
    }
  }

  class ResetPassword {
    var password: string
    var confirmPassword: string
    var error: string
    var loading: bool

    /** ResetPassword.jsx lines 6-9 */
    constructor()
      ensures password == "" && confirmPassword == "" && error == "" && !loading
    {
      password, confirmPassword := "", "";
      error := "";
      loading := false;
    }

    method SetPassword(v: string)
      modifies this
      ensures password == v && confirmPassword == old(confirmPassword)
      ensures error == old(error) && loading == old(loading)
    {
      password := v;
    }

    method SetConfirmPassword(v: string)
      modifies this
      ensures confirmPassword == v && password == old(password)
      ensures error == old(error) && loading == old(loading)
    {
      confirmPassword := v;
    }

    /**
     * Lines 11-28 up to `updatePassword`: the same acceptance as sign-up,
     * with `ResetCheck`'s error order; an acceptable pair starts loading and
     * asks for the new password to be stored.
     */
    method Submit() returns (update: Option<string>)
      modifies this
      ensures password == old(password) && confirmPassword == old(confirmPassword)
      ensures update.Some? <==> Acceptable(old(password), old(confirmPassword))
      ensures update.None? ==> error == ResetCheck(old(password), old(confirmPassword)).value && loading == old(loading)
      ensures update.Some? ==> update.value == old(password) && error == "" && loading
    {
      error := "";
      var problem := ResetCheck(password, confirmPassword);
      if problem.Some? {
        error := problem.value;
        return None;
      }
      loading := true;
      update := Some(password);
    }

    /**
     * Lines 28-37: success calls `onResetSuccess` once (after an alert);
     * failure (`failure` is the thrown message) shows it or the fallback and
     * does not call it. Loading ends either way.
     */
    method Resolve(failure: Option<string>) returns (notified: bool)
      modifies this
      ensures !loading
      ensures password == old(password) && confirmPassword == old(confirmPassword)
      ensures notified <==> failure.None?
      ensures failure.None? ==> error == old(error)
      ensures failure.Some? ==> error == MessageOr(failure.value, ResetFallback)
    {
      if failure.None? {
        notified := true;
      } else {
        notified := false;
        error := MessageOr(failure.value, ResetFallback);
      }
      loading := false;
    }
  }
}
