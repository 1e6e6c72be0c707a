/**
 * The forgot-password form (components/ForgotPassword.jsx): the email guard
 * and the `loading`, `error` and `sent` fields around `sendPasswordReset`.
 */
module ForgotPasswordView {
  import opened Wrappers

  const EnterEmail := "Please enter your email address"

  class ForgotPassword {
    var email: string
    var sent: bool
    var loading: bool
    var error: string

    /** Lines 6-9 */
    constructor()
      ensures email == "" && !sent && !loading && error == ""
    {
      email := "";
      sent := false;
      loading := false;
      error := "";
    }

    /** Line 48: the email form is rendered only until the link is sent. */
    predicate FormOffered()
      reads this
      ensures FormOffered() <==> !sent
    {
      !sent
    }

    /** Line 57 */
    method SetEmail(v: string)
      modifies this
      ensures email == v && sent == old(sent) && loading == old(loading) && error == old(error)
    {
      email := v;
    }

    /**
     * Lines 11-18 up to the request: an empty email shows the prompt and
     * sends nothing, leaving loading and sent alone; otherwise loading
     * starts, the error is cleared and a reset link is requested for it.
     */
    method Submit() returns (request: Option<string>)
      modifies this
      ensures email == old(email) && sent == old(sent)
      ensures old(email) == "" ==> request.None? && error == EnterEmail && loading == old(loading)
      ensures old(email) != "" ==> request == Some(old(email)) && error == "" && loading
    {
      if email == "" {
        error := EnterEmail;
        return None;
      }
      loading := true;
      error := "";
      request := Some(email);
    }

    /**
     * Lines 18-23: success marks the link sent; failure (`failure` is the
     * thrown message) shows it and leaves `sent` alone. Loading ends either
     * way, and once sent the form stays withdrawn.
     */
    method Resolve(failure: Option<string>)
      modifies this
      ensures !loading && email == old(email)
      ensures failure.None? ==> sent && error == old(error)
      ensures failure.Some? ==> sent == old(sent) && error == failure.value
      ensures !old(FormOffered()) ==> !FormOffered()
    {
      if failure.None? {
        sent := true;
      } else {
        error := failure.value;
      }
      loading := false;
    }
  }
}
