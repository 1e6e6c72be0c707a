/**
 * The root component (src/App.jsx): the `session`/`loading` pair that picks
 * the view, the auth-change subscription and logout, and the combined
 * login/sign-up form `AuthForm`. Each Supabase call is a parameter: the
 * session it yields, or the thrown error's message.
 */
module RootApp {
  import opened Wrappers
  import opened Js
  import Api

  datatype View = LoadingView | AuthFormView | DashboardView

  /** Lines 106-117: loading wins; then no session means the auth form. */
  function ViewOf(loading: bool, session: Option<Api.Session>): (v: View)
    ensures loading <==> v == LoadingView
    ensures v == AuthFormView <==> !loading && session.None?
    ensures v == DashboardView <==> !loading && session.Some?
  {
    if loading then LoadingView
    else if session.None? then AuthFormView
    else DashboardView
  }

  /** The kinds of notification `onAuthStateChange` delivers; the handler ignores them. */
  datatype AuthEvent = SignedIn | SignedOut | TokenRefreshed | UserUpdated | PasswordRecovery | OtherEvent

  class App {
    var session: Option<Api.Session>
    var loading: bool

    /** Lines 77-79 */
    constructor()
      ensures session.None? && loading
      ensures View() == LoadingView
    {
      session := None;
      loading := true;
    }

    /** Lines 106-117: the view rendered from the current state. */
    function View(): (v: View)
      reads this
      ensures loading ==> v == LoadingView
      ensures !loading ==> (v == DashboardView <==> session.Some?)
    {
      ViewOf(loading, session)
    }

    /** Lines 83-86: the first lookup stores its session and ends loading. */
    method InitialSessionResolved(s: Option<Api.Session>)
      modifies this
      ensures session == s && !loading
      ensures View() == (if s.None? then AuthFormView else DashboardView)
    {
      session := s;
      loading := false;
    }

    /** Lines 90-92: every notification stores its session, whatever the event. */
    method AuthStateChanged(event: AuthEvent, s: Option<Api.Session>)
      modifies this
      ensures session == s && loading == old(loading)
    {
      session := s;
    }

    /** Line 110: the auth form's `onAuthed` is `setSession`. */
    method OnAuthed(s: Option<Api.Session>)
      modifies this
      ensures session == s && loading == old(loading)
    {
      session := s;
    }

    /** Line 114: the logout button first asks Supabase to sign out; nothing changes yet. */
    method Logout() returns (call: AuthCall)
      ensures call == SignOutCall
    {
      call := SignOutCall;
    }

    /**
     * Lines 115-116: once `signOut()` resolves the session is cleared, so
     * the auth form is next; if it throws, `setSession(null)` never runs.
     */
    method LogoutResolved(signedOut: bool)
      modifies this
      ensures signedOut ==> session.None?
      ensures !signedOut ==> session == old(session)
      ensures loading == old(loading)
      ensures signedOut && !loading ==> View() == AuthFormView
    {
      if signedOut {
        session := None;
      }
    }
  }

  datatype Mode = Login | SignUp

  /** Line 65 */
  function Toggled(m: Mode): (r: Mode)
    ensures r != m
  {
    if m == Login then SignUp else Login
  }

  lemma ToggledTwice(m: Mode)
    ensures Toggled(Toggled(m)) == m
  {
  }

  /** The Supabase auth call a handler makes before its `await`. */
  datatype AuthCall = SignInCall(email: string, password: string) | SignUpCall(email: string, password: string) | SignOutCall

  class AuthForm {
    var mode: Mode
    var email: string
    var password: string
    var error: string

    /** Lines 8-11 */
    constructor()
      ensures mode == Login && email == "" && password == "" && error == ""
    {
      mode := Login;
      email, password := "", "";
      error := "";
    }

    method SetEmail(v: string)
      modifies this
      ensures email == v && mode == old(mode) && password == old(password) && error == old(error)
    {
      email := v;
    }

    method SetPassword(v: string)
      modifies this
      ensures password == v && mode == old(mode) && email == old(email) && error == old(error)
    {
      password := v;
    }

    /** Line 65 */
    method ToggleMode()
      modifies this
      ensures mode == Toggled(old(mode))
      ensures email == old(email) && password == old(password) && error == old(error)
    {
      mode := Toggled(mode);
    }

    /** Lines 14-23: the error is cleared, then login mode signs in and sign-up mode signs up. */
    method Submit() returns (call: AuthCall)
      modifies this
      ensures error == "" && mode == old(mode) && email == old(email) && password == old(password)
      ensures old(mode) == Login ==> call == SignInCall(old(email), old(password))
      ensures old(mode) == SignUp ==> call == SignUpCall(old(email), old(password))
    {
      error := "";
      if mode == Login {
        call := SignInCall(email, password);
      } else {
        call := SignUpCall(email, password);
      }
    }

    /**
     * Lines 26-30: the session fetched afterwards goes to `onAuthed`; a
     * thrown error shows its message and `onAuthed` is not called.
     */
    method Resolve(outcome: Result<Option<Api.Session>, string>) returns (authed: Callback<Option<Api.Session>>)
      modifies this
      ensures mode == old(mode) && email == old(email) && password == old(password)
      ensures outcome.Success? ==> authed == Called(outcome.value) && error == old(error)
      ensures outcome.Failure? ==> authed == NotCalled && error == outcome.error
    {
      if outcome.Success? {
        authed := Called(outcome.value);
      } else {
        authed := NotCalled;
        error := outcome.error;
      }
    }
  }
}
