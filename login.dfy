/** The two-step sign-in wizard of src/pages/LoginPage.jsx: an email step that
    asks for a one-time password, then an OTP step that opens the session and
    returns to the page the visitor first asked for. */
module Login {
  import opened Base
  import opened Auth
  import opened ProtectedRoute

  datatype Step = EmailStep | OtpStep

  /** A `navigate(to, { replace })` call. */
  datatype Navigation = Navigation(to: string, replace: bool)

  const DefaultTarget := "/dashboard"

  /** `location.state?.from?.pathname || '/dashboard'`. */
  function From(saved: Option<Location>): (r: string)
    ensures saved.Some? && saved.value.pathname != "" ==> r == saved.value.pathname
    ensures saved.None? || saved.value.pathname == "" ==> r == DefaultTarget
    ensures r != ""
  {
    if saved.Some? && saved.value.pathname != "" then saved.value.pathname else DefaultTarget
  }

  class LoginPage {
    const auth: AuthProvider
    const from: string
    var step: Step
    var email: string
    var otp: string
    var loading: bool
    var error: string
    var resending: bool
    /** Navigations requested, oldest first. */
    var navigations: seq<Navigation>

    constructor (auth: AuthProvider, saved: Option<Location>)
      ensures this.auth == auth && from == From(saved)
      ensures step == EmailStep && email == "" && otp == "" && !loading && error == "" && !resending
      ensures navigations == []
    {
      this.auth := auth;
      from := From(saved);
      step := EmailStep;
      email := "";
      otp := "";
      loading := false;
      error := "";
      resending := false;
      navigations := [];
    }

    /** `handleEmailSubmit(e)`: nothing without an email; the OTP step follows only a
        successful login request, and a failure shows its message. */
    method HandleEmailSubmit(outcome: Result<()>)
      modifies this, auth
      ensures old(email) == "" ==>
                step == old(step) && error == old(error) && loading == old(loading)
                && auth.calls == old(auth.calls) && auth.error == old(auth.error)
      ensures old(email) != "" ==>
                && auth.calls == old(auth.calls) + [LoginCall(old(email))] && !loading
                && step == (if outcome.Ok? then OtpStep else old(step))
                && error == (if outcome.Ok? then "" else outcome.msg)
      ensures old(email) != "" ==> auth.error == (if outcome.Ok? then None else Some(outcome.msg))
      ensures auth.user == old(auth.user) && auth.storage == old(auth.storage) && auth.loading == old(auth.loading)
      ensures email == old(email) && otp == old(otp) && navigations == old(navigations)
      ensures resending == old(resending)
    {
      if email == "" {
        return;
      }
      loading := true;
      error := "";
      var r := auth.Login(email, outcome);
      if r.Ok? {
        step := OtpStep;
      } else {
        error := r.msg;
      }
      loading := false;
    }

    /** `handleOtpSubmit(e)`: nothing without a code; a successful verify opens the
        session and goes back to `from`, replacing the login entry. */
    method HandleOtpSubmit(outcome: Result<Session>)
      modifies this, auth
      ensures old(otp) == "" ==>
                navigations == old(navigations) && error == old(error) && loading == old(loading)
                && auth.calls == old(auth.calls) && auth.user == old(auth.user)
                && auth.storage == old(auth.storage) && auth.error == old(auth.error)
      ensures old(otp) != "" ==>
                auth.calls == old(auth.calls) + [VerifyLoginCall(old(email), old(otp))] && !loading
      ensures old(otp) != "" && outcome.Ok? ==>
                && navigations == old(navigations) + [Navigation(from, true)] && error == ""
                && auth.user == outcome.value.user
                && auth.storage == StoreToken(old(auth.storage), outcome.value.token) && auth.error == None
      ensures old(otp) != "" && outcome.Err? ==>
                && navigations == old(navigations) && error == outcome.msg && auth.user == old(auth.user)
                && auth.storage == old(auth.storage) && auth.error == Some(outcome.msg)
      ensures step == old(step) && email == old(email) && otp == old(otp)
      ensures resending == old(resending) && auth.loading == old(auth.loading)
    {
      if otp == "" {
        return;
      }
      loading := true;
      error := "";
      var r := auth.VerifyLoginOtp(email, otp, outcome);
      if r.Ok? {
        navigations := navigations + [Navigation(from, true)];
      } else {
        error := r.msg;
      }
      loading := false;
    }

    /** `handleResendOtp()`: asks for a new login code for the current email. */
    method HandleResendOtp(outcome: Result<()>)
      modifies this, auth
      ensures auth.calls == old(auth.calls) + [ResendCall(old(email), LoginOtp)]
      ensures error == (if outcome.Ok? then "" else outcome.msg)
      ensures auth.error == (if outcome.Ok? then None else Some(outcome.msg))
      ensures !resending
      ensures auth.user == old(auth.user) && auth.storage == old(auth.storage) && auth.loading == old(auth.loading)
      ensures step == old(step) && email == old(email) && otp == old(otp)
      ensures navigations == old(navigations) && loading == old(loading)
    {
      resending := true;
      error := "";
      var r := auth.ResendOtp(email, LoginOtp, outcome);
      if r.Err? {
        error := r.msg;
      }
      resending := false;
    }

    /** "Use a different email": back to the email step with the code and the error
        cleared; the email is kept. */
    method UseDifferentEmail()
      modifies this
      ensures step == EmailStep && otp == "" && error == ""
      ensures email == old(email) && loading == old(loading) && navigations == old(navigations)
      ensures resending == old(resending)
    {
      step := EmailStep;
      otp := "";
      error := "";
    }
  }
}
