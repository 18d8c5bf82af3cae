/** The two-step registration wizard of src/pages/SignupPage.jsx: an email step
    that asks for a one-time password, then a step that sends the code with the
    new user's names and opens the session. */
module Signup {
  import opened Base
  import opened Auth

  datatype Step = EmailStep | OtpStep

  /** The wizard's fields. */
  datatype SignupForm = SignupForm(email: string, firstName: string, lastName: string, otp: string)

  const EmptyForm := SignupForm("", "", "", "")

  datatype Field = EmailField | FirstNameField | LastNameField | OtpField

  /** A `navigate(to, { replace })` call. */
  datatype Navigation = Navigation(to: string, replace: bool)

  const DashboardPath := "/dashboard"

  /** `{ ...prev, [field]: value }`: that one field takes the value. */
  function WithField(f: SignupForm, field: Field, value: string): (r: SignupForm)
    ensures field == EmailField ==> r == f.(email := value)
    ensures field == FirstNameField ==> r == f.(firstName := value)
    ensures field == LastNameField ==> r == f.(lastName := value)
    ensures field == OtpField ==> r == f.(otp := value)
  {
    match field
    case EmailField => f.(email := value)
    case FirstNameField => f.(firstName := value)
    case LastNameField => f.(lastName := value)
    case OtpField => f.(otp := value)
  }

  /** The value a field holds. */
  function Get(f: SignupForm, field: Field): string {
    match field
    case EmailField => f.email
    case FirstNameField => f.firstName
    case LastNameField => f.lastName
    case OtpField => f.otp
  }

  /** Editing a field: it reads back the new value and every other field is unchanged. */
  lemma WithFieldOnlyThatField(f: SignupForm, field: Field, value: string)
    ensures Get(WithField(f, field, value), field) == value
    ensures forall g :: g != field ==> Get(WithField(f, field, value), g) == Get(f, g)
  {
  }

  /** The OTP submit guard: the code and both names are required. */
  predicate CanVerify(f: SignupForm) {
    f.otp != "" && f.firstName != "" && f.lastName != ""
  }

  /** The back button's form: the email is kept and everything else emptied. */
  function BackForm(f: SignupForm): (r: SignupForm)
    ensures r.email == f.email && r.otp == "" && r.firstName == "" && r.lastName == ""
  {
    f.(otp := "", firstName := "", lastName := "")
  }

  class SignupPage {
    const auth: AuthProvider
    var step: Step
    var form: SignupForm
    var loading: bool
    var error: string
    var resending: bool
    /** Navigations requested, oldest first. */
    var navigations: seq<Navigation>

    constructor (auth: AuthProvider)
      ensures this.auth == auth && step == EmailStep && form == EmptyForm
      ensures !loading && error == "" && !resending && navigations == []
    {
      this.auth := auth;
      step := EmailStep;
      form := EmptyForm;
      loading := false;
      error := "";
      resending := false;
      navigations := [];
    }

    /** `handleChange(field)(e)`: that field takes the value and the error is cleared. */
    method HandleChange(field: Field, value: string)
      modifies this
      ensures form == WithField(old(form), field, value) && error == ""
      ensures step == old(step) && loading == old(loading) && navigations == old(navigations)
      ensures resending == old(resending)
    {
      form := WithField(form, field, value);
      error := "";
    }

    /** `handleEmailSubmit(e)`: nothing without an email; the OTP step follows only a
        successful signup request, and a failure shows its message. */
    method HandleEmailSubmit(outcome: Result<()>)
      modifies this, auth
      ensures old(form.email) == "" ==>
                step == old(step) && error == old(error) && loading == old(loading)
                && auth.calls == old(auth.calls) && auth.error == old(auth.error)
      ensures old(form.email) != "" ==>
                && auth.calls == old(auth.calls) + [SignupCall(old(form.email))] && !loading
                && step == (if outcome.Ok? then OtpStep else old(step))
                && error == (if outcome.Ok? then "" else outcome.msg)
      ensures old(form.email) != "" ==> auth.error == (if outcome.Ok? then None else Some(outcome.msg))
      ensures auth.user == old(auth.user) && auth.storage == old(auth.storage) && auth.loading == old(auth.loading)
      ensures form == old(form) && navigations == old(navigations)
      ensures resending == old(resending)
    {
      if form.email == "" {
        return;
      }
      loading := true;
      error := "";
      var r := auth.Signup(form.email, outcome);
      if r.Ok? {
        step := OtpStep;
      } else {
        error := r.msg;
      }
      loading := false;
    }

    /** `handleOtpSubmit(e)`: needs the code and both names; a successful verify opens
        the session and goes to the dashboard, replacing the signup entry. */
    method HandleOtpSubmit(outcome: Result<Session>)
      modifies this, auth
      ensures !CanVerify(old(form)) ==>
                navigations == old(navigations) && error == old(error) && loading == old(loading)
                && auth.calls == old(auth.calls) && auth.user == old(auth.user)
                && auth.storage == old(auth.storage) && auth.error == old(auth.error)
      ensures CanVerify(old(form)) ==>
                && auth.calls == old(auth.calls)
                     + [VerifySignupCall(old(form.email), old(form.otp), old(form.firstName), old(form.lastName))]
                && !loading
      ensures CanVerify(old(form)) && outcome.Ok? ==>
                && navigations == old(navigations) + [Navigation(DashboardPath, true)] && error == ""
                && auth.user == outcome.value.user
                && auth.storage == StoreToken(old(auth.storage), outcome.value.token) && auth.error == None
      ensures CanVerify(old(form)) && outcome.Err? ==>
                && navigations == old(navigations) && error == outcome.msg && auth.user == old(auth.user)
                && auth.storage == old(auth.storage) && auth.error == Some(outcome.msg)
      ensures step == old(step) && form == old(form)
      ensures resending == old(resending) && auth.loading == old(auth.loading)
    {
      if form.otp == "" || form.firstName == "" || form.lastName == "" {
        return;
      }
      loading := true;
      error := "";
      var r := auth.VerifySignupOtp(form.email, form.otp, form.firstName, form.lastName, outcome);
      if r.Ok? {
        navigations := navigations + [Navigation(DashboardPath, true)];
      } else {
        error := r.msg;
      }
      loading := false;
    }

    /** `handleResendOtp()`: asks for a new signup code for the current email. */
    method HandleResendOtp(outcome: Result<()>)
      modifies this, auth
      ensures auth.calls == old(auth.calls) + [ResendCall(old(form.email), SignupOtp)]
      ensures error == (if outcome.Ok? then "" else outcome.msg)
      ensures auth.error == (if outcome.Ok? then None else Some(outcome.msg))
      ensures !resending
      ensures auth.user == old(auth.user) && auth.storage == old(auth.storage) && auth.loading == old(auth.loading)
      ensures step == old(step) && form == old(form)
      ensures navigations == old(navigations) && loading == old(loading)
    {
      resending := true;
      error := "";
      var r := auth.ResendOtp(form.email, SignupOtp, outcome);
      if r.Err? {
        error := r.msg;
      }
      resending := false;
    }

    /** The back button: the email step again, with the code, the names and the error
        cleared; the email is kept. */
    method Back()
      modifies this
      ensures step == EmailStep && form == BackForm(old(form)) && error == ""
      ensures loading == old(loading) && navigations == old(navigations) && resending == old(resending)
    {
      step := EmailStep;
      form := form.(otp := "", firstName := "", lastName := "");
      error := "";
    }
  }
}
