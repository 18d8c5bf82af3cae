/** The session store of src/context/AuthContext.jsx: the signed-in user, the
    last error, the loading flag, and the token kept in local storage. Each
    awaited call to the auth service is an outcome parameter; a thrown error is
    passed back to the caller as an `Err`. */
module Auth {
  import opened Base

  /** A signed-in user as the auth service returns it. */
  datatype User = User(id: string, email: string, firstName: string, lastName: string)

  /** A verify reply: `user` and `token` may each be absent. */
  datatype Session = Session(user: Option<User>, token: Option<string>)

  /** The one-time-password flows a resend can be for. */
  datatype OtpKind = SignupOtp | LoginOtp

  /** A request sent to the auth service. */
  datatype AuthCall =
    | CheckCall
    | SignupCall(email: string)
    | VerifySignupCall(email: string, otp: string, firstName: string, lastName: string)
    | LoginCall(email: string)
    | VerifyLoginCall(email: string, otp: string)
    | ResendCall(email: string, kind: OtpKind)
    | LogoutCall

  const TokenKey := "token"
  const NoProviderMessage := "useAuth must be used within an AuthProvider"

  /** The token storage after a verify reply: written only when the reply carries a token. */
  function StoreToken(storage: map<string, string>, token: Option<string>): (r: map<string, string>)
    ensures Truthy(token) ==> TokenKey in r && r[TokenKey] == token.value
    ensures !Truthy(token) ==> r == storage
    ensures forall k :: k in storage && k != TokenKey ==> k in r && r[k] == storage[k]
  {
    if token.Some? && token.value != "" then storage[TokenKey := token.value] else storage
  }

  class AuthProvider {
    var user: Option<User>
    var loading: bool
    var error: Option<string>
    /** The browser's local storage. */
    var storage: map<string, string>
    /** Requests sent to the auth service, oldest first. */
    var calls: seq<AuthCall>

    /** `isAuthenticated: !!user`. */
    predicate IsAuthenticated()
      reads this
    {
      user.Some?
    }

    /** The provider as first rendered: no user, loading, no error. */
    constructor (storage: map<string, string>)
      ensures user == None && loading && error == None && this.storage == storage && calls == []
      ensures !IsAuthenticated()
    {
      user := None;
      loading := true;
      error := None;
      this.storage := storage;
      calls := [];
    }

    /** `checkAuth()`: the user on success, none on failure; loading ends either way. */
    method CheckAuth(outcome: Result<User>)
      modifies this
      ensures user == (if outcome.Ok? then Some(outcome.value) else None)
      ensures IsAuthenticated() <==> outcome.Ok?
      ensures !loading
      ensures error == old(error) && storage == old(storage) && calls == old(calls) + [CheckCall]
    {
      loading := true;
      calls := calls + [CheckCall];
      match outcome {
        case Ok(u) => user := Some(u);
        case Err(_) => user := None;
      }
      loading := false;
    }

    /** The shape shared by `signup`, `login` and `resendOtp`: clear the error, make the
        request, and on failure record the message and rethrow. */
    method Request(call: AuthCall, outcome: Result<()>) returns (r: Result<()>)
      modifies this
      ensures r == outcome
      ensures error == (if outcome.Err? then Some(outcome.msg) else None)
      ensures calls == old(calls) + [call]
      ensures user == old(user) && loading == old(loading) && storage == old(storage)
    {
      error := None;
      calls := calls + [call];
      if outcome.Err? {
        error := Some(outcome.msg);
      }
      r := outcome;
    }

    /** `signup(email)`. */
    method Signup(email: string, outcome: Result<()>) returns (r: Result<()>)
      modifies this
      ensures r == outcome
      ensures error == (if outcome.Err? then Some(outcome.msg) else None)
      ensures calls == old(calls) + [SignupCall(email)]
      ensures user == old(user) && loading == old(loading) && storage == old(storage)
    {
      r := Request(SignupCall(email), outcome);
    }

    /** `login(email)`. */
    method Login(email: string, outcome: Result<()>) returns (r: Result<()>)
      modifies this
      ensures r == outcome
      ensures error == (if outcome.Err? then Some(outcome.msg) else None)
      ensures calls == old(calls) + [LoginCall(email)]
      ensures user == old(user) && loading == old(loading) && storage == old(storage)
    {
      r := Request(LoginCall(email), outcome);
    }

    /** `resendOtp({ email, type })`. */
    method ResendOtp(email: string, kind: OtpKind, outcome: Result<()>) returns (r: Result<()>)
      modifies this
      ensures r == outcome
      ensures error == (if outcome.Err? then Some(outcome.msg) else None)
      ensures calls == old(calls) + [ResendCall(email, kind)]
      ensures user == old(user) && loading == old(loading) && storage == old(storage)
    {
      r := Request(ResendCall(email, kind), outcome);
    }

    /** The shape shared by both verify functions: on success the user comes from the
        reply and the token is stored only when the reply has one; on failure the
        message is recorded, the user is kept, and the error is rethrown. */
    method Verify(call: AuthCall, outcome: Result<Session>) returns (r: Result<Session>)
      modifies this
      ensures r == outcome
      ensures outcome.Ok? ==> user == outcome.value.user && error == None
                              && storage == StoreToken(old(storage), outcome.value.token)
      ensures outcome.Err? ==> user == old(user) && error == Some(outcome.msg) && storage == old(storage)
      ensures calls == old(calls) + [call] && loading == old(loading)
    {
      error := None;
      calls := calls + [call];
      match outcome {
        case Ok(s) =>
          user := s.user;
          if s.token.Some? && s.token.value != "" {
            storage := storage[TokenKey := s.token.value];
          }
        case Err(msg) =>
          error := Some(msg);
      }
      r := outcome;
    }

    /** `verifySignupOtp({ email, otp, first_name, last_name })`. */
    method VerifySignupOtp(email: string, otp: string, firstName: string, lastName: string,
                           outcome: Result<Session>) returns (r: Result<Session>)
      modifies this
      ensures r == outcome
      ensures outcome.Ok? ==> user == outcome.value.user && error == None
                              && storage == StoreToken(old(storage), outcome.value.token)
      ensures outcome.Err? ==> user == old(user) && error == Some(outcome.msg) && storage == old(storage)
      ensures calls == old(calls) + [VerifySignupCall(email, otp, firstName, lastName)]
      ensures loading == old(loading)
    {
      r := Verify(VerifySignupCall(email, otp, firstName, lastName), outcome);
    }

    /** `verifyLoginOtp({ email, otp })`. */
    method VerifyLoginOtp(email: string, otp: string, outcome: Result<Session>) returns (r: Result<Session>)
      modifies this
      ensures r == outcome
      ensures outcome.Ok? ==> user == outcome.value.user && error == None
                              && storage == StoreToken(old(storage), outcome.value.token)
      ensures outcome.Err? ==> user == old(user) && error == Some(outcome.msg) && storage == old(storage)
      ensures calls == old(calls) + [VerifyLoginCall(email, otp)]
      ensures loading == old(loading)
    {
      r := Verify(VerifyLoginCall(email, otp), outcome);
    }

    /** `logout()`: on success the token is removed and the user cleared; on failure the
        user stays, the message is recorded and the error is rethrown. The error is not
        cleared first. */
    method Logout(outcome: Result<()>) returns (r: Result<()>)
      modifies this
      ensures r == outcome
      ensures outcome.Ok? ==> user == None && storage == old(storage) - {TokenKey} && error == old(error)
      ensures outcome.Ok? ==> !IsAuthenticated()
      ensures outcome.Err? ==> user == old(user) && storage == old(storage) && error == Some(outcome.msg)
      ensures calls == old(calls) + [LogoutCall] && loading == old(loading)
    {
      calls := calls + [LogoutCall];
      match outcome {
        case Ok(_) =>
          storage := storage - {TokenKey};
          user := None;
        case Err(msg) =>
          error := Some(msg);
      }
      r := outcome;
    }
  }

  /** `useAuth()`: the provider's value, or the error thrown outside a provider. */
  function UseAuth(context: Option<AuthProvider>): (r: Result<AuthProvider>)
    ensures context.Some? <==> r.Ok?
    ensures r.Ok? ==> r.value == context.value
    ensures r.Err? ==> r.msg == NoProviderMessage
  {
    match context
    case None => Err(NoProviderMessage)
    case Some(p) => Ok(p)
  }

  /** A login, a verify whose reply carries a user and a token, then a logout: the
      session is open with the token stored in between, and closed with the token
      gone afterwards. */
  method SessionLifecycle(auth: AuthProvider, email: string, otp: string, u: User, token: string)
    returns (openBetween: bool, storedBetween: Option<string>)
    requires token != ""
    modifies auth
    ensures openBetween && storedBetween == Some(token)
    ensures !auth.IsAuthenticated() && TokenKey !in auth.storage
    ensures auth.calls == old(auth.calls) + [LoginCall(email), VerifyLoginCall(email, otp), LogoutCall]
  {
    var sent := auth.Login(email, Ok(()));
    var verified := auth.VerifyLoginOtp(email, otp, Ok(Session(Some(u), Some(token))));
    openBetween := auth.IsAuthenticated();
    storedBetween := if TokenKey in auth.storage then Some(auth.storage[TokenKey]) else None;
    var out := auth.Logout(Ok(()));
  }
}
