/**
 * The login page backed by the authentication store
 * (`src/pages/auth/Login.tsx`): after the shared checks the identifier and
 * password are sent as a login request, the store follows the request
 * through pending to fulfilled or rejected, and only a fulfilled login moves
 * to the dashboard. What the server answers is an input.
 */
module AuthLogin {
  import opened Wrappers
  import opened LoginCheck
  import opened AuthSlice

  /** "Please enter the name". */
  const NameMissing: string := "សូមបញ្ចូល ឈ្មោះ"
  /** "Please enter the password". */
  const PasswordMissing: string := "សូមបញ្ចូល ពាក្យសម្ងាត់"
  const DashboardRoute: string := "/dashboard"

  /** What the login request sends: the fields as typed, untrimmed. */
  datatype Credentials = Credentials(identifier: string, password: string)

  /** How the login request ends. */
  datatype LoginOutcome = Fulfilled(accessToken: string) | Rejected(message: string)

  function ErrorOf(r: CheckResult): (message: string)
    ensures message == "" <==> r == Ready
  {
    match r
    case MissingIdentifier => NameMissing
    case MissingPassword => PasswordMissing
    case Ready => ""
  }

  /** `localError || error`: the page's own error wins over the store's. */
  function ShownError(localError: string, storeError: Option<string>): (shown: string)
    ensures localError != "" ==> shown == localError
    ensures localError == "" && storeError.Some? ==> shown == storeError.value
    ensures shown == "" <==> localError == "" && (storeError.None? || storeError.value == "")
  {
    if localError != "" then localError
    else if storeError.Some? then storeError.value
    else ""
  }

  class AuthLoginForm {
    var identifier: string
    var password: string
    var localError: string

    constructor()
      ensures identifier == "" && password == "" && localError == ""
    {
      identifier := "";
      password := "";
      localError := "";
    }

    method SetIdentifier(text: string)
      modifies this
      ensures identifier == text && password == old(password) && localError == old(localError)
    {
      identifier := text;
    }

    method SetPassword(text: string)
      modifies this
      ensures password == text && identifier == old(identifier) && localError == old(localError)
    {
      password := text;
    }

    /**
     * `handleSubmit`: a blank field sets the page's error and sends nothing,
     * leaving the store alone. Otherwise the fields are sent, the store
     * passes through the pending state, and then either signs the admin in
     * and the page moves to the dashboard, or records the failure and the
     * page stays.
     */
    method HandleSubmit(store: AuthState, outcome: LoginOutcome) returns (sent: Option<Credentials>, navigateTo: Option<string>)
      requires store.Valid()
      modifies this, store
      ensures store.Valid()
      ensures localError == ErrorOf(Check(old(identifier), old(password)))
      ensures identifier == old(identifier) && password == old(password)
      ensures Check(old(identifier), old(password)) != Ready ==>
        sent == None && navigateTo == None
        && store.token == old(store.token) && store.isAuthenticated == old(store.isAuthenticated)
        && store.loading == old(store.loading) && store.error == old(store.error) && store.storedToken == old(store.storedToken)
      ensures Check(old(identifier), old(password)) == Ready ==>
        sent == Some(Credentials(old(identifier), old(password))) && !store.loading
      ensures Check(old(identifier), old(password)) == Ready && outcome.Fulfilled? ==>
        navigateTo == Some(DashboardRoute) && store.token == Some(outcome.accessToken)
        && store.isAuthenticated && store.error == None
      ensures Check(old(identifier), old(password)) == Ready && outcome.Rejected? ==>
        navigateTo == None && store.error == Some(outcome.message)
        && store.token == old(store.token) && store.isAuthenticated == old(store.isAuthenticated)
      ensures navigateTo.Some? <==> Check(old(identifier), old(password)) == Ready && outcome.Fulfilled?
    {
      localError := "";
      var check := Check(identifier, password);
      if check == MissingIdentifier {
        localError := NameMissing;
        return None, None;
      }
      if check == MissingPassword {
        localError := PasswordMissing;
        return None, None;
      }
      sent := Some(Credentials(identifier, password));
      store.LoginPending();
      match outcome {
        case Fulfilled(accessToken) =>
          store.LoginFulfilled(accessToken);
          navigateTo := Some(DashboardRoute);
        case Rejected(message) =>
          store.LoginRejected(message);
          navigateTo := None;
      }
    }
  }
}
