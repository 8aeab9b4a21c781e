/**
 * The authentication store (`src/store/auth/authSlice.ts` with the record of
 * `src/store/auth/authTypes.ts`): the admin token, whether the admin is
 * signed in, and the loading flag and error of the login request. The token
 * kept in the browser's storage is a field of its own.
 */
module AuthSlice {
  import opened Wrappers

  /** The message a failed login carries when the server gives none. */
  const LoginFailed: string := "Login failed"

  class AuthState {
    var token: Option<string>
    var isAuthenticated: bool
    var loading: bool
    var error: Option<string>
    /** The `admin_token` entry of the browser's storage. */
    var storedToken: Option<string>

    /** The token in the store is the stored one, and a signed-in admin holds a token. */
    ghost predicate Valid()
      reads this
    {
      token == storedToken && (isAuthenticated ==> token.Some?)
    }

    /**
     * The initial state reads the stored token; the admin counts as signed
     * in only when that token is present and not empty.
     */
    constructor(stored: Option<string>)
      ensures Valid()
      ensures token == stored && storedToken == stored
      ensures isAuthenticated <==> stored.Some? && stored.value != ""
      ensures !loading && error == None
    {
      token := stored;
      storedToken := stored;
      isAuthenticated := stored.Some? && stored.value != "";
      loading := false;
      error := None;
    }

    /** `logout`: the token is dropped, from the store and from storage. */
    method Logout()
      requires Valid()
      modifies this
      ensures Valid()
      ensures token == None && storedToken == None && !isAuthenticated
      ensures loading == old(loading) && error == old(error)
    {
      token := None;
      isAuthenticated := false;
      storedToken := None;
    }

    /** `adminLogin.pending` */
    method LoginPending()
      requires Valid()
      modifies this
      ensures Valid()
      ensures loading && error == None
      ensures token == old(token) && isAuthenticated == old(isAuthenticated) && storedToken == old(storedToken)
    {
      loading := true;
      error := None;
    }

    /** `adminLogin.fulfilled`: the access token is kept and stored, and the admin is signed in. */
    method LoginFulfilled(accessToken: string)
      requires Valid()
      modifies this
      ensures Valid()
      ensures !loading && token == Some(accessToken) && storedToken == Some(accessToken) && isAuthenticated
      ensures error == old(error)
    {
      loading := false;
      token := Some(accessToken);
      isAuthenticated := true;
      storedToken := Some(accessToken);
    }

    /** `adminLogin.rejected`: the error is kept; the token and sign-in are left as they were. */
    method LoginRejected(message: string)
      requires Valid()
      modifies this
      ensures Valid()
      ensures !loading && error == Some(message)
      ensures token == old(token) && isAuthenticated == old(isAuthenticated) && storedToken == old(storedToken)
    {
      loading := false;
      error := Some(message);
    }
  }
}
