/** The authentication store slice (apps/web/src/store/slices/authSlice.ts). The token
    read from and written to localStorage is outside the slice: the stored token is a
    constructor parameter. */
module AuthSlice {
  import opened Common
  import opened WebTypes

  class AuthState {
    var user: Option<User>
    var token: Option<string>
    var isAuthenticated: bool
    var isLoading: bool
    var error: Option<string>

    /** Every transition keeps this: an authenticated state always has a user. */
    predicate Valid()
      reads this
    {
      isAuthenticated ==> user.Some?
    }

    /** The initial state takes the stored token but is not authenticated. */
    constructor(storedToken: Option<string>)
      ensures user == None && token == storedToken && !isAuthenticated && !isLoading && error == None
      ensures Valid()
    {
      user := None;
      token := storedToken;
      isAuthenticated := false;
      isLoading := false;
      error := None;
    }

    method Logout()
      requires Valid()
      modifies this
      ensures user == None && token == None && !isAuthenticated
      ensures isLoading == old(isLoading) && error == old(error)
      ensures Valid()
    {
      user := None;
      token := None;
      isAuthenticated := false;
    }

    method ClearError()
      requires Valid()
      modifies this
      ensures error == None
      ensures user == old(user) && token == old(token) && isAuthenticated == old(isAuthenticated) && isLoading == old(isLoading)
      ensures Valid()
    {
      error := None;
    }

    /** login.pending and register.pending. */
    method Pending()
      requires Valid()
      modifies this
      ensures isLoading && error == None
      ensures user == old(user) && token == old(token) && isAuthenticated == old(isAuthenticated)
      ensures Valid()
    {
      isLoading := true;
      error := None;
    }

    /** login.fulfilled and register.fulfilled: user and token come from the response. */
    method Fulfilled(payloadUser: User, payloadToken: string)
      requires Valid()
      modifies this
      ensures !isLoading && isAuthenticated && user == Some(payloadUser) && token == Some(payloadToken)
      ensures error == old(error)
      ensures Valid()
    {
      isLoading := false;
      isAuthenticated := true;
      user := Some(payloadUser);
      token := Some(payloadToken);
    }

    /** login.rejected (fallback "Login failed") and register.rejected (fallback
        "Registration failed"); authentication is left as it was. */
    method Rejected(message: Option<string>, fallback: string)
      requires Valid()
      modifies this
      ensures !isLoading && error == Some(OrDefault(message, fallback))
      ensures user == old(user) && token == old(token) && isAuthenticated == old(isAuthenticated)
      ensures Valid()
    {
      isLoading := false;
      error := Some(OrDefault(message, fallback));
    }

    method LoginRejected(message: Option<string>)
      requires Valid()
      modifies this
      ensures !isLoading && error == Some(OrDefault(message, "Login failed"))
      ensures user == old(user) && token == old(token) && isAuthenticated == old(isAuthenticated)
      ensures Valid()
    {
      Rejected(message, "Login failed");
    }

    method RegisterRejected(message: Option<string>)
      requires Valid()
      modifies this
      ensures !isLoading && error == Some(OrDefault(message, "Registration failed"))
      ensures user == old(user) && token == old(token) && isAuthenticated == old(isAuthenticated)
      ensures Valid()
    {
      Rejected(message, "Registration failed");
    }

    method FetchCurrentUserFulfilled(payload: User)
      requires Valid()
      modifies this
      ensures user == Some(payload) && isAuthenticated
      ensures token == old(token) && isLoading == old(isLoading) && error == old(error)
      ensures Valid()
    {
      user := Some(payload);
      isAuthenticated := true;
    }

    /** fetchCurrentUser.rejected clears only the token. */
    method FetchCurrentUserRejected()
      requires Valid()
      modifies this
      ensures token == None
      ensures user == old(user) && isAuthenticated == old(isAuthenticated) && isLoading == old(isLoading) && error == old(error)
      ensures Valid()
    {
      token := None;
    }
  }
}
