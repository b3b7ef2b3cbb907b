/** The session store of src/stores/authStore.js: the signed-in user's
    record (or none) and a loading flag, each overwritten by its setter. */
module Auth {
  import opened Seqs

  /** The user record the sign-in form builds. */
  datatype User = User(id: string, phone: string, countryCode: string, name: string, createdAt: int)

  datatype AuthData = AuthData(user: User, isAuthenticated: bool, token: string)

  class AuthStore {
    var authData: Option<AuthData>
    var isLoading: bool

    constructor ()
      ensures authData == None && !isLoading
    {
      authData := None;
      isLoading := false;
    }

    /** login: records the user and token as an authenticated session; the
        loading flag is left alone. */
    method Login(user: User, token: string)
      modifies this
      ensures authData == Some(AuthData(user, true, token))
      ensures authData.value.isAuthenticated
      ensures isLoading == old(isLoading)
    {
      authData := Some(AuthData(user, true, token));
    }

    /** logout: forgets the session; the loading flag is left alone. */
    method Logout()
      modifies this
      ensures authData == None
      ensures isLoading == old(isLoading)
    {
      authData := None;
    }

    /** setLoading: changes the loading flag and nothing else. */
    method SetLoading(loading: bool)
      modifies this
      ensures isLoading == loading
      ensures authData == old(authData)
    {
      isLoading := loading;
    }
  }
}
