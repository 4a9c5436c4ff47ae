/** `AuthProvider`: the React context holding the session. Its state is the auth
    state and a `loading` flag; `login` and `logout` update them in sequence and write
    the session store. The asynchronous login call is an abstract outcome, and the
    toasts it shows are not modelled. */
module AuthProvider {
  import opened Wrappers
  import opened LocalStorage
  import Auth
  import Api

  class Provider {
    const storage: Storage
    var authState: Auth.AuthState
    var loading: bool

    /** The initial state is read from the store with `getStoredAuth`, which may wipe a
        corrupt session; `loading` starts false. */
    constructor (storage: Storage)
      modifies storage
      ensures this.storage == storage
      ensures authState == Auth.StoredAuth(old(storage.items))
      ensures storage.items == Auth.AfterLoad(old(storage.items))
      ensures !loading
    {
      this.storage := storage;
      new;
      authState := Auth.GetStoredAuth(storage);
      loading := false;
    }

    /** The mount effect re-reads the store. */
    method Mount()
      modifies this, storage
      ensures authState == Auth.StoredAuth(old(storage.items))
      ensures storage.items == Auth.AfterLoad(old(storage.items))
      ensures loading == old(loading)
    {
      var stored := Auth.GetStoredAuth(storage);
      authState := stored;
    }

    /** `login(credentials)` given the outcome of `apiClient.login`: a response with data
        saves and adopts the session and answers true; a response without data or a
        thrown call answers false and touches neither the state nor the store. */
    method Login(call: Api.Call<Api.LoginResponse>) returns (ok: bool)
      modifies this, storage
      ensures ok <==> call.Returned? && call.response.data.Some?
      ensures ok ==>
        var r := call.response.data.value;
        && authState == Auth.AuthState(Auth.UserJson(r.user), Some(r.token), true)
        && storage.items == Auth.WithAuth(old(storage.items), r.token, r.user)
      ensures !ok ==> authState == old(authState) && storage.items == old(storage.items)
      ensures ok && call.response.data.value.token != "" ==> Auth.StoredAuth(storage.items) == authState
      ensures !loading
    {
      loading := true;
      match call {
        case Threw(_) =>
          ok := false;
        case Returned(response) =>
          if response.data.Some? {
            var token, user := response.data.value.token, response.data.value.user;
            Auth.SetAuth(storage, token, user);
            authState := Auth.AuthState(Auth.UserJson(user), Some(token), true);
            ok := true;
            if token != "" {
              Auth.SaveThenLoad(old(storage.items), token, user);
            }
          } else {
            ok := false;
          }
      }
      loading := false;
    }

    /** `logout()`: both session keys are removed and the state is logged out. */
    method Logout()
      modifies this, storage
      ensures authState == Auth.LoggedOut
      ensures storage.items == Auth.Cleared(old(storage.items))
      ensures Auth.StoredAuth(storage.items) == authState
      ensures loading == old(loading)
    {
      Auth.ClearAuth(storage);
      authState := Auth.LoggedOut;
      Auth.ClearThenLoad(old(storage.items));
    }
  }

}
