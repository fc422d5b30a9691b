/** The customer app's session store (clientes/store/authStore.ts). Besides the
    store's own fields it keeps, as abstract state, the `Authorization`
    default header that `setAuthToken` (clientes/services/authApi.ts)
    installs on the API clients. */
module ClientesAuth {
  import opened Common
  import opened AuthSession

  /** `setAuthToken(token)`: a truthy token installs `Bearer <token>`, any
      other value deletes the header. */
  function AuthHeaderFor(token: Option<string>): (h: Option<string>)
    ensures h.Some? <==> Truthy(token)
    ensures h.Some? ==> h.value == "Bearer " + token.value && |h.value| > |"Bearer "|
  {
    if Truthy(token) then Some("Bearer " + token.value) else None
  }

  class AuthStore {
    var user: Option<User>
    var token: Option<string>
    var refreshToken: Option<string>
    var isAuthenticated: bool
    var isLoading: bool
    /** The `Authorization` default header of the API clients. */
    var authHeader: Option<string>

    /** An authenticated session always holds a user and both tokens. */
    ghost predicate Valid()
      reads this
    {
      isAuthenticated ==> user.Some? && token.Some? && refreshToken.Some?
    }

    /** The initial state: signed out, still loading, no header. */
    constructor()
      ensures Valid()
      ensures user.None? && token.None? && refreshToken.None?
      ensures !isAuthenticated && isLoading && authHeader.None?
    {
      user := None;
      token := None;
      refreshToken := None;
      isAuthenticated := false;
      isLoading := true;
      authHeader := None;
    }

    /** `partialize`: everything but `isLoading` (the header is not store
        state and is never persisted either). */
    function Partialize(): (p: Persisted)
      reads this
      ensures p.isAuthenticated == isAuthenticated && p.token == token
      ensures p.user == user && p.refreshToken == refreshToken
    {
      Persisted(user, token, refreshToken, isAuthenticated)
    }

    /** The `persist` middleware's rehydration at start-up: the persisted
        part of the stored record is merged back into the state. */
    method Rehydrate(e: Envelope)
      requires Consistent(e.state)
      modifies this
      ensures Valid()
      ensures Partialize() == e.state
      ensures isLoading == old(isLoading) && authHeader == old(authHeader)
    {
      user, token, refreshToken := e.state.user, e.state.token, e.state.refreshToken;
      isAuthenticated := e.state.isAuthenticated;
    }

    /** `setAuth`: installs the header, then stores the session. */
    method SetAuth(u: User, t: string, rt: string)
      modifies this
      ensures Valid()
      ensures authHeader == AuthHeaderFor(Some(t))
      ensures user == Some(u) && token == Some(t) && refreshToken == Some(rt)
      ensures isAuthenticated && !isLoading
    {
      authHeader := AuthHeaderFor(Some(t));
      user, token, refreshToken := Some(u), Some(t), Some(rt);
      isAuthenticated, isLoading := true, false;
    }

    /** `logout`: removes the header and clears the session. */
    method Logout()
      modifies this
      ensures Valid()
      ensures authHeader.None?
      ensures user.None? && token.None? && refreshToken.None?
      ensures !isAuthenticated && !isLoading
    {
      authHeader := AuthHeaderFor(None);
      user, token, refreshToken := None, None, None;
      isAuthenticated, isLoading := false, false;
    }

    /** `updateUser`. */
    method UpdateUser(patch: User)
      requires Valid()
      modifies this
      ensures Valid()
      ensures old(user).None? ==> user.None?
      ensures old(user).Some? ==> user == Some(MergeUser(old(user).value, patch))
      ensures token == old(token) && refreshToken == old(refreshToken) && authHeader == old(authHeader)
      ensures isAuthenticated == old(isAuthenticated) && isLoading == old(isLoading)
    {
      if user.Some? {
        user := Some(MergeUser(user.value, patch));
      }
    }

    /** `setLoading`. */
    method SetLoading(loading: bool)
      requires Valid()
      modifies this
      ensures Valid()
      ensures isLoading == loading
      ensures user == old(user) && token == old(token) && refreshToken == old(refreshToken)
      ensures isAuthenticated == old(isAuthenticated) && authHeader == old(authHeader)
      ensures Partialize() == old(Partialize())
    {
      isLoading := loading;
    }

    /** `initialize`, given what the storage read produced: a stored truthy
        token is installed as the header; the session fields, including
        `isAuthenticated`, are never touched; loading always ends. */
    method Initialize(read: StorageRead)
      requires Valid()
      modifies this
      ensures Valid()
      ensures !isLoading
      ensures user == old(user) && token == old(token) && refreshToken == old(refreshToken)
      ensures isAuthenticated == old(isAuthenticated)
      ensures read.Stored? && Truthy(read.token) ==> authHeader == AuthHeaderFor(read.token)
      ensures !(read.Stored? && Truthy(read.token)) ==> authHeader == old(authHeader)
    {
      isLoading := true;
      if read.Stored? && Truthy(read.token) {
        authHeader := AuthHeaderFor(read.token);
      }
      isLoading := false;
    }
  }

  /** Unlike the sales-rep store, a failed or empty restore does not sign the
      user out: a session stays authenticated through it. */
  method FailedRestoreKeepsSession(u: User, t: string, rt: string) returns (authenticated: bool, header: Option<string>)
    requires t != ""
    ensures authenticated
    ensures header == Some("Bearer " + t)
  {
    var store := new AuthStore();
    store.SetAuth(u, t, rt);
    store.Initialize(ReadFailed);
    authenticated := store.isAuthenticated;
    header := store.authHeader;
  }

  /** An app restart after signing in: rehydration brings the session back,
      but `initialize` finds no top-level token in the record it reads, so
      the session stays authenticated with no `Authorization` header. */
  method RestartLeavesNoHeader(u: User, t: string, rt: string) returns (authenticated: bool, header: Option<string>)
    requires t != ""
    ensures authenticated && header.None?
  {
    var before := new AuthStore();
    before.SetAuth(u, t, rt);
    var written := Envelope(before.Partialize(), DefaultVersion);
    var store := new AuthStore();
    store.Rehydrate(written);
    store.Initialize(ReadEnvelope(written));
    authenticated := store.isAuthenticated;
    header := store.authHeader;
  }
}
