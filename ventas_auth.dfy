/** The sales-rep app's session store (ventas/store/authStore.ts). */
module VentasAuth {
  import opened Common
  import opened AuthSession

  class AuthStore {
    var user: Option<User>
    var token: Option<string>
    var refreshToken: Option<string>
    var isAuthenticated: bool
    var isLoading: bool

    /** An authenticated session always holds a user and both tokens. */
    ghost predicate Valid()
      reads this
    {
      isAuthenticated ==> user.Some? && token.Some? && refreshToken.Some?
    }

    /** The initial state: signed out, still loading. */
    constructor()
      ensures Valid()
      ensures user.None? && token.None? && refreshToken.None?
      ensures !isAuthenticated && isLoading
    {
      user := None;
      token := None;
      refreshToken := None;
      isAuthenticated := false;
      isLoading := true;
    }

    /** `partialize`: everything but `isLoading`. */
    function Partialize(): (p: Persisted)
      reads this
      ensures p.isAuthenticated == isAuthenticated && p.token == token
      ensures p.user == user && p.refreshToken == refreshToken
    {
      Persisted(user, token, refreshToken, isAuthenticated)
    }

    /** The `persist` middleware's rehydration at start-up: the persisted
        part of the stored record is merged back into the state. */
    method Rehydrate(e: Envelope)
      requires Consistent(e.state)
      modifies this
      ensures Valid()
      ensures Partialize() == e.state
      ensures isLoading == old(isLoading)
    {
      user, token, refreshToken := e.state.user, e.state.token, e.state.refreshToken;
      isAuthenticated := e.state.isAuthenticated;
    }

    /** `setAuth`. */
    method SetAuth(u: User, t: string, rt: string)
      modifies this
      ensures Valid()
      ensures user == Some(u) && token == Some(t) && refreshToken == Some(rt)
      ensures isAuthenticated && !isLoading
    {
      user, token, refreshToken := Some(u), Some(t), Some(rt);
      isAuthenticated, isLoading := true, false;
    }

    /** `logout`. */
    method Logout()
      modifies this
      ensures Valid()
      ensures user.None? && token.None? && refreshToken.None?
      ensures !isAuthenticated && !isLoading
      ensures Partialize() == Persisted(None, None, None, false)
    {
      user, token, refreshToken := None, None, None;
      isAuthenticated, isLoading := false, false;
    }

    /** `updateUser`: merges the patch into the current user, and does
        nothing when there is none. */
    method UpdateUser(patch: User)
      requires Valid()
      modifies this
      ensures Valid()
      ensures old(user).None? ==> user.None?
      ensures old(user).Some? ==> user == Some(MergeUser(old(user).value, patch))
      ensures token == old(token) && refreshToken == old(refreshToken)
      ensures isAuthenticated == old(isAuthenticated) && isLoading == old(isLoading)
    {
      if user.Some? {
        user := Some(MergeUser(user.value, patch));
      }
    }

    /** `setLoading`: changes `isLoading` only, so nothing persisted changes. */
    method SetLoading(loading: bool)
      requires Valid()
      modifies this
      ensures Valid()
      ensures isLoading == loading
      ensures user == old(user) && token == old(token) && refreshToken == old(refreshToken)
      ensures isAuthenticated == old(isAuthenticated)
      ensures Partialize() == old(Partialize())
    {
      isLoading := loading;
    }

    /** `initialize`, given what the storage read produced. A stored, truthy
        token keeps the session as it is; anything else (nothing stored, no
        token, a failed read or parse) signs out. Loading always ends. */
    method Initialize(read: StorageRead)
      requires Valid()
      modifies this
      ensures Valid()
      ensures !isLoading
      ensures user == old(user) && token == old(token) && refreshToken == old(refreshToken)
      ensures read.Stored? && Truthy(read.token) ==> isAuthenticated == old(isAuthenticated)
      ensures !(read.Stored? && Truthy(read.token)) ==> !isAuthenticated
    {
      isLoading := true;
      if read.Stored? && Truthy(read.token) {
        isLoading := false;
        return;
      }
      isLoading := false;
      isAuthenticated := false;
    }
  }

  /** A full session round through the store's own persistence: after
      signing in, the record written under the key carries the token only
      inside `state`, so `initialize` reading that record finds no token and
      signs the user out; signing out then leaves nothing to persist. */
  method SignInRestoreSignOut(u: User, t: string, rt: string) returns (written: Envelope, restored: bool, persisted: Persisted)
    requires t != ""
    ensures written.state.token == Some(t) && written.state.isAuthenticated
    ensures !restored
    ensures persisted == Persisted(None, None, None, false)
  {
    var store := new AuthStore();
    store.SetAuth(u, t, rt);
    written := Envelope(store.Partialize(), DefaultVersion);
    store.Initialize(ReadEnvelope(written));
    restored := store.isAuthenticated;
    store.Logout();
    persisted := store.Partialize();
  }

  /** An app restart after signing in: rehydration brings the session back,
      and `initialize`, reading the same record, then marks it not
      authenticated while keeping the user and the tokens. */
  method RestartSignsOut(u: User, t: string, rt: string) returns (hydrated: bool, restored: bool, kept: Persisted)
    requires t != ""
    ensures hydrated && !restored
    ensures kept == Persisted(Some(u), Some(t), Some(rt), false)
  {
    var before := new AuthStore();
    before.SetAuth(u, t, rt);
    var written := Envelope(before.Partialize(), DefaultVersion);
    var store := new AuthStore();
    store.Rehydrate(written);
    hydrated := store.isAuthenticated;
    store.Initialize(ReadEnvelope(written));
    restored := store.isAuthenticated;
    kept := store.Partialize();
  }
}
