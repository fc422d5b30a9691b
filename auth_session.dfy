/** What the two auth stores (ventas/store/authStore.ts and
    clientes/store/authStore.ts) share: the user record as a field map, the
    object-spread merge `updateUser` performs, the storage read `initialize`
    awaits, and the subset of the state the persistence layer writes. */
module AuthSession {
  import opened Common

  /** A field value of the user record. */
  datatype FieldValue = Text(text: string) | Number(number: int) | Null | Texts(texts: seq<string>)

  /** The user record, as its own enumerable fields. */
  type User = map<string, FieldValue>

  /** `{ ...current, ...patch }`: every field of the patch wins, every other
      field of the current user is kept, and no field appears from nowhere. */
  function MergeUser(current: User, patch: User): (u: User)
    ensures u.Keys == current.Keys + patch.Keys
    ensures forall k :: k in patch ==> u[k] == patch[k]
    ensures forall k :: k in current && k !in patch ==> u[k] == current[k]
  {
    current + patch
  }

  /** Applying the same patch twice is the same as applying it once. */
  lemma MergeIdempotent(current: User, patch: User)
    ensures MergeUser(MergeUser(current, patch), patch) == MergeUser(current, patch)
  {
  }

  /** The outcome of `AsyncStorage.getItem` followed by `JSON.parse`: the read
      or the parse threw, nothing was stored, or a record with its `token`. */
  datatype StorageRead = ReadFailed | NothingStored | Stored(token: Option<string>)

  /** `partialize`: the part of the state that is persisted. */
  datatype Persisted = Persisted(user: Option<User>, token: Option<string>, refreshToken: Option<string>, isAuthenticated: bool)

  /** A persisted session that is authenticated holds a user and both
      tokens, as every state the stores write does. */
  predicate Consistent(p: Persisted)
  {
    p.isAuthenticated ==> p.user.Some? && p.token.Some? && p.refreshToken.Some?
  }

  /** The record the zustand `persist` middleware writes under the store's
      key: the persisted part under `state`, next to the store's `version`
      (0, as neither store sets one). */
  datatype Envelope = Envelope(state: Persisted, version: int)
  const DefaultVersion: int := 0

  /** What `initialize` reads back from such a record: it is stored, and its
      top-level fields are `state` and `version`, so the `token` that
      `initialize` destructures from it is missing, whatever token the
      persisted state holds. */
  function ReadEnvelope(e: Envelope): (r: StorageRead)
    ensures r.Stored? && !Truthy(r.token)
  {
    Stored(None)
  }
}
