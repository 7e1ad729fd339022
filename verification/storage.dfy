/**
 * The browser's `localStorage` as a map from keys to strings, with the four
 * keys the client uses.
 */
module Storage {
  import opened Options

  type Store = map<string, string>

  /** The access token sent as the bearer credential. */
  const AuthTokenKey := "auth_token"
  /** The refresh token exchanged for a new pair. */
  const RefreshTokenKey := "refresh_token"
  /** `JSON.stringify` of the signed-in user. */
  const CurrentUserKey := "current_user"
  /** The key under which the auth store persists its snapshot. */
  const AuthStorageKey := "auth-storage"

  /** The keys every logout removes. */
  const SessionKeys: set<string> := {AuthTokenKey, CurrentUserKey, AuthStorageKey}

  /** `localStorage.getItem(key)`, with `null` as `None`. */
  function GetItem(store: Store, key: string): Option<string> {
    if key in store then Some(store[key]) else None
  }

  /** `if (localStorage.getItem(key))`: the key is present and its value is not the empty string. */
  predicate HasItem(store: Store, key: string) {
    key in store && store[key] != ""
  }

  /** Two stores hold the same value (or both nothing) under every key outside `keys`. */
  ghost predicate AgreeExcept(a: Store, b: Store, keys: set<string>) {
    forall k :: k !in keys ==> GetItem(a, k) == GetItem(b, k)
  }

  /** `localStorage.setItem(key, value)`. */
  function SetItem(store: Store, key: string, value: string): (r: Store)
    ensures GetItem(r, key) == Some(value)
    ensures AgreeExcept(r, store, {key})
  {
    store[key := value]
  }

  /** `localStorage.removeItem(key)`; removing an absent key changes nothing. */
  function RemoveItem(store: Store, key: string): (r: Store)
    ensures GetItem(r, key) == None
    ensures AgreeExcept(r, store, {key})
    ensures key !in store ==> r == store
  {
    store - {key}
  }

  /** The three `removeItem` calls every logout path makes, in source order. */
  function RemoveSessionKeys(store: Store): (r: Store)
    ensures forall k :: k in SessionKeys ==> GetItem(r, k) == None
    ensures AgreeExcept(r, store, SessionKeys)
    ensures r.Keys == store.Keys - SessionKeys
  {
    RemoveItem(RemoveItem(RemoveItem(store, AuthTokenKey), CurrentUserKey), AuthStorageKey)
  }

  /** Removing the session keys a second time changes nothing. */
  lemma RemoveSessionKeysIdempotent(store: Store)
    ensures RemoveSessionKeys(RemoveSessionKeys(store)) == RemoveSessionKeys(store)
  {
  }
}
