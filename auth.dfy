/**
 * The auth store: the student's bearer token, mirrored into the browser's
 * local storage, and loaded from there once at start-up.
 */
module Auth {
  import opened Wrappers

  /** The storage key the token is kept under. */
  const TokenKey := "token"

  /** The browser's local storage: a string-to-string dictionary that outlives the page. */
  class LocalStorage {
    var items: map<string, string>

    /** Storage as the page finds it on load. */
    constructor(initial: map<string, string>)
      ensures items == initial
    {
      items := initial;
    }

    /** `getItem`: the stored string, or null when the key is missing. */
    method GetItem(key: string) returns (v: Option<string>)
      ensures key in items <==> v.Some?
      ensures v.Some? ==> v.value == items[key]
    {
      v := ItemAt(items, key);
    }

    /** `setItem`: writes one key and leaves every other key as it was. */
    method SetItem(key: string, value: string)
      modifies this
      ensures items == old(items)[key := value]
    {
      items := items[key := value];
    }
  }

  /** The string stored under `key`, or null when the key is missing. */
  function ItemAt(items: map<string, string>, key: string): Option<string> {
    if key in items then Some(items[key]) else None
  }

  /** The token stored under `TokenKey`, if any. */
  function StoredToken(items: map<string, string>): Option<string> {
    ItemAt(items, TokenKey)
  }

  /**
   * The token after the first `init`: a truthy stored token is adopted; a
   * missing or empty one leaves the current value in place.
   */
  function TokenAfterInit(current: Option<string>, stored: Option<string>): (r: Option<string>)
    ensures Truthy(stored) ==> r == stored
    ensures !Truthy(stored) ==> r == current
  {
    if Truthy(stored) then stored else current
  }

  class AuthStore {
    /** The token cell: null until a token is set or loaded. */
    var value: Option<string>
    /** Whether `init` has run. */
    var initialized: bool
    /** The browser storage this store mirrors its token into. */
    const storage: LocalStorage

    /** Initially no token, and not initialized. */
    constructor(storage: LocalStorage)
      ensures value == None && !initialized
      ensures this.storage == storage
    {
      value := None;
      initialized := false;
      this.storage := storage;
    }

    /** Persists the token under `TokenKey` and makes it the store's value; `initialized` is untouched. */
    method SetToken(token: string)
      modifies this`value, storage
      ensures storage.items == old(storage.items)[TokenKey := token]
      ensures value == Some(token)
      ensures initialized == old(initialized)
    {
      storage.SetItem(TokenKey, token);
      value := Some(token);
    }

    /**
     * One-shot load from storage. The first call adopts a truthy stored
     * token; every later call changes nothing, whatever storage now holds.
     * Storage is only read.
     */
    method Init()
      modifies this`value, this`initialized
      ensures initialized
      ensures old(initialized) ==> value == old(value)
      ensures !old(initialized) ==> value == TokenAfterInit(old(value), StoredToken(storage.items))
      ensures unchanged(storage)
    {
      if !initialized {
        var token := storage.GetItem(TokenKey);
        if Truthy(token) {
          value := token;
        }
        initialized := true;
      }
    }

    method IsInitialized() returns (b: bool)
      ensures b == initialized
    {
      b := initialized;
    }
  }

  /**
   * `init` is idempotent: once it has run, a change to storage followed by a
   * second `init` leaves the token as the first call left it.
   */
  method InitIgnoresLaterStorage(store: AuthStore, newToken: string)
    modifies store, store.storage
    ensures store.initialized
    ensures store.value == if old(store.initialized) then old(store.value)
                           else TokenAfterInit(old(store.value), StoredToken(old(store.storage.items)))
    ensures store.storage.items == old(store.storage.items)[TokenKey := newToken]
  {
    store.Init();
    ghost var afterFirst := store.value;
    store.storage.SetItem(TokenKey, newToken);
    store.Init();
    assert store.value == afterFirst;
  }
}
