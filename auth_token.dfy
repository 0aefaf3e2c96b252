/** `services/authToken.ts`: the session token kept under one `localStorage` key,
    trimmed on the way in, with a window event announcing every change. Running
    outside a browser window (`typeof window === "undefined"`) turns both operations
    into no-ops. */
module AuthToken {
  import opened Options
  import opened Text
  import opened Storage

  const StorageKey: string := "viewcall_token"
  const AuthTokenEvent: string := "viewcall-auth-changed"

  /** The guard `token && token.trim()`: a token that is present and not blank. */
  predicate Storable(token: Option<string>) {
    token.Some? && !IsBlank(token.value)
  }

  /** The storage contents after `setAuthToken(token)` inside a window. */
  function AfterSet(items: map<string, string>, token: Option<string>): (r: map<string, string>)
    ensures Storable(token) <==> StorageKey in r
    ensures Storable(token) ==> r[StorageKey] == Trim(token.value)
    ensures forall k :: k != StorageKey ==> (k in r <==> k in items)
    ensures forall k :: k != StorageKey && k in items ==> r[k] == items[k]
  {
    if Storable(token) then items[StorageKey := Trim(token.value)] else items - {StorageKey}
  }

  /** Storing the token read back after a set changes nothing: a stored token is
      already trimmed and never blank. */
  lemma {:induction false} SetReadBackIdempotent(items: map<string, string>, token: Option<string>)
    ensures var r := AfterSet(items, token);
            AfterSet(r, if StorageKey in r then Some(r[StorageKey]) else None) == r
  {
    var r := AfterSet(items, token);
    if Storable(token) {
      var t := Trim(token.value);
      assert r == items[StorageKey := t];
      TrimIdempotent(token.value);
      assert Trim(t) == t && t != [];
      assert Storable(Some(t));
      assert AfterSet(r, Some(t)) == r[StorageKey := t];
      assert r[StorageKey := t] == r;
    } else {
      assert StorageKey !in r;
      assert AfterSet(r, None) == r - {StorageKey};
      assert r - {StorageKey} == r;
    }
  }

  class AuthTokenService {
    /** Whether the code runs inside a browser window. */
    const hasWindow: bool
    const storage: LocalStorage
    /** The events dispatched on `window`, oldest first. */
    var dispatched: seq<string>

    constructor (hasWindow: bool, storage: LocalStorage)
      ensures this.hasWindow == hasWindow && this.storage == storage && dispatched == []
    {
      this.hasWindow := hasWindow;
      this.storage := storage;
      dispatched := [];
    }

    /** `getAuthToken`. */
    method GetAuthToken() returns (t: Option<string>)
      ensures !hasWindow ==> t == None
      ensures hasWindow ==> (t.Some? <==> StorageKey in storage.items)
      ensures hasWindow && t.Some? ==> t.value == storage.items[StorageKey]
    {
      if !hasWindow {
        return None;
      }
      t := storage.GetItem(StorageKey);
    }

    /** `setAuthToken`: stores the trimmed token or removes the key, then announces
        the change; outside a window nothing happens. */
    method SetAuthToken(token: Option<string>)
      modifies this, storage
      ensures !hasWindow ==> storage.items == old(storage.items) && dispatched == old(dispatched)
      ensures hasWindow ==> storage.items == AfterSet(old(storage.items), token)
      ensures hasWindow ==> dispatched == old(dispatched) + [AuthTokenEvent]
    {
      if !hasWindow {
        return;
      }
      if token.Some? && !IsBlank(token.value) {
        storage.SetItem(StorageKey, Trim(token.value));
      } else {
        storage.RemoveItem(StorageKey);
      }
      dispatched := dispatched + [AuthTokenEvent];
    }
  }
}
