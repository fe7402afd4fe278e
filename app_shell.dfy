/**
 * The authentication flag of the single-page app (frontend/src/App.jsx): it starts
 * false, is raised on mount when a token is stored, is raised on login, and is lowered on
 * logout, which also removes the stored token and user.
 *
 * The browser's local storage is a class holding a map from keys to values; a missing
 * key reads as `null`, which is falsy like the empty string.
 */
module AppShell {

  const TokenKey := "token"
  const UserKey := "user"
  const ExpirationKey := "tokenExpiration"

  /** `if (localStorage.getItem("token"))`: a stored, non-empty token. */
  predicate HasToken(items: map<string, string>)
  {
    TokenKey in items && items[TokenKey] != ""
  }

  /** The flag after the mount effect (App.jsx:14-19): raised by a token, never lowered. */
  function AfterMount(flag: bool, items: map<string, string>): bool
  {
    flag || HasToken(items)
  }

  /** The storage after handleLogout (App.jsx:25-29). */
  function AfterLogout(items: map<string, string>): map<string, string>
  {
    items - {TokenKey, UserKey}
  }

  // ---------------------------------------------------------------- properties

  /** Logout removes exactly the token and the user; every other entry, the token's
      expiry included, stays with its value. */
  lemma LogoutRemovesExactly(items: map<string, string>)
    ensures var r := AfterLogout(items);
      && TokenKey !in r && UserKey !in r
      && (forall k :: k in r <==> k in items && k != TokenKey && k != UserKey)
      && (forall k :: k in r ==> r[k] == items[k])
      && (ExpirationKey in items ==> ExpirationKey in r)
  {
    assert ExpirationKey != TokenKey by { assert |ExpirationKey| != |TokenKey|; }
    assert ExpirationKey != UserKey by { assert |ExpirationKey| != |UserKey|; }
  }

  /** After a logout a reload does not raise the flag again. */
  lemma LogoutSurvivesReload(items: map<string, string>)
    ensures !AfterMount(false, AfterLogout(items))
  {
  }

  /** Starting from false, the mount raises the flag exactly when a token is stored; the
      stored expiry plays no part. */
  lemma MountIgnoresExpiry(items: map<string, string>, expiry: string)
    ensures AfterMount(false, items) <==> HasToken(items)
    ensures AfterMount(false, items[ExpirationKey := expiry]) == AfterMount(false, items)
    ensures AfterMount(false, items - {ExpirationKey}) == AfterMount(false, items)
  {
    assert ExpirationKey != TokenKey by { assert |ExpirationKey| != |TokenKey|; }
  }

  // ---------------------------------------------------------------- the component

  class Storage {
    var items: map<string, string>

    constructor (items: map<string, string>)
      ensures this.items == items
    {
      this.items := items;
    }

    method RemoveItem(key: string)
      modifies this
      ensures items == old(items) - {key}
    {
      items := items - {key};
    }
  }

  class Shell {
    var isAuthenticated: bool
    const storage: Storage

    constructor (storage: Storage)
      ensures !isAuthenticated && this.storage == storage
    {
      isAuthenticated := false;
      this.storage := storage;
    }

    /** The mount effect. */
    method Mount()
      modifies this
      ensures isAuthenticated == AfterMount(old(isAuthenticated), storage.items)
    {
      var present := TokenKey in storage.items;
      if present && storage.items[TokenKey] != "" {
        isAuthenticated := true;
      }
    }

    /** handleLogin (App.jsx:21-23): the storage is not touched. */
    method HandleLogin()
      modifies this
      ensures isAuthenticated
    {
      isAuthenticated := true;
    }

    method HandleLogout()
      modifies this, storage
      ensures !isAuthenticated && storage.items == AfterLogout(old(storage.items))
    {
      storage.RemoveItem(TokenKey);
      storage.RemoveItem(UserKey);
      isAuthenticated := false;
    }
  }
}
