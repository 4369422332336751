/** The browser's `localStorage` as the client uses it: a map from keys to
    strings, holding the session token and the menu preference. */
module LocalStorage {
  import opened Wrappers

  type Storage = map<string, string>

  const AuthTokenKey: string := "authToken"
  const MenuCollapsedKey: string := "menuCollapsed"

  /** `localStorage.getItem(key)`, `None` standing for `null`. */
  function GetItem(s: Storage, key: string): (r: Option<string>)
    ensures r.Some? <==> key in s
    ensures r.Some? ==> r.value == s[key]
  {
    if key in s then Some(s[key]) else None
  }
}
