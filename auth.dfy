/** The session held by `AuthProvider`: the stored token, whether the user
    is authenticated, the user name taken from the token and the loading
    flag. Decoding a token is a parameter: it yields the `sub` and `exp`
    claims, or `None` when the decoder throws. */
module Auth {
  import opened Wrappers
  import opened Strings
  import opened LocalStorage
  import BaseApi

  datatype Claims = Claims(sub: Option<string>, exp: Option<int>)

  /** `token && token.split('.').length === 3` */
  predicate HasJwtShape(token: Option<string>) {
    token.Some? && token.value != "" && |Split(token.value, '.')| == 3
  }

  /** A token has the shape exactly when it holds two dots. */
  lemma JwtShapeIsTwoDots(t: string)
    ensures HasJwtShape(Some(t)) <==> Count(t, '.') == 2
  {
    SplitLength(t, '.');
  }

  /** A token without dots is refused and one with three non-empty
      segments is taken. */
  lemma JwtShapeExamples()
    ensures !HasJwtShape(Some("notajwt"))
    ensures HasJwtShape(Some("a.b.c"))
  {
    JwtShapeIsTwoDots("notajwt");
    JwtShapeIsTwoDots("a.b.c");
  }

  /** Three dot-free segments joined by dots have the shape. */
  lemma JwtShapeOfSegments(a: string, b: string, c: string)
    requires '.' !in a && '.' !in b && '.' !in c
    ensures HasJwtShape(Some(a + "." + b + "." + c))
  {
    SplitNoSeparator(c, '.');
    SplitPrefix(b, c, '.');
    SplitPrefix(a, b + "." + c, '.');
    assert a + "." + b + "." + c == a + ['.'] + (b + ['.'] + c);
  }

  /** `decoded.exp && decoded.exp > currentTime` */
  predicate NotExpired(exp: Option<int>, now: int) {
    exp.Some? && exp.value != 0 && exp.value > now
  }

  /** The storage after `clearAuthToken`: the token and the menu preference
      are gone, every other key is kept. */
  function ClearedStorage(s: Storage): (r: Storage)
    ensures AuthTokenKey !in r && MenuCollapsedKey !in r
    ensures forall k :: k != AuthTokenKey && k != MenuCollapsedKey ==> (k in r <==> k in s)
    ensures forall k :: k in r ==> r[k] == s[k]
  {
    s - {AuthTokenKey, MenuCollapsedKey}
  }

  /** The user name after `loadUserFromToken`: the `sub` claim when it is
      truthy, unchanged when it is not, and `null` when decoding throws. */
  function NameAfterLoad(current: Option<string>, decoded: Option<Claims>): (n: Option<string>)
    ensures decoded.None? ==> n.None?
    ensures decoded.Some? && decoded.value.sub.Some? && decoded.value.sub.value != "" ==> n == decoded.value.sub
    ensures decoded.Some? && (decoded.value.sub.None? || decoded.value.sub.value == "") ==> n == current
  {
    match decoded
    case None => None
    case Some(c) => if c.sub.Some? && c.sub.value != "" then c.sub else current
  }

  /** `checkAuthStatus` accepts the stored token: it has the shape, decodes,
      and has not expired at `now` (seconds since the epoch). */
  predicate TokenAccepted(s: Storage, decode: string -> Option<Claims>, now: int) {
    var token := GetItem(s, AuthTokenKey);
    HasJwtShape(token) && decode(token.value).Some? && NotExpired(decode(token.value).value.exp, now)
  }

  /** A cleared session sends no `Authorization` header. */
  lemma ClearedSendsNoToken(s: Storage)
    ensures !BaseApi.HasHeader(BaseApi.Headers(ClearedStorage(s)), "Authorization")
  {
  }

  /** An accepted token is the one every request carries as its bearer
      credential. */
  lemma AcceptedTokenIsSent(s: Storage, decode: string -> Option<Claims>, now: int)
    requires TokenAccepted(s, decode, now)
    ensures ("Authorization", "Bearer " + s[AuthTokenKey]) in BaseApi.Headers(s)
  {
  }

  /** A cleared storage can never hold an accepted token. */
  lemma ClearedNeverAccepted(s: Storage, decode: string -> Option<Claims>, now: int)
    ensures !TokenAccepted(ClearedStorage(s), decode, now)
  {
  }

  /** The provider's state. */
  class AuthSession {
    var storage: Storage
    var isAuthenticated: bool
    var userName: Option<string>
    var isLoading: bool

    constructor(s: Storage)
      ensures storage == s && !isAuthenticated && userName == None && isLoading
    {
      storage := s;
      isAuthenticated := false;
      userName := None;
      isLoading := true;
    }

    /** `clearAuthToken` */
    method ClearAuthToken()
      modifies this
      ensures storage == ClearedStorage(old(storage))
      ensures userName == None && !isAuthenticated
      ensures isLoading == old(isLoading)
    {
      storage := storage - {AuthTokenKey};
      storage := storage - {MenuCollapsedKey};
      userName := None;
      isAuthenticated := false;
    }

    /** `loadUserFromToken` */
    method LoadUserFromToken(token: string, decode: string -> Option<Claims>)
      modifies this
      ensures userName == NameAfterLoad(old(userName), decode(token))
      ensures storage == old(storage) && isAuthenticated == old(isAuthenticated) && isLoading == old(isLoading)
    {
      var decoded := decode(token);
      if decoded.None? {
        userName := None;
        return;
      }
      if decoded.value.sub.Some? && decoded.value.sub.value != "" {
        userName := decoded.value.sub;
      }
    }

    /** `setAuthToken`: the token is always stored; a token of the right
        shape also authenticates and loads the user name. */
    method SetAuthToken(token: string, decode: string -> Option<Claims>)
      modifies this
      ensures storage == old(storage)[AuthTokenKey := token]
      ensures HasJwtShape(Some(token)) ==>
                isAuthenticated && userName == NameAfterLoad(old(userName), decode(token))
      ensures !HasJwtShape(Some(token)) ==> isAuthenticated == old(isAuthenticated) && userName == old(userName)
      ensures isLoading == old(isLoading)
    {
      storage := storage[AuthTokenKey := token];
      if HasJwtShape(Some(token)) {
        isAuthenticated := true;
        LoadUserFromToken(token, decode);
      }
    }

    /** `checkAuthStatus` at time `now`: authenticated exactly when the
        stored token is accepted; every other path clears the session; the
        loading flag ends false on every path. */
    method CheckAuthStatus(decode: string -> Option<Claims>, now: int)
      modifies this
      ensures isAuthenticated <==> TokenAccepted(old(storage), decode, now)
      ensures TokenAccepted(old(storage), decode, now) ==>
                storage == old(storage)
                && userName == NameAfterLoad(old(userName), decode(old(storage)[AuthTokenKey]))
      ensures !TokenAccepted(old(storage), decode, now) ==>
                storage == ClearedStorage(old(storage)) && userName == None
      ensures !isLoading
    {
      var token := GetItem(storage, AuthTokenKey);
      if HasJwtShape(token) {
        var decoded := decode(token.value);
        if decoded.None? {
          ClearAuthToken();
        } else if NotExpired(decoded.value.exp, now) {
          isAuthenticated := true;
          LoadUserFromToken(token.value, decode);
        } else {
          ClearAuthToken();
        }
      } else {
        ClearAuthToken();
      }
      isLoading := false;
    }
  }
}
