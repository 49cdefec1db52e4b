/** The token helpers of the first front end (healthcare-frontend/src/utils/auth.js):
    the access and refresh tokens kept in `localStorage` under two fixed keys,
    and the expiry test on the access token.

    `localStorage` is the map `items` of a `Storage` object. Decoding the
    token's payload (`atob` and `JSON.parse` on its middle segment) is the
    parameter `decode`, whose `None` is a thrown exception; the clock
    (`Date.now()`, in milliseconds) is the parameter `now`. */
module TokenStore {
  import opened Js

  const AccessKey: string := "access_token"
  const RefreshKey: string := "refresh_token"

  /** `localStorage.getItem(key)`: `None` is `null`. */
  function Item(items: map<string, string>, key: string): (r: Option<string>)
    ensures r.Some? <==> key in items
    ensures r.Some? ==> r.value == items[key]
  {
    if key in items then Some(items[key]) else None
  }

  /** `payload.exp > Date.now() / 1000` for a decoded payload, with the
      clock in milliseconds: a numeric `exp` compares by value. Any other
      `exp` counts as expired here; JavaScript would first convert a
      numeric string, a boolean or a one-element array to a number, which
      the model does not do. Reading `exp` of `null` throws, which the
      caller turns into `false`. */
  predicate NotExpired(payload: Value, now: int) {
    payload.Obj? && Get(payload.fields, "exp").Num? && Get(payload.fields, "exp").n * 1000 > now
  }

  /** `isAuthenticated`: a stored, non-empty access token whose payload
      decodes and has not expired. */
  function IsAuthenticated(items: map<string, string>, decode: string -> Option<Value>, now: int): (b: bool)
    ensures b <==> AccessKey in items && items[AccessKey] != ""
                   && decode(items[AccessKey]).Some? && NotExpired(decode(items[AccessKey]).value, now)
  {
    var token := Item(items, AccessKey);
    if !Present(token) then false
    else
      var payload := decode(token.value);
      payload.Some? && NotExpired(payload.value, now)
  }

  /** Without a stored access token nobody is authenticated, whatever the
      decoder and the clock; a payload that fails to decode never is. */
  lemma NoTokenNotAuthenticated(items: map<string, string>, decode: string -> Option<Value>, now: int)
    ensures AccessKey !in items ==> !IsAuthenticated(items, decode, now)
    ensures AccessKey in items && decode(items[AccessKey]).None? ==> !IsAuthenticated(items, decode, now)
  {
  }

  /** Expiry is monotone in the clock: a token valid now was valid earlier. */
  lemma AuthenticatedEarlier(items: map<string, string>, decode: string -> Option<Value>, now: int, earlier: int)
    requires earlier <= now && IsAuthenticated(items, decode, now)
    ensures IsAuthenticated(items, decode, earlier)
  {
  }

  class Storage {
    var items: map<string, string>

    constructor (items: map<string, string>)
      ensures this.items == items
    {
      this.items := items;
    }

    /** `getToken`. */
    function GetToken(): (t: Option<string>)
      reads this
      ensures t == Item(items, AccessKey)
    {
      Item(items, AccessKey)
    }

    /** `getRefreshToken`. */
    function GetRefreshToken(): (t: Option<string>)
      reads this
      ensures t == Item(items, RefreshKey)
    {
      Item(items, RefreshKey)
    }

    /** `setToken`: the next `getToken` returns `token`; the refresh token is
        untouched. */
    method SetToken(token: string)
      modifies this
      ensures items == old(items)[AccessKey := token]
      ensures GetToken() == Some(token) && GetRefreshToken() == old(GetRefreshToken())
    {
      items := items[AccessKey := token];
    }

    /** `setRefreshToken`: the next `getRefreshToken` returns `token`; the
        access token is untouched. */
    method SetRefreshToken(token: string)
      modifies this
      ensures items == old(items)[RefreshKey := token]
      ensures GetRefreshToken() == Some(token) && GetToken() == old(GetToken())
    {
      items := items[RefreshKey := token];
    }

    /** `removeToken`: clears both keys and nothing else. */
    method RemoveToken()
      modifies this
      ensures items == old(items) - {AccessKey, RefreshKey}
      ensures GetToken().None? && GetRefreshToken().None?
    {
      items := items - {AccessKey};
      items := items - {RefreshKey};
    }

    /** `removeRefreshToken`: clears the refresh token only. */
    method RemoveRefreshToken()
      modifies this
      ensures items == old(items) - {RefreshKey}
      ensures GetRefreshToken().None? && GetToken() == old(GetToken())
    {
      items := items - {RefreshKey};
    }
  }
}
