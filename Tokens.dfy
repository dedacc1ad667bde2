/**
 * The in-memory token store `userTokens`: the OAuth callback stores a token
 * under a fresh user id, logout deletes it, and `getValidAccessToken` hands
 * out the stored access token, refreshing it first when it expires within
 * five minutes. The refresh request itself is an oracle: its outcome is a
 * parameter (the new token, or the failure it threw).
 */
module Tokens {
  import opened Wrappers
  import opened Json

  const NotAuthenticated := "User not authenticated"
  const AuthenticationExpired := "Authentication expired, please login again"
  /** Five minutes, in seconds: a token closer than this to expiry is refreshed. */
  const RefreshMarginSeconds := 300

  /**
   * The fields of a stored token the server reads: `token.access_token`,
   * `token.refresh_token` and `token.expires_at` (milliseconds since the
   * epoch; `None` when the token carries no expiry).
   */
  datatype Token = Token(accessToken: string, refreshToken: Option<string>, expiresAt: Option<int>)

  /**
   * `Math.floor((tokenExpiresAt - now) / 1000) < 300`. Without an expiry the
   * difference is `NaN`, the comparison is false and the token is used as is.
   */
  function NeedsRefresh(t: Token, now: int): (b: bool)
    ensures b <==> t.expiresAt.Some? && t.expiresAt.value < now + RefreshMarginSeconds * 1000
  {
    t.expiresAt.Some? && FloorDiv(t.expiresAt.value - now, 1000) < RefreshMarginSeconds
  }

  /** `Math.floor(a / b)` for a positive divisor. */
  function FloorDiv(a: int, b: int): (q: int)
    requires b > 0
    ensures q * b <= a < q * b + b
  {
    a / b
  }

  /** What `getValidAccessToken` does with a user id. */
  datatype Access =
    | Current(token: string)               // the stored token is still good
    | Refreshed(token: string, stored: Token)  // a new token was fetched and stored
    | Missing                              // no token stored: "User not authenticated"
    | Expired                              // no refresh token, or the refresh failed: the entry is deleted

  /** The branch `getValidAccessToken` takes, given what the refresh would answer. */
  function Decide(stored: Option<Token>, now: int, refreshed: Result<Token>): (a: Access)
    ensures a.Missing? <==> stored.None?
    ensures a.Current? <==> stored.Some? && !NeedsRefresh(stored.value, now)
    ensures a.Current? ==> a.token == stored.value.accessToken
    ensures a.Refreshed? <==>
      stored.Some? && NeedsRefresh(stored.value, now) && Supplied(stored.value.refreshToken) && refreshed.Ok?
    ensures a.Refreshed? ==> a.stored == refreshed.value && a.token == refreshed.value.accessToken
  {
    if stored.None? then Missing
    else if !NeedsRefresh(stored.value, now) then Current(stored.value.accessToken)
    else if !Supplied(stored.value.refreshToken) then Expired
    else match refreshed
      case Ok(t) => Refreshed(t.accessToken, t)
      case Err(_) => Expired
  }

  /** The token a user has stored, if any. */
  function StoredOf(tokens: map<string, Token>, userId: string): (o: Option<Token>)
    ensures o.Some? <==> userId in tokens
    ensures o.Some? ==> o.value == tokens[userId]
  {
    if userId in tokens then Some(tokens[userId]) else None
  }

  /** What `getValidAccessToken` resolves to or throws on each branch. */
  function Reply(a: Access): (r: Result<string>)
    ensures r.Ok? <==> a.Current? || a.Refreshed?
    ensures r.Ok? ==> r.value == a.token
    ensures a.Missing? ==> r == Err(NotAuthenticated)
    ensures a.Expired? ==> r == Err(AuthenticationExpired)
  {
    match a
    case Current(t) => Ok(t)
    case Refreshed(t, _) => Ok(t)
    case Missing => Err(NotAuthenticated)
    case Expired => Err(AuthenticationExpired)
  }

  /** The token store. */
  class TokenStore {
    var tokens: map<string, Token>

    constructor()
      ensures tokens == map[]
    {
      tokens := map[];
    }

    /** `/auth/callback`: the exchanged token is stored under the fresh id `crypto.randomBytes` produced. */
    method Save(userId: string, token: Token)
      modifies this
      ensures tokens == old(tokens)[userId := token]
    {
      tokens := tokens[userId := token];
    }

    /** `/auth/logout`: forget the session's user, when the session has one. */
    method Logout(sessionUser: Option<string>)
      modifies this
      ensures Supplied(sessionUser) ==> tokens == old(tokens) - {sessionUser.value}
      ensures !Supplied(sessionUser) ==> tokens == old(tokens)
    {
      if Supplied(sessionUser) {
        tokens := tokens - {sessionUser.value};
      }
    }

    /**
     * `getValidAccessToken(userId)` at time `now`, `refreshed` being what the
     * refresh request would give. An unknown user is refused and nothing
     * changes; a token with five minutes or more left is returned as stored;
     * otherwise the token is refreshed and replaced, or, without a refresh
     * token or when the refresh fails, deleted.
     */
    method GetValidAccessToken(userId: string, now: int, refreshed: Result<Token>) returns (r: Result<string>)
      modifies this
      ensures userId !in old(tokens) ==> r == Err(NotAuthenticated) && tokens == old(tokens)
      ensures userId in old(tokens) && !NeedsRefresh(old(tokens)[userId], now) ==>
        r == Ok(old(tokens)[userId].accessToken) && tokens == old(tokens)
      ensures userId in old(tokens) && NeedsRefresh(old(tokens)[userId], now) ==>
        if Supplied(old(tokens)[userId].refreshToken) && refreshed.Ok? then
          r == Ok(refreshed.value.accessToken) && tokens == old(tokens)[userId := refreshed.value]
        else
          r == Err(AuthenticationExpired) && tokens == old(tokens) - {userId}
      ensures var a := Decide(StoredOf(old(tokens), userId), now, refreshed);
        r == Reply(a) && tokens == After(old(tokens), userId, a)
    {
      if userId !in tokens {
        return Err(NotAuthenticated);
      }
      var expiresIn := if tokens[userId].expiresAt.Some? then Some(FloorDiv(tokens[userId].expiresAt.value - now, 1000)) else None;
      if expiresIn.Some? && expiresIn.value < RefreshMarginSeconds {
        var refreshToken := tokens[userId].refreshToken;
        if !Supplied(refreshToken) || refreshed.Err? {
          tokens := tokens - {userId};
          return Err(AuthenticationExpired);
        }
        tokens := tokens[userId := refreshed.value];
        return Ok(refreshed.value.accessToken);
      }
      return Ok(tokens[userId].accessToken);
    }
  }

  /** The store `getValidAccessToken` leaves behind for each branch. */
  function After(tokens: map<string, Token>, userId: string, a: Access): map<string, Token> {
    match a
    case Current(_) => tokens
    case Missing => tokens
    case Refreshed(_, t) => tokens[userId := t]
    case Expired => tokens - {userId}
  }

  /**
   * After any call the user either holds a token that has five minutes or
   * more left at `now`, or holds a freshly refreshed one, or holds none and
   * must log in again; other users' tokens are untouched.
   */
  lemma AccessOutcome(tokens: map<string, Token>, userId: string, now: int, refreshed: Result<Token>)
    ensures var a := Decide(StoredOf(tokens, userId), now, refreshed);
      var t := After(tokens, userId, a);
      && (forall u :: u != userId ==> (u in t <==> u in tokens) && (u in t ==> t[u] == tokens[u]))
      && (a.Current? ==> userId in t && !NeedsRefresh(t[userId], now))
      && (a.Refreshed? ==> userId in t && t[userId] == refreshed.value)
      && (a.Missing? || a.Expired? <==> userId !in t)
  {
  }
}
