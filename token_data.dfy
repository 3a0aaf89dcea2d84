/** The token data an OAuth 2.0 token endpoint hands back (section 5.1 of RFC 6749), as the bot
    keeps it: access token, refresh token and an absolute expiry timestamp. */
module Tokens {
  import opened Wrappers
  import opened DateTimeUtils

  /** Any field may be Python's `None`; the expiry is a string in `DatetimeFormat`. */
  datatype TokenData = TokenData(accessToken: Option<string>, refreshToken: Option<string>, expiryDate: Option<string>)

  /** Python's `bool(x)` for an optional string. */
  predicate Truthy(s: Option<string>) {
    s.Some? && s.value != ""
  }

  /** `TokenData.is_valid`. */
  predicate IsValid(t: TokenData) {
    Truthy(t.accessToken) && Truthy(t.refreshToken) && Truthy(t.expiryDate)
  }

  /** `TokenData.is_access_token_expired` at clock reading `now`: the expiry is parsed with the
      fixed layout (a missing or malformed expiry raises) and compared with `<=`. */
  function IsAccessTokenExpired(t: TokenData, now: Instant): (r: Result<bool>)
    ensures r.Success? <==> t.expiryDate.Some? && Parse(t.expiryDate.value).Success?
    ensures r.Success? ==> (r.value <==> AtOrBefore(Parse(t.expiryDate.value).value, now))
  {
    match t.expiryDate
    case None => Failure("strptime() argument 1 must be str, not None")
    case Some(e) =>
      match Parse(e)
      case Failure(err) => Failure(err)
      case Success(expiry) => Success(AtOrBefore(expiry, now))
  }

  /** A token whose expiry is exactly the clock reading already counts as expired. */
  lemma ExpiredAtExpiryInstant(access: Option<string>, refresh: Option<string>, now: Instant)
    ensures IsAccessTokenExpired(TokenData(access, refresh, Some(Format(now))), now) == Success(true)
  {
    ParseFormat(now);
  }

  /** A token just issued with a positive `expires_in` is not yet expired at the moment it was
      issued. */
  lemma FreshTokenNotExpired(access: Option<string>, refresh: Option<string>, now: Instant, expiresIn: int)
    requires expiresIn > 0 && CalculateExpirationDateFromSeconds(now, Some(expiresIn)).Success?
    ensures var expiry := CalculateExpirationDateFromSeconds(now, Some(expiresIn)).value;
      IsAccessTokenExpired(TokenData(access, refresh, Some(expiry)), now) == Success(false)
  {
    ExpirationNotBeforeNow(now, expiresIn);
  }
}
