/** The authentication guard of pong/authentication/decorators.py: `validate_jwt` and the
    wrapper built by `auth_decorator_factory`, as an ordered chain of checks. The JWT
    decoder, the user-data cache and the token refresh are functions handed in by the
    caller. */
module Decorators {
  import opened Common

  /** The decoded JWT payload, as far as the guard reads it. */
  datatype Claims = Claims(userId: Option<int>, otpVerified: Option<bool>, accessToken: Option<string>)

  /** The cached user data; the guard only reads "is_verified". */
  datatype CachedUser = CachedUser(isVerified: Option<bool>)

  /** The dict refresh_token returns on success. */
  datatype Tokens = Tokens(accessToken: Option<string>, refreshToken: Option<string>)

  const BEARER := "Bearer "

  /** The token with one leading "Bearer " removed, if it has one. */
  function StripBearer(token: string): (r: string)
    ensures |BEARER| <= |token| && token[..|BEARER|] == BEARER ==> r == token[|BEARER|..]
    ensures !(|BEARER| <= |token| && token[..|BEARER|] == BEARER) ==> r == token
  {
    if |BEARER| <= |token| && token[..|BEARER|] == BEARER then token[|BEARER|..] else token
  }

  /** The prefix is removed exactly once: a "Bearer " inside the rest is kept. */
  lemma {:induction false} StripBearerOnce(rest: string)
    ensures StripBearer(BEARER + rest) == rest
    ensures StripBearer(BEARER + BEARER + rest) == BEARER + rest
  {
    assert (BEARER + rest)[..|BEARER|] == BEARER;
    assert (BEARER + BEARER + rest)[..|BEARER|] == BEARER;
    assert (BEARER + BEARER + rest)[|BEARER|..] == BEARER + rest;
  }

  /** A cookie counts as absent when it is missing or empty. */
  predicate CookieGiven(cookie: Option<string>)
  {
    cookie.Some? && cookie.value != ""
  }

  datatype Validated = Decoded(claims: Claims) | Rejected(status: int, error: string)

  /** validate_jwt */
  function ValidateJwt(cookie: Option<string>, decode: string -> Option<Claims>): (v: Validated)
    ensures !CookieGiven(cookie) ==> v == Rejected(401, "No jwt in request")
    ensures CookieGiven(cookie) && decode(StripBearer(cookie.value)).None? ==> v == Rejected(401, "Decoding jwt failed")
    ensures CookieGiven(cookie) && decode(StripBearer(cookie.value)).Some? ==> v == Decoded(decode(StripBearer(cookie.value)).value)
  {
    if !CookieGiven(cookie) then Rejected(401, "No jwt in request")
    else
      var token := StripBearer(cookie.value);
      match decode(token)
      case None => Rejected(401, "Decoding jwt failed")
      case Some(c) => Decoded(c)
  }

  /** What the wrapper does with a request. */
  datatype GuardResult =
    | JsonError(status: int, error: string)
    /** the pair `(None, 401 "No user id provided")`, returned instead of a response */
    | NoUserId
    /** a redirect to the same path whose cookie carries the new access token */
    | Refreshed(jwt: Claims)
    /** 403 "Need OTP authentication" */
    | OtpRequired(otpVerified: Option<bool>, showOtpQr: Option<bool>)
    | HandlerCalled(jwt: Claims)

  /** `not otp_verified` in Python: missing or false. */
  predicate TruthyFlag(b: Option<bool>)
  {
    b == Some(true)
  }

  /** The wrapper of auth_decorator_factory(check_otp). `userCache` is the user-data lookup
      by user id and `refresh` the outcome of refresh_token for that id. */
  function Guard(checkOtp: bool, cookie: Option<string>, decode: string -> Option<Claims>,
                 userCache: int -> Option<CachedUser>, refresh: int -> Option<Tokens>): (g: GuardResult)
    ensures ValidateJwt(cookie, decode).Rejected? ==>
              g == JsonError(ValidateJwt(cookie, decode).status, ValidateJwt(cookie, decode).error)
    ensures ValidateJwt(cookie, decode).Decoded? ==>
              var c := ValidateJwt(cookie, decode).claims;
              && (!TruthyId(c.userId) ==> g == NoUserId)
              && (TruthyId(c.userId) && userCache(c.userId.value).None? ==>
                    (refresh(c.userId.value).None? ==> g == JsonError(401, "Need login")) &&
                    (refresh(c.userId.value).Some? ==>
                       g == Refreshed(Claims(c.userId, c.otpVerified, refresh(c.userId.value).value.accessToken))))
              && (TruthyId(c.userId) && userCache(c.userId.value).Some? ==>
                    (checkOtp && !TruthyFlag(c.otpVerified) ==>
                       g == OtpRequired(c.otpVerified, userCache(c.userId.value).value.isVerified)) &&
                    (!checkOtp || TruthyFlag(c.otpVerified) ==> g == HandlerCalled(c)))
  {
    match ValidateJwt(cookie, decode)
    case Rejected(status, error) => JsonError(status, error)
    case Decoded(c) =>
      if !TruthyId(c.userId) then NoUserId
      else
        var uid := c.userId.value;
        match userCache(uid)
        case None =>
          (match refresh(uid)
           case None => JsonError(401, "Need login")
           case Some(tokens) => Refreshed(Claims(c.userId, c.otpVerified, tokens.accessToken)))
        case Some(user) =>
          if checkOtp && !TruthyFlag(c.otpVerified) then OtpRequired(c.otpVerified, user.isVerified)
          else HandlerCalled(c)
  }

  /** login_required */
  function LoginRequired(cookie: Option<string>, decode: string -> Option<Claims>,
                         userCache: int -> Option<CachedUser>, refresh: int -> Option<Tokens>): (g: GuardResult)
    ensures g == Guard(true, cookie, decode, userCache, refresh)
    ensures g.HandlerCalled? ==> TruthyFlag(g.jwt.otpVerified)
  {
    Guard(true, cookie, decode, userCache, refresh)
  }

  /** token_required */
  function TokenRequired(cookie: Option<string>, decode: string -> Option<Claims>,
                         userCache: int -> Option<CachedUser>, refresh: int -> Option<Tokens>): (g: GuardResult)
    ensures g == Guard(false, cookie, decode, userCache, refresh)
    ensures !g.OtpRequired?
  {
    Guard(false, cookie, decode, userCache, refresh)
  }

  /** The handler runs exactly when a cookie is given, it decodes, it names a user, that user
      is in the cache and, for login_required, the token passed the OTP check; it receives the
      decoded payload. */
  lemma {:induction false} HandlerCalledIff(checkOtp: bool, cookie: Option<string>, decode: string -> Option<Claims>,
                                            userCache: int -> Option<CachedUser>, refresh: int -> Option<Tokens>)
    ensures var g := Guard(checkOtp, cookie, decode, userCache, refresh);
            g.HandlerCalled? <==>
              && CookieGiven(cookie)
              && decode(StripBearer(cookie.value)).Some?
              && var c := decode(StripBearer(cookie.value)).value;
                 && TruthyId(c.userId) && userCache(c.userId.value).Some?
                 && (checkOtp ==> TruthyFlag(c.otpVerified))
    ensures var g := Guard(checkOtp, cookie, decode, userCache, refresh);
            g.HandlerCalled? ==> g.jwt == decode(StripBearer(cookie.value)).value
  {
    var g := Guard(checkOtp, cookie, decode, userCache, refresh);
    if CookieGiven(cookie) && decode(StripBearer(cookie.value)).Some? {
      assert ValidateJwt(cookie, decode) == Decoded(decode(StripBearer(cookie.value)).value);
    } else {
      assert ValidateJwt(cookie, decode).Rejected?;
    }
  }

  /** The two guards differ only in the OTP gate: where they disagree, token_required calls the
      handler and login_required answers 403. */
  lemma {:induction false} GuardsDifferOnlyInOtpGate(cookie: Option<string>, decode: string -> Option<Claims>,
                                                     userCache: int -> Option<CachedUser>, refresh: int -> Option<Tokens>)
    ensures var l, t := LoginRequired(cookie, decode, userCache, refresh), TokenRequired(cookie, decode, userCache, refresh);
            l != t ==> t.HandlerCalled? && l.OtpRequired? && !TruthyFlag(t.jwt.otpVerified)
  {
    var l, t := LoginRequired(cookie, decode, userCache, refresh), TokenRequired(cookie, decode, userCache, refresh);
    if l != t {
      var v := ValidateJwt(cookie, decode);
      assert v.Decoded?;
    }
  }

  /** The guards are checked in order: without a cookie nothing else is consulted, and a
      cookie that does not decode is refused whatever the cache holds. */
  lemma {:induction false} EarlierGatesWin(checkOtp: bool, cookie: Option<string>, decode: string -> Option<Claims>,
                                           userCache: int -> Option<CachedUser>, refresh: int -> Option<Tokens>,
                                           decode2: string -> Option<Claims>,
                                           userCache2: int -> Option<CachedUser>, refresh2: int -> Option<Tokens>)
    ensures !CookieGiven(cookie) ==>
              Guard(checkOtp, cookie, decode, userCache, refresh) == Guard(checkOtp, cookie, decode2, userCache2, refresh2)
    ensures CookieGiven(cookie) && decode(StripBearer(cookie.value)).None? ==>
              Guard(checkOtp, cookie, decode, userCache, refresh) == JsonError(401, "Decoding jwt failed")
  {
    if !CookieGiven(cookie) {
      assert ValidateJwt(cookie, decode) == ValidateJwt(cookie, decode2);
    }
  }
}
