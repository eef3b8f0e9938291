/**
 * The token service. A token is modelled by its decoded claims; signing, encoding and
 * parsing are left to an external library. Times are milliseconds since the epoch, and
 * every reading of the clock is a parameter.
 */
module Jwt {
  import opened Auth
  import opened Wrappers

  datatype Claims = Claims(subject: string, issuedAt: int, expiration: int)

  /** The reasons `validateToken` throws, one per guard, in guard order. */
  datatype JwtError =
    | InvalidToken        // subject is not the user's username
    | TokenExpired        // expiry lies before the current time
    | UserDisabled
    | AccountExpired
    | CredentialsExpired
    | AccountLocked

  /** `validateToken` either returns a Boolean or throws a JWTException with a reason. */
  datatype Validation = Valid(result: bool) | Rejected(error: JwtError)

  /**
   * `createTokenFromClaimsAndSubject` with empty claims. The issued-at and the expiry come
   * from two separate readings of the clock, `issueClock` and `expiryClock`.
   */
  function CreateTokenFromClaimsAndSubject(subject: string, issueClock: int, expiryClock: int, jwtTimeout: int): (t: Claims)
    ensures t.subject == subject
    ensures t.issuedAt == issueClock && t.expiration == expiryClock + jwtTimeout
    ensures issueClock <= expiryClock ==> t.expiration - t.issuedAt >= jwtTimeout
  {
    Claims(subject, issueClock, expiryClock + jwtTimeout)
  }

  /** `createTokenFromUserDetails`: the subject is the username (the user's email). */
  function CreateTokenFromUserDetails(user: UserDetails, issueClock: int, expiryClock: int, jwtTimeout: int): (t: Claims)
    ensures t.subject == user.username
  {
    CreateTokenFromClaimsAndSubject(user.username, issueClock, expiryClock, jwtTimeout)
  }

  /** `isTokenExpired`: `Date.before` is strict, so a token is still live at its expiry instant. */
  predicate IsTokenExpired(token: Claims, now: int): (r: bool)
    ensures !r <==> now <= token.expiration
  {
    token.expiration < now
  }

  /**
   * The guard chain of `validateToken`; the first failing guard decides the error. It never
   * returns false: it returns true exactly when all six guards pass, and otherwise throws.
   */
  function ValidateToken(token: Claims, user: UserDetails, now: int): (v: Validation)
    ensures v != Valid(false)
    ensures v == Valid(true) <==>
      token.subject == user.username && token.expiration >= now && user.enabled &&
      user.accountNonExpired && user.credentialsNonExpired && user.accountNonLocked
  {
    if token.subject != user.username then Rejected(InvalidToken)
    else if IsTokenExpired(token, now) then Rejected(TokenExpired)
    else if !user.enabled then Rejected(UserDisabled)
    else if !user.accountNonExpired then Rejected(AccountExpired)
    else if !user.credentialsNonExpired then Rejected(CredentialsExpired)
    else if !user.accountNonLocked then Rejected(AccountLocked)
    else Valid(true)
  }

  /** The six guards as (passes, error-if-not) pairs, in the order validateToken tests them. */
  function Guards(token: Claims, user: UserDetails, now: int): seq<(bool, JwtError)> {
    [ (token.subject == user.username, InvalidToken),
      (!IsTokenExpired(token, now), TokenExpired),
      (user.enabled, UserDisabled),
      (user.accountNonExpired, AccountExpired),
      (user.credentialsNonExpired, CredentialsExpired),
      (user.accountNonLocked, AccountLocked) ]
  }

  /** The error of the first failing guard, if any. */
  function FirstFailure(guards: seq<(bool, JwtError)>): Option<JwtError> {
    if guards == [] then None
    else if !guards[0].0 then Some(guards[0].1)
    else FirstFailure(guards[1..])
  }

  /** validateToken agrees with "the first failing guard of the ordered chain decides". */
  lemma ValidateTokenIsFirstFailure(token: Claims, user: UserDetails, now: int)
    ensures ValidateToken(token, user, now) ==
      match FirstFailure(Guards(token, user, now))
      case None => Valid(true)
      case Some(e) => Rejected(e)
  {
    var g := Guards(token, user, now);
    // unfold the recursion over the six guards, last one first
    var f5 := if user.accountNonLocked then None else Some(AccountLocked);
    var f4 := if user.credentialsNonExpired then f5 else Some(CredentialsExpired);
    var f3 := if user.accountNonExpired then f4 else Some(AccountExpired);
    var f2 := if user.enabled then f3 else Some(UserDisabled);
    var f1 := if !IsTokenExpired(token, now) then f2 else Some(TokenExpired);
    var f0 := if token.subject == user.username then f1 else Some(InvalidToken);
    assert FirstFailure(g[5..]) == f5 by { assert g[5..][1..] == []; }
    assert FirstFailure(g[4..]) == f4 by { assert g[4..][1..] == g[5..]; }
    assert FirstFailure(g[3..]) == f3 by { assert g[3..][1..] == g[4..]; }
    assert FirstFailure(g[2..]) == f2 by { assert g[2..][1..] == g[3..]; }
    assert FirstFailure(g[1..]) == f1 by { assert g[1..][1..] == g[2..]; }
    assert FirstFailure(g) == f0;
  }

  /** A subject mismatch is reported whatever the expiry and the account flags. */
  lemma SubjectMismatchWins(token: Claims, user: UserDetails, now: int)
    requires token.subject != user.username
    ensures ValidateToken(token, user, now) == Rejected(InvalidToken)
  {
  }

  /**
   * A token freshly created for an account with all four flags set validates against the
   * same account at every time up to and including its expiry, and is rejected as expired after.
   */
  lemma FreshTokenValidates(user: UserDetails, issueClock: int, expiryClock: int, jwtTimeout: int, now: int)
    requires user.enabled && user.accountNonExpired && user.credentialsNonExpired && user.accountNonLocked
    ensures var t := CreateTokenFromUserDetails(user, issueClock, expiryClock, jwtTimeout);
      ValidateToken(t, user, now) == if now <= expiryClock + jwtTimeout then Valid(true) else Rejected(TokenExpired)
  {
  }

  /** A token created for one account is rejected against an account with another username. */
  lemma TokenRejectedForOtherUser(user: UserDetails, other: UserDetails, issueClock: int, expiryClock: int, jwtTimeout: int, now: int)
    requires other.username != user.username
    ensures ValidateToken(CreateTokenFromUserDetails(user, issueClock, expiryClock, jwtTimeout), other, now) == Rejected(InvalidToken)
  {
  }
}
