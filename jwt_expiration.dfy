/** The local, advisory expiry check on a bearer or refresh token (`verify_jwt_expiration`).
    The signature is never checked; only the `exp` claim of the decoded payload matters. */
module Jwt {
  import opened Wrappers

  /** A non-empty token string as the JWT decoder sees it: either decoding fails (or yields an
      `exp` that is not a number), or it yields a payload whose `exp` claim may be missing.
      An absent or empty token string is `None` wherever a token is optional. */
  datatype Token = Malformed | Decoded(exp: Option<int>)

  /** `datetime.fromtimestamp` only accepts instants in the years 1 to 9999 (bounds in UTC
      seconds); any other `exp` makes it raise, and the check answers false. */
  const MinTimestamp: int := -62135596800
  const MaxTimestamp: int := 253402300799

  predicate Representable(t: int) {
    MinTimestamp <= t <= MaxTimestamp
  }

  /** True when the token is present, decodes, carries a non-zero representable `exp`, and
      `now` is strictly before it. */
  predicate VerifyExpiration(token: Option<Token>, now: int)
    ensures VerifyExpiration(token, now) ==>
      token.Some? && token.value.Decoded? && token.value.exp.Some? &&
      token.value.exp.value != 0 && now < token.value.exp.value
  {
    match token
    case None => false
    case Some(Malformed) => false
    case Some(Decoded(exp)) =>
      if exp.None? || exp.value == 0 then false
      else if !Representable(exp.value) then false
      else now < exp.value
  }

  /** A token is usable exactly while the clock is strictly before its `exp`. */
  lemma ValidExactlyBeforeExpiry(e: int, now: int)
    requires e != 0 && Representable(e)
    ensures VerifyExpiration(Some(Decoded(Some(e))), now) <==> now < e
  {
  }

  /** Every other shape of token is rejected whatever the time. */
  lemma UnusableTokensAreRejected(now: int)
    ensures !VerifyExpiration(None, now)
    ensures !VerifyExpiration(Some(Malformed), now)
    ensures !VerifyExpiration(Some(Decoded(None)), now)
    ensures !VerifyExpiration(Some(Decoded(Some(0))), now)
    ensures forall e :: !Representable(e) ==> !VerifyExpiration(Some(Decoded(Some(e))), now)
  {
  }

  /** Validity never comes back once lost: a token valid now was valid at every earlier instant,
      and is invalid from its `exp` on. */
  lemma ValidityIsMonotone(t: Option<Token>, now: int, earlier: int, later: int)
    requires VerifyExpiration(t, now)
    requires earlier <= now
    requires later >= t.value.exp.value
    ensures VerifyExpiration(t, earlier)
    ensures !VerifyExpiration(t, later)
  {
  }

  /** The two reference instants: an hour ahead is valid, a second ago is expired. */
  lemma HourAheadValidSecondAgoExpired(now: int)
    requires Representable(now + 3600) && now + 3600 != 0
    ensures VerifyExpiration(Some(Decoded(Some(now + 3600))), now)
    ensures !VerifyExpiration(Some(Decoded(Some(now - 1))), now)
  {
  }
}
