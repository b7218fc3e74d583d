/**
 * `isAuthenticated` of client/src/utils/auth.ts: the stored token counts only
 * while its `exp` claim lies strictly in the future, as section 4.1.4 of
 * RFC 7519 requires.  Reading the stored token and decoding it are
 * parameters; the clock is given in integer milliseconds.
 */
module Session {
  import opened Js

  /** What decoding yields: the `exp` claim in seconds, when the payload has one. */
  datatype Decoded = Decoded(exp: Option<int>)

  /**
   * `decoded.exp > Date.now() / 1000`, compared in milliseconds so that no
   * division is needed: the token is still valid at `nowMs`.
   */
  predicate Unexpired(exp: int, nowMs: int)
  {
    exp * 1000 > nowMs
  }

  /**
   * No token (or an empty one) and a token that does not decode give false;
   * otherwise the answer is whether `exp` is present and still ahead.
   */
  function IsAuthenticated(token: Option<string>, decode: string -> Option<Decoded>, nowMs: int): (r: bool)
    ensures token.None? || token.value == "" ==> !r
    ensures token.Some? && decode(token.value).None? ==> !r
    ensures r <==> token.Some? && token.value != "" && decode(token.value).Some?
                   && decode(token.value).value.exp.Some? && Unexpired(decode(token.value).value.exp.value, nowMs)
  {
    if token.None? || token.value == "" then false
    else
      match decode(token.value)
      case None => false
      case Some(d) => d.exp.Some? && Unexpired(d.exp.value, nowMs)
  }

  /** At the very second of expiry the token no longer counts; one millisecond earlier it does. */
  lemma {:induction false} ExpiryIsStrict(token: string, decode: string -> Option<Decoded>, exp: int)
    requires token != "" && decode(token) == Some(Decoded(Some(exp)))
    ensures !IsAuthenticated(Some(token), decode, exp * 1000)
    ensures IsAuthenticated(Some(token), decode, exp * 1000 - 1)
  {
  }

  /** Authenticated now means authenticated at every earlier time. */
  lemma MonotoneInTime(token: Option<string>, decode: string -> Option<Decoded>, earlier: int, later: int)
    requires earlier <= later && IsAuthenticated(token, decode, later)
    ensures IsAuthenticated(token, decode, earlier)
  {
  }

  /** Not authenticated now means not authenticated at any later time. */
  lemma StaysExpired(token: Option<string>, decode: string -> Option<Decoded>, earlier: int, later: int)
    requires earlier <= later && !IsAuthenticated(token, decode, earlier)
    ensures !IsAuthenticated(token, decode, later)
  {
    if IsAuthenticated(token, decode, later) {
      MonotoneInTime(token, decode, earlier, later);
    }
  }
}
