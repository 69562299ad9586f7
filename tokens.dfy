/**
 * An OAuth access token (src/Rede/OAuth/Token.php): an immutable value whose expiry
 * instant is fixed when it is made. Instants are Unix seconds, passed in by the
 * caller in place of `time()`.
 */
module Tokens {
  import opened Wrappers

  /** Seconds before `expiresAt` from which a token already counts as expired. */
  const SafetyMargin := 60

  datatype Token = Token(accessToken: string, tokenType: string, expiresIn: int, expiresAt: Option<int>)
  {
    /** Expired once fewer than `SafetyMargin` seconds are left; never, without an expiry. */
    predicate IsExpired(now: int) {
      match expiresAt
      case None => false
      case Some(at) => at - SafetyMargin < now
    }

    /** The value of the `Authorization` header (section 2.1 of RFC 6750): type, space, token. */
    function AuthorizationHeader(): (h: string)
      ensures |h| == |tokenType| + 1 + |accessToken|
      ensures h[..|tokenType|] == tokenType && h[|tokenType|] == ' '
      ensures h[|tokenType| + 1..] == accessToken
    {
      tokenType + " " + accessToken
    }
  }

  /** `new Token($accessToken, $tokenType, $expiresIn)` at instant `issuedAt`. */
  function NewToken(accessToken: string, issuedAt: int, tokenType: string := "Bearer", expiresIn: int := 3600): (t: Token)
    ensures t.accessToken == accessToken && t.tokenType == tokenType && t.expiresIn == expiresIn
    ensures t.expiresAt.Some? && t.expiresAt.value == issuedAt + expiresIn
  {
    Token(accessToken, tokenType, expiresIn, Some(issuedAt + expiresIn))
  }

  /** A token made at `issuedAt` is expired at `now` exactly when `issuedAt + expiresIn - 60 < now`. */
  lemma ExpiryRule(accessToken: string, tokenType: string, expiresIn: int, issuedAt: int, now: int)
    ensures NewToken(accessToken, issuedAt, tokenType, expiresIn).IsExpired(now)
        <==> now > issuedAt + expiresIn - SafetyMargin
  {
  }

  /** The default one-hour token is still good 3540 s after issue and expired one second later. */
  lemma DefaultTokenLifetime(accessToken: string, issuedAt: int)
    ensures !NewToken(accessToken, issuedAt).IsExpired(issuedAt)
    ensures !NewToken(accessToken, issuedAt).IsExpired(issuedAt + 3540)
    ensures NewToken(accessToken, issuedAt).IsExpired(issuedAt + 3541)
  {
  }

  /** A token issued with a negative lifetime is expired from the moment it is made. */
  lemma NegativeLifetimeExpired(accessToken: string, tokenType: string, expiresIn: int, issuedAt: int)
    requires expiresIn < 0
    ensures NewToken(accessToken, issuedAt, tokenType, expiresIn).IsExpired(issuedAt)
  {
  }

  /** Once expired, a token stays expired. */
  lemma ExpiryIsPermanent(t: Token, now: int, later: int)
    requires now <= later && t.IsExpired(now)
    ensures t.IsExpired(later)
  {
  }

  /** The header of the token in the test suite. */
  lemma HeaderExample(issuedAt: int)
    ensures NewToken("access_token_123", issuedAt).AuthorizationHeader() == "Bearer access_token_123"
  {
  }

  /** Reads an `Authorization` value back: the text before the first space and the rest. */
  function SplitAtSpace(h: string): (r: Option<(string, string)>)
    ensures r.Some? ==> h == r.value.0 + " " + r.value.1 && ' ' !in r.value.0
    ensures r.None? <==> ' ' !in h
  {
    if h == [] then None
    else if h[0] == ' ' then Some(([], h[1..]))
    else match SplitAtSpace(h[1..])
      case None => None
      case Some((a, b)) => Some(([h[0]] + a, b))
  }

  lemma {:induction false} SplitAtFirstSpace(a: string, b: string)
    requires ' ' !in a
    ensures SplitAtSpace(a + " " + b) == Some((a, b))
  {
    if a != [] {
      assert (a + " " + b)[1..] == a[1..] + " " + b;
      SplitAtFirstSpace(a[1..], b);
      assert [a[0]] + a[1..] == a;
    }
  }

  /**
   * The header determines the token: for a token type without spaces (as "Bearer"),
   * splitting the header at its first space gives back the type and the token.
   */
  lemma HeaderParsesBack(t: Token)
    requires ' ' !in t.tokenType
    ensures SplitAtSpace(t.AuthorizationHeader()) == Some((t.tokenType, t.accessToken))
  {
    SplitAtFirstSpace(t.tokenType, t.accessToken);
  }
}
