/**
 * src/Rede/Http/AuthenticatedHttpClient.php: a one-slot token cache in front of a
 * transport. Every request is sent with the cached token's header; a 401 empties
 * the cache, fetches a new token and resends once.
 *
 * `Protocol` states one `send` as a function of the cache, the clock, the token
 * source and the transport's answers; the class below runs it step by step against
 * real endpoints and is proved to agree with it.
 */
module AuthenticatedHttp {
  import opened Wrappers
  import opened Errors
  import opened Http
  import opened Tokens
  import opened Stores
  import opened OAuth

  const TokenFailurePrefix := "Erro ao obter token OAuth: "
  const SendFailurePrefix := "Erro ao enviar requisição HTTP: "

  /** `$this->token === null || $this->token->isExpired()` */
  predicate NeedsToken(cache: Option<Token>, now: int) {
    cache.None? || cache.value.IsExpired(now)
  }

  /** Only an OAuthException is turned into an HttpException with code 0; a \TypeError is not caught. */
  function WrapTokenFailure(e: Throwable): (w: Throwable)
    ensures e.OAuthException? ==> w == HttpException(TokenFailurePrefix + e.message, 0)
    ensures !e.OAuthException? ==> w == e
  {
    if e.OAuthException? then HttpException(TokenFailurePrefix + e.message, 0) else e
  }

  /** What `ensureValidToken` leaves behind. */
  datatype Refresh = Refresh(outcome: Result<Token, Throwable>, cache: Option<Token>, fetched: bool)

  /**
   * `ensureValidToken`, where `fetched` is what the OAuth client would answer: a
   * usable cached token is kept and nothing is fetched; otherwise one fetch, whose
   * token replaces the cache and whose failure leaves the cache as it was.
   */
  function EnsureValid(cache: Option<Token>, now: int, fetched: Result<Token, Throwable>): (r: Refresh)
    ensures r.fetched <==> NeedsToken(cache, now)
    ensures !r.fetched ==> r.cache == cache && r.outcome == Success(cache.value)
    ensures r.fetched && fetched.Success? ==> r.cache == Some(fetched.value) && r.outcome == fetched
    ensures r.fetched && fetched.Failure? ==>
              r.cache == cache && r.outcome == Failure(WrapTokenFailure(fetched.error))
    ensures r.outcome.Success? ==> r.cache == Some(r.outcome.value)
  {
    if !NeedsToken(cache, now) then Refresh(Success(cache.value), cache, false)
    else match fetched
      case Success(t) => Refresh(Success(t), Some(t), true)
      case Failure(e) => Refresh(Failure(WrapTokenFailure(e)), cache, true)
  }

  /** The request with the token's `Authorization` and JSON `Content-Type` and `Accept`. */
  function Authorize(req: Request, t: Token): Request {
    req.WithHeader("Authorization", t.AuthorizationHeader())
       .WithHeader("Content-Type", "application/json")
       .WithHeader("Accept", "application/json")
  }

  /**
   * `Authorize` sets exactly the three headers, to the token's header and JSON, and
   * keeps the method, the URL, the body and every other header.
   */
  lemma AuthorizeHeaders(req: Request, t: Token)
    ensures var r := Authorize(req, t);
      && r.verb == req.verb && r.url == req.url && r.body == req.body
      && r.headers.Keys == req.headers.Keys + {"Authorization", "Content-Type", "Accept"}
      && Authorized(r, t)
      && SameRequest(r, req)
  {
  }

  /** A request carries `t`'s header and asks for and declares JSON. */
  predicate Authorized(r: Request, t: Token) {
    && "Authorization" in r.headers && r.headers["Authorization"] == t.AuthorizationHeader()
    && "Content-Type" in r.headers && r.headers["Content-Type"] == "application/json"
    && "Accept" in r.headers && r.headers["Accept"] == "application/json"
  }

  /** A request that differs from `req` only in the three headers `send` sets. */
  predicate SameRequest(r: Request, req: Request) {
    && r.verb == req.verb && r.url == req.url && r.body == req.body
    && forall h :: h in req.headers && h !in {"Authorization", "Content-Type", "Accept"} ==>
         h in r.headers && r.headers[h] == req.headers[h]
  }

  /** The end of one `send`: its result, the cache, the tokens fetched and the requests sent. */
  datatype Exchange = Exchange(result: Result<Response, Throwable>, cache: Option<Token>, fetches: nat, sent: seq<Request>)

  /** A transport outcome as `send` reports it. */
  function Delivery(o: Outcome): (r: Result<Response, Throwable>)
    ensures o.Delivered? ==> r == Success(o.response)
    ensures o.Failed? ==> r == Failure(HttpException(SendFailurePrefix + o.reason, 0))
  {
    match o
    case Delivered(resp) => Success(resp)
    case Failed(reason) => Failure(HttpException(SendFailurePrefix + reason, 0))
  }

  /**
   * One `send` of `req` at instant `now`, starting from `cache`. The token source
   * answers `fetch0` to the first fetch of the call and `fetch1` to a second one; the
   * transport answers its k-th call with `respond(k, request)`, and `base` calls were
   * made before this one.
   */
  function Protocol(cache: Option<Token>, now: int, req: Request,
                    fetch0: Result<Token, Throwable>, fetch1: Result<Token, Throwable>,
                    respond: (nat, Request) -> Outcome, base: nat): Exchange
  {
    var first := EnsureValid(cache, now, fetch0);
    var used: nat := if first.fetched then 1 else 0;
    if first.outcome.Failure? then Exchange(Failure(first.outcome.error), first.cache, used, [])
    else
      Attempt(Authorize(req, first.outcome.value), now, if first.fetched then fetch1 else fetch0,
              respond, base, used, first.cache)
  }

  /**
   * The part of `send` once a token is at hand, `used` fetches into the call with
   * `cache` holding it: `r1` goes out as the transport's call number `base`; its
   * answer is the result unless it is a 401, which leads to `Retry` with `fetched`
   * as the next fetch's answer.
   */
  function Attempt(r1: Request, now: int, fetched: Result<Token, Throwable>,
                   respond: (nat, Request) -> Outcome, base: nat, used: nat, cache: Option<Token>): Exchange
  {
    var o1 := respond(base, r1);
    if !(o1.Delivered? && o1.response.status == 401) then Exchange(Delivery(o1), cache, used, [r1])
    else Retry(r1, now, fetched, respond, base + 1, used)
  }

  /**
   * The part of `send` after a 401 to `r1`, `used` fetches into the call: with the
   * cache emptied, one fetch whose answer is `fetched`, then `r1` resent once with
   * the new token's header, as the transport's call number `at`.
   */
  function Retry(r1: Request, now: int, fetched: Result<Token, Throwable>,
                 respond: (nat, Request) -> Outcome, at: nat, used: nat): Exchange
  {
    var second := EnsureValid(None, now, fetched);
    if second.outcome.Failure? then Exchange(Failure(second.outcome.error), second.cache, used + 1, [r1])
    else
      var r2 := r1.WithHeader("Authorization", second.outcome.value.AuthorizationHeader());
      Exchange(Delivery(respond(at, r2)), second.cache, used + 1, [r1, r2])
  }

  /** At most two transport calls and at most two token fetches per `send`; a second call only after a 401. */
  lemma AtMostTwoSends(cache: Option<Token>, now: int, req: Request,
                       fetch0: Result<Token, Throwable>, fetch1: Result<Token, Throwable>,
                       respond: (nat, Request) -> Outcome, base: nat)
    ensures var x := Protocol(cache, now, req, fetch0, fetch1, respond, base);
      && |x.sent| <= 2 && x.fetches <= 2
      && (|x.sent| == 2 ==> respond(base, x.sent[0]).Delivered? && respond(base, x.sent[0]).response.status == 401)
  {
  }

  /**
   * Every request sent is `req` with the JSON headers and the `Authorization` of a
   * token: the first one carries the token `ensureValidToken` gave, a resend after a
   * 401 the token now cached; and after a response the cache holds the token of the
   * last request sent.
   */
  lemma EverySendAuthorized(cache: Option<Token>, now: int, req: Request,
                            fetch0: Result<Token, Throwable>, fetch1: Result<Token, Throwable>,
                            respond: (nat, Request) -> Outcome, base: nat)
    ensures var x := Protocol(cache, now, req, fetch0, fetch1, respond, base);
      forall i :: 0 <= i < |x.sent| ==>
        (&& SameRequest(x.sent[i], req)
         && "Content-Type" in x.sent[i].headers && x.sent[i].headers["Content-Type"] == "application/json"
         && "Accept" in x.sent[i].headers && x.sent[i].headers["Accept"] == "application/json")
    ensures var x := Protocol(cache, now, req, fetch0, fetch1, respond, base);
      x.result.Success? ==> |x.sent| > 0 && x.cache.Some? && Authorized(x.sent[|x.sent| - 1], x.cache.value)
    ensures var first := EnsureValid(cache, now, fetch0);
      var x := Protocol(cache, now, req, fetch0, fetch1, respond, base);
      |x.sent| > 0 ==>
        && first.outcome.Success?
        && x.sent[0] == Authorize(req, first.outcome.value)
        && Authorized(x.sent[0], first.outcome.value)
    ensures var x := Protocol(cache, now, req, fetch0, fetch1, respond, base);
      |x.sent| == 2 ==> x.cache.Some? && Authorized(x.sent[1], x.cache.value)
  {
    var x := Protocol(cache, now, req, fetch0, fetch1, respond, base);
    var first := EnsureValid(cache, now, fetch0);
    if first.outcome.Success? {
      var r1 := Authorize(req, first.outcome.value);
      AuthorizeHeaders(req, first.outcome.value);
      if |x.sent| == 2 {
        var second := EnsureValid(None, now, if first.fetched then fetch1 else fetch0);
        var r2 := r1.WithHeader("Authorization", second.outcome.value.AuthorizationHeader());
        assert x.sent == [r1, r2];
        assert SameRequest(r2, req);
      }
    }
  }

  /** With a usable cached token and a first answer that is not a 401: no fetch, one call, its answer. */
  lemma UsableTokenNoFetch(cache: Option<Token>, now: int, req: Request,
                           fetch0: Result<Token, Throwable>, fetch1: Result<Token, Throwable>,
                           respond: (nat, Request) -> Outcome, base: nat)
    requires !NeedsToken(cache, now)
    requires var o := respond(base, Authorize(req, cache.value)); !(o.Delivered? && o.response.status == 401)
    ensures Protocol(cache, now, req, fetch0, fetch1, respond, base)
         == Exchange(Delivery(respond(base, Authorize(req, cache.value))), cache, 0, [Authorize(req, cache.value)])
  {
  }

  /** A first answer other than 401 is the result, after exactly one transport call. */
  lemma NoRetryWithout401(cache: Option<Token>, now: int, req: Request,
                          fetch0: Result<Token, Throwable>, fetch1: Result<Token, Throwable>,
                          respond: (nat, Request) -> Outcome, base: nat)
    requires EnsureValid(cache, now, fetch0).outcome.Success?
    requires var o := respond(base, Authorize(req, EnsureValid(cache, now, fetch0).outcome.value));
             !(o.Delivered? && o.response.status == 401)
    ensures var x := Protocol(cache, now, req, fetch0, fetch1, respond, base);
      |x.sent| == 1 && x.result == Delivery(respond(base, x.sent[0]))
  {
  }

  /**
   * After a 401 the cache is emptied and a new token is fetched whatever the old
   * token's expiry; with it the request is resent once, and the second answer is
   * the result even when it is again a 401.
   */
  lemma RetryOnceAfter401(cache: Option<Token>, now: int, req: Request,
                          fetch0: Result<Token, Throwable>, fetch1: Result<Token, Throwable>,
                          respond: (nat, Request) -> Outcome, base: nat)
    requires EnsureValid(cache, now, fetch0).outcome.Success?
    requires var o := respond(base, Authorize(req, EnsureValid(cache, now, fetch0).outcome.value));
             o.Delivered? && o.response.status == 401
    ensures var first := EnsureValid(cache, now, fetch0);
      var used: nat := if first.fetched then 1 else 0;
      var fetched := if first.fetched then fetch1 else fetch0;
      var x := Protocol(cache, now, req, fetch0, fetch1, respond, base);
      && x.fetches == used + 1
      && (fetched.Failure? ==>
            x.cache.None? && |x.sent| == 1 && x.result == Failure(WrapTokenFailure(fetched.error)))
      && (fetched.Success? ==>
            && x.cache == Some(fetched.value)
            && |x.sent| == 2
            && x.sent[1] == x.sent[0].WithHeader("Authorization", fetched.value.AuthorizationHeader())
            && x.result == Delivery(respond(base + 1, x.sent[1])))
  {
  }

  /** What the OAuth client can throw. */
  predicate TokenError(r: Result<Token, Throwable>) {
    r.Failure? ==> r.error.OAuthException? || r.error.TypeError?
  }

  /** A failing `send` throws an HttpException with code 0, or lets a \TypeError through. */
  lemma SendFailures(cache: Option<Token>, now: int, req: Request,
                     fetch0: Result<Token, Throwable>, fetch1: Result<Token, Throwable>,
                     respond: (nat, Request) -> Outcome, base: nat)
    requires TokenError(fetch0) && TokenError(fetch1)
    ensures var x := Protocol(cache, now, req, fetch0, fetch1, respond, base);
      x.result.Failure? ==>
        (x.result.error.HttpException? && x.result.error.code == 0) || x.result.error.TypeError?
  {
  }

  /** Once the cache or the first fetch gives a token, `send` goes on as `Attempt`. */
  lemma ProtocolAfterToken(cache: Option<Token>, now: int, req: Request,
                           fetch0: Result<Token, Throwable>, fetch1: Result<Token, Throwable>,
                           respond: (nat, Request) -> Outcome, base: nat)
    requires EnsureValid(cache, now, fetch0).outcome.Success?
    ensures var first := EnsureValid(cache, now, fetch0);
      Protocol(cache, now, req, fetch0, fetch1, respond, base)
        == Attempt(Authorize(req, first.outcome.value), now, if first.fetched then fetch1 else fetch0,
                   respond, base, if first.fetched then 1 else 0, first.cache)
  {
  }

  /** `n` copies of `r`. */
  function Repeat(r: Request, n: nat): (rs: seq<Request>)
    ensures |rs| == n && forall i :: 0 <= i < n ==> rs[i] == r
  {
    if n == 0 then [] else Repeat(r, n - 1) + [r]
  }

  lemma {:induction false} RepeatConcat(r: Request, m: nat, n: nat)
    ensures Repeat(r, m) + Repeat(r, n) == Repeat(r, m + n)
  {
    if n > 0 {
      RepeatConcat(r, m, n - 1);
      assert Repeat(r, m) + Repeat(r, n) == Repeat(r, m) + Repeat(r, n - 1) + [r];
    }
  }

  lemma AppendRepeats(s: seq<Request>, r: Request, m: nat, n: nat)
    ensures s + Repeat(r, m) + Repeat(r, n) == s + Repeat(r, m + n)
  {
    RepeatConcat(r, m, n);
    assert s + Repeat(r, m) + Repeat(r, n) == s + (Repeat(r, m) + Repeat(r, n));
  }

  /** The client: the store's credentials, its OAuth client, its transport and the token cache. */
  class AuthenticatedHttpClient {
    const store: Store
    const oauth: OAuthClient
    const http: Endpoint<Outcome>
    var token: Option<Token>
    /** What the OAuth client answers this client's k-th token request at instant `now`. */
    ghost const grants: (nat, int) -> Result<Token, Throwable>

    /**
     * API calls and token requests go through different transports, and `grants`
     * is the OAuth client's answer to the store's credentials.
     */
    ghost predicate Valid() {
      && http != oauth.channel
      && forall k: nat, now: int {:trigger oauth.Reply(k, store.filiation, store.token, now)} ::
           grants(k, now) == oauth.Reply(k, store.filiation, store.token, now)
    }

    constructor (store: Store, oauth: OAuthClient, http: Endpoint<Outcome>)
      requires http != oauth.channel
      ensures Valid()
      ensures this.store == store && this.oauth == oauth && this.http == http && token == None
    {
      this.store := store;
      this.oauth := oauth;
      this.http := http;
      token := None;
      grants := (k: nat, now: int) => oauth.Reply(k, store.filiation, store.token, now);
    }

    /** The token requests of this client, from the store's filiation and token. */
    function TokenRequestOf(): Request {
      TokenRequest(oauth.tokenEndpoint, store.filiation, store.token)
    }

    /** `ensureValidToken`; `err` is what it throws. */
    method EnsureValidToken(now: int) returns (err: Option<Throwable>)
      requires Valid()
      modifies this, oauth.channel
      ensures var s := EnsureValid(old(token), now, grants(|old(oauth.channel.sent)|, now));
        && token == s.cache
        && err == (if s.outcome.Failure? then Some(s.outcome.error) else None)
        && oauth.channel.sent == old(oauth.channel.sent) + Repeat(TokenRequestOf(), if s.fetched then 1 else 0)
      ensures err.None? ==> token.Some?
    {
      err := None;
      if token.None? || token.value.IsExpired(now) {
        var fetched := oauth.GetAccessToken(store.filiation, store.token, now);
        match fetched
        case Success(t) => token := Some(t);
        case Failure(e) => err := Some(WrapTokenFailure(e));
      }
    }

    /**
     * The retry of `send` after a 401 to `r1`, sent as the transport's call number
     * `at - 1`: empty the cache, get a token, resend with its header.
     */
    method ResendWithNewToken(r1: Request, now: int, ghost fetched: Result<Token, Throwable>, ghost at: nat, ghost used: nat)
      returns (r: Result<Response, Throwable>)
      requires Valid() && |http.sent| == at && fetched == grants(|oauth.channel.sent|, now)
      modifies this, http, oauth.channel
      ensures var y := Retry(r1, now, fetched, http.respond, at, used);
        && r == y.result
        && token == y.cache
        && |y.sent| >= 1 && y.sent[0] == r1
        && http.sent == old(http.sent) + y.sent[1..]
        && oauth.channel.sent == old(oauth.channel.sent) + Repeat(TokenRequestOf(), 1)
    {
      token := None;
      var err := EnsureValidToken(now);
      if err.Some? {
        r := Failure(err.value);
        return;
      }
      var r2 := r1.WithHeader("Authorization", token.value.AuthorizationHeader());
      var o2 := http.Send(r2);
      r := Delivery(o2);
    }

    /** `send`: agrees with `Protocol` on its result, the new cache and every request it makes. */
    method Send(req: Request, now: int) returns (r: Result<Response, Throwable>)
      requires Valid()
      modifies this, http, oauth.channel
      ensures var x := Protocol(old(token), now, req,
                                grants(old(|oauth.channel.sent|), now), grants(old(|oauth.channel.sent|) + 1, now),
                                http.respond, old(|http.sent|));
        && r == x.result
        && token == x.cache
        && http.sent == old(http.sent) + x.sent
        && oauth.channel.sent == old(oauth.channel.sent) + Repeat(TokenRequestOf(), x.fetches)
    {
      ghost var tokens0 := |oauth.channel.sent|;
      ghost var fetch0 := grants(tokens0, now);
      ghost var fetch1 := grants(tokens0 + 1, now);
      ghost var base := |http.sent|;
      ghost var sent0 := oauth.channel.sent;
      ghost var first := EnsureValid(token, now, fetch0);
      ghost var used: nat := if first.fetched then 1 else 0;
      var err := EnsureValidToken(now);
      if err.Some? {
        r := Failure(err.value);
        return;
      }
      assert first.outcome == Success(token.value) && first.cache == token;
      ghost var next := if first.fetched then fetch1 else fetch0;
      assert next == grants(|oauth.channel.sent|, now) by {
        assert |oauth.channel.sent| == tokens0 + used;
      }
      var r1 := Authorize(req, token.value);
      ProtocolAfterToken(old(token), now, req, fetch0, fetch1, http.respond, base);
      ghost var y := Attempt(r1, now, next, http.respond, base, used, token);
      assert oauth.channel.sent == sent0 + Repeat(TokenRequestOf(), used);
      r := SendAuthorized(r1, now, next, base, used);
      AppendRepeats(sent0, TokenRequestOf(), used, y.fetches - used);
    }

    /** `send` from the first transport call on, with a token in the cache. */
    method SendAuthorized(r1: Request, now: int, ghost fetched: Result<Token, Throwable>, ghost base: nat, ghost used: nat)
      returns (r: Result<Response, Throwable>)
      requires Valid() && fetched == grants(|oauth.channel.sent|, now) && base == |http.sent|
      modifies this, http, oauth.channel
      ensures var y := Attempt(r1, now, fetched, http.respond, base, used, old(token));
        && r == y.result
        && token == y.cache
        && http.sent == old(http.sent) + y.sent
        && y.fetches - used in {0, 1}
        && oauth.channel.sent == old(oauth.channel.sent) + Repeat(TokenRequestOf(), y.fetches - used)
    {
      var o1 := http.Send(r1);
      if o1.Delivered? && o1.response.status == 401 {
        r := ResendWithNewToken(r1, now, fetched, |http.sent|, used);
      } else {
        r := Delivery(o1);
      }
    }
  }
}
