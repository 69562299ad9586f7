/**
 * The OAuth 2.0 client-credentials grant (section 4.4 of RFC 6749) as
 * src/Rede/OAuth/OAuthClient.php runs it: one POST to the token endpoint, then a
 * chain of checks on the reply. Logging is not modelled.
 */
module OAuth {
  import opened Wrappers
  import opened Json
  import opened Errors
  import opened Php
  import opened Encoding
  import opened Http
  import opened Tokens

  const TransportFailurePrefix := "Erro ao comunicar com servidor OAuth: "
  const InvalidReplyPrefix := "Resposta inválida do servidor OAuth: "
  const RefusedPrefix := "Erro ao obter token: "
  const MissingTokenMessage := "Token de acesso não encontrado na resposta"

  /**
   * The HTTP Basic credentials: "Basic " and the Base64 of the UTF-8 bytes of
   * `clientId:clientSecret`. The id and secret are not form-encoded first.
   */
  function BasicCredentials(clientId: string, clientSecret: string): (h: string)
    ensures |h| >= 6 && h[..6] == "Basic "
    ensures forall i :: 6 <= i < |h| ==> IsBase64Char(h[i])
    ensures Base64Decode(h[6..]) == Utf8(clientId + ":" + clientSecret)
  {
    var secret := Utf8(clientId + ":" + clientSecret);
    Base64RoundTrip(secret);
    var h := "Basic " + Base64Encode(secret);
    assert h[6..] == Base64Encode(secret);
    h
  }

  /** The token request: a form POST of `grant_type=client_credentials`. */
  function TokenRequest(tokenEndpoint: string, clientId: string, clientSecret: string): (r: Request)
    ensures r.verb == "POST" && r.url == tokenEndpoint
    ensures r.headers.Keys == {"Authorization", "Content-Type"}
    ensures r.headers["Authorization"] == BasicCredentials(clientId, clientSecret)
    ensures r.headers["Content-Type"] == "application/x-www-form-urlencoded"
    ensures r.body == FormBody(map["grant_type" := "client_credentials"])
  {
    Request("POST", tokenEndpoint,
            map["Authorization" := BasicCredentials(clientId, clientSecret),
                "Content-Type" := "application/x-www-form-urlencoded"],
            FormBody(map["grant_type" := "client_credentials"]))
  }

  /** The message of a refused grant: `error` and `error_description`, with their defaults. */
  function RefusalMessage(data: Json): string {
    RefusedPrefix + Render(data.Get("error").GetOr(JString("unknown_error")))
      + " - " + Render(data.Get("error_description").GetOr(JString("Erro desconhecido")))
  }

  /**
   * The reply checks of `getAccessToken`, in their order: transport failure, body
   * not JSON, status not 200, no `access_token`. A token made from a non-string
   * `access_token` or `token_type` is a \TypeError, which the method does not catch.
   */
  function ReadTokenReply(o: Outcome, now: int): (r: Result<Token, Throwable>)
    ensures o.Failed? ==> r == Failure(OAuthException(TransportFailurePrefix + o.reason))
    ensures o.Delivered? && o.response.body.Malformed? ==>
              r == Failure(OAuthException(InvalidReplyPrefix + o.response.body.reason))
    ensures r.Failure? ==> r.error.OAuthException? || r.error.TypeError?
  {
    match o
    case Failed(reason) => Failure(OAuthException(TransportFailurePrefix + reason))
    case Delivered(resp) =>
      match resp.body
      case Malformed(why) => Failure(OAuthException(InvalidReplyPrefix + why))
      case Decoded(data) =>
        if resp.status != 200 then Failure(OAuthException(RefusalMessage(data)))
        else if data.Get("access_token").None? then Failure(OAuthException(MissingTokenMessage))
        else
          var accessToken := data.Get("access_token").value;
          var tokenType := data.Get("token_type").GetOr(JString("Bearer"));
          var expiresIn := ToInt(data.Get("expires_in").GetOr(JInt(3600)));
          if !accessToken.JString? then Failure(TypeError("accessToken"))
          else if !tokenType.JString? then Failure(TypeError("tokenType"))
          else Success(NewToken(accessToken.s, now, tokenType.s, expiresIn))
  }

  /** A reply from which a token can be made: a JSON 200 with a string token and, if any, a string type. */
  predicate Grantable(o: Outcome) {
    && o.Delivered?
    && o.response.status == 200
    && o.response.body.Decoded?
    && var data := o.response.body.doc;
    && data.Get("access_token").Some? && data.Get("access_token").value.JString?
    && (data.Get("token_type").None? || data.Get("token_type").value.JString?)
  }

  /**
   * A token is granted exactly for a grantable reply, and it is the reply's token with
   * type "Bearer" and a lifetime of 3600 s when those are absent, issued now.
   */
  lemma GrantedExactly(o: Outcome, now: int)
    ensures ReadTokenReply(o, now).Success? <==> Grantable(o)
    ensures Grantable(o) ==>
      var data := o.response.body.doc;
      ReadTokenReply(o, now).value == NewToken(
        data.Get("access_token").value.s, now,
        if data.Get("token_type").Some? then data.Get("token_type").value.s else "Bearer",
        if data.Get("expires_in").Some? then ToInt(data.Get("expires_in").value) else 3600)
  {
  }

  /** A body that is not JSON is reported as such whatever the status: that check comes first. */
  lemma MalformedBeforeStatus(status: int, why: string, now: int)
    ensures ReadTokenReply(Delivered(Response(status, Malformed(why))), now)
         == Failure(OAuthException(InvalidReplyPrefix + why))
  {
  }

  /** Any status but 200 on a JSON reply is a refusal naming `error` and `error_description`. */
  lemma RefusedOnStatus(status: int, data: Json, now: int)
    requires status != 200
    ensures ReadTokenReply(Delivered(Response(status, Decoded(data))), now)
         == Failure(OAuthException(RefusalMessage(data)))
  {
  }

  /** A refusal with a string `error` and no `error_description` reads "Erro ao obter token: <error> - Erro desconhecido". */
  lemma RefusalDefaultDescription(data: Json, error: string)
    requires data.Get("error") == Some(JString(error)) && data.Get("error_description").None?
    ensures RefusalMessage(data) == "Erro ao obter token: " + error + " - Erro desconhecido"
  {
  }

  /** A refusal with neither field reads "Erro ao obter token: unknown_error - Erro desconhecido". */
  lemma RefusalDefaultError()
    ensures RefusalMessage(JObject(map[])) == RefusedPrefix + "unknown_error" + " - " + "Erro desconhecido"
  {
    var data: Json := JObject(map[]);
    assert data.Get("error") == None && data.Get("error_description") == None;
  }

  /** A 200 reply without `access_token` (or with a null one) is refused. */
  lemma MissingAccessToken(data: Json, now: int)
    requires data.Get("access_token").None?
    ensures ReadTokenReply(Delivered(Response(200, Decoded(data))), now)
         == Failure(OAuthException(MissingTokenMessage))
  {
  }

  /** The grant of the test suite, and the same grant with `token_type` and `expires_in` left out. */
  lemma GrantExamples(now: int)
    ensures ReadTokenReply(Delivered(Response(200, Decoded(JObject(map[
              "access_token" := JString("test_token"), "token_type" := JString("Bearer"),
              "expires_in" := JInt(3600)])))), now)
         == Success(NewToken("test_token", now, "Bearer", 3600))
    ensures ReadTokenReply(Delivered(Response(200, Decoded(JObject(map[
              "access_token" := JString("test_token")])))), now)
         == Success(NewToken("test_token", now, "Bearer", 3600))
  {
  }

  /** The OAuth client: a token endpoint and the transport it posts to. */
  class OAuthClient {
    const tokenEndpoint: string
    const channel: Endpoint<Outcome>

    constructor (tokenEndpoint: string, channel: Endpoint<Outcome>)
      ensures this.tokenEndpoint == tokenEndpoint && this.channel == channel
    {
      this.tokenEndpoint := tokenEndpoint;
      this.channel := channel;
    }

    /** What `getAccessToken` gives when its request is the channel's k-th. */
    function Reply(k: nat, clientId: string, clientSecret: string, now: int): Result<Token, Throwable> {
      ReadTokenReply(channel.respond(k, TokenRequest(tokenEndpoint, clientId, clientSecret)), now)
    }

    /** `getAccessToken`: one token request, then the reply checks. */
    method GetAccessToken(clientId: string, clientSecret: string, now: int) returns (r: Result<Token, Throwable>)
      modifies channel
      ensures channel.sent == old(channel.sent) + [TokenRequest(tokenEndpoint, clientId, clientSecret)]
      ensures r == Reply(|old(channel.sent)|, clientId, clientSecret, now)
      ensures r.Failure? ==> r.error.OAuthException? || r.error.TypeError?
    {
      var o := channel.Send(TokenRequest(tokenEndpoint, clientId, clientSecret));
      r := ReadTokenReply(o, now);
    }

    /** `refreshToken` ignores the old token and asks for a new one exactly as `getAccessToken` does. */
    method RefreshToken(old_token: Token, clientId: string, clientSecret: string, now: int) returns (r: Result<Token, Throwable>)
      modifies channel
      ensures channel.sent == old(channel.sent) + [TokenRequest(tokenEndpoint, clientId, clientSecret)]
      ensures r == Reply(|old(channel.sent)|, clientId, clientSecret, now)
    {
      r := GetAccessToken(clientId, clientSecret, now);
    }
  }
}
