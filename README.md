# eRede SDK core in Dafny

This project models the deterministic core of the eRede PHP SDK (an OAuth 2.0 client for the
eRede card-payment gateway) and proves properties of the model. The core has two parts:

- **The transaction wire contract.**
  - `Transaction` sanitises the merchant reference and, through its fluent mutators, builds the
    body of the creation request (`toArray`).
  - `TransactionResponse` and `Authorization` read the gateway's two reply shapes: the query
    shape nests the fields under `authorization`; the creation shape keeps them at the top level
    and infers the status from `returnCode`.
  - `eRede` runs the six gateway operations: `create`, `capture`, `cancel`, `get`,
    `getByReference` and `getRefunds`.
- **The OAuth pipeline.**
  - `Token` is an immutable token with a 60-second expiry margin.
  - `OAuthClient` runs the client-credentials grant (section 4.4 of RFC 6749) and checks the
    token endpoint's reply.
  - `AuthenticatedHttpClient` keeps a one-slot token cache, authorises every request (section
    2.1 of RFC 6750), and resends once after a 401.

Modules, one per source file plus shared helpers:

| module | file | models |
|---|---|---|
| `Wrappers` | wrappers.dfy | `Option`, `Result` |
| `Json` | json.dfy | decoded JSON values as PHP arrays see them (`isset`, `??`, `$x[0]`) |
| `Errors` | errors.dfy | the throwables: OAuthException, HttpException, other exceptions, \TypeError |
| `Php` | php.dfy | `empty()`, `round()`, `(int)` casts, string conversion, strict-typed property assignment |
| `Encoding` | encoding.dfy | UTF-8, Base64 (section 4 of RFC 4648), `urlencode` |
| `Http` | http.dfy | requests, responses, and `Endpoint`, a transport whose k-th answer is a parameter |
| `Stores` | stores.dfy | `Environment`, `Store` |
| `Tokens` | tokens.dfy | src/Rede/OAuth/Token.php |
| `OAuth` | oauth.dfy | src/Rede/OAuth/OAuthClient.php |
| `AuthenticatedHttp` | authenticated_http.dfy | src/Rede/Http/AuthenticatedHttpClient.php |
| `Records` | records.dfy | the value objects a transaction carries (card, MCC, IATA, device, 3-D Secure, URL) |
| `Transactions` | transactions.dfy | src/Rede/Transaction.php |
| `Authorizations` | authorizations.dfy | src/Rede/Authorization.php |
| `Responses` | responses.dfy | src/Rede/TransactionResponse.php, src/Rede/ThreeDSecureResponse.php |
| `Gateway` | gateway.dfy | src/Rede/eRede.php |

Modelling choices:

- **Objects with mutable state are classes.** These are the transaction and its fluent mutators,
  the authenticated client and its token cache, and the transports with their logs of sent
  requests.
  - Each state-changing method states its whole new state, tied to a function of the old state.
  - The functions carry the properties: `Transactions.Request` for `toArray`,
    `AuthenticatedHttp.Protocol` for `send`, and `Gateway.Interpret` for what an operation makes
    of its reply.
- **Transports are `Http.Endpoint` objects.**
  - Call number k gets the answer `respond(k, request)`, where `respond` is a parameter.
  - The number of transport calls is the length of the endpoint's `sent` log.
  - The clock is a parameter `now`.
- **Exceptions are `Result` failures.**
  - PHP's strict-typed property assignments and `array` parameters throw a \TypeError when
    given a value of the wrong type. These are modelled as `Errors.TypeError`.
  - A \TypeError is an \Error, not an \Exception, so the `catch (\Exception $e)` blocks of
    eRede.php do not re-wrap it. The model keeps that distinction
    (`Gateway.FailuresAreHttpOrTypeErrors`, `AuthenticatedHttp.SendFailures`).
- **Amounts are exact `real`s.** `round($amount * 100)` is round-half-away-from-zero on the
  exact product.
- **Where this model follows the code rather than the prose:**
  - PHP's `empty("0")` is true. So a reference argument "0" is stored as "", and a stored
    reference "0" (from "0!", say) is left out of the body (`Transactions.ZeroReference`,
    `Transactions.RequestFixedKeys`).
  - In the creation shape, the synthesised authorization's status comes from `determineStatus`.
    In the query shape, `Authorization` reads `status` verbatim and never looks at `returnCode`.

## Model

| member | source | states |
|---|---|---|
| Tokens.Token.AuthorizationHeader | src/Rede/OAuth/Token.php:58-61 | the header value is the token type, one space, then the access token |
| Tokens.NewToken | src/Rede/OAuth/Token.php:17-26 | the arguments are stored unchanged (type "Bearer" and lifetime 3600 by default), and `expiresAt` is set to issue instant + `expiresIn`, never null |
| Tokens.ExpiryRule | src/Rede/OAuth/Token.php:48-56 | a token made at `issuedAt` is expired at `now` if and only if `issuedAt + expiresIn - 60 < now` |
| Tokens.DefaultTokenLifetime | src/Rede/OAuth/Token.php:55 | a default token issued at t is not expired at t or t+3540, and is expired at t+3541 |
| Tokens.NegativeLifetimeExpired | tests/Unit/OAuth/TokenTest.php:29-34 | a token with a negative lifetime is expired at its issue instant |
| Tokens.ExpiryIsPermanent | src/Rede/OAuth/Token.php:48-56 | once expired, a token stays expired at every later instant |
| Tokens.HeaderExample | tests/Unit/OAuth/TokenTest.php:36-41 | the default token "access_token_123" gives "Bearer access_token_123" |
| Tokens.SplitAtSpace | src/Rede/OAuth/Token.php:60 | the reader of the format line 60 writes (the source itself never parses a header): the part before the first space has no space, and the two parts with one space between give the header back; no space gives none |
| Tokens.SplitAtFirstSpace | src/Rede/OAuth/Token.php:60 | splitting `a + " " + b` at the first space gives back `a` and `b` when `a` has no space |
| Tokens.HeaderParsesBack | src/Rede/OAuth/Token.php:60 | a header parses back into the token's type and access token when the type has no space |
| OAuth.BasicCredentials | src/Rede/OAuth/OAuthClient.php:47 | the header starts with "Basic ", the rest is Base64 characters only, and it decodes to the UTF-8 bytes of `clientId:clientSecret` |
| OAuth.TokenRequest | src/Rede/OAuth/OAuthClient.php:45-53 | the token request is a POST to the token endpoint with exactly the Basic `Authorization` and form `Content-Type` headers, and body `grant_type=client_credentials` |
| OAuth.ReadTokenReply | src/Rede/OAuth/OAuthClient.php:55-90 | a transport failure and a non-JSON body each give their own OAuthException; every failure is an OAuthException or a \TypeError |
| OAuth.GrantedExactly | src/Rede/OAuth/OAuthClient.php:70-78 | a token is granted if and only if the reply is a JSON 200 with a string `access_token` (and a string `token_type`, if any); it is issued now, with type "Bearer" and lifetime 3600 as defaults |
| OAuth.MalformedBeforeStatus | src/Rede/OAuth/OAuthClient.php:56-60 | a body that is not JSON is rejected as such, whatever the status |
| OAuth.RefusedOnStatus | src/Rede/OAuth/OAuthClient.php:62-67 | a JSON reply with a status other than 200 is refused with the `error` / `error_description` message |
| OAuth.RefusalDefaultDescription | src/Rede/OAuth/OAuthClient.php:64-66 | a missing `error_description` reads "Erro desconhecido" |
| OAuth.RefusalDefaultError | src/Rede/OAuth/OAuthClient.php:63-66 | with neither field, the message reads "Erro ao obter token: unknown_error - Erro desconhecido" |
| OAuth.MissingAccessToken | src/Rede/OAuth/OAuthClient.php:70-72 | a 200 reply without `access_token` fails with "Token de acesso não encontrado na resposta" |
| OAuth.GrantExamples | tests/Unit/OAuth/OAuthClientTest.php:17-35 | the test's grant gives token "test_token", type "Bearer", lifetime 3600, and so does the same grant without `token_type` and `expires_in` |
| OAuth.OAuthClient.constructor | src/Rede/OAuth/OAuthClient.php:21-29 | keeps the token endpoint and the transport |
| OAuth.OAuthClient.GetAccessToken | src/Rede/OAuth/OAuthClient.php:39-91 | sends exactly one token request, and its result is `ReadTokenReply` of that call's answer |
| OAuth.OAuthClient.RefreshToken | src/Rede/OAuth/OAuthClient.php:102-107 | behaves exactly as `GetAccessToken`, ignoring the old token |
| Encoding.Utf8 | src/Rede/OAuth/OAuthClient.php:47 | UTF-8 never gives fewer bytes than characters |
| Encoding.Utf8Concat | src/Rede/OAuth/OAuthClient.php:47 | the UTF-8 of a concatenation is the concatenation of the UTF-8 encodings |
| Encoding.Base64Encode | src/Rede/OAuth/OAuthClient.php:47 | the output has 4 characters per started group of 3 bytes, all from the Base64 alphabet or padding |
| Encoding.Base64RoundTrip | src/Rede/OAuth/OAuthClient.php:47 | decoding the encoding of any byte string gives it back |
| Encoding.UrlEncode | src/Rede/eRede.php:191 | the output holds only letters, digits, '-', '_', '.', '%' and '+' |
| Encoding.UrlEncodeKeepsAlnum | src/Rede/eRede.php:191 | a string of ASCII letters and digits is unchanged |
| Http.Request.WithHeader | src/Rede/Http/AuthenticatedHttpClient.php:47-49 | sets one header to the value given; keeps the method, URL, body and every other header |
| Http.DecodedBody | src/Rede/eRede.php:51 | a decoded body is its document; a body that is not JSON reads as null |
| Http.Endpoint.constructor | src/Rede/Http/AuthenticatedHttpClient.php:26-34 | a transport that has sent nothing yet |
| Http.Endpoint.Send | src/Rede/Http/AuthenticatedHttpClient.php:52 | logs the request and answers with the transport's answer to that call |
| AuthenticatedHttp.WrapTokenFailure | src/Rede/Http/AuthenticatedHttpClient.php:82-84 | an OAuthException becomes an HttpException "Erro ao obter token OAuth: ..." with code 0; anything else passes unchanged |
| AuthenticatedHttp.EnsureValid | src/Rede/Http/AuthenticatedHttpClient.php:74-86 | fetches if and only if the cache is empty or expired; a usable cache is kept; a fetched token replaces it; a failed fetch leaves it and throws |
| AuthenticatedHttp.AuthorizeHeaders | src/Rede/Http/AuthenticatedHttpClient.php:47-49 | sets exactly `Authorization` (the token's header), `Content-Type` and `Accept` (JSON), and keeps everything else |
| AuthenticatedHttp.Delivery | src/Rede/Http/AuthenticatedHttpClient.php:62-65 | a response is returned as it came; a transport failure becomes an HttpException "Erro ao enviar requisição HTTP: ..." with code 0 |
| AuthenticatedHttp.AtMostTwoSends | src/Rede/Http/AuthenticatedHttpClient.php:52-62 | one `send` makes at most two transport calls and two token fetches, and a second call only after a 401 |
| AuthenticatedHttp.EverySendAuthorized | src/Rede/Http/AuthenticatedHttpClient.php:47-59 | every request sent is the caller's request with the JSON headers; the first one sent carries the `Authorization` of the token `ensureValidToken` gave, whatever becomes of it; a resend after a 401 carries the newly cached token's; on success, the last one sent carries the cached token's |
| AuthenticatedHttp.UsableTokenNoFetch | src/Rede/Http/AuthenticatedHttpClient.php:74-86 | with a usable cached token and no 401: no fetch, the cache unchanged, one call, its answer returned |
| AuthenticatedHttp.NoRetryWithout401 | src/Rede/Http/AuthenticatedHttpClient.php:52-62 | a first answer other than 401 is the result, after exactly one transport call |
| AuthenticatedHttp.RetryOnceAfter401 | src/Rede/Http/AuthenticatedHttpClient.php:55-60 | after a 401: the cache is emptied and one fresh token fetched; the request is resent once with the new header, and the second answer is returned even if it is again a 401 |
| AuthenticatedHttp.SendFailures | src/Rede/Http/AuthenticatedHttpClient.php:63-65 | a failing `send` throws an HttpException with code 0, or lets a \TypeError through |
| AuthenticatedHttp.AuthenticatedHttpClient.constructor | src/Rede/Http/AuthenticatedHttpClient.php:26-34 | an empty cache, and token requests answered by the OAuth client for the store's filiation and token |
| AuthenticatedHttp.AuthenticatedHttpClient.EnsureValidToken | src/Rede/Http/AuthenticatedHttpClient.php:74-86 | the new cache and error are `EnsureValid`'s; exactly one token request (filiation as id, token as secret) when a fetch is needed, none otherwise |
| AuthenticatedHttp.AuthenticatedHttpClient.Send | src/Rede/Http/AuthenticatedHttpClient.php:43-66 | the result, the new cache, the requests sent and the token requests are exactly those of `Protocol` |
| AuthenticatedHttp.AuthenticatedHttpClient.SendAuthorized | src/Rede/Http/AuthenticatedHttpClient.php:51-62 | from the first transport call on, `send` agrees with `Attempt` |
| AuthenticatedHttp.AuthenticatedHttpClient.ResendWithNewToken | src/Rede/Http/AuthenticatedHttpClient.php:55-60 | the retry after a 401 agrees with `Retry`, with exactly one token request |
| Php.RoundHalfAway | src/Rede/Transaction.php:204 | the nearest integer, with halves rounded away from zero |
| Php.NullableString | src/Rede/Authorization.php:22-26 | `$v ?? null` stored in a `?string` property: null stays null, a string is kept, anything else is a \TypeError naming the property |
| Php.NullableInt | src/Rede/TransactionResponse.php:35 | `isset($v) ? (int) $v : null`: null exactly when the value is missing or null |
| Php.ReadDigits | src/Rede/Transaction.php:218-219 | `(int)` of a digit string is its decimal value |
| Php.IntOfDecimalString | src/Rede/Transaction.php:218-219 | `(int)` of an integer's decimal string gives the integer back |
| Transactions.Alnum | src/Rede/Transaction.php:35 | the filter's output is no longer than its input and holds only ASCII letters and digits |
| Transactions.AlnumConcat | src/Rede/Transaction.php:35 | the filter works character by character: filtering a concatenation concatenates the filtered parts |
| Transactions.AlnumMembers | src/Rede/Transaction.php:35 | a character survives the filter if and only if it is in the input and alphanumeric |
| Transactions.AlnumKeepsAlnum | src/Rede/Transaction.php:35 | an alphanumeric string passes unchanged |
| Transactions.SanitizeReference | src/Rede/Transaction.php:31-44 | the stored reference is at most 16 characters, all in [A-Za-z0-9] |
| Transactions.SanitizedPrefix | src/Rede/Transaction.php:38-40 | the stored reference is the first min(16, n) of the n characters the filter keeps |
| Transactions.CleanReferenceKept | src/Rede/Transaction.php:31-44 | a non-empty alphanumeric reference of at most 16 characters is stored as given |
| Transactions.SanitizeIdempotent | src/Rede/Transaction.php:31-44 | sanitising a stored reference again changes nothing, unless it is "0" |
| Transactions.ZeroReference | src/Rede/Transaction.php:32 | "0" is PHP-empty and stored as ""; "0!" is stored as "0" |
| Transactions.Initial | src/Rede/Transaction.php:12-45 | a new transaction has the amount, the sanitised reference, capture on, no URLs, and every optional field null |
| Transactions.ChosenCard | src/Rede/Transaction.php:213-229 | the body describes the debit card when there is one, otherwise the credit card |
| Transactions.UrlList | src/Rede/Transaction.php:259 | one map per URL, in insertion order |
| Transactions.RequestFixedKeys | src/Rede/Transaction.php:203-210 | `amount` and `capture` are always in the body; `reference` if and only if the stored reference is not PHP-empty |
| Transactions.RequestCardKeys | src/Rede/Transaction.php:213-229 | every card key is in the body if and only if a card is set |
| Transactions.RequestOptionalKeys | src/Rede/Transaction.php:231-244 | `installments` and `softDescriptor` if and only if set; `additional` if and only if both ids are set |
| Transactions.RequestMerchantKeys | src/Rede/Transaction.php:246-252 | `mcc` and `iata` if and only if set |
| Transactions.RequestSecureKeys | src/Rede/Transaction.php:254-260 | `threeDSecure` if and only if set; `urls` if and only if there is a URL |
| Transactions.AmountAndCapture | src/Rede/Transaction.php:203-206 | `amount` is round(amount × 100) and `capture` is the flag |
| Transactions.DebitWins | src/Rede/Transaction.php:222-229 | with a debit card set, the body has kind "debit" and the debit card's fields, whatever the credit card |
| Transactions.CreditAlone | src/Rede/Transaction.php:213-220 | with only a credit card, the body has kind "credit" and its fields |
| Transactions.PutCardOverwrites | src/Rede/Transaction.php:213-229 | the second card's inserts overwrite every key of the first's |
| Transactions.UrlsInOrder | src/Rede/Transaction.php:258-260 | `urls` lists every URL's map in insertion order |
| Transactions.AdditionalIds | src/Rede/Transaction.php:239-244 | `additional` carries both ids |
| Transactions.CaptureChangesOnlyCapture | src/Rede/Transaction.php:81-85 | changing the capture flag changes the body under `capture` only |
| Transactions.AddUrlAppends | src/Rede/Transaction.php:124-128 | adding a URL appends its map to `urls` and changes nothing else in the body |
| Transactions.CentsExample | tests/Unit/TransactionTest.php:116 | 20.99 is 2099 cents |
| Transactions.ReferenceExample | tests/Unit/TransactionTest.php:21-24 | "pedido123" is stored as given |
| Transactions.ToArrayExample | tests/Unit/TransactionTest.php:108-120 | the unit test's body: amount 2099, reference "pedido123", capture false, installments 3 |
| Transactions.Transaction.constructor | src/Rede/Transaction.php:27-45 | the new transaction is `Initial(amount, reference)` |
| Transactions.Transaction.CreditCard | src/Rede/Transaction.php:47-62 | sets the credit card; nothing else changes |
| Transactions.Transaction.DebitCard | src/Rede/Transaction.php:64-79 | sets the debit card; nothing else changes |
| Transactions.Transaction.SetCapture | src/Rede/Transaction.php:81-85 | sets the capture flag; nothing else changes |
| Transactions.Transaction.SetInstallments | src/Rede/Transaction.php:87-91 | sets the installments; nothing else changes |
| Transactions.Transaction.SetSoftDescriptor | src/Rede/Transaction.php:93-97 | sets the soft descriptor; nothing else changes |
| Transactions.Transaction.SetAdditional | src/Rede/Transaction.php:99-104 | sets both ids; nothing else changes |
| Transactions.Transaction.SetMcc | src/Rede/Transaction.php:106-110 | sets the MCC block; nothing else changes |
| Transactions.Transaction.SetIata | src/Rede/Transaction.php:112-116 | sets the IATA block; nothing else changes |
| Transactions.Transaction.SetThreeDSecure | src/Rede/Transaction.php:118-122 | sets the 3-D Secure block; nothing else changes |
| Transactions.Transaction.AddUrl | src/Rede/Transaction.php:124-128 | appends the URL; nothing else changes |
| Transactions.Transaction.SetTid | src/Rede/Transaction.php:130-134 | sets the tid; nothing else changes |
| Transactions.Transaction.ToArray | src/Rede/Transaction.php:201-263 | the map built insert by insert is exactly `Request` of the transaction's state |
| Transactions.Transaction.PutHead | src/Rede/Transaction.php:203-210 | the first three inserts agree with `Request` on `amount`, `capture` and `reference` |
| Transactions.Transaction.PutCards | src/Rede/Transaction.php:212-229 | the credit and then the debit inserts extend the agreement over the card keys |
| Transactions.Transaction.PutExtras | src/Rede/Transaction.php:231-244 | the next three inserts extend it over `installments`, `softDescriptor` and `additional` |
| Transactions.Transaction.PutMerchant | src/Rede/Transaction.php:246-252 | the next two extend it over `mcc` and `iata` |
| Transactions.Transaction.PutSecure | src/Rede/Transaction.php:254-260 | the last two extend it over `threeDSecure` and `urls` |
| Authorizations.Status | src/Rede/Authorization.php:21 | `$data['status'] ?? ''` in a `string` property: "" when missing, the string when a string, otherwise a \TypeError |
| Authorizations.FromDataSucceeds | src/Rede/Authorization.php:19-27 | the constructor returns if and only if each of the six keys holds a string or nothing |
| Authorizations.FromDataSucceedsByKey | src/Rede/Authorization.php:19-27 | the same, key by key |
| Authorizations.FirstIllTyped | src/Rede/Authorization.php:19-27 | on failure, the \TypeError names the first ill-typed key in the constructor's order |
| Authorizations.FromDataFields | src/Rede/Authorization.php:21-26 | `status` is the string under "status" or ""; every other field is the string under its key, or null when absent |
| Authorizations.MissingStatus | src/Rede/Authorization.php:21 | without a status key the status is "" |
| Authorizations.StatusIgnoresReturnCode | src/Rede/Authorization.php:21-22 | changing the return code never changes the status |
| Responses.DetermineStatus | src/Rede/TransactionResponse.php:75-88 | "" if and only if there is no return code; "Approved" if and only if it is "00"; "Pending" if and only if it is any other code |
| Responses.Source | src/Rede/TransactionResponse.php:30-32 | the fields are read from an array: the nested authorization in the query shape, the payload itself otherwise |
| Responses.NullableArray | src/Rede/ThreeDSecureResponse.php:20 | `?array` assignment: null stays null, an array is kept, anything else is a \TypeError |
| Responses.FieldsSucceed | src/Rede/TransactionResponse.php:32-41 | the nine property assignments succeed if and only if the seven string keys hold strings or nothing; otherwise a \TypeError |
| Responses.FieldsValues | src/Rede/TransactionResponse.php:33-41 | each field is the value under its key (null when absent); `amount` and `installments` are `(int)`-cast |
| Responses.SynthesisedReads | src/Rede/TransactionResponse.php:56-63 | the synthesised authorization copies `tid`, `nsu`, `authorizationCode`, `returnCode` and `returnMessage` from the top level, with status `determineStatus(returnCode)` |
| Responses.SynthesisedTyped | src/Rede/TransactionResponse.php:56-64 | building the synthesised authorization succeeds if and only if its copied keys hold strings or nothing |
| Responses.ThreeDSecureOfSucceeds | src/Rede/TransactionResponse.php:67-69 | the 3-D Secure part is read if and only if it is absent or an array of well-typed fields; otherwise a \TypeError |
| Responses.ParseSucceeds | src/Rede/TransactionResponse.php:24-70 | the constructor returns if and only if the payload is well typed |
| Responses.ParseThrowsTypeError | src/Rede/TransactionResponse.php:24-70 | whatever goes wrong, the constructor throws a \TypeError |
| Responses.QueryShapeFields | src/Rede/TransactionResponse.php:30-41 | with an array-valued `authorization`, every top-level field is read from it |
| Responses.QueryShapeAuthorization | src/Rede/TransactionResponse.php:43 | in the query shape, the authorization is built from the nested data, so `status` is kept verbatim |
| Responses.CreationShapeFields | src/Rede/TransactionResponse.php:44-54 | otherwise, every field is read from the top level |
| Responses.CreationShapeAuthorization | src/Rede/TransactionResponse.php:56-64 | in the creation shape, the authorization copies the top-level fields, with status `determineStatus(returnCode)` |
| Responses.AbsentNumbersStayNull | src/Rede/TransactionResponse.php:35-52 | `amount` and `installments` are null exactly when absent, never 0 |
| Responses.ThreeDSecureEitherShape | src/Rede/TransactionResponse.php:67-69 | the 3-D Secure part is read from the top level in either shape, and is null exactly when absent |
| Gateway.Accepts | src/Rede/eRede.php:53 | `create` accepts 200 and 201; the other five operations accept only 200 (lines 92, 133, 165, 198, 236) |
| Gateway.WrapPrefix | src/Rede/eRede.php:212-216 | the re-wrapping prefix is the rejection prefix, except for `getByReference` |
| Gateway.FailuresAreHttpOrTypeErrors | src/Rede/eRede.php:44-66 | every failure of an operation is an HttpException, except a \TypeError, which escapes |
| Gateway.ClientExceptions | src/Rede/eRede.php:61-65 | an HttpException from the client is rethrown unchanged; any other exception becomes an HttpException with the operation's prefix and code 0 |
| Gateway.ClientErrorsEscape | src/Rede/eRede.php:61-65 | a \TypeError from the client passes through unchanged |
| Gateway.RejectedStatus | src/Rede/eRede.php:53-58 | a status the operation does not accept throws an HttpException carrying that status, its message starting with the operation's prefix |
| Gateway.CreatedOnlyForCreate | src/Rede/eRede.php:92-98 | 201 is a rejection, carrying status 201, for every operation but `create` (capture's check shown; the other four are alike) |
| Gateway.RejectionDetail | src/Rede/eRede.php:54 | the rejection message is `message`, else `returnMessage`, else "Erro desconhecido" |
| Gateway.MalformedRejection | src/Rede/eRede.php:51-58 | a rejected reply that is not JSON reads "... Erro desconhecido" |
| Gateway.AcceptedReply | src/Rede/eRede.php:51-60 | for every operation but `getByReference` (see the next rows for that one): an accepted reply succeeds if and only if its body is a well-typed array, and is then the parsed reply |
| Gateway.MalformedAcceptedReply | src/Rede/eRede.php:51-60 | an accepted reply that is not JSON throws a \TypeError |
| Gateway.ReferenceListTakesFirst | src/Rede/eRede.php:206-211 | a list reply to `getByReference` is read from its first element |
| Gateway.ReferenceObjectAsGet | src/Rede/eRede.php:206-211 | a JSON-object reply to `getByReference` with no key "0" (an object with one is read from that entry, as `isset($responseData[0])` does) succeeds only if `get` would succeed on it, and, when its status is 200, is read exactly as `get` reads it |
| Gateway.CaptureAndRefundAgree | src/Rede/eRede.php:122-127 | for a positive amount, the refund body equals the capture body |
| Gateway.RefundAmount | src/Rede/eRede.php:122-127 | the refund body always has the key `amount`: round(amount × 100) when positive, an explicit null otherwise |
| Gateway.CaptureBodyKeys | src/Rede/eRede.php:82-87 | the capture body holds only `amount` = round(amount × 100) |
| Gateway.ReferenceQueryIsOneParameter | src/Rede/eRede.php:191 | after "?reference=", the URL holds no '&', '=' or '#' |
| Gateway.RefundsUnderTransaction | src/Rede/eRede.php:229 | the refunds URL is the transaction's URL + "/refunds", the cancel request goes to that same URL, and the capture request to the transaction's URL |
| Gateway.ERede.constructor | src/Rede/eRede.php:21-35 | keeps the store and the HTTP client |
| Gateway.DefaultOAuthClient | src/Rede/eRede.php:26-30 | the store's own OAuth client when it has one; otherwise a new one at the store's API URL + "/oauth2/token", exactly as `Stores.TokenEndpoint` builds it |
| Gateway.ERede.Create | src/Rede/eRede.php:44-66 | POSTs `toArray` to /v2/transactions, once; the result is `Interpret` of that call's answer |
| Gateway.ERede.Capture | src/Rede/eRede.php:75-106 | with a null tid: "TID é obrigatório para captura" and nothing sent; otherwise one PUT of the capture body to /v2/transactions/{tid} |
| Gateway.ERede.Cancel | src/Rede/eRede.php:115-147 | with a null tid: "TID é obrigatório para cancelamento" and nothing sent; otherwise one POST of the refund body to .../{tid}/refunds |
| Gateway.ERede.Get | src/Rede/eRede.php:156-179 | one GET of /v2/transactions/{tid}; the result is `Interpret` of its answer |
| Gateway.ERede.GetByReference | src/Rede/eRede.php:188-217 | one GET of /v2/transactions?reference=urlencode(reference); the result is `Interpret` of its answer |
| Gateway.ERede.GetRefunds | src/Rede/eRede.php:226-250 | one GET of /v2/transactions/{tid}/refunds; the result is `Interpret` of its answer |

## Left out

- **The HTTP transport, Guzzle and PSR-7.** The transport is `Http.Endpoint`, whose answers are
  a parameter.
  - Guzzle's `http_errors` option makes a 4xx or 5xx token reply an exception. The model covers
    that case because a transport failure is one of the endpoint's possible answers.
- **Header-name case-insensitivity and the order of keys in JSON objects.** Headers and JSON
  objects are maps. `toArray`'s result is a map from an enumeration of its keys, so the order of
  its keys is not modelled.
- **JSON text.** `json_encode` and `json_decode` are left out: a body is either a decoded value
  or malformed.
  - JSON numbers with a fraction or an exponent are not modelled.
  - A failing `json_encode` is not modelled.
- **Floating point.** Amounts are exact reals. The float error of `$amount * 100` is not
  modelled, and neither is `(int)` saturation at 64 bits.
- **Numeric strings with an exponent.** `Php.IntOfString` reads the sign and leading digits only,
  so `(int) "1e3"` is 1 in the model, where PHP 7.1 and later give 1000. This affects a string
  `expires_in` (src/Rede/OAuth/OAuthClient.php:77) and a string `amount` or `installments` in a
  reply (src/Rede/TransactionResponse.php:35, 39).
- Tokens.NewToken: does not model the 64-bit overflow of `time() + $expiresIn`
  (src/Rede/OAuth/Token.php:25). With a huge `expires_in` the sum becomes a float, and storing it
  in the `?int` property throws a \TypeError under strict_types; the model's integers are
  unbounded, so it returns a token instead.
- **One transport for both clients.** `AuthenticatedHttp.AuthenticatedHttpClient.constructor`
  requires the API transport and the OAuth client's transport to be different objects
  (`http != oauth.channel`). PHP would accept one Guzzle client for both
  (src/Rede/OAuth/OAuthClient.php:23, src/Rede/Http/AuthenticatedHttpClient.php:29). The model
  does not cover that aliasing. The defaults create two separate clients
  (src/Rede/OAuth/OAuthClient.php:27, src/Rede/Http/AuthenticatedHttpClient.php:33), so the
  default wiring meets the requirement.
- **The clock.** `time()` becomes a parameter `now`, which is constant during one `send`.
- **Logger calls in OAuthClient.** These are side effects only.
- **Concurrency on the token cache.**
- Gateway.ERede.constructor: does not build the default AuthenticatedHttpClient of
  src/Rede/eRede.php:31 itself. The gateway takes any HTTP client, as eRede.php allows. The
  choice of OAuth client on lines 26-30 is `Gateway.DefaultOAuthClient`.
- **Environment and Store** (src/Rede/Environment.php, src/Rede/Store.php) are plain records.
  `Stores.Production` and `Stores.Sandbox` hold the two base URLs, and the store's optional
  OAuth client is passed to `Gateway.DefaultOAuthClient` separately.
- **Previous-exception chains (`$previous`).** These are not modelled.
- **PHP getters.** They are the fields of the datatypes and classes. The "each getter returns
  the stored value" property is `Authorizations.FromDataFields` and `Tokens.NewToken`.
- **\TypeError messages.** Each is abstracted to the name of the property or parameter involved.
- **src/Rede/Http/HttpException.php and src/Rede/DebitCard.php are not part of this model.**
  - An HttpException is taken to default its code to 0.
  - A debit card carries the same five fields as a credit card.
- **Client credentials for the token request** are sent as `base64(id:secret)` exactly as the
  code writes them. They are not form-encoded first, as section 2.3.1 of RFC 6749 would have it.
- **Renamed members.** These PHP names clash with fields or keywords in Dafny: `capture(b)` is
  `SetCapture`, and `additional`, `mcc`, `iata` and `threeDSecure` are `SetAdditional`,
  `SetMcc`, `SetIata` and `SetThreeDSecure`. The 3-D Secure reply's `method` field is `verb`.
- **Records.\*.ToJson**: the value objects' `toArray` maps are written out as given, with no
  contract of their own.
