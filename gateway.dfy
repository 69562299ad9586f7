/**
 * src/Rede/eRede.php: the six gateway operations. Each builds one request, hands
 * it to the HTTP client, checks the status against the operation's accepted
 * statuses and reads the reply; every exception that is not already an
 * HttpException is re-wrapped as one with code 0.
 *
 * The HTTP client is left open (`Endpoint`): the gateway works with any client,
 * as eRede accepts any HttpClientInterface.
 */
module Gateway {
  import opened Wrappers
  import opened Json
  import opened Errors
  import opened Http
  import opened Stores
  import Php
  import Encoding
  import Transactions
  import Responses
  import OAuth

  datatype Operation = Create | Capture | Cancel | Get | GetByReference | GetRefunds

  /** The statuses an operation takes as success: 200, and also 201 for a creation. */
  function Accepts(op: Operation, status: int): (ok: bool)
    ensures ok <==> status == 200 || (op == Create && status == 201)
  {
    match op
    case Create => status == 200 || status == 201
    case _ => status == 200
  }

  /** The prefix of the message of a rejected status. */
  function RejectPrefix(op: Operation): string {
    match op
    case Create => "Erro ao criar transação: "
    case Capture => "Erro ao capturar transação: "
    case Cancel => "Erro ao cancelar transação: "
    case Get => "Erro ao consultar transação: "
    case GetByReference => "Erro ao consultar transação: "
    case GetRefunds => "Erro ao consultar cancelamentos: "
  }

  /** The prefix of the message of a re-wrapped exception; only `getByReference` differs. */
  function WrapPrefix(op: Operation): (p: string)
    ensures op != GetByReference ==> p == RejectPrefix(op)
  {
    if op == GetByReference then "Erro ao consultar transação por referência: " else RejectPrefix(op)
  }

  const UnknownError := "Erro desconhecido"
  const TidRequiredForCapture := "TID é obrigatório para captura"
  const TidRequiredForCancel := "TID é obrigatório para cancelamento"

  /** `$responseData['message'] ?? $responseData['returnMessage'] ?? 'Erro desconhecido'`, as concatenated. */
  function ErrorDetail(data: Json): string {
    match data.Get("message")
    case Some(m) => Php.Render(m)
    case None =>
      match data.Get("returnMessage")
      case Some(m) => Php.Render(m)
      case None => UnknownError
  }

  /** `catch (HttpException $e) { throw $e; } catch (\Exception $e) { throw new HttpException(...) }` */
  function Rethrow(op: Operation, e: Throwable): Throwable {
    if e.HttpException? || !e.IsException() then e else HttpException(WrapPrefix(op) + e.message, 0)
  }

  /** What an operation makes of the outcome of its one call to the HTTP client. */
  function Interpret(op: Operation, sent: Result<Response, Throwable>): Result<Responses.TransactionResponse, Throwable> {
    match sent
    case Failure(e) => Failure(Rethrow(op, e))
    case Success(response) =>
      var data := DecodedBody(response);
      if !Accepts(op, response.status) then
        Failure(HttpException(RejectPrefix(op) + ErrorDetail(data), response.status))
      else
        var doc := if op == GetByReference && data.First().Some? then data.First().value else data;
        if doc.IsArray() then Responses.Parse(doc) else Failure(TypeError("data"))
  }

  /** `/v2/transactions/{tid}` under the API's base URL. */
  function TransactionUrl(apiUrl: string, tid: string): string {
    apiUrl + "/v2/transactions/" + tid
  }

  function CreateRequest(apiUrl: string, body: map<Transactions.Key, Json>): Request {
    Request("POST", apiUrl + "/v2/transactions", map[], JsonBody(Transactions.Wire(body)))
  }

  /** The capture body: the amount in cents, nothing else. */
  function CaptureBody(amount: real): Json {
    JObject(map["amount" := JInt(Transactions.Cents(amount))])
  }

  function CaptureRequest(apiUrl: string, tid: string, amount: real): Request {
    Request("PUT", TransactionUrl(apiUrl, tid), map[], JsonBody(CaptureBody(amount)))
  }

  /** The refund body: the amount in cents when positive, an explicit null otherwise. */
  function CancelBody(amount: real): Json {
    JObject(map["amount" := if amount > 0.0 then JInt(Transactions.Cents(amount)) else JNull])
  }

  function CancelRequest(apiUrl: string, tid: string, amount: real): Request {
    Request("POST", TransactionUrl(apiUrl, tid) + "/refunds", map[], JsonBody(CancelBody(amount)))
  }

  function GetRequest(apiUrl: string, tid: string): Request {
    Request("GET", TransactionUrl(apiUrl, tid), map[], NoBody)
  }

  function ReferenceRequest(apiUrl: string, reference: string): Request {
    Request("GET", apiUrl + "/v2/transactions?reference=" + Encoding.UrlEncode(reference), map[], NoBody)
  }

  function RefundsRequest(apiUrl: string, tid: string): Request {
    Request("GET", TransactionUrl(apiUrl, tid) + "/refunds", map[], NoBody)
  }

  /**
   * The promise of the `@throws HttpException` tags, as far as it holds: every
   * failure is an HttpException, except the \TypeError of a reply that cannot be
   * read, which no `catch (\Exception)` catches.
   */
  lemma FailuresAreHttpOrTypeErrors(op: Operation, sent: Result<Response, Throwable>)
    ensures var r := Interpret(op, sent);
      r.Failure? ==> r.error.HttpException? || r.error.TypeError?
  {
    if sent.Success? {
      var data := DecodedBody(sent.value);
      var doc := if op == GetByReference && data.First().Some? then data.First().value else data;
      if Accepts(op, sent.value.status) && doc.IsArray() && Responses.Parse(doc).Failure? {
        Responses.ParseThrowsTypeError(doc);
      }
    }
  }

  /**
   * An exception from the client: an HttpException is rethrown as it is; any other
   * \Exception becomes an HttpException with code 0 and the operation's prefix.
   */
  lemma ClientExceptions(op: Operation, e: Throwable)
    requires e.IsException()
    ensures var r := Interpret(op, Failure(e));
      && r.Failure? && r.error.HttpException?
      && (e.HttpException? ==> r.error == e)
      && (!e.HttpException? ==> r.error.message == WrapPrefix(op) + e.message && r.error.code == 0)
  {
  }

  /** A \TypeError raised under the client (an \Error, not an \Exception) escapes unchanged. */
  lemma ClientErrorsEscape(op: Operation, e: Throwable)
    requires !e.IsException()
    ensures Interpret(op, Failure(e)) == Failure(e)
  {
  }

  /**
   * A status the operation does not accept throws an HttpException carrying that
   * status, whatever the body holds.
   */
  lemma RejectedStatus(op: Operation, response: Response)
    requires !Accepts(op, response.status)
    ensures var r := Interpret(op, Success(response));
      && r.Failure? && r.error.HttpException?
      && r.error.code == response.status
      && r.error.message[..|RejectPrefix(op)|] == RejectPrefix(op)
  {
  }

  /** 201 is a success for `create` only; every other operation rejects it. */
  lemma CreatedOnlyForCreate(op: Operation, response: Response)
    requires response.status == 201 && op != Create
    ensures var r := Interpret(op, Success(response));
      r.Failure? && r.error == HttpException(RejectPrefix(op) + ErrorDetail(DecodedBody(response)), 201)
  {
  }

  /** The detail of a rejection: "message" first, then "returnMessage", then "Erro desconhecido". */
  lemma RejectionDetail(op: Operation, response: Response)
    requires !Accepts(op, response.status)
    ensures var data := DecodedBody(response);
      var message := Interpret(op, Success(response)).error.message;
      && (data.Get("message").Some? ==> message == RejectPrefix(op) + Php.Render(data.Get("message").value))
      && (data.Get("message").None? && data.Get("returnMessage").Some? ==>
            message == RejectPrefix(op) + Php.Render(data.Get("returnMessage").value))
      && (data.Get("message").None? && data.Get("returnMessage").None? ==> message == RejectPrefix(op) + UnknownError)
  {
  }

  /** A rejected reply whose body is not JSON at all is reported as "Erro desconhecido". */
  lemma MalformedRejection(op: Operation, status: int, reason: string)
    requires !Accepts(op, status)
    ensures Interpret(op, Success(Response(status, Malformed(reason))))
      == Failure(HttpException(RejectPrefix(op) + UnknownError, status))
  {
  }

  /**
   * Apart from `getByReference`, an accepted reply succeeds exactly when its body is
   * an array whose values have the types the response's properties declare.
   */
  lemma AcceptedReply(op: Operation, response: Response)
    requires op != GetByReference && Accepts(op, response.status)
    ensures var data := DecodedBody(response);
      Interpret(op, Success(response)).Success? <==> data.IsArray() && Responses.WellTyped(data)
    ensures var data := DecodedBody(response);
      data.IsArray() ==> Interpret(op, Success(response)) == Responses.Parse(data)
  {
    var data := DecodedBody(response);
    if data.IsArray() {
      Responses.ParseSucceeds(data);
    }
  }

  /** An accepted reply whose body is not JSON throws a \TypeError, not an HttpException. */
  lemma MalformedAcceptedReply(op: Operation, status: int, reason: string)
    requires Accepts(op, status)
    ensures Interpret(op, Success(Response(status, Malformed(reason)))) == Failure(TypeError("data"))
  {
  }

  /** `getByReference` reads the first element of a list reply. */
  lemma ReferenceListTakesFirst(status: int, items: seq<Json>)
    requires status == 200 && |items| > 0 && items[0].IsArray()
    ensures Interpret(GetByReference, Success(Response(status, Decoded(JList(items)))))
      == Responses.Parse(items[0])
  {
  }

  /** On a single object (without a key "0"), `getByReference` reads it as `get` does. */
  lemma ReferenceObjectAsGet(response: Response)
    requires response.body.Decoded? && response.body.doc.JObject? && response.body.doc.Get("0").None?
    ensures Interpret(GetByReference, Success(response)).Success? ==> Interpret(Get, Success(response)).Success?
    ensures Accepts(Get, response.status) ==> Interpret(GetByReference, Success(response)) == Interpret(Get, Success(response))
  {
  }

  /** The capture body and a positive refund body are the same document. */
  lemma CaptureAndRefundAgree(amount: real)
    requires amount > 0.0
    ensures CaptureBody(amount) == CancelBody(amount)
  {
  }

  /**
   * The refund body always carries the "amount" key; its value is null, and so
   * missing to a reader, exactly when the amount is not positive.
   */
  lemma RefundAmount(amount: real)
    ensures CancelBody(amount).JObject? && "amount" in CancelBody(amount).fields
    ensures CancelBody(amount).Get("amount").None? <==> amount <= 0.0
    ensures amount > 0.0 ==> CancelBody(amount).Get("amount") == Some(JInt(Transactions.Cents(amount)))
  {
  }

  /** The capture body holds only the amount, in cents. */
  lemma CaptureBodyKeys(amount: real)
    ensures CaptureBody(amount).JObject? && CaptureBody(amount).fields.Keys == {"amount"}
    ensures CaptureBody(amount).Get("amount") == Some(JInt(Transactions.Cents(amount)))
  {
  }

  /**
   * The reference cannot add query parameters or a fragment: nothing after
   * "?reference=" is a '&', '=' or '#'.
   */
  lemma ReferenceQueryIsOneParameter(apiUrl: string, reference: string)
    ensures var url := ReferenceRequest(apiUrl, reference).url;
      var prefix := apiUrl + "/v2/transactions?reference=";
      && url[..|prefix|] == prefix
      && forall i :: |prefix| <= i < |url| ==> url[i] != '&' && url[i] != '=' && url[i] != '#'
  {
    var prefix := apiUrl + "/v2/transactions?reference=";
    var q := Encoding.UrlEncode(reference);
    var url := ReferenceRequest(apiUrl, reference).url;
    assert url == prefix + q;
    forall i | |prefix| <= i < |url|
      ensures url[i] != '&' && url[i] != '=' && url[i] != '#'
    {
      assert url[i] == q[i - |prefix|];
      assert Encoding.IsUrlEncodedChar(q[i - |prefix|]);
    }
  }

  /** The refunds of a transaction live under its own URL. */
  lemma RefundsUnderTransaction(apiUrl: string, tid: string, amount: real)
    ensures RefundsRequest(apiUrl, tid).url == GetRequest(apiUrl, tid).url + "/refunds"
    ensures CancelRequest(apiUrl, tid, amount).url == RefundsRequest(apiUrl, tid).url
    ensures CaptureRequest(apiUrl, tid, amount).url == GetRequest(apiUrl, tid).url
  {
  }

  /**
   * The OAuth client eRede's constructor falls back on when it is given no HTTP
   * client: the store's own OAuth client (`own`) when it has one, otherwise a new
   * one posting to the store's token endpoint over `channel`, the transport the
   * new client creates for itself.
   */
  method DefaultOAuthClient(store: Store, own: Option<OAuth.OAuthClient>, channel: Endpoint<Outcome>)
    returns (c: OAuth.OAuthClient)
    ensures own.Some? ==> c == own.value
    ensures own.None? ==> fresh(c) && c.tokenEndpoint == TokenEndpoint(store) && c.channel == channel
  {
    if own.Some? {
      c := own.value;
    } else {
      c := new OAuth.OAuthClient(TokenEndpoint(store), channel);
    }
  }

  /** The token endpoint of each environment. */
  lemma TokenEndpoints(filiation: string, token: string)
    ensures TokenEndpoint(Store(filiation, token, Production())) == "https://api.userede.com.br/erede/oauth2/token"
    ensures TokenEndpoint(Store(filiation, token, Sandbox())) == "https://sandbox-erede.useredecloud.com.br/oauth2/token"
  {
  }

  /** The gateway: a store and the HTTP client every operation sends through. */
  class ERede {
    const store: Store
    const client: Endpoint<Result<Response, Throwable>>

    constructor (store: Store, client: Endpoint<Result<Response, Throwable>>)
      ensures this.store == store && this.client == client
    {
      this.store := store;
      this.client := client;
    }

    /** `create`: POST the transaction's `toArray` to /v2/transactions. */
    method Create(transaction: Transactions.Transaction) returns (r: Result<Responses.TransactionResponse, Throwable>)
      modifies client
      ensures var req := CreateRequest(store.environment.apiUrl, Transactions.Request(transaction.Snapshot()));
        && client.sent == old(client.sent) + [req]
        && r == Interpret(Operation.Create, client.respond(|old(client.sent)|, req))
    {
      var body := transaction.ToArray();
      var response := client.Send(CreateRequest(store.environment.apiUrl, body));
      r := Interpret(Operation.Create, response);
    }

    /** `capture`: without a tid it throws before sending; otherwise PUT the amount. */
    method Capture(transaction: Transactions.Transaction) returns (r: Result<Responses.TransactionResponse, Throwable>)
      modifies client
      ensures transaction.tid.None? ==>
        client.sent == old(client.sent) && r == Failure(HttpException(TidRequiredForCapture, 0))
      ensures transaction.tid.Some? ==>
        var req := CaptureRequest(store.environment.apiUrl, transaction.tid.value, transaction.amount);
        && client.sent == old(client.sent) + [req]
        && r == Interpret(Operation.Capture, client.respond(|old(client.sent)|, req))
    {
      if transaction.tid.None? {
        r := Failure(Rethrow(Operation.Capture, HttpException(TidRequiredForCapture, 0)));
        return;
      }
      var response := client.Send(CaptureRequest(store.environment.apiUrl, transaction.tid.value, transaction.amount));
      r := Interpret(Operation.Capture, response);
    }

    /** `cancel`: without a tid it throws before sending; otherwise POST a refund. */
    method Cancel(transaction: Transactions.Transaction) returns (r: Result<Responses.TransactionResponse, Throwable>)
      modifies client
      ensures transaction.tid.None? ==>
        client.sent == old(client.sent) && r == Failure(HttpException(TidRequiredForCancel, 0))
      ensures transaction.tid.Some? ==>
        var req := CancelRequest(store.environment.apiUrl, transaction.tid.value, transaction.amount);
        && client.sent == old(client.sent) + [req]
        && r == Interpret(Operation.Cancel, client.respond(|old(client.sent)|, req))
    {
      if transaction.tid.None? {
        r := Failure(Rethrow(Operation.Cancel, HttpException(TidRequiredForCancel, 0)));
        return;
      }
      var response := client.Send(CancelRequest(store.environment.apiUrl, transaction.tid.value, transaction.amount));
      r := Interpret(Operation.Cancel, response);
    }

    /** `get`: GET /v2/transactions/{tid}. */
    method Get(tid: string) returns (r: Result<Responses.TransactionResponse, Throwable>)
      modifies client
      ensures var req := GetRequest(store.environment.apiUrl, tid);
        && client.sent == old(client.sent) + [req]
        && r == Interpret(Operation.Get, client.respond(|old(client.sent)|, req))
    {
      var response := client.Send(GetRequest(store.environment.apiUrl, tid));
      r := Interpret(Operation.Get, response);
    }

    /** `getByReference`: GET /v2/transactions?reference=..., the reference URL-encoded. */
    method GetByReference(reference: string) returns (r: Result<Responses.TransactionResponse, Throwable>)
      modifies client
      ensures var req := ReferenceRequest(store.environment.apiUrl, reference);
        && client.sent == old(client.sent) + [req]
        && r == Interpret(Operation.GetByReference, client.respond(|old(client.sent)|, req))
    {
      var response := client.Send(ReferenceRequest(store.environment.apiUrl, reference));
      r := Interpret(Operation.GetByReference, response);
    }

    /** `getRefunds`: GET /v2/transactions/{tid}/refunds. */
    method GetRefunds(tid: string) returns (r: Result<Responses.TransactionResponse, Throwable>)
      modifies client
      ensures var req := RefundsRequest(store.environment.apiUrl, tid);
        && client.sent == old(client.sent) + [req]
        && r == Interpret(Operation.GetRefunds, client.respond(|old(client.sent)|, req))
    {
      var response := client.Send(RefundsRequest(store.environment.apiUrl, tid));
      r := Interpret(Operation.GetRefunds, response);
    }
  }
}
