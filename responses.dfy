/**
 * src/Rede/TransactionResponse.php: a gateway reply read into typed properties.
 * The reply comes in two shapes: a query nests the transaction under an array
 * `authorization`, a creation keeps it at the top level, where the authorization
 * is then put together from the top-level fields and a status inferred from the
 * return code. src/Rede/ThreeDSecureResponse.php is read along with it.
 */
module Responses {
  import opened Wrappers
  import opened Json
  import opened Errors
  import opened Php
  import Authorizations

  /** The 3-D Secure challenge of a reply; `verb` is the source's `method` property. */
  datatype ThreeDSecureResponse = ThreeDSecureResponse(url: Option<string>, verb: Option<string>, parameters: Option<Json>)

  /** A reply; `authorization` is always set once the constructor has returned. */
  datatype TransactionResponse = TransactionResponse(
    tid: Option<string>,
    reference: Option<string>,
    amount: Option<int>,
    authorization: Authorizations.Authorization,
    threeDSecure: Option<ThreeDSecureResponse>,
    returnCode: Option<string>,
    returnMessage: Option<string>,
    dateTime: Option<string>,
    installments: Option<int>,
    cardBin: Option<string>,
    last4: Option<string>)

  /** `determineStatus`: no code gives "", "00" gives "Approved", any other code "Pending". */
  function DetermineStatus(returnCode: Option<string>): (status: string)
    ensures status == "" <==> returnCode.None?
    ensures status == "Approved" <==> returnCode == Some("00")
    ensures status == "Pending" <==> returnCode.Some? && returnCode.value != "00"
  {
    if returnCode.None? then ""
    else if returnCode.value == "00" then "Approved"
    else "Pending"
  }

  /** `isset($data['authorization']) && is_array($data['authorization'])` */
  predicate QueryShape(data: Json) {
    data.Get("authorization").Some? && data.Get("authorization").value.IsArray()
  }

  /** Where the transaction's own fields are read from: the nested authorization, or the top level. */
  function Source(data: Json): (src: Json)
    requires data.IsArray()
    ensures src.IsArray()
  {
    if QueryShape(data) then data.Get("authorization").value else data
  }

  /** The `?string` properties the constructor reads from the source, in its order. */
  const StringKeys: seq<string> := ["tid", "reference", "returnCode", "returnMessage", "dateTime", "cardBin", "last4"]

  /** The array a creation reply's authorization is built from. */
  function Synthesised(data: Json, returnCode: Option<string>): (a: Json)
    ensures a.JObject?
  {
    JObject(map[
      "tid" := OrNull(data.Get("tid")),
      "nsu" := OrNull(data.Get("nsu")),
      "authorizationCode" := OrNull(data.Get("authorizationCode")),
      "returnCode" := OrNull(data.Get("returnCode")),
      "returnMessage" := OrNull(data.Get("returnMessage")),
      "status" := JString(DetermineStatus(returnCode))])
  }

  /** `$data['parameters'] ?? null` stored in a property of type `?array`. */
  function NullableArray(v: Option<Json>, property: string): (r: Result<Option<Json>, Throwable>)
    ensures r == Success(None) <==> v.None?
    ensures r.Success? && r.value.Some? <==> v.Some? && v.value.IsArray()
    ensures r.Success? && r.value.Some? ==> r.value == v
    ensures r.Failure? ==> r.error == TypeError(property)
  {
    match v
    case None => Success(None)
    case Some(j) => if j.IsArray() then Success(Some(j)) else Failure(TypeError(property))
  }

  /** `new ThreeDSecureResponse($data)` */
  function ThreeDSecureFrom(data: Json): Result<ThreeDSecureResponse, Throwable>
    requires data.IsArray()
  {
    var url :- NullableString(data.Get("url"), "url");
    var verb :- NullableString(data.Get("method"), "method");
    var parameters :- NullableArray(data.Get("parameters"), "parameters");
    Success(ThreeDSecureResponse(url, verb, parameters))
  }

  /** `if (isset($data['threeDSecure'])) ... new ThreeDSecureResponse($data['threeDSecure'])` */
  function ThreeDSecureOf(v: Option<Json>): Result<Option<ThreeDSecureResponse>, Throwable> {
    match v
    case None => Success(None)
    case Some(j) =>
      if !j.IsArray() then Failure(TypeError("data"))
      else
        var t :- ThreeDSecureFrom(j);
        Success(Some(t))
  }

  /** The transaction's own properties, as read from the source of their shape. */
  datatype Fields = Fields(
    tid: Option<string>,
    reference: Option<string>,
    amount: Option<int>,
    returnCode: Option<string>,
    returnMessage: Option<string>,
    dateTime: Option<string>,
    installments: Option<int>,
    cardBin: Option<string>,
    last4: Option<string>)

  /** The nine property assignments of either branch of the constructor, from `src`. */
  function FieldsOf(src: Json): Result<Fields, Throwable> {
    var tid :- NullableString(src.Get("tid"), "tid");
    var reference :- NullableString(src.Get("reference"), "reference");
    var amount := NullableInt(src.Get("amount"));
    var returnCode :- NullableString(src.Get("returnCode"), "returnCode");
    var returnMessage :- NullableString(src.Get("returnMessage"), "returnMessage");
    var dateTime :- NullableString(src.Get("dateTime"), "dateTime");
    var installments := NullableInt(src.Get("installments"));
    var cardBin :- NullableString(src.Get("cardBin"), "cardBin");
    var last4 :- NullableString(src.Get("last4"), "last4");
    Success(Fields(tid, reference, amount, returnCode, returnMessage, dateTime, installments, cardBin, last4))
  }

  /** `new TransactionResponse($data)`: the fields, the authorization, then the 3-D Secure block. */
  function Parse(data: Json): Result<TransactionResponse, Throwable>
    requires data.IsArray()
  {
    var src := Source(data);
    var f :- FieldsOf(src);
    var authorization :- Authorizations.FromData(if QueryShape(data) then src else Synthesised(data, f.returnCode));
    var threeDSecure :- ThreeDSecureOf(data.Get("threeDSecure"));
    Success(TransactionResponse(f.tid, f.reference, f.amount, authorization, threeDSecure, f.returnCode,
                                f.returnMessage, f.dateTime, f.installments, f.cardBin, f.last4))
  }

  /** The fields are read exactly when each string property finds a string or nothing. */
  lemma FieldsSucceed(src: Json)
    ensures FieldsOf(src).Success? <==> forall i :: 0 <= i < |StringKeys| ==> Authorizations.StringOrNull(src, StringKeys[i])
    ensures FieldsOf(src).Failure? ==> FieldsOf(src).error.TypeError?
  {
    if FieldsOf(src).Success? {
      forall i | 0 <= i < |StringKeys|
        ensures Authorizations.StringOrNull(src, StringKeys[i])
      {
      }
    } else {
      var ok := seq(|StringKeys|, i requires 0 <= i < |StringKeys| => Authorizations.StringOrNull(src, StringKeys[i]));
      assert !(ok[0] && ok[1] && ok[2] && ok[3] && ok[4] && ok[5] && ok[6]);
    }
  }

  /**
   * Each string property is the string under its key, null when absent; `amount`
   * and `installments` are the integer cast of the value, and null, never 0, when absent.
   */
  lemma FieldsValues(src: Json)
    requires FieldsOf(src).Success?
    ensures var f := FieldsOf(src).value;
      && f.tid == Authorizations.StringAt(src, "tid")
      && f.reference == Authorizations.StringAt(src, "reference")
      && f.returnCode == Authorizations.StringAt(src, "returnCode")
      && f.returnMessage == Authorizations.StringAt(src, "returnMessage")
    ensures var f := FieldsOf(src).value;
      && f.dateTime == Authorizations.StringAt(src, "dateTime")
      && f.cardBin == Authorizations.StringAt(src, "cardBin")
      && f.last4 == Authorizations.StringAt(src, "last4")
    ensures var f := FieldsOf(src).value;
      && (f.amount.None? <==> src.Get("amount").None?)
      && (f.amount.Some? ==> f.amount.value == ToInt(src.Get("amount").value))
      && (f.installments.None? <==> src.Get("installments").None?)
      && (f.installments.Some? ==> f.installments.value == ToInt(src.Get("installments").value))
  {
  }

  /** The synthesised array holds the top-level values of its five keys, and the inferred status. */
  lemma SynthesisedReads(data: Json, returnCode: Option<string>)
    ensures var a := Synthesised(data, returnCode);
      && a.Get("status") == Some(JString(DetermineStatus(returnCode)))
      && a.Get("tid") == data.Get("tid")
      && a.Get("nsu") == data.Get("nsu")
    ensures var a := Synthesised(data, returnCode);
      && a.Get("authorizationCode") == data.Get("authorizationCode")
      && a.Get("returnCode") == data.Get("returnCode")
      && a.Get("returnMessage") == data.Get("returnMessage")
  {
  }

  /** The synthesised authorization is built exactly when the five copied values are strings or null. */
  lemma SynthesisedTyped(data: Json, returnCode: Option<string>)
    ensures Authorizations.FromData(Synthesised(data, returnCode)).Success? <==>
      && Authorizations.StringOrNull(data, "tid") && Authorizations.StringOrNull(data, "nsu")
      && Authorizations.StringOrNull(data, "authorizationCode") && Authorizations.StringOrNull(data, "returnCode")
      && Authorizations.StringOrNull(data, "returnMessage")
  {
    SynthesisedReads(data, returnCode);
    Authorizations.FromDataSucceedsByKey(Synthesised(data, returnCode));
  }

  /** Every value the constructor stores is of its property's type: when, and only when, it returns. */
  predicate WellTyped(data: Json)
    requires data.IsArray()
  {
    var src := Source(data);
    && (forall i :: 0 <= i < |StringKeys| ==> Authorizations.StringOrNull(src, StringKeys[i]))
    && (QueryShape(data) ==> forall i :: 0 <= i < |Authorizations.Keys| ==> Authorizations.StringOrNull(src, Authorizations.Keys[i]))
    && (!QueryShape(data) ==> Authorizations.StringOrNull(data, "nsu") && Authorizations.StringOrNull(data, "authorizationCode"))
    && ThreeDSecureOk(data.Get("threeDSecure"))
  }

  /** A `threeDSecure` entry that is absent, or an array whose `url`, `method` and `parameters` fit. */
  predicate ThreeDSecureOk(v: Option<Json>) {
    v.Some? ==>
      && v.value.IsArray()
      && Authorizations.StringOrNull(v.value, "url")
      && Authorizations.StringOrNull(v.value, "method")
      && (v.value.Get("parameters").None? || v.value.Get("parameters").value.IsArray())
  }

  lemma ThreeDSecureOfSucceeds(v: Option<Json>)
    ensures ThreeDSecureOf(v).Success? <==> ThreeDSecureOk(v)
    ensures ThreeDSecureOf(v).Failure? ==> ThreeDSecureOf(v).error.TypeError?
  {
  }

  /** The constructor returns exactly for well-typed data; otherwise it throws a \TypeError. */
  lemma ParseSucceeds(data: Json)
    requires data.IsArray()
    ensures Parse(data).Success? <==> WellTyped(data)
  {
    var src := Source(data);
    ThreeDSecureOfSucceeds(data.Get("threeDSecure"));
    FieldsSucceed(src);
    if FieldsOf(src).Success? {
      var f := FieldsOf(src).value;
      if QueryShape(data) {
        Authorizations.FromDataSucceeds(src);
      } else {
        SynthesisedTyped(data, f.returnCode);
        assert StringKeys[0] == "tid" && StringKeys[2] == "returnCode" && StringKeys[3] == "returnMessage";
      }
    }
  }

  /**
   * Whatever goes wrong, the constructor throws a \TypeError, which no
   * `catch (\Exception)` of the SDK intercepts.
   */
  lemma ParseThrowsTypeError(data: Json)
    requires data.IsArray() && Parse(data).Failure?
    ensures Parse(data).error.TypeError?
  {
    var src := Source(data);
    FieldsSucceed(src);
    ThreeDSecureOfSucceeds(data.Get("threeDSecure"));
    if FieldsOf(src).Success? {
      var a := if QueryShape(data) then src else Synthesised(data, FieldsOf(src).value.returnCode);
      if Authorizations.FromData(a).Failure? {
        var i := Authorizations.FirstIllTyped(a);
      }
    }
  }

  /** In the query shape every property of the transaction is read from the nested `authorization`. */
  lemma QueryShapeFields(data: Json)
    requires data.IsArray() && QueryShape(data) && Parse(data).Success?
    ensures var r := Parse(data).value; var auth := data.Get("authorization").value;
      && r.tid == Authorizations.StringAt(auth, "tid")
      && r.reference == Authorizations.StringAt(auth, "reference")
      && r.returnCode == Authorizations.StringAt(auth, "returnCode")
      && r.returnMessage == Authorizations.StringAt(auth, "returnMessage")
    ensures var r := Parse(data).value; var auth := data.Get("authorization").value;
      && r.dateTime == Authorizations.StringAt(auth, "dateTime")
      && r.cardBin == Authorizations.StringAt(auth, "cardBin")
      && r.last4 == Authorizations.StringAt(auth, "last4")
    ensures var r := Parse(data).value; var auth := data.Get("authorization").value;
      && (r.amount.Some? ==> r.amount.value == ToInt(auth.Get("amount").value))
      && (r.installments.Some? ==> r.installments.value == ToInt(auth.Get("installments").value))
  {
    FieldsValues(data.Get("authorization").value);
  }

  /** In the query shape the authorization is the nested array itself, its `status` kept verbatim. */
  lemma QueryShapeAuthorization(data: Json)
    requires data.IsArray() && QueryShape(data) && Parse(data).Success?
    ensures var auth := data.Get("authorization").value;
      && Authorizations.FromData(auth).Success?
      && Parse(data).value.authorization == Authorizations.FromData(auth).value
      && Parse(data).value.authorization.status == Authorizations.StringAt(auth, "status").GetOr("")
  {
    Authorizations.FromDataFields(data.Get("authorization").value);
  }

  /** In the creation shape every property of the transaction is read from the top level. */
  lemma CreationShapeFields(data: Json)
    requires data.IsArray() && !QueryShape(data) && Parse(data).Success?
    ensures var r := Parse(data).value;
      && r.tid == Authorizations.StringAt(data, "tid")
      && r.reference == Authorizations.StringAt(data, "reference")
      && r.returnCode == Authorizations.StringAt(data, "returnCode")
      && r.returnMessage == Authorizations.StringAt(data, "returnMessage")
    ensures var r := Parse(data).value;
      && r.dateTime == Authorizations.StringAt(data, "dateTime")
      && r.cardBin == Authorizations.StringAt(data, "cardBin")
      && r.last4 == Authorizations.StringAt(data, "last4")
    ensures var r := Parse(data).value;
      && (r.amount.Some? ==> r.amount.value == ToInt(data.Get("amount").value))
      && (r.installments.Some? ==> r.installments.value == ToInt(data.Get("installments").value))
  {
    FieldsValues(data);
  }

  /**
   * In the creation shape the authorization copies `tid`, `nsu`, `authorizationCode`,
   * `returnCode` and `returnMessage` from the top level, and its status is inferred
   * from the return code.
   */
  lemma CreationShapeAuthorization(data: Json)
    requires data.IsArray() && !QueryShape(data) && Parse(data).Success?
    ensures var a := Parse(data).value.authorization;
      && a.tid == Authorizations.StringAt(data, "tid")
      && a.nsu == Authorizations.StringAt(data, "nsu")
      && a.authorizationCode == Authorizations.StringAt(data, "authorizationCode")
    ensures var a := Parse(data).value.authorization;
      && a.returnCode == Authorizations.StringAt(data, "returnCode")
      && a.returnMessage == Authorizations.StringAt(data, "returnMessage")
      && a.status == DetermineStatus(Authorizations.StringAt(data, "returnCode"))
  {
    FieldsValues(data);
    var code := FieldsOf(data).value.returnCode;
    var syn := Synthesised(data, code);
    SynthesisedReads(data, code);
    Authorizations.FromDataFields(syn);
    assert Authorizations.StringAt(syn, "status") == Some(DetermineStatus(code));
    assert Authorizations.StringAt(syn, "tid") == Authorizations.StringAt(data, "tid");
    assert Authorizations.StringAt(syn, "nsu") == Authorizations.StringAt(data, "nsu");
    assert Authorizations.StringAt(syn, "authorizationCode") == Authorizations.StringAt(data, "authorizationCode");
    assert Authorizations.StringAt(syn, "returnCode") == Authorizations.StringAt(data, "returnCode");
    assert Authorizations.StringAt(syn, "returnMessage") == Authorizations.StringAt(data, "returnMessage");
  }

  /** `amount` and `installments` are null exactly when their key is absent or null, in either shape. */
  lemma AbsentNumbersStayNull(data: Json)
    requires data.IsArray() && Parse(data).Success?
    ensures Parse(data).value.amount.None? <==> Source(data).Get("amount").None?
    ensures Parse(data).value.installments.None? <==> Source(data).Get("installments").None?
  {
    FieldsValues(Source(data));
  }

  /** The top-level `threeDSecure` is read in either shape, and is null exactly when it is absent. */
  lemma ThreeDSecureEitherShape(data: Json)
    requires data.IsArray() && Parse(data).Success?
    ensures Parse(data).value.threeDSecure.None? <==> data.Get("threeDSecure").None?
    ensures Parse(data).value.threeDSecure.Some? ==>
      var v := data.Get("threeDSecure").value; var t := Parse(data).value.threeDSecure.value;
      && t.url == Authorizations.StringAt(v, "url")
      && t.verb == Authorizations.StringAt(v, "method")
      && t.parameters == v.Get("parameters")
  {
  }
}
