/**
 * src/Rede/Authorization.php: the authorization block of a gateway reply, read
 * from a PHP array with `??` defaults into typed properties.
 */
module Authorizations {
  import opened Wrappers
  import opened Json
  import opened Errors
  import opened Php

  /** An authorization; `status` is a `string` property, the others `?string`. */
  datatype Authorization = Authorization(
    status: string,
    returnCode: Option<string>,
    returnMessage: Option<string>,
    tid: Option<string>,
    nsu: Option<string>,
    authorizationCode: Option<string>)

  /** The keys the constructor reads, in the order it reads them. */
  const Keys: seq<string> := ["status", "returnCode", "returnMessage", "tid", "nsu", "authorizationCode"]

  /** The string stored under `key`, when the value there is a string. */
  function StringAt(data: Json, key: string): Option<string> {
    match data.Get(key)
    case Some(JString(s)) => Some(s)
    case _ => None
  }

  /** `$data[$key] ?? ...` can be stored in a string property: it is null, absent or a string. */
  predicate StringOrNull(data: Json, key: string) {
    data.Get(key).None? || data.Get(key).value.JString?
  }

  /** `$data['status'] ?? ''` stored in a property of type `string` under strict_types. */
  function Status(v: Option<Json>): (r: Result<string, Throwable>)
    ensures v.None? ==> r == Success("")
    ensures forall s :: v == Some(JString(s)) ==> r == Success(s)
    ensures r.Failure? <==> v.Some? && !v.value.JString?
    ensures r.Failure? ==> r.error == TypeError("status")
  {
    match v
    case None => Success("")
    case Some(JString(s)) => Success(s)
    case Some(_) => Failure(TypeError("status"))
  }

  /** `new Authorization($data)`: each property in turn, the first ill-typed value throwing. */
  function FromData(data: Json): Result<Authorization, Throwable>
    requires data.IsArray()
  {
    var status :- Status(data.Get("status"));
    var returnCode :- NullableString(data.Get("returnCode"), "returnCode");
    var returnMessage :- NullableString(data.Get("returnMessage"), "returnMessage");
    var tid :- NullableString(data.Get("tid"), "tid");
    var nsu :- NullableString(data.Get("nsu"), "nsu");
    var authorizationCode :- NullableString(data.Get("authorizationCode"), "authorizationCode");
    Success(Authorization(status, returnCode, returnMessage, tid, nsu, authorizationCode))
  }

  /** The constructor returns exactly when every key it reads holds a string or nothing. */
  lemma FromDataSucceeds(data: Json)
    requires data.IsArray()
    ensures FromData(data).Success? <==> forall i :: 0 <= i < |Keys| ==> StringOrNull(data, Keys[i])
  {
    if FromData(data).Success? {
      forall i | 0 <= i < |Keys|
        ensures StringOrNull(data, Keys[i])
      {
      }
    } else {
      var i := FirstIllTyped(data);
    }
  }

  /** `FromDataSucceeds` spelt out key by key. */
  lemma FromDataSucceedsByKey(data: Json)
    requires data.IsArray()
    ensures FromData(data).Success? <==>
      && StringOrNull(data, "status") && StringOrNull(data, "returnCode") && StringOrNull(data, "returnMessage")
      && StringOrNull(data, "tid") && StringOrNull(data, "nsu") && StringOrNull(data, "authorizationCode")
  {
  }

  /**
   * The index of the first key whose value cannot be stored, and the property whose
   * \TypeError the constructor then throws.
   */
  lemma FirstIllTyped(data: Json) returns (i: nat)
    requires data.IsArray() && FromData(data).Failure?
    ensures i < |Keys| && !StringOrNull(data, Keys[i])
    ensures forall j :: 0 <= j < i ==> StringOrNull(data, Keys[j])
    ensures FromData(data).error == TypeError(Keys[i])
  {
    if !StringOrNull(data, "status") {
      i := 0;
    } else if !StringOrNull(data, "returnCode") {
      i := 1;
    } else if !StringOrNull(data, "returnMessage") {
      i := 2;
    } else if !StringOrNull(data, "tid") {
      i := 3;
    } else if !StringOrNull(data, "nsu") {
      i := 4;
    } else {
      i := 5;
    }
  }

  /**
   * `status` is the string under "status", or "" when there is none; every other
   * property is the string under its own key, or null when absent.
   */
  lemma FromDataFields(data: Json)
    requires data.IsArray() && FromData(data).Success?
    ensures var a := FromData(data).value;
      && a.status == StringAt(data, "status").GetOr("")
      && a.returnCode == StringAt(data, "returnCode")
      && a.returnMessage == StringAt(data, "returnMessage")
    ensures var a := FromData(data).value;
      && a.tid == StringAt(data, "tid")
      && a.nsu == StringAt(data, "nsu")
      && a.authorizationCode == StringAt(data, "authorizationCode")
  {
  }

  /** Without a "status" key (or with null there) the status is "", whatever the return code. */
  lemma MissingStatus(data: Json)
    requires data.IsArray() && FromData(data).Success? && data.Get("status").None?
    ensures FromData(data).value.status == ""
  {
  }

  /** Changing the return code never changes the status. */
  lemma StatusIgnoresReturnCode(fields: map<string, Json>, code: Json)
    requires FromData(JObject(fields)).Success? && FromData(JObject(fields["returnCode" := code])).Success?
    ensures FromData(JObject(fields["returnCode" := code])).value.status == FromData(JObject(fields)).value.status
  {
    assert ("status" in fields["returnCode" := code]) == ("status" in fields);
  }
}
