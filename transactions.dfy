/**
 * src/Rede/Transaction.php: a transaction being prepared by fluent mutators, its
 * merchant reference sanitised on construction, and `toArray`, the body of the
 * creation request.
 *
 * `Request` states the body as a union of independent blocks, one per optional
 * field; the method `Transaction.ToArray` builds it by the same conditional
 * inserts as the source and is proved equal to it.
 */
module Transactions {
  import opened Wrappers
  import opened Json
  import opened Php
  import Records

  /** The longest merchant reference kept. */
  const ReferenceLimit := 16

  /** `preg_replace('/[^a-zA-Z0-9]/', '', $s)` */
  function Alnum(s: string): (t: string)
    ensures |t| <= |s|
    ensures forall i :: 0 <= i < |t| ==> IsAlnum(t[i])
  {
    if s == [] then [] else (if IsAlnum(s[0]) then [s[0]] else []) + Alnum(s[1..])
  }

  /** The filter keeps exactly the alphanumeric characters, in their order. */
  lemma {:induction false} AlnumConcat(a: string, b: string)
    ensures Alnum(a + b) == Alnum(a) + Alnum(b)
  {
    if a != [] {
      var ab := a + b;
      assert ab != [] && ab[0] == a[0] && ab[1..] == a[1..] + b;
      assert Alnum(ab) == (if IsAlnum(a[0]) then [a[0]] else []) + Alnum(a[1..] + b);
      AlnumConcat(a[1..], b);
      assert Alnum(a) == (if IsAlnum(a[0]) then [a[0]] else []) + Alnum(a[1..]);
    } else {
      assert a + b == b;
    }
  }

  lemma {:induction false} AlnumKeepsAlnum(s: string)
    requires forall i :: 0 <= i < |s| ==> IsAlnum(s[i])
    ensures Alnum(s) == s
  {
    if s != [] {
      AlnumKeepsAlnum(s[1..]);
    }
  }

  lemma {:induction false} AlnumMembers(s: string, c: char)
    ensures c in Alnum(s) <==> c in s && IsAlnum(c)
  {
    if s != [] {
      AlnumMembers(s[1..], c);
      assert s == [s[0]] + s[1..];
    }
  }

  /**
   * The constructor's reference: a PHP-empty argument ("" or "0") gives "";
   * otherwise the alphanumeric characters, cut to the first 16.
   */
  function SanitizeReference(reference: string): (r: string)
    ensures |r| <= ReferenceLimit
    ensures forall i :: 0 <= i < |r| ==> IsAlnum(r[i])
  {
    if Empty(reference) then ""
    else
      var a := Alnum(reference);
      if |a| > ReferenceLimit then a[..ReferenceLimit] else a
  }

  /** The stored reference is the first min(16, n) of the n characters the filter keeps. */
  lemma SanitizedPrefix(reference: string)
    requires !Empty(reference)
    ensures var a := Alnum(reference); var r := SanitizeReference(reference);
      && |r| == (if |a| < ReferenceLimit then |a| else ReferenceLimit)
      && r == a[..|r|]
  {
  }

  /** A clean reference of at most 16 characters is stored as given, unless PHP deems it empty. */
  lemma CleanReferenceKept(reference: string)
    requires !Empty(reference) && |reference| <= ReferenceLimit
    requires forall i :: 0 <= i < |reference| ==> IsAlnum(reference[i])
    ensures SanitizeReference(reference) == reference
  {
    AlnumKeepsAlnum(reference);
  }

  /** Sanitising twice is sanitising once, except for a stored "0", which a second pass empties. */
  lemma SanitizeIdempotent(reference: string)
    requires SanitizeReference(reference) != "0"
    ensures SanitizeReference(SanitizeReference(reference)) == SanitizeReference(reference)
  {
    var r := SanitizeReference(reference);
    if r != "" {
      CleanReferenceKept(r);
    }
  }

  lemma ZeroReference()
    ensures SanitizeReference("0!") == "0"
    ensures SanitizeReference("0") == ""
  {
    assert "0!" == "0" + "!";
    AlnumConcat("0", "!");
    assert Alnum("0") == "0";
    assert Alnum("!") == "";
  }

  /** Every field of a transaction. */
  datatype TransactionState = TransactionState(
    amount: real,
    reference: string,
    tid: Option<string>,
    creditCard: Option<Records.Card>,
    debitCard: Option<Records.Card>,
    capture: bool,
    installments: Option<int>,
    gatewayId: Option<int>,
    moduleId: Option<int>,
    mcc: Option<Records.Mcc>,
    iata: Option<Records.Iata>,
    threeDSecure: Option<Records.ThreeDSecure>,
    urls: seq<Records.Url>,
    softDescriptor: Option<string>)

  /** A transaction just constructed: the sanitised reference, capture on, nothing else set. */
  function Initial(amount: real, reference: string): (s: TransactionState)
    ensures s.amount == amount && s.reference == SanitizeReference(reference)
    ensures s.capture && s.urls == []
    ensures s.tid.None? && s.creditCard.None? && s.debitCard.None? && s.installments.None?
    ensures s.gatewayId.None? && s.moduleId.None? && s.mcc.None? && s.iata.None?
    ensures s.threeDSecure.None? && s.softDescriptor.None?
  {
    TransactionState(amount, SanitizeReference(reference), None, None, None, true, None, None, None,
                     None, None, None, [], None)
  }

  /** `(int) round($amount * 100)`: the amount in cents. */
  function Cents(amount: real): int {
    RoundHalfAway(amount * 100.0)
  }

  /** The keys of the body's top level, each with its name on the wire. */
  datatype Key =
    | Amount | Capture | Reference
    | Kind | CardNumber | CardholderName | SecurityCode | ExpirationMonth | ExpirationYear
    | Installments | SoftDescriptor | Additional | Mcc | Iata | ThreeDSecure | Urls
  {
    /** The position of the insert that writes this key in `toArray`; the card keys share one. */
    function Stage(): nat {
      match this
      case Amount => 0
      case Capture => 1
      case Reference => 2
      case Kind | CardNumber | CardholderName | SecurityCode | ExpirationMonth | ExpirationYear => 3
      case Installments => 4
      case SoftDescriptor => 5
      case Additional => 6
      case Mcc => 7
      case Iata => 8
      case ThreeDSecure => 9
      case Urls => 10
    }

    function Name(): string {
      match this
      case Amount => "amount"
      case Capture => "capture"
      case Reference => "reference"
      case Kind => "kind"
      case CardNumber => "cardNumber"
      case CardholderName => "cardholderName"
      case SecurityCode => "securityCode"
      case ExpirationMonth => "expirationMonth"
      case ExpirationYear => "expirationYear"
      case Installments => "installments"
      case SoftDescriptor => "softDescriptor"
      case Additional => "additional"
      case Mcc => "mcc"
      case Iata => "iata"
      case ThreeDSecure => "threeDSecure"
      case Urls => "urls"
    }
  }

  /** A body as the JSON object `json_encode` writes. */
  function Wire(m: map<Key, Json>): Json {
    JObject(map k | k in m :: k.Name() := m[k])
  }

  /** The card fields at the top level of the body, tagged with `kind`; the expiry cast to int. */
  function CardValue(kind: string, c: Records.Card, k: Key): Json {
    match k
    case Kind => JString(kind)
    case CardNumber => JString(c.cardNumber)
    case CardholderName => JString(c.holderName)
    case SecurityCode => JString(c.securityCode)
    case ExpirationMonth => JInt(IntOfString(c.expirationMonth))
    case ExpirationYear => JInt(IntOfString(c.expirationYear))
    case _ => JNull
  }

  /** The card the body describes: the debit card when there is one, else the credit card. */
  function ChosenCard(s: TransactionState): (r: Option<(string, Records.Card)>)
    ensures s.debitCard.Some? ==> r == Some(("debit", s.debitCard.value))
    ensures s.debitCard.None? && s.creditCard.Some? ==> r == Some(("credit", s.creditCard.value))
    ensures s.debitCard.None? && s.creditCard.None? ==> r.None?
  {
    if s.debitCard.Some? then Some(("debit", s.debitCard.value))
    else if s.creditCard.Some? then Some(("credit", s.creditCard.value))
    else None
  }

  function UrlList(urls: seq<Records.Url>): (js: seq<Json>)
    ensures |js| == |urls| && forall i :: 0 <= i < |urls| ==> js[i] == urls[i].ToJson()
  {
    seq(|urls|, i requires 0 <= i < |urls| => urls[i].ToJson())
  }

  function AdditionalJson(gatewayId: int, moduleId: int): Json {
    JObject(map["gatewayId" := JInt(gatewayId), "moduleId" := JInt(moduleId)])
  }

  const AllKeys: set<Key> := {Amount, Capture, Reference, Kind, CardNumber, CardholderName, SecurityCode,
                              ExpirationMonth, ExpirationYear, Installments, SoftDescriptor, Additional,
                              Mcc, Iata, ThreeDSecure, Urls}

  /** Whether `toArray` writes key `k` for transaction `s`. */
  predicate Present(s: TransactionState, k: Key) {
    match k
    case Amount => true
    case Capture => true
    case Reference => !Empty(s.reference)
    case Kind | CardNumber | CardholderName | SecurityCode | ExpirationMonth | ExpirationYear =>
      s.creditCard.Some? || s.debitCard.Some?
    case Installments => s.installments.Some?
    case SoftDescriptor => s.softDescriptor.Some?
    case Additional => s.gatewayId.Some? && s.moduleId.Some?
    case Mcc => s.mcc.Some?
    case Iata => s.iata.Some?
    case ThreeDSecure => s.threeDSecure.Some?
    case Urls => |s.urls| > 0
  }

  /** What `toArray` writes under `k` when it writes it; the card keys describe `ChosenCard`. */
  function Value(s: TransactionState, k: Key): Json
    requires Present(s, k)
  {
    match k
    case Amount => JInt(Cents(s.amount))
    case Capture => JBool(s.capture)
    case Reference => JString(s.reference)
    case Kind | CardNumber | CardholderName | SecurityCode | ExpirationMonth | ExpirationYear =>
      CardValue(ChosenCard(s).value.0, ChosenCard(s).value.1, k)
    case Installments => JInt(s.installments.value)
    case SoftDescriptor => JString(s.softDescriptor.value)
    case Additional => AdditionalJson(s.gatewayId.value, s.moduleId.value)
    case Mcc => s.mcc.value.ToJson()
    case Iata => s.iata.value.ToJson()
    case ThreeDSecure => s.threeDSecure.value.ToJson()
    case Urls => JList(UrlList(s.urls))
  }

  /** `toArray`: the creation request's body, every key that is present with its value. */
  function Request(s: TransactionState): map<Key, Json> {
    map k | k in AllKeys && Present(s, k) :: Value(s, k)
  }

  const CardKeys: set<Key> := {Kind, CardNumber, CardholderName, SecurityCode, ExpirationMonth, ExpirationYear}

  /** `amount` and `capture` are always in the body; `reference` only when it is not PHP-empty. */
  lemma RequestFixedKeys(s: TransactionState)
    ensures Amount in Request(s) && Capture in Request(s)
    ensures Reference in Request(s) <==> !Empty(s.reference)
  {
  }

  /** The card keys are in the body exactly when a card is set. */
  lemma RequestCardKeys(s: TransactionState)
    ensures forall k :: k in CardKeys ==> (k in Request(s) <==> s.creditCard.Some? || s.debitCard.Some?)
  {
  }

  /** `installments` and `softDescriptor` when set; `additional` only when both ids are set. */
  lemma RequestOptionalKeys(s: TransactionState)
    ensures Installments in Request(s) <==> s.installments.Some?
    ensures SoftDescriptor in Request(s) <==> s.softDescriptor.Some?
    ensures Additional in Request(s) <==> s.gatewayId.Some? && s.moduleId.Some?
  {
  }

  /** `mcc` and `iata` when set. */
  lemma RequestMerchantKeys(s: TransactionState)
    ensures Mcc in Request(s) <==> s.mcc.Some?
    ensures Iata in Request(s) <==> s.iata.Some?
  {
  }

  /** `threeDSecure` when set; `urls` only when there is a URL. */
  lemma RequestSecureKeys(s: TransactionState)
    ensures ThreeDSecure in Request(s) <==> s.threeDSecure.Some?
    ensures Urls in Request(s) <==> |s.urls| > 0
  {
  }

  /** The amount in cents and the capture flag are always in the body. */
  lemma AmountAndCapture(s: TransactionState)
    ensures Amount in Request(s) && Request(s)[Amount] == JInt(Cents(s.amount))
    ensures Capture in Request(s) && Request(s)[Capture] == JBool(s.capture)
  {
  }

  /** With both cards set the body describes the debit card, in whatever order they were set. */
  lemma DebitWins(s: TransactionState)
    requires s.debitCard.Some?
    ensures var m := Request(s); var d := s.debitCard.value;
      && CardKeys <= m.Keys
      && m[Kind] == JString("debit")
      && m[CardNumber] == JString(d.cardNumber)
      && m[CardholderName] == JString(d.holderName)
      && m[SecurityCode] == JString(d.securityCode)
      && m[ExpirationMonth] == JInt(IntOfString(d.expirationMonth))
      && m[ExpirationYear] == JInt(IntOfString(d.expirationYear))
  {
  }

  lemma CreditAlone(s: TransactionState)
    requires s.creditCard.Some? && s.debitCard.None?
    ensures var m := Request(s); var c := s.creditCard.value;
      && CardKeys <= m.Keys
      && m[Kind] == JString("credit")
      && m[CardNumber] == JString(c.cardNumber)
      && m[CardholderName] == JString(c.holderName)
      && m[SecurityCode] == JString(c.securityCode)
      && m[ExpirationMonth] == JInt(IntOfString(c.expirationMonth))
      && m[ExpirationYear] == JInt(IntOfString(c.expirationYear))
  {
  }

  /** The URLs go out in the order they were added. */
  lemma UrlsInOrder(s: TransactionState)
    requires |s.urls| > 0
    ensures Urls in Request(s)
    ensures Request(s)[Urls].JList? && |Request(s)[Urls].items| == |s.urls|
    ensures forall i :: 0 <= i < |s.urls| ==> Request(s)[Urls].items[i] == s.urls[i].ToJson()
  {
  }

  /** `additional` carries both ids. */
  lemma AdditionalIds(s: TransactionState)
    requires s.gatewayId.Some? && s.moduleId.Some?
    ensures Additional in Request(s)
    ensures Request(s)[Additional] == AdditionalJson(s.gatewayId.value, s.moduleId.value)
  {
  }

  /** `capture(b)` changes the body only in `capture`. */
  lemma CaptureChangesOnlyCapture(s: TransactionState, b: bool)
    ensures Request(s.(capture := b)) == Request(s)[Capture := JBool(b)]
  {
    var t := s.(capture := b);
    forall k: Key | k != Capture
      ensures Present(s, k) == Present(t, k) && (Present(s, k) ==> Value(s, k) == Value(t, k))
    {
    }
    RequestUpdate(s, t, Capture);
  }

  /** Adding a URL appends its map to `urls` and changes nothing else. */
  lemma AddUrlAppends(s: TransactionState, u: Records.Url)
    ensures Request(s.(urls := s.urls + [u])) == Request(s)[Urls := JList(UrlList(s.urls) + [u.ToJson()])]
  {
    var t := s.(urls := s.urls + [u]);
    assert UrlList(t.urls) == UrlList(s.urls) + [u.ToJson()];
    forall k: Key | k != Urls
      ensures Present(s, k) == Present(t, k) && (Present(s, k) ==> Value(s, k) == Value(t, k))
    {
    }
    RequestUpdate(s, t, Urls);
  }

  /** Two transactions that differ in the body only under `k0` give bodies that differ only there. */
  lemma RequestUpdate(s: TransactionState, t: TransactionState, k0: Key)
    requires Present(t, k0)
    requires forall k: Key :: k != k0 ==> Present(s, k) == Present(t, k) && (Present(s, k) ==> Value(s, k) == Value(t, k))
    ensures Request(t) == Request(s)[k0 := Value(t, k0)]
  {
    var m := Request(s)[k0 := Value(t, k0)];
    forall k | k in Request(t)
      ensures k in m && m[k] == Request(t)[k]
    {
    }
    forall k | k in m
      ensures k in Request(t)
    {
      KeyListed(k);
    }
    assert Request(t).Keys == m.Keys;
  }

  /** The unit test's amount: 20.99 is 2099 cents. */
  lemma CentsExample()
    ensures Cents(20.99) == 2099
  {
  }

  /** The unit test's reference is kept as given. */
  lemma ReferenceExample()
    ensures SanitizeReference("pedido123") == "pedido123"
  {
    CleanReferenceKept("pedido123");
  }

  /**
   * The unit test's body: 20.99 with reference "pedido123", a credit card, capture
   * off and 3 installments.
   */
  lemma ToArrayExample(card: Records.Card)
    ensures var s := Initial(20.99, "pedido123").(creditCard := Some(card), capture := false, installments := Some(3));
      && Amount in Request(s) && Request(s)[Amount] == JInt(2099)
      && Reference in Request(s) && Request(s)[Reference] == JString("pedido123")
      && Capture in Request(s) && Request(s)[Capture] == JBool(false)
      && Installments in Request(s) && Request(s)[Installments] == JInt(3)
  {
    var s := Initial(20.99, "pedido123").(creditCard := Some(card), capture := false, installments := Some(3));
    ReferenceExample();
    CentsExample();
    assert Present(s, Reference) && Present(s, Installments);
    KeyListed(Reference);
    KeyListed(Installments);
  }

  /** A transaction: its fields, set by the fluent mutators. */
  class Transaction {
    var amount: real
    var reference: string
    var tid: Option<string>
    var creditCard: Option<Records.Card>
    var debitCard: Option<Records.Card>
    var capture: bool
    var installments: Option<int>
    var gatewayId: Option<int>
    var moduleId: Option<int>
    var mcc: Option<Records.Mcc>
    var iata: Option<Records.Iata>
    var threeDSecure: Option<Records.ThreeDSecure>
    var urls: seq<Records.Url>
    var softDescriptor: Option<string>

    function Snapshot(): TransactionState
      reads this
    {
      TransactionState(amount, reference, tid, creditCard, debitCard, capture, installments, gatewayId,
                       moduleId, mcc, iata, threeDSecure, urls, softDescriptor)
    }

    /** `new Transaction($amount, $reference)` */
    constructor (amount: real, reference: string := "")
      ensures Snapshot() == Initial(amount, reference)
    {
      this.amount := amount;
      if !Empty(reference) {
        var r := Alnum(reference);
        if |r| > ReferenceLimit {
          r := r[..ReferenceLimit];
        }
        this.reference := r;
      } else {
        this.reference := "";
      }
      tid := None;
      creditCard := None;
      debitCard := None;
      capture := true;
      installments := None;
      gatewayId := None;
      moduleId := None;
      mcc := None;
      iata := None;
      threeDSecure := None;
      urls := [];
      softDescriptor := None;
    }

    method CreditCard(cardNumber: string, securityCode: string, expirationMonth: string,
                      expirationYear: string, holderName: string)
      modifies this
      ensures Snapshot() == old(Snapshot()).(creditCard := Some(Records.Card(cardNumber, securityCode, expirationMonth,
                                                                      expirationYear, holderName)))
    {
      creditCard := Some(Records.Card(cardNumber, securityCode, expirationMonth, expirationYear, holderName));
    }

    method DebitCard(cardNumber: string, securityCode: string, expirationMonth: string,
                     expirationYear: string, holderName: string)
      modifies this
      ensures Snapshot() == old(Snapshot()).(debitCard := Some(Records.Card(cardNumber, securityCode, expirationMonth,
                                                                     expirationYear, holderName)))
    {
      debitCard := Some(Records.Card(cardNumber, securityCode, expirationMonth, expirationYear, holderName));
    }

    method SetCapture(capture: bool)
      modifies this
      ensures Snapshot() == old(Snapshot()).(capture := capture)
    {
      this.capture := capture;
    }

    method SetInstallments(installments: int)
      modifies this
      ensures Snapshot() == old(Snapshot()).(installments := Some(installments))
    {
      this.installments := Some(installments);
    }

    method SetSoftDescriptor(softDescriptor: string)
      modifies this
      ensures Snapshot() == old(Snapshot()).(softDescriptor := Some(softDescriptor))
    {
      this.softDescriptor := Some(softDescriptor);
    }

    method SetAdditional(gatewayId: int, moduleId: int)
      modifies this
      ensures Snapshot() == old(Snapshot()).(gatewayId := Some(gatewayId), moduleId := Some(moduleId))
    {
      this.gatewayId := Some(gatewayId);
      this.moduleId := Some(moduleId);
    }

    /** `mcc($establishmentName, $mcc, $subMerchant)` */
    method SetMcc(establishmentName: string, code: string, subMerchant: Records.SubMerchant)
      modifies this
      ensures Snapshot() == old(Snapshot()).(mcc := Some(Records.Mcc(establishmentName, code, subMerchant)))
    {
      mcc := Some(Records.Mcc(establishmentName, code, subMerchant));
    }

    /** `iata($code, $departureTax)` */
    method SetIata(code: string, departureTax: string)
      modifies this
      ensures Snapshot() == old(Snapshot()).(iata := Some(Records.Iata(code, departureTax)))
    {
      iata := Some(Records.Iata(code, departureTax));
    }

    /** `threeDSecure($device)` */
    method SetThreeDSecure(device: Records.Device)
      modifies this
      ensures Snapshot() == old(Snapshot()).(threeDSecure := Some(Records.ThreeDSecure(device)))
    {
      threeDSecure := Some(Records.ThreeDSecure(device));
    }

    method AddUrl(url: string, kind: string)
      modifies this
      ensures Snapshot() == old(Snapshot()).(urls := old(urls) + [Records.Url(url, kind)])
    {
      urls := urls + [Records.Url(url, kind)];
    }

    method SetTid(tid: string)
      modifies this
      ensures Snapshot() == old(Snapshot()).(tid := Some(tid))
    {
      this.tid := Some(tid);
    }

    /** `toArray`, insert by insert, in the source's order. */
    method ToArray() returns (data: map<Key, Json>)
      ensures data == Request(Snapshot())
    {
      ghost var s := Snapshot();
      data := PutHead(s);
      data := PutCards(data, s);
      data := PutExtras(data, s);
      data := PutMerchant(data, s);
      data := PutSecure(data, s);
      AgreesAll(data, s);
    }

    /** `amount` and `capture`, then `reference` unless it is PHP-empty. */
    method PutHead(ghost s: TransactionState) returns (data: map<Key, Json>)
      requires s == Snapshot()
      ensures Agrees(data, s, 3)
    {
      ghost var before: map<Key, Json> := map[];
      data := map[Amount := JInt(Cents(amount))];
      AgreesStep(before, data, s, Amount, 0);
      before := data;
      data := data[Key.Capture := JBool(capture)];
      AgreesStep(before, data, s, Key.Capture, 1);
      before := data;
      if !Empty(reference) {
        data := data[Key.Reference := JString(reference)];
      }
      AgreesStep(before, data, s, Key.Reference, 2);
    }

    /** The credit card's keys, then the debit card's over them. */
    method PutCards(data: map<Key, Json>, ghost s: TransactionState) returns (r: map<Key, Json>)
      requires s == Snapshot()
      requires Agrees(data, s, 3)
      ensures Agrees(r, s, 4)
    {
      r := data;
      if creditCard.Some? {
        r := PutCard(r, "credit", creditCard.value);
      }
      if debitCard.Some? {
        r := PutCard(r, "debit", debitCard.value);
      }
      CardsAgree(data, r, s);
    }

    /** `installments`, `softDescriptor` and `additional`, each when set. */
    method PutExtras(data: map<Key, Json>, ghost s: TransactionState) returns (r: map<Key, Json>)
      requires s == Snapshot()
      requires Agrees(data, s, 4)
      ensures Agrees(r, s, 7)
    {
      r := data;
      if installments.Some? {
        r := r[Key.Installments := JInt(installments.value)];
      }
      AgreesStep(data, r, s, Key.Installments, 4);
      ghost var before := r;
      if softDescriptor.Some? {
        r := r[Key.SoftDescriptor := JString(softDescriptor.value)];
      }
      AgreesStep(before, r, s, Key.SoftDescriptor, 5);
      before := r;
      if gatewayId.Some? && moduleId.Some? {
        r := r[Key.Additional := AdditionalJson(gatewayId.value, moduleId.value)];
      }
      AgreesStep(before, r, s, Key.Additional, 6);
    }

    /** `mcc` and `iata`, each when set. */
    method PutMerchant(data: map<Key, Json>, ghost s: TransactionState) returns (r: map<Key, Json>)
      requires s == Snapshot()
      requires Agrees(data, s, 7)
      ensures Agrees(r, s, 9)
    {
      r := data;
      if mcc.Some? {
        r := r[Key.Mcc := mcc.value.ToJson()];
      }
      AgreesStep(data, r, s, Key.Mcc, 7);
      ghost var before := r;
      if iata.Some? {
        r := r[Key.Iata := iata.value.ToJson()];
      }
      AgreesStep(before, r, s, Key.Iata, 8);
    }

    /** `threeDSecure` when set, then `urls` when there is a URL. */
    method PutSecure(data: map<Key, Json>, ghost s: TransactionState) returns (r: map<Key, Json>)
      requires s == Snapshot()
      requires Agrees(data, s, 9)
      ensures Agrees(r, s, 11)
    {
      r := data;
      if threeDSecure.Some? {
        r := r[Key.ThreeDSecure := threeDSecure.value.ToJson()];
      }
      AgreesStep(data, r, s, Key.ThreeDSecure, 9);
      ghost var before := r;
      if |urls| > 0 {
        r := r[Key.Urls := JList(UrlList(urls))];
      }
      AgreesStep(before, r, s, Key.Urls, 10);
    }
  }

  /**
   * `data` holds exactly what `Request(s)` holds for the keys `toArray` writes
   * before stage `n` (the stages number the inserts, see `Key.Stage`), and no
   * other key.
   */
  ghost predicate Agrees(data: map<Key, Json>, s: TransactionState, n: nat) {
    && (forall k: Key :: k in data ==> k.Stage() < n)
    && (forall k: Key :: k.Stage() < n ==> (k in data <==> Present(s, k)))
    && (forall k :: k in data ==> data[k] == Value(s, k))
  }

  /** One conditional insert of `toArray` extends the agreement by its key. */
  lemma AgreesStep(before: map<Key, Json>, after: map<Key, Json>, s: TransactionState, k: Key, n: nat)
    requires k !in CardKeys && k.Stage() == n && Agrees(before, s, n)
    requires Present(s, k) ==> after == before[k := Value(s, k)]
    requires !Present(s, k) ==> after == before
    ensures Agrees(after, s, n + 1)
  {
    forall j: Key | j in after
      ensures j.Stage() < n + 1 && after[j] == Value(s, j)
    {
      if j != k {
        assert j in before && after[j] == before[j];
      }
    }
    forall j: Key | j.Stage() < n + 1
      ensures j in after <==> Present(s, j)
    {
      if j != k {
        StageOwner(k, j);
        assert j.Stage() < n && (j in after <==> j in before);
      }
    }
  }

  /** Outside the card keys, no two keys share a stage. */
  lemma StageOwner(k: Key, j: Key)
    requires k !in CardKeys && j != k
    ensures j.Stage() != k.Stage()
  {
  }

  /** The card keys, and only they, are written at stage 3. */
  lemma CardStage(k: Key)
    ensures k.Stage() == 3 <==> k in CardKeys
  {
  }

  /** The credit-card inserts followed by the debit-card inserts agree on the card keys. */
  lemma CardsAgree(before: map<Key, Json>, after: map<Key, Json>, s: TransactionState)
    requires Agrees(before, s, 3)
    requires var m := if s.creditCard.Some? then PutCard(before, "credit", s.creditCard.value) else before;
      after == if s.debitCard.Some? then PutCard(m, "debit", s.debitCard.value) else m
    ensures Agrees(after, s, 4)
  {
    if s.debitCard.Some? {
      if s.creditCard.Some? {
        PutCardOverwrites(before, "credit", s.creditCard.value, "debit", s.debitCard.value);
      }
      PutCardAgrees(before, s, "debit", s.debitCard.value);
    } else if s.creditCard.Some? {
      PutCardAgrees(before, s, "credit", s.creditCard.value);
    } else {
      assert after == before;
    }
  }

  /** Writing the chosen card's keys extends the agreement over the card stage. */
  lemma PutCardAgrees(before: map<Key, Json>, s: TransactionState, kind: string, c: Records.Card)
    requires Agrees(before, s, 3) && ChosenCard(s) == Some((kind, c))
    ensures Agrees(PutCard(before, kind, c), s, 4)
  {
    var r := PutCard(before, kind, c);
    forall k: Key | k in r
      ensures k.Stage() < Kind.Stage() + 1 && r[k] == Value(s, k)
    {
      if k !in CardKeys {
        assert k in before && r[k] == before[k];
      } else {
        assert r[k] == CardValue(kind, c, k);
      }
    }
    forall k: Key | k.Stage() < Kind.Stage() + 1
      ensures k in r <==> Present(s, k)
    {
      if k !in CardKeys {
        CardStage(k);
        assert k.Stage() < 3 && (k in r <==> k in before);
      }
    }
  }

  /** A second card's inserts overwrite all of the first card's. */
  lemma PutCardOverwrites(data: map<Key, Json>, kind1: string, c1: Records.Card, kind2: string, c2: Records.Card)
    ensures PutCard(PutCard(data, kind1, c1), kind2, c2) == PutCard(data, kind2, c2)
  {
  }

  lemma AgreesAll(data: map<Key, Json>, s: TransactionState)
    requires Agrees(data, s, 11)
    ensures data == Request(s)
  {
    var r := Request(s);
    forall k | k in data
      ensures k in r && r[k] == data[k]
    {
      KeyListed(k);
    }
    forall k | k in r
      ensures k in data
    {
      KeyListed(k);
    }
    assert data.Keys == r.Keys;
  }

  /** Every key is listed in `AllKeys` and written by one of the eleven inserts. */
  lemma KeyListed(k: Key)
    ensures k in AllKeys && k.Stage() <= Key.Urls.Stage()
  {
  }

  /** The six card inserts of `toArray`, one after the other. */
  function PutCard(data: map<Key, Json>, kind: string, c: Records.Card): (r: map<Key, Json>)
    ensures r.Keys == data.Keys + CardKeys
    ensures forall k :: k in r ==> r[k] == if k in CardKeys then CardValue(kind, c, k) else data[k]
  {
    data[Kind := JString(kind)][CardNumber := JString(c.cardNumber)]
        [CardholderName := JString(c.holderName)][SecurityCode := JString(c.securityCode)]
        [ExpirationMonth := JInt(IntOfString(c.expirationMonth))]
        [ExpirationYear := JInt(IntOfString(c.expirationYear))]
  }
}
