/**
 * The value objects a transaction carries (src/Rede/CreditCard.php, Mcc.php,
 * SubMerchant.php, Iata.php, Device.php, ThreeDSecure.php, Url.php): fields and the
 * fixed-key maps their `toArray` methods build.
 */
module Records {
  import opened Json

  /** A card as `creditCard`/`debitCard` receive it; every field a string. */
  datatype Card = Card(cardNumber: string, securityCode: string, expirationMonth: string,
                       expirationYear: string, holderName: string)

  datatype SubMerchant = SubMerchant(mcc: string, city: string, country: string) {
    function ToJson(): Json {
      JObject(map["mcc" := JString(mcc), "city" := JString(city), "country" := JString(country)])
    }
  }

  /** Dynamic MCC data. */
  datatype Mcc = Mcc(establishmentName: string, mcc: string, subMerchant: SubMerchant) {
    function ToJson(): Json {
      JObject(map["establishmentName" := JString(establishmentName), "mcc" := JString(mcc),
                  "subMerchant" := subMerchant.ToJson()])
    }
  }

  datatype Iata = Iata(code: string, departureTax: string) {
    function ToJson(): Json {
      JObject(map["code" := JString(code), "departureTax" := JString(departureTax)])
    }
  }

  /** The buyer's device, for 3-D Secure. */
  datatype Device = Device(colorDepth: int, deviceType3ds: string, javaEnabled: bool, language: string,
                           screenHeight: int, screenWidth: int, timeZoneOffset: int) {
    function ToJson(): Json {
      JObject(map["colorDepth" := JInt(colorDepth), "deviceType3ds" := JString(deviceType3ds),
                  "javaEnabled" := JBool(javaEnabled), "language" := JString(language),
                  "screenHeight" := JInt(screenHeight), "screenWidth" := JInt(screenWidth),
                  "timeZoneOffset" := JInt(timeZoneOffset)])
    }
  }

  datatype ThreeDSecure = ThreeDSecure(device: Device) {
    function ToJson(): Json {
      JObject(map["device" := device.ToJson()])
    }
  }

  /** The `kind` values the SDK names for 3-D Secure callbacks. */
  const ThreeDSecureSuccess := "THREE_D_SECURE_SUCCESS"
  const ThreeDSecureFailure := "THREE_D_SECURE_FAILURE"

  /** A callback URL and its kind. */
  datatype Url = Url(url: string, kind: string) {
    function ToJson(): Json {
      JObject(map["url" := JString(url), "kind" := JString(kind)])
    }
  }
}
