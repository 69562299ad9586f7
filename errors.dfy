/**
 * What PHP code of the SDK can throw. Only the message and the code are kept; the
 * `previous` exception a wrapper carries is not modelled.
 */
module Errors {

  datatype Throwable =
      /** Rede\OAuth\OAuthException */
    | OAuthException(message: string)
      /** Rede\Http\HttpException, with its exception code */
    | HttpException(message: string, code: int)
      /** any other \Exception, e.g. thrown by a third-party HTTP client */
    | OtherException(message: string)
      /** PHP's \TypeError under strict_types; an \Error, not an \Exception */
    | TypeError(message: string)
  {
    /** Caught by `catch (\Exception $e)`: everything except the engine's \TypeError. */
    predicate IsException() {
      !TypeError?
    }
  }
}
