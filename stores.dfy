/** The merchant's configuration: where the API lives and the store's credentials. */
module Stores {

  /** One of the two eRede base URLs. */
  datatype Environment = Environment(apiUrl: string)

  function Production(): Environment {
    Environment("https://api.userede.com.br/erede")
  }

  function Sandbox(): Environment {
    Environment("https://sandbox-erede.useredecloud.com.br")
  }

  /**
   * A store: its filiation number (the OAuth client id), its token (the OAuth client
   * secret) and its environment.
   */
  datatype Store = Store(filiation: string, token: string, environment: Environment)

  /** The OAuth token endpoint the gateway uses when it builds its own client. */
  function TokenEndpoint(s: Store): string {
    s.environment.apiUrl + "/oauth2/token"
  }
}
