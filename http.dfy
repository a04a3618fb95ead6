/** What a route handler receives from the framework and what it returns:
    the authenticated session, the response, and the outcome of one request
    (the response with the store and the gateway as the request left them). */
module Http {
  import opened Common
  import opened Store
  import opened Gateway

  /** `session.user` of an authenticated request; the id comes from the
      sign-in token. */
  datatype AuthSession = AuthSession(userId: string, email: string)

  /** The customer part of the test-customer report. */
  datatype CustomerSummary = CustomerSummary(id: GatewayId, email: string, created: nat)

  /** One charge of the test-customer report. */
  datatype ChargeSummary = ChargeSummary(id: GatewayId, amount: int, status: string, created: nat)

  /** The `url` of a gateway-hosted page. */
  datatype Url = CheckoutUrl(session: GatewayId) | PortalUrl(session: GatewayId)

  datatype Body =
    | ErrorBody(error: string)
    | ErrorWithDetails(error: string, details: string)
    | UrlBody(url: Url)
    | ClientSecretBody(intent: GatewayId)
    | SuccessBody
    | TextBody(text: string)
    | CustomerReport(customer: CustomerSummary, charges: seq<ChargeSummary>)
      /** The framework's own body for an exception the handler did not catch. */
    | Unhandled

  datatype Response = Response(status: int, body: Body)

  datatype Outcome = Outcome(response: Response, store: StoreState, gateway: GatewayState)

  /** The outcome of a handler that uses only the store. */
  datatype StoreOutcome = StoreOutcome(response: Response, store: StoreState)

  const NotAuthenticated := Response(401, ErrorBody("Not authenticated"))
  const InvalidAmount := Response(400, ErrorBody("Invalid amount"))
  const UserNotFound := Response(404, ErrorBody("User not found"))
  /** What the framework answers when a handler throws. */
  const UnhandledError := Response(500, Unhandled)

  /** The metadata key and value naming the account on a gateway object. */
  function UserIdMetadata(auth: AuthSession): map<string, string> {
    map["userId" := auth.userId]
  }
}
