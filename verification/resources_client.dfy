/**
 * The resource-server client (src/resources_client.py): incoming and
 * outgoing payments, created and read with a GNAP access token.  These
 * requests are not signed; the token alone authorizes them.
 */
module Resources {

  import opened Wrappers
  import opened JsonValues
  import opened Http

  /** The incoming payment the client reports back after creating one. */
  datatype IncomingPayment = IncomingPayment(
    walletAddress: string,
    incomingAmount: map<string, Json>,
    expiresAt: Option<string>,
    metadata: Option<map<string, Json>>,
    id: Json,
    completed: Json,
    receivedAmount: Json)

  /** The outgoing payment the client reports back after creating one. */
  datatype OutgoingPayment = OutgoingPayment(
    walletAddress: string,
    quoteId: string,
    metadata: Option<map<string, Json>>,
    id: Json,
    sentAmount: Json,
    failed: Json)

  /** The headers of every resource request: the access token, plus the content type or accept header. */
  predicate TokenHeaders(headers: map<string, string>, accessToken: string, otherName: string) {
    && headers.Keys == {"Authorization", otherName}
    && headers["Authorization"] == GnapAuthorization(accessToken)
    && headers[otherName] == JsonMediaType
  }

  /** `ResourceClient`: its server URL and access token are set once by the constructor. */
  class ResourceClient {
    const resourceServerUrl: string
    const accessToken: string

    constructor (resourceServerUrl: string, accessToken: string)
      ensures this.resourceServerUrl == resourceServerUrl
      ensures this.accessToken == accessToken
    {
      this.resourceServerUrl := resourceServerUrl;
      this.accessToken := accessToken;
    }

    /**
     * `create_incoming_payment`: posts the payment with an expiry and metadata
     * only when they are given and non-empty, and reports the caller's values
     * together with what the server assigned.
     */
    method CreateIncomingPayment(walletAddress: string, incomingAmount: map<string, Json>,
                                 expiresAt: Option<string>, metadata: Option<map<string, Json>>,
                                 data: map<string, Json>)
      returns (request: HttpRequest, payment: IncomingPayment)
      ensures request.verb == "POST" && request.url == resourceServerUrl + "/incoming-payments"
      ensures TokenHeaders(request.headers, accessToken, "Content-Type")
      ensures request.body.Some? && request.body.value.JObj?
      ensures var payload := request.body.value.fields;
        && payload.Keys == {"walletAddress", "incomingAmount"}
                           + (if TruthyString(expiresAt) then {"expiresAt"} else {})
                           + (if TruthyObject(metadata) then {"metadata"} else {})
        && payload["walletAddress"] == JStr(walletAddress)
        && payload["incomingAmount"] == JObj(incomingAmount)
        && (TruthyString(expiresAt) ==> payload["expiresAt"] == JStr(expiresAt.value))
        && (TruthyObject(metadata) ==> payload["metadata"] == JObj(metadata.value))
      ensures payment.walletAddress == walletAddress && payment.incomingAmount == incomingAmount
      ensures payment.expiresAt == expiresAt && payment.metadata == metadata
      ensures payment.id == (if "id" in data then data["id"] else JNull)
      ensures payment.completed == (if "completed" in data then data["completed"] else JBool(false))
      ensures payment.receivedAmount == (if "receivedAmount" in data then data["receivedAmount"] else JNull)
    {
      var payload := map["walletAddress" := JStr(walletAddress), "incomingAmount" := JObj(incomingAmount)];
      if TruthyString(expiresAt) {
        payload := payload["expiresAt" := JStr(expiresAt.value)];
      }
      if TruthyObject(metadata) {
        payload := payload["metadata" := JObj(metadata.value)];
      }
      var headers := map["Authorization" := GnapAuthorization(accessToken), "Content-Type" := JsonMediaType];
      request := HttpRequest("POST", resourceServerUrl + "/incoming-payments", headers, Some(JObj(payload)));
      payment := IncomingPayment(walletAddress, incomingAmount, expiresAt, metadata,
                                 Get(data, "id"), GetOr(data, "completed", JBool(false)),
                                 Get(data, "receivedAmount"));
    }

    /** `get_incoming_payment`: a GET of the payment's own URL; the server's answer is returned as it is. */
    method GetIncomingPayment(paymentId: string, data: map<string, Json>)
      returns (request: HttpRequest, result: map<string, Json>)
      ensures request.verb == "GET" && request.url == paymentId && request.body.None?
      ensures TokenHeaders(request.headers, accessToken, "Accept")
      ensures result == data
    {
      var headers := map["Authorization" := GnapAuthorization(accessToken), "Accept" := JsonMediaType];
      request := HttpRequest("GET", paymentId, headers, None);
      result := data;
    }

    /**
     * `create_outgoing_payment`: posts the payment for a quote, with metadata
     * only when some is given, and reports the caller's values together with
     * what the server assigned.
     */
    method CreateOutgoingPayment(walletAddress: string, quoteId: string, metadata: Option<map<string, Json>>,
                                 data: map<string, Json>)
      returns (request: HttpRequest, payment: OutgoingPayment)
      ensures request.verb == "POST" && request.url == resourceServerUrl + "/outgoing-payments"
      ensures TokenHeaders(request.headers, accessToken, "Content-Type")
      ensures request.body.Some? && request.body.value.JObj?
      ensures var payload := request.body.value.fields;
        && payload.Keys == {"walletAddress", "quoteId"} + (if TruthyObject(metadata) then {"metadata"} else {})
        && payload["walletAddress"] == JStr(walletAddress)
        && payload["quoteId"] == JStr(quoteId)
        && (TruthyObject(metadata) ==> payload["metadata"] == JObj(metadata.value))
      ensures payment.walletAddress == walletAddress && payment.quoteId == quoteId
      ensures payment.metadata == metadata
      ensures payment.id == (if "id" in data then data["id"] else JNull)
      ensures payment.sentAmount == (if "sentAmount" in data then data["sentAmount"] else JNull)
      ensures payment.failed == (if "failed" in data then data["failed"] else JBool(false))
    {
      var payload := map["walletAddress" := JStr(walletAddress), "quoteId" := JStr(quoteId)];
      if TruthyObject(metadata) {
        payload := payload["metadata" := JObj(metadata.value)];
      }
      var headers := map["Authorization" := GnapAuthorization(accessToken), "Content-Type" := JsonMediaType];
      request := HttpRequest("POST", resourceServerUrl + "/outgoing-payments", headers, Some(JObj(payload)));
      payment := OutgoingPayment(walletAddress, quoteId, metadata,
                                 Get(data, "id"), Get(data, "sentAmount"), GetOr(data, "failed", JBool(false)));
    }

    /** `get_outgoing_payment`: a GET of the payment's own URL; the server's answer is returned as it is. */
    method GetOutgoingPayment(paymentId: string, data: map<string, Json>)
      returns (request: HttpRequest, result: map<string, Json>)
      ensures request.verb == "GET" && request.url == paymentId && request.body.None?
      ensures TokenHeaders(request.headers, accessToken, "Accept")
      ensures result == data
    {
      var headers := map["Authorization" := GnapAuthorization(accessToken), "Accept" := JsonMediaType];
      request := HttpRequest("GET", paymentId, headers, None);
      result := data;
    }
  }
}
