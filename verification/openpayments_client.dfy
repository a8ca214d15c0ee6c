/**
 * The Open Payments client (src/openpayments_client.py): the base URL it
 * derives from a wallet address, its request signer, which adds the
 * signature headers to a header dict the caller may supply, and the quote
 * and outgoing-payment requests it signs and posts.
 */
module OpenPayments {

  import opened Wrappers
  import opened JsonValues
  import opened Strings
  import opened Signing
  import opened Http
  import Base64

  // ---- The part of `urllib.parse.urlparse` the client relies on ----

  predicate IsAsciiLetter(c: char) {
    'a' <= c <= 'z' || 'A' <= c <= 'Z'
  }

  predicate IsSchemeChar(c: char) {
    IsAsciiLetter(c) || '0' <= c <= '9' || c == '+' || c == '-' || c == '.'
  }

  /** What may stand before the first `:` for it to count as a scheme. */
  predicate IsScheme(s: string) {
    |s| > 0 && IsAsciiLetter(s[0]) && forall i :: 0 <= i < |s| ==> IsSchemeChar(s[i])
  }

  function AsciiLower(c: char): char {
    if 'A' <= c <= 'Z' then (c as int + 32) as char else c
  }

  /**
   * Schemes are reported in lower case: no upper-case ASCII letter is left,
   * and a scheme stays a scheme.
   */
  function LowerScheme(s: string): (r: string)
    ensures |r| == |s|
    ensures forall i :: 0 <= i < |s| ==> r[i] == AsciiLower(s[i])
    ensures forall i :: 0 <= i < |r| ==> !('A' <= r[i] <= 'Z')
    ensures IsScheme(s) ==> IsScheme(r)
  {
    seq(|s|, i requires 0 <= i < |s| => AsciiLower(s[i]))
  }

  /** Lowering a scheme a second time changes nothing. */
  lemma LowerSchemeIdempotent(s: string)
    ensures LowerScheme(LowerScheme(s)) == LowerScheme(s)
  {
    var r := LowerScheme(s);
    forall i | 0 <= i < |r| ensures AsciiLower(r[i]) == r[i] {
      assert !('A' <= r[i] <= 'Z');
    }
  }

  /** The characters that end the network location. */
  predicate EndsNetloc(c: char) {
    c == '/' || c == '?' || c == '#'
  }

  /** The text before the first `/`, `?` or `#`. */
  function NetlocPrefix(s: string): (r: string)
    ensures |r| <= |s| && r == s[..|r|]
    ensures forall i :: 0 <= i < |r| ==> !EndsNetloc(r[i])
    ensures |r| < |s| ==> EndsNetloc(s[|r|])
    decreases |s|
  {
    if |s| == 0 || EndsNetloc(s[0]) then "" else [s[0]] + NetlocPrefix(s[1..])
  }

  datatype UrlParts = UrlParts(scheme: string, netloc: string)

  /** The scheme and what follows its `:`; no scheme when the text before the first `:` is not one. */
  function SplitScheme(url: string): (r: (string, string))
    ensures r.0 != "" ==> IsScheme(r.0)
    ensures r.0 == "" ==> r.1 == url
  {
    match SplitAtFirst(url, ':')
    case Some((before, after)) => if IsScheme(before) then (LowerScheme(before), after) else ("", url)
    case None => ("", url)
  }

  /** The scheme and network location `urlparse` reports. */
  function UrlSplit(url: string): (r: UrlParts)
    ensures r.scheme != "" ==> IsScheme(r.scheme)
    ensures forall i :: 0 <= i < |r.netloc| ==> !EndsNetloc(r.netloc[i])
  {
    var (scheme, rest) := SplitScheme(url);
    UrlParts(scheme, if StartsWith(rest, "//") then NetlocPrefix(rest[2..]) else "")
  }

  /** The base URL: the scheme, `://`, and the network location of the wallet address. */
  function DeriveBaseUrl(walletAddress: string): string {
    var parts := UrlSplit(walletAddress);
    parts.scheme + "://" + parts.netloc
  }

  /**
   * For a wallet address `scheme://host/path` the base URL is the scheme, in
   * lower case, and the host: the path (and any query or fragment) is dropped.
   */
  lemma BaseUrlOfWallet(scheme: string, host: string, path: string)
    requires IsScheme(scheme)
    requires forall i :: 0 <= i < |host| ==> !EndsNetloc(host[i])
    requires path == "" || EndsNetloc(path[0])
    ensures DeriveBaseUrl(scheme + "://" + host + path) == LowerScheme(scheme) + "://" + host
  {
    var url := scheme + "://" + host + path;
    var rest := "//" + host + path;
    assert url == scheme + [':'] + rest;
    assert ':' !in scheme by {
      forall i | 0 <= i < |scheme| ensures scheme[i] != ':' {
        assert IsSchemeChar(scheme[i]);
      }
    }
    SplitAtFirstOf(scheme, rest, ':');
    assert rest[..2] == "//";
    assert rest[2..] == host + path;
    NetlocPrefixOf(host, path);
  }

  lemma {:induction false} NetlocPrefixOf(host: string, path: string)
    requires forall i :: 0 <= i < |host| ==> !EndsNetloc(host[i])
    requires path == "" || EndsNetloc(path[0])
    ensures NetlocPrefix(host + path) == host
    decreases |host|
  {
    if |host| > 0 {
      assert (host + path)[1..] == host[1..] + path;
      NetlocPrefixOf(host[1..], path);
      assert [host[0]] + host[1..] == host;
    }
  }

  /** A derived base URL that has a scheme derives itself again. */
  lemma BaseUrlFixedPoint(walletAddress: string)
    requires UrlSplit(walletAddress).scheme != ""
    ensures DeriveBaseUrl(DeriveBaseUrl(walletAddress)) == DeriveBaseUrl(walletAddress)
  {
    var parts := UrlSplit(walletAddress);
    match SplitAtFirst(walletAddress, ':')
    case Some((before, after)) =>
      assert IsScheme(before) && parts.scheme == LowerScheme(before);
      LowerSchemeIdempotent(before);
      BaseUrlOfWallet(parts.scheme, parts.netloc, "");
      assert parts.scheme + "://" + parts.netloc + "" == DeriveBaseUrl(walletAddress);
    case None =>
  }

  /** Without a `:` or a leading `//`, the derived base URL is the bare `://`. */
  lemma BaseUrlWithoutScheme(walletAddress: string)
    requires ':' !in walletAddress
    requires !StartsWith(walletAddress, "//")
    ensures DeriveBaseUrl(walletAddress) == "://"
  {
  }

  // ---- Request headers ----

  /** A header dict the signer fills in place. */
  class HeaderDict {
    var entries: map<string, string>

    constructor (entries: map<string, string>)
      ensures this.entries == entries
    {
      this.entries := entries;
    }
  }

  /**
   * The header dict after signing: the three signer headers set, every other
   * entry the caller supplied left as it was.
   */
  function WithSignatureHeaders(base: map<string, string>, keyId: string,
                                privateKey: string -> SignatureBytes, verb: string, url: string,
                                timestamp: string, body: Option<string>, sha256: string -> Digest)
    : (headers: map<string, string>)
    ensures headers.Keys == base.Keys + SignedHeaderNames
    ensures forall k :: k in base && k !in SignedHeaderNames ==> headers[k] == base[k]
    ensures headers["Content-Type"] == JsonMediaType
    ensures SignedOver(headers, keyId, privateKey, verb, url, timestamp, body, sha256)
  {
    base["Signature" := SignatureHeader(keyId, SignatureValue(privateKey, ContentToSign(verb, url, timestamp, body, sha256)))]
        ["Signature-Input" := SignatureInputHeader(timestamp)]
        ["Content-Type" := JsonMediaType]
  }

  /** The quote request carried neither amount. */
  datatype QuoteError = NoAmountGiven

  /**
   * `OpenPaymentsClient`.  Its fields are set once by the constructor; the
   * private key stands as the signing function it provides.
   */
  class OpenPaymentsClient {
    const walletAddress: string
    const keyId: string
    const privateKey: string -> SignatureBytes
    const baseUrl: string

    /** A base URL that is not given is derived from the wallet address; a given one is kept as it is. */
    constructor (walletAddress: string, privateKey: string -> SignatureBytes, keyId: string,
                 baseUrl: Option<string>)
      ensures this.walletAddress == walletAddress
      ensures this.keyId == keyId
      ensures this.privateKey == privateKey
      ensures this.baseUrl == if baseUrl.None? then DeriveBaseUrl(walletAddress) else baseUrl.value
    {
      this.walletAddress := walletAddress;
      this.keyId := keyId;
      this.privateKey := privateKey;
      this.baseUrl := if baseUrl.None? then DeriveBaseUrl(walletAddress) else baseUrl.value;
    }

    /**
     * `_sign_request`: signs into the caller's header dict, or into a new one
     * when none is given, and returns that dict.
     */
    method SignRequest(verb: string, url: string, body: Option<string>, headers: HeaderDict?,
                       timestamp: string, sha256: string -> Digest)
      returns (signed: HeaderDict)
      modifies headers
      ensures headers != null ==> signed == headers
      ensures headers == null ==> fresh(signed)
      ensures signed.entries
           == WithSignatureHeaders(if headers == null then map[] else old(headers.entries),
                                   keyId, privateKey, verb, url, timestamp, body, sha256)
    {
      if headers == null {
        signed := new HeaderDict(map[]);
      } else {
        signed := headers;
      }
      var content := verb + "\n" + url + "\n" + timestamp;
      if HasBody(body) {
        var digest := sha256(body.value);
        content := content + "\n" + Base64.Encode(digest, Base64.Standard);
      }
      var signature := Base64.Encode(privateKey(content), Base64.Standard);
      signed.entries := signed.entries["Signature" := SignatureHeader(keyId, signature)];
      signed.entries := signed.entries["Signature-Input" := SignatureInputHeader(timestamp)];
      signed.entries := signed.entries["Content-Type" := JsonMediaType];
    }

    /**
     * `create_quote`: a send amount wins over a receive amount; with neither
     * the call fails before anything is signed or sent.
     */
    method CreateQuote(receiverWallet: string, sendAmount: Option<map<string, Json>>,
                       receiveAmount: Option<map<string, Json>>, timestamp: string,
                       primitives: Primitives, response: map<string, Json>)
      returns (outcome: Result<(HttpRequest, map<string, Json>), QuoteError>)
      ensures outcome.Failure? <==> !TruthyObject(sendAmount) && !TruthyObject(receiveAmount)
      ensures outcome.Success? ==>
        var (request, quote) := outcome.value;
        && request.verb == "POST" && request.url == baseUrl + "/quotes"
        && request.body.Some? && request.body.value.JObj?
        && var payload := request.body.value.fields;
        && payload.Keys
           == {"walletAddress", "method", if TruthyObject(sendAmount) then "sendAmount" else "receiveAmount"}
        && payload["walletAddress"] == JStr(receiverWallet)
        && payload["method"] == JStr("ilp")
        && (TruthyObject(sendAmount) ==> payload["sendAmount"] == JObj(sendAmount.value))
        && (!TruthyObject(sendAmount) ==> payload["receiveAmount"] == JObj(receiveAmount.value))
        && request.headers.Keys == SignedHeaderNames
        && request.headers["Content-Type"] == JsonMediaType
        && SignedOver(request.headers, keyId, privateKey, request.verb, request.url, timestamp,
                      Some(primitives.dumps(request.body.value)), primitives.sha256)
        && quote == response
    {
      var url := baseUrl + "/quotes";
      var payload := map["walletAddress" := JStr(receiverWallet), "method" := JStr("ilp")];
      if TruthyObject(sendAmount) {
        payload := payload["sendAmount" := JObj(sendAmount.value)];
      } else if TruthyObject(receiveAmount) {
        payload := payload["receiveAmount" := JObj(receiveAmount.value)];
      } else {
        return Failure(NoAmountGiven);
      }
      var body := primitives.dumps(JObj(payload));
      var headers := SignRequest("POST", url, Some(body), null, timestamp, primitives.sha256);
      outcome := Success((HttpRequest("POST", url, headers.entries, Some(JObj(payload))), response));
    }

    /** `create_outgoing_payment`: the payment request for a quote, with metadata only when some is given. */
    method CreateOutgoingPayment(quoteId: string, walletAddress: string, metadata: Option<map<string, Json>>,
                                 timestamp: string, primitives: Primitives, response: map<string, Json>)
      returns (request: HttpRequest, payment: map<string, Json>)
      ensures request.verb == "POST" && request.url == baseUrl + "/outgoing-payments"
      ensures request.body.Some? && request.body.value.JObj?
      ensures var payload := request.body.value.fields;
        && payload.Keys == {"walletAddress", "quoteId"} + (if TruthyObject(metadata) then {"metadata"} else {})
        && payload["walletAddress"] == JStr(walletAddress)
        && payload["quoteId"] == JStr(quoteId)
        && (TruthyObject(metadata) ==> payload["metadata"] == JObj(metadata.value))
      ensures request.headers.Keys == SignedHeaderNames
      ensures request.headers["Content-Type"] == JsonMediaType
      ensures SignedOver(request.headers, keyId, privateKey, request.verb, request.url, timestamp,
                         Some(primitives.dumps(request.body.value)), primitives.sha256)
      ensures payment == response
    {
      var url := baseUrl + "/outgoing-payments";
      var payload := map["walletAddress" := JStr(walletAddress), "quoteId" := JStr(quoteId)];
      if TruthyObject(metadata) {
        payload := payload["metadata" := JObj(metadata.value)];
      }
      var body := primitives.dumps(JObj(payload));
      var headers := SignRequest("POST", url, Some(body), null, timestamp, primitives.sha256);
      request := HttpRequest("POST", url, headers.entries, Some(JObj(payload)));
      payment := response;
    }

    /**
     * `get_wallet_info`: an unsigned GET of the given wallet address, or of the
     * client's own when none is given.
     */
    method GetWalletInfo(walletAddress: Option<string>, response: map<string, Json>)
      returns (request: HttpRequest, info: map<string, Json>)
      ensures request.verb == "GET" && request.body.None?
      ensures request.url == if walletAddress.None? then this.walletAddress else walletAddress.value
      ensures request.headers == map["Accept" := JsonMediaType]
      ensures info == response
    {
      var target := if walletAddress.None? then this.walletAddress else walletAddress.value;
      request := HttpRequest("GET", target, map["Accept" := JsonMediaType], None);
      info := response;
    }
  }
}
