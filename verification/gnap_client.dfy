/**
 * The GNAP client (src/gnap_client.py): grant requests in the shape of
 * section 2 of RFC 9635, the interaction block of its section 2.5, grant
 * continuation (section 5), and the client's own request signer.
 *
 * The Authorization Server's answer is taken as given JSON and returned
 * unchanged, as the client does; nothing here interprets it.
 */
module Gnap {

  import opened Wrappers
  import opened JsonValues
  import opened Signing
  import opened Http
  import Base64
  import Strings

  /**
   * One requested right.  The resource type and the actions are kept as the
   * strings the caller passed: the client copies them without checking them
   * against the closed sets its type hints name.
   */
  datatype AccessRight = AccessRight(
    resourceType: string,
    actions: seq<string>,
    identifier: Option<string>,
    limits: Option<map<string, Json>>)

  /** The entry carries the identifier only when it is given and non-empty. */
  predicate HasIdentifier(right: AccessRight) {
    TruthyString(right.identifier)
  }

  /** The entry carries the limits only when they are given and non-empty. */
  predicate HasLimits(right: AccessRight) {
    TruthyObject(right.limits)
  }

  /** The right as a receiver sees it: what the request leaves out reads back as absent. */
  function Normalized(right: AccessRight): AccessRight {
    AccessRight(right.resourceType, right.actions,
                if HasIdentifier(right) then right.identifier else None,
                if HasLimits(right) then right.limits else None)
  }

  /** One `access_token` entry of the grant request. */
  function AccessRightEntry(right: AccessRight): (entry: map<string, Json>)
    ensures "type" in entry && entry["type"] == JStr(right.resourceType)
    ensures "actions" in entry && entry["actions"] == JArr(StrItems(right.actions))
    ensures "identifier" in entry <==> HasIdentifier(right)
    ensures HasIdentifier(right) ==> entry["identifier"] == JStr(right.identifier.value)
    ensures "limits" in entry <==> HasLimits(right)
    ensures HasLimits(right) ==> entry["limits"] == JObj(right.limits.value)
    ensures entry.Keys <= {"type", "actions", "identifier", "limits"}
  {
    map["type" := JStr(right.resourceType), "actions" := JArr(StrItems(right.actions))]
    + (if HasIdentifier(right) then map["identifier" := JStr(right.identifier.value)] else map[])
    + (if HasLimits(right) then map["limits" := JObj(right.limits.value)] else map[])
  }

  /** Every right of `rights` as a receiver reads it back, in order. */
  function NormalizedAll(rights: seq<AccessRight>): (r: seq<AccessRight>)
    ensures |r| == |rights| && forall i :: 0 <= i < |rights| ==> r[i] == Normalized(rights[i])
  {
    seq(|rights|, i requires 0 <= i < |rights| => Normalized(rights[i]))
  }

  /** The `access_token` array: one entry per requested right, in the caller's order. */
  function AccessTokenList(rights: seq<AccessRight>): (list: seq<Json>)
    ensures |list| == |rights|
    ensures forall i :: 0 <= i < |rights| ==>
      && list[i].JObj?
      && "type" in list[i].fields && list[i].fields["type"] == JStr(rights[i].resourceType)
      && "actions" in list[i].fields && list[i].fields["actions"] == JArr(StrItems(rights[i].actions))
  {
    seq(|rights|, i requires 0 <= i < |rights| => JObj(AccessRightEntry(rights[i])))
  }

  /** The `interact` block: start by redirect, finish by redirect to `redirectUri` with `nonce`. */
  function InteractBlock(redirectUri: string, nonce: string): Json {
    JObj(map[
      "start" := JArr([JStr("redirect")]),
      "finish" := JObj(map["method" := JStr("redirect"), "uri" := JStr(redirectUri), "nonce" := JStr(nonce)])])
  }

  /** The body of `request_grant_non_interactive`. */
  function NonInteractiveGrant(rights: seq<AccessRight>, clientId: string): (grant: map<string, Json>)
    ensures grant.Keys == {"access_token", "client"}
    ensures grant["client"] == JStr(clientId)
  {
    map["access_token" := JArr(AccessTokenList(rights)), "client" := JStr(clientId)]
  }

  /** The body of `request_grant_interactive`. */
  function InteractiveGrant(rights: seq<AccessRight>, clientId: string, redirectUri: string,
                            nonce: string): (grant: map<string, Json>)
    ensures grant.Keys == {"access_token", "client", "interact"}
  {
    map["access_token" := JArr(AccessTokenList(rights)),
        "client" := JStr(clientId),
        "interact" := InteractBlock(redirectUri, nonce)]
  }

  /** `secrets.token_urlsafe(32)`: 32 random bytes, base64url without padding. */
  type NonceEntropy = b: seq<Base64.byte> | |b| == 32 witness seq(32, _ => 0)

  function GenerateNonce(entropy: NonceEntropy): (nonce: string)
    ensures |nonce| == 43
    ensures forall i :: 0 <= i < |nonce| ==> Base64.IsAlphabetChar(nonce[i], Base64.UrlSafe)
  {
    Base64.StripPadding(entropy, Base64.UrlSafe);
    Strings.RStrip(Base64.Encode(entropy, Base64.UrlSafe), Base64.Pad)
  }

  /** The nonce carries all 32 random bytes: re-padded and decoded, it gives them back. */
  lemma NonceDecodes(entropy: NonceEntropy)
    ensures Base64.Decode(Base64.Repad(GenerateNonce(entropy)), Base64.UrlSafe) == Some(entropy)
  {
    Base64.StripPadding(entropy, Base64.UrlSafe);
    Base64.RepadUnpadded(entropy, Base64.UrlSafe);
    Base64.DecodeEncode(entropy, Base64.UrlSafe);
  }

  // ---- Reading a grant request back, as an Authorization Server would ----

  datatype Interaction = Interaction(finishUri: string, nonce: string)

  datatype GrantRequest = GrantRequest(accessToken: seq<AccessRight>, client: string, interact: Option<Interaction>)

  function ParseAccessRight(entry: Json): Option<AccessRight> {
    if !entry.JObj? then None
    else
      var f := entry.fields;
      if "type" !in f || !f["type"].JStr? || "actions" !in f || !f["actions"].JArr? then None
      else match AsStrings(f["actions"].items)
        case None => None
        case Some(actions) =>
          Some(AccessRight(
            f["type"].s, actions,
            if "identifier" in f && f["identifier"].JStr? then Some(f["identifier"].s) else None,
            if "limits" in f && f["limits"].JObj? then Some(f["limits"].fields) else None))
  }

  function ParseAccessTokenList(items: seq<Json>): (r: Option<seq<AccessRight>>)
    ensures r.Some? ==> |r.value| == |items|
    decreases |items|
  {
    if |items| == 0 then Some([])
    else match (ParseAccessRight(items[0]), ParseAccessTokenList(items[1..]))
      case (Some(right), Some(rest)) => Some([right] + rest)
      case _ => None
  }

  function ParseInteract(block: Json): Option<Interaction> {
    if !block.JObj? || "start" !in block.fields || block.fields["start"] != JArr([JStr("redirect")])
       || "finish" !in block.fields || !block.fields["finish"].JObj?
    then None
    else
      var finish := block.fields["finish"].fields;
      if "method" !in finish || finish["method"] != JStr("redirect")
         || "uri" !in finish || !finish["uri"].JStr? || "nonce" !in finish || !finish["nonce"].JStr?
      then None
      else Some(Interaction(finish["uri"].s, finish["nonce"].s))
  }

  function ParseGrantRequest(body: map<string, Json>): Option<GrantRequest> {
    if "access_token" !in body || !body["access_token"].JArr? || "client" !in body || !body["client"].JStr?
    then None
    else match ParseAccessTokenList(body["access_token"].items)
      case None => None
      case Some(rights) =>
        if "interact" !in body then Some(GrantRequest(rights, body["client"].s, None))
        else match ParseInteract(body["interact"])
          case None => None
          case Some(interaction) => Some(GrantRequest(rights, body["client"].s, Some(interaction)))
  }

  lemma AccessRightRoundTrip(right: AccessRight)
    ensures ParseAccessRight(JObj(AccessRightEntry(right))) == Some(Normalized(right))
  {
    AsStringsOfStrItems(right.actions);
  }

  /** The `access_token` array reads back as the requested rights, in order. */
  lemma {:induction false} AccessTokenListRoundTrip(rights: seq<AccessRight>)
    ensures ParseAccessTokenList(AccessTokenList(rights)) == Some(NormalizedAll(rights))
    decreases |rights|
  {
    if |rights| > 0 {
      assert AccessTokenList(rights)[1..] == AccessTokenList(rights[1..]);
      AccessRightRoundTrip(rights[0]);
      AccessTokenListRoundTrip(rights[1..]);
      assert NormalizedAll(rights) == [Normalized(rights[0])] + NormalizedAll(rights[1..]);
    }
  }

  /** A non-interactive request reads back as the rights and the client, with no interaction. */
  lemma NonInteractiveGrantRoundTrip(rights: seq<AccessRight>, clientId: string)
    ensures ParseGrantRequest(NonInteractiveGrant(rights, clientId))
         == Some(GrantRequest(NormalizedAll(rights), clientId, None))
  {
    AccessTokenListRoundTrip(rights);
  }

  /**
   * An interactive request reads back as the same rights and client, plus a
   * redirect finish to `redirectUri` carrying `nonce`.
   */
  lemma InteractiveGrantRoundTrip(rights: seq<AccessRight>, clientId: string, redirectUri: string, nonce: string)
    ensures ParseGrantRequest(InteractiveGrant(rights, clientId, redirectUri, nonce))
         == Some(GrantRequest(NormalizedAll(rights), clientId,
                              Some(Interaction(redirectUri, nonce))))
  {
    AccessTokenListRoundTrip(rights);
    var block := InteractBlock(redirectUri, nonce);
    assert ParseInteract(block) == Some(Interaction(redirectUri, nonce));
  }

  /** The interactive request is the non-interactive one plus the `interact` member. */
  lemma InteractiveExtendsNonInteractive(rights: seq<AccessRight>, clientId: string, redirectUri: string,
                                         nonce: string)
    ensures InteractiveGrant(rights, clientId, redirectUri, nonce)
         == NonInteractiveGrant(rights, clientId)["interact" := InteractBlock(redirectUri, nonce)]
    ensures "interact" !in NonInteractiveGrant(rights, clientId)
  {
  }

  /**
   * `GNAPClient`.  Its fields are set once by the constructor; the private key
   * stands as the signing function it provides.
   */
  class GnapClient {
    const authServerUrl: string
    const clientKeyId: string
    const privateKey: string -> SignatureBytes

    constructor (authServerUrl: string, clientKeyId: string, privateKey: string -> SignatureBytes)
      ensures this.authServerUrl == authServerUrl
      ensures this.clientKeyId == clientKeyId
      ensures this.privateKey == privateKey
    {
      this.authServerUrl := authServerUrl;
      this.clientKeyId := clientKeyId;
      this.privateKey := privateKey;
    }

    /**
     * `_sign_request`: a fresh header dict with the content type, the
     * signature over the canonical content, and the timestamp it was made at.
     */
    method SignRequest(verb: string, url: string, body: Option<string>, timestamp: string,
                       sha256: string -> Digest)
      returns (headers: map<string, string>)
      ensures headers.Keys == SignedHeaderNames
      ensures headers["Content-Type"] == JsonMediaType
      ensures SignedOver(headers, clientKeyId, privateKey, verb, url, timestamp, body, sha256)
    {
      headers := map["Content-Type" := JsonMediaType];
      var content := verb + "\n" + url + "\n" + timestamp;
      if HasBody(body) {
        var digest := sha256(body.value);
        content := content + "\n" + Base64.Encode(digest, Base64.Standard);
      }
      var signature := Base64.Encode(privateKey(content), Base64.Standard);
      headers := headers["Signature" := SignatureHeader(clientKeyId, signature)];
      headers := headers["Signature-Input" := SignatureInputHeader(timestamp)];
    }

    /**
     * `request_grant_non_interactive`: posts the signed grant request to
     * `<auth server>/` and returns the server's answer unchanged.
     */
    method RequestGrantNonInteractive(accessRights: seq<AccessRight>, clientId: string, timestamp: string,
                                      primitives: Primitives, response: Json)
      returns (request: HttpRequest, grant: Json)
      ensures request.verb == "POST" && request.url == authServerUrl + "/"
      ensures request.body == Some(JObj(NonInteractiveGrant(accessRights, clientId)))
      ensures request.headers.Keys == SignedHeaderNames
      ensures request.headers["Content-Type"] == JsonMediaType
      ensures SignedOver(request.headers, clientKeyId, privateKey, request.verb, request.url, timestamp,
                         Some(primitives.dumps(request.body.value)), primitives.sha256)
      ensures grant == response
    {
      var grantRequest := JObj(NonInteractiveGrant(accessRights, clientId));
      var body := primitives.dumps(grantRequest);
      var headers := SignRequest("POST", authServerUrl + "/", Some(body), timestamp, primitives.sha256);
      request := HttpRequest("POST", authServerUrl + "/", headers, Some(grantRequest));
      grant := response;
    }

    /**
     * `request_grant_interactive`: as above, with the `interact` block whose
     * nonce is generated from `entropy`.
     */
    method RequestGrantInteractive(accessRights: seq<AccessRight>, clientId: string, redirectUri: string,
                                   entropy: NonceEntropy, timestamp: string, primitives: Primitives,
                                   response: Json)
      returns (request: HttpRequest, grant: Json)
      ensures request.verb == "POST" && request.url == authServerUrl + "/"
      ensures request.body == Some(JObj(InteractiveGrant(accessRights, clientId, redirectUri, GenerateNonce(entropy))))
      ensures request.headers.Keys == SignedHeaderNames
      ensures request.headers["Content-Type"] == JsonMediaType
      ensures SignedOver(request.headers, clientKeyId, privateKey, request.verb, request.url, timestamp,
                         Some(primitives.dumps(request.body.value)), primitives.sha256)
      ensures grant == response
    {
      var grantRequest := JObj(InteractiveGrant(accessRights, clientId, redirectUri, GenerateNonce(entropy)));
      var body := primitives.dumps(grantRequest);
      var headers := SignRequest("POST", authServerUrl + "/", Some(body), timestamp, primitives.sha256);
      request := HttpRequest("POST", authServerUrl + "/", headers, Some(grantRequest));
      grant := response;
    }

    /**
     * `continue_grant`: a bodiless POST to the continuation URI carrying only
     * the continuation token and the content type; nothing is signed.
     */
    method ContinueGrant(continueUri: string, continueToken: string, response: Json)
      returns (request: HttpRequest, grant: Json)
      ensures request.verb == "POST" && request.url == continueUri && request.body.None?
      ensures request.headers.Keys == {"Authorization", "Content-Type"}
      ensures request.headers["Authorization"] == GnapAuthorization(continueToken)
      ensures request.headers["Content-Type"] == JsonMediaType
      ensures grant == response
    {
      var headers := map["Authorization" := GnapAuthorization(continueToken), "Content-Type" := JsonMediaType];
      request := HttpRequest("POST", continueUri, headers, None);
      grant := response;
    }
  }
}
