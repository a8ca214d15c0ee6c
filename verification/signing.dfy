/**
 * The simplified request-signing scheme shared by the GNAP client and the
 * Open Payments client (it is not RFC 9421 HTTP Message Signatures).
 *
 * The signed content is `METHOD "\n" URL "\n" TIMESTAMP`, followed by
 * `"\n" base64(SHA-256(body))` when the body is non-empty.  The signature
 * over it travels in a `Signature` header
 * `keyId="<id>",algorithm="ed25519",signature="<base64>"`, and the timestamp
 * in `Signature-Input: sig1=();created=<timestamp>`.
 *
 * SHA-256, Ed25519 signing and `json.dumps` are not opened up: they are
 * passed in as functions whose results have the right lengths.
 */
module Signing {

  import opened Wrappers
  import opened Strings
  import opened JsonValues
  import Base64

  type Digest = d: seq<Base64.byte> | |d| == 32 witness seq(32, _ => 0)

  type SignatureBytes = s: seq<Base64.byte> | |s| == 64 witness seq(64, _ => 0)

  /** `json.dumps` never produces the empty string. */
  type JsonText = t: string | |t| > 0 witness "{}"

  /** The library functions the signer relies on: SHA-256 of a text's UTF-8 bytes, and `json.dumps`. */
  datatype Primitives = Primitives(sha256: string -> Digest, dumps: Json -> JsonText)

  const Algorithm: string := "ed25519"

  /** The headers a signer sets. */
  const SignedHeaderNames: set<string> := {"Content-Type", "Signature", "Signature-Input"}

  /** A missing body and an empty one both get no digest line. */
  predicate HasBody(body: Option<string>) {
    body.Some? && body.value != ""
  }

  /** The digest line's text: the standard base 64 of the body's SHA-256. */
  function BodyDigest(body: string, sha256: string -> Digest): (text: string)
    ensures |text| == 44
  {
    Base64.Encode(sha256(body), Base64.Standard)
  }

  /** The canonical text that is signed. */
  function ContentToSign(verb: string, url: string, timestamp: string, body: Option<string>,
                         sha256: string -> Digest): (content: string)
    ensures |content| == |verb| + |url| + |timestamp| + 2 + (if HasBody(body) then 45 else 0)
  {
    var head := verb + "\n" + url + "\n" + timestamp;
    if HasBody(body) then head + "\n" + BodyDigest(body.value, sha256) else head
  }

  /** The `signature` parameter: the standard base 64 of the 64 signature bytes. */
  function SignatureValue(privateKey: string -> SignatureBytes, content: string): (text: string)
    ensures |text| == 88
  {
    Base64.Encode(privateKey(content), Base64.Standard)
  }

  function SignatureHeader(keyId: string, signature: string): string {
    "keyId=\"" + keyId + "\",algorithm=\"" + Algorithm + "\",signature=\"" + signature + "\""
  }

  function SignatureInputHeader(timestamp: string): string {
    "sig1=();created=" + timestamp
  }

  /** The two headers of a request signed with `keyId`'s key at `timestamp`. */
  ghost predicate SignedOver(headers: map<string, string>, keyId: string,
                             privateKey: string -> SignatureBytes, verb: string, url: string,
                             timestamp: string, body: Option<string>, sha256: string -> Digest)
  {
    && "Signature" in headers
    && headers["Signature"]
       == SignatureHeader(keyId, SignatureValue(privateKey, ContentToSign(verb, url, timestamp, body, sha256)))
    && "Signature-Input" in headers
    && headers["Signature-Input"] == SignatureInputHeader(timestamp)
  }

  /** What a receiver reads out of the `Signature` header. */
  datatype SignatureParams = SignatureParams(keyId: string, algorithm: string, signature: string)

  /** Reads `<prefix>"<value>"` off the front of `text`: the value and what follows it. */
  function QuotedAfter(prefix: string, text: string): Option<(string, string)> {
    if StartsWith(text, prefix) then SplitAtFirst(text[|prefix|..], '"') else None
  }

  lemma QuotedAfterOf(prefix: string, value: string, rest: string)
    requires '"' !in value
    ensures QuotedAfter(prefix, prefix + value + "\"" + rest) == Some((value, rest))
  {
    var text := prefix + value + "\"" + rest;
    assert text[..|prefix|] == prefix;
    assert text[|prefix|..] == value + ['"'] + rest;
    SplitAtFirstOf(value, rest, '"');
  }

  /** Reads `keyId="…",algorithm="…",signature="…"`, each value running to the next quote. */
  function ParseSignatureHeader(header: string): Option<SignatureParams> {
    match QuotedAfter("keyId=\"", header)
    case None => None
    case Some((keyId, afterKeyId)) =>
      match QuotedAfter(",algorithm=\"", afterKeyId)
      case None => None
      case Some((algorithm, afterAlgorithm)) =>
        match QuotedAfter(",signature=\"", afterAlgorithm)
        case None => None
        case Some((signature, tail)) =>
          if tail != "" then None else Some(SignatureParams(keyId, algorithm, signature))
  }

  /** Reads the creation time out of `sig1=();created=<timestamp>`. */
  function ParseSignatureInput(header: string): Option<string> {
    if StartsWith(header, "sig1=();created=") then Some(header[16..]) else None
  }

  /**
   * The `Signature` header parses back into its key id, algorithm and
   * signature.  The header puts the key id and the signature between double
   * quotes without escaping them, so a value holding a `"` would end its
   * quoted field early; base64 signatures never hold one, and key ids must not.
   */
  lemma SignatureHeaderRoundTrip(keyId: string, signature: string)
    requires '"' !in keyId && '"' !in signature
    ensures ParseSignatureHeader(SignatureHeader(keyId, signature))
         == Some(SignatureParams(keyId, Algorithm, signature))
  {
    var header := SignatureHeader(keyId, signature);
    var afterAlgorithm := ",signature=\"" + signature + "\"" + "";
    var afterKeyId := ",algorithm=\"" + Algorithm + "\"" + afterAlgorithm;
    assert QuotedAfter("keyId=\"", header) == Some((keyId, afterKeyId)) by {
      assert header == "keyId=\"" + keyId + "\"" + afterKeyId;
      QuotedAfterOf("keyId=\"", keyId, afterKeyId);
    }
    assert QuotedAfter(",algorithm=\"", afterKeyId) == Some((Algorithm, afterAlgorithm)) by {
      QuotedAfterOf(",algorithm=\"", Algorithm, afterAlgorithm);
    }
    assert QuotedAfter(",signature=\"", afterAlgorithm) == Some((signature, "")) by {
      QuotedAfterOf(",signature=\"", signature, "");
    }
  }

  /** A standard base 64 text never contains a quote or a line break. */
  lemma EncodedHasNoQuoteOrNewline(data: seq<Base64.byte>)
    ensures '"' !in Base64.Encode(data, Base64.Standard)
    ensures '\n' !in Base64.Encode(data, Base64.Standard)
  {
    var text := Base64.Encode(data, Base64.Standard);
    forall i | 0 <= i < |text|
      ensures text[i] != '"' && text[i] != '\n'
    {
      assert Base64.IsAlphabetChar(text[i], Base64.Standard) || text[i] == Base64.Pad;
    }
  }

  /**
   * The signed content is read back line by line: method, URL, timestamp,
   * and a fourth line, the body digest, exactly when the body is non-empty.
   */
  lemma ContentLines(verb: string, url: string, timestamp: string, body: Option<string>,
                     sha256: string -> Digest)
    requires '\n' !in verb && '\n' !in url && '\n' !in timestamp
    ensures Split(ContentToSign(verb, url, timestamp, body, sha256), '\n')
         == [verb, url, timestamp] + (if HasBody(body) then [BodyDigest(body.value, sha256)] else [])
  {
    var content := ContentToSign(verb, url, timestamp, body, sha256);
    var last := if HasBody(body) then "\n" + BodyDigest(body.value, sha256) else "";
    assert content == verb + ['\n'] + (url + ['\n'] + (timestamp + last));
    SplitAt(verb, url + ['\n'] + (timestamp + last), '\n');
    SplitAt(url, timestamp + last, '\n');
    if HasBody(body) {
      var digest := BodyDigest(body.value, sha256);
      EncodedHasNoQuoteOrNewline(sha256(body.value));
      assert timestamp + last == timestamp + ['\n'] + digest;
      SplitAt(timestamp, digest, '\n');
      SplitWithoutSeparator(digest, '\n');
    } else {
      assert timestamp + last == timestamp;
      SplitWithoutSeparator(timestamp, '\n');
    }
  }

  /**
   * The signed content commits to the body: two bodies give the same content
   * only if both or neither have a digest line, and then only if their
   * digests are equal.
   */
  lemma ContentBindsDigest(verb: string, url: string, timestamp: string, body1: Option<string>,
                           body2: Option<string>, sha256: string -> Digest)
    requires ContentToSign(verb, url, timestamp, body1, sha256) == ContentToSign(verb, url, timestamp, body2, sha256)
    ensures HasBody(body1) == HasBody(body2)
    ensures HasBody(body1) ==> sha256(body1.value) == sha256(body2.value)
  {
    if HasBody(body1) && HasBody(body2) {
      var head := verb + "\n" + url + "\n" + timestamp + "\n";
      var d1, d2 := BodyDigest(body1.value, sha256), BodyDigest(body2.value, sha256);
      assert head + d1 == head + d2;
      assert d1 == (head + d1)[|head|..];
      assert d1 == d2;
      Base64.DecodeEncode(sha256(body1.value), Base64.Standard);
      Base64.DecodeEncode(sha256(body2.value), Base64.Standard);
    }
  }

  /**
   * A receiver holding the public key needs nothing else: it reads the key id,
   * the algorithm, the signature bytes and the creation time from the two
   * headers, and rebuilding the content from the request's method, URL and
   * body with that creation time gives exactly the text that was signed.
   * The key id is quoted without escaping, so it must hold no `"`.
   */
  lemma ReceiverRebuildsContent(headers: map<string, string>, keyId: string,
                                privateKey: string -> SignatureBytes, verb: string, url: string,
                                timestamp: string, body: Option<string>, sha256: string -> Digest)
    requires SignedOver(headers, keyId, privateKey, verb, url, timestamp, body, sha256)
    requires '"' !in keyId
    ensures ParseSignatureHeader(headers["Signature"]).Some?
    ensures ParseSignatureInput(headers["Signature-Input"]) == Some(timestamp)
    ensures var params := ParseSignatureHeader(headers["Signature"]).value;
      && params.keyId == keyId
      && params.algorithm == Algorithm
      && Base64.Decode(params.signature, Base64.Standard)
         == Some(privateKey(ContentToSign(verb, url, timestamp, body, sha256)))
  {
    var signed := privateKey(ContentToSign(verb, url, timestamp, body, sha256));
    EncodedHasNoQuoteOrNewline(signed);
    SignatureHeaderRoundTrip(keyId, Base64.Encode(signed, Base64.Standard));
    Base64.DecodeEncode(signed, Base64.Standard);
    assert SignatureInputHeader(timestamp)[16..] == timestamp;
  }
}
