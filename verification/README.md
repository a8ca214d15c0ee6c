# Open Payments / GNAP client: request construction, in Dafny

This project models the request-construction layer of a small Python client for Open Payments. The client asks a GNAP Authorization Server (RFC 9635) for grants, then uses the access tokens on a Resource Server. The model covers everything that turns the caller's arguments into the requests the client sends:

- **Grant requests.** The `access_token` array, the `interact` block of section 2.5 of RFC 9635, and the continuation request of section 5.
- **The ad-hoc request signer** that both signing clients share. It signs `METHOD\nURL\nTIMESTAMP[\nbase64(SHA-256(body))]` and puts the signature in `Signature` / `Signature-Input` headers. This is not RFC 9421.
- **Open Payments requests.**
  - Quote and outgoing-payment bodies, with the "send amount wins, neither is an error" rule.
  - The base URL derived from a wallet address.
  - Incoming- and outgoing-payment creation and lookup with `Authorization: GNAP <token>`.
- **The public key as an OKP JSON Web Key** (section 2 of RFC 8037). Its `x` member is base64url without padding (section 5 of RFC 4648, and section 2 of RFC 7515). It is published inside a `{"keys": [...]}` document, and the model includes the key-file naming scheme.
- **Two script transforms.**
  - The decimal amount → `{value, assetScale}` conversion in the quote examples.
  - The `WALLET_ADDRESS=` line rewrite in `setup.py`.

Modules, one file each:

- `Wrappers`: `Option` and `Result`.
- `JsonValues`: JSON values, `dict.get`, and Python truthiness.
- `Strings`: `split`, `rstrip`, `startswith`.
- `Base64`: the RFC 4648 encoder in both alphabets, a strict decoder, and the round trip.
- `Signing`: the signed content, the headers, and how a receiver parses them back.
- `Http`: the request value and the bearer header.
- `Gnap`: `GnapClient`.
- `OpenPayments`: `OpenPaymentsClient` and the `HeaderDict` it signs into.
- `Resources`: `ResourceClient`.
- `Keys`.
- `Amounts`.
- `EnvSetup`.

The three client classes keep their constructor-set fields as `const` fields. Their methods return the `HttpRequest` the client would send, together with the server's answer, which is a parameter. The Open Payments signer writes into a header dict the caller may pass in, so that dict is a `HeaderDict` object the method modifies.

Behaviour of the code that shapes the model:

- **Grant responses.** The grant calls return the server's JSON unchanged, and the client keeps no grant state between calls. `continue_grant` sends the continuation request whether or not an interaction came before it.
- **Payment lookups.** `get_incoming_payment` and `get_outgoing_payment` return the response dict as it came.
- **Continuation headers.** The continuation request sends `Content-Type: application/json` next to its `Authorization` header.
- **Errors.** The only error the modelled code raises itself is the `ValueError` of `create_quote` when neither amount is given, modelled as `QuoteError.NoAmountGiven`.
- **Open Payments answers.** The quote, outgoing-payment and wallet answers are read with `.get`, so they are JSON objects; the model takes them as maps.

## Model

| member | source | states |
|---|---|---|
| JsonValues.AsStringsOfStrItems | src/gnap_client.py:96 | a list of strings written as a JSON array reads back as the same list |
| Strings.Split | examples/03_create_quote.py:53 | `str.split(sep)` always yields at least one piece |
| Strings.SplitLength | examples/03_create_quote.py:53-54 | the number of pieces is one more than the number of separators |
| Strings.SplitJoin | examples/03_create_quote.py:56 | joining the pieces gives the text with every separator removed |
| Strings.SplitAt | examples/03_create_quote.py:53 | splitting at the first separator peels off the text before it |
| Strings.RStrip | src/key_manager.py:107 | `rstrip(c)` leaves a prefix that does not end in `c`, and only `c` was removed |
| Base64.EncodeUnpadded | src/key_manager.py:107 | the unpadded encoding has ceil(4n/3) characters, all from the chosen alphabet |
| Base64.Encode | src/gnap_client.py:252-257 | `b64encode` output is 4·ceil(n/3) characters, each an alphabet character or `=` |
| Base64.DecodeEncode | src/gnap_client.py:257 | decoding an encoding gives back exactly the bytes, in both alphabets |
| Base64.StripPadding | src/key_manager.py:107 | stripping trailing `=` from the padded encoding leaves the unpadded encoding |
| Base64.RepadUnpadded | src/key_manager.py:105-107 | re-padding the unpadded encoding to a multiple of four gives the padded encoding |
| Base64.Repad | src/key_manager.py:105-107 | re-padding appends only `=`, the fewest that make the length a multiple of four, and keeps the text as its prefix |
| Signing.BodyDigest | src/gnap_client.py:251-253 | the digest line is the 44-character base64 of the 32-byte SHA-256 |
| Signing.ContentToSign | src/gnap_client.py:250-253 | the content is method, URL and timestamp on three lines, plus a 45-character digest line exactly when the body is non-empty |
| Signing.SignatureValue | src/gnap_client.py:256-257 | the `signature` value is the 88-character base64 of the 64 signature bytes |
| Signing.SignatureHeader | src/openpayments_client.py:95 | the `Signature` header `keyId="…",algorithm="ed25519",signature="…"`, also built at src/gnap_client.py:260; SignatureHeaderRoundTrip states that it parses back |
| Signing.SignatureInputHeader | src/openpayments_client.py:96 | the `Signature-Input` header `sig1=();created=<timestamp>`, also built at src/gnap_client.py:261; ReceiverRebuildsContent states that the timestamp reads back from it |
| Signing.ContentLines | src/gnap_client.py:250-253 | split at line breaks, the content gives back method, URL, timestamp, and the digest exactly when the body is non-empty |
| Signing.ContentBindsDigest | src/openpayments_client.py:85-88 | equal contents for one method, URL and timestamp imply both bodies or neither have a digest line, and then equal SHA-256 digests |
| Signing.SignatureHeaderRoundTrip | src/gnap_client.py:260 | the `Signature` header parses back into the key id, `ed25519` and the signature |
| Signing.EncodedHasNoQuoteOrNewline | src/gnap_client.py:257 | base64 text holds no quote and no line break, so it cannot break the header or the content lines |
| Signing.ReceiverRebuildsContent | src/gnap_client.py:244-261 | a receiver reads key id, algorithm and creation time from the two headers, and the decoded signature is the key's signature over the content rebuilt with that same timestamp |
| Http.GnapAuthorization | src/resources_client.py:108 | the bearer header is exactly `GNAP ` followed by the token unchanged |
| Gnap.AccessRightEntry | src/gnap_client.py:94-99 | an entry has `type` and `actions` copied, `identifier` iff the identifier is non-empty, `limits` iff the limits are non-empty, and no other key |
| Gnap.AccessTokenList | src/gnap_client.py:93-101 | one entry per requested right, in the same order, with `type` and `actions` verbatim |
| Gnap.InteractBlock | src/gnap_client.py:160-167 | the `interact` block: start by redirect, finish by redirect with the URI and the nonce; InteractiveGrantRoundTrip states that it reads back as exactly that interaction |
| Gnap.NonInteractiveGrant | src/gnap_client.py:92-103 | the request has exactly `access_token` and `client`, and `client` is the client id |
| Gnap.InteractiveGrant | src/gnap_client.py:149-168 | the request has exactly `access_token`, `client` and `interact` |
| Gnap.GenerateNonce | src/gnap_client.py:265-268 | the nonce from 32 random bytes is 43 base64url characters |
| Gnap.NonceDecodes | src/gnap_client.py:265-268 | the nonce carries all 32 random bytes: re-padded and decoded, it gives them back |
| Gnap.AccessRightRoundTrip | src/gnap_client.py:94-99 | an entry reads back as its right, with an empty identifier or empty limits read as absent |
| Gnap.AccessTokenListRoundTrip | src/gnap_client.py:93-101 | the array reads back as the requested rights in order |
| Gnap.NonInteractiveGrantRoundTrip | src/gnap_client.py:92-103 | the non-interactive request reads back as the rights and client id, with no interaction |
| Gnap.InteractiveGrantRoundTrip | src/gnap_client.py:149-168 | the interactive request reads back as the same rights and client id plus a redirect start and a redirect finish to the given URI with the nonce |
| Gnap.InteractiveExtendsNonInteractive | src/gnap_client.py:149-168 | the interactive request is the non-interactive one plus `interact`, which the non-interactive one never has |
| Gnap.GnapClient.constructor | src/gnap_client.py:61-72 | the server URL, key id and private key are kept as given |
| Gnap.GnapClient.SignRequest | src/gnap_client.py:233-263 | the headers are exactly `Content-Type: application/json`, `Signature` and `Signature-Input`, signed over the content with this client's key id and the same timestamp |
| Gnap.GnapClient.RequestGrantNonInteractive | src/gnap_client.py:74-127 | POST to `<auth server>/` of the non-interactive request with `Content-Type: application/json` and the two signature headers; the URL signed is the URL posted and the body signed is the body sent; the server's answer is returned unchanged |
| Gnap.GnapClient.RequestGrantInteractive | src/gnap_client.py:129-192 | the same for the interactive request, with the redirect URI and the generated nonce |
| Gnap.GnapClient.ContinueGrant | src/gnap_client.py:194-229 | POST to the continuation URI with no body and exactly `Authorization: GNAP <token>` and `Content-Type`, no signature headers |
| OpenPayments.LowerScheme | src/openpayments_client.py:57 | the reported scheme has no upper-case ASCII letter left and is still a valid scheme |
| OpenPayments.LowerSchemeIdempotent | src/openpayments_client.py:57 | lowering an already reported scheme changes nothing |
| OpenPayments.NetlocPrefix | src/openpayments_client.py:57 | the network location runs up to the first `/`, `?` or `#` |
| OpenPayments.NetlocPrefixOf | src/openpayments_client.py:57-58 | a host without `/`, `?` or `#` followed by a path is read as exactly that host |
| OpenPayments.SplitScheme | src/openpayments_client.py:56 | a reported scheme is a valid scheme; with none, the whole address is what follows |
| OpenPayments.UrlSplit | src/openpayments_client.py:56 | a reported scheme is valid and the network location holds no `/`, `?` or `#` |
| OpenPayments.DeriveBaseUrl | src/openpayments_client.py:55-57 | the scheme, `://` and the network location; BaseUrlOfWallet, BaseUrlFixedPoint and BaseUrlWithoutScheme state what it gives |
| OpenPayments.BaseUrlOfWallet | src/openpayments_client.py:55-58 | for `scheme://host/path` the derived base URL is `scheme://host`, scheme lower-cased and path dropped |
| OpenPayments.BaseUrlFixedPoint | src/openpayments_client.py:55-58 | a derived base URL with a scheme derives itself again |
| OpenPayments.BaseUrlWithoutScheme | src/openpayments_client.py:55-58 | an address with no `:` and no leading `//` derives the bare `://` |
| OpenPayments.WithSignatureHeaders | src/openpayments_client.py:76-97 | signing adds `Signature`, `Signature-Input` and `Content-Type`, signed over the content, and leaves every other caller header as it was |
| OpenPayments.HeaderDict.constructor | src/openpayments_client.py:67 | the caller's header dict, holding the entries given; OpenPaymentsClient.SignRequest fills it in place (src/openpayments_client.py:76-77, 95-97) |
| OpenPayments.OpenPaymentsClient.constructor | src/openpayments_client.py:40-60 | a base URL that is not given is derived from the wallet address; a given one is kept verbatim |
| OpenPayments.OpenPaymentsClient.SignRequest | src/openpayments_client.py:62-99 | signs into the caller's dict in place (the same object is returned) or into a new one when none is given |
| OpenPayments.OpenPaymentsClient.CreateQuote | src/openpayments_client.py:101-145 | fails iff neither amount is non-empty, before anything is signed; otherwise POST to `<base>/quotes` of `walletAddress`, `method: ilp` and `sendAmount` when given, else `receiveAmount`, never both; signed over the URL and body sent; the JSON object the server answers is returned unchanged |
| OpenPayments.OpenPaymentsClient.CreateOutgoingPayment | src/openpayments_client.py:147-181 | POST to `<base>/outgoing-payments` of `walletAddress` and `quoteId`, plus `metadata` iff non-empty; signed over the URL and body sent; the JSON object the server answers is returned unchanged |
| OpenPayments.OpenPaymentsClient.GetWalletInfo | src/openpayments_client.py:183-204 | unsigned GET of the given wallet address, or the client's own when none is given, with only `Accept: application/json`; the JSON object the server answers is returned unchanged |
| Resources.ResourceClient.constructor | src/resources_client.py:55-69 | the server URL and access token are kept as given |
| Resources.ResourceClient.CreateIncomingPayment | src/resources_client.py:71-131 | POST to `<server>/incoming-payments` with exactly the bearer header and `Content-Type`; body has `walletAddress`, `incomingAmount`, plus `expiresAt` / `metadata` iff non-empty; the result echoes the caller's values, takes `id` and `receivedAmount` from the answer, and `completed` defaults to false |
| Resources.ResourceClient.GetIncomingPayment | src/resources_client.py:133-151 | GET of the payment id verbatim with exactly the bearer header and `Accept`; the answer is returned unchanged |
| Resources.ResourceClient.CreateOutgoingPayment | src/resources_client.py:153-209 | POST to `<server>/outgoing-payments`; body has `walletAddress`, `quoteId`, plus `metadata` iff non-empty; the result echoes the caller's values, `sentAmount` is none and `failed` false when absent |
| Resources.ResourceClient.GetOutgoingPayment | src/resources_client.py:211-233 | GET of the payment id verbatim with exactly the bearer header and `Accept`; the answer is returned unchanged |
| Keys.JoinPath | src/key_manager.py:44 | the file name always ends the joined path; an absolute name stands alone and a relative one follows the directory and a `/` |
| Keys.PrivateKeyPath | src/key_manager.py:44 | the private-key path ends with the key id followed by `_private.pem` |
| Keys.PublicKeyPath | src/key_manager.py:55 | the public-key path ends with the key id followed by `_public.pem` |
| Keys.PrivateNeverPublic | src/key_manager.py:44-55 | no private-key file path ever equals a public-key file path |
| Keys.PrivateKeyPathInjective | src/key_manager.py:44 | in one directory, different key ids that are single path components (no `/`) give different private-key files |
| Keys.JwkX | src/key_manager.py:105-107 | `x` contains no `=` and only base64url characters |
| Keys.JwkXLength | src/key_manager.py:100-107 | for a 32-byte Ed25519 key, `x` is 43 characters |
| Keys.JwkXRoundTrip | src/key_manager.py:105-107 | re-padding `x` and decoding it gives back the raw key bytes |
| Keys.ExportPublicKeyJwk | src/key_manager.py:109-116 | the JWK has exactly `kid`, `kty: OKP`, `alg: EdDSA`, `crv: Ed25519`, `x` and `use: sig`, and its `x` decodes to the raw key |
| Keys.PublicKeysFile | src/key_manager.py:127-135 | the path is the given one, or `public_keys.json` in the keys directory; the document is `{"keys": [jwk]}` with exactly this one key |
| Amounts.OrDefault | examples/03_create_quote.py:48-49 | an empty answer takes the default (`or "10.00"`, `or "USD"`, and `or "5.00"` in the complete flow): the result is the answer or the default, never empty when the default is not |
| Amounts.ConvertAmount | examples/03_create_quote.py:53-59 | the conversion, also at examples/04_complete_flow.py:86-92: the scale never exceeds the length of the value; ConvertOneDot, ConvertRemovesDot and ConvertOtherDots state its result |
| Amounts.ConvertOneDot | examples/03_create_quote.py:53-56 | `whole.fraction` converts to `whole + fraction` with asset scale `len(fraction)` |
| Amounts.ConvertRemovesDot | examples/04_complete_flow.py:86-89 | with exactly one dot the value is the input with the dot removed, one character shorter |
| Amounts.ConvertOtherDots | examples/03_create_quote.py:57-59 | with no dot or more than one, the value is the input unchanged and the scale 0 |
| Amounts.SendAmount | examples/03_create_quote.py:61-65 | `send_amount` has exactly `value`, `assetCode` (the currency verbatim, `USD` by default) and `assetScale` from the conversion |
| Amounts.QuoteExampleDefaults | examples/03_create_quote.py:48-65 | empty answers give `{value: "1000", assetCode: "USD", assetScale: 2}` |
| Amounts.CompleteFlowDefaults | examples/04_complete_flow.py:82-98 | empty answers give `{value: "500", assetCode: "USD", assetScale: 2}` |
| EnvSetup.WalletLine | setup.py:54 | the replacement line starts with `WALLET_ADDRESS=` |
| EnvSetup.RewrittenLines | setup.py:51-56 | the file keeps its number of lines |
| EnvSetup.RewrittenLinesByLine | setup.py:52-56 | a line starting with `WALLET_ADDRESS=` becomes `WALLET_ADDRESS=<address>\n`; every other line is kept in place |
| EnvSetup.NoWalletLineUnchanged | setup.py:52-56 | with no wallet line the file is unchanged, and nothing is appended |
| EnvSetup.RewriteIdempotent | setup.py:53-54 | rewriting twice with the same address is the same as rewriting once |
| EnvSetup.UpdateEnv | setup.py:47-59 | nothing is written iff the answer is empty; otherwise the loop produces exactly the rewritten lines |

## Left out

- HTTP transport is left out: `httpx.Client`, `post`/`get`, `raise_for_status`, `response.json()` and `close()`. Server answers are parameters, and their non-2xx statuses are not modelled.
- SHA-256, Ed25519 signing and `json.dumps` enter as functions: `Primitives.sha256`, `Primitives.dumps` and the clients' `privateKey`. Their results have the right lengths (32 bytes, 64 bytes, non-empty text), and the cryptography itself is not modelled. UTF-8 encoding of the signed text is folded into these functions.
- Signing.SignatureHeaderRoundTrip: holds only for key ids without `"`. The `Signature` header (src/gnap_client.py:260, src/openpayments_client.py:95) quotes the key id without escaping it, so a key id holding `"` yields a header that does not parse back; Signing.ReceiverRebuildsContent carries the same condition.
- JSON numbers are modelled as integers (`JNum(n: int)`): a float in `limits`, `metadata` or a server answer cannot be represented. Such values are only passed through unchanged.
- The byte layout of `json.dumps` is left out. Bodies are JSON values whose objects are maps, so key order is not modelled.
- The wall-clock timestamps are parameters, and so are the 32 random bytes behind `secrets.token_urlsafe(32)`.
- Loading the PEM private key in the client constructors is left out.
- `urlparse` is modelled only for scheme and network location. It does not model:
  - the stripping of leading C0 control characters and spaces, and the removal of embedded tabs, carriage returns and line feeds;
  - the `ValueError` for a non-ASCII network location whose NFKC normalisation contains `/`, `?`, `#`, `@` or `:`;
  - the `Invalid IPv6 URL` error for unbalanced brackets;
  - the `ValueError` for a network location holding both `[` and `]` whose bracketed host is not an IPv6 or IPvFuture address (`https://[abc]/x`, `https://[127.0.0.1]/x`), or that has text before `[` (`https://a[::1]/x`) or text after `]` that does not start with `:`. On such a wallet address the client constructor raises, while `DeriveBaseUrl` returns the scheme, `://` and the network location as written;
  - query, fragment, userinfo and port handling.
- `pathlib` is modelled only as joining with `/`. It does not normalise `.`, empty or trailing-slash parts, in the directory or in a key id that contains `/`.
- Key generation, PEM serialisation and loading, directory creation and file writes in `src/key_manager.py` are left out. The public key enters as its raw bytes.
- All `print`/`input` calls are left out. The `.strip()` of answers is not modelled: answers enter already stripped. dotenv loading and reading or writing `.env` are not modelled either; the file enters and leaves as its list of lines.
- Several source files are not part of this model: `examples/01_generate_keys.py`, `examples/02_get_wallet_info.py`, `examples/05_bob_alice_flow.py`, `verify.py` and `src/__init__.py`. The rest of the example scripts, beyond the amount conversion, is left out as well.
- Gnap.GnapClient.RequestGrantNonInteractive: the progress messages read `grant_response['access_token']['value']`, which can raise on an unexpected answer. That lookup is part of the printing and is not modelled.
- Gnap.GnapClient.RequestGrantInteractive: likewise for the read of `grant_response['interact']['redirect']`.
- OpenPayments.OpenPaymentsClient.CreateQuote: the fields of the amount dicts are not checked, as in the source.
- Gnap.GnapClient.ContinueGrant: when the answer has an `access_token` member, the progress message reads `grant_response['access_token']['value'][:20]` (src/gnap_client.py:227-229). That raises when the member is not an object with a sliceable `value`. The read is part of the printing and is not modelled, so the model returns every answer.
- Keys.PrivateKeyPathInjective: key ids containing `/` are not covered, because `pathlib` collapses repeated and `.` parts there and two such ids can name the same file.
