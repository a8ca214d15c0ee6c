/**
 * An outgoing HTTP request as the clients hand it to their HTTP library.
 * The bytes actually posted are `json.dumps` of `body`; transport, status
 * handling and response parsing are outside this model.
 */
module Http {

  import opened Wrappers
  import opened JsonValues

  datatype HttpRequest = HttpRequest(verb: string, url: string, headers: map<string, string>, body: Option<Json>)

  const JsonMediaType: string := "application/json"

  /** `Authorization: GNAP <token>`, the bearer form used with access and continuation tokens. */
  function GnapAuthorization(token: string): (value: string)
    ensures |value| == |token| + 5
    ensures value[..5] == "GNAP "
    ensures value[5..] == token
  {
    "GNAP " + token
  }
}
