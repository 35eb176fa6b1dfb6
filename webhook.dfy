/**
 * The outbound webhook call both route files make: its headers, the request as sent, and
 * what `fetch` came to. The network, the 7-second abort timer and the body serialisation
 * are not modelled; the outcome of the call is an input.
 */
module Webhook {
  import opened Wrappers
  import opened JsonValues

  const ContentType: string := "application/json"

  /** What the handlers substitute when the response body cannot be read. */
  const NoBody: string := "<no-body>"

  /**
   * A value thrown by `fetch` (a network failure, or the abort when the 7-second timer
   * fires), seen through its `message` property and through `String(e)`.
   */
  datatype Exception = Exception(message: Option<string>, asString: string)

  /** One POST to the webhook: a response (whose body may fail to be read) or a thrown value. */
  datatype FetchOutcome =
    | Responded(status: nat, ok: bool, body: Option<string>)
    | Threw(error: Exception)

  /** The request handed to `fetch`: target, headers and the JSON body. */
  datatype Request = Request(url: string, headers: map<string, string>, body: Json)

  /** `await res.text().catch(() => "<no-body>")`. */
  function BodyText(body: Option<string>): (t: string)
    ensures body.Some? ==> t == body.value
    ensures body.None? ==> t == NoBody
  {
    body.GetOr(NoBody)
  }

  /** `e?.message ?? String(e)`: the message whenever there is one, even an empty one. */
  function MessageOrString(e: Exception): (t: string)
    ensures e.message.Some? ==> t == e.message.value
    ensures e.message.None? ==> t == e.asString
  {
    e.message.GetOr(e.asString)
  }

  /** `e?.message || String(e)`: the message when it is non-empty, else the value as a string. */
  function NonEmptyMessageOrString(e: Exception): (t: string)
    ensures e.message.Some? && e.message.value != "" ==> t == e.message.value
    ensures e.message.None? || e.message.value == "" ==> t == e.asString
  {
    if e.message.Some? && e.message.value != "" then e.message.value else e.asString
  }

  /** The two renderings differ only for an empty message on a value whose string form is not empty. */
  lemma MessageRenderingsDiffer(e: Exception)
    ensures MessageOrString(e) != NonEmptyMessageOrString(e) <==> e.message == Some("") && e.asString != ""
  {
  }

  /**
   * The headers of a webhook call for a trimmed token: a JSON content type always, and a
   * bearer Authorization header exactly when the token is non-empty.
   */
  predicate HeadersFor(headers: map<string, string>, token: string) {
    && headers.Keys == (if token != "" then {"Content-Type", "Authorization"} else {"Content-Type"})
    && headers["Content-Type"] == ContentType
    && (token != "" ==> headers["Authorization"] == "Bearer " + token)
  }

  /** Builds the header dictionary in place, as both handlers do. */
  method RequestHeaders(token: string) returns (headers: map<string, string>)
    ensures HeadersFor(headers, token)
    ensures "Authorization" in headers <==> token != ""
  {
    headers := map["Content-Type" := ContentType];
    if token != "" {
      headers := headers["Authorization" := "Bearer " + token];
    }
  }
}
