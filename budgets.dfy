/**
 * The budgets collection endpoint: POST validates a budget, upserts it into the store and
 * then, best effort, notifies the webhook; GET lists the stored budgets. The store and the
 * webhook are outside the model: their results are inputs, and what the handler sends
 * them is an output.
 */
module Budgets {
  import opened Wrappers
  import opened Text
  import opened JsonValues
  import opened Config
  import opened Webhook

  const NotConfiguredMessage: string :=
    "Supabase n\U{E3}o configurado. Defina SUPABASE_URL e SUPABASE_SERVICE_ROLE_KEY no .env.local"
  const InvalidJsonMessage: string := "JSON inv\U{E1}lido"
  const MissingFieldsMessage: string := "Dados obrigat\U{F3}rios ausentes: number, client.name, items"

  /** The fields of a budget that are persisted; anything else in the body is dropped. */
  const PayloadKeys: set<string> := {"number", "date", "company", "client", "items", "total"}

  /** The path and query of the PDF link, before the encoded budget number. */
  const PdfPath: string := "/api/budgets/pdf?number="

  /** Largest part of a rejecting webhook's body quoted in `n8nError`. */
  const RejectionPreviewLength: nat := 500

  /** What the store's upsert (with `.select("number").single()`) came to. */
  datatype UpsertResult = Upserted(number: Json) | StoreError(message: string)

  /**
   * What `encodeURIComponent(body.number)` came to: the encoded text, or the URIError it
   * throws when the number's string form holds a lone surrogate.
   */
  datatype Encoding = Encoded(text: string) | EncodeThrew(error: Exception)

  /** What the store's ordered select came to; `data` may be null. */
  datatype ListResult = Rows(data: Option<seq<Json>>) | ListError(message: string)

  /** The JSON response of either handler with its HTTP status. */
  datatype Reply =
    | Failure(status: nat, error: string)
    | Saved(id: Json, n8nNotified: bool, n8nStatusCode: Option<nat>, n8nError: Option<string>)
    | Listing(rows: seq<Json>)
  {
    function Status(): nat {
      if Failure? then status else 200
    }
  }

  /**
   * The minimal validation: a truthy `number`, a truthy `client.name` and an array `items`.
   * A body passing it is an object with a client object and an items array.
   */
  predicate HasRequiredFields(body: Json)
    ensures HasRequiredFields(body) ==>
      && body.JObj?
      && "number" in body.fields
      && "client" in body.fields && body.fields["client"].JObj? && "name" in body.fields["client"].fields
      && "items" in body.fields && body.fields["items"].JArr?
  {
    var b := Some(body);
    Truthy(Member(b, "number")) && Truthy(Member(Member(b, "client"), "name")) && IsArray(Member(b, "items"))
  }

  /** The record persisted for a validated body: its six budget fields, those that are present. */
  function Payload(body: Json): (p: Json)
    requires HasRequiredFields(body)
    ensures p.JObj? && p.fields.Keys == body.fields.Keys * PayloadKeys
    ensures forall k | k in p.fields :: p.fields[k] == body.fields[k]
    ensures HasRequiredFields(p)
  {
    var p := JObj(map k | k in body.fields.Keys * PayloadKeys :: body.fields[k]);
    assert Member(Some(p), "client") == Member(Some(body), "client");
    p
  }

  /** `/^https?:\/\//i`: the value starts with "http://" or "https://", in any letter case. */
  predicate HasHttpScheme(s: string) {
    StartsWithIgnoreCase(s, "http://") || StartsWithIgnoreCase(s, "https://")
  }

  /** `s.replace(/\/$/, "")`: at most one trailing slash removed. */
  function StripTrailingSlash(s: string): (r: string)
    ensures r == s || r + "/" == s
    ensures r != s <==> s != "" && s[|s| - 1] == '/'
  {
    if s != "" && s[|s| - 1] == '/' then s[..|s| - 1] else s
  }

  /**
   * The base of the PDF link: the configured public base when it is an absolute http(s) URL,
   * less one trailing slash; otherwise the request's own `protocol//host`.
   */
  function ChooseBase(publicBase: string, protocol: string, host: string): (base: string)
    ensures publicBase != "" && HasHttpScheme(publicBase) ==>
      base == if publicBase[|publicBase| - 1] == '/' then publicBase[..|publicBase| - 1] else publicBase
    ensures !(publicBase != "" && HasHttpScheme(publicBase)) ==> base == protocol + "//" + host
  {
    if publicBase != "" && HasHttpScheme(publicBase) then StripTrailingSlash(publicBase)
    else protocol + "//" + host
  }

  /** `${base}/api/budgets/pdf?number=${encoded}`, which splits back into its three parts. */
  function PdfUrl(base: string, encoded: string): (u: string)
    ensures |u| == |base| + |PdfPath| + |encoded|
    ensures u[..|base|] == base
    ensures u[|base|..|base| + |PdfPath|] == PdfPath
    ensures u[|base| + |PdfPath|..] == encoded
  {
    base + PdfPath + encoded
  }

  /**
   * `(client?.phone || "").replace(/\D/g, "")`. A falsy phone gives ""; a string gives its
   * digits; any other truthy value has no `replace`, and the call throws (None).
   */
  function PhoneDigits(phone: Option<Json>): (r: Option<string>)
    ensures r.None? <==> Truthy(phone) && !phone.value.JStr?
    ensures phone.Some? && phone.value.JStr? ==> r == Some(DigitsOnly(phone.value.s))
    ensures !Truthy(phone) ==> r == Some("")
  {
    if !Truthy(phone) then Some("")
    else if phone.value.JStr? then Some(DigitsOnly(phone.value.s))
    else None
  }

  /**
   * The webhook body `{...payload, pdfUrl, client: {...payload.client, phoneDigits}}`:
   * every stored field, the PDF link, and the client extended with its phone digits.
   */
  function NotificationBody(payload: Json, pdfUrl: string, digits: string): (b: Json)
    requires payload.JObj? && "client" in payload.fields && payload.fields["client"].JObj?
    ensures b.JObj? && b.fields.Keys == payload.fields.Keys + {"pdfUrl"}
    ensures "pdfUrl" in b.fields && b.fields["pdfUrl"] == JStr(pdfUrl)
    ensures "client" in b.fields && b.fields["client"].JObj?
    ensures b.fields["client"].fields.Keys == payload.fields["client"].fields.Keys + {"phoneDigits"}
    ensures b.fields["client"].fields["phoneDigits"] == JStr(digits)
    ensures forall k | k in payload.fields["client"].fields && k != "phoneDigits" ::
      b.fields["client"].fields[k] == payload.fields["client"].fields[k]
    ensures forall k | k in payload.fields && k != "pdfUrl" && k != "client" :: b.fields[k] == payload.fields[k]
  {
    var client := payload.fields["client"].fields;
    JObj(payload.fields["pdfUrl" := JStr(pdfUrl)]["client" := JObj(client["phoneDigits" := JStr(digits)])])
  }

  /**
   * The body POST sends to the webhook for a stored payload: the notification body whose PDF
   * link is built on the chosen base and the encoded budget number.
   */
  function WebhookBody(env: Env, payload: Json, protocol: string, host: string,
                       encoded: string, digits: string): (b: Json)
    requires HasRequiredFields(payload)
    ensures b == NotificationBody(payload, PdfUrl(ChooseBase(Setting(env.publicBaseUrl), protocol, host), encoded), digits)
    ensures b.JObj? && "pdfUrl" in b.fields && b.fields["pdfUrl"] ==
      JStr(PdfUrl(ChooseBase(Setting(env.publicBaseUrl), protocol, host), encoded))
  {
    var pdfUrl := PdfUrl(ChooseBase(Setting(env.publicBaseUrl), protocol, host), encoded);
    NotificationBody(payload, pdfUrl, digits)
  }

  /**
   * `n8n respondeu ${status}: ${txt.slice(0, 500)}`: the remote status and at most the
   * first 500 characters of the body it returned.
   */
  function RejectionMessage(status: nat, text: string): (m: string)
    ensures var head := "n8n respondeu " + Decimal(status) + ": ";
      && |head| <= |m|
      && m[..|head|] == head
      && m[|head|..] <= text
      && |m| - |head| == if |text| <= RejectionPreviewLength then |text| else RejectionPreviewLength
  {
    var head := "n8n respondeu " + Decimal(status) + ": ";
    var m := head + Prefix(text, RejectionPreviewLength);
    assert m[|head|..] == Prefix(text, RejectionPreviewLength);
    m
  }

  /**
   * How the three notification fields describe one attempt. `encoded` is the outcome of
   * encoding the budget number and `phone` that of normalising the client phone, in that
   * order; either may throw (before any call is made), and the catch reports its message.
   */
  predicate Reported(encoded: Encoding, phone: Option<string>, phoneTypeError: string, fetch: FetchOutcome,
                     notified: bool, statusCode: Option<nat>, error: Option<string>)
  {
    if encoded.EncodeThrew? then
      !notified && statusCode == None && error == Some(MessageOrString(encoded.error))
    else if phone.None? then
      !notified && statusCode == None && error == Some(phoneTypeError)
    else
      match fetch
      case Responded(status, ok, body) =>
        && notified == ok
        && statusCode == Some(status)
        && error == (if ok then None else Some(RejectionMessage(status, BodyText(body))))
      case Threw(e) =>
        !notified && statusCode == None && error == Some(MessageOrString(e))
  }

  /** The notification fields as the response reports them, read off one attempt. */
  lemma ReportedFields(encoded: Encoding, phone: Option<string>, phoneTypeError: string, fetch: FetchOutcome,
                       notified: bool, statusCode: Option<nat>, error: Option<string>)
    requires Reported(encoded, phone, phoneTypeError, fetch, notified, statusCode, error)
    ensures notified <==> encoded.Encoded? && phone.Some? && fetch.Responded? && fetch.ok
    ensures statusCode.Some? <==> encoded.Encoded? && phone.Some? && fetch.Responded?
    ensures error.None? <==> notified
    ensures encoded.EncodeThrew? ==> error == Some(MessageOrString(encoded.error))
    ensures encoded.Encoded? && phone.None? ==> error == Some(phoneTypeError)
    ensures encoded.Encoded? && phone.Some? && fetch.Responded? && !fetch.ok ==>
      statusCode == Some(fetch.status) && error == Some(RejectionMessage(fetch.status, BodyText(fetch.body)))
    ensures encoded.Encoded? && phone.Some? && fetch.Threw? ==> error == Some(MessageOrString(fetch.error))
  {
  }

  /**
   * The `try` block of POST: encode the budget number for the PDF link, normalise the
   * phone, build the headers, call the webhook once, and record in three variables how
   * that went.
   */
  method Notify(env: Env, payload: Json, protocol: string, host: string,
                encodeNumber: Json -> Encoding, phoneTypeError: string, fetch: FetchOutcome)
    returns (notified: bool, statusCode: Option<nat>, error: Option<string>, sent: Option<Request>)
    requires HasRequiredFields(payload)
    ensures var encoded := encodeNumber(payload.fields["number"]);
      var phone := PhoneDigits(Member(Some(payload.fields["client"]), "phone"));
      && Reported(encoded, phone, phoneTypeError, fetch, notified, statusCode, error)
      && (sent.Some? <==> encoded.Encoded? && phone.Some?)
      && (sent.Some? ==>
            && sent.value.url == Setting(env.webhookUrl)
            && HeadersFor(sent.value.headers, Setting(env.webhookToken))
            && sent.value.body == WebhookBody(env, payload, protocol, host, encoded.text, phone.value))
  {
    notified, statusCode, error, sent := false, None, None, None;
    var encoded := encodeNumber(payload.fields["number"]);
    if encoded.EncodeThrew? {
      // the URIError is caught by the surrounding catch
      error := Some(MessageOrString(encoded.error));
      return;
    }
    var phoneDigits := PhoneDigits(Member(Some(payload.fields["client"]), "phone"));
    if phoneDigits.None? {
      // the TypeError is caught by the surrounding catch
      error := Some(phoneTypeError);
      return;
    }
    var headers := RequestHeaders(Setting(env.webhookToken));
    sent := Some(Request(Setting(env.webhookUrl), headers, WebhookBody(env, payload, protocol, host, encoded.text, phoneDigits.value)));
    match fetch {
      case Responded(status, ok, body) =>
        statusCode := Some(status);
        if !ok {
          error := Some(RejectionMessage(status, BodyText(body)));
        } else {
          notified := true;
        }
      case Threw(e) =>
        error := Some(MessageOrString(e));
    }
  }

  /**
   * POST /api/budgets. Checks, in this order: store configuration, JSON body, required
   * fields; then upserts (`upserted` is the record written) and, when a webhook URL is set,
   * notifies it (`sent` is the request made). `parsed` is None when the body is not JSON.
   */
  method Post(env: Env, parsed: Option<Json>, store: UpsertResult, protocol: string, host: string,
              encodeNumber: Json -> Encoding, phoneTypeError: string, fetch: FetchOutcome)
    returns (reply: Reply, upserted: Option<Json>, sent: Option<Request>)
    ensures !StoreConfigured(env) ==>
      reply == Failure(500, NotConfiguredMessage) && upserted == None && sent == None
    ensures StoreConfigured(env) && parsed.None? ==>
      reply == Failure(400, InvalidJsonMessage) && upserted == None && sent == None
    ensures StoreConfigured(env) && parsed.Some? ==>
      (reply == Failure(400, MissingFieldsMessage) <==> !HasRequiredFields(parsed.value))
    ensures upserted.Some? <==> StoreConfigured(env) && parsed.Some? && HasRequiredFields(parsed.value)
    ensures upserted.Some? ==> HasRequiredFields(parsed.value) && upserted.value == Payload(parsed.value)
    ensures upserted.None? ==> sent == None && reply.Failure?
    ensures upserted.Some? && store.StoreError? ==> reply == Failure(500, store.message) && sent == None
    ensures reply.Saved? <==> upserted.Some? && store.Upserted?
    ensures reply.Saved? ==> reply.id == store.number && reply.Status() == 200
    ensures reply.Saved? && Setting(env.webhookUrl) == "" ==>
      reply == Saved(store.number, false, None, None) && sent == None
    ensures reply.Saved? && Setting(env.webhookUrl) != "" ==>
      var payload := upserted.value;
      var encoded := encodeNumber(payload.fields["number"]);
      var phone := PhoneDigits(Member(Some(payload.fields["client"]), "phone"));
      && Reported(encoded, phone, phoneTypeError, fetch, reply.n8nNotified, reply.n8nStatusCode, reply.n8nError)
      && (sent.Some? <==> encoded.Encoded? && phone.Some?)
      && (sent.Some? ==>
            && sent.value.url == Setting(env.webhookUrl)
            && HeadersFor(sent.value.headers, Setting(env.webhookToken))
            && sent.value.body == WebhookBody(env, payload, protocol, host, encoded.text, phone.value))
  {
    upserted, sent := None, None;
    if !StoreConfigured(env) {
      reply := Failure(500, NotConfiguredMessage);
      return;
    }
    if parsed.None? {
      reply := Failure(400, InvalidJsonMessage);
      return;
    }
    var body := parsed.value;
    if !HasRequiredFields(body) {
      reply := Failure(400, MissingFieldsMessage);
      return;
    }
    var payload := Payload(body);
    upserted := Some(payload);
    if store.StoreError? {
      reply := Failure(500, store.message);
      return;
    }
    var n8nUrl := Setting(env.webhookUrl);
    var n8nNotified: bool := false;
    var n8nStatusCode: Option<nat> := None;
    var n8nError: Option<string> := None;
    if n8nUrl != "" {
      n8nNotified, n8nStatusCode, n8nError, sent := Notify(env, payload, protocol, host, encodeNumber, phoneTypeError, fetch);
    }
    reply := Saved(store.number, n8nNotified, n8nStatusCode, n8nError);
  }

  /** GET /api/budgets: the configuration check, then the stored rows, an empty list for null. */
  function List(env: Env, result: ListResult): (r: Reply)
    ensures !StoreConfigured(env) ==> r == Failure(500, NotConfiguredMessage)
    ensures StoreConfigured(env) && result.ListError? ==> r == Failure(500, result.message)
    ensures StoreConfigured(env) && result.Rows? ==> r.Listing? && r.Status() == 200
    ensures StoreConfigured(env) && result.Rows? && result.data.None? ==> r.rows == []
    ensures StoreConfigured(env) && result.Rows? && result.data.Some? ==> r.rows == result.data.value
  {
    if !StoreConfigured(env) then Failure(500, NotConfiguredMessage)
    else match result
      case ListError(message) => Failure(500, message)
      case Rows(data) => Listing(data.GetOr([]))
  }

  /** A base taken from the public setting keeps its scheme unless the slash removed was part of it. */
  lemma {:induction false} PublicBaseKeepsScheme(publicBase: string, protocol: string, host: string)
    requires publicBase != "" && HasHttpScheme(publicBase)
    requires |publicBase| > 8 || publicBase[|publicBase| - 1] != '/'
    ensures HasHttpScheme(ChooseBase(publicBase, protocol, host))
  {
    var base := ChooseBase(publicBase, protocol, host);
    if base != publicBase {
      assert base == publicBase[..|publicBase| - 1];
      if StartsWithIgnoreCase(publicBase, "https://") {
        assert StartsWithIgnoreCase(base, "https://");
      } else {
        assert StartsWithIgnoreCase(base, "http://");
      }
    }
  }

  /** Stripping removes one slash only: a base still ending in '/' came from a setting ending in "//". */
  lemma StripRemovesOneSlash(s: string)
    requires StripTrailingSlash(s) != "" && StripTrailingSlash(s)[|StripTrailingSlash(s)| - 1] == '/'
    ensures |s| >= 2 && s[|s| - 1] == '/' && s[|s| - 2] == '/'
  {
  }
}
