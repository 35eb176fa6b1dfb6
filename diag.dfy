/**
 * The webhook diagnostics endpoint: GET reports which webhook settings are present, with a
 * masked preview of the URL and never the token; POST sends one synthetic ping to the
 * webhook and classifies what came back.
 */
module Diag {
  import opened Wrappers
  import opened Text
  import opened JsonValues
  import opened Config
  import opened Webhook

  const NoUrlMessage: string := "N8N_WEBHOOK_URL n\U{E3}o configurado no .env"

  /** How many leading characters of the webhook URL the preview shows. */
  const PreviewKeep: nat := 8

  /** Largest part of the webhook's response body echoed back by the ping. */
  const ResponsePreviewLength: nat := 1000

  /** The sample sent when the caller supplies none. */
  const DefaultSample: Json := JObj(map["message" := JStr("diagnostic")])

  /**
   * The masked form of an already trimmed value `v`: as many stars as it has characters
   * when it is no longer than `keep`; otherwise its first `keep` characters, then "...(",
   * then its length in decimal, then ")".
   */
  function Masked(v: string, keep: nat): (m: string)
    ensures |v| <= keep ==> |m| == |v| && forall i | 0 <= i < |m| :: m[i] == '*'
    ensures |v| > keep ==>
      && keep + 5 <= |m|
      && m[..keep] == v[..keep]
      && m[keep..keep + 4] == "...("
      && m[|m| - 1] == ')'
      && m[keep + 4..|m| - 1] == Decimal(|v|)
      && AllDigits(m[keep + 4..|m| - 1])
      && DecimalValue(m[keep + 4..|m| - 1]) == |v|
  {
    if |v| <= keep then Repeat('*', |v|)
    else
      var m := v[..keep] + "...(" + Decimal(|v|) + ")";
      assert m[keep + 4..|m| - 1] == Decimal(|v|);
      DecimalRoundTrip(|v|);
      m
  }

  /** `mask(value, keep)`: nothing for an undefined or empty value, else the trimmed value masked. */
  function Mask(value: Option<string>, keep: nat := 4): (r: Option<string>)
    ensures r.None? <==> value.None? || value.value == ""
    ensures r.Some? ==> r.value == Masked(Trim(value.value), keep)
  {
    if value.None? || value.value == "" then None
    else Some(Masked(Trim(value.value), keep))
  }

  /**
   * The mask reveals nothing but a prefix and the length: two values whose trimmed forms
   * share their first `keep` characters and their length mask alike.
   */
  lemma MaskRevealsOnlyPrefixAndLength(a: string, b: string, keep: nat)
    requires a != "" && b != ""
    requires |Trim(a)| == |Trim(b)|
    requires |Trim(a)| > keep ==> Trim(a)[..keep] == Trim(b)[..keep]
    ensures Mask(Some(a), keep) == Mask(Some(b), keep)
  {
  }

  /** Values of different trimmed lengths, both longer than `keep`, never mask alike. */
  lemma {:induction false} MaskDisclosesLength(a: string, b: string, keep: nat)
    requires a != "" && b != ""
    requires |Trim(a)| > keep && |Trim(b)| > keep
    requires Mask(Some(a), keep) == Mask(Some(b), keep)
    ensures |Trim(a)| == |Trim(b)|
  {
    var m := Masked(Trim(a), keep);
    assert m == Masked(Trim(b), keep);
  }

  /** The GET report: presence flags, the URL preview and the public base, never the token. */
  datatype Report = Report(
    hasUrl: bool,
    hasToken: bool,
    publicBaseSet: bool,
    urlPreview: Option<string>,
    tokenPresent: bool,
    publicBase: Option<string>)

  /** GET: every flag is "the trimmed setting is non-empty"; the URL is shown only masked. */
  function Status(env: Env): (r: Report)
    ensures r.hasUrl <==> Setting(env.webhookUrl) != ""
    ensures r.hasToken <==> Setting(env.webhookToken) != ""
    ensures r.tokenPresent == r.hasToken
    ensures r.publicBaseSet <==> Setting(env.publicBaseUrl) != ""
    ensures r.publicBase == if r.publicBaseSet then Some(Setting(env.publicBaseUrl)) else None
    ensures r.urlPreview.Some? <==> r.hasUrl
    ensures r.hasUrl ==> r.urlPreview == Mask(Some(Setting(env.webhookUrl)), PreviewKeep)
  {
    var url := Setting(env.webhookUrl);
    var token := Setting(env.webhookToken);
    var publicBase := Setting(env.publicBaseUrl);
    Report(
      url != "",
      token != "",
      publicBase != "",
      if url != "" then Mask(Some(url), PreviewKeep) else None,
      token != "",
      if publicBase != "" then Some(publicBase) else None)
  }

  /** The report depends on the token only through whether it is set. */
  lemma StatusHidesToken(e1: Env, e2: Env)
    requires e1.webhookUrl == e2.webhookUrl && e1.publicBaseUrl == e2.publicBaseUrl
    requires (Setting(e1.webhookToken) == "") == (Setting(e2.webhookToken) == "")
    ensures Status(e1) == Status(e2)
  {
  }

  /** The preview masks the trimmed URL as it is: masking does not trim it a second time. */
  lemma PreviewIsMaskedUrl(env: Env)
    requires Setting(env.webhookUrl) != ""
    ensures Status(env).urlPreview == Some(Masked(Setting(env.webhookUrl), PreviewKeep))
  {
    TrimIdempotent(env.webhookUrl.GetOr(""));
  }

  /**
   * A configured URL longer than the preview shows only its first eight characters and,
   * recoverably, its length; a shorter one shows only stars.
   */
  lemma PreviewOfUrl(env: Env)
    requires Setting(env.webhookUrl) != ""
    ensures var url, p := Setting(env.webhookUrl), Status(env).urlPreview.value;
      && (|url| <= PreviewKeep ==> |p| == |url| && forall i | 0 <= i < |p| :: p[i] == '*')
      && (|url| > PreviewKeep ==>
            && PreviewKeep + 5 <= |p|
            && p[..PreviewKeep] == url[..PreviewKeep]
            && DecimalValue(p[PreviewKeep + 4..|p| - 1]) == |url|)
  {
    PreviewIsMaskedUrl(env);
  }

  /** The ping's reply, each with the HTTP status it is sent with. */
  datatype PingReply =
    | MissingUrl(error: string)
    | Answered(ok: bool, status: nat, body: string)
    | Failed(error: string)
  {
    function HttpStatus(): nat {
      match this
      case MissingUrl(_) => 400
      case Answered(ok, _, _) => if ok then 200 else 502
      case Failed(_) => 500
    }

    predicate Ok() {
      Answered? && ok
    }
  }

  /**
   * The ping's `sample`: the caller's parsed body (an unparsable one reads as `{}`) when it
   * is truthy and has keys, and `{message: "diagnostic"}` otherwise.
   */
  function Sample(parsed: Option<Json>): (s: Json)
    ensures parsed.Some? && HasKeys(parsed.value) ==> s == parsed.value
    ensures !(parsed.Some? && HasKeys(parsed.value)) ==> s == DefaultSample
  {
    var body := parsed.GetOr(JObj(map[]));
    if Truthy(Some(body)) && KeyCount(body) > 0 then body else DefaultSample
  }

  /** The ping payload `{ping: true, ts, sample}`; `now` is the ISO timestamp of the call. */
  function PingPayload(now: string, sample: Json): (p: Json)
    ensures p.JObj? && p.fields.Keys == {"ping", "ts", "sample"}
    ensures p.fields["ping"] == JBool(true) && p.fields["ts"] == JStr(now) && p.fields["sample"] == sample
  {
    JObj(map["ping" := JBool(true), "ts" := JStr(now), "sample" := sample])
  }

  /**
   * How the ping reads the webhook's answer: a response is echoed with its `ok` flag, its
   * status and at most its first 1000 characters, sent with 200 when ok and 502 when not;
   * a thrown value is reported with its message and 500.
   */
  function Classify(fetch: FetchOutcome): (r: PingReply)
    ensures fetch.Responded? ==>
      r == Answered(fetch.ok, fetch.status, Prefix(BodyText(fetch.body), ResponsePreviewLength))
    ensures fetch.Threw? ==> r == Failed(NonEmptyMessageOrString(fetch.error))
    ensures r.HttpStatus() == 200 <==> fetch.Responded? && fetch.ok
    ensures r.HttpStatus() == 502 <==> fetch.Responded? && !fetch.ok
    ensures r.HttpStatus() == 500 <==> fetch.Threw?
    ensures r.Ok() <==> r.HttpStatus() == 200
  {
    match fetch
    case Responded(status, ok, body) => Answered(ok, status, Prefix(BodyText(body), ResponsePreviewLength))
    case Threw(e) => Failed(NonEmptyMessageOrString(e))
  }

  /**
   * POST: no URL, 400 and no call; otherwise one call with the ping payload, answered
   * with 200 when the webhook is ok, 502 when it is not, 500 when the call threw.
   */
  method Ping(env: Env, parsed: Option<Json>, now: string, fetch: FetchOutcome)
    returns (reply: PingReply, sent: Option<Request>)
    ensures Setting(env.webhookUrl) == "" ==>
      reply == MissingUrl(NoUrlMessage) && reply.HttpStatus() == 400 && !reply.Ok() && sent == None
    ensures Setting(env.webhookUrl) != "" ==>
      && reply == Classify(fetch)
      && sent.Some?
      && sent.value.url == Setting(env.webhookUrl)
      && HeadersFor(sent.value.headers, Setting(env.webhookToken))
      && sent.value.body == PingPayload(now, Sample(parsed))
  {
    sent := None;
    var url := Setting(env.webhookUrl);
    var token := Setting(env.webhookToken);
    if url == "" {
      reply := MissingUrl(NoUrlMessage);
      return;
    }
    var payload := PingPayload(now, Sample(parsed));
    var headers := RequestHeaders(token);
    sent := Some(Request(url, headers, payload));
    reply := Classify(fetch);
  }
}
