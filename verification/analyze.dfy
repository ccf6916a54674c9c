/**
 * The `POST /api/analyze` handler: reads the URL from the request body,
 * sanitises it, fetches the page, extracts its metadata, evaluates it and
 * answers with the report or with an error status.
 *
 * Everything outside the process is a parameter: the request body as the
 * JSON reader sees it, the `URL` parser, the network fetch and the HTML
 * loader. A thrown exception that the handler's outer `catch` turns into a
 * 500 is an explicit outcome of those parameters.
 */
module Analyze {
  import opened Wrappers
  import opened Text
  import opened SeoTypes
  import opened Urls
  import opened Extraction
  import Evaluation

  /** The body as `request.json()` yields it: unreadable (the reader throws), or JSON whose `url` is a string or not. */
  datatype RequestBody = Unreadable | Json(url: Option<string>)

  /** The outcome of `fetch`: the call throws, or a response with its final URL and its text. */
  datatype FetchResult =
    | NetworkError
    | Fetched(ok: bool, status: nat, statusText: string, finalUrl: string, html: string)

  /** The network: the outcome of fetching a URL. */
  type Fetcher = string -> FetchResult

  /** `cheerio.load`. */
  type Loader = string -> Document

  datatype ResponseBody = ErrorMessage(message: string) | Report(result: AnalysisResult)

  datatype Response = Response(status: nat, body: ResponseBody)

  const UrlRequiredMessage: string := "URL é obrigatória."
  const UnsupportedProtocolMessage: string := "Protocolo não suportado."
  /** The message of the `TypeError` the runtime's `URL` constructor throws. */
  const InvalidUrlMessage: string := "Invalid URL"
  const InternalErrorMessage: string := "Erro interno ao analisar a página."

  /** The message a failed sanitisation answers with: the message of the error it threw. */
  function SanitizeMessage(e: SanitizeError): string {
    match e
    case InvalidUrl => InvalidUrlMessage
    case UnsupportedProtocol => UnsupportedProtocolMessage
  }

  /** The 502 message for an unsuccessful fetch: status code and status text. */
  function FetchFailedMessage(status: nat, statusText: string): string {
    "Falha ao buscar a página (" + NatToString(status) + " " + statusText + ")."
  }

  /** The trimmed `url` of the body, empty when the body has no string `url`. */
  function RequestedUrl(body: RequestBody): string
    requires body.Json?
  {
    if body.url.Some? then Trim(body.url.value) else ""
  }

  /** The report for a fetched page: its metadata, the normalised final URL and the evaluation of the two. */
  function Analysis(parse: Parser, load: Loader, targetUrl: string, finalUrl: string, html: string): (r: AnalysisResult)
    ensures r.url == targetUrl && r.htmlLength == Utf16Length(html)
    ensures r.normalizedUrl == NormalizeUrl(parse, if finalUrl != "" then finalUrl else targetUrl)
    ensures Extracted(r.meta, r.openGraph, r.twitter) == ExtractMeta(load(html))
    ensures r.issues == Evaluation.Evaluation(parse, r.normalizedUrl, r.meta, r.openGraph, r.twitter)
  {
    var e := ExtractMeta(load(html));
    var normalizedUrl := NormalizeUrl(parse, if finalUrl != "" then finalUrl else targetUrl);
    AnalysisResult(targetUrl, normalizedUrl, Utf16Length(html), e.meta, e.openGraph, e.twitter,
                   Evaluation.Evaluation(parse, normalizedUrl, e.meta, e.openGraph, e.twitter))
  }

  /** The answer once the target URL is known: a failed fetch is a 500, an unsuccessful status a 502. */
  function AfterFetch(parse: Parser, load: Loader, targetUrl: string, response: FetchResult): (resp: Response)
    ensures resp.status in {200, 500, 502}
  {
    match response
    case NetworkError => Response(500, ErrorMessage(InternalErrorMessage))
    case Fetched(ok, status, statusText, finalUrl, html) =>
      if !ok then Response(502, ErrorMessage(FetchFailedMessage(status, statusText)))
      else Response(200, Report(Analysis(parse, load, targetUrl, finalUrl, html)))
  }

  /** The answer once the URL is sanitised: rejected is a 400, else the sanitised URL is parsed again and fetched. */
  function AfterSanitize(parse: Parser, fetch: Fetcher, load: Loader, sanitized: Result<Url, SanitizeError>): (resp: Response)
    ensures resp.status in {200, 400, 500, 502}
    ensures resp.status == 400 <==> sanitized.Err?
  {
    match sanitized
    case Err(e) => Response(400, ErrorMessage(SanitizeMessage(e)))
    case Ok(u) =>
      match parse(Serialize(u))
      case None => Response(500, ErrorMessage(InternalErrorMessage))
      case Some(target) => AfterFetch(parse, load, Serialize(target), fetch(Serialize(target)))
  }

  /** What the handler answers. */
  function Respond(body: RequestBody, parse: Parser, fetch: Fetcher, load: Loader): (resp: Response)
    ensures resp.status in {200, 400, 500, 502}
  {
    if body.Unreadable? then Response(500, ErrorMessage(InternalErrorMessage))
    else if RequestedUrl(body) == "" then Response(400, ErrorMessage(UrlRequiredMessage))
    else AfterSanitize(parse, fetch, load, SanitizedUrl(parse, RequestedUrl(body)))
  }

  /**
   * `POST`: the handler itself, returning early at each failure and running
   * the sanitiser and the evaluator as the route does.
   */
  method Post(body: RequestBody, parse: Parser, fetch: Fetcher, load: Loader) returns (resp: Response)
    ensures resp == Respond(body, parse, fetch, load)
  {
    if body.Unreadable? {
      return Response(500, ErrorMessage(InternalErrorMessage));
    }
    var rawUrl := if body.url.Some? then Trim(body.url.value) else "";
    if rawUrl == "" {
      return Response(400, ErrorMessage(UrlRequiredMessage));
    }
    var sanitized := SanitizeUrl(parse, rawUrl);
    if sanitized.Err? {
      return Response(400, ErrorMessage(SanitizeMessage(sanitized.error)));
    }
    var parsed := parse(sanitized.value);
    if parsed.None? {
      return Response(500, ErrorMessage(InternalErrorMessage));
    }
    var targetUrl := Serialize(parsed.value);
    resp := FetchAndReport(parse, fetch, load, targetUrl);
  }

  /** The rest of `POST` once the target URL is known: fetch it, then answer 500, 502 or the report. */
  method FetchAndReport(parse: Parser, fetch: Fetcher, load: Loader, targetUrl: string) returns (resp: Response)
    ensures resp == AfterFetch(parse, load, targetUrl, fetch(targetUrl))
  {
    var response := fetch(targetUrl);
    if response.NetworkError? {
      return Response(500, ErrorMessage(InternalErrorMessage));
    }
    if !response.ok {
      return Response(502, ErrorMessage(FetchFailedMessage(response.status, response.statusText)));
    }
    resp := Deliver(parse, load, targetUrl, response);
  }

  /** The 200 branch of `POST`: extract the page's metadata, normalise the final URL and evaluate the two. */
  method Deliver(parse: Parser, load: Loader, targetUrl: string, response: FetchResult) returns (resp: Response)
    requires response.Fetched? && response.ok
    ensures resp == AfterFetch(parse, load, targetUrl, response)
    ensures resp.status == 200
  {
    var html := response.html;
    var e := ExtractMeta(load(html));
    var normalizedUrl := NormalizeUrl(parse, if response.finalUrl != "" then response.finalUrl else targetUrl);
    var issues := Evaluation.EvaluateSeo(parse, normalizedUrl, e.meta, e.openGraph, e.twitter);
    resp := Response(200, Report(AnalysisResult(targetUrl, normalizedUrl, Utf16Length(html),
                                                e.meta, e.openGraph, e.twitter, issues)));
  }

  /**
   * The SSRF guard: a request whose URL is missing or rejected by the
   * sanitiser is answered with 400 whatever the network would do, so the
   * network is never consulted for it.
   */
  lemma RejectedUrlIsNeverFetched(body: RequestBody, parse: Parser, f1: Fetcher, f2: Fetcher, load: Loader)
    requires body.Json?
    requires RequestedUrl(body) == "" || SanitizedUrl(parse, RequestedUrl(body)).Err?
    ensures Respond(body, parse, f1, load) == Respond(body, parse, f2, load)
    ensures Respond(body, parse, f1, load).status == 400
  {
  }

  /**
   * A 400 answer means exactly that the body had no usable URL or the
   * sanitiser refused it, and its message says which.
   */
  lemma BadRequestIff(body: RequestBody, parse: Parser, fetch: Fetcher, load: Loader)
    ensures var resp := Respond(body, parse, fetch, load);
      resp.status == 400 <==> body.Json? && (RequestedUrl(body) == "" || SanitizedUrl(parse, RequestedUrl(body)).Err?)
    ensures var resp := Respond(body, parse, fetch, load);
      body.Json? && RequestedUrl(body) == "" ==> resp.body == ErrorMessage(UrlRequiredMessage)
    ensures var resp := Respond(body, parse, fetch, load);
      (body.Json? && RequestedUrl(body) != "" && SanitizedUrl(parse, RequestedUrl(body)) == Err(UnsupportedProtocol)
       ==> resp.body == ErrorMessage(UnsupportedProtocolMessage))
    ensures var resp := Respond(body, parse, fetch, load);
      (body.Json? && RequestedUrl(body) != "" && SanitizedUrl(parse, RequestedUrl(body)) == Err(InvalidUrl)
       ==> resp.body == ErrorMessage(InvalidUrlMessage))
  {
  }

  /**
   * A 200 answer is the report of the page fetched from the re-parsed
   * sanitised URL: its URL is that target, its normalised URL is the
   * normalised final URL of the response (the target when the response has
   * none), its metadata is what the extractor finds in the fetched page, and
   * its issue list is the evaluation of that metadata against that URL. The
   * metadata is clean: absent or non-empty and trimmed, the charset absent
   * or non-empty.
   */
  lemma ReportIsEvaluation(body: RequestBody, parse: Parser, fetch: Fetcher, load: Loader)
    requires Respond(body, parse, fetch, load).status == 200
    ensures && body.Json? && RequestedUrl(body) != "" && SanitizedUrl(parse, RequestedUrl(body)).Ok?
            && parse(Serialize(SanitizedUrl(parse, RequestedUrl(body)).value)).Some?
    ensures var resp := Respond(body, parse, fetch, load);
      var target := Serialize(parse(Serialize(SanitizedUrl(parse, RequestedUrl(body)).value)).value);
      var response := fetch(target);
      && response.Fetched? && response.ok
      && resp.body.Report?
      && var r := resp.body.result;
      && r.url == target
      && r.normalizedUrl == NormalizeUrl(parse, if response.finalUrl != "" then response.finalUrl else target)
      && Extracted(r.meta, r.openGraph, r.twitter) == ExtractMeta(load(response.html))
      && r.issues == Evaluation.Evaluation(parse, r.normalizedUrl, r.meta, r.openGraph, r.twitter)
      && CleanMeta(Extracted(r.meta, r.openGraph, r.twitter))
      && (r.meta.charset.None? || r.meta.charset.value != "")
  {
    var u := SanitizedUrl(parse, RequestedUrl(body)).value;
    var target := Serialize(parse(Serialize(u)).value);
    assert Respond(body, parse, fetch, load) == AfterFetch(parse, load, target, fetch(target));
    FetchedReport(parse, load, target, fetch(target));
  }

  /**
   * A 200 after the fetch means the response arrived and was ok, and the
   * report is the evaluation of the page's extracted metadata against the
   * normalised final URL.
   */
  lemma FetchedReport(parse: Parser, load: Loader, targetUrl: string, response: FetchResult)
    requires AfterFetch(parse, load, targetUrl, response).status == 200
    ensures response.Fetched? && response.ok
    ensures var resp := AfterFetch(parse, load, targetUrl, response);
      && resp.body.Report?
      && var r := resp.body.result;
      && r.url == targetUrl
      && r.normalizedUrl == NormalizeUrl(parse, if response.finalUrl != "" then response.finalUrl else targetUrl)
      && Extracted(r.meta, r.openGraph, r.twitter) == ExtractMeta(load(response.html))
      && r.issues == Evaluation.Evaluation(parse, r.normalizedUrl, r.meta, r.openGraph, r.twitter)
      && CleanMeta(Extracted(r.meta, r.openGraph, r.twitter))
      && (r.meta.charset.None? || r.meta.charset.value != "")
  {
  }

  /** The report's title group is the one the page's cleaned title decides, and it leads the list. */
  lemma ReportStartsWithTitle(body: RequestBody, parse: Parser, fetch: Fetcher, load: Loader)
    requires Respond(body, parse, fetch, load).status == 200
    ensures var resp := Respond(body, parse, fetch, load);
      && resp.body.Report?
      && var r := resp.body.result;
      && |r.issues| >= 8 && |Evaluation.TitleIssues(r.meta.title)| == 1
      && r.issues[0] == Evaluation.TitleIssues(r.meta.title)[0]
  {
    ReportIsEvaluation(body, parse, fetch, load);
    var r := Respond(body, parse, fetch, load).body.result;
    Evaluation.EvaluationShape(parse, r.normalizedUrl, r.meta, r.openGraph, r.twitter);
    Evaluation.TitleWellFormed(r.meta.title);
  }
}
