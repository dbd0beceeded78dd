/**
 * What the client sends and how it reads the answer: the API base URL, the
 * two endpoints, the download file name, the message extracted from a
 * failed response, and the banner an outcome leaves behind. The network
 * itself is abstract: a call ends in one `Outcome`.
 */
module Submission {
  import opened Wrappers
  import opened Text
  import opened Order
  import opened Validator

  const LocalApiBase: string := "http://localhost:4000"
  const DefaultApiBase: string := "https://pi-generator-server-05-1.onrender.com"
  const GeneratePath: string := "/api/generate-pdf"
  const GenerateAndEmailPath: string := "/api/generate-and-email-pdf"
  /** The request is aborted after this many milliseconds. */
  const TimeoutMs: nat := 90000

  const TimeoutMessage: string := "Request timed out. Render may be waking up. Please try again."
  const UnexpectedMessage: string := "Unexpected error"
  const DownloadSuccess: string := "PDF generated and downloaded successfully."
  const EmailSuccess: string := "PDF generated and emailed successfully."
  const DownloadFailure: string := "Failed to generate PDF"
  const EmailFailure: string := "Failed to generate / email PDF"

  /** `typeof window !== "undefined"` and the page's host name. */
  predicate IsLocalhost(hasWindow: bool, hostname: string) {
    hasWindow && (hostname == "localhost" || hostname == "127.0.0.1")
  }

  /**
   * `API_BASE_URL`: the local server on a local host, otherwise the
   * configured address (`configured` is "" when unset) or the default one,
   * with every trailing slash removed.
   */
  function ApiBaseUrl(hasWindow: bool, hostname: string, configured: string): (r: string)
    ensures !EndsWithSlash(r)
    ensures IsLocalhost(hasWindow, hostname) ==> r == LocalApiBase
    ensures !IsLocalhost(hasWindow, hostname) && configured == "" ==> r == DefaultApiBase
    ensures !IsLocalhost(hasWindow, hostname) && configured != "" ==>
              r == StripTrailingSlashes(configured) && r == configured[..|r|]
  {
    var chosen := if IsLocalhost(hasWindow, hostname) then LocalApiBase
                  else if configured != "" then configured
                  else DefaultApiBase;
    assert !EndsWithSlash(LocalApiBase) && !EndsWithSlash(DefaultApiBase);
    StripTrailingSlashes(chosen)
  }

  /** The abstract view of a failed `Response`. */
  datatype Response = Response(
    contentType: Option<string>,   // `resp.headers.get("content-type")`
    status: nat,
    json: Option<JsonBody>,        // `resp.json()`, None when it rejects
    text: Option<string>)          // `resp.text()`, None when it rejects

  /** The two properties read from a JSON error body; "" stands for absent or empty. */
  datatype JsonBody = JsonBody(error: string, message: string)

  function RequestFailed(status: nat): string {
    "Request failed (" + NatToString(status) + ")"
  }

  predicate IsJson(resp: Response) {
    Contains(if resp.contentType.Some? then resp.contentType.value else "", "application/json")
  }

  /** `data?.error` and `data?.message`, with a body that failed to parse read as `{}`. */
  function JsonError(resp: Response): string {
    if resp.json.Some? then resp.json.value.error else ""
  }

  function JsonMessage(resp: Response): string {
    if resp.json.Some? then resp.json.value.message else ""
  }

  function BodyText(resp: Response): string {
    if resp.text.Some? then resp.text.value else ""
  }

  /**
   * `getErrorMessageFromResponse`: for a JSON body the `error` property,
   * else `message`, else the status line; for any other body its text, else
   * the status line. The result is never empty.
   */
  function ResponseErrorMessage(resp: Response): (m: string)
    ensures m != ""
    ensures IsJson(resp) && JsonError(resp) != "" ==> m == JsonError(resp)
    ensures IsJson(resp) && JsonError(resp) == "" && JsonMessage(resp) != "" ==> m == JsonMessage(resp)
    ensures IsJson(resp) && JsonError(resp) == "" && JsonMessage(resp) == "" ==> m == RequestFailed(resp.status)
    ensures !IsJson(resp) && BodyText(resp) != "" ==> m == BodyText(resp)
    ensures !IsJson(resp) && BodyText(resp) == "" ==> m == RequestFailed(resp.status)
  {
    if IsJson(resp) then
      if JsonError(resp) != "" then JsonError(resp)
      else if JsonMessage(resp) != "" then JsonMessage(resp)
      else RequestFailed(resp.status)
    else if BodyText(resp) != "" then BodyText(resp)
    else RequestFailed(resp.status)
  }

  /** How a request ended: an ok response, a failed one, the timeout's abort, or any other exception. */
  datatype Outcome = Ok | HttpError(response: Response) | Abort | Other(message: string)

  /** The message of the `Error` thrown for a failed response: `message || fallback`. */
  function ThrownMessage(resp: Response, fallback: string): string {
    var m := ResponseErrorMessage(resp);
    if m != "" then m else fallback
  }

  /** The error banner the `catch` block shows for a failed outcome. */
  function CaughtMessage(outcome: Outcome, fallback: string): (m: string)
    requires !outcome.Ok?
    ensures m != ""
    ensures outcome.Abort? ==> m == TimeoutMessage
    ensures outcome.HttpError? ==> m == ResponseErrorMessage(outcome.response)
    ensures outcome.Other? && outcome.message != "" ==> m == outcome.message
    ensures outcome.Other? && outcome.message == "" ==> m == UnexpectedMessage
  {
    match outcome
    case Abort => TimeoutMessage
    case HttpError(resp) =>
      var thrown := ThrownMessage(resp, fallback);
      if thrown != "" then thrown else UnexpectedMessage
    case Other(message) => if message != "" then message else UnexpectedMessage
  }

  /** The two banners of the session. */
  datatype Banners = Banners(error: Option<string>, success: Option<string>)

  /**
   * The banners once a request has ended: the success text for an ok
   * response, else the caught message; exactly one of the two is shown.
   */
  function Settle(outcome: Outcome, successText: string, fallback: string): (b: Banners)
    ensures b.success.Some? <==> outcome.Ok?
    ensures b.error.Some? <==> !outcome.Ok?
    ensures b.success.Some? ==> b.success.value == successText
    ensures b.error.Some? ==> b.error.value != ""
    ensures outcome.Abort? ==> b.error == Some(TimeoutMessage)
    ensures outcome.HttpError? ==> b.error == Some(ResponseErrorMessage(outcome.response))
  {
    if outcome.Ok? then Banners(None, Some(successText))
    else Banners(Some(CaughtMessage(outcome, fallback)), None)
  }

  /** A POST of the payload to `url`, aborted after `timeoutMs`. */
  datatype Request = Request(url: string, payload: Payload, timeoutMs: nat)

  const FileNamePrefix: string := "proforma-invoice-"
  const FileNameSuffix: string := ".pdf"

  /** `proforma-invoice-${poNumber || Date.now()}.pdf`, the clock passed in as `now`. */
  function DownloadFileName(poNumber: string, now: nat): (name: string)
    ensures |name| > |FileNamePrefix| + |FileNameSuffix|
    ensures name[..|FileNamePrefix|] == FileNamePrefix
    ensures name[|name| - |FileNameSuffix|..] == FileNameSuffix
    ensures poNumber != "" ==> name[|FileNamePrefix|..|name| - |FileNameSuffix|] == poNumber
    ensures poNumber == "" ==> name[|FileNamePrefix|..|name| - |FileNameSuffix|] == NatToString(now)
  {
    var stem := if poNumber != "" then poNumber else NatToString(now);
    var name := FileNamePrefix + stem + FileNameSuffix;
    assert name[..|FileNamePrefix|] == FileNamePrefix;
    assert name[|FileNamePrefix|..|name| - |FileNameSuffix|] == stem;
    name
  }

  /** A download that passed validation names the file after the PO number, never after the clock. */
  lemma ValidatedDownloadUsesPoNumber(form: FormState, items: seq<LineItem>, now: nat)
    requires Validation(form, items, false).None?
    ensures DownloadFileName(form.poNumber, now) == FileNamePrefix + form.poNumber + FileNameSuffix
  {
    ValidationNullIff(form, items, false);
    var name := DownloadFileName(form.poNumber, now);
    assert name == name[..|FileNamePrefix|] + name[|FileNamePrefix|..|name| - |FileNameSuffix|] + name[|name| - |FileNameSuffix|..];
  }

  /** The failed-response fallbacks `|| "Failed to generate PDF"` and its email twin are never used. */
  lemma ThrownMessageIsExtracted(resp: Response, fallback: string)
    ensures ThrownMessage(resp, fallback) == ResponseErrorMessage(resp)
  {
  }

  /** A 500 answer with the JSON body `{"error":"pdf render failed"}` ends the download with exactly that message. */
  lemma ServiceErrorShownVerbatim()
    ensures var resp := Response(Some("application/json; charset=utf-8"), 500, Some(JsonBody("pdf render failed", "")), None);
      Settle(HttpError(resp), DownloadSuccess, DownloadFailure) == Banners(Some("pdf render failed"), None)
  {
    var ct := "application/json; charset=utf-8";
    assert IsInfixAt(ct, "application/json", 0);
  }
}
