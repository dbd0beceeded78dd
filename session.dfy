/**
 * The interactive session: the order being edited, the two busy flags and
 * the two banners. Each delivery handler is split at its `await`: `Begin…`
 * runs up to the request and returns it, `Finish…` takes the request's
 * outcome and runs the `catch`/`finally` part; `Handle…` is the two in a
 * row with nothing in between.
 */
module Session {
  import opened Wrappers
  import opened Order
  import opened Validator
  import opened Submission

  class OrderSession {
    const apiBase: string
    var logoDataUrl: Option<string>
    var form: FormState
    var items: seq<LineItem>
    var submitting: bool
    var downloading: bool
    var error: Option<string>
    var success: Option<string>

    /**
     * One to MaxItems rows; at most one request in flight; never both
     * banners; and while a request is in flight, no banner.
     */
    ghost predicate Valid()
      reads this
    {
      1 <= |items| <= MaxItems &&
      !(downloading && submitting) &&
      !(error.Some? && success.Some?) &&
      ((downloading || submitting) ==> error.None? && success.None?)
    }

    /** The session as the page first renders it. */
    constructor (hasWindow: bool, hostname: string, configuredBase: string)
      ensures Valid()
      ensures apiBase == ApiBaseUrl(hasWindow, hostname, configuredBase)
      ensures form == EmptyForm && items == InitialItems && logoDataUrl == None
      ensures !submitting && !downloading && error == None && success == None
    {
      apiBase := ApiBaseUrl(hasWindow, hostname, configuredBase);
      logoDataUrl := None;
      form := EmptyForm;
      items := InitialItems;
      submitting := false;
      downloading := false;
      error := None;
      success := None;
    }

    /** The logo finished loading as a data URL. */
    method LogoLoaded(dataUrl: string)
      requires Valid()
      modifies this`logoDataUrl
      ensures Valid() && logoDataUrl == Some(dataUrl)
    {
      logoDataUrl := Some(dataUrl);
    }

    /** `handleFormChange` */
    method HandleFormChange(f: FormField, value: string)
      requires Valid()
      modifies this`form
      ensures Valid() && form == WithFormField(old(form), f, value)
    {
      form := WithFormField(form, f, value);
    }

    /** `handleItemChange`, called only for a rendered row. */
    method HandleItemChange(index: nat, f: ItemField, value: string)
      requires Valid() && index < |items|
      modifies this`items
      ensures Valid() && items == WithItemField(old(items), index, f, value)
    {
      items := WithItemField(items, index, f, value);
    }

    /** `addRow` */
    method AddRow()
      requires Valid()
      modifies this`items
      ensures Valid() && items == WithRowAdded(old(items))
    {
      items := WithRowAdded(items);
    }

    /** `removeRow`, reachable only from a Remove button, which is shown only while there is more than one row. */
    method RemoveRow(index: nat)
      requires Valid() && 1 < |items| && index < |items|
      modifies this`items
      ensures Valid() && items == WithoutRow(old(items), index)
      ensures |items| == |old(items)| - 1
    {
      items := WithoutRow(items, index);
    }

    /** `handleDownload` up to the request: clear the banners, validate, then set the busy flag and build the request. */
    method BeginDownload() returns (request: Option<Request>)
      requires Valid() && !downloading && !submitting
      modifies this`error, this`success, this`downloading
      ensures Valid() && !submitting
      ensures Validation(form, items, false).Some? ==>
                request.None? && error == Validation(form, items, false) && success.None? && !downloading
      ensures Validation(form, items, false).None? ==>
                request == Some(Request(apiBase + GeneratePath, BuildPayload(form, items, logoDataUrl), TimeoutMs)) &&
                error.None? && success.None? && downloading
    {
      error := None;
      success := None;
      var validationError := Validate(form, items, false);
      if validationError.Some? {
        error := validationError;
        return None;
      }
      downloading := true;
      var payload := BuildPayload(form, items, logoDataUrl);
      request := Some(Request(apiBase + GeneratePath, payload, TimeoutMs));
    }

    /** `handleDownload` after the request: save the file or show the caught message, then clear the busy flag. */
    method FinishDownload(request: Request, outcome: Outcome, now: nat) returns (savedAs: Option<string>)
      requires Valid() && downloading
      modifies this`error, this`success, this`downloading
      ensures Valid() && !downloading && !submitting
      ensures Banners(error, success) == Settle(outcome, DownloadSuccess, DownloadFailure)
      ensures savedAs == if outcome.Ok? then Some(DownloadFileName(request.payload.form.poNumber, now)) else None
    {
      if outcome.Ok? {
        savedAs := Some(DownloadFileName(request.payload.form.poNumber, now));
        success := Some(DownloadSuccess);
      } else {
        savedAs := None;
        error := Some(CaughtMessage(outcome, DownloadFailure));
      }
      downloading := false;
    }

    /** `handleDownload`, with the request ending in `outcome` and the clock reading `now`. */
    method HandleDownload(outcome: Outcome, now: nat) returns (request: Option<Request>, savedAs: Option<string>)
      requires Valid() && !downloading && !submitting
      modifies this`error, this`success, this`downloading
      ensures Valid() && !downloading && !submitting
      ensures error.Some? != success.Some?
      ensures Validation(form, items, false).Some? ==>
                request.None? && savedAs.None? && error == Validation(form, items, false) && success.None?
      ensures Validation(form, items, false).None? ==>
                request == Some(Request(apiBase + GeneratePath, BuildPayload(form, items, logoDataUrl), TimeoutMs)) &&
                Banners(error, success) == Settle(outcome, DownloadSuccess, DownloadFailure) &&
                savedAs == if outcome.Ok? then Some(FileNamePrefix + form.poNumber + FileNameSuffix) else None
    {
      request := BeginDownload();
      savedAs := None;
      if request.Some? {
        savedAs := FinishDownload(request.value, outcome, now);
        ValidatedDownloadUsesPoNumber(form, items, now);
      }
    }

    /** `handleEmail` up to the request: as BeginDownload, with the recipient required and the email endpoint. */
    method BeginEmail() returns (request: Option<Request>)
      requires Valid() && !downloading && !submitting
      modifies this`error, this`success, this`submitting
      ensures Valid() && !downloading
      ensures Validation(form, items, true).Some? ==>
                request.None? && error == Validation(form, items, true) && success.None? && !submitting
      ensures Validation(form, items, true).None? ==>
                request == Some(Request(apiBase + GenerateAndEmailPath, BuildPayload(form, items, logoDataUrl), TimeoutMs)) &&
                error.None? && success.None? && submitting
    {
      error := None;
      success := None;
      var validationError := Validate(form, items, true);
      if validationError.Some? {
        error := validationError;
        return None;
      }
      submitting := true;
      var payload := BuildPayload(form, items, logoDataUrl);
      request := Some(Request(apiBase + GenerateAndEmailPath, payload, TimeoutMs));
    }

    /** `handleEmail` after the request: confirm or show the caught message, then clear the busy flag. */
    method FinishEmail(outcome: Outcome)
      requires Valid() && submitting
      modifies this`error, this`success, this`submitting
      ensures Valid() && !downloading && !submitting
      ensures Banners(error, success) == Settle(outcome, EmailSuccess, EmailFailure)
    {
      if outcome.Ok? {
        success := Some(EmailSuccess);
      } else {
        error := Some(CaughtMessage(outcome, EmailFailure));
      }
      submitting := false;
    }

    /** `handleEmail`, with the request ending in `outcome`. */
    method HandleEmail(outcome: Outcome) returns (request: Option<Request>)
      requires Valid() && !downloading && !submitting
      modifies this`error, this`success, this`submitting
      ensures Valid() && !downloading && !submitting
      ensures error.Some? != success.Some?
      ensures Validation(form, items, true).Some? ==>
                request.None? && error == Validation(form, items, true) && success.None?
      ensures Validation(form, items, true).None? ==>
                request == Some(Request(apiBase + GenerateAndEmailPath, BuildPayload(form, items, logoDataUrl), TimeoutMs)) &&
                Banners(error, success) == Settle(outcome, EmailSuccess, EmailFailure)
    {
      request := BeginEmail();
      if request.Some? {
        FinishEmail(outcome);
      }
    }
  }
}
