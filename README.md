# Proforma-invoice order form, modelled in Dafny

This project models the order-capture core of a React client that generates
proforma invoices. The core is `src/App.tsx`. A user fills in one order: a
receiver, a PO number, tax rates, email fields and one to ten line items. The
client validates the order and posts it to a document service. The service
either returns a PDF to download or emails it.

The modules follow the parts of that file:

- `Text` (text.dfy): JavaScript's `trim()` with the ECMAScript whitespace set;
  the decimal rendering of numbers inside template literals; `includes`; and
  the trailing-slash strip `replace(/\/+$/, "")`.
- `Numeric` (numeric.dfy): the pattern `^\d+(\.\d+)?$`. `IsDecimal` states the
  language. `Matches` is a four-state automaton for `.test`.
  `MatchesIsDecimal` proves the two agree.
- `Order` (order.dfy): `LineItem`, `FormState`, the initial `emptyForm` and
  `maxItems`, and the functional updaters behind `addRow`, `removeRow`,
  `handleItemChange` and `handleFormChange`. Also the request payload.
- `Validator` (validation.dfy): `validate(requireEmail)`. `Validation` is the
  specification: the first failure in the fixed order, or nothing. The method
  `Validate` runs the two loops of `validate` (src/App.tsx:159-182) and is
  proved equal to it.
  `OrderIsValid` states field by field what a valid order is.
- `Submission` (submission.dfy): the API base URL, the endpoints, the 90 000 ms
  timeout and the download file name. Also `getErrorMessageFromResponse` and
  the banner an outcome leaves.
- `Session` (session.dfy): the class `OrderSession`. Its fields are the form,
  the items, the logo, `downloading`, `submitting`, `error` and `success`.
  Each delivery handler is split at its `await`:
  - `BeginDownload`/`BeginEmail`: clear the banners, validate, set the busy
    flag and return the request.
  - `FinishDownload`/`FinishEmail`: take the network outcome and run the
    `catch`/`finally` part.
  - `HandleDownload`/`HandleEmail`: the two halves in a row.

The network is a parameter. A request ends in an `Outcome`: `Ok`,
`HttpError(response)`, `Abort` (the timeout fired) or `Other(message)`.
Three more inputs come in as parameters: the page's host name, the configured
base URL and the clock (`Date.now()`).

Callers must meet a few UI conditions, stated as preconditions:
- A Remove button is rendered only while there is more than one row
  (src/App.tsx:494). `OrderSession.RemoveRow` therefore requires `|items| > 1`.
- Both action buttons are disabled while `downloading || submitting`
  (src/App.tsx:589, src/App.tsx:597). `BeginDownload` and `BeginEmail`
  therefore require that neither flag is set.

One thing follows from the proofs. `getErrorMessageFromResponse` never
returns an empty string (`ResponseErrorMessage`). So the fallbacks
`message || "Failed to generate PDF"` and `"Failed to generate / email PDF"`
(src/App.tsx:225, src/App.tsx:288) can never be used
(`ThrownMessageIsExtracted`). They are kept in the model.

`removeRow` has no guard of its own. The last row survives only because the
Remove button is rendered while `items.length > 1` (src/App.tsx:494).
`WithoutRow` accepts any index, and the guard is a precondition of
`OrderSession.RemoveRow`.

## Model

| member | source | states |
|---|---|---|
| Text.TrimStartShape | src/App.tsx:160 | `trim()`'s leading part keeps a suffix that starts with a non-whitespace character and drops only whitespace |
| Text.TrimEndShape | src/App.tsx:160 | `trim()`'s trailing part keeps a prefix that ends with a non-whitespace character and drops only whitespace |
| Text.BlankIffAllWhitespace | src/App.tsx:160 | `!s.trim()` holds exactly when every character of `s` is ECMAScript whitespace |
| Text.NatToString | src/App.tsx:174 | the rendering of a row number or status is a non-empty string of digits with no leading zero |
| Text.NatToStringRoundTrip | src/App.tsx:174 | reading the rendering back gives the number |
| Text.StripTrailingSlashes | src/App.tsx:65 | the normalised base URL is a prefix of the input; only `/` characters were removed; it does not end in `/` |
| Text.StripTrailingSlashesIdempotent | src/App.tsx:65 | normalising twice equals normalising once |
| Text.StripTrailingSlashesUnique | src/App.tsx:65 | any prefix followed only by slashes that does not itself end in `/` is the normalised URL |
| Numeric.MatchesIsDecimal | src/App.tsx:165-179 | the matcher accepts exactly "one or more digits, optionally `.` and one or more digits" |
| Order.WithFormField | src/App.tsx:118-123 | a header edit sets the named field and leaves every other field as it was |
| Order.WithItemValue | src/App.tsx:132 | the row spread sets the named field and leaves the row's other fields |
| Order.WithItemField | src/App.tsx:125-135 | an item edit keeps the length and every other row; in the edited row only the named field changes |
| Order.WithRowAdded | src/App.tsx:137-142 | adding is a no-op at 10 rows or more; otherwise one blank row is appended after the unchanged rows; the length never exceeds 10 from a valid start |
| Order.AddRowsLength | src/App.tsx:137-142 | after n presses of Add the length is min(length + n, 10) and the old rows are the prefix |
| Order.WithoutRow | src/App.tsx:144-146 | the index filter deletes exactly element i and keeps the rest in order; an out-of-range index changes nothing |
| Order.RemoveKeepsOneRow | src/App.tsx:494 | under the Remove button's guard the list loses one row and never becomes empty |
| Order.NumericItems | src/App.tsx:198-202 | the items map sends every row unchanged, as strings |
| Order.BuildPayload | src/App.tsx:204-209 | the payload carries the form, the rows unchanged, `piDate` equal to `poDate`, and the logo |
| Validator.RowError | src/App.tsx:172-181 | a row passes iff its particulars are non-blank and its rate and quantity are decimals; otherwise the message names the particulars, then the rate, then the quantity |
| Validator.FirstBlank | src/App.tsx:159-163 | the required-field loop stops at the first blank field in list order |
| Validator.FirstBadRow | src/App.tsx:171-182 | the row loop stops at the first failing row |
| Validator.HeaderChecksPass | src/App.tsx:149-167 | the header checks pass iff receiver name, phone and PO number (and the recipient when required) are non-blank and each tax rate is empty or a decimal |
| Validator.OrZeroMatches | src/App.tsx:165-167 | an empty tax rate is read as "0" and passes; any other tax rate must be a decimal |
| Validator.RowOkIsDecimal | src/App.tsx:173-181 | the row check is the decimal pattern, with an empty rate or quantity failing |
| Validator.ValidationNullIff | src/App.tsx:148-185 | `validate` returns null iff the required fields are non-blank, the tax rates are empty or decimal, there is at least one row, and every row passes |
| Validator.ValidationReportsFirstBadRow | src/App.tsx:171-182 | with a valid header, the message is the first failing row's, numbered from 1 |
| Validator.FirstBlankDecides | src/App.tsx:159-163 | a blank required field is reported before tax rates and rows are looked at |
| Validator.FirstBlankAppend | src/App.tsx:155-157 | appending a field to the required list keeps an earlier failure and adds at most the new field's |
| Validator.RequireEmailOnlyAdds | src/App.tsx:149-157 | `validate(true)` passing implies `validate(false)` passes; with a recipient filled in, the two agree |
| Validator.MissingRecipientBlocksEmail | src/App.tsx:155-161 | with the header filled and no recipient, the email check stops with `Field "toEmail" is required.` |
| Validator.Validate | src/App.tsx:148-185 | the two loops with early returns compute exactly `Validation` |
| Validator.EmptyFormNeedsReceiver | src/App.tsx:32-49 | the initial form with its one blank row is rejected for `receiverName` |
| Submission.ApiBaseUrl | src/App.tsx:56-65 | a local host uses the local server, otherwise the configured or default address; the result never ends in `/` |
| Submission.ResponseErrorMessage | src/App.tsx:81-94 | JSON bodies give `error`, else `message`, else `Request failed (status)`; a failed parse counts as neither; other bodies give their text, else the same fallback; the result is never empty |
| Submission.ThrownMessageIsExtracted | src/App.tsx:223-226 | the thrown error's message is the extracted message; the `|| "Failed to generate PDF"` fallback is dead |
| Submission.CaughtMessage | src/App.tsx:239-244 | an abort shows the timeout message; a failed response shows its extracted message; any other failure shows its message or "Unexpected error"; never empty |
| Submission.Settle | src/App.tsx:223-247 | after a request exactly one banner is set: the success text iff the outcome is ok, otherwise a non-empty error |
| Submission.ServiceErrorShownVerbatim | src/App.tsx:81-94 | a 500 with JSON `{"error":"pdf render failed"}` ends with exactly that error and no success |
| Submission.DownloadFileName | src/App.tsx:232 | `proforma-invoice-<stem>.pdf`, where the stem is the PO number when non-empty and the timestamp's digits otherwise |
| Submission.ValidatedDownloadUsesPoNumber | src/App.tsx:190-232 | after validation passes, the file is always named after the PO number |
| Session.OrderSession.constructor | src/App.tsx:109-116 | the session starts with `emptyForm`, one blank row, no banners and neither busy flag |
| Session.OrderSession.LogoLoaded | src/App.tsx:101-103 | the loaded logo becomes the payload's data URL |
| Session.OrderSession.HandleFormChange | src/App.tsx:118-123 | the form becomes the updated form; the row bounds hold |
| Session.OrderSession.HandleItemChange | src/App.tsx:125-135 | the items become the updated list; the row bounds hold |
| Session.OrderSession.AddRow | src/App.tsx:137-142 | the items become `WithRowAdded` of the old items; the length stays at most 10 |
| Session.OrderSession.RemoveRow | src/App.tsx:144-146 | the items lose exactly the chosen row; at least one row remains |
| Session.OrderSession.BeginDownload | src/App.tsx:187-221 | banners cleared; a validation failure sets the error, leaves the busy flag clear and sends nothing; otherwise the busy flag is set and the POST to `/api/generate-pdf` carries the payload and the 90 s timeout |
| Session.OrderSession.FinishDownload | src/App.tsx:222-247 | the banners become `Settle` of the outcome; the file is saved only on success; the busy flag ends clear |
| Session.OrderSession.HandleDownload | src/App.tsx:187-248 | ends with no busy flag and exactly one banner; validation failures send nothing; a successful download is named after the PO number |
| Session.OrderSession.BeginEmail | src/App.tsx:250-284 | as BeginDownload, with the recipient required and the `/api/generate-and-email-pdf` endpoint |
| Session.OrderSession.FinishEmail | src/App.tsx:286-300 | the banners become `Settle` of the outcome; the busy flag ends clear |
| Session.OrderSession.HandleEmail | src/App.tsx:250-301 | ends with no busy flag and exactly one banner; validation failures send nothing |

## Left out

- Line amounts are not modelled. The display computes `parseFloat(...) || 0`, `rate * qty` and `toFixed(2)` (src/App.tsx:441-443, src/App.tsx:491). That is floating-point arithmetic with JavaScript prefix parsing.
- `fetchWithTimeout`, `AbortController`, `setTimeout`/`clearTimeout`, `fetch` and the body readers are not modelled. A request's end is the `Outcome` parameter. A response is an abstract record of its content type, status, parsed JSON and text.
- The blob, object URL and anchor click are not modelled. A successful download is the returned file name.
- `JSON.stringify` is not modelled. The payload is the `Payload` record.
- Loading the logo with `fetch` and `FileReader` is asynchronous I/O. Only its result is recorded (`LogoLoaded`). A failure leaves the logo null, which is the initial state.
- `window.location.hostname`, `import.meta.env.VITE_API_BASE_URL` and `Date.now()` are parameters. An unset configured URL is passed as "".
- Submission.ResponseErrorMessage: the JSON `error` and `message` properties are modelled as strings only. `getErrorMessageFromResponse` returns any truthy non-string value (a number or an object) as it is.
- Session.OrderSession.FinishEmail: `err.message` (without `?.`) throws again when the rejection value is null. An `Other` outcome always carries a string, so that case is not modelled.
- Session.OrderSession.HandleItemChange: requires an index in range. Only rendered rows call it. An out-of-range index would make a sparse array.
- Session.OrderSession.HandleDownload and Session.OrderSession.HandleEmail do not allow edits between the request and its outcome. `BeginDownload`/`FinishDownload` and `BeginEmail`/`FinishEmail` allow them. The request carries the form snapshot that names the file.
- Rendering, CSS, the inputs' `maxLength` attributes and the button markup are left out. The Remove-button guard and the disabled condition are kept as preconditions.
- `src/Login.tsx` (a fixed credential comparison), `src/Router.tsx` (route wiring) and `src/main.tsx` (React bootstrap) are not part of this model.
- HTTP statuses are natural numbers, with no upper bound.
