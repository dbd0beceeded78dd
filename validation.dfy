/**
 * `validate(requireEmail)`: a short-circuiting check of the order that
 * returns the first problem's message, or nothing when the order may be
 * sent. `Validation` states the result; the method `Validate` computes it
 * with the two loops of `validate`.
 */
module Validator {
  import opened Wrappers
  import opened Text
  import opened Numeric
  import opened Order

  const InvalidCgst: string := "Invalid CGST value."
  const InvalidSgst: string := "Invalid SGST value."
  const InvalidIgst: string := "Invalid IGST value."
  const NoItems: string := "At least one line item is required."

  /** Receiver name, phone and PO number, then the recipient when the email is required. */
  function RequiredFields(requireEmail: bool): seq<FormField> {
    [ReceiverName, ReceiverPhone, PoNumber] + (if requireEmail then [ToEmail] else [])
  }

  function RequiredMessage(f: FormField): string {
    "Field \"" + FieldName(f) + "\" is required."
  }

  /** `value || "0"`: an empty tax rate is read as zero. */
  function OrZero(value: string): string {
    if value == "" then "0" else value
  }

  /** `Row <number>: <problem>` with a 1-based row number. */
  function RowMessage(number: nat, problem: string): string {
    "Row " + NatToString(number) + ": " + problem
  }

  predicate RowOk(row: LineItem) {
    !IsBlank(row.particulars) && Matches(row.rate) && Matches(row.quantity)
  }

  /** The message for one row, checking particulars, then rate, then quantity. */
  function RowError(row: LineItem, number: nat): (r: Option<string>)
    ensures r.None? <==> !IsBlank(row.particulars) && IsDecimal(row.rate) && IsDecimal(row.quantity)
    ensures IsBlank(row.particulars) ==> r == Some(RowMessage(number, "particulars is required."))
    ensures !IsBlank(row.particulars) && !IsDecimal(row.rate) ==> r == Some(RowMessage(number, "rate must be numeric."))
    ensures !IsBlank(row.particulars) && IsDecimal(row.rate) && !IsDecimal(row.quantity) ==>
      r == Some(RowMessage(number, "quantity must be numeric."))
  {
    MatchesIsDecimal(row.rate);
    MatchesIsDecimal(row.quantity);
    if IsBlank(row.particulars) then Some(RowMessage(number, "particulars is required."))
    else if !Matches(row.rate) then Some(RowMessage(number, "rate must be numeric."))
    else if !Matches(row.quantity) then Some(RowMessage(number, "quantity must be numeric."))
    else None
  }

  /** The position of the first blank field among `fields`. */
  function FirstBlank(form: FormState, fields: seq<FormField>): (r: Option<nat>)
    ensures r.None? ==> forall j :: 0 <= j < |fields| ==> !IsBlank(FormGet(form, fields[j]))
    ensures r.Some? ==> r.value < |fields| && IsBlank(FormGet(form, fields[r.value])) &&
                        (forall j :: 0 <= j < r.value ==> !IsBlank(FormGet(form, fields[j])))
  {
    if fields == [] then None
    else if IsBlank(FormGet(form, fields[0])) then Some(0)
    else match FirstBlank(form, fields[1..])
      case None => None
      case Some(k) => Some(k + 1)
  }

  /** The position of the first row that fails its checks. */
  function FirstBadRow(items: seq<LineItem>): (r: Option<nat>)
    ensures r.None? ==> forall j :: 0 <= j < |items| ==> RowOk(items[j])
    ensures r.Some? ==> r.value < |items| && !RowOk(items[r.value]) &&
                        (forall j :: 0 <= j < r.value ==> RowOk(items[j]))
  {
    if items == [] then None
    else if !RowOk(items[0]) then Some(0)
    else match FirstBadRow(items[1..])
      case None => None
      case Some(k) => Some(k + 1)
  }

  /** What `validate` returns: the first failure in the fixed order, or None. */
  function Validation(form: FormState, items: seq<LineItem>, requireEmail: bool): Option<string> {
    var fields := RequiredFields(requireEmail);
    match FirstBlank(form, fields)
    case Some(k) => Some(RequiredMessage(fields[k]))
    case None =>
      if !Matches(OrZero(form.cgstRate)) then Some(InvalidCgst)
      else if !Matches(OrZero(form.sgstRate)) then Some(InvalidSgst)
      else if !Matches(OrZero(form.igstRate)) then Some(InvalidIgst)
      else if |items| == 0 then Some(NoItems)
      else match FirstBadRow(items)
        case Some(k) => RowError(items[k], k + 1)
        case None => None
  }

  /** A tax rate passes when it is empty or a decimal. */
  predicate IsTaxRate(value: string) {
    value == "" || IsDecimal(value)
  }

  /** The header part of a valid order: the required fields are filled and the tax rates are numbers. */
  predicate HeaderIsValid(form: FormState, requireEmail: bool) {
    !IsBlank(form.receiverName) && !IsBlank(form.receiverPhone) && !IsBlank(form.poNumber) &&
    (requireEmail ==> !IsBlank(form.toEmail)) &&
    IsTaxRate(form.cgstRate) && IsTaxRate(form.sgstRate) && IsTaxRate(form.igstRate)
  }

  /** Everything `validate` demands, stated field by field. */
  predicate OrderIsValid(form: FormState, items: seq<LineItem>, requireEmail: bool) {
    HeaderIsValid(form, requireEmail) &&
    |items| > 0 &&
    forall i :: 0 <= i < |items| ==>
      !IsBlank(items[i].particulars) && IsDecimal(items[i].rate) && IsDecimal(items[i].quantity)
  }

  lemma OrZeroMatches(value: string)
    ensures Matches(OrZero(value)) <==> IsTaxRate(value)
  {
    MatchesIsDecimal(OrZero(value));
  }

  lemma RowOkIsDecimal(row: LineItem)
    ensures RowOk(row) <==> !IsBlank(row.particulars) && IsDecimal(row.rate) && IsDecimal(row.quantity)
  {
    MatchesIsDecimal(row.rate);
    MatchesIsDecimal(row.quantity);
  }

  /** The header checks pass exactly when no required field is blank and every tax rate matches. */
  lemma HeaderChecksPass(form: FormState, requireEmail: bool)
    ensures HeaderIsValid(form, requireEmail) <==>
      FirstBlank(form, RequiredFields(requireEmail)).None? &&
      Matches(OrZero(form.cgstRate)) && Matches(OrZero(form.sgstRate)) && Matches(OrZero(form.igstRate))
  {
    var fields := RequiredFields(requireEmail);
    OrZeroMatches(form.cgstRate);
    OrZeroMatches(form.sgstRate);
    OrZeroMatches(form.igstRate);
    match FirstBlank(form, fields)
    case Some(k) =>
      assert FormGet(form, fields[k]) in [form.receiverName, form.receiverPhone, form.poNumber, form.toEmail];
    case None =>
      assert FormGet(form, fields[0]) == form.receiverName;
      assert FormGet(form, fields[1]) == form.receiverPhone;
      assert FormGet(form, fields[2]) == form.poNumber;
      if requireEmail {
        assert FormGet(form, fields[3]) == form.toEmail;
      }
  }

  /** `validate` returns null exactly when the order meets every rule. */
  lemma ValidationNullIff(form: FormState, items: seq<LineItem>, requireEmail: bool)
    ensures Validation(form, items, requireEmail).None? <==> OrderIsValid(form, items, requireEmail)
  {
    HeaderChecksPass(form, requireEmail);
    forall i | 0 <= i < |items| {
      RowOkIsDecimal(items[i]);
    }
    match FirstBadRow(items)
    case Some(k) =>
      RowOkIsDecimal(items[k]);
    case None =>
  }

  /** With the header valid, the message names the first failing row and, in it, the first failing check. */
  lemma ValidationReportsFirstBadRow(form: FormState, items: seq<LineItem>, requireEmail: bool, k: nat)
    requires HeaderIsValid(form, requireEmail)
    requires k < |items| && !RowOk(items[k])
    requires forall j :: 0 <= j < k ==> RowOk(items[j])
    ensures Validation(form, items, requireEmail) == RowError(items[k], k + 1)
  {
    HeaderChecksPass(form, requireEmail);
  }

  lemma {:induction false} FirstBlankAppend(form: FormState, fields: seq<FormField>, f: FormField)
    ensures FirstBlank(form, fields).Some? ==> FirstBlank(form, fields + [f]) == FirstBlank(form, fields)
    ensures FirstBlank(form, fields).None? && !IsBlank(FormGet(form, f)) ==> FirstBlank(form, fields + [f]).None?
    ensures FirstBlank(form, fields).None? && IsBlank(FormGet(form, f)) ==> FirstBlank(form, fields + [f]) == Some(|fields|)
  {
    if fields != [] {
      assert (fields + [f])[1..] == fields[1..] + [f];
      FirstBlankAppend(form, fields[1..], f);
    }
  }

  /**
   * Requiring the email only appends the recipient to the required fields:
   * every order the email check accepts, the download check accepts too, and
   * with a recipient filled in the two checks agree exactly.
   */
  lemma RequireEmailOnlyAdds(form: FormState, items: seq<LineItem>)
    ensures Validation(form, items, true).None? ==> Validation(form, items, false).None?
    ensures !IsBlank(form.toEmail) ==> Validation(form, items, true) == Validation(form, items, false)
    ensures Validation(form, items, false).Some? ==> Validation(form, items, true).Some?
  {
    FirstBlankAppend(form, RequiredFields(false), ToEmail);
    assert RequiredFields(true) == RequiredFields(false) + [ToEmail];
  }

  /** The first blank required field decides the message, before anything else is looked at. */
  lemma FirstBlankDecides(form: FormState, items: seq<LineItem>, requireEmail: bool, k: nat)
    requires FirstBlank(form, RequiredFields(requireEmail)) == Some(k)
    ensures Validation(form, items, requireEmail) == Some(RequiredMessage(RequiredFields(requireEmail)[k]))
  {
  }

  /** Pressing the email button with the header filled but no recipient stops at the recipient field. */
  lemma MissingRecipientBlocksEmail(form: FormState, items: seq<LineItem>)
    requires !IsBlank(form.receiverName) && !IsBlank(form.receiverPhone) && !IsBlank(form.poNumber)
    requires IsBlank(form.toEmail)
    ensures Validation(form, items, true) == Some("Field \"toEmail\" is required.")
  {
    assert RequiredMessage(ToEmail) == "Field \"toEmail\" is required.";
    var fields := RequiredFields(false);
    assert FirstBlank(form, fields).None? by {
      assert FormGet(form, fields[0]) == form.receiverName;
      assert FormGet(form, fields[1]) == form.receiverPhone;
      assert FormGet(form, fields[2]) == form.poNumber;
    }
    FirstBlankAppend(form, fields, ToEmail);
    assert RequiredFields(true) == fields + [ToEmail];
    FirstBlankDecides(form, items, true, 3);
    assert RequiredFields(true)[3] == ToEmail;
  }

  /** `validate(requireEmail)` */
  method Validate(form: FormState, items: seq<LineItem>, requireEmail: bool) returns (r: Option<string>)
    ensures r == Validation(form, items, requireEmail)
  {
    var fields := [ReceiverName, ReceiverPhone, PoNumber];
    if requireEmail {
      fields := fields + [ToEmail];
    }
    assert fields == RequiredFields(requireEmail);
    var i := 0;
    while i < |fields|
      invariant 0 <= i <= |fields|
      invariant forall j :: 0 <= j < i ==> !IsBlank(FormGet(form, fields[j]))
    {
      if IsBlank(FormGet(form, fields[i])) {
        return Some(RequiredMessage(fields[i]));
      }
      i := i + 1;
    }
    if !Matches(OrZero(form.cgstRate)) {
      return Some(InvalidCgst);
    }
    if !Matches(OrZero(form.sgstRate)) {
      return Some(InvalidSgst);
    }
    if !Matches(OrZero(form.igstRate)) {
      return Some(InvalidIgst);
    }
    if |items| == 0 {
      return Some(NoItems);
    }
    var k := 0;
    while k < |items|
      invariant 0 <= k <= |items|
      invariant forall j :: 0 <= j < k ==> RowOk(items[j])
    {
      var row := items[k];
      if IsBlank(row.particulars) {
        return Some(RowMessage(k + 1, "particulars is required."));
      }
      if !Matches(row.rate) {
        return Some(RowMessage(k + 1, "rate must be numeric."));
      }
      if !Matches(row.quantity) {
        return Some(RowMessage(k + 1, "quantity must be numeric."));
      }
      k := k + 1;
    }
    return None;
  }

  /** A fresh form is rejected for its receiver name, whichever button is pressed. */
  lemma EmptyFormNeedsReceiver(requireEmail: bool)
    ensures Validation(EmptyForm, InitialItems, requireEmail) == Some("Field \"receiverName\" is required.")
  {
    assert IsBlank(FormGet(EmptyForm, ReceiverName));
    assert RequiredMessage(ReceiverName) == "Field \"receiverName\" is required.";
  }
}
