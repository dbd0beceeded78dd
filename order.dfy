/**
 * The order record: header fields, tax rates, email fields and the ordered
 * line items, with the updaters the form applies on every edit and the
 * payload sent to the document service.
 */
module Order {
  import opened Wrappers
  import opened Text

  datatype LineItem = LineItem(particulars: string, hsn: string, dcNo: string, rate: string, quantity: string)

  /** The keys of a line item that an input can change. */
  datatype ItemField = Particulars | Hsn | DcNo | Rate | Quantity

  datatype FormState = FormState(
    receiverName: string,
    receiverAddress: string,
    receiverPhone: string,
    receiverEmail: string,
    receiverGstin: string,
    poNumber: string,
    poDate: string,
    transportMode: string,
    deliveryDate: string,
    destination: string,
    cgstRate: string,
    sgstRate: string,
    igstRate: string,
    toEmail: string,
    emailSubject: string,
    emailBody: string)

  /** The keys of the form state; an input's `name` attribute is one of them. */
  datatype FormField =
    | ReceiverName | ReceiverAddress | ReceiverPhone | ReceiverEmail | ReceiverGstin
    | PoNumber | PoDate | TransportMode | DeliveryDate | Destination
    | CgstRate | SgstRate | IgstRate
    | ToEmail | EmailSubject | EmailBody

  /** The template allows at most this many rows. */
  const MaxItems: nat := 10

  const DefaultSubject: string := "Purchase Order \U{2013} SRI CHAKRI TRADERS"

  const BlankItem: LineItem := LineItem("", "", "", "", "")

  /** The form at session start: everything empty but the tax rates ("0") and the subject. */
  const EmptyForm: FormState := FormState(
    "", "", "", "", "", "", "", "", "", "",
    "0", "0", "0",
    "", DefaultSubject, "")

  /** The items at session start: one blank row. */
  const InitialItems: seq<LineItem> := [BlankItem]

  /** The property name, as it appears in messages. */
  function FieldName(f: FormField): string {
    match f
    case ReceiverName => "receiverName"
    case ReceiverAddress => "receiverAddress"
    case ReceiverPhone => "receiverPhone"
    case ReceiverEmail => "receiverEmail"
    case ReceiverGstin => "receiverGstin"
    case PoNumber => "poNumber"
    case PoDate => "poDate"
    case TransportMode => "transportMode"
    case DeliveryDate => "deliveryDate"
    case Destination => "destination"
    case CgstRate => "cgstRate"
    case SgstRate => "sgstRate"
    case IgstRate => "igstRate"
    case ToEmail => "toEmail"
    case EmailSubject => "emailSubject"
    case EmailBody => "emailBody"
  }

  /** `form[f]` */
  function FormGet(form: FormState, f: FormField): string {
    match f
    case ReceiverName => form.receiverName
    case ReceiverAddress => form.receiverAddress
    case ReceiverPhone => form.receiverPhone
    case ReceiverEmail => form.receiverEmail
    case ReceiverGstin => form.receiverGstin
    case PoNumber => form.poNumber
    case PoDate => form.poDate
    case TransportMode => form.transportMode
    case DeliveryDate => form.deliveryDate
    case Destination => form.destination
    case CgstRate => form.cgstRate
    case SgstRate => form.sgstRate
    case IgstRate => form.igstRate
    case ToEmail => form.toEmail
    case EmailSubject => form.emailSubject
    case EmailBody => form.emailBody
  }

  /** `{ ...form, [f]: value }`: the named field takes the value, every other field keeps its own. */
  function WithFormField(form: FormState, f: FormField, value: string): (r: FormState)
    ensures FormGet(r, f) == value
    ensures forall g :: g != f ==> FormGet(r, g) == FormGet(form, g)
  {
    match f
    case ReceiverName => form.(receiverName := value)
    case ReceiverAddress => form.(receiverAddress := value)
    case ReceiverPhone => form.(receiverPhone := value)
    case ReceiverEmail => form.(receiverEmail := value)
    case ReceiverGstin => form.(receiverGstin := value)
    case PoNumber => form.(poNumber := value)
    case PoDate => form.(poDate := value)
    case TransportMode => form.(transportMode := value)
    case DeliveryDate => form.(deliveryDate := value)
    case Destination => form.(destination := value)
    case CgstRate => form.(cgstRate := value)
    case SgstRate => form.(sgstRate := value)
    case IgstRate => form.(igstRate := value)
    case ToEmail => form.(toEmail := value)
    case EmailSubject => form.(emailSubject := value)
    case EmailBody => form.(emailBody := value)
  }

  /** `row[f]` */
  function ItemGet(row: LineItem, f: ItemField): string {
    match f
    case Particulars => row.particulars
    case Hsn => row.hsn
    case DcNo => row.dcNo
    case Rate => row.rate
    case Quantity => row.quantity
  }

  /** `{ ...row, [f]: value }` */
  function WithItemValue(row: LineItem, f: ItemField, value: string): (r: LineItem)
    ensures ItemGet(r, f) == value
    ensures forall g :: g != f ==> ItemGet(r, g) == ItemGet(row, g)
  {
    match f
    case Particulars => row.(particulars := value)
    case Hsn => row.(hsn := value)
    case DcNo => row.(dcNo := value)
    case Rate => row.(rate := value)
    case Quantity => row.(quantity := value)
  }

  /**
   * `handleItemChange`: a copy of the list whose row `index` has field `f`
   * set to `value`; the length, the other rows and the other fields of that
   * row are unchanged. Only rendered rows call it, so `index` is in range.
   */
  function WithItemField(items: seq<LineItem>, index: nat, f: ItemField, value: string): (r: seq<LineItem>)
    requires index < |items|
    ensures |r| == |items|
    ensures forall j :: 0 <= j < |r| && j != index ==> r[j] == items[j]
    ensures ItemGet(r[index], f) == value
    ensures forall g :: g != f ==> ItemGet(r[index], g) == ItemGet(items[index], g)
  {
    items[index := WithItemValue(items[index], f, value)]
  }

  /**
   * `addRow`: once the list holds MaxItems rows it is returned as it is;
   * otherwise one blank row is appended after the unchanged rows.
   */
  function WithRowAdded(items: seq<LineItem>): (r: seq<LineItem>)
    ensures |items| >= MaxItems ==> r == items
    ensures |items| < MaxItems ==> |r| == |items| + 1 && r[..|items|] == items && r[|items|] == BlankItem
    ensures |items| <= MaxItems ==> |r| <= MaxItems
  {
    if |items| >= MaxItems then items else items + [BlankItem]
  }

  /** `addRow` pressed `n` times. */
  function AddRows(items: seq<LineItem>, n: nat): seq<LineItem>
    decreases n
  {
    if n == 0 then items else AddRows(WithRowAdded(items), n - 1)
  }

  /** However often Add is pressed, the list grows one row at a time up to MaxItems and stops there. */
  lemma {:induction false} AddRowsLength(items: seq<LineItem>, n: nat)
    requires |items| <= MaxItems
    ensures |AddRows(items, n)| == if |items| + n <= MaxItems then |items| + n else MaxItems
    ensures AddRows(items, n)[..|items|] == items
    decreases n
  {
    if n > 0 {
      var next := WithRowAdded(items);
      AddRowsLength(next, n - 1);
      assert AddRows(items, n)[..|items|] == AddRows(next, n - 1)[..|next|][..|items|];
    }
  }

  /** `items.filter((_, i) => i !== index)`, walking the list from the back. */
  function WithoutRow(items: seq<LineItem>, index: int): (r: seq<LineItem>)
    ensures 0 <= index < |items| ==> r == items[..index] + items[index + 1..]
    ensures !(0 <= index < |items|) ==> r == items
  {
    if items == [] then []
    else
      var last := |items| - 1;
      var front := WithoutRow(items[..last], index);
      if last == index then front else front + [items[last]]
  }

  /** Under the Remove button's guard (more than one row) the list loses exactly one row and never empties. */
  lemma RemoveKeepsOneRow(items: seq<LineItem>, index: int)
    requires 1 < |items| <= MaxItems && 0 <= index < |items|
    ensures 1 <= |WithoutRow(items, index)| == |items| - 1 < MaxItems
  {
  }

  /** The request body: every form field, the rows as strings, `piDate` copied from `poDate`, and the logo. */
  datatype Payload = Payload(form: FormState, items: seq<LineItem>, piDate: string, logoDataUrl: Option<string>)

  /** `items.map((it) => ({ ...it, rate: it.rate, quantity: it.quantity }))`: each row copied field by field. */
  function NumericItems(items: seq<LineItem>): (r: seq<LineItem>)
    ensures r == items
  {
    if items == [] then []
    else
      var it := items[0];
      [LineItem(it.particulars, it.hsn, it.dcNo, it.rate, it.quantity)] + NumericItems(items[1..])
  }

  function BuildPayload(form: FormState, items: seq<LineItem>, logo: Option<string>): (p: Payload)
    ensures p.form == form && p.items == items && p.piDate == form.poDate && p.logoDataUrl == logo
  {
    Payload(form, NumericItems(items), form.poDate, logo)
  }
}
