/**
 * The invoice serialiser of `lib/invoice.ts`: `generateInvoiceHTML` derives an
 * invoice view from an order (invoice number, payment status, the optional
 * e-mail and paid-on lines, one row per item, "Free" shipping) and renders it
 * as an HTML page; `downloadInvoice` contributes only its file name.
 * Currency, date and line-total formatting are inputs (`Formatters`).
 */
module Invoice {
  import opened Wrappers
  import opened JsText
  import opened JsNumber

  datatype ShippingAddress = ShippingAddress(
    fullName: string,
    streetAddress: string,
    city: string,
    postalCode: string,
    country: string)

  datatype OrderItem = OrderItem(name: string, qty: int, price: string)

  /** Dates are opaque timestamps; prices are the order's decimal strings. */
  datatype Order = Order(
    id: string,
    createdAt: int,
    itemsPrice: string,
    shippingPrice: string,
    taxPrice: string,
    totalPrice: string,
    isPaid: bool,
    paidAt: Option<int>,
    paymentMethod: string,
    shippingAddress: ShippingAddress,
    orderItems: seq<OrderItem>)

  datatype InvoiceUser = InvoiceUser(name: Option<string>, email: Option<string>)

  datatype InvoiceData = InvoiceData(order: Order, user: Option<InvoiceUser>)

  /** `formatCurrency`, `formatDateTime(..).dateTime`, and the rendered line total of a price and quantity. */
  datatype Formatters = Formatters(
    currency: string -> string,
    dateTime: int -> string,
    lineTotal: (string, int) -> string)

  datatype Row = Row(name: string, qty: string, unitPrice: string, lineTotal: string)

  /** Everything the page shows, before it is laid out as HTML. */
  datatype InvoiceView = InvoiceView(
    invoiceNumber: string,
    orderId: string,
    invoiceDate: string,
    address: ShippingAddress,
    email: Option<string>,
    paymentMethod: string,
    statusClass: string,
    statusText: string,
    paidOn: Option<string>,
    rows: seq<Row>,
    subtotal: string,
    shipping: string,
    tax: string,
    total: string)

  // ---------------------------------------------------------------------------
  // Derived values

  /** `INV-` and the upper-cased last eight characters of the order id. */
  function InvoiceNumber(orderId: string): (r: string)
    ensures StartsWith(r, "INV-")
    ensures |r| == 4 + (if |orderId| < 8 then |orderId| else 8)
    ensures Lower(r[4..]) == Lower(SliceLast(orderId, 8))
    ensures forall i :: 4 <= i < |r| ==> !('a' <= r[i] <= 'z')
  {
    var tail := SliceLast(orderId, 8);
    LowerOfUpper(tail);
    UpperHasNoLower(tail);
    var r := "INV-" + Upper(tail);
    assert r[4..] == Upper(tail);
    r
  }

  /** The downloaded file's name: the same eight characters, case kept. */
  function DownloadFileName(orderId: string): (r: string)
    ensures StartsWith(r, "invoice-")
    ensures |r| == 13 + (if |orderId| < 8 then |orderId| else 8)
    ensures r[8..|r| - 5] == SliceLast(orderId, 8)
    ensures r[|r| - 5..] == ".html"
  {
    var r := "invoice-" + SliceLast(orderId, 8) + ".html";
    assert r[8..|r| - 5] == SliceLast(orderId, 8);
    r
  }

  /** The invoice number is the upper-cased id part of the file name. */
  lemma InvoiceNumberMatchesFileName(orderId: string)
    ensures var f := DownloadFileName(orderId);
      InvoiceNumber(orderId) == "INV-" + Upper(f[8..|f| - 5])
  {
    var tail := SliceLast(orderId, 8);
    var f := DownloadFileName(orderId);
    assert f == "invoice-" + tail + ".html";
    assert f[8..|f| - 5] == tail;
  }

  /** `user?.email` as a condition: a present, non-empty address. */
  function ShownEmail(user: Option<InvoiceUser>): (r: Option<string>)
    ensures r.Some? <==> user.Some? && user.value.email.Some? && user.value.email.value != ""
    ensures r.Some? ==> r == user.value.email
  {
    match user
    case None => None
    case Some(u) =>
      match u.email
      case None => None
      case Some(e) => if e == "" then None else Some(e)
  }

  /** The shipping cell: "Free" when the price parses to zero, the formatted price otherwise. */
  function ShippingText(price: string, fmt: Formatters): (r: string)
    ensures ParseDecimal(price) == Some(0.0) ==> r == "Free"
    ensures ParseDecimal(price) != Some(0.0) ==> r == fmt.currency(price)
  {
    if ParseDecimal(price) == Some(0.0) then "Free" else fmt.currency(price)
  }

  /** For a price rendered from whole cents, "Free" is shown exactly when it is zero cents. */
  lemma FreeShippingIffZero(cents: int, fmt: Formatters)
    requires fmt.currency(FixedTwo(cents)) != "Free"
    ensures ShippingText(FixedTwo(cents), fmt) == "Free" <==> cents == 0
  {
    ParseFixedTwo(cents);
  }

  function RowOf(item: OrderItem, fmt: Formatters): Row {
    Row(item.name, IntToString(item.qty), fmt.currency(item.price), fmt.lineTotal(item.price, item.qty))
  }

  function Rows(items: seq<OrderItem>, fmt: Formatters): (rows: seq<Row>)
    ensures |rows| == |items|
    ensures forall i :: 0 <= i < |items| ==> rows[i] == RowOf(items[i], fmt)
  {
    if items == [] then [] else [RowOf(items[0], fmt)] + Rows(items[1..], fmt)
  }

  /** The view `generateInvoiceHTML` fills in. */
  function BuildView(data: InvoiceData, fmt: Formatters): (v: InvoiceView)
    ensures v.invoiceNumber == InvoiceNumber(data.order.id)
    ensures v.orderId == data.order.id
    ensures data.order.isPaid ==> v.statusText == "Paid" && v.statusClass == "paid"
    ensures !data.order.isPaid ==> v.statusText == "Pending" && v.statusClass == "pending"
    ensures v.paidOn.Some? <==> data.order.isPaid && data.order.paidAt.Some?
    ensures v.paidOn.Some? ==> v.paidOn.value == fmt.dateTime(data.order.paidAt.value)
    ensures v.email == ShownEmail(data.user)
    ensures |v.rows| == |data.order.orderItems|
    ensures forall i :: 0 <= i < |v.rows| ==> v.rows[i] == RowOf(data.order.orderItems[i], fmt)
    ensures v.shipping == ShippingText(data.order.shippingPrice, fmt)
  {
    var o := data.order;
    InvoiceView(
      InvoiceNumber(o.id),
      o.id,
      fmt.dateTime(o.createdAt),
      o.shippingAddress,
      ShownEmail(data.user),
      o.paymentMethod,
      if o.isPaid then "paid" else "pending",
      if o.isPaid then "Paid" else "Pending",
      if o.isPaid && o.paidAt.Some? then Some(fmt.dateTime(o.paidAt.value)) else None,
      Rows(o.orderItems, fmt),
      fmt.currency(o.itemsPrice),
      ShippingText(o.shippingPrice, fmt),
      fmt.currency(o.taxPrice),
      fmt.currency(o.totalPrice))
  }

  // ---------------------------------------------------------------------------
  // HTML

  function RowHtml(r: Row): string {
    "<tr><td><strong>" + r.name + "</strong></td><td>" + r.qty + "</td><td>" + r.unitPrice
      + "</td><td>" + r.lineTotal + "</td></tr>"
  }

  /** `rows.map(rowHtml).join('')` */
  function RowsHtml(rows: seq<Row>): string {
    if rows == [] then "" else RowHtml(rows[0]) + RowsHtml(rows[1..])
  }

  /** Every row's markup occurs in the table body. */
  lemma {:induction false} RowsHtmlShowsRow(rows: seq<Row>, i: nat)
    requires i < |rows|
    ensures Includes(RowsHtml(rows), RowHtml(rows[i]))
    decreases i
  {
    if i == 0 {
      IncludesInside("", RowHtml(rows[0]), RowsHtml(rows[1..]));
      assert "" + RowHtml(rows[0]) + RowsHtml(rows[1..]) == RowsHtml(rows);
    } else {
      assert rows[1..][i - 1] == rows[i];
      RowsHtmlShowsRow(rows[1..], i - 1);
      IncludesWithin(RowHtml(rows[0]), RowsHtml(rows[1..]), "", RowHtml(rows[i]));
      assert RowHtml(rows[0]) + RowsHtml(rows[1..]) + "" == RowsHtml(rows);
    }
  }

  /** The rows' markup, concatenated in order: row markup of a concatenation is the concatenation. */
  lemma {:induction false} RowsHtmlAppend(a: seq<Row>, b: seq<Row>)
    ensures RowsHtml(a + b) == RowsHtml(a) + RowsHtml(b)
    decreases |a|
  {
    if a == [] {
      assert a + b == b;
    } else {
      assert (a + b)[1..] == a[1..] + b;
      RowsHtmlAppend(a[1..], b);
    }
  }

  function EmailHtml(email: Option<string>): string {
    match email
    case None => ""
    case Some(e) => "<p>Email: " + e + "</p>"
  }

  function PaidOnHtml(paidOn: Option<string>): string {
    match paidOn
    case None => ""
    case Some(d) => "<p><strong>Paid On:</strong> " + d + "</p>"
  }

  function TitleHtml(invoiceNumber: string): string {
    "<!DOCTYPE html><html lang=\"en\"><head><meta charset=\"UTF-8\">"
      + "<meta name=\"viewport\" content=\"width=device-width, initial-scale=1.0\">"
      + "<title>Invoice " + invoiceNumber + "</title>"
  }

  function HeaderHtml(v: InvoiceView): string {
    "</head><body><div class=\"invoice-container\"><div class=\"invoice-header\"><h1>INVOICE</h1><p>Invoice #"
      + v.invoiceNumber + "</p></div><div class=\"invoice-body\"><div class=\"invoice-info\">"
  }

  function BillToHtml(v: InvoiceView): string {
    "<div class=\"info-section\"><h3>Bill To</h3><p><strong>" + v.address.fullName + "</strong></p><p>"
      + v.address.streetAddress + "</p><p>" + v.address.city + ", " + v.address.postalCode + "</p><p>"
      + v.address.country + "</p>" + EmailHtml(v.email) + "</div>"
  }

  function DetailsHtml(v: InvoiceView): string {
    "<div class=\"info-section\"><h3>Invoice Details</h3><p><strong>Invoice Number:</strong> " + v.invoiceNumber
      + "</p><p><strong>Order ID:</strong> " + v.orderId
      + "</p><p><strong>Invoice Date:</strong> " + v.invoiceDate
      + "</p><p><strong>Payment Method:</strong> " + v.paymentMethod
      + "</p><p><strong>Status:</strong> <span class=\"payment-status " + v.statusClass + "\">" + v.statusText
      + "</span></p>" + PaidOnHtml(v.paidOn) + "</div></div>"
  }

  const TableHead := "<table class=\"items-table\"><thead><tr><th>Item</th><th>Quantity</th><th>Unit Price</th><th>Total</th></tr></thead><tbody>"

  function TableHtml(v: InvoiceView): string {
    TableHead + RowsHtml(v.rows) + "</tbody></table>"
  }

  function TotalsHtml(v: InvoiceView): string {
    "<div class=\"total-section\"><div class=\"total-row\"><span>Subtotal:</span><span>" + v.subtotal
      + "</span></div><div class=\"total-row\"><span>Shipping:</span><span>" + v.shipping
      + "</span></div><div class=\"total-row\"><span>Tax:</span><span>" + v.tax
      + "</span></div><div class=\"total-row final\"><span>Total:</span><span>" + v.total
      + "</span></div></div></div>"
  }

  const FooterHtml := "<div class=\"footer\"><p>Thank you for your business!</p>"
    + "<p>This is a computer-generated invoice. No signature required.</p></div></div></body></html>"

  /** Everything after the title: header, the two info blocks, the items table, totals and footer. */
  function BodyHtml(v: InvoiceView): string {
    (HeaderHtml(v) + BillToHtml(v) + DetailsHtml(v)) + (TableHtml(v) + TotalsHtml(v) + FooterHtml)
  }

  /** The page for a view. */
  function Render(v: InvoiceView): (html: string)
    ensures StartsWith(html, TitleHtml(v.invoiceNumber))
  {
    StartsWithAppend(TitleHtml(v.invoiceNumber), BodyHtml(v));
    TitleHtml(v.invoiceNumber) + BodyHtml(v)
  }

  /** `generateInvoiceHTML`, with the stylesheet and indentation left out. */
  function GenerateInvoiceHtml(data: InvoiceData, fmt: Formatters): (html: string)
    ensures StartsWith(html, TitleHtml(InvoiceNumber(data.order.id)))
  {
    Render(BuildView(data, fmt))
  }

  /** What the table shows, the body shows. */
  lemma BodyShowsTable(v: InvoiceView, sub: string)
    requires Includes(TableHtml(v), sub)
    ensures Includes(BodyHtml(v), sub)
  {
    IncludesLeft(TableHtml(v), TotalsHtml(v), sub);
    IncludesLeft(TableHtml(v) + TotalsHtml(v), FooterHtml, sub);
    IncludesRight(HeaderHtml(v) + BillToHtml(v) + DetailsHtml(v), TableHtml(v) + TotalsHtml(v) + FooterHtml, sub);
  }

  /** What the bill-to block shows, the body shows. */
  lemma BodyShowsBillTo(v: InvoiceView, sub: string)
    requires Includes(BillToHtml(v), sub)
    ensures Includes(BodyHtml(v), sub)
  {
    IncludesRight(HeaderHtml(v), BillToHtml(v), sub);
    IncludesLeft(HeaderHtml(v) + BillToHtml(v), DetailsHtml(v), sub);
    IncludesLeft(HeaderHtml(v) + BillToHtml(v) + DetailsHtml(v), TableHtml(v) + TotalsHtml(v) + FooterHtml, sub);
  }

  /** What the body shows, the page shows. */
  lemma RenderShowsBody(v: InvoiceView, sub: string)
    requires Includes(BodyHtml(v), sub)
    ensures Includes(Render(v), sub)
  {
    IncludesRight(TitleHtml(v.invoiceNumber), BodyHtml(v), sub);
  }

  /** Every row of the view appears in its table. */
  lemma TableShowsRow(v: InvoiceView, i: nat)
    requires i < |v.rows|
    ensures Includes(TableHtml(v), RowHtml(v.rows[i]))
  {
    RowsHtmlShowsRow(v.rows, i);
    IncludesRight(TableHead, RowsHtml(v.rows), RowHtml(v.rows[i]));
    IncludesLeft(TableHead + RowsHtml(v.rows), "</tbody></table>", RowHtml(v.rows[i]));
  }

  /** Every order item appears as a table row on the page. */
  lemma PageShowsEveryItem(data: InvoiceData, fmt: Formatters, i: nat)
    requires i < |data.order.orderItems|
    ensures Includes(GenerateInvoiceHtml(data, fmt), RowHtml(RowOf(data.order.orderItems[i], fmt)))
  {
    var v := BuildView(data, fmt);
    TableShowsRow(v, i);
    BodyShowsTable(v, RowHtml(v.rows[i]));
    RenderShowsBody(v, RowHtml(v.rows[i]));
  }

  /** A view's e-mail line appears in its bill-to block. */
  lemma BillToShowsEmail(v: InvoiceView)
    requires v.email.Some?
    ensures Includes(BillToHtml(v), "<p>Email: " + v.email.value + "</p>")
  {
    var sub := "<p>Email: " + v.email.value + "</p>";
    var billHead := "<div class=\"info-section\"><h3>Bill To</h3><p><strong>" + v.address.fullName + "</strong></p><p>"
      + v.address.streetAddress + "</p><p>" + v.address.city + ", " + v.address.postalCode + "</p><p>"
      + v.address.country + "</p>";
    assert EmailHtml(v.email) == sub;
    IncludesInside(billHead, sub, "</div>");
  }

  /** A present, non-empty e-mail address is printed in the bill-to block. */
  lemma PageShowsEmail(data: InvoiceData, fmt: Formatters)
    requires ShownEmail(data.user).Some?
    ensures Includes(GenerateInvoiceHtml(data, fmt), "<p>Email: " + ShownEmail(data.user).value + "</p>")
  {
    var v := BuildView(data, fmt);
    BillToShowsEmail(v);
    BodyShowsBillTo(v, "<p>Email: " + v.email.value + "</p>");
    RenderShowsBody(v, "<p>Email: " + v.email.value + "</p>");
  }
}
