/**
 * The dashboard's recent-orders card, `components/user/recent-orders.tsx`:
 * a status badge whose text and colour follow delivered > paid > pending, at
 * most the first five orders, an "Order #" label from the last eight
 * characters of the id, and an empty state.
 */
module RecentOrders {
  import opened JsText

  datatype OrderSummary = OrderSummary(id: string, isPaid: bool, isDelivered: bool)

  datatype Status = Delivered | Processing | PendingPayment

  const ListedOrders := 5
  const EmptyMessage := "No orders yet"
  const GreenBadge := "bg-green-100 text-green-800 dark:bg-green-900/20 dark:text-green-400"
  const BlueBadge := "bg-blue-100 text-blue-800 dark:bg-blue-900/20 dark:text-blue-400"
  const YellowBadge := "bg-yellow-100 text-yellow-800 dark:bg-yellow-900/20 dark:text-yellow-400"

  /** The priority both helpers share: delivered wins over paid, paid over pending. */
  function StatusOf(isPaid: bool, isDelivered: bool): (s: Status)
    ensures s == Delivered <==> isDelivered
    ensures s == Processing <==> isPaid && !isDelivered
    ensures s == PendingPayment <==> !isPaid && !isDelivered
  {
    if isDelivered then Delivered else if isPaid then Processing else PendingPayment
  }

  /** `getStatusText` */
  function StatusText(isPaid: bool, isDelivered: bool): (t: string)
    ensures isDelivered ==> t == "Delivered"
    ensures !isDelivered && isPaid ==> t == "Processing"
    ensures !isDelivered && !isPaid ==> t == "Pending Payment"
  {
    if isDelivered then "Delivered"
    else if isPaid then "Processing"
    else "Pending Payment"
  }

  /** `getStatusColor` */
  function StatusColor(isPaid: bool, isDelivered: bool): (c: string)
    ensures isDelivered ==> c == GreenBadge
    ensures !isDelivered && isPaid ==> c == BlueBadge
    ensures !isDelivered && !isPaid ==> c == YellowBadge
  {
    if isDelivered then GreenBadge
    else if isPaid then BlueBadge
    else YellowBadge
  }

  function TextOf(s: Status): string {
    match s
    case Delivered => "Delivered"
    case Processing => "Processing"
    case PendingPayment => "Pending Payment"
  }

  function ColorOf(s: Status): string {
    match s
    case Delivered => GreenBadge
    case Processing => BlueBadge
    case PendingPayment => YellowBadge
  }

  /** Text and colour always describe the same status, and different statuses look different. */
  lemma TextAndColorAgree(isPaid: bool, isDelivered: bool)
    ensures StatusText(isPaid, isDelivered) == TextOf(StatusOf(isPaid, isDelivered))
    ensures StatusColor(isPaid, isDelivered) == ColorOf(StatusOf(isPaid, isDelivered))
    ensures forall s1, s2 :: s1 != s2 ==> TextOf(s1) != TextOf(s2)
  {
  }

  /** Delivery hides the payment state: a delivered order reads the same paid or not. */
  lemma DeliveredIgnoresPaid(isPaid: bool)
    ensures StatusText(isPaid, true) == StatusText(!isPaid, true)
    ensures StatusColor(isPaid, true) == StatusColor(!isPaid, true)
  {
  }

  /** `orders.slice(0, 5)` */
  function Listed(orders: seq<OrderSummary>): (r: seq<OrderSummary>)
    ensures |r| == if |orders| < ListedOrders then |orders| else ListedOrders
    ensures r == orders[..|r|]
  {
    if |orders| < ListedOrders then orders else orders[..ListedOrders]
  }

  /** "Order #" followed by `id.slice(-8)`. */
  function OrderLabel(id: string): (text: string)
    ensures StartsWith(text, "Order #")
    ensures |text| == 7 + (if |id| < 8 then |id| else 8)
    ensures id == id[..|id| - (|text| - 7)] + text[7..]
  {
    var tail := SliceLast(id, 8);
    var text := "Order #" + tail;
    StartsWithAppend("Order #", tail);
    assert text[7..] == tail;
    text
  }

  /** What the card shows: "No orders yet", or one row per listed order. */
  datatype Row = Row(orderLabel: string, statusText: string, statusColor: string, link: string)

  datatype CardBody = Empty(message: string) | OrderRows(rows: seq<Row>)

  function RowFor(o: OrderSummary): Row {
    Row(OrderLabel(o.id), StatusText(o.isPaid, o.isDelivered), StatusColor(o.isPaid, o.isDelivered), "/user/orders/" + o.id)
  }

  function Body(orders: seq<OrderSummary>): (b: CardBody)
    ensures b.Empty? <==> |orders| == 0
    ensures b.Empty? ==> b.message == EmptyMessage
    ensures b.OrderRows? ==> |b.rows| == |Listed(orders)|
    ensures b.OrderRows? ==> forall k :: 0 <= k < |b.rows| ==> b.rows[k] == RowFor(orders[k])
  {
    if |orders| == 0 then Empty(EmptyMessage)
    else
      var listed := Listed(orders);
      OrderRows(seq(|listed|, k requires 0 <= k < |listed| => RowFor(listed[k])))
  }

  /** Two orders whose ids end in the same eight characters get the same label. */
  lemma LabelUsesLastEight(prefix1: string, prefix2: string, tail: string)
    requires |tail| == 8
    ensures OrderLabel(prefix1 + tail) == OrderLabel(prefix2 + tail)
  {
    assert (prefix1 + tail)[|prefix1 + tail| - 8..] == tail;
    assert (prefix2 + tail)[|prefix2 + tail| - 8..] == tail;
  }
}
