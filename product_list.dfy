/**
 * The paged product grid of `components/shared/product/product-list.tsx`:
 * a `visibleItems` count that starts at `limit || 8` and grows by 4 on
 * "Load more", the prefix of the data it shows, the header with its
 * "View all" button, and the empty state.  The list is generic in the
 * product type, which it never inspects.
 */
module ProductListing {
  import opened Wrappers

  const DefaultVisible := 8
  const LoadStep := 4
  const ViewAllAbove := 4
  const EmptyMessage := "No products found"

  /** How many items `xs.slice(0, end)` keeps from a list of `len`; a negative end counts from the back. */
  function SliceEnd(len: nat, end: int): (k: nat)
    ensures k <= len
    ensures end >= 0 ==> k == if end < len then end else len
    ensures end < 0 ==> k == if len + end < 0 then 0 else len + end
  {
    if end < 0 then (if len + end < 0 then 0 else len + end)
    else if end < len then end
    else len
  }

  /** `limit || 8`: a missing or zero limit falls back to 8. */
  function InitialVisible(limit: Option<int>): (v: int)
    ensures limit.None? || limit == Some(0) ==> v == DefaultVisible
    ensures limit.Some? && limit.value != 0 ==> v == limit.value
  {
    match limit
    case None => DefaultVisible
    case Some(l) => if l == 0 then DefaultVisible else l
  }

  /** The section header: its title and whether the "View all" button is shown. */
  datatype Header = Header(title: string, viewAll: bool)

  /** What the section shows below its header. */
  datatype ListBody<T> = Grid(items: seq<T>, loadMoreButton: bool) | EmptyState(message: string)

  class ProductList<T> {
    const data: seq<T>
    const title: Option<string>
    var visibleItems: int

    constructor(data: seq<T>, title: Option<string>, limit: Option<int>)
      ensures this.data == data && this.title == title
      ensures visibleItems == InitialVisible(limit)
    {
      this.data := data;
      this.title := title;
      visibleItems := InitialVisible(limit);
    }

    /** `data.slice(0, visibleItems)`: a prefix of the data, min(visible, |data|) long for a non-negative count. */
    function LimitedData(): (shown: seq<T>)
      reads this
      ensures |shown| == SliceEnd(|data|, visibleItems)
      ensures shown == data[..|shown|]
      ensures visibleItems >= 0 ==> |shown| == if visibleItems < |data| then visibleItems else |data|
    {
      data[..SliceEnd(|data|, visibleItems)]
    }

    /** `data.length > visibleItems` */
    predicate HasMore()
      reads this
    {
      |data| > visibleItems
    }

    /** With a non-negative count, "Load more" is offered exactly when some items are still hidden. */
    lemma HasMoreIffHidden()
      requires visibleItems >= 0
      ensures HasMore() <==> |LimitedData()| < |data|
    {
    }

    /** `loadMore`: four more items become visible; what was shown stays shown, in the same places. */
    method LoadMore()
      modifies this
      ensures visibleItems == old(visibleItems) + LoadStep
      ensures old(visibleItems) >= 0 ==>
        |LimitedData()| == if old(visibleItems) + LoadStep < |data| then old(visibleItems) + LoadStep else |data|
      ensures old(visibleItems) >= 0 ==> old(LimitedData()) <= LimitedData()
    {
      visibleItems := visibleItems + LoadStep;
    }

    /**
     * The header: shown only for a truthy (non-empty) title, with "View all"
     * in it only when there are more than four items.
     */
    function HeaderOf(): (h: Option<Header>)
      reads this
      ensures h.Some? <==> title.Some? && title.value != ""
      ensures h.Some? ==> h.value.title == title.value && (h.value.viewAll <==> |data| > ViewAllAbove)
    {
      match title
      case None => None
      case Some(t) => if t == "" then None else Some(Header(t, |data| > ViewAllAbove))
    }

    /** The grid (with "Load more" when items are hidden), or "No products found" exactly when there is no data. */
    function Body(): (b: ListBody<T>)
      reads this
      ensures b.EmptyState? <==> |data| == 0
      ensures b.EmptyState? ==> b.message == EmptyMessage
      ensures b.Grid? ==> b.items == LimitedData() && (b.loadMoreButton <==> HasMore())
    {
      if |data| > 0 then Grid(LimitedData(), HasMore()) else EmptyState(EmptyMessage)
    }
  }
}
