/** The history page: a filtered, paged list of the user's images. The
    filters (label, date range, page size and offset) live in page state;
    the backend's pagination fields drive a row of page buttons with at most
    five consecutive pages, first and last page buttons and ellipses; a
    confirmed delete drops an image from the list shown. */
module History {
  import opened Records
  import DateRange

  const DefaultLimit := 8
  const MaxVisiblePages := 5
  const LoadFailedMessage := "Failed to load images"

  function Max(a: int, b: int): int { if a >= b then a else b }

  function Min(a: int, b: int): int { if a <= b then a else b }

  // ---------------------------------------------------------------------
  // Filters and the query sent

  /** `filters`: the page size, the offset and the raw values of the label
      select and the two date inputs (empty when unset). */
  datatype Filters = Filters(limit: int, offset: int, labelFilter: string, from: string, to: string)

  const DefaultFilters := Filters(DefaultLimit, 0, "", "", "")

  /** The three inputs that call `handleFilterChange`. */
  datatype FilterKey = LabelKey | FromKey | ToKey

  /** `{ ...filters, [key]: value, offset: 0 }`. */
  function WithFilter(f: Filters, key: FilterKey, value: string): (r: Filters)
    ensures r.offset == 0 && r.limit == f.limit
    ensures r.labelFilter == (if key.LabelKey? then value else f.labelFilter)
    ensures r.from == (if key.FromKey? then value else f.from)
    ensures r.to == (if key.ToKey? then value else f.to)
  {
    match key
    case LabelKey => f.(labelFilter := value, offset := 0)
    case FromKey => f.(from := value, offset := 0)
    case ToKey => f.(to := value, offset := 0)
  }

  /** `{ ...filters, offset: (page - 1) * filters.limit }`. */
  function AtPage(f: Filters, page: int): (r: Filters)
    ensures r.offset == (page - 1) * f.limit
    ensures r.limit == f.limit && r.labelFilter == f.labelFilter && r.from == f.from && r.to == f.to
  {
    f.(offset := (page - 1) * f.limit)
  }

  /** The copy of the filters sent to the API: a set date becomes the start
      (from) or end (to) of its day; an unset one is sent as it is. */
  function ApiFilters(f: Filters): (r: Filters)
    ensures r.limit == f.limit && r.offset == f.offset && r.labelFilter == f.labelFilter
    ensures r.from == "" <==> f.from == ""
    ensures r.to == "" <==> f.to == ""
    ensures f.from != "" ==> r.from == DateRange.DayStart(f.from)
    ensures f.to != "" ==> r.to == DateRange.DayEnd(f.to)
  {
    f.(from := if f.from != "" then DateRange.DayStart(f.from) else f.from,
       to := if f.to != "" then DateRange.DayEnd(f.to) else f.to)
  }

  /** Page `n` (counting from 1) starts with item `(n - 1) * limit`: the
      offsets of consecutive pages are one page size apart. */
  lemma AtPageSteps(f: Filters, page: int)
    ensures AtPage(f, page + 1).offset == AtPage(f, page).offset + f.limit
    ensures AtPage(f, 1).offset == 0
  {
    assert page * f.limit == (page - 1) * f.limit + f.limit;
  }

  // ---------------------------------------------------------------------
  // Pagination state

  datatype Pagination = Pagination(currentPage: int, totalPages: int, totalItems: int, hasMore: bool)

  const InitialPagination := Pagination(1, 0, 0, false)
  const ErrorPagination := Pagination(1, 1, 0, false)

  /** `response.data` of `GET /images`: `items` is None when falsy. */
  datatype ListBody = ListBody(
    items: Option<seq<Image>>,
    currentPage: JsonNumber,
    totalPages: JsonNumber,
    total: JsonNumber,
    nextOffset: JsonNumber)

  /** A response, whose `data` may be missing, or a rejected request. */
  datatype ListReply = Listed(data: Option<ListBody>) | ListFailed

  /** The pagination taken from a response: missing, null or zero numbers
      fall back to page 1 of 1 with no items; there is more exactly when the
      next offset is not `null` (a missing one counts as more). */
  function PaginationOf(body: ListBody): (p: Pagination)
    ensures p.currentPage == (if body.currentPage.Truthy() then body.currentPage.value else 1)
    ensures p.totalPages == (if body.totalPages.Truthy() then body.totalPages.value else 1)
    ensures p.totalItems == (if body.total.Truthy() then body.total.value else 0)
    ensures p.hasMore <==> !body.nextOffset.Null?
  {
    Pagination(body.currentPage.Or(1), body.totalPages.Or(1), body.total.Or(0), body.nextOffset != Null)
  }

  /** The list shown with its pagination and error line. */
  datatype ListView = ListView(images: seq<Image>, pagination: Pagination, error: string)

  /** `loadImages` after its request settles. With a body, the items (or
      none) and its pagination replace the old ones and the error clears; a
      rejection, or a response without `data` (reading its `items` throws),
      keeps the images and shows the error with the fallback pagination. */
  function AfterLoad(view: ListView, reply: ListReply): (v: ListView)
    ensures reply.Listed? && reply.data.Some? ==>
      v.error == "" && v.pagination == PaginationOf(reply.data.value) &&
      v.images == (if reply.data.value.items.Some? then reply.data.value.items.value else [])
    ensures !(reply.Listed? && reply.data.Some?) ==>
      v.error == LoadFailedMessage && v.pagination == ErrorPagination && v.images == view.images
  {
    if reply.Listed? && reply.data.Some? then
      var body := reply.data.value;
      ListView(if body.items.Some? then body.items.value else [], PaginationOf(body), "")
    else
      view.(pagination := ErrorPagination, error := LoadFailedMessage)
  }

  // ---------------------------------------------------------------------
  // The page-button row

  /** One control of the row: a previous/next arrow with the page it goes
      to, a page button (highlighted when it is the current page), or an
      ellipsis. */
  datatype Token = Prev(target: int) | PageButton(page: int, active: bool) | Ellipsis | Next(target: int)

  /** The first page of the window of consecutive pages. */
  function WindowStart(c: int, t: int): int
  {
    var s := Max(1, c - MaxVisiblePages / 2);
    var e := Min(t, s + MaxVisiblePages - 1);
    if e - s < MaxVisiblePages - 1 then Max(1, e - MaxVisiblePages + 1) else s
  }

  /** The last page of the window of consecutive pages. */
  function WindowEnd(c: int, t: int): int
  {
    Min(t, Max(1, c - MaxVisiblePages / 2) + MaxVisiblePages - 1)
  }

  /** The window lies within the pages and holds five of them, or all when
      there are fewer; a current page within range is inside the window.
      The first page is shown apart only when the current page is at least
      two past the window start, the last only when it is at least two short
      of the window end. */
  lemma WindowBounds(c: int, t: int)
    requires t >= 2
    ensures 1 <= WindowStart(c, t) <= WindowEnd(c, t) <= t
    ensures WindowStart(c, t) > 1 ==> c >= WindowStart(c, t) + 2
    ensures WindowEnd(c, t) < t ==> c <= WindowEnd(c, t) - 2
    ensures 1 <= c <= t ==> WindowStart(c, t) <= c <= WindowEnd(c, t)
    ensures 1 <= c <= t ==> WindowEnd(c, t) - WindowStart(c, t) + 1 == Min(MaxVisiblePages, t)
  {
  }

  /** The pages `s..e`. */
  function Range(s: int, e: int): (r: seq<int>)
    ensures |r| == if s <= e then e - s + 1 else 0
    ensures forall k :: 0 <= k < |r| ==> r[k] == s + k
    decreases e - s
  {
    if e < s then [] else Range(s, e - 1) + [e]
  }

  /** The page numbers on buttons, in order: page 1, the window, page t. */
  function ShownPages(c: int, t: int): seq<int>
  {
    var s, e := WindowStart(c, t), WindowEnd(c, t);
    (if s > 1 then [1] else []) + Range(s, e) + (if e < t then [t] else [])
  }

  /** An ellipsis between two shown pages that are not adjacent. */
  function Gap(a: int, b: int): seq<Token>
  {
    if b > a + 1 then [Ellipsis] else []
  }

  /** The buttons for the page numbers `ps`, in order, the one equal to `c`
      highlighted, with an ellipsis wherever two neighbours skip pages. */
  function Layout(ps: seq<int>, c: int): seq<Token>
    decreases |ps|
  {
    if |ps| == 0 then []
    else if |ps| == 1 then [PageButton(ps[0], ps[0] == c)]
    else Layout(ps[..|ps| - 1], c) + Gap(ps[|ps| - 2], ps[|ps| - 1]) + [PageButton(ps[|ps| - 1], ps[|ps| - 1] == c)]
  }

  /** The whole row for current page `c` of `t`. */
  function Controls(c: int, t: int): seq<Token>
  {
    BackArrow(c) + Layout(ShownPages(c, t), c) + ForwardArrow(c, t)
  }

  /** The arrow to the previous page, unless on page 1 or before. */
  function BackArrow(c: int): seq<Token>
  {
    if c > 1 then [Prev(c - 1)] else []
  }

  /** The arrow to the next page, unless on the last page or after. */
  function ForwardArrow(c: int, t: int): seq<Token>
  {
    if c < t then [Next(c + 1)] else []
  }

  lemma LayoutSnoc(ps: seq<int>, p: int, c: int)
    requires |ps| >= 1
    ensures Layout(ps + [p], c) == Layout(ps, c) + Gap(ps[|ps| - 1], p) + [PageButton(p, p == c)]
  {
    assert (ps + [p])[..|ps|] == ps;
  }

  lemma LayoutSnocAdjacent(ps: seq<int>, p: int, c: int)
    requires |ps| >= 1 && ps[|ps| - 1] + 1 == p
    ensures Layout(ps + [p], c) == Layout(ps, c) + [PageButton(p, p == c)]
  {
    LayoutSnoc(ps, p, c);
    assert Gap(ps[|ps| - 1], p) == [];
    assert Layout(ps, c) + [] == Layout(ps, c);
  }

  /** The shown page numbers start at 1, end at the last page and strictly
      increase, so none is shown twice; a current page within range is
      among them. */
  lemma ShownPagesIncrease(c: int, t: int)
    requires t >= 2
    ensures var ps := ShownPages(c, t);
      |ps| >= 2 && ps[0] == 1 && ps[|ps| - 1] == t &&
      (forall i, j :: 0 <= i < j < |ps| ==> ps[i] < ps[j]) &&
      (1 <= c <= t ==> c in ps)
  {
    WindowBounds(c, t);
    var s, e := WindowStart(c, t), WindowEnd(c, t);
    var ps := ShownPages(c, t);
    var first: seq<int> := if s > 1 then [1] else [];
    var last: seq<int> := if e < t then [t] else [];
    var r := Range(s, e);
    assert ps == first + r + last;
    assert forall i :: 0 <= i < |ps| ==> 1 <= ps[i] <= t;
    assert forall i :: |first| <= i < |first| + |r| ==> ps[i] == s + i - |first|;
    if 1 <= c <= t {
      assert ps[|first| + c - s] == c;
    }
  }

  /** The buttons `s..e` of the window, the one equal to `c` highlighted. */
  function Buttons(s: int, e: int, c: int): (r: seq<Token>)
    ensures |r| == if s <= e then e - s + 1 else 0
    ensures forall k :: 0 <= k < |r| ==> r[k] == PageButton(s + k, s + k == c)
    decreases e - s
  {
    if e < s then [] else Buttons(s, e - 1, c) + [PageButton(e, e == c)]
  }

  /** The controls before the window: page 1 and an ellipsis if needed. */
  function HeadTokens(s: int): seq<Token>
  {
    if s > 1 then [PageButton(1, false)] + Gap(1, s) else []
  }

  /** The controls after the window: an ellipsis if needed and page t. */
  function TailTokens(e: int, t: int): seq<Token>
  {
    if e < t then Gap(e, t) + [PageButton(t, false)] else []
  }

  /** Laying out a window of consecutive pages after some earlier pages adds
      at most one ellipsis, before the window, and no other. */
  lemma {:induction false} LayoutRun(pre: seq<int>, s: int, e: int, c: int)
    requires |pre| >= 1 && s <= e
    ensures Layout(pre + Range(s, e), c) == Layout(pre, c) + Gap(pre[|pre| - 1], s) + Buttons(s, e, c)
    decreases e - s
  {
    if e == s {
      assert Range(s, s) == [s];
      assert Buttons(s, s, c) == [PageButton(s, s == c)];
      LayoutSnoc(pre, s, c);
    } else {
      LayoutRun(pre, s, e - 1, c);
      var prefix := pre + Range(s, e - 1);
      var head, b := Layout(pre, c) + Gap(pre[|pre| - 1], s), Buttons(s, e - 1, c);
      var button := [PageButton(e, e == c)];
      assert pre + Range(s, e) == prefix + [e] by {
        assert Range(s, e) == Range(s, e - 1) + [e];
        Assoc(pre, Range(s, e - 1), [e]);
      }
      assert prefix[|prefix| - 1] == e - 1;
      LayoutSnocAdjacent(prefix, e, c);
      assert Buttons(s, e, c) == b + button;
      Assoc(head, b, button);
    }
  }

  /** A window of consecutive pages on its own: its buttons, no ellipsis. */
  lemma {:induction false} LayoutRange(s: int, e: int, c: int)
    requires s <= e
    ensures Layout(Range(s, e), c) == Buttons(s, e, c)
    decreases e - s
  {
    if e == s {
      assert Range(s, s) == [s];
      assert Buttons(s, s, c) == [PageButton(s, s == c)];
    } else {
      LayoutRange(s, e - 1, c);
      var r := Range(s, e - 1);
      assert r[|r| - 1] == e - 1;
      assert Range(s, e) == r + [e];
      LayoutSnocAdjacent(r, e, c);
      assert Buttons(s, e, c) == Buttons(s, e - 1, c) + [PageButton(e, e == c)];
    }
  }

  lemma LayoutWindow(s: int, e: int, c: int)
    requires 1 <= s <= e
    requires s > 1 ==> c != 1
    ensures Layout((if s > 1 then [1] else []) + Range(s, e), c) == HeadTokens(s) + Buttons(s, e, c)
  {
    if s > 1 {
      assert [1] + Range(s, e) == (if s > 1 then [1] else []) + Range(s, e);
      LayoutRun([1], s, e, c);
      assert Layout([1], c) == [PageButton(1, false)];
      Assoc([PageButton(1, false)], Gap(1, s), Buttons(s, e, c));
    } else {
      assert [] + Range(s, e) == Range(s, e);
      LayoutRange(s, e, c);
      assert HeadTokens(s) + Buttons(s, e, c) == Buttons(s, e, c);
    }
  }

  /** The shown pages laid out: page 1 and an ellipsis if needed, the
      window, an ellipsis if needed and the last page. */
  lemma RowLayout(s: int, e: int, t: int, c: int)
    requires 1 <= s <= e <= t
    requires s > 1 ==> c != 1
    requires e < t ==> c != t
    ensures Layout((if s > 1 then [1] else []) + Range(s, e) + (if e < t then [t] else []), c) ==
      HeadTokens(s) + Buttons(s, e, c) + TailTokens(e, t)
  {
    var first: seq<int> := if s > 1 then [1] else [];
    var last: seq<int> := if e < t then [t] else [];
    var middle := first + Range(s, e);
    var row := HeadTokens(s) + Buttons(s, e, c);
    LayoutWindow(s, e, c);
    assert Layout(middle, c) == row;
    assert middle[|middle| - 1] == e;
    if e < t {
      LayoutSnoc(middle, t, c);
      assert Layout(middle + [t], c) == row + Gap(e, t) + [PageButton(t, false)];
      Assoc(row, Gap(e, t), [PageButton(t, false)]);
      assert first + Range(s, e) + last == middle + [t];
    } else {
      assert first + Range(s, e) + last == middle;
      assert row + TailTokens(e, t) == row;
    }
  }

  lemma Assoc<T>(a: seq<T>, b: seq<T>, c: seq<T>)
    ensures a + b + c == a + (b + c)
  {
  }

  lemma Regroup(a: seq<Token>, b: seq<Token>, c: seq<Token>, d: seq<Token>, e: seq<Token>)
    ensures a + (b + c + d) + e == a + b + c + d + e
  {
    assert b + c + d == b + (c + d);
    assert a + (b + (c + d)) == a + b + (c + d);
    assert a + b + (c + d) == a + b + c + d;
  }

  /** The row written in the order the controls are emitted. */
  lemma ControlsInEmitOrder(c: int, t: int)
    requires t >= 2
    ensures var s, e := WindowStart(c, t), WindowEnd(c, t);
      Controls(c, t) == BackArrow(c) + HeadTokens(s) + Buttons(s, e, c) + TailTokens(e, t) + ForwardArrow(c, t)
  {
    var s, e := WindowStart(c, t), WindowEnd(c, t);
    WindowBounds(c, t);
    RowLayout(s, e, t, c);
    var row := HeadTokens(s) + Buttons(s, e, c) + TailTokens(e, t);
    assert Layout(ShownPages(c, t), c) == row;
    assert Controls(c, t) == BackArrow(c) + row + ForwardArrow(c, t);
    Regroup(BackArrow(c), HeadTokens(s), Buttons(s, e, c), TailTokens(e, t), ForwardArrow(c, t));
  }

  /** The `for` loop of `renderPagination`: one button per page `s..e`. */
  method PushButtons(pages: seq<Token>, s: int, e: int, c: int) returns (tokens: seq<Token>)
    requires s <= e + 1
    ensures tokens == pages + Buttons(s, e, c)
  {
    tokens := pages;
    for i := s to e + 1
      invariant tokens == pages + Buttons(s, i - 1, c)
    {
      assert Buttons(s, i, c) == Buttons(s, i - 1, c) + [PageButton(i, i == c)];
      tokens := tokens + [PageButton(i, i == c)];
    }
  }

  /** `renderPagination()`: nothing for a single page; otherwise the row
      is the arrow back (if not on page 1), the shown pages with ellipses at
      their gaps, and the arrow forward (if not on the last page). */
  method RenderPagination(p: Pagination) returns (tokens: seq<Token>)
    ensures p.totalPages <= 1 ==> tokens == []
    ensures p.totalPages > 1 ==> tokens == Controls(p.currentPage, p.totalPages)
  {
    if p.totalPages <= 1 {
      return [];
    }
    var c, t := p.currentPage, p.totalPages;
    tokens := [];
    var startPage := Max(1, c - MaxVisiblePages / 2);
    var endPage := Min(t, startPage + MaxVisiblePages - 1);
    if endPage - startPage < MaxVisiblePages - 1 {
      startPage := Max(1, endPage - MaxVisiblePages + 1);
    }
    assert startPage == WindowStart(c, t) && endPage == WindowEnd(c, t);
    WindowBounds(c, t);
    if c > 1 {
      tokens := tokens + [Prev(c - 1)];
    }
    assert tokens == BackArrow(c);
    if startPage > 1 {
      tokens := tokens + [PageButton(1, false)];
      if startPage > 2 {
        tokens := tokens + [Ellipsis];
      }
    }
    ghost var head := tokens;
    assert head == BackArrow(c) + HeadTokens(startPage);
    tokens := PushButtons(tokens, startPage, endPage, c);
    ghost var window := tokens;
    assert window == head + Buttons(startPage, endPage, c);
    if endPage < t {
      if endPage < t - 1 {
        tokens := tokens + [Ellipsis];
      }
      tokens := tokens + [PageButton(t, false)];
    }
    assert tokens == window + TailTokens(endPage, t);
    ghost var tail := tokens;
    if c < t {
      tokens := tokens + [Next(c + 1)];
    }
    assert tokens == tail + ForwardArrow(c, t);
    assert tokens == BackArrow(c) + HeadTokens(startPage) + Buttons(startPage, endPage, c) + TailTokens(endPage, t) + ForwardArrow(c, t);
    ControlsInEmitOrder(c, t);
  }

  // ---------------------------------------------------------------------
  // Delete and the "Showing" line

  function WithoutImage(images: seq<Image>, id: string): seq<Image>
  {
    Filter(images, (img: Image) => img.id != id)
  }

  /** Deleting by id removes every image with that id and no other, and
      keeps the rest in their order (removal distributes over a split). */
  lemma WithoutImageRemovesExactly(images: seq<Image>, more: seq<Image>, id: string)
    ensures forall img :: img in WithoutImage(images, id) <==> img in images && img.id != id
    ensures WithoutImage(images + more, id) == WithoutImage(images, id) + WithoutImage(more, id)
  {
    FilterAppend(images, more, (img: Image) => img.id != id);
  }

  /** The "Showing a to b of n images" line. */
  datatype Showing = Showing(first: int, last: int, total: int)

  function ShowingRange(p: Pagination, limit: int): (r: Option<Showing>)
    ensures r.Some? <==> p.totalItems > 0
    ensures r.Some? ==> r.value.total == p.totalItems && r.value.last <= p.totalItems
    ensures r.Some? ==> r.value.first == (p.currentPage - 1) * limit + 1
  {
    if p.totalItems > 0 then
      Some(Showing((p.currentPage - 1) * limit + 1, Min(p.currentPage * limit, p.totalItems), p.totalItems))
    else None
  }

  /** For a page that starts before the end of the list, the line names the
      items of that page exactly: it starts right after the page's offset
      and counts a full page, or the rest of the list on the last page. */
  lemma ShowingRangeCountsThePage(p: Pagination, limit: int)
    requires p.currentPage >= 1 && limit > 0
    requires (p.currentPage - 1) * limit < p.totalItems
    ensures var r := ShowingRange(p, limit).value;
      1 <= r.first <= r.last <= r.total &&
      r.last - r.first + 1 == Min(limit, p.totalItems - (p.currentPage - 1) * limit)
  {
    var o := (p.currentPage - 1) * limit;
    assert p.currentPage * limit == o + limit;
    assert o >= 0 by {
      assert p.currentPage - 1 >= 0;
    }
  }

  // ---------------------------------------------------------------------
  // The page

  /** The backend's `GET /images`, as a function of the query sent. */
  type ListServer = Filters -> ListReply

  class HistoryPage {
    var images: seq<Image>
    var loading: bool
    var error: string
    var filters: Filters
    var pagination: Pagination

    constructor ()
      ensures images == [] && loading && error == ""
      ensures filters == DefaultFilters && pagination == InitialPagination
    {
      images := [];
      loading := true;
      error := "";
      filters := DefaultFilters;
      pagination := InitialPagination;
    }

    /** `loadImages(query)`: the list, pagination and error after the
        request settles; the filters in state are not touched. */
    method LoadImages(query: Filters, server: ListServer)
      modifies this
      ensures ListView(images, pagination, error) == AfterLoad(old(ListView(images, pagination, error)), server(query))
      ensures !loading && filters == old(filters)
    {
      loading := true;
      var reply := server(query);
      if reply.Listed? && reply.data.Some? {
        var body := reply.data.value;
        images := if body.items.Some? then body.items.value else [];
        pagination := Pagination(body.currentPage.Or(1), body.totalPages.Or(1), body.total.Or(0), body.nextOffset != Null);
        error := "";
      } else {
        error := LoadFailedMessage;
        pagination := ErrorPagination;
      }
      loading := false;
    }

    /** `handleFilterChange(key, value)`: the filter changes, the offset
        goes back to 0, the raw value is kept, and the list reloads with
        the API copy of the new filters. */
    method HandleFilterChange(key: FilterKey, value: string, server: ListServer)
      modifies this
      ensures filters == WithFilter(old(filters), key, value)
      ensures ListView(images, pagination, error) == AfterLoad(old(ListView(images, pagination, error)), server(ApiFilters(filters)))
      ensures !loading
    {
      filters := WithFilter(filters, key, value);
      LoadImages(ApiFilters(filters), server);
    }

    /** `handlePageChange(page)`: only the offset changes, to the first
        item of that page, and the list reloads. */
    method HandlePageChange(page: int, server: ListServer)
      modifies this
      ensures filters == AtPage(old(filters), page)
      ensures ListView(images, pagination, error) == AfterLoad(old(ListView(images, pagination, error)), server(ApiFilters(filters)))
      ensures !loading
    {
      filters := AtPage(filters, page);
      LoadImages(ApiFilters(filters), server);
    }

    /** `deleteImage(id)`: nothing unless the user confirms; then a
        successful delete drops the image from the list and a failed one
        leaves the list alone. */
    method DeleteImage(id: string, confirmed: bool, deleteSucceeded: bool)
      modifies this
      ensures images == if confirmed && deleteSucceeded then WithoutImage(old(images), id) else old(images)
      ensures filters == old(filters) && pagination == old(pagination) && error == old(error) && loading == old(loading)
    {
      if !confirmed {
        return;
      }
      if deleteSucceeded {
        images := WithoutImage(images, id);
      }
    }
  }
}
