/** The admin dashboard: the listing request it builds, the state its
    handlers update, the status counts, the delivered revenue and the
    pagination bar. */
module Dashboard {
  import opened Wrappers
  import opened Text
  import opened Seqs
  import opened Orders
  import AdminOrders
  import OrderCard
  import Session

  datatype StatusFilter = All | Only(status: Status)

  /** The query string `fetchOrders` sends, as name/value pairs in order:
      no `status` for `all`, then always `page` and `limit`. */
  function QueryParams(filter: StatusFilter, page: nat, limit: nat): (ps: seq<(string, string)>)
    ensures |ps| == (if filter.All? then 2 else 3)
    ensures ps[|ps| - 2] == ("page", NatToString(page)) && ps[|ps| - 1] == ("limit", NatToString(limit))
  {
    (if filter.All? then [] else [("status", StatusName(filter.status))])
      + [("page", NatToString(page)), ("limit", NatToString(limit))]
  }

  /** `searchParams.get(name)`: the first value of that name. */
  function Get(ps: seq<(string, string)>, name: string): (r: Option<string>)
    ensures r.Some? ==> exists i :: 0 <= i < |ps| && ps[i] == (name, r.value)
    ensures r.None? ==> forall i :: 0 <= i < |ps| ==> ps[i].0 != name
  {
    if ps == [] then None
    else if ps[0].0 == name then Some(ps[0].1)
    else
      var r := Get(ps[1..], name);
      assert r.Some? ==> ps[1..][0..] == ps[1..];
      r
  }

  /** What the listing route reads from a query string. */
  function ReadQuery(ps: seq<(string, string)>): AdminOrders.Query {
    AdminOrders.Query(Get(ps, "status"), Get(ps, "limit"), Get(ps, "page"))
  }

  function FilterOf(filter: StatusFilter): Option<Status> {
    if filter.All? then None else Some(filter.status)
  }

  /** The three parameters the route reads from the dashboard's query. */
  lemma ReadQueryOf(filter: StatusFilter, page: nat, limit: nat)
    ensures ReadQuery(QueryParams(filter, page, limit))
      == AdminOrders.Query(if filter.All? then None else Some(StatusName(filter.status)),
                           Some(NatToString(limit)), Some(NatToString(page)))
  {
    var ps := QueryParams(filter, page, limit);
    assert "status" != "page" && "status" != "limit" && "page" != "limit";
    if filter.Only? {
      assert Get(ps, "status") == Some(StatusName(filter.status));
      assert ps[1..] == [("page", NatToString(page)), ("limit", NatToString(limit))];
    }
  }

  /** The route reads back exactly the page, size and filter the dashboard
      asked for. */
  lemma QueryReadBack(filter: StatusFilter, page: nat, limit: nat)
    ensures var q := ReadQuery(QueryParams(filter, page, limit));
      && AdminOrders.Page(q) == Some(page)
      && AdminOrders.Limit(q) == Some(limit)
      && AdminOrders.StatusFilter(q.status) == FilterOf(filter)
  {
    ReadQueryOf(filter, page, limit);
    AdminOrders.GivenUsed(page, AdminOrders.FirstPage);
    AdminOrders.GivenUsed(limit, AdminOrders.DefaultLimit);
    if filter.Only? {
      ParseStatusName(filter.status);
    }
  }

  /** `handleStatusChange`'s list update: the orders with the id get the
      new status, the rest stay as they are. */
  function SetStatus(orders: seq<Order>, id: string, st: Status): (r: seq<Order>)
    ensures |r| == |orders|
    ensures forall i :: 0 <= i < |r| ==> r[i].id == orders[i].id
    ensures forall i :: 0 <= i < |r| && orders[i].id != id ==> r[i] == orders[i]
    ensures forall i :: 0 <= i < |r| && orders[i].id == id ==> r[i] == orders[i].(status := st)
  {
    seq(|orders|, i requires 0 <= i < |orders| =>
      if orders[i].id == id then orders[i].(status := st) else orders[i])
  }

  predicate UniqueIds(orders: seq<Order>) {
    forall i, j :: 0 <= i < j < |orders| ==> orders[i].id != orders[j].id
  }

  /** With distinct ids, the change touches exactly one order. */
  lemma SetStatusOne(orders: seq<Order>, k: nat, st: Status)
    requires UniqueIds(orders) && k < |orders|
    ensures SetStatus(orders, orders[k].id, st) == orders[..k] + [orders[k].(status := st)] + orders[k + 1..]
  {
    var r := SetStatus(orders, orders[k].id, st);
    var s := orders[..k] + [orders[k].(status := st)] + orders[k + 1..];
    assert |r| == |s|;
    forall i | 0 <= i < |r| ensures r[i] == s[i] {
      if i < k {
        assert orders[i].id != orders[k].id;
      } else if i > k {
        assert orders[k].id != orders[i].id;
        assert s[i] == orders[i];
      }
    }
  }

  /** The five counters of the statistics strip. */
  datatype Stats = Stats(total: nat, newOrders: nat, confirmed: nat, delivered: nat, canceled: nat)

  function Count(orders: seq<Order>, st: Status): nat {
    |Filter(orders, (o: Order) => o.status == st)|
  }

  function StatsOf(orders: seq<Order>): Stats {
    Stats(|orders|, Count(orders, New), Count(orders, Confirmed), Count(orders, Delivered), Count(orders, Canceled))
  }

  /** Every order has one of the four statuses, so the four counters add up
      to the total. */
  lemma {:induction false} CountsAddUp(orders: seq<Order>)
    ensures Count(orders, New) + Count(orders, Confirmed) + Count(orders, Delivered) + Count(orders, Canceled)
         == |orders|
  {
    if orders != [] {
      CountsAddUp(orders[1..]);
    }
  }

  /** Counting around one order: the orders before it, the order itself,
      and the orders after it. */
  lemma CountAround(pre: seq<Order>, x: Order, post: seq<Order>, c: Status)
    ensures Count(pre + [x] + post, c) == Count(pre, c) + (if x.status == c then 1 else 0) + Count(post, c)
  {
    var keep := (o: Order) => o.status == c;
    FilterConcat(pre + [x], post, keep);
    FilterConcat(pre, [x], keep);
    assert [x][1..] == [];
  }

  /** A status change moves one order from one counter to another. */
  lemma StatsAfterChange(orders: seq<Order>, k: nat, st: Status, c: Status)
    requires UniqueIds(orders) && k < |orders|
    ensures Count(SetStatus(orders, orders[k].id, st), c)
         == Count(orders, c) - (if orders[k].status == c then 1 else 0) + (if st == c then 1 else 0)
  {
    var pre, x, post := orders[..k], orders[k], orders[k + 1..];
    SetStatusOne(orders, k, st);
    assert orders == pre + [x] + post;
    CountAround(pre, x, post, c);
    CountAround(pre, x.(status := st), post, c);
  }

  /** `reduce((sum, o) => sum + o.totalPrice, 0)`. */
  function Sum(orders: seq<Order>): int {
    if orders == [] then 0 else orders[0].totalPrice + Sum(orders[1..])
  }

  lemma {:induction false} SumConcat(a: seq<Order>, b: seq<Order>)
    ensures Sum(a + b) == Sum(a) + Sum(b)
  {
    if a != [] {
      assert (a + b)[1..] == a[1..] + b;
      SumConcat(a[1..], b);
    } else {
      assert a + b == b;
    }
  }

  /** `totalRevenue`: the total of the delivered orders on the page. */
  function Revenue(orders: seq<Order>): int {
    Sum(Filter(orders, (o: Order) => o.status == Delivered))
  }

  /** What one order adds to the revenue. */
  function Share(o: Order): int { if o.status == Delivered then o.totalPrice else 0 }

  lemma RevenueConcat(a: seq<Order>, b: seq<Order>)
    ensures Revenue(a + b) == Revenue(a) + Revenue(b)
  {
    FilterConcat(a, b, (o: Order) => o.status == Delivered);
    SumConcat(Filter(a, (o: Order) => o.status == Delivered), Filter(b, (o: Order) => o.status == Delivered));
  }

  /** A status change on the list changes the revenue by the order's share
      before and after: marking an order delivered adds its total, moving a
      delivered order away removes it. */
  lemma RevenueAfterChange(orders: seq<Order>, k: nat, st: Status)
    requires UniqueIds(orders) && k < |orders|
    ensures Revenue(SetStatus(orders, orders[k].id, st))
         == Revenue(orders) - Share(orders[k]) + Share(orders[k].(status := st))
  {
    var a := orders[..k];
    var b := orders[k + 1..];
    SetStatusOne(orders, k, st);
    assert orders == a + [orders[k]] + b;
    RevenueConcat(a + [orders[k]], b);
    RevenueConcat(a, [orders[k]]);
    RevenueConcat(a + [orders[k].(status := st)], b);
    RevenueConcat(a, [orders[k].(status := st)]);
    assert [orders[k]][1..] == [];
    assert [orders[k].(status := st)][1..] == [];
  }

  /** `Math.ceil(totalOrders / itemsPerPage) || 1`: never below 1, and
      enough pages for every order. */
  function TotalPages(total: nat, perPage: nat): (r: nat)
    requires perPage > 0
    ensures r >= 1
    ensures total <= r * perPage
    ensures total > 0 ==> (r - 1) * perPage < total
    ensures total == 0 ==> r == 1
  {
    AdminOrders.CeilDivBounds(total, perPage);
    var c := (total + perPage - 1) / perPage;
    if c == 0 then 1 else c
  }

  /** For a non-empty listing this is the route's own `totalPages`. */
  lemma TotalPagesAgree(total: nat, perPage: nat)
    requires perPage > 0 && total > 0
    ensures AdminOrders.TotalPages(total, perPage) == Some(TotalPages(total, perPage) as int)
  {
  }

  /** `itemsPerPage` for a window width: 4 on narrow screens, 20 otherwise. */
  function ItemsPerPage(width: int): (r: nat)
    ensures r == 4 || r == 20
    ensures width < 640 <==> r == 4
  {
    if width < 640 then 4 else 20
  }

  /** A narrow screen never needs fewer pages than a wide one. */
  lemma NarrowNeedsMorePages(total: nat, narrow: int, wide: int)
    requires narrow < 640 <= wide
    ensures TotalPages(total, ItemsPerPage(narrow)) >= TotalPages(total, ItemsPerPage(wide))
  {
  }

  /** One entry of the page-number bar. */
  datatype PageItem = PageButton(n: int) | Ellipsis(at: int)

  function ItemPage(item: PageItem): int {
    match item
    case PageButton(n) => n
    case Ellipsis(at) => at
  }

  /** `showPage`: the first and last page and the neighbours of the
      current one. */
  predicate Shown(page: int, current: int, total: int) {
    page == 1 || page == total || (current - 1 <= page && page <= current + 1)
  }

  predicate GapAt(page: int, current: int, total: int) {
    !Shown(page, current, total)
    && ((page == 2 && current > 4) || (page == total - 1 && current < total - 3))
  }

  /** What the bar draws for one page number. */
  function Item(page: int, current: int, total: int): (r: seq<PageItem>)
    ensures |r| <= 1 && forall i :: 0 <= i < |r| ==> ItemPage(r[i]) == page
  {
    if GapAt(page, current, total) then [Ellipsis(page)]
    else if !Shown(page, current, total) then []
    else [PageButton(page)]
  }

  /** The entries for pages `from` to `total`, in page order. */
  function Items(from: int, current: int, total: int): (r: seq<PageItem>)
    decreases total - from + 1
    ensures forall i :: 0 <= i < |r| ==> from <= ItemPage(r[i]) <= total
  {
    if from > total then [] else Item(from, current, total) + Items(from + 1, current, total)
  }

  /** The page-number bar for `currentPage` of `totalPages`; with a single
      page no bar is drawn. */
  function PageBar(current: int, total: int): seq<PageItem> {
    if total <= 1 then [] else Items(1, current, total)
  }

  /** The bar shows a button for a page exactly when the page is the first,
      the last or next to the current one, and an ellipsis exactly in the
      two gap positions. */
  lemma {:induction false} ItemsExactly(from: int, current: int, total: int, p: int)
    decreases total - from + 1
    ensures PageButton(p) in Items(from, current, total)
       <==> from <= p <= total && Shown(p, current, total) && !GapAt(p, current, total)
    ensures Ellipsis(p) in Items(from, current, total) <==> from <= p <= total && GapAt(p, current, total)
  {
    if from <= total {
      ItemsExactly(from + 1, current, total, p);
    }
  }

  /** Gaps are never at a shown page, so the button rule is the plain
      `showPage` test. */
  lemma PageBarButtons(current: int, total: int, p: int)
    ensures PageButton(p) in PageBar(current, total) <==> total > 1 && 1 <= p <= total && Shown(p, current, total)
    ensures Ellipsis(p) in PageBar(current, total) <==> total > 1 && 1 <= p <= total && GapAt(p, current, total)
  {
    ItemsExactly(1, current, total, p);
  }

  predicate Increasing(r: seq<PageItem>) {
    forall i, j :: 0 <= i < j < |r| ==> ItemPage(r[i]) < ItemPage(r[j])
  }

  /** The entries run in increasing page order. */
  lemma {:induction false} ItemsIncreasing(from: int, current: int, total: int)
    decreases total - from + 1
    ensures Increasing(Items(from, current, total))
  {
    if from <= total {
      ItemsIncreasing(from + 1, current, total);
      var h := Item(from, current, total);
      var t := Items(from + 1, current, total);
      var r := h + t;
      assert r == Items(from, current, total);
      forall i, j | 0 <= i < j < |r| ensures ItemPage(r[i]) < ItemPage(r[j]) {
        if i < |h| {
          assert r[i] == h[i] && ItemPage(h[i]) == from;
          assert r[j] == t[j - |h|] && from + 1 <= ItemPage(t[j - |h|]);
        } else {
          assert r[i] == t[i - |h|] && r[j] == t[j - |h|];
        }
      }
    }
  }

  /** With more than one page the bar starts with page 1, ends with the
      last page and shows the current page when it is in range; with one
      page it is not drawn. */
  lemma PageBarEnds(current: int, total: int)
    ensures total <= 1 ==> PageBar(current, total) == []
    ensures var bar := PageBar(current, total);
      total > 1 ==>
        && |bar| > 0 && bar[0] == PageButton(1) && bar[|bar| - 1] == PageButton(total)
        && (1 <= current <= total ==> PageButton(current) in bar)
  {
    if total <= 1 {
      return;
    }
    var bar := PageBar(current, total);
    PageBarButtons(current, total, 1);
    PageBarButtons(current, total, total);
    PageBarButtons(current, total, current);
    ItemsIncreasing(1, current, total);
    assert |bar| > 0;
    assert forall j :: 0 <= j < |bar| ==> ItemPage(bar[0]) <= ItemPage(bar[j]) <= ItemPage(bar[|bar| - 1]);
    assert ItemPage(bar[0]) == 1 && ItemPage(bar[|bar| - 1]) == total;
    assert bar[0] in bar && bar[|bar| - 1] in bar;
  }

  /** How many of the candidate pages are at least `from`. */
  function CountFrom(xs: seq<int>, from: int): nat {
    if xs == [] then 0 else (if xs[0] >= from then 1 else 0) + CountFrom(xs[1..], from)
  }

  lemma {:induction false} CountFromStep(xs: seq<int>, from: int)
    ensures CountFrom(xs, from) >= CountFrom(xs, from + 1) + (if from in xs then 1 else 0)
  {
    if xs != [] {
      CountFromStep(xs[1..], from);
      assert from in xs ==> xs[0] == from || from in xs[1..];
    }
  }

  lemma {:induction false} ItemsBounded(from: int, current: int, total: int)
    decreases total - from + 1
    ensures |Items(from, current, total)|
         <= CountFrom([1, 2, current - 1, current, current + 1, total - 1, total], from)
  {
    var xs := [1, 2, current - 1, current, current + 1, total - 1, total];
    if from <= total {
      ItemsBounded(from + 1, current, total);
      CountFromStep(xs, from);
      if |Item(from, current, total)| > 0 {
        assert from in xs;
      }
    }
  }

  /** However many pages there are, the bar has at most seven entries. */
  lemma PageBarShort(current: int, total: int)
    ensures |PageBar(current, total)| <= 7
  {
    ItemsBounded(1, current, total);
    var xs := [1, 2, current - 1, current, current + 1, total - 1, total];
    CountFromAtMost(xs, 1);
  }

  lemma {:induction false} CountFromAtMost(xs: seq<int>, from: int)
    ensures CountFrom(xs, from) <= |xs|
  {
    if xs != [] {
      CountFromAtMost(xs[1..], from);
    }
  }

  /** What the listing request brought back to the page. */
  datatype Reply = Answered(resp: AdminOrders.Response) | NetworkFailure(message: string)

  const FetchFailed := "Failed to fetch orders"
  const FetchError := "An error occurred while fetching orders"

  /** The page's state. */
  class Page {
    var orders: seq<Order>
    var loading: bool
    var error: string
    var statusFilter: StatusFilter
    var currentPage: nat
    var itemsPerPage: nat
    var totalOrders: nat
    var stats: Stats
    var sentToLogin: bool

    ghost predicate Valid()
      reads this
    {
      currentPage >= 1 && (itemsPerPage == 4 || itemsPerPage == 20)
    }

    constructor ()
      ensures Valid()
      ensures orders == [] && loading && error == "" && statusFilter == All
      ensures currentPage == 1 && itemsPerPage == 4 && totalOrders == 0
      ensures stats == Stats(0, 0, 0, 0, 0) && !sentToLogin
    {
      orders := [];
      loading := true;
      error := "";
      statusFilter := All;
      currentPage := 1;
      itemsPerPage := 4;
      totalOrders := 0;
      stats := Stats(0, 0, 0, 0, 0);
      sentToLogin := false;
    }

    function Query(): seq<(string, string)>
      reads this
    {
      QueryParams(statusFilter, currentPage, itemsPerPage)
    }

    function Pages(): (r: nat)
      reads this
      requires Valid()
      ensures r >= 1
    {
      TotalPages(totalOrders, itemsPerPage)
    }

    /** The end of `fetchOrders`: a 401 sends the admin to the login page,
        any other failure shows an error, a listing replaces the orders and
        the total (the page's length when the total is 0). */
    method FetchOrders(reply: Reply)
      modifies this
      ensures !loading
      ensures statusFilter == old(statusFilter) && currentPage == old(currentPage)
      ensures itemsPerPage == old(itemsPerPage) && stats == old(stats)
      ensures reply == Answered(AdminOrders.Unauthorized) ==>
        sentToLogin && orders == old(orders) && totalOrders == old(totalOrders) && error == old(error)
      ensures reply == Answered(AdminOrders.ServerError) ==>
        sentToLogin == old(sentToLogin) && orders == old(orders) && totalOrders == old(totalOrders)
        && error == FetchFailed
      ensures reply.NetworkFailure? ==>
        sentToLogin == old(sentToLogin) && orders == old(orders) && totalOrders == old(totalOrders)
        && error == (if reply.message != "" then reply.message else FetchError)
      ensures reply.Answered? && reply.resp.Listed? ==>
        sentToLogin == old(sentToLogin) && orders == reply.resp.orders && error == ""
        && totalOrders == (if reply.resp.total != 0 then reply.resp.total else |reply.resp.orders|)
      ensures old(Valid()) ==> Valid()
    {
      match reply {
        case Answered(resp) =>
          match resp {
            case Unauthorized =>
              sentToLogin := true;
            case ServerError =>
              error := FetchFailed;
            case Listed(found, total, _, _, _) =>
              orders := found;
              totalOrders := if total != 0 then total else |found|;
              error := "";
          }
        case NetworkFailure(message) =>
          error := if message != "" then message else FetchError;
      }
      loading := false;
    }

    /** `fetchAllStats`: the counters follow a successful listing and are
        kept otherwise. */
    method FetchAllStats(resp: AdminOrders.Response)
      modifies this
      ensures resp.Listed? ==> stats == StatsOf(resp.orders)
      ensures !resp.Listed? ==> stats == old(stats)
      ensures orders == old(orders) && loading == old(loading) && error == old(error)
      ensures statusFilter == old(statusFilter) && currentPage == old(currentPage)
      ensures itemsPerPage == old(itemsPerPage) && totalOrders == old(totalOrders)
      ensures sentToLogin == old(sentToLogin)
    {
      if resp.Listed? {
        stats := StatsOf(resp.orders);
      }
    }

    /** `handleStatusChange`: the list changes only when the update
        succeeds; on failure the error goes back to the card (`threw`). */
    method HandleStatusChange(orderId: string, newStatus: Status, ok: bool) returns (threw: bool)
      modifies this
      ensures threw <==> !ok
      ensures orders == if ok then SetStatus(old(orders), orderId, newStatus) else old(orders)
      ensures loading == old(loading) && error == old(error) && stats == old(stats)
      ensures statusFilter == old(statusFilter) && currentPage == old(currentPage)
      ensures itemsPerPage == old(itemsPerPage) && totalOrders == old(totalOrders)
      ensures sentToLogin == old(sentToLogin)
    {
      if !ok {
        return true;
      }
      orders := SetStatus(orders, orderId, newStatus);
      threw := false;
    }

    /** `handleResize`. */
    method Resize(width: int)
      modifies this
      ensures itemsPerPage == ItemsPerPage(width)
      ensures orders == old(orders) && loading == old(loading) && error == old(error)
      ensures statusFilter == old(statusFilter) && currentPage == old(currentPage)
      ensures totalOrders == old(totalOrders) && stats == old(stats) && sentToLogin == old(sentToLogin)
      ensures old(Valid()) ==> Valid()
    {
      itemsPerPage := ItemsPerPage(width);
    }

    /** A click on a filter button. Choosing a different filter runs the
        effect on `statusFilter`, which sends the page back to 1; choosing
        the current one changes no state, so the effect does not run and the
        page stays. */
    method SelectFilter(f: StatusFilter)
      modifies this
      ensures statusFilter == f
      ensures currentPage == if f != old(statusFilter) then 1 else old(currentPage)
      ensures orders == old(orders) && loading == old(loading) && error == old(error)
      ensures itemsPerPage == old(itemsPerPage) && totalOrders == old(totalOrders)
      ensures stats == old(stats) && sentToLogin == old(sentToLogin)
      ensures old(Valid()) ==> Valid()
    {
      if f != statusFilter {
        statusFilter := f;
        currentPage := 1;
      }
    }

    /** `goToPage`: only a page between 1 and `totalPages` is taken. */
    method GoToPage(page: int)
      requires Valid()
      modifies this
      ensures Valid()
      ensures currentPage == if 1 <= page <= old(Pages()) then page else old(currentPage)
      ensures 1 <= currentPage <= old(Pages()) || currentPage == old(currentPage)
      ensures orders == old(orders) && loading == old(loading) && error == old(error)
      ensures statusFilter == old(statusFilter) && itemsPerPage == old(itemsPerPage)
      ensures totalOrders == old(totalOrders) && stats == old(stats) && sentToLogin == old(sentToLogin)
    {
      if 1 <= page <= Pages() {
        currentPage := page;
      }
    }
  }

  /** The route's answer when the window exists: a non-negative skip. */
  lemma WindowListed(orders: seq<Order>, filter: Option<Status>, page: nat, limit: nat,
                     resp: AdminOrders.Response)
    requires page >= 1
    requires var selected := AdminOrders.Selected(orders, filter);
      var w := AdminOrders.Window(AdminOrders.Newest(selected), AdminOrders.SkipOf(page, limit), limit);
      resp == if w.None? then AdminOrders.ServerError
              else AdminOrders.Listed(w.value, |selected|, page, limit, AdminOrders.TotalPages(|selected|, limit))
    ensures var selected := AdminOrders.Selected(orders, filter);
      var w := AdminOrders.Window(AdminOrders.Newest(selected), AdminOrders.SkipOf(page, limit), limit);
      && w.Some?
      && resp == AdminOrders.Listed(w.value, |selected|, page, limit, AdminOrders.TotalPages(|selected|, limit))
  {
    var skip := AdminOrders.SkipOf(page, limit);
    assert skip >= 0 by {
      var before: nat := page - 1;
      assert skip == before * limit;
    }
  }

  /** The request `fetchOrders` sends, answered by the route over the
      stored orders: signed in and connected, the sorted, filtered window
      for the page's own filter, page and size. */
  method Request(page: Page, store: OrderStore, session: Option<string>, connected: bool)
      returns (resp: AdminOrders.Response)
    requires page.Valid()
    ensures !Session.Authenticated(session) ==> resp == AdminOrders.Unauthorized
    ensures Session.Authenticated(session) && !connected ==> resp == AdminOrders.ServerError
    ensures Session.Authenticated(session) && connected ==>
      var selected := AdminOrders.Selected(store.orders, FilterOf(page.statusFilter));
      var skip := AdminOrders.SkipOf(page.currentPage, page.itemsPerPage);
      var w := AdminOrders.Window(AdminOrders.Newest(selected), skip, page.itemsPerPage);
      && w.Some?
      && resp == AdminOrders.Listed(w.value, |selected|, page.currentPage, page.itemsPerPage,
                                    AdminOrders.TotalPages(|selected|, page.itemsPerPage))
  {
    var q := ReadQuery(page.Query());
    QueryReadBack(page.statusFilter, page.currentPage, page.itemsPerPage);
    resp := AdminOrders.List(store, session, connected, q);
    if Session.Authenticated(session) && connected {
      WindowListed(store.orders, FilterOf(page.statusFilter), page.currentPage, page.itemsPerPage, resp);
    }
  }

  /** One poll of the listing: the request, then its handling. Signed in
      and connected, the page then shows the window the route computes for
      the filter, page and size it had. */
  method Refresh(page: Page, store: OrderStore, session: Option<string>, connected: bool)
    requires page.Valid()
    modifies page
    ensures page.Valid()
    ensures page.statusFilter == old(page.statusFilter) && page.currentPage == old(page.currentPage)
    ensures page.itemsPerPage == old(page.itemsPerPage)
    ensures Session.Authenticated(session) && connected ==>
      var selected := AdminOrders.Selected(store.orders, FilterOf(old(page.statusFilter)));
      var skip := AdminOrders.SkipOf(old(page.currentPage), old(page.itemsPerPage));
      && page.orders == AdminOrders.Window(AdminOrders.Newest(selected), skip, old(page.itemsPerPage)).value
      && page.error == ""
      && (|selected| > 0 ==> page.totalOrders == |selected|)
    ensures !Session.Authenticated(session) ==> page.sentToLogin
  {
    var resp := Request(page, store, session, connected);
    page.FetchOrders(Answered(resp));
  }

  /** Every listed order with the id has the status. */
  predicate Agrees(orders: seq<Order>, id: string, st: Status) {
    forall i :: 0 <= i < |orders| && orders[i].id == id ==> orders[i].status == st
  }

  /** A click on a card's status button, with the page's handler as the
      card's update callback: a card that agreed with the list before
      agrees with it afterwards. */
  method ChangeFromCard(page: Page, card: OrderCard.Card, newStatus: Status, confirmed: bool, ok: bool)
    requires Agrees(page.orders, card.orderId, card.currentStatus)
    modifies page, card
    ensures Agrees(page.orders, card.orderId, card.currentStatus)
    ensures |page.orders| == |old(page.orders)|
  {
    var requested := card.HandleStatusChange(newStatus, confirmed, ok);
    if requested {
      var threw := page.HandleStatusChange(card.orderId, newStatus, ok);
    }
  }

  const StatsLimit: nat := 1000

  /** `?limit=1000`, with no status and no page. */
  function StatsQuery(): AdminOrders.Query {
    AdminOrders.Query(None, Some(NatToString(StatsLimit)), None)
  }

  lemma StatsQueryReads()
    ensures AdminOrders.Limit(StatsQuery()) == Some(StatsLimit)
    ensures AdminOrders.Page(StatsQuery()) == Some(1)
    ensures StatsQuery().status.None?
  {
    AdminOrders.DefaultUsed(AdminOrders.FirstPage);
    AdminOrders.GivenUsed(StatsLimit, AdminOrders.DefaultLimit);
  }

  /** The statistics request, `limit=1000` and no other parameter,
      answered by the route: signed in and connected, the 1000 newest
      orders, or every stored order when there are fewer. */
  method StatsRequest(store: OrderStore, session: Option<string>, connected: bool)
      returns (resp: AdminOrders.Response)
    ensures !Session.Authenticated(session) ==> resp == AdminOrders.Unauthorized
    ensures Session.Authenticated(session) && !connected ==> resp == AdminOrders.ServerError
    ensures Session.Authenticated(session) && connected ==>
      resp.Listed? && |resp.orders| == Min(StatsLimit, |store.orders|) && resp.total == |store.orders|
  {
    var q := StatsQuery();
    StatsQueryReads();
    AdminOrders.UnknownStatusListsAll(store.orders, None);
    resp := AdminOrders.List(store, session, connected, q);
  }

  /** The statistics refresh: the counters cover the 1000 newest orders,
      and they add up to the counted total. */
  method RefreshStats(page: Page, store: OrderStore, session: Option<string>, connected: bool)
    modifies page
    ensures Session.Authenticated(session) && connected ==>
      page.stats.total == Min(StatsLimit, |store.orders|)
      && page.stats.newOrders + page.stats.confirmed + page.stats.delivered + page.stats.canceled == page.stats.total
  {
    var resp := StatsRequest(store, session, connected);
    page.FetchAllStats(resp);
    if resp.Listed? {
      CountsAddUp(resp.orders);
    }
  }
}
