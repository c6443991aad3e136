/** `GET /api/admin/orders`: the session check, the optional status filter,
    the newest-first sort with `skip`/`limit` paging, and the pagination
    summary. */
module AdminOrders {
  import opened Wrappers
  import opened Text
  import opened Seqs
  import opened Orders
  import opened Session

  /** The three query parameters, as `searchParams.get` returns them. */
  datatype Query = Query(status: Option<string>, limit: Option<string>, page: Option<string>)

  /** `get(name) || fallback`: a missing or empty parameter takes the
      fallback. */
  function OrDefault(v: Option<string>, fallback: string): (r: string)
    ensures v.Some? && v.value != "" ==> r == v.value
    ensures v.None? || v.value == "" ==> r == fallback
  {
    if v.None? || v.value == "" then fallback else v.value
  }

  /** `parseInt(get(name) || fallback)`, the fallback being the decimal
      spelling of `d`. */
  function ParseOr(v: Option<string>, d: nat): Option<int> {
    ParseInt(OrDefault(v, NatToString(d)))
  }

  const DefaultLimit: nat := 50
  const FirstPage: nat := 1

  /** `limit` falls back to `'50'`, `page` to `'1'`. */
  function Limit(q: Query): Option<int> { ParseOr(q.limit, DefaultLimit) }

  function Page(q: Query): Option<int> { ParseOr(q.page, FirstPage) }

  /** The status filter: only a parameter naming one of the four statuses
      filters; anything else lists every order. */
  function StatusFilter(status: Option<string>): (r: Option<Status>)
    ensures r.Some? <==> status.Some? && ParseStatus(status.value).Some?
    ensures r.Some? ==> StatusName(r.value) == status.value
  {
    if status.None? then None else ParseStatus(status.value)
  }

  predicate Matches(filter: Option<Status>, o: Order) {
    filter.None? || o.status == filter.value
  }

  /** `Order.find(query)` before sorting, and what `countDocuments` counts. */
  function Selected(orders: seq<Order>, filter: Option<Status>): (r: seq<Order>)
    ensures |r| <= |orders|
  {
    Filter(orders, (o: Order) => Matches(filter, o))
  }

  /** `sort({ createdAt: -1 })`: newest first. */
  predicate NewerOrSame(a: Order, b: Order) { a.createdAt >= b.createdAt }

  function Newest(orders: seq<Order>): (r: seq<Order>)
    ensures multiset(r) == multiset(orders)
  {
    InsertionSort(orders, NewerOrSame)
  }

  /** `skip = (page - 1) * limit`. */
  function SkipOf(page: int, limit: int): int { (page - 1) * limit }

  function Abs(n: int): nat { if n < 0 then -n else n }

  /** `.skip(skip).limit(limit)` on the sorted cursor: a negative skip is
      refused by the database (`None`); a zero limit means no limit, and a
      negative one returns |limit| documents. */
  function Window(sorted: seq<Order>, skip: int, limit: int): (r: Option<seq<Order>>)
    ensures r.Some? <==> skip >= 0
  {
    if skip < 0 then None
    else
      var rest := Drop(sorted, skip);
      Some(if limit == 0 then rest else Take(rest, Abs(limit)))
  }

  /** `Math.ceil(total / limit)` where it is finite; `null` (here `None`)
      when the division by zero gives `Infinity` or `NaN`. */
  function TotalPages(total: nat, limit: int): (r: Option<int>)
    ensures r.Some? <==> limit != 0
    ensures limit > 0 ==> r.value * limit >= total && (r.value - 1) * limit < total
  {
    if limit == 0 then None
    else if limit > 0 then
      CeilDivBounds(total, limit);
      Some((total + limit - 1) / limit)
    else Some(-(total / -limit))
  }

  lemma CeilDivBounds(t: nat, l: int)
    requires l > 0
    ensures ((t + l - 1) / l) * l >= t && ((t + l - 1) / l - 1) * l < t
  {
    var c := (t + l - 1) / l;
    var m := (t + l - 1) % l;
    assert t + l - 1 == c * l + m && 0 <= m < l;
    assert (c - 1) * l == c * l - l;
  }

  datatype Response =
    | Listed(orders: seq<Order>, total: nat, page: int, limit: int, totalPages: Option<int>)
    | Unauthorized
    | ServerError
  {
    function Code(): int {
      match this
      case Listed(_, _, _, _, _) => 200
      case Unauthorized => 401
      case ServerError => 500
    }

    function Error(): string {
      match this
      case Listed(_, _, _, _, _) => ""
      case Unauthorized => "Unauthorized access"
      case ServerError => "An error occurred while fetching orders"
    }
  }

  /** The handler over the stored orders. `session` is the value of the
      `admin_session` cookie and `connected` whether the database connection
      succeeds. A parameter `parseInt` reads as `NaN` makes the skip `NaN`,
      which the database refuses. */
  method List(store: OrderStore, session: Option<string>, connected: bool, q: Query)
      returns (resp: Response)
    ensures !Authenticated(session) ==> resp == Unauthorized
    ensures Authenticated(session) && !connected ==> resp == ServerError
    ensures Authenticated(session) && connected && (Limit(q).None? || Page(q).None?) ==> resp == ServerError
    ensures Authenticated(session) && connected && Limit(q).Some? && Page(q).Some? ==>
      var limit := Limit(q).value;
      var page := Page(q).value;
      var selected := Selected(store.orders, StatusFilter(q.status));
      var w := Window(Newest(selected), SkipOf(page, limit), limit);
      resp == if w.None? then ServerError
              else Listed(w.value, |selected|, page, limit, TotalPages(|selected|, limit))
  {
    if !Authenticated(session) {
      return Unauthorized;
    }
    if !connected {
      return ServerError;
    }
    var limit := Limit(q);
    var page := Page(q);
    if limit.None? || page.None? {
      return ServerError;
    }
    var filter := StatusFilter(q.status);
    var skip := SkipOf(page.value, limit.value);
    var found := Window(Newest(Selected(store.orders, filter)), skip, limit.value);
    if found.None? {
      return ServerError;
    }
    var total := |Selected(store.orders, filter)|;
    resp := Listed(found.value, total, page.value, limit.value, TotalPages(total, limit.value));
  }

  /** Without parameters the route lists the first 50 of all orders. */
  lemma Defaults()
    ensures Limit(Query(None, None, None)) == Some(50)
    ensures Page(Query(None, None, None)) == Some(1)
    ensures StatusFilter(None).None?
  {
    DefaultUsed(DefaultLimit);
    DefaultUsed(FirstPage);
  }

  /** A missing parameter reads as its fallback. */
  lemma DefaultUsed(d: nat)
    ensures ParseOr(None, d) == Some(d)
  {
    ParseIntOfNatToString(d);
  }

  /** A parameter holding the decimal spelling of a number reads as that
      number; an empty one reads as the fallback. */
  lemma GivenUsed(n: nat, d: nat)
    ensures ParseOr(Some(NatToString(n)), d) == Some(n)
    ensures ParseOr(Some(""), d) == Some(d)
  {
    var given := NatToString(n);
    assert OrDefault(Some(given), NatToString(d)) == given;
    assert OrDefault(Some(""), NatToString(d)) == NatToString(d);
    ParseIntOfNatToString(n);
    ParseIntOfNatToString(d);
  }

  /** With no radix given, `parseInt` also reads hexadecimal, so `?page=0x2`
      asks for page 2. */
  lemma HexPageRead()
    ensures Page(Query(None, None, Some("0x2"))) == Some(2)
  {
    ParseIntReadsHex("", "", 'x', "2", "");
    assert "" + "" + ['0', 'x'] + "2" + "" == "0x2";
  }

  /** A parameter that is not one of the four statuses lists every order. */
  lemma UnknownStatusListsAll(orders: seq<Order>, status: Option<string>)
    requires status.None? || ParseStatus(status.value).None?
    ensures Selected(orders, StatusFilter(status)) == orders
  {
    FilterAll(orders, (o: Order) => Matches(StatusFilter(status), o));
  }

  /** The selection holds exactly the stored orders with the filtered status,
      each as often as it is stored. */
  lemma {:induction false} SelectedExactly(orders: seq<Order>, filter: Option<Status>, o: Order)
    ensures multiset(Selected(orders, filter))[o] == if Matches(filter, o) then multiset(orders)[o] else 0
    ensures o in Selected(orders, filter) <==> o in orders && Matches(filter, o)
  {
    FilterCount(orders, (o: Order) => Matches(filter, o), o);
    assert o in Selected(orders, filter) <==> multiset(Selected(orders, filter))[o] > 0;
    assert o in orders <==> multiset(orders)[o] > 0;
  }

  lemma NewestSorted(orders: seq<Order>)
    ensures Sorted(Newest(orders), NewerOrSame)
  {
    InsertionSortSorted(orders, NewerOrSame);
  }

  /** Where a window of the sorted orders ends. */
  function WindowEnd(n: nat, skip: nat, limit: int): nat {
    if limit == 0 then n else Min(skip, n) + Min(Abs(limit), n - Min(skip, n))
  }

  /** A listed page is the slice of the sorted orders from the skip on, at
      most |limit| long. */
  lemma WindowIsSlice(sorted: seq<Order>, skip: int, limit: int)
    requires skip >= 0
    ensures Min(skip, |sorted|) <= WindowEnd(|sorted|, skip, limit) <= |sorted|
    ensures Window(sorted, skip, limit).value == sorted[Min(skip, |sorted|)..WindowEnd(|sorted|, skip, limit)]
    ensures limit != 0 ==> |Window(sorted, skip, limit).value| <= Abs(limit)
  {
  }

  /** A listed page is newest first. */
  lemma PageSorted(orders: seq<Order>, filter: Option<Status>, skip: int, limit: int)
    requires skip >= 0
    ensures Sorted(Window(Newest(Selected(orders, filter)), skip, limit).value, NewerOrSame)
  {
    var sorted := Newest(Selected(orders, filter));
    WindowIsSlice(sorted, skip, limit);
    NewestSorted(Selected(orders, filter));
    SortedSlice(sorted, Min(skip, |sorted|), WindowEnd(|sorted|, skip, limit), NewerOrSame);
  }

  /** A listed page holds only stored orders with the filtered status. */
  lemma PageMatches(orders: seq<Order>, filter: Option<Status>, skip: int, limit: int)
    requires skip >= 0
    ensures var w := Window(Newest(Selected(orders, filter)), skip, limit).value;
      forall i :: 0 <= i < |w| ==> Matches(filter, w[i]) && w[i] in orders
  {
    var sorted := Newest(Selected(orders, filter));
    var w := Window(sorted, skip, limit).value;
    WindowIsSlice(sorted, skip, limit);
    forall i | 0 <= i < |w| ensures Matches(filter, w[i]) && w[i] in orders {
      assert w[i] == sorted[Min(skip, |sorted|) + i];
      assert w[i] in multiset(sorted);
      SelectedExactly(orders, filter, w[i]);
    }
  }

  /** A page that starts at or past the end of the selection is empty. */
  lemma PastEndEmpty(orders: seq<Order>, skip: int, limit: int)
    requires skip >= |orders|
    ensures Window(orders, skip, limit) == Some([])
  {
  }

  /** With a positive limit and a page from 1 on, the page has orders
      exactly when its number is at most `totalPages`. */
  lemma PageFilledIff(sorted: seq<Order>, page: int, limit: int)
    requires limit > 0 && page >= 1
    ensures |Window(sorted, SkipOf(page, limit), limit).value| > 0
       <==> page <= TotalPages(|sorted|, limit).value
  {
    var t := |sorted|;
    var c := TotalPages(t, limit).value;
    var skip := SkipOf(page, limit);
    assert skip == (page - 1) * limit >= 0;
    if page <= c {
      assert (page - 1) * limit <= (c - 1) * limit;
    } else {
      assert (page - 1) * limit >= c * limit;
    }
  }

  /** After a successful login, the listing answers with the orders. */
  method ListAfterLogin(store: OrderStore, jar: Jar, production: bool) returns (resp: Response)
    requires jar.cookies == map[CookieName := SessionCookie(production)]
    ensures resp.Listed?
    ensures resp.total == |store.orders| && resp.limit == 50 && resp.page == 1
    ensures resp.orders == Take(Newest(store.orders), 50)
  {
    Defaults();
    UnknownStatusListsAll(store.orders, None);
    resp := List(store, jar.Get(CookieName), true, Query(None, None, None));
  }
}
