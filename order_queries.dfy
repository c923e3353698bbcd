/** The read-only queries of `orders_service.py`: `get_client_orders`,
    `search_orders` and `get_order_statistics`, over the `orders` table
    joined with `clients`. */
module OrderQueries {

  import opened Wrappers
  import opened Text
  import opened Dates
  import opened Tables
  import opened Sorting
  import opened Grouping
  import opened Selection
  import opened Clients
  import opened Orders

  /** `to_dict()` of every row. */
  function Dicts(rows: seq<Order>, clients: map<int, Client>): (r: seq<OrderDict>)
    ensures |r| == |rows| && forall i | 0 <= i < |rows| :: r[i] == Orders.ToDict(rows[i], clients)
  {
    seq(|rows|, i requires 0 <= i < |rows| => Orders.ToDict(rows[i], clients))
  }

  // ---------------------------------------------------------------------
  // Sort orders

  /** SQLite's ascending order on a nullable date: NULL first. */
  predicate DateAsc(a: Option<CalendarDate>, b: Option<CalendarDate>) {
    a.None? || (b.Some? && Le(a.value, b.value))
  }

  datatype SortColumn = ByOrderDate | ByTotalAmount | ByClientName

  /** The `sort_by` choice; anything unknown falls back to the order date. */
  function Column(sortBy: Option<string>): (c: SortColumn)
    ensures c == ByTotalAmount <==> sortBy == Some("total_amount")
    ensures c == ByClientName <==> sortBy == Some("client_name")
  {
    if sortBy == Some("total_amount") then ByTotalAmount
    else if sortBy == Some("client_name") then ByClientName
    else ByOrderDate
  }

  /** The owner's last name, the `client_name` sort key. */
  function LastNameOf(clients: map<int, Client>, o: Order): string {
    if o.clientId in clients then clients[o.clientId].lastName else ""
  }

  predicate ColumnLe(clients: map<int, Client>, col: SortColumn, a: Order, b: Order) {
    match col
    case ByOrderDate => DateAsc(a.orderDate, b.orderDate)
    case ByTotalAmount => a.totalAmount <= b.totalAmount
    case ByClientName => StrLe(LastNameOf(clients, a), LastNameOf(clients, b))
  }

  /** `order_by(column.asc())`, or `.desc()` for any other `sort_order`. */
  predicate OrderBefore(clients: map<int, Client>, col: SortColumn, asc: bool, a: Order, b: Order) {
    if asc then ColumnLe(clients, col, a, b) else ColumnLe(clients, col, b, a)
  }

  function OrderLe(clients: map<int, Client>, col: SortColumn, asc: bool): (Order, Order) -> bool {
    (a, b) => OrderBefore(clients, col, asc, a, b)
  }

  lemma ColumnTotal(clients: map<int, Client>, col: SortColumn, a: Order, b: Order)
    ensures ColumnLe(clients, col, a, b) || ColumnLe(clients, col, b, a)
  {
    if col == ByClientName {
      StrLeTotal(LastNameOf(clients, a), LastNameOf(clients, b));
    }
  }

  lemma ColumnTransitive(clients: map<int, Client>, col: SortColumn, a: Order, b: Order, c: Order)
    requires ColumnLe(clients, col, a, b) && ColumnLe(clients, col, b, c)
    ensures ColumnLe(clients, col, a, c)
  {
    if col == ByClientName {
      StrLeTransitive(LastNameOf(clients, a), LastNameOf(clients, b), LastNameOf(clients, c));
    }
  }

  lemma OrderLeTotal(clients: map<int, Client>, col: SortColumn, asc: bool)
    ensures TotalPreorder(OrderLe(clients, col, asc))
  {
    var le := OrderLe(clients, col, asc);
    forall a, b ensures le(a, b) || le(b, a) {
      ColumnTotal(clients, col, a, b);
    }
    forall a, b, c | le(a, b) && le(b, c) ensures le(a, c) {
      if asc {
        ColumnTransitive(clients, col, a, b, c);
      } else {
        ColumnTransitive(clients, col, c, b, a);
      }
    }
  }

  // ---------------------------------------------------------------------
  // get_client_orders

  /** `get_client_orders`: the client's orders, latest first, undated last. */
  function ClientOrders(clients: map<int, Client>, orders: map<int, Order>, cid: int): (r: seq<OrderDict>)
    ensures |r| == Count(Rows(orders), OfClientId(cid))
  {
    SelectMembers(orders, OfClientId(cid), OrderLe(clients, ByOrderDate, false));
    Dicts(ClientOrderRows(orders, cid, clients), clients)
  }

  function ClientOrderRows(orders: map<int, Order>, cid: int, clients: map<int, Client>): seq<Order> {
    Select(orders, OfClientId(cid), OrderLe(clients, ByOrderDate, false))
  }

  function OfClientId(cid: int): Order -> bool {
    (o: Order) => o.clientId == cid
  }

  /** Exactly the client's orders are listed. */
  lemma ClientOrdersMembers(clients: map<int, Client>, orders: map<int, Order>, cid: int)
    ensures forall o | o in ClientOrderRows(orders, cid, clients) ::
              o.clientId == cid && exists k | k in orders :: orders[k] == o
    ensures forall k | k in orders && orders[k].clientId == cid :: orders[k] in ClientOrderRows(orders, cid, clients)
  {
    SelectMembers(orders, OfClientId(cid), OrderLe(clients, ByOrderDate, false));
    var r := ClientOrderRows(orders, cid, clients);
    forall o | o in r ensures o.clientId == cid {
      assert OfClientId(cid)(o);
    }
    forall k | k in orders && orders[k].clientId == cid ensures orders[k] in r {
      assert OfClientId(cid)(orders[k]);
    }
  }

  /** The latest order comes first and undated orders come last. */
  lemma ClientOrdersLatestFirst(clients: map<int, Client>, orders: map<int, Order>, cid: int)
    ensures var r := ClientOrderRows(orders, cid, clients);
            forall i, j | 0 <= i < j < |r| :: DateAsc(r[j].orderDate, r[i].orderDate)
  {
    var le := OrderLe(clients, ByOrderDate, false);
    OrderLeTotal(clients, ByOrderDate, false);
    SortBySorted(Filter(Rows(orders), OfClientId(cid)), le);
    var r := ClientOrderRows(orders, cid, clients);
    assert SortedBy(r, le);
    forall i, j | 0 <= i < j < |r| ensures DateAsc(r[j].orderDate, r[i].orderDate) {
      assert le(r[i], r[j]);
      assert OrderBefore(clients, ByOrderDate, false, r[i], r[j]);
    }
  }

  // ---------------------------------------------------------------------
  // search_orders

  /** The keys a `search_orders` call may give; `None` is an absent key. */
  datatype OrderSearch = OrderSearch(
    clientId: Option<int>,
    status: Option<string>,
    minAmount: Option<real>,
    maxAmount: Option<real>,
    startDate: Option<CalendarDate>,
    endDate: Option<CalendarDate>,
    clientName: Option<string>,
    orderNumber: Option<string>,
    sortBy: Option<string>,
    sortOrder: Option<string>,
    page: Option<int>,
    perPage: Option<int>)

  const DefaultPage: int := 1
  const DefaultPerPage: int := 50

  /** The inner join with `clients` and the conjunction of the given filters;
      a NULL date fails every date bound. */
  predicate Matches(clients: map<int, Client>, p: OrderSearch, o: Order) {
    && o.clientId in clients
    && (p.clientId.None? || o.clientId == p.clientId.value)
    && (p.status.None? || o.status == p.status)
    && (p.minAmount.None? || o.totalAmount >= p.minAmount.value)
    && (p.maxAmount.None? || o.totalAmount <= p.maxAmount.value)
    && (p.startDate.None? || (o.orderDate.Some? && Le(p.startDate.value, o.orderDate.value)))
    && (p.endDate.None? || (o.orderDate.Some? && Le(o.orderDate.value, p.endDate.value)))
    && (p.clientName.None? ||
        ILikeAscii(Some(clients[o.clientId].firstName), p.clientName.value) ||
        ILikeAscii(Some(clients[o.clientId].lastName), p.clientName.value))
    && (p.orderNumber.None? || ILikeAscii(Some(o.orderNumber), p.orderNumber.value))
  }

  function Matching(clients: map<int, Client>, orders: map<int, Order>, p: OrderSearch): seq<Order> {
    Filter(Rows(orders), o => Matches(clients, p, o))
  }

  function SortedMatches(clients: map<int, Client>, orders: map<int, Order>, p: OrderSearch): seq<Order> {
    SortBy(Matching(clients, orders, p), OrderLe(clients, Column(p.sortBy), p.sortOrder == Some("asc")))
  }

  /** `OFFSET offset LIMIT limit` in SQLite: a negative offset is 0 and a
      negative limit is no limit. */
  function Window<T>(s: seq<T>, offset: int, limit: int): (r: seq<T>)
    ensures limit >= 0 ==> |r| <= limit
    ensures var start := if offset < 0 then 0 else offset;
            forall i | 0 <= i < |r| :: start + i < |s| && r[i] == s[start + i]
    ensures var start := if offset < 0 then 0 else offset;
            |r| == if start >= |s| then 0 else if limit < 0 || start + limit > |s| then |s| - start else limit
  {
    var start := if offset < 0 then 0 else offset;
    var rest := if start >= |s| then [] else s[start..];
    if limit < 0 then rest else Take(rest, limit)
  }

  /** Python's `a // b`, which rounds toward negative infinity. */
  function FloorDiv(a: int, b: int): (q: int)
    requires b != 0
    ensures b > 0 ==> q * b <= a < q * b + b
    ensures b < 0 ==> q * b + b < a <= q * b
  {
    if b > 0 then a / b else (-a) / (-b)
  }

  datatype SearchPage = SearchPage(
    orders: seq<OrderDict>, totalCount: nat, page: int, perPage: int, totalPages: int)

  datatype SearchError =
    | Rejected(messages: seq<string>)   // the validator's errors
    | SearchFailed                      // an exception: "Ошибка поиска"

  /** The verdict of `validate_order_search_params`, whose code is not part of this model. */
  type SearchVerdict = OrderSearch -> (bool, seq<string>)

  function PageNumber(p: OrderSearch): int { p.page.GetOr(DefaultPage) }
  function PerPage(p: OrderSearch): int { p.perPage.GetOr(DefaultPerPage) }
  function Offset(p: OrderSearch): int { (PageNumber(p) - 1) * PerPage(p) }

  /** The rows of the requested page. */
  function PageRows(clients: map<int, Client>, orders: map<int, Order>, p: OrderSearch): seq<Order> {
    Window(SortedMatches(clients, orders, p), Offset(p), PerPage(p))
  }

  /** `math.ceil`-style page count `(total + per_page - 1) // per_page`. */
  function PageCount(total: nat, perPage: int): int
    requires perPage != 0
  {
    FloorDiv(total + perPage - 1, perPage)
  }

  /** `search_orders`. */
  function SearchOrders(clients: map<int, Client>, orders: map<int, Order>, p: OrderSearch, validate: SearchVerdict)
    : (r: Result<SearchPage, SearchError>)
    ensures r.Ok? ==> r.value.totalCount == |Matching(clients, orders, p)|
    ensures r.Ok? && r.value.perPage > 0 ==> |r.value.orders| <= r.value.perPage
  {
    PageRowsWindow(clients, orders, p);
    if !validate(p).0 then Err(Rejected(validate(p).1))
    else if PerPage(p) == 0 then Err(SearchFailed)   // ZeroDivisionError in total_pages
    else
      var total := |Matching(clients, orders, p)|;
      Ok(SearchPage(Dicts(PageRows(clients, orders, p), clients), total,
                    PageNumber(p), PerPage(p), PageCount(total, PerPage(p))))
  }

  /** A rejected search reports the validator's messages; an accepted one
      fails only for `per_page == 0`, and otherwise lists the page's rows,
      counting the matches before paging. */
  lemma SearchOrdersOutcome(clients: map<int, Client>, orders: map<int, Order>, p: OrderSearch, validate: SearchVerdict)
    ensures var r := SearchOrders(clients, orders, p, validate);
            && (!validate(p).0 ==> r == Err(Rejected(validate(p).1)))
            && (validate(p).0 ==> (r.Err? <==> PerPage(p) == 0))
            && (r.Ok? ==>
                  && r.value.totalCount == Count(Rows(orders), o => Matches(clients, p, o))
                  && r.value.page == PageNumber(p) && r.value.perPage == PerPage(p)
                  && r.value.orders == Dicts(PageRows(clients, orders, p), clients))
  {
  }

  /** The page is the `per_page` sorted matches from the offset on; a
      negative offset starts at the first match. */
  lemma PageRowsWindow(clients: map<int, Client>, orders: map<int, Order>, p: OrderSearch)
    ensures var rows := PageRows(clients, orders, p);
            var sorted := SortedMatches(clients, orders, p);
            var start := if Offset(p) < 0 then 0 else Offset(p);
            && (PerPage(p) >= 0 ==> |rows| <= PerPage(p))
            && forall i | 0 <= i < |rows| :: start + i < |sorted| && rows[i] == sorted[start + i]
  {
  }

  /** Every listed order passes every given filter. */
  lemma SearchOrdersSound(clients: map<int, Client>, orders: map<int, Order>, p: OrderSearch, o: Order)
    requires o in SortedMatches(clients, orders, p)
    ensures Matches(clients, p, o) && exists k | k in orders :: orders[k] == o
  {
    var m := Matching(clients, orders, p);
    assert o in multiset(SortedMatches(clients, orders, p));
    assert o in m;
    FilterSound(Rows(orders), o => Matches(clients, p, o), o);
    RowIn(orders, o);
  }

  /** Every order that passes the filters is among the sorted matches. */
  lemma SearchOrdersComplete(clients: map<int, Client>, orders: map<int, Order>, p: OrderSearch, k: int)
    requires k in orders && Matches(clients, p, orders[k])
    ensures orders[k] in SortedMatches(clients, orders, p)
  {
    assert orders[k] in Matching(clients, orders, p);
    assert orders[k] in multiset(Matching(clients, orders, p));
  }

  /** The sorted matches are in the requested order. */
  lemma SearchOrdersSorted(clients: map<int, Client>, orders: map<int, Order>, p: OrderSearch)
    ensures SortedBy(SortedMatches(clients, orders, p), OrderLe(clients, Column(p.sortBy), p.sortOrder == Some("asc")))
  {
    var le := OrderLe(clients, Column(p.sortBy), p.sortOrder == Some("asc"));
    assert TotalPreorder(le) by {
      OrderLeTotal(clients, Column(p.sortBy), p.sortOrder == Some("asc"));
    }
    var rows := Matching(clients, orders, p);
    SortBySorted(rows, le);
    assert SortedMatches(clients, orders, p) == SortBy(rows, le);
  }

  /** `total_pages` is the least number of pages of `per_page` rows that hold the count. */
  lemma PageCountCeil(total: nat, perPage: int)
    requires perPage > 0
    ensures var t := PageCount(total, perPage);
            && t >= 0
            && (total == 0 ==> t == 0)
            && (total > 0 ==> (t - 1) * perPage < total <= t * perPage)
  {
    var t := PageCount(total, perPage);
    assert t * perPage <= total + perPage - 1 < t * perPage + perPage;
    assert (t - 1) * perPage == t * perPage - perPage;
  }

  /** Without sort and paging keys the first page holds the 50 latest matches. */
  lemma SearchOrdersDefaults(clients: map<int, Client>, orders: map<int, Order>, p: OrderSearch)
    requires p.sortBy.None? && p.sortOrder.None? && p.page.None? && p.perPage.None?
    ensures PageNumber(p) == 1 && PerPage(p) == 50
    ensures PageRows(clients, orders, p) ==
            Take(SortBy(Matching(clients, orders, p), OrderLe(clients, ByOrderDate, false)), 50)
  {
  }

  /** `q` gives every filter `p` gives, with the same value, and possibly more. */
  predicate Narrows(q: OrderSearch, p: OrderSearch) {
    && (p.clientId.Some? ==> q.clientId == p.clientId)
    && (p.status.Some? ==> q.status == p.status)
    && (p.minAmount.Some? ==> q.minAmount == p.minAmount)
    && (p.maxAmount.Some? ==> q.maxAmount == p.maxAmount)
    && (p.startDate.Some? ==> q.startDate == p.startDate)
    && (p.endDate.Some? ==> q.endDate == p.endDate)
    && (p.clientName.Some? ==> q.clientName == p.clientName)
    && (p.orderNumber.Some? ==> q.orderNumber == p.orderNumber)
  }

  /** Adding filters never raises the total count. */
  lemma SearchNarrowing(clients: map<int, Client>, orders: map<int, Order>, p: OrderSearch, q: OrderSearch)
    requires Narrows(q, p)
    ensures |Matching(clients, orders, q)| <= |Matching(clients, orders, p)|
  {
    var rows := Rows(orders);
    forall o | o in rows && Matches(clients, q, o) ensures Matches(clients, p, o) { }
    CountMono(rows, o => Matches(clients, q, o), o => Matches(clients, p, o));
  }

  // ---------------------------------------------------------------------
  // get_order_statistics

  /** `start_date <= order_date <= end_date`; a NULL date is outside every period. */
  predicate InPeriod(o: Order, start: CalendarDate, end: CalendarDate) {
    o.orderDate.Some? && Le(start, o.orderDate.value) && Le(o.orderDate.value, end)
  }

  function InPeriodOf(start: CalendarDate, end: CalendarDate): Order -> bool {
    o => InPeriod(o, start, end)
  }

  /** The extra `client_id` filter, applied only when the argument is truthy. */
  predicate OfClient(o: Order, clientId: Option<int>) {
    clientId.None? || clientId.value == 0 || o.clientId == clientId.value
  }

  function OfClientOf(clientId: Option<int>): Order -> bool {
    o => OfClient(o, clientId)
  }

  function PeriodRows(orders: map<int, Order>, start: CalendarDate, end: CalendarDate): seq<Order> {
    Filter(Rows(orders), InPeriodOf(start, end))
  }

  function OrderStatus(o: Order): Option<string> { o.status }
  function OrderDay(o: Order): Option<CalendarDate> { o.orderDate }
  function OrderAmount(o: Order): real { o.totalAmount }
  function OrderClient(o: Order): int { o.clientId }

  /** `ORDER BY order_date` on the day groups. */
  predicate DayLe(a: Group<Option<CalendarDate>>, b: Group<Option<CalendarDate>>) {
    DateAsc(a.key, b.key)
  }

  lemma DayOrder()
    ensures TotalPreorder(DayLe)
  {
  }

  /** `ORDER BY sum(total_amount) DESC` on the client groups. */
  predicate RevenueDesc(a: Group<int>, b: Group<int>) { a.total >= b.total }

  lemma RevenueOrder()
    ensures TotalPreorder(RevenueDesc)
  {
  }

  const TopClientsLimit: nat := 10

  datatype Period = Period(startDate: CalendarDate, endDate: CalendarDate, days: int)

  datatype TopClient = TopClient(clientId: int, name: string, orders: nat, revenue: real)

  datatype OrderStats = OrderStats(
    period: Period,
    totalOrders: nat,
    totalRevenue: real,
    averageOrderValue: real,
    statusStats: seq<Group<Option<string>>>,
    dailyStats: seq<Group<Option<CalendarDate>>>,
    topClients: seq<TopClient>)

  /** The client groups of the period, largest revenue first: the inner join
      with `clients` grouped by client. */
  function ClientGroups(clients: map<int, Client>, rows: seq<Order>): seq<Group<int>> {
    SortBy(Tally(Filter(rows, (o: Order) => o.clientId in clients), OrderClient, OrderAmount), RevenueDesc)
  }

  /** `f"{first_name} {last_name}"` of a top client. */
  function TopName(clients: map<int, Client>, id: int): string {
    if id in clients then clients[id].firstName + " " + clients[id].lastName else ""
  }

  function TopClients(clients: map<int, Client>, rows: seq<Order>): (r: seq<TopClient>)
    ensures |r| <= TopClientsLimit
  {
    var top := Take(ClientGroups(clients, rows), TopClientsLimit);
    seq(|top|, i requires 0 <= i < |top| =>
      TopClient(top[i].key, TopName(clients, top[i].key), top[i].count, top[i].total))
  }

  /** `get_order_statistics(period_days, client_id)` on the day `today`;
      `None` where `today - timedelta(days=period_days)` leaves the calendar
      (Python's OverflowError). */
  function OrderStatistics(clients: map<int, Client>, orders: map<int, Order>, today: CalendarDate,
                           periodDays: int, clientId: Option<int>): (r: Option<OrderStats>)
    ensures r.None? <==> AddDays(today, -periodDays).None?
    ensures r.Some? ==> r.value.period == Period(AddDays(today, -periodDays).value, today, periodDays)
  {
    var start := AddDays(today, -periodDays);
    if start.None? then None
    else Some(StatsOver(clients, orders, start.value, today, periodDays, clientId))
  }

  /** The statistics of the period from `start` to `end`. */
  function StatsOver(clients: map<int, Client>, orders: map<int, Order>, start: CalendarDate, end: CalendarDate,
                     periodDays: int, clientId: Option<int>): OrderStats
  {
    var rows := PeriodRows(orders, start, end);
    var total := |Filter(rows, OfClientOf(clientId))|;
    var revenue := Sum(rows, OrderAmount);
    OrderStats(
      Period(start, end, periodDays),
      total,
      revenue,
      Average(revenue, total),
      Tally(rows, OrderStatus, OrderAmount),
      SortBy(Tally(rows, OrderDay, OrderAmount), DayLe),
      TopClients(clients, rows))
  }

  /** `total_revenue / total_orders if total_orders > 0 else 0`; the reports
      compute their averages the same way. */
  function Average(revenue: real, count: nat): (a: real)
    ensures count == 0 ==> a == 0.0
    ensures count > 0 ==> a * count as real == revenue
  {
    if count > 0 then revenue / count as real else 0.0
  }

  /** The period ends today and starts `period_days` days earlier; it exists
      whenever that day is on the calendar. */
  lemma StatisticsPeriod(clients: map<int, Client>, orders: map<int, Order>, today: CalendarDate,
                         periodDays: int, clientId: Option<int>)
    ensures var r := OrderStatistics(clients, orders, today, periodDays, clientId);
            && (r.Some? <==> AddDays(today, -periodDays).Some?)
            && (r.Some? ==>
                  && r.value == StatsOver(clients, orders, r.value.period.startDate, today, periodDays, clientId)
                  && r.value.period.endDate == today
                  && DayNumber(r.value.period.startDate) == DayNumber(today) - periodDays
                  && r.value.period.days == periodDays)
  {
  }

  /** `total_orders` counts exactly the orders dated inside the period (and
      of the client, when one is given). */
  lemma StatisticsCount(clients: map<int, Client>, orders: map<int, Order>, start: CalendarDate, end: CalendarDate,
                        periodDays: int, clientId: Option<int>)
    ensures StatsOver(clients, orders, start, end, periodDays, clientId).totalOrders ==
            Count(Rows(orders), (o: Order) => InPeriod(o, start, end) && OfClient(o, clientId))
  {
    var rows := PeriodRows(orders, start, end);
    assert StatsOver(clients, orders, start, end, periodDays, clientId).totalOrders
        == |Filter(rows, OfClientOf(clientId))|;
    CountFilter(Rows(orders), InPeriodOf(start, end), OfClientOf(clientId),
                (o: Order) => InPeriod(o, start, end) && OfClient(o, clientId));
  }

  /** The client argument changes `total_orders` only: revenue, the status,
      day and client breakdowns ignore it. */
  lemma StatisticsIgnoreClient(clients: map<int, Client>, orders: map<int, Order>, start: CalendarDate,
                               end: CalendarDate, periodDays: int, c1: Option<int>, c2: Option<int>)
    ensures var r1 := StatsOver(clients, orders, start, end, periodDays, c1);
            var r2 := StatsOver(clients, orders, start, end, periodDays, c2);
            && r1.period == r2.period
            && r1.totalRevenue == r2.totalRevenue
            && r1.statusStats == r2.statusStats
            && r1.dailyStats == r2.dailyStats
            && r1.topClients == r2.topClients
  {
  }

  /** The status counts add up to the number of orders in the period. */
  lemma StatusCountsCover(clients: map<int, Client>, orders: map<int, Order>, start: CalendarDate,
                          end: CalendarDate, periodDays: int, clientId: Option<int>)
    ensures GroupCounts(StatsOver(clients, orders, start, end, periodDays, clientId).statusStats)
            == |PeriodRows(orders, start, end)|
  {
    TallyCounts(PeriodRows(orders, start, end), OrderStatus, OrderAmount);
  }

  /** The day breakdown is in date order, one entry per day. */
  lemma DailyStatsOrdered(clients: map<int, Client>, orders: map<int, Order>, start: CalendarDate,
                          end: CalendarDate, periodDays: int, clientId: Option<int>)
    ensures var d := StatsOver(clients, orders, start, end, periodDays, clientId).dailyStats;
            SortedBy(d, DayLe) && forall i, j | 0 <= i < j < |d| :: d[i].key != d[j].key
  {
    var rows := PeriodRows(orders, start, end);
    var g := Tally(rows, OrderDay, OrderAmount);
    assert StatsOver(clients, orders, start, end, periodDays, clientId).dailyStats == SortBy(g, DayLe);
    TallyDistinct(rows, OrderDay, OrderAmount);
    DaysSorted(g);
  }

  /** Sorting day groups with distinct days puts them in date order and keeps the days distinct. */
  lemma DaysSorted(g: seq<Group<Option<CalendarDate>>>)
    requires forall a, b | 0 <= a < b < |g| :: g[a].key != g[b].key
    ensures var d := SortBy(g, DayLe);
            SortedBy(d, DayLe) && forall i, j | 0 <= i < j < |d| :: d[i].key != d[j].key
  {
    DayOrder();
    SortBySorted(g, DayLe);
    SortKeepsDistinct(g, GroupKey, DayLe);
  }

  function GroupKey<K>(g: Group<K>): K { g.key }

  /** Sorting entries whose keys are distinct keeps the keys distinct. */
  lemma SortKeepsDistinct<T, K>(g: seq<T>, key: T -> K, le: (T, T) -> bool)
    requires forall a, b | 0 <= a < b < |g| :: key(g[a]) != key(g[b])
    ensures var d := SortBy(g, le); forall i, j | 0 <= i < j < |d| :: key(d[i]) != key(d[j])
  {
    var d := SortBy(g, le);
    forall i, j | 0 <= i < j < |d| ensures key(d[i]) != key(d[j]) {
      DistinctAfterSort(g, d, key, i, j);
    }
  }

  /** A permutation of entries with distinct keys has distinct keys. */
  lemma DistinctAfterSort<T, K>(g: seq<T>, d: seq<T>, key: T -> K, i: int, j: int)
    requires multiset(d) == multiset(g)
    requires forall a, b | 0 <= a < b < |g| :: key(g[a]) != key(g[b])
    requires 0 <= i < j < |d|
    ensures key(d[i]) != key(d[j])
  {
    if key(d[i]) == key(d[j]) {
      assert d[i] in multiset(g);
      assert d[j] in multiset(g);
      var a :| 0 <= a < |g| && g[a] == d[i];
      var b :| 0 <= b < |g| && g[b] == d[j];
      if a == b {
        assert d[i] == d[j];
        assert multiset(d)[d[i]] >= 2 by {
          assert d == d[..j] + d[j..];
          assert multiset(d) == multiset(d[..j]) + multiset(d[j..]);
          assert d[i] in multiset(d[..j]);
          assert d[j] in multiset(d[j..]);
        }
        MultiplicityOne(g, key, a);
      }
    }
  }

  lemma MultiplicityOne<T, K>(g: seq<T>, key: T -> K, a: int)
    requires forall x, y | 0 <= x < y < |g| :: key(g[x]) != key(g[y])
    requires 0 <= a < |g|
    ensures multiset(g)[g[a]] == 1
  {
    if g != [] {
      assert g == [g[0]] + g[1..];
      if a == 0 {
        assert g[0] !in g[1..];
      } else {
        MultiplicityOne(g[1..], key, a - 1);
        assert g[a] != g[0];
      }
    }
  }

  /** At most ten clients, largest revenue first, each a client with orders
      in the period, named first name then last name. */
  lemma TopClientsSpec(clients: map<int, Client>, rows: seq<Order>)
    ensures var t := TopClients(clients, rows);
            && |t| <= TopClientsLimit
            && (forall i, j | 0 <= i < j < |t| :: t[i].revenue >= t[j].revenue)
            && (forall i | 0 <= i < |t| ::
                  && t[i].clientId in clients
                  && t[i].name == clients[t[i].clientId].firstName + " " + clients[t[i].clientId].lastName
                  && t[i].orders > 0)
  {
    var joined := Filter(rows, (o: Order) => o.clientId in clients);
    var g := Tally(joined, OrderClient, OrderAmount);
    var sorted := ClientGroups(clients, rows);
    RevenueOrder();
    SortBySorted(g, RevenueDesc);
    TakeSorted(sorted, TopClientsLimit, RevenueDesc);
    TallyKeysOccur(joined, OrderClient, OrderAmount);
    var top := Take(sorted, TopClientsLimit);
    forall i | 0 <= i < |top| ensures top[i].key in clients && top[i].count > 0 {
      assert top[i] in multiset(g);
      var k :| 0 <= k < |g| && g[k] == top[i];
      var x :| x in joined && OrderClient(x) == g[k].key;
    }
  }
}

