/** The counting parts of `export_service.py` (`ReportService`): the status
    labels, the figures of the client and order statistics sheets, the
    dashboard's top clients, and the refusal to export nothing. The
    spreadsheet writing itself is not modelled. */
module ReportService {

  import opened Wrappers
  import opened Tables
  import opened Sorting
  import opened Grouping
  import opened Clients
  import opened Orders
  import ClientQueries
  import OrderQueries

  // ---------------------------------------------------------------------
  // Status labels

  const PendingLabel := "В обработке"
  const CompletedLabel := "Выполнен"
  const CancelledLabel := "Отменен"

  /** `_get_status_display`: the label of a known status, anything else unchanged. */
  function StatusDisplay(status: Option<string>): (r: Option<string>)
    ensures status == Some("pending") ==> r == Some(PendingLabel)
    ensures status == Some("completed") ==> r == Some(CompletedLabel)
    ensures status == Some("cancelled") ==> r == Some(CancelledLabel)
    ensures status !in {Some("pending"), Some("completed"), Some("cancelled")} ==> r == status
  {
    match status
    case Some("pending") => Some(PendingLabel)
    case Some("completed") => Some(CompletedLabel)
    case Some("cancelled") => Some(CancelledLabel)
    case _ => status
  }

  /** A label is never a status, so showing a label again changes nothing. */
  lemma StatusDisplayIdempotent(status: Option<string>)
    ensures StatusDisplay(StatusDisplay(status)) == StatusDisplay(status)
  {
  }

  // ---------------------------------------------------------------------
  // Counting into a dictionary

  /** `stats[key(x)] = stats.get(key(x), 0) + 1` for every row in turn: the
      dictionary's keys in insertion order, and its counts. */
  method CountBy<T, K(==)>(rows: seq<T>, key: T -> K) returns (keys: seq<K>, counts: map<K, nat>)
    ensures keys == KeysOf(rows, key)
    ensures counts == CountMap(rows, key)
  {
    keys := [];
    counts := map[];
    CountStart(rows, key);
    var i := 0;
    while i < |rows|
      invariant 0 <= i <= |rows|
      invariant keys == KeysOf(rows[..i], key)
      invariant counts == CountMap(rows[..i], key)
    {
      ghost var keys0, counts0 := keys, counts;
      var k := key(rows[i]);
      if k in counts {
        counts := counts[k := counts[k] + 1];
      } else {
        keys := keys + [k];
        counts := counts[k := 1];
      }
      CountStep(rows, i, key, keys0, counts0, keys, counts);
      i := i + 1;
    }
    assert rows[..|rows|] == rows;
  }

  /** Before the loop: no keys and no counts. */
  lemma CountStart<T, K>(rows: seq<T>, key: T -> K)
    ensures KeysOf(rows[..0], key) == [] && CountMap(rows[..0], key) == map[]
  {
    assert rows[..0] == [];
  }

  /** One turn of the counting loop: the keys and counts of one more row. */
  lemma CountStep<T, K>(rows: seq<T>, i: nat, key: T -> K, keys: seq<K>, counts: map<K, nat>,
                        keys': seq<K>, counts': map<K, nat>)
    requires i < |rows|
    requires keys == KeysOf(rows[..i], key)
    requires counts == CountMap(rows[..i], key)
    requires keys' == if key(rows[i]) in counts then keys else keys + [key(rows[i])]
    requires counts' == counts[key(rows[i]) := if key(rows[i]) in counts then counts[key(rows[i])] + 1 else 1]
    ensures keys' == KeysOf(rows[..i + 1], key)
    ensures counts' == CountMap(rows[..i + 1], key)
  {
    var x := rows[i];
    assert rows[..i + 1] == rows[..i] + [x];
    CountsStep(rows[..i], x, key, keys, counts, keys', counts');
  }

  /** The keys and counts after one more row. */
  lemma CountsStep<T, K>(rows: seq<T>, x: T, key: T -> K, keys: seq<K>, counts: map<K, nat>,
                         keys': seq<K>, counts': map<K, nat>)
    requires keys == KeysOf(rows, key)
    requires counts == CountMap(rows, key)
    requires keys' == if key(x) in counts then keys else keys + [key(x)]
    requires counts' == counts[key(x) := if key(x) in counts then counts[key(x)] + 1 else 1]
    ensures keys' == KeysOf(rows + [x], key)
    ensures counts' == CountMap(rows + [x], key)
  {
    KeysOfStep(rows, x, key);
    forall j ensures j in counts' <==> j in keys' {
    }
    forall j | j in counts' ensures counts'[j] == CountKey(rows + [x], key, j) {
      CountKeyStep(rows, x, key, j);
      if j == key(x) && j !in counts {
        CountKeyAbsent(rows, key, j);
      }
    }
    CountMapOf(rows + [x], key, keys', counts');
  }

  lemma CountMapOf<T, K>(rows: seq<T>, key: T -> K, keys: seq<K>, counts: map<K, nat>)
    requires keys == KeysOf(rows, key)
    requires forall k :: k in counts <==> k in keys
    requires forall k | k in counts :: counts[k] == CountKey(rows, key, k)
    ensures counts == CountMap(rows, key)
  {
    assert counts.Keys == CountMap(rows, key).Keys;
  }

  /** The dictionary `CountBy` builds, as a value: each key seen, with its number of rows. */
  function CountMap<T, K(==)>(rows: seq<T>, key: T -> K): (m: map<K, nat>)
    ensures forall k | k in KeysOf(rows, key) :: k in m
    ensures forall k | k in m :: k in KeysOf(rows, key) && m[k] == CountKey(rows, key, k)
  {
    map k | k in KeysOf(rows, key) :: CountKey(rows, key, k)
  }

  /** The entries of the dictionary in insertion order: `stats.items()`. */
  function Items<K>(keys: seq<K>, counts: map<K, nat>): (r: seq<(K, nat)>)
    requires forall k | k in keys :: k in counts
    ensures |r| == |keys| && forall i | 0 <= i < |keys| :: r[i] == (keys[i], counts[keys[i]])
  {
    seq(|keys|, i requires 0 <= i < |keys| => (keys[i], counts[keys[i]]))
  }

  /** The sum of the counts of some entries. */
  function ItemsTotal<K>(items: seq<(K, nat)>): nat {
    if items == [] then 0 else items[0].1 + ItemsTotal(items[1..])
  }

  lemma {:induction false} ItemsTotalOver<T, K>(keys: seq<K>, counts: map<K, nat>, rows: seq<T>, key: T -> K)
    requires forall k | k in keys :: k in counts && counts[k] == CountKey(rows, key, k)
    ensures ItemsTotal(Items(keys, counts)) == CountsOver(keys, rows, key)
  {
    if keys != [] {
      assert Items(keys, counts)[1..] == Items(keys[1..], counts);
      ItemsTotalOver(keys[1..], counts, rows, key);
    }
  }

  /** Every row is counted under exactly one key: the counts add up to the rows. */
  lemma CountsAddUp<T, K>(rows: seq<T>, key: T -> K)
    ensures ItemsTotal(Items(KeysOf(rows, key), CountMap(rows, key))) == |rows|
  {
    ItemsTotalOver(KeysOf(rows, key), CountMap(rows, key), rows, key);
    CountsCover(rows, key);
  }

  // ---------------------------------------------------------------------
  // The client sheet's last order date

  /** Python's `max` over strings: the last string kept is the first of the
      largest ones. */
  function MaxString(s: seq<string>): (m: string)
    requires s != []
    ensures m in s
    ensures forall x | x in s :: StrLe(x, m)
  {
    if |s| == 1 then StrLeTotal(s[0], s[0]); s[0]
    else
      var m := MaxString(s[..|s| - 1]);
      var x := s[|s| - 1];
      assert forall y | y in s :: y in s[..|s| - 1] || y == x;
      StrLeTotal(x, m);
      if StrLe(x, m) then m
      else
        assert forall y | y in s[..|s| - 1] :: StrLe(y, x) by {
          forall y | y in s[..|s| - 1] ensures StrLe(y, x) { StrLeTransitive(y, m, x); }
        }
        StrLeTotal(x, x);
        x
  }

  /** The TypeError `item > current` raises when one side is `None`. */
  function CompareError(item: Option<string>, current: Option<string>): string {
    "TypeError: '>' not supported between instances of '" + TypeName(item) + "' and '" + TypeName(current) + "'"
  }

  function TypeName(v: Option<string>): string {
    if v.None? then "NoneType" else "str"
  }

  /** `max([order['order_date'] for order in orders]) if orders else None`:
      with two orders or more a missing date cannot be compared. `max` keeps
      the first item and compares each later one against the largest so far,
      so the first comparison involving `None` is either the second item
      against a leading `None`, or the first later `None` against a date. */
  function LastOrderDate(dates: seq<Option<string>>): (r: Result<Option<string>, string>)
    ensures dates == [] ==> r == Ok(None)
    ensures |dates| == 1 ==> r == Ok(dates[0])
    ensures |dates| >= 2 ==> (r.Err? <==> exists i | 0 <= i < |dates| :: dates[i].None?)
    ensures |dates| >= 2 && dates[0].None? ==> r == Err(CompareError(dates[1], None))
    ensures |dates| >= 2 && dates[0].Some? && r.Err? ==> r == Err(CompareError(None, dates[0]))
    ensures |dates| >= 2 && r.Ok? ==>
              && r.value.Some?
              && (exists i | 0 <= i < |dates| :: dates[i] == r.value)
              && forall i | 0 <= i < |dates| :: StrLe(dates[i].value, r.value.value)
  {
    if dates == [] then Ok(None)
    else if |dates| == 1 then Ok(dates[0])
    else if dates[0].None? then Err(CompareError(dates[1], None))
    else if exists i | 0 <= i < |dates| :: dates[i].None? then Err(CompareError(None, dates[0]))
    else
      var texts := seq(|dates|, i requires 0 <= i < |dates| => dates[i].value);
      var m := MaxString(texts);
      assert forall i | 0 <= i < |dates| :: texts[i] in texts && texts[i] == dates[i].value;
      var k :| 0 <= k < |texts| && texts[k] == m;
      assert dates[k] == Some(m);
      Ok(Some(m))
  }

  /** The dates of a client's orders as `get_client_orders` lists them. */
  function ClientOrderDates(clients: map<int, Client>, orders: map<int, Order>, clientId: int): (d: seq<Option<string>>)
    ensures |d| == |OrderQueries.ClientOrders(clients, orders, clientId)|
  {
    DatesOf(OrderQueries.ClientOrders(clients, orders, clientId))
  }

  function DatesOf(rows: seq<OrderDict>): (d: seq<Option<string>>)
    ensures |d| == |rows| && forall i | 0 <= i < |rows| :: d[i] == rows[i].orderDate
  {
    seq(|rows|, i requires 0 <= i < |rows| => rows[i].orderDate)
  }

  // ---------------------------------------------------------------------
  // The client statistics sheet

  /** `client.get('city', 'Не указан')`: the dictionary always has the key,
      so a client without a city is counted under `None`. */
  function CityOf(c: ClientDict): Option<string> { c.city }
  predicate ActiveDict(c: ClientDict) { c.status == Some("active") }
  function RevenueOfDict(c: ClientDict): real { c.totalRevenue }

  function SumTotalOrders(rows: seq<ClientDict>): int {
    if rows == [] then 0 else SumTotalOrders(rows[..|rows| - 1]) + rows[|rows| - 1].totalOrders
  }

  predicate CityCountDesc(a: (Option<string>, nat), b: (Option<string>, nat)) { a.1 >= b.1 }

  lemma CityCountOrder()
    ensures TotalPreorder(CityCountDesc)
  {
  }

  const TopCitiesLimit: nat := 10

  datatype ClientSheet = ClientSheet(
    totalClients: nat,
    activeClients: nat,
    totalRevenue: real,
    totalOrders: int,
    averageRevenue: real,
    averageOrders: real,
    cities: seq<(Option<string>, nat)>)

  /** `_create_clients_statistics_sheet`: the figures it writes. */
  method ClientStatisticsSheet(clients: seq<ClientDict>) returns (s: ClientSheet)
    ensures s.totalClients == |clients|
    ensures s.activeClients == Count(clients, ActiveDict)
    ensures s.totalRevenue == Sum(clients, RevenueOfDict)
    ensures s.totalOrders == SumTotalOrders(clients)
    ensures s.averageRevenue == OrderQueries.Average(s.totalRevenue, |clients|)
    ensures s.averageOrders == OrderQueries.Average(s.totalOrders as real, |clients|)
    ensures s.cities == Take(SortBy(Items(KeysOf(clients, CityOf), CountMap(clients, CityOf)), CityCountDesc), TopCitiesLimit)
  {
    var total := |clients|;
    var revenue := Sum(clients, RevenueOfDict);
    var orders := SumTotalOrders(clients);
    var keys, counts := CountBy(clients, CityOf);
    var ranked := SortBy(Items(keys, counts), CityCountDesc);
    s := ClientSheet(total, Count(clients, ActiveDict), revenue, orders,
                     OrderQueries.Average(revenue, total), OrderQueries.Average(orders as real, total), Take(ranked, TopCitiesLimit));
  }

  /** At most ten cities are listed, the most frequent first; all the
      cities' counts together are the number of clients. */
  lemma CitiesListed(clients: seq<ClientDict>)
    ensures var items := Items(KeysOf(clients, CityOf), CountMap(clients, CityOf));
            var listed := Take(SortBy(items, CityCountDesc), TopCitiesLimit);
            && |listed| <= TopCitiesLimit
            && SortedBy(listed, CityCountDesc)
            && ItemsTotal(items) == |clients|
  {
    var items := Items(KeysOf(clients, CityOf), CountMap(clients, CityOf));
    CityCountOrder();
    SortBySorted(items, CityCountDesc);
    TakeSorted(SortBy(items, CityCountDesc), TopCitiesLimit, CityCountDesc);
    CountsAddUp(clients, CityOf);
  }

  // ---------------------------------------------------------------------
  // The order statistics sheet

  function StatusOf(o: OrderDict): Option<string> { o.status }
  function AmountOfDict(o: OrderDict): real { o.totalAmount }

  /** `order['order_date'][:10]`, defined when every order has a date. */
  function DayKey(o: OrderDict): string {
    if o.orderDate.Some? then Sorting.Take(o.orderDate.value, 10) else ""
  }

  predicate Dated(o: OrderDict) { o.orderDate.Some? }

  predicate DateKeyDesc(a: (string, nat), b: (string, nat)) { StrLe(b.0, a.0) }

  lemma DateKeyOrder()
    ensures TotalPreorder(DateKeyDesc)
  {
    StrOrderFacts();
  }

  const TopDatesLimit: nat := 10

  datatype OrderSheet = OrderSheet(
    totalOrders: nat,
    totalRevenue: real,
    averageCheck: real,
    statuses: seq<(Option<string>, nat)>,
    dates: seq<(string, nat)>)

  /** The status rows of the sheet: each status's label with its count. */
  function StatusRows(keys: seq<Option<string>>, counts: map<Option<string>, nat>): (r: seq<(Option<string>, nat)>)
    requires forall k | k in keys :: k in counts
    ensures |r| == |keys| && forall i | 0 <= i < |keys| :: r[i] == (StatusDisplay(keys[i]), counts[keys[i]])
  {
    seq(|keys|, i requires 0 <= i < |keys| => (StatusDisplay(keys[i]), counts[keys[i]]))
  }

  /** Whether every order has a date, scanning in order as the date loop does. */
  method AllDated(orders: seq<OrderDict>) returns (ok: bool)
    ensures ok <==> forall o | o in orders :: Dated(o)
  {
    var i := 0;
    while i < |orders|
      invariant 0 <= i <= |orders|
      invariant forall j | 0 <= j < i :: Dated(orders[j])
    {
      if orders[i].orderDate.None? {
        assert orders[i] in orders;
        return false;
      }
      i := i + 1;
    }
    return true;
  }

  /** The top dates of the sheet: the ten latest days with their counts. */
  function TopDates(orders: seq<OrderDict>): seq<(string, nat)> {
    Take(SortBy(Items(KeysOf(orders, DayKey), CountMap(orders, DayKey)), DateKeyDesc), TopDatesLimit)
  }

  /** `_create_orders_statistics_sheet`: the figures it writes, or the
      `TypeError` that slicing a missing date raises. */
  method OrderStatisticsSheet(orders: seq<OrderDict>) returns (r: Result<OrderSheet, string>)
    ensures r.Err? <==> exists o | o in orders :: !Dated(o)
    ensures r.Ok? ==> r.value == OrderSheet(|orders|, Sum(orders, AmountOfDict), OrderQueries.Average(Sum(orders, AmountOfDict), |orders|),
                                            StatusRows(KeysOf(orders, StatusOf), CountMap(orders, StatusOf)), TopDates(orders))
  {
    var statusKeys, statusCounts := CountBy(orders, StatusOf);
    var dated := AllDated(orders);
    if !dated {
      return Err("TypeError: 'NoneType' object is not subscriptable");
    }
    var dateKeys, dateCounts := CountBy(orders, DayKey);
    var revenue := Sum(orders, AmountOfDict);
    r := Ok(OrderSheet(|orders|, revenue, OrderQueries.Average(revenue, |orders|), StatusRows(statusKeys, statusCounts),
                       TopDates(orders)));
  }

  /** The status rows are every status seen, labelled, with its count; the
      counts add up to the number of orders. */
  lemma StatusRowsCover(orders: seq<OrderDict>)
    ensures var rows := StatusRows(KeysOf(orders, StatusOf), CountMap(orders, StatusOf));
            && |rows| == |KeysOf(orders, StatusOf)|
            && (forall o | o in orders :: exists i | 0 <= i < |rows| :: rows[i].0 == StatusDisplay(o.status))
            && ItemsTotal(Items(KeysOf(orders, StatusOf), CountMap(orders, StatusOf))) == |orders|
  {
    var keys := KeysOf(orders, StatusOf);
    var rows := StatusRows(keys, CountMap(orders, StatusOf));
    forall o | o in orders ensures exists i | 0 <= i < |rows| :: rows[i].0 == StatusDisplay(o.status) {
      assert StatusOf(o) in keys;
      var i :| 0 <= i < |keys| && keys[i] == StatusOf(o);
      assert rows[i].0 == StatusDisplay(o.status);
    }
    CountsAddUp(orders, StatusOf);
  }

  /** At most ten dates are listed, the latest first, and no date twice. */
  lemma DatesListed(orders: seq<OrderDict>)
    ensures |TopDates(orders)| <= TopDatesLimit
    ensures SortedBy(TopDates(orders), DateKeyDesc)
    ensures forall a, b | 0 <= a < b < |TopDates(orders)| :: TopDates(orders)[a].0 != TopDates(orders)[b].0
  {
    var items := Items(KeysOf(orders, DayKey), CountMap(orders, DayKey));
    DateKeyOrder();
    SortBySorted(items, DateKeyDesc);
    TakeSorted(SortBy(items, DateKeyDesc), TopDatesLimit, DateKeyDesc);
    TopEntriesDistinct(KeysOf(orders, DayKey), CountMap(orders, DayKey), DateKeyDesc, TopDatesLimit);
    assert TopDates(orders) == Take(SortBy(items, DateKeyDesc), TopDatesLimit);
  }

  /** The first entries of a sorted dictionary have distinct keys. */
  lemma TopEntriesDistinct<K>(keys: seq<K>, counts: map<K, nat>, le: ((K, nat), (K, nat)) -> bool, n: nat)
    requires NoDuplicates(keys) && forall k | k in keys :: k in counts
    ensures var t := Take(SortBy(Items(keys, counts), le), n);
            forall a, b | 0 <= a < b < |t| :: t[a].0 != t[b].0
  {
    var items := Items(keys, counts);
    forall a, b | 0 <= a < b < |items| ensures EntryKey(items[a]) != EntryKey(items[b]) {
      assert items[a].0 == keys[a] && items[b].0 == keys[b];
    }
    var sorted := SortBy(items, le);
    var t := Take(sorted, n);
    forall a, b | 0 <= a < b < |t| ensures t[a].0 != t[b].0 {
      assert t[a] == sorted[a] && t[b] == sorted[b];
      OrderQueries.DistinctAfterSort(items, sorted, EntryKey, a, b);
    }
  }

  function EntryKey<K>(e: (K, nat)): K { e.0 }

  // ---------------------------------------------------------------------
  // The dashboard's top clients

  predicate RevenueDesc(a: Client, b: Client) { a.totalRevenue >= b.totalRevenue }

  lemma RevenueOrder()
    ensures TotalPreorder(RevenueDesc)
  {
  }

  const TopClientsLimit: nat := 5

  /** `to_dict()` of every client. */
  function ClientDicts(rows: seq<Client>): (r: seq<ClientDict>)
    ensures |r| == |rows| && forall i | 0 <= i < |rows| :: r[i] == Clients.ToDict(rows[i])
  {
    seq(|rows|, i requires 0 <= i < |rows| => Clients.ToDict(rows[i]))
  }

  /** `sorted(search_clients({}), key=total_revenue, reverse=True)`. */
  function RevenueRanking(clients: map<int, Client>): seq<Client> {
    SortBy(ClientQueries.SearchClients(clients, ClientQueries.NoFilters), RevenueDesc)
  }

  /** The first five of the ranking. */
  function TopByRevenue(clients: map<int, Client>): seq<Client> {
    Take(RevenueRanking(clients), TopClientsLimit)
  }

  /** At most five clients, the largest revenue first, each a stored client;
      fewer only when there are fewer than five clients. */
  lemma TopClientsRanked(clients: map<int, Client>)
    ensures var t := TopByRevenue(clients);
            && |t| == (if |clients| < TopClientsLimit then |clients| else TopClientsLimit)
            && SortedBy(t, RevenueDesc)
            && forall i | 0 <= i < |t| :: exists id | id in clients :: clients[id] == t[i]
  {
    var all := ClientQueries.SearchClients(clients, ClientQueries.NoFilters);
    var sorted := RevenueRanking(clients);
    var top := TopByRevenue(clients);
    ClientQueries.SearchWithoutFilters(clients);
    ClientQueries.SearchRowsStored(clients, ClientQueries.NoFilters);
    RevenueOrder();
    SortBySorted(all, RevenueDesc);
    TakeSorted(sorted, TopClientsLimit, RevenueDesc);
    forall i | 0 <= i < |top| ensures exists id | id in clients :: clients[id] == top[i] {
      assert top[i] in multiset(sorted);
      assert top[i] in all;
    }
  }

  /** No client left out of the five has more revenue than one listed. */
  lemma TopClientsBeatTheRest(clients: map<int, Client>, i: nat, j: nat)
    requires i < |TopByRevenue(clients)| <= j < |RevenueRanking(clients)|
    ensures TopByRevenue(clients)[i].totalRevenue >= RevenueRanking(clients)[j].totalRevenue
  {
    RankingSorted(clients);
    PrefixBeatsRest(RevenueRanking(clients), TopClientsLimit, RevenueDesc, i, j);
  }

  lemma RankingSorted(clients: map<int, Client>)
    ensures SortedBy(RevenueRanking(clients), RevenueDesc)
  {
    RevenueOrder();
    SortBySorted(ClientQueries.SearchClients(clients, ClientQueries.NoFilters), RevenueDesc);
  }

  // ---------------------------------------------------------------------
  // Nothing to export

  const NothingToExport := "Нет данных для экспорта"

  /** One row of the clients sheet: the client's columns and its last order date. */
  datatype ExportRow = ExportRow(client: ClientDict, lastOrder: Option<string>)

  /** Why the client export raises: the ValueError with `NothingToExport`, or
      the TypeError of `max()`. */
  datatype ExportFailure = NoData | Uncomparable(message: string)

  /** The last order date of every listed client, as the loop computes it. */
  function LastOrders(clients: map<int, Client>, orders: map<int, Order>, rows: seq<Client>)
    : (r: seq<Result<Option<string>, string>>)
    ensures |r| == |rows| &&
            forall i | 0 <= i < |rows| :: r[i] == LastOrderDate(ClientOrderDates(clients, orders, rows[i].id))
  {
    seq(|rows|, i requires 0 <= i < |rows| => LastOrderDate(ClientOrderDates(clients, orders, rows[i].id)))
  }

  /** The loop over the listed clients: a row per client, in order; the first
      client whose last order date raises stops the export. */
  function ExportRows(dicts: seq<ClientDict>, lasts: seq<Result<Option<string>, string>>)
    : (r: Result<seq<ExportRow>, string>)
    requires |dicts| == |lasts|
    ensures r.Ok? <==> forall i | 0 <= i < |lasts| :: lasts[i].Ok?
    ensures r.Ok? ==>
              && |r.value| == |dicts|
              && forall i | 0 <= i < |dicts| :: r.value[i] == ExportRow(dicts[i], lasts[i].value)
    ensures r.Err? ==> exists i | 0 <= i < |lasts| ::
              && lasts[i] == Err(r.error)
              && forall j | 0 <= j < i :: lasts[j].Ok?
  {
    if dicts == [] then Ok([])
    else
      match lasts[0]
      case Err(e) => Err(e)
      case Ok(last) =>
        var rest := ExportRows(dicts[1..], lasts[1..]);
        assert forall j | 1 <= j < |lasts| :: lasts[j] == lasts[1..][j - 1];
        if rest.Err? then Err(rest.error)
        else
          assert forall j | 1 <= j < |dicts| :: dicts[j] == dicts[1..][j - 1];
          Ok([ExportRow(dicts[0], last)] + rest.value)
  }

  /** The export of the listed clients' rows: nothing listed raises the
      ValueError, otherwise the rows or the first TypeError. */
  function ExportListed(dicts: seq<ClientDict>, lasts: seq<Result<Option<string>, string>>)
    : (r: Result<seq<ExportRow>, ExportFailure>)
    requires |dicts| == |lasts|
    ensures r == Err(NoData) <==> dicts == []
    ensures r.Ok? <==> dicts != [] && forall i | 0 <= i < |lasts| :: lasts[i].Ok?
    ensures r.Ok? ==> ExportRows(dicts, lasts) == Ok(r.value)
    ensures r.Err? && r.error.Uncomparable? ==> ExportRows(dicts, lasts) == Err(r.error.message)
  {
    if dicts == [] then Err(NoData)
    else
      match ExportRows(dicts, lasts)
      case Ok(data) => Ok(data)
      case Err(e) => Err(Uncomparable(e))
  }

  /** `export_clients_to_excel` up to the writing: the rows of the listed
      clients, the ValueError for an empty result, or the TypeError of a
      client whose order dates cannot be compared. */
  function ExportClients(clients: map<int, Client>, orders: map<int, Order>, filters: ClientQueries.ClientSearch)
    : (r: Result<seq<ExportRow>, ExportFailure>)
    ensures r == Err(NoData) <==> forall id | id in clients :: !ClientQueries.Matches(filters, clients[id])
    ensures var listed := ClientQueries.SearchClients(clients, filters);
            var lasts := LastOrders(clients, orders, listed);
            && (r.Ok? <==> listed != [] && forall i | 0 <= i < |listed| :: lasts[i].Ok?)
            && (r.Ok? ==> ExportRows(ClientDicts(listed), lasts) == Ok(r.value))
            && (r.Err? && r.error.Uncomparable? ==> ExportRows(ClientDicts(listed), lasts) == Err(r.error.message))
  {
    var rows := ClientQueries.SearchClients(clients, filters);
    ClientQueries.SearchEmpty(clients, filters);
    ExportListed(ClientDicts(rows), LastOrders(clients, orders, rows))
  }

  /** `export_orders_to_excel` up to the writing: the orders of the search's
      page, or the ValueError for a failed search or an empty page. */
  function ExportOrders(clients: map<int, Client>, orders: map<int, Order>, filters: OrderQueries.OrderSearch,
                        validate: OrderQueries.SearchVerdict): (r: Result<seq<OrderDict>, string>)
    ensures r.Ok? <==> OrderQueries.SearchOrders(clients, orders, filters, validate).Ok? &&
                       OrderQueries.SearchOrders(clients, orders, filters, validate).value.orders != []
    ensures r.Ok? ==> r.value == OrderQueries.SearchOrders(clients, orders, filters, validate).value.orders
  {
    match OrderQueries.SearchOrders(clients, orders, filters, validate)
    case Err(_) => Err("Ошибка получения заказов")
    case Ok(page) => if page.orders == [] then Err(NothingToExport) else Ok(page.orders)
  }
}
