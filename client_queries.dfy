/** The read-only queries of `client_service.py`: `search_clients` and
    `get_client_statistics`, over the `clients` table. */
module ClientQueries {

  import opened Wrappers
  import opened Text
  import opened Tables
  import opened Sorting
  import opened Grouping
  import opened Selection
  import opened Clients

  /** The keys a `search_clients` call may give; `None` is an absent key. */
  datatype ClientSearch = ClientSearch(
    firstName: Option<string>,
    lastName: Option<string>,
    patronymic: Option<string>,
    email: Option<string>,
    phone: Option<string>,
    city: Option<string>,
    status: Option<string>,
    minOrders: Option<int>,
    maxOrders: Option<int>)

  const NoFilters: ClientSearch := ClientSearch(None, None, None, None, None, None, None, None, None)

  /** A text filter: `column ILIKE '%term%'` when the key is given. */
  predicate TextFilter(column: Option<string>, term: Option<string>) {
    term.None? || ILikeAscii(column, term.value)
  }

  /** The conjunction of the given filters. */
  predicate Matches(p: ClientSearch, c: Client) {
    && TextFilter(Some(c.firstName), p.firstName)
    && TextFilter(Some(c.lastName), p.lastName)
    && TextFilter(c.patronymic, p.patronymic)
    && TextFilter(c.email, p.email)
    && TextFilter(c.phone, p.phone)
    && TextFilter(c.city, p.city)
    && (p.status.None? || c.status == p.status)
    && (p.minOrders.None? || c.totalOrders >= p.minOrders.value)
    && (p.maxOrders.None? || c.totalOrders <= p.maxOrders.value)
  }

  /** `ORDER BY last_name, first_name` in SQLite's BINARY collation. */
  predicate NameLe(a: Client, b: Client) {
    if a.lastName != b.lastName then StrLe(a.lastName, b.lastName) else StrLe(a.firstName, b.firstName)
  }

  lemma NameOrder()
    ensures TotalPreorder(NameLe)
  {
    StrOrderFacts();
  }

  /** `search_clients`: the matching rows in name order (rows with equal
      names keep their scan order). */
  function SearchClients(clients: map<int, Client>, p: ClientSearch): (r: seq<Client>)
    ensures |r| == Count(Rows(clients), MatchesOf(p))
  {
    SelectMembers(clients, MatchesOf(p), NameLe);
    Select(clients, MatchesOf(p), NameLe)
  }

  function MatchesOf(p: ClientSearch): Client -> bool {
    c => Matches(p, c)
  }

  /** The result is exactly the matching clients, each once per row, in name order. */
  lemma SearchClientsSpec(clients: map<int, Client>, p: ClientSearch)
    ensures var r := SearchClients(clients, p);
            && (forall c | c in r :: Matches(p, c) && exists id | id in clients :: clients[id] == c)
            && (forall id | id in clients && Matches(p, clients[id]) :: clients[id] in r)
            && |r| == Count(Rows(clients), MatchesOf(p))
            && SortedBy(r, NameLe)
  {
    NameSelect(clients, MatchesOf(p));
    var r := SearchClients(clients, p);
    forall c | c in r ensures Matches(p, c) {
      assert MatchesOf(p)(c);
    }
    forall id | id in clients && Matches(p, clients[id]) ensures clients[id] in r {
      assert MatchesOf(p)(clients[id]);
    }
  }

  /** A selection in name order, whatever the filter. */
  lemma NameSelect(clients: map<int, Client>, keep: Client -> bool)
    ensures var r := Select(clients, keep, NameLe);
            && (forall c | c in r :: keep(c) && exists id | id in clients :: clients[id] == c)
            && (forall id | id in clients && keep(clients[id]) :: clients[id] in r)
            && |r| == Count(Rows(clients), keep)
            && SortedBy(r, NameLe)
  {
    NameOrder();
    SelectSpec(clients, keep, NameLe);
  }

  /** Without filters every client is listed. */
  lemma SearchWithoutFilters(clients: map<int, Client>)
    ensures |SearchClients(clients, NoFilters)| == |clients|
    ensures forall id | id in clients :: clients[id] in SearchClients(clients, NoFilters)
  {
    var rows := Rows(clients);
    forall c | c in rows ensures MatchesOf(NoFilters)(c) {
      assert Matches(NoFilters, c);
    }
    FilterAll(rows, MatchesOf(NoFilters));
    SearchClientsSpec(clients, NoFilters);
  }

  lemma FilterAll<T>(rows: seq<T>, p: T -> bool)
    requires forall x | x in rows :: p(x)
    ensures Count(rows, p) == |rows|
  {
    if rows != [] {
      var init := rows[..|rows| - 1];
      assert forall x | x in init :: x in rows;
      FilterAll(init, p);
    }
  }

  /** Every listed client is a stored client. */
  lemma SearchRowsStored(clients: map<int, Client>, p: ClientSearch)
    ensures forall c | c in SearchClients(clients, p) :: exists id | id in clients :: clients[id] == c
  {
    SearchClientsSpec(clients, p);
  }

  /** The search finds nothing exactly when no stored client matches. */
  lemma SearchEmpty(clients: map<int, Client>, p: ClientSearch)
    ensures SearchClients(clients, p) == [] <==> forall id | id in clients :: !Matches(p, clients[id])
  {
    SearchClientsSpec(clients, p);
    if SearchClients(clients, p) != [] {
      var c := SearchClients(clients, p)[0];
      assert c in SearchClients(clients, p);
    }
  }

  /** `q` gives every filter `p` gives, with the same value, and possibly more. */
  predicate Narrows(q: ClientSearch, p: ClientSearch) {
    && (p.firstName.Some? ==> q.firstName == p.firstName)
    && (p.lastName.Some? ==> q.lastName == p.lastName)
    && (p.patronymic.Some? ==> q.patronymic == p.patronymic)
    && (p.email.Some? ==> q.email == p.email)
    && (p.phone.Some? ==> q.phone == p.phone)
    && (p.city.Some? ==> q.city == p.city)
    && (p.status.Some? ==> q.status == p.status)
    && (p.minOrders.Some? ==> q.minOrders == p.minOrders)
    && (p.maxOrders.Some? ==> q.maxOrders == p.maxOrders)
  }

  lemma NarrowsMatches(q: ClientSearch, p: ClientSearch, c: Client)
    requires Narrows(q, p) && Matches(q, c)
    ensures Matches(p, c)
  {
  }

  /** Adding filters never grows the result. */
  lemma SearchNarrowing(clients: map<int, Client>, p: ClientSearch, q: ClientSearch)
    requires Narrows(q, p)
    ensures |SearchClients(clients, q)| <= |SearchClients(clients, p)|
    ensures forall c | c in SearchClients(clients, q) :: c in SearchClients(clients, p)
  {
    var rows := Rows(clients);
    forall c | c in rows && MatchesOf(q)(c) ensures MatchesOf(p)(c) {
      NarrowsMatches(q, p, c);
    }
    CountMono(rows, MatchesOf(q), MatchesOf(p));
    SearchClientsSpec(clients, q);
    SearchClientsSpec(clients, p);
    forall c | c in SearchClients(clients, q) ensures c in SearchClients(clients, p) {
      var id :| id in clients && clients[id] == c;
      NarrowsMatches(q, p, c);
    }
  }

  // ---------------------------------------------------------------------
  // get_client_statistics

  datatype ClientStats = ClientStats(
    totalClients: nat,
    activeClients: nat,
    totalRevenue: real,
    totalOrders: int,
    cityStats: seq<Group<Option<string>>>)

  predicate IsActive(c: Client) { c.status == Some("active") }
  predicate HasCity(c: Client) { c.city.Some? }
  function Revenue(c: Client): real { c.totalRevenue }
  function OrdersOf(c: Client): real { c.totalOrders as real }
  function City(c: Client): Option<string> { c.city }

  /** `get_client_statistics` as written: the name `func` is not imported,
      so the first `func.sum` raises `NameError` and no statistics are
      returned. */
  function ClientStatisticsAsWritten(clients: map<int, Client>): Result<ClientStats, string> {
    Err("NameError: name 'func' is not defined")
  }

  lemma StatisticsAlwaysRaise(clients: map<int, Client>)
    ensures ClientStatisticsAsWritten(clients).Err?
  {
  }

  /** `get_client_statistics` with `func` imported: the counts, the sums
      (`None or 0` is 0) and, per non-NULL city, the number of clients and
      their revenue. */
  function ClientStatistics(clients: map<int, Client>): (s: ClientStats)
    ensures s.totalClients == |clients|
  {
    var rows := Rows(clients);
    ClientStats(|rows|, Count(rows, IsActive), Sum(rows, Revenue), SumOrders(rows),
                CityStats(rows))
  }

  /** `GROUP BY city` over the rows whose city is not NULL. */
  function CityStats(rows: seq<Client>): seq<Group<Option<string>>> {
    Tally(Filter(rows, HasCity), City, Revenue)
  }

  function SumOrders(rows: seq<Client>): int {
    if rows == [] then 0 else SumOrders(rows[..|rows| - 1]) + rows[|rows| - 1].totalOrders
  }

  /** The client totals: every row counted, the active ones among them. */
  lemma ClientTotals(clients: map<int, Client>)
    ensures var s := ClientStatistics(clients);
            && s.totalClients == |clients|
            && s.activeClients <= s.totalClients
            && (s.activeClients == 0 <==> forall id | id in clients :: !IsActive(clients[id]))
  {
    var rows := Rows(clients);
    CountZero(rows, IsActive);
    forall id | id in clients ensures clients[id] in rows { }
  }

  /** Each city group is a non-NULL city with at least one client. */
  lemma CityGroupKeys(clients: map<int, Client>)
    ensures var g := ClientStatistics(clients).cityStats;
            forall i | 0 <= i < |g| :: g[i].key.Some? && g[i].count > 0
  {
    var withCity := Filter(Rows(clients), HasCity);
    assert ClientStatistics(clients).cityStats == CityStats(Rows(clients));
    TallyKeysOccur(withCity, City, Revenue);
  }

  /** Every client with a city has its city's group. */
  lemma CityGroupCover(clients: map<int, Client>)
    ensures var g := ClientStatistics(clients).cityStats;
            forall id | id in clients && HasCity(clients[id]) ::
              exists i | 0 <= i < |g| :: g[i].key == clients[id].city
  {
    var rows := Rows(clients);
    var withCity := Filter(rows, HasCity);
    var g := CityStats(rows);
    assert ClientStatistics(clients).cityStats == g;
    TallyCovers(withCity, City, Revenue);
    forall id | id in clients && HasCity(clients[id])
      ensures exists i | 0 <= i < |g| :: g[i].key == clients[id].city
    {
      assert clients[id] in rows;
      assert clients[id] in withCity;
    }
  }

  /** Each client with a city is counted in exactly one city group. */
  lemma CityCounts(clients: map<int, Client>)
    ensures var withCity := Filter(Rows(clients), HasCity);
            && |withCity| == Count(Rows(clients), HasCity)
            && NoDuplicates(KeysOf(withCity, City))
            && CountsOver(KeysOf(withCity, City), withCity, City) == |withCity|
  {
    CountsCover(Filter(Rows(clients), HasCity), City);
  }
}
