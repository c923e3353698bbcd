/** `import_service.py`: turning spreadsheet rows into client and order
    requests, and the import loops that hand them to the services and tally
    what became of every row. The spreadsheet is a sequence of rows, each a
    map from column name to cell. */
module ImportService {

  import opened Wrappers
  import opened Text
  import opened Dates
  import opened Values
  import opened Clients
  import opened Orders
  import opened Services
  import ClientQueries
  import Tables

  type Row = map<string, Cell>

  /** `column in row and pd.notna(row[column])`. */
  predicate Given(row: Row, column: string) {
    column in row && NotNa(row[column])
  }

  /** `str(row[column]).strip()`. */
  function CellText(row: Row, column: string): string
    requires column in row
  {
    Strip(PyStr(row[column]))
  }

  /** `', '.join(parts)`. */
  function JoinComma(parts: seq<string>): string {
    if parts == [] then ""
    else if |parts| == 1 then parts[0]
    else parts[0] + ", " + JoinComma(parts[1..])
  }

  // ---------------------------------------------------------------------
  // _parse_client_row

  const MissingFirstName := "Не указано имя клиента"
  const MissingLastName := "Не указана фамилия клиента"
  const ValidationPrefix := "Ошибки валидации: "

  /** The optional client columns: copied stripped when the cell is given. */
  const OptionalClientColumns: seq<string> := ["patronymic", "email", "phone", "city", "notes"]

  /** Every column the parse reads. */
  const ClientColumns: set<string> := {"first_name", "last_name", "patronymic", "email", "phone", "city", "notes"}

  /** The value the parse keeps for a column: the stripped text, lower-cased
      for the e-mail. */
  function ColumnEntry(row: Row, column: string): string
    requires column in row
  {
    if column == "email" then Lower(CellText(row, column)) else CellText(row, column)
  }

  /** The request built from a row whose two names are given. */
  function ClientRowData(row: Row): ClientData
    requires Given(row, "first_name") && Given(row, "last_name")
  {
    map column | column in ClientColumns && Given(row, column) :: Some(ColumnEntry(row, column))
  }

  /** `_parse_client_row`: the request of a row, or the message of the
      ValueError it raises. */
  function ParseClientRow(row: Row, validate: ClientVerdict): (r: Result<ClientData, string>)
    ensures !Given(row, "first_name") ==> r == Err(MissingFirstName)
    ensures Given(row, "first_name") && !Given(row, "last_name") ==> r == Err(MissingLastName)
    ensures r.Ok? ==> Given(row, "first_name") && Given(row, "last_name") && validate(r.value).0
  {
    if !Given(row, "first_name") then Err(MissingFirstName)
    else if !Given(row, "last_name") then Err(MissingLastName)
    else
      var data := ClientRowData(row);
      var (ok, errors) := validate(data);
      if ok then Ok(data) else Err(ValidationPrefix + JoinComma(errors))
  }

  /** A parsed client row holds exactly the given columns: the names and the
      optional fields stripped, the e-mail also lower-cased. */
  lemma ParsedClientFields(row: Row, validate: ClientVerdict)
    requires ParseClientRow(row, validate).Ok?
    ensures var d := ParseClientRow(row, validate).value;
            && d["first_name"] == Some(CellText(row, "first_name"))
            && d["last_name"] == Some(CellText(row, "last_name"))
            && (forall column | column in OptionalClientColumns ::
                  (column in d <==> Given(row, column)) &&
                  (column in d ==> d[column] == Some(ColumnEntry(row, column))))
            && forall column | column in d :: column in ValidatedKeys
  {
    assert ParseClientRow(row, validate).value == ClientRowData(row);
    RowDataFields(row);
  }

  lemma RowDataFields(row: Row)
    requires Given(row, "first_name") && Given(row, "last_name")
    ensures var d := ClientRowData(row);
            && d["first_name"] == Some(CellText(row, "first_name"))
            && d["last_name"] == Some(CellText(row, "last_name"))
            && (forall column | column in OptionalClientColumns ::
                  (column in d <==> Given(row, column)) &&
                  (column in d ==> d[column] == Some(ColumnEntry(row, column))))
            && forall column | column in d :: column in ValidatedKeys
  {
    var d := ClientRowData(row);
    assert ClientColumns == ValidatedKeys;
    forall column | column in OptionalClientColumns ensures column in ClientColumns {
    }
  }

  /** A parsed client row is never empty, so the loop never skips a row. */
  lemma ParsedClientNonEmpty(row: Row, validate: ClientVerdict)
    requires ParseClientRow(row, validate).Ok?
    ensures ParseClientRow(row, validate).value != map[]
  {
    ParsedClientFields(row, validate);
  }

  // ---------------------------------------------------------------------
  // _parse_order_row

  const MissingClientId := "Не указан ID клиента"
  const BadClientId := "Неверный формат ID клиента"
  const MissingAmount := "Не указана сумма заказа"
  const BadAmount := "Неверный формат суммы заказа"
  /** The text of the OverflowError `int()` raises for an infinite float, which
      the parse does not catch. */
  const InfiniteClientId := "cannot convert float infinity to integer"

  /** The statuses an imported order may carry. */
  const ImportStatuses: set<string> := {"pending", "completed", "cancelled"}

  /** A parsed order row; `None` marks a column left out. */
  datatype OrderRow = OrderRow(
    clientId: int,
    totalAmount: Number,
    status: Option<string>,
    orderDate: Option<CalendarDate>,
    description: Option<string>)

  /** The verdict of `validate_order_data` on a parsed row, whose code is not part of this model. */
  type RowVerdict = OrderRow -> (bool, seq<string>)

  function ParseClientId(row: Row): (r: Result<int, string>)
    ensures !Given(row, "client_id") ==> r == Err(MissingClientId)
    ensures Given(row, "client_id") ==> (r.Ok? <==> PyInt(row["client_id"]).Ok?)
    ensures r.Ok? ==> r.value == PyInt(row["client_id"]).value
  {
    if !Given(row, "client_id") then Err(MissingClientId)
    else
      match PyInt(row["client_id"])
      case Ok(i) => Ok(i)
      case Err(OverflowError) => Err(InfiniteClientId)
      case Err(_) => Err(BadClientId)
  }

  function ParseAmount(row: Row): (r: Result<Number, string>)
    ensures !Given(row, "total_amount") ==> r == Err(MissingAmount)
    ensures Given(row, "total_amount") ==> (r.Ok? <==> PyFloat(row["total_amount"]).Ok?)
    ensures r.Ok? ==> r.value == PyFloat(row["total_amount"]).value
  {
    if !Given(row, "total_amount") then Err(MissingAmount)
    else
      match PyFloat(row["total_amount"])
      case Ok(x) => Ok(x)
      case Err(_) => Err(BadAmount)
  }

  /** The status column: stripped, lower-cased, and dropped unless it is one of the three statuses. */
  function ParseStatus(row: Row): (r: Option<string>)
    ensures r.Some? <==> Given(row, "status") && Lower(CellText(row, "status")) in ImportStatuses
    ensures r.Some? ==> r.value == Lower(CellText(row, "status")) && r.value in ImportStatuses
  {
    if Given(row, "status") && Lower(CellText(row, "status")) in ImportStatuses
    then Some(Lower(CellText(row, "status"))) else None
  }

  /** The date column: a datetime cell gives its day, any other cell is read
      as `%Y-%m-%d`, and text that does not parse gives today. */
  function ParseOrderDate(row: Row, today: CalendarDate): (r: Option<CalendarDate>)
    ensures r.Some? <==> Given(row, "order_date")
    ensures Given(row, "order_date") && row["order_date"].VDateTime? ==> r == Some(row["order_date"].day)
    ensures Given(row, "order_date") && !row["order_date"].VDateTime? ==>
              r == Some(Parse(PyStr(row["order_date"]), IsoDash).GetOr(today))
  {
    if !Given(row, "order_date") then None
    else
      var v := row["order_date"];
      if v.VDateTime? then Some(v.day)
      else Some(Parse(PyStr(v), IsoDash).GetOr(today))
  }

  /** `_parse_order_row`: the parsed row, or the message of the exception it raises. */
  function ParseOrderRow(row: Row, validate: RowVerdict, today: CalendarDate): (r: Result<OrderRow, string>)
    ensures ParseClientId(row).Err? ==> r == Err(ParseClientId(row).error)
    ensures ParseClientId(row).Ok? && ParseAmount(row).Err? ==> r == Err(ParseAmount(row).error)
    ensures r.Ok? ==>
              && r.value.clientId == ParseClientId(row).value
              && r.value.totalAmount == ParseAmount(row).value
              && r.value.status == ParseStatus(row)
              && r.value.orderDate == ParseOrderDate(row, today)
              && (r.value.description.Some? <==> Given(row, "description"))
              && (r.value.description.Some? ==> r.value.description.value == CellText(row, "description"))
              && validate(r.value).0
  {
    match ParseClientId(row)
    case Err(e) => Err(e)
    case Ok(cid) =>
      match ParseAmount(row)
      case Err(e) => Err(e)
      case Ok(amount) =>
        var parsed := OrderRow(cid, amount, ParseStatus(row), ParseOrderDate(row, today),
                               if Given(row, "description") then Some(CellText(row, "description")) else None);
        var (ok, errors) := validate(parsed);
        if ok then Ok(parsed) else Err(ValidationPrefix + JoinComma(errors))
  }

  /** A date cell that does not read as `%Y-%m-%d` makes the order dated today. */
  lemma UnreadableDateIsToday(row: Row, today: CalendarDate)
    requires Given(row, "order_date") && !row["order_date"].VDateTime?
    requires Parse(PyStr(row["order_date"]), IsoDash).None?
    ensures ParseOrderDate(row, today) == Some(today)
  {
  }

  /** The `create_order` request of a parsed row with a finite amount; an
      absent status, date or description is an absent key. */
  function RequestOf(r: OrderRow): OrderRequest
    requires r.totalAmount.Finite?
  {
    OrderRequest(Some(r.clientId), Some(r.totalAmount.value),
                 if r.description.Some? then Some(r.description) else None,
                 if r.status.Some? then Some(r.status) else None,
                 if r.orderDate.Some? then Some(r.orderDate) else None)
  }

  // ---------------------------------------------------------------------
  // The tally

  /** What became of one row. `row` is the spreadsheet row number, the
      index plus two. */
  datatype RowOutcome =
    | Imported
    | Updated
    | Failed(row: int, error: string, details: seq<string>)   // the service refused
    | Raised(row: int, error: string, data: Row)             // the parse raised

  /** `results`: the counters and the error entries, in row order. */
  datatype ImportTally = ImportTally(totalRows: nat, imported: nat, updated: nat, errors: seq<RowOutcome>, skipped: nat)

  predicate IsError(o: RowOutcome) { o.Failed? || o.Raised? }

  /** The tally of a sequence of outcomes. */
  function Summarize(totalRows: nat, outcomes: seq<RowOutcome>): (t: ImportTally)
    ensures t.totalRows == totalRows && t.skipped == 0
    ensures forall e | e in t.errors :: e in outcomes && IsError(e)
  {
    if outcomes == [] then ImportTally(totalRows, 0, 0, [], 0)
    else
      Record(Summarize(totalRows, outcomes[..|outcomes| - 1]), outcomes[|outcomes| - 1])
  }

  /** `results['imported'] += 1`, `results['updated'] += 1` or
      `results['errors'].append(...)` for one more row. */
  function Record(t: ImportTally, o: RowOutcome): ImportTally {
    match o
    case Imported => t.(imported := t.imported + 1)
    case Updated => t.(updated := t.updated + 1)
    case _ => t.(errors := t.errors + [o])
  }

  lemma SummarizeStep(totalRows: nat, outcomes: seq<RowOutcome>, o: RowOutcome)
    ensures Summarize(totalRows, outcomes + [o]) == Record(Summarize(totalRows, outcomes), o)
  {
    assert (outcomes + [o])[..|outcomes|] == outcomes;
  }

  /** Every row lands in exactly one bucket. */
  lemma {:induction false} SummarizeCovers(totalRows: nat, outcomes: seq<RowOutcome>)
    ensures var t := Summarize(totalRows, outcomes);
            t.imported + t.updated + t.skipped + |t.errors| == |outcomes|
  {
    if outcomes != [] {
      SummarizeCovers(totalRows, outcomes[..|outcomes| - 1]);
    }
  }

  /** The messages a service failure reports under `details`. */
  function Details(e: ServiceError): seq<string> {
    match e
    case Invalid(m) => m
    case ClientNotFound => ["Клиент не найден"]
    case OrderNotFound => ["Заказ не найден"]
    case DuplicateEmail => ["Клиент с таким email уже существует"]
    case DatabaseError => ["Ошибка базы данных"]
  }

  /** The search the client import makes for an e-mail: `search_clients({'email': e})`. */
  function SameEmail(e: string): ClientQueries.ClientSearch {
    ClientQueries.NoFilters.(email := Some(e))
  }

  /** What the client import does with a parsed row: update the first client
      the e-mail search finds, or add a new one. */
  datatype Route = AddNew | UpdateExisting(id: int)

  function RouteOf(clients: map<int, Client>, data: ClientData): Route {
    var e := Field(data, "email");
    if Services.Truthy(e) && ClientQueries.SearchClients(clients, SameEmail(e.value)) != []
    then UpdateExisting(ClientQueries.SearchClients(clients, SameEmail(e.value))[0].id)
    else AddNew
  }

  /** A row goes to an existing client exactly when its e-mail is truthy and
      some client's e-mail contains it, and then to a client of the table
      that the e-mail search matches. */
  lemma RouteSpec(clients: map<int, Client>, data: ClientData)
    ensures var e := Field(data, "email");
            RouteOf(clients, data).AddNew? <==>
              !Services.Truthy(e) || forall k | k in clients :: !ClientQueries.Matches(SameEmail(e.value), clients[k])
    ensures var e := Field(data, "email");
            RouteOf(clients, data).UpdateExisting? ==>
              exists k | k in clients :: clients[k].id == RouteOf(clients, data).id
                                        && ClientQueries.Matches(SameEmail(e.value), clients[k])
  {
    var e := Field(data, "email");
    if Services.Truthy(e) {
      var r := ClientQueries.SearchClients(clients, SameEmail(e.value));
      ClientQueries.SearchClientsSpec(clients, SameEmail(e.value));
      if r != [] {
        assert r[0] in r;
      }
    }
  }

  /** Row `index` of the client import on table `clients`: what is recorded,
      and the table afterwards. A row with a truthy e-mail that the search
      finds updates the first client found; any other row is added. */
  function ClientRowStep(clients: map<int, Client>, row: Row, index: int, validateRow: ClientVerdict,
                         validate: ClientVerdict, today: CalendarDate): (step: (RowOutcome, map<int, Client>))
    ensures step.0.Raised? <==> ParseClientRow(row, validateRow).Err?
    ensures step.0 == Updated ==> RouteOf(clients, ParseClientRow(row, validateRow).value).UpdateExisting?
    ensures step.0 == Imported ==> RouteOf(clients, ParseClientRow(row, validateRow).value).AddNew?
    ensures step.0.Failed? || step.0.Raised? ==> step.1 == clients
  {
    match ParseClientRow(row, validateRow)
    case Err(e) => (Raised(index + 2, e, row), clients)
    case Ok(data) =>
      var email := Field(data, "email");
      match RouteOf(clients, data)
      case UpdateExisting(id) =>
        (match UpdateOutcome(clients, id, data, validate)
         case Ok(c) => (Updated, clients[id := c])
         case Err(e) => (Failed(index + 2, "Не удалось обновить клиента " + email.value, Details(e)), clients))
      case AddNew =>
        (match AddOutcome(clients, data, validate, today)
         case Ok(c) => (Imported, clients[Tables.NewId(clients) := c])
         case Err(e) =>
           var error := if Services.Truthy(email) then "Не удалось добавить клиента " + email.value
                        else "Не удалось добавить клиента";
           (Failed(index + 2, error, Details(e)), clients))
  }

  /** The client import on the first rows of the sheet: one outcome per row,
      each row seeing the table the earlier rows left. */
  function ClientImport(clients: map<int, Client>, rows: seq<Row>, validateRow: ClientVerdict,
                        validate: ClientVerdict, today: CalendarDate): (r: (seq<RowOutcome>, map<int, Client>))
    ensures |r.0| == |rows|
  {
    if rows == [] then ([], clients)
    else
      var (outcomes, before) := ClientImport(clients, rows[..|rows| - 1], validateRow, validate, today);
      var (o, after) := ClientRowStep(before, rows[|rows| - 1], |rows| - 1, validateRow, validate, today);
      (outcomes + [o], after)
  }

  /** The import of rows `0..i` is that of rows `0..i-1` and then row `i`'s step. */
  lemma ClientImportStep(clients: map<int, Client>, rows: seq<Row>, validateRow: ClientVerdict,
                         validate: ClientVerdict, today: CalendarDate, i: int)
    requires 0 <= i < |rows|
    ensures var (outcomes, before) := ClientImport(clients, rows[..i], validateRow, validate, today);
            var step := ClientRowStep(before, rows[i], i, validateRow, validate, today);
            ClientImport(clients, rows[..i + 1], validateRow, validate, today) == (outcomes + [step.0], step.1)
  {
    assert rows[..i + 1][..i] == rows[..i] && rows[..i + 1][i] == rows[i];
  }

  /** Row `i`'s outcome is its step on the table rows `0..i-1` left. */
  lemma ClientImportRow(clients: map<int, Client>, rows: seq<Row>, validateRow: ClientVerdict,
                        validate: ClientVerdict, today: CalendarDate, i: int)
    requires 0 <= i < |rows|
    ensures var before := ClientImport(clients, rows[..i], validateRow, validate, today).1;
            && ClientImport(clients, rows, validateRow, validate, today).0[i]
               == ClientRowStep(before, rows[i], i, validateRow, validate, today).0
            && ClientImport(clients, rows[..i + 1], validateRow, validate, today).1
               == ClientRowStep(before, rows[i], i, validateRow, validate, today).1
  {
    ClientImportStep(clients, rows, validateRow, validate, today, i);
    ClientImportKeeps(clients, rows, validateRow, validate, today, i + 1);
    var whole := ClientImport(clients, rows, validateRow, validate, today).0;
    var upTo := ClientImport(clients, rows[..i + 1], validateRow, validate, today).0;
    assert whole[i] == whole[..i + 1][i] == upTo[i];
  }

  /** The outcomes of the first `j` rows do not depend on the rows after them. */
  lemma {:induction false} ClientImportKeeps(clients: map<int, Client>, rows: seq<Row>, validateRow: ClientVerdict,
                                             validate: ClientVerdict, today: CalendarDate, j: int)
    requires 0 <= j <= |rows|
    ensures ClientImport(clients, rows, validateRow, validate, today).0[..j]
            == ClientImport(clients, rows[..j], validateRow, validate, today).0
    decreases |rows|
  {
    if j == |rows| {
      assert rows[..j] == rows;
    } else {
      var n := |rows| - 1;
      ClientImportKeeps(clients, rows[..n], validateRow, validate, today, j);
      ClientImportPrefix(clients, rows, validateRow, validate, today);
      assert rows[..n][..j] == rows[..j];
      var whole := ClientImport(clients, rows, validateRow, validate, today).0;
      assert whole[..j] == whole[..n][..j];
    }
  }

  /** Importing one more row keeps the earlier outcomes. */
  lemma ClientImportPrefix(clients: map<int, Client>, rows: seq<Row>, validateRow: ClientVerdict,
                           validate: ClientVerdict, today: CalendarDate)
    requires rows != []
    ensures var n := |rows| - 1;
            ClientImport(clients, rows, validateRow, validate, today).0[..n]
            == ClientImport(clients, rows[..n], validateRow, validate, today).0
  {
  }

  /** `import_clients_from_excel` once the sheet is read. */
  method ImportClients(db: Database, rows: seq<Row>, validateRow: ClientVerdict, validate: ClientVerdict,
                       today: CalendarDate)
    returns (t: ImportTally, outcomes: seq<RowOutcome>)
    requires db.Valid()
    modifies db
    ensures db.Valid() && db.orders == old(db.orders)
    ensures old(db.Consistent()) ==> db.Consistent()
    ensures (outcomes, db.clients) == ClientImport(old(db.clients), rows, validateRow, validate, today)
    ensures t == Summarize(|rows|, outcomes)
  {
    t := ImportTally(|rows|, 0, 0, [], 0);
    outcomes := [];
    var i := 0;
    while i < |rows|
      invariant 0 <= i <= |rows|
      invariant (outcomes, db.clients) == ClientImport(old(db.clients), rows[..i], validateRow, validate, today)
      invariant t == Summarize(|rows|, outcomes)
      invariant db.Valid() && db.orders == old(db.orders)
      invariant old(db.Consistent()) ==> db.Consistent()
    {
      var o := ImportClientRow(db, rows[i], i, validateRow, validate, today);
      ClientImportStep(old(db.clients), rows, validateRow, validate, today, i);
      SummarizeStep(|rows|, outcomes, o);
      t := Record(t, o);
      outcomes := outcomes + [o];
      i := i + 1;
    }
    assert rows[..|rows|] == rows;
  }

  /** One row of the client import. */
  method ImportClientRow(db: Database, row: Row, index: int, validateRow: ClientVerdict, validate: ClientVerdict,
                   today: CalendarDate)
    returns (o: RowOutcome)
    requires db.Valid()
    modifies db
    ensures db.Valid() && db.orders == old(db.orders)
    ensures old(db.Consistent()) ==> db.Consistent()
    ensures (o, db.clients) == ClientRowStep(old(db.clients), row, index, validateRow, validate, today)
  {
    var parsed := ParseClientRow(row, validateRow);
    if parsed.Err? {
      return Raised(index + 2, parsed.error, row);
    }
    var data := parsed.value;
    ParsedClientFields(row, validateRow);
    var route := RouteOf(db.clients, data);
    var email := Field(data, "email");
    if route.UpdateExisting? {
      var failure := UpdateRow(db, route.id, data, validate);
      o := if failure.None? then Updated
           else Failed(index + 2, "Не удалось обновить клиента " + email.value, Details(failure.value));
    } else {
      var failure := AddRow(db, data, validate, today);
      o := if failure.None? then Imported
           else if Services.Truthy(email) then Failed(index + 2, "Не удалось добавить клиента " + email.value, Details(failure.value))
           else Failed(index + 2, "Не удалось добавить клиента", Details(failure.value));
    }
  }

  /** `update_client` on the service, keeping only whether it failed and why. */
  method UpdateRow(db: Database, id: int, data: ClientData, validate: ClientVerdict) returns (failure: Option<ServiceError>)
    requires db.Valid()
    requires forall k | k in data :: k in ValidatedKeys
    modifies db
    ensures db.Valid() && db.orders == old(db.orders)
    ensures old(db.Consistent()) ==> db.Consistent()
    ensures match UpdateOutcome(old(db.clients), id, data, validate)
            case Err(e) => failure == Some(e) && db.clients == old(db.clients)
            case Ok(c) => failure.None? && db.clients == old(db.clients)[id := c]
  {
    forall k | k in data ensures k !in OtherColumns && !OtherAttribute(k) {
      TextColumnsAreColumns(k);
    }
    var r := db.UpdateClient(id, data, validate);
    failure := if r.Ok? then None else Some(r.error);
  }

  /** `add_client` on the service, keeping only whether it failed and why. */
  method AddRow(db: Database, data: ClientData, validate: ClientVerdict, today: CalendarDate)
    returns (failure: Option<ServiceError>)
    requires db.Valid()
    modifies db
    ensures db.Valid() && db.orders == old(db.orders)
    ensures old(db.Consistent()) ==> db.Consistent()
    ensures match AddOutcome(old(db.clients), data, validate, today)
            case Err(e) => failure == Some(e) && db.clients == old(db.clients)
            case Ok(c) => failure.None? && db.clients == old(db.clients)[Tables.NewId(old(db.clients)) := c]
  {
    var r := db.AddClient(data, validate, today);
    failure := if r.Ok? then None else Some(r.error);
  }

  /** Row `index` of the order import on the tables: what is recorded, and
      the tables afterwards. A row whose amount is a NaN or an infinity is
      recorded as refused without calling the service. */
  function OrderRowStep(clients: map<int, Client>, orders: map<int, Order>, row: Row, index: int,
                        validateRow: RowVerdict, validate: OrderVerdict, today: CalendarDate, suffix: string)
    : (step: (RowOutcome, map<int, Client>, map<int, Order>))
    requires |suffix| == 6 && IsDigits(suffix)
    ensures step.0.Raised? <==> ParseOrderRow(row, validateRow, today).Err?
    ensures step.0 == Imported <==>
              && ParseOrderRow(row, validateRow, today).Ok?
              && ParseOrderRow(row, validateRow, today).value.totalAmount.Finite?
              && CreateOutcome(clients, orders, RequestOf(ParseOrderRow(row, validateRow, today).value),
                               validate, today, suffix).Ok?
    ensures step.0 != Imported ==> step.1 == clients && step.2 == orders
  {
    match ParseOrderRow(row, validateRow, today)
    case Err(e) => (Raised(index + 2, e, row), clients, orders)
    case Ok(parsed) =>
      if !parsed.totalAmount.Finite? then (Failed(index + 2, "Не удалось создать заказ", []), clients, orders)
      else
        match CreateOutcome(clients, orders, RequestOf(parsed), validate, today, suffix)
        case Err(e) => (Failed(index + 2, "Не удалось создать заказ", Details(e)), clients, orders)
        case Ok(o) => (Imported, clients[o.clientId := Credit(clients[o.clientId], o.totalAmount)], orders[o.id := o])
  }

  /** The order import on the first rows of the sheet: one outcome per row,
      each row seeing the tables the earlier rows left. */
  function OrderImport(clients: map<int, Client>, orders: map<int, Order>, rows: seq<Row>, validateRow: RowVerdict,
                       validate: OrderVerdict, today: CalendarDate, suffixes: seq<string>)
    : (r: (seq<RowOutcome>, map<int, Client>, map<int, Order>))
    requires |suffixes| == |rows| && forall i | 0 <= i < |suffixes| :: |suffixes[i]| == 6 && IsDigits(suffixes[i])
    ensures |r.0| == |rows|
  {
    if rows == [] then ([], clients, orders)
    else
      var n := |rows| - 1;
      var (outcomes, cs, os) := OrderImport(clients, orders, rows[..n], validateRow, validate, today, suffixes[..n]);
      var (o, cs', os') := OrderRowStep(cs, os, rows[n], n, validateRow, validate, today, suffixes[n]);
      (outcomes + [o], cs', os')
  }

  /** The import of rows `0..i` is that of rows `0..i-1` and then row `i`'s step. */
  lemma OrderImportStep(clients: map<int, Client>, orders: map<int, Order>, rows: seq<Row>, validateRow: RowVerdict,
                        validate: OrderVerdict, today: CalendarDate, suffixes: seq<string>, i: int)
    requires |suffixes| == |rows| && forall i | 0 <= i < |suffixes| :: |suffixes[i]| == 6 && IsDigits(suffixes[i])
    requires 0 <= i < |rows|
    ensures var (outcomes, cs, os) := OrderImport(clients, orders, rows[..i], validateRow, validate, today, suffixes[..i]);
            var step := OrderRowStep(cs, os, rows[i], i, validateRow, validate, today, suffixes[i]);
            OrderImport(clients, orders, rows[..i + 1], validateRow, validate, today, suffixes[..i + 1])
            == (outcomes + [step.0], step.1, step.2)
  {
    assert rows[..i + 1][..i] == rows[..i] && rows[..i + 1][i] == rows[i];
    assert suffixes[..i + 1][..i] == suffixes[..i] && suffixes[..i + 1][i] == suffixes[i];
  }

  /** One row of the order import. */
  method ImportOrderRow(db: Database, row: Row, index: int, validateRow: RowVerdict, validate: OrderVerdict,
                  today: CalendarDate, suffix: string)
    returns (o: RowOutcome)
    requires db.Valid()
    requires |suffix| == 6 && IsDigits(suffix)
    modifies db
    ensures db.Valid()
    ensures old(db.Consistent()) ==> db.Consistent()
    ensures (o, db.clients, db.orders) == OrderRowStep(old(db.clients), old(db.orders), row, index, validateRow, validate, today, suffix)
  {
    var parsed := ParseOrderRow(row, validateRow, today);
    if parsed.Err? {
      return Raised(index + 2, parsed.error, row);
    }
    if !parsed.value.totalAmount.Finite? {
      return Failed(index + 2, "Не удалось создать заказ", []);
    }
    var failure := CreateRow(db, RequestOf(parsed.value), validate, today, suffix);
    o := if failure.None? then Imported else Failed(index + 2, "Не удалось создать заказ", Details(failure.value));
  }

  /** `create_order` on the service, keeping only whether it failed and why. */
  method CreateRow(db: Database, req: OrderRequest, validate: OrderVerdict, today: CalendarDate, suffix: string)
    returns (failure: Option<ServiceError>)
    requires db.Valid()
    requires |suffix| == 6 && IsDigits(suffix)
    modifies db
    ensures db.Valid()
    ensures old(db.Consistent()) ==> db.Consistent()
    ensures match CreateOutcome(old(db.clients), old(db.orders), req, validate, today, suffix)
            case Err(e) => failure == Some(e) && db.clients == old(db.clients) && db.orders == old(db.orders)
            case Ok(o) =>
              && failure.None?
              && db.orders == old(db.orders)[o.id := o]
              && db.clients == old(db.clients)[o.clientId := Credit(old(db.clients)[o.clientId], o.totalAmount)]
  {
    var r := db.CreateOrder(req, validate, today, suffix);
    failure := if r.Ok? then None else Some(r.error);
  }

  /** `import_orders_from_excel` once the sheet is read; `suffixes[i]` is the
      random part of the order number drawn for row `i`. */
  method ImportOrders(db: Database, rows: seq<Row>, validateRow: RowVerdict, validate: OrderVerdict,
                      today: CalendarDate, suffixes: seq<string>)
    returns (t: ImportTally, outcomes: seq<RowOutcome>)
    requires db.Valid()
    requires |suffixes| == |rows| && forall i | 0 <= i < |suffixes| :: |suffixes[i]| == 6 && IsDigits(suffixes[i])
    modifies db
    ensures db.Valid()
    ensures old(db.Consistent()) ==> db.Consistent()
    ensures (outcomes, db.clients, db.orders)
            == OrderImport(old(db.clients), old(db.orders), rows, validateRow, validate, today, suffixes)
    ensures t == Summarize(|rows|, outcomes)
  {
    t := ImportTally(|rows|, 0, 0, [], 0);
    outcomes := [];
    var i := 0;
    while i < |rows|
      invariant 0 <= i <= |rows|
      invariant (outcomes, db.clients, db.orders)
                == OrderImport(old(db.clients), old(db.orders), rows[..i], validateRow, validate, today, suffixes[..i])
      invariant t == Summarize(|rows|, outcomes)
      invariant db.Valid()
      invariant old(db.Consistent()) ==> db.Consistent()
    {
      var o := ImportOrderRow(db, rows[i], i, validateRow, validate, today, suffixes[i]);
      OrderImportStep(old(db.clients), old(db.orders), rows, validateRow, validate, today, suffixes, i);
      SummarizeStep(|rows|, outcomes, o);
      t := Record(t, o);
      outcomes := outcomes + [o];
      i := i + 1;
    }
    assert rows[..|rows|] == rows && suffixes[..|rows|] == suffixes;
  }
}
