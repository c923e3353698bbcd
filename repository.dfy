/** The repository variant of the client store (`repository.py`): a
    `ClientRepository` of dictionaries over a `clients` table reached through
    a DB-API connection, a `ClientValidator` that checks the required and
    the contact fields, a `ClientService` that validates before it writes,
    and an `EventObserver` that dispatches events to subscribed callbacks.

    The table is a map from row id to a row, a row a map from column name
    to the value SQLite keeps; values pass through the standard adapters of
    Python's `sqlite3` on the way in and come back as stored. */
module Repository {

  import opened Wrappers
  import opened Text
  import opened Dates
  import opened Values
  import opened Tables
  import opened Grouping

  // ---------------------------------------------------------------------
  // Records and rows

  /** A dictionary with string keys, as the repository passes them around. */
  type Record = map<string, Value>

  /** The columns of `clients` the repository writes, and `id`. */
  datatype Column = Id | FirstName | LastName | Phone | Email | RegistrationDate | Notes | City

  const AllColumns: set<Column> := {Id, FirstName, LastName, Phone, Email, RegistrationDate, Notes, City}

  function ColumnName(c: Column): string {
    match c
    case Id => "id"
    case FirstName => "first_name"
    case LastName => "last_name"
    case Phone => "phone"
    case Email => "email"
    case RegistrationDate => "registration_date"
    case Notes => "notes"
    case City => "city"
  }

  /** The column a key of a query names, if any. */
  function ColumnOf(key: string): (r: Option<Column>)
    ensures r.Some? ==> ColumnName(r.value) == key
  {
    if key == "id" then Some(Id)
    else if key == "first_name" then Some(FirstName)
    else if key == "last_name" then Some(LastName)
    else if key == "phone" then Some(Phone)
    else if key == "email" then Some(Email)
    else if key == "registration_date" then Some(RegistrationDate)
    else if key == "notes" then Some(Notes)
    else if key == "city" then Some(City)
    else None
  }

  /** A key that `ColumnOf` does not know names no column at all. */
  lemma ColumnOfExact(key: string)
    ensures ColumnOf(key).None? <==> forall c: Column :: ColumnName(c) != key
  {
    if ColumnOf(key).None? {
      forall c: Column ensures ColumnName(c) != key {
        match c
        case Id =>
        case FirstName =>
        case LastName =>
        case Phone =>
        case Email =>
        case RegistrationDate =>
        case Notes =>
        case City =>
      }
    }
  }

  /** A stored row, column by column, as `dict(row)` shows it. */
  type Row = map<Column, Value>

  /** The keys `add` reads with `client_data[...]`, in the order it reads them. */
  const RequiredColumns: seq<Column> := [FirstName, LastName, Phone, Email]

  /** `repository.py` names no bounds for the integers it binds; SQLite's are 64 bits. */
  const MinInt64: int := -0x8000_0000_0000_0000
  const MaxInt64: int := 0x7FFF_FFFF_FFFF_FFFF

  /** What can go wrong at the database or in the service's checks. */
  datatype RepoError =
    | KeyError(key: Column)          // a required key of the record is missing
    | UnbindableValue                // a value `sqlite3` cannot bind (a list, a dict, a too large int)
    | SyntaxError                    // an `UPDATE` with nothing to set
    | NoSuchColumn                   // a key that names no column
    | InvalidData(message: string)   // the service's `ValueError`

  const InvalidClientData := "Invalid client data"
  const InvalidUpdateData := "Invalid update data"

  /** A value `sqlite3` can bind as a parameter. */
  predicate Bindable(v: Value) {
    match v
    case VInt(i) => MinInt64 <= i <= MaxInt64
    case VList(_) => false
    case VDict(_) => false
    case _ => true
  }

  /** The values SQLite hands back: NULL, integers, reals and text. */
  predicate StoredForm(v: Value) {
    v.VNone? || (v.VInt? && MinInt64 <= v.i <= MaxInt64) || v.VFloat? || v.VStr?
  }

  /** What is kept for a bound value: a bool as 0 or 1, a date or a datetime
      as its ISO text (the default adapters), anything else as it is. */
  function Stored(v: Value): (r: Value)
    requires Bindable(v)
    ensures StoredForm(r)
    ensures StoredForm(v) ==> r == v
    ensures v.VBool? ==> r == VInt(if v.b then 1 else 0)
    ensures v.VDate? ==> r == VStr(IsoFormat(v.date))
  {
    match v
    case VBool(b) => VInt(if b then 1 else 0)
    case VDate(d) => VStr(IsoFormat(d))
    case VDateTime(_, _, _, _) => VStr(PyStr(v))
    case _ => v
  }

  /** Storing is idempotent: a stored value is stored as itself. */
  lemma StoredIdempotent(v: Value)
    requires Bindable(v)
    ensures Bindable(Stored(v)) && Stored(Stored(v)) == Stored(v)
  {
  }

  /** A well-formed row: every column, stored values, its own id. */
  predicate RowOk(id: int, row: Row) {
    && row.Keys == AllColumns
    && row[Id] == VInt(id)
    && forall c | c in row :: StoredForm(row[c])
  }

  // ---------------------------------------------------------------------
  // add

  /** The first of `cols` whose key the record lacks. */
  function FirstMissing(cols: seq<Column>, data: Record): (r: Option<Column>)
    ensures r.None? <==> forall c | c in cols :: ColumnName(c) in data
    ensures r.Some? ==> r.value in cols && ColumnName(r.value) !in data
  {
    if cols == [] then None
    else if ColumnName(cols[0]) !in data then Some(cols[0])
    else
      var rest := FirstMissing(cols[1..], data);
      assert forall c | c in cols :: c == cols[0] || c in cols[1..];
      rest
  }

  /** `data.get(key, default)`. */
  function GetOr(data: Record, c: Column, default: Value): Value {
    if ColumnName(c) in data then data[ColumnName(c)] else default
  }

  /** The seven parameters of the `INSERT`, in column order. The required
      keys are read with `GetOr` only so that the function is total: `add`
      builds the parameters after `FirstMissing` found every required key. */
  function InsertParams(data: Record, now: Value): (ps: seq<Value>)
    ensures |ps| == 7
    ensures ps[4] == GetOr(data, RegistrationDate, now) && ps[5] == GetOr(data, Notes, VNone) && ps[6] == GetOr(data, City, VNone)
    ensures (forall c | c in RequiredColumns :: ColumnName(c) in data) ==>
              && ps[0] == data[ColumnName(FirstName)] && ps[1] == data[ColumnName(LastName)]
              && ps[2] == data[ColumnName(Phone)] && ps[3] == data[ColumnName(Email)]
  {
    [GetOr(data, FirstName, VNone), GetOr(data, LastName, VNone), GetOr(data, Phone, VNone), GetOr(data, Email, VNone),
     GetOr(data, RegistrationDate, now), GetOr(data, Notes, VNone), GetOr(data, City, VNone)]
  }

  /** Every parameter is one `sqlite3` can bind. */
  predicate AllBindable(ps: seq<Value>) {
    forall i | 0 <= i < |ps| :: Bindable(ps[i])
  }

  /** Why `add` raises, if it does: a missing key while the parameters are
      built, then a parameter `sqlite3` cannot bind. */
  function AddError(data: Record, now: Value): (r: Option<RepoError>)
    ensures r.Some? && r.value.KeyError? <==> FirstMissing(RequiredColumns, data).Some?
    ensures r.Some? && r.value.KeyError? ==> r.value.key == FirstMissing(RequiredColumns, data).value
    ensures r == Some(UnbindableValue) <==>
              FirstMissing(RequiredColumns, data).None? && !AllBindable(InsertParams(data, now))
    ensures r.Some? ==> r.value.KeyError? || r.value == UnbindableValue
    ensures r.None? ==> FirstMissing(RequiredColumns, data).None? && AllBindable(InsertParams(data, now))
  {
    var missing := FirstMissing(RequiredColumns, data);
    if missing.Some? then Some(KeyError(missing.value))
    else if !AllBindable(InsertParams(data, now)) then Some(UnbindableValue)
    else None
  }

  /** The row the `INSERT` creates under `id` from its parameters `ps`. */
  function InsertRow(ps: seq<Value>, id: int): (row: Row)
    requires |ps| == 7 && AllBindable(ps)
    requires MinInt64 <= id <= MaxInt64
    ensures RowOk(id, row)
    ensures && row[FirstName] == Stored(ps[0]) && row[LastName] == Stored(ps[1])
            && row[Phone] == Stored(ps[2]) && row[Email] == Stored(ps[3])
            && row[RegistrationDate] == Stored(ps[4]) && row[Notes] == Stored(ps[5]) && row[City] == Stored(ps[6])
  {
    var row := map c | c in AllColumns :: InsertCell(c, id, ps);
    assert row.Keys == AllColumns;
    row
  }

  /** One cell of the inserted row; `ps` are the parameters in column order. */
  function InsertCell(c: Column, id: int, ps: seq<Value>): (v: Value)
    requires |ps| == 7 && AllBindable(ps)
    requires MinInt64 <= id <= MaxInt64
    ensures StoredForm(v)
  {
    match c
    case Id => VInt(id)
    case FirstName => Stored(ps[0])
    case LastName => Stored(ps[1])
    case Phone => Stored(ps[2])
    case Email => Stored(ps[3])
    case RegistrationDate => Stored(ps[4])
    case Notes => Stored(ps[5])
    case City => Stored(ps[6])
  }

  /** The row `add` inserts for a record it accepts. */
  function AddedRow(data: Record, id: int, now: Value): Row
    requires AddError(data, now).None?
    requires MinInt64 <= id <= MaxInt64
  {
    InsertRow(InsertParams(data, now), id)
  }

  /** The inserted row holds the record's required fields, as stored. */
  lemma AddedRowRequired(data: Record, id: int, now: Value)
    requires AddError(data, now).None?
    requires MinInt64 <= id <= MaxInt64
    ensures var row := AddedRow(data, id, now);
            && RowOk(id, row)
            && row[FirstName] == Stored(data[ColumnName(FirstName)])
            && row[LastName] == Stored(data[ColumnName(LastName)])
            && row[Phone] == Stored(data[ColumnName(Phone)])
            && row[Email] == Stored(data[ColumnName(Email)])
  {
  }

  /** The inserted row holds the record's date or the current time, and its
      notes and city or NULL, as stored. */
  lemma AddedRowOptional(data: Record, id: int, now: Value)
    requires AddError(data, now).None?
    requires MinInt64 <= id <= MaxInt64
    ensures var row := AddedRow(data, id, now);
            && row[RegistrationDate] == Stored(GetOr(data, RegistrationDate, now))
            && row[Notes] == Stored(GetOr(data, Notes, VNone))
            && row[City] == Stored(GetOr(data, City, VNone))
  {
  }

  // ---------------------------------------------------------------------
  // update

  /** Why `update` raises, if it does: no `SET` clause at all, a key that
      names no column, a value `sqlite3` cannot bind. */
  function UpdateError(updates: Record): (r: Option<RepoError>)
    ensures r == Some(SyntaxError) <==> updates == map[]
    ensures r == Some(NoSuchColumn) <==> updates != map[] && exists k | k in updates :: ColumnOf(k).None?
    ensures r == Some(UnbindableValue) <==>
              && updates != map[] && (forall k | k in updates :: ColumnOf(k).Some?)
              && exists k | k in updates :: !Bindable(updates[k])
    ensures r.None? ==> forall k | k in updates :: ColumnOf(k).Some? && Bindable(updates[k])
  {
    if updates == map[] then Some(SyntaxError)
    else if exists k | k in updates :: ColumnOf(k).None? then Some(NoSuchColumn)
    else if exists k | k in updates :: !Bindable(updates[k]) then Some(UnbindableValue)
    else None
  }

  /** The row after its `SET` assignments. */
  function Updated(row: Row, updates: Record): (r: Row)
    requires forall k | k in updates :: Bindable(updates[k])
    ensures r.Keys == row.Keys
    ensures forall c | c in row && ColumnName(c) in updates :: r[c] == Stored(updates[ColumnName(c)])
    ensures forall c | c in row && ColumnName(c) !in updates :: r[c] == row[c]
  {
    map c | c in row :: if ColumnName(c) in updates then Stored(updates[ColumnName(c)]) else row[c]
  }

  // ---------------------------------------------------------------------
  // list

  /** A filter as given: a key and a scalar value, in the dictionary's order. */
  type Filters = seq<(string, Cell)>

  /** A filter `list` turns into a condition: one with a truthy value. */
  predicate IsActive(f: (string, Cell)) {
    Truthy(f.1)
  }

  /** The filters that become `key LIKE '%value%'` conditions, in order. */
  function Conditions(filters: Filters): (cs: Filters)
    ensures |cs| <= |filters|
    ensures forall f | f in cs :: f in filters && Truthy(f.1)
    ensures forall f | f in filters && Truthy(f.1) :: f in cs
  {
    Filter(filters, IsActive)
  }

  /** The text SQLite compares with `LIKE`; NULL matches nothing. A real is
      rendered as its repr. */
  function ColumnText(v: Value): Option<string> {
    match v
    case VStr(s) => Some(s)
    case VInt(i) => Some(IntToString(i))
    case VFloat(t) => Some(t)
    case _ => None
  }

  /** `key LIKE '%text%'` on a row: a substring match under ASCII case folding. */
  predicate Like(row: Row, key: string, text: string) {
    ColumnOf(key).Some? && ColumnOf(key).value in row && ILikeAscii(ColumnText(row[ColumnOf(key).value]), text)
  }

  /** The row satisfies every condition, `row[key] LIKE '%str(value)%'`. */
  predicate MatchesAll(cs: Filters, row: Row) {
    forall f | f in cs :: Like(row, f.0, PyStr(f.1))
  }

  function MatchesAllBy(cs: Filters): Row -> bool {
    row => MatchesAll(cs, row)
  }

  /** What `list(filters)` returns, or the error the query raises. */
  function ListResult(rows: map<int, Row>, filters: Filters): Result<seq<Row>, RepoError> {
    var cs := Conditions(filters);
    if exists f | f in cs :: ColumnOf(f.0).None? then Err(NoSuchColumn)
    else Ok(Filter(Rows(rows), MatchesAllBy(cs)))
  }

  /** The query fails exactly when a truthy filter names no column. */
  lemma ListFails(rows: map<int, Row>, filters: Filters)
    ensures ListResult(rows, filters).Err? <==> exists f | f in filters :: Truthy(f.1) && ColumnOf(f.0).None?
  {
    var cs := Conditions(filters);
    if exists f | f in filters :: Truthy(f.1) && ColumnOf(f.0).None? {
      var f :| f in filters && Truthy(f.1) && ColumnOf(f.0).None?;
      assert f in cs;
    }
  }

  /** Every listed row is stored and matches every truthy filter. */
  lemma ListSound(rows: map<int, Row>, filters: Filters, row: Row)
    requires ListResult(rows, filters).Ok? && row in ListResult(rows, filters).value
    ensures exists id | id in rows :: rows[id] == row
    ensures forall f | f in filters && Truthy(f.1) :: Like(row, f.0, PyStr(f.1))
  {
    var cs := Conditions(filters);
    FilterSound(Rows(rows), MatchesAllBy(cs), row);
    RowIn(rows, row);
  }

  /** Every stored row that matches every truthy filter is listed. */
  lemma ListComplete(rows: map<int, Row>, filters: Filters, id: int)
    requires ListResult(rows, filters).Ok? && id in rows
    requires forall f | f in filters && Truthy(f.1) :: Like(rows[id], f.0, PyStr(f.1))
    ensures rows[id] in ListResult(rows, filters).value
  {
    var cs := Conditions(filters);
    assert MatchesAllBy(cs)(rows[id]);
  }

  /** Filters whose values are all falsy list the whole table in scan order. */
  lemma ListUnfiltered(rows: map<int, Row>, filters: Filters)
    requires forall f | f in filters :: !Truthy(f.1)
    ensures ListResult(rows, filters) == Ok(Rows(rows))
  {
    var cs := Conditions(filters);
    FilterKeepsAll(Rows(rows), MatchesAllBy(cs));
  }

  // ---------------------------------------------------------------------
  // ClientValidator

  /** The field validators `validate` applies; `repository.py` uses
      `validate_fio`, `validate_email` and `validate_phone` without importing
      them, so they are given here. */
  datatype FieldChecks = FieldChecks(fio: Value -> bool, email: Value -> bool, phone: Value -> bool)

  /** The validated fields in the order `validate` visits them. */
  const CheckedColumns: seq<Column> := [FirstName, LastName, Email, Phone]

  function CheckOf(checks: FieldChecks, c: Column): Value -> bool {
    if c == Email then checks.email
    else if c == Phone then checks.phone
    else checks.fio
  }

  /** `field in data and data[field]`. */
  predicate Present(data: Record, c: Column) {
    ColumnName(c) in data && Truthy(data[ColumnName(c)])
  }

  /** Every field validator passes on every present field. */
  predicate FieldsPass(checks: FieldChecks, data: Record) {
    forall c | c in CheckedColumns :: Present(data, c) ==> CheckOf(checks, c)(data[ColumnName(c)])
  }

  /** The verdict of `validate(data, partial)`. */
  predicate Accepts(checks: FieldChecks, data: Record, partial: bool) {
    && (partial || forall c | c in RequiredColumns :: Present(data, c))
    && FieldsPass(checks, data)
  }

  /** `ClientValidator.validate`: the required fields first (unless partial),
      then the field validators; the first failure answers false. */
  method Validate(checks: FieldChecks, data: Record, partial: bool) returns (ok: bool)
    ensures ok <==> Accepts(checks, data, partial)
  {
    if !partial {
      var i := 0;
      while i < |RequiredColumns|
        invariant 0 <= i <= |RequiredColumns|
        invariant forall j | 0 <= j < i :: Present(data, RequiredColumns[j])
      {
        var field := ColumnName(RequiredColumns[i]);
        if field !in data || !Truthy(data[field]) {
          assert !Present(data, RequiredColumns[i]);
          return false;
        }
        i := i + 1;
      }
    }
    var i := 0;
    while i < |CheckedColumns|
      invariant 0 <= i <= |CheckedColumns|
      invariant forall j | 0 <= j < i ::
                  Present(data, CheckedColumns[j]) ==> CheckOf(checks, CheckedColumns[j])(data[ColumnName(CheckedColumns[j])])
    {
      var field := ColumnName(CheckedColumns[i]);
      if field in data && Truthy(data[field]) {
        if !CheckOf(checks, CheckedColumns[i])(data[field]) {
          return false;
        }
      }
      i := i + 1;
    }
    return true;
  }

  /** A record the full check accepts has every key `add` reads. */
  lemma AcceptedHasKeys(checks: FieldChecks, data: Record)
    requires Accepts(checks, data, false)
    ensures FirstMissing(RequiredColumns, data).None?
  {
  }

  /** The keys `update_client` hands to the validator. */
  const ContactKeys: seq<string> := ["first_name", "last_name", "email", "phone"]

  /** The part of an update `update_client` validates. */
  function ContactPart(updates: Record): (r: Record)
    ensures r.Keys <= updates.Keys
    ensures forall k | k in r :: k in ContactKeys && r[k] == updates[k]
    ensures forall k | k in updates && k in ContactKeys :: k in r
  {
    map k | k in updates && k in ContactKeys :: updates[k]
  }

  /** Checking only the contact part in partial mode is checking the fields of
      the whole update, and an empty part is always accepted. */
  lemma ContactPartCheck(checks: FieldChecks, updates: Record)
    ensures Accepts(checks, ContactPart(updates), true) <==> FieldsPass(checks, updates)
    ensures ContactPart(updates) == map[] ==> Accepts(checks, ContactPart(updates), true)
  {
    var part := ContactPart(updates);
    forall c | c in CheckedColumns ensures Present(part, c) <==> Present(updates, c) {
      assert ColumnName(c) in ContactKeys;
    }
  }

  /** Every row has the table's columns, its own id and stored values. */
  predicate RowsOk(rows: map<int, Row>) {
    forall id | id in rows :: RowOk(id, rows[id])
  }

  /** Storing a well-formed row under its own id keeps every row well-formed. */
  lemma StoreKeepsRowsOk(rows: map<int, Row>, id: int, row: Row)
    requires RowsOk(rows) && RowOk(id, row)
    ensures RowsOk(rows[id := row])
  {
  }

  // ---------------------------------------------------------------------
  // ClientRepository

  /** `ClientRepository` over its connection's `clients` table. */
  class ClientRepository {
    var rows: map<int, Row>

    predicate Valid()
      reads this
    {
      RowsOk(rows)
    }

    constructor ()
      ensures Valid() && rows == map[]
    {
      rows := map[];
    }

    /** `get`: the row as a dictionary, or `None`. */
    function Get(id: int): (r: Option<Row>)
      reads this
      ensures r.Some? <==> id in rows
      ensures r.Some? ==> r.value == rows[id]
    {
      if id in rows then Some(rows[id]) else None
    }

    /** `add`: the `INSERT`, then the given record with the new id. */
    method Add(data: Record, now: Value) returns (r: Result<Record, RepoError>)
      requires Valid()
      requires now.VDateTime?
      requires NewId(rows) <= MaxInt64
      modifies this
      ensures Valid()
      ensures r.Err? <==> AddError(data, now).Some?
      ensures r.Err? ==> r.error == AddError(data, now).value && rows == old(rows)
      ensures r.Ok? ==>
                && rows == old(rows)[NewId(old(rows)) := AddedRow(data, NewId(old(rows)), now)]
                && r.value == data["id" := VInt(NewId(old(rows)))]
    {
      var e := AddError(data, now);
      if e.Some? {
        return Err(e.value);
      }
      var id := NewId(rows);
      var row := AddedRow(data, id, now);
      AddedRowRequired(data, id, now);
      StoreKeepsRowsOk(rows, id, row);
      rows := rows[id := row];
      r := Ok(data["id" := VInt(id)]);
    }

    /** `update`: the `UPDATE`, then `None` when it touched no row and the
        re-read row otherwise. */
    method Update(id: int, updates: Record) returns (r: Result<Option<Row>, RepoError>)
      requires Valid()
      requires "id" !in updates
      modifies this
      ensures Valid()
      ensures r.Err? <==> UpdateError(updates).Some?
      ensures r.Err? ==> r.error == UpdateError(updates).value
      ensures r.Err? || id !in old(rows) ==> rows == old(rows)
      ensures r.Ok? ==> (r.value.None? <==> id !in old(rows))
      ensures r.Ok? && id in old(rows) ==>
                && rows == old(rows)[id := Updated(old(rows)[id], updates)]
                && r.value == Get(id)
    {
      var e := UpdateError(updates);
      if e.Some? {
        return Err(e.value);
      }
      if id !in rows {
        return Ok(None);
      }
      var row := Updated(rows[id], updates);
      rows := rows[id := row];
      r := Ok(Get(id));
    }

    /** `delete`: true when a row went. */
    method Delete(id: int) returns (deleted: bool)
      requires Valid()
      modifies this
      ensures Valid()
      ensures deleted <==> id in old(rows)
      ensures rows == old(rows) - {id}
    {
      deleted := id in rows;
      rows := rows - {id};
    }

    /** `list`: one `LIKE` condition per truthy filter, rows in scan order. */
    method List(filters: Filters) returns (r: Result<seq<Row>, RepoError>)
      ensures r == ListResult(rows, filters)
    {
      var cs: Filters := [];
      var i := 0;
      while i < |filters|
        invariant 0 <= i <= |filters|
        invariant cs == Conditions(filters[..i])
      {
        var (k, v) := filters[i];
        assert filters[..i + 1] == filters[..i] + [(k, v)];
        if Truthy(v) {
          cs := cs + [(k, v)];
        }
        i := i + 1;
      }
      assert filters[..i] == filters;
      if exists f | f in cs :: ColumnOf(f.0).None? {
        return Err(NoSuchColumn);
      }
      r := Ok(Filter(Rows(rows), MatchesAllBy(cs)));
    }
  }

  /** A record added to the table is listed last by an unfiltered `list`. */
  lemma AddedListedLast(rows: map<int, Row>, data: Record, now: Value)
    requires forall id | id in rows :: RowOk(id, rows[id])
    requires AddError(data, now).None? && NewId(rows) <= MaxInt64
    ensures var row := AddedRow(data, NewId(rows), now);
            ListResult(rows[NewId(rows) := row], []) == Ok(Rows(rows) + [row])
  {
    var id := NewId(rows);
    var row := AddedRow(data, id, now);
    RowsAddTop(rows, id, row);
    ListUnfiltered(rows[id := row], []);
  }

  /** A deleted row is neither read back nor listed. */
  lemma DeletedGone(rows: map<int, Row>, id: int, filters: Filters, row: Row)
    requires forall k | k in rows :: RowOk(k, rows[k])
    requires ListResult(rows - {id}, filters).Ok? && row in ListResult(rows - {id}, filters).value
    ensures Id in row && row[Id] != VInt(id)
  {
    var rest := rows - {id};
    var cs := Conditions(filters);
    assert row in Filter(Rows(rest), MatchesAllBy(cs));
    FilterSound(Rows(rest), MatchesAllBy(cs), row);
    RowInRemoved(rows, id, row);
    var k :| k in rows && k != id && rows[k] == row;
    assert RowOk(k, rows[k]);
  }

  // ---------------------------------------------------------------------
  // ClientService

  /** The repository-backed `ClientService`: a validator in front of the
      repository. */
  class ClientService {
    const repository: ClientRepository
    const checks: FieldChecks

    predicate Valid()
      reads this, repository
    {
      repository.Valid()
    }

    constructor (repository: ClientRepository, checks: FieldChecks)
      requires repository.Valid()
      ensures Valid() && this.repository == repository && this.checks == checks
    {
      this.repository := repository;
      this.checks := checks;
    }

    /** `create_client`: the full check, then `add`. */
    method CreateClient(data: Record, now: Value) returns (r: Result<Record, RepoError>)
      requires Valid()
      requires now.VDateTime?
      requires NewId(repository.rows) <= MaxInt64
      modifies repository
      ensures Valid()
      ensures !Accepts(checks, data, false) ==>
                r == Err(InvalidData(InvalidClientData)) && repository.rows == old(repository.rows)
      ensures Accepts(checks, data, false) ==>
                && (r.Err? <==> AddError(data, now) == Some(UnbindableValue))
                && (r.Err? ==> r.error == UnbindableValue && repository.rows == old(repository.rows))
                && (r.Ok? ==>
                      var id := NewId(old(repository.rows));
                      && repository.rows == old(repository.rows)[id := AddedRow(data, id, now)]
                      && r.value == data["id" := VInt(id)])
    {
      var ok := Validate(checks, data, false);
      if !ok {
        return Err(InvalidData(InvalidClientData));
      }
      AcceptedHasKeys(checks, data);
      r := repository.Add(data, now);
    }

    /** `find_clients`: `list` as it is. */
    method FindClients(filters: Filters) returns (r: Result<seq<Row>, RepoError>)
      requires Valid()
      ensures r == ListResult(repository.rows, filters)
    {
      r := repository.List(filters);
    }

    /** `update_client`: only the name and contact fields are checked, in
        partial mode, and only when the update has any; then `update`. */
    method UpdateClient(id: int, updates: Record) returns (r: Result<Option<Row>, RepoError>)
      requires Valid()
      requires "id" !in updates
      modifies repository
      ensures Valid()
      ensures !FieldsPass(checks, updates) ==>
                r == Err(InvalidData(InvalidUpdateData)) && repository.rows == old(repository.rows)
      ensures FieldsPass(checks, updates) ==>
                && (r.Err? <==> UpdateError(updates).Some?)
                && (r.Err? ==> r.error == UpdateError(updates).value)
                && (r.Err? || id !in old(repository.rows) ==> repository.rows == old(repository.rows))
                && (r.Ok? ==> (r.value.None? <==> id !in old(repository.rows)))
                && (r.Ok? && id in old(repository.rows) ==>
                      && repository.rows == old(repository.rows)[id := Updated(old(repository.rows)[id], updates)]
                      && r.value == Some(repository.rows[id]))
    {
      var part := ContactPart(updates);
      ContactPartCheck(checks, updates);
      if part != map[] {
        var ok := Validate(checks, part, true);
        if !ok {
          return Err(InvalidData(InvalidUpdateData));
        }
      }
      r := repository.Update(id, updates);
    }
  }

  // ---------------------------------------------------------------------
  // EventObserver

  /** An event: its name, its data (`data or {}`) and the time it was made. */
  datatype Event = Event(name: string, data: Record, timestamp: Value)

  /** `Event(name, data)` at the time `now`. */
  function NewEvent(name: string, data: Option<Record>, now: Value): (e: Event)
    ensures e.name == name && e.timestamp == now
    ensures e.data == map[] <==> data.None? || data.value == map[]
    ensures data.Some? ==> e.data == data.value
  {
    Event(name, if data.Some? then data.value else map[], now)
  }

  /** A subscribed callback, by what one call does: return normally (`None`)
      or raise an exception whose text is given. */
  type Callback = Event -> Option<string>

  /** The callbacks subscribed to an event type, in subscription order. */
  function Handlers(subscribers: map<string, seq<Callback>>, eventType: string): seq<Callback> {
    if eventType in subscribers then subscribers[eventType] else []
  }

  /** The subscriptions after `subscribe(eventType, callback)`. */
  function Subscribed(subscribers: map<string, seq<Callback>>, eventType: string, callback: Callback)
    : (r: map<string, seq<Callback>>)
    ensures Handlers(r, eventType) == Handlers(subscribers, eventType) + [callback]
    ensures forall t | t != eventType :: Handlers(r, t) == Handlers(subscribers, t)
  {
    subscribers[eventType := Handlers(subscribers, eventType) + [callback]]
  }

  /** What each callback does with the event, called one after another. */
  function Outcomes(handlers: seq<Callback>, e: Event): (r: seq<Option<string>>)
    ensures |r| == |handlers|
    ensures forall i | 0 <= i < |r| :: r[i] == handlers[i](e)
  {
    if handlers == [] then []
    else Outcomes(handlers[..|handlers| - 1], e) + [handlers[|handlers| - 1](e)]
  }

  function ErrorLine(message: string): string {
    "Error in event handler: " + message
  }

  /** The line printed for each callback that raised, in order. */
  function ErrorLines(outcomes: seq<Option<string>>): (lines: seq<string>)
    ensures |lines| == Count(outcomes, (o: Option<string>) => o.Some?)
  {
    if outcomes == [] then []
    else
      var last := outcomes[|outcomes| - 1];
      ErrorLines(outcomes[..|outcomes| - 1]) + if last.Some? then [ErrorLine(last.value)] else []
  }

  /** A new subscriber is called last, and only for its own event type. */
  lemma SubscribeThenNotify(subscribers: map<string, seq<Callback>>, eventType: string, callback: Callback, e: Event)
    ensures Outcomes(Handlers(Subscribed(subscribers, eventType, callback), e.name), e) ==
            Outcomes(Handlers(subscribers, e.name), e) + if e.name == eventType then [callback(e)] else []
  {
    var before := Handlers(subscribers, e.name);
    if e.name == eventType {
      assert (before + [callback])[..|before|] == before;
    }
  }

  /** A raising callback leaves the later ones called: the lines printed
      follow the failures one for one. */
  lemma {:induction false} ErrorLinesFollowFailures(outcomes: seq<Option<string>>, i: nat)
    requires i < |outcomes| && outcomes[i].Some?
    ensures ErrorLine(outcomes[i].value) in ErrorLines(outcomes)
  {
    var init := outcomes[..|outcomes| - 1];
    if i < |init| {
      assert init[i] == outcomes[i];
      ErrorLinesFollowFailures(init, i);
    }
  }

  /** `EventObserver` and its `_subscribers` dictionary. */
  class EventObserver {
    var subscribers: map<string, seq<Callback>>

    constructor ()
      ensures subscribers == map[]
    {
      subscribers := map[];
    }

    /** `subscribe`: the callback joins the end of its type's list. */
    method Subscribe(eventType: string, callback: Callback)
      modifies this
      ensures subscribers == Subscribed(old(subscribers), eventType, callback)
    {
      if eventType !in subscribers {
        subscribers := subscribers[eventType := []];
      }
      subscribers := subscribers[eventType := subscribers[eventType] + [callback]];
    }

    /** `notify`: every callback for the event's name in turn; an exception
        is printed and the loop goes on. */
    method Notify(e: Event) returns (outcomes: seq<Option<string>>, printed: seq<string>)
      ensures outcomes == Outcomes(Handlers(subscribers, e.name), e)
      ensures printed == ErrorLines(outcomes)
    {
      outcomes := [];
      printed := [];
      if e.name in subscribers {
        var handlers := subscribers[e.name];
        var i := 0;
        while i < |handlers|
          invariant 0 <= i <= |handlers|
          invariant outcomes == Outcomes(handlers[..i], e)
          invariant printed == ErrorLines(outcomes)
        {
          var o := handlers[i](e);
          assert handlers[..i + 1][..i] == handlers[..i];
          assert (outcomes + [o])[..|outcomes|] == outcomes;
          outcomes := outcomes + [o];
          if o.Some? {
            printed := printed + [ErrorLine(o.value)];
          }
          i := i + 1;
        }
        assert handlers[..i] == handlers;
      }
    }
  }
}
