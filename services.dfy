/** The two services of the application over one SQLite database: the
    client service (`client_service.py`) and the order service
    (`orders_service.py`). The database is a `Database` object holding the
    `clients` and `orders` tables; each service call is one atomic step on it.
    Every client carries two denormalised counters, `total_orders` and
    `total_revenue`, that the order service keeps equal to the number and the
    total amount of that client's orders. */
module Services {

  import opened Wrappers
  import opened Text
  import opened Dates
  import opened Tables
  import opened Clients
  import opened Orders

  // ---------------------------------------------------------------------
  // What the schema guarantees

  /** Each row is stored under its own primary key. */
  predicate IdsMatch(clients: map<int, Client>, orders: map<int, Order>) {
    && (forall id | id in clients :: clients[id].id == id)
    && (forall id | id in orders :: orders[id].id == id)
  }

  /** `email` is UNIQUE; NULLs never collide. */
  predicate UniqueEmails(clients: map<int, Client>) {
    forall i, j | i in clients && j in clients && i != j && clients[i].email.Some? ::
      clients[i].email != clients[j].email
  }

  /** `order_number` is UNIQUE. */
  predicate UniqueNumbers(orders: map<int, Order>) {
    forall i, j | i in orders && j in orders && i != j :: orders[i].orderNumber != orders[j].orderNumber
  }

  /** Some client other than `except` already has the e-mail `e`. */
  predicate EmailTaken(clients: map<int, Client>, e: string, except: Option<int>) {
    exists id | id in clients :: clients[id].email == Some(e) && Some(id) != except
  }

  // ---------------------------------------------------------------------
  // The counters as functions of the orders table

  /** What order `k` adds to the order count of client `cid`. */
  function OwnOrder(orders: map<int, Order>, cid: int, k: int): real {
    if k in orders && orders[k].clientId == cid then 1.0 else 0.0
  }

  /** What order `k` adds to the revenue of client `cid`. */
  function OwnAmount(orders: map<int, Order>, cid: int, k: int): real {
    if k in orders && orders[k].clientId == cid then orders[k].totalAmount else 0.0
  }

  function CountOf(orders: map<int, Order>, cid: int): int -> real {
    k => OwnOrder(orders, cid, k)
  }

  function AmountOf(orders: map<int, Order>, cid: int): int -> real {
    k => OwnAmount(orders, cid, k)
  }

  /** The number of orders of client `cid`. */
  function OrderCount(orders: map<int, Order>, cid: int): real {
    SumSet(orders.Keys, CountOf(orders, cid))
  }

  /** The total amount of the orders of client `cid`. */
  function OrderRevenue(orders: map<int, Order>, cid: int): real {
    SumSet(orders.Keys, AmountOf(orders, cid))
  }

  /** Every client's counters agree with its orders. */
  predicate Counted(clients: map<int, Client>, orders: map<int, Order>) {
    forall id | id in clients ::
      clients[id].totalOrders as real == OrderCount(orders, id) && clients[id].totalRevenue == OrderRevenue(orders, id)
  }

  /** Every order belongs to a stored client. */
  predicate NoOrphans(clients: map<int, Client>, orders: map<int, Order>) {
    forall k | k in orders :: orders[k].clientId in clients
  }

  predicate HasOrders(orders: map<int, Order>, cid: int) {
    exists k | k in orders :: orders[k].clientId == cid
  }

  /** Adding order `k` adds one order and its amount to its owner and nothing
      to anybody else. */
  lemma CountsAfterInsert(orders: map<int, Order>, k: int, o: Order, cid: int)
    requires k !in orders
    ensures OrderCount(orders[k := o], cid) == OrderCount(orders, cid) + (if o.clientId == cid then 1.0 else 0.0)
    ensures OrderRevenue(orders[k := o], cid) == OrderRevenue(orders, cid) + (if o.clientId == cid then o.totalAmount else 0.0)
  {
    var after := orders[k := o];
    assert after.Keys - {k} == orders.Keys by {
      forall j | j in orders ensures j in after.Keys - {k} { }
    }
    SumSetRemove(after.Keys, CountOf(after, cid), k);
    SumSetAgree(orders.Keys, CountOf(after, cid), CountOf(orders, cid));
    SumSetRemove(after.Keys, AmountOf(after, cid), k);
    SumSetAgree(orders.Keys, AmountOf(after, cid), AmountOf(orders, cid));
  }

  /** Removing order `k` takes one order and its amount from its owner and
      nothing from anybody else. */
  lemma CountsAfterRemove(orders: map<int, Order>, k: int, cid: int)
    requires k in orders
    ensures OrderCount(orders - {k}, cid) == OrderCount(orders, cid) - (if orders[k].clientId == cid then 1.0 else 0.0)
    ensures OrderRevenue(orders - {k}, cid) == OrderRevenue(orders, cid) - (if orders[k].clientId == cid then orders[k].totalAmount else 0.0)
  {
    var after := orders - {k};
    assert after.Keys == orders.Keys - {k};
    SumSetRemove(orders.Keys, CountOf(orders, cid), k);
    SumSetAgree(after.Keys, CountOf(after, cid), CountOf(orders, cid));
    SumSetRemove(orders.Keys, AmountOf(orders, cid), k);
    SumSetAgree(after.Keys, AmountOf(after, cid), AmountOf(orders, cid));
  }

  /** Rewriting an order without changing its owner or amount changes no counter. */
  lemma CountsAfterReplace(orders: map<int, Order>, k: int, o: Order, cid: int)
    requires k in orders && o.clientId == orders[k].clientId && o.totalAmount == orders[k].totalAmount
    ensures OrderCount(orders[k := o], cid) == OrderCount(orders, cid)
    ensures OrderRevenue(orders[k := o], cid) == OrderRevenue(orders, cid)
  {
    var after := orders[k := o];
    assert after.Keys == orders.Keys;
    SumSetAgree(orders.Keys, CountOf(after, cid), CountOf(orders, cid));
    SumSetAgree(orders.Keys, AmountOf(after, cid), AmountOf(orders, cid));
  }

  /** A client nobody's order points at has no orders and no revenue. */
  lemma CountsWithoutOrders(orders: map<int, Order>, cid: int)
    requires !HasOrders(orders, cid)
    ensures OrderCount(orders, cid) == 0.0 && OrderRevenue(orders, cid) == 0.0
  {
    SumSetZero(orders.Keys, CountOf(orders, cid));
    SumSetZero(orders.Keys, AmountOf(orders, cid));
  }

  // ---------------------------------------------------------------------
  // Order numbers

  /** `generate_order_number()`: "ORD-", today as `%Y%m%d`, "-", then the six
      random digits `suffix`. `%Y` is not padded, as glibc's `strftime` does
      not pad it. */
  function OrderNumber(today: CalendarDate, suffix: string): (n: string)
    requires |suffix| == 6 && IsDigits(suffix)
    ensures |n| >= 12 && n[..4] == "ORD-" && n[|n| - 7] == '-' && n[|n| - 6..] == suffix
  {
    "ORD-" + Stamp(today) + "-" + suffix
  }

  /** `strftime("%Y%m%d")`. */
  function Stamp(d: CalendarDate): string {
    NatToString(d.year) + Padded(d.month, 2) + Padded(d.day, 2)
  }

  /** Reading an eight-digit stamp back. */
  function StampDate(t: string): Option<Date> {
    if |t| == 8 && IsDigits(t[..4]) && IsDigits(t[4..6]) && IsDigits(t[6..]) then
      Some(Date(DigitsValue(t[..4]), DigitsValue(t[4..6]), DigitsValue(t[6..])))
    else None
  }

  /** Reading the date back out of a 19-character order number. */
  function OrderNumberDate(number: string): Option<Date> {
    if |number| == 19 && number[..4] == "ORD-" && number[12] == '-' then StampDate(number[4..12]) else None
  }
  lemma {:induction false} NatToStringAtMost(n: nat, k: nat)
    requires 1 <= k && n < Pow10(k)
    ensures |NatToString(n)| <= k
  {
    if n >= 10 {
      assert n / 10 < Pow10(k - 1);
      NatToStringAtMost(n / 10, k - 1);
    }
  }

  lemma {:induction false} NatToStringAtLeast(n: nat, k: nat)
    requires 1 <= k && Pow10(k - 1) <= n
    ensures |NatToString(n)| >= k
  {
    if k > 1 {
      assert Pow10(k - 2) <= n / 10;
      NatToStringAtLeast(n / 10, k - 1);
    }
  }

  /** An order number always fits the `String(20)` column; from year 1000 on
      it is exactly 19 characters. */
  lemma OrderNumberFits(today: CalendarDate, suffix: string)
    requires |suffix| == 6 && IsDigits(suffix)
    ensures |OrderNumber(today, suffix)| <= 19 < OrderNumberColumn
    ensures today.year >= 1000 ==> |OrderNumber(today, suffix)| == 19
  {
    assert Pow10(4) == 10000;
    NatToStringAtMost(today.year, 4);
    if today.year >= 1000 {
      assert Pow10(3) == 1000;
      NatToStringAtLeast(today.year, 4);
    }
  }

  lemma StampRoundTrip(d: CalendarDate)
    requires d.year >= 1000
    ensures StampDate(Stamp(d)) == Some(d)
  {
    var y := NatToString(d.year);
    assert Pow10(3) == 1000 && Pow10(4) == 10000;
    NatToStringAtMost(d.year, 4);
    NatToStringAtLeast(d.year, 4);
    var t := Stamp(d);
    assert t[..4] == y && t[4..6] == Padded(d.month, 2) && t[6..] == Padded(d.day, 2);
    NatToStringValue(d.year);
    assert Pow10(2) == 100;
    PaddedValue(d.month, 2);
    PaddedValue(d.day, 2);
  }

  /** The order number records the day it was generated and the random digits. */
  lemma OrderNumberRoundTrip(today: CalendarDate, suffix: string)
    requires |suffix| == 6 && IsDigits(suffix)
    requires today.year >= 1000
    ensures OrderNumberDate(OrderNumber(today, suffix)) == Some(today)
    ensures OrderNumber(today, suffix)[13..] == suffix
  {
    var t := Stamp(today);
    var n := OrderNumber(today, suffix);
    OrderNumberFits(today, suffix);
    assert |t| == 8;
    assert n[..4] == "ORD-" && n[4..12] == t && n[12] == '-' && n[13..] == suffix;
    StampRoundTrip(today);
  }

  // ---------------------------------------------------------------------
  // Requests

  /** A request dictionary from the user interface: a key present with a
      text value or with `None`. */
  type ClientData = map<string, Option<string>>

  /** `data.get(key)`. */
  function Field(data: ClientData, key: string): Option<string> {
    if key in data then data[key] else None
  }

  /** `if data.get(key):` for a text value. */
  predicate Truthy(v: Option<string>) { v.Some? && v.value != "" }

  /** The keys `update_client` hands to the validator. */
  const ValidatedKeys: set<string> := {"first_name", "last_name", "patronymic", "email", "phone", "city", "notes"}

  /** The text columns of `Client`, the attributes an update may assign. */
  const TextColumns: set<string> := ValidatedKeys + {"status"}

  /** The other columns, whose values are not text. */
  const OtherColumns: set<string> := {"id", "registration_date", "total_orders", "total_revenue", "created_at", "updated_at"}

  /** Attributes of a `Client` object that are no column: its methods, the
      `orders` backref, what the declarative base and the ORM add, and the
      special names every Python object has. `hasattr` finds each of them. */
  predicate OtherAttribute(key: string) {
    || key in {"to_dict", "validate_data", "orders", "metadata", "registry"}
    || (|key| >= 2 && key[..2] == "__")
    || (|key| >= 4 && key[..4] == "_sa_")
  }

  /** The text columns are columns, and no other kind of attribute. */
  lemma TextColumnsAreColumns(key: string)
    requires key in TextColumns
    ensures key !in OtherColumns && !OtherAttribute(key)
  {
    // every text column's name starts with a lower-case letter
    assert key[0] != '_' by {
      assert key in {"first_name", "last_name", "patronymic", "email", "phone", "city", "notes", "status"};
    }
  }

  /** The answer of the client validator `validate_client_data`, whose code
      is not part of this model: accepted, and the error messages. */
  type ClientVerdict = ClientData -> (bool, seq<string>)

  /** The failures a service call reports. */
  datatype ServiceError =
    | Invalid(messages: seq<string>)   // the validator's errors
    | ClientNotFound                   // "Клиент не найден"
    | OrderNotFound                    // "Заказ не найден"
    | DuplicateEmail                   // "Клиент с таким email уже существует"
    | DatabaseError                    // an exception inside the session: rolled back

  /** The client an `add_client` call stores, when both names are given. */
  function ClientFromData(data: ClientData, id: int, today: CalendarDate): Client
    requires Field(data, "first_name").Some? && Field(data, "last_name").Some?
  {
    NewClient(id, Field(data, "first_name").value, Field(data, "last_name").value, Field(data, "patronymic"),
              Field(data, "email"), Field(data, "phone"), Field(data, "city"), Field(data, "notes"), today)
  }

  /** `setattr(client, key, value)` for every key of the update that names a
      text column; `None` when a NOT NULL name would become NULL. */
  function Assign(c: Client, updates: ClientData): Option<Client> {
    var first := if "first_name" in updates then updates["first_name"] else Some(c.firstName);
    var last := if "last_name" in updates then updates["last_name"] else Some(c.lastName);
    if first.None? || last.None? then None
    else
      Some(c.(firstName := first.value, lastName := last.value,
              patronymic := if "patronymic" in updates then updates["patronymic"] else c.patronymic,
              email := if "email" in updates then updates["email"] else c.email,
              phone := if "phone" in updates then updates["phone"] else c.phone,
              city := if "city" in updates then updates["city"] else c.city,
              notes := if "notes" in updates then updates["notes"] else c.notes,
              status := if "status" in updates then updates["status"] else c.status))
  }

  /** `getattr(client, key)` for a text column. */
  function TextColumn(c: Client, key: string): Option<string>
    requires key in TextColumns
  {
    match key
    case "first_name" => Some(c.firstName)
    case "last_name" => Some(c.lastName)
    case "patronymic" => c.patronymic
    case "email" => c.email
    case "phone" => c.phone
    case "city" => c.city
    case "notes" => c.notes
    case _ => c.status
  }

  /** An update fails exactly when it sets a name to `None`; otherwise every
      text column it names takes the new value, every other text column keeps
      its value, and the id, registration date and counters are untouched. */
  lemma AssignSpec(c: Client, updates: ClientData)
    ensures Assign(c, updates).None? <==>
              ("first_name" in updates && updates["first_name"].None?)
              || ("last_name" in updates && updates["last_name"].None?)
    ensures Assign(c, updates).Some? ==>
              var u := Assign(c, updates).value;
              && u.id == c.id && u.registrationDate == c.registrationDate
              && u.totalOrders == c.totalOrders && u.totalRevenue == c.totalRevenue
              && forall key | key in TextColumns ::
                   TextColumn(u, key) == if key in updates then updates[key] else TextColumn(c, key)
  {
  }

  /** The order a `create_order` request describes: `None` marks an absent key,
      `Some(None)` a key whose value is `None`. */
  datatype OrderRequest = OrderRequest(
    clientId: Option<int>,
    totalAmount: Option<real>,
    description: Option<Option<string>>,
    status: Option<Option<string>>,
    orderDate: Option<Option<CalendarDate>>)

  /** The answers of the order validator's `validate_order_data` and
      `validate_order_status_update`, which the order service expects to
      return a verdict and messages. */
  type OrderVerdict = OrderRequest -> (bool, seq<string>)
  type StatusVerdict = (int, string) -> (bool, seq<string>)

  /** The stored order for a request that names a client and an amount. An
      absent status or date takes its `.get` default; one given as `None` is
      left out of the INSERT by the ORM, so the column default applies all the
      same (`'pending'`, today). A `None` description has no column default
      and is stored as NULL. */
  function OrderFromRequest(req: OrderRequest, id: int, number: string, today: CalendarDate): (o: Order)
    requires req.clientId.Some? && req.totalAmount.Some?
    ensures o.id == id && o.clientId == req.clientId.value && o.orderNumber == number
    ensures o.totalAmount == req.totalAmount.value
    ensures o.status == Some(if req.status.Some? && req.status.value.Some? then req.status.value.value else DefaultOrderStatus)
    ensures o.orderDate == Some(if req.orderDate.Some? && req.orderDate.value.Some? then req.orderDate.value.value else today)
    ensures o.description == if req.description.Some? then req.description.value else Some("")
  {
    var status := match req.status case Some(Some(s)) => s case _ => DefaultOrderStatus;
    var date := match req.orderDate case Some(Some(d)) => d case _ => today;
    Order(id, req.clientId.value, number, Some(date), Some(status), req.totalAmount.value, req.description.GetOr(Some("")))
  }

  /** Client `c` with one more order of amount `amount`. */
  function Credit(c: Client, amount: real): Client {
    c.(totalOrders := c.totalOrders + 1, totalRevenue := c.totalRevenue + amount)
  }

  /** Client `c` with one order of amount `amount` fewer. */
  function Debit(c: Client, amount: real): Client {
    c.(totalOrders := c.totalOrders - 1, totalRevenue := c.totalRevenue - amount)
  }

  /** The part of an update the validator sees: the name and contact keys. */
  function Checked(updates: ClientData): (checked: ClientData)
    ensures forall k :: k in checked <==> k in updates && k in ValidatedKeys
    ensures forall k | k in checked :: checked[k] == updates[k]
  {
    map k | k in updates && k in ValidatedKeys :: updates[k]
  }

  /** `update_client` goes past validation: nothing to check, or accepted. */
  predicate UpdatePasses(updates: ClientData, validate: ClientVerdict) {
    |Checked(updates)| == 0 || validate(Checked(updates)).0
  }

  /** A truthy new e-mail that another client already has. */
  predicate EmailClash(clients: map<int, Client>, id: int, updates: ClientData) {
    "email" in updates && Truthy(updates["email"]) && EmailTaken(clients, updates["email"].value, Some(id))
  }

  /** The empty e-mail, which the check skips, held by another client. */
  predicate EmptyEmailClash(clients: map<int, Client>, id: int, updates: ClientData) {
    "email" in updates && updates["email"] == Some("") && EmailTaken(clients, "", Some(id))
  }

  /** What `add_client` answers on table `clients`: the new row, or why it
      failed. A missing name raises KeyError and a `None` name violates NOT
      NULL; the empty e-mail skips the uniqueness check and fails UNIQUE at
      commit. */
  function AddOutcome(clients: map<int, Client>, data: ClientData, validate: ClientVerdict, today: CalendarDate)
    : Result<Client, ServiceError>
  {
    var email := Field(data, "email");
    if !validate(data).0 then Err(Invalid(validate(data).1))
    else if Truthy(email) && EmailTaken(clients, email.value, None) then Err(DuplicateEmail)
    else if Field(data, "first_name").None? || Field(data, "last_name").None? then Err(DatabaseError)
    else if email == Some("") && EmailTaken(clients, "", None) then Err(DatabaseError)
    else Ok(ClientFromData(data, NewId(clients), today))
  }

  /** What `update_client` answers on table `clients`: the updated row, or
      why it failed. */
  function UpdateOutcome(clients: map<int, Client>, id: int, updates: ClientData, validate: ClientVerdict)
    : Result<Client, ServiceError>
  {
    if !UpdatePasses(updates, validate) then Err(Invalid(validate(Checked(updates)).1))
    else if id !in clients then Err(ClientNotFound)
    else if EmailClash(clients, id, updates) then Err(DuplicateEmail)
    else if Assign(clients[id], updates).None? then Err(DatabaseError)
    else if EmptyEmailClash(clients, id, updates) then Err(DatabaseError)
    else Ok(Assign(clients[id], updates).value)
  }

  /** What `create_order` answers on the tables: the new order, or why it
      failed. A missing client id or amount raises KeyError or violates NOT
      NULL; a drawn order number already in use fails UNIQUE at commit. */
  function CreateOutcome(clients: map<int, Client>, orders: map<int, Order>, req: OrderRequest,
                         validate: OrderVerdict, today: CalendarDate, suffix: string): Result<Order, ServiceError>
    requires |suffix| == 6 && IsDigits(suffix)
  {
    if !validate(req).0 then Err(Invalid(validate(req).1))
    else if req.clientId.None? then Err(DatabaseError)
    else if req.clientId.value !in clients then Err(ClientNotFound)
    else if req.totalAmount.None? then Err(DatabaseError)
    else if exists k | k in orders :: orders[k].orderNumber == OrderNumber(today, suffix) then Err(DatabaseError)
    else Ok(OrderFromRequest(req, NewId(orders), OrderNumber(today, suffix), today))
  }

  // ---------------------------------------------------------------------
  // The database

  class Database {
    var clients: map<int, Client>
    var orders: map<int, Order>

    /** The schema's constraints. */
    predicate Valid()
      reads this
    {
      IdsMatch(clients, orders) && UniqueEmails(clients) && UniqueNumbers(orders)
    }

    /** The counters the order service maintains, and no order without its client. */
    predicate Consistent()
      reads this
    {
      Counted(clients, orders) && NoOrphans(clients, orders)
    }

    constructor ()
      ensures clients == map[] && orders == map[]
      ensures Valid() && Consistent()
    {
      clients := map[];
      orders := map[];
    }

    /** `ClientService.add_client`. */
    method AddClient(data: ClientData, validate: ClientVerdict, today: CalendarDate)
      returns (r: Result<ClientDict, ServiceError>)
      requires Valid()
      modifies this
      ensures Valid() && orders == old(orders)
      ensures old(Consistent()) ==> Consistent()
      ensures !validate(data).0 ==> r == Err(Invalid(validate(data).1))
      ensures r == Err(DuplicateEmail) <==>
                validate(data).0 && Truthy(Field(data, "email")) && EmailTaken(old(clients), Field(data, "email").value, None)
      ensures r.Ok? <==>
                && validate(data).0
                && !(Truthy(Field(data, "email")) && EmailTaken(old(clients), Field(data, "email").value, None))
                && Field(data, "first_name").Some? && Field(data, "last_name").Some?
                && !(Field(data, "email") == Some("") && EmailTaken(old(clients), "", None))
      ensures r.Err? ==> clients == old(clients)
      ensures r.Ok? ==>
                var id := NewId(old(clients));
                && clients == old(clients)[id := ClientFromData(data, id, today)]
                && r.value == Clients.ToDict(clients[id])
      ensures match AddOutcome(old(clients), data, validate, today)
              case Err(e) => r == Err(e) && clients == old(clients)
              case Ok(c) => r == Ok(Clients.ToDict(c)) && clients == old(clients)[NewId(old(clients)) := c]
    {
      var (ok, messages) := validate(data);
      if !ok {
        return Err(Invalid(messages));
      }
      var email := Field(data, "email");
      if Truthy(email) && EmailTaken(clients, email.value, None) {
        return Err(DuplicateEmail);
      }
      if Field(data, "first_name").None? || Field(data, "last_name").None? {
        // a missing key raises KeyError, a None name violates NOT NULL
        return Err(DatabaseError);
      }
      if email == Some("") && EmailTaken(clients, "", None) {
        // the empty e-mail skips the check above and fails UNIQUE at commit
        return Err(DatabaseError);
      }
      var id := NewId(clients);
      var c := ClientFromData(data, id, today);
      AddKeepsValid(clients, orders, id, c);
      if Consistent() {
        CountsWithoutOrders(orders, id);
      }
      clients := clients[id := c];
      r := Ok(Clients.ToDict(c));
    }

    /** `ClientService.get_client`. */
    function GetClient(id: int): (r: Option<ClientDict>)
      reads this
      ensures r.Some? <==> id in clients
      ensures r.Some? ==> r.value == Clients.ToDict(clients[id])
    {
      if id in clients then Some(Clients.ToDict(clients[id])) else None
    }

    /** `ClientService.update_client`: the validator sees only the name and
        contact keys; every text column the update names is assigned, and
        keys that name no column are ignored. */
    method UpdateClient(id: int, updates: ClientData, validate: ClientVerdict)
      returns (r: Result<ClientDict, ServiceError>)
      requires Valid()
      requires forall k | k in updates :: k !in OtherColumns && !OtherAttribute(k)
      modifies this
      ensures Valid() && orders == old(orders)
      ensures old(Consistent()) ==> Consistent()
      ensures !UpdatePasses(updates, validate) ==> r == Err(Invalid(validate(Checked(updates)).1))
      ensures r == Err(ClientNotFound) <==> UpdatePasses(updates, validate) && id !in old(clients)
      ensures r == Err(DuplicateEmail) <==>
                UpdatePasses(updates, validate) && id in old(clients) && EmailClash(old(clients), id, updates)
      ensures r.Ok? <==>
                && UpdatePasses(updates, validate)
                && id in old(clients)
                && !EmailClash(old(clients), id, updates)
                && Assign(old(clients)[id], updates).Some?
                && !EmptyEmailClash(old(clients), id, updates)
      ensures r.Err? ==> clients == old(clients)
      ensures r.Ok? ==>
                && clients == old(clients)[id := Assign(old(clients)[id], updates).value]
                && r.value == Clients.ToDict(clients[id])
      ensures match UpdateOutcome(old(clients), id, updates, validate)
              case Err(e) => r == Err(e) && clients == old(clients)
              case Ok(c) => r == Ok(Clients.ToDict(c)) && clients == old(clients)[id := c]
    {
      var checked := Checked(updates);
      if |checked| > 0 {
        var (ok, messages) := validate(checked);
        if !ok {
          return Err(Invalid(messages));
        }
      }
      if id !in clients {
        return Err(ClientNotFound);
      }
      if EmailClash(clients, id, updates) {
        return Err(DuplicateEmail);
      }
      var c := Assign(clients[id], updates);
      if c.None? {
        // a `None` name violates NOT NULL at commit
        return Err(DatabaseError);
      }
      if EmptyEmailClash(clients, id, updates) {
        // the empty e-mail skips the check above and fails UNIQUE at commit
        return Err(DatabaseError);
      }
      Replace(c.value);
      r := Ok(Clients.ToDict(c.value));
    }

    /** The `UPDATE` of one client's text columns, committed. */
    method Replace(c: Client)
      requires Valid()
      requires c.id in clients
      requires c.totalOrders == clients[c.id].totalOrders && c.totalRevenue == clients[c.id].totalRevenue
      requires c.email.Some? ==> !EmailTaken(clients, c.email.value, Some(c.id))
      modifies this
      ensures Valid() && orders == old(orders)
      ensures old(Consistent()) ==> Consistent()
      ensures clients == old(clients)[c.id := c]
    {
      clients := clients[c.id := c];
    }

    /** `ClientService.delete_client`. The client's orders stay where they are. */
    method DeleteClient(id: int) returns (r: Option<ServiceError>)
      requires Valid()
      modifies this
      ensures Valid() && orders == old(orders)
      ensures r.None? <==> id in old(clients)
      ensures r.Some? ==> r.value == ClientNotFound && clients == old(clients)
      ensures r.None? ==> clients == old(clients) - {id}
      ensures old(Consistent()) && !HasOrders(orders, id) ==> Consistent()
    {
      if id !in clients {
        return Some(ClientNotFound);
      }
      clients := clients - {id};
      r := None;
    }

    /** `OrderService.create_order`. */
    method CreateOrder(req: OrderRequest, validate: OrderVerdict, today: CalendarDate, suffix: string)
      returns (r: Result<OrderDict, ServiceError>)
      requires Valid()
      requires |suffix| == 6 && IsDigits(suffix)
      modifies this
      ensures Valid()
      ensures old(Consistent()) ==> Consistent()
      ensures !validate(req).0 ==> r == Err(Invalid(validate(req).1))
      ensures r == Err(ClientNotFound) <==>
                validate(req).0 && req.clientId.Some? && req.clientId.value !in old(clients)
      ensures r.Ok? <==>
                && validate(req).0
                && req.clientId.Some? && req.clientId.value in old(clients)
                && req.totalAmount.Some?
                && forall k | k in old(orders) :: old(orders)[k].orderNumber != OrderNumber(today, suffix)
      ensures r.Err? ==> clients == old(clients) && orders == old(orders)
      ensures r.Ok? ==>
                var id := NewId(old(orders));
                var o := OrderFromRequest(req, id, OrderNumber(today, suffix), today);
                && orders == old(orders)[id := o]
                && clients == old(clients)[o.clientId := Credit(old(clients)[o.clientId], o.totalAmount)]
                && r.value == Orders.ToDict(o, clients)
      ensures match CreateOutcome(old(clients), old(orders), req, validate, today, suffix)
              case Err(e) => r == Err(e) && clients == old(clients) && orders == old(orders)
              case Ok(o) =>
                && orders == old(orders)[o.id := o]
                && clients == old(clients)[o.clientId := Credit(old(clients)[o.clientId], o.totalAmount)]
                && r == Ok(Orders.ToDict(o, clients))
    {
      var (ok, messages) := validate(req);
      if !ok {
        return Err(Invalid(messages));
      }
      if req.clientId.None? {
        // order_data['client_id'] raises KeyError
        return Err(DatabaseError);
      }
      var cid := req.clientId.value;
      if cid !in clients {
        return Err(ClientNotFound);
      }
      if req.totalAmount.None? {
        return Err(DatabaseError);
      }
      var number := OrderNumber(today, suffix);
      if exists k | k in orders :: orders[k].orderNumber == number {
        // the UNIQUE order number fails at commit; nothing is kept
        return Err(DatabaseError);
      }
      var o := OrderFromRequest(req, NewId(orders), number, today);
      Place(o);
      r := Ok(Orders.ToDict(o, clients));
    }

    /** The `INSERT` of the order and the update of its client's counters,
        committed together. */
    method Place(o: Order)
      requires Valid()
      requires o.id !in orders && o.clientId in clients
      requires forall k | k in orders :: orders[k].orderNumber != o.orderNumber
      modifies this
      ensures Valid()
      ensures old(Consistent()) ==> Consistent()
      ensures orders == old(orders)[o.id := o]
      ensures clients == old(clients)[o.clientId := Credit(old(clients)[o.clientId], o.totalAmount)]
    {
      CreditKeepsValid(clients, orders, o.id, o);
      if Consistent() {
        CreditKeepsCounted(clients, orders, o.id, o);
      }
      clients := clients[o.clientId := Credit(clients[o.clientId], o.totalAmount)];
      orders := orders[o.id := o];
    }

    /** `OrderService.get_order`. */
    function GetOrder(id: int): (r: Result<OrderDict, ServiceError>)
      reads this
      ensures r.Ok? <==> id in orders
      ensures r.Ok? ==> r.value == Orders.ToDict(orders[id], clients)
      ensures r.Err? ==> r.error == OrderNotFound
    {
      if id in orders then Ok(Orders.ToDict(orders[id], clients)) else Err(OrderNotFound)
    }

    /** `OrderService.update_order_status`. */
    method UpdateOrderStatus(id: int, status: string, validate: StatusVerdict)
      returns (r: Result<OrderDict, ServiceError>)
      requires Valid()
      modifies this
      ensures Valid() && clients == old(clients)
      ensures old(Consistent()) ==> Consistent()
      ensures !validate(id, status).0 ==> r == Err(Invalid(validate(id, status).1))
      ensures r.Ok? <==> validate(id, status).0 && id in old(orders)
      ensures r.Err? ==> orders == old(orders)
      ensures r.Err? && validate(id, status).0 ==> r.error == OrderNotFound
      ensures r.Ok? ==>
                && orders == old(orders)[id := old(orders)[id].(status := Some(status))]
                && r.value == Orders.ToDict(orders[id], clients)
    {
      var (ok, messages) := validate(id, status);
      if !ok {
        return Err(Invalid(messages));
      }
      if id !in orders {
        return Err(OrderNotFound);
      }
      var o := orders[id].(status := Some(status));
      forall cid | cid in clients
        ensures OrderCount(orders[id := o], cid) == OrderCount(orders, cid)
        ensures OrderRevenue(orders[id := o], cid) == OrderRevenue(orders, cid)
      {
        CountsAfterReplace(orders, id, o, cid);
      }
      orders := orders[id := o];
      r := Ok(Orders.ToDict(o, clients));
    }

    /** `OrderService.delete_order`: the owner, when it exists, loses the
        order from its counters. */
    method DeleteOrder(id: int) returns (r: Option<ServiceError>)
      requires Valid()
      modifies this
      ensures Valid()
      ensures old(Consistent()) ==> Consistent()
      ensures r.None? <==> id in old(orders)
      ensures r.Some? ==> r.value == OrderNotFound && clients == old(clients) && orders == old(orders)
      ensures r.None? ==>
                var o := old(orders)[id];
                && orders == old(orders) - {id}
                && clients == if o.clientId in old(clients)
                              then old(clients)[o.clientId := Debit(old(clients)[o.clientId], o.totalAmount)]
                              else old(clients)
    {
      if id !in orders {
        return Some(OrderNotFound);
      }
      var o := orders[id];
      DebitKeepsValid(clients, orders, id);
      if Consistent() {
        DebitKeepsCounted(clients, orders, id);
      }
      if o.clientId in clients {
        clients := clients[o.clientId := Debit(clients[o.clientId], o.totalAmount)];
      }
      orders := orders - {id};
      r := None;
    }
  }

  // ---------------------------------------------------------------------
  // The counters survive each change

  /** Storing a new order and crediting its owner keeps every counter right. */
  lemma CreditKeepsCounted(clients: map<int, Client>, orders: map<int, Order>, k: int, o: Order)
    requires Counted(clients, orders) && NoOrphans(clients, orders)
    requires k !in orders && o.clientId in clients
    ensures var after := clients[o.clientId := Credit(clients[o.clientId], o.totalAmount)];
            Counted(after, orders[k := o]) && NoOrphans(after, orders[k := o])
  {
    var after := clients[o.clientId := Credit(clients[o.clientId], o.totalAmount)];
    forall cid | cid in after
      ensures after[cid].totalOrders as real == OrderCount(orders[k := o], cid)
      ensures after[cid].totalRevenue == OrderRevenue(orders[k := o], cid)
    {
      CountsAfterInsert(orders, k, o, cid);
    }
  }

  /** Storing an order under a fresh id with an unused number and crediting
      its owner keeps the schema's constraints. */
  lemma CreditKeepsValid(clients: map<int, Client>, orders: map<int, Order>, k: int, o: Order)
    requires IdsMatch(clients, orders) && UniqueEmails(clients) && UniqueNumbers(orders)
    requires k !in orders && o.id == k && o.clientId in clients
    requires forall j | j in orders :: orders[j].orderNumber != o.orderNumber
    ensures var after := clients[o.clientId := Credit(clients[o.clientId], o.totalAmount)];
            IdsMatch(after, orders[k := o]) && UniqueEmails(after) && UniqueNumbers(orders[k := o])
  {
  }

  /** A new client whose e-mail, if any, no other client has keeps the schema's constraints. */
  lemma AddKeepsValid(clients: map<int, Client>, orders: map<int, Order>, id: int, c: Client)
    requires IdsMatch(clients, orders) && UniqueEmails(clients)
    requires id !in clients && c.id == id
    requires c.email.Some? ==> !EmailTaken(clients, c.email.value, None)
    ensures IdsMatch(clients[id := c], orders) && UniqueEmails(clients[id := c])
  {
  }

  /** Removing an order and debiting its owner keeps the schema's constraints. */
  lemma DebitKeepsValid(clients: map<int, Client>, orders: map<int, Order>, k: int)
    requires IdsMatch(clients, orders) && UniqueEmails(clients) && UniqueNumbers(orders)
    requires k in orders
    ensures var o := orders[k];
            var after := if o.clientId in clients then clients[o.clientId := Debit(clients[o.clientId], o.totalAmount)] else clients;
            IdsMatch(after, orders - {k}) && UniqueEmails(after) && UniqueNumbers(orders - {k})
  {
  }

  /** Removing an order and debiting its owner keeps every counter right. */
  lemma DebitKeepsCounted(clients: map<int, Client>, orders: map<int, Order>, k: int)
    requires Counted(clients, orders) && NoOrphans(clients, orders)
    requires k in orders
    ensures var o := orders[k];
            var after := clients[o.clientId := Debit(clients[o.clientId], o.totalAmount)];
            Counted(after, orders - {k}) && NoOrphans(after, orders - {k})
  {
    var o := orders[k];
    var after := clients[o.clientId := Debit(clients[o.clientId], o.totalAmount)];
    forall cid | cid in after
      ensures after[cid].totalOrders as real == OrderCount(orders - {k}, cid)
      ensures after[cid].totalRevenue == OrderRevenue(orders - {k}, cid)
    {
      CountsAfterRemove(orders, k, cid);
    }
  }
}
