/** The `Order` record of `orders.py` and its dictionary form. */
module Orders {

  import opened Wrappers
  import opened Dates
  import opened Patterns
  import opened Clients

  /** One row of the `orders` table. `client_id`, `order_number` and
      `total_amount` are NOT NULL; `order_number` is UNIQUE and at most
      `OrderNumberColumn` characters wide. */
  datatype Order = Order(
    id: int,
    clientId: int,
    orderNumber: string,
    orderDate: Option<CalendarDate>,
    status: Option<string>,
    totalAmount: real,
    description: Option<string>)

  const DefaultOrderStatus: string := "pending"
  const OrderNumberColumn: nat := 20

  /** `to_dict()`: the date as ISO text and, through the `client` relation,
      the owner's name as "last first". */
  datatype OrderDict = OrderDict(
    id: int,
    clientId: int,
    orderNumber: string,
    orderDate: Option<string>,
    status: Option<string>,
    totalAmount: real,
    description: Option<string>,
    clientName: Option<string>)

  /** The display name the relation yields for a client. */
  function ClientName(c: Client): string { c.lastName + " " + c.firstName }

  function ToDict(o: Order, clients: map<int, Client>): (d: OrderDict)
    ensures d.clientName.Some? <==> o.clientId in clients
    ensures o.clientId in clients ==> d.clientName.value == ClientName(clients[o.clientId])
    ensures d.orderDate.None? <==> o.orderDate.None?
    ensures d.id == o.id && d.clientId == o.clientId && d.orderNumber == o.orderNumber
    ensures d.status == o.status && d.totalAmount == o.totalAmount && d.description == o.description
  {
    OrderDict(o.id, o.clientId, o.orderNumber,
              if o.orderDate.Some? then Some(IsoFormat(o.orderDate.value)) else None,
              o.status, o.totalAmount, o.description,
              if o.clientId in clients then Some(ClientName(clients[o.clientId])) else None)
  }

  /** Reading the order columns of a dictionary back. */
  function FromDict(d: OrderDict): Option<Order> {
    var date := if d.orderDate.Some? then Parse(d.orderDate.value, IsoDash) else None;
    if d.orderDate.Some? && date.None? then None
    else Some(Order(d.id, d.clientId, d.orderNumber, date, d.status, d.totalAmount, d.description))
  }

  /** The dictionary keeps every column of the order. */
  lemma ToDictRoundTrip(o: Order, clients: map<int, Client>)
    ensures FromDict(ToDict(o, clients)) == Some(o)
  {
    if o.orderDate.Some? {
      RenderParse(o.orderDate.value, IsoDash);
    }
  }

  /** When the last name has no blank, the first blank of the display name
      separates the two names again. */
  lemma ClientNameSplits(c: Client)
    requires ' ' !in c.lastName
    ensures IndexOf(ClientName(c), ' ') == Some(|c.lastName|)
    ensures ClientName(c)[..|c.lastName|] == c.lastName
    ensures ClientName(c)[|c.lastName| + 1..] == c.firstName
  {
    var n := ClientName(c);
    assert n[|c.lastName|] == ' ';
    assert n[..|c.lastName|] == c.lastName;
    assert n[|c.lastName| + 1..] == c.firstName;
  }
}
