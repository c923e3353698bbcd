/** `OrderValidator` of `order_validators.py`: the error lists for an order
    record, for each of its items and for a set of search filters. The checks
    see Python values, so a value of the wrong type can make a check raise. */
module OrderValidators {

  import opened Wrappers
  import opened Values

  /** The statuses the validator accepts: four, including `confirmed`. */
  const OrderStatuses: seq<string> := ["pending", "confirmed", "completed", "cancelled"]

  predicate IsOrderStatus(v: Value) {
    v.VStr? && v.s in OrderStatuses
  }

  /** What is wrong with one item. */
  datatype ItemProblem =
    | NoProductName | ProductNameTooLong
    | NoQuantity | BadQuantityFormat | QuantityNotPositive
    | NoPrice | BadPriceFormat | NegativePrice

  /** One message of the list; an item's messages carry its number, `index + 1`. */
  datatype OrderError =
    | NoClientId
    | NoItems
    | Item(number: int, problem: ItemProblem)
    | BadStatus
    | BadOrderDate
    | BadDeliveryDate

  // ---------------------------------------------------------------------
  // validate_order_item

  /** The product-name check: `None` when the name is present, truthy and at most 200 long. */
  function NameCheck(item: Value): (r: Result<Option<ItemProblem>, PyError>)
    ensures r == Ok(None) <==>
      Get(item, "product_name").Present? && Truthy(Get(item, "product_name").value)
      && PyLen(Get(item, "product_name").value).Some? && PyLen(Get(item, "product_name").value).value <= 200
    ensures r == Ok(Some(NoProductName)) <==>
      Get(item, "product_name").Absent? || (Get(item, "product_name").Present? && !Truthy(Get(item, "product_name").value))
  {
    match Get(item, "product_name")
    case Raises => Err(TypeError)
    case Absent => Ok(Some(NoProductName))
    case Present(v) =>
      if !Truthy(v) then Ok(Some(NoProductName))
      else
        match PyLen(v)
        case None => Err(TypeError)
        case Some(n) => Ok(if n > 200 then Some(ProductNameTooLong) else None)
  }

  /** The quantity check: `int()` must succeed and give a positive number.
      `int()` of an infinite float raises `OverflowError`, which is not caught. */
  function QuantityCheck(item: Value): (r: Result<Option<ItemProblem>, PyError>)
    ensures r == Ok(None) <==>
      Get(item, "quantity").Present? && PyInt(Get(item, "quantity").value).Ok? && PyInt(Get(item, "quantity").value).value > 0
    ensures r == Ok(Some(NoQuantity)) <==> Get(item, "quantity").Absent?
  {
    match Get(item, "quantity")
    case Raises => Err(TypeError)
    case Absent => Ok(Some(NoQuantity))
    case Present(v) =>
      match PyInt(v)
      case Err(OverflowError) => Err(OverflowError)
      case Err(_) => Ok(Some(BadQuantityFormat))
      case Ok(q) => Ok(if q <= 0 then Some(QuantityNotPositive) else None)
  }

  /** The price check: `Decimal(str())` must succeed and not be negative; a NaN
      fails the comparison, which counts as a format error. */
  function PriceCheck(item: Value): (r: Result<Option<ItemProblem>, PyError>)
    ensures r.Err? <==> Get(item, "price").Raises?
    ensures r == Ok(None) <==>
      Get(item, "price").Present? && DecimalOfStr(Get(item, "price").value).Some?
      && DecimalNegative(DecimalOfStr(Get(item, "price").value).value) == Some(false)
  {
    match Get(item, "price")
    case Raises => Err(TypeError)
    case Absent => Ok(Some(NoPrice))
    case Present(v) =>
      match DecimalOfStr(v)
      case None => Ok(Some(BadPriceFormat))
      case Some(x) =>
        match DecimalNegative(x)
        case None => Ok(Some(BadPriceFormat))
        case Some(neg) => Ok(if neg then Some(NegativePrice) else None)
  }

  function Tagged(number: int, p: Option<ItemProblem>): seq<OrderError> {
    if p.Some? then [Item(number, p.value)] else []
  }

  /** `validate_order_item(item, index)`: the three checks run in turn and every
      failure is reported; an exception in one of them ends the whole call. */
  function ValidateOrderItem(item: Value, index: int): (r: Result<seq<OrderError>, PyError>)
    ensures r.Ok? <==> NameCheck(item).Ok? && QuantityCheck(item).Ok? && PriceCheck(item).Ok?
    ensures r.Ok? ==> |r.value| <= 3
    ensures r.Ok? ==> forall e | e in r.value :: e.Item? && e.number == index + 1
    ensures r.Ok? ==> (r.value == [] <==> NameCheck(item) == Ok(None) && QuantityCheck(item) == Ok(None) && PriceCheck(item) == Ok(None))
  {
    match NameCheck(item)
    case Err(e) => Err(e)
    case Ok(name) =>
      match QuantityCheck(item)
      case Err(e) => Err(e)
      case Ok(quantity) =>
        match PriceCheck(item)
        case Err(e) => Err(e)
        case Ok(price) => Ok(Tagged(index + 1, name) + Tagged(index + 1, quantity) + Tagged(index + 1, price))
  }

  // ---------------------------------------------------------------------
  // validate_order_data

  /** The errors of the items, numbered from 1 in item order; the first item
      whose check raises ends the loop with that exception. */
  function ItemsErrors(items: seq<Value>): (r: Result<seq<OrderError>, PyError>)
    ensures r.Ok? ==> forall e | e in r.value :: e.Item? && 1 <= e.number <= |items|
  {
    if items == [] then Ok([])
    else
      match ItemsErrors(items[..|items| - 1])
      case Err(e) => Err(e)
      case Ok(before) =>
        match ValidateOrderItem(items[|items| - 1], |items| - 1)
        case Err(e) => Err(e)
        case Ok(last) => Ok(before + last)
  }

  /** The client-id part: missing or falsy gives one error. */
  function ClientIdErrors(data: map<string, Value>): seq<OrderError> {
    if "client_id" !in data || !Truthy(data["client_id"]) then [NoClientId] else []
  }

  predicate ItemsMissing(data: map<string, Value>) {
    "items" !in data || !Truthy(data["items"])
  }

  /** The status, order-date and delivery-date part, checked after the items. */
  function TrailingErrors(data: map<string, Value>): seq<OrderError> {
    (if "status" in data && !IsOrderStatus(data["status"]) then [BadStatus] else [])
    + (if "order_date" in data && Truthy(data["order_date"]) && !data["order_date"].VDateTime? then [BadOrderDate] else [])
    + (if "delivery_date" in data && Truthy(data["delivery_date"]) && !data["delivery_date"].VDateTime? then [BadDeliveryDate] else [])
  }

  /** What `validate_order_data` returns or raises. */
  function OrderDataErrors(data: map<string, Value>): Result<seq<OrderError>, PyError> {
    if ItemsMissing(data) then Ok(ClientIdErrors(data) + [NoItems] + TrailingErrors(data))
    else
      match Iterate(data["items"])
      case None => Err(TypeError)
      case Some(items) =>
        match ItemsErrors(items)
        case Err(e) => Err(e)
        case Ok(es) => Ok(ClientIdErrors(data) + es + TrailingErrors(data))
  }

  /** Once a prefix of the items raises, the whole loop raises the same exception. */
  lemma {:induction false} ItemsErrorsKeepsFailure(items: seq<Value>, k: nat)
    requires k <= |items| && ItemsErrors(items[..k]).Err?
    ensures ItemsErrors(items) == ItemsErrors(items[..k])
    decreases |items| - k
  {
    if k < |items| {
      assert items[..k + 1][..k] == items[..k];
      ItemsErrorsKeepsFailure(items, k + 1);
    } else {
      assert items[..k] == items;
    }
  }

  /** `validate_order_data`: the client id, then every item in turn, then the
      status and the two dates. */
  method ValidateOrderData(data: map<string, Value>) returns (r: Result<seq<OrderError>, PyError>)
    ensures r == OrderDataErrors(data)
  {
    var errors := ClientIdErrors(data);
    if ItemsMissing(data) {
      return Ok(errors + [NoItems] + TrailingErrors(data));
    }
    var items := Iterate(data["items"]);
    if items.None? {
      return Err(TypeError);
    }
    var itemErrors := CheckItems(items.value);
    if itemErrors.Err? {
      return Err(itemErrors.error);
    }
    r := Ok(errors + itemErrors.value + TrailingErrors(data));
  }

  /** The loop over the items of `validate_order_data`: each item's messages
      in turn, or the first exception an item raises. */
  method CheckItems(list: seq<Value>) returns (r: Result<seq<OrderError>, PyError>)
    ensures r == ItemsErrors(list)
  {
    var errors := [];
    var i := 0;
    while i < |list|
      invariant 0 <= i <= |list|
      invariant ItemsErrors(list[..i]) == Ok(errors)
    {
      assert list[..i + 1][..i] == list[..i];
      var itemErrors := ValidateOrderItem(list[i], i);
      if itemErrors.Err? {
        ItemsErrorsKeepsFailure(list, i + 1);
        return Err(itemErrors.error);
      }
      errors := errors + itemErrors.value;
      i := i + 1;
    }
    assert list[..i] == list;
    r := Ok(errors);
  }

  /** Missing or empty items give exactly one items error and no item errors. */
  lemma MissingItemsOneError(data: map<string, Value>)
    requires ItemsMissing(data)
    ensures OrderDataErrors(data).Ok?
    ensures multiset(OrderDataErrors(data).value)[NoItems] == 1
    ensures forall e | e in OrderDataErrors(data).value :: !e.Item?
  {
    var c, t := ClientIdErrors(data), TrailingErrors(data);
    assert NoItems !in c && NoItems !in t;
    assert multiset(c + [NoItems] + t) == multiset(c) + multiset{NoItems} + multiset(t);
  }

  /** A list of items: the items' errors are those of each item in order, each
      tagged with its position plus one. */
  lemma {:induction false} ItemsInOrder(items: seq<Value>, k: nat)
    requires k < |items| && ItemsErrors(items).Ok?
    ensures ValidateOrderItem(items[k], k).Ok?
    ensures ItemsErrors(items[..k]).Ok? && ItemsErrors(items[..k + 1]).Ok?
    ensures ItemsErrors(items[..k + 1]).value == ItemsErrors(items[..k]).value + ValidateOrderItem(items[k], k).value
  {
    if ItemsErrors(items[..k + 1]).Err? {
      ItemsErrorsKeepsFailure(items, k + 1);
      assert false;
    }
    assert items[..k + 1][..k] == items[..k];
  }

  /** The order data is accepted exactly when the client id is given, the
      items are a non-empty collection of valid items, and status and dates are
      acceptable. */
  lemma OrderDataValid(data: map<string, Value>)
    ensures OrderDataErrors(data) == Ok([]) <==>
      && ClientIdErrors(data) == [] && !ItemsMissing(data) && TrailingErrors(data) == []
      && Iterate(data["items"]).Some? && ItemsErrors(Iterate(data["items"]).value) == Ok([])
  {
  }

  /** The item at `index` passes its checks. */
  predicate ItemOk(item: Value, index: int) {
    ValidateOrderItem(item, index) == Ok([])
  }

  /** One more item: the list passes exactly when the earlier items and the new one pass. */
  lemma ItemsErrorsStep(items: seq<Value>)
    requires items != []
    ensures ItemsErrors(items) == Ok([]) <==>
      ItemsErrors(items[..|items| - 1]) == Ok([]) && ItemOk(items[|items| - 1], |items| - 1)
  {
  }

  /** The items' errors are empty exactly when every item passes. */
  lemma {:induction false} ItemsValid(items: seq<Value>)
    ensures ItemsErrors(items) == Ok([]) <==> forall k | 0 <= k < |items| :: ItemOk(items[k], k)
  {
    if items != [] {
      var n := |items| - 1;
      ItemsValid(items[..n]);
      ItemsErrorsStep(items);
      AllStep(items, items[..n], ItemOk, ItemsErrors(items) == Ok([]), ItemsErrors(items[..n]) == Ok([]));
    }
  }

  /** "Every element passes" for a sequence one longer. */
  lemma AllStep<T>(s: seq<T>, init: seq<T>, ok: (T, int) -> bool, whole: bool, front: bool)
    requires s != [] && init == s[..|s| - 1]
    requires whole <==> front && ok(s[|s| - 1], |s| - 1)
    requires front <==> forall k | 0 <= k < |init| :: ok(init[k], k)
    ensures whole <==> forall k | 0 <= k < |s| :: ok(s[k], k)
  {
    assert forall k | 0 <= k < |init| :: init[k] == s[k];
  }

  // ---------------------------------------------------------------------
  // validate_order_filters

  /** One message of the filter check, naming the filter it is about. */
  datatype FilterError =
    | BadDateFilter(field: string)
    | BadNumberFilter(field: string)
    | NegativeFilter(field: string)
    | BadStatusFilter

  const DateFilterFields: seq<string> := ["start_date", "end_date"]
  const AmountFilterFields: seq<string> := ["min_amount", "max_amount"]

  /** The date check of one filter: when present and truthy it must be a datetime. */
  function DateFilterError(filters: map<string, Value>, field: string): seq<FilterError> {
    if field in filters && Truthy(filters[field]) && !filters[field].VDateTime? then [BadDateFilter(field)] else []
  }

  /** The amount check of one filter: unless absent or `None`, `Decimal(str())`
      of it must succeed and not be negative. */
  function AmountFilterError(filters: map<string, Value>, field: string): seq<FilterError> {
    if field !in filters || filters[field].VNone? then []
    else
      match DecimalOfStr(filters[field])
      case None => [BadNumberFilter(field)]
      case Some(x) =>
        match DecimalNegative(x)
        case None => [BadNumberFilter(field)]
        case Some(neg) => if neg then [NegativeFilter(field)] else []
  }

  function StatusFilterError(filters: map<string, Value>): seq<FilterError> {
    if "status" in filters && Truthy(filters["status"]) && !IsOrderStatus(filters["status"]) then [BadStatusFilter] else []
  }

  /** The errors of `fields` under `check`, in field order. */
  function FieldErrors(filters: map<string, Value>, fields: seq<string>, check: (map<string, Value>, string) -> seq<FilterError>): seq<FilterError> {
    if fields == [] then [] else FieldErrors(filters, fields[..|fields| - 1], check) + check(filters, fields[|fields| - 1])
  }

  /** What `validate_order_filters` returns. */
  function FilterErrors(filters: map<string, Value>): seq<FilterError> {
    FieldErrors(filters, DateFilterFields, DateFilterError)
    + FieldErrors(filters, AmountFilterFields, AmountFilterError)
    + StatusFilterError(filters)
  }

  /** Run `check` over `fields` in order and collect the messages. */
  method CheckFields(filters: map<string, Value>, fields: seq<string>, check: (map<string, Value>, string) -> seq<FilterError>)
    returns (errors: seq<FilterError>)
    ensures errors == FieldErrors(filters, fields, check)
  {
    errors := [];
    for i := 0 to |fields|
      invariant errors == FieldErrors(filters, fields[..i], check)
    {
      assert fields[..i + 1][..i] == fields[..i];
      errors := errors + check(filters, fields[i]);
    }
    assert fields[..|fields|] == fields;
  }

  /** `validate_order_filters`: the date filters, the amount filters, then the status. */
  method ValidateOrderFilters(filters: map<string, Value>) returns (errors: seq<FilterError>)
    ensures errors == FilterErrors(filters)
  {
    var dateErrors := CheckFields(filters, DateFilterFields, DateFilterError);
    var amountErrors := CheckFields(filters, AmountFilterFields, AmountFilterError);
    errors := dateErrors + amountErrors + StatusFilterError(filters);
  }

  lemma TwoFields(filters: map<string, Value>, fields: seq<string>, check: (map<string, Value>, string) -> seq<FilterError>)
    requires |fields| == 2
    ensures FieldErrors(filters, fields, check) == check(filters, fields[0]) + check(filters, fields[1])
  {
    var first := fields[..1];
    assert first[..0] == [] && first[0] == fields[0];
    assert FieldErrors(filters, first, check) == FieldErrors(filters, [], check) + check(filters, fields[0]);
    assert FieldErrors(filters, fields, check) == FieldErrors(filters, first, check) + check(filters, fields[1]);
  }

  /** The filters pass exactly when both dates are absent, falsy or datetimes,
      both amounts are absent, `None` or non-negative decimals, and the status
      is absent, falsy or one of the four. */
  lemma FiltersValid(filters: map<string, Value>)
    ensures FilterErrors(filters) == [] <==>
      && (forall f | f in DateFilterFields :: DateFilterError(filters, f) == [])
      && (forall f | f in AmountFilterFields :: f !in filters || filters[f].VNone?
            || (DecimalOfStr(filters[f]).Some? && DecimalNegative(DecimalOfStr(filters[f]).value) == Some(false)))
      && StatusFilterError(filters) == []
  {
    TwoFields(filters, DateFilterFields, DateFilterError);
    TwoFields(filters, AmountFilterFields, AmountFilterError);
  }
}
