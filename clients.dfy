/** The `Client` record of `clients.py`: its columns and defaults, its
    dictionary form and its own field validation. */
module Clients {

  import opened Wrappers
  import opened Text
  import opened Patterns
  import opened Dates

  /** One row of the `clients` table. `first_name` and `last_name` are NOT
      NULL; every other text column may be NULL. */
  datatype Client = Client(
    id: int,
    firstName: string,
    lastName: string,
    patronymic: Option<string>,
    email: Option<string>,
    phone: Option<string>,
    registrationDate: Option<CalendarDate>,
    city: Option<string>,
    notes: Option<string>,
    status: Option<string>,
    totalOrders: int,
    totalRevenue: real)

  /** The column defaults a new row receives. */
  const DefaultStatus: string := "active"
  const DefaultTotalOrders: int := 0
  const DefaultTotalRevenue: real := 0.0

  /** A client as first stored: the given fields, registered today, status
      `active` and no orders yet. */
  function NewClient(id: int, firstName: string, lastName: string, patronymic: Option<string>,
                     email: Option<string>, phone: Option<string>, city: Option<string>,
                     notes: Option<string>, today: CalendarDate): (c: Client)
    ensures c.id == id && c.firstName == firstName && c.lastName == lastName
    ensures c.patronymic == patronymic && c.email == email && c.phone == phone
    ensures c.city == city && c.notes == notes
    ensures c.registrationDate == Some(today)
    ensures c.status == Some("active") && c.totalOrders == 0 && c.totalRevenue == 0.0
  {
    Client(id, firstName, lastName, patronymic, email, phone, Some(today), city, notes,
           Some(DefaultStatus), DefaultTotalOrders, DefaultTotalRevenue)
  }

  // ---------------------------------------------------------------------
  // to_dict

  /** `to_dict()`: every column as is, but the registration date as ISO text. */
  datatype ClientDict = ClientDict(
    id: int,
    firstName: string,
    lastName: string,
    patronymic: Option<string>,
    email: Option<string>,
    phone: Option<string>,
    registrationDate: Option<string>,
    city: Option<string>,
    notes: Option<string>,
    status: Option<string>,
    totalOrders: int,
    totalRevenue: real)

  function ToDict(c: Client): (d: ClientDict)
    ensures d.registrationDate.None? <==> c.registrationDate.None?
    ensures d.id == c.id && d.firstName == c.firstName && d.lastName == c.lastName
    ensures d.patronymic == c.patronymic && d.email == c.email && d.phone == c.phone
    ensures d.city == c.city && d.notes == c.notes && d.status == c.status
    ensures d.totalOrders == c.totalOrders && d.totalRevenue == c.totalRevenue
  {
    ClientDict(c.id, c.firstName, c.lastName, c.patronymic, c.email, c.phone,
               if c.registrationDate.Some? then Some(IsoFormat(c.registrationDate.value)) else None,
               c.city, c.notes, c.status, c.totalOrders, c.totalRevenue)
  }

  /** Reading a dictionary back; the ISO date text is parsed again. */
  function FromDict(d: ClientDict): Option<Client> {
    var date := if d.registrationDate.Some? then Parse(d.registrationDate.value, IsoDash) else None;
    if d.registrationDate.Some? && date.None? then None
    else Some(Client(d.id, d.firstName, d.lastName, d.patronymic, d.email, d.phone, date,
                     d.city, d.notes, d.status, d.totalOrders, d.totalRevenue))
  }

  /** The dictionary form loses nothing: the client can be read back from it. */
  lemma ToDictRoundTrip(c: Client)
    ensures FromDict(ToDict(c)) == Some(c)
  {
    if c.registrationDate.Some? {
      RenderParse(c.registrationDate.value, IsoDash);
    }
  }

  // ---------------------------------------------------------------------
  // validate_data

  /** The messages of `validate_data`, in the order it checks. */
  datatype FieldError = BadFirstName | BadLastName | BadPatronymic | BadEmail | BadPhone

  function FieldRank(e: FieldError): nat {
    match e
    case BadFirstName => 0
    case BadLastName => 1
    case BadPatronymic => 2
    case BadEmail => 3
    case BadPhone => 4
  }

  /** `re.match(r'^[А-ЯЁа-яё\-]+$', s)` on the unstripped text. */
  predicate CyrillicField(s: string) { DollarMatch(s, CyrillicWord) }

  /** `re.match(email_pattern, s)`. */
  predicate EmailField(s: string) { DollarMatch(s, EmailShape) }

  /** `re.match(r'^\+7\d{10}$', s)`. */
  predicate PhoneField(s: string) { DollarMatch(s, RuPhone) }

  /** A nullable column that holds a non-empty string. */
  predicate Given(v: Option<string>) { v.Some? && v.value != "" }

  predicate Ranked(errors: seq<FieldError>) {
    forall i, j | 0 <= i < j < |errors| :: FieldRank(errors[i]) < FieldRank(errors[j])
  }

  /** `validate_data()`: both names must be Cyrillic; patronymic, e-mail and
      phone are checked only when given; every failure is reported once, in
      the order of the checks. */
  method ValidateData(c: Client) returns (errors: seq<FieldError>)
    ensures BadFirstName in errors <==> !CyrillicField(c.firstName)
    ensures BadLastName in errors <==> !CyrillicField(c.lastName)
    ensures BadPatronymic in errors <==> Given(c.patronymic) && !CyrillicField(c.patronymic.value)
    ensures BadEmail in errors <==> Given(c.email) && !EmailField(c.email.value)
    ensures BadPhone in errors <==> Given(c.phone) && !PhoneField(c.phone.value)
    ensures Ranked(errors)
  {
    var first := !CyrillicField(c.firstName);
    var last := !CyrillicField(c.lastName);
    var patronymic := Given(c.patronymic) && !CyrillicField(c.patronymic.value);
    var email := Given(c.email) && !EmailField(c.email.value);
    var phone := Given(c.phone) && !PhoneField(c.phone.value);
    errors := [];
    errors := Report(errors, first, BadFirstName);
    errors := Report(errors, last, BadLastName);
    errors := Report(errors, patronymic, BadPatronymic);
    errors := Report(errors, email, BadEmail);
    errors := Report(errors, phone, BadPhone);
  }

  /** Appending the message `e` when `failed`, after messages of lower rank. */
  method Report(errors: seq<FieldError>, failed: bool, e: FieldError) returns (r: seq<FieldError>)
    requires forall x | x in errors :: FieldRank(x) < FieldRank(e)
    requires Ranked(errors)
    ensures forall x :: x in r <==> x in errors || (failed && x == e)
    ensures forall x | x in r :: FieldRank(x) <= FieldRank(e)
    ensures Ranked(r)
  {
    r := errors;
    if failed {
      r := r + [e];
    }
  }

  /** Unlike the stand-alone name check, the record check does not strip:
      a leading blank makes an otherwise valid name fail. */
  lemma UnstrippedNameFails(name: string)
    requires name != []
    ensures !CyrillicField([' '] + name)
  {
    var s := [' '] + name;
    assert !IsCyrillicLetter(s[0]) && s[0] != '-';
    if |s| > 0 && s[|s| - 1] == '\n' {
      assert s[..|s| - 1][0] == ' ';
    }
  }
}
