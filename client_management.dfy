/** The full-name client store of `src/modules/client_management.py`:
    `ClientManager` writes a PostgreSQL `clients` table. The queries it
    builds clause by clause are modelled as the lists of conditions and of
    assignments it appends, evaluated over a map from id to row. */
module ClientManagement {

  import opened Wrappers
  import opened Text
  import opened Sorting
  import opened Tables
  import opened Grouping
  import opened Dates
  import SrcValidators

  /** A row of the `clients` table; the two timestamps are not modelled. */
  datatype ManagedClient = ManagedClient(
    id: int,
    fullName: string,
    phone: string,
    email: string,
    registrationDate: CalendarDate,
    notes: Option<string>)

  /** A date argument: text that `validate_date` reads, or a `date` object. */
  datatype DateArg = DateText(text: string) | DateValue(date: CalendarDate)

  /** The module's own `ValueError`s. */
  datatype Problem =
    | ShortName
    | BadPhone
    | BadEmail
    | BadDate
    | NoData
    | NotFound(id: int)

  function ProblemText(p: Problem): string {
    match p
    case ShortName => "ФИО должно содержать минимум 3 символа"
    case BadPhone => "Неверный формат телефонного номера"
    case BadEmail => "Неверный формат email адреса"
    case BadDate => "Неверный формат даты. Используйте ГГГГ-ММ-ДД, ДД.ММ.ГГГГ или ДД/ММ/ГГГГ"
    case NoData => "Нет данных для обновления"
    case NotFound(id) => "Клиент с ID " + IntToString(id) + " не найден"
  }

  /** The operation whose `except` clause wraps an error. */
  datatype Stage = Adding | Searching | Updating | Deleting | Listing

  function StageText(s: Stage): string {
    match s
    case Adding => "Ошибка при добавлении клиента"
    case Searching => "Ошибка при поиске клиентов"
    case Updating => "Ошибка при обновлении клиента"
    case Deleting => "Ошибка при удалении клиента"
    case Listing => "Ошибка при получении списка клиентов"
  }

  /** `Invalid` is a `ValueError` raised before the `try`; `Failed` is the
      `Exception` the `except` clause raises around an error in it, with the
      inner problem when it is one of the module's own (`None` for an error
      the database reports, whose text is not modelled). */
  datatype ManagerError =
    | Invalid(problem: Problem)
    | Failed(stage: Stage, cause: Option<Problem>)

  /** The widths of the `VARCHAR` columns. */
  const FullNameWidth := 255
  const PhoneWidth := 50
  const EmailWidth := 255

  predicate Fits(c: ManagedClient) {
    |c.fullName| <= FullNameWidth && |c.phone| <= PhoneWidth && |c.email| <= EmailWidth
  }

  /** A stored full name: stripped, at least three characters. */
  predicate ProperName(name: string) {
    |name| >= 3 && Strip(name) == name
  }

  lemma StrippedIsStripped(s: string)
    ensures Strip(Strip(s)) == Strip(s)
  {
    StripUnpadded(Strip(s));
  }

  /** `validate_date` for text arguments; a `date` object is taken as it is. */
  function DateOf(arg: DateArg): (r: Option<CalendarDate>)
    ensures arg.DateValue? ==> r == Some(arg.date)
    ensures arg.DateText? ==> r == SrcValidators.ValidateDate(arg.text)
  {
    match arg
    case DateText(t) => SrcValidators.ValidateDate(t)
    case DateValue(d) => Some(d)
  }

  /** Python truth of an optional text: present and not empty. */
  predicate GivenText(s: Option<string>) { s.Some? && s.value != "" }

  /** Python truth of a date argument: a `date` is always true, text when not empty. */
  predicate GivenDate(arg: Option<DateArg>) {
    arg.Some? && (arg.value.DateValue? || arg.value.text != "")
  }

  // ---------------------------------------------------------------------
  // search_clients: the WHERE clause

  datatype Condition =
    | AnyField(term: string)             // (full_name ILIKE .. OR phone ILIKE .. OR email ILIKE ..)
    | PhoneLike(term: string)
    | EmailLike(term: string)
    | RegisteredFrom(date: CalendarDate) // registration_date >= date
    | RegisteredTo(date: CalendarDate)   // registration_date <= date

  /** PostgreSQL's `ILIKE '%term%'` on a NOT NULL column. */
  predicate LikeText(column: string, term: string) {
    ILike(Some(column), term)
  }

  predicate Holds(k: Condition, c: ManagedClient) {
    match k
    case AnyField(t) => LikeText(c.fullName, t) || LikeText(c.phone, t) || LikeText(c.email, t)
    case PhoneLike(t) => LikeText(c.phone, t)
    case EmailLike(t) => LikeText(c.email, t)
    case RegisteredFrom(d) => Le(d, c.registrationDate)
    case RegisteredTo(d) => Le(c.registrationDate, d)
  }

  /** `WHERE 1=1 AND ...`: every appended condition holds. */
  predicate HoldsAll(ks: seq<Condition>, c: ManagedClient) {
    forall i | 0 <= i < |ks| :: Holds(ks[i], c)
  }

  datatype SearchParams = SearchParams(
    searchTerm: Option<string>,
    phone: Option<string>,
    email: Option<string>,
    dateFrom: Option<DateArg>,
    dateTo: Option<DateArg>,
    limit: Option<int>)

  /** The keyword defaults: no filters and `limit=100`. */
  const DefaultSearchLimit := 100
  const NoSearchParams := SearchParams(None, None, None, None, None, Some(DefaultSearchLimit))

  /** A date bound that is given but cannot be read. */
  predicate BadBound(arg: Option<DateArg>) {
    GivenDate(arg) && DateOf(arg.value).None?
  }

  /** The bound a given, readable date argument sets. */
  function Bound(arg: Option<DateArg>): Option<CalendarDate> {
    if GivenDate(arg) then DateOf(arg.value) else None
  }

  /** What the search asks of a row, stated on the parameters. */
  predicate Wanted(p: SearchParams, c: ManagedClient) {
    WantsTerm(p, c) && WantsPhone(p, c) && WantsEmail(p, c) && WantsFrom(p, c) && WantsTo(p, c)
  }

  /** The stripped search term is in the full name, the phone or the e-mail. */
  predicate WantsTerm(p: SearchParams, c: ManagedClient) {
    GivenText(p.searchTerm) ==>
      var t := Strip(p.searchTerm.value);
      LikeText(c.fullName, t) || LikeText(c.phone, t) || LikeText(c.email, t)
  }

  predicate WantsPhone(p: SearchParams, c: ManagedClient) {
    GivenText(p.phone) ==> LikeText(c.phone, Strip(p.phone.value))
  }

  predicate WantsEmail(p: SearchParams, c: ManagedClient) {
    GivenText(p.email) ==> LikeText(c.email, Strip(p.email.value))
  }

  /** Both date bounds are inclusive. */
  predicate WantsFrom(p: SearchParams, c: ManagedClient) {
    Bound(p.dateFrom).Some? ==> Le(Bound(p.dateFrom).value, c.registrationDate)
  }

  predicate WantsTo(p: SearchParams, c: ManagedClient) {
    Bound(p.dateTo).Some? ==> Le(c.registrationDate, Bound(p.dateTo).value)
  }

  function TermPart(p: SearchParams): seq<Condition> {
    if GivenText(p.searchTerm) then [AnyField(Strip(p.searchTerm.value))] else []
  }

  function PhonePart(p: SearchParams): seq<Condition> {
    if GivenText(p.phone) then [PhoneLike(Strip(p.phone.value))] else []
  }

  function EmailPart(p: SearchParams): seq<Condition> {
    if GivenText(p.email) then [EmailLike(Strip(p.email.value))] else []
  }

  function FromPart(p: SearchParams): seq<Condition> {
    if Bound(p.dateFrom).Some? then [RegisteredFrom(Bound(p.dateFrom).value)] else []
  }

  function ToPart(p: SearchParams): seq<Condition> {
    if Bound(p.dateTo).Some? then [RegisteredTo(Bound(p.dateTo).value)] else []
  }

  /** Builds the conditions of `search_clients` in the order the source
      appends them; an unreadable date is the wrapped `ValueError`. */
  method SearchConditions(p: SearchParams) returns (r: Result<seq<Condition>, ManagerError>)
    ensures r.Err? <==> BadBound(p.dateFrom) || BadBound(p.dateTo)
    ensures r.Err? ==> r.error == Failed(Searching, Some(BadDate))
    ensures r.Ok? ==> forall c :: HoldsAll(r.value, c) <==> Wanted(p, c)
  {
    var ks: seq<Condition> := [];
    if GivenText(p.searchTerm) {
      ks := ks + [AnyField(Strip(p.searchTerm.value))];
    }
    assert ks == TermPart(p);
    if GivenText(p.phone) {
      ks := ks + [PhoneLike(Strip(p.phone.value))];
    }
    assert ks == TermPart(p) + PhonePart(p);
    if GivenText(p.email) {
      ks := ks + [EmailLike(Strip(p.email.value))];
    }
    assert ks == TermPart(p) + PhonePart(p) + EmailPart(p);
    if GivenDate(p.dateFrom) {
      var d := DateOf(p.dateFrom.value);
      if d.None? {
        return Err(Failed(Searching, Some(BadDate)));
      }
      ks := ks + [RegisteredFrom(d.value)];
    }
    assert ks == TermPart(p) + PhonePart(p) + EmailPart(p) + FromPart(p);
    if GivenDate(p.dateTo) {
      var d := DateOf(p.dateTo.value);
      if d.None? {
        return Err(Failed(Searching, Some(BadDate)));
      }
      ks := ks + [RegisteredTo(d.value)];
    }
    assert ks == TermPart(p) + PhonePart(p) + EmailPart(p) + FromPart(p) + ToPart(p);
    r := Ok(ks);
    forall c ensures HoldsAll(ks, c) <==> Wanted(p, c) {
      ConditionsMeaning(p, c);
    }
  }

  /** The appended conditions hold exactly when the row is wanted. */
  lemma ConditionsMeaning(p: SearchParams, c: ManagedClient)
    ensures HoldsAll(TermPart(p) + PhonePart(p) + EmailPart(p) + FromPart(p) + ToPart(p), c) <==> Wanted(p, c)
  {
    var a, b, e, f, g := TermPart(p), PhonePart(p), EmailPart(p), FromPart(p), ToPart(p);
    HoldsAllConcat(a + b + e + f, g, c);
    HoldsAllConcat(a + b + e, f, c);
    HoldsAllConcat(a + b, e, c);
    HoldsAllConcat(a, b, c);
    TermPartMeaning(p, c);
    PhonePartMeaning(p, c);
    EmailPartMeaning(p, c);
    FromPartMeaning(p, c);
    ToPartMeaning(p, c);
  }

  lemma TermPartMeaning(p: SearchParams, c: ManagedClient)
    ensures HoldsAll(TermPart(p), c) == WantsTerm(p, c)
  {
    if GivenText(p.searchTerm) { HoldsOne(AnyField(Strip(p.searchTerm.value)), c); }
  }

  lemma PhonePartMeaning(p: SearchParams, c: ManagedClient)
    ensures HoldsAll(PhonePart(p), c) == WantsPhone(p, c)
  {
    if GivenText(p.phone) { HoldsOne(PhoneLike(Strip(p.phone.value)), c); }
  }

  lemma EmailPartMeaning(p: SearchParams, c: ManagedClient)
    ensures HoldsAll(EmailPart(p), c) == WantsEmail(p, c)
  {
    if GivenText(p.email) { HoldsOne(EmailLike(Strip(p.email.value)), c); }
  }

  lemma FromPartMeaning(p: SearchParams, c: ManagedClient)
    ensures HoldsAll(FromPart(p), c) == WantsFrom(p, c)
  {
    if Bound(p.dateFrom).Some? { HoldsOne(RegisteredFrom(Bound(p.dateFrom).value), c); }
  }

  lemma ToPartMeaning(p: SearchParams, c: ManagedClient)
    ensures HoldsAll(ToPart(p), c) == WantsTo(p, c)
  {
    if Bound(p.dateTo).Some? { HoldsOne(RegisteredTo(Bound(p.dateTo).value), c); }
  }

  lemma HoldsOne(k: Condition, c: ManagedClient)
    ensures HoldsAll([k], c) == Holds(k, c)
  {
    assert [k][0] == k;
  }

  lemma HoldsAllConcat(a: seq<Condition>, b: seq<Condition>, c: ManagedClient)
    ensures HoldsAll(a + b, c) <==> HoldsAll(a, c) && HoldsAll(b, c)
  {
    if HoldsAll(a, c) && HoldsAll(b, c) {
      forall i | 0 <= i < |a + b| ensures Holds((a + b)[i], c) {
        if i >= |a| { assert (a + b)[i] == b[i - |a|]; }
      }
    }
    if HoldsAll(a + b, c) {
      forall i | 0 <= i < |b| ensures Holds(b[i], c) { assert (a + b)[|a| + i] == b[i]; }
      forall i | 0 <= i < |a| ensures Holds(a[i], c) { assert (a + b)[i] == a[i]; }
    }
  }

  // ---------------------------------------------------------------------
  // ORDER BY registration_date DESC, full_name ASC, and LIMIT

  /** `a` may come before `b`: a later registration first, then names in
      code-point order. */
  predicate NewestFirst(a: ManagedClient, b: ManagedClient) {
    Lt(b.registrationDate, a.registrationDate)
    || (a.registrationDate == b.registrationDate && StrLe(a.fullName, b.fullName))
  }

  lemma NewestFirstOrder()
    ensures TotalPreorder(NewestFirst)
  {
    StrOrderFacts();
  }

  /** PostgreSQL's `LIMIT`: `None` is no limit, a negative count an error. */
  function Limited<T>(s: seq<T>, limit: Option<int>): (r: Option<seq<T>>)
    ensures limit.None? ==> r == Some(s)
    ensures limit.Some? && limit.value < 0 ==> r.None?
    ensures limit.Some? && limit.value >= 0 ==> r == Some(Take(s, limit.value))
  {
    if limit.None? then Some(s)
    else if limit.value < 0 then None
    else Some(Take(s, limit.value))
  }

  /** The rows a filter keeps, in the listing order. */
  function Ranked(rows: map<int, ManagedClient>, keep: ManagedClient -> bool): seq<ManagedClient> {
    SortBy(Filter(Rows(rows), keep), NewestFirst)
  }

  function WantedBy(p: SearchParams): ManagedClient -> bool {
    c => Wanted(p, c)
  }

  /** What `search_clients` returns, or the error it raises. */
  function SearchResult(rows: map<int, ManagedClient>, p: SearchParams): Result<seq<ManagedClient>, ManagerError> {
    if BadBound(p.dateFrom) || BadBound(p.dateTo) then Err(Failed(Searching, Some(BadDate)))
    else
      var listed := Limited(Ranked(rows, WantedBy(p)), p.limit);
      if listed.None? then Err(Failed(Searching, None)) else Ok(listed.value)
  }

  /** With no filter given, the search lists every stored row, newest first. */
  lemma SearchUnfiltered(rows: map<int, ManagedClient>, limit: Option<int>)
    ensures var p := NoSearchParams.(limit := limit);
            var listed := Limited(SortBy(Rows(rows), NewestFirst), limit);
            SearchResult(rows, p) == if listed.None? then Err(Failed(Searching, None)) else Ok(listed.value)
  {
    var p := NoSearchParams.(limit := limit);
    assert !BadBound(p.dateFrom) && !BadBound(p.dateTo);
    RankedUnfiltered(rows, p);
  }

  /** Without filters every row is wanted, so the ranking is the whole table's. */
  lemma RankedUnfiltered(rows: map<int, ManagedClient>, p: SearchParams)
    requires p.searchTerm.None? && p.phone.None? && p.email.None? && p.dateFrom.None? && p.dateTo.None?
    ensures Ranked(rows, WantedBy(p)) == SortBy(Rows(rows), NewestFirst)
  {
    forall c | c in Rows(rows) ensures WantedBy(p)(c) {
      WantedUnfiltered(p, c);
    }
    RankedAll(rows, WantedBy(p));
  }

  lemma WantedUnfiltered(p: SearchParams, c: ManagedClient)
    requires p.searchTerm.None? && p.phone.None? && p.email.None? && p.dateFrom.None? && p.dateTo.None?
    ensures WantedBy(p)(c)
  {
    assert Wanted(p, c);
  }

  lemma RankedAll(rows: map<int, ManagedClient>, keep: ManagedClient -> bool)
    requires forall c | c in Rows(rows) :: keep(c)
    ensures Ranked(rows, keep) == SortBy(Rows(rows), NewestFirst)
  {
    FilterKeepsAll(Rows(rows), keep);
  }

  /** Each listed client is a stored row the search asks for. */
  lemma SearchSound(rows: map<int, ManagedClient>, p: SearchParams, c: ManagedClient)
    requires SearchResult(rows, p).Ok? && c in SearchResult(rows, p).value
    ensures Wanted(p, c)
    ensures exists id | id in rows :: rows[id] == c
  {
    var kept := Filter(Rows(rows), WantedBy(p));
    assert c in Ranked(rows, WantedBy(p)) by { ListedRanked(rows, p); }
    assert c in multiset(kept);
    FilterSound(Rows(rows), WantedBy(p), c);
    RowIn(rows, c);
  }

  /** What the search returns is a prefix of the ranking, all of it without a limit. */
  lemma ListedRanked(rows: map<int, ManagedClient>, p: SearchParams)
    requires SearchResult(rows, p).Ok?
    ensures var ranked := Ranked(rows, WantedBy(p));
            var listed := SearchResult(rows, p).value;
            && |listed| <= |ranked| && listed == ranked[..|listed|]
            && (p.limit.None? ==> listed == ranked)
            && (p.limit.Some? ==> p.limit.value >= 0 && |listed| == if p.limit.value < |ranked| then p.limit.value else |ranked|)
  {
    var ranked := Ranked(rows, WantedBy(p));
    assert Limited(ranked, p.limit).Some? && SearchResult(rows, p).value == Limited(ranked, p.limit).value;
    LimitedPrefix(ranked, p.limit);
  }

  /** A limit that is not an error keeps a prefix: all of it without a limit,
      otherwise as many as the limit allows. */
  lemma LimitedPrefix<T>(s: seq<T>, limit: Option<int>)
    requires Limited(s, limit).Some?
    ensures var l := Limited(s, limit).value;
            && l == s[..|l|]
            && (limit.None? ==> l == s)
            && (limit.Some? ==> limit.value >= 0 && |l| == if limit.value < |s| then limit.value else |s|)
  {
  }

  /** Below the limit, every stored row the search asks for is listed. */
  lemma SearchComplete(rows: map<int, ManagedClient>, p: SearchParams, id: int)
    requires SearchResult(rows, p).Ok?
    requires id in rows && Wanted(p, rows[id])
    requires p.limit.Some? ==> Count(Rows(rows), WantedBy(p)) <= p.limit.value
    ensures rows[id] in SearchResult(rows, p).value
  {
    RankedHolds(rows, WantedBy(p), id);
    ListedRanked(rows, p);
  }

  /** A stored row the filter keeps is ranked, and the ranking holds as many
      rows as the filter keeps. */
  lemma RankedHolds(rows: map<int, ManagedClient>, keep: ManagedClient -> bool, id: int)
    requires id in rows && keep(rows[id])
    ensures rows[id] in Ranked(rows, keep)
    ensures |Ranked(rows, keep)| == Count(Rows(rows), keep)
  {
    var kept := Filter(Rows(rows), keep);
    assert rows[id] in kept;
    assert rows[id] in multiset(Ranked(rows, keep));
  }

  /** The list runs from the latest registration down, names ascending on a
      day, and never exceeds the limit. */
  lemma SearchOrdered(rows: map<int, ManagedClient>, p: SearchParams)
    requires SearchResult(rows, p).Ok?
    ensures SortedBy(SearchResult(rows, p).value, NewestFirst)
    ensures p.limit.Some? ==> |SearchResult(rows, p).value| <= p.limit.value
  {
    var ranked := Ranked(rows, WantedBy(p));
    RankedSorted(rows, WantedBy(p));
    ListedRanked(rows, p);
    var listed := SearchResult(rows, p).value;
    TakeSorted(ranked, |listed|, NewestFirst);
    assert Take(ranked, |listed|) == listed;
  }

  /** Whatever the filter, the ranking runs newest first. */
  lemma RankedSorted(rows: map<int, ManagedClient>, keep: ManagedClient -> bool)
    ensures SortedBy(Ranked(rows, keep), NewestFirst)
  {
    NewestFirstOrder();
    SortBySorted(Filter(Rows(rows), keep), NewestFirst);
  }

  /** The search fails exactly on an unreadable date bound or a negative limit. */
  lemma SearchFailure(rows: map<int, ManagedClient>, p: SearchParams)
    ensures SearchResult(rows, p).Err? <==>
              BadBound(p.dateFrom) || BadBound(p.dateTo) || (p.limit.Some? && p.limit.value < 0)
  {
  }

  /** A stored client is found by its own full name. */
  lemma FoundByOwnName(c: ManagedClient, p: SearchParams)
    requires ProperName(c.fullName)
    requires p == NoSearchParams.(searchTerm := Some(c.fullName))
    ensures Wanted(p, c)
  {
    ContainsTrivial(Lower(c.fullName));
  }

  // ---------------------------------------------------------------------
  // update_client: the SET clause

  datatype Assignment =
    | SetFullName(name: string)
    | SetPhone(phone: string)
    | SetEmail(email: string)
    | SetRegistrationDate(date: CalendarDate)
    | SetNotes(notes: string)

  function Assign(c: ManagedClient, a: Assignment): ManagedClient {
    match a
    case SetFullName(v) => c.(fullName := v)
    case SetPhone(v) => c.(phone := v)
    case SetEmail(v) => c.(email := v)
    case SetRegistrationDate(v) => c.(registrationDate := v)
    case SetNotes(v) => c.(notes := Some(v))
  }

  /** `UPDATE clients SET ...`: the assignments in the order written. */
  function AssignAll(c: ManagedClient, as_: seq<Assignment>): ManagedClient {
    if as_ == [] then c else Assign(AssignAll(c, as_[..|as_| - 1]), as_[|as_| - 1])
  }

  lemma AssignAllAppend(c: ManagedClient, as_: seq<Assignment>, a: seq<Assignment>)
    requires |a| <= 1
    ensures AssignAll(c, as_ + a) == if a == [] then AssignAll(c, as_) else Assign(AssignAll(c, as_), a[0])
  {
    if a == [] {
      assert as_ + a == as_;
    } else {
      assert (as_ + a)[..|as_|] == as_;
    }
  }

  /** The keyword arguments of `update_client`; `None` leaves a column alone. */
  datatype Changes = Changes(
    fullName: Option<string>,
    phone: Option<string>,
    email: Option<string>,
    registrationDate: Option<DateArg>,
    notes: Option<string>)

  /** The row with every supplied column replaced: stripped texts, the read date. */
  function Changed(c: ManagedClient, ch: Changes): ManagedClient
    requires ch.registrationDate.Some? ==> DateOf(ch.registrationDate.value).Some?
  {
    ManagedClient(c.id, NewName(c, ch), NewPhone(c, ch), NewEmail(c, ch), NewDate(c, ch),
                  if ch.notes.Some? then ch.notes else c.notes)
  }

  function NewName(c: ManagedClient, ch: Changes): string {
    if ch.fullName.Some? then Strip(ch.fullName.value) else c.fullName
  }

  function NewPhone(c: ManagedClient, ch: Changes): string {
    if ch.phone.Some? then Strip(ch.phone.value) else c.phone
  }

  function NewEmail(c: ManagedClient, ch: Changes): string {
    if ch.email.Some? then Strip(ch.email.value) else c.email
  }

  function NewDate(c: ManagedClient, ch: Changes): CalendarDate
    requires ch.registrationDate.Some? ==> DateOf(ch.registrationDate.value).Some?
  {
    if ch.registrationDate.Some? then DateOf(ch.registrationDate.value).value else c.registrationDate
  }

  predicate NameRejected(ch: Changes) { ch.fullName.Some? && |Strip(ch.fullName.value)| < 3 }
  predicate PhoneRejected(ch: Changes) { ch.phone.Some? && !SrcValidators.ValidatePhone(ch.phone.value) }
  predicate EmailRejected(ch: Changes) { ch.email.Some? && !SrcValidators.ValidateEmail(ch.email.value) }
  predicate DateRejected(ch: Changes) { ch.registrationDate.Some? && DateOf(ch.registrationDate.value).None? }
  predicate NothingChanged(ch: Changes) {
    ch.fullName.None? && ch.phone.None? && ch.email.None? && ch.registrationDate.None? && ch.notes.None?
  }

  /** The first check of `update_client` that fails, in the order the
      source makes them. */
  function Rejection(ch: Changes): (r: Option<Problem>)
    ensures r == Some(NoData) <==> NothingChanged(ch)
  {
    if NameRejected(ch) then Some(ShortName)
    else if PhoneRejected(ch) then Some(BadPhone)
    else if EmailRejected(ch) then Some(BadEmail)
    else if DateRejected(ch) then Some(BadDate)
    else if NothingChanged(ch) then Some(NoData)
    else None
  }

  /** Builds the assignments of `update_client` field by field; the first
      check that fails gives its message, and no field at all is "no data". */
  method UpdateAssignments(ch: Changes) returns (r: Result<seq<Assignment>, Problem>)
    ensures r.Err? <==> Rejection(ch).Some?
    ensures r.Err? ==> r.error == Rejection(ch).value
    ensures r.Ok? ==> r.value != [] && forall c :: AssignAll(c, r.value) == Changed(c, ch)
  {
    if NameRejected(ch) {
      return Err(ShortName);
    }
    var as_ := NamePart(ch);
    if PhoneRejected(ch) {
      return Err(BadPhone);
    }
    as_ := as_ + PhoneSet(ch);
    if EmailRejected(ch) {
      return Err(BadEmail);
    }
    as_ := as_ + EmailSet(ch);
    if DateRejected(ch) {
      return Err(BadDate);
    }
    as_ := as_ + DateSet(ch) + NotesSet(ch);
    if as_ == [] {
      assert NothingChanged(ch);
      return Err(NoData);
    }
    r := Ok(as_);
    forall c ensures AssignAll(c, as_) == Changed(c, ch) {
      AssignmentsMeaning(c, ch);
    }
  }

  function NamePart(ch: Changes): seq<Assignment> {
    if ch.fullName.Some? then [SetFullName(Strip(ch.fullName.value))] else []
  }

  function PhoneSet(ch: Changes): seq<Assignment> {
    if ch.phone.Some? then [SetPhone(Strip(ch.phone.value))] else []
  }

  function EmailSet(ch: Changes): seq<Assignment> {
    if ch.email.Some? then [SetEmail(Strip(ch.email.value))] else []
  }

  function DateSet(ch: Changes): seq<Assignment>
    requires ch.registrationDate.Some? ==> DateOf(ch.registrationDate.value).Some?
  {
    if ch.registrationDate.Some? then [SetRegistrationDate(DateOf(ch.registrationDate.value).value)] else []
  }

  function NotesSet(ch: Changes): seq<Assignment> {
    if ch.notes.Some? then [SetNotes(ch.notes.value)] else []
  }

  /** The appended assignments replace exactly the supplied columns. */
  lemma AssignmentsMeaning(c: ManagedClient, ch: Changes)
    requires ch.registrationDate.Some? ==> DateOf(ch.registrationDate.value).Some?
    ensures AssignAll(c, NamePart(ch) + PhoneSet(ch) + EmailSet(ch) + DateSet(ch) + NotesSet(ch)) == Changed(c, ch)
  {
    AssignsThroughDate(c, ch);
    AssignAllAppend(c, NamePart(ch) + PhoneSet(ch) + EmailSet(ch) + DateSet(ch), NotesSet(ch));
  }

  lemma AssignsThroughDate(c: ManagedClient, ch: Changes)
    requires ch.registrationDate.Some? ==> DateOf(ch.registrationDate.value).Some?
    ensures AssignAll(c, NamePart(ch) + PhoneSet(ch) + EmailSet(ch) + DateSet(ch))
            == c.(fullName := NewName(c, ch), phone := NewPhone(c, ch), email := NewEmail(c, ch),
                  registrationDate := NewDate(c, ch))
  {
    AssignsThroughEmail(c, ch);
    var before := c.(fullName := NewName(c, ch), phone := NewPhone(c, ch), email := NewEmail(c, ch));
    DateStep(c, NamePart(ch) + PhoneSet(ch) + EmailSet(ch), ch, before);
  }

  lemma DateStep(c: ManagedClient, as_: seq<Assignment>, ch: Changes, before: ManagedClient)
    requires ch.registrationDate.Some? ==> DateOf(ch.registrationDate.value).Some?
    requires AssignAll(c, as_) == before && before.registrationDate == c.registrationDate
    ensures AssignAll(c, as_ + DateSet(ch)) == before.(registrationDate := NewDate(c, ch))
  {
    DateSetStep(c, as_, DateSet(ch), NewDate(c, ch), before);
  }

  lemma DateSetStep(c: ManagedClient, as_: seq<Assignment>, tail: seq<Assignment>, d: CalendarDate, before: ManagedClient)
    requires tail == [SetRegistrationDate(d)] || (tail == [] && d == c.registrationDate)
    requires AssignAll(c, as_) == before && before.registrationDate == c.registrationDate
    ensures AssignAll(c, as_ + tail) == before.(registrationDate := d)
  {
    AssignAllAppend(c, as_, tail);
  }

  lemma AssignsThroughEmail(c: ManagedClient, ch: Changes)
    ensures AssignAll(c, NamePart(ch) + PhoneSet(ch) + EmailSet(ch))
            == c.(fullName := NewName(c, ch), phone := NewPhone(c, ch), email := NewEmail(c, ch))
  {
    AssignsThroughPhone(c, ch);
    AssignAllAppend(c, NamePart(ch) + PhoneSet(ch), EmailSet(ch));
  }

  lemma AssignsThroughPhone(c: ManagedClient, ch: Changes)
    ensures AssignAll(c, NamePart(ch) + PhoneSet(ch)) == c.(fullName := NewName(c, ch), phone := NewPhone(c, ch))
  {
    var n := NamePart(ch);
    assert AssignAll(c, n) == c.(fullName := NewName(c, ch)) by {
      AssignAllAppend(c, [], n);
      assert [] + n == n;
    }
    AssignAllAppend(c, n, PhoneSet(ch));
  }

  // ---------------------------------------------------------------------
  // The store

  /** What `delete_client` returns. */
  datatype Deleted = Deleted(message: string, deletedId: int)

  function DeletedMessage(name: string): string {
    "Клиент '" + name + "' успешно удален"
  }

  /** The default of `get_all_clients`. */
  const DefaultListLimit := 1000

  predicate StoreValid(rows: map<int, ManagedClient>, serial: int) {
    && serial >= 0
    && forall id | id in rows ::
         && rows[id].id == id
         && 1 <= id <= serial
         && ProperName(rows[id].fullName)
         && Fits(rows[id])
  }

  /** A row with a proper name that fits, stored under the next sequence value, keeps the store valid. */
  lemma InsertKeepsValid(rows: map<int, ManagedClient>, serial: int, c: ManagedClient)
    requires StoreValid(rows, serial)
    requires c.id == serial + 1 && ProperName(c.fullName) && Fits(c)
    ensures StoreValid(rows[serial + 1 := c], serial + 1)
  {
  }

  /** What `add_client` answers when the sequence would give `id`: the first
      failed check, a failed insert, or the stored row. */
  function Admission(id: int, fullName: string, phone: string, email: string, registrationDate: Option<DateArg>,
                     notes: Option<string>): (r: Result<ManagedClient, ManagerError>)
    ensures |Strip(fullName)| < 3 ==> r == Err(Invalid(ShortName))
    ensures |Strip(fullName)| >= 3 && !SrcValidators.ValidatePhone(phone) ==> r == Err(Invalid(BadPhone))
    ensures |Strip(fullName)| >= 3 && SrcValidators.ValidatePhone(phone) && !SrcValidators.ValidateEmail(email) ==>
              r == Err(Invalid(BadEmail))
    ensures r == Err(Invalid(BadDate)) <==>
              && |Strip(fullName)| >= 3 && SrcValidators.ValidatePhone(phone) && SrcValidators.ValidateEmail(email)
              && registrationDate.Some? && DateOf(registrationDate.value).None?
    ensures r.Ok? <==>
              && |Strip(fullName)| >= 3 && SrcValidators.ValidatePhone(phone) && SrcValidators.ValidateEmail(email)
              && registrationDate.Some? && DateOf(registrationDate.value).Some?
              && |Strip(fullName)| <= FullNameWidth && |Strip(phone)| <= PhoneWidth && |Strip(email)| <= EmailWidth
    ensures r.Ok? ==>
              && r.value == ManagedClient(id, Strip(fullName), Strip(phone), Strip(email),
                                          DateOf(registrationDate.value).value, notes)
              && ProperName(r.value.fullName) && Fits(r.value)
  {
    if |Strip(fullName)| < 3 then Err(Invalid(ShortName))
    else if !SrcValidators.ValidatePhone(phone) then Err(Invalid(BadPhone))
    else if !SrcValidators.ValidateEmail(email) then Err(Invalid(BadEmail))
    else if registrationDate.None? then Err(Failed(Adding, None))
    else if DateOf(registrationDate.value).None? then Err(Invalid(BadDate))
    else
      var c := ManagedClient(id, Strip(fullName), Strip(phone), Strip(email), DateOf(registrationDate.value).value, notes);
      if !Fits(c) then Err(Failed(Adding, None))
      else
        StrippedIsStripped(fullName);
        Ok(c)
  }

  /** `ClientManager` over its `clients` table; `serial` is the last value
      the `SERIAL` id sequence gave out. */
  class ClientManager {
    var rows: map<int, ManagedClient>
    var serial: int

    /** Every row is stored under its own id, drawn from the sequence, and
        holds a proper name and values that fit their columns. */
    predicate Valid()
      reads this
    {
      StoreValid(rows, serial)
    }

    constructor ()
      ensures Valid() && rows == map[] && serial == 0
    {
      rows := map[];
      serial := 0;
    }

    /** `add_client`: the answer `Admission` gives for the next sequence
        value, and the row stored when it is one. */
    method AddClient(fullName: string, phone: string, email: string, registrationDate: Option<DateArg>,
                     notes: Option<string>)
      returns (r: Result<ManagedClient, ManagerError>)
      requires Valid()
      modifies this
      ensures Valid()
      ensures r == Admission(old(serial) + 1, fullName, phone, email, registrationDate, notes)
      ensures r.Err? ==> rows == old(rows) && serial == old(serial)
      ensures r.Ok? ==> serial == old(serial) + 1 && rows == old(rows)[serial := r.value]
    {
      // the checks raise before the `try`; a too long value fails the insert
      r := Admission(serial + 1, fullName, phone, email, registrationDate, notes);
      if r.Ok? {
        Store(r.value);
      }
    }

    /** The `INSERT ... RETURNING`: the row takes the next sequence value. */
    method Store(c: ManagedClient)
      requires Valid()
      requires c.id == serial + 1 && ProperName(c.fullName) && Fits(c)
      modifies this
      ensures Valid()
      ensures serial == old(serial) + 1 && rows == old(rows)[serial := c]
    {
      InsertKeepsValid(rows, serial, c);
      serial := serial + 1;
      rows := rows[serial := c];
    }

    /** `search_clients`. */
    method SearchClients(p: SearchParams) returns (r: Result<seq<ManagedClient>, ManagerError>)
      ensures r == SearchResult(rows, p)
    {
      var ks := SearchConditions(p);
      if ks.Err? {
        return Err(ks.error);
      }
      var kept := Filter(Rows(rows), c => HoldsAll(ks.value, c));
      FilterAgree(Rows(rows), c => HoldsAll(ks.value, c), WantedBy(p));
      var listed := Limited(SortBy(kept, NewestFirst), p.limit);
      if listed.None? {
        // LIMIT must not be negative
        return Err(Failed(Searching, None));
      }
      r := Ok(listed.value);
    }

    /** `get_all_clients`: the unfiltered listing. */
    method GetAllClients(limit: Option<int>) returns (r: Result<seq<ManagedClient>, ManagerError>)
      ensures r.Ok? <==> SearchResult(rows, NoSearchParams.(limit := limit)).Ok?
      ensures r.Ok? ==> r.value == SearchResult(rows, NoSearchParams.(limit := limit)).value
      ensures r.Err? ==> r.error == Failed(Listing, None)
    {
      var listed := Limited(SortBy(Rows(rows), NewestFirst), limit);
      SearchUnfiltered(rows, limit);
      if listed.None? {
        return Err(Failed(Listing, None));
      }
      r := Ok(listed.value);
    }

    /** `update_client`: a missing id first, then the field checks; every
        error is wrapped by the `except` clause. */
    method UpdateClient(id: int, ch: Changes) returns (r: Result<ManagedClient, ManagerError>)
      requires Valid()
      modifies this
      ensures Valid() && serial == old(serial)
      ensures id !in old(rows) ==> r == Err(Failed(Updating, Some(NotFound(id))))
      ensures id in old(rows) && Rejection(ch).Some? ==> r == Err(Failed(Updating, Rejection(ch)))
      ensures r.Ok? <==>
                && id in old(rows)
                && !NameRejected(ch) && !PhoneRejected(ch) && !EmailRejected(ch) && !DateRejected(ch)
                && !NothingChanged(ch)
                && Fits(Changed(old(rows)[id], ch))
      ensures r.Err? ==> rows == old(rows) && r.error.Failed? && r.error.stage == Updating
      ensures r.Ok? ==> r.value == Changed(old(rows)[id], ch) && rows == old(rows)[id := r.value]
    {
      if id !in rows {
        return Err(Failed(Updating, Some(NotFound(id))));
      }
      var as_ := UpdateAssignments(ch);
      if as_.Err? {
        return Err(Failed(Updating, Some(as_.error)));
      }
      var c := AssignAll(rows[id], as_.value);
      if !Fits(c) {
        return Err(Failed(Updating, None));
      }
      if ch.fullName.Some? {
        StrippedIsStripped(ch.fullName.value);
      }
      rows := rows[id := c];
      r := Ok(c);
    }

    /** `delete_client`. */
    method DeleteClient(id: int) returns (r: Result<Deleted, ManagerError>)
      requires Valid()
      modifies this
      ensures Valid() && serial == old(serial)
      ensures r.Err? <==> id !in old(rows)
      ensures r.Err? ==> r.error == Failed(Deleting, Some(NotFound(id))) && rows == old(rows)
      ensures r.Ok? ==> r.value == Deleted(DeletedMessage(old(rows)[id].fullName), id)
                        && rows == old(rows) - {id}
    {
      if id !in rows {
        return Err(Failed(Deleting, Some(NotFound(id))));
      }
      var name := rows[id].fullName;
      rows := rows - {id};
      r := Ok(Deleted(DeletedMessage(name), id));
    }
  }

  /** A search after a removal never lists the removed id. */
  lemma DeletedNotListed(rows: map<int, ManagedClient>, id: int, p: SearchParams, c: ManagedClient)
    requires forall k | k in rows :: rows[k].id == k
    requires SearchResult(rows - {id}, p).Ok? && c in SearchResult(rows - {id}, p).value
    ensures c.id != id
  {
    SearchSound(rows - {id}, p, c);
  }
}
