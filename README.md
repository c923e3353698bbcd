# Client and order records, modelled in Dafny

This project models the core of a small client and order record-keeping
application written in Python. The application keeps clients and their
orders in a relational database and offers three overlapping service layers
over them. The model covers each layer's logic beneath the SQL and ORM
calls:

- **Validators.** These are the stand-alone checks for Russian names,
  e-mail addresses, phone numbers and passwords (`utils_validators.py`), and
  the e-mail, phone and date checks of `src/utils/validators.py`. They also
  include the record check `Client.validate_data` (`clients.py`), the order,
  item and filter checks (`order_validators.py`), and `ClientValidator`
  (`repository.py`). Python's regular expressions are written out as
  predicates, including the rule that `$` also matches before one final
  line break.
- **Records.** The `Client` and `Order` rows and their `to_dict()`
  dictionaries, with the round trips back from them (`clients.py`,
  `orders.py`).
- **ORM services.** `ClientService` (`client_service.py`) and
  `OrderService` (`orders_service.py`) run over one `Database` object that
  holds the two tables as maps from id to row. The model states the schema's
  constraints, and the invariant that every client's `total_orders` and
  `total_revenue` equal the count and the sum of that client's orders. The
  searches, paging, sorting and statistics are functions over the tables,
  with lemmas that state soundness, completeness and order.
- **Import and export.** These cover the spreadsheet row parsing, the import
  loops and their tallies (`import_service.py`), and the figures of the
  export sheets and the dashboard's top clients (`export_service.py`). The
  file formats themselves are left out.
- **Alternative stores.** `ClientManager` (`src/modules/client_management.py`)
  keeps a table of full-name clients and builds its queries clause by
  clause. `repository.py` holds a dictionary repository, a validating
  service and an event observer. Both are classes whose methods change their
  fields and are proved against specification functions.

Modules follow the source files: `UtilsValidators`, `SrcValidators`,
`Patterns`, `OrderValidators`, `Clients`, `Orders`, `ClientQueries`,
`OrderQueries`, `Services`, `ImportService`, `ReportService`,
`ClientManagement` and `Repository`. The helper modules `Wrappers`, `Text`,
`Dates`, `Values`, `Sorting`, `Tables` and `Grouping` model Python's string,
date and number semantics, and the scan order of tables, which is ascending id.

Some things are given as parameters rather than computed:

- the clock (`datetime.now()`) and the random digits of order numbers;
- validators whose code is not part of this model (`validate_client_data`,
  `validate_order_data`, `validate_order_search_params`,
  `validate_order_status_update`);
- the undefined `validate_fio`, `validate_email` and `validate_phone` of
  `repository.py`.

Money is a `real`. A float read from a spreadsheet cell is carried as its
decimal text.

Where a test and the code disagree, the model follows the code.
`src/test_units.py:87` expects the twelve-digit number `+791612345678` to be
rejected. The code counts 12 digits, which lies within 10 to 15, so it
accepts the number (`SrcValidators.PhoneExamples`).

## Model

| member | source | states |
|---|---|---|
| UtilsValidators.ValidateRussianName | utils_validators.py:4-18 | `None` exactly when the stripped name is Cyrillic letters or hyphens and 2 to 50 long; otherwise the first failing check (blank, alphabet, too short, too long) is reported |
| UtilsValidators.DollarOnStripped | utils_validators.py:9-10 | after `strip()` Python's `$` means plain end of text |
| UtilsValidators.AcceptedNames | test_clients.py:18-20 | the tests' accepted names (plain, hyphenated, with Ё) pass |
| UtilsValidators.RejectedNames | test_clients.py:23-26 | the tests' rejected names fail for the reason the code gives (Latin, digits, empty, one letter) |
| UtilsValidators.ValidateEmail | utils_validators.py:20-29 | accepted exactly when the address is empty, matches the pattern, or matches it followed by one final line break |
| UtilsValidators.EmailVerdict | utils_validators.py:20-29 | without a line break, an address is accepted exactly when it is empty or passes the cut-at-`@`-and-last-dot scan |
| UtilsValidators.EmailExamples | test_clients.py:30-33 | the tests' addresses: a plain one and the empty one pass, one without `@` and one without a domain fail |
| UtilsValidators.ValidatePhone | utils_validators.py:31-39 | accepted exactly when the number is empty, or is `+7` followed by ten digits and at most one final line break |
| UtilsValidators.PhoneShape | utils_validators.py:36 | the pattern `+7` then ten digits then `$` holds exactly of `+7`, ten digits and at most one final line break |
| UtilsValidators.ValidatePassword | utils_validators.py:41-57 | valid exactly when no problem is reported; each of the four problems is reported exactly when its check fails, in check order |
| Patterns.IndexOf | src/utils/validators.py:6 | the first occurrence of a character, or none |
| Patterns.LastIndexOf | src/utils/validators.py:6 | the last occurrence of a character, or none |
| Patterns.EmailPartsUnique | utils_validators.py:25-27 | a match of the e-mail pattern splits at the first `@` and the last dot |
| Patterns.EmailScanAgrees | utils_validators.py:25-27 | the e-mail pattern and the scan accept the same strings |
| SrcValidators.ValidateEmail | src/utils/validators.py:4-7 | the address is accepted exactly when its stripped text matches the pattern |
| SrcValidators.DigitsOf | src/utils/validators.py:11 | dropping non-digits leaves only digits and never lengthens the text |
| SrcValidators.DigitsOfConcat | src/utils/validators.py:11 | dropping non-digits distributes over concatenation |
| SrcValidators.DigitsOfDigits | src/utils/validators.py:11 | a string of digits is left unchanged |
| SrcValidators.ValidatePhone | src/utils/validators.py:9-13 | an accepted number is at least 10 characters long |
| SrcValidators.SeparatorIgnored | src/utils/validators.py:9-13 | inserting a non-digit never changes the verdict |
| SrcValidators.DigitsOnlyPhone | src/utils/validators.py:9-13 | a number of digits alone is accepted exactly when it has 10 to 15 of them |
| SrcValidators.PhoneExamples | src/test_units.py:83-87 | the six-digit number fails; the twelve-digit number is accepted by the code |
| SrcValidators.FirstParse | src/utils/validators.py:17-22 | none exactly when no format reads the text; otherwise some format's reading |
| SrcValidators.ValidateDate | src/utils/validators.py:15-23 | the stripped text fails exactly when no format reads it; otherwise the date is what one of the formats reads |
| SrcValidators.FormatIndex | src/utils/validators.py:17 | each of the three formats has its place in the list |
| SrcValidators.ValidateDateRender | src/utils/validators.py:15-23 | a date written in any accepted format reads back as that date |
| OrderValidators.NameCheck | order_validators.py:45-48 | no problem exactly when the product name is present, truthy and at most 200 long; the missing-name problem exactly when absent or falsy |
| OrderValidators.QuantityCheck | order_validators.py:50-58 | no problem exactly when `int()` gives a positive number; the missing problem exactly when absent |
| OrderValidators.PriceCheck | order_validators.py:60-68 | raises exactly when looking up `price` in the item raises; no problem exactly when the decimal reading is not negative |
| OrderValidators.ValidateOrderItem | order_validators.py:41-70 | succeeds exactly when all three checks do; at most three messages, all numbered `index + 1`; none exactly when every check passes |
| OrderValidators.ItemsErrors | order_validators.py:20-22 | every message names an item number from 1 to the item count |
| OrderValidators.ItemsErrorsKeepsFailure | order_validators.py:20-22 | once an item raises, the whole validation raises the same exception |
| OrderValidators.ValidateOrderData | order_validators.py:8-39 | returns the client-id error, the items' errors, then the status and date errors, or the first exception an item raised |
| OrderValidators.CheckItems | order_validators.py:19-22 | the loop collects every item's messages in item order and stops with the first exception an item raises |
| OrderValidators.MissingItemsOneError | order_validators.py:16-17 | missing or empty items give exactly one items error and no per-item errors |
| OrderValidators.ItemsInOrder | order_validators.py:20-22 | the items' messages are each item's messages, in item order |
| OrderValidators.OrderDataValid | order_validators.py:8-39 | the order data is accepted exactly when the client id is truthy, the items are non-empty and all pass, the status is allowed and both dates are absent, falsy or datetimes |
| OrderValidators.ItemsErrorsStep | order_validators.py:20-22 | one more item: the list passes exactly when the earlier items and the new one pass |
| OrderValidators.ItemsValid | order_validators.py:20-22 | the items pass exactly when every item passes |
| OrderValidators.CheckFields | order_validators.py:77-92 | the loop over filter names collects each name's messages in order |
| OrderValidators.ValidateOrderFilters | order_validators.py:72-100 | the date filters, then the amount filters, then the status, in that order |
| OrderValidators.TwoFields | order_validators.py:77-92 | a two-name loop is the two checks one after the other |
| OrderValidators.FiltersValid | order_validators.py:72-100 | the filters pass exactly when both dates are absent, falsy or datetimes, both amounts are absent, `None` or non-negative decimals, and the status is absent, falsy or allowed |
| Clients.NewClient | clients.py:12-25 | a new row keeps the given fields and gets today's registration date, status `active` and zero counters |
| Clients.ToDict | clients.py:27-44 | every column is kept as is and the registration date is present exactly when it was set |
| Clients.ToDictRoundTrip | clients.py:27-44 | the client can be read back from its dictionary |
| Clients.ValidateData | clients.py:46-68 | each of the five messages appears exactly when its check fails (patronymic, e-mail and phone only when given), in check order |
| Clients.Report | clients.py:51-66 | one check appends its message after all earlier ones when it fails |
| Clients.UnstrippedNameFails | clients.py:51 | a name with a leading blank fails, since the record check does not strip |
| Orders.ToDict | orders.py:25-38 | every column is kept; the client name is present exactly when the client exists, and then it is last name, blank, first name |
| Orders.ToDictRoundTrip | orders.py:25-38 | the order can be read back from its dictionary |
| Orders.ClientNameSplits | orders.py:37 | when the last name has no blank, the display name splits back into last and first name at its first blank |
| ClientQueries.NameOrder | client_service.py:96 | ordering by last name, then first name, is a total preorder |
| ClientQueries.SearchClientsSpec | client_service.py:64-100 | the result is exactly the matching clients, each once per row, in name order |
| ClientQueries.SearchClients | client_service.py:64-100 | one listed client per matching stored row |
| ClientQueries.SearchWithoutFilters | client_service.py:64-100 | without search keys every client is listed |
| ClientQueries.FilterAll | client_service.py:64-100 | a filter every row passes keeps them all |
| ClientQueries.NameSelect | client_service.py:64-100 | any filtered scan ordered by `last_name, first_name` returns exactly the stored rows that pass, in name order |
| Selection.SelectSpec | client_service.py:64-100 | a filtered, sorted scan returns exactly the stored rows that pass the filter, as many as pass, in the sort order |
| ClientQueries.SearchRowsStored | client_service.py:64-100 | every listed client is a stored client |
| ClientQueries.SearchEmpty | client_service.py:64-100 | the search finds nothing exactly when no stored client matches |
| ClientQueries.NarrowsMatches | client_service.py:70-94 | a client that passes more filters passes fewer |
| ClientQueries.SearchNarrowing | client_service.py:70-94 | adding search keys never adds a client to the result |
| ClientQueries.StatisticsAlwaysRaise | client_service.py:170-172 | as written, the statistics always raise `NameError` |
| ClientQueries.ClientTotals | client_service.py:168-175 | the client count is the number of rows; the active count is at most that, and zero exactly when no row has status `active` |
| ClientQueries.ClientStatistics | client_service.py:163-191 | the intended statistics: the client count is the number of stored rows |
| ClientQueries.CityGroupKeys | client_service.py:178-182 | each city group is a non-NULL city with at least one client |
| ClientQueries.CityGroupCover | client_service.py:178-182 | every client with a city has its city's group |
| ClientQueries.CityCounts | client_service.py:178-182 | each client with a city is counted in exactly one city group |
| OrderQueries.Dicts | orders_service.py:72 | one dictionary per row, in row order |
| OrderQueries.Column | orders_service.py:124-134 | the sort column is the amount or the last name exactly when asked for, the order date otherwise |
| OrderQueries.ColumnTotal | orders_service.py:127-139 | any two orders compare under the sort column |
| OrderQueries.ColumnTransitive | orders_service.py:127-139 | the sort column's order is transitive |
| OrderQueries.OrderLeTotal | orders_service.py:136-139 | ascending and descending orders are total preorders |
| OrderQueries.ClientOrdersMembers | orders_service.py:65-74 | exactly the client's orders are listed |
| OrderQueries.ClientOrdersLatestFirst | orders_service.py:69-71 | the client's orders come latest first, undated ones last |
| OrderQueries.ClientOrders | orders_service.py:65-74 | one dictionary per order of the client |
| OrderQueries.Window | orders_service.py:142-146 | the page is at most `limit` long and is the slice from the offset on, with a negative offset read as 0 |
| OrderQueries.FloorDiv | orders_service.py:156 | Python's `//` rounds toward negative infinity |
| OrderQueries.SearchOrdersOutcome | orders_service.py:76-162 | a rejected search reports the validator's messages with no rows; an accepted one the page, the total count and the page count |
| OrderQueries.SearchOrders | orders_service.py:76-162 | an accepted search counts every matching order, and its page holds at most `per_page` rows |
| OrderQueries.PageRowsWindow | orders_service.py:141-148 | the page is the `per_page` sorted matches from the offset on |
| OrderQueries.SearchOrdersSound | orders_service.py:85-118 | every listed order is a stored order that passes every given filter |
| OrderQueries.SearchOrdersComplete | orders_service.py:85-118 | every stored order that passes the filters is among the sorted matches |
| OrderQueries.SearchOrdersSorted | orders_service.py:123-139 | the matches are in the requested order |
| OrderQueries.PageCountCeil | orders_service.py:156 | `total_pages` is the least number of pages of `per_page` rows that hold the count |
| OrderQueries.SearchOrdersDefaults | orders_service.py:124-146 | without sort and paging keys the first page holds the 50 latest matches |
| OrderQueries.SearchNarrowing | orders_service.py:88-118 | adding filters never raises the total count |
| OrderQueries.DayOrder | orders_service.py:265 | ordering the day groups by date is a total preorder |
| OrderQueries.RevenueOrder | orders_service.py:277-279 | ordering client groups by revenue, largest first, is a total preorder |
| OrderQueries.Average | orders_service.py:289 | the average is 0 without orders and otherwise times the count gives the revenue |
| OrderQueries.StatisticsPeriod | orders_service.py:229-230 | the period ends today and starts `period_days` days earlier |
| OrderQueries.StatisticsCount | orders_service.py:232-241 | `total_orders` counts exactly the orders dated inside the period, of the given client when one is given |
| OrderQueries.StatisticsIgnoreClient | orders_service.py:242-279 | the client argument changes only `total_orders`; revenue, status, day and top-client figures ignore it |
| OrderQueries.StatusCountsCover | orders_service.py:248-255 | the status counts add up to the number of orders in the period |
| OrderQueries.DailyStatsOrdered | orders_service.py:258-265 | the day breakdown is in date order, one entry per day |
| OrderQueries.DistinctAfterSort | orders_service.py:265 | a permutation of a sequence whose keys are distinct has distinct keys at any two positions |
| OrderQueries.MultiplicityOne | orders_service.py:265 | an element of a sequence with distinct keys occurs in it once |
| OrderQueries.DaysSorted | orders_service.py:258-265 | day groups with distinct days, sorted by `order_date`, come out in date order with the days still distinct |
| OrderQueries.SortKeepsDistinct | orders_service.py:265 | sorting a sequence whose keys are distinct leaves the keys distinct |
| Grouping.TallyDistinct | orders_service.py:258-265 | `GROUP BY` yields one group per key: no two groups share a key |
| OrderQueries.TopClientsSpec | orders_service.py:268-279 | at most ten clients, largest revenue first, each a stored client with orders in the period |
| OrderQueries.TopClients | orders_service.py:268-279 | at most ten clients |
| OrderQueries.OrderStatistics | orders_service.py:225-315 | the statistics exist exactly when the period's start date exists, and then report the period from that start to today |
| Services.CountsAfterInsert | orders_service.py:51-52 | a new order adds one order and its amount to its owner's totals and nothing to anyone else's |
| Services.CountsAfterRemove | orders_service.py:209-212 | removing an order takes one order and its amount from its owner's totals only |
| Services.CountsAfterReplace | orders_service.py:177 | a status change moves no counter |
| Services.CountsWithoutOrders | client_service.py:145-161 | a client no order points at has zero orders and zero revenue |
| Services.NatToStringAtMost | orders_service.py:22 | a number below 10^k has at most k digits |
| Services.NatToStringAtLeast | orders_service.py:22 | a number from 10^(k-1) on has at least k digits |
| Services.OrderNumberFits | orders_service.py:20-24 | an order number always fits the 20-character column, and is 19 long from year 1000 on |
| Services.StampRoundTrip | orders_service.py:22 | the `%Y%m%d` stamp reads back as its date from year 1000 on |
| Services.OrderNumberRoundTrip | orders_service.py:20-24 | the order number records the day it was generated and ends in the six random digits |
| Services.OrderNumber | orders_service.py:20-24 | the number starts with `ORD-` and ends with a dash and the six random digits |
| Services.AssignSpec | client_service.py:131-134 | an update fails exactly when it sets a name to `None`; otherwise each text column it names takes the new value, the other text columns keep theirs, and the id, registration date and counters are untouched |
| Services.OrderFromRequest | orders_service.py:41-48 | the stored order carries the client id, the number and the amount; a status or date that is absent or `None` takes the column default (`pending`, today), an absent description is empty |
| Services.Database.constructor | orders.py:8-20 | the database starts empty, valid and consistent |
| Services.Database.AddClient | client_service.py:16-53 | a rejected request reports the validator's messages; a taken e-mail is reported exactly when the request is valid and the e-mail belongs to another client; a missing name or a second empty e-mail is a database error; otherwise the new row is stored under the next id with the given fields; nothing changes on failure |
| Services.Database.GetClient | client_service.py:55-62 | some exactly when the id is stored, and then its dictionary |
| Services.Database.UpdateClient | client_service.py:102-143 | only the seven text keys are validated and a rejection reports the validator's messages; past validation, a missing client is reported exactly when the id is not stored, and a taken e-mail exactly when the client exists and another client holds the truthy new e-mail; success exactly when none of these happens, no name is set to `None` and the empty e-mail is not taken; then the row becomes the old one with exactly the named columns assigned; any failure changes nothing |
| Services.TextColumnsAreColumns | client_service.py:132-134 | a text column is neither another column nor another attribute that `hasattr` finds, so an update of text columns meets the requirement `UpdateClient` states |
| Services.Database.Replace | client_service.py:132-136 | assigning text columns of a stored client, with an e-mail no other client has and its counters untouched, keeps the schema's constraints and the counters, and changes only that row |
| Services.Database.DeleteClient | client_service.py:145-161 | success exactly when the client was stored, and then only that row is gone; the counters stay right when the client had no orders |
| Services.Database.CreateOrder | orders_service.py:26-63 | a rejected request reports the validator's messages; a missing client is reported as such; a request without client id or amount, or whose number is taken, is a database error; otherwise the order is stored under the next id with the day's number, the given or default status and date, and its owner is credited; nothing changes on failure |
| Services.Database.Place | orders_service.py:51-55 | storing an order with a fresh id and an unused number for a stored client, and crediting that client, keeps the schema's constraints and the counters |
| Services.Database.GetOrder | orders_service.py:188-198 | found exactly when the id is stored, and then its dictionary; otherwise the not-found error |
| Services.Database.UpdateOrderStatus | orders_service.py:164-186 | success exactly when the request is valid and the order exists; then only its status changes |
| Services.Database.DeleteOrder | orders_service.py:200-223 | success exactly when the order existed; then it is gone and its owner, if stored, is debited |
| Services.CreditKeepsCounted | orders_service.py:51-55 | storing an order and crediting its owner keeps every client's counters equal to its orders |
| Services.CreditKeepsValid | orders_service.py:41-55 | a fresh id and an unused number keep the schema's constraints |
| Services.DebitKeepsCounted | orders_service.py:209-215 | removing an order and debiting its owner keeps every client's counters equal to its orders |
| Services.DebitKeepsValid | orders_service.py:209-215 | removing an order and debiting its owner keeps the schema's constraints |
| Services.AddKeepsValid | client_service.py:34-45 | a new client under a fresh id with an e-mail no other client has keeps the schema's constraints |
| ImportService.ParseClientRow | import_service.py:108-144 | a missing first name, then a missing last name, raise their messages; a parsed row has both names and passed the validator |
| ImportService.ParsedClientFields | import_service.py:113-137 | a parsed row holds exactly the given columns: names and optional fields stripped, the e-mail also lower-cased |
| ImportService.ParsedClientNonEmpty | import_service.py:48-51 | a parsed client row is never empty, so no row is skipped |
| ImportService.ParseClientId | import_service.py:199-206 | a missing client id raises its message; a given one parses exactly when `int()` of the cell does, to that number |
| ImportService.ParseAmount | import_service.py:208-215 | a missing amount raises its message; a given one parses exactly when `float()` of the cell does, to that number |
| ImportService.ParseStatus | import_service.py:217-221 | the status is kept exactly when its stripped, lower-cased text is one of the three statuses |
| ImportService.ParseOrderDate | import_service.py:223-233 | a date is set exactly when the cell is given: a datetime's day, else the `%Y-%m-%d` reading of its text |
| ImportService.ParseOrderRow | import_service.py:195-244 | client-id and amount errors come first; a parsed row carries the parsed id, amount, status, date and stripped description, and passed the validator |
| ImportService.UnreadableDateIsToday | import_service.py:232-233 | a date cell that does not read as `%Y-%m-%d` makes the order dated today |
| ImportService.Summarize | import_service.py:38-44 | the total is the row count, nothing is skipped and every error entry is an error outcome |
| ImportService.SummarizeStep | import_service.py:63-99 | one more row updates exactly one counter or appends one error |
| ImportService.SummarizeCovers | import_service.py:46-100 | every row lands in exactly one bucket |
| ImportService.RouteSpec | import_service.py:54-62 | a row goes to an existing client exactly when its e-mail is truthy and some stored client matches the e-mail search, and then to such a client's id |
| ImportService.ClientRowStep | import_service.py:46-100 | a row raises exactly when its parse fails; an updated row was routed to an existing client, an imported one to a new client; a failed or raising row leaves the table as it was |
| ImportService.ClientImport | import_service.py:46-100 | one outcome per row |
| ImportService.ClientImportStep | import_service.py:46 | importing one more row appends that row's step on the table left by the earlier rows |
| ImportService.ClientImportRow | import_service.py:46-100 | the outcome of row `i` is its step on the table the rows before it left, and so is the table after it |
| ImportService.ClientImportKeeps | import_service.py:46-100 | the outcomes of the first rows do not depend on the rows after them |
| ImportService.OrderRowStep | import_service.py:164-187 | a row raises exactly when its parse fails; it is imported exactly when its amount is finite and `create_order` succeeds; otherwise both tables are unchanged |
| ImportService.OrderImport | import_service.py:164-187 | one outcome per row |
| ImportService.OrderImportStep | import_service.py:164 | importing one more order row appends that row's step on the tables left by the earlier rows |
| ImportService.ImportClients | import_service.py:26-106 | the outcomes and the final table are those of the fold of the row step over the rows from the stored table, and the tally summarises the outcomes; the database stays valid and consistent |
| ImportService.ImportClientRow | import_service.py:46-100 | the outcome and the new table are the row step on the current table: a failed parse raises; a row routed to an existing client gets `update_client`'s answer, any other `add_client`'s, with their table changes |
| ImportService.UpdateRow | import_service.py:61-70 | no failure exactly when `update_client` succeeds, and then the row is replaced as it says; a failure is its error and changes nothing; the database stays valid and consistent |
| ImportService.AddRow | import_service.py:72-92 | no failure exactly when `add_client` succeeds, and then the new row is stored under the next id; a failure is its error and changes nothing; the database stays valid and consistent |
| ImportService.ImportOrderRow | import_service.py:164-187 | the outcome and the new tables are the order row step: a failed parse raises; a parsed row is imported exactly when `create_order` succeeds on it, with its table changes; otherwise nothing changes |
| ImportService.CreateRow | import_service.py:172 | no failure exactly when `create_order` succeeds, and then the order is stored and its owner credited; a failure is its error and changes nothing |
| ImportService.ImportOrders | import_service.py:146-193 | the outcomes and the final tables are those of the fold of the order row step over the rows, and the tally summarises the outcomes; the database stays valid and consistent |
| ReportService.StatusDisplay | export_service.py:118-125 | the three known statuses get their labels and any other status is shown unchanged |
| ReportService.StatusDisplayIdempotent | export_service.py:118-125 | showing a label again changes nothing |
| ReportService.CountBy | export_service.py:145-148 | the counting loop yields the keys in first-seen order and each key's number of rows |
| ReportService.CountStep | export_service.py:146-148 | one turn of the loop adds the row's key if it is new and raises that key's count by one, leaving the others |
| ReportService.CountMapOf | export_service.py:145-148 | a dictionary holding exactly the seen keys with their row counts is the count dictionary |
| ReportService.CountMap | export_service.py:145-148 | the count dictionary holds exactly the seen keys, each with its number of rows |
| ReportService.Items | export_service.py:150 | `items()` lists the entries in insertion order |
| ReportService.ItemsTotalOver | export_service.py:150 | the entries' counts sum to the rows under those keys |
| ReportService.CountsAddUp | export_service.py:145-148 | every row is counted under exactly one key, so the counts add up to the rows |
| ReportService.MaxString | export_service.py:35 | Python's `max` over strings returns a listed string no other exceeds |
| ReportService.LastOrderDate | export_service.py:35 | no orders give `None`; one order gives its date; with two or more, a `None` date raises the `TypeError` of the comparison in which `max` meets it, otherwise the latest date |
| ReportService.ClientOrderDates | export_service.py:34-35 | one date per order of the client, as `get_client_orders` lists them |
| ReportService.CityCountOrder | export_service.py:150 | ordering cities by count, largest first, is a total preorder |
| ReportService.ClientStatisticsSheet | export_service.py:127-154 | the totals, the active count, the averages, and the ten most frequent cities |
| ReportService.CitiesListed | export_service.py:145-151 | at most ten cities, the most frequent first, each with its number of clients |
| ReportService.DateKeyOrder | export_service.py:184 | ordering days latest first is a total preorder |
| ReportService.StatusRows | export_service.py:174-176 | one row per status seen, its label with its count |
| ReportService.AllDated | export_service.py:179-182 | true exactly when every order has a date |
| ReportService.OrderStatisticsSheet | export_service.py:156-188 | an order without a date makes the sheet raise; otherwise the count, revenue, mean, labelled status counts and ten latest days |
| ReportService.StatusRowsCover | export_service.py:164-176 | the status rows are every status seen, labelled, with counts adding up to the orders |
| ReportService.DatesListed | export_service.py:179-185 | at most ten days, latest first, no day twice |
| ReportService.TopEntriesDistinct | export_service.py:184-185 | the leading entries of the sorted items of a dictionary with distinct keys have distinct keys |
| ReportService.RevenueOrder | export_service.py:252 | ordering clients by revenue, largest first, is a total preorder |
| ReportService.ClientDicts | export_service.py:25 | one dictionary per client, in order |
| ReportService.TopClientsRanked | export_service.py:251-252 | at most five clients, the largest revenue first, each a stored client |
| ReportService.TopClientsBeatTheRest | export_service.py:251-252 | no client left out of the five has more revenue than one listed |
| ReportService.RankingSorted | export_service.py:251-252 | the revenue ranking runs from the largest revenue down |
| ReportService.ExportClients | export_service.py:24-51 | the export fails for lack of data exactly when no stored client matches the filters; it succeeds exactly when some client matches and every listed client's last order date can be computed, and then gives one row per listed client with its dictionary and last order date; otherwise it raises the first such error |
| ReportService.LastOrders | export_service.py:33-35 | one last-order-date result per listed client, from that client's orders |
| ReportService.ExportRows | export_service.py:32-51 | the rows are built exactly when every last date is computed, one per client with its date; otherwise the error is the first failing client's |
| ReportService.ExportListed | export_service.py:27-51 | no clients is the no-data error; otherwise the rows, or the first date error |
| ReportService.ExportOrders | export_service.py:74-82 | the export succeeds exactly when the search succeeds with a non-empty page, and then lists that page |
| ClientManagement.StrippedIsStripped | src/modules/client_management.py:42-43 | stripping a stored text again changes nothing |
| ClientManagement.DateOf | src/modules/client_management.py:30-31 | a text date is read by `validate_date`, a `date` object is taken as it is |
| ClientManagement.SearchConditions | src/modules/client_management.py:69-99 | the search fails exactly on a given but unreadable date bound; otherwise the appended conditions hold of a row exactly when the row is wanted |
| ClientManagement.ConditionsMeaning | src/modules/client_management.py:72-99 | the five condition groups together hold exactly when the row is wanted |
| ClientManagement.HoldsOne | src/modules/client_management.py:69 | one appended condition holds when that condition does |
| ClientManagement.HoldsAllConcat | src/modules/client_management.py:106 | joining condition lists is conjunction |
| ClientManagement.NewestFirstOrder | src/modules/client_management.py:102 | latest registration first, then names ascending, is a total preorder |
| ClientManagement.Limited | src/modules/client_management.py:103-104 | no limit keeps everything, a negative limit is an error, otherwise the first `limit` rows |
| ClientManagement.SearchUnfiltered | src/modules/client_management.py:236-241 | with no filter the search lists every stored row, newest first, up to the limit |
| ClientManagement.SearchSound | src/modules/client_management.py:63-126 | each listed client is a stored row the search asks for |
| ClientManagement.ListedRanked | src/modules/client_management.py:102-104 | the result is a prefix of the ranking of wanted rows, all of it without a limit, and as long as the limit allows |
| ClientManagement.SearchComplete | src/modules/client_management.py:63-126 | below the limit every wanted stored row is listed |
| ClientManagement.SearchOrdered | src/modules/client_management.py:102-104 | the listing runs newest first and holds at most `limit` rows |
| ClientManagement.RankedSorted | src/modules/client_management.py:102 | whatever the filter, `ORDER BY registration_date DESC, full_name` puts the rows newest first |
| ClientManagement.LimitedPrefix | src/modules/client_management.py:103-104 | a `LIMIT` that is accepted keeps a prefix: everything without a limit, otherwise as many rows as it allows |
| ClientManagement.SearchFailure | src/modules/client_management.py:89-104 | the search fails exactly on an unreadable date bound or a negative limit |
| ClientManagement.FoundByOwnName | src/modules/client_management.py:73-76 | a stored client is found by its own full name |
| ClientManagement.AssignAllAppend | src/modules/client_management.py:174-177 | one more `SET` assignment applies after the earlier ones |
| ClientManagement.Rejection | src/modules/client_management.py:142-171 | "no data" is reported exactly when no argument is given |
| ClientManagement.UpdateAssignments | src/modules/client_management.py:139-171 | the first failing field check in source order is reported; otherwise the `SET` list is non-empty and replaces exactly the given columns |
| ClientManagement.AssignmentsMeaning | src/modules/client_management.py:142-168 | the appended assignments replace exactly the supplied columns |
| ClientManagement.AssignsThroughDate | src/modules/client_management.py:142-164 | the assignments up to the date replace all given columns but the notes |
| ClientManagement.AssignsThroughEmail | src/modules/client_management.py:142-158 | the assignments up to the e-mail replace the given name, phone and e-mail |
| ClientManagement.AssignsThroughPhone | src/modules/client_management.py:142-152 | the assignments up to the phone replace the given name and phone |
| ClientManagement.ClientManager.constructor | src/modules/client_management.py:8-9 | the manager starts with an empty table and an unused sequence |
| ClientManagement.Admission | src/modules/client_management.py:18-45 | the name, phone, e-mail and date checks fail in that order with their messages; the answer is a row exactly when every check passes, a date is given and every text fits its column, and then it holds the stripped texts and the read date under the given id |
| ClientManagement.ClientManager.AddClient | src/modules/client_management.py:18-61 | the answer is `Admission`'s for the next sequence value; a failure changes nothing, a row is stored under that value and the sequence advances |
| ClientManagement.ClientManager.Store | src/modules/client_management.py:35-45 | inserting a row with a proper name that fits, under the next sequence value, keeps the table valid and advances the sequence |
| ClientManagement.ClientManager.SearchClients | src/modules/client_management.py:63-126 | the search result as specified, unreadable bounds and negative limits included |
| ClientManagement.ClientManager.GetAllClients | src/modules/client_management.py:231-261 | the unfiltered listing up to the limit, or the listing error |
| ClientManagement.ClientManager.UpdateClient | src/modules/client_management.py:128-202 | a missing id comes first, then the first rejected field; failures change nothing; success replaces exactly the given columns of that row |
| ClientManagement.ClientManager.DeleteClient | src/modules/client_management.py:204-229 | fails exactly when the id is missing; otherwise only that row is removed and its name is in the message |
| ClientManagement.DeletedNotListed | src/modules/client_management.py:216 | a search after a removal never lists the removed id |
| Repository.ColumnOf | repository.py:60-61 | a key names a column only under that column's own name |
| Repository.ColumnOfExact | repository.py:60-61 | a key names no column exactly when it is none of the table's column names |
| Repository.Stored | repository.py:54 | the stored form of a bound value: a bool as 0 or 1, a date as ISO text, anything already stored unchanged |
| Repository.StoredIdempotent | repository.py:54 | storing a read-back value again changes nothing |
| Repository.FirstMissing | repository.py:44-48 | none exactly when every required key is present; otherwise the first absent one |
| Repository.InsertParams | repository.py:44-52 | the insert binds seven parameters: the record's date or the current time, its notes and city or NULL, and, once every required key is present, the record's first name, last name, phone and e-mail |
| Repository.AddError | repository.py:44-54 | `KeyError` exactly when a required key is missing, naming the first; an unbindable value exactly when all keys are present and some parameter cannot be bound |
| Repository.InsertRow | repository.py:41-54 | the inserted row has every column, its id, and the stored form of each parameter |
| Repository.InsertCell | repository.py:41-54 | each cell of the inserted row is in stored form |
| Repository.AddedRowRequired | repository.py:44-48 | the new row holds the stored first name, last name, phone and e-mail |
| Repository.AddedRowOptional | repository.py:49-51 | the new row holds the given registration date or the current time, and the given notes and city or NULL |
| Repository.UpdateError | repository.py:59-64 | an empty update is a syntax error; otherwise a key naming no column is an error, then an unbindable value |
| Repository.Updated | repository.py:59-64 | the updated row keeps its columns; the assigned ones hold the stored new values and the others are unchanged |
| Repository.Conditions | repository.py:79-83 | exactly the filters with truthy values, in order |
| Repository.ListFails | repository.py:79-85 | listing fails exactly when a truthy filter names no column |
| Repository.ListSound | repository.py:75-86 | every listed row is stored and contains each truthy filter's text |
| Repository.ListComplete | repository.py:75-86 | every stored row that contains each truthy filter's text is listed |
| Repository.ListUnfiltered | repository.py:79-81 | with only falsy filters every stored row is listed, in scan order |
| Repository.Validate | repository.py:134-155 | true exactly when, unless partial, every required field is present and truthy, and every present, truthy checked field passes its validator |
| Repository.AcceptedHasKeys | repository.py:137-140 | a record accepted in full mode has every key `add` reads |
| Repository.ContactPart | repository.py:110 | exactly the name, e-mail and phone entries of the update |
| Repository.ContactPartCheck | repository.py:110-112 | the partial check of the contact part passes exactly when the update's own checked fields pass; an empty part passes |
| Repository.ClientRepository.constructor | repository.py:31-32 | the repository starts with an empty table |
| Repository.ClientRepository.Get | repository.py:34-37 | some exactly when the id is stored, and then that row |
| Repository.ClientRepository.Add | repository.py:39-57 | fails exactly on a missing required key or an unbindable value, changing nothing; otherwise stores the new row under the next id and returns the input record with that id |
| Repository.ClientRepository.Update | repository.py:59-68 | fails exactly when the update is empty, names no column or cannot be bound; a missing id gives `None` and changes nothing; otherwise the row is updated and read back |
| Repository.ClientRepository.Delete | repository.py:70-73 | true exactly when the id was stored; afterwards it is not |
| Repository.ClientRepository.List | repository.py:75-86 | the listing as specified, unknown columns included |
| Repository.AddedListedLast | repository.py:54-57 | after an insert, the unfiltered listing is the old listing with the new row last |
| Repository.DeletedGone | repository.py:70-73 | a listing after a delete never holds the deleted id |
| Repository.ClientService.constructor | repository.py:92-94 | the service keeps its repository and validator |
| Repository.ClientService.CreateClient | repository.py:96-101 | a record the full check rejects raises "Invalid client data" and changes nothing; an accepted one is added |
| Repository.ClientService.FindClients | repository.py:103-105 | the repository's listing |
| Repository.ClientService.UpdateClient | repository.py:107-114 | a rejected contact field raises "Invalid update data" and changes nothing; otherwise the repository's update |
| Repository.Subscribed | repository.py:172-175 | the callback joins the end of its type's list; other types keep theirs |
| Repository.Outcomes | repository.py:180-182 | one outcome per callback, each that callback's own |
| Repository.ErrorLines | repository.py:183-184 | one printed line per raising callback |
| Repository.SubscribeThenNotify | repository.py:172-184 | a new subscriber is called last, and only for its own event type |
| Repository.ErrorLinesFollowFailures | repository.py:181-184 | every raising callback has its line printed, so later callbacks still ran |
| Repository.NewEvent | repository.py:160-163 | an event keeps its name and time; its data is empty exactly when none or an empty dictionary is given, and otherwise is the given dictionary |
| Repository.EventObserver.constructor | repository.py:169-170 | no subscribers at first |
| Repository.EventObserver.Subscribe | repository.py:172-175 | the subscriptions after `subscribe` |
| Repository.EventObserver.Notify | repository.py:177-184 | only the event type's callbacks are called, in order, and each exception is printed without stopping the rest |
| Dates.AddDays | orders_service.py:230 | subtracting a `timedelta` moves the date by exactly that many days, when the result is a valid date |
| Dates.RenderParse | src/utils/validators.py:17-20 | a date written in a format reads back under that format |
| Values.Truncate | import_service.py:202 | `int()` of a float rounds toward zero |
| Tables.NewId | repository.py:55 | the new row id is unused and above every stored id |

## Left out

- Database engines, connections, sessions, commits and rollbacks are not modelled. Each service call is one atomic step on the tables, and concurrent callers are not modelled.
- Database errors other than those the model names are not modelled. These include lost connections and unexpected exceptions caught by the services' `except` clauses. Their message texts are not modelled either.
- The `created_at` and `updated_at` columns and their defaults are not modelled. No operation of the core reads them back.
- IEEE floating point is not modelled. Money is a `real`, and averages are exact quotients. A float read from a spreadsheet cell is carried as its decimal text.
- `ImportService.ImportOrderRow`: a row whose amount is NaN or infinite is recorded as refused without calling `create_order`. The program would hand that float to the order validator, whose code is not part of this model.
- IsDigit (`Text.IsDigit`): a digit is an ASCII `0` to `9`. Python's `\d` and `\D` on text, `int()`, `float()`, `Decimal()` and `strptime` also take every other Unicode decimal digit (Arabic-Indic, Devanagari and so on); those digits are not modelled.
- ValidatePassword (`UtilsValidators.ValidatePassword`): the digit check counts ASCII digits only, so a password whose only digit is another script's decimal digit is reported as lacking a digit, where `\d` would accept it.
- ValidatePhone (`UtilsValidators.ValidatePhone`): the ten digits after `+7` are ASCII digits; a number written with another script's decimal digits is rejected, where `\d{10}` would accept it.
- ValidateData (`Clients.ValidateData`): the phone check reads `\d{10}` as ten ASCII digits, with the same gap.
- DigitsOf (`SrcValidators.DigitsOf`): keeps ASCII digits only, where `re.sub(r'\D', '', ...)` keeps every Unicode decimal digit; `SrcValidators.ValidatePhone` inherits the gap.
- ParseInt, ParseFloat and ParseDecimal (`Values`): only ASCII digits are read, and the `_` digit separators that `int()`, `float()` and `Decimal()` accept (`int("1_000") == 1000`) are not; such a text reads as no number.
- QuantityCheck (`OrderValidators.QuantityCheck`): inherits both gaps of `ParseInt`, so a quantity such as `"1_000"` is reported as invalid.
- YearField, MonthField and DayField (`Dates`): the fields `strptime` reads are ASCII digits only.
- `LIKE` and `ILIKE` patterns are built from the raw search text. A `%` or `_` inside that text would act as a wildcard, and a `\\` as PostgreSQL's escape character; the model treats the text literally.
- Case folding covers ASCII everywhere. PostgreSQL's `ILIKE` in `ClientManager` also folds Cyrillic; other scripts are not folded.
- Text ordering is by code point (SQLite's BINARY collation). A PostgreSQL locale collation is not modelled.
- Rows with equal sort keys keep scan order, which is ascending id. The order of `GROUP BY` groups is first appearance in scan order; SQL leaves both unspecified.
- `Tables.NewId`: a new row id is one above the largest stored id, or 1 for an empty table. SQLite's random pick once the largest id reaches 2^63 - 1 is not modelled. Ids stay positive in the model, so SQLite's rule for a negative maximum does not arise.
- `Repository.ClientRepository.Add`: requires the next id to fit in 64 bits, for the same reason.
- `Repository.ClientRepository.Update` and `Repository.ClientService.UpdateClient`, which calls it: require the update not to assign `id`. Changing a primary key moves the row, and `repository.py` does not define the table's constraints.
- The schema of the `clients` table used by `repository.py` is not part of this model. No NOT NULL or UNIQUE constraint is assumed; the columns are those its queries name.
- Column names in `repository.py` are matched case-sensitively. Key text that injects SQL into the `SET` or `WHERE` clause is not modelled.
- SQLite type affinity is not modelled. `repository.py` does not declare its column types, so each value keeps its own storage class, and a float keeps its `repr` text.
- Filter values that are lists or dictionaries cannot be expressed: `Repository.Filters` holds scalar values only.
- The separate `sqlite3` exception classes (`OperationalError`, `InterfaceError`, `ProgrammingError`) are merged into `Repository.RepoError`.
- `row_factory` is taken to be `sqlite3.Row`, so `dict(row)` gives one entry per column.
- Event callbacks are pure functions of the event. The `print` of a failing callback is returned as lines of text.
- `ObservableClientService` is left out. Its `create_client` is `ClientService.create_client` followed by `EventObserver.notify`, both modelled. Its `delete_client` calls a method the base class lacks, and the file ends in the middle of that method.
- `ValidatorFactory` is left out. It builds an `OrderValidator` and an `EmailValidator` that `repository.py` never defines.
- `Services.Database.UpdateClient`: requires every key of the update to be a text column or no attribute of `Client` at all. Excluded are the non-text columns (the counters, the id, the dates) and the other attributes `hasattr` finds: the methods `to_dict` and `validate_data`, the `orders` backref, `metadata` and `registry`, and every `__` or `_sa_` name. The program would `setattr` such a key; the commit or the later `to_dict()` then fails or changes the object in ways this model does not follow. Any other attribute the ORM adds is not modelled.
- The ORM's backref behaviour on delete is not modelled. A deleted client's orders stay in place; `delete_order` copes with a missing client.
- The declarative bases of `clients.py` and `orders.py` are separate objects; the model joins the two tables directly.
- A `strftime("%Y")` stamp of a year below 1000 is unpadded, so the order number is shorter. The round trip `Services.OrderNumberRoundTrip` is stated only from year 1000 on.
- Order numbers are random. A collision with an existing number makes `create_order` fail on the UNIQUE constraint, and there is no retry. This failure is part of `Services.Database.CreateOrder`.
- `ClientManagement.ClientManager.AddClient`: a rejected insert leaves the id sequence where it was. PostgreSQL would have used up one value.
- `export_clients_to_excel` and `export_orders_to_excel` are modelled up to the data they write: for clients, each listed client's dictionary and last order date. Column renaming, pandas, `ExcelWriter` and the formatting pass are not modelled.
- `ReportService.ExportOrders`: the message of a failed search leaves out the appended list of errors.
- `ReportService.ExportOrders` does not compose `ReportService.OrderStatisticsSheet`, which the export also writes. An undated order would make that sheet raise, but no modelled operation stores an undated order, since `Services.OrderFromRequest` always sets a date.
- `_create_analytics_sheet` is not modelled. It counts weekday names via `strftime('%A')`, which depends on the locale.
- `create_import_template` is not modelled; it only writes a file.
- `generate_dashboard_data` is modelled only through its top-clients part (`ReportService.TopClientsRanked`). As written, it raises at its first line because `get_client_statistics` raises (see Findings).
- Reading spreadsheets (`pd.read_excel`) and checking file existence are not modelled. The import loops start from the sheet's rows, and `pd.notna` is `Values.NotNa`.
- The user interfaces, the Metabase client, the test runner and the database configuration are outside the core.

## Findings

| source | as written | input that shows it | evidently intended | confidence | as-written member | corrected member |
|---|---|---|---|---|---|---|
| client_service.py:170 | `get_client_statistics` calls `func.sum`, but `func` is not imported, so every call raises `NameError` | any call, including on an empty table | the totals and per-city figures, with `func` imported from `sqlalchemy` | not executed | ClientQueries.ClientStatisticsAsWritten | ClientQueries.ClientStatistics |
