# Trading results API: filters, selections and caching

A Dafny model of the deterministic core of a small read-only HTTP API over
commodity-exchange trading results. It covers:

- **Filter validation** (`schemas.py`). `SearchFilterTrading` has three optional
  identifiers, each held to an anchored fixed-length character-class pattern.
  `SearchFilterTradingDate` adds two required dates. Both dates are bounded above
  by a "today" and must satisfy `start_date <= end_date`.
- **Query selection** (`routers.py`). `get_last_trading_dates` returns the newest
  distinct trading dates, up to `limit`. `get_dynamics` returns the rows in a
  date range that match every supplied identifier. Both are functions over the
  table held as a sequence of rows.
- **Cache keys and value coding** (`cache.py`). The two key builders choose which
  endpoint arguments reach the library's key builder. `JsonCoder` flattens ORM
  rows before JSON serialisation and parses cached payloads back.
- **Cache expiration** (`constaints.py`). This is the time left until the next
  14:11 on the naive wall clock, counted in microseconds.

Modules: `Base` (Option, Result, dates as proleptic Gregorian ordinals),
`Schemas`, `Routers`, `Cache`, `Constants` (for constaints.py) and `Fixtures`.
`Fixtures` holds the three-row test table and the parametrised test cases as
concrete lemmas.

Library code is passed in as function-valued parameters:
`default_key_builder`, `json.dumps`/`json.loads`, `str`, and UTF-8
encoding and decoding. A property that needs them to behave like JSON says so
in its `requires` (`Cache.Faithful`). The clock is also a parameter: "now" for
the expiration and "today" for the date bound.

Three behaviours of the code that its own comments and docstrings do not spell
out are modelled as the code has them:

- At exactly 14:11:00.000000 the expiration is a full day (constaints.py:15-19),
  although the docstring at constaints.py:7 speaks only of "14:11 of the
  current day".
- The "today" bound on dates is fixed when the class is defined
  (schemas.py:24-25), not when a request is validated. See Findings.
- The last-dates key builder passes the raw `limit` value itself as `kwargs`
  (cache.py:93-95), not a dictionary holding it.

## Model

| member | source | states |
|---|---|---|
| `Schemas.MatchRepeatIff` | schemas.py:10-18 | an anchored pattern `^[class]{n}$` accepts exactly the strings of length n whose every character is in the class |
| `Schemas.OilIdPatternIff` | schemas.py:10-12 | `oil_id` matches its pattern iff it has exactly 4 characters, each in A-Z, 0-9 or `-` |
| `Schemas.DeliveryTypePatternIff` | schemas.py:13-15 | `delivery_type_id` matches iff it is exactly one character in A-Z |
| `Schemas.DeliveryBasisPatternIff` | schemas.py:16-18 | `delivery_basis_id` matches iff it is exactly three characters in A-Z |
| `Schemas.PatternErrorsEmptyIff` | schemas.py:10-18 | an optional pattern field reports no error iff it is absent or satisfies its rule |
| `Schemas.IdentifierErrorsEmptyIff` | schemas.py:7-18 | the three identifier fields report no error iff each is absent or valid |
| `Schemas.ValidateTrading` | schemas.py:7-18 | the base filter is accepted iff each identifier is absent or valid; accepted values are kept as given; a rejection lists at least one field error |
| `Schemas.ValidateTradingDate` | schemas.py:21-32 | accepted iff the identifiers are valid, both dates are present and not after today, and start <= end; the accepted filter holds the values unchanged; the range error occurs exactly when all field checks pass and start > end; every other rejection is a non-empty list of field errors |
| `Schemas.ValidateStartEndDate` | schemas.py:27-32 | the model validator returns the filter unchanged iff start <= end (equality included) and otherwise raises the error with loc `["start_date","end_date"]` and type `value_error` |
| `Schemas.DateFilterInheritsIdentifiers` | schemas.py:21-25 | the date-range filter accepts identifiers exactly as the base filter does; when the base filter rejects them, the date-range filter reports the same errors first |
| `Schemas.ValidatedIdentifiersNonEmpty` | schemas.py:10-18 | an identifier that passed validation is never empty, so "supplied" and "truthy" coincide |
| `Schemas.ValidateAsWritten` | schemas.py:24-25 | as written, an accepted range ends no later than the day the class was defined, whatever the request day |
| `Schemas.StaleTodayRejectsCurrentDay` | schemas.py:24-25 | on a server started the day before, a range ending on the request day is rejected with an "after today" error on `end_date` |
| `Schemas.ValidateOnRequestDay` | schemas.py:24-25 | with the bound taken on the request day, an accepted range ends no later than the request day |
| `Schemas.RequestDayBoundAcceptsPastRanges` | schemas.py:24-25 | with the bound taken on the request day, every valid range ending no later than that day is accepted, and so is everything the as-written validator accepts |
| `Routers.InsertDescending` | routers.py:28-31 | adding a date to a newest-first list of distinct dates keeps it strictly descending and adds exactly that date |
| `Routers.DistinctDatesDescending` | routers.py:27-31 | grouping by date and ordering by date descending gives a strictly descending list whose elements are exactly the table's dates |
| `Routers.GetLastTradingDates` | routers.py:15-35 | the result is strictly descending (so each date appears at most once); its length is min(limit, number of distinct dates), with limit 5 by default; every element is a table date; every table date left out is older than every date returned; a negative limit is an error |
| `Routers.Where` | routers.py:53-58 | a row satisfies the clause iff its date lies between start and end, both included, and each truthy identifier equals the row's column; a falsy identifier imposes nothing |
| `Routers.GetDynamics` | routers.py:38-60 | every returned row is a table row satisfying the `where` clause, and there are no more rows than in the table; `Routers.DynamicsExact` gives the exact multiset |
| `Routers.DynamicsExact` | routers.py:52-60 | the result holds exactly the table rows that satisfy the where clause, each as many times as it occurs in the table (as a multiset) |
| `Routers.DynamicsWithinRange` | routers.py:53-55 | every returned row's date lies between start and end, both included |
| `Routers.DynamicsSelects` | routers.py:52-58 | over a validated filter, a row is returned iff it is in the table, in the date range, and equal to every identifier supplied; an absent identifier imposes nothing |
| `Cache.TradingKeyArguments` | cache.py:72-78 | the arguments handed to the default builder are `{"data": data, "limit": limit}` when limit is truthy and `{"data": data}` otherwise |
| `Cache.TradingKeyBuilder` | cache.py:60-78 | the key is the default builder applied with `args=()` to exactly those arguments |
| `Cache.TradingKeyArgumentsAgree` | cache.py:72-78 | two calls hand the default builder the same arguments iff they agree on `data` and their limits are both falsy or the same truthy value |
| `Cache.TradingKeyIgnoresOtherArguments` | cache.py:72-78 | positional arguments and every keyword argument besides `data` and `limit`, such as the database session, do not affect the key |
| `Cache.TradingKeyFalsyLimit` | cache.py:73-78 | with a falsy limit the key equals the key of the call without `limit`, which is the key built from `{"data": data}` alone |
| `Cache.LastDatesKeyBuilder` | cache.py:81-95 | the key is the default builder applied with `args=()` to the raw `limit` value as `kwargs` |
| `Cache.LastDatesKeyOnlyLimit` | cache.py:93-95 | the last-dates key depends only on `limit` |
| `Cache.ModelToDict` | cache.py:26-39 | a mapped row becomes a dictionary with one entry per table column, in column order, valued from the row; any other value is returned unchanged |
| `Cache.Elements` | cache.py:20-21 | iterating a list yields its items; iterating a dictionary yields its keys |
| `Cache.Flatten` | cache.py:20-23 | an iterable (not text or bytes) becomes a list of the same length and order with each element flattened; any other value is flattened alone |
| `Cache.Encode` | cache.py:9-24 | the payload is the UTF-8 encoding of `json.dumps` applied to the flattened value |
| `Cache.Decode` | cache.py:41-57 | a dictionary is returned unchanged; text is parsed as JSON; bytes are UTF-8 decoded and parsed, and a failure of either step is an error; any other value gives `None` |
| `Cache.JsonViewOfNative` | cache.py:24 | a value built only from JSON-native parts comes back from JSON unchanged |
| `Cache.RoundTrip` | cache.py:20-57 | if `loads` inverts `dumps`, decoding an encoded value gives its flattened form, with every non-native part replaced by its `str` |
| `Cache.RoundTripNative` | cache.py:20-57 | if the flattened value is JSON-native, decoding the encoded value gives exactly the flattened value |
| `Constants.GetCacheExpiration` | constaints.py:5-21 | before 14:11 the result is today's 14:11 minus now, and otherwise tomorrow's 14:11 minus now; it is the least positive duration that lands on 14:11, so 0 < r <= 24 h, with r = 24 h exactly at 14:11:00.000000; adding a day past 9999-12-31 raises an overflow error |
| `Constants.ExpirationIgnoresDate` | constaints.py:12-19 | the result depends only on the time of day of now, not on its date |
| `Constants.ExpirationCountsDown` | constaints.py:15-21 | advancing now by d without crossing 14:11 decreases the result by exactly d |
| `Fixtures.TableDates` | tests/conftest.py:42-80 | the fixture table has the three trading dates 2023-01-09, 2024-10-01 and 2025-03-23 |
| `Fixtures.LastDatesCounts` | tests/test_api.py:9-30 | over the fixture, limits 1, 2, 3 and 5 give the newest 1, 2, 3 and 3 dates, and so does the default limit |
| `Fixtures.DynamicsOverTable` | routers.py:52-60 | over the fixture, the model's selection keeps exactly the rows that satisfy the clause, listed in table order |
| `Fixtures.DynamicsWholeRange` | tests/test_api.py:35 | the range 2023-01-09..2025-03-23 with no identifier selects all 3 rows |
| `Fixtures.DynamicsShortRange` | tests/test_api.py:36 | the range 2023-01-09..2023-03-23 selects only the row of 2023-01-09 |
| `Fixtures.DynamicsByOilId` | tests/test_api.py:38 | `oil_id` "A592" over the whole range selects 1 row |
| `Fixtures.DynamicsByDeliveryType` | tests/test_api.py:40 | `delivery_type_id` "A" over the whole range selects 2 rows |
| `Fixtures.DynamicsByDeliveryBasis` | tests/test_api.py:42 | `delivery_basis_id` "AKR" over the whole range selects 1 row |
| `Fixtures.RejectedRequests` | tests/test_api.py:37-43 | a reversed range gives the range error; `oil_id` "A5922", `delivery_type_id` "1" and `delivery_basis_id` "AK1R" are rejected |
| `Fixtures.TradingFilterCases` | tests/test_api.py:78-83 | the identifier filter accepts "A592", "A" and "NVL" and rejects "A5922", "Aa" and "NVAL" |
| `Fixtures.RowRoundTrip` | cache.py:37-38 | a row with columns oil_id "A592" and volume 1440 decodes back to that dictionary, and a list of two such rows decodes to a list of two such dictionaries |

## Findings

| source | as written | input that shows it | evidently intended | confidence | as-written member | corrected member |
|---|---|---|---|---|---|---|
| schemas.py:24-25 | `le=date.today()` is evaluated once, when the class is defined | a server started on day D gets a request on day D+1 with end_date D+1; the request is rejected as "after today" | dates may not lie after the day of the request | medium, not executed | `Schemas.StaleTodayRejectsCurrentDay` (about `Schemas.ValidateAsWritten`) | `Schemas.ValidateOnRequestDay` (proved by `Schemas.RequestDayBoundAcceptsPastRanges`) |

Every other member takes "today" as a parameter, so it describes both readings:
pass the class-definition date for the code as written, or the request day for
the intended behaviour.

## Left out

- main.py is not part of this model: app construction, the Redis client, `FastAPICache.init` and the 422 exception handler are framework and network code.
- database/db_depends.py is not part of this model: it manages the database session.
- SQL execution, the ORM, async/await and route paths are not modelled. Only the selection each query makes is modelled, over an in-memory row sequence. models.py is not part of this model; the row fields are the columns the test fixture fills, and NULL columns are not modelled.
- The tests request `/trading_dynamic` and `/last_trading`, but routers.py defines `/trading_results` and no `/last_trading`. Routing is not modelled. The `/last_trading` cases are used only as evidence for the identifier patterns.
- `default_key_builder` (an MD5 hash) and Python's `json` module are not modelled; they are uninterpreted function parameters.
- No endpoint in routers.py applies a cache decorator, so the cache hit and miss flow is not modelled.
- Query-string parsing is not modelled: dates arrive already parsed, and the pydantic and FastAPI error objects keep only the field and the failed constraint. `loc` prefixes, message texts and `input`/`ctx` are not kept, except for the model validator's own error.
- Pattern anchoring follows pydantic's default regex engine, where `$` matches only at the end of the input. A trailing newline is therefore rejected.
- Routers.GetDynamics: the query has no `order by`, so the database may return the rows in any order. The model lists them in table order, and the fixture lemmas compare with that order; `Routers.DynamicsExact` is the order-free contract.
- Routers.GetLastTradingDates: a negative `limit` goes to the database unchanged, and the source does not fix what the database does with it. The model returns an error for it.
- Cache.Flatten: iterating a pydantic model or an SQLAlchemy session is not modelled. Both define `__iter__`, so `encode` would list what they yield; the model holds them as a `PyObject`, which the key builders can receive but which `Flatten` passes to `json.dumps` whole. `Flatten` is faithful for lists, dictionaries, mapped rows and objects without `__iter__`.
- `PyObject` is always truthy. An object with its own `__bool__` or `__len__`, such as `Decimal(0)`, is not modelled.
- `PyValue` leaves out floats, tuples, sets and generators. Dictionary keys are strings only. Lists and dictionaries are the only iterables modelled.
- Cache.RoundTrip: assumes UTF-8 decoding inverts encoding and `json.loads` inverts `json.dumps` up to the `str` fallback, for values whose dictionaries have distinct keys. Both are stated in `Cache.Faithful`.
- `Constants.DefaultLimit` (constaints.py:3) is a constant only. routers.py does not use it and writes its own default of 5.
