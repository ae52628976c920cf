# Country currency exchange service — a Dafny model

This project models the service layer of a small country/currency API
(`src/Currency_converter/services.py`). The service keeps a table of country rows,
fills it from two upstream feeds, and answers queries on it. The upstream feeds are a
list of countries and a map from currency code to exchange rate.

- **Batch refresh** (`bulk_refresh_countries`). It makes one pass over the country feed.
  Each entry goes through an ordered chain of checks. The entry is either skipped with a
  label or becomes a new row stamped with the batch's single timestamp. All new rows are
  committed at once, after the existing ones. The response holds the counts, the first ten
  created names and the full skip list.
- **Single create** (`create_country_exchanger`). It validates the request, searches the feed
  for the first matching entry, refuses a currency code already stored, and appends one row.
- **Queries**. These are listing with a sort key, lookup by name ignoring case, delete by name
  ignoring case, the row count, and the top five by estimated GDP (the data behind the summary
  image).

Modules follow the parts of the service:

| file | module | contents |
|---|---|---|
| outcomes.dfy | `Outcomes` | `Option`, the service's error kinds, `Result` |
| text.dfy | `Text` | Python `strip()` blankness, ASCII lowering, lexicographic order |
| entities.dfy | `Entities` | the `Country` row (the table's columns) |
| feed.dfy | `Feed` | the upstream JSON shapes, field defaults, the GDP estimate |
| refresh.dfy | `Refresh` | the per-entry classifier, the batch as functions, the loop `ProcessFeed`, the response |
| create.dfy | `Create` | request validation, the per-entry match test, the search loop `FindMatch`, the create outcome |
| queries.dfy | `Queries` | lookup, delete filter, status count, sort keys and sorting, listing, top five |
| storage.dfy | `Storage` | class `CountryTable`: the rows and the next id, with the three mutating operations |

The two feeds are decoded JSON, so their contents can be malformed. `Feed.FeedEntry`,
`Feed.FeedCountry` and `Feed.RateValue` represent this: an element of the countries payload
may not be an object at all, a key can be absent or null, `currencies`, its first element, its
`code` or `population` can have the wrong JSON type, and a rate can be null or not a number.
Where the code only tests a value for truth, a falsy value (`0`, `false`, `""`, `[]`, `{}`)
behaves like null. What each case does depends on where Python raises:

- In the refresh, an exception raised for a country object lands in the `except` clause,
  which skips the entry under its name. A payload element that is not an object is
  different: `country.get` raises in the loop body and raises again in the `except` clause.
  That second exception escapes, so the request fails with `InternalError` before the commit
  and the table stays the same.
- A null rate reads as "not in exchange API" in the refresh. A rate that is not a number
  makes `exchange_rate > 0` raise, so the refresh skips the entry under its name.
- The commit can fail too. `population` is a PostgreSQL `integer`, so a row with a population
  outside the 32-bit range is refused at `db.commit()`, and the driver refuses a string that
  holds a NUL character. In the refresh the whole batch is then lost and the request fails
  with `InternalError`; in the create the one row is refused.
- A population may be a string of digits that PostgreSQL reads as an integer, such as "123".
  In the refresh, `population <= 0` raises on it, so the entry is skipped under its name. In
  the create, a positive rate makes the GDP division raise (`InternalError`); with a rate
  `<= 0` no arithmetic happens, the string is stored and PostgreSQL converts it.
- In the create, nothing catches an exception. A malformed matched entry, a non-object
  element that the search trips over, or a null or non-numeric rate therefore ends the
  operation with `InternalError`, and the table stays the same.

Things the code does that a reader might not expect, all modelled as written:

- The refresh only inserts. There is no update path. `updated` is always 0 and
  `updated_countries` always empty.
- An entry whose currency code is not in the rate map is skipped. It is not stored with null
  currency fields.
- One payload element that is not an object makes the whole refresh fail, including every
  valid entry before it.
- Running the refresh twice on the same feed appends the same countries twice.
- The create checks the request's population, then stores the feed entry's population
  without checking it. Absent means 0, and a negative number is stored as it is.
- The create's stored rate is `rates.get(code, 1.0)`. A code missing from the rate map
  therefore gets rate 1.0.
- The row count is the only status the code reports (`check_country_status`).
- The random factor is `randrange(1000, 2000)`, so it lies in 1000..1999.

## Model

| member | source | states |
|---|---|---|
| `Feed.EstimatedGdp` | src/Currency_converter/services.py:239 | the estimate is 0 when the rate is not positive; otherwise estimate × rate equals population × factor |
| `Feed.GdpWithinDrawRange` | src/Currency_converter/services.py:239 | with a factor drawn by `randrange(1000, 2000)` and a positive rate, the estimate lies between population·1000/rate and population·1999/rate |
| `Refresh.Classify` | src/Currency_converter/services.py:201-261 | the first failing check decides the skip label: "Unknown", the bare name (bad population or a caught exception, including a rate that is not a number), "(no currency)", "(no currency code)", "(currency X not in exchange API)" for a code that is absent from the rates or has a null rate; an entry is accepted exactly when every check passes, and then has a non-empty name, population > 0, a non-blank code whose rate is a number, and that rate |
| `Refresh.OneOutcomePerEntry` | src/Currency_converter/services.py:201-261 | every feed entry lands in exactly one of the created and skipped lists, so their lengths add up to the feed length |
| `Refresh.NewRowsFollowNames` | src/Currency_converter/services.py:243-256 | the rows added are as many as the created names, in the same order, with consecutive ids; each has a non-empty name, population > 0, a non-blank code in the rate map, that code's rate and the batch timestamp |
| `Refresh.SkippedAreIneligible` | src/Currency_converter/services.py:201-261 | the skip list holds one label per entry that fails some check, and the created list one name per entry that passes them all; an all-eligible feed skips nothing and an all-ineligible feed creates nothing |
| `Refresh.NewRowsStorable` | src/Currency_converter/services.py:263 | the modelled commit accepts every row of the batch exactly when every eligible entry's population fits PostgreSQL's 32-bit `integer` and none of its name, capital, region, flag and code holds NUL |
| `Refresh.Summarize` | src/Currency_converter/services.py:272-278 | the response counts are the full list lengths; updated is 0 with an empty list; the created list shown is the first min(10, n) created names; the skip list is shown in full |
| `Refresh.RefreshAccounting` | src/Currency_converter/services.py:196-278 | for any feed the response's created + skipped equals the number of feed entries, updated is 0, and at most ten created names are listed |
| `Refresh.ProcessFeed` | src/Currency_converter/services.py:201-261 | the loop stops exactly when the payload holds an element that is not an object; otherwise it produces exactly the rows, created names and skip labels of the batch definition, created + skipped = feed length, and every added row carries the guaranteed fields and the batch timestamp |
| `Refresh.NewRecord` | src/Currency_converter/services.py:239-253 | the row built from an eligible entry carries the guaranteed fields, its id, the entry's name and population, its first code, the feed's capital, region and flag or their defaults "N/A", "Unknown" and "", and a GDP that is 0 for a rate ≤ 0 and otherwise times the rate gives population × factor |
| `Create.ValidateRequest` | src/Currency_converter/services.py:24-32 | blank currency code is reported first, then blank name, then population ≤ 0; the request passes exactly when none applies |
| `Create.ProbeCountry` | src/Currency_converter/services.py:55-62 | the test raises exactly when `[0]['code']` fails (currencies not a list, a first element that is not an object, or no `code` key) or when the codes differ and the name is missing or null; it matches exactly when the entry lists a currency, does not raise, and its first code equals the request's or its name equals the request's ignoring case; it misses otherwise |
| `Create.ProbeEntry` | src/Currency_converter/services.py:55-62 | a payload element that is not an object never matches: it is a miss when `'currencies' in` it is false, and otherwise the test raises; an object is tested as a country |
| `Create.FirstProbe` | src/Currency_converter/services.py:54-62 | the search result is the first entry that matches or raises, with every earlier entry a miss, or no match when every entry misses |
| `Create.FindMatch` | src/Currency_converter/services.py:54-62 | the loop with `break` returns the first entry that matches or raises, every earlier entry being a miss, and agrees with the search definition |
| `Create.BuildFromMatch` | src/Currency_converter/services.py:70-105 | a new row never repeats a stored currency code; it carries the matched code, the given id, the number `rates.get(code, 1.0)` as its rate, GDP 0 when that rate is ≤ 0, and the current time; the duplicate error arises exactly when a string or null matched code is already stored; a code that is not a string, or a rate that is null or not a number, gives `InternalError`; the stored population is 0 for an absent one, the number for a number, and the converted value for a digit string, which is stored only when the rate is ≤ 0; an entry with a name, a string or null code not yet stored, a numeric rate and such a population always gives a row |
| `Create.StoreNew` | src/Currency_converter/services.py:89-99 | the row is built exactly when the matched entry has a name, and then holds its id, that name, the given population, code and rate, the capital, region and flag or their defaults, the creation time, and the GDP estimate; a missing name gives `InternalError` |
| `Create.CreateOutcome` | src/Currency_converter/services.py:22-105 | validation errors come first, then a fetch failure; not-found happens exactly when every feed entry misses; a created row comes from the first matching entry, its code is not yet stored, and its values fit the column types |
| `Create.CreateFromFirstMatch` | src/Currency_converter/services.py:54-105 | a valid request whose code is the first code of an object entry, with no earlier match, the code not stored, its rate a number or absent and a population that fits the `integer` column, creates the row from that entry with its name, population, code and rate, provided its population fits the `integer` column and no text holds NUL |
| `Create.CreateFromNameMatch` | src/Currency_converter/services.py:54-105 | a valid request whose name equals, ignoring case, the name of an object entry with a string or null first code, with no earlier match, that code not stored, its rate a number or absent and values that fit the columns, creates the row from that entry with the entry's code, whatever the request's code |
| `Queries.FindByName` | src/Currency_converter/services.py:143-149 | not-found exactly when no row's lowered name equals the lowered argument; otherwise the first such row in storage order |
| `Queries.FindByNameIgnoresCase` | src/Currency_converter/services.py:144 | looking up a lowered name gives the same result as the name itself |
| `Queries.RemoveByName` | src/Currency_converter/services.py:153-160 | every row kept is a stored row that does not match the name |
| `Queries.RemoveByNameContents` | src/Currency_converter/services.py:153-160 | the delete drops every copy of each matching row and keeps every copy of each other row |
| `Queries.RemoveByNameDistributes` | src/Currency_converter/services.py:160 | deleting from a concatenation is deleting from each part, so the kept rows stay in storage order |
| `Queries.RemoveByNameKeepsOthers` | src/Currency_converter/services.py:160 | when no row matches, the delete keeps the table as it is |
| `Queries.DeletedNameNotFound` | src/Currency_converter/services.py:143-164 | after a delete, looking up the same name fails with not-found |
| `Queries.StatusCount` | src/Currency_converter/services.py:167-171 | the status is the number of stored rows, duplicates included, and is 0 exactly when the table is empty |
| `Queries.DeleteShrinksCount` | src/Currency_converter/services.py:152-171 | the delete never raises the row count, and lowers it exactly when the lookup finds the name |
| `Queries.ParseSortKey` | src/Currency_converter/services.py:120-138 | an absent or empty key gives name ascending; a key whose lowered form is one of the six names selects that key; any other key gives name ascending |
| `Queries.InOrderTotal` | src/Currency_converter/services.py:123-136 | any two rows can be ordered under each of the six keys |
| `Queries.Insert` | src/Currency_converter/services.py:120-140 | inserting into a sorted sequence keeps it sorted and adds exactly the inserted row |
| `Queries.SortRows` | src/Currency_converter/services.py:120-140 | the result is ordered by the key and is a permutation of the rows |
| `Queries.ListCountries` | src/Currency_converter/services.py:108-140 | the listing is a permutation of all stored rows, ordered by the parsed key |
| `Queries.ListIgnoresFilters` | src/Currency_converter/services.py:112-140 | the region and currency arguments do not change the listing |
| `Queries.RegionFilterIgnored` | src/Currency_converter/services.py:114-120 | a European row is still listed with region filter "Asia" though its region does not contain it |
| `Queries.SelectRowsContents` | src/Currency_converter/services.py:114-118 | the selection keeps every copy of each row passing both filters and no copy of any other row |
| `Queries.ListCountriesFiltered` | src/Currency_converter/services.py:114-140 | the filtered listing holds exactly the rows passing both filters, sorted by the parsed key |
| `Queries.FilteredWithoutFilters` | src/Currency_converter/services.py:112-140 | without filters the filtered listing equals the listing as written |
| `Queries.TopByGdp` | src/Currency_converter/services.py:295-297 | at most five rows (fewer only when fewer are stored), taken from the table, in descending GDP, and no row left out has a higher GDP than any row picked |
| `Storage.CountryTable.BulkRefresh` | src/Currency_converter/services.py:174-280 | a failed fetch returns the fetch error; a payload element that is not an object, or a new row the commit refuses, returns `InternalError`; all three leave the table and the next id unchanged; otherwise the batch rows are appended after the existing ones, which stay untouched, the next id advances by the created count, the row count grows by the created count, and the response is the batch summary; ids stay unique and every stored row is one the commit accepts |
| `Storage.CountryTable.CreateCountry` | src/Currency_converter/services.py:22-105 | the result is the create outcome; on success exactly that row is appended, on any error the table is unchanged; ids stay unique and every stored row is one the commit accepts |
| `Storage.CountryTable.DeleteByName` | src/Currency_converter/services.py:152-164 | returns the first case-insensitive match; not-found leaves the table unchanged; otherwise every match is removed, the others are kept in order, and the count drops |
| `Storage.AppendKeepsIdOrder` | src/entities/currency_exchanger.py:10 | appending rows numbered on from the next id keeps ids ascending and below the advanced next id |
| `Storage.RemoveKeepsStorable` | src/Currency_converter/services.py:160 | the rows a delete keeps are all rows the commit accepted |
| `Storage.RemoveKeepsIdOrder` | src/entities/currency_exchanger.py:10 | the rows kept by a delete still have ascending ids below the next id, so primary keys stay unique |

## Findings

| source | as written | input that shows it | evidently intended | confidence | as-written member | corrected member |
|---|---|---|---|---|---|---|
| src/Currency_converter/services.py:114-118 | the region and currency filters are assigned to `query`, and lines 120-138 then replace `query` with a sort of the unfiltered `data` | one stored row with region "Europe", listed with `region=Asia`: the row is returned | only rows whose region contains the parameter (ignoring case) and whose code equals the upper-cased currency are listed, then sorted | high (not executed) | `Queries.RegionFilterIgnored` | `Queries.ListCountriesFiltered` |

## Left out

- HTTP fetches, environment variables and JSON decoding are out. The two feeds are a
  parameter `Result<Feeds>`. A failed fetch is `Err(UpstreamFetchFailed)`, raised before
  storage is touched.
- Database sessions, `commit`/`refresh` and SQL evaluation are out. The table is the `rows`
  field of `Storage.CountryTable`. The single commit of a refresh is the single assignment
  to `rows`.
- `func.lower`, `ilike`, `str.lower` and `str.upper` are ASCII case mapping here. Name order
  is lexicographic by code point, not the database collation.
- `first()` and `delete()` on an unordered query use storage order here. Rows with equal sort
  keys keep storage order, because the sort is stable. The database guarantees neither order.
- `randrange` is a parameter. Refresh entry i uses `draw(i)`, and the create uses one `factor`.
  Since the draws are independent, this indexing makes no difference.
- Floating-point rates and GDP are `real`, so rounding is not modelled.
- Some JSON values are not modelled: null `capital`, `region` or `flag` (null `capital` or
  `region` breaks NOT NULL at commit), names, capitals, regions and flags that are not
  strings, and fractional populations.
- A countries payload that is neither a list nor an object (a number, say) is not modelled;
  iterating it raises before the loop starts. A string payload is modelled as its characters,
  each a non-object element.
- A `rates` value that is not an object is not modelled: the feed's `rates` is always a map
  here. In the source, its `.get` would raise for every entry that reaches the rate lookup.
- JSON booleans are numbers here, as in Python's checks: a `true` population passes as 1 and
  a `false` rate as 0. PostgreSQL would refuse a Python `bool` in the `integer` and `float`
  columns at commit, failing the refresh or the create; that rejection is not modelled.
- Refresh.Classify: with a positive rate and a population so large that `population * factor`
  is beyond the float range (about 1.8e308), the division at services.py:239 raises
  `OverflowError`, and the `except` clause skips the entry under its name while the other rows
  still commit. The model has no float range: it accepts the entry, its population is outside
  the `integer` range, so the batch commit is refused and the refresh fails with
  `InternalError`. In the create both end in `InternalError`.
- A name holding NUL, passed to the lookup or the delete, makes the driver raise in the
  query; the model compares it like any other name (no stored name holds NUL, so it finds
  nothing).
- Ids come from a counter, without a 32-bit limit. Sequence gaps left by failed inserts are not modelled.
- The summary image is out: drawing, fonts, number formatting, saving the file,
  `get_summary_image_path`, and the image call at the end of the refresh. That call's errors
  are swallowed, and it changes neither the table nor the response. Only its top-five query
  is modelled (`Queries.TopByGdp`). The "not null" filter there has no effect, because every
  row has a GDP.
- The refresh's `message` string and the `print` logging are out.
- Routing, status codes, request/response shapes and app wiring (controller.py, models.py,
  main.py) are out.
- Concurrent requests are out.
- `Queries.ListCountriesFiltered` treats `%` and `_` in the region parameter as literal
  characters. `ilike` reads them as wildcards.
