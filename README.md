# Monday.com group/item extractor — verified model

This project models the logic of `monday_extract_groups.py`, a script that
reads the groups of a Monday.com board and the items of one group through the
Monday.com GraphQL API, then writes those items to a CSV file. The HTTP call,
`print` and `sys.exit` are taken out. What is left is modelled and proved in Dafny:

- **Response classification** (`fetch.dfy`, module `Fetch`). `fetch_groups` and
  `fetch_items` become functions from a parsed reply (`Response.HttpResponse`) to
  `Outcome<T> = Abort(reason) | Ok(value)`. The checks run in the source's order:
  the status code must be exactly 200; then any top-level `errors` key aborts;
  then `data.boards`, where only `boards[0]` is used; then that board's `groups`;
  and, for `fetch_items`, only `groups[0]` and its `items_page.items`.
- **Request variables** (`variables.dfy`, module `Variables`). Each id becomes a
  one-element list holding `str(id)`, and `limit` is passed on unchanged. The
  model covers Python's `str()` on an int id (`decimal.dfy`, module `Decimal`)
  and proves that a decimal parser reads the id back, so distinct int ids give
  distinct variables.
- **CSV rows** (`csv_export.dfy`, module `CsvExport`). `ExportItems` is a method
  with the source's loops. It builds the header from the first item's column
  ids, then builds one row dict per item, filled column by column. It is proved
  against the functions `Header` and `RowOf`. Lemmas about `Fill` prove that the
  last value wins for a repeated column id, that a missing `text` gives `''`,
  and which fields the row has.

Each JSON key that the code reads with `.get(key, default)` is a
`Wrappers.Field<T>`: `Absent`, `Null` or `Present(v)`. Python treats the two
missing cases differently. An absent key yields the default. A JSON `null`
yields `None`. `None.get(...)` raises, and that happens for a null `data` or a
null `items_page`. `not None` acts like `not []`, so a null `boards`, `groups`
or `items` is treated like an empty list. A null `errors` is still found by
`'errors' in data`, but iterating over it raises. Each uncaught exception is an
`Abort(Crash(fault))`.

`fetch_items` sends one query with `limit` and no cursor, and it returns that
single page. A missing `items_page` returns `[]` (lines 146-151).

## Model

| member | source | states |
|---|---|---|
| `Decimal.NatToDigits` | monday_extract_groups.py:29 | `str()` of a non-negative int is a non-empty string of decimal digits with no leading zero: it starts with '0' only for zero, and zero is exactly "0" |
| `Decimal.IntToString` | monday_extract_groups.py:29 | `str()` of an int starts with '-' exactly when it is negative; the rest is all digits with no leading zero (zero is exactly "0") |
| `Decimal.DigitsRoundTrip` | monday_extract_groups.py:29 | reading back the decimal digits of n gives n |
| `Decimal.IntToStringRoundTrip` | monday_extract_groups.py:29 | parsing `str(i)` as a decimal literal gives back i |
| `Decimal.DigitsCanonical` | monday_extract_groups.py:29 | a digit string without a leading zero is the rendering of its own value |
| `Decimal.CanonicalRoundTrip` | monday_extract_groups.py:29 | every string of the form `str()` produces parses, and rendering its value gives the same string back (the other direction of the round trip) |
| `Decimal.IntToStringInjective` | monday_extract_groups.py:105-106 | two different ints never render to the same id string |
| `Variables.Str` | monday_extract_groups.py:105-106 | `str(id)` for a str or int id; the service recovers the id from it (equal to a str id, parses back to an int id), by `IntToStringRoundTrip`; distinct int ids give distinct strings by `IntToStringInjective` |
| `Variables.GroupsQueryVariables` | monday_extract_groups.py:28-30 | `boardId` is a one-element list whose string carries the board id |
| `Variables.ItemsQueryVariables` | monday_extract_groups.py:104-108 | `boardId` and `groupId` are one-element lists whose strings carry the ids, and `limit` is passed unchanged, 10 when not given |
| `Fetch.FirstBoard` | monday_extract_groups.py:43-61 | a status other than 200 aborts with that status; then a present `errors` list aborts with those errors; it succeeds exactly when the status is 200, there is no `errors` key, and `data` holds a non-empty `boards`, and then it yields `boards[0]`; a null `errors` crashes, a null `data` crashes, and every other abort after the `errors` check is "no boards" |
| `Fetch.FetchGroups` | monday_extract_groups.py:62-68 | any earlier abort passes through unchanged; it succeeds exactly when the first board's `groups` is non-empty and then returns that list unchanged; otherwise it aborts with "no groups" |
| `Fetch.ItemsOf` | monday_extract_groups.py:145-153 | aborts exactly when `items_page` is null; a present `items` list is returned exactly; a missing `items_page` and a missing or null `items` give `[]` |
| `Fetch.FetchItems` | monday_extract_groups.py:121-153 | earlier aborts pass through; a missing, null or empty `groups` aborts with "no groups"; otherwise the outcome is that of the first group's items |
| `Fetch.StatusCheckedFirst` | monday_extract_groups.py:43-54 | a non-200 status aborts both fetchers the same way whatever the body holds |
| `Fetch.ErrorsCheckedBeforeData` | monday_extract_groups.py:50-54 | with status 200, an `errors` key (even an empty list) aborts both fetchers, and `data` does not change the outcome; `fetch_items` repeats this check at lines 128-132 |
| `Fetch.MissingDataIsNoBoards` | monday_extract_groups.py:56-59 | a missing `data`, a missing or null `boards` and an empty `boards` give the same "no boards" abort in both fetchers; `fetch_items` repeats this lookup at lines 134-137 |
| `Fetch.OnlyFirstBoard` | monday_extract_groups.py:139 | the boards after `boards[0]` never change either fetcher's outcome |
| `Fetch.FetchGroupsResult` | monday_extract_groups.py:56-68 | `fetch_groups` succeeds exactly when the status is 200, there is no `errors` key, and the first board's `groups` is non-empty; it then returns that list unchanged |
| `Fetch.FetchItemsEmptyCases` | monday_extract_groups.py:140-151 | missing, null or empty `groups` is fatal; a missing `items_page`, a missing or null `items`, or an empty `items` returns `[]` |
| `Fetch.FetchItemsSuccess` | monday_extract_groups.py:145-153 | `fetch_items` returns exactly the first group's items, in reply order, whatever the later groups hold |
| `Fetch.FetchersShareChecks` | monday_extract_groups.py:121-143 | whatever aborts `fetch_groups` aborts `fetch_items` with the same reason; when `fetch_items` succeeds, `fetch_groups` succeeds on the same reply and the items are those of its first group |
| `CsvExport.ColumnIds` | monday_extract_groups.py:169-170 | the header's column ids, appended at line 170, have the columns' count and order |
| `CsvExport.Header` | monday_extract_groups.py:167-170 | the header is `Item ID`, `Item Name`, then the first item's column ids in their original order, duplicates kept |
| `CsvExport.CellOf` | monday_extract_groups.py:183 | `column.get('text', '')`: `''` when `text` is absent, the text when present, `None` exactly when it is null |
| `CsvExport.RowOf` | monday_extract_groups.py:178-183 | an item's row has exactly the fields `Item ID`, `Item Name` and the item's column ids; its values are stated by `RowColumn` and `RowIdentity` |
| `CsvExport.Fill` | monday_extract_groups.py:182-183 | filling a row adds exactly the column ids to its keys |
| `CsvExport.ExportItems` | monday_extract_groups.py:163-184 | no items means nothing is written; otherwise the header comes from the first item, and there is exactly one row per item, in input order, each the item's row |
| `CsvExport.FillLastWins` | monday_extract_groups.py:182-183 | a column id maps to the cell of its last occurrence |
| `CsvExport.FillKeepsOtherKeys` | monday_extract_groups.py:178-183 | a field that no column names keeps its earlier value |
| `CsvExport.RowColumn` | monday_extract_groups.py:183 | each column id maps to its last `text`, to `''` when `text` is absent, to `None` when it is null |
| `CsvExport.RowIdentity` | monday_extract_groups.py:178-181 | `Item ID` and `Item Name` hold the item's `id` and `name` unless a column with that id overwrites them |
| `CsvExport.FirstRowMatchesHeader` | monday_extract_groups.py:167-184 | the first item's row has exactly the header's field names |

## Left out

- The HTTP request, its headers and the API key (lines 32-41 and 110-119) are network I/O. The reply is an input value instead.
- The GraphQL query strings are fixed constants. They are not modelled.
- `print` output and `sys.exit(1)` are not modelled. Each becomes an `Abort` with a reason tag. An uncaught exception becomes `Abort(Crash(..))`.
- `response.json()` failing on a body that is not JSON is not modelled. The body is given already parsed.
- JSON values of the wrong type are not modelled, for example a string where a list is expected. An absent key and `null` are modelled only for `errors`, `data`, `boards`, `groups`, `items_page`, `items` and a column's `text`.
- A `null` item `id`, `name` or `column_values`, a `null` column `id`, a `null` `errors` entry and a `null` body are not modelled. A `null` body makes `'errors' in data` raise `TypeError` (lines 50 and 128).
- A `null` element inside `boards` or `groups` is not modelled. Each element is an object.
- An error entry without `message` is not modelled (it raises `KeyError` while printing). An error carries its message.
- Items or columns without `id`, `name` or `column_values` are not modelled (`KeyError`). The types require those fields.
- `str()` is modelled only for str and int ids. Other Python types are not modelled.
- IntToString: renders every int. CPython 3.11 and later raise `ValueError` in `str()` for an int with more than 4300 digits (`sys.get_int_max_str_digits`), and that limit is not modelled.
- Opening the file and `csv.DictWriter` are not modelled (lines 173-175 and 184). This covers quoting, encoding, how `None` is rendered, the empty cell for a missing field, and the error raised for an extra field. The model stops at the header list and the row dicts handed to the writer.
- The `column_ids` list (lines 168 and 171) is built but never read, so it is not modelled.
- There is no pagination: each fetcher sends one query.
