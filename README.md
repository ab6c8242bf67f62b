# Synchroteam job ETL — a Dafny model

This project models the core of a small ETL job that reads work orders
("jobs") from the Synchroteam field-service API and prepares them for a CSV
file. Two source files make up the core:

- `JsonFlatener.py` — the reference-field flattener. One cell of a reference
  column (technician, customer, site, type, createdBy) is reduced to the value
  under a fixed key (`name` by default) or to the sentinel `'Unknown'`. A
  string cell is first rewritten (every `'` becomes `"`) and parsed as JSON.
- `etl.py` — the `SynchroteamETL` class: the configuration check of its
  constructor, the paginated fetch of `/job/list`, the validator (missing
  technicians, unreadable scheduled-start dates) and the in-place transform of
  the five reference columns through the flattener.

Modules:

- `PyValues` (`py_values.dfy`): the Python values a cell can hold (`Value`),
  the exceptions that leave the code (`Exception`), and `Outcome<T>`, which is
  either the returned value or the raised exception.
- `Flattening` (`flattening.dfy`): `JsonFlatener` and its `FlattenJson`, the
  quote rewrite `ReplaceQuotes`, and lemmas for each case of the flattener.
  `json.loads` is a parameter of type `Loads = string -> Parsed`, where
  `Parsed` is a decode error, a JSON object, or another JSON value.
- `Frames` (`frames.dfy`): a `Frame` class for the DataFrame the pipeline
  builds and changes in place. Its columns are a `map` from name to cells.
- `Etl` (`etl.dfy`): `SynchroteamETL` and its steps. The remote API is a
  parameter `Api = Request -> PageResult`. `pd.to_datetime` is a parameter
  `DateParser = Value -> Option<int>`.

The fields of `SynchroteamETL` are set once in `__init__` and never updated,
so the ETL object is a datatype whose `Init` returns either the object or a
`ValueError`. The DataFrame is the state that the steps change, so `Frame` is
a class. `ValidateData` and `TransformData` have `modifies df` and are proved
against the functions `Validate` and `TransformColumns`. The properties of each step
are then proved as lemmas about those functions.

`Frames.ColumnNames`, `Frames.Cells` and `Frames.Table` define what
`pd.DataFrame(records)` builds, `Frames.Frame.Column` what `df[name]` reads,
and `Etl.ToDatetime` and `Etl.CoerceDates` what
`pd.to_datetime(..., errors='coerce')` gives. The contracts of
`Frames.Frame.constructor`, `FetchJobs` and `ValidateData` are stated with
them. `Report.issues` is a list of `Issue` values; `Message` renders each as
the string that `validate_data` returns, and `MessageInjective` shows that
no information is lost by keeping the structured form.

Notes on behaviour:

- The flattener is not total. A string whose rewrite parses to JSON that is
  not an object (a list, a number, `null`) makes `.get` raise
  `AttributeError`. Only `JSONDecodeError` is caught
  (JsonFlatener.py:21-25). `FlattenJson` returns `Raised(AttributeError)`
  in exactly that case. `ApplyFlatten` and `TransformData` pass it on.
- The fetch loop does not sleep between pages. It catches only HTTP errors,
  so a connection error is not recovered.
- The code has no merge of new records into a stored dataset, no
  canonicalisation of identity keys and no watermark.

## Model

| member | source | states |
|---|---|---|
| `Flattening.ReplaceQuotes` | JsonFlatener.py:20 | the rewrite keeps the length, and each character is itself except that `'` becomes `"` |
| `Flattening.ReplaceQuotesCounts` | JsonFlatener.py:20 | after the rewrite no `'` is left, and the number of `"` is the number of `"` plus the number of `'` in the input |
| `Flattening.ReplaceQuotesConcat` | JsonFlatener.py:20 | the rewrite distributes over concatenation |
| `Flattening.ReplaceQuotesUnchanged` | JsonFlatener.py:20 | a text without `'` is left unchanged |
| `Flattening.ReplaceQuotesIdempotent` | JsonFlatener.py:20 | rewriting twice is the same as rewriting once |
| `Flattening.ReplaceQuotesKeepsOthers` | JsonFlatener.py:20 | every character other than `'` and `"` occurs as often after the rewrite as before |
| `Flattening.ReplaceQuotesKeepsBackslashes` | JsonFlatener.py:20 | the rewrite neither adds nor removes a backslash: the backslash count is unchanged |
| `Flattening.JsonFlatener.FlattenJson` | JsonFlatener.py:8-28 | the flattener raises exactly when the cell is a string whose rewrite parses to a JSON value that is not an object, and it then raises `AttributeError`; in every other case it returns a value |
| `Flattening.DefaultKeyIsName` | JsonFlatener.py:5-15 | a flattener created without a key extracts `name` |
| `Flattening.NullIsUnknown` | JsonFlatener.py:10-11 | a missing cell gives `'Unknown'`, whatever the key |
| `Flattening.DictGivesValueAtKey` | JsonFlatener.py:14-15 | a dict gives the value at the flattener's key, unconverted, or `'Unknown'` when the key is absent |
| `Flattening.StringParsedAfterRewrite` | JsonFlatener.py:18-25 | a string is parsed only after the rewrite; a decode error gives `'Unknown'`, and a parsed object is read like a dict cell |
| `Flattening.OtherTypesAreUnknown` | JsonFlatener.py:27-28 | a cell that is not missing, not a dict and not a string gives `'Unknown'` |
| `Flattening.PythonReprIsRead` | JsonFlatener.py:18-22 | `{'name': '<n>'}` (e.g. `{'name': 'Bob'}`) gives `<n>` when the parser reads `{"name": "<n>"}` as that object and `<n>` has no `'` |
| `Flattening.StrayApostropheIsUnknown` | JsonFlatener.py:18-25 | a string without backslashes whose `'` and `"` are together odd in number fails to decode after the rewrite and gives `'Unknown'`, for any parser that meets `QuotesPairUp` |
| `Flattening.ApostropheInNameIsUnknown` | JsonFlatener.py:18-25 | `{'name': '<n>'}` gives `'Unknown'` when `<n>` (e.g. `O'Brien`) holds an odd number of apostrophes |
| `Flattening.OBrienIsUnknown` | JsonFlatener.py:18-25 | the cell `{'name': 'O'Brien'}` gives `'Unknown'`, for any parser that meets `QuotesPairUp` |
| `Frames.TableConcat` | etl.py:40-47 | the table of two batches of records is the first batch's table stacked on the second's: its columns are those of either batch, a column a batch lacks is missing in that batch's rows, and so the fetched pages give one row per record, page by page |
| `Frames.Frame.constructor` | etl.py:47 | a new frame holds the table of the records and has as many rows as there are records |
| `Frames.Frame.SetColumn` | etl.py:56 | assigning a column replaces that column only and keeps the row count |
| `Etl.Decimal` | etl.py:53 | the count in an issue message is rendered as decimal digits without a leading zero that denote the count |
| `Etl.DecimalInjective` | etl.py:53-59 | two counts with the same rendering are equal |
| `Etl.MessageInjective` | etl.py:53-59 | two issues with the same message are the same issue, kind and count, so the list of `Issue` values says what the list of strings says |
| `Etl.CountWhere` | etl.py:51-53 | the count of flagged rows is at most the row count, and it is zero exactly when no row is flagged (so `.any()` is `.sum() > 0`) |
| `Etl.ToDatetime` | etl.py:56-57 | a coerced cell is missing exactly when it was missing or cannot be parsed as a date |
| `Etl.Validate` | etl.py:49-62 | a missing `technician` or `scheduledStart` column raises `KeyError`, and the technician column is read first; otherwise there are at most two issues and `is_valid` holds exactly when there are none; the technician issue is present exactly when some technician is missing or `'Unknown'`, comes first and carries the count; the date issue is present exactly when some start is missing or unparseable, comes last and carries the count of missing coerced cells |
| `Etl.BothChecksRun` | etl.py:50-62 | both checks always run: a missing technician in one row and an unparseable date in another give exactly two issues, technician first, and not valid |
| `Etl.ApplyFlatten` | etl.py:67 | applying the flattener to a column raises `AttributeError` exactly when some cell raises; otherwise it keeps the length and each cell is the flattening of the old cell |
| `Etl.TransformStopsAtError` | etl.py:66-67 | once a column's pass raises, the later columns are not processed |
| `Etl.TransformKeepsShape` | etl.py:66-68 | the transform keeps the set of columns and the length of every column, whether or not it raises |
| `Etl.TransformSucceeded` | etl.py:66-67 | when nothing raises, each listed column (listed once) holds the flattening of its old cells, and all other columns are unchanged |
| `Etl.ReferenceColumnsFlattened` | etl.py:64-68 | when `transform_data` succeeds, every cell of technician, customer, site, type and createdBy is the `name` flattener's result for its old cell; all other columns and the row count are unchanged |
| `Etl.SynchroteamETL.Init` | etl.py:11-16 | the constructor raises `ValueError` exactly when the API key or URL is missing or empty; the domain is not checked, and a missing domain is rendered as `None` |
| `Etl.SynchroteamETL.PagesBetweenSplit` | etl.py:40 | the records of consecutive page ranges concatenate in request order |
| `Etl.SynchroteamETL.PageRecordsInPlace` | etl.py:40-47 | page `p`'s records appear, in their own order, right after the records of pages before `p` (no reordering, no dedup) |
| `Etl.SynchroteamETL.FetchedUpToUnique` | etl.py:30-45 | a fetch has one outcome: the API's answers fix the last page requested and the records kept |
| `Etl.SynchroteamETL.HttpErrorKeepsEarlierPages` | etl.py:43-47 | an HTTP error on page `k` after non-empty pages 1..k-1 stops the fetch at `k` without retry, and the records of pages 1..k-1 are kept |
| `Etl.SynchroteamETL.TwoPageFetch` | etl.py:36-47 | pages of 100 and 37 records followed by an empty page give the 137 records, page 1 first |
| `Etl.SynchroteamETL.CollectPages` | etl.py:19-45 | pages 1, 2, 3, … are requested in turn, each with `dateFrom`, `dateTo`, `pageSize=100` and the job-list URL; the page counter advances only past a non-empty successful page; the last page requested is the first one that is empty or an HTTP error; the result is the records of all earlier pages, concatenated in request order |
| `Etl.SynchroteamETL.FetchJobs` | etl.py:19-47 | the fetch, followed by building a fresh frame from the collected records |
| `Etl.SynchroteamETL.ValidateData` | etl.py:49-62 | returns what `Validate` states; on success `scheduledStart` is replaced in place by its coerced column and nothing else changes; on a `KeyError` the frame is unchanged |
| `Etl.SynchroteamETL.TransformData` | etl.py:64-68 | the frame ends as `TransformColumns` over the five reference columns states; it raises exactly the first exception of a pass, and the columns processed before it stay replaced; on success it returns the same frame; the row count is kept |

## Left out

- HTTP transport (`requests.get`, `raise_for_status`, `response.json()`) and
  the `SynchroteamAPI` wrapper of api.py are not modelled. The API is the
  parameter `Api`. A response body without `data` is modelled as an empty page.
- The Basic-auth header is not modelled. `credentials` keeps the text
  `<domain>:<api_key>`. Its base64 encoding (section 4 of RFC 4648) is a
  library call.
- Connection errors, timeouts and decode errors of the response body are not
  modelled. The source does not catch them, and `Api` is total.
- `json.loads` and `pd.to_datetime` are parameters, not models.
  `StrayApostropheIsUnknown` and `ApostropheInNameIsUnknown` assume only
  `QuotesPairUp`, a fact about any JSON parser (section 7 of RFC 8259).
- CoerceDates: works cell by cell. pandas can infer one format for a whole
  column, so a cell that parses alone might still be coerced to NaT.
- Cells that hold Python lists are not modelled. `pd.isna` of a list gives an
  array. For a list of two or more elements the `if` on that array raises
  `ValueError`; for a one-element list its truth value is defined, and the
  flattener falls through to `'Unknown'`.
- Number: floats and bools are modelled as integers. Only `parseDate` sees
  the difference, and it is a parameter.
- Frame: does not model column order, dtypes or the index.
- CollectPages: the source loop has no bound. The model requires some page to
  end the fetch (an empty page or an HTTP error). A server that never sends
  one makes the source loop forever, and that case is not modelled.
- Logging and `print` calls are not modelled (etl.py:38, 41, 44, 54, 60;
  JsonFlatener.py:24). The two warnings repeat the strings that `Message`
  renders, which `validate_data` also returns.
- The orchestration in Synchroteam_request.py is not part of this model. It
  validates the raw, unflattened frame, and transforms and saves only when
  that frame is valid. The Flask app (synchroteam.py), analyze_mock.py and
  mock.py are not part of this model either.
- A rate-limit sleep, a merge or dedup against a stored dataset, and a
  watermark do not appear in the code, so they are not modelled.
