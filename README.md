# quantframe market client core, in Dafny

This project models the Rust backend core of quantframe, a desktop companion
for trading on warframe.market:

- `WFMClientState` (`src-tauri/src/wfm_client.rs`): the client of the
  warframe.market REST API. It builds each request (endpoint, `JWT` authorization
  header), classifies the reply (transport error, 429, other non-200 status,
  payload decode), signs in and cuts the session token out of `set-cookie`,
  creates, updates, deletes and closes orders, validates the session with a probe
  order, and turns order lists into polars tables.
- The table helpers of `src-tauri/src/helper.rs`: `merge_dataframes`,
  `get_column_values`, `get_column_value`, `filter_and_extract`, `sort_dataframe`
  and the `ColumnType` / `ColumnValues` / `ColumnValue` enums. A polars
  `DataFrame` is a sequence of named series of optional cells, and a filter
  expression is a predicate on one row together with the columns it refers to.
- The error taxonomy `GlobleError`, its `From` conversions, and the records the
  client decodes (`src-tauri/src/structs.rs`).
- The credential record `AuthState`, its `Default`, and `setup` /
  `save_to_file` / `read_from_file` over an abstract `auth.json`
  (`src-tauri/src/auth.rs`).

Files, one module each:

- `wrappers.dfy`: `Option` and `Result`.
- `fmt.dfy`: Rust `Display` of integers and `Debug` quoting of strings.
- `json.dfy`: the part of `serde_json::Value` the client uses (indexing,
  `body["rank"] = …`, compact `to_string()`).
- `structs.dfy`, `auth.dfy`, `helper.dfy`, `wfm_client.dfy`: the four source files.

The network is a `Server` object. It records every request in `log` and answers
the n-th request with `respond(request, n)`, a function fixed in advance. So each
client method's contract says which requests it sends, in what order, and what it
makes of the replies. A method's result is stated through `Next`: the reply
`respond` gives to the request as the next one, classified by `Classify`.

Where the code does something one might not expect, the model follows the code:

- `sort_dataframe` passes its `ascending` flag on as `descending`, with nulls
  first (`src-tauri/src/helper.rs:89-91`). `Helper.AscendingFlagSortsDescending`
  shows `ascending = true` putting 2 before 1.
- `get_ordres_by_item` compares the author status with `"ingame"`
  (`src-tauri/src/wfm_client.rs:524`).
- The by-item table has two `username` columns (`src-tauri/src/wfm_client.rs:529-556`).
  It is built with `new_no_checks`, so it exists, but `Helper.MergeSpec` rejects it
  (`WfmClient.ByItemFrameNotMergeable`).
- `validate` passes a failed delete on as an error instead of answering `false`
  (`src-tauri/src/wfm_client.rs:191-197`).
- In `login` without `set-cookie`, the else branch assigns to a clone, so the
  decoded user comes back unchanged (`src-tauri/src/wfm_client.rs:172`).
- The session token is whatever follows byte 4, up to the first `;`. It may be
  empty. A header shorter than 4 bytes, or one `to_str` rejects (it becomes ""),
  makes the slice panic. The model gives `Outcome.Panicked` for that.
- `login` posts to `"/auth/signin"` after an endpoint that already ends in `/`.
  The request URL therefore contains `//auth/signin`, and the model keeps it.
- `From<&str>` stores the debug-quoted text (`src-tauri/src/structs.rs:78-82`).

## Model

| member | source | states |
|---|---|---|
| Structs.FromPoison | src-tauri/src/structs.rs:27-31 | a poisoned lock always becomes `OtherError` with the poison error's debug text; the conversion is total and cannot panic |
| Structs.FromSqlx | src-tauri/src/structs.rs:32-36 | a sqlx error becomes `DabaseError` carrying that same error |
| Structs.FromReqwest | src-tauri/src/structs.rs:38-42 | a reqwest error becomes `ReqwestError` carrying that same error |
| Structs.FromSerde | src-tauri/src/structs.rs:43-47 | a serde_json error becomes `SerdeError` whose line and column are the error's own, with the error's debug text |
| Structs.FromPolars | src-tauri/src/structs.rs:48-52 | a polars error becomes `PolarsError` holding the error's debug text |
| Structs.FromIo | src-tauri/src/structs.rs:53-57 | an io error becomes `IoError` carrying that same error |
| Structs.FromParseInt | src-tauri/src/structs.rs:58-62 | an integer parse error becomes `ParseIntError` with the same error kind |
| Structs.FromParseFloat | src-tauri/src/structs.rs:63-67 | a float parse error becomes `ParseFloatError` with the same error kind |
| Structs.FromParseBool | src-tauri/src/structs.rs:68-72 | a bool parse error becomes `ParseBoolError` |
| Structs.FromString | src-tauri/src/structs.rs:73-77 | a `String` becomes `ParseError` of exactly that text |
| Structs.FromStr | src-tauri/src/structs.rs:78-82 | a `&str` becomes `ParseError` of its debug-quoted form, not of the text itself |
| Structs.FromStrInjective | src-tauri/src/structs.rs:73-82 | two `&str` conversions are equal iff the texts are equal, and converting a text as `&str` never gives the same error as converting it as `String` |
| Structs.QuotedIsLonger | src-tauri/src/structs.rs:78-82 | the debug-quoted form of a text is strictly longer than the text |
| Fmt.DebugStr | src-tauri/src/structs.rs:80 | `{:?}` of a string is enclosed in double quotes |
| Fmt.EscapeDebugRoundTrip | src-tauri/src/structs.rs:80 | undoing the debug escaping gives back the original text, so the escaping loses nothing |
| Fmt.DebugStrInjective | src-tauri/src/structs.rs:80 | different texts have different debug-quoted forms |
| Fmt.NatText | src-tauri/src/structs.rs:45 | `Display` of a `usize` is a non-empty run of decimal digits with no leading zero |
| Fmt.NatTextValue | src-tauri/src/structs.rs:45 | the printed digits read back as the same number |
| Fmt.IntText | src-tauri/src/wfm_client.rs:392-393 | `Display` of an `i64` starts with `-` exactly when the number is negative; a non-negative number is its decimal digits, a negative one `-` followed by the digits of its magnitude |
| Auth.Default | src-tauri/src/auth.rs:21-35 | the default record has no token, is not banned, and every text field (id, avatar, ingame_name, locale, platform, region, role) is empty; it is the only such record |
| Auth.AuthFile.SaveToFile | src-tauri/src/auth.rs:53-58 | succeeds exactly when the file can be created, and then the file holds the record; on failure the file is unchanged and the error is the creation error |
| Auth.AuthFile.ReadFromFile | src-tauri/src/auth.rs:60-66 | a missing file fails with `NotFound`; content that ends before a record is complete fails with `UnexpectedEof` and any other unreadable content with `InvalidData`; a saved record is returned as saved |
| Auth.AuthFile.Setup | src-tauri/src/auth.rs:42-51 | an existing file is read and left as it is, a truncated one failing with `UnexpectedEof` and any other unreadable one with `InvalidData`; with no file, the default record is saved and returned, so afterwards the file holds the default; a failed save is passed on |
| Auth.AuthFile.SaveThenRead | src-tauri/src/auth.rs:53-66 | after a successful save, reading the file returns the record that was saved |
| Json.Keys | src-tauri/src/wfm_client.rs:389-395 | the key list of an object's members, one per member in order |
| Json.Lookup | src-tauri/src/wfm_client.rs:87-89 | indexing an object by a key it lacks gives `null` |
| Json.LookupAt | src-tauri/src/wfm_client.rs:87-89 | indexing by a member's key gives that member's value when no earlier member has the key |
| Json.LookupDistinct | src-tauri/src/wfm_client.rs:87-89 | in an object without repeated keys, every key gives its own value |
| Json.Insert | src-tauri/src/wfm_client.rs:398 | after `insert`, the key gives the new value, every other key its old value, and the key set gains exactly that key |
| Json.Set | src-tauri/src/wfm_client.rs:398 | `body[key] = x` on an object: the key gives `x`, every other key is unchanged, the key set gains only `key` |
| Helper.LiftAll | src-tauri/src/helper.rs:28-39 | reading a column of optional values as cells keeps its length and makes `None` a null |
| Helper.Cells | src-tauri/src/helper.rs:22-39 | a series has one cell per row, each of the series' type or null |
| Helper.Names | src-tauri/src/helper.rs:206 | `get_column_names`: one name per series, in column order |
| Helper.FirstIndex | src-tauri/src/helper.rs:132 | the position of the first column carrying a name |
| Helper.Column | src-tauri/src/helper.rs:132 | `df.column(name)` is none iff no series has the name, otherwise the first series with that name |
| Helper.ColumnOfDistinct | src-tauri/src/helper.rs:212 | with distinct names, looking up a series' name finds that series |
| Helper.ColumnSamePosition | src-tauri/src/helper.rs:211-217 | two tables with the same names find a name at the same position |
| Helper.Selected | src-tauri/src/helper.rs:107 | the rows a filter mask selects, strictly increasing, each selected, and every selected row listed |
| Helper.KeepWhere | src-tauri/src/helper.rs:107 | the kept elements are those at the selected positions, in order |
| Helper.KeepData | src-tauri/src/helper.rs:107 | filtering a series keeps its type, and cell i is the cell of the i-th selected row |
| Helper.Mask | src-tauri/src/helper.rs:107 | one mask entry per row, true exactly when the predicate accepts that row |
| Helper.FilterFrame | src-tauri/src/helper.rs:107 | `df.lazy().filter(p)`: same names and types, a proper table, and row i is the i-th accepted row of the input |
| Helper.KeepRows | src-tauri/src/helper.rs:107 | cutting every column to the selected rows keeps names and types and leaves equal column lengths |
| Helper.KeepRowsRows | src-tauri/src/helper.rs:107 | row i after cutting is the i-th selected row before |
| Helper.Filtered | src-tauri/src/helper.rs:106-109 | no filter gives the table unchanged; a filter fails with `ColumnNotFound` iff it refers to a column the table lacks, naming such a column, and otherwise keeps exactly the accepted rows (`FilterFrame`) under the same column names |
| Helper.MissingColumn | src-tauri/src/helper.rs:106-109 | none iff every referenced column is in the table, otherwise a referenced column the table lacks |
| Helper.FilterKeepsAccepted | src-tauri/src/helper.rs:127-130 | a row appears in the filtered table iff the predicate accepts it |
| Helper.NonNull | src-tauri/src/helper.rs:139 | `filter_map(\|v\| v)`: a value is kept iff it occurs as `Some`, and the result is never longer |
| Helper.NonNullAppend | src-tauri/src/helper.rs:139 | dropping nulls distributes over concatenation, so kept values stay in row order |
| Helper.DropNulls | src-tauri/src/helper.rs:139 | the non-null cells: a cell is kept iff it is in the column and is not null |
| Helper.ValuesCells | src-tauri/src/helper.rs:28-33 | extracted values are never null and all have the variant's type |
| Helper.ExtractValues | src-tauri/src/helper.rs:134-171 | the typed accessor succeeds iff the series has the requested type, and then yields exactly the non-null cells in row order; otherwise a polars error |
| Helper.NonNullCells | src-tauri/src/helper.rs:136-140 | lifting a column to cells and dropping nulls equals lifting its non-null values |
| Helper.GetColumnValues | src-tauri/src/helper.rs:121-172 | filter first, a failed filter being passed on as a `PolarsError`; a missing column fails with `ColumnNotFound`; it succeeds iff the column exists with the requested type, and then returns that column's non-null values of the filtered table in row order |
| Helper.GetColumnValue | src-tauri/src/helper.rs:173-197 | fails exactly when `get_column_values` fails (a failed filter included), with the same error; otherwise the value has the requested type and is the first extracted value, or none when there are none |
| Helper.Head | src-tauri/src/helper.rs:180-195 | `get(0).cloned()` under the matching variant: the first value or none |
| Helper.FirstRepeated | src-tauri/src/helper.rs:111 | none iff the requested names are all distinct |
| Helper.SelectColumns | src-tauri/src/helper.rs:111 | succeeds iff every requested name exists; then one series per name, in the requested order, each the table's column of that name |
| Helper.Select | src-tauri/src/helper.rs:111 | `select` succeeds iff every name exists and none is requested twice; the result's names are the requested ones in order |
| Helper.FilterAndExtract | src-tauri/src/helper.rs:99-119 | filter, then select: a failed filter is passed on unprefixed as a `PolarsError`; succeeds iff the filter succeeds and the names exist and are distinct, and then gives the filtered table's columns in the requested order; a failed selection is `OtherError` prefixed "Error while filtering and extracting: " |
| Helper.StrLeqTotal | src-tauri/src/helper.rs:87-94 | string order is total |
| Helper.StrLeqTrans | src-tauri/src/helper.rs:87-94 | string order is transitive |
| Helper.InOrderTotal | src-tauri/src/helper.rs:89-91 | for either direction, of any two cells one may precede the other |
| Helper.InOrderTrans | src-tauri/src/helper.rs:89-91 | "may precede" is transitive in either direction |
| Helper.Range | src-tauri/src/helper.rs:87-95 | the row positions lo to hi - 1 in order |
| Helper.InsertBy | src-tauri/src/helper.rs:87-95 | inserting a row adds exactly that row to the order |
| Helper.InsertBySorted | src-tauri/src/helper.rs:87-95 | inserting a row into a sorted order keeps it sorted |
| Helper.InsertFrontSorted | src-tauri/src/helper.rs:87-95 | a row that may precede the first keeps the order sorted at the front |
| Helper.InsertLaterSorted | src-tauri/src/helper.rs:87-95 | a row placed after the head keeps the order sorted |
| Helper.HeadPrecedes | src-tauri/src/helper.rs:87-95 | the head of a sorted order may precede every row in its remainder with the new row added |
| Helper.SortFrom | src-tauri/src/helper.rs:87-95 | the rows from a given position on, each once, sorted by key |
| Helper.SortOrder | src-tauri/src/helper.rs:87-95 | a permutation of all rows, sorted by the key column in the given direction |
| Helper.PermutationCoversRows | src-tauri/src/helper.rs:87-95 | a permutation of the rows lists every row |
| Helper.PermuteData | src-tauri/src/helper.rs:87-95 | reordering a series keeps its type, and cell i is the cell of row p[i] |
| Helper.PermuteFrame | src-tauri/src/helper.rs:87-95 | reordering all series keeps names and equal lengths |
| Helper.PermuteFrameRows | src-tauri/src/helper.rs:87-95 | row i after reordering is row p[i] before |
| Helper.SortDataframe | src-tauri/src/helper.rs:79-97 | fails iff the key column is missing; otherwise same names, types and height, the key column is sorted with the flag taken as `descending` and nulls first, and row i is row order[i] of the input for a permutation `order` |
| Helper.SortedKeyColumn | src-tauri/src/helper.rs:87-95 | after reordering, the key column's cells are in order |
| Helper.AscendingFlagSortsDescending | src-tauri/src/helper.rs:89-91 | with `ascending = true` the keys 1, 2 come out as 2, 1 |
| Helper.TwoKeysReversed | src-tauri/src/helper.rs:89-91 | sorting the keys 1, 2 in descending order lists row 1 before row 0 |
| Helper.SwapTwo | src-tauri/src/helper.rs:87-95 | reordering a two-row column by [1, 0] swaps its cells |
| Helper.NullsFirst | src-tauri/src/helper.rs:91 | in the sorted order no null key comes after a non-null key, in either direction |
| Helper.LiftAllAppend | src-tauri/src/helper.rs:217 | the cells of two concatenated columns are the cells of one followed by the other |
| Helper.Append | src-tauri/src/helper.rs:217 | `series.append` succeeds iff the types agree, and then holds this series' cells followed by the other's; otherwise a schema mismatch |
| Helper.StackFrom | src-tauri/src/helper.rs:215-218 | the inner loop keeps the type of the series it starts from; a failure is `ColumnNotFound` of that column or a schema mismatch |
| Helper.StackFromOkIff | src-tauri/src/helper.rs:215-218 | the inner loop succeeds iff every later frame carries the column at the type stacked so far |
| Helper.StackFromLength | src-tauri/src/helper.rs:215-218 | for proper tables the stacked series is as long as the starting series and the later frames together |
| Helper.StackFromCells | src-tauri/src/helper.rs:215-218 | the stacked series holds the first frame's cells, then each later frame's, in input order |
| Helper.StackableIff | src-tauri/src/helper.rs:215-218 | the inner loop succeeds exactly on a column every later frame carries at the same type |
| Helper.MergeFrom | src-tauri/src/helper.rs:211-221 | a failure of the outer loop is a failed column lookup or a schema mismatch |
| Helper.MergeFromOkIff | src-tauri/src/helper.rs:211-221 | the outer loop succeeds iff every name can be stacked |
| Helper.MergeFromPrefix | src-tauri/src/helper.rs:211-221 | the outer loop keeps the series already pushed and pushes one per name |
| Helper.MergeFromStacked | src-tauri/src/helper.rs:211-221 | the i-th pushed series is named by the i-th name and is that column of the first frame with the later frames' columns appended |
| Helper.MergedNames | src-tauri/src/helper.rs:211-221 | the outer loop pushes one series per name of the first frame, in the first frame's order |
| Helper.MergeFromColumn | src-tauri/src/helper.rs:211-221 | the i-th pushed series has the i-th name, the first frame's type, and the stacked cells of that name |
| Helper.NewFrame | src-tauri/src/helper.rs:223 | `DataFrame::new` succeeds iff names are distinct and lengths equal, returning the columns unchanged; every failure is a duplicate or a shape mismatch, a duplicate when the lengths agree and a shape mismatch when the names are distinct |
| Helper.DistinctByNewNames | src-tauri/src/helper.rs:223 | names are distinct iff each column's name is new when `DataFrame::new` reaches it |
| Helper.CheckColumns | src-tauri/src/helper.rs:223 | walking the columns in order, each first checked for length and then for a new name, finds nothing iff every remaining column passes both; a failure is a shape mismatch when all names are new and a duplicate when all lengths agree |
| Helper.NewFrameShapeFirst | src-tauri/src/helper.rs:223 | for columns `a`, `b` of another length, `a`, the shape mismatch at `b` is reported, not the repeated `a` |
| Helper.MergeSpec | src-tauri/src/helper.rs:199-224 | empty input fails with `OtherError("No frames to merge")`, other failures are polars errors; a result has the first frame's names in order and equal column lengths, and each column has the first frame's type and the cells of that column from every frame, in input order |
| Helper.MergeDataframes | src-tauri/src/helper.rs:199-224 | the nested loops compute exactly `MergeSpec` |
| Helper.StackColumn | src-tauri/src/helper.rs:212-218 | the inner loop appends the column of each later frame in turn and returns exactly `StackFrom` of the first frame's column: the first missing column or type clash is its error |
| Helper.StackedCellsLength | src-tauri/src/helper.rs:212-220 | a stacked column is as long as all frames together |
| Helper.StackedCellsAppend | src-tauri/src/helper.rs:215-218 | stacking one more frame appends that frame's cells |
| Helper.LiftAllInjective | src-tauri/src/helper.rs:28-39 | reading optional values as cells loses nothing |
| Helper.CellsDetermineData | src-tauri/src/helper.rs:22-39 | a series' type and cells determine its values |
| Helper.MergedColumnLength | src-tauri/src/helper.rs:212-220 | each series the outer loop builds has the first frame's name and the total height |
| Helper.MergeSucceedsIff | src-tauri/src/helper.rs:206-223 | for proper tables the merge succeeds iff the first frame's names are distinct and every later frame has each of its columns at the same type |
| Helper.MergeLengths | src-tauri/src/helper.rs:212-220 | every merged column's length is the sum of the frames' heights |
| Helper.MergeMismatchFails | src-tauri/src/helper.rs:216-217 | a later frame lacking a column of the first, or with a different type, makes the merge fail with a polars error |
| Helper.StackedCellsSingle | src-tauri/src/helper.rs:215 | stacking one frame gives that frame's column |
| Helper.MergeSingleColumn | src-tauri/src/helper.rs:211-223 | merging one table gives back each of its columns unchanged |
| Helper.MergeSingle | src-tauri/src/helper.rs:211-223 | merging a one-table list returns that table |
| Helper.MergedColumnAt | src-tauri/src/helper.rs:211-223 | the merged table finds each name where the first frame does, with its type and the stacked cells |
| Helper.StackableAfterMerge | src-tauri/src/helper.rs:211-223 | a column can be stacked onto one more frame iff the merged column can |
| Helper.MergedColumn | src-tauri/src/helper.rs:211-223 | column j of a merge has the first frame's j-th name and type and that name's stacked cells |
| Helper.MergeAssociativeColumn | src-tauri/src/helper.rs:211-223 | column j of merging n+1 frames equals column j of merging the first n and then the last |
| Helper.MergeAssociativeOk | src-tauri/src/helper.rs:211-223 | merging n+1 frames succeeds iff merging the merge of the first n with the last succeeds |
| Helper.MergeAssociative | src-tauri/src/helper.rs:199-224 | merging is associative: adding a frame to a merge equals merging the merged table with it, success and value |
| Helper.SameSchemaMerges | src-tauri/src/helper.rs:206-223 | two proper tables with the same distinct names and the same types always merge |
| Helper.MergedHeight | src-tauri/src/helper.rs:212-220 | a merge of two tables has the rows of both |
| WfmClient.Server.Exchange | src-tauri/src/wfm_client.rs:58 | sending a request appends it to the log, and the reply is the server's answer for its position |
| WfmClient.AuthorizationValue | src-tauri/src/wfm_client.rs:47-50 | the header value is "JWT " followed by the token, or "JWT " alone without one |
| WfmClient.GetHeader | src-tauri/src/wfm_client.rs:160 | `headers.get(name)` is none iff no header has the name, otherwise the value of the first one |
| WfmClient.PayloadOfEnvelope | src-tauri/src/wfm_client.rs:87-92 | the envelope `{"payload": v}` gives `v`, or `v[key]` with a key; without a `payload` member the data is `null` |
| WfmClient.Classify | src-tauri/src/wfm_client.rs:60-102 | a transport failure is `ReqwestError`; 429 is `TooManyRequests("Too Many Requests")`; any other non-200 is `OtherError` with URL, body (or `{}`), status and text; on 200 it succeeds iff `payload` (or `payload[key]`) decodes, giving that value and the headers, and a decode failure is `SerdeError` with that value's text, line and column |
| WfmClient.ClassifyBranches | src-tauri/src/wfm_client.rs:60-101 | each error variant arises iff its branch is taken: a 429 is never `OtherError`, and only a transport failure gives `ReqwestError` |
| WfmClient.WithoutHeaders | src-tauri/src/wfm_client.rs:105-149 | dropping the headers keeps success, the value and the error |
| WfmClient.DecodeString | src-tauri/src/wfm_client.rs:424-425 | decoding a `String` succeeds exactly on a JSON string, giving its text |
| WfmClient.DecodeOptionString | src-tauri/src/wfm_client.rs:584-585 | decoding an `Option<String>` succeeds on a string or `null`; `null` is none and a string gives its text |
| WfmClient.HeaderStr | src-tauri/src/wfm_client.rs:164 | `to_str().unwrap_or_default()` keeps the text iff it is all visible ASCII, otherwise gives "" |
| WfmClient.UpToSemicolon | src-tauri/src/wfm_client.rs:168 | `split(';').next()` is a prefix without `;`, ending at the end or just before the first `;` |
| WfmClient.SessionToken | src-tauri/src/wfm_client.rs:164-168 | the slice panics iff the header text is shorter than 4 bytes; otherwise the token is the text from byte 4 up to the first `;` |
| WfmClient.UpToSemicolonOf | src-tauri/src/wfm_client.rs:168 | a token without `;` followed by `;` and anything is cut back to the token |
| WfmClient.SessionTokenOfJwtCookie | src-tauri/src/wfm_client.rs:167-168 | the cookie `JWT=abc; Path=/` gives the token `abc` |
| WfmClient.ApplySession | src-tauri/src/wfm_client.rs:159-174 | without `set-cookie` the user is unchanged; with it, the token is the cut cookie and the avatar gains the static-assets prefix, nothing else changes, and a short header panics |
| WfmClient.NewOrderFields | src-tauri/src/wfm_client.rs:389-395 | the create-order body maps item, order_type, platinum, quantity and visible to the given values |
| WfmClient.NewOrderFieldsKeys | src-tauri/src/wfm_client.rs:389-395 | the base body has exactly those five keys |
| WfmClient.PostOrderBody | src-tauri/src/wfm_client.rs:389-399 | every key but `rank` is as in the base body; `rank` holds the rank when one is given and is absent (null) otherwise |
| WfmClient.PostOrderBodyKeys | src-tauri/src/wfm_client.rs:389-399 | the body has a `rank` key iff a rank is given, and no keys besides the five fixed ones |
| WfmClient.UpdateOrderBody | src-tauri/src/wfm_client.rs:473-477 | the update body has exactly the keys platinum, quantity and visible, with the given values |
| WfmClient.StrSeries | src-tauri/src/wfm_client.rs:258-375 | a string series has one present cell per value, in order |
| WfmClient.BoolSeries | src-tauri/src/wfm_client.rs:258-375 | a bool series has one present cell per value, in order |
| WfmClient.I64Series | src-tauri/src/wfm_client.rs:536-549 | an `i64` series has one cell per value, `None` as null |
| WfmClient.OrdersFrame | src-tauri/src/wfm_client.rs:255-377 | the order table has eight columns of equal length, one entry per order |
| WfmClient.OrdersFrameSchema | src-tauri/src/wfm_client.rs:255-377 | the columns are id, visible, url_name, platinum, platform, quantity, last_update, creation_date, with types string, bool, string, i64, string, i64, string, string, whatever the orders |
| WfmClient.OrdersFrameRows | src-tauri/src/wfm_client.rs:255-377 | row i of the table holds order i's fields |
| WfmClient.OrderColumnsDistinct | src-tauri/src/wfm_client.rs:255-377 | the eight column names are distinct |
| WfmClient.OrdersFramesMerge | src-tauri/src/wfm_client.rs:255-377 | the buy table and the sell table always merge, into a table with the rows of both |
| WfmClient.MaxModRank | src-tauri/src/wfm_client.rs:516-520 | `max_by` on `mod_rank`: no order has a higher rank (None below every Some), and some order has this rank |
| WfmClient.KeepTier | src-tauri/src/wfm_client.rs:522-525 | an order is kept iff it is fetched, its author's status is "ingame" and its rank is the given one |
| WfmClient.KeepTierAppend | src-tauri/src/wfm_client.rs:522-525 | the filter distributes over concatenation, so kept orders keep their relative order |
| WfmClient.ByItemTable | src-tauri/src/wfm_client.rs:528-564 | the columns username, platinum, mod_rank, username, order_type, all as long as the kept list |
| WfmClient.ByItemTableRows | src-tauri/src/wfm_client.rs:528-564 | row i of the table is the i-th kept order |
| WfmClient.ByItemFrame | src-tauri/src/wfm_client.rs:512-565 | no orders give an empty table; otherwise the five columns with one row per kept order |
| WfmClient.TopRankIsMax | src-tauri/src/wfm_client.rs:516-524 | an order has the maximum rank iff no fetched order ranks above it |
| WfmClient.ByItemRowsQualify | src-tauri/src/wfm_client.rs:516-564 | every row is an in-game order with no higher-ranked order fetched |
| WfmClient.QualifyingOrderHasRow | src-tauri/src/wfm_client.rs:516-564 | every in-game order with no higher-ranked order fetched has a row |
| WfmClient.ByItemFrameNotMergeable | src-tauri/src/wfm_client.rs:529-556 | the repeated `username` column makes the non-empty by-item table fail a merge |
| WfmClient.FindByUrlName | src-tauri/src/wfm_client.rs:574-577 | `find` gives none iff no order is for the item, otherwise the first order for it |
| WfmClient.FindInPrefix | src-tauri/src/wfm_client.rs:571-577 | a match in the first list is found before anything in the appended list |
| WfmClient.FindAfterPrefix | src-tauri/src/wfm_client.rs:571-577 | without a match in the first list, the search gives the first match in the appended list |
| WfmClient.BuyOrdersSearchedFirst | src-tauri/src/wfm_client.rs:570-577 | the order picked is the first buy order for the item if there is one, else the first sell order for it |
| WfmClient.WFMClientState.constructor | src-tauri/src/wfm_client.rs:25-31 | the client has the fixed endpoint and log file and the given user |
| WfmClient.WFMClientState.Prepare | src-tauri/src/wfm_client.rs:43-56 | the request URL is the endpoint followed by the path, with "JWT " plus the token, language "en" and the body |
| WfmClient.WFMClientState.SendRequest | src-tauri/src/wfm_client.rs:32-103 | exactly one request is sent, the prepared one, and the result is its reply classified |
| WfmClient.WFMClientState.Login | src-tauri/src/wfm_client.rs:151-175 | one sign-in request with email and password; a failure is returned; otherwise the decoded user with the session applied, or a panic on a short cookie |
| WfmClient.WFMClientState.PostOrdre | src-tauri/src/wfm_client.rs:378-415 | one POST to profile/orders with the create-order body; the result is the decoded `order` or the error |
| WfmClient.WFMClientState.DeleteOrder | src-tauri/src/wfm_client.rs:416-448 | one DELETE of profile/orders/<id>; the result is the reply's `order_id` or the error |
| WfmClient.WFMClientState.Validate | src-tauri/src/wfm_client.rs:177-202 | a failed probe order gives `Ok(false)` with no delete sent; otherwise the probe is deleted, giving `Ok(true)`, or the delete's error is passed on |
| WfmClient.WFMClientState.GetTradableItems | src-tauri/src/wfm_client.rs:203-206 | one GET of items; the decoded `items` or the error |
| WfmClient.WFMClientState.GetItem | src-tauri/src/wfm_client.rs:207-229 | one GET of items/<item>; the decoded `item` or the error |
| WfmClient.WFMClientState.GetUserOrdres | src-tauri/src/wfm_client.rs:231-254 | one GET of profile/<ingame_name>/orders; the decoded whole payload or the error |
| WfmClient.WFMClientState.GetOrdresDataFrames | src-tauri/src/wfm_client.rs:255-377 | one fetch of the user's orders; on success the order table of the buy orders and that of the sell orders, otherwise the error |
| WfmClient.WFMClientState.ConvetOrderToDatafream | src-tauri/src/wfm_client.rs:449-461 | always succeeds with the eight order columns and one row, that row being the order |
| WfmClient.WFMClientState.UpdateOrderListing | src-tauri/src/wfm_client.rs:462-494 | one PUT of profile/orders/<id> with the update body; the decoded `order` or the error |
| WfmClient.WFMClientState.GetOrdresByItem | src-tauri/src/wfm_client.rs:496-566 | one GET of items/<item>/orders; never fails; a failed fetch counts as no orders, and the result is the by-item table of the fetched orders |
| WfmClient.WFMClientState.CloseOrderByUrl | src-tauri/src/wfm_client.rs:568-606 | a failed fetch is returned; with no order for the item, "No Order Found" and no close request; otherwise one PUT closing the first matching order, buy orders before sell orders, giving the reply or "Order Successfully Closed" when it is null |

## Left out

- The 1 s sleep before every request and the 3 s sleep on a 429 (`src-tauri/src/wfm_client.rs:41, 68`) are timing. Only the 429 branch they sit in is modelled.
- The `Arc<Mutex<AuthState>>` locking (`src-tauri/src/wfm_client.rs:39, 232`) is concurrency. The client reads a fixed snapshot of the user, so a poisoned lock never happens in `SendRequest`. The `PoisonError` conversion itself is `Structs.FromPoison`.
- `logger::info` / `logger::error` calls are side effects only, and are left out.
- `Url::parse(...).unwrap()` (line 46), `response.text().await.unwrap()` (line 74) and `response.json().await.unwrap()` (line 85) are left out. They can only panic on malformed input from reqwest. The model assumes the URL parses and the body is JSON text.
- HTTP dispatch, header maps and JSON parsing are left out. A reply is an abstract status, a header list, the body text and the body parsed as JSON.
- The serde derive decoders of `Order`, `Ordres`, `OrderByItem`, `AuthState`, `Item` and `ItemDetails` are function parameters (`Decoders`). The decoders of `String` and `Option<String>` are written out. Their error messages and positions are placeholders, not serde_json's texts.
- The texts of polars errors are a rendering of the polars error kind, not polars' exact `Debug` output.
- Floating point is not modelled. `f64` values (`F64` columns, the order `rank`) are opaque. Sorting an `F64` column uses an abstract ordinal. `json!(rank)` for NaN or infinity (which serde_json turns into `null`) is not modelled.
- Polars filter expressions are abstract predicates on a row, together with the columns they refer to. Lazy plans are not modelled.
- Helper.Filtered: the only filter failure modelled is a reference to a column the table lacks. Other expression errors (a predicate of the wrong type, a failing cast) are not modelled.
- Sort stability is left out. The model fixes one sorted order (an insertion sort), while polars only promises a sorted permutation.
- Helper.SortDataframe: ties between keys are ordered by the model's insertion sort. Polars may order equal keys differently, so only sortedness and being a permutation carry over.
- Helper.MergeAssociative: states equality of the merged values when both merges succeed, not of polars' internal chunk layout.
- `get_app_local_path`, `get_app_roaming_path`, `last_x_days`, `send_message_to_window` and `send_message_to_discord` (`src-tauri/src/helper.rs:41-77, 227-274`) touch the filesystem, the clock, the GUI and a webhook. They are left out.
- The `Serialize` impl of `GlobleError` (`src-tauri/src/structs.rs:18-25`) calls itself, and is left out.
- The `Invantory` and `Transaction` records are not used by the modelled logic, and are left out.
- `src/store/store.ts` and `src/types/settings.type.ts` are a thin wrapper over a plugin store and type declarations. They are not part of this model.
- Auth.AuthFile.SaveToFile: the only write failure modelled is that the file cannot be created. Failures of `to_string_pretty` and `write_all`, and the file contents as text, are not modelled.
- Auth.AuthFile.ReadFromFile: read errors other than a missing file, truncated content or otherwise unreadable content (a permission error, a directory in place of the file) are not modelled.
- Fmt.DebugStr: the characters printed as `\u{..}` are the C0 and C1 control characters and DEL. `{:?}` of a text also escapes other non-printable characters (for example U+00A0) and every grapheme-extending character (for example U+0301), wherever it stands, decided by Unicode tables that are not modelled; for those the model prints the character itself.
- Structs.FromStr: inherits the escaping limits of `Fmt.DebugStr`.
- WfmClient.WFMClientState.Login: the in-place updates of `user.access_token` and `user.avatar` are modelled as updates of a record value.
- WfmClient.WFMClientState.CloseOrderByUrl: the in-place `append` of the sell list onto the buy list is modelled as sequence concatenation.
