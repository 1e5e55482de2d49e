# airlytic-api `/latest`: a Dafny model

The service answers `GET /latest` with recent air-quality readings taken from
InfluxDB. Its handler, `get_aqi_data` in `app.py`, does two things:

1. It builds a Flux query from a fixed template. The configured bucket name and
   range start are spliced into the template verbatim. The pipeline then filters
   on measurement `"data"`, keeps the `Latitude`, `Longitude` and `AQI` fields,
   pivots on `_time` and keeps the first 100 rows of each result table.
2. It flattens the store's answer, a sequence of tables of records, into one
   `{latitude, longitude, AQI}` object per record, tables in order and records in
   order. A column the record lacks becomes `None`.

The model has five modules:

- `Wrappers` (wrappers.dfy) holds `Option` and `Result`.
- `Text` (text.dfy) holds generic facts about joined and spliced strings. It also
  holds `Unsplice`, the generic reader used to recover the spliced values.
- `FluxQuery` (query.dfy) is the query template. `BuildQuery` is the f-string.
  The lemmas state what the text embeds and in which order its stages come. They
  also give a partial inverse, `ParseQuery`, and show that splicing without
  escaping can make two configurations produce the same query.
- `Flattener` (flatten.dfy) has the pure specification `Flatten` and the loop
  `FlattenResult`. The loop is proved equal to `Flatten`. The lemmas about
  `Flatten` give its length, the position of every record's entry, its
  per-field lookup and when it is empty.
- `Handler` (handler.dfy) wires the two together around the store call. The
  store call is a function parameter.

The source file uses CRLF line endings. Python turns them into `\n` inside the
triple-quoted query, so the model's query text uses `\n`.

Store failures are not caught. One might expect a failed store query to become
a `500` response with a JSON error body. The code has no `try` around the query
call at app.py:30, so the client's exception leaves the handler unchanged and
the framework's default error response applies. The model follows the code:
`GetAqiData` hands the store's error back as it is, and the flattener never
runs on that path.

## Model

| member | source | states |
|---|---|---|
| `FluxQuery.BuildQuery` | app.py:21-28 | No ensures of its own: the literal parts of the template with the bucket name and range start spliced between them; its properties are stated by the rows from `QueryEmbedsVerbatim` to `BucketCanCarryRange` |
| `FluxQuery.QueryEmbedsVerbatim` | app.py:21-28 | The bucket name and the range start appear in the query unchanged, between the fixed literal parts of the template; nothing is quoted or escaped |
| `FluxQuery.QueryIsPipeline` | app.py:21-28 | The query is the six stages from, range, measurement filter, field filter, pivot and limit, one per line, chained with the pipe-forward operator |
| `FluxQuery.QueryStagesInOrder` | app.py:22-28 | Each stage sits at its own offset, followed by the pipe-forward operator and the next stage; `limit(n: 100)` is the last stage and only whitespace follows it |
| `FluxQuery.FieldFilterIsDisjunction` | app.py:25 | The field filter is the three tests `r._field == "Latitude"`, `"Longitude"`, `"AQI"` joined by `or` |
| `FluxQuery.ParseBuildQuery` | app.py:22-23 | A query built from a bucket name without `"` reads back as exactly the bucket and range start it was built from |
| `FluxQuery.BuildParsedQuery` | app.py:22-23 | Every text that reads back as (bucket, range start) is the query built from them, and that bucket has no `"`; with the previous row this is an if-and-only-if |
| `FluxQuery.BucketCanCarryRange` | app.py:22-23 | Because nothing is escaped, a bucket name that contains the range clause yields the same query as a different (bucket, range start) pair |
| `Flattener.Get` | app.py:37-39 | `values.get(key)`: `Some` of the stored value exactly when the key is present, `None` otherwise |
| `Flattener.ToAqiRecord` | app.py:36-40 | Each of `latitude`, `longitude`, `AQI` holds the record's `Latitude`, `Longitude`, `AQI` value when that column is present and `None` otherwise; a record with none of them still yields an all-`None` entry |
| `Flattener.ToJsonObject` | app.py:36-40 | The emitted object has exactly the keys `latitude`, `longitude`, `AQI`, whatever other columns (such as `_time`) the record had |
| `Flattener.MapRecords` | app.py:35-41 | One entry per record of a table, entry i built from record i |
| `Flattener.Flatten` | app.py:33-41 | No ensures of its own: the per-table entry sequences concatenated in table order; its properties are stated by the rows from `FlattenIsMapOfAllRecords` to `FlattenResult` |
| `Flattener.FlattenIsMapOfAllRecords` | app.py:33-41 | Entry k of the output is built from the k-th record of the tables taken in order; the output is the per-record mapping of all records, with nothing dropped, reordered or merged |
| `Flattener.FlattenLength` | app.py:33-41 | The output has exactly as many entries as there are records summed over all tables |
| `Flattener.FlattenAppend` | app.py:34-41 | Flattening tables `a + b` is flattening `a` followed by flattening `b` |
| `Flattener.FlattenSplit` | app.py:34-41 | The output is the entries of the tables before table i, then table i's entries in record order, then the entries of the tables after it |
| `Flattener.FlattenAt` | app.py:34-35 | Record j of table i becomes the entry at position (records in tables before i) + j |
| `Flattener.FlattenEmpty` | app.py:33-35 | The output is empty if and only if every table is empty, which includes the case of no tables |
| `Flattener.FlattenResult` | app.py:33-41 | The nested loop that appends one entry per record returns exactly `Flatten` of the store result |
| `Handler.GetAqiData` | app.py:20-43 | The handler sends `BuildQuery(bucket, range start)` to the store under the configured organisation; a store failure is passed through untouched, and a success becomes `Flatten` of the tables |
| `Handler.ResponseObjectsHaveThreeKeys` | app.py:36-43 | Every entry of a successful response is serialised as an object with exactly the keys `latitude`, `longitude`, `AQI` |
| `Handler.DefaultQuery` | app.py:11-13 | With the default configuration the query reads back as bucket `airlytic` and range start `0` |

## Left out

- Flask app creation, the route decorator, `jsonify` and `app.run` (app.py:1, 6, 19, 43, 45-46) are framework plumbing. JSON encoding is modelled only as the key set of `ToJsonObject`; how `None` is printed as `null` is not modelled.
- Reading the configuration from the environment (app.py:9-13) is replaced by the `Config` parameter. Only the default values are kept, as `Handler.DefaultConfig`.
- The InfluxDB client and the network call (app.py:16-17, 30) are replaced by a function parameter. It returns the tables or the error the client raised.
- What Flux does with the query (filtering, pivoting, the 100-row limit, which applies to each output table, so an answer with several tagged series can hold more than 100 rows) is not modelled. The query is modelled as text. The flattener itself passes every record through and enforces no row cap, like the source.
- `Flattener.ToAqiRecord`: a record that has a column holding Python `None` gives `Some` of that value in the model. `values.get` returns `None` in that case too. After a pivot this is the usual form of a missing field. Both forms are printed as `null`, so the model's `Some(null)` and `None` differ only before JSON encoding.
- Field values are kept as an opaque type `V`. Their numeric meaning is not modelled.
- Flattening twice gives the same output because Dafny functions are deterministic, so no separate lemma states it.
