# GDPR obfuscator core, modelled in Dafny

The GDPR obfuscator is an AWS Lambda handler. It takes a storage path `s3://bucket/key...`
and a list of PII column names. It fetches the object, decodes its body as UTF-8 and
passes it through `json.loads`. The decoder then reads a `str` as CSV or JSON and a
`bytes` value as parquet. It overwrites every cell of the named columns with a sentinel
and re-serialises the table in the format it found. Because the fetched value comes out
of `json.loads`, it is never `bytes`, so through the handler only CSV and JSON are
reachable (see `Handler.FetchedValueNeverParquet`).

This project models that core:

- `paths.dfy` (module `Paths`): `get_bucket_and_key_strings`, Python's `str.split("/")`
  it relies on, and `get_file_from_bucket` of `main/GDPRObfuscator.py`, which uses the
  parsed bucket and key. The path splitter is written identically in both source files;
  the one method `Paths.GetBucketAndKeyStrings` and the lemmas about `Paths.SplitLocation`
  serve both.
- `frames.dfy` (module `Frames`): the table (`Frame`, restricted to the well-formed
  `Table`: distinct column names, one cell per row in every column), the mutable pandas
  `DataFrame` as a class, `df.copy()`, the in-place `df[fields] = v`, and
  `produce_obfuscated_data`.
- `formats.dfy` (module `Formats`): format detection (`convert_string_to_df`) and
  re-encoding (`convert_df_to_formatted_string`). The pandas and json calls are the fields
  of the record `Pandas`, so every property holds whatever those libraries do.
- `handler.dfy` (module `Handler`): `lambda_handler`, which parses the path, fetches the
  object, then decodes, masks and encodes it, handing the decoder's tag to the encoder.
- `values.dfy`, `wrappers.dfy`: Python exceptions, `bytes`, the `str`/`bytes`/other input
  value, and `Option`/`Result`.

Python exceptions are `Result.Failure` values carrying the exception class and message
(`TypeError`, `IndexError`, or `Raised` for any library exception). The sentinel is the
code's literal: the five characters `'***'`, quotes included.

## Model

| member | source | states |
|---|---|---|
| `Paths.Split` | src/GDPRObfuscator_handler.py:101 | Python's `split("/")` always yields at least one segment; its lemmas below give the rest |
| `Paths.SplitSegmentsHaveNoSeparator` | src/GDPRObfuscator_handler.py:101 | no segment produced by `split("/")` contains `/` |
| `Paths.JoinSplit` | src/GDPRObfuscator_handler.py:101 | joining the segments of `split("/")` with `/` gives back the path |
| `Paths.SplitLength` | src/GDPRObfuscator_handler.py:101 | a split has exactly one more segment than the path has `/` characters |
| `Paths.SplitLocation` | src/GDPRObfuscator_handler.py:100-106 | the parse fails (`IndexError`) exactly when the path has fewer than two `/`; the bucket holds no `/`; the key is empty or starts with `/` |
| `Paths.GetBucketAndKeyStrings` | src/GDPRObfuscator_handler.py:100-106 | the loop that accumulates the key yields the bucket (segment 2) and the `"/"`-prefixed later segments; fewer than three segments raise `IndexError` and only then |
| `Paths.KeyOfSingleSegmentPath` | src/GDPRObfuscator_handler.py:103-105 | for `scheme://bucket/file` the key is `"/" + file`, leading separator included |
| `Paths.BucketIsThirdSegment` | main/GDPRObfuscator.py:57-58 | the bucket is segment index 2 of the split path and contains no `/` |
| `Paths.KeyShape` | main/GDPRObfuscator.py:59-61 | the key is empty exactly when the path has three segments, and otherwise starts with `/` |
| `Paths.KeySeparatorCount` | main/GDPRObfuscator.py:60-61 | the key holds exactly one `/` per segment after the bucket |
| `Paths.Reconstruct` | main/GDPRObfuscator.py:56-62 | segments 0..2 joined with `/`, followed by the key, equal the input path |
| `Paths.GetFileFromBucket` | main/GDPRObfuscator.py:47-50 | the object store is asked for exactly the parsed bucket and key; a path with fewer than three segments fails with `IndexError` before any fetch |
| `Frames.Covers` | src/GDPRObfuscator_handler.py:160 | `set(fields).issubset(set(columns))` (also lines 164 and 178) holds exactly when every field is the name of some column |
| `Frames.Assign` | src/GDPRObfuscator_handler.py:111 | `df[fields] = v` keeps row count, column count, names and order; every cell of a listed column is `v`; every unlisted column is unchanged |
| `Frames.Mask` | src/GDPRObfuscator_handler.py:109-112 | the masked table keeps row count, column names and order; every cell of a listed column is `'***'`; unlisted columns are unchanged |
| `Frames.MaskKeepsNames` | src/GDPRObfuscator_handler.py:109-112 | masking keeps the set of column names, so the masked table still has every requested field |
| `Frames.MaskIdempotent` | src/GDPRObfuscator_handler.py:111 | masking a masked table with the same fields gives the same table |
| `Frames.MaskTwice` | src/GDPRObfuscator_handler.py:111 | masking with one field list and then another equals masking once with both lists |
| `Frames.DataFrame.Copy` | src/GDPRObfuscator_handler.py:110 | `df.copy()` is a fresh object holding the same table |
| `Frames.DataFrame.AssignColumns` | src/GDPRObfuscator_handler.py:111 | the in-place column assignment leaves the frame holding `Assign` of its old table |
| `Frames.ProduceObfuscatedData` | src/GDPRObfuscator_handler.py:109-112 | the result is a fresh frame holding the masked table, and the input frame is unchanged |
| `Formats.ConvertStringToDf` | src/GDPRObfuscator_handler.py:138-189 | on success the requested fields are a subset of the columns and the tag is csv or json for text and parquet for bytes; any other input raises `TypeError` |
| `Formats.CsvWins` | src/GDPRObfuscator_handler.py:156-161 | text whose CSV reading covers the fields is returned as that table, tagged "csv" |
| `Formats.CsvErrorPropagates` | src/GDPRObfuscator_handler.py:158-173 | an exception from the CSV reader is the result; JSON is not tried |
| `Formats.JsonOnlyAfterIncompleteCsv` | src/GDPRObfuscator_handler.py:160-165 | unless the CSV reading succeeded and lacks a field, the JSON reader has no influence on the result |
| `Formats.JsonFallback` | src/GDPRObfuscator_handler.py:162-169 | after an incomplete CSV reading: a JSON exception propagates, a covering JSON table is returned tagged "json", otherwise `TypeError` |
| `Formats.BytesOnlyParquet` | src/GDPRObfuscator_handler.py:174-185 | bytes depend on the parquet reader alone; a covering parquet table is returned tagged "parquet", otherwise `TypeError` |
| `Formats.ConvertDfToFormattedString` | src/GDPRObfuscator_handler.py:192-220 | `None` exactly for a tag other than csv/json/parquet; csv and json give text, parquet gives bytes |
| `Formats.EncoderUsesTaggedSerialiser` | src/GDPRObfuscator_handler.py:206-220 | each known tag uses its own serialiser; that serialiser's exception, and only that, makes the call raise |
| `Formats.CsvRoundTrip` | src/GDPRObfuscator_handler.py:206-210 | when the CSV writer and reader invert each other, encoding then decoding gives back the table tagged "csv" |
| `Formats.ParquetRoundTrip` | src/GDPRObfuscator_handler.py:216-220 | when the parquet writer and reader invert each other, encoding then decoding gives back the table tagged "parquet" |
| `Formats.JsonRoundTrip` | src/GDPRObfuscator_handler.py:211-215 | JSON output decodes back to the table tagged "json" exactly when the CSV reader accepts the JSON text without finding every field |
| `Handler.Obfuscate` | src/GDPRObfuscator_handler.py:19-23 | a decoding exception is the result; a success is never `None` and is bytes exactly when the input was bytes |
| `Handler.LambdaHandler` | src/GDPRObfuscator_handler.py:13-23 | the handler fetches the parsed bucket and key, then decodes, masks and encodes; a failure at any stage is its result; a success is text, never `None` |
| `Handler.FetchedValueNeverParquet` | src/GDPRObfuscator_handler.py:19 | a value from `json.loads` never reaches the parquet reader or writer; success is text; a non-`str` value raises `TypeError` |
| `Handler.ObfuscateKeepsFormat` | src/GDPRObfuscator_handler.py:19-23 | the encoder receives the masked table and exactly the decoder's tag, so text comes back as text and bytes as bytes |
| `Handler.ObfuscateStopsOnDecodeError` | src/GDPRObfuscator_handler.py:19 | a decoding exception is the handler's result and nothing is encoded |
| `Handler.OutputDecodesToMaskedTable` | src/GDPRObfuscator_handler.py:19-23 | when the found format's writer and reader invert each other, decoding the output gives the masked table in the same format, with every requested cell equal to the sentinel |

## Code and tests disagree

The model follows the code in each case.

- The key keeps a leading `/` (src/GDPRObfuscator_handler.py:105, main/GDPRObfuscator.py:61).
  The test at test/test_GDPRObfuscator.py:54-63 expects `"new_data/file1.csv"`.
  `Paths.KeyOfSingleSegmentPath` shows the code returns `"/some_file.csv"` for the test's
  `s3://some_bucket/some_file.csv`.
- The sentinel written by src/GDPRObfuscator_handler.py:111 is `'***'` with its quotes.
  The tests at test/test_GDPRObfuscator.py:91 and test/test_GDPRObfuscator_integration.py:67
  expect a bare `***`.
- The tests call `convert_bytestream_to_df` and `convert_df_to_formatted_bytestream`, which
  the handler does not define. Only the format tags "csv", "json" and "parquet" are taken
  from them.
- The integration tests at test/test_GDPRObfuscator_integration.py:51-103 store raw CSV
  and JSON objects and expect obfuscated output. In the code, `get_file_from_bucket`
  (src/GDPRObfuscator_handler.py:94-97) passes the body through `json.loads`. A raw CSV body
  raises inside `json.loads`. A JSON object becomes a dict, which
  `convert_string_to_df` rejects with `TypeError` (src/GDPRObfuscator_handler.py:187).

## Notes on the code

- The reader is chosen by Python type: `str` is read as CSV, then JSON; `bytes` is read as
  parquet only (src/GDPRObfuscator_handler.py:156-187).
- Both copies of `get_file_from_bucket` decode the body as UTF-8 and call `json.loads`
  (src/GDPRObfuscator_handler.py:96, main/GDPRObfuscator.py:52). A decoding error there
  raises before the decoder runs.
- Masking never checks that the fields are columns (src/GDPRObfuscator_handler.py:109-112).
- An unknown format tag makes the encoder return `None`
  (src/GDPRObfuscator_handler.py:192-220).

## Left out

- The S3 client (`init_s3_client`, `create_bucket`) and the fetch itself are not modelled.
  `get_file_from_bucket` is a function parameter (`getObject`) that covers `client.get_object`,
  reading the body, UTF-8 decoding and `json.loads`. Its result type `JsonLoaded` holds
  only what `json.loads` can return: a `str` or another non-`bytes` value. A body that is
  not valid UTF-8 or not valid JSON is an exception `getObject` may return.
- `lambda_event`, the `Obfuscator` entry of main/GDPRObfuscator.py, src/demonstration.py
  and setupTestData/createData.py are not modelled. They invoke Lambda over the network,
  read a fixed local file, create buckets, sleep and print.
- `Handler.LambdaHandler`: the event dictionary and its two lookups (lines 9-11) are replaced by the
  path and field parameters. The `print(event)` is dropped.
- The pandas and json library calls (`read_csv`, `DataFrame.from_dict(json.loads(...))`,
  `read_parquet`, `to_csv`, `json.dumps(df.to_dict())`, `to_parquet`) are not re-implemented.
  They are opaque functions, so type inference, the index column that `to_csv()` emits, and
  the binary formats are outside the model. The round-trip lemmas take "writer and reader
  invert each other" as a hypothesis for that reason.
- `Frames.Mask`, `Frames.Assign`, `Frames.DataFrame.AssignColumns` and
  `Frames.ProduceObfuscatedData` require every field to be a column.
  pandas would add a missing column instead. The decoder guarantees the requirement, and
  the code raises no error for unknown fields.
- Cells are text, numbers (`real`) or missing. pandas dtypes, integer widths and float
  precision are not modelled.
- The duplicate column names pandas can produce are excluded by the `Table` type.
