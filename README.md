# tap-excel in Dafny

A model of the decision logic of `tap-excel`, a Singer tap that reads
spreadsheet workbooks and emits each sheet as a stream of records. The
model covers:

- column type inference (`ExcelStream._infer_column_type`): a first-match
  classifier from a pandas column to one of string, date-time, boolean,
  integer, number, date or time;
- schema assembly (`_get_schema`) and its cache (`schema`);
- record normalisation, both in the `get_records` loop and in
  `ExcelConnection.clean_record`;
- the choice of sheets (`discover_streams`, `validate_requested_sheets`);
- the configuration check of the chunk size, the engine chosen by file
  suffix, and the `sync` loop of `ExcelConnection`.

Files, one module each: `wrappers.dfy` (Option, Result, Outcome),
`values.dfy` (cell values, dtypes, columns, data frames, `str()` of a value),
`patterns.dfy` (the regular expressions as predicates), `inference.dfy`,
`normalize.dfy`, `tap_excel.dfy` (the `ExcelStream` class and discovery) and
`connection.dfy` (the `ExcelConnection` class).

Modelling choices:

- A data frame has no two columns of the same name (pandas renames
  duplicate headers), so a row dictionary has no key twice.
- `ExcelStream.__init__` ends with the base `Stream.__init__`, which reads
  `self.schema`. So every new stream has read its sheet's schema, once,
  and discovery reads every sheet it makes a stream for.
  The base constructor's `if not self.schema` test never fails here: the
  rendered schema always has its `type` and `properties` keys, even when no
  property was added (an empty sheet or a read error).
- pandas values are a tagged datatype `Value`: `Null` stands for None, NaT
  and pd.NA, and `NaN` for the float NaN (both are what `pd.isna` reports).
  A pd.Timestamp carries its `isoformat()` and `str()` texts, and the other
  temporal kinds carry their `str()` text. These renderings come from the
  datetime library and are not re-derived.
- A pandas dtype is a tag: `DatetimeDtype | BoolDtype | NumericDtype |
  OtherDtype`. `WellTyped` says that a column holds only values its dtype
  allows, which pandas guarantees.
- Python's `round(v, ndigits)` on floats is the function parameter
  `Rounding`.
- The workbook reader is a function parameter. `ExcelStream` gets the file
  name, the sheet, the engine and the read options. `ExcelConnection.Sync`
  gets the sheet and the chunk size and is given a reader that returns the
  sheet as a sequence of chunks; the `pd.read_excel` call of
  `read_sheet_chunks` does not provide one (see "Left out").
  The workbook's sheet names and whether the file exists are parameters too.
- `str.match` in the source uses Python `re.match`, which anchors only at
  the start of the string. So a format matches a value when the value starts
  with text of that shape (`MatchesPrefix`). The currency pattern is
  anchored at both ends. Python's `$` also accepts one final newline.
- `\d` is an ASCII digit, `\s` is ASCII white space, and `lower()` lowers
  ASCII letters. No non-ASCII character lowers to a letter of "true" or
  "false", so the boolean test is exact under this simplification.
- `str()` of a float is written out in positional notation. It gives
  Python's text for short decimals of moderate size. Every float text starts
  with a digit or `-`.
- `sync` walks a Python set, whose order is not specified. The model picks
  the next sheet nondeterministically. `Sync` returns the order it took as
  `synced`, which is the sequence of "Syncing sheet" log lines.
- `isinstance(x, int)` is true of a bool in Python. So a `chunk_size` of
  `true` is accepted (it counts as 1), and `false` is rejected (it counts as
  0).

Behaviour worth noting:

- A sampled value shaped `YYYY-MM-DD HH:MM:SS` makes the column a date
  column, not date-time. The plain date pattern comes first in the list and
  matches the start of that value, so the date-time entry can never be the
  first match (`FullTimestampTextIsDate`, `FirstFormatNeverDateTime`).
- Inference returns the type only. No nullability is computed, and the
  currency rule gives plain string.
- A boolean-looking text value is not turned into a boolean when the record
  is normalised. It passes through unchanged.
- Bookmarks, sheet grouping and replication-key errors are not part of this
  code, and the state that `sync` gets is returned unchanged.

## Model

| member | source | states |
|---|---|---|
| Values.RowOf | tap_excel/__init__.py:113-114 | a row dictionary has one entry per column, in column order, keyed by the column name and holding that column's cell |
| Inference.NonNull | tap_excel/__init__.py:25 | `dropna` keeps no missing value and never grows the column |
| Inference.NonNullKeeps | tap_excel/__init__.py:25 | `dropna` keeps every value that is present |
| Inference.NonNullSingle | tap_excel/__init__.py:25 | on one value, `dropna` keeps it exactly when it is present; with `NonNullAppend` this fixes `dropna` as the order-preserving filter |
| Inference.Sample | tap_excel/__init__.py:25 | the sample holds at most `sample_size` values and is exactly the first present values of the column, in order |
| Inference.InferColumnType | tap_excel/__init__.py:20-60 | the classifier itself, in the source's order of tests; specified by the lemmas below (all-NA, datetime dtype, boolean, numeric, first format, currency and default) |
| Inference.TextType | tap_excel/__init__.py:38-60 | the last steps on the sampled texts: first matching format, then the currency rule and the default, both string; specified by `FirstFormatNeverDateTime`, `FullTimestampTextIsDate` and `NoFormatIsString` |
| Inference.AllMissingIsString | tap_excel/__init__.py:22-23 | an empty or all-missing column is string whatever its dtype |
| Inference.DatetimeDtypeIsDateTime | tap_excel/__init__.py:27-28 | a datetime-dtype column with a value is date-time, decided before the boolean and numeric tests |
| Inference.BooleanIff | tap_excel/__init__.py:22-31 | a column is boolean exactly when it has a value, is not datetime-dtype, and is bool-dtype or has every sampled value reading "true"/"false" after lower-casing |
| Inference.NumericIntegerIff | tap_excel/__init__.py:30-36 | a numeric column with a value is integer exactly when every present value of the whole column is whole, otherwise number |
| Inference.FractionAnywhereIsNumber | tap_excel/__init__.py:33-36 | one fractional value anywhere in a numeric column, also beyond the sample, makes it number |
| Inference.NumbersOnlyFromNumericDtype | tap_excel/__init__.py:33-60 | integer and number come only from numeric-dtype columns; numeric-looking text never becomes a number |
| Inference.NumberNotBoolean | tap_excel/__init__.py:30 | the text of an int or float never reads as "true" or "false", so a numeric column always reaches the numeric test |
| Patterns.MatchesPrefix | tap_excel/__init__.py:50 | `str.match` of a format: the text starts with one character per token, a digit for `\d`; `PrefixOfPatternMatches` and `DateTimePatternImpliesDate` build on it |
| Patterns.CurrencyMatches | tap_excel/__init__.py:57 | the anchored currency pattern: one of £ $ € ¥, one optional white-space character, digits, an optional point, digits, and one optional final newline |
| Patterns.FirstFormat | tap_excel/__init__.py:49-55 | the result is the format of the first list entry that some sampled text prefix-matches, and none exactly when no entry matches |
| Patterns.DateTimePatternImpliesDate | tap_excel/__init__.py:40-46 | any text the date-time pattern matches is also matched by the date pattern, which is its prefix |
| Inference.FirstFormatNeverDateTime | tap_excel/__init__.py:39-55 | the first matching format is never date-time |
| Inference.DateTimeOnlyFromDatetimeDtype | tap_excel/__init__.py:27-55 | outside datetime-dtype columns the result is never date-time |
| Inference.FullTimestampTextIsDate | tap_excel/__init__.py:38-52 | one sampled "YYYY-MM-DD HH:MM:SS" value in an other-dtype column makes it date |
| Inference.NoFormatIsString | tap_excel/__init__.py:57-60 | with no format matching, the result is string whether or not the currency pattern matches |
| Inference.SampleIgnoresTail | tap_excel/__init__.py:25 | once `sample_size` present values are seen, appended values do not change the sample |
| Inference.NonNumericDecidedBySample | tap_excel/__init__.py:22-60 | for non-numeric dtypes two columns with the same sample get the same type |
| Inference.ValuesAfterSampleIgnored | tap_excel/__init__.py:25-31 | values after the sample never change the type of a non-numeric column |
| Normalize.NormalizeValue | tap_excel/__init__.py:116-121 | the value rule of `get_records`, in the source's branch order; specified by `NormalizeValueFixes` and `NormalizeRecordAt` |
| Normalize.CleanValue | connection.py:57-66 | the value rule of `clean_record`, in the source's branch order; specified by `CleanDiffersOnlyOnFloats`, `CleanPrecedence` and `CleanedAt` |
| Normalize.NormalizeRecordAt | tap_excel/__init__.py:114-121 | the normalised record keeps exactly the row's keys, in order, and applies the value rule to each value |
| Normalize.NormalizeValueFixes | tap_excel/__init__.py:116-121 | a normalised value is never NaN, a Timestamp, a Timedelta or a datetime; it equals its input exactly when the input is none of these (NaT and pd.NA count as None, `Null`); `datetime.date` and `datetime.time` cells pass through unchanged |
| Normalize.NormalizeRecordIdempotent | tap_excel/__init__.py:113-122 | normalising an already normalised record changes nothing |
| Normalize.CleanedAt | connection.py:55-67 | `clean_record` keeps exactly the input's keys, in order, and cleans each value |
| Normalize.CleanDiffersOnlyOnFloats | connection.py:57-66 | `clean_record` rounds a non-NaN float and otherwise treats values as `get_records` does |
| Normalize.CleanPrecedence | connection.py:57-62 | a NaN becomes None and is never rounded; a Timestamp becomes its isoformat text, not its `str` |
| TapExcel.Suffix | tap_excel/__init__.py:67-70 | `Path.suffix`: empty, or a final part of the name of at least two characters that starts with its only '.' and is shorter than the name |
| TapExcel.EngineFor | tap_excel/__init__.py:67-72 | the engine chosen by suffix; specified by `EngineChoice` |
| TapExcel.SuffixIs | tap_excel/__init__.py:67-72 | `Path.suffix` equals an extension exactly when the name ends with it and has something before it |
| TapExcel.EngineChoice | tap_excel/__init__.py:67-72 | xlrd exactly for names ending in ".xls", odf exactly for ".ods", the default engine otherwise |
| TapExcel.SchemaForShape | tap_excel/__init__.py:64-83 | the schema has one property per column, in column order, typed by inference with sample size 100; a failed read gives the empty schema |
| TapExcel.ExcelStream.constructor | tap_excel/__init__.py:14-18 | a new stream knows its sheet and file, and the base constructor's access to `schema` has computed and cached that sheet's schema exactly once |
| TapExcel.ExcelStream.GetSchema | tap_excel/__init__.py:62-83 | reads the sheet with the engine of its suffix and returns the schema of the read |
| TapExcel.ExcelStream.CachedSchema | tap_excel/__init__.py:85-90 | the first access computes the schema and caches it; later accesses return the cached schema and compute nothing |
| TapExcel.SchemaReadOnce | tap_excel/__init__.py:14-18 | after construction, two accesses to `schema` give the schema read while the stream was built, even if the workbook reads differently later |
| TapExcel.ExcelStream.GetRecords | tap_excel/__init__.py:92-122 | a failed read yields nothing; otherwise each row is rewritten in place by the value rule and yielded in row order |
| TapExcel.NormalizeInPlace | tap_excel/__init__.py:115-121 | rewriting a row dictionary key by key in place gives `NormalizeRecord` of the row: the same keys in order, each value by the value rule |
| TapExcel.RecordsForShape | tap_excel/__init__.py:109-122 | one record per row keyed by the column names in order, each cell normalised; none after a failed read |
| TapExcel.DiscoverStreamObjects | tap_excel/__init__.py:152-168 | one fresh stream per sheet to process, in order, no two the same object (a sheet requested twice gets two streams), each holding its sheet's schema computed once |
| TapExcel.KeepAvailable | tap_excel/__init__.py:158 | the list comprehension keeps only requested names that are available and never grows the list; `DiscoverConfigured` fixes it by order and count |
| TapExcel.DiscoverStreams | tap_excel/__init__.py:152-163 | every sheet chosen is an available sheet, and a warning needs a configured `sheets`; `DiscoverUnconfigured` and `DiscoverConfigured` specify both branches |
| TapExcel.DiscoverUnconfigured | tap_excel/__init__.py:157-163 | with no sheets configured every available sheet is processed in workbook order, without a warning |
| TapExcel.DiscoverConfigured | tap_excel/__init__.py:157-161 | with sheets configured, the available requested names in request order with duplicates kept; a warning exactly when some requested name is missing |
| Connection.ChunkSizeValid | connection.py:19 | the test `isinstance(chunk_size, int) and chunk_size > 0`, with `True` accepted as 1; specified by `ChunkSizeRule` |
| Connection.ChunkSizeRule | connection.py:18-20 | the chunk size defaults to 1000 and is rejected exactly when it is not an int (bools count) or not positive |
| Connection.ExcelConnection.constructor | connection.py:8-10 | the connection keeps its configuration |
| Connection.ExcelConnection.ValidateConfig | connection.py:13-20 | a missing file fails first; otherwise the chunk size is set from the configuration and the check fails exactly when it is invalid |
| Connection.ValidateRequestedSheets | connection.py:27-40 | the chosen sheets are always available sheets |
| Connection.ValidateRequestedSheetsSpec | connection.py:31-40 | nothing requested chooses every sheet; else exactly the requested available ones, warning exactly when a requested sheet is missing |
| Connection.SelectionsAgree | connection.py:27-40 | the connection chooses the set of sheets that discovery lists, and both warn in the same cases |
| Connection.ExcelConnection.CleanRecord | connection.py:53-67 | builds the cleaned dictionary of the record with the given precision (2 by default) |
| Connection.ExcelConnection.Sync | connection.py:69-83 | on a connection whose chunk size passed validation, returns the given state (or an empty one), syncs each chosen sheet once, and writes each sheet's rows cleaned with the configured precision (2 by default) |
| Connection.ExcelConnection.SyncSheet | connection.py:78-81 | writes the rows of all chunks of a sheet, cleaned, in order |
| Connection.ExcelConnection.SyncChunk | connection.py:79-81 | writes each row of a chunk, cleaned, in row order |
| Connection.SheetOutputAppend | connection.py:78-81 | how a sheet's rows are split into chunks does not change what is written |
| Connection.SheetOutputAt | connection.py:79-81 | the k-th record written for a sheet is its k-th row, cleaned |
| Connection.ConcatStream | connection.py:75-81 | when each sheet writes only to its own stream, a stream of the sheet-after-sheet output is exactly what its sheet wrote (nothing if the sheet is not synced), given distinct sheet names |
| Connection.EveryRowOnce | connection.py:75-81 | the records of a stream are exactly its sheet's rows, cleaned and in order, and an unsynced sheet gets none |

## Left out

- Reading workbooks is I/O. `pd.read_excel`, `pd.ExcelFile`, chunked reading and the file-existence checks become parameters (the readers, the sheet names, `fileExists`).
- Connection.ExcelConnection.Sync: describes the loop with a working chunked reader. The code as written does not have one: `pd.read_excel` takes no `chunksize` argument and returns one data frame, not chunks, so `read_sheet_chunks` raises and the program's `sync` stops after the first "Syncing sheet" log line without writing a record. Any read error that propagates as an exception is not modelled either.
- Values.RowOf: keeps each cell as its column holds it. `iterrows` gives a row as one Series with the frame's common dtype, so in a frame whose columns are all numeric, one of them float, an int cell comes out as a float (1 becomes 1.0). The model does not capture that upcast in `get_records`, `clean_record` or `sync`.
- `_get_sheet_names` re-raises its read error, and `ExcelTap.__init__` checks that the file exists. Discovery takes the sheet names as given.
- Logging and `singer.write_record` appear as a returned warning flag, the sequence of emitted records, and the `synced` order. The texts of the log messages are not modelled.
- `round(v, p)` is a parameter, because float rounding is floating-point arithmetic. That floats are binary (so `round(2.675, 2)` is 2.67) is not modelled.
- `isoformat()` and `str()` of temporal values are library formatting. Each value carries its rendered text.
- `str()` of a float is not modelled for the exponent form, infinities or -0.0. None of these looks boolean or matches any pattern.
- The pandas dtype tests are replaced by the dtype tag.
- Rendering a schema with `singer_sdk` (`th.*Type`, `PropertiesList.to_dict()`) is left out. The cache holds the properties list.
- `ExcelConnection.__init__` is the constructor followed by `ValidateConfig`. The exception it raises is the `Fail` outcome.
- Column names are taken to be strings. pandas keeps a numeric or date header cell as an int or Timestamp column label, and the schema's property names and the row dictionaries' keys then carry that label as it is.
- The `float_precision` configuration entry is taken to be an int.
- The `sheets` configuration entry is a list of sheet names. Entries of another kind (such as `{name: ...}` objects) would make `set(...)` raise TypeError in `validate_requested_sheets` and `discover_streams`; this is not modelled.
- The CLI entry points and `setup.py` are packaging.
- Incremental bookmarks, sheet grouping, nullability and replication-key errors are not in the code, so they are not modelled.
