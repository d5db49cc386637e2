# neo-project core in Dafny

A model of the data-handling core of the near-Earth-object explorer:

- **Validation** (`validation.dfy`): the validators for query criteria. An optional
  start/end date, three optional numeric ranges (distance, velocity, diameter) and an
  optional positive result limit. Each validator accepts or raises one `ValidationError`.
  `validate_query_arguments` runs them in a fixed order and stops at the first raise.
- **Models** (`models.dfy`): the two entities. A `NearEarthObject` has a designation,
  an optional name, an optional diameter, a hazard flag and its approaches. A
  `CloseApproach` has a designation, an optional time, a distance, a velocity and an
  optional linked NEO. Also modelled: the constructors' normalisation of loose inputs,
  `fullname`, `time_str`, the name chosen by `CloseApproach.__str__`, and `serialize`.
- **Write** (`write.dfy`): `write_to_csv`, `write_to_json` and `write_to_json_streaming`
  as loop methods. Each builds its output in an accumulator, the way the source writes
  to a file handle. Each is proved equal to a declarative description of the file it
  leaves, including the exception that ends an export early.
- **Extract** (`extract.dfy`): `load_neos` and `load_approaches` as loop methods. They
  turn already-parsed CSV rows and JSON `fields`/`data` arrays into entities.
- **Python** (`python.dfy`): the small part of Python the core leans on. It holds
  `Option`, exceptions, loose scalar values, truthiness and `str.strip()` emptiness.
  It also holds a `Runtime` record for the conversions whose text formats are not
  modelled: `float(text)`, `str(number)`, `cd_to_datetime` and `datetime_to_str`.

What one item turns into during export is a parameter of the writers, and it may
raise. For CSV that is `serialize()`; for JSON it is `serialize()` followed by
`json.dump`. Which exceptions a writer catches decides whether the item is skipped or
ends the export.

A malformed row is not skipped: `load_neos` and `load_approaches` have no `try`, so
the first row that raises ends the load with its exception (`LoadNeos`,
`LoadApproaches`).

## Model

| member | source | states |
|---|---|---|
| Python.PyStr | models.py:49 | `str(v)`: a string is itself and None is "None" |
| Python.PyFloat | models.py:52 | `float(v)`: a number is itself, None is a TypeError, text is a ValueError exactly when it does not parse |
| Validation.ValidateDateRange | validation.py:19-32 | raises exactly when both dates are given and the start is after the end, reporting both dates; equal dates pass |
| Validation.ValidateDistanceRange | validation.py:35-56 | passes exactly when a bound is missing or 0 <= min <= max; min > max is reported before a negative min; never reports a negative max |
| Validation.ValidateVelocityRange | validation.py:59-80 | the same contract for velocity |
| Validation.ValidateDiameterRange | validation.py:83-104 | the same contract for diameter |
| Validation.ValidateLimit | validation.py:107-117 | passes exactly when the limit is absent or positive, otherwise reports it |
| Validation.RangeValidatorsAgree | validation.py:35-104 | the velocity and diameter validators decide exactly as the distance validator does, differing only in the quantity named |
| Validation.MaxNegativeUnreachable | validation.py:48-56 | once min > max and min < 0 have been found false, max < 0 is false too, so for bounds that are not NaN the "maximum cannot be negative" branch is never taken (the validators' contracts state it as never reporting NegativeMax) |
| Validation.ValidateQueryArguments | validation.py:182-204 | passes exactly when all five validators pass; otherwise reports the error of the first one that fails |
| Validation.DateErrorReportedFirst | validation.py:191-192 | a bad date range is reported whatever else is wrong |
| Validation.LimitErrorReportedLast | validation.py:203-204 | a limit error is reported only when the dates and all three ranges are acceptable |
| Models.NormalizeDesignation | models.py:49 | a falsy designation becomes "", a string is kept |
| Models.NormalizeName | models.py:50 | a falsy or blank name becomes absent, any other string is kept; a truthy non-string raises AttributeError; a kept name is never blank |
| Models.NormalizeDiameter | models.py:51-53 | a falsy or blank diameter becomes unknown; other text is parsed and fails with ValueError exactly when it does not parse; True is 1.0 |
| Models.NormalizeMeasure | models.py:125-126 | a falsy distance or velocity is 0.0; a number is kept; text is parsed or raises ValueError |
| Models.NewNearEarthObject | models.py:37-57 | succeeds exactly when name and diameter normalise; the fields are the normalised inputs; the name is never blank; no approaches yet |
| Models.NewCloseApproach | models.py:113-129 | succeeds exactly when distance and velocity normalise; no time exactly when the time is falsy; no linked NEO yet |
| Models.Fullname | models.py:59-68 | begins with the designation; equals it exactly when there is no name; otherwise adds " (name)" |
| Models.TimeStr | models.py:131-147 | "" when there is no time, otherwise the formatted time |
| Models.DisplayName | models.py:155 | an unlinked approach shows its designation, a linked one its NEO's full name |
| Models.SerializeNeo | models.py:83-96 | keeps designation, diameter and hazard flag; the name is "" exactly when there is none |
| Models.SerializeApproach | models.py:158-176 | writes time_str, distance and velocity; a linked NEO's record, or a placeholder with the approach's designation |
| Models.NewApproachShowsDesignation | models.py:155-176 | a freshly constructed approach is shown and exported under its own designation |
| Models.NeoSurvivesReexport | models.py:37-96 | an NEO rebuilt from its exported record is the same NEO, unless its diameter is zero |
| Models.ApproachSurvivesReexport | models.py:113-176 | a property of the model, not a promise of the program (nothing reads exported records back): an unlinked approach rebuilt from its exported record is the same approach when the two date helpers are inverse |
| Write.Flatten | write.py:56-64 | the CSV row has one cell per header column and reads back as the serialized record |
| Write.CsvStop | write.py:52-68 | the number of items before the first one whose exception is not caught |
| Write.WriteCsv | write.py:22-68 | writes the header, then one row per item that serialized, up to the first uncaught exception, which it reports |
| Write.SkippedItemLeavesNoRow | write.py:66-68 | an item that raises AttributeError or KeyError leaves no row and does not affect later rows |
| Write.RowsAppend | write.py:52-68 | the rows of two item streams in sequence are the rows of each in sequence |
| Write.OneRowPerItem | write.py:52-65 | when every item serializes there is exactly one row per item, in order |
| Write.EveryApproachIsWritten | write.py:52-65 | exporting close approaches never stops early and row i reads back as approach i's record |
| Write.JsonStop | write.py:94-104 | the number of items before the first one whose exception is not caught |
| Write.WriteJson | write.py:73-107 | the file is "[\n", then each item reached joined by ",\n", then "\n]" unless an uncaught exception ends it, which it reports |
| Write.WriteJsonStreaming | write.py:112-146 | the same file as `write_to_json`, with one flush per item that dumped |
| Write.EmptyExport | write.py:91-107 | no items give "[\n\n]" |
| Write.EveryItemGetsASlot | write.py:91-107 | with no uncaught exception, every item, skipped ones included, takes one slot between separators |
| Write.AllDumpedFraming | write.py:91-107 | when every item dumps, the elements are the dumped texts in order |
| Write.SkippedFirstItemBreaksArray | write.py:96-101 | a skipped first item followed by an object gives "[\n,\n{}\n]", with a separator right after the bracket |
| Write.WriteJsonFixed | write.py:91-107 | the corrected writer: separators go only between items that dumped |
| Write.FixedExportIsArray | write.py:91-107 | the corrected file's elements are exactly the dumped texts, and no separator follows the opening bracket |
| Write.FixedSkipsCleanly | write.py:91-107 | on the same two items the corrected writer gives "[\n{}\n]" |
| Extract.NeoFromRow | extract.py:38-49 | a missing column is a KeyError; a blank name or diameter becomes absent; the hazard flag is set exactly by "Y"; fails only when a diameter does not parse |
| Extract.LoadNeos | extract.py:22-52 | one NEO per row, in row order, when every row loads; otherwise the error of the first row that fails |
| Extract.IndexOf | extract.py:74-77 | the position of the first occurrence, and absent exactly when the name is not listed |
| Extract.FindColumns | extract.py:74-77 | succeeds exactly when all four field names are listed, and uses their first positions; otherwise ValueError |
| Extract.ApproachFromRow | extract.py:81-89 | a row too short for a position is an IndexError; otherwise the approach is built from the values at the four positions |
| Extract.LoadApproaches | extract.py:55-92 | a missing field name is a ValueError even with no rows; otherwise one approach per row, in order, or the error of the first row that fails |
| Extract.RepeatedFieldUsesFirst | extract.py:74-77 | for every field list, a needed name listed at positions i < j is read from a position no later than i, never from j |

## Left out

- File and OS I/O is not modelled: `open`, the file handle, `csv.DictWriter` quoting, the layout `json.dump` chooses, and the `OSError` re-raise. The writers return the text or rows instead of writing them.
- `float(text)`, `str(number)`, `cd_to_datetime` and `datetime_to_str` are parameters (the `Runtime` record), because their text formats are not part of this model. `cd_to_datetime` is taken as total.
- NaN and infinite floats are not values of the model. An unknown diameter is `None` instead of `float("nan")`, and the export writes it as a distinct "not a number" cell.
- The message text of each `ValidationError` is not modelled; the error carries the values it reports.
- `validate_file_path`, `validate_output_file_path`, `validate_inspect_arguments`, `handle_validation_error` and the file checks at the end of `validate_query_arguments` are left out, because they are file-system checks and process exit.
- `NearEarthObject.__str__` and the number formatting in `CloseApproach.__str__` are left out; only the name that `CloseApproach.__str__` chooses is modelled, as `DisplayName`.
- The query engine and the linking of approaches to NEOs live outside these files and are not part of this model.
- `csv.DictReader` gives None for the cells of a short row, and `.strip()` on None would raise AttributeError. Rows are modelled as complete maps from column name to text.
- A JSON file without "fields" or "data" keys (a KeyError before any lookup) and JSON values that are not lists are not modelled; the loader takes the two arrays.
- Validation.MaxNegativeUnreachable: holds only because NaN is not a value of the model; in Python a NaN minimum makes `min > max` and `min < 0` both false, so a NaN minimum passes the range checks and, with a negative maximum, reaches the "maximum cannot be negative" branch (validation.py:55-56, 79-80, 103-104).
- Write.WriteJsonStreaming: `file.flush()` is modelled as a counter of flushes, not as an effect on the file.
- Write.WriteCsv: the per-item `serialize()` of an arbitrary object is an opaque function that may raise; only `CloseApproach.serialize` is modelled in full (`EveryApproachIsWritten`).

## Findings

| source | as written | input that shows it | evidently intended | confidence | as-written member | corrected member |
|---|---|---|---|---|---|---|
| write.py:96-101 | the ",\n" separator is written, and `first` cleared, before the item is serialized, so an item that is skipped still leaves a separator; write.py:134-139 does the same | a first item without `serialize` (AttributeError) followed by an approach whose JSON is `{}`: the file is "[\n,\n{}\n]", which is not a JSON array | a separator only between items that were written, so the file is "[\n{}\n]" | high (not executed) | Write.SkippedFirstItemBreaksArray | Write.FixedExportIsArray |
