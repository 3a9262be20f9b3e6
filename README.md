# PDF watch-folder monitor: a Dafny model

`monitor_api.py` watches a root folder that receives one sub-folder per day
(`<root>/YYYY-MM-DD`). When a PDF arrives in today's folder, the program does
the following:

1. it waits until the file's size stops changing;
2. it hands the file to a processing pipeline at most once per day folder;
3. the pipeline extracts and maps the document through two remote services;
4. it posts an invoice built from the mapped data;
5. it appends the mapped data, flattened into a single row, to a spreadsheet.

Once a minute the watcher looks for the next day's folder and switches to it.

This project models that core and proves properties about it:

- `DynamicFolderHandler`, as a class whose methods update its fields. The folder
  it watches, the set of processed files, the observer and the last check time
  are all fields of the class.
- `is_file_ready`, as a polling loop proved against a specification function.
- `get_current_day_folder`.
- The DocumentLines/invoice builder, as a loop proved against a recursive
  specification.
- `flatten_dict`, as recursive functions.
- The short-circuits of `process_pdf` and `append_to_excel`.

The outside world comes in as inputs:

- Clock readings are integer ticks (seconds).
- The calendar date is a `Date` value.
- Directory existence is a predicate on paths, or the Boolean outcome of one
  test.
- The sizes the readiness loop reads are a `Probe`, a function from the read's
  index to an optional size.
- Replies of the extraction and mapping services are values of `ExtractReply`
  and `MapReply`.

What the handler does to the outside world is recorded, in order, in a ghost
trace of `Effect`s:

- starting and stopping an observer;
- calling `process_pdf` on a file;
- posting an invoice;
- appending a row.

The handler's invariant, `Valid`, ties `processed_files` to that trace. It
holds exactly the paths submitted since the current day folder was taken on,
and no path was submitted twice in that time.

Modules (one file each):

- `Wrappers`: `Option`.
- `JsonValue`: JSON values, `dict.get` and truthiness.
- `Digits`: decimal and zero-padded number text.
- `DayFolder`: `strftime("%Y-%m-%d")`, POSIX `os.path.join` and the day folder.
- `Readiness`: the specification of the polling loop.
- `DocumentLines`: the DocumentLines/invoice builder.
- `Flatten`: `flatten_dict`.
- `Pipeline`: `process_pdf` and `append_to_excel`.
- `FolderHandler`: the handler class.

In these places the model follows the code as written:

- A day folder that is missing at start-up is never watched that day, because
  the daily check only acts when the computed folder path changes (see
  Findings).
- An error inside `map_incoming_data` is not caught. It propagates out of
  `process_pdf` and `process_file` (outcome `Raised`), after the path has
  already been recorded as processed. What that does to the observer is under
  "Left out".
- Opening the PDF in `call_document_extract_api` sits inside a handler that
  catches only request errors. A file deleted or locked after the readiness
  check makes the call raise (`ExtractRaised`), and `process_pdf` ends with
  `Raised` with the path already recorded as processed.
- A file that never settles is not recorded as processed, so a later event for
  it is processed again.
- The flattened row can hold dictionary values. A `line_items` element field
  whose value is a dictionary is copied unflattened. `FlatCell` states exactly
  which cells can be dictionaries: only those under `line_item_` keys.

## Model

| member | source | states |
|---|---|---|
| `JsonValue.Lookup` | monitor_api.py:214-220 | `d[k]`: found exactly when the key is present, and then the value is one paired with it |
| `JsonValue.GetOr` | monitor_api.py:287-291 | `d.get(k, default)`: the default for a missing key, the stored value otherwise |
| `JsonValue.Get` | monitor_api.py:285 | `d.get(k)`: `None` for a missing key, the stored value otherwise (the `GetOr` contract with the default `None`) |
| `JsonValue.Truthy` | monitor_api.py:230 | Python's `bool`: `None`, `False`, `0`, `0.0`, `""`, `[]` and `{}` are falsy; used by the `or` chain (`AliasLookupFirstTruthy`) and the extraction check (`Pipeline.ProcessPdf`) |
| `JsonValue.Keys` | monitor_api.py:304 | iterating a dict yields its keys in order, one per entry |
| `Digits.Padded` | monitor_api.py:378 | a zero-padded field is exactly `width` decimal digits |
| `Digits.PaddedValue` | monitor_api.py:378 | the padded digits read back as the number |
| `Digits.Decimal` | monitor_api.py:314 | `str(n)` is a non-empty digit string without leading zero that reads back as `n` |
| `DayFolder.FormatDate` | monitor_api.py:378 | `%Y-%m-%d` is ten characters, digits with dashes at positions 4 and 7 |
| `DayFolder.ParseDate` | monitor_api.py:378 | the inverse reader accepts exactly the `DDDD-DD-DD` shape |
| `DayFolder.ParseFormatDate` | monitor_api.py:378 | reading a formatted date gives back the date (round trip) |
| `DayFolder.FormatDateInjective` | monitor_api.py:378 | two dates format alike exactly when they are equal |
| `DayFolder.JoinPath` | monitor_api.py:379 | `os.path.join` keeps the base as prefix and the name as suffix; it puts one `/` between them exactly when the base is non-empty and does not already end in `/`, and nothing otherwise |
| `DayFolder.CurrentDayFolder` | monitor_api.py:376-379 | the root joined with today's `%Y-%m-%d`; `DayFolderNamesDate` proves it lies under the root and names the date, `DayFolderInjective` that it changes exactly with the date |
| `DayFolder.DayFolderNamesDate` | monitor_api.py:376-379 | the day folder lies under the root, and its last ten characters read back as today's date |
| `DayFolder.DayFolderInjective` | monitor_api.py:376-379 | under one root, the day folder changes exactly when the date changes |
| `DayFolder.DayFolderExample` | monitor_api.py:376-379 | root `/watch` on 6 May 2024 gives `/watch/2024-05-06` |
| `Readiness.PollFrom` | monitor_api.py:451-466 | the loop's outcome from a given guard test; its properties are `PollReadsInTime`, `PollEarlierReadsMoved` and `PollOutcome` |
| `Readiness.Poll` | monitor_api.py:451-466 | the outcome of is_file_ready; `ReadyNeedsTwoEqualReads`, `NotReadyMeansFailureOrTimeout` and `NeverRepeatsNotReady` state it |
| `Readiness.PollReadsInTime` | monitor_api.py:455-463 | every size read happens while the timeout has not passed |
| `Readiness.PollEarlierReadsMoved` | monitor_api.py:456-461 | every read before the last one succeeded and differed from its predecessor |
| `Readiness.PollOutcome` | monitor_api.py:455-466 | ready iff the last read repeated the one before it; otherwise the last read failed or the timeout passed |
| `Readiness.ReadyNeedsTwoEqualReads` | monitor_api.py:452-460 | ready needs at least two reads (the size memory starts at -1), with the last two equal and no earlier repeat or failure |
| `Readiness.NotReadyMeansFailureOrTimeout` | monitor_api.py:462-466 | not ready means a read failed or the timeout passed first |
| `Readiness.NeverRepeatsNotReady` | monitor_api.py:455-466 | a size that never repeats while the timeout has not passed gives not ready |
| `Readiness.StableAfterReads` | monitor_api.py:455-461 | a size that changes on each of the first k reads and repeats on read k+1 within the timeout gives ready after exactly k+1 reads |
| `Readiness.ClockMonotone` | monitor_api.py:461 | sleeping between polls makes clock readings never decrease |
| `Readiness.VanishedIsNotReady` | monitor_api.py:462-463 | a failed read (file vanished or unreadable) before any repeat gives not ready, whatever later reads would return |
| `DocumentLines.AliasLookup` | monitor_api.py:285 | the `or` chain over the aliases; `AliasLookupFirstTruthy` proves it yields the first truthy value, else the last alias's value |
| `DocumentLines.AliasLookupFirstTruthy` | monitor_api.py:285 | an `or` chain of `get`s yields the first truthy alias value, or the last alias's value when none is truthy |
| `DocumentLines.UomLookupIsOrChain` | monitor_api.py:285 | the alias lookup equals `get("UoMEntry") or get("UomEntry") or get("uomentry")` |
| `DocumentLines.NormalizeLine` | monitor_api.py:285-290 | the line dict built from one mapped line; `NormalizeLineFields` states each of its three fields |
| `DocumentLines.NormalizeLineFields` | monitor_api.py:285-290 | ItemCode and TaxCode are the stored values, or `""` when absent; UoMEntry follows the alias order, falsy values falling through |
| `DocumentLines.LineFieldsOtherSpellings` | monitor_api.py:286-290 | a built line stores its unit under `UoMEntry` only, never under the other two spellings |
| `DocumentLines.NormalizeNormalized` | monitor_api.py:285-290 | normalising a normalised line changes nothing when its UoMEntry is truthy or None |
| `DocumentLines.FalsyLastAliasIsNotStable` | monitor_api.py:285 | a falsy non-null UoMEntry (`0`) is not stable: normalising again turns it into None |
| `DocumentLines.UomExamples` | monitor_api.py:285-290 | the second alias is used when the first is absent; no alias gives None |
| `DocumentLines.Iterate` | monitor_api.py:284 | `for line in x` walks a list's elements, a dict's keys or a string's characters, and raises for anything else |
| `DocumentLines.NormalizedLines` | monitor_api.py:284-290 | succeeds iff every element is a dict, and then keeps count and order, normalising each element |
| `DocumentLines.DocumentLinesOf` | monitor_api.py:283-290 | the lines built from a payload, or a failure; `DocumentLinesCharacterised` gives count, order and failure cases, `BuildDocumentLines` proves the loop computes it |
| `DocumentLines.BuildDocumentLines` | monitor_api.py:283-290 | the appending loop computes exactly the lines (or the failure) that the element-wise normalisation of the payload gives |
| `DocumentLines.DocumentLinesCharacterised` | monitor_api.py:283-290 | the list has one normalised line per element, in order; building fails iff iteration raises or an element is not a dict |
| `DocumentLines.LineFields` | monitor_api.py:286-290 | the three-key dict a line is posted as; `LineFieldsOtherSpellings` states that the unit goes only under `UoMEntry`, `NormalizeNormalized` that re-normalising it is stable where Python's `or` allows |
| `DocumentLines.InvoiceJson` | monitor_api.py:292-296 | the posted `invoice_data` dict: CardCode and one line dict per built line; `ExampleInvoice` shows that the invoice built from the example payload renders back to that payload |
| `DocumentLines.InvoiceFor` | monitor_api.py:283-296 | the invoice has CardCode (default `""`) and the built lines; none exactly when the payload is not a dict or building the lines raises |
| `Flatten.JoinStrings` | monitor_api.py:317 | `"; ".join`: empty for no parts, the part itself for one; otherwise it starts with the first part, followed by the separator when there are more |
| `Flatten.Texts` | monitor_api.py:328-329 | an all-strings list is read as its strings, one per element |
| `Flatten.LeafCell` | monitor_api.py:315-331 | the cell of a non-dict value: strings-only lists joined with `"; "`, other lists as `str()`, scalars unchanged; `LeafCellShape` states the cases |
| `Flatten.LeafCellShape` | monitor_api.py:315-321 | an empty list becomes `""`, a list with a non-string becomes its `str()`, and no list is kept as a list |
| `Flatten.ChildKey` | monitor_api.py:305 | the key is `parent_sep_k`, or just `k` when the parent is falsy (empty) |
| `Flatten.LineItemKey` | monitor_api.py:314 | the key has the `line_item_` shape |
| `Flatten.ItemFieldCells` | monitor_api.py:312-321 | one cell per field of the item, keyed `line_item_{n}_{k}`, in field order |
| `Flatten.LineItemCells` | monitor_api.py:308-322 | the columns a `line_items` list adds; `LineItemCellsCover`, `LineItemCellOrigin` and `NonDictItemsDropped` state exactly which |
| `Flatten.LineItemCellsCover` | monitor_api.py:308-322 | every field of every dict element gets its column, keyed with the element's position plus one |
| `Flatten.LineItemCellOrigin` | monitor_api.py:308-322 | every line-item column comes from a field of a dict element, numbered by its position plus one, and has a `line_item_` key |
| `Flatten.NonDictItemsDropped` | monitor_api.py:310-311 | a `line_items` list with no dict element adds no column |
| `Flatten.Put` | monitor_api.py:334 | assigning a key grows the dict by one exactly when the key is new |
| `Flatten.PutEntries` | monitor_api.py:334 | after `d[k] = c` the key holds `c`, other pairs survive, nothing else appears |
| `Flatten.PutKeepsDistinct` | monitor_api.py:334 | assignment keeps the keys of a dict distinct |
| `Flatten.PutLeavesOtherKeysOut` | monitor_api.py:334 | assignment introduces no key besides the assigned one |
| `Flatten.PutAppendsNewKey` | monitor_api.py:334 | a key the dict does not hold is appended at the end |
| `Flatten.DictOf` | monitor_api.py:334 | `dict(items)` has distinct keys and only pairs from `items` |
| `Flatten.DictOfKeepsLast` | monitor_api.py:334 | the last pair given for a key is the one the dict keeps |
| `Flatten.DictOfDistinct` | monitor_api.py:334 | pairs with distinct keys are kept as they are, in order |
| `Flatten.PutKeepsKeys` | monitor_api.py:334 | assigning an existing key keeps the keys and their order |
| `Flatten.FirstAppearances` | monitor_api.py:334 | the deduplicated key list holds exactly the given keys |
| `Flatten.DictOfKeyOrder` | monitor_api.py:334 | `dict(items)` lists its keys in the order of their first appearance |
| `Flatten.FlattenFrom` | monitor_api.py:302-333 | the `items` list; `FlattenFromOrigin` and `FlattenFromCovers` characterise it field by field and `FlattenFromIsFlat` bounds its cells |
| `Flatten.FieldPairs` | monitor_api.py:305-331 | the pairs one field adds: the line-item columns of a `line_items` list, the flattened child dict's pairs, or the joined key with the leaf cell; `FlattenFromOrigin` and `FlattenFromCovers` tie them to the `items` list |
| `Flatten.FlattenFromOrigin` | monitor_api.py:302-333 | every pair of the `items` list was added by one of the fields |
| `Flatten.FlattenFromCovers` | monitor_api.py:302-333 | every pair a field adds is in the `items` list |
| `Flatten.FlattenFromTail` | monitor_api.py:304-333 | the pairs of the later fields follow those of the earlier ones |
| `Flatten.LeafFieldFlattened` | monitor_api.py:303-331 | a field that is neither a dict nor a `line_items` list contributes its joined key with its leaf cell |
| `Flatten.FlattenDict` | monitor_api.py:302-334 | the flattened dict has distinct keys |
| `Flatten.FlattenDictCells` | monitor_api.py:302-334 | every column of the row comes from one of the fields, and every pair of `items` that no later pair overrides is in the row |
| `Flatten.FlattenFromIsFlat` | monitor_api.py:302-334 | no cell holds a list; a dict-valued cell only occurs under a `line_item_` key |
| `Flatten.LineItemCellIsFlat` | monitor_api.py:308-322 | line-item cells hold no lists |
| `Flatten.FlattenIsFlat` | monitor_api.py:302-334 | the row has distinct keys, holds no lists, and holds dicts only as line-item fields |
| `Flatten.NestedKeyJoined` | monitor_api.py:324-325 | `{a: {b: v}}` with `v` neither dict nor list flattens to `{a_b: v}` |
| `Flatten.LineItemsIgnoreParent` | monitor_api.py:308-322 | `line_items` nested under another key still gives `line_item_1_x`, with no parent prefix |
| `Flatten.FlattenExample` | monitor_api.py:302-334 | `{a: {b: 1}, c: ["x", "y"]}` flattens to `{a_b: 1, c: "x; y"}` |
| `Pipeline.DocumentId` | monitor_api.py:214 | `extracted["data"][0]["document_id"]` is found exactly when every index succeeds |
| `Pipeline.MappedResult` | monitor_api.py:220 | `raw["mapped_result"]` is found exactly when the reply is a dict with that key |
| `Pipeline.ProcessPdf` | monitor_api.py:225-261 | a failed or falsy extraction returns None before mapping; an extraction that raises (the file cannot be opened) raises; otherwise the result is the mapped payload exactly when every index and the mapping call succeed, and an exception otherwise |
| `Pipeline.AppendToExcel` | monitor_api.py:263-297 | the effects of the excel step, equal to `ExcelEffects`: once the output folder is made the invoice is posted, then the flattened row is appended; nothing happens when making the folder or building the invoice raises |
| `Pipeline.ExcelEffects` | monitor_api.py:263-337 | the effects of append_to_excel; `AppendToExcel` computes them with the lines loop and `PostThenAppend` states their order |
| `Pipeline.PdfEffects` | monitor_api.py:437-439 | append_to_excel runs only on a returned payload; `NothingAfterExtractFailure` and `AppendOnlyWithData` state it |
| `Pipeline.NothingAfterExtractFailure` | monitor_api.py:229-232 | after a failed, raising or falsy extraction nothing is posted or written |
| `Pipeline.AppendOnlyWithData` | monitor_api.py:438-439 | a row is appended only when process_pdf returned data, and it is that data flattened |
| `Pipeline.ExcelRowIsFlattened` | monitor_api.py:297-337 | the row append_to_excel writes is the payload flattened with an empty parent key |
| `Pipeline.PostThenAppend` | monitor_api.py:263-337 | the post comes first, and the row is appended after it whatever the post's outcome; nothing is done iff the output folder cannot be made or the invoice cannot be built |
| `Pipeline.EndToEndExample` | monitor_api.py:225-261 | a concrete extraction and mapping reply give one post of the expected invoice followed by one append |
| `Pipeline.ExampleInvoice` | monitor_api.py:292-296 | the example payload's invoice renders back to the payload |
| `Pipeline.ExampleLines` | monitor_api.py:283-290 | the example payload has one line, whose fields are the example line |
| `Pipeline.ExampleLineIsNormal` | monitor_api.py:284-290 | the example line normalises to its own values |
| `FolderHandler.LowerChar` | monitor_api.py:425 | ASCII capitals map to small letters; other characters are unchanged |
| `FolderHandler.Lower` | monitor_api.py:425 | `lower()` works character by character and keeps the length |
| `FolderHandler.LowerCharIs` | monitor_api.py:425 | a character lowers to a given small letter exactly when it is that letter or its capital |
| `FolderHandler.IsPdfName` | monitor_api.py:425 | the name filter; `PdfSuffixAnyCase` proves it accepts exactly names ending in `.pdf` in any case |
| `FolderHandler.PdfSuffixAnyCase` | monitor_api.py:425-426 | the name filter accepts exactly the names ending in `.pdf` in any letter case |
| `FolderHandler.PdfEffectsSubmitNothing` | monitor_api.py:437-439 | the pipeline never submits another file |
| `FolderHandler.DynamicFolderHandler.constructor` | monitor_api.py:382-388 | starts on today's folder with nothing processed, no observer and the last check at start-up |
| `FolderHandler.DynamicFolderHandler.StartMonitoring` | monitor_api.py:390-400 | a missing folder returns False and changes nothing; otherwise an observer is started on the current folder and True is returned |
| `FolderHandler.DynamicFolderHandler.StopMonitoring` | monitor_api.py:402-407 | a running observer is stopped and dropped; nothing else changes |
| `FolderHandler.DynamicFolderHandler.Rollover` | monitor_api.py:417-421 | the old observer is stopped, the new day's folder becomes current, the processed set is emptied, and monitoring restarts there; the restart's result is returned |
| `FolderHandler.DynamicFolderHandler.TakeOn` | monitor_api.py:419-420 | the current folder is the new day's, and no file is processed for it yet |
| `FolderHandler.DynamicFolderHandler.CheckForNewDay` | monitor_api.py:409-422 | nothing changes before the interval has elapsed; after it the check time is updated, a switch happens iff the date's folder differs and exists, and False is returned only when the restart fails |
| `FolderHandler.DynamicFolderHandler.CheckForNewDayOrPending` | monitor_api.py:409-422 | corrected check: after a due check an existing folder for today is being watched; processed files are kept within a day |
| `FolderHandler.DynamicFolderHandler.IsFileReady` | monitor_api.py:451-466 | the polling loop's answer is that of the readiness specification `Poll` |
| `FolderHandler.DynamicFolderHandler.ProcessFile` | monitor_api.py:424-439 | a non-PDF name, a file that does not settle, or an already processed path changes nothing; otherwise the set grows by that path, exactly one submission is recorded before the pipeline's effects, and the invariant (each path submitted at most once per day folder) is kept |
| `FolderHandler.DynamicFolderHandler.MarkProcessed` | monitor_api.py:434-435 | the path is added to the processed set before process_pdf is called |
| `FolderHandler.DynamicFolderHandler.Record` | monitor_api.py:437-439 | the pipeline's effects are recorded without changing the processed set |
| `FolderHandler.DynamicFolderHandler.OnCreated` | monitor_api.py:441-444 | directory events are ignored; a file is processed under its source path |
| `FolderHandler.DynamicFolderHandler.OnMoved` | monitor_api.py:446-449 | directory events are ignored; a file is processed under its destination path |
| `FolderHandler.PendingFolderStaysUnwatched` | monitor_api.py:390-422 | as written, a day folder created after start-up on the same day exists, yet it is not watched after a due check |
| `FolderHandler.PendingFolderIsWatched` | monitor_api.py:409-422 | with the correction, the same scenario ends with the folder watched |

## Left out

- GUI prompts and message boxes, configuration files and logging setup. These are user interface and file I/O.
- The HTTP clients for extraction, mapping and posting. The extraction and mapping replies are inputs. The post's outcome cannot change what follows, so it is not modelled.
- The spreadsheet read, concatenation and write. This is foreign library I/O: the model stops at the row handed to the writer (`Appended`). Whether `os.makedirs` creates the output folder, which happens before the post, is an input (`folderMade`); its failure is caught and suppresses both the post and the row.
- The watchdog observer threads and the main loop's `sleep(1)`. Calls are treated as sequential.
- Three things about the observer are not captured, because the observer is modelled only as the folder it watches:
  - a second `start_monitoring` without a stop would leave the first observer running unreferenced;
  - events delivered by a stopped observer;
  - an exception escaping `process_file` (outcome `Raised`) propagates through `on_created`/`on_moved` into the observer's dispatch thread and ends it in the program; `observer` keeps recording the field, which stays set, so the model goes on handling later events that the program would no longer see until a rollover restarts monitoring.
- Floating-point time. Clock readings are integer ticks, and the clock in `is_file_ready` is assumed to advance by at least the poll interval per poll (a clock stepped backwards is not modelled).
- `str()` of a non-string list is kept symbolically (`ListText`) instead of rendered as Python text.
- `FolderHandler.Lower`: `str.lower()` is modelled for ASCII letters only, because Unicode case mapping is not available.
- `DayFolder.JoinPath`: only POSIX path joining is modelled; Windows `ntpath` rules (drive letters, backslashes) are not.
- `DayFolder.FormatDate`: dates range over the years 1..9999 that `datetime` supports, and `%Y` is written on four digits. On a glibc-based Python `strftime` does not pad years below 1000 (year 999 gives `999-01-01`), so for those years the model's folder name differs from the program's. `datetime.now()` does not return such years.
- JSON floats are kept as exact reals (`JFloat`). IEEE rounding, NaN and the infinities are not modelled; a float is falsy exactly when it is zero, and `flatten_dict` copies it as a leaf cell like any other scalar.
- Duplicate keys inside one JSON object: a decoded object has distinct keys, and `Lookup` uses the first match.
- The commented-out entity extractor and classification code. It is dead code.

## Findings

| source | as written | input that shows it | evidently intended | confidence | as-written member | corrected member |
|---|---|---|---|---|---|---|
| monitor_api.py:409-422 | `check_for_new_day` acts only when the computed day folder differs from the current one, so a current-day folder that did not exist at start-up is never watched that day, although the start-up message says monitoring starts automatically once the folder is created (monitor_api.py:481-485) | start on 2024-05-06 with `/watch/2024-05-06` missing; the folder is created; a due check on the same day leaves no observer | a due check also starts the observer when none runs and the current folder now exists | not executed | `FolderHandler.PendingFolderStaysUnwatched` | `FolderHandler.DynamicFolderHandler.CheckForNewDayOrPending` |
