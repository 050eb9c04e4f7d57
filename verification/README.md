# BulkExport core: CSV header unification and the batched export driver

This project models two parts of the Omeka S BulkExport module and proves properties about them.

**The CSV formatter** (`src/Formatter/Csv.php`) works in two passes.
- The first pass (`prepareHeaders`) builds an insertion-ordered map from column name to a "used" flag:
  - the ten structural columns come first;
  - then every property term known to the installation;
  - then the value terms of each resource, switched on or appended when new.
- Kind rules then switch on the item and media columns, and `resource_type` when more than one kind of resource was seen.
- Only the flagged columns survive; they form the header.
- The second pass builds one row per resource (`prepareRow`) and re-aligns it on the header: keys the header lacks are dropped, header keys the row lacks become null, and the order is the header's.
- In id mode, an id the store cannot resolve is removed from `resourceIds` in the first pass and skipped in the second.

**The fields writer** (`src/Writer/AbstractFieldsWriter.php`) drives an export.
- `initializeParams` merges the caller's parameters over the options and normalises the resource property format and the query.
- `countResources` sends one count search, with the limit forced to 0, per selected type that maps to an API resource; a type that maps to none counts 0 without a search.
- `appendResources` then starts the selected types in turn. For each type, `appendResourcesForResourceType`:
  - unsets the paging keys of the query;
  - reads pages of 100 at offsets 0, 100, 200, …;
  - polls the job's stop signal at the top of every page;
  - ends on the stop signal or on the first empty page.
- Every resource's map of fields (`getDataResource`) is written when some field has content and skipped otherwise. The per-type counters `total`, `processed`, `succeed` and `skipped` record this.

## Modelling choices

- **PHP arrays.** A PHP associative array is `OrderedMap.Assoc`: its keys in insertion order plus a map of values. The array built-ins the core uses are functions on it:
  - assignment;
  - `unset`;
  - `+`;
  - `array_replace`;
  - `array_fill_keys`;
  - `array_filter`;
  - `array_intersect_key`;
  - `array_values`.
- **Resources** are values (`Resources.Resource`) holding what the core reads from a representation.
- **State and values.** The fields writer is imperative; the CSV formatter is mixed. The state each updates is modelled as a class:
  - `CsvFormatter` updates `resourceIds` in place and logs its output lines in a ghost field;
  - `Writer` updates its options, stop polls, stop flag, totals and counters.
  The formatter's pure expressions are functions: the alignment of a row on the header (`Align`) and the header's selection of flagged keys (`KeepTrue` over `FillKeys`).
- **How the writer's methods are specified.** Each method is proved against a specification function:
  - `Normalized` for option normalisation;
  - `Counts` for the count search;
  - `DataResource` for a resource's map of fields;
  - `HaltFrom`, `Tally` and `Rows` for the page loop;
  - `Exported` for the whole driver.
  The properties of those functions are proved as separate lemmas.
- **Rows and counters are stated over how each resource is written** (a `Writes` function). The writer's own `Writes` is `WritesOf` of its extraction settings.
- **The API is a snapshot.**
  - The Csv store is a map from id to resource, one map per pass; the two may differ, since a resource may be deleted between passes.
  - For the writer, `Api` maps each resource type to its API resource, gives the total a count search reports, and gives the pages a search returns: the page at offset 100·k is `pages[k]`, and every later page is empty.
- **The stop signal** is the sequence of answers successive calls to `shouldStop()` give, read through a poll counter.

## Model

| member | source | states |
|---|---|---|
| CsvFormat.CsvFormatter.Process | src/Formatter/Csv.php:30-68 | With an output error nothing is written and the ids are unchanged. Otherwise: the header line, then one line per resource aligned on the header. In id mode the first pass drops from `resourceIds` the ids the store does not resolve, and the lines are for the kept ids that the second store still resolves, in order. |
| CsvFormat.CsvFormatter.PrepareHeaders | src/Formatter/Csv.php:75-142 | The header keys are `HeaderColumns` of the resources scanned, each mapped to null. In id mode `resourceIds` keeps exactly the ids the store resolves, in order. |
| CsvFormat.CsvFormatter.ScanIds | src/Formatter/Csv.php:97-107 | An id the store does not resolve is removed from `resourceIds`. The flags and names are those of the resolved resources only. |
| CsvFormat.CsvFormatter.ScanResources | src/Formatter/Csv.php:108-113 | The flags and names are those of every resource given, in order. |
| CsvFormat.ScanStart | src/Formatter/Csv.php:77-90 | The first pass starts from the structural flags and every known property term off, and no names. |
| CsvFormat.InitialFlags | src/Formatter/Csv.php:77-90 | The structural columns in canonical order, then the property terms. Only o:id, url and o:resource_class are on. |
| CsvFormat.ScanResource | src/Formatter/Csv.php:105-106 | One resource extends the scan: its name is recorded and its value terms are switched on or appended. |
| CsvFormat.ScanFlagsSound | src/Formatter/Csv.php:90-113 | After the first loop the flags list every candidate column in header order. A column is on exactly when it is always written or some scanned resource has values under it. |
| CsvFormat.ScanKindsSound | src/Formatter/Csv.php:92-113 | The names recorded are the distinct resource names, in first-seen order, all true. |
| CsvFormat.FoundIdsSpec | src/Formatter/Csv.php:97-104 | The ids kept are exactly the given ids that resolve. The i-th resource scanned is what the i-th kept id resolves to. |
| CsvFormat.FoundIdsConcat | src/Formatter/Csv.php:97-104 | Unsetting keeps the order: the ids kept from two runs of ids are those kept from the first, then those kept from the second, and the same holds for the resources read. |
| CsvFormat.UnsetNext | src/Formatter/Csv.php:98-103 | Unsetting an unresolved id removes exactly that id and leaves the others in place. |
| CsvFormat.KeepNext | src/Formatter/Csv.php:98-107 | A resolved id is kept and its resource scanned. |
| CsvFormat.SelectColumns | src/Formatter/Csv.php:115-141 | After the kind rules and the final filter, the header is exactly `HeaderColumns`, with null values. |
| CsvFormat.SwitchStart | src/Formatter/Csv.php:115-118 | resource_type is switched on exactly when more than one resource name was seen. |
| CsvFormat.SwitchNames | src/Formatter/Csv.php:115 | Filtering the name flags keeps every name seen, in first-seen order. |
| CsvFormat.SwitchAll | src/Formatter/Csv.php:119-139 | The kind loop computes `SwitchKinds` of the names, in order. |
| CsvFormat.SwitchSound | src/Formatter/Csv.php:119-139 | After the kind loop, the item columns are on when an item was seen and the media columns when a media was seen. Other names switch nothing. |
| CsvFormat.SwitchEnd | src/Formatter/Csv.php:141 | The keys still switched on are the header. |
| CsvFormat.HeaderColumns | src/Formatter/Csv.php:141 | The header never repeats a column. |
| CsvFormat.HeaderKeysDistinct | src/Formatter/Csv.php:141 | No two header columns are written under the same key. |
| CsvFormat.HeaderColumnIff | src/Formatter/Csv.php:77-141 | A column is in the header if and only if it is used. That means one of: always written; holding a value of some resource; resource_type with more than one kind; a column of an exported kind. An unused property term is left out. |
| CsvFormat.HeaderTiers | src/Formatter/Csv.php:77-141 | The header is three tiers, each in its own order: the used structural columns (canonical), the used property terms (installation order), then the other value terms (first-seen). |
| CsvFormat.HeaderStartsWithIdentity | src/Formatter/Csv.php:77-88 | The header opens with o:id, url, then resource_type when present, then o:resource_class. |
| CsvFormat.CsvFormatter.PrepareRow | src/Formatter/Csv.php:144-191 | The row holds a cell under a key if and only if `RowCell` gives one, with that cell as its value. Keys are the structural keys first, then the new value terms. |
| CsvFormat.CsvFormatter.PutStructural | src/Formatter/Csv.php:146-183 | The structural keys and cells of a row, by kind of resource. |
| CsvFormat.CsvFormatter.PutIdentity | src/Formatter/Csv.php:146-154 | o:id, url, resource_type only when the header has it, then the class term or the empty string. |
| CsvFormat.CsvFormatter.PutItemCells | src/Formatter/Csv.php:158-166 | An item adds its item sets, media ids and media URLs, each separator-joined. |
| CsvFormat.CsvFormatter.PutMediaCells | src/Formatter/Csv.php:168-174 | A media adds its item's url, media type, size and original URL. |
| CsvFormat.FixedCellKeys | src/Formatter/Csv.php:146-183 | A row has a structural cell exactly under its structural keys. |
| CsvFormat.TermCellsSpec | src/Formatter/Csv.php:185-188 | Each value term holds the separator-join of its strings and wins over a structural key of the same name. New terms are appended. |
| CsvFormat.RowSound | src/Formatter/Csv.php:144-191 | The row built key by key is exactly the row `RowCell` describes. |
| CsvFormat.Align | src/Formatter/Csv.php:48 | One cell per header column, in header order: the row's cell when the row has the key, the header's null otherwise. Other row keys are dropped. |
| CsvFormat.CsvFormatter.OutputRow | src/Formatter/Csv.php:44-50 | The line of a resource is its expected line under the header. |
| CsvFormat.CsvFormatter.EmitIds | src/Formatter/Csv.php:54-62 | One line per kept id that the store still resolves, in order. The others are skipped. |
| CsvFormat.CsvFormatter.EmitResources | src/Formatter/Csv.php:63-65 | One line per resource, in order. |
| CsvFormat.ExpectedLines | src/Formatter/Csv.php:52-65 | Line i is the expected line of resource i. |
| Resources.ColumnOf | src/Formatter/Csv.php:77-88 | A key read as a column spells that key. |
| Resources.NameInjective | src/Formatter/Csv.php:77-88 | Every column is the column its key is read as, so two columns are the same if and only if their keys are the same string: a property term is never spelled like a structural column. |
| Resources.KindNameInjective | src/Formatter/Csv.php:105-119 | Two resource names are the same if and only if they are spelled the same: a name of another kind is never spelled items, item_sets or media. |
| FieldsWriter.Defaults | src/Writer/AbstractFieldsWriter.php:54-70 | The default options, in declared order: empty_fields false, url_title, no resource types, an empty query. |
| FieldsWriter.Writer.constructor | src/Writer/AbstractFieldsWriter.php:54-97 | A writer starts with the default options, no stop polls, no counters and empty logs. |
| FieldsWriter.Writer.InitializeParams | src/Writer/AbstractFieldsWriter.php:144-162 | The options become `Normalized` of the parameters over the old options. |
| FieldsWriter.NormalizedOverrides | src/Writer/AbstractFieldsWriter.php:147 | A parameter the caller sets wins. Any other option keeps its value, and no key is lost or invented. |
| FieldsWriter.NormalizedPropertyFormat | src/Writer/AbstractFieldsWriter.php:149-151 | format_resource_property is null unless format_resource is identifier or identifier_id, compared loosely. Otherwise it is kept. |
| FieldsWriter.NormalizedQuery | src/Writer/AbstractFieldsWriter.php:153-159 | Afterwards the query is always an array: an array is kept, anything else is parsed from its string form. |
| FieldsWriter.Listed | src/Writer/AbstractFieldsWriter.php:153-154 | A plain list read as an array holds its values under the keys 0, 1, … |
| FieldsWriter.Writer.CountResources | src/Writer/AbstractFieldsWriter.php:356-369 | The result is `Counts` of the selected types. Exactly one count search is sent per type with an API resource. |
| FieldsWriter.Counts | src/Writer/AbstractFieldsWriter.php:356-369 | Each type appears once, in first-occurrence order. Its total is its API resource's, or 0 when it has none. |
| FieldsWriter.CountStep | src/Writer/AbstractFieldsWriter.php:361-367 | One turn of the counting loop counts the next type. |
| FieldsWriter.CountRequestStep | src/Writer/AbstractFieldsWriter.php:361-367 | One turn of the counting loop sends the next type's search when it has an API resource. |
| FieldsWriter.CountQuerySpec | src/Writer/AbstractFieldsWriter.php:360 | The count query has limit 0 first, whatever the caller's query says. Every other argument is the caller's. Each query key has one form, so no other entry is spelled limit. |
| FieldsWriter.CountRequestsLimit | src/Writer/AbstractFieldsWriter.php:360-365 | Every count search asks for no rows. |
| FieldsWriter.Writer.AppendResources | src/Writer/AbstractFieldsWriter.php:180-208 | The whole driver satisfies `Exported`. The totals are counted. No type is started when none is selected, the totals add up to 0, or the job was already stopped. Otherwise the types run in order until one is stopped. `ok` is false exactly when a type without an API resource is reached. |
| FieldsWriter.NothingEnd | src/Writer/AbstractFieldsWriter.php:186-194 | With nothing to export, only the totals and count searches are recorded. |
| FieldsWriter.Writer.StartTypes | src/Writer/AbstractFieldsWriter.php:196-201 | The loop over the selected types, from the counted state, satisfies `Exported`. |
| FieldsWriter.Writer.RunTypes | src/Writer/AbstractFieldsWriter.php:196-201 | The loop ends at the end of the types, on a stop, or at a type without an API resource. Its state is `DriverAt` there. |
| FieldsWriter.Writer.StartType | src/Writer/AbstractFieldsWriter.php:196-201 | One turn of the driver's loop keeps `DriverAt`. |
| FieldsWriter.DriverStep | src/Writer/AbstractFieldsWriter.php:196-201 | Running one type extends the runs, counters, rows, polls and searches by that type's. |
| FieldsWriter.DriverEnd | src/Writer/AbstractFieldsWriter.php:196-207 | A loop that runs out of types or is stopped completes `Exported` with ok true. |
| FieldsWriter.DriverThrows | src/Writer/AbstractFieldsWriter.php:196-200 | Reaching a type without an API resource completes `Exported` with ok false. |
| FieldsWriter.RunsSpec | src/Writer/AbstractFieldsWriter.php:196-200 | Types are started in order and none after a stopped one. The driver goes on unless a type was stopped or the next has no API resource. |
| FieldsWriter.ThrowsSpec | src/Writer/AbstractFieldsWriter.php:196-200 | The export throws if and only if it is not stopped before the types run out and it reaches a type without an API resource. |
| FieldsWriter.RunStatsBalanced | src/Writer/AbstractFieldsWriter.php:227-229 | For every type recorded, processed equals succeed plus skipped, and succeed is at most processed. |
| FieldsWriter.Writer.AppendForType | src/Writer/AbstractFieldsWriter.php:210-314 | One type's run satisfies `TypeRan`: the query loses its paging keys, the loop ends as `HaltFrom` says, and the counters and rows of the visited pages are recorded. |
| FieldsWriter.Writer.UnsetPaging | src/Writer/AbstractFieldsWriter.php:240-241 | The stored query becomes the query without page and per_page. |
| FieldsWriter.UnpagedSpec | src/Writer/AbstractFieldsWriter.php:240-241 | The unpaged query has every key but page and per_page, with their values. Each query key has one form, so no entry spelled page or per_page survives. |
| FieldsWriter.UnpagedTwice | src/Writer/AbstractFieldsWriter.php:240-241 | Unsetting the paging keys twice is unsetting them once. |
| FieldsWriter.PageQuerySpec | src/Writer/AbstractFieldsWriter.php:256 | A page query has limit 100 and the loop's offset, first, whatever the caller asked for. Every other argument is the caller's. Each query key has one form, so no other entry is spelled limit or offset. |
| FieldsWriter.PageRequestsSpec | src/Writer/AbstractFieldsWriter.php:243-300 | Page j is asked for at offset 100·j: the offset starts at 0 and grows by the page size. |
| FieldsWriter.PageRequestsPaging | src/Writer/AbstractFieldsWriter.php:240-256 | Every page search has limit 100 and offset 100·j, and carries neither page nor per_page. |
| FieldsWriter.HaltFromSpec | src/Writer/AbstractFieldsWriter.php:244-263 | The loop ends at the first page whose poll sees the stop signal or which comes back empty. It goes past every page before it. |
| FieldsWriter.HaltStep | src/Writer/AbstractFieldsWriter.php:245-263 | A stop or an empty page ends the loop at that page; otherwise the end is the next page's. |
| FieldsWriter.Writer.PageLoop | src/Writer/AbstractFieldsWriter.php:243-301 | The counters start at 0 and the loop satisfies `LoopDone`: one stop poll per full page processed plus one at the turn that ended it, the counters and rows of the visited resources, one search per full page plus one for the empty page when the loop ran out, and the stop flag set on a stop. |
| FieldsWriter.Writer.Pages | src/Writer/AbstractFieldsWriter.php:243-301 | The loop from page 0, with offset 100·k at page k, ends in `LoopDone`. |
| FieldsWriter.Writer.LoopTurn | src/Writer/AbstractFieldsWriter.php:244-301 | One turn either moves to the top of the next page or ends the loop as `HaltFrom` says. |
| FieldsWriter.Writer.NextPage | src/Writer/AbstractFieldsWriter.php:244-300 | A turn ends the loop on a stop or an empty page, and otherwise processes the page. |
| FieldsWriter.Writer.PollPage | src/Writer/AbstractFieldsWriter.php:245-256 | A stop seen at the top of a page sets the job's stop flag and ends the loop. Otherwise the search for that page is sent. |
| FieldsWriter.Writer.FetchPage | src/Writer/AbstractFieldsWriter.php:260-289 | An empty page ends the loop; any other page is processed. |
| FieldsWriter.Writer.ShouldStop | src/Writer/AbstractFieldsWriter.php:245 | Each poll reads the next answer of the stop signal. |
| FieldsWriter.Writer.EndOnStop | src/Writer/AbstractFieldsWriter.php:245-252 | A stop at page k ends the loop there, with the counters of the pages before it. |
| FieldsWriter.Writer.LogSearch | src/Writer/AbstractFieldsWriter.php:254-256 | Without a stop, the search for page k is logged at offset 100·k. |
| FieldsWriter.Writer.EndOnEmpty | src/Writer/AbstractFieldsWriter.php:260-263 | An empty page ends the loop. |
| FieldsWriter.Writer.GoOn | src/Writer/AbstractFieldsWriter.php:267-300 | A processed non-empty page leaves the loop at the top of the next page. |
| FieldsWriter.Writer.LoopStarts | src/Writer/AbstractFieldsWriter.php:225-243 | The loop starts at page 0 with zero counters and no rows or searches. |
| FieldsWriter.Writer.ProcessPage | src/Writer/AbstractFieldsWriter.php:267-289 | The rows of the page are written in order. processed grows by the page size, succeed by the rows written, and skipped by the rest. |
| FieldsWriter.Writer.ProcessResource | src/Writer/AbstractFieldsWriter.php:268-288 | A resource is written and counted as succeeded when its map has content. Otherwise it is counted as skipped. It is processed either way. |
| FieldsWriter.WriteOf | src/Writer/AbstractFieldsWriter.php:270-282 | A resource is written if and only if some field name yields a kept string (with empty_fields removal, a non-empty one), and what is written is its map. |
| FieldsWriter.RowsSpec | src/Writer/AbstractFieldsWriter.php:273-279 | Only maps with content are ever written. |
| FieldsWriter.RowsLength | src/Writer/AbstractFieldsWriter.php:267-289 | At most one row per resource. |
| FieldsWriter.TallyNext | src/Writer/AbstractFieldsWriter.php:276-288 | One more resource adds one to processed, and one to succeed if it is written or to skipped if not. |
| FieldsWriter.CountedTally | src/Writer/AbstractFieldsWriter.php:227-229 | Counters kept page by page are the tally of all the resources visited. |
| FieldsWriter.PageRowsVisited | src/Writer/AbstractFieldsWriter.php:244-301 | The rows written page by page are the rows of all the visited resources, in order. |
| FieldsWriter.RowsConcat | src/Writer/AbstractFieldsWriter.php:267-289 | Writing two runs of resources writes the rows of each, in order. |
| FieldsWriter.Writer.GetDataResource | src/Writer/AbstractFieldsWriter.php:316-337 | The map built is `DataResource` of the resource under the writer's field names and empty_fields option. |
| FieldsWriter.DataOfKeys | src/Writer/AbstractFieldsWriter.php:320-335 | The keys are the contributing field names, each once, in first-occurrence order. |
| FieldsWriter.DataOfValue | src/Writer/AbstractFieldsWriter.php:328-334 | A key holds its field's strings once per occurrence of the name, concatenated in order. |
| FieldsWriter.DataResourceNoEmpty | src/Writer/AbstractFieldsWriter.php:319-327 | With empty fields dropped, no key holds an empty list or an empty string. |
| FieldsWriter.DataResourceContent | src/Writer/AbstractFieldsWriter.php:273-276 | A resource's map has content if and only if some field name gives it a kept string. |
| FieldsWriter.NonEmpty | src/Writer/AbstractFieldsWriter.php:323 | The filtered values are exactly the non-empty strings. |

## Left out

- fputcsv, its delimiter, enclosure and escape, and the file handle (src/Formatter/Csv.php:42, 49). Each CSV line is a sequence of cells appended to a ghost output log.
- The Omeka API, the adapter and `entityManager->clear()`. They are replaced by a snapshot:
  - a map from id to resource for each pass of the CSV formatter;
  - for the writer, the `Api` value of type names, totals and pages.
- `stringMetadata`, `getPropertiesByTerm`, `prepareFieldNames` and `parse_str` are parameters. They live in code that is not part of this model.
- The CSV formatter's `hasError` flag is set by the parent formatter when the output is opened, which is not part of this model. It is a constructor argument and does not change during `process()`.
- `mapResourceTypeToApiResource` is a partial map. `mapResourceTypeToText` only feeds log messages and is left out.
- The URL, class name and media accessors of a representation are given fields of `Resource`.
- The logger, `prepareTempFile`, `saveFile`, `initializeOutput` and `finalizeOutput`: output plumbing with no effect on the modelled state.
- `writeFields` is abstract in the source. It is modelled as appending the map to a ghost log `written`.
- The writer's `process()` method, which calls the core. It is not modelled.
- `getResourceIdsByType` (src/Writer/AbstractFieldsWriter.php:342-354) is not called by the core. It is not modelled.
- `stats['totalToProcess']` is not stored. Only its sum is used, to decide whether anything is to be exported.
- `total` is the count search's estimate. Nothing bounds `processed` by it, since the pages may hold more resources than were counted.
- Unicode length: `mb_strlen` and `strlen` only decide whether a string is empty, so strings are plain sequences.
- The adapter lookup for a resource type without an API resource throws in the source. The model stops the driver there and reports `ok == false`; the exception itself is not modelled.
- The per-type counters are updated through a PHP reference in the source. The model keeps them in a local value and stores it when the page loop ends; nothing reads them in between.
- Option values are null, booleans, strings, lists of strings and queries. Numbers and nested arrays of other shapes are not modelled.
- A resource_types option that is not a list is read as naming no type. A query option that is a plain list is read as an array with keys 0, 1, … .
- QueryOf: a query option that is neither an array nor a list reads as the empty query. In PHP, `unset` on a string offset (src/Writer/AbstractFieldsWriter.php:240) or `array + string` (lines 256, 360) would fail there instead. `process()` normalises the query to an array through `initializeParams()` before the core runs (line 101), so that case does not arise in the source's own flow, and the failure is not modelled.
- NonEmpty: the filtered list is numbered 0, 1, … . PHP's `array_filter` keeps each value's original position as its key, so the list stored for a field the first time (`[1 => "a"]`) has gaps the model does not keep; the values and their order are modelled, those keys are not.
- Query keys: a key PHP stores as an integer is `Position(n)` with `n` a natural number. Negative integer keys, and integer-looking keys beyond PHP's integer range (which PHP keeps as strings), are not represented.
- NormalizedOverrides: says nothing of format_resource_property and query. Those two are stated by `NormalizedPropertyFormat` and `NormalizedQuery`.
