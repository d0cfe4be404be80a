# CoreDocument: legacy import, documents service and global search

CoreDocument archives supplier documents such as delivery notes and invoices. Each one is
stored as a file in object storage, as a database row, and as an entry in a search index.
This project models four parts of it in Dafny and proves properties about them.

- **Legacy path parsing** (`legacy_parse.dfy`, module `LegacyImport`). The import script
  works on an old archive laid out as `[DDT/]YEAR/ITALIAN-MONTH/DD-MM-YYYY/SUPPLIER NUMBER.ext`.
  It reads metadata from each path:
  - the Italian month folder, translated to English;
  - the date folder, read as the JavaScript `Date` constructor reads it (a day past the
    month's end carries into the next month) and written as `YYYY-MM-DD`;
  - the file name, split into supplier, document number and extension.

  Both regular expressions of the file-name parser are given an exact characterisation.
- **The import run** (`import_run.dfy`, module `ImportRun`). The scan loop:
  - counts every scanned path;
  - skips paths by extension;
  - records invalid paths;
  - skips documents that already exist;
  - queues the rest and flushes the queue in batches of `batchSize`.

  Each upload is tried up to three times, and the `stats` counters are kept along the way.
  The run is a method whose loop invariant ties its state to a per-path specification.
- **The parser self-test** (`import_tests.dfy`, module `ImportTests`). It holds the twelve
  test cases and the runner that counts passes and picks the exit code. Every case is
  proved to pass.
- **The documents service** (`documents.dfy`, module `Documents`). The backend's
  `create`, `bulkCreate`, `findAll`, `findOne`, `update` and `remove`. It is a class over
  the database rows, the stored object keys and the search index. Each collaborator call
  that can fail is given its outcome as a parameter.
- **The global search box** (`global_search.dfy`, module `GlobalSearch`):
  - the supplier aggregation over the documents the search endpoint returns, with a
    `Map` loop proved against a functional specification;
  - `encodeURIComponent` for the supplier links;
  - the combined list of at most three suppliers followed by at most ten documents;
  - the component state: query, results, loading flag and open flag.

Shared text and date primitives live in `text.dfy` (modules `Outcomes` and `Text`) and
`calendar.dfy` (module `Calendar`).

## Model

| member | source | states |
|---|---|---|
| Text.UpperIgnoresCase | scripts/import-legacy-documents.js:96 | upper-casing is idempotent and forgets lower case, so the month lookup ignores case |
| Text.LowerIgnoresCase | apps/frontend/src/components/GlobalSearch.tsx:62 | lower-casing is idempotent and forgets upper case |
| Text.TrimUnchanged | scripts/import-legacy-documents.js:126-127 | a string with no white space at either end is its own `trim()` |
| Text.TrimAppendSpace | scripts/import-legacy-documents.js:126 | `trim()` drops any trailing white-space run |
| Text.Split | scripts/import-legacy-documents.js:167 | `split('/')` yields at least one part and no part contains the separator |
| Text.JoinSplit | scripts/import-legacy-documents.js:167 | joining the parts of `split` with the separator gives back the string |
| Text.SplitJoin | scripts/import-legacy-documents.js:167 | splitting separator-free parts joined by the separator gives back the parts |
| Text.LastPart | apps/backend/src/documents/documents.service.ts:53 | `split(sep).pop()` is the text after the last separator: a separator-free end of the string that follows a separator, or the whole string when there is none |
| Text.SplitLastIsSuffix | apps/backend/src/documents/documents.service.ts:53 | the last part of a split is an end of the string that follows a separator, the whole string when there is one part, and shorter than the string otherwise |
| Text.IndexOf | scripts/import-legacy-documents.js:166 | the first position where the pattern occurs, or none when it occurs nowhere |
| Text.ContainsIgnoringCaseFacts | apps/frontend/src/components/GlobalSearch.tsx:62 | the case-insensitive `includes` ignores the case of either side, holds for the empty pattern and the string itself, and means an occurrence of the lower-cased pattern |
| Text.RemoveFirst | scripts/import-legacy-documents.js:166 | `replace(source, '')` changes nothing when the pattern does not occur; otherwise it cuts out the first occurrence: putting the pattern back at that position gives the string, and no earlier position holds the pattern |
| Text.BackslashToSlash | scripts/import-legacy-documents.js:162-163 | `replace(/\\/g, '/')` turns each backslash into `/` and keeps every other character in place |
| Text.DigitsValue | scripts/import-legacy-documents.js:208 | `parseInt` of a digit string of width w is below 10^w |
| Text.DigitsRoundTrip | scripts/import-legacy-documents.js:141-147 | a digit string is the zero-padded writing of its value |
| Text.ValueOfDigits | scripts/import-legacy-documents.js:205 | the zero-padded writing of a number reads back as the number |
| Text.DecimalString | apps/frontend/src/components/GlobalSearch.tsx:79 | the decimal writing of a count is digits and reads back as the count |
| Calendar.DaysInMonth | scripts/import-legacy-documents.js:147-148 | month lengths lie between 28 and 31 |
| Calendar.MonthName | apps/backend/src/documents/documents.service.ts:99-104 | `monthNames[getMonth()]` is one of the twelve English month names |
| Calendar.FormatIsoDate | scripts/import-legacy-documents.js:205 | `toISOString().split('T')[0]` is ten characters with dashes at 4 and 7 |
| Calendar.ParseIsoDate | apps/backend/src/documents/documents.service.ts:90-91 | `new Date(s)` reads the three date-only ISO forms: `YYYY-MM-DD` is valid exactly with a month 01-12 and a day 01-31, a day past the month's end carrying into the next month; `YYYY-MM` is valid exactly with a month 01-12 and gives the 1st of that month; `YYYY` gives 1 January; any other text is an Invalid Date; every valid result is a real calendar date |
| Calendar.RollOver | apps/backend/src/documents/documents.service.ts:90-91 | fields with a month 1-12 and a day 1-31 make a real date in the same year, equal to the fields exactly when that day exists |
| Calendar.RollOverKeepsDayOfYear | apps/backend/src/documents/documents.service.ts:90-91 | rolling over keeps the day's position in the year |
| Calendar.ParseIsoDateKeepsDayOfYear | apps/backend/src/documents/documents.service.ts:90-91 | a date parsed from `YYYY-MM-DD` text keeps the text's year and day of the year, so `2023-02-30` is 2 March |
| Calendar.ParseIsoDateOfCalendarDate | apps/backend/src/documents/documents.service.ts:90-91 | text naming a day that exists parses to exactly that day |
| Calendar.IsoDateRoundTrip | scripts/import-legacy-documents.js:205 | parsing the ISO text of a date gives back the date |
| Calendar.IsoTextRoundTrip | apps/backend/src/documents/documents.service.ts:90 | formatting a parsed ISO date gives back the text exactly when the text is `YYYY-MM-DD` naming a day that exists (`2023-02-30` formats as `2023-03-02`, `2023-08` as `2023-08-01`) |
| LegacyImport.MonthMapTable | scripts/import-legacy-documents.js:77-90 | the twelve Italian month names map to the twelve English ones in order, and nothing else is a key |
| LegacyImport.IsValidMonth | scripts/import-legacy-documents.js:95-97 | a month folder is valid exactly when its upper-cased name is an Italian month |
| LegacyImport.NormalizeMonth | scripts/import-legacy-documents.js:102-104 | a valid month becomes an English month name; any other name is returned unchanged |
| LegacyImport.NormalizeMonthTranslates | scripts/import-legacy-documents.js:102-104 | the i-th Italian month in any case becomes the i-th English month |
| LegacyImport.SplitExtensionExact | scripts/import-legacy-documents.js:111 | the extension pattern matches exactly the `name.ext` splits with a non-empty single-line name and 3 or 4 letters |
| LegacyImport.TrailingDigits | scripts/import-legacy-documents.js:117 | the maximal run of digits at the end of the name |
| LegacyImport.TrailingSpaces | scripts/import-legacy-documents.js:117 | the maximal run of white space at the end of the name |
| LegacyImport.ParseNumber | scripts/import-legacy-documents.js:117-127 | a match yields a non-empty digit-only document number |
| LegacyImport.ParseNumberComplete | scripts/import-legacy-documents.js:117-127 | every split `prefix + white space + digits` matches, giving the trimmed prefix and the digits |
| LegacyImport.ParseNumberSound | scripts/import-legacy-documents.js:117-127 | every match comes from such a split |
| LegacyImport.ParseFilename | scripts/import-legacy-documents.js:109-130 | a parsed file name has a 3-4 letter extension and a non-empty digit document number |
| LegacyImport.ParseFilenameComplete | scripts/import-legacy-documents.js:109-130 | any file name of the shape `supplier white-space digits.ext` parses to the trimmed supplier, the digits and the lower-cased extension |
| LegacyImport.ParseFilenameSound | scripts/import-legacy-documents.js:109-130 | every parsed file name has that shape, with those fields |
| LegacyImport.ParseDate | scripts/import-legacy-documents.js:135-151 | a folder containing `%` is refused; otherwise the folder parses exactly when it is `DD-MM-YYYY` with a month 01-12 and a day 01-31, and the result is a real calendar date |
| LegacyImport.ParseDateReorders | scripts/import-legacy-documents.js:147 | the ISO text of a parsed folder date is the folder text reordered to `YYYY-MM-DD` exactly when the folder names a day that exists |
| LegacyImport.IsoOfFolderFields | scripts/import-legacy-documents.js:145-147 | the reordered folder text is ISO-shaped and carries the folder's day, month and year |
| LegacyImport.ParseDateOfCalendarDate | scripts/import-legacy-documents.js:141-150 | a folder naming a day that exists parses to exactly that day |
| LegacyImport.ParseDateKeepsDayOfYear | scripts/import-legacy-documents.js:147-148 | a parsed folder date keeps the folder's year and day of the year, so `31-04-2023` is 1 May |
| LegacyImport.PathLayout | scripts/import-legacy-documents.js:171-183 | a layout exists exactly for at least four segments, or five after a leading `DDT` in any case; the file name is the last segment |
| LegacyImport.ExtractMetadataFields | scripts/import-legacy-documents.js:159-215 | extracted metadata keeps the path, has an English month, a year below 10000, a ten-character date and a file name without separators |
| LegacyImport.ExtractMetadataExact | scripts/import-legacy-documents.js:159-215 | metadata is extracted exactly when the layout, year folder, month folder, date folder and file name are all valid; it then carries the parsed supplier and number, the ISO text of the parsed folder date (the reordered folder text when that day exists), the numeric year folder and the English month |
| ImportRun.ChunkSize | scripts/import-legacy-documents.js:441 | the number of queued files that triggers a flush: `batchSize`, or 1 when `batchSize` is below 1 |
| ImportRun.Basename | scripts/import-legacy-documents.js:470 | `path.basename` of a Windows path: an end of the path containing neither separator, following a separator or equal to the whole path |
| ImportRun.BasenameOfSlashed | scripts/import-legacy-documents.js:470 | the last `/`-part of the path with backslashes turned into `/` is that same end of the original path |
| ImportRun.LastDot | scripts/import-legacy-documents.js:404 | the position of the last dot of the base name, or none when there is no dot |
| ImportRun.ExtnameShape | scripts/import-legacy-documents.js:404 | `path.extname` is empty or a final piece of the base name that starts at its last dot and has no separator |
| ImportRun.RetryOutcomeIsFirstResponse | scripts/import-legacy-documents.js:295-320 | the upload answers exactly when one of the three attempts answers, with the first answer; otherwise it throws the last attempt's error |
| ImportRun.UploadWithRetry | scripts/import-legacy-documents.js:295-320 | the retry loop returns the first answer among three attempts, or the third attempt's error |
| ImportRun.Dispose | scripts/import-legacy-documents.js:400-438 | a path is ignored exactly when its extension is not listed; it is invalid only when no metadata is extracted; it is queued with its metadata; it is skipped as present only when not a dry run and `skipExisting` holds |
| ImportRun.Dispositions | scripts/import-legacy-documents.js:400-438 | one disposition per scanned path |
| ImportRun.DispositionAt | scripts/import-legacy-documents.js:400-438 | the i-th path's disposition depends only on that path and on its existence check |
| ImportRun.TallyPartitions | scripts/import-legacy-documents.js:409-438 | every counted path is invalid, already present or queued; the queued and invalid counts are the lengths of those lists |
| ImportRun.NothingPresent | scripts/import-legacy-documents.js:427-434 | without a present disposition, nothing is counted as already existing |
| ImportRun.DryRunSkipsNothing | scripts/import-legacy-documents.js:427 | a dry run skips no file as already existing |
| ImportRun.TotalIsCounted | scripts/import-legacy-documents.js:403-409 | `total` is the number of counted paths |
| ImportRun.TotalCountsCandidates | scripts/import-legacy-documents.js:403-409 | `total` counts exactly the paths with a listed extension |
| ImportRun.FlattenAppend | scripts/import-legacy-documents.js:437-480 | the files of the batches followed by one more batch are the earlier files followed by that batch |
| ImportRun.UploadAccounting | scripts/import-legacy-documents.js:447-476 | a dry run reports every queued file as a success and none as failed; against a server that accounts for each file, every queued file is counted once |
| ImportRun.Basenames | scripts/import-legacy-documents.js:470 | `batch.map(f => path.basename(f))`: one name per file, each the base name of its own file, in order |
| ImportRun.Reported | scripts/import-legacy-documents.js:455-472 | the entries a flush appends are never invalid-path entries |
| ImportRun.ReportedEntries | scripts/import-legacy-documents.js:455-472 | a dry run appends nothing; a response appends each server error in order under its file name; a thrown upload appends one entry with the base name of each of the batch's files, in order, and the message |
| ImportRun.InvalidFilesAppend | scripts/import-legacy-documents.js:415-418 | the invalid-path entries of two error lists appended are those of each, in order |
| ImportRun.NoInvalidFilesIn | scripts/import-legacy-documents.js:460-472 | error lists from uploads add no invalid-path entry |
| ImportRun.OtherErrorsAppend | scripts/import-legacy-documents.js:460-472 | the upload entries of two error lists appended are those of each, in order |
| ImportRun.OtherErrorsKeepsAll | scripts/import-legacy-documents.js:460-472 | a list without invalid-path entries is all upload entries |
| ImportRun.InvalidEntryAppend | scripts/import-legacy-documents.js:415-418 | an invalid-path entry joins the invalid paths and leaves the upload entries alone |
| ImportRun.FlushedErrors | scripts/import-legacy-documents.js:437-480 | flushing one more batch appends its entries to the upload entries of the flushed batches |
| ImportRun.BatchAlignedSplit | scripts/import-legacy-documents.js:437-438 | two runs of files sit beside their metadata exactly when the two joined do |
| ImportRun.Unflatten | scripts/import-legacy-documents.js:437-480 | batches shaped like their metadata batches and aligned when flattened are aligned batch by batch |
| ImportRun.QueuedAligned | scripts/import-legacy-documents.js:436-438 | the queued paths sit beside their metadata when each queued disposition was parsed from its path |
| ImportRun.DispositionsParse | scripts/import-legacy-documents.js:409-438 | every queued disposition carries the metadata extracted from its own path |
| ImportRun.QueuedParsed | scripts/import-legacy-documents.js:409-438 | the queued paths, in scan order, sit beside the metadata extracted from each |
| ImportRun.Flush | scripts/import-legacy-documents.js:447-480 | a dry run adds the batch to `success`; a response adds the server's counts and appends its errors in order; a thrown upload adds the whole batch to `failed` and appends one entry with the base names of the batch's files and the message; nothing else changes |
| ImportRun.BatchesAppend | scripts/import-legacy-documents.js:437-480 | flushing one more batch appends it to the upload order and adds that batch's success and failure counts to the sums |
| ImportRun.AppendKeepsBatching | scripts/import-legacy-documents.js:436-441 | a file that leaves the batch short of the batch size joins it, and the batching invariant still holds |
| ImportRun.FlushKeepsBatching | scripts/import-legacy-documents.js:436-480 | a file that fills the batch flushes it; the invariant holds again with an empty batch, and the upload order grows by that batch |
| ImportRun.FlushKeepsAccounts | scripts/import-legacy-documents.js:447-480 | after a flush the counters and upload entries are those of the flushed batches followed by this one |
| ImportRun.Enqueue | scripts/import-legacy-documents.js:436-484 | queueing a file appends it to the upload order and its metadata to the flattened metadata, and keeps the batching invariant: the open batch is below the flush size, flushed batches are full, each batch has a metadata batch of its length, and the counters and upload errors are the flushed batches'. The invalid-path entries and the other counters stay |
| ImportRun.Visit | scripts/import-legacy-documents.js:400-438 | one pass of the scan loop keeps the run consistent with the dispositions of the paths seen so far |
| ImportRun.IgnoredKeepsConsistent | scripts/import-legacy-documents.js:400-407 | a path with an ignored extension only advances `scanned` |
| ImportRun.InvalidKeepsConsistent | scripts/import-legacy-documents.js:409-420 | an invalid path advances `total` and `invalid` and appends its invalid-file entry |
| ImportRun.PresentKeepsConsistent | scripts/import-legacy-documents.js:426-433 | a path already imported advances `total`, `alreadyExists` and `skipped` |
| ImportRun.QueuedStep | scripts/import-legacy-documents.js:436-438 | a queued path advances the total and queued tallies and joins the queued list |
| ImportRun.QueuedKeepsConsistent | scripts/import-legacy-documents.js:436-484 | after a queued path is enqueued, the run is consistent with one more path |
| ImportRun.StartConsistent | scripts/import-legacy-documents.js:364-378 | before the loop nothing is scanned, counted, queued or flushed |
| ImportRun.Scan | scripts/import-legacy-documents.js:398-485 | after the scan loop the run is consistent with the dispositions of all the paths |
| ImportRun.Drain | scripts/import-legacy-documents.js:486-511 | the residue flush, done only when the batch holds a file, puts every queued file and its metadata into a flushed batch; no flushed batch is empty and all but the last are full; counters and upload entries are those of the flushed batches; nothing else changes |
| ImportRun.Import | scripts/import-legacy-documents.js:398-512 | after the scan and the residue flush: `scanned` is the path count; `total`, `invalid`, `alreadyExists` and `skipped` are the dispositions' tallies; the uploaded files are exactly the queued ones in order, each batch beside the metadata extracted from its own files; every batch is full except possibly the last; `success` and `failed` are the batches' sums; the invalid-path entries are the invalid paths in scan order and the other entries are the flushed batches' errors in flush order |
| ImportTests.FilenameCasePassesIff | scripts/test-import.js:151-160 | a file-name case passes exactly when the parser returns the expected value |
| ImportTests.FilenameCasePasses | scripts/test-import.js:151-160 | a file-name case whose parse equals the expected value passes |
| ImportTests.DateCasePasses | scripts/test-import.js:152-162 | a date case passes when the folder parses to the date the expected text denotes |
| ImportTests.DateCasePassesIff | scripts/test-import.js:152-162 | a date case passes exactly when both sides are absent or both denote the same date |
| ImportTests.CountWhere | scripts/test-import.js:140-176 | the number of cases passing is at most the number of cases |
| ImportTests.CountWhereAll | scripts/test-import.js:140-176 | the count equals the number of cases exactly when every case satisfies the test |
| ImportTests.PassCountAll | scripts/test-import.js:184-190 | all cases pass exactly when the pass count is the number of cases |
| ImportTests.RunTests | scripts/test-import.js:132-190 | `passed` is the number of passing cases, `passed + failed` the number of cases, and the exit code is 0 exactly when every case passes, else 1 |
| ImportTests.Parses1 | scripts/test-import.js:52-57 | `ABC RICAMI 1894.pdf` parses to supplier `ABC RICAMI`, number `1894`, extension `pdf` |
| ImportTests.Case1 | scripts/test-import.js:52-57 | the first case passes |
| ImportTests.Parses2 | scripts/test-import.js:58-63 | `ATELIER AMELIER 162.pdf` parses to the expected fields |
| ImportTests.Case2 | scripts/test-import.js:58-63 | the second case passes |
| ImportTests.Parses3 | scripts/test-import.js:64-69 | `VALENTINO 9000028669.pdf` parses to the expected fields |
| ImportTests.Case3 | scripts/test-import.js:64-69 | the third case passes |
| ImportTests.Parses4 | scripts/test-import.js:70-75 | `TOD'S 2409.pdf` parses to the expected fields |
| ImportTests.Case4 | scripts/test-import.js:70-75 | the fourth case passes |
| ImportTests.Parses5 | scripts/test-import.js:76-81 | `FORNITORE TEST 123.jpg` parses to the expected fields |
| ImportTests.Case5 | scripts/test-import.js:76-81 | the fifth case passes |
| ImportTests.Rejects6 | scripts/test-import.js:82-87 | a name without a trailing number is refused |
| ImportTests.Case6 | scripts/test-import.js:82-87 | the sixth case passes |
| ImportTests.Rejects7 | scripts/test-import.js:88-93 | a name that is only a number is refused |
| ImportTests.Case7 | scripts/test-import.js:88-93 | the seventh case passes |
| ImportTests.ParsesDate8 | scripts/test-import.js:96-101 | folder `01-08-2023` is 1 August 2023 |
| ImportTests.ParsesIso8 | scripts/test-import.js:96-101 | `2023-08-01` denotes 1 August 2023 |
| ImportTests.ParsesIsoOverflow | apps/backend/src/documents/documents.service.ts:90-91 | `new Date("2023-02-30")` is 2 March 2023 |
| ImportTests.ParsesIsoYearMonth | apps/backend/src/documents/documents.service.ts:90-91 | `new Date("2023-08")` is 1 August 2023 |
| ImportTests.ParsesIsoYear | apps/backend/src/documents/documents.service.ts:90-91 | `new Date("2023")` is 1 January 2023 |
| ImportTests.OverflowFolderText | scripts/import-legacy-documents.js:141-145 | the folder `31-04-2023` has the date-folder shape and the fields 31, 4 and 2023 |
| ImportTests.ParsesDateOverflow | scripts/import-legacy-documents.js:147-150 | the folder `31-04-2023` names no existing day and is read as 1 May 2023 |
| ImportTests.OverflowFolderNotReordered | scripts/import-legacy-documents.js:205 | the date recorded for that folder is not the reordered text `2023-04-31` |
| ImportTests.Case8 | scripts/test-import.js:96-101 | the eighth case passes |
| ImportTests.ParsesDate9 | scripts/test-import.js:102-107 | folder `09-01-2023` is 9 January 2023 |
| ImportTests.ParsesIso9 | scripts/test-import.js:102-107 | `2023-01-09` denotes 9 January 2023 |
| ImportTests.Case9 | scripts/test-import.js:102-107 | the ninth case passes |
| ImportTests.Case10 | scripts/test-import.js:108-113 | the `%d-%m-%Y` folder is refused, so the tenth case passes |
| ImportTests.Case11 | scripts/test-import.js:114-119 | an ISO-ordered folder is refused, so the eleventh case passes |
| ImportTests.Case12 | scripts/test-import.js:120-125 | `32-13-2023` is no date, so the twelfth case passes |
| ImportTests.AllCasesPass | scripts/test-import.js:50-126 | every one of the twelve cases passes, so the runner exits with 0 |
| Documents.OrEmpty | apps/backend/src/documents/documents.service.ts:47-48 | a supplier or number defaults to empty: the value when it is a non-empty string, else the empty string |
| Documents.ErrorMessage | apps/backend/src/documents/documents.service.ts:136 | the error's message, or `Upload failed` when it has none, is never empty and is the message when there is one |
| Documents.FileExtension | apps/backend/src/documents/documents.service.ts:53 | `split('.').pop()` is the text after the last dot: a dot-free end of the name that follows a dot, or the whole name when there is no dot |
| Documents.FileExtensionExamples | apps/backend/src/documents/documents.service.ts:53 | the extension is what follows the last dot |
| Documents.NewRow | apps/backend/src/documents/documents.service.ts:115-127 | the created row carries the id, the stored object, the file size, supplier, number and date, with month and year agreeing with the date |
| Documents.BulkItemStores | apps/backend/src/documents/documents.service.ts:77-138 | an item is stored exactly when its metadata is complete, its date parses and upload, database create and indexing succeed; the stored row is the new row under the next id with the stored object, the file, the item's supplier and number and the parsed date; a rejected item names its own file |
| Documents.BulkItemWellFormed | apps/backend/src/documents/documents.service.ts:77-138 | one item keeps every row's id, month and year consistent |
| Documents.AddRowWellFormed | apps/backend/src/documents/documents.service.ts:115-127 | a row written under the next id, with month and year from its date, keeps the store well formed |
| Documents.BulkRun | apps/backend/src/documents/documents.service.ts:76-139 | one entry per processed item |
| Documents.BulkRunStep | apps/backend/src/documents/documents.service.ts:76-139 | the run over one more item is the run so far followed by that item's pass |
| Documents.ResultsAndErrorsPartition | apps/backend/src/documents/documents.service.ts:141-146 | `success + failed` is the number of items |
| Documents.BulkRunEntry | apps/backend/src/documents/documents.service.ts:76-139 | the i-th entry is the outcome of the i-th item against the state the earlier items left |
| Documents.RejectedEntryNamesItsFile | apps/backend/src/documents/documents.service.ts:83-84 | every error names the file of its own item |
| Documents.BulkRunWellFormed | apps/backend/src/documents/documents.service.ts:76-139 | the batch keeps every row's id, month and year consistent |
| Documents.InvalidItemTouchesNothing | apps/backend/src/documents/documents.service.ts:82-97 | an item with missing metadata or an invalid date changes nothing and is rejected with the matching message |
| Documents.IndexFailureKeepsRow | apps/backend/src/documents/documents.service.ts:107-138 | when only indexing fails, the item is rejected but its object and row stay and the index is unchanged |
| Documents.CreateOutcomes | apps/backend/src/documents/documents.service.ts:17-61 | a missing file, an invalid date or a failed upload changes nothing; a failed database create keeps only the stored object, leaving rows, index and next id; a failed indexing keeps object and row and leaves the index; success adds all three and returns the new row with supplier and number defaulting to empty and the parsed date |
| Documents.CreateWriteOutcomes | apps/backend/src/documents/documents.service.ts:35-60 | once the file is stored, each later failure keeps the earlier writes and skips the rest |
| Documents.CreateStepWellFormed | apps/backend/src/documents/documents.service.ts:17-61 | `create` keeps every row's id, month and year consistent |
| Documents.PageOf | apps/backend/src/documents/documents.service.ts:150 | `query.page || 1`: the given page when non-zero, else 1 |
| Documents.LimitOf | apps/backend/src/documents/documents.service.ts:151 | the limit (default 20) is at least 1, the given limit when non-zero, else 20 |
| Documents.CeilDiv | apps/backend/src/documents/documents.service.ts:188 | `Math.ceil(total / limit)`: the least page count covering the total |
| Documents.BuildWhere | apps/backend/src/documents/documents.service.ts:154-170 | each filter is present exactly when its query field is truthy |
| Documents.MatchesQuery | apps/backend/src/documents/documents.service.ts:154-179 | a row matches exactly when it passes every given filter: case-insensitive containment for supplier and number, equality for the rest |
| Documents.SupplierFilterIgnoresCase | apps/backend/src/documents/documents.service.ts:157 | the supplier filter gives the same answer for the upper-cased query |
| Documents.Filter | apps/backend/src/documents/documents.service.ts:172-179 | the listed rows are rows of the table and all match |
| Documents.FilterKeepsMatches | apps/backend/src/documents/documents.service.ts:172-179 | every matching row is listed |
| Documents.FilterAppend | apps/backend/src/documents/documents.service.ts:172-179 | filtering distributes over concatenation, so the matching rows keep the database's order |
| Documents.FilterOne | apps/backend/src/documents/documents.service.ts:172-179 | a single row is kept exactly when it matches |
| Documents.Window | apps/backend/src/documents/documents.service.ts:175-176 | `skip`/`take` gives the rows from position `skip` in order, at most `take` of them |
| Documents.FindAll | apps/backend/src/documents/documents.service.ts:149-191 | the page is the filtered rows from offset `(page-1)*limit`, in the database's order, at most `limit` of them; `total` counts all matching rows and `totalPages` is `ceil(total/limit)` |
| Documents.PageSize | apps/backend/src/documents/documents.service.ts:152-188 | the page's offset lies inside the rows for pages up to `totalPages`, leaves a full page before the last, and lies past the rows after it |
| Documents.PagesCoverListing | apps/backend/src/documents/documents.service.ts:149-191 | pages `1..totalPages` are non-empty, all but the last are full, and later pages are empty |
| Documents.BuildUpdate | apps/backend/src/documents/documents.service.ts:208-225 | supplier and number are taken whenever defined; a date only when truthy; an invalid date is refused |
| Documents.ApplyUpdate | apps/backend/src/documents/documents.service.ts:227-230 | defined fields replace the row's; without a date, date, month and year stay; id, file name, object key, size and extension always stay |
| Documents.UpdateKeepsRowShape | apps/backend/src/documents/documents.service.ts:216-225 | an update keeps id, file fields and the month and year agreeing with the date, and takes the given date |
| Documents.DocumentsService.constructor | apps/backend/src/documents/documents.service.ts:11-15 | the service starts with no rows, objects or index entries |
| Documents.DocumentsService.FindOne | apps/backend/src/documents/documents.service.ts:193-203 | the row under the id, or `Document not found` exactly when there is none |
| Documents.DocumentsService.Create | apps/backend/src/documents/documents.service.ts:17-61 | the final state and the answer are those of the `create` specification (CreateStep, whose cases CreateOutcomes states), and the store stays well formed |
| Documents.DocumentsService.Write | apps/backend/src/documents/documents.service.ts:35-60 | the writes of `create` once the file is stored change the state as CreateWrite says: object, then row, then index entry |
| Documents.DocumentsService.BulkCreate | apps/backend/src/documents/documents.service.ts:63-147 | no files or a metadata count mismatch is refused before any write; otherwise the items run in order and the summary's `success`, `failed`, `results` and `errors` are those of the run |
| Documents.DocumentsService.ProcessItem | apps/backend/src/documents/documents.service.ts:77-138 | one item changes the state as the bulk specification says |
| Documents.DocumentsService.Update | apps/backend/src/documents/documents.service.ts:205-236 | a missing id or an invalid date is refused with nothing written; a failed database update returns its error and writes nothing; otherwise the row is replaced by the updated one, a successful re-index indexes it, and a failed one returns the error and leaves the index unchanged |
| Documents.DocumentsService.Remove | apps/backend/src/documents/documents.service.ts:238-257 | a missing id is refused; otherwise the object is deleted (a failure is ignored), then the row, then the index entry, and the result is `Document deleted successfully`; a failed row delete returns its error after the object is gone, keeping the row and the index entry |
| GlobalSearch.Utf16Length | apps/frontend/src/components/GlobalSearch.tsx:51 | `query.length` lies between the number of characters and twice that |
| GlobalSearch.Utf16LengthOfBmp | apps/frontend/src/components/GlobalSearch.tsx:51 | for characters of the Basic Multilingual Plane, `length` is the character count |
| GlobalSearch.SearchableLengths | apps/frontend/src/components/GlobalSearch.tsx:51 | two characters always trigger a search, none never, one only outside the Basic Multilingual Plane |
| GlobalSearch.DocsOf | apps/frontend/src/components/GlobalSearch.tsx:57 | an envelope yields its `data` list, a bare list itself, no body the empty list; only a body that is not a list makes the search fail |
| GlobalSearch.FirstIndex | apps/frontend/src/components/GlobalSearch.tsx:63-69 | the first document of a supplier, or none when there is none |
| GlobalSearch.SupplierEntries | apps/frontend/src/components/GlobalSearch.tsx:75 | one entry per listed supplier |
| GlobalSearch.SupplierOrderFacts | apps/frontend/src/components/GlobalSearch.tsx:60-72 | each supplier is listed once, and exactly the suppliers of matching documents are listed |
| GlobalSearch.CountForListed | apps/frontend/src/components/GlobalSearch.tsx:60-72 | a supplier is listed exactly when its count is at least one |
| GlobalSearch.SumCountsExtend | apps/frontend/src/components/GlobalSearch.tsx:70 | one more document raises the counts' sum by one exactly when it matches a listed supplier |
| GlobalSearch.SumCountsAppend | apps/frontend/src/components/GlobalSearch.tsx:70 | the counts' sum over one more supplier adds its count |
| GlobalSearch.SupplierCountsAddUp | apps/frontend/src/components/GlobalSearch.tsx:60-72 | the suppliers' counts add up to the number of matching documents |
| GlobalSearch.FirstIndexExtend | apps/frontend/src/components/GlobalSearch.tsx:63-69 | a later document never changes a supplier's first document |
| GlobalSearch.OneMoreDocument | apps/frontend/src/components/GlobalSearch.tsx:61-71 | one more document keeps the first date of a seen supplier, sets it for a new one, and counts itself for its supplier when it matches |
| GlobalSearch.MapAfterKeys | apps/frontend/src/components/GlobalSearch.tsx:60-72 | the map's insertion order and keys are the listed suppliers |
| GlobalSearch.EntryStep | apps/frontend/src/components/GlobalSearch.tsx:61-71 | one pass of `forEach` keeps every entry equal to its supplier's name, count and first date |
| GlobalSearch.MapAfterMeaning | apps/frontend/src/components/GlobalSearch.tsx:60-72 | after the loop each entry holds its supplier's name, count and first date |
| GlobalSearch.AggregateSuppliers | apps/frontend/src/components/GlobalSearch.tsx:60-75 | the `Map` loop yields exactly the supplier entries of the specification, in insertion order |
| GlobalSearch.HexDigit | apps/frontend/src/components/GlobalSearch.tsx:80 | an escape digit is an upper-case hex digit |
| GlobalSearch.Utf8 | apps/frontend/src/components/GlobalSearch.tsx:80 | a character's UTF-8 form is one to four bytes, one exactly for ASCII |
| GlobalSearch.PercentBytes | apps/frontend/src/components/GlobalSearch.tsx:80 | each byte becomes `%` and two upper-case hex digits |
| GlobalSearch.EncodeChar | apps/frontend/src/components/GlobalSearch.tsx:80 | an unreserved character stays; any other becomes escapes; the result never holds `/` |
| GlobalSearch.EncodeUriComponent | apps/frontend/src/components/GlobalSearch.tsx:80 | `encodeURIComponent` yields only unreserved characters and escapes, never `/`, and changes nothing in an unreserved string |
| GlobalSearch.ItalianDate | apps/frontend/src/components/GlobalSearch.tsx:88 | `DD/MM/YYYY` whose digit groups read back as the date's day, month and year |
| GlobalSearch.SupplierResult | apps/frontend/src/components/GlobalSearch.tsx:75-81 | a supplier line is titled and identified by the name and links to its encoded page |
| GlobalSearch.DocumentResult | apps/frontend/src/components/GlobalSearch.tsx:84-90 | a document line has the document's id, `supplier - number` as title, the Italian date (empty without a date) as subtitle, and links to `/documents` |
| GlobalSearch.Take | apps/frontend/src/components/GlobalSearch.tsx:93 | `slice(0, n)` keeps the first n elements, or all of them when there are fewer |
| GlobalSearch.SupplierResults | apps/frontend/src/components/GlobalSearch.tsx:75-81 | one supplier line per entry, in order |
| GlobalSearch.DocumentResults | apps/frontend/src/components/GlobalSearch.tsx:84-90 | one document line per returned document, in order |
| GlobalSearch.TakeBoth | apps/frontend/src/components/GlobalSearch.tsx:93 | the combination holds the kept part of the first list followed by the kept part of the second |
| GlobalSearch.SupplierSlots | apps/frontend/src/components/GlobalSearch.tsx:93 | at most three suppliers are shown, and all of them when there are fewer |
| GlobalSearch.SearchResultsLength | apps/frontend/src/components/GlobalSearch.tsx:93 | the dropdown shows the supplier lines plus up to ten documents, at most thirteen lines |
| GlobalSearch.SearchResultsSuppliers | apps/frontend/src/components/GlobalSearch.tsx:75-93 | the first lines are the first listed suppliers, each with its document count and link |
| GlobalSearch.SupplierLineAt | apps/frontend/src/components/GlobalSearch.tsx:75-93 | the k-th line is the k-th supplier's line |
| GlobalSearch.SearchResultsDocuments | apps/frontend/src/components/GlobalSearch.tsx:84-93 | after the supplier lines come the returned documents, in order |
| GlobalSearch.DocumentLineAt | apps/frontend/src/components/GlobalSearch.tsx:84-93 | each line after the supplier lines is the matching document's line |
| GlobalSearch.SearchResultsDistinctSuppliers | apps/frontend/src/components/GlobalSearch.tsx:60-93 | no supplier is shown twice |
| GlobalSearch.ListedSuppliersMatch | apps/frontend/src/components/GlobalSearch.tsx:62 | every listed supplier is non-empty, contains the query in any case and has at least one document |
| GlobalSearch.SearchBox.constructor | apps/frontend/src/components/GlobalSearch.tsx:31-34 | the box starts empty, closed and not loading |
| GlobalSearch.SearchBox.SetQuery | apps/frontend/src/components/GlobalSearch.tsx:153 | typing changes only the query |
| GlobalSearch.SearchBox.Focus | apps/frontend/src/components/GlobalSearch.tsx:154 | focusing reopens the dropdown exactly when the query is long enough |
| GlobalSearch.SearchBox.RunSearch | apps/frontend/src/components/GlobalSearch.tsx:49-108 | a short query clears and closes; otherwise the dropdown opens, the results are the combined list of the response (empty on any error) and loading ends |
| GlobalSearch.SearchBox.HandleResultClick | apps/frontend/src/components/GlobalSearch.tsx:110-115 | a click navigates to the line's link, clears query and results and closes the dropdown |
| GlobalSearch.SearchBox.MouseDown | apps/frontend/src/components/GlobalSearch.tsx:38-47 | a press outside closes the dropdown; nothing else changes |
| GlobalSearch.BuildResults | apps/frontend/src/components/GlobalSearch.tsx:60-94 | the effect's lists and their combination are the combined list of the specification |

## Left out

- Directory walking, HTTP calls, the existence check, the upload request, sleeps and back-off delays, the progress bar, console output and the log file are not modelled. The walk is a sequence of paths; the existence check and each upload attempt are function parameters.
- Command-line parsing is not modelled; `batchSize` is an integer. The option is read by `parseInt` with the previous value (the default 20) as its radix, so `--batch-size 50` gives 100; that reading is not modelled.
- The test-mode year and month directory filter is not modelled; it only restricts which paths the walk yields.
- `toUpperCase` and `toLowerCase` are modelled on ASCII letters only; other Unicode case mappings are not modelled.
- `new Date(...)` is modelled for the three date-only ISO forms `YYYY-MM-DD`, `YYYY-MM` and `YYYY` as V8 reads them: a month 01-12 and a day 01-31, a day past the month's end carrying into the next month, a missing day or month taken as the first, in the proleptic Gregorian calendar. Time zones, times of day, years outside four digits and the engine's lenient parsing of non-ISO text are not modelled.
- Documents.DocumentsService.Create: an invalid date is refused with `Invalid date format` before the upload. The service as written passes the Invalid Date on to `minio.uploadDocument` and then to the database create; the storage client is not part of this model, so what it stores for such a date is not stated.
- Documents.DocumentsService.Update: an invalid date is refused with `Invalid date format` before any write. The service as written passes an Invalid Date to the database update, which then fails with the client's own error.
- ImportRun.Import: the invalid-path entries and the upload entries are each stated in order, but not how the two kinds interleave in the error list.
- Documents.FindAll: the database's date-descending order is an input (`rowsByDate`). A date filter that does not parse gives an empty listing here; the service as written puts an Invalid Date into the query, which the database client rejects with an error.
- Documents.FindAll: negative `page` or `limit` values are not modelled (both are natural numbers).
- Documents.BulkItem: metadata entries and fields that are `null` or not strings are not modelled; an absent field is `None`.
- Documents ids are natural numbers handed out in order rather than database-generated strings.
- `getDownloadUrl`, `getFileStream` and the other service members after `remove` are not modelled.
- GlobalSearch: rendering, icons, the 300 ms debounce timer and its cancellation are not modelled. `RunSearch` is the timer's callback for the current query and runs as one step: the source awaits the request, so a click or a newer query can come in between and a late response can overwrite the results afterwards, which is not modelled.
- GlobalSearch.SupplierEntries: `latestDate` is the date of the supplier's first returned document, as the code sets it. It is not used by the rendering.
- GlobalSearch.EncodeUriComponent: no decoding partner is modelled, and lone surrogate characters (which make `encodeURIComponent` throw) are not modelled.
- GlobalSearch.DocumentResult: a missing supplier or number would print as `undefined`; this is not modelled, and both are strings.
- GlobalSearch.ItalianDate: the `it-IT` date is formatted from the calendar date; the browser's local time zone is not modelled.
