# Timesheets and invoice merger — a Dafny model

The payroll tool gathers one week of documents per client:
- It finds the client's `Week MM-DD` folder under one of its month folders.
- It picks out the invoice and the timesheets (PDF, image, Word).
- It turns landscape pages upright and merges everything into one PDF, the invoice first.
- It writes the merged file's path into column G of the client's row in the invoice ledger (an Excel sheet whose column B holds client names from row 4 on).

The repository holds ten revisions of this tool: nine desktop applications (`101.py` … `114.py`) and the original console script `Merge_timesheets.py`. This project models the file rules, the ordering, the naming, the ledger update and the progress accounting of every revision. It proves what each revision promises about them.

The model keeps the revisions apart where they differ. Revisions whose logic is the same share one model, with a parameter for what differs:

| file | models |
|---|---|
| `text.dfy` (`Text`) | the Python string built-ins the rules rely on: `lower`, `strip`, `in`, `endswith`, `os.path.splitext`, `os.path.basename`, `isdigit`/`int`, `zfill(2)`, `split(",")`, and `sorted()` in code-point order |
| `disk.dfy` (`Disk`) | the disk, as a listing map, file contents and `os.path.join` with the Windows separator; also `rotate_pdf_if_needed`, `image_to_pdf` and `word_to_rotated_pdf` |
| `pages.dfy` (`Pages`) | the page-orientation rules: width > height; the 1.5 and 1.2/0.8 aspect-ratio variants of 114.py; `page.rotate(90)` |
| `scan.dfy` (`Folders`) | `find_week_folder`, `list_raw_files`, and the pre-scan estimate of the steps per client |
| `prepare.dfy` (`Prepare`) | `prepare_files_for_merge` (114, 111, 106, 108) and `collect_files_for_merge` (101, 102, 103, 110) as one pipeline with a per-revision `Policy` |
| `merge.dfy` (`Merge`) | `PdfMerger` append, write, and the output name |
| `ledger.dfy` (`Ledger`) | the row scan over rows 4..max_row, with the three name tests the revisions use, and the in-place column-G write on an `array` |
| `week.dfy` (`Week`) | the date validation of `on_start` and the scan label |
| `progress.dfy` (`Progress`) | the `Session` class (disk, sheet, counters, `tasks_done`), `_increment_task_and_update`, and the percentage with and without the `min(100, …)` cap |
| `rev114.dfy`, `rev111.dfy`, `rev106.dfy`, `rev103.dfy`, `rev101.dfy` (`Rev114`, `Rev111`, `Rev106`, `Rev103`, `Rev101`) | the client loops: 114.py; 111.py; 106.py with 108.py; 103.py with 105.py; and 101.py with 102.py and 110.py |
| `script.dfy` (`Script`) | the whole of `Merge_timesheets.py` from the two console answers to `wb.save` |

**How the model is built**
- The source's loops are methods. Each is proved equal to a specification function that folds over the input in the same order.
- The application object is a class whose methods change its fields.
- The ledger is an `array<Row>` written in place.
- The properties are proved about the specification functions.
- I/O is modelled as values:
  - the disk is a value passed in and returned;
  - PDF reading, image and Word conversion are functions of a file's content that may fail (`None`);
  - the console answers, the client list and the week label are parameters.

## Model

| member | source | states |
|---|---|---|
| Text.Lower | 114.py:197 | `name.lower()` keeps the length and lower-cases every position, ASCII letters only |
| Text.LowerIdempotent | 114.py:684 | lower-casing twice is lower-casing once (the case-insensitive ledger test compares lowered names) |
| Text.StripSpec | 114.py:474-475 | `str.strip()` returns a slice `s[a..b]` with only white space outside it, and no white space at either end |
| Text.StripWindow | 114.py:474-475 | gives the cut points of `strip()`: everything before `a` and from `b` on is white space |
| Text.StripEnds | 114.py:678-679 | a stripped ledger name neither starts nor ends with white space |
| Text.StripUnchanged | 114.py:679 | a name without white space at its ends is its own strip |
| Text.SplitExt | 114.py:198 | `os.path.splitext`: root + extension is the name; the extension is empty or a dot followed by no dot; it is non-empty exactly when some dot follows a non-dot |
| Text.ExtOfSuffixed | 114.py:215-219 | a root that is not all dots, followed by `.pdf`, splits back into that root and `.pdf` |
| Text.LastIndexOf | 114.py:198 | the last occurrence of a character, or -1; no occurrence after it |
| Text.Basename | 114.py:215 | `os.path.basename` holds no separator |
| Text.BasenameIsSuffix | 114.py:215 | the base name is the part of the path after its last separator |
| Text.BasenameOfJoin | 114.py:215 | the base name of `join(folder, name)` is `name` |
| Text.ZFill2 | 114.py:479 | `zfill(2)` pads a shorter field to width 2 and leaves a longer field unchanged |
| Text.TwoDigits | 114.py:479 | the two-digit rendering of a value below 100 is all digits and reads back as that value |
| Text.DigitsValueOne | 114.py:476 | `int()` of a one-digit field |
| Text.DigitsValueTwo | 114.py:476 | `int()` of a two-digit field |
| Text.Split | Merge_timesheets.py:16 | `split(",")` gives at least one part, and no part holds the separator |
| Text.SplitJoin | Merge_timesheets.py:16 | joining the parts of `split(",")` with commas gives the input back |
| Text.SortNames | 114.py:166 | `sorted()` returns a permutation of its input |
| Text.SortNamesSorted | 114.py:166 | `sorted()` returns its input in non-decreasing code-point order, as a permutation |
| Text.SortNamesSameNames | 114.py:166 | sorting keeps exactly the names it was given |
| Text.InsertSorted | 114.py:166 | inserting into a sorted list keeps it sorted |
| Text.BelowTotal | 114.py:166 | Python's string order is total |
| Text.BelowAntisymmetric | 114.py:166 | Python's string order is antisymmetric |
| Text.BelowTransitive | 114.py:166 | Python's string order is transitive |
| Text.BelowPrefix | 114.py:180-181 | a common folder prefix does not change the order of two paths |
| Disk.JoinInjective | 114.py:180 | two names joined under one folder give the same path only when they are the same name |
| Disk.Write | 114.py:96-97 | a write sets the file's content, adds the name to its folder's listing, and leaves every other folder as it was |
| Disk.WriteKeepsSound | 114.py:96-97 | writing a file where no folder is keeps the disk sound: no path is both a folder and a file |
| Disk.Rotated | 114.py:79-106 | `rotate_pdf_if_needed` writes only its destination |
| Disk.RotatePdfIfNeeded | 111.py:84-101 | the page loop of `rotate_pdf_if_needed` computes `Rotated` |
| Disk.RotatedOutcome | 111.py:78-103 | a readable source reads back from the destination as its pages, each oriented by the rule. An unreadable source raises without the copy fallback (106, 108, 103, 105, 101, 102, 110). With the fallback (114, 111) the destination holds a copy of the source, or nothing is written when the copy fails too, and the function never fails |
| Disk.ImageToPdf | 114.py:146-149 | `image_to_pdf` succeeds exactly on an image and writes only its output |
| Disk.WordToRotated | 114.py:152-159 | `word_to_rotated_pdf` succeeds exactly on a Word document and writes only its output |
| Pages.TurnSwapsShown | 114.py:89 | `page.rotate(90)` swaps the width and height a viewer shows |
| Pages.Normalized | 114.py:83-97 | the writer receives one page per source page |
| Pages.NormalizedIndex | 114.py:83-97 | the i-th written page is the i-th source page, oriented |
| Pages.OrientPages | 111.py:84-92 | the page loop hands every page, oriented, to the writer in order |
| Pages.NormalizedAt | 111.py:86-92 | each written page keeps its MediaBox and is turned by 90 exactly when the rule says so |
| Pages.HalfTurnShowsSame | 111.py:86-89 | two quarter turns show the page as it was shown before |
| Pages.LandscapeRuleGivesPortrait | 106.py:79-80 | an upright page never shows as landscape after the width > height rule |
| Pages.NormalizedUprightShowsPortrait | 106.py:75-83 | with the width > height rule, no written page whose source page was upright shows as landscape |
| Pages.RotateEntryIgnored | 111.py:86-89 | the rule reads only the MediaBox, so orienting a landscape page twice turns it twice (180) |
| Pages.AlreadyTurnedPageShownLandscape | 111.py:86-89 | every landscape MediaBox whose /Rotate (an odd multiple of 90) already shows it as portrait is turned again by every rule, and then shows as landscape |
| Pages.WideBranchUnreachable | 114.py:88-94 | for a non-negative height the `w > h * 1.5` branch never fires on a page the `w > h` test did not already turn |
| Pages.WideBranchNegativeHeight | 114.py:88-94 | an example: with a negative height the extra branch does fire |
| Pages.OptimizeRuleExact | 114.py:119-128 | `optimize_timesheet_orientation` turns a page exactly when w > h or w < 0.8·h; the 1.2 branch adds nothing |
| Pages.OptimizeTurnsTallPage | 114.py:125-127 | the optimising rule turns a tall upright page, which then shows as landscape |
| Pages.OptimizeKeepsNearSquarePortrait | 114.py:120-128 | only near-square portrait pages, no taller than 1.25 times their width, are left as they are; A4 and Letter portrait pages are taller and get turned |
| Pages.StandardPortraitTurnedAsWritten | 114.py:125-128 | as written: upright A4 (595×842) and Letter (612×792) pages are turned by the `w < h * 0.8` branch and then show as landscape |
| Pages.OptimizeStandardKeepsPortrait | 114.py:120-128 | corrected rule: every upright portrait page up to twice as tall as wide is kept, A4 and Letter among them, and every landscape MediaBox is still turned |
| Folders.RecognisedHasConverter | 114.py:198-203 | the recognised extensions are exactly those a converter exists for |
| Folders.ExtsWithConverter | 114.py:218-233 | each recognised extension selects the PDF, image or Word converter, and no other extension does |
| Folders.FindWeekFolder | 114.py:162-173 | the early-exit month loop of `find_week_folder` computes `WeekFolder` |
| Folders.FirstWeekInSpec | 114.py:165-173 | over the months in the given order: None exactly when no month is a folder holding `Week {week}`. Otherwise the result is in the first such month |
| Folders.WeekFolderIsFirstMonth | 114.py:162-173 | None when the client root is not a folder or no month holds the week folder. Otherwise the result is the week folder of the least such month in sorted order |
| Folders.WeekFolderIsDir | 114.py:163-172 | a found week folder is a folder under a client root that is a folder |
| Folders.FirstWeekInIsDir | 114.py:171-172 | whatever the month order, a found week folder is a folder |
| Folders.ListRawFiles | 114.py:176-187 | the loop of `list_raw_files` computes `RawFiles` |
| Folders.RawFilesInSound | 114.py:181-186 | every returned path is a listed regular file with a recognised extension |
| Folders.RawFilesInComplete | 114.py:181-186 | every listed regular file with a recognised extension is returned |
| Folders.RawFilesInSorted | 114.py:179-186 | sorted names give sorted paths |
| Folders.RawFilesSpec | 114.py:176-187 | `[]` for a path that is not a folder. Otherwise exactly the recognised regular files of the folder, in sorted order |
| Folders.ScanOne | 114.py:418-431 | one client of the scan gives the item `ScanClient` describes |
| Folders.ScanAll | 105.py:310-321 | the scan gives one item per selected client |
| Folders.ScanAllAt | 105.py:310-321 | item i of the scan is the scan of client i |
| Folders.QuickScan | 114.py:400-431 | the scan loop gives, for each selected client in order, its week folder, its raw files and its estimate, and sums the estimates |
| Folders.ScanClientTasks | 111.py:396-407 | the estimate is 1 when the week folder is missing. Otherwise it is 4 (114.py) or `1 + len(files) + 1 + 1` (111, 106, 108, 103, 105) |
| Folders.ScanEstimateHolds | 106.py:376-388 | every item of `refresh_scan` carries the per-file estimate for its own list of raw files |
| Folders.TotalTasksAtLeastClients | 114.py:421-431 | the total estimate is at least one step per client |
| Prepare.ClassifyListed | 114.py:193-203 | the first loop of `prepare_files_for_merge` / `collect_files_for_merge` computes `Classify`: the invoice candidate and the other recognised files |
| Prepare.ClassifyInvoiceIsLast | 114.py:199-201 | the candidate is the last listed invoice file (any extension for 114/111/106/108, PDF only for the collecting revisions); None exactly when there is none |
| Prepare.ClassifyOthersSound | 114.py:199-203 | every timesheet path comes from a listed timesheet name |
| Prepare.ClassifyOthersComplete | 114.py:199-203 | every listed timesheet name has its path among the timesheets |
| Prepare.ClassifyOthersSorted | 114.py:193 | sorted names give the timesheets in sorted order |
| Prepare.InvoiceIsLastInOrder | 114.py:193-201 | on the sorted listing the candidate is the last invoice file in code-point order |
| Prepare.InvoiceIsLastSorted | 114.py:193-201 | on a sorted listing the candidate is the greatest invoice file, and every invoice file sorts at or below it |
| Prepare.TimesheetsAreTheOtherFiles | 114.py:193-203 | the timesheets are exactly the listed regular files with a recognised extension that are not the invoice, in sorted order |
| Prepare.Dispatch | 114.py:218-236 | PDF, image and Word go to their own converter, each writing only its output. Any other kind fails |
| Prepare.DispatchStep | 114.py:218-236 | the if-chain on the extension computes `Dispatch` |
| Prepare.Convert | 114.py:214-240 | the try block for one file writes only `{root}_rotated.pdf` (`_ready.pdf` in 106/108) or `{root}.pdf` |
| Prepare.ConvertStep | 114.py:214-240 | the try block for one file computes `Convert` |
| Prepare.ConvertDependsOnSource | 111.py:190-214 | whether a conversion succeeds depends only on the source file's content |
| Prepare.ConvertAllFrame | 111.py:188-214 | the conversion loop changes the disk only at its outputs |
| Prepare.NoCollisionFront | 111.py:188-214 | if no output lands on a source, the same holds for a prefix of the sources |
| Prepare.ConvertAllKeepsSurvivors | 111.py:188-214 | fail-open: when no output overwrites a source, the prepared list is the outputs of exactly the files whose conversion succeeds, in sorted order. A failure drops only its own file |
| Prepare.ConvertKeepsDirs | 111.py:190-214 | a conversion creates no folder |
| Prepare.ConvertAllKeepsDirs | 111.py:188-214 | the conversion loop creates no folder |
| Prepare.ConvertEach | 111.py:188-214 | the conversion loop computes `ConvertAll`: the outputs that succeeded, in order, and the disk |
| Prepare.PrepareInvoiceStep | 111.py:170-186 | the invoice block computes `PrepareInvoice` |
| Prepare.UnsupportedInvoice | 111.py:172-182 | 111.py keeps an invoice no converter handles as `{root}_invoice_ready.pdf`, though nothing is written. 106/108 drop it |
| Prepare.PdfInvoiceKept | 111.py:175-176 | 111.py never loses a PDF invoice, because the rotation falls back to a copy |
| Prepare.PdfInvoiceNeedsReader | 106.py:161-174 | 106.py keeps a PDF invoice exactly when PdfReader opens it |
| Prepare.ConvertedInvoiceNeedsConverter | 106.py:157-174 | an image or Word invoice survives only when its converter succeeds |
| Prepare.PrepareFilesForMerge | 114.py:190-245 | the whole of `prepare_files_for_merge` / `collect_files_for_merge` computes `PrepareSpec` for the revision's policy |
| Prepare.ListShape | 111.py:216-220 | the returned list is `[invoice_final]` followed by the prepared timesheets (111, 106, 108 and the collecting revisions), or the timesheets alone (114) |
| Merge.MergePdfs | 114.py:604-613 | the append loop computes `MergedPages` |
| Merge.MergedFailsOnPrefix | 114.py:604-613 | once an append raises, the merge raises |
| Merge.MergedReadable | 114.py:604-613 | the merge succeeds exactly when every input is a PDF that PdfReader opens |
| Merge.MergedAppend | 114.py:604-613 | merging a concatenation concatenates the pages, in order |
| Merge.InvoicePagesFirst | 114.py:604-613 | the merged document of `[invoice] + timesheets` starts with every page of the invoice, followed by the timesheets' pages |
| Merge.OutputNameShape | 114.py:616-617 | the name ends in `.pdf`. With an invoice it starts with the invoice's root; otherwise it starts with the client's name (`{client}_Week_{week}.pdf`, 114.py:643) |
| Merge.MergeInto | 114.py:617-620 | merge and write succeed together. The write touches only the output, whose pages are the merged pages |
| Merge.MergeAndWrite | 106.py:518-528 | the merge block computes `MergeInto` |
| Ledger.FirstMatchFrom | 114.py:674-696 | a found row lies in the scanned range and matches |
| Ledger.FirstMatchFromNone | 111.py:572-575 | the scan finds nothing exactly when no row from k on matches |
| Ledger.FirstMatchFromFirst | 111.py:572-575 | no row before the found one matches |
| Ledger.FirstMatchFromSpec | 111.py:572-575 | the scan from k stops at the first matching row, and finds none only when no row matches |
| Ledger.FirstMatchSpec | 114.py:674-696 | the scan over rows 4..max_row stops at the first client row naming the client, and finds none only when no client row names it |
| Ledger.UpdateLedger | 106.py:542-551 | the row loop with its `break` writes column G of the first matching row, reports whether it found one, and leaves the rest of the sheet as computed by `Updated` |
| Ledger.UpdatedChangesOneCell | 106.py:545-549 | the number of rows and every column-B value stay the same. Every row but the first matching one stays the same, and that row's column G holds the value |
| Ledger.UpdatedIdempotent | 106.py:545-549 | updating twice with the same path is the same as updating once |
| Ledger.SameNamesSameMatch | 106.py:546-547 | the lookup reads column B only |
| Ledger.EmptyCellReadsNone | 106.py:547 | `str(None).strip() == client` matches an empty cell only for a client named "None"; the truthiness test (114, 111) never matches an empty cell |
| Ledger.FoldRuleIsCaseInsensitive | 114.py:676-694 | 114.py's exact-then-lower-cased comparison is one case-insensitive comparison of the stripped names |
| Ledger.RulesOrdered | 111.py:573-575 | a match under 111.py's truthy exact rule is a match under 106.py's rule and, for a stripped client, under 114.py's rule |
| Week.RawLabelFields | 101.py:305-309 | 101, 102, 103, 105 and 110 accept any two non-empty fields and name the folder `Week {mm}-{dd}` from them as given |
| Week.ZFill2Canonical | 114.py:479 | a one- or two-digit field zero-fills to the two-digit form of its value |
| Week.ZFill2One | 114.py:479 | a one-digit field zero-fills to the two-digit form of its value |
| Week.ZFill2Two | 114.py:479 | a two-digit field is already its two-digit form |
| Week.TwoDigitsOf | 114.py:479 | the two-digit form of `a*10 + b` is the digits a and b |
| Week.CheckedLabelCanonical | 114.py:474-479 | a validated date with fields of at most two digits gives the label `MM-DD`, the two-digit forms of the month and the day |
| Week.StripOfPadded | 114.py:474-475 | an example: `strip()` turns the padded fields " 5" and "7 " into "5" and "7" |
| Week.CheckedLabelStripsFields | 114.py:474-479 | an example: white space around the fields is accepted and dropped (" 5", "7 " gives "05-07") |
| Week.CheckedLabelKeepsLongField | 111.py:457-462 | an example: `isdigit` and `int` accept "007" as month 7, and `zfill(2)` keeps all three digits |
| Week.ScanLabelMissesStrip | 114.py:402 | as written: the scan zero-fills the unstripped fields, so month " 5" passes `on_start` as "05-07" while the scan looks for " 5-07" |
| Week.ComboScanLabelMissesZFill | 106.py:374 | as written: month "5", day "7" pass `on_start` as "05-07" while `refresh_scan` looks for "Week 5-7" |
| Week.StripIdempotent | 114.py:474 | stripping twice is stripping once |
| Week.ScanLabelAgreesWithCheck | 114.py:474-479 | corrected scan label: it ignores surrounding white space, equals the `on_start` label whenever that label is accepted, and for two-digit fields is the canonical `MM-DD` |
| Progress.Percent | 114.py:745 | the capped percentage never exceeds 100 |
| Progress.PercentWithinEstimate | 114.py:743-745 | within the estimate the bar never passes 100, the cap changes nothing, and it reaches 100 exactly when every estimated step is done |
| Progress.PercentMonotone | 106.py:578-579 | more steps done never moves the bar back |
| Progress.UncappedOverrun | 111.py:613-614 | an example: without the cap, 5 steps of an estimated 4 show 125 percent; with it, 100 |
| Progress.Session.constructor | 114.py:562-566 | a run starts with the counters and `tasks_done` at zero |
| Progress.Session.Increment | 114.py:741-745 | `tasks_done` grows by exactly one, nothing else changes, and the shown percentage never goes back |
| Progress.Session.Warn | 114.py:589 | `warnings += 1`, nothing else changes |
| Progress.Session.Fail | 114.py:577 | `errors += 1`, nothing else changes |
| Rev114.ProcessClient | 114.py:569-717 | one iteration of the client loop changes the session as `Client` says |
| Rev114.ProcessFound | 114.py:592-711 | a client with a week folder: one step, prepare, one step, merge block, ledger block, `processed_clients += 1` |
| Rev114.MergeBlock | 114.py:600-667 | the merge block computes `MergeStep`: the new state and out_path |
| Rev114.LedgerBlock | 114.py:669-708 | the ledger block computes `LedgerStep` |
| Rev114.MergeThread | 114.py:552-717 | nothing changes and the run is unsuccessful when the workbook cannot be opened. Otherwise the scanned clients are processed in order |
| Rev114.ClientMatchesEstimate | 114.py:421-431 | processed against the disk it was scanned on, a client takes exactly its estimated steps (1 or 4) |
| Rev114.ClientCounters | 114.py:569-717 | one client: processed grows by at most one, merged only with processed, no counter falls, and an unprocessed client always adds a warning or an error. 1 to 4 steps |
| Rev114.FoundCounters | 114.py:592-711 | a client with a week folder is processed once and merged at most once; exactly 3 more steps |
| Rev114.MergeStepCounts | 114.py:600-667 | the merge block takes one step, merges at most once, and changes only merged, warnings and errors |
| Rev114.LedgerStepCounts | 114.py:669-708 | the ledger block takes one step and adds at most a warning |
| Rev114.RunCounters | 114.py:562-717 | over a run from zeroed counters: merged ≤ processed ≤ clients; every client is processed, warned or failed; 1 to 4 steps per client |
| Rev114.RunKeepsNames | 114.py:669-708 | a run never changes column B or the number of rows |
| Rev114.FoundKeepsNames | 114.py:669-708 | one found client never changes column B or the number of rows |
| Rev114.MergeStepOutcome | 114.py:600-667 | no timesheets: out_path "", no file, one warning (also with an invoice). A failing merge: "", no file, one error. A successful merge writes `{invoice root}_.pdf` or `{client}_Week_{week}.pdf`, holding the invoice's pages then the timesheets', and counts it |
| Rev111.ProcessClient | 111.py:510-598 | one iteration of the client loop computes `Client`, carrying out_path between clients |
| Rev111.ProcessFound | 111.py:531-590 | a client with a week folder: one step, prepare, one step per raw file, merge block, ledger block, `processed_clients += 1` |
| Rev111.CountFiles | 111.py:535-542 | one step per raw file counted |
| Rev111.MergeBlock | 111.py:544-567 | the merge block as written computes `MergeStep` |
| Rev111.LedgerBlock | 111.py:569-588 | the ledger block computes `LedgerStep` |
| Rev111.MergeThread | 111.py:493-608 | nothing changes and the run is unsuccessful when the workbook cannot be opened. Otherwise the scanned clients are processed in order |
| Rev111.ClientMatchesEstimate | 111.py:396-407 | a client whose scan listed files takes exactly its estimated steps |
| Rev111.ClientCounters | 111.py:510-598 | one client: processed grows by at most one, merged only with processed, no counter falls, and an unprocessed client adds a warning or an error |
| Rev111.FoundCounters | 111.py:531-590 | a client with a week folder is processed once and merged at most once |
| Rev111.RunCounters | 111.py:493-598 | over a run from zeroed counters: merged ≤ processed ≤ clients, and every client is processed, warned or failed |
| Rev111.StaleOutPathRecorded | 111.py:544-575 | as written: after an earlier merge, a client whose merge raises records that earlier client's path in its own row |
| Rev111.StaleOutPathExample | 111.py:544-575 | a concrete instance: client B's row receives client A's merged file |
| Rev111.FixedRecordsOwnOutput | 114.py:600 | corrected (out_path reset before the merge, as 114.py does): the path recorded for a client is "" or the file its own merge just wrote, holding its merged pages |
| Rev106.ProcessClient | 106.py:489-563 | one iteration of the client loop computes `Client` |
| Rev106.CountFiles | 106.py:511-514 | one step per scanned raw file |
| Rev106.AfterBlock | 106.py:517-556 | the merge block followed by the ledger block |
| Rev106.MergeBlock | 106.py:517-539 | the merge block computes `MergeStep` |
| Rev106.RunMerge | 108.py:474-559 | nothing changes and the run is unsuccessful when the workbook cannot be opened. Otherwise the scanned clients are processed in order |
| Rev106.RunMatchesEstimate | 106.py:376-388 | every client takes exactly the steps `refresh_scan` estimated, whatever happens to its files |
| Rev106.RunEndsAtHundred | 106.py:577-579 | a run over scanned items ends with the bar at exactly 100 |
| Rev106.MergeStepOutcome | 106.py:517-539 | out_path is "" when nothing was prepared or the merge raised. Otherwise it is the written file, which holds the prepared list's pages. The merge takes one step and leaves the sheet alone |
| Rev106.PrepareFailureRecordsBlank | 106.py:503-507 | a week path that is not a folder: nothing is prepared or merged, and the client's row receives "" |
| Rev106.RunKeepsNames | 108.py:531-547 | a run never changes column B or the number of rows |
| Rev103.FirstInvoice | 103.py:474-479 | the search returns a listed name that is a PDF containing "invoice" |
| Rev103.FindInvoice | 105.py:457-461 | the search loop with its `break` computes `FirstInvoice` |
| Rev103.FirstInvoiceSpec | 103.py:474-479 | None exactly when no name qualifies. Otherwise the first qualifying name in listing order |
| Rev103.InvoiceIsFirstInOrder | 103.py:476 | on the sorted listing the invoice is the least qualifying name |
| Rev103.ProcessClient | 103.py:429-535 | one iteration of the client loop computes `Client` for 103.py or 105.py |
| Rev103.ProcessWeek | 103.py:431-527 | a client whose scan found a week folder |
| Rev103.AfterBlock | 103.py:474-527 | the invoice search, merge list, merge and ledger blocks |
| Rev103.ConvertFiles | 103.py:445-472 | each raw file is converted in scan order and counts one step whether it succeeded or not |
| Rev103.MergeBlock | 105.py:464-489 | the merge block computes `MergeStep` for the variant |
| Rev103.LedgerBlock | 103.py:510-527 | the ledger block computes `LedgerStep` |
| Rev103.RunMerge | 105.py:402-521 | nothing changes and the run is unsuccessful when the workbook cannot be opened. Otherwise the scanned clients are processed in order |
| Rev103.MergeClients | 103.py:429-535 | the client loop, with out_path unbound at the start |
| Rev103.ClientMatchesEstimate | 103.py:327-342 | a client whose scanned week path is a folder takes exactly its estimated steps and creates no folder |
| Rev103.RunMatchesEstimate | 105.py:310-321 | over a run whose scanned week folders are folders, the steps total the estimate |
| Rev103.RunEndsAtHundred | 105.py:523-525 | such a run ends with the bar at exactly 100 |
| Rev103.StaleOutPathRecorded | 103.py:487-517 | as written: a client with nothing to merge records the previous client's out_path |
| Rev103.StaleOutPathExample | 103.py:487-517 | a concrete instance: client B's row receives client A's merged file |
| Rev103.RecordsOwnOutput | 105.py:464-498 | 105.py: out_path is "" or the file the client's own merge wrote, whose pages are the merge list's. "" is what the ledger receives |
| Rev103.InvoicePagesLead | 103.py:481-485 | the merged file begins with the invoice's pages |
| Rev103.AfterKeepsNames | 103.py:510-527 | the blocks after conversion never change column B or the number of rows |
| Rev103.ClientKeepsNames | 103.py:429-535 | one client never changes column B or the number of rows |
| Rev103.RunKeepsNames | 105.py:413-513 | a run never changes column B or the number of rows |
| Rev101.AttemptClient | 101.py:337-390 | the try block for one client: it reaches 0 to 3 of the stages (week folder found, something collected, merged), and changes the disk and sheet accordingly |
| Rev101.RunPerClient | 101.py:320-412 | 101.py/102.py: nothing happens when the workbook cannot be opened. Otherwise the clients run in order, and the bar shows one non-decreasing value per client, at most 100 and ending at 100 |
| Rev101.RunPerStage | 110.py:253-326 | 110.py: the same disk and sheet changes. The bar moves once per stage reached, never passes 100 or goes back, and is set to 100 at the end |
| Rev101.StageLoop | 110.py:267-316 | the 110.py client loop, with the values the bar was set to |
| Rev101.CountSteps | 110.py:280-303 | one bar update per stage reached |
| Rev101.Percents | 110.py:328-329 | one bar value per step |
| Rev101.PercentsAt | 110.py:328-329 | the i-th bar value is the percentage after i+1 steps |
| Rev101.ShownWithinEstimate | 110.py:255-303 | within the estimate the bar values never pass 100 and never go back, and the last reaches 100 when every step was taken |
| Rev101.AttemptReachesThree | 101.py:337-390 | a client reaches at most three stages |
| Rev101.AttemptOutcome | 101.py:337-390 | nothing changes without a week folder. An empty list or a raising merge leaves only the conversions and does not touch the sheet. A written merge holds the collected pages, and its path goes to the first row naming the client |
| Rev101.MergedInvoiceFirst | 102.py:177-181 | the collected list leads with the invoice, so the merged file begins with the invoice's pages |
| Rev101.RunSteps | 102.py:415 | 101/102 count exactly one step per client; 110.py at most three |
| Rev101.CountingIsInvisible | 110.py:280-303 | the two ways of counting leave the same disk and sheet |
| Rev101.RunKeepsNames | 101.py:375-387 | a run never changes column B or the number of rows |
| Script.StripAll | Merge_timesheets.py:16 | one stripped part per part |
| Script.StripAllIndex | Merge_timesheets.py:16 | part i of the result is part i of the input, stripped |
| Script.ParseClientsSpec | Merge_timesheets.py:15-16 | one client per comma-separated part. No client holds a comma or has white space at either end |
| Script.ParseClientsRoundTrip | Merge_timesheets.py:15-16 | input whose parts carry no surrounding white space is given back by joining the clients with commas |
| Script.StripKeepsOut | Merge_timesheets.py:16 | stripping adds no character |
| Script.ClassifyFiles | Merge_timesheets.py:59-63 | the listing loop computes `ClassifyListing` |
| Script.SheetsOfAppend | Merge_timesheets.py:62-63 | one more entry is added to the timesheets exactly when it is a recognised non-invoice entry |
| Script.ClassifyListingSpec | Merge_timesheets.py:59-63 | the timesheets are the recognised non-invoice entries in listing order. The invoice is the last `.pdf` entry containing "invoice", None only when there is none |
| Script.ProcessOne | Merge_timesheets.py:77-123 | the try block for one timesheet computes `ProcessSheet` |
| Script.ImageComesOutUpright | Merge_timesheets.py:96-104 | a processed image is never wider than tall and keeps its two sides |
| Script.PagesTurnedWhenWide | Merge_timesheets.py:83-93 | a processed PDF or Word timesheet keeps every page in order, each turned by 90 exactly when its MediaBox is wider than tall (also lines 106-118) |
| Script.ProcessAll | Merge_timesheets.py:77-123 | the timesheet loop computes `ProcessSheets` |
| Script.ProducedPath | Merge_timesheets.py:90-118 | a processed timesheet is `{name}_rotated.pdf` or `{name}.pdf` in the week folder |
| Script.OutputsAtMostSheets | Merge_timesheets.py:71-123 | at most one merge input per timesheet, each the output of a timesheet; failed files are omitted |
| Script.MonthLoop | Merge_timesheets.py:44-139 | the month loop computes `Months`; a raising merge ends the script |
| Script.ProcessMonth | Merge_timesheets.py:45-135 | one month computes `MonthStep` |
| Script.CrashedStays | Merge_timesheets.py:132 | nothing happens after a merge raised |
| Script.CrashEndsMonths | Merge_timesheets.py:132 | a crash in a month leaves the later months unprocessed |
| Script.MonthsSplit | Merge_timesheets.py:44 | the months run in sequence: the run over `a + b` is the run over `b` after the run over `a` |
| Script.NoInvoiceNoMerge | Merge_timesheets.py:65-68 | a week folder with no invoice entry is skipped: nothing is converted or merged |
| Script.MonthMergeShape | Merge_timesheets.py:71-135 | a merged week folder holds `{invoice root}_.pdf`, whose pages are the invoice's followed by the processed timesheets' |
| Script.MergedPathInWeekFolder | Merge_timesheets.py:130-131 | `merged_invoice_path` is unset or the `{invoice root}_.pdf` of an invoice entry in one of the client's week folders |
| Script.ProcessRow | Merge_timesheets.py:30-146 | one ledger row computes `HandleRow` |
| Script.MergeTimesheets | Merge_timesheets.py:15-149 | the script, from the console answers to the save, computes `RunScript`: the clients are the stripped comma-separated parts, and the week name is the stripped answer |
| Script.ProcessRows | Merge_timesheets.py:30-146 | the row loop leaves rows 1 to 3 alone and computes `ClientRows`, stopping when a merge raises |
| Script.ClientRows | Merge_timesheets.py:30-146 | a saved sheet has as many rows as it started with |
| Script.ClientRowsAbortStays | Merge_timesheets.py:132 | once a merge raised, the later rows are not processed |
| Script.HandleRowTouchesOnlySelected | Merge_timesheets.py:31-33 | one row keeps column B, and its column G changes only for a selected client, to a merged `_.pdf` path |
| Script.ClientRowsTouchOnlySelected | Merge_timesheets.py:30-146 | over the rows: column B stays, and column G changes only in selected rows, to a merged path |
| Script.ScriptTouchesOnlySelectedRows | Merge_timesheets.py:26-146 | rows 1 to 3, column B, and every row not selected stay as they were. A selected row's column G is replaced only by a merged file's path (lines 142-143) |
| Script.NoWeekFolderKeepsRow | Merge_timesheets.py:44-50 | a selected row whose client has no month holding the week folder is left unchanged, and so is the disk |
| Script.NoWeekFolderNoChange | Merge_timesheets.py:44-50 | no month holding the week folder: nothing changes |

## Left out

- Threads, `.after(0, …)` scheduling, the lock in 114.py and every widget are left out. A run is modelled as one sequential loop over the clients.
- The float percentage and the ETA are not modelled. The percentage is `done * 100 / max(1, total)` in integers. Float rounding of `int(done / total * 100)` could differ for some values; the 110.py bar (`done / total`) takes `total = 3 * len(clients) > 0`.
- The log files, log panes, the `missing_folders` summary dialog, the recent-merges list and beeps are left out, as are the script's `print` output and its log file.
- `input()` and `tqdm` in the script are left out: the two answers are parameters. openpyxl load and save are reduced to "the workbook opened" (a `bookOpen` flag). A failing `wb.save` is not modelled: the merged files stay on disk either way.
- PyPDF2, PIL and docx2pdf are opaque. A file's content is a PDF (a page list), an image (width and height after EXIF correction), a Word document (the pages Word would export), or unreadable. Each converter is a function of that content that may fail. EXIF correction and the RGB conversion are not modelled.
- `word_to_rotated_pdf`'s temporary `_raw.pdf` is not modelled; Word's export goes straight to rotation. Any effect of the temporary file's removal is left out.
- A `merger.write` that raises after `out_path` was assigned is modelled like an append that raises: nothing is written and the ledger gets the same value as for a failed append. The source differs in three revisions. 114.py (lines 621-622 and 650-651) and 111.py (lines 553-554) record the new, unwritten path in column G, where the model records "" (114) and the previous client's path (111). 103.py (lines 499-500) records the new path where the model keeps the previous one. In 106.py/108.py and 105.py the except branch resets `out_path` to "", as the model does; in 101.py, 102.py, 110.py and the script the exception skips the ledger write, as in the model. A partial file that the write might leave is not modelled either.
- Page sizes are integers. The source compares `float(page.mediabox.width)` and `float(page.mediabox.height)` against the binary floats `h * 1.5`, `h * 1.2` and `h * 0.8` (114.py:86-87, 114.py:117-118); the model's exact tests 2w > 3h, 5w > 6h and 5w < 4h can decide a page on the boundary differently, and fractional MediaBox sizes are not modelled.
- `Disk.Write`: writing into a folder that is not listed still records the file. No revision writes outside a listed week folder.
- Names holding the path separator are not modelled: listing entries are names without a separator.
- `str.lower`, `str.isspace` and `str.isdigit` are modelled on ASCII letters and digits, plus the white-space code points; Unicode case mapping and Unicode digits are left out.
- Column-B cells are empty or text. Numeric cells, which `str()` would render, are not modelled.
- The `pre_scan` dictionary is modelled as a list of items in the order of the selected clients. Selecting the same client twice (a duplicate dictionary key) is not modelled.
- Rev111.ClientMatchesEstimate: it requires a found client's scan to have listed at least one file. When the scan lists none, 111.py lists the folder again (111.py:539) and may count a different number of steps.
- Prepare.ConvertAllKeepsSurvivors: it assumes no output path equals one of the sources (for example `a_rotated.pdf` next to `a.pdf` and `a_rotated.pdf.pdf`). Without that, a later conversion may read a file an earlier one overwrote.
- The script's uncaught exception from `merger.write`/`merger.append` (Merge_timesheets.py:126-133) ends the script before `wb.save`. It is modelled as `Aborted`: the disk as it is, no sheet saved.
- The script's `ProcessRows` requires the sheet to have a client row (row 4 or later); `MergeTimesheets` handles shorter sheets itself.
- The scan's progress updates and `_update_progress_without_increment` (the sub-task bar in 114.py) are display only and are left out.
- The hard-coded folder and workbook paths and the client list are parameters.

## Findings

The revision models follow each file as written: the 114.py policy uses `Optimize12`, and 111.py and 103.py keep their stale `out_path`. The corrected definitions stand beside them with their intended properties proved.

| source | as written | input that shows it | evidently intended | confidence | as-written member | corrected member |
|---|---|---|---|---|---|---|
| 114.py:402, 111.py:392 | the scan label zero-fills the month and day fields without stripping them, while `on_start` strips them first | month " 5", day "07": `on_start` accepts "05-07", the scan looks for "Week  5-07" | strip, then zero-fill, as `on_start` does | medium, not executed | Week.ScanLabelMissesStrip | Week.ScanLabelAgreesWithCheck |
| 106.py:374, 108.py:372 | `refresh_scan` uses the combobox texts as typed, while `on_start` zero-fills them | month "5", day "7": `on_start` accepts "05-07", the scan looks for "Week 5-7" and finds no folder | zero-fill in the scan as well | medium, not executed | Week.ComboScanLabelMissesZFill | Week.ScanLabelAgreesWithCheck |
| 111.py:544-575 | `out_path` is not reset per client, so a failed merge leaves the previous client's path, which the ledger then records | client A merges; client B's only timesheet is not a readable PDF; B's row gets A's file | reset `out_path = ""` before the merge, as 114.py:600 does | high, not executed | Rev111.StaleOutPathExample | Rev111.FixedRecordsOwnOutput |
| 103.py:487-517 | `out_path` is set only by a successful merge, so a client with nothing to merge records the previous client's path (or raises NameError for the first client) | client A merges; client B has no invoice and no convertible file; B's row gets A's file | `out_path = ""` when there is nothing to merge or the merge raises, as 105.py:483-486 does | high, not executed | Rev103.StaleOutPathExample | Rev103.RecordsOwnOutput |
| 114.py:125-128 | `optimize_timesheet_orientation` turns every page taller than 1.25 times its width, while the comment at line 128 says standard A4/Letter ratios are kept as they are | an upright A4 page (595×842) or Letter page (612×792): turned, and merged showing as landscape | keep standard portrait formats: turn only landscape pages and pages much taller than A4 (the model uses twice the width) | medium, not executed | Pages.StandardPortraitTurnedAsWritten | Pages.OptimizeStandardKeepsPortrait |
