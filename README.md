# NeuroScanAI front end: a Dafny model

NeuroScanAI is a React front end for brain-MRI tumour classification. Its
three pages run on mock data. This project models the logic behind them and
proves properties of that model:

- **Analysis history.** The page holds ten mock records and filters them
  by four conjunctive criteria. The filter bar keeps the criteria object and
  the "has active filters" test. The table sorts, pages and selects records.
  The export sidebar keeps its settings and names the exported file.
- **Upload dashboard.** The drop zone accepts or rejects a file and keeps
  a drag counter. The page runs a state machine: validation, a simulated
  upload in steps of ten, processing, completion and the reset handlers.
  The sidebar derives its buttons, and the progress panel its look.
- **Shared components.** The notification list and its toast, the strip
  showing route, breadcrumbs and step circles.
- **Analysis results.** The image viewer's zoom and pan, the result card's
  confidence bands and tumour icon, and the detailed breakdown's key labels
  and tabs.

There is one Dafny module per source file, named after its component.
`Seqs` (JavaScript's `filter` and `slice`), `Text` (ASCII case mapping,
substring search, JavaScript `trim`, decimal rendering), `Options` and
`Palette` (the colour families the components choose between) are shared
helpers. `HistoryFixture` holds the ten mock records.

Components that change state are classes. Each has the source's state
fields and one method per handler. A pending timer becomes a flag, and
the upload intervals and processing timers, of which several can run at
once, become counts; the firing of a timer is a method the environment
calls (`FinishValidation`, `Tick`,
`FinishProcessing`, `BeginExport`/`CompleteExport`). Values the source
takes from the clock or the random generator are method parameters:
notification ids, and the ISO timestamp in the export file name.
Confidence values are `real`. A record's date is the number `yyyymmddhhmm`,
which orders records as their dates do. A zoom factor is a whole number of
quarters.

The model follows what the code does where the page's own text and
controls suggest more:

- `totalPages` is `ceil(n / 10)`, which is 0 for an empty table, while
  the Previous button's `Math.max(1, …)` clamp shows that page 1 is meant
  to be the lowest page. Next as written can reach page 0 (see Findings).
- The sort comparator never returns 0, and records with equal sort keys
  are not given a tie-break.
- The filter bar offers a date-range drop-down, but the history page
  never applies the date-range criterion.

## Model

| member | source | states |
|---|---|---|
| `FilterControls.With` | frontend/src/pages/analysis-history-archive/components/FilterControls.jsx:50-51 | after `{ ...filters, [key]: value }` the changed key holds the new value and every other key is unchanged |
| `FilterControls.Values` | frontend/src/pages/analysis-history-archive/components/FilterControls.jsx:68 | `Object.values` lists every field's value and nothing else |
| `FilterControls.SomeActiveExists` | frontend/src/pages/analysis-history-archive/components/FilterControls.jsx:68 | the `some` scan is true exactly when some value is neither 'all' nor '' |
| `FilterControls.HasActiveFilters` | frontend/src/pages/analysis-history-archive/components/FilterControls.jsx:68 | the Clear button shows exactly when some criterion is neither 'all' nor empty |
| `FilterControls.InitialFiltersInactive` | frontend/src/pages/analysis-history-archive/components/FilterControls.jsx:7-13 | the initial (and cleared) criteria show no Clear button |
| `FilterControls.SingleChangeActivates` | frontend/src/pages/analysis-history-archive/components/FilterControls.jsx:50-68 | from the cleared state, one change shows Clear exactly when the new value is active |
| `FilterControls.FilterControls.constructor` | frontend/src/pages/analysis-history-archive/components/FilterControls.jsx:7-15 | criteria start as '' and four times 'all'; the advanced panel starts hidden |
| `FilterControls.FilterControls.HandleFilterChange` | frontend/src/pages/analysis-history-archive/components/FilterControls.jsx:50-54 | one key changes and the new object is reported to `onFiltersChange` |
| `FilterControls.FilterControls.HandleClearFilters` | frontend/src/pages/analysis-history-archive/components/FilterControls.jsx:56-66 | the defaults return, Clear hides, and `onClearFilters` (not `onFiltersChange`) is called |
| `FilterControls.FilterControls.ToggleAdvancedFilters` | frontend/src/pages/analysis-history-archive/components/FilterControls.jsx:95 | the Filters button flips the advanced panel |
| `HistoryArchive.Ids` | frontend/src/pages/analysis-history-archive/components/HistoryTable.jsx:22 | `data.map(item => item.id)`, position by position |
| `HistoryArchive.FilterRecordsMeaning` | frontend/src/pages/analysis-history-archive/index.jsx:149-189 | the result is an order-preserving subsequence of the records; a record is kept exactly when every active criterion holds |
| `HistoryArchive.BandsPartition` | frontend/src/pages/analysis-history-archive/index.jsx:170-181 | the high, medium and low bands partition the reals; 90 is high and 70 is medium |
| `HistoryArchive.OfferedConfidenceSelectsBand` | frontend/src/pages/analysis-history-archive/index.jsx:169-181 | every confidence option the drop-down offers besides 'all' is recognised by the switch: it keeps a record exactly when the record's confidence lies in the band of that name |
| `HistoryArchive.EveryBandOffered` | frontend/src/pages/analysis-history-archive/components/FilterControls.jsx:35-40 | every confidence lies in the band of an offered option other than 'all' |
| `HistoryArchive.UnofferedConfidenceKeepsAll` | frontend/src/pages/analysis-history-archive/index.jsx:169-181 | a level the drop-down does not offer falls through the switch and keeps every record |
| `HistoryArchive.FilterIgnoresDateRange` | frontend/src/pages/analysis-history-archive/index.jsx:149-190 | changing only the date range never changes the result |
| `HistoryArchive.FilterInitialKeepsAll` | frontend/src/pages/analysis-history-archive/index.jsx:154-187 | the initial criteria keep every record |
| `HistoryArchive.FilterIdempotent` | frontend/src/pages/analysis-history-archive/index.jsx:152-189 | filtering an already filtered list with the same criteria changes nothing |
| `HistoryArchive.PassOrderIrrelevant` | frontend/src/pages/analysis-history-archive/index.jsx:154-187 | the four successive passes give the conjunctive filter, in the source's order and in reverse |
| `HistoryArchive.ApplyFilters` | frontend/src/pages/analysis-history-archive/index.jsx:152-189 | the pass-by-pass reassignment of `filtered` ends with exactly the records matching every active criterion |
| `HistoryArchive.ArchivePage.constructor` | frontend/src/pages/analysis-history-archive/index.jsx:145-147 | after mounting, the page shows the whole fixture and holds no criteria |
| `HistoryArchive.ArchivePage.HandleFiltersChange` | frontend/src/pages/analysis-history-archive/index.jsx:149-190 | the criteria are remembered and the shown records are the full fixture filtered by them, never the previous result |
| `HistoryArchive.ArchivePage.HandleClearFilters` | frontend/src/pages/analysis-history-archive/index.jsx:192-195 | the full fixture returns and the remembered criteria become empty |
| `HistoryArchive.OnlyConfidence` | frontend/src/pages/analysis-history-archive/index.jsx:170-181 | with only a confidence level set, the filter is that band's pass |
| `HistoryArchive.OnlySearch` | frontend/src/pages/analysis-history-archive/index.jsx:155-161 | with only a query set, the filter is the search pass |
| `HistoryArchive.SearchPassIsHit` | frontend/src/pages/analysis-history-archive/index.jsx:155-161 | a non-empty query keeps a record exactly when its lower-cased form occurs in the lower-cased patient id, file name or notes |
| `HistoryArchive.HighBandSpotCheck` | frontend/src/pages/analysis-history-archive/index.jsx:22-143 | on the fixture, the high band alone keeps ids 1, 3, 4, 7 and 10 |
| `HistoryArchive.HighBandOnFixture` | frontend/src/pages/analysis-history-archive/index.jsx:172-173 | the high-band pass over the fixture keeps ids 1, 3, 4, 7 and 10 |
| `HistoryArchive.SearchSpotCheck` | frontend/src/pages/analysis-history-archive/index.jsx:155-161 | on the fixture, the query "PT-2024-008" (any case) alone keeps only id 8 |
| `HistoryArchive.SearchOnFixture` | frontend/src/pages/analysis-history-archive/index.jsx:22-143 | the search pass for that query keeps only id 8 of the fixture |
| `HistoryTable.NextSort` | frontend/src/pages/analysis-history-archive/components/HistoryTable.jsx:12-18 | the clicked key becomes the sort key; the direction is descending exactly when that key was sorted ascending |
| `HistoryTable.SortClicksAlternate` | frontend/src/pages/analysis-history-archive/components/HistoryTable.jsx:12-18 | a new key starts ascending; repeated clicks on one key alternate the direction with period two |
| `HistoryTable.SortRecords` | frontend/src/pages/analysis-history-archive/components/HistoryTable.jsx:70 | the sorted copy is a permutation of the records |
| `HistoryTable.SortRecordsCorrect` | frontend/src/pages/analysis-history-archive/components/HistoryTable.jsx:70-75 | the sorted copy has the same records and is ordered by the comparator for both directions |
| `HistoryTable.SortedByKey` | frontend/src/pages/analysis-history-archive/components/HistoryTable.jsx:70-75 | by confidence or by date: non-decreasing when ascending, non-increasing when descending |
| `HistoryTable.SortKeepsSorted` | frontend/src/pages/analysis-history-archive/components/HistoryTable.jsx:70-75 | records already in order come back unchanged |
| `HistoryTable.FixtureByDateDescending` | frontend/src/pages/analysis-history-archive/components/HistoryTable.jsx:7 | in the table's initial order (date, newest first) the fixture is unchanged, from record 1 to record 10 |
| `HistoryTable.TotalPages` | frontend/src/pages/analysis-history-archive/components/HistoryTable.jsx:82 | the least page count whose pages hold all records, so 0 for none |
| `HistoryTable.PageItemsWindow` | frontend/src/pages/analysis-history-archive/components/HistoryTable.jsx:77-80 | page p holds exactly the records at positions (p-1)·10 to p·10 that exist, never more than ten |
| `HistoryTable.PagesCoverAll` | frontend/src/pages/analysis-history-archive/components/HistoryTable.jsx:77-82 | pages 1 to `totalPages` laid end to end give back the sorted records |
| `HistoryTable.PrevPage` | frontend/src/pages/analysis-history-archive/components/HistoryTable.jsx:338 | Previous never goes below page 1 and otherwise steps back one |
| `HistoryTable.NextPageAsWritten` | frontend/src/pages/analysis-history-archive/components/HistoryTable.jsx:368 | Next as written never exceeds `totalPages` and otherwise steps forward one |
| `HistoryTable.NextOnEmptyTableGoesToPageZero` | frontend/src/pages/analysis-history-archive/components/HistoryTable.jsx:368-369 | on an empty table, Next as written moves to page 0, labelled "Showing -9 to 0 of 0" |
| `HistoryTable.NextPage` | frontend/src/pages/analysis-history-archive/components/HistoryTable.jsx:368 | the corrected Next stays at page 1 or later, and within `totalPages` when there is a page |
| `HistoryTable.NextPageAgrees` | frontend/src/pages/analysis-history-archive/components/HistoryTable.jsx:368 | the corrected and written Next agree whenever there is at least one page |
| `HistoryTable.PageButtons` | frontend/src/pages/analysis-history-archive/components/HistoryTable.jsx:345-346 | the number buttons are pages 1 to min(5, `totalPages`) |
| `HistoryTable.RangeLabelMatchesPage` | frontend/src/pages/analysis-history-archive/components/HistoryTable.jsx:330 | on an existing page, the label's first and last numbers are the 1-based positions of the first and last rows shown |
| `HistoryTable.ConfidenceToneMatchesBands` | frontend/src/pages/analysis-history-archive/components/HistoryTable.jsx:54-58 | the confidence colour uses the filter's cut-offs: success for high, warning for medium, error for low |
| `HistoryTable.DeselectMeaning` | frontend/src/pages/analysis-history-archive/components/HistoryTable.jsx:32 | deselecting removes every copy of the id and keeps the other ids in order |
| `HistoryTable.Table.constructor` | frontend/src/pages/analysis-history-archive/components/HistoryTable.jsx:6-9 | the table starts sorted by date descending, with nothing selected, on page 1 |
| `HistoryTable.Table.ReceiveData` | frontend/src/pages/analysis-history-archive/components/HistoryTable.jsx:6 | new records replace the old ones; the page number is kept |
| `HistoryTable.Table.HandleSort` | frontend/src/pages/analysis-history-archive/components/HistoryTable.jsx:12-18 | the sort configuration takes the header-click step |
| `HistoryTable.Table.HandleSelectAll` | frontend/src/pages/analysis-history-archive/components/HistoryTable.jsx:20-26 | checking selects the ids of all records on every page and checks the header; unchecking empties the selection |
| `HistoryTable.Table.HandleSelectItem` | frontend/src/pages/analysis-history-archive/components/HistoryTable.jsx:28-34 | checking appends the id; unchecking removes every copy of it |
| `HistoryTable.Table.HandlePrevious` | frontend/src/pages/analysis-history-archive/components/HistoryTable.jsx:338 | the page takes the Previous step |
| `HistoryTable.Table.HandleNextAsWritten` | frontend/src/pages/analysis-history-archive/components/HistoryTable.jsx:368 | the page takes the Next step as written: within `totalPages` and at page 1 or later when there is a page, and page 0 when there is none |
| `HistoryTable.Table.HandleNext` | frontend/src/pages/analysis-history-archive/components/HistoryTable.jsx:368 | the page takes the corrected Next step: always page 1 or later, and within `totalPages` when there is a page |
| `HistoryTable.EmptyTableNextAsWritten` | frontend/src/pages/analysis-history-archive/components/HistoryTable.jsx:326-370 | on a table with no records, one click on Next as written moves to page 0, labelled "Showing -9 to 0 of 0" |
| `HistoryTable.EmptyTableNext` | frontend/src/pages/analysis-history-archive/components/HistoryTable.jsx:368 | the same click with the corrected Next stays on page 1 |
| `HistoryTable.Table.HandlePageButton` | frontend/src/pages/analysis-history-archive/components/HistoryTable.jsx:350 | a number button moves to its page |
| `ExportSidebar.ApplyChangesOneKey` | frontend/src/pages/analysis-history-archive/components/ExportSidebar.jsx:47-49 | a control's change gives its setting the reported value, leaves the other six settings as they were, and repeating it changes nothing more |
| `ExportSidebar.ExportFilenameParts` | frontend/src/pages/analysis-history-archive/components/ExportSidebar.jsx:40 | the file name is "neuroscan_export_", then the timestamp's date part before 'T', then "." and the format |
| `ExportSidebar.Sidebar.constructor` | frontend/src/pages/analysis-history-archive/components/ExportSidebar.jsx:7-17 | settings start as csv, no images, metadata and scores on, every date, no custom dates; not exporting |
| `ExportSidebar.Sidebar.Open` | frontend/src/pages/analysis-history-archive/index.jsx:197-199 | the page's Export button opens the sidebar |
| `ExportSidebar.Sidebar.HandleConfigChange` | frontend/src/pages/analysis-history-archive/components/ExportSidebar.jsx:47-49 | the settings take the one-setting change |
| `ExportSidebar.Sidebar.BeginExport` | frontend/src/pages/analysis-history-archive/components/ExportSidebar.jsx:33-37 | the busy flag goes up and the settings of that render are kept for the export |
| `ExportSidebar.Sidebar.CompleteExport` | frontend/src/pages/analysis-history-archive/components/ExportSidebar.jsx:39-45 | the file is named with the kept format, the busy flag drops and the sidebar closes |
| `FileUploadZone.SubtypeNames` | frontend/src/pages/mri-upload-dashboard/components/FileUploadZone.jsx:59 | one upper-cased subtype per accepted format, in order |
| `FileUploadZone.RoundMiB` | frontend/src/pages/mri-upload-dashboard/components/FileUploadZone.jsx:68 | the byte count in MiB rounded half up, with both rounding bounds |
| `FileUploadZone.SelectOutcome` | frontend/src/pages/mri-upload-dashboard/components/FileUploadZone.jsx:54-74 | a file is accepted unchanged exactly when its type is listed and its size is at most the maximum; a wrong type gets the format message whatever the size; a listed type that is too large gets the size message |
| `FileUploadZone.DefaultFormatNames` | frontend/src/pages/mri-upload-dashboard/components/FileUploadZone.jsx:7-59 | with the default formats the message names "JPEG or PNG" |
| `FileUploadZone.DefaultSizeMessage` | frontend/src/pages/mri-upload-dashboard/components/FileUploadZone.jsx:65-71 | with the default maximum of 10·1024·1024 bytes the size message says "10MB" |
| `FileUploadZone.UploadZone.constructor` | frontend/src/pages/mri-upload-dashboard/components/FileUploadZone.jsx:5-14 | the zone keeps its props; the highlight is off and the counter is 0 |
| `FileUploadZone.UploadZone.SetDisabled` | frontend/src/pages/mri-upload-dashboard/index.jsx:222 | the page disables the zone by re-rendering it |
| `FileUploadZone.UploadZone.HandleDragEnter` | frontend/src/pages/mri-upload-dashboard/components/FileUploadZone.jsx:17-24 | the counter rises by one; the highlight turns on only for a drag carrying items |
| `FileUploadZone.UploadZone.HandleDragLeave` | frontend/src/pages/mri-upload-dashboard/components/FileUploadZone.jsx:26-33 | the counter falls by one; the highlight goes off when the count before the leave was at most one |
| `FileUploadZone.UploadZone.HandleDrop` | frontend/src/pages/mri-upload-dashboard/components/FileUploadZone.jsx:40-52 | a drop always resets the highlight and the counter; a disabled zone or an empty drop selects nothing, otherwise only the first file is checked |
| `FileUploadZone.UploadZone.HandleFileInputChange` | frontend/src/pages/mri-upload-dashboard/components/FileUploadZone.jsx:76-81 | the first chosen file, if any, is checked |
| `FileUploadZone.UploadZone.HandleBrowseClick` | frontend/src/pages/mri-upload-dashboard/components/FileUploadZone.jsx:83-87 | the picker opens exactly when the zone is not disabled |
| `FileUploadZone.NestedDrag` | frontend/src/pages/mri-upload-dashboard/components/FileUploadZone.jsx:17-33 | entering the zone and a child and leaving them in turn keeps the highlight on until the second leave, ending at counter 0 |
| `UploadDashboard.Validate` | frontend/src/pages/mri-upload-dashboard/index.jsx:28-63 | "File Too Large" exactly when the size exceeds 10 MiB, "Invalid File Format" exactly when the type is not JPEG or PNG, in that order; one message per failed check, so a single failed check gives exactly its message; valid exactly when neither, and then only "File Validated" |
| `UploadDashboard.ZoneAgreesWithValidation` | frontend/src/pages/mri-upload-dashboard/index.jsx:33-51 | the drop zone with its defaults accepts exactly the files the validation calls valid |
| `UploadDashboard.TickProgress` | frontend/src/pages/mri-upload-dashboard/index.jsx:120-146 | below 100 the progress rises by exactly ten; from 100 on it stays 100 |
| `UploadDashboard.ProgressAfterTicks` | frontend/src/pages/mri-upload-dashboard/index.jsx:119-148 | from 0, n steps give 10·n up to ten steps and 100 after; the progress never leaves [0, 100] |
| `UploadDashboard.Dashboard.constructor` | frontend/src/pages/mri-upload-dashboard/index.jsx:15-20 | no file, progress 0, status 'idle', validation 'idle', no messages, no error, no timer |
| `UploadDashboard.Dashboard.HandleFileSelect` | frontend/src/pages/mri-upload-dashboard/index.jsx:70-94 | an error clears the file, validation and messages and records the message; a file is stored with status 'idle', progress 0 and its validation pending |
| `UploadDashboard.Dashboard.FinishValidation` | frontend/src/pages/mri-upload-dashboard/index.jsx:28-64 | the pending validation ends 'valid' exactly when the file passes both checks, with only the success message, and 'invalid' otherwise |
| `UploadDashboard.Dashboard.HandleClearFileAsWritten` | frontend/src/pages/mri-upload-dashboard/index.jsx:96-109 | the six fields are reset, but a running upload interval or processing timer keeps running |
| `UploadDashboard.Dashboard.HandleClearFile` | frontend/src/pages/mri-upload-dashboard/index.jsx:96-109 | the corrected clear resets the six fields, stops every timer, and leaves the page coherent |
| `UploadDashboard.Dashboard.HandleAnalyze` | frontend/src/pages/mri-upload-dashboard/index.jsx:111-119 | nothing changes without a selected, validated file; otherwise the upload starts at 0 and one more interval runs, beside any interval still running |
| `UploadDashboard.Dashboard.Tick` | frontend/src/pages/mri-upload-dashboard/index.jsx:119-148 | one firing of a running interval steps the shared progress; the firing that finds 100 stops that interval, moves to 'processing' and starts one more processing timer |
| `UploadDashboard.Dashboard.FinishProcessing` | frontend/src/pages/mri-upload-dashboard/index.jsx:126-142 | each pending processing timer, when it fires, sets 'completed' and posts one "Analysis Complete" notice |
| `UploadDashboard.Dashboard.HandleRetry` | frontend/src/pages/mri-upload-dashboard/index.jsx:161-165 | status 'idle' and progress 0, then the analyse guard |
| `UploadDashboard.RetryNeverOffered` | frontend/src/pages/mri-upload-dashboard/index.jsx:150-158 | no handler reaches 'error', so the sidebar never shows Retry |
| `UploadDashboard.AnalyzeEnabledWhilePending` | frontend/src/pages/mri-upload-dashboard/index.jsx:112 | while validation is pending the Analyze button is enabled, yet the click is ignored |
| `UploadDashboard.ClearDuringUploadAsWritten` | frontend/src/pages/mri-upload-dashboard/index.jsx:96-148 | removing the file during an upload, with the clear as written, ends 'completed' with no file and the "Analysis Complete" notice |
| `UploadDashboard.ClearDuringUpload` | frontend/src/pages/mri-upload-dashboard/index.jsx:96-148 | the same events with the corrected clear end 'idle' with no file and no notice |
| `UploadDashboard.SecondAnalyzeAsWritten` | frontend/src/pages/mri-upload-dashboard/index.jsx:96-148 | after the as-written clear during an upload, a new file and a second Analyze click leave two intervals running, both stepping the same progress |
| `UploadDashboard.SecondAnalyze` | frontend/src/pages/mri-upload-dashboard/index.jsx:96-148 | the same events with the corrected clear leave exactly one interval running |
| `UploadSidebar.NoErrorsMeaning` | frontend/src/pages/mri-upload-dashboard/components/UploadSidebar.jsx:17 | the filtered error list is empty exactly when no message is an error |
| `UploadSidebar.CanAnalyzeMeaning` | frontend/src/pages/mri-upload-dashboard/components/UploadSidebar.jsx:16-18 | analysis can start exactly for a file, in 'idle', with no error message, and never while uploading |
| `UploadSidebar.AnalyzeDisabledIsCannotAnalyze` | frontend/src/pages/mri-upload-dashboard/components/UploadSidebar.jsx:124 | Analyze is disabled exactly when analysis cannot start |
| `UploadSidebar.ButtonsFor` | frontend/src/pages/mri-upload-dashboard/components/UploadSidebar.jsx:118-155 | when Analyze is enabled, Clear is shown and enabled and Retry is hidden |
| `UploadSidebar.ButtonsMeaning` | frontend/src/pages/mri-upload-dashboard/components/UploadSidebar.jsx:118-155 | Clear is shown exactly with a file and enabled only when not uploading; Retry is shown exactly in 'error' |
| `UploadSidebar.StatusMessageDefault` | frontend/src/pages/mri-upload-dashboard/components/UploadSidebar.jsx:56-59 | any status but the four named ones reads "Ready for upload" |
| `UploadSidebar.EstimatedTime` | frontend/src/pages/mri-upload-dashboard/components/UploadSidebar.jsx:60 | an estimate is given exactly while uploading or processing |
| `UploadSidebar.MessageTone` | frontend/src/pages/mri-upload-dashboard/components/UploadSidebar.jsx:75-78 | a message is red, amber or green, and green for every type other than error and warning |
| `UploadProgress.StatusLookTotal` | frontend/src/pages/mri-upload-dashboard/components/UploadProgress.jsx:11-84 | the four named statuses get four distinct looks; any other status gets the neutral "Ready" look |
| `UploadProgress.BarWidth` | frontend/src/pages/mri-upload-dashboard/components/UploadProgress.jsx:120 | the bar width is the progress clamped to [0, 100] |
| `UploadProgress.AtMostOneNote` | frontend/src/pages/mri-upload-dashboard/components/UploadProgress.jsx:125-159 | at most one note shows, the current status's, and one shows exactly for the four named statuses |
| `NotificationToast.StampDefaults` | frontend/src/components/ui/NotificationToast.jsx:229-234 | a new entry defaults to 'info' and not persistent; fields the caller supplies win |
| `NotificationToast.WithoutMeaning` | frontend/src/components/ui/NotificationToast.jsx:240-242 | removal drops every entry with the id and keeps the others in order |
| `NotificationToast.WithoutAbsent` | frontend/src/components/ui/NotificationToast.jsx:240-242 | removing an id no entry carries changes nothing |
| `NotificationToast.PresetPersistence` | frontend/src/components/ui/NotificationToast.jsx:249-291 | upload errors and system alerts persist; upload successes and completed analyses do not |
| `NotificationToast.AutoDismissOnlyTransient` | frontend/src/components/ui/NotificationToast.jsx:16-28 | auto-dismiss is scheduled for exactly the non-persistent entries, and for none when the duration is not positive |
| `NotificationToast.UnknownPositionIsTopRight` | frontend/src/components/ui/NotificationToast.jsx:35-52 | an unknown position is placed like 'top-right' |
| `NotificationToast.StyleOfKinds` | frontend/src/components/ui/NotificationToast.jsx:54-111 | any type other than the five named ones gets the neutral bell style |
| `NotificationToast.Store.constructor` | frontend/src/components/ui/NotificationToast.jsx:225 | the list starts empty |
| `NotificationToast.Store.AddNotification` | frontend/src/components/ui/NotificationToast.jsx:227-238 | exactly one entry is appended and earlier entries are unchanged; the generated id is returned, and it is the entry's id unless the caller supplied one |
| `NotificationToast.Store.RemoveNotification` | frontend/src/components/ui/NotificationToast.jsx:240-242 | the list loses every entry with the id |
| `NotificationToast.Store.ClearAllNotifications` | frontend/src/components/ui/NotificationToast.jsx:244-246 | the list becomes empty |
| `NotificationToast.Store.ShowUploadSuccess` | frontend/src/components/ui/NotificationToast.jsx:249-256 | appends a transient success entry |
| `NotificationToast.Store.ShowAnalysisComplete` | frontend/src/components/ui/NotificationToast.jsx:258-272 | appends a transient 'medical' entry |
| `NotificationToast.Store.ShowUploadError` | frontend/src/components/ui/NotificationToast.jsx:274-282 | appends a persistent error entry |
| `NotificationToast.Store.ShowSystemAlert` | frontend/src/components/ui/NotificationToast.jsx:284-291 | appends a persistent warning entry |
| `NotificationToast.Toast.constructor` | frontend/src/components/ui/NotificationToast.jsx:10 | the toast starts with nothing visible |
| `NotificationToast.Toast.ReceiveNotifications` | frontend/src/components/ui/NotificationToast.jsx:12-14 | a new list from the page replaces the visible one |
| `NotificationToast.Toast.HandleDismiss` | frontend/src/components/ui/NotificationToast.jsx:30-33 | the entry is hidden and the same id is passed to `onDismiss` |
| `ImageViewer.ZoomedIn` | frontend/src/pages/analysis-results-display/components/MRIImageViewer.jsx:15-17 | zooming in gives min(z + 0.25, 3) |
| `ImageViewer.ZoomedOut` | frontend/src/pages/analysis-results-display/components/MRIImageViewer.jsx:19-21 | zooming out gives max(z − 0.25, 0.5) |
| `ImageViewer.ZoomLabel` | frontend/src/pages/analysis-results-display/components/MRIImageViewer.jsx:121 | the label is z·100, always a multiple of 25 |
| `ImageViewer.ZoomButtons` | frontend/src/pages/analysis-results-display/components/MRIImageViewer.jsx:151-158 | a zoom button is disabled exactly when pressing it would change nothing, and never both at once |
| `ImageViewer.Viewer.constructor` | frontend/src/pages/analysis-results-display/components/MRIImageViewer.jsx:7-11 | zoom 1, at the origin, not dragging, not full screen |
| `ImageViewer.Viewer.HandleZoomIn` | frontend/src/pages/analysis-results-display/components/MRIImageViewer.jsx:15-17 | the zoom takes the zoom-in step and stays within [0.5, 3] |
| `ImageViewer.Viewer.HandleZoomOut` | frontend/src/pages/analysis-results-display/components/MRIImageViewer.jsx:19-21 | the zoom takes the zoom-out step and stays within [0.5, 3] |
| `ImageViewer.Viewer.HandleResetView` | frontend/src/pages/analysis-results-display/components/MRIImageViewer.jsx:23-26 | zoom 1 at (0, 0) |
| `ImageViewer.Viewer.HandleMouseDown` | frontend/src/pages/analysis-results-display/components/MRIImageViewer.jsx:28-36 | a drag starts only when zoomed in, remembering the cursor less the position |
| `ImageViewer.Viewer.HandleMouseMove` | frontend/src/pages/analysis-results-display/components/MRIImageViewer.jsx:38-45 | while dragging zoomed in, the position becomes the cursor less the drag start; otherwise it stays |
| `ImageViewer.Viewer.HandleMouseUp` | frontend/src/pages/analysis-results-display/components/MRIImageViewer.jsx:47-49 | dragging stops |
| `ImageViewer.Viewer.ToggleFullscreen` | frontend/src/pages/analysis-results-display/components/MRIImageViewer.jsx:51-53 | full screen flips |
| `ImageViewer.Viewer.PressAndMove` | frontend/src/pages/analysis-results-display/components/MRIImageViewer.jsx:28-45 | a press then a move shifts the image by exactly the cursor's displacement when zoomed in, and not at all otherwise |
| `ResultCard.ConfidenceColor` | frontend/src/pages/analysis-results-display/components/ResultCard.jsx:5-9 | success exactly from 80, warning exactly from 60 below 80, error exactly below 60 |
| `ResultCard.BandsAgree` | frontend/src/pages/analysis-results-display/components/ResultCard.jsx:105-113 | the card's colours, the High/Moderate/Low label and the bar colour name the same band, and the style default is never reached |
| `ResultCard.StyleToneDefault` | frontend/src/pages/analysis-results-display/components/ResultCard.jsx:11-47 | the style mapping is total: any other colour name gets the secondary style |
| `ResultCard.TumorIconIgnoresCase` | frontend/src/pages/analysis-results-display/components/ResultCard.jsx:49-50 | the icon depends only on the lower-cased name |
| `ResultCard.UnknownLengthIcon` | frontend/src/pages/analysis-results-display/components/ResultCard.jsx:49-62 | a name of any length other than the four known names' lengths gets AlertCircle |
| `ResultCard.PituitaryAdenomaIcon` | frontend/src/pages/analysis-results-display/index.jsx:61 | the mock result "Pituitary Adenoma" gets AlertCircle |
| `ResultCard.GliomaIcon` | frontend/src/pages/analysis-results-display/components/ResultCard.jsx:51-52 | "Glioma" gets the Brain icon |
| `ActiveStateIndicator.StepOf` | frontend/src/components/ui/ActiveStateIndicator.jsx:13-46 | upload is step 1, results step 2, history step 3 |
| `ActiveStateIndicator.KnownRouteTrail` | frontend/src/components/ui/ActiveStateIndicator.jsx:14-46 | on each known page the trail starts at the dashboard and ends at that page, the only active crumb |
| `ActiveStateIndicator.UnknownRoute` | frontend/src/components/ui/ActiveStateIndicator.jsx:47-54 | any other path gives step 1, no breadcrumbs and the title "NeuroScan AI" |
| `ActiveStateIndicator.BreadcrumbsShownMeaning` | frontend/src/components/ui/ActiveStateIndicator.jsx:63 | breadcrumbs are drawn exactly when asked for on a known page |
| `ActiveStateIndicator.CrumbTarget` | frontend/src/components/ui/ActiveStateIndicator.jsx:77 | a click leads to the crumb's path exactly when the crumb is not active |
| `ActiveStateIndicator.Circles` | frontend/src/components/ui/ActiveStateIndicator.jsx:110-113 | one circle per step; circle i is active exactly when i is the current step, completed exactly when it is earlier |
| `ActiveStateIndicator.CirclesMeaning` | frontend/src/components/ui/ActiveStateIndicator.jsx:110-113 | no circle is both; for a drawn current step exactly one is active and all before it are completed |
| `DetailedBreakdown.SpacedLength` | frontend/src/pages/analysis-results-display/components/DetailedBreakdown.jsx:204 | inserting the spaces adds one character per capital |
| `DetailedBreakdown.UnspacedSpaced` | frontend/src/pages/analysis-results-display/components/DetailedBreakdown.jsx:204 | deleting the spaces again gives back a key that had none |
| `DetailedBreakdown.SpacedChars` | frontend/src/pages/analysis-results-display/components/DetailedBreakdown.jsx:204 | the spaced key adds only spaces |
| `DetailedBreakdown.LabelShape` | frontend/src/pages/analysis-results-display/components/DetailedBreakdown.jsx:204 | for a key without whitespace, trimming removes only the space before a leading capital |
| `DetailedBreakdown.LabelUnspaced` | frontend/src/pages/analysis-results-display/components/DetailedBreakdown.jsx:204 | deleting the spaces from the label gives back a key without whitespace |
| `DetailedBreakdown.LabelLength` | frontend/src/pages/analysis-results-display/components/DetailedBreakdown.jsx:204 | label length is key length plus the capitals, less one for a leading capital |
| `DetailedBreakdown.LabelNoUpper` | frontend/src/pages/analysis-results-display/components/DetailedBreakdown.jsx:204 | a key without whitespace or capitals is its own label |
| `DetailedBreakdown.LowerLabel` | frontend/src/pages/analysis-results-display/components/DetailedBreakdown.jsx:204 | a key of lower-case letters is its own label |
| `DetailedBreakdown.VoxelSizeLabel` | frontend/src/pages/analysis-results-display/components/DetailedBreakdown.jsx:204 | "voxelSize" is labelled "voxel Size" |
| `DetailedBreakdown.DimensionsLabel` | frontend/src/pages/analysis-results-display/components/DetailedBreakdown.jsx:204 | "dimensions" is labelled "dimensions" |
| `DetailedBreakdown.Breakdown.constructor` | frontend/src/pages/analysis-results-display/components/DetailedBreakdown.jsx:6 | the first tab is 'model-insights' |
| `DetailedBreakdown.Breakdown.SelectTab` | frontend/src/pages/analysis-results-display/components/DetailedBreakdown.jsx:339 | a click makes the clicked tab active |
| `DetailedBreakdown.Breakdown.SectionsMeaning` | frontend/src/pages/analysis-results-display/components/DetailedBreakdown.jsx:356-358 | exactly the active tab's section is drawn for a known tab, and none otherwise |

## Left out

- main.py is not part of this model. It is the inference endpoint, with model download, image decoding and floating-point classification.
- FilePreview.jsx is not part of this model, except that its remove button calls the clear handler and is never disabled. The rest is file-size formatting in floating point and object-URL handling.
- Timers are not timed. Each firing is a method the environment calls, in whatever order it chooses. Running intervals are counted but not told apart: each is the same closure, so one firing of any of them is one `Tick`.
- The viewer's document-level listeners, which see the zoom and drag start of the render that attached them, are not modelled. The model applies each event to the current state.
- The toast's auto-dismiss effect returns its cleanup from inside `forEach`, so no timer is ever cleared. The model states which ids get a timer (`AutoDismissIds`), not when they fire.
- Notification actions and their callbacks, the page's navigation timers and the reanalysis and report notices of the history page are not modelled.
- Locale date rendering is left out. Date-range filtering is left out because the source never applies it, and the custom date inputs are unbound.
- `Lower`, `Upper`: case mapping covers ASCII letters only. JavaScript maps every Unicode letter.
- `SortRecords`: equal keys are placed by a stable insertion sort. The source's comparator never returns 0, so the engine's order of ties is unspecified. The contracts state only the permutation and the key order, which hold for any order of ties.
- `FormatMessage`, `Select`: require every accepted format to contain '/'. Without one, the source's `split('/')[1]` is undefined and upper-casing it throws.
- CSS classes, icon components, charts, the history metrics and the static fixtures of the results page are not modelled; the colour families are kept as `Tone`.
- The export sidebar's `selectedItems` is always the empty list, because the history page never updates it. The export's log line is not modelled.
- `RoundMiB`, `BarWidth`: sizes and progress are whole numbers. Fractional values, which the source would accept, are not modelled.

## Findings

| source | as written | input that shows it | evidently intended | confidence | as-written member | corrected member |
|---|---|---|---|---|---|---|
| frontend/src/pages/analysis-history-archive/components/HistoryTable.jsx:368 | Next sets the page to `Math.min(totalPages, currentPage + 1)`. With no records `totalPages` is 0, and the button stays enabled because `1 === 0` is false | filter so that no record matches, then click Next: the page becomes 0 and the label reads "Showing -9 to 0 of 0 results" | the page stays at 1 or later, as Previous guarantees with its `Math.max(1, …)` | high, not executed | `HistoryTable.EmptyTableNextAsWritten` | `HistoryTable.EmptyTableNext` |
| frontend/src/pages/mri-upload-dashboard/index.jsx:96-109 | `handleClearFile` resets the state but does not stop the upload interval or the processing timer. The preview's remove button calls it and is never disabled | select a valid file, validate it, click Analyze, then remove the file after the first progress step: the interval climbs from 0 to 100, then the page reaches 'completed' with no file and announces "Analysis Complete". A new file and a second Analyze click meanwhile start a second interval beside the first | clearing the file stops the upload, and the page stays idle | medium, not executed | `UploadDashboard.ClearDuringUploadAsWritten` | `UploadDashboard.ClearDuringUpload` |
