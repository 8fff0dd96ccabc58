# Project tracker core, modelled in Dafny

The project tracker is a desktop time tracker for a course-production team.
Everything lives in one shared data folder:

- a team file holds the roster, the work types, the statuses and the project-field definitions;
- `projects/<file id>.json` holds one project per file;
- `time/<user>_<YYYY-MM-DD>.json` holds one user's entries for one day;
- a starred-projects file holds one per user.

The home screen lets a user log hours against a project, shows the projects with the starred ones first, and lets the user star a project. The project screen edits a project's details and its training modules (TMs), shows its time log, and shows an info bar with the project's breadcrumb and hours against target. The reports screen totals the time files of a date window by project and by work type. The admin screen edits the team file's lists and roster, and can import them from JSON or CSV. A theme manager keeps the chosen colour theme in a preference file.

The model follows the program's structure, one module per source file:

| module | file | models |
|---|---|---|
| `Common` | `common.dfy` | helpers: Option/Result, association lists that behave like Python dicts (`Lookup`, `Put`), `str.strip`, `rsplit`, `join`, stable sorting and sums |
| `Dates` | `dates.dfy` | the calendar; `date.isoformat`, `date.fromisoformat`, `strftime("%Y-%m-%d")`, `strptime`; `toordinal` and `dayOfWeek` |
| `Models` | `models.dfy` | `app/models.py`: the dataclasses and their class methods |
| `DataService` | `data_service.dfy` | `app/data_service.py`: a `DataService` class over a `Folder` value (the data folder's files) |
| `Reports` | `reports.dfy` | `reports_screen.py`: the loading, grouping and summing of report data, the period presets and the filter state |
| `ProjectDetail` | `project_detail.dfy` | `project_detail_screen.py`: the TMs tab, the employee combos, the time log, saving, and the info bar |
| `Admin` | `admin.dfy` | `admin_screen.py`: the editable list panels and the employee panel, import included |
| `Home` | `home.dfy` | `home_screen.py`: the project cards, the quick-entry form, and the starred/other partition |
| `Themes` | `themes.dfy` | `themes.py`: the predefined themes and the theme manager |

## How the model works

**Values and classes.** Projects, time entries, team data and employees are values, so an update returns a new value. The objects whose fields the program updates are classes with `modifies` clauses on their methods:

- `DataService`;
- the report screen's filter state;
- the TMs tab, the time-log tab and the project screen;
- the two admin panels;
- the project card and the home screen's form;
- the theme manager.

**Files.** A JSON or CSV file is a datatype value, and each kind has a variant for a file that fails to parse. A folder listing is a sequence in listing order.

**Outside inputs.** The clock, `uuid4`, the OS user name and the user's dialog answers are parameters.

**The data folder.** Each file kind is modelled as follows:

- Project files: each readable file's project is cached under the project's id. A later file with the same id replaces the earlier one.
- Time files: saving appends the entry to the current user's file for the entry's date. Reading back gives the same entries. A project's total is the sum over every readable time file of `hours`; a legacy entry uses `duration_minutes // 60` instead.
- Starred file: starring and unstarring rewrite only the current user's starred file.

**Screens.** The model keeps this notable behaviour:

- The reports screen starts on the window from a week before today to today. That is 8 days, although the selector reads "Last 7 Days", whose preset covers 7.
- "Move down" on an admin list with no row selected (row -1) moves nothing, selects row 0 and saves. This is how Qt's `insertItem`/`takeItem` behave with row -1.
- The home screen's combos have placeholder text, so refilling them leaves nothing selected unless the old choice is restored.
- The home screen's refresh calls `get_all_projects` three times: for the dropdowns, for the project list and for the status bar, which is left out. Nothing changes between the calls, so all get the same list; the model calls it once.

## Model

| member | source | states |
|---|---|---|
| `Models.NewProject` | app/models.py:36-74 | a new project has the given id and name and the declared defaults: status "Not Started", no target, no custom fields, no TMs, empty course and project ids |
| `Models.GetFileId` | app/models.py:80-83 | the file name is the project id, else the course id, else the internal id; it is empty only when all three are |
| `Models.GetCustomField` | app/models.py:85-93 | the custom-field dictionary wins, then a string attribute of that name, then the default |
| `Models.SetCustomField` | app/models.py:95-97 | only the custom fields change; an existing key keeps its place, a new key goes last |
| `Models.GetAfterSetCustomField` | app/models.py:85-97 | reading a field just set gives the value set, whatever the legacy attributes hold |
| `Models.SetCustomFieldOther` | app/models.py:85-97 | setting one field leaves every other field's value unchanged |
| `Models.GenerateIdFormat` | app/models.py:76-78 | a generated id is `PRJ-`, 14 digits, `-`, 4 upper-case hex digits (23 characters), for years from 1000 on |
| `Models.GenerateIdPieces` | app/models.py:76-78 | the digits are the instant's year, month, day, hour, minute and second, zero-padded; the hex digits are the first 16 random bits |
| `Models.GenerateIdInjective` | app/models.py:76-78 | different instants or different random bits give different ids |
| `Models.EncodeEntry` | app/models.py:101-110 | `asdict` of an entry keeps its project id and hours under their keys |
| `Models.DecodeEntry` | app/models.py:101-110 | `TimeEntry(**raw)` succeeds exactly when the five required keys are present and no unknown key is |
| `Models.DecodeEncodeEntry` | app/models.py:101-110 | an entry written out reads back as the same entry |
| `Models.EncodeDecodeEntry` | app/models.py:101-110 | a decodable object is exactly what writing its entry produces |
| `Models.EntryHours` | app/data_service.py:398-403 | an entry counts its `hours`, else `duration_minutes // 60` (floor), else nothing |
| `Models.EntryHoursOfEncoded` | app/data_service.py:398-403 | a written entry counts its own hours |
| `Models.TruncDiv` | app/models.py:134 | Python's `int()` of a quotient truncates toward zero: for a non-negative numerator the floor quotient, for a negative one the quotient rounded up (`q * b - b < a <= q * b`) |
| `Models.CreateEntry` | app/models.py:128-142 | whole hours between start and end, truncated, at least 1, dated on the start's day |
| `Models.CreateSimple` | app/models.py:112-125 | the given values unchanged; dated as given, or today when no date is given (reads back as today) |
| `Models.FieldByKey` | app/models.py:178-183 | the first definition whose key matches, or none when no definition matches |
| `Models.GetProjectField` | app/models.py:178-183 | the loop returns at the first match, that is `FieldByKey` |
| `Models.GetFieldValues` | app/models.py:185-194 | the values of the first matching definition (none if it lists none), else the legacy list of that name, else none |
| `Models.FieldValuesPreferDefinition` | app/models.py:185-194 | a field defined in project_fields always wins over a legacy list of the same name |
| `Dates.StrftimeIsIso` | app/data_service.py:304-307 | `strftime("%Y-%m-%d")` and `isoformat()` agree for a date |
| `Dates.ParseIsoFormat` | app/data_service.py:343 | `fromisoformat(d.isoformat()) == d` |
| `Dates.FormatParseIso` | app/data_service.py:343 | a string that `fromisoformat` accepts is the isoformat of its date |
| `Dates.ParseYmdOfStrftime` | app/screens/reports_screen.py:417 | `strptime` reads back every date that `strftime` wrote |
| `Dates.ParseYmdLenient` | app/screens/reports_screen.py:417 | `strptime` also takes unpadded months and days, which `fromisoformat` rejects |
| `Dates.OrdinalOrder` | app/screens/reports_screen.py:422-423 | comparing day numbers is comparing dates |
| `Dates.MonthStart` | app/screens/reports_screen.py:356-359 | the first of the month is `day - 1` days before a date |
| `DataService.DataService.constructor` | app/data_service.py:30-47 | starts with no team data, user, projects or day loaded, over the given folder and OS user |
| `DataService.DataService.CurrentUserId` | app/data_service.py:166-167 | the chosen employee's id, else the OS user name |
| `DataService.DataService.IdentifyUser` | app/data_service.py:133-148 | the first roster entry whose id is the OS user becomes the current user; no match or no team data changes nothing |
| `DataService.DataService.SetCurrentUser` | app/data_service.py:150-159 | the first roster entry with that id becomes the current user; an unknown id changes nothing |
| `DataService.DataService.LoadTeamData` | app/data_service.py:173-186 | no folder or no team file: none; a file that does not decode raises; otherwise the data is adopted |
| `DataService.DataService.SaveTeamData` | app/data_service.py:188-197 | writes the team file and adopts the data; without a folder nothing changes |
| `DataService.DataService.LoadProjects` | app/data_service.py:207-226 | the cache is rebuilt from the readable project files; without a folder an empty result and the cache kept |
| `DataService.LoadedProjectsLookup` | app/data_service.py:207-226 | the cache holds for each id the project of the last readable file with that id |
| `DataService.LoadedProjectsKeyed` | app/data_service.py:207-226 | the cache holds each id once, under the project's own id |
| `DataService.LastIsSaved` | app/data_service.py:207-226 | a project whose id no other file holds is what the cache keeps for that id |
| `DataService.LoadAfterSave` | app/data_service.py:232-248 | after a project is written, loading the folder again gives it back under its id |
| `DataService.DataService.GetProject` | app/data_service.py:228-230 | a found project has the id asked for and is cached; none means no cached project has it |
| `DataService.DataService.SaveProject` | app/data_service.py:232-248 | stamps modified time and user, writes the project file, caches it; other projects unchanged; nothing without a folder |
| `DataService.DataService.GetAllProjects` | app/data_service.py:250-263 | the cached projects, a permutation sorted most recent first by (last activity, modified time), ties in cache order; the last activity scans only the user's own files (the corrected scan of Findings row 1), so on that row's input the order can differ from the program's |
| `DataService.MoreRecentIsTotalPreorder` | app/data_service.py:258-262 | the sort key's order is a total preorder, so the sort is well defined |
| `DataService.PairLessStrictOrder` | app/data_service.py:258-260 | Python's tuple comparison of the keys is a strict total order |
| `DataService.DataService.GetUserLastActivity` | app/data_service.py:265-298 | for each project, the latest time among the current user's own entries for it |
| `DataService.LastActivityIsLatest` | app/data_service.py:265-298 | a project has a last activity exactly when a scanned entry is for it; it is one entry's time, and no entry is later |
| `DataService.LatestIsMax` | app/data_service.py:285-296 | the latest time of a project's entries exists exactly when an entry exists, and is a maximum |
| `DataService.ActivityLookup` | app/data_service.py:285-296 | the scan's dictionary maps each project to the latest of its entries |
| `DataService.TouchLookup` | app/data_service.py:289-296 | one entry sets its project's activity when there is none yet or the entry is later, and leaves every other project |
| `DataService.EntryTime` | app/data_service.py:289 | an entry's time is `created_at`, else `date`, else `end_time` |
| `DataService.TouchAll` | app/data_service.py:285-296 | the inner loop ends with the dictionary of all entries seen |
| `DataService.OwnerScanOnlyOwnFiles` | app/data_service.py:281 | under the corrected scan, an entry counts only from a file whose user part is the user |
| `DataService.GlobTakesOtherUsersFiles` | app/data_service.py:281 | the glob `alice_*.json` takes `alice_bob`'s file, giving alice an activity she never logged |
| `DataService.GlobSelectsLongerOwner` | app/data_service.py:281 | every file of a user `u_x` matches the glob of user u |
| `DataService.TimeFileStemInjective` | app/data_service.py:304-307 | distinct (user, date) pairs name distinct time files |
| `DataService.StrftimeHasNoUnderscore` | app/data_service.py:304-307 | a date part never holds '_', so the last '_' separates user and date |
| `DataService.DataService.LoadTodayEntries` | app/data_service.py:309-335 | today's file of the current user, or an empty day when none; a file or an entry that does not decode raises and keeps the day |
| `DataService.DecodeEntries` | app/data_service.py:327-332 | every entry decodes, in order, or the whole read fails at an entry that does not |
| `DataService.DecodeEntriesLoop` | app/data_service.py:327-332 | the element-by-element loop computes `DecodeEntries` |
| `DataService.DecodeEntriesNone` | app/data_service.py:327-332 | one entry that does not decode makes the whole day unreadable |
| `DataService.DecodeEntriesAppend` | app/data_service.py:337-372 | appending a written entry to a decodable file decodes to the old entries plus the new one |
| `DataService.DataService.SaveTimeEntry` | app/data_service.py:337-372 | appends to the user's file for the entry's date, creating it, touching no other file; reloads when dated today, after which today's total is the earlier entries' hours plus the entry's; no folder or user: nothing; bad date or unreadable file: error |
| `DataService.DataService.GetTodayTotalHours` | app/data_service.py:374-378 | the sum of the hours of today's cached entries, 0 when none are loaded |
| `DataService.DayTotalAppend` | app/data_service.py:374-378 | adding an entry adds its hours to the day's total |
| `DataService.TotalAfterAppend` | app/data_service.py:337-405 | saving an entry raises its project's total by its hours and leaves every other total |
| `DataService.FilesHoursPut` | app/data_service.py:380-405 | replacing one file changes a total by the difference of the two files' hours |
| `DataService.DataService.GetProjectTotalHours` | app/data_service.py:380-405 | the hours logged against the project over every readable time file, all users; 0 without a folder |
| `DataService.ProjectTotalExample` | app/data_service.py:394-403 | 3 hours plus a legacy 120 minutes make 5 hours |
| `DataService.DataService.GetStarredProjects` | app/data_service.py:415-429 | no folder or no user gives the empty set |
| `DataService.DataService.SetProjectStarred` | app/data_service.py:431-445 | the starred set gains or loses exactly that id; no other user's starred file and no other file changes |
| `DataService.DataService.ReloadAll` | app/data_service.py:455-463 | without a folder nothing; a reload that succeeds rebuilds the projects cache from the folder's project files |
| `Reports.ParseStemSpec` | app/screens/reports_screen.py:408-419 | a parsed name is user, '_', date text that holds no '_' and reads as the date; it fails exactly without '_' or with a bad date |
| `Reports.ParseStemOfTimeFileStem` | app/screens/reports_screen.py:408-419 | the report reads back the user and date of every file the store names, user ids with '_' included |
| `Reports.SelectedMembers` | app/screens/reports_screen.py:405-439 | an entry is loaded exactly when a passing, readable file holds it, tagged with that file's user and date |
| `Reports.Tag` | app/screens/reports_screen.py:433-436 | every entry of a file is kept in order with the file's user and date |
| `Reports.KeptMembers` | app/screens/reports_screen.py:421-436 | what one file contributes is the entries of a passing, readable file |
| `Reports.IndexById` | app/screens/reports_screen.py:403 | the cache maps each project id to a project with that id, and every project's id is a key |
| `Reports.ReportsScreen.LoadData` | app/screens/reports_screen.py:382-441 | without a folder nothing changes; else the passing files' entries in listing order, and the projects by id |
| `Reports.UpdateSummary` | app/screens/reports_screen.py:450-485 | total hours; distinct project ids; days in the window; a ratio for each project with a positive target and an entry |
| `Reports.ProjectIds` | app/screens/reports_screen.py:458 | the distinct project ids of the entries, a missing id counted as one |
| `Reports.StatusCounts` | app/screens/reports_screen.py:599-608 | entries and distinct projects; never more projects than entries |
| `Reports.ProjectIdsBound` | app/screens/reports_screen.py:458-459 | there are no more distinct project ids than entries |
| `Reports.GroupHours` | app/screens/reports_screen.py:490-498 | the grouping loop builds the dictionary of hours per key, in first-seen order |
| `Reports.AddHoursIsPut` | app/screens/reports_screen.py:493-497 | one more entry is `d[k] = d.get(k, 0) + h` |
| `Reports.SumAddHours` | app/screens/reports_screen.py:493-497 | one more entry adds its hours to the groups' sum |
| `Reports.GroupedLookup` | app/screens/reports_screen.py:490-498 | a key has a group exactly when an entry has that key, and the group holds all their hours |
| `Reports.GroupedNoDup` | app/screens/reports_screen.py:490-498 | each key has one group |
| `Reports.GroupedTotal` | app/screens/reports_screen.py:490-498 | the groups' hours add up to the total hours |
| `Reports.ProjectHoursIsGroup` | app/screens/reports_screen.py:469-476 | a ratio's project hours are that project's group hours |
| `Reports.SortedGroupsProperties` | app/screens/reports_screen.py:501-505 | sorting gives a permutation of the groups, most hours first, with the same total |
| `Reports.GroupingsAgree` | app/screens/reports_screen.py:487-554 | by-project and by-work-type split the same total, equal to the summary's |
| `Reports.MakeRow` | app/screens/reports_screen.py:510-522 | a row's name and target are the project's, else the id and 0; over target exactly when a positive target is exceeded |
| `Reports.Rows` | app/screens/reports_screen.py:510-522 | one row per group, in the groups' order |
| `Reports.ReportsScreen.UpdateByProject` | app/screens/reports_screen.py:487-524 | one row per project id, most hours first, each row's hours its group's |
| `Reports.ReportsScreen.UpdateByWorkType` | app/screens/reports_screen.py:526-597 | "No data" exactly when nothing is loaded; else the work types most hours first, totalling the report and led by the largest |
| `Reports.QuarterStartMonth` | app/screens/reports_screen.py:365-366 | the quarter's first month is 1, 4, 7 or 10, at most two months before |
| `Reports.PresetMeaning` | app/screens/reports_screen.py:336-372 | each preset's window: today, yesterday, Monday to today, the last 7 or 30 days, the month or quarter so far; "Custom" keeps the dates |
| `Reports.WeekStartIsMonday` | app/screens/reports_screen.py:348-351 | "This Week" starts on a Monday at most 6 days back |
| `Reports.PresetNonEmpty` | app/screens/reports_screen.py:336-369 | every preset window is non-empty and ends today, or yesterday for "Yesterday" |
| `Reports.PresetShowsCustom` | app/screens/reports_screen.py:155-163 | with the date edits wired as written, choosing "This Week" after "Last 7 Days" leaves the selector on "Custom" |
| `Reports.ReportsScreen.constructor` | app/screens/reports_screen.py:136-175 | "Last 7 Days" selected, from 7 days before today to today, all users, nothing loaded |
| `Reports.ReportsScreen.OnPeriodChanged` | app/screens/reports_screen.py:336-372 | a preset sets both dates, "Custom" keeps them; the selector shows the chosen period; reloads unless "Custom" |
| `Reports.ReportsScreen.OnCustomDate` | app/screens/reports_screen.py:374-376 | moving a date edit sets the selector to "Custom" |
| `Reports.ReportsScreen.OnFilterChanged` | app/screens/reports_screen.py:378-380 | the user filter changes and the data is reloaded as `LoadData` states, with the same dates and the new filter; without a folder the loaded data stays |
| `ProjectDetail.NumbersOfMembers` | app/screens/project_detail_screen.py:494-499 | a number is collected exactly when some TM object has it |
| `ProjectDetail.CollectNumbers` | app/screens/project_detail_screen.py:494-499 | the loop collects exactly the TMs' numbers |
| `ProjectDetail.NextNumber` | app/screens/project_detail_screen.py:501-503 | the counting loop gives the smallest positive number not in use |
| `ProjectDetail.SmallestFreeUnique` | app/screens/project_detail_screen.py:501-503 | the smallest free number is unique |
| `ProjectDetail.AddedNumberIsNew` | app/screens/project_detail_screen.py:494-503 | a new TM's number is used by no TM, and every smaller positive number is |
| `ProjectDetail.Range` | app/screens/project_detail_screen.py:501-503 | the numbers 1..n, n of them |
| `ProjectDetail.SortedTmsProperties` | app/screens/project_detail_screen.py:469 | the cards are a permutation of the TMs sorted by number, non-objects as 0 |
| `ProjectDetail.Layout` | app/screens/project_detail_screen.py:474-487 | no more cards than TMs |
| `ProjectDetail.LayoutCells` | app/screens/project_detail_screen.py:474-487 | cards fill distinct cells in order, two a row below the empty-state row |
| `ProjectDetail.LayoutOfObjects` | app/screens/project_detail_screen.py:474-487 | with only TM objects, one card per TM in its own cell |
| `ProjectDetail.CardAtCell` | app/screens/project_detail_screen.py:485-487 | the i-th card goes to row i // 2 + 1, column i % 2 |
| `ProjectDetail.BuildCards` | app/screens/project_detail_screen.py:474-487 | the card loop builds `Layout` |
| `ProjectDetail.TMsTab.constructor` | app/screens/project_detail_screen.py:407-411 | no project, no cards, empty state shown |
| `ProjectDetail.TMsTab.SetProject` | app/screens/project_detail_screen.py:454-457 | the project is shown, its cards rebuilt, empty state exactly when it has no TMs |
| `ProjectDetail.TMsTab.RebuildCards` | app/screens/project_detail_screen.py:459-487 | the cards are the sorted TMs' layout; empty state exactly without TMs |
| `ProjectDetail.TMsTab.AddTm` | app/screens/project_detail_screen.py:489-521 | offers the smallest free number; if accepted, appends the TM, rebuilds without the empty state and emits; otherwise nothing |
| `ProjectDetail.TMsTab.UpdateTm` | app/screens/project_detail_screen.py:549-561 | the first TM with that number gets the new name and status; nothing else changes |
| `ProjectDetail.UpdatedTms` | app/screens/project_detail_screen.py:555-559 | same length; every TM but the first with that number is kept |
| `ProjectDetail.UpdateKeepsNumbers` | app/screens/project_detail_screen.py:555-559 | updating a TM keeps the set of TM numbers |
| `ProjectDetail.TMsTab.DeleteTm` | app/screens/project_detail_screen.py:563-581 | if confirmed, every TM with that number is removed; else nothing |
| `ProjectDetail.TMsTab.OnTmClicked` | app/screens/project_detail_screen.py:523-547 | the dialog shows the first matching TM's name and status, else "" and "Not Started"; cancel changes nothing; accepted, the TM is updated as by `UpdateTm`; delete, confirmed, removes the number's TMs as by `DeleteTm` |
| `ProjectDetail.FirstWithNumber` | app/screens/project_detail_screen.py:531-537 | the first TM object with that number, or none has it |
| `ProjectDetail.WithoutNumberProperties` | app/screens/project_detail_screen.py:576-579 | exactly the TMs without that number remain, in order; nothing removed if none had it |
| `ProjectDetail.DeleteRemovesAll` | app/screens/project_detail_screen.py:576-579 | after deleting, no TM has that number and every other TM is kept |
| `ProjectDetail.DeleteIdempotent` | app/screens/project_detail_screen.py:576-579 | deleting twice is deleting once |
| `ProjectDetail.EmployeeItems` | app/screens/project_detail_screen.py:144-149 | an empty item, then `name (id)` for each employee in order |
| `ProjectDetail.GetEmployeeId` | app/screens/project_detail_screen.py:213-219 | without both '(' and ')' the text itself; with both, a shorter text that holds no '(' and does not end in ')' |
| `ProjectDetail.GetEmployeeIdOfItem` | app/screens/project_detail_screen.py:213-219 | reading an employee's item gives back its id, for ids without parentheses |
| `ProjectDetail.GetEmployeeIdIdempotent` | app/screens/project_detail_screen.py:213-219 | reading an id twice is reading it once |
| `ProjectDetail.SetEmployeeComboAsWritten` | app/screens/project_detail_screen.py:200-211 | the first item that contains the id, or item 0 for an empty id, nothing on an empty combo |
| `ProjectDetail.SubstringPicksWrongEmployee` | app/screens/project_detail_screen.py:200-211 | id "an" selects "Dan Brown (dbrown)" before "Ann Lee (an)" |
| `ProjectDetail.SetEmployeeCombo` | app/screens/project_detail_screen.py:200-211 | the first item whose id equals the id, or item 0 for an empty id, nothing on an empty combo |
| `ProjectDetail.CorrectedComboRoundTrip` | app/screens/project_detail_screen.py:200-219 | setting the combo with exact matching and reading it back gives the id it was set to, also on an empty combo |
| `ProjectDetail.EntryDate` | app/screens/project_detail_screen.py:662 | an entry's date is `date`, else the first 10 characters of `start_time` |
| `ProjectDetail.CollectRows` | app/screens/project_detail_screen.py:652-670 | the scan of one file yields the rows of that file's entries for the project |
| `ProjectDetail.AddUp` | app/screens/project_detail_screen.py:678-691 | the total loop sums the rows' hours |
| `ProjectDetail.EntryRowsTotal` | app/screens/project_detail_screen.py:652-670 | a file's rows carry that file's hours for the project |
| `ProjectDetail.FileRowsTotal` | app/screens/project_detail_screen.py:645-672 | all rows carry the project's total hours |
| `ProjectDetail.LogRowsProperties` | app/screens/project_detail_screen.py:674-675 | the sorted rows are a permutation, newest date first, with the same total |
| `ProjectDetail.DateAtLeastIsTotalPreorder` | app/screens/project_detail_screen.py:675 | the descending date order is a total preorder |
| `ProjectDetail.TimeLogTab.constructor` | app/screens/project_detail_screen.py:587-590 | no project, no rows, total 0 |
| `ProjectDetail.TimeLogTab.SetProject` | app/screens/project_detail_screen.py:627-630 | the tab keeps the project and shows its rows and total as `LoadEntries` states |
| `ProjectDetail.TimeLogTab.LoadEntries` | app/screens/project_detail_screen.py:632-693 | no project or folder: no rows, 0; else the project's rows newest first, totalling its hours |
| `ProjectDetail.PrepareSaveRule` | app/screens/project_detail_screen.py:1110-1159 | saving is refused exactly when the name is blank; otherwise the form's values are applied |
| `ProjectDetail.AppliedProperties` | app/screens/project_detail_screen.py:221-237 | a new project takes the course id (else a generated id) and creation stamps; an existing one keeps them; the form sets name, course id, status and staff |
| `ProjectDetail.ProjectDetailScreen.constructor` | app/screens/project_detail_screen.py:703-710 | the screen holds the given project and new-project flag |
| `ProjectDetail.ProjectDetailScreen.OnSave` | app/screens/project_detail_screen.py:1110-1159 | a blank name saves nothing; else the project is shown and no longer new: with a folder it is stamped, saved and cached, without one the service is untouched and the prepared project is kept unstamped |
| `ProjectDetail.ProjectDetailScreen.Commit` | app/screens/project_detail_screen.py:1140-1159 | with a folder the saved project is stamped, cached under its id, and shown; without one it is shown as given and the service is untouched |
| `ProjectDetail.ProjectDetailScreen.OnProjectUpdated` | app/screens/project_detail_screen.py:1161-1165 | a TM change saves the modules tab's project, with the change, stamped and cached, and the screen and the tab both hold the stamped project; without a folder the screen takes the tab's project and the service is untouched; without a project nothing changes |
| `ProjectDetail.NonEmpty` | app/screens/project_detail_screen.py:1012-1018 | exactly the non-empty crumbs remain |
| `ProjectDetail.SeparatorsAreGarbled` | app/screens/project_detail_screen.py:1026-1072 | each separator as written is the UTF-8 bytes of '›', '•' or '—' read as Windows-1252 |
| `ProjectDetail.Utf8` | app/screens/project_detail_screen.py:1026-1072 | a character's UTF-8 encoding consists of bytes |
| `ProjectDetail.InfoBreadcrumbShowsGarbage` | app/screens/project_detail_screen.py:1026 | "Main" and "Online" show as "Main â€º Online", not "Main › Online" |
| `ProjectDetail.InfoBreadcrumbTwoCrumbs` | app/screens/project_detail_screen.py:1011-1028 | with the intended separator two crumbs read `campus › offer` |
| `ProjectDetail.InfoBreadcrumbEmpty` | app/screens/project_detail_screen.py:1011-1028 | the breadcrumb is empty exactly when campus, offer, sub-offer, course type and effort type are all blank |
| `ProjectDetail.InfoBarOf` | app/screens/project_detail_screen.py:1001-1072 | name or "New Project"; course id or id; the corrected breadcrumb; the status or "Not Started"; badge green exactly for "Complete", yellow with black text exactly for "In Progress", grey otherwise; a ratio only with a positive target; red when over |
| `ProjectDetail.OverOne` | app/screens/project_detail_screen.py:1064 | the ratio exceeds 1 exactly when logged exceeds target |
| `Admin.MapKey` | app/screens/admin_screen.py:251-265 | the keys of the elements, one per element, in order |
| `Admin.FreshIsNew` | app/screens/admin_screen.py:251-265 | added items have a non-empty key that was not present, in candidate order |
| `Admin.FreshKeepsKeysDistinct` | app/screens/admin_screen.py:251-265 | importing keeps the keys of a list distinct |
| `Admin.FreshCovers` | app/screens/admin_screen.py:251-265 | every candidate with a non-empty key is present after the import |
| `Admin.AppendFresh` | app/screens/admin_screen.py:251-265 | the loop appends exactly the fresh candidates and counts every candidate as added or skipped |
| `Admin.FirstPresentMeaning` | app/screens/admin_screen.py:233-236 | the first listed key that the object has is the one read |
| `Admin.FirstPresentNone` | app/screens/admin_screen.py:233-236 | an object with none of the keys gives nothing |
| `Admin.CsvItemsAreNotBlank` | app/screens/admin_screen.py:247-249 | a CSV import yields only non-blank stripped first cells |
| `Admin.JsonObjectKeys` | app/screens/admin_screen.py:231-236 | an object with "name" gives its stripped name; the singular of "campuses" is "campuse" |
| `Admin.EditableListPanel.constructor` | app/screens/admin_screen.py:105-114 | the list shows the stored list, or nothing without team data |
| `Admin.EditableListPanel.Save` | app/screens/admin_screen.py:123-130 | the list is written back when team data exists |
| `Admin.EditableListPanel.OnAddItem` | app/screens/admin_screen.py:132-146 | blank input: nothing; present: rejected; else appended and saved; keeps items distinct |
| `Admin.EditableListPanel.OnEditItemAsWritten` | app/screens/admin_screen.py:148-161 | an accepted non-blank text replaces the row, even when another row holds it |
| `Admin.EditCanDuplicate` | app/screens/admin_screen.py:148-161 | renaming "B" to "A" in ["A","B"] leaves "A" twice |
| `Admin.EditableListPanel.OnEditItem` | app/screens/admin_screen.py:148-161 | as written, but a text another row holds is rejected; keeps items distinct |
| `Admin.EditKeepsDistinct` | app/screens/admin_screen.py:148-161 | replacing a row with a text no other row holds keeps items distinct |
| `Admin.EditableListPanel.OnRemoveItem` | app/screens/admin_screen.py:169-185 | a confirmed removal drops exactly that row and saves; else nothing |
| `Admin.EditableListPanel.OnMoveUp` | app/screens/admin_screen.py:187-194 | swaps the row with the one above and selects it; row 0 or none: nothing; a permutation |
| `Admin.EditableListPanel.OnMoveDown` | app/screens/admin_screen.py:196-203 | swaps the row with the one below; last row: nothing; no selection: saves and selects row 0; a permutation |
| `Admin.SwapIsPermutation` | app/screens/admin_screen.py:187-203 | swapping neighbours keeps the multiset |
| `Admin.EditableListPanel.OnImport` | app/screens/admin_screen.py:205-278 | appends the fresh stripped candidates of a JSON or CSV file; saves only if any; unreadable: nothing |
| `Admin.ImportKeepsDistinct` | app/screens/admin_screen.py:251-265 | an import keeps a distinct list distinct |
| `Admin.ImportCoversCandidates` | app/screens/admin_screen.py:251-265 | every non-empty candidate is in the list afterwards |
| `Admin.ImportTwiceAddsNothing` | app/screens/admin_screen.py:251-265 | importing the same file again adds nothing |
| `Admin.NothingFresh` | app/screens/admin_screen.py:251-265 | candidates all present or blank add nothing |
| `Admin.EmployeesPanel.constructor` | app/screens/admin_screen.py:365-377 | the roster shows the stored employees, or none without team data |
| `Admin.EmployeesPanel.Save` | app/screens/admin_screen.py:379-391 | the roster is written back when team data exists |
| `Admin.EmployeesPanel.AddEntered` | app/screens/admin_screen.py:405-421 | an id on the roster is rejected; else appended and saved; ids stay distinct |
| `Admin.EmployeesPanel.OnAddEmployee` | app/screens/admin_screen.py:393-421 | blank username or name, or a taken username, is rejected; else the stripped employee is appended and saved |
| `Admin.EmployeesPanel.OnEditEmployeeAsWritten` | app/screens/admin_screen.py:423-466 | accepted values with id and name replace the employee, even when another has that id |
| `Admin.EditEmployeeCanDuplicate` | app/screens/admin_screen.py:423-466 | renaming ajones to dsmith leaves two employees with the id dsmith |
| `Admin.EmployeesPanel.ReplaceAt` | app/screens/admin_screen.py:460-464 | the row's employee is replaced and the roster saved |
| `Admin.EmployeesPanel.EditEntered` | app/screens/admin_screen.py:457-464 | an id another employee has is rejected; else the row is replaced; ids stay distinct |
| `Admin.EmployeesPanel.OnEditEmployee` | app/screens/admin_screen.py:423-466 | as written, but an id another employee has is rejected; keeps ids distinct |
| `Admin.EditEmployeeKeepsUnique` | app/screens/admin_screen.py:423-466 | replacing with an id no other employee has keeps ids distinct |
| `Admin.EmployeesPanel.OnRemoveEmployee` | app/screens/admin_screen.py:474-492 | a confirmed removal drops exactly that employee and saves |
| `Admin.EmployeesPanel.AppendCandidates` | app/screens/admin_screen.py:541-562 | appends the candidates with a new, non-empty id, each id once, in order; ids stay distinct |
| `Admin.EmployeesPanel.OnImport` | app/screens/admin_screen.py:494-576 | JSON objects with "id" and CSV rows with an id become candidates; those with new ids are appended; unreadable: nothing |
| `Admin.CsvEmployeeDefaults` | app/screens/admin_screen.py:533-539 | a CSV row with only an id gets that id as name and role "SME" |
| `Admin.CsvEmployeesNamed` | app/screens/admin_screen.py:532-539 | every CSV employee has a non-empty id and name |
| `Admin.HasId` | app/screens/admin_screen.py:405-408 | the roster search finds the id exactly when an employee has it |
| `Admin.CollectIds` | app/screens/admin_screen.py:541-545 | the loop collects exactly the roster's ids |
| `Admin.UniqueIdsAppend` | app/screens/admin_screen.py:405-414 | appending an employee with a new id keeps ids distinct |
| `Home.PartitionProperties` | app/screens/home_screen.py:517-522 | starred and other sections split the projects by the starred set, each in the projects' order, together a permutation |
| `Home.SectionsCover` | app/screens/home_screen.py:517-522 | the two sections together are all the listed projects |
| `Home.CardPlacement` | app/screens/home_screen.py:517-582 | a project's card is in the starred section exactly when it is starred |
| `Home.CardCrumbsProperties` | app/screens/home_screen.py:66-82 | at most 3 non-empty crumbs: the first custom-field values, else campus, offer and sub-offer; none exactly when all are blank |
| `Home.NonEmptyLength` | app/screens/home_screen.py:66-82 | dropping empty crumbs never adds any |
| `Home.NonEmptyAppend` | app/screens/home_screen.py:66-82 | a crumb is kept exactly when it is non-empty |
| `Home.NonEmptyNone` | app/screens/home_screen.py:66-82 | no crumb survives exactly when all are empty |
| `Home.BuildBreadcrumb` | app/screens/home_screen.py:66-82 | the card's breadcrumb, "No category" when there are no crumbs |
| `Home.LegacyCrumbs` | app/screens/home_screen.py:74-80 | the non-empty of campus, offer, sub-offer |
| `Home.CardMatchesInfoBar` | app/screens/home_screen.py:66-82 | for a project with no custom-field crumbs, no course type and no effort type, but at least one of campus, offer or sub-offer, the card's breadcrumb equals the corrected info bar's |
| `Home.CardDiffersFromInfoBarAsWritten` | app/screens/home_screen.py:82 | as written, the card and the info bar show different breadcrumbs |
| `Home.ProjectCard.constructor` | app/screens/home_screen.py:23-94 | the card holds the project id, hours, star and breadcrumb |
| `Home.ProjectCard.OnStarClicked` | app/screens/home_screen.py:127-131 | flips the star and emits the id with the new state |
| `Home.Clamp` | app/screens/home_screen.py:233 | the spin box keeps its value within its range; in-range values unchanged |
| `Home.ProjectItems` | app/screens/home_screen.py:486-488 | one item (name, id) per project, in order |
| `Home.HomeScreen.constructor` | app/screens/home_screen.py:217-301 | 1 hour, nothing selected, no items, today's date |
| `Home.HomeScreen.FormEntry` | app/screens/home_screen.py:422-427 | the entry `create_simple` makes from the form, dated the chosen day |
| `Home.HomeScreen.SetHours` | app/screens/home_screen.py:233-234 | the hours are kept within 1..8 |
| `Home.HomeScreen.OnLogTime` | app/screens/home_screen.py:407-439 | with project, work type and hours the form's entry is saved and the form reset; error keeps the form; otherwise nothing |
| `Home.HomeScreen.SaveAndReset` | app/screens/home_screen.py:429-436 | the form resets to defaults exactly when saving succeeded |
| `Home.HoursAlwaysSuffice` | app/screens/home_screen.py:415-420 | a form can be logged exactly when a project and a work type are chosen: the hours check never fails, since the spin box stays within 1..8 |
| `Home.HomeScreen.RefreshDropdowns` | app/screens/home_screen.py:478-506 | combos refilled; each old selection comes back at its first position if still listed, else nothing is selected |
| `Home.HomeScreen.RefreshProjectList` | app/screens/home_screen.py:508-576 | starred section and other section from the projects and the starred set |
| `Home.HomeScreen.Refresh` | app/screens/home_screen.py:468-476 | without a folder nothing; else the starred and other sections of the projects most recent first, which together hold every project once; one project item per project |
| `Home.HomeScreen.OnStarToggled` | app/screens/home_screen.py:578-582 | both sections are rebuilt from the cached projects most recent first, with or without a folder; with a folder and a user the project is starred as asked, its card moves to the matching section, and only that user's starred file changes; otherwise the service is untouched |
| `Themes.PredefinedKeys` | app/themes.py:59-179 | four distinct predefined themes, "blue", "red", "green", "mono" |
| `Themes.PreferenceRoundTrip` | app/themes.py:205-226 | saving then loading the preference restores the theme id and the custom theme |
| `Themes.LoadedIdOrigin` | app/themes.py:205-217 | the loaded id is "blue" or the file's own theme id |
| `Themes.ThemeManager.constructor` | app/themes.py:193-203 | starts on "blue" without a custom theme, then loads the preference |
| `Themes.ThemeManager.LoadPreference` | app/themes.py:205-217 | the id and custom theme from a readable file; one that is not JSON, or whose custom theme has fields of the wrong names, resets the id to "blue" and keeps the custom theme; no file keeps both |
| `Themes.ThemeManager.Save` | app/themes.py:219-226 | writes the current id and the custom theme |
| `Themes.ThemeManager.CurrentTheme` | app/themes.py:233-236 | the custom theme when chosen and present, else the predefined theme of the id, else blue |
| `Themes.ThemeManager.AvailableThemes` | app/themes.py:239-241 | the predefined ids then "custom" |
| `Themes.ThemeManager.SetTheme` | app/themes.py:243-247 | a known id, or "custom" with a custom theme, becomes current and is saved; anything else changes nothing |
| `Themes.ThemeManager.SetCustomTheme` | app/themes.py:249-253 | the theme becomes the custom one and current, and is saved |
| `Themes.CurrentThemeIsKnown` | app/themes.py:233-236 | the current theme is one of the four or the custom one |
| `Themes.AcceptedIdsAreAvailable` | app/themes.py:239-247 | every id `set_theme` accepts is offered by `available_themes` |

## Left out

- Qt widgets, styles, fonts, the generated stylesheet (`generate_stylesheet`), message boxes and dialogs themselves: a dialog's answer (accepted, texts, confirmation) is a parameter.
- Export to CSV, Excel and JSON on the reports screen: it only formats the loaded entries.
- Floating point: ratios and averages are not computed; the model states which projects get a ratio and when a ratio exceeds 1, comparing logged hours against the target directly. Number formatting (`:.1f`, `:.2f`) is left out.
- File I/O: files are values with a "does not parse" variant; `open`, encodings and permissions are not modelled. JSON `null` and values of the wrong type (a string for `hours`, say) are left out; `str()` of non-string JSON values in imports is modelled as the string already being there.
- The folder's `projects/` and `time/` sub-directories are taken to exist whenever a folder is configured, since the store creates them when the folder is set; a missing `time/` directory reads as an empty listing.
- The clock, `uuid4` and the OS user name are parameters; `__new__` singletons are single objects passed around explicitly.
- Signals that only trigger a refresh (data_changed, project_clicked, navigation) are left out; a screen's refresh is its own method.
- The home screen's status bar and user label, and the reports screen's `refresh`, which only re-adds the same two user-filter items and reloads as `LoadData`.
- Aliasing: the project screen and its tabs share one project object in the program, and so does the service's cache after a save. The model holds project values: the modules tab's change reaches the screen through `OnProjectUpdated`, which takes the tab and requires that the screen and the tab both hold a project or both hold none; a change the tab makes is not seen by the cache before it is saved.
- `app/main_window.py` and `main.py` only wire the screens together and are not part of this model.
- Themes: `current_theme_id` and `get_custom_theme` are the manager's fields `currentThemeId` and `customTheme`; a preference file whose top level is not a JSON object (an AttributeError at start-up) is left out.
- DataService.LoadAfterSave: requires that the file names in a folder are distinct and no other file holds a project with the same id; the program does not check this.
- Models.GetCustomField: only string attributes of a project are read; a non-string legacy attribute of the same name is read as absent.
- Models.CreateEntry: instants are whole seconds, so a start or end with microseconds (which `total_seconds()` sees) is not modelled; from 00:00:00.5 to 02:00:00 the program counts 1 hour, an input whole seconds cannot state.
- ProjectDetail.AppliedProperties: one `nowIso` stands for both `created_at` and `modified_at` of a new project; the program reads `datetime.now()` separately for each, so the two stamps can differ slightly.
- Models.GetFieldValues: only the nine legacy attributes that hold lists of strings are read; a key naming another attribute (`employees`, `project_fields`, `optional_tab`, or a method) reads as absent, where `getattr` would return that attribute.
- Dates.FormatParseIso: `date.fromisoformat` is modelled as in Python 3.7 to 3.10, which accepts only `YYYY-MM-DD`; Python 3.11 and later also accept forms such as `20240115` and `2024-W03-1`. Every date the program writes is `yyyy-MM-dd`.
- ProjectDetail.InfoBarOf: the ratio itself is not computed, only whether it is shown and whether it exceeds 1. The label's style is not modelled: with no positive target the program sets only the text "—", so a red style from an earlier project stays, where `overTarget` is simply false.
- DataService.DataService.GetStarredProjects: the contract states only the empty cases; the starred set of a user's file is stated through SetProjectStarred.
- DataService.DataService.ReloadAll: the contract states the projects cache only; team data, current user and today's entries follow from the methods it calls, whose own contracts state them.
- Home.HomeScreen.OnLogTime: states the entry built and the form's reset; what the store does with the entry is SaveTimeEntry's contract.
- Home.HomeScreen.Refresh: states the two sections and the number of project items, not the restored selections, which RefreshDropdowns states.
- ProjectDetail.TimeLogTab.LoadEntries: a folder whose `time/` directory is missing is read as an empty listing, so the total reads 0 where the program leaves the earlier total label.
- ProjectDetail.Utf8: states only that the encoding is bytes; the three encodings used are stated by SeparatorsAreGarbled.

## Findings

| source | as written | input that shows it | evidently intended | confidence | as-written member | corrected member |
|---|---|---|---|---|---|---|
| app/data_service.py:281 | the glob `{user}_*.json` selects the user's time files | user `alice`, a file of user `alice_bob`: alice's last activity includes bob's project | only files whose user part (before the last '_') is the user | not executed | `DataService.GlobTakesOtherUsersFiles` | `DataService.DataService.GetUserLastActivity` |
| app/screens/project_detail_screen.py:200-211 | the combo selects the first item that contains the id | employees Dan Brown (dbrown) then Ann Lee (an); id "an" selects Dan Brown, and saving stores dbrown | select the item whose id equals the id | not executed | `ProjectDetail.SubstringPicksWrongEmployee` | `ProjectDetail.CorrectedComboRoundTrip` |
| app/screens/project_detail_screen.py:1026-1072 | the separators are `â€º`, `â€¢`, `â€”` | crumbs "Main", "Online" show "Main â€º Online" | the characters '›', '•', '—' (UTF-8 misread as Windows-1252) | not executed | `ProjectDetail.InfoBreadcrumbShowsGarbage` | `ProjectDetail.InfoBreadcrumbTwoCrumbs` |
| app/screens/reports_screen.py:155-163 | a preset sets the date edits, whose dateChanged handler sets the selector to "Custom" | on 2024-01-03 choosing "This Week" after "Last 7 Days": the selector reads "Custom" | the selector keeps showing the chosen preset | not executed | `Reports.PresetShowsCustom` | `Reports.ReportsScreen.OnPeriodChanged` |
| app/screens/admin_screen.py:148-161 | editing a list item does not check for duplicates | ["A", "B"], rename row 1 to "A": "A" twice | reject a text another row holds, as adding does | not executed | `Admin.EditCanDuplicate` | `Admin.EditKeepsDistinct` |
| app/screens/admin_screen.py:423-466 | editing an employee does not check that the new username is free | dsmith and ajones, rename ajones to dsmith: two employees dsmith | reject a username another employee has, as adding does | not executed | `Admin.EditEmployeeCanDuplicate` | `Admin.EditEmployeeKeepsUnique` |
