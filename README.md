# Volunteer administration frontend: a verified model of its page rules

The repository is a React frontend for a temple volunteer service. Volunteers
register for festival service slots, coordinators assign services, and
attendance is marked by WhatsApp number or by a QR code. Most of each page is
markup and REST calls. Each page also holds a few small rules, and this
project models them in Dafny and proves what they guarantee:

- the registration form's ordered validator, its one-slot-per-date
  availability list, and the payload it posts after renaming, deleting and
  defaulting fields (`VolunteerForm`);
- the paginated volunteer table: the page arithmetic, the query parameters,
  the value of the assign dropdown, and the per-row selection and in-flight
  maps (`VolunteerTable`);
- the "already attended today" rule, and the fetch and mark transitions of
  the attendance page (`VolunteerAttendance`);
- WhatsApp normalisation and the classification of an assignment lookup
  (`CheckServiceAssignment`);
- the list filters, de-duplicated type lists and per-type counts of the
  dashboard, the attendance report, the service-type page and the status
  list (`VolunteerDashboard`, `Siva`, `Balaji`, `StatusUsers`);
- the local service-type patch, shared in `Roster`, with the confirm-then-apply
  dialog (`Balaji`, `ServiceTypeManager`);
- deletion by id and the reporting-time AM/PM spacing (`ServiceList`);
- the decode-once flow of the QR scanner (`QrAttendanceScanner`);
- the coordinator form's guard, payload and reset (`ServiceCoordinatorForm`).

Every network answer is a parameter of the handler that receives it:
- `Outcome<T> = Ok(data) | NotOk(status) | Failed(message)` where the page
  checks the status;
- `Option<T>` where it only distinguishes success from a thrown request.

Page state is a class whose fields are the component's state variables. Each
handler is a method that changes exactly those fields. The rules are pure
functions, and lemmas relate them. `Common` holds the JavaScript behaviour the
pages rely on: `trim`, `toLowerCase`, `includes`, `Array.prototype.filter`,
`new Set`, and `||` as a default.

Two behaviours are modelled as written and stated as lemmas, not corrected:
- A full-day volunteer who is not a young man is refused unless the T-shirt
  size and accommodation were chosen while those inputs were shown. They
  render only for a young man with a full-day slot, and nothing clears them
  when the age or gender changes, but the validator requires them of every
  full-day volunteer. See `VolunteerForm.FullDayWithoutTShirtInputRefused`
  and `VolunteerForm.HiddenSizeCarriesOver`.
- When the QR scanner's camera starts successfully, it sets the same flag that
  the decode callback tests. So a code decoded after the start is ignored. See
  `QrAttendanceScanner.DecodeAfterStartIsIgnored`.

## Model

| member | source | states |
|---|---|---|
| Common.OrElse | src/project/VolunteerAttendance.jsx:71 | the `or` default on an optional string: the value when it is present and non-empty, otherwise the default |
| Common.BlankIffAllWhitespace | src/project/VolunteerForm.jsx:64 | `!s.trim()` holds exactly when every character of `s` is whitespace |
| Common.TrimStartEmpty | src/project/VolunteerForm.jsx:64 | trimming the front leaves nothing iff the string is all whitespace, and otherwise leaves a non-whitespace first character |
| Common.TrimEndEmpty | src/project/VolunteerForm.jsx:64 | trimming the end leaves nothing iff the string is all whitespace |
| Common.IncludesAt | src/VolunteerDashboard.jsx:72 | `s.includes(t)` holds whenever `t` occurs at some position of `s` |
| Common.Filter | src/StatusUsers.jsx:30 | `Array.prototype.filter`: exactly the elements passing the test, an order-preserving subsequence, never longer |
| Common.FilterMultiplicity | src/ServiceList.jsx:51 | a filter keeps every passing element as often as it occurred and drops every other occurrence |
| Common.FilterKeepsAll | src/VolunteerDashboard.jsx:71-75 | a test every element passes leaves the list unchanged |
| Common.FilterConcat | src/Siva.jsx:54-78 | filtering a concatenation filters each part |
| Common.FilterSameTest | src/Balaji.jsx:127-129 | two tests that agree on the list's elements give the same filtered list |
| Common.FilterFilter | src/Siva.jsx:56-76 | filtering twice is filtering once by the conjunction of the tests |
| Common.FilterIdempotent | src/ServiceList.jsx:51 | filtering a filtered list again by the same test changes nothing |
| Common.SubsequenceNotLonger | src/VolunteerDashboard.jsx:71 | a subsequence is never longer than the list it comes from |
| Common.FirstIndex | src/VolunteerDashboard.jsx:66 | the first position of an element: it holds the element and none before it does |
| Common.FirstIndexAppend | src/Siva.jsx:81-85 | appending does not move the first occurrence of an element already present |
| Common.Distinct | src/VolunteerDashboard.jsx:66 | `[...new Set(xs)]`: the same elements, each once, in the order of first occurrence |
| VolunteerTable.HasCoordinator | src/project/volunteerTable.jsx:73 | `some` over the coordinators: true iff one has the id |
| VolunteerTable.FindCoordinator | src/project/volunteerTable.jsx:141-144 | `find`: `None` iff no coordinator has the id, otherwise a listed coordinator with that id |
| VolunteerTable.DropdownValue | src/project/volunteerTable.jsx:65-78 | the local selection wins; otherwise the assigned id if some coordinator has it, else the empty placeholder |
| VolunteerTable.FetchParams | src/project/volunteerTable.jsx:80-87 | `page` and `pageSize` = 20 always present; `name` and `whatsapp` present iff non-empty; no other keys |
| VolunteerTable.PageCount | src/project/volunteerTable.jsx:238 | `ceil(total / 20)`: the smallest page count whose pages hold every volunteer |
| VolunteerTable.Prev | src/project/volunteerTable.jsx:327 | `max(p - 1, 1)`: never below 1, and either page 1 or exactly one page back |
| VolunteerTable.Next | src/project/volunteerTable.jsx:339 | `min(p + 1, pageCount)`: never above the page count, and either the last page or exactly one page on |
| VolunteerTable.PrevNextInRange | src/project/volunteerTable.jsx:327-340 | on a valid page both buttons stay within 1..pageCount, and Prev and Next undo each other away from the ends |
| VolunteerTable.SerialNumber | src/project/volunteerTable.jsx:361-366 | every row's serial number follows the earlier pages' 20 rows each, and a row among the first 20 stays within its page's block |
| VolunteerTable.SerialNumbersConsecutive | src/project/volunteerTable.jsx:361-366 | consecutive rows of a page get consecutive serial numbers |
| VolunteerTable.OversizedPageRepeatsNumbers | src/project/volunteerTable.jsx:361-366 | a 21st row on a page would repeat the number of the next page's first row |
| VolunteerTable.SerialNumbersContiguous | src/project/volunteerTable.jsx:366 | the first row of a page follows the last row of the previous page |
| VolunteerTable.SerialNumbersDistinct | src/project/volunteerTable.jsx:366 | among pages of at most 20 rows, two rows with the same serial number are the same row of the same page |
| VolunteerTable.TableView.constructor | src/project/volunteerTable.jsx:48-59 | the initial state: no volunteers, page 1, empty filters and maps |
| VolunteerTable.TableView.ReceivePage | src/project/volunteerTable.jsx:92-94 | a non-array `data` gives an empty list and a missing `totalCount` gives 0; a thrown request changes nothing |
| VolunteerTable.TableView.ReceiveCoordinators | src/project/volunteerTable.jsx:116-125 | the coordinator list is replaced on success and kept on failure |
| VolunteerTable.TableView.SetFilters | src/project/volunteerTable.jsx:106-110 | a changed filter requests page 1 with the new filters, resets the page to 1 and clears every selection; an unchanged one does nothing |
| VolunteerTable.TableView.PrevPage | src/project/volunteerTable.jsx:324-332 | disabled on page 1; otherwise one page back and a fetch of that page |
| VolunteerTable.TableView.NextPage | src/project/volunteerTable.jsx:336-344 | disabled on the last page; otherwise one page on, never past the last, and a fetch of that page |
| VolunteerTable.TableView.BeginAssign | src/project/volunteerTable.jsx:134-157 | the selection is recorded and the row marked in flight; the PATCH body is the coordinator with that id, and nothing is sent when there is none |
| VolunteerTable.TableView.FinishAssign | src/project/volunteerTable.jsx:158-173 | the row is no longer in flight on success and on failure; only success re-fetches the current page |
| VolunteerAttendance.ServiceTypeOf | src/project/VolunteerAttendance.jsx:71 | the assigned service name, or "General" when it is missing or empty |
| VolunteerAttendance.AnyCountsToday | src/project/VolunteerAttendance.jsx:92-96 | `some` record has today's date, the volunteer's service type and `attended` set |
| VolunteerAttendance.AlreadyAttended | src/project/VolunteerAttendance.jsx:91-97 | true iff a mark succeeded, or the loaded volunteer has a record counting for today |
| VolunteerAttendance.OtherRecordsDoNotCount | src/project/VolunteerAttendance.jsx:92-96 | records for another date, another service type or not attended never count |
| VolunteerAttendance.AttendancePage.constructor | src/project/VolunteerAttendance.jsx:34-39 | the initial state |
| VolunteerAttendance.AttendancePage.SetWhatsappNumber | src/project/VolunteerAttendance.jsx:134-135 | typing in the number input replaces the number and nothing else |
| VolunteerAttendance.AttendancePage.Fetch | src/project/VolunteerAttendance.jsx:43-58 | the number looked up is the one in the input; a 2xx answer loads the volunteer; otherwise there is no volunteer and the error is "Volunteer not found" or the thrown message; never left loading |
| VolunteerAttendance.TypeThenFetch | src/project/VolunteerAttendance.jsx:43-58 | the lookup after typing a number asks for exactly that number, and a non-2xx answer shows "Volunteer not found" |
| VolunteerAttendance.AttendancePage.MarkAttendance | src/project/VolunteerAttendance.jsx:60-89 | with no volunteer nothing changes and nothing is sent; otherwise it posts the number, today and the service type; success marks attendance, takes the server's copy and shows "already attended" |
| VolunteerForm.ChooseSlot | src/project/VolunteerForm.jsx:57-61 | the chosen slot is last, no other entry has its date, and the other dates' entries keep their relative order |
| VolunteerForm.SlotForAppend | src/project/VolunteerForm.jsx:57-61 | the radio group for a date shows the last slot appended for it |
| VolunteerForm.SlotForWithoutDate | src/project/VolunteerForm.jsx:58 | dropping one date's entries leaves every other date's shown slot unchanged |
| VolunteerForm.ChooseSlotShown | src/project/VolunteerForm.jsx:57-61 | after a choice, the date shows the new slot and every other date shows what it did |
| VolunteerForm.SlotForNone | src/project/VolunteerForm.jsx:57-61 | a date with no entry shows no selection |
| VolunteerForm.FilterKeepsOneSlotPerDate | src/project/VolunteerForm.jsx:58 | dropping a date's entries keeps at most one entry per date |
| VolunteerForm.ChooseSlotKeepsOneSlotPerDate | src/project/VolunteerForm.jsx:57-61 | choosing keeps at most one entry per date |
| VolunteerForm.ChooseSlotIdempotent | src/project/VolunteerForm.jsx:57-61 | choosing the same slot twice is choosing it once |
| VolunteerForm.Validate | src/project/VolunteerForm.jsx:63-76 | no error exactly when every applicable requirement holds; otherwise the first failing check's message; a blank name always gives "Name is required" |
| VolunteerForm.YoungBoyFieldsIgnoredOtherwise | src/project/VolunteerForm.jsx:70-72 | for anyone but a man under 30, profession, marital status and college never affect validation |
| VolunteerForm.FullDayFieldsIgnoredOtherwise | src/project/VolunteerForm.jsx:73-74 | without a full-day slot, T-shirt size and accommodation never affect validation |
| VolunteerForm.FullDayWithoutTShirtInputRefused | src/project/VolunteerForm.jsx:73 | a full-day volunteer who is not a young man, with the T-shirt size left empty, is always refused |
| VolunteerForm.HiddenSizeCarriesOver | src/project/VolunteerForm.jsx:240-254 | a form valid for a young man stays valid when the gender is switched, keeping a size chosen while the input was shown |
| VolunteerForm.Fields | src/project/VolunteerForm.jsx:86 | the copied form: every form field present, and none of the renamed properties yet |
| VolunteerForm.ShapePayload | src/project/VolunteerForm.jsx:86-108 | the posted payload: profession, marital status and college only for young men (profession defaulting to "Student"); accommodation only for full-day volunteers; `infoSource` defaulting to "Other"; `referredBy`, `locality` and `tshirtSize` replacing the old names |
| VolunteerForm.ValidPayloadKeepsTypedValues | src/project/VolunteerForm.jsx:99-101 | after validation the "Student" and "Other" referrer defaults never apply: the typed values are sent |
| VolunteerForm.RegistrationForm.constructor | src/project/VolunteerForm.jsx:31-46 | the empty form |
| VolunteerForm.RegistrationForm.SelectSlot | src/project/VolunteerForm.jsx:57-61 | only the availability list changes, by `ChooseSlot` |
| VolunteerForm.RegistrationForm.Submit | src/project/VolunteerForm.jsx:78-125 | a validation error posts nothing and keeps the form; otherwise the shaped payload is posted and only a successful post empties the form |
| CheckServiceAssignment.NormalizeWhatsapp | src/project/CheckServiceAssignment.jsx:26 | only digits remain, in their order, and each digit as often as in the input |
| CheckServiceAssignment.NormalizeWhatsappIdempotent | src/project/CheckServiceAssignment.jsx:26 | normalising twice is normalising once |
| CheckServiceAssignment.DigitsOnlyUnchanged | src/project/CheckServiceAssignment.jsx:26 | a digits-only number is returned unchanged |
| CheckServiceAssignment.NormalizeWhatsappConcat | src/project/CheckServiceAssignment.jsx:26 | normalising a concatenation normalises each part |
| CheckServiceAssignment.CheckDisabledIffNoDigit | src/project/CheckServiceAssignment.jsx:190 | when no check is running, the button is disabled exactly when the input holds no digit |
| CheckServiceAssignment.FetchVolunteerData | src/project/CheckServiceAssignment.jsx:28-44 | data only for a 2xx answer; a 404, another status or a thrown request all give null |
| CheckServiceAssignment.Classify | src/project/CheckServiceAssignment.jsx:57-102 | not found iff no data; no service iff no `assignedService` or `_id`; not yet assigned iff a field is "nan" or empty; otherwise exactly the three fields |
| CheckServiceAssignment.AssignedServiceIsComplete | src/project/CheckServiceAssignment.jsx:78-102 | a shown service never carries "nan" or an empty value |
| CheckServiceAssignment.AssignmentCheck.constructor | src/project/CheckServiceAssignment.jsx:20-23 | the initial state |
| CheckServiceAssignment.AssignmentCheck.Check | src/project/CheckServiceAssignment.jsx:46-125 | looks up the normalised number; "not found" iff no data; a service shown iff the assignment is complete; `checking` is false after every path |
| VolunteerDashboard.ListedTypes | src/VolunteerDashboard.jsx:65 | the service types that are present and not blank after trim |
| VolunteerDashboard.ServiceTypes | src/VolunteerDashboard.jsx:64-67 | each non-blank service type exactly once, in first-occurrence order |
| VolunteerDashboard.BlankTypesNotOffered | src/VolunteerDashboard.jsx:65 | a whitespace-only type is never offered |
| VolunteerDashboard.FilteredVolunteers | src/VolunteerDashboard.jsx:70-76 | kept iff the number contains the search and the filter is empty or equal to the type; an order-preserving subsequence |
| VolunteerDashboard.EmptyCriteriaShowAll | src/VolunteerDashboard.jsx:72-73 | empty search and empty filter show every volunteer |
| VolunteerDashboard.ShowsNoMatchIff | src/VolunteerDashboard.jsx:250 | the no-match message appears iff there is data and no volunteer matches |
| Roster.PatchServiceType | src/Balaji.jsx:97-99 | entries with the id get the new service type; every other entry and field, the length and the order are unchanged |
| Roster.PatchKeepsIds | src/ServiceTypeManager.jsx:63-65 | the patch changes no id, name or number |
| Roster.PatchIdempotent | src/ServiceTypeManager.jsx:62-66 | the same update twice is the update once |
| Roster.PatchLaterWins | src/Balaji.jsx:97-99 | of two updates to one volunteer, the later one is what remains |
| Roster.PatchesCommute | src/Balaji.jsx:97-99 | updates to two different volunteers commute |
| Balaji.Visible | src/Balaji.jsx:125-129 | with a route id exactly the volunteers with that `_id`; otherwise those with a number containing the search, ignoring case; an order-preserving subsequence |
| Balaji.EmptySearchListsNumbered | src/Balaji.jsx:127-129 | without a route id an empty search lists exactly the volunteers that have a number |
| Balaji.SearchIgnoresCase | src/Balaji.jsx:128 | searches equal after lowercasing list the same volunteers |
| Balaji.BalajiPage.constructor | src/Balaji.jsx:29-37 | the initial state, loading |
| Balaji.BalajiPage.Load | src/Balaji.jsx:114-122 | the list is replaced on success and kept on failure; loading ends false |
| Balaji.BalajiPage.ConfirmServiceTypeChange | src/Balaji.jsx:75-78 | only the pending update is recorded and the dialog opened |
| Balaji.BalajiPage.Cancel | src/Balaji.jsx:230 | only the dialog closes |
| Balaji.BalajiPage.PerformUpdate | src/Balaji.jsx:80-112 | sends the pending update; a resolved PATCH, whatever its status, patches the list; a thrown one leaves it; the dialog closes either way; with nothing pending nothing changes |
| Balaji.ConfirmThenApply | src/Balaji.jsx:75-112 | choosing then confirming sends that update and patches that volunteer only |
| ServiceTypeManager.ServiceTypeManagerPage.constructor | src/ServiceTypeManager.jsx:20-21 | the initial state, loading |
| ServiceTypeManager.ServiceTypeManagerPage.Load | src/ServiceTypeManager.jsx:24-41 | the list is replaced on success and kept on failure; loading is false after both |
| ServiceTypeManager.ServiceTypeManagerPage.ChangeServiceType | src/ServiceTypeManager.jsx:43-77 | sends the update; the patch applies unless the request throws, whatever the status |
| ServiceTypeManager.ChangeTwice | src/ServiceTypeManager.jsx:62-66 | the same change made twice leaves the list as one change does |
| Siva.ServiceKey | src/Siva.jsx:47 | the record's service type, or "N/A" when it is missing or empty; never empty |
| Siva.Occurrences | src/Siva.jsx:46-48 | the number of records with a key: at most the record count, and positive iff some record has the key |
| Siva.OccurrencesStep | src/Siva.jsx:46-48 | one more record adds one to its own key's count and nothing to the others |
| Siva.CountServiceTypes | src/Siva.jsx:44-51 | the counts have exactly the keys that occur, each mapped to its number of records |
| Siva.Keys | src/Siva.jsx:83 | the key of every record, in order |
| Siva.UniqueServiceTypes | src/Siva.jsx:81-85 | each key that occurs exactly once, in first-occurrence order |
| Siva.CountOfDistinct | src/Siva.jsx:81-85 | a key occurs at most once among the distinct keys |
| Siva.SumOfCountsAppend | src/Siva.jsx:46-48 | one more record adds one to the total count over keys that include its own |
| Siva.SumOfCountsCovers | src/Siva.jsx:44-51 | summed over distinct keys covering every record, the counts add up to the record count |
| Siva.SumOfCountsEmpty | src/Siva.jsx:45 | with no records every count is zero |
| Siva.CountsSumToRecords | src/Siva.jsx:44-85 | the per-type counts sum to the number of records |
| Siva.FilteredEntries | src/Siva.jsx:53-79 | kept iff the service filter is "All" or equals the key, and the search is blank or its lowercased, untrimmed text occurs in the name, number or type; an order-preserving subsequence |
| Siva.NoFilterListsAll | src/Siva.jsx:56-63 | "All" with a blank search lists every record |
| Siva.TwoStages | src/Siva.jsx:57-75 | the service filter followed by the search filter is the single combined filter |
| Siva.ApplyFilters | src/Siva.jsx:53-79 | the stepwise narrowing of the copied records gives the filtered entries |
| Siva.SivaPage.constructor | src/Siva.jsx:21-26 | the initial state, consistent |
| Siva.SivaPage.Refilter | src/Siva.jsx:53-79 | the table shows the filtered entries of the current records and filters |
| Siva.SivaPage.Load | src/Siva.jsx:29-42 | the records are replaced on success, with the counts and table recomputed; loading ends false on both paths |
| Siva.SivaPage.SetSearchTerm | src/Siva.jsx:53-79 | a new search re-filters the table and keeps the counts |
| Siva.SivaPage.SetServiceFilter | src/Siva.jsx:53-79 | a new service filter re-filters the table and keeps the counts |
| QrAttendanceScanner.LastSegment | src/QrAttendanceScanner.jsx:82-83 | the last '/'-separated part: a suffix of the path with no '/', preceded by '/' or the whole path |
| QrAttendanceScanner.TrailingSlashGivesEmptySegment | src/QrAttendanceScanner.jsx:82-84 | a path ending in '/' gives an empty id |
| QrAttendanceScanner.LastSegmentOfAppended | src/QrAttendanceScanner.jsx:82-83 | the id of any path followed by "/id" is `id` |
| QrAttendanceScanner.StatusFor | src/QrAttendanceScanner.jsx:26-47 | the status starts with the tick iff the answer is 2xx; otherwise the cross with the server message, "Verification failed." or "Network error" |
| QrAttendanceScanner.QrScanner.constructor | src/QrAttendanceScanner.jsx:14-18 | the initial state, flag clear |
| QrAttendanceScanner.QrScanner.StartSucceeded | src/QrAttendanceScanner.jsx:115-117 | a successful start sets the decode flag |
| QrAttendanceScanner.QrScanner.StartFailed | src/QrAttendanceScanner.jsx:118-129 | a failed start shows the camera error and completes the scan |
| QrAttendanceScanner.QrScanner.SendVerification | src/QrAttendanceScanner.jsx:21-59 | the status for the answer; loading false and the scan completed on every path |
| QrAttendanceScanner.QrScanner.OnDecode | src/QrAttendanceScanner.jsx:69-109 | with the flag set nothing changes; otherwise the flag is set, the camera is stopped once, at most one code per mount is processed, and the scan completes: an unparsable code or an empty id sends nothing and leaves `loading` as it was, and a non-empty id sends one verification |
| QrAttendanceScanner.QrScanner.Cleanup | src/QrAttendanceScanner.jsx:131-133 | the camera is stopped exactly when the flag is set, adding one stop call |
| QrAttendanceScanner.CleanupAfter | src/QrAttendanceScanner.jsx:61-140 | on unmount the camera is stopped iff a code was processed or the start succeeded; a fresh scanner or a failed start with no decode stops nothing, and a processed decode followed by unmount stops the camera twice |
| QrAttendanceScanner.DecodeAfterStartIsIgnored | src/QrAttendanceScanner.jsx:115-117 | a code decoded after a successful start is never verified |
| QrAttendanceScanner.SecondDecodeIsIgnored | src/QrAttendanceScanner.jsx:70-71 | of two decodes only the first is processed |
| ServiceList.DeleteById | src/ServiceList.jsx:51 | exactly the services with another id remain, in order |
| ServiceList.DeleteRemovesExactlyThatId | src/ServiceList.jsx:51 | every service with another id stays as often as it was listed, and none with the id does |
| ServiceList.DeleteIdempotent | src/ServiceList.jsx:51 | deleting the same id twice is deleting it once |
| ServiceList.FirstMeridiem | src/ServiceList.jsx:106 | where the AM-or-PM pattern first matches: none iff no "AM" or "PM" occurs, otherwise a match with no earlier one |
| ServiceList.SpaceBeforeMeridiem | src/ServiceList.jsx:106 | a time without AM/PM is unchanged; otherwise one space is inserted before the first marker and the rest is untouched |
| ServiceList.SpacedTimeExample | src/ServiceList.jsx:106 | "7:30AM" is shown as "7:30 AM" |
| ServiceList.UnmarkedTimeExample | src/ServiceList.jsx:106 | "7:30" is shown as it is |
| ServiceList.AlreadySpacedTimeExample | src/ServiceList.jsx:106 | "7:30 AM" is shown as "7:30  AM", with a second space |
| ServiceList.InsertedSpaceRemovable | src/ServiceList.jsx:106 | the replacement adds one space right before the first marker, and deleting it gives the time back |
| ServiceList.ReportingTimeLabel | src/ServiceList.jsx:104-106 | the report time line is shown iff the time is present and non-empty; a time without a marker is shown as it is, one with a marker gains exactly one space just before its first marker and is otherwise unchanged |
| ServiceList.ServiceListPage.constructor | src/ServiceList.jsx:16-17 | the initial state, loading |
| ServiceList.ServiceListPage.Load | src/ServiceList.jsx:21-37 | success replaces the list and clears loading; a failure changes nothing, so loading stays true |
| ServiceList.ServiceListPage.Delete | src/ServiceList.jsx:43-67 | a 2xx answer deletes by id; any other answer or a thrown request leaves the list |
| ServiceCoordinatorForm.Complete | src/project/ServiceCoordinatorForm.jsx:23 | the guard passes iff every field holds a non-whitespace character |
| ServiceCoordinatorForm.CoordinatorForm.constructor | src/project/ServiceCoordinatorForm.jsx:16-19 | empty fields, not loading |
| ServiceCoordinatorForm.CoordinatorForm.BeginSubmit | src/project/ServiceCoordinatorForm.jsx:22-34 | an incomplete form sends nothing and leaves loading as it was; otherwise loading is set while the untrimmed fields are posted |
| ServiceCoordinatorForm.CoordinatorForm.FinishSubmit | src/project/ServiceCoordinatorForm.jsx:35-47 | success clears the three fields and failure keeps them; loading ends false |
| ServiceCoordinatorForm.CoordinatorForm.Submit | src/project/ServiceCoordinatorForm.jsx:22-48 | the whole handler: nothing changes without all three fields; otherwise the exact fields are posted, cleared only on success, and loading ends false |
| ServiceCoordinatorForm.ResubmitAfterSuccessIsRefused | src/project/ServiceCoordinatorForm.jsx:23-38 | after a successful submit the cleared form refuses a second one |
| StatusUsers.KeepWithStatus | src/StatusUsers.jsx:30 | exactly the users whose status is not `null`, in order |
| StatusUsers.MissingStatusIsKept | src/StatusUsers.jsx:30 | users with no status property are kept, with their multiplicity; users with `null` are dropped |
| StatusUsers.Render | src/StatusUsers.jsx:43-103 | spinner iff loading; otherwise the error if any; otherwise the empty notice iff there are no users; otherwise the table of the users |
| StatusUsers.StatusUsersPage.constructor | src/StatusUsers.jsx:20-22 | no users, loading, no error |
| StatusUsers.StatusUsersPage.Load | src/StatusUsers.jsx:25-38 | success keeps the users with a status; a non-2xx or thrown fetch sets "Error fetching users." and leaves the users; loading ends false in every case |
| StatusUsers.FirstLoad | src/StatusUsers.jsx:25-70 | after the fetch the page shows the error on failure, the empty notice when no user has a status, and otherwise the table of those users |

## Left out

- HTTP traffic: the base URLs, the request headers and the JSON encoding of bodies. Every answer, and whether a request threw, is a parameter of its handler.
- Toasts, dialogs, drawers, layout and the sidebar: the text of toast messages is not modelled.
- React scheduling: when effects run, batching of state updates, stale closures and async interleaving. Each handler is one atomic step, except the coordinator form's submit, which is split at its `await`.
- URL parsing of a decoded QR code, which follows the WHATWG URL standard: the path, or its failure to parse, is a parameter. The calls that stop the camera are counted, but their effect on the camera, the call to `clear()`, and a failing stop are not modelled.
- The formatted date of "today" is a parameter of the attendance page.
- `Number()` coercion of the age (NaN, fractions, numeric strings): the age is an optional integer.
- `toLowerCase` and `trim` act on ASCII letters and the common whitespace characters only; Unicode case mapping and the full whitespace set are not modelled.
- VolunteerForm.ShapePayload: the order of the payload's properties, and values other than strings and numbers, are not modelled; the payload is a record with one optional value per property.
- VolunteerTable.SerialNumbersDistinct: holds only for pages of at most 20 rows. The page does not cap the rows it numbers; it relies on the server answering with at most `pageSize` rows, and the model does not bound the received page.
- VolunteerTable: the export-to-sheet action, volunteer deletion, the details drawer and the mobile layout are not modelled.
- Balaji: the fetch of the service options for the select is not modelled; the selectable types are whatever the caller passes.
- CheckServiceAssignment.AssignmentCheck.Check: the outer `catch` of the handler is not modelled, because the lookup already turns every failure into `null` and nothing else in the `try` can throw.
- VolunteerDashboard: the loading and error states and the date formatting of the cards are not modelled.
- Siva: navigation from the report and the rendering of the counts are not modelled.
- The pages that only post a form or list a fetch are not part of this model (project, event, manager, user and meetup forms and lists), nor are routing and the private-route check.
