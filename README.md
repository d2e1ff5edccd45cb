# ee-hrms core, modelled in Dafny

This project models the client-side rules and the exit middleware of the ee-hrms HR
application (Laravel with an Inertia/React front end).

- **Exit gate** (`exit_gate.dfy`): the middleware run on every authenticated request.
  An employee-type user whose exit date has passed 18:00 is set inactive (written only
  when not already inactive), logged out, has the session invalidated and the CSRF token
  regenerated, and is redirected to the login page with a fixed message.
- **Employee profile** (`employee_timeline.dfy`, `employee_documents.dfy`):
  - the history tab, which builds one event list from the employee's records and sorts
    it by date, newest first;
  - the document badge and the document controls;
  - the new-document upload form of the edit page.
- **Employee create and edit forms** (`employee_form.dfy`):
  - the initial form data;
  - the change handler, which clears a field's error and resets the position when the
    department changes;
  - the positions offered for a department;
  - the generated employee id;
  - the multipart payload, which drops empty fields.
- **Recruitment** (`candidate_status.dfy`, `candidate_list.dfy`, `candidate_profile.dfy`):
  - the candidate list's filters and the `_empty_` "no filter" sentinel;
  - its queries, row actions and status update;
  - the status-dependent actions and tabs;
  - the profile's rating stars, job heading, terms badge and offer
    form.
- **Users list** (`user_list.dfy`):
  - filters and queries;
  - the Add User button under the plan limit;
  - role badge colours;
  - the form fields by mode and the role value it submits;
  - row actions.
- **Sidebar navigation** (`nav_menu.dfy`):
  - which entries are active;
  - which groups open when a page is shown;
  - the chevron toggle;
  - the side the menu sits on in right-to-left layouts.
- **Shared rules** (`list_controls.dfy`): the sort-direction toggle of list headers and
  the predicted status of a status toggle.
- **Support** (`wrappers.dfy`, `strings.dfy`, `js_values.dfy`):
  - `Option`;
  - ASCII string helpers;
  - JavaScript's dynamic values (`undefined`, `null`, strings, numbers, booleans) with
    their truthiness, `||` and string conversion.

### Style of the model

The style follows the source:

- **Pure rules** are functions and lemmas.
- **Stateful screens** are classes whose methods update their state:
  `CandidatesPage`, `UsersPage`, `OfferForm`, `DocumentForm`, `EmployeeFormState`,
  `NavMain` and `Gate`.
- **Loops** are `while` loops that carry invariants. The source has two kinds:
  - the `forEach` of the payload builder;
  - the menu walks.

### Representation choices

- **Instants and days:** an instant is whole seconds in the application's time zone, and
  a calendar date is a day number.
- **Untyped server data:** form data and record fields that arrive untyped are
  `Value`s.

### Ordering and filtering of the history tab

- **Same-day events:** the list is sorted with a stable sort on the date alone, with no
  tie-break by priority or id. Events on the same day therefore keep the order in which
  the list was built: joining, awards, promotions, transfers, warnings, complaints,
  resignations, terminations, asset checkouts, asset returns, trainings assigned,
  trainings completed (`TimelineKeepsBuildOrder`).
- **Missing dates:** only asset returns and training completions are filtered for a
  missing date. Every other record is mapped whatever its date.

### The page url in the menu

The menu's expansion (`IsChildActive`, `ProcessKeys`, `Expansion`, `ProcessMenuItems`,
`NavMain`) is built on the corrected active test `IsActive`, which reads only the path
part of the page url. For a url without a query string or fragment it agrees with the
test as written (`AgreesWithoutQuery`). On a url that carries one, the expansion rows
below describe the corrected menu. See "## Findings".

## Model

| member | source | states |
|---|---|---|
| ExitGate.PastCutoffByCalendar | app/Http/Middleware/CheckEmployeeExit.php:24-26 | access is revoked exactly on a later day than the exit day, or on the exit day itself after 18:00:00 |
| ExitGate.CutoffIsStrict | app/Http/Middleware/CheckEmployeeExit.php:26 | 18:00:00 on the exit day still passes; one second later is revoked |
| ExitGate.PastCutoffMonotone | app/Http/Middleware/CheckEmployeeExit.php:24-26 | once past the cutoff, every later instant is past it too |
| ExitGate.Revoked | app/Http/Middleware/CheckEmployeeExit.php:27-37 | afterwards: the user is inactive and logged out; the status is written only if it was not already inactive; the session id and CSRF token are new and the session holds only the flashed message; the user's type and employee link are unchanged |
| ExitGate.Step | app/Http/Middleware/CheckEmployeeExit.php:18-42 | redirects to login exactly when an authenticated employee's exit date is past its cutoff, always with the revocation message; a pass-through changes nothing |
| ExitGate.PassesWithoutExitDate | app/Http/Middleware/CheckEmployeeExit.php:20-23 | requests from guests, non-employee users, employees with no linked record and employees without an exit date pass untouched |
| ExitGate.RevocationIsIdempotent | app/Http/Middleware/CheckEmployeeExit.php:26-37 | the request after a revocation passes (the user is logged out); a user who logs back in is revoked again, and the status is not written again |
| ExitGate.StatusWrittenAtMostOnce | app/Http/Middleware/CheckEmployeeExit.php:28-30 | a revocation adds at most one status write, and none for an already inactive user |
| ExitGate.Gate.constructor | app/Http/Middleware/CheckEmployeeExit.php:18-21 | the gate's fields hold the request's user and session state |
| ExitGate.Gate.Handle | app/Http/Middleware/CheckEmployeeExit.php:16-43 | the imperative handler's new state and response equal `Step`; on redirect the user is inactive and logged out, with a new session and token holding only the message |
| EmployeeTimeline.InsertPermutes | resources/js/pages/hr/employees/show.tsx:257 | inserting an event adds exactly that event to the list's multiset |
| EmployeeTimeline.InsertSorted | resources/js/pages/hr/employees/show.tsx:257 | inserting into a newest-first list keeps it newest-first |
| EmployeeTimeline.InsertOnDay | resources/js/pages/hr/employees/show.tsx:257 | insertion places the new event ahead of the older events of its own day (stability) |
| EmployeeTimeline.SortFacts | resources/js/pages/hr/employees/show.tsx:257 | the sort yields a newest-first permutation of its input |
| EmployeeTimeline.SortKeepsDayOrder | resources/js/pages/hr/employees/show.tsx:257 | the events of one day keep their input order through the sort |
| EmployeeTimeline.TimelineSorted | resources/js/pages/hr/employees/show.tsx:140-257 | the history list is ordered by date, newest first |
| EmployeeTimeline.TimelinePermutes | resources/js/pages/hr/employees/show.tsx:140-257 | the history list holds exactly the assembled events, none lost or duplicated |
| EmployeeTimeline.TimelineKeepsBuildOrder | resources/js/pages/hr/employees/show.tsx:140-257 | events of the same day appear in the order the list was built (no tie-break by priority or id) |
| EmployeeTimeline.CheckinCount | resources/js/pages/hr/employees/show.tsx:228-236 | there is one asset-return event per assignment with a check-in date |
| EmployeeTimeline.CompletedCount | resources/js/pages/hr/employees/show.tsx:247-256 | there is one training-completed event per training with a completion date |
| EmployeeTimeline.TimelineCount | resources/js/pages/hr/employees/show.tsx:140-256 | the list length: one joining event when a joining date is set, one event per award, promotion, transfer, warning, complaint, resignation, termination, asset checkout and training, plus one per return and per completion |
| EmployeeTimeline.ChangeShownAtItsDate | resources/js/pages/hr/employees/show.tsx:159-178 | every promotion and transfer appears with its own date, or its effective date when that is missing |
| EmployeeTimeline.AssembledIdsDistinct | resources/js/pages/hr/employees/show.tsx:140-256 | when the records of each collection have distinct ids, the assembled events have distinct identities |
| EmployeeTimeline.SortDistinct | resources/js/pages/hr/employees/show.tsx:257 | sorting keeps identities distinct |
| EmployeeTimeline.ParseIdString | resources/js/pages/hr/employees/show.tsx:141-248 | an event's `id` string (`onboarding`, `award-7`, `asset-checkin-3`, …) parses back to the event's identity |
| EmployeeTimeline.IdStringInjective | resources/js/pages/hr/employees/show.tsx:141-248 | distinct identities have distinct `id` strings |
| EmployeeTimeline.TimelineIdsUnique | resources/js/pages/hr/employees/show.tsx:140-257 | the history list's `id` strings, used as React keys, are pairwise distinct when record ids are distinct per collection |
| EmployeeDocuments.BadgeFor | resources/js/pages/hr/employees/show.tsx:610-620 | Verified exactly for `verified`, Rejected exactly for `rejected`; Pending otherwise |
| EmployeeDocuments.ControlsOnlyForPending | resources/js/pages/hr/employees/show.tsx:628-633 | approve/reject show exactly for a pending document with the edit permission, which also shows delete; they stand beside a Pending badge |
| EmployeeDocuments.PendingBadgeWithoutControls | resources/js/pages/hr/employees/show.tsx:610-633 | an illustration: an unexpected status reads Pending but offers no approve/reject |
| EmployeeDocuments.UploadFor | resources/js/pages/hr/employees/edit.tsx:72-83 | a posted upload carries the chosen type, file and notes |
| EmployeeDocuments.UploadIffEnabled | resources/js/pages/hr/employees/edit.tsx:73-76 | the handler posts exactly when the upload button is enabled |
| EmployeeDocuments.DocumentForm.constructor | resources/js/pages/hr/employees/edit.tsx:63-67 | the form starts with no type, no file, no notes |
| EmployeeDocuments.DocumentForm.SetDocumentType | resources/js/pages/hr/employees/edit.tsx:63-67 | sets only the document type |
| EmployeeDocuments.DocumentForm.SetFile | resources/js/pages/hr/employees/edit.tsx:63-67 | sets only the file |
| EmployeeDocuments.DocumentForm.SetNotes | resources/js/pages/hr/employees/edit.tsx:63-67 | sets only the notes |
| EmployeeDocuments.DocumentForm.Upload | resources/js/pages/hr/employees/edit.tsx:72-97 | posts exactly when type and file are chosen; a successful upload empties the form; a refused or failed upload keeps the form as it was |
| EmployeeForm.CreateDefaults | resources/js/pages/hr/employees/create.tsx:19-49 | the create form has exactly its fields |
| EmployeeForm.CreateDefaultsFacts | resources/js/pages/hr/employees/create.tsx:19-49 | status starts `active`, joining date today, every other field empty |
| EmployeeForm.EditDefaults | resources/js/pages/hr/employees/edit.tsx:32-61 | the edit form has exactly its fields |
| EmployeeForm.EditDefaultsFacts | resources/js/pages/hr/employees/edit.tsx:32-61 | a field starts with its recorded value: name and email come from the account; salary comes from the base salary; ids are turned into strings; a missing value gives '' (status: `active`) |
| EmployeeForm.EditWithoutEmployee | resources/js/pages/hr/employees/edit.tsx:32-61 | with no employee record, everything but name and email starts empty and the status `active` |
| EmployeeForm.Changed | resources/js/pages/hr/employees/edit.tsx:111-133 | the changed field takes the new value; changing the department also clears the position; every other field keeps its value |
| EmployeeForm.ClearedErrors | resources/js/pages/hr/employees/edit.tsx:115-121 | the changed field's error is dropped; all other errors stay |
| EmployeeForm.ChangesCommute | resources/js/pages/hr/employees/edit.tsx:111-113 | changes to two different fields other than the department can be made in either order |
| EmployeeForm.DepartmentThenPosition | resources/js/pages/hr/employees/edit.tsx:126-132 | a position chosen after the department is kept; a department chosen after the position clears it |
| EmployeeForm.DepartmentGatesPosition | resources/js/pages/hr/employees/edit.tsx:376 | the create form opens with the position locked; after a department change the position is empty and locked exactly when no department is chosen |
| EmployeeForm.InDepartmentMembers | resources/js/pages/hr/employees/edit.tsx:107-109 | the filtered positions are exactly those whose department id equals the chosen one as a string |
| EmployeeForm.FilteredDesignations | resources/js/pages/hr/employees/edit.tsx:107-109 | no positions when none are loaded, all when no department is chosen, else exactly those of the department |
| EmployeeForm.InDepartmentIdempotent | resources/js/pages/hr/employees/edit.tsx:107-109 | filtering twice by the same department is filtering once |
| EmployeeForm.NonEmptyFields | resources/js/pages/hr/employees/edit.tsx:146-150 | exactly the fields that are not null, undefined or '' are sent, with their values |
| EmployeeForm.PayloadContents | resources/js/pages/hr/employees/edit.tsx:139-150 | the payload holds the `_method` override exactly on edit (unless a field overrides it) plus the non-empty fields, and never an empty value |
| EmployeeForm.FreshCreateSends | resources/js/pages/hr/employees/create.tsx:91-103 | an untouched create form sends just the status and the joining date |
| EmployeeForm.EmployeeFormState.ForCreate | resources/js/pages/hr/employees/create.tsx:19-49 | the create page starts with its defaults and no errors |
| EmployeeForm.EmployeeFormState.ForEdit | resources/js/pages/hr/employees/edit.tsx:32-61 | the edit page starts from the records, with no errors |
| EmployeeForm.EmployeeFormState.SetErrors | resources/js/pages/hr/employees/edit.tsx:164 | the server's errors replace the error map; form data untouched |
| EmployeeForm.EmployeeFormState.HandleChange | resources/js/pages/hr/employees/edit.tsx:111-133 | new data is `Changed`; new errors are `ClearedErrors` |
| EmployeeForm.EmployeeFormState.ApplyGeneratedId | resources/js/pages/hr/employees/create.tsx:51-59 | a generated id fills employee id and biometric id only when the employee id is still empty |
| EmployeeForm.EmployeeFormState.Submit | resources/js/pages/hr/employees/edit.tsx:135-150 | the field-by-field loop builds exactly `Payload` of the form |
| CandidateStatus.ParseStatus | resources/js/pages/hr/recruitment/candidates/index.tsx:379-388 | a parsed status has the stored name |
| CandidateStatus.ParseName | resources/js/pages/hr/recruitment/candidates/index.tsx:379-388 | each of the seven statuses round-trips through its name |
| CandidateStatus.NameInjective | resources/js/pages/hr/recruitment/candidates/index.tsx:379-388 | distinct statuses have distinct names |
| CandidateStatus.GatesByStatus | resources/js/pages/hr/recruitment/candidates/index.tsx:360-368 | Update Status for all but Hired and Rejected; Convert for Hired and not yet an employee; the offer tab for Offer and Offered |
| CandidateStatus.UpdateAndConvertExclusive | resources/js/pages/hr/recruitment/candidates/index.tsx:360-368 | no candidate is offered both actions; a rejected one neither |
| CandidateStatus.OfferTabAllowsUpdate | resources/js/pages/hr/recruitment/candidates/show.tsx:123 | whenever the offer tab shows, the status can still be updated |
| CandidateStatus.StatusOptions | resources/js/pages/hr/recruitment/candidates/index.tsx:379-388 | the sentinel first, then the seven statuses in order |
| CandidateStatus.WithoutSentinel | resources/js/pages/hr/recruitment/candidates/index.tsx:556 | exactly the options other than the sentinel remain |
| CandidateStatus.FormOptionsAreTheStatuses | resources/js/pages/hr/recruitment/candidates/index.tsx:620 | the forms offer the seven statuses once each, in order, never the sentinel |
| CandidateList.InitialFilters | resources/js/pages/hr/recruitment/candidates/index.tsx:20-23 | a set filter is kept as given (numbers in their string form); an unset one starts empty (search) or at the sentinel (selects) |
| CandidateList.ActiveFilterCount | resources/js/pages/hr/recruitment/candidates/index.tsx:36-38 | at most four filters are counted |
| CandidateList.ActiveIffCounted | resources/js/pages/hr/recruitment/candidates/index.tsx:32-38 | there are active filters exactly when the count is positive |
| CandidateList.ClearedHasNone | resources/js/pages/hr/recruitment/candidates/index.tsx:230-235 | reset filters count zero and are inactive |
| CandidateList.FilterQuery | resources/js/pages/hr/recruitment/candidates/index.tsx:45-54 | page 1 always; each filter parameter is present exactly when the filter is set; the page size, as given, whenever defined; no other parameter |
| CandidateList.QueryNeverCarriesSentinel | resources/js/pages/hr/recruitment/candidates/index.tsx:45-54 | no select parameter ever carries `_empty_`, and every parameter carries its filter's value |
| CandidateList.SortQuery | resources/js/pages/hr/recruitment/candidates/index.tsx:56-68 | the filter query plus the clicked field and the toggled direction, nothing else |
| CandidateList.ResetQueryIsClearedQuery | resources/js/pages/hr/recruitment/candidates/index.tsx:230-241 | reset sends what filtering with all filters cleared would send |
| CandidateList.StatusUpdateBody | resources/js/pages/hr/recruitment/candidates/index.tsx:203-208 | nothing is sent for an empty status choice, else the chosen status |
| CandidateList.CandidatesPage.constructor | resources/js/pages/hr/recruitment/candidates/index.tsx:20-30 | the page starts from the rendered filters with every dialog closed |
| CandidateList.CandidatesPage.ResetFilters | resources/js/pages/hr/recruitment/candidates/index.tsx:230-241 | filters cleared, the panel closed, the reset query sent; dialogs untouched |
| CandidateList.CandidatesPage.ApplyFilters | resources/js/pages/hr/recruitment/candidates/index.tsx:45-54 | lists page 1 with the filter query |
| CandidateList.CandidatesPage.HandleAction | resources/js/pages/hr/recruitment/candidates/index.tsx:71-119 | every action makes the row current; view and convert visit their pages; edit, delete and update-status open their dialogs, the last pre-selecting the status |
| CandidateList.CandidatesPage.SubmitStatus | resources/js/pages/hr/recruitment/candidates/index.tsx:203-228 | sends the status for the current candidate exactly when one is chosen; the status modal closes only on success, and every other field of the page is unchanged |
| CandidateProfile.Stars | resources/js/pages/hr/recruitment/candidates/show.tsx:90-96 | five stars, star i filled exactly when i is below the rating |
| CandidateProfile.FilledStars | resources/js/pages/hr/recruitment/candidates/show.tsx:90-96 | the number of filled stars is the rating clamped to 0..5 |
| CandidateProfile.RatingAreaAsWritten | resources/js/pages/hr/recruitment/candidates/show.tsx:90 | stars exactly for a present non-zero rating |
| CandidateProfile.ZeroRatingShowsStrayZero | resources/js/pages/hr/recruitment/candidates/show.tsx:90 | as written, a zero rating renders the text `0` |
| CandidateProfile.RatingArea | resources/js/pages/hr/recruitment/candidates/show.tsx:90-96 | never stray text; the stars of the rating exactly for a present non-zero rating |
| CandidateProfile.RatingAreaAgreesOffZero | resources/js/pages/hr/recruitment/candidates/show.tsx:90 | the corrected area differs from the written one only at zero |
| CandidateProfile.JobHeading | resources/js/pages/hr/recruitment/candidates/show.tsx:245 | the posting's title, else the campaign, else "General Application" |
| CandidateProfile.SalaryPrefill | resources/js/pages/hr/recruitment/candidates/show.tsx:22 | the first truthy of final, expected and current salary, else '' |
| CandidateProfile.PrefillIsARecordedSalary | resources/js/pages/hr/recruitment/candidates/show.tsx:22 | the pre-fill is empty or one of the candidate's salaries |
| CandidateProfile.SetField | resources/js/pages/hr/recruitment/candidates/show.tsx:487-543 | the chosen field holds the typed text and every other field keeps its value |
| CandidateProfile.SetFieldLastWins | resources/js/pages/hr/recruitment/candidates/show.tsx:487-543 | the last value set for a field wins |
| CandidateProfile.FieldsDetermineOffer | resources/js/pages/hr/recruitment/candidates/show.tsx:20-26 | an offer is determined by the values of its five fields |
| CandidateProfile.TermsBadge | resources/js/pages/hr/recruitment/candidates/show.tsx:456-461 | Accepted exactly when the stored value is the string `on`, Not Accepted otherwise |
| CandidateProfile.OnlyOnIsAccepted | resources/js/pages/hr/recruitment/candidates/show.tsx:457 | an illustration of `TermsBadge`: the comparison is strict, so `true` or `"1"` read Not Accepted |
| CandidateProfile.SubmitLabel | resources/js/pages/hr/recruitment/candidates/show.tsx:551-553 | "Sending..." exactly while processing; the resend label exactly when idle with at least one offer sent |
| CandidateProfile.OfferForm.constructor | resources/js/pages/hr/recruitment/candidates/show.tsx:20-26 | the form starts at its initial data with the salary pre-filled |
| CandidateProfile.OfferForm.SetData | resources/js/pages/hr/recruitment/candidates/show.tsx:487-543 | new data is `SetField` of the old |
| CandidateProfile.OfferForm.Send | resources/js/pages/hr/recruitment/candidates/show.tsx:28-39 | posts the current data; on success the form returns to its initial data; it is not processing afterwards |
| ListControls.NextSortDirection | resources/js/pages/hr/recruitment/candidates/index.tsx:57 | descending exactly when the clicked column is the current one sorted ascending |
| ListControls.RepeatedClickAlternates | resources/js/pages/users/index.tsx:106 | clicking the same header again requests the other direction |
| ListControls.ToggledStatus | resources/js/pages/users/index.tsx:265 | `inactive` exactly for `active`; always one of the two |
| ListControls.ToggleTwiceRestores | resources/js/pages/hr/employees/show.tsx:55 | on the two real statuses, toggling twice restores the status |
| UserList.InitialFilters | resources/js/pages/users/index.tsx:31-32 | a set search or role is kept as given; an unset search starts empty and an unset role at `all` |
| UserList.ActiveFilterCount | resources/js/pages/users/index.tsx:46-48 | at most two filters are counted |
| UserList.ActiveIffCounted | resources/js/pages/users/index.tsx:41-48 | `hasActiveFilters` holds exactly when the count is positive; cleared filters count zero |
| UserList.FilterQuery | resources/js/pages/users/index.tsx:65-82 | page 1; search and role exactly when set, with their values; the page size, as given, exactly when truthy; nothing else |
| UserList.QueryCountsActive | resources/js/pages/users/index.tsx:65-82 | the filter parameters the query carries number exactly the active filters |
| UserList.SortQuery | resources/js/pages/users/index.tsx:105-129 | the filter query plus the field and the toggled direction, nothing else |
| UserList.ResetQuery | resources/js/pages/users/index.tsx:293-296 | page 1, and the page size as given whenever it is defined; nothing else |
| UserList.ResetAgreesWithClearedFilter | resources/js/pages/users/index.tsx:288-297 | reset and a cleared filter send the same query exactly when the page size is truthy or undefined; a defined falsy page size (`null`, `0`, `''`, `false`) is sent by reset and left out by the filter |
| UserList.AddUserAction | resources/js/pages/users/index.tsx:302-311 | the button exists exactly with `create-users`; it is enabled exactly when `canCreate` holds (no plan limits, or `can_create`); when disabled it shows the limit text |
| UserList.RoleBadge | resources/js/pages/users/index.tsx:351-357 | violet exactly for names containing admin or manager (case-insensitive), then pink exactly for hr, then blue exactly for employee, grey exactly for names containing none of them |
| UserList.ManagerAnywhere | resources/js/pages/users/index.tsx:351 | any name containing `Manager` is violet |
| UserList.HrManagerIsManager | resources/js/pages/users/index.tsx:351-354 | "HR Manager" contains hr but is violet: manager takes precedence |
| UserList.RolesCell | resources/js/pages/users/index.tsx:344-363 | "No role" exactly for a missing or empty list, else one badge per role with its label (or name) in its colour |
| UserList.NormalizeRoles | resources/js/pages/users/index.tsx:165-167 | a role list becomes its first element (`undefined` when empty); a single value is kept |
| UserList.NormalizeRolesIdempotent | resources/js/pages/users/index.tsx:165-167 | normalising twice is normalising once |
| UserList.FormFields | resources/js/pages/users/index.tsx:706-727 | exactly name, email, password, password_confirmation, roles when creating, and exactly name, email, roles otherwise |
| UserList.SubmitRequest | resources/js/pages/users/index.tsx:163-213 | create stores, edit updates the current user, view sends nothing; the submitted data goes out as given, with only the roles normalised |
| UserList.CreateSendsCredentials | resources/js/pages/users/index.tsx:169-172 | a create submission carries the name, the email and both password fields as typed |
| UserList.UsersPage.constructor | resources/js/pages/users/index.tsx:30-38 | the page starts from the rendered filters with every dialog closed |
| UserList.UsersPage.HandleRoleFilter | resources/js/pages/users/index.tsx:84-103 | the role is kept and the list reloads with the filter query |
| UserList.UsersPage.ResetFilters | resources/js/pages/users/index.tsx:288-297 | filters cleared, the panel closed, the reset query sent |
| UserList.UsersPage.HandleAddNew | resources/js/pages/users/index.tsx:157-161 | an empty form in create mode opens |
| UserList.UsersPage.HandleAction | resources/js/pages/users/index.tsx:131-155 | every action makes the row current; view and edit open the form in that mode; delete and reset-password open their dialogs; toggle-status sends a toggle with the predicted status |
| UserList.UsersPage.SubmitForm | resources/js/pages/users/index.tsx:163-213 | sends `SubmitRequest` for the current mode and user; the form dialog closes exactly when a request was sent and succeeded; nothing else changes |
| NavMenu.SegmentPrefix | resources/js/components/nav-main.tsx:106 | a path matches exactly itself and its extensions by whole `/` segments |
| NavMenu.MatchExtends | resources/js/components/nav-main.tsx:106 | only a path beginning with the href can match it |
| NavMenu.SegmentExamples | resources/js/components/nav-main.tsx:106 | an illustration of `SegmentPrefix`: `/hr` matches `/hr` and `/hr/x`, not `/hrx` |
| NavMenu.PathPart | resources/js/components/nav-main.tsx:104 | the longest prefix of a url before its first `?` or `#` |
| NavMenu.MissingHrefInactive | resources/js/components/nav-main.tsx:100 | a missing or empty href is never active |
| NavMenu.ActiveIffBelowHref | resources/js/components/nav-main.tsx:99-108 | a non-empty href is active exactly when the page's path begins with it and ends there or continues with `/`; as written, the same of the whole url |
| NavMenu.QueryStringHidesActiveEntry | resources/js/components/nav-main.tsx:103-106 | as written, `/users` is not active on `/users?page=2`; corrected, it is |
| NavMenu.AgreesWithoutQuery | resources/js/components/nav-main.tsx:103-106 | without a query string or fragment the written and corrected tests agree |
| NavMenu.DescendantsHoldSubtrees | resources/js/components/nav-main.tsx:110-113 | the descendants of a menu include each entry and everything under it |
| NavMenu.ChildActiveIffDescendant | resources/js/components/nav-main.tsx:110-113 | a sub-menu counts as active exactly when some entry at any depth below it is active |
| NavMenu.AnyActiveIffDescendant | resources/js/components/nav-main.tsx:112 | a list has an active entry at some depth exactly when some descendant is active |
| NavMenu.NestedKey | resources/js/components/nav-main.tsx:72 | a nested key is the level's digits, a dash, and the title |
| NavMenu.ProcessMenuItems | resources/js/components/nav-main.tsx:28-52 | the loop marks as open exactly the keys of `ProcessKeys`, keeping the other entries of the shared map (active meaning the corrected path test) |
| NavMenu.ProcessItem | resources/js/components/nav-main.tsx:30-50 | one entry marks its parent key (when lit), its own title and its sub-menu's keys (when it expands), and its nested keys (active meaning the corrected path test) |
| NavMenu.CheckNestedChildren | resources/js/components/nav-main.tsx:66-81 | the loop marks exactly the nested keys of lit groups at every depth (active meaning the corrected path test) |
| NavMenu.NestedKeysShape | resources/js/components/nav-main.tsx:72 | every nested key begins with a digit |
| NavMenu.KeysOrigin | resources/js/components/nav-main.tsx:23-81 | every opened key is the parent key, the title of an expanding group, or a nested key (active meaning the corrected path test) |
| NavMenu.TopLevelExpansion | resources/js/components/nav-main.tsx:40-42 | a top-level group is open when it or something below it is active, or it is `defaultOpen`; with unique titles that do not start with a digit, also only then (active meaning the corrected path test) |
| NavMenu.NestedLevels | resources/js/components/nav-main.tsx:48-50 | a lit group directly under a top-level entry opens under `1-<title>`, and its own nested keys are opened at level 2 (active meaning the corrected path test) |
| NavMenu.Toggled | resources/js/components/nav-main.tsx:83-87 | the key flips between open and closed (missing counts as closed); every other key is unchanged |
| NavMenu.ToggleTwiceRestores | resources/js/components/nav-main.tsx:83-87 | toggling twice leaves every group as open or closed as before |
| NavMenu.EffectivePosition | resources/js/components/nav-main.tsx:20 | the configured side unchanged exactly when not right-to-left, else the opposite side |
| NavMenu.MirrorTwice | resources/js/components/nav-main.tsx:20 | mirroring twice gives back the configured side |
| NavMenu.NavMain.constructor | resources/js/components/nav-main.tsx:17-63 | mounting computes the expansion of the current page from an empty map (active meaning the corrected path test) |
| NavMenu.NavMain.Navigate | resources/js/components/nav-main.tsx:23-63 | a new page recomputes the expansion from an empty map: groups opened by hand close again (active meaning the corrected path test) |
| NavMenu.NavMain.ToggleExpand | resources/js/components/nav-main.tsx:83-97 | the new expansion is `Toggled` of the old; the page is unchanged |

## Left out

- **Rendering:** markup, icons, toasts, the `t()` translations and their parameters
  are not modelled. Captions are the untranslated English.
- **Server and transport:**
  - Inertia visits, routes and the server's handlers are not modelled. A visit or a
    request is a value the method returns.
  - An asynchronous success or failure is a `succeeded` parameter.
- **Browser and storage:**
  - The persistence of the navigation state in `localStorage` is not modelled:
    `nav-main.tsx` writes `nav_expanded_items` (the `STORAGE_KEY` of line 8) at lines 59
    and 93 and never reads it back, so it has no effect on the menu.
  - `document.documentElement.dir` is the `isRtl` parameter.
- **Full-URL hrefs:** `new URL(href).pathname` for hrefs starting with `http` is not
  modelled; hrefs are relative paths.
- **Dates:**
  - JavaScript `Date` parsing, `NaN` dates, and dates that the timeline does not guard
    are not modelled; every such date is a whole day.
  - The exit gate's Carbon date parsing and the application's time zone are not
    modelled; instants are whole seconds of local time.
- **Laravel runtime:** authentication, the session store and token generation are not
  modelled. A regenerated session id or token is the next number, and a status update
  is counted rather than written.
- **Permissions and the form library:**
  - `hasPermission` is set membership.
  - The generic CRUD form modal and its validation are not modelled. The users form's
    submitted data is taken to hold the fields listed for its mode, with the password
    fields `undefined` outside create mode. The modal component that assembles that
    data is not part of this model.
- **Payload shape:** `FormData` is a map, so its entry order and the multipart encoding
  are not modelled.
- **Out of scope:**
  - The employee id generator's server call (its result is a parameter).
  - The mail class, the migrations, `update_create.py`, the login page, the pagination
    and the search bar.
- **Presentational parts:** detail panels that only display fields are not modelled.
  - NavMenu: the menu rendering, tooltips and the collapsed sidebar.
  - Candidate profile: the tabs other than the offer form.
  - Users list: its statistics cards.
- NavMenu.TopLevelExpansion: the converse direction ("open only then") is stated only
  for a title that no other entry shares and that does not start with a digit. This is
  because the code keys groups by title in one map, so a shared title or a title that
  looks like a nested key can open a group for another entry's reason.
- CandidateList.CandidatesPage.SubmitStatus: requires a current candidate when a status
  is chosen, because the code dereferences `currentItem.id` at that point.
- UserList.UsersPage.SubmitForm: requires a current user in edit mode, because the code
  dereferences `currentItem.id` there.
- EmployeeForm.EmployeeFormState.ApplyGeneratedId: requires the create page, because
  only the create page generates ids.
- ListControls.ToggleTwiceRestores: holds only for `active` and `inactive`. Any other
  status toggles to `active`, and toggling again gives `inactive`.
- EmployeeForm.InDepartment: its own contract bounds only the length. The membership
  property is `InDepartmentMembers`.

## Findings

In each row, the as-written member keeps the code's behaviour, and a lemma exhibits the failing input: `ZeroRatingShowsStrayZero` for the rating and `QueryStringHidesActiveEntry` for the menu. The corrected member is the one the rest of the model uses. Its property is proved by `RatingArea`'s own contract and `RatingAreaAgreesOffZero`, and by `QueryStringHidesActiveEntry` and `AgreesWithoutQuery`.

| source | as written | input that shows it | evidently intended | confidence | as-written member | corrected member |
|---|---|---|---|---|---|---|
| resources/js/pages/hr/recruitment/candidates/show.tsx:90 | `{candidate.rating && (...)}` renders the number `0` for a zero rating | a candidate with `rating = 0` | render nothing when the rating is zero or missing | high, not executed | CandidateProfile.RatingAreaAsWritten | CandidateProfile.RatingArea |
| resources/js/components/nav-main.tsx:104-106 | `page.url` (path plus query string) is compared with the href | href `/users`, page url `/users?page=2` | compare the path part of the url only | medium, not executed | NavMenu.IsActiveAsWritten | NavMenu.IsActive |
