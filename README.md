# Healthcare app: a Dafny model of its rules

This project models the decision logic of a healthcare application.

The application has three parts:
- a Django REST back end of patients, doctors and patient–doctor mappings (`healthcare_backend/api`);
- a React admin portal;
- two React front ends, the clinic app under `healthcare-frontend/src` and the Next.js "NeuroMed" app under `healthcare-frontend/NeuroMed-2f`.

What is modelled, one Dafny module per source file:

- **Validators.**
  - `Validation`: the admin portal's field rules and `validateForm`.
  - `RegistrationChecks`, `PatientRegistration`, `DoctorRegistration`: the NeuroMed registration forms, with their error maps, field edits and submit sequence.
  - `Settings`: the password-change handler of the settings page.
  - `Patterns` and `Text`: the regular expressions and string primitives these rules use.
- **Pagination and search.**
  - `Pagination`: the page-button list with its '...' gaps.
  - `SearchFilter`: the search box and filter state.
  - `Lists` and `StringOrder`: `filter`, `find`, `Array.from(new Set(...))`, the default `sort` and the page count.
- **Access control.**
  - `Permissions`: the Django permission classes.
  - `AdminRoute`, `RoleLayouts`, `DashboardRedirect`, `Sidebar`: the front-end route guards, role layouts, dashboard redirect and sidebar.
  - `NeuroRecords.RoleRedirect`: the role check every NeuroMed page runs first.
- **Session and token state.**
  - `TokenStore`: the token helpers over `localStorage`, a map from key to string.
  - `ApiInterceptors`: the axios interceptors with their retry-once refresh.
  - `AuthContext`: the NeuroMed session (user, loading flag and tokens).
  - `ApiClient`: the fetch wrapper.
- **Back-end record stores.**
  - `Store`: the Django tables as one database class with its foreign keys, CASCADE deletions and uniqueness constraints.
  - `Views`: the REST handlers, one atomic step each.
  - `DoctorAdmin`: the approve and reject admin actions.
- **List query and update rules.**
  - `DoctorList`, `PatientList`, `MappingListState`, `ClinicMappingList`, `PortalMappingList`: the management lists.
  - `PortalDashboard`, `ClinicDashboard`, `UsersPage`, with `LooseUsers` for their loosely shaped user object: the dashboards.
  - The NeuroMed list pages: `AdminDoctorsPage`, `AdminPatientsPage`, `AdminMappingsPage`, `DoctorsPage`, `DoctorPatientsPage`, `DoctorMappingsPage`, `PatientMappingsPage`, `ReportsPage`.

Conventions of the model:
- Pure expressions are functions, with lemmas about them.
- Components whose handlers update state are classes. Their fields are the component's state, and each handler is a method with `modifies this`.
- Loops in the source are methods with loop invariants, proved against a specification function: `getPageNumbers`, `validateForm`, the filter clean-up, the `forEach` over the query parameters in `ApiClient.BuildUrl`, and the `for doctor in queryset` loop in `DoctorAdmin.ActivateLinked`.
- Every network call is an input of the handler that awaits it. This covers fetch, axios, the token refresh and the Django serializer's verdict.
  - `Requests.Response` is an answer, or the failure the service threw.
  - A reload a handler starts without awaiting is taken to have completed.
- `JSON.parse`, `atob` and `parseInt` are inputs: the parsed value or its failure is passed in. So is the clock.
- JavaScript's `.length` counts UTF-16 code units (`Text.Utf16Len`).
  - `toLowerCase` is modelled on ASCII letters.
  - `trim` uses JavaScript's white-space set.
- NeuroMed ids all have one integer type, so a mock record's id and the signed-in user's id can be equal.
- The back end's `created_by` is always present, as a user id or null.
- Four behaviours of the code look unintended. The model keeps them as written, and lemmas state them:
  - `DoctorMappingsPage` loads every mapping of the doctor, whatever its status, although the page calls them "active mappings".
  - `DoctorList` enables the Delete button for a doctor's creator, but its handler refuses every non-admin.
  - The admin portal's `MappingList` ignores a patient record's own name when the record has no nested `user`.
  - The doctor admin's approve and reject actions run their queryset twice, once to update and once to loop. Under an `is_approved` filter the second run matches none of the rows the first run changed, so no user account changes.

## Model

| member | source | states |
|---|---|---|
| Patterns.EmailRegexIsShape | healthcare_backend/healthcare-frontend/src/utils/validation.js:3 | the email pattern accepts exactly a non-empty run without white space or '@', an '@', a run, a '.', and a run |
| Patterns.SplitIsShape | healthcare_backend/healthcare-frontend/src/utils/validation.js:3 | a string split at an '@' and a later '.' into three such runs has the email shape |
| Patterns.ShapeIsSplit | healthcare_backend/healthcare-frontend/src/utils/validation.js:3 | any three such runs joined by '@' and '.' pass the email pattern |
| Patterns.EmailShapeFacts | healthcare_backend/healthcare-frontend/src/utils/validation.js:3 | a passing email has no white space, a non-empty part before its one '@', and no '@' after it |
| Patterns.PasswordClassesMeaning | healthcare_backend/healthcare-frontend/src/utils/validation.js:12 | the look-ahead pattern implies a lowercase letter, an uppercase letter and a digit, and on a single-line password it is equivalent to that |
| Validation.Email | healthcare_backend/healthcare-frontend/src/utils/validation.js:2-7 | 'Email is required' when falsy, otherwise null exactly for the email shape and the invalid-address message otherwise |
| Validation.Password | healthcare_backend/healthcare-frontend/src/utils/validation.js:9-16 | the required, length-below-8 and character-class messages in that order; null only for a password of at least 8 code units holding the three classes |
| Validation.Username | healthcare_backend/healthcare-frontend/src/utils/validation.js:18-25 | 'Username is required' when falsy; the at-least-3 message when shorter than 3 code units; the letters-numbers-underscores message when long enough but holding another character; null exactly for 3 or more code units drawn from letters, digits and '_' |
| Validation.Name | healthcare_backend/healthcare-frontend/src/utils/validation.js:27-31 | both messages embed the field name; null exactly for a present name of at least 2 code units |
| Validation.Age | healthcare_backend/healthcare-frontend/src/utils/validation.js:33-39 | required, not-a-number and range messages in that order; null exactly when the parse gives a number in 1..150 |
| Validation.Contact | healthcare_backend/healthcare-frontend/src/utils/validation.js:41-46 | 'Contact number is required' when falsy; the only-numbers message when a character is not a digit; the at-least-10 message for fewer than 10 digits; null exactly for 10 or more digits and nothing else |
| Validation.Required | healthcare_backend/healthcare-frontend/src/utils/validation.js:48-53 | the message embeds the field name; null exactly when the value holds a non-white-space character |
| Validation.Apply | healthcare_backend/healthcare-frontend/src/utils/validation.js:59-69 | a rule's error, when it has one, is a non-empty (truthy) message |
| Validation.Lookup | healthcare_backend/healthcare-frontend/src/utils/validation.js:60 | `formData[field]` is undefined exactly for a missing key |
| Validation.FirstErrorIsEarliest | healthcare_backend/healthcare-frontend/src/utils/validation.js:63-69 | the field's error is the message of its earliest failing rule, no rule before it fails, and there is none only when every rule passes |
| Validation.ValidateForm | healthcare_backend/healthcare-frontend/src/utils/validation.js:56-73 | the error keys are rule keys; each field with a failing rule holds its first failing rule's message, and fields whose rules all pass are absent |
| RegistrationChecks.Wording | healthcare-frontend/NeuroMed-2f/components/auth/patient-registration-form.tsx:50-89 | every message either form stores is non-empty, so a recorded error is truthy |
| RegistrationChecks.Entry | healthcare-frontend/NeuroMed-2f/components/auth/patient-registration-form.tsx:101 | reading an error key gives its message exactly when the key is present |
| RegistrationChecks.TrimFalsy | healthcare-frontend/NeuroMed-2f/components/auth/patient-registration-form.tsx:51 | `!value.trim()` holds exactly when the value is all white space |
| RegistrationChecks.FullNameCheckMeaning | healthcare-frontend/NeuroMed-2f/components/auth/patient-registration-form.tsx:51-53 | the full name fails, with 'Full name is required', exactly when blank |
| RegistrationChecks.EmailCheckMeaning | healthcare-frontend/NeuroMed-2f/components/auth/patient-registration-form.tsx:55-59 | the email passes exactly when the pattern accepts it; a failure is the required message when blank and the invalid-email message otherwise |
| RegistrationChecks.PasswordCheckMeaning | healthcare-frontend/NeuroMed-2f/components/auth/patient-registration-form.tsx:61-67 | the password fails exactly when shorter than 8 UTF-16 units; no character-class rule applies |
| RegistrationChecks.ConfirmCheckMeaning | healthcare-frontend/NeuroMed-2f/components/auth/patient-registration-form.tsx:69-73 | the confirmation passes exactly when non-empty and equal to the password, with the matching message otherwise |
| RegistrationChecks.ContactCheckMeaning | healthcare-frontend/NeuroMed-2f/components/auth/patient-registration-form.tsx:85-89 | the contact number fails exactly when fewer than 10 digits remain after deleting non-digits |
| RegistrationChecks.EmailNotBlank | healthcare-frontend/NeuroMed-2f/components/auth/patient-registration-form.tsx:55-58 | an email the pattern accepts is never blank, so the required message and the pattern never disagree |
| RegistrationChecks.BlankHasNoDigits | healthcare-frontend/NeuroMed-2f/components/auth/patient-registration-form.tsx:85-88 | a blank contact number has no digits, so it would also fail the digit rule |
| RegistrationChecks.FirstEntry | healthcare-frontend/NeuroMed-2f/components/auth/patient-registration-form.tsx:164-165 | the value under the first key of an object, the first element of an array, undefined when empty |
| RegistrationChecks.SubmitErrorText | healthcare-frontend/NeuroMed-2f/components/auth/patient-registration-form.tsx:156-180 | the default text without a message; the raw message when it is not JSON or parses to null; the default for a parsed non-object; for a parsed array or object, its first entry's string, the first element of its first entry's list (undefined for an empty list), or the check-your-input text otherwise, which is also the text for `{}` and `[]` |
| RegistrationChecks.SubmitErrorShown | healthcare-frontend/NeuroMed-2f/components/auth/patient-registration-form.tsx:158-191 | after a failure with a message the banner is hidden only when the first entry is an empty string, an empty list or a list with a falsy head |
| PatientRegistration.FieldErrorMeaning | healthcare-frontend/NeuroMed-2f/components/auth/patient-registration-form.tsx:48-93 | each field's error condition: blank name, email rejected by the pattern, short password, bad confirmation, missing or non-adult age, empty gender, fewer than 10 digits; medical history never errs |
| PatientRegistration.BuildErrors | healthcare-frontend/NeuroMed-2f/components/auth/patient-registration-form.tsx:49-90 | the built error map holds for each field exactly its check's message |
| PatientRegistration.Form.constructor | healthcare-frontend/NeuroMed-2f/components/auth/patient-registration-form.tsx:28-45 | every field empty, no errors, not loading, no banner |
| PatientRegistration.Form.ValidateForm | healthcare-frontend/NeuroMed-2f/components/auth/patient-registration-form.tsx:48-93 | stores the rebuilt errors and answers true iff the map is empty, iff every check passes |
| PatientRegistration.Form.HandleChange | healthcare-frontend/NeuroMed-2f/components/auth/patient-registration-form.tsx:95-108 | only the named field changes and only that field's error is dropped |
| PatientRegistration.Form.Submit | healthcare-frontend/NeuroMed-2f/components/auth/patient-registration-form.tsx:110-184 | the stored error map holds each field's check; an invalid form sends nothing and only clears the banner; a valid one sends role 'patient' with the parsed age and the form's values, stores both tokens on success, and shows the computed error text on failure |
| PatientRegistration.Form.Send | healthcare-frontend/NeuroMed-2f/components/auth/patient-registration-form.tsx:118-183 | the payload built from the form, the tokens stored on success, the banner text on failure, loading ended |
| DoctorRegistration.FieldErrorMeaning | healthcare-frontend/NeuroMed-2f/components/auth/doctor-registration-form.tsx:47-96 | each field's error condition: blank name, email rejected by the pattern, short password, bad confirmation, empty specialization, blank license number, missing or negative experience, fewer than 10 digits |
| DoctorRegistration.BuildErrors | healthcare-frontend/NeuroMed-2f/components/auth/doctor-registration-form.tsx:48-92 | the built error map holds for each field exactly its check's message |
| DoctorRegistration.Form.constructor | healthcare-frontend/NeuroMed-2f/components/auth/doctor-registration-form.tsx:28-45 | every field empty, no errors, not loading, no banner |
| DoctorRegistration.Form.ValidateForm | healthcare-frontend/NeuroMed-2f/components/auth/doctor-registration-form.tsx:47-96 | stores the rebuilt errors and answers true iff the map is empty, iff every check passes |
| DoctorRegistration.Form.HandleChange | healthcare-frontend/NeuroMed-2f/components/auth/doctor-registration-form.tsx:98-111 | only the named field changes and only that field's error is dropped |
| DoctorRegistration.Form.Submit | healthcare-frontend/NeuroMed-2f/components/auth/doctor-registration-form.tsx:113-187 | the stored error map holds each field's check; an invalid form sends nothing; a valid one sends role 'doctor', the one-element specialization list and the parsed experience, stores both tokens on success, and shows the computed error text on failure |
| DoctorRegistration.Form.Send | healthcare-frontend/NeuroMed-2f/components/auth/doctor-registration-form.tsx:121-186 | the payload built from the form, the tokens stored on success, the banner text on failure, loading ended |
| Settings.PasswordFormErrorMeaning | healthcare_backend/healthcare-frontend/src/pages/Settings.js:103-110 | the form is sent exactly when the new password equals its confirmation and is at least 8 UTF-16 units long; the mismatch is reported before the length |
| Settings.FailureText | healthcare_backend/healthcare-frontend/src/pages/Settings.js:124 | the server's `error` when truthy, otherwise the fixed failure text; never falsy |
| Settings.NavTabs | healthcare_backend/healthcare-frontend/src/pages/Settings.js:187-225 | profile first, about last, security always; system and users exactly for an admin |
| Settings.Section | healthcare_backend/healthcare-frontend/src/pages/Settings.js:232 | the active tab's section is rendered, except system and users for a non-admin, which render nothing (also lines 297, 352, 435, 527 of the same file) |
| Settings.OfferedTabsRender | healthcare_backend/healthcare-frontend/src/pages/Settings.js:202-216 | every tab the navigation offers renders its section (also lines 352, 435 of the same file) |
| Settings.RowButtons | healthcare_backend/healthcare-frontend/src/pages/Settings.js:498-512 | no buttons on the signed-in user's own row; otherwise make-admin is disabled iff the row is an admin and make-user iff it is a user |
| Settings.ProfileFormFor | healthcare_backend/healthcare-frontend/src/pages/Settings.js:38-45 | with a user each field is the user's value or '' when absent or empty; without one the form is unchanged |
| Settings.Page.constructor | healthcare_backend/healthcare-frontend/src/pages/Settings.js:8-26 | not loading, empty banner, empty password form |
| Settings.Page.HandlePasswordChange | healthcare_backend/healthcare-frontend/src/pages/Settings.js:101-130 | a rejected form shows its error and sends nothing; an accepted one sends the current and new passwords only, clears the form and shows success when the call resolves, keeps it and shows the failure text when it throws, and ends not loading |
| Pagination.Run | healthcare-frontend/src/components/common/Pagination.js:12-18 | the pages lo through hi in order, empty when lo > hi |
| Pagination.GetPageNumbers | healthcare-frontend/src/components/common/Pagination.js:7-35 | the loop's list equals page 1, an optional '...', the window clipped to 2..totalPages-1, an optional '...', and the last page |
| Pagination.PageNumbersAt | healthcare-frontend/src/components/common/Pagination.js:12-32 | what each index of the list holds: page 1, the leading dots, a window page, the trailing dots or the last page |
| Pagination.PageNumbersEnds | healthcare-frontend/src/components/common/Pagination.js:20-32 | with two or more pages the list starts with page 1, ends with the last page and has 2 to 9 items |
| Pagination.PageNumbersIncreasing | healthcare-frontend/src/components/common/Pagination.js:12-32 | listed page numbers lie in 1..totalPages and strictly increase |
| Pagination.DotsPositions | healthcare-frontend/src/components/common/Pagination.js:20-32 | '...' appears only second or second-to-last |
| Pagination.DotsWhen | healthcare-frontend/src/components/common/Pagination.js:20 | for a current page in range, '...' is second iff currentPage - 2 > 2 and second-to-last iff currentPage + 2 < totalPages - 1 (also line 28 of the same file) |
| Pagination.PageNumbersListed | healthcare-frontend/src/components/common/Pagination.js:12-32 | a page is listed iff it is the first, the last, or an inner page within 2 of the current one |
| Pagination.CurrentPageOnce | healthcare-frontend/src/components/common/Pagination.js:12-32 | a current page in range is listed exactly once |
| Pagination.PageNumbersContiguous | healthcare-frontend/src/components/common/Pagination.js:12-32 | two neighbouring page items differ by one |
| Pagination.DotsMarkGaps | healthcare-frontend/src/components/common/Pagination.js:20-32 | each '...' sits between two pages and stands for at least one skipped page |
| Pagination.Render | healthcare-frontend/src/components/common/Pagination.js:37-70 | nothing for one page or fewer; otherwise previous is disabled iff on page 1, next iff on the last page, and the buttons are the page list (also line 5 of the same file) |
| Pagination.Click | healthcare-frontend/src/components/common/Pagination.js:51 | '...' is disabled and asks for nothing; a page button asks for its page (also line 55 of the same file) |
| SearchFilter.SetAndPrune | healthcare_backend/healthcare-frontend/src/components/common/SearchFilter.js:20-35 | after setting a key and dropping empty values no value is empty, the key holds the new value iff non-empty, and every other non-empty filter is kept |
| SearchFilter.PrunedNoEmpty | healthcare_backend/healthcare-frontend/src/components/common/SearchFilter.js:27-31 | pruning a map without empty values changes nothing |
| SearchFilter.Widget.constructor | healthcare_backend/healthcare-frontend/src/components/common/SearchFilter.js:11-12 | empty term, no filters |
| SearchFilter.Widget.HandleSearchChange | healthcare_backend/healthcare-frontend/src/components/common/SearchFilter.js:14-18 | stores the term and forwards it unchanged |
| SearchFilter.Widget.HandleFilterChange | healthcare_backend/healthcare-frontend/src/components/common/SearchFilter.js:20-35 | stores and forwards the merged map with empty values dropped |
| SearchFilter.Widget.ClearFilters | healthcare_backend/healthcare-frontend/src/components/common/SearchFilter.js:37-42 | empties term and filters, forwards '' and {}, and leaves nothing active |
| SearchFilter.Widget.RemoveSearchChip | healthcare_backend/healthcare-frontend/src/components/common/SearchFilter.js:92 | clears the local term only, the filters are unchanged |
| SearchFilter.Widget.RemoveFilterChip | healthcare_backend/healthcare-frontend/src/components/common/SearchFilter.js:101 | the filters become the pruned map with the key emptied: the key is gone, the other keys stay exactly when non-empty and keep their values, and the map is forwarded |
| Permissions.AdminGateNeedsAuthentication | healthcare_backend/api/premissions.py:6-7 | IsAdmin refuses a missing or unauthenticated user; for an authenticated one it grants iff the role is admin |
| Permissions.AdminGrantedEverything | healthcare_backend/api/premissions.py:11-13 | an admin passes both object checks on every row (also lines 25-27 of the same file) |
| Permissions.OwnerDecidedByUser | healthcare_backend/api/premissions.py:15-16 | for a non-admin a row with a `user` attribute is granted iff that user is the requester, whatever `created_by` holds |
| Permissions.NoOwnerRefused | healthcare_backend/api/premissions.py:15-21 | a non-admin is refused a row with no owner attribute, or whose owner is null (also line 28 of the same file) |
| Permissions.CreatorImpliesOwner | healthcare_backend/api/premissions.py:18-19 | on rows without a `user` attribute the two object checks agree (also line 28 of the same file) |
| Permissions.CreatorNotOwner | healthcare_backend/api/premissions.py:15-16 | the creator of a row whose `user` is someone else passes IsCreatorOrAdmin and fails IsOwnerOrAdmin (also line 28 of the same file) |
| Permissions.CreatorOfOthersRow | healthcare_backend/api/premissions.py:15-16 | for any non-admin, a row owned by another user and created by the requester passes IsCreatorOrAdmin and fails IsOwnerOrAdmin (also line 28 of the same file) |
| Views.NewRow | healthcare_backend/api/views.py:31-34 | a create body yields a row exactly when name, age, gender, address and condition are all present, and the row is owned by the requester (the required fields are those of healthcare_backend/api/models.py lines 39-44) |
| Views.Merge | healthcare_backend/api/views.py:59-61 | a partial update replaces each supplied field and keeps the others and the owner |
| Views.MergeIdempotent | healthcare_backend/api/views.py:59-61 | an empty update changes nothing and repeating an update changes nothing more |
| Views.OwnedPatient | healthcare_backend/api/views.py:42-46 | the patient with the key when the requester owns it, otherwise none |
| Views.OwnedBy | healthcare_backend/api/views.py:27 | exactly the requester's patients, unchanged |
| Views.Register | healthcare_backend/api/views.py:10-20 | 201 with both tokens and one new user exactly when the body is valid and its username and email are free; otherwise 400 and the users unchanged; no other table changes |
| Views.ListPatients | healthcare_backend/api/views.py:24-29 | 401 without a user; otherwise 200 with exactly the requester's patients |
| Views.CreatePatient | healthcare_backend/api/views.py:31-36 | 401 without a user; 201 and one new row owned by the requester exactly for a valid complete body; otherwise 400 and the patients unchanged (also line 24 of the same file) |
| Views.GetPatient | healthcare_backend/api/views.py:48-53 | 401 without a user, 404 unless the requester owns the key, otherwise 200 with that row |
| Views.PutPatient | healthcare_backend/api/views.py:55-63 | 401, 404 for a key the requester does not own, 400 for an invalid body, otherwise 200 and the row merged with the body; nothing changes unless 200 |
| Views.DeletePatient | healthcare_backend/api/views.py:65-70 | 404 unless the requester owns the key; otherwise 204, the row and the mappings naming it are gone |
| Store.DefaultRole | healthcare_backend/api/models.py:10 | an unset role is stored as 'user' |
| Store.Surviving | healthcare_backend/api/models.py:62-63 | the mappings kept by a CASCADE: exactly those naming no removed patient and no removed doctor, unchanged |
| Store.MappingLabel | healthcare_backend/api/models.py:71-72 | the patient's name, ' - ', then the doctor's name |
| Store.Database.constructor | healthcare_backend/api/models.py:5-72 | four empty tables, all invariants hold |
| Store.Database.CreateUser | healthcare_backend/api/models.py:5-10 | adds one account under a fresh key with the role defaulted; other tables unchanged |
| Store.Database.InsertPatient | healthcare_backend/api/models.py:37-38 | adds one patient under a fresh key, owned by an existing user |
| Store.Database.UpdatePatient | healthcare_backend/api/models.py:37-47 | replaces one patient's fields, the owner fixed |
| Store.Database.DeletePatient | healthcare_backend/api/models.py:37-38 | removes the patient and, by CASCADE, exactly the mappings naming it (also line 62 of the same file) |
| Store.Database.InsertDoctor | healthcare_backend/api/models.py:50-55 | refused when another doctor has the email or a linked user is already linked or missing, or the creator is missing; otherwise adds one doctor under a fresh key |
| Store.Database.DeleteDoctor | healthcare_backend/api/models.py:50 | removes the doctor and exactly the mappings naming it (also line 63 of the same file) |
| Store.Database.InsertMapping | healthcare_backend/api/models.py:61-69 | refused when the patient or doctor is missing or the pair already exists; otherwise adds one mapping under a fresh key |
| Store.Database.DeleteUser | healthcare_backend/api/models.py:38 | removes the user, the patients it owns, the doctors it created or is linked to, and the mappings naming any of those (also line 55 of the same file) |
| Store.CascadeComplete | healthcare_backend/api/models.py:62-69 | after a CASCADE no mapping names a removed row, and the unique pair constraint still holds |
| DoctorAdmin.Activated | healthcare_backend/api/admin.py:29-32 | the users after the linked accounts of the chosen doctors are (de)activated: same keys, linked ones get the flag, the rest unchanged |
| DoctorAdmin.ActivatedStep | healthcare_backend/api/admin.py:29-32 | handling one more doctor changes at most its own linked user |
| DoctorAdmin.Prefix | healthcare_backend/api/admin.py:29 | the keys of the first n rows of the queryset |
| DoctorAdmin.ActivateLinked | healthcare_backend/api/admin.py:29-32 | the loop over the queryset sets the flag on each selected doctor's linked user and leaves all other users alone |
| DoctorAdmin.Approved | healthcare_backend/api/admin.py:27 | `queryset.update`: the selected doctors get the flag, the others are unchanged |
| DoctorAdmin.FlagsKeepLinks | healthcare_backend/api/admin.py:27-32 | changing only the approval and active flags keeps every foreign key, the unique email and the one-to-one link |
| DoctorAdmin.Moderate | healthcare_backend/api/admin.py:26-43 | the bulk update flags the selected doctors the changelist filter matches and counts them; the loop then re-runs the query after the update and (de)activates the users of only the doctors it still matches; the database stays valid |
| DoctorAdmin.Query | healthcare_backend/api/admin.py:27-29 | evaluating the queryset gives exactly the selected doctors the changelist filter admits, never more rows than were selected |
| DoctorAdmin.DistinctQuery | healthcare_backend/api/admin.py:27 | a query over distinct keys lists each doctor once, so the update count is the number of rows changed |
| DoctorAdmin.UnfilteredQuery | healthcare_backend/api/admin.py:27-29 | on an unfiltered changelist both evaluations of the queryset are exactly the selected doctors |
| DoctorAdmin.ModerationUnderOwnFilter | healthcare_backend/api/admin.py:22-29 | under the `is_approved` filter that the action itself falsifies, the loop's query matches nothing, so no user changes |
| DoctorAdmin.QueryNone | healthcare_backend/api/admin.py:29 | a query whose selected rows all fail the filter is empty |
| DoctorAdmin.ApproveDoctors | healthcare_backend/api/admin.py:26-34 | the selected doctors the changelist filter matches are approved, and the count is their number; the users linked to the doctors the re-run query still matches are activated; every other doctor and user is unchanged |
| DoctorAdmin.RejectDoctors | healthcare_backend/api/admin.py:36-44 | the selected doctors the changelist filter matches are unapproved, and the count is their number; the users linked to the doctors the re-run query still matches are deactivated; every other doctor and user is unchanged |
| TokenStore.Item | healthcare-frontend/src/utils/auth.js:2-3 | `getItem` answers the stored value, and null exactly when the key is absent |
| TokenStore.IsAuthenticated | healthcare-frontend/src/utils/auth.js:13-24 | true exactly when a non-empty access token is stored, its payload decodes, and its numeric `exp` lies after the clock in seconds |
| TokenStore.NoTokenNotAuthenticated | healthcare-frontend/src/utils/auth.js:14-15 | no stored token, or one whose payload fails to decode, is never authenticated (also lines 21-22 of the same file) |
| TokenStore.AuthenticatedEarlier | healthcare-frontend/src/utils/auth.js:20 | a token valid now was valid at every earlier time |
| TokenStore.Storage.constructor | healthcare-frontend/src/utils/auth.js:1-11 | storage holding the given items |
| TokenStore.Storage.GetToken | healthcare-frontend/src/utils/auth.js:2 | the item under 'access_token' |
| TokenStore.Storage.GetRefreshToken | healthcare-frontend/src/utils/auth.js:3 | the item under 'refresh_token' |
| TokenStore.Storage.SetToken | healthcare-frontend/src/utils/auth.js:4 | the next `getToken` answers the token; the refresh token is unchanged |
| TokenStore.Storage.SetRefreshToken | healthcare-frontend/src/utils/auth.js:5 | the next `getRefreshToken` answers the token; the access token is unchanged |
| TokenStore.Storage.RemoveToken | healthcare-frontend/src/utils/auth.js:6-9 | both keys are gone and nothing else changes |
| TokenStore.Storage.RemoveRefreshToken | healthcare-frontend/src/utils/auth.js:11 | only the refresh token is gone |
| ApiInterceptors.Bearer | healthcare_backend/healthcare-frontend/src/services/api.js:14 | 'Bearer ' followed by the token |
| ApiInterceptors.WithBearer | healthcare_backend/healthcare-frontend/src/services/api.js:12-16 | with a truthy token Authorization becomes its bearer value; every other header is kept; with none the headers are unchanged |
| ApiInterceptors.Config.constructor | healthcare_backend/healthcare-frontend/src/services/api.js:25 | a request with the given headers and `_retry` unset |
| ApiInterceptors.Window.constructor | healthcare_backend/healthcare-frontend/src/services/api.js:47 | a window at the given location |
| ApiInterceptors.RetryAtMostOnce | healthcare_backend/healthcare-frontend/src/services/api.js:27-52 | a retried request is never retried again, only a 401 is retried, and a replay happens exactly for a first 401 with a stored refresh token and a successful refresh |
| ApiInterceptors.AttachToken | healthcare_backend/healthcare-frontend/src/services/api.js:10-17 | the outgoing headers carry the stored access token as a bearer header when there is one |
| ApiInterceptors.OnError | healthcare_backend/healthcare-frontend/src/services/api.js:22-54 | `_retry` is set on a first 401; a replay stores the new token and puts it on the request; a failed refresh clears both tokens and goes to '/login'; any other case changes nothing and rejects the original error |
| ApiInterceptors.SecondFailure | healthcare_backend/healthcare-frontend/src/services/api.js:27-42 | a replayed request that fails with 401 again is rejected, not retried |
| AuthContext.ToUser | healthcare-frontend/NeuroMed-2f/lib/auth-context.tsx:34-41 | id, email, role and details copied; the name is the full name, else the username, else the email; active unless the profile says false |
| AuthContext.UserNameFromProfile | healthcare-frontend/NeuroMed-2f/lib/auth-context.tsx:37 | the shown name is one of the profile's three names, and truthy iff one of them is |
| AuthContext.HasRoleMeaning | healthcare-frontend/NeuroMed-2f/lib/auth-context.tsx:95-99 | no user holds no role; a single role means the one-element list; the empty list is held by nobody |
| AuthContext.LoginErrorMessage | healthcare-frontend/NeuroMed-2f/lib/auth-context.tsx:82-83 | an Error's own message, otherwise 'Login failed' |
| AuthContext.Provider.constructor | healthcare-frontend/NeuroMed-2f/lib/auth-context.tsx:20-21 | no user and loading |
| AuthContext.Provider.InitAuth | healthcare-frontend/NeuroMed-2f/lib/auth-context.tsx:24-52 | without a token nothing changes; with one the fetched profile becomes the user, or on failure both tokens are removed; loading ends |
| AuthContext.Provider.Login | healthcare-frontend/NeuroMed-2f/lib/auth-context.tsx:57-87 | a failed login changes nothing and rethrows its message; otherwise both tokens are stored first, then the profile becomes the user or its failure is rethrown; loading ends |
| AuthContext.Provider.Logout | healthcare-frontend/NeuroMed-2f/lib/auth-context.tsx:89-93 | no user, both tokens removed, no role held |
| AuthContext.Provider.RefreshUser | healthcare-frontend/NeuroMed-2f/lib/auth-context.tsx:101-120 | a fetched profile replaces the user; a failure logs out and rethrows the same error |
| ApiClient.ParamText | healthcare-frontend/NeuroMed-2f/lib/api-client.ts:31 | `String(value)` of a string, boolean or integer |
| ApiClient.BuildUrl | healthcare-frontend/NeuroMed-2f/lib/api-client.ts:27-35 | the path is base plus endpoint and the query holds one pair per parameter, in order, with its text |
| ApiClient.AuthHeaders | healthcare-frontend/NeuroMed-2f/lib/api-client.ts:37-46 | Content-Type is always JSON; Authorization is 'Bearer ' plus the token exactly in a browser with a truthy stored token; no other header |
| ApiClient.MergeHeaders | healthcare-frontend/NeuroMed-2f/lib/api-client.ts:52-55 | every caller header wins; other defaults are kept; nothing else is added |
| ApiClient.CallerHeadersWin | healthcare-frontend/NeuroMed-2f/lib/api-client.ts:39-55 | the merged headers always carry a Content-Type, the caller's when given |
| ApiClient.ErrorData | healthcare-frontend/NeuroMed-2f/lib/api-client.ts:80-86 | the parsed error body, or {detail: 'HTTP Error: status'} when it does not parse |
| ApiClient.ErrorMessage | healthcare-frontend/NeuroMed-2f/lib/api-client.ts:87 | a null body throws a TypeError; otherwise the thrown message is a truthy `detail`, else a truthy `message`, else 'API Error: status' |
| ApiClient.Respond | healthcare-frontend/NeuroMed-2f/lib/api-client.ts:79-91 | a 2xx answer gives its parsed body or a parse failure; any other answer throws the error message |
| ApiClient.FailedAnswers | healthcare-frontend/NeuroMed-2f/lib/api-client.ts:79-88 | a non-2xx answer never gives data, and an unparsable one throws 'HTTP Error: status' |
| ApiClient.HistoryOrEmpty | healthcare-frontend/NeuroMed-2f/lib/api-client.ts:135 | the medical history when truthy, otherwise '' |
| ApiClient.AsList | healthcare-frontend/NeuroMed-2f/lib/api-client.ts:137 | an array is kept, anything else is wrapped in a one-element array |
| ApiClient.RegisterPayload | healthcare-frontend/NeuroMed-2f/lib/api-client.ts:123-142 | the five common fields, then age, gender, contact and history for a patient, or the specialization list, license, experience and contact for any other role |
| ApiClient.RegisterPayloadShapes | healthcare-frontend/NeuroMed-2f/lib/api-client.ts:125-141 | the body names the same nine keys for a role whatever the input; the doctor's specializations are always an array |
| Sidebar.Keep | healthcare-frontend/NeuroMed-2f/components/layout/sidebar.tsx:118 | the filter keeps at most the items it is given |
| Sidebar.KeepAppend | healthcare-frontend/NeuroMed-2f/components/layout/sidebar.tsx:111-118 | filtering the joined groups filters each group |
| Sidebar.KeepNone | healthcare-frontend/NeuroMed-2f/components/layout/sidebar.tsx:118 | a group none of whose items lists the role disappears |
| Sidebar.KeepMembers | healthcare-frontend/NeuroMed-2f/components/layout/sidebar.tsx:118 | an item is offered iff it is among the items and lists the role |
| Sidebar.KeepAll | healthcare-frontend/NeuroMed-2f/components/layout/sidebar.tsx:118 | a group all of whose items list the role is kept whole |
| Sidebar.OfferedItemsListRole | healthcare-frontend/NeuroMed-2f/components/layout/sidebar.tsx:118 | every offered item lists the user's role |
| Sidebar.PatientItems | healthcare-frontend/NeuroMed-2f/components/layout/sidebar.tsx:34-62 | a patient gets Dashboard, Profile, Browse Doctors and My Doctors, in that order (also lines 111-118 of the same file) |
| Sidebar.DoctorItems | healthcare-frontend/NeuroMed-2f/components/layout/sidebar.tsx:64-76 | a doctor gets Dashboard, Profile, My Patients and My Mappings (also lines 34-48, 111-118 of the same file) |
| Sidebar.AdminItems | healthcare-frontend/NeuroMed-2f/components/layout/sidebar.tsx:78-108 | an admin gets Dashboard, Profile and the five admin items (also lines 34-48, 111-118 of the same file) |
| Sidebar.NoItems | healthcare-frontend/NeuroMed-2f/components/layout/sidebar.tsx:118 | without a user, or for any other role, nothing is offered |
| Sidebar.AtMostOneActive | healthcare-frontend/NeuroMed-2f/components/layout/sidebar.tsx:149-155 | no two offered items share a link, so at most one is highlighted |
| DashboardRedirect.Redirect | healthcare-frontend/NeuroMed-2f/app/dashboard/page.tsx:11-23 | nothing while loading; '/login' without a user; the admin, doctor or patient dashboard by role; nothing for any other role |
| DashboardRedirect.RedirectTargetsDistinct | healthcare-frontend/NeuroMed-2f/app/dashboard/page.tsx:15-21 | a signed-in user is redirected iff the role is one of the three, different roles go to different dashboards, and never to '/login' |
| RoleLayouts.PatientLayout | healthcare-frontend/NeuroMed-2f/app/patient/layout.tsx:13-23 | renders the children iff the user is a patient; sends any other signed-in user to '/dashboard'; renders nothing and stays without a user |
| RoleLayouts.DoctorLayout | healthcare-frontend/NeuroMed-2f/app/doctor/layout.tsx:13-23 | the same guard for the doctor role |
| RoleLayouts.SectionsExclusive | healthcare-frontend/NeuroMed-2f/app/patient/layout.tsx:14-23 | nobody enters both sections; a signed-in user is either let in or redirected, never both or neither; without a user neither layout acts |
| AdminRoute.Guard | healthcare_backend/healthcare-frontend/src/components/common/AdminProtectedRoute.js:6-28 | the spinner exactly while loading; '/login' without a user; the children iff one of the three role locations says admin; '/dashboard' otherwise |
| AdminRoute.DashboardAdminPasses | healthcare_backend/healthcare-frontend/src/components/common/AdminProtectedRoute.js:14-17 | a user the dashboards treat as admin passes the guard |
| AdminRoute.GuardWiderThanDashboard | healthcare_backend/healthcare-frontend/src/components/common/AdminProtectedRoute.js:14-17 | a user whose profile role is 'user' but whose top-level role is 'admin' passes the guard yet is not an admin to the dashboards |
| AdminRoute.TopAdminPasses | healthcare_backend/healthcare-frontend/src/components/common/AdminProtectedRoute.js:14-17 | any user whose top-level role is 'admin' passes the guard, while the dashboards take a present profile role first |
| LooseUsers.UserRole | healthcare_backend/healthcare-frontend/src/pages/Dashboard.js:10 | the profile's role, else the top-level role, else the nested user's role, else 'user'; never empty |
| LooseUsers.ProfileRoleFirst | healthcare_backend/healthcare-frontend/src/pages/Dashboard.js:10 | a truthy role under `profile` decides, whatever the other two say |
| LooseUsers.Username | healthcare_backend/healthcare-frontend/src/pages/Dashboard.js:34 | the top-level username, else the nested one, else 'N/A' |
| LooseUsers.Email | healthcare_backend/healthcare-frontend/src/pages/Dashboard.js:35 | the top-level email, else the nested one, else 'N/A' |
| LooseUsers.FullName | healthcare_backend/healthcare-frontend/src/pages/Dashboard.js:15-16 | "first last" exactly when both names are truthy |
| LooseUsers.NameChain | healthcare_backend/healthcare-frontend/src/pages/Dashboard.js:15-26 | the top-level full name, else the profile's, else `name`, else `username`, else nothing |
| LooseUsers.NameChainSources | healthcare_backend/healthcare-frontend/src/pages/Dashboard.js:15-26 | any name the chain gives is a complete full name, `name` or `username`, never a lone first name; it gives none exactly when all four are missing |
| LooseUsers.LocalPart | healthcare_backend/healthcare-frontend/src/pages/Dashboard.js:28 | the longest prefix of the email without '@', followed by '@' when shorter than the email |
| LooseUsers.DashboardDisplayName | healthcare_backend/healthcare-frontend/src/pages/Dashboard.js:14-31 | the chain's name, else the email's local part, else 'User' |
| PortalDashboard.Cards | healthcare_backend/healthcare-frontend/src/pages/Dashboard.js:38-87 | patients, doctors and mappings for everyone, then users and reports exactly for an admin |
| PortalDashboard.UserInfo | healthcare_backend/healthcare-frontend/src/pages/Dashboard.js:91-95 | the block shows the username, email, resolved role and display name (also lines 34-36 of the same file) |
| PortalDashboard.NoUser | healthcare_backend/healthcare-frontend/src/pages/Dashboard.js:10-36 | without a user: 'N/A', 'N/A', role 'user', name 'User', three cards, no banner |
| PortalDashboard.FirstNameAloneNotShown | healthcare_backend/healthcare-frontend/src/pages/Dashboard.js:15-30 | with no last name, profile, name or username the display name is the email's local part or 'User', never the first name |
| ClinicDashboard.Cards | healthcare-frontend/src/pages/Dashboard.js:36-102 | patients, doctors and mappings for everyone, then users, reports and settings exactly for an admin |
| ClinicDashboard.DisplayName | healthcare-frontend/src/pages/Dashboard.js:12-29 | the dashboards' display name, 'User' when nothing is known |
| ClinicDashboard.DisplayNamePrecedence | healthcare-frontend/src/pages/Dashboard.js:12-29 | a complete top-level name beats the profile's, which beats `name`, `username` and then the email |
| UsersPage.DisplayName | healthcare_backend/healthcare-frontend/src/pages/Users.js:13-27 | the chain's name, else 'N/A' |
| UsersPage.EmailIgnored | healthcare_backend/healthcare-frontend/src/pages/Users.js:13-27 | the email never changes the name on this page |
| UsersPage.DiffersFromDashboard | healthcare_backend/healthcare-frontend/src/pages/Users.js:26 | a user known only by email is 'N/A' here and the email's local part on the dashboards |
| UsersPage.EmailFallbackDiffers | healthcare_backend/healthcare-frontend/src/pages/Users.js:26 | whenever the dashboards fall back to the email's local part, this page shows 'N/A' |
| NeuroRecords.RoleRedirect | healthcare-frontend/NeuroMed-2f/app/admin/mappings/page.tsx:21-25 | a page of one role stays exactly for a signed-in user of that role and otherwise goes to '/dashboard' |
| NeuroRecords.OneRolePerPage | healthcare-frontend/NeuroMed-2f/app/patient/mappings/page.tsx:21-24 | a user is kept by the pages of their own role and sent away by every other role's pages; nobody signed in is kept |
| NeuroRecords.Specializations | healthcare-frontend/NeuroMed-2f/app/doctors/page.tsx:29 | one specialization per doctor, in order |
| NeuroRecords.PatientName | healthcare-frontend/NeuroMed-2f/app/admin/mappings/page.tsx:41 | the name of the first patient with the id, 'Unknown' when there is none or its name is empty |
| NeuroRecords.DoctorName | healthcare-frontend/NeuroMed-2f/app/admin/mappings/page.tsx:43 | the name of the first doctor with the id, 'Unknown' when there is none or its name is empty |
| AdminMappingsPage.Redirect | healthcare-frontend/NeuroMed-2f/app/admin/mappings/page.tsx:21-25 | only an admin stays; anyone else goes to '/dashboard' |
| AdminMappingsPage.Filtered | healthcare-frontend/NeuroMed-2f/app/admin/mappings/page.tsx:27-34 | exactly the mappings whose patient's or doctor's name contains the term, ignoring case, in their order |
| AdminMappingsPage.UnknownNeverListed | healthcare-frontend/NeuroMed-2f/app/admin/mappings/page.tsx:28-33 | a mapping with neither record known is never listed; one with a known patient is listed for the empty term |
| AdminMappingsPage.Page.constructor | healthcare-frontend/NeuroMed-2f/app/admin/mappings/page.tsx:17-19 | the given mappings, none selected |
| AdminMappingsPage.Page.HandleDelete | healthcare-frontend/NeuroMed-2f/app/admin/mappings/page.tsx:36-39 | exactly the mappings with the id are removed, the rest keep their order, and nothing is selected |
| AdminDoctorsPage.Redirect | healthcare-frontend/NeuroMed-2f/app/admin/doctors/page.tsx:21-25 | only an admin stays |
| AdminDoctorsPage.Filtered | healthcare-frontend/NeuroMed-2f/app/admin/doctors/page.tsx:27-32 | exactly the doctors whose name, specialization or email contains the term, ignoring case, in order |
| AdminDoctorsPage.EmptyTermListsAll | healthcare-frontend/NeuroMed-2f/app/admin/doctors/page.tsx:27-32 | the empty term lists every doctor |
| AdminDoctorsPage.ActivePatients | healthcare-frontend/NeuroMed-2f/app/admin/doctors/page.tsx:135 | the length of the doctor's patient list, 0 without one |
| AdminDoctorsPage.Page.constructor | healthcare-frontend/NeuroMed-2f/app/admin/doctors/page.tsx:17-19 | the given doctors, none selected |
| AdminDoctorsPage.Page.HandleDelete | healthcare-frontend/NeuroMed-2f/app/admin/doctors/page.tsx:34-37 | exactly the doctors with the id are removed, the rest keep their order, and nothing is selected |
| AdminPatientsPage.Redirect | healthcare-frontend/NeuroMed-2f/app/admin/patients/page.tsx:21-25 | only an admin stays |
| AdminPatientsPage.Filtered | healthcare-frontend/NeuroMed-2f/app/admin/patients/page.tsx:27-31 | exactly the patients whose name or email contains the term, ignoring case, in order |
| AdminPatientsPage.EmptyTermListsAll | healthcare-frontend/NeuroMed-2f/app/admin/patients/page.tsx:27-31 | the empty term lists every patient |
| AdminPatientsPage.AssignedDoctors | healthcare-frontend/NeuroMed-2f/app/admin/patients/page.tsx:131 | the length of the patient's doctor list, 0 without one |
| AdminPatientsPage.Page.constructor | healthcare-frontend/NeuroMed-2f/app/admin/patients/page.tsx:17-19 | the given patients, none selected |
| AdminPatientsPage.Page.HandleDelete | healthcare-frontend/NeuroMed-2f/app/admin/patients/page.tsx:33-36 | exactly the patients with the id are removed, the rest keep their order, and nothing is selected |
| DoctorPatientsPage.Redirect | healthcare-frontend/NeuroMed-2f/app/doctor/patients/page.tsx:21-24 | only a doctor stays |
| DoctorPatientsPage.MappedPatientIds | healthcare-frontend/NeuroMed-2f/app/doctor/patients/page.tsx:27-29 | an id is listed iff some active mapping of the doctor names that patient |
| DoctorPatientsPage.DoctorPatients | healthcare-frontend/NeuroMed-2f/app/doctor/patients/page.tsx:31 | exactly the patients whose id is mapped, in order, each copy kept |
| DoctorPatientsPage.LoadedMeaning | healthcare-frontend/NeuroMed-2f/app/doctor/patients/page.tsx:20-34 | a patient is loaded iff the user is a doctor with an active mapping to that patient |
| DoctorPatientsPage.Filtered | healthcare-frontend/NeuroMed-2f/app/doctor/patients/page.tsx:36-40 | exactly the loaded patients whose name or email contains the term, in order |
| PatientMappingsPage.Redirect | healthcare-frontend/NeuroMed-2f/app/patient/mappings/page.tsx:21-24 | only a patient stays |
| PatientMappingsPage.PatientMappings | healthcare-frontend/NeuroMed-2f/app/patient/mappings/page.tsx:27 | exactly the patient's active mappings, in order |
| PatientMappingsPage.Loaded | healthcare-frontend/NeuroMed-2f/app/patient/mappings/page.tsx:20-29 | the patient's active mappings, nothing for anyone else |
| PatientMappingsPage.Filtered | healthcare-frontend/NeuroMed-2f/app/patient/mappings/page.tsx:31-37 | exactly the mappings whose doctor's name or specialization contains the term, in order |
| PatientMappingsPage.ShownIffDoctorKnown | healthcare-frontend/NeuroMed-2f/app/patient/mappings/page.tsx:32-36 | a mapping to an unknown doctor is never shown; for the empty term it is shown iff the doctor exists |
| PatientMappingsPage.DetailsNeedDoctor | healthcare-frontend/NeuroMed-2f/app/patient/mappings/page.tsx:39 | the details card shows iff a mapping is selected and its doctor exists (also line 99 of the same file) |
| DoctorMappingsPage.Redirect | healthcare-frontend/NeuroMed-2f/app/doctor/mappings/page.tsx:22-26 | only a doctor stays |
| DoctorMappingsPage.DoctorMappings | healthcare-frontend/NeuroMed-2f/app/doctor/mappings/page.tsx:29 | exactly the doctor's mappings, whatever their status, in order |
| DoctorMappingsPage.Loaded | healthcare-frontend/NeuroMed-2f/app/doctor/mappings/page.tsx:21-31 | the doctor's mappings, nothing for anyone else |
| DoctorMappingsPage.Filtered | healthcare-frontend/NeuroMed-2f/app/doctor/mappings/page.tsx:33-36 | exactly the mappings whose patient's name contains the term, in order |
| DoctorMappingsPage.UnknownPatientNeverShown | healthcare-frontend/NeuroMed-2f/app/doctor/mappings/page.tsx:34-35 | a mapping whose patient is unknown is never shown |
| DoctorMappingsPage.InactiveCounted | healthcare-frontend/NeuroMed-2f/app/doctor/mappings/page.tsx:29 | an inactive mapping of a known patient is counted among the "active mappings" the page announces (also line 65 of the same file) |
| DoctorMappingsPage.Page.constructor | healthcare-frontend/NeuroMed-2f/app/doctor/mappings/page.tsx:17-20 | the given mappings, none selected, not loading |
| DoctorMappingsPage.Page.StartRemoval | healthcare-frontend/NeuroMed-2f/app/doctor/mappings/page.tsx:38-40 | loading starts and the remove buttons are disabled; nothing else changes (also lines 101, 153 of the same file) |
| DoctorMappingsPage.Page.FinishRemoval | healthcare-frontend/NeuroMed-2f/app/doctor/mappings/page.tsx:42-44 | exactly the mappings with the id are removed, nothing is selected, loading ends and removal is enabled again |
| DoctorsPage.Redirect | healthcare-frontend/NeuroMed-2f/app/doctors/page.tsx:23-27 | without a user the page goes to '/login'; anyone signed in stays |
| DoctorsPage.SpecializationOptionsMeaning | healthcare-frontend/NeuroMed-2f/app/doctors/page.tsx:29 | the options are exactly the doctors' specializations, each once, in ascending order |
| DoctorsPage.Filtered | healthcare-frontend/NeuroMed-2f/app/doctors/page.tsx:31-37 | exactly the doctors matching the term in name or specialization and the chosen specialization, if any, in order |
| DoctorsPage.NoCriteriaShowsAll | healthcare-frontend/NeuroMed-2f/app/doctors/page.tsx:31-37 | no term and no specialization list every doctor |
| DoctorsPage.PatientCountMeaning | healthcare-frontend/NeuroMed-2f/app/doctors/page.tsx:39-41 | an appended mapping adds one exactly when it is an active mapping of the doctor; the count is 0 iff there is none |
| DoctorsPage.MappedDoctorCounted | healthcare-frontend/NeuroMed-2f/app/doctors/page.tsx:39-46 | a doctor the patient is connected to has at least one active patient |
| DoctorsPage.ConnectRules | healthcare-frontend/NeuroMed-2f/app/doctors/page.tsx:144-151 | connecting is offered only to a patient not yet connected, never to other roles, and to every doctor while the patient has no active mapping (also lines 43-46, 205-212 of the same file) |
| ReportsPage.Redirect | healthcare-frontend/NeuroMed-2f/app/reports/page.tsx:36-40 | only an admin stays |
| ReportsPage.SpecCountIsMultiplicity | healthcare-frontend/NeuroMed-2f/app/reports/page.tsx:46 | a specialization's count is how often it occurs among the doctors |
| ReportsPage.Entries | healthcare-frontend/NeuroMed-2f/app/reports/page.tsx:44-47 | one entry per specialization |
| ReportsPage.Report | healthcare-frontend/NeuroMed-2f/app/reports/page.tsx:36-47 | no data after a redirect, otherwise the breakdown |
| ReportsPage.Names | healthcare-frontend/NeuroMed-2f/app/reports/page.tsx:45 | one name per entry |
| ReportsPage.BreakdownNames | healthcare-frontend/NeuroMed-2f/app/reports/page.tsx:43-47 | the breakdown names every specialization some doctor has, each once |
| ReportsPage.BreakdownCounts | healthcare-frontend/NeuroMed-2f/app/reports/page.tsx:43-47 | each entry's count is its specialization's multiplicity and at least 1 |
| ReportsPage.SumEntries | healthcare-frontend/NeuroMed-2f/app/reports/page.tsx:44-47 | the counts of the entries for given names sum to the occurrences of those names |
| ReportsPage.BreakdownTotal | healthcare-frontend/NeuroMed-2f/app/reports/page.tsx:43-47 | the counts sum to the number of doctors |
| ReportsPage.ActiveMappingsMeaning | healthcare-frontend/NeuroMed-2f/app/reports/page.tsx:113 | an appended mapping adds one exactly when active, and the figure never exceeds the number of mappings |
| ReportsPage.SliceColors | healthcare-frontend/NeuroMed-2f/app/reports/page.tsx:74 | slice colours repeat with period 5 and any five consecutive slices differ (also line 190 of the same file) |
| MappingListState.ControlsAdminOnly | healthcare-frontend/src/components/mappings/MappingList.js:182-203 | while loading no control is shown; a non-admin never gets the create button, the form, the Actions column or the hint, whatever the form flag; once loaded an admin always gets the button, the form iff toggled open, Actions iff there are rows and the hint iff there are none (also lines 19, 213, 267, 280, 292 of the same file, and lines 115-136 of the admin portal's healthcare_backend/healthcare-frontend/src/components/mappings/MappingList.js) |
| MappingListState.Page.constructor | healthcare-frontend/src/components/mappings/MappingList.js:8-18 | loading, nothing listed, no error, the form hidden and empty |
| MappingListState.Page.FetchMappings | healthcare-frontend/src/components/mappings/MappingList.js:30-42 | success replaces the list and clears the error; failure keeps the list and shows the fetch error; loading ends either way and the form is untouched |
| MappingListState.Page.HandleFormChange | healthcare-frontend/src/components/mappings/MappingList.js:65-70 | only the named field takes the value |
| MappingListState.Page.ToggleCreateForm | healthcare-frontend/src/components/mappings/MappingList.js:199 | only the form flag flips |
| MappingListState.Page.HandleCreate | healthcare-frontend/src/components/mappings/MappingList.js:73-85 | a successful create hides and empties the form, takes the refetched list and leaves no error even when the refetch failed; a failed one shows the server's error or the default and changes nothing else |
| MappingListState.Page.HandleDelete | healthcare-frontend/src/components/mappings/MappingList.js:88-100 | nothing happens unless confirmed; a successful delete takes the refetched list and clears the error; a failed one shows the delete error and keeps the list |
| ClinicMappingList.PatientName | healthcare-frontend/src/components/mappings/MappingList.js:103-143 | the fallback 'Patient n' for an unknown id; otherwise the name the first matching record gives, or the fallback when it names nobody |
| ClinicMappingList.PatientRecordNameSources | healthcare-frontend/src/components/mappings/MappingList.js:110-139 | a found name is non-empty and is the nested user's full, first, last or user name, or the record's full, first, last or own name; none is found exactly when all of those are missing |
| ClinicMappingList.NestedFirstNameWins | healthcare-frontend/src/components/mappings/MappingList.js:110-119 | a nested user with a first name decides: the shown name begins with it |
| ClinicMappingList.DoctorName | healthcare-frontend/src/components/mappings/MappingList.js:146-168 | the fallback 'Doctor n' for an unknown id; otherwise the first matching record's name, full name, first or last name, or the fallback |
| ClinicMappingList.DoctorRecordNameSources | healthcare-frontend/src/components/mappings/MappingList.js:152-164 | a found name is non-empty, `name` takes precedence, and none is found exactly when name, first and last name are all missing |
| ClinicMappingList.NamesNeverEmpty | healthcare-frontend/src/components/mappings/MappingList.js:103-168 | both lookups always give a non-empty name |
| ClinicMappingList.PatientOptions | healthcare-frontend/src/components/mappings/MappingList.js:171-180 | one option per patient, in order |
| ClinicMappingList.PatientOptionDisplay | healthcare-frontend/src/components/mappings/MappingList.js:173-177 | an option shows the patient's name, with ' (ID: n)' appended exactly when the name equals the fallback; a record naming nobody shows 'Patient n (ID: n)' |
| PortalMappingList.PatientName | healthcare_backend/healthcare-frontend/src/components/mappings/MappingList.js:101-107 | the fallback for an unknown id; otherwise the first matching record's label |
| PortalMappingList.PatientLabelMeaning | healthcare_backend/healthcare-frontend/src/components/mappings/MappingList.js:103-106 | the label is never empty; a record without a nested user is the fallback; a nested user without first and last name is its username or the fallback |
| PortalMappingList.OptionLabelAgrees | healthcare_backend/healthcare-frontend/src/components/mappings/MappingList.js:159-165 | the select shows the row's name, except that a nested user with no name and no username gives a blank option where the rows show the fallback |
| PortalMappingList.DoctorName | healthcare_backend/healthcare-frontend/src/components/mappings/MappingList.js:110-113 | the fallback for an unknown id; otherwise the first matching record's `name` as it is, even when missing |
| PortalMappingList.NamelessDoctorBlank | healthcare_backend/healthcare-frontend/src/components/mappings/MappingList.js:112 | a known doctor without a name shows no name, not the fallback |
| DoctorList.DeleteButtonWiderThanHandler | healthcare_backend/healthcare-frontend/src/components/doctors/DoctorList.js:212-225 | whoever may delete sees the Delete button enabled; a non-admin creator sees it enabled and is refused; a top-level admin role without a profile role is not an admin; a doctor without a creator is editable only by an admin (also lines 24, 81, 90 of the same file) |
| DoctorList.FilteredDoctors | healthcare_backend/healthcare-frontend/src/components/doctors/DoctorList.js:136-148 | exactly the doctors matching the term (empty: all) in name, specialization or email, ignoring case, and the set specialization, in order |
| DoctorList.FilteredDoctorsCriteria | healthcare_backend/healthcare-frontend/src/components/doctors/DoctorList.js:136-148 | no term and no specialization keep every doctor; a set specialization keeps only that specialization |
| DoctorList.List.constructor | healthcare_backend/healthcare-frontend/src/components/doctors/DoctorList.js:13-21 | no doctors, loading, the form closed, page 1 of 1, no term, no filters, no notice |
| DoctorList.List.LoadDoctors | healthcare_backend/healthcare-frontend/src/components/doctors/DoctorList.js:44-55 | success stores the answer and ceil(n/10), at least 1, pages; failure keeps the list and shows 'Failed to load doctors'; loading ends |
| DoctorList.List.HandleSearch | healthcare_backend/healthcare-frontend/src/components/doctors/DoctorList.js:61-64 | stores the term and returns to page 1; nothing else changes |
| DoctorList.List.HandleFilter | healthcare_backend/healthcare-frontend/src/components/doctors/DoctorList.js:66-69 | stores the filters and returns to page 1; nothing else changes |
| DoctorList.List.HandleCreate | healthcare_backend/healthcare-frontend/src/components/doctors/DoctorList.js:71-78 | an admin opens an empty form; anyone else gets the refusal notice and the form is unchanged; only the form, the doctor being edited and the notice can change |
| DoctorList.List.HandleEdit | healthcare_backend/healthcare-frontend/src/components/doctors/DoctorList.js:80-87 | an admin or the doctor's creator opens the form on that doctor; anyone else is refused; a non-admin with no user throws; only the form, the doctor being edited and the notice can change |
| DoctorList.List.HandleDelete | healthcare_backend/healthcare-frontend/src/components/doctors/DoctorList.js:89-105 | a non-admin is refused; an unconfirmed delete changes nothing; a successful one reloads: a good reload replaces the list and the page count and notes success, a failed one keeps both and shows the load failure; a failed delete shows the server's error or the default and keeps the list and page count; the search term, filters, form and page never change |
| DoctorList.List.HandleFormClose | healthcare_backend/healthcare-frontend/src/components/doctors/DoctorList.js:107-110 | the form closes and nothing is being edited; no other field changes |
| DoctorList.List.HandleFormSubmit | healthcare_backend/healthcare-frontend/src/components/doctors/DoctorList.js:112-128 | updates the doctor being edited, else creates; success closes the form and reloads: a good reload replaces the list and page count and notes which save was made, a failed one keeps both and shows 'Failed to load doctors'; failure shows the serialized error and keeps the form and the list |
| DoctorList.List.HandlePageChange | healthcare_backend/healthcare-frontend/src/components/doctors/DoctorList.js:130-133 | moves to the page and reloads it: the answer replaces the list and page count, or a failure keeps both and shows 'Failed to load doctors' |
| PatientList.FilteredPatients | healthcare-frontend/src/components/patients/PatientList.js:95-99 | exactly the patients whose name, condition or gender contains the term, ignoring case, in order |
| PatientList.EmptyTermKeepsAll | healthcare-frontend/src/components/patients/PatientList.js:95-99 | the empty term keeps every patient |
| PatientList.List.constructor | healthcare-frontend/src/components/patients/PatientList.js:11-17 | no patients, loading, the form closed, page 1 of 1, no term, no notice |
| PatientList.List.LoadPatients | healthcare-frontend/src/components/patients/PatientList.js:20-33 | success stores the answer and ceil(n/10), at least 1, pages; failure keeps the list and shows 'Failed to load patients'; loading ends |
| PatientList.List.HandleCreate | healthcare-frontend/src/components/patients/PatientList.js:39-42 | opens an empty form; only the form and the patient being edited change |
| PatientList.List.HandleEdit | healthcare-frontend/src/components/patients/PatientList.js:44-47 | opens the form on the patient; only the form and the patient being edited change |
| PatientList.List.HandleDelete | healthcare-frontend/src/components/patients/PatientList.js:49-59 | an unconfirmed delete changes nothing; a successful one reloads: a good reload replaces the list and the page count and notes success, a failed one keeps both and shows the load failure; a failed delete shows 'Failed to delete patient' and keeps the list and page count; the search term, form and page never change |
| PatientList.List.HandleFormClose | healthcare-frontend/src/components/patients/PatientList.js:61-64 | the form closes and nothing is being edited; no other field changes |
| PatientList.List.HandleFormSubmit | healthcare-frontend/src/components/patients/PatientList.js:66-82 | updates the patient being edited, else creates; success closes the form and reloads: a good reload replaces the list and page count and notes which save was made, a failed one keeps both and shows 'Failed to load patients'; failure shows the serialized error and keeps the form and the list |
| PatientList.List.HandlePageChange | healthcare-frontend/src/components/patients/PatientList.js:84-87 | moves to the page and reloads it: the answer replaces the list and page count, or a failure keeps both and shows 'Failed to load patients' |
| PatientList.List.HandleSearch | healthcare-frontend/src/components/patients/PatientList.js:89-92 | stores the term and returns to page 1 |
| Lists.Filter | healthcare-frontend/NeuroMed-2f/app/admin/doctors/page.tsx:27-32 | `filter` never lengthens the list |
| Lists.FilterMembers | healthcare-frontend/NeuroMed-2f/app/admin/doctors/page.tsx:27-32 | `filter` keeps exactly the elements the predicate accepts |
| Lists.FilterSubsequence | healthcare-frontend/NeuroMed-2f/app/admin/doctors/page.tsx:27-32 | `filter` keeps the original order |
| Lists.FilterMultiplicity | healthcare-frontend/NeuroMed-2f/app/reports/page.tsx:46 | `filter` keeps every copy of an accepted element and no copy of a rejected one |
| Lists.FilterAll | healthcare-frontend/NeuroMed-2f/app/admin/doctors/page.tsx:27-32 | a predicate that accepts everything returns the list unchanged |
| Lists.FilterSnoc | healthcare-frontend/NeuroMed-2f/app/reports/page.tsx:113 | filtering a list with one more element appends that element exactly when it is accepted |
| Lists.FindFirst | healthcare-frontend/NeuroMed-2f/app/admin/mappings/page.tsx:41 | `find` is undefined exactly when no element matches, and otherwise returns the first match (also line 43 of the same file) |
| Lists.FindAt | healthcare-frontend/NeuroMed-2f/app/admin/mappings/page.tsx:41 | `find` returns the element at the first matching index (also line 43 of the same file) |
| Lists.RemoveId | healthcare-frontend/NeuroMed-2f/app/admin/doctors/page.tsx:35 | exactly the elements with another id remain, in their order |
| Lists.DistinctMeaning | healthcare-frontend/NeuroMed-2f/app/reports/page.tsx:43 | `Array.from(new Set(xs))` holds every value of `xs` exactly once |
| Lists.TotalSnocKey | healthcare-frontend/NeuroMed-2f/app/reports/page.tsx:44-47 | one more key adds its multiplicity to the per-key counts |
| Lists.TotalSnocValue | healthcare-frontend/NeuroMed-2f/app/reports/page.tsx:44-47 | one more value adds one to the per-key counts exactly when it is a key |
| Lists.DistinctTotal | healthcare-frontend/NeuroMed-2f/app/reports/page.tsx:43-47 | counting every distinct value's occurrences accounts for every element once |
| Lists.PageCount | healthcare_backend/healthcare-frontend/src/components/doctors/DoctorList.js:49 | `Math.ceil(n / 10)`, or 1 when that is 0: at least one page, one page for no data, otherwise the fewest pages of ten that hold n |
| StringOrder.LeqTotal | healthcare-frontend/NeuroMed-2f/app/doctors/page.tsx:29 | the default `sort` order relates any two strings |
| StringOrder.LeqAntisymmetric | healthcare-frontend/NeuroMed-2f/app/doctors/page.tsx:29 | two strings each ordered before the other are equal |
| StringOrder.LeqTransitive | healthcare-frontend/NeuroMed-2f/app/doctors/page.tsx:29 | the default `sort` order is transitive |
| StringOrder.Insert | healthcare-frontend/NeuroMed-2f/app/doctors/page.tsx:29 | insertion adds the one element and keeps the rest |
| StringOrder.InsertSorted | healthcare-frontend/NeuroMed-2f/app/doctors/page.tsx:29 | insertion into a sorted list keeps it sorted |
| StringOrder.Sort | healthcare-frontend/NeuroMed-2f/app/doctors/page.tsx:29 | `sort` is a permutation |
| StringOrder.SortSorts | healthcare-frontend/NeuroMed-2f/app/doctors/page.tsx:29 | `sort` yields an ascending permutation of its input |
| StringOrder.SortDistinct | healthcare-frontend/NeuroMed-2f/app/doctors/page.tsx:29 | sorting distinct strings yields a strictly ascending list |
| Text.Utf16Len | healthcare_backend/healthcare-frontend/src/utils/validation.js:11 | `length` counts between one and two code units per character |
| Text.Utf16LenBmp | healthcare_backend/healthcare-frontend/src/utils/validation.js:44 | inside the Basic Multilingual Plane `length` is the character count |
| Text.TrimStartRemovesSpace | healthcare_backend/healthcare-frontend/src/utils/validation.js:49 | `trimStart` drops exactly the leading white space |
| Text.TrimEndRemovesSpace | healthcare_backend/healthcare-frontend/src/utils/validation.js:49 | `trimEnd` drops exactly the trailing white space |
| Text.TrimEmptyIffAllSpace | healthcare_backend/healthcare-frontend/src/utils/validation.js:49 | `trim() === ''` exactly when every character is white space |
| Text.Lower | healthcare-frontend/NeuroMed-2f/app/admin/doctors/page.tsx:29-31 | `toLowerCase` lowers each upper-case letter and keeps every other character |
| Text.MatchesEmptyTerm | healthcare-frontend/NeuroMed-2f/app/admin/doctors/page.tsx:29-31 | every field includes the empty term |
| Text.DigitsOf | healthcare-frontend/NeuroMed-2f/components/auth/patient-registration-form.tsx:87 | `replace(/\D/g, "")` never lengthens the string |
| Text.DigitsOfKeepsEveryDigit | healthcare-frontend/NeuroMed-2f/components/auth/patient-registration-form.tsx:87 | what remains keeps the order of the input, holds every digit as often as the input does, and no other character |
| Text.DigitsOfIsFilter | healthcare-frontend/NeuroMed-2f/components/auth/patient-registration-form.tsx:87 | `replace(/\D/g, "")` is the order-preserving digit filter |
| Text.DigitsOfDigits | healthcare-frontend/NeuroMed-2f/components/auth/patient-registration-form.tsx:87 | what remains is all digits, and a string of digits is left unchanged |
| Text.BeforeFirst | healthcare_backend/healthcare-frontend/src/pages/Dashboard.js:28 | `split('@')[0]` is the prefix before the first '@', or the whole string |
| Text.NatToString | healthcare-frontend/NeuroMed-2f/lib/api-client.ts:85 | a status code prints as a non-empty run of digits (also line 87 of the same file) |
| Text.NatToStringValue | healthcare-frontend/NeuroMed-2f/lib/api-client.ts:85 | the printed digits spell the number, with a leading zero only for zero (also line 87 of the same file) |
| Text.IntToString | healthcare-frontend/NeuroMed-2f/lib/api-client.ts:85 | an integer prints as a non-empty string (also line 87 of the same file) |
| Text.IntToStringValue | healthcare-frontend/NeuroMed-2f/lib/api-client.ts:85 | an integer prints as '-' exactly when negative, followed by digits that spell its magnitude (also line 87 of the same file) |

## Left out

- Network I/O is not executed: fetch and axios calls, the token-refresh POST, and Django ORM queries and serializer validation. Their outcomes are parameters, and only the decisions taken on them are modelled.
- Browser navigation is modelled only where a handler sets it. The interceptor's redirect to '/login' is the `href` field of `ApiInterceptors.Window`. A route passed to `router.push` is the handler's result. `window.confirm` is a boolean input. `localStorage` is a map field, not persistence.
- Timers are not modelled.
  - The five-second timeouts that clear the settings banner and the notifications are absent.
  - The 500 ms simulated latency of the doctor's mapping removal is absent. `handleRemoveMapping` is split at that timer into `DoctorMappingsPage.Page.StartRemoval` and `FinishRemoval`.
- `Math.random` on the NeuroMed doctor dashboard is not modelled. That dashboard only displays figures.
- Decoding is not modelled. JWT decoding (`atob` with `JSON.parse`), `JSON.parse`/`JSON.stringify` of error bodies, and `parseInt`/`Number` are parameters that give the decoded value or its failure.
- URL encoding of query parameters in `ApiClient` is not modelled. Keys and values are joined as given.
- Rendering is not modelled beyond which elements, buttons and texts a component shows: JSX markup, CSS, icons and the recharts charts.
- The hard-coded figures of the reports page are not modelled. `patientStats` and `appointmentTrends` are display-only.
- `DoctorList` and `PatientList`: the effect that reloads the list when the search term or filters change is not part of `HandleSearch`/`HandleFilter`. The page and search arguments passed to the service only shape its answer, which is an input.
- `DoctorList`: the empty-table message is not modelled.
- The `MappingList` components: the patients and doctors they fetch for the name lookups are inputs.
- Seed and operational scripts are not modelled: project setup, superuser creation, migrations, the database wait loop, the Telegram bot and the e-mail tasks.
- Thin service wrappers and route tables are not modelled: the `*Service.js` modules, `App.js` and `urls.py`. They only forward their arguments.
- Pages whose only rule is display are not modelled:
  - the role dashboards of NeuroMed;
  - the profile pages and the NeuroMed settings page;
  - `Reports.js`, `Navbar.js`, `main-layout.tsx`, and the login and register pages;
  - the form components `MappingForm.js`, `PatientForm.js`, `DoctorForm.js` and `Register.js`;
  - the admin portal's copy of `PatientList.js`.
- Concurrency between asynchronous handlers is not modelled. Each handler runs as one atomic sequential step.
- `StringOrder.Sort` compares characters by code point. This is JavaScript's UTF-16 order only inside the Basic Multilingual Plane.
- `Text.Lower` folds ASCII letters only. The rest of Unicode case mapping is not modelled.
- `Permissions.OwnerOrAdmin` and `CreatorOrAdmin` take an authenticated requester. An anonymous requester would raise an attribute error in the source before any role test.
- NeuroMed ids: the mock collections are not part of this model. The model assumes their ids and the signed-in user's id have the same type; if the mock ids were strings, `===` against the numeric user id would never hold and the doctor's and patient's own lists would be empty.
- Js.Value: JavaScript numbers are integers here. Fractions and NaN are not modelled, and neither are the implicit conversions `>` and `<` apply to strings, booleans and arrays.
- TokenStore.NotExpired: only a numeric `exp` can be in the future here. JavaScript would convert a numeric string `exp` to a number and could accept it.
- `DoctorAdmin`: `is_approved` is a field of the doctor row here. The doctor–user link is the one the migrations add, since the model class shown does not declare it.
