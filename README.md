# Hospital records web client: state containers, form rules and page logic

This project models the client-side core of a hospital records web client. It covers:

- **Document container.** An ordered list of document records with a `loading` flag and an optional `error` message. It has six synchronous reducers and nine lifecycle reducers, a pending, fulfilled and rejected case for each of the fetch, upload and delete thunks.
- **Relationship container.** Doctor-patient relationship records with the same list-plus-flags pattern.
- **Profile container.** One optional user record with the same flags.
- **Three form schemas.** Registration, profile edit and document upload. Each is a total function that returns the set of failing fields. The user role is the tagged variant `Role = Doctor | Patient`.
- **Registration wizard.** A three-step machine with guarded Next, Back and Register buttons.
- **Page logic.** The profile page's edit flag, and the documents page's upload submit and delete handler.

The reducers mutate a draft state in place, so each container is a Dafny `class` whose fields the methods reassign. Each method's frame names the fields it may touch. The list operations are generic functions in `RecordList`, and the lemmas about them carry the properties: `findIndex`, the first-match patch, and `filter` by `id`. Validators, initial values and the upload payload are pure functions.

Modules and files:

| file | module | models |
|---|---|---|
| `wrappers.dfy` | `Wrappers` | `Option`, a value that may be `undefined`/`null` |
| `record_list.dfy` | `RecordList` | `findIndex`, patch-by-id, `filter`-by-id and their laws |
| `thunk.dfy` | `Thunk` | server outcomes, the rejection-message fallback |
| `document_slice.dfy` | `DocumentSlice` | `documentSlice.js` |
| `relationship_slice.dfy` | `RelationshipSlice` | `relationshipSlice.js` |
| `profile_slice.dfy` | `ProfileSlice` | `profileSlice.js` |
| `form_rules.dfy` | `FormRules` | role, field names, JavaScript string length, the phone pattern |
| `register.dfy` | `Register` | `Register.jsx`: schema and wizard |
| `profile.dfy` | `Profile` | `Profile.jsx`: schema, initial values, edit flag |
| `documents.dfy` | `Documents` | `Documents.jsx`: upload schema, payload, submit, delete |

Points where the model is stated as the code behaves:

- **Uploads append.** The successful upload case pushes the new record, so the newest record is last, not first.
- **Delete removes every match.** Both delete reducers remove every record with the given `id`, not just one.
- **No status enum.** The containers hold a single `loading` boolean, not an idle/pending/fulfilled/rejected status. A fulfilled case never writes `error`. It stays `null` only because the pending case cleared it, and the `Dispatch*` methods prove that.
- **The upload form can never be submitted.** The upload schema requires `file`, but the form values never hold a `file` key: the chosen file lives in separate page state. Validation therefore always reports `File` (`UploadFormAlwaysRejected`), so the form's `onSubmit` is never reached through the form. `OnSubmit` models what that callback would do.
- **Delete on the documents page uses the wrong reducer and key.** The page dispatches the synchronous `deleteDocument` reducer, not the delete thunk, so no server call is made. It passes the record's `_id`, while the reducer compares `id`. The list changes only if some record's `id` equals that `_id` (`DeleteByMongoIdChanges`). Records that carry only `_id` are never removed (`DeleteByMongoIdKeepsClicked`, `ClickedSurvivesDelete`).
- **An empty phone passes the profile form.** The phone pattern itself does not match `''`. But the form library hands every `''` to the schema as an absent value, and the pattern test passes absent values. So a user without a phone number can still save (`MissingPhoneAllowed`). For every other field of the three forms, `''` and absent get the same verdict, because each field is either required or has no rule.
- **The Aadhaar rules differ.** Registration requires an Aadhaar number of length exactly 12 and does not check that it is digits. The profile form only requires it to be non-empty (`ProfileAcceptsAnyAadhaar`).
- **The last Next also submits.** Next and Register are two unkeyed buttons in the same place, so the page reuses one DOM button. The click on Next that moves from step 1 to the last step changes that button into the submit button before the click's default action runs. The same click therefore submits the form and, when not `loading` and the schema accepts the values, dispatches the registration (`PressNext`, `CompleteRegistration`).
- **Lengths are UTF-16 code units.** String lengths in the `min` and `length` rules are counted as JavaScript counts them (`Utf16Length`).

## Model

| member | source | states |
|---|---|---|
| RecordList.FindIndex | hospital-frontend/src/store/slices/documentSlice.js:62 | the result is -1 exactly when no record has the id; otherwise it is the first index whose id matches |
| RecordList.ReplaceFirst | hospital-frontend/src/store/slices/documentSlice.js:61-65 | the patch keeps the length and every record's id, leaves the list unchanged when no id matches, and otherwise overwrites exactly the first matching position |
| RecordList.RemoveId | hospital-frontend/src/store/slices/documentSlice.js:70 | the filtered list is no longer than the original and contains no record with the deleted id |
| RecordList.RemoveIdMembers | hospital-frontend/src/store/slices/relationshipSlice.js:32 | a record survives the filter if and only if it was in the list and its id differs from the deleted one |
| RecordList.RemoveIdConcat | hospital-frontend/src/store/slices/documentSlice.js:117 | filtering distributes over concatenation, so the survivors keep their original relative order |
| RecordList.RemoveIdNoOp | hospital-frontend/src/store/slices/relationshipSlice.js:31-35 | a delete leaves the list unchanged if and only if no record has that id |
| RecordList.RemoveIdIdempotent | hospital-frontend/src/store/slices/documentSlice.js:69-73 | deleting the same id twice equals deleting it once |
| RecordList.AppendThenRemove | hospital-frontend/src/store/slices/relationshipSlice.js:18-22 | appending a record and then deleting its id equals deleting that id from the old list |
| RecordList.ReplaceThenRemove | hospital-frontend/src/store/slices/relationshipSlice.js:23-30 | patching a record and then deleting its id equals deleting that id from the unpatched list |
| RecordList.ReplaceFirstIdempotent | hospital-frontend/src/store/slices/relationshipSlice.js:23-30 | applying the same patch twice equals applying it once |
| Thunk.RejectionPayload | hospital-frontend/src/store/slices/documentSlice.js:12 | the rejection payload is the server's message when present and non-empty, and the fixed fallback otherwise; it is never empty when the fallback is not |
| Thunk.Settle | hospital-frontend/src/store/slices/documentSlice.js:7-13 | a successful call fulfils with the response body; a failed one rejects with the fallback-chosen, non-empty message |
| DocumentSlice.DocumentStore.constructor | hospital-frontend/src/store/slices/documentSlice.js:41-45 | the container starts with no documents, not loading, and no error |
| DocumentSlice.DocumentStore.SetDocuments | hospital-frontend/src/store/slices/documentSlice.js:51-55 | the list becomes the payload exactly; loading and error are cleared |
| DocumentSlice.DocumentStore.AddDocument | hospital-frontend/src/store/slices/documentSlice.js:56-60 | the list becomes the old list with the payload appended; loading and error are cleared |
| DocumentSlice.DocumentStore.UpdateDocument | hospital-frontend/src/store/slices/documentSlice.js:61-68 | the list becomes the first-id-match patch of the old list; loading and error are cleared even when nothing matched |
| DocumentSlice.DocumentStore.DeleteDocument | hospital-frontend/src/store/slices/documentSlice.js:69-73 | the list becomes the old list without the records whose id is the payload; loading and error are cleared |
| DocumentSlice.DocumentStore.SetLoading | hospital-frontend/src/store/slices/documentSlice.js:74-76 | only loading changes, and it becomes the payload |
| DocumentSlice.DocumentStore.SetError | hospital-frontend/src/store/slices/documentSlice.js:77-80 | error becomes the payload and loading is cleared; the list is untouched |
| DocumentSlice.DocumentStore.Pending | hospital-frontend/src/store/slices/documentSlice.js:85-88 | every pending case sets loading, clears error and leaves the list untouched, whatever the prior state |
| DocumentSlice.DocumentStore.Rejected | hospital-frontend/src/store/slices/documentSlice.js:93-96 | every rejected case clears loading, stores the payload as error and leaves the list untouched |
| DocumentSlice.DocumentStore.FetchFulfilled | hospital-frontend/src/store/slices/documentSlice.js:89-92 | the list becomes the fetched list in server order; loading is cleared; error is not written |
| DocumentSlice.DocumentStore.UploadFulfilled | hospital-frontend/src/store/slices/documentSlice.js:102-105 | the uploaded record is appended last; loading is cleared; error is not written |
| DocumentSlice.DocumentStore.DeleteFulfilled | hospital-frontend/src/store/slices/documentSlice.js:115-118 | records with the returned id are filtered out; loading is cleared; error is not written |
| DocumentSlice.DocumentStore.DispatchFetch | hospital-frontend/src/store/slices/documentSlice.js:5-15 | after a fetch settles, loading is off; on success the list is the server's list and error is null; on failure the list is unchanged and error is the message or 'Failed to fetch documents' |
| DocumentSlice.DocumentStore.DispatchUpload | hospital-frontend/src/store/slices/documentSlice.js:17-27 | after an upload settles, loading is off; on success the record is appended and error is null; on failure the list is unchanged and error is the message or 'Upload failed' |
| DocumentSlice.DocumentStore.DispatchDelete | hospital-frontend/src/store/slices/documentSlice.js:29-39 | after a delete settles, loading is off; on success the records with the requested id are gone and error is null; on failure the list is unchanged and error is the message or 'Delete failed' |
| DocumentSlice.DeleteByMongoIdChanges | hospital-frontend/src/pages/Documents.jsx:72-75 | deleting by a record's `_id` changes the list if and only if some record's `id` equals that `_id` |
| DocumentSlice.DeleteByMongoIdKeepsClicked | hospital-frontend/src/pages/Documents.jsx:128 | when no record has an `id`, deleting by a defined `_id` leaves the list unchanged |
| RelationshipSlice.RelationshipStore.constructor | hospital-frontend/src/store/slices/relationshipSlice.js:3-7 | the container starts with no relationships, not loading, and no error |
| RelationshipSlice.RelationshipStore.SetRelationships | hospital-frontend/src/store/slices/relationshipSlice.js:13-17 | the list becomes the payload exactly; loading and error are cleared |
| RelationshipSlice.RelationshipStore.AddRelationship | hospital-frontend/src/store/slices/relationshipSlice.js:18-22 | exactly one record is appended at the end, the prefix unchanged; loading and error are cleared |
| RelationshipSlice.RelationshipStore.UpdateRelationship | hospital-frontend/src/store/slices/relationshipSlice.js:23-30 | the list becomes the first-id-match patch of the old list; loading and error are cleared |
| RelationshipSlice.RelationshipStore.DeleteRelationship | hospital-frontend/src/store/slices/relationshipSlice.js:31-35 | the list loses exactly the records with the payload id, others in order; loading and error are cleared |
| RelationshipSlice.RelationshipStore.SetLoading | hospital-frontend/src/store/slices/relationshipSlice.js:36-38 | only loading changes |
| RelationshipSlice.RelationshipStore.SetError | hospital-frontend/src/store/slices/relationshipSlice.js:39-42 | error becomes the payload and loading is cleared; the list is untouched |
| ProfileSlice.ProfileStore.constructor | hospital-frontend/src/store/slices/profileSlice.js:3-7 | the container starts with no user, not loading, and no error |
| ProfileSlice.ProfileStore.SetProfile | hospital-frontend/src/store/slices/profileSlice.js:13-17 | the user becomes the payload; loading and error are cleared |
| ProfileSlice.ProfileStore.SetLoading | hospital-frontend/src/store/slices/profileSlice.js:18-20 | only loading changes; user and error keep their values |
| ProfileSlice.ProfileStore.SetError | hospital-frontend/src/store/slices/profileSlice.js:21-24 | error becomes the payload and loading is cleared; the user is untouched |
| ProfileSlice.ProfileStore.ClearProfile | hospital-frontend/src/store/slices/profileSlice.js:25-29 | the state returns to exactly the initial state from any state, so clearing is idempotent |
| FormRules.RoleOf | hospital-frontend/src/pages/auth/Register.jsx:42-44 | a `userType` string selects a role only when it is that role's name |
| FormRules.RoleRoundTrip | hospital-frontend/src/pages/auth/Register.jsx:115-123 | the value stored by each role's radio button reads back as that role |
| FormRules.Utf16Length | hospital-frontend/src/pages/auth/Register.jsx:34-36 | the JavaScript length of a string lies between its character count and twice that |
| FormRules.Utf16LengthOfBmp | hospital-frontend/src/pages/auth/Register.jsx:61 | for text inside the Basic Multilingual Plane the JavaScript length is the character count |
| FormRules.PhoneOkMatchesPattern | hospital-frontend/src/pages/Profile.jsx:24 | the phone check accepts exactly the strings matched by an optional '+' then one or more digits, whitespace or '-' |
| FormRules.EmptyPhoneRejected | hospital-frontend/src/pages/Profile.jsx:24 | the pattern itself does not match the empty string |
| FormRules.PhoneOk | hospital-frontend/src/pages/Profile.jsx:24 | a string the phone check accepts is non-empty, is not a lone '+', and after an optional leading '+' holds only digits, whitespace or '-' |
| Register.RegisterErrors | hospital-frontend/src/pages/auth/Register.jsx:30-64 | email fails iff empty or malformed; password iff shorter than 6; confirmation iff empty or different from the password; name iff empty; userType iff neither 'doctor' nor 'patient'; specialization and registration number iff doctor and empty; Aadhaar iff patient and length not 12; phone and address never fail |
| Register.RoleErrorsWithinRole | hospital-frontend/src/pages/auth/Register.jsx:45-63 | role-dependent failures are confined to the selected role's fields, and there are none without a valid role |
| Register.InitialFormErrors | hospital-frontend/src/pages/auth/Register.jsx:73-84 | the untouched form fails on exactly email, password, confirmation, name and user type |
| Register.AcceptedAadhaarLength | hospital-frontend/src/pages/auth/Register.jsx:57-63 | an accepted patient's Aadhaar number in the Basic Multilingual Plane has exactly 12 characters |
| Register.AadhaarContentIgnored | hospital-frontend/src/pages/auth/Register.jsx:60-62 | replacing the Aadhaar number by any text of the same length changes no verdict (no digit check) |
| Register.NextDisabled | hospital-frontend/src/pages/auth/Register.jsx:318-321 | Next is disabled only on steps 0 and 1: on step 0 iff no user type is chosen, on step 1 iff email, password or name is empty |
| Register.AcceptedFormOpensEveryStep | hospital-frontend/src/pages/auth/Register.jsx:318-321 | values the schema accepts never disable Next on steps 0 and 1 |
| Register.RegisterWizard.constructor | hospital-frontend/src/pages/auth/Register.jsx:70 | the wizard starts at step 0 |
| Register.RegisterWizard.PressNext | hospital-frontend/src/pages/auth/Register.jsx:297-324 | Next advances one step only before the last step and only when its guard allows, and the step stays within 0..2; the registration is dispatched by the same click iff it moves from step 1 to the last step, not loading, and the schema accepts the values |
| Register.RegisterWizard.PressBack | hospital-frontend/src/pages/auth/Register.jsx:100-102 | Back, shown on steps other than 0, goes back one step; the step stays within 0..2 |
| Register.RegisterWizard.PressRegister | hospital-frontend/src/pages/auth/Register.jsx:306-313 | pressing Register dispatches the registration iff the wizard is on the last step, not loading, and the schema accepts the values |
| Register.CompleteRegistration | hospital-frontend/src/pages/auth/Register.jsx:96-98 | from a fresh wizard, accepted values are registered by the second press of Next |
| Profile.InitialProfileValues | hospital-frontend/src/pages/Profile.jsx:46-55 | with no user, every field starts as '' |
| Profile.InitialValuesShowUser | hospital-frontend/src/pages/Profile.jsx:47-54 | every form field starts as the user's stored value, or '' when it is missing |
| Profile.ProfileErrors | hospital-frontend/src/pages/Profile.jsx:21-38 | name fails iff empty; email iff empty or malformed; phone iff it is non-empty and does not match the pattern ('' reaches the schema as an absent value, which the pattern test passes); specialization and registration number iff doctor and empty; Aadhaar iff patient and empty; address never fails |
| Profile.MissingPhoneAllowed | hospital-frontend/src/pages/Profile.jsx:49 | a user without a phone number starts with no phone error, although '' itself does not match the pattern |
| Profile.InitialValuesOfRegisteredUser | hospital-frontend/src/pages/Profile.jsx:46-55 | the profile form of a user stored with a registration's values shows those values |
| Profile.RegistrationStricterThanProfile | hospital-frontend/src/pages/Profile.jsx:21-38 | apart from the phone rule, every profile failure is also a registration failure of the same values |
| Profile.ProfileAcceptsAnyAadhaar | hospital-frontend/src/pages/Profile.jsx:34-37 | a non-empty Aadhaar number of the wrong length fails registration but passes the profile form |
| Profile.AcceptedRegistrationSavesProfile | hospital-frontend/src/pages/Profile.jsx:45-56 | a user registered with accepted values and an empty or well-formed phone can save the profile form unchanged |
| Profile.ProfilePage.constructor | hospital-frontend/src/pages/Profile.jsx:43 | the page starts out of edit mode |
| Profile.ProfilePage.ToggleEdit | hospital-frontend/src/pages/Profile.jsx:108-114 | the Edit button flips the edit flag |
| Profile.ProfilePage.Submit | hospital-frontend/src/pages/Profile.jsx:57-64 | saving leaves edit mode exactly when editing, not loading and the values pass the schema; nothing else changes |
| Documents.UploadErrors | hospital-frontend/src/pages/Documents.jsx:29-35 | title, patient id and doctor id fail iff empty; file fails iff absent; description never fails |
| Documents.UploadFormAlwaysRejected | hospital-frontend/src/pages/Documents.jsx:51-59 | validating the form values always reports the file field, so the form never submits |
| Documents.ComposeUploadPayload | hospital-frontend/src/pages/Documents.jsx:61-64 | the payload's file is the selected file, and its title, description, patient id, doctor id and privacy flag are the form's |
| Documents.PayloadRoundTrip | hospital-frontend/src/pages/Documents.jsx:61-64 | the payload carries every form value unchanged plus the chosen file, and nothing else |
| Documents.ClickedSurvivesDelete | hospital-frontend/src/pages/Documents.jsx:128 | a listed record whose `id` differs from its `_id` survives its own delete |
| Documents.DocumentsPage.constructor | hospital-frontend/src/pages/Documents.jsx:40-41 | the dialog starts closed, no file is chosen, and the form holds its initial values |
| Documents.DocumentsPage.Mount | hospital-frontend/src/pages/Documents.jsx:43-45 | on mount the documents are fetched, with the fetch lifecycle's outcome |
| Documents.DocumentsPage.OpenDialog | hospital-frontend/src/pages/Documents.jsx:93 | the Upload Document button opens the dialog |
| Documents.DocumentsPage.CloseDialog | hospital-frontend/src/pages/Documents.jsx:202 | Cancel closes the dialog |
| Documents.DocumentsPage.HandleFileChange | hospital-frontend/src/pages/Documents.jsx:47-49 | picking a file stores it, or none, as the selected file |
| Documents.DocumentsPage.OnSubmit | hospital-frontend/src/pages/Documents.jsx:60-69 | the form values plus the selected file are uploaded; afterwards, on success or failure alike, the dialog is closed, the form is reset and the selected file is cleared |
| Documents.DocumentsPage.HandleDelete | hospital-frontend/src/pages/Documents.jsx:72-76 | only after confirmation, the synchronous reducer deletes by the record's `_id`, compared against `id`; without confirmation nothing changes |

## Left out

- The HTTP calls inside the three thunks and the services that wrap them. What the server answers is a parameter of the `Dispatch*` methods, of `Mount` and of `OnSubmit`.
- Concurrency between in-flight thunks. Each `Dispatch*` method runs one pending event and then its terminal event, with no other event in between.
- Rendering, routing, the theme, the dashboard and the static pages. Date formatting and `window.open` are also left out. `window.confirm` is the boolean parameter `confirmed`.
- Formik's touched and error-display plumbing. A form submits exactly when its validator returns the empty set.
- The form library's conversion of `''` to an absent value before validation, as a separate step. It is folded into the phone rule of `ProfileErrors`, the only rule where it changes a verdict.
- The e-mail syntax check. It is the library's own regular expression, and the validators take it as the parameter `isEmail`.
- The registration request itself. It uses an authentication container that is not part of this model, so `PressNext` and `PressRegister` only report whether they dispatch.
- The profile page reads its user and its `loading` flag from that same authentication container. `loading` is a parameter, and the user is an `Option<User>`.
- Thunk payloads of unexpected shapes, such as a non-string server message or a non-array fetch result. Payloads have the types the pages use.
- The upload form's submit handler. Validation never passes, so it is modelled only by `UploadFormAlwaysRejected`. `OnSubmit` models the callback it would reach.
