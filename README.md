# MediNote front end, modelled in Dafny

MediNote is a personal health notebook for the web. Members keep their
diseases, medications and allergies, a record of hospital visits and a
calendar of appointments; a dashboard shows today's appointments and
medications, a chatbot answers questions, and administrators manage users
and answer feedback. This project models the logic of its React front end:

- the session store: login state, the token snapshot in browser storage,
  the refresh timer and the single-flight token refresh;
- the request layer that attaches the bearer token and retries a request
  once after a 401;
- the health, schedule and administrator stores;
- the pages and dialogs that validate, filter, sort, paginate and update
  what those stores hold.

Each source file becomes one module. Values (records, form data, API
replies) are datatypes. Component state that handlers overwrite becomes
a class. Its methods carry `modifies` clauses and state the new state
through pure functions, and lemmas about those functions state what the
code promises.

Everything outside the front end is a parameter, so one reply stands for
each possible backend answer:

- the backend is `ApiReply<T>`, `Ok(body)` or `Failed(status)`;
- the clock is a `now` or `today` argument;
- browser storage is an optional snapshot.

An asynchronous handler that awaits the backend is split in two: the
part up to the `await`, and the continuation that receives the reply.

Shared modules:

- `Wrappers`: `Option` and `ApiReply`.
- `JsString`: the JavaScript string built-ins the code uses (`trim`,
  `split`, `join`, `includes`, `toLowerCase`, `String(n)`, `Number(s)`,
  `length` in UTF-16 units).
- `Seqs`: `filter`, `map`, `find`, `slice` and the element-wise
  replacement the stores use.

## Model

| member | source | states |
|---|---|---|
| UserStore.TimerFor | src/store/useUserStore.ts:83-98 | a timer is armed exactly when the delay is positive, with that delay, after any old timer was cleared |
| UserStore.Initial | src/store/useUserStore.ts:61-66 | the store starts logged out with every field empty, no timer and no refresh in flight |
| UserStore.AfterSetAuth | src/store/useUserStore.ts:71-107 | after `setAuth` the user is logged in with the given tokens, expiry is now + expires_in·1000, storage holds exactly that session, and a refresh is armed 60 s before expiry exactly when that is positive |
| UserStore.AfterClearAuth | src/store/useUserStore.ts:112-127 | `clearAuth` removes storage, cancels the timer and returns every field to its initial value |
| UserStore.AfterLoadAuth | src/store/useUserStore.ts:150-188 | no or blank entry changes nothing; unreadable JSON or an expired, zero or missing expiry deletes the entry only; a live snapshot is restored field by field and the timer re-armed for the remaining time less 60 s |
| UserStore.AfterBeginRefresh | src/store/useUserStore.ts:193-208 | a refresh already in flight returns the current access token untouched; a missing or empty refresh token clears the session; otherwise the flag is raised and the backend is asked with the refresh token |
| UserStore.AfterFinishRefresh | src/store/useUserStore.ts:210-256 | on failure the session is cleared and null returned; on success the new access token and expiry replace the old, the user and refresh token stay, the snapshot is rewritten only when a user is present, the timer is re-armed, and the flag always ends lowered |
| UserStore.RestoreAfterSetAuth | src/store/useUserStore.ts:71-188 | a session saved by `setAuth` comes back unchanged from storage after a reload while it has not expired |
| UserStore.ExpiredSnapshotDiscarded | src/store/useUserStore.ts:157-161 | an expired or expiry-less snapshot is deleted and memory is left as it was |
| UserStore.SecondRefreshDeduplicated | src/store/useUserStore.ts:196-199 | a second refresh while one is in flight makes no backend call and returns the current token |
| UserStore.RefreshClearsFlag | src/store/useUserStore.ts:254-256 | a completed refresh never leaves the in-flight flag raised |
| UserStore.RefreshKeepsIdentity | src/store/useUserStore.ts:242-249 | a successful refresh replaces only the access token and its expiry |
| UserStore.ActionsKeepPersisted | src/store/useUserStore.ts:71-256 | every action keeps storage equal to the snapshot of the in-memory session, or empty when logged out |
| UserStore.LogAppend | src/store/useUserStore.ts:83-98 | each timer event moves the count of waiting timers by one, so there is never more than one |
| UserStore.Session.constructor | src/store/useUserStore.ts:57-66 | the store object starts in the initial state over the given storage |
| UserStore.Session.CancelTimer | src/store/useUserStore.ts:84-87 | the timer slot is emptied and nothing else changes |
| UserStore.Session.ArmTimer | src/store/useUserStore.ts:90-98 | a timer is armed exactly for a positive delay |
| UserStore.Session.SetAuth | src/store/useUserStore.ts:71-107 | the new state is `AfterSetAuth` of the old |
| UserStore.Session.ClearAuth | src/store/useUserStore.ts:112-127 | the new state is `AfterClearAuth` of the old |
| UserStore.Session.Logout | src/store/useUserStore.ts:132-144 | the backend is asked to revoke exactly when a refresh token is present, and the session is cleared whatever it answers |
| UserStore.Session.LoadAuthFromStorage | src/store/useUserStore.ts:150-188 | the new state is `AfterLoadAuth` of the old |
| UserStore.Session.BeginRefresh | src/store/useUserStore.ts:193-208 | the new state and the outcome are `AfterBeginRefresh` of the old |
| UserStore.Session.FinishRefresh | src/store/useUserStore.ts:210-256 | the new state and the token are `AfterFinishRefresh` of the old |
| UserStore.Session.RefreshAccessToken | src/store/useUserStore.ts:193-257 | a whole refresh with no action in between |
| UserStore.Session.TimerFires | src/store/useUserStore.ts:92-97 | the armed timer's callback runs a refresh |
| ApiClient.RequestConfig.constructor | src/api/axios.ts:8-13 | a request starts with its own header and the retry flag lowered |
| ApiClient.BearerHeader | src/api/axios.ts:32 | the header is `Bearer ` followed by exactly the token (the scheme of section 2.1 of RFC 6750) |
| ApiClient.AttachToken | src/api/axios.ts:25-36 | a present, non-empty access token sets the header to its bearer form; otherwise the header is left; the retry flag never changes |
| ApiClient.OnResponseError | src/api/axios.ts:45-77 | no config, a request already retried or a status other than 401 is rejected with no change; a first 401 marks the request retried, runs one refresh, and resends with the new bearer header exactly when the refresh returned a token |
| ApiClient.Request | src/api/axios.ts:25-77 | a request is sent at most twice and refreshes at most once; the first send carries the current token; only a 401 leads to a refresh, and the second send carries the refreshed token and decides the outcome |
| HealthDataStore.StampedId | src/store/useHealthDataStore.ts:112-156 | a new id is the kind letter, an underscore and the decimal clock reading |
| HealthDataStore.StampedIdsDistinct | src/store/useHealthDataStore.ts:112-156 | two different clock readings give two different ids |
| HealthDataStore.PatchDisease | src/store/useHealthDataStore.ts:119 | `{ ...d, ...patch }`: each field given in the patch wins, the others and the id stay |
| HealthDataStore.PatchMedication | src/store/useHealthDataStore.ts:140 | the same spread for a medication, field by field |
| HealthDataStore.PatchAllergy | src/store/useHealthDataStore.ts:163 | the same spread for an allergy |
| HealthDataStore.AddDisease | src/store/useHealthDataStore.ts:108-114 | the list grows by one at the end, the old entries untouched, the new one with a fresh stamped id |
| HealthDataStore.UpdateDisease | src/store/useHealthDataStore.ts:116-121 | length and ids stay; exactly the entries with the id are patched |
| HealthDataStore.DeleteDisease | src/store/useHealthDataStore.ts:123-126 | no entry with the id survives, every other entry does, the survivors keep their order, and the length drops by the number of entries with that id |
| HealthDataStore.DeleteDiseaseTwice | src/store/useHealthDataStore.ts:123-126 | deleting the same id twice is deleting it once |
| HealthDataStore.DeleteUndoesAddDisease | src/store/useHealthDataStore.ts:108-126 | deleting the id just added gives back the old list when that id was not in use |
| HealthDataStore.AddMedication | src/store/useHealthDataStore.ts:129-135 | appended at the end with a fresh stamped id, the rest untouched |
| HealthDataStore.UpdateMedication | src/store/useHealthDataStore.ts:137-142 | length and ids stay; exactly the entries with the id are patched |
| HealthDataStore.DeleteMedication | src/store/useHealthDataStore.ts:144-149 | no entry with the id survives, every other does in its original order, length drops by their number |
| HealthDataStore.DeleteMedicationTwice | src/store/useHealthDataStore.ts:144-149 | deleting the same id twice is deleting it once |
| HealthDataStore.DeleteUndoesAddMedication | src/store/useHealthDataStore.ts:129-149 | add then delete of the fresh id is the identity |
| HealthDataStore.AddAllergy | src/store/useHealthDataStore.ts:152-158 | appended at the end with a fresh stamped id, the rest untouched |
| HealthDataStore.UpdateAllergy | src/store/useHealthDataStore.ts:160-165 | length and ids stay; exactly the entries with the id are patched |
| HealthDataStore.DeleteAllergy | src/store/useHealthDataStore.ts:167-170 | no entry with the id survives, every other does in its original order, length drops by their number |
| HealthDataStore.DeleteAllergyTwice | src/store/useHealthDataStore.ts:167-170 | deleting the same id twice is deleting it once |
| HealthDataStore.DeleteUndoesAddAllergy | src/store/useHealthDataStore.ts:152-170 | add then delete of the fresh id is the identity |
| HealthDataStore.HealthData.constructor | src/store/useHealthDataStore.ts:97-102 | the store starts with the default basic info, three empty lists and today's date |
| HealthDataStore.HealthData.UpdateBasicInfo | src/store/useHealthDataStore.ts:105 | the basic info is replaced and the lists and date are untouched |
| HealthDataStore.HealthData.AddDiseaseAt | src/store/useHealthDataStore.ts:108-114 | only the disease list changes, by `AddDisease` |
| HealthDataStore.HealthData.UpdateDiseaseById | src/store/useHealthDataStore.ts:116-121 | only the disease list changes, by `UpdateDisease` |
| HealthDataStore.HealthData.DeleteDiseaseById | src/store/useHealthDataStore.ts:123-126 | only the disease list changes, by `DeleteDisease` |
| HealthDataStore.HealthData.AddMedicationAt | src/store/useHealthDataStore.ts:129-135 | only the medication list changes, by `AddMedication` |
| HealthDataStore.HealthData.UpdateMedicationById | src/store/useHealthDataStore.ts:137-142 | only the medication list changes, by `UpdateMedication` |
| HealthDataStore.HealthData.DeleteMedicationById | src/store/useHealthDataStore.ts:144-149 | only the medication list changes, by `DeleteMedication` |
| HealthDataStore.HealthData.SetMedications | src/components/domain/HealthInfo/MedInfoTab.tsx:38-41 | the whole medication list is replaced and nothing else changes, as the pages do with `setState` after a server round trip |
| HealthDataStore.HealthData.AddAllergyAt | src/store/useHealthDataStore.ts:152-158 | only the allergy list changes, by `AddAllergy` |
| HealthDataStore.HealthData.UpdateAllergyById | src/store/useHealthDataStore.ts:160-165 | only the allergy list changes, by `UpdateAllergy` |
| HealthDataStore.HealthData.DeleteAllergyById | src/store/useHealthDataStore.ts:167-170 | only the allergy list changes, by `DeleteAllergy` |
| HealthDataStore.HealthData.UpdateCurrentDate | src/store/useHealthDataStore.ts:173 | only the date changes |
| HealthDataStore.HealthData.ResetAll | src/store/useHealthDataStore.ts:175-182 | everything returns to the initial state with today's date |
| ScheduleStore.ScheduleId | src/store/useScheduleStore.ts:33 | a new id is `s_` and the decimal clock reading |
| ScheduleStore.PatchSchedule | src/store/useScheduleStore.ts:39 | each field given in the patch wins, the others and the id stay |
| ScheduleStore.AddSchedule | src/store/useScheduleStore.ts:31-34 | appended at the end with a fresh stamped id, the rest untouched |
| ScheduleStore.UpdateSchedule | src/store/useScheduleStore.ts:36-41 | length and ids stay; exactly the entries with the id are patched |
| ScheduleStore.DeleteSchedule | src/store/useScheduleStore.ts:43-46 | no entry with the id survives, every other does in its original order, length drops by their number |
| ScheduleStore.DeleteScheduleTwice | src/store/useScheduleStore.ts:43-46 | deleting the same id twice is deleting it once |
| ScheduleStore.DeleteUndoesAddSchedule | src/store/useScheduleStore.ts:31-46 | add then delete of the fresh id is the identity |
| ScheduleStore.UpdateMissingIdIsNoOp | src/store/useScheduleStore.ts:36-41 | patching an id no entry has changes nothing |
| ScheduleStore.Schedules.constructor | src/store/useScheduleStore.ts:29 | the store starts empty |
| ScheduleStore.Schedules.AddScheduleAt | src/store/useScheduleStore.ts:31-34 | the list becomes `AddSchedule` of the old |
| ScheduleStore.Schedules.UpdateScheduleById | src/store/useScheduleStore.ts:36-41 | the list becomes `UpdateSchedule` of the old |
| ScheduleStore.Schedules.DeleteScheduleById | src/store/useScheduleStore.ts:43-46 | the list becomes `DeleteSchedule` of the old |
| ScheduleStore.Schedules.SetSchedules | src/pages/Schedule/SchedulePage.tsx:34-36 | the whole list is replaced, as the calendar page does with `setState` |
| AdminStore.UnprocessedCount | src/pages/admin/FeedbackManagementPage.tsx:77 | the number of feedbacks not done is at most their number, and zero exactly when all are done |
| AdminStore.InitialIds | src/store/useAdminStore.ts:33-60 | the seeded inbox holds ids 1 to 5 in order |
| AdminStore.UpdateFeedbackStatus | src/store/useAdminStore.ts:63-65 | the entries with the id take the status; every other entry is unchanged |
| AdminStore.AddAdminReply | src/store/useAdminStore.ts:68-72 | the entries with the id take the reply and become done; every other entry is unchanged |
| AdminStore.ReplyNeverAddsUnprocessed | src/store/useAdminStore.ts:68-72 | answering never raises the unprocessed count |
| AdminStore.ReplyMarksDone | src/store/useAdminStore.ts:63-72 | answering leaves each status as setting that id to done would |
| AdminStore.Inbox.constructor | src/store/useAdminStore.ts:33-60 | the inbox starts with the five seeded feedbacks |
| AdminStore.Inbox.UpdateStatus | src/store/useAdminStore.ts:63-65 | the list becomes `UpdateFeedbackStatus` of the old |
| AdminStore.Inbox.AddReply | src/store/useAdminStore.ts:68-72 | the list becomes `AddAdminReply` of the old |
| MedDetailModal.ParseSchedule | src/components/domain/HealthInfo/MedDetailModal.tsx:361-368 | an empty text gives nothing; otherwise, over the trimmed comma-separated pieces, the list is exactly the standard pieces in order followed by `기타` when some piece is not standard, and the custom text is exactly the non-standard pieces, in order, joined by ", " |
| MedDetailModal.ParseParts | src/components/domain/HealthInfo/MedDetailModal.tsx:364-367 | over any pieces: the list starts with exactly the standard pieces in order (each copy kept), then `기타` exactly when some piece is not standard; the custom text is the non-standard pieces in order joined by ", " |
| MedDetailModal.ParseScheduleOther | src/components/domain/HealthInfo/MedDetailModal.tsx:361-366 | `기타` is listed exactly when the text is non-empty and some trimmed piece is not a standard time |
| MedDetailModal.ParsePartsOther | src/components/domain/HealthInfo/MedDetailModal.tsx:364-366 | `기타` is listed exactly when some piece is not standard |
| MedDetailModal.ParseScheduleText | src/components/domain/HealthInfo/MedDetailModal.tsx:361-398 | parsing the joined text of standard times and a trimmed, comma-free custom entry gives back those times (plus `기타`) and that entry |
| MedDetailModal.ScheduleTextPieces | src/components/domain/HealthInfo/MedDetailModal.tsx:363-380 | splitting the joined text at commas and trimming gives back exactly the pieces that were joined |
| MedDetailModal.ParsePartsOfSchedule | src/components/domain/HealthInfo/MedDetailModal.tsx:364-367 | the standard times and the custom entry are sorted back into list and custom text |
| MedDetailModal.MapDrugToMedication | src/components/domain/HealthInfo/MedDetailModal.tsx:370-384 | the id is the drug number in decimal, the type is the caller's, and the schedule is the times joined with the custom entry |
| MedDetailModal.MapPrescriptionToMedication | src/components/domain/HealthInfo/MedDetailModal.tsx:386-400 | the id is the prescription number in decimal, the type is prescription, and the schedule joins the times and custom entry |
| MedDetailModal.DrugScheduleRoundTrip | src/components/domain/HealthInfo/MedDetailModal.tsx:361-384 | the edit form opened on a stored drug shows exactly the times and custom text the backend sent |
| MedDetailModal.PrescriptionScheduleRoundTrip | src/components/domain/HealthInfo/MedDetailModal.tsx:361-400 | the same round trip for a prescription, whose custom entry may be null |
| MedDetailModal.ToggleOption | src/components/domain/HealthInfo/MedDetailModal.tsx:42-47 | the option's membership flips, every other option's stays, adding appends at the end, and the other entries keep their order |
| MedDetailModal.ToggleTwice | src/components/domain/HealthInfo/MedDetailModal.tsx:42-47 | toggling twice restores the list when the option was absent, and its members always |
| MedDetailModal.SelectedOptions | src/components/domain/HealthInfo/MedDetailModal.tsx:67 | the selected times are the checked list without `기타`, in the order checked and with every other entry kept |
| MedDetailModal.CustomText | src/components/domain/HealthInfo/MedDetailModal.tsx:68 | the custom text is the trimmed input when `기타` is selected and empty otherwise |
| MedDetailModal.MissingCustomMeansBlank | src/components/domain/HealthInfo/MedDetailModal.tsx:69 | the save is refused exactly when `기타` is selected and the input is all whitespace |
| MedDetailModal.SaveRequestFor | src/components/domain/HealthInfo/MedDetailModal.tsx:75-114 | a supplement is saved through the drug endpoint and anything else through the prescription endpoint, with the selected times, and the custom text (null when empty for a prescription) |
| MedDetailModal.DeleteRequestFor | src/components/domain/HealthInfo/MedDetailModal.tsx:140-144 | the drug endpoint deletes a supplement and the prescription endpoint anything else |
| MedDetailModal.PatchFrom | src/components/domain/HealthInfo/MedDetailModal.tsx:91-100 | applying the patch to any record gives the mapped record with the old id |
| MedDetailModal.MedDetail.constructor | src/components/domain/HealthInfo/MedDetailModal.tsx:21-35 | the modal opens read-only with the record's fields and its parsed schedule |
| MedDetailModal.MedDetail.ToggleSchedule | src/components/domain/HealthInfo/MedDetailModal.tsx:42-47 | only the selected times change, by `ToggleOption` |
| MedDetailModal.MedDetail.StartEditing | src/components/domain/HealthInfo/MedDetailModal.tsx:49-62 | the form is reset from the record and its parsed schedule, and editing starts |
| MedDetailModal.MedDetail.OnSave | src/components/domain/HealthInfo/MedDetailModal.tsx:64-135 | a missing custom time stops the save; otherwise the request goes to the endpoint for the type; on success the entry with the id is patched with the mapped reply; on failure or refusal the store is unchanged; other lists never change |
| MedDetailModal.MedDetail.OnDelete | src/components/domain/HealthInfo/MedDetailModal.tsx:137-153 | a declined confirmation does nothing; otherwise the endpoint for the type is called and the entry leaves the store only on success |
| AddMedModal.CreatePayload | src/components/domain/HealthInfo/AddMedModal.tsx:83-99 | the request holds the name, the checked times without `기타` in checked order with every other entry kept, and the trimmed custom text exactly when `기타` is selected |
| AddMedModal.AddMedForm.constructor | src/components/domain/HealthInfo/AddMedModal.tsx:40-59 | the form opens on the given screen and type, empty, with tablet, mg and today as both dates |
| AddMedModal.AddMedForm.ChooseType | src/components/domain/HealthInfo/AddMedModal.tsx:157-174 | a type card sets the type and opens the form; nothing typed changes |
| AddMedModal.AddMedForm.Back | src/components/domain/HealthInfo/AddMedModal.tsx:365-371 | the back button returns to the type cards, keeping the form, and does nothing when the dialog opened on the form |
| AddMedModal.AddMedForm.ToggleSchedule | src/components/domain/HealthInfo/AddMedModal.tsx:66-74 | only the selected times change, by `ToggleOption`; the screen and type stay |
| AddMedModal.AddMedForm.HandleSubmit | src/components/domain/HealthInfo/AddMedModal.tsx:76-113 | a blank name, then a missing custom time, stop the submit; otherwise the drug endpoint is asked; only on success is the mapped record appended and the dialog closed; nothing else in the store changes |
| MedInfoTab.MergedMeds | src/components/domain/HealthInfo/MedInfoTab.tsx:35-40 | the loaded list is every mapped prescription, then every mapped drug as a supplement, each in backend order |
| MedInfoTab.FilterMeds | src/components/domain/HealthInfo/MedInfoTab.tsx:49-51 | "all" shows the whole list; otherwise exactly the entries of the chosen type are shown, in list order |
| MedInfoTab.FilterLoadedPrescriptions | src/components/domain/HealthInfo/MedInfoTab.tsx:35-51 | after a load the prescription filter shows exactly the mapped prescriptions, in order |
| MedInfoTab.FilterLoadedSupplements | src/components/domain/HealthInfo/MedInfoTab.tsx:35-51 | after a load the supplement filter shows exactly the mapped drugs, in order |
| MedInfoTab.FetchMeds | src/components/domain/HealthInfo/MedInfoTab.tsx:26-46 | only when both lists arrive is the store's medication list replaced by the merge; otherwise nothing changes |
| DiseaseModal.Label | src/components/domain/HealthInfo/DiseaseModal.tsx:22 | chronic is shown as `만성질환` and simple as `급성질병`, and no other way round |
| DiseaseModal.KindOfLabel | src/components/domain/HealthInfo/DiseaseModal.tsx:42 | `만성질환` reads as chronic; every other text reads as simple |
| DiseaseModal.LabelRoundTrip | src/components/domain/HealthInfo/DiseaseModal.tsx:22-42 | reading back a shown label gives the kind it came from |
| DiseaseModal.DiseaseForm.constructor | src/components/domain/HealthInfo/DiseaseModal.tsx:20-24 | the form starts empty with the label of the default type |
| DiseaseModal.DiseaseForm.HandleSubmit | src/components/domain/HealthInfo/DiseaseModal.tsx:33-48 | a blank name is refused exactly and leaves the store; otherwise one disease is appended with the name, the kind read from the label and the medicines; nothing else changes |
| DiseaseInfoTab.FilterDiseases | src/components/domain/HealthInfo/DiseaseInfoTab.tsx:23-25 | "all" shows the whole list; otherwise exactly the diseases of the chosen kind are shown, in list order |
| DiseaseInfoTab.Tag | src/components/domain/HealthInfo/DiseaseInfoTab.tsx:64 | a row's tag is the label of its kind, and only of its kind |
| DiseaseInfoTab.MedList | src/components/domain/HealthInfo/DiseaseInfoTab.tsx:112 | an empty text shows no medicine; otherwise exactly the non-empty trimmed comma-separated pieces are shown, in order, each copy kept |
| DiseaseInfoTab.MedListOfJoin | src/components/domain/HealthInfo/DiseaseInfoTab.tsx:112 | medicine names joined with `, ` are shown back exactly, in order |
| DiseaseDetailModal.DiseaseDetail.constructor | src/components/domain/HealthInfo/DiseaseDetailModal.tsx:17-22 | the modal opens read-only on the disease's name, label and medicines |
| DiseaseDetailModal.DiseaseDetail.SavePatch | src/components/domain/HealthInfo/DiseaseDetailModal.tsx:31-35 | the save sends all three fields, with the kind read from the label |
| DiseaseDetailModal.DiseaseDetail.OnSave | src/components/domain/HealthInfo/DiseaseDetailModal.tsx:29-38 | the disease with the id is patched without any validation; nothing else changes |
| DiseaseDetailModal.DiseaseDetail.OnDelete | src/components/domain/HealthInfo/DiseaseDetailModal.tsx:40-46 | the disease leaves the store exactly when the deletion is confirmed |
| DiseaseDetailModal.UneditedSaveKeepsDisease | src/components/domain/HealthInfo/DiseaseDetailModal.tsx:18-35 | saving the form unedited leaves the disease as it was |
| SignupPage.LooseEmailOnOneLine | src/pages/Auth/SignupPage.tsx:251 | on input without line breaks, the sign-up pattern holds exactly when an `@` follows the first character and a `.` comes at least two places later but not last |
| SignupPage.ValidateEmail | src/pages/Auth/SignupPage.tsx:249-253 | accepted exactly when non-blank and matching the pattern; a blank input reports "required", anything else "invalid" |
| SignupPage.ValidatePassword | src/pages/Auth/SignupPage.tsx:254-264 | accepted exactly under the rule (8 to 20 UTF-16 units with a letter, a digit and another character); errors come in the order empty, length, composition |
| SignupPage.PasswordRuleBounds | src/pages/Auth/SignupPage.tsx:256-261 | an accepted password has between 4 and 20 characters, since a character may take two UTF-16 units |
| SignupPage.ValidateConfirm | src/pages/Auth/SignupPage.tsx:265-269 | accepted exactly when non-empty and equal to the password; empty is reported before a mismatch |
| SignupPage.ValidateName | src/pages/Auth/SignupPage.tsx:270-278 | accepted exactly when the trimmed name has 2 to 20 units, all ASCII letters, Hangul syllables or whitespace; blank and length are reported first |
| SignupPage.AcceptedNameEnds | src/pages/Auth/SignupPage.tsx:270-278 | an accepted name starts and ends with a letter, since trimming removed the whitespace at both ends |
| SignupPage.Terms.constructor | src/pages/Auth/SignupPage.tsx:23-28 | the terms step starts with nothing agreed, so it cannot proceed |
| SignupPage.Terms.ToggleAll | src/pages/Auth/SignupPage.tsx:35-41 | all five boxes take the value, and "agree to all" stays equal to all four items agreed |
| SignupPage.Terms.SetSensitive | src/pages/Auth/SignupPage.tsx:75-80 | only that item changes, and "agree to all" again matches the four items |
| SignupPage.Terms.SetDisclaimer | src/pages/Auth/SignupPage.tsx:101-106 | only that item changes, and "agree to all" again matches the four items |
| SignupPage.Terms.SetAccuracy | src/pages/Auth/SignupPage.tsx:131-136 | only that item changes, and "agree to all" again matches the four items |
| SignupPage.Terms.SetBackup | src/pages/Auth/SignupPage.tsx:158-163 | only the optional item changes, so whether the user can proceed is unchanged |
| SignupPage.Terms.Back | src/pages/Auth/SignupPage.tsx:212 | the form's back link shows the terms step again with every box as it was |
| SignupPage.Terms.Proceed | src/pages/Auth/SignupPage.tsx:33 | the form step opens exactly when the three required items are agreed |
| SignupPage.OutcomeOf | src/pages/Auth/SignupPage.tsx:339-360 | success registers; 409 means a duplicate email, 400 a rejected form, any other failure a server error |
| SignupPage.ValidateAll | src/pages/Auth/SignupPage.tsx:323-333 | the form has no error exactly when all four validators accept |
| SignupPage.SignupForm.constructor | src/pages/Auth/SignupPage.tsx:229-246 | the form starts empty, untouched, with no error shown and nothing in flight |
| SignupPage.SignupForm.Blur | src/pages/Auth/SignupPage.tsx:288-297 | the field left becomes touched and shows its validator's verdict; the others keep theirs; touched fields keep showing their current verdict |
| SignupPage.SignupForm.ChangeEmail | src/pages/Auth/SignupPage.tsx:299-302 | a touched email is revalidated as typed, and touched fields keep showing their current verdict |
| SignupPage.SignupForm.ChangePassword | src/pages/Auth/SignupPage.tsx:303-307 | the password and, when touched, the confirmation are revalidated against the new password |
| SignupPage.SignupForm.ChangeConfirm | src/pages/Auth/SignupPage.tsx:308-311 | a touched confirmation is revalidated as typed |
| SignupPage.SignupForm.ChangeName | src/pages/Auth/SignupPage.tsx:312-315 | a touched name is revalidated as typed |
| SignupPage.SignupForm.BeginSubmit | src/pages/Auth/SignupPage.tsx:318-337 | ignored while in flight; otherwise every field is touched and validated, and the request goes out (raising the guard) exactly when all four pass |
| SignupPage.SignupForm.FinishSubmit | src/pages/Auth/SignupPage.tsx:339-361 | a 409 marks the email as taken, other outcomes leave the errors, and the guard is always released |
| LoginPage.StrictEmailShape | src/pages/Auth/LoginPage.tsx:26 | an accepted login email has no whitespace and exactly one `@`, not at the start |
| LoginPage.StrictEmailIsLoose | src/pages/Auth/LoginPage.tsx:26 | every email the login page accepts, the sign-up page accepts too |
| LoginPage.ValidateEmail | src/pages/Auth/LoginPage.tsx:24-28 | accepted exactly when it matches `^[^\s@]+@[^\s@]+\.[^\s@]{2,}$`; empty is "required", anything else "invalid" |
| LoginPage.ValidatePassword | src/pages/Auth/LoginPage.tsx:30-32 | accepted exactly when non-empty |
| LoginPage.DestinationFor | src/pages/Auth/LoginPage.tsx:130-134 | administrators go to the admin page, everyone else to the dashboard |
| LoginPage.MountRedirect | src/pages/Auth/LoginPage.tsx:47-55 | the page redirects exactly when logged in with a user, to that user's destination |
| LoginPage.OutcomeOf | src/pages/Auth/LoginPage.tsx:119-150 | success logs in with the role's destination; 404 is an unknown email, 401 a wrong password, 400 a bad request, anything else a server error |
| LoginPage.LoginForm.constructor | src/pages/Auth/LoginPage.tsx:38-43 | the form starts empty, untouched and idle |
| LoginPage.LoginForm.Blur | src/pages/Auth/LoginPage.tsx:59-71 | the field left becomes touched and shows its verdict; the other keeps its own; touched fields keep showing their current verdict |
| LoginPage.LoginForm.Change | src/pages/Auth/LoginPage.tsx:73-95 | the field takes the value and, once touched, is revalidated as typed |
| LoginPage.LoginForm.BeginSubmit | src/pages/Auth/LoginPage.tsx:97-116 | ignored while in flight; otherwise both fields are touched and validated, and the request goes out exactly when both pass |
| LoginPage.LoginForm.FinishSubmit | src/pages/Auth/LoginPage.tsx:118-152 | a first 401 first goes through the token refresh (`AfterRefresh`), and the page sees the resent reply only when that yields a token; with no refresh token the session ends cleared and the password is marked wrong; any other failure leaves the session as it was; success stores exactly the returned user and tokens through `setAuth`; 404 marks only the email, 401 only the password; the guard is always released |
| LoginPage.LoginThenMountAgree | src/pages/Auth/LoginPage.tsx:47-55 | after a login the mount redirect sends the user where the login did |
| ProfileEditModal.ValidatePasswordRule | src/components/domain/Settings/ProfileEditModal.tsx:24-33 | an empty new password is accepted; a non-empty one meets the sign-up verdict |
| ProfileEditModal.ValidateConfirm | src/components/domain/Settings/ProfileEditModal.tsx:35-39 | accepted exactly when equal to the new password, so two empty values pass |
| ProfileEditModal.EditBlockedMeaning | src/components/domain/Settings/ProfileEditModal.tsx:136-141 | the save is blocked exactly by an invalid name, or by a typed new password that breaks the rule or differs from its confirmation |
| ProfileEditModal.EmptyPasswordIgnoresConfirm | src/components/domain/Settings/ProfileEditModal.tsx:141 | with a valid name and no new password, any confirmation text is saved |
| ProfileEditModal.ProfileEdit.constructor | src/components/domain/Settings/ProfileEditModal.tsx:44-56 | the modal opens on the verify step with the current name and nothing touched |
| ProfileEditModal.ProfileEdit.VerifySubmit | src/components/domain/Settings/ProfileEditModal.tsx:80-93 | any non-empty password opens the edit step |
| ProfileEditModal.ProfileEdit.Blur | src/components/domain/Settings/ProfileEditModal.tsx:96-108 | the field left becomes touched and shows its verdict; touched fields keep showing their current verdict |
| ProfileEditModal.ProfileEdit.ChangeName | src/components/domain/Settings/ProfileEditModal.tsx:111-115 | a touched name is revalidated as typed |
| ProfileEditModal.ProfileEdit.ChangeNewPassword | src/components/domain/Settings/ProfileEditModal.tsx:117-123 | the new password and, when touched, the confirmation are revalidated |
| ProfileEditModal.ProfileEdit.ChangeConfirm | src/components/domain/Settings/ProfileEditModal.tsx:125-129 | a touched confirmation is revalidated as typed |
| ProfileEditModal.ProfileEdit.EditSubmit | src/components/domain/Settings/ProfileEditModal.tsx:132-158 | blocked exactly as `EditBlockedMeaning` says, showing all three verdicts; otherwise the update carries the edited name and the unchanged email |
| FindPasswordModal.VerifyResult | src/components/domain/Auth/FindPasswordModal.tsx:56-84 | a blank email is reported first, then a blank name |
| FindPasswordModal.MockDbEmailsDistinct | src/components/domain/Auth/FindPasswordModal.tsx:17-20 | no two accounts share an email |
| FindPasswordModal.VerifySucceedsExactly | src/components/domain/Auth/FindPasswordModal.tsx:56-84 | the mail is sent exactly when both fields are non-blank and some account has exactly that email and that name |
| FindPasswordModal.FindPassword.constructor | src/components/domain/Auth/FindPasswordModal.tsx:42-53 | the modal opens on the verify step with empty fields and no errors |
| FindPasswordModal.FindPassword.VerifySubmit | src/components/domain/Auth/FindPasswordModal.tsx:56-84 | the email error is shown exactly for a blank or unknown email, and the step moves to waiting only when the mail is sent |
| FindPasswordModal.FindPassword.WaitComplete | src/components/domain/Auth/FindPasswordModal.tsx:87-92 | the waiting step moves on to reset |
| FindPasswordModal.FindPassword.BackToVerify | src/components/domain/Auth/FindPasswordModal.tsx:199 | the waiting step can go back to verify |
| FindPasswordModal.FindPassword.ChangeEmail | src/components/domain/Auth/FindPasswordModal.tsx:149 | typing an email changes only the email |
| FindPasswordModal.FindPassword.ChangeName | src/components/domain/Auth/FindPasswordModal.tsx:166 | typing a name changes only the name |
| FindPasswordModal.FindPassword.ChangeNewPassword | src/components/domain/Auth/FindPasswordModal.tsx:220-223 | typing a new password stores it and clears only its error |
| FindPasswordModal.FindPassword.ChangeConfirm | src/components/domain/Auth/FindPasswordModal.tsx:240-243 | typing the confirmation stores it and clears only its error |
| FindPasswordModal.FindPassword.ResetSubmit | src/components/domain/Auth/FindPasswordModal.tsx:95-112 | both verdicts are shown, and the modal closes exactly when the password meets the sign-up rule and the confirmation equals it |
| UserManagementPage.InitialUser | src/pages/admin/UserManagementPage.tsx:36-47 | member `i` has id `i + 1`; it is suspended, with a reason, exactly when `i` is a multiple of 5, and withdrawn exactly when it is a multiple of 7 but not of 5 |
| UserManagementPage.InitialUsers | src/pages/admin/UserManagementPage.tsx:35-48 | thirty members, the `i`-th built by `InitialUser(i)` |
| UserManagementPage.InitialIdsDistinct | src/pages/admin/UserManagementPage.tsx:37 | the generated ids are distinct |
| UserManagementPage.FilterUsers | src/pages/admin/UserManagementPage.tsx:66-71 | a member is listed exactly when the name or email contains the search text and the group and status filters match; the listed members keep their order and number exactly those that pass |
| UserManagementPage.EmptySearchListsAll | src/pages/admin/UserManagementPage.tsx:66-71 | an empty search with both filters open lists every member, in order |
| UserManagementPage.TotalPages | src/pages/admin/UserManagementPage.tsx:74 | the fewest pages of fifteen holding all rows, and zero exactly for no rows |
| UserManagementPage.PageRows | src/pages/admin/UserManagementPage.tsx:75-78 | a page holds at most fifteen rows, which are the rows at its positions; every page from 1 to the last is non-empty; page 0 and pages past the last are empty |
| UserManagementPage.PagesUpToPrefix | src/pages/admin/UserManagementPage.tsx:75-78 | pages 1 to `k` read in order are the first `15k` rows |
| UserManagementPage.PagesPartition | src/pages/admin/UserManagementPage.tsx:74-78 | pages 1 to the last, read in order, give back the filtered list exactly, so no row is lost or shown twice |
| UserManagementPage.PrevPage | src/pages/admin/UserManagementPage.tsx:288 | "previous" never goes below 1 and otherwise steps back one |
| UserManagementPage.NextPage | src/pages/admin/UserManagementPage.tsx:298 | "next" never passes the last page and otherwise steps on one; with no rows it lands on 0 |
| UserManagementPage.UpdateUserStatus | src/pages/admin/UserManagementPage.tsx:106-112 | the members with the id take the status and the reason (absent clears it); everyone else is unchanged |
| UserManagementPage.UpdateUserName | src/pages/admin/UserManagementPage.tsx:85-87 | the members with the id take the name; everyone else is unchanged |
| UserManagementPage.InitialStatusChangeTouchesOne | src/pages/admin/UserManagementPage.tsx:106-112 | on the generated list a status change alters exactly the one member with that id |
| UserManagementPage.UserManagement.CurrentRows | src/pages/admin/UserManagementPage.tsx:75-78 | the rows shown are at most fifteen, each a member that passes the filters |
| UserManagementPage.UserManagement.constructor | src/pages/admin/UserManagementPage.tsx:35-63 | the page opens on page 1 of the generated members with every filter open and no dialog |
| UserManagementPage.UserManagement.SetSearch | src/pages/admin/UserManagementPage.tsx:139 | only the term changes; the page is not reset, so a page past the new last page shows nothing |
| UserManagementPage.UserManagement.SetGroupFilter | src/pages/admin/UserManagementPage.tsx:148 | only the group filter changes, with the same page behaviour |
| UserManagementPage.UserManagement.SetStatusFilter | src/pages/admin/UserManagementPage.tsx:159 | only the status filter changes, with the same page behaviour |
| UserManagementPage.UserManagement.SetSuspendReason | src/pages/admin/UserManagementPage.tsx:328 | the typed reason is kept as typed |
| UserManagementPage.UserManagement.ToggleExpand | src/pages/admin/UserManagementPage.tsx:81-83 | the row opens, or closes when it was the open one |
| UserManagementPage.UserManagement.ChangeName | src/pages/admin/UserManagementPage.tsx:85-87 | the list becomes `UpdateUserName` of the old |
| UserManagementPage.UserManagement.RequestStatusChange | src/pages/admin/UserManagementPage.tsx:94-104 | "suspended" only opens the dialog for that member with an empty reason; any other status applies at once and drops the reason |
| UserManagementPage.UserManagement.ConfirmSuspend | src/pages/admin/UserManagementPage.tsx:114-124 | nothing happens without a target (or with the falsy id 0); a blank reason is refused with the dialog open; otherwise the member is suspended with the reason as typed and the dialog closes |
| UserManagementPage.UserManagement.CancelSuspend | src/pages/admin/UserManagementPage.tsx:334 | the dialog closes |
| UserManagementPage.UserManagement.Prev | src/pages/admin/UserManagementPage.tsx:288-289 | disabled on page 1; otherwise one page back, never below 1 |
| UserManagementPage.UserManagement.Next | src/pages/admin/UserManagementPage.tsx:298-299 | disabled on the last page; otherwise one page on, never past the last |
| FeedbackManagementPage.FilterFeedbacks | src/pages/admin/FeedbackManagementPage.tsx:26-31 | an entry is listed exactly when its type and status match the filters and, with "mail requested" on, it asked for mail; the listed entries keep their order and number exactly those that pass |
| FeedbackManagementPage.OpenFiltersShowAll | src/pages/admin/FeedbackManagementPage.tsx:26-31 | with every filter open the whole inbox is listed in order |
| FeedbackManagementPage.PrefilledReply | src/pages/admin/FeedbackManagementPage.tsx:40-41 | an id absent from the inbox pre-fills nothing |
| FeedbackManagementPage.PrefilledReplyExactly | src/pages/admin/FeedbackManagementPage.tsx:34-43 | with distinct ids, opening a row pre-fills its stored reply, or nothing |
| FeedbackManagementPage.MailNotice | src/pages/admin/FeedbackManagementPage.tsx:59-63 | the notice names a non-empty address only of an entry with the id that asked for mail |
| FeedbackManagementPage.MailNoticeExactly | src/pages/admin/FeedbackManagementPage.tsx:59-63 | with distinct ids, the notice names the entry's address exactly when it asked for mail and has one |
| FeedbackManagementPage.FeedbackManagement.constructor | src/pages/admin/FeedbackManagementPage.tsx:16-23 | the page opens over the inbox with every filter open, no row open and an empty editor |
| FeedbackManagementPage.FeedbackManagement.Unprocessed | src/pages/admin/FeedbackManagementPage.tsx:77 | the unprocessed figure is at most the inbox size and zero exactly when everything is done |
| FeedbackManagementPage.FeedbackManagement.ToggleExpand | src/pages/admin/FeedbackManagementPage.tsx:34-43 | closing the open row clears the editor; opening another fills it with that entry's reply |
| FeedbackManagementPage.FeedbackManagement.ChangeStatus | src/pages/admin/FeedbackManagementPage.tsx:45-48 | only the entries with that id take the new status; the rest of the inbox is unchanged |
| FeedbackManagementPage.FeedbackManagement.SendReply | src/pages/admin/FeedbackManagementPage.tsx:51-67 | a blank reply is refused with nothing changed; otherwise the reply is stored and the entry marked done, the notice names the mail address when one was asked for, and the row closes with the editor cleared |
| FeedbackManagementPage.FeedbackManagement.SetTypeFilter | src/pages/admin/FeedbackManagementPage.tsx:91 | the type filter is set and the unprocessed figure is unaffected |
| FeedbackManagementPage.FeedbackManagement.SetStatusFilter | src/pages/admin/FeedbackManagementPage.tsx:103 | the status filter is set and the unprocessed figure is unaffected |
| FeedbackManagementPage.FeedbackManagement.SetMailOnly | src/pages/admin/FeedbackManagementPage.tsx:116 | the mail-only box is set and the unprocessed figure is unaffected |
| FeedbackManagementPage.FeedbackManagement.SetReplyText | src/pages/admin/FeedbackManagementPage.tsx:189 | the editor holds the typed text |
| AdminDashboard.PendingFeedbacks | src/pages/admin/AdminDashboard.tsx:15-17 | the first five new entries, in inbox order: all new, a prefix of the new ones, and as many as there are up to five |
| AdminDashboard.PendingCount | src/pages/admin/AdminDashboard.tsx:44 | the card's figure never exceeds five |
| AdminDashboard.AlertIffSomeNew | src/pages/admin/AdminDashboard.tsx:47 | the card is highlighted exactly when some entry is new |
| AdminDashboard.ReplyNeverRaisesPending | src/pages/admin/AdminDashboard.tsx:15-17 | answering a feedback never raises the pending figure |
| HistoryForm.InitialForm | src/components/domain/MedicalHistory/HistoryForm.tsx:12-22 | each field the caller gives wins; every other field is the blank form's, whose texts are empty and whose date is the UTC date when the module was loaded |
| HistoryForm.EmptyDataIsBlank | src/components/domain/MedicalHistory/HistoryForm.tsx:22 | spreading an empty partial form over the blank one gives the blank one |
| HistoryForm.SetField | src/components/domain/MedicalHistory/HistoryForm.tsx:29-32 | the named field takes the new text and every other field is untouched |
| HistoryForm.SetFieldSame | src/components/domain/MedicalHistory/HistoryForm.tsx:29-32 | writing a field's own value back leaves the form as it was |
| HistoryForm.Form.constructor | src/components/domain/MedicalHistory/HistoryForm.tsx:22-23 | the form starts from the initial data over the load-time blank form and is not submitting |
| HistoryForm.Form.Reinitialise | src/components/domain/MedicalHistory/HistoryForm.tsx:25-27 | new initial data resets the whole form from the same blank form, whose date does not move |
| HistoryForm.Form.HandleChange | src/components/domain/MedicalHistory/HistoryForm.tsx:29-32 | only the edited field changes |
| HistoryForm.Form.BeginSubmit | src/components/domain/MedicalHistory/HistoryForm.tsx:34-43 | a missing title, hospital or date refuses the save; otherwise a save already running blocks a second; otherwise the current form is handed over and the form is submitting |
| HistoryForm.Form.FinishSubmit | src/components/domain/MedicalHistory/HistoryForm.tsx:44-46 | whatever the save's outcome, the form is no longer submitting |
| HistoryForm.NoSecondSaveWhileSubmitting | src/components/domain/MedicalHistory/HistoryForm.tsx:40-42 | two presses of "save" in a row hand over the form only once |
| MedicalHistoryPage.MapVisitToRecord | src/pages/MedicalHistory/MedicalHistoryPage.tsx:272-282 | the id is the visit number's decimal text, the title falls back from diagnosis to hospital, the other texts are copied and no prescriptions are attached |
| MedicalHistoryPage.ToVisitPayload | src/pages/MedicalHistory/MedicalHistoryPage.tsx:285-296 | the six form texts are sent unchanged and department, code and memo are sent empty |
| MedicalHistoryPage.PayloadOfMappedVisit | src/pages/MedicalHistory/MedicalHistoryPage.tsx:272-296 | sending back a record read from the server returns its hospital, date, doctor, symptoms and opinion, and its title as shown |
| MedicalHistoryPage.MappedIdReadsBack | src/pages/MedicalHistory/MedicalHistoryPage.tsx:73 | `Number` of a record's id gives back the visit number it came from |
| MedicalHistoryPage.MappedIdsDistinct | src/pages/MedicalHistory/MedicalHistoryPage.tsx:274 | two different visits never share a record id |
| MedicalHistoryPage.Search | src/pages/MedicalHistory/MedicalHistoryPage.tsx:47-57 | a blank query shows every record in order; otherwise exactly the records whose hospital, title, symptoms or prescription names contain the lower-cased trimmed query, in list order and as many as match |
| MedicalHistoryPage.SearchFindsHospital | src/pages/MedicalHistory/MedicalHistoryPage.tsx:52 | typing a record's hospital name finds that record |
| MedicalHistoryPage.WithoutId | src/pages/MedicalHistory/MedicalHistoryPage.tsx:90 | exactly the records with another id remain, in their order, every copy kept |
| MedicalHistoryPage.ReplaceById | src/pages/MedicalHistory/MedicalHistoryPage.tsx:77 | the list keeps its length and every record with the saved id is replaced, the rest untouched |
| MedicalHistoryPage.DeleteAfterReplace | src/pages/MedicalHistory/MedicalHistoryPage.tsx:77-90 | deleting a record after editing it leaves the same list as deleting it unedited |
| MedicalHistoryPage.ReplaceThenDrop | src/pages/MedicalHistory/MedicalHistoryPage.tsx:77-90 | the order-preserving form of the previous row, as list equality |
| MedicalHistoryPage.AppendMed | src/pages/MedicalHistory/MedicalHistoryPage.tsx:151-153 | the open record's entries gain the prescription name at the end; every other record is untouched (the add dialog never calls this callback) |
| MedicalHistoryPage.StateForMethod | src/pages/MedicalHistory/MedicalHistoryPage.tsx:223-227 | direct entry opens an empty form, voice the voice flow and scan the OCR flow, one screen each |
| MedicalHistoryPage.MedicalHistory.constructor | src/pages/MedicalHistory/MedicalHistoryPage.tsx:28-32 | the page opens on the empty list view with no record selected, an empty query and the prescription dialog closed |
| MedicalHistoryPage.MedicalHistory.Load | src/pages/MedicalHistory/MedicalHistoryPage.tsx:34-45 | on success the mapped visits replace the list in order; a failure keeps it |
| MedicalHistoryPage.MedicalHistory.Save | src/pages/MedicalHistory/MedicalHistoryPage.tsx:59-70 | the form goes out as a visit payload; on success the saved record is put first and the list view returns; a failure changes nothing |
| MedicalHistoryPage.MedicalHistory.Update | src/pages/MedicalHistory/MedicalHistoryPage.tsx:72-85 | the visit number is `Number` of the id; on success the server's record replaces its id's entries and becomes the one shown; a failure changes nothing |
| MedicalHistoryPage.MedicalHistory.Delete | src/pages/MedicalHistory/MedicalHistoryPage.tsx:87-95 | the id is removed only after the server agrees; a failure keeps the list |
| MedicalHistoryPage.MedicalHistory.SetQuery | src/pages/MedicalHistory/MedicalHistoryPage.tsx:117 | the query is stored, and a blank one shows every record |
| MedicalHistoryPage.MedicalHistory.OpenMethodDialog | src/pages/MedicalHistory/MedicalHistoryPage.tsx:123 | the "add" button shows the method dialog |
| MedicalHistoryPage.MedicalHistory.Select | src/pages/MedicalHistory/MedicalHistoryPage.tsx:130 | the clicked card becomes the record shown |
| MedicalHistoryPage.MedicalHistory.CloseDetail | src/pages/MedicalHistory/MedicalHistoryPage.tsx:138 | closing the detail deselects |
| MedicalHistoryPage.MedicalHistory.SetMedModal | src/pages/MedicalHistory/MedicalHistoryPage.tsx:141-147 | the prescription dialog opens from the detail and closes on its own button |
| MedicalHistoryPage.MedicalHistory.AddMedToSelected | src/pages/MedicalHistory/MedicalHistoryPage.tsx:150-160 | with a record open, it and its list entries gain the prescription name; with none open nothing changes (the add dialog never calls this callback) |
| MedicalHistoryPage.MedicalHistory.ChooseMethod | src/pages/MedicalHistory/MedicalHistoryPage.tsx:223-227 | the screen follows the chosen entry method |
| MedicalHistoryPage.MedicalHistory.FlowComplete | src/pages/MedicalHistory/MedicalHistoryPage.tsx:98-100 | the voice or OCR result opens the form prefilled with it |
| MedicalHistoryPage.MedicalHistory.Cancel | src/pages/MedicalHistory/MedicalHistoryPage.tsx:102-104 | the form's cancel returns to the list view |
| SchedulePage.MapScheduleResponse | src/pages/Schedule/SchedulePage.tsx:266-276 | the fields are copied and an empty location or memo becomes absent, both ways |
| SchedulePage.MappedTextsReadBack | src/pages/Schedule/SchedulePage.tsx:266-276 | no location or memo text is lost, and none is ever present-but-empty |
| SchedulePage.TextLeTotal | src/pages/Schedule/SchedulePage.tsx:50 | any two times are ordered one way or the other |
| SchedulePage.TextLeTransitive | src/pages/Schedule/SchedulePage.tsx:50 | the time order is transitive |
| SchedulePage.InsertByTime | src/pages/Schedule/SchedulePage.tsx:50 | one step of the stable sort: the item is added and nothing else is gained or lost |
| SchedulePage.InsertKeepsSorted | src/pages/Schedule/SchedulePage.tsx:50 | inserting into a list in time order keeps it in time order |
| SchedulePage.SortByTime | src/pages/Schedule/SchedulePage.tsx:50 | the result is in time order and a permutation of the input |
| SchedulePage.InsertStable | src/pages/Schedule/SchedulePage.tsx:50 | inserting an item puts it before every item of its own time already in the list, whose order is kept |
| SchedulePage.AtTimeInIsFilter | src/pages/Schedule/SchedulePage.tsx:50 | the items at one time, taken in list order, are the list filtered by that time |
| SchedulePage.SortStable | src/pages/Schedule/SchedulePage.tsx:50 | the sort is stable: the appointments at any one time keep their list order |
| SchedulePage.SortKeepsMembers | src/pages/Schedule/SchedulePage.tsx:50 | sorting neither adds nor drops an appointment |
| SchedulePage.SortedPairwise | src/pages/Schedule/SchedulePage.tsx:50 | in the sorted list every earlier item's time is at most every later one's |
| SchedulePage.DaySchedules | src/pages/Schedule/SchedulePage.tsx:46-52 | exactly the appointments dated that day, each as often as stored, in time order |
| SchedulePage.DayScheduleCount | src/pages/Schedule/SchedulePage.tsx:46-52 | the day's list is as long as the number of appointments on that day |
| SchedulePage.ReplaceSchedule | src/pages/Schedule/SchedulePage.tsx:188 | the list keeps its length and each item with the updated id is replaced |
| SchedulePage.Calendar.constructor | src/pages/Schedule/SchedulePage.tsx:24-29 | the calendar opens on today with both dialogs closed and no item being edited |
| SchedulePage.Calendar.SelectDate | src/pages/Schedule/SchedulePage.tsx:103 | picking a day makes it the selection |
| SchedulePage.Calendar.Load | src/pages/Schedule/SchedulePage.tsx:30-40 | on success the mapped responses replace the store's list in order; a failure keeps it |
| SchedulePage.Calendar.OpenAdd | src/pages/Schedule/SchedulePage.tsx:122-125 | the add dialog opens with nothing being edited |
| SchedulePage.Calendar.CloseAdd | src/pages/Schedule/SchedulePage.tsx:150 | the add dialog closes |
| SchedulePage.Calendar.SaveFromDialog | src/pages/Schedule/SchedulePage.tsx:152-174 | with nothing being edited a save creates: on success the new item is appended and the dialog closes; a failure keeps list and dialog |
| SchedulePage.Calendar.OpenDetail | src/pages/Schedule/SchedulePage.tsx:135 | a row's click shows its detail |
| SchedulePage.Calendar.CloseDetail | src/pages/Schedule/SchedulePage.tsx:182 | the detail closes |
| SchedulePage.Calendar.UpdateFromDetail | src/pages/Schedule/SchedulePage.tsx:183-197 | on success the server's item replaces its id's entries and is the one shown; a failure changes nothing and is reported to the dialog |
| SchedulePage.Calendar.DeleteFromDetail | src/pages/Schedule/SchedulePage.tsx:198-210 | the id leaves the store only after the server agrees; a failure keeps it and is passed on |
| DashboardPage.Todays | src/pages/Dashboard/DashboardPage.tsx:26-32 | exactly today's appointments, each copy kept, in time order |
| DashboardPage.ScheduleCard | src/pages/Dashboard/DashboardPage.tsx:103-119 | at most the first three are shown, the "more" figure appears exactly when there are over three, and shown plus more is all of them |
| DashboardPage.TodaysMeds | src/pages/Dashboard/DashboardPage.tsx:40-51 | exactly the medications with both dates whose period includes today, ends included, in list order and as many as qualify |
| DashboardPage.NotADate | src/pages/Dashboard/DashboardPage.tsx:40-51 | a month past December or a day numbered zero is not a date; the last day of the year is |
| DashboardPage.OneDayCourse | src/pages/Dashboard/DashboardPage.tsx:40-51 | a course starting and ending on one day is listed exactly on that day |
| DashboardPage.TextLeAntisymmetric | src/pages/Dashboard/DashboardPage.tsx:50 | two dates each at most the other are the same date |
| DashboardPage.Flip | src/pages/Dashboard/DashboardPage.tsx:57-58 | the id's flag becomes the negation of its reading (missing reads unchecked); every other flag is unchanged |
| DashboardPage.FlipMovesOne | src/pages/Dashboard/DashboardPage.tsx:57-61 | a check moves exactly that id into or out of the checked set, so the checked count moves by one |
| DashboardPage.FlipTwice | src/pages/Dashboard/DashboardPage.tsx:57-58 | checking twice restores the checked set |
| DashboardPage.NextSlide | src/pages/Dashboard/DashboardPage.tsx:65-70 | the next slide is a valid slide and differs from the current one |
| DashboardPage.Dashboard.constructor | src/pages/Dashboard/DashboardPage.tsx:21-55 | the page opens on the first slide with nothing checked |
| DashboardPage.Dashboard.Progress | src/pages/Dashboard/DashboardPage.tsx:60-61 | the checked figure is the number of set flags and the total is the number of medications taken today |
| DashboardPage.Dashboard.MedCheck | src/pages/Dashboard/DashboardPage.tsx:57-58 | only that id's flag flips, and the checked count moves by one |
| DashboardPage.Dashboard.Tick | src/pages/Dashboard/DashboardPage.tsx:65-70 | each tick moves to the other slide and stays in range |
| DashboardPage.Dashboard.ShowSlide | src/pages/Dashboard/DashboardPage.tsx:129-135 | a dot shows its slide |
| ChatbotPage.DisplayName | src/pages/Chatbot/ChatbotPage.tsx:13 | the greeting name is the user's name when there is one and '사용자' otherwise; the user store supplies none, so the program always greets '사용자' |
| ChatbotPage.NewChat | src/pages/Chatbot/ChatbotPage.tsx:37-46 | a new chat has the clock-derived id and the "new chat" title, and holds only the assistant's greeting |
| ChatbotPage.Current | src/pages/Chatbot/ChatbotPage.tsx:35 | the chat found is the first in the list with the current id; one is found whenever some chat has that id |
| ChatbotPage.CurrentFindsAppended | src/pages/Chatbot/ChatbotPage.tsx:35-47 | a new chat with a fresh id becomes the current one |
| ChatbotPage.UpdateChat | src/pages/Chatbot/ChatbotPage.tsx:51-53 | the updater applies to the chats with the id and to no other |
| ChatbotPage.DeleteChat | src/pages/Chatbot/ChatbotPage.tsx:56 | exactly the chats with another id remain, in their order, every copy kept |
| ChatbotPage.CurrentAfterDelete | src/pages/Chatbot/ChatbotPage.tsx:57-60 | deleting another chat keeps the current one; deleting the current one moves to the first remaining chat, or to none |
| ChatbotPage.DeleteKeepsCurrentValid | src/pages/Chatbot/ChatbotPage.tsx:55-61 | after a delete the current id, if any, names a chat that is still in the list |
| ChatbotPage.TitleAfter | src/pages/Chatbot/ChatbotPage.tsx:93 | only a chat still titled "new chat" takes the first message's first twenty characters as title |
| ChatbotPage.TitleSetOnce | src/pages/Chatbot/ChatbotPage.tsx:93 | once a chat has taken a message's title, later messages leave it |
| ChatbotPage.AddUserMessage | src/pages/Chatbot/ChatbotPage.tsx:91-95 | the message is appended last, the title follows the once-only rule, id and date stay |
| ChatbotPage.RemoveAttachment | src/pages/Chatbot/ChatbotPage.tsx:212 | exactly the attachment at that position goes, the others keep their order |
| ChatbotPage.ChatPage.constructor | src/pages/Chatbot/ChatbotPage.tsx:13-16 | the page opens with no chat, none current and the list closed |
| ChatbotPage.ChatPage.EnsureChat | src/pages/Chatbot/ChatbotPage.tsx:20-33 | an empty page gets one greeting chat, which becomes current; a page with chats is left |
| ChatbotPage.ChatPage.StartNewChat | src/pages/Chatbot/ChatbotPage.tsx:37-49 | the new chat is appended and current, and the list closes |
| ChatbotPage.ChatPage.Delete | src/pages/Chatbot/ChatbotPage.tsx:55-61 | the chat goes and the current id follows the rule above |
| ChatbotPage.ChatPage.Select | src/pages/Chatbot/ChatbotPage.tsx:63-66 | the chosen chat becomes current and the list closes |
| ChatbotPage.ChatPage.ToggleChatList | src/pages/Chatbot/ChatbotPage.tsx:17 | the chat list flips between open and closed |
| ChatbotPage.ChatPage.Send | src/pages/Chatbot/ChatbotPage.tsx:88-95 | with no current chat nothing happens; otherwise the user's message is added to the current chat only |
| ChatbotPage.SendAppendsOne | src/pages/Chatbot/ChatbotPage.tsx:88-95 | after a send the current chat's messages are the old ones plus exactly the new message |
| ChatbotPage.ChatInput.constructor | src/pages/Chatbot/ChatbotPage.tsx:160-161 | the input starts empty with no attachments |
| ChatbotPage.ChatInput.Type | src/pages/Chatbot/ChatbotPage.tsx:228 | the typed text is the message |
| ChatbotPage.ChatInput.Attach | src/pages/Chatbot/ChatbotPage.tsx:181-188 | the chosen file is added last |
| ChatbotPage.ChatInput.Remove | src/pages/Chatbot/ChatbotPage.tsx:212 | the attachment at that position is removed |
| ChatbotPage.ChatInput.Submit | src/pages/Chatbot/ChatbotPage.tsx:191-196 | a blank message sends nothing and changes nothing; otherwise the trimmed, non-empty text goes with the attachments and both are cleared |
| MainHeader.MarkAsRead | src/components/common/MainHeader.tsx:54-59 | an item already read changes nothing; otherwise every entry with its id becomes read and the rest are untouched |
| MainHeader.MarkAsReadIdempotent | src/components/common/MainHeader.tsx:54-59 | marking the same notification twice is marking it once |
| MainHeader.MarkAsReadMarks | src/components/common/MainHeader.tsx:41-59 | marking never creates an unread entry, and the item's entries are read afterwards |
| MainHeader.DeleteNotification | src/components/common/MainHeader.tsx:62-64 | exactly the notifications with another id remain, in order |
| MainHeader.DeleteAbsentIsNoOp | src/components/common/MainHeader.tsx:62-64 | deleting an id not in the list changes nothing |
| MainHeader.ReadAll | src/components/common/MainHeader.tsx:67-69 | every entry becomes read, nothing else changes, and the unread dot goes |
| MainHeader.ReadAllKeepsIds | src/components/common/MainHeader.tsx:67-69 | ids and order stay, and a list with nothing unread is left as it is |
| MainHeader.Header.constructor | src/components/common/MainHeader.tsx:17-38 | the header opens with both dropdowns closed and the one unread sample notice, so the dot shows |
| MainHeader.Header.ToggleProfile | src/components/common/MainHeader.tsx:43-46 | the notification dropdown closes and the profile one flips, so at most one is open |
| MainHeader.Header.ToggleNotification | src/components/common/MainHeader.tsx:48-51 | the profile dropdown closes and the notification one flips, so at most one is open |
| MainHeader.Header.CloseNotifications | src/components/common/MainHeader.tsx:119 | the notification dropdown closes |
| MainHeader.Header.MarkRead | src/components/common/MainHeader.tsx:54-59 | the list becomes the marked list |
| MainHeader.Header.DeleteItem | src/components/common/MainHeader.tsx:62-64 | the list becomes the list without that id |
| MainHeader.Header.MarkAllRead | src/components/common/MainHeader.tsx:67-69 | every entry is read, the dot goes and the length stays |

## Left out

- Rendering, toasts, `console` logging and `navigate()`: handlers return an outcome value (an error kind, a destination, a notice) instead.
- Real timers: `setTimeout`/`clearTimeout` in the session store become one timer slot (none, waiting with its delay, or fired); the dashboard's seven-second interval is a `Tick` method.
- Browser storage and JSON: the `medinote_auth` entry is an optional snapshot value, and an entry that is blank or fails to parse is a case of its own; the `persist` middleware of the health store (src/store/useHealthDataStore.ts:184-194) is storage plumbing and is not modelled.
- Concurrency of the token refresh: actions run one after another, so the in-flight flag is modelled but de-duplication across overlapping requests is not.
- The API wrapper modules (health, prescription, drug, visits, schedule, user, auth and token APIs) are not part of this model; each backend call is an `ApiReply` argument, success with a body or failure with an optional status.
- `LoginPage.LoginForm.FinishSubmit` is the one page continuation into which the response interceptor's refresh (src/api/axios.ts:57-66) is composed, because its outcome depends on the session the refresh leaves (logout ends in `clearAuth`, which resets every field whatever a refresh did); the other pages' continuations take the reply the shared client finally yields (`ApiClient.Request`) and say nothing about the session, so the refresh that a 401 on their requests triggers is stated only by `ApiClient.Request`.
- `HistoryForm.InitialForm` (and `HistoryForm.Form`): the blank form's date is `new Date().toISOString()` taken once when the module loads, so the UTC date of that moment (the previous day in Seoul before 09:00, and stale after midnight); the model takes that date as the `loadDate` argument and keeps it fixed for the form.
- Clock and calendar: `Date.now()` is a `now` argument, and `kstYmd()` (Seoul date through `Intl`) is a `today` or date string argument.
- `UserStore.AfterLoadAuth` (and `UserStore.Session.LoadAuthFromStorage`, which applies it): the expiry test and the refresh delay (src/store/useUserStore.ts:158, 168) read the clock twice; the model uses one reading for both, so a restore that straddles a clock tick is not modelled.
- `UserStore.AfterSetAuth` (with `UserStore.Session.SetAuth` and the token refresh): `expires_in` is a JavaScript number; the model takes whole seconds as an unbounded integer, so fractional or very large values are not modelled.
- `DashboardPage.DateLe`: models `new Date(a) <= new Date(b)` only for `YYYY-MM-DD` texts; any other text is treated as an invalid date, so a date in another format that JavaScript would parse is not listed.
- `DashboardPage.DateLe`: a `YYYY-MM-DD` text with a month from 01 to 12 and a day from 01 to 31 counts as a date, so a day past the end of its month (2025-02-30) is compared as text, where JavaScript engines either roll it over into the next month or reject it.
- `DashboardPage.TodaysMeds`: inherits the previous two lines' reading of dates.
- `progressPercent` on the dashboard (src/pages/Dashboard/DashboardPage.tsx:62-63) is floating point and is not modelled.
- `SchedulePage.SortByTime`: `localeCompare` is modelled as code-point order, which agrees with it on `HH:MM` texts but not on arbitrary text.
- `JsString.ToLowerAscii`: `toLowerCase` is modelled for ASCII letters only, so the history search folds no other case.
- `JsString.NumberOf`: `Number(s)` is modelled for decimal integer text only (surrounding whitespace, an optional minus sign, digits); fractions, exponents and hexadecimal read as no number.
- `ChatbotPage.TitleAfter`: `slice(0, 20)` is modelled per character, not per UTF-16 unit, so a title with characters outside the basic plane may differ.
- `ChatbotPage.NewChat`: the greeting's missing `attachments` is modelled as an empty list, and its greeting text and time format are not modelled; the chat id and the greeting id come from two clock readings (src/pages/Chatbot/ChatbotPage.tsx:38, 41), which the model takes as one `now`, so the two ids always share their number.
- `ChatbotPage.DisplayName` and `ChatbotPage.ChatPage`: the page selects `userName` from the user store, which defines no such field, so in the program the greeting always uses '사용자'; the model keeps the name as a parameter, and passing "" gives the program's behaviour.
- `MedicalHistoryPage.MedicalHistory.AddMedToSelected` and `MedicalHistoryPage.AppendMed`: the history page hands the add dialog an `onAdded` callback (src/pages/MedicalHistory/MedicalHistoryPage.tsx:150-160), but the dialog's props (src/components/domain/HealthInfo/AddMedModal.tsx:32-36) have no such field and it never calls it, so in the program a record's medications never change this way; the model states what the callback would do.
- `MedDetailModal.SaveRequestFor` and `MedDetailModal.DeleteRequestFor`: the request carries the medication id as its text, where the program sends `Number(med.id)`; `JsString.NumberOf` states which number that text denotes.
- The chatbot's canned bot reply and speech-to-text (src/pages/Chatbot/ChatbotPage.tsx:97-107, 164-178), the voice and OCR flows of the history page and the AddMedModal scan (src/components/domain/HealthInfo/AddMedModal.tsx:125-141) are fixed mock results behind timers and are not modelled; the history page receives their result through `FlowComplete`.
- The recording flag of the chat input and the object URL of an attached file are not modelled; an attachment is a plain value.
- ProfileEditModal's avatar upload (`FileReader`) and its reads of `userName`, `userEmail` and `updateProfile`, which the session store does not define: the model stops at the validated update it would hand over.
- Route guards (ProtectedRoute, AdminRoute) and purely presentational components (layouts, navigation bars, tabs and dialogs with no logic of their own) are not part of this model.
- `SchedulePage.Calendar.SaveFromDialog`: the update branch for a non-null `editItem` is unreachable, because every assignment sets it to null; the model keeps `editItem` as an always-null invariant and models only the create branch.
