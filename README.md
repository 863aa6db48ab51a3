# Clinix triage core, modelled in Dafny

Clinix is a point-of-care triage assistant. A clinician fills in a patient
form and a symptom checklist, the app asks an external AI classifier for a
verdict (urgency Red/Yellow/Green, diagnoses, medication suggestions,
recommendation), shows it, and can refer the case to a specialist inbox.
This project models the parts of the app that hold its logic:

- **the vitals validator** (`validateClinicalData`): plausibility ranges
  for temperature, SpO2, heart rate and blood pressure, the emergency
  thresholds, and the rule that a chest-pain complaint makes heart rate
  and systolic pressure mandatory (`validation.dfy`);
- **the history store**: two case-history lists, one for clinic mode and
  one for public self-checks, each under its own key of the browser's
  key-value storage, with save (identifier and timestamp backfill,
  newest first), list, delete, clear and a lookup by identifier that
  searches the clinic list first (`storage.dfy`);
- **the app shell**: the `App` component's state (screen, offline queue
  counter, notification feed, current result, referrals, cached analytics)
  and its event handlers, as a class whose methods are the handlers
  (`app.dfy`), plus the wizard's symptom toggle (`symptoms.dfy`);
- **the data types** of `types.ts` (`types.dfy`), with the wire spelling
  of each string-literal union and a parser that accepts exactly those
  spellings.

`text.dfy` holds the three JavaScript string operations the core uses
(`toLowerCase`, `includes`, decimal printing of a count); `wrappers.dfy`
holds `Option`, the model's stand-in for the `''`/`undefined`/`null`
sentinels: a vital, an age or a weight is either a number or absent.
`scenarios.dfy` drives the model through event sequences (offline
submission, synchronisation, referral, public case lookup) and states
what a caller can conclude from the contracts alone.

The validator is specified by `Validation.Validate`, which records one
message per violated rule (the key order of the JavaScript object is not
modelled); the method
`ValidateClinicalData` fills the dictionary check by check as the source
does and is proved equal to it, and the lemmas state what the result
means in the source's terms (each key present exactly when its own range
or rule is broken, the emergency flag the disjunction of the six
thresholds, independence of the checks). The store is a class over a map
from storage key to stored list; every mutating method states the whole
new map and what happens to both partitions. The app is a class whose
invariant `Valid()` (nothing loading between events, no notification
read, every scheduled synchronisation reports a positive count, the
results screen always has a result) every handler keeps.

## Model

| member | source | states |
|---|---|---|
| `Text.ToLower` | utils/validation.ts:44 | same length, each character lower-cased, no upper-case ASCII letter left |
| `Text.Contains` | utils/validation.ts:44 | true exactly when some window of the text equals the needle |
| `Text.NatToDecimal` | App.tsx:726 | a non-empty string of digits without a leading zero |
| `Text.DecimalRoundTrip` | App.tsx:726 | reading the printed count back gives the count |
| `Types.SymptomListDistinct` | types.ts:72-81 | the checklist has eight pairwise different tags |
| `Types.ParseUrgency` | types.ts:34 | accepts exactly "Red", "Yellow", "Green", and spells back what it read |
| `Types.UrgencyRoundTrip` | types.ts:34 | every urgency level parses back from its spelling |
| `Types.ParseRecommendation` | types.ts:43 | accepts exactly the three recommendation strings |
| `Types.RecommendationRoundTrip` | types.ts:43 | every recommendation parses back from its spelling |
| `Types.ParseNotificationKind` | types.ts:65 | accepts exactly "alert" and "info" |
| `Types.NotificationKindRoundTrip` | types.ts:65 | both kinds parse back from their spelling |
| `Types.ParseView` | types.ts:70 | accepts exactly the five view names |
| `Types.ViewRoundTrip` | types.ts:70 | every view parses back from its name |
| `Validation.ValidateClinicalData` | utils/validation.ts:9-55 | the result is the one `Validate` specifies: messages for the violated rules, valid iff none, emergency from the thresholds |
| `Validation.CheckTemperature` | utils/validation.ts:15-20 | adds the temperature message exactly when a measured temperature is outside [33, 43]; raises the flag exactly when it is above 40 |
| `Validation.CheckSpo2` | utils/validation.ts:22-27 | adds the SpO2 message exactly when a measured SpO2 is outside [50, 100]; raises the flag exactly when it is below 90 |
| `Validation.CheckHeartRate` | utils/validation.ts:29-34 | adds the heart-rate message exactly when a measured rate is outside [20, 250]; raises the flag when it is above 150 or below 40 |
| `Validation.CheckBloodPressure` | utils/validation.ts:36-41 | with both pressures measured, adds the bp message exactly when systolic < diastolic and raises the flag when systolic > 200 or diastolic > 120; otherwise changes nothing |
| `Validation.CheckChestPain` | utils/validation.ts:43-48 | adds the general message exactly when the lower-cased complaint contains "chest pain" and heart rate or systolic is missing |
| `Validation.ErrorsExactlyViolatedRules` | utils/validation.ts:15-48 | a key is in the dictionary exactly when its own rule is violated, with that rule's message |
| `Validation.ValidIffNoErrors` | utils/validation.ts:50-54 | `isValid` holds exactly when the dictionary is empty |
| `Validation.EmergencyExactly` | utils/validation.ts:11-41 | `isEmergency` is the disjunction of temp > 40, SpO2 < 90, HR > 150, HR < 40, systolic > 200, diastolic > 120 (the last two only with both pressures measured) |
| `Validation.ChecksAreIndependent` | utils/validation.ts:15-48 | two patients that agree on one check's own inputs agree on whether that check's key is reported, whatever else differs |
| `Validation.EmergencyReadsOnlyVitals` | utils/validation.ts:14-41 | the emergency flag depends on the vitals alone, not on the complaint or on which errors fired |
| `Validation.AbsentVitalsAreSilent` | utils/validation.ts:15-41 | an unmeasured vital produces neither its error nor its emergency; blood pressure needs both readings |
| `Validation.NothingMeasuredIsValid` | utils/validation.ts:10-54 | no vitals and no chest pain: valid and not an emergency |
| `Validation.TemperatureBoundary` | utils/validation.ts:15-20 | for a plausible temperature alone, emergency iff above 40, so 40 is not an emergency |
| `Validation.FeverScenario` | utils/validation.ts:15-27 | temperature 41 with SpO2 95: no error, yet an emergency |
| `Validation.HypoxiaScenario` | utils/validation.ts:22-27 | SpO2 45: the SpO2 error and the emergency are both reported |
| `Validation.EqualPressuresAccepted` | utils/validation.ts:36-39 | equal systolic and diastolic pressures raise no bp error |
| `Validation.ComplaintReadIgnoringCase` | utils/validation.ts:44-47 | two patients whose complaints agree once lower-cased and whose vitals agree get the same result |
| `Validation.ChestPainIsCaseInsensitive` | utils/validation.ts:44-47 | an instance: the complaint "Chest Pain" with heart rate or systolic missing yields the general error |
| `Validation.ChestPainDoesNotNeedDiastolic` | utils/validation.ts:44-47 | with heart rate and systolic measured there is no general error, diastolic or not |
| `Storage.StorageKeysDistinct` | services/storageService.ts:3-4 | the two modes use different storage keys |
| `Storage.MakeEntry` | services/storageService.ts:16-27 | id is caseId if non-empty, else id if non-empty, else the fresh id; timestamp likewise; type is the mode; the embedded data carries the id as caseId and id and the timestamp, payload unchanged |
| `Storage.BackfillKeepsPresentFields` | services/storageService.ts:17-26 | a result that already carries its identifier and timestamp is stored unchanged |
| `Storage.FindById` | services/storageService.ts:57 | none exactly when no entry has the id; otherwise the first entry with it |
| `Storage.RemoveId` | services/storageService.ts:43 | keeps exactly the entries with another id |
| `Storage.RemoveIdDistributes` | services/storageService.ts:43 | filtering distributes over concatenation, so the survivors keep their order |
| `Storage.RemoveIdKeepsOthers` | services/storageService.ts:43 | a list without the id is left exactly as it was |
| `Storage.LocalHistoryStore.constructor` | services/storageService.ts:34-38 | empty storage lists both partitions as empty |
| `Storage.LocalHistoryStore.GetHistoryEntries` | services/storageService.ts:34-38 | the stored list, or empty when the key was never written or was removed |
| `Storage.LocalHistoryStore.SaveHistoryEntry` | services/storageService.ts:6-32 | writes exactly the mode's key with the new entry in front of the old list; the other partition is untouched; the entry is then found by its id, and is the one found unless the clinic list already held that id |
| `Storage.LocalHistoryStore.DeleteHistoryEntry` | services/storageService.ts:40-45 | the mode's list becomes the old list without the id (key written even if absent); the other partition is untouched |
| `Storage.LocalHistoryStore.ClearHistory` | services/storageService.ts:47-50 | removes the mode's key; that list reads empty, the other is untouched |
| `Storage.LocalHistoryStore.FindEntryById` | services/storageService.ts:52-64 | the first clinic entry with the id if any, else the first public one, else none |
| `SymptomForm.RemoveAll` | App.tsx:275 | keeps exactly the other tags; a list without the tag is unchanged |
| `SymptomForm.Toggle` | App.tsx:274-276 | the tag is present afterwards iff it was absent; other tags keep their membership; an absent tag is appended at the end |
| `SymptomForm.ToggleSymptom` | App.tsx:271-278 | only the selection changes |
| `SymptomForm.RemoveAllKeepsDistinct` | App.tsx:275 | removal keeps a duplicate-free list duplicate-free |
| `SymptomForm.ToggleKeepsDistinct` | App.tsx:271-278 | toggling keeps a duplicate-free list duplicate-free |
| `SymptomForm.ToggleTwice` | App.tsx:271-278 | toggling twice restores a duplicate-free selection as a set and keeps it duplicate-free; the exact list comes back when the tag was absent, and a present tag moves to the end |
| `SymptomForm.RemoveAllAppend` | App.tsx:275 | removal distributes over concatenation |
| `AppState.SyncMessageReportsCount` | App.tsx:726 | the sync message is the decimal count followed by the fixed text, and the count reads back |
| `AppState.CountUnread` | App.tsx:828 | the unread count never exceeds the number of notifications |
| `AppState.AllUnreadCount` | App.tsx:828 | when none is read the badge count is the number of notifications |
| `AppState.PrimaryDiagnosis` | App.tsx:800 | the first diagnosis name when there is one and it is non-empty, otherwise "Unknown"; never empty |
| `AppState.App.constructor` | App.tsx:703-717 | home screen, nothing loading, no result, no referrals, no analytics, offline iff the browser is, empty queue and feed |
| `AppState.App.UnreadCount` | App.tsx:828 | under the invariant, the badge equals the number of notifications |
| `AppState.App.AddNotification` | App.tsx:740-749 | prepends exactly one unread notification with the given title, message and kind; the rest follows unchanged |
| `AppState.App.HandleOffline` | App.tsx:730 | keeps the invariant; only the offline flag changes, to true |
| `AppState.App.HandleOnline` | App.tsx:720-729 | clears the offline flag; with submissions pending, schedules one synchronisation carrying the current count, otherwise changes nothing else |
| `AppState.App.Settle` | App.tsx:724-727 | fires the oldest scheduled synchronisation: queue reset to 0 and one 'info' notification reporting the captured count; no-op when none is scheduled |
| `AppState.App.HandleAnalyze` | App.tsx:763-790 | offline: queue +1, one 'info' notification, home screen, classifier not called, result unchanged; online success: result shown on the results screen, 'alert' notification iff Red; online failure: screen, result and feed unchanged; never left loading |
| `AppState.App.HandleReferral` | App.tsx:793-808 | no-op without a result; otherwise prepends one referral with the result's urgency and primary diagnosis, returns home and clears the result |
| `AppState.App.HandleOpenAnalytics` | App.tsx:752-760 | shows the dashboard; the generator is called, and its data kept, only when no data is cached |
| `AppState.App.StartTriage` | App.tsx:841 | shows the wizard |
| `AppState.App.OpenInbox` | App.tsx:842 | shows the referral inbox |
| `AppState.App.GoHome` | App.tsx:825-826 | shows the home screen and changes nothing else, so the current result is kept |
| `AppState.App.ToggleNotifications` | App.tsx:829 | flips the feed's visibility and marks nothing read |
| `AppState.App.CloseNotifications` | App.tsx:835 | hides the feed |
| `Scenarios.OfflineSubmission` | App.tsx:764-769 | an offline submission ends on the home screen with one queued record, one unread notification and no classifier call |
| `Scenarios.SyncAfterTwoOfflineSubmissions` | App.tsx:719-729 | two offline submissions, online, settle: queue 0 and one 'info' notification reporting 2 |
| `Scenarios.RepeatedOnlineEventsSyncTwice` | App.tsx:719-738 | two online events before the timer fires give two sync notifications: no debounce |
| `Scenarios.SubmissionAfterOnlineIsNotReported` | App.tsx:719-729 | a submission queued after the timer was scheduled is cleared by it but not counted in its message |
| `Scenarios.RedCaseReferred` | App.tsx:776-808 | a Red result raises an unread alert; referring it records the patient, Red and the primary diagnosis, then returns home with no result |
| `Scenarios.PublicCaseLookup` | services/storageService.ts:17-61 | a public result saved without an id is found under the assigned id, as a public entry carrying that id |
| `Scenarios.DeleteIsPerMode` | services/storageService.ts:40-61 | deleting an id from the clinic list leaves the public copy to be found |

## Behaviour of the code worth knowing

- Each online event while submissions are pending schedules its own
  report; nothing debounces them, so repeated online events report
  repeatedly (`Scenarios.RepeatedOnlineEventsSyncTwice`). A timer reports
  the count it captured but resets the whole queue, so a submission
  queued after it was scheduled is cleared without being reported
  (`Scenarios.SubmissionAfterOnlineIsNotReported`).
- Nothing marks a notification read, neither opening the feed nor
  anything else, so the badge counts every notification
  (`AppState.App.UnreadCount`).
- Going home from the results only changes the view; the current result
  stays (`AppState.App.GoHome`). Only a referral clears it.
- The app has exactly five views (`Types.ParseView`); it calls neither
  the history store nor the validator, so the model does not connect
  them either.
- Stored history is parsed without a guard: an unreadable partition
  makes the read throw rather than read as empty (see "Left out").

## Left out

- Text.ToLower: maps only the ASCII letters A-Z; JavaScript's `toLowerCase` also folds other Unicode letters and can change the length (U+0130 becomes two code points), so the "same length" clause does not hold in JavaScript. The chest-pain rule is unaffected: no non-ASCII character lower-cases to a string that can complete "chest pain".
- Validation.ValidateClinicalData: the errors are a map from key to message; the insertion order of the JavaScript object (temperature, spo2, heartRate, bp, general) that `Object.keys` would expose is not modelled.
- JavaScript numbers are modelled as mathematical reals; `NaN` and the infinities are not, and `Number(x)` on a number is the identity.
- JSON serialisation: a stored list reads back as written. `JSON.parse` of a corrupt entry throws in the code; that path is not modelled.
- `crypto.randomUUID()` and `new Date()` are parameters (`freshId`, `now`) of the operations that use them.
- The two-second `setTimeout` is the explicit `Settle` step; scheduled timers fire oldest first, and the effect's re-registration of its listeners is not modelled beyond reading the current queue count.
- `handleAnalyze` and `handleOpenAnalytics` run as one step: the loading window while the classifier or the analytics generator is awaited, and events arriving during it, are not modelled.
- The classifier (`analyzeTriage`) and the analytics generator (`generateAnalytics`, with its fallback data) are inputs: an outcome and a data value.
- Browser dialogs (`alert`), speech input, image upload, the language selector, the online/offline listener registration and all rendering are not modelled.
- The wizard's step navigation and form-field setters are not modelled; only `toggleSymptom` is.
- types.ts does not declare `HistoryEntry`, `AppMode` or `PublicTriageResult`, although services/storageService.ts:1 imports them from it; `types.dfy` declares minimal versions holding only what the store reads and writes.
- Nothing in the code keeps history identifiers unique across the two lists, and the model claims no such uniqueness; `FindEntryById` prefers the clinic list when both hold an id.
- types.ts declares neither `Vitals` nor a `vitals` field on `PatientData`, although utils/validation.ts:1 imports `Vitals` and line 12 reads `patient.vitals`; `types.dfy` gives the vitals exactly the five readings the validator uses (no respiratory rate), each a number or absent.
