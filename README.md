# MediTrack reminders, notifications and record pages, in Dafny

This project models the medication-reminder core of the MediTrack web
application (ashusahni/HealthCare) and proves properties of that model.

- **Browser notification scheduler** (`Notifications`, `notification_service.dfy`):
  - the cached permission;
  - the map from tag to shown notification;
  - the map from reminder id to timer handle;
  - the timers themselves, as a map of pending events with integer due times.

  A pure `ServiceState` and one `...Spec` transition function per operation
  say what each operation does. The class `NotificationService` performs the
  same steps on its fields, and every method ensures its new state is the one
  its `...Spec` function gives. The bookkeeping invariant `Inv` is proved
  preserved by every transition.
- **Reminder provider** (`ReminderContext`, `reminder_context.dfy`):
  - the reconciliation loop, which cancels every timer and then schedules each
    active browser reminder;
  - the list updates (append, replace by id, delete by id);
  - the provider's handlers, as the class `ReminderProvider`.
- **Reminder service** (`ReminderService`, `reminder_service.dfy`):
  - enriching rows with the medication's name and dosage;
  - the read guards;
  - the default settings row;
  - the settings merge;
  - the verified and missed writes, over an in-memory store (class `ReminderStore`).
- **WhatsApp sender** (`WhatsApp`, `whatsapp_service.dfy`): the recipient
  formatting, the request URL, the two message bodies, and the rule that a
  send reports failure as `false`.
- **Guardian-contact form** (`GuardianSettings`, `guardian_settings.dfy`):
  - the phone pattern `/^\+?[1-9]\d{1,14}$/`, proved equal to "2 to 15 digits
    after an optional `+`, the first not zero" (at most 15 digits, the
    length limit of an E.164 number);
  - the save and test handlers, as the class `GuardianForm`.
- **Reminders page** (`RemindersPage`, `reminders_page.dfy`):
  - add-reminder validation and payload;
  - the tab filter and the "upcoming" card;
  - the status button;
  - the day and browser checkboxes.
- **Add-medication form** (`AddMedicationPage`, `add_medication_page.dfy`):
  the schema and the "ongoing" checkbox.
- **Medical records page** (`RecordsPage`, `records_page.dfy`): search,
  category and tab filters, then a newest-first insertion sort, proved to be
  sorted and a permutation of what the filters keep.
- **Medications page** (`MedicationsPage`, `medications_page.dfy`): the name
  search and the dialog's add-or-save dispatch.

Shared pieces:

- `types.dfy` (`Types`): the records of the backend tables and `Option`/`Result`.
- `text.dfy` (`Text`): ASCII lower-casing, substring search, and decimal digits with `parseInt`.
- `seqs.dfy` (`Seqs`): `filter`, the subsequence order, prefix, and occurrence count.

Modelling conventions:

- **Time and weekday.** Time of day is milliseconds since local midnight, and
  today's weekday name is an input.
- **Backend calls** are inputs of the operation that makes them, as a
  `Result` or an optional fault message. The HTTP reply of the WhatsApp
  service is an input too.
- **JavaScript truthiness** is written out. An empty tag, reminder id, phone,
  API key, end date or note counts as absent, and a verification timeout of 0
  counts as unset.

## Model

| member | source | states |
|---|---|---|
| Notifications.RequestPermissionSpec | src/lib/services/notification-service.ts:32-55 | false and no change when unsupported; true at once when already granted; false without prompting when denied; after a prompt the cached permission is the answer; a failed prompt changes nothing; the result is true exactly when notifications can now be shown |
| Notifications.NotificationService.RequestPermission | src/lib/services/notification-service.ts:32-55 | the new state and the result are those of `RequestPermissionSpec`; the invariant is kept |
| Notifications.NotificationService.constructor | src/lib/services/notification-service.ts:10-23 | support and permission are read from the browser, both maps and the timers are empty, and the invariant holds |
| Notifications.MissedTag | src/lib/services/notification-service.ts:170 | the tag of the missed-dose notification is never empty |
| Notifications.ToInt32 | src/lib/services/notification-service.ts:176 | the 32-bit signed value a delay becomes is in range and congruent to the input modulo 2^32 |
| Notifications.TimerDelay | src/lib/services/notification-service.ts:237-244 | the delay a timer waits is in [0, 2^31); an in-range delay is kept and a negative one in range becomes 0 |
| Notifications.TargetTime | src/lib/services/notification-service.ts:211-215 | the target instant is within today; a time of day is kept; an invalid date becomes midnight |
| Notifications.ClosePrior | src/lib/services/notification-service.ts:134-141 | only the shown-notification bookkeeping changes |
| Notifications.ShowNotice | src/lib/services/notification-service.ts:143-156 | creating and storing the notification starts no timer and changes no schedule |
| Notifications.FollowUp | src/lib/services/notification-service.ts:158-180 | the follow-up timer of a shown notification never shows a reminder; an auto-close timer names the new notification and its tag (or "") |
| Notifications.ShowSpec | src/lib/services/notification-service.ts:123-196 | nothing changes unless supported and granted; the schedule map and escalations are untouched; when the `Notification` constructor throws, only the prior notification under the tag is closed and forgotten, and no timer starts; otherwise auto-close only without verification, a deadline only with verification, a reminder id and a non-zero timeout; no reminder timer starts or stops |
| Notifications.ShowPreservesInv | src/lib/services/notification-service.ts:123-196 | showing keeps the bookkeeping invariant |
| Notifications.ShowReplacesTagged | src/lib/services/notification-service.ts:135-156 | a tagged show closes the notification shown under that tag; the tag then maps to the new, open notification, or to nothing if construction failed; other tags keep theirs |
| Notifications.AutoCloseLifecycle | src/lib/services/notification-service.ts:116-121 | without verification a timer due 6000 ms later closes the notification and forgets its tag |
| Notifications.VerificationDeadline | src/lib/services/notification-service.ts:143-195 | with verification, a reminder id and a timeout, a constructed notification stays open and a deadline of timeout×60×1000 ms is pending; when it fires the reminder is escalated and, if that succeeded and the missed notice is constructed, a `<tag>-missed` notification is shown; a failed construction sets no deadline and escalates nothing |
| Notifications.ShowKeepsReminderTimers | src/lib/services/notification-service.ts:123-196 | showing a notification leaves every reminder's pending timers as they were |
| Notifications.AtMostOneTimerPerReminder | src/lib/services/notification-service.ts:231-249 | under the invariant a reminder has at most one pending timer, the one its map entry records |
| Notifications.DropReminder | src/lib/services/notification-service.ts:231-235 | clearing a reminder's prior timer touches only the timers and the schedule map |
| Notifications.ScheduleSpec | src/lib/services/notification-service.ts:198-256 | -1 and no change exactly when unsupported, not granted, past, or not today; otherwise a fresh handle with a timer due no earlier than now, recorded under the reminder id; only that reminder's prior timer is cancelled |
| Notifications.SchedulePreservesInv | src/lib/services/notification-service.ts:198-256 | scheduling keeps the bookkeeping invariant |
| Notifications.ScheduleReplacesPrior | src/lib/services/notification-service.ts:231-249 | a successful schedule with a reminder id cancels that reminder's prior timer and leaves exactly the new one pending |
| Notifications.ScheduleTwiceLeavesOne | src/lib/services/notification-service.ts:231-249 | scheduling the same reminder twice leaves exactly one pending timer for it, the second handle |
| Notifications.ScheduleKeepsLive | src/lib/services/notification-service.ts:231-249 | every handle in the schedule map stays pending after a schedule |
| Notifications.ScheduleKeepsOtherTimers | src/lib/services/notification-service.ts:231-235 | scheduling never cancels an auto-close timer or a verification deadline |
| Notifications.CancelSpec | src/lib/services/notification-service.ts:258-262 | cancelling removes exactly that timer and changes nothing else |
| Notifications.DropTimerPreservesInv | src/lib/services/notification-service.ts:258-262 | cancelling a timer keeps the invariant |
| Notifications.CancelAllSpec | src/lib/services/notification-service.ts:264-269 | every recorded handle is cancelled and the map is left empty; other timers are untouched |
| Notifications.CancelAllLeavesOnlyUntracked | src/lib/services/notification-service.ts:264-269 | afterwards no reminder timer is pending while every auto-close timer and deadline survives; the invariant holds |
| Notifications.FireSpec | src/lib/services/notification-service.ts:238-244 | a reminder timer, when notifications can be shown and the notification is constructed, stores it with the reminder's title, body, tag and verification flag, opens it and maps its tag to it; a failed construction stores nothing and starts no timer; either way its reminder id leaves the schedule map; when notifications cannot be shown, nothing shown changes; an auto-close timer closes its notification and forgets its tag; only a deadline adds an escalation, and a successful one shows the missed-dose notification when notifications can be shown and it is constructed |
| Notifications.FirePreservesInv | src/lib/services/notification-service.ts:238-244 | any timer firing keeps the invariant |
| Notifications.FiredReminderShows | src/lib/services/notification-service.ts:238-244 | under the invariant, when notifications can be shown, a firing reminder timer shows the reminder's notification, open and under its tag, if it is constructed, and otherwise adds no notice and starts no timer; either way the reminder is left with neither an entry nor a pending timer |
| Notifications.ScheduledReminderShowsAtTarget | src/lib/services/notification-service.ts:198-249 | an accepted schedule starts a timer due at the reminder's time today which, when it fires, shows the reminder's notification if it is constructed, and forgets the reminder's entry in any case |
| Notifications.FiredReminderIsForgotten | src/lib/services/notification-service.ts:240-243 | once a reminder's timer fires, its entry leaves the schedule map and no timer for it is pending |
| Notifications.ClickSpec | src/lib/services/notification-service.ts:183-191 | a click on an open notification closes a notification that needs no verification and forgets its tag; one that needs verification stays |
| Notifications.ClickPreservesInv | src/lib/services/notification-service.ts:183-191 | a click keeps the invariant |
| Notifications.NotificationService.CloseNotification | src/lib/services/notification-service.ts:116-121 | starts one auto-close timer due 6000 ms later for the notification and its tag; the invariant is kept |
| Notifications.NotificationService.CloseTagged | src/lib/services/notification-service.ts:134-141 | the state becomes `ClosePrior` of the old state; the invariant is kept |
| Notifications.NotificationService.Display | src/lib/services/notification-service.ts:143-156 | the state becomes `ShowNotice` of the old state; the new notification carries the tag; the invariant is kept |
| Notifications.NotificationService.ShowNotification | src/lib/services/notification-service.ts:123-196 | the state becomes `ShowSpec` of the old state, given whether the constructor succeeded; the invariant is kept |
| Notifications.NotificationService.ClearPrior | src/lib/services/notification-service.ts:231-235 | the state becomes `DropReminder` of the old state; the invariant is kept |
| Notifications.NotificationService.ScheduleNotification | src/lib/services/notification-service.ts:198-256 | the state and the returned handle are those of `ScheduleSpec`; the invariant is kept |
| Notifications.NotificationService.CancelScheduledNotification | src/lib/services/notification-service.ts:258-262 | the state becomes `CancelSpec` of the old state; the invariant is kept |
| Notifications.NotificationService.CancelAllScheduledNotifications | src/lib/services/notification-service.ts:264-269 | the state becomes `CancelAllSpec` of the old state; the invariant is kept |
| Notifications.NotificationService.FireTimer | src/lib/services/notification-service.ts:238-244 | the state becomes `FireSpec` of the old state; the invariant is kept |
| Notifications.NotificationService.RunReminderTimer | src/lib/services/notification-service.ts:238-244 | the state becomes `FireSpec` of the old state for a reminder timer, given whether the notification was constructed; the invariant is kept |
| Notifications.NotificationService.RunAutoCloseTimer | src/lib/services/notification-service.ts:116-121 | the state becomes `FireSpec` of the old state for an auto-close timer; the invariant is kept |
| Notifications.NotificationService.RunDeadlineTimer | src/lib/services/notification-service.ts:159-176 | the state becomes `FireSpec` of the old state for a verification deadline, given whether marking the dose missed succeeded and whether the missed notice was constructed; the invariant is kept |
| Notifications.NotificationService.Click | src/lib/services/notification-service.ts:183-191 | the state becomes `ClickSpec` of the old state; the invariant is kept |
| ReminderContext.TitleFor | src/contexts/reminder-context.tsx:87 | the title is "Time to take " followed by the medication name |
| ReminderContext.BodyFor | src/contexts/reminder-context.tsx:89 | the body names the dosage and then the medication |
| ReminderContext.ReminderTime | src/contexts/reminder-context.tsx:82-84 | a time without a colon gives an invalid date |
| ReminderContext.ReminderTimeOfDigits | src/contexts/reminder-context.tsx:82-84 | `HH:MM` with one or two digits in each field is read as HH hours and MM minutes after midnight, seconds and milliseconds zero |
| ReminderContext.ClockTimeOfDay | src/contexts/reminder-context.tsx:83-84 | a reminder at hour h and minute m is due at exactly that time today |
| ReminderContext.OptionsFor | src/contexts/reminder-context.tsx:86-97 | reminder id and tag are the reminder's id, days and time are its own; verification only when the settings ask for it; the timeout falls back to 20 when there are no settings or the stored value is 0 |
| ReminderContext.ScheduleAll | src/contexts/reminder-context.tsx:80-100 | scheduling the list one reminder at a time changes nothing shown |
| ReminderContext.ReconcileSchedulesEligible | src/contexts/reminder-context.tsx:75-101 | after reconciliation the schedule map holds exactly the eligible reminders (active, browser channel, non-empty id) that the scheduler accepts, each with a live timer; every reminder timer was built from an eligible reminder of the list; auto-close timers and deadlines survive; the invariant holds |
| ReminderContext.SingleReconcileCancelsOthers | src/contexts/reminder-context.tsx:124-127 | reconciling the one-element list of an added or updated reminder leaves every other reminder without an entry or a pending timer |
| ReminderContext.ReplaceById | src/contexts/reminder-context.tsx:137-139 | the list keeps its length |
| ReminderContext.ReplaceByIdSpec | src/contexts/reminder-context.tsx:137-139 | exactly the elements with the id are replaced, in place; without a match the list is unchanged |
| ReminderContext.RemoveById | src/contexts/reminder-context.tsx:152 | what remains comes from the list and has another id |
| ReminderContext.RemoveByIdSpec | src/contexts/reminder-context.tsx:152 | an element remains exactly when it has another id, and the remainder is in list order |
| ReminderContext.DeletingLastKeepsTimers | src/contexts/reminder-context.tsx:104-108 | deleting the only reminder empties the list, and the list-change effect then leaves the scheduler as it was, with the deleted reminder's timer still pending |
| ReminderContext.DeletedReminderIsUnscheduled | src/contexts/reminder-context.tsx:75-101 | reconciling any list from which a reminder was deleted leaves that reminder neither an entry nor a pending timer |
| ReminderContext.EffectReconcilesWholeList | src/contexts/reminder-context.tsx:104-108 | whatever was scheduled in between, the list-change effect on a non-empty list leaves entries for exactly the accepted eligible reminders of that list, and the invariant holds |
| ReminderContext.AddThenEffectReconcilesAll | src/contexts/reminder-context.tsx:104-132 | after an add reconciles the one-element list, the effect on the appended list restores entries for exactly its accepted eligible reminders |
| ReminderContext.UpdateThenEffectReconcilesAll | src/contexts/reminder-context.tsx:104-147 | after an update reconciles the one-element list, the effect on the updated list restores entries for exactly its accepted eligible reminders; on an empty list the one-element state stays |
| ReminderContext.AddPayload | src/contexts/reminder-context.tsx:120-123 | the stored reminder is the draft with the signed-in user's id |
| ReminderContext.ReminderProvider.constructor | src/contexts/reminder-context.tsx:37-43 | empty list, no settings, loading, no error, no verification dialog |
| ReminderContext.ReminderProvider.ScheduleNotifications | src/contexts/reminder-context.tsx:75-101 | the loop leaves the scheduler in the state `ReconcileSpec` gives; the scheduler's invariant is kept |
| ReminderContext.ReminderProvider.RemindersChanged | src/contexts/reminder-context.tsx:104-108 | reconciles the current list only when it is non-empty; the scheduler's invariant is kept |
| ReminderContext.ReminderProvider.Unmount | src/contexts/reminder-context.tsx:111-115 | cancels every recorded timer; the scheduler's invariant is kept |
| ReminderContext.ReminderProvider.LoadReminders | src/contexts/reminder-context.tsx:52-64 | success stores the list and reconciles it; failure sets "Failed to load reminders" and schedules nothing; loading is false afterwards either way; the scheduler's invariant is kept |
| ReminderContext.ReminderProvider.LoadSettings | src/contexts/reminder-context.tsx:66-73 | success stores the settings; failure changes nothing |
| ReminderContext.ReminderProvider.AddReminder | src/contexts/reminder-context.tsx:117-132 | without a user, or on a backend error, sets "Failed to add reminder" and rethrows with the list and timers unchanged; on success appends the stored reminder and, if it has the browser channel, reconciles the one-element list; the scheduler's invariant is kept |
| ReminderContext.ReminderProvider.UpdateReminder | src/contexts/reminder-context.tsx:134-147 | an error sets "Failed to update reminder" and rethrows; success replaces by id and reschedules at once only when the update itself says active and includes browser; the scheduler's invariant is kept |
| ReminderContext.ReminderProvider.DeleteReminder | src/contexts/reminder-context.tsx:149-157 | an error sets "Failed to delete reminder" and rethrows; success removes every element with the id |
| ReminderContext.ReminderProvider.UpdateSettings | src/contexts/reminder-context.tsx:159-167 | an error sets "Failed to update settings" and rethrows; success stores the returned settings |
| ReminderContext.ReminderProvider.RequestNotificationPermission | src/contexts/reminder-context.tsx:169-171 | delegates to the scheduler's `requestPermission`; the scheduler's invariant is kept |
| ReminderContext.ReminderProvider.HandleVerifyMedication | src/contexts/reminder-context.tsx:173-182 | a failed verification is rethrown and changes nothing; a successful one reloads the list and closes the dialog, the scheduler ending as a reconciliation of the reloaded list, or unchanged when the reload fails; user and settings stay; the scheduler's invariant is kept |
| ReminderService.LookupMedication | src/lib/services/reminder-service.ts:72-76 | the lookup succeeds exactly for a known medication id, with that medication |
| ReminderService.Enrich | src/lib/services/reminder-service.ts:78-91 | name and dosage come from the lookup, or are "Unknown Medication"/"Unknown Dosage" on a lookup error; every other field is the row's |
| ReminderService.EnrichFromIdempotent | src/lib/services/reminder-service.ts:87-91 | enriching an enriched row changes nothing |
| ReminderService.EnrichIgnoresStoredName | src/lib/services/reminder-service.ts:87-91 | the stored name and dosage never influence the result |
| ReminderService.EnrichAll | src/lib/services/reminder-service.ts:69-101 | one enriched row per row, in order |
| ReminderService.EnrichAllKeepsRows | src/lib/services/reminder-service.ts:69-101 | the i-th result is the i-th row with only name and dosage rewritten; empty exactly when there are no rows |
| ReminderService.EnrichAllIdempotent | src/lib/services/reminder-service.ts:69-101 | enriching an enriched list changes nothing |
| ReminderService.GetReminders | src/lib/services/reminder-service.ts:38-108 | "Authentication error" on an auth error, "User not authenticated" without a user, the query's error passed on; otherwise the enriched rows (empty for no rows) |
| ReminderService.GetReminder | src/lib/services/reminder-service.ts:110-151 | the query's error passed on, "Reminder not found" for no row, otherwise the enriched row |
| ReminderService.Written | src/lib/services/reminder-service.ts:161-189 | a store error is passed on, a missing row fails with the given message, a row is returned enriched |
| ReminderService.DefaultSettings | src/lib/services/reminder-service.ts:271-281 | app and email on, voice off, "once", "10min", no guardian, no verification, timeout 15 |
| ReminderService.Merge | src/lib/services/reminder-service.ts:401-407 | every supplied field overrides the stored one, the others are kept, and `updated_at` is the new stamp |
| ReminderService.MergeEmpty | src/lib/services/reminder-service.ts:401-407 | an empty update only refreshes the timestamp |
| ReminderService.MergeThen | src/lib/services/reminder-service.ts:401-407 | two updates in turn equal one update with the combined patch, the later field winning |
| ReminderService.MergeIdempotent | src/lib/services/reminder-service.ts:401-407 | repeating an update changes only the timestamp |
| ReminderService.PhotoPath | src/lib/services/reminder-service.ts:317 | the photo path starts with `<reminderId>-` and ends with `.jpg` |
| ReminderService.PhotoPathInjective | src/lib/services/reminder-service.ts:317 | photos of one reminder taken at different milliseconds get different paths |
| ReminderService.VerifiedRow | src/lib/services/reminder-service.ts:327-333 | status verified, image path and time taken set; nothing else changes |
| ReminderService.MissedRow | src/lib/services/reminder-service.ts:361-367 | status missed and time taken set; nothing else changes |
| ReminderService.MissedAfterVerified | src/lib/services/reminder-service.ts:327-366 | a missed write after a verified one reports the dose missed and keeps the photo |
| ReminderService.ApplyPatch | src/lib/services/reminder-service.ts:198-203 | each supplied field (status, time, days, channels, last taken, verification, photo) overrides the stored one; every other field is the stored one |
| ReminderService.ApplyPatchIdempotent | src/lib/services/reminder-service.ts:198-203 | applying a patch twice is applying it once; the empty patch changes nothing |
| ReminderService.ReminderStore.AddReminder | src/lib/services/reminder-service.ts:153-194 | a store error is passed on with the table unchanged; otherwise the row is stored and returned enriched |
| ReminderService.ReminderStore.UpdateReminder | src/lib/services/reminder-service.ts:196-238 | a store error is passed on; a missing row fails with "Failed to update reminder"; otherwise the patched row is stored and returned enriched |
| ReminderService.ReminderStore.DeleteReminder | src/lib/services/reminder-service.ts:240-255 | a store error is passed on; otherwise the row is gone (deleting a missing row succeeds) |
| ReminderService.ReminderStore.GetReminderSettings | src/lib/services/reminder-service.ts:257-302 | a query error is passed on; a stored row is returned; without one the default row is inserted and returned, or the insert error passed on |
| ReminderService.ReminderStore.VerifyMedicationTaken | src/lib/services/reminder-service.ts:304-344 | "Reminder not found" for a missing reminder; an upload error stores nothing; otherwise the photo is stored under `PhotoPath`, and the row becomes `VerifiedRow` unless the update fails (the photo then stays) |
| ReminderService.ReminderStore.MarkMedicationMissed | src/lib/services/reminder-service.ts:346-392 | fails with no change for a missing row or settings row, or when the update fails; otherwise the row becomes `MissedRow`, a missed-dose alert goes out only when the guardian phone is non-empty, and the result is true whatever the send reported |
| ReminderService.ReminderStore.UpdateReminderSettings | src/lib/services/reminder-service.ts:394-417 | the stored settings become `Merge` of the old row, the patch and the stamp; a store error is passed on |
| WhatsApp.FormatPhone | src/lib/services/whatsapp-service.ts:36 | one leading `+` is stripped, any other number passes unchanged |
| WhatsApp.FormatPhoneSpellings | src/lib/services/whatsapp-service.ts:36 | a number with or without `+` reaches the same recipient; only one `+` is removed |
| WhatsApp.RequestUrl | src/lib/services/whatsapp-service.ts:16 | the URL is the API base, `/`, the phone-number id, then the endpoint |
| WhatsApp.RequestUrlInjective | src/lib/services/whatsapp-service.ts:16 | different endpoints give different URLs |
| WhatsApp.MissedBody | src/lib/services/whatsapp-service.ts:71-75 | the alert holds the patient, the medication and the scheduled time at their places in the template |
| WhatsApp.MissedBodyMentions | src/lib/services/whatsapp-service.ts:64-75 | the default alert mentions the medication, the scheduled time and "The patient" |
| WhatsApp.SendMessage | src/lib/services/whatsapp-service.ts:15-62 | a request is made exactly when an API key is configured, to the messages URL with the formatted recipient and the body; the call yields true exactly when a key is configured and the reply was OK, and never fails otherwise |
| WhatsApp.SendMissed | src/lib/services/whatsapp-service.ts:64-90 | the missed-dose send posts `MissedBody` and reports what the send reported |
| WhatsApp.SendTest | src/lib/services/whatsapp-service.ts:92-96 | the test send posts the fixed test body to the formatted number |
| WhatsApp.NoKeyNoRequest | src/lib/services/whatsapp-service.ts:17-21 | without a key (absent or empty) nothing is posted and the send reports false |
| GuardianSettings.RepeatIff | src/components/reminders/guardian-settings.tsx:22 | `\d{lo,hi}` matches exactly the digit strings of length lo to hi |
| GuardianSettings.PhonePatternIff | src/components/reminders/guardian-settings.tsx:22 | the pattern accepts exactly an optional `+` then 2 to 15 digits whose first is not 0 |
| GuardianSettings.PhonePatternAcceptsExample | src/components/reminders/guardian-settings.tsx:24 | the example number in the error message is accepted |
| GuardianSettings.PhonePatternRefuses | src/components/reminders/guardian-settings.tsx:22-26 | a leading zero, a single digit, sixteen digits and a doubled `+` are refused |
| GuardianSettings.GuardianPatch | src/components/reminders/guardian-settings.tsx:30-33 | the update sets the guardian phone to the input and turns verification on, and nothing else |
| GuardianSettings.GuardianForm.constructor | src/components/reminders/guardian-settings.tsx:14-16 | the field starts from the stored guardian phone or empty; both flags false |
| GuardianSettings.GuardianForm.Edit | src/components/reminders/guardian-settings.tsx:84 | typing replaces the field and nothing else |
| GuardianSettings.GuardianForm.Submit | src/components/reminders/guardian-settings.tsx:18-41 | an invalid number shows the format error and sends no update; a valid one sends `GuardianPatch`, toasts success or failure, and leaves loading false |
| GuardianSettings.GuardianForm.TestMessage | src/components/reminders/guardian-settings.tsx:43-65 | an empty field is refused without a send; otherwise the test message is sent, the toast reports its result, and testing is false afterwards |
| RemindersPage.FindIndex | src/app/reminders/page.tsx:85 | the position of the first medication with the id, or none exactly when no medication has it |
| RemindersPage.FindById | src/app/reminders/page.tsx:85 | a loaded medication with the id, or none exactly when there is none |
| RemindersPage.Payload | src/app/reminders/page.tsx:91-99 | the submitted reminder is active, with the form's medication, time, days and channels and the medication's name and dosage |
| RemindersPage.ValidateAdd | src/app/reminders/page.tsx:79-89 | "Please fill in all required fields" when medication, time or days are missing; "Selected medication not found" for an unknown id; accepted exactly when complete and known |
| RemindersPage.HandleAdd | src/app/reminders/page.tsx:76-113 | the backend is called exactly when validation accepts; success resets the form and closes the dialog; failure keeps the form and shows a toast |
| RemindersPage.SubmittedIsActiveForKnownMedication | src/app/reminders/page.tsx:79-99 | whatever is submitted is an active reminder whose name and dosage belong to a loaded medication with that id |
| RemindersPage.FreshFormUsesBrowser | src/app/reminders/page.tsx:41-47 | a reminder added from the initial channels uses the browser and is eligible for a timer |
| RemindersPage.FilterByTab | src/app/reminders/page.tsx:149-154 | the shown reminders come from the list and match the tab |
| RemindersPage.FilterByTabSpec | src/app/reminders/page.tsx:149-154 | a reminder is shown exactly when it matches the tab, in list order; "all" keeps everything; snoozed reminders appear only under "all" |
| RemindersPage.ActiveOnes | src/app/reminders/page.tsx:293-295 | only active reminders of the list |
| RemindersPage.Upcoming | src/app/reminders/page.tsx:293-295 | at most three reminders, all active and from the list |
| RemindersPage.ActiveAt | src/app/reminders/page.tsx:293-295 | an active reminder comes, among the active ones, right after those before it in the list |
| RemindersPage.UpcomingSpec | src/app/reminders/page.tsx:293-295 | the card is in list order and holds three active reminders or all there are; an active reminder with fewer than three active ones before it is shown, at the position that count gives; an active reminder is missing only when three are already shown |
| RemindersPage.ToggleStatus | src/app/reminders/page.tsx:259 | active becomes inactive and every other status, snoozed included, becomes active |
| RemindersPage.TogglePatch | src/app/reminders/page.tsx:259 | the update carries the toggled status and no channel list |
| RemindersPage.ToggleNeverReschedulesAtOnce | src/app/reminders/page.tsx:259 | the button's update never meets the provider's immediate-reschedule test |
| RemindersPage.Toggle | src/app/reminders/page.tsx:490-502 | checking appends at the end; unchecking removes every occurrence |
| RemindersPage.UncheckKeepsOrder | src/app/reminders/page.tsx:497-501 | unchecking keeps the other items in their order |
| RemindersPage.CheckTwiceDuplicates | src/app/reminders/page.tsx:490-502 | checking twice appends two copies, and one uncheck removes both |
| RemindersPage.BrowserOffIsNeverScheduled | src/app/reminders/page.tsx:515-529 | a reminder submitted with the browser switch off is never given a timer |
| AddMedicationPage.Issues | src/app/medications/add/page.tsx:23-35 | at most seven issues, one per checked field |
| AddMedicationPage.InIssues | src/app/medications/add/page.tsx:23-35 | an issue is reported exactly when one of the seven field checks reports it |
| AddMedicationPage.AddBlock | src/app/medications/add/page.tsx:23-35 | appending the check of a field not yet checked keeps every field reported at most once |
| AddMedicationPage.SevenBlocks | src/app/medications/add/page.tsx:23-35 | seven checks, each about its own field, report no field twice |
| AddMedicationPage.OneIssuePerField | src/app/medications/add/page.tsx:23-35 | no two reported issues concern the same field |
| AddMedicationPage.IssuesEmptyIff | src/app/medications/add/page.tsx:23-35 | the form passes exactly when: name of 2 or more characters; dosage, schedule, time and purpose non-empty; a real start date; end date absent, a real date or "ongoing" |
| AddMedicationPage.IssuesPerField | src/app/medications/add/page.tsx:24-34 | each field's message is reported exactly when that field breaks its rule: name shorter than 2, empty dosage, schedule, time or purpose, missing start date, invalid start date, end date not a real date or "ongoing" |
| AddMedicationPage.InstructionsAreFree | src/app/medications/add/page.tsx:33 | the instructions never raise an issue |
| AddMedicationPage.DefaultsAreRejected | src/app/medications/add/page.tsx:44-51 | the form as first shown cannot be submitted |
| AddMedicationPage.ToggleOngoing | src/app/medications/add/page.tsx:239-246 | checking sets the end date to "ongoing", unchecking clears it, nothing else changes |
| AddMedicationPage.ToggleOngoingClearsEndIssue | src/app/medications/add/page.tsx:239-246 | after the checkbox the end date is accepted, and validity depends on the other fields only |
| RecordsPage.EmptySearchMatches | src/app/records/page.tsx:110 | an empty search matches every record |
| RecordsPage.NoNotesSearch | src/app/records/page.tsx:109-113 | a record without notes matches only through its title or type |
| RecordsPage.SearchIgnoresCase | src/app/records/page.tsx:110-112 | the search ignores the case of the query |
| RecordsPage.TitleMatches | src/app/records/page.tsx:110 | a record's own title always finds it |
| RecordsPage.InsertPermutes | src/app/records/page.tsx:126 | inserting adds the record and loses nothing |
| RecordsPage.InsertSorted | src/app/records/page.tsx:126 | inserting into a newest-first list keeps it newest first |
| RecordsPage.SortNewestFirstSpec | src/app/records/page.tsx:126 | the sort returns a newest-first permutation of its input |
| RecordsPage.ShapeSpec | src/app/records/page.tsx:108-126 | the list shown is newest first, a permutation of what the three filters keep, and holds a record exactly when it passes search, category and tab |
| RecordsPage.RecentTabDates | src/app/records/page.tsx:118-125 | the "recent" tab shows only records dated 2023-03-10 or 2023-03-05 |
| RecordsPage.ShowAllKeepsEverything | src/app/records/page.tsx:108-126 | empty search, category "all" and tab "all" show every record |
| MedicationsPage.FilterMedications | src/app/medications/page.tsx:113-115 | the search never lengthens the list |
| MedicationsPage.FilterMedicationsSpec | src/app/medications/page.tsx:113-115 | a medication is listed exactly when its lower-cased name contains the lower-cased query, in loaded order; an empty query lists all |
| MedicationsPage.LongerQueryNarrows | src/app/medications/page.tsx:113-115 | extending the query never brings back a hidden medication |
| MedicationsPage.OrUndefined | src/app/medications/page.tsx:100-101 | an empty or missing value becomes absent, any other is kept |
| MedicationsPage.AddPayload | src/app/medications/page.tsx:93-101 | the add call copies the fields, drops an empty end date or notes, and sets the user id |
| MedicationsPage.Submit | src/app/medications/page.tsx:75-111 | nothing is called without a medication or a user; otherwise a medication with an id is saved under that id and one without is added with `AddPayload` |
| MedicationsPage.AfterCall | src/app/medications/page.tsx:75-111 | success closes the dialog and reloads the list; failure leaves the dialog as it was |
| Text.Lower | src/app/records/page.tsx:110 | lower-casing keeps the length and maps each character on its own |
| Text.LowerIdempotent | src/app/records/page.tsx:110 | lower-casing twice is lower-casing once |
| Text.IncludesIff | src/app/records/page.tsx:110 | the substring search succeeds exactly when the needle occurs at some offset |
| Text.SignLength | src/contexts/reminder-context.tsx:84 | the optional sign is one leading '-' or '+' |
| Text.ParseDigits | src/contexts/reminder-context.tsx:84 | NaN exactly when the text does not start with a digit; a string of digits is read as its value |
| Text.ParseInt | src/contexts/reminder-context.tsx:84 | a string of decimal digits is read as its value; the result is NaN exactly when no digit follows the optional sign |
| Text.DigitRunStops | src/contexts/reminder-context.tsx:84 | the digit run of digits followed by a non-digit stops at the non-digit |
| Text.ParseDigitsPrefix | src/contexts/reminder-context.tsx:84 | the digits in front of a non-digit or of nothing are read as their value |
| Text.ParseIntPrefix | src/contexts/reminder-context.tsx:84 | digits followed by a non-digit or nothing are read as the digits' value, the rest ignored |
| Text.ParseIntSignedPrefix | src/contexts/reminder-context.tsx:84 | with a leading '-' the value is negated and with '+' it is kept, the rest ignored |
| Text.DecimalRoundTrip | src/lib/services/reminder-service.ts:317 | reading back the decimal form of a number gives that number |
| Text.DecimalInjective | src/lib/services/reminder-service.ts:317 | different numbers have different decimal forms |
| Seqs.FilterMembership | src/app/records/page.tsx:109-125 | an element survives a filter exactly when it is in the list and passes |
| Seqs.FilterIsSubsequence | src/app/records/page.tsx:109-125 | a filter keeps the list's order |
| Seqs.TakeIsSubsequence | src/app/reminders/page.tsx:295 | a prefix keeps the list's order |

## Left out

- `playNotificationSound`: Web Audio with floating-point frequencies and gain ramps; a show is modelled without sound.
- `isNotificationSupported` and `getPermissionStatus`: plain getters of two fields the state exposes.
- `getInstance` singletons: one service object is passed around.
- Notifications.NotificationService.CancelAllScheduledNotifications: the `forEach` over the handles is one map subtraction; the order of the `clearTimeout` calls is not modelled.
- Notifications.TargetTime: daylight-saving transitions are not modelled; a day is 86 400 000 ms.
- The browser's `Notification` object is a record in a map. The closes it receives and `window.focus` are not separate effects.
- Await interleaving: each operation is one atomic step. The provider's handlers read the current `settings`, not the value a React closure captured.
- ReminderContext.ReminderTime: the TimeClip of `setHours` is not modelled. A time value beyond ±8.64e15 ms gives an Invalid Date there, which the scheduler then refuses. The model measures from local midnight and reads such a time as a huge offset instead. Only a stored time with huge hour or minute values reaches this; the form's time input never produces one.
- Text.ParseInt: leading whitespace, which `parseInt` skips, is not modelled.
- ReminderService.Merge: the patch is the eight preference fields; a `user_id` or `created_at` in a `Partial<ReminderSettings>` would also override the stored value in the source (a supplied `updated_at` is overwritten by the fresh stamp either way), but no caller passes them.
- ReminderService.ApplyPatch: the patch is the seven fields the application updates (status, time, days, channels, last taken, verification, photo); the other fields of `Partial<Reminder>` are not patchable in the model.
- MedicationsPage.AfterCall: `handleSave` is the form's `onSubmit` but never calls `preventDefault`, so in a browser the native submission also reloads the page; the Save branch models only the in-page finish (toast, dialog closed, list reloaded).
- ReminderContext.ReminderProvider.AddReminder: the scheduler state it ensures (the one-element list reconciled) lasts only until the list-change effect runs; `AddThenEffectReconcilesAll` and `UpdateThenEffectReconcilesAll` state what holds after it.
- Text.Lower: only ASCII letters are lower-cased; other case mappings are not modelled.
- AddMedicationPage.Issues: string lengths count characters, not UTF-16 code units; dates are reduced to valid or invalid.
- The form's `onSubmit` handler only logs and navigates, so it is not modelled.
- Supabase query semantics are not modelled: filters, ordering by `created_at`, row-level security, what a single-row query with no row reports, and storage. The rows a query returns are inputs or map lookups.
- ReminderService.NoRowMessage: the text of the backend's single-row error is not modelled.
- ReminderService.ReminderStore.UpdateReminderSettings: with no stored settings row, the source upserts the patch alone; the model reports that case as an error.
- ReminderService.ReminderStore.AddReminder: the "Failed to create reminder" branch is unreachable with a map table, because an insert always returns its row.
- ReminderService.ReminderStore.GetReminderSettings: the signed-in user is an input, not an auth call.
- ReminderService.ReminderStore.MarkMedicationMissed: `toLocaleTimeString` and `toISOString` are inputs.
- RemindersPage.Payload: the `|| ['browser']` fallback is omitted because the channel list is never undefined there.
- RemindersPage.HandleAdd: the reload of medications and the empty-list toast of `loadMedications` are left out.
- The permission toasts of `handleNotificationPermission` are left out.
- RecordsPage.SortNewestFirstSpec: stability is not proved. The sort key is YYYYMMDD for `YYYY-MM-DD` dates, and 0 for other dates, where `new Date` would give NaN.
- GuardianSettings.GuardianForm.TestMessage: the button's `disabled` state is not modelled (it reads the stored number, not the field).
- MedicationsPage: deleting and viewing medications, and the list reload itself, are left out: they are backend calls and dialog state.
