/** The reminder service: how rows read from the reminders table are
    completed with the medication's name and dosage, the guards on reading,
    the default settings row, and the writes for a verified or missed dose
    and for a settings update. The backend is an in-memory store: the
    reminders, medications and reminder-settings tables, the bucket of
    verification photos, and the guardian alerts handed to the WhatsApp
    sender. Which rows a filtered or ordered query returns is an input. */
module ReminderService {

  import opened Types
  import opened Text
  import opened WhatsApp

  const UnknownMedication: string := "Unknown Medication"
  const UnknownDosage: string := "Unknown Dosage"
  const AuthErrorMessage: string := "Authentication error"
  const NoUserMessage: string := "User not authenticated"
  const NotFoundMessage: string := "Reminder not found"
  const CreateFailedMessage: string := "Failed to create reminder"
  const UpdateFailedMessage: string := "Failed to update reminder"
  /** Stands for the backend's error when a single-row query matches no row. */
  const NoRowMessage: string := "no row matched"

  // ---------------------------------------------------------------------
  // enrichment

  /** `select('name, dosage').eq('id', id).single()` on the medications table. */
  function LookupMedication(meds: map<string, Medication>, id: string): (r: Result<Medication>)
    ensures r.Ok? <==> id in meds
    ensures r.Ok? ==> r.value == meds[id]
  {
    if id in meds then Ok(meds[id]) else Err(NoRowMessage)
  }

  /** A reminder row completed with its medication's name and dosage, or
      with the "Unknown" placeholders when the lookup failed. Every other
      field is the row's own. */
  function Enrich(row: Reminder, lookup: Result<Medication>): (r: Reminder)
    ensures r.medicationName == (if lookup.Ok? then lookup.value.name else UnknownMedication)
    ensures r.dosage == (if lookup.Ok? then lookup.value.dosage else UnknownDosage)
    ensures r.(medicationName := row.medicationName, dosage := row.dosage) == row
  {
    match lookup
    case Ok(m) => row.(medicationName := m.name, dosage := m.dosage)
    case Err(_) => row.(medicationName := UnknownMedication, dosage := UnknownDosage)
  }

  /** Enrichment of a row against the medications table. */
  function EnrichFrom(row: Reminder, meds: map<string, Medication>): Reminder {
    Enrich(row, LookupMedication(meds, row.medicationId))
  }

  /** Enriching twice is enriching once: the medication id the lookup is
      keyed on is not among the fields enrichment rewrites. */
  lemma EnrichFromIdempotent(row: Reminder, meds: map<string, Medication>)
    ensures EnrichFrom(EnrichFrom(row, meds), meds) == EnrichFrom(row, meds)
  {
    var once := EnrichFrom(row, meds);
    assert once.medicationId == row.medicationId;
  }

  /** The lookup result alone decides the two enriched fields: rows that
      differ only in their stored name and dosage enrich to the same record. */
  lemma EnrichIgnoresStoredName(row: Reminder, name: string, dosage: string, lookup: Result<Medication>)
    ensures Enrich(row.(medicationName := name, dosage := dosage), lookup) == Enrich(row, lookup)
  {
  }

  /** `Promise.all(rows.map(enrich))`: one enriched row per row, in order. */
  function EnrichAll(rows: seq<Reminder>, meds: map<string, Medication>): (r: seq<Reminder>)
    ensures |r| == |rows|
    ensures forall i :: 0 <= i < |rows| ==> r[i] == EnrichFrom(rows[i], meds)
  {
    seq(|rows|, i requires 0 <= i < |rows| => EnrichFrom(rows[i], meds))
  }

  /** Enrichment keeps the order and identity of the rows: the i-th result
      is the i-th row with only the name and dosage rewritten. */
  lemma EnrichAllKeepsRows(rows: seq<Reminder>, meds: map<string, Medication>)
    ensures forall i :: 0 <= i < |rows| ==>
              EnrichAll(rows, meds)[i].(medicationName := rows[i].medicationName, dosage := rows[i].dosage) == rows[i]
    ensures EnrichAll(rows, meds) == [] <==> rows == []
  {
  }

  /** Enriching a list that already went through enrichment changes nothing. */
  lemma EnrichAllIdempotent(rows: seq<Reminder>, meds: map<string, Medication>)
    ensures EnrichAll(EnrichAll(rows, meds), meds) == EnrichAll(rows, meds)
  {
    forall i | 0 <= i < |rows|
      ensures EnrichAll(EnrichAll(rows, meds), meds)[i] == EnrichAll(rows, meds)[i]
    {
      EnrichFromIdempotent(rows[i], meds);
    }
  }

  // ---------------------------------------------------------------------
  // reading

  /** `getReminders`: `auth` is what `auth.getUser()` produced (an error, or
      the signed-in user's id if any) and `fetched` what the user's rows
      query produced. */
  function GetReminders(auth: Result<Option<string>>, fetched: Result<seq<Reminder>>,
                        meds: map<string, Medication>): (r: Result<seq<Reminder>>)
    ensures auth.Err? ==> r == Err(AuthErrorMessage)
    ensures auth == Ok(None) ==> r == Err(NoUserMessage)
    ensures auth.Ok? && auth.value.Some? && fetched.Err? ==> r == Err(fetched.message)
    ensures r.Ok? <==> auth.Ok? && auth.value.Some? && fetched.Ok?
    ensures r.Ok? ==> r.value == EnrichAll(fetched.value, meds)
  {
    if auth.Err? then Err(AuthErrorMessage)
    else if auth.value.None? then Err(NoUserMessage)
    else match fetched
      case Err(m) => Err(m)
      case Ok(rows) => if |rows| == 0 then Ok([]) else Ok(EnrichAll(rows, meds))
  }

  /** `getReminder(id)`, given what the single-row query produced. */
  function GetReminder(fetched: Result<Option<Reminder>>, meds: map<string, Medication>): (r: Result<Reminder>)
    ensures fetched.Err? ==> r == Err(fetched.message)
    ensures fetched == Ok(None) ==> r == Err(NotFoundMessage)
    ensures fetched.Ok? && fetched.value.Some? ==> r == Ok(EnrichFrom(fetched.value.value, meds))
  {
    match fetched
    case Err(m) => Err(m)
    case Ok(None) => Err(NotFoundMessage)
    case Ok(Some(row)) => Ok(EnrichFrom(row, meds))
  }

  /** The tail shared by `addReminder` and `updateReminder`: an error is
      passed on, a missing row fails with `noRow`, a row is enriched. */
  function Written(outcome: Result<Option<Reminder>>, noRow: string, meds: map<string, Medication>): (r: Result<Reminder>)
    ensures outcome.Err? ==> r == Err(outcome.message)
    ensures outcome == Ok(None) ==> r == Err(noRow)
    ensures r.Ok? <==> outcome.Ok? && outcome.value.Some?
    ensures r.Ok? ==> r.value == EnrichFrom(outcome.value.value, meds)
  {
    match outcome
    case Err(m) => Err(m)
    case Ok(None) => Err(noRow)
    case Ok(Some(row)) => Ok(EnrichFrom(row, meds))
  }

  // ---------------------------------------------------------------------
  // settings

  /** The settings row created for a user who has none. */
  function DefaultSettings(userId: string, stamp: string): (r: Settings)
    ensures r.userId == userId && r.createdAt == stamp && r.updatedAt == stamp
    ensures r.appNotifications && r.emailNotifications && !r.voiceNotifications
    ensures r.reminderFrequency == "once" && r.snoozeTime == "10min"
    ensures r.guardianPhone == "" && !r.requireVerification && r.verificationTimeout == 15
  {
    Settings(userId, true, true, false, "once", "10min", "", false, 15, stamp, stamp)
  }

  function Override<T>(o: Option<T>, v: T): T {
    if o.Some? then o.value else v
  }

  /** `{ ...existing, ...patch, updated_at: stamp }`. */
  function Merge(existing: Settings, patch: SettingsPatch, stamp: string): (r: Settings)
    ensures r.userId == existing.userId && r.createdAt == existing.createdAt && r.updatedAt == stamp
    ensures r.appNotifications == Override(patch.appNotifications, existing.appNotifications)
    ensures r.emailNotifications == Override(patch.emailNotifications, existing.emailNotifications)
    ensures r.voiceNotifications == Override(patch.voiceNotifications, existing.voiceNotifications)
    ensures r.reminderFrequency == Override(patch.reminderFrequency, existing.reminderFrequency)
    ensures r.snoozeTime == Override(patch.snoozeTime, existing.snoozeTime)
    ensures r.guardianPhone == Override(patch.guardianPhone, existing.guardianPhone)
    ensures r.requireVerification == Override(patch.requireVerification, existing.requireVerification)
    ensures r.verificationTimeout == Override(patch.verificationTimeout, existing.verificationTimeout)
  {
    existing.(
      appNotifications := Override(patch.appNotifications, existing.appNotifications),
      emailNotifications := Override(patch.emailNotifications, existing.emailNotifications),
      voiceNotifications := Override(patch.voiceNotifications, existing.voiceNotifications),
      reminderFrequency := Override(patch.reminderFrequency, existing.reminderFrequency),
      snoozeTime := Override(patch.snoozeTime, existing.snoozeTime),
      guardianPhone := Override(patch.guardianPhone, existing.guardianPhone),
      requireVerification := Override(patch.requireVerification, existing.requireVerification),
      verificationTimeout := Override(patch.verificationTimeout, existing.verificationTimeout),
      updatedAt := stamp)
  }

  /** Two patches applied in turn, as one: the later one wins field by field. */
  function Then(p: SettingsPatch, q: SettingsPatch): SettingsPatch {
    SettingsPatch(
      if q.appNotifications.Some? then q.appNotifications else p.appNotifications,
      if q.emailNotifications.Some? then q.emailNotifications else p.emailNotifications,
      if q.voiceNotifications.Some? then q.voiceNotifications else p.voiceNotifications,
      if q.reminderFrequency.Some? then q.reminderFrequency else p.reminderFrequency,
      if q.snoozeTime.Some? then q.snoozeTime else p.snoozeTime,
      if q.guardianPhone.Some? then q.guardianPhone else p.guardianPhone,
      if q.requireVerification.Some? then q.requireVerification else p.requireVerification,
      if q.verificationTimeout.Some? then q.verificationTimeout else p.verificationTimeout)
  }

  /** An empty patch only refreshes the timestamp. */
  lemma MergeEmpty(s: Settings, stamp: string)
    ensures Merge(s, EmptySettingsPatch, stamp) == s.(updatedAt := stamp)
  {
  }

  /** Successive updates compose: the stored row after two updates is the
      row after one update with the combined patch. */
  lemma MergeThen(s: Settings, p: SettingsPatch, q: SettingsPatch, t1: string, t2: string)
    ensures Merge(Merge(s, p, t1), q, t2) == Merge(s, Then(p, q), t2)
  {
  }

  /** Repeating an update changes nothing but the timestamp. */
  lemma MergeIdempotent(s: Settings, p: SettingsPatch, t1: string, t2: string)
    ensures Merge(Merge(s, p, t1), p, t2) == Merge(s, p, t2)
  {
    MergeThen(s, p, p, t1, t2);
    assert Then(p, p) == p;
  }

  // ---------------------------------------------------------------------
  // verification

  /** The storage path of a verification photo taken at `millis`. */
  function PhotoPath(reminderId: string, millis: nat): (path: string)
    ensures IsPrefix(reminderId + "-", path)
    ensures |path| >= |reminderId| + 5 && path[|path| - 4..] == ".jpg"
  {
    var p := reminderId + "-" + Decimal(millis) + ".jpg";
    assert p[..|reminderId + "-"|] == reminderId + "-";
    p
  }

  /** Two photos for the same reminder taken at different milliseconds
      never share a path. */
  lemma PhotoPathInjective(reminderId: string, m1: nat, m2: nat)
    requires PhotoPath(reminderId, m1) == PhotoPath(reminderId, m2)
    ensures m1 == m2
  {
    var n := |reminderId| + 1;
    var p1 := PhotoPath(reminderId, m1);
    var p2 := PhotoPath(reminderId, m2);
    assert |Decimal(m1)| == |Decimal(m2)|;
    assert p1[n..|p1| - 4] == Decimal(m1);
    assert p2[n..|p2| - 4] == Decimal(m2);
    DecimalInjective(m1, m2);
  }

  /** A reminder after `verifyMedicationTaken`. */
  function VerifiedRow(row: Reminder, path: string, nowIso: string): (r: Reminder)
    ensures r.verification == Some(Verified) && r.verificationImage == Some(path) && r.lastTaken == Some(nowIso)
    ensures r.(verification := row.verification, verificationImage := row.verificationImage,
               lastTaken := row.lastTaken) == row
  {
    row.(verification := Some(Verified), verificationImage := Some(path), lastTaken := Some(nowIso))
  }

  /** A reminder after `markMedicationMissed`. */
  function MissedRow(row: Reminder, nowIso: string): (r: Reminder)
    ensures r.verification == Some(Missed) && r.lastTaken == Some(nowIso)
    ensures r.(verification := row.verification, lastTaken := row.lastTaken) == row
  {
    row.(verification := Some(Missed), lastTaken := Some(nowIso))
  }

  /** A missed dose recorded after a verified one keeps the photo but
      reports the dose as missed: the two writes do not undo each other. */
  lemma MissedAfterVerified(row: Reminder, path: string, t1: string, t2: string)
    ensures MissedRow(VerifiedRow(row, path, t1), t2).verification == Some(Missed)
    ensures MissedRow(VerifiedRow(row, path, t1), t2).verificationImage == Some(path)
    ensures MissedRow(VerifiedRow(row, path, t1), t2).lastTaken == Some(t2)
  {
  }

  /** `{ ...row, ...patch }` for a partial reminder update. */
  function ApplyPatch(row: Reminder, patch: ReminderPatch): (r: Reminder)
    ensures r.id == row.id && r.userId == row.userId && r.medicationId == row.medicationId
    ensures r.medicationName == row.medicationName && r.dosage == row.dosage
    ensures r.status == Override(patch.status, row.status) && r.time == Override(patch.time, row.time)
    ensures r.days == Override(patch.days, row.days) && r.channels == Override(patch.channels, row.channels)
    ensures r.lastTaken == (if patch.lastTaken.Some? then patch.lastTaken else row.lastTaken)
    ensures r.verification == (if patch.verification.Some? then patch.verification else row.verification)
    ensures r.verificationImage == (if patch.verificationImage.Some? then patch.verificationImage else row.verificationImage)
    // every field the patch does not carry is the stored one
    ensures r == row.(status := r.status, time := r.time, days := r.days, channels := r.channels,
                      lastTaken := r.lastTaken, verification := r.verification,
                      verificationImage := r.verificationImage)
  {
    row.(
      status := Override(patch.status, row.status),
      time := Override(patch.time, row.time),
      days := Override(patch.days, row.days),
      channels := Override(patch.channels, row.channels),
      lastTaken := if patch.lastTaken.Some? then patch.lastTaken else row.lastTaken,
      verification := if patch.verification.Some? then patch.verification else row.verification,
      verificationImage := if patch.verificationImage.Some? then patch.verificationImage else row.verificationImage)
  }

  /** Applying the same patch twice is applying it once, and the empty
      patch changes nothing. */
  lemma ApplyPatchIdempotent(row: Reminder, patch: ReminderPatch)
    ensures ApplyPatch(ApplyPatch(row, patch), patch) == ApplyPatch(row, patch)
    ensures ApplyPatch(row, ReminderPatch(None, None, None, None, None, None, None)) == row
  {
  }

  // ---------------------------------------------------------------------
  // the store

  /** The tables the service reads and writes. `settings` is the signed-in
      user's settings row, the only one the row-level policy lets a
      single-row query see. `outbox` lists the guardian alerts sent. */
  class ReminderStore {
    var reminders: map<string, Reminder>
    var medications: map<string, Medication>
    var settings: Option<Settings>
    var photos: set<string>
    var outbox: seq<Attempt>

    constructor(reminders: map<string, Reminder>, medications: map<string, Medication>, settings: Option<Settings>)
      ensures this.reminders == reminders && this.medications == medications && this.settings == settings
      ensures photos == {} && outbox == []
    {
      this.reminders := reminders;
      this.medications := medications;
      this.settings := settings;
      photos := {};
      outbox := [];
    }

    /** `addReminder(row)`; `row` carries the id the table assigns. */
    method AddReminder(row: Reminder, fault: Option<string>) returns (r: Result<Reminder>)
      modifies this
      ensures fault.Some? ==> r == Err(fault.value) && reminders == old(reminders)
      ensures fault.None? ==> r == Ok(EnrichFrom(row, medications)) && reminders == old(reminders)[row.id := row]
      ensures medications == old(medications) && settings == old(settings)
      ensures photos == old(photos) && outbox == old(outbox)
    {
      if fault.Some? {
        return Written(Err(fault.value), CreateFailedMessage, medications);
      }
      reminders := reminders[row.id := row];
      r := Written(Ok(Some(row)), CreateFailedMessage, medications);
    }

    /** `updateReminder(id, patch)`: a missing row fails with "Failed to
        update reminder". */
    method UpdateReminder(id: string, patch: ReminderPatch, fault: Option<string>) returns (r: Result<Reminder>)
      modifies this
      ensures fault.Some? ==> r == Err(fault.value) && reminders == old(reminders)
      ensures fault.None? && id !in old(reminders) ==> r == Err(UpdateFailedMessage) && reminders == old(reminders)
      ensures fault.None? && id in old(reminders) ==>
                var row := ApplyPatch(old(reminders)[id], patch);
                r == Ok(EnrichFrom(row, medications)) && reminders == old(reminders)[id := row]
      ensures medications == old(medications) && settings == old(settings)
      ensures photos == old(photos) && outbox == old(outbox)
    {
      if fault.Some? {
        return Written(Err(fault.value), UpdateFailedMessage, medications);
      }
      if id !in reminders {
        return Written(Ok(None), UpdateFailedMessage, medications);
      }
      var row := ApplyPatch(reminders[id], patch);
      reminders := reminders[id := row];
      r := Written(Ok(Some(row)), UpdateFailedMessage, medications);
    }

    /** `deleteReminder(id)`: deleting a missing row is not an error. */
    method DeleteReminder(id: string, fault: Option<string>) returns (r: Result<()>)
      modifies this
      ensures fault.Some? ==> r == Err(fault.value) && reminders == old(reminders)
      ensures fault.None? ==> r == Ok(()) && reminders == old(reminders) - {id}
      ensures medications == old(medications) && settings == old(settings)
      ensures photos == old(photos) && outbox == old(outbox)
    {
      if fault.Some? {
        return Err(fault.value);
      }
      reminders := reminders - {id};
      r := Ok(());
    }

    /** `getReminderSettings`: a user without a row gets the default row,
        which is stored. `user` is the signed-in user's id, if any. */
    method GetReminderSettings(user: Option<string>, stamp: string, fetchFault: Option<string>, insertFault: Option<string>)
      returns (r: Result<Settings>)
      modifies this
      ensures fetchFault.Some? ==> r == Err(fetchFault.value) && settings == old(settings)
      ensures fetchFault.None? && old(settings).Some? ==> r == Ok(old(settings).value) && settings == old(settings)
      ensures fetchFault.None? && old(settings).None? && insertFault.Some? ==>
                r == Err(insertFault.value) && settings == old(settings)
      ensures fetchFault.None? && old(settings).None? && insertFault.None? ==>
                var d := DefaultSettings(if user.Some? then user.value else "", stamp);
                r == Ok(d) && settings == Some(d)
      ensures reminders == old(reminders) && medications == old(medications)
      ensures photos == old(photos) && outbox == old(outbox)
    {
      if fetchFault.Some? {
        return Err(fetchFault.value);
      }
      if settings.Some? {
        return Ok(settings.value);
      }
      var d := DefaultSettings(if user.Some? then user.value else "", stamp);
      if insertFault.Some? {
        return Err(insertFault.value);
      }
      settings := Some(d);
      r := Ok(d);
    }

    /** `verifyMedicationTaken(reminderId, photo)` at `millis` (whose ISO
        form is `nowIso`). A failed row update leaves the uploaded photo in
        the bucket. */
    method VerifyMedicationTaken(reminderId: string, millis: nat, nowIso: string,
                                 uploadFault: Option<string>, updateFault: Option<string>)
      returns (r: Result<Reminder>)
      modifies this
      ensures reminderId !in old(reminders) ==>
                r == Err(NotFoundMessage) && reminders == old(reminders) && photos == old(photos)
      ensures reminderId in old(reminders) && uploadFault.Some? ==>
                r == Err(uploadFault.value) && reminders == old(reminders) && photos == old(photos)
      ensures reminderId in old(reminders) && uploadFault.None? ==>
                photos == old(photos) + {PhotoPath(reminderId, millis)}
      ensures reminderId in old(reminders) && uploadFault.None? && updateFault.Some? ==>
                r == Err(updateFault.value) && reminders == old(reminders)
      ensures reminderId in old(reminders) && uploadFault.None? && updateFault.None? ==>
                var row := VerifiedRow(old(reminders)[reminderId], PhotoPath(reminderId, millis), nowIso);
                r == Ok(row) && reminders == old(reminders)[reminderId := row]
      ensures medications == old(medications) && settings == old(settings) && outbox == old(outbox)
    {
      if reminderId !in reminders {
        return Err(NotFoundMessage);
      }
      var path := PhotoPath(reminderId, millis);
      if uploadFault.Some? {
        return Err(uploadFault.value);
      }
      photos := photos + {path};
      if updateFault.Some? {
        return Err(updateFault.value);
      }
      var row := VerifiedRow(reminders[reminderId], path, nowIso);
      reminders := reminders[reminderId := row];
      r := Ok(row);
    }

    /** `markMedicationMissed(reminderId)` at the instant `nowIso`, shown to
        the guardian as `formattedTime`. The guardian is alerted only when
        the settings hold a phone number, and the call succeeds whatever the
        send reported. */
    method MarkMedicationMissed(reminderId: string, nowIso: string, formattedTime: string,
                                apiKey: Option<string>, reply: Reply, updateFault: Option<string>)
      returns (r: Result<bool>)
      modifies this
      ensures reminderId !in old(reminders) || old(settings).None? ==>
                r == Err(NoRowMessage) && reminders == old(reminders) && outbox == old(outbox)
      ensures reminderId in old(reminders) && old(settings).Some? && updateFault.Some? ==>
                r == Err(updateFault.value) && reminders == old(reminders) && outbox == old(outbox)
      ensures reminderId in old(reminders) && old(settings).Some? && updateFault.None? ==>
                var row := old(reminders)[reminderId];
                var phone := old(settings).value.guardianPhone;
                && r == Ok(true)
                && reminders == old(reminders)[reminderId := MissedRow(row, nowIso)]
                && outbox == old(outbox) +
                     (if phone != "" then [SendMissed(phone, row.medicationName, formattedTime, DefaultPatient, apiKey, reply)]
                      else [])
      ensures medications == old(medications) && settings == old(settings) && photos == old(photos)
    {
      if reminderId !in reminders || settings.None? {
        return Err(NoRowMessage);
      }
      var row := reminders[reminderId];
      var phone := settings.value.guardianPhone;
      if updateFault.Some? {
        return Err(updateFault.value);
      }
      reminders := reminders[reminderId := MissedRow(row, nowIso)];
      if phone != "" {
        var sent := SendMissed(phone, row.medicationName, formattedTime, DefaultPatient, apiKey, reply);
        outbox := outbox + [sent];
      }
      r := Ok(true);
    }

    /** `updateReminderSettings(patch)` at `stamp`. */
    method UpdateReminderSettings(patch: SettingsPatch, stamp: string, fault: Option<string>)
      returns (r: Result<Settings>)
      modifies this
      ensures old(settings).None? ==> r == Err(NoRowMessage) && settings == old(settings)
      ensures old(settings).Some? && fault.Some? ==> r == Err(fault.value) && settings == old(settings)
      ensures old(settings).Some? && fault.None? ==>
                var s := Merge(old(settings).value, patch, stamp);
                r == Ok(s) && settings == Some(s)
      ensures reminders == old(reminders) && medications == old(medications)
      ensures photos == old(photos) && outbox == old(outbox)
    {
      if settings.None? {
        return Err(NoRowMessage);
      }
      if fault.Some? {
        return Err(fault.value);
      }
      var s := Merge(settings.value, patch, stamp);
      settings := Some(s);
      r := Ok(s);
    }
  }
}
