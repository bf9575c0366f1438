/** Shared vocabulary of the health-tracking application: the failure-compatible
    wrappers used for the backend's thrown errors, and the records the reminder
    subsystem passes around (reminders, reminder settings, medications). */
module Types {

  datatype Option<+T> = None | Some(value: T)

  /** A step that either yields a value or throws an error with a message. */
  datatype Result<+T> = Ok(value: T) | Err(message: string)

  /** Lifecycle state of a reminder. */
  datatype Status = Active | Inactive | Snoozed

  /** Notification channels a reminder may use. */
  datatype Channel = App | Email | Voice | Browser

  /** Outcome of photo verification of a dose. */
  datatype Verification = Pending | Verified | Missed

  /** One row of the reminders table, with the medication name and dosage
      denormalised into it for display. */
  datatype Reminder = Reminder(
    id: string,
    userId: string,
    medicationId: string,
    medicationName: string,
    dosage: string,
    time: string,              // "HH:MM"
    days: seq<string>,         // weekday names, e.g. "Monday"
    status: Status,
    channels: seq<Channel>,
    createdAt: string,
    updatedAt: string,
    lastTaken: Option<string>,
    verification: Option<Verification>,
    verificationImage: Option<string>,
    guardianPhone: Option<string>)

  /** A partial update of a reminder: every present field overrides the stored one. */
  datatype ReminderPatch = ReminderPatch(
    status: Option<Status>,
    time: Option<string>,
    days: Option<seq<string>>,
    channels: Option<seq<Channel>>,
    lastTaken: Option<string>,
    verification: Option<Verification>,
    verificationImage: Option<string>)

  /** The one reminder-settings row a user owns. */
  datatype Settings = Settings(
    userId: string,
    appNotifications: bool,
    emailNotifications: bool,
    voiceNotifications: bool,
    reminderFrequency: string,
    snoozeTime: string,
    guardianPhone: string,
    requireVerification: bool,
    verificationTimeout: int,  // minutes
    createdAt: string,
    updatedAt: string)

  /** A partial update of the settings row. */
  datatype SettingsPatch = SettingsPatch(
    appNotifications: Option<bool>,
    emailNotifications: Option<bool>,
    voiceNotifications: Option<bool>,
    reminderFrequency: Option<string>,
    snoozeTime: Option<string>,
    guardianPhone: Option<string>,
    requireVerification: Option<bool>,
    verificationTimeout: Option<int>)

  const EmptySettingsPatch := SettingsPatch(None, None, None, None, None, None, None, None)

  /** A row of the medications table. */
  datatype Medication = Medication(
    id: string,
    userId: string,
    name: string,
    dosage: string,
    frequency: string,
    timeOfDay: string,
    startDate: string,
    endDate: Option<string>,
    notes: Option<string>,
    createdAt: string,
    updatedAt: string)

  /** JavaScript truthiness of an optional string: absent and "" are both false. */
  predicate Present(s: Option<string>) {
    s.Some? && s.value != ""
  }
}
