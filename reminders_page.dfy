/** The reminders page: the add-reminder form (its validation, the record it
    submits and its reset), the tab filter, the "upcoming" card, the
    enable/disable button and the day and browser checkboxes. Every handler
    here builds new values from old ones, so each is a function. */
module RemindersPage {

  import opened Types
  import opened Seqs
  import ReminderContext

  const DaysOfWeek: seq<string> := ["Monday", "Tuesday", "Wednesday", "Thursday", "Friday", "Saturday", "Sunday"]

  const MissingFieldsMessage: string := "Please fill in all required fields"
  const UnknownMedicationMessage: string := "Selected medication not found"
  const AddFailedMessage: string := "Failed to add reminder"

  /** The add-reminder form's fields. */
  datatype Draft = Draft(medicationId: string, time: string, days: seq<string>, status: Status, channels: seq<Channel>)

  /** The form's initial (and reset) values. */
  const InitialDraft: Draft := Draft("", "", [], Active, [Browser])

  /** The page's form state: the draft and whether the add dialog is open. */
  datatype Form = Form(draft: Draft, dialogOpen: bool)

  // ---------------------------------------------------------------------
  // adding a reminder

  /** Position of the first medication with the id. */
  function FindIndex(meds: seq<Medication>, id: string): (r: Option<nat>)
    ensures r.None? <==> forall m :: m in meds ==> m.id != id
    ensures r.Some? ==> r.value < |meds| && meds[r.value].id == id
    ensures r.Some? ==> forall k :: 0 <= k < r.value ==> meds[k].id != id
    decreases |meds|
  {
    if meds == [] then None
    else if meds[0].id == id then Some(0)
    else match FindIndex(meds[1..], id)
      case None => None
      case Some(i) => Some(i + 1)
  }

  /** `medications.find(m => m.id === id)`: the first medication with the id. */
  function FindById(meds: seq<Medication>, id: string): (r: Option<Medication>)
    ensures r.None? <==> forall m :: m in meds ==> m.id != id
    ensures r.Some? ==> r.value in meds && r.value.id == id
  {
    match FindIndex(meds, id)
    case None => None
    case Some(i) => Some(meds[i])
  }

  /** The record `handleAddReminder` hands to `addReminder`; the fields the
      page does not set (id, owner, timestamps, verification) are empty. */
  function Payload(d: Draft, m: Medication): (r: Reminder)
    ensures r.medicationId == d.medicationId && r.medicationName == m.name && r.dosage == m.dosage
    ensures r.time == d.time && r.days == d.days && r.status == Active && r.channels == d.channels
  {
    Reminder("", "", d.medicationId, m.name, m.dosage, d.time, d.days, Active, d.channels,
             "", "", None, None, None, None)
  }

  /** The outcome of validating the form. */
  datatype Validation = Rejected(message: string) | Accepted(payload: Reminder)

  /** The guards of `handleAddReminder`, in the order the code tests them. */
  function ValidateAdd(d: Draft, meds: seq<Medication>): (r: Validation)
    ensures d.medicationId == "" || d.time == "" || |d.days| == 0 ==> r == Rejected(MissingFieldsMessage)
    ensures d.medicationId != "" && d.time != "" && |d.days| > 0 && (forall m :: m in meds ==> m.id != d.medicationId) ==>
              r == Rejected(UnknownMedicationMessage)
    ensures r.Accepted? <==> d.medicationId != "" && d.time != "" && |d.days| > 0 && FindById(meds, d.medicationId).Some?
    ensures r.Accepted? ==> r.payload == Payload(d, FindById(meds, d.medicationId).value)
  {
    if d.medicationId == "" || d.time == "" || |d.days| == 0 then Rejected(MissingFieldsMessage)
    else match FindById(meds, d.medicationId)
      case None => Rejected(UnknownMedicationMessage)
      case Some(m) => Accepted(Payload(d, m))
  }

  /** What one press of "Add Reminder" did: the new form state, the record
      submitted (if `addReminder` was called) and the error toast shown. */
  datatype AddStep = AddStep(form: Form, submitted: Option<Reminder>, toast: Option<string>)

  /** `handleAddReminder`; `outcome` is how `addReminder` settled. */
  function HandleAdd(form: Form, meds: seq<Medication>, outcome: Result<()>): (r: AddStep)
    ensures r.submitted.Some? <==> ValidateAdd(form.draft, meds).Accepted?
    ensures r.submitted.Some? ==> r.submitted.value == ValidateAdd(form.draft, meds).payload
    ensures r.submitted.Some? && outcome.Ok? ==> r.form == Form(InitialDraft, false) && r.toast == None
    ensures r.submitted.None? || outcome.Err? ==> r.form == form && r.toast.Some?
  {
    match ValidateAdd(form.draft, meds)
    case Rejected(msg) => AddStep(form, None, Some(msg))
    case Accepted(p) =>
      if outcome.Ok? then AddStep(Form(InitialDraft, false), Some(p), None)
      else AddStep(form, Some(p), Some(AddFailedMessage))
  }

  /** Only a complete form naming a loaded medication reaches the backend,
      and what it submits is an active reminder for that medication. */
  lemma SubmittedIsActiveForKnownMedication(form: Form, meds: seq<Medication>, outcome: Result<()>)
    requires HandleAdd(form, meds, outcome).submitted.Some?
    ensures var p := HandleAdd(form, meds, outcome).submitted.value;
            && p.status == Active && p.medicationId == form.draft.medicationId
            && exists m :: m in meds && m.id == p.medicationId && m.name == p.medicationName && m.dosage == p.dosage
  {
    var m := FindById(meds, form.draft.medicationId).value;
    assert m in meds;
  }

  /** A reminder added from a fresh form uses the browser channel. */
  lemma FreshFormUsesBrowser(d: Draft, meds: seq<Medication>)
    requires d.channels == InitialDraft.channels
    requires ValidateAdd(d, meds).Accepted?
    ensures ValidateAdd(d, meds).payload.channels == [Browser]
    ensures ReminderContext.Eligible(ValidateAdd(d, meds).payload)
  {
  }

  // ---------------------------------------------------------------------
  // the list views

  /** The tab filter's predicate: only "active" and "inactive" filter. */
  predicate OnTab(tab: string, x: Reminder) {
    if tab == "active" then x.status == Active
    else if tab == "inactive" then x.status == Inactive
    else true
  }

  /** `filteredReminders`. */
  function FilterByTab(rs: seq<Reminder>, tab: string): (r: seq<Reminder>)
    ensures forall x :: x in r ==> x in rs && OnTab(tab, x)
  {
    Filter(rs, x => OnTab(tab, x))
  }

  /** The tabs keep exactly the reminders they name, in list order; a
      snoozed reminder is shown only under "all". */
  lemma FilterByTabSpec(rs: seq<Reminder>, tab: string)
    ensures forall x :: x in FilterByTab(rs, tab) <==> x in rs && OnTab(tab, x)
    ensures IsSubsequence(FilterByTab(rs, tab), rs)
    ensures tab == "all" ==> FilterByTab(rs, tab) == rs
    ensures tab == "active" || tab == "inactive" ==> forall x :: x in FilterByTab(rs, tab) ==> x.status != Snoozed
  {
    FilterMembership(rs, x => OnTab(tab, x));
    FilterIsSubsequence(rs, x => OnTab(tab, x));
    if tab == "all" {
      FilterAll(rs, x => OnTab(tab, x));
    }
  }

  predicate IsActive(x: Reminder) {
    x.status == Active
  }

  /** The active reminders of the list, in list order. */
  function ActiveOnes(rs: seq<Reminder>): (r: seq<Reminder>)
    ensures forall x :: x in r ==> x in rs && x.status == Active
  {
    Filter(rs, IsActive)
  }

  /** The "Upcoming Reminders" card: the first three active reminders. */
  function Upcoming(rs: seq<Reminder>): (r: seq<Reminder>)
    ensures |r| <= 3
    ensures forall x :: x in r ==> x in rs && x.status == Active
  {
    Take(ActiveOnes(rs), 3)
  }

  /** The active reminder at index `j` comes right after the active
      reminders before it. */
  lemma ActiveAt(rs: seq<Reminder>, j: int)
    requires 0 <= j < |rs| && rs[j].status == Active
    ensures |ActiveOnes(rs[..j])| < |ActiveOnes(rs)|
    ensures ActiveOnes(rs)[|ActiveOnes(rs[..j])|] == rs[j]
  {
    assert rs == rs[..j] + ([rs[j]] + rs[j + 1..]);
    FilterAppend(rs[..j], [rs[j]] + rs[j + 1..], IsActive);
    FilterAppend([rs[j]], rs[j + 1..], IsActive);
    assert [rs[j]][1..] == [];
    assert Filter([rs[j]], IsActive) == [rs[j]];
  }

  /** The card lists active reminders in list order; it holds three of them
      or all there are; each active reminder with fewer than three active
      ones before it is shown, at the position that count gives; and an
      active reminder is missing only when three are already shown. */
  lemma UpcomingSpec(rs: seq<Reminder>)
    ensures IsSubsequence(Upcoming(rs), rs)
    ensures |Upcoming(rs)| == if |ActiveOnes(rs)| < 3 then |ActiveOnes(rs)| else 3
    ensures forall j :: 0 <= j < |rs| && rs[j].status == Active && |ActiveOnes(rs[..j])| < 3 ==>
              |ActiveOnes(rs[..j])| < |Upcoming(rs)| && Upcoming(rs)[|ActiveOnes(rs[..j])|] == rs[j]
    ensures forall x :: x in rs && x.status == Active && x !in Upcoming(rs) ==> |Upcoming(rs)| == 3
  {
    var act := ActiveOnes(rs);
    FilterIsSubsequence(rs, IsActive);
    FilterMembership(rs, IsActive);
    TakeIsSubsequence(act, 3);
    SubsequenceTransitive(Upcoming(rs), act, rs);
    forall j | 0 <= j < |rs| && rs[j].status == Active && |ActiveOnes(rs[..j])| < 3
      ensures |ActiveOnes(rs[..j])| < |Upcoming(rs)| && Upcoming(rs)[|ActiveOnes(rs[..j])|] == rs[j]
    {
      ActiveAt(rs, j);
    }
  }

  // ---------------------------------------------------------------------
  // the buttons and checkboxes

  /** The status the enable/disable button asks for. */
  function ToggleStatus(s: Status): (r: Status)
    ensures r != s && r != Snoozed
    ensures r == Inactive <==> s == Active
  {
    if s == Active then Inactive else Active
  }

  /** The partial update the button sends: the status alone. */
  function TogglePatch(x: Reminder): (p: ReminderPatch)
    ensures p.status == Some(ToggleStatus(x.status)) && p.channels == None
  {
    ReminderPatch(Some(ToggleStatus(x.status)), None, None, None, None, None, None)
  }

  /** Enabling a reminder with the button never reschedules it at once: the
      update carries no channel list, so the provider's immediate-schedule
      test fails and only the list-change reconciliation applies. */
  lemma ToggleNeverReschedulesAtOnce(x: Reminder)
    ensures var p := TogglePatch(x);
            !(p.status == Some(Active) && p.channels.Some? && Browser in p.channels.value)
  {
  }

  /** A checkbox over a list: checking appends the item at the end,
      unchecking removes every occurrence of it. */
  function Toggle<T(==,!new)>(xs: seq<T>, x: T, checked: bool): (r: seq<T>)
    ensures checked ==> r == xs + [x]
    ensures !checked ==> forall y :: y in r <==> y in xs && y != x
  {
    if checked then xs + [x]
    else
      FilterMembership(xs, y => y != x);
      Filter(xs, y => y != x)
  }

  /** Unchecking keeps the other items in their order. */
  lemma UncheckKeepsOrder<T(!new)>(xs: seq<T>, x: T)
    ensures IsSubsequence(Toggle(xs, x, false), xs)
  {
    FilterIsSubsequence(xs, y => y != x);
  }

  /** Checking an already-checked item appends it again, and one uncheck
      removes both copies. */
  lemma CheckTwiceDuplicates<T(!new)>(xs: seq<T>, x: T)
    ensures Count(Toggle(Toggle(xs, x, true), x, true), x) == Count(xs, x) + 2
    ensures x !in Toggle(Toggle(Toggle(xs, x, true), x, true), x, false)
  {
    CountSnoc(xs, x, x);
    CountSnoc(xs + [x], x, x);
  }

  /** A day checkbox. */
  function ToggleDay(d: Draft, day: string, checked: bool): Draft {
    d.(days := Toggle(d.days, day, checked))
  }

  /** The browser-notification switch. */
  function ToggleBrowser(d: Draft, checked: bool): Draft {
    d.(channels := Toggle(d.channels, Browser, checked))
  }

  /** Switching browser notifications off and submitting yields a reminder
      the reconciliation never schedules. */
  lemma BrowserOffIsNeverScheduled(d: Draft, meds: seq<Medication>)
    requires ValidateAdd(ToggleBrowser(d, false), meds).Accepted?
    ensures !ReminderContext.Eligible(ValidateAdd(ToggleBrowser(d, false), meds).payload)
  {
  }
}
