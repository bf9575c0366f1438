/** The add-medication form: the schema its values are checked against
    before submission, and the "Ongoing medication" checkbox that fills in
    or clears the end date. */
module AddMedicationPage {

  import opened Types

  /** A value held by a date field: a real date (milliseconds since the
      epoch) or a date object that does not denote one. */
  datatype DateValue = ValidDate(ms: int) | InvalidDate

  /** What the end-date field may hold: nothing, a date picked in the
      calendar, or a string written into it by the checkbox. */
  datatype EndValue = NoEnd | EndDate(date: DateValue) | EndText(text: string)

  /** The form's values. */
  datatype Values = Values(
    name: string,
    dosage: string,
    schedule: string,
    time: string,
    startDate: Option<DateValue>,
    endDate: EndValue,
    instructions: Option<string>,
    purpose: string)

  /** The form's default values: every text field empty, no dates. */
  const DefaultValues: Values := Values("", "", "", "", None, NoEnd, Some(""), "")

  /** A schema violation: the field and the message shown under it. */
  datatype Issue = Issue(field: string, message: string)

  const NameIssue: Issue := Issue("name", "Name must be at least 2 characters")
  const DosageIssue: Issue := Issue("dosage", "Dosage is required")
  const ScheduleIssue: Issue := Issue("schedule", "Schedule is required")
  const TimeIssue: Issue := Issue("time", "Time is required")
  const StartMissingIssue: Issue := Issue("startDate", "Start date is required")
  const StartInvalidIssue: Issue := Issue("startDate", "Invalid date")
  const EndIssue: Issue := Issue("endDate", "Invalid input")
  const PurposeIssue: Issue := Issue("purpose", "Purpose is required")

  /** The issue, if any, a start date raises. */
  function StartIssues(d: Option<DateValue>): seq<Issue> {
    match d
    case None => [StartMissingIssue]
    case Some(InvalidDate) => [StartInvalidIssue]
    case Some(ValidDate(_)) => []
  }

  /** `z.union([z.date(), z.literal("ongoing")]).optional()`. */
  predicate EndAccepted(e: EndValue) {
    match e
    case NoEnd => true
    case EndDate(d) => d.ValidDate?
    case EndText(t) => t == "ongoing"
  }

  /** Every issue the schema reports, field by field in schema order. */
  function Issues(v: Values): (r: seq<Issue>)
    ensures |r| <= 7
  {
    (if |v.name| < 2 then [NameIssue] else []) +
    (if |v.dosage| < 1 then [DosageIssue] else []) +
    (if |v.schedule| < 1 then [ScheduleIssue] else []) +
    (if |v.time| < 1 then [TimeIssue] else []) +
    StartIssues(v.startDate) +
    (if EndAccepted(v.endDate) then [] else [EndIssue]) +
    (if |v.purpose| < 1 then [PurposeIssue] else [])
  }

  /** The form in words: a name of two or more characters, non-empty
      dosage, schedule, time and purpose, a real start date, and an end date
      that is absent, a real date or "ongoing"; instructions are free. */
  predicate Valid(v: Values) {
    && |v.name| >= 2
    && v.dosage != "" && v.schedule != "" && v.time != "" && v.purpose != ""
    && v.startDate.Some? && v.startDate.value.ValidDate?
    && (v.endDate.NoEnd? || (v.endDate.EndDate? && v.endDate.date.ValidDate?) || v.endDate == EndText("ongoing"))
  }

  /** The form is submitted exactly when the schema reports no issue. */
  lemma IssuesEmptyIff(v: Values)
    ensures Issues(v) == [] <==> Valid(v)
  {
  }

  /** An issue is reported exactly when one of the field checks reports it. */
  lemma InIssues(v: Values, i: Issue)
    ensures i in Issues(v) <==>
              || (i == NameIssue && |v.name| < 2)
              || (i == DosageIssue && v.dosage == "")
              || (i == ScheduleIssue && v.schedule == "")
              || (i == TimeIssue && v.time == "")
              || i in StartIssues(v.startDate)
              || (i == EndIssue && !EndAccepted(v.endDate))
              || (i == PurposeIssue && v.purpose == "")
  {
  }

  /** Each field's message appears exactly when that field breaks its rule. */
  lemma IssuesPerField(v: Values)
    ensures NameIssue in Issues(v) <==> |v.name| < 2
    ensures DosageIssue in Issues(v) <==> v.dosage == ""
    ensures PurposeIssue in Issues(v) <==> v.purpose == ""
    ensures ScheduleIssue in Issues(v) <==> v.schedule == ""
    ensures TimeIssue in Issues(v) <==> v.time == ""
    ensures StartMissingIssue in Issues(v) <==> v.startDate.None?
    ensures StartInvalidIssue in Issues(v) <==> v.startDate == Some(InvalidDate)
    ensures EndIssue in Issues(v) <==> !EndAccepted(v.endDate)
  {
    InIssues(v, NameIssue);
    InIssues(v, DosageIssue);
    InIssues(v, PurposeIssue);
    InIssues(v, ScheduleIssue);
    InIssues(v, TimeIssue);
    InIssues(v, StartMissingIssue);
    InIssues(v, StartInvalidIssue);
    InIssues(v, EndIssue);
  }

  /** No two issues of `r` concern the same field. */
  predicate DistinctFields(r: seq<Issue>) {
    forall i, j :: 0 <= i < j < |r| ==> r[i].field != r[j].field
  }

  predicate FieldsIn(r: seq<Issue>, fields: set<string>) {
    forall i :: 0 <= i < |r| ==> r[i].field in fields
  }

  /** What one field check contributes: no issue or one about field `f`. */
  predicate IsBlock(b: seq<Issue>, f: string) {
    |b| <= 1 && forall i :: 0 <= i < |b| ==> b[i].field == f
  }

  /** Appending the check of a field not yet seen keeps the fields distinct. */
  lemma AddBlock(a: seq<Issue>, b: seq<Issue>, fields: set<string>, f: string)
    requires DistinctFields(a) && FieldsIn(a, fields) && IsBlock(b, f) && f !in fields
    ensures DistinctFields(a + b) && FieldsIn(a + b, fields + {f})
  {
    forall i, j | 0 <= i < j < |a + b| ensures (a + b)[i].field != (a + b)[j].field {
      if j >= |a| {
        assert (a + b)[j] == b[j - |a|];
        if i < |a| {
          assert (a + b)[i] == a[i];
        }
      }
    }
  }

  /** The seven field checks, each about its own field, never report two
      issues for one field. */
  lemma SevenBlocks(b1: seq<Issue>, b2: seq<Issue>, b3: seq<Issue>, b4: seq<Issue>,
                    b5: seq<Issue>, b6: seq<Issue>, b7: seq<Issue>)
    requires IsBlock(b1, "name") && IsBlock(b2, "dosage") && IsBlock(b3, "schedule") && IsBlock(b4, "time")
    requires IsBlock(b5, "startDate") && IsBlock(b6, "endDate") && IsBlock(b7, "purpose")
    ensures DistinctFields(b1 + b2 + b3 + b4 + b5 + b6 + b7)
  {
    var a2 := b1 + b2;
    AddBlock(b1, b2, {"name"}, "dosage");
    var a3 := a2 + b3;
    AddBlock(a2, b3, {"name", "dosage"}, "schedule");
    var a4 := a3 + b4;
    AddBlock(a3, b4, {"name", "dosage", "schedule"}, "time");
    var a5 := a4 + b5;
    AddBlock(a4, b5, {"name", "dosage", "schedule", "time"}, "startDate");
    var a6 := a5 + b6;
    AddBlock(a5, b6, {"name", "dosage", "schedule", "time", "startDate"}, "endDate");
    AddBlock(a6, b7, {"name", "dosage", "schedule", "time", "startDate", "endDate"}, "purpose");
  }

  /** The schema reports at most one issue per field. */
  lemma OneIssuePerField(v: Values)
    ensures DistinctFields(Issues(v))
  {
    SevenBlocks(if |v.name| < 2 then [NameIssue] else [],
                if |v.dosage| < 1 then [DosageIssue] else [],
                if |v.schedule| < 1 then [ScheduleIssue] else [],
                if |v.time| < 1 then [TimeIssue] else [],
                StartIssues(v.startDate),
                if EndAccepted(v.endDate) then [] else [EndIssue],
                if |v.purpose| < 1 then [PurposeIssue] else []);
  }

  /** The instructions field never raises an issue. */
  lemma InstructionsAreFree(v: Values, text: Option<string>)
    ensures Issues(v.(instructions := text)) == Issues(v)
  {
  }

  /** The form as first shown cannot be submitted. */
  lemma DefaultsAreRejected()
    ensures !Valid(DefaultValues)
    ensures NameIssue in Issues(DefaultValues)
  {
    IssuesPerField(DefaultValues);
  }

  /** The page state: the values and the "Ongoing medication" box. */
  datatype Page = Page(values: Values, isOngoing: bool)

  /** Ticking or clearing "Ongoing medication". */
  function ToggleOngoing(p: Page, checked: bool): (r: Page)
    ensures r.isOngoing == checked
    ensures r.values.endDate == (if checked then EndText("ongoing") else NoEnd)
    ensures r.values.(endDate := p.values.endDate) == p.values
  {
    Page(p.values.(endDate := if checked then EndText("ongoing") else NoEnd), checked)
  }

  /** Whatever the end date held, the checkbox leaves one the schema
      accepts, and it affects no other field's issues. */
  lemma ToggleOngoingClearsEndIssue(p: Page, checked: bool)
    ensures EndIssue !in Issues(ToggleOngoing(p, checked).values)
    ensures Valid(ToggleOngoing(p, checked).values) <==> Valid(p.values.(endDate := NoEnd))
  {
    IssuesPerField(ToggleOngoing(p, checked).values);
  }
}
