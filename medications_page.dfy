/** The medications page: the name search over the loaded medications, and
    the add/edit dialog's submit, which either saves the medication being
    edited or adds it as a new one. */
module MedicationsPage {

  import opened Types
  import opened Text
  import opened Seqs

  /** The search: the lower-cased name contains the lower-cased query. */
  predicate NameMatches(query: string, m: Medication) {
    Includes(Lower(m.name), Lower(query))
  }

  /** `filteredMedications`. */
  function FilterMedications(meds: seq<Medication>, query: string): (r: seq<Medication>)
    ensures |r| <= |meds|
  {
    Filter(meds, m => NameMatches(query, m))
  }

  /** A medication is listed exactly when its name matches, in the loaded
      order; an empty query lists everything. */
  lemma FilterMedicationsSpec(meds: seq<Medication>, query: string)
    ensures forall m :: m in FilterMedications(meds, query) <==> m in meds && NameMatches(query, m)
    ensures IsSubsequence(FilterMedications(meds, query), meds)
    ensures query == "" ==> FilterMedications(meds, query) == meds
  {
    FilterMembership(meds, m => NameMatches(query, m));
    FilterIsSubsequence(meds, m => NameMatches(query, m));
    if query == "" {
      forall m | m in meds ensures NameMatches(query, m) {
        IncludesEmpty(Lower(m.name));
      }
      FilterAll(meds, m => NameMatches(query, m));
    }
  }

  /** Narrowing the query never brings back a medication a shorter prefix
      of it hid: what `q + more` lists, `q` lists too. */
  lemma LongerQueryNarrows(meds: seq<Medication>, q: string, more: string)
    ensures forall m :: m in FilterMedications(meds, q + more) ==> m in FilterMedications(meds, q)
  {
    FilterMembership(meds, m => NameMatches(q + more, m));
    FilterMembership(meds, m => NameMatches(q, m));
    forall m | m in meds && NameMatches(q + more, m)
      ensures NameMatches(q, m)
    {
      NarrowOne(q, more, m);
    }
  }

  /** A name matching `q + more` matches `q`. */
  lemma NarrowOne(q: string, more: string, m: Medication)
    requires NameMatches(q + more, m)
    ensures NameMatches(q, m)
  {
    assert Lower(q + more) == Lower(q) + Lower(more);
    IncludesPrefix(Lower(m.name), Lower(q), Lower(more));
  }

  /** A string containing `a + b` contains `a`. */
  lemma {:induction false} IncludesPrefix(hay: string, a: string, b: string)
    requires Includes(hay, a + b)
    ensures Includes(hay, a)
    decreases |hay|
  {
    if IsPrefix(a + b, hay) {
      assert hay[..|a|] == (a + b)[..|a|] == a;
    } else {
      IncludesPrefix(hay[1..], a, b);
    }
  }

  /** The record sent to the add call: an empty end date or empty notes
      become absent. */
  datatype NewMedication = NewMedication(
    name: string,
    dosage: string,
    frequency: string,
    timeOfDay: string,
    startDate: string,
    endDate: Option<string>,
    notes: Option<string>,
    userId: string)

  /** `x || undefined` on an optional string. */
  function OrUndefined(x: Option<string>): (r: Option<string>)
    ensures r.Some? <==> Present(x)
    ensures r.Some? ==> r == x
  {
    if Present(x) then x else None
  }

  /** The payload of `handleAddMedication`. */
  function AddPayload(m: Medication, userId: string): (r: NewMedication)
    ensures r.name == m.name && r.dosage == m.dosage && r.frequency == m.frequency
    ensures r.timeOfDay == m.timeOfDay && r.startDate == m.startDate && r.userId == userId
    ensures r.endDate == OrUndefined(m.endDate) && r.notes == OrUndefined(m.notes)
  {
    NewMedication(m.name, m.dosage, m.frequency, m.timeOfDay, m.startDate,
                  OrUndefined(m.endDate), OrUndefined(m.notes), userId)
  }

  /** Which backend call the dialog's submit makes, if any. */
  datatype Call =
    | NoCall
    | Save(id: string, m: Medication)   // `updateMedication(id, m)`
    | Add(payload: NewMedication)       // `addMedication(payload)`

  /** The dialog's submit: an existing medication (non-empty id) is saved,
      a new one added; both do nothing without a medication or a user. */
  function Submit(editing: Option<Medication>, user: Option<string>): (c: Call)
    ensures editing.None? || user.None? ==> c == NoCall
    ensures c.Save? <==> editing.Some? && user.Some? && editing.value.id != ""
    ensures c.Add? <==> editing.Some? && user.Some? && editing.value.id == ""
    ensures c.Save? ==> c == Save(editing.value.id, editing.value)
    ensures c.Add? ==> c == Add(AddPayload(editing.value, user.value))
  {
    if editing.None? then NoCall
    else if editing.value.id != "" then
      (if user.None? then NoCall else Save(editing.value.id, editing.value))
    else
      (if user.None? then NoCall else Add(AddPayload(editing.value, user.value)))
  }

  /** The dialog after the call settled: success closes it and reloads
      the list; failure leaves it open. */
  datatype Settled = Settled(dialogOpen: bool, reload: bool, toast: string)

  function AfterCall(c: Call, ok: bool, dialogOpen: bool): (r: Settled)
    ensures c.NoCall? ==> r == Settled(dialogOpen, false, "")
    ensures !c.NoCall? && ok ==> !r.dialogOpen && r.reload
    ensures !c.NoCall? && !ok ==> r.dialogOpen == dialogOpen && !r.reload
  {
    match c
    case NoCall => Settled(dialogOpen, false, "")
    case Save(_, _) =>
      if ok then Settled(false, true, "Medication updated successfully")
      else Settled(dialogOpen, false, "Failed to update medication")
    case Add(_) =>
      if ok then Settled(false, true, "Medication added successfully")
      else Settled(dialogOpen, false, "Failed to add medication")
  }
}
