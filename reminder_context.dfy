/** The reminder provider of the user interface (src/contexts/reminder-context.tsx):
    the list of the user's reminders, their settings, and the reconciliation
    that turns the list into browser timers. Backend calls are abstracted to
    their outcomes, which the operations take as inputs. */
module ReminderContext {

  import opened Types
  import opened Text
  import opened Seqs
  import opened Notifications

  /** Verification timeout, in minutes, used when the settings give none (or 0). */
  const DefaultTimeoutMinutes: int := 20

  // ---------------------------------------------------------------------
  // what one reminder becomes

  /** A reminder gets a browser timer when it is active and uses the browser channel. */
  predicate Eligible(x: Reminder) {
    x.status == Active && Browser in x.channels
  }

  /** The notification title names the medication after a fixed prefix. */
  function TitleFor(x: Reminder): (r: string)
    ensures IsPrefix("Time to take ", r) && OccursAt(r, x.medicationName, 13) && |r| == 13 + |x.medicationName|
  {
    var r := "Time to take " + x.medicationName;
    assert r[..13] == "Time to take ";
    assert r[13..13 + |x.medicationName|] == x.medicationName;
    r
  }

  /** The notification body names the dosage and then the medication. */
  function BodyFor(x: Reminder): (r: string)
    ensures OccursAt(r, x.dosage, 5) && OccursAt(r, x.medicationName, 9 + |x.dosage|)
  {
    var r := "Take " + x.dosage + " of " + x.medicationName;
    assert r[5..5 + |x.dosage|] == x.dosage;
    assert r[9 + |x.dosage|..9 + |x.dosage| + |x.medicationName|] == x.medicationName;
    r
  }

  /** Today at the reminder's `HH:MM`: the text is split at its colons and
      both parts read with `parseInt`; a missing or unreadable part makes
      the date invalid. */
  function ReminderTime(time: string): (r: ClockTime)
    ensures ':' !in time ==> r == InvalidDate
  {
    match IndexOf(time, ':')
    case None => InvalidDate
    case Some(c) =>
      match (ParseInt(time[..c]), ParseInt(time[c + 1..]))
      case (Some(h), Some(m)) => At(h * 3600000 + m * 60000)
      case _ => InvalidDate
  }

  /** The first colon of `hh:mm` with digits `hh` is the one after `hh`. */
  lemma SplitAtColon(hh: string, mm: string)
    requires AllDigits(hh)
    ensures var t := hh + ":" + mm;
            IndexOf(t, ':') == Some(|hh|) && t[..|hh|] == hh && t[|hh| + 1..] == mm
  {
    var t := hh + ":" + mm;
    assert t[|hh|] == ':';
    IndexOfFirst(t, ':', |hh|);
    assert forall i :: 0 <= i < |hh| ==> t[i] == hh[i] && IsDigit(t[i]);
    assert t[..|hh|] == hh;
    assert t[|hh| + 1..] == mm;
  }

  lemma ReadClock(t: string, k: nat, hh: string, mm: string)
    requires hh != [] && mm != [] && AllDigits(hh) && AllDigits(mm)
    requires IndexOf(t, ':') == Some(k) && t[..k] == hh && t[k + 1..] == mm
    ensures ReminderTime(t) == At(DigitsValue(hh) * 3600000 + DigitsValue(mm) * 60000)
  {
  }

  /** A well-formed `HH:MM` (one or two digits each, as a time input gives)
      is read as that many hours and minutes after midnight. */
  lemma ReminderTimeOfDigits(hh: string, mm: string)
    requires hh != [] && mm != [] && AllDigits(hh) && AllDigits(mm)
    requires |hh| <= 2 && |mm| <= 2
    ensures ReminderTime(hh + ":" + mm) == At(DigitsValue(hh) * 3600000 + DigitsValue(mm) * 60000)
  {
    SplitAtColon(hh, mm);
    ReadClock(hh + ":" + mm, |hh|, hh, mm);
  }

  /** A reminder at hour `h` and minute `m` of a day is due at exactly that
      time of today. */
  lemma ClockTimeOfDay(h: int, m: int)
    requires 0 <= h < 24 && 0 <= m < 60
    ensures TargetTime(At(h * 3600000 + m * 60000)) == h * 3600000 + m * 60000
  {
  }

  /** The options `scheduleNotifications` passes for reminder `x`. */
  function OptionsFor(x: Reminder, settings: Option<Settings>): (r: ScheduleOptions)
    ensures r.show.reminderId == Some(x.id) && r.show.tag == Some(x.id)
    ensures r.days == Some(x.days) && r.time == ReminderTime(x.time)
    ensures r.show.requireVerification <==> settings.Some? && settings.value.requireVerification
    ensures settings.None? ==> r.show.verificationTimeout == DefaultTimeoutMinutes
    ensures settings.Some? && settings.value.verificationTimeout == 0 ==> r.show.verificationTimeout == DefaultTimeoutMinutes
    ensures settings.Some? && settings.value.verificationTimeout != 0 ==>
              r.show.verificationTimeout == settings.value.verificationTimeout
  {
    var require := settings.Some? && settings.value.requireVerification;
    var timeout := if settings.Some? && settings.value.verificationTimeout != 0
                   then settings.value.verificationTimeout else DefaultTimeoutMinutes;
    ScheduleOptions(ShowOptions(BodyFor(x), Some(x.id), Some(x.id), require, timeout),
                    ReminderTime(x.time), Some(x.days))
  }

  /** The timer reconciliation starts for reminder `x`. */
  function ReminderTimerFor(x: Reminder, settings: Option<Settings>): Timer {
    Timer(TargetTime(ReminderTime(x.time)), Fire(TitleFor(x), OptionsFor(x, settings)))
  }

  // ---------------------------------------------------------------------
  // reconciliation

  /** One step of the `forEach`: schedule `x` when it is eligible. */
  function ScheduleOne(s: ServiceState, x: Reminder, settings: Option<Settings>, now: Clock, today: string): ServiceState {
    if Eligible(x) then ScheduleSpec(s, TitleFor(x), OptionsFor(x, settings), now, today).0 else s
  }

  /** Scheduling the reminders of `rs` one after another, in list order. */
  function ScheduleAll(s: ServiceState, rs: seq<Reminder>, settings: Option<Settings>, now: Clock, today: string): (r: ServiceState)
    ensures r.supported == s.supported && r.permission == s.permission
    ensures r.active == s.active && r.notices == s.notices && r.open == s.open && r.escalations == s.escalations
    decreases |rs|
  {
    if rs == [] then s
    else ScheduleOne(ScheduleAll(s, rs[..|rs| - 1], settings, now, today), rs[|rs| - 1], settings, now, today)
  }

  /** `scheduleNotifications(rs)`: cancel every recorded timer, then schedule
      the eligible reminders. */
  function ReconcileSpec(s: ServiceState, rs: seq<Reminder>, settings: Option<Settings>, now: Clock, today: string): ServiceState {
    ScheduleAll(CancelAllSpec(s), rs, settings, now, today)
  }

  /** Reminders of `rs` that a reconciliation in state `s` gets a timer for:
      eligible, with an id, and accepted by `scheduleNotification`. */
  ghost function AdmittedIds(s: ServiceState, rs: seq<Reminder>, settings: Option<Settings>, now: Clock, today: string): set<string> {
    set x | x in rs && Eligible(x) && x.id != "" && Admits(s, OptionsFor(x, settings), now, today) :: x.id
  }

  lemma AdmittedIdsSnoc(s: ServiceState, rs: seq<Reminder>, x: Reminder, settings: Option<Settings>, now: Clock, today: string)
    ensures AdmittedIds(s, rs + [x], settings, now, today) ==
              AdmittedIds(s, rs, settings, now, today) +
              (if Eligible(x) && x.id != "" && Admits(s, OptionsFor(x, settings), now, today) then {x.id} else {})
  {
    forall y ensures y in rs + [x] <==> y in rs || y == x {
    }
  }

  lemma AdmitsDependsOnDisplay(s: ServiceState, t: ServiceState, opts: ScheduleOptions, now: Clock, today: string)
    requires t.supported == s.supported && t.permission == s.permission
    ensures Admits(t, opts, now, today) == Admits(s, opts, now, today)
  {
  }

  /** Every reminder timer started since `s0` was built from an eligible reminder of `rs`. */
  ghost predicate BuiltFrom(s0: ServiceState, s: ServiceState, rs: seq<Reminder>, settings: Option<Settings>) {
    forall h :: h in s.pending && IsReminderTimer(s.pending[h]) && h !in s0.pending ==>
      exists x :: x in rs && Eligible(x) && s.pending[h] == ReminderTimerFor(x, settings)
  }

  /** Timers of `s0` still pending are unchanged, and those that are not
      reminder timers are all still pending. */
  ghost predicate KeepsOld(s0: ServiceState, s: ServiceState) {
    && (forall h :: h in s.pending && h in s0.pending ==> s.pending[h] == s0.pending[h])
    && (forall h :: h in s0.pending && !IsReminderTimer(s0.pending[h]) ==> h in s.pending)
  }

  /** The facts a reconciliation keeps while it walks the list. */
  ghost predicate Walked(s0: ServiceState, s: ServiceState, rs: seq<Reminder>, settings: Option<Settings>, now: Clock, today: string) {
    && Inv(s) && Live(s)
    && s.supported == s0.supported && s.permission == s0.permission
    && s0.nextHandle <= s.nextHandle
    && s.scheduled.Keys == s0.scheduled.Keys + AdmittedIds(s0, rs, settings, now, today)
    && BuiltFrom(s0, s, rs, settings)
    && KeepsOld(s0, s)
  }

  lemma StepBuilt(s0: ServiceState, s: ServiceState, init: seq<Reminder>, x: Reminder,
                  settings: Option<Settings>, now: Clock, today: string)
    requires BuiltFrom(s0, s, init, settings) && Eligible(x)
    ensures BuiltFrom(s0, ScheduleOne(s, x, settings, now, today), init + [x], settings)
  {
    var (r, h) := ScheduleSpec(s, TitleFor(x), OptionsFor(x, settings), now, today);
    forall k | k in r.pending && IsReminderTimer(r.pending[k]) && k !in s0.pending
      ensures exists y :: y in init + [x] && Eligible(y) && r.pending[k] == ReminderTimerFor(y, settings)
    {
      if k == h && h != -1 {
        assert r.pending[k] == ReminderTimerFor(x, settings);
      } else {
        var y :| y in init && Eligible(y) && s.pending[k] == ReminderTimerFor(y, settings);
        assert y in init + [x];
      }
    }
  }

  lemma StepKeepsOld(s0: ServiceState, s: ServiceState, x: Reminder, settings: Option<Settings>, now: Clock, today: string)
    requires Inv(s0) && Inv(s) && KeepsOld(s0, s) && s0.nextHandle <= s.nextHandle && Eligible(x)
    ensures KeepsOld(s0, ScheduleOne(s, x, settings, now, today))
  {
    var opts := OptionsFor(x, settings);
    var r := ScheduleOne(s, x, settings, now, today);
    forall k | k in s0.pending && !IsReminderTimer(s0.pending[k]) ensures k in r.pending {
      ScheduleKeepsOtherTimers(s, TitleFor(x), opts, now, today, k);
    }
  }

  lemma StepKeys(s0: ServiceState, s: ServiceState, init: seq<Reminder>, x: Reminder,
                 settings: Option<Settings>, now: Clock, today: string)
    requires s.supported == s0.supported && s.permission == s0.permission
    requires s.scheduled.Keys == s0.scheduled.Keys + AdmittedIds(s0, init, settings, now, today)
    ensures ScheduleOne(s, x, settings, now, today).scheduled.Keys ==
              s0.scheduled.Keys + AdmittedIds(s0, init + [x], settings, now, today)
  {
    AdmittedIdsSnoc(s0, init, x, settings, now, today);
    AdmitsDependsOnDisplay(s0, s, OptionsFor(x, settings), now, today);
  }

  /** Scheduling an eligible reminder keeps the walk's facts. */
  lemma WalkStepEligible(s0: ServiceState, s: ServiceState, init: seq<Reminder>, x: Reminder,
                         settings: Option<Settings>, now: Clock, today: string)
    requires Inv(s0) && Walked(s0, s, init, settings, now, today) && Eligible(x)
    ensures Walked(s0, ScheduleOne(s, x, settings, now, today), init + [x], settings, now, today)
  {
    StepKeys(s0, s, init, x, settings, now, today);
    var opts := OptionsFor(x, settings);
    SchedulePreservesInv(s, TitleFor(x), opts, now, today);
    ScheduleKeepsLive(s, TitleFor(x), opts, now, today);
    StepBuilt(s0, s, init, x, settings, now, today);
    StepKeepsOld(s0, s, x, settings, now, today);
  }

  /** Skipping an ineligible reminder keeps the walk's facts. */
  lemma WalkStepSkip(s0: ServiceState, s: ServiceState, init: seq<Reminder>, x: Reminder,
                     settings: Option<Settings>, now: Clock, today: string)
    requires Walked(s0, s, init, settings, now, today) && !Eligible(x)
    ensures Walked(s0, ScheduleOne(s, x, settings, now, today), init + [x], settings, now, today)
  {
    AdmittedIdsSnoc(s0, init, x, settings, now, today);
    forall k | k in s.pending && IsReminderTimer(s.pending[k]) && k !in s0.pending
      ensures exists y :: y in init + [x] && Eligible(y) && s.pending[k] == ReminderTimerFor(y, settings)
    {
      var y :| y in init && Eligible(y) && s.pending[k] == ReminderTimerFor(y, settings);
      assert y in init + [x];
    }
  }

  lemma {:induction false} ScheduleAllWalks(s0: ServiceState, rs: seq<Reminder>, settings: Option<Settings>, now: Clock, today: string)
    requires Inv(s0) && Live(s0)
    ensures Walked(s0, ScheduleAll(s0, rs, settings, now, today), rs, settings, now, today)
    decreases |rs|
  {
    if rs == [] {
      assert AdmittedIds(s0, rs, settings, now, today) == {};
    } else {
      var init, x := rs[..|rs| - 1], rs[|rs| - 1];
      assert rs == init + [x];
      ScheduleAllWalks(s0, init, settings, now, today);
      var s := ScheduleAll(s0, init, settings, now, today);
      if Eligible(x) {
        WalkStepEligible(s0, s, init, x, settings, now, today);
      } else {
        WalkStepSkip(s0, s, init, x, settings, now, today);
      }
    }
  }

  /** Reconciliation cancels every recorded timer and then gives a live timer
      to exactly the eligible reminders that `scheduleNotification` accepts;
      every reminder timer left pending was built from an eligible reminder
      of the list; timers of other kinds (auto-close, verification deadlines)
      survive; nothing shown changes. */
  lemma ReconcileSchedulesEligible(s: ServiceState, rs: seq<Reminder>, settings: Option<Settings>, now: Clock, today: string)
    requires Inv(s)
    ensures var r := ReconcileSpec(s, rs, settings, now, today);
            && Inv(r)
            && r.scheduled.Keys == AdmittedIds(s, rs, settings, now, today)
            && (forall id :: id in r.scheduled ==> r.scheduled[id] in r.pending)
            && (forall h :: h in r.pending && IsReminderTimer(r.pending[h]) ==>
                  exists x :: x in rs && Eligible(x) && r.pending[h] == ReminderTimerFor(x, settings))
            && (forall h :: h in s.pending && !IsReminderTimer(s.pending[h]) ==> h in r.pending && r.pending[h] == s.pending[h])
            && r.active == s.active && r.open == s.open && r.notices == s.notices
  {
    var c := CancelAllSpec(s);
    CancelAllLeavesOnlyUntracked(s);
    ScheduleAllWalks(c, rs, settings, now, today);
    AdmittedIdsSame(s, c, rs, settings, now, today);
  }

  lemma AdmittedIdsSame(s: ServiceState, t: ServiceState, rs: seq<Reminder>, settings: Option<Settings>, now: Clock, today: string)
    requires t.supported == s.supported && t.permission == s.permission
    ensures AdmittedIds(t, rs, settings, now, today) == AdmittedIds(s, rs, settings, now, today)
  {
  }

  /** Adding or updating a single browser reminder reconciles a one-element
      list: afterwards no other reminder has a recorded entry or a pending
      timer, whatever was scheduled before. */
  lemma SingleReconcileCancelsOthers(s: ServiceState, x: Reminder, settings: Option<Settings>, now: Clock, today: string, other: string)
    requires Inv(s) && other != x.id
    ensures var r := ReconcileSpec(s, [x], settings, now, today);
            && r.scheduled.Keys <= {x.id}
            && other !in r.scheduled
            && ReminderTimers(r, other) == {}
  {
    var r := ReconcileSpec(s, [x], settings, now, today);
    ReconcileSchedulesEligible(s, [x], settings, now, today);
    AdmittedFromOne(s, x, settings, now, today);
    AtMostOneTimerPerReminder(r, other);
  }

  lemma AdmittedFromOne(s: ServiceState, x: Reminder, settings: Option<Settings>, now: Clock, today: string)
    ensures AdmittedIds(s, [x], settings, now, today) <= {x.id}
  {
  }

  // ---------------------------------------------------------------------
  // the list updates

  /** `prev.map(r => r.id === id ? u : r)`. */
  function ReplaceById(rs: seq<Reminder>, id: string, u: Reminder): (r: seq<Reminder>)
    ensures |r| == |rs|
  {
    seq(|rs|, i requires 0 <= i < |rs| => if rs[i].id == id then u else rs[i])
  }

  /** Exactly the elements with the id are replaced, in place; when none has
      it the list is unchanged. */
  lemma ReplaceByIdSpec(rs: seq<Reminder>, id: string, u: Reminder)
    ensures forall i :: 0 <= i < |rs| && rs[i].id != id ==> ReplaceById(rs, id, u)[i] == rs[i]
    ensures forall i :: 0 <= i < |rs| && rs[i].id == id ==> ReplaceById(rs, id, u)[i] == u
    ensures (forall x :: x in rs ==> x.id != id) ==> ReplaceById(rs, id, u) == rs
  {
  }

  /** `prev.filter(r => r.id !== id)`. */
  function RemoveById(rs: seq<Reminder>, id: string): (r: seq<Reminder>)
    ensures forall x :: x in r ==> x in rs && x.id != id
  {
    Filter(rs, (x: Reminder) => x.id != id)
  }

  /** Deleting removes every element with the id and keeps all the others in order. */
  lemma RemoveByIdSpec(rs: seq<Reminder>, id: string)
    ensures forall x :: x in RemoveById(rs, id) <==> x in rs && x.id != id
    ensures IsSubsequence(RemoveById(rs, id), rs)
  {
    FilterMembership(rs, (x: Reminder) => x.id != id);
    FilterIsSubsequence(rs, (x: Reminder) => x.id != id);
  }

  /** The list-change effect: reconcile, but only a non-empty list. */
  function OnListChange(s: ServiceState, rs: seq<Reminder>, settings: Option<Settings>, now: Clock, today: string): ServiceState {
    if |rs| > 0 then ReconcileSpec(s, rs, settings, now, today) else s
  }

  /** Deleting the last reminder leaves its timer in place: the effect does
      not run on the empty list, so the recorded timer still fires. */
  lemma DeletingLastKeepsTimers(s: ServiceState, x: Reminder, settings: Option<Settings>, now: Clock, today: string)
    ensures RemoveById([x], x.id) == []
    ensures OnListChange(s, RemoveById([x], x.id), settings, now, today) == s
  {
    FilterNone([x], (y: Reminder) => y.id != x.id);
  }

  /** Reconciling the list left after a deletion, whatever its length,
      leaves the deleted reminder neither an entry nor a pending timer. */
  lemma DeletedReminderIsUnscheduled(s: ServiceState, rs: seq<Reminder>, id: string,
                                     settings: Option<Settings>, now: Clock, today: string)
    requires Inv(s)
    ensures var r := ReconcileSpec(s, RemoveById(rs, id), settings, now, today);
            id !in r.scheduled && ReminderTimers(r, id) == {}
  {
    var left := RemoveById(rs, id);
    var r := ReconcileSpec(s, left, settings, now, today);
    ReconcileSchedulesEligible(s, left, settings, now, today);
    assert id !in AdmittedIds(s, left, settings, now, today);
    AtMostOneTimerPerReminder(r, id);
  }

  /** Whatever the provider left scheduled in between, the list-change effect
      on a non-empty list leaves recorded entries for exactly the reminders of
      that list that `scheduleNotification` accepts. */
  lemma EffectReconcilesWholeList(s: ServiceState, mid: ServiceState, rs: seq<Reminder>,
                                  settings: Option<Settings>, now: Clock, today: string)
    requires Inv(mid) && mid.supported == s.supported && mid.permission == s.permission && |rs| > 0
    ensures var r := OnListChange(mid, rs, settings, now, today);
            Inv(r) && r.scheduled.Keys == AdmittedIds(s, rs, settings, now, today)
  {
    ReconcileSchedulesEligible(mid, rs, settings, now, today);
    AdmittedIdsSame(s, mid, rs, settings, now, today);
  }

  /** Adding `a` first reconciles the one-element list `[a]` (when `a` is a
      browser reminder), but the effect that follows on the new list
      `rs + [a]` restores the entries of every accepted reminder of it. */
  lemma AddThenEffectReconcilesAll(s: ServiceState, rs: seq<Reminder>, a: Reminder,
                                   settings: Option<Settings>, now: Clock, today: string)
    requires Inv(s)
    ensures var mid := if Browser in a.channels then ReconcileSpec(s, [a], settings, now, today) else s;
            var r := OnListChange(mid, rs + [a], settings, now, today);
            Inv(r) && r.scheduled.Keys == AdmittedIds(s, rs + [a], settings, now, today)
  {
    var mid := if Browser in a.channels then ReconcileSpec(s, [a], settings, now, today) else s;
    ReconcileSchedulesEligible(s, [a], settings, now, today);
    EffectReconcilesWholeList(s, mid, rs + [a], settings, now, today);
  }

  /** Likewise for an update: the effect on the updated list restores the
      entries of its accepted reminders; on an empty list nothing runs and
      the one-element reconciliation stays. */
  lemma UpdateThenEffectReconcilesAll(s: ServiceState, rs: seq<Reminder>, id: string, u: Reminder, reconcile: bool,
                                      settings: Option<Settings>, now: Clock, today: string)
    requires Inv(s)
    ensures var mid := if reconcile then ReconcileSpec(s, [u], settings, now, today) else s;
            var list := ReplaceById(rs, id, u);
            var r := OnListChange(mid, list, settings, now, today);
            && (|rs| > 0 ==> Inv(r) && r.scheduled.Keys == AdmittedIds(s, list, settings, now, today))
            && (|rs| == 0 ==> r == mid)
  {
    var mid := if reconcile then ReconcileSpec(s, [u], settings, now, today) else s;
    ReconcileSchedulesEligible(s, [u], settings, now, today);
    if |rs| > 0 {
      EffectReconcilesWholeList(s, mid, ReplaceById(rs, id, u), settings, now, today);
    }
  }

  // ---------------------------------------------------------------------
  // the provider

  const LoadError: string := "Failed to load reminders"
  const AddError: string := "Failed to add reminder"
  const UpdateError: string := "Failed to update reminder"
  const DeleteError: string := "Failed to delete reminder"
  const SettingsError: string := "Failed to update settings"
  const NoUser: string := "User not authenticated"

  /** The reminder to store for `draft` on behalf of user `uid`. */
  function AddPayload(draft: Reminder, uid: string): (r: Reminder)
    ensures r.userId == uid && r.(userId := draft.userId) == draft
  {
    draft.(userId := uid)
  }

  /** The provider state. Outcomes of backend calls are inputs of the
      operations; `now` and `today` are the clock and weekday the
      notification scheduler reads. */
  class ReminderProvider {
    const svc: NotificationService
    var user: Option<string>
    var reminders: seq<Reminder>
    var settings: Option<Settings>
    var loading: bool
    var error: Option<string>
    var showVerification: Option<string>

    constructor(svc: NotificationService, user: Option<string>)
      ensures this.svc == svc && this.user == user
      ensures reminders == [] && settings == None && loading && error == None && showVerification == None
    {
      this.svc := svc;
      this.user := user;
      reminders := [];
      settings := None;
      loading := true;
      error := None;
      showVerification := None;
    }

    /** `scheduleNotifications(rs)`. */
    method ScheduleNotifications(rs: seq<Reminder>, now: Clock, today: string)
      requires svc.Valid()
      modifies svc
      ensures svc.Valid()
      ensures svc.State() == ReconcileSpec(old(svc.State()), rs, settings, now, today)
    {
      ghost var s0 := svc.State();
      svc.CancelAllScheduledNotifications();
      var i := 0;
      while i < |rs|
        invariant 0 <= i <= |rs|
        invariant svc.State() == ScheduleAll(CancelAllSpec(s0), rs[..i], settings, now, today)
        invariant svc.Valid()
      {
        var x := rs[i];
        assert rs[..i + 1][..i] == rs[..i];
        if x.status == Active && Browser in x.channels {
          var _ := svc.ScheduleNotification(TitleFor(x), OptionsFor(x, settings), now, today);
        }
        i := i + 1;
      }
      assert rs[..|rs|] == rs;
    }

    /** The effect that runs after the list changed. */
    method RemindersChanged(now: Clock, today: string)
      requires svc.Valid()
      modifies svc
      ensures svc.Valid()
      ensures svc.State() == OnListChange(old(svc.State()), reminders, settings, now, today)
    {
      if |reminders| > 0 {
        ScheduleNotifications(reminders, now, today);
      }
    }

    /** The clean-up when the provider unmounts. */
    method Unmount()
      requires svc.Valid()
      modifies svc
      ensures svc.Valid()
      ensures svc.State() == CancelAllSpec(old(svc.State()))
    {
      svc.CancelAllScheduledNotifications();
    }

    /** `loadReminders`, given what `getReminders` produced. */
    method LoadReminders(outcome: Result<seq<Reminder>>, now: Clock, today: string)
      requires svc.Valid()
      modifies this, svc
      ensures svc.Valid()
      ensures !loading
      ensures user == old(user) && settings == old(settings) && showVerification == old(showVerification)
      ensures outcome.Ok? ==>
                && reminders == outcome.value && error == old(error)
                && svc.State() == ReconcileSpec(old(svc.State()), outcome.value, settings, now, today)
      ensures outcome.Err? ==>
                reminders == old(reminders) && error == Some(LoadError) && svc.State() == old(svc.State())
    {
      loading := true;
      if outcome.Ok? {
        reminders := outcome.value;
        ScheduleNotifications(outcome.value, now, today);
      } else {
        error := Some(LoadError);
      }
      loading := false;
    }

    /** `loadSettings`: a failure is only logged. */
    method LoadSettings(outcome: Result<Settings>)
      modifies this
      ensures outcome.Ok? ==> settings == Some(outcome.value)
      ensures outcome.Err? ==> settings == old(settings)
      ensures user == old(user) && reminders == old(reminders) && loading == old(loading)
      ensures error == old(error) && showVerification == old(showVerification)
    {
      if outcome.Ok? {
        settings := Some(outcome.value);
      }
    }

    /** `addReminder(draft)`; `backend` is what the reminder service returns
        for the payload it is given. */
    method AddReminder(draft: Reminder, backend: Reminder -> Result<Reminder>, now: Clock, today: string)
      returns (res: Result<()>)
      requires svc.Valid()
      modifies this, svc
      ensures svc.Valid()
      ensures user == old(user) && settings == old(settings) && loading == old(loading)
      ensures showVerification == old(showVerification)
      ensures old(user).None? ==>
                res == Err(NoUser) && error == Some(AddError) &&
                reminders == old(reminders) && svc.State() == old(svc.State())
      ensures old(user).Some? && backend(AddPayload(draft, old(user).value)).Err? ==>
                res == Err(backend(AddPayload(draft, old(user).value)).message) && error == Some(AddError) &&
                reminders == old(reminders) && svc.State() == old(svc.State())
      ensures old(user).Some? && backend(AddPayload(draft, old(user).value)).Ok? ==>
                var added := backend(AddPayload(draft, old(user).value)).value;
                && res.Ok? && error == old(error)
                && reminders == old(reminders) + [added]
                && svc.State() == (if Browser in added.channels
                                   then ReconcileSpec(old(svc.State()), [added], settings, now, today)
                                   else old(svc.State()))
    {
      if user.None? {
        error := Some(AddError);
        return Err(NoUser);
      }
      var outcome := backend(AddPayload(draft, user.value));
      if outcome.Err? {
        error := Some(AddError);
        return Err(outcome.message);
      }
      var added := outcome.value;
      reminders := reminders + [added];
      if Browser in added.channels {
        ScheduleNotifications([added], now, today);
      }
      res := Ok(());
    }

    /** `updateReminder(id, patch)`, given what the reminder service returned. */
    method UpdateReminder(id: string, patch: ReminderPatch, outcome: Result<Reminder>, now: Clock, today: string)
      returns (res: Result<()>)
      requires svc.Valid()
      modifies this, svc
      ensures svc.Valid()
      ensures user == old(user) && settings == old(settings) && loading == old(loading)
      ensures showVerification == old(showVerification)
      ensures outcome.Err? ==>
                res == Err(outcome.message) && error == Some(UpdateError) &&
                reminders == old(reminders) && svc.State() == old(svc.State())
      ensures outcome.Ok? ==>
                && res.Ok? && error == old(error)
                && reminders == ReplaceById(old(reminders), id, outcome.value)
                && svc.State() == (if patch.status == Some(Active) && patch.channels.Some? && Browser in patch.channels.value
                                   then ReconcileSpec(old(svc.State()), [outcome.value], settings, now, today)
                                   else old(svc.State()))
    {
      if outcome.Err? {
        error := Some(UpdateError);
        return Err(outcome.message);
      }
      reminders := ReplaceById(reminders, id, outcome.value);
      if patch.status == Some(Active) && patch.channels.Some? && Browser in patch.channels.value {
        ScheduleNotifications([outcome.value], now, today);
      }
      res := Ok(());
    }

    /** `deleteReminder(id)`, given whether the reminder service succeeded. */
    method DeleteReminder(id: string, outcome: Result<()>) returns (res: Result<()>)
      modifies this
      ensures user == old(user) && settings == old(settings) && loading == old(loading)
      ensures showVerification == old(showVerification)
      ensures outcome.Err? ==> res == outcome && error == Some(DeleteError) && reminders == old(reminders)
      ensures outcome.Ok? ==> res.Ok? && error == old(error) && reminders == RemoveById(old(reminders), id)
    {
      if outcome.Err? {
        error := Some(DeleteError);
        return outcome;
      }
      reminders := RemoveById(reminders, id);
      res := Ok(());
    }

    /** `updateSettings(patch)`, given what the reminder service returned. */
    method UpdateSettings(outcome: Result<Settings>) returns (res: Result<()>)
      modifies this
      ensures user == old(user) && reminders == old(reminders) && loading == old(loading)
      ensures showVerification == old(showVerification)
      ensures outcome.Err? ==> res == Err(outcome.message) && error == Some(SettingsError) && settings == old(settings)
      ensures outcome.Ok? ==> res.Ok? && error == old(error) && settings == Some(outcome.value)
    {
      if outcome.Err? {
        error := Some(SettingsError);
        return Err(outcome.message);
      }
      settings := Some(outcome.value);
      res := Ok(());
    }

    /** `requestNotificationPermission`: delegates to the scheduler. */
    method RequestNotificationPermission(answer: PromptAnswer) returns (granted: bool)
      requires svc.Valid()
      modifies svc
      ensures svc.Valid()
      ensures (svc.State(), granted) == RequestPermissionSpec(old(svc.State()), answer)
    {
      granted := svc.RequestPermission(answer);
    }

    /** `handleVerifyMedication`: after a successful verification the list is
        reloaded and the dialog closed; a failure is passed on and changes
        nothing here. */
    method HandleVerifyMedication(verified: Result<()>, reload: Result<seq<Reminder>>, now: Clock, today: string)
      returns (res: Result<()>)
      requires svc.Valid()
      modifies this, svc
      ensures svc.Valid()
      ensures user == old(user) && settings == old(settings)
      ensures verified.Err? ==>
                && res == verified && svc.State() == old(svc.State())
                && reminders == old(reminders) && error == old(error) && loading == old(loading)
                && showVerification == old(showVerification)
      ensures verified.Ok? ==>
                && res.Ok? && showVerification == None && !loading
                && (reload.Ok? ==>
                      && reminders == reload.value && error == old(error)
                      && svc.State() == ReconcileSpec(old(svc.State()), reload.value, settings, now, today))
                && (reload.Err? ==>
                      && reminders == old(reminders) && error == Some(LoadError)
                      && svc.State() == old(svc.State()))
    {
      if verified.Err? {
        return verified;
      }
      LoadReminders(reload, now, today);
      showVerification := None;
      res := Ok(());
    }
  }
}
