/** The browser notification scheduler of the reminder subsystem
    (src/lib/services/notification-service.ts).

    The service keeps a cached permission, the `activeNotifications` map
    (tag to shown notification) and the `scheduledNotifications` map
    (reminder id to timer handle). Browser timers are modelled as a map of
    pending events with integer due times; time is milliseconds since local
    midnight and today's weekday is an input. The pure `ServiceState` and the
    `...Spec` functions below say what every operation does; the class
    `NotificationService` performs the same steps on its fields. */
module Notifications {

  import opened Types

  const MsPerDay: int := 86400000
  /** Delay after which a notification that needs no verification closes itself. */
  const AutoCloseMs: int := 6000
  const MissedTitle: string := "Medication Missed"

  /** A time of day in milliseconds since local midnight. */
  type Clock = t: int | 0 <= t < MsPerDay

  datatype Permission = Default | Granted | Denied

  /** What the browser's permission prompt produced. */
  datatype PromptAnswer = Answered(permission: Permission) | PromptFailed

  /** The `Date` handed to `scheduleNotification`, as an offset from today's
      local midnight; `InvalidDate` is a `Date` whose time value is NaN. */
  datatype ClockTime = At(ms: int) | InvalidDate

  /** Options of `showNotification`. A tag or reminder id of "" is as absent
      as a missing one, and a timeout of 0 counts as no timeout. */
  datatype ShowOptions = ShowOptions(
    body: string,
    tag: Option<string>,
    reminderId: Option<string>,
    requireVerification: bool,
    verificationTimeout: int)

  /** Options of `scheduleNotification`: those of the notification to show,
      the time and the optional list of weekdays. */
  datatype ScheduleOptions = ScheduleOptions(show: ShowOptions, time: ClockTime, days: Option<seq<string>>)

  /** A notification that was shown. */
  datatype Notice = Notice(title: string, body: string, tag: Option<string>, requireInteraction: bool)

  /** What a timer does when it elapses. */
  datatype Event =
    | Fire(title: string, opts: ScheduleOptions)             // a scheduled reminder
    | AutoClose(notice: nat, closeTag: string)                    // closeNotification's 6-second timer
    | Deadline(reminderId: string, title: string, tag: Option<string>)  // verification deadline

  datatype Timer = Timer(due: int, event: Event)

  /** The whole observable state of the service. `escalations` lists, in
      order, the reminders for which a verification deadline asked the
      reminder service to mark the dose missed. */
  datatype ServiceState = ServiceState(
    supported: bool,
    permission: Permission,
    active: map<string, nat>,
    scheduled: map<string, int>,
    pending: map<int, Timer>,
    notices: map<nat, Notice>,
    open: set<nat>,
    nextHandle: nat,
    nextNotice: nat,
    escalations: seq<string>)

  function Initial(supported: bool, browserPermission: Permission): ServiceState {
    ServiceState(supported, if supported then browserPermission else Default,
          map[], map[], map[], map[], {}, 1, 0, [])
  }

  /** `options.tag || ''`. */
  function TagOrEmpty(tag: Option<string>): string {
    if tag.Some? then tag.value else ""
  }

  /** `${options.tag}-missed`; a missing tag prints as "undefined". */
  function MissedTag(tag: Option<string>): (r: string)
    ensures |r| > 0
  {
    (if tag.Some? then tag.value else "undefined") + "-missed"
  }

  function MissedOptions(title: string, tag: Option<string>): ShowOptions {
    ShowOptions("You haven't verified taking " + title + ". Your guardian will be notified.",
                Some(MissedTag(tag)), None, false, 0)
  }

  /** The signed 32-bit value a number becomes when passed as a WebIDL `long`. */
  function ToInt32(x: int): (r: int)
    ensures -0x8000_0000 <= r < 0x8000_0000
    ensures (r - x) % 0x1_0000_0000 == 0
  {
    (x + 0x8000_0000) % 0x1_0000_0000 - 0x8000_0000
  }

  /** The delay `setTimeout` actually waits: the argument wrapped to 32 bits,
      and a negative result treated as 0. */
  function TimerDelay(ms: int): (d: int)
    ensures 0 <= d < 0x8000_0000
    ensures 0 <= ms < 0x8000_0000 ==> d == ms
    ensures ms < 0 && -0x8000_0000 <= ms ==> d == 0
  {
    var w := ToInt32(ms);
    if w < 0 then 0 else w
  }

  /** Today's target instant after `setFullYear` moved the date to today:
      the time within the day, or midnight for an invalid date (ECMAScript
      sets a NaN time value to +0 before applying the new date). */
  function TargetTime(t: ClockTime): (r: int)
    ensures 0 <= r < MsPerDay
    ensures t.At? && 0 <= t.ms < MsPerDay ==> r == t.ms
    ensures t.InvalidDate? ==> r == 0
  {
    match t
    case At(ms) => ms % MsPerDay
    case InvalidDate => 0
  }

  /** The environment supports notifications and the user granted them. */
  predicate CanDisplay(s: ServiceState) {
    s.supported && s.permission == Granted
  }

  /** `scheduleNotification` accepts the request: notifications are usable,
      today's target time is not already past and, when days are given,
      today is one of them. */
  predicate Admits(s: ServiceState, opts: ScheduleOptions, now: Clock, today: string) {
    && CanDisplay(s)
    && !(TargetTime(opts.time) < now)
    && !(opts.days.Some? && today !in opts.days.value)
  }

  /** A timer that shows a reminder and carries a (non-empty) reminder id. */
  predicate IsReminderTimer(t: Timer) {
    t.event.Fire? && Present(t.event.opts.show.reminderId)
  }

  function TimerReminder(t: Timer): string
    requires IsReminderTimer(t)
  {
    t.event.opts.show.reminderId.value
  }

  /** The pending reminder timer `h` is the one the scheduled map records for its reminder. */
  ghost predicate TrackedBy(s: ServiceState, h: int)
    requires h in s.pending && IsReminderTimer(s.pending[h])
  {
    var rid := TimerReminder(s.pending[h]);
    rid in s.scheduled && s.scheduled[rid] == h
  }

  /** A scheduled entry has a non-empty id and an allocated handle which,
      while pending, shows that very reminder. */
  ghost predicate ScheduledEntryOk(s: ServiceState, rid: string)
    requires rid in s.scheduled
  {
    var h := s.scheduled[rid];
    && rid != ""
    && h < s.nextHandle
    && (h in s.pending ==> IsReminderTimer(s.pending[h]) && TimerReminder(s.pending[h]) == rid)
  }

  ghost predicate TimersInv(s: ServiceState) {
    && 1 <= s.nextHandle
    && (forall h :: h in s.pending ==> h < s.nextHandle)
    && (forall rid :: rid in s.scheduled ==> ScheduledEntryOk(s, rid))
    && (forall h :: h in s.pending && IsReminderTimer(s.pending[h]) ==> TrackedBy(s, h))
  }

  /** A tracked notification is shown, still open and carries its tag. */
  ghost predicate ActiveEntryOk(s: ServiceState, tag: string)
    requires tag in s.active
  {
    var n := s.active[tag];
    n in s.notices && n in s.open && s.notices[n].tag == Some(tag)
  }

  ghost predicate DisplayInv(s: ServiceState) {
    && "" !in s.active
    && (forall tag :: tag in s.active ==> ActiveEntryOk(s, tag))
    && s.open <= s.notices.Keys
    && (forall n :: n in s.notices ==> n < s.nextNotice)
  }

  /** An auto-close timer names a shown notification and that notification's tag. */
  ghost predicate CloseTimerOk(s: ServiceState, e: Event)
    requires e.AutoClose?
  {
    e.notice in s.notices && e.closeTag == TagOrEmpty(s.notices[e.notice].tag)
  }

  ghost predicate CloseTimersInv(s: ServiceState) {
    forall h :: h in s.pending && s.pending[h].event.AutoClose? ==> CloseTimerOk(s, s.pending[h].event)
  }

  /** Consistency of the service's bookkeeping. */
  ghost predicate Inv(s: ServiceState) {
    TimersInv(s) && DisplayInv(s) && CloseTimersInv(s)
  }

  /** Pending timers that will show the reminder `rid`. */
  ghost function ReminderTimers(s: ServiceState, rid: string): set<int> {
    set h | h in s.pending && IsReminderTimer(s.pending[h]) && TimerReminder(s.pending[h]) == rid
  }

  /** At most one pending timer per reminder: the one the scheduled map records. */
  lemma AtMostOneTimerPerReminder(s: ServiceState, rid: string)
    requires Inv(s)
    ensures ReminderTimers(s, rid) <= if rid in s.scheduled then {s.scheduled[rid]} else {}
  {
    forall h | h in ReminderTimers(s, rid)
      ensures rid in s.scheduled && h == s.scheduled[rid]
    {
      assert TrackedBy(s, h);
    }
  }

  lemma InvIgnoresEscalations(s: ServiceState, e: seq<string>)
    requires Inv(s)
    ensures Inv(s.(escalations := e))
  {
    var r := s.(escalations := e);
    forall h | h in r.pending && IsReminderTimer(r.pending[h]) ensures TrackedBy(r, h) {
      assert TrackedBy(s, h);
    }
    forall rid | rid in r.scheduled ensures ScheduledEntryOk(r, rid) {
      assert ScheduledEntryOk(s, rid);
    }
    forall tag | tag in r.active ensures ActiveEntryOk(r, tag) {
      assert ActiveEntryOk(s, tag);
    }
    forall h | h in r.pending && r.pending[h].event.AutoClose? ensures CloseTimerOk(r, r.pending[h].event) {
      assert CloseTimerOk(s, s.pending[h].event);
    }
  }

  // ---------------------------------------------------------------------
  // requestPermission

  /** `requestPermission`: false when unsupported, true at once when already
      granted, false without a new prompt when denied; otherwise the answer
      of the prompt is cached and the result is whether it granted. */
  function RequestPermissionSpec(s: ServiceState, answer: PromptAnswer): (r: (ServiceState, bool))
    ensures r.0 == s.(permission := r.0.permission)
    ensures !s.supported ==> r == (s, false)
    ensures s.supported && s.permission == Granted ==> r == (s, true)
    ensures s.supported && s.permission == Denied ==> r == (s, false)
    ensures s.supported && s.permission == Default && answer.Answered? ==>
              r.0.permission == answer.permission && r.1 == (answer.permission == Granted)
    ensures answer.PromptFailed? ==> r.0 == s && r.1 == CanDisplay(s)
    ensures r.1 <==> CanDisplay(r.0)
  {
    if !s.supported then (s, false)
    else if s.permission == Granted then (s, true)
    else if s.permission == Denied then (s, false)
    else
      match answer
      case Answered(p) => (s.(permission := p), p == Granted)
      case PromptFailed => (s, false)
  }

  // ---------------------------------------------------------------------
  // showNotification and closeNotification

  /** Closes and forgets the notification currently shown under `tag`. */
  function ClosePrior(s: ServiceState, tag: Option<string>): (r: ServiceState)
    ensures r == s.(open := r.open, active := r.active)
  {
    if Present(tag) && tag.value in s.active then
      s.(open := s.open - {s.active[tag.value]}, active := s.active - {tag.value})
    else s
  }

  /** Closes the notification shown under the same tag, then shows and
      records the new one (the part of `showNotification` before any timer). */
  function ShowNotice(s: ServiceState, title: string, opts: ShowOptions): (r: ServiceState)
    ensures r.pending == s.pending && r.nextHandle == s.nextHandle && r.scheduled == s.scheduled
  {
    var s1 := ClosePrior(s, opts.tag);
    var id := s1.nextNotice;
    s1.(notices := s1.notices[id := Notice(title, opts.body, opts.tag, opts.requireVerification)],
        open := s1.open + {id},
        nextNotice := id + 1,
        active := if Present(opts.tag) then s1.active[opts.tag.value := id] else s1.active)
  }

  /** The timer `showNotification` starts after showing notification `id`:
      the verification deadline when verification is required and a reminder
      id and timeout are given, the auto-close timer when verification is not
      required, and none otherwise. */
  function FollowUp(title: string, opts: ShowOptions, id: nat, now: int): (r: Option<Timer>)
    ensures r.Some? ==> !r.value.event.Fire?
    ensures r.Some? && r.value.event.AutoClose? ==> r.value.event.notice == id && r.value.event.closeTag == TagOrEmpty(opts.tag)
  {
    if opts.requireVerification && Present(opts.reminderId) && opts.verificationTimeout != 0 then
      Some(Timer(now + TimerDelay(opts.verificationTimeout * 60 * 1000),
                 Deadline(opts.reminderId.value, title, opts.tag)))
    else if !opts.requireVerification then
      Some(Timer(now + TimerDelay(AutoCloseMs), AutoClose(id, TagOrEmpty(opts.tag))))
    else None
  }

  function AddTimer(s: ServiceState, t: Timer): (r: ServiceState)
    ensures r == s.(pending := r.pending, nextHandle := r.nextHandle)
  {
    s.(pending := s.pending[s.nextHandle := t], nextHandle := s.nextHandle + 1)
  }

  /** `showNotification(title, opts)` at time `now`; `created` is whether the
      browser's `Notification` constructor succeeded. When it throws, the
      notification previously shown under the tag has already been closed,
      and nothing is shown, stored or timed. */
  function ShowSpec(s: ServiceState, title: string, opts: ShowOptions, now: int, created: bool): (r: ServiceState)
    ensures !CanDisplay(s) ==> r == s
    ensures r.supported == s.supported && r.permission == s.permission
    ensures r.scheduled == s.scheduled && r.escalations == s.escalations
    ensures CanDisplay(s) && created ==>
              && r.notices == s.notices[s.nextNotice := Notice(title, opts.body, opts.tag, opts.requireVerification)]
              && s.nextNotice in r.open
              && (Present(opts.tag) ==> r.active == s.active[opts.tag.value := s.nextNotice])
              && (!Present(opts.tag) ==> r.active == s.active)
    ensures CanDisplay(s) && created && !opts.requireVerification ==>
              r.pending == s.pending[s.nextHandle := Timer(now + AutoCloseMs, AutoClose(s.nextNotice, TagOrEmpty(opts.tag)))]
    ensures CanDisplay(s) && created && opts.requireVerification && !(Present(opts.reminderId) && opts.verificationTimeout != 0) ==>
              r.pending == s.pending
    // a failed construction only closes the prior notification under the tag
    ensures CanDisplay(s) && !created ==>
              && r == s.(open := r.open, active := r.active)
              && r.open <= s.open
              && (Present(opts.tag) ==> opts.tag.value !in r.active)
    // only reminder timers that were pending before are pending after
    ensures forall h :: h in r.pending && r.pending[h].event.Fire? ==> h in s.pending && r.pending[h] == s.pending[h]
    ensures forall h :: h in s.pending && h != s.nextHandle ==> h in r.pending && r.pending[h] == s.pending[h]
  {
    if !CanDisplay(s) then s
    else if !created then ClosePrior(s, opts.tag)
    else
      var s2 := ShowNotice(s, title, opts);
      match FollowUp(title, opts, s.nextNotice, now)
      case None => s2
      case Some(t) => AddTimer(s2, t)
  }

  lemma ClosePriorPreservesInv(s: ServiceState, tag: Option<string>)
    requires Inv(s)
    ensures Inv(ClosePrior(s, tag))
  {
    var r := ClosePrior(s, tag);
    if Present(tag) && tag.value in s.active {
      var n := s.active[tag.value];
      forall t | t in r.active ensures ActiveEntryOk(r, t) {
        assert ActiveEntryOk(s, t);
        assert ActiveEntryOk(s, tag.value);
      }
      forall h | h in r.pending && IsReminderTimer(r.pending[h]) ensures TrackedBy(r, h) {
        assert TrackedBy(s, h);
      }
      forall rid | rid in r.scheduled ensures ScheduledEntryOk(r, rid) {
        assert ScheduledEntryOk(s, rid);
      }
      forall h | h in r.pending && r.pending[h].event.AutoClose? ensures CloseTimerOk(r, r.pending[h].event) {
        assert CloseTimerOk(s, s.pending[h].event);
      }
    }
  }

  lemma ShowNoticePreservesInv(s: ServiceState, title: string, opts: ShowOptions)
    requires Inv(s)
    ensures var r := ShowNotice(s, title, opts);
            && Inv(r)
            && s.nextNotice in r.notices && r.notices[s.nextNotice].tag == opts.tag
            && r.nextNotice == s.nextNotice + 1
  {
    var s1 := ClosePrior(s, opts.tag);
    ClosePriorPreservesInv(s, opts.tag);
    var r := ShowNotice(s, title, opts);
    var id := s.nextNotice;
    assert id !in s1.notices;
    forall t | t in r.active ensures ActiveEntryOk(r, t) {
      if !(Present(opts.tag) && t == opts.tag.value) {
        assert ActiveEntryOk(s1, t);
      }
    }
    forall h | h in r.pending && IsReminderTimer(r.pending[h]) ensures TrackedBy(r, h) {
      assert TrackedBy(s1, h);
    }
    forall rid | rid in r.scheduled ensures ScheduledEntryOk(r, rid) {
      assert ScheduledEntryOk(s1, rid);
    }
    forall h | h in r.pending && r.pending[h].event.AutoClose? ensures CloseTimerOk(r, r.pending[h].event) {
      assert CloseTimerOk(s1, s1.pending[h].event);
    }
  }

  lemma AddTimerPreservesInv(s: ServiceState, t: Timer)
    requires Inv(s) && !t.event.Fire?
    requires t.event.AutoClose? ==> CloseTimerOk(s, t.event)
    ensures Inv(AddTimer(s, t))
  {
    var r := AddTimer(s, t);
    forall h | h in r.pending && IsReminderTimer(r.pending[h]) ensures TrackedBy(r, h) {
      assert TrackedBy(s, h);
    }
    forall rid | rid in r.scheduled ensures ScheduledEntryOk(r, rid) {
      assert ScheduledEntryOk(s, rid);
    }
    forall tag | tag in r.active ensures ActiveEntryOk(r, tag) {
      assert ActiveEntryOk(s, tag);
    }
    forall h | h in r.pending && r.pending[h].event.AutoClose? ensures CloseTimerOk(r, r.pending[h].event) {
      if h != s.nextHandle {
        assert CloseTimerOk(s, s.pending[h].event);
      }
    }
  }

  lemma ShowPreservesInv(s: ServiceState, title: string, opts: ShowOptions, now: int, created: bool)
    requires Inv(s)
    ensures Inv(ShowSpec(s, title, opts, now, created))
  {
    if CanDisplay(s) && !created {
      ClosePriorPreservesInv(s, opts.tag);
    } else if CanDisplay(s) {
      var s2 := ShowNotice(s, title, opts);
      ShowNoticePreservesInv(s, title, opts);
      match FollowUp(title, opts, s.nextNotice, now)
      case None =>
      case Some(t) => AddTimerPreservesInv(s2, t);
    }
  }

  /** Showing a tagged notification closes the one previously shown under that
      tag, so at most one notification per tag is tracked, and it is the new
      one; when the construction fails the tag tracks nothing. */
  lemma ShowReplacesTagged(s: ServiceState, title: string, opts: ShowOptions, now: int, created: bool)
    requires Inv(s) && CanDisplay(s) && Present(opts.tag)
    ensures var r := ShowSpec(s, title, opts, now, created);
            && (opts.tag.value in s.active ==> s.active[opts.tag.value] !in r.open)
            && (forall t :: t in s.active && t != opts.tag.value ==> t in r.active && r.active[t] == s.active[t])
            && (created ==> r.active[opts.tag.value] == s.nextNotice && s.nextNotice in r.open)
            && (!created ==> opts.tag.value !in r.active)
  {
    if opts.tag.value in s.active {
      assert ActiveEntryOk(s, opts.tag.value);
    }
  }

  /** Without verification, a shown notification is closed by its auto-close
      timer after 6000 ms and its tag leaves the tracked notifications. */
  lemma AutoCloseLifecycle(s: ServiceState, title: string, opts: ShowOptions, now: int, missedOk: bool, shown: bool)
    requires Inv(s) && CanDisplay(s) && !opts.requireVerification
    ensures var r := ShowSpec(s, title, opts, now, true);
            && s.nextHandle in r.pending
            && r.pending[s.nextHandle].due == now + 6000
            && var f := FireSpec(r, s.nextHandle, missedOk, shown);
               && s.nextNotice !in f.open
               && (Present(opts.tag) ==> opts.tag.value !in f.active)
  {
  }

  /** With verification, a reminder id and a non-zero timeout, a deadline of
      timeout × 60 × 1000 ms is set; the notification stays open and, when the
      deadline elapses, the reminder is handed to the missed-dose escalation and,
      if that succeeded, a `<tag>-missed` notification is shown (if its own
      construction succeeds: `shown`). If the reminder's notification could
      not be constructed, no deadline is set, so the dose is never escalated. */
  lemma VerificationDeadline(s: ServiceState, title: string, opts: ShowOptions, now: int, created: bool, missedOk: bool, shown: bool)
    requires Inv(s) && CanDisplay(s)
    requires opts.requireVerification && Present(opts.reminderId) && opts.verificationTimeout != 0
    ensures var r := ShowSpec(s, title, opts, now, created);
            && (!created ==> r.pending == s.pending && r.escalations == s.escalations)
            && (created ==>
                  && s.nextHandle in r.pending
                  && r.pending[s.nextHandle] ==
                       Timer(now + TimerDelay(opts.verificationTimeout * 60000), Deadline(opts.reminderId.value, title, opts.tag))
                  && s.nextNotice in r.open
                  && var f := FireSpec(r, s.nextHandle, missedOk, shown);
                     && f.escalations == s.escalations + [opts.reminderId.value]
                     && (missedOk && shown ==>
                           && MissedTag(opts.tag) in f.active
                           && f.notices[f.active[MissedTag(opts.tag)]] ==
                                Notice(MissedTitle, MissedOptions(title, opts.tag).body, Some(MissedTag(opts.tag)), false))
                     && (!missedOk ==> f.active == r.active && f.open == r.open && f.notices == r.notices))
  {
  }

  // ---------------------------------------------------------------------
  // scheduleNotification and cancellation

  /** `k` is the handle the scheduled map records for the reminder `rid`. */
  predicate RecordedFor(s: ServiceState, rid: Option<string>, k: int) {
    Present(rid) && rid.value in s.scheduled && s.scheduled[rid.value] == k
  }

  /** Cancels the timer the scheduled map records for `rid` and forgets the entry. */
  function DropReminder(s: ServiceState, rid: Option<string>): (r: ServiceState)
    ensures r == s.(pending := r.pending, scheduled := r.scheduled)
  {
    if Present(rid) && rid.value in s.scheduled then
      s.(pending := s.pending - {s.scheduled[rid.value]}, scheduled := s.scheduled - {rid.value})
    else s
  }

  /** `scheduleNotification(title, opts)` at time `now` on weekday `today`;
      the second component is the value returned. */
  function ScheduleSpec(s: ServiceState, title: string, opts: ScheduleOptions, now: Clock, today: string): (r: (ServiceState, int))
    ensures r.1 == -1 <==> !Admits(s, opts, now, today)
    ensures r.1 == -1 ==> r.0 == s
    ensures r.1 != -1 ==>
              && r.1 == s.nextHandle && r.0.nextHandle == s.nextHandle + 1
              && r.1 in r.0.pending
              && r.0.pending[r.1] == Timer(TargetTime(opts.time), Fire(title, opts))
              && r.0.pending[r.1].due >= now
    ensures r.0.scheduled == if r.1 != -1 && Present(opts.show.reminderId)
                             then s.scheduled[opts.show.reminderId.value := r.1] else s.scheduled
    // every pending timer is the new one or an old one left as it was
    ensures forall k :: k in r.0.pending ==> k == r.1 || (k in s.pending && r.0.pending[k] == s.pending[k])
    // only the timer recorded for the same reminder is cancelled
    ensures forall k :: k in s.pending && k != s.nextHandle && !RecordedFor(s, opts.show.reminderId, k) ==>
                          k in r.0.pending && r.0.pending[k] == s.pending[k]
    ensures r.0.active == s.active && r.0.notices == s.notices && r.0.open == s.open
    ensures r.0.supported == s.supported && r.0.permission == s.permission && r.0.escalations == s.escalations
  {
    if !Admits(s, opts, now, today) then (s, -1)
    else
      var rid := opts.show.reminderId;
      var s1 := DropReminder(s, rid);
      var h: int := s1.nextHandle;
      var due := now + TimerDelay(TargetTime(opts.time) - now);
      (s1.(pending := s1.pending[h := Timer(due, Fire(title, opts))],
           nextHandle := s1.nextHandle + 1,
           scheduled := if Present(rid) then s1.scheduled[rid.value := h] else s1.scheduled),
       h)
  }

  lemma DropReminderPreservesInv(s: ServiceState, rid: Option<string>)
    requires Inv(s)
    ensures var r := DropReminder(s, rid);
            && Inv(r)
            && (Present(rid) ==> rid.value !in r.scheduled && ReminderTimers(r, rid.value) == {})
  {
    var r := DropReminder(s, rid);
    if Present(rid) && rid.value in s.scheduled {
      forall h | h in r.pending && IsReminderTimer(r.pending[h]) ensures TrackedBy(r, h) {
        assert TrackedBy(s, h);
      }
      forall x | x in r.scheduled ensures ScheduledEntryOk(r, x) {
        assert ScheduledEntryOk(s, x);
      }
      forall h | h in r.pending && r.pending[h].event.AutoClose? ensures CloseTimerOk(r, r.pending[h].event) {
        assert CloseTimerOk(s, s.pending[h].event);
      }
    }
    if Present(rid) {
      forall h | h in r.pending && IsReminderTimer(r.pending[h]) ensures TimerReminder(r.pending[h]) != rid.value {
        assert TrackedBy(s, h);
      }
    }
  }

  lemma SchedulePreservesInv(s: ServiceState, title: string, opts: ScheduleOptions, now: Clock, today: string)
    requires Inv(s)
    ensures Inv(ScheduleSpec(s, title, opts, now, today).0)
  {
    if Admits(s, opts, now, today) {
      var rid := opts.show.reminderId;
      var s1 := DropReminder(s, rid);
      DropReminderPreservesInv(s, rid);
      var (r, h) := ScheduleSpec(s, title, opts, now, today);
      forall k | k in r.pending && IsReminderTimer(r.pending[k]) ensures TrackedBy(r, k) {
        if k != h {
          assert TrackedBy(s1, k);
          if Present(rid) {
            assert k !in ReminderTimers(s1, rid.value);
          }
        }
      }
      forall x | x in r.scheduled ensures ScheduledEntryOk(r, x) {
        if !(Present(rid) && x == rid.value) {
          assert ScheduledEntryOk(s1, x);
        }
      }
      forall k | k in r.pending && r.pending[k].event.AutoClose? ensures CloseTimerOk(r, r.pending[k].event) {
        assert CloseTimerOk(s1, s1.pending[k].event);
      }
    }
  }

  /** A successful schedule with a reminder id replaces the prior timer of
      that reminder: the prior handle is no longer pending and the map
      records the new one; other reminders' entries are untouched. */
  lemma ScheduleReplacesPrior(s: ServiceState, title: string, opts: ScheduleOptions, now: Clock, today: string)
    requires Inv(s) && Admits(s, opts, now, today) && Present(opts.show.reminderId)
    ensures var (r, h) := ScheduleSpec(s, title, opts, now, today);
            var rid := opts.show.reminderId.value;
            && r.scheduled == s.scheduled[rid := h]
            && (rid in s.scheduled ==> s.scheduled[rid] !in r.pending)
            && ReminderTimers(r, rid) == {h}
  {
    var (r, h) := ScheduleSpec(s, title, opts, now, today);
    var rid := opts.show.reminderId.value;
    SchedulePreservesInv(s, title, opts, now, today);
    AtMostOneTimerPerReminder(r, rid);
    assert h in ReminderTimers(r, rid);
    if rid in s.scheduled {
      assert ScheduledEntryOk(s, rid);
    }
  }

  /** Scheduling the same reminder twice leaves exactly one pending timer for it. */
  lemma ScheduleTwiceLeavesOne(s: ServiceState, title: string, opts: ScheduleOptions, now: Clock, today: string)
    requires Inv(s) && Admits(s, opts, now, today) && Present(opts.show.reminderId)
    ensures var (s1, h1) := ScheduleSpec(s, title, opts, now, today);
            var (s2, h2) := ScheduleSpec(s1, title, opts, now, today);
            && h1 != h2
            && ReminderTimers(s2, opts.show.reminderId.value) == {h2}
  {
    var (s1, h1) := ScheduleSpec(s, title, opts, now, today);
    SchedulePreservesInv(s, title, opts, now, today);
    ScheduleReplacesPrior(s1, title, opts, now, today);
  }

  /** Every recorded handle is still pending. */
  ghost predicate Live(s: ServiceState) {
    forall rid :: rid in s.scheduled ==> s.scheduled[rid] in s.pending
  }

  /** Scheduling keeps every recorded handle pending: the prior timer it
      cancels belongs to the same reminder, whose entry is replaced. */
  lemma ScheduleKeepsLive(s: ServiceState, title: string, opts: ScheduleOptions, now: Clock, today: string)
    requires Inv(s) && Live(s)
    ensures Live(ScheduleSpec(s, title, opts, now, today).0)
  {
    var (r, h) := ScheduleSpec(s, title, opts, now, today);
    if h != -1 {
      forall x | x in r.scheduled ensures r.scheduled[x] in r.pending {
        if !(Present(opts.show.reminderId) && x == opts.show.reminderId.value) {
          var k := s.scheduled[x];
          assert ScheduledEntryOk(s, x);
          if Present(opts.show.reminderId) && opts.show.reminderId.value in s.scheduled {
            assert ScheduledEntryOk(s, opts.show.reminderId.value);
          }
        }
      }
    }
  }

  /** Scheduling cancels no timer other than a reminder timer. */
  lemma ScheduleKeepsOtherTimers(s: ServiceState, title: string, opts: ScheduleOptions, now: Clock, today: string, k: int)
    requires Inv(s) && k in s.pending && !IsReminderTimer(s.pending[k])
    ensures var r := ScheduleSpec(s, title, opts, now, today).0;
            k in r.pending && r.pending[k] == s.pending[k]
  {
    var rid := opts.show.reminderId;
    if Present(rid) && rid.value in s.scheduled {
      assert ScheduledEntryOk(s, rid.value);
    }
  }

  /** `cancelScheduledNotification(h)`: the timer `h`, if any, no longer fires. */
  function CancelSpec(s: ServiceState, h: int): (r: ServiceState)
    ensures r.pending.Keys == s.pending.Keys - {h}
    ensures forall k :: k in r.pending ==> r.pending[k] == s.pending[k]
    ensures r == s.(pending := r.pending)
  {
    s.(pending := s.pending - {h})
  }

  lemma DropTimerPreservesInv(s: ServiceState, h: int)
    requires Inv(s)
    ensures Inv(CancelSpec(s, h))
  {
    var r := CancelSpec(s, h);
    forall k | k in r.pending && IsReminderTimer(r.pending[k]) ensures TrackedBy(r, k) {
      assert TrackedBy(s, k);
    }
    forall x | x in r.scheduled ensures ScheduledEntryOk(r, x) {
      assert ScheduledEntryOk(s, x);
    }
    forall k | k in r.pending && r.pending[k].event.AutoClose? ensures CloseTimerOk(r, r.pending[k].event) {
      assert CloseTimerOk(s, s.pending[k].event);
    }
  }

  /** `cancelAllScheduledNotifications`: every handle in the scheduled map is
      cancelled and the map is left empty. */
  function CancelAllSpec(s: ServiceState): (r: ServiceState)
    ensures r.scheduled == map[]
    ensures r.pending.Keys == s.pending.Keys - s.scheduled.Values
    ensures forall k :: k in r.pending ==> r.pending[k] == s.pending[k]
    ensures r == s.(pending := r.pending, scheduled := map[])
  {
    s.(pending := s.pending - s.scheduled.Values, scheduled := map[])
  }

  /** After cancelling all, no reminder timer with a reminder id is pending,
      and every other timer (auto-close, verification deadline, and reminder
      timers scheduled without an id) survives: nothing cancels a deadline. */
  lemma CancelAllLeavesOnlyUntracked(s: ServiceState)
    requires Inv(s)
    ensures var r := CancelAllSpec(s);
            && Inv(r)
            && (forall h :: h in r.pending ==> !IsReminderTimer(r.pending[h]))
            && (forall h :: h in s.pending && !IsReminderTimer(s.pending[h]) ==> h in r.pending)
  {
    var r := CancelAllSpec(s);
    forall h | h in s.pending && IsReminderTimer(s.pending[h]) ensures h !in r.pending {
      assert TrackedBy(s, h);
      var rid := TimerReminder(s.pending[h]);
      assert s.scheduled[rid] == h;
    }
    forall h | h in s.pending && h in s.scheduled.Values ensures IsReminderTimer(s.pending[h]) {
      var rid :| rid in s.scheduled && s.scheduled[rid] == h;
      assert ScheduledEntryOk(s, rid);
    }
    forall k | k in r.pending && r.pending[k].event.AutoClose? ensures CloseTimerOk(r, r.pending[k].event) {
      assert CloseTimerOk(s, s.pending[k].event);
    }
  }

  /** Forgetting the entry of a reminder that has no pending timer keeps the bookkeeping consistent. */
  lemma ForgetIdlePreservesInv(s: ServiceState, rid: string)
    requires Inv(s) && ReminderTimers(s, rid) == {}
    ensures Inv(s.(scheduled := s.scheduled - {rid}))
  {
    var r := s.(scheduled := s.scheduled - {rid});
    forall k | k in r.pending && IsReminderTimer(r.pending[k]) ensures TrackedBy(r, k) {
      assert TrackedBy(s, k);
      assert k !in ReminderTimers(s, rid);
    }
    forall x | x in r.scheduled ensures ScheduledEntryOk(r, x) {
      assert ScheduledEntryOk(s, x);
    }
    forall k | k in r.pending && r.pending[k].event.AutoClose? ensures CloseTimerOk(r, r.pending[k].event) {
      assert CloseTimerOk(s, s.pending[k].event);
    }
  }

  /** Showing a notification starts no reminder timer. */
  lemma ShowKeepsReminderTimers(s: ServiceState, title: string, opts: ShowOptions, now: int, created: bool, rid: string)
    requires Inv(s)
    ensures ReminderTimers(ShowSpec(s, title, opts, now, created), rid) == ReminderTimers(s, rid)
  {
    var r := ShowSpec(s, title, opts, now, created);
    assert s.nextHandle !in s.pending;
  }

  // ---------------------------------------------------------------------
  // timers elapsing and clicks

  /** The pending timer `h` elapses. A reminder timer shows its notification
      and removes its reminder's entry; an auto-close timer closes its
      notification and forgets its tag; a verification deadline asks for the
      dose to be marked missed and, when that call succeeded (`missedOk`),
      shows the "Medication Missed" notification. `created` is whether the
      `Notification` constructor of that show succeeded. */
  function FireSpec(s: ServiceState, h: int, missedOk: bool, created: bool): (r: ServiceState)
    requires h in s.pending
    ensures r.supported == s.supported && r.permission == s.permission
    ensures s.pending[h].event.AutoClose? ==>
              r == s.(pending := s.pending - {h}, open := s.open - {s.pending[h].event.notice},
                      active := s.active - {s.pending[h].event.closeTag})
    ensures s.pending[h].event.Deadline? ==> r.escalations == s.escalations + [s.pending[h].event.reminderId]
    ensures !s.pending[h].event.Deadline? ==> r.escalations == s.escalations
    // a reminder timer shows its notification, when notifications can be shown
    ensures s.pending[h].event.Fire? && CanDisplay(s) && created ==>
              var o := s.pending[h].event.opts.show;
              && r.notices == s.notices[s.nextNotice := Notice(s.pending[h].event.title, o.body, o.tag, o.requireVerification)]
              && s.nextNotice in r.open
              && (Present(o.tag) ==> o.tag.value in r.active && r.active[o.tag.value] == s.nextNotice)
    ensures s.pending[h].event.Fire? && !CanDisplay(s) ==>
              r.notices == s.notices && r.open == s.open && r.active == s.active
    // a failed construction shows nothing and starts no timer
    ensures s.pending[h].event.Fire? && !created ==>
              r.notices == s.notices && r.pending == s.pending - {h} && r.open <= s.open
    ensures s.pending[h].event.Fire? && Present(s.pending[h].event.opts.show.reminderId) ==>
              r.scheduled == s.scheduled - {s.pending[h].event.opts.show.reminderId.value}
    // a deadline whose escalation succeeded shows the missed-dose notification
    ensures s.pending[h].event.Deadline? && missedOk && CanDisplay(s) && created ==>
              var e := s.pending[h].event;
              && r.notices == s.notices[s.nextNotice := Notice(MissedTitle, MissedOptions(e.title, e.tag).body, Some(MissedTag(e.tag)), false)]
              && s.nextNotice in r.open
              && MissedTag(e.tag) in r.active && r.active[MissedTag(e.tag)] == s.nextNotice
    ensures s.pending[h].event.Deadline? && !(missedOk && CanDisplay(s)) ==>
              r == s.(pending := s.pending - {h}, escalations := r.escalations)
    ensures s.pending[h].event.Deadline? && !created ==>
              r.notices == s.notices && r.pending == s.pending - {h}
  {
    var t := s.pending[h];
    var s1 := CancelSpec(s, h);
    match t.event
    case Fire(title, opts) =>
      var s2 := ShowSpec(s1, title, opts.show, t.due, created);
      if Present(opts.show.reminderId) then s2.(scheduled := s2.scheduled - {opts.show.reminderId.value}) else s2
    case AutoClose(n, tag) =>
      s1.(open := s1.open - {n}, active := s1.active - {tag})
    case Deadline(rid, title, tag) =>
      var s2 := s1.(escalations := s1.escalations + [rid]);
      if missedOk then ShowSpec(s2, MissedTitle, MissedOptions(title, tag), t.due, created) else s2
  }

  lemma FirePreservesInv(s: ServiceState, h: int, missedOk: bool, created: bool)
    requires Inv(s) && h in s.pending
    ensures Inv(FireSpec(s, h, missedOk, created))
  {
    var t := s.pending[h];
    var s1 := CancelSpec(s, h);
    DropTimerPreservesInv(s, h);
    match t.event
    case Fire(title, opts) =>
      ShowPreservesInv(s1, title, opts.show, t.due, created);
      if Present(opts.show.reminderId) {
        var rid := opts.show.reminderId.value;
        AtMostOneTimerPerReminder(s, rid);
        AtMostOneTimerPerReminder(s1, rid);
        assert TrackedBy(s, h);
        ShowKeepsReminderTimers(s1, title, opts.show, t.due, created, rid);
        ForgetIdlePreservesInv(ShowSpec(s1, title, opts.show, t.due, created), rid);
      }
    case AutoClose(n, tag) =>
      var r := FireSpec(s, h, missedOk, created);
      forall k | k in r.pending && IsReminderTimer(r.pending[k]) ensures TrackedBy(r, k) {
        assert TrackedBy(s1, k);
      }
      forall x | x in r.scheduled ensures ScheduledEntryOk(r, x) {
        assert ScheduledEntryOk(s1, x);
      }
      forall x | x in r.active ensures ActiveEntryOk(r, x) {
        assert ActiveEntryOk(s1, x);
      }
      forall k | k in r.pending && r.pending[k].event.AutoClose? ensures CloseTimerOk(r, r.pending[k].event) {
        assert CloseTimerOk(s1, s1.pending[k].event);
      }
    case Deadline(rid, title, tag) =>
      var s2 := s1.(escalations := s1.escalations + [rid]);
      InvIgnoresEscalations(s1, s1.escalations + [rid]);
      ShowPreservesInv(s2, MissedTitle, MissedOptions(title, tag), t.due, created);
  }

  /** When a reminder timer fires, its entry leaves the scheduled map and no
      timer for that reminder is left pending, whether or not its
      notification could be constructed. */
  lemma FiredReminderIsForgotten(s: ServiceState, h: int, missedOk: bool, created: bool)
    requires Inv(s) && h in s.pending && IsReminderTimer(s.pending[h])
    ensures var rid := TimerReminder(s.pending[h]);
            var r := FireSpec(s, h, missedOk, created);
            && rid !in r.scheduled
            && ReminderTimers(r, rid) == {}
  {
    var rid := TimerReminder(s.pending[h]);
    FirePreservesInv(s, h, missedOk, created);
    AtMostOneTimerPerReminder(FireSpec(s, h, missedOk, created), rid);
  }

  /** A reminder timer that elapses while notifications can be shown puts
      up its reminder's notification (open, and tracked under its tag) when
      the construction succeeds, and shows nothing and starts no deadline
      when it fails; either way the reminder is left with neither an entry
      nor a pending timer. */
  lemma FiredReminderShows(s: ServiceState, h: int, missedOk: bool, created: bool)
    requires Inv(s) && CanDisplay(s) && h in s.pending && IsReminderTimer(s.pending[h])
    ensures var e := s.pending[h].event;
            var r := FireSpec(s, h, missedOk, created);
            && (created ==>
                  && r.notices[s.nextNotice] == Notice(e.title, e.opts.show.body, e.opts.show.tag, e.opts.show.requireVerification)
                  && s.nextNotice in r.open
                  && (Present(e.opts.show.tag) ==> r.active[e.opts.show.tag.value] == s.nextNotice))
            && (!created ==> r.notices == s.notices && r.pending == s.pending - {h})
            && TimerReminder(s.pending[h]) !in r.scheduled
            && ReminderTimers(r, TimerReminder(s.pending[h])) == {}
  {
    FiredReminderIsForgotten(s, h, missedOk, created);
  }

  /** A reminder accepted by `scheduleNotification` fires at its target time
      today and then shows the notification it was scheduled with, if its
      construction succeeds. */
  lemma ScheduledReminderShowsAtTarget(s: ServiceState, title: string, opts: ScheduleOptions, now: Clock, today: string,
                                       missedOk: bool, created: bool)
    requires Admits(s, opts, now, today)
    ensures var (r, h) := ScheduleSpec(s, title, opts, now, today);
            && h in r.pending && r.pending[h].due == TargetTime(opts.time)
            && var f := FireSpec(r, h, missedOk, created);
               && (created ==>
                     && f.notices[s.nextNotice] == Notice(title, opts.show.body, opts.show.tag, opts.show.requireVerification)
                     && s.nextNotice in f.open)
               && (Present(opts.show.reminderId) ==> opts.show.reminderId.value !in f.scheduled)
  {
    var (r, h) := ScheduleSpec(s, title, opts, now, today);
    assert r.nextNotice == s.nextNotice;
  }

  /** A click on the open notification `n`: one that needs no verification
      is closed and its tag forgotten; one that needs verification stays. */
  function ClickSpec(s: ServiceState, n: nat): (r: ServiceState)
    requires n in s.notices && n in s.open
    ensures s.notices[n].requireInteraction ==> r == s
    ensures !s.notices[n].requireInteraction ==> n !in r.open
    ensures !s.notices[n].requireInteraction && Present(s.notices[n].tag) ==> s.notices[n].tag.value !in r.active
    ensures r.pending == s.pending && r.scheduled == s.scheduled && r.notices == s.notices
  {
    var notice := s.notices[n];
    if notice.requireInteraction then s
    else
      s.(open := s.open - {n},
         active := if Present(notice.tag) then s.active - {notice.tag.value} else s.active)
  }

  lemma ClickPreservesInv(s: ServiceState, n: nat)
    requires Inv(s) && n in s.notices && n in s.open
    ensures Inv(ClickSpec(s, n))
  {
    var r := ClickSpec(s, n);
    forall k | k in r.pending && IsReminderTimer(r.pending[k]) ensures TrackedBy(r, k) {
      assert TrackedBy(s, k);
    }
    forall x | x in r.scheduled ensures ScheduledEntryOk(r, x) {
      assert ScheduledEntryOk(s, x);
    }
    forall x | x in r.active ensures ActiveEntryOk(r, x) {
      assert ActiveEntryOk(s, x);
    }
    forall k | k in r.pending && r.pending[k].event.AutoClose? ensures CloseTimerOk(r, r.pending[k].event) {
      assert CloseTimerOk(s, s.pending[k].event);
    }
  }

  // ---------------------------------------------------------------------
  // the service object

  class NotificationService {
    const supported: bool
    var permission: Permission
    var activeNotifications: map<string, nat>
    var scheduledNotifications: map<string, int>
    var pending: map<int, Timer>
    var notices: map<nat, Notice>
    var open: set<nat>
    var nextHandle: nat
    var nextNotice: nat
    var escalations: seq<string>

    function State(): ServiceState
      reads this
    {
      ServiceState(supported, permission, activeNotifications, scheduledNotifications,
                          pending, notices, open, nextHandle, nextNotice, escalations)
    }

    /** The bookkeeping invariant. It holds after construction, and every
        method below leaves the state its `...Spec` function gives, which
        the `...PreservesInv` lemmas show keeps the invariant. */
    ghost predicate Valid()
      reads this
    {
      Inv(State())
    }

    /** The browser reports whether notifications exist and their current permission. */
    constructor(supported: bool, browserPermission: Permission)
      ensures Valid() && State() == Initial(supported, browserPermission)
    {
      this.supported := supported;
      permission := if supported then browserPermission else Default;
      activeNotifications, scheduledNotifications := map[], map[];
      pending, notices, open := map[], map[], {};
      nextHandle, nextNotice := 1, 0;
      escalations := [];
    }

    method RequestPermission(answer: PromptAnswer) returns (granted: bool)
      requires Valid()
      modifies this
      ensures (State(), granted) == RequestPermissionSpec(old(State()), answer)
      ensures Valid()
    {
      if !supported {
        return false;
      }
      if permission == Granted {
        return true;
      }
      if permission == Denied {
        return false;
      }
      match answer
      case Answered(p) =>
        permission := p;
        granted := p == Granted;
      case PromptFailed =>
        granted := false;
    }

    /** Starts the timer that closes notification `n` after 6000 ms. */
    method CloseNotification(n: nat, tag: string, now: int)
      requires Valid() && n in notices && tag == TagOrEmpty(notices[n].tag)
      modifies this
      ensures State() == AddTimer(old(State()), Timer(now + AutoCloseMs, AutoClose(n, tag)))
      ensures Valid()
    {
      AddTimerPreservesInv(State(), Timer(now + AutoCloseMs, AutoClose(n, tag)));
      pending := pending[nextHandle := Timer(now + AutoCloseMs, AutoClose(n, tag))];
      nextHandle := nextHandle + 1;
    }

    /** Closes and forgets the notification shown under `tag`, if any. */
    method CloseTagged(tag: Option<string>)
      requires Valid()
      modifies this
      ensures State() == ClosePrior(old(State()), tag)
      ensures Valid()
    {
      ClosePriorPreservesInv(State(), tag);
      if Present(tag) && tag.value in activeNotifications {
        open := open - {activeNotifications[tag.value]};
        activeNotifications := activeNotifications - {tag.value};
      }
    }

    /** Closes the notification shown under the same tag, creates the new
        one and records it under its tag. */
    method Display(title: string, opts: ShowOptions) returns (id: nat)
      requires Valid()
      modifies this
      ensures State() == ShowNotice(old(State()), title, opts)
      ensures id == old(nextNotice) && id in notices && TagOrEmpty(notices[id].tag) == TagOrEmpty(opts.tag)
      ensures Valid()
    {
      ghost var s0 := State();
      ShowNoticePreservesInv(s0, title, opts);
      CloseTagged(opts.tag);
      assert State() == ClosePrior(s0, opts.tag);
      id := nextNotice;
      notices := notices[id := Notice(title, opts.body, opts.tag, opts.requireVerification)];
      open := open + {id};
      nextNotice := id + 1;
      if Present(opts.tag) {
        activeNotifications := activeNotifications[opts.tag.value := id];
      }
      assert State() == ShowNotice(s0, title, opts);
    }

    /** Shows a notification; `created` is whether the `Notification`
        constructor succeeds. When it throws, the error is caught after the
        prior notification under the tag has been closed, and nothing else
        happens. */
    method ShowNotification(title: string, opts: ShowOptions, now: int, created: bool)
      requires Valid()
      modifies this
      ensures State() == ShowSpec(old(State()), title, opts, now, created)
      ensures Valid()
    {
      ghost var s0 := State();
      ShowPreservesInv(s0, title, opts, now, created);
      if !(supported && permission == Granted) {
        return;
      }
      if !created {
        CloseTagged(opts.tag);
        return;
      }
      var id := Display(title, opts);
      ghost var s2 := State();
      ghost var follow := FollowUp(title, opts, s0.nextNotice, now);
      if opts.requireVerification && Present(opts.reminderId) && opts.verificationTimeout != 0 {
        pending := pending[nextHandle := Timer(now + TimerDelay(opts.verificationTimeout * 60 * 1000),
                                               Deadline(opts.reminderId.value, title, opts.tag))];
        nextHandle := nextHandle + 1;
        assert State() == AddTimer(s2, follow.value);
      } else if !opts.requireVerification {
        CloseNotification(id, TagOrEmpty(opts.tag), now);
        assert State() == AddTimer(s2, follow.value);
      }
    }

    method ScheduleNotification(title: string, opts: ScheduleOptions, now: Clock, today: string) returns (handle: int)
      requires Valid()
      modifies this
      ensures (State(), handle) == ScheduleSpec(old(State()), title, opts, now, today)
      ensures Valid()
    {
      ghost var s0 := State();
      if !(supported && permission == Granted) {
        return -1;
      }
      var target := TargetTime(opts.time);
      if target < now {
        return -1;
      }
      if opts.days.Some? && today !in opts.days.value {
        return -1;
      }
      var rid := opts.show.reminderId;
      ClearPrior(rid);
      var delay := target - now;
      handle := nextHandle;
      pending := pending[handle := Timer(now + TimerDelay(delay), Fire(title, opts))];
      nextHandle := nextHandle + 1;
      if Present(rid) {
        scheduledNotifications := scheduledNotifications[rid.value := handle];
      }
      SchedulePreservesInv(s0, title, opts, now, today);
    }

    /** Cancels the timer recorded for reminder `rid`, if any, and forgets the entry. */
    method ClearPrior(rid: Option<string>)
      requires Valid()
      modifies this
      ensures State() == DropReminder(old(State()), rid)
      ensures Valid()
    {
      DropReminderPreservesInv(State(), rid);
      if Present(rid) && rid.value in scheduledNotifications {
        CancelScheduledNotification(scheduledNotifications[rid.value]);
        scheduledNotifications := scheduledNotifications - {rid.value};
      }
    }

    method CancelScheduledNotification(h: int)
      requires Valid()
      modifies this
      ensures State() == CancelSpec(old(State()), h)
      ensures Valid()
    {
      DropTimerPreservesInv(State(), h);
      pending := pending - {h};
    }

    /** Cancels every recorded timer (the order in which they are
        cancelled does not matter: each cancellation removes one timer). */
    method CancelAllScheduledNotifications()
      requires Valid()
      modifies this
      ensures State() == CancelAllSpec(old(State()))
      ensures Valid()
    {
      CancelAllLeavesOnlyUntracked(State());
      pending := pending - scheduledNotifications.Values;
      scheduledNotifications := map[];
    }

    /** The event loop runs the pending timer `h`; `missedOk` is whether the
        reminder service's markMedicationMissed call succeeded, which matters
        only for a verification deadline, and `created` whether the
        notification it shows could be constructed. */
    method FireTimer(h: int, missedOk: bool, created: bool)
      requires Valid() && h in pending
      modifies this
      ensures State() == FireSpec(old(State()), h, missedOk, created)
      ensures Valid()
    {
      match pending[h].event
      case Fire(_, _) => RunReminderTimer(h, created);
      case AutoClose(_, _) => RunAutoCloseTimer(h);
      case Deadline(_, _, _) => RunDeadlineTimer(h, missedOk, created);
    }

    /** The callback of a reminder timer: show the reminder and forget its handle. */
    method RunReminderTimer(h: int, created: bool)
      requires Valid() && h in pending && pending[h].event.Fire?
      modifies this
      ensures State() == FireSpec(old(State()), h, false, created)
      ensures Valid()
    {
      FirePreservesInv(State(), h, false, created);
      var t := pending[h];
      CancelScheduledNotification(h);
      ShowNotification(t.event.title, t.event.opts.show, t.due, created);
      if Present(t.event.opts.show.reminderId) {
        scheduledNotifications := scheduledNotifications - {t.event.opts.show.reminderId.value};
      }
    }

    /** The callback of an auto-close timer: close the notification and drop its tag. */
    method RunAutoCloseTimer(h: int)
      requires Valid() && h in pending && pending[h].event.AutoClose?
      modifies this
      ensures State() == FireSpec(old(State()), h, false, false)
      ensures Valid()
    {
      FirePreservesInv(State(), h, false, false);
      var t := pending[h];
      CancelScheduledNotification(h);
      open := open - {t.event.notice};
      activeNotifications := activeNotifications - {t.event.closeTag};
    }

    /**
     * The callback of a verification deadline: ask for the reminder to be marked
     * missed (`missedOk` is whether that call succeeded) and, if it did, show
     * the missed-dose notification.
     */
    method RunDeadlineTimer(h: int, missedOk: bool, created: bool)
      requires Valid() && h in pending && pending[h].event.Deadline?
      modifies this
      ensures State() == FireSpec(old(State()), h, missedOk, created)
      ensures Valid()
    {
      FirePreservesInv(State(), h, missedOk, created);
      var t := pending[h];
      CancelScheduledNotification(h);
      InvIgnoresEscalations(State(), escalations + [t.event.reminderId]);
      escalations := escalations + [t.event.reminderId];
      if missedOk {
        ShowNotification(MissedTitle, MissedOptions(t.event.title, t.event.tag), t.due, created);
      }
    }

    /** The user clicks the open notification `n`. */
    method Click(n: nat)
      requires Valid() && n in open
      modifies this
      ensures State() == ClickSpec(old(State()), n)
      ensures Valid()
    {
      ClickPreservesInv(State(), n);
      var notice := notices[n];
      if !notice.requireInteraction {
        open := open - {n};
        if Present(notice.tag) {
          activeNotifications := activeNotifications - {notice.tag.value};
        }
      }
    }
  }
}
