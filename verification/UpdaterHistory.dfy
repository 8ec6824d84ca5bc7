/** The updater told field by field and by what happened: when the notification is raised and silenced, which
    version is dismissed, when the snooze window is spent, and that a re-ask is armed for it. */
module UpdaterHistory {
  import opened Basics
  import opened UpdateNotify
  import opened Updater

  const DAY := 86_400_000

  /** A snooze is open from its press until one day later, and one that claims to last longer counts for nothing. */
  predicate WindowIsOpen(s: State, now: int) {
    s.settings.remindLaterUntil.Some? && now < s.settings.remindLaterUntil.value <= now + DAY
  }

  // --- What an event says ---------------------------------------------------------------

  /** The user moves to another ring. */
  predicate SwitchesRing(s: State, e: Event) {
    e.SetChannel? && e.channel != s.settings.channel
  }

  /** The Releases API answers the check that awaits it. */
  predicate ApiDecides(s: State, e: Event) {
    s.capability == Notify && s.flight.Some? && e.ApiAnswers?
  }

  /** The version this event makes ready to act on: one the API names, or one that is downloaded. */
  function Found(s: State, e: Event): Option<string> {
    if ApiDecides(s, e) then e.newer
    else if s.capability == Auto && e.UpdateDownloaded? then Some(e.version)
    else None
  }

  /** The armed re-ask fires, its window is over, and there is an answer to notify from. */
  predicate ReAsks(s: State, t: Tick) {
    && t.event.TimerFires? && s.timer.Some? && !WindowIsOpen(s, t.now)
    && s.status in {UpToDate, Available, Downloading, Ready}
  }

  /** The event takes a pending notification back without raising another. */
  predicate Silences(s: State, e: Event) {
    || e.Launch? || e.Dismiss? || e.RemindLater? || SwitchesRing(s, e)
    || (ApiDecides(s, e) && e.newer.None?)
    || (s.capability == Auto && (e.UpdateAvailable? || e.UpdateNotAvailable? || e.UpdaterError?))
  }

  /** The check in flight is over with this event. */
  predicate EndsCheck(s: State, e: Event) {
    && s.flight.Some?
    && if s.capability == Notify then e.ApiAnswers? || e.ApiFails? else e.CheckSettles?
  }

  // --- One event, field by field --------------------------------------------------------

  /** The notification is pending after an event exactly if the event found a version that is not dismissed
      outside an open window, or re-asks for such a version, or it was pending and nothing silenced it. */
  lemma PendingExactlyWhen(s: State, t: Tick)
    ensures Step(s, t).notifyPending <==>
            if Found(s, t.event).Some? then s.handledVersion != Found(s, t.event) && !WindowIsOpen(s, t.now)
            else if ReAsks(s, t) then
              s.status in {Available, Ready} && s.availableVersion.Some? && s.availableVersion != s.handledVersion
            else s.notifyPending && !Silences(s, t.event)
  {
  }

  /** The version on offer is the last one found or announced; an answer that there is none, another ring and
      a launch clear it. */
  lemma VersionExactlyBy(s: State, t: Tick)
    ensures var e := t.event;
            Step(s, t).availableVersion ==
              if Found(s, e).Some? then Found(s, e)
              else if s.capability == Auto && e.UpdateAvailable? then Some(e.version)
              else if e.Launch? || SwitchesRing(s, e) || ApiDecides(s, e)
                      || (s.capability == Auto && e.UpdateNotAvailable?)
              then None
              else s.availableVersion
  {
  }

  lemma StatusWhenFound(s: State, t: Tick)
    ensures Found(s, t.event).Some? ==> Step(s, t).status == if s.capability == Notify then Available else Ready
  {
  }

  /** Only a dismissal of a version on offer marks one dismissed, and only a launch or another ring forgets it. */
  lemma DismissedExactlyBy(s: State, t: Tick)
    ensures Step(s, t).handledVersion ==
              if t.event.Dismiss? && s.availableVersion.Some? then s.availableVersion
              else if t.event.Launch? || SwitchesRing(s, t.event) then None
              else s.handledVersion
  {
  }

  /** The file always holds the settings as they would be read back. */
  predicate Persisted(s: State) {
    s.file == Normalized(s.settings)
  }

  lemma StepPersists(s: State, t: Tick)
    requires Persisted(s)
    ensures Persisted(Step(s, t))
  {
    hide Persisted;
    EventPersists(s, t.event, t.now);
    TimerPersists(s, t.now);
    hide LaunchStep, StartCheck, SetChannelStep, RemindLaterStep, DismissStep, TimerStep;
    hide ApiStep, EndCheck, UpdaterStep;
  }

  lemma EventPersists(s: State, e: Event, now: int)
    requires Persisted(s)
    ensures Persisted(LaunchStep(s, now)) && Persisted(StartCheck(s, false))
    ensures e.SetChannel? ==> Persisted(SetChannelStep(s, e.channel))
    ensures Persisted(RemindLaterStep(s, now)) && Persisted(DismissStep(s))
    ensures e.ApiAnswers? ==> Persisted(ApiStep(s, e.newer, now))
    ensures s.flight.Some? ==> Persisted(EndCheck(s.(status := Status.Error)))
    ensures Persisted(UpdaterStep(s, e, now))
  {
    hide SnoozeReAskDelay, PendingFor, HasDecidedResult;
  }

  lemma TimerPersists(s: State, now: int)
    requires Persisted(s)
    ensures Persisted(TimerStep(s, now))
  {
    hide PlanSnoozeReAsk, SnoozeReAskDelay, PendingFor;
  }

  /** The event is an answer about the feed: there is a version, or there is none. */
  predicate Decides(s: State, e: Event) {
    ApiDecides(s, e) || (s.capability == Auto && (e.UpdateAvailable? || e.UpdateNotAvailable?))
  }

  /** The time of the last check is the time of an answer; another ring forgets it. The ring is the chosen one. */
  lemma CheckedExactlyBy(s: State, t: Tick)
    requires !t.event.Launch?
    ensures Step(s, t).settings.lastCheckedAt ==
              if Decides(s, t.event) then Some(t.now)
              else if SwitchesRing(s, t.event) then None
              else s.settings.lastCheckedAt
    ensures Step(s, t).settings.channel == if t.event.SetChannel? then t.event.channel else s.settings.channel
  {
    hide Normalized, SnoozeReAskDelay, PlanSnoozeReAsk, PendingFor, HasDecidedResult;
  }

  /** The window is opened by a press for one day, and spent exactly by a re-ask, by the end of a check that owns
      it with an answer, and by another ring. */
  predicate Spends(s: State, t: Tick, status: Status) {
    || ReAsks(s, t) || SwitchesRing(s, t.event)
    || (EndsCheck(s, t.event) && s.flight == Some(true) && status in {UpToDate, Available, Downloading, Ready})
  }

  lemma WindowExactlyBy(s: State, t: Tick)
    requires !t.event.Launch?
    ensures Step(s, t).settings.remindLaterUntil ==
              if t.event.RemindLater? then Some(t.now + DAY)
              else if Spends(s, t, Step(s, t).status) then None
              else s.settings.remindLaterUntil
  {
    if t.event.TimerFires? {
      TimerSpends(s, t.now);
      hide TimerStep, ReAsks;
    } else if t.event.CheckingForUpdate? || t.event.UpdateAvailable? || t.event.UpdateNotAvailable?
              || t.event.DownloadProgress? || t.event.UpdateDownloaded? || t.event.UpdaterError?
              || t.event.CheckSettles? {
      UpdaterEventSpends(s, t.event, t.now);
      hide UpdaterStep;
    } else {
      hide Normalized, SnoozeReAskDelay, PendingFor, UpdaterStep, TimerStep;
    }
  }

  lemma UpdaterEventSpends(s: State, e: Event, now: int)
    ensures var after := UpdaterStep(s, e, now);
            after.settings.remindLaterUntil ==
              if s.capability == Auto && e.CheckSettles? && s.flight == Some(true)
                 && after.status in {UpToDate, Available, Downloading, Ready}
              then None else s.settings.remindLaterUntil
  {
    hide Normalized, PendingFor;
  }

  lemma TimerSpends(s: State, now: int)
    ensures TimerStep(s, now).settings.remindLaterUntil ==
            if ReAsks(s, Tick(now, TimerFires)) then None else s.settings.remindLaterUntil
  {
    hide Normalized;
  }

  /** A relaunch keeps the ring, the last check and the window, whatever was under way. */
  lemma LaunchKeepsSettings(s: State, now: int)
    requires Persisted(s)
    ensures Step(s, Tick(now, Launch)).settings == s.file && Step(s, Tick(now, Launch)).file == s.file
  {
  }

  // --- Checks ---------------------------------------------------------------------------

  /** The window a launch finds in the file, if its time makes sense. */
  function FoundAtLaunch(s: State): Option<int> {
    var until := s.file.remindLaterUntil;
    if until.Some? && until.value > 0 then until else None
  }

  /** The armed re-ask fires after its window without an answer to notify from. */
  predicate AsksForACheck(s: State, t: Tick) {
    && t.event.TimerFires? && s.timer.Some? && !WindowIsOpen(s, t.now)
    && s.status !in {UpToDate, Available, Downloading, Ready}
  }

  /** A launch finds a window that closed while the app was not running. */
  predicate LaunchOwes(s: State, t: Tick) {
    t.event.Launch? && FoundAtLaunch(s).Some? && FoundAtLaunch(s).value <= t.now
  }

  /** A check begins: none is in flight, and the user asks for one, changes the ring, or a reminder is owed. */
  predicate BeginsCheck(s: State, t: Tick) {
    LaunchOwes(s, t)
    || (s.flight.None? && (t.event.CheckNow? || SwitchesRing(s, t.event) || AsksForACheck(s, t)))
  }

  /** One check at a time: it is in flight from its beginning to its end, or to a relaunch, and owns the snooze
      exactly if a reminder was owed when it began. */
  lemma FlightExactlyBy(s: State, t: Tick)
    ensures Step(s, t).flight ==
              if BeginsCheck(s, t) then Some(LaunchOwes(s, t) || AsksForACheck(s, t))
              else if EndsCheck(s, t.event) || t.event.Launch? then None
              else s.flight
  {
    hide PendingFor;
  }

  /** The feed was asked and could not be read, or an update could not be fetched. */
  predicate GoesWrong(s: State, e: Event) {
    if s.capability == Notify then s.flight.Some? && e.ApiFails?
    else e.UpdaterError? || (s.flight.Some? && e.CheckSettles? && e.threw)
  }

  /** The status is the last thing that happened: a check begun, a version found, announced, coming in or absent,
      a failure; a launch and another ring put it back to idle. */
  lemma StatusExactlyBy(s: State, t: Tick)
    ensures var e := t.event;
            var auto := s.capability == Auto;
            Step(s, t).status ==
              if Found(s, e).Some? then (if auto then Ready else Available)
              else if ApiDecides(s, e) || (auto && e.UpdateNotAvailable?) then UpToDate
              else if auto && (e.UpdateAvailable? || e.DownloadProgress?) then Downloading
              else if GoesWrong(s, e) then Status.Error
              else if (auto && e.CheckingForUpdate?) || (!auto && BeginsCheck(s, t)) then Checking
              else if e.Launch? || SwitchesRing(s, e) then Idle
              else s.status
  {
    hide PendingFor;
  }

  /** The re-ask is armed by a press, for one day; a dismissal and another ring disarm it; firing early re-arms it
      for the same moment and firing at or after it does not; a launch arms it for a window still open. */
  lemma TimerExactlyBy(s: State, t: Tick)
    ensures var e, until := t.event, FoundAtLaunch(s);
            Step(s, t).timer ==
              if e.RemindLater? then Some(t.now + DAY)
              else if e.Dismiss? || SwitchesRing(s, e) then None
              else if e.TimerFires? then
                if s.timer.Some? && WindowIsOpen(s, t.now) then s.settings.remindLaterUntil else None
              else if e.Launch? then
                if until.Some? && t.now < until.value <= t.now + DAY then until else None
              else s.timer
  {
    hide PendingFor;
  }

  // --- Dismissals -----------------------------------------------------------------------

  /** The version that was on offer at the last dismissal of one, since the last launch or change of ring. */
  function LastDismissed(tr: Trace, k: nat): Option<string>
    requires k <= |tr.ticks| < |tr.states|
  {
    if k == 0 then tr.states[0].handledVersion
    else
      var s, e := tr.states[k - 1], tr.ticks[k - 1].event;
      if e.Launch? || SwitchesRing(s, e) then None
      else if e.Dismiss? && s.availableVersion.Some? then s.availableVersion
      else LastDismissed(tr, k - 1)
  }

  lemma {:induction false} HandledIsLastDismissed(tr: Trace, k: nat)
    requires IsRun(tr) && k <= |tr.ticks|
    ensures tr.states[k].handledVersion == LastDismissed(tr, k)
  {
    hide Step;
    if k > 0 {
      HandledIsLastDismissed(tr, k - 1);
      assert Linked(tr, k - 1);
      DismissedExactlyBy(tr.states[k - 1], tr.ticks[k - 1]);
    }
  }

  /** Neither a launch nor another ring, and no dismissal of a version other than `v`. */
  ghost predicate StillDismissed(tr: Trace, i: nat, k: nat, v: string)
    requires k <= |tr.ticks| < |tr.states|
  {
    forall m :: i <= m < k ==>
      && !tr.ticks[m].event.Launch? && !SwitchesRing(tr.states[m], tr.ticks[m].event)
      && (tr.ticks[m].event.Dismiss? ==> tr.states[m].availableVersion in {None, Some(v)})
  }

  /** Dismissing an update holds: however many checks find it again, whatever else is found, snoozed and raised
      in between, what is pending afterwards is never that version. */
  lemma {:induction false} DismissalHolds(tr: Trace, j: nat, k: nat, v: string)
    requires IsRun(tr) && j < k <= |tr.ticks|
    requires tr.ticks[j].event == Dismiss && tr.states[j].availableVersion == Some(v)
    requires StillDismissed(tr, j + 1, k, v)
    ensures tr.states[k].handledVersion == Some(v)
    ensures tr.states[k].notifyPending ==>
            tr.states[k].availableVersion.Some? && tr.states[k].availableVersion != Some(v)
    decreases k
  {
    hide Step, WindowIsOpen;
    var s, t := tr.states[k - 1], tr.ticks[k - 1];
    if k > j + 1 {
      DismissalHolds(tr, j, k - 1, v);
    }
    assert Linked(tr, k - 1);
    PendingExactlyWhen(s, t);
    VersionExactlyBy(s, t);
    DismissedExactlyBy(s, t);
  }

  /** And any other version a check finds is raised, outside an open window: on every run, what is found is
      pending exactly if it is not the version last dismissed and no window is open. */
  lemma FoundIsRaisedExactlyWhen(tr: Trace, k: nat, v: string)
    requires IsRun(tr) && k < |tr.ticks| && Found(tr.states[k], tr.ticks[k].event) == Some(v)
    ensures var before, after := tr.states[k], tr.states[k + 1];
            && after.availableVersion == Some(v) && after.status in {Available, Ready}
            && (after.notifyPending <==> LastDismissed(tr, k) != Some(v) && !WindowIsOpen(before, tr.ticks[k].now))
  {
    assert Linked(tr, k);
    HandledIsLastDismissed(tr, k);
    PendingExactlyWhen(tr.states[k], tr.ticks[k]);
    VersionExactlyBy(tr.states[k], tr.ticks[k]);
    StatusWhenFound(tr.states[k], tr.ticks[k]);
    hide Step;
  }

  // --- The re-ask -----------------------------------------------------------------------

  /** A window that is not spent has its re-ask armed for the very moment it closes. */
  ghost predicate Armed(s: State, t0: int, now: int) {
    && s.file.remindLaterUntil == s.settings.remindLaterUntil
    && (s.settings.remindLaterUntil.Some? ==>
          && s.timer == s.settings.remindLaterUntil
          && t0 + DAY <= s.settings.remindLaterUntil.value <= now + DAY)
  }

  lemma StepStaysArmed(s: State, t: Tick, t0: int, before: int)
    requires Armed(s, t0, before) && 0 <= t0 <= before <= t.now < t0 + DAY
    requires !t.event.Dismiss? && !SwitchesRing(s, t.event)
    ensures Armed(Step(s, t), t0, t.now)
  {
  }

  /** From the press to the end of its day, through checks, further presses and relaunches, the re-ask stays
      armed for the end of the window unless the window is spent; only a dismissal or another ring disarms it. */
  lemma {:induction false} ReAskStaysArmed(tr: Trace, j: nat, k: nat)
    requires IsRun(tr) && j < k <= |tr.ticks| && tr.ticks[j].event == RemindLater && tr.ticks[j].now >= 0
    requires forall m :: j < m < k ==>
      && tr.ticks[m].now < tr.ticks[j].now + DAY
      && !tr.ticks[m].event.Dismiss? && !SwitchesRing(tr.states[m], tr.ticks[m].event)
    ensures Armed(tr.states[k], tr.ticks[j].now, tr.ticks[k - 1].now)
    decreases k
  {
    assert Linked(tr, k - 1);
    if k > j + 1 {
      hide Step, Armed, SwitchesRing;
      ReAskStaysArmed(tr, j, k - 1);
      StepStaysArmed(tr.states[k - 1], tr.ticks[k - 1], tr.ticks[j].now, tr.ticks[k - 2].now);
    }
  }

  /** Another ring starts afresh, with a check under way. */
  lemma AnotherRingStartsAfresh(s: State, t: Tick)
    requires SwitchesRing(s, t.event)
    ensures var after := Step(s, t);
            && after.settings == Settings(t.event.channel, None, None) == after.file
            && !after.notifyPending && after.availableVersion == None && after.handledVersion == None
            && after.timer == None && after.flight.Some? && (s.flight.Some? ==> after.flight == s.flight)
  {
  }
}
