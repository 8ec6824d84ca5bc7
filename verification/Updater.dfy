/** The notification and snooze machine of the updater (electron/updater.ts). Each IPC handler, timer and
    updater event is one step; code between two awaits runs undisturbed. */
module Updater {
  import opened Basics
  import opened UpdateNotify

  datatype Channel = Stable | Preview

  datatype Capability = Auto | Notify

  datatype Settings = Settings(channel: Channel, lastCheckedAt: Option<int>, remindLaterUntil: Option<int>)

  /** `timer` is the moment the re-ask is armed for; `flight` is the check being awaited, if any, and
      whether its answer spends the snooze window. */
  datatype State = State(
    capability: Capability,
    settings: Settings,
    file: Settings,
    status: Status,
    availableVersion: Option<string>,
    notifyPending: bool,
    handledVersion: Option<string>,
    timer: Option<int>,
    flight: Option<bool>)

  datatype Event =
    | Launch
    | CheckNow
    | SetChannel(channel: Channel)
    | RemindLater
    | Dismiss
    | TimerFires
    | ApiAnswers(newer: Option<string>)
    | ApiFails
    | CheckingForUpdate
    | UpdateAvailable(version: string)
    | UpdateNotAvailable
    | DownloadProgress
    | UpdateDownloaded(version: string)
    | UpdaterError
    | CheckSettles(threw: bool)

  datatype Tick = Tick(now: int, event: Event)

  /** Settings survive a write and a read with only positive times. */
  function Positive(t: Option<int>): Option<int> {
    if t.Some? && t.value > 0 then t else None
  }

  function Normalized(s: Settings): Settings {
    s.(lastCheckedAt := Positive(s.lastCheckedAt), remindLaterUntil := Positive(s.remindLaterUntil))
  }

  function Save(s: State, settings: Settings): State {
    s.(settings := settings, file := Normalized(settings))
  }

  function PendingFor(s: State, status: Status, version: Option<string>, now: int): bool {
    ShouldNotify(status, version, s.settings.remindLaterUntil, s.handledVersion, now)
  }

  function Arm(s: State, now: int): State {
    var delay := SnoozeReAskDelay(s.settings.remindLaterUntil, now);
    s.(timer := if delay.Some? then Some(now + delay.value) else None)
  }

  function Consume(s: State): State {
    if s.settings.remindLaterUntil.None? then s else Save(s, s.settings.(remindLaterUntil := None))
  }

  function MarkChecked(s: State, now: int): State {
    Save(s, s.settings.(lastCheckedAt := Some(now)))
  }

  /** `runCheck` until it awaits. With a check already in flight it returns at once, and an owning
      caller goes straight on to look for a decided answer. */
  function StartCheck(s: State, owning: bool): State {
    if s.flight.Some? then (if owning && HasDecidedResult(s.status) then Consume(s) else s)
    else s.(flight := Some(owning), status := if s.capability == Notify then Checking else s.status)
  }

  /** The rest of `runCheck`, and of `runCheckOwningSnooze` if that called it. */
  function EndCheck(s: State): State {
    var t := s.(flight := None);
    if s.flight == Some(true) && HasDecidedResult(s.status) then Consume(t) else t
  }

  function LaunchStep(s: State, now: int): State {
    var settings := Normalized(s.file);
    var t := Arm(State(s.capability, settings, s.file, Idle, None, false, None, None, None), now);
    if SnoozeClosedBefore(settings.remindLaterUntil, now) then StartCheck(t, true) else t
  }

  function SetChannelStep(s: State, channel: Channel): State {
    if channel == s.settings.channel then s
    else
      var t := Save(s.(handledVersion := None, timer := None), Settings(channel, None, None));
      StartCheck(t.(status := Idle, availableVersion := None, notifyPending := false), false)
  }

  function RemindLaterStep(s: State, now: int): State {
    Arm(Save(s, s.settings.(remindLaterUntil := Some(now + REMIND_LATER_MS))).(notifyPending := false), now)
  }

  function DismissStep(s: State): State {
    s.(timer := None, notifyPending := false,
       handledVersion := if s.availableVersion.Some? then s.availableVersion else s.handledVersion)
  }

  function TimerStep(s: State, now: int): State {
    if s.timer.None? then s
    else
      var t := s.(timer := None);
      match PlanSnoozeReAsk(t.status, t.availableVersion, t.settings.remindLaterUntil, t.handledVersion, now)
      case Wait => Arm(t, now)
      case Check => StartCheck(t, true)
      case Publish => var u := Consume(t); u.(notifyPending := PendingFor(u, u.status, u.availableVersion, now))
  }

  /** What the Releases API's answer publishes, when one is awaited. */
  function ApiStep(s: State, newer: Option<string>, now: int): State {
    if s.capability != Notify || s.flight.None? then s
    else
      var t := MarkChecked(s, now);
      EndCheck(t.(status := if newer.Some? then Available else UpToDate, availableVersion := newer,
                  notifyPending := newer.Some? && PendingFor(t, Available, newer, now)))
  }

  /** electron-updater's own events; they arrive whenever it likes. */
  function UpdaterStep(s: State, e: Event, now: int): State {
    if s.capability != Auto then s
    else
      match e
      case CheckingForUpdate => s.(status := Checking)
      case UpdateAvailable(v) =>
        var t := MarkChecked(s, now);
        t.(status := Downloading, availableVersion := Some(v),
            notifyPending := PendingFor(t, Downloading, Some(v), now))
      case UpdateNotAvailable =>
        MarkChecked(s, now).(status := UpToDate, availableVersion := None, notifyPending := false)
      case DownloadProgress => s.(status := Downloading)
      case UpdateDownloaded(v) =>
        s.(status := Ready, availableVersion := Some(v), notifyPending := PendingFor(s, Ready, Some(v), now))
      case UpdaterError => s.(status := Error, notifyPending := false)
      case CheckSettles(threw) =>
        if s.flight.None? then s else EndCheck(if threw then s.(status := Error) else s)
      case _ => s
  }

  function Step(s: State, t: Tick): State {
    match t.event
    case Launch => LaunchStep(s, t.now)
    case CheckNow => StartCheck(s, false)
    case SetChannel(channel) => SetChannelStep(s, channel)
    case RemindLater => RemindLaterStep(s, t.now)
    case Dismiss => DismissStep(s)
    case TimerFires => TimerStep(s, t.now)
    case ApiAnswers(newer) => ApiStep(s, newer, t.now)
    case ApiFails => if s.capability != Notify || s.flight.None? then s else EndCheck(s.(status := Error))
    case _ => UpdaterStep(s, t.event, t.now)
  }

  // --- The module's own variables ----------------------------------------------------

  class Updater {
    const capability: Capability
    var settings: Settings
    var settingsFile: Settings
    var status: Status
    var availableVersion: Option<string>
    var notifyPending: bool
    var handledVersion: Option<string>
    var snoozeTimer: Option<int>
    var flight: Option<bool>

    ghost function View(): State
      reads this
    {
      State(capability, settings, settingsFile, status, availableVersion, notifyPending, handledVersion, snoozeTimer,
          flight)
    }

    /** `initUpdater`: a new process over the persisted settings. */
    constructor (capability: Capability, file: Settings, now: int)
      ensures View() == LaunchStep(State(capability, file, file, Idle, None, false, None, None, None), now)
    {
      this.capability := capability;
      settingsFile, settings := file, Normalized(file);
      status, availableVersion, notifyPending, handledVersion := Idle, None, false, None;
      snoozeTimer, flight := None, None;
      new;
      ArmSnoozeReAsk(now);
      if SnoozeClosedBefore(settings.remindLaterUntil, now) {
        RunCheck(true);
      }
    }

    method WriteSettings(next: Settings)
      modifies this
      ensures View() == Save(old(View()), next)
    {
      settings := next;
      settingsFile := Normalized(next);
    }

    method ArmSnoozeReAsk(now: int)
      modifies this
      ensures View() == Arm(old(View()), now)
    {
      snoozeTimer := None;
      var delay := SnoozeReAskDelay(settings.remindLaterUntil, now);
      if delay.None? {
        return;
      }
      snoozeTimer := Some(now + delay.value);
    }

    method ConsumeSnoozeWindow()
      modifies this
      ensures View() == Consume(old(View()))
    {
      if settings.remindLaterUntil.None? {
        return;
      }
      WriteSettings(settings.(remindLaterUntil := None));
    }

    /** `runCheck` or, owning, `runCheckOwningSnooze`, up to the await. */
    method RunCheck(owning: bool)
      modifies this
      ensures View() == StartCheck(old(View()), owning)
    {
      if flight.Some? {
        if owning && HasDecidedResult(status) {
          ConsumeSnoozeWindow();
        }
        return;
      }
      flight := Some(owning);
      if capability == Notify {
        status := Checking;
      }
    }

    method FinishCheck()
      requires flight.Some?
      modifies this
      ensures View() == EndCheck(old(View()))
    {
      var owning := flight.value;
      flight := None;
      if owning && HasDecidedResult(status) {
        ConsumeSnoozeWindow();
      }
    }

    method OnRemindLater(now: int)
      modifies this
      ensures View() == Step(old(View()), Tick(now, RemindLater))
    {
      WriteSettings(settings.(remindLaterUntil := Some(now + REMIND_LATER_MS)));
      notifyPending := false;
      ArmSnoozeReAsk(now);
    }

    method OnDismiss(now: int)
      modifies this
      ensures View() == Step(old(View()), Tick(now, Dismiss))
    {
      snoozeTimer := None;
      if availableVersion.Some? {
        handledVersion := availableVersion;
      }
      notifyPending := false;
    }

    method OnSetChannel(channel: Channel, now: int)
      modifies this
      ensures View() == Step(old(View()), Tick(now, SetChannel(channel)))
    {
      if channel == settings.channel {
        return;
      }
      handledVersion := None;
      snoozeTimer := None;
      WriteSettings(Settings(channel, None, None));
      status, availableVersion, notifyPending := Idle, None, false;
      RunCheck(false);
    }

    method OnSnoozeReAskFired(now: int)
      requires snoozeTimer.Some?
      modifies this
      ensures View() == Step(old(View()), Tick(now, TimerFires))
    {
      snoozeTimer := None;
      match PlanSnoozeReAsk(status, availableVersion, settings.remindLaterUntil, handledVersion, now) {
        case Wait => ArmSnoozeReAsk(now);
        case Check => RunCheck(true);
        case Publish =>
          ConsumeSnoozeWindow();
          notifyPending := ShouldNotify(status, availableVersion, settings.remindLaterUntil, handledVersion, now);
      }
    }

    /** The rest of `checkViaReleasesApi` once the list is in; `newer` is the version worth telling. */
    method OnReleases(newer: Option<string>, now: int)
      requires capability == Notify && flight.Some?
      modifies this
      ensures View() == Step(old(View()), Tick(now, ApiAnswers(newer)))
    {
      WriteSettings(settings.(lastCheckedAt := Some(now)));
      if newer.Some? {
        status, availableVersion := Available, newer;
        notifyPending := ShouldNotify(Available, newer, settings.remindLaterUntil, handledVersion, now);
      } else {
        status, availableVersion, notifyPending := UpToDate, None, false;
      }
      FinishCheck();
    }

    method OnReleasesFailed(now: int)
      requires capability == Notify && flight.Some?
      modifies this
      ensures View() == Step(old(View()), Tick(now, ApiFails))
    {
      status := Status.Error;
      FinishCheck();
    }

    /** `checkForUpdates()` settles; `threw` says how. */
    method OnCheckSettled(threw: bool, now: int)
      requires capability == Auto && flight.Some?
      modifies this
      ensures View() == Step(old(View()), Tick(now, CheckSettles(threw)))
    {
      if threw {
        status := Status.Error;
      }
      FinishCheck();
    }

    method OnUpdateNotAvailable(now: int)
      requires capability == Auto
      modifies this
      ensures View() == Step(old(View()), Tick(now, UpdateNotAvailable))
    {
      WriteSettings(settings.(lastCheckedAt := Some(now)));
      status, availableVersion, notifyPending := UpToDate, None, false;
    }

    method OnUpdaterError(now: int)
      requires capability == Auto
      modifies this
      ensures View() == Step(old(View()), Tick(now, UpdaterError))
    {
      status, notifyPending := Status.Error, false;
    }

    method OnUpdateDownloaded(version: string, now: int)
      requires capability == Auto
      modifies this
      ensures View() == Step(old(View()), Tick(now, UpdateDownloaded(version)))
    {
      status, availableVersion := Ready, Some(version);
      notifyPending := ShouldNotify(Ready, Some(version), settings.remindLaterUntil, handledVersion, now);
    }

    method OnUpdateAvailable(version: string, now: int)
      requires capability == Auto
      modifies this
      ensures View() == Step(old(View()), Tick(now, UpdateAvailable(version)))
    {
      WriteSettings(settings.(lastCheckedAt := Some(now)));
      status, availableVersion := Downloading, Some(version);
      notifyPending := ShouldNotify(Downloading, Some(version), settings.remindLaterUntil, handledVersion, now);
    }
  }

  // --- "Remind me later" -------------------------------------------------------------

  datatype Trace = Trace(states: seq<State>, ticks: seq<Tick>)

  ghost predicate Linked(tr: Trace, k: nat) {
    k < |tr.ticks| && k + 1 < |tr.states| && tr.states[k + 1] == Step(tr.states[k], tr.ticks[k])
  }

  ghost predicate IsRun(tr: Trace) {
    && |tr.states| == |tr.ticks| + 1
    && (forall k: nat :: k < |tr.ticks| ==> Linked(tr, k))
    // The clock never goes back.
    && (forall i, j :: 0 <= i < j < |tr.ticks| ==> tr.ticks[i].now <= tr.ticks[j].now)
  }

  /** A run that begins with the press at `t0` in state `s` and, so far, stays inside the window and on
      the ring. */
  ghost predicate AfterPress(tr: Trace, s: State, t0: int) {
    && IsRun(tr) && |tr.ticks| >= 1 && tr.states[0] == s && tr.ticks[0] == Tick(t0, RemindLater)
    && (forall k :: 0 <= k < |tr.ticks| ==> tr.ticks[k].now < t0 + REMIND_LATER_MS)
    && (forall k :: 0 <= k < |tr.ticks| && tr.ticks[k].event.SetChannel? ==>
          tr.ticks[k].event.channel == tr.states[k].settings.channel)
  }

  /** Silence, with the window persisted and nothing under way that would spend it. */
  ghost predicate Quiet(s: State, t0: int, now: int) {
    && !s.notifyPending && s.flight != Some(true)
    && s.settings.remindLaterUntil.Some?
    && s.file.remindLaterUntil == s.settings.remindLaterUntil
    && t0 + REMIND_LATER_MS <= s.settings.remindLaterUntil.value <= now + REMIND_LATER_MS
  }

  lemma PressIsQuiet(s: State, t0: int)
    requires s.flight != Some(true) && t0 >= 0
    ensures Quiet(Step(s, Tick(t0, RemindLater)), t0, t0)
  {
  }

  lemma StepStaysQuiet(s: State, t: Tick, t0: int, before: int)
    requires Quiet(s, t0, before) && 0 <= t0 <= before <= t.now < t0 + REMIND_LATER_MS
    requires t.event.SetChannel? ==> t.event.channel == s.settings.channel
    ensures Quiet(Step(s, t), t0, t.now)
  {
  }

  lemma {:induction false} RunStaysQuiet(tr: Trace, s: State, t0: int, k: nat)
    requires AfterPress(tr, s, t0) && s.flight != Some(true) && t0 >= 0 && 1 <= k <= |tr.ticks|
    ensures Quiet(tr.states[k], t0, tr.ticks[k - 1].now)
  {
    hide Step, Quiet;
    assert Linked(tr, k - 1);
    if k == 1 {
      PressIsQuiet(s, t0);
    } else {
      RunStaysQuiet(tr, s, t0, k - 1);
      StepStaysQuiet(tr.states[k - 1], tr.ticks[k - 1], t0, tr.ticks[k - 2].now);
    }
  }

  /** The promise of "Remind me later": on every run after the press, through checks, downloads,
      dismissals, early timers and relaunches, nothing is pending until the window closes or the ring
      is switched. */
  ghost predicate PromiseKept(s: State, t0: int) {
    forall tr :: AfterPress(tr, s, t0) ==> !tr.states[|tr.ticks|].notifyPending
  }

  function UnhandledVersion(s: State): string {
    if s.handledVersion == Some("1.0.0") then "1.0.1" else "1.0.0"
  }

  /** A run that breaks it: the check in flight finds an update and spends the fresh window, and the next
      check finds it again and asks. */
  function Breaking(s: State, t0: int): (ticks: seq<Tick>)
    ensures |ticks| >= 1 && ticks[0] == Tick(t0, RemindLater)
    ensures forall k :: 0 <= k < |ticks| ==> ticks[k].now == t0 && !ticks[k].event.SetChannel?
  {
    var v := UnhandledVersion(s);
    if s.capability == Notify then
      [Tick(t0, RemindLater), Tick(t0, ApiAnswers(Some(v))), Tick(t0, CheckNow), Tick(t0, ApiAnswers(Some(v)))]
    else
      [Tick(t0, RemindLater), Tick(t0, UpdateDownloaded(v)), Tick(t0, CheckSettles(false)), Tick(t0, CheckNow),
       Tick(t0, CheckingForUpdate), Tick(t0, UpdateAvailable(v)), Tick(t0, UpdateDownloaded(v))]
  }

  /** The check in flight spends the window. */
  lemma WindowSpent(s: State, t0: int)
    requires s.flight == Some(true)
    ensures var v := UnhandledVersion(s);
            var pressed := Step(s, Tick(t0, RemindLater));
            var found := if s.capability == Notify then Step(pressed, Tick(t0, ApiAnswers(Some(v))))
                         else Step(Step(pressed, Tick(t0, UpdateDownloaded(v))), Tick(t0, CheckSettles(false)));
            && found.settings.remindLaterUntil.None? && found.handledVersion == s.handledVersion
            && found.capability == s.capability && found.flight.None?
  {
    hide UnhandledVersion;
  }

  lemma NextCheckAsks(t: State, t0: int, v: string)
    requires t.settings.remindLaterUntil.None? && t.handledVersion != Some(v) && t.flight.None?
    ensures t.capability == Notify ==> Step(Step(t, Tick(t0, CheckNow)), Tick(t0, ApiAnswers(Some(v)))).notifyPending
    ensures t.capability == Auto ==>
      Step(Step(Step(Step(t, Tick(t0, CheckNow)), Tick(t0, CheckingForUpdate)), Tick(t0, UpdateAvailable(v))),
           Tick(t0, UpdateDownloaded(v))).notifyPending
  {
  }

  lemma OwningCheckBreaksThePromise(s: State, t0: int) returns (tr: Trace)
    requires s.flight == Some(true)
    ensures AfterPress(tr, s, t0) && tr.states[|tr.ticks|].notifyPending
  {
    hide Step;
    var v := UnhandledVersion(s);
    var s1 := Step(s, Tick(t0, RemindLater));
    WindowSpent(s, t0);
    if s.capability == Notify {
      var s2 := Step(s1, Tick(t0, ApiAnswers(Some(v))));
      NextCheckAsks(s2, t0, v);
      var s3 := Step(s2, Tick(t0, CheckNow));
      var s4 := Step(s3, Tick(t0, ApiAnswers(Some(v))));
      tr := Trace([s, s1, s2, s3, s4], Breaking(s, t0));
      assert Linked(tr, 0) && Linked(tr, 1) && Linked(tr, 2) && Linked(tr, 3);
    } else {
      var s2 := Step(s1, Tick(t0, UpdateDownloaded(v)));
      var s3 := Step(s2, Tick(t0, CheckSettles(false)));
      NextCheckAsks(s3, t0, v);
      var s4 := Step(s3, Tick(t0, CheckNow));
      var s5 := Step(s4, Tick(t0, CheckingForUpdate));
      var s6 := Step(s5, Tick(t0, UpdateAvailable(v)));
      var s7 := Step(s6, Tick(t0, UpdateDownloaded(v)));
      tr := Trace([s, s1, s2, s3, s4, s5, s6, s7], Breaking(s, t0));
      assert Linked(tr, 0) && Linked(tr, 1) && Linked(tr, 2) && Linked(tr, 3);
      assert Linked(tr, 4) && Linked(tr, 5) && Linked(tr, 6);
    }
  }

  /** A launch has an owning check in flight exactly when the persisted window closed while the app was not
      running. Pressing "Remind me later" before that check settles is how the promise breaks. */
  lemma LaunchOwnsTheCheckExactlyWhen(s: State, now: int)
    ensures Step(s, Tick(now, Launch)).flight == Some(true)
            <==> SnoozeClosedBefore(Normalized(s.file).remindLaterUntil, now)
  {
  }

  lemma ALaunchedAppBreaksThePromise(s: State, now: int) returns (tr: Trace)
    requires SnoozeClosedBefore(Normalized(s.file).remindLaterUntil, now)
    ensures AfterPress(tr, Step(s, Tick(now, Launch)), now) && tr.states[|tr.ticks|].notifyPending
  {
    LaunchOwnsTheCheckExactlyWhen(s, now);
    tr := OwningCheckBreaksThePromise(Step(s, Tick(now, Launch)), now);
  }

  /** The promise holds exactly when no check that owns the snooze was in flight at the press. */
  lemma RemindLaterHolds(s: State, t0: int)
    requires t0 >= 0
    ensures PromiseKept(s, t0) <==> s.flight != Some(true)
  {
    hide Step, Quiet;
    if s.flight == Some(true) {
      var tr := OwningCheckBreaksThePromise(s, t0);
    } else {
      forall tr | AfterPress(tr, s, t0) ensures !tr.states[|tr.ticks|].notifyPending {
        RunStaysQuiet(tr, s, t0, |tr.ticks|);
        QuietIsSilent(tr.states[|tr.ticks|], t0, tr.ticks[|tr.ticks| - 1].now);
      }
    }
  }

  lemma QuietIsSilent(s: State, t0: int, now: int)
    requires Quiet(s, t0, now)
    ensures !s.notifyPending
  {
  }

  /** The other half of the bargain: when the armed re-ask fires after the window, an update the user
      can act on and has not acted on is raised, and the window is spent so no later launch asks again.
      A fire inside the window only re-arms for the same moment. */
  lemma ReAskDelivers(s: State, now: int)
    requires s.timer.Some? && s.settings.remindLaterUntil.Some?
    requires s.settings.remindLaterUntil.value - now <= REMIND_LATER_MS
    ensures var s' := Step(s, Tick(now, TimerFires));
            if now < s.settings.remindLaterUntil.value then
              s' == s.(timer := s.settings.remindLaterUntil)
            else if HasDecidedResult(s.status) then
              && s'.notifyPending
                  == (IsNotifiable(s.status) && s.availableVersion.Some? && s.handledVersion != s.availableVersion)
              && s'.settings.remindLaterUntil.None? && s'.file.remindLaterUntil.None?
              && !SnoozeClosedBefore(Normalized(s'.file).remindLaterUntil, now)
            else
              s.flight.None? ==> s'.flight == Some(true) && s'.settings == s.settings
  {
  }
}
