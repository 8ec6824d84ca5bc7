/** The state machine behind the heartbeat checks (electron/diagnostics.ts), and the history of inputs
    it is meant to summarise. */
module Liveness {
  import opened Basics

  type Millis = real

  const HEARTBEAT_INTERVAL_MS: Millis := 5_000.0

  datatype Thresholds = Thresholds(visibleStallMs: Millis, hiddenStallMs: Millis, frameStallMs: Millis,
      mainLagMs: Millis)

  datatype Lag = Lag(since: Millis, lateChecks: nat, worstLateBy: Millis)

  datatype Monitor = Monitor(
    lastBeatAt: Option<Millis>,
    lastVisible: bool,
    lastCheckAt: Option<Millis>,
    suspended: bool,
    heartbeatStallSince: Option<Millis>,
    frameStallSince: Option<Millis>,
    mainLag: Option<Lag>,
    beats: nat,
    maxBeatGap: Millis,
    maxFrameWait: Millis,
    stalls: nat)

  const FRESH := Monitor(None, true, None, false, None, None, None, 0, 0.0, 0.0, 0)

  datatype Input =
    | Beat(now: Millis, visible: bool, frameWait: Millis)
    | Check(now: Millis)
    | Suspend
    | Resume(now: Millis)
    | ResetRenderer
    | TakeSummary

  datatype Report =
    | HeartbeatMissed(sinceLastBeat: Millis, lastVisible: bool)
    | HeartbeatRecovered(stalledFor: Millis)
    | FramesStalled(frameWait: Millis)
    | FramesRecovered(stalledFor: Millis, visible: bool)
    | MainStalled(lateBy: Millis)
    | MainRecovered(lateChecks: nat, worstLateBy: Millis, laggingFor: Millis)
    | Summary(beats: nat, maxBeatGap: Millis, maxFrameWait: Millis, stalls: nat, stalledNow: bool)

  function Max(a: Millis, b: Millis): (max: Millis)
    ensures max >= a && max >= b && (max == a || max == b)
  {
    if a < b then b else a
  }

  function BeatStep(t: Thresholds, m: Monitor, now: Millis, visible: bool, frameWait: Millis): (Monitor, seq<Report>) {
    var recovered := if m.heartbeatStallSince.Some? then [HeartbeatRecovered(now - m.heartbeatStallSince.value)]
        else [];
    var n := m.(
      maxBeatGap := if m.lastBeatAt.Some? then Max(m.maxBeatGap, now - m.lastBeatAt.value) else m.maxBeatGap,
      heartbeatStallSince := None, lastBeatAt := Some(now), lastVisible := visible, beats := m.beats + 1,
      maxFrameWait := Max(m.maxFrameWait, frameWait));
    if visible && frameWait >= t.frameStallMs && m.frameStallSince.None? then
      (n.(frameStallSince := Some(now - frameWait), stalls := m.stalls + 1), recovered + [FramesStalled(frameWait)])
    else if m.frameStallSince.Some? && frameWait < t.frameStallMs then
      (n.(frameStallSince := None), recovered + [FramesRecovered(now - m.frameStallSince.value, visible)])
    else (n, recovered)
  }

  /** The main loop's own lateness: the lag after the check, and what is reported. */
  function LagStep(t: Thresholds, m: Monitor, now: Millis): (Option<Lag>, seq<Report>) {
    if m.lastCheckAt.None? || m.suspended then (m.mainLag, [])
    else
      var lateBy := now - m.lastCheckAt.value - HEARTBEAT_INTERVAL_MS;
      if lateBy >= t.mainLagMs then
        match m.mainLag
        case None => (Some(Lag(m.lastCheckAt.value, 1, lateBy)), [MainStalled(lateBy)])
        case Some(l) => (Some(Lag(l.since, l.lateChecks + 1, Max(l.worstLateBy, lateBy))), [])
      else
        match m.mainLag
        case None => (None, [])
        case Some(l) => (None, [MainRecovered(l.lateChecks, l.worstLateBy, m.lastCheckAt.value - l.since)])
  }

  function CheckStep(t: Thresholds, m: Monitor, now: Millis): (Monitor, seq<Report>) {
    var (lag, reports) := LagStep(t, m, now);
    var n := m.(mainLag := lag, lastCheckAt := Some(now));
    var limit := if m.lastVisible then t.visibleStallMs else t.hiddenStallMs;
    if m.suspended || m.lastBeatAt.None? || m.heartbeatStallSince.Some? || now - m.lastBeatAt.value < limit
    then (n, reports)
    else
      (n.(heartbeatStallSince := m.lastBeatAt, stalls := m.stalls + 1),
       reports + [HeartbeatMissed(now - m.lastBeatAt.value, m.lastVisible)])
  }

  function Step(t: Thresholds, m: Monitor, input: Input): (Monitor, seq<Report>) {
    match input
    case Beat(now, visible, frameWait) => BeatStep(t, m, now, visible, frameWait)
    case Check(now) => CheckStep(t, m, now)
    case Suspend => (m.(suspended := true), [])
    case Resume(now) =>
      (m.(suspended := false, mainLag := None, lastCheckAt := Some(now),
          lastBeatAt := if m.lastBeatAt.Some? then Some(now) else None), [])
    case ResetRenderer =>
      (m.(lastBeatAt := None, heartbeatStallSince := None, frameStallSince := None, lastVisible := true), [])
    case TakeSummary =>
      (m.(beats := 0, maxBeatGap := 0.0, maxFrameWait := 0.0, stalls := 0),
       [Summary(m.beats, m.maxBeatGap, m.maxFrameWait, m.stalls,
                m.heartbeatStallSince.Some? || m.frameStallSince.Some?)])
  }

  class LivenessMonitor {
    const t: Thresholds
    var lastBeatAt: Option<Millis>
    var lastVisible: bool
    var lastCheckAt: Option<Millis>
    var suspended: bool
    var heartbeatStallSince: Option<Millis>
    var frameStallSince: Option<Millis>
    var mainLag: Option<Lag>
    var beats: nat
    var maxBeatGapMs: Millis
    var maxFrameWaitMs: Millis
    var stalls: nat

    ghost function View(): Monitor
      reads this
    {
      Monitor(lastBeatAt, lastVisible, lastCheckAt, suspended, heartbeatStallSince, frameStallSince, mainLag,
              beats, maxBeatGapMs, maxFrameWaitMs, stalls)
    }

    constructor (t: Thresholds)
      ensures this.t == t && View() == FRESH
    {
      this.t := t;
      lastBeatAt, lastVisible, lastCheckAt, suspended := None, true, None, false;
      heartbeatStallSince, frameStallSince, mainLag := None, None, None;
      beats, maxBeatGapMs, maxFrameWaitMs, stalls := 0, 0.0, 0.0, 0;
    }

    method OnBeat(now: Millis, visible: bool, frameWait: Millis) returns (events: seq<Report>)
      modifies this
      ensures (View(), events) == Step(t, old(View()), Beat(now, visible, frameWait))
    {
      events := [];
      if lastBeatAt.Some? {
        maxBeatGapMs := Max(maxBeatGapMs, now - lastBeatAt.value);
      }
      if heartbeatStallSince.Some? {
        events := [HeartbeatRecovered(now - heartbeatStallSince.value)];
        heartbeatStallSince := None;
      }
      lastBeatAt, lastVisible, beats := Some(now), visible, beats + 1;
      maxFrameWaitMs := Max(maxFrameWaitMs, frameWait);
      var frameStalled := visible && frameWait >= t.frameStallMs;
      if frameStalled && frameStallSince.None? {
        frameStallSince := Some(now - frameWait);
        stalls := stalls + 1;
        events := events + [FramesStalled(frameWait)];
      } else if !frameStalled && frameStallSince.Some? && frameWait < t.frameStallMs {
        events := events + [FramesRecovered(now - frameStallSince.value, visible)];
        frameStallSince := None;
      }
    }

    method OnCheck(now: Millis) returns (events: seq<Report>)
      modifies this
      ensures (View(), events) == Step(t, old(View()), Check(now))
    {
      events := [];
      if lastCheckAt.Some? && !suspended {
        var lateBy := now - lastCheckAt.value - HEARTBEAT_INTERVAL_MS;
        if lateBy >= t.mainLagMs {
          if mainLag.None? {
            mainLag := Some(Lag(lastCheckAt.value, 1, lateBy));
            events := [MainStalled(lateBy)];
          } else {
            var l := mainLag.value;
            mainLag := Some(l.(lateChecks := l.lateChecks + 1, worstLateBy := Max(l.worstLateBy, lateBy)));
          }
        } else if mainLag.Some? {
          var l := mainLag.value;
          events := [MainRecovered(l.lateChecks, l.worstLateBy, lastCheckAt.value - l.since)];
          mainLag := None;
        }
      }
      lastCheckAt := Some(now);
      if suspended || lastBeatAt.None? || heartbeatStallSince.Some? {
        return;
      }
      var gap := now - lastBeatAt.value;
      var limit := if lastVisible then t.visibleStallMs else t.hiddenStallMs;
      if gap >= limit {
        heartbeatStallSince := lastBeatAt;
        stalls := stalls + 1;
        events := events + [HeartbeatMissed(gap, lastVisible)];
      }
    }

    method OnSuspend()
      modifies this
      ensures View() == Step(t, old(View()), Suspend).0
    {
      suspended := true;
    }

    method OnResume(now: Millis)
      modifies this
      ensures View() == Step(t, old(View()), Resume(now)).0
    {
      suspended := false;
      mainLag := None;
      lastCheckAt := Some(now);
      if lastBeatAt.Some? {
        lastBeatAt := Some(now);
      }
    }

    method OnReset()
      modifies this
      ensures View() == Step(t, old(View()), ResetRenderer).0
    {
      lastBeatAt, heartbeatStallSince, frameStallSince, lastVisible := None, None, None, true;
    }

    method OnSummary() returns (events: seq<Report>)
      modifies this
      ensures (View(), events) == Step(t, old(View()), TakeSummary)
    {
      events := [Summary(beats, maxBeatGapMs, maxFrameWaitMs, stalls,
                         heartbeatStallSince.Some? || frameStallSince.Some?)];
      beats, maxBeatGapMs, maxFrameWaitMs, stalls := 0, 0.0, 0.0, 0;
    }
  }

  // --- Runs --------------------------------------------------------------------------

  datatype Trace = Trace(states: seq<Monitor>, inputs: seq<Input>, outs: seq<seq<Report>>)

  ghost predicate Linked(t: Thresholds, tr: Trace, k: nat) {
    && k < |tr.inputs| && k < |tr.outs| && k + 1 < |tr.states|
    && Step(t, tr.states[k], tr.inputs[k]) == (tr.states[k + 1], tr.outs[k])
  }

  predicate Timed(i: Input) {
    i.Beat? || i.Check? || i.Resume?
  }

  ghost predicate IsRun(t: Thresholds, tr: Trace) {
    && |tr.states| == |tr.inputs| + 1 && |tr.outs| == |tr.inputs|
    && tr.states[0] == FRESH
    && (forall k: nat :: k < |tr.inputs| ==> Linked(t, tr, k))
    // The clock never goes back.
    && (forall i, j :: 0 <= i < j < |tr.inputs| && Timed(tr.inputs[i]) && Timed(tr.inputs[j]) ==>
        tr.inputs[i].now <= tr.inputs[j].now)
  }

  // --- Stalls alternate --------------------------------------------------------------

  datatype Kind = Heartbeat | Frames | MainLoop

  predicate IsBegin(r: Report, kind: Kind) {
    match kind
    case Heartbeat => r.HeartbeatMissed?
    case Frames => r.FramesStalled?
    case MainLoop => r.MainStalled?
  }

  predicate IsEnd(r: Report, kind: Kind) {
    match kind
    case Heartbeat => r.HeartbeatRecovered?
    case Frames => r.FramesRecovered?
    case MainLoop => r.MainRecovered?
  }

  predicate Begins(reports: seq<Report>, kind: Kind) {
    exists i :: 0 <= i < |reports| && IsBegin(reports[i], kind)
  }

  predicate Ends(reports: seq<Report>, kind: Kind) {
    exists i :: 0 <= i < |reports| && IsEnd(reports[i], kind)
  }

  /** The inputs that may close a stall without a line in the log. */
  predicate ClosesSilently(input: Input, kind: Kind) {
    if kind == MainLoop then input.Resume? else input.ResetRenderer?
  }

  function IsOpen(m: Monitor, kind: Kind): bool {
    match kind
    case Heartbeat => m.heartbeatStallSince.Some?
    case Frames => m.frameStallSince.Some?
    case MainLoop => m.mainLag.Some?
  }

  /** What a reader of the log, who also knows of resets and resumes, takes to be an open stall. */
  predicate OpenByLog(tr: Trace, k: nat, kind: Kind)
    requires k <= |tr.inputs| && |tr.outs| == |tr.inputs|
  {
    if k == 0 then false
    else if Begins(tr.outs[k - 1], kind) then true
    else if Ends(tr.outs[k - 1], kind) || ClosesSilently(tr.inputs[k - 1], kind) then false
    else OpenByLog(tr, k - 1, kind)
  }

  lemma StepAndOneStall(t: Thresholds, m: Monitor, input: Input, kind: Kind)
    ensures var (m', out) := Step(t, m, input);
            && (Begins(out, kind) ==> !IsOpen(m, kind) && IsOpen(m', kind) && !Ends(out, kind))
            && (Ends(out, kind) ==> IsOpen(m, kind) && !IsOpen(m', kind))
            && (!Begins(out, kind) && !Ends(out, kind) ==>
                IsOpen(m', kind) == (IsOpen(m, kind) && !ClosesSilently(input, kind)))
  {
    var (m', out) := Step(t, m, input);
    match input {
      case Beat(now, visible, frameWait) =>
        if kind == Heartbeat && m.heartbeatStallSince.Some? {
          assert IsEnd(out[0], kind);
        }
        if kind == Frames && |out| > 0 {
          assert IsBegin(out[|out| - 1], kind) || IsEnd(out[|out| - 1], kind) || out[|out| - 1].HeartbeatRecovered?;
        }
      case Check(now) =>
        if kind == MainLoop && |out| > 0 {
          assert IsBegin(out[0], kind) || IsEnd(out[0], kind) || out[0].HeartbeatMissed?;
        }
        if kind == Heartbeat && |out| > 0 {
          assert IsBegin(out[|out| - 1], kind) || out[|out| - 1].MainStalled? || out[|out| - 1].MainRecovered?;
        }
      case _ =>
    }
  }

  lemma {:induction false} LogTellsOpenStalls(t: Thresholds, tr: Trace, k: nat, kind: Kind)
    requires IsRun(t, tr) && k <= |tr.inputs|
    ensures IsOpen(tr.states[k], kind) == OpenByLog(tr, k, kind)
  {
    hide Step, Begins, Ends, IsOpen;
    if k == 0 {
      NothingOpen(kind);
    } else {
      LogTellsOpenStalls(t, tr, k - 1, kind);
      assert Linked(t, tr, k - 1);
      StepAndOneStall(t, tr.states[k - 1], tr.inputs[k - 1], kind);
    }
  }

  lemma NothingOpen(kind: Kind)
    ensures !IsOpen(FRESH, kind)
  {
  }

  /** In the log of any run a begin is written only while no stall of its kind is open, and an end only
      while one is; nothing but a reset (or, for the main loop, a resume) closes one without a line. */
  lemma StallsAlternate(t: Thresholds, tr: Trace, k: nat, kind: Kind)
    requires IsRun(t, tr) && k < |tr.inputs|
    ensures Begins(tr.outs[k], kind) ==> !OpenByLog(tr, k, kind) && !Ends(tr.outs[k], kind)
    ensures Ends(tr.outs[k], kind) ==> OpenByLog(tr, k, kind)
  {
    hide Step, Begins, Ends, IsOpen;
    assert Linked(t, tr, k);
    StepAndOneStall(t, tr.states[k], tr.inputs[k], kind);
    LogTellsOpenStalls(t, tr, k, kind);
  }

  /** Between two begins there is an end or a silent close. */
  lemma {:induction false} BeginsAreSeparated(t: Thresholds, tr: Trace, i: nat, j: nat, kind: Kind)
    requires IsRun(t, tr) && i < j < |tr.inputs|
    requires Begins(tr.outs[i], kind) && Begins(tr.outs[j], kind)
    ensures exists m :: i < m < j && (Ends(tr.outs[m], kind) || ClosesSilently(tr.inputs[m], kind))
  {
    hide Begins, Ends;
    StallsAlternate(t, tr, j, kind);
    if forall m :: i < m < j ==> !(Ends(tr.outs[m], kind) || ClosesSilently(tr.inputs[m], kind)) {
      StaysOpen(tr, i, j, kind);
    }
  }

  lemma {:induction false} StaysOpen(tr: Trace, i: nat, k: nat, kind: Kind)
    requires i < k <= |tr.inputs| == |tr.outs| && Begins(tr.outs[i], kind)
    requires forall m :: i < m < k ==> !(Ends(tr.outs[m], kind) || ClosesSilently(tr.inputs[m], kind))
    ensures OpenByLog(tr, k, kind)
    decreases k
  {
    hide Begins, Ends;
    if k > i + 1 {
      StaysOpen(tr, i, k - 1, kind);
    }
  }

  // --- Missed heartbeats -------------------------------------------------------------

  predicate SuspendedBy(inputs: seq<Input>, k: nat)
    requires k <= |inputs|
  {
    if k == 0 then false
    else if inputs[k - 1].Suspend? then true
    else if inputs[k - 1].Resume? then false
    else SuspendedBy(inputs, k - 1)
  }

  /** Whether the page was visible at the last beat of the current renderer, if it has sent any. */
  function VisibleBy(inputs: seq<Input>, k: nat): Option<bool>
    requires k <= |inputs|
  {
    if k == 0 || inputs[k - 1].ResetRenderer? then None
    else if inputs[k - 1].Beat? then Some(inputs[k - 1].visible)
    else VisibleBy(inputs, k - 1)
  }

  /** No beat and no resume after `since`, among the first `k` inputs. */
  ghost predicate QuietSince(inputs: seq<Input>, k: nat, since: Millis)
    requires k <= |inputs|
  {
    forall j :: 0 <= j < k && (inputs[j].Beat? || inputs[j].Resume?) ==> inputs[j].now <= since
  }

  function Limit(t: Thresholds, visible: bool): Millis {
    if visible then t.visibleStallMs else t.hiddenStallMs
  }

  ghost predicate BeatHistory(tr: Trace, k: nat)
    requires k <= |tr.inputs| < |tr.states|
  {
    var m := tr.states[k];
    && m.suspended == SuspendedBy(tr.inputs, k)
    && (m.lastBeatAt.Some? <==> VisibleBy(tr.inputs, k).Some?)
    && (m.lastBeatAt.Some? ==>
          && m.lastVisible == VisibleBy(tr.inputs, k).value
          && QuietSince(tr.inputs, k, m.lastBeatAt.value)
          && exists j :: 0 <= j < k && (tr.inputs[j].Beat? || tr.inputs[j].Resume?)
              && tr.inputs[j].now == m.lastBeatAt.value)
  }

  lemma StepAndBeats(t: Thresholds, m: Monitor, input: Input)
    ensures var m' := Step(t, m, input).0;
            && m'.suspended == (input.Suspend? || (m.suspended && !input.Resume?))
            && m'.lastBeatAt == (if input.Beat? then Some(input.now)
                                 else if input.ResetRenderer? then None
                                 else if input.Resume? && m.lastBeatAt.Some? then Some(input.now)
                                 else m.lastBeatAt)
            && m'.lastVisible
                == (if input.Beat? then input.visible else if input.ResetRenderer? then true else m.lastVisible)
  {
  }

  lemma {:induction false} RunKeepsBeatHistory(t: Thresholds, tr: Trace, k: nat)
    requires IsRun(t, tr) && k <= |tr.inputs|
    ensures BeatHistory(tr, k)
  {
    hide Step;
    if k > 0 {
      RunKeepsBeatHistory(t, tr, k - 1);
      assert Linked(t, tr, k - 1);
      StepAndBeats(t, tr.states[k - 1], tr.inputs[k - 1]);
      var m, n, input := tr.states[k - 1], tr.states[k], tr.inputs[k - 1];
      if n.lastBeatAt.Some? {
        if input.Beat? || input.Resume? {
          assert tr.inputs[k - 1].now == n.lastBeatAt.value;
        } else {
          var j :| 0 <= j < k - 1 && (tr.inputs[j].Beat? || tr.inputs[j].Resume?)
              && tr.inputs[j].now == m.lastBeatAt.value;
          assert tr.inputs[j].now == n.lastBeatAt.value;
        }
      }
    }
  }

  lemma CheckAndMissed(t: Thresholds, m: Monitor, now: Millis)
    ensures Begins(Step(t, m, Check(now)).1, Heartbeat)
            <==> !m.suspended && m.lastBeatAt.Some? && m.heartbeatStallSince.None?
                 && now - m.lastBeatAt.value >= Limit(t, m.lastVisible)
  {
    var out := CheckStep(t, m, now).1;
    if !m.suspended && m.lastBeatAt.Some? && m.heartbeatStallSince.None?
        && now - m.lastBeatAt.value >= Limit(t, m.lastVisible) {
      assert IsBegin(out[|out| - 1], Heartbeat);
    }
  }

  /** A missed heartbeat is reported at a check exactly when the app is awake, the renderer has beaten
      since it was last replaced, no stall is open, and there was no beat and no resume within the
      limit for its last known visibility. */
  lemma MissedMeansSilence(t: Thresholds, tr: Trace, k: nat)
    requires IsRun(t, tr) && k < |tr.inputs| && tr.inputs[k].Check?
    ensures Begins(tr.outs[k], Heartbeat)
            <==> && !SuspendedBy(tr.inputs, k)
                 && VisibleBy(tr.inputs, k).Some?
                 && !OpenByLog(tr, k, Heartbeat)
                 && QuietSince(tr.inputs, k, tr.inputs[k].now - Limit(t, VisibleBy(tr.inputs, k).value))
  {
    hide Step, Begins;
    var m, now := tr.states[k], tr.inputs[k].now;
    assert Linked(t, tr, k);
    RunKeepsBeatHistory(t, tr, k);
    LogTellsOpenStalls(t, tr, k, Heartbeat);
    CheckAndMissed(t, m, now);
    assert IsOpen(m, Heartbeat) == m.heartbeatStallSince.Some?;
  }

  // --- Summaries ---------------------------------------------------------------------

  function SummarisedStalls(tr: Trace, k: nat): nat
    requires k <= |tr.outs|
  {
    if k == 0 then 0
    else
      SummarisedStalls(tr, k - 1) +
      if |tr.outs[k - 1]| == 1 && tr.outs[k - 1][0].Summary? then tr.outs[k - 1][0].stalls else 0
  }

  function RendererBegins(tr: Trace, k: nat): nat
    requires k <= |tr.outs|
  {
    if k == 0 then 0
    else
      RendererBegins(tr, k - 1)
      + (if Begins(tr.outs[k - 1], Heartbeat) then 1 else 0) + (if Begins(tr.outs[k - 1], Frames) then 1 else 0)
  }

  lemma StepCountsStalls(t: Thresholds, m: Monitor, input: Input)
    ensures var (m', out) := Step(t, m, input);
            var begun := (if Begins(out, Heartbeat) then 1 else 0) + (if Begins(out, Frames) then 1 else 0);
            var told := if |out| == 1 && out[0].Summary? then out[0].stalls else 0;
            m'.stalls + told == m.stalls + begun
  {
    var out := Step(t, m, input).1;
    match input {
      case Beat(now, visible, frameWait) =>
        if visible && frameWait >= t.frameStallMs && m.frameStallSince.None? {
          assert IsBegin(out[|out| - 1], Frames);
        }
      case Check(now) => CheckAndMissed(t, m, now);
      case _ =>
    }
  }

  /** The summaries' stall counts, and the one still being counted, add up to the renderer stalls
      begun: each is counted once. */
  lemma {:induction false} SummariesAddUp(t: Thresholds, tr: Trace, k: nat)
    requires IsRun(t, tr) && k <= |tr.inputs|
    ensures SummarisedStalls(tr, k) + tr.states[k].stalls == RendererBegins(tr, k)
  {
    hide Step, Begins;
    if k > 0 {
      SummariesAddUp(t, tr, k - 1);
      assert Linked(t, tr, k - 1);
      StepCountsStalls(t, tr.states[k - 1], tr.inputs[k - 1]);
    }
  }

  // --- Main-loop lag -----------------------------------------------------------------

  /** When the main loop was last known to run: its last check or resume. */
  function LastTick(inputs: seq<Input>, k: nat): Option<Millis>
    requires k <= |inputs|
  {
    if k == 0 then None
    else if inputs[k - 1].Check? || inputs[k - 1].Resume? then Some(inputs[k - 1].now)
    else LastTick(inputs, k - 1)
  }

  /** How late input `k` was, if it is a check that can be judged. */
  function LateBy(inputs: seq<Input>, k: nat): Option<Millis>
    requires k < |inputs|
  {
    if inputs[k].Check? && LastTick(inputs, k).Some? && !SuspendedBy(inputs, k)
    then Some(inputs[k].now - LastTick(inputs, k).value - HEARTBEAT_INTERVAL_MS) else None
  }

  /** The run of consecutive late checks that the first `k` inputs end in: how many, the time they
      cover, and the worst. */
  datatype LateRun = LateRun(checks: nat, total: Millis, worst: Millis)

  function LateRunBy(t: Thresholds, inputs: seq<Input>, k: nat): (r: LateRun)
    requires k <= |inputs|
    ensures r.checks == 0 ==> r.total == 0.0
  {
    if k == 0 || inputs[k - 1].Resume? then LateRun(0, 0.0, 0.0)
    else
      var r := LateRunBy(t, inputs, k - 1);
      match LateBy(inputs, k - 1)
      case None => r
      case Some(late) =>
        if late < t.mainLagMs then LateRun(0, 0.0, 0.0)
        else LateRun(r.checks + 1, r.total + (late + HEARTBEAT_INTERVAL_MS),
                     if r.checks == 0 then late else Max(r.worst, late))
  }

  ghost predicate LagHistory(t: Thresholds, tr: Trace, k: nat)
    requires k <= |tr.inputs| < |tr.states|
  {
    var m, r := tr.states[k], LateRunBy(t, tr.inputs, k);
    && m.suspended == SuspendedBy(tr.inputs, k)
    && m.lastCheckAt == LastTick(tr.inputs, k)
    && (m.mainLag.None? <==> r.checks == 0)
    && (m.mainLag.Some? ==>
          && m.lastCheckAt.Some? && m.mainLag.value.lateChecks == r.checks && m.mainLag.value.worstLateBy == r.worst
          && (!m.suspended ==> m.lastCheckAt.value - m.mainLag.value.since == r.total))
  }

  lemma StepAndLag(t: Thresholds, m: Monitor, input: Input)
    ensures var m' := Step(t, m, input).0;
            && m'.suspended == (input.Suspend? || (m.suspended && !input.Resume?))
            && m'.lastCheckAt == (if input.Check? || input.Resume? then Some(input.now) else m.lastCheckAt)
            && m'.mainLag
                == (if input.Resume? then None else if input.Check? then LagStep(t, m, input.now).0 else m.mainLag)
  {
  }

  lemma {:induction false} RunKeepsLagHistory(t: Thresholds, tr: Trace, k: nat)
    requires IsRun(t, tr) && k <= |tr.inputs|
    ensures LagHistory(t, tr, k)
  {
    hide Step;
    if k > 0 {
      RunKeepsLagHistory(t, tr, k - 1);
      assert Linked(t, tr, k - 1);
      StepAndLag(t, tr.states[k - 1], tr.inputs[k - 1]);
    }
  }

  function Times(n: nat, each: Millis): Millis {
    (n as real) * each
  }

  lemma TimesCounts(n: nat, each: Millis)
    ensures Times(0, each) == 0.0 && Times(n + 1, each) == Times(n, each) + each
  {
  }

  lemma {:induction false} LateRunAddsUp(t: Thresholds, inputs: seq<Input>, k: nat)
    requires k <= |inputs|
    ensures var r := LateRunBy(t, inputs, k); r.total >= Times(r.checks, HEARTBEAT_INTERVAL_MS + t.mainLagMs)
  {
    hide LateBy, Max, Times;
    TimesCounts(if k > 0 then LateRunBy(t, inputs, k - 1).checks else 0, HEARTBEAT_INTERVAL_MS + t.mainLagMs);
    if k > 0 {
      LateRunAddsUp(t, inputs, k - 1);
    }
  }

  lemma LateRunIsLate(t: Thresholds, inputs: seq<Input>, k: nat)
    requires k <= |inputs|
    ensures var r := LateRunBy(t, inputs, k);
            r.total >= (r.checks as real) * (HEARTBEAT_INTERVAL_MS + t.mainLagMs)
  {
    hide LateRunBy;
    LateRunAddsUp(t, inputs, k);
  }

  lemma CheckAndRecovery(t: Thresholds, m: Monitor, now: Millis)
    requires m.mainLag.Some? ==> m.lastCheckAt.Some?
    ensures var out := Step(t, m, Check(now)).1;
            && (Ends(out, MainLoop) ==>
                  && !m.suspended && m.mainLag.Some? && |out| >= 1
                  && out[0] == MainRecovered(m.mainLag.value.lateChecks, m.mainLag.value.worstLateBy,
                                             m.lastCheckAt.value - m.mainLag.value.since))
  {
  }

  /** A recovery reports exactly the late checks before it: how many, the sum of their whole intervals,
      and the worst. It therefore covers at least that many thresholds. */
  lemma LagIsExact(t: Thresholds, tr: Trace, k: nat)
    requires IsRun(t, tr) && k < |tr.inputs| && tr.inputs[k].Check? && Ends(tr.outs[k], MainLoop)
    ensures var r := LateRunBy(t, tr.inputs, k);
            && |tr.outs[k]| >= 1 && tr.outs[k][0] == MainRecovered(r.checks, r.worst, r.total)
            && r.checks >= 1
            && r.total >= (r.checks as real) * (HEARTBEAT_INTERVAL_MS + t.mainLagMs)
  {
    hide Step, Ends, LateRunBy, LastTick, SuspendedBy;
    assert Linked(t, tr, k);
    RunKeepsLagHistory(t, tr, k);
    CheckAndRecovery(t, tr.states[k], tr.inputs[k].now);
    LateRunIsLate(t, tr.inputs, k);
  }
}
