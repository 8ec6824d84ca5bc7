/** What each input of the liveness monitor writes to the log, stated by the inputs and the log before it
    and by nothing the monitor keeps for itself. */
module LivenessReports {
  import opened Basics
  import opened Liveness

  // --- History --------------------------------------------------------------------------

  /** When the current renderer last gave a sign of life, a resume counting as one once it has beaten. */
  function LastAlive(inputs: seq<Input>, k: nat): Option<Millis>
    requires k <= |inputs|
  {
    if k == 0 || inputs[k - 1].ResetRenderer? then None
    else if inputs[k - 1].Beat? || (inputs[k - 1].Resume? && LastAlive(inputs, k - 1).Some?) then
      Some(inputs[k - 1].now)
    else LastAlive(inputs, k - 1)
  }

  /** When the heartbeat stall the log leaves open began: at the last sign of life before the line that says so. */
  function HeartbeatSince(tr: Trace, k: nat): Option<Millis>
    requires k <= |tr.inputs| && |tr.outs| == |tr.inputs|
  {
    if k == 0 then None
    else if Begins(tr.outs[k - 1], Heartbeat) then LastAlive(tr.inputs, k - 1)
    else if Ends(tr.outs[k - 1], Heartbeat) || tr.inputs[k - 1].ResetRenderer? then None
    else HeartbeatSince(tr, k - 1)
  }

  /** When the frame stall the log leaves open began: the wait it was reported with, before that report. */
  function FramesSince(tr: Trace, k: nat): Option<Millis>
    requires k <= |tr.inputs| && |tr.outs| == |tr.inputs|
  {
    if k == 0 then None
    else if Begins(tr.outs[k - 1], Frames) && tr.inputs[k - 1].Beat? then
      Some(tr.inputs[k - 1].now - tr.inputs[k - 1].frameWait)
    else if Ends(tr.outs[k - 1], Frames) || tr.inputs[k - 1].ResetRenderer? then None
    else FramesSince(tr, k - 1)
  }

  lemma StepAndSince(t: Thresholds, m: Monitor, input: Input)
    ensures var (m', out) := Step(t, m, input);
            && m'.heartbeatStallSince ==
                 (if Begins(out, Heartbeat) then m.lastBeatAt
                  else if Ends(out, Heartbeat) || input.ResetRenderer? then None
                  else m.heartbeatStallSince)
            && m'.frameStallSince ==
                 (if Begins(out, Frames) && input.Beat? then Some(input.now - input.frameWait)
                  else if Ends(out, Frames) || input.ResetRenderer? then None
                  else m.frameStallSince)
  {
    StepAndOneStall(t, m, input, Heartbeat);
    StepAndOneStall(t, m, input, Frames);
    hide LagStep, Begins, Ends;
  }

  lemma {:induction false} SinceIsByTheLog(t: Thresholds, tr: Trace, k: nat)
    requires IsRun(t, tr) && k <= |tr.inputs|
    ensures var m := tr.states[k];
            && m.lastBeatAt == LastAlive(tr.inputs, k)
            && m.heartbeatStallSince == HeartbeatSince(tr, k)
            && m.frameStallSince == FramesSince(tr, k)
  {
    hide Step, Begins, Ends;
    if k > 0 {
      SinceIsByTheLog(t, tr, k - 1);
      assert Linked(t, tr, k - 1);
      StepAndBeats(t, tr.states[k - 1], tr.inputs[k - 1]);
      StepAndSince(t, tr.states[k - 1], tr.inputs[k - 1]);
    }
  }

  // --- Beats ----------------------------------------------------------------------------

  /** A beat writes the recovery of an open heartbeat stall, with the time since the last sign of life before
      it, and then: a frame stall exactly if the page is visible, the wait has reached the limit and none is
      open; the recovery of an open one, with the time since its frames stopped, exactly if the wait is below
      the limit again. */
  lemma BeatReports(t: Thresholds, tr: Trace, k: nat)
    requires IsRun(t, tr) && k < |tr.inputs| && tr.inputs[k].Beat?
    ensures var beat, stalled := tr.inputs[k], FramesSince(tr, k);
            var recovered := if HeartbeatSince(tr, k).Some?
                             then [HeartbeatRecovered(beat.now - HeartbeatSince(tr, k).value)] else [];
            var frames := if stalled.None? then
                            if beat.visible && beat.frameWait >= t.frameStallMs then [FramesStalled(beat.frameWait)]
                            else []
                          else if beat.frameWait < t.frameStallMs then
                            [FramesRecovered(beat.now - stalled.value, beat.visible)]
                          else [];
            tr.outs[k] == recovered + frames
  {
    assert Linked(t, tr, k);
    SinceIsByTheLog(t, tr, k);
    hide Max;
  }

  /** So a frame stall begins exactly at a beat of a visible page that has waited the limit while none is
      open by the log, and ends exactly at a beat that has not. */
  lemma FramesBeginAndEndExactlyWhen(t: Thresholds, tr: Trace, k: nat)
    requires IsRun(t, tr) && k < |tr.inputs|
    ensures Begins(tr.outs[k], Frames)
            <==> && tr.inputs[k].Beat? && tr.inputs[k].visible && tr.inputs[k].frameWait >= t.frameStallMs
                 && !OpenByLog(tr, k, Frames)
    ensures Ends(tr.outs[k], Frames)
            <==> tr.inputs[k].Beat? && tr.inputs[k].frameWait < t.frameStallMs && OpenByLog(tr, k, Frames)
  {
    assert Linked(t, tr, k);
    LogTellsOpenStalls(t, tr, k, Frames);
    StepAndFrames(t, tr.states[k], tr.inputs[k]);
    assert IsOpen(tr.states[k], Frames) == tr.states[k].frameStallSince.Some?;
    hide Step, Begins, Ends;
  }

  lemma StepAndFrames(t: Thresholds, m: Monitor, input: Input)
    ensures Begins(Step(t, m, input).1, Frames)
            <==> input.Beat? && input.visible && input.frameWait >= t.frameStallMs && m.frameStallSince.None?
    ensures Ends(Step(t, m, input).1, Frames)
            <==> input.Beat? && input.frameWait < t.frameStallMs && m.frameStallSince.Some?
  {
    var out := Step(t, m, input).1;
    if input.Beat? && |out| > 0 {
      var last := out[|out| - 1];
      assert last.FramesStalled? || last.FramesRecovered? || last.HeartbeatRecovered?;
      assert IsBegin(last, Frames) <==> last.FramesStalled?;
      assert IsEnd(last, Frames) <==> last.FramesRecovered?;
    }
  }

  // --- Checks ---------------------------------------------------------------------------

  /** A check writes what the main loop's lateness calls for: the first late check of a run, or at the first
      one in time how many there were, the worst and the time they took. Then, while awake and with no stall
      open, a heartbeat whose last sign of life is as old as the limit for the page's last visibility. */
  lemma CheckReports(t: Thresholds, tr: Trace, k: nat)
    requires IsRun(t, tr) && k < |tr.inputs| && tr.inputs[k].Check?
    ensures var now, run, late := tr.inputs[k].now, LateRunBy(t, tr.inputs, k), LateBy(tr.inputs, k);
            var alive, visible := LastAlive(tr.inputs, k), VisibleBy(tr.inputs, k);
            var lag := if late.None? then []
                       else if late.value >= t.mainLagMs then
                         if run.checks == 0 then [MainStalled(late.value)] else []
                       else if run.checks == 0 then []
                       else [MainRecovered(run.checks, run.worst, run.total)];
            && (alive.Some? <==> visible.Some?)
            && tr.outs[k] == lag +
                 if alive.Some? && visible.Some? && !SuspendedBy(tr.inputs, k) && HeartbeatSince(tr, k).None?
                    && now - alive.value >= Limit(t, visible.value)
                 then [HeartbeatMissed(now - alive.value, visible.value)] else []
  {
    hide LateRunBy, LastTick, SuspendedBy, LastAlive, VisibleBy, HeartbeatSince, QuietSince, Begins, Ends;
    assert Linked(t, tr, k);
    SinceIsByTheLog(t, tr, k);
    RunKeepsLagHistory(t, tr, k);
    RunKeepsBeatHistory(t, tr, k);
  }

  // --- Summaries ------------------------------------------------------------------------

  /** What the beats since the last summary add up to. */
  datatype Tally = Tally(beats: nat, worstGap: Millis, worstWait: Millis)

  function TallyOf(inputs: seq<Input>, k: nat): Tally
    requires k <= |inputs|
  {
    if k == 0 || inputs[k - 1].TakeSummary? then Tally(0, 0.0, 0.0)
    else
      var r := TallyOf(inputs, k - 1);
      if !inputs[k - 1].Beat? then r
      else
        var alive := LastAlive(inputs, k - 1);
        Tally(r.beats + 1,
              if alive.Some? then Max(r.worstGap, inputs[k - 1].now - alive.value) else r.worstGap,
              Max(r.worstWait, inputs[k - 1].frameWait))
  }

  lemma StepAndTally(t: Thresholds, m: Monitor, input: Input)
    ensures var m' := Step(t, m, input).0;
            if input.TakeSummary? then m'.beats == 0 && m'.maxBeatGap == 0.0 && m'.maxFrameWait == 0.0
            else if input.Beat? then
              && m'.beats == m.beats + 1 && m'.maxFrameWait == Max(m.maxFrameWait, input.frameWait)
              && m'.maxBeatGap == if m.lastBeatAt.Some? then Max(m.maxBeatGap, input.now - m.lastBeatAt.value)
                                  else m.maxBeatGap
            else m'.beats == m.beats && m'.maxBeatGap == m.maxBeatGap && m'.maxFrameWait == m.maxFrameWait
  {
    hide LagStep, Max;
  }

  lemma {:induction false} RunKeepsTally(t: Thresholds, tr: Trace, k: nat)
    requires IsRun(t, tr) && k <= |tr.inputs|
    ensures TallyOf(tr.inputs, k) == Tally(tr.states[k].beats, tr.states[k].maxBeatGap, tr.states[k].maxFrameWait)
  {
    hide Step, Max, LastAlive;
    if k > 0 {
      RunKeepsTally(t, tr, k - 1);
      assert Linked(t, tr, k - 1);
      SinceIsByTheLog(t, tr, k - 1);
      StepAndTally(t, tr.states[k - 1], tr.inputs[k - 1]);
    }
  }

  /** A summary writes how many beats came since the last one, the longest gap before one, the longest wait for
      a frame, the stalls begun, and whether the log leaves one open. Nothing else writes anything. */
  lemma SummaryReports(t: Thresholds, tr: Trace, k: nat)
    requires IsRun(t, tr) && k < |tr.inputs| && !tr.inputs[k].Beat? && !tr.inputs[k].Check?
    ensures var tally := TallyOf(tr.inputs, k);
            if !tr.inputs[k].TakeSummary? then tr.outs[k] == []
            else
              && |tr.outs[k]| == 1
              && tr.outs[k][0] == Summary(tally.beats, tally.worstGap, tally.worstWait, tr.states[k].stalls,
                                          OpenByLog(tr, k, Heartbeat) || OpenByLog(tr, k, Frames))
              && SummarisedStalls(tr, k) + tr.outs[k][0].stalls == RendererBegins(tr, k)
  {
    hide TallyOf, OpenByLog, SummarisedStalls, RendererBegins;
    assert Linked(t, tr, k);
    RunKeepsTally(t, tr, k);
    LogTellsOpenStalls(t, tr, k, Heartbeat);
    LogTellsOpenStalls(t, tr, k, Frames);
    SummariesAddUp(t, tr, k);
  }
}
