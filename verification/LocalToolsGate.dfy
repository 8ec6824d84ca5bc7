/** Who gets a tool run on this PC: the gate's whole condition over the state and the message, how a run
    enters the table, and how a switch comes to be on. */
module LocalToolsGate {
  import opened Basics
  import opened LocalAccess
  import opened LocalToolsHost
  import opened LocalToolsRuns

  // --- The call a message makes --------------------------------------------------------

  /** Every field of the call is the message's own field of that name, and has the shape asked for; an
      optional one the call lacks is not in the message either. */
  ghost predicate IsCallIn(raw: Json, c: ToolCall) {
    && Field(raw, "callId") == Some(Text(c.callId)) && IsCallId(c.callId)
    && Field(raw, "deviceId") == Some(Text(c.deviceId))
    && Field(raw, "tool") == Some(Text(c.tool))
    && c.tool in {"bash", "read", "write", "edit", "ls", "find", "grep"}
    && Field(raw, "args") == Some(c.args) && c.args.Fields?
    && Field(raw, "expiresAt") == Some(Number(c.expiresAt))
    && Field(raw, "groupId") == (if c.groupId.Some? then Some(Text(c.groupId.value)) else None)
    && Field(raw, "timeoutMs") == (if c.timeoutMs.Some? then Some(Number(c.timeoutMs.value)) else None)
  }

  /** A message reads as a call exactly if the call is made of its own fields. */
  lemma CallIsTheMessagesOwn(raw: Json, c: ToolCall)
    ensures ParseToolCall(raw) == Some(c) <==> IsCallIn(raw, c)
  {
    hide IsCallId;
  }

  // --- The gate ------------------------------------------------------------------------

  ghost predicate IsCallMessage(payload: Json, call: ToolCall) {
    Field(payload, "t") == Some(Text("call")) && IsCallIn(payload, call)
  }

  /** What the owner of this PC and the moment have to say about a contact's call. */
  ghost predicate MayRun(a: Access, sender: string, call: ToolCall, group: Option<GroupInfo>, now: Millis) {
    && IsHexPubkey(sender)
    && a.owner.Some? && sender in a.enabled
    && call.deviceId == a.deviceId
    && now < call.expiresAt <= now + 600_000.0
    && sender + ":" + call.callId !in a.seenCalls
    && GroupPasses(sender, call, group)
  }

  lemma GateOpensExactlyWhen(h: Host, sender: string, payload: Json, group: Option<GroupInfo>, now: Millis,
      call: ToolCall)
    ensures Admitted(h, sender, payload, group, now) == Some(call) <==>
            IsCallMessage(payload, call) && MayRun(h.access, sender, call, group, now)
  {
    CallIsTheMessagesOwn(payload, call);
    hide ParseToolCall, IsCallIn, IsHexPubkey;
    assert TextField(payload, "t") == Some("call") <==> Field(payload, "t") == Some(Text("call"));
  }

  /** One message, told by the state and its own fields: it starts a run exactly if it is a call that may
      run and fewer than eight are running, is told "busy" exactly if only the last fails, and is told of
      this PC exactly if it is a hello from a contact whose switch is on. */
  lemma MessageIsAnsweredExactlyWhen(h: Host, sender: string, payload: Json, group: Option<GroupInfo>, now: Millis,
      later: Millis)
    ensures var out := Step(h, Tick(now, later, Message(sender, payload, group))).1;
            var may := exists call :: IsCallMessage(payload, call) && MayRun(h.access, sender, call, group, now);
            && (out.Started? <==> may && |h.running| < 8)
            && (out.Busy? <==> may && |h.running| >= 8)
            && (out.Advertised? <==>
                IsHexPubkey(sender) && Field(payload, "t") == Some(Text("hello")) && sender in h.access.enabled)
            && (out.Advertised? ==> out.deviceId == h.access.deviceId)
            && (out.Started? || out.Busy? || out.Advertised? || out.Nothing?)
  {
    var admitted := Admitted(h, sender, payload, group, now);
    if admitted.Some? {
      GateOpensExactlyWhen(h, sender, payload, group, now, admitted.value);
    }
    if call :| IsCallMessage(payload, call) && MayRun(h.access, sender, call, group, now) {
      GateOpensExactlyWhen(h, sender, payload, group, now, call);
    }
    hide Admitted, IsCallMessage, MayRun, CallStep, IsHexPubkey;
    CallIsStartedOrBusy(h, sender, payload, group, now, later);
    assert TextField(payload, "t") == Some("hello") <==> Field(payload, "t") == Some(Text("hello"));
  }

  lemma CallIsStartedOrBusy(h: Host, sender: string, payload: Json, group: Option<GroupInfo>, now: Millis,
      later: Millis)
    ensures var admitted, out := Admitted(h, sender, payload, group, now),
                                 MessageStep(h, sender, payload, group, now, later).1;
            && (out.Started? <==> admitted.Some? && |h.running| < 8)
            && (out.Busy? <==> admitted.Some? && |h.running| >= 8)
  {
    hide ParseToolCall, Decide, Remembered;
  }

  /** A started call is in the table as a new run of its sender, is remembered until its expiry, and is in the
      file before it runs; of the older memory exactly what has expired is gone. */
  ghost predicate IsStarted(h: Host, after: Host, sender: string, call: ToolCall, run: nat, later: Millis) {
    var key := sender + ":" + call.callId;
    && run !in h.running && after.nextRun == run
    && run in after.running && after.running - {run} == h.running
    && after.running[run].sender == sender && after.running[run].callId == call.callId && !after.running[run].cancelled
    && after.access == h.access.(seenCalls := after.access.seenCalls)
    && key in after.access.seenCalls && after.access.seenCalls[key] == call.expiresAt
    && (forall other :: other != key ==>
          && (other in after.access.seenCalls <==> other in h.access.seenCalls && later < h.access.seenCalls[other])
          && (other in after.access.seenCalls ==> after.access.seenCalls[other] == h.access.seenCalls[other]))
    && after.disk == Some(ToJson(after.access)) && after.asking == h.asking
  }

  /** A message that cancels: it says so, and it names the run's call and comes from the run's sender. */
  ghost predicate CancelsRun(sender: string, payload: Json, r: Run) {
    && IsHexPubkey(sender) && Field(payload, "t") == Some(Text("cancel"))
    && Field(payload, "callId") == Some(Text(r.callId)) && r.sender == sender
  }

  /** What a message leaves behind: a started call as above; otherwise nothing changes, but for a cancel,
      which marks the sender's own runs of the call it names. */
  ghost predicate Leaves(h: Host, after: Host, out: Outcome, sender: string, payload: Json, later: Millis) {
    if out.Started? then
      && out.sender == sender && IsCallMessage(payload, out.call)
      && IsStarted(h, after, sender, out.call, out.run, later)
    else
      && (out.Busy? ==> Field(payload, "callId") == Some(Text(out.callId)))
      && after == h.(running := after.running) && after.running.Keys == h.running.Keys
      && forall n :: n in h.running ==>
           after.running[n] == if CancelsRun(sender, payload, h.running[n])
                               then h.running[n].(cancelled := true) else h.running[n]
  }

  lemma MessageLeaves(h: Host, sender: string, payload: Json, group: Option<GroupInfo>, now: Millis, later: Millis)
    requires Healthy(h)
    ensures var (after, out) := Step(h, Tick(now, later, Message(sender, payload, group)));
            && Leaves(h, after, out, sender, payload, later)
            && (out.Started? ==> MayRun(h.access, sender, out.call, group, now))
  {
    var admitted := Admitted(h, sender, payload, group, now);
    if admitted.Some? {
      GateOpensExactlyWhen(h, sender, payload, group, now, admitted.value);
      CallStarts(h, sender, admitted.value, later);
      hide Admitted, MayRun, CallStep, IsStarted, CancelWhere, Healthy;
      assert Field(payload, "t") == Some(Text("call"));
    } else {
      OtherLeaves(h, sender, payload, group, now, later);
      hide MessageStep, Leaves, MayRun, Admitted;
    }
  }

  lemma OtherLeaves(h: Host, sender: string, payload: Json, group: Option<GroupInfo>, now: Millis, later: Millis)
    requires Admitted(h, sender, payload, group, now).None?
    ensures var (after, out) := MessageStep(h, sender, payload, group, now, later);
            !out.Started? && Leaves(h, after, out, sender, payload, later)
  {
    hide Admitted, IsHexPubkey, CallStep, IsStarted, IsCallMessage;
  }

  lemma CallStarts(h: Host, sender: string, call: ToolCall, later: Millis)
    requires Healthy(h)
    ensures var (after, out) := CallStep(h, sender, call, later);
            && (out.Started? ==>
                  && out.sender == sender && out.call == call && IsStarted(h, after, sender, call, out.run, later))
            && (!out.Started? ==> after == h && out == Busy(call.callId))
  {
    var after := CallStep(h, sender, call, later).0;
    if |h.running| < MAX_RUNNING_TOOLS {
      hide Parse, ToJson, WellFormed, IsHexPubkey;
      assert h.nextRun + 1 !in h.running;
      assert after.running - {h.nextRun + 1} == h.running;
    }
  }

  /** On every run, every started call came in a message of its own, from a public key with its switch on
      under an owner, for this PC, unexpired and of a bounded lifetime, not remembered, from a session of
      the sender's if from a group at all, and with fewer than eight running. */
  lemma EveryStartIsAllowed(tr: Trace, k: nat)
    requires IsRun(tr) && k < |tr.ticks| && tr.outs[k].Started?
    ensures var before, e, out := tr.states[k], tr.ticks[k].event, tr.outs[k];
            && e.Message? && out.sender == e.sender && IsCallMessage(e.payload, out.call)
            && MayRun(before.access, out.sender, out.call, e.group, tr.ticks[k].at)
            && |before.running| < 8
            && IsStarted(before, tr.states[k + 1], out.sender, out.call, out.run, tr.ticks[k].until)
  {
    RunsStayHealthy(tr, k);
    assert Linked(tr, k);
    StartRemembers(tr.states[k], tr.ticks[k]);
    var t := tr.ticks[k];
    MessageLeaves(tr.states[k], t.event.sender, t.event.payload, t.event.group, t.at, t.until);
    MessageIsAnsweredExactlyWhen(tr.states[k], t.event.sender, t.event.payload, t.event.group, t.at, t.until);
    hide Step, IsRun, IsCallMessage, MayRun, IsStarted, Healthy, CancelsRun;
  }

  // --- How a switch comes to be on -----------------------------------------------------

  /** The dialog for that contact is open and closes with Allow. */
  predicate Allows(h: Host, e: Event, pubkey: string) {
    e == DialogClosed(pubkey, true) && pubkey in h.asking
  }

  /** The page asks for OFF, somebody is signed in and it is somebody else. */
  predicate TurnsOff(h: Host, e: Event, pubkey: string) {
    e == Flip(pubkey, false) && IsHexPubkey(pubkey) && h.access.owner.Some? && h.access.owner.value != pubkey
  }

  /** The page asks for ON for a contact of a signed-in owner that is off. */
  predicate Asks(h: Host, e: Event, pubkey: string) {
    && e == Flip(pubkey, true) && IsHexPubkey(pubkey) && pubkey !in h.access.enabled
    && h.access.owner.Some? && h.access.owner.value != pubkey
  }

  lemma MessageKeepsSwitches(h: Host, sender: string, payload: Json, group: Option<GroupInfo>, now: Millis,
      later: Millis)
    ensures var after := MessageStep(h, sender, payload, group, now, later).0;
            && after.access.enabled == h.access.enabled && after.access.owner == h.access.owner
            && after.asking == h.asking
  {
    hide Admitted, CancelWhere, ToJson;
  }

  /** A switch goes on exactly by an Allow that was asked for, at that moment, and off exactly by an OFF or
      another owner; messages, settled runs and crashes leave it alone. */
  lemma SwitchChangesExactlyBy(h: Host, t: Tick, pubkey: string)
    requires Healthy(h)
    ensures var before, after := h.access.enabled, Step(h, t).0.access.enabled;
            && (pubkey in after <==>
                  || Allows(h, t.event, pubkey)
                  || (pubkey in before && !TurnsOff(h, t.event, pubkey) && !ChangesOwner(h, t.event)))
            && (Allows(h, t.event, pubkey) ==> after[pubkey] == t.at)
            && (pubkey in after && !Allows(h, t.event, pubkey) ==> after[pubkey] == before[pubkey])
    ensures Step(h, t).0.access.owner
            == if ChangesOwner(h, t.event) then Some(t.event.pubkey) else h.access.owner
  {
    hide Parse, ToJson, CancelWhere, Healthy, MessageStep, Boot;
    match t.event {
      case Crash(drawn) =>
        RestartKeepsAccess(h, drawn);
      case Message(sender, payload, group) =>
        MessageKeepsSwitches(h, sender, payload, group, t.at, t.until);
      case CrashAfterSave(sender, payload, group, drawn) =>
        MessageKeepsSwitches(h, sender, payload, group, t.at, t.until);
        MessageKeepsHealthy(h, sender, payload, group, t.at, t.until);
        RestartKeepsAccess(MessageStep(h, sender, payload, group, t.at, t.until).0, drawn);
      case Flip(p, on) => FlipAndOneSwitch(h, p, on, pubkey);
      case _ =>
    }
  }

  lemma FlipAndOneSwitch(h: Host, p: string, on: bool, pubkey: string)
    requires Healthy(h)
    ensures pubkey in FlipStep(h, p, on).0.access.enabled <==>
            pubkey in h.access.enabled && !TurnsOff(h, Flip(p, on), pubkey)
    ensures pubkey in FlipStep(h, p, on).0.access.enabled ==>
            FlipStep(h, p, on).0.access.enabled[pubkey] == h.access.enabled[pubkey]
  {
    hide Parse, ToJson, CancelWhere;
  }

  /** What the page is told after asking: the dialog opens exactly for a contact that can be asked about, and
      the contact is sent "revoked" exactly if its switch went off. "On" is only said of a switch that is on,
      and "off" of one that is off, unless nobody or the contact itself is signed in. */
  lemma PageIsTold(h: Host, pubkey: string, on: bool)
    requires Healthy(h)
    ensures var (after, out) := FlipStep(h, pubkey, on);
            var was, now := IsEnabled(h.access, pubkey), IsEnabled(after.access, pubkey);
            && (out.Asked? <==> Asks(h, Flip(pubkey, on), pubkey))
            && (out.Asked? ==> after == h.(asking := h.asking + multiset{pubkey}))
            && (!out.Asked? ==> out.Flipped? && (out.notify == if was && !now then Revoked else NoNotice))
            && (out.Flipped? && out.on ==> was && now && on)
            && (out.Flipped? && !out.on && now ==> h.access.owner.None? || h.access.owner == Some(pubkey))
  {
    hide Parse, ToJson, CancelWhere;
  }

  /** What the page is told once the dialog closes: the truth about the switch if it was off when asked, and the
      contact is sent the capability exactly by an Allow. The request that was answered is no longer open. */
  lemma PageIsToldOfTheDialog(h: Host, pubkey: string, allow: bool, now: Millis)
    requires pubkey in h.asking
    ensures var (after, out) := DialogStep(h, pubkey, allow, now);
            && out.Flipped? && after.asking == h.asking - multiset{pubkey}
            && (out.notify == Capability <==> Allows(h, DialogClosed(pubkey, allow), pubkey)) && out.notify != Revoked
            && (pubkey !in h.access.enabled ==> (out.on <==> pubkey in after.access.enabled))
            && (out.on ==> pubkey in after.access.enabled)
  {
    hide ToJson;
  }

  /** Tick `m` allowed the contact, and neither an OFF nor another owner came after it before `k`. */
  ghost predicate AllowedSince(tr: Trace, m: nat, k: nat, pubkey: string)
    requires k <= |tr.ticks| < |tr.states|
  {
    && m < k && Allows(tr.states[m], tr.ticks[m].event, pubkey)
    && KeptOn(tr, m + 1, k, pubkey)
  }

  ghost predicate KeptOn(tr: Trace, i: nat, k: nat, pubkey: string)
    requires k <= |tr.ticks| < |tr.states|
  {
    forall n :: i <= n < k ==> !TurnsOff(tr.states[n], tr.ticks[n].event, pubkey)
                               && !ChangesOwner(tr.states[n], tr.ticks[n].event)
  }

  /** An Allow that was asked for put the switch on and nothing took it off since, or it was on at the start
      and nothing took it off at all. */
  ghost predicate OnByHistory(tr: Trace, k: nat, pubkey: string)
    requires k <= |tr.ticks| < |tr.states|
  {
    || (exists m: nat :: AllowedSince(tr, m, k, pubkey))
    || (pubkey in tr.states[0].access.enabled && KeptOn(tr, 0, k, pubkey))
  }

  /** On every run, through any crashes, a switch is on exactly by its history. */
  lemma {:induction false} SwitchIsOnExactlyWhen(tr: Trace, k: nat, pubkey: string)
    requires IsRun(tr) && k <= |tr.ticks|
    ensures pubkey in tr.states[k].access.enabled <==> OnByHistory(tr, k, pubkey)
  {
    if k > 0 {
      hide Healthy, Step, Allows, TurnsOff, ChangesOwner, OnByHistory;
      SwitchIsOnExactlyWhen(tr, k - 1, pubkey);
      RunsStayHealthy(tr, k - 1);
      SwitchChangesExactlyBy(tr.states[k - 1], tr.ticks[k - 1], pubkey);
      assert Linked(tr, k - 1);
      OnHistory(tr, k, pubkey);
    }
  }

  lemma OnHistory(tr: Trace, k: nat, pubkey: string)
    requires 0 < k <= |tr.ticks| < |tr.states|
    ensures var e, s := tr.ticks[k - 1].event, tr.states[k - 1];
            OnByHistory(tr, k, pubkey) <==>
              || Allows(s, e, pubkey)
              || (OnByHistory(tr, k - 1, pubkey) && !TurnsOff(s, e, pubkey) && !ChangesOwner(s, e))
  {
    var j := k - 1;
    var e, s := tr.ticks[j].event, tr.states[j];
    hide Allows, TurnsOff, ChangesOwner;
    if Allows(s, e, pubkey) {
      assert AllowedSince(tr, j, k, pubkey);
    } else {
      if m: nat :| AllowedSince(tr, m, j, pubkey) {
        assert AllowedSince(tr, m, k, pubkey) <==> !TurnsOff(s, e, pubkey) && !ChangesOwner(s, e);
      }
      assert forall m: nat :: AllowedSince(tr, m, k, pubkey) ==>
          AllowedSince(tr, m, j, pubkey) && !TurnsOff(s, e, pubkey) && !ChangesOwner(s, e);
    }
  }

  /** Only a request opens a dialog, and only for its own contact. */
  lemma StepOpensDialog(h: Host, t: Tick, pubkey: string)
    requires pubkey in Step(h, t).0.asking && pubkey !in h.asking
    ensures Asks(h, t.event, pubkey)
  {
    hide Parse, ToJson, CancelWhere, Admitted;
  }

  /** On every run, an open dialog was asked for earlier, by a request to switch on a contact that was off and
      is not the signed-in owner. */
  lemma {:induction false} DialogWasAskedFor(tr: Trace, k: nat, pubkey: string) returns (i: nat)
    requires IsRun(tr) && k <= |tr.ticks| && pubkey in tr.states[k].asking
    ensures i < k && Asks(tr.states[i], tr.ticks[i].event, pubkey)
  {
    hide Step, Asks;
    BootAsksNothing(tr.states[0]);
    if k > 0 {
      assert Linked(tr, k - 1);
      if pubkey in tr.states[k - 1].asking {
        i := DialogWasAskedFor(tr, k - 1, pubkey);
      } else {
        StepOpensDialog(tr.states[k - 1], tr.ticks[k - 1], pubkey);
        i := k - 1;
      }
    }
  }

  lemma BootAsksNothing(h: Host)
    requires Boots(h)
    ensures h.asking == multiset{}
  {
  }
}
