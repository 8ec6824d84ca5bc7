/** What holds of the local-tools host over every interleaving of messages, switch flips, sign-ins,
    settled runs and crashes. */
module LocalToolsRuns {
  import opened Basics
  import opened LocalAccess
  import opened LocalToolsHost

  /** A run: the states, the ticks between them, and what each tick handed back. */
  datatype Trace = Trace(states: seq<Host>, ticks: seq<Tick>, outs: seq<Outcome>)

  ghost predicate Linked(tr: Trace, k: nat)
    requires |tr.states| == |tr.ticks| + 1 && |tr.outs| == |tr.ticks|
  {
    k < |tr.ticks| && Step(tr.states[k], tr.ticks[k]) == (tr.states[k + 1], tr.outs[k])
  }

  ghost predicate Boots(h: Host) {
    exists disk, drawn :: h == Boot(disk, drawn)
  }

  /** Every run starts with the host being constructed, over any file or none, and the clock never
      goes back, within a tick or between two. */
  ghost predicate IsRun(tr: Trace) {
    && |tr.states| == |tr.ticks| + 1 && |tr.outs| == |tr.ticks|
    && Boots(tr.states[0])
    && (forall k: nat :: k < |tr.ticks| ==> Linked(tr, k))
    && (forall i :: 0 <= i < |tr.ticks| ==> tr.ticks[i].at <= tr.ticks[i].until)
    && (forall i, j :: 0 <= i < j < |tr.ticks| ==> tr.ticks[i].until <= tr.ticks[j].at)
  }

  // --- What every step keeps ---------------------------------------------------------

  ghost predicate Healthy(h: Host) {
    && WellFormed(h.access)
    // The file holds the state in memory.
    && h.disk.Some? && Parse(h.disk.value, h.access.deviceId) == h.access
    && |h.running| <= MAX_RUNNING_TOOLS
    && (forall n :: n in h.running ==> 0 < n <= h.nextRun && IsHexPubkey(h.running[n].sender))
    && (forall p :: p in h.asking ==> IsHexPubkey(p))
    // A run nobody cancelled belongs to a contact whose switch is on.
    && (forall n :: n in h.running && !h.running[n].cancelled ==> IsEnabled(h.access, h.running[n].sender))
  }

  lemma BootHealthy(disk: Option<Json>, drawn: string)
    ensures Healthy(Boot(disk, drawn))
  {
    var raw := if disk.Some? then disk.value else Null;
    ParseTotal(raw, drawn, drawn);
    SavedStateReadsBack(Parse(raw, drawn), Parse(raw, drawn).deviceId);
  }

  /** A crash at any point loses the runs and nothing of the switches, the owner or the replay memory. */
  lemma RestartKeepsAccess(h: Host, drawn: string)
    requires Healthy(h)
    ensures Healthy(Boot(h.disk, drawn))
    ensures Boot(h.disk, drawn).access ==
            h.access.(deviceId := Boot(h.disk, drawn).access.deviceId)
  {
    BootHealthy(h.disk, drawn);
    ParseTotal(h.disk.value, h.access.deviceId, drawn);
  }

  lemma CancelKeepsSize(running: map<nat, Run>, sender: Option<string>, callId: Option<string>)
    ensures |CancelWhere(running, sender, callId)| == |running|
  {
    assert CancelWhere(running, sender, callId).Keys == running.Keys;
  }

  lemma MessageKeepsHealthy(h: Host, sender: string, payload: Json, group: Option<GroupInfo>, now: Millis,
      later: Millis)
    requires Healthy(h)
    ensures Healthy(MessageStep(h, sender, payload, group, now, later).0)
  {
    hide Admitted, CallStep, CancelWhere, Healthy;
    var call := Admitted(h, sender, payload, group, now);
    if call.Some? {
      AdmittedIsEnabled(h, sender, payload, group, now);
      CallKeepsHealthy(h, sender, call.value, later);
    }
    CancelKeepsHealthy(h, sender, TextField(payload, "callId"));
  }

  lemma AdmittedIsEnabled(h: Host, sender: string, payload: Json, group: Option<GroupInfo>, now: Millis)
    requires Admitted(h, sender, payload, group, now).Some?
    ensures IsHexPubkey(sender) && IsEnabled(h.access, sender)
  {
    hide ParseToolCall;
  }

  lemma CallKeepsHealthy(h: Host, sender: string, call: ToolCall, later: Millis)
    requires Healthy(h) && IsHexPubkey(sender) && IsEnabled(h.access, sender)
    ensures Healthy(CallStep(h, sender, call, later).0)
  {
    hide Parse, ToJson, IsHexPubkey;
    var access := Remembered(h.access, sender, call, later);
    SeenKeyIsNotProto(sender, call.callId);
    SavedStateReadsBack(access, access.deviceId);
  }

  lemma CancelKeepsHealthy(h: Host, sender: string, callId: Option<string>)
    requires Healthy(h)
    ensures Healthy(h.(running := CancelWhere(h.running, Some(sender), callId)))
  {
    hide Parse, IsHexPubkey, WellFormed;
    CancelKeepsSize(h.running, Some(sender), callId);
  }

  lemma SignInKeepsHealthy(h: Host, pubkey: string)
    requires Healthy(h)
    ensures Healthy(SignInStep(h, pubkey))
  {
    if IsHexPubkey(pubkey) {
      var access := WithOwner(h.access, pubkey).0;
      SavedStateReadsBack(access, access.deviceId);
      CancelKeepsSize(h.running, None, None);
    }
  }

  lemma FlipKeepsHealthy(h: Host, pubkey: string, on: bool)
    requires Healthy(h)
    ensures Healthy(FlipStep(h, pubkey, on).0)
  {
    hide Parse, ToJson;
    if FlipStep(h, pubkey, on).1 == Flipped(false, Revoked) {
      var access := h.access.(enabled := h.access.enabled - {pubkey});
      SavedStateReadsBack(access, access.deviceId);
      CancelKeepsSize(h.running, Some(pubkey), None);
    }
  }

  lemma DialogKeepsHealthy(h: Host, pubkey: string, allow: bool, now: Millis)
    requires Healthy(h)
    ensures Healthy(DialogStep(h, pubkey, allow, now).0)
  {
    hide Parse, ToJson, IsHexPubkey;
    if pubkey in h.asking {
      var access := h.access.(enabled := h.access.enabled[pubkey := now]);
      SavedStateReadsBack(access, access.deviceId);
    }
  }

  lemma SettledKeepsHealthy(h: Host, run: nat, answer: Answer)
    requires Healthy(h)
    ensures Healthy(SettledStep(h, run, answer).0)
  {
    assert (h.running - {run}).Keys == h.running.Keys - {run};
    assert |(h.running - {run}).Keys| <= |h.running.Keys|;
  }

  lemma StepKeepsHealthy(h: Host, t: Tick)
    requires Healthy(h)
    ensures Healthy(Step(h, t).0)
  {
    hide Healthy, SignInStep, FlipStep, DialogStep, MessageStep, SettledStep, Boot;
    match t.event {
      case SignIn(pubkey) => SignInKeepsHealthy(h, pubkey);
      case Flip(pubkey, on) => FlipKeepsHealthy(h, pubkey, on);
      case DialogClosed(pubkey, allow) => DialogKeepsHealthy(h, pubkey, allow, t.at);
      case Message(sender, payload, group) => MessageKeepsHealthy(h, sender, payload, group, t.at, t.until);
      case Settled(run, answer) => SettledKeepsHealthy(h, run, answer);
      case Crash(drawn) => BootHealthy(h.disk, drawn);
      case CrashAfterSave(sender, payload, group, drawn) =>
        BootHealthy(MessageStep(h, sender, payload, group, t.at, t.until).0.disk, drawn);
    }
  }

  /** On every run the file equals the memory, at most eight calls run, cancelled ones included, and
      every uncancelled one belongs to a contact whose switch is on. */
  lemma {:induction false} RunsStayHealthy(tr: Trace, k: nat)
    requires IsRun(tr) && k <= |tr.ticks|
    ensures Healthy(tr.states[k])
  {
    hide Healthy, Step;
    if k == 0 {
      var disk, drawn :| tr.states[0] == Boot(disk, drawn);
      BootHealthy(disk, drawn);
    } else {
      RunsStayHealthy(tr, k - 1);
      StepKeepsHealthy(tr.states[k - 1], tr.ticks[k - 1]);
      assert Linked(tr, k - 1);
    }
  }

  // --- Replay ------------------------------------------------------------------------

  /** A sign-in that moves the host to another owner, and so to a new epoch. */
  predicate ChangesOwner(h: Host, e: Event) {
    e.SignIn? && IsHexPubkey(e.pubkey) && h.access.owner != Some(e.pubkey)
  }

  ghost predicate SameEpoch(tr: Trace, i: nat, j: nat)
    requires i <= j <= |tr.ticks| < |tr.states|
  {
    forall m :: i <= m < j ==> !ChangesOwner(tr.states[m], tr.ticks[m].event)
  }

  /** A remembered call stays remembered until its expiry has passed. */
  lemma StepRemembers(h: Host, t: Tick, key: string, expiry: Millis)
    requires Healthy(h) && t.at <= t.until
    requires key in h.access.seenCalls && h.access.seenCalls[key] == expiry
    requires !ChangesOwner(h, t.event)
    ensures var seen := Step(h, t).0.access.seenCalls;
            || expiry <= t.until
            || (key in seen && seen[key] == expiry)
  {
    hide Parse, ToJson, CancelWhere, Healthy, MessageStep, Boot;
    match t.event {
      case Crash(drawn) =>
        RestartKeepsAccess(h, drawn);
      case Message(sender, payload, group) =>
        MessageRemembers(h, sender, payload, group, t.at, t.until, key);
      case CrashAfterSave(sender, payload, group, drawn) =>
        MessageRemembers(h, sender, payload, group, t.at, t.until, key);
        MessageKeepsHealthy(h, sender, payload, group, t.at, t.until);
        RestartKeepsAccess(MessageStep(h, sender, payload, group, t.at, t.until).0, drawn);
      case _ =>
    }
  }

  /** A message drops only what has expired; an admitted call is not one it already remembers. */
  lemma MessageRemembers(h: Host, sender: string, payload: Json, group: Option<GroupInfo>, now: Millis, later: Millis,
      key: string)
    requires key in h.access.seenCalls
    ensures var seen := MessageStep(h, sender, payload, group, now, later).0.access.seenCalls;
            h.access.seenCalls[key] <= later || (key in seen && seen[key] == h.access.seenCalls[key])
  {
    hide ToJson, CancelWhere, ParseToolCall, SeenKey;
  }

  lemma {:induction false} RunRemembers(tr: Trace, i: nat, j: nat, key: string, expiry: Millis)
    requires IsRun(tr) && i < j <= |tr.ticks| && SameEpoch(tr, i + 1, j)
    requires key in tr.states[i + 1].access.seenCalls && tr.states[i + 1].access.seenCalls[key] == expiry
    ensures var seen := tr.states[j].access.seenCalls;
            || expiry <= tr.ticks[j - 1].until
            || (key in seen && seen[key] == expiry)
    decreases j
  {
    hide Healthy, Step;
    if j > i + 1 {
      RunRemembers(tr, i, j - 1, key, expiry);
      RunsStayHealthy(tr, j - 1);
      if expiry > tr.ticks[j - 2].until {
        StepRemembers(tr.states[j - 1], tr.ticks[j - 1], key, expiry);
        assert Linked(tr, j - 1);
      }
    }
  }

  /** Starting puts the call in the memory, and only an unexpired call starts. */
  lemma StartRemembers(h: Host, t: Tick)
    requires Step(h, t).1.Started?
    ensures t.event.Message? && !ChangesOwner(h, t.event)
    ensures var out := Step(h, t).1;
            var key := SeenKey(out.sender, out.call.callId);
            && t.at < out.call.expiresAt
            && key in Step(h, t).0.access.seenCalls && Step(h, t).0.access.seenCalls[key] == out.call.expiresAt
            && key !in h.access.seenCalls
  {
  }

  /** Within one owner's epoch, across crashes and pruning: once a contact's call id has started with
      an expiry, no call with that id starts again before the expiry has passed. */
  lemma NoReplay(tr: Trace, i: nat, j: nat)
    requires IsRun(tr) && i < j < |tr.ticks| && SameEpoch(tr, i, j)
    requires tr.outs[i].Started? && tr.outs[j].Started?
    requires tr.outs[i].sender == tr.outs[j].sender && tr.outs[i].call.callId == tr.outs[j].call.callId
    ensures tr.outs[i].call.expiresAt <= tr.ticks[j].at
  {
    hide Step;
    assert Linked(tr, i) && Linked(tr, j);
    StartRemembers(tr.states[i], tr.ticks[i]);
    StartRemembers(tr.states[j], tr.ticks[j]);
    RunRemembers(tr, i, j, SeenKey(tr.outs[i].sender, tr.outs[i].call.callId), tr.outs[i].call.expiresAt);
  }

  /** So the very same message never starts twice. */
  lemma NoMessageRunsTwice(tr: Trace, i: nat, j: nat)
    requires IsRun(tr) && i < j < |tr.ticks| && SameEpoch(tr, i, j)
    requires tr.outs[i].Started? && tr.outs[j].Started?
    ensures tr.outs[i].sender != tr.outs[j].sender || tr.outs[i].call != tr.outs[j].call
  {
    hide Step;
    assert Linked(tr, j);
    StartRemembers(tr.states[j], tr.ticks[j]);
    if tr.outs[i].sender == tr.outs[j].sender && tr.outs[i].call.callId == tr.outs[j].call.callId {
      NoReplay(tr, i, j);
    }
  }

  // The epoch matters: the memory is the owner's.

  /** The tick puts a call under that key into the memory, whether it runs or dies with the process. */
  predicate Admits(h: Host, t: Tick, key: string) {
    match t.event
    case Message(sender, payload, group) =>
      var out := MessageStep(h, sender, payload, group, t.at, t.until).1;
      out.Started? && SeenKey(out.sender, out.call.callId) == key
    case CrashAfterSave(sender, payload, group, _) =>
      var out := MessageStep(h, sender, payload, group, t.at, t.until).1;
      out.Started? && SeenKey(out.sender, out.call.callId) == key
    case _ => false
  }

  /** A message remembers no call but the one it starts. */
  lemma MessageAddsOnlyItsCall(h: Host, sender: string, payload: Json, group: Option<GroupInfo>, now: Millis,
      later: Millis, key: string)
    requires key !in h.access.seenCalls
    ensures var (after, out) := MessageStep(h, sender, payload, group, now, later);
            key in after.access.seenCalls ==> out.Started? && SeenKey(out.sender, out.call.callId) == key
  {
    hide ToJson, CancelWhere, Admitted, SeenKey;
  }

  /** Another owner forgets everything, and only an admission brings a key back. */
  lemma StepForgets(h: Host, t: Tick, key: string)
    requires Healthy(h)
    requires ChangesOwner(h, t.event) || (key !in h.access.seenCalls && !Admits(h, t, key))
    ensures key !in Step(h, t).0.access.seenCalls
  {
    hide Parse, ToJson, CancelWhere, Healthy, MessageStep, Boot;
    match t.event {
      case Crash(drawn) =>
        RestartKeepsAccess(h, drawn);
      case Message(sender, payload, group) =>
        MessageAddsOnlyItsCall(h, sender, payload, group, t.at, t.until, key);
      case CrashAfterSave(sender, payload, group, drawn) =>
        MessageAddsOnlyItsCall(h, sender, payload, group, t.at, t.until, key);
        MessageKeepsHealthy(h, sender, payload, group, t.at, t.until);
        RestartKeepsAccess(MessageStep(h, sender, payload, group, t.at, t.until).0, drawn);
      case _ =>
    }
  }

  ghost predicate NotAdmitted(tr: Trace, i: nat, j: nat, key: string)
    requires i <= j <= |tr.ticks| < |tr.states|
  {
    forall m :: i <= m < j ==> !Admits(tr.states[m], tr.ticks[m], key)
  }

  lemma {:induction false} StaysForgotten(tr: Trace, m: nat, j: nat, key: string)
    requires IsRun(tr) && m < j <= |tr.ticks|
    requires ChangesOwner(tr.states[m], tr.ticks[m].event) && NotAdmitted(tr, m + 1, j, key)
    ensures key !in tr.states[j].access.seenCalls
    decreases j
  {
    hide Healthy, Step, ChangesOwner, Admits;
    if m + 1 < j {
      StaysForgotten(tr, m, j - 1, key);
    }
    RunsStayHealthy(tr, j - 1);
    StepForgets(tr.states[j - 1], tr.ticks[j - 1], key);
    assert Linked(tr, j - 1);
  }

  /** A call that has started, has not expired and was not admitted anew is remembered exactly as long as
      no other owner has signed in, through any pruning, crashes and reloads. */
  lemma MemoryLastsExactlyItsEpoch(tr: Trace, i: nat, j: nat)
    requires IsRun(tr) && i < j <= |tr.ticks| && tr.outs[i].Started?
    requires var key := SeenKey(tr.outs[i].sender, tr.outs[i].call.callId); NotAdmitted(tr, i + 1, j, key)
    requires tr.ticks[j - 1].until < tr.outs[i].call.expiresAt
    ensures SeenKey(tr.outs[i].sender, tr.outs[i].call.callId) in tr.states[j].access.seenCalls
            <==> SameEpoch(tr, i + 1, j)
  {
    hide Healthy, Step, ChangesOwner, Admits;
    var key := SeenKey(tr.outs[i].sender, tr.outs[i].call.callId);
    assert Linked(tr, i);
    StartRemembers(tr.states[i], tr.ticks[i]);
    if SameEpoch(tr, i + 1, j) {
      RunRemembers(tr, i, j, key, tr.outs[i].call.expiresAt);
    } else {
      var m :| i + 1 <= m < j && ChangesOwner(tr.states[m], tr.ticks[m].event);
      StaysForgotten(tr, m, j, key);
    }
  }

  /** The group test of the gate: a call from inside a group needs a session its sender belongs to. */
  predicate GroupPasses(sender: string, call: ToolCall, group: Option<GroupInfo>) {
    call.groupId.Some? ==> group.Some? && group.value.isSession && sender in group.value.members
  }

  /** So, the gate's other conditions met, the same call is refused as a replay exactly within the epoch
      it started in, and admitted again after it. */
  lemma ReplayIsRefusedExactlyInItsEpoch(tr: Trace, i: nat, j: nat, group: Option<GroupInfo>, now: Millis)
    requires IsRun(tr) && i < j <= |tr.ticks| && tr.outs[i].Started?
    requires var key := SeenKey(tr.outs[i].sender, tr.outs[i].call.callId); NotAdmitted(tr, i + 1, j, key)
    requires tr.ticks[j - 1].until <= now < tr.outs[i].call.expiresAt <= now + MAX_CALL_LIFETIME_MS
    requires tr.states[j].access.owner.Some? && IsEnabled(tr.states[j].access, tr.outs[i].sender)
    requires tr.outs[i].call.deviceId == tr.states[j].access.deviceId
    requires GroupPasses(tr.outs[i].sender, tr.outs[i].call, group)
    ensures var decision := Decide(tr.states[j].access, tr.outs[i].sender, tr.outs[i].call, group, now);
            && (decision == Replay <==> SameEpoch(tr, i + 1, j))
            && (decision == Decision.Run <==> !SameEpoch(tr, i + 1, j))
  {
    hide Healthy, Step, ChangesOwner, Admits;
    MemoryLastsExactlyItsEpoch(tr, i, j);
  }

  /** Right after a sign-in as someone else and back, nothing is remembered and every switch is off: the
      gate stops a replay only until the contact is switched on again. */
  lemma NewEpochForgets(h: Host, sender: string, call: ToolCall, other: string, group: Option<GroupInfo>, now: Millis)
    requires Healthy(h) && h.access.owner.Some? && h.access.owner.value != other && IsHexPubkey(other)
    ensures var back := SignInStep(SignInStep(h, other), h.access.owner.value);
            && back.access.owner == h.access.owner
            && SeenKey(sender, call.callId) !in back.access.seenCalls
            && Decide(back.access, sender, call, group, now) == SwitchOff
  {
  }

  // A run on which the same message starts twice before its expiry.

  lemma SignedIn(h: Host, pubkey: string)
    requires IsHexPubkey(pubkey) && h.access.owner != Some(pubkey)
    ensures var after := SignInStep(h, pubkey);
            && after.access == Access(h.access.deviceId, Some(pubkey), map[], map[])
            && after.running.Keys == h.running.Keys
  {
    hide ToJson;
  }

  lemma SwitchedOn(h: Host, contact: string, now: Millis)
    requires IsHexPubkey(contact) && h.access.owner.Some? && h.access.owner.value != contact
        && !IsEnabled(h.access, contact)
    ensures var (asked, out) := FlipStep(h, contact, true);
            var on := DialogStep(asked, contact, true, now).0;
            && out == Asked && on.running == h.running
            && on.access == h.access.(enabled := h.access.enabled[contact := now])
  {
    hide ToJson;
  }

  /** A message that is a call the gate has nothing against but what it keeps in its state. */
  predicate IsLiveCall(contact: string, payload: Json, group: Option<GroupInfo>, call: ToolCall, now: Millis) {
    && TextField(payload, "t") == Some("call") && ParseToolCall(payload) == Some(call)
    && GroupPasses(contact, call, group)
    && now < call.expiresAt <= now + MAX_CALL_LIFETIME_MS
  }

  lemma CallStarts(h: Host, contact: string, payload: Json, group: Option<GroupInfo>, call: ToolCall, now: Millis)
    requires IsLiveCall(contact, payload, group, call, now)
    requires IsHexPubkey(contact) && IsEnabled(h.access, contact) && h.access.owner.Some?
    requires call.deviceId == h.access.deviceId
    requires SeenKey(contact, call.callId) !in h.access.seenCalls && |h.running| < MAX_RUNNING_TOOLS
    ensures var (after, out) := MessageStep(h, contact, payload, group, now, now);
            && out == Started(h.nextRun + 1, contact, call)
            && after.access.owner == h.access.owner && after.access.deviceId == h.access.deviceId
            && |after.running.Keys| <= |h.running.Keys| + 1
  {
    hide ToJson, ParseToolCall, SeenKey, Pruned;
    assert Admitted(h, contact, payload, group, now) == Some(call);
    assert h.running[h.nextRun + 1 := Run.Run(contact, call.callId, false)].Keys == h.running.Keys + {h.nextRun + 1};
  }

  function Now(now: Millis, e: Event): Tick {
    Tick(now, now, e)
  }

  lemma SignsIn(h: Host, pubkey: string, now: Millis)
    requires IsHexPubkey(pubkey) && h.access.owner != Some(pubkey)
    ensures var after := Step(h, Now(now, SignIn(pubkey))).0;
            && after.access == Access(h.access.deviceId, Some(pubkey), map[], map[])
            && |after.running| == |h.running|
  {
    hide SignInStep;
    SignedIn(h, pubkey);
    var after := SignInStep(h, pubkey);
    assert |after.running| == |after.running.Keys| == |h.running.Keys| == |h.running|;
  }

  /** A run at one moment, and what it does with one more event. */
  ghost predicate IsRunNow(tr: Trace, now: Millis) {
    IsRun(tr) && forall k :: 0 <= k < |tr.ticks| ==> tr.ticks[k] == Now(now, tr.ticks[k].event)
  }

  function Last(tr: Trace): Host
    requires tr.states != []
  {
    tr.states[|tr.states| - 1]
  }

  function Extended(tr: Trace, now: Millis, e: Event): Trace
    requires tr.states != []
  {
    var (after, out) := Step(Last(tr), Now(now, e));
    Trace(tr.states + [after], tr.ticks + [Now(now, e)], tr.outs + [out])
  }

  lemma ExtendedIsRun(tr: Trace, now: Millis, e: Event)
    requires IsRunNow(tr, now)
    ensures var more := Extended(tr, now, e);
            && IsRunNow(more, now) && more.states != [] && |more.outs| == |more.ticks|
            && tr.outs <= more.outs && more.ticks == tr.ticks + [Now(now, e)]
            && Last(more) == Step(Last(tr), Now(now, e)).0
                && more.outs[|more.outs| - 1] == Step(Last(tr), Now(now, e)).1
  {
    hide Step, Boots;
    var more := Extended(tr, now, e);
    forall k: nat | k < |more.ticks| ensures Linked(more, k) {
      if k < |tr.ticks| {
        assert Linked(tr, k);
      }
    }
  }

  function SwitchingOn(contact: string, payload: Json, group: Option<GroupInfo>, now: Millis): seq<Tick> {
    [Now(now, Flip(contact, true)), Now(now, DialogClosed(contact, true)), Now(now, Message(contact, payload, group))]
  }

  /** Switching a contact on and running its call, from any owner's fresh state. */
  lemma SwitchedOnAndStarted(tr: Trace, contact: string, payload: Json, group: Option<GroupInfo>, call: ToolCall,
      now: Millis)
    returns (more: Trace)
    requires IsRunNow(tr, now)
    requires IsLiveCall(contact, payload, group, call, now)
    requires IsHexPubkey(contact) && Last(tr).access.owner.Some? && Last(tr).access.owner.value != contact
    requires Last(tr).access == Access(call.deviceId, Last(tr).access.owner, map[], map[])
    requires |Last(tr).running| < MAX_RUNNING_TOOLS
    ensures IsRunNow(more, now) && tr.outs <= more.outs && |more.outs| == |more.ticks| && more.states != []
    ensures more.ticks == tr.ticks + SwitchingOn(contact, payload, group, now)
    ensures var out := more.outs[|more.outs| - 1]; out.Started? && out.sender == contact && out.call == call
    ensures Last(more).access.owner == Last(tr).access.owner && Last(more).access.deviceId == call.deviceId
    ensures |Last(more).running| <= |Last(tr).running| + 1
  {
    assert tr.states != [] && |tr.outs| == |tr.ticks|;
    hide IsHexPubkey, ParseToolCall, FlipStep, DialogStep, MessageStep, IsRunNow, Extended;
    var h := Last(tr);
    SwitchedOn(h, contact, now);
    var on := DialogStep(FlipStep(h, contact, true).0, contact, true, now).0;
    CallStarts(on, contact, payload, group, call, now);
    ExtendedIsRun(tr, now, Flip(contact, true));
    var asked := Extended(tr, now, Flip(contact, true));
    ExtendedIsRun(asked, now, DialogClosed(contact, true));
    var allowed := Extended(asked, now, DialogClosed(contact, true));
    ExtendedIsRun(allowed, now, Message(contact, payload, group));
    more := Extended(allowed, now, Message(contact, payload, group));
  }

  /** Sign in, switch the contact on, the call, sign in as another and back. */
  function StartingOnce(owner: string, other: string, contact: string, payload: Json,
                        group: Option<GroupInfo>, now: Millis): seq<Tick>
  {
    [Now(now, SignIn(owner))] + SwitchingOn(contact, payload, group, now)
        + [Now(now, SignIn(other)), Now(now, SignIn(owner))]
  }

  /** And then switch on and the call again. */
  function StartingTwice(owner: string, other: string, contact: string, payload: Json,
                         group: Option<GroupInfo>, now: Millis): seq<Tick>
  {
    StartingOnce(owner, other, contact, payload, group, now) + SwitchingOn(contact, payload, group, now)
  }

  lemma AFirstStart(deviceId: string, now: Millis) returns (tr: Trace)
    ensures IsRunNow(tr, now) && tr.ticks == [] && tr.outs == [] && tr.states != []
    ensures Last(tr).access == Access(deviceId, None, map[], map[]) && Last(tr).running == map[]
  {
    var s0 := Boot(None, deviceId);
    assert s0.access == Access(deviceId, None, map[], map[]) && Boots(s0);
    hide Boot, Boots;
    tr := Trace([s0], [], []);
  }

  lemma StartsOnce(owner: string, other: string, contact: string, payload: Json, group: Option<GroupInfo>,
                   call: ToolCall, now: Millis)
    returns (tr: Trace)
    requires IsHexPubkey(owner) && IsHexPubkey(other) && IsHexPubkey(contact)
    requires owner != other && contact != owner
    requires IsLiveCall(contact, payload, group, call, now)
    ensures IsRunNow(tr, now) && tr.ticks == StartingOnce(owner, other, contact, payload, group, now) && |tr.outs| == 6
    ensures tr.outs[3].Started? && tr.outs[3].call == call && tr.outs[3].sender == contact
    ensures Last(tr).access == Access(call.deviceId, Some(owner), map[], map[]) && |Last(tr).running| <= 1
  {
    hide IsHexPubkey, ParseToolCall, Step, Boot, Healthy, IsRun, Extended;
    var start := AFirstStart(call.deviceId, now);
    var s0 := Last(start);
    SignsIn(s0, owner, now);
    ExtendedIsRun(start, now, SignIn(owner));
    var first := SwitchedOnAndStarted(Extended(start, now, SignIn(owner)), contact, payload, group, call, now);
    SignsIn(Last(first), other, now);
    ExtendedIsRun(first, now, SignIn(other));
    var away := Extended(first, now, SignIn(other));
    SignsIn(Last(away), owner, now);
    ExtendedIsRun(away, now, SignIn(owner));
    tr := Extended(away, now, SignIn(owner));
  }

  /** For any owner, other identity, contact and call the gate would accept, at any moment: both starts come
      before the call's expiry. The memory has forgotten the first, and nothing else stops the second. */
  lemma SameMessageStartsAgain(owner: string, other: string, contact: string, payload: Json, group: Option<GroupInfo>,
                               call: ToolCall, now: Millis)
    returns (tr: Trace)
    requires IsHexPubkey(owner) && IsHexPubkey(other) && IsHexPubkey(contact)
    requires owner != other && contact != owner
    requires IsLiveCall(contact, payload, group, call, now)
    ensures IsRun(tr) && tr.ticks == StartingTwice(owner, other, contact, payload, group, now)
    ensures tr.outs[3].Started? && tr.outs[8].Started? && tr.outs[3].call == tr.outs[8].call == call
    ensures tr.outs[3].sender == tr.outs[8].sender == contact && tr.ticks[8].at < call.expiresAt
  {
    var once := StartsOnce(owner, other, contact, payload, group, call, now);
    hide IsHexPubkey, ParseToolCall, IsRun;
    tr := SwitchedOnAndStarted(once, contact, payload, group, call, now);
    assert tr.outs[3] == once.outs[3];
  }

  lemma SampleCall(contact: string) returns (payload: Json, call: ToolCall)
    ensures IsLiveCall(contact, payload, None, call, 0.0)
  {
    payload := Fields(map["t" := Text("call"), "callId" := Text("c"), "deviceId" := Text("pc"), "tool" := Text("ls"),
                          "args" := Fields(map[]), "expiresAt" := Number(1000.0)]);
    call := ToolCall("c", "pc", "ls", Fields(map[]), 1000.0, None, None);
    assert IsWordChar("c"[0]) && IsCallId("c");
  }

  /** Such identities and such a call exist. */
  lemma ARunStartsTwice() returns (tr: Trace)
    ensures IsRun(tr) && |tr.ticks| == 9 && tr.outs[3].Started? && tr.outs[8].Started?
    ensures tr.outs[3].sender == tr.outs[8].sender && tr.outs[3].call == tr.outs[8].call
    ensures tr.ticks[3].event == tr.ticks[8].event && tr.ticks[8].at < tr.outs[3].call.expiresAt
  {
    var owner, other, contact := seq(64, _ => 'a'), seq(64, _ => 'b'), seq(64, _ => 'c');
    assert owner[0] != other[0] && contact[0] != owner[0] && contact[0] != other[0];
    var payload, call := SampleCall(contact);
    hide IsLiveCall;
    tr := SameMessageStartsAgain(owner, other, contact, payload, None, call, 0.0);
  }

  // --- Revocation --------------------------------------------------------------------

  /** The events that take a run's permission away: its sender cancels it, its sender's switch goes
      off, or another identity signs in. */
  predicate Revokes(h: Host, e: Event, contact: string, callId: string) {
    match e
    case SignIn(_) => ChangesOwner(h, e)
    case Flip(pubkey, on) =>
      pubkey == contact && !on && IsEnabled(h.access, pubkey) && h.access.owner.Some? && h.access.owner != Some(pubkey)
    case Message(sender, payload, _) =>
      sender == contact && TextField(payload, "t") == Some("cancel") && TextField(payload, "callId") == Some(callId)
    case _ => false
  }

  /** What a tick does to the run numbered `n` it leaves: carried over, cancelled exactly by a revoking
      event, or registered. */
  ghost predicate OneRun(h: Host, e: Event, after: Host, out: Outcome, n: nat)
    requires n in after.running
  {
    var r := after.running[n];
    if n in h.running then
      && r.sender == h.running[n].sender && r.callId == h.running[n].callId
      && r.cancelled == (h.running[n].cancelled || Revokes(h, e, r.sender, r.callId))
      && !(out.Started? && out.run == n)
      && (!r.cancelled ==> IsEnabled(after.access, r.sender) && after.access.owner == h.access.owner)
    else
      && out.Started? && out.run == n && !r.cancelled
      && out.sender == r.sender && out.call.callId == r.callId
      && IsEnabled(after.access, r.sender) && after.access.owner == h.access.owner
  }

  lemma SignInAndOneRun(h: Host, pubkey: string, n: nat)
    requires Healthy(h) && n in SignInStep(h, pubkey).running
    ensures OneRun(h, SignIn(pubkey), SignInStep(h, pubkey), Nothing, n)
  {
    hide Parse, ToJson;
    if n in h.running && !h.running[n].cancelled {
      // Some switch is on, so the sign-in clears one and cancels every run.
      assert h.running[n].sender in h.access.enabled;
    }
  }

  lemma FlipAndOneRun(h: Host, pubkey: string, on: bool, n: nat)
    requires Healthy(h) && n in FlipStep(h, pubkey, on).0.running
    ensures OneRun(h, Flip(pubkey, on), FlipStep(h, pubkey, on).0, FlipStep(h, pubkey, on).1, n)
  {
    hide Parse, ToJson;
  }

  lemma MessageAndOneRun(h: Host, t: Tick, n: nat)
    requires Healthy(h) && t.event.Message? && n in Step(h, t).0.running
    ensures OneRun(h, t.event, Step(h, t).0, Step(h, t).1, n)
  {
    hide Parse, ToJson, Admitted, Pruned;
    var call := Admitted(h, t.event.sender, t.event.payload, t.event.group, t.at);
    if call.Some? {
      AdmittedIsEnabled(h, t.event.sender, t.event.payload, t.event.group, t.at);
    }
  }

  lemma OtherAndOneRun(h: Host, t: Tick, n: nat)
    requires Healthy(h) && !t.event.SignIn? && !t.event.Flip? && !t.event.Message? && n in Step(h, t).0.running
    ensures OneRun(h, t.event, Step(h, t).0, Step(h, t).1, n)
  {
    hide Parse, ToJson;
  }

  /** A run is registered by exactly one tick, and marked cancelled by exactly the revoking ones. */
  lemma StepAndOneRun(h: Host, t: Tick, n: nat)
    requires Healthy(h) && n in Step(h, t).0.running
    ensures OneRun(h, t.event, Step(h, t).0, Step(h, t).1, n)
  {
    hide OneRun, Healthy, SignInStep, FlipStep, MessageStep, DialogStep, SettledStep, Boot;
    match t.event {
      case SignIn(pubkey) => SignInAndOneRun(h, pubkey, n);
      case Flip(pubkey, on) => FlipAndOneRun(h, pubkey, on, n);
      case Message(_, _, _) => MessageAndOneRun(h, t, n);
      case _ => OtherAndOneRun(h, t, n);
    }
  }

  /** The last tick before `k` that started a run numbered `n`. */
  function StartOf(outs: seq<Outcome>, k: nat, n: nat): (i: nat)
    requires k <= |outs|
    ensures i < k || i == 0
  {
    if k == 0 then 0
    else if outs[k - 1].Started? && outs[k - 1].run == n then k - 1
    else StartOf(outs, k - 1, n)
  }

  /** Something took the run away after tick `i` and before tick `j`. */
  ghost predicate RevokedBetween(tr: Trace, i: nat, j: nat, sender: string, callId: string)
    requires j <= |tr.ticks| < |tr.states|
  {
    exists m :: i < m < j && Revokes(tr.states[m], tr.ticks[m].event, sender, callId)
  }

  /** After tick `i` and up to tick `j` the sender's switch is on, under one owner, at every moment. */
  ghost predicate PermittedThroughout(tr: Trace, i: nat, j: nat, sender: string)
    requires i <= j < |tr.states|
  {
    forall m :: i < m <= j ==>
      IsEnabled(tr.states[m].access, sender) && tr.states[m].access.owner == tr.states[i].access.owner
  }

  /** From its start to now a run was cancelled by exactly the revoking ticks in between, and while it
      is uncancelled its sender has been permitted throughout. */
  lemma {:induction false} RunHistory(tr: Trace, k: nat, n: nat)
    requires IsRun(tr) && k <= |tr.ticks| && n in tr.states[k].running
    ensures var i := StartOf(tr.outs, k, n);
            var r := tr.states[k].running[n];
            && i < k && tr.outs[i].Started? && tr.outs[i].run == n
            && tr.outs[i].sender == r.sender && tr.outs[i].call.callId == r.callId
            && (r.cancelled <==> RevokedBetween(tr, i, k, r.sender, r.callId))
            && (!r.cancelled ==> PermittedThroughout(tr, i, k, r.sender))
    decreases k
  {
    hide Step, Healthy;
    BootRunsNothing(tr.states[0]);
    if k > 0 {
      var before := tr.states[k - 1];
      RunsStayHealthy(tr, k - 1);
      assert Linked(tr, k - 1);
      StepAndOneRun(before, tr.ticks[k - 1], n);
      if n in before.running {
        RunHistory(tr, k - 1, n);
      }
    }
  }

  lemma BootRunsNothing(h: Host)
    requires Boots(h)
    ensures h.running == map[]
  {
  }

  /** Every reply belongs to a run started earlier, and says `cancelled` exactly when the engine did
      or something revoked the run in between. A reply that does not say so means the sender's switch
      was on, under one owner, after every tick from start to finish. */
  lemma RevocationIsTotal(tr: Trace, j: nat)
    requires IsRun(tr) && j < |tr.ticks| && tr.outs[j].Replied?
    ensures tr.ticks[j].event.Settled?
    ensures var reply := tr.outs[j];
            var i := StartOf(tr.outs, j, reply.run);
            var answer := tr.ticks[j].event.answer;
            && i < j && tr.outs[i].Started? && tr.outs[i].run == reply.run
            && tr.outs[i].sender == reply.sender && tr.outs[i].call.callId == reply.callId
            && (reply.result.status == Cancelled <==>
                  || (answer.Returned? && answer.result.status == Cancelled)
                  || RevokedBetween(tr, i, j, reply.sender, reply.callId))
            && (reply.result.status != Cancelled ==> PermittedThroughout(tr, i, j, reply.sender))
  {
    assert Linked(tr, j);
    RepliesAreReports(tr.states[j], tr.ticks[j]);
    RunHistory(tr, j, tr.outs[j].run);
  }

  /** What a reply says, by cases over what happened: a run nothing revoked answers exactly what the engine
      returned, and a thrown error as an error with its message; a revoked one only has another status. */
  lemma RepliesByCases(tr: Trace, j: nat)
    requires IsRun(tr) && j < |tr.ticks| && tr.outs[j].Replied?
    ensures tr.ticks[j].event.Settled?
    ensures var r, answer := tr.outs[j].result, tr.ticks[j].event.answer;
            var i := StartOf(tr.outs, j, tr.outs[j].run);
            && i < j
            && r.status == (if RevokedBetween(tr, i, j, tr.outs[j].sender, tr.outs[j].callId) then Cancelled
                            else if answer.Returned? then answer.result.status else Error)
            && r.output == (if answer.Returned? then answer.result.output else answer.message)
            && r.exit == (if answer.Returned? then answer.result.exit else None)
            && r.truncated == (if answer.Returned? then answer.result.truncated else None)
  {
    assert Linked(tr, j);
    RepliesAreReports(tr.states[j], tr.ticks[j]);
    RunHistory(tr, j, tr.outs[j].run);
    hide Step, IsRun, RevokedBetween, PermittedThroughout;
  }

  lemma RepliesAreReports(h: Host, t: Tick)
    requires Step(h, t).1.Replied?
    ensures var out := Step(h, t).1;
            && t.event.Settled? && out.run in h.running
            && out.sender == h.running[out.run].sender && out.callId == h.running[out.run].callId
            && out.result == Report(h.running[out.run].cancelled, t.event.answer)
            && Step(h, t).0.running == h.running - {out.run}
  {
  }

  // --- Turning a switch off ----------------------------------------------------------

  /** Asking for OFF leaves the contact off exactly unless it is on and either nobody has signed in or it is
      the owner itself: then the answer is "off" and the switch stays. Off means that every run of the
      contact is cancelled, and nobody else's is touched. */
  lemma OffTakesEffectExactlyWhen(h: Host, pubkey: string)
    requires Healthy(h)
    ensures var (after, out) := FlipStep(h, pubkey, false);
            && out.Flipped? && !out.on
            && (!IsEnabled(after.access, pubkey) <==>
                  !(IsEnabled(h.access, pubkey) && (h.access.owner.None? || h.access.owner == Some(pubkey))))
            && after.running.Keys == h.running.Keys
            && (forall n :: n in after.running && after.running[n].sender != pubkey ==>
                after.running[n] == h.running[n])
            && (!IsEnabled(after.access, pubkey) ==>
                  forall n :: n in after.running && after.running[n].sender == pubkey ==> after.running[n].cancelled)
  {
    hide Parse, ToJson;
  }

  /** The first exception can be reached: a file with switches and no valid owner. */
  lemma OwnerlessSwitchStaysOn(pubkey: string, drawn: string) returns (tr: Trace)
    requires IsHexPubkey(pubkey)
    ensures IsRun(tr) && tr.ticks == [Now(0.0, Flip(pubkey, false))]
    ensures tr.outs[0] == Flipped(false, NoNotice) && IsEnabled(tr.states[1].access, pubkey)
  {
    var file := Fields(map["enabled" := Fields(map[pubkey := Number(1.0)])]);
    var s0 := Boot(Some(file), drawn);
    assert Field(file, "enabled") == Some(Fields(map[pubkey := Number(1.0)]));
    assert IsEnabled(s0.access, pubkey) && s0.access.owner.None?;
    assert Boots(s0);
    hide Boot, Boots, IsHexPubkey;
    tr := Trace([s0, s0], [Now(0.0, Flip(pubkey, false))], [Flipped(false, NoNotice)]);
    assert Linked(tr, 0);
  }

  /** So can the second: the dialog for a contact is still open when that contact's own
      identity signs in, and is then allowed. The page is told `false` while the switch stays on. */
  lemma OwnerCanBeSwitchedOn(h: Host, pubkey: string, now: Millis)
    requires Healthy(h) && IsHexPubkey(pubkey) && h.access.owner.Some? && h.access.owner.value != pubkey
    requires !IsEnabled(h.access, pubkey)
    ensures var asked := FlipStep(h, pubkey, true).0;
            var allowed := DialogStep(SignInStep(asked, pubkey), pubkey, true, now).0;
            && FlipStep(allowed, pubkey, false).1 == Flipped(false, NoNotice)
            && IsEnabled(FlipStep(allowed, pubkey, false).0.access, pubkey)
  {
  }
}
