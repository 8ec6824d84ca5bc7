/** The host that runs a contact's tool calls on this PC (electron/localTools/host.ts).
    Code between two awaits is one step; `Step` says what each step does, and the class does it. */
module LocalToolsHost {
  import opened Basics
  import opened LocalAccess

  const MAX_RUNNING_TOOLS := 8

  datatype Status = Ok | Error | Cancelled | TimedOut

  datatype ToolResult = ToolResult(status: Status, output: string, exit: Option<int>, truncated: Option<bool>)

  /** How the engine's promise for one run settled. */
  datatype Answer = Returned(result: ToolResult) | Threw(message: string)

  datatype Run = Run(sender: string, callId: string, cancelled: bool)

  datatype Host = Host(
    access: Access,
    disk: Option<Json>,
    running: map<nat, Run>,
    nextRun: nat,
    asking: multiset<string>)

  datatype Event =
    | SignIn(pubkey: string)
    | Flip(pubkey: string, on: bool)
    | DialogClosed(pubkey: string, allow: bool)
    | Message(sender: string, payload: Json, group: Option<GroupInfo>)
    | Settled(run: nat, answer: Answer)
    | Crash(drawn: string)
    | CrashAfterSave(sender: string, payload: Json, group: Option<GroupInfo>, drawn: string)

  /** One event, with the clock at its start and at its end. */
  datatype Tick = Tick(at: Millis, until: Millis, event: Event)

  datatype Notice = NoNotice | Capability | Revoked

  /** What the step hands back: to the page that flipped a switch, or to be sent to the contact. */
  datatype Outcome =
    | Nothing
    | Asked
    | Flipped(on: bool, notify: Notice)
    | Advertised(deviceId: string)
    | Busy(callId: string)
    | Started(run: nat, sender: string, call: ToolCall)
    | Replied(run: nat, sender: string, callId: string, result: ToolResult)

  predicate Matches(r: Run, sender: Option<string>, callId: Option<string>) {
    && (sender.Some? ==> r.sender == sender.value)
    && (callId.Some? ==> r.callId == callId.value)
  }

  /** `cancel`, `revoke` and `revokeAll` are one loop under three filters. */
  function CancelWhere(running: map<nat, Run>, sender: Option<string>, callId: Option<string>): map<nat, Run> {
    map n | n in running ::
      if Matches(running[n], sender, callId) then running[n].(cancelled := true) else running[n]
  }

  /** Constructing the host over a file, or over none on the first start. */
  function Boot(disk: Option<Json>, drawn: string): Host {
    var access := Parse(if disk.Some? then disk.value else Null, drawn);
    Host(access, if disk.Some? then disk else Some(ToJson(access)), map[], 0, multiset{})
  }

  function Saved(h: Host, access: Access): Host {
    h.(access := access, disk := Some(ToJson(access)))
  }

  function SignInStep(h: Host, pubkey: string): Host {
    if !IsHexPubkey(pubkey) then h
    else
      var (access, cleared) := WithOwner(h.access, pubkey);
      Saved(h, access).(running := if cleared then CancelWhere(h.running, None, None) else h.running)
  }

  function FlipStep(h: Host, pubkey: string, on: bool): (Host, Outcome) {
    var current := IsEnabled(h.access, pubkey);
    if !IsHexPubkey(pubkey) || h.access.owner.None? || h.access.owner == Some(pubkey) then (h, Flipped(false, NoNotice))
    else if on == current then (h, Flipped(current, NoNotice))
    else if on then (h.(asking := h.asking + multiset{pubkey}), Asked)
    else
      var access := h.access.(enabled := h.access.enabled - {pubkey});
      (Saved(h, access).(running := CancelWhere(h.running, Some(pubkey), None)), Flipped(false, Revoked))
  }

  /** The step after the dialog's await. Nothing about the owner is looked at again. */
  function DialogStep(h: Host, pubkey: string, allow: bool, now: Millis): (Host, Outcome) {
    if pubkey !in h.asking then (h, Nothing)
    else
      var g := h.(asking := h.asking - multiset{pubkey});
      if !allow then (g, Flipped(false, NoNotice))
      else (Saved(g, h.access.(enabled := h.access.enabled[pubkey := now])), Flipped(true, Capability))
  }

  /** The call a message asks to run, if the gate lets it through. */
  function Admitted(h: Host, sender: string, payload: Json, group: Option<GroupInfo>, now: Millis): Option<ToolCall> {
    if !IsHexPubkey(sender) || TextField(payload, "t") != Some("call") then None
    else
      var call := ParseToolCall(payload);
      if call.Some? && Decide(h.access, sender, call.value, group, now) == Decision.Run then call else None
  }

  /** An admitted call: refused while the host is full, else remembered, saved and run, in that order. */
  function CallStep(h: Host, sender: string, call: ToolCall, later: Millis): (Host, Outcome) {
    if |h.running| >= MAX_RUNNING_TOOLS then (h, Busy(call.callId))
    else
      var n := h.nextRun + 1;
      (Saved(h, Remembered(h.access, sender, call, later)).(
         nextRun := n, running := h.running[n := Run.Run(sender, call.callId, false)]),
       Started(n, sender, call))
  }

  function MessageStep(h: Host, sender: string, payload: Json, group: Option<GroupInfo>, now: Millis, later: Millis):
    (Host, Outcome)
  {
    var t := TextField(payload, "t");
    var callId := TextField(payload, "callId");
    if !IsHexPubkey(sender) then (h, Nothing)
    else if t == Some("hello") then (h, if IsEnabled(h.access, sender) then Advertised(h.access.deviceId) else Nothing)
    else if t == Some("cancel") then
      (if callId.Some? then h.(running := CancelWhere(h.running, Some(sender), callId)) else h, Nothing)
    else
      var call := Admitted(h, sender, payload, group, now);
      if call.None? then (h, Nothing) else CallStep(h, sender, call.value, later)
  }

  function Report(cancelled: bool, answer: Answer): ToolResult {
    var result := if answer.Returned? then answer.result else ToolResult(Error, answer.message, None, None);
    if cancelled then result.(status := Cancelled) else result
  }

  function SettledStep(h: Host, run: nat, answer: Answer): (Host, Outcome) {
    if run !in h.running then (h, Nothing)
    else
      var r := h.running[run];
      (h.(running := h.running - {run}), Replied(run, r.sender, r.callId, Report(r.cancelled, answer)))
  }

  function Step(h: Host, t: Tick): (Host, Outcome) {
    match t.event
    case SignIn(pubkey) => (SignInStep(h, pubkey), Nothing)
    case Flip(pubkey, on) => FlipStep(h, pubkey, on)
    case DialogClosed(pubkey, allow) => DialogStep(h, pubkey, allow, t.at)
    case Message(sender, payload, group) => MessageStep(h, sender, payload, group, t.at, t.until)
    case Settled(run, answer) => SettledStep(h, run, answer)
    case Crash(drawn) => (Boot(h.disk, drawn), Nothing)
    // The process dies once the call is in the file and before the engine hears of it.
    case CrashAfterSave(sender, payload, group, drawn) =>
      (Boot(MessageStep(h, sender, payload, group, t.at, t.until).0.disk, drawn), Nothing)
  }

  // --- The host itself ---------------------------------------------------------------

  class Running {
    const number: nat
    const sender: string
    const callId: string
    var cancelled: bool

    constructor (number: nat, sender: string, callId: string)
      ensures this.number == number && this.sender == sender && this.callId == callId && !cancelled
    {
      this.number, this.sender, this.callId := number, sender, callId;
      cancelled := false;
    }

    ghost function View(): Run
      reads this
    {
      Run.Run(sender, callId, cancelled)
    }
  }

  class LocalToolsHost {
    const state: LocalAccessState
    /** The source's set of entries, each under its own number. */
    var running: map<nat, Running>
    var nextRun: nat
    /** The contents of local-access.json. */
    var file: Json
    /** Contacts whose Allow dialog is still open. */
    ghost var asking: multiset<string>

    ghost predicate Valid()
      reads this, running.Values
    {
      forall n :: n in running ==> running[n].number == n <= nextRun
    }

    ghost function Table(): map<nat, Run>
      requires Valid()
      reads this, running.Values
    {
      map n | n in running :: running[n].View()
    }

    ghost function View(): Host
      requires Valid()
      reads this, running.Values, state
    {
      Host(state.View(), Some(file), Table(), nextRun, asking)
    }

    constructor (disk: Option<Json>, drawn: string)
      ensures Valid() && fresh(state) && View() == Boot(disk, drawn)
    {
      state := new LocalAccessState.FromFile(if disk.Some? then disk.value else Null, drawn);
      running, nextRun, asking := map[], 0, multiset{};
      file := if disk.Some? then disk.value else Null;
      new;
      if disk.None? {
        Save();
      }
    }

    method Save()
      modifies `file
      ensures file == ToJson(state.View())
    {
      file := Fields(map[
        "deviceId" := Text(state.deviceId),
        "ownerPubkey" := if state.ownerPubkey.Some? then Text(state.ownerPubkey.value) else Null,
        "enabled" := NumbersToJson(state.enabled),
        "seenCalls" := NumbersToJson(state.seenCalls)]);
    }

    method Cancel(sender: Option<string>, callId: Option<string>)
      requires Valid()
      modifies running.Values
      ensures Valid() && running == old(running)
      ensures Table() == CancelWhere(old(Table()), sender, callId)
    {
      var todo := running.Keys;
      while todo != {}
        invariant todo <= running.Keys && Valid()
        invariant forall n :: n in running ==>
          running[n].cancelled
              == (old(running[n].cancelled) || (n !in todo && Matches(old(running[n].View()), sender, callId)))
      {
        var n :| n in todo;
        var entry := running[n];
        todo := todo - {n};
        if (sender.Some? && entry.sender != sender.value) || (callId.Some? && entry.callId != callId.value) {
          continue;
        }
        entry.cancelled := true;
      }
    }

    method SetOwner(pubkey: string)
      requires Valid()
      modifies this, running.Values, state
      ensures Valid() && View() == SignInStep(old(View()), pubkey)
    {
      if !IsHexPubkey(pubkey) {
        return;
      }
      var cleared := state.SetOwner(pubkey);
      assert Table() == old(Table());
      if cleared {
        Cancel(None, None);
      }
      Save();
      assert Table() == if cleared then CancelWhere(old(Table()), None, None) else old(Table());
    }

    method SetLocalAccess(pubkey: string, on: bool) returns (out: Outcome)
      requires Valid()
      modifies this, running.Values, state
      ensures Valid() && (View(), out) == FlipStep(old(View()), pubkey, on)
    {
      if !IsHexPubkey(pubkey) || state.ownerPubkey.None? || state.ownerPubkey == Some(pubkey) {
        return Flipped(false, NoNotice);
      }
      var current := pubkey in state.enabled;
      if on == current {
        return Flipped(current, NoNotice);
      }
      if on {
        asking := asking + multiset{pubkey};
        assert Table() == old(Table());
        return Asked;
      }
      state.enabled := state.enabled - {pubkey};
      Save();
      assert Table() == old(Table());
      Cancel(Some(pubkey), None);
      return Flipped(false, Revoked);
    }

    /** The rest of `setLocalAccess`, once the dialog it asked is answered. */
    method DialogAnswered(pubkey: string, allow: bool, now: Millis) returns (out: Outcome)
      requires Valid() && pubkey in asking
      modifies this, state
      ensures Valid() && (View(), out) == DialogStep(old(View()), pubkey, allow, now)
    {
      asking := asking - multiset{pubkey};
      assert Table() == old(Table());
      if !allow {
        return Flipped(false, NoNotice);
      }
      state.enabled := state.enabled[pubkey := now];
      Save();
      assert Table() == old(Table());
      return Flipped(true, Capability);
    }

    method HandleMessage(sender: string, payload: Json, group: Option<GroupInfo>, now: Millis, later: Millis)
      returns (out: Outcome, entry: Option<Running>)
      requires Valid()
      modifies this, running.Values, state
      ensures Valid() && (View(), out) == MessageStep(old(View()), sender, payload, group, now, later)
      ensures entry.Some? == out.Started?
      ensures entry.Some? ==> out.run in running && running[out.run] == entry.value
    {
      entry := None;
      if !IsHexPubkey(sender) {
        return Nothing, entry;
      }
      match TextField(payload, "t") {
        case Some("hello") =>
          out := if sender in state.enabled then Advertised(state.deviceId) else Nothing;
        case Some("cancel") =>
          out := Nothing;
          var callId := TextField(payload, "callId");
          if callId.Some? {
            Cancel(Some(sender), callId);
          }
        case Some("call") =>
          out, entry := HandleCall(sender, payload, group, now, later);
        case _ =>
          out := Nothing;
      }
    }

    method HandleCall(sender: string, payload: Json, group: Option<GroupInfo>, now: Millis, later: Millis)
      returns (out: Outcome, entry: Option<Running>)
      requires Valid() && IsHexPubkey(sender) && TextField(payload, "t") == Some("call")
      modifies this, running.Values, state
      ensures Valid() && (View(), out) == MessageStep(old(View()), sender, payload, group, now, later)
      ensures entry.Some? == out.Started?
      ensures entry.Some? ==> out.run in running && running[out.run] == entry.value
    {
      entry := None;
      var call := ParseToolCall(payload);
      if call.None? {
        return Nothing, entry;
      }
      var access := Access(state.deviceId, state.ownerPubkey, state.enabled, state.seenCalls);
      if Decide(access, sender, call.value, group, now) != Decision.Run {
        return Nothing, entry;
      }
      out, entry := RunCall(sender, call.value, later);
    }

    /** From the cap check to the await inside `run`. */
    method RunCall(sender: string, call: ToolCall, later: Millis) returns (out: Outcome, entry: Option<Running>)
      requires Valid()
      modifies this, state
      ensures Valid() && (View(), out) == CallStep(old(View()), sender, call, later)
      ensures entry.Some? == out.Started?
      ensures entry.Some? ==> out.run in running && running[out.run] == entry.value
    {
      assert Table().Keys == running.Keys;
      if |running| >= MAX_RUNNING_TOOLS {
        return Busy(call.callId), None;
      }
      state.RememberCall(sender, call, later);
      Save();
      assert Table() == old(Table());
      var added := Register(sender, call.callId);
      return Started(nextRun, sender, call), Some(added);
    }

    method Register(sender: string, callId: string) returns (entry: Running)
      requires Valid()
      modifies `nextRun, `running
      ensures Valid() && nextRun == old(nextRun) + 1 && nextRun in running && running[nextRun] == entry
      ensures Table() == old(Table())[nextRun := Run.Run(sender, callId, false)]
    {
      nextRun := nextRun + 1;
      entry := new Running(nextRun, sender, callId);
      running := running[nextRun := entry];
    }

    /** The rest of `run`, once the engine's promise settles. */
    method Finish(entry: Running, answer: Answer) returns (out: Outcome)
      requires Valid() && entry in running.Values
      modifies `running
      ensures Valid() && running == old(running) - {entry.number}
      ensures (View(), out) == SettledStep(old(View()), entry.number, answer)
      // What the engine answered, or its error as an error; a cancelled run changes only the status.
      ensures out.Replied? && out.sender == entry.sender && out.callId == entry.callId
      ensures answer.Returned? ==> out.result == answer.result.(status := out.result.status)
      ensures answer.Threw? ==>
        out.result.output == answer.message && out.result.exit == None && out.result.truncated == None
      ensures out.result.status
              == if entry.cancelled then Cancelled else if answer.Returned? then answer.result.status else Error
    {
      var result;
      match answer {
        case Returned(r) => result := r;
        case Threw(message) => result := ToolResult(Error, message, None, None);
      }
      running := running - {entry.number};
      assert Table() == old(Table()) - {entry.number};
      if entry.cancelled {
        result := result.(status := Cancelled);
      }
      return Replied(entry.number, entry.sender, entry.callId, result);
    }
  }

  // --- Sending a result --------------------------------------------------------------

  datatype Chunk = Chunk(callId: string, seqNo: nat, total: nat, data: string)

  function Joined(chunks: seq<Chunk>): string {
    if chunks == [] then "" else chunks[0].data + Joined(chunks[1..])
  }

  lemma {:induction false} JoinedAppend(chunks: seq<Chunk>, c: Chunk)
    ensures Joined(chunks + [c]) == Joined(chunks) + c.data
  {
    if chunks == [] {
      assert [c][1..] == [];
    } else {
      JoinedAppend(chunks[1..], c);
      assert (chunks + [c])[1..] == chunks[1..] + [c];
    }
  }

  function CeilDiv(n: nat, d: nat): (q: nat)
    requires d > 0
    ensures (q - 1) * d < n <= q * d || (n == 0 && q == 0)
  {
    DivMod(n + d - 1, d);
    (n + d - 1) / d
  }

  lemma DivMod(n: nat, d: nat)
    requires d > 0
    ensures (n / d) * d <= n < (n / d + 1) * d
  {
    assert n == (n / d) * d + n % d;
    assert (n / d + 1) * d == (n / d) * d + d;
  }

  lemma MulMonotone(m: nat, n: nat, d: nat)
    requires m <= n
    ensures m * d <= n * d
  {
  }

  /** One encoded result as numbered messages, each at most `chunkChars` long, that join back to it. */
  method ChunkResult(callId: string, json: string, chunkChars: nat) returns (out: seq<Chunk>)
    requires chunkChars > 0
    ensures Joined(out) == json
    ensures |out| >= 1 && (|out| > 1 ==> (|out| - 1) * chunkChars < |json|)
    ensures forall i :: 0 <= i < |out| ==>
      && out[i].callId == callId && out[i].seqNo == i && out[i].total == |out|
      && |out[i].data| <= chunkChars
      && (i < |out| - 1 ==> |out[i].data| == chunkChars)
  {
    var total := if CeilDiv(|json|, chunkChars) < 1 then 1 else CeilDiv(|json|, chunkChars);
    out := [];
    ghost var upTo := 0;
    for n := 0 to total
      invariant |out| == n && upTo <= |json|
      invariant upTo == if n < total then n * chunkChars else |json|
      invariant Joined(out) == json[..upTo]
      invariant forall i :: 0 <= i < n ==>
        && out[i].callId == callId && out[i].seqNo == i && out[i].total == total
        && |out[i].data| <= chunkChars
        && (i < total - 1 ==> |out[i].data| == chunkChars)
    {
      var from := n * chunkChars;
      var end := if from + chunkChars <= |json| then from + chunkChars else |json|;
      assert (n + 1) * chunkChars == from + chunkChars;
      if n < total - 1 {
        MulMonotone(n + 1, total - 1, chunkChars);
      }
      var chunk := Chunk(callId, n, total, json[from..end]);
      JoinedAppend(out, chunk);
      out := out + [chunk];
      assert json[..from] + json[from..end] == json[..end];
      upTo := end;
    }
    assert json[..upTo] == json;
  }
}
