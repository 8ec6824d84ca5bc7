/** The per-contact "Local PC access" gate and its replay memory (electron/localTools/localAccess.ts). */
module LocalAccess {
  import opened Basics

  /** A moment or a span in milliseconds. A sender may choose a fractional expiry. */
  type Millis = real

  const MAX_CALL_LIFETIME_MS: Millis := 600_000.0

  const LOCAL_TOOL_NAMES := {"bash", "read", "write", "edit", "ls", "find", "grep"}

  predicate IsLowerHex(s: string, n: nat) {
    |s| == n && forall i :: 0 <= i < |s| ==> '0' <= s[i] <= '9' || 'a' <= s[i] <= 'f'
  }

  predicate IsHexPubkey(s: string) {
    IsLowerHex(s, 64)
  }

  datatype Access = Access(
    deviceId: string,
    owner: Option<string>,
    enabled: map<string, Millis>,
    seenCalls: map<string, Millis>)

  predicate IsEnabled(a: Access, pubkey: string) {
    pubkey in a.enabled
  }

  /** Every stored name has the shape the rest of the host relies on. */
  predicate WellFormed(a: Access) {
    && (a.owner.Some? ==> IsHexPubkey(a.owner.value))
    && (forall k :: k in a.enabled ==> IsHexPubkey(k))
    && "__proto__" !in a.seenCalls
  }

  // --- The file ----------------------------------------------------------------------

  function NumbersToJson(m: map<string, Millis>): Json {
    Fields(map k | k in m :: Number(m[k]))
  }

  /** What `JSON.stringify(state)` puts in the file. */
  function ToJson(a: Access): Json {
    Fields(map[
      "deviceId" := Text(a.deviceId),
      "ownerPubkey" := if a.owner.Some? then Text(a.owner.value) else Null,
      "enabled" := NumbersToJson(a.enabled),
      "seenCalls" := NumbersToJson(a.seenCalls)])
  }

  function Decimal(n: nat): (s: string)
    ensures |s| >= 1 && (|s| == 1 <==> n < 10)
  {
    var digit := ['0' + (n % 10) as char];
    if n < 10 then digit else Decimal(n / 10) + digit
  }

  lemma {:induction false} DecimalInjective(m: nat, n: nat)
    requires Decimal(m) == Decimal(n)
    ensures m == n
  {
    var dm, dn := Decimal(m), Decimal(n);
    assert dm[|dm| - 1] == '0' + (m % 10) as char && dn[|dn| - 1] == '0' + (n % 10) as char;
    if m >= 10 && n >= 10 {
      assert dm[..|dm| - 1] == Decimal(m / 10) && dn[..|dn| - 1] == Decimal(n / 10);
      DecimalInjective(m / 10, n / 10);
    }
  }

  /** `Object.entries(value ?? {})`. The entries of a string are characters, and both readers below
      keep numbers only, so text has none worth listing. */
  function Entries(value: Option<Json>): map<string, Json> {
    match value
    case Some(Fields(fields)) => fields
    case Some(Items(items)) =>
      assert forall i, j | 0 <= i < |items| && 0 <= j < |items| && Decimal(i) == Decimal(j) :: i == j by {
        forall i, j | 0 <= i < |items| && 0 <= j < |items| && Decimal(i) == Decimal(j) ensures i == j {
          DecimalInjective(i, j);
        }
      }
      map i | 0 <= i < |items| :: Decimal(i) := items[i]
    case _ => map[]
  }

  function ParseEnabled(entries: map<string, Json>): map<string, Millis> {
    map k | k in entries && IsHexPubkey(k) && entries[k].Number? :: entries[k].n
  }

  /** Assigning a number to `__proto__` of an object literal stores nothing. */
  function ParseSeen(entries: map<string, Json>): map<string, Millis> {
    map k | k in entries && k != "__proto__" && entries[k].Number? :: entries[k].n
  }

  /** Anything at all to a usable state; `drawn` is the id a new install would draw. */
  function Parse(raw: Json, drawn: string): Access {
    var id := TextField(raw, "deviceId");
    var owner := TextField(raw, "ownerPubkey");
    Access(
      if id.Some? && IsLowerHex(id.value, 32) then id.value else drawn,
      if owner.Some? && IsHexPubkey(owner.value) then owner else None,
      ParseEnabled(Entries(Field(raw, "enabled"))),
      ParseSeen(Entries(Field(raw, "seenCalls"))))
  }

  /** A saved state reads back unchanged. */
  lemma SavedStateReadsBack(a: Access, drawn: string)
    requires WellFormed(a)
    ensures Parse(ToJson(a), drawn) == a.(deviceId := if IsLowerHex(a.deviceId, 32) then a.deviceId else drawn)
  {
    var raw := ToJson(a);
    assert Entries(Field(raw, "enabled")) == NumbersToJson(a.enabled).fields;
    assert Entries(Field(raw, "seenCalls")) == NumbersToJson(a.seenCalls).fields;
    assert ParseEnabled(NumbersToJson(a.enabled).fields) == a.enabled;
    assert ParseSeen(NumbersToJson(a.seenCalls).fields) == a.seenCalls;
  }

  /** However the file was damaged, what comes out is well formed, and reading the same file again
      can only differ in a newly drawn device id. */
  lemma ParseTotal(raw: Json, drawn: string, other: string)
    ensures WellFormed(Parse(raw, drawn))
    ensures Parse(raw, Parse(raw, drawn).deviceId) == Parse(raw, drawn)
    ensures Parse(raw, other).(deviceId := drawn) == Parse(raw, drawn).(deviceId := drawn)
  {
  }

  // --- The owner ---------------------------------------------------------------------

  /** Another identity starts with no switch and no memory; the flag says whether it cost anyone a switch. */
  function WithOwner(a: Access, pubkey: string): (Access, bool) {
    if a.owner == Some(pubkey) then (a, false)
    else (Access(a.deviceId, Some(pubkey), map[], map[]), a.enabled != map[])
  }

  // --- Tool calls --------------------------------------------------------------------

  datatype ToolCall = ToolCall(
    callId: string,
    deviceId: string,
    tool: string,
    args: Json,
    expiresAt: Millis,
    groupId: Option<string>,
    timeoutMs: Option<Millis>)

  predicate IsWordChar(c: char) {
    '0' <= c <= '9' || 'a' <= c <= 'z' || 'A' <= c <= 'Z' || c == '_'
  }

  predicate IsCallId(s: string) {
    1 <= |s| <= 64 && forall i :: 0 <= i < |s| ==> IsWordChar(s[i]) || s[i] == '-'
  }

  function ParseToolCall(raw: Json): Option<ToolCall> {
    var callId, deviceId, tool := TextField(raw, "callId"), TextField(raw, "deviceId"), TextField(raw, "tool");
    var args, expiresAt := Field(raw, "args"), NumberField(raw, "expiresAt");
    var groupId, timeoutMs := TextField(raw, "groupId"), NumberField(raw, "timeoutMs");
    if callId.None? || !IsCallId(callId.value) then None
    else if deviceId.None? then None
    else if tool.None? || tool.value !in LOCAL_TOOL_NAMES then None
    else if args.None? || !args.value.Fields? then None
    else if expiresAt.None? then None
    else if Field(raw, "groupId").Some? && groupId.None? then None
    else if Field(raw, "timeoutMs").Some? && timeoutMs.None? then None
    else Some(ToolCall(callId.value, deviceId.value, tool.value, args.value, expiresAt.value, groupId, timeoutMs))
  }

  function SeenKey(sender: string, callId: string): string {
    sender + ":" + callId
  }

  /** One contact's call id can never stand for another contact's. */
  lemma SeenKeyInjective(s1: string, c1: string, s2: string, c2: string)
    requires IsHexPubkey(s1) && IsHexPubkey(s2) && SeenKey(s1, c1) == SeenKey(s2, c2)
    ensures s1 == s2 && c1 == c2
  {
    assert SeenKey(s1, c1)[..64] == s1 && SeenKey(s2, c2)[..64] == s2;
    assert SeenKey(s1, c1)[65..] == c1 && SeenKey(s2, c2)[65..] == c2;
  }

  lemma SeenKeyIsNotProto(sender: string, callId: string)
    requires IsHexPubkey(sender)
    ensures SeenKey(sender, callId) != "__proto__"
  {
    assert |SeenKey(sender, callId)| >= 65;
  }

  datatype GroupInfo = GroupInfo(isSession: bool, members: seq<string>)

  datatype Decision = Run | SwitchOff | WrongDevice | Expired | Replay | GroupDenied | NoOwner

  /** The whole gate. */
  function Decide(a: Access, sender: string, call: ToolCall, group: Option<GroupInfo>, now: Millis): Decision {
    if a.owner.None? then NoOwner
    else if !IsEnabled(a, sender) then SwitchOff
    else if call.deviceId != a.deviceId then WrongDevice
    else if call.expiresAt <= now || call.expiresAt > now + MAX_CALL_LIFETIME_MS then Expired
    else if SeenKey(sender, call.callId) in a.seenCalls then Replay
    else if call.groupId.Some? && !(group.Some? && group.value.isSession && sender in group.value.members)
    then GroupDenied
    else Run
  }

  function Pruned(seen: map<string, Millis>, now: Millis): map<string, Millis> {
    map k | k in seen && !(seen[k] <= now) :: seen[k]
  }

  function Remembered(a: Access, sender: string, call: ToolCall, now: Millis): Access {
    a.(seenCalls := Pruned(a.seenCalls, now)[SeenKey(sender, call.callId) := call.expiresAt])
  }

  method ReadEnabled(entries: map<string, Json>) returns (enabled: map<string, Millis>)
    ensures enabled == ParseEnabled(entries)
  {
    enabled := map[];
    var todo := entries.Keys;
    while todo != {}
      invariant todo <= entries.Keys
      invariant enabled == map k | k in ParseEnabled(entries) && k !in todo :: ParseEnabled(entries)[k]
    {
      var k :| k in todo;
      if IsHexPubkey(k) && entries[k].Number? {
        enabled := enabled[k := entries[k].n];
      }
      todo := todo - {k};
    }
  }

  method ReadSeen(entries: map<string, Json>) returns (seen: map<string, Millis>)
    ensures seen == ParseSeen(entries)
  {
    seen := map[];
    var todo := entries.Keys;
    while todo != {}
      invariant todo <= entries.Keys
      invariant seen == map k | k in ParseSeen(entries) && k !in todo :: ParseSeen(entries)[k]
    {
      var k :| k in todo;
      if k != "__proto__" && entries[k].Number? {
        seen := seen[k := entries[k].n];
      }
      todo := todo - {k};
    }
  }

  /** The state object the host keeps and changes in place. */
  class LocalAccessState {
    const deviceId: string
    var ownerPubkey: Option<string>
    var enabled: map<string, Millis>
    var seenCalls: map<string, Millis>

    ghost function View(): Access
      reads this
    {
      Access(deviceId, ownerPubkey, enabled, seenCalls)
    }

    constructor FromFile(raw: Json, drawn: string)
      ensures View() == Parse(raw, drawn)
    {
      var id := TextField(raw, "deviceId");
      deviceId := if id.Some? && IsLowerHex(id.value, 32) then id.value else drawn;
      var owner := TextField(raw, "ownerPubkey");
      ownerPubkey := if owner.Some? && IsHexPubkey(owner.value) then owner else None;
      var switches := ReadEnabled(Entries(Field(raw, "enabled")));
      var calls := ReadSeen(Entries(Field(raw, "seenCalls")));
      enabled, seenCalls := switches, calls;
    }

    method SetOwner(pubkey: string) returns (hadSwitches: bool)
      modifies this
      ensures (View(), hadSwitches) == WithOwner(old(View()), pubkey)
    {
      if ownerPubkey == Some(pubkey) {
        return false;
      }
      hadSwitches := |enabled| > 0;
      ownerPubkey := Some(pubkey);
      enabled := map[];
      seenCalls := map[];
    }

    method RememberCall(sender: string, call: ToolCall, now: Millis)
      modifies `seenCalls
      ensures View() == Remembered(old(View()), sender, call, now)
    {
      var todo := seenCalls.Keys;
      while todo != {}
        invariant todo <= old(seenCalls).Keys
        invariant seenCalls == map k | k in old(seenCalls) && (k in todo || !(old(seenCalls)[k] <= now)) ::
            old(seenCalls)[k]
      {
        var k :| k in todo;
        if seenCalls[k] <= now {
          seenCalls := seenCalls - {k};
        }
        todo := todo - {k};
      }
      assert seenCalls == Pruned(old(seenCalls), now);
      seenCalls := seenCalls[SeenKey(sender, call.callId) := call.expiresAt];
    }
  }
}
