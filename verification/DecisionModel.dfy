/** The decision-model setting (electron/decisionModel.ts): like the embeddings setting, with the provider
    alone as the endpoint and a check only when a key is typed. */
module DecisionModel {
  import opened Basics
  import opened Texts
  import opened KeyCipher

  datatype Provider = OpenRouter | TypeSafe

  datatype Stored = Stored(enabled: bool, provider: Provider, model: string, key: Option<string>)

  datatype Payload = Off | Judge(provider: Provider, model: string, apiKey: Option<string>)

  datatype Call = CheckCall(provider: Provider, apiKey: string) | Configure(persona: string, payload: Payload)

  datatype Draft = Draft(enabled: bool, provider: Provider, model: string, key: Option<string>)

  datatype Job = Free | Checking(draft: Draft) | Applying(payload: Payload)

  datatype State = State(stored: Option<Stored>, file: Option<Json>, job: Job)

  datatype Event =
    | Check(input: Json, up: bool)
    | Save(input: Json, up: bool, canStore: bool, written: bool)
    | Verdict(accepted: bool, canStore: bool, written: bool)
    | NextPersona(persona: string)
    | Done
    | ApplyTo(persona: string, up: bool)
    | Reopen

  const MAX_KEY_CHARS := 4096
  const MAX_MODEL_CHARS := 200
  const DEFAULT_DECISION_MODEL := "typesafe/jev-1.13"

  function ProviderOf(input: Json): Option<Provider> {
    match TextField(input, "provider")
    case Some(p) => if p == "openrouter" then Some(OpenRouter) else if p == "typesafe" then Some(TypeSafe) else None
    case None => None
  }

  function ProviderName(p: Provider): string {
    if p == OpenRouter then "openrouter" else "typesafe"
  }

  function Trimmed(input: Json, key: string): string {
    match TextField(input, key)
    case Some(s) => Trim(s)
    case None => ""
  }

  // --- The file ----------------------------------------------------------------------

  function ToJson(s: Stored): Json {
    var fields := map["enabled" := Bool(s.enabled), "provider" := Text(ProviderName(s.provider)),
        "model" := Text(s.model)];
    Fields(if s.key.Some? then fields["key" := Text(s.key.value)] else fields)
  }

  function NormalizeStored(raw: Json): Option<Stored> {
    var provider := ProviderOf(raw);
    match Field(raw, "enabled")
    case Some(Bool(enabled)) =>
      if provider.None? then None
      else
        var text := TextField(raw, "model");
        var model := if text.Some? && Trim(text.value) != "" && |text.value| <= MAX_MODEL_CHARS then Trim(text.value)
                     else DEFAULT_DECISION_MODEL;
        var key := TextField(raw, "key");
        Some(Stored(enabled, provider.value, model, if key == Some("") then None else key))
    case _ => None
  }

  predicate WellFormed(s: Stored) {
    s.model != "" && Trim(s.model) == s.model && |s.model| <= MAX_MODEL_CHARS && s.key != Some("")
  }

  /** A written setting reads back as it was. */
  lemma SettingReadsBack(s: Stored)
    requires WellFormed(s)
    ensures NormalizeStored(ToJson(s)) == Some(s)
  {
    var raw := ToJson(s);
    assert Field(raw, "enabled") == Some(Bool(s.enabled)) && ProviderOf(raw) == Some(s.provider);
    assert TextField(raw, "model") == Some(s.model) && TextField(raw, "key") == s.key;
  }

  // --- Steps -------------------------------------------------------------------------

  function KeyFor(c: Cipher, stored: Option<Stored>, p: Provider, up: bool): Option<string> {
    if stored.Some? && stored.value.provider == p then Opened(c, stored.value.key, up) else None
  }

  function CheckRequest(c: Cipher, stored: Option<Stored>, input: Json, up: bool): Option<Call> {
    var provider := ProviderOf(input);
    var typed := Trimmed(input, "apiKey");
    if provider.None? || |typed| > MAX_KEY_CHARS then None
    else
      var key := if typed != "" then Some(typed) else KeyFor(c, stored, provider.value, up);
      if key.None? then None else Some(CheckCall(provider.value, key.value))
  }

  function ConfigurePayload(enabled: bool, p: Provider, model: string, apiKey: Option<string>): Payload {
    if !enabled then Off else Judge(p, model, apiKey)
  }

  function Drafted(c: Cipher, stored: Option<Stored>, input: Json, up: bool): Option<Draft> {
    var provider := ProviderOf(input);
    match Field(input, "enabled")
    case Some(Bool(enabled)) =>
      var model := Trimmed(input, "model");
      var typed := Trimmed(input, "apiKey");
      if provider.None? || model == "" || |model| > MAX_MODEL_CHARS || |typed| > MAX_KEY_CHARS then None
      else
        var key := if typed != "" then Some(typed) else KeyFor(c, stored, provider.value, up);
        if enabled && key.None? then None else Some(Draft(enabled, provider.value, model, key))
    case _ => None
  }

  function Finish(c: Cipher, s: State, d: Draft, canStore: bool, written: bool): State {
    var next := Stored(d.enabled, d.provider, d.model, Sealed(c, d.key, canStore));
    if !written then s.(job := Free)
    else State(Some(next), Some(ToJson(next)), Applying(ConfigurePayload(d.enabled, d.provider, d.model, d.key)))
  }

  function OnSave(c: Cipher, s: State, input: Json, up: bool, canStore: bool, written: bool): (State, Option<Call>) {
    var draft := Drafted(c, s.stored, input, up);
    if s.job != Free || draft.None? then (s, None)
    else if Trimmed(input, "apiKey") == "" then (Finish(c, s, draft.value, canStore, written), None)
    else (s.(job := Checking(draft.value)), Some(CheckCall(draft.value.provider, Trimmed(input, "apiKey"))))
  }

  function OnApplyTo(c: Cipher, s: State, persona: string, up: bool): Option<Call> {
    if s.stored.None? then None
    else
      var stored := s.stored.value;
      var key := Opened(c, stored.key, up);
      if stored.enabled && key.None? then None
      else Some(Configure(persona, ConfigurePayload(stored.enabled, stored.provider, stored.model, key)))
  }

  function Open(file: Option<Json>): State {
    State(if file.Some? then NormalizeStored(file.value) else None, file, Free)
  }

  function Step(c: Cipher, s: State, e: Event): (State, Option<Call>) {
    match e
    case Check(input, up) => (s, CheckRequest(c, s.stored, input, up))
    case Save(input, up, canStore, written) => OnSave(c, s, input, up, canStore, written)
    case Verdict(accepted, canStore, written) =>
      if !s.job.Checking? then (s, None)
      else if !accepted then (s.(job := Free), None)
      else (Finish(c, s, s.job.draft, canStore, written), None)
    case NextPersona(persona) => (s, if s.job.Applying? then Some(Configure(persona, s.job.payload)) else None)
    case Done => (if s.job.Applying? then s.(job := Free) else s, None)
    case ApplyTo(persona, up) => (s, OnApplyTo(c, s, persona, up))
    case Reopen => (Open(s.file), None)
  }

  class DecisionModelSettings {
    const cipher: Cipher
    var stored: Option<Stored>
    var file: Option<Json>
    var job: Job

    ghost function View(): State
      reads this
    {
      State(stored, file, job)
    }

    constructor (cipher: Cipher, file: Option<Json>)
      ensures View() == Open(file) && this.cipher == cipher
    {
      this.cipher, this.file, job := cipher, file, Free;
      stored := if file.Some? then NormalizeStored(file.value) else None;
    }

    method Persist(d: Draft, canStore: bool, written: bool)
      modifies this
      ensures View() == Finish(cipher, old(View()), d, canStore, written)
    {
      job := Free;
      var next := Stored(d.enabled, d.provider, d.model, Sealed(cipher, d.key, canStore));
      if !written {
        return;
      }
      file := Some(ToJson(next));
      stored := Some(next);
      job := Applying(ConfigurePayload(d.enabled, d.provider, d.model, d.key));
    }

    method BeginSave(input: Json, up: bool, canStore: bool, written: bool) returns (call: Option<Call>)
      requires job == Free
      modifies this
      ensures (View(), call) == Step(cipher, old(View()), Save(input, up, canStore, written))
    {
      call := None;
      var draft := Drafted(cipher, stored, input, up);
      if draft.None? {
        return;
      }
      var typed := Trimmed(input, "apiKey");
      if typed == "" {
        Persist(draft.value, canStore, written);
        return;
      }
      job := Checking(draft.value);
      call := Some(CheckCall(draft.value.provider, typed));
    }

    method OnVerdict(accepted: bool, canStore: bool, written: bool)
      requires job.Checking?
      modifies this
      ensures (View(), None) == Step(cipher, old(View()), Verdict(accepted, canStore, written))
    {
      if accepted {
        Persist(job.draft, canStore, written);
      } else {
        job := Free;
      }
    }

    method ApplyToPersona(persona: string, up: bool) returns (call: Option<Call>)
      ensures (View(), call) == Step(cipher, View(), ApplyTo(persona, up))
      // Nothing is sent before a first save, nor where the model would be on without a key.
      ensures call.None? <==>
        stored.None? || (stored.value.enabled && Opened(cipher, stored.value.key, up).None?)
      // What is sent is off, or the saved provider and model with the stored key and no other.
      ensures call.Some? ==> call.value.Configure? && call.value.persona == persona
      ensures call.Some? ==>
        match call.value.payload
        case Off => !stored.value.enabled
        case Judge(p, model, key) =>
          && stored.value.enabled && stored.value.provider == p && stored.value.model == model
          && key.Some? && stored.value.key.Some? && cipher.decrypt(stored.value.key.value) == key
    {
      if stored.None? {
        return None;
      }
      var key := Opened(cipher, stored.value.key, up);
      if stored.value.enabled && key.None? {
        return None;
      }
      return Some(Configure(persona,
          ConfigurePayload(stored.value.enabled, stored.value.provider, stored.value.model, key)));
    }
  }

  // --- Keys stay with their provider -------------------------------------------------

  function Carried(call: Option<Call>): set<(Provider, string)> {
    match call
    case Some(CheckCall(p, key)) => {(p, key)}
    case Some(Configure(_, Judge(p, _, Some(key)))) => {(p, key)}
    case _ => {}
  }

  function Typed(e: Event): set<(Provider, string)> {
    if !e.Check? && !e.Save? then {}
    else
      var key := Trimmed(e.input, "apiKey");
      var p := ProviderOf(e.input);
      if key == "" || p.None? then {} else {(p.value, key)}
  }

  ghost predicate Mine(key: Option<string>, p: Provider, entered: set<(Provider, string)>) {
    key.Some? ==> (p, key.value) in entered && key.value != ""
  }

  /** Memory is what the file holds, and every key at hand belongs where it would go. */
  ghost predicate Confined(c: Cipher, s: State, entered: set<(Provider, string)>) {
    && s.stored == Open(s.file).stored
    && (s.stored.Some? ==> WellFormed(s.stored.value)
                           && Mine(Opened(c, s.stored.value.key, true), s.stored.value.provider, entered))
    && (s.job.Checking? ==>
          && Mine(s.job.draft.key, s.job.draft.provider, entered)
          && WellFormed(Stored(true, s.job.draft.provider, s.job.draft.model, None)))
    && (s.job.Applying? ==> Carried(Some(Configure("", s.job.payload))) <= entered)
  }

  lemma FinishIsConfined(c: Cipher, s: State, d: Draft, canStore: bool, written: bool, entered: set<(Provider, string)>)
    requires Faithful(c) && Confined(c, s, entered)
    requires Mine(d.key, d.provider, entered) && WellFormed(Stored(true, d.provider, d.model, None))
    ensures Confined(c, Finish(c, s, d, canStore, written), entered)
  {
    hide Faithful, NormalizeStored, ToJson;
    SealedOpens(c, d.key, canStore, true);
    SettingReadsBack(Stored(d.enabled, d.provider, d.model, Sealed(c, d.key, canStore)));
  }

  lemma SaveIsConfined(c: Cipher, s: State, e: Event, entered: set<(Provider, string)>)
    requires Faithful(c) && Confined(c, s, entered) && e.Save?
    ensures var (s', call) := Step(c, s, e); Confined(c, s', entered + Typed(e)) && Carried(call) <= entered + Typed(e)
  {
    hide Faithful, Finish, NormalizeStored;
    var draft := Drafted(c, s.stored, e.input, e.up);
    if draft.Some? {
      TrimTwice(match TextField(e.input, "model") case Some(m) => m case None => "");
      assert Mine(draft.value.key, draft.value.provider, entered + Typed(e));
      assert WellFormed(Stored(true, draft.value.provider, draft.value.model, None));
      if s.job == Free && Trimmed(e.input, "apiKey") == "" {
        FinishIsConfined(c, s, draft.value, e.canStore, e.written, entered + Typed(e));
      }
    }
  }

  lemma StepIsConfined(c: Cipher, s: State, e: Event, entered: set<(Provider, string)>)
    requires Faithful(c) && Confined(c, s, entered)
    ensures var (s', call) := Step(c, s, e); Confined(c, s', entered + Typed(e)) && Carried(call) <= entered + Typed(e)
  {
    hide Faithful, Finish, NormalizeStored, OnSave, WellFormed;
    match e {
      case Save(_, _, _, _) => SaveIsConfined(c, s, e, entered);
      case Verdict(accepted, canStore, written) =>
        if s.job.Checking? { FinishIsConfined(c, s, s.job.draft, canStore, written, entered + Typed(e)); }
      case _ =>
    }
  }

  datatype Trace = Trace(states: seq<State>, events: seq<Event>, calls: seq<Option<Call>>)

  ghost predicate Linked(c: Cipher, tr: Trace, k: nat) {
    && k < |tr.events| && k < |tr.calls| && k + 1 < |tr.states|
    && (tr.states[k + 1], tr.calls[k]) == Step(c, tr.states[k], tr.events[k])
  }

  /** A run from a first start: no file yet, or one that cannot be read. */
  ghost predicate IsRun(c: Cipher, tr: Trace) {
    && |tr.states| == |tr.events| + 1 && |tr.calls| == |tr.events|
    && tr.states[0] == Open(None)
    && forall k: nat :: k < |tr.events| ==> Linked(c, tr, k)
  }

  function Entered(events: seq<Event>, n: nat): set<(Provider, string)>
    requires n <= |events|
  {
    if n == 0 then {} else Entered(events, n - 1) + Typed(events[n - 1])
  }

  lemma {:induction false} EnteredWasTyped(events: seq<Event>, n: nat, entry: (Provider, string))
    requires n <= |events|
    ensures entry in Entered(events, n) <==> exists i :: 0 <= i < n && entry in Typed(events[i])
  {
    hide Typed;
    if n > 0 {
      EnteredWasTyped(events, n - 1, entry);
    }
  }

  lemma NothingIsConfined(c: Cipher)
    ensures Confined(c, Open(None), {})
  {
  }

  lemma {:induction false} RunIsConfined(c: Cipher, tr: Trace, k: nat)
    requires Faithful(c) && IsRun(c, tr) && k < |tr.states|
    ensures Confined(c, tr.states[k], Entered(tr.events, k))
  {
    hide Step, Faithful, Confined, Typed, Carried;
    if k == 0 {
      NothingIsConfined(c);
    } else {
      RunIsConfined(c, tr, k - 1);
      assert Linked(c, tr, k - 1);
      StepIsConfined(c, tr.states[k - 1], tr.events[k - 1], Entered(tr.events, k - 1));
    }
  }

  /** On every run of checks, saves, new personas and relaunches: a bridge call that carries a key for a
      provider carries one the user typed, then or earlier, for that provider. */
  lemma KeysStayWithTheirProvider(c: Cipher, tr: Trace, k: nat, entry: (Provider, string))
    requires Faithful(c) && IsRun(c, tr) && k < |tr.events| && entry in Carried(tr.calls[k])
    ensures exists i :: 0 <= i <= k && entry in Typed(tr.events[i])
  {
    hide Step, Faithful, Carried, Typed;
    RunIsConfined(c, tr, k);
    assert Linked(c, tr, k);
    StepIsConfined(c, tr.states[k], tr.events[k], Entered(tr.events, k));
    EnteredWasTyped(tr.events, k + 1, entry);
  }

  /** And the setting in memory is always the one in the file: a save that fails changes neither. */
  lemma MemoryIsTheFile(c: Cipher, tr: Trace, k: nat)
    requires Faithful(c) && IsRun(c, tr) && k < |tr.states|
    ensures tr.states[k].stored == Open(tr.states[k].file).stored
    ensures tr.states[k].stored.Some? ==>
        tr.states[k].file.Some? && NormalizeStored(ToJson(tr.states[k].stored.value)) == tr.states[k].stored
  {
    hide Step, Faithful;
    RunIsConfined(c, tr, k);
    if tr.states[k].stored.Some? {
      SettingReadsBack(tr.states[k].stored.value);
    }
  }
}
