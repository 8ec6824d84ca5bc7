/** The embeddings setting (electron/embeddings.ts): one provider for every persona, its key kept
    encrypted in main and reused only for the endpoint it was typed for. */
module Embeddings {
  import opened Basics
  import opened Texts
  import opened KeyCipher

  datatype Provider = Gemini | Compatible

  datatype Stored = Stored(enabled: bool, provider: Provider, baseUrl: string, model: string, dims: nat,
      key: Option<string>)

  datatype Payload =
    | Off
    | ToGemini(apiKey: Option<string>, model: string, dims: nat)
    | ToCompatible(baseUrl: string, model: string, dims: nat, apiKey: Option<string>)

  /** The bridge calls that may carry the key. */
  datatype Call =
    | CheckCall(provider: Provider, baseUrl: string, apiKey: Option<string>, model: string)
    | Configure(persona: string, payload: Payload)

  /** What `save` has settled before it asks the provider. */
  datatype Draft = Draft(enabled: bool, provider: Provider, baseUrl: string, model: string, dims: nat,
      key: Option<string>)

  datatype Job = Free | Checking(draft: Draft) | Applying(payload: Payload)

  datatype State = State(stored: Option<Stored>, file: Option<Json>, job: Job)

  /** `up` and `canStore` say whether the cipher answers at that call, `written` whether the file does. */
  datatype Event =
    | Check(input: Json, up: bool)
    | Save(input: Json, up: bool, checkUp: bool, canStore: bool, written: bool)
    | Verdict(verified: bool, dims: nat, canStore: bool, written: bool)
    | NextPersona(persona: string)
    | Done
    | ApplyTo(persona: string, up: bool)
    | Reopen

  const MAX_KEY_CHARS := 4096
  const MAX_MODEL_CHARS := 512
  const MAX_URL_CHARS := 2048
  const GEMINI_EMBEDDING_MODEL := "gemini-embedding-001"

  function ProviderOf(input: Json): Option<Provider> {
    match TextField(input, "provider")
    case Some(p) =>
      if p == "gemini" then Some(Gemini) else if p == "openai-compatible" then Some(Compatible) else None
    case None => None
  }

  function ProviderName(p: Provider): string {
    if p == Gemini then "gemini" else "openai-compatible"
  }

  function Trimmed(input: Json, key: string): string {
    match TextField(input, key)
    case Some(s) => Trim(s)
    case None => ""
  }

  function UrlText(input: Json, p: Provider): string {
    match TextField(input, "baseUrl")
    case Some(s) => if p == Compatible then s else ""
    case None => ""
  }

  /** The code's own idea of an endpoint. */
  function Endpoint(p: Provider, baseUrl: string): string {
    if p == Gemini then "gemini" else "openai-compatible|" + StripSlashes(Trim(baseUrl))
  }

  // --- The file ----------------------------------------------------------------------

  function ToJson(s: Stored): Json {
    var fields := map["enabled" := Bool(s.enabled), "provider" := Text(ProviderName(s.provider)),
                      "baseUrl" := Text(s.baseUrl), "model" := Text(s.model), "dims" := Number(s.dims as real)];
    Fields(if s.key.Some? then fields["key" := Text(s.key.value)] else fields)
  }

  function Dims(raw: Json): nat {
    match NumberField(raw, "dims")
    case Some(n) => if n == n.Floor as real && n > 0.0 then n.Floor else 0
    case None => 0
  }

  function NormalizeStored(raw: Json): Option<Stored> {
    var provider := ProviderOf(raw);
    match Field(raw, "enabled")
    case Some(Bool(enabled)) =>
      if provider.None? then None
      else
        var p := provider.value;
        var text := TextField(raw, "model");
        var model := if text.Some? && Trim(text.value) != "" && |text.value| <= MAX_MODEL_CHARS then Trim(text.value)
                     else if p == Gemini then GEMINI_EMBEDDING_MODEL else "";
        if model == "" then None
        else
          var key := TextField(raw, "key");
          Some(Stored(enabled, p, UrlText(raw, p), model, Dims(raw), if key == Some("") then None else key))
    case _ => None
  }

  /** What the program writes. */
  predicate WellFormed(s: Stored) {
    && (s.provider == Gemini ==> s.baseUrl == "")
    && s.model != "" && Trim(s.model) == s.model && |s.model| <= MAX_MODEL_CHARS
    && s.key != Some("")
  }

  /** A written setting reads back as it was. */
  lemma SettingReadsBack(s: Stored)
    requires WellFormed(s)
    ensures NormalizeStored(ToJson(s)) == Some(s)
  {
    var raw := ToJson(s);
    assert Field(raw, "enabled") == Some(Bool(s.enabled)) && ProviderOf(raw) == Some(s.provider);
    assert TextField(raw, "model") == Some(s.model) && TextField(raw, "baseUrl") == Some(s.baseUrl);
    assert (s.dims as real).Floor == s.dims;
    assert TextField(raw, "key") == s.key;
  }

  // --- Keys --------------------------------------------------------------------------

  function Key(c: Cipher, stored: Option<Stored>, up: bool): Option<string> {
    if stored.None? then None else Opened(c, stored.value.key, up)
  }

  function KeyFor(c: Cipher, stored: Option<Stored>, p: Provider, baseUrl: string, up: bool): Option<string> {
    if stored.Some? && Endpoint(stored.value.provider, stored.value.baseUrl) == Endpoint(p, baseUrl)
    then Key(c, stored, up) else None
  }

  datatype CheckOutcome = Throws | Unchecked | Asks(call: Call)

  /** `check`, up to its bridge call. */
  function CheckRequest(c: Cipher, stored: Option<Stored>, input: Json, up: bool): CheckOutcome {
    var provider := ProviderOf(input);
    if provider.None? then Throws
    else
      var p := provider.value;
      var baseUrl := Trim(UrlText(input, p));
      var typed := Trimmed(input, "apiKey");
      var model := Trimmed(input, "model");
      if |baseUrl| > MAX_URL_CHARS || |typed| > MAX_KEY_CHARS || |model| > MAX_MODEL_CHARS then Throws
      else if p == Compatible && baseUrl == "" then Unchecked
      else Asks(CheckCall(p, baseUrl, if typed != "" then Some(typed) else KeyFor(c, stored, p, baseUrl, up), model))
  }

  function ConfigurePayload(s: Stored, apiKey: Option<string>): Payload {
    if !s.enabled then Off
    else if s.provider == Gemini then ToGemini(apiKey, s.model, s.dims)
    else ToCompatible(s.baseUrl, s.model, s.dims, apiKey)
  }

  // --- Saving ------------------------------------------------------------------------

  /** `#save` up to its check, or nothing where it refuses the input. */
  function Drafted(c: Cipher, stored: Option<Stored>, input: Json, up: bool): Option<Draft> {
    var provider := ProviderOf(input);
    match Field(input, "enabled")
    case Some(Bool(enabled)) =>
      if provider.None? then None
      else
        var p := provider.value;
        var baseUrl := StripSlashes(Trim(UrlText(input, p)));
        var text := Trimmed(input, "model");
        var model := if text == "" && p == Gemini then GEMINI_EMBEDDING_MODEL else text;
        var typed := Trimmed(input, "apiKey");
        if |baseUrl| > MAX_URL_CHARS || model == "" || |model| > MAX_MODEL_CHARS || |typed| > MAX_KEY_CHARS then None
        else
          var key := if typed != "" then Some(typed) else KeyFor(c, stored, p, baseUrl, up);
          var dims := if stored.Some? && Endpoint(stored.value.provider, stored.value.baseUrl) == Endpoint(p, baseUrl)
                         && stored.value.model == model then stored.value.dims else 0;
          if enabled && ((p == Gemini && key.None?) || (p == Compatible && baseUrl == "")) then None
          else Some(Draft(enabled, p, baseUrl, model, dims, key))
    case _ => None
  }

  function DraftInput(d: Draft): Json {
    Fields(map["provider" := Text(ProviderName(d.provider)), "baseUrl" := Text(d.baseUrl),
               "apiKey" := Text(if d.key.Some? then d.key.value else ""), "model" := Text(d.model)])
  }

  function Kept(c: Cipher, d: Draft, canStore: bool): Stored {
    Stored(d.enabled, d.provider, d.baseUrl, d.model, d.dims, Sealed(c, d.key, canStore))
  }

  /** Write, then remember, then apply; a write that fails changes nothing. */
  function Finish(c: Cipher, s: State, d: Draft, canStore: bool, written: bool): State {
    var next := Kept(c, d, canStore);
    if !written then s.(job := Free)
    else State(Some(next), Some(ToJson(next)), Applying(ConfigurePayload(next, d.key)))
  }

  function OnSave(c: Cipher, s: State, e: Event): (State, Option<Call>)
    requires e.Save?
  {
    var draft := Drafted(c, s.stored, e.input, e.up);
    if s.job != Free || draft.None? then (s, None)
    else if !draft.value.enabled then (Finish(c, s, draft.value, e.canStore, e.written), None)
    else
      match CheckRequest(c, s.stored, DraftInput(draft.value), e.checkUp)
      case Asks(call) => (s.(job := Checking(draft.value)), Some(call))
      case _ => (s, None)
  }

  function OnApplyTo(c: Cipher, s: State, persona: string, up: bool): Option<Call> {
    if s.stored.None? then None
    else
      var stored := s.stored.value;
      var key := Key(c, s.stored, up);
      if stored.enabled && stored.provider == Gemini && key.None? then None
      else Some(Configure(persona, ConfigurePayload(stored, key)))
  }

  function Open(file: Option<Json>): State {
    State(if file.Some? then NormalizeStored(file.value) else None, file, Free)
  }

  function Step(c: Cipher, s: State, e: Event): (State, Option<Call>) {
    match e
    case Check(input, up) =>
      (s, match CheckRequest(c, s.stored, input, up) case Asks(call) => Some(call) case _ => None)
    case Save(_, _, _, _, _) => OnSave(c, s, e)
    case Verdict(verified, dims, canStore, written) =>
      if !s.job.Checking? then (s, None)
      else if !verified then (s.(job := Free), None)
      else (Finish(c, s, s.job.draft.(dims := dims), canStore, written), None)
    case NextPersona(persona) => (s, if s.job.Applying? then Some(Configure(persona, s.job.payload)) else None)
    case Done => (if s.job.Applying? then s.(job := Free) else s, None)
    case ApplyTo(persona, up) => (s, OnApplyTo(c, s, persona, up))
    case Reopen => (Open(s.file), None)
  }

  // --- The object --------------------------------------------------------------------

  class EmbeddingsSettings {
    const cipher: Cipher
    var stored: Option<Stored>
    var file: Option<Json>
    var job: Job

    ghost function View(): State
      reads this
    {
      State(stored, file, job)
    }

    constructor (cipher: Cipher, file: Option<Json>)
      ensures View() == Open(file) && this.cipher == cipher
    {
      this.cipher, this.file, job := cipher, file, Free;
      stored := if file.Some? then NormalizeStored(file.value) else None;
    }

    /** The second half of `#save`. */
    method Persist(d: Draft, canStore: bool, written: bool)
      modifies this
      ensures View() == Finish(cipher, old(View()), d, canStore, written)
    {
      job := Free;
      var next := Stored(d.enabled, d.provider, d.baseUrl, d.model, d.dims, Sealed(cipher, d.key, canStore));
      if !written {
        return;
      }
      file := Some(ToJson(next));
      stored := Some(next);
      job := Applying(ConfigurePayload(next, d.key));
    }

    method BeginSave(input: Json, up: bool, checkUp: bool, canStore: bool, written: bool) returns (call: Option<Call>)
      requires job == Free
      modifies this
      ensures (View(), call) == Step(cipher, old(View()), Save(input, up, checkUp, canStore, written))
    {
      call := None;
      var draft := Drafted(cipher, stored, input, up);
      if draft.None? {
        return;
      }
      if !draft.value.enabled {
        Persist(draft.value, canStore, written);
        return;
      }
      var outcome := CheckRequest(cipher, stored, DraftInput(draft.value), checkUp);
      if outcome.Asks? {
        job := Checking(draft.value);
        call := Some(outcome.call);
      }
    }

    method OnVerdict(verified: bool, dims: nat, canStore: bool, written: bool)
      requires job.Checking?
      modifies this
      ensures (View(), None) == Step(cipher, old(View()), Verdict(verified, dims, canStore, written))
    {
      if verified {
        Persist(job.draft.(dims := dims), canStore, written);
      } else {
        job := Free;
      }
    }

    /** `applyTo`, once the save it waits for is over. */
    method ApplyToPersona(persona: string, up: bool) returns (call: Option<Call>)
      ensures (View(), call) == Step(cipher, View(), ApplyTo(persona, up))
      // Nothing is sent before a first save, nor where Gemini would be on without a key.
      ensures call.None? <==>
        stored.None? || (stored.value.enabled && stored.value.provider == Gemini && Key(cipher, stored, up).None?)
      // What is sent is off, or the saved setting in full with the stored key and no other.
      ensures call.Some? ==> call.value.Configure? && call.value.persona == persona
      ensures call.Some? ==>
        match call.value.payload
        case Off => !stored.value.enabled
        case ToGemini(key, model, dims) =>
          && stored.value.enabled && stored.value.provider == Gemini && stored.value.model == model
              && stored.value.dims == dims
          && key.Some? && stored.value.key.Some? && cipher.decrypt(stored.value.key.value) == key
        case ToCompatible(baseUrl, model, dims, key) =>
          && stored.value.enabled && stored.value.provider == Compatible
          && stored.value.baseUrl == baseUrl && stored.value.model == model && stored.value.dims == dims
          && (key.Some? ==> stored.value.key.Some? && cipher.decrypt(stored.value.key.value) == key)
    {
      if stored.None? {
        return None;
      }
      var key := Key(cipher, stored, up);
      if stored.value.enabled && stored.value.provider == Gemini && key.None? {
        return None;
      }
      return Some(Configure(persona, ConfigurePayload(stored.value, key)));
    }
  }

  // --- Keys stay with their endpoint -------------------------------------------------

  /** An endpoint up to blanks around its URL and slashes after it. */
  function Place(p: Provider, baseUrl: string): string {
    if p == Gemini then "gemini" else "openai-compatible|" + BareUrl(baseUrl)
  }

  /** Where a URL points: by the code's own endpoints, or by the coarser places. */
  function Where(exact: bool, p: Provider, baseUrl: string): string {
    if exact then Endpoint(p, baseUrl) else Place(p, baseUrl)
  }

  /** The key a call hands over, and where to. */
  function Carried(exact: bool, call: Option<Call>): set<(string, string)> {
    match call
    case Some(CheckCall(p, baseUrl, Some(key), _)) => {(Where(exact, p, baseUrl), key)}
    case Some(Configure(_, ToGemini(Some(key), _, _))) => {(Where(exact, Gemini, ""), key)}
    case Some(Configure(_, ToCompatible(baseUrl, _, _, Some(key)))) => {(Where(exact, Compatible, baseUrl), key)}
    case _ => {}
  }

  /** The key the user types with an event, and for which endpoint. */
  function Typed(exact: bool, e: Event): set<(string, string)> {
    if !e.Check? && !e.Save? then {}
    else
      var key := Trimmed(e.input, "apiKey");
      var p := ProviderOf(e.input);
      if key == "" || p.None? then {} else {(Where(exact, p.value, UrlText(e.input, p.value)), key)}
  }

  /** A URL that `save` accepts and that is left with a blank at the end by its cleaning. */
  predicate Slips(u: string) {
    var w := StripSlashes(Trim(u));
    EndsInBlank(w) && |w| <= MAX_URL_CHARS
  }

  predicate FormSlips(input: Json) {
    ProviderOf(input) == Some(Compatible) && Slips(UrlText(input, Compatible))
  }

  predicate SavesSlipping(e: Event) {
    e.Save? && FormSlips(e.input)
  }

  /** Saving cleans a URL once, and that is the endpoint the user typed exactly when no blank came before
      the slashes it took off: `http://x /` is saved as `http://x ` and then counts as `http://x`. */
  lemma SavedUrlKeepsItsEndpoint(u: string)
    ensures Endpoint(Compatible, StripSlashes(Trim(u))) == Endpoint(Compatible, u) <==>
        !EndsInBlank(StripSlashes(Trim(u)))
  {
    var w := StripSlashes(Trim(u));
    var prefix := "openai-compatible|";
    assert Endpoint(Compatible, w)[|prefix|..] == StripSlashes(Trim(w)) && Endpoint(Compatible, u)[|prefix|..] == w;
    CleanedTwice(u);
  }

  lemma SameEndpointSamePlace(p: Provider, u: string, q: Provider, v: string)
    requires Endpoint(p, u) == Endpoint(q, v)
    ensures Place(p, u) == Place(q, v)
  {
    if p == Compatible && q == Compatible {
      var prefix := "openai-compatible|";
      assert Endpoint(p, u)[|prefix|..] == StripSlashes(Trim(u)) && Endpoint(q, v)[|prefix|..] == StripSlashes(Trim(v));
      CleaningKeepsTheUrl(u);
      CleaningKeepsTheUrl(Trim(u));
      CleaningKeepsTheUrl(v);
      CleaningKeepsTheUrl(Trim(v));
    } else {
      assert Endpoint(p, u)[0] == Endpoint(q, v)[0];
    }
  }

  /** Trimming never moves a URL. Saving it does not either, but for the code's own endpoints only
      while nothing slips. */
  lemma CleanPlace(exact: bool, p: Provider, u: string)
    ensures Where(exact, p, Trim(u)) == Where(exact, p, u)
    ensures var w := StripSlashes(Trim(u));
            && Where(exact, p, Trim(w)) == Where(exact, p, w)
            && (!exact || p == Gemini || !EndsInBlank(w) ==> Where(exact, p, w) == Where(exact, p, u))
  {
    if exact {
      TrimTwice(u);
      TrimTwice(StripSlashes(Trim(u)));
      SavedUrlKeepsItsEndpoint(u);
    } else {
      CleaningKeepsTheUrl(u);
      CleaningKeepsTheUrl(Trim(u));
      CleaningKeepsTheUrl(StripSlashes(Trim(u)));
    }
  }

  /** A key the user entered for that place, as `entered` records it. */
  ghost predicate Mine(exact: bool, key: Option<string>, p: Provider, baseUrl: string, entered: set<(string, string)>) {
    key.Some? ==> (Where(exact, p, baseUrl), key.value) in entered && key.value != "" && Trim(key.value) == key.value
  }

  ghost predicate StoredSafe(exact: bool, c: Cipher, stored: Option<Stored>, entered: set<(string, string)>) {
    stored.Some? ==>
        WellFormed(stored.value)
        && Mine(exact, Key(c, stored, true), stored.value.provider, stored.value.baseUrl, entered)
  }

  ghost predicate DraftSafe(exact: bool, d: Draft, entered: set<(string, string)>) {
    && Mine(exact, d.key, d.provider, d.baseUrl, entered)
    && (d.provider == Gemini ==> d.baseUrl == "")
    && d.model != "" && Trim(d.model) == d.model && |d.model| <= MAX_MODEL_CHARS
  }

  ghost predicate PayloadSafe(exact: bool, payload: Payload, entered: set<(string, string)>) {
    Carried(exact, Some(Configure("", payload))) <= entered
  }

  /** Memory is what the file holds, and every key at hand belongs where it would go. */
  ghost predicate Confined(exact: bool, c: Cipher, s: State, entered: set<(string, string)>) {
    && s.stored == Open(s.file).stored
    && StoredSafe(exact, c, s.stored, entered)
    && (s.job.Checking? ==> DraftSafe(exact, s.job.draft, entered))
    && (s.job.Applying? ==> PayloadSafe(exact, s.job.payload, entered))
  }

  lemma KeyForIsMine(exact: bool, c: Cipher, stored: Option<Stored>, p: Provider, baseUrl: string, up: bool,
      entered: set<(string, string)>)
    requires StoredSafe(exact, c, stored, entered)
    ensures Mine(exact, KeyFor(c, stored, p, baseUrl, up), p, baseUrl, entered)
  {
    if stored.Some? && Endpoint(stored.value.provider, stored.value.baseUrl) == Endpoint(p, baseUrl) {
      SameEndpointSamePlace(stored.value.provider, stored.value.baseUrl, p, baseUrl);
    }
  }

  /** What `check` sends goes with a key typed now or kept for that endpoint. */
  lemma CheckIsConfined(exact: bool, c: Cipher, stored: Option<Stored>, input: Json, up: bool,
      entered: set<(string, string)>)
    requires StoredSafe(exact, c, stored, entered)
    ensures var outcome := CheckRequest(c, stored, input, up);
            outcome.Asks? ==> Carried(exact, Some(outcome.call)) <= entered + Typed(exact, Check(input, up))
  {
    hide Endpoint, Where, WellFormed;
    var outcome := CheckRequest(c, stored, input, up);
    if outcome.Asks? {
      var p := ProviderOf(input).value;
      CleanPlace(exact, p, UrlText(input, p));
      KeyForIsMine(exact, c, stored, p, Trim(UrlText(input, p)), up, entered);
    }
  }

  /** What an accepted form is settled to: the cleaned URL, a tidy model, and the typed or the kept key. */
  lemma DraftShape(c: Cipher, stored: Option<Stored>, input: Json, up: bool)
    requires Drafted(c, stored, input, up).Some?
    ensures var d := Drafted(c, stored, input, up).value;
            var typed := Trimmed(input, "apiKey");
            && ProviderOf(input) == Some(d.provider) && d.baseUrl == StripSlashes(Trim(UrlText(input, d.provider)))
            && |d.baseUrl| <= MAX_URL_CHARS && d.model != "" && |d.model| <= MAX_MODEL_CHARS
            && (d.model == Trimmed(input, "model") || d.model == GEMINI_EMBEDDING_MODEL)
            && d.key == if typed != "" then Some(typed) else KeyFor(c, stored, d.provider, d.baseUrl, up)
  {
    hide StripSlashes, Trim, Endpoint;
  }

  lemma TrimmedTwice(input: Json, key: string)
    ensures Trim(Trimmed(input, key)) == Trimmed(input, key)
  {
    TrimTwice(match TextField(input, key) case Some(s) => s case None => "");
  }

  lemma DefaultModelIsTidy()
    ensures Trim(GEMINI_EMBEDDING_MODEL) == GEMINI_EMBEDDING_MODEL
    ensures StripSlashes(Trim("")) == ""
  {
  }

  lemma DraftIsSafe(exact: bool, c: Cipher, stored: Option<Stored>, input: Json, up: bool,
      entered: set<(string, string)>)
    requires StoredSafe(exact, c, stored, entered) && (exact ==> !FormSlips(input))
    ensures var draft := Drafted(c, stored, input, up);
            draft.Some? ==> DraftSafe(exact, draft.value, entered + Typed(exact, Check(input, up)))
  {
    var draft := Drafted(c, stored, input, up);
    hide Drafted, Endpoint, Where, WellFormed, StoredSafe, StripSlashes, Trim, Trimmed, KeyFor;
    if draft.Some? {
      var d := draft.value;
      DraftShape(c, stored, input, up);
      CleanPlace(exact, d.provider, UrlText(input, d.provider));
      KeyForIsMine(exact, c, stored, d.provider, d.baseUrl, up, entered);
      TrimmedTwice(input, "apiKey");
      TrimmedTwice(input, "model");
      DefaultModelIsTidy();
    }
  }

  lemma FinishIsConfined(exact: bool, c: Cipher, s: State, d: Draft, canStore: bool, written: bool,
      entered: set<(string, string)>)
    requires Faithful(c) && Confined(exact, c, s, entered) && DraftSafe(exact, d, entered)
    ensures Confined(exact, c, Finish(c, s, d, canStore, written), entered)
  {
    var next := Kept(c, d, canStore);
    KeptIsSafe(exact, c, d, canStore, entered);
    PayloadIsSafe(exact, next, d.key, entered);
    hide NormalizeStored, ToJson, StoredSafe, DraftSafe, PayloadSafe, Mine, Kept, Faithful, ConfigurePayload;
  }

  lemma KeptIsSafe(exact: bool, c: Cipher, d: Draft, canStore: bool, entered: set<(string, string)>)
    requires Faithful(c) && DraftSafe(exact, d, entered)
    ensures var next := Kept(c, d, canStore);
            && StoredSafe(exact, c, Some(next), entered) && NormalizeStored(ToJson(next)) == Some(next)
  {
    hide NormalizeStored, ToJson, Where;
    SealedOpens(c, d.key, canStore, true);
    SettingReadsBack(Kept(c, d, canStore));
  }

  lemma PayloadIsSafe(exact: bool, s: Stored, key: Option<string>, entered: set<(string, string)>)
    requires Mine(exact, key, s.provider, s.baseUrl, entered)
    ensures PayloadSafe(exact, ConfigurePayload(s, key), entered)
  {
    hide BareUrl, StripSlashes, Trim;
  }

  /** The check inside `#save` sends the draft's key where the draft goes. */
  lemma DraftCheckIsConfined(exact: bool, c: Cipher, stored: Option<Stored>, d: Draft, up: bool,
      entered: set<(string, string)>)
    requires StoredSafe(exact, c, stored, entered) && DraftSafe(exact, d, entered)
    ensures var outcome := CheckRequest(c, stored, DraftInput(d), up);
            outcome.Asks? ==> Carried(exact, Some(outcome.call)) <= entered
  {
    var input := DraftInput(d);
    CheckIsConfined(exact, c, stored, input, up, entered);
    DraftInputReads(d);
    hide DraftInput, CheckRequest, Where, WellFormed, StoredSafe, Carried, Trim;
    assert Typed(exact, Check(input, up)) <= entered;
  }

  lemma DraftInputReads(d: Draft)
    ensures var input := DraftInput(d);
            && ProviderOf(input) == Some(d.provider)
            && UrlText(input, d.provider) == (if d.provider == Compatible then d.baseUrl else "")
            && Trimmed(input, "apiKey") == Trim(if d.key.Some? then d.key.value else "")
  {
    hide Trim;
    var input := DraftInput(d);
    assert TextField(input, "apiKey") == Some(if d.key.Some? then d.key.value else "");
    assert TextField(input, "provider") == Some(ProviderName(d.provider))
        && TextField(input, "baseUrl") == Some(d.baseUrl);
  }

  lemma SaveIsConfined(exact: bool, c: Cipher, s: State, e: Event, entered: set<(string, string)>)
    requires Faithful(c) && Confined(exact, c, s, entered) && e.Save? && (exact ==> !SavesSlipping(e))
    ensures var (s', call) := Step(c, s, e);
            Confined(exact, c, s', entered + Typed(exact, e)) && Carried(exact, call) <= entered + Typed(exact, e)
  {
    hide Drafted, CheckRequest, Finish, Mine, WellFormed, Where, FormSlips;
    var more := entered + Typed(exact, e);
    GrowingKeepsConfined(exact, c, s, entered, more);
    var draft := Drafted(c, s.stored, e.input, e.up);
    DraftIsSafe(exact, c, s.stored, e.input, e.up, entered);
    if s.job == Free && draft.Some? {
      assert Typed(exact, e) == Typed(exact, Check(e.input, e.up));
      if draft.value.enabled {
        DraftCheckIsConfined(exact, c, s.stored, draft.value, e.checkUp, more);
      } else {
        FinishIsConfined(exact, c, s, draft.value, e.canStore, e.written, more);
      }
    }
  }

  lemma GrowingKeepsConfined(exact: bool, c: Cipher, s: State, entered: set<(string, string)>,
      more: set<(string, string)>)
    requires Confined(exact, c, s, entered) && entered <= more
    ensures Confined(exact, c, s, more)
  {
    hide Where, WellFormed;
  }

  lemma StepIsConfined(exact: bool, c: Cipher, s: State, e: Event, entered: set<(string, string)>)
    requires Faithful(c) && Confined(exact, c, s, entered) && (exact ==> !SavesSlipping(e))
    ensures var (s', call) := Step(c, s, e);
            Confined(exact, c, s', entered + Typed(exact, e)) && Carried(exact, call) <= entered + Typed(exact, e)
  {
    hide Drafted, CheckRequest, Finish, WellFormed, Endpoint, BareUrl, FormSlips;
    var more := entered + Typed(exact, e);
    GrowingKeepsConfined(exact, c, s, entered, more);
    match e {
      case Check(input, up) => CheckIsConfined(exact, c, s.stored, input, up, entered);
      case Save(_, _, _, _, _) => SaveIsConfined(exact, c, s, e, entered);
      case Verdict(verified, dims, canStore, written) =>
        if s.job.Checking? { FinishIsConfined(exact, c, s, s.job.draft.(dims := dims), canStore, written, more); }
      case ApplyTo(persona, up) => ApplyToIsConfined(exact, c, s, persona, up, more);
      case _ =>
    }
  }

  lemma ApplyToIsConfined(exact: bool, c: Cipher, s: State, persona: string, up: bool, entered: set<(string, string)>)
    requires Confined(exact, c, s, entered)
    ensures Carried(exact, OnApplyTo(c, s, persona, up)) <= entered
  {
    hide Endpoint, BareUrl;
  }

  datatype Trace = Trace(states: seq<State>, events: seq<Event>, calls: seq<Option<Call>>)

  ghost predicate Linked(c: Cipher, tr: Trace, k: nat) {
    && k < |tr.events| && k < |tr.calls| && k + 1 < |tr.states|
    && (tr.states[k + 1], tr.calls[k]) == Step(c, tr.states[k], tr.events[k])
  }

  /** A run from a first start: no file yet, or one that cannot be read. */
  ghost predicate IsRun(c: Cipher, tr: Trace) {
    && |tr.states| == |tr.events| + 1 && |tr.calls| == |tr.events|
    && tr.states[0] == Open(None)
    && forall k: nat :: k < |tr.events| ==> Linked(c, tr, k)
  }

  /** The keys typed in the first `n` events, with their places. */
  function Entered(exact: bool, events: seq<Event>, n: nat): set<(string, string)>
    requires n <= |events|
  {
    if n == 0 then {} else Entered(exact, events, n - 1) + Typed(exact, events[n - 1])
  }

  lemma {:induction false} EnteredWasTyped(exact: bool, events: seq<Event>, n: nat, entry: (string, string))
    requires n <= |events|
    ensures entry in Entered(exact, events, n) <==> exists i :: 0 <= i < n && entry in Typed(exact, events[i])
  {
    hide Typed;
    if n > 0 {
      EnteredWasTyped(exact, events, n - 1, entry);
    }
  }

  lemma NothingIsConfined(exact: bool, c: Cipher)
    ensures Confined(exact, c, Open(None), {})
  {
  }

  lemma {:induction false} RunIsConfined(exact: bool, c: Cipher, tr: Trace, k: nat)
    requires Faithful(c) && IsRun(c, tr) && k < |tr.states|
    requires exact ==> forall i :: 0 <= i < k ==> !SavesSlipping(tr.events[i])
    ensures Confined(exact, c, tr.states[k], Entered(exact, tr.events, k))
  {
    hide Step, Faithful, Confined, Typed, Carried, SavesSlipping;
    if k == 0 {
      NothingIsConfined(exact, c);
    } else {
      RunIsConfined(exact, c, tr, k - 1);
      assert Linked(c, tr, k - 1);
      StepIsConfined(exact, c, tr.states[k - 1], tr.events[k - 1], Entered(exact, tr.events, k - 1));
    }
  }

  lemma CarriedWasTyped(exact: bool, c: Cipher, tr: Trace, k: nat, entry: (string, string))
    requires Faithful(c) && IsRun(c, tr) && k < |tr.events| && entry in Carried(exact, tr.calls[k])
    requires exact ==> forall i :: 0 <= i <= k ==> !SavesSlipping(tr.events[i])
    ensures exists i :: 0 <= i <= k && entry in Typed(exact, tr.events[i])
  {
    hide Step, Faithful, Carried, Typed, SavesSlipping, Confined;
    RunIsConfined(exact, c, tr, k);
    assert Linked(c, tr, k);
    StepIsConfined(exact, c, tr.states[k], tr.events[k], Entered(exact, tr.events, k));
    EnteredWasTyped(exact, tr.events, k + 1, entry);
  }

  /** On every run of checks, saves, new personas and relaunches: a bridge call that carries a key for an
      endpoint carries one the user typed, then or earlier, for that endpoint, up to blanks around its
      URL and slashes after it. */
  lemma KeysStayWithTheirEndpoint(c: Cipher, tr: Trace, k: nat, entry: (string, string))
    requires Faithful(c) && IsRun(c, tr) && k < |tr.events| && entry in Carried(false, tr.calls[k])
    ensures exists i :: 0 <= i <= k && entry in Typed(false, tr.events[i])
  {
    CarriedWasTyped(false, c, tr, k, entry);
  }

  /** By the code's own endpoints the same holds on every run in which no saved URL slips. */
  ghost predicate ExactlyConfined(tr: Trace) {
    forall k, entry :: 0 <= k < |tr.events| && k < |tr.calls| && entry in Carried(true, tr.calls[k]) ==>
      exists i :: 0 <= i <= k && entry in Typed(true, tr.events[i])
  }

  lemma ExactWhileNothingSlips(c: Cipher, tr: Trace)
    requires Faithful(c) && IsRun(c, tr)
    requires forall i :: 0 <= i < |tr.events| ==> !SavesSlipping(tr.events[i])
    ensures ExactlyConfined(tr)
  {
    hide Carried, Typed, SavesSlipping, IsRun;
    forall k, entry | 0 <= k < |tr.events| && k < |tr.calls| && entry in Carried(true, tr.calls[k])
      ensures exists i :: 0 <= i <= k && entry in Typed(true, tr.events[i])
    {
      CarriedWasTyped(true, c, tr, k, entry);
    }
  }

  function OneSave(u: string): Event {
    Save(Fields(map["enabled" := Bool(true), "provider" := Text("openai-compatible"), "baseUrl" := Text(u),
                    "apiKey" := Text("k"), "model" := Text("m")]), true, true, true, true)
  }

  /** And on no more: any URL that slips is sent a key that was typed for another, by the very first save. */
  lemma OneSaveBreaksIt(c: Cipher, u: string) returns (tr: Trace)
    requires Slips(u)
    ensures IsRun(c, tr) && tr.events == [OneSave(u)] && !ExactlyConfined(tr)
  {
    hide Step, Endpoint, StripSlashes, Trim, Trimmed, UrlText, ProviderOf;
    var e, s := OneSave(u), Open(None);
    var w := StripSlashes(Trim(u));
    tr := Trace([s, Step(c, s, e).0], [e], [Step(c, s, e).1]);
    assert Linked(c, tr, 0);
    OneSaveAsks(c, u);
    SavedUrlKeepsItsEndpoint(u);
    CleanPlace(true, Compatible, u);
    var entry := (Endpoint(Compatible, Trim(w)), "k");
    assert entry in Carried(true, tr.calls[0]);
    assert Typed(true, e) == {(Endpoint(Compatible, u), "k")};
  }

  lemma OneSaveAsks(c: Cipher, u: string)
    requires Slips(u)
    ensures Trimmed(OneSave(u).input, "apiKey") == "k" && UrlText(OneSave(u).input, Compatible) == u
    ensures ProviderOf(OneSave(u).input) == Some(Compatible)
    ensures Step(c, Open(None), OneSave(u)).1 ==
            Some(CheckCall(Compatible, Trim(StripSlashes(Trim(u))), Some("k"), "m"))
  {
    var w := StripSlashes(Trim(u));
    CleanedTwice(u);
    assert Trim("k") == "k" && Trim("m") == "m";
    hide StripSlashes, Trim, Slips;
    OneSaveDrafts(c, u, w);
    OneDraftAsks(c, w);
  }

  lemma OneSaveDrafts(c: Cipher, u: string, w: string)
    requires w == StripSlashes(Trim(u)) && w != "" && |w| <= MAX_URL_CHARS && Trim("k") == "k" && Trim("m") == "m"
    ensures var input := OneSave(u).input;
            && ProviderOf(input) == Some(Compatible) && UrlText(input, Compatible) == u
                && Trimmed(input, "apiKey") == "k"
            && Drafted(c, None, input, true) == Some(Draft(true, Compatible, w, "m", 0, Some("k")))
  {
    hide StripSlashes, Trim;
    var input := OneSave(u).input;
    assert TextField(input, "provider") == Some("openai-compatible");
    assert TextField(input, "apiKey") == Some("k") && TextField(input, "model") == Some("m")
        && TextField(input, "baseUrl") == Some(u);
    assert Field(input, "enabled") == Some(Bool(true));
  }

  lemma OneDraftAsks(c: Cipher, w: string)
    requires Trim(w) != "" && |Trim(w)| <= MAX_URL_CHARS && Trim("k") == "k" && Trim("m") == "m"
    ensures CheckRequest(c, None, DraftInput(Draft(true, Compatible, w, "m", 0, Some("k"))), true)
            == Asks(CheckCall(Compatible, Trim(w), Some("k"), "m"))
  {
    hide Trim;
    var form := DraftInput(Draft(true, Compatible, w, "m", 0, Some("k")));
    assert TextField(form, "provider") == Some("openai-compatible");
    assert TextField(form, "apiKey") == Some("k") && TextField(form, "model") == Some("m")
        && TextField(form, "baseUrl") == Some(w);
  }

  ghost predicate SavesOnly(tr: Trace, u: string) {
    forall i :: 0 <= i < |tr.events| && tr.events[i].Save? && ProviderOf(tr.events[i].input) == Some(Compatible) ==>
      UrlText(tr.events[i].input, Compatible) == u
  }

  /** So saving a URL keeps every key with its endpoint, on every run, exactly when the URL does not slip. */
  lemma ExactExactlyWhenNothingSlips(c: Cipher, u: string)
    requires Faithful(c)
    ensures (forall tr :: IsRun(c, tr) && SavesOnly(tr, u) ==> ExactlyConfined(tr)) <==> !Slips(u)
  {
    hide ExactlyConfined, Slips, IsRun;
    if Slips(u) {
      var tr := OneSaveBreaksIt(c, u);
      assert UrlText(OneSave(u).input, Compatible) == u;
      assert SavesOnly(tr, u);
    } else {
      forall tr | IsRun(c, tr) && SavesOnly(tr, u) ensures ExactlyConfined(tr) {
        ExactWhileNothingSlips(c, tr);
      }
    }
  }

  /** And the setting in memory is always the one in the file: a save that fails changes neither. */
  lemma MemoryIsTheFile(c: Cipher, tr: Trace, k: nat)
    requires Faithful(c) && IsRun(c, tr) && k < |tr.states|
    ensures tr.states[k].stored == Open(tr.states[k].file).stored
    ensures tr.states[k].stored.Some? ==>
        tr.states[k].file.Some? && NormalizeStored(ToJson(tr.states[k].stored.value)) == tr.states[k].stored
  {
    hide Step, Faithful;
    RunIsConfined(false, c, tr, k);
    if tr.states[k].stored.Some? {
      SettingReadsBack(tr.states[k].stored.value);
    }
  }

  /** One that does. */
  lemma ABlankBeforeTheSlash()
    ensures Slips("http://x /")
    ensures Endpoint(Compatible, StripSlashes(Trim("http://x /"))) != Endpoint(Compatible, "http://x /")
  {
    var u := "http://x /";
    assert Trim(u) == u;
    assert u[..9] == "http://x ";
    assert StripSlashes(u) == StripSlashes(u[..9]) == "http://x ";
    SavedUrlKeepsItsEndpoint(u);
  }
}
