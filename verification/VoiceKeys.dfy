/** Where the voice settings send their keys (electron/voiceModels.ts), over every run: provider checks
    pose the form again, and so clean its URL again; personas are configured with the saved choice. */
module VoiceKeys {
  import opened Basics
  import opened Texts
  import opened VoiceModels

  /** What a bridge call of one direction carries; an empty key is none. */
  datatype Call = Call(d: Modality, provider: string, baseUrl: string, apiKey: string)

  /** A choice as `check` is handed it. */
  function FormOf(v: SavedChoice): Json {
    Fields(map["enabled" := Bool(v.enabled), "provider" := Text(v.provider), "baseUrl" := Text(v.baseUrl),
               "model" := Text(v.model), "voice" := Text(v.voice), "apiKey" := Text(v.apiKey)])
  }

  function Disabled(form: Json): Json {
    Fields((if form.Fields? then form.fields else map[])["enabled" := Bool(false)])
  }

  /** The call `check` makes for a form, if the form is one. */
  function Posed(d: Modality, saved: SavedChoice, form: Json): Option<Call> {
    var v := Choice(d, saved, Disabled(form));
    if v.Some? then Some(Call(d, v.value.provider, v.value.baseUrl, v.value.apiKey)) else None
  }

  function Configured(d: Modality, v: SavedChoice): Option<Call> {
    if v.enabled then Some(Call(d, v.provider, v.baseUrl, v.apiKey)) else None
  }

  /** The calls with a key that the task at the head of the queue may be making. */
  predicate Sends(s: State, c: Call) {
    match s.job
    case SavingTts(_, draft) => Posed(Tts, s.defaults.tts, FormOf(draft)) == Some(c)
    case SavingStt(_, draft) => Posed(Stt, s.defaults.stt, FormOf(draft)) == Some(c)
    case CheckingTts(_, _, m, v) => Posed(Tts, s.defaults.tts, FormOf(v.(model := m, voice := ""))) == Some(c)
    case ProvingTts(_, _, o) =>
      Posed(Tts, s.defaults.tts,
          FormOf(s.defaults.tts.(model := o.model, voice := if o.voice.Some? then o.voice.value else ""))) == Some(c)
    case CheckingStt(_, _, m, v) => Posed(Stt, s.defaults.stt, FormOf(v.(model := m, voice := ""))) == Some(c)
    case Applying(_, _) => Configured(Tts, s.defaults.tts) == Some(c) || Configured(Stt, s.defaults.stt) == Some(c)
    case Configuring => Configured(Tts, s.defaults.tts) == Some(c) || Configured(Stt, s.defaults.stt) == Some(c)
    case _ => false
  }

  type KeyEntry = (Modality, string, string)

  /** Where a URL points: by the code's own fingerprints, or up to blanks around it and slashes after it. */
  function Where(exact: bool, provider: string, baseUrl: string): string {
    provider + "|" + if exact then StripSlashes(baseUrl) else BareUrl(baseUrl)
  }

  function Carried(exact: bool, c: Call): KeyEntry {
    (c.d, Where(exact, c.provider, c.baseUrl), c.apiKey)
  }

  /** The endpoint a form names; a provider or URL it leaves out is the saved one. */
  function FormPlace(exact: bool, saved: SavedChoice, form: Json): string {
    var provider := match TextField(form, "provider") case Some(p) => p case None => saved.provider;
    var url := match TextField(form, "baseUrl") case Some(u) => u case None => saved.baseUrl;
    if provider == "elevenlabs" then Where(exact, provider, "")
    else Where(exact, provider, if exact then Trim(url) else url)
  }

  function FormTyped(exact: bool, d: Modality, saved: SavedChoice, form: Option<Json>): set<KeyEntry> {
    if form.None? then {}
    else
      var key := TypedKey(form.value);
      if key == "" then {} else {(d, FormPlace(exact, saved, form.value), key)}
  }

  /** The keys the user types with an event: those of a save's two forms, when it gets its turn. */
  function Typed(exact: bool, s: State, e: Event): set<KeyEntry> {
    if !e.Save? || s.job != Free then {}
    else
      FormTyped(exact, Tts, s.defaults.tts, Field(e.raw, "tts"))
          + FormTyped(exact, Stt, s.defaults.stt, Field(e.raw, "stt"))
  }

  /** A URL the form accepts and leaves with a blank at the end. */
  predicate Slips(u: string) {
    |u| <= 65536 && EndsInBlank(StripSlashes(Trim(u)))
  }

  predicate FormSlips(form: Option<Json>) {
    form.Some? && TextField(form.value, "baseUrl").Some? && Slips(TextField(form.value, "baseUrl").value)
  }

  predicate SavesSlipping(e: Event) {
    e.Save? && (FormSlips(Field(e.raw, "tts")) || FormSlips(Field(e.raw, "stt")))
  }

  // --- What every step keeps ---------------------------------------------------------

  ghost predicate Mine(exact: bool, d: Modality, v: SavedChoice, entered: set<KeyEntry>) {
    && (v.apiKey != "" ==> (d, Where(exact, v.provider, v.baseUrl), v.apiKey) in entered && Trim(v.apiKey) == v.apiKey)
    && (exact ==> StripSlashes(Trim(v.baseUrl)) == v.baseUrl)
    && (v.provider == "openai-compatible" || (v.provider == "elevenlabs" && v.baseUrl == ""))
  }

  ghost predicate BothMine(exact: bool, d: Defaults, entered: set<KeyEntry>) {
    Mine(exact, Tts, d.tts, entered) && Mine(exact, Stt, d.stt, entered)
  }

  ghost predicate JobMine(exact: bool, s: State, entered: set<KeyEntry>) {
    match s.job
    case SavingTts(raw, draft) =>
      && Mine(exact, Tts, draft, entered)
      && FormTyped(exact, Stt, s.defaults.stt, Field(raw, "stt")) <= entered
      && (exact ==> !FormSlips(Field(raw, "stt")))
    case SavingStt(verified, draft) => Mine(exact, Tts, verified, entered) && Mine(exact, Stt, draft, entered)
    case CheckingTts(_, _, _, v) => Mine(exact, Tts, v, entered)
    case CheckingStt(_, _, _, v) => Mine(exact, Stt, v, entered)
    case _ => true
  }

  ghost predicate KeysMine(exact: bool, s: State, entered: set<KeyEntry>) {
    && BothMine(exact, s.defaults, entered)
    && (s.disk.Some? ==> BothMine(exact, s.disk.value.defaults, entered))
    && JobMine(exact, s, entered)
  }

  lemma SameFingerprintSamePlace(exact: bool, v: SavedChoice, w: SavedChoice)
    requires v.provider == "elevenlabs" || v.provider == "openai-compatible"
    requires w.provider == "elevenlabs" || w.provider == "openai-compatible"
    requires Fingerprint(v) == Fingerprint(w)
    ensures Where(exact, v.provider, v.baseUrl) == Where(exact, w.provider, w.baseUrl)
  {
    assert Fingerprint(v)[0] == Fingerprint(w)[0] && Fingerprint(v)[0] == v.provider[0]
        && Fingerprint(w)[0] == w.provider[0];
    assert v.provider == w.provider;
    var n := |v.provider| + 1;
    assert Fingerprint(v)[n..] == StripSlashes(v.baseUrl) && Fingerprint(w)[n..] == StripSlashes(w.baseUrl);
    CleaningKeepsTheUrl(v.baseUrl);
    CleaningKeepsTheUrl(w.baseUrl);
  }

  /** What a form is cleaned to still points where the form did. */
  lemma CleanedPlace(exact: bool, provider: string, u: string)
    ensures var w := StripSlashes(Trim(u));
            && Where(exact, provider, w) == Where(exact, provider, if exact then Trim(u) else u)
            && (!exact || w == u ==> Where(exact, provider, w) == Where(exact, provider, u))
  {
    CleanedTwice(u);
    CleaningKeepsTheUrl(u);
    CleaningKeepsTheUrl(Trim(u));
  }

  function TypedKey(form: Json): string {
    match TextField(form, "apiKey")
    case Some(key) => Trim(key)
    case None => ""
  }

  /** A choice is the saved one switched off, or has the form's cleaned URL and the typed or the kept key. */
  lemma ChoiceShape(d: Modality, saved: SavedChoice, form: Json)
    requires Choice(d, saved, form).Some?
    ensures var v := Choice(d, saved, form).value;
            var provider := match TextField(form, "provider") case Some(p) => p case None => saved.provider;
            var url := match TextField(form, "baseUrl") case Some(u) => u case None => saved.baseUrl;
            || v == saved.(enabled := false)
            || (&& v.provider == provider && (provider == "elevenlabs" || provider == "openai-compatible")
                && v.baseUrl == (if provider == "elevenlabs" then "" else StripSlashes(Trim(url)))
                && v.apiKey == if TypedKey(form) != "" then TypedKey(form)
                               else if Fingerprint(v) == Fingerprint(saved) then saved.apiKey else "")
  {
    hide StripSlashes, Trim;
  }

  /** A typed key goes where its form points. */
  lemma TypedKeyPlace(exact: bool, d: Modality, saved: SavedChoice, form: Json)
    requires Choice(d, saved, form).Some? && TypedKey(form) != ""
        && Choice(d, saved, form).value != saved.(enabled := false)
    ensures var v := Choice(d, saved, form).value;
            (d, Where(exact, v.provider, v.baseUrl), TypedKey(form)) in FormTyped(exact, d, saved, Some(form))
  {
    ChoiceShape(d, saved, form);
    var url := match TextField(form, "baseUrl") case Some(u) => u case None => saved.baseUrl;
    CleanedPlace(exact, Choice(d, saved, form).value.provider, url);
    hide Choice, Where, StripSlashes, Trim, Fingerprint;
  }

  /** The key of a choice was typed in its form for the form's endpoint, or kept for the same one. */
  lemma ChoiceKey(exact: bool, d: Modality, saved: SavedChoice, form: Json, entered: set<KeyEntry>)
    requires Choice(d, saved, form).Some? && Mine(exact, d, saved, entered)
    ensures var v := Choice(d, saved, form).value;
            && (v.apiKey != "" ==>
                  && (d, Where(exact, v.provider, v.baseUrl), v.apiKey) in entered
                      + FormTyped(exact, d, saved, Some(form))
                  && Trim(v.apiKey) == v.apiKey)
            && (v.provider == "openai-compatible" || (v.provider == "elevenlabs" && v.baseUrl == ""))
  {
    var v := Choice(d, saved, form).value;
    ChoiceShape(d, saved, form);
    TrimTwice(match TextField(form, "apiKey") case Some(key) => key case None => "");
    hide Choice, Where, Fingerprint, Trim, StripSlashes, FormTyped;
    if v != saved.(enabled := false) {
      if TypedKey(form) != "" {
        TypedKeyPlace(exact, d, saved, form);
      } else if v.apiKey != "" {
        SameFingerprintSamePlace(exact, v, saved);
      }
    }
  }

  lemma ChoiceIsMine(exact: bool, d: Modality, saved: SavedChoice, form: Json, entered: set<KeyEntry>)
    requires Choice(d, saved, form).Some? && Mine(exact, d, saved, entered) && (exact ==> !FormSlips(Some(form)))
    ensures Mine(exact, d, Choice(d, saved, form).value, entered + FormTyped(exact, d, saved, Some(form)))
  {
    ChoiceKey(exact, d, saved, form, entered);
    hide Where, Fingerprint;
    if exact {
      ChoiceIsTidy(d, saved, form);
    }
  }

  lemma ChoiceIsTidy(d: Modality, saved: SavedChoice, form: Json)
    requires Choice(d, saved, form).Some? && StripSlashes(Trim(saved.baseUrl)) == saved.baseUrl
        && !FormSlips(Some(form))
    ensures var url := Choice(d, saved, form).value.baseUrl; StripSlashes(Trim(url)) == url
  {
    hide Fingerprint;
    var url := match TextField(form, "baseUrl") case Some(u) => u case None => saved.baseUrl;
    CleanedTwice(url);
    assert StripSlashes(Trim("")) == "";
  }

  // --- Calls -------------------------------------------------------------------------

  ghost predicate CallMine(exact: bool, c: Option<Call>, entered: set<KeyEntry>) {
    c.Some? && c.value.apiKey != "" ==> Carried(exact, c.value) in entered
  }

  /** Whatever form the page has checked, its key goes where the form points or where it was saved for. */
  lemma PosedIsMine(exact: bool, d: Modality, saved: SavedChoice, form: Json, entered: set<KeyEntry>)
    requires Mine(exact, d, saved, entered)
    ensures CallMine(exact, Posed(d, saved, form), entered + FormTyped(exact, d, saved, Some(Disabled(form))))
  {
    hide Choice, FormTyped, Where;
    if Choice(d, saved, Disabled(form)).Some? {
      ChoiceKey(exact, d, saved, Disabled(form), entered);
    }
  }

  /** The checks a task makes of its own draft send the draft's key where the draft goes. */
  lemma DraftPosedIsMine(exact: bool, d: Modality, saved: SavedChoice, v: SavedChoice, entered: set<KeyEntry>)
    requires Mine(exact, d, saved, entered) && Mine(exact, d, v, entered)
    ensures CallMine(exact, Posed(d, saved, FormOf(v)), entered)
  {
    PosedIsMine(exact, d, saved, FormOf(v), entered);
    OwnFormTyped(exact, d, saved, v, entered);
    hide FormTyped, Posed, Mine, Disabled, FormOf, Carried;
    assert entered + FormTyped(exact, d, saved, Some(Disabled(FormOf(v)))) == entered;
  }

  lemma OwnFormTyped(exact: bool, d: Modality, saved: SavedChoice, v: SavedChoice, entered: set<KeyEntry>)
    requires Mine(exact, d, v, entered)
    ensures FormTyped(exact, d, saved, Some(Disabled(FormOf(v)))) <= entered
  {
    var form := Disabled(FormOf(v));
    assert TextField(form, "apiKey") == Some(v.apiKey) && TextField(form, "baseUrl") == Some(v.baseUrl);
    assert TextField(form, "provider") == Some(v.provider);
    StripSlashesDone(Trim(v.baseUrl));
  }

  lemma SendsOnlyMine(exact: bool, s: State, c: Call, entered: set<KeyEntry>)
    requires KeysMine(exact, s, entered) && Sends(s, c) && c.apiKey != ""
    ensures Carried(exact, c) in entered
  {
    hide Posed, Where, FormTyped, FormOf;
    match s.job {
      case SavingTts(_, draft) => DraftPosedIsMine(exact, Tts, s.defaults.tts, draft, entered);
      case SavingStt(_, draft) => DraftPosedIsMine(exact, Stt, s.defaults.stt, draft, entered);
      case CheckingTts(_, _, m, v) =>
        DraftPosedIsMine(exact, Tts, s.defaults.tts, v.(model := m, voice := ""), entered);
      case ProvingTts(_, _, o) =>
        DraftPosedIsMine(exact, Tts, s.defaults.tts,
                         s.defaults.tts.(model := o.model, voice := if o.voice.Some? then o.voice.value else ""),
                         entered);
      case CheckingStt(_, _, m, v) =>
        DraftPosedIsMine(exact, Stt, s.defaults.stt, v.(model := m, voice := ""), entered);
      case _ =>
    }
  }

  // --- Steps -------------------------------------------------------------------------

  lemma CommitKeepsKeys(exact: bool, s: State, next: Defaults, order: seq<string>, persisted: bool,
      entered: set<KeyEntry>)
    requires KeysMine(exact, s, entered) && BothMine(exact, next, entered)
    ensures KeysMine(exact, Commit(s, next, order, persisted), entered)
  {
    hide Mine, DropStale, FormTyped, FormSlips, Enumerates;
  }

  lemma SaveSttKeepsKeys(exact: bool, s: State, raw: Json, tts: SavedChoice, order: seq<string>, persisted: bool,
      entered: set<KeyEntry>)
    requires KeysMine(exact, s, entered) && Mine(exact, Tts, tts, entered)
    requires FormTyped(exact, Stt, s.defaults.stt, Field(raw, "stt")) <= entered
    requires exact ==> !FormSlips(Field(raw, "stt"))
    ensures KeysMine(exact, SaveStt(s, raw, tts, order, persisted), entered)
  {
    hide Mine, Choice, Commit, FormTyped, FormSlips;
    var field := Field(raw, "stt");
    if field.Some? && Choice(Stt, s.defaults.stt, field.value).Some? {
      var draft := Choice(Stt, s.defaults.stt, field.value).value;
      ChoiceIsMine(exact, Stt, s.defaults.stt, field.value, entered);
      assert entered + FormTyped(exact, Stt, s.defaults.stt, field) == entered;
      CommitKeepsKeys(exact, s, Defaults(tts, draft), order, persisted, entered);
    }
  }

  lemma SaveTtsKeepsKeys(exact: bool, s: State, raw: Json, order: seq<string>, persisted: bool, entered: set<KeyEntry>)
    requires KeysMine(exact, s, entered)
    requires FormTyped(exact, Tts, s.defaults.tts, Field(raw, "tts")) <= entered
    requires exact ==> !FormSlips(Field(raw, "tts"))
    requires FormTyped(exact, Stt, s.defaults.stt, Field(raw, "stt")) <= entered
    requires exact ==> !FormSlips(Field(raw, "stt"))
    ensures KeysMine(exact, SaveTts(s, raw, order, persisted), entered)
  {
    hide Mine, Choice, SaveStt, FormTyped, FormSlips;
    var field := Field(raw, "tts");
    if field.Some? && Choice(Tts, s.defaults.tts, field.value).Some? {
      var draft := Choice(Tts, s.defaults.tts, field.value).value;
      ChoiceIsMine(exact, Tts, s.defaults.tts, field.value, entered);
      assert entered + FormTyped(exact, Tts, s.defaults.tts, field) == entered;
      SaveSttKeepsKeys(exact, s, raw, draft, order, persisted, entered);
    }
  }

  /** Only the job and the overrides change; the job asks with the current default. */
  lemma InstallKeepsKeys(exact: bool, s: State, persona: string, next: Entry, entered: set<KeyEntry>)
    requires KeysMine(exact, s, entered)
    ensures KeysMine(exact, Install(s, persona, next), entered)
  {
    hide Mine, FormTyped, FormSlips;
  }

  lemma ContactSttKeepsKeys(exact: bool, s: State, persona: string, models: Json, tts: Option<Override>,
      entered: set<KeyEntry>)
    requires KeysMine(exact, s, entered)
    ensures KeysMine(exact, ContactStt(s, persona, models, tts), entered)
  {
    hide Mine, Wished, FormTyped, FormSlips, Install, Existing;
    if !s.defaults.stt.enabled {
      InstallKeepsKeys(exact, s, persona, Entry(tts, Existing(s, persona).stt), entered);
    } else if Wished(models, "stt", s.defaults.stt) == NoWish {
      InstallKeepsKeys(exact, s, persona, Entry(tts, None), entered);
    }
  }

  lemma ContactTtsKeepsKeys(exact: bool, s: State, persona: string, models: Json, entered: set<KeyEntry>)
    requires KeysMine(exact, s, entered)
    ensures KeysMine(exact, ContactTts(s, persona, models), entered)
  {
    hide Mine, Wished, FormTyped, FormSlips, ContactStt, Existing;
    if !s.defaults.tts.enabled {
      ContactSttKeepsKeys(exact, s, persona, models, Existing(s, persona).tts, entered);
    } else if Wished(models, "tts", s.defaults.tts) == NoWish {
      ContactSttKeepsKeys(exact, s, persona, models, None, entered);
    }
  }

  lemma AnswerKeepsKeys(exact: bool, s: State, a: Answer, order: seq<string>, persisted: bool, entered: set<KeyEntry>)
    requires KeysMine(exact, s, entered)
    ensures KeysMine(exact, OnAnswer(s, a, order, persisted), entered)
  {
    hide Commit, ContactStt, SaveStt, FormTyped, FormSlips, Where;
    match s.job {
      case SavingTts(raw, draft) =>
        var v := Checked(Tts, draft, a);
        if v.Some? { SaveSttKeepsKeys(exact, s, raw, v.value, order, persisted, entered); }
      case SavingStt(tts, draft) =>
        var v := Checked(Stt, draft, a);
        if v.Some? { CommitKeepsKeys(exact, s, Defaults(tts, v.value), order, persisted, entered); }
      case ProvingTts(persona, models, o) => ContactSttKeepsKeys(exact, s, persona, models, Some(o), entered);
      case _ =>
    }
  }

  lemma GrowingKeepsKeys(exact: bool, s: State, entered: set<KeyEntry>, more: set<KeyEntry>)
    requires KeysMine(exact, s, entered) && entered <= more
    ensures KeysMine(exact, s, more)
  {
    hide Where, FormTyped, FormSlips;
  }

  lemma StepKeepsKeys(exact: bool, s: State, e: Event, entered: set<KeyEntry>)
    requires KeysMine(exact, s, entered) && (exact ==> !SavesSlipping(e))
    ensures KeysMine(exact, Step(s, e), entered + Typed(exact, s, e))
  {
    hide Mine, SaveTts, ContactTts, OnAnswer, RemotePlan, FormTyped, FormSlips;
    var more := entered + Typed(exact, s, e);
    GrowingKeepsKeys(exact, s, entered, more);
    match e {
      case Save(raw, order, persisted) => if s.job == Free { SaveTtsKeepsKeys(exact, s, raw, order, persisted, more); }
      case Located(persona) =>
        if persona.Some? && s.job.Locating? { ContactTtsKeepsKeys(exact, s, persona.value, s.job.models, more); }
      case Answers(a, order, persisted) => AnswerKeepsKeys(exact, s, a, order, persisted, more);
      case Reopen => OpenHasKeysOfTheFile(exact, s, more);
      case _ =>
    }
  }

  lemma OpenHasKeysOfTheFile(exact: bool, s: State, entered: set<KeyEntry>)
    requires KeysMine(exact, s, entered)
    ensures KeysMine(exact, Open(s.disk), entered)
  {
    hide FormTyped, FormSlips, Where;
    EmptyIsMine(exact, entered);
  }

  lemma EmptyIsMine(exact: bool, entered: set<KeyEntry>)
    ensures Mine(exact, Tts, Empty(), entered) && Mine(exact, Stt, Empty(), entered)
  {
    hide Where;
    assert Trim("https://api.openai.com/v1") == "https://api.openai.com/v1";
  }

  // --- Whole runs --------------------------------------------------------------------

  function Entered(exact: bool, tr: Trace, n: nat): set<KeyEntry>
    requires n <= |tr.events| < |tr.states|
  {
    if n == 0 then {} else Entered(exact, tr, n - 1) + Typed(exact, tr.states[n - 1], tr.events[n - 1])
  }

  lemma {:induction false} EnteredWasTyped(exact: bool, tr: Trace, n: nat, entry: KeyEntry)
    requires n <= |tr.events| < |tr.states|
    ensures entry in Entered(exact, tr, n) <==>
        exists i :: 0 <= i < n && entry in Typed(exact, tr.states[i], tr.events[i])
  {
    hide Typed;
    if n > 0 {
      EnteredWasTyped(exact, tr, n - 1, entry);
    }
  }

  lemma {:induction false} RunKeepsKeys(exact: bool, tr: Trace, k: nat)
    requires IsRun(tr) && k < |tr.states|
    requires exact ==> forall i :: 0 <= i < k ==> !SavesSlipping(tr.events[i])
    ensures KeysMine(exact, tr.states[k], Entered(exact, tr, k))
  {
    hide Step, KeysMine, Typed, SavesSlipping;
    if k == 0 {
      NothingEntered(exact);
    } else {
      RunKeepsKeys(exact, tr, k - 1);
      assert Linked(tr, k - 1);
      StepKeepsKeys(exact, tr.states[k - 1], tr.events[k - 1], Entered(exact, tr, k - 1));
    }
  }

  lemma NothingEntered(exact: bool)
    ensures KeysMine(exact, Open(None), {})
  {
    EmptyIsMine(exact, {});
  }

  ghost predicate TypedBefore(exact: bool, tr: Trace, k: nat, c: Call) {
    exists i :: 0 <= i < k && i < |tr.events| && i < |tr.states|
        && Carried(exact, c) in Typed(exact, tr.states[i], tr.events[i])
  }

  lemma SentWasTyped(exact: bool, tr: Trace, k: nat, c: Call)
    requires IsRun(tr) && k < |tr.states| && Sends(tr.states[k], c) && c.apiKey != ""
    requires exact ==> forall i :: 0 <= i < k ==> !SavesSlipping(tr.events[i])
    ensures TypedBefore(exact, tr, k, c)
  {
    hide Step, KeysMine, Typed, SavesSlipping, Sends, Carried;
    RunKeepsKeys(exact, tr, k);
    SendsOnlyMine(exact, tr.states[k], c, Entered(exact, tr, k));
    EnteredWasTyped(exact, tr, k, Carried(exact, c));
  }

  /** On every run of saves, contact changes, failures and relaunches: a call of the queue that carries a
      key for an endpoint carries one the user typed before, in that direction's form, for that endpoint,
      up to blanks around its URL and slashes after it. */
  lemma KeysStayWithTheirEndpoint(tr: Trace, k: nat, c: Call)
    requires IsRun(tr) && k < |tr.states| && Sends(tr.states[k], c) && c.apiKey != ""
    ensures TypedBefore(false, tr, k, c)
  {
    hide Step, Sends;
    SentWasTyped(false, tr, k, c);
  }

  /** What may back the key of a check the page asks for: its own form, or what was typed before. */
  ghost predicate CheckBacked(exact: bool, tr: Trace, k: nat, d: Modality, form: Json)
    requires k < |tr.states|
  {
    var saved := SavedFor(tr.states[k], d);
    var c := Posed(d, saved, form);
    c.Some? && c.value.apiKey != "" ==>
      || Carried(exact, c.value) in FormTyped(exact, d, saved, Some(Disabled(form)))
      || TypedBefore(exact, tr, k, c.value)
  }

  function SavedFor(s: State, d: Modality): SavedChoice {
    if d == Tts then s.defaults.tts else s.defaults.stt
  }

  lemma CheckWasTyped(exact: bool, tr: Trace, k: nat, d: Modality, form: Json)
    requires IsRun(tr) && k < |tr.states|
    requires exact ==> forall i :: 0 <= i < k ==> !SavesSlipping(tr.events[i])
    ensures CheckBacked(exact, tr, k, d, form)
  {
    hide Step, Typed, Posed, Mine, FormTyped, Carried, SavesSlipping;
    var saved := SavedFor(tr.states[k], d);
    var c := Posed(d, saved, form);
    RunKeepsKeys(exact, tr, k);
    PosedIsMine(exact, d, saved, form, Entered(exact, tr, k));
    if c.Some? && c.value.apiKey != "" {
      EnteredWasTyped(exact, tr, k, Carried(exact, c.value));
    }
  }

  /** And so does a check the page asks for at any moment, with the key of its own form or an earlier one. */
  lemma CheckedKeysStayWithTheirEndpoint(tr: Trace, k: nat, d: Modality, form: Json)
    requires IsRun(tr) && k < |tr.states|
    ensures CheckBacked(false, tr, k, d, form)
  {
    hide Step, CheckBacked;
    CheckWasTyped(false, tr, k, d, form);
  }

  // --- By the code's own fingerprints ------------------------------------------------

  /** For the queue's calls and for every check the page may ask for. */
  ghost predicate ExactlyConfined(tr: Trace) {
    && (forall k, c :: 0 <= k < |tr.states| && Sends(tr.states[k], c) && c.apiKey != "" ==> TypedBefore(true, tr, k, c))
    && (forall k: nat, d, form :: k < |tr.states| ==> CheckBacked(true, tr, k, d, form))
  }

  lemma ExactWhileNothingSlips(tr: Trace)
    requires IsRun(tr) && forall i :: 0 <= i < |tr.events| ==> !SavesSlipping(tr.events[i])
    ensures ExactlyConfined(tr)
  {
    hide Step, Sends, SavesSlipping, TypedBefore, CheckBacked;
    forall k, c | 0 <= k < |tr.states| && Sends(tr.states[k], c) && c.apiKey != "" ensures TypedBefore(true, tr, k, c) {
      SentWasTyped(true, tr, k, c);
    }
    forall k: nat, d, form | k < |tr.states| ensures CheckBacked(true, tr, k, d, form) {
      CheckWasTyped(true, tr, k, d, form);
    }
  }

  function SlippingForm(u: string): Json {
    Fields(map["enabled" := Bool(true), "provider" := Text("openai-compatible"), "baseUrl" := Text(u),
               "model" := Text("m"), "apiKey" := Text("k")])
  }

  function OneSave(u: string): Event {
    Save(Fields(map["tts" := Fields(map["enabled" := Bool(false)]), "stt" := SlippingForm(u)]), [], true)
  }

  /** The choice a URL is cleaned to; its check cleans it again. */
  function CleanedChoice(url: string): SavedChoice {
    Empty().(enabled := true, baseUrl := url, model := "m", apiKey := "k")
  }

  lemma FormChosen(u: string)
    requires |u| <= 65536
    ensures Choice(Stt, Empty(), SlippingForm(u)) == Some(CleanedChoice(StripSlashes(Trim(u))))
    ensures FormTyped(true, Stt, Empty(), Some(SlippingForm(u)))
        == {(Stt, Where(true, "openai-compatible", Trim(u)), "k")}
  {
    var form := SlippingForm(u);
    assert Trim("k") == "k";
    hide StripSlashes, Trim;
    assert TextField(form, "provider") == Some("openai-compatible") && TextField(form, "baseUrl") == Some(u);
    assert TextField(form, "model") == Some("m") && TextField(form, "apiKey") == Some("k");
    assert Field(form, "enabled") == Some(Bool(true)) && Field(form, "voice") == None;
  }

  lemma OtherFormChosen()
    ensures var off := Fields(map["enabled" := Bool(false)]);
            Choice(Tts, Empty(), off) == Some(Empty()) && FormTyped(true, Tts, Empty(), Some(off)) == {}
  {
    var off := Fields(map["enabled" := Bool(false)]);
    assert |off.fields.Keys| == |{"enabled"}|;
  }

  lemma CheckCleansAgain(url: string)
    requires |url| <= 65536
    ensures Posed(Stt, Empty(), FormOf(CleanedChoice(url)))
            == Some(Call(Stt, "openai-compatible", StripSlashes(Trim(url)), "k"))
  {
    assert Trim("k") == "k";
    hide StripSlashes, Trim, Fingerprint;
    var form := Disabled(FormOf(CleanedChoice(url)));
    FormFields(CleanedChoice(url));
    hide Disabled, FormOf;
    assert |form.fields| != 1;
  }

  lemma FormFields(v: SavedChoice)
    ensures var form := Disabled(FormOf(v));
            && form.Fields? && |form.fields| == 6 && Field(form, "enabled") == Some(Bool(false))
            && Field(form, "provider") == Some(Text(v.provider)) && Field(form, "baseUrl") == Some(Text(v.baseUrl))
            && Field(form, "model") == Some(Text(v.model)) && Field(form, "voice") == Some(Text(v.voice))
            && Field(form, "apiKey") == Some(Text(v.apiKey))
  {
    var form := Disabled(FormOf(v));
    assert form.fields.Keys == {"enabled", "provider", "baseUrl", "model", "voice", "apiKey"};
    assert |form.fields.Keys| == 6;
  }

  lemma OneSaveWaits(u: string)
    requires |u| <= 65536
    ensures Step(Open(None), OneSave(u)).job == SavingStt(Empty(), CleanedChoice(StripSlashes(Trim(u))))
    ensures Step(Open(None), OneSave(u)).defaults == Defaults(Empty(), Empty())
    ensures Typed(true, Open(None), OneSave(u)) == {(Stt, Where(true, "openai-compatible", Trim(u)), "k")}
  {
    FormChosen(u);
    OtherFormChosen();
    hide StripSlashes, Trim, Choice, FormTyped, SlippingForm, Where, Commit;
    var raw := OneSave(u).raw;
    assert Field(raw, "stt") == Some(SlippingForm(u))
        && Field(raw, "tts") == Some(Fields(map["enabled" := Bool(false)]));
  }

  lemma SendsWhileWaiting(s: State, tts: SavedChoice, draft: SavedChoice, c: Call)
    requires s.job == SavingStt(tts, draft) && Posed(Stt, s.defaults.stt, FormOf(draft)) == Some(c)
    ensures Sends(s, c)
  {
    hide Posed, FormOf;
  }

  lemma OneCallElsewhere(tr: Trace, c: Call)
    requires |tr.states| == 2 && |tr.events| == 1 && Sends(tr.states[1], c) && c.apiKey != ""
    requires Carried(true, c) !in Typed(true, tr.states[0], tr.events[0])
    ensures !ExactlyConfined(tr)
  {
    hide Sends, Carried, Typed;
    assert !TypedBefore(true, tr, 1, c);
  }

  lemma SlippingUrl(u: string)
    requires Slips(u)
    ensures var w := StripSlashes(Trim(u)); |u| <= 65536 && |w| <= 65536 && StripSlashes(Trim(w)) != w
  {
    CleanedTwice(u);
    CleanedLength(u);
  }

  lemma OneSaveSends(u: string) returns (c: Call)
    requires Slips(u)
    ensures Sends(Step(Open(None), OneSave(u)), c) && c.apiKey != ""
    ensures Carried(true, c) !in Typed(true, Open(None), OneSave(u))
  {
    var w := StripSlashes(Trim(u));
    hide Slips, Step, StripSlashes, Trim, Posed, Where, OneSave, Typed, Open, Sends, FormOf, CleanedChoice;
    SlippingUrl(u);
    OneSaveWaits(u);
    CheckCleansAgain(w);
    CleanedPlaceDiffers(u, w);
    c := Call(Stt, "openai-compatible", StripSlashes(Trim(w)), "k");
    SendsWhileWaiting(Step(Open(None), OneSave(u)), Empty(), CleanedChoice(w), c);
  }

  /** The first save of a URL that slips has it checked with the key at another one. */
  lemma OneSaveBreaksIt(u: string) returns (tr: Trace)
    requires Slips(u)
    ensures IsRun(tr) && tr.events == [OneSave(u)] && !ExactlyConfined(tr)
  {
    hide Step, Slips, Sends, Typed, Carried, ExactlyConfined, OneSave, Open;
    var c := OneSaveSends(u);
    tr := Trace([Open(None), Step(Open(None), OneSave(u))], [OneSave(u)]);
    assert Linked(tr, 0);
    OneCallElsewhere(tr, c);
  }

  lemma CleanedPlaceDiffers(u: string, w: string)
    requires w == StripSlashes(Trim(u)) && StripSlashes(Trim(w)) != w
    ensures Where(true, "openai-compatible", StripSlashes(Trim(w))) != Where(true, "openai-compatible", Trim(u))
  {
    var prefix := "openai-compatible|";
    StripSlashesDone(Trim(w));
    assert Where(true, "openai-compatible", StripSlashes(Trim(w)))[|prefix|..] == StripSlashes(Trim(w));
    assert Where(true, "openai-compatible", Trim(u))[|prefix|..] == w;
  }

  ghost predicate SavesOnly(tr: Trace, u: string) {
    forall i :: 0 <= i < |tr.events| && tr.events[i].Save? ==>
      OnlyUrl(Field(tr.events[i].raw, "tts"), u) && OnlyUrl(Field(tr.events[i].raw, "stt"), u)
  }

  predicate OnlyUrl(form: Option<Json>, u: string) {
    form.Some? && TextField(form.value, "baseUrl").Some? ==> TextField(form.value, "baseUrl").value == u
  }

  /** So by the code's own fingerprints, saving a URL keeps every key with its endpoint, on every run,
      exactly when the URL does not slip. */
  lemma ExactExactlyWhenNothingSlips(u: string)
    ensures (forall tr :: IsRun(tr) && SavesOnly(tr, u) ==> ExactlyConfined(tr)) <==> !Slips(u)
  {
    hide ExactlyConfined, Slips, IsRun;
    if Slips(u) {
      var tr := OneSaveBreaksIt(u);
      var raw := OneSave(u).raw;
      assert Field(raw, "tts") == Some(Fields(map["enabled" := Bool(false)]))
          && Field(raw, "stt") == Some(SlippingForm(u));
      assert SavesOnly(tr, u);
    } else {
      forall tr | IsRun(tr) && SavesOnly(tr, u) ensures ExactlyConfined(tr) {
        ExactWhileNothingSlips(tr);
      }
    }
  }
}
