/** App-wide voice defaults and per-contact overrides (electron/voiceModels.ts). A job holds the queue
    from its first step to its last; between two of its awaits anything outside the queue may run. */
module VoiceModels {
  import opened Basics
  import opened Texts
  import LocalAccess

  datatype Modality = Tts | Stt

  datatype Model = Model(id: string, voices: seq<string>)

  datatype SavedChoice = SavedChoice(
    enabled: bool,
    provider: string,
    baseUrl: string,
    model: string,
    voice: string,
    apiKey: string,
    models: seq<Model>,
    voices: seq<string>)

  datatype Defaults = Defaults(tts: SavedChoice, stt: SavedChoice)

  datatype Override = Override(endpoint: string, model: string, voice: Option<string>)

  datatype Entry = Entry(tts: Option<Override>, stt: Option<Override>)

  /** A contact's entry may be present and undefined. */
  type Overrides = map<string, Option<Entry>>

  datatype Saved = Saved(defaults: Defaults, overrides: map<string, Entry>)

  /** What a provider check resolves to. */
  datatype Answer = Answer(ok: bool, models: seq<Model>, voices: seq<string>)

  /** The task at the head of the queue and what it awaits. */
  datatype Job =
    | Free
    | SavingTts(raw: Json, draft: SavedChoice)
    | SavingStt(verified: SavedChoice, draft: SavedChoice)
    | Locating(models: Json)
    | CheckingTts(persona: string, models: Json, model: string, v: SavedChoice)
    | ProvingTts(persona: string, models: Json, override: Override)
    | CheckingStt(persona: string, tts: Option<Override>, model: string, v: SavedChoice)
    | Applying(persona: string, previous: Option<Entry>)
    | Configuring

  datatype State = State(defaults: Defaults, overrides: Overrides, disk: Option<Saved>, job: Job)

  datatype Event =
    | Save(raw: Json, order: seq<string>, persisted: bool)
    | SetContact(models: Json)
    | Located(found: Option<string>)
    | Answers(answer: Answer, order: seq<string>, persisted: bool)
    | Fails
    | Settles(persisted: bool)
    | Apply
    | NewPersona(persona: string, persisted: bool)
    | SaveRemote(pubkey: string, wanted: Option<Json>, persisted: bool)
    | Reopen

  const REMOTE := "remote:"

  function Empty(): SavedChoice {
    SavedChoice(false, "openai-compatible", "https://api.openai.com/v1", "", "", "", [], [])
  }

  function Fingerprint(v: SavedChoice): string {
    v.provider + "|" + StripSlashes(v.baseUrl)
  }

  predicate HasModel(models: seq<Model>, id: string) {
    exists m :: m in models && m.id == id
  }

  predicate IsRemote(key: string) {
    StartsWith(key, REMOTE)
  }

  // --- A choice in the form ----------------------------------------------------------

  function Overlay(current: string, raw: Json, key: string): Option<string> {
    match Field(raw, key)
    case None => if |current| <= 65536 then Some(current) else None
    case Some(Text(s)) => if |s| <= 65536 then Some(s) else None
    case Some(_) => None
  }

  /** `choice`: the saved choice with the form's fields over it, or nothing where it throws. */
  function Choice(d: Modality, saved: SavedChoice, raw: Json): Option<SavedChoice> {
    match Field(raw, "enabled")
    case Some(Bool(enabled)) =>
      if !enabled && |raw.fields| == 1 then Some(saved.(enabled := false))
      else
        var provider := Overlay(saved.provider, raw, "provider");
        var baseUrl := Overlay(saved.baseUrl, raw, "baseUrl");
        var model := Overlay(saved.model, raw, "model");
        var voice := Overlay(saved.voice, raw, "voice");
        if provider.None? || provider.value !in ["elevenlabs", "openai-compatible"] then None
        else if baseUrl.None? || model.None? || voice.None? || Overlay(saved.apiKey, raw, "apiKey").None? then None
        else
          var url := if provider.value == "elevenlabs" then "" else StripSlashes(Trim(baseUrl.value));
          var v := saved.(enabled := enabled, provider := provider.value, baseUrl := url, model := model.value,
              voice := voice.value);
          var typed := match TextField(raw, "apiKey") case Some(s) => Trim(s) case None => "";
          var key := if typed != "" then typed else if Fingerprint(v) == Fingerprint(saved) then saved.apiKey else "";
          if enabled && (key == "" || v.model == "" || (d == Tts && v.voice == "")) then None
          else Some(v.(apiKey := key))
    case _ => None
  }

  /** A saved key stays with the endpoint it was saved for: unless a new one is typed, a choice for any
      other provider or URL has none. What can be enabled is complete. */
  lemma KeyStaysWithEndpoint(d: Modality, saved: SavedChoice, raw: Json)
    requires Choice(d, saved, raw).Some?
    ensures var v := Choice(d, saved, raw).value;
            && (v.apiKey != "" ==>
                  || (TextField(raw, "apiKey").Some? && v.apiKey == Trim(TextField(raw, "apiKey").value))
                  || (v.apiKey == saved.apiKey && Fingerprint(v) == Fingerprint(saved)))
            && (v.enabled ==> v.apiKey != "" && v.model != "" && (d == Tts ==> v.voice != ""))
            && v.models == saved.models && v.voices == saved.voices
  {
  }

  /** What a verified draft becomes, or nothing where `save` throws. */
  function Checked(d: Modality, draft: SavedChoice, a: Answer): Option<SavedChoice> {
    if !a.ok then None
    else if a.models != [] && !HasModel(a.models, draft.model) then None
    else if d == Tts && draft.voice !in a.voices then None
    else Some(draft.(models := a.models, voices := a.voices))
  }

  // --- Overrides ---------------------------------------------------------------------

  function Unstale(o: Option<Override>, v: SavedChoice): Option<Override> {
    if o.Some? && (o.value.endpoint != Fingerprint(v) || !HasModel(v.models, o.value.model)) then None else o
  }

  function Pruned(e: Entry, next: Defaults): Entry {
    Entry(Unstale(e.tts, next.tts), Unstale(e.stt, next.stt))
  }

  /** `order` is how the object's keys are enumerated. */
  ghost predicate Enumerates(order: seq<string>, overrides: Overrides) {
    && (forall i, j :: 0 <= i < j < |order| ==> order[i] != order[j])
    && (forall k :: k in order <==> k in overrides)
  }

  /** Dropping what `next` makes stale, entry by entry; an undefined entry throws there and then. */
  function DropStale(overrides: Overrides, order: seq<string>, next: Defaults): (Overrides, bool) {
    if order == [] || order[0] !in overrides then (overrides, true)
    else if overrides[order[0]].None? then (overrides, false)
    else DropStale(overrides[order[0] := Some(Pruned(overrides[order[0]].value, next))], order[1..], next)
  }

  /** JSON leaves undefined entries out. */
  function Defined(overrides: Overrides): map<string, Entry> {
    map k | k in overrides && overrides[k].Some? :: overrides[k].value
  }

  function Persist(s: State): State {
    s.(disk := Some(Saved(s.defaults, Defined(s.overrides))))
  }

  ghost function Commit(s: State, next: Defaults, order: seq<string>, persisted: bool): State {
    if !Enumerates(order, s.overrides) then s
    else
      var (kept, through) := DropStale(s.overrides, order, next);
      if !through then s.(overrides := kept, job := Free)
      else if !persisted then s.(job := Free)
      else Persist(s.(defaults := next, overrides := kept, job := Configuring))
  }

  // --- Jobs --------------------------------------------------------------------------

  ghost function SaveStt(s: State, raw: Json, tts: SavedChoice, order: seq<string>, persisted: bool): State {
    var field := Field(raw, "stt");
    var draft := if field.Some? then Choice(Stt, s.defaults.stt, field.value) else None;
    if draft.None? then s.(job := Free)
    else if draft.value.enabled then s.(job := SavingStt(tts, draft.value))
    else Commit(s, Defaults(tts, draft.value), order, persisted)
  }

  ghost function SaveTts(s: State, raw: Json, order: seq<string>, persisted: bool): State {
    var field := Field(raw, "tts");
    var draft := if field.Some? then Choice(Tts, s.defaults.tts, field.value) else None;
    if draft.None? then s.(job := Free)
    else if draft.value.enabled then s.(job := SavingTts(raw, draft.value))
    else SaveStt(s, raw, draft.value, order, persisted)
  }

  predicate Falsy(j: Json) {
    j == Null || j == Bool(false) || j == Number(0.0) || j == Text("")
  }

  datatype Wish = NoWish | Wish(model: string) | BadWish

  /** The model a contact asks for, of the default's list. */
  function Wished(models: Json, key: string, v: SavedChoice): Wish {
    match Field(models, key)
    case None => NoWish
    case Some(j) =>
      if Falsy(j) then NoWish
      else if j.Text? && HasModel(v.models, j.text) then Wish(j.text)
      else BadWish
  }

  function Existing(s: State, key: string): Entry {
    if key in s.overrides && s.overrides[key].Some? then s.overrides[key].value else Entry(None, None)
  }

  function Install(s: State, persona: string, next: Entry): State {
    var previous := if persona in s.overrides then s.overrides[persona] else None;
    s.(overrides := s.overrides[persona := Some(next)], job := Applying(persona, previous))
  }

  function ContactStt(s: State, persona: string, models: Json, tts: Option<Override>): State {
    if !s.defaults.stt.enabled then Install(s, persona, Entry(tts, Existing(s, persona).stt))
    else
      match Wished(models, "stt", s.defaults.stt)
      case NoWish => Install(s, persona, Entry(tts, None))
      case Wish(m) => s.(job := CheckingStt(persona, tts, m, s.defaults.stt))
      case BadWish => s.(job := Free)
  }

  function ContactTts(s: State, persona: string, models: Json): State {
    if !s.defaults.tts.enabled then ContactStt(s, persona, models, Existing(s, persona).tts)
    else
      match Wished(models, "tts", s.defaults.tts)
      case NoWish => ContactStt(s, persona, models, None)
      case Wish(m) => s.(job := CheckingTts(persona, models, m, s.defaults.tts))
      case BadWish => s.(job := Free)
  }

  function VoiceFor(v: SavedChoice, a: Answer): string {
    if v.voice in a.voices then v.voice else if a.voices != [] then a.voices[0] else ""
  }

  ghost function OnAnswer(s: State, a: Answer, order: seq<string>, persisted: bool): State {
    match s.job
    case SavingTts(raw, draft) =>
      var v := Checked(Tts, draft, a);
      if v.None? then s.(job := Free) else SaveStt(s, raw, v.value, order, persisted)
    case SavingStt(tts, draft) =>
      var v := Checked(Stt, draft, a);
      if v.None? then s.(job := Free) else Commit(s, Defaults(tts, v.value), order, persisted)
    case CheckingTts(persona, models, m, v) =>
      if !a.ok || VoiceFor(v, a) == "" then s.(job := Free)
      else s.(job := ProvingTts(persona, models, Override(Fingerprint(v), m, Some(VoiceFor(v, a)))))
    case ProvingTts(persona, models, o) =>
      if !a.ok then s.(job := Free) else ContactStt(s, persona, models, Some(o))
    case CheckingStt(persona, tts, m, v) =>
      if !a.ok then s.(job := Free) else Install(s, persona, Entry(tts, Some(Override(Fingerprint(v), m, None))))
    case _ => s
  }

  /** A call of the job rejects; an installed override is taken back, in memory. */
  function OnFailure(s: State): State {
    match s.job
    case Applying(persona, previous) => s.(overrides := s.overrides[persona := previous], job := Configuring)
    case _ => s.(job := Free)
  }

  function OnSettled(s: State, persisted: bool): State {
    match s.job
    case Applying(_, _) => if persisted then Persist(s.(job := Configuring)) else OnFailure(s)
    case Configuring => s.(job := Free)
    case _ => s
  }

  function OnNewPersona(s: State, persona: string, persisted: bool): State {
    if s.job != Free || (!s.defaults.tts.enabled && !s.defaults.stt.enabled) then s
    else if persona in s.overrides && s.overrides[persona].Some? then
      var t := s.(overrides := s.overrides - {persona});
      if persisted then Persist(t.(job := Configuring)) else t
    else s.(job := Configuring)
  }

  // --- Contacts on another engine ----------------------------------------------------

  datatype Plan = Off | On(provider: string, baseUrl: string, model: string)

  function PlanOne(v: SavedChoice, saved: Option<Override>, models: Option<Json>, key: string): Option<Plan> {
    if !v.enabled then Some(Off)
    else
      var own := if models.Some? then Field(models.value, key) else None;
      var model := match own
        case Some(j) => if Falsy(j) then Text(v.model) else j
        case None => Text(if saved.Some? && saved.value.endpoint == Fingerprint(v) then saved.value.model else v.model);
      if model.Text? && (model.text == v.model || HasModel(v.models, model.text))
      then Some(On(v.provider, v.baseUrl, model.text)) else None
  }

  function RemotePlan(s: State, pubkey: string, models: Option<Json>): Option<(Plan, Plan)> {
    if !LocalAccess.IsHexPubkey(pubkey) then None
    else
      var e := Existing(s, REMOTE + pubkey);
      var tts, stt := PlanOne(s.defaults.tts, e.tts, models, "tts"), PlanOne(s.defaults.stt, e.stt, models, "stt");
      if tts.Some? && stt.Some? then Some((tts.value, stt.value)) else None
  }

  function RemoteOverride(v: SavedChoice, saved: Option<Override>, models: Json, key: string): Option<Override> {
    if !v.enabled then saved
    else match Field(models, key)
      case Some(Text(m)) => if m == "" then None else Some(Override(Fingerprint(v), m, None))
      case _ => None
  }

  function OnSaveRemote(s: State, pubkey: string, models: Option<Json>, persisted: bool): State {
    if RemotePlan(s, pubkey, models).None? || models.None? || models.value == Null then s
    else
      var e := Existing(s, REMOTE + pubkey);
      var next := Entry(RemoteOverride(s.defaults.tts, e.tts, models.value, "tts"),
                        RemoteOverride(s.defaults.stt, e.stt, models.value, "stt"));
      var t := s.(overrides := s.overrides[REMOTE + pubkey := Some(next)]);
      if persisted then Persist(t) else t
  }

  // --- Steps -------------------------------------------------------------------------

  function Open(disk: Option<Saved>): State {
    match disk
    case None => State(Defaults(Empty(), Empty()), map[], None, Free)
    case Some(f) => State(f.defaults, map k | k in f.overrides :: Some(f.overrides[k]), disk, Free)
  }

  ghost function Step(s: State, e: Event): State {
    match e
    case Save(raw, order, persisted) => if s.job == Free then SaveTts(s, raw, order, persisted) else s
    case SetContact(models) => if s.job == Free then s.(job := Locating(models)) else s
    case Located(persona) =>
      if !s.job.Locating? then s
      else if persona.None? || !s.job.models.Fields? then s.(job := Free)
      else ContactTts(s, persona.value, s.job.models)
    case Answers(a, order, persisted) => OnAnswer(s, a, order, persisted)
    case Fails => OnFailure(s)
    case Settles(persisted) => OnSettled(s, persisted)
    case Apply => if s.job == Free then s.(job := Configuring) else s
    case NewPersona(persona, persisted) => OnNewPersona(s, persona, persisted)
    case SaveRemote(pubkey, models, persisted) => OnSaveRemote(s, pubkey, models, persisted)
    case Reopen => Open(s.disk)
  }

  // --- The object --------------------------------------------------------------------

  class VoiceModels {
    var defaults: Defaults
    var overrides: Overrides
    var file: Option<Saved>
    var job: Job

    ghost function View(): State
      reads this
    {
      State(defaults, overrides, file, job)
    }

    constructor (disk: Option<Saved>)
      ensures View() == Open(disk)
    {
      if disk.None? {
        defaults, overrides := Defaults(Empty(), Empty()), map[];
      } else {
        defaults, overrides := disk.value.defaults, map k | k in disk.value.overrides :: Some(disk.value.overrides[k]);
      }
      file, job := disk, Free;
    }

    method PersistNow()
      modifies `file
      ensures View() == Persist(old(View()))
    {
      file := Some(Saved(defaults, Defined(overrides)));
    }

    /** The tail of `save` once both directions are checked, up to its next await. */
    method CommitNow(next: Defaults, order: seq<string>, persisted: bool)
      requires Enumerates(order, overrides)
      modifies this
      ensures View() == Commit(old(View()), next, order, persisted)
    {
      var previous := overrides;
      var i := 0;
      while i < |order|
        invariant 0 <= i <= |order|
        invariant overrides.Keys == previous.Keys
        invariant DropStale(previous, order, next) == DropStale(overrides, order[i..], next)
        invariant defaults == old(defaults) && file == old(file)
      {
        if overrides[order[i]].None? {
          job := Free;
          return;
        }
        overrides := overrides[order[i] := Some(Pruned(overrides[order[i]].value, next))];
        i := i + 1;
      }
      if !persisted {
        overrides := previous;
        job := Free;
        return;
      }
      defaults, job := next, Configuring;
      PersistNow();
    }

    method SaveSttNow(raw: Json, tts: SavedChoice, order: seq<string>, persisted: bool)
      requires Enumerates(order, overrides)
      modifies this
      ensures View() == SaveStt(old(View()), raw, tts, order, persisted)
    {
      var field := Field(raw, "stt");
      if field.None? {
        job := Free;
        return;
      }
      var draft := Choice(Stt, defaults.stt, field.value);
      if draft.None? {
        job := Free;
      } else if draft.value.enabled {
        job := SavingStt(tts, draft.value);
      } else {
        CommitNow(Defaults(tts, draft.value), order, persisted);
      }
    }

    method BeginSave(raw: Json, order: seq<string>, persisted: bool)
      requires job == Free && Enumerates(order, overrides)
      modifies this
      ensures View() == Step(old(View()), Save(raw, order, persisted))
    {
      var field := Field(raw, "tts");
      if field.None? {
        return;
      }
      var draft := Choice(Tts, defaults.tts, field.value);
      if draft.None? {
        return;
      }
      if draft.value.enabled {
        job := SavingTts(raw, draft.value);
      } else {
        SaveSttNow(raw, draft.value, order, persisted);
      }
    }

    method InstallNow(persona: string, next: Entry)
      modifies this
      ensures View() == Install(old(View()), persona, next)
    {
      job := Applying(persona, if persona in overrides then overrides[persona] else None);
      overrides := overrides[persona := Some(next)];
    }

    method ContactSttNow(persona: string, models: Json, tts: Option<Override>)
      modifies this
      ensures View() == ContactStt(old(View()), persona, models, tts)
    {
      if !defaults.stt.enabled {
        var kept := if persona in overrides && overrides[persona].Some? then overrides[persona].value.stt else None;
        InstallNow(persona, Entry(tts, kept));
        return;
      }
      match Wished(models, "stt", defaults.stt) {
        case NoWish => InstallNow(persona, Entry(tts, None));
        case Wish(m) => job := CheckingStt(persona, tts, m, defaults.stt);
        case BadWish => job := Free;
      }
    }

    method OnContactLocated(persona: Option<string>)
      requires job.Locating?
      modifies this
      ensures View() == Step(old(View()), Located(persona))
    {
      var models := job.models;
      if persona.None? || !models.Fields? {
        job := Free;
        return;
      }
      if !defaults.tts.enabled {
        var key := persona.value;
        var kept := if key in overrides && overrides[key].Some? then overrides[key].value.tts else None;
        ContactSttNow(key, models, kept);
        return;
      }
      match Wished(models, "tts", defaults.tts) {
        case NoWish => ContactSttNow(persona.value, models, None);
        case Wish(m) => job := CheckingTts(persona.value, models, m, defaults.tts);
        case BadWish => job := Free;
      }
    }

    method OnChecked(a: Answer, order: seq<string>, persisted: bool)
      requires Enumerates(order, overrides)
      modifies this
      ensures View() == Step(old(View()), Answers(a, order, persisted))
    {
      match job {
        case SavingTts(raw, draft) =>
          var v := Checked(Tts, draft, a);
          if v.None? { job := Free; } else { SaveSttNow(raw, v.value, order, persisted); }
        case SavingStt(tts, draft) =>
          var v := Checked(Stt, draft, a);
          if v.None? { job := Free; } else { CommitNow(Defaults(tts, v.value), order, persisted); }
        case CheckingTts(persona, models, m, v) =>
          var voice := VoiceFor(v, a);
          if !a.ok || voice == "" { job := Free; }
          else { job := ProvingTts(persona, models, Override(Fingerprint(v), m, Some(voice))); }
        case ProvingTts(persona, models, o) =>
          if a.ok { ContactSttNow(persona, models, Some(o)); } else { job := Free; }
        case CheckingStt(persona, tts, m, v) =>
          if a.ok { InstallNow(persona, Entry(tts, Some(Override(Fingerprint(v), m, None)))); } else { job := Free; }
        case _ =>
      }
    }

    method OnFails()
      modifies this
      ensures View() == Step(old(View()), Fails)
    {
      if job.Applying? {
        overrides := overrides[job.persona := job.previous];
        job := Configuring;
      } else {
        job := Free;
      }
    }

    method OnSettles(persisted: bool)
      modifies this
      ensures View() == Step(old(View()), Settles(persisted))
    {
      if job.Applying? {
        if persisted {
          job := Configuring;
          PersistNow();
        } else {
          OnFails();
        }
      } else if job.Configuring? {
        job := Free;
      }
    }

    method ApplyNewPersona(persona: string, persisted: bool)
      requires job == Free
      modifies this
      ensures View() == Step(old(View()), NewPersona(persona, persisted))
    {
      if !defaults.tts.enabled && !defaults.stt.enabled {
        return;
      }
      if persona in overrides && overrides[persona].Some? {
        overrides := overrides - {persona};
        if !persisted {
          return;
        }
        PersistNow();
      }
      job := Configuring;
    }

    method SaveRemoteNow(pubkey: string, models: Option<Json>, persisted: bool)
      modifies this
      ensures View() == Step(old(View()), SaveRemote(pubkey, models, persisted))
    {
      if RemotePlan(State(defaults, overrides, file, job), pubkey, models).None? || models.None?
          || models.value == Null {
        return;
      }
      var key := REMOTE + pubkey;
      var kept := if key in overrides && overrides[key].Some? then overrides[key].value else Entry(None, None);
      overrides := overrides[key := Some(Entry(RemoteOverride(defaults.tts, kept.tts, models.value, "tts"),
                                               RemoteOverride(defaults.stt, kept.stt, models.value, "stt")))];
      if persisted {
        PersistNow();
      }
    }
  }

  // --- Overrides stay compatible -----------------------------------------------------

  ghost predicate Compatible(o: Option<Override>, v: SavedChoice, remote: bool) {
    o.Some? ==>
      && o.value.endpoint == Fingerprint(v)
      && (HasModel(v.models, o.value.model) || (remote && o.value.model == v.model))
  }

  ghost predicate EntryFits(e: Entry, d: Defaults, remote: bool) {
    Compatible(e.tts, d.tts, remote) && Compatible(e.stt, d.stt, remote)
  }

  ghost predicate AllFit(overrides: Overrides, d: Defaults) {
    forall k :: k in overrides && overrides[k].Some? ==> EntryFits(overrides[k].value, d, IsRemote(k))
  }

  ghost predicate FileFits(f: Saved) {
    forall k :: k in f.overrides ==> EntryFits(f.overrides[k], f.defaults, IsRemote(k))
  }

  /** What the queued task remembers is about the current defaults: nothing else may change them. */
  ghost predicate JobFits(s: State) {
    match s.job
    case CheckingTts(_, _, m, v) => v == s.defaults.tts && HasModel(v.models, m)
    case ProvingTts(persona, _, o) => Compatible(Some(o), s.defaults.tts, IsRemote(persona))
    case CheckingStt(persona, tts, m, v) =>
      v == s.defaults.stt && HasModel(v.models, m) && Compatible(tts, s.defaults.tts, IsRemote(persona))
    case Applying(persona, previous) =>
      && persona in s.overrides && s.overrides[persona].Some?
      && (previous.Some? ==> EntryFits(previous.value, s.defaults, IsRemote(persona)))
    case _ => true
  }

  ghost predicate Fits(s: State) {
    AllFit(s.overrides, s.defaults) && (s.disk.Some? ==> FileFits(s.disk.value)) && JobFits(s)
  }

  lemma OpenFits(disk: Option<Saved>)
    requires disk.Some? ==> FileFits(disk.value)
    ensures Fits(Open(disk))
  {
  }

  /** Where the sweep throws, or the end. */
  function FirstUndefined(overrides: Overrides, order: seq<string>): (n: nat)
    requires forall i :: 0 <= i < |order| ==> order[i] in overrides
    ensures n <= |order| && (n < |order| ==> overrides[order[n]].None?)
    ensures forall i :: 0 <= i < n ==> overrides[order[i]].Some?
  {
    if order == [] || overrides[order[0]].None? then 0 else 1 + FirstUndefined(overrides, order[1..])
  }

  /** Until it throws, the sweep replaces each entry by its pruned form and touches nothing else. */
  lemma {:induction false} DropStaleDrops(overrides: Overrides, order: seq<string>, next: Defaults)
    requires forall i, j :: 0 <= i < j < |order| ==> order[i] != order[j]
    requires forall i :: 0 <= i < |order| ==> order[i] in overrides
    ensures var (kept, through) := DropStale(overrides, order, next);
            && kept.Keys == overrides.Keys
            && (through <==> forall i :: 0 <= i < |order| ==> overrides[order[i]].Some?)
            && (forall k :: k in overrides ==>
                  kept[k] == overrides[k] || (overrides[k].Some? && kept[k] == Some(Pruned(overrides[k].value, next))))
            && (through ==> forall i :: 0 <= i < |order| ==>
                kept[order[i]] == Some(Pruned(overrides[order[i]].value, next)))
            && (forall i :: 0 <= i < |order| ==>
                  kept[order[i]]
                      == if i < FirstUndefined(overrides, order) then Some(Pruned(overrides[order[i]].value, next))
                                    else overrides[order[i]])
            && (forall k :: k in overrides && k !in order ==> kept[k] == overrides[k])
  {
    hide Pruned;
    if order != [] && overrides[order[0]].Some? {
      var rest := overrides[order[0] := Some(Pruned(overrides[order[0]].value, next))];
      assert forall i :: 0 <= i < |order| - 1 ==> order[1..][i] == order[i + 1] && order[i + 1] != order[0];
      DropStaleDrops(rest, order[1..], next);
      assert order[0] !in order[1..];
      SameFirstUndefined(overrides, rest, order[1..]);
      assert forall i :: 1 <= i < |order| ==> order[i] == order[1..][i - 1] && rest[order[i]] == overrides[order[i]];
    }
  }

  lemma {:induction false} SameFirstUndefined(a: Overrides, b: Overrides, order: seq<string>)
    requires forall i :: 0 <= i < |order| ==> order[i] in a && order[i] in b && a[order[i]] == b[order[i]]
    ensures FirstUndefined(a, order) == FirstUndefined(b, order)
  {
    if order != [] {
      SameFirstUndefined(a, b, order[1..]);
    }
  }

  lemma PrunedFits(e: Entry, next: Defaults, remote: bool)
    ensures EntryFits(Pruned(e, next), next, remote)
  {
    hide HasModel, Fingerprint;
  }

  /** A save goes through exactly when no contact's entry is undefined and the file is written. It then
      leaves what fits the new defaults of every contact, and only that; otherwise the defaults and the
      file are as they were. */
  lemma SaveGoesThroughExactlyWhen(s: State, next: Defaults, order: seq<string>, persisted: bool)
    requires Enumerates(order, s.overrides)
    ensures var s' := Commit(s, next, order, persisted);
            var through := persisted && forall k :: k in s.overrides ==> s.overrides[k].Some?;
            && s'.job == (if through then Configuring else Free)
            && (through ==> s'.defaults == next && s'.overrides.Keys == s.overrides.Keys
                            && (forall k :: k in s.overrides ==>
                                s'.overrides[k] == Some(Pruned(s.overrides[k].value, next)))
                            && AllFit(s'.overrides, next) && Open(s'.disk).overrides == s'.overrides)
            && (!through ==> s'.defaults == s.defaults && s'.disk == s.disk)
  {
    DropStaleDrops(s.overrides, order, next);
    hide DropStale, Pruned, EntryFits;
    forall e, remote ensures EntryFits(Pruned(e, next), next, remote) {
      PrunedFits(e, next, remote);
    }
    var (kept, through) := DropStale(s.overrides, order, next);
    assert forall k :: k in s.overrides ==> k in order;
    if through && persisted {
      var s' := Commit(s, next, order, persisted);
      assert Open(s'.disk).overrides == s'.overrides;
    }
  }

  /** What a save that does not go through changes all the same: nothing if only the write failed; but
      where an undefined entry made it throw, the contacts enumerated before the first such entry, and no
      others, have lost in memory what does not fit the defaults that were not saved. */
  lemma FailedSaveChangesExactly(s: State, next: Defaults, order: seq<string>, persisted: bool)
    requires Enumerates(order, s.overrides)
    requires !persisted || exists k :: k in s.overrides && s.overrides[k].None?
    ensures var s' := Commit(s, next, order, persisted);
            var first := FirstUndefined(s.overrides, order);
            && s'.overrides.Keys == s.overrides.Keys && s'.defaults == s.defaults && s'.disk == s.disk
            && (first == |order| ==> s'.overrides == s.overrides)
            && (first < |order| ==> forall i :: 0 <= i < |order| ==>
                  s'.overrides[order[i]] == if i < first then Some(Pruned(s.overrides[order[i]].value, next))
                                            else s.overrides[order[i]])
  {
    SaveGoesThroughExactlyWhen(s, next, order, persisted);
    DropStaleDrops(s.overrides, order, next);
    hide DropStale, Pruned, AllFit, Open;
    var first := FirstUndefined(s.overrides, order);
    if first < |order| {
      assert order[first] in s.overrides && s.overrides[order[first]].None?;
    }
  }

  lemma CommitFits(s: State, next: Defaults, order: seq<string>, persisted: bool)
    requires Fits(s)
    ensures Fits(Commit(s, next, order, persisted)) || Commit(s, next, order, persisted) == s
  {
    if Enumerates(order, s.overrides) {
      DropStaleDrops(s.overrides, order, next);
      SaveGoesThroughExactlyWhen(s, next, order, persisted);
    }
  }

  lemma InstallFits(s: State, persona: string, next: Entry)
    requires Fits(s) && EntryFits(next, s.defaults, IsRemote(persona))
    ensures Fits(Install(s, persona, next))
  {
  }

  lemma ContactSttFits(s: State, persona: string, models: Json, tts: Option<Override>)
    requires Fits(s) && Compatible(tts, s.defaults.tts, IsRemote(persona))
    ensures Fits(ContactStt(s, persona, models, tts))
  {
    hide HasModel;
  }

  lemma AnswerFits(s: State, a: Answer, order: seq<string>, persisted: bool)
    requires Fits(s)
    ensures Fits(OnAnswer(s, a, order, persisted))
  {
    hide Commit, ContactStt, Install, HasModel;
    match s.job {
      case SavingTts(raw, draft) =>
        var v := Checked(Tts, draft, a);
        if v.Some? { SaveSttFits(s, raw, v.value, order, persisted); }
      case SavingStt(tts, draft) =>
        var v := Checked(Stt, draft, a);
        if v.Some? { CommitFits(s, Defaults(tts, v.value), order, persisted); }
      case ProvingTts(persona, models, o) =>
        if a.ok { ContactSttFits(s, persona, models, Some(o)); }
      case CheckingStt(persona, tts, m, v) =>
        if a.ok { InstallFits(s, persona, Entry(tts, Some(Override(Fingerprint(v), m, None)))); }
      case _ =>
    }
  }

  lemma SaveSttFits(s: State, raw: Json, tts: SavedChoice, order: seq<string>, persisted: bool)
    requires Fits(s)
    ensures Fits(SaveStt(s, raw, tts, order, persisted))
  {
    hide Choice, Commit;
    var field := Field(raw, "stt");
    var draft := if field.Some? then Choice(Stt, s.defaults.stt, field.value) else None;
    if draft.Some? && !draft.value.enabled {
      CommitFits(s, Defaults(tts, draft.value), order, persisted);
    }
  }

  lemma SaveFits(s: State, raw: Json, order: seq<string>, persisted: bool)
    requires Fits(s)
    ensures Fits(SaveTts(s, raw, order, persisted))
  {
    hide Choice, SaveStt;
    var field := Field(raw, "tts");
    var draft := if field.Some? then Choice(Tts, s.defaults.tts, field.value) else None;
    if draft.Some? && !draft.value.enabled {
      SaveSttFits(s, raw, draft.value, order, persisted);
    }
  }

  lemma LocatedFits(s: State, persona: string, models: Json)
    requires Fits(s)
    ensures Fits(ContactTts(s, persona, models))
  {
    hide HasModel, ContactStt;
    if !s.defaults.tts.enabled {
      ContactSttFits(s, persona, models, Existing(s, persona).tts);
    } else if Wished(models, "tts", s.defaults.tts) == NoWish {
      ContactSttFits(s, persona, models, None);
    }
  }

  lemma SaveRemoteFits(s: State, pubkey: string, models: Option<Json>, persisted: bool)
    requires Fits(s)
    ensures Fits(OnSaveRemote(s, pubkey, models, persisted))
  {
    hide HasModel, RemoteOverride, PlanOne, Compatible, LocalAccess.IsHexPubkey;
    var key := REMOTE + pubkey;
    assert IsRemote(key);
    if RemotePlan(s, pubkey, models).Some? && models.Some? && models.value != Null {
      var e := Existing(s, key);
      assert Compatible(e.tts, s.defaults.tts, true) && Compatible(e.stt, s.defaults.stt, true) by {
        NothingIsCompatible(s.defaults.tts);
        NothingIsCompatible(s.defaults.stt);
      }
      RemoteOverrideFits(s.defaults.tts, e.tts, models.value, "tts");
      RemoteOverrideFits(s.defaults.stt, e.stt, models.value, "stt");
    }
  }

  lemma NothingIsCompatible(v: SavedChoice)
    ensures Compatible(None, v, true)
  {
  }

  /** What a remote plan lets through may be saved. */
  lemma RemoteOverrideFits(v: SavedChoice, saved: Option<Override>, models: Json, key: string)
    requires Compatible(saved, v, true) && PlanOne(v, saved, Some(models), key).Some?
    ensures Compatible(RemoteOverride(v, saved, models, key), v, true)
  {
    hide HasModel, Fingerprint;
  }

  lemma StepFits(s: State, e: Event)
    requires Fits(s)
    ensures Fits(Step(s, e))
  {
    hide HasModel, SaveTts, ContactTts, OnAnswer, OnSaveRemote;
    match e {
      case Save(raw, order, persisted) => SaveFits(s, raw, order, persisted);
      case Located(persona) => if persona.Some? && s.job.Locating? { LocatedFits(s, persona.value, s.job.models); }
      case Answers(a, order, persisted) => AnswerFits(s, a, order, persisted);
      case SaveRemote(pubkey, models, persisted) => SaveRemoteFits(s, pubkey, models, persisted);
      case Reopen => OpenFits(s.disk);
      case _ =>
    }
  }

  datatype Trace = Trace(states: seq<State>, events: seq<Event>)

  ghost predicate Linked(tr: Trace, k: nat) {
    k < |tr.events| && k + 1 < |tr.states| && tr.states[k + 1] == Step(tr.states[k], tr.events[k])
  }

  /** A run from a first start. */
  ghost predicate IsRun(tr: Trace) {
    && |tr.states| == |tr.events| + 1 && tr.states[0] == Open(None)
    && forall k: nat :: k < |tr.events| ==> Linked(tr, k)
  }

  /** Over every run of saves, contact changes, remote plans, failures and relaunches, each override, in
      memory and in the file, is for the endpoint of its default and names a model of the default's
      list, or, for a contact elsewhere only, the default model itself. */
  lemma {:induction false} OverridesStayCompatible(tr: Trace, k: nat)
    requires IsRun(tr) && k < |tr.states|
    ensures Fits(tr.states[k])
  {
    hide Step, Fits;
    if k == 0 {
      OpenFits(None);
    } else {
      OverridesStayCompatible(tr, k - 1);
      assert Linked(tr, k - 1);
      StepFits(tr.states[k - 1], tr.events[k - 1]);
    }
  }

  /** So asking for a remote contact's plan as it stands never fails on its model, and plans the saved
      override where there is one. */
  lemma RemotePlanAlwaysFindsItsModel(tr: Trace, k: nat, pubkey: string)
    requires IsRun(tr) && k < |tr.states|
    ensures RemotePlan(tr.states[k], pubkey, None).Some? <==> LocalAccess.IsHexPubkey(pubkey)
    ensures LocalAccess.IsHexPubkey(pubkey) && tr.states[k].defaults.tts.enabled ==>
              var o := Existing(tr.states[k], REMOTE + pubkey).tts;
              RemotePlan(tr.states[k], pubkey, None).value.0.model
                  == (if o.Some? then o.value.model else tr.states[k].defaults.tts.model)
    ensures LocalAccess.IsHexPubkey(pubkey) && tr.states[k].defaults.stt.enabled ==>
              var o := Existing(tr.states[k], REMOTE + pubkey).stt;
              RemotePlan(tr.states[k], pubkey, None).value.1.model
                  == (if o.Some? then o.value.model else tr.states[k].defaults.stt.model)
  {
    hide HasModel;
    OverridesStayCompatible(tr, k);
  }

  /** The model `applyPersona` sends, with its own re-check of the override. */
  function AppliedModel(v: SavedChoice, o: Option<Override>): string {
    if o.Some? && o.value.endpoint == Fingerprint(v) && HasModel(v.models, o.value.model)
    then o.value.model else v.model
  }

  /** A persona's own override always passes that re-check. */
  lemma OwnOverrideIsAlwaysApplied(tr: Trace, k: nat, persona: string)
    requires IsRun(tr) && k < |tr.states| && !IsRemote(persona)
    ensures var s := tr.states[k];
            var e := Existing(s, persona);
            && (e.tts.Some? ==> AppliedModel(s.defaults.tts, e.tts) == e.tts.value.model)
            && (e.stt.Some? ==> AppliedModel(s.defaults.stt, e.stt) == e.stt.value.model)
  {
    hide HasModel;
    OverridesStayCompatible(tr, k);
  }

  // --- What a failed contact change leaves behind ------------------------------------

  /** A persona's entry is there and undefined, and no queued change is about to replace it. */
  ghost predicate Undefined(s: State, persona: string) {
    && persona in s.overrides && s.overrides[persona].None?
    && match s.job
       case CheckingTts(p, _, _, _) => p != persona
       case ProvingTts(p, _, _) => p != persona
       case CheckingStt(p, _, _, _) => p != persona
       case Applying(p, _) => p != persona
       case _ => true
  }

  /** Undefined entries come from one place: the first override of a contact, taken back. */
  lemma FailedFirstOverrideIsUndefined(s: State, e: Event, persona: string)
    requires s.job == Applying(persona, None) && (e == Fails || e == Settles(false))
    ensures Undefined(Step(s, e), persona)
  {
  }

  /** Such a run: with voice off, one contact change whose engine call fails. */
  lemma AFailedChangeLeavesOne(persona: string) returns (tr: Trace)
    ensures IsRun(tr) && Undefined(tr.states[|tr.events|], persona)
  {
    var s0 := Open(None);
    var events := [SetContact(Fields(map[])), Located(Some(persona)), Fails];
    var s1 := Step(s0, events[0]);
    var s2 := Step(s1, events[1]);
    var s3 := Step(s2, events[2]);
    tr := Trace([s0, s1, s2, s3], events);
    assert Linked(tr, 0) && Linked(tr, 1) && Linked(tr, 2);
    FailedFirstOverrideIsUndefined(s2, Fails, persona);
  }

  ghost predicate AllDefined(s: State) {
    forall k :: k in s.overrides ==> s.overrides[k].Some?
  }

  lemma CommitStaysDefined(s: State, next: Defaults, order: seq<string>, persisted: bool)
    requires AllDefined(s)
    ensures AllDefined(Commit(s, next, order, persisted))
  {
    if Enumerates(order, s.overrides) {
      DropStaleDrops(s.overrides, order, next);
    }
  }

  lemma OnlyAFailedFirstOverrideIsUndefined(s: State, e: Event)
    requires AllDefined(s) && !AllDefined(Step(s, e))
    ensures (e == Fails || e == Settles(false)) && s.job.Applying? && s.job.previous == None
  {
    hide Commit, Choice, HasModel;
    forall next, order, persisted ensures AllDefined(Commit(s, next, order, persisted)) {
      CommitStaysDefined(s, next, order, persisted);
    }
  }

  /** Neither another step nor a save gets past an undefined entry. */
  lemma CommitIsBlocked(s: State, persona: string, next: Defaults, order: seq<string>, persisted: bool)
    requires Undefined(s, persona)
    ensures var s' := Commit(s, next, order, persisted); Undefined(s', persona) && s'.defaults == s.defaults
  {
    if Enumerates(order, s.overrides) {
      DropStaleDrops(s.overrides, order, next);
      SaveGoesThroughExactlyWhen(s, next, order, persisted);
    }
  }

  /** Replacing the entry takes a new change for that persona, or a relaunch. */
  predicate Repairs(e: Event, persona: string) {
    e == Reopen || e == Located(Some(persona))
  }

  lemma StepIsBlocked(s: State, e: Event, persona: string)
    requires Undefined(s, persona) && !IsRemote(persona) && !Repairs(e, persona)
    ensures Undefined(Step(s, e), persona) && Step(s, e).defaults == s.defaults
  {
    hide Commit, Choice, HasModel;
    forall next, order, persisted
      ensures var s' := Commit(s, next, order, persisted); Undefined(s', persona) && s'.defaults == s.defaults
    {
      CommitIsBlocked(s, persona, next, order, persisted);
    }
    if e.SaveRemote? {
      assert IsRemote(REMOTE + e.pubkey);
    }
  }

  /** The voice defaults cannot be saved, on any run, from the moment a persona's first override failed
      until the next change for that persona or the next launch. */
  lemma {:induction false} FailedOverrideBlocksEverySave(tr: Trace, persona: string, i: nat, j: nat)
    requires IsRun(tr) && i <= j < |tr.states|
    requires Undefined(tr.states[i], persona) && !IsRemote(persona)
    requires forall n :: i <= n < j ==> !Repairs(tr.events[n], persona)
    ensures Undefined(tr.states[j], persona) && tr.states[j].defaults == tr.states[i].defaults
  {
    hide Step, Undefined;
    if i < j {
      FailedOverrideBlocksEverySave(tr, persona, i, j - 1);
      assert Linked(tr, j - 1);
      StepIsBlocked(tr.states[j - 1], tr.events[j - 1], persona);
    }
  }

  // --- What a change taken back leaves in the file -----------------------------------

  /** What memory and file say about a contact; JSON has nothing for an undefined entry. */
  function InMemory(s: State, key: string): Option<Entry> {
    if key in s.overrides then s.overrides[key] else None
  }

  function InFile(s: State, key: string): Option<Entry> {
    if s.disk.Some? && key in s.disk.value.overrides then Some(s.disk.value.overrides[key]) else None
  }

  /** A remote contact's models are accepted and the file is written. */
  predicate WritesFile(s: State, e: Event) {
    && e.SaveRemote? && e.persisted
    && RemotePlan(s, e.pubkey, e.wanted).Some? && e.wanted.Some? && e.wanted.value != Null
  }

  /** The step that begins to apply a change remembers what was there, and writes nothing. */
  lemma InstallRemembers(s: State, e: Event, persona: string, previous: Option<Entry>)
    requires !s.job.Applying? && Step(s, e).job == Applying(persona, previous)
    ensures previous == InMemory(s, persona) && InFile(Step(s, e), persona) == InFile(s, persona)
    ensures InMemory(Step(s, e), persona).Some?
  {
    hide Choice, HasModel, Checked, Wished;
    if e.Answers? && Enumerates(e.order, s.overrides) {
      forall next ensures !Commit(s, next, e.order, e.persisted).job.Applying? {
        CommitDoesNotApply(s, next, e.order, e.persisted);
      }
    }
  }

  lemma CommitDoesNotApply(s: State, next: Defaults, order: seq<string>, persisted: bool)
    requires !s.job.Applying?
    ensures !Commit(s, next, order, persisted).job.Applying?
  {
  }

  /** While a change is applied its entry stays, and only a remote save reaches the file. */
  lemma ApplyingStep(s: State, e: Event, persona: string, previous: Option<Entry>)
    requires s.job == Applying(persona, previous) && Step(s, e).job == s.job && e != Reopen && !IsRemote(persona)
    ensures InMemory(Step(s, e), persona) == InMemory(s, persona)
    ensures InFile(Step(s, e), persona) == if WritesFile(s, e) then InMemory(s, persona) else InFile(s, persona)
  {
    hide Commit, Choice, HasModel;
    if e.SaveRemote? {
      assert IsRemote(REMOTE + e.pubkey);
    }
  }

  /** The change is being applied from state `i` to state `j`, without a relaunch. */
  ghost predicate AppliesThroughout(tr: Trace, i: nat, j: nat, persona: string, previous: Option<Entry>) {
    && i <= j < |tr.states|
    && (forall n :: i <= n <= j ==> tr.states[n].job == Applying(persona, previous))
    && (forall n :: i <= n < j && n < |tr.events| ==> tr.events[n] != Reopen)
  }

  ghost predicate FileWritten(tr: Trace, i: nat, j: nat) {
    exists n :: i <= n < j && n < |tr.events| && n < |tr.states| && WritesFile(tr.states[n], tr.events[n])
  }

  /** While it is applied, the file has the installed entry exactly from the first accepted remote save
      on, and until then what it had. */
  lemma {:induction false} FileDuringTheChange(tr: Trace, i: nat, j: nat, persona: string, previous: Option<Entry>)
    requires IsRun(tr) && AppliesThroughout(tr, i, j, persona, previous) && !IsRemote(persona)
    ensures InMemory(tr.states[j], persona) == InMemory(tr.states[i], persona)
    ensures InFile(tr.states[j], persona)
            == if FileWritten(tr, i, j) then InMemory(tr.states[i], persona) else InFile(tr.states[i], persona)
    decreases j
  {
    hide Step, InMemory, InFile, WritesFile;
    if i < j {
      FileDuringTheChange(tr, i, j - 1, persona, previous);
      assert Linked(tr, j - 1);
      ApplyingStep(tr.states[j - 1], tr.events[j - 1], persona, previous);
      assert FileWritten(tr, i, j) <==> FileWritten(tr, i, j - 1) || WritesFile(tr.states[j - 1], tr.events[j - 1]);
    }
  }

  lemma TakingBack(s: State, e: Event, persona: string, previous: Option<Entry>)
    requires s.job == Applying(persona, previous) && (e == Fails || e == Settles(false))
    ensures InMemory(Step(s, e), persona) == previous && InFile(Step(s, e), persona) == InFile(s, persona)
  {
  }

  /** A change begun at `i - 1` and taken back at `j` leaves memory and file at odds about the persona
      exactly when a remote contact was saved meanwhile and the entry taken back differs from the one
      restored, or nobody was and they had been at odds before. */
  lemma TakenBackStaysInTheFileExactlyWhen(tr: Trace, i: nat, j: nat, persona: string, previous: Option<Entry>)
    requires IsRun(tr) && 0 < i && AppliesThroughout(tr, i, j, persona, previous) && !IsRemote(persona)
    requires !tr.states[i - 1].job.Applying?
    requires j < |tr.events| && (tr.events[j] == Fails || tr.events[j] == Settles(false))
    ensures var before, after := tr.states[i - 1], tr.states[j + 1];
            && InMemory(after, persona) == previous == InMemory(before, persona)
            && (InFile(after, persona) != InMemory(after, persona) <==>
                  if FileWritten(tr, i, j) then InMemory(tr.states[i], persona) != previous
                  else InFile(before, persona) != InMemory(before, persona))
  {
    hide Step, InMemory, InFile, WritesFile, FileWritten;
    assert Linked(tr, i - 1) && Linked(tr, j);
    InstallRemembers(tr.states[i - 1], tr.events[i - 1], persona, previous);
    FileDuringTheChange(tr, i, j, persona, previous);
    TakingBack(tr.states[j], tr.events[j], persona, previous);
  }

  // A run that does: an override is taken back in memory, and is there again after a relaunch.

  const PICKED := SavedChoice(true, "elevenlabs", "", "m", "", "k", [Model("m", []), Model("n", [])], [])
  const TAKEN_BACK := Entry(None, Some(Override("elevenlabs|", "n", None)))

  function SpeechForm(): Json {
    Fields(map["enabled" := Bool(true), "provider" := Text("elevenlabs"), "model" := Text("m"), "apiKey" := Text("k")])
  }

  function Forms(): Json {
    Fields(map["tts" := Fields(map["enabled" := Bool(false)]), "stt" := SpeechForm()])
  }

  lemma SpeechChosen()
    ensures Choice(Stt, Empty(), SpeechForm()) == Some(PICKED.(models := [], voices := []))
    ensures Choice(Tts, Empty(), Fields(map["enabled" := Bool(false)])) == Some(Empty())
  {
    var raw := SpeechForm();
    assert Trim("k") == "k";
    assert Field(raw, "enabled") == Some(Bool(true)) && Field(raw, "provider") == Some(Text("elevenlabs"));
    assert Field(raw, "model") == Some(Text("m")) && Field(raw, "apiKey") == Some(Text("k"));
    assert |raw.fields.Keys| == |{"enabled", "provider", "model", "apiKey"}|;
    var off := Fields(map["enabled" := Bool(false)]);
    assert |off.fields.Keys| == |{"enabled"}|;
  }

  lemma SpeechSaved()
    ensures var waiting := Step(Open(None), Save(Forms(), [], true));
            var saved := Step(waiting, Answers(Answer(true, PICKED.models, []), [], true));
            && saved.defaults == Defaults(Empty(), PICKED) && saved.overrides == map[] && saved.job == Configuring
  {
    SpeechChosen();
    assert Field(Forms(), "tts") == Some(Fields(map["enabled" := Bool(false)]))
        && Field(Forms(), "stt") == Some(SpeechForm());
    assert PICKED.models[0] in PICKED.models && HasModel(PICKED.models, "m");
    hide Choice, HasModel;
    assert Enumerates([], map[]);
  }

  lemma ChangeBegun(s: State, persona: string)
    requires s.defaults == Defaults(Empty(), PICKED) && s.overrides == map[] && s.job == Free
    ensures var locating := Step(s, SetContact(Fields(map["stt" := Text("n")])));
            var checking := Step(locating, Located(Some(persona)));
            var applying := Step(checking, Answers(Answer(true, [], []), [], true));
            && applying.defaults == s.defaults && applying.job == Applying(persona, None)
            && applying.overrides == map[persona := Some(TAKEN_BACK)]
  {
    assert Field(Fields(map["stt" := Text("n")]), "stt") == Some(Text("n"));
    assert PICKED.models[1] in PICKED.models && HasModel(PICKED.models, "n");
    assert Fingerprint(PICKED) == "elevenlabs|";
    hide HasModel;
  }

  lemma RemoteSavedMeanwhile(s: State, persona: string, pubkey: string)
    requires s.defaults == Defaults(Empty(), PICKED) && s.job == Applying(persona, None)
    requires s.overrides == map[persona := Some(TAKEN_BACK)] && LocalAccess.IsHexPubkey(pubkey) && !IsRemote(persona)
    ensures var e := SaveRemote(pubkey, Some(Fields(map[])), true);
            && WritesFile(s, e) && Step(s, e).job == s.job && InFile(Step(s, e), persona) == Some(TAKEN_BACK)
  {
    hide HasModel, LocalAccess.IsHexPubkey;
    assert IsRemote(REMOTE + pubkey);
    assert Existing(s, REMOTE + pubkey) == Entry(None, None);
  }

  function Last(tr: Trace): State
    requires tr.states != []
  {
    tr.states[|tr.states| - 1]
  }

  ghost function Extended(tr: Trace, e: Event): Trace
    requires tr.states != []
  {
    Trace(tr.states + [Step(Last(tr), e)], tr.events + [e])
  }

  lemma ExtendedIsRun(tr: Trace, e: Event)
    requires IsRun(tr)
    ensures var more := Extended(tr, e);
            && IsRun(more) && more.events == tr.events + [e] && tr.states <= more.states
            && |more.states| == |tr.states| + 1 && Last(more) == Step(Last(tr), e)
  {
    hide Step;
    var more := Extended(tr, e);
    forall k: nat | k < |more.events| ensures Linked(more, k) {
      if k < |tr.events| {
        assert Linked(tr, k);
      }
    }
  }

  lemma ConfiguringEnds(s: State)
    requires s.job == Configuring
    ensures Step(s, Settles(true)) == s.(job := Free)
  {
  }

  lemma ARunWithVoiceOn() returns (tr: Trace)
    ensures IsRun(tr) && |tr.states| == 4
    ensures Last(tr).defaults == Defaults(Empty(), PICKED) && Last(tr).overrides == map[] && Last(tr).job == Free
  {
    var start := Trace([Open(None)], []);
    assert IsRun(start);
    SpeechSaved();
    hide IsRun, Step, Extended, Forms;
    ExtendedIsRun(start, Save(Forms(), [], true));
    var waiting := Extended(start, Save(Forms(), [], true));
    ExtendedIsRun(waiting, Answers(Answer(true, PICKED.models, []), [], true));
    var saved := Extended(waiting, Answers(Answer(true, PICKED.models, []), [], true));
    ConfiguringEnds(Last(saved));
    ExtendedIsRun(saved, Settles(true));
    tr := Extended(saved, Settles(true));
  }

  lemma ARunApplyingTheChange(persona: string) returns (tr: Trace)
    ensures IsRun(tr) && |tr.states| == 7
    ensures Last(tr).defaults == Defaults(Empty(), PICKED) && Last(tr).job == Applying(persona, None)
    ensures Last(tr).overrides == map[persona := Some(TAKEN_BACK)]
  {
    var on := ARunWithVoiceOn();
    ChangeBegun(Last(on), persona);
    hide IsRun, Step, Extended;
    var models := Fields(map["stt" := Text("n")]);
    ExtendedIsRun(on, SetContact(models));
    var locating := Extended(on, SetContact(models));
    ExtendedIsRun(locating, Located(Some(persona)));
    var checking := Extended(locating, Located(Some(persona)));
    ExtendedIsRun(checking, Answers(Answer(true, [], []), [], true));
    tr := Extended(checking, Answers(Answer(true, [], []), [], true));
  }

  lemma TakenBackOverrideMayStayInTheFile(persona: string) returns (tr: Trace)
    requires !IsRemote(persona)
    ensures IsRun(tr) && |tr.events| == 9 && tr.events[7] == Fails && tr.events[8] == Reopen
    ensures tr.states[6].job == Applying(persona, None) && InMemory(tr.states[6], persona) == Some(TAKEN_BACK)
    ensures InMemory(tr.states[8], persona) == None && InFile(tr.states[8], persona) == Some(TAKEN_BACK)
    ensures InMemory(tr.states[9], persona) == Some(TAKEN_BACK)
  {
    var pubkey := seq(64, _ => 'a');
    assert LocalAccess.IsHexPubkey(pubkey);
    var e := SaveRemote(pubkey, Some(Fields(map[])), true);
    var applying := ARunApplyingTheChange(persona);
    RemoteSavedMeanwhile(Last(applying), persona, pubkey);
    var written := Extended(applying, e);
    TakingBack(Last(written), Fails, persona, None);
    var back := Extended(written, Fails);
    ReopenedAsInFile(Last(back), persona);
    hide IsRun, Step, Extended, LocalAccess.IsHexPubkey, IsRemote, InMemory, InFile;
    ExtendedIsRun(applying, e);
    ExtendedIsRun(written, Fails);
    ExtendedIsRun(back, Reopen);
    tr := Extended(back, Reopen);
    assert InMemory(Last(applying), persona) == Some(TAKEN_BACK) by { InMemoryApplying(Last(applying), persona); }
    RunSizes(tr);
  }

  lemma RunSizes(tr: Trace)
    requires IsRun(tr)
    ensures |tr.states| == |tr.events| + 1
  {
  }

  lemma InMemoryApplying(s: State, persona: string)
    requires s.overrides == map[persona := Some(TAKEN_BACK)]
    ensures InMemory(s, persona) == Some(TAKEN_BACK)
  {
  }

  lemma ReopenedAsInFile(s: State, key: string)
    ensures InMemory(Step(s, Reopen), key) == InFile(s, key)
  {
  }
}
