/** What the voice defaults are made of: on every run, the fields of the form that was saved last and what the
    provider answered about it. And what a remote contact's saved choice makes of its later plans. */
module VoiceSaves {
  import opened Basics
  import opened Texts
  import LocalAccess
  import opened VoiceModels

  // --- The form ------------------------------------------------------------------------

  /** The form leaves the field out, or has a text there. */
  ghost predicate MayTake(saved: string, raw: Json, key: string) {
    (Field(raw, key).None? || TextField(raw, key).Some?) && |Taken(saved, raw, key)| <= 65536
  }

  /** The form's text, or the saved one where the form leaves it out. */
  function Taken(saved: string, raw: Json, key: string): string {
    if TextField(raw, key).Some? then TextField(raw, key).value else saved
  }

  function CleanUrl(provider: string, text: string): string {
    if provider == "elevenlabs" then "" else StripSlashes(Trim(text))
  }

  /** A key goes with a choice if it is typed, or saved for the same provider and URL. */
  ghost predicate HasItsKey(saved: SavedChoice, raw: Json, v: SavedChoice) {
    var typed := Trim(Taken("", raw, "apiKey"));
    v.apiKey == if typed != "" then typed else if Fingerprint(v) == Fingerprint(saved) then saved.apiKey else ""
  }

  /** What can be on: with a key, a model and, to speak, a voice. */
  predicate IsComplete(d: Modality, v: SavedChoice) {
    v.enabled ==> v.apiKey != "" && v.model != "" && (d == Tts ==> v.voice != "")
  }

  /** The choice is the form's own over the saved one; a form that says only "off" changes nothing else. */
  ghost predicate IsChoice(d: Modality, saved: SavedChoice, raw: Json, v: SavedChoice) {
    && Field(raw, "enabled") == Some(Bool(v.enabled))
    && if !v.enabled && |raw.fields| == 1 then v == saved.(enabled := false)
       else
         && MayTake(saved.provider, raw, "provider") && MayTake(saved.baseUrl, raw, "baseUrl")
         && MayTake(saved.model, raw, "model") && MayTake(saved.voice, raw, "voice")
         && MayTake(saved.apiKey, raw, "apiKey")
         && v.provider == Taken(saved.provider, raw, "provider")
         && (v.provider == "elevenlabs" || v.provider == "openai-compatible")
         && v.baseUrl == CleanUrl(v.provider, Taken(saved.baseUrl, raw, "baseUrl"))
         && v.model == Taken(saved.model, raw, "model") && v.voice == Taken(saved.voice, raw, "voice")
         && v.models == saved.models && v.voices == saved.voices
         && HasItsKey(saved, raw, v) && IsComplete(d, v)
  }

  lemma OverlayTakes(current: string, raw: Json, key: string)
    ensures Overlay(current, raw, key) == if MayTake(current, raw, key) then Some(Taken(current, raw, key)) else None
  {
  }

  lemma TypedKey(raw: Json)
    ensures Trim(Taken("", raw, "apiKey"))
            == match TextField(raw, "apiKey") case Some(s) => Trim(s) case None => ""
  {
    assert Trim("") == "";
  }

  /** A form is accepted exactly if it may be, and then as it is. */
  lemma ChoiceIsTheForms(d: Modality, saved: SavedChoice, raw: Json, v: SavedChoice)
    ensures Choice(d, saved, raw) == Some(v) <==> IsChoice(d, saved, raw, v)
  {
    OverlayTakes(saved.provider, raw, "provider");
    OverlayTakes(saved.baseUrl, raw, "baseUrl");
    OverlayTakes(saved.model, raw, "model");
    OverlayTakes(saved.voice, raw, "voice");
    OverlayTakes(saved.apiKey, raw, "apiKey");
    TypedKey(raw);
    hide Trim, StripSlashes, Overlay, MayTake, Taken, TextField;
    var choice := Choice(d, saved, raw);
    if choice.Some? {
      assert IsChoice(d, saved, raw, choice.value);
    }
    if IsChoice(d, saved, raw, v) {
      assert choice.Some?;
    }
  }

  // --- What the provider has to say ----------------------------------------------------

  /** The provider accepted the draft: its model is listed, unless none is, and so is its voice. */
  ghost predicate Accepts(d: Modality, a: Answer, v: SavedChoice) {
    && a.ok && v.models == a.models && v.voices == a.voices
    && (a.models != [] ==> exists m :: m in a.models && m.id == v.model)
    && (d == Tts ==> v.voice in a.voices)
  }

  /** A choice that is off is the form's; one that is on is the form's with the lists of an accepting answer. */
  ghost predicate IsSaved(d: Modality, saved: SavedChoice, raw: Json, key: string, v: SavedChoice) {
    && Field(raw, key).Some?
    && exists draft :: IsChoice(d, saved, Field(raw, key).value, draft) && Became(d, draft, v)
  }

  ghost predicate Became(d: Modality, draft: SavedChoice, v: SavedChoice) {
    if draft.enabled then v == draft.(models := v.models, voices := v.voices) && exists a :: Accepts(d, a, v)
    else v == draft
  }

  lemma CheckedIsAccepted(d: Modality, draft: SavedChoice, a: Answer)
    ensures var v := Checked(d, draft, a);
            && (v.Some? <==> Accepts(d, a, draft.(models := a.models, voices := a.voices)))
            && (v.Some? ==> v.value == draft.(models := a.models, voices := a.voices))
            && (v.Some? && draft.enabled ==> Became(d, draft, v.value))
  {
    assert Accepts(d, a, draft.(models := a.models, voices := a.voices))
        <==> a.ok && (a.models != [] ==> HasModel(a.models, draft.model)) && (d == Tts ==> draft.voice in a.voices);
  }

  // --- Over a run ----------------------------------------------------------------------

  /** The last save that found the queue free: the one that is under way now, if any is. */
  function LastSave(tr: Trace, k: nat): nat
    requires k <= |tr.events| < |tr.states|
  {
    if k == 0 then 0
    else if tr.events[k - 1].Save? && tr.states[k - 1].job == Free then k - 1
    else LastSave(tr, k - 1)
  }

  /** The draft is the form's choice for that direction over the current default, and is to be on. */
  ghost predicate IsDraft(d: Modality, saved: SavedChoice, raw: Json, key: string, draft: SavedChoice) {
    Field(raw, key).Some? && draft.enabled && IsChoice(d, saved, Field(raw, key).value, draft)
  }

  /** A save under way holds drafts of its own form over the defaults as they are. */
  ghost predicate SaveIsOwn(s: State, raw: Json) {
    match s.job
    case SavingTts(form, draft) => form == raw && IsDraft(Tts, s.defaults.tts, raw, "tts", draft)
    case SavingStt(verified, draft) =>
      IsSaved(Tts, s.defaults.tts, raw, "tts", verified) && IsDraft(Stt, s.defaults.stt, raw, "stt", draft)
    case _ => true
  }

  ghost predicate SaveHistory(tr: Trace, k: nat)
    requires k <= |tr.events| < |tr.states|
  {
    var j, s := LastSave(tr, k), tr.states[k];
    s.job.SavingTts? || s.job.SavingStt? ==>
      && j < k && tr.events[j].Save? && tr.states[j].job == Free
      && SaveIsOwn(s, tr.events[j].raw) && s.defaults == tr.states[j].defaults
  }

  /** The step ends a save by keeping both directions of its form. */
  ghost predicate KeepsForm(before: Defaults, after: Defaults, raw: Json) {
    IsSaved(Tts, before.tts, raw, "tts", after.tts) && IsSaved(Stt, before.stt, raw, "stt", after.stt)
  }

  lemma CommitKeeps(s: State, next: Defaults, order: seq<string>, persisted: bool, raw: Json)
    requires KeepsForm(s.defaults, next, raw)
    ensures var after := Commit(s, next, order, persisted);
            && (after.defaults == s.defaults || (after.defaults == next && persisted))
            && (after.job == s.job || !(after.job.SavingTts? || after.job.SavingStt?))
            && (after.job == s.job && (s.job.SavingTts? || s.job.SavingStt?) ==> after.defaults == s.defaults)
            && (after.defaults != s.defaults ==> after.disk.Some? && after.disk.value.defaults == next)
  {
    hide DropStale, IsSaved;
  }

  /** Each step of a save goes on with its own form, and only its last one changes the defaults. */
  ghost predicate SaveGoesOn(s: State, after: State, raw: Json) {
    && (after.job.SavingTts? || after.job.SavingStt? ==> SaveIsOwn(after, raw) && after.defaults == s.defaults)
    && (after.defaults != s.defaults ==>
          KeepsForm(s.defaults, after.defaults, raw) && after.disk.Some? && after.disk.value.defaults == after.defaults)
  }

  /** A direction that stays off is saved as the form has it. */
  lemma OffIsSaved(d: Modality, saved: SavedChoice, raw: Json, key: string, draft: SavedChoice)
    requires Field(raw, key).Some? && Choice(d, saved, Field(raw, key).value) == Some(draft) && !draft.enabled
    ensures IsSaved(d, saved, raw, key, draft)
  {
    ChoiceIsTheForms(d, saved, Field(raw, key).value, draft);
    assert Became(d, draft, draft);
    hide Choice, IsChoice;
  }

  lemma SaveSttGoesOn(s: State, raw: Json, tts: SavedChoice, order: seq<string>, persisted: bool)
    requires IsSaved(Tts, s.defaults.tts, raw, "tts", tts)
    requires s.job.SavingTts? || s.job.SavingStt? ==> SaveIsOwn(s, raw)
    ensures SaveGoesOn(s, SaveStt(s, raw, tts, order, persisted), raw)
  {
    hide Commit, Choice, IsChoice, IsSaved;
    var field := Field(raw, "stt");
    if field.Some? {
      var draft := Choice(Stt, s.defaults.stt, field.value);
      if draft.Some? {
        ChoiceIsTheForms(Stt, s.defaults.stt, field.value, draft.value);
        if !draft.value.enabled {
          OffIsSaved(Stt, s.defaults.stt, raw, "stt", draft.value);
          CommitKeeps(s, Defaults(tts, draft.value), order, persisted, raw);
        }
      }
    }
  }

  lemma SaveTtsGoesOn(s: State, raw: Json, order: seq<string>, persisted: bool)
    requires s.job == Free
    ensures SaveGoesOn(s, SaveTts(s, raw, order, persisted), raw)
  {
    hide SaveStt, Choice, IsChoice, IsSaved, KeepsForm;
    var field := Field(raw, "tts");
    if field.Some? {
      var draft := Choice(Tts, s.defaults.tts, field.value);
      if draft.Some? {
        ChoiceIsTheForms(Tts, s.defaults.tts, field.value, draft.value);
        if !draft.value.enabled {
          OffIsSaved(Tts, s.defaults.tts, raw, "tts", draft.value);
          SaveSttGoesOn(s, raw, draft.value, order, persisted);
        }
      }
    }
  }

  lemma AnswerGoesOn(s: State, a: Answer, order: seq<string>, persisted: bool, raw: Json)
    requires (s.job.SavingTts? || s.job.SavingStt?) && SaveIsOwn(s, raw)
    ensures SaveGoesOn(s, OnAnswer(s, a, order, persisted), raw)
  {
    match s.job {
      case SavingTts(form, draft) =>
        CheckedIsAccepted(Tts, draft, a);
        var v := Checked(Tts, draft, a);
        if v.Some? {
          assert IsSaved(Tts, s.defaults.tts, raw, "tts", v.value);
          SaveSttGoesOn(s, raw, v.value, order, persisted);
        }
      case SavingStt(tts, draft) =>
        CheckedIsAccepted(Stt, draft, a);
        var v := Checked(Stt, draft, a);
        if v.Some? {
          assert IsSaved(Stt, s.defaults.stt, raw, "stt", v.value);
          CommitKeeps(s, Defaults(tts, v.value), order, persisted, raw);
        }
    }
    hide SaveStt, Commit, Checked, IsChoice, IsSaved, Became, KeepsForm, SaveIsOwn;
  }

  /** What is outside the queue, or in it but no save, touches neither the defaults nor a save under way. */
  lemma OthersKeepDefaults(s: State, e: Event)
    requires e != Reopen && !(e.Save? && s.job == Free)
    requires e.Answers? ==> !s.job.SavingTts? && !s.job.SavingStt?
    ensures var after := Step(s, e);
            && after.defaults == s.defaults
            && (after.disk == s.disk || (after.disk.Some? && after.disk.value.defaults == s.defaults))
            && (after.job.SavingTts? || after.job.SavingStt? ==> after.job == s.job)
  {
    hide Commit, Choice, Checked, Wished, RemotePlan, RemoteOverride, VoiceFor, Defined, Fingerprint;
  }

  /** The file has the defaults, unless there is none yet: then they are the ones of a first start. */
  ghost predicate FileHasDefaults(s: State) {
    s.defaults == if s.disk.Some? then s.disk.value.defaults else Defaults(Empty(), Empty())
  }

  /** One event: outside a save the defaults stay, and a save takes them on only as its own form has them. */
  lemma StepAndDefaults(s: State, e: Event, raw: Json)
    requires FileHasDefaults(s)
    requires s.job.SavingTts? || s.job.SavingStt? ==> SaveIsOwn(s, raw)
    requires e.Save? && s.job == Free ==> raw == e.raw
    ensures FileHasDefaults(Step(s, e)) && SaveGoesOn(s, Step(s, e), raw)
    ensures Step(s, e).job.SavingTts? || Step(s, e).job.SavingStt? ==>
              (e.Save? && s.job == Free) || s.job.SavingTts? || s.job.SavingStt?
  {
    if e == Reopen {
      assert Step(s, e) == Open(s.disk);
    } else if e.Save? && s.job == Free {
      SaveTtsGoesOn(s, raw, e.order, e.persisted);
      SaveTtsFiles(s, raw, e.order, e.persisted);
      hide SaveTts, SaveIsOwn, KeepsForm;
    } else if e.Answers? && (s.job.SavingTts? || s.job.SavingStt?) {
      AnswerGoesOn(s, e.answer, e.order, e.persisted, raw);
      SaveAnswerFiles(s, e.answer, e.order, e.persisted);
      hide OnAnswer, SaveIsOwn, KeepsForm;
    } else {
      OthersKeepDefaults(s, e);
      hide Step, KeepsForm, IsDraft, IsSaved;
    }
  }

  lemma CommitFiles(s: State, next: Defaults, order: seq<string>, persisted: bool)
    requires FileHasDefaults(s)
    ensures FileHasDefaults(Commit(s, next, order, persisted))
  {
    hide DropStale;
  }

  lemma SaveSttFiles(s: State, raw: Json, tts: SavedChoice, order: seq<string>, persisted: bool)
    requires FileHasDefaults(s)
    ensures FileHasDefaults(SaveStt(s, raw, tts, order, persisted))
  {
    hide Commit, Choice;
    forall next ensures FileHasDefaults(Commit(s, next, order, persisted)) {
      CommitFiles(s, next, order, persisted);
    }
  }

  lemma SaveTtsFiles(s: State, raw: Json, order: seq<string>, persisted: bool)
    requires FileHasDefaults(s)
    ensures FileHasDefaults(SaveTts(s, raw, order, persisted))
  {
    hide SaveStt, Choice;
    forall tts ensures FileHasDefaults(SaveStt(s, raw, tts, order, persisted)) {
      SaveSttFiles(s, raw, tts, order, persisted);
    }
  }

  lemma SaveAnswerFiles(s: State, a: Answer, order: seq<string>, persisted: bool)
    requires FileHasDefaults(s) && (s.job.SavingTts? || s.job.SavingStt?)
    ensures FileHasDefaults(OnAnswer(s, a, order, persisted))
  {
    hide SaveStt, Commit, Checked;
    match s.job {
      case SavingTts(raw, draft) =>
        var v := Checked(Tts, draft, a);
        if v.Some? { SaveSttFiles(s, raw, v.value, order, persisted); }
      case SavingStt(tts, draft) =>
        var v := Checked(Stt, draft, a);
        if v.Some? { CommitFiles(s, Defaults(tts, v.value), order, persisted); }
    }
  }

  lemma {:induction false} RunKeepsSaveHistory(tr: Trace, k: nat)
    requires IsRun(tr) && k <= |tr.events|
    ensures SaveHistory(tr, k) && FileHasDefaults(tr.states[k])
  {
    hide Step, SaveIsOwn, KeepsForm;
    if k > 0 {
      RunKeepsSaveHistory(tr, k - 1);
      assert Linked(tr, k - 1);
      var s, e := tr.states[k - 1], tr.events[k - 1];
      if e.Save? && s.job == Free {
        StepAndDefaults(s, e, e.raw);
      } else if s.job.SavingTts? || s.job.SavingStt? {
        StepAndDefaults(s, e, tr.events[LastSave(tr, k - 1)].raw);
      } else {
        StepAndDefaults(s, e, Null);
      }
    }
  }

  /** The voice defaults change only by the end of a save, and then to both directions of that save's own form:
      each as the form has it over the default of before, and where it is on with the lists the provider answered
      when it accepted it. The file has them from that moment. */
  lemma DefaultsAreTheLastSavedForm(tr: Trace, k: nat)
    requires IsRun(tr) && k < |tr.events| && tr.states[k + 1].defaults != tr.states[k].defaults
    ensures var j := LastSave(tr, k + 1);
            && j <= k && tr.events[j].Save? && tr.states[j].job == Free
            && KeepsForm(tr.states[j].defaults, tr.states[k + 1].defaults, tr.events[j].raw)
            && tr.states[j].defaults == tr.states[k].defaults
            && tr.states[k + 1].disk.Some? && tr.states[k + 1].disk.value.defaults == tr.states[k + 1].defaults
  {
    hide Step, SaveIsOwn, KeepsForm;
    RunKeepsSaveHistory(tr, k);
    assert Linked(tr, k);
    var s, e := tr.states[k], tr.events[k];
    if e.Save? && s.job == Free {
      StepAndDefaults(s, e, e.raw);
    } else if s.job.SavingTts? || s.job.SavingStt? {
      StepAndDefaults(s, e, tr.events[LastSave(tr, k)].raw);
    } else {
      StepKeepsDefaults(s, e);
    }
  }

  lemma StepKeepsDefaults(s: State, e: Event)
    requires FileHasDefaults(s) && !s.job.SavingTts? && !s.job.SavingStt? && !(e.Save? && s.job == Free)
    ensures Step(s, e).defaults == s.defaults
  {
    if e != Reopen {
      OthersKeepDefaults(s, e);
      hide Step;
    }
  }

  /** Complete, with a model of its list unless the list is empty and, to speak, with a voice of its list. */
  ghost predicate Listed(d: Modality, v: SavedChoice) {
    v.enabled ==>
      && v.apiKey != "" && v.model != ""
      && (v.models != [] ==> exists m :: m in v.models && m.id == v.model)
      && (d == Tts ==> v.voice != "" && v.voice in v.voices)
  }

  lemma SavedIsListed(d: Modality, saved: SavedChoice, raw: Json, key: string, v: SavedChoice)
    requires IsSaved(d, saved, raw, key, v)
    ensures Listed(d, v)
  {
    var draft :| IsChoice(d, saved, Field(raw, key).value, draft) && Became(d, draft, v);
    if draft.enabled {
      var a :| Accepts(d, a, v);
    }
    hide MayTake, HasItsKey, CleanUrl;
  }

  /** On every run a default that is on, in memory and in the file, is complete, its model is one its provider
      listed unless it listed none, and its voice is one the provider listed. */
  lemma {:induction false} DefaultsAreListed(tr: Trace, k: nat)
    requires IsRun(tr) && k <= |tr.events|
    ensures Listed(Tts, tr.states[k].defaults.tts) && Listed(Stt, tr.states[k].defaults.stt)
    ensures tr.states[k].disk.Some? ==> tr.states[k].disk.value.defaults == tr.states[k].defaults
  {
    hide Listed, Step, SaveIsOwn;
    RunKeepsSaveHistory(tr, k);
    if k == 0 {
      NothingIsListed();
    } else {
      DefaultsAreListed(tr, k - 1);
      var before, after := tr.states[k - 1].defaults, tr.states[k].defaults;
      if after != before {
        DefaultsAreTheLastSavedForm(tr, k - 1);
        var j := LastSave(tr, k);
        SavedIsListed(Tts, before.tts, tr.events[j].raw, "tts", after.tts);
        SavedIsListed(Stt, before.stt, tr.events[j].raw, "stt", after.stt);
      }
    }
  }

  lemma NothingIsListed()
    ensures Listed(Tts, Empty()) && Listed(Stt, Empty())
  {
  }

  // --- Contacts on another engine ------------------------------------------------------

  /** The contact has its own model for that direction, and it is not the default one. */
  predicate HasOtherModel(v: SavedChoice, o: Option<Override>) {
    o.Some? && o.value.endpoint == Fingerprint(v) && o.value.model != v.model
  }

  /** What one direction's saved choice plans later is what was accepted, unless it was left out. */
  lemma OneDirectionKept(v: SavedChoice, saved: Option<Override>, models: Json, key: string)
    requires PlanOne(v, saved, Some(models), key).Some?
    ensures PlanOne(v, RemoteOverride(v, saved, models, key), None, key) == PlanOne(v, saved, Some(models), key) <==>
            (v.enabled && Field(models, key).None? ==> !HasOtherModel(v, saved))
  {
    hide Fingerprint, HasModel;
  }

  /** Saving what a remote contact's plan was accepted with makes later plans come out the same exactly if each
      direction that is on was named in it, or the contact had no model of its own there. A direction left out is
      planned with the contact's own model and then loses it. */
  lemma RemoteSaveKeepsThePlanExactlyWhen(s: State, pubkey: string, models: Json, persisted: bool)
    requires RemotePlan(s, pubkey, Some(models)).Some? && models != Null
    ensures var after := Step(s, SaveRemote(pubkey, Some(models), persisted));
            var was := Existing(s, REMOTE + pubkey);
            RemotePlan(after, pubkey, None) == RemotePlan(s, pubkey, Some(models)) <==>
              && (s.defaults.tts.enabled && Field(models, "tts").None? ==>
                    !HasOtherModel(s.defaults.tts, was.tts))
              && (s.defaults.stt.enabled && Field(models, "stt").None? ==>
                    !HasOtherModel(s.defaults.stt, was.stt))
  {
    var was := Existing(s, REMOTE + pubkey);
    OneDirectionKept(s.defaults.tts, was.tts, models, "tts");
    OneDirectionKept(s.defaults.stt, was.stt, models, "stt");
    var after := Step(s, SaveRemote(pubkey, Some(models), persisted));
    assert Existing(after, REMOTE + pubkey)
        == Entry(RemoteOverride(s.defaults.tts, was.tts, models, "tts"),
                 RemoteOverride(s.defaults.stt, was.stt, models, "stt"));
    hide Step, PlanOne, RemoteOverride, Fingerprint, LocalAccess.IsHexPubkey, Existing;
    assert after.defaults == s.defaults by {
      RemoteSaveKeepsDefaults(s, pubkey, models, persisted);
    }
  }

  lemma RemoteSaveKeepsDefaults(s: State, pubkey: string, models: Json, persisted: bool)
    ensures Step(s, SaveRemote(pubkey, Some(models), persisted)).defaults == s.defaults
  {
    hide RemotePlan, RemoteOverride;
  }

  /** What is kept of one direction of an accepted choice: as it was where the default is off, the named model at the
      default's endpoint, or nothing. */
  ghost predicate KeptOf(v: SavedChoice, models: Json, key: string, was: Option<Override>, o: Option<Override>) {
    if !v.enabled then o == was
    else if TextField(models, key).Some? && TextField(models, key).value != "" then
      o == Some(Override(Fingerprint(v), TextField(models, key).value, None))
    else o == None
  }

  /** An accepted choice is stored for that contact and nobody else, in the file too if that can be written; one
      the plan refuses changes nothing. */
  lemma RemoteChoiceIsStored(s: State, pubkey: string, models: Json, persisted: bool)
    requires models != Null
    ensures var after, key := Step(s, SaveRemote(pubkey, Some(models), persisted)), REMOTE + pubkey;
            if RemotePlan(s, pubkey, Some(models)).None? then after == s
            else
              && InMemory(after, key).Some? && after.defaults == s.defaults && after.job == s.job
              && KeptOf(s.defaults.tts, models, "tts", Existing(s, key).tts, InMemory(after, key).value.tts)
              && KeptOf(s.defaults.stt, models, "stt", Existing(s, key).stt, InMemory(after, key).value.stt)
              && (forall other :: other != key ==> InMemory(after, other) == InMemory(s, other))
              && (persisted ==> forall other :: InFile(after, other) == InMemory(after, other))
              && (!persisted ==> after.disk == s.disk)
  {
    hide RemotePlan, Fingerprint;
  }

  /** A run on which it is lost: the contact's own model is planned, saved without being named, and gone. */
  lemma ALeftOutModelIsLost(pubkey: string) returns (tr: Trace)
    requires LocalAccess.IsHexPubkey(pubkey)
    ensures IsRun(tr) && |tr.events| == 5 && tr.events[4] == SaveRemote(pubkey, Some(Fields(map[])), true)
    ensures RemotePlan(tr.states[4], pubkey, Some(Fields(map[]))) == Some((Off, On("elevenlabs", "", "n")))
    ensures RemotePlan(tr.states[5], pubkey, None) == Some((Off, On("elevenlabs", "", "m")))
  {
    var on := ARunWithVoiceOn();
    var named, left := Fields(map["stt" := Text("n")]), Fields(map[]);
    NamedThenLeftOut(Last(on), pubkey);
    hide IsRun, Step, Extended, LocalAccess.IsHexPubkey, RemotePlan;
    ExtendedIsRun(on, SaveRemote(pubkey, Some(named), true));
    var first := Extended(on, SaveRemote(pubkey, Some(named), true));
    ExtendedIsRun(first, SaveRemote(pubkey, Some(left), true));
    tr := Extended(first, SaveRemote(pubkey, Some(left), true));
    RunSizes(tr);
  }

  lemma NamedThenLeftOut(s: State, pubkey: string)
    requires s.defaults == Defaults(Empty(), PICKED) && s.overrides == map[] && LocalAccess.IsHexPubkey(pubkey)
    ensures var named := Step(s, SaveRemote(pubkey, Some(Fields(map["stt" := Text("n")])), true));
            var left := Step(named, SaveRemote(pubkey, Some(Fields(map[])), true));
            && RemotePlan(named, pubkey, Some(Fields(map[]))) == Some((Off, On("elevenlabs", "", "n")))
            && RemotePlan(left, pubkey, None) == Some((Off, On("elevenlabs", "", "m")))
  {
    hide LocalAccess.IsHexPubkey, HasModel;
    assert Fingerprint(PICKED) == "elevenlabs|";
    assert HasModel(PICKED.models, "n") by {
      ListHasN();
    }
    assert Field(Fields(map["stt" := Text("n")]), "stt") == Some(Text("n"));
    assert Field(Fields(map["stt" := Text("n")]), "tts") == None;
    assert Field(Fields(map[]), "stt") == None;
  }

  lemma ListHasN()
    ensures HasModel(PICKED.models, "n")
  {
    assert PICKED.models[1] in PICKED.models;
  }
}
