/** What a decision-model save keeps and hands out, told by the form that was saved. */
module DecisionModelSaves {
  import opened Basics
  import opened Texts
  import opened KeyCipher
  import opened DecisionModel

  /** The key a form goes with: the one typed into it, or the saved one if it was saved for the same provider
      and can be read. */
  ghost predicate IsKeyOf(c: Cipher, stored: Option<Stored>, input: Json, up: bool, p: Provider, key: Option<string>) {
    var typed := Trimmed(input, "apiKey");
    if typed != "" then key == Some(typed)
    else if up && stored.Some? && stored.value.provider == p && stored.value.key.Some? then
      key == (if c.decrypt(stored.value.key.value) == Some("") then None else c.decrypt(stored.value.key.value))
    else key == None
  }

  /** The draft is the form's own: its flag, its provider, its model without the blanks around it, its key. */
  ghost predicate IsForm(c: Cipher, stored: Option<Stored>, input: Json, up: bool, d: Draft) {
    && Field(input, "enabled") == Some(Bool(d.enabled))
    && TextField(input, "provider") == Some(if d.provider == OpenRouter then "openrouter" else "typesafe")
    && d.model == Trimmed(input, "model") && 1 <= |d.model| <= 200
    && |Trimmed(input, "apiKey")| <= 4096
    && IsKeyOf(c, stored, input, up, d.provider, d.key)
    && (d.enabled ==> d.key.Some?)
  }

  /** A form is accepted exactly if it is complete, and then as it is. */
  lemma DraftIsTheForms(c: Cipher, stored: Option<Stored>, input: Json, up: bool, d: Draft)
    ensures Drafted(c, stored, input, up) == Some(d) <==> IsForm(c, stored, input, up, d)
  {
    hide Trimmed;
  }

  /** What every persona is given for a setting. */
  ghost predicate IsPayload(enabled: bool, p: Provider, model: string, key: Option<string>, payload: Payload) {
    payload == if enabled then Judge(p, model, key) else Off
  }

  /** The last save that found none under way: the one whose check or whose round of personas is under way
      now, if any is. */
  function LastSave(tr: Trace, k: nat): nat
    requires k <= |tr.events| < |tr.states|
  {
    if k == 0 then 0
    else if tr.events[k - 1].Save? && tr.states[k - 1].job.Free? then k - 1
    else LastSave(tr, k - 1)
  }

  /** The form event `j` saved, as a draft. */
  ghost predicate SavedForm(c: Cipher, tr: Trace, j: nat, d: Draft) {
    && j < |tr.events| && j < |tr.states| && tr.events[j].Save? && tr.states[j].job.Free?
    && IsForm(c, tr.states[j].stored, tr.events[j].input, tr.events[j].up, d)
  }

  /** The setting holds the form, and its key as the cipher seals it, or none if it may not be stored. */
  ghost predicate Keeps(c: Cipher, s: State, d: Draft, canStore: bool) {
    && s.stored.Some? && s.file == Some(ToJson(s.stored.value))
    && s.stored.value.enabled == d.enabled && s.stored.value.provider == d.provider && s.stored.value.model == d.model
    && s.stored.value.key == Sealed(c, d.key, canStore)
  }

  /** The round of personas is for that form: kept as it is, and handed out as it is. */
  ghost predicate AppliesForm(c: Cipher, s: State, d: Draft) {
    && s.job.Applying? && (Keeps(c, s, d, true) || Keeps(c, s, d, false))
    && IsPayload(d.enabled, d.provider, d.model, d.key, s.job.payload)
  }

  /** While a save is checked its draft is the form's; while it is handed out so are the setting and the payload. */
  ghost predicate FormHistory(c: Cipher, tr: Trace, k: nat)
    requires k <= |tr.events| < |tr.states|
  {
    var j, s := LastSave(tr, k), tr.states[k];
    && (!s.job.Free? ==> j < k)
    && (s.job.Checking? ==> SavedForm(c, tr, j, s.job.draft))
    && (s.job.Applying? ==> exists d :: SavedForm(c, tr, j, d) && AppliesForm(c, s, d))
  }

  lemma SaveTakesTheForm(c: Cipher, s: State, e: Event) returns (d: Draft)
    requires e.Save? && s.job.Free? && !Step(c, s, e).0.job.Free?
    ensures IsForm(c, s.stored, e.input, e.up, d)
    ensures var after := Step(c, s, e).0;
            if after.job.Checking? then after.job.draft == d && after.stored == s.stored
            else AppliesForm(c, after, d) && Keeps(c, after, d, e.canStore)
  {
    d := Drafted(c, s.stored, e.input, e.up).value;
    DraftIsTheForms(c, s.stored, e.input, e.up, d);
    hide IsForm, ToJson, Sealed;
  }

  lemma VerdictTakesTheForm(c: Cipher, s: State, e: Event)
    requires e.Verdict? && s.job.Checking? && Step(c, s, e).0.job.Applying?
    ensures var after := Step(c, s, e).0;
            AppliesForm(c, after, s.job.draft) && Keeps(c, after, s.job.draft, e.canStore)
  {
    hide ToJson, Sealed;
  }

  lemma OtherStepsKeepTheForm(c: Cipher, s: State, e: Event)
    requires !(e.Save? && s.job.Free?) && !(e.Verdict? && s.job.Checking?)
    ensures !Step(c, s, e).0.job.Free? ==> Step(c, s, e).0 == s
  {
    hide ToJson, Drafted;
  }

  lemma VerdictEndsTheCheck(c: Cipher, s: State, e: Event)
    requires e.Verdict?
    ensures !Step(c, s, e).0.job.Checking?
  {
    hide ToJson, Sealed;
  }

  lemma {:induction false} RunKeepsFormHistory(c: Cipher, tr: Trace, k: nat)
    requires IsRun(c, tr) && k <= |tr.events|
    ensures FormHistory(c, tr, k)
  {
    hide Step, IsForm, AppliesForm, Keeps;
    if k > 0 {
      RunKeepsFormHistory(c, tr, k - 1);
      assert Linked(c, tr, k - 1);
      var s, e, after := tr.states[k - 1], tr.events[k - 1], tr.states[k];
      if e.Save? && s.job.Free? {
        if !after.job.Free? {
          var d := SaveTakesTheForm(c, s, e);
          assert SavedForm(c, tr, k - 1, d);
        }
      } else if e.Verdict? && s.job.Checking? {
        VerdictEndsTheCheck(c, s, e);
        if after.job.Applying? {
          VerdictTakesTheForm(c, s, e);
        }
      } else {
        OtherStepsKeepTheForm(c, s, e);
      }
    }
  }

  /** On every run, every persona of a save's round is given exactly what the form of the last save says: off,
      or its provider and model with its key. The setting kept meanwhile is the form's too. */
  lemma EveryPersonaGetsTheForm(c: Cipher, tr: Trace, k: nat) returns (d: Draft)
    requires IsRun(c, tr) && k < |tr.events| && tr.events[k].NextPersona? && tr.states[k].job.Applying?
    ensures LastSave(tr, k) < k && SavedForm(c, tr, LastSave(tr, k), d)
    ensures Keeps(c, tr.states[k], d, true) || Keeps(c, tr.states[k], d, false)
    ensures tr.calls[k] == Some(Configure(tr.events[k].persona,
                                          if d.enabled then Judge(d.provider, d.model, d.key) else Off))
  {
    RunKeepsFormHistory(c, tr, k);
    assert Linked(c, tr, k);
    d :| SavedForm(c, tr, LastSave(tr, k), d) && AppliesForm(c, tr.states[k], d);
    hide SavedForm, Keeps;
  }

  /** A setting changes only by a save that is written, and then to the very form of the last save, with its key
      if that may be stored. A form without a typed key is written at once, one with a typed key only once the
      provider has accepted it. */
  lemma SettingIsTheWrittenForm(c: Cipher, tr: Trace, k: nat) returns (d: Draft)
    requires Faithful(c) && IsRun(c, tr) && k < |tr.events| && tr.states[k + 1].stored != tr.states[k].stored
    ensures var e := tr.events[k];
            && ((e.Save? && Trimmed(e.input, "apiKey") == "") || (e.Verdict? && e.accepted)) && e.written
            && Keeps(c, tr.states[k + 1], d, e.canStore)
    ensures LastSave(tr, k + 1) <= k && SavedForm(c, tr, LastSave(tr, k + 1), d)
  {
    assert Linked(c, tr, k);
    RunKeepsFormHistory(c, tr, k);
    MemoryIsTheFile(c, tr, k);
    StoredChangesByAWrite(c, tr.states[k], tr.events[k]);
    hide Step, IsForm, Keeps, AppliesForm, Faithful;
    if tr.events[k].Save? {
      d := SaveTakesTheForm(c, tr.states[k], tr.events[k]);
    } else {
      d := tr.states[k].job.draft;
      VerdictTakesTheForm(c, tr.states[k], tr.events[k]);
    }
  }

  lemma StoredChangesByAWrite(c: Cipher, s: State, e: Event)
    requires s.stored == Open(s.file).stored && Step(c, s, e).0.stored != s.stored
    ensures Step(c, s, e).0.job.Applying?
    ensures || (e.Save? && s.job.Free? && e.written && Trimmed(e.input, "apiKey") == "")
            || (e.Verdict? && s.job.Checking? && e.accepted && e.written)
  {
    hide Drafted, NormalizeStored, ToJson;
  }

  /** A save is checked exactly if its form is complete and a key was typed, and the check asks about that very
      key and provider; without a typed key a complete form is written at once. */
  lemma SaveIsAnsweredExactlyWhen(c: Cipher, s: State, e: Event)
    requires e.Save? && s.job.Free?
    ensures var typed := Trimmed(e.input, "apiKey");
            var (after, call) := Step(c, s, e);
            var complete := exists d :: IsForm(c, s.stored, e.input, e.up, d);
            && (after.job.Checking? <==> complete && typed != "")
            && (call.Some? <==> after.job.Checking?)
            && (after.job.Applying? <==> complete && typed == "" && e.written)
            && (!after.job.Applying? ==> after == s.(job := after.job))
            && (!complete ==> (after, call) == (s, None))
            && (call.Some? ==>
                  && call.value.CheckCall? && call.value.apiKey == typed
                  && TextField(e.input, "provider") == Some(ProviderName(call.value.provider)))
  {
    var draft := Drafted(c, s.stored, e.input, e.up);
    if draft.Some? {
      DraftIsTheForms(c, s.stored, e.input, e.up, draft.value);
    }
    if d :| IsForm(c, s.stored, e.input, e.up, d) {
      DraftIsTheForms(c, s.stored, e.input, e.up, d);
    }
    hide Drafted, IsKeyOf, ToJson, Trimmed;
  }

  /** The page's own check asks exactly for the form's provider with its typed key, or else with the key saved for
      that provider, and asks nothing where there is none. */
  lemma PageCheckAsksExactlyWhen(c: Cipher, s: State, e: Event, p: Provider, key: string)
    requires e.Check?
    ensures Step(c, s, e).0 == s
    ensures Step(c, s, e).1 == Some(CheckCall(p, key)) <==>
            && TextField(e.input, "provider") == Some(if p == OpenRouter then "openrouter" else "typesafe")
            && |Trimmed(e.input, "apiKey")| <= 4096
            && IsKeyOf(c, s.stored, e.input, e.up, p, Some(key))
    ensures Step(c, s, e).1.Some? ==> Step(c, s, e).1.value.CheckCall?
  {
    hide Trimmed;
  }

  /** Any file reads as a setting the program could have written, or as none: none exactly if the flag is no boolean
      or the provider is unknown; a missing or unusable model is the default one. */
  lemma AnyFileReads(raw: Json)
    ensures NormalizeStored(raw).None? <==>
            !(Field(raw, "enabled") == Some(Bool(true)) || Field(raw, "enabled") == Some(Bool(false)))
            || TextField(raw, "provider") !in {Some("openrouter"), Some("typesafe")}
    ensures NormalizeStored(raw).Some? ==>
              var s, text := NormalizeStored(raw).value, TextField(raw, "model");
              && WellFormed(s) && Field(raw, "enabled") == Some(Bool(s.enabled))
              && TextField(raw, "provider") == Some(ProviderName(s.provider))
              && (s.key.Some? ==> s.key == TextField(raw, "key"))
              && s.model == if text.Some? && |text.value| <= 200 && Trim(text.value) != "" then Trim(text.value)
                            else "typesafe/jev-1.13"
  {
    var text := TextField(raw, "model");
    if text.Some? {
      TrimTwice(text.value);
      TrimIsShorter(text.value);
    }
    DefaultIsTrimmed();
    hide Trim;
  }

  lemma DefaultIsTrimmed()
    ensures Trim(DEFAULT_DECISION_MODEL) == DEFAULT_DECISION_MODEL
  {
  }

  /** A round of personas ends, and the next save finds none under way and the setting as it was kept. */
  lemma RoundEnds(c: Cipher, s: State)
    requires s.job.Applying?
    ensures Step(c, s, Done).0.job.Free? && Step(c, s, Done).0.stored == s.stored && Step(c, s, Done).0.file == s.file
  {
  }
}
