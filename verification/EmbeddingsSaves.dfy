/** What an embeddings save keeps and hands out, told by the form that was saved and by the check's verdict. */
module EmbeddingsSaves {
  import opened Basics
  import opened Texts
  import opened KeyCipher
  import opened Embeddings

  /** The saved setting is for the endpoint the form names. */
  ghost predicate SameEndpoint(stored: Option<Stored>, p: Provider, baseUrl: string) {
    stored.Some? && Endpoint(stored.value.provider, stored.value.baseUrl) == Endpoint(p, baseUrl)
  }

  /** The key a form goes with: the one typed into it, or the saved one if it was saved for the same endpoint
      and can be read. */
  ghost predicate IsKeyOf(c: Cipher, stored: Option<Stored>, input: Json, up: bool, d: Draft) {
    var typed := Trimmed(input, "apiKey");
    if typed != "" then d.key == Some(typed)
    else if up && SameEndpoint(stored, d.provider, d.baseUrl) && stored.value.key.Some? then
      d.key == (if c.decrypt(stored.value.key.value) == Some("") then None else c.decrypt(stored.value.key.value))
    else d.key == None
  }

  /** The form names the draft's provider and URL: cleaned of blanks around it and slashes after it, or none. */
  ghost predicate NamesEndpoint(input: Json, d: Draft) {
    && TextField(input, "provider") == Some(if d.provider == Gemini then "gemini" else "openai-compatible")
    && d.baseUrl == (if d.provider == Compatible && TextField(input, "baseUrl").Some?
                     then StripSlashes(Trim(TextField(input, "baseUrl").value)) else "")
    && |d.baseUrl| <= 2048
  }

  /** The model is the form's, or Gemini's own where the form names none. */
  ghost predicate NamesModel(input: Json, d: Draft) {
    && d.model == (if Trimmed(input, "model") == "" && d.provider == Gemini then "gemini-embedding-001"
                   else Trimmed(input, "model"))
    && 1 <= |d.model| <= 512
  }

  /** The draft is the form's own. Its dimensions are the saved ones if endpoint and model stay the same. What is
      to be on has a key for Gemini and a URL for any other provider. */
  ghost predicate IsForm(c: Cipher, stored: Option<Stored>, input: Json, up: bool, d: Draft) {
    && Field(input, "enabled") == Some(Bool(d.enabled))
    && NamesEndpoint(input, d) && NamesModel(input, d)
    && |Trimmed(input, "apiKey")| <= 4096 && IsKeyOf(c, stored, input, up, d)
    && d.dims == (if SameEndpoint(stored, d.provider, d.baseUrl) && stored.value.model == d.model
                  then stored.value.dims else 0)
    && (d.enabled ==> if d.provider == Gemini then d.key.Some? else d.baseUrl != "")
  }

  /** A form is accepted exactly if it is complete, and then as it is. */
  lemma DraftIsTheForms(c: Cipher, stored: Option<Stored>, input: Json, up: bool, d: Draft)
    ensures Drafted(c, stored, input, up) == Some(d) <==> IsForm(c, stored, input, up, d)
  {
    hide Trim, StripSlashes, Endpoint;
    assert StripSlashes(Trim("")) == "" by {
      NothingToClean();
    }
  }

  lemma NothingToClean()
    ensures StripSlashes(Trim("")) == ""
  {
  }

  /** What every persona is given for a setting. */
  ghost predicate IsPayload(d: Draft, payload: Payload) {
    payload == if !d.enabled then Off
               else if d.provider == Gemini then ToGemini(d.key, d.model, d.dims)
               else ToCompatible(d.baseUrl, d.model, d.dims, d.key)
  }

  /** The last save that found none under way: the one whose check or whose round of personas is under way
      now, if any is. */
  function LastSave(tr: Trace, k: nat): nat
    requires k <= |tr.events| < |tr.states|
  {
    if k == 0 then 0
    else if tr.events[k - 1].Save? && tr.states[k - 1].job.Free? then k - 1
    else LastSave(tr, k - 1)
  }

  /** The dimensions the last check measured. */
  function LastMeasured(tr: Trace, k: nat): nat
    requires k <= |tr.events| < |tr.states|
  {
    if k == 0 then 0
    else if tr.events[k - 1].Verdict? && tr.states[k - 1].job.Checking? then tr.events[k - 1].dims
    else LastMeasured(tr, k - 1)
  }

  /** The form event `j` saved, as a draft. */
  ghost predicate SavedForm(c: Cipher, tr: Trace, j: nat, d: Draft) {
    && j < |tr.events| && j < |tr.states| && tr.events[j].Save? && tr.states[j].job.Free?
    && IsForm(c, tr.states[j].stored, tr.events[j].input, tr.events[j].up, d)
  }

  /** The form event `j` saved; where it turns embeddings on, with the dimensions its check measured. */
  ghost predicate CheckedForm(c: Cipher, tr: Trace, j: nat, k: nat, d: Draft)
    requires k <= |tr.events| < |tr.states|
  {
    && (d.enabled ==> d.dims == LastMeasured(tr, k))
    && exists dims: nat :: SavedForm(c, tr, j, d.(dims := dims)) && (!d.enabled ==> d.dims == dims)
  }

  /** The setting holds the draft, and its key as the cipher seals it, or none if it may not be stored. */
  ghost predicate Keeps(c: Cipher, s: State, d: Draft, canStore: bool) {
    && s.stored == Some(Stored(d.enabled, d.provider, d.baseUrl, d.model, d.dims, Sealed(c, d.key, canStore)))
    && s.file == Some(ToJson(s.stored.value))
  }

  /** The round of personas is for that draft: kept as it is, and handed out as it is. */
  ghost predicate AppliesForm(c: Cipher, s: State, d: Draft) {
    s.job.Applying? && (Keeps(c, s, d, true) || Keeps(c, s, d, false)) && IsPayload(d, s.job.payload)
  }

  /** While a save is checked its draft is the form's; while it is handed out so are the setting and the payload. */
  ghost predicate FormHistory(c: Cipher, tr: Trace, k: nat)
    requires k <= |tr.events| < |tr.states|
  {
    var j, s := LastSave(tr, k), tr.states[k];
    && (!s.job.Free? ==> j < k)
    && (s.job.Checking? ==> SavedForm(c, tr, j, s.job.draft) && s.job.draft.enabled)
    && (s.job.Applying? ==> exists d :: CheckedForm(c, tr, j, k, d) && AppliesForm(c, s, d))
  }

  lemma SaveTakesTheForm(c: Cipher, s: State, e: Event) returns (d: Draft)
    requires e.Save? && s.job.Free? && !Step(c, s, e).0.job.Free?
    ensures IsForm(c, s.stored, e.input, e.up, d)
    ensures var after := Step(c, s, e).0;
            if d.enabled then after.job == Checking(d) && after.stored == s.stored
            else AppliesForm(c, after, d) && Keeps(c, after, d, e.canStore) && e.written
  {
    d := Drafted(c, s.stored, e.input, e.up).value;
    DraftIsTheForms(c, s.stored, e.input, e.up, d);
    hide IsForm, ToJson, Sealed, Drafted, CheckRequest, DraftInput;
  }

  lemma VerdictTakesTheForm(c: Cipher, s: State, e: Event)
    requires e.Verdict? && s.job.Checking? && Step(c, s, e).0.job.Applying?
    ensures var after, d := Step(c, s, e).0, s.job.draft.(dims := e.dims);
            AppliesForm(c, after, d) && Keeps(c, after, d, e.canStore)
  {
    hide ToJson, Sealed;
  }

  lemma OtherStepsKeepTheForm(c: Cipher, s: State, e: Event)
    requires !(e.Save? && s.job.Free?) && !(e.Verdict? && s.job.Checking?)
    ensures !Step(c, s, e).0.job.Free? ==> Step(c, s, e).0 == s
  {
    hide ToJson, Drafted, CheckRequest;
  }

  lemma VerdictEndsTheCheck(c: Cipher, s: State, e: Event)
    requires e.Verdict?
    ensures !Step(c, s, e).0.job.Checking?
  {
    hide ToJson, Sealed;
  }

  lemma {:induction false} RunKeepsFormHistory(c: Cipher, tr: Trace, k: nat)
    requires IsRun(c, tr) && k <= |tr.events|
    ensures FormHistory(c, tr, k)
  {
    hide Step, IsForm, AppliesForm, Keeps;
    if k > 0 {
      RunKeepsFormHistory(c, tr, k - 1);
      assert Linked(c, tr, k - 1);
      var s, e, after := tr.states[k - 1], tr.events[k - 1], tr.states[k];
      if e.Save? && s.job.Free? {
        if !after.job.Free? {
          var d := SaveTakesTheForm(c, s, e);
          assert SavedForm(c, tr, k - 1, d) && d.(dims := d.dims) == d;
          JobIsApplyingOrChecking(c, after, d);
        }
      } else if e.Verdict? && s.job.Checking? {
        VerdictEndsTheCheck(c, s, e);
        if after.job.Applying? {
          VerdictTakesTheForm(c, s, e);
          var d := s.job.draft.(dims := e.dims);
          assert d.(dims := s.job.draft.dims) == s.job.draft;
          assert CheckedForm(c, tr, LastSave(tr, k), k, d);
        }
      } else {
        OtherStepsKeepTheForm(c, s, e);
        if after.job.Applying? {
          var d :| CheckedForm(c, tr, LastSave(tr, k - 1), k - 1, d) && AppliesForm(c, s, d);
          assert CheckedForm(c, tr, LastSave(tr, k), k, d);
        }
      }
    }
  }

  lemma JobIsApplyingOrChecking(c: Cipher, s: State, d: Draft)
    ensures AppliesForm(c, s, d) ==> s.job.Applying?
  {
  }

  /** On every run, every persona of a save's round is given exactly what the form of the last save says, with the
      dimensions its check measured: off, or its provider, URL and model with its key. The setting kept meanwhile
      is the form's too. */
  lemma EveryPersonaGetsTheForm(c: Cipher, tr: Trace, k: nat) returns (d: Draft)
    requires IsRun(c, tr) && k < |tr.events| && tr.events[k].NextPersona? && tr.states[k].job.Applying?
    ensures LastSave(tr, k) < k && CheckedForm(c, tr, LastSave(tr, k), k, d)
    ensures Keeps(c, tr.states[k], d, true) || Keeps(c, tr.states[k], d, false)
    ensures tr.calls[k] == Some(Configure(tr.events[k].persona,
                                          if !d.enabled then Off
                                          else if d.provider == Gemini then ToGemini(d.key, d.model, d.dims)
                                          else ToCompatible(d.baseUrl, d.model, d.dims, d.key)))
  {
    RunKeepsFormHistory(c, tr, k);
    assert Linked(c, tr, k);
    d :| CheckedForm(c, tr, LastSave(tr, k), k, d) && AppliesForm(c, tr.states[k], d);
    hide CheckedForm, Keeps;
  }

  /** A setting changes only by a save that is written, and then to the very form of the last save, with its key
      if that may be stored. A form that turns embeddings off is written at once, one that turns them on only once
      its model has embedded, with the dimensions measured. */
  lemma SettingIsTheWrittenForm(c: Cipher, tr: Trace, k: nat) returns (d: Draft)
    requires Faithful(c) && IsRun(c, tr) && k < |tr.events| && tr.states[k + 1].stored != tr.states[k].stored
    ensures var e := tr.events[k];
            && (if d.enabled then e.Verdict? && e.verified && d.dims == e.dims else e.Save?) && e.written
            && Keeps(c, tr.states[k + 1], d, e.canStore)
    ensures LastSave(tr, k + 1) <= k && CheckedForm(c, tr, LastSave(tr, k + 1), k + 1, d)
  {
    assert Linked(c, tr, k);
    RunKeepsFormHistory(c, tr, k);
    MemoryIsTheFile(c, tr, k);
    var s, e := tr.states[k], tr.events[k];
    StoredChangesByAWrite(c, s, e);
    hide Step, IsForm, Keeps, AppliesForm, Faithful;
    if e.Save? {
      d := SaveTakesTheForm(c, s, e);
      assert SavedForm(c, tr, k, d) && d.(dims := d.dims) == d;
    } else {
      d := s.job.draft.(dims := e.dims);
      VerdictTakesTheForm(c, s, e);
      assert d.(dims := s.job.draft.dims) == s.job.draft;
    }
  }

  lemma StoredChangesByAWrite(c: Cipher, s: State, e: Event)
    requires s.stored == Open(s.file).stored && Step(c, s, e).0.stored != s.stored
    ensures Step(c, s, e).0.job.Applying?
    ensures (e.Save? && s.job.Free?) || (e.Verdict? && s.job.Checking? && e.verified && e.written)
  {
    hide Drafted, NormalizeStored, ToJson, CheckRequest;
  }

  /** A save that turns embeddings on is checked exactly if its form is complete (its key, typed or kept, being no
      longer than one may be), with the form's own provider, URL and model; one that turns them off is written at
      once. Anything else changes nothing. */
  lemma SaveIsAnsweredExactlyWhen(c: Cipher, s: State, e: Event, d: Draft)
    requires e.Save? && s.job.Free? && IsForm(c, s.stored, e.input, e.up, d)
    ensures var (after, call) := Step(c, s, e);
            && (after.job.Checking? <==> d.enabled && (d.key.Some? ==> |Trim(d.key.value)| <= 4096))
            && (call.Some? <==> after.job.Checking?)
            && (after.job.Applying? <==> !d.enabled && e.written)
            && (!after.job.Applying? ==> after == s.(job := after.job))
            && (call.Some? ==>
                  && call.value.CheckCall? && call.value.provider == d.provider
                  && call.value.baseUrl == Trim(d.baseUrl) && call.value.model == d.model
                  && (d.key.Some? && Trim(d.key.value) != "" ==> call.value.apiKey == Some(Trim(d.key.value))))
  {
    DraftIsTheForms(c, s.stored, e.input, e.up, d);
    if d.enabled {
      DraftCheckAsks(c, s.stored, e.input, d, e.checkUp);
    }
    hide Drafted, IsForm, ToJson, Trim, CheckRequest, DraftInput;
  }

  lemma DraftCheckAsks(c: Cipher, stored: Option<Stored>, input: Json, d: Draft, up: bool)
    requires NamesEndpoint(input, d) && NamesModel(input, d) && (d.provider == Compatible ==> d.baseUrl != "")
    ensures var outcome := CheckRequest(c, stored, DraftInput(d), up);
            && (outcome.Asks? <==> (d.key.Some? ==> |Trim(d.key.value)| <= 4096))
            && (outcome.Asks? ==>
                  && outcome.call.CheckCall? && outcome.call.provider == d.provider
                  && outcome.call.baseUrl == Trim(d.baseUrl) && outcome.call.model == d.model
                  && (d.key.Some? && Trim(d.key.value) != "" ==> outcome.call.apiKey == Some(Trim(d.key.value))))
  {
    DraftInputReads(d);
    if d.provider == Compatible {
      CleanedTwice(TextField(input, "baseUrl").value);
    }
    DraftModelReads(input, d);
    NothingToTrim();
    hide Trim, StripSlashes, DraftInput, IsSpace;
  }

  lemma NothingToTrim()
    ensures Trim("") == ""
  {
  }

  lemma DraftModelReads(input: Json, d: Draft)
    requires NamesModel(input, d)
    ensures Trimmed(DraftInput(d), "model") == d.model
  {
    TrimmedTwice(input, "model");
    assert Trimmed(DraftInput(d), "model") == Trim(d.model);
    GeminiModelIsTrimmed();
    hide Trim, DraftInput;
  }

  lemma GeminiModelIsTrimmed()
    ensures Trim("gemini-embedding-001") == "gemini-embedding-001"
  {
  }

  /** A form that is not complete is refused: nothing is asked and nothing changes. */
  lemma IncompleteFormIsRefused(c: Cipher, s: State, e: Event)
    requires e.Save? && (s.job.Free? ==> forall d :: !IsForm(c, s.stored, e.input, e.up, d))
    ensures Step(c, s, e) == (s, None)
  {
    var draft := Drafted(c, s.stored, e.input, e.up);
    if draft.Some? {
      DraftIsTheForms(c, s.stored, e.input, e.up, draft.value);
    }
    hide Drafted, IsForm;
  }

  /** The page's own check asks with the form's own provider, URL and model, and with its typed key or else the key
      saved for that endpoint; it asks nothing where a field is too long or a URL is missing. */
  lemma PageCheckAsksExactlyWhen(c: Cipher, s: State, e: Event, call: Call)
    requires e.Check? && call.CheckCall?
    ensures Step(c, s, e).0 == s
    ensures Step(c, s, e).1 == Some(call) <==>
            && TextField(e.input, "provider") == Some(if call.provider == Gemini then "gemini" else "openai-compatible")
            && call.baseUrl == (if call.provider == Compatible && TextField(e.input, "baseUrl").Some?
                                then Trim(TextField(e.input, "baseUrl").value) else "")
            && |call.baseUrl| <= 2048 && (call.provider == Compatible ==> call.baseUrl != "")
            && call.model == Trimmed(e.input, "model") && |call.model| <= 512
            && |Trimmed(e.input, "apiKey")| <= 4096
            && IsKeyOf(c, s.stored, e.input, e.up,
                       Draft(true, call.provider, call.baseUrl, call.model, 0, call.apiKey))
    ensures Step(c, s, e).1.Some? ==> Step(c, s, e).1.value.CheckCall?
  {
    NothingToTrim();
    hide Trim, StripSlashes, Endpoint;
  }

  /** Any file reads as a setting the program could have written, or as none: none exactly if the flag is no boolean,
      the provider is unknown, or another provider than Gemini is left without a usable model. */
  lemma AnyFileReads(raw: Json)
    ensures var text := TextField(raw, "model");
            var usable := text.Some? && |text.value| <= 512 && Trim(text.value) != "";
            && (NormalizeStored(raw).None? <==>
                  || !(Field(raw, "enabled") == Some(Bool(true)) || Field(raw, "enabled") == Some(Bool(false)))
                  || TextField(raw, "provider") !in {Some("gemini"), Some("openai-compatible")}
                  || (TextField(raw, "provider") == Some("openai-compatible") && !usable))
            && (NormalizeStored(raw).Some? ==>
                  var s := NormalizeStored(raw).value;
                  && WellFormed(s) && Field(raw, "enabled") == Some(Bool(s.enabled))
                  && TextField(raw, "provider") == Some(ProviderName(s.provider))
                  && (s.key.Some? ==> s.key == TextField(raw, "key"))
                  && s.model == if usable then Trim(text.value) else "gemini-embedding-001")
  {
    var text := TextField(raw, "model");
    if text.Some? {
      TrimTwice(text.value);
      TrimIsShorter(text.value);
    }
    GeminiModelIsTrimmed();
    hide Trim;
  }

  /** A round of personas ends, and the next save finds none under way and the setting as it was kept. */
  lemma RoundEnds(c: Cipher, s: State)
    requires s.job.Applying?
    ensures Step(c, s, Done).0.job.Free? && Step(c, s, Done).0.stored == s.stored && Step(c, s, Done).0.file == s.file
  {
  }
}
