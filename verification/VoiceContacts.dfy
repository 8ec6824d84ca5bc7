/** What a contact's voice change puts in place: on every run, exactly what its page asked for. */
module VoiceContacts {
  import opened Basics
  import opened VoiceModels

  /** The page names a model of the default's list. */
  ghost predicate Asks(models: Json, key: string, v: SavedChoice, m: string) {
    Field(models, key) == Some(Text(m)) && m != "" && exists x :: x in v.models && x.id == m
  }

  /** The page names no model: the field is missing, empty, null, false or zero. */
  predicate AsksNothing(models: Json, key: string) {
    match Field(models, key)
    case None => true
    case Some(j) => j == Null || j == Bool(false) || j == Number(0.0) || j == Text("")
  }

  lemma WishedIs(models: Json, key: string, v: SavedChoice)
    ensures Wished(models, key, v) == NoWish <==> AsksNothing(models, key)
    ensures forall m :: Wished(models, key, v) == Wish(m) <==> Asks(models, key, v, m)
  {
  }

  /** A voice the provider offers for that model: the default one if it is among them. */
  ghost predicate IsVoiceFor(v: SavedChoice, voice: Option<string>) {
    voice.Some? && voice.value != "" && exists a: Answer ::
      a.ok && voice.value in a.voices && (v.voice in a.voices ==> voice.value == v.voice)
  }

  ghost predicate FitsDirection(d: Modality, v: SavedChoice, voice: Option<string>) {
    if d == Tts then IsVoiceFor(v, voice) else voice == None
  }

  /** One direction as the page wants it: as it was where the default is off, nothing where it names no model, and
      otherwise that very model at the default's endpoint. */
  ghost predicate IsWanted(d: Modality, v: SavedChoice, models: Json, was: Option<Override>, o: Option<Override>) {
    var key := if d == Tts then "tts" else "stt";
    if !v.enabled then o == was
    else if AsksNothing(models, key) then o == None
    else o.Some? && o.value.endpoint == Fingerprint(v) && Asks(models, key, v, o.value.model)
         && FitsDirection(d, v, o.value.voice)
  }

  function TtsOf(e: Option<Entry>): Option<Override> {
    if e.Some? then e.value.tts else None
  }

  function SttOf(e: Option<Entry>): Option<Override> {
    if e.Some? then e.value.stt else None
  }

  /** The contact change under way is for what the page asked. */
  ghost predicate ChangeIsOwn(s: State, models: Json) {
    match s.job
    case Locating(asked) => asked == models
    case CheckingTts(_, asked, m, v) =>
      asked == models && v == s.defaults.tts && v.enabled && Asks(models, "tts", v, m)
    case ProvingTts(persona, asked, o) =>
      asked == models && s.defaults.tts.enabled && IsWanted(Tts, s.defaults.tts, models, None, Some(o))
    case CheckingStt(persona, tts, m, v) =>
      && v == s.defaults.stt && v.enabled && Asks(models, "stt", v, m)
      && (!IsRemote(persona) ==> IsWanted(Tts, s.defaults.tts, models, TtsOf(InMemory(s, persona)), tts))
    case Applying(persona, previous) =>
      !IsRemote(persona) ==>
        && InMemory(s, persona).Some?
        && IsWanted(Tts, s.defaults.tts, models, TtsOf(previous), InMemory(s, persona).value.tts)
        && IsWanted(Stt, s.defaults.stt, models, SttOf(previous), InMemory(s, persona).value.stt)
    case _ => true
  }

  predicate IsChange(job: Job) {
    job.Locating? || job.CheckingTts? || job.ProvingTts? || job.CheckingStt? || job.Applying?
  }

  lemma ContactSttIsOwn(s: State, persona: string, models: Json, tts: Option<Override>)
    requires !IsRemote(persona) ==> IsWanted(Tts, s.defaults.tts, models, TtsOf(InMemory(s, persona)), tts)
    ensures var after := ContactStt(s, persona, models, tts);
            ChangeIsOwn(after, models) && after.defaults == s.defaults
  {
    WishedIs(models, "stt", s.defaults.stt);
    hide Wished, Asks, AsksNothing, IsVoiceFor, Fingerprint, IsRemote;
  }

  lemma LocatedIsOwn(s: State, persona: Option<string>, models: Json)
    requires s.job == Locating(models)
    ensures var after := Step(s, Located(persona)); ChangeIsOwn(after, models) && after.defaults == s.defaults
  {
    if persona.Some? && models.Fields? {
      WishedIs(models, "tts", s.defaults.tts);
      var p := persona.value;
      if !s.defaults.tts.enabled {
        ContactSttIsOwn(s, p, models, TtsOf(InMemory(s, p)));
      } else if AsksNothing(models, "tts") {
        ContactSttIsOwn(s, p, models, None);
      }
    }
    hide Wished, Asks, AsksNothing, IsVoiceFor, Fingerprint, IsRemote, ContactStt;
  }

  /** The page names something, and it is no model of the default's list. */
  ghost predicate AsksTheImpossible(models: Json, key: string, v: SavedChoice) {
    v.enabled && !AsksNothing(models, key) && forall m :: !Asks(models, key, v, m)
  }

  /** A change is refused once the contact is known, and then leaves everything as it was, exactly if the contact is
      on another engine, the request is no object, or it names a model that is not in the list of a default that is
      on: to speak, or, with nothing to check there, to listen. */
  lemma LocatedIsRefusedExactlyWhen(s: State, persona: Option<string>, models: Json)
    requires s.job == Locating(models)
    ensures var after := Step(s, Located(persona));
            && (after.job.Free? <==>
                  || persona.None? || !models.Fields? || AsksTheImpossible(models, "tts", s.defaults.tts)
                  || ((!s.defaults.tts.enabled || AsksNothing(models, "tts"))
                      && AsksTheImpossible(models, "stt", s.defaults.stt)))
            && (after.job.Free? ==> after == s.(job := Free))
  {
    WishedIs(models, "tts", s.defaults.tts);
    WishedIs(models, "stt", s.defaults.stt);
    WishIsOneOfThree(models, "tts", s.defaults.tts);
    WishIsOneOfThree(models, "stt", s.defaults.stt);
    hide Wished, Asks, AsksNothing, Fingerprint, AsksTheImpossible;
  }

  lemma WishIsOneOfThree(models: Json, key: string, v: SavedChoice)
    ensures v.enabled ==> (Wished(models, key, v) == BadWish <==> AsksTheImpossible(models, key, v))
    ensures AsksTheImpossible(models, key, v) ==> v.enabled && !AsksNothing(models, key)
  {
    WishedIs(models, key, v);
    var w := Wished(models, key, v);
    if w.Wish? {
      assert Asks(models, key, v, w.model);
    }
    hide Wished, Asks, AsksNothing;
  }

  lemma VoiceIsOffered(v: SavedChoice, a: Answer)
    requires a.ok && VoiceFor(v, a) != ""
    ensures IsVoiceFor(v, Some(VoiceFor(v, a)))
  {
  }

  lemma AnswerIsOwn(s: State, a: Answer, order: seq<string>, persisted: bool, models: Json)
    requires IsChange(s.job) && ChangeIsOwn(s, models)
    ensures var after := OnAnswer(s, a, order, persisted);
            ChangeIsOwn(after, models) && after.defaults == s.defaults
  {
    match s.job {
      case CheckingTts(persona, asked, m, v) =>
        if a.ok && VoiceFor(v, a) != "" {
          VoiceIsOffered(v, a);
          assert !AsksNothing(models, "tts");
        }
      case ProvingTts(persona, asked, o) =>
        ContactSttIsOwn(s, persona, models, Some(o));
      case CheckingStt(persona, tts, m, v) =>
        assert !AsksNothing(models, "stt");
      case _ =>
    }
    hide Asks, AsksNothing, IsVoiceFor, Fingerprint, IsRemote, ContactStt, VoiceFor;
  }

  /** Nothing else disturbs a change under way. */
  lemma OthersKeepTheChange(s: State, e: Event, models: Json)
    requires IsChange(s.job) && ChangeIsOwn(s, models) && !e.Answers? && !e.Located?
    ensures var after := Step(s, e); IsChange(after.job) ==> ChangeIsOwn(after, models)
  {
    hide Commit, Choice, Asks, AsksNothing, IsVoiceFor, Fingerprint, RemotePlan, RemoteOverride, Defined;
    if e.SaveRemote? {
      assert IsRemote(REMOTE + e.pubkey);
    }
  }

  /** Only the page begins one. */
  lemma OnlyTheQueueBeginsAChange(s: State, e: Event)
    requires !IsChange(s.job) && !(e.SetContact? && s.job == Free)
    ensures !IsChange(Step(s, e).job)
  {
    hide Commit, Choice, Checked, RemotePlan, RemoteOverride, Defined;
    forall next, order, persisted ensures !IsChange(Commit(s, next, order, persisted).job) {
      CommitIsNoChange(s, next, order, persisted);
    }
  }

  lemma CommitIsNoChange(s: State, next: Defaults, order: seq<string>, persisted: bool)
    requires !IsChange(s.job)
    ensures !IsChange(Commit(s, next, order, persisted).job)
  {
    hide DropStale;
  }

  /** The last change a page asked for while the queue was free. */
  function LastAsked(tr: Trace, k: nat): nat
    requires k <= |tr.events| < |tr.states|
  {
    if k == 0 then 0
    else if tr.events[k - 1].SetContact? && tr.states[k - 1].job == Free then k - 1
    else LastAsked(tr, k - 1)
  }

  lemma {:induction false} RunKeepsTheChange(tr: Trace, k: nat)
    requires IsRun(tr) && k <= |tr.events| && IsChange(tr.states[k].job)
    ensures LastAsked(tr, k) < k && tr.events[LastAsked(tr, k)].SetContact?
    ensures ChangeIsOwn(tr.states[k], tr.events[LastAsked(tr, k)].models)
  {
    hide Step, ChangeIsOwn;
    if k > 0 {
      assert Linked(tr, k - 1);
      var s, e := tr.states[k - 1], tr.events[k - 1];
      if e.SetContact? && s.job == Free {
        AskedIsOwn(s, e);
      } else if IsChange(s.job) {
        RunKeepsTheChange(tr, k - 1);
        ChangeStep(s, e, tr.events[LastAsked(tr, k - 1)].models);
      } else {
        OnlyTheQueueBeginsAChange(s, e);
      }
    }
  }

  lemma AskedIsOwn(s: State, e: Event)
    requires e.SetContact? && s.job == Free
    ensures ChangeIsOwn(Step(s, e), e.models)
  {
  }

  lemma ChangeStep(s: State, e: Event, models: Json)
    requires IsChange(s.job) && ChangeIsOwn(s, models)
    ensures IsChange(Step(s, e).job) ==> ChangeIsOwn(Step(s, e), models)
  {
    if e.Answers? {
      AnswerIsOwn(s, e.answer, e.order, e.persisted, models);
      hide OnAnswer, ChangeIsOwn;
    } else if e.Located? {
      if s.job.Locating? {
        LocatedIsOwn(s, e.found, models);
      }
      hide ContactTts, ChangeIsOwn;
    } else {
      OthersKeepTheChange(s, e, models);
      hide Step, ChangeIsOwn;
    }
  }

  /** While a persona's change is applied, each direction of its entry is what the page asked for: as it was where
      the default is off, none where the page names no model, and else the named model of the default's list, at
      the default's endpoint, to speak with a voice the provider offers for it. */
  lemma ContactGetsWhatItAskedFor(tr: Trace, k: nat, persona: string, previous: Option<Entry>)
    requires IsRun(tr) && k <= |tr.events| && tr.states[k].job == Applying(persona, previous) && !IsRemote(persona)
    ensures LastAsked(tr, k) < k && tr.events[LastAsked(tr, k)].SetContact?
    ensures var models, s := tr.events[LastAsked(tr, k)].models, tr.states[k];
            && InMemory(s, persona).Some?
            && IsWanted(Tts, s.defaults.tts, models, TtsOf(previous), InMemory(s, persona).value.tts)
            && IsWanted(Stt, s.defaults.stt, models, SttOf(previous), InMemory(s, persona).value.stt)
  {
    RunKeepsTheChange(tr, k);
    hide IsWanted, IsRun;
  }

  /** A change that has been applied and written is in the file, and so is everything else in memory; one that has
      not been is taken back. */
  lemma AppliedChangeIsKeptExactlyWhen(s: State, persona: string, previous: Option<Entry>, persisted: bool)
    requires s.job == Applying(persona, previous) && InMemory(s, persona).Some?
    ensures var after := Step(s, Settles(persisted));
            && after.job == Configuring && after.defaults == s.defaults
            && (persisted ==> after.overrides == s.overrides && forall key :: InFile(after, key) == InMemory(s, key))
            && (!persisted ==>
                  && after.disk == s.disk && InMemory(after, persona) == previous
                  && forall key :: key != persona ==> InMemory(after, key) == InMemory(s, key))
  {
  }

  /** A new persona starts without the override an old one of its name left, in memory and, once written, in the
      file; nobody else's changes. With voice off nothing happens at all. */
  lemma NewPersonaHasNoOverride(s: State, persona: string, persisted: bool)
    requires s.job == Free
    ensures var after := Step(s, NewPersona(persona, persisted));
            if !s.defaults.tts.enabled && !s.defaults.stt.enabled then after == s
            else
              && InMemory(after, persona) == None && after.defaults == s.defaults
              && (forall key :: key != persona ==> InMemory(after, key) == InMemory(s, key))
              && (InMemory(s, persona).None? ==> after.disk == s.disk)
              && (InMemory(s, persona).Some? && persisted ==> InFile(after, persona) == None)
              && (after.job == Configuring <==> InMemory(s, persona).None? || persisted)
  {
  }
}
