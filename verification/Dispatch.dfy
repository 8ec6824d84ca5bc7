/** The host's dispatcher: capped model calls, capped tool runs, and cancellation
    (electron/phantombot/dispatch.ts). Code between two awaits is one step. */
module Dispatch {
  import opened Basics

  const MAX_RUNNING_TURNS := 4
  const MAX_RUNNING_TOOLS := 8
  const DEFAULT_TOOL_TIMEOUT_MS := 120_000.0
  const MAX_TOOL_TIMEOUT_MS := 600_000.0
  const LOCAL_TOOL_NAMES := {"bash", "read", "write", "edit", "ls", "find", "grep"}

  datatype Status = Ok | Error | Cancelled | TimedOut

  datatype ToolResult = ToolResult(status: Status, output: string, exit: Option<int>, truncated: Option<bool>)

  /** How the tool runner's promise settled. */
  datatype Answer = Returned(result: ToolResult) | Threw(message: string)

  datatype Code = InvalidArgument | BusyNow | NotSupported

  /** A running tool's abort signal and its timer's flag. */
  datatype Tool = Tool(aborted: bool, timedOut: bool)

  /** `plain` counts the askJson and decide calls being awaited. */
  datatype Dispatcher = Dispatcher(
    canRunTools: bool,
    turns: map<string, bool>,
    tools: map<string, Tool>,
    plain: nat,
    modelCalls: nat)

  datatype Event =
    | RunTool(params: Json)
    | CancelTool(params: Json)
    | ToolTimer(id: string)
    | ToolDone(id: string, answer: Answer)
    | StartTurn(turnId: Option<string>, argsValid: bool, throws: bool)
    | CancelTurn(turnId: Option<string>)
    | TurnDone(id: string)
    | StartPlain(argsValid: bool)
    | PlainDone
    | CancelAll

  datatype Outcome =
    | Silent
    | Refused(code: Code)
    | Running(id: string, timeoutMs: real)
    | Entered
    | StartFailed
    | Said(found: bool)
    | Replied(id: string, result: ToolResult)

  predicate IsIdChar(c: char) {
    '0' <= c <= '9' || 'a' <= c <= 'z' || 'A' <= c <= 'Z' || c == '_' || c == '.' || c == ':' || c == '-'
  }

  /** A call id the host accepts: 1 to 128 plain characters. */
  function CallId(params: Json): Option<string> {
    var id := TextField(params, "callId");
    if id.Some? && 1 <= |id.value| <= 128 && (forall i :: 0 <= i < |id.value| ==> IsIdChar(id.value[i]))
    then id else None
  }

  function Timeout(params: Json): Option<real> {
    if Field(params, "timeoutMs").None? then Some(DEFAULT_TOOL_TIMEOUT_MS)
    else
      var ms := NumberField(params, "timeoutMs");
      if ms.None? || ms.value <= 0.0 then None
      else if ms.value < MAX_TOOL_TIMEOUT_MS then ms else Some(MAX_TOOL_TIMEOUT_MS)
  }

  predicate ToolArgsValid(params: Json) {
    var tool := TextField(params, "tool");
    && tool.Some? && tool.value in LOCAL_TOOL_NAMES
    && (Field(params, "args").Some? ==> Field(params, "args").value.Fields?)
  }

  function RunToolStep(d: Dispatcher, params: Json): (Dispatcher, Outcome) {
    var id, ms := CallId(params), Timeout(params);
    if !d.canRunTools then (d, Refused(NotSupported))
    else if id.None? || id.value in d.tools then (d, Refused(InvalidArgument))
    else if |d.tools| >= MAX_RUNNING_TOOLS then (d, Refused(BusyNow))
    else if !ToolArgsValid(params) || ms.None? then (d, Refused(InvalidArgument))
    else (d.(tools := d.tools[id.value := Tool(false, false)]), Running(id.value, ms.value))
  }

  function CancelToolStep(d: Dispatcher, params: Json): (Dispatcher, Outcome) {
    var id := CallId(params);
    if id.None? then (d, Refused(InvalidArgument))
    else if id.value !in d.tools then (d, Said(false))
    else (d.(tools := d.tools[id.value := d.tools[id.value].(aborted := true)]), Said(true))
  }

  /** The status a finished run reports: the timer wins over a cancel, and both over the tool. */
  function Report(timedOut: bool, aborted: bool, answer: Answer): ToolResult {
    var result := if answer.Returned? then answer.result else ToolResult(Error, answer.message, None, None);
    if timedOut then result.(status := TimedOut)
    else if aborted then result.(status := Cancelled)
    else result
  }

  function CancelAllStep(d: Dispatcher): Dispatcher {
    d.(turns := map id | id in d.turns :: true,
       tools := map id | id in d.tools :: d.tools[id].(aborted := true))
  }

  function Step(d: Dispatcher, e: Event): (Dispatcher, Outcome) {
    match e
    case RunTool(params) => RunToolStep(d, params)
    case CancelTool(params) => CancelToolStep(d, params)
    case ToolTimer(id) =>
      (if id in d.tools then d.(tools := d.tools[id := Tool(true, true)]) else d, Silent)
    case ToolDone(id, answer) =>
      if id !in d.tools then (d, Silent)
      else (d.(tools := d.tools - {id}), Replied(id, Report(d.tools[id].timedOut, d.tools[id].aborted, answer)))
    case StartTurn(id, argsValid, throws) =>
      if id.None? || id.value in d.turns || !argsValid then (d, Refused(InvalidArgument))
      else if d.modelCalls >= MAX_RUNNING_TURNS then (d, Refused(BusyNow))
      else if throws then (d, StartFailed)
      else (d.(turns := d.turns[id.value := false], modelCalls := d.modelCalls + 1), Entered)
    case CancelTurn(id) =>
      if id.None? then (d, Refused(InvalidArgument))
      else if id.value !in d.turns then (d, Said(false))
      else (d.(turns := d.turns[id.value := true]), Said(true))
    case TurnDone(id) =>
      if id !in d.turns || d.modelCalls == 0 then (d, Silent)
      else (d.(turns := d.turns - {id}, modelCalls := d.modelCalls - 1), Silent)
    case StartPlain(argsValid) =>
      if !argsValid then (d, Refused(InvalidArgument))
      else if d.modelCalls >= MAX_RUNNING_TURNS then (d, Refused(BusyNow))
      else (d.(plain := d.plain + 1, modelCalls := d.modelCalls + 1), Entered)
    case PlainDone =>
      if d.plain == 0 || d.modelCalls == 0 then (d, Silent)
      else (d.(plain := d.plain - 1, modelCalls := d.modelCalls - 1), Silent)
    case CancelAll => (CancelAllStep(d), Silent)
  }

  function Fresh(canRunTools: bool): Dispatcher {
    Dispatcher(canRunTools, map[], map[], 0, 0)
  }

  // --- The dispatcher itself ---------------------------------------------------------

  /** What `runOneTool` keeps across its await. */
  class ToolRun {
    var aborted: bool
    var timedOut: bool

    constructor ()
      ensures !aborted && !timedOut
    {
      aborted, timedOut := false, false;
    }
  }

  class ToolRunner {
    const canRunTools: bool
    var tools: map<string, ToolRun>

    /** Every run has a controller of its own. */
    ghost predicate Valid()
      reads this
    {
      forall a, b :: a in tools && b in tools && tools[a] == tools[b] ==> a == b
    }

    ghost function Table(): map<string, Tool>
      reads this, tools.Values
    {
      map id | id in tools :: Tool(tools[id].aborted, tools[id].timedOut)
    }

    constructor (canRunTools: bool)
      ensures Valid() && this.canRunTools == canRunTools && Table() == map[]
    {
      this.canRunTools := canRunTools;
      tools := map[];
    }

    /** `runOneTool` up to its await; `run` is what its continuation holds on to. */
    method Run(params: Json) returns (out: Outcome, run: Option<ToolRun>)
      requires Valid()
      modifies `tools
      ensures Valid()
      ensures var d := Dispatcher(canRunTools, map[], old(Table()), 0, 0);
              out == RunToolStep(d, params).1 && Table() == RunToolStep(d, params).0.tools
      ensures run.Some? == out.Running?
      ensures run.Some? ==> fresh(run.value) && out.id in tools && tools[out.id] == run.value
    {
      run := None;
      if !canRunTools {
        return Refused(NotSupported), run;
      }
      var id := CallId(params);
      if id.None? || id.value in tools {
        return Refused(InvalidArgument), run;
      }
      assert Table().Keys == tools.Keys;
      if |tools| >= MAX_RUNNING_TOOLS {
        return Refused(BusyNow), run;
      }
      var ms := Timeout(params);
      if !ToolArgsValid(params) || ms.None? {
        return Refused(InvalidArgument), run;
      }
      var controller := new ToolRun();
      Register(id.value, controller);
      return Running(id.value, ms.value), Some(controller);
    }

    method Register(id: string, controller: ToolRun)
      requires Valid() && id !in tools && controller !in tools.Values && !controller.aborted && !controller.timedOut
      modifies `tools
      ensures Valid() && tools == old(tools)[id := controller]
      ensures Table() == old(Table())[id := Tool(false, false)]
    {
      tools := tools[id := controller];
    }

    method Cancel(params: Json) returns (out: Outcome)
      requires Valid()
      modifies tools.Values
      ensures Valid()
      ensures var d := Dispatcher(canRunTools, map[], old(Table()), 0, 0);
              out == CancelToolStep(d, params).1 && Table() == CancelToolStep(d, params).0.tools
    {
      var id := CallId(params);
      if id.None? {
        return Refused(InvalidArgument);
      }
      if id.value in tools {
        tools[id.value].aborted := true;
      }
      return Said(id.value in tools);
    }

    /** The tools' part of `cancelAll`. */
    method AbortAll()
      requires Valid()
      modifies tools.Values
      ensures Valid() && Table() == CancelAllStep(Dispatcher(canRunTools, map[], old(Table()), 0, 0)).tools
    {
      var todo := tools.Keys;
      while todo != {}
        invariant todo <= tools.Keys
        invariant forall id :: id in tools ==>
          && tools[id].timedOut == old(tools[id].timedOut)
          && tools[id].aborted == (old(tools[id].aborted) || id !in todo)
      {
        var id :| id in todo;
        todo := todo - {id};
        tools[id].aborted := true;
      }
    }

    /** The timer of a run that has not finished. */
    method TimerFires(id: string)
      requires Valid() && id in tools
      modifies tools[id]
      ensures Valid() && Table() == old(Table())[id := Tool(true, true)]
    {
      tools[id].timedOut := true;
      tools[id].aborted := true;
    }

    /** The rest of `runOneTool`, once the runner's promise settles. */
    method Finish(id: string, run: ToolRun, answer: Answer) returns (result: ToolResult)
      requires Valid() && id in tools && tools[id] == run
      modifies `tools
      ensures Valid() && tools == old(tools) - {id} && Table() == old(Table()) - {id}
      ensures result == Report(run.timedOut, run.aborted, answer)
      // A clean run answers what the runner did; a thrown error is an error; otherwise only the status changes.
      ensures !run.timedOut && !run.aborted && answer.Returned? ==> result == answer.result
      ensures !run.timedOut && !run.aborted && answer.Threw? ==> result.status == Error
      ensures run.timedOut ==> result.status == TimedOut
      ensures !run.timedOut && run.aborted ==> result.status == Cancelled
      ensures answer.Returned? ==> result == answer.result.(status := result.status)
      ensures answer.Threw? ==> result.output == answer.message && result.exit == None && result.truncated == None
    {
      match answer {
        case Returned(r) => result := r;
        case Threw(message) => result := ToolResult(Error, message, None, None);
      }
      tools := tools - {id};
      if run.timedOut {
        return result.(status := TimedOut);
      }
      if run.aborted {
        return result.(status := Cancelled);
      }
    }
  }

  /** The cap on model calls, as `capped` and `persona.turn` keep it. */
  class ModelCalls {
    var turns: map<string, bool>
    var modelCalls: nat
    ghost var plain: nat

    ghost predicate Valid()
      reads this
    {
      modelCalls == |turns| + plain
    }

    ghost function View(): Dispatcher
      reads this
    {
      Dispatcher(false, turns, map[], plain, modelCalls)
    }

    constructor ()
      ensures Valid() && View() == Fresh(false)
    {
      turns, modelCalls, plain := map[], 0, 0;
    }

    method StartTurn(id: Option<string>, argsValid: bool, throws: bool) returns (out: Outcome)
      requires Valid()
      modifies this
      ensures Valid() && (View(), out) == Step(old(View()), Event.StartTurn(id, argsValid, throws))
    {
      if id.None? || id.value in turns || !argsValid {
        return Refused(InvalidArgument);
      }
      if modelCalls >= MAX_RUNNING_TURNS {
        return Refused(BusyNow);
      }
      modelCalls := modelCalls + 1;
      if throws {
        modelCalls := modelCalls - 1;
        return StartFailed;
      }
      turns := turns[id.value := false];
      return Entered;
    }

    method CancelTurn(id: Option<string>) returns (out: Outcome)
      requires Valid()
      modifies `turns
      ensures Valid() && (View(), out) == Step(old(View()), Event.CancelTurn(id))
    {
      if id.None? {
        return Refused(InvalidArgument);
      }
      if id.value !in turns {
        return Said(false);
      }
      assert turns[id.value := true].Keys == turns.Keys;
      turns := turns[id.value := true];
      return Said(true);
    }

    method FinishTurn(id: string)
      requires Valid() && id in turns
      modifies this
      ensures Valid() && View() == Step(old(View()), TurnDone(id)).0
    {
      assert (turns - {id}).Keys == turns.Keys - {id};
      assert |turns - {id}| == |turns| - 1;
      turns := turns - {id};
      modelCalls := modelCalls - 1;
    }

    method StartPlain(argsValid: bool) returns (out: Outcome)
      requires Valid()
      modifies this
      ensures Valid() && (View(), out) == Step(old(View()), Event.StartPlain(argsValid))
    {
      if !argsValid {
        return Refused(InvalidArgument);
      }
      if modelCalls >= MAX_RUNNING_TURNS {
        return Refused(BusyNow);
      }
      modelCalls := modelCalls + 1;
      plain := plain + 1;
      return Entered;
    }

    method FinishPlain()
      requires Valid() && plain > 0
      modifies this
      ensures Valid() && View() == Step(old(View()), PlainDone).0
    {
      modelCalls := modelCalls - 1;
      plain := plain - 1;
    }
  }

  // --- Whole runs --------------------------------------------------------------------

  datatype Trace = Trace(states: seq<Dispatcher>, events: seq<Event>, outs: seq<Outcome>)

  ghost predicate Linked(tr: Trace, k: nat) {
    k < |tr.events| && k < |tr.outs| && k + 1 < |tr.states|
        && Step(tr.states[k], tr.events[k]) == (tr.states[k + 1], tr.outs[k])
  }

  ghost predicate IsRun(tr: Trace) {
    && |tr.states| == |tr.events| + 1 && |tr.outs| == |tr.events|
    && tr.states[0] == Fresh(tr.states[0].canRunTools)
    && forall k: nat :: k < |tr.events| ==> Linked(tr, k)
  }

  predicate Counted(d: Dispatcher) {
    && d.modelCalls == |d.turns| + d.plain
    && d.modelCalls <= MAX_RUNNING_TURNS
    && |d.tools| <= MAX_RUNNING_TOOLS
  }

  lemma MapSizes<T>(m: map<string, T>, k: string, v: T)
    ensures |m[k := v]| == if k in m then |m| else |m| + 1
    ensures |m - {k}| == if k in m then |m| - 1 else |m|
  {
    assert m[k := v].Keys == m.Keys + {k} && (m - {k}).Keys == m.Keys - {k};
  }

  lemma CancelAllSizes(d: Dispatcher)
    ensures |CancelAllStep(d).tools| == |d.tools| && |CancelAllStep(d).turns| == |d.turns|
    ensures CancelAllStep(d).modelCalls == d.modelCalls && CancelAllStep(d).plain == d.plain
  {
    assert CancelAllStep(d).tools.Keys == d.tools.Keys;
    assert CancelAllStep(d).turns.Keys == d.turns.Keys;
  }

  lemma ToolRequestsStayCapped(d: Dispatcher, params: Json)
    requires |d.tools| <= MAX_RUNNING_TOOLS
    ensures |RunToolStep(d, params).0.tools| <= MAX_RUNNING_TOOLS
    ensures |CancelToolStep(d, params).0.tools| == |d.tools|
  {
    var id := CallId(params);
    if id.Some? {
      hide CallId, Timeout, ToolArgsValid;
      MapSizes(d.tools, id.value, Tool(false, false));
      if id.value in d.tools {
        MapSizes(d.tools, id.value, d.tools[id.value].(aborted := true));
      }
    }
  }

  lemma ToolEventsStayCapped(d: Dispatcher, e: Event)
    requires e.ToolTimer? || e.ToolDone?
    ensures |Step(d, e).0.tools| <= |d.tools|
  {
    hide Report;
    MapSizes(d.tools, e.id, Tool(true, true));
  }

  lemma ToolsStayCapped(d: Dispatcher, e: Event)
    requires |d.tools| <= MAX_RUNNING_TOOLS
    ensures |Step(d, e).0.tools| <= MAX_RUNNING_TOOLS
  {
    hide RunToolStep, CancelToolStep, CancelAllStep, Report;
    if e.RunTool? || e.CancelTool? {
      ToolRequestsStayCapped(d, e.params);
    } else if e.ToolTimer? || e.ToolDone? {
      ToolEventsStayCapped(d, e);
    } else if e.CancelAll? {
      CancelAllSizes(d);
    } else {
      assert Step(d, e).0.tools == d.tools;
    }
  }

  lemma ToolRequestsKeepCalls(d: Dispatcher, params: Json)
    ensures var r, c := RunToolStep(d, params), CancelToolStep(d, params);
            && r.0 == d.(tools := r.0.tools) && c.0 == d.(tools := c.0.tools)
            && !r.1.Entered? && !c.1.Entered?
  {
  }

  lemma CallsStayCounted(d: Dispatcher, e: Event)
    requires Counted(d)
    ensures var d' := Step(d, e).0;
            && d'.modelCalls == |d'.turns| + d'.plain && d'.modelCalls <= MAX_RUNNING_TURNS
            && d'.modelCalls == d.modelCalls + (if Step(d, e).1.Entered? then 1 else 0)
               - (if (e.TurnDone? && e.id in d.turns) || (e.PlainDone? && d.plain > 0) then 1 else 0)
  {
    hide RunToolStep, CancelToolStep, CancelAllStep, Report;
    if e.StartTurn? || e.CancelTurn? || e.TurnDone? {
      TurnsStayCounted(d, e);
    } else if e.CancelAll? {
      CancelAllSizes(d);
    } else if e.RunTool? || e.CancelTool? {
      ToolRequestsKeepCalls(d, e.params);
    }
  }

  lemma TurnsStayCounted(d: Dispatcher, e: Event)
    requires Counted(d) && (e.StartTurn? || e.CancelTurn? || e.TurnDone?)
    ensures var d' := Step(d, e).0;
            && |d'.turns| == |d.turns| + (if Step(d, e).1.Entered? then 1 else 0)
               - (if e.TurnDone? && e.id in d.turns then 1 else 0)
            && d'.modelCalls - d.modelCalls == |d'.turns| - |d.turns| && d'.plain == d.plain
            && d'.modelCalls <= MAX_RUNNING_TURNS
  {
    var turns := d.turns;
    if e.TurnDone? {
      MapSizes(turns, e.id, true);
      SizeOfMember(turns, e.id);
    } else if e.turnId.Some? {
      MapSizes(turns, e.turnId.value, e.CancelTurn?);
    }
  }

  lemma SizeOfMember<T>(m: map<string, T>, k: string)
    ensures k in m ==> |m| > 0
  {
    assert k in m ==> k in m.Keys;
  }

  /** Capped calls that got in, minus those that ended, among the first `k` events. */
  function InFlight(tr: Trace, k: nat): int
    requires k <= |tr.events| && |tr.outs| == |tr.events| && |tr.states| == |tr.events| + 1
  {
    if k == 0 then 0
    else
      var d, e := tr.states[k - 1], tr.events[k - 1];
      InFlight(tr, k - 1)
      + (if tr.outs[k - 1].Entered? then 1 else 0)
      - (if (e.TurnDone? && e.id in d.turns) || (e.PlainDone? && d.plain > 0) then 1 else 0)
  }

  /** On every run `modelCalls` is exactly the number of capped calls started and not finished, never
      more than four; live turns never outnumber it; and at most eight tools run. */
  lemma {:induction false} CapsHold(tr: Trace, k: nat)
    requires IsRun(tr) && k <= |tr.events|
    ensures Counted(tr.states[k]) && tr.states[k].modelCalls == InFlight(tr, k)
    ensures |tr.states[k].turns| <= tr.states[k].modelCalls <= MAX_RUNNING_TURNS
  {
    hide Step;
    if k > 0 {
      CapsHold(tr, k - 1);
      assert Linked(tr, k - 1);
      ToolsStayCapped(tr.states[k - 1], tr.events[k - 1]);
      CallsStayCounted(tr.states[k - 1], tr.events[k - 1]);
    }
  }

  /** The events that abort a tool by request. */
  predicate Aborts(e: Event, id: string) {
    e.CancelAll? || (e.CancelTool? && CallId(e.params) == Some(id))
  }

  /** The history of run `id` between tick `i`, which registered it, and tick `k`: was it asked to
      stop, and did its timer fire? */
  ghost predicate AbortedBetween(tr: Trace, i: nat, k: nat, id: string)
    requires k <= |tr.events|
  {
    exists m :: i < m < k && Aborts(tr.events[m], id)
  }

  ghost predicate TimerBetween(tr: Trace, i: nat, k: nat, id: string)
    requires k <= |tr.events|
  {
    exists m :: i < m < k && tr.events[m] == ToolTimer(id)
  }

  ghost predicate DoneBetween(tr: Trace, i: nat, k: nat, id: string)
    requires k <= |tr.events|
  {
    exists m :: i < m < k && tr.events[m].ToolDone? && tr.events[m].id == id
  }

  lemma StepAndOneTool(d: Dispatcher, e: Event, id: string)
    ensures var d' := Step(d, e).0;
            && (Step(d, e).1.Running? && Step(d, e).1.id == id ==>
                  id !in d.tools && id in d'.tools && d'.tools[id] == Tool(false, false))
            && (id in d.tools ==> (id in d'.tools <==> !(e.ToolDone? && e.id == id)))
            && (id in d.tools && id in d'.tools ==>
                  && d'.tools[id].timedOut == (d.tools[id].timedOut || e == ToolTimer(id))
                  && d'.tools[id].aborted == (d.tools[id].aborted || e == ToolTimer(id) || Aborts(e, id)))
            && (id !in d.tools && id in d'.tools ==> Step(d, e).1.Running? && Step(d, e).1.id == id)
  {
  }

  /** Once registered, a run stays in the table until it is done, and remembers exactly what happened
      to it. */
  lemma {:induction false} RegisteredUntilDone(tr: Trace, i: nat, k: nat, id: string)
    requires IsRun(tr) && i < k <= |tr.events|
    requires tr.outs[i].Running? && tr.outs[i].id == id && !DoneBetween(tr, i, k, id)
    ensures id in tr.states[k].tools
    ensures tr.states[k].tools[id].timedOut <==> TimerBetween(tr, i, k, id)
    ensures tr.states[k].tools[id].aborted <==> AbortedBetween(tr, i, k, id) || TimerBetween(tr, i, k, id)
    decreases k
  {
    hide Step;
    assert Linked(tr, k - 1);
    StepAndOneTool(tr.states[k - 1], tr.events[k - 1], id);
    if k > i + 1 {
      RegisteredUntilDone(tr, i, k - 1, id);
    }
  }

  /** A cancel that arrives after the run's own line finds the run, unless it is already over. */
  lemma {:induction false} CancelFindsTheRun(tr: Trace, i: nat, k: nat, id: string)
    requires IsRun(tr) && i < k < |tr.events|
    requires tr.outs[i].Running? && tr.outs[i].id == id
    requires tr.events[k].CancelTool? && CallId(tr.events[k].params) == Some(id)
    requires forall m :: i < m < k ==> !(tr.outs[m].Running? && tr.outs[m].id == id)
    ensures tr.outs[k] == Said(!DoneBetween(tr, i, k, id))
  {
    hide Step;
    SaidWhetherRegistered(tr, k, id);
    if !DoneBetween(tr, i, k, id) {
      RegisteredUntilDone(tr, i, k, id);
    } else {
      var m :| i < m < k && tr.events[m].ToolDone? && tr.events[m].id == id;
      GoneOnceDone(tr, m, k, id);
    }
  }

  lemma SaidWhetherRegistered(tr: Trace, k: nat, id: string)
    requires IsRun(tr) && k < |tr.events|
    requires tr.events[k].CancelTool? && CallId(tr.events[k].params) == Some(id)
    ensures tr.outs[k] == Said(id in tr.states[k].tools)
  {
    assert Linked(tr, k);
  }

  lemma {:induction false} GoneOnceDone(tr: Trace, m: nat, k: nat, id: string)
    requires IsRun(tr) && m < k <= |tr.events|
    requires tr.events[m].ToolDone? && tr.events[m].id == id
    requires forall n :: m < n < k ==> !(tr.outs[n].Running? && tr.outs[n].id == id)
    ensures id !in tr.states[k].tools
    decreases k
  {
    hide Step;
    assert Linked(tr, k - 1);
    StepAndOneTool(tr.states[k - 1], tr.events[k - 1], id);
    if k > m + 1 {
      GoneOnceDone(tr, m, k - 1, id);
    } else {
      DoneTakesItOut(tr.states[m], tr.events[m]);
    }
  }

  lemma DoneTakesItOut(d: Dispatcher, e: Event)
    requires e.ToolDone?
    ensures e.id !in Step(d, e).0.tools
  {
  }

  /** What a run reports is decided by its whole history: the timer, else a cancel, else the tool. */
  lemma StatusTellsTheHistory(tr: Trace, i: nat, j: nat, id: string)
    requires IsRun(tr) && i < j < |tr.events|
    requires tr.outs[i].Running? && tr.outs[i].id == id && !DoneBetween(tr, i, j, id)
    requires tr.events[j].ToolDone? && tr.events[j].id == id
    ensures tr.outs[j]
        == Replied(id, Report(TimerBetween(tr, i, j, id), AbortedBetween(tr, i, j, id), tr.events[j].answer))
  {
    RegisteredUntilDone(tr, i, j, id);
    assert Linked(tr, j);
  }

  /** The same by cases over what happened: a run left alone answers exactly what the runner returned, and a
      thrown error as an error with its message; a timer, else a cancel, decides the status and nothing else. */
  lemma RepliesByCases(tr: Trace, i: nat, j: nat, id: string)
    requires IsRun(tr) && i < j < |tr.events|
    requires tr.outs[i].Running? && tr.outs[i].id == id && !DoneBetween(tr, i, j, id)
    requires tr.events[j].ToolDone? && tr.events[j].id == id
    ensures tr.outs[j].Replied? && tr.outs[j].id == id
    ensures var r, answer := tr.outs[j].result, tr.events[j].answer;
            var timer, aborted := TimerBetween(tr, i, j, id), AbortedBetween(tr, i, j, id);
            && (timer ==> r.status == TimedOut)
            && (!timer && aborted ==> r.status == Cancelled)
            && (!timer && !aborted ==> r.status == if answer.Returned? then answer.result.status else Error)
            && r.output == (if answer.Returned? then answer.result.output else answer.message)
            && r.exit == (if answer.Returned? then answer.result.exit else None)
            && r.truncated == (if answer.Returned? then answer.result.truncated else None)
  {
    StatusTellsTheHistory(tr, i, j, id);
    hide IsRun, TimerBetween, AbortedBetween;
  }

  // --- Who gets in -------------------------------------------------------------------

  /** The request names a tool of the list, with an object of arguments if any, and a time that is positive. */
  predicate WellAsked(params: Json) {
    && (exists tool :: tool in LOCAL_TOOL_NAMES && Field(params, "tool") == Some(Text(tool)))
    && (Field(params, "args") == None || Field(params, "args").value.Fields?)
    && (Field(params, "timeoutMs") == None
        || (Field(params, "timeoutMs").value.Number? && Field(params, "timeoutMs").value.n > 0.0))
  }

  predicate IdOk(params: Json, id: string) {
    Field(params, "callId") == Some(Text(id)) && 1 <= |id| <= 128 && forall i :: 0 <= i < |id| ==> IsIdChar(id[i])
  }

  /** A tool run starts exactly when this host has tools, the id is well formed and free, fewer than eight
      run, and the request is well formed. Its timer is what was asked for, two minutes if nothing was, and
      never over ten. A full table is told apart from a bad request. */
  lemma RunsExactlyWhen(d: Dispatcher, params: Json, id: string)
    requires IdOk(params, id)
    ensures var (after, out) := Step(d, RunTool(params));
            && (out.Running? <==> d.canRunTools && id !in d.tools && |d.tools| < 8 && WellAsked(params))
            && (out.Running? ==>
                  && out.id == id && after == d.(tools := d.tools[id := Tool(false, false)])
                  && out.timeoutMs <= 600000.0
                  && (Field(params, "timeoutMs") == None ==> out.timeoutMs == 120000.0)
                  && forall ms :: Field(params, "timeoutMs") == Some(Number(ms)) ==>
                       out.timeoutMs == ms || out.timeoutMs == 600000.0 < ms)
            && (out == Refused(BusyNow) <==> d.canRunTools && id !in d.tools && |d.tools| >= 8)
            && (!out.Running? ==> out.Refused? && after == d)
  {
    assert CallId(params) == Some(id);
    var tool := TextField(params, "tool");
    assert tool.Some? ==> Field(params, "tool") == Some(Text(tool.value));
  }

  /** Without a usable id nothing starts. */
  lemma NoIdNoRun(d: Dispatcher, params: Json)
    requires forall id :: !IdOk(params, id)
    ensures Step(d, RunTool(params)).0 == d && Step(d, RunTool(params)).1.Refused?
    ensures Step(d, CancelTool(params)) == (d, Refused(InvalidArgument))
  {
    var id := TextField(params, "callId");
    assert id.Some? ==> !IdOk(params, id.value);
    assert CallId(params) == None;
  }

  /** A turn is running exactly from the event that let it in to the one that ends it. */
  lemma {:induction false} TurnsRunExactlyWhile(tr: Trace, k: nat, id: string)
    requires IsRun(tr) && k <= |tr.events|
    ensures id in tr.states[k].turns <==> TurnEntered(tr, k, id)
  {
    hide Step, EntersTurn, EndsTurn;
    if k == 0 {
      NoTurnYet(tr, id);
    } else {
      TurnsRunExactlyWhile(tr, k - 1, id);
      CapsHold(tr, k - 1);
      assert Linked(tr, k - 1);
      StepAndOneTurn(tr.states[k - 1], tr.events[k - 1], id);
      TurnEnteredSnoc(tr, k, id);
    }
  }

  predicate EntersTurn(e: Event, out: Outcome, id: string) {
    e.StartTurn? && e.turnId == Some(id) && out == Entered
  }

  predicate EndsTurn(e: Event, id: string) {
    e == TurnDone(id)
  }

  ghost predicate TurnEntered(tr: Trace, k: nat, id: string)
    requires k <= |tr.events| == |tr.outs|
  {
    exists i ::
      && 0 <= i < k && EntersTurn(tr.events[i], tr.outs[i], id)
      && forall m :: i < m < k ==> !EndsTurn(tr.events[m], id)
  }

  lemma NoTurnYet(tr: Trace, id: string)
    requires IsRun(tr)
    ensures id !in tr.states[0].turns && !TurnEntered(tr, 0, id)
  {
  }

  lemma TurnEnteredSnoc(tr: Trace, k: nat, id: string)
    requires 0 < k <= |tr.events| == |tr.outs|
    ensures TurnEntered(tr, k, id) <==>
      || EntersTurn(tr.events[k - 1], tr.outs[k - 1], id)
      || (TurnEntered(tr, k - 1, id) && !EndsTurn(tr.events[k - 1], id))
  {
    hide EntersTurn, EndsTurn;
    if TurnEntered(tr, k - 1, id) && !EndsTurn(tr.events[k - 1], id) {
      var i :| 0 <= i < k - 1 && EntersTurn(tr.events[i], tr.outs[i], id)
               && forall m :: i < m < k - 1 ==> !EndsTurn(tr.events[m], id);
      assert forall m :: i < m < k ==> !EndsTurn(tr.events[m], id);
    }
  }

  lemma StepAndOneTurn(d: Dispatcher, e: Event, id: string)
    requires Counted(d)
    ensures var (after, out) := Step(d, e);
            id in after.turns <==> EntersTurn(e, out, id) || (id in d.turns && !EndsTurn(e, id))
  {
    hide Counted, Report;
    if e.RunTool? || e.CancelTool? {
      hide RunToolStep, CancelToolStep;
      ToolRequestsKeepCalls(d, e.params);
    } else if e.StartTurn? || e.CancelTurn? || e.TurnDone? {
      TurnEventAndOneTurn(d, e, id);
    } else {
      OtherAndOneTurn(d, e, id);
    }
  }

  lemma TurnEventAndOneTurn(d: Dispatcher, e: Event, id: string)
    requires Counted(d) && (e.StartTurn? || e.CancelTurn? || e.TurnDone?)
    ensures var (after, out) := Step(d, e);
            id in after.turns <==> EntersTurn(e, out, id) || (id in d.turns && !EndsTurn(e, id))
  {
    if e.TurnDone? {
      SizeOfMember(d.turns, e.id);
    }
  }

  lemma OtherAndOneTurn(d: Dispatcher, e: Event, id: string)
    requires !e.RunTool? && !e.CancelTool? && !e.StartTurn? && !e.CancelTurn? && !e.TurnDone?
    ensures id in Step(d, e).0.turns <==> id in d.turns
  {
    hide Report;
  }

  /** A capped call gets in exactly when its arguments are valid, its turn id is free, and fewer than four
      are running; a full house is told apart from a bad request. */
  lemma ModelCallsEnterExactlyWhen(d: Dispatcher, id: Option<string>, valid: bool)
    ensures var out := Step(d, StartTurn(id, valid, false)).1;
            && (out == Entered <==> id.Some? && id.value !in d.turns && valid && d.modelCalls < 4)
            && (out == Refused(BusyNow) <==> id.Some? && id.value !in d.turns && valid && d.modelCalls >= 4)
    ensures var out := Step(d, StartPlain(valid)).1;
            && (out == Entered <==> valid && d.modelCalls < 4)
            && (out == Refused(BusyNow) <==> valid && d.modelCalls >= 4)
  {
  }

  /** So a cancel of a turn finds exactly a turn that was let in and has not ended, and tells it to stop. */
  lemma TurnCancelFindsTheTurn(tr: Trace, k: nat, id: string)
    requires IsRun(tr) && k < |tr.events| && tr.events[k] == CancelTurn(Some(id))
    ensures tr.outs[k] == Said(TurnEntered(tr, k, id))
    ensures TurnEntered(tr, k, id) ==> id in tr.states[k + 1].turns && tr.states[k + 1].turns[id]
  {
    TurnsRunExactlyWhile(tr, k, id);
    assert Linked(tr, k);
    hide IsRun, TurnEntered;
  }

  /** The stream of that turn is told to stop: by a cancel of it, or by the shutdown. */
  predicate StopsTurn(e: Event, id: string) {
    e == CancelTurn(Some(id)) || e == CancelAll
  }

  /** The last event before `k` that let turn `id` in. */
  function EntryOf(tr: Trace, k: nat, id: string): (i: nat)
    requires k <= |tr.events| == |tr.outs|
    ensures i < k || i == 0
  {
    if k == 0 then 0
    else if EntersTurn(tr.events[k - 1], tr.outs[k - 1], id) then k - 1
    else EntryOf(tr, k - 1, id)
  }

  ghost predicate StoppedSince(tr: Trace, i: nat, k: nat, id: string)
    requires k <= |tr.events|
  {
    exists m :: i < m < k && StopsTurn(tr.events[m], id)
  }

  lemma StepAndTurnFlag(d: Dispatcher, e: Event, id: string)
    requires id in Step(d, e).0.turns
    ensures var (after, out) := Step(d, e);
            if id in d.turns then !EntersTurn(e, out, id) && after.turns[id] == (d.turns[id] || StopsTurn(e, id))
            else EntersTurn(e, out, id) && !after.turns[id]
  {
    hide Report;
    if e.RunTool? || e.CancelTool? {
      hide RunToolStep, CancelToolStep;
      ToolRequestsKeepCalls(d, e.params);
    }
  }

  /** On every run, a running turn has been told to stop exactly if a cancel of it or the shutdown came since it
      was let in. */
  lemma {:induction false} TurnIsStoppedExactlyWhen(tr: Trace, k: nat, id: string)
    requires IsRun(tr) && k <= |tr.events| && id in tr.states[k].turns
    ensures EntryOf(tr, k, id) < k
    ensures EntersTurn(tr.events[EntryOf(tr, k, id)], tr.outs[EntryOf(tr, k, id)], id)
    ensures tr.states[k].turns[id] <==> StoppedSince(tr, EntryOf(tr, k, id), k, id)
  {
    hide Step, EntersTurn, StopsTurn;
    NoTurnYet(tr, id);
    if k > 0 {
      assert Linked(tr, k - 1);
      StepAndTurnFlag(tr.states[k - 1], tr.events[k - 1], id);
      if id in tr.states[k - 1].turns {
        TurnIsStoppedExactlyWhen(tr, k - 1, id);
        var i := EntryOf(tr, k - 1, id);
        assert StoppedSince(tr, i, k, id) <==> StoppedSince(tr, i, k - 1, id) || StopsTurn(tr.events[k - 1], id);
      }
    }
  }

  /** A cancel is never lost: once it said it found the run, that run ends `cancelled` or `timeout`. */
  lemma CancelIsNeverLost(tr: Trace, i: nat, k: nat, j: nat, id: string)
    requires IsRun(tr) && i < k < j < |tr.events|
    requires tr.outs[i].Running? && tr.outs[i].id == id && !DoneBetween(tr, i, j, id)
    requires tr.events[k].CancelTool? && CallId(tr.events[k].params) == Some(id)
    requires tr.events[j].ToolDone? && tr.events[j].id == id
    ensures tr.outs[k] == Said(true)
    ensures tr.outs[j].Replied? && tr.outs[j].result.status in {Cancelled, TimedOut}
  {
    hide Step;
    RegisteredUntilDone(tr, i, k, id);
    SaidWhetherRegistered(tr, k, id);
    assert Aborts(tr.events[k], id);
    StatusTellsTheHistory(tr, i, j, id);
  }
}
