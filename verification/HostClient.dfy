/** Main's side of the phantombot bridge: one child process, one pending map
    (electron/phantombot/client.ts). */
module HostClient {
  import opened Basics

  /** What a host answers a request with: its `result`, or its `error`. */
  datatype Answer = Result(value: Json) | Failure(code: string, message: string)

  /** How a call ended. */
  datatype Outcome =
    | FromHost(answer: Answer)
    | HostExited(reason: string)
    | TurnTaken(turnId: string)

  /** One decoded stdout line of a host. `Other` is anything the client drops. */
  datatype Line =
    | Answered(id: int, answer: Answer)
    | TurnEvent(turnId: string, data: Json)
    | ChannelStatus(persona: string, data: Json)
    | Other

  /** `pending` maps a call to the turn it listens to, if any; `listeners` maps a turn to that call.
      `settled` is the history of the calls that are over. */
  datatype Client = Client(
    child: Option<nat>,
    spawned: nat,
    nextId: nat,
    pending: map<nat, Option<string>>,
    listeners: map<string, nat>,
    settled: map<nat, Outcome>)

  const NEW_CLIENT := Client(None, 0, 1, map[], map[], map[])

  /** The child to write to, spawned if there is none. */
  function Start(c: Client): Client {
    if c.child.Some? then c else c.(child := Some(c.spawned), spawned := c.spawned + 1)
  }

  /** One call; `turn` is the turn it streams to a listener. The flag says whether it is written. */
  function CallStep(c: Client, turn: Option<string>): (Client, bool) {
    var s := Start(c);
    var d := s.(nextId := s.nextId + 1);
    if turn.Some? && turn.value in s.listeners then
      (d.(settled := s.settled[s.nextId := TurnTaken(turn.value)]), false)
    else
      (d.(pending := s.pending[s.nextId := turn],
          listeners := if turn.Some? then s.listeners[turn.value := s.nextId] else s.listeners), true)
  }

  /** Settling takes the call out of `pending` and its listener with it. */
  function Settle(c: Client, id: nat, outcome: Outcome): Client
    requires id in c.pending
  {
    var turn := c.pending[id];
    c.(pending := c.pending - {id},
       listeners := if turn.Some? && turn.value in c.listeners && c.listeners[turn.value] == id
                    then c.listeners - {turn.value} else c.listeners,
       settled := c.settled[id := outcome])
  }

  function LineStep(c: Client, line: Line): Client {
    if line.Answered? && line.id in c.pending then Settle(c, line.id, FromHost(line.answer)) else c
  }

  function ExitStep(c: Client, child: nat, reason: string): Client {
    if c.child != Some(child) then c
    else
      Client(None, c.spawned, c.nextId, map[], map[],
             c.settled + map id | id in c.pending :: HostExited(reason))
  }

  class PhantombotHostClient {
    var child: Option<nat>
    var spawned: nat
    var nextId: nat
    var pending: map<nat, Option<string>>
    var turnListeners: map<string, nat>
    ghost var settled: map<nat, Outcome>

    ghost function View(): Client
      reads this
    {
      Client(child, spawned, nextId, pending, turnListeners, settled)
    }

    constructor ()
      ensures View() == NEW_CLIENT
    {
      child, spawned, nextId, pending, turnListeners, settled := None, 0, 1, map[], map[], map[];
    }

    /** `call` up to its await. A refused turn has settled when this returns. */
    method Call(turn: Option<string>) returns (id: nat, written: bool)
      modifies this
      ensures (View(), written) == CallStep(old(View()), turn) && id == old(nextId)
    {
      if child.None? {
        child := Some(spawned);
        spawned := spawned + 1;
      }
      id := nextId;
      nextId := nextId + 1;
      if turn.Some? {
        if turn.value in turnListeners {
          settled := settled[id := TurnTaken(turn.value)];
          return id, false;
        }
        turnListeners := turnListeners[turn.value := id];
      }
      pending := pending[id := turn];
      return id, true;
    }

    /** Whoever listens to a turn hears its events; an answer settles the call it names. */
    method OnLine(line: Line) returns (heard: Option<nat>)
      modifies this
      ensures View() == LineStep(old(View()), line)
      ensures line.Answered? && line.id in old(pending) ==>
          && pending == old(pending) - {line.id}
          && settled == old(settled)[line.id := FromHost(line.answer)]
          && (forall t :: t in turnListeners <==>
                t in old(turnListeners) && (old(turnListeners)[t] == line.id ==> old(pending)[line.id] != Some(t)))
      ensures !(line.Answered? && line.id in old(pending)) ==> View() == old(View())
      ensures heard == if line.TurnEvent? && line.turnId in old(turnListeners)
                       then Some(old(turnListeners)[line.turnId]) else None
    {
      heard := None;
      match line {
        case TurnEvent(turnId, _) =>
          if turnId in turnListeners {
            heard := Some(turnListeners[turnId]);
          }
        case Answered(id, answer) =>
          if id !in pending {
            return;
          }
          var turn := pending[id];
          pending := pending - {id};
          settled := settled[id := FromHost(answer)];
          if turn.Some? && turn.value in turnListeners && turnListeners[turn.value] == id {
            turnListeners := turnListeners - {turn.value};
          }
        case _ =>
      }
    }

    method OnExit(exited: nat, reason: string)
      modifies this
      ensures View() == ExitStep(old(View()), exited, reason)
      ensures old(child) != Some(exited) ==> View() == old(View())
      ensures old(child) == Some(exited) ==>
          && child == None && pending == map[] && turnListeners == map[]
          && (forall id :: id in old(pending) ==> id in settled && settled[id] == HostExited(reason))
          && (forall id :: id !in old(pending) ==>
                (id in settled <==> id in old(settled)) && (id in settled ==> settled[id] == old(settled)[id]))
    {
      if child != Some(exited) {
        return;
      }
      child := None;
      turnListeners := map[];
      RejectAll(reason);
      pending := map[];
    }

    method RejectAll(reason: string)
      modifies `settled
      ensures settled == old(settled) + map id | id in pending :: HostExited(reason)
    {
      var todo := pending.Keys;
      while todo != {}
        invariant todo <= pending.Keys
        invariant settled.Keys == old(settled).Keys + (pending.Keys - todo)
        invariant forall id :: id in settled ==>
          settled[id] == if id in pending && id !in todo then HostExited(reason) else old(settled)[id]
      {
        var id :| id in todo;
        todo := todo - {id};
        settled := settled[id := HostExited(reason)];
      }
    }
  }
}
