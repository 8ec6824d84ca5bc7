/** What becomes of one call of the bridge, told by the events alone: when it is refused, when it is
    outstanding, and what settles it. */
module PendingCalls {
  import opened Basics
  import opened Framing
  import opened HostClient
  import opened Pipeline

  /** Event `a` makes call `c`. */
  ghost predicate AskedAt(tr: Trace, a: nat, c: nat) {
    a < |tr.events| && a < |tr.states| && tr.events[a].Ask? && c == |tr.states[a].issued| + 1
  }

  /** The turn the call wants to listen to is one an outstanding call listens to already. */
  ghost predicate TurnIsTaken(s: System, turn: Option<string>) {
    turn.Some? && exists id :: id in s.client.pending && s.client.pending[id] == turn
  }

  /** Event `m` hears some answer, a value or an error, that names call `c`. */
  ghost predicate HearsAnswerTo(tr: Trace, m: nat, c: nat) {
    && m < |tr.events| && m < |tr.states| && tr.events[m].Hear? && tr.events[m].host < |tr.states[m].hosts|
    && var out := tr.states[m].hosts[tr.events[m].host].stdout;
       out != [] && out[0].Answered? && out[0].id == c
  }

  ghost predicate Exits(tr: Trace, m: nat, child: Option<nat>) {
    m < |tr.events| && tr.events[m].Exit? && child == Some(tr.events[m].host)
  }

  /** A new call spends the next id. Taken turns are refused on the spot and nothing is written; any other
      call is outstanding and its request is the last one on its way to the current child. */
  lemma AskIsRefusedExactlyWhen(engine: Engine, codec: Codec, tr: Trace, a: nat, c: nat)
    requires Lawful(codec) && IsRun(engine, codec, tr) && AskedAt(tr, a, c)
    ensures var before, after := tr.states[a], tr.states[a + 1];
            var call, turn := tr.events[a].call, tr.events[a].turn;
            && after.issued == before.issued + [call] && after.client.child.Some?
            && after.client.child.value < |after.hosts|
            && (before.client.child.Some? ==> after.client.child == before.client.child)
            && var h := after.hosts[after.client.child.value];
               if TurnIsTaken(before, turn) then
                 && after.client.pending == before.client.pending
                 && after.client.settled == before.client.settled[c := TurnTaken(turn.value)]
                 && (before.client.child.Some? ==> after.hosts == before.hosts)
               else
                 && after.client.pending == before.client.pending[c := turn]
                 && after.client.settled == before.client.settled
                 && h.unread != [] && h.unread[|h.unread| - 1] == Packet(c, call)
  {
    assert Linked(engine, codec, tr, a);
    RunRefines(engine, codec, tr, a);
    var s, turn := tr.states[a], tr.events[a].turn;
    if turn.Some? && turn.value in s.client.listeners {
      assert s.client.pending[s.client.listeners[turn.value]] == turn;
    }
  }

  /** One event and one outstanding call: exactly an answer that names it and its child's exit settle it,
      the one with that very answer, the other with that very reason. Every other entry stays. */
  lemma StepAndOneCall(engine: Engine, codec: Codec, tr: Trace, k: nat, c: nat)
    requires Lawful(codec) && IsRun(engine, codec, tr) && k < |tr.events| && c in tr.states[k].client.pending
    ensures var before, after := tr.states[k].client, tr.states[k + 1].client;
            && (c !in after.pending <==> HearsAnswerTo(tr, k, c) || Exits(tr, k, before.child))
            && (c in after.pending ==> after.pending[c] == before.pending[c] && after.child == before.child)
            && tr.states[k].issued <= tr.states[k + 1].issued
  {
    assert Linked(engine, codec, tr, k);
    RunRefines(engine, codec, tr, k);
  }

  /** An answer settles the call it names, be it a value or an error, and takes its listener with it;
      no other call, outcome or listener is touched. */
  lemma AnswerSettles(engine: Engine, codec: Codec, tr: Trace, k: nat, c: nat)
    requires Lawful(codec) && IsRun(engine, codec, tr) && k < |tr.events|
    requires c in tr.states[k].client.pending && HearsAnswerTo(tr, k, c)
    ensures var before, after := tr.states[k].client, tr.states[k + 1].client;
            var answer := tr.states[k].hosts[tr.events[k].host].stdout[0].answer;
            && c !in after.pending && c in after.settled && after.settled[c] == FromHost(answer)
            && (forall d :: d != c ==>
                  && (d in after.pending <==> d in before.pending)
                  && (d in after.pending ==> after.pending[d] == before.pending[d])
                  && (d in after.settled <==> d in before.settled)
                  && (d in after.settled ==> after.settled[d] == before.settled[d]))
            && (forall t :: t in after.listeners <==> t in before.listeners && before.listeners[t] != c)
            && (forall t :: t in after.listeners ==> after.listeners[t] == before.listeners[t])
  {
    assert Linked(engine, codec, tr, k);
    RunRefines(engine, codec, tr, k);
  }

  /** The exit of the current child fails every outstanding call with its reason and no settled one. */
  lemma ExitFails(engine: Engine, codec: Codec, tr: Trace, k: nat, c: nat)
    requires Lawful(codec) && IsRun(engine, codec, tr) && k < |tr.events|
    requires Exits(tr, k, tr.states[k].client.child) && 1 <= c <= |tr.states[k].issued|
    ensures var before, after := tr.states[k].client, tr.states[k + 1].client;
            && (c in before.settled <==> c !in before.pending) && c in after.settled
            && (c in before.pending ==> after.settled[c] == HostExited(tr.events[k].reason))
            && (c in before.settled ==> after.settled[c] == before.settled[c])
  {
    assert Linked(engine, codec, tr, k);
    RunRefines(engine, codec, tr, k);
  }

  /** A settled call is never outstanding again. */
  lemma StaysSettled(engine: Engine, codec: Codec, tr: Trace, k: nat, c: nat)
    requires Lawful(codec) && IsRun(engine, codec, tr) && k < |tr.events|
    requires 1 <= c <= |tr.states[k].issued| && c !in tr.states[k].client.pending
    ensures 1 <= c <= |tr.states[k + 1].issued| && c !in tr.states[k + 1].client.pending
  {
    RunRefines(engine, codec, tr, k);
    OutcomesAreFinal(engine, codec, tr, k, k + 1, c);
    RunRefines(engine, codec, tr, k + 1);
  }

  /** On every run, a call is outstanding exactly if its turn was not taken when it was made, no answer to
      it has been heard since and the child it was written to has not exited since. */
  lemma {:induction false} PendingExactlyWhen(engine: Engine, codec: Codec, tr: Trace, a: nat, k: nat, c: nat)
    requires Lawful(codec) && IsRun(engine, codec, tr) && AskedAt(tr, a, c) && a < k <= |tr.events|
    ensures var child := tr.states[a + 1].client.child;
            && (c in tr.states[k].client.pending <==>
                  && !TurnIsTaken(tr.states[a], tr.events[a].turn)
                  && forall m: nat :: a < m < k ==> !HearsAnswerTo(tr, m, c) && !Exits(tr, m, child))
            && (c in tr.states[k].client.pending ==> tr.states[k].client.child == child)
            && c <= |tr.states[k].issued|
    decreases k
  {
    hide Pipeline.Linked, Pipeline.Sound, HearsAnswerTo, Exits, TurnIsTaken;
    if k == a + 1 {
      AskIsRefusedExactlyWhen(engine, codec, tr, a, c);
      NewCall(engine, codec, tr, a, c);
    } else {
      PendingExactlyWhen(engine, codec, tr, a, k - 1, c);
      if c in tr.states[k - 1].client.pending {
        StepAndOneCall(engine, codec, tr, k - 1, c);
      } else {
        StaysSettled(engine, codec, tr, k - 1, c);
      }
    }
  }

  lemma NewCall(engine: Engine, codec: Codec, tr: Trace, a: nat, c: nat)
    requires Lawful(codec) && IsRun(engine, codec, tr) && AskedAt(tr, a, c)
    ensures c !in tr.states[a].client.pending
  {
    RunRefines(engine, codec, tr, a);
  }

  // --- Where an outstanding request is -------------------------------------------------

  function Ids(ps: seq<Packet>): multiset<int> {
    multiset(seq(|ps|, i requires 0 <= i < |ps| => ps[i].id))
  }

  function AnsweredIds(lines: seq<Line>): multiset<int> {
    if lines == [] then multiset{}
    else (if lines[0].Answered? then multiset{lines[0].id} else multiset{}) + AnsweredIds(lines[1..])
  }

  /** Every id a host holds: on its way in, being worked on, or on its way out. */
  function Held(h: Host): multiset<int> {
    Ids(h.unread) + Ids(h.tasks) + AnsweredIds(h.stdout)
  }

  lemma IdsJoin(a: seq<Packet>, b: seq<Packet>)
    ensures Ids(a + b) == Ids(a) + Ids(b)
  {
    var s, t := seq(|a|, i requires 0 <= i < |a| => a[i].id), seq(|b|, i requires 0 <= i < |b| => b[i].id);
    assert seq(|a + b|, i requires 0 <= i < |a + b| => (a + b)[i].id) == s + t;
  }

  lemma IdsOfOne(p: Packet)
    ensures Ids([p]) == multiset{p.id}
  {
    assert seq(1, i requires 0 <= i < 1 => [p][i].id) == [p.id];
  }

  lemma {:induction false} AnsweredIdsJoin(a: seq<Line>, line: Line)
    ensures AnsweredIds(a + [line]) == AnsweredIds(a) + if line.Answered? then multiset{line.id} else multiset{}
  {
    if a == [] {
      assert [] + [line] == [line] && [line][1..] == [];
    } else {
      assert (a + [line])[1..] == a[1..] + [line];
      AnsweredIdsJoin(a[1..], line);
    }
  }

  lemma {:induction false} AnsweredIdsNamed(lines: seq<Line>, id: int)
    requires id in AnsweredIds(lines)
    ensures exists i :: 0 <= i < |lines| && lines[i].Answered? && lines[i].id == id
  {
    if !(lines[0].Answered? && lines[0].id == id) {
      AnsweredIdsNamed(lines[1..], id);
      var i :| 0 <= i < |lines[1..]| && lines[1..][i].Answered? && lines[1..][i].id == id;
      assert lines[i + 1] == lines[1..][i];
    }
  }

  lemma ReadHolds(engine: Engine, codec: Codec, issued: seq<Call>, h: Host, n: nat)
    requires Lawful(codec) && HostOk(engine, codec, issued, h) && n <= |h.stdin|
    ensures Held(Read(codec, h, n)) == Held(h)
  {
    ReadsOwnRequests(engine, codec, issued, h, n);
    hide HostOk, Lawful, Held, Decoded, Handed, Cut;
    var r := Read(codec, h, n);
    var m :| 0 <= m <= |h.unread| && r.tasks == h.tasks + h.unread[..m] && r.unread == h.unread[m..];
    MovedHolds(h, r, m);
  }

  lemma MovedHolds(h: Host, r: Host, m: nat)
    requires m <= |h.unread| && r.tasks == h.tasks + h.unread[..m] && r.unread == h.unread[m..]
    requires r.stdout == h.stdout
    ensures Held(r) == Held(h)
  {
    IdsJoin(h.tasks, h.unread[..m]);
    IdsJoin(h.unread[..m], h.unread[m..]);
    assert h.unread[..m] + h.unread[m..] == h.unread;
    hide Ids, AnsweredIds;
  }

  lemma ReplyHolds(h: Host, t: nat, answer: Answer)
    requires t < |h.tasks|
    ensures Held(Reply(h, t, answer)) == Held(h)
  {
    var task := h.tasks[t];
    assert h.tasks == h.tasks[..t] + ([task] + h.tasks[t + 1..]);
    hide Ids, AnsweredIds;
    IdsJoin(h.tasks[..t], [task] + h.tasks[t + 1..]);
    IdsJoin([task], h.tasks[t + 1..]);
    IdsJoin(h.tasks[..t], h.tasks[t + 1..]);
    IdsOfOne(task);
    AnsweredIdsJoin(h.stdout, Answered(task.id, answer));
  }

  lemma WriteHolds(codec: Codec, h: Host, p: Packet)
    ensures Held(Write(codec, h, p)) == Held(h) + multiset{p.id}
  {
    hide Ids, AnsweredIds;
    IdsJoin(h.unread, [p]);
    IdsOfOne(p);
  }

  lemma NewIdIsNotHeld(engine: Engine, codec: Codec, issued: seq<Call>, h: Host)
    requires HostOk(engine, codec, issued, h)
    ensures |issued| + 1 !in Held(h)
  {
    HostIdsIssued(engine, codec, issued, h);
    if |issued| + 1 in AnsweredIds(h.stdout) {
      AnsweredIdsNamed(h.stdout, |issued| + 1);
    }
  }

  /** The host an outstanding call was written to holds it exactly once. */
  ghost predicate HeldOnce(s: System, c: nat) {
    c in s.client.pending ==>
      && s.client.child.Some? && s.client.child.value < |s.hosts|
      && Held(s.hosts[s.client.child.value])[c] == 1
  }

  lemma NewHostHoldsNothing()
    ensures Held(NEW_HOST) == multiset{}
  {
    IdsJoin([], []);
    assert [] + [] == NEW_HOST.tasks;
  }

  /** What asking does to the ids at hand: nothing when refused, or one more id for the child and for `pending`. */
  lemma AskAdds(engine: Engine, codec: Codec, s: System, call: Call, turn: Option<string>)
    requires Sound(engine, codec, s)
    ensures var s' := AskStep(codec, s, call, turn);
            var p := Packet(|s.issued| + 1, call);
            && s'.client.child.Some? && s'.client.child.value < |s'.hosts|
            && (s.client.child.None? ==> s.client.pending == map[])
            && (s.client.child.Some? ==> s'.client.child == s.client.child && s.client.child.value < |s.hosts|)
            && if CallStep(s.client, turn).1 then
                 && s'.client.pending.Keys == s.client.pending.Keys + {p.id}
                 && s'.hosts[s'.client.child.value]
                    == Write(codec, if s.client.child.Some? then s.hosts[s.client.child.value] else NEW_HOST, p)
               else
                 && s'.client.pending == s.client.pending && s.client.child.Some? && s'.hosts == s.hosts
  {
    hide HostOk, Write, Stale;
    if turn.Some? && turn.value in s.client.listeners {
      assert s.client.listeners[turn.value] in s.client.pending;
    }
  }

  lemma ChildHost(engine: Engine, codec: Codec, s: System)
    requires Sound(engine, codec, s) && s.client.child.Some?
    ensures s.client.child.value < |s.hosts| && HostOk(engine, codec, s.issued, s.hosts[s.client.child.value])
  {
  }

  lemma AskHoldsOnce(engine: Engine, codec: Codec, s: System, call: Call, turn: Option<string>, c: nat)
    requires Lawful(codec) && Sound(engine, codec, s) && HeldOnce(s, c)
    ensures HeldOnce(AskStep(codec, s, call, turn), c)
  {
    hide AskStep, CallStep, Sound, HostOk, Held, Write, Lawful;
    AskAdds(engine, codec, s, call, turn);
    var p := Packet(|s.issued| + 1, call);
    if s.client.child.Some? {
      ChildHost(engine, codec, s);
      var h := s.hosts[s.client.child.value];
      WriteHolds(codec, h, p);
      NewIdIsNotHeld(engine, codec, s.issued, h);
    } else {
      NewHostHoldsNothing();
      WriteHolds(codec, NEW_HOST, p);
    }
  }

  lemma DeliverHoldsOnce(engine: Engine, codec: Codec, s: System, g: nat, n: nat, c: nat)
    requires Lawful(codec) && Sound(engine, codec, s) && Possible(engine, s, Deliver(g, n)) && HeldOnce(s, c)
    ensures HeldOnce(Next(engine, codec, s, Deliver(g, n)), c)
  {
    assert HostOk(engine, codec, s.issued, s.hosts[g]);
    ReadHolds(engine, codec, s.issued, s.hosts[g], n);
    hide Sound, Held, Read;
  }

  lemma FinishHoldsOnce(engine: Engine, codec: Codec, s: System, g: nat, t: nat, answer: Answer, c: nat)
    requires Possible(engine, s, Finish(g, t, answer)) && HeldOnce(s, c)
    ensures HeldOnce(Next(engine, codec, s, Finish(g, t, answer)), c)
  {
    ReplyHolds(s.hosts[g], t, answer);
    hide Held, Reply;
  }

  lemma AutostartHoldsOnce(engine: Engine, codec: Codec, s: System, g: nat, call: Call, c: nat)
    requires Possible(engine, s, Autostart(g, call)) && HeldOnce(s, c)
    ensures HeldOnce(Next(engine, codec, s, Autostart(g, call)), c)
  {
    hide Ids, AnsweredIds;
    IdsJoin(s.hosts[g].tasks, [Packet(-1, call)]);
    IdsOfOne(Packet(-1, call));
  }

  lemma EmitHoldsOnce(engine: Engine, codec: Codec, s: System, g: nat, line: Line, c: nat)
    requires Possible(engine, s, Emit(g, line)) && HeldOnce(s, c)
    ensures HeldOnce(Next(engine, codec, s, Emit(g, line)), c)
  {
    hide Ids, AnsweredIds;
    AnsweredIdsJoin(s.hosts[g].stdout, line);
  }

  lemma HearHoldsOnce(engine: Engine, codec: Codec, s: System, g: nat, c: nat)
    requires Lawful(codec) && Sound(engine, codec, s) && Possible(engine, s, Hear(g)) && HeldOnce(s, c)
    ensures HeldOnce(Next(engine, codec, s, Hear(g)), c)
  {
  }

  /** No request is lost and none is doubled: as long as a call is outstanding, its id is exactly once among
      the requests its host has yet to read, those it works on and the answers it has yet to hand over. */
  lemma {:induction false} OutstandingIsHeldOnce(engine: Engine, codec: Codec, tr: Trace, k: nat, c: nat)
    requires Lawful(codec) && IsRun(engine, codec, tr) && k <= |tr.events|
    ensures HeldOnce(tr.states[k], c)
  {
    hide Sound, HeldOnce, Next, Possible, Lawful, RpcStep;
    if k == 0 {
      IdleHoldsNothing(c);
    } else {
      OutstandingIsHeldOnce(engine, codec, tr, k - 1, c);
      RunRefines(engine, codec, tr, k - 1);
      assert Linked(engine, codec, tr, k - 1);
      StepHoldsOnce(engine, codec, tr.states[k - 1], tr.events[k - 1], c);
    }
  }

  lemma IdleHoldsNothing(c: nat)
    ensures HeldOnce(IDLE, c)
  {
  }

  lemma StepHoldsOnce(engine: Engine, codec: Codec, s: System, e: Event, c: nat)
    requires Lawful(codec) && Sound(engine, codec, s) && Possible(engine, s, e) && HeldOnce(s, c)
    ensures HeldOnce(Next(engine, codec, s, e), c)
  {
    hide Sound, Held, Read, Reply, Write;
    match e {
      case Ask(call, turn) => AskHoldsOnce(engine, codec, s, call, turn, c);
      case Hear(g) => HearHoldsOnce(engine, codec, s, g, c);
      case Exit(g, _) =>
      case SpawnFails(_) =>
      case Deliver(g, n) => DeliverHoldsOnce(engine, codec, s, g, n, c);
      case Finish(g, t, answer) => FinishHoldsOnce(engine, codec, s, g, t, answer, c);
      case Autostart(g, call) => AutostartHoldsOnce(engine, codec, s, g, call, c);
      case Emit(g, line) => EmitHoldsOnce(engine, codec, s, g, line, c);
    }
  }

  /** A host that has read all its input has every request written to it among its tasks, in order. */
  lemma AllInputIsTaken(engine: Engine, codec: Codec, tr: Trace, k: nat, g: nat)
    requires Lawful(codec) && IsRun(engine, codec, tr) && k < |tr.events|
    requires g < |tr.states[k].hosts| && tr.events[k] == Deliver(g, |tr.states[k].hosts[g].stdin|)
    ensures var before := tr.states[k].hosts[g];
            g < |tr.states[k + 1].hosts|
            && var after := tr.states[k + 1].hosts[g];
               after.unread == [] && after.tasks == before.tasks + before.unread
  {
    assert Linked(engine, codec, tr, k);
    RunRefines(engine, codec, tr, k);
    var h, issued := tr.states[k].hosts[g], tr.states[k].issued;
    assert HostOk(engine, codec, issued, h);
    ReadsOwnRequests(engine, codec, issued, h, |h.stdin|);
    var r := Read(codec, h, |h.stdin|);
    NothingLeft(codec, r);
    var m :| 0 <= m <= |h.unread| && r.tasks == h.tasks + h.unread[..m] && r.unread == h.unread[m..];
    assert h.unread[..m] == h.unread;
  }

  lemma NothingLeft(codec: Codec, h: Host)
    requires '\n' !in h.buffer && h.stdin == "" && h.buffer + h.stdin == Lines(Encoded(codec, h.unread))
    ensures h.unread == []
  {
    assert h.buffer + h.stdin == h.buffer;
    LinesHaveNewlines(Encoded(codec, h.unread));
  }

  lemma LinesHaveNewlines(texts: seq<string>)
    ensures texts != [] ==> '\n' in Lines(texts)
  {
    if texts != [] {
      assert Lines(texts)[|texts[0]|] == '\n';
    }
  }
}
