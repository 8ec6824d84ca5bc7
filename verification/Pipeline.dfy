/** The whole bridge as one asynchronous system: the client, the pipes to and from every host it ever
    spawned, and the requests those hosts are working on. It refines calls answered in one step. */
module Pipeline {
  import opened Basics
  import opened Framing
  import opened HostClient
  import opened Texts
  import LocalAccess
  import LogFormat

  /** A method with its params, as the JSON text they are sent as. */
  datatype Call = Call(name: string, params: string)

  datatype Packet = Packet(id: int, call: Call)

  /** How one request becomes one line of JSON and back. */
  datatype Codec = Codec(encode: Packet -> string, decode: string -> Option<Packet>)

  ghost predicate Lawful(codec: Codec) {
    forall p :: IsLineText(codec.encode(p)) && codec.decode(codec.encode(p)) == Some(p)
  }

  // A lawful codec: the packet's parts, quoted one after another.

  function Written(p: Packet): string {
    LogFormat.JsonQuote(if p.id < 0 then "-" else "")
    + (LogFormat.JsonQuote(LocalAccess.Decimal(if p.id < 0 then -p.id else p.id))
       + (LogFormat.JsonQuote(p.call.name) + LogFormat.JsonQuote(p.call.params)))
  }

  ghost function Unwritten(s: string): Option<Packet> {
    if exists p :: Written(p) == s then
      var p :| Written(p) == s;
      Some(p)
    else None
  }

  lemma QuotesSplit(a: string, rest: string, b: string, more: string)
    requires LogFormat.JsonQuote(a) + rest == LogFormat.JsonQuote(b) + more
    ensures a == b && rest == more
  {
    hide LogFormat.ReadQuoted, LogFormat.JsonQuote;
    QuoteReads(a, rest);
    QuoteReads(b, more);
  }

  lemma QuoteReads(text: string, rest: string)
    ensures LogFormat.ReadQuoted((LogFormat.JsonQuote(text) + rest)[1..]) == Some((text, rest))
  {
    hide LogFormat.ReadQuoted, LogFormat.EscapeAll;
    LogFormat.QuotedReadsBack(text, rest);
    assert (LogFormat.JsonQuote(text) + rest)[1..] == LogFormat.EscapeAll(text) + "\"" + rest;
  }

  lemma WrittenApart(p: Packet, q: Packet)
    requires Written(p) == Written(q)
    ensures p == q
  {
    hide LogFormat.JsonQuote, LocalAccess.Decimal;
    var i, j := if p.id < 0 then -p.id else p.id, if q.id < 0 then -q.id else q.id;
    var a, b := LogFormat.JsonQuote(p.call.params), LogFormat.JsonQuote(q.call.params);
    var c, d := LogFormat.JsonQuote(p.call.name) + a, LogFormat.JsonQuote(q.call.name) + b;
    QuotesSplit(if p.id < 0 then "-" else "", LogFormat.JsonQuote(LocalAccess.Decimal(i)) + c,
                if q.id < 0 then "-" else "", LogFormat.JsonQuote(LocalAccess.Decimal(j)) + d);
    QuotesSplit(LocalAccess.Decimal(i), c, LocalAccess.Decimal(j), d);
    QuotesSplit(p.call.name, a, q.call.name, b);
    assert a + "" == a && b + "" == b;
    QuotesSplit(p.call.params, "", q.call.params, "");
    if LocalAccess.Decimal(i) == LocalAccess.Decimal(j) {
      LocalAccess.DecimalInjective(i, j);
    }
  }

  lemma WrittenIsALine(p: Packet)
    ensures IsLineText(Written(p))
  {
    QuoteHasNoNewline(if p.id < 0 then "-" else "");
    QuoteHasNoNewline(LocalAccess.Decimal(if p.id < 0 then -p.id else p.id));
    QuoteHasNoNewline(p.call.name);
    QuoteHasNoNewline(p.call.params);
    var s := Written(p);
    hide Written;
    assert TrimStart(s) == s && TrimEnd(s) == s;
  }

  lemma QuoteHasNoNewline(text: string)
    ensures var q := LogFormat.JsonQuote(text); '\n' !in q && q != "" && q[0] == q[|q| - 1] == '"'
  {
    LogFormat.QuotedReadsBack(text, "");
  }

  /** What the theorems ask of a codec can be had. */
  lemma ALawfulCodecExists()
    ensures exists codec: Codec :: Lawful(codec)
  {
    hide Written;
    var codec := Codec(p => Written(p), s => Unwritten(s));
    forall p ensures IsLineText(codec.encode(p)) && codec.decode(codec.encode(p)) == Some(p) {
      WrittenIsALine(p);
      UnwrittenWritten(p);
    }
    assert Lawful(codec);
  }

  lemma UnwrittenWritten(p: Packet)
    ensures Unwritten(Written(p)) == Some(p)
  {
    hide Written;
    var s := Written(p);
    var q := Unwritten(s);
    assert q.Some? && Written(q.value) == s;
    WrittenApart(p, q.value);
  }

  /** Which answers the dispatcher may give a request, id included, so that two calls alike in method and
      params are still told apart. The theorems hold for every such relation. */
  type Engine = (Packet, Answer) -> bool

  /** One host process: stdin not yet read, the framing buffer, the requests neither read nor framed
      yet, those being worked on, and stdout not yet read. */
  datatype Host = Host(stdin: string, buffer: string, unread: seq<Packet>, tasks: seq<Packet>, stdout: seq<Line>)

  const NEW_HOST := Host("", "", [], [], [])

  datatype System = System(client: Client, hosts: seq<Host>, issued: seq<Call>)

  const IDLE := System(NEW_CLIENT, [], [])

  datatype Event =
    | Ask(call: Call, turn: Option<string>)
    | SpawnFails(call: Call)
    | Deliver(host: nat, length: nat)
    | Autostart(host: nat, call: Call)
    | Finish(host: nat, task: nat, answer: Answer)
    | Emit(host: nat, line: Line)
    | Hear(host: nat)
    | Exit(host: nat, reason: string)

  ghost predicate Possible(engine: Engine, s: System, e: Event) {
    match e
    case Deliver(g, n) => g < |s.hosts| && n <= |s.hosts[g].stdin|
    case Autostart(g, _) => g < |s.hosts|
    case Finish(g, t, answer) => g < |s.hosts| && t < |s.hosts[g].tasks| && engine(s.hosts[g].tasks[t], answer)
    // Events and anything else that is not an answer.
    case Emit(g, line) => g < |s.hosts| && !line.Answered?
    case Hear(g) => g < |s.hosts| && s.hosts[g].stdout != []
    case Exit(g, _) => g < |s.hosts|
    case _ => true
  }

  function Decoded(codec: Codec, lines: seq<string>): seq<Packet> {
    if lines == [] then []
    else
      var p, rest := codec.decode(lines[0]), Decoded(codec, lines[1..]);
      if p.Some? then [p.value] + rest else rest
  }

  /** The reader takes one chunk off stdin; each line it completes becomes a task of its own. */
  function Read(codec: Codec, h: Host, n: nat): Host
    requires n <= |h.stdin|
  {
    var (raw, tail) := Cut(h.buffer + h.stdin[..n]);
    h.(stdin := h.stdin[n..], buffer := tail,
       unread := if |raw| <= |h.unread| then h.unread[|raw|..] else [],
       tasks := h.tasks + Decoded(codec, Handed(raw)))
  }

  function Write(codec: Codec, h: Host, p: Packet): Host {
    h.(stdin := h.stdin + codec.encode(p) + "\n", unread := h.unread + [p])
  }

  function Reply(h: Host, t: nat, answer: Answer): Host
    requires t < |h.tasks|
  {
    h.(tasks := h.tasks[..t] + h.tasks[t + 1..], stdout := h.stdout + [Answered(h.tasks[t].id, answer)])
  }

  function AskStep(codec: Codec, s: System, call: Call, turn: Option<string>): System {
    var (client, written) := CallStep(s.client, turn);
    var hosts := if s.client.child.Some? then s.hosts else s.hosts + [NEW_HOST];
    var g := if client.child.Some? then client.child.value else 0;
    System(client,
           if written && g < |hosts| then hosts[g := Write(codec, hosts[g], Packet(s.client.nextId, call))] else hosts,
           s.issued + [call])
  }

  function Next(engine: Engine, codec: Codec, s: System, e: Event): System
    requires Possible(engine, s, e)
  {
    match e
    case Ask(call, turn) => AskStep(codec, s, call, turn)
    case SpawnFails(_) => s
    case Deliver(g, n) => s.(hosts := s.hosts[g := Read(codec, s.hosts[g], n)])
    case Autostart(g, call) => s.(hosts := s.hosts[g := s.hosts[g].(tasks := s.hosts[g].tasks + [Packet(-1, call)])])
    case Finish(g, t, answer) => s.(hosts := s.hosts[g := Reply(s.hosts[g], t, answer)])
    case Emit(g, line) => s.(hosts := s.hosts[g := s.hosts[g].(stdout := s.hosts[g].stdout + [line])])
    case Hear(g) =>
      var h := s.hosts[g];
      System(LineStep(s.client, h.stdout[0]), s.hosts[g := h.(stdout := h.stdout[1..])], s.issued)
    case Exit(g, reason) => s.(client := ExitStep(s.client, g, reason))
  }

  // --- The specification: calls answered in one step ---------------------------------

  /** Calls are named by their ids, counted from one. */
  datatype Rpc = Rpc(asked: seq<Call>, outcome: map<nat, Outcome>)

  ghost predicate Asks(r: Rpc, r': Rpc, call: Call) {
    r'.asked == r.asked + [call] && r'.outcome == r.outcome
  }

  /** A call refused on the spot, because its turn is already streaming. */
  ghost predicate Refuses(r: Rpc, r': Rpc, call: Call, turnId: string) {
    r'.asked == r.asked + [call] && r'.outcome == r.outcome[|r'.asked| := TurnTaken(turnId)]
  }

  /** One outstanding call gets an answer the engine may give to that very request. */
  ghost predicate Answers(engine: Engine, r: Rpc, r': Rpc, c: nat, answer: Answer) {
    && 1 <= c <= |r.asked| && c !in r.outcome && engine(Packet(c, r.asked[c - 1]), answer)
    && r'.asked == r.asked && r'.outcome == r.outcome[c := FromHost(answer)]
  }

  /** Every outstanding call fails together. */
  ghost predicate Fails(r: Rpc, r': Rpc, reason: string) {
    && r'.asked == r.asked
    && (forall c: nat :: c in r'.outcome <==> 1 <= c <= |r.asked|)
    && (forall c :: c in r'.outcome ==> r'.outcome[c] == if c in r.outcome then r.outcome[c] else HostExited(reason))
  }

  ghost predicate RpcStep(engine: Engine, r: Rpc, r': Rpc) {
    || r' == r
    || (exists call :: Asks(r, r', call))
    || (exists call, turnId :: Refuses(r, r', call, turnId))
    || (exists c, answer :: Answers(engine, r, r', c, answer))
    || (exists reason :: Fails(r, r', reason))
  }

  function View(s: System): Rpc {
    Rpc(s.issued, s.client.settled)
  }

  // --- The invariant -----------------------------------------------------------------

  function Encoded(codec: Codec, ps: seq<Packet>): seq<string> {
    if ps == [] then [] else [codec.encode(ps[0])] + Encoded(codec, ps[1..])
  }

  /** A request carries the id of the call it was made for. */
  predicate OwnPacket(issued: seq<Call>, p: Packet) {
    1 <= p.id <= |issued| && p.call == issued[p.id - 1]
  }

  /** An answer on the way out is one for the call it names, or the host's own. */
  ghost predicate OwnAnswer(engine: Engine, issued: seq<Call>, line: Line) {
    line.Answered? ==>
        line.id == -1 || (1 <= line.id <= |issued| && engine(Packet(line.id, issued[line.id - 1]), line.answer))
  }

  ghost predicate HostOk(engine: Engine, codec: Codec, issued: seq<Call>, h: Host) {
    && '\n' !in h.buffer
    && h.buffer + h.stdin == Lines(Encoded(codec, h.unread))
    && (forall i :: 0 <= i < |h.unread| ==> OwnPacket(issued, h.unread[i]))
    && (forall i :: 0 <= i < |h.tasks| ==> h.tasks[i].id == -1 || OwnPacket(issued, h.tasks[i]))
    && (forall i :: 0 <= i < |h.stdout| ==> OwnAnswer(engine, issued, h.stdout[i]))
  }

  /** Nothing the host still holds names an outstanding call. */
  predicate Stale(h: Host, pending: map<nat, Option<string>>) {
    && (forall i :: 0 <= i < |h.unread| ==> h.unread[i].id !in pending)
    && (forall i :: 0 <= i < |h.tasks| ==> h.tasks[i].id !in pending)
    && (forall i :: 0 <= i < |h.stdout| ==> h.stdout[i].Answered? ==> h.stdout[i].id !in pending)
  }

  ghost predicate ClientOk(c: Client, calls: nat) {
    && c.nextId == calls + 1
    // Every call is outstanding or settled, never both.
    && (forall id: nat :: 1 <= id <= calls <==> id in c.pending || id in c.settled)
    && c.pending.Keys !! c.settled.Keys
    && (c.pending != map[] ==> c.child.Some?)
    && (c.child.Some? ==> c.child.value < c.spawned)
    // A turn is listened to exactly while its call is outstanding.
    && (forall t :: t in c.listeners ==> c.listeners[t] in c.pending && c.pending[c.listeners[t]] == Some(t))
    && (forall id :: id in c.pending && c.pending[id].Some? ==>
          c.pending[id].value in c.listeners && c.listeners[c.pending[id].value] == id)
  }

  ghost predicate Sound(engine: Engine, codec: Codec, s: System) {
    && ClientOk(s.client, |s.issued|)
    && s.client.spawned == |s.hosts|
    && (forall g :: 0 <= g < |s.hosts| ==> HostOk(engine, codec, s.issued, s.hosts[g]))
    && (forall g :: 0 <= g < |s.hosts| && s.client.child != Some(g) ==> Stale(s.hosts[g], s.client.pending))
  }

  // --- Each event keeps it and does what the specification allows ---------------------

  lemma {:induction false} EncodedLines(codec: Codec, ps: seq<Packet>)
    requires Lawful(codec)
    ensures |Encoded(codec, ps)| == |ps|
    ensures forall i :: 0 <= i < |ps| ==>
        Encoded(codec, ps)[i] == codec.encode(ps[i]) && IsLineText(Encoded(codec, ps)[i])
  {
    if ps != [] {
      EncodedLines(codec, ps[1..]);
      var rest := Encoded(codec, ps[1..]);
      forall i | 0 <= i < |ps| ensures Encoded(codec, ps)[i] == codec.encode(ps[i]) {
        if i > 0 {
          assert Encoded(codec, ps)[i] == rest[i - 1] && ps[i] == ps[1..][i - 1];
        }
      }
    }
  }

  lemma {:induction false} WrittenLast(codec: Codec, ps: seq<Packet>, p: Packet)
    ensures Lines(Encoded(codec, ps + [p])) == Lines(Encoded(codec, ps)) + codec.encode(p) + "\n"
  {
    if ps == [] {
      assert ps + [p] == [p] && [p][1..] == [];
      assert Encoded(codec, [p]) == [codec.encode(p)];
      assert Lines([codec.encode(p)]) == codec.encode(p) + "\n" + "";
    } else {
      WrittenLast(codec, ps[1..], p);
      assert (ps + [p])[1..] == ps[1..] + [p];
      var first := codec.encode(ps[0]);
      assert Lines(Encoded(codec, ps + [p])) == first + "\n" + Lines(Encoded(codec, ps[1..] + [p]));
      assert Lines(Encoded(codec, ps)) == first + "\n" + Lines(Encoded(codec, ps[1..]));
    }
  }

  lemma {:induction false} DecodedAsEncoded(codec: Codec, ps: seq<Packet>)
    requires Lawful(codec)
    ensures Decoded(codec, Encoded(codec, ps)) == ps
  {
    if ps != [] {
      DecodedAsEncoded(codec, ps[1..]);
      assert Encoded(codec, ps)[1..] == Encoded(codec, ps[1..]);
    }
  }

  lemma {:induction false} EncodedSplit(codec: Codec, ps: seq<Packet>, m: nat)
    requires m <= |ps| == |Encoded(codec, ps)|
    ensures Encoded(codec, ps)[..m] == Encoded(codec, ps[..m])
    ensures Encoded(codec, ps)[m..] == Encoded(codec, ps[m..])
    decreases m
  {
    if m > 0 {
      assert Encoded(codec, ps)[1..] == Encoded(codec, ps[1..]);
      EncodedSplit(codec, ps[1..], m - 1);
      assert ps[..m][1..] == ps[1..][..m - 1] && ps[1..][m - 1..] == ps[m..];
      assert Encoded(codec, ps)[..m] == [codec.encode(ps[0])] + Encoded(codec, ps[1..])[..m - 1];
      assert Encoded(codec, ps)[m..] == Encoded(codec, ps[1..])[m - 1..];
    } else {
      assert ps[0..] == ps && ps[..0] == [];
    }
  }

  /** Whatever chunk arrives, the tasks it starts are exactly the next requests written, unchanged. */
  lemma ReadsOwnRequests(engine: Engine, codec: Codec, issued: seq<Call>, h: Host, n: nat)
    requires Lawful(codec) && HostOk(engine, codec, issued, h) && n <= |h.stdin|
    ensures var r := Read(codec, h, n);
            && HostOk(engine, codec, issued, r)
            && exists m | 0 <= m <= |h.unread| :: r.tasks == h.tasks + h.unread[..m] && r.unread == h.unread[m..]
  {
    var seen := h.buffer + h.stdin[..n];
    var texts := Encoded(codec, h.unread);
    EncodedLines(codec, h.unread);
    assert seen + h.stdin[n..] == h.buffer + h.stdin;
    PrefixOfLines(texts, seen, h.stdin[n..]);
    CutTail(seen);
    var raw := Cut(seen).0;
    var m := |raw|;
    EncodedSplit(codec, h.unread, m);
    HandedAsWritten(raw);
    DecodedAsEncoded(codec, h.unread[..m]);
    assert Read(codec, h, n).tasks == h.tasks + h.unread[..m];
  }

  ghost predicate Keeps(engine: Engine, codec: Codec, s: System, s': System) {
    Sound(engine, codec, s') && RpcStep(engine, View(s), View(s'))
  }

  /** Nobody else is touched when one host changes. */
  lemma ReplaceHost(engine: Engine, codec: Codec, s: System, g: nat, h: Host)
    requires Sound(engine, codec, s) && g < |s.hosts| && HostOk(engine, codec, s.issued, h)
    requires s.client.child != Some(g) ==> Stale(h, s.client.pending)
    ensures Sound(engine, codec, s.(hosts := s.hosts[g := h]))
  {
  }

  lemma SpawnKeeps(engine: Engine, codec: Codec, s: System)
    requires Sound(engine, codec, s) && s.client.child == None
    ensures Sound(engine, codec, s.(client := Start(s.client), hosts := s.hosts + [NEW_HOST]))
  {
    var s' := s.(client := Start(s.client), hosts := s.hosts + [NEW_HOST]);
    assert HostOk(engine, codec, s.issued, NEW_HOST) by {
      assert "" + "" == Lines(Encoded(codec, []));
    }
    forall g | 0 <= g < |s'.hosts| ensures HostOk(engine, codec, s'.issued, s'.hosts[g]) {
      if g < |s.hosts| {
        assert s'.hosts[g] == s.hosts[g];
      }
    }
    assert s.client.pending == map[];
  }

  /** A call that is not written yet: only the id is spent. */
  lemma IssueKeeps(engine: Engine, codec: Codec, s: System, call: Call, turn: Option<string>)
    requires Sound(engine, codec, s) && s.client.child.Some?
    ensures var s' := s.(client := CallStep(s.client, turn).0, issued := s.issued + [call]);
            && Sound(engine, codec, s')
  {
    var s' := s.(client := CallStep(s.client, turn).0, issued := s.issued + [call]);
    forall g | 0 <= g < |s.hosts| ensures HostOk(engine, codec, s'.issued, s.hosts[g]) {
      HostOkMoreCalls(engine, codec, s.issued, call, s.hosts[g]);
    }
    forall g | 0 <= g < |s.hosts| && s.client.child != Some(g) ensures Stale(s.hosts[g], s'.client.pending) {
      HostIdsIssued(engine, codec, s.issued, s.hosts[g]);
    }
    assert ClientOk(s'.client, |s'.issued|);
  }

  lemma HostOkMoreCalls(engine: Engine, codec: Codec, issued: seq<Call>, call: Call, h: Host)
    requires HostOk(engine, codec, issued, h)
    ensures HostOk(engine, codec, issued + [call], h)
  {
    assert forall p :: OwnPacket(issued, p) ==> OwnPacket(issued + [call], p);
    assert forall line :: OwnAnswer(engine, issued, line) ==> OwnAnswer(engine, issued + [call], line);
  }

  lemma HostIdsIssued(engine: Engine, codec: Codec, issued: seq<Call>, h: Host)
    requires HostOk(engine, codec, issued, h)
    ensures forall i :: 0 <= i < |h.unread| ==> h.unread[i].id <= |issued|
    ensures forall i :: 0 <= i < |h.tasks| ==> h.tasks[i].id <= |issued|
    ensures forall i :: 0 <= i < |h.stdout| && h.stdout[i].Answered? ==> h.stdout[i].id <= |issued|
  {
    assert forall p :: OwnPacket(issued, p) ==> p.id <= |issued|;
    assert forall line :: OwnAnswer(engine, issued, line) && line.Answered? ==> line.id <= |issued|;
  }

  lemma WriteKeeps(engine: Engine, codec: Codec, s: System, p: Packet)
    requires Sound(engine, codec, s) && s.client.child.Some? && OwnPacket(s.issued, p)
    ensures var g := s.client.child.value;
            Sound(engine, codec, s.(hosts := s.hosts[g := Write(codec, s.hosts[g], p)]))
  {
    var g := s.client.child.value;
    var h := s.hosts[g];
    assert HostOk(engine, codec, s.issued, h);
    WrittenLast(codec, h.unread, p);
    assert h.buffer + (h.stdin + codec.encode(p) + "\n") == (h.buffer + h.stdin) + codec.encode(p) + "\n";
    ReplaceHost(engine, codec, s, g, Write(codec, h, p));
  }

  lemma AskKeeps(engine: Engine, codec: Codec, s: System, call: Call, turn: Option<string>)
    requires Sound(engine, codec, s)
    ensures Keeps(engine, codec, s, AskStep(codec, s, call, turn))
  {
    hide Sound;
    var s0 := s;
    if s.client.child.None? {
      SpawnKeeps(engine, codec, s);
      s0 := s.(client := Start(s.client), hosts := s.hosts + [NEW_HOST]);
    }
    ChildKnown(engine, codec, s0);
    IssueKeeps(engine, codec, s0, call, turn);
    var s1 := s0.(client := CallStep(s0.client, turn).0, issued := s.issued + [call]);
    var p := Packet(s0.client.nextId, call);
    if CallStep(s0.client, turn).1 {
      WriteKeeps(engine, codec, s1, p);
      assert Asks(View(s), View(AskStep(codec, s, call, turn)), call);
    } else {
      assert Refuses(View(s), View(AskStep(codec, s, call, turn)), call, turn.value);
    }
  }

  lemma ChildKnown(engine: Engine, codec: Codec, s: System)
    requires Sound(engine, codec, s)
    ensures s.client.child.Some? ==> s.client.child.value < |s.hosts|
    ensures s.client.nextId == |s.issued| + 1
  {
  }

  lemma ReplyOk(engine: Engine, codec: Codec, issued: seq<Call>, h: Host, t: nat, answer: Answer)
    requires HostOk(engine, codec, issued, h) && t < |h.tasks| && engine(h.tasks[t], answer)
    ensures HostOk(engine, codec, issued, Reply(h, t, answer))
  {
    var line := Answered(h.tasks[t].id, answer);
    assert h.tasks[t].id == -1 || h.tasks[t] == Packet(h.tasks[t].id, issued[h.tasks[t].id - 1]) by {
      assert h.tasks[t].id == -1 || OwnPacket(issued, h.tasks[t]);
    }
    assert OwnAnswer(engine, issued, line);
    var tasks := Reply(h, t, answer).tasks;
    assert forall i :: 0 <= i < |tasks| ==> tasks[i] == h.tasks[if i < t then i else i + 1];
  }

  lemma DeliverKeeps(engine: Engine, codec: Codec, s: System, g: nat, n: nat)
    requires Lawful(codec) && Sound(engine, codec, s) && g < |s.hosts| && n <= |s.hosts[g].stdin|
    ensures Keeps(engine, codec, s, s.(hosts := s.hosts[g := Read(codec, s.hosts[g], n)]))
  {
    ReadsOwnRequests(engine, codec, s.issued, s.hosts[g], n);
    hide HostOk, Read;
    ReplaceHost(engine, codec, s, g, Read(codec, s.hosts[g], n));
  }

  lemma FinishKeeps(engine: Engine, codec: Codec, s: System, g: nat, t: nat, answer: Answer)
    requires Sound(engine, codec, s) && Possible(engine, s, Finish(g, t, answer))
    ensures Keeps(engine, codec, s, s.(hosts := s.hosts[g := Reply(s.hosts[g], t, answer)]))
  {
    ReplyOk(engine, codec, s.issued, s.hosts[g], t, answer);
    hide HostOk;
    ReplaceHost(engine, codec, s, g, Reply(s.hosts[g], t, answer));
  }

  lemma AutostartKeeps(engine: Engine, codec: Codec, s: System, g: nat, call: Call)
    requires Sound(engine, codec, s) && g < |s.hosts|
    ensures Keeps(engine, codec, s,
        s.(hosts := s.hosts[g := s.hosts[g].(tasks := s.hosts[g].tasks + [Packet(-1, call)])]))
  {
    assert HostOk(engine, codec, s.issued, s.hosts[g]);
    ReplaceHost(engine, codec, s, g, s.hosts[g].(tasks := s.hosts[g].tasks + [Packet(-1, call)]));
  }

  lemma EmitKeeps(engine: Engine, codec: Codec, s: System, g: nat, line: Line)
    requires Sound(engine, codec, s) && g < |s.hosts| && !line.Answered?
    ensures Keeps(engine, codec, s, s.(hosts := s.hosts[g := s.hosts[g].(stdout := s.hosts[g].stdout + [line])]))
  {
    assert HostOk(engine, codec, s.issued, s.hosts[g]);
    ReplaceHost(engine, codec, s, g, s.hosts[g].(stdout := s.hosts[g].stdout + [line]));
  }

  lemma SettleKeeps(engine: Engine, codec: Codec, s: System, id: nat, outcome: Outcome)
    requires Sound(engine, codec, s) && id in s.client.pending
    ensures Sound(engine, codec, s.(client := Settle(s.client, id, outcome)))
  {
    assert ClientOk(Settle(s.client, id, outcome), |s.issued|);
  }

  lemma HearKeeps(engine: Engine, codec: Codec, s: System, g: nat)
    requires Sound(engine, codec, s) && Possible(engine, s, Hear(g))
    ensures Keeps(engine, codec, s, Next(engine, codec, s, Hear(g)))
  {
    var h := s.hosts[g];
    var line := h.stdout[0];
    assert HostOk(engine, codec, s.issued, h) && OwnAnswer(engine, s.issued, line);
    ReplaceHost(engine, codec, s, g, h.(stdout := h.stdout[1..]));
    var s1 := s.(hosts := s.hosts[g := h.(stdout := h.stdout[1..])]);
    if line.Answered? && line.id in s.client.pending {
      SettleKeeps(engine, codec, s1, line.id, FromHost(line.answer));
      assert Answers(engine, View(s), View(Next(engine, codec, s, Hear(g))), line.id, line.answer);
    }
  }

  lemma ExitKeeps(engine: Engine, codec: Codec, s: System, g: nat, reason: string)
    requires Sound(engine, codec, s) && Possible(engine, s, Exit(g, reason))
    ensures Keeps(engine, codec, s, Next(engine, codec, s, Exit(g, reason)))
  {
    var s' := Next(engine, codec, s, Exit(g, reason));
    if s.client.child == Some(g) {
      assert ClientOk(s'.client, |s.issued|);
      assert Fails(View(s), View(s'), reason);
    }
  }

  /** Every event of the running bridge is a step, or no step, of calls answered atomically. */
  lemma RefinesAtomicRpc(engine: Engine, codec: Codec, s: System, e: Event)
    requires Lawful(codec) && Sound(engine, codec, s) && Possible(engine, s, e)
    ensures Sound(engine, codec, Next(engine, codec, s, e))
    ensures RpcStep(engine, View(s), View(Next(engine, codec, s, e)))
  {
    hide Sound, Read, Reply;
    match e {
      case Ask(call, turn) => AskKeeps(engine, codec, s, call, turn);
      case SpawnFails(_) =>
      case Deliver(g, n) => DeliverKeeps(engine, codec, s, g, n);
      case Autostart(g, call) => AutostartKeeps(engine, codec, s, g, call);
      case Finish(g, t, answer) => FinishKeeps(engine, codec, s, g, t, answer);
      case Emit(g, line) => EmitKeeps(engine, codec, s, g, line);
      case Hear(g) => HearKeeps(engine, codec, s, g);
      case Exit(g, reason) => ExitKeeps(engine, codec, s, g, reason);
    }
  }

  // --- Whole runs --------------------------------------------------------------------

  datatype Trace = Trace(states: seq<System>, events: seq<Event>)

  ghost predicate Linked(engine: Engine, codec: Codec, tr: Trace, k: nat) {
    && k < |tr.events| && k + 1 < |tr.states|
    && Possible(engine, tr.states[k], tr.events[k])
    && tr.states[k + 1] == Next(engine, codec, tr.states[k], tr.events[k])
  }

  ghost predicate IsRun(engine: Engine, codec: Codec, tr: Trace) {
    && |tr.states| == |tr.events| + 1 && tr.states[0] == IDLE
    && forall k: nat :: k < |tr.events| ==> Linked(engine, codec, tr, k)
  }

  /** On every run, every state is sound and every event refines one atomic step. */
  lemma {:induction false} RunRefines(engine: Engine, codec: Codec, tr: Trace, k: nat)
    requires Lawful(codec) && IsRun(engine, codec, tr) && k <= |tr.events|
    ensures Sound(engine, codec, tr.states[k])
    ensures k < |tr.events| ==> RpcStep(engine, View(tr.states[k]), View(tr.states[k + 1]))
  {
    hide Next, RpcStep;
    if k > 0 {
      RunRefines(engine, codec, tr, k - 1);
      assert Linked(engine, codec, tr, k - 1);
      RefinesAtomicRpc(engine, codec, tr.states[k - 1], tr.events[k - 1]);
    }
    if k < |tr.events| {
      assert Linked(engine, codec, tr, k);
      RefinesAtomicRpc(engine, codec, tr.states[k], tr.events[k]);
    }
  }

  /** What a run's settled calls may look like. */
  ghost predicate OwnOutcome(engine: Engine, r: Rpc, c: nat) {
    c in r.outcome ==>
        1 <= c <= |r.asked| && (r.outcome[c].FromHost? ==> engine(Packet(c, r.asked[c - 1]), r.outcome[c].answer))
  }

  lemma RpcStepKeeps(engine: Engine, r: Rpc, r': Rpc, c: nat)
    requires RpcStep(engine, r, r') && OwnOutcome(engine, r, c) && (c in r.outcome ==> c <= |r.asked|)
    ensures OwnOutcome(engine, r', c)
    ensures c in r.outcome ==> c in r'.outcome && r'.outcome[c] == r.outcome[c]
    ensures r.asked <= r'.asked
  {
  }

  /** Each call that a host answered got an answer the engine may give to that very request, whatever the
      order of replies and however often hosts died in between. */
  lemma {:induction false} AnswersAreOwn(engine: Engine, codec: Codec, tr: Trace, k: nat, c: nat)
    requires Lawful(codec) && IsRun(engine, codec, tr) && k <= |tr.events|
    ensures OwnOutcome(engine, View(tr.states[k]), c)
  {
    hide RpcStep, Sound;
    if k > 0 {
      AnswersAreOwn(engine, codec, tr, k - 1, c);
      RunRefines(engine, codec, tr, k - 1);
      RpcStepKeeps(engine, View(tr.states[k - 1]), View(tr.states[k]), c);
    }
  }

  /** A settled call never settles again: its outcome is final. */
  lemma {:induction false} OutcomesAreFinal(engine: Engine, codec: Codec, tr: Trace, k: nat, m: nat, c: nat)
    requires Lawful(codec) && IsRun(engine, codec, tr) && k <= m <= |tr.events|
    requires c in tr.states[k].client.settled
    ensures c in tr.states[m].client.settled && tr.states[m].client.settled[c] == tr.states[k].client.settled[c]
    ensures tr.states[k].issued <= tr.states[m].issued
    decreases m
  {
    hide RpcStep, Sound;
    if k < m {
      OutcomesAreFinal(engine, codec, tr, k, m - 1, c);
      AnswersAreOwn(engine, codec, tr, m - 1, c);
      RunRefines(engine, codec, tr, m - 1);
      RpcStepKeeps(engine, View(tr.states[m - 1]), View(tr.states[m]), c);
    }
  }

  /** When the current host exits, every call made so far has settled and nobody listens any more. */
  lemma ExitSettlesEverything(engine: Engine, codec: Codec, tr: Trace, k: nat)
    requires Lawful(codec) && IsRun(engine, codec, tr) && k < |tr.events|
    requires tr.events[k].Exit? && tr.states[k].client.child == Some(tr.events[k].host)
    ensures var after := tr.states[k + 1];
            && after.client.pending == map[] && after.client.listeners == map[] && after.client.child == None
            && forall c: nat :: c in after.client.settled <==> 1 <= c <= |after.issued|
  {
    assert Linked(engine, codec, tr, k);
    RunRefines(engine, codec, tr, k + 1);
  }

  /** A host that is gone stays gone: the next child is a new one. */
  lemma {:induction false} GoneStaysGone(engine: Engine, codec: Codec, tr: Trace, k: nat, m: nat, g: nat)
    requires IsRun(engine, codec, tr) && k <= m <= |tr.events|
    requires tr.states[k].client.child != Some(g) && g < tr.states[k].client.spawned
    ensures tr.states[m].client.child != Some(g) && g < tr.states[m].client.spawned
    decreases m
  {
    if k < m {
      GoneStaysGone(engine, codec, tr, k, m - 1, g);
      assert Linked(engine, codec, tr, m - 1);
      ChildrenAreNew(engine, codec, tr.states[m - 1], tr.events[m - 1], g);
    }
  }

  lemma ChildrenAreNew(engine: Engine, codec: Codec, s: System, e: Event, g: nat)
    requires Possible(engine, s, e) && s.client.child != Some(g) && g < s.client.spawned
    ensures Next(engine, codec, s, e).client.child != Some(g) && g < Next(engine, codec, s, e).client.spawned
  {
  }

  /** After a host has exited, no line it still had in the pipe changes anything for any call. */
  lemma LateLinesSettleNothing(engine: Engine, codec: Codec, tr: Trace, k: nat, m: nat)
    requires Lawful(codec) && IsRun(engine, codec, tr) && k < m < |tr.events|
    requires tr.events[k].Exit? && tr.events[m] == Hear(tr.events[k].host)
    ensures tr.states[m + 1].client == tr.states[m].client
  {
    var g := tr.events[k].host;
    assert Linked(engine, codec, tr, k) && Linked(engine, codec, tr, m);
    RunRefines(engine, codec, tr, k);
    GoneStaysGone(engine, codec, tr, k + 1, m, g);
    RunRefines(engine, codec, tr, m);
    assert Stale(tr.states[m].hosts[g], tr.states[m].client.pending);
  }

  /** The host's own requests, with id -1, never settle a call. */
  lemma AutostartSettlesNothing(engine: Engine, codec: Codec, tr: Trace, k: nat)
    requires Lawful(codec) && IsRun(engine, codec, tr) && k < |tr.events| && tr.events[k].Hear?
    requires Linked(engine, codec, tr, k)
    requires var line := tr.states[k].hosts[tr.events[k].host].stdout[0]; line.Answered? && line.id == -1
    ensures tr.states[k + 1].client == tr.states[k].client
  {
    RunRefines(engine, codec, tr, k);
  }
}
