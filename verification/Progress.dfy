/**
 * Beside what never goes wrong, what does go through: from every state of every run, a call that a client
 * sends while a consumer loop of its service and its own reply loop stand idle can be carried to its answer.
 */
module Progress {
  import opened Wrappers
  import opened JsonValues
  import opened CallTable
  import opened Envelope
  import opened Protocol
  import opened Intents
  import opened ReplyStreams
  import opened Clients
  import opened EndToEnd
  import opened Group = CommandGroup
  import opened HandingOut
  import Ts = RedisClient
  import Py = PythonClient
  import Redis = RedisSystem

  // ---------------------------------------------------------------------------------------
  // The client.
  // ---------------------------------------------------------------------------------------

  /** The reply loop is about to read, and has read all there is. */
  ghost predicate IsCaughtUp(c: Client, s: ReplyStream) {
    && CursorOf(c).fetched.None? && (forall p: nat :: !Unread(CursorOf(c), s, p))
    && match c
       case TypeScriptClient(ts) => ts.looping
       case PythonClient(py) => py.looping
  }

  /** The call is under way: its XADD has been issued, and nothing has settled it. */
  ghost predicate IsUnderWay(c: Client, id: string) {
    match c
    case TypeScriptClient(ts) => id in ts.table.keys
    case PythonClient(py) => id in py.table.keys && id in py.table.calls && py.table.calls[id] == Py.Call(Py.Unset, Py.Adding)
  }

  function SendingOf(c: Client, id: string): Move {
    if c.TypeScriptClient? then TypeScriptMove(Ts.SendOut(id)) else PythonMove(Py.SendOut(id))
  }

  lemma SendingStarts(c: Client, s: ReplyStream, id: string)
    requires ClientInv(c, s) && IsStarted(c) && IsCaughtUp(c, s) && id !in Calls(c)
    ensures CanMove(c, SendingOf(c, id)) && Sent(SendingOf(c, id)) == {id}
    ensures var after := MoveOf(c, s, SendingOf(c, id));
            && ClientInv(after, s) && IsUnderWay(after, id) && IsCaughtUp(after, s)
            && Calls(after) == Calls(c)[id := Open] && LanguageOf(after) == LanguageOf(c)
  {
    MoveIsSound(c, s, SendingOf(c, id));
    if c.TypeScriptClient? { Ts.SendKeepsPending(c.ts.table, id); }
  }

  /** The moves of one client, in turn. */
  function Play(c: Client, s: ReplyStream, moves: seq<Move>): Option<Client>
    decreases |moves|
  {
    if moves == [] then Some(c)
    else if CanMove(c, moves[0]) then Play(MoveOf(c, s, moves[0]), s, moves[1..])
    else None
  }

  /** From a reply in the stream to the caller: in Python the coroutine has to resume twice. */
  function Receiving(lang: Language, id: string): seq<Move> {
    if lang.TypeScript? then [TypeScriptMove(Ts.ReadReplies), TypeScriptMove(Ts.ProcessReplies)]
    else [PythonMove(Py.AddReturns(id)), PythonMove(Py.ReadReplies), PythonMove(Py.ProcessReplies),
          PythonMove(Py.ResumeSet(id))]
  }

  /** `p` is the one entry that the client has not read, and it answers the call. */
  ghost predicate IsOnlyNews(c: Client, s: ReplyStream, p: nat, id: string) {
    p < |s.items| && Names(s.items[p], id) && forall q: nat :: Unread(CursorOf(c), s, q) <==> q == p
  }

  lemma TypeScriptReceives(c: Ts.Client, s: ReplyStream, p: nat, id: string)
    requires Ts.ClientInv(c, s) && c.looping && c.cursor.fetched.None? && id in c.table.keys
    requires IsOnlyNews(TypeScriptClient(c), s, p, id)
    ensures Play(TypeScriptClient(c), s, Receiving(TypeScript, id)).Some?
    ensures var after := Play(TypeScriptClient(c), s, Receiving(TypeScript, id)).value;
            LanguageOf(after) == TypeScript && id in Calls(after) && Calls(after)[id] == Closed(Replied(s.items[p].outcome))
  {
    assert forall q: nat :: Unread(c.cursor, s, q) <==> Unread(CursorOf(TypeScriptClient(c)), s, q);
    assert Unread(c.cursor, s, p) && forall q: nat | Unread(c.cursor, s, q) :: q == p;
    Ts.ReplyIsDelivered(c, s, s, p, id);
    var moves := Receiving(TypeScript, id);
    assert moves[1..] == [moves[1]] && moves[1..][1..] == [];
    var fetched := Ts.StepClient(c, s, Ts.ReadReplies);
    assert Play(TypeScriptClient(fetched), s, [moves[1]]) == Some(TypeScriptClient(Ts.StepClient(fetched, s, Ts.ProcessReplies)));
  }

  lemma PlayFour(c: Client, s: ReplyStream, moves: seq<Move>)
    requires |moves| == 4 && CanMove(c, moves[0])
    requires CanMove(MoveOf(c, s, moves[0]), moves[1])
    requires CanMove(MoveOf(MoveOf(c, s, moves[0]), s, moves[1]), moves[2])
    requires CanMove(MoveOf(MoveOf(MoveOf(c, s, moves[0]), s, moves[1]), s, moves[2]), moves[3])
    ensures Play(c, s, moves) == Some(MoveOf(MoveOf(MoveOf(MoveOf(c, s, moves[0]), s, moves[1]), s, moves[2]), s, moves[3]))
  {
    var (a, b, d) := (moves[1..], moves[2..], moves[3..]);
    assert a[1..] == b && b[1..] == d && d[1..] == [];
    var third := MoveOf(MoveOf(MoveOf(c, s, moves[0]), s, moves[1]), s, moves[2]);
    assert Play(third, s, d) == Some(MoveOf(third, s, moves[3]));
    assert Play(MoveOf(MoveOf(c, s, moves[0]), s, moves[1]), s, b) == Play(third, s, d);
  }

  lemma PythonReceives(c: Py.Client, s: ReplyStream, p: nat, id: string)
    requires Py.ClientInv(c, s) && c.looping && c.cursor.fetched.None? && IsUnderWay(PythonClient(c), id)
    requires IsOnlyNews(PythonClient(c), s, p, id)
    ensures Play(PythonClient(c), s, Receiving(Python, id)).Some?
    ensures var after := Play(PythonClient(c), s, Receiving(Python, id)).value;
            LanguageOf(after) == Python && id in Calls(after) && Calls(after)[id] == Closed(Replied(s.items[p].outcome))
  {
    var waiting := Py.StepClient(c, s, Py.AddReturns(id));
    Py.StepMovesSenderExactly(c, s, Py.AddReturns(id), id);
    Py.StepKeepsPending(c, s, Py.AddReturns(id));
    assert waiting.table.calls[id] == Py.Call(Py.Unset, Py.Awaiting) && waiting.table.keys == c.table.keys;
    assert forall q: nat :: Unread(c.cursor, s, q) <==> Unread(CursorOf(PythonClient(c)), s, q);
    assert Unread(waiting.cursor, s, p) && forall q: nat | Unread(waiting.cursor, s, q) :: q == p;
    Py.ReplyIsDelivered(waiting, s, s, p, id);
    var fetched := Py.StepClient(waiting, s, Py.ReadReplies);
    var settled := Py.StepClient(fetched, s, Py.ProcessReplies);
    Py.SetFutureIsReturned(settled, s, id, Replied(s.items[p].outcome));
    PlayFour(PythonClient(c), s, Receiving(Python, id));
  }

  lemma Receives(c: Client, s: ReplyStream, p: nat, id: string)
    requires ClientInv(c, s) && IsUnderWay(c, id) && IsOnlyNews(c, s, p, id)
    requires CursorOf(c).fetched.None? && (if c.TypeScriptClient? then c.ts.looping else c.py.looping)
    ensures Play(c, s, Receiving(LanguageOf(c), id)).Some?
    ensures var after := Play(c, s, Receiving(LanguageOf(c), id)).value;
            LanguageOf(after) == LanguageOf(c) && id in Calls(after) && Calls(after)[id] == Closed(Replied(s.items[p].outcome))
  {
    match c {
      case TypeScriptClient(ts) => TypeScriptReceives(ts, s, p, id);
      case PythonClient(py) => PythonReceives(py, s, p, id);
    }
  }

  // ---------------------------------------------------------------------------------------
  // The server.
  // ---------------------------------------------------------------------------------------

  /** Loop `l` has nothing but entry `e`. */
  ghost predicate HasOnly(g: Redis.Redis, l: nat, e: nat, pc: Pc) {
    BusyLoop(g, l) && |g.loops[l].batch| == 1 && Head(g, l) == e && g.loops[l].pc == pc
  }

  /** Handling left alone what it does not concern. */
  ghost predicate SameLog(g: Redis.Redis, h: Redis.Redis, l: nat) {
    && h.log == g.log && l in g.loops && l in h.loops
    && h.loops[l].service == g.loops[l].service && h.loops[l].kind == g.loops[l].kind
  }

  lemma OnlyUnreadIsRead(g: Redis.Redis, l: nat, e: nat)
    requires Enabled(g, Read(l)) && UnreadOf(g, g.loops[l].service) == {e}
    ensures var h := Apply(g, Read(l));
            && HasOnly(h, l, e, Ready) && SameLog(g, h, l)
            && h.dispatches == g.dispatches && h.streams == g.streams
  {
    var taken := ReadTakesOldest(g, l);
    assert |{e}| == 1;
    SameSize(taken, {e});
  }

  lemma ReadIsDispatched(g: Redis.Redis, l: nat, e: nat)
    requires HasOnly(g, l, e, Ready) && !g.log[e].body.Poison?
    ensures Enabled(g, Begin(l))
    ensures var h := Apply(g, Begin(l));
            && HasOnly(h, l, e, Dispatching(|g.dispatches|)) && SameLog(g, h, l) && h.streams == g.streams
            && |h.dispatches| == |g.dispatches| + 1 && h.dispatches[|g.dispatches|] == Dispatch(g.loops[l].batch[0], Running)
  {
  }

  lemma PoisonIsSkipped(g: Redis.Redis, l: nat, e: nat)
    requires HasOnly(g, l, e, Ready) && g.log[e].body.Poison?
    ensures Enabled(g, Begin(l))
    ensures var h := Apply(g, Begin(l));
            && HasOnly(h, l, e, Acking(None)) && SameLog(g, h, l) && h.streams == g.streams && h.dispatches == g.dispatches
  {
  }

  lemma DispatchIsReturned(g: Redis.Redis, l: nat, e: nat, k: nat, reply: Option<Json>)
    requires HasOnly(g, l, e, Dispatching(k)) && k < |g.dispatches|
    requires reply.Some? ==> g.log[e].body.Call?
    ensures Enabled(g, Return(l, reply))
    ensures var h := Apply(g, Return(l, reply));
            && HasOnly(h, l, e, if reply.Some? && g.log[e].replyTo.Some? then Replying(k, reply.value) else Acking(Some(k)))
            && SameLog(g, h, l) && h.streams == g.streams
            && h.dispatches == g.dispatches[k := g.dispatches[k].(progress := Group.Returned(reply))]
  {
  }

  lemma ReplyIsAppended(g: Redis.Redis, l: nat, e: nat, k: nat, outcome: Json)
    requires HasOnly(g, l, e, Replying(k, outcome)) && g.log[e].body.Call? && g.log[e].replyTo.Some?
    ensures Enabled(g, AddReply(l, 0))
    ensures var h, name := Apply(g, AddReply(l, 0)), g.log[e].replyTo.value;
            && HasOnly(h, l, e, Acking(Some(k))) && SameLog(g, h, l)
            && StreamOf(h.streams, name).items == StreamOf(g.streams, name).items + [Message(g.log[e].body.id, outcome, k)]
            && StreamOf(h.streams, name).trimmed == StreamOf(g.streams, name).trimmed && h.dispatches == g.dispatches
  {
  }

  lemma HandledIsAcknowledged(g: Redis.Redis, l: nat, e: nat, pc: Pc)
    requires HasOnly(g, l, e, pc) && pc.Acking?
    ensures Enabled(g, Ack(l))
    ensures var h := Apply(g, Ack(l));
            && IdleLoop(h, l, g.loops[l].kind) && SameLog(g, h, l) && h.streams == g.streams && h.dispatches == g.dispatches
            && e in h.acked && e !in h.pel
  {
  }

  // ---------------------------------------------------------------------------------------
  // Paths of the whole system.
  // ---------------------------------------------------------------------------------------

  /** The steps lead from `s` to `t`; calls go to their services, and loops run the dispatchers of theirs. */
  ghost predicate Leads(d: Deployment, intents: map<string, Intent>, s: Redis.System, steps: seq<Redis.Step>, t: Redis.System)
    decreases |steps|
  {
    if steps == [] then s == t
    else
      && Redis.Enabled(s, steps[0]) && Intends(intents, steps[0]) && Serves(d, intents, s, steps[0])
      && Leads(d, intents, Redis.Apply(s, steps[0]), steps[1..], t)
  }

  lemma {:induction false} LeadsOn(d: Deployment, intents: map<string, Intent>, s: Redis.System, steps: seq<Redis.Step>,
                                   t: Redis.System, step: Redis.Step)
    requires Leads(d, intents, s, steps, t)
    requires Redis.Enabled(t, step) && Intends(intents, step) && Serves(d, intents, t, step)
    ensures Leads(d, intents, s, steps + [step], Redis.Apply(t, step))
    decreases |steps|
  {
    if steps == [] {
      assert [step][1..] == [];
    } else {
      LeadsOn(d, intents, Redis.Apply(s, steps[0]), steps[1..], t, step);
      assert (steps + [step])[1..] == steps[1..] + [step];
    }
  }

  lemma RunGoesOn(d: Deployment, intents: map<string, Intent>, states: seq<Redis.System>, steps: seq<Redis.Step>,
                  step: Redis.Step)
    requires IsServedRun(d, intents, states, steps)
    requires Redis.Enabled(states[|steps|], step) && Intends(intents, step) && Serves(d, intents, states[|steps|], step)
    ensures IsServedRun(d, intents, states + [Redis.Apply(states[|steps|], step)], steps + [step])
  {
    var more, longer := states + [Redis.Apply(states[|steps|], step)], steps + [step];
    forall i | 0 <= i < |longer|
      ensures Redis.Enabled(more[i], longer[i]) && more[i + 1] == Redis.Apply(more[i], longer[i])
      ensures Intends(intents, longer[i]) && Serves(d, intents, more[i], longer[i])
    {
      if i < |steps| { assert more[i] == states[i] && more[i + 1] == states[i + 1] && longer[i] == steps[i]; }
    }
  }

  /** A served run continued along a path is a served run. */
  lemma {:induction false} PathExtendsRun(d: Deployment, intents: map<string, Intent>, states: seq<Redis.System>,
                                          steps: seq<Redis.Step>, path: seq<Redis.Step>, t: Redis.System)
    returns (longer: seq<Redis.System>, more: seq<Redis.Step>)
    requires IsServedRun(d, intents, states, steps) && Leads(d, intents, states[|steps|], path, t)
    ensures IsServedRun(d, intents, longer, more) && states <= longer && steps <= more
    ensures |longer| == |more| + 1 && longer[|more|] == t
    decreases |path|
  {
    if path == [] {
      longer, more := states, steps;
    } else {
      RunGoesOn(d, intents, states, steps, path[0]);
      var next := states + [Redis.Apply(states[|steps|], path[0])];
      longer, more := PathExtendsRun(d, intents, next, steps + [path[0]], path[1..], t);
    }
  }

  lemma MoveIsEnabled(t: Redis.System, name: string, move: Move)
    requires name in t.clients && CanMove(t.clients[name], move) && Sent(move) !! t.owner.Keys
    ensures Redis.Enabled(t, Redis.Act(name, move, ""))
  {
  }

  lemma QuietMove(t: Redis.System, name: string, move: Move)
    requires Redis.Enabled(t, Redis.Act(name, move, "")) && Sent(move) == {}
    ensures Redis.Apply(t, Redis.Act(name, move, ""))
            == t.(clients := t.clients[name := MoveOf(t.clients[name], Redis.Stream(t, name), move)])
  {
  }

  lemma LeadsByMove(d: Deployment, intents: map<string, Intent>, s: Redis.System, steps: seq<Redis.Step>,
                    t: Redis.System, name: string, move: Move)
    requires Leads(d, intents, s, steps, t) && name in t.clients && CanMove(t.clients[name], move) && Sent(move) == {}
    ensures Leads(d, intents, s, steps + [Redis.Act(name, move, "")],
                  t.(clients := t.clients[name := MoveOf(t.clients[name], Redis.Stream(t, name), move)]))
  {
    MoveIsEnabled(t, name, move);
    QuietMove(t, name, move);
    LeadsOn(d, intents, s, steps, t, Redis.Act(name, move, ""));
  }

  /** A client's moves, none of which sends. */
  lemma {:induction false} LeadsThroughMoves(d: Deployment, intents: map<string, Intent>, s: Redis.System,
                                             steps: seq<Redis.Step>, t: Redis.System, name: string, moves: seq<Move>)
    returns (longer: seq<Redis.Step>, u: Redis.System)
    requires Leads(d, intents, s, steps, t) && name in t.clients
    requires Play(t.clients[name], Redis.Stream(t, name), moves).Some? && forall m | m in moves :: Sent(m) == {}
    ensures Leads(d, intents, s, longer, u) && name in u.clients && u == t.(clients := u.clients)
    ensures u.clients[name] == Play(t.clients[name], Redis.Stream(t, name), moves).value
    decreases |moves|
  {
    if moves == [] {
      longer, u := steps, t;
    } else {
      assert moves[0] in moves && forall m | m in moves[1..] :: m in moves;
      LeadsByMove(d, intents, s, steps, t, name, moves[0]);
      var next := t.(clients := t.clients[name := MoveOf(t.clients[name], Redis.Stream(t, name), moves[0])]);
      longer, u := LeadsThroughMoves(d, intents, s, steps + [Redis.Act(name, moves[0], "")], next, name, moves[1..]);
    }
  }

  // ---------------------------------------------------------------------------------------
  // One call, from its sending to its answer.
  // ---------------------------------------------------------------------------------------

  lemma SendingPutsOnWire(s: Redis.System, name: string, id: string, service: string)
    requires name in s.clients && id !in s.owner
    requires CanMove(s.clients[name], SendingOf(s.clients[name], id)) && Sent(SendingOf(s.clients[name], id)) == {id}
    ensures var send := Redis.Act(name, SendingOf(s.clients[name], id), service);
            && Redis.Enabled(s, send)
            && var t := Redis.Apply(s, send);
               && t.redis == s.redis && id in t.wire && t.wire[id] == Group.Entry(service, Group.Call(id), Some(name))
               && id in t.owner && t.owner[id] == name
               && t.clients == s.clients[name := MoveOf(s.clients[name], Redis.Stream(s, name), SendingOf(s.clients[name], id))]
  {
  }

  lemma WireReachesLog(s: Redis.System, id: string)
    requires id in s.wire
    ensures Redis.Enabled(s, Redis.CallArrives(id))
    ensures var t := Redis.Apply(s, Redis.CallArrives(id));
            && t.redis == s.redis.(log := s.redis.log + [s.wire[id]]) && t.owner == s.owner && t.clients == s.clients
  {
  }

  lemma CallReachesLog(d: Deployment, intents: map<string, Intent>, s: Redis.System, name: string, id: string, service: string)
    returns (steps: seq<Redis.Step>, t: Redis.System)
    requires name in s.clients && id !in s.owner && IsStarted(s.clients[name]) && id !in Calls(s.clients[name])
    requires ClientInv(s.clients[name], Redis.Stream(s, name)) && IsCaughtUp(s.clients[name], Redis.Stream(s, name))
    requires id in intents && intents[id].service == service
    ensures Leads(d, intents, s, steps, t)
    ensures t.redis == s.redis.(log := s.redis.log + [Group.Entry(service, Group.Call(id), Some(name))])
    ensures id in t.owner && t.owner[id] == name && t.clients.Keys == s.clients.Keys
    ensures var c := t.clients[name];
            && LanguageOf(c) == LanguageOf(s.clients[name])
            && ClientInv(c, Redis.Stream(t, name)) && IsUnderWay(c, id) && IsCaughtUp(c, Redis.Stream(t, name))
  {
    var send := Redis.Act(name, SendingOf(s.clients[name], id), service);
    SendingStarts(s.clients[name], Redis.Stream(s, name), id);
    SendingPutsOnWire(s, name, id, service);
    var sent := Redis.Apply(s, send);
    WireReachesLog(sent, id);
    LeadsOn(d, intents, s, [], s, send);
    LeadsOn(d, intents, s, [] + [send], sent, Redis.CallArrives(id));
    steps, t := [] + [send] + [Redis.CallArrives(id)], Redis.Apply(sent, Redis.CallArrives(id));
  }

  /** What serving an entry does to the system. */
  ghost predicate Serving(s: Redis.System, t: Redis.System) {
    t == s.(redis := t.redis)
  }

  lemma ServeOn(d: Deployment, intents: map<string, Intent>, s: Redis.System, steps: seq<Redis.Step>, t: Redis.System,
                step: ServerStep)
    returns (longer: seq<Redis.Step>, u: Redis.System)
    requires Leads(d, intents, s, steps, t) && Enabled(t.redis, step)
    requires step.Return? && t.redis.log[Head(t.redis, step.l)].body.Call? ==>
               var id := t.redis.log[Head(t.redis, step.l)].body.id;
               id in intents ==> step.reply == AnswerOf(d, t.redis.loops[step.l].service, intents[id], id)
    ensures u == t.(redis := Apply(t.redis, step)) && Leads(d, intents, s, longer, u)
  {
    LeadsOn(d, intents, s, steps, t, Redis.Serve(step));
    longer, u := steps + [Redis.Serve(step)], Redis.Apply(t, Redis.Serve(step));
  }

  /** The reply is what the dispatcher of the loop's service gives for a call. */
  ghost predicate IsAnswerTo(d: Deployment, intents: map<string, Intent>, g: Redis.Redis, l: nat, e: nat, reply: Option<Json>)
    requires l in g.loops && e < |g.log|
  {
    && (reply.Some? ==> g.log[e].body.Call?)
    && (g.log[e].body.Call? && g.log[e].body.id in intents ==>
          reply == AnswerOf(d, g.loops[l].service, intents[g.log[e].body.id], g.log[e].body.id))
  }

  /** The entry is read, dispatched and returned from. */
  lemma EntryIsDispatched(d: Deployment, intents: map<string, Intent>, s: Redis.System, steps: seq<Redis.Step>,
                          t: Redis.System, l: nat, e: nat, reply: Option<Json>)
    returns (longer: seq<Redis.Step>, u: Redis.System)
    requires Leads(d, intents, s, steps, t) && Enabled(t.redis, Read(l)) && UnreadOf(t.redis, t.redis.loops[l].service) == {e}
    requires e < |t.redis.log| && !t.redis.log[e].body.Poison? && IsAnswerTo(d, intents, t.redis, l, e, reply)
    ensures Leads(d, intents, s, longer, u) && Serving(t, u) && SameLog(t.redis, u.redis, l) && u.redis.streams == t.redis.streams
    ensures |u.redis.dispatches| == |t.redis.dispatches| + 1
    ensures u.redis.dispatches[|t.redis.dispatches|].progress == Group.Returned(reply)
    ensures HasOnly(u.redis, l, e,
                    if reply.Some? && t.redis.log[e].replyTo.Some? then Replying(|t.redis.dispatches|, reply.value)
                    else Acking(Some(|t.redis.dispatches|)))
  {
    var k := |t.redis.dispatches|;
    OnlyUnreadIsRead(t.redis, l, e);
    longer, u := ServeOn(d, intents, s, steps, t, Read(l));
    ReadIsDispatched(u.redis, l, e);
    longer, u := ServeOn(d, intents, s, longer, u, Begin(l));
    DispatchIsReturned(u.redis, l, e, k, reply);
    longer, u := ServeOn(d, intents, s, longer, u, Return(l, reply));
  }

  /** The entry is answered, if there is an answer and somewhere to send it, and acknowledged. */
  lemma EntryIsServed(d: Deployment, intents: map<string, Intent>, s: Redis.System, steps: seq<Redis.Step>,
                      t: Redis.System, l: nat, e: nat, reply: Option<Json>)
    returns (longer: seq<Redis.Step>, u: Redis.System)
    requires Leads(d, intents, s, steps, t) && Enabled(t.redis, Read(l)) && UnreadOf(t.redis, t.redis.loops[l].service) == {e}
    requires e < |t.redis.log| && !t.redis.log[e].body.Poison? && IsAnswerTo(d, intents, t.redis, l, e, reply)
    ensures Leads(d, intents, s, longer, u) && Serving(t, u) && SameLog(t.redis, u.redis, l)
    ensures e in u.redis.acked && e !in u.redis.pel && IdleLoop(u.redis, l, Consumer)
    ensures |u.redis.dispatches| == |t.redis.dispatches| + 1
    ensures u.redis.dispatches[|t.redis.dispatches|].progress == Group.Returned(reply)
    ensures if reply.None? || t.redis.log[e].replyTo.None? then u.redis.streams == t.redis.streams
            else
              var name, k := t.redis.log[e].replyTo.value, |t.redis.dispatches|;
              Redis.Stream(u, name) == Redis.Stream(t, name).(items := Redis.Stream(t, name).items
                                                                      + [Message(t.redis.log[e].body.id, reply.value, k)])
  {
    var k := |t.redis.dispatches|;
    longer, u := EntryIsDispatched(d, intents, s, steps, t, l, e, reply);
    if reply.Some? && t.redis.log[e].replyTo.Some? {
      ReplyIsAppended(u.redis, l, e, k, reply.value);
      longer, u := ServeOn(d, intents, s, longer, u, AddReply(l, 0));
    }
    HandledIsAcknowledged(u.redis, l, e, Acking(Some(k)));
    longer, u := ServeOn(d, intents, s, longer, u, Ack(l));
  }

  /** What cannot be read is acknowledged without a dispatch. */
  lemma PoisonIsDropped(d: Deployment, intents: map<string, Intent>, s: Redis.System, steps: seq<Redis.Step>,
                        t: Redis.System, l: nat, e: nat)
    returns (longer: seq<Redis.Step>, u: Redis.System)
    requires Leads(d, intents, s, steps, t) && Enabled(t.redis, Read(l)) && UnreadOf(t.redis, t.redis.loops[l].service) == {e}
    requires t.redis.log[e].body.Poison?
    ensures Leads(d, intents, s, longer, u) && Serving(t, u)
    ensures u.redis.streams == t.redis.streams && u.redis.dispatches == t.redis.dispatches
    ensures e in u.redis.acked && e !in u.redis.pel && IdleLoop(u.redis, l, Consumer)
  {
    OnlyUnreadIsRead(t.redis, l, e);
    longer, u := ServeOn(d, intents, s, steps, t, Read(l));
    PoisonIsSkipped(u.redis, l, e);
    longer, u := ServeOn(d, intents, s, longer, u, Begin(l));
    HandledIsAcknowledged(u.redis, l, e, Acking(None));
    longer, u := ServeOn(d, intents, s, longer, u, Ack(l));
  }

  lemma AppendedIsOnlyNews(c: Client, s: ReplyStream, t: ReplyStream, id: string, outcome: Json, k: nat)
    requires ClientInv(c, s) && IsCaughtUp(c, s) && t == s.(items := s.items + [Message(id, outcome, k)])
    ensures IsOnlyNews(c, t, |s.items|, id) && ClientInv(c, t)
  {
    StreamGrowthKeepsClient(c, s, t);
    assert forall q: nat :: Unread(CursorOf(c), t, q) ==> q == |s.items| || Unread(CursorOf(c), s, q);
  }

  /** Someone serves the service, and is up to date. */
  ghost predicate IsServedBy(g: Redis.Redis, l: nat, service: string) {
    IdleLoop(g, l, Consumer) && g.loops[l].service == service && service in g.mark && UnreadOf(g, service) == {}
  }

  lemma AppendedIsOnlyUnread(g: Redis.Redis, h: Redis.Redis, l: nat, entry: Group.Entry)
    requires GroupInv(g) && IsServedBy(g, l, entry.service) && h == g.(log := g.log + [entry])
    ensures Enabled(h, Read(l)) && UnreadOf(h, h.loops[l].service) == {|g.log|}
  {
    assert forall e: nat | e < |g.log| && g.mark[entry.service] <= e && g.log[e].service == entry.service ::
        e in UnreadOf(g, entry.service);
  }

  /** The news reaches the caller. */
  lemma AnswerReachesCaller(d: Deployment, intents: map<string, Intent>, s: Redis.System, steps: seq<Redis.Step>,
                            t: Redis.System, name: string, id: string, before: ReplyStream, reply: Json, k: nat)
    returns (longer: seq<Redis.Step>, u: Redis.System)
    requires Leads(d, intents, s, steps, t) && name in t.clients && id in t.owner && t.owner[id] == name
    requires ClientInv(t.clients[name], before) && IsUnderWay(t.clients[name], id) && IsCaughtUp(t.clients[name], before)
    requires Redis.Stream(t, name) == before.(items := before.items + [Message(id, reply, k)])
    ensures Leads(d, intents, s, longer, u) && u.redis == t.redis && Redis.StateOf(u, id) == Closed(Replied(reply))
  {
    var c, now := t.clients[name], Redis.Stream(t, name);
    AppendedIsOnlyNews(c, before, now, id, reply, k);
    Receives(c, now, |before.items|, id);
    longer, u := LeadsThroughMoves(d, intents, s, steps, t, name, Receiving(LanguageOf(c), id));
  }

  lemma UnderWayIsOpen(t: Redis.System, name: string, s: ReplyStream, id: string)
    requires name in t.clients && id in t.owner && t.owner[id] == name
    requires ClientInv(t.clients[name], s) && IsUnderWay(t.clients[name], id)
    ensures Redis.StateOf(t, id).Open?
  {
  }

  /** A call that is sent now can be carried out, and answered with what the dispatcher of its service gives. */
  lemma CallCanBeServed(d: Deployment, intents: map<string, Intent>, s: Redis.System, name: string, id: string, l: nat)
    returns (steps: seq<Redis.Step>, t: Redis.System)
    requires Redis.Inv(s) && id in intents
    requires name in s.clients && id !in s.owner && IsStarted(s.clients[name])
    requires IsCaughtUp(s.clients[name], Redis.Stream(s, name)) && IsServedBy(s.redis, l, intents[id].service)
    ensures Leads(d, intents, s, steps, t) && |s.redis.log| in t.redis.acked
    ensures match AnswerOf(d, intents[id].service, intents[id], id)
            case None => Redis.StateOf(t, id).Open?
            case Some(reply) => Redis.StateOf(t, id) == Closed(Replied(reply))
  {
    var service, e := intents[id].service, |s.redis.log|;
    var reply := AnswerOf(d, service, intents[id], id);
    assert id !in Calls(s.clients[name]);
    steps, t := CallReachesLog(d, intents, s, name, id, service);
    var before := Redis.Stream(t, name);
    AppendedIsOnlyUnread(s.redis, t.redis, l, Group.Entry(service, Group.Call(id), Some(name)));
    steps, t := EntryIsServed(d, intents, s, steps, t, l, e, reply);
    if reply.Some? {
      steps, t := AnswerReachesCaller(d, intents, s, steps, t, name, id, before, reply.value, |s.redis.dispatches|);
    } else {
      UnderWayIsOpen(t, name, before, id);
    }
  }

  lemma AnswerIsOutcome(d: Deployment, clientLang: Language, intent: Intent, id: string)
    requires ValidIntent(intent)
    ensures var reply, service := AnswerOf(d, intent.service, intent, id), EntryFor(d, intent.service);
            var local := LocalCall(d.lang(intent.service), service, intent.name, intent.params);
            && (reply.Some? <==> local.Value? || local.RpcFailure?)
            && (reply.Some? ==> Unwrap(clientLang, reply.value) == Expected(clientLang, d.lang(intent.service), service, intent))
  {
    AnswerMeansLocalCall(clientLang, d.lang(intent.service), EntryFor(d, intent.service), intent, id);
    LocalCallHasFormOrIsSilent(d.lang(intent.service), EntryFor(d, intent.service), intent);
  }

  /**
   * In `t` the call that came next after `s` is carried out: its entry is acknowledged and, if the local call
   * on the service has a wire form, the caller has it, as a client of its language reports it.
   */
  ghost predicate IsCarriedOut(d: Deployment, intent: Intent, s: Redis.System, t: Redis.System, name: string, id: string)
    requires name in s.clients
  {
    var lang := LanguageOf(s.clients[name]);
    var service := if intent.service in d.services then Some(d.services[intent.service]) else None;
    var local := LocalCall(d.lang(intent.service), service, intent.name, intent.params);
    && |s.redis.log| in t.redis.acked
    && if local.Value? || local.RpcFailure?
       then Redis.StateOf(t, id).Closed? && Redis.StateOf(t, id).how.Replied?
            && Unwrap(lang, Redis.StateOf(t, id).how.outcome) == Expected(lang, d.lang(intent.service), service, intent)
       else Redis.StateOf(t, id).Open?
  }

  lemma CallCanBeCarriedOut(d: Deployment, intents: map<string, Intent>, s: Redis.System, name: string, id: string, l: nat)
    returns (steps: seq<Redis.Step>, t: Redis.System)
    requires Redis.Inv(s) && id in intents && ValidIntent(intents[id])
    requires name in s.clients && id !in s.owner && IsStarted(s.clients[name])
    requires IsCaughtUp(s.clients[name], Redis.Stream(s, name)) && IsServedBy(s.redis, l, intents[id].service)
    ensures Leads(d, intents, s, steps, t) && IsCarriedOut(d, intents[id], s, t, name, id)
  {
    steps, t := CallCanBeServed(d, intents, s, name, id, l);
    AnswerIsOutcome(d, LanguageOf(s.clients[name]), intents[id], id);
  }

  /** Every run can be continued so that a call made next is carried out. */
  lemma CallCanBeAnswered(d: Deployment, intents: map<string, Intent>, states: seq<Redis.System>, steps: seq<Redis.Step>,
                          name: string, id: string, l: nat)
    returns (longer: seq<Redis.System>, more: seq<Redis.Step>)
    requires IsServedRun(d, intents, states, steps) && id in intents && ValidIntent(intents[id])
    requires var s := states[|steps|];
             && name in s.clients && id !in s.owner && IsStarted(s.clients[name])
             && IsCaughtUp(s.clients[name], Redis.Stream(s, name)) && IsServedBy(s.redis, l, intents[id].service)
    ensures IsServedRun(d, intents, longer, more) && states <= longer && steps <= more
    ensures IsCarriedOut(d, intents[id], states[|steps|], longer[|more|], name, id)
  {
    Redis.RunKeepsInv(states, steps, |steps|);
    var path, t := CallCanBeCarriedOut(d, intents, states[|steps|], name, id, l);
    longer, more := PathExtendsRun(d, intents, states, steps, path, t);
  }

  /** A notification that a started client sends now can reach a dispatcher of its service, once, and nobody is answered. */
  lemma NotificationCanBeServed(d: Deployment, intents: map<string, Intent>, s: Redis.System, name: string,
                                service: string, l: nat)
    returns (steps: seq<Redis.Step>, t: Redis.System)
    requires GroupInv(s.redis) && name in s.clients && IsStarted(s.clients[name]) && IsServedBy(s.redis, l, service)
    ensures Leads(d, intents, s, steps, t) && t.clients == s.clients && t.redis.streams == s.redis.streams
    ensures |s.redis.log| in t.redis.acked && |t.redis.dispatches| == |s.redis.dispatches| + 1
    ensures t.redis.dispatches[|s.redis.dispatches|].progress == Group.Returned(None)
  {
    var send := Redis.SendNotification(name, service);
    var sent := Redis.Apply(s, send);
    LeadsOn(d, intents, s, [], s, send);
    AppendedIsOnlyUnread(s.redis, sent.redis, l, Group.Entry(service, Silent, None));
    steps, t := EntryIsServed(d, intents, s, [] + [send], sent, l, |s.redis.log|, None);
  }

  /** A foreign entry without an acceptable envelope is acknowledged, and nothing runs for it. */
  lemma StrayCommandCanBeDropped(d: Deployment, intents: map<string, Intent>, s: Redis.System, service: string, l: nat)
    returns (steps: seq<Redis.Step>, t: Redis.System)
    requires GroupInv(s.redis) && IsServedBy(s.redis, l, service)
    ensures Leads(d, intents, s, steps, t) && t.clients == s.clients
    ensures t.redis.streams == s.redis.streams && t.redis.dispatches == s.redis.dispatches && |s.redis.log| in t.redis.acked
  {
    var stray := Redis.StrayCommand(service);
    var sent := Redis.Apply(s, stray);
    LeadsOn(d, intents, s, [], s, stray);
    AppendedIsOnlyUnread(s.redis, sent.redis, l, Group.Entry(service, Poison, None));
    steps, t := PoisonIsDropped(d, intents, s, [] + [stray], sent, l, |s.redis.log|);
  }

  /** The steps by which a client of either language and a server for one service come up. */
  function ComingUp(name: string, lang: Language, service: string, consumer: string, idleMs: nat, maxLen: nat): seq<Redis.Step> {
    [Redis.Join(name, lang),
     Redis.Act(name, if lang.TypeScript? then TypeScriptMove(Ts.StartUp) else PythonMove(Py.StartUp), ""),
     Redis.Serve(CreateGroup(service)),
     Redis.Serve(StartLoop(0, service, consumer, Consumer, idleMs, maxLen))]
  }

  lemma ClientComesUp(lang: Language, s: ReplyStream)
    requires s == NO_REPLIES
    ensures var c, move := NewClient(lang), if lang.TypeScript? then TypeScriptMove(Ts.StartUp) else PythonMove(Py.StartUp);
            && CanMove(c, move) && Sent(move) == {}
            && IsStarted(MoveOf(c, s, move)) && IsCaughtUp(MoveOf(c, s, move), s) && LanguageOf(MoveOf(c, s, move)) == lang
  {
    Ts.NewClientCanStart(s);
    Py.NewClientCanStart(s);
  }

  /** From nothing, a client and a server come up, and then every call can be answered. */
  lemma ReadinessIsReachable(d: Deployment, intents: map<string, Intent>, name: string, lang: Language, service: string,
                             consumer: string, idleMs: nat, maxLen: nat)
    returns (t: Redis.System)
    ensures Leads(d, intents, Redis.INITIAL, ComingUp(name, lang, service, consumer, idleMs, maxLen), t)
    ensures name in t.clients && LanguageOf(t.clients[name]) == lang && IsStarted(t.clients[name]) && t.owner == map[]
    ensures IsCaughtUp(t.clients[name], Redis.Stream(t, name)) && IsServedBy(t.redis, 0, service)
  {
    var s, steps := Redis.INITIAL, ComingUp(name, lang, service, consumer, idleMs, maxLen);
    LeadsOn(d, intents, s, [], s, steps[0]);
    var joined := Redis.Apply(s, steps[0]);
    ClientComesUp(lang, NO_REPLIES);
    LeadsByMove(d, intents, s, [steps[0]], joined, name, steps[1].move);
    var up := Redis.Apply(joined, steps[1]);
    QuietMove(joined, name, steps[1].move);
    assert [steps[0]] + [steps[1]] == [steps[0], steps[1]];
    LeadsOn(d, intents, s, [steps[0], steps[1]], up, steps[2]);
    var grouped := Redis.Apply(up, steps[2]);
    LeadsOn(d, intents, s, [steps[0], steps[1]] + [steps[2]], grouped, steps[3]);
    t := Redis.Apply(grouped, steps[3]);
    assert [steps[0], steps[1]] + [steps[2]] + [steps[3]] == steps;
  }

  // ---------------------------------------------------------------------------------------
  // Reply streams.
  // ---------------------------------------------------------------------------------------

  /** The XADD of a reply leaves the newest `maxLen` entries: a client that is not further behind misses none. */
  lemma ReplyLeavesNewest(g: Redis.Redis, l: nat, trimTo: nat, c: Cursor)
    requires StreamInv(g) && Enabled(g, AddReply(l, trimTo))
    requires c.next <= |StreamOf(g.streams, g.log[Head(g, l)].replyTo.value).items|
    ensures var entry, h := g.log[Head(g, l)], Apply(g, AddReply(l, trimTo));
            var name, maxLen := entry.replyTo.value, g.loops[l].maxLen;
            var s, t := StreamOf(g.streams, name), StreamOf(h.streams, name);
            && t.items == s.items + [Message(entry.body.id, g.loops[l].pc.outcome, g.loops[l].pc.k)]
            && (maxLen > 0 ==> Unread(c, t, |s.items|))
            && (forall p: nat | Unread(c, s, p) && |t.items| <= p + maxLen :: Unread(c, t, p))
            && forall other | other != name :: StreamOf(h.streams, other) == StreamOf(g.streams, other)
  {
    var entry := g.log[Head(g, l)];
    var s := StreamOf(g.streams, entry.replyTo.value);
    NewestStay(c, s, Message(entry.body.id, g.loops[l].pc.outcome, g.loops[l].pc.k), g.loops[l].maxLen, trimTo);
  }

  /** The DEL of a stopping client leaves nothing to read; a Python client has by then no call that could miss it. */
  lemma DeletionIsExact(s: Redis.System, name: string)
    requires Redis.Inv(s) && Redis.Enabled(s, Redis.DeleteReplies(name))
    ensures var t := Redis.Apply(s, Redis.DeleteReplies(name));
            && (forall c: Cursor, p: nat :: !Unread(c, Redis.Stream(t, name), p))
            && (forall other | other != name :: Redis.Stream(t, other) == Redis.Stream(s, other))
            && t.clients == s.clients && t.redis.log == s.redis.log
    ensures s.clients[name].PythonClient? ==> s.clients[name].py.table.keys == {}
  {
    assert ClientInv(s.clients[name], Redis.Stream(s, name));
  }
}
