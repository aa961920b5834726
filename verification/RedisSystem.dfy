/**
 * The whole system over Redis: clients of both languages, the commands they have under way, and the
 * server side, with every interleaving of their steps. Each run refines the call table.
 */
module RedisSystem {
  import opened Wrappers
  import opened JsonValues
  import CallTable
  import opened Envelope
  import opened ReplyStreams
  import opened Clients
  import Group = CommandGroup
  import opened GroupInvariants
  import Ts = RedisClient
  import Py = PythonClient

  type Redis = Group.Redis

  /**
   * `clients` is keyed by reply stream name. `owner` records which client issued each call id;
   * `wire` holds the XADDs of calls that have not taken effect in Redis yet.
   */
  datatype System = System(
    redis: Redis, clients: map<string, Client>, owner: map<string, string>, wire: map<string, Group.Entry>)

  const INITIAL: System := System(Group.EMPTY_REDIS, map[], map[], map[])

  datatype Step =
    | Serve(step: Group.ServerStep)
    | Act(name: string, move: Move, service: string)   // `service` matters to a call only
    | Join(name: string, lang: Language)
    | CallArrives(id: string)                    // the XADD of a call takes effect, perhaps after the caller gave up
    | SendNotification(name: string, service: string)
    | DeleteReplies(name: string)                // the DEL of a stopping client
    | StrayCommand(service: string)              // a foreign entry without an acceptable envelope
    | StrayReply(name: string, item: Item)       // a foreign entry that answers no call

  function Stream(s: System, name: string): ReplyStream {
    Group.StreamOf(s.redis.streams, name)
  }

  predicate Enabled(s: System, step: Step) {
    match step
    case Serve(serverStep) => Group.Enabled(s.redis, serverStep)
    // Call ids are fresh.
    case Act(name, move, _) =>
      name in s.clients && CanMove(s.clients[name], move) && Sent(move) !! s.owner.Keys
    case Join(name, _) => name !in s.clients
    case CallArrives(id) => id in s.wire
    case SendNotification(name, _) => name in s.clients && IsStarted(s.clients[name])
    case DeleteReplies(name) => name in s.clients && MayDelete(s.clients[name])
    case StrayCommand(_) => true
    case StrayReply(_, item) => !item.Message?
  }

  function WithStream(s: System, name: string, stream: ReplyStream): System {
    s.(redis := s.redis.(streams := s.redis.streams[name := stream]))
  }

  function WithEntry(s: System, entry: Group.Entry): System {
    s.(redis := s.redis.(log := s.redis.log + [entry]))
  }

  /** A move that sends a call sets off its XADD, an entry of the service. */
  function MoveClient(s: System, name: string, move: Move, service: string): System
    requires Enabled(s, Act(name, move, service))
  {
    var moved := s.(clients := s.clients[name := MoveOf(s.clients[name], Stream(s, name), move)]);
    match SentCall(move)
    case None => moved
    case Some(id) =>
      moved.(owner := s.owner[id := name], wire := s.wire[id := Group.Entry(service, Group.Call(id), Some(name))])
  }

  function Apply(s: System, step: Step): System
    requires Enabled(s, step)
  {
    match step
    case Serve(serverStep) => s.(redis := Group.Apply(s.redis, serverStep))
    case Act(name, move, service) => MoveClient(s, name, move, service)
    case Join(name, lang) => s.(clients := s.clients[name := NewClient(lang)])
    case CallArrives(id) => WithEntry(s, s.wire[id]).(wire := s.wire - {id})
    case SendNotification(_, service) => WithEntry(s, Group.Entry(service, Group.Silent, None))
    case DeleteReplies(name) => WithStream(s, name, Stream(s, name).(trimmed := |Stream(s, name).items|))
    case StrayCommand(service) => WithEntry(s, Group.Entry(service, Group.Poison, None))
    case StrayReply(name, item) => WithStream(s, name, Append(Stream(s, name), item, 0))
  }

  // ---------------------------------------------------------------------------------------
  // Invariants.
  // ---------------------------------------------------------------------------------------

  ghost predicate ClientsInv(s: System) {
    forall name | name in s.clients ::
      ClientInv(s.clients[name], Stream(s, name))
  }

  /** Each call id belongs to one client. */
  ghost predicate OwnerInv(s: System) {
    && (forall id | id in s.owner :: s.owner[id] in s.clients && id in Calls(s.clients[s.owner[id]]))
    && (forall name, id | name in s.clients && id in Calls(s.clients[name]) :: id in s.owner && s.owner[id] == name)
  }

  ghost predicate Issued(s: System, entry: Group.Entry) {
    entry.body.Call? ==> entry.body.id in s.owner && entry.replyTo == Some(s.owner[entry.body.id])
  }

  /** Each call id is appended to a command stream at most once, asking for its owner's reply stream. */
  ghost predicate CommandInv(s: System) {
    && (forall id | id in s.wire :: s.wire[id].body == Group.Call(id) && Issued(s, s.wire[id]))
    && (forall e | 0 <= e < |s.redis.log| ::
          Issued(s, s.redis.log[e])
          && (s.redis.log[e].body.Call? ==> s.redis.log[e].body.id !in s.wire))
    && (forall e, f | 0 <= e < f < |s.redis.log| && s.redis.log[e].body.Call? ::
          s.redis.log[e].body != s.redis.log[f].body)
  }

  ghost predicate Inv(s: System) {
    Group.Inv(s.redis) && ClientsInv(s) && OwnerInv(s) && CommandInv(s)
  }

  // One lemma per invariant: first the server side.

  /** A stream may grow or be trimmed, but only server replies are messages. */
  lemma StreamChangeKeepsRedis(g: Redis, name: string, stream: ReplyStream)
    requires Group.Inv(g)
    requires Group.StreamOf(g.streams, name).items <= stream.items && ValidStream(stream)
    requires Group.StreamOf(g.streams, name).trimmed <= stream.trimmed
    requires forall p | |Group.StreamOf(g.streams, name).items| <= p < |stream.items| :: !stream.items[p].Message?
    ensures Group.Inv(g.(streams := g.streams[name := stream]))
    ensures StreamsGrow(g.streams, g.streams[name := stream])
  {
    var h := g.(streams := g.streams[name := stream]);
    assert Grows(g, h);
    GrowthKeepsRecords(g, h);
    forall n, p | n in h.streams && 0 <= p < |h.streams[n].items| && h.streams[n].items[p].Message?
      ensures Group.Genuine(h, n, h.streams[n].items[p])
    {
      assert h.streams[n].items[p] == Group.StreamOf(g.streams, n).items[p];
      GrowthKeepsGenuine(g, h, n, h.streams[n].items[p]);
    }
    GrowthKeepsLoops(g, h);
    GrowthKeepsDispatches(g, h);
  }

  lemma StepKeepsRedis(s: System, step: Step)
    requires Group.Inv(s.redis) && Enabled(s, step)
    ensures Group.Inv(Apply(s, step).redis)
    ensures StreamsGrow(s.redis.streams, Apply(s, step).redis.streams)
  {
    var g := s.redis;
    match step {
      case Serve(serverStep) => StepKeepsInv(g, serverStep);
      case CallArrives(id) => AppendKeepsInv(g, s.wire[id]);
      case SendNotification(_, service) => AppendKeepsInv(g, Group.Entry(service, Group.Silent, None));
      case StrayCommand(service) => AppendKeepsInv(g, Group.Entry(service, Group.Poison, None));
      case DeleteReplies(name) => StreamChangeKeepsRedis(g, name, Stream(s, name).(trimmed := |Stream(s, name).items|));
      case StrayReply(name, item) => StreamChangeKeepsRedis(g, name, Append(Stream(s, name), item, 0));
      case _ => assert Apply(s, step).redis == g;
    }
  }

  // Then the clients.

  lemma StreamsGrowKeepsClient(s: System, t: System, name: string)
    requires ClientsInv(s) && StreamsGrow(s.redis.streams, t.redis.streams) && Group.StreamInv(t.redis)
    requires name in s.clients
    ensures ClientInv(s.clients[name], Stream(t, name))
  {
    StreamGrowthKeepsClient(s.clients[name], Stream(s, name), Stream(t, name));
  }

  lemma StepKeepsClients(s: System, step: Step)
    requires ClientsInv(s) && Enabled(s, step)
    requires StreamsGrow(s.redis.streams, Apply(s, step).redis.streams) && Group.StreamInv(Apply(s, step).redis)
    ensures ClientsInv(Apply(s, step))
  {
    var t := Apply(s, step);
    forall name | name in t.clients
      ensures ClientInv(t.clients[name], Stream(t, name))
    {
      if name in s.clients {
        StreamsGrowKeepsClient(s, t, name);
        if step.Act? && step.name == name {
          MoveIsSound(s.clients[name], Stream(s, name), step.move);
        }
      } else {
        NewClientIsSound(step.lang, Stream(t, name));
      }
    }
  }

  // Then who owns which call, and which commands were issued.

  lemma MoveKeepsOwners(s: System, t: System, name: string, sent: set<string>)
    requires OwnerInv(s) && name in s.clients && name in t.clients
    requires t.clients == s.clients[name := t.clients[name]] && sent !! s.owner.Keys
    requires Calls(t.clients[name]).Keys == Calls(s.clients[name]).Keys + sent
    requires t.owner.Keys == s.owner.Keys + sent
    requires forall id | id in t.owner :: t.owner[id] == if id in s.owner then s.owner[id] else name
    ensures OwnerInv(t)
  {
  }

  lemma MoveAddsItsCalls(s: System, name: string, move: Move, service: string)
    requires name in s.clients && ClientInv(s.clients[name], Stream(s, name)) && Enabled(s, Act(name, move, service))
    ensures name in MoveClient(s, name, move, service).clients
    ensures Calls(MoveClient(s, name, move, service).clients[name]).Keys == Calls(s.clients[name]).Keys + Sent(move)
  {
    MoveIsSound(s.clients[name], Stream(s, name), move);
  }

  lemma MoveClientKeepsOwners(s: System, name: string, move: Move, service: string)
    requires OwnerInv(s) && Enabled(s, Act(name, move, service))
    requires Calls(MoveClient(s, name, move, service).clients[name]).Keys == Calls(s.clients[name]).Keys + Sent(move)
    ensures OwnerInv(MoveClient(s, name, move, service))
  {
    MoveKeepsOwners(s, MoveClient(s, name, move, service), name, Sent(move));
  }

  lemma StillStepKeepsOwners(s: System, step: Step)
    requires OwnerInv(s) && Enabled(s, step) && !step.Act?
    ensures OwnerInv(Apply(s, step))
  {
  }

  lemma StepKeepsOwners(s: System, step: Step)
    requires OwnerInv(s) && ClientsInv(s) && Enabled(s, step)
    ensures OwnerInv(Apply(s, step))
  {
    match step {
      case Act(name, move, service) =>
        MoveAddsItsCalls(s, name, move, service);
        MoveClientKeepsOwners(s, name, move, service);
      case _ => StillStepKeepsOwners(s, step);
    }
  }

  /** Nothing arrives in a command stream. */
  lemma SilenceKeepsCommands(s: System, t: System)
    requires CommandInv(s) && t.redis.log == s.redis.log
    requires forall id | id in s.owner :: id in t.owner && t.owner[id] == s.owner[id]
    requires forall id | id in t.wire && id !in s.wire :: id !in s.owner && t.wire[id].body == Group.Call(id) && Issued(t, t.wire[id])
    requires forall id | id in s.wire :: id in t.wire && t.wire[id] == s.wire[id]
    ensures CommandInv(t)
  {
  }

  /** One entry arrives. */
  lemma ArrivalKeepsCommands(s: System, t: System, entry: Group.Entry)
    requires CommandInv(s) && t.redis.log == s.redis.log + [entry] && t.owner == s.owner
    requires if entry.body.Call? then entry.body.id in s.wire && entry == s.wire[entry.body.id] && t.wire == s.wire - {entry.body.id}
             else t.wire == s.wire
    ensures CommandInv(t)
  {
  }

  lemma ServerStepsKeepLog(g: Redis, step: Group.ServerStep)
    requires Group.Enabled(g, step)
    ensures Group.Apply(g, step).log == g.log
  {
  }

  lemma MoveKeepsCommands(s: System, name: string, move: Move, service: string)
    requires CommandInv(s) && OwnerInv(s) && Enabled(s, Act(name, move, service))
    ensures CommandInv(MoveClient(s, name, move, service))
  {
    SilenceKeepsCommands(s, MoveClient(s, name, move, service));
  }

  lemma StepKeepsCommands(s: System, step: Step)
    requires CommandInv(s) && OwnerInv(s) && Enabled(s, step)
    requires step.CallArrives? ==> s.wire[step.id].body == Group.Call(step.id)
    ensures CommandInv(Apply(s, step))
  {
    var t := Apply(s, step);
    match step {
      case Serve(serverStep) =>
        ServerStepsKeepLog(s.redis, serverStep);
        SilenceKeepsCommands(s, t);
      case CallArrives(id) => ArrivalKeepsCommands(s, t, s.wire[id]);
      case SendNotification(_, service) => ArrivalKeepsCommands(s, t, Group.Entry(service, Group.Silent, None));
      case StrayCommand(service) => ArrivalKeepsCommands(s, t, Group.Entry(service, Group.Poison, None));
      case Act(name, move, service) => MoveKeepsCommands(s, name, move, service);
      case _ => SilenceKeepsCommands(s, t);
    }
  }

  lemma StepPreservesInv(s: System, step: Step)
    requires Inv(s) && Enabled(s, step)
    ensures Inv(Apply(s, step))
  {
    StepKeepsRedis(s, step);
    StepKeepsClients(s, step);
    StepKeepsOwners(s, step);
    StepKeepsCommands(s, step);
  }

  // ---------------------------------------------------------------------------------------
  // Refinement of the call table.
  // ---------------------------------------------------------------------------------------

  /** Dispatch `k` of a call's entry has returned a reply. */
  predicate Answers(g: Redis, k: nat) {
    && k < |g.dispatches| && g.dispatches[k].delivery < |g.deliveries|
    && g.deliveries[g.dispatches[k].delivery].entry < |g.log|
    && g.dispatches[k].progress.Returned? && g.dispatches[k].progress.reply.Some?
    && g.log[g.deliveries[g.dispatches[k].delivery].entry].body.Call?
  }

  /** The call it was for, and its outcome. */
  function AnswerOf(g: Redis, k: nat): (string, Json) {
    if Answers(g, k)
    then (g.log[g.deliveries[g.dispatches[k].delivery].entry].body.id, g.dispatches[k].progress.reply.value)
    else ("", Null)
  }

  function Produced(g: Redis): set<(string, Json)> {
    set k: nat | k < |g.dispatches| && Answers(g, k) :: AnswerOf(g, k)
  }

  function StateOf(s: System, id: string): CallTable.CallState {
    if id in s.owner && s.owner[id] in s.clients && id in Calls(s.clients[s.owner[id]])
    then Calls(s.clients[s.owner[id]])[id] else CallTable.Open
  }

  /** What a run looks like from the callers' side. */
  function View(s: System): CallTable.Table {
    CallTable.Table(map id | id in s.owner :: StateOf(s, id), Produced(s.redis))
  }

  lemma GrowthKeepsProduced(g: Redis, h: Redis)
    requires Grows(g, h)
    ensures Produced(g) <= Produced(h)
  {
    forall k: nat | k < |g.dispatches| && Answers(g, k)
      ensures AnswerOf(g, k) in Produced(h)
    {
      assert h.deliveries[g.dispatches[k].delivery] == g.deliveries[g.dispatches[k].delivery];
      assert h.log[g.deliveries[g.dispatches[k].delivery].entry] == g.log[g.deliveries[g.dispatches[k].delivery].entry];
      assert Answers(h, k) && AnswerOf(h, k) == AnswerOf(g, k);
    }
  }

  /** What a client can read in its stream was produced for the call it names. */
  lemma HeldIsProduced(g: Redis, name: string, id: string, outcome: Json)
    requires Group.StreamInv(g) && Holds(Group.StreamOf(g.streams, name), id, outcome)
    ensures (id, outcome) in Produced(g)
  {
    var items := Group.StreamOf(g.streams, name).items;
    var p :| 0 <= p < |items| && items[p].Message? && items[p].id == id && items[p].outcome == outcome;
    assert Group.Genuine(g, name, items[p]);
    assert Answers(g, items[p].origin) && AnswerOf(g, items[p].origin) == (id, outcome);
  }

  lemma StepGrows(s: System, step: Step)
    requires Group.Inv(s.redis) && Enabled(s, step)
    ensures Grows(s.redis, Apply(s, step).redis)
  {
    match step {
      case Serve(serverStep) => StepKeepsInv(s.redis, serverStep);
      case _ =>
    }
  }

  /** One call under the move of its client. */
  lemma CallMoveRefines(g: Redis, name: string, before: map<string, CallTable.CallState>,
                        after: map<string, CallTable.CallState>, id: string)
    requires Group.StreamInv(g) && id in before && id in after
    requires CallMoves(before, after, Group.StreamOf(g.streams, name), id)
    ensures if before[id].Closed? then after[id] == before[id]
            else after[id].Closed? && after[id].how.Replied? ==> (id, after[id].how.outcome) in Produced(g)
  {
    if after[id] != before[id] && after[id].how.Replied? {
      HeldIsProduced(g, name, id, after[id].how.outcome);
    }
  }

  /** A call of the client that moves. */
  lemma MoveRefinesOwnCall(s: System, t: System, name: string, sent: set<string>, id: string)
    requires OwnerInv(s) && Group.StreamInv(s.redis) && t.redis == s.redis && name in s.clients && name in t.clients
    requires CallsMove(Calls(s.clients[name]), Calls(t.clients[name]), Stream(s, name), sent)
    requires id in t.owner && t.owner[id] == name && id in Calls(t.clients[name])
    requires id in s.owner ==> s.owner[id] == name
    requires id !in s.owner ==> id in sent && id !in Calls(s.clients[name])
    ensures CallTable.CallNext(View(s), View(t), id)
  {
    var before, after := Calls(s.clients[name]), Calls(t.clients[name]);
    assert StateOf(t, id) == after[id] && CallMoves(before, after, Stream(s, name), id);
    if id in s.owner {
      assert id in before && StateOf(s, id) == before[id];
      CallMoveRefines(s.redis, name, before, after, id);
    }
  }

  /** What a move records of who owns which call. */
  lemma MoveOwnsItsCall(s: System, name: string, move: Move, service: string, id: string)
    requires Enabled(s, Act(name, move, service)) && id in MoveClient(s, name, move, service).owner
    ensures var t := MoveClient(s, name, move, service);
            && name in t.clients && t.redis == s.redis && t.clients == s.clients[name := t.clients[name]]
            && t.clients[name] == MoveOf(s.clients[name], Stream(s, name), move)
            && if id in s.owner then t.owner[id] == s.owner[id] else id in Sent(move) && t.owner[id] == name
  {
  }

  lemma OthersKeepTheirCalls(s: System, t: System, name: string, id: string)
    requires id in s.owner && id in t.owner && t.owner[id] == s.owner[id] != name
    requires name in t.clients && t.clients == s.clients[name := t.clients[name]] && t.redis == s.redis
    ensures CallTable.CallNext(View(s), View(t), id)
  {
    assert StateOf(t, id) == StateOf(s, id);
  }

  lemma MoveRefinesCall(s: System, name: string, move: Move, service: string, id: string)
    requires OwnerInv(s) && Group.StreamInv(s.redis) && Enabled(s, Act(name, move, service))
    requires CallsMove(Calls(s.clients[name]), Calls(MoveOf(s.clients[name], Stream(s, name), move)),
                       Stream(s, name), Sent(move))
    requires id in MoveClient(s, name, move, service).owner
    ensures CallTable.CallNext(View(s), View(MoveClient(s, name, move, service)), id)
  {
    var t := MoveClient(s, name, move, service);
    MoveOwnsItsCall(s, name, move, service, id);
    if t.owner[id] == name {
      MoveRefinesOwnCall(s, t, name, Sent(move), id);
    } else {
      OthersKeepTheirCalls(s, t, name, id);
    }
  }

  lemma MoveRefines(s: System, name: string, move: Move, service: string)
    requires Inv(s) && Enabled(s, Act(name, move, service))
    ensures CallTable.Next(View(s), View(MoveClient(s, name, move, service)))
  {
    var t := MoveClient(s, name, move, service);
    MoveIsSound(s.clients[name], Stream(s, name), move);
    forall id | id in t.owner
      ensures CallTable.CallNext(View(s), View(t), id)
    {
      MoveRefinesCall(s, name, move, service, id);
    }
  }

  lemma StillStepKeepsView(s: System, step: Step)
    requires Enabled(s, step) && !step.Act?
    ensures Apply(s, step).owner == s.owner
    ensures OwnerInv(s) ==> View(Apply(s, step)).calls == View(s).calls
  {
  }

  lemma StillStepRefines(s: System, step: Step)
    requires Inv(s) && Enabled(s, step) && !step.Act?
    ensures CallTable.Next(View(s), View(Apply(s, step)))
  {
    StepGrows(s, step);
    GrowthKeepsProduced(s.redis, Apply(s, step).redis);
    StillStepKeepsView(s, step);
  }

  lemma StepRefines(s: System, step: Step)
    requires Inv(s) && Enabled(s, step)
    ensures CallTable.Next(View(s), View(Apply(s, step)))
  {
    if step.Act? {
      MoveRefines(s, step.name, step.move, step.service);
    } else {
      StillStepRefines(s, step);
    }
  }

  // ---------------------------------------------------------------------------------------
  // Runs.
  // ---------------------------------------------------------------------------------------

  ghost predicate IsRun(states: seq<System>, steps: seq<Step>) {
    && |states| == |steps| + 1 && states[0] == INITIAL
    && forall i | 0 <= i < |steps| :: Enabled(states[i], steps[i]) && states[i + 1] == Apply(states[i], steps[i])
  }

  lemma {:induction false} RunKeepsInv(states: seq<System>, steps: seq<Step>, i: nat)
    requires IsRun(states, steps) && i < |states|
    ensures Inv(states[i])
  {
    if i > 0 {
      RunKeepsInv(states, steps, i - 1);
      StepPreservesInv(states[i - 1], steps[i - 1]);
    }
  }

  /** Every run of the Redis system is a behaviour of the call table. */
  lemma RunsRefineCallTable(states: seq<System>, steps: seq<Step>)
    requires IsRun(states, steps)
    ensures CallTable.Behaviour(CallTable.Views(states, View))
  {
    var tables := CallTable.Views(states, View);
    assert tables[0] == CallTable.EMPTY;
    forall i | 0 < i < |tables|
      ensures CallTable.Next(tables[i - 1], tables[i])
    {
      RunKeepsInv(states, steps, i - 1);
      StepRefines(states[i - 1], steps[i - 1]);
    }
  }

  /** A caller's promise settles at most once in a run. */
  lemma CallsSettleOnce(states: seq<System>, steps: seq<Step>, i: nat, j: nat, id: string)
    requires IsRun(states, steps) && i <= j < |states|
    requires id in states[i].owner && StateOf(states[i], id).Closed?
    ensures id in states[j].owner && StateOf(states[j], id) == StateOf(states[i], id)
  {
    RunsRefineCallTable(states, steps);
    CallTable.ClosedForGood(CallTable.Views(states, View), i, j, id);
  }

  /**
   * End to end: a reply that a caller receives was returned by an earlier dispatch of the one command
   * entry that carries the call's id, while the call was open.
   */
  lemma RepliesAnswerTheirRequest(states: seq<System>, steps: seq<Step>, j: nat, id: string)
    returns (i: nat, k: nat, e: nat)
    requires IsRun(states, steps) && j < |states|
    requires id in states[j].owner && StateOf(states[j], id).Closed? && StateOf(states[j], id).how.Replied?
    ensures i < j && id in states[i].owner && StateOf(states[i], id).Open?
    ensures var g := states[i].redis;
            && DispatchFor(g, k, e) && e < |g.log| && g.log[e].body == Group.Call(id)
            && g.dispatches[k].progress == Group.Returned(Some(StateOf(states[j], id).how.outcome))
            && g.log[e].replyTo == Some(states[i].owner[id])
            && forall f | 0 <= f < |g.log| && g.log[f].body == Group.Call(id) :: f == e
  {
    RunsRefineCallTable(states, steps);
    i := CallTable.RepliesWereProduced(CallTable.Views(states, View), j, id);
    RunKeepsInv(states, steps, i);
    var g := states[i].redis;
    var outcome := StateOf(states[j], id).how.outcome;
    assert (id, outcome) in Produced(g);
    k :| k < |g.dispatches| && Answers(g, k) && AnswerOf(g, k) == (id, outcome);
    e := g.deliveries[g.dispatches[k].delivery].entry;
    assert Issued(states[i], g.log[e]);
  }

  /** In every state of every run: conservation, duplicate accounting, exact tables and exact cursors. */
  lemma RunsAreSound(states: seq<System>, steps: seq<Step>, i: nat)
    requires IsRun(states, steps) && i < |states|
    ensures var g := states[i].redis;
            forall e: nat | e < |g.log| && g.log[e].service in g.created && g.created[g.log[e].service] <= e ::
              g.log[e].service in g.mark &&
              (if g.mark[g.log[e].service] <= e then e !in g.pel && e !in g.acked else (e in g.pel <==> e !in g.acked))
              && (e in g.acked ==> Group.Justified(g, e))
    ensures forall e: nat :: |DispatchesOf(states[i].redis, e)| <= 1 + |HandOutsOf(states[i].redis, e, true)|
    ensures forall name | name in states[i].clients ::
              && CursorInv(CursorOf(states[i].clients[name]), Stream(states[i], name))
              && match states[i].clients[name]
                 case TypeScriptClient(ts) => Ts.PendingInv(ts.table)
                 case PythonClient(py) => Py.PendingInv(py.table)
  {
    RunKeepsInv(states, steps, i);
    var g := states[i].redis;
    forall e: nat | e < |g.log| && g.log[e].service in g.created && g.created[g.log[e].service] <= e
      ensures g.log[e].service in g.mark
      ensures if g.mark[g.log[e].service] <= e then e !in g.pel && e !in g.acked else (e in g.pel <==> e !in g.acked)
      ensures e in g.acked ==> Group.Justified(g, e)
    {
      EntriesAreConserved(g, e);
    }
    forall e: nat
      ensures |DispatchesOf(g, e)| <= 1 + |HandOutsOf(g, e, true)|
    {
      DispatchesAreAccounted(g, e);
    }
    forall name | name in states[i].clients
      ensures ClientInv(states[i].clients[name], Stream(states[i], name))
    {
    }
  }
}
