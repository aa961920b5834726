/**
 * Server cores and callers on one in-memory bus: services come and go, and every reply that a caller
 * receives is the outcome of the local call on the server that the bus held when the call was made.
 */
module BusCalls {
  import opened Wrappers
  import opened JsonValues
  import opened Envelope
  import opened Protocol
  import opened Intents
  import opened CallTable
  import opened OverMemory

  /** `owner` names the transport that registered the service. */
  datatype Registered = Registered(owner: string, entry: ServiceEntry)

  /** `env` is what `send` parses of the request. */
  datatype Asked = Asked(transport: string, intent: Intent, env: Envelope)

  /** `answered` holds the replies that `send` gave at once. */
  datatype Bus = Bus(services: map<string, Registered>, transports: map<string, Memory>,
                     asked: map<string, Asked>, answered: map<string, Json>)

  const EMPTY_BUS: Bus := Bus(map[], map[], map[], map[])

  datatype BusStep =
    | Join(name: string)
    | RegisterService(name: string, service: string, entry: ServiceEntry)
    | CallService(name: string, id: string, intent: Intent, env: Envelope)
    | Move(name: string, step: OverMemory.Step)       // start, timer, end of a dispatch
    | StopTransport(name: string)

  /** The server core's dispatcher, as the bus holds it. */
  function DispatcherOf(entry: ServiceEntry): Dispatcher {
    env => Reply(Dispatch(TypeScript, Some(entry), env))
  }

  function EntryOn(b: Bus, service: string): Option<ServiceEntry> {
    if service in b.services then Some(b.services[service].entry) else None
  }

  ghost predicate Enabled(b: Bus, step: BusStep) {
    match step
    case Join(name) => name !in b.transports
    // A registration of a taken service is rejected and changes nothing.
    case RegisterService(name, service, _) => name in b.transports && service !in b.services
    // Call ids are fresh.
    case CallService(name, id, intent, env) =>
      && name in b.transports && b.transports[name].state.Started? && id !in b.asked
      && ParseTypeScript(RequestOf(intent, id)) == Success(env) && env.Request? && env.id == Str(id)
    case Move(name, move) =>
      name in b.transports && CanStep(b.transports[name], move) && !move.SendOut? && !move.Stop?
    case StopTransport(name) => name in b.transports
  }

  function SetTransport(b: Bus, name: string, m: Memory): Bus {
    b.(transports := b.transports[name := m])
  }

  ghost function Apply(b: Bus, step: BusStep): Bus
    requires Enabled(b, step)
  {
    match step
    case Join(name) => SetTransport(b, name, NEW_MEMORY)
    case RegisterService(name, service, entry) => b.(services := b.services[service := Registered(name, entry)])
    case CallService(name, id, intent, env) =>
      var asking := b.(asked := b.asked[id := Asked(name, intent, env)]);
      if intent.service !in b.services
      then asking.(answered := b.answered[id := NotFound(Str(id))])
      else SetTransport(asking, name, Send(b.transports[name], id, env, DispatcherOf(b.services[intent.service].entry)))
    case Move(name, move) => SetTransport(b, name, OverMemory.Apply(b.transports[name], move))
    case StopTransport(name) =>
      // Exactly its own services leave the bus.
      SetTransport(b, name, RejectPending(b.transports[name]))
        .(services := b.services - (set s | s in b.services && b.services[s].owner == name))
  }

  /** What the caller has received, if anything. */
  function ReplyTo(b: Bus, id: string): Option<Json> {
    if id in b.answered then Some(b.answered[id])
    else if id in b.asked && b.asked[id].transport in b.transports && id in b.transports[b.asked[id].transport].calls
    then
      match b.transports[b.asked[id].transport].calls[id].state
      case Closed(Replied(reply)) => Some(reply)
      case _ => None
    else None
  }

  // ---------------------------------------------------------------------------------------
  // Invariants.
  // ---------------------------------------------------------------------------------------

  /** A call under way carries its own request and the dispatcher of some server core; its reply is that one's. */
  ghost predicate CallOk(asked: map<string, Asked>, name: string, id: string, call: Call, entry: ServiceEntry) {
    && id in asked && asked[id].transport == name && call.env == asked[id].env
    && call.dispatcher == DispatcherOf(entry)
    && (call.state.Closed? && call.state.how.Replied? ==>
          DispatcherOf(entry)(call.env) == Reply(Some(call.state.how.outcome)))
  }

  /** `held` remembers what the bus held for each call when it was made: something if it was sent on, nothing if not. */
  ghost predicate Sent(b: Bus, held: map<string, Option<ServiceEntry>>, name: string, id: string, call: Call) {
    id in held && held[id].Some? && id !in b.answered && CallOk(b.asked, name, id, call, held[id].value)
  }

  ghost predicate AnsweredAtOnce(held: map<string, Option<ServiceEntry>>, id: string, reply: Json) {
    id in held && held[id].None? && reply == NotFound(Str(id))
  }

  ghost predicate BusInv(b: Bus, held: map<string, Option<ServiceEntry>>) {
    && held.Keys == b.asked.Keys
    && (forall name | name in b.transports :: MemoryInv(b.transports[name]))
    && (forall name, id | name in b.transports && id in b.transports[name].calls ::
          Sent(b, held, name, id, b.transports[name].calls[id]))
    && (forall id | id in b.answered :: AnsweredAtOnce(held, id, b.answered[id]))
  }

  function Hold(b: Bus, step: BusStep, held: map<string, Option<ServiceEntry>>): map<string, Option<ServiceEntry>> {
    if step.CallService? then held[step.id := EntryOn(b, step.intent.service)] else held
  }

  lemma StepSendsNone(m: Memory, move: OverMemory.Step)
    requires MemoryInv(m) && CanStep(m, move) && !move.SendOut?
    ensures OverMemory.Apply(m, move).calls.Keys == m.calls.Keys
  {
  }

  lemma MoveKeepsCallOk(asked: map<string, Asked>, name: string, id: string, m: Memory, n: Memory, entry: ServiceEntry)
    requires CallsMove(m, n) && id in m.calls && CallOk(asked, name, id, m.calls[id], entry)
    ensures CallOk(asked, name, id, n.calls[id], entry)
  {
    assert n.calls[id].(state := Open) == m.calls[id].(state := Open);
    assert n.calls[id].(state := Open).env == m.calls[id].env;
    assert n.calls[id].(state := Open).dispatcher == m.calls[id].dispatcher;
  }

  /** Starting, timing out, ending a dispatch and stopping: one transport moves, and services may leave. */
  lemma TransportMoveKeepsBus(b: Bus, c: Bus, name: string, move: OverMemory.Step, held: map<string, Option<ServiceEntry>>)
    requires BusInv(b, held) && name in b.transports && CanStep(b.transports[name], move) && !move.SendOut?
    requires c == SetTransport(b, name, OverMemory.Apply(b.transports[name], move)).(services := c.services)
    ensures BusInv(c, held)
  {
    var m, n := b.transports[name], c.transports[name];
    StepKeepsInv(m, move);
    StepMovesCalls(m, move);
    StepSendsNone(m, move);
    forall t, id | t in c.transports && id in c.transports[t].calls
      ensures Sent(c, held, t, id, c.transports[t].calls[id])
    {
      assert id in b.transports[t].calls && Sent(b, held, t, id, b.transports[t].calls[id]);
      if t == name { MoveKeepsCallOk(b.asked, name, id, m, n, held[id].value); }
    }
  }

  lemma FreshIsUnknown(b: Bus, held: map<string, Option<ServiceEntry>>, name: string, id: string)
    requires BusInv(b, held) && name in b.transports && id !in b.asked
    ensures id !in b.transports[name].calls && id !in b.answered
  {
    assert id in b.transports[name].calls ==> Sent(b, held, name, id, b.transports[name].calls[id]);
    assert id in b.answered ==> AnsweredAtOnce(held, id, b.answered[id]);
  }

  /** The calls and answers from before. */
  lemma AskingKeepsBus(b: Bus, c: Bus, held: map<string, Option<ServiceEntry>>, holding: map<string, Option<ServiceEntry>>,
                       id: string)
    requires BusInv(b, held) && id !in b.asked
    requires c.asked.Keys == b.asked.Keys + {id} == holding.Keys
    requires forall i | i in b.asked :: c.asked[i] == b.asked[i] && holding[i] == held[i]
    requires forall i | i in c.answered && i != id :: i in b.answered && c.answered[i] == b.answered[i]
    ensures forall t, i | t in b.transports && i in b.transports[t].calls :: Sent(c, holding, t, i, b.transports[t].calls[i])
    ensures forall i | i in c.answered && i != id :: AnsweredAtOnce(holding, i, c.answered[i])
  {
    forall t, i | t in b.transports && i in b.transports[t].calls
      ensures Sent(c, holding, t, i, b.transports[t].calls[i])
    {
      assert Sent(b, held, t, i, b.transports[t].calls[i]);
    }
    forall i | i in c.answered && i != id
      ensures AnsweredAtOnce(holding, i, c.answered[i])
    {
      assert AnsweredAtOnce(held, i, b.answered[i]);
    }
  }

  lemma UnownedCallKeepsBus(b: Bus, c: Bus, name: string, id: string, intent: Intent, env: Envelope,
                            held: map<string, Option<ServiceEntry>>)
    requires BusInv(b, held) && id !in b.asked
    requires c == b.(asked := b.asked[id := Asked(name, intent, env)], answered := b.answered[id := NotFound(Str(id))])
    ensures BusInv(c, held[id := None])
  {
    AskingKeepsBus(b, c, held, held[id := None], id);
  }

  lemma SendKeepsTransports(b: Bus, c: Bus, name: string, id: string, env: Envelope, dispatcher: Dispatcher)
    requires forall t | t in b.transports :: MemoryInv(b.transports[t])
    requires name in b.transports && b.transports[name].state.Started? && id !in b.transports[name].calls
    requires env.Request? && env.id == Str(id)
    requires c.transports == b.transports[name := Send(b.transports[name], id, env, dispatcher)]
    ensures forall t | t in c.transports :: MemoryInv(c.transports[t])
  {
    SendKeepsInv(b.transports[name], id, env, dispatcher);
  }

  /** Every call after a send is the new one, or was there before. */
  lemma SendAddsOne(b: Bus, c: Bus, name: string, id: string, env: Envelope, dispatcher: Dispatcher, t: string, i: string)
    requires name in b.transports && c.transports == b.transports[name := Send(b.transports[name], id, env, dispatcher)]
    requires t in c.transports && i in c.transports[t].calls
    ensures if t == name && i == id then c.transports[t].calls[i] == Call(env, dispatcher, Open)
            else t in b.transports && i in b.transports[t].calls && c.transports[t].calls[i] == b.transports[t].calls[i]
  {
  }

  lemma OwnedCallKeepsBus(b: Bus, c: Bus, name: string, id: string, intent: Intent, env: Envelope, entry: ServiceEntry,
                          held: map<string, Option<ServiceEntry>>)
    requires BusInv(b, held) && id !in b.asked && name in b.transports && b.transports[name].state.Started?
    requires env.Request? && env.id == Str(id)
    requires c.transports == b.transports[name := Send(b.transports[name], id, env, DispatcherOf(entry))]
    requires c.asked == b.asked[id := Asked(name, intent, env)] && c.answered == b.answered
    ensures BusInv(c, held[id := Some(entry)])
  {
    var holding := held[id := Some(entry)];
    FreshIsUnknown(b, held, name, id);
    SendKeepsTransports(b, c, name, id, env, DispatcherOf(entry));
    AskingKeepsBus(b, c, held, holding, id);
    assert Sent(c, holding, name, id, Call(env, DispatcherOf(entry), Open));
    forall t, i | t in c.transports && i in c.transports[t].calls
      ensures Sent(c, holding, t, i, c.transports[t].calls[i])
    {
      SendAddsOne(b, c, name, id, env, DispatcherOf(entry), t, i);
    }
  }

  lemma StepKeepsBus(b: Bus, step: BusStep, held: map<string, Option<ServiceEntry>>)
    requires BusInv(b, held) && Enabled(b, step)
    ensures BusInv(Apply(b, step), Hold(b, step, held))
  {
    match step {
      case CallService(name, id, intent, env) =>
        if intent.service in b.services {
          OwnedCallKeepsBus(b, Apply(b, step), name, id, intent, env, b.services[intent.service].entry, held);
        } else {
          UnownedCallKeepsBus(b, Apply(b, step), name, id, intent, env, held);
        }
      case Move(name, move) => TransportMoveKeepsBus(b, Apply(b, step), name, move, held);
      case StopTransport(name) => TransportMoveKeepsBus(b, Apply(b, step), name, Stop, held);
      case Join(_) =>
      case RegisterService(_, _, _) =>
    }
  }

  // ---------------------------------------------------------------------------------------
  // What a step achieves.
  // ---------------------------------------------------------------------------------------

  /** A call is recorded; it is under way with the dispatcher that the bus holds, or answered at once. */
  lemma CallIsMade(b: Bus, held: map<string, Option<ServiceEntry>>, name: string, id: string, intent: Intent, env: Envelope)
    requires BusInv(b, held) && Enabled(b, CallService(name, id, intent, env))
    ensures var c := Apply(b, CallService(name, id, intent, env));
            && c.services == b.services && c.asked == b.asked[id := Asked(name, intent, env)]
            && if intent.service in b.services then
                 && ReplyTo(c, id) == None && name in c.transports
                 && IsOpen(c.transports[name], id) && id in c.transports[name].running && id in c.transports[name].pending
                 && c.transports[name].calls[id] == Call(env, DispatcherOf(b.services[intent.service].entry), Open)
               else
                 && c.transports == b.transports
                 && ReplyTo(c, id) == Some(ErrorReply(Str(id), Int(-32601), "Method not found", Null))
  {
    FreshIsUnknown(b, held, name, id);
    if intent.service in b.services {
      SendKeepsInv(b.transports[name], id, env, DispatcherOf(b.services[intent.service].entry));
    }
  }

  lemma LearnedIsSeen(b: Bus, m: Memory, n: Memory, id: string, entry: ServiceEntry)
    requires id in b.asked && id !in b.answered && id in m.calls && m.calls[id].state.Open?
    requires CallOk(b.asked, b.asked[id].transport, id, m.calls[id], entry) && LearnsOutcome(m, n, id)
    ensures ReplyTo(SetTransport(b, b.asked[id].transport, n), id) == Dispatch(TypeScript, Some(entry), b.asked[id].env)
  {
    assert m.calls[id].dispatcher(m.calls[id].env) == Reply(Dispatch(TypeScript, Some(entry), b.asked[id].env));
  }

  /** The end of a dispatch hands the caller of an open call what the dispatcher made of its request. */
  lemma SettlingAnswers(b: Bus, name: string, id: string, entry: ServiceEntry)
    requires name in b.transports && MemoryInv(b.transports[name]) && IsOpen(b.transports[name], id)
    requires CallOk(b.asked, name, id, b.transports[name].calls[id], entry) && id !in b.answered
    ensures CanStep(b.transports[name], DispatchSettles(id))
    ensures ReplyTo(Apply(b, Move(name, DispatchSettles(id))), id) == Dispatch(TypeScript, Some(entry), b.asked[id].env)
  {
    EndDispatchKeepsInv(b.transports[name], id);
    LearnedIsSeen(b, b.transports[name], EndDispatch(b.transports[name], id), id, entry);
  }

  /** Only a registration and the stop of the owner change who serves a service. */
  lemma ServiceMovesExactly(b: Bus, step: BusStep, service: string)
    requires Enabled(b, step)
    ensures var after := Apply(b, step).services;
            if step.RegisterService? && step.service == service
            then service in after && after[service] == Registered(step.name, step.entry)
            else if step.StopTransport? && service in b.services && b.services[service].owner == step.name
            then service !in after
            else (service in after <==> service in b.services) && (service in after ==> after[service] == b.services[service])
  {
  }

  // ---------------------------------------------------------------------------------------
  // Runs.
  // ---------------------------------------------------------------------------------------

  ghost predicate IsBusRun(states: seq<Bus>, steps: seq<BusStep>) {
    && |states| == |steps| + 1 && states[0] == EMPTY_BUS
    && forall i | 0 <= i < |steps| :: Enabled(states[i], steps[i]) && states[i + 1] == Apply(states[i], steps[i])
  }

  /** What the bus held for each call of the first `j` steps when it was made. */
  ghost function HeldAfter(states: seq<Bus>, steps: seq<BusStep>, j: nat): map<string, Option<ServiceEntry>>
    requires j <= |steps| && j < |states|
  {
    if j == 0 then map[] else Hold(states[j - 1], steps[j - 1], HeldAfter(states, steps, j - 1))
  }

  lemma {:induction false} RunKeepsBus(states: seq<Bus>, steps: seq<BusStep>, j: nat)
    requires IsBusRun(states, steps) && j < |states|
    ensures BusInv(states[j], HeldAfter(states, steps, j))
  {
    if j > 0 {
      RunKeepsBus(states, steps, j - 1);
      StepKeepsBus(states[j - 1], steps[j - 1], HeldAfter(states, steps, j - 1));
    }
  }

  function CallOf(asked: Asked, id: string): BusStep {
    CallService(asked.transport, id, asked.intent, asked.env)
  }

  /** Only its own step records a call. */
  lemma StepRecordsOnlyItsCall(b: Bus, step: BusStep, id: string)
    requires Enabled(b, step) && id in Apply(b, step).asked
    ensures if step.CallService? && step.id == id then Apply(b, step).asked[id] == Asked(step.name, step.intent, step.env)
            else id in b.asked && Apply(b, step).asked[id] == b.asked[id]
  {
  }

  /** Where a call was made: its own step, which recorded what it asked. */
  lemma {:induction false} CallWasMade(states: seq<Bus>, steps: seq<BusStep>, j: nat, id: string) returns (i: nat)
    requires IsBusRun(states, steps) && j < |states| && id in states[j].asked
    ensures i < j && steps[i] == CallOf(states[j].asked[id], id)
    ensures id in HeldAfter(states, steps, j)
    ensures HeldAfter(states, steps, j)[id] == EntryOn(states[i], states[j].asked[id].intent.service)
  {
    StepRecordsOnlyItsCall(states[j - 1], steps[j - 1], id);
    if steps[j - 1].CallService? && steps[j - 1].id == id {
      i := j - 1;
    } else {
      i := CallWasMade(states, steps, j - 1, id);
    }
  }

  /**
   * In every run a reply means the local call: on the server that owned the service when the call was
   * made, or on none if nobody did, whatever was registered or stopped since.
   */
  lemma MemoryCallMeansLocalCall(states: seq<Bus>, steps: seq<BusStep>, j: nat, id: string) returns (i: nat)
    requires IsBusRun(states, steps) && j < |states| && id in states[j].asked && ReplyTo(states[j], id).Some?
    requires ValidIntent(states[j].asked[id].intent)
    ensures i < j && steps[i] == CallOf(states[j].asked[id], id)
    ensures var intent := states[j].asked[id].intent;
            Unwrap(TypeScript, ReplyTo(states[j], id).value)
            == LocalCall(TypeScript, EntryOn(states[i], intent.service), intent.name, intent.params)
  {
    i := CallWasMade(states, steps, j, id);
    RunKeepsBus(states, steps, j);
    var asked := states[j].asked[id];
    var entry := EntryOn(states[i], asked.intent.service);
    AnswerMeansLocalCall(TypeScript, TypeScript, entry, asked.intent, id);
    ParseInvertsBuildRequest(TypeScript, asked.intent.service, asked.intent.name, asked.intent.params, Str(id));
    if id !in states[j].answered {
      assert Sent(states[j], HeldAfter(states, steps, j), asked.transport, id,
                  states[j].transports[asked.transport].calls[id]);
    } else {
      assert AnsweredAtOnce(HeldAfter(states, steps, j), id, states[j].answered[id]);
    }
  }

  /** A service stays with the server that registered it until that server's transport stops. */
  lemma {:induction false} ServiceStaysHeld(states: seq<Bus>, steps: seq<BusStep>, i: nat, j: nat)
    requires IsBusRun(states, steps) && i < j < |states| && steps[i].RegisterService?
    requires forall k | i < k < j :: steps[k] != StopTransport(steps[i].name)
    ensures steps[i].service in states[j].services
    ensures states[j].services[steps[i].service] == Registered(steps[i].name, steps[i].entry)
    decreases j
  {
    if i + 1 < j { ServiceStaysHeld(states, steps, i, j - 1); }
    ServiceMovesExactly(states[j - 1], steps[j - 1], steps[i].service);
  }

  /**
   * Once the dispatch of an open call has settled, its caller has a reply exactly if the local call on the
   * server that was held has a wire form, and then it has that one.
   */
  lemma SettledCallIsAnsweredExactly(states: seq<Bus>, steps: seq<BusStep>, j: nat, id: string) returns (i: nat)
    requires IsBusRun(states, steps) && j < |steps| && id in states[j].asked && ValidIntent(states[j].asked[id].intent)
    requires steps[j] == Move(states[j].asked[id].transport, DispatchSettles(id))
    requires IsOpen(states[j].transports[states[j].asked[id].transport], id)
    ensures i < j && steps[i] == CallOf(states[j].asked[id], id)
    ensures var intent := states[j].asked[id].intent;
            ReplyTo(states[j + 1], id)
            == Encode(LocalCall(TypeScript, EntryOn(states[i], intent.service), intent.name, intent.params), id)
  {
    i := CallWasMade(states, steps, j, id);
    RunKeepsBus(states, steps, j);
    var asked := states[j].asked[id];
    var held, call := HeldAfter(states, steps, j), states[j].transports[asked.transport].calls[id];
    assert Sent(states[j], held, asked.transport, id, call);
    SettlingAnswers(states[j], asked.transport, id, held[id].value);
    assert Enabled(states[i], CallOf(asked, id));
    AnswerMeansLocalCall(TypeScript, TypeScript, EntryOn(states[i], asked.intent.service), asked.intent, id);
  }

  /**
   * From every state of a run a started transport can make any call with a fresh id and have it answered,
   * if the local call has a wire form.
   */
  lemma CallCanBeAnswered(states: seq<Bus>, steps: seq<BusStep>, name: string, id: string, intent: Intent)
    returns (calling: BusStep, called: Bus, after: Bus)
    requires IsBusRun(states, steps) && ValidIntent(intent)
    requires var b := states[|steps|]; name in b.transports && b.transports[name].state.Started? && id !in b.asked
    ensures var b := states[|steps|];
            && calling.CallService? && calling.name == name && calling.id == id && calling.intent == intent
            && Enabled(b, calling) && called == Apply(b, calling)
            && (intent.service !in b.services ==> after == called)
            && (intent.service in b.services ==>
                  var settling := Move(name, DispatchSettles(id)); Enabled(called, settling) && after == Apply(called, settling))
            && ReplyTo(after, id)
               == Encode(LocalCall(TypeScript, EntryOn(b, intent.service), intent.name, intent.params), id)
  {
    var b, held := states[|steps|], HeldAfter(states, steps, |steps|);
    RunKeepsBus(states, steps, |steps|);
    ParseInvertsBuildRequest(TypeScript, intent.service, intent.name, intent.params, Str(id));
    var env := ParseTypeScript(RequestOf(intent, id)).value;
    calling := CallService(name, id, intent, env);
    called, after := Apply(b, calling), Apply(b, calling);
    CallIsMade(b, held, name, id, intent, env);
    AnswerMeansLocalCall(TypeScript, TypeScript, EntryOn(b, intent.service), intent, id);
    if intent.service in b.services {
      StepKeepsBus(b, calling, held);
      SettlingAnswers(called, name, id, b.services[intent.service].entry);
      after := Apply(called, Move(name, DispatchSettles(id)));
    }
  }

  /** From nothing, a transport joins, starts and registers a service, and then every call can be answered. */
  lemma ReadinessIsReachable(name: string, service: string, entry: ServiceEntry) returns (states: seq<Bus>, steps: seq<BusStep>)
    ensures IsBusRun(states, steps) && |steps| == 3
    ensures name in states[3].transports && states[3].transports[name].state.Started? && states[3].asked == map[]
    ensures EntryOn(states[3], service) == Some(entry)
  {
    steps := [Join(name), Move(name, StartUp), RegisterService(name, service, entry)];
    NewTransportCanStart();
    var joined := Apply(EMPTY_BUS, steps[0]);
    var started := Apply(joined, steps[1]);
    states := [EMPTY_BUS, joined, started, Apply(started, steps[2])];
  }
}
