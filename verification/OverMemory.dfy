/**
 * The in-memory transport and the bus that many transports share: pending calls, and who owns which
 * service.
 */
module OverMemory {
  import opened Wrappers
  import opened JsonValues
  import opened Envelope
  import Protocol
  import opened CallTable

  datatype Outcome = Reply(reply: Option<Json>) | Threw

  /** What a dispatcher makes of an envelope, once it has settled. */
  type Dispatcher = Envelope -> Outcome

  // ---------------------------------------------------------------------------------------
  // The calls of one transport, as a value.
  // ---------------------------------------------------------------------------------------

  /** `dispatcher` is the one that the bus held when the call was sent. */
  datatype Call = Call(env: Envelope, dispatcher: Dispatcher, state: CallState)

  /**
   * `pending` is keyed by the text of the call id. `armed` maps each running timer to its call, and
   * `running` holds the calls whose dispatch has not settled.
   */
  datatype Memory = Memory(
    state: Lifecycle, pending: map<string, nat>, armed: map<nat, string>, nextTimer: nat,
    calls: map<string, Call>, running: set<string>)

  const NEW_MEMORY: Memory := Memory(Idle, map[], map[], 0, map[], {})

  /** `String(id)` of a string is the string itself; number formatting is not part of this model. */
  predicate IsTextOf(text: string, id: Json) {
    id.Str? ==> text == id.s
  }

  function Settle(calls: map<string, Call>, key: string, how: Settlement): map<string, Call> {
    if key in calls && calls[key].state.Open? then calls[key := calls[key].(state := Closed(how))] else calls
  }

  function Send(m: Memory, key: string, env: Envelope, dispatcher: Dispatcher): Memory {
    m.(pending := m.pending[key := m.nextTimer], armed := m.armed[m.nextTimer := key], nextTimer := m.nextTimer + 1,
       calls := m.calls[key := Call(env, dispatcher, Open)], running := m.running + {key})
  }

  /** The timer deletes by the raw id, which is a key of the table only if it is a string. */
  function FireTimer(m: Memory, timer: nat): Memory
    requires timer in m.armed && m.armed[timer] in m.calls && m.calls[m.armed[timer]].env.Request?
  {
    var key := m.armed[timer];
    var id := m.calls[key].env.id;
    m.(pending := if id.Str? then m.pending - {id.s} else m.pending,
       armed := m.armed - {timer}, calls := Settle(m.calls, key, TimedOut))
  }

  function SettlementOf(outcome: Outcome): Settlement {
    match outcome
    case Reply(Some(reply)) => Replied(reply)
    case Reply(None) => Unanswered
    case Threw => DispatchFailed
  }

  function Remove(m: Memory, key: string, how: Settlement): Memory
    requires key in m.pending
  {
    m.(pending := m.pending - {key}, armed := m.armed - {m.pending[key]}, calls := Settle(m.calls, key, how))
  }

  /** The span after `await dispatcher(parsed)`. */
  function EndDispatch(m: Memory, key: string): Memory
    requires key in m.running && key in m.calls
  {
    var n := m.(running := m.running - {key});
    if key !in m.pending then n
    else Remove(n, key, SettlementOf(m.calls[key].dispatcher(m.calls[key].env)))
  }

  /** The loop of `stop` over what is pending. */
  function RejectPending(m: Memory): Memory {
    m.(state := Stopped, pending := map[],
       armed := m.armed - (set key | key in m.pending :: m.pending[key]),
       calls := map key | key in m.calls ::
                  if key in m.pending && m.calls[key].state.Open? then m.calls[key].(state := Closed(TransportStopped))
                  else m.calls[key])
  }

  // ---------------------------------------------------------------------------------------
  // Invariants of the table.
  // ---------------------------------------------------------------------------------------

  ghost predicate IsOpen(m: Memory, key: string) {
    key in m.calls && m.calls[key].state.Open?
  }

  /** A numeric id that timed out: its key waits for the dispatch to settle. */
  ghost predicate LeftOver(m: Memory, key: string) {
    && key in m.calls && m.calls[key].env.Request? && !m.calls[key].env.id.Str?
    && m.calls[key].state == Closed(TimedOut) && key in m.running
  }

  ghost predicate CallsInv(m: Memory) {
    && m.running <= m.calls.Keys
    && forall key | key in m.calls :: m.calls[key].env.Request? && IsTextOf(key, m.calls[key].env.id)
  }

  /** The pending keys are the open calls and the left-over ones; each open call has exactly one armed timer. */
  ghost predicate PendingInv(m: Memory) {
    && (forall key | key in m.pending ::
          m.pending[key] < m.nextTimer && (IsOpen(m, key) || (LeftOver(m, key) && m.pending[key] !in m.armed)))
    && (forall key | IsOpen(m, key) ::
          key in m.pending && key in m.running && m.pending[key] in m.armed && m.armed[m.pending[key]] == key)
    && (forall t | t in m.armed ::
          t < m.nextTimer && IsOpen(m, m.armed[t]) && m.armed[t] in m.pending && m.pending[m.armed[t]] == t)
  }

  ghost predicate MemoryInv(m: Memory) {
    && CallsInv(m) && PendingInv(m)
    && (m.state.Stopped? ==> m.pending == map[])
    && (!m.state.Stopped? ==> forall key | LeftOver(m, key) :: key in m.pending)
  }

  /** With string ids the keys are exactly the unsettled calls. */
  lemma PendingIsExact(m: Memory)
    requires MemoryInv(m) && forall key | key in m.calls :: m.calls[key].env.id.Str?
    ensures forall key :: key in m.pending <==> IsOpen(m, key)
    ensures forall t | t in m.armed :: IsOpen(m, m.armed[t])
  {
  }

  lemma SendKeepsPending(m: Memory, key: string, env: Envelope, dispatcher: Dispatcher)
    requires PendingInv(m) && key !in m.calls
    ensures PendingInv(Send(m, key, env, dispatcher))
  {
  }

  lemma SendKeepsInv(m: Memory, key: string, env: Envelope, dispatcher: Dispatcher)
    requires MemoryInv(m) && m.state.Started? && key !in m.calls && env.Request? && IsTextOf(key, env.id)
    ensures var n := Send(m, key, env, dispatcher);
            && MemoryInv(n) && n.state.Started? && IsOpen(n, key) && key in n.running && key in n.pending
            && n.calls == m.calls[key := Call(env, dispatcher, Open)]
            && forall other | other in m.pending :: other in n.pending && n.pending[other] == m.pending[other]
  {
    SendKeepsPending(m, key, env, dispatcher);
  }

  lemma TimerSettles(m: Memory, timer: nat)
    requires MemoryInv(m) && timer in m.armed
    ensures var key, n := m.armed[timer], FireTimer(m, timer);
            && timer !in n.armed
            && n.calls == m.calls[key := m.calls[key].(state := Closed(TimedOut))]
            && n.pending == if m.calls[key].env.id.Str? then m.pending - {key} else m.pending
  {
  }

  lemma TimerKeepsPending(m: Memory, timer: nat)
    requires MemoryInv(m) && timer in m.armed
    ensures PendingInv(FireTimer(m, timer)) && CallsInv(FireTimer(m, timer))
  {
    TimerSettles(m, timer);
  }

  /** A timeout removes the key exactly when the id is a string; it always settles the call. */
  lemma TimerKeepsInv(m: Memory, timer: nat)
    requires MemoryInv(m) && timer in m.armed
    ensures var key, n := m.armed[timer], FireTimer(m, timer);
            && MemoryInv(n) && timer !in n.armed
            && n.calls == m.calls[key := m.calls[key].(state := Closed(TimedOut))]
            && (key !in n.pending <==> m.calls[key].env.id.Str?)
  {
    TimerSettles(m, timer);
    TimerKeepsPending(m, timer);
  }

  /** `n` is `m` after the dispatch of `key` has settled, as the caller sees it. */
  ghost predicate LearnsOutcome(m: Memory, n: Memory, key: string)
    requires key in m.calls
  {
    && n.calls.Keys == m.calls.Keys && (forall other | other in m.calls && other != key :: n.calls[other] == m.calls[other])
    && n.calls[key].(state := m.calls[key].state) == m.calls[key]
    && if !m.calls[key].state.Open? then n.calls[key].state == m.calls[key].state
       else
         match m.calls[key].dispatcher(m.calls[key].env)
         case Reply(Some(reply)) => n.calls[key].state == Closed(Replied(reply))
         case Reply(None) => n.calls[key].state == Closed(Unanswered)
         case Threw => n.calls[key].state == Closed(DispatchFailed)
  }

  lemma EndDispatchSettles(m: Memory, key: string)
    requires MemoryInv(m) && key in m.running
    ensures var n := EndDispatch(m, key);
            && key !in n.pending && key !in n.running && LearnsOutcome(m, n, key)
  {
  }

  lemma EndDispatchKeepsPending(m: Memory, key: string)
    requires CallsInv(m) && PendingInv(m) && key in m.running
    ensures CallsInv(EndDispatch(m, key)) && PendingInv(EndDispatch(m, key))
  {
  }

  /** An open call gets its dispatcher's reply, or the error that stands for a null or a throw. */
  lemma EndDispatchKeepsInv(m: Memory, key: string)
    requires MemoryInv(m) && key in m.running
    ensures var n := EndDispatch(m, key);
            MemoryInv(n) && key !in n.pending && key !in n.running && LearnsOutcome(m, n, key)
  {
    EndDispatchSettles(m, key);
    EndDispatchKeepsPending(m, key);
  }

  lemma RejectPendingKeepsInv(m: Memory)
    requires CallsInv(m) && PendingInv(m)
    ensures var n := RejectPending(m);
            && MemoryInv(n) && n.state.Stopped? && n.armed == map[] && n.pending == map[] && n.calls.Keys == m.calls.Keys
            && forall key | key in m.calls ::
                 n.calls[key] == if IsOpen(m, key) then m.calls[key].(state := Closed(TransportStopped)) else m.calls[key]
  {
  }

  lemma RemovalKeepsInv(m: Memory, key: string, how: Settlement)
    requires CallsInv(m) && PendingInv(m) && key in m.pending
    ensures CallsInv(Remove(m, key, how)) && PendingInv(Remove(m, key, how))
  {
  }

  /** What has been rejected so far is closed; what is still pending, or was not open, is as it was. */
  ghost predicate Rejecting(m: Memory, n: Memory) {
    && n.nextTimer == m.nextTimer && n.running == m.running && n.calls.Keys == m.calls.Keys
    && forall key | key in m.calls ::
         n.calls[key] == if IsOpen(m, key) && key !in n.pending then m.calls[key].(state := Closed(TransportStopped))
                         else m.calls[key]
  }

  lemma RejectionGoesOn(m: Memory, n: Memory, key: string)
    requires Rejecting(m, n) && PendingInv(m) && PendingInv(n) && key in n.pending
    ensures Rejecting(m, Remove(n, key, TransportStopped))
  {
  }

  lemma RejectionIsDone(m: Memory, n: Memory)
    requires CallsInv(m) && PendingInv(m) && PendingInv(n) && Rejecting(m, n)
    requires n.state.Stopped? && n.pending == map[]
    ensures n == RejectPending(m)
  {
  }

  // ---------------------------------------------------------------------------------------
  // Runs of one transport, and the call table they refine.
  // ---------------------------------------------------------------------------------------

  datatype Step =
    | StartUp
    | SendOut(key: string, env: Envelope, dispatcher: Dispatcher)
    | TimerFires(timer: nat)
    | DispatchSettles(key: string)
    | Stop

  ghost predicate CanStep(m: Memory, step: Step) {
    match step
    case StartUp => !m.state.Stopped?
    // The text of a call id is fresh.
    case SendOut(key, env, _) => m.state.Started? && key !in m.calls && env.Request? && IsTextOf(key, env.id)
    case TimerFires(timer) => timer in m.armed && m.armed[timer] in m.calls && m.calls[m.armed[timer]].env.Request?
    case DispatchSettles(key) => key in m.running && key in m.calls
    case Stop => true
  }

  ghost function Apply(m: Memory, step: Step): Memory
    requires CanStep(m, step)
  {
    match step
    case StartUp => m.(state := Started)
    case SendOut(key, env, dispatcher) => Send(m, key, env, dispatcher)
    case TimerFires(timer) => FireTimer(m, timer)
    case DispatchSettles(key) => EndDispatch(m, key)
    case Stop => RejectPending(m)
  }

  lemma StepKeepsInv(m: Memory, step: Step)
    requires MemoryInv(m) && CanStep(m, step)
    ensures MemoryInv(Apply(m, step))
  {
    match step {
      case StartUp =>
      case SendOut(key, env, dispatcher) => SendKeepsInv(m, key, env, dispatcher);
      case TimerFires(timer) => TimerKeepsInv(m, timer);
      case DispatchSettles(key) => EndDispatchKeepsInv(m, key);
      case Stop => RejectPendingKeepsInv(m);
    }
  }

  /** The step resolves or rejects a promise that is settled already, which does nothing. */
  ghost predicate SettlesAgain(m: Memory, step: Step)
    requires CanStep(m, step)
  {
    match step
    case TimerFires(timer) => m.calls[m.armed[timer]].state.Closed?
    case DispatchSettles(key) => key in m.pending && m.calls[key].state.Closed?
    case Stop => exists key :: key in m.pending && key in m.calls && m.calls[key].state.Closed?
    case StartUp => false
    case SendOut(_, _, _) => false
  }

  /** That happens exactly where a numeric id timed out before its dispatch settled, while the transport runs. */
  lemma SettlesAgainExactly(m: Memory, step: Step)
    requires MemoryInv(m) && CanStep(m, step)
    ensures SettlesAgain(m, step) <==>
            && !m.state.Stopped?
            && ((step.DispatchSettles? && LeftOver(m, step.key)) || (step.Stop? && exists key :: LeftOver(m, key)))
  {
    if step.Stop? && !m.state.Stopped? && exists key :: LeftOver(m, key) {
      var key :| LeftOver(m, key);
      assert key in m.pending && m.calls[key].state.Closed?;
    }
  }

  /** What each step does to an open call: it stays open, or its timer, its dispatch or `stop` settles it. */
  lemma StepSettlesExactly(m: Memory, step: Step, key: string)
    requires MemoryInv(m) && CanStep(m, step) && IsOpen(m, key)
    ensures var after := Apply(m, step).calls;
            && key in after
            && (after[key].state.Open? <==>
                  step != TimerFires(m.pending[key]) && step != DispatchSettles(key) && !step.Stop?)
            && (step == TimerFires(m.pending[key]) ==> after[key].state == Closed(TimedOut))
            && (step.Stop? ==> after[key].state == Closed(TransportStopped))
  {
    match step {
      case StartUp =>
      case SendOut(other, env, dispatcher) =>
      case TimerFires(timer) => TimerKeepsInv(m, timer);
      case DispatchSettles(other) => EndDispatchKeepsInv(m, other);
      case Stop => RejectPendingKeepsInv(m);
    }
  }

  /** A new transport starts; an open call can be settled by its timer and by its dispatch. */
  lemma NewTransportCanStart()
    ensures NEW_MEMORY.state.Idle? && NEW_MEMORY.calls == map[] && CanStep(NEW_MEMORY, StartUp)
    ensures Apply(NEW_MEMORY, StartUp) == NEW_MEMORY.(state := Started)
  {
  }

  lemma EveryCallCanEnd(m: Memory, key: string)
    requires MemoryInv(m) && IsOpen(m, key)
    ensures key in m.pending && CanStep(m, TimerFires(m.pending[key])) && CanStep(m, DispatchSettles(key)) && CanStep(m, Stop)
  {
  }

  predicate Answers(call: Call) {
    call.dispatcher(call.env).Reply? && call.dispatcher(call.env).reply.Some?
  }

  /** The call and the reply that its own dispatcher makes of its own envelope. */
  function AnswerOf(key: string, call: Call): (string, Json) {
    (key, if Answers(call) then call.dispatcher(call.env).reply.value else Null)
  }

  ghost function View(m: Memory): Table {
    Table(map key | key in m.calls :: m.calls[key].state,
          set key | key in m.calls && Answers(m.calls[key]) :: AnswerOf(key, m.calls[key]))
  }

  /** Calls keep their envelope and dispatcher, and a closed one keeps its state. */
  ghost predicate CallsMove(m: Memory, n: Memory) {
    && m.calls.Keys <= n.calls.Keys
    && (forall key | key in n.calls && key !in m.calls :: n.calls[key].state.Open?)
    && (forall key | key in m.calls ::
          && n.calls[key].(state := Open) == m.calls[key].(state := Open)
          && (n.calls[key].state == m.calls[key].state
              || (m.calls[key].state.Open?
                  && (n.calls[key].state.how.Replied? ==>
                        Answers(m.calls[key]) && (key, n.calls[key].state.how.outcome) == AnswerOf(key, m.calls[key])))))
  }

  lemma StepMovesCalls(m: Memory, step: Step)
    requires MemoryInv(m) && CanStep(m, step)
    ensures CallsMove(m, Apply(m, step))
  {
    match step {
      case StartUp =>
      case SendOut(key, env, dispatcher) =>
      case TimerFires(timer) => TimerKeepsInv(m, timer);
      case DispatchSettles(key) => EndDispatchKeepsInv(m, key);
      case Stop => RejectPendingKeepsInv(m);
    }
  }

  lemma MoveRefines(m: Memory, n: Memory)
    requires CallsMove(m, n)
    ensures Next(View(m), View(n))
  {
  }

  ghost predicate IsRun(states: seq<Memory>, steps: seq<Step>) {
    && |states| == |steps| + 1 && states[0] == NEW_MEMORY
    && forall i | 0 <= i < |steps| :: CanStep(states[i], steps[i]) && states[i + 1] == Apply(states[i], steps[i])
  }

  lemma {:induction false} RunKeepsInv(states: seq<Memory>, steps: seq<Step>, i: nat)
    requires IsRun(states, steps) && i < |states|
    ensures MemoryInv(states[i])
  {
    if i > 0 {
      RunKeepsInv(states, steps, i - 1);
      StepKeepsInv(states[i - 1], steps[i - 1]);
    }
  }

  /** Every run of the in-memory transport is a behaviour of the call table, as the runs over Redis are. */
  lemma RunsRefineCallTable(states: seq<Memory>, steps: seq<Step>)
    requires IsRun(states, steps)
    ensures Behaviour(Views(states, View))
  {
    var tables := Views(states, View);
    assert tables[0] == EMPTY;
    forall i | 0 < i < |tables|
      ensures Next(tables[i - 1], tables[i])
    {
      RunKeepsInv(states, steps, i - 1);
      StepMovesCalls(states[i - 1], steps[i - 1]);
      MoveRefines(states[i - 1], states[i]);
    }
  }

  lemma {:induction false} DispatchersStay(states: seq<Memory>, steps: seq<Step>, i: nat, j: nat, key: string)
    requires IsRun(states, steps) && i <= j < |states| && key in states[i].calls
    ensures key in states[j].calls
    ensures states[j].calls[key].env == states[i].calls[key].env
    ensures states[j].calls[key].dispatcher == states[i].calls[key].dispatcher
    decreases j
  {
    if i < j {
      DispatchersStay(states, steps, i, j - 1, key);
      RunKeepsInv(states, steps, j - 1);
      StepMovesCalls(states[j - 1], steps[j - 1]);
      var before, after := states[j - 1].calls[key], states[j].calls[key];
      assert after.(state := Open).dispatcher == before.(state := Open).dispatcher;
      assert after.(state := Open).env == before.(state := Open).env;
    }
  }

  /** A caller gets at most one outcome, and a reply is what the call's own dispatcher made of its own envelope. */
  lemma RepliesAreOwn(states: seq<Memory>, steps: seq<Step>, j: nat, key: string)
    requires IsRun(states, steps) && j < |states| && key in states[j].calls
    requires states[j].calls[key].state.Closed? && states[j].calls[key].state.how.Replied?
    ensures var call := states[j].calls[key];
            call.dispatcher(call.env) == Reply(Some(call.state.how.outcome))
  {
    RunsRefineCallTable(states, steps);
    var i := RepliesWereProduced(Views(states, View), j, key);
    DispatchersStay(states, steps, i, j, key);
    var outcome := states[j].calls[key].state.how.outcome;
    assert (key, outcome) in View(states[i]).produced;
    var k :| k in states[i].calls && Answers(states[i].calls[k]) && AnswerOf(k, states[i].calls[k]) == (key, outcome);
  }

  /** Once stopped, a transport stays stopped and its table stays empty. */
  lemma {:induction false} EmptyForGood(states: seq<Memory>, steps: seq<Step>, i: nat, j: nat)
    requires IsRun(states, steps) && i <= j < |states| && states[i].state.Stopped?
    ensures states[j].state.Stopped? && states[j].pending == map[] && states[j].armed == map[]
    decreases j
  {
    RunKeepsInv(states, steps, j);
    if i < j {
      EmptyForGood(states, steps, i, j - 1);
      RunKeepsInv(states, steps, j - 1);
    }
    assert states[j].armed.Keys == {};
  }

  // ---------------------------------------------------------------------------------------
  // The bus and the transports on it.
  // ---------------------------------------------------------------------------------------

  class MemoryBus {
    var dispatchers: map<string, Dispatcher>
    /** Every transport that was ever put on this bus. */
    ghost var members: set<MemoryTransport>

    /** Owned service sets are pairwise disjoint and together equal the registered keys. */
    ghost predicate Valid()
      reads this, members`myServices
    {
      && (forall t | t in members :: t.bus == this && t.myServices <= dispatchers.Keys)
      && (forall t, u | t in members && u in members && t != u :: t.myServices !! u.myServices)
      && (forall s | s in dispatchers :: exists t :: t in members && s in t.myServices)
    }

    constructor ()
      ensures Valid() && dispatchers == map[] && members == {}
    {
      dispatchers, members := map[], {};
    }

    method Register(service: string, dispatch: Dispatcher) returns (ok: bool)
      modifies this`dispatchers
      ensures ok <==> service !in old(dispatchers)
      ensures dispatchers == if ok then old(dispatchers)[service := dispatch] else old(dispatchers)
    {
      ok := service !in dispatchers;
      if ok { dispatchers := dispatchers[service := dispatch]; }
    }

    method Unregister(service: string)
      modifies this`dispatchers
      ensures dispatchers == old(dispatchers) - {service}
    {
      dispatchers := dispatchers - {service};
    }
  }

  datatype SendResult = Refused | Answered(reply: Json) | Waiting

  datatype NotifyResult = NotSent | Dropped | Dispatched(dispatcher: Dispatcher)

  class MemoryTransport {
    const bus: MemoryBus
    var state: Lifecycle
    var pending: map<string, nat>
    var armed: map<nat, string>
    var nextTimer: nat
    var calls: map<string, Call>
    var running: set<string>
    var myServices: set<string>

    ghost function Calls(): Memory
      reads this
    {
      Memory(state, pending, armed, nextTimer, calls, running)
    }

    constructor (bus: MemoryBus)
      requires bus.Valid()
      modifies bus`members
      ensures this.bus == bus && Calls() == NEW_MEMORY && myServices == {}
      ensures state.Idle? && pending == map[] && armed == map[] && calls == map[] && running == {}
      ensures bus.Valid() && bus.members == old(bus.members) + {this}
    {
      this.bus := bus;
      state, pending, armed, nextTimer, calls, running := Idle, map[], map[], 0, map[], {};
      myServices := {};
      new;
      bus.members := bus.members + {this};
    }

    /** A rejected registration changes nothing. */
    method RegisterService(name: string, dispatch: Dispatcher) returns (ok: bool)
      requires bus.Valid() && this in bus.members
      modifies bus`dispatchers, this`myServices
      ensures bus.Valid()
      ensures ok <==> forall t | t in bus.members :: name !in old(t.myServices)
      ensures myServices == if ok then old(myServices) + {name} else old(myServices)
      ensures bus.dispatchers == if ok then old(bus.dispatchers)[name := dispatch] else old(bus.dispatchers)
    {
      ok := bus.Register(name, dispatch);
      if ok { myServices := myServices + {name}; }
    }

    method SendCall(env: Json, key: string) returns (r: SendResult)
      requires MemoryInv(Calls())
      requires key !in calls && (ParseTypeScript(env).Success? && ParseTypeScript(env).value.Request? ==>
                                   IsTextOf(key, ParseTypeScript(env).value.id))
      modifies this
      ensures MemoryInv(Calls()) && myServices == old(myServices)
      ensures r.Refused? <==> !old(state).Started? || !ParseTypeScript(env).Success? || !ParseTypeScript(env).value.Request?
      ensures !r.Refused? ==>
                var request := ParseTypeScript(env).value;
                if request.service in bus.dispatchers
                then r.Waiting? && Calls() == Send(old(Calls()), key, request, bus.dispatchers[request.service])
                else r == Answered(Protocol.NotFound(request.id))
      ensures !r.Waiting? ==> Calls() == old(Calls())
    {
      if !state.Started? { return Refused; }
      var parsed := ParseTypeScript(env);
      if parsed.Failure? || !parsed.value.Request? { return Refused; }
      var request := parsed.value;
      if request.service !in bus.dispatchers { return Answered(Protocol.NotFound(request.id)); }
      Enlist(key, request, bus.dispatchers[request.service]);
      return Waiting;
    }

    /** Arms the timer, enters the call, and queues its dispatch. */
    method Enlist(key: string, request: Envelope, dispatcher: Dispatcher)
      requires MemoryInv(Calls()) && state.Started? && key !in calls && request.Request? && IsTextOf(key, request.id)
      modifies this`nextTimer, this`armed, this`pending, this`calls, this`running
      ensures MemoryInv(Calls()) && Calls() == Send(old(Calls()), key, request, dispatcher)
    {
      SendKeepsInv(Calls(), key, request, dispatcher);
      armed := armed[nextTimer := key];
      pending := pending[key := nextTimer];
      nextTimer := nextTimer + 1;
      calls := calls[key := Call(request, dispatcher, Open)];
      running := running + {key};
    }

    method TimerFired(timer: nat)
      requires MemoryInv(Calls()) && timer in armed
      modifies this`armed, this`pending, this`calls
      ensures MemoryInv(Calls()) && Calls() == FireTimer(old(Calls()), timer)
    {
      TimerKeepsInv(Calls(), timer);
      var key := armed[timer];
      armed := armed - {timer};
      var id := calls[key].env.id;
      if id.Str? { pending := pending - {id.s}; }
      calls := Settle(calls, key, TimedOut);
    }

    /** The callback of the dispatch, whether the dispatcher replied, answered null, or threw. */
    method DispatchSettled(key: string)
      requires MemoryInv(Calls()) && key in running
      modifies this`armed, this`pending, this`calls, this`running
      ensures MemoryInv(Calls()) && Calls() == EndDispatch(old(Calls()), key)
      ensures LearnsOutcome(old(Calls()), Calls(), key) && key !in pending && key !in running
    {
      EndDispatchKeepsInv(Calls(), key);
      running := running - {key};
      if key !in pending { return; }
      var timer := pending[key];
      pending := pending - {key};
      armed := armed - {timer};
      var outcome := calls[key].dispatcher(calls[key].env);
      match outcome {
        case Threw => calls := Settle(calls, key, DispatchFailed);
        case Reply(reply) =>
          if reply.None? {
            calls := Settle(calls, key, Unanswered);
          } else {
            calls := Settle(calls, key, Replied(reply.value));
          }
      }
    }

    method Notify(env: Json) returns (r: NotifyResult)
      ensures r.NotSent? <==> !state.Started? || !ParseTypeScript(env).Success? || !ParseTypeScript(env).value.Notification?
      ensures !r.NotSent? ==>
                var service := ParseTypeScript(env).value.service;
                r == if service in bus.dispatchers then Dispatched(bus.dispatchers[service]) else Dropped
    {
      if !state.Started? { return NotSent; }
      var parsed := ParseTypeScript(env);
      if parsed.Failure? || !parsed.value.Notification? { return NotSent; }
      if parsed.value.service !in bus.dispatchers { return Dropped; }
      return Dispatched(bus.dispatchers[parsed.value.service]);
    }

    method Start() returns (ok: bool)
      requires MemoryInv(Calls())
      modifies this`state
      ensures MemoryInv(Calls())
      ensures ok <==> !old(state).Stopped?
      ensures state == if ok then Started else old(state)
    {
      ok := !state.Stopped?;
      if ok { state := Started; }
    }

    /** Rejects and forgets every pending call, and takes exactly its own services off the bus. */
    method Stop()
      requires bus.Valid() && this in bus.members && MemoryInv(Calls())
      modifies this, bus`dispatchers
      ensures bus.Valid() && MemoryInv(Calls())
      ensures Calls() == RejectPending(old(Calls())) && state.Stopped? && pending == map[] && armed == map[]
      ensures myServices == {} && bus.dispatchers == old(bus.dispatchers) - old(myServices)
    {
      RejectPendingKeepsInv(Calls());
      RejectAll();
      UnregisterMine();
    }

    method UnregisterMine()
      requires bus.Valid() && this in bus.members
      modifies this`myServices, bus`dispatchers
      ensures bus.Valid() && myServices == {} && bus.dispatchers == old(bus.dispatchers) - old(myServices)
    {
      var left := myServices;
      while left != {}
        invariant left <= myServices == old(myServices)
        invariant bus.dispatchers == old(bus.dispatchers) - (myServices - left)
      {
        var name :| name in left;
        bus.Unregister(name);
        left := left - {name};
      }
      myServices := {};
    }

    method RejectOne(key: string)
      requires CallsInv(Calls()) && PendingInv(Calls()) && key in pending
      modifies this`pending, this`armed, this`calls
      ensures CallsInv(Calls()) && PendingInv(Calls())
      ensures Calls() == Remove(old(Calls()), key, TransportStopped)
    {
      RemovalKeepsInv(Calls(), key, TransportStopped);
      armed := armed - {pending[key]};
      calls := Settle(calls, key, TransportStopped);
      pending := pending - {key};
    }

    method RejectAll()
      requires CallsInv(Calls()) && PendingInv(Calls())
      modifies this`state, this`pending, this`armed, this`calls
      ensures Calls() == RejectPending(old(Calls()))
    {
      state := Stopped;
      while pending != map[]
        invariant CallsInv(Calls()) && PendingInv(Calls()) && state.Stopped?
        invariant Rejecting(old(Calls()), Calls())
        decreases |pending.Keys|
      {
        var key :| key in pending;
        RejectionGoesOn(old(Calls()), Calls(), key);
        ghost var keys := pending.Keys;
        RejectOne(key);
        assert pending.Keys == keys - {key};
      }
      RejectionIsDone(old(Calls()), Calls());
    }
  }
}
