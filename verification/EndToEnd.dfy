/**
 * The protocol layer over Redis: whatever crashes, repeats or gets lost on the way, a caller that receives
 * a reply receives the outcome of the local call.
 */
module EndToEnd {
  import opened Wrappers
  import opened JsonValues
  import opened Envelope
  import opened Protocol
  import opened Intents
  import opened Clients
  import Group = CommandGroup
  import GroupInvariants
  import Redis = RedisSystem

  /** What all servers of a service have in common: their language, contract and handlers. */
  datatype Deployment = Deployment(lang: string -> Language, services: map<string, ServiceEntry>)

  function EntryFor(d: Deployment, service: string): Option<ServiceEntry> {
    if service in d.services then Some(d.services[service]) else None
  }

  /** What the dispatcher of `service` returns for the request. */
  function AnswerOf(d: Deployment, service: string, intent: Intent, id: string): Option<Json> {
    AnswerFrom(d.lang(service), EntryFor(d, service), intent, id)
  }

  // ---------------------------------------------------------------------------------------
  // Routing.
  // ---------------------------------------------------------------------------------------

  /** A call is sent to the stream of the service that it names. */
  ghost predicate Intends(intents: map<string, Intent>, step: Redis.Step) {
    step.Act? ==> forall id | id in Sent(step.move) :: id in intents && intents[id].service == step.service
  }

  ghost predicate EntryRouted(intents: map<string, Intent>, entry: Group.Entry) {
    entry.body.Call? ==> entry.body.id in intents && intents[entry.body.id].service == entry.service
  }

  /** Every call, on its way or arrived, is in the stream of its service. */
  ghost predicate Routed(intents: map<string, Intent>, s: Redis.System) {
    && (forall id | id in s.wire :: EntryRouted(intents, s.wire[id]))
    && (forall e | 0 <= e < |s.redis.log| :: EntryRouted(intents, s.redis.log[e]))
  }

  lemma MoveKeepsRouted(intents: map<string, Intent>, s: Redis.System, step: Redis.Step)
    requires Routed(intents, s) && step.Act? && Redis.Enabled(s, step) && Intends(intents, step)
    ensures Routed(intents, Redis.Apply(s, step))
  {
  }

  lemma StepKeepsRouted(intents: map<string, Intent>, s: Redis.System, step: Redis.Step)
    requires Routed(intents, s) && Redis.Enabled(s, step) && Intends(intents, step)
    ensures Routed(intents, Redis.Apply(s, step))
  {
    if step.Act? {
      MoveKeepsRouted(intents, s, step);
    } else if step.Serve? {
      Redis.ServerStepsKeepLog(s.redis, step.step);
    }
  }

  // ---------------------------------------------------------------------------------------
  // Answering.
  // ---------------------------------------------------------------------------------------

  /** The loops run the dispatcher of their own service: what a dispatch returns is what that makes of the request. */
  ghost predicate Serves(d: Deployment, intents: map<string, Intent>, s: Redis.System, step: Redis.Step) {
    step.Serve? && step.step.Return? && Redis.Enabled(s, step) ==>
      var body := s.redis.log[Group.Head(s.redis, step.step.l)].body;
      body.Call? && body.id in intents ==>
        step.step.reply == AnswerOf(d, s.redis.loops[step.step.l].service, intents[body.id], body.id)
  }

  /** Dispatch `k`, if it has returned and was for a call, returned the answer of the service that the call names. */
  ghost predicate Answered(d: Deployment, intents: map<string, Intent>, g: Group.Redis, k: nat) {
    k < |g.dispatches| && g.dispatches[k].progress.Returned? && g.dispatches[k].delivery < |g.deliveries|
    && g.deliveries[g.dispatches[k].delivery].entry < |g.log|
    && g.log[g.deliveries[g.dispatches[k].delivery].entry].body.Call? ==>
      var id := g.log[g.deliveries[g.dispatches[k].delivery].entry].body.id;
      id in intents && g.dispatches[k].progress.reply == AnswerOf(d, intents[id].service, intents[id], id)
  }

  /** A returned dispatch had returned before, unless this is the step that returned it. */
  lemma OnlyReturnReturns(g: Group.Redis, step: Group.ServerStep, k: nat)
    requires Group.Enabled(g, step) && k < |Group.Apply(g, step).dispatches|
    requires Group.Apply(g, step).dispatches[k].progress.Returned?
    ensures k < |g.dispatches|
    ensures Group.Apply(g, step).dispatches[k] == g.dispatches[k]
            || (step.Return? && g.loops[step.l].pc.k == k
                && Group.Apply(g, step).dispatches[k] == g.dispatches[k].(progress := Group.Returned(step.reply)))
  {
  }

  /** The step that returns dispatch `k` gives it the answer of the call's own service. */
  lemma ReturnAnswers(d: Deployment, intents: map<string, Intent>, s: Redis.System, step: Redis.Step, k: nat)
    requires Group.LoopInv(s.redis) && Group.PcInv(s.redis) && Routed(intents, s)
    requires Redis.Enabled(s, step) && Serves(d, intents, s, step)
    requires step.Serve? && step.step.Return? && s.redis.loops[step.step.l].pc.k == k
    ensures Answered(d, intents, Redis.Apply(s, step).redis, k)
  {
    var g, loop := s.redis, s.redis.loops[step.step.l];
    assert Group.BatchInv(g, loop) && Group.PcOk(g, loop);
    assert EntryRouted(intents, g.log[Group.Head(g, step.step.l)]);
  }

  lemma StepKeepsAnswered(d: Deployment, intents: map<string, Intent>, s: Redis.System, step: Redis.Step, k: nat)
    requires Group.Inv(s.redis) && Redis.Enabled(s, step) && Serves(d, intents, s, step) && Routed(intents, s)
    requires k < |s.redis.dispatches| ==> Answered(d, intents, s.redis, k)
    ensures Answered(d, intents, Redis.Apply(s, step).redis, k)
  {
    var g, h := s.redis, Redis.Apply(s, step).redis;
    Redis.StepGrows(s, step);
    if step.Serve? && step.step.Return? && g.loops[step.step.l].pc.k == k {
      ReturnAnswers(d, intents, s, step, k);
    } else if k < |h.dispatches| && h.dispatches[k].progress.Returned? {
      if step.Serve? {
        OnlyReturnReturns(g, step.step, k);
      }
      assert Group.DispatchOk(g, g.dispatches[k]);
      var delivery := g.dispatches[k].delivery;
      assert h.deliveries[delivery] == g.deliveries[delivery];
      assert h.log[g.deliveries[delivery].entry] == g.log[g.deliveries[delivery].entry];
    }
  }

  ghost predicate IsServedRun(d: Deployment, intents: map<string, Intent>,
                              states: seq<Redis.System>, steps: seq<Redis.Step>) {
    && Redis.IsRun(states, steps)
    && forall i | 0 <= i < |steps| :: Intends(intents, steps[i]) && Serves(d, intents, states[i], steps[i])
  }

  lemma {:induction false} RunKeepsRouted(d: Deployment, intents: map<string, Intent>,
                                          states: seq<Redis.System>, steps: seq<Redis.Step>, i: nat)
    requires IsServedRun(d, intents, states, steps) && i < |states|
    ensures Routed(intents, states[i])
  {
    if i > 0 {
      RunKeepsRouted(d, intents, states, steps, i - 1);
      StepKeepsRouted(intents, states[i - 1], steps[i - 1]);
    }
  }

  lemma ServedStepKeepsAnswered(d: Deployment, intents: map<string, Intent>,
                                states: seq<Redis.System>, steps: seq<Redis.Step>, i: nat, k: nat)
    requires IsServedRun(d, intents, states, steps) && i < |steps|
    requires Routed(intents, states[i]) && Answered(d, intents, states[i].redis, k)
    ensures Answered(d, intents, states[i + 1].redis, k)
  {
    Redis.RunKeepsInv(states, steps, i);
    StepKeepsAnswered(d, intents, states[i], steps[i], k);
  }

  lemma {:induction false} RunKeepsAnswered(d: Deployment, intents: map<string, Intent>,
                                            states: seq<Redis.System>, steps: seq<Redis.Step>, i: nat, k: nat)
    requires IsServedRun(d, intents, states, steps) && i < |states|
    ensures Answered(d, intents, states[i].redis, k)
    decreases i
  {
    if i > 0 {
      RunKeepsAnswered(d, intents, states, steps, i - 1, k);
      RunKeepsRouted(d, intents, states, steps, i - 1);
      ServedStepKeepsAnswered(d, intents, states, steps, i - 1, k);
    }
  }

  /**
   * In every run, under every interleaving of clients of both languages, servers, crashes, errors, reclaims
   * and trims: a call that is answered is answered with the outcome of the local call on the service it
   * names, as a client of its language reports it.
   */
  lemma RedisCallMeansLocalCall(d: Deployment, intents: map<string, Intent>,
                                states: seq<Redis.System>, steps: seq<Redis.Step>, j: nat, id: string)
    requires IsServedRun(d, intents, states, steps) && j < |states|
    requires forall i | i in intents :: ValidIntent(intents[i])
    requires id in states[j].owner && Redis.StateOf(states[j], id).Closed? && Redis.StateOf(states[j], id).how.Replied?
    ensures id in intents && states[j].owner[id] in states[j].clients
    ensures var clientLang, service := LanguageOf(states[j].clients[states[j].owner[id]]), intents[id].service;
            var entry := if service in d.services then Some(d.services[service]) else None;
            Unwrap(clientLang, Redis.StateOf(states[j], id).how.outcome)
            == Expected(clientLang, d.lang(service), entry, intents[id])
  {
    var i, k, e := Redis.RepliesAnswerTheirRequest(states, steps, j, id);
    Redis.RunKeepsInv(states, steps, j);
    RunKeepsAnswered(d, intents, states, steps, i, k);
    assert Answered(d, intents, states[i].redis, k);
    var clientLang, service := LanguageOf(states[j].clients[states[j].owner[id]]), intents[id].service;
    AnswerMeansLocalCall(clientLang, d.lang(service), EntryFor(d, service), intents[id], id);
  }
}
