/**
 * The server transport as an object that drives the command groups: starting, handling an entry, the
 * passes of its two loops. Every method only takes steps of the transition system, and with one live
 * server and no errors the reclaim loop drains what others abandoned.
 */
module ServerTransport {
  import opened Wrappers
  import opened JsonValues
  import opened CallTable
  import opened ReplyStreams
  import opened CommandGroup
  import opened GroupInvariants
  import opened HandingOut
  import Keys

  // ---------------------------------------------------------------------------------------
  // What a pass of the reclaim loop takes.
  // ---------------------------------------------------------------------------------------

  /** All that is pending for the loop's service is past its idle threshold. */
  ghost predicate AllAbandoned(g: Redis, l: nat) {
    && l in g.loops
    && forall e | e in PendingOf(g, g.loops[l].service) :: g.pel[e].deliveredAt + g.loops[l].idleMs <= g.now
  }

  /** One claim takes the 32 oldest abandoned entries, or all of them if there are fewer. */
  lemma ClaimTakesOldest(g: Redis, l: nat)
    requires AllAbandoned(g, l) && Enabled(g, Claim(l))
    ensures var pending, taken := PendingOf(g, g.loops[l].service), Elements(ClaimedEntries(g, l));
            && taken <= pending && |taken| == Min(32, |pending|)
            && forall e, f | e in taken && f in pending - taken :: e < f
  {
    var service, entries := g.loops[l].service, ClaimedEntries(g, l);
    var pending, taken := PendingOf(g, service), Elements(entries);
    forall e | e in taken
      ensures e in pending
    {
      assert Claimable(g.log, g.pel, service, g.now, g.loops[l].idleMs, e);
    }
    AscendingElements(entries);
    SubsetSize(taken, pending);
    if |entries| < CLAIM_COUNT {
      forall e | e in pending
        ensures e in taken
      {
        assert Claimable(g.log, g.pel, service, g.now, g.loops[l].idleMs, e);
      }
      assert taken == pending;
    }
    forall e, f | e in taken && f in pending - taken
      ensures e < f
    {
      assert Claimable(g.log, g.pel, service, g.now, g.loops[l].idleMs, f);
      var i :| 0 <= i < |entries| && entries[i] == e;
      ClaimSkipsNone(g.log, g.pel, service, g.now, g.loops[l].idleMs, 0, CLAIM_COUNT, f, i);
    }
  }

  // ---------------------------------------------------------------------------------------
  // What handling does to the rest of the state.
  // ---------------------------------------------------------------------------------------

  /** Only loop `l`, the dispatches, the reply streams and the clock differ. */
  ghost predicate OnlyLoop(g: Redis, h: Redis, l: nat) {
    && h.log == g.log && h.created == g.created && h.mark == g.mark && h.deliveries == g.deliveries
    && g.now <= h.now && l in g.loops && l in h.loops
    && h.loops == g.loops[l := h.loops[l]]
    && h.loops[l].(batch := g.loops[l].batch, pc := g.loops[l].pc, since := g.loops[l].since) == g.loops[l]
  }

  /** `done` has left the pending list for good. */
  ghost predicate Acknowledges(g: Redis, h: Redis, done: set<nat>) {
    h.pel == g.pel - done && h.acked == g.acked + done
  }

  function EntryOf(g: Redis, d: nat): nat {
    if d < |g.deliveries| then g.deliveries[d].entry else 0
  }

  /** The entries of a batch. */
  function HeldBy(g: Redis, batch: seq<nat>): set<nat> {
    set d | d in batch :: EntryOf(g, d)
  }

  lemma HeldGrows(g: Redis, batch: seq<nat>, n: nat)
    requires n < |batch|
    ensures HeldBy(g, batch[..n + 1]) == HeldBy(g, batch[..n]) + {EntryOf(g, batch[n])}
  {
  }

  /** What one dispatch of the head leaves behind. */
  ghost predicate AnswersHead(g: Redis, h: Redis, l: nat, reply: Option<Json>)
    requires BusyLoop(g, l)
  {
    var entry, k := g.log[Head(g, l)], |g.dispatches|;
    if entry.body.Poison? then h.dispatches == g.dispatches && h.streams == g.streams
    else
      && h.dispatches == g.dispatches + [Dispatch(g.loops[l].batch[0], Returned(reply))]
      && if entry.replyTo.Some? && reply.Some? && entry.body.Call? then
           var name := entry.replyTo.value;
           && name in h.streams && h.streams == g.streams[name := h.streams[name]]
           && h.streams[name].items == StreamOf(g.streams, name).items + [Message(entry.body.id, reply.value, k)]
         else h.streams == g.streams
  }

  /** What a dispatcher makes of an entry that is not poison. */
  type Dispatcher = Entry -> Option<Json>

  /** A dispatcher replies only to calls. */
  ghost predicate Proper(dispatch: Dispatcher) {
    forall entry: Entry :: dispatch(entry).Some? ==> entry.body.Call?
  }

  /** The batch of a loop holds deliveries of entries. */
  ghost predicate HoldsBatch(g: Redis, l: nat) {
    && l in g.loops
    && forall i | 0 <= i < |g.loops[l].batch| ::
         g.loops[l].batch[i] < |g.deliveries| && g.deliveries[g.loops[l].batch[i]].entry < |g.log|
  }

  datatype Options = Options(instanceId: string, idleMs: nat, maxLen: nat)

  /** Each service has its group; existing groups are as they were, a new one starts at the end of its stream. */
  ghost predicate GroupsExist(g: Redis, h: Redis, services: seq<string>) {
    && (forall s | s in services :: s in h.mark)
    && (forall s | s in g.mark :: s in h.mark && h.mark[s] == g.mark[s])
    && (forall s | s in h.mark && s !in g.mark ::
          s in services && h.mark[s] == |g.log| && s in h.created && h.created[s] == |g.log|)
  }

  /** A loop that a transport with these options has just started for a service. */
  ghost predicate IsStarted(loop: Loop, service: string, kind: Kind, options: Options) {
    && loop.service == service && loop.kind == kind && loop.consumer == service + ":" + options.instanceId
    && loop.idleMs == options.idleMs && loop.maxLen == options.maxLen
    && loop.batch == [] && loop.pc.Ready?
  }

  /** Two loops for each service, in the order of the services, beside those that ran before. */
  ghost predicate LoopsRun(g: Redis, h: Redis, services: seq<string>, base: nat, options: Options) {
    && (forall l | l in g.loops :: l in h.loops && h.loops[l] == g.loops[l])
    && (forall l | l in h.loops && l !in g.loops :: base <= l < base + 2 * |services|)
    && (forall n {:trigger services[n]} | 0 <= n < |services| ::
          && base + 2 * n in h.loops && IsStarted(h.loops[base + 2 * n], services[n], Consumer, options)
          && base + 2 * n + 1 in h.loops && IsStarted(h.loops[base + 2 * n + 1], services[n], Reclaimer, options))
  }

  ghost predicate IsServing(g: Redis, h: Redis, services: seq<string>, base: nat, options: Options) {
    && h == g.(created := h.created, mark := h.mark, loops := h.loops)
    && GroupsExist(g, h, services) && LoopsRun(g, h, services, base, options)
  }

  /** `h` is `g` after `entries` went to loop `l`. */
  ghost predicate Hands(g: Redis, h: Redis, l: nat, entries: seq<nat>) {
    && l in g.loops && l in h.loops && h.log == g.log
    && h.loops[l].batch == Range(|g.deliveries|, |entries|)
    && |h.deliveries| == |g.deliveries| + |entries|
    && (forall i | 0 <= i < |entries| :: h.deliveries[|g.deliveries| + i].entry == entries[i])
  }

  lemma DeliverHands(g: Redis, l: nat, entries: seq<nat>, claimed: bool, mark: map<string, nat>)
    requires l in g.loops
    ensures Hands(g, Deliver(g, l, entries, claimed).(mark := mark), l, entries)
  {
  }

  lemma HandedBatch(g: Redis, h: Redis, l: nat, entries: seq<nat>)
    requires Hands(g, h, l, entries) && forall e | e in entries :: e < |g.log|
    ensures HoldsBatch(h, l) && HeldBy(h, h.loops[l].batch) == Elements(entries)
  {
    var batch, n := h.loops[l].batch, |g.deliveries|;
    forall i | 0 <= i < |batch|
      ensures batch[i] == n + i && EntryOf(h, batch[i]) == entries[i] && entries[i] < |h.log|
    {
      assert entries[i] in entries;
    }
    forall e | e in Elements(entries)
      ensures e in HeldBy(h, batch)
    {
      var i :| 0 <= i < |entries| && entries[i] == e;
      assert batch[i] in batch;
    }
  }

  lemma HandedPel(g: Redis, l: nat, entries: seq<nat>, claimed: bool)
    requires l in g.loops
    ensures Deliver(g, l, entries, claimed).pel - Elements(entries) == g.pel - Elements(entries)
  {
  }

  /** What a loop holds right after a read or a claim. */
  lemma ReadHoldsBatch(g: Redis, l: nat)
    requires Enabled(g, Read(l))
    ensures var h := DoRead(g, l);
            && HoldsBatch(h, l) && h.loops[l].pc.Ready?
            && HeldBy(h, h.loops[l].batch) == Elements(NextEntries(g, l))
            && h.pel - Elements(NextEntries(g, l)) == g.pel - Elements(NextEntries(g, l))
  {
    var h, entries := DoRead(g, l), NextEntries(g, l);
    if entries != [] {
      DeliverHands(g, l, entries, false, h.mark);
      HandedBatch(g, h, l, entries);
      HandedPel(g, l, entries, false);
    }
  }

  lemma ClaimHoldsBatch(g: Redis, l: nat)
    requires Enabled(g, Claim(l))
    ensures var h := DoClaim(g, l);
            && HoldsBatch(h, l) && h.loops[l].pc.Ready?
            && HeldBy(h, h.loops[l].batch) == Elements(ClaimedEntries(g, l))
            && h.pel - Elements(ClaimedEntries(g, l)) == g.pel - Elements(ClaimedEntries(g, l))
  {
    var entries := ClaimedEntries(g, l);
    forall e | e in entries
      ensures e < |g.log|
    {
      assert Claimable(g.log, g.pel, g.loops[l].service, g.now, g.loops[l].idleMs, e);
    }
    if entries != [] {
      DeliverHands(g, l, entries, true, g.mark);
      HandedBatch(g, DoClaim(g, l), l, entries);
      HandedPel(g, l, entries, true);
    }
  }

  lemma OneMoreGroup(g: Redis, before: Redis, after: Redis, services: seq<string>, service: string)
    requires GroupsExist(g, before, services) && before.log == g.log
    requires after.mark == DoCreateGroup(before, service).mark && after.created == DoCreateGroup(before, service).created
    ensures GroupsExist(g, after, services + [service])
  {
  }

  lemma OneMorePair(g: Redis, before: Redis, after: Redis, services: seq<string>, service: string,
                    base: nat, options: Options)
    requires LoopsRun(g, before, services, base, options) && forall l | base <= l :: l !in g.loops
    requires var l := base + 2 * |services|;
             && after.loops.Keys == before.loops.Keys + {l, l + 1}
             && (forall m | m in before.loops && m != l && m != l + 1 :: after.loops[m] == before.loops[m])
             && IsStarted(after.loops[l], service, Consumer, options)
             && IsStarted(after.loops[l + 1], service, Reclaimer, options)
    ensures LoopsRun(g, after, services + [service], base, options)
  {
    var more := services + [service];
    forall n | 0 <= n < |more|
      ensures base + 2 * n in after.loops && IsStarted(after.loops[base + 2 * n], more[n], Consumer, options)
      ensures base + 2 * n + 1 in after.loops && IsStarted(after.loops[base + 2 * n + 1], more[n], Reclaimer, options)
    {
      if n < |services| { assert more[n] == services[n]; }
    }
  }

  function Execute(origin: Redis, trace: seq<ServerStep>): Option<Redis> {
    if trace == [] then Some(origin)
    else
      var last := trace[|trace| - 1];
      match Execute(origin, trace[..|trace| - 1])
      case None => None
      case Some(g) => if Enabled(g, last) then Some(Apply(g, last)) else None
  }

  lemma ExecuteOneMore(origin: Redis, trace: seq<ServerStep>, step: ServerStep)
    requires Execute(origin, trace).Some? && Enabled(Execute(origin, trace).value, step)
    ensures Execute(origin, trace + [step]) == Some(Apply(Execute(origin, trace).value, step))
  {
  }

  /** Whatever the transport has done, the invariants of the transition system hold. */
  lemma {:induction false} ExecuteKeepsInv(origin: Redis, trace: seq<ServerStep>)
    requires Inv(origin) && Execute(origin, trace).Some?
    ensures Inv(Execute(origin, trace).value)
  {
    if trace != [] {
      ExecuteKeepsInv(origin, trace[..|trace| - 1]);
      StepKeepsInv(Execute(origin, trace[..|trace| - 1]).value, trace[|trace| - 1]);
    }
  }

  // ---------------------------------------------------------------------------------------
  // Draining.
  // ---------------------------------------------------------------------------------------

  /** What is left of `n` after so many passes. */
  function Left(n: nat, passes: nat): nat {
    if n <= 32 * passes then 0 else n - 32 * passes
  }

  lemma LeftAfterOneMore(n: nat, passes: nat)
    ensures Left(n, passes + 1) == Left(n, passes) - Min(32, Left(n, passes))
  {
  }

  lemma LeftIsNothingExactly(n: nat, passes: nat)
    ensures Left(n, passes) == 0 <==> (n + 31) / 32 <= passes
  {
  }

  lemma ClaimFrame(g: Redis, l: nat)
    requires Enabled(g, Claim(l))
    ensures var h := DoClaim(g, l);
            && h.log == g.log && h.now == g.now && h.loops.Keys == g.loops.Keys
            && h.loops[l].(batch := [], pc := Ready, since := g.loops[l].since) == g.loops[l]
  {
  }

  /** A pass takes the oldest 32 for good, and what remains is still abandoned. */
  lemma PassDrains(g: Redis, at: Redis, h: Redis, l: nat)
    requires AllAbandoned(g, l) && Enabled(g, Claim(l)) && g.now <= at.now && at == g.(now := at.now)
    requires h.log == g.log && at.now <= h.now && l in h.loops
    requires h.loops[l].service == g.loops[l].service && h.loops[l].idleMs == g.loops[l].idleMs
    requires Acknowledges(g, h, Elements(ClaimedEntries(at, l)))
    ensures AllAbandoned(h, l)
    ensures var before, after := PendingOf(g, g.loops[l].service), PendingOf(h, g.loops[l].service);
            && after <= before && |after| == |before| - Min(32, |before|)
            && forall e, f | e in before - after && f in after :: e < f
  {
    var service, taken := g.loops[l].service, Elements(ClaimedEntries(at, l));
    var before, after := PendingOf(g, service), PendingOf(h, service);
    assert PendingOf(at, service) == before;
    ClaimTakesOldest(at, l);
    assert after == before - taken;
    assert before == after + taken;
  }

  // ---------------------------------------------------------------------------------------
  // What others may do while `handleEntry` awaits.
  // ---------------------------------------------------------------------------------------

  /** The step can be taken, and leaves loop `l` as it is. */
  predicate LeavesLoop(g: Redis, step: ServerStep, l: nat)
    requires l in g.loops
  {
    Enabled(g, step) && l in Apply(g, step).loops && Apply(g, step).loops[l] == g.loops[l]
  }

  lemma GrowthGoesOn(f: Redis, g: Redis, h: Redis)
    requires Grows(f, g) && Grows(g, h)
    ensures Grows(f, h)
  {
  }

  lemma TakenStepGrows(origin: Redis, trace: seq<ServerStep>, g: Redis, step: ServerStep)
    requires Inv(origin) && Execute(origin, trace) == Some(g) && Enabled(g, step)
    ensures Grows(g, Apply(g, step))
  {
    ExecuteKeepsInv(origin, trace);
    StepKeepsInv(g, step);
  }

  /** Loop `l` is at this entry, with this batch. */
  ghost predicate IsAt(g: Redis, l: nat, batch: seq<nat>, entry: Entry) {
    BusyLoop(g, l) && g.loops[l].batch == batch && g.log[Head(g, l)] == entry
  }

  lemma OthersLeaveHead(g: Redis, h: Redis, l: nat, batch: seq<nat>, entry: Entry)
    requires Grows(g, h) && IsAt(g, l, batch, entry) && l in h.loops && h.loops[l] == g.loops[l]
    ensures IsAt(h, l, batch, entry) && Head(h, l) == Head(g, l)
  {
    assert h.deliveries[batch[0]] == g.deliveries[batch[0]];
    assert h.log[g.deliveries[batch[0]].entry] == g.log[g.deliveries[batch[0]].entry];
  }

  /** Dispatch `k` is of this delivery and returned `answer`, which is in the stream that the entry names. */
  ghost predicate IsAnswered(g: Redis, d: nat, entry: Entry, answer: Option<Json>, k: nat) {
    && k < |g.dispatches| && g.dispatches[k] == Dispatch(d, Returned(answer))
    && (answer.Some? && entry.replyTo.Some? && entry.body.Call? ==>
          Message(entry.body.id, answer.value, k) in StreamOf(g.streams, entry.replyTo.value).items)
  }

  lemma GrowthKeepsAnswer(g: Redis, h: Redis, d: nat, entry: Entry, answer: Option<Json>, k: nat)
    requires Grows(g, h) && IsAnswered(g, d, entry, answer, k)
    ensures IsAnswered(h, d, entry, answer, k)
  {
    if answer.Some? && entry.replyTo.Some? && entry.body.Call? {
      var name := entry.replyTo.value;
      assert StreamOf(g.streams, name).items <= StreamOf(h.streams, name).items;
    }
  }

  // ---------------------------------------------------------------------------------------
  // The transport.
  // ---------------------------------------------------------------------------------------

  class Transport {
    const options: Options
    var state: Lifecycle
    /** The services with a dispatcher, in the order of their registration. */
    var services: seq<string>
    var dispatchers: map<string, Dispatcher>
    /** Redis and the loops on it, as they stand. */
    var g: Redis
    ghost const origin: Redis
    ghost var trace: seq<ServerStep>

    /** The steps taken so far are steps of the transition system. */
    ghost predicate Valid()
      reads this
    {
      Execute(origin, trace) == Some(g)
    }

    constructor (start: Redis, options: Options)
      ensures Valid() && g == start && trace == [] && state.Idle? && services == [] && dispatchers == map[]
      ensures this.options == options
    {
      this.options := options;
      state, services, dispatchers := Idle, [], map[];
      g, origin, trace := start, start, [];
    }

    /** A service that is registered again keeps its place and gets the new dispatcher. */
    method RegisterService(name: string, dispatch: Dispatcher)
      modifies this`services, this`dispatchers
      ensures services == if name in old(services) then old(services) else old(services) + [name]
      ensures dispatchers == old(dispatchers)[name := dispatch]
    {
      if name !in services { services := services + [name]; }
      dispatchers := dispatchers[name := dispatch];
    }

    /** Loop `l` is one of a service with a dispatcher. */
    ghost predicate Serves(l: nat)
      reads this
    {
      && l in g.loops && g.loops[l].service in dispatchers
      && Proper(dispatchers[g.loops[l].service])
    }

    method Take(step: ServerStep)
      requires Valid() && Enabled(g, step)
      modifies this`g, this`trace
      ensures Valid() && g == Apply(old(g), step) && trace == old(trace) + [step]
    {
      ExecuteOneMore(origin, trace, step);
      g := Apply(g, step);
      trace := trace + [step];
    }

    method ServeService(service: string, l: nat)
      requires Valid() && l !in g.loops && l + 1 !in g.loops
      modifies this`g, this`trace
      ensures Valid()
      ensures g == old(g).(created := g.created, mark := g.mark, loops := g.loops)
      ensures var grouped := DoCreateGroup(old(g), service);
              g.mark == grouped.mark && g.created == grouped.created
      ensures g.loops.Keys == old(g).loops.Keys + {l, l + 1}
      ensures forall m | m in old(g).loops :: g.loops[m] == old(g).loops[m]
      ensures IsStarted(g.loops[l], service, Consumer, options) && IsStarted(g.loops[l + 1], service, Reclaimer, options)
    {
      var consumer := Keys.ConsumerName(service, options.instanceId);
      Take(CreateGroup(service));
      Take(StartLoop(l, service, consumer, Consumer, options.idleMs, options.maxLen));
      Take(StartLoop(l + 1, service, consumer, Reclaimer, options.idleMs, options.maxLen));
    }

    method ServeServices(names: seq<string>, base: nat)
      requires Valid() && forall l | base <= l :: l !in g.loops
      modifies this`g, this`trace
      ensures Valid() && IsServing(old(g), g, names, base, options)
    {
      for i := 0 to |names|
        invariant Valid() && IsServing(old(g), g, names[..i], base, options)
      {
        ghost var before := g;
        ServeService(names[i], base + 2 * i);
        assert names[..i + 1] == names[..i] + [names[i]];
        OneMoreGroup(old(g), before, g, names[..i], names[i]);
        OneMorePair(old(g), before, g, names[..i], names[i], base, options);
      }
      assert names[..|names|] == names;
    }

    /**
     * Creates the groups and starts two loops for each service, numbered from `base` on. Of the XGROUP
     * commands, the first `reachable` succeed or find the group; the next one throws.
     */
    method StartTransport(base: nat, reachable: nat) returns (ok: bool)
      requires Valid() && forall l | base <= l :: l !in g.loops
      modifies this`state, this`g, this`trace
      ensures Valid()
      ensures !old(state).Idle? ==> g == old(g) && state == old(state) && ok == old(state).Started?
      ensures old(state).Idle? ==> state.Started? && ok == (|services| <= reachable)
      ensures old(state).Idle? ==> IsServing(old(g), g, services[..Min(|services|, reachable)], base, options)
    {
      if !state.Idle? { return state.Started?; }
      state := Started;
      ServeServices(services[..Min(|services|, reachable)], base);
      return |services| <= reachable;
    }

    // The four spans of `handleEntry`.

    method BeginHead(l: nat)
      requires Valid() && BusyLoop(g, l) && g.loops[l].pc.Ready?
      modifies this`g, this`trace
      ensures Valid() && OnlyLoop(old(g), g, l) && g.now == old(g).now
      ensures g.pel == old(g).pel && g.acked == old(g).acked && g.streams == old(g).streams
      ensures g.loops[l].batch == old(g).loops[l].batch
      ensures if g.log[Head(old(g), l)].body.Poison?
              then g.loops[l].pc == Acking(None) && g.dispatches == old(g).dispatches
              else g.loops[l].pc == Dispatching(|old(g).dispatches|)
                   && g.dispatches == old(g).dispatches + [Dispatch(g.loops[l].batch[0], Running)]
    {
      Take(Begin(l));
    }

    /** The dispatcher settles after some time. */
    method ReturnHead(l: nat, reply: Option<Json>)
      requires Valid() && Enabled(g, Return(l, reply))
      modifies this`g, this`trace
      ensures Valid() && OnlyLoop(old(g), g, l)
      ensures g.pel == old(g).pel && g.acked == old(g).acked && g.streams == old(g).streams
      ensures g.loops[l].batch == old(g).loops[l].batch
      ensures var k := old(g).loops[l].pc.k;
              && g.dispatches == old(g).dispatches[k := old(g).dispatches[k].(progress := Returned(reply))]
              && g.loops[l].pc == if g.log[Head(old(g), l)].replyTo.Some? && reply.Some?
                                  then Replying(k, reply.value) else Acking(Some(k))
    {
      var ms: nat := *;
      Take(Tick(ms));
      Take(Return(l, reply));
    }

    method ReplyHead(l: nat)
      requires Valid() && BusyLoop(g, l) && g.loops[l].pc.Replying?
      requires g.log[Head(g, l)].replyTo.Some? && g.log[Head(g, l)].body.Call?
      modifies this`g, this`trace
      ensures Valid() && OnlyLoop(old(g), g, l) && g.now == old(g).now
      ensures g.pel == old(g).pel && g.acked == old(g).acked && g.dispatches == old(g).dispatches
      ensures g.loops[l].batch == old(g).loops[l].batch && g.loops[l].pc.Acking?
      ensures var entry, pc := g.log[Head(old(g), l)], old(g).loops[l].pc;
              var name := entry.replyTo.value;
              && name in g.streams && g.streams == old(g).streams[name := g.streams[name]]
              && g.streams[name].items
                 == StreamOf(old(g).streams, name).items + [Message(entry.body.id, pc.outcome, pc.k)]
    {
      var stream := StreamOf(g.streams, g.log[Head(g, l)].replyTo.value);
      var trimTo: nat :| trimTo == 0 || MayTrim(stream, g.loops[l].maxLen, trimTo);
      Take(AddReply(l, trimTo));
    }

    method AckHead(l: nat)
      requires Valid() && BusyLoop(g, l) && g.loops[l].pc.Acking?
      modifies this`g, this`trace
      ensures Valid() && OnlyLoop(old(g), g, l) && g.now == old(g).now
      ensures Acknowledges(old(g), g, {Head(old(g), l)})
      ensures g.dispatches == old(g).dispatches && g.streams == old(g).streams
      ensures g.loops[l].batch == old(g).loops[l].batch[1..] && g.loops[l].pc.Ready?
    {
      Take(Ack(l));
    }

    /** `handleEntry` on the head of the batch, when no other loop acts meanwhile. */
    method HandleEntry(l: nat)
      requires Valid() && BusyLoop(g, l) && g.loops[l].pc.Ready? && Serves(l)
      modifies this`g, this`trace
      ensures Valid() && OnlyLoop(old(g), g, l) && Acknowledges(old(g), g, {Head(old(g), l)})
      ensures g.loops[l].batch == old(g).loops[l].batch[1..] && g.loops[l].pc.Ready?
      ensures AnswersHead(old(g), g, l, dispatchers[old(g).loops[l].service](old(g).log[Head(old(g), l)]))
    {
      var entry := g.log[Head(g, l)];
      BeginHead(l);
      if entry.body.Poison? {
        AckHead(l);
        return;
      }
      var reply := dispatchers[g.loops[l].service](entry);
      ReturnHead(l, reply);
      if entry.replyTo.Some? && reply.Some? {
        ReplyHead(l);
      }
      AckHead(l);
    }

    /** While this loop awaits, others take some of these steps. */
    method LetOthersAct(l: nat, ghost batch: seq<nat>, ghost entry: Entry, steps: seq<ServerStep>)
      requires Valid() && Inv(origin) && IsAt(g, l, batch, entry)
      modifies this`g, this`trace
      ensures Valid() && Grows(old(g), g) && IsAt(g, l, batch, entry) && Head(g, l) == Head(old(g), l)
      ensures g.loops[l] == old(g).loops[l]
    {
      for i := 0 to |steps|
        invariant Valid() && Grows(old(g), g) && l in g.loops && g.loops[l] == old(g).loops[l]
      {
        if LeavesLoop(g, steps[i], l) {
          TakenStepGrows(origin, trace, g, steps[i]);
          GrowthGoesOn(old(g), g, Apply(g, steps[i]));
          Take(steps[i]);
        }
      }
      OthersLeaveHead(old(g), g, l, batch, entry);
    }

    method DispatchAmidOthers(l: nat, entry: Entry, reply: Option<Json>, ghost batch: seq<nat>, ghost k: nat,
                              others: seq<ServerStep>)
      requires Valid() && Inv(origin) && IsAt(g, l, batch, entry) && g.loops[l].pc == Dispatching(k)
      requires k < |g.dispatches| && g.dispatches[k].delivery == batch[0] && (reply.Some? ==> entry.body.Call?)
      modifies this`g, this`trace
      ensures Valid() && IsAt(g, l, batch, entry) && Head(g, l) == Head(old(g), l)
      ensures k < |g.dispatches| && g.dispatches[k] == Dispatch(batch[0], Returned(reply))
      ensures g.loops[l].pc == if entry.replyTo.Some? && reply.Some? then Replying(k, reply.value) else Acking(Some(k))
    {
      LetOthersAct(l, batch, entry, others);
      ReturnHead(l, reply);
    }

    method ReplyAmidOthers(l: nat, entry: Entry, reply: Option<Json>, ghost batch: seq<nat>, ghost k: nat,
                           others: seq<ServerStep>)
      requires Valid() && Inv(origin) && IsAt(g, l, batch, entry) && reply.Some? && g.loops[l].pc == Replying(k, reply.value)
      requires entry.replyTo.Some? && entry.body.Call?
      requires k < |g.dispatches| && g.dispatches[k] == Dispatch(batch[0], Returned(reply))
      modifies this`g, this`trace
      ensures Valid() && IsAt(g, l, batch, entry) && Head(g, l) == Head(old(g), l) && g.loops[l].pc.Acking?
      ensures IsAnswered(g, batch[0], entry, reply, k)
    {
      LetOthersAct(l, batch, entry, others);
      ReplyHead(l);
    }

    /** From the dispatcher's invocation to the acknowledgement. */
    method AnswerAmidOthers(l: nat, entry: Entry, reply: Option<Json>, ghost batch: seq<nat>, ghost k: nat,
                            duringDispatch: seq<ServerStep>, duringAdd: seq<ServerStep>)
      requires Valid() && Inv(origin) && IsAt(g, l, batch, entry) && g.loops[l].pc == Dispatching(k)
      requires k < |g.dispatches| && g.dispatches[k].delivery == batch[0] && (reply.Some? ==> entry.body.Call?)
      modifies this`g, this`trace
      ensures Valid() && IsAt(g, l, batch, entry) && Head(g, l) == Head(old(g), l) && g.loops[l].pc.Acking?
      ensures IsAnswered(g, batch[0], entry, reply, k)
    {
      DispatchAmidOthers(l, entry, reply, batch, k, duringDispatch);
      if entry.replyTo.Some? && reply.Some? {
        ReplyAmidOthers(l, entry, reply, batch, k, duringAdd);
      }
    }

    method AckAmidOthers(l: nat, entry: Entry, reply: Option<Json>, ghost batch: seq<nat>, ghost k: nat,
                         others: seq<ServerStep>)
      requires Valid() && Inv(origin) && IsAt(g, l, batch, entry) && g.loops[l].pc.Acking?
      requires !entry.body.Poison? ==> IsAnswered(g, batch[0], entry, reply, k)
      modifies this`g, this`trace
      ensures Valid() && l in g.loops && g.loops[l].batch == batch[1..] && g.loops[l].pc.Ready?
      ensures Head(old(g), l) in g.acked && Head(old(g), l) !in g.pel
      ensures !entry.body.Poison? ==> IsAnswered(g, batch[0], entry, reply, k)
    {
      ghost var before := g;
      LetOthersAct(l, batch, entry, others);
      if !entry.body.Poison? { GrowthKeepsAnswer(before, g, batch[0], entry, reply, k); }
      AckHead(l);
    }

    /**
     * `handleEntry` with other loops, of this server and of others, acting at each of its awaits: during
     * the dispatch, the XADD and the XACK. `k` numbers its dispatch.
     */
    method HandleEntryAmidOthers(l: nat, duringDispatch: seq<ServerStep>, duringAdd: seq<ServerStep>, duringAck: seq<ServerStep>)
      returns (ghost k: nat)
      requires Valid() && Inv(origin) && BusyLoop(g, l) && g.loops[l].pc.Ready? && Serves(l)
      modifies this`g, this`trace
      ensures Valid() && l in g.loops && g.loops[l].batch == old(g).loops[l].batch[1..] && g.loops[l].pc.Ready?
      ensures Head(old(g), l) in g.acked && Head(old(g), l) !in g.pel
      ensures k == |old(g).dispatches|
      ensures var entry := old(g).log[Head(old(g), l)];
              !entry.body.Poison? ==>
                IsAnswered(g, old(g).loops[l].batch[0], entry, dispatchers[old(g).loops[l].service](entry), k)
    {
      ghost var batch := g.loops[l].batch;
      var entry := g.log[Head(g, l)];
      var reply := dispatchers[g.loops[l].service](entry);
      k := |g.dispatches|;
      BeginHead(l);
      if !entry.body.Poison? {
        AnswerAmidOthers(l, entry, reply, batch, k, duringDispatch, duringAdd);
      }
      AckAmidOthers(l, entry, reply, batch, k, duringAck);
    }

    /** The for-loop over one batch. */
    method HandleBatch(l: nat)
      requires Valid() && HoldsBatch(g, l) && g.loops[l].pc.Ready? && Serves(l)
      modifies this`g, this`trace
      ensures Valid() && OnlyLoop(old(g), g, l)
      ensures Acknowledges(old(g), g, HeldBy(old(g), old(g).loops[l].batch))
      ensures g.loops[l].batch == [] && g.loops[l].pc.Ready?
    {
      ghost var batch := g.loops[l].batch;
      ghost var n := 0;
      while g.loops[l].batch != []
        invariant Valid() && OnlyLoop(old(g), g, l) && g.loops[l].pc.Ready? && Serves(l)
        invariant 0 <= n <= |batch| && g.loops[l].batch == batch[n..]
        invariant Acknowledges(old(g), g, HeldBy(old(g), batch[..n]))
        decreases |g.loops[l].batch|
      {
        assert batch[n..][0] == batch[n];
        HandleEntry(l);
        HeldGrows(old(g), batch, n);
        assert batch[n..][1..] == batch[n + 1..];
        n := n + 1;
      }
      assert batch[..n] == batch;
    }

    /** One turn of the consumer loop. */
    method ConsumerPass(l: nat)
      requires Valid() && Enabled(g, Read(l)) && Serves(l)
      modifies this`g, this`trace
      ensures Valid() && IdleLoop(g, l, Consumer) && OnlyLoop(DoRead(old(g), l), g, l)
      ensures Acknowledges(old(g), g, Elements(NextEntries(old(g), l)))
    {
      ReadHoldsBatch(g, l);
      Take(Read(l));
      HandleBatch(l);
    }

    /**
     * One turn of the reclaim loop: it sleeps, claims and handles what it claimed. `at` is the state in
     * which XAUTOCLAIM took effect.
     */
    method ReclaimPass(l: nat, lateMs: nat) returns (ghost at: Redis)
      requires Valid() && Enabled(g, Claim(l)) && Serves(l)
      modifies this`g, this`trace
      ensures Valid() && IdleLoop(g, l, Reclaimer)
      ensures at == old(g).(now := old(g).now + Nap(g.loops[l].idleMs) + lateMs)
      ensures OnlyLoop(DoClaim(at, l), g, l)
      ensures Acknowledges(old(g), g, Elements(ClaimedEntries(at, l)))
    {
      Take(Tick(Nap(g.loops[l].idleMs) + lateMs));
      at := g;
      ClaimHoldsBatch(g, l);
      Take(Claim(l));
      HandleBatch(l);
    }

    /**
     * The reclaim loop until it sees the abort flag, after `passes` turns. With nobody else at work, what
     * was abandoned is gone exactly when 32 entries a turn have covered it.
     */
    method RunReclaimLoop(l: nat, passes: nat, lateMs: nat)
      requires Valid() && Enabled(g, Claim(l)) && Serves(l) && AllAbandoned(g, l)
      modifies this`g, this`trace
      ensures Valid() && IdleLoop(g, l, Reclaimer)
      ensures var service := g.loops[l].service;
              var n := |PendingOf(old(g), service)|;
              && |PendingOf(g, service)| == Left(n, passes)
              && (PendingOf(g, service) == {} <==> (n + 31) / 32 <= passes)
    {
      ghost var service := g.loops[l].service;
      ghost var n := |PendingOf(g, service)|;
      for done := 0 to passes
        invariant Valid() && Enabled(g, Claim(l)) && AllAbandoned(g, l) && g.loops[l].service == service && Serves(l)
        invariant |PendingOf(g, service)| == Left(n, done)
      {
        ghost var before := g;
        ghost var at := ReclaimPass(l, lateMs);
        ClaimFrame(at, l);
        PassDrains(before, at, g, l);
        LeftAfterOneMore(n, done);
      }
      LeftIsNothingExactly(n, passes);
    }
  }
}
