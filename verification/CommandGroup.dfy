/**
 * Command streams, their consumer groups and the server loops that read, dispatch, reply,
 * acknowledge and reclaim, as a transition system. Every step is one span between two awaits, or one
 * command taking effect in Redis; a crash or an error may fall between any two steps.
 *
 * All command streams share one log: an entry names its service, and the stream of a service is the
 * entries that name it, in log order.
 */
module CommandGroup {
  import opened Wrappers
  import opened JsonValues
  import opened ReplyStreams

  const READ_COUNT: nat := 16
  const CLAIM_COUNT: nat := 32

  /**
   * `Poison` has no envelope, no JSON or no acceptable envelope. `Silent` is an envelope that every
   * dispatcher answers with null: a notification or a response.
   */
  datatype Body = Poison | Call(id: string) | Silent

  /** `replyTo` names a reply stream. */
  datatype Entry = Entry(service: string, body: Body, replyTo: Option<string>)

  datatype PelEntry = PelEntry(consumer: string, deliveredAt: nat)

  /** One handing of an entry to a loop, by XREADGROUP or by XAUTOCLAIM. */
  datatype Delivery = Delivery(entry: nat, claimed: bool)

  datatype Progress = Running | Returned(reply: Option<Json>)

  /** One invocation of a dispatcher. */
  datatype Dispatch = Dispatch(delivery: nat, progress: Progress)

  /** Where `handleEntry` stands on the head of the batch. */
  datatype Pc = Ready | Dispatching(k: nat) | Replying(k: nat, outcome: Json) | Acking(cause: Option<nat>)

  datatype Kind = Consumer | Reclaimer

  /** `batch` holds the deliveries that the loop has not finished with; `since` is when the head's turn came. */
  datatype Loop = Loop(service: string, consumer: string, kind: Kind, idleMs: nat, maxLen: nat,
                       batch: seq<nat>, pc: Pc, since: nat)

  datatype Redis = Redis(
    log: seq<Entry>,
    created: map<string, nat>,          // where each group was created
    mark: map<string, nat>,             // the group's last-delivered mark: one past the last entry handed out
    pel: map<nat, PelEntry>,
    acked: set<nat>,
    deliveries: seq<Delivery>,
    dispatches: seq<Dispatch>,
    loops: map<nat, Loop>,
    streams: map<string, ReplyStream>,
    now: nat)

  const EMPTY_REDIS: Redis := Redis([], map[], map[], map[], {}, [], [], map[], map[], 0)

  /** The reclaim loop's sleep: a quarter of the threshold, and at least a second. */
  function Nap(idleMs: nat): (ms: nat)
    ensures 1000 <= ms && idleMs <= 4 * ms
    ensures ms == 1000 || 4 * (ms - 1) < idleMs
  {
    if idleMs <= 4000 then 1000 else (idleMs + 3) / 4
  }

  function StreamOf(streams: map<string, ReplyStream>, name: string): ReplyStream {
    if name in streams then streams[name] else NO_REPLIES
  }

  // ---------------------------------------------------------------------------------------
  // What the two reading commands return.
  // ---------------------------------------------------------------------------------------

  /** The first `count` entries of a service at or after `from`. */
  function NewEntries(log: seq<Entry>, service: string, from: nat, count: nat): (r: seq<nat>)
    ensures |r| <= count
    ensures forall i | 0 <= i < |r| :: from <= r[i] < |log| && log[r[i]].service == service
    ensures forall i, j | 0 <= i < j < |r| :: r[i] < r[j]
    decreases |log| - from
  {
    if from >= |log| || count == 0 then []
    else if log[from].service == service then [from] + NewEntries(log, service, from + 1, count - 1)
    else NewEntries(log, service, from + 1, count)
  }

  /** Nothing of the service is skipped. */
  lemma {:induction false} NewEntriesSkipNone(log: seq<Entry>, service: string, from: nat, count: nat, e: nat)
    requires from <= e < |log| && log[e].service == service && count > 0
    ensures var r := NewEntries(log, service, from, count);
            r != [] && (e in r || r[|r| - 1] < e)
    decreases |log| - from
  {
    if log[from].service == service {
      if from < e && count > 1 { NewEntriesSkipNone(log, service, from + 1, count - 1, e); }
    } else {
      NewEntriesSkipNone(log, service, from + 1, count, e);
    }
  }

  /** Pending for the service, and undelivered for at least `idleMs`. */
  predicate Claimable(log: seq<Entry>, pel: map<nat, PelEntry>, service: string, now: nat, idleMs: nat, e: nat) {
    e < |log| && e in pel && log[e].service == service && pel[e].deliveredAt + idleMs <= now
  }

  /** XAUTOCLAIM from the start of the pending list: the first `count` idle entries, in id order. */
  function IdleEntries(log: seq<Entry>, pel: map<nat, PelEntry>, service: string, now: nat, idleMs: nat,
                       from: nat, count: nat): (r: seq<nat>)
    ensures |r| <= count
    ensures forall i | 0 <= i < |r| :: from <= r[i] && Claimable(log, pel, service, now, idleMs, r[i])
    ensures forall i, j | 0 <= i < j < |r| :: r[i] < r[j]
    ensures |r| < count ==>
              forall e: nat | from <= e && Claimable(log, pel, service, now, idleMs, e) :: e in r
    decreases |log| - from
  {
    if from >= |log| || count == 0 then []
    else if Claimable(log, pel, service, now, idleMs, from)
    then [from] + IdleEntries(log, pel, service, now, idleMs, from + 1, count - 1)
    else IdleEntries(log, pel, service, now, idleMs, from + 1, count)
  }

  function DeliveriesOf(entries: seq<nat>, claimed: bool): (r: seq<Delivery>)
    ensures |r| == |entries|
    ensures forall i | 0 <= i < |r| :: r[i] == Delivery(entries[i], claimed)
  {
    if entries == [] then [] else [Delivery(entries[0], claimed)] + DeliveriesOf(entries[1..], claimed)
  }

  function Range(from: nat, count: nat): (r: seq<nat>)
    ensures |r| == count && forall i | 0 <= i < count :: r[i] == from + i
  {
    if count == 0 then [] else Range(from, count - 1) + [from + count - 1]
  }

  /** Entries become pending for the consumer, and a batch of the loop. */
  function Deliver(g: Redis, l: nat, entries: seq<nat>, claimed: bool): Redis
    requires l in g.loops
  {
    var loop := g.loops[l];
    g.(pel := g.pel + map e | e in entries :: PelEntry(loop.consumer, g.now),
       deliveries := g.deliveries + DeliveriesOf(entries, claimed),
       loops := g.loops[l := loop.(batch := Range(|g.deliveries|, |entries|), since := g.now)])
  }

  // ---------------------------------------------------------------------------------------
  // Steps.
  // ---------------------------------------------------------------------------------------

  datatype ServerStep =
    | CreateGroup(service: string)
    | StartLoop(l: nat, service: string, consumer: string, kind: Kind, idleMs: nat, maxLen: nat)
    | Crash(l: nat)                              // the loop is gone
    | Abort(l: nat)                              // an exception reached the loop: its batch is dropped
    | Read(l: nat)                               // XREADGROUP
    | Claim(l: nat)                              // XAUTOCLAIM
    | Begin(l: nat)                              // decode the head; invoke the dispatcher unless it is poison
    | Return(l: nat, reply: Option<Json>)        // the dispatcher settles
    | AddReply(l: nat, trimTo: nat)              // XADD to the reply stream
    | Ack(l: nat)                                // XACK
    | Tick(ms: nat)

  predicate IdleLoop(g: Redis, l: nat, kind: Kind) {
    l in g.loops && g.loops[l].kind == kind && g.loops[l].batch == [] && g.loops[l].pc.Ready?
  }

  predicate BusyLoop(g: Redis, l: nat) {
    l in g.loops && g.loops[l].batch != [] && g.loops[l].batch[0] < |g.deliveries|
    && g.deliveries[g.loops[l].batch[0]].entry < |g.log|
  }

  /** The entry a loop is at. */
  function Head(g: Redis, l: nat): (e: nat)
    requires BusyLoop(g, l)
    ensures e < |g.log|
  {
    g.deliveries[g.loops[l].batch[0]].entry
  }

  predicate Enabled(g: Redis, step: ServerStep) {
    match step
    case CreateGroup(_) => true
    case StartLoop(l, service, _, _, _, _) => l !in g.loops && service in g.mark
    case Crash(l) => l in g.loops
    case Abort(l) => l in g.loops
    case Read(l) => IdleLoop(g, l, Consumer) && g.loops[l].service in g.mark
    case Claim(l) => IdleLoop(g, l, Reclaimer)
    case Begin(l) => BusyLoop(g, l) && g.loops[l].pc.Ready?
    case Return(l, reply) =>
      // A dispatcher replies only to calls; its null for a call marks a notification-declared method.
      BusyLoop(g, l) && g.loops[l].pc.Dispatching? && g.loops[l].pc.k < |g.dispatches|
      && (reply.Some? ==> g.log[Head(g, l)].body.Call?)
    case AddReply(l, trimTo) =>
      BusyLoop(g, l) && g.loops[l].pc.Replying? && g.log[Head(g, l)].replyTo.Some? && g.log[Head(g, l)].body.Call?
      && MayTrim(StreamOf(g.streams, g.log[Head(g, l)].replyTo.value), g.loops[l].maxLen, trimTo)
    case Ack(l) => BusyLoop(g, l) && g.loops[l].pc.Acking?
    case Tick(_) => true
  }

  function SetLoop(g: Redis, l: nat, loop: Loop): Redis {
    g.(loops := g.loops[l := loop])
  }

  /** BUSYGROUP leaves an existing group alone; a new one starts at the end of its stream. */
  function DoCreateGroup(g: Redis, service: string): Redis {
    if service in g.mark then g
    else g.(created := g.created[service := |g.log|], mark := g.mark[service := |g.log|])
  }

  function DoRead(g: Redis, l: nat): Redis
    requires Enabled(g, Read(l))
  {
    var service := g.loops[l].service;
    var entries := NewEntries(g.log, service, g.mark[service], READ_COUNT);
    if entries == [] then g
    else Deliver(g, l, entries, false).(mark := g.mark[service := entries[|entries| - 1] + 1])
  }

  function DoClaim(g: Redis, l: nat): Redis
    requires Enabled(g, Claim(l))
  {
    var loop := g.loops[l];
    var entries := IdleEntries(g.log, g.pel, loop.service, g.now, loop.idleMs, 0, CLAIM_COUNT);
    if entries == [] then g else Deliver(g, l, entries, true)
  }

  function DoBegin(g: Redis, l: nat): Redis
    requires Enabled(g, Begin(l))
  {
    var loop := g.loops[l];
    if g.log[Head(g, l)].body.Poison? then SetLoop(g, l, loop.(pc := Acking(None)))
    else
      SetLoop(g, l, loop.(pc := Dispatching(|g.dispatches|)))
        .(dispatches := g.dispatches + [Dispatch(loop.batch[0], Running)])
  }

  function DoReturn(g: Redis, l: nat, reply: Option<Json>): Redis
    requires Enabled(g, Return(l, reply))
  {
    var loop := g.loops[l];
    var k := loop.pc.k;
    var next := if g.log[Head(g, l)].replyTo.Some? && reply.Some? then Replying(k, reply.value) else Acking(Some(k));
    SetLoop(g, l, loop.(pc := next)).(dispatches := g.dispatches[k := g.dispatches[k].(progress := Returned(reply))])
  }

  function DoAddReply(g: Redis, l: nat, trimTo: nat): Redis
    requires Enabled(g, AddReply(l, trimTo))
  {
    var loop := g.loops[l];
    var entry := g.log[Head(g, l)];
    var name := entry.replyTo.value;
    var message := Message(entry.body.id, loop.pc.outcome, loop.pc.k);
    SetLoop(g, l, loop.(pc := Acking(Some(loop.pc.k))))
      .(streams := g.streams[name := Append(StreamOf(g.streams, name), message, trimTo)])
  }

  function DoAck(g: Redis, l: nat): Redis
    requires Enabled(g, Ack(l))
  {
    var loop := g.loops[l];
    SetLoop(g, l, loop.(batch := loop.batch[1..], pc := Ready, since := g.now))
      .(pel := g.pel - {Head(g, l)}, acked := g.acked + {Head(g, l)})
  }

  function Apply(g: Redis, step: ServerStep): Redis
    requires Enabled(g, step)
  {
    match step
    case CreateGroup(service) => DoCreateGroup(g, service)
    case StartLoop(l, service, consumer, kind, idleMs, maxLen) =>
      SetLoop(g, l, Loop(service, consumer, kind, idleMs, maxLen, [], Ready, g.now))
    case Crash(l) => g.(loops := g.loops - {l})
    case Abort(l) => SetLoop(g, l, g.loops[l].(batch := [], pc := Ready))
    case Read(l) => DoRead(g, l)
    case Claim(l) => DoClaim(g, l)
    case Begin(l) => DoBegin(g, l)
    case Return(l, reply) => DoReturn(g, l, reply)
    case AddReply(l, trimTo) => DoAddReply(g, l, trimTo)
    case Ack(l) => DoAck(g, l)
    case Tick(ms) => g.(now := g.now + ms)
  }

  // ---------------------------------------------------------------------------------------
  // Invariants.
  // ---------------------------------------------------------------------------------------

  /** Handed out at least once by the group. */
  ghost predicate Delivered(g: Redis, e: nat) {
    && e < |g.log| && g.log[e].service in g.mark && g.log[e].service in g.created
    && g.created[g.log[e].service] <= e < g.mark[g.log[e].service]
  }

  ghost predicate GroupInv(g: Redis) {
    && g.mark.Keys == g.created.Keys
    && forall s | s in g.mark :: g.created[s] <= g.mark[s] <= |g.log|
  }

  /** The delivered entries are exactly the pending and the acknowledged ones. */
  ghost predicate PelInv(g: Redis) {
    && (forall e | e in g.pel :: Delivered(g, e) && e !in g.acked && g.pel[e].deliveredAt <= g.now)
    && (forall e | e in g.acked :: Delivered(g, e))
    && (forall e: nat | Delivered(g, e) :: e in g.pel || e in g.acked)
  }

  /** Only delivered entries are in batches, and XREADGROUP hands out each of them once. */
  ghost predicate DeliveryInv(g: Redis) {
    && (forall d | 0 <= d < |g.deliveries| :: Delivered(g, g.deliveries[d].entry))
    && (forall d, f | 0 <= d < f < |g.deliveries| && !g.deliveries[d].claimed && !g.deliveries[f].claimed ::
          g.deliveries[d].entry != g.deliveries[f].entry)
  }

  ghost predicate BatchInv(g: Redis, loop: Loop) {
    && loop.service in g.mark
    && (forall i | 0 <= i < |loop.batch| ::
          loop.batch[i] < |g.deliveries| && Delivered(g, g.deliveries[loop.batch[i]].entry)
          && g.log[g.deliveries[loop.batch[i]].entry].service == loop.service)
    && (forall i, j | 0 <= i < j < |loop.batch| :: loop.batch[i] < loop.batch[j])
    && (loop.batch == [] ==> loop.pc.Ready?)
  }

  ghost predicate Disjoint(a: seq<nat>, b: seq<nat>) {
    forall d | d in a :: d !in b
  }

  /** Batches hold deliveries, each in at most one place. */
  ghost predicate LoopInv(g: Redis) {
    && (forall l | l in g.loops :: BatchInv(g, g.loops[l]))
    && (forall l, m | l in g.loops && m in g.loops && l != m :: Disjoint(g.loops[l].batch, g.loops[m].batch))
  }

  ghost predicate DispatchOk(g: Redis, dispatch: Dispatch) {
    && dispatch.delivery < |g.deliveries| && g.deliveries[dispatch.delivery].entry < |g.log|
    && var body := g.log[g.deliveries[dispatch.delivery].entry].body;
       !body.Poison? && (dispatch.progress.Returned? && dispatch.progress.reply.Some? ==> body.Call?)
  }

  /** A dispatched delivery is the head of its batch and past `Ready`, or in no batch any more. */
  ghost predicate NotAhead(g: Redis, loop: Loop) {
    forall k | 0 <= k < |g.dispatches| && g.dispatches[k].delivery in loop.batch ::
      !loop.pc.Ready? && g.dispatches[k].delivery == loop.batch[0]
  }

  /** Each delivery is dispatched at most once. */
  ghost predicate DispatchInv(g: Redis) {
    && (forall k | 0 <= k < |g.dispatches| :: DispatchOk(g, g.dispatches[k]))
    && (forall k, j | 0 <= k < j < |g.dispatches| :: g.dispatches[k].delivery != g.dispatches[j].delivery)
    && (forall l | l in g.loops :: NotAhead(g, g.loops[l]))
  }

  /** The reply of dispatch `k` is in the stream that entry `e` names. */
  ghost predicate Replied(g: Redis, e: nat, k: nat)
    requires e < |g.log| && k < |g.dispatches|
  {
    && g.log[e].replyTo.Some? && g.log[e].body.Call?
    && g.dispatches[k].progress.Returned? && g.dispatches[k].progress.reply.Some?
    && Message(g.log[e].body.id, g.dispatches[k].progress.reply.value, k)
       in StreamOf(g.streams, g.log[e].replyTo.value).items
  }

  /** Dispatch `k` was for entry `e`, has returned, and its reply, if one is due, has been appended. */
  ghost predicate Completed(g: Redis, e: nat, k: nat) {
    && e < |g.log| && k < |g.dispatches| && g.dispatches[k].delivery < |g.deliveries|
    && g.deliveries[g.dispatches[k].delivery].entry == e
    && g.dispatches[k].progress.Returned?
    && (g.dispatches[k].progress.reply.Some? && g.log[e].replyTo.Some? ==> Replied(g, e, k))
  }

  ghost predicate Justified(g: Redis, e: nat) {
    e < |g.log| && (g.log[e].body.Poison? || exists k: nat :: Completed(g, e, k))
  }

  /** What the program counter of a loop stands on. */
  ghost predicate PcOk(g: Redis, loop: Loop) {
    loop.batch != [] && loop.batch[0] < |g.deliveries| ==>
      var d := loop.batch[0];
      match loop.pc
      case Ready => true
      case Dispatching(k) =>
        k < |g.dispatches| && g.dispatches[k] == Dispatch(d, Running)
      case Replying(k, outcome) =>
        k < |g.dispatches| && g.dispatches[k] == Dispatch(d, Returned(Some(outcome)))
      case Acking(None) => g.deliveries[d].entry < |g.log| && g.log[g.deliveries[d].entry].body.Poison?
      case Acking(Some(k)) => Completed(g, g.deliveries[d].entry, k) && g.dispatches[k].delivery == d
  }

  ghost predicate PcInv(g: Redis) {
    forall l | l in g.loops :: PcOk(g, g.loops[l])
  }

  /** An acknowledged entry was poison or has completed a dispatch. */
  ghost predicate AckInv(g: Redis) {
    forall e | e in g.acked :: Justified(g, e)
  }

  /** Message `m` in stream `name` is what its dispatch returned for the entry that asked for it there. */
  ghost predicate Genuine(g: Redis, name: string, m: Item)
    requires m.Message?
  {
    && m.origin < |g.dispatches| && g.dispatches[m.origin].delivery < |g.deliveries|
    && g.dispatches[m.origin].progress == Returned(Some(m.outcome))
    && var e := g.deliveries[g.dispatches[m.origin].delivery].entry;
       e < |g.log| && g.log[e].body == Call(m.id) && g.log[e].replyTo == Some(name)
  }

  ghost predicate StreamInv(g: Redis) {
    && (forall name | name in g.streams :: ValidStream(g.streams[name]))
    && (forall name, p | name in g.streams && 0 <= p < |g.streams[name].items| && g.streams[name].items[p].Message? ::
          Genuine(g, name, g.streams[name].items[p]))
  }

  ghost predicate Inv(g: Redis) {
    GroupInv(g) && PelInv(g) && DeliveryInv(g) && LoopInv(g) && DispatchInv(g) && PcInv(g) && AckInv(g) && StreamInv(g)
  }
}
