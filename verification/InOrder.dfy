/**
 * The documented order of one server: with a single consumer loop for a service, a request's handler has
 * finished before the handler of any later request of that service begins. In timely runs this holds
 * exactly when sixteen handling spans fit under the reclaim threshold.
 */
module InOrder {
  import opened Wrappers
  import opened JsonValues
  import opened CommandGroup
  import opened GroupInvariants
  import opened TimedDelivery

  predicate Consumes(g: Redis, service: string, l: nat) {
    l in g.loops && g.loops[l].kind.Consumer? && g.loops[l].service == service
  }

  /** One server has one consumer loop for each of its services. */
  ghost predicate OneConsumer(g: Redis, service: string) {
    forall l, m | Consumes(g, service, l) && Consumes(g, service, m) :: l == m
  }

  predicate DeliveredTo(g: Redis, service: string, d: nat) {
    d < |g.deliveries| && g.deliveries[d].entry < |g.log| && g.log[g.deliveries[d].entry].service == service
  }

  predicate DispatchedTo(g: Redis, service: string, k: nat) {
    k < |g.dispatches| && DeliveredTo(g, service, g.dispatches[k].delivery)
  }

  /** The entries of the service were handed out in log order. */
  ghost predicate DeliveriesAscend(g: Redis, service: string) {
    forall d: nat, f: nat | d < f && DeliveredTo(g, service, d) && DeliveredTo(g, service, f) ::
      g.deliveries[d].entry < g.deliveries[f].entry
  }

  ghost predicate IsBefore(d: nat, batch: seq<nat>) {
    forall b | b in batch :: d < b
  }

  /** Whatever was handed out for the service is in the batch of its loop, or before it. */
  ghost predicate BatchIsLast(g: Redis, service: string) {
    && (forall d: nat | DeliveredTo(g, service, d) :: exists l :: Consumes(g, service, l))
    && forall l, d: nat | Consumes(g, service, l) && DeliveredTo(g, service, d) && d !in g.loops[l].batch ::
         IsBefore(d, g.loops[l].batch)
  }

  /** Only the batch holds what has not returned. */
  ghost predicate OthersReturned(g: Redis, service: string) {
    forall l, k: nat | Consumes(g, service, l) && DispatchedTo(g, service, k) ::
      g.dispatches[k].progress.Returned? || g.dispatches[k].delivery in g.loops[l].batch
  }

  /** Dispatches follow the deliveries, and each has returned before the next begins. */
  ghost predicate OneAfterAnother(g: Redis, service: string) {
    forall j: nat, k: nat | j < k && DispatchedTo(g, service, j) && DispatchedTo(g, service, k) ::
      g.dispatches[j].delivery < g.dispatches[k].delivery && g.dispatches[j].progress.Returned?
  }

  ghost predicate OrderInv(g: Redis, service: string) {
    DeliveriesAscend(g, service) && BatchIsLast(g, service) && OthersReturned(g, service) && OneAfterAnother(g, service)
  }

  // ---------------------------------------------------------------------------------------
  // One lemma per kind of step.
  // ---------------------------------------------------------------------------------------

  /** Steps that neither hand out nor dispatch, and change no batch. */
  ghost predicate Still(g: Redis, h: Redis) {
    && g.log <= h.log && h.deliveries == g.deliveries && h.dispatches == g.dispatches
    && forall l | l in g.loops ::
         l in h.loops && h.loops[l].batch == g.loops[l].batch && h.loops[l].kind == g.loops[l].kind
         && h.loops[l].service == g.loops[l].service
  }

  /** Nothing was handed out before a service has a loop. */
  lemma StillStepKeepsOrder(g: Redis, h: Redis, service: string)
    requires DeliveryInv(g) && OrderInv(g, service) && Still(g, h) && OneConsumer(h, service)
    ensures OrderInv(h, service)
  {
    forall d: nat
      ensures DeliveredTo(h, service, d) <==> DeliveredTo(g, service, d)
    {
      if d < |g.deliveries| { assert Delivered(g, g.deliveries[d].entry); }
    }
    assert forall k: nat :: DispatchedTo(h, service, k) <==> DispatchedTo(g, service, k);
    assert forall l | Consumes(g, service, l) :: Consumes(h, service, l);
    forall l | Consumes(h, service, l) && exists d: nat :: DeliveredTo(g, service, d)
      ensures Consumes(g, service, l)
    {
      var d: nat :| DeliveredTo(g, service, d);
      var m :| Consumes(g, service, m);
    }
  }

  lemma ReturnKeepsOrder(g: Redis, l: nat, reply: Option<Json>, service: string)
    requires OrderInv(g, service) && Enabled(g, Return(l, reply))
    ensures OrderInv(DoReturn(g, l, reply), service)
  {
    var h := DoReturn(g, l, reply);
    assert forall d: nat :: DeliveredTo(h, service, d) <==> DeliveredTo(g, service, d);
    assert forall m :: Consumes(h, service, m) <==> Consumes(g, service, m);
    forall k: nat
      ensures DispatchedTo(h, service, k) <==> DispatchedTo(g, service, k)
      ensures k < |g.dispatches| ==> h.dispatches[k].delivery == g.dispatches[k].delivery
      ensures k < |g.dispatches| && g.dispatches[k].progress.Returned? ==> h.dispatches[k].progress.Returned?
    {
    }
  }

  /** A loop of another service leaves this one's order alone. */
  lemma OtherReadKeepsOrder(g: Redis, h: Redis, l: nat, entries: seq<nat>, service: string)
    requires OrderInv(g, service) && l in g.loops && g.loops[l].service != service
    requires h == Deliver(g, l, entries, false).(mark := h.mark)
    requires forall i | 0 <= i < |entries| :: entries[i] < |g.log| && g.log[entries[i]].service != service
    ensures OrderInv(h, service)
  {
    var n := |g.deliveries|;
    assert h.deliveries == g.deliveries + DeliveriesOf(entries, false);
    forall d: nat
      ensures DeliveredTo(h, service, d) <==> DeliveredTo(g, service, d)
    {
      if n <= d < |h.deliveries| { assert h.deliveries[d] == DeliveriesOf(entries, false)[d - n]; }
    }
    assert forall m :: Consumes(h, service, m) <==> Consumes(g, service, m);
    assert forall k: nat :: DispatchedTo(h, service, k) <==> DispatchedTo(g, service, k);
  }

  /** What a read hands out lies after everything handed out before. */
  lemma ReadKeepsAscending(g: Redis, h: Redis, l: nat, entries: seq<nat>, service: string)
    requires DeliveryInv(g) && DeliveriesAscend(g, service) && l in g.loops && service in g.mark
    requires h == Deliver(g, l, entries, false).(mark := h.mark)
    requires forall i | 0 <= i < |entries| :: g.mark[service] <= entries[i]
    requires forall i, j | 0 <= i < j < |entries| :: entries[i] < entries[j]
    ensures DeliveriesAscend(h, service)
  {
    var n := |g.deliveries|;
    assert h.deliveries == g.deliveries + DeliveriesOf(entries, false);
    forall d: nat, f: nat | d < f && DeliveredTo(h, service, d) && DeliveredTo(h, service, f)
      ensures h.deliveries[d].entry < h.deliveries[f].entry
    {
      if f >= n {
        assert h.deliveries[f] == DeliveriesOf(entries, false)[f - n];
        if d >= n {
          assert h.deliveries[d] == DeliveriesOf(entries, false)[d - n];
        } else {
          assert Delivered(g, g.deliveries[d].entry);
        }
      } else {
        assert DeliveredTo(g, service, d) && DeliveredTo(g, service, f);
      }
    }
  }

  lemma RangeHolds(n: nat, count: nat, d: nat)
    ensures d in Range(n, count) <==> n <= d < n + count
  {
    if n <= d < n + count { assert Range(n, count)[d - n] == d; }
  }

  /** What was dispatched had been handed out before the read. */
  lemma ReadDispatchesNothing(g: Redis, h: Redis, service: string, k: nat)
    requires DispatchInv(g) && h.dispatches == g.dispatches && h.log == g.log && g.deliveries <= h.deliveries
    ensures DispatchedTo(h, service, k) <==> DispatchedTo(g, service, k)
  {
    if k < |g.dispatches| {
      assert DispatchOk(g, g.dispatches[k]);
      assert h.deliveries[g.dispatches[k].delivery] == g.deliveries[g.dispatches[k].delivery];
    }
  }

  lemma OwnReadKeepsOrder(g: Redis, h: Redis, l: nat, entries: seq<nat>, service: string)
    requires DispatchInv(g) && OrderInv(g, service) && DeliveriesAscend(h, service)
    requires Consumes(g, service, l) && OneConsumer(g, service) && g.loops[l].batch == []
    requires h == Deliver(g, l, entries, false).(mark := h.mark)
    ensures OrderInv(h, service)
  {
    var n := |g.deliveries|;
    assert h.deliveries == g.deliveries + DeliveriesOf(entries, false);
    assert h.loops[l].batch == Range(n, |entries|);
    assert Consumes(h, service, l);
    forall m, d: nat | Consumes(h, service, m) && DeliveredTo(h, service, d) && d !in h.loops[m].batch
      ensures IsBefore(d, h.loops[m].batch)
    {
      assert Consumes(g, service, m) && m == l;
      RangeHolds(n, |entries|, d);
    }
    forall m, k: nat | Consumes(h, service, m) && DispatchedTo(h, service, k)
      ensures h.dispatches[k].progress.Returned? || h.dispatches[k].delivery in h.loops[m].batch
    {
      ReadDispatchesNothing(g, h, service, k);
    }
    forall j: nat, k: nat | j < k && DispatchedTo(h, service, j) && DispatchedTo(h, service, k)
      ensures h.dispatches[j].delivery < h.dispatches[k].delivery && h.dispatches[j].progress.Returned?
    {
      ReadDispatchesNothing(g, h, service, j);
      ReadDispatchesNothing(g, h, service, k);
    }
  }

  lemma ReadKeepsOrder(g: Redis, l: nat, service: string)
    requires GroupInv(g) && DeliveryInv(g) && DispatchInv(g) && OrderInv(g, service) && OneConsumer(g, service)
    requires Enabled(g, Read(l))
    ensures OrderInv(DoRead(g, l), service)
  {
    var h, entries := DoRead(g, l), NextEntries(g, l);
    if entries == [] { return; }
    if g.loops[l].service == service {
      ReadKeepsAscending(g, h, l, entries, service);
      OwnReadKeepsOrder(g, h, l, entries, service);
    } else {
      OtherReadKeepsOrder(g, h, l, entries, service);
    }
  }

  /** When the head of the service's loop is dispatched, all before it have returned. */
  lemma HeadIsNext(g: Redis, l: nat, service: string, j: nat)
    requires DispatchInv(g) && OrderInv(g, service) && Enabled(g, Begin(l)) && Consumes(g, service, l)
    requires DispatchedTo(g, service, j)
    ensures g.dispatches[j].delivery < g.loops[l].batch[0] && g.dispatches[j].progress.Returned?
  {
    var batch := g.loops[l].batch;
    assert NotAhead(g, g.loops[l]);
    assert g.dispatches[j].delivery !in batch && batch[0] in batch;
    assert IsBefore(g.dispatches[j].delivery, batch);
  }

  /** Which dispatches there are after the head of a loop has been dispatched. */
  lemma BeginAddsHead(g: Redis, l: nat, service: string, k: nat)
    requires LoopInv(g) && Enabled(g, Begin(l)) && g.loops[l].kind.Consumer?
    ensures var h := DoBegin(g, l);
            && (k < |g.dispatches| ==> h.dispatches[k] == g.dispatches[k])
            && (k < |g.dispatches| ==> (DispatchedTo(h, service, k) <==> DispatchedTo(g, service, k)))
            && (DispatchedTo(h, service, k) && |g.dispatches| <= k ==>
                  Consumes(g, service, l) && h.dispatches[k].delivery == g.loops[l].batch[0])
  {
    assert BatchInv(g, g.loops[l]);
  }

  lemma BeginMovesPc(g: Redis, l: nat)
    requires Enabled(g, Begin(l))
    ensures var h := DoBegin(g, l);
            && h.log == g.log && h.deliveries == g.deliveries
            && h.loops == g.loops[l := g.loops[l].(pc := h.loops[l].pc)]
  {
  }

  /** What is handed out, and who consumes, depends on these parts only. */
  lemma BeginKeepsView(g: Redis, h: Redis, l: nat, service: string)
    requires h.log == g.log && h.deliveries == g.deliveries && l in g.loops && l in h.loops
    requires h.loops == g.loops[l := g.loops[l].(pc := h.loops[l].pc)]
    ensures forall d: nat :: DeliveredTo(h, service, d) <==> DeliveredTo(g, service, d)
    ensures forall m :: Consumes(h, service, m) <==> Consumes(g, service, m)
    ensures forall m | m in g.loops :: h.loops[m].batch == g.loops[m].batch
  {
  }

  lemma BeginKeepsReturned(g: Redis, l: nat, service: string)
    requires LoopInv(g) && OrderInv(g, service) && OneConsumer(g, service)
    requires Enabled(g, Begin(l)) && g.loops[l].kind.Consumer?
    ensures OthersReturned(DoBegin(g, l), service)
  {
    var h := DoBegin(g, l);
    BeginMovesPc(g, l);
    BeginKeepsView(g, DoBegin(g, l), l, service);
    forall m, k: nat | Consumes(h, service, m) && DispatchedTo(h, service, k)
      ensures h.dispatches[k].progress.Returned? || h.dispatches[k].delivery in h.loops[m].batch
    {
      BeginAddsHead(g, l, service, k);
    }
  }

  lemma BeginKeepsOneAfterAnother(g: Redis, l: nat, service: string)
    requires LoopInv(g) && DispatchInv(g) && OrderInv(g, service)
    requires Enabled(g, Begin(l)) && g.loops[l].kind.Consumer?
    ensures OneAfterAnother(DoBegin(g, l), service)
  {
    var h := DoBegin(g, l);
    forall j: nat, k: nat | j < k && DispatchedTo(h, service, j) && DispatchedTo(h, service, k)
      ensures h.dispatches[j].delivery < h.dispatches[k].delivery && h.dispatches[j].progress.Returned?
    {
      BeginAddsHead(g, l, service, j);
      BeginAddsHead(g, l, service, k);
      if |g.dispatches| <= k { HeadIsNext(g, l, service, j); }
    }
  }

  lemma BeginKeepsOrder(g: Redis, l: nat, service: string)
    requires LoopInv(g) && DispatchInv(g) && OrderInv(g, service) && OneConsumer(g, service)
    requires Enabled(g, Begin(l)) && g.loops[l].kind.Consumer?
    ensures OrderInv(DoBegin(g, l), service)
  {
    BeginMovesPc(g, l);
    BeginKeepsView(g, DoBegin(g, l), l, service);
    BeginKeepsReturned(g, l, service);
    BeginKeepsOneAfterAnother(g, l, service);
  }

  /** The acknowledged head has returned. */
  lemma AckedHasReturned(g: Redis, l: nat, k: nat)
    requires DispatchInv(g) && Enabled(g, Ack(l)) && PcOk(g, g.loops[l])
    requires k < |g.dispatches| && g.dispatches[k].delivery == g.loops[l].batch[0]
    ensures g.dispatches[k].progress.Returned?
  {
    assert DispatchOk(g, g.dispatches[k]);
    match g.loops[l].pc
    case Acking(None) =>
    case Acking(Some(j)) => assert g.dispatches[j].delivery == g.dispatches[k].delivery;
  }

  lemma AckMovesOn(g: Redis, l: nat, service: string)
    requires Enabled(g, Ack(l))
    ensures var h := DoAck(g, l);
            && (forall d: nat :: DeliveredTo(h, service, d) <==> DeliveredTo(g, service, d))
            && (forall k: nat :: DispatchedTo(h, service, k) <==> DispatchedTo(g, service, k))
            && (forall m :: Consumes(h, service, m) <==> Consumes(g, service, m))
            && h.deliveries == g.deliveries && h.dispatches == g.dispatches && h.loops.Keys == g.loops.Keys
            && forall m | m in g.loops :: h.loops[m].batch == if m == l then g.loops[m].batch[1..] else g.loops[m].batch
  {
  }

  /** Before the batch, or its head: before the rest of it. */
  lemma BeforeTheRest(batch: seq<nat>, d: nat)
    requires batch != [] && forall i | 0 < i < |batch| :: batch[0] < batch[i]
    requires d !in batch ==> IsBefore(d, batch)
    requires d !in batch[1..]
    ensures IsBefore(d, batch[1..])
  {
    assert batch == [batch[0]] + batch[1..];
    forall b | b in batch[1..]
      ensures d < b
    {
      var i :| 0 < i < |batch| && batch[i] == b;
      assert batch[0] < batch[i] && b in batch;
      assert d in batch <==> d in [batch[0]] + batch[1..];
    }
  }

  lemma AckKeepsBatchLast(g: Redis, l: nat, service: string)
    requires LoopInv(g) && BatchIsLast(g, service) && Enabled(g, Ack(l))
    ensures BatchIsLast(DoAck(g, l), service)
  {
    var h := DoAck(g, l);
    AckMovesOn(g, l, service);
    assert BatchInv(g, g.loops[l]);
    forall d: nat | DeliveredTo(h, service, d)
      ensures exists m :: Consumes(h, service, m)
    {
      var m :| Consumes(g, service, m);
      assert Consumes(h, service, m);
    }
    forall m, d: nat | Consumes(h, service, m) && DeliveredTo(h, service, d) && d !in h.loops[m].batch
      ensures IsBefore(d, h.loops[m].batch)
    {
      if m == l { BeforeTheRest(g.loops[l].batch, d); }
    }
  }

  lemma AckKeepsReturned(g: Redis, l: nat, service: string)
    requires PcInv(g) && DispatchInv(g) && OthersReturned(g, service) && Enabled(g, Ack(l))
    ensures OthersReturned(DoAck(g, l), service)
  {
    var h, batch := DoAck(g, l), g.loops[l].batch;
    AckMovesOn(g, l, service);
    assert batch == [batch[0]] + batch[1..];
    forall m, k: nat | Consumes(h, service, m) && DispatchedTo(h, service, k)
      ensures h.dispatches[k].progress.Returned? || h.dispatches[k].delivery in h.loops[m].batch
    {
      if g.dispatches[k].delivery == batch[0] { AckedHasReturned(g, l, k); }
    }
  }

  lemma AckKeepsOrder(g: Redis, l: nat, service: string)
    requires LoopInv(g) && PcInv(g) && DispatchInv(g) && OrderInv(g, service) && Enabled(g, Ack(l))
    ensures OrderInv(DoAck(g, l), service)
  {
    AckMovesOn(g, l, service);
    AckKeepsBatchLast(g, l, service);
    AckKeepsReturned(g, l, service);
  }

  // ---------------------------------------------------------------------------------------
  // Runs.
  // ---------------------------------------------------------------------------------------

  lemma StepIsStill(g: Redis, s: ServerStep, service: string)
    requires Enabled(g, s)
    requires s.CreateGroup? || s.StartLoop? || s.AddReply? || s.Tick?
    ensures Still(g, Apply(g, s))
  {
  }

  lemma HandlingKeepsOrder(g: Redis, s: ServerStep, service: string)
    requires LoopInv(g) && PcInv(g) && DispatchInv(g) && OrderInv(g, service) && OneConsumer(g, service) && Enabled(g, s)
    requires s.Begin? || s.Return? || s.Ack?
    requires s.Begin? ==> g.loops[s.l].kind.Consumer?
    ensures OrderInv(Apply(g, s), service)
  {
    match s {
      case Begin(l) => BeginKeepsOrder(g, l, service);
      case Return(l, reply) => ReturnKeepsOrder(g, l, reply, service);
      case Ack(l) => AckKeepsOrder(g, l, service);
    }
  }

  lemma ServeKeepsOrder(g: Redis, s: ServerStep, service: string, handleMs: nat, idleMs: nat)
    requires Inv(g) && TimedInv(g, handleMs, idleMs) && Spans(READ_COUNT, handleMs) < idleMs
    requires OrderInv(g, service) && OneConsumer(g, service) && Timely(g, Serve(s), handleMs, idleMs)
    requires OneConsumer(Apply(g, s), service)
    ensures OrderInv(Apply(g, s), service)
  {
    if s.Read? {
      ReadKeepsOrder(g, s.l, service);
    } else if s.Claim? {
      NothingToClaim(g, handleMs, idleMs, s.l);
    } else if s.Begin? || s.Return? || s.Ack? {
      if s.Begin? { assert LoopInTime(g, g.loops[s.l], handleMs, idleMs); }
      HandlingKeepsOrder(g, s, service);
    } else {
      StepIsStill(g, s, service);
      StillStepKeepsOrder(g, Apply(g, s), service);
    }
  }

  /** Loops are never lost in a timely run. */
  lemma LoopsStay(g: Redis, s: ServerStep, service: string, l: nat)
    requires Enabled(g, s) && !s.Crash? && !s.Abort? && Consumes(g, service, l)
    ensures Consumes(Apply(g, s), service, l)
  {
  }

  /** So there was one consumer all along. */
  lemma OneConsumerBefore(g: Redis, step: Step, service: string, handleMs: nat, idleMs: nat)
    requires Timely(g, step, handleMs, idleMs) && OneConsumer(Next(g, step), service)
    ensures OneConsumer(g, service)
  {
    if step.Serve? {
      forall l | Consumes(g, service, l)
        ensures Consumes(Next(g, step), service, l)
      {
        LoopsStay(g, step.step, service, l);
      }
    } else {
      assert forall l | Consumes(g, service, l) :: Consumes(Next(g, step), service, l);
    }
  }

  lemma StepKeepsOrder(g: Redis, step: Step, service: string, handleMs: nat, idleMs: nat)
    requires Inv(g) && TimedInv(g, handleMs, idleMs) && READ_COUNT * handleMs < idleMs
    requires OrderInv(g, service) && OneConsumer(g, service) && Timely(g, step, handleMs, idleMs)
    requires OneConsumer(Next(g, step), service)
    ensures OrderInv(Next(g, step), service)
  {
    SpansIsProduct(READ_COUNT, handleMs);
    match step {
      case Arrive(_) => StillStepKeepsOrder(g, Next(g, step), service);
      case Serve(s) => ServeKeepsOrder(g, s, service, handleMs, idleMs);
    }
  }

  lemma {:induction false} TimelyRunKeepsOrder(states: seq<Redis>, steps: seq<Step>, handleMs: nat, idleMs: nat, i: nat,
                                               service: string)
    requires IsTimelyRun(states, steps, handleMs, idleMs) && READ_COUNT * handleMs < idleMs && i < |states|
    requires OneConsumer(states[i], service)
    ensures OrderInv(states[i], service)
  {
    if i > 0 {
      OneConsumerBefore(states[i - 1], steps[i - 1], service, handleMs, idleMs);
      TimelyRunKeepsOrder(states, steps, handleMs, idleMs, i - 1, service);
      TimelyRunKeepsTime(states, steps, handleMs, idleMs, i - 1);
      StepKeepsOrder(states[i - 1], steps[i - 1], service, handleMs, idleMs);
    }
  }

  function EntryOfDispatch(g: Redis, k: nat): nat
    requires k < |g.dispatches| && g.dispatches[k].delivery < |g.deliveries|
  {
    g.deliveries[g.dispatches[k].delivery].entry
  }

  /** Handlers of the service run in log order, one after the other. */
  ghost predicate InOrder(g: Redis, service: string) {
    forall j: nat, k: nat | j < k && DispatchedTo(g, service, j) && DispatchedTo(g, service, k) ::
      EntryOfDispatch(g, j) < EntryOfDispatch(g, k) && g.dispatches[j].progress.Returned?
  }

  ghost predicate AlwaysInOrder(handleMs: nat, idleMs: nat) {
    forall g, service | Reachable(g, handleMs, idleMs) && OneConsumer(g, service) :: InOrder(g, service)
  }

  lemma OrderedIsInOrder(g: Redis, service: string)
    requires OrderInv(g, service)
    ensures InOrder(g, service)
  {
  }

  /** With one consumer loop the order holds in all timely runs, exactly under the bound of sixteen spans. */
  lemma InOrderExactly(handleMs: nat, idleMs: nat)
    ensures AlwaysInOrder(handleMs, idleMs) <==> READ_COUNT * handleMs < idleMs
  {
    if READ_COUNT * handleMs < idleMs {
      forall g, service | Reachable(g, handleMs, idleMs) && OneConsumer(g, service)
        ensures InOrder(g, service)
      {
        var states, steps :| IsTimelyRun(states, steps, handleMs, idleMs) && g == states[|steps|];
        TimelyRunKeepsOrder(states, steps, handleMs, idleMs, |steps|, service);
        OrderedIsInOrder(g, service);
      }
    } else {
      var c := Loop("", "", Consumer, idleMs, 0, [], Ready, 0);
      var g := SecondDispatch(c, handleMs);
      assert OneConsumer(g, "");
      assert DispatchedTo(g, "", READ_COUNT - 1) && DispatchedTo(g, "", READ_COUNT);
      assert EntryOfDispatch(g, READ_COUNT - 1) == EntryOfDispatch(g, READ_COUNT);
    }
  }
}
