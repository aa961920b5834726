/**
 * When reclaiming stays out of the way: runs without crashes and errors, in which every entry is
 * handled within `handleMs` of its turn. No entry is then dispatched twice, exactly when sixteen such
 * spans fit under the reclaim threshold.
 */
module TimedDelivery {
  import opened Wrappers
  import opened JsonValues
  import opened CommandGroup
  import opened GroupInvariants

  datatype Step = Arrive(entry: Entry) | Serve(step: ServerStep)

  /** Time may pass as long as no loop overruns on the entry it is at. */
  predicate MayPass(g: Redis, ms: nat, handleMs: nat) {
    forall l | l in g.loops && g.loops[l].batch != [] :: g.now + ms <= g.loops[l].since + handleMs
  }

  predicate Timely(g: Redis, step: Step, handleMs: nat, idleMs: nat) {
    match step
    case Arrive(_) => true
    case Serve(s) =>
      && Enabled(g, s) && !s.Crash? && !s.Abort?
      && (s.StartLoop? ==> s.idleMs == idleMs)
      && (s.Tick? ==> MayPass(g, s.ms, handleMs))
      && (s.Claim? ==> g.loops[s.l].since + Nap(idleMs) <= g.now)
  }

  function Next(g: Redis, step: Step): Redis
    requires step.Serve? ==> Enabled(g, step.step)
  {
    match step
    case Arrive(entry) => g.(log := g.log + [entry])
    case Serve(s) => Apply(g, s)
  }

  ghost predicate IsTimelyRun(states: seq<Redis>, steps: seq<Step>, handleMs: nat, idleMs: nat) {
    && |states| == |steps| + 1 && states[0] == EMPTY_REDIS
    && forall i | 0 <= i < |steps| ::
         Timely(states[i], steps[i], handleMs, idleMs) && states[i + 1] == Next(states[i], steps[i])
  }

  // ---------------------------------------------------------------------------------------
  // Below the threshold nothing is ever reclaimed.
  // ---------------------------------------------------------------------------------------

  /** `n` handling spans in a row. */
  function Spans(n: nat, handleMs: nat): nat {
    if n == 0 then 0 else Spans(n - 1, handleMs) + handleMs
  }

  lemma {:induction false} SpansIsProduct(n: nat, handleMs: nat)
    ensures Spans(n, handleMs) == n * handleMs
  {
    if n > 0 {
      SpansIsProduct(n - 1, handleMs);
      assert (n - 1) * handleMs + handleMs == n * handleMs;
    }
  }

  lemma {:induction false} MoreSpans(m: nat, n: nat, handleMs: nat)
    requires m <= n
    ensures Spans(m, handleMs) <= Spans(n, handleMs)
    decreases n
  {
    if m < n { MoreSpans(m, n - 1, handleMs); }
  }

  function EntryAt(g: Redis, loop: Loop, i: nat): nat
    requires i < |loop.batch| && loop.batch[i] < |g.deliveries|
  {
    g.deliveries[loop.batch[i]].entry
  }

  /** The rest of one read: pending since the same moment, and on schedule. */
  ghost predicate OnSchedule(g: Redis, loop: Loop, handleMs: nat, readAt: nat) {
    && |loop.batch| <= READ_COUNT
    && (forall i | 0 <= i < |loop.batch| ::
          loop.batch[i] < |g.deliveries| && EntryAt(g, loop, i) in g.pel && g.pel[EntryAt(g, loop, i)].deliveredAt == readAt)
    && loop.since <= readAt + Spans(READ_COUNT - |loop.batch|, handleMs)
    && loop.since <= g.now <= loop.since + handleMs
  }

  ghost predicate LoopInTime(g: Redis, loop: Loop, handleMs: nat, idleMs: nat) {
    && loop.idleMs == idleMs
    && (loop.batch != [] ==> loop.kind.Consumer? && exists readAt: nat :: OnSchedule(g, loop, handleMs, readAt))
  }

  ghost predicate Covered(g: Redis, e: nat, l: nat, i: nat) {
    l in g.loops && i < |g.loops[l].batch| && g.loops[l].batch[i] < |g.deliveries| && EntryAt(g, g.loops[l], i) == e
  }

  ghost predicate TimedInv(g: Redis, handleMs: nat, idleMs: nat) {
    && (forall l | l in g.loops :: LoopInTime(g, g.loops[l], handleMs, idleMs))
    && (forall e | e in g.pel :: exists l, i: nat :: Covered(g, e, l, i))
    && (forall d | 0 <= d < |g.deliveries| :: !g.deliveries[d].claimed)
  }

  lemma BatchIsYoung(g: Redis, loop: Loop, handleMs: nat, readAt: nat, i: nat)
    requires OnSchedule(g, loop, handleMs, readAt) && i < |loop.batch|
    ensures g.now <= g.pel[EntryAt(g, loop, i)].deliveredAt + Spans(READ_COUNT, handleMs)
  {
    var done := READ_COUNT - |loop.batch|;
    assert Spans(done + 1, handleMs) == Spans(done, handleMs) + handleMs;
    MoreSpans(done + 1, READ_COUNT, handleMs);
  }

  /** A pending entry has not been pending for sixteen spans yet. */
  lemma PendingIsYoung(g: Redis, handleMs: nat, idleMs: nat, e: nat)
    requires TimedInv(g, handleMs, idleMs) && e in g.pel
    ensures g.now <= g.pel[e].deliveredAt + Spans(READ_COUNT, handleMs)
  {
    var l, i: nat :| Covered(g, e, l, i);
    assert LoopInTime(g, g.loops[l], handleMs, idleMs);
    var readAt: nat :| OnSchedule(g, g.loops[l], handleMs, readAt);
    BatchIsYoung(g, g.loops[l], handleMs, readAt, i);
  }

  lemma NothingToClaim(g: Redis, handleMs: nat, idleMs: nat, l: nat)
    requires TimedInv(g, handleMs, idleMs) && Spans(READ_COUNT, handleMs) < idleMs && Enabled(g, Claim(l))
    ensures DoClaim(g, l) == g
  {
    var entries := ClaimedEntries(g, l);
    assert LoopInTime(g, g.loops[l], handleMs, idleMs);
    if entries != [] {
      PendingIsYoung(g, handleMs, idleMs, entries[0]);
    }
  }

  /** Starting an idle loop, and the steps inside `handleEntry`: the batches stay. */
  ghost predicate Quiet(g: Redis, h: Redis, idleMs: nat) {
    && h.pel == g.pel && h.deliveries == g.deliveries && h.now == g.now && g.loops.Keys <= h.loops.Keys
    && forall l | l in h.loops ::
         if l in g.loops
         then h.loops[l].(pc := g.loops[l].pc) == g.loops[l]
         else h.loops[l].idleMs == idleMs && h.loops[l].batch == []
  }

  lemma QuietKeepsLoop(g: Redis, h: Redis, handleMs: nat, idleMs: nat, l: nat)
    requires Quiet(g, h, idleMs) && l in h.loops
    requires l in g.loops ==> LoopInTime(g, g.loops[l], handleMs, idleMs)
    ensures LoopInTime(h, h.loops[l], handleMs, idleMs)
  {
    if l in g.loops {
      assert h.loops[l].(pc := g.loops[l].pc).batch == g.loops[l].batch;
      if g.loops[l].batch != [] {
        var readAt: nat :| OnSchedule(g, g.loops[l], handleMs, readAt);
        assert OnSchedule(h, h.loops[l], handleMs, readAt);
      }
    }
  }

  /** Steps that leave the pending list, the batches and the clock alone. */
  lemma QuietKeepsTime(g: Redis, h: Redis, handleMs: nat, idleMs: nat)
    requires TimedInv(g, handleMs, idleMs) && Quiet(g, h, idleMs)
    ensures TimedInv(h, handleMs, idleMs)
  {
    forall l | l in h.loops
      ensures LoopInTime(h, h.loops[l], handleMs, idleMs)
    {
      QuietKeepsLoop(g, h, handleMs, idleMs, l);
    }
    forall e | e in h.pel
      ensures exists l, i: nat :: Covered(h, e, l, i)
    {
      var l, i: nat :| Covered(g, e, l, i);
      assert Covered(h, e, l, i);
    }
  }

  lemma TickKeepsTime(g: Redis, h: Redis, handleMs: nat, idleMs: nat)
    requires TimedInv(g, handleMs, idleMs) && g.now <= h.now && MayPass(g, h.now - g.now, handleMs)
    requires h.pel == g.pel && h.deliveries == g.deliveries && h.loops == g.loops
    ensures TimedInv(h, handleMs, idleMs)
  {
    forall l | l in h.loops
      ensures LoopInTime(h, h.loops[l], handleMs, idleMs)
    {
      assert LoopInTime(g, g.loops[l], handleMs, idleMs);
      if g.loops[l].batch != [] {
        var readAt: nat :| OnSchedule(g, g.loops[l], handleMs, readAt);
        assert OnSchedule(h, h.loops[l], handleMs, readAt);
      }
    }
    forall e | e in h.pel
      ensures exists l, i: nat :: Covered(h, e, l, i)
    {
      var l, i: nat :| Covered(g, e, l, i);
      assert Covered(h, e, l, i);
    }
  }

  /** What handing `entries` to loop `l` does to the parts that matter here. */
  ghost predicate Hands(g: Redis, h: Redis, l: nat, entries: seq<nat>) {
    && l in g.loops && g.loops[l].batch == [] && h.loops.Keys == g.loops.Keys
    && (forall m | m in g.loops && m != l :: h.loops[m] == g.loops[m])
    && h.loops[l].batch == Range(|g.deliveries|, |entries|)
    && h.deliveries == g.deliveries + DeliveriesOf(entries, false)
    && (forall e | e in h.pel :: e in g.pel || e in entries)
  }

  lemma ReadHands(g: Redis, l: nat)
    requires Enabled(g, Read(l)) && NextEntries(g, l) != []
    ensures Hands(g, DoRead(g, l), l, NextEntries(g, l))
  {
  }

  lemma HandedEntryAt(g: Redis, h: Redis, l: nat, entries: seq<nat>, i: nat)
    requires Hands(g, h, l, entries) && i < |entries|
    ensures h.loops[l].batch[i] < |h.deliveries| && EntryAt(h, h.loops[l], i) == entries[i]
  {
  }

  lemma HandedIsOnSchedule(g: Redis, h: Redis, l: nat, entries: seq<nat>, handleMs: nat)
    requires Hands(g, h, l, entries) && h.now == g.now && h.loops[l].since == g.now && |entries| <= READ_COUNT
    requires forall i | 0 <= i < |entries| :: entries[i] in h.pel && h.pel[entries[i]].deliveredAt == g.now
    ensures OnSchedule(h, h.loops[l], handleMs, g.now)
  {
  }

  lemma RecordedNow(pel: map<nat, PelEntry>, entries: seq<nat>, consumer: string, now: nat, i: nat)
    requires i < |entries|
    ensures var after := pel + map e | e in entries :: PelEntry(consumer, now);
            entries[i] in after && after[entries[i]].deliveredAt == now
  {
    assert entries[i] in entries;
  }

  lemma ReadIsOnSchedule(g: Redis, l: nat, handleMs: nat)
    requires Enabled(g, Read(l)) && NextEntries(g, l) != []
    ensures OnSchedule(DoRead(g, l), DoRead(g, l).loops[l], handleMs, g.now)
  {
    var h, entries := DoRead(g, l), NextEntries(g, l);
    ReadHands(g, l);
    forall i | 0 <= i < |entries|
      ensures entries[i] in h.pel && h.pel[entries[i]].deliveredAt == g.now
    {
      RecordedNow(g.pel, entries, g.loops[l].consumer, g.now, i);
    }
    HandedIsOnSchedule(g, h, l, entries, handleMs);
  }

  lemma OthersStayOnSchedule(g: Redis, h: Redis, loop: Loop, entries: seq<nat>, handleMs: nat, readAt: nat)
    requires PelInv(g) && OnSchedule(g, loop, handleMs, readAt) && h.now == g.now && g.deliveries <= h.deliveries
    requires forall e | e in g.pel && e !in entries :: e in h.pel && h.pel[e] == g.pel[e]
    requires forall i | 0 <= i < |entries| :: !Delivered(g, entries[i])
    ensures OnSchedule(h, loop, handleMs, readAt)
  {
  }

  /** One loop after a read by loop `l`. */
  lemma ReadKeepsLoopInTime(g: Redis, l: nat, m: nat, handleMs: nat, idleMs: nat)
    requires PelInv(g) && GroupInv(g) && m in g.loops && LoopInTime(g, g.loops[m], handleMs, idleMs)
    requires Enabled(g, Read(l)) && NextEntries(g, l) != []
    ensures LoopInTime(DoRead(g, l), DoRead(g, l).loops[m], handleMs, idleMs)
  {
    var h, entries := DoRead(g, l), NextEntries(g, l);
    if m == l {
      ReadIsOnSchedule(g, l, handleMs);
      assert h.loops[m].idleMs == g.loops[m].idleMs && h.loops[m].kind == g.loops[m].kind;
    } else {
      assert h.loops[m] == g.loops[m];
      if g.loops[m].batch != [] {
        var readAt: nat :| OnSchedule(g, g.loops[m], handleMs, readAt);
        forall i | 0 <= i < |entries|
          ensures !Delivered(g, entries[i])
        {
          assert entries[i] in entries;
          ReadDelivers(g, l, entries[i]);
        }
        OthersStayOnSchedule(g, h, g.loops[m], entries, handleMs, readAt);
      }
    }
  }

  lemma HandingKeepsCovered(g: Redis, h: Redis, l: nat, entries: seq<nat>, e: nat)
    requires Hands(g, h, l, entries) && e in h.pel
    requires e in g.pel ==> exists m, i: nat :: Covered(g, e, m, i)
    ensures exists m, i: nat :: Covered(h, e, m, i)
  {
    if e in entries {
      var i :| 0 <= i < |entries| && entries[i] == e;
      HandedEntryAt(g, h, l, entries, i);
      assert Covered(h, e, l, i);
    } else {
      var m, i: nat :| Covered(g, e, m, i);
      assert h.deliveries[g.loops[m].batch[i]] == g.deliveries[g.loops[m].batch[i]];
      assert Covered(h, e, m, i);
    }
  }

  lemma ReadKeepsTime(g: Redis, l: nat, handleMs: nat, idleMs: nat)
    requires PelInv(g) && GroupInv(g) && TimedInv(g, handleMs, idleMs) && Enabled(g, Read(l))
    ensures TimedInv(DoRead(g, l), handleMs, idleMs)
  {
    var h, entries := DoRead(g, l), NextEntries(g, l);
    if entries == [] { return; }
    ReadHands(g, l);
    forall m | m in h.loops
      ensures LoopInTime(h, h.loops[m], handleMs, idleMs)
    {
      ReadKeepsLoopInTime(g, l, m, handleMs, idleMs);
    }
    forall e | e in h.pel
      ensures exists m, i: nat :: Covered(h, e, m, i)
    {
      HandingKeepsCovered(g, h, l, entries, e);
    }
  }

  /** Without claims, distinct deliveries are of distinct entries. */
  lemma DeliveriesAreOfDistinctEntries(g: Redis, d: nat, f: nat)
    requires DeliveryInv(g) && d < |g.deliveries| && f < |g.deliveries| && d != f
    requires forall k | 0 <= k < |g.deliveries| :: !g.deliveries[k].claimed
    ensures g.deliveries[d].entry != g.deliveries[f].entry
  {
  }

  /** What acknowledging the head of loop `l` does to the parts that matter here. */
  ghost predicate Advances(g: Redis, h: Redis, l: nat) {
    && BusyLoop(g, l) && h.loops.Keys == g.loops.Keys && h.deliveries == g.deliveries && h.now == g.now
    && (forall m | m in g.loops && m != l :: h.loops[m] == g.loops[m])
    && h.loops[l].batch == g.loops[l].batch[1..] && h.loops[l].since == g.now
    && h.loops[l].idleMs == g.loops[l].idleMs && h.loops[l].kind == g.loops[l].kind
    && h.pel == g.pel - {Head(g, l)}
  }

  lemma AckAdvances(g: Redis, l: nat)
    requires Enabled(g, Ack(l))
    ensures Advances(g, DoAck(g, l), l)
  {
  }

  /** The acknowledged head is not what any loop still has to handle. */
  lemma AckedIsNotAwaited(g: Redis, h: Redis, l: nat, m: nat)
    requires LoopInv(g) && DeliveryInv(g) && Advances(g, h, l) && m in g.loops
    requires forall d | 0 <= d < |g.deliveries| :: !g.deliveries[d].claimed
    ensures var batch := h.loops[m].batch;
            forall i | 0 <= i < |batch| :: batch[i] < |g.deliveries| && g.deliveries[batch[i]].entry != Head(g, l)
  {
    var head, batch := g.loops[l].batch[0], h.loops[m].batch;
    assert BatchInv(g, g.loops[l]) && BatchInv(g, g.loops[m]);
    if m != l {
      assert Disjoint(g.loops[l].batch, g.loops[m].batch);
      assert head in g.loops[l].batch;
    }
    forall i | 0 <= i < |batch|
      ensures batch[i] < |g.deliveries| && g.deliveries[batch[i]].entry != Head(g, l)
    {
      assert batch[i] != head;
      DeliveriesAreOfDistinctEntries(g, batch[i], head);
    }
  }

  lemma AdvanceKeepsSchedule(g: Redis, h: Redis, l: nat, m: nat, handleMs: nat, readAt: nat)
    requires Advances(g, h, l) && m in g.loops && OnSchedule(g, g.loops[m], handleMs, readAt)
    requires var batch := h.loops[m].batch;
             forall i | 0 <= i < |batch| :: batch[i] < |g.deliveries| && g.deliveries[batch[i]].entry != Head(g, l)
    ensures OnSchedule(h, h.loops[m], handleMs, readAt)
  {
  }

  lemma AdvanceKeepsCovered(g: Redis, h: Redis, l: nat, e: nat)
    requires Advances(g, h, l) && e in h.pel && exists m, i: nat :: Covered(g, e, m, i)
    ensures exists m, i: nat :: Covered(h, e, m, i)
  {
    var m, i: nat :| Covered(g, e, m, i);
    assert Covered(h, e, m, if m == l then i - 1 else i);
  }

  lemma AdvanceKeepsTime(g: Redis, h: Redis, l: nat, handleMs: nat, idleMs: nat)
    requires LoopInv(g) && DeliveryInv(g) && TimedInv(g, handleMs, idleMs) && Advances(g, h, l)
    ensures TimedInv(h, handleMs, idleMs)
  {
    forall m | m in h.loops
      ensures LoopInTime(h, h.loops[m], handleMs, idleMs)
    {
      assert LoopInTime(g, g.loops[m], handleMs, idleMs);
      if h.loops[m].batch != [] {
        var readAt: nat :| OnSchedule(g, g.loops[m], handleMs, readAt);
        AckedIsNotAwaited(g, h, l, m);
        AdvanceKeepsSchedule(g, h, l, m, handleMs, readAt);
      }
    }
    forall e | e in h.pel
      ensures exists m, i: nat :: Covered(h, e, m, i)
    {
      AdvanceKeepsCovered(g, h, l, e);
    }
  }

  /** The steps inside `handleEntry` move one program counter. */
  lemma SetPcIsQuiet(g: Redis, h: Redis, l: nat, idleMs: nat)
    requires l in g.loops && l in h.loops && h.loops == g.loops[l := g.loops[l].(pc := h.loops[l].pc)]
    requires h.pel == g.pel && h.deliveries == g.deliveries && h.now == g.now
    ensures Quiet(g, h, idleMs)
  {
  }

  lemma HandlingIsQuiet(g: Redis, s: ServerStep, idleMs: nat)
    requires Enabled(g, s) && (s.Begin? || s.Return? || s.AddReply?)
    ensures Quiet(g, Apply(g, s), idleMs)
  {
    match s {
      case Begin(l) => SetPcIsQuiet(g, DoBegin(g, l), l, idleMs);
      case Return(l, reply) => SetPcIsQuiet(g, DoReturn(g, l, reply), l, idleMs);
      case AddReply(l, trimTo) => SetPcIsQuiet(g, DoAddReply(g, l, trimTo), l, idleMs);
    }
  }

  lemma LoopStepIsQuiet(g: Redis, s: ServerStep, handleMs: nat, idleMs: nat)
    requires Timely(g, Serve(s), handleMs, idleMs)
    requires s.CreateGroup? || s.StartLoop? || s.Begin? || s.Return? || s.AddReply?
    ensures Quiet(g, Apply(g, s), idleMs)
  {
    if !s.CreateGroup? && !s.StartLoop? {
      HandlingIsQuiet(g, s, idleMs);
    }
  }

  lemma LoopStepKeepsTime(g: Redis, s: ServerStep, handleMs: nat, idleMs: nat)
    requires TimedInv(g, handleMs, idleMs) && Timely(g, Serve(s), handleMs, idleMs)
    requires s.CreateGroup? || s.StartLoop? || s.Begin? || s.Return? || s.AddReply?
    ensures TimedInv(Apply(g, s), handleMs, idleMs)
  {
    LoopStepIsQuiet(g, s, handleMs, idleMs);
    QuietKeepsTime(g, Apply(g, s), handleMs, idleMs);
  }

  lemma BatchStepKeepsTime(g: Redis, s: ServerStep, handleMs: nat, idleMs: nat)
    requires LoopInv(g) && DeliveryInv(g) && PelInv(g) && GroupInv(g)
    requires TimedInv(g, handleMs, idleMs) && Spans(READ_COUNT, handleMs) < idleMs
    requires (s.Read? || s.Claim? || s.Ack?) && Enabled(g, s)
    ensures TimedInv(Apply(g, s), handleMs, idleMs)
  {
    match s {
      case Read(l) => ReadKeepsTime(g, l, handleMs, idleMs);
      case Claim(l) => NothingToClaim(g, handleMs, idleMs, l);
      case Ack(l) =>
        AckAdvances(g, l);
        AdvanceKeepsTime(g, DoAck(g, l), l, handleMs, idleMs);
    }
  }

  lemma ServeKeepsTime(g: Redis, s: ServerStep, handleMs: nat, idleMs: nat)
    requires Inv(g) && TimedInv(g, handleMs, idleMs) && Spans(READ_COUNT, handleMs) < idleMs
    requires Timely(g, Serve(s), handleMs, idleMs)
    ensures TimedInv(Apply(g, s), handleMs, idleMs)
  {
    if s.Tick? {
      TickKeepsTime(g, Apply(g, s), handleMs, idleMs);
    } else if s.Read? || s.Claim? || s.Ack? {
      BatchStepKeepsTime(g, s, handleMs, idleMs);
    } else {
      LoopStepKeepsTime(g, s, handleMs, idleMs);
    }
  }

  lemma StepKeepsTime(g: Redis, step: Step, handleMs: nat, idleMs: nat)
    requires Inv(g) && TimedInv(g, handleMs, idleMs) && Spans(READ_COUNT, handleMs) < idleMs
    requires Timely(g, step, handleMs, idleMs)
    ensures Inv(Next(g, step)) && TimedInv(Next(g, step), handleMs, idleMs)
  {
    match step {
      case Arrive(entry) =>
        AppendKeepsInv(g, entry);
        QuietKeepsTime(g, Next(g, step), handleMs, idleMs);
      case Serve(s) =>
        StepKeepsInv(g, s);
        ServeKeepsTime(g, s, handleMs, idleMs);
    }
  }

  lemma {:induction false} TimelyRunKeepsTime(states: seq<Redis>, steps: seq<Step>, handleMs: nat, idleMs: nat, i: nat)
    requires IsTimelyRun(states, steps, handleMs, idleMs) && READ_COUNT * handleMs < idleMs && i < |states|
    ensures Inv(states[i]) && TimedInv(states[i], handleMs, idleMs)
  {
    if i > 0 {
      TimelyRunKeepsTime(states, steps, handleMs, idleMs, i - 1);
      SpansIsProduct(READ_COUNT, handleMs);
      StepKeepsTime(states[i - 1], steps[i - 1], handleMs, idleMs);
    }
  }

  /** In a timely run nothing is claimed and no entry is dispatched twice. */
  lemma TimelyRunDispatchesOnce(states: seq<Redis>, steps: seq<Step>, handleMs: nat, idleMs: nat, i: nat, e: nat)
    requires IsTimelyRun(states, steps, handleMs, idleMs) && READ_COUNT * handleMs < idleMs && i < |states|
    ensures HandOutsOf(states[i], e, true) == {}
    ensures |DispatchesOf(states[i], e)| <= 1
  {
    TimelyRunKeepsTime(states, steps, handleMs, idleMs, i);
    DispatchesAreAccounted(states[i], e);
  }

  // ---------------------------------------------------------------------------------------
  // At the threshold a run dispatches an entry twice.
  // ---------------------------------------------------------------------------------------

  ghost predicate Reachable(g: Redis, handleMs: nat, idleMs: nat) {
    exists states, steps :: IsTimelyRun(states, steps, handleMs, idleMs) && g == states[|steps|]
  }

  lemma ReachNext(g: Redis, step: Step, handleMs: nat, idleMs: nat)
    requires Reachable(g, handleMs, idleMs) && Timely(g, step, handleMs, idleMs)
    ensures Reachable(Next(g, step), handleMs, idleMs)
  {
    var states, steps :| IsTimelyRun(states, steps, handleMs, idleMs) && g == states[|steps|];
    var longer, more := states + [Next(g, step)], steps + [step];
    forall i | 0 <= i < |more|
      ensures Timely(longer[i], more[i], handleMs, idleMs) && longer[i + 1] == Next(longer[i], more[i])
    {
      if i < |steps| {
        assert longer[i] == states[i] && longer[i + 1] == states[i + 1] && more[i] == steps[i];
      }
    }
    assert IsTimelyRun(longer, more, handleMs, idleMs);
  }

  lemma ReachServe(g: Redis, s: ServerStep, handleMs: nat, idleMs: nat)
    requires Reachable(g, handleMs, idleMs) && Timely(g, Serve(s), handleMs, idleMs)
    ensures Reachable(Apply(g, s), handleMs, idleMs)
  {
    ReachNext(g, Serve(s), handleMs, idleMs);
  }

  function Notification(service: string): Entry {
    Entry(service, Silent, None)
  }

  /** A consumer loop as it starts at time 0; the server's reclaim loop differs in its kind. */
  predicate Fresh(c: Loop) {
    c == Loop(c.service, c.consumer, Consumer, c.idleMs, c.maxLen, [], Ready, 0)
  }

  function Twin(c: Loop): Loop {
    c.(kind := Reclaimer)
  }

  /** One consumer, one reclaimer past its first nap, nothing delivered, and `n` notifications waiting. */
  ghost predicate Waiting(g: Redis, c: Loop, n: nat) {
    && Fresh(c) && |g.log| == n && (forall e | 0 <= e < n :: g.log[e] == Notification(c.service))
    && g.mark == map[c.service := 0] && g.pel == map[] && g.deliveries == [] && g.dispatches == []
    && g.now == Nap(c.idleMs)
    && g.loops == map[0 := c, 1 := Twin(c)]
  }

  /** The server's start. */
  lemma StartIsReachable(c: Loop, handleMs: nat) returns (g: Redis)
    requires Fresh(c)
    ensures Reachable(g, handleMs, c.idleMs) && Waiting(g.(now := g.now + Nap(c.idleMs)), c, 0)
  {
    assert IsTimelyRun([EMPTY_REDIS], [], handleMs, c.idleMs);
    g := EMPTY_REDIS;
    ReachServe(g, CreateGroup(c.service), handleMs, c.idleMs);
    g := Apply(g, CreateGroup(c.service));
    var consumer := StartLoop(0, c.service, c.consumer, Consumer, c.idleMs, c.maxLen);
    ReachServe(g, consumer, handleMs, c.idleMs);
    g := Apply(g, consumer);
    var reclaimer := StartLoop(1, c.service, c.consumer, Reclaimer, c.idleMs, c.maxLen);
    ReachServe(g, reclaimer, handleMs, c.idleMs);
    g := Apply(g, reclaimer);
  }

  /** Its reclaim loop sleeps for the first time. */
  lemma NapIsReachable(c: Loop, handleMs: nat) returns (g: Redis)
    requires Fresh(c)
    ensures Reachable(g, handleMs, c.idleMs) && Waiting(g, c, 0)
  {
    var f := StartIsReachable(c, handleMs);
    ReachServe(f, Tick(Nap(c.idleMs)), handleMs, c.idleMs);
    g := Apply(f, Tick(Nap(c.idleMs)));
  }

  lemma {:induction false} WaitingIsReachable(c: Loop, n: nat, handleMs: nat) returns (g: Redis)
    requires Fresh(c)
    ensures Reachable(g, handleMs, c.idleMs) && Waiting(g, c, n)
  {
    if n == 0 {
      g := NapIsReachable(c, handleMs);
    } else {
      var f := WaitingIsReachable(c, n - 1, handleMs);
      ReachNext(f, Arrive(Notification(c.service)), handleMs, c.idleMs);
      g := Next(f, Arrive(Notification(c.service)));
    }
  }

  /** One read took sixteen entries, and the first `done` of them took a full span each. */
  ghost predicate Working(g: Redis, c: Loop, done: nat, handleMs: nat) {
    && Fresh(c) && done < READ_COUNT
    && |g.log| == READ_COUNT && (forall e | 0 <= e < READ_COUNT :: g.log[e] == Notification(c.service))
    && |g.deliveries| == READ_COUNT && (forall d | 0 <= d < READ_COUNT :: g.deliveries[d] == Delivery(d, false))
    && (forall e | e in g.pel :: done <= e) && READ_COUNT - 1 in g.pel && g.pel[READ_COUNT - 1].deliveredAt == Nap(c.idleMs)
    && |g.dispatches| == done && g.now == Nap(c.idleMs) + Spans(done, handleMs)
    && g.loops.Keys == {0, 1}
    && g.loops[0] == c.(batch := Range(done, READ_COUNT - done), since := g.now)
    && g.loops[1] == Twin(c)
  }

  lemma {:induction false} AllAreNew(log: seq<Entry>, service: string, from: nat, count: nat)
    requires from + count == |log| && forall e | 0 <= e < |log| :: log[e].service == service
    ensures var r := NewEntries(log, service, from, count);
            |r| == count && forall i | 0 <= i < count :: r[i] == from + i
    decreases count
  {
    if count > 0 {
      AllAreNew(log, service, from + 1, count - 1);
      var rest := NewEntries(log, service, from + 1, count - 1);
      assert log[from].service == service;
      assert NewEntries(log, service, from, count) == [from] + rest;
    }
  }

  lemma HandedDeliveries(entries: seq<nat>)
    requires forall i | 0 <= i < |entries| :: entries[i] == i
    ensures forall d | 0 <= d < |entries| :: DeliveriesOf(entries, false)[d] == Delivery(d, false)
  {
  }

  lemma HandedPel(g: Redis, h: Redis, l: nat, entries: seq<nat>, e: nat)
    requires l in g.loops && h == Deliver(g, l, entries, false).(mark := h.mark)
    ensures e in h.pel <==> e in g.pel || e in entries
    ensures e in entries ==> h.pel[e].deliveredAt == g.now
  {
  }

  lemma HandedRest(g: Redis, h: Redis, l: nat, entries: seq<nat>)
    requires l in g.loops && h == Deliver(g, l, entries, false).(mark := h.mark)
    ensures h.log == g.log && h.dispatches == g.dispatches && h.now == g.now
    ensures h.deliveries == g.deliveries + DeliveriesOf(entries, false)
  {
  }

  lemma HandedLoops(g: Redis, h: Redis, l: nat, entries: seq<nat>)
    requires l in g.loops && h == Deliver(g, l, entries, false).(mark := h.mark)
    ensures h.loops == g.loops[l := g.loops[l].(batch := Range(|g.deliveries|, |entries|), since := g.now)]
  {
  }

  lemma HandingStartsWork(g: Redis, h: Redis, c: Loop, handed: seq<Delivery>, none: nat, handleMs: nat)
    requires Waiting(g, c, READ_COUNT) && none == 0
    requires h.log == g.log && h.dispatches == g.dispatches && h.now == g.now
    requires h.deliveries == g.deliveries + handed && |handed| == READ_COUNT
    requires forall d | 0 <= d < READ_COUNT :: handed[d] == Delivery(d, false)
    requires h.loops == g.loops[0 := g.loops[0].(batch := Range(none, READ_COUNT), since := g.now)]
    requires READ_COUNT - 1 in h.pel && h.pel[READ_COUNT - 1].deliveredAt == Nap(c.idleMs)
    ensures Working(h, c, none, handleMs)
  {
  }

  lemma ReadStartsWork(g: Redis, c: Loop, handleMs: nat)
    requires Waiting(g, c, READ_COUNT)
    ensures Enabled(g, Read(0)) && Working(DoRead(g, 0), c, 0, handleMs)
  {
    AllAreNew(g.log, c.service, 0, READ_COUNT);
    var h, entries := DoRead(g, 0), NextEntries(g, 0);
    assert entries[READ_COUNT - 1] == READ_COUNT - 1;
    HandedDeliveries(entries);
    HandedPel(g, h, 0, entries, READ_COUNT - 1);
    HandedRest(g, h, 0, entries);
    HandedLoops(g, h, 0, entries);
    HandingStartsWork(g, h, c, DeliveriesOf(entries, false), 0, handleMs);
  }

  /** The head is dispatched and its handler takes the whole span. */
  function Dispatched(g: Redis, handleMs: nat): Redis
    requires Enabled(g, Begin(0))
  {
    DoBegin(g, 0).(now := g.now + handleMs)
  }

  lemma DispatchTakesSpan(g: Redis, c: Loop, done: nat, handleMs: nat)
    requires Reachable(g, handleMs, c.idleMs) && Working(g, c, done, handleMs)
    ensures Enabled(g, Begin(0)) && Reachable(Dispatched(g, handleMs), handleMs, c.idleMs)
  {
    assert Head(g, 0) == done;
    ReachServe(g, Begin(0), handleMs, c.idleMs);
    ReachServe(DoBegin(g, 0), Tick(handleMs), handleMs, c.idleMs);
  }

  lemma FinishIsTimely(g: Redis, c: Loop, done: nat, handleMs: nat)
    requires Working(g, c, done, handleMs) && Enabled(g, Begin(0))
    ensures var f := Dispatched(g, handleMs);
            && Enabled(f, Return(0, None))
            && var r := DoReturn(f, 0, None);
               && Enabled(r, Ack(0)) && Head(r, 0) == done
               && r.(loops := g.loops, dispatches := g.dispatches, now := g.now) == g
               && r.now == g.now + handleMs && |r.dispatches| == done + 1
               && r.loops.Keys == g.loops.Keys && r.loops[1] == g.loops[1]
               && r.loops[0] == g.loops[0].(pc := Acking(Some(done)))
  {
  }

  lemma AckMovesOn(g: Redis, r: Redis, c: Loop, done: nat, handleMs: nat)
    requires Working(g, c, done, handleMs) && done + 1 < READ_COUNT
    requires Enabled(r, Ack(0)) && Head(r, 0) == done
    requires r.(loops := g.loops, dispatches := g.dispatches, now := g.now) == g
    requires r.now == g.now + handleMs && |r.dispatches| == done + 1
    requires r.loops.Keys == g.loops.Keys && r.loops[1] == g.loops[1]
    requires r.loops[0] == g.loops[0].(pc := Acking(Some(done)))
    ensures Working(DoAck(r, 0), c, done + 1, handleMs)
  {
  }

  lemma FinishMovesOn(g: Redis, c: Loop, done: nat, handleMs: nat) returns (h: Redis)
    requires Reachable(g, handleMs, c.idleMs) && Working(g, c, done, handleMs) && done + 1 < READ_COUNT
    ensures Reachable(h, handleMs, c.idleMs) && Working(h, c, done + 1, handleMs)
  {
    DispatchTakesSpan(g, c, done, handleMs);
    FinishIsTimely(g, c, done, handleMs);
    var f := Dispatched(g, handleMs);
    ReachServe(f, Return(0, None), handleMs, c.idleMs);
    var r := DoReturn(f, 0, None);
    ReachServe(r, Ack(0), handleMs, c.idleMs);
    h := DoAck(r, 0);
    AckMovesOn(g, r, c, done, handleMs);
  }

  lemma {:induction false} WorkingIsReachable(c: Loop, done: nat, handleMs: nat) returns (g: Redis)
    requires Fresh(c) && done < READ_COUNT
    ensures Reachable(g, handleMs, c.idleMs) && Working(g, c, done, handleMs)
  {
    if done == 0 {
      var f := WaitingIsReachable(c, READ_COUNT, handleMs);
      ReadStartsWork(f, c, handleMs);
      ReachServe(f, Read(0), handleMs, c.idleMs);
      g := DoRead(f, 0);
    } else {
      var f := WorkingIsReachable(c, done - 1, handleMs);
      g := FinishMovesOn(f, c, done - 1, handleMs);
    }
  }

  /** The sixteenth entry is still being handled when it has been pending for sixteen spans. */
  lemma LastIsClaimed(g: Redis, c: Loop, handleMs: nat)
    requires Working(g, c, READ_COUNT - 1, handleMs) && c.idleMs <= Spans(READ_COUNT, handleMs)
    ensures Enabled(g, Begin(0))
    ensures var f := Dispatched(g, handleMs);
            Enabled(f, Claim(1)) && ClaimedEntries(f, 1) == [READ_COUNT - 1]
  {
    assert Head(g, 0) == READ_COUNT - 1;
    var f := Dispatched(g, handleMs);
    var entries := ClaimedEntries(f, 1);
    assert Spans(READ_COUNT, handleMs) == Spans(READ_COUNT - 1, handleMs) + handleMs;
    assert f.now == Nap(c.idleMs) + Spans(READ_COUNT, handleMs);
    forall i | 0 <= i < |entries|
      ensures entries[i] == READ_COUNT - 1
    {
      assert Claimable(f.log, f.pel, c.service, f.now, c.idleMs, entries[i]);
    }
    assert Claimable(f.log, f.pel, c.service, f.now, c.idleMs, READ_COUNT - 1);
    assert |entries| == CLAIM_COUNT || READ_COUNT - 1 in entries;
    var first, last := entries[0], entries[|entries| - 1];
    assert 0 < |entries| - 1 ==> first < last;
  }

  /** The consumer's dispatch of the sixteenth entry, and then the reclaimer's. */
  ghost predicate DispatchedAgain(g: Redis, c: Loop) {
    && DispatchFor(g, READ_COUNT - 1, READ_COUNT - 1) && DispatchFor(g, READ_COUNT, READ_COUNT - 1)
    && |g.log| == READ_COUNT && g.log[READ_COUNT - 1].service == c.service
    && g.loops.Keys == {0, 1} && g.loops[1].kind.Reclaimer?
  }

  lemma BeginsAgain(w: Redis, f: Redis, h: Redis, c: Loop, handleMs: nat)
    requires Working(w, c, READ_COUNT - 1, handleMs) && Enabled(w, Begin(0)) && f == Dispatched(w, handleMs)
    requires h == Deliver(f, 1, [READ_COUNT - 1], true)
    ensures Enabled(h, Begin(1))
    ensures DispatchedAgain(DoBegin(h, 1), c)
  {
  }

  lemma ClaimDispatchesAgain(w: Redis, c: Loop, handleMs: nat) returns (g: Redis)
    requires Reachable(w, handleMs, c.idleMs) && Working(w, c, READ_COUNT - 1, handleMs)
    requires c.idleMs <= Spans(READ_COUNT, handleMs)
    ensures Reachable(g, handleMs, c.idleMs) && DispatchedAgain(g, c)
  {
    LastIsClaimed(w, c, handleMs);
    DispatchTakesSpan(w, c, READ_COUNT - 1, handleMs);
    var f := Dispatched(w, handleMs);
    ReachServe(f, Claim(1), handleMs, c.idleMs);
    var h := DoClaim(f, 1);
    assert h == Deliver(f, 1, [READ_COUNT - 1], true);
    BeginsAgain(w, f, h, c, handleMs);
    ReachServe(h, Begin(1), handleMs, c.idleMs);
    g := DoBegin(h, 1);
  }

  lemma SecondDispatch(c: Loop, handleMs: nat) returns (g: Redis)
    requires Fresh(c) && c.idleMs <= READ_COUNT * handleMs
    ensures Reachable(g, handleMs, c.idleMs) && DispatchedAgain(g, c)
    ensures |DispatchesOf(g, READ_COUNT - 1)| > 1
  {
    SpansIsProduct(READ_COUNT, handleMs);
    var w := WorkingIsReachable(c, READ_COUNT - 1, handleMs);
    g := ClaimDispatchesAgain(w, c, handleMs);
    SubsetSize({READ_COUNT - 1, READ_COUNT}, DispatchesOf(g, READ_COUNT - 1));
  }

  ghost predicate NeverTwice(handleMs: nat, idleMs: nat) {
    forall g, e: nat | Reachable(g, handleMs, idleMs) :: |DispatchesOf(g, e)| <= 1
  }

  /** Timed exactly-once: entries are dispatched at most once in all timely runs, exactly under this bound. */
  lemma DispatchedOnceExactly(handleMs: nat, idleMs: nat)
    ensures NeverTwice(handleMs, idleMs) <==> READ_COUNT * handleMs < idleMs
  {
    if READ_COUNT * handleMs < idleMs {
      forall g, e: nat | Reachable(g, handleMs, idleMs)
        ensures |DispatchesOf(g, e)| <= 1
      {
        var states, steps :| IsTimelyRun(states, steps, handleMs, idleMs) && g == states[|steps|];
        TimelyRunDispatchesOnce(states, steps, handleMs, idleMs, |steps|, e);
      }
    } else {
      var g := SecondDispatch(Loop("", "", Consumer, idleMs, 0, [], Ready, 0), handleMs);
    }
  }
}
