/** Every step of the server side keeps the invariants; counting deliveries and dispatches. */
module GroupInvariants {
  import opened Wrappers
  import opened JsonValues
  import opened ReplyStreams
  import opened CommandGroup

  // ---------------------------------------------------------------------------------------
  // Growth: nothing recorded is ever taken back.
  // ---------------------------------------------------------------------------------------

  ghost predicate DispatchesGrow(a: seq<Dispatch>, b: seq<Dispatch>) {
    && |a| <= |b|
    && forall k | 0 <= k < |a| ::
         b[k].delivery == a[k].delivery && (a[k].progress.Returned? ==> b[k] == a[k])
  }

  ghost predicate StreamsGrow(a: map<string, ReplyStream>, b: map<string, ReplyStream>) {
    forall name | name in a :: name in b && a[name].items <= b[name].items && a[name].trimmed <= b[name].trimmed
  }

  ghost predicate GroupsGrow(g: Redis, h: Redis) {
    && (forall s | s in g.created :: s in h.created && h.created[s] == g.created[s])
    && (forall s | s in g.mark :: s in h.mark && g.mark[s] <= h.mark[s])
  }

  ghost predicate Grows(g: Redis, h: Redis) {
    && g.log <= h.log && g.deliveries <= h.deliveries && g.acked <= h.acked && g.now <= h.now
    && GroupsGrow(g, h)
    && DispatchesGrow(g.dispatches, h.dispatches)
    && StreamsGrow(g.streams, h.streams)
  }

  lemma GrowthKeepsDelivered(g: Redis, h: Redis, e: nat)
    requires Grows(g, h) && Delivered(g, e)
    ensures Delivered(h, e)
  {
  }

  lemma GrowthKeepsBatch(g: Redis, h: Redis, loop: Loop)
    requires Grows(g, h) && BatchInv(g, loop)
    ensures BatchInv(h, loop)
  {
  }

  lemma GrowthKeepsPc(g: Redis, h: Redis, loop: Loop)
    requires Grows(g, h) && BatchInv(g, loop) && PcOk(g, loop)
    requires loop.pc.Dispatching? && loop.pc.k < |g.dispatches| ==> h.dispatches[loop.pc.k] == g.dispatches[loop.pc.k]
    ensures PcOk(h, loop)
  {
  }

  lemma GrowthKeepsCompleted(g: Redis, h: Redis, e: nat, k: nat)
    requires Grows(g, h) && Completed(g, e, k)
    ensures Completed(h, e, k)
  {
  }

  lemma GrowthKeepsJustified(g: Redis, h: Redis, e: nat)
    requires Grows(g, h) && Justified(g, e)
    ensures Justified(h, e)
  {
    assert h.log[e] == g.log[e];
    if !g.log[e].body.Poison? {
      var k: nat :| Completed(g, e, k);
      GrowthKeepsCompleted(g, h, e, k);
    }
  }

  lemma GrowthKeepsAcks(g: Redis, h: Redis)
    requires Grows(g, h) && AckInv(g) && h.acked == g.acked
    ensures AckInv(h)
  {
    forall e | e in h.acked
      ensures Justified(h, e)
    {
      GrowthKeepsJustified(g, h, e);
    }
  }

  lemma GrowthKeepsGenuine(g: Redis, h: Redis, name: string, m: Item)
    requires Grows(g, h) && m.Message? && Genuine(g, name, m)
    ensures Genuine(h, name, m)
  {
  }

  lemma GrowthKeepsStreams(g: Redis, h: Redis)
    requires Grows(g, h) && StreamInv(g) && h.streams == g.streams
    ensures StreamInv(h)
  {
  }

  /** Growth that leaves the deliveries alone keeps them. */
  lemma GrowthKeepsDeliveries(g: Redis, h: Redis)
    requires Grows(g, h) && DeliveryInv(g) && h.deliveries == g.deliveries
    ensures DeliveryInv(h)
  {
  }

  /** Growth that hands out nothing keeps the pending list exact. */
  lemma GrowthKeepsPel(g: Redis, h: Redis)
    requires Grows(g, h) && PelInv(g) && GroupInv(g) && h.pel == g.pel && h.acked == g.acked
    requires forall s | s in h.mark && s in h.created :: if s in g.mark then h.mark[s] == g.mark[s] else h.mark[s] == h.created[s]
    ensures PelInv(h)
  {
  }

  lemma GrowthKeepsDispatches(g: Redis, h: Redis)
    requires Grows(g, h) && DispatchInv(g) && h.dispatches == g.dispatches && h.loops == g.loops
    ensures DispatchInv(h)
  {
  }

  lemma GrowthKeepsDispatchOk(g: Redis, h: Redis, dispatch: Dispatch)
    requires Grows(g, h) && DispatchOk(g, dispatch)
    ensures DispatchOk(h, dispatch)
  {
  }

  lemma GrowthKeepsLoops(g: Redis, h: Redis)
    requires Grows(g, h) && LoopInv(g) && PcInv(g) && h.loops == g.loops && h.dispatches == g.dispatches
    ensures LoopInv(h) && PcInv(h)
  {
    forall l | l in h.loops
      ensures BatchInv(h, h.loops[l]) && PcOk(h, h.loops[l])
    {
      assert BatchInv(g, g.loops[l]) && PcOk(g, g.loops[l]);
      GrowthKeepsBatch(g, h, g.loops[l]);
      GrowthKeepsPc(g, h, g.loops[l]);
    }
  }

  /** Growth that touches neither the pending list nor the deliveries, acknowledgements and groups. */
  lemma GrowthKeepsRecords(g: Redis, h: Redis)
    requires GroupInv(g) && PelInv(g) && DeliveryInv(g) && AckInv(g) && Grows(g, h) && h.log == g.log && h.mark == g.mark && h.created == g.created
    requires h.pel == g.pel && h.acked == g.acked && h.deliveries == g.deliveries
    ensures GroupInv(h) && PelInv(h) && DeliveryInv(h) && AckInv(h)
  {
    GrowthKeepsPel(g, h);
    GrowthKeepsDeliveries(g, h);
    GrowthKeepsAcks(g, h);
  }

  /** Growth that changes nothing but the log, new groups, or the clock. */
  lemma QuietGrowthKeepsInv(g: Redis, h: Redis)
    requires Inv(g) && Grows(g, h) && GroupInv(h)
    requires h == g.(log := h.log, created := h.created, mark := h.mark, now := h.now)
    requires forall s | s in h.mark && s in h.created :: if s in g.mark then h.mark[s] == g.mark[s] else h.mark[s] == h.created[s]
    ensures Inv(h)
  {
    GrowthKeepsPel(g, h);
    GrowthKeepsDeliveries(g, h);
    GrowthKeepsLoops(g, h);
    GrowthKeepsDispatches(g, h);
    GrowthKeepsAcks(g, h);
    GrowthKeepsStreams(g, h);
  }

  // ---------------------------------------------------------------------------------------
  // One lemma per step.
  // ---------------------------------------------------------------------------------------

  lemma CreateGroupKeepsInv(g: Redis, service: string)
    requires Inv(g)
    ensures Inv(DoCreateGroup(g, service)) && Grows(g, DoCreateGroup(g, service))
  {
    var h := DoCreateGroup(g, service);
    if service !in g.mark {
      assert h == g.(created := h.created, mark := h.mark);
      assert h.mark.Keys == h.created.Keys;
      assert Grows(g, h);
      QuietGrowthKeepsInv(g, h);
    }
  }

  lemma AppendKeepsInv(g: Redis, entry: Entry)
    requires Inv(g)
    ensures Inv(g.(log := g.log + [entry])) && Grows(g, g.(log := g.log + [entry]))
  {
    QuietGrowthKeepsInv(g, g.(log := g.log + [entry]));
  }

  lemma TickKeepsInv(g: Redis, ms: nat)
    requires Inv(g)
    ensures Inv(g.(now := g.now + ms)) && Grows(g, g.(now := g.now + ms))
  {
    QuietGrowthKeepsInv(g, g.(now := g.now + ms));
  }

  /** Starting, crashing and aborting only add, drop or reset loops. */
  ghost predicate LoopsReset(g: Redis, loops: map<nat, Loop>) {
    forall l | l in loops ::
      (loops[l].batch == [] && loops[l].pc.Ready? && loops[l].service in g.mark) || (l in g.loops && loops[l] == g.loops[l])
  }

  lemma ResetKeepsLoop(g: Redis, loops: map<nat, Loop>, l: nat)
    requires LoopInv(g) && PcInv(g) && LoopsReset(g, loops) && l in loops && Grows(g, g.(loops := loops))
    ensures BatchInv(g.(loops := loops), loops[l]) && PcOk(g.(loops := loops), loops[l])
  {
  }

  lemma ResetKeepsDispatches(g: Redis, loops: map<nat, Loop>)
    requires DispatchInv(g) && LoopsReset(g, loops)
    ensures DispatchInv(g.(loops := loops))
  {
  }

  lemma LoopChangeKeepsInv(g: Redis, loops: map<nat, Loop>)
    requires Inv(g) && LoopsReset(g, loops)
    ensures Inv(g.(loops := loops)) && Grows(g, g.(loops := loops))
  {
    var h := g.(loops := loops);
    GrowthKeepsRecords(g, h);
    GrowthKeepsStreams(g, h);
    ResetKeepsDispatches(g, loops);
    forall l | l in loops
      ensures BatchInv(h, loops[l]) && PcOk(h, loops[l])
    {
      ResetKeepsLoop(g, loops, l);
    }
  }

  // ---------------------------------------------------------------------------------------
  // Handing out.
  // ---------------------------------------------------------------------------------------

  /** `h` is `g` after `entries` went to the idle loop `l`, with the group's mark possibly moved. */
  ghost predicate HandsOut(g: Redis, h: Redis, l: nat, entries: seq<nat>, claimed: bool) {
    && l in g.loops && g.loops[l].batch == [] && g.loops[l].pc.Ready?
    && h == Deliver(g, l, entries, claimed).(mark := h.mark)
    && (forall i | 0 <= i < |entries| ::
          Delivered(h, entries[i]) && entries[i] !in g.acked && h.log[entries[i]].service == g.loops[l].service)
    && (forall i, j | 0 <= i < j < |entries| :: entries[i] < entries[j])
    && (claimed ==> forall i | 0 <= i < |entries| :: entries[i] in g.pel)
    && (!claimed ==> forall i | 0 <= i < |entries| :: !Delivered(g, entries[i]))
    && (forall e: nat | Delivered(h, e) && !Delivered(g, e) :: e in entries)
    && GroupInv(h) && GroupsGrow(g, h) && g.loops[l].service in g.mark
  }

  lemma HandingOutGrows(g: Redis, h: Redis, l: nat, entries: seq<nat>, claimed: bool)
    requires HandsOut(g, h, l, entries, claimed)
    ensures Grows(g, h)
  {
  }

  lemma HandingOutKeepsPel(g: Redis, h: Redis, l: nat, entries: seq<nat>, claimed: bool)
    requires PelInv(g) && HandsOut(g, h, l, entries, claimed) && Grows(g, h)
    ensures PelInv(h)
  {
    forall e | e in h.pel
      ensures Delivered(h, e) && e !in h.acked && h.pel[e].deliveredAt <= h.now
    {
      if e in entries {
        var i :| 0 <= i < |entries| && entries[i] == e;
      } else {
        GrowthKeepsDelivered(g, h, e);
      }
    }
    forall e | e in h.acked
      ensures Delivered(h, e)
    {
      GrowthKeepsDelivered(g, h, e);
    }
  }

  lemma HandingOutKeepsDeliveries(g: Redis, h: Redis, l: nat, entries: seq<nat>, claimed: bool)
    requires DeliveryInv(g) && HandsOut(g, h, l, entries, claimed) && Grows(g, h)
    ensures DeliveryInv(h)
  {
  }

  lemma HandedBatchIsValid(g: Redis, h: Redis, l: nat, entries: seq<nat>, claimed: bool)
    requires HandsOut(g, h, l, entries, claimed)
    ensures BatchInv(h, h.loops[l]) && PcOk(h, h.loops[l])
    ensures forall d | d in h.loops[l].batch :: |g.deliveries| <= d
  {
  }

  lemma HandingOutKeepsLoops(g: Redis, h: Redis, l: nat, entries: seq<nat>, claimed: bool)
    requires LoopInv(g) && PcInv(g) && HandsOut(g, h, l, entries, claimed) && Grows(g, h)
    ensures LoopInv(h) && PcInv(h)
  {
    HandedBatchIsValid(g, h, l, entries, claimed);
    forall m | m in h.loops
      ensures BatchInv(h, h.loops[m]) && PcOk(h, h.loops[m])
    {
      if m != l {
        assert BatchInv(g, g.loops[m]) && PcOk(g, g.loops[m]);
        GrowthKeepsBatch(g, h, g.loops[m]);
        GrowthKeepsPc(g, h, g.loops[m]);
      }
    }
    forall m, o | m in h.loops && o in h.loops && m != o
      ensures Disjoint(h.loops[m].batch, h.loops[o].batch)
    {
      if m != l && o != l {
        assert Disjoint(g.loops[m].batch, g.loops[o].batch);
      } else {
        var other := if m == l then o else m;
        assert BatchInv(g, g.loops[other]);
        assert forall d | d in g.loops[other].batch :: d < |g.deliveries|;
      }
    }
  }

  lemma HandingOutKeepsDispatches(g: Redis, h: Redis, l: nat, entries: seq<nat>, claimed: bool)
    requires DispatchInv(g) && HandsOut(g, h, l, entries, claimed) && Grows(g, h)
    ensures DispatchInv(h)
  {
    HandedBatchIsValid(g, h, l, entries, claimed);
    forall k | 0 <= k < |h.dispatches|
      ensures DispatchOk(h, h.dispatches[k])
    {
      GrowthKeepsDispatchOk(g, h, g.dispatches[k]);
    }
    forall m | m in h.loops
      ensures NotAhead(h, h.loops[m])
    {
      if m != l { assert NotAhead(g, g.loops[m]); }
    }
  }

  lemma HandingOutKeepsInv(g: Redis, h: Redis, l: nat, entries: seq<nat>, claimed: bool)
    requires Inv(g) && HandsOut(g, h, l, entries, claimed)
    ensures Inv(h) && Grows(g, h)
  {
    HandingOutGrows(g, h, l, entries, claimed);
    HandingOutKeepsPel(g, h, l, entries, claimed);
    HandingOutKeepsDeliveries(g, h, l, entries, claimed);
    HandingOutKeepsLoops(g, h, l, entries, claimed);
    HandingOutKeepsDispatches(g, h, l, entries, claimed);
    GrowthKeepsAcks(g, h);
    GrowthKeepsStreams(g, h);
  }

  function NextEntries(g: Redis, l: nat): seq<nat>
    requires Enabled(g, Read(l))
  {
    NewEntries(g.log, g.loops[l].service, g.mark[g.loops[l].service], READ_COUNT)
  }

  lemma ReadDelivers(g: Redis, l: nat, e: nat)
    requires GroupInv(g) && Enabled(g, Read(l)) && NextEntries(g, l) != []
    ensures Delivered(DoRead(g, l), e) <==> Delivered(g, e) || e in NextEntries(g, l)
    ensures e in NextEntries(g, l) ==> !Delivered(g, e) && g.log[e].service == g.loops[l].service
  {
    var h, service, entries := DoRead(g, l), g.loops[l].service, NextEntries(g, l);
    var last := entries[|entries| - 1];
    assert h.mark == g.mark[service := last + 1] && h.log == g.log && h.created == g.created;
    assert g.mark[service] <= entries[0] <= last;
    if e in entries {
      var i :| 0 <= i < |entries| && entries[i] == e;
    } else if e < |g.log| && g.log[e].service == service {
      if g.mark[service] <= e { NewEntriesSkipNone(g.log, service, g.mark[service], READ_COUNT, e); }
    }
  }

  lemma ReadMovesMark(g: Redis, l: nat)
    requires GroupInv(g) && Enabled(g, Read(l)) && NextEntries(g, l) != []
    ensures var h := DoRead(g, l);
            && h == Deliver(g, l, NextEntries(g, l), false).(mark := h.mark)
            && GroupInv(h) && GroupsGrow(g, h)
  {
  }

  lemma ReadHandsOut(g: Redis, l: nat)
    requires GroupInv(g) && PelInv(g) && Enabled(g, Read(l)) && NextEntries(g, l) != []
    ensures HandsOut(g, DoRead(g, l), l, NextEntries(g, l), false)
  {
    var h, entries := DoRead(g, l), NextEntries(g, l);
    ReadMovesMark(g, l);
    forall e: nat
      ensures Delivered(h, e) <==> Delivered(g, e) || e in entries
      ensures e in entries ==> !Delivered(g, e)
    {
      ReadDelivers(g, l, e);
    }
    forall i | 0 <= i < |entries|
      ensures Delivered(h, entries[i]) && entries[i] !in g.acked && !Delivered(g, entries[i])
      ensures h.log[entries[i]].service == g.loops[l].service
    {
      assert entries[i] in entries;
      ReadDelivers(g, l, entries[i]);
    }
  }

  lemma ReadKeepsInv(g: Redis, l: nat)
    requires Inv(g) && Enabled(g, Read(l))
    ensures Inv(DoRead(g, l)) && Grows(g, DoRead(g, l))
  {
    if NextEntries(g, l) != [] {
      ReadHandsOut(g, l);
      HandingOutKeepsInv(g, DoRead(g, l), l, NextEntries(g, l), false);
    }
  }

  function ClaimedEntries(g: Redis, l: nat): seq<nat>
    requires Enabled(g, Claim(l))
  {
    IdleEntries(g.log, g.pel, g.loops[l].service, g.now, g.loops[l].idleMs, 0, CLAIM_COUNT)
  }

  lemma ClaimsPending(g: Redis, l: nat, i: nat)
    requires PelInv(g) && Enabled(g, Claim(l)) && i < |ClaimedEntries(g, l)|
    ensures var e := ClaimedEntries(g, l)[i];
            Delivered(g, e) && e !in g.acked && e in g.pel && g.log[e].service == g.loops[l].service
  {
  }

  lemma SameGroupsDeliver(g: Redis, h: Redis)
    requires h.log == g.log && h.mark == g.mark && h.created == g.created
    ensures forall e: nat :: Delivered(h, e) <==> Delivered(g, e)
  {
  }

  lemma PendingHandsOut(g: Redis, h: Redis, l: nat, entries: seq<nat>)
    requires GroupInv(g) && l in g.loops && g.loops[l].batch == [] && g.loops[l].pc.Ready? && g.loops[l].service in g.mark
    requires h == Deliver(g, l, entries, true)
    requires forall i | 0 <= i < |entries| ::
               Delivered(g, entries[i]) && entries[i] !in g.acked && entries[i] in g.pel
               && g.log[entries[i]].service == g.loops[l].service
    requires forall i, j | 0 <= i < j < |entries| :: entries[i] < entries[j]
    ensures HandsOut(g, h, l, entries, true)
  {
    SameGroupsDeliver(g, h);
  }

  lemma ClaimHandsOut(g: Redis, l: nat)
    requires GroupInv(g) && PelInv(g) && Enabled(g, Claim(l)) && ClaimedEntries(g, l) != []
    requires g.loops[l].service in g.mark
    ensures HandsOut(g, DoClaim(g, l), l, ClaimedEntries(g, l), true)
  {
    forall i | 0 <= i < |ClaimedEntries(g, l)|
      ensures var e := ClaimedEntries(g, l)[i];
              Delivered(g, e) && e !in g.acked && e in g.pel && g.log[e].service == g.loops[l].service
    {
      ClaimsPending(g, l, i);
    }
    PendingHandsOut(g, DoClaim(g, l), l, ClaimedEntries(g, l));
  }

  lemma ClaimKeepsInv(g: Redis, l: nat)
    requires Inv(g) && Enabled(g, Claim(l))
    ensures Inv(DoClaim(g, l)) && Grows(g, DoClaim(g, l))
  {
    if ClaimedEntries(g, l) != [] {
      assert BatchInv(g, g.loops[l]);
      ClaimHandsOut(g, l);
      HandingOutKeepsInv(g, DoClaim(g, l), l, ClaimedEntries(g, l), true);
    }
  }

  // ---------------------------------------------------------------------------------------
  // Handling one entry.
  // ---------------------------------------------------------------------------------------

  /** The loops other than `l` are untouched, and their dispatches too. */
  lemma OtherLoopsKeepInv(g: Redis, h: Redis, l: nat)
    requires LoopInv(g) && PcInv(g) && Grows(g, h) && l in g.loops && l in h.loops
    requires h.loops == g.loops[l := h.loops[l]]
    requires forall k | 0 <= k < |g.dispatches| && g.dispatches[k].delivery !in g.loops[l].batch :: h.dispatches[k] == g.dispatches[k]
    requires BatchInv(h, h.loops[l]) && PcOk(h, h.loops[l])
    requires forall d | d in h.loops[l].batch :: d in g.loops[l].batch
    ensures LoopInv(h) && PcInv(h)
  {
    forall m | m in h.loops
      ensures BatchInv(h, h.loops[m]) && PcOk(h, h.loops[m])
    {
      if m != l {
        assert BatchInv(g, g.loops[m]) && PcOk(g, g.loops[m]) && Disjoint(g.loops[m].batch, g.loops[l].batch);
        GrowthKeepsBatch(g, h, g.loops[m]);
        GrowthKeepsPc(g, h, g.loops[m]);
      }
    }
    forall m, o | m in h.loops && o in h.loops && m != o
      ensures Disjoint(h.loops[m].batch, h.loops[o].batch)
    {
      assert Disjoint(g.loops[m].batch, g.loops[o].batch);
    }
  }

  /** The head of a ready loop has not been dispatched, and no other loop holds it. */
  lemma BeginIsNotAhead(g: Redis, l: nat, m: nat)
    requires LoopInv(g) && Enabled(g, Begin(l)) && m in g.loops && NotAhead(g, g.loops[m])
    ensures NotAhead(DoBegin(g, l), DoBegin(g, l).loops[m])
  {
    var head := g.loops[l].batch[0];
    assert head in g.loops[l].batch;
    if m != l { assert Disjoint(g.loops[l].batch, g.loops[m].batch); }
  }

  lemma BeginDispatchesOnce(g: Redis, l: nat)
    requires LoopInv(g) && DispatchInv(g) && Enabled(g, Begin(l))
    ensures var ds := DoBegin(g, l).dispatches;
            forall k, j | 0 <= k < j < |ds| :: ds[k].delivery != ds[j].delivery
  {
  }

  lemma BeginKeepsDispatches(g: Redis, l: nat)
    requires LoopInv(g) && DispatchInv(g) && Enabled(g, Begin(l)) && Grows(g, DoBegin(g, l))
    ensures DispatchInv(DoBegin(g, l))
  {
    var h := DoBegin(g, l);
    forall k | 0 <= k < |h.dispatches|
      ensures DispatchOk(h, h.dispatches[k])
    {
      if k < |g.dispatches| { GrowthKeepsDispatchOk(g, h, g.dispatches[k]); }
    }
    BeginDispatchesOnce(g, l);
    forall m | m in h.loops
      ensures NotAhead(h, h.loops[m])
    {
      BeginIsNotAhead(g, l, m);
    }
  }

  lemma BeginKeepsLoops(g: Redis, l: nat)
    requires LoopInv(g) && PcInv(g) && Enabled(g, Begin(l)) && Grows(g, DoBegin(g, l))
    ensures LoopInv(DoBegin(g, l)) && PcInv(DoBegin(g, l))
  {
    var h, loop := DoBegin(g, l), g.loops[l];
    assert BatchInv(g, loop);
    GrowthKeepsBatch(g, h, loop);
    assert h.loops[l].batch == loop.batch && h.loops[l].service == loop.service;
    assert BatchInv(h, h.loops[l]);
    OtherLoopsKeepInv(g, h, l);
  }

  lemma BeginGrows(g: Redis, l: nat)
    requires Enabled(g, Begin(l))
    ensures Grows(g, DoBegin(g, l))
  {
  }

  lemma BeginKeepsRecords(g: Redis, l: nat)
    requires GroupInv(g) && PelInv(g) && DeliveryInv(g) && AckInv(g) && StreamInv(g) && Enabled(g, Begin(l))
    ensures var h := DoBegin(g, l);
            GroupInv(h) && PelInv(h) && DeliveryInv(h) && AckInv(h) && StreamInv(h) && Grows(g, h)
  {
    BeginGrows(g, l);
    GrowthKeepsRecords(g, DoBegin(g, l));
    GrowthKeepsStreams(g, DoBegin(g, l));
  }

  lemma BeginKeepsInv(g: Redis, l: nat)
    requires Inv(g) && Enabled(g, Begin(l))
    ensures Inv(DoBegin(g, l)) && Grows(g, DoBegin(g, l))
  {
    BeginKeepsRecords(g, l);
    BeginKeepsLoops(g, l);
    BeginKeepsDispatches(g, l);
  }

  lemma ReturnKeepsDispatches(g: Redis, l: nat, reply: Option<Json>)
    requires LoopInv(g) && PcInv(g) && DispatchInv(g) && Enabled(g, Return(l, reply)) && Grows(g, DoReturn(g, l, reply))
    ensures DispatchInv(DoReturn(g, l, reply))
  {
  }

  lemma ReturnKeepsLoops(g: Redis, l: nat, reply: Option<Json>)
    requires LoopInv(g) && PcInv(g) && Enabled(g, Return(l, reply)) && Grows(g, DoReturn(g, l, reply))
    ensures LoopInv(DoReturn(g, l, reply)) && PcInv(DoReturn(g, l, reply))
  {
    var h, loop := DoReturn(g, l, reply), g.loops[l];
    assert BatchInv(g, loop) && PcOk(g, loop);
    assert loop.batch[0] in loop.batch;
    GrowthKeepsBatch(g, h, loop);
    assert h.loops[l].batch == loop.batch && h.loops[l].service == loop.service;
    assert PcOk(h, h.loops[l]) by {
      if h.loops[l].pc.Acking? {
        assert Completed(h, Head(g, l), loop.pc.k);
      }
    }
    OtherLoopsKeepInv(g, h, l);
  }

  lemma ReturnKeepsInv(g: Redis, l: nat, reply: Option<Json>)
    requires Inv(g) && Enabled(g, Return(l, reply))
    ensures Inv(DoReturn(g, l, reply)) && Grows(g, DoReturn(g, l, reply))
  {
    var h := DoReturn(g, l, reply);
    assert PcOk(g, g.loops[l]) && BatchInv(g, g.loops[l]);
    assert Grows(g, h);
    GrowthKeepsRecords(g, h);
    GrowthKeepsStreams(g, h);
    ReturnKeepsLoops(g, l, reply);
    ReturnKeepsDispatches(g, l, reply);
  }

  lemma AddReplyKeepsStreams(g: Redis, l: nat, trimTo: nat)
    requires LoopInv(g) && PcInv(g) && StreamInv(g) && Enabled(g, AddReply(l, trimTo)) && Grows(g, DoAddReply(g, l, trimTo))
    ensures StreamInv(DoAddReply(g, l, trimTo))
  {
    var h, loop := DoAddReply(g, l, trimTo), g.loops[l];
    var target := g.log[Head(g, l)].replyTo.value;
    assert BatchInv(g, loop) && PcOk(g, loop);
    forall name, p | name in h.streams && 0 <= p < |h.streams[name].items| && h.streams[name].items[p].Message?
      ensures Genuine(h, name, h.streams[name].items[p])
    {
      if name != target || p < |StreamOf(g.streams, target).items| {
        GrowthKeepsGenuine(g, h, name, g.streams[name].items[p]);
      }
    }
  }

  lemma AddReplyKeepsLoops(g: Redis, l: nat, trimTo: nat)
    requires LoopInv(g) && PcInv(g) && Enabled(g, AddReply(l, trimTo)) && Grows(g, DoAddReply(g, l, trimTo))
    ensures LoopInv(DoAddReply(g, l, trimTo)) && PcInv(DoAddReply(g, l, trimTo))
  {
    var h, loop := DoAddReply(g, l, trimTo), g.loops[l];
    assert BatchInv(g, loop) && PcOk(g, loop);
    GrowthKeepsBatch(g, h, loop);
    assert h.loops[l].batch == loop.batch && h.loops[l].service == loop.service;
    assert PcOk(h, h.loops[l]) by {
      var items := StreamOf(h.streams, g.log[Head(g, l)].replyTo.value).items;
      assert items[|items| - 1].Message?;
      assert Completed(h, Head(g, l), loop.pc.k);
    }
    OtherLoopsKeepInv(g, h, l);
  }

  lemma AddReplyKeepsDispatches(g: Redis, l: nat, trimTo: nat)
    requires LoopInv(g) && PcInv(g) && DispatchInv(g) && Enabled(g, AddReply(l, trimTo)) && Grows(g, DoAddReply(g, l, trimTo))
    ensures DispatchInv(DoAddReply(g, l, trimTo))
  {
  }

  lemma AddReplyKeepsInv(g: Redis, l: nat, trimTo: nat)
    requires Inv(g) && Enabled(g, AddReply(l, trimTo))
    ensures Inv(DoAddReply(g, l, trimTo)) && Grows(g, DoAddReply(g, l, trimTo))
  {
    var h := DoAddReply(g, l, trimTo);
    assert Grows(g, h);
    GrowthKeepsRecords(g, h);
    AddReplyKeepsStreams(g, l, trimTo);
    AddReplyKeepsLoops(g, l, trimTo);
    AddReplyKeepsDispatches(g, l, trimTo);
  }

  lemma AckJustifies(g: Redis, l: nat)
    requires LoopInv(g) && PcInv(g) && AckInv(g) && Enabled(g, Ack(l)) && Grows(g, DoAck(g, l))
    ensures AckInv(DoAck(g, l))
  {
    var h, loop := DoAck(g, l), g.loops[l];
    assert BatchInv(g, loop) && PcOk(g, loop);
    forall e | e in h.acked
      ensures Justified(h, e)
    {
      if e == Head(g, l) {
        assert Justified(g, e);
      }
      GrowthKeepsJustified(g, h, e);
    }
  }

  lemma AckKeepsLoops(g: Redis, l: nat)
    requires LoopInv(g) && PcInv(g) && Enabled(g, Ack(l)) && Grows(g, DoAck(g, l))
    ensures LoopInv(DoAck(g, l)) && PcInv(DoAck(g, l))
  {
    var h, loop := DoAck(g, l), g.loops[l];
    assert BatchInv(g, loop) && PcOk(g, loop);
    GrowthKeepsBatch(g, h, loop);
    assert forall d | d in h.loops[l].batch :: d in loop.batch;
    OtherLoopsKeepInv(g, h, l);
  }

  /** What follows the acknowledged head has not been dispatched. */
  lemma AckKeepsDispatches(g: Redis, l: nat)
    requires LoopInv(g) && DispatchInv(g) && Enabled(g, Ack(l)) && Grows(g, DoAck(g, l))
    ensures DispatchInv(DoAck(g, l))
  {
  }

  lemma AckKeepsInv(g: Redis, l: nat)
    requires Inv(g) && Enabled(g, Ack(l))
    ensures Inv(DoAck(g, l)) && Grows(g, DoAck(g, l))
  {
    var h := DoAck(g, l);
    assert Grows(g, h);
    assert forall e: nat :: Delivered(h, e) <==> Delivered(g, e);
    assert BatchInv(g, g.loops[l]);
    assert Delivered(g, Head(g, l));
    GrowthKeepsDeliveries(g, h);
    GrowthKeepsStreams(g, h);
    AckKeepsLoops(g, l);
    AckKeepsDispatches(g, l);
    AckJustifies(g, l);
  }

  lemma LoopStepKeepsInv(g: Redis, step: ServerStep)
    requires Inv(g) && Enabled(g, step) && (step.StartLoop? || step.Crash? || step.Abort?)
    ensures Inv(Apply(g, step)) && Grows(g, Apply(g, step))
  {
    var loops := Apply(g, step).loops;
    assert forall l | l in g.loops :: BatchInv(g, g.loops[l]);
    LoopChangeKeepsInv(g, loops);
    assert Apply(g, step) == g.(loops := loops);
  }

  lemma SettlingKeepsInv(g: Redis, step: ServerStep)
    requires Inv(g) && Enabled(g, step) && (step.Return? || step.Ack?)
    ensures Inv(Apply(g, step)) && Grows(g, Apply(g, step))
  {
    match step {
      case Return(l, reply) => ReturnKeepsInv(g, l, reply);
      case Ack(l) => AckKeepsInv(g, l);
    }
  }

  lemma HandlingKeepsInv(g: Redis, step: ServerStep)
    requires Inv(g) && Enabled(g, step) && (step.Begin? || step.AddReply?)
    ensures Inv(Apply(g, step)) && Grows(g, Apply(g, step))
  {
    match step {
      case Begin(l) => BeginKeepsInv(g, l);
      case AddReply(l, trimTo) => AddReplyKeepsInv(g, l, trimTo);
    }
  }

  lemma ReadingKeepsInv(g: Redis, step: ServerStep)
    requires Inv(g) && Enabled(g, step) && (step.Read? || step.Claim?)
    ensures Inv(Apply(g, step)) && Grows(g, Apply(g, step))
  {
    match step {
      case Read(l) => ReadKeepsInv(g, l);
      case Claim(l) => ClaimKeepsInv(g, l);
    }
  }

  lemma QuietStepKeepsInv(g: Redis, step: ServerStep)
    requires Inv(g) && (step.CreateGroup? || step.Tick?)
    ensures Inv(Apply(g, step)) && Grows(g, Apply(g, step))
  {
    var h := Apply(g, step);
    match step {
      case CreateGroup(service) =>
        assert h == DoCreateGroup(g, service);
        CreateGroupKeepsInv(g, service);
      case Tick(ms) =>
        assert h == g.(now := g.now + ms);
        TickKeepsInv(g, ms);
    }
  }

  lemma StepKeepsInv(g: Redis, step: ServerStep)
    requires Inv(g) && Enabled(g, step)
    ensures Inv(Apply(g, step)) && Grows(g, Apply(g, step))
  {
    if step.StartLoop? || step.Crash? || step.Abort? {
      LoopStepKeepsInv(g, step);
    } else if step.CreateGroup? || step.Tick? {
      QuietStepKeepsInv(g, step);
    } else if step.Read? || step.Claim? {
      ReadingKeepsInv(g, step);
    } else if step.Return? || step.Ack? {
      SettlingKeepsInv(g, step);
    } else {
      HandlingKeepsInv(g, step);
    }
  }

  // ---------------------------------------------------------------------------------------
  // What the invariants say of one entry.
  // ---------------------------------------------------------------------------------------

  /**
   * Conservation: an entry appended after its group was created is undelivered, pending or
   * acknowledged, and only one of these; once acknowledged it was poison, or a dispatch of it has
   * returned and its reply, if one was due, is in the stream it asked for.
   */
  lemma EntriesAreConserved(g: Redis, e: nat)
    requires Inv(g) && e < |g.log|
    requires g.log[e].service in g.created && g.created[g.log[e].service] <= e
    ensures var undelivered := g.mark[g.log[e].service] <= e;
            && (undelivered || e in g.pel || e in g.acked)
            && !(undelivered && e in g.pel) && !(undelivered && e in g.acked) && !(e in g.pel && e in g.acked)
    ensures e in g.acked ==> Justified(g, e)
  {
  }

  /** An entry from before its group was created is never handed out, so never pending nor acknowledged. */
  lemma EarlierEntriesAreIgnored(g: Redis, e: nat)
    requires Inv(g) && e < |g.log|
    requires g.log[e].service in g.created ==> e < g.created[g.log[e].service]
    ensures e !in g.pel && e !in g.acked
    ensures forall d | 0 <= d < |g.deliveries| :: g.deliveries[d].entry != e
  {
  }

  predicate DispatchFor(g: Redis, k: nat, e: nat) {
    k < |g.dispatches| && g.dispatches[k].delivery < |g.deliveries| && g.deliveries[g.dispatches[k].delivery].entry == e
  }

  function DispatchesOf(g: Redis, e: nat): set<nat> {
    set k: nat | k < |g.dispatches| && DispatchFor(g, k, e)
  }

  predicate HandedOut(g: Redis, d: nat, e: nat, claimed: bool) {
    d < |g.deliveries| && g.deliveries[d] == Delivery(e, claimed)
  }

  /** How often XREADGROUP (or XAUTOCLAIM, if `claimed`) handed out the entry. */
  function HandOutsOf(g: Redis, e: nat, claimed: bool): set<nat> {
    set d: nat | d < |g.deliveries| && HandedOut(g, d, e, claimed)
  }

  function DeliveryOf(g: Redis, k: nat): nat {
    if k < |g.dispatches| then g.dispatches[k].delivery else 0
  }

  lemma {:induction false} ImageKeepsSize(g: Redis, ks: set<nat>)
    requires forall k, j | k in ks && j in ks && k != j :: DeliveryOf(g, k) != DeliveryOf(g, j)
    ensures |set k | k in ks :: DeliveryOf(g, k)| == |ks|
  {
    var image := set k | k in ks :: DeliveryOf(g, k);
    if ks != {} {
      var k :| k in ks;
      ImageKeepsSize(g, ks - {k});
      var rest := set j | j in ks - {k} :: DeliveryOf(g, j);
      assert image == rest + {DeliveryOf(g, k)};
      assert DeliveryOf(g, k) !in rest;
    }
  }

  lemma SubsetSize(a: set<nat>, b: set<nat>)
    requires a <= b
    ensures |a| <= |b|
  {
    assert b == a + (b - a);
  }

  lemma ReadAtMostOnce(g: Redis, e: nat)
    requires DeliveryInv(g)
    ensures |HandOutsOf(g, e, false)| <= 1
  {
    var handed := HandOutsOf(g, e, false);
    if d :| d in handed {
      assert forall f | f in handed :: f == d;
      SubsetSize(handed, {d});
    }
  }

  /** Duplicate accounting: an entry is dispatched at most once more than XAUTOCLAIM claimed it. */
  lemma DispatchesAreAccounted(g: Redis, e: nat)
    requires Inv(g)
    ensures |DispatchesOf(g, e)| <= 1 + |HandOutsOf(g, e, true)|
  {
    var ks, handed, claims := DispatchesOf(g, e), HandOutsOf(g, e, false), HandOutsOf(g, e, true);
    ImageKeepsSize(g, ks);
    forall d | d in set k | k in ks :: DeliveryOf(g, k)
      ensures d in handed + claims
    {
      assert HandedOut(g, d, e, g.deliveries[d].claimed);
    }
    SubsetSize(set k | k in ks :: DeliveryOf(g, k), handed + claims);
    ReadAtMostOnce(g, e);
  }
}
