/** What reading and claiming hand to a loop, in full, and that a loop which is lost takes nothing with it. */
module HandingOut {
  import opened Wrappers
  import opened ReplyStreams
  import opened CommandGroup
  import opened GroupInvariants

  function PendingOf(g: Redis, service: string): (r: set<nat>)
    ensures forall e :: e in r <==> e in g.pel && e < |g.log| && g.log[e].service == service
  {
    set e | e in g.pel && e < |g.log| && g.log[e].service == service
  }

  function Elements(s: seq<nat>): (r: set<nat>)
    ensures forall e :: e in r <==> e in s
  {
    set e | e in s
  }

  lemma {:induction false} AscendingElements(s: seq<nat>)
    requires forall i, j | 0 <= i < j < |s| :: s[i] < s[j]
    ensures |Elements(s)| == |s|
  {
    if s != [] {
      var init, last := s[..|s| - 1], s[|s| - 1];
      AscendingElements(init);
      assert s == init + [last];
      assert last !in init;
      assert Elements(s) == Elements(init) + {last};
    }
  }

  /** XAUTOCLAIM leaves nothing claimable below what it takes. */
  lemma {:induction false} ClaimSkipsNone(log: seq<Entry>, pel: map<nat, PelEntry>, service: string, now: nat,
                                          idleMs: nat, from: nat, count: nat, e: nat, i: nat)
    requires from <= e && Claimable(log, pel, service, now, idleMs, e)
    requires e !in IdleEntries(log, pel, service, now, idleMs, from, count)
    requires i < |IdleEntries(log, pel, service, now, idleMs, from, count)|
    ensures IdleEntries(log, pel, service, now, idleMs, from, count)[i] < e
    decreases |log| - from
  {
    var r := IdleEntries(log, pel, service, now, idleMs, from, count);
    if Claimable(log, pel, service, now, idleMs, from) {
      var rest := IdleEntries(log, pel, service, now, idleMs, from + 1, count - 1);
      assert r == [from] + rest;
      assert from in r && forall k | k in rest :: k in r;
      if i > 0 {
        ClaimSkipsNone(log, pel, service, now, idleMs, from + 1, count - 1, e, i - 1);
      }
    } else {
      ClaimSkipsNone(log, pel, service, now, idleMs, from + 1, count, e, i);
    }
  }

  // ---------------------------------------------------------------------------------------
  // The state after entries were handed out.
  // ---------------------------------------------------------------------------------------

  /** The entries `taken` became pending for the consumer of loop `l` and, in id order, the batch of the loop. */
  ghost predicate Takes(g: Redis, h: Redis, l: nat, taken: set<nat>, claimed: bool) {
    && l in g.loops && l in h.loops
    && h == g.(mark := h.mark, pel := h.pel, deliveries := h.deliveries, loops := g.loops[l := h.loops[l]])
    && h.loops[l] == g.loops[l].(batch := h.loops[l].batch, since := h.loops[l].since)
    && (taken != {} ==> h.loops[l].since == g.now)
    && |h.loops[l].batch| == |taken| && (forall i | 0 <= i < |taken| :: h.loops[l].batch[i] == |g.deliveries| + i)
    && |h.deliveries| == |g.deliveries| + |taken| && g.deliveries <= h.deliveries
    && (forall d | |g.deliveries| <= d < |h.deliveries| ::
          h.deliveries[d].entry in taken && h.deliveries[d].claimed == claimed)
    && (forall d, f | |g.deliveries| <= d < f < |h.deliveries| :: h.deliveries[d].entry < h.deliveries[f].entry)
    && h.pel.Keys == g.pel.Keys + taken
    && (forall e | e in h.pel :: h.pel[e] == if e in taken then PelEntry(g.loops[l].consumer, g.now) else g.pel[e])
  }

  lemma DeliverTakes(g: Redis, l: nat, entries: seq<nat>, claimed: bool, mark: map<string, nat>)
    requires l in g.loops && forall i, j | 0 <= i < j < |entries| :: entries[i] < entries[j]
    ensures Takes(g, Deliver(g, l, entries, claimed).(mark := mark), l, Elements(entries), claimed)
  {
    AscendingElements(entries);
    var h := Deliver(g, l, entries, claimed).(mark := mark);
    forall d | |g.deliveries| <= d < |h.deliveries|
      ensures h.deliveries[d] == Delivery(entries[d - |g.deliveries|], claimed)
    {
    }
  }

  lemma {:induction false} NewEntriesAreAll(log: seq<Entry>, service: string, from: nat, count: nat, e: nat)
    requires from <= e < |log| && log[e].service == service && |NewEntries(log, service, from, count)| < count
    ensures e in NewEntries(log, service, from, count)
    decreases |log| - from
  {
    if log[from].service == service {
      if from < e { NewEntriesAreAll(log, service, from + 1, count - 1, e); }
    } else {
      NewEntriesAreAll(log, service, from + 1, count, e);
    }
  }

  /** The entries of a service at or after `from`. */
  function EntriesFrom(log: seq<Entry>, service: string, from: nat): set<nat> {
    set e: nat | e < |log| && from <= e && log[e].service == service
  }

  lemma NewEntriesAreOldest(log: seq<Entry>, service: string, from: nat, count: nat)
    requires count > 0
    ensures var all, taken := EntriesFrom(log, service, from), Elements(NewEntries(log, service, from, count));
            && taken <= all && |taken| == Min(count, |all|)
            && forall e, f | e in taken && f in all - taken :: e < f
  {
    var entries := NewEntries(log, service, from, count);
    var all, taken := EntriesFrom(log, service, from), Elements(entries);
    AscendingElements(entries);
    SubsetSize(taken, all);
    if |entries| < count {
      forall e | e in all
        ensures e in taken
      {
        NewEntriesAreAll(log, service, from, count, e);
      }
      assert taken == all;
    }
    forall e, f | e in taken && f in all - taken
      ensures e < f
    {
      NewEntriesSkipNone(log, service, from, count, f);
      var i :| 0 <= i < |entries| && entries[i] == e;
    }
  }

  /** What the group of a service has not handed out yet. */
  function UnreadOf(g: Redis, service: string): set<nat>
    requires service in g.mark
  {
    EntriesFrom(g.log, service, g.mark[service])
  }

  lemma ReadLeavesUnread(g: Redis, l: nat)
    requires Enabled(g, Read(l)) && NextEntries(g, l) != []
    ensures var service, h := g.loops[l].service, DoRead(g, l);
            && h.mark == g.mark[service := h.mark[service]] && h.log == g.log
            && UnreadOf(h, service) == UnreadOf(g, service) - Elements(NextEntries(g, l))
  {
    var service, entries, h := g.loops[l].service, NextEntries(g, l), DoRead(g, l);
    forall e: nat | e < |g.log| && g.mark[service] <= e && g.log[e].service == service
      ensures h.mark[service] <= e <==> e !in entries
    {
      NewEntriesSkipNone(g.log, service, g.mark[service], READ_COUNT, e);
    }
    assert g.mark[service] <= h.mark[service];
  }

  /**
   * A read hands its loop the sixteen oldest entries that the group has not handed out, or all of them if
   * there are fewer, and moves the mark just past them.
   */
  lemma ReadTakesOldest(g: Redis, l: nat) returns (taken: set<nat>)
    requires Enabled(g, Read(l))
    ensures var service, h := g.loops[l].service, Apply(g, Read(l));
            var unread := UnreadOf(g, service);
            && Takes(g, h, l, taken, false)
            && taken <= unread && |taken| == Min(16, |unread|) && (forall e, f | e in taken && f in unread - taken :: e < f)
            && service in h.mark && h.mark == g.mark[service := h.mark[service]]
            && UnreadOf(h, service) == unread - taken
  {
    var service, entries := g.loops[l].service, NextEntries(g, l);
    taken := Elements(entries);
    NewEntriesAreOldest(g.log, service, g.mark[service], READ_COUNT);
    var h := Apply(g, Read(l));
    if entries == [] {
      assert h == g && taken == {};
      assert h.mark == g.mark[service := h.mark[service]];
    } else {
      DeliverTakes(g, l, entries, false, h.mark);
      ReadLeavesUnread(g, l);
    }
  }

  /** What a claim by this loop may take: pending for its service, and not handed out for the loop's threshold. */
  function IdleOf(g: Redis, l: nat): set<nat>
    requires l in g.loops
  {
    set e | e in g.pel && e < |g.log| && g.log[e].service == g.loops[l].service
            && g.pel[e].deliveredAt + g.loops[l].idleMs <= g.now
  }

  lemma ClaimsOldest(g: Redis, l: nat, count: nat)
    requires l in g.loops && count > 0
    ensures var loop := g.loops[l];
            var idle, taken := IdleOf(g, l), Elements(IdleEntries(g.log, g.pel, loop.service, g.now, loop.idleMs, 0, count));
            && taken <= idle && |taken| == Min(count, |idle|)
            && forall e, f | e in taken && f in idle - taken :: e < f
  {
    var loop := g.loops[l];
    var entries := IdleEntries(g.log, g.pel, loop.service, g.now, loop.idleMs, 0, count);
    var idle, taken := IdleOf(g, l), Elements(entries);
    forall e: nat
      ensures e in idle <==> Claimable(g.log, g.pel, loop.service, g.now, loop.idleMs, e)
    {
    }
    AscendingElements(entries);
    SubsetSize(taken, idle);
    if |entries| < count {
      assert taken == idle;
    }
    forall e, f | e in taken && f in idle - taken
      ensures e < f
    {
      var i :| 0 <= i < |entries| && entries[i] == e;
      ClaimSkipsNone(g.log, g.pel, loop.service, g.now, loop.idleMs, 0, count, f, i);
    }
  }

  /** A claim hands its loop the thirty-two oldest idle entries, or all of them if there are fewer. */
  lemma ClaimTakesOldestIdle(g: Redis, l: nat) returns (taken: set<nat>)
    requires Enabled(g, Claim(l))
    ensures var h, idle := Apply(g, Claim(l)), IdleOf(g, l);
            && Takes(g, h, l, taken, true) && h.mark == g.mark
            && taken <= idle && |taken| == Min(32, |idle|) && (forall e, f | e in taken && f in idle - taken :: e < f)
  {
    var entries := ClaimedEntries(g, l);
    taken := Elements(entries);
    ClaimsOldest(g, l, CLAIM_COUNT);
    if entries == [] {
      assert Apply(g, Claim(l)) == g && taken == {};
    } else {
      DeliverTakes(g, l, entries, true, g.mark);
    }
  }

  // ---------------------------------------------------------------------------------------
  // Loops that are lost.
  // ---------------------------------------------------------------------------------------

  /** The entries that a loop holds and has not acknowledged. */
  function HeldPending(g: Redis, l: nat): set<nat>
    requires l in g.loops
  {
    set d | d in g.loops[l].batch && d < |g.deliveries| && g.deliveries[d].entry in g.pel :: g.deliveries[d].entry
  }

  /** What a crash or an error does: the loop is gone, or idle; whatever it held stays pending as it was. */
  lemma LossIsExact(g: Redis, l: nat, step: ServerStep)
    requires l in g.loops && step in {Crash(l), Abort(l)}
    ensures Enabled(g, step)
    ensures var h := Apply(g, step);
            && h == g.(loops := h.loops) && h.loops.Keys == (if step.Crash? then g.loops.Keys - {l} else g.loops.Keys)
            && (forall m | m in h.loops && m != l :: h.loops[m] == g.loops[m])
            && (step.Abort? ==> h.loops[l] == g.loops[l].(batch := [], pc := Ready))
  {
  }

  lemma SameSize(a: set<nat>, b: set<nat>)
    requires a <= b && |a| == |b|
    ensures a == b
  {
    assert b == a + (b - a);
  }

  lemma PendingBecomesIdle(g: Redis, f: Redis, m: nat)
    requires PelInv(g) && m in f.loops && f.pel == g.pel && f.log == g.log && g.now + f.loops[m].idleMs <= f.now
    ensures IdleOf(f, m) == PendingOf(g, f.loops[m].service)
  {
  }

  lemma HeldIsPending(g: Redis, l: nat)
    requires l in g.loops && BatchInv(g, g.loops[l])
    ensures HeldPending(g, l) <= PendingOf(g, g.loops[l].service)
  {
  }

  /**
   * No work is lost with a loop: once the threshold of another server's idle reclaim loop has passed, its
   * next claim takes what the lost loop held, unless more than thirty-two entries are idle by then.
   */
  lemma LostWorkIsClaimed(g: Redis, l: nat, step: ServerStep, m: nat, ms: nat) returns (f: Redis, taken: set<nat>)
    requires Inv(g) && l in g.loops && step in {Crash(l), Abort(l)} && l != m
    requires IdleLoop(g, m, Reclaimer) && g.loops[m].service == g.loops[l].service && g.loops[m].idleMs <= ms
    requires |PendingOf(g, g.loops[l].service)| <= 32
    ensures Enabled(g, step) && Enabled(Apply(g, step), Tick(ms))
    ensures f == Apply(Apply(g, step), Tick(ms)) && Enabled(f, Claim(m))
    ensures Takes(f, Apply(f, Claim(m)), m, taken, true) && HeldPending(g, l) <= taken
  {
    LossIsExact(g, l, step);
    f := Apply(Apply(g, step), Tick(ms));
    taken := ClaimTakesOldestIdle(f, m);
    PendingBecomesIdle(g, f, m);
    SameSize(taken, IdleOf(f, m));
    HeldIsPending(g, l);
  }
}
