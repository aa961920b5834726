/**
 * The TypeScript client transport over Redis: the table of pending calls with their timers, the reply
 * loop, and any number of calls of `stop` under way at the same time.
 */
module RedisClient {
  import opened Wrappers
  import opened JsonValues
  import opened CallTable
  import opened ReplyStreams

  // ---------------------------------------------------------------------------------------
  // The table of pending calls.
  // ---------------------------------------------------------------------------------------

  /** `armed` maps each running timer to the call it was set for. `calls` holds the promises handed out. */
  datatype Pending = Pending(keys: map<string, nat>, armed: map<nat, string>, nextTimer: nat, calls: map<string, CallState>)

  const NOTHING_PENDING: Pending := Pending(map[], map[], 0, map[])

  function Send(t: Pending, id: string): Pending {
    Pending(t.keys[id := t.nextTimer], t.armed[t.nextTimer := id], t.nextTimer + 1, t.calls[id := Open])
  }

  function FireTimer(t: Pending, timer: nat): Pending
    requires timer in t.armed
  {
    var id := t.armed[timer];
    t.(keys := t.keys - {id}, armed := t.armed - {timer}, calls := t.calls[id := Closed(TimedOut)])
  }

  /** Looks up a pending call; if it is there, removes key and timer and settles its promise. */
  function Resolve(t: Pending, id: string, how: Settlement): Pending {
    if id !in t.keys then t
    else t.(keys := t.keys - {id}, armed := t.armed - {t.keys[id]}, calls := t.calls[id := Closed(how)])
  }

  function ResolveItem(t: Pending, item: Item): Pending {
    if item.Message? then Resolve(t, item.id, Replied(item.outcome)) else t
  }

  function ResolveAll(t: Pending, items: seq<Item>): Pending
    decreases |items|
  {
    if items == [] then t else ResolveAll(ResolveItem(t, items[0]), items[1..])
  }

  /** The loop of `stop`: clears the timer of every entry, rejects its promise, and deletes it. */
  function RejectPending(t: Pending): Pending {
    t.(keys := map[],
       armed := t.armed - (set id | id in t.keys :: t.keys[id]),
       calls := map id | id in t.calls :: if id in t.keys then Closed(TransportStopped) else t.calls[id])
  }

  /** The pending keys are exactly the unsettled calls, each with exactly one armed timer. */
  ghost predicate PendingInv(t: Pending) {
    && (forall id | id in t.keys ::
          id in t.calls && t.calls[id].Open? && t.keys[id] in t.armed && t.armed[t.keys[id]] == id)
    && (forall id | id in t.calls && t.calls[id].Open? :: id in t.keys)
    && (forall timer | timer in t.armed ::
          timer < t.nextTimer && t.armed[timer] in t.keys && t.keys[t.armed[timer]] == timer)
  }

  lemma SendKeepsPending(t: Pending, id: string)
    requires PendingInv(t) && id !in t.calls
    ensures var after := Send(t, id);
            && PendingInv(after) && after.calls == t.calls[id := Open] && id in after.keys
            && forall other | other in t.keys :: other in after.keys && after.keys[other] == t.keys[other]
  {
  }

  /** The promise that a timer settles was open. */
  lemma TimerKeepsPending(t: Pending, timer: nat)
    requires PendingInv(t) && timer in t.armed
    ensures var id, after := t.armed[timer], FireTimer(t, timer);
            && PendingInv(after) && id !in after.keys && timer !in after.armed
            && t.calls[id].Open? && after.calls == t.calls[id := Closed(TimedOut)]
  {
  }

  /** So was the promise that a reply or a failed XADD settles; key and timer go in the same step. */
  lemma ResolveKeepsPending(t: Pending, id: string, how: Settlement)
    requires PendingInv(t)
    ensures var after := Resolve(t, id, how);
            && PendingInv(after) && id !in after.keys
            && if id in t.keys
               then t.keys[id] !in after.armed && t.calls[id].Open? && after.calls == t.calls[id := Closed(how)]
               else after == t
  {
  }

  /** So were those that `stop` rejects: afterwards there is no key, no timer and no open call. */
  lemma RejectPendingEmptiesTable(t: Pending)
    requires PendingInv(t)
    ensures var after := RejectPending(t);
            && PendingInv(after) && after.keys == map[] && after.armed == map[] && after.calls.Keys == t.calls.Keys
            && forall id | id in t.calls ::
                 after.calls[id] == if t.calls[id].Open? then Closed(TransportStopped) else t.calls[id]
  {
  }

  /** A batch changes a call only from open to the outcome of a message in it that names the call. */
  lemma {:induction false} ResolveAllClosesByReply(t: Pending, items: seq<Item>, id: string)
    requires PendingInv(t)
    ensures var after := ResolveAll(t, items);
            && PendingInv(after) && after.calls.Keys == t.calls.Keys
            && (id in t.calls && after.calls[id] != t.calls[id] ==>
                  && t.calls[id].Open? && after.calls[id].Closed? && after.calls[id].how.Replied?
                  && exists item :: item in items && item.Message? && item.id == id
                                    && item.outcome == after.calls[id].how.outcome)
    decreases |items|
  {
    if items != [] {
      var next := ResolveItem(t, items[0]);
      if items[0].Message? { ResolveKeepsPending(t, items[0].id, Replied(items[0].outcome)); }
      ResolveAllClosesByReply(next, items[1..], id);
      assert items[0] in items && forall item | item in items[1..] :: item in items;
    }
  }

  lemma {:induction false} ResolveAllAddsNoKey(t: Pending, items: seq<Item>)
    ensures ResolveAll(t, items).keys.Keys <= t.keys.Keys
    ensures ResolveAll(t, items).calls.Keys >= t.calls.Keys
    decreases |items|
  {
    if items != [] { ResolveAllAddsNoKey(ResolveItem(t, items[0]), items[1..]); }
  }

  /** What names no pending call leaves it alone; the first message that names it settles it. */
  lemma {:induction false} ResolveAllIsExact(t: Pending, items: seq<Item>, id: string)
    requires PendingInv(t) && id in t.keys
    ensures var after := ResolveAll(t, items);
            && (id in after.keys <==> forall k | 0 <= k < |items| :: !Names(items[k], id))
            && (id in after.keys ==> id in after.calls && after.calls[id].Open?)
            && forall k: nat | FirstNaming(items, k, id) ::
                 id in after.calls && after.calls[id] == Closed(Replied(items[k].outcome))
    decreases |items|
  {
    if items != [] {
      var next := ResolveItem(t, items[0]);
      if items[0].Message? { ResolveKeepsPending(t, items[0].id, Replied(items[0].outcome)); }
      assert forall k | 0 < k < |items| :: items[1..][k - 1] == items[k];
      assert forall k | 0 <= k < |items| - 1 :: items[k + 1] == items[1..][k];
      if Names(items[0], id) {
        ResolveAllAddsNoKey(next, items[1..]);
        ResolveAllClosesByReply(next, items[1..], id);
      } else {
        ResolveAllIsExact(next, items[1..], id);
        assert forall k: nat | FirstNaming(items, k, id) :: k > 0 && FirstNaming(items[1..], k - 1, id);
      }
    }
  }

  /** Rejecting one entry first makes no difference to rejecting them all. */
  lemma RejectionIsAbsorbed(t: Pending, id: string)
    requires PendingInv(t) && id in t.keys
    ensures RejectPending(Resolve(t, id, TransportStopped)) == RejectPending(t)
  {
    var u := Resolve(t, id, TransportStopped);
    ResolveKeepsPending(t, id, TransportStopped);
    RejectPendingEmptiesTable(t);
    RejectPendingEmptiesTable(u);
    assert RejectPending(u).calls == RejectPending(t).calls;
  }

  lemma NothingToReject(t: Pending)
    requires PendingInv(t) && t.keys == map[]
    ensures RejectPending(t) == t && t.armed == map[]
  {
    assert t.armed.Keys == {};
  }

  // ---------------------------------------------------------------------------------------
  // The client as a transition system over a stream that others write.
  // ---------------------------------------------------------------------------------------

  /** `waiting` calls of `stop` await the end of the reply loop; `ending` ones have rejected what was pending. */
  datatype Client = Client(
    state: Lifecycle, looping: bool, aborting: bool, waiting: nat, ending: nat, table: Pending, cursor: Cursor)

  const NEW_CLIENT: Client := Client(Idle, false, false, 0, 0, NOTHING_PENDING, AT_START)

  datatype ClientStep =
    | StartUp
    | SendOut(id: string)
    | AddFails(id: string)          // the XADD of a call rejects, whether or not it took effect
    | TimerFires(timer: nat)
    | ReadReplies
    | ProcessReplies
    | StopBegins
    | LoopExits
    | DrainPending
    | StopEnds

  predicate CanStep(c: Client, step: ClientStep) {
    match step
    case StartUp => c.state.Idle?
    // Call ids are fresh.
    case SendOut(id) => c.state.Started? && id !in c.table.calls
    case AddFails(id) => id in c.table.calls
    case TimerFires(timer) => timer in c.table.armed
    case ReadReplies => c.looping && c.cursor.fetched.None?
    case ProcessReplies => c.looping && c.cursor.fetched.Some?
    case StopBegins => true
    case LoopExits => c.looping && c.aborting
    case DrainPending => !c.looping && c.waiting > 0
    case StopEnds => c.ending > 0
  }

  function Start(c: Client): Client {
    c.(state := Started, looping := true, aborting := false)
  }

  /** One turn of the reply loop after an XREAD with a result. */
  function Process(c: Client): Client
    requires c.cursor.fetched.Some?
  {
    c.(table := ResolveAll(c.table, Seen(c.cursor.fetched.value.items)), cursor := PassBatch(c.cursor))
  }

  /** The first span of `stop`. A started transport stays started until a `stop` ends. */
  function BeginStop(c: Client): Client {
    if c.state.Started? then c.(aborting := true, waiting := c.waiting + 1) else c.(state := Stopped)
  }

  /** The reply loop sees the abort flag; a read that was under way is abandoned. */
  function ExitLoop(c: Client): Client {
    c.(looping := false, cursor := c.cursor.(fetched := None))
  }

  /** The span of a `stop` after the loop has ended, whether or not another `stop` has been here before. */
  function Drain(c: Client): Client
    requires c.waiting > 0
  {
    c.(waiting := c.waiting - 1, ending := c.ending + 1, table := RejectPending(c.table))
  }

  function EndStop(c: Client): Client
    requires c.ending > 0
  {
    c.(state := Stopped, ending := c.ending - 1)
  }

  function StepClient(c: Client, s: ReplyStream, step: ClientStep): Client
    requires CanStep(c, step)
  {
    match step
    case StartUp => Start(c)
    case SendOut(id) => c.(table := Send(c.table, id))
    case AddFails(id) => c.(table := Resolve(c.table, id, AddFailed))
    case TimerFires(timer) => c.(table := FireTimer(c.table, timer))
    case ReadReplies => c.(cursor := c.cursor.(fetched := Readable(c.cursor, s)))
    case ProcessReplies => Process(c)
    case StopBegins => BeginStop(c)
    case LoopExits => ExitLoop(c)
    case DrainPending => Drain(c)
    case StopEnds => EndStop(c)
  }

  function Sent(step: ClientStep): set<string> {
    if step.SendOut? then {step.id} else {}
  }

  ghost predicate ClientInv(c: Client, s: ReplyStream) {
    PendingInv(c.table) && CursorInv(c.cursor, s)
  }

  /** Every step keeps the table exact, whatever is in the stream. */
  lemma StepKeepsPending(c: Client, s: ReplyStream, step: ClientStep)
    requires PendingInv(c.table) && CanStep(c, step)
    ensures PendingInv(StepClient(c, s, step).table)
  {
    match step {
      case SendOut(id) => SendKeepsPending(c.table, id);
      case AddFails(id) => ResolveKeepsPending(c.table, id, AddFailed);
      case TimerFires(timer) => TimerKeepsPending(c.table, timer);
      case ProcessReplies => ResolveAllClosesByReply(c.table, Seen(c.cursor.fetched.value.items), "");
      case DrainPending => RejectPendingEmptiesTable(c.table);
      case StartUp =>
      case ReadReplies =>
      case StopBegins =>
      case LoopExits =>
      case StopEnds =>
    }
  }

  lemma StepKeepsCursor(c: Client, s: ReplyStream, step: ClientStep)
    requires CursorInv(c.cursor, s) && CanStep(c, step)
    ensures CursorInv(StepClient(c, s, step).cursor, s)
  {
    if step.ProcessReplies? {
      PassBatchKeepsCursor(c.cursor, s);
    } else if step.ReadReplies? {
      ReadKeepsCursor(c.cursor, s);
    }
  }

  lemma ProcessMovesCalls(c: Client, s: ReplyStream)
    requires ClientInv(c, s) && c.cursor.fetched.Some?
    ensures CallsMove(c.table.calls, Process(c).table.calls, s, {})
  {
    var items := Seen(c.cursor.fetched.value.items);
    ResolveAllClosesByReply(c.table, items, "");
    forall id | id in c.table.calls
      ensures CallMoves(c.table.calls, Process(c).table.calls, s, id)
    {
      ResolveAllClosesByReply(c.table, items, id);
      var after := Process(c).table.calls[id];
      if after != c.table.calls[id] {
        var item :| item in items && item.Message? && item.id == id && item.outcome == after.how.outcome;
        SeenIsHeld(c.cursor, s, item);
      }
    }
  }

  /** No step reaches a promise that is settled already, and replies come from the stream. */
  lemma StepMovesCalls(c: Client, s: ReplyStream, step: ClientStep)
    requires ClientInv(c, s) && CanStep(c, step)
    ensures CallsMove(c.table.calls, StepClient(c, s, step).table.calls, s, Sent(step))
  {
    match step {
      case AddFails(id) => ResolveKeepsPending(c.table, id, AddFailed);
      case TimerFires(timer) => TimerKeepsPending(c.table, timer);
      case ProcessReplies => ProcessMovesCalls(c, s);
      case DrainPending => RejectPendingEmptiesTable(c.table);
      case SendOut(_) =>
      case StartUp =>
      case ReadReplies =>
      case StopBegins =>
      case LoopExits =>
      case StopEnds =>
    }
  }

  /** Every step keeps table and cursor exact; a call opens, stays, or closes once, with a reply only from the stream. */
  lemma ClientStepIsSound(c: Client, s: ReplyStream, step: ClientStep)
    requires ClientInv(c, s) && CanStep(c, step)
    ensures ClientInv(StepClient(c, s, step), s)
    ensures CallsMove(c.table.calls, StepClient(c, s, step).table.calls, s, Sent(step))
  {
    StepKeepsPending(c, s, step);
    StepKeepsCursor(c, s, step);
    StepMovesCalls(c, s, step);
  }

  // ---------------------------------------------------------------------------------------
  // What settles a call.
  // ---------------------------------------------------------------------------------------

  /** A turn of the reply loop settles a pending call exactly if it reaches a message that names it, with the first such. */
  lemma TurnSettlesExactly(c: Client, s: ReplyStream, id: string)
    requires PendingInv(c.table) && CanStep(c, ProcessReplies) && id in c.table.keys
    ensures var items, after := c.cursor.fetched.value.items, StepClient(c, s, ProcessReplies).table;
            && id in after.calls
            && (after.calls[id].Open? <==> forall k: nat | Reached(items, k) :: !Names(items[k], id))
            && forall k: nat | Reached(items, k) && FirstNaming(items, k, id) ::
                 after.calls[id] == Closed(Replied(items[k].outcome))
  {
    var items := c.cursor.fetched.value.items;
    var seen := Seen(items);
    ResolveAllIsExact(c.table, seen, id);
    ResolveAllClosesByReply(c.table, seen, id);
    SeenNamesReached(items, id);
  }

  /** What each step does to a pending call. */
  lemma StepSettlesExactly(c: Client, s: ReplyStream, step: ClientStep, id: string)
    requires PendingInv(c.table) && CanStep(c, step) && id in c.table.keys
    ensures var after := StepClient(c, s, step).table;
            && id in after.calls
            && (after.calls[id] == Closed(TimedOut) <==> step == TimerFires(c.table.keys[id]))
            && (after.calls[id] == Closed(AddFailed) <==> step == AddFails(id))
            && (after.calls[id] == Closed(TransportStopped) <==> step.DrainPending?)
            && (after.calls[id].Closed? && step.ProcessReplies? ==> after.calls[id].how.Replied?)
            && (after.calls[id].Closed? ==>
                  step.TimerFires? || step.AddFails? || step.DrainPending? || step.ProcessReplies?)
  {
    match step {
      case AddFails(other) => ResolveKeepsPending(c.table, other, AddFailed);
      case TimerFires(timer) => TimerKeepsPending(c.table, timer);
      case ProcessReplies => ResolveAllClosesByReply(c.table, Seen(c.cursor.fetched.value.items), id);
      case DrainPending => RejectPendingEmptiesTable(c.table);
      case SendOut(_) =>
      case StartUp =>
      case ReadReplies =>
      case StopBegins =>
      case LoopExits =>
      case StopEnds =>
    }
  }

  /** No call waits forever: its own timer can always fire, and its XADD can always fail. */
  lemma EveryCallCanEnd(c: Client, s: ReplyStream, id: string)
    requires PendingInv(c.table) && id in c.table.calls && c.table.calls[id].Open?
    ensures id in c.table.keys && CanStep(c, TimerFires(c.table.keys[id])) && CanStep(c, AddFails(id))
    ensures StepClient(c, s, TimerFires(c.table.keys[id])).table.calls[id] == Closed(TimedOut)
    ensures StepClient(c, s, AddFails(id)).table.calls[id] == Closed(AddFailed)
  {
  }

  /** A turn moves the cursor past the entries it reaches, and no further; the batch is done with. */
  lemma TurnAdvancesExactly(c: Client, s: ReplyStream, k: nat)
    requires CursorInv(c.cursor, s) && CanStep(c, ProcessReplies)
    ensures var batch, after := c.cursor.fetched.value, StepClient(c, s, ProcessReplies).cursor;
            after.fetched.None? && (batch.start + k < after.next <==> Reached(batch.items, k))
  {
    PassBatchIsExact(c.cursor, s, k);
  }

  /** A `stop` on a transport that is not started is final at once. */
  lemma UnstartedStopIsFinal(c: Client, s: ReplyStream, id: string)
    requires !c.state.Started?
    ensures CanStep(c, StopBegins)
    ensures var after := StepClient(c, s, StopBegins);
            after == c.(state := Stopped) && !CanStep(after, StartUp) && !CanStep(after, SendOut(id))
  {
  }

  /** A read fetches everything unread, and nothing only if nothing is. */
  lemma ReadFetchesExactly(c: Client, s: ReplyStream)
    requires CanStep(c, ReadReplies)
    ensures var fetched := StepClient(c, s, ReadReplies).cursor.fetched;
            && (fetched.Some? <==> exists p: nat :: Unread(c.cursor, s, p))
            && (fetched.Some? ==>
                  && Unread(c.cursor, s, fetched.value.start) && fetched.value.items == s.items[fetched.value.start..]
                  && forall p: nat | Unread(c.cursor, s, p) :: fetched.value.start <= p)
  {
    ReadIsExact(c.cursor, s);
  }

  /**
   * Over a read and the turn that follows: an unread reply to a pending call, with no earlier one and
   * nothing that throws before it, is what the caller gets.
   */
  lemma ReplyIsDelivered(c: Client, s: ReplyStream, later: ReplyStream, p: nat, id: string)
    requires PendingInv(c.table) && CanStep(c, ReadReplies) && id in c.table.keys
    requires Unread(c.cursor, s, p) && Names(s.items[p], id)
    requires forall q: nat | Unread(c.cursor, s, q) && q < p :: !s.items[q].Throwing? && !Names(s.items[q], id)
    ensures var fetched := StepClient(c, s, ReadReplies);
            && CanStep(fetched, ProcessReplies)
            && var after := StepClient(fetched, later, ProcessReplies).table;
               id !in after.keys && id in after.calls && after.calls[id] == Closed(Replied(s.items[p].outcome))
  {
    ReadFetchesExactly(c, s);
    var fetched := StepClient(c, s, ReadReplies);
    var f := fetched.cursor.fetched.value;
    assert forall k | 0 <= k < p - f.start :: f.items[k] == s.items[f.start + k] && Unread(c.cursor, s, f.start + k);
    assert Reached(f.items, p - f.start) && FirstNaming(f.items, p - f.start, id);
    TurnSettlesExactly(fetched, later, id);
    StepKeepsPending(fetched, later, ProcessReplies);
  }

  // ---------------------------------------------------------------------------------------
  // What `stop` leaves behind.
  // ---------------------------------------------------------------------------------------

  /** A run of one client; `streams` gives its reply stream as it is at each step. */
  ghost predicate IsClientRun(states: seq<Client>, streams: seq<ReplyStream>, steps: seq<ClientStep>) {
    && |states| == |steps| + 1 && |streams| == |steps| && states[0] == NEW_CLIENT
    && forall i | 0 <= i < |steps| ::
         CanStep(states[i], steps[i]) && states[i + 1] == StepClient(states[i], streams[i], steps[i])
  }

  /** The calls sent in the steps from `i` up to `j`. */
  function SentIn(steps: seq<ClientStep>, i: nat, j: nat): set<string>
    requires i <= j <= |steps|
    decreases j
  {
    if i == j then {} else SentIn(steps, i, j - 1) + Sent(steps[j - 1])
  }

  predicate AllClosed(c: Client, ids: set<string>) {
    forall id | id in ids :: id in c.table.calls && c.table.calls[id].Closed?
  }

  lemma {:induction false} RunKeepsPending(states: seq<Client>, streams: seq<ReplyStream>, steps: seq<ClientStep>, i: nat)
    requires IsClientRun(states, streams, steps) && i < |states|
    ensures PendingInv(states[i].table)
  {
    if i > 0 {
      RunKeepsPending(states, streams, steps, i - 1);
      StepKeepsPending(states[i - 1], streams[i - 1], steps[i - 1]);
    }
  }

  /** Only sending adds a key, and no call is forgotten. */
  lemma StepAddsOnlySent(c: Client, s: ReplyStream, step: ClientStep)
    requires CanStep(c, step)
    ensures StepClient(c, s, step).table.keys.Keys <= c.table.keys.Keys + Sent(step)
    ensures StepClient(c, s, step).table.calls.Keys >= c.table.calls.Keys + Sent(step)
  {
    if step.ProcessReplies? {
      ResolveAllAddsNoKey(c.table, Seen(c.cursor.fetched.value.items));
    }
  }

  /** After a drain only calls sent since then can be pending, and they are all known. */
  lemma {:induction false} PendingWasSentSince(states: seq<Client>, streams: seq<ReplyStream>, steps: seq<ClientStep>, d: nat, j: nat)
    requires IsClientRun(states, streams, steps) && d < j < |states| && steps[d].DrainPending?
    ensures states[j].table.keys.Keys <= SentIn(steps, d + 1, j) <= states[j].table.calls.Keys
    decreases j
  {
    if j == d + 1 {
      assert states[j] == StepClient(states[d], streams[d], steps[d]);
    } else {
      PendingWasSentSince(states, streams, steps, d, j - 1);
      StepAddsOnlySent(states[j - 1], streams[j - 1], steps[j - 1]);
    }
  }

  /** After a drain the table is empty exactly when every call sent since then is closed. */
  lemma EmptySinceDrainExactly(states: seq<Client>, streams: seq<ReplyStream>, steps: seq<ClientStep>, d: nat, j: nat)
    requires IsClientRun(states, streams, steps) && d < j < |states| && steps[d].DrainPending?
    ensures states[j].table.keys == map[] <==> AllClosed(states[j], SentIn(steps, d + 1, j))
  {
    RunKeepsPending(states, streams, steps, j);
    PendingWasSentSince(states, streams, steps, d, j);
    if AllClosed(states[j], SentIn(steps, d + 1, j)) {
      assert states[j].table.keys.Keys == {};
    }
  }

  lemma {:induction false} EndingFollowsDrain(states: seq<Client>, streams: seq<ReplyStream>, steps: seq<ClientStep>, j: nat)
    returns (d: nat)
    requires IsClientRun(states, streams, steps) && j < |states| && states[j].ending > 0
    ensures d < j && steps[d].DrainPending? && forall k | d < k < j :: !steps[k].DrainPending?
  {
    if steps[j - 1].DrainPending? {
      d := j - 1;
    } else {
      assert states[j - 1].ending > 0;
      d := EndingFollowsDrain(states, streams, steps, j - 1);
    }
  }

  /**
   * When a `stop` returns, the table is empty exactly if every call sent since the last drain is closed;
   * so it is empty whenever none was sent while `stop` awaited.
   */
  lemma StopReturnsEmptyExactly(states: seq<Client>, streams: seq<ReplyStream>, steps: seq<ClientStep>, j: nat)
    returns (d: nat)
    requires IsClientRun(states, streams, steps) && j < |steps| && steps[j].StopEnds?
    ensures d < j && steps[d].DrainPending? && forall k | d < k < j :: !steps[k].DrainPending?
    ensures states[j + 1].table.keys == map[] <==> AllClosed(states[j + 1], SentIn(steps, d + 1, j))
  {
    d := EndingFollowsDrain(states, streams, steps, j);
    EmptySinceDrainExactly(states, streams, steps, d, j + 1);
    assert SentIn(steps, d + 1, j + 1) == SentIn(steps, d + 1, j);
  }

  /** Once stopped, the transport stays stopped and no key comes back. */
  lemma {:induction false} StoppedOnlyShrinks(states: seq<Client>, streams: seq<ReplyStream>, steps: seq<ClientStep>, i: nat, j: nat)
    requires IsClientRun(states, streams, steps) && i <= j < |states| && states[i].state.Stopped?
    ensures states[j].state.Stopped? && states[j].table.keys.Keys <= states[i].table.keys.Keys
    decreases j
  {
    if i < j {
      StoppedOnlyShrinks(states, streams, steps, i, j - 1);
      StepAddsOnlySent(states[j - 1], streams[j - 1], steps[j - 1]);
    }
  }

  /** A new client starts, with its reply loop running. */
  lemma NewClientCanStart(s: ReplyStream)
    ensures CanStep(NEW_CLIENT, StartUp)
    ensures StepClient(NEW_CLIENT, s, StartUp) == NEW_CLIENT.(state := Started, looping := true)
    ensures NEW_CLIENT.state.Idle? && NEW_CLIENT.table.calls == map[] && NEW_CLIENT.cursor.next == 0
    ensures !NEW_CLIENT.looping && !NEW_CLIENT.aborting && NEW_CLIENT.waiting == 0 && NEW_CLIENT.ending == 0
  {
  }

  /** A `stop` on a started transport can run through: the loop ends, the table is drained, the state is stopped. */
  lemma StopCanComplete(c: Client, s: ReplyStream)
    requires c.state.Started? && c.looping && PendingInv(c.table)
    ensures CanStep(c, StopBegins)
    ensures var begun := StepClient(c, s, StopBegins);
            && CanStep(begun, LoopExits)
            && var exited := StepClient(begun, s, LoopExits);
               && CanStep(exited, DrainPending) && !CanStep(exited, ReadReplies) && exited.cursor.fetched.None?
               && var drained := StepClient(exited, s, DrainPending);
                  && drained.table.keys == map[] && drained.state.Started? && CanStep(drained, StopEnds)
                  && StepClient(drained, s, StopEnds).state.Stopped?
                  && StepClient(drained, s, StopEnds).waiting == c.waiting && StepClient(drained, s, StopEnds).ending == c.ending
  {
    RejectPendingEmptiesTable(c.table);
  }

  /** A run in which `stop` returns with a call pending: it was sent between the drain and the end. */
  lemma SendDuringStopWitness(id: string)
    returns (states: seq<Client>, streams: seq<ReplyStream>, steps: seq<ClientStep>)
    ensures IsClientRun(states, streams, steps) && |steps| == 6 && steps[5].StopEnds?
    ensures states[6].state.Stopped? && states[6].table.keys.Keys == {id}
  {
    steps := [StartUp, StopBegins, LoopExits, DrainPending, SendOut(id), StopEnds];
    var s := NO_REPLIES;
    streams := [s, s, s, s, s, s];
    var started := NEW_CLIENT.(state := Started, looping := true);
    var stopping := started.(aborting := true, waiting := 1);
    var exited := stopping.(looping := false);
    var drained := exited.(waiting := 0, ending := 1);
    var sent := drained.(table := Send(NOTHING_PENDING, id));
    assert StepClient(exited, s, DrainPending) == drained by { NothingToReject(NOTHING_PENDING); }
    states := [NEW_CLIENT, started, stopping, exited, drained, sent, sent.(state := Stopped, ending := 0)];
  }

  /** The for-loop over a batch, one entry at a time. */
  lemma BatchGoesOn(t: Pending, c: Cursor, position: nat, items: seq<Item>)
    requires items != []
    ensures var next, rest := ResolveItem(t, items[0]), if items[0].Throwing? then [] else Seen(items[1..]);
            && ResolveAll(t, Seen(items)) == ResolveAll(next, rest)
            && PassAll(c, position, |Seen(items)|) == PassAll(Pass(c, position), position + 1, |rest|)
  {
    var rest := if items[0].Throwing? then [] else Seen(items[1..]);
    assert Seen(items) == [items[0]] + rest;
    assert Seen(items)[1..] == rest;
  }

  // ---------------------------------------------------------------------------------------
  // The transport object. Each method is one span between two awaits.
  // ---------------------------------------------------------------------------------------

  class ClientTransport {
    var state: Lifecycle
    var looping: bool
    var replyLoopAbort: bool
    var pending: map<string, nat>
    var armed: map<nat, string>
    var nextTimer: nat
    var calls: map<string, CallState>
    var lastId: nat
    var fetched: Option<Fetch>
    ghost var taken: seq<nat>
    ghost var lost: set<nat>
    /** The calls of `stop` under way. */
    ghost var waiting: nat
    ghost var ending: nat

    ghost function Table(): Pending
      reads this
    {
      Pending(pending, armed, nextTimer, calls)
    }

    ghost function Position(): Cursor
      reads this
    {
      Cursor(lastId, fetched, taken, lost)
    }

    ghost function View(): Client
      reads this
    {
      Client(state, looping, replyLoopAbort, waiting, ending, Table(), Position())
    }

    constructor ()
      ensures View() == NEW_CLIENT
    {
      state, looping, replyLoopAbort := Idle, false, false;
      pending, armed, nextTimer, calls := map[], map[], 0, map[];
      lastId, fetched, taken, lost := 0, None, [], {};
      waiting, ending := 0, 0;
    }

    method StartTransport() returns (ok: bool)
      modifies this`state, this`looping, this`replyLoopAbort
      ensures ok <==> !old(state).Stopped?
      ensures old(state).Idle? ==> state.Started? && looping && !replyLoopAbort
      ensures !old(state).Idle? ==> View() == old(View())
      ensures Table() == old(Table()) && Position() == old(Position())
    {
      ok := !state.Stopped?;
      if state.Idle? {
        state, looping, replyLoopAbort := Started, true, false;
      }
    }

    method SendCall(id: string) returns (ok: bool)
      requires PendingInv(Table()) && id !in calls
      modifies this`pending, this`armed, this`nextTimer, this`calls
      ensures ok <==> state.Started?
      ensures PendingInv(Table()) && Table() == if ok then Send(old(Table()), id) else old(Table())
    {
      if !state.Started? { return false; }
      SendKeepsPending(Table(), id);
      var timer := nextTimer;
      nextTimer := nextTimer + 1;
      armed := armed[timer := id];
      pending := pending[id := timer];
      calls := calls[id := Open];
      return true;
    }

    method TimerFired(timer: nat)
      requires PendingInv(Table()) && timer in armed
      modifies this`pending, this`armed, this`calls
      ensures PendingInv(Table()) && Table() == FireTimer(old(Table()), timer)
      ensures old(calls)[old(armed)[timer]].Open? && calls == old(calls)[old(armed)[timer] := Closed(TimedOut)]
    {
      TimerKeepsPending(Table(), timer);
      var id := armed[timer];
      armed := armed - {timer};
      pending := pending - {id};
      calls := calls[id := Closed(TimedOut)];
    }

    /** Common to a reply, a failed XADD and a stop: key and timer go in the same step as the promise settles. */
    method SettlePending(id: string, how: Settlement)
      requires PendingInv(Table())
      modifies this`pending, this`armed, this`calls
      ensures PendingInv(Table()) && Table() == Resolve(old(Table()), id, how)
      ensures id !in pending
      ensures if id in old(pending) then old(calls)[id].Open? && calls == old(calls)[id := Closed(how)] else calls == old(calls)
    {
      ResolveKeepsPending(Table(), id, how);
      if id !in pending { return; }
      var timer := pending[id];
      pending := pending - {id};
      armed := armed - {timer};
      calls := calls[id := Closed(how)];
    }

    /** The handler of a rejected XADD. */
    method AddRejected(id: string)
      requires PendingInv(Table())
      modifies this`pending, this`armed, this`calls
      ensures PendingInv(Table()) && Table() == Resolve(old(Table()), id, AddFailed)
    {
      SettlePending(id, AddFailed);
    }

    method XRead(s: ReplyStream)
      requires CursorInv(Position(), s) && fetched.None?
      modifies this`fetched
      ensures CursorInv(Position(), s) && Position() == old(Position()).(fetched := fetched)
      ensures fetched.Some? <==> exists p: nat :: Unread(old(Position()), s, p)
      ensures fetched.Some? ==>
                && Unread(old(Position()), s, fetched.value.start) && fetched.value.items == s.items[fetched.value.start..]
                && forall p: nat | Unread(old(Position()), s, p) :: fetched.value.start <= p
    {
      ReadKeepsCursor(Position(), s);
      ReadIsExact(Position(), s);
      var from := if lastId < s.trimmed then s.trimmed else lastId;
      fetched := if from < |s.items| then Some(Fetch(from, s.items[from..])) else None;
    }

    /** The body of the for-loop: the last id moves first, then the call is looked up. */
    method TakeOne(position: nat, item: Item)
      requires PendingInv(Table())
      modifies this`lastId, this`taken, this`lost, this`pending, this`armed, this`calls
      ensures PendingInv(Table()) && Table() == ResolveItem(old(Table()), item)
      ensures Position() == Pass(old(Position()), position)
    {
      taken := taken + [position];
      lost := lost + Positions(lastId, position);
      lastId := position + 1;
      if item.Message? {
        SettlePending(item.id, Replied(item.outcome));
      }
    }

    /** The for-loop over the entries of one XREAD result; a throw ends it. */
    method TakeBatch(start: nat, items: seq<Item>)
      requires PendingInv(Table())
      modifies this`lastId, this`taken, this`lost, this`pending, this`armed, this`calls
      ensures PendingInv(Table()) && Table() == ResolveAll(old(Table()), Seen(items))
      ensures Position() == PassAll(old(Position()), start, |Seen(items)|)
    {
      var left, position := items, start;
      while left != []
        invariant PendingInv(Table()) && ResolveAll(Table(), Seen(left)) == ResolveAll(old(Table()), Seen(items))
        invariant PassAll(Position(), position, |Seen(left)|) == PassAll(old(Position()), start, |Seen(items)|)
        decreases |left|
      {
        BatchGoesOn(Table(), Position(), position, left);
        TakeOne(position, left[0]);
        left, position := if left[0].Throwing? then [] else left[1..], position + 1;
      }
    }

    /** One turn of the reply loop after an XREAD with a result. */
    method ProcessReplies(ghost s: ReplyStream)
      requires ClientInv(View(), s) && fetched.Some?
      modifies this`lastId, this`taken, this`lost, this`pending, this`armed, this`calls, this`fetched
      ensures ClientInv(View(), s) && View() == Process(old(View()))
    {
      PassBatchKeepsCursor(Position(), s);
      TakeBatch(fetched.value.start, fetched.value.items);
      fetched := None;
    }

    /** A started transport stays started, and keeps its table, while `stop` awaits. */
    method StopBegin()
      modifies this`state, this`replyLoopAbort, this`waiting
      ensures old(state).Started? ==> state.Started? && replyLoopAbort && waiting == old(waiting) + 1
      ensures !old(state).Started? ==> state.Stopped? && replyLoopAbort == old(replyLoopAbort) && waiting == old(waiting)
      ensures Table() == old(Table()) && Position() == old(Position()) && looping == old(looping)
    {
      if !state.Started? {
        state := Stopped;
      } else {
        replyLoopAbort := true;
        waiting := waiting + 1;
      }
    }

    /** Rejects one pending call, which makes no difference to rejecting them all. */
    method RejectOne(id: string)
      requires PendingInv(Table()) && id in pending
      modifies this`pending, this`armed, this`calls
      ensures PendingInv(Table()) && RejectPending(Table()) == RejectPending(old(Table()))
      ensures pending.Keys == old(pending).Keys - {id}
    {
      RejectionIsAbsorbed(Table(), id);
      SettlePending(id, TransportStopped);
    }

    /** Rejects whatever is still pending; the order does not matter. */
    method RejectAll()
      requires PendingInv(Table())
      modifies this`pending, this`armed, this`calls
      ensures PendingInv(Table()) && Table() == RejectPending(old(Table()))
      ensures pending == map[] && armed == map[] && forall id | id in calls :: calls[id].Closed?
    {
      RejectPendingEmptiesTable(Table());
      while pending != map[]
        invariant PendingInv(Table()) && RejectPending(Table()) == RejectPending(old(Table()))
        invariant nextTimer == old(nextTimer)
        decreases |pending.Keys|
      {
        var id :| id in pending;
        RejectOne(id);
      }
      NothingToReject(Table());
    }
  }
}
