/**
 * The Python client transport over Redis: futures shared between the callers' coroutines, the reply
 * loop and `stop`. Unlike its TypeScript counterpart it refuses new calls from the first moment of `stop`.
 */
module PythonClient {
  import opened Wrappers
  import opened JsonValues
  import opened CallTable
  import opened ReplyStreams

  // ---------------------------------------------------------------------------------------
  // The table of futures.
  // ---------------------------------------------------------------------------------------

  datatype Future = Unset | Set(how: Settlement) | Cancelled

  /**
   * Where the coroutine of `send` stands. `Expired` has been told to time out but has not resumed;
   * `Abandoned` was cancelled by its caller.
   */
  datatype Sender = Adding | Awaiting | Expired | Finished(how: Settlement) | Abandoned

  datatype Call = Call(future: Future, sender: Sender)

  /** `keys` are those of the dictionary; `calls` holds the future and the coroutine of every call ever sent. */
  datatype Pending = Pending(keys: set<string>, calls: map<string, Call>)

  function SetSender(t: Pending, key: string, sender: Sender): Pending
    requires key in t.calls
  {
    t.(calls := t.calls[key := t.calls[key].(sender := sender)])
  }

  /** `pop` and, unless the future is done already, `set_result`. */
  function TakeItem(t: Pending, item: Item): Pending {
    if !item.Message? || item.id !in t.keys || item.id !in t.calls then t
    else
      var call := t.calls[item.id];
      Pending(t.keys - {item.id},
              if call.future.Unset? then t.calls[item.id := call.(future := Set(Replied(item.outcome)))] else t.calls)
  }

  function TakeAll(t: Pending, items: seq<Item>): Pending
    decreases |items|
  {
    if items == [] then t else TakeAll(TakeItem(t, items[0]), items[1..])
  }

  /** The end of `stop`: every future that is not done gets the error; then the dictionary is cleared. */
  function RejectPending(t: Pending): Pending {
    Pending({}, map key | key in t.calls ::
                  if key in t.keys && t.calls[key].future.Unset?
                  then t.calls[key].(future := Set(TransportStopped)) else t.calls[key])
  }

  // ---------------------------------------------------------------------------------------
  // The client as a transition system over a stream that others write.
  // ---------------------------------------------------------------------------------------

  /** `Ending` waits for the cancelled reply loop; `Ended` has cleared the table. */
  datatype StopStage = NotStopping | Ending | Ended

  datatype Client = Client(state: Lifecycle, looping: bool, stage: StopStage, table: Pending, cursor: Cursor)

  const NEW_CLIENT: Client := Client(Idle, false, NotStopping, Pending({}, map[]), AT_START)

  datatype ClientStep =
    | StartUp
    | SendOut(id: string)
    | AddReturns(id: string)
    | AddRaises(id: string)
    | ReadReplies
    | ProcessReplies
    | Expire(id: string)                         // wait_for cancels the future
    | ResumeExpired(id: string)
    | ResumeSet(id: string)
    | CallerCancels(id: string)
    | StopBegins
    | LoopEnds                                   // the cancellation reaches the reply loop
    | Drain

  predicate SenderIs(t: Pending, key: string, sender: Sender) {
    key in t.calls && t.calls[key].sender == sender
  }

  predicate CanStep(c: Client, step: ClientStep) {
    match step
    case StartUp => c.state.Idle?
    // Call ids are fresh.
    case SendOut(key) => c.state.Started? && key !in c.table.calls
    case AddReturns(key) => SenderIs(c.table, key, Adding)
    case AddRaises(key) => SenderIs(c.table, key, Adding)
    case ReadReplies => c.looping && c.cursor.fetched.None?
    case ProcessReplies => c.looping && c.cursor.fetched.Some?
    case Expire(key) => SenderIs(c.table, key, Awaiting) && c.table.calls[key].future.Unset?
    case ResumeExpired(key) => SenderIs(c.table, key, Expired)
    case ResumeSet(key) => SenderIs(c.table, key, Awaiting) && c.table.calls[key].future.Set?
    case CallerCancels(key) => SenderIs(c.table, key, Adding) || SenderIs(c.table, key, Awaiting)
    case StopBegins => true
    case LoopEnds => c.stage.Ending?
    case Drain => c.stage.Ending? && !c.looping
  }

  /** `stop` up to its first await. A second `stop` returns here, before the first has cleared the table. */
  function BeginStop(c: Client): Client {
    if c.state.Started? then c.(state := Stopped, stage := Ending) else c.(state := Stopped)
  }

  /** What a step does to the table. */
  function StepTable(t: Pending, items: seq<Item>, step: ClientStep): Pending {
    match step
    case SendOut(key) => Pending(t.keys + {key}, t.calls[key := Call(Unset, Adding)])
    case AddReturns(key) => if key in t.calls then SetSender(t, key, Awaiting) else t
    case AddRaises(key) =>
      if key in t.calls then SetSender(t, key, Finished(AddFailed)).(keys := t.keys - {key}) else t
    case ProcessReplies => TakeAll(t, items)
    case Expire(key) => t.(calls := t.calls[key := Call(Cancelled, Expired)])
    case ResumeExpired(key) =>
      if key in t.calls then SetSender(t, key, Finished(TimedOut)).(keys := t.keys - {key}) else t
    case ResumeSet(key) =>
      if key in t.calls && t.calls[key].future.Set? then SetSender(t, key, Finished(t.calls[key].future.how)) else t
    case CallerCancels(key) =>
      if key !in t.calls then t
      else
        // Awaiting the future, a cancelled caller cancels it too; during XADD it does not.
        var call := t.calls[key];
        var future := if call.sender.Awaiting? && call.future.Unset? then Cancelled else call.future;
        t.(calls := t.calls[key := Call(future, Abandoned)])
    case Drain => RejectPending(t)
    case StartUp => t
    case ReadReplies => t
    case StopBegins => t
    case LoopEnds => t
  }

  function StepCursor(c: Cursor, s: ReplyStream, step: ClientStep): Cursor {
    if step.ReadReplies? then c.(fetched := Readable(c, s))
    else if step.ProcessReplies? && c.fetched.Some? then PassBatch(c)
    else if step.LoopEnds? then c.(fetched := None)
    else c
  }

  function Fetched(c: Cursor): seq<Item> {
    if c.fetched.Some? then Seen(c.fetched.value.items) else []
  }

  function StepClient(c: Client, s: ReplyStream, step: ClientStep): Client
    requires CanStep(c, step)
  {
    var moved := c.(table := StepTable(c.table, Fetched(c.cursor), step), cursor := StepCursor(c.cursor, s, step));
    if step.StartUp? then moved.(state := Started, looping := true)
    else if step.StopBegins? then BeginStop(moved)
    else if step.LoopEnds? then moved.(looping := false)
    else if step.Drain? then moved.(stage := Ended)
    else moved
  }

  function Sent(step: ClientStep): set<string> {
    if step.SendOut? then {step.id} else {}
  }

  // ---------------------------------------------------------------------------------------
  // Invariants.
  // ---------------------------------------------------------------------------------------

  /** How the future, the coroutine and the dictionary agree on one call. */
  ghost predicate CallOk(t: Pending, key: string)
    requires key in t.calls
  {
    var call := t.calls[key];
    match call.sender
    case Adding => !call.future.Cancelled? && (key in t.keys <==> call.future.Unset?)
    case Awaiting => !call.future.Cancelled? && (key in t.keys <==> call.future.Unset?)
    case Expired => call.future.Cancelled?
    case Finished(_) => key !in t.keys
    case Abandoned => (call.future.Unset? ==> key in t.keys) && (call.future.Set? ==> key !in t.keys)
  }

  ghost predicate PendingInv(t: Pending) {
    t.keys <= t.calls.Keys && forall key | key in t.calls :: CallOk(t, key)
  }

  /** A reply in a future, or handed to a caller, is in the stream under that call's id. */
  ghost predicate ReplyOk(t: Pending, s: ReplyStream, key: string)
    requires key in t.calls
  {
    var call := t.calls[key];
    && (call.future.Set? && call.future.how.Replied? ==> Holds(s, key, call.future.how.outcome))
    && (call.sender.Finished? && call.sender.how.Replied? ==> Holds(s, key, call.sender.how.outcome))
  }

  ghost predicate RepliesOk(t: Pending, s: ReplyStream) {
    forall key | key in t.calls :: ReplyOk(t, s, key)
  }

  ghost predicate StagesOk(c: Client) {
    && (c.state.Idle? ==> c.table.calls == map[])
    && (c.stage.NotStopping? || c.state.Stopped?)
    && (c.state.Stopped? && c.stage.NotStopping? ==> c.table.calls == map[])
    && (c.stage.Ended? ==> c.table.keys == {} && !c.looping)
    && (c.looping ==> c.state.Started? || c.stage.Ending?)
  }

  ghost predicate TableInv(c: Client) {
    StagesOk(c) && PendingInv(c.table)
  }

  ghost predicate ClientInv(c: Client, s: ReplyStream) {
    TableInv(c) && RepliesOk(c.table, s) && CursorInv(c.cursor, s)
  }

  lemma TakeItemKeepsPending(t: Pending, item: Item)
    requires PendingInv(t)
    ensures PendingInv(TakeItem(t, item)) && TakeItem(t, item).calls.Keys == t.calls.Keys
  {
    var next := TakeItem(t, item);
    forall key | key in next.calls
      ensures CallOk(next, key)
    {
      assert CallOk(t, key);
    }
  }

  lemma {:induction false} TakeAllKeepsPending(t: Pending, items: seq<Item>)
    requires PendingInv(t)
    ensures PendingInv(TakeAll(t, items)) && TakeAll(t, items).calls.Keys == t.calls.Keys
    decreases |items|
  {
    if items != [] {
      TakeItemKeepsPending(t, items[0]);
      TakeAllKeepsPending(TakeItem(t, items[0]), items[1..]);
    }
  }

  /** A call whose key is gone is out of the reply loop's reach. */
  lemma {:induction false} PoppedIsLeftAlone(t: Pending, items: seq<Item>, key: string)
    requires key !in t.keys && key in t.calls
    ensures var after := TakeAll(t, items);
            key !in after.keys && key in after.calls && after.calls[key] == t.calls[key]
    decreases |items|
  {
    if items != [] { PoppedIsLeftAlone(TakeItem(t, items[0]), items[1..], key); }
  }

  /** The first message that names a pending call pops its key and, unless it is done, sets its future. */
  lemma {:induction false} TakeAllIsExact(t: Pending, items: seq<Item>, key: string)
    requires PendingInv(t) && key in t.keys
    ensures var after := TakeAll(t, items);
            && key in after.calls && after.calls[key].sender == t.calls[key].sender
            && (key in after.keys <==> forall k | 0 <= k < |items| :: !Names(items[k], key))
            && (key in after.keys ==> after.calls[key] == t.calls[key])
            && forall k: nat | FirstNaming(items, k, key) ::
                 after.calls[key].future
                 == if t.calls[key].future.Unset? then Set(Replied(items[k].outcome)) else t.calls[key].future
    decreases |items|
  {
    if items != [] {
      var next := TakeItem(t, items[0]);
      TakeItemKeepsPending(t, items[0]);
      assert forall k | 0 < k < |items| :: items[1..][k - 1] == items[k];
      assert forall k | 0 <= k < |items| - 1 :: items[k + 1] == items[1..][k];
      if Names(items[0], key) {
        PoppedIsLeftAlone(next, items[1..], key);
      } else {
        TakeAllIsExact(next, items[1..], key);
        assert forall k: nat | FirstNaming(items, k, key) :: k > 0 && FirstNaming(items[1..], k - 1, key);
      }
    }
  }

  lemma StepKeepsPending(c: Client, s: ReplyStream, step: ClientStep)
    requires PendingInv(c.table) && CanStep(c, step)
    ensures PendingInv(StepClient(c, s, step).table)
  {
    if step.ProcessReplies? {
      TakeAllKeepsPending(c.table, Fetched(c.cursor));
    } else {
      var after := StepClient(c, s, step).table;
      forall key | key in after.calls
        ensures CallOk(after, key)
      {
        if key in c.table.calls { assert CallOk(c.table, key); }
      }
    }
  }

  /** Every step keeps table, futures and coroutines in agreement, whatever is in the stream. */
  lemma StepKeepsTable(c: Client, s: ReplyStream, step: ClientStep)
    requires TableInv(c) && CanStep(c, step)
    ensures TableInv(StepClient(c, s, step))
  {
    StepKeepsPending(c, s, step);
    if step.ProcessReplies? {
      TakeAllKeepsPending(c.table, Fetched(c.cursor));
    }
  }

  lemma {:induction false} TakeAllKeepsReplies(t: Pending, items: seq<Item>, s: ReplyStream)
    requires RepliesOk(t, s)
    requires forall item | item in items && item.Message? :: Holds(s, item.id, item.outcome)
    ensures RepliesOk(TakeAll(t, items), s)
    decreases |items|
  {
    if items != [] {
      assert items[0] in items && forall item | item in items[1..] :: item in items;
      var next := TakeItem(t, items[0]);
      forall key | key in next.calls
        ensures ReplyOk(next, s, key)
      {
        assert ReplyOk(t, s, key);
      }
      TakeAllKeepsReplies(next, items[1..], s);
    }
  }

  lemma StepKeepsReplies(c: Client, s: ReplyStream, step: ClientStep)
    requires RepliesOk(c.table, s) && CursorInv(c.cursor, s) && CanStep(c, step)
    ensures RepliesOk(StepClient(c, s, step).table, s)
  {
    if step.ProcessReplies? {
      forall item | item in Fetched(c.cursor) && item.Message?
        ensures Holds(s, item.id, item.outcome)
      {
        SeenIsHeld(c.cursor, s, item);
      }
      TakeAllKeepsReplies(c.table, Fetched(c.cursor), s);
    } else {
      var after := StepClient(c, s, step).table;
      forall key | key in after.calls
        ensures ReplyOk(after, s, key)
      {
        if key in c.table.calls { assert ReplyOk(c.table, s, key); }
      }
    }
  }

  lemma StepKeepsCursor(c: Client, s: ReplyStream, step: ClientStep)
    requires CursorInv(c.cursor, s) && CanStep(c, step)
    ensures CursorInv(StepClient(c, s, step).cursor, s)
  {
    if step.ProcessReplies? {
      PassBatchKeepsCursor(c.cursor, s);
    } else if step.ReadReplies? {
      ReadKeepsCursor(c.cursor, s);
    }
  }

  /** What others append to the stream does not disturb the client. */
  lemma StreamGrowthKeepsClient(c: Client, s: ReplyStream, t: ReplyStream)
    requires ClientInv(c, s) && s.items <= t.items && s.trimmed <= t.trimmed <= |t.items|
    ensures ClientInv(c, t)
  {
    StreamGrowthKeepsCursor(c.cursor, s, t);
    forall key | key in c.table.calls
      ensures ReplyOk(c.table, t, key)
    {
      assert ReplyOk(c.table, s, key);
      assert forall p | 0 <= p < |s.items| :: t.items[p] == s.items[p];
    }
  }

  /** The caller has its outcome once its coroutine has finished. */
  function StateOf(call: Call): CallState {
    if call.sender.Finished? then Closed(call.sender.how) else Open
  }

  function States(t: Pending): map<string, CallState> {
    map key | key in t.calls :: StateOf(t.calls[key])
  }

  lemma {:induction false} TakeAllFinishesNone(t: Pending, items: seq<Item>)
    ensures States(TakeAll(t, items)) == States(t)
    decreases |items|
  {
    if items != [] {
      var next := TakeItem(t, items[0]);
      assert States(next) == States(t);
      TakeAllFinishesNone(next, items[1..]);
    }
  }

  /** The reply loop resumes no coroutine; what it sets, it sets to a reply. */
  lemma {:induction false} TakeAllKeepsSenders(t: Pending, items: seq<Item>, key: string)
    requires key in t.calls
    ensures var after := TakeAll(t, items).calls;
            && key in after && after[key].sender == t.calls[key].sender
            && (after[key].future == t.calls[key].future || (after[key].future.Set? && after[key].future.how.Replied?))
    decreases |items|
  {
    if items != [] { TakeAllKeepsSenders(TakeItem(t, items[0]), items[1..], key); }
  }

  /** No caller gets a second outcome, and replies come from the stream. */
  lemma StepMovesCalls(c: Client, s: ReplyStream, step: ClientStep)
    requires RepliesOk(c.table, s) && CanStep(c, step)
    ensures CallsMove(States(c.table), States(StepClient(c, s, step).table), s, Sent(step))
  {
    var before, after := States(c.table), States(StepClient(c, s, step).table);
    if step.ProcessReplies? {
      TakeAllFinishesNone(c.table, Fetched(c.cursor));
    } else {
      assert after.Keys == before.Keys + Sent(step);
      forall id | id in after
        ensures CallMoves(before, after, s, id)
      {
        if id in c.table.calls { assert ReplyOk(c.table, s, id); }
      }
    }
  }

  /** Every step keeps all this; a call opens, stays, or closes once, with a reply only from the stream. */
  lemma ClientStepIsSound(c: Client, s: ReplyStream, step: ClientStep)
    requires ClientInv(c, s) && CanStep(c, step)
    ensures ClientInv(StepClient(c, s, step), s)
    ensures CallsMove(States(c.table), States(StepClient(c, s, step).table), s, Sent(step))
  {
    StepKeepsTable(c, s, step);
    StepKeepsReplies(c, s, step);
    StepKeepsCursor(c, s, step);
    StepMovesCalls(c, s, step);
  }

  // ---------------------------------------------------------------------------------------
  // What settles a call.
  // ---------------------------------------------------------------------------------------

  /** Which steps move a caller's coroutine, and with what it ends. */
  lemma StepMovesSenderExactly(c: Client, s: ReplyStream, step: ClientStep, key: string)
    requires CanStep(c, step) && key in c.table.calls && !c.table.calls[key].sender.Finished?
    ensures var before, after := c.table.calls[key], StepClient(c, s, step).table.calls;
            && key in after
            && (after[key].sender.Finished? <==> step in {AddRaises(key), ResumeExpired(key), ResumeSet(key)})
            && (after[key].sender.Awaiting? <==>
                  step == AddReturns(key)
                  || (before.sender.Awaiting? && step !in {Expire(key), ResumeSet(key), CallerCancels(key)}))
            && (after[key].sender.Expired? <==>
                  step == Expire(key) || (before.sender.Expired? && step != ResumeExpired(key)))
            && (after[key].sender.Abandoned? <==> step == CallerCancels(key) || before.sender.Abandoned?)
            && (step == AddRaises(key) ==> after[key].sender.how == AddFailed)
            && (step == ResumeExpired(key) ==> after[key].sender.how == TimedOut)
            && (step == ResumeSet(key) ==> before.future.Set? && after[key].sender.how == before.future.how)
  {
    if step.ProcessReplies? { TakeAllKeepsSenders(c.table, Fetched(c.cursor), key); }
  }

  /** Which steps get a pending future done, and how: a reply, the end of `stop`, a timeout, a cancelled caller. */
  lemma StepSettlesExactly(c: Client, s: ReplyStream, step: ClientStep, key: string)
    requires PendingInv(c.table) && CanStep(c, step) && key in c.table.keys && c.table.calls[key].future.Unset?
    ensures var before, after := c.table.calls[key], StepClient(c, s, step).table.calls;
            && key in after
            && (after[key].future == Set(TransportStopped) <==> step.Drain?)
            && (after[key].future.Cancelled? <==>
                  step == Expire(key) || (step == CallerCancels(key) && before.sender.Awaiting?))
            && (after[key].future.Set? && !step.Drain? ==> step.ProcessReplies? && after[key].future.how.Replied?)
  {
    if step.ProcessReplies? { TakeAllKeepsSenders(c.table, Fetched(c.cursor), key); }
  }

  lemma TakeSeenIsExact(t: Pending, items: seq<Item>, key: string)
    requires PendingInv(t) && key in t.keys && t.calls[key].future.Unset?
    ensures var after := TakeAll(t, Seen(items));
            && key in after.calls && after.calls[key].sender == t.calls[key].sender
            && (key in after.keys <==> after.calls[key].future.Unset?)
            && (key in after.keys <==> forall k: nat | Reached(items, k) :: !Names(items[k], key))
            && forall k: nat | Reached(items, k) && FirstNaming(items, k, key) ::
                 after.calls[key].future == Set(Replied(items[k].outcome))
  {
    TakeAllIsExact(t, Seen(items), key);
    SeenNamesReached(items, key);
    if exists k | 0 <= k < |Seen(items)| :: Names(Seen(items)[k], key) {
      var k := FirstOf(Seen(items), key);
    }
  }

  lemma {:induction false} TakeAllKeepsDone(t: Pending, items: seq<Item>, key: string)
    requires key in t.calls && !t.calls[key].future.Unset?
    ensures var after := TakeAll(t, items).calls; key in after && after[key].future == t.calls[key].future
    decreases |items|
  {
    if items != [] { TakeAllKeepsDone(TakeItem(t, items[0]), items[1..], key); }
  }

  /** A future that is done stays as it is, whatever replies, timeouts, cancellations and stops come after. */
  lemma DoneFutureStays(c: Client, s: ReplyStream, step: ClientStep, key: string)
    requires CanStep(c, step) && key in c.table.calls && !c.table.calls[key].future.Unset?
    ensures var after := StepClient(c, s, step).table.calls; key in after && after[key].future == c.table.calls[key].future
  {
    if step.ProcessReplies? { TakeAllKeepsDone(c.table, Fetched(c.cursor), key); }
  }

  /** A turn of the reply loop sets a pending future exactly if it reaches a message that names it, to the first such. */
  lemma TurnSettlesExactly(c: Client, s: ReplyStream, key: string)
    requires PendingInv(c.table) && CanStep(c, ProcessReplies)
    requires key in c.table.keys && c.table.calls[key].future.Unset?
    ensures var items, after := c.cursor.fetched.value.items, StepClient(c, s, ProcessReplies).table;
            && key in after.calls && after.calls[key].sender == c.table.calls[key].sender
            && (key in after.keys <==> after.calls[key].future.Unset?)
            && (key in after.keys <==> forall k: nat | Reached(items, k) :: !Names(items[k], key))
            && forall k: nat | Reached(items, k) && FirstNaming(items, k, key) ::
                 after.calls[key].future == Set(Replied(items[k].outcome))
  {
    TakeSeenIsExact(c.table, c.cursor.fetched.value.items, key);
  }

  /**
   * No caller waits forever: each has a next step, and one that awaits can time out; until it has its outcome
   * it can be cancelled.
   */
  lemma EveryCallCanEnd(c: Client, s: ReplyStream, key: string)
    requires PendingInv(c.table) && key in c.table.calls
    ensures var call := c.table.calls[key];
            match call.sender
            case Adding => CanStep(c, AddReturns(key)) && CanStep(c, AddRaises(key)) && CanStep(c, CallerCancels(key))
            case Awaiting =>
              && CanStep(c, CallerCancels(key))
              && if call.future.Set? then CanStep(c, ResumeSet(key))
                 else
                   && CanStep(c, Expire(key))
                   && var expired := StepClient(c, s, Expire(key));
                      CanStep(expired, ResumeExpired(key))
                      && States(StepClient(expired, s, ResumeExpired(key)).table)[key] == Closed(TimedOut)
            case Expired => CanStep(c, ResumeExpired(key))
            case Finished(_) => true
            case Abandoned => true
  {
    assert CallOk(c.table, key);
  }

  /** A new client starts, with its reply loop running. */
  lemma NewClientCanStart(s: ReplyStream)
    ensures CanStep(NEW_CLIENT, StartUp)
    ensures StepClient(NEW_CLIENT, s, StartUp) == NEW_CLIENT.(state := Started, looping := true)
    ensures NEW_CLIENT.state.Idle? && NEW_CLIENT.table.calls == map[] && NEW_CLIENT.cursor.next == 0
  {
  }

  /** A `stop` on a started transport can run through, and refuses calls from its first moment. */
  lemma StopCanComplete(c: Client, s: ReplyStream, id: string)
    requires TableInv(c) && c.state.Started?
    ensures CanStep(c, StopBegins)
    ensures var begun := StepClient(c, s, StopBegins);
            && begun.state.Stopped? && !CanStep(begun, SendOut(id)) && !CanStep(begun, StartUp) && CanStep(begun, LoopEnds)
            && var exited := StepClient(begun, s, LoopEnds);
               && CanStep(exited, Drain) && !CanStep(exited, ReadReplies) && exited.cursor.fetched.None?
               && StepClient(exited, s, Drain).table.keys == {} && StepClient(exited, s, Drain).stage.Ended?
  {
  }

  /** A turn moves the cursor past the entries it reaches, and no further; the batch is done with. */
  lemma TurnAdvancesExactly(c: Client, s: ReplyStream, k: nat)
    requires CursorInv(c.cursor, s) && CanStep(c, ProcessReplies)
    ensures var batch, after := c.cursor.fetched.value, StepClient(c, s, ProcessReplies).cursor;
            after.fetched.None? && (batch.start + k < after.next <==> Reached(batch.items, k))
  {
    PassBatchIsExact(c.cursor, s, k);
  }

  /** A `stop` on a transport that is not started is final at once. */
  lemma UnstartedStopIsFinal(c: Client, s: ReplyStream, id: string)
    requires !c.state.Started?
    ensures CanStep(c, StopBegins)
    ensures var after := StepClient(c, s, StopBegins);
            after == c.(state := Stopped) && !CanStep(after, StartUp) && !CanStep(after, SendOut(id))
  {
  }

  /** A read fetches everything unread, and nothing only if nothing is. */
  lemma ReadFetchesExactly(c: Client, s: ReplyStream)
    requires CanStep(c, ReadReplies)
    ensures var fetched := StepClient(c, s, ReadReplies).cursor.fetched;
            && (fetched.Some? <==> exists p: nat :: Unread(c.cursor, s, p))
            && (fetched.Some? ==>
                  && Unread(c.cursor, s, fetched.value.start) && fetched.value.items == s.items[fetched.value.start..]
                  && forall p: nat | Unread(c.cursor, s, p) :: fetched.value.start <= p)
  {
    ReadIsExact(c.cursor, s);
  }

  /**
   * Over a read and the turn that follows: an unread reply to a pending call, with no earlier one and
   * nothing that throws before it, is what the future is set to.
   */
  lemma ReplyIsDelivered(c: Client, s: ReplyStream, later: ReplyStream, p: nat, key: string)
    requires PendingInv(c.table) && CanStep(c, ReadReplies) && key in c.table.keys && c.table.calls[key].future.Unset?
    requires Unread(c.cursor, s, p) && Names(s.items[p], key)
    requires forall q: nat | Unread(c.cursor, s, q) && q < p :: !s.items[q].Throwing? && !Names(s.items[q], key)
    ensures var fetched := StepClient(c, s, ReadReplies);
            && CanStep(fetched, ProcessReplies)
            && var after := StepClient(fetched, later, ProcessReplies).table;
               key !in after.keys && key in after.calls
               && after.calls[key] == Call(Set(Replied(s.items[p].outcome)), c.table.calls[key].sender)
  {
    ReadFetchesExactly(c, s);
    var fetched := StepClient(c, s, ReadReplies);
    var f := fetched.cursor.fetched.value;
    assert forall k | 0 <= k < p - f.start :: f.items[k] == s.items[f.start + k] && Unread(c.cursor, s, f.start + k);
    assert Reached(f.items, p - f.start) && FirstNaming(f.items, p - f.start, key);
    TurnSettlesExactly(fetched, later, key);
  }

  /** A caller that awaits gets it as soon as its coroutine resumes, whatever happens in between to others. */
  lemma SetFutureIsReturned(c: Client, s: ReplyStream, key: string, how: Settlement)
    requires key in c.table.calls && c.table.calls[key] == Call(Set(how), Awaiting)
    ensures CanStep(c, ResumeSet(key)) && States(StepClient(c, s, ResumeSet(key)).table)[key] == Closed(how)
  {
  }

  /**
   * While its coroutine waits, a call's key is in the table exactly as long as nothing has settled it; a
   * caller that got its outcome has left nothing behind; other keys belong to callers that timed out a
   * moment ago or were cancelled.
   */
  lemma PendingIsExact(t: Pending, key: string)
    requires PendingInv(t) && key in t.calls
    ensures t.calls[key].sender.Adding? || t.calls[key].sender.Awaiting? ==>
              (key in t.keys <==> t.calls[key].future.Unset?)
    ensures t.calls[key].sender.Finished? ==> key !in t.keys
    ensures key in t.keys && !t.calls[key].future.Unset? ==>
              t.calls[key].future.Cancelled? && (t.calls[key].sender.Expired? || t.calls[key].sender.Abandoned?)
  {
    assert CallOk(t, key);
  }

  // ---------------------------------------------------------------------------------------
  // What `stop` leaves behind.
  // ---------------------------------------------------------------------------------------

  /** A run of one client; `streams` gives its reply stream as it is at each step. */
  ghost predicate IsClientRun(states: seq<Client>, streams: seq<ReplyStream>, steps: seq<ClientStep>) {
    && |states| == |steps| + 1 && |streams| == |steps| && states[0] == NEW_CLIENT
    && forall i | 0 <= i < |steps| ::
         CanStep(states[i], steps[i]) && states[i + 1] == StepClient(states[i], streams[i], steps[i])
  }

  lemma {:induction false} RunKeepsTable(states: seq<Client>, streams: seq<ReplyStream>, steps: seq<ClientStep>, i: nat)
    requires IsClientRun(states, streams, steps) && i < |states|
    ensures TableInv(states[i])
  {
    if i > 0 {
      RunKeepsTable(states, streams, steps, i - 1);
      StepKeepsTable(states[i - 1], streams[i - 1], steps[i - 1]);
    }
  }

  /** Stopping is final, and so is the end of the `stop` that does the work. */
  lemma {:induction false} StoppedForGood(states: seq<Client>, streams: seq<ReplyStream>, steps: seq<ClientStep>, i: nat, j: nat)
    requires IsClientRun(states, streams, steps) && i <= j < |states| && states[i].state.Stopped?
    ensures states[j].state.Stopped?
    ensures states[i].stage.Ended? ==> states[j].stage.Ended?
    ensures states[i].stage.NotStopping? ==> states[j].stage.NotStopping?
    decreases j
  {
    if i < j { StoppedForGood(states, streams, steps, i, j - 1); }
  }

  /** Once the table has been cleared it stays empty for good. */
  lemma EmptyForGood(states: seq<Client>, streams: seq<ReplyStream>, steps: seq<ClientStep>, i: nat, j: nat)
    requires IsClientRun(states, streams, steps) && i <= j < |states| && states[i].stage.Ended?
    ensures states[j].stage.Ended? && states[j].state.Stopped? && states[j].table.keys == {}
  {
    RunKeepsTable(states, streams, steps, i);
    StoppedForGood(states, streams, steps, i, j);
    RunKeepsTable(states, streams, steps, j);
  }

  /** A `stop` that finds the transport not started, and no `stop` under way, leaves the table empty for good. */
  lemma LoneStopLeavesNothing(states: seq<Client>, streams: seq<ReplyStream>, steps: seq<ClientStep>, i: nat, j: nat)
    requires IsClientRun(states, streams, steps) && i < j < |states| && steps[i].StopBegins?
    requires !states[i].state.Started? && !states[i].stage.Ending?
    ensures states[j].state.Stopped? && states[j].table.keys == {}
  {
    RunKeepsTable(states, streams, steps, i);
    StoppedForGood(states, streams, steps, i + 1, j);
    RunKeepsTable(states, streams, steps, j);
  }

  /** The keys that a step pops. */
  function Popped(c: Client, step: ClientStep): set<string> {
    match step
    case AddRaises(key) => {key}
    case ResumeExpired(key) => {key}
    case ProcessReplies => IdsOf(Fetched(c.cursor))
    case Drain => c.table.keys
    case StartUp => {}
    case SendOut(_) => {}
    case AddReturns(_) => {}
    case ReadReplies => {}
    case Expire(_) => {}
    case ResumeSet(_) => {}
    case CallerCancels(_) => {}
    case StopBegins => {}
    case LoopEnds => {}
  }

  lemma {:induction false} TakeAllPops(t: Pending, items: seq<Item>)
    requires t.keys <= t.calls.Keys
    ensures TakeAll(t, items).keys == t.keys - IdsOf(items)
    decreases |items|
  {
    if items != [] {
      TakeAllPops(TakeItem(t, items[0]), items[1..]);
      assert items == [items[0]] + items[1..];
    }
  }

  lemma StepPops(c: Client, s: ReplyStream, step: ClientStep)
    requires TableInv(c) && CanStep(c, step)
    ensures StepClient(c, s, step).table.keys == c.table.keys + Sent(step) - Popped(c, step)
  {
    if step.ProcessReplies? { TakeAllPops(c.table, Fetched(c.cursor)); }
  }

  /** The keys popped in the steps from `i` up to `j`. */
  function PoppedIn(states: seq<Client>, steps: seq<ClientStep>, i: nat, j: nat): set<string>
    requires i <= j <= |steps| < |states|
    decreases j
  {
    if i == j then {} else PoppedIn(states, steps, i, j - 1) + Popped(states[j - 1], steps[j - 1])
  }

  /**
   * A `stop` that finds another under way returns at once and changes nothing. What it leaves, less what
   * is popped until then, is exactly what the other one will clear.
   */
  lemma {:induction false} OverlappingStopLeavesExactly(states: seq<Client>, streams: seq<ReplyStream>, steps: seq<ClientStep>,
                                                        i: nat, j: nat)
    requires IsClientRun(states, streams, steps) && i < j < |states| && steps[i].StopBegins?
    requires !states[i].state.Started? && states[i].stage.Ending? && states[j].stage.Ending?
    ensures states[i + 1] == states[i]
    ensures states[j].table.keys == states[i].table.keys - PoppedIn(states, steps, i + 1, j)
    decreases j
  {
    RunKeepsTable(states, streams, steps, i);
    if i + 1 < j {
      RunKeepsTable(states, streams, steps, j - 1);
      StoppedForGood(states, streams, steps, i, j - 1);
      OverlappingStopLeavesExactly(states, streams, steps, i, j - 1);
      StepPops(states[j - 1], streams[j - 1], steps[j - 1]);
    }
  }

  /** A run in which an overlapping `stop` returns while a call is pending. */
  lemma OverlappingStopWitness(key: string)
    returns (states: seq<Client>, streams: seq<ReplyStream>, steps: seq<ClientStep>)
    ensures IsClientRun(states, streams, steps) && |steps| == 4 && steps[3].StopBegins?
    ensures !states[3].state.Started? && states[4].table.keys == {key}
  {
    steps := [StartUp, SendOut(key), StopBegins, StopBegins];
    var s := NO_REPLIES;
    streams := [s, s, s, s];
    var started := StepClient(NEW_CLIENT, s, StartUp);
    var sent := StepClient(started, s, SendOut(key));
    var stopping := StepClient(sent, s, StopBegins);
    states := [NEW_CLIENT, started, sent, stopping, StepClient(stopping, s, StopBegins)];
  }

  /** The for-loop over a batch, one entry at a time. */
  lemma BatchGoesOn(t: Pending, c: Cursor, position: nat, items: seq<Item>)
    requires items != []
    ensures var next, rest := TakeItem(t, items[0]), if items[0].Throwing? then [] else Seen(items[1..]);
            && TakeAll(t, Seen(items)) == TakeAll(next, rest)
            && PassAll(c, position, |Seen(items)|) == PassAll(Pass(c, position), position + 1, |rest|)
  {
    var rest := if items[0].Throwing? then [] else Seen(items[1..]);
    assert Seen(items) == [items[0]] + rest;
    assert Seen(items)[1..] == rest;
  }

  // ---------------------------------------------------------------------------------------
  // The transport object. Each method is one span between two awaits.
  // ---------------------------------------------------------------------------------------

  class ClientTransport {
    var state: Lifecycle
    var looping: bool
    var stage: StopStage
    var pending: set<string>
    var calls: map<string, Call>
    var lastId: nat
    var fetched: Option<Fetch>
    ghost var taken: seq<nat>
    ghost var lost: set<nat>

    ghost function Table(): Pending
      reads this
    {
      Pending(pending, calls)
    }

    ghost function Position(): Cursor
      reads this
    {
      Cursor(lastId, fetched, taken, lost)
    }

    ghost function Model(): Client
      reads this
    {
      Client(state, looping, stage, Table(), Position())
    }

    constructor ()
      ensures Model() == NEW_CLIENT && TableInv(Model())
    {
      state, looping, stage, pending, calls := Idle, false, NotStopping, {}, map[];
      lastId, fetched, taken, lost := 0, None, [], {};
    }

    method Start() returns (ok: bool)
      requires TableInv(Model())
      modifies this`state, this`looping
      ensures TableInv(Model()) && (ok <==> !old(state).Stopped?)
      ensures if old(state).Idle? then state.Started? && looping else state == old(state) && looping == old(looping)
    {
      ok := !state.Stopped?;
      if state.Idle? {
        state, looping := Started, true;
      }
    }

    /** `send` up to the XADD. */
    method BeginSend(key: string) returns (ok: bool)
      requires TableInv(Model()) && key !in calls
      modifies this`pending, this`calls
      ensures TableInv(Model()) && (ok <==> state.Started?)
      ensures pending == if ok then old(pending) + {key} else old(pending)
      ensures calls == if ok then old(calls)[key := Call(Unset, Adding)] else old(calls)
      ensures ok ==> Table() == StepTable(old(Table()), [], SendOut(key))
    {
      if !state.Started? { return false; }
      StepKeepsTable(Model(), NO_REPLIES, SendOut(key));
      pending := pending + {key};
      calls := calls[key := Call(Unset, Adding)];
      return true;
    }

    /** `send` after the XADD. */
    method EndAdd(key: string, raised: bool)
      requires TableInv(Model()) && SenderIs(Table(), key, Adding)
      modifies this`pending, this`calls
      ensures TableInv(Model())
      ensures Table() == StepTable(old(Table()), [], if raised then AddRaises(key) else AddReturns(key))
    {
      StepKeepsTable(Model(), NO_REPLIES, if raised then AddRaises(key) else AddReturns(key));
      if raised {
        pending := pending - {key};
        calls := calls[key := calls[key].(sender := Finished(AddFailed))];
      } else {
        calls := calls[key := calls[key].(sender := Awaiting)];
      }
    }

    /** `send` after `wait_for`, which gave the future's outcome or timed out. */
    method EndSend(key: string) returns (how: Settlement)
      requires TableInv(Model())
      requires SenderIs(Table(), key, Expired) || (SenderIs(Table(), key, Awaiting) && calls[key].future.Set?)
      modifies this`pending, this`calls
      ensures TableInv(Model()) && SenderIs(Table(), key, Finished(how)) && key !in pending
      ensures Table() == StepTable(old(Table()), [],
                                   if old(calls)[key].sender.Expired? then ResumeExpired(key) else ResumeSet(key))
    {
      assert CallOk(Table(), key);
      StepKeepsTable(Model(), NO_REPLIES, if calls[key].sender.Expired? then ResumeExpired(key) else ResumeSet(key));
      if calls[key].sender.Expired? {
        pending := pending - {key};
        how := TimedOut;
      } else {
        how := calls[key].future.how;
      }
      calls := calls[key := calls[key].(sender := Finished(how))];
    }

    method XRead(s: ReplyStream)
      requires CursorInv(Position(), s) && fetched.None?
      modifies this`fetched
      ensures CursorInv(Position(), s) && Position() == old(Position()).(fetched := fetched)
      ensures fetched.Some? <==> exists p: nat :: Unread(old(Position()), s, p)
      ensures fetched.Some? ==>
                && Unread(old(Position()), s, fetched.value.start) && fetched.value.items == s.items[fetched.value.start..]
                && forall p: nat | Unread(old(Position()), s, p) :: fetched.value.start <= p
    {
      ReadKeepsCursor(Position(), s);
      ReadIsExact(Position(), s);
      var from := if lastId < s.trimmed then s.trimmed else lastId;
      fetched := if from < |s.items| then Some(Fetch(from, s.items[from..])) else None;
    }

    /** One entry in the reply loop: the last id moves first; a pending future is popped, and set unless it is done. */
    method TakeOne(position: nat, item: Item)
      requires pending <= calls.Keys
      modifies this`lastId, this`taken, this`lost, this`pending, this`calls
      ensures Table() == TakeItem(old(Table()), item) && Position() == Pass(old(Position()), position)
      ensures pending <= calls.Keys
    {
      taken := taken + [position];
      lost := lost + Positions(lastId, position);
      lastId := position + 1;
      if !item.Message? || item.id !in pending { return; }
      pending := pending - {item.id};
      if calls[item.id].future.Unset? {
        calls := calls[item.id := calls[item.id].(future := Set(Replied(item.outcome)))];
      }
    }

    method TakeBatch(start: nat, items: seq<Item>)
      requires pending <= calls.Keys
      modifies this`lastId, this`taken, this`lost, this`pending, this`calls
      ensures Table() == TakeAll(old(Table()), Seen(items))
      ensures Position() == PassAll(old(Position()), start, |Seen(items)|)
    {
      var left, position := items, start;
      while left != []
        invariant pending <= calls.Keys && TakeAll(Table(), Seen(left)) == TakeAll(old(Table()), Seen(items))
        invariant PassAll(Position(), position, |Seen(left)|) == PassAll(old(Position()), start, |Seen(items)|)
        decreases |left|
      {
        BatchGoesOn(Table(), Position(), position, left);
        TakeOne(position, left[0]);
        left, position := if left[0].Throwing? then [] else left[1..], position + 1;
      }
    }

    /** One turn of the reply loop after an XREAD with a result. */
    method TakeReplies(ghost s: ReplyStream)
      requires ClientInv(Model(), s) && looping && fetched.Some?
      modifies this`lastId, this`taken, this`lost, this`pending, this`calls, this`fetched
      ensures ClientInv(Model(), s) && Model() == StepClient(old(Model()), s, ProcessReplies)
    {
      ClientStepIsSound(Model(), s, ProcessReplies);
      TakeBatch(fetched.value.start, fetched.value.items);
      fetched := None;
    }

    /** From here on nothing enters the table. */
    method BeginStop()
      requires TableInv(Model())
      modifies this`state, this`stage
      ensures TableInv(Model()) && state.Stopped?
      ensures stage == if old(state).Started? then Ending else old(stage)
    {
      StepKeepsTable(Model(), NO_REPLIES, StopBegins);
      if state.Started? { stage := Ending; }
      state := Stopped;
    }

    /** `stop` after the reply loop has ended: every future that is not done gets the error, then the table is cleared. */
    method EndStop()
      requires TableInv(Model()) && stage.Ending? && !looping
      modifies this`pending, this`calls, this`stage
      ensures TableInv(Model()) && stage.Ended? && pending == {}
      ensures calls.Keys == old(calls).Keys
      ensures forall key | key in calls ::
                calls[key] == if key in old(pending) && old(calls)[key].future.Unset?
                              then old(calls)[key].(future := Set(TransportStopped)) else old(calls)[key]
    {
      StepKeepsTable(Model(), NO_REPLIES, Drain);
      var left := pending;
      while left != {}
        invariant left <= pending == old(pending) && calls.Keys == old(calls).Keys
        invariant forall key | key in calls ::
                    calls[key] == if key in pending - left && old(calls)[key].future.Unset?
                                  then old(calls)[key].(future := Set(TransportStopped)) else old(calls)[key]
      {
        var key :| key in left;
        if calls[key].future.Unset? { calls := calls[key := calls[key].(future := Set(TransportStopped))]; }
        left := left - {key};
      }
      assert calls == RejectPending(old(Table())).calls;
      pending := {};
      stage := Ended;
    }
  }
}
