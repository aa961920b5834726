# Verified model of clamator's RPC over Redis streams and in memory

clamator carries JSON-RPC 2.0 between TypeScript and Python processes. A client appends a command to the
stream of a service and reads its replies from a stream of its own; a pool of servers shares each command
stream through a consumer group, and takes over what a crashed server left pending. This project models that
protocol, the layer above it, the in-memory counterpart, and four self-contained algorithms of the repository,
and proves properties of them with Dafny 4.11: `dafny verify dfyconfig.toml`.

## How the model is laid out

| file | what it models |
|---|---|
| `Envelope.dfy` | the envelope, the TypeScript parser, the Python parser, the four builders |
| `Protocol.dfy` | dispatcher, client unwrapping, the in-flight set of the server core |
| `CallTable.dfy` | the simple form: calls that are open until closed once, and the replies produced for them |
| `ReplyStreams.dfy` | reply streams with trimming, and the cursor of a reply loop over its stream |
| `RedisClient.dfy` | the TypeScript client transport: pending table, timers, reply loop, overlapping calls of `stop` |
| `PythonClient.dfy` | the Python client transport: futures shared by callers, reply loop and `stop` |
| `Clients.dfy` | a client of either language, as the rest of the system sees it |
| `CommandGroup.dfy` | command streams, consumer groups, pending entries, server loops, as a transition system; its invariants |
| `GroupInvariants.dfy` | every server step keeps the invariants; conservation and duplicate accounting |
| `HandingOut.dfy` | what a read and a claim hand to a loop, in full; what a lost loop held is claimed |
| `RedisSystem.dfy` | all clients of both languages and all servers together; refinement of the call table over every run |
| `TimedDelivery.dfy` | crash-free timed runs: when an entry is dispatched once only |
| `InOrder.dfy` | the same runs with one consumer loop: when handlers run in log order, one after the other |
| `ServerTransport.dfy` | the server transport as an object that takes steps of `CommandGroup`; the drain bound |
| `OverMemory.dfy` | the in-memory transport and its bus |
| `Intents.dfy` | what a caller asks for, and that the answer of the service's dispatcher is the local call |
| `EndToEnd.dfy` | the protocol layer over Redis: routing, and what a caller's reply means |
| `Progress.dfy` | what goes through: every run can be continued so that a call or a notification made next is carried out |
| `BusCalls.dfy` | the protocol layer on the in-memory bus, where services come and go |
| `Keys.dfy` | stream and consumer names |
| `CaseConversion.dfy` | the camelCase/snake_case conversion that names Python handlers |
| `WorkerPool.dfy` | the bounded worker pool of the interop runner |
| `Canonicaliser.dfy` | comment stripping and white-space normalisation for verbatim README blocks |
| `JsonValues.dfy`, `Wrappers.dfy` | JSON values; optional values, results, larger and smaller |

A step of a transition system is one span of code between two awaits, or one command taking effect in Redis.
A crash (`Crash`), an exception that reaches a loop (`Abort`), a timeout, a trim or a foreign entry may fall
between any two steps; a command may take effect and still be reported as failed. All command streams share one
log whose entries name their service; a stream id is a position. XREADGROUP takes up to 16 entries after the
group's mark, XAUTOCLAIM the first 32 pending entries past the idle threshold, from the start of the list, the
caller's own included. XGROUP starts a new group at the end of its stream and leaves an existing one alone.

Assumed: a lossless JSON codec; fresh call ids; handlers that do not throw synchronously; schemas that are
functions from JSON to a value or to error data. A loop of a stopped server that outlives its grace period is
one more loop, and loops may appear at any time. What the language reports as error data is a parameter. Where
replies are given a meaning (`EndToEnd.dfy`, `BusCalls.dfy`), the servers of a service share language, contract and handlers, and
a handler's outcome depends on its params only.

## What the proofs brought to light

- **The reclaim threshold bounds a batch, not a handler.** The README of the Redis packages says that a handler
  which exceeds the threshold is dispatched again (`ts/packages/over-redis/README.md:220`). The loop reads
  sixteen entries at once, so the exact condition is sixteen handling times: `DispatchedOnceExactly`.
- **The design document describes other commands than the code uses.** It speaks of XPENDING and XCLAIM at
  start-up (`docs/2026-05-07-clamator-design.md:664`); the model follows the code's XAUTOCLAIM loop.
- **A method that a contract does not declare answers -32602 instead of -32601** on a TypeScript server when its
  name is one that every JavaScript object inherits (`toString`, `constructor`): `UndeclaredMethodIsNotFound`.
- **An error code with a fraction reaches a Python client as a malformed reply**; this is the only way in which a
  remote call differs from the local one: `RemoteCallMeansLocalCall`.
- **The order that one server keeps depends on the batch as well.** The README promises it while handlers stay well
  under the threshold (`ts/packages/over-redis/README.md:226`); `InOrderExactly` gives sixteen handling times again.
- **A call sent during the TypeScript client's `stop` can outlive it.** The state stays `started` until the end, so
  the table is empty on return exactly if every call sent since the last drain is closed: `StopReturnsEmptyExactly`,
  with the run in `SendDuringStopWitness`.
- **A second `stop` of the Python client returns before the first has cleared the table**, and leaves exactly what the
  first will clear: `OverlappingStopLeavesExactly`, with the run in `OverlappingStopWitness`. A `stop` with no other
  under way does leave it empty for good: `LoneStopLeavesNothing`, `EmptyForGood`.
- **A numeric id that times out stays in the in-memory transport's table** until its dispatch settles or the
  transport stops, because the timer deletes by the raw id: `TimerKeepsInv`, `PendingIsExact`. Only there does the code
  reach a promise that is settled already: `SettlesAgainExactly`.
- **Comment removal plus normalisation is not idempotent for Python** when a comment ends in a terminator that is
  trimmed away, such as the carriage return of a CRLF file: `PythonTwiceIsOnceExactly` gives the exact condition.
- **Stream names can collide across deployments** when an instance id holds a colon: `CommandMeetsReplyExactly`.

## Model

| member | source | states |
|---|---|---|
| CallTable.ClosedForGood | ts/packages/over-redis/src/client-transport.ts:69-88 | in every behaviour of the call table a closed call keeps the outcome it was closed with |
| CallTable.RepliesWereProduced | ts/packages/over-redis/src/client-transport.ts:161-166 | a reply outcome was produced for that very call at an earlier moment at which the call was open |
| RedisSystem.StepPreservesInv | ts/packages/over-redis/src/server-transport.ts:122-231 | every step of any client, server, crash, error, trim or foreign entry keeps the server, client, ownership and command invariants together |
| RedisSystem.StepRefines | ts/packages/over-redis/src/client-transport.ts:62-175 | every step of the whole system is a step, or no step, of the call table |
| RedisSystem.RunsRefineCallTable | ts/packages/over-redis/src/client-transport.ts:62-175 | every run, with clients of both languages and under every interleaving, refines the call table |
| RedisSystem.CallsSettleOnce | ts/packages/over-redis/src/client-transport.ts:62-89 | in every run a call keeps the outcome it was first given; in TypeScript settling overwrites here, so no path of the code reaches a promise twice, whatever replies, timers, failed XADDs and stops do |
| RedisSystem.RepliesAnswerTheirRequest | ts/packages/over-redis/src/server-transport.ts:223-229 | a reply a caller receives was returned by an earlier dispatch of the one entry that carries its id and names its own reply stream |
| RedisSystem.RunsAreSound | ts/packages/over-redis/src/server-transport.ts:186-231 | conservation, duplicate accounting, and exact tables and cursors of the clients of both languages hold in every state of every run |
| EndToEnd.RedisCallMeansLocalCall | ts/packages/protocol/src/client-core.ts:28-43 | in every run over Redis, with clients of both languages and all crashes, repeats, reclaims and trims, an answered call has the outcome of the local call on the service it names, as a client of its language reports it |
| Progress.CallCanBeAnswered | ts/packages/over-redis/src/client-transport.ts:62-175 | every served run, with clients of both languages, can be continued so that a call sent next by a client that has read all its replies, to a service with an idle loop that is up to date, is acknowledged and gives its caller the local outcome |
| Progress.ReadinessIsReachable | ts/packages/over-redis/src/server-transport.ts:73-94 | from nothing, a client of either language and a server come up, and are then as the theorem above asks |
| Progress.NotificationCanBeServed | ts/packages/over-redis/src/client-transport.ts:91-104 | likewise a notification is dispatched once, acknowledged, and answered to nobody |
| Progress.StrayCommandCanBeDropped | ts/packages/over-redis/src/server-transport.ts:190-205 | a foreign entry without an acceptable envelope is acknowledged, and nothing runs for it |
| Progress.ReplyLeavesNewest | ts/packages/over-redis/src/server-transport.ts:224-229 | appending a reply keeps it and the newest `replyStreamMaxLen` entries readable: a client that is not further behind misses none |
| Progress.DeletionIsExact | py/packages/over-redis/src/clamator_over_redis/client_transport.py:108-111 | the DEL of a stopping client leaves nothing to read and touches no other stream; a Python client has by then no call that could miss it |
| Clients.DeletionFollowsDrain | ts/packages/over-redis/src/client-transport.ts:131 | the DEL comes after a drain of the table |
| BusCalls.MemoryCallMeansLocalCall | ts/packages/over-memory/src/transport.ts:29-76 | in every run on a bus where services come and go, a reply is the outcome of the local call on the server that owned the service when the call was made, or on none, answered at once |
| BusCalls.CallWasMade | ts/packages/over-memory/src/transport.ts:35 | what is remembered of a call is what it asked and what the bus held at that very step |
| BusCalls.SettledCallIsAnsweredExactly | ts/packages/over-memory/src/transport.ts:50-74 | once the dispatch of an open call has settled, the caller has a reply exactly if the local call on the server held has a wire form, and then that one |
| BusCalls.CallCanBeAnswered | ts/packages/over-memory/src/transport.ts:29-76 | from every state of every run a started transport can make any call with a fresh id, and have it answered if the local call has a wire form |
| BusCalls.ReadinessIsReachable | ts/packages/over-memory/src/transport.ts:18-27 | from nothing, a transport joins, starts and registers a service, and is then as the theorem above asks |
| BusCalls.CallIsMade | ts/packages/over-memory/src/transport.ts:29-50 | a call to an owned service is under way with the dispatcher held; any other is answered -32601 at once |
| BusCalls.ServiceStaysHeld | ts/packages/over-memory/src/transport.ts:24-27 | a service stays with the server that registered it until that server's transport stops |
| BusCalls.StepKeepsBus | ts/packages/over-memory/src/transport.ts:24-103 | joining, registering, calling, timing out, ending a dispatch and stopping keep every call tied to its own request and dispatcher |
| Intents.AnswerMeansLocalCall | ts/packages/protocol/src/server-core.ts:38-108 | what a dispatcher returns for a built request encodes, and unwraps to, the local outcome |
| EndToEnd.StepKeepsRouted | ts/packages/over-redis/src/client-transport.ts:75-81 | every call, on its way or arrived, stays in the stream of the service it names |
| EndToEnd.ReturnAnswers | ts/packages/over-redis/src/server-transport.ts:220-223 | a dispatch that returns has answered with the dispatcher of the call's own service, because the loop's service is the entry's |
| EndToEnd.StepKeepsAnswered | ts/packages/over-redis/src/server-transport.ts:223 | no step of any client or server disturbs what a returned dispatch has answered |
| CommandGroup.NewEntries | ts/packages/over-redis/src/server-transport.ts:128-131 | what XREADGROUP hands out lies after the mark, is of the service, ascends, and is at most the count |
| CommandGroup.NewEntriesSkipNone | ts/packages/over-redis/src/server-transport.ts:128-131 | no entry of the service after the mark is skipped below the last one handed out |
| CommandGroup.IdleEntries | ts/packages/over-redis/src/server-transport.ts:167-170 | what XAUTOCLAIM takes is pending, idle past the threshold, in id order; below the count it is all of that kind |
| CommandGroup.Nap | ts/packages/over-redis/src/server-transport.ts:165 | the reclaim loop's sleep is the least whole number of milliseconds that is a second and a quarter of the threshold |
| HandingOut.ReadTakesOldest | ts/packages/over-redis/src/server-transport.ts:128-131 | a read hands its loop the 16 oldest entries that the group has not handed out, or all if fewer, in order, pending for its consumer from now on, and moves the mark just past them |
| HandingOut.ClaimTakesOldestIdle | ts/packages/over-redis/src/server-transport.ts:167-170 | a claim hands its loop the 32 oldest entries past its threshold, or all if fewer, as its own consumer's from now on, and moves no mark |
| HandingOut.LossIsExact | ts/packages/over-redis/src/server-transport.ts:138-146 | a crash drops the loop, an error empties it; what it held stays pending as it was |
| HandingOut.LostWorkIsClaimed | ts/packages/over-redis/src/server-transport.ts:163-174 | after the threshold the next claim of another loop takes all that a lost loop held, if no more than 32 entries are pending |
| GroupInvariants.CreateGroupKeepsInv | ts/packages/over-redis/src/server-transport.ts:81-86 | creating a group, or finding it there, keeps all invariants and takes nothing back |
| GroupInvariants.ReadKeepsInv | ts/packages/over-redis/src/server-transport.ts:128-137 | a read keeps all invariants: entries become pending in one batch only and are handed out by reading once only |
| GroupInvariants.ClaimKeepsInv | ts/packages/over-redis/src/server-transport.ts:167-174 | a claim keeps all invariants: only pending entries move, and stay pending |
| GroupInvariants.BeginKeepsInv | ts/packages/over-redis/src/server-transport.ts:190-223 | decoding the head, and invoking the dispatcher unless it is poison, dispatches each delivery at most once |
| GroupInvariants.ReturnKeepsInv | ts/packages/over-redis/src/server-transport.ts:223-224 | a returning dispatcher keeps all invariants; its reply is what the loop will append |
| GroupInvariants.AddReplyKeepsInv | ts/packages/over-redis/src/server-transport.ts:224-229 | what a server appends to a reply stream is what a dispatch returned for the entry that asked for it there |
| GroupInvariants.AckKeepsInv | ts/packages/over-redis/src/server-transport.ts:230 | acknowledging keeps delivered entries exactly the pending and the acknowledged, each acknowledgement justified |
| GroupInvariants.LoopChangeKeepsInv | ts/packages/over-redis/src/server-transport.ts:138-146 | crashing, aborting or starting loops keeps all invariants at any point of a batch |
| GroupInvariants.StepKeepsInv | ts/packages/over-redis/src/server-transport.ts:122-231 | every server step keeps every invariant, and nothing recorded is taken back |
| GroupInvariants.EntriesAreConserved | ts/packages/over-redis/src/server-transport.ts:186-231 | an entry appended after its group exists is in exactly one of undelivered, pending, acknowledged; an acknowledged one was poison or has completed a dispatch whose reply, if due, is in its reply stream |
| GroupInvariants.EarlierEntriesAreIgnored | ts/packages/over-redis/src/server-transport.ts:82 | an entry from before its group was created is never handed out |
| GroupInvariants.DispatchesAreAccounted | ts/packages/over-redis/src/server-transport.ts:122-184 | over all servers and loops an entry is dispatched at most once more than XAUTOCLAIM claimed it |
| TimedDelivery.PendingIsYoung | ts/packages/over-redis/src/server-transport.ts:126-137 | in a timely run no entry has been pending for longer than sixteen handling times |
| TimedDelivery.TimelyRunDispatchesOnce | ts/packages/over-redis/src/server-transport.ts:162-174 | below the bound nothing is ever claimed and no entry is dispatched twice |
| TimedDelivery.SecondDispatch | ts/packages/over-redis/src/server-transport.ts:162-174 | at or above the bound there is a timely run, reclaim sleep included, that dispatches the sixteenth entry of a read twice |
| TimedDelivery.DispatchedOnceExactly | ts/packages/over-redis/src/server-transport.ts:126-174 | timely runs dispatch every entry at most once if and only if 16 handling times are less than the threshold |
| InOrder.HeadIsNext | ts/packages/over-redis/src/server-transport.ts:133-137 | when the head of a service's only consumer loop is dispatched, every earlier dispatch of the service has returned |
| InOrder.TimelyRunKeepsOrder | ts/packages/over-redis/README.md:226 | below the bound the entries of a service are handed out, dispatched and finished in log order in every state |
| InOrder.InOrderExactly | ts/packages/over-redis/README.md:226 | with one consumer loop for a service, its handlers run in log order, each after the other has returned, in all timely runs if and only if 16 handling times are less than the threshold |
| ServerTransport.Transport.RegisterService | ts/packages/over-redis/src/server-transport.ts:61-63 | a service that is registered again keeps its place and gets the new dispatcher |
| ServerTransport.Transport.StartTransport | ts/packages/over-redis/src/server-transport.ts:73-94 | the n-th service reached gets its group, a consumer loop and a reclaim loop, both with the consumer name `service:instanceId`, the claim threshold and the stream length of the options; existing groups are untouched; a stopped transport refuses |
| ServerTransport.Transport.HandleEntryAmidOthers | ts/packages/over-redis/src/server-transport.ts:186-231 | with any steps of other loops at its awaits, the head ends acknowledged; unless poison it has one new dispatch by its service's dispatcher, whose reply, if due, is in the stream it names |
| ServerTransport.Transport.HandleEntry | ts/packages/over-redis/src/server-transport.ts:186-231 | with no other loop acting, nothing else changes: one entry acknowledged, at most one dispatch, at most one message, in the stream it names |
| ServerTransport.Transport.HandleBatch | ts/packages/over-redis/src/server-transport.ts:133-137 | the loop over a batch acknowledges exactly its entries and leaves the loop idle |
| ServerTransport.Transport.ConsumerPass | ts/packages/over-redis/src/server-transport.ts:126-137 | without errors a pass acknowledges exactly what it read and leaves other loops alone |
| ServerTransport.Transport.ReclaimPass | ts/packages/over-redis/src/server-transport.ts:163-174 | without errors a pass sleeps a quarter of the threshold, at least a second, and acknowledges exactly what it claimed |
| ServerTransport.Transport.RunReclaimLoop | ts/packages/over-redis/src/server-transport.ts:158-184 | with nobody else at work, n abandoned entries are gone exactly from the ceil(n/32)-th pass on |
| ServerTransport.ClaimTakesOldest | ts/packages/over-redis/src/server-transport.ts:167-170 | one claim takes the 32 oldest abandoned entries, or all of them if there are fewer |
| ServerTransport.PassDrains | ts/packages/over-redis/src/server-transport.ts:163-174 | a pass shrinks the pending list by min(32, its size), oldest first, and what remains is still abandoned |
| ServerTransport.ExecuteKeepsInv | ts/packages/over-redis/src/server-transport.ts:122-231 | whatever the transport object has done is a run of the transition system, so its invariants hold |
| Clients.MoveIsSound | py/packages/over-redis/src/clamator_over_redis/client_transport.py:51-149 | in both languages every step keeps table and cursor exact; a call opens, stays, or closes once, with a reply only from the client's own stream |
| RedisClient.ClientStepIsSound | ts/packages/over-redis/src/client-transport.ts:62-175 | every step of the TypeScript client, overlapping stops included, keeps table and cursor exact and moves calls soundly |
| RedisClient.StepMovesCalls | ts/packages/over-redis/src/client-transport.ts:69-136 | no step reaches a promise that is settled already, and replies come from the stream |
| RedisClient.SendKeepsPending | ts/packages/over-redis/src/client-transport.ts:69-74 | sending with a fresh id keeps the pending keys exactly the unsettled calls, each with one armed timer |
| RedisClient.TimerKeepsPending | ts/packages/over-redis/src/client-transport.ts:70-73 | a timeout removes key and timer and settles that call only, which was open, in one step |
| RedisClient.ResolveKeepsPending | ts/packages/over-redis/src/client-transport.ts:162-166 | a reply or a failed XADD removes key and timer in the step that settles the call, which was open; an unknown id changes nothing |
| RedisClient.StepSettlesExactly | ts/packages/over-redis/src/client-transport.ts:69-130 | a pending call times out exactly by its own timer, fails exactly by its own XADD, and is stopped exactly by a drain |
| RedisClient.TurnSettlesExactly | ts/packages/over-redis/src/client-transport.ts:149-168 | a turn of the reply loop settles a pending call exactly if it reaches a message that names it, with the first such |
| RedisClient.TurnAdvancesExactly | ts/packages/over-redis/src/client-transport.ts:149-151 | a turn moves the last id past the entries it reaches, and no further |
| RedisClient.ReadFetchesExactly | ts/packages/over-redis/src/client-transport.ts:147-148 | an XREAD returns something exactly if something after the last id is still there, and then all of it |
| RedisClient.ReplyIsDelivered | ts/packages/over-redis/src/client-transport.ts:147-166 | over a read and the turn that follows, an unread reply to a pending call is what the call resolves to, unless an earlier entry throws or answers it |
| RedisClient.EveryCallCanEnd | ts/packages/over-redis/src/client-transport.ts:70-89 | an open call can always time out, by its own timer, and its XADD can always fail |
| RedisClient.StopCanComplete | ts/packages/over-redis/src/client-transport.ts:120-138 | a `stop` on a started transport can run through: the loop ends, its read is abandoned, the table is drained, the state is stopped |
| RedisClient.UnstartedStopIsFinal | ts/packages/over-redis/src/client-transport.ts:121 | a `stop` on a transport that is not started stops it at once, for good |
| RedisClient.RejectPendingEmptiesTable | ts/packages/over-redis/src/client-transport.ts:126-130 | the loop of `stop` rejects exactly the open calls and leaves no key and no timer |
| RedisClient.EmptySinceDrainExactly | ts/packages/over-redis/src/client-transport.ts:126-130 | in every run and every state after a drain, the table is empty exactly if every call sent since is closed |
| RedisClient.StopReturnsEmptyExactly | ts/packages/over-redis/src/client-transport.ts:120-138 | when a `stop` returns the table is empty exactly if every call sent since the last drain is closed, so always if none was sent |
| RedisClient.SendDuringStopWitness | ts/packages/over-redis/src/client-transport.ts:120-138 | a run from a new client in which `stop` returns with a call pending |
| RedisClient.StoppedOnlyShrinks | ts/packages/over-redis/src/client-transport.ts:63-64 | a stopped transport stays stopped and no key comes back |
| ReplyStreams.PassBatchKeepsCursor | ts/packages/over-redis/src/client-transport.ts:149-168 | over a batch, even one cut short by a throw, every position before the cursor was taken once in order or trimmed unread |
| ReplyStreams.PassBatchIsExact | ts/packages/over-redis/src/client-transport.ts:149-170 | a turn moves the last id to the end of the batch, or to the first entry that throws |
| ReplyStreams.StreamGrowthKeepsCursor | ts/packages/over-redis/src/client-transport.ts:141-148 | appends, trims and deletion of the stream keep the cursor exact |
| RedisClient.ResolveAllClosesByReply | ts/packages/over-redis/src/client-transport.ts:161-166 | a batch changes a call only from open to the outcome of a message in the batch that names it |
| ReplyStreams.ReadKeepsCursor | ts/packages/over-redis/src/client-transport.ts:147-148 | an XREAD from the cursor, empty or not, skips nothing that is still there |
| ReplyStreams.SeenIsHeld | ts/packages/over-redis/src/client-transport.ts:149-151 | what the loop body sees of a batch is in the stream |
| RedisClient.ClientTransport.StartTransport | ts/packages/over-redis/src/client-transport.ts:106-118 | starts an idle transport once; a stopped one refuses |
| RedisClient.ClientTransport.SendCall | ts/packages/over-redis/src/client-transport.ts:62-89 | enters the call with its timer when started, refuses otherwise |
| RedisClient.ClientTransport.TimerFired | ts/packages/over-redis/src/client-transport.ts:70-73 | settles exactly the call whose timer fired |
| RedisClient.ClientTransport.SettlePending | ts/packages/over-redis/src/client-transport.ts:162-166 | a late or foreign id changes nothing; a pending one was open, and leaves the table settled |
| RedisClient.ClientTransport.AddRejected | ts/packages/over-redis/src/client-transport.ts:81-87 | a rejected XADD settles its call unless it is settled already |
| RedisClient.ClientTransport.XRead | ts/packages/over-redis/src/client-transport.ts:147-148 | fetches something exactly if an entry after the cursor is still there, from the first such to the end of the stream |
| RedisClient.ClientTransport.TakeOne | ts/packages/over-redis/src/client-transport.ts:151-166 | moves the cursor to the message and resolves at most the call it names |
| RedisClient.ClientTransport.TakeBatch | ts/packages/over-redis/src/client-transport.ts:149-168 | the for-loop is the fold over the entries up to the first that throws |
| RedisClient.ClientTransport.ProcessReplies | ts/packages/over-redis/src/client-transport.ts:149-168 | a turn of the loop keeps table and cursor exact |
| RedisClient.ClientTransport.RejectAll | ts/packages/over-redis/src/client-transport.ts:126-130 | rejecting one by one, in any order, is rejecting all at once |
| RedisClient.ClientTransport.StopBegin | ts/packages/over-redis/src/client-transport.ts:120-124 | a started transport stays started with the abort flag set, any other becomes stopped; table, timers and cursor are untouched |
| PythonClient.StepKeepsTable | py/packages/over-redis/src/clamator_over_redis/client_transport.py:51-144 | every step keeps table, futures and coroutines in agreement, whatever is in the stream |
| PythonClient.PendingIsExact | py/packages/over-redis/src/clamator_over_redis/client_transport.py:59-72 | while a caller waits, its key is in the table exactly as long as nothing has settled it; other keys belong to timed-out or cancelled callers |
| PythonClient.StepMovesSenderExactly | py/packages/over-redis/src/clamator_over_redis/client_transport.py:60-72 | which steps move a caller's coroutine; it ends exactly with the failed XADD, the timeout, or the outcome of its future |
| PythonClient.StepSettlesExactly | py/packages/over-redis/src/clamator_over_redis/client_transport.py:68-144 | a pending future gets the stop error exactly from the end of `stop`, is cancelled exactly by its timeout or its waiting caller, and is otherwise set by a reply only |
| PythonClient.TurnSettlesExactly | py/packages/over-redis/src/clamator_over_redis/client_transport.py:125-144 | a turn of the reply loop sets a pending future exactly if it reaches a message that names it, to the first such, and pops its key |
| PythonClient.TurnAdvancesExactly | py/packages/over-redis/src/clamator_over_redis/client_transport.py:125-127 | a turn moves the last id past the entries it reaches, and no further |
| PythonClient.ReadFetchesExactly | py/packages/over-redis/src/clamator_over_redis/client_transport.py:122-124 | an XREAD returns something exactly if something after the last id is still there, and then all of it |
| PythonClient.ReplyIsDelivered | py/packages/over-redis/src/clamator_over_redis/client_transport.py:122-144 | over a read and the turn that follows, an unread reply to a pending call is what its future is set to, unless an earlier entry throws or answers it |
| PythonClient.DoneFutureStays | py/packages/over-redis/src/clamator_over_redis/client_transport.py:104-144 | a future that is done stays as it is, whatever comes after |
| PythonClient.EveryCallCanEnd | py/packages/over-redis/src/clamator_over_redis/client_transport.py:60-72 | every caller has a next step: one that awaits can time out, one whose future is set gets it, and any can be cancelled |
| PythonClient.StopCanComplete | py/packages/over-redis/src/clamator_over_redis/client_transport.py:93-107 | a `stop` on a started transport refuses calls from its first moment, and can run through to an empty table |
| PythonClient.UnstartedStopIsFinal | py/packages/over-redis/src/clamator_over_redis/client_transport.py:94-96 | a `stop` on a transport that is not started stops it at once, for good |
| PythonClient.EmptyForGood | py/packages/over-redis/src/clamator_over_redis/client_transport.py:93-107 | once `stop` has cleared the table it stays empty in every continuation |
| PythonClient.LoneStopLeavesNothing | py/packages/over-redis/src/clamator_over_redis/client_transport.py:94-96 | after a `stop` on a transport that is not started, with none under way, the table is empty in every later state |
| PythonClient.OverlappingStopLeavesExactly | py/packages/over-redis/src/clamator_over_redis/client_transport.py:93-107 | a `stop` that finds another under way changes nothing; what it leaves, less what is popped meanwhile, is exactly what the other will clear |
| PythonClient.OverlappingStopWitness | py/packages/over-redis/src/clamator_over_redis/client_transport.py:94-107 | a run in which an overlapping `stop` returns with a call pending |
| PythonClient.StepMovesCalls | py/packages/over-redis/src/clamator_over_redis/client_transport.py:51-149 | no caller gets a second outcome, and a reply is one that the stream holds under the id of the call |
| PythonClient.ClientStepIsSound | py/packages/over-redis/src/clamator_over_redis/client_transport.py:51-149 | every step of the Python client keeps table, replies and cursor exact and moves calls soundly |
| PythonClient.ClientTransport.BeginSend | py/packages/over-redis/src/clamator_over_redis/client_transport.py:51-59 | enters a future when started, refuses from the first moment of `stop` on |
| PythonClient.ClientTransport.EndAdd | py/packages/over-redis/src/clamator_over_redis/client_transport.py:60-67 | a raised XADD pops the key and ends the call; otherwise the caller awaits |
| PythonClient.ClientTransport.EndSend | py/packages/over-redis/src/clamator_over_redis/client_transport.py:68-72 | the caller gets the future's outcome or the timeout, and leaves no key |
| PythonClient.ClientTransport.XRead | py/packages/over-redis/src/clamator_over_redis/client_transport.py:122-124 | fetches something exactly if an entry after the cursor is still there, from the first such to the end of the stream |
| PythonClient.ClientTransport.TakeOne | py/packages/over-redis/src/clamator_over_redis/client_transport.py:126-144 | moves the cursor; pops the future the message names and sets it unless it is done |
| PythonClient.ClientTransport.TakeBatch | py/packages/over-redis/src/clamator_over_redis/client_transport.py:125-144 | the for-loop is the fold over the entries up to the first that throws |
| PythonClient.ClientTransport.TakeReplies | py/packages/over-redis/src/clamator_over_redis/client_transport.py:118-149 | a turn of the loop keeps table, replies and cursor exact |
| PythonClient.ClientTransport.Start | py/packages/over-redis/src/clamator_over_redis/client_transport.py:85-91 | starts an idle transport once; a stopped one refuses |
| PythonClient.ClientTransport.BeginStop | py/packages/over-redis/src/clamator_over_redis/client_transport.py:93-99 | the transport is stopped before the first await, so no call enters the table any more |
| PythonClient.ClientTransport.EndStop | py/packages/over-redis/src/clamator_over_redis/client_transport.py:104-107 | every future that is not done gets the error, and the table is empty |
| Protocol.DispatcherContract | ts/packages/protocol/src/server-core.ts:38-108 | a notification is never answered; a request is answered with its id and exactly one of result and error, unless a notification-declared method succeeded |
| Protocol.HandlerRunsExactly | ts/packages/protocol/src/server-core.ts:46-67 | for requests and notifications alike, a handler runs exactly if the method is declared, its params are valid and a handler exists, and then on the validated params |
| Protocol.RefusalsAreExact | ts/packages/protocol/src/server-core.ts:41-65 | a request that no handler runs for is answered with -32601 or -32602, spelled out for each case |
| Protocol.HandlerAnswersExactly | ts/packages/protocol/src/server-core.ts:70-107 | a request that a handler ran for is answered with its validated result, its own error, or -32603, spelled out for each case |
| Protocol.RemoteCallMeansLocalCall | ts/packages/protocol/src/client-core.ts:28-43 | for all language pairs, services and JSON params the remote call gives the local outcome, save fractional error codes at a Python client |
| Protocol.DispatchEncodesLocalCall | ts/packages/protocol/src/server-core.ts:38-108 | the reply of a dispatch is the wire form of the local outcome |
| Protocol.UnwrapInvertsEncode | ts/packages/protocol/src/client-core.ts:34-42 | unwrapping inverts that wire form and the reply carries the id of the call |
| Protocol.TypeScriptClientRefusesExactly | ts/packages/protocol/src/client-core.ts:29-30 | a call is refused before anything is sent exactly if a name is outside its grammar |
| Protocol.UndeclaredMethodIsNotFound | ts/packages/protocol/src/server-core.ts:47-63 | an undeclared method answers -32601 exactly if the server is Python or the name is not inherited by every object |
| Protocol.InheritedMethodNames | ts/packages/protocol/src/server-core.ts:47 | the method names that every object inherits are those of `Object.prototype` that can be method names |
| Protocol.RpcServerCore.RegisterService | ts/packages/protocol/src/server-core.ts:26-36 | a second registration is refused and changes nothing |
| Protocol.RpcServerCore.Begin | ts/packages/protocol/src/server-core.ts:39-68 | answers at once, or adds exactly one handler run, which is the case exactly if the method is declared, its params are valid and a handler exists; the run has the validated params |
| Protocol.RpcServerCore.Finish | ts/packages/protocol/src/server-core.ts:70-107 | removes exactly that run, whatever else happened meanwhile, and gives the reply of the whole dispatch |
| Envelope.ParsersAgreeExactly | py/packages/protocol/src/clamator_protocol/envelope.py:70-126 | the two parsers give the same answer, reason included, on exactly the JSON values that are not language sensitive |
| Envelope.CallsAgreeExactly | ts/packages/protocol/src/envelope.ts:73-99 | for envelopes with a method: they differ exactly on null params, non-integer numeric ids and a trailing line feed in a segment |
| Envelope.NamesAreExact | ts/packages/protocol/src/envelope.ts:1-6 | the two name grammars, character by character |
| Envelope.AcceptedNamesAreExact | py/packages/protocol/src/clamator_protocol/envelope.py:8-13 | Python accepts the same names, and each followed by one line feed |
| Envelope.RequestIsReadExactly | ts/packages/protocol/src/envelope.ts:73-91 | exactly which JSON values are requests, and how each language reads them |
| Envelope.NotificationIsReadExactly | ts/packages/protocol/src/envelope.ts:92-98 | exactly which JSON values are notifications, and how each language reads them |
| Envelope.ResponseIsReadExactly | ts/packages/protocol/src/envelope.ts:101-119 | exactly which JSON values are responses, and how each language reads them |
| Envelope.RefusalsAreExact | ts/packages/protocol/src/envelope.ts:62-121 | for every JSON value that is refused, the reason given, in each language |
| Envelope.PartitionIsSplitAtIndex | py/packages/protocol/src/clamator_protocol/envelope.py:87 | Python's partition is TypeScript's split at the first dot |
| Envelope.ParseInvertsBuildRequest | ts/packages/protocol/src/envelope.ts:135-137 | both parsers recover service, method, params and id from a built request |
| Envelope.ParseInvertsBuildNotification | ts/packages/protocol/src/envelope.ts:139-141 | both parsers recover a built notification |
| Envelope.ParseInvertsBuildSuccess | ts/packages/protocol/src/envelope.ts:124-126 | both parsers recover a built success response exactly if it has an id |
| Envelope.ParseInvertsBuildError | ts/packages/protocol/src/envelope.ts:128-133 | both parsers recover a built error response exactly if its code is a number to them, which for Python excludes fractions |
| Envelope.RebuildKeepsRecognisedMembers | ts/packages/protocol/src/envelope.ts:86-91 | rebuilding an accepted request gives back its recognised members |
| Envelope.AcceptedMethodSplitsUniquely | ts/packages/protocol/src/envelope.ts:75-81 | a method string is accepted exactly if it splits into a valid service and method, in one way only |
| OverMemory.StepKeepsInv | ts/packages/over-memory/src/transport.ts:29-103 | every step keeps the pending keys exactly the open calls and the left-over numeric ids, each open call with one armed timer |
| OverMemory.PendingIsExact | ts/packages/over-memory/src/transport.ts:43-76 | with string ids the pending keys are exactly the unsettled calls |
| OverMemory.TimerKeepsInv | ts/packages/over-memory/src/transport.ts:44-47 | a timeout settles its call, and removes the key exactly if the id is a string |
| OverMemory.EndDispatchKeepsInv | ts/packages/over-memory/src/transport.ts:50-74 | a settled dispatch removes key and timer; a call that is still open gets the reply, or the error that stands for a null or a throw |
| OverMemory.StepSettlesExactly | ts/packages/over-memory/src/transport.ts:44-103 | an open call is settled exactly by its timer, its dispatch or `stop` |
| OverMemory.EveryCallCanEnd | ts/packages/over-memory/src/transport.ts:44-74 | an open call can always be settled by its own timer, and by its dispatch |
| OverMemory.SettlesAgainExactly | ts/packages/over-memory/src/transport.ts:44-74 | a step reaches a promise that is settled already exactly where a numeric id timed out before its dispatch settled |
| OverMemory.RunsRefineCallTable | ts/packages/over-memory/src/transport.ts:29-103 | every run refines the call table, as the runs over Redis do |
| OverMemory.RepliesAreOwn | ts/packages/over-memory/src/transport.ts:50-61 | a reply is what the dispatcher looked up for the call made of the call's own envelope |
| OverMemory.EmptyForGood | ts/packages/over-memory/src/transport.ts:94-103 | once stopped, table and timers stay empty in every continuation |
| OverMemory.MemoryBus.Register | ts/packages/over-memory/src/bus.ts:6-10 | registers exactly if the service is free; otherwise nothing changes |
| OverMemory.MemoryBus.Unregister | ts/packages/over-memory/src/bus.ts:12-14 | removes that service only |
| OverMemory.MemoryTransport.constructor | ts/packages/over-memory/src/transport.ts:18-22 | a new transport owns nothing and joins the bus without disturbing it |
| OverMemory.MemoryTransport.RegisterService | ts/packages/over-memory/src/transport.ts:24-27 | succeeds exactly if no transport on the bus owns the service; a rejected registration changes nothing; ownership stays disjoint and complete |
| OverMemory.MemoryTransport.SendCall | ts/packages/over-memory/src/transport.ts:29-50 | refuses, answers "method not found" at once without an entry, or enters the call with the dispatcher the bus holds |
| OverMemory.MemoryTransport.Enlist | ts/packages/over-memory/src/transport.ts:43-50 | arms the timer, enters the key and queues the dispatch in one step |
| OverMemory.MemoryTransport.TimerFired | ts/packages/over-memory/src/transport.ts:44-47 | settles the call whose timer fired |
| OverMemory.MemoryTransport.DispatchSettled | ts/packages/over-memory/src/transport.ts:51-73 | a reply resolves the open call, null and a throw reject it, each in the step that removes it |
| OverMemory.MemoryTransport.Notify | ts/packages/over-memory/src/transport.ts:78-87 | drops a notification silently exactly if nobody owns the service, and never touches the table |
| OverMemory.MemoryTransport.Start | ts/packages/over-memory/src/transport.ts:89-92 | starts unless stopped, which is final |
| OverMemory.MemoryTransport.Stop | ts/packages/over-memory/src/transport.ts:94-103 | empties the table and takes exactly its own services off the bus |
| Keys.CommandStreamsAreSeparate | ts/packages/over-redis/src/keys.ts:1-3 | command streams are equal only for equal prefixes and services |
| Keys.ReplyStreamsAreSeparate | ts/packages/over-redis/src/keys.ts:5-7 | with colon-free instance ids reply streams are equal only for equal prefixes and ids |
| Keys.ReplyStreamsOfOneDeployment | ts/packages/over-redis/src/keys.ts:5-7 | within one prefix reply streams differ whatever the ids hold |
| Keys.CommandMeetsReplyExactly | ts/packages/over-redis/src/keys.ts:1-7 | a command stream is a reply stream exactly if the instance id spells out the rest of its name |
| Keys.CommandAndReplyStreamsAreDisjoint | ts/packages/over-redis/src/keys.ts:1-7 | they never meet with equal prefixes, nor with colon-free ids |
| Keys.ColonInInstanceIdCollides | ts/packages/over-redis/src/keys.ts:1-7 | a colliding pair across deployments |
| Keys.ConsumersAreDistinct | ts/packages/over-redis/src/keys.ts:13-15 | distinct servers are distinct consumers of a service |
| CaseConversion.PassesAreOneScan | ts/packages/codegen/src/case.ts:1-10 | the three global replacements and the lower-casing are one left-to-right scan |
| CaseConversion.HandlerNameIsSpelled | ts/packages/codegen/src/case.ts:1-10 | the handler name of every method, character by character: which capitals get a break |
| CaseConversion.WayBackIsSpelled | ts/packages/codegen/src/case.ts:12-14 | the way back on any text, character by character |
| CaseConversion.RoundTripExactly | ts/packages/codegen/src/case.ts:1-14 | a method name survives the round trip exactly if its runs of capitals are short |
| CaseConversion.ShortRunsByLength | ts/packages/codegen/src/case.ts:1-10 | short means: every maximal run has length at most 2, or 3 before a lower-case letter |
| CaseConversion.RoundTripIsRepresentative | ts/packages/codegen/src/case.ts:1-14 | each handler name belongs to exactly one name with short runs, which is the round trip |
| CaseConversion.HandlerNamesCollideExactly | ts/packages/codegen/src/case.ts:1-14 | two methods share a handler name exactly if their round trips meet |
| CaseConversion.ShortRunsNeverCollide | ts/packages/codegen/src/case.ts:1-14 | within the class names never collide; every name outside collides with one inside |
| CaseConversion.LongRunCollides | ts/packages/codegen/src/case.ts:1-10 | `aBCD` and `aBCd` share a handler name |
| WorkerPool.RunWithLimit | tests/interop/lib/runner.ts:572-589 | for every interleaving: claims are 0, 1, 2, ... each once, results are in order, and what the runners hold is a pool trace |
| WorkerPool.NeverMoreThanWorkers | tests/interop/lib/runner.ts:586-587 | in a pool trace at most the number of workers, and of items, is being worked on |
| WorkerPool.OneRunnerPerIndex | tests/interop/lib/runner.ts:579-585 | no index is ever in the hands of two runners, at whatever times |
| WorkerPool.Resume | tests/interop/lib/runner.ts:580-584 | storing and claiming next keeps every index unclaimed, held once, or settled with its own value |
| Canonicaliser.RemoveBlocks | scripts/check-readme-verbatim.mjs:58-68 | the inner loop ends and cuts block comments until none opens |
| Canonicaliser.StripLine | scripts/check-readme-verbatim.mjs:46-81 | one line of the outer loop, with the block state in and out |
| Canonicaliser.PlainLineIsCutExactly | scripts/check-readme-verbatim.mjs:69-80 | a line without block comments is cut at the first `//` exactly if an even number of unescaped quotes of each kind is before it |
| Canonicaliser.ClosedBlockIsTakenOut | scripts/check-readme-verbatim.mjs:58-68 | a line with a closed block comment is treated as the line without it |
| Canonicaliser.OpenBlockTakesTheRest | scripts/check-readme-verbatim.mjs:61-65 | an unclosed block comment takes the rest of the line, and the next line starts inside it |
| Canonicaliser.BlockEndsAtFirstClose | scripts/check-readme-verbatim.mjs:48-56 | a line that starts inside a block comment starts after its first close, or is empty |
| Canonicaliser.LinesAreChained | scripts/check-readme-verbatim.mjs:45-81 | each line is stripped in the block state in which the one before it ended |
| Canonicaliser.PythonLineIsCutExactly | scripts/check-readme-verbatim.mjs:35-43 | a Python line is cut at the first hash sign that starts a comment |
| Canonicaliser.SpacesAreListed | scripts/check-readme-verbatim.mjs:41 | the twenty-five characters that `\s` matches |
| Canonicaliser.StripComments | scripts/check-readme-verbatim.mjs:32-86 | the loops compute the specification for every language tag |
| Canonicaliser.CollapseBlanks | scripts/check-readme-verbatim.mjs:91-99 | the loop keeps the first of each run of blank lines |
| Canonicaliser.DropBlankEnds | scripts/check-readme-verbatim.mjs:100-102 | the two loops drop the blank lines at both ends |
| Canonicaliser.NormalizeWhitespace | scripts/check-readme-verbatim.mjs:88-104 | the loops compute the specification of normalisation |
| Canonicaliser.NormalLinesAreKept | scripts/check-readme-verbatim.mjs:88-104 | normalising keeps, in order, the trimmed lines with text and one blank line of each run between two of them, and nothing else |
| Canonicaliser.BlockStateIsCarried | scripts/check-readme-verbatim.mjs:45-81 | stripping a text is stripping its parts with the block state handed on, line by line |
| Canonicaliser.CutBlocksIsFree | scripts/check-readme-verbatim.mjs:58-68 | no opener is left on a cut line, not even a spliced one |
| Canonicaliser.RemovalSplicesOpener | scripts/check-readme-verbatim.mjs:67 | a line on which removing one comment creates another opener |
| Canonicaliser.NormalisingTwiceIsOnce | scripts/check-readme-verbatim.mjs:88-104 | normalising is idempotent |
| Canonicaliser.CanonicalTwiceIsOnce | scripts/check-readme-verbatim.mjs:44-86 | strip and normalise is idempotent for TypeScript and for unrecognised languages |
| Canonicaliser.PythonTwiceIsOnceExactly | scripts/check-readme-verbatim.mjs:35-43 | for Python it is idempotent exactly on texts in which no line hides a comment behind a trimmed terminator |
| Canonicaliser.CarriageReturnHidesComment | scripts/check-readme-verbatim.mjs:41 | a comment that ends in a carriage return is hidden |

## Left out

- Redis sockets, connection ownership, blocking reads and back-off: foreign I/O; only the stream commands above are modelled.
- Zod, Pydantic and generated code: a schema is any function; an exception other than a validation failure inside a Python schema is not modelled.
- Start and stop of the server and client cores: they forward to the transport; the drain loop of the server core only waits for the in-flight set modelled here or for its deadline.
- The server transport's `stop`: its loops end like crashed ones, or live on as further loops after the grace period.
- A missing dispatcher in `handleEntry`: loops exist only for services that have a dispatcher, which is never removed.
- The Python in-memory transport: the counterpart of the one modelled, with futures instead of timers.
- Python futures as shared objects: since call ids are fresh, a future is a value kept with its call; the table is the set of its keys.
- Entries deleted from a command stream while pending: the code never trims command streams.
- Fairness of Redis and of the event loops: not decided by this code.
- JSON text, UUIDs, logging, environment variables, number formatting of ids.
- Code generation other than the case conversion, the command line, release and interop process plumbing.
- What other runners of the worker pool still do after one worker has thrown, when the pool's promise has already failed.
- ServerTransport.Transport.HandleEntry: states what one loop does when no other loop acts meanwhile; with others acting it is HandleEntryAmidOthers.
- ServerTransport.Transport.ConsumerPass: a pass without other loops acting, as is ReclaimPass; interleaved passes are runs of the transition system.
- ServerTransport.Transport.RunReclaimLoop: runs for a given number of passes, because the moment at which the abort flag is seen is not decided by the loop.
