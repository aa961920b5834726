/**
 * The simple form that the transports refine: a table of calls, each open until it is closed once,
 * and the set of reply outcomes that dispatches have produced for them.
 */
module CallTable {
  import opened JsonValues

  /** Every transport starts idle, and stopping it is final. */
  datatype Lifecycle = Idle | Started | Stopped

  datatype Settlement =
    | Replied(outcome: Json)
    | TimedOut
    | AddFailed
    | TransportStopped
    | Unanswered          // the dispatcher answered a request with null
    | DispatchFailed      // the dispatcher threw

  datatype CallState = Open | Closed(how: Settlement)

  datatype Table = Table(calls: map<string, CallState>, produced: set<(string, Json)>)

  const EMPTY: Table := Table(map[], {})

  /** A call may appear open, stay, or close; it closes with a reply only if one was produced for it. */
  predicate CallNext(t: Table, u: Table, id: string)
    requires id in u.calls
  {
    if id !in t.calls then u.calls[id].Open?
    else if t.calls[id].Closed? then u.calls[id] == t.calls[id]
    else u.calls[id].Closed? && u.calls[id].how.Replied? ==> (id, u.calls[id].how.outcome) in t.produced
  }

  ghost predicate Next(t: Table, u: Table) {
    && t.produced <= u.produced
    && t.calls.Keys <= u.calls.Keys
    && forall id | id in u.calls :: CallNext(t, u, id)
  }

  ghost predicate Behaviour(ts: seq<Table>) {
    && |ts| > 0 && ts[0] == EMPTY
    && forall i | 0 < i < |ts| :: Next(ts[i - 1], ts[i])
  }

  /** What a run of a system looks like from the callers' side. */
  ghost function Views<S>(states: seq<S>, view: S -> Table): (tables: seq<Table>)
    ensures |tables| == |states| && forall i | 0 <= i < |states| :: tables[i] == view(states[i])
  {
    if states == [] then [] else [view(states[0])] + Views(states[1..], view)
  }

  /** A call leaves the open state at most once, whatever happens later. */
  lemma {:induction false} ClosedForGood(ts: seq<Table>, i: nat, j: nat, id: string)
    requires Behaviour(ts) && i <= j < |ts|
    requires id in ts[i].calls && ts[i].calls[id].Closed?
    ensures id in ts[j].calls && ts[j].calls[id] == ts[i].calls[id]
    decreases j
  {
    if i < j {
      ClosedForGood(ts, i, j - 1, id);
      assert Next(ts[j - 1], ts[j]);
      assert id in ts[j].calls && CallNext(ts[j - 1], ts[j], id);
    }
  }

  /** Every reply a caller sees was produced for that very call while the call was open. */
  lemma {:induction false} RepliesWereProduced(ts: seq<Table>, j: nat, id: string) returns (i: nat)
    requires Behaviour(ts) && j < |ts|
    requires id in ts[j].calls && ts[j].calls[id].Closed? && ts[j].calls[id].how.Replied?
    ensures i < j && id in ts[i].calls && ts[i].calls[id].Open?
    ensures (id, ts[j].calls[id].how.outcome) in ts[i].produced
    decreases j
  {
    assert j > 0;
    assert Next(ts[j - 1], ts[j]) && CallNext(ts[j - 1], ts[j], id);
    if ts[j - 1].calls[id].Open? {
      i := j - 1;
    } else {
      i := RepliesWereProduced(ts, j - 1, id);
    }
  }
}
