/**
 * Reply streams, which servers append to and trim, and the cursor with which the reply loop of a client
 * of either language moves over its own stream.
 */
module ReplyStreams {
  import opened Wrappers
  import opened JsonValues
  import opened CallTable

  /**
   * One entry of a reply stream. `Skipped` has no envelope, no JSON or no id of a call; `Throwing` is a
   * JSON text on which reading the id throws. `origin` numbers the dispatch that answered.
   */
  datatype Item = Skipped | Throwing | Message(id: string, outcome: Json, origin: nat)

  /** All entries ever appended; those before `trimmed` are gone. A position stands for a stream id. */
  datatype ReplyStream = ReplyStream(items: seq<Item>, trimmed: nat)

  const NO_REPLIES: ReplyStream := ReplyStream([], 0)

  /** MAXLEN ~ maxLen may drop old entries but keeps at least the newest `maxLen`. */
  predicate MayTrim(s: ReplyStream, maxLen: nat, trimTo: nat) {
    trimTo <= s.trimmed || trimTo + maxLen <= |s.items| + 1
  }

  function Append(s: ReplyStream, item: Item, trimTo: nat): ReplyStream {
    ReplyStream(s.items + [item], if trimTo < s.trimmed then s.trimmed else trimTo)
  }

  predicate ValidStream(s: ReplyStream) {
    s.trimmed <= |s.items|
  }

  /** A message with this outcome for this call was appended. */
  ghost predicate Holds(s: ReplyStream, id: string, outcome: Json) {
    exists p :: 0 <= p < |s.items| && s.items[p].Message? && s.items[p].id == id && s.items[p].outcome == outcome
  }

  ghost predicate CallMoves(before: map<string, CallState>, after: map<string, CallState>, s: ReplyStream, id: string)
    requires id in after
  {
    if id !in before then after[id].Open?
    else
      after[id] == before[id]
      || (before[id].Open? && (after[id].how.Replied? ==> Holds(s, id, after[id].how.outcome)))
  }

  /**
   * What one step of a client may do to its calls: those it sends appear open, a closed one stays as it
   * is, and an open one may close, with a reply only if the stream holds it.
   */
  ghost predicate CallsMove(before: map<string, CallState>, after: map<string, CallState>, s: ReplyStream, sent: set<string>) {
    && after.Keys == before.Keys + sent
    && forall id | id in after :: CallMoves(before, after, s, id)
  }

  // ---------------------------------------------------------------------------------------
  // The cursor.
  // ---------------------------------------------------------------------------------------

  /** The result of an XREAD that the loop has not processed yet. */
  datatype Fetch = Fetch(start: nat, items: seq<Item>)

  /** `next` is one past the last id read; `taken` and `lost` record what became of the positions before it. */
  datatype Cursor = Cursor(next: nat, fetched: Option<Fetch>, taken: seq<nat>, lost: set<nat>)

  const AT_START: Cursor := Cursor(0, None, [], {})

  /** XREAD from the last id: everything after it that is still there. */
  function Readable(c: Cursor, s: ReplyStream): Option<Fetch> {
    var from := if c.next < s.trimmed then s.trimmed else c.next;
    if from < |s.items| then Some(Fetch(from, s.items[from..])) else None
  }

  /** Not passed yet, and still there. */
  predicate Unread(c: Cursor, s: ReplyStream, p: nat) {
    c.next <= p && s.trimmed <= p && p < |s.items|
  }

  /** The positions from `a` up to `b`. */
  function Positions(a: nat, b: nat): (r: set<nat>)
    ensures forall p: nat :: p in r <==> a <= p < b
    decreases b - a
  {
    if a < b then {a} + Positions(a + 1, b) else {}
  }

  /** The last id is set to this entry. */
  function Pass(c: Cursor, position: nat): Cursor {
    c.(next := position + 1, taken := c.taken + [position], lost := c.lost + Positions(c.next, position))
  }

  function PassAll(c: Cursor, position: nat, count: nat): Cursor
    decreases count
  {
    if count == 0 then c else PassAll(Pass(c, position), position + 1, count - 1)
  }

  /** What the body of the for-loop sees of one XREAD result: a throw ends the loop. */
  function Seen(items: seq<Item>): (r: seq<Item>)
    ensures r <= items
  {
    if items == [] then []
    else if items[0].Throwing? then [items[0]]
    else
      assert items == [items[0]] + items[1..];
      [items[0]] + Seen(items[1..])
  }

  /** The cursor after the for-loop over one XREAD result. */
  function PassBatch(c: Cursor): Cursor
    requires c.fetched.Some?
  {
    PassAll(c, c.fetched.value.start, |Seen(c.fetched.value.items)|).(fetched := None)
  }

  /** The calls that some entries name. */
  function IdsOf(items: seq<Item>): set<string> {
    set item | item in items && item.Message? :: item.id
  }

  predicate Names(item: Item, id: string) {
    item.Message? && item.id == id
  }

  /** The for-loop comes as far as entry `k`. */
  predicate Reached(items: seq<Item>, k: nat) {
    k < |items| && forall j | 0 <= j < k :: !items[j].Throwing?
  }

  /** Entry `k` is the first that names the call. */
  predicate FirstNaming(items: seq<Item>, k: nat, id: string) {
    k < |items| && Names(items[k], id) && forall j | 0 <= j < k :: !Names(items[j], id)
  }

  /** What was fetched lies at or after the cursor, and whatever it skips was trimmed. */
  ghost predicate FetchInv(c: Cursor, s: ReplyStream) {
    c.fetched.Some? ==>
      var f := c.fetched.value;
      && f.items != [] && c.next <= f.start && f.start + |f.items| <= |s.items|
      && s.items[f.start..f.start + |f.items|] == f.items
      && (c.next < f.start ==> f.start <= s.trimmed)
  }

  /** Every position before the cursor was taken exactly once, in order, or trimmed before it was read. */
  ghost predicate CursorInv(c: Cursor, s: ReplyStream) {
    && ValidStream(s)
    && c.next <= |s.items|
    && (forall i, j | 0 <= i < j < |c.taken| :: c.taken[i] < c.taken[j])
    && (forall i | 0 <= i < |c.taken| :: c.taken[i] < c.next && c.taken[i] !in c.lost)
    && (forall p: nat | p < c.next :: p in c.taken || p in c.lost)
    && (forall p | p in c.lost :: p < c.next && p < s.trimmed)
    && FetchInv(c, s)
  }

  /** A read returns everything unread, and nothing only if nothing is. */
  lemma ReadIsExact(c: Cursor, s: ReplyStream)
    ensures Readable(c, s).Some? <==> exists p: nat :: Unread(c, s, p)
    ensures Readable(c, s).Some? ==>
              var f := Readable(c, s).value;
              && Unread(c, s, f.start) && f.items == s.items[f.start..]
              && forall p: nat | Unread(c, s, p) :: f.start <= p
  {
    var from := if c.next < s.trimmed then s.trimmed else c.next;
    assert from < |s.items| ==> Unread(c, s, from);
  }

  lemma ReadKeepsCursor(c: Cursor, s: ReplyStream)
    requires CursorInv(c, s) && c.fetched.None?
    ensures CursorInv(c.(fetched := Readable(c, s)), s)
  {
  }

  /** Appending, with or without trimming, and deleting the stream keep the cursor exact. */
  lemma StreamGrowthKeepsCursor(c: Cursor, s: ReplyStream, t: ReplyStream)
    requires CursorInv(c, s) && s.items <= t.items && s.trimmed <= t.trimmed <= |t.items|
    ensures CursorInv(c, t)
  {
    if c.fetched.Some? {
      var f := c.fetched.value;
      assert t.items[f.start..f.start + |f.items|] == s.items[f.start..f.start + |f.items|];
    }
  }

  /** One entry: the cursor moves past it, and what it skips was trimmed. */
  lemma PassKeepsCursor(c: Cursor, position: nat, s: ReplyStream)
    requires CursorInv(c, s) && c.fetched.None?
    requires c.next <= position < |s.items| && (c.next < position ==> position <= s.trimmed)
    ensures CursorInv(Pass(c, position), s)
  {
    var next := Pass(c, position);
    assert next.taken == c.taken + [position];
    assert forall p: nat | c.next <= p < position :: p in next.lost;
    assert forall p: nat | p < c.next && p in c.taken :: p in next.taken;
    assert next.taken[|c.taken|] == position;
  }

  lemma {:induction false} PassAllKeepsCursor(c: Cursor, position: nat, count: nat, s: ReplyStream)
    requires CursorInv(c, s) && c.fetched.None?
    requires c.next <= position && position + count <= |s.items| && (c.next < position ==> position <= s.trimmed)
    ensures CursorInv(PassAll(c, position, count), s) && PassAll(c, position, count).fetched.None?
    decreases count
  {
    if count > 0 {
      PassKeepsCursor(c, position, s);
      PassAllKeepsCursor(Pass(c, position), position + 1, count - 1, s);
    }
  }

  /** What `fetched` holds does not matter to the moves. */
  lemma {:induction false} PassAllIgnoresFetched(c: Cursor, position: nat, count: nat)
    ensures PassAll(c, position, count).(fetched := None) == PassAll(c.(fetched := None), position, count)
    decreases count
  {
    if count > 0 {
      assert Pass(c, position).(fetched := None) == Pass(c.(fetched := None), position);
      PassAllIgnoresFetched(Pass(c, position), position + 1, count - 1);
    }
  }

  /** A batch keeps the cursor exact, even when a throw cuts it short. */
  lemma PassBatchKeepsCursor(c: Cursor, s: ReplyStream)
    requires CursorInv(c, s) && c.fetched.Some?
    ensures CursorInv(PassBatch(c), s)
  {
    var f := c.fetched.value;
    PassAllIgnoresFetched(c, f.start, |Seen(f.items)|);
    PassAllKeepsCursor(c.(fetched := None), f.start, |Seen(f.items)|, s);
  }

  /** What the loop body sees are the entries that the loop reaches. */
  lemma {:induction false} SeenIsReached(items: seq<Item>, k: nat)
    ensures k < |Seen(items)| <==> Reached(items, k)
    ensures k < |Seen(items)| ==> Seen(items)[k] == items[k]
    decreases k
  {
    if items != [] && !items[0].Throwing? && k > 0 {
      SeenIsReached(items[1..], k - 1);
      assert Reached(items[1..], k - 1) ==> forall j | 1 <= j < k :: items[j] == items[1..][j - 1];
      assert Reached(items, k) ==> forall j | 0 <= j < k - 1 :: items[1..][j] == items[j + 1];
    }
  }

  lemma {:induction false} FirstOf(items: seq<Item>, id: string) returns (k: nat)
    requires exists j | 0 <= j < |items| :: Names(items[j], id)
    ensures FirstNaming(items, k, id)
  {
    if Names(items[0], id) {
      k := 0;
    } else {
      var j :| 0 <= j < |items| && Names(items[j], id);
      assert items[1..][j - 1] == items[j];
      k := FirstOf(items[1..], id);
      k := k + 1;
    }
  }

  lemma SeenNamesReached(items: seq<Item>, id: string)
    ensures (forall k | 0 <= k < |Seen(items)| :: !Names(Seen(items)[k], id))
            <==> (forall k: nat | Reached(items, k) :: !Names(items[k], id))
    ensures forall k: nat | Reached(items, k) && FirstNaming(items, k, id) ::
              FirstNaming(Seen(items), k, id) && Seen(items)[k] == items[k]
  {
    var seen := Seen(items);
    forall k: nat
      ensures k < |seen| <==> Reached(items, k)
      ensures k < |seen| ==> seen[k] == items[k]
    {
      SeenIsReached(items, k);
    }
  }

  lemma {:induction false} PassAllAdvances(c: Cursor, position: nat, count: nat)
    ensures PassAll(c, position, count).next == if count == 0 then c.next else position + count
    decreases count
  {
    if count > 0 { PassAllAdvances(Pass(c, position), position + 1, count - 1); }
  }

  /** A turn of the loop moves the cursor past the entries it reaches, and no further. */
  lemma PassBatchIsExact(c: Cursor, s: ReplyStream, k: nat)
    requires CursorInv(c, s) && c.fetched.Some?
    ensures PassBatch(c).fetched.None?
    ensures var f := c.fetched.value;
            f.start + k < PassBatch(c).next <==> Reached(f.items, k)
  {
    var f := c.fetched.value;
    PassAllAdvances(c, f.start, |Seen(f.items)|);
    SeenIsReached(f.items, k);
    SeenIsReached(f.items, 0);
  }

  /** Trimming may go as far as it leaves `maxLen` entries, the new one included, and no further. */
  lemma TrimsExactly(s: ReplyStream, item: Item, maxLen: nat, trimTo: nat)
    ensures var t := Append(s, item, trimTo);
            MayTrim(s, maxLen, trimTo) <==> t.trimmed == s.trimmed || t.trimmed + maxLen <= |t.items|
  {
  }

  /**
   * Trimming spares the newest `maxLen` entries, the new one among them: a reader that is not further
   * behind misses nothing.
   */
  lemma NewestStay(c: Cursor, s: ReplyStream, item: Item, maxLen: nat, trimTo: nat)
    requires ValidStream(s) && MayTrim(s, maxLen, trimTo) && c.next <= |s.items|
    ensures var t := Append(s, item, trimTo);
            && t.items == s.items + [item] && s.trimmed <= t.trimmed
            && (maxLen > 0 ==> ValidStream(t) && Unread(c, t, |s.items|))
            && forall p: nat | Unread(c, s, p) && |t.items| <= p + maxLen :: Unread(c, t, p)
  {
  }

  /** What the loop body sees is in the stream. */
  lemma SeenIsHeld(c: Cursor, s: ReplyStream, item: Item)
    requires CursorInv(c, s) && c.fetched.Some? && item in Seen(c.fetched.value.items) && item.Message?
    ensures Holds(s, item.id, item.outcome)
  {
    var f := c.fetched.value;
    var k :| 0 <= k < |Seen(f.items)| && Seen(f.items)[k] == item;
    assert s.items[f.start..f.start + |f.items|][k] == s.items[f.start + k] == item;
  }
}
