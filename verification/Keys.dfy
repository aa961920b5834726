/** Stream and consumer names, and when two of them can be the same Redis key. */
module Keys {
  import opened Envelope

  const CMDS: string := ":cmds:"
  const REPLIES: string := ":replies:"

  function CommandStream(prefix: string, service: string): string {
    prefix + CMDS + service
  }

  function ReplyStream(prefix: string, instanceId: string): string {
    prefix + REPLIES + instanceId
  }

  function ConsumerName(service: string, instanceId: string): string {
    service + ":" + instanceId
  }

  /** Text after the last colon is determined by the whole. */
  lemma TextAfterLastColon(a: string, x: string, b: string, y: string)
    requires a + ":" + x == b + ":" + y
    requires ':' !in x && ':' !in y
    ensures a == b && x == y
  {
    var s, t := a + ":" + x, b + ":" + y;
    assert s[|a|] == ':' && t[|b|] == ':';
    assert forall k | |a| < k < |s| :: s[k] == x[k - |a| - 1];
    assert forall k | |b| < k < |t| :: t[k] == y[k - |b| - 1];
    assert |a| <= |b|;
    assert a == s[..|a|] && b == t[..|b|];
    assert x == s[|a| + 1..] && y == t[|b| + 1..];
  }

  /** No two deployments or services share a command stream. */
  lemma CommandStreamsAreSeparate(p: string, service: string, q: string, other: string)
    requires IsService(service) && IsService(other)
    ensures CommandStream(p, service) == CommandStream(q, other) <==> p == q && service == other
  {
    ServiceChars(service);
    ServiceChars(other);
    if CommandStream(p, service) == CommandStream(q, other) {
      assert CommandStream(p, service) == (p + ":cmds") + ":" + service;
      assert CommandStream(q, other) == (q + ":cmds") + ":" + other;
      TextAfterLastColon(p + ":cmds", service, q + ":cmds", other);
      assert p == (p + ":cmds")[..|p|] && q == (q + ":cmds")[..|q|];
    }
  }

  /** No two deployments or clients share a reply stream, given colon-free instance ids. */
  lemma ReplyStreamsAreSeparate(p: string, i: string, q: string, j: string)
    requires ':' !in i && ':' !in j
    ensures ReplyStream(p, i) == ReplyStream(q, j) <==> p == q && i == j
  {
    if ReplyStream(p, i) == ReplyStream(q, j) {
      assert ReplyStream(p, i) == (p + ":replies") + ":" + i;
      assert ReplyStream(q, j) == (q + ":replies") + ":" + j;
      TextAfterLastColon(p + ":replies", i, q + ":replies", j);
      assert p == (p + ":replies")[..|p|] && q == (q + ":replies")[..|q|];
    }
  }

  /** Within one deployment the reply streams of distinct clients differ whatever the ids hold. */
  lemma ReplyStreamsOfOneDeployment(p: string, i: string, j: string)
    ensures ReplyStream(p, i) == ReplyStream(p, j) <==> i == j
  {
    assert i == ReplyStream(p, i)[|p| + 9..] && j == ReplyStream(p, j)[|p| + 9..];
  }

  /** The instance id continues the reply stream of `q` into the command stream of `p`. */
  ghost predicate InstanceForgesCommands(p: string, service: string, q: string, instanceId: string) {
    exists middle: string :: p == q + ":replies" + middle && ":" + instanceId == middle + CMDS + service
  }

  /** Where they meet, the reply stream's own text ends inside the prefix of the command stream. */
  lemma MeetingIsLonger(p: string, service: string, q: string, instanceId: string)
    requires IsService(service) && CommandStream(p, service) == ReplyStream(q, instanceId)
    ensures |q| + 8 <= |p|
  {
    var c, r := CommandStream(p, service), ReplyStream(q, instanceId);
    ServiceChars(service);
    // The last colon of `c` stands just before the service.
    assert forall k | |p| + 6 <= k < |c| :: c[k] == service[k - |p| - 6];
    assert r[|q| + 8] == ':';
    assert |q| + 3 <= |p|;
    assert c[|p|] == ':';
    assert forall k | |q| + 3 <= k < |q| + 8 :: r[k] == REPLIES[k - |q|] != ':';
  }

  lemma MeetingIsForged(p: string, service: string, q: string, instanceId: string)
    requires IsService(service) && CommandStream(p, service) == ReplyStream(q, instanceId)
    ensures InstanceForgesCommands(p, service, q, instanceId)
  {
    var c, r := CommandStream(p, service), ReplyStream(q, instanceId);
    MeetingIsLonger(p, service, q, instanceId);
    var middle := p[|q| + 8..];
    assert r == (q + ":replies") + (":" + instanceId);
    assert p == c[..|p|];
    assert p[..|q| + 8] == r[..|q| + 8] == q + ":replies";
    assert p == q + ":replies" + middle;
    assert c == (q + ":replies") + (middle + CMDS + service);
    assert ":" + instanceId == r[|q| + 8..] == c[|q| + 8..] == middle + CMDS + service;
  }

  /**
   * Over all prefixes, a command stream is a reply stream exactly when the instance id spells out
   * the rest of the command stream's name.
   */
  lemma CommandMeetsReplyExactly(p: string, service: string, q: string, instanceId: string)
    requires IsService(service)
    ensures CommandStream(p, service) == ReplyStream(q, instanceId)
            <==> InstanceForgesCommands(p, service, q, instanceId)
  {
    if CommandStream(p, service) == ReplyStream(q, instanceId) {
      MeetingIsForged(p, service, q, instanceId);
    }
    if InstanceForgesCommands(p, service, q, instanceId) {
      var middle :| p == q + ":replies" + middle && ":" + instanceId == middle + CMDS + service;
      assert CommandStream(p, service) == (q + ":replies") + (middle + CMDS + service);
      assert ReplyStream(q, instanceId) == (q + ":replies") + (":" + instanceId);
    }
  }

  /** So the two never meet within one deployment, nor when instance ids hold no colon. */
  lemma CommandAndReplyStreamsAreDisjoint(p: string, service: string, q: string, instanceId: string)
    requires IsService(service)
    requires p == q || ':' !in instanceId
    ensures CommandStream(p, service) != ReplyStream(q, instanceId)
  {
    CommandMeetsReplyExactly(p, service, q, instanceId);
    var colonId := ":" + instanceId;
    assert forall k | 1 <= k < |colonId| :: colonId[k] == instanceId[k - 1];
    forall middle: string
      ensures (middle + CMDS + service)[|middle| + 5] == ':'
    {
      assert (middle + CMDS + service)[|middle| + 5] == CMDS[5];
    }
  }

  /** With a colon in the id the separation can fail across deployments. */
  lemma ColonInInstanceIdCollides()
    ensures CommandStream("a:replies:x", "b") == ReplyStream("a", "x:cmds:b")
  {
  }

  /** Within one service, consumers of distinct servers have distinct names. */
  lemma ConsumersAreDistinct(service: string, i: string, j: string)
    ensures ConsumerName(service, i) == ConsumerName(service, j) <==> i == j
  {
    assert i == ConsumerName(service, i)[|service| + 1..] && j == ConsumerName(service, j)[|service| + 1..];
  }
}
