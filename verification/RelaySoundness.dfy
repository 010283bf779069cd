/** What the relay may send, and that its handlers can always finish
    (backend/internal/relay/relay.go). */
module RelaySoundness {
  import opened OfflineQueue
  import opened Hub
  import opened Relay
  import Connections

  /** The envelope is entry `i` of its conversation, readdressed to `user`, who may read it. */
  predicate AsLogged(n: Node, env: Envelope, user: string, i: nat) {
    && i < |ListOf(n.log, env.conversation)|
    && env == ListOf(n.log, env.conversation)[i].(to := user)
    && IsMember(n, user, env.conversation)
  }

  predicate Sourced(n: Node, env: Envelope, user: string) {
    env.kind == "message" ==> exists i: nat | i < |ListOf(n.log, env.conversation)| :: AsLogged(n, env, user, i)
  }

  ghost predicate LogSound(n: Node) {
    forall p: Position :: p.index < |ListOf(n.log, p.conversation)| ==>
      && Log(n, p).kind == "message"
      && Log(n, p).conversation == p.conversation
      && IsMember(n, Log(n, p).sender, p.conversation)
  }

  predicate FanSound(n: Node, at: Position)
    requires at in n.fans
  {
    var f := n.fans[at];
    && at.index < |ListOf(n.log, at.conversation)|
    && (forall u <- f.todo :: IsMember(n, u, at.conversation))
    && (f.snapshot != [] ==> IsMember(n, f.member, at.conversation))
    && (forall k <- f.snapshot :: k in n.links && n.links[k].owner == f.member)
  }

  predicate PutSound(n: Node, k: ConnId)
    requires k in n.links
  {
    forall env <- n.links[k].put :: Sourced(n, env, n.links[k].owner)
  }

  predicate ReplaySound(n: Node, k: ConnId)
    requires k in n.links
  {
    var l := n.links[k];
    && (forall c <- l.replay.conversations :: IsMember(n, l.owner, c))
    && (forall env <- l.replay.batch ::
          env in ListOf(n.log, env.conversation) && IsMember(n, l.owner, env.conversation))
  }

  ghost predicate Sound(n: Node) {
    && Shape(n) && LogSound(n)
    && (forall at <- n.fans :: FanSound(n, at))
    && (forall k <- n.links :: PutSound(n, k) && ReplaySound(n, k))
    && (forall env <- n.published :: Sourced(n, env, env.to))
  }

  // ---- Every step keeps it ----

  lemma InboundLog(n: Node, e: Event)
    requires LogSound(n) && Enabled(n, e) && e.Inbound?
    ensures LogSound(Next(n, e)) && Next(n, e).members == n.members
    ensures forall p: Position :: p.index < |ListOf(n.log, p.conversation)| ==>
              p.index < |ListOf(Next(n, e).log, p.conversation)| && Log(Next(n, e), p) == Log(n, p)
  {
  }

  lemma LogStep(n: Node, e: Event)
    requires LogSound(n) && Enabled(n, e)
    ensures LogSound(Next(n, e)) && Next(n, e).members == n.members
    ensures forall p: Position :: p.index < |ListOf(n.log, p.conversation)| ==>
              p.index < |ListOf(Next(n, e).log, p.conversation)| && Log(Next(n, e), p) == Log(n, p)
  {
    if e.Inbound? {
      InboundLog(n, e);
    } else {
      LogStands(n, e);
    }
  }

  /** What no step undoes. */
  ghost predicate Grown(n: Node, m: Node) {
    && m.members == n.members
    && (forall p: Position :: p.index < |ListOf(n.log, p.conversation)| ==>
          p.index < |ListOf(m.log, p.conversation)| && Log(m, p) == Log(n, p))
    && (forall k <- n.links :: k in m.links && m.links[k].owner == n.links[k].owner)
  }

  lemma StepGrows(n: Node, e: Event)
    requires LogSound(n) && Enabled(n, e)
    ensures Grown(n, Next(n, e))
  {
    LogStep(n, e);
    OwnersStand(n, e);
  }

  /** The ways an envelope gets onto a connection. */
  lemma WhatIsPut(n: Node, e: Event, k: ConnId, env: Envelope)
    requires Enabled(n, e) && k in n.links && env in Next(n, e).links[k].put && env !in n.links[k].put
    ensures || (e.SendNext? && n.fans[e.at].snapshot[0] == k && env == Log(n, e.at).(to := n.fans[e.at].member))
            || (e.ReplayNext? && e.k == k && env == n.links[k].replay.batch[0].(to := n.links[k].owner))
            || (e.Relayed? && env == n.published[e.j] && env.to == n.links[k].owner)
            || env.kind != "message"
  {
  }

  lemma SourcedGrows(n: Node, e: Event, env: Envelope, user: string)
    requires LogSound(n) && Enabled(n, e) && Sourced(n, env, user)
    ensures Sourced(Next(n, e), env, user)
  {
    LogStep(n, e);
    if env.kind == "message" {
      var i: nat :| i < |ListOf(n.log, env.conversation)| && AsLogged(n, env, user, i);
      assert Log(n, Position(env.conversation, i)) == Log(Next(n, e), Position(env.conversation, i));
      assert AsLogged(Next(n, e), env, user, i);
    }
  }

  lemma LoggedIsSourced(n: Node, at: Position, user: string)
    requires LogSound(n) && at.index < |ListOf(n.log, at.conversation)| && IsMember(n, user, at.conversation)
    ensures Sourced(n, Log(n, at).(to := user), user)
  {
    assert Log(n, at).conversation == at.conversation;
    assert AsLogged(n, Log(n, at).(to := user), user, at.index);
  }

  lemma InboundFans(n: Node, e: Event, at: Position)
    requires Enabled(n, e) && e.Inbound? && at in Next(n, e).fans
    ensures var f := Next(n, e).fans[at];
      || (at in n.fans && f == n.fans[at])
      || (at.conversation == e.env.conversation && at.index == |ListOf(n.log, at.conversation)|
          && IsMember(n, e.env.sender, at.conversation) && f == Fan(ListOf(n.members, at.conversation), "", []))
  {
  }

  /** A fan-out is new, moved on, or untouched. */
  lemma WhatFansBecome(n: Node, e: Event, at: Position)
    requires Enabled(n, e) && at in Next(n, e).fans
    ensures var f := Next(n, e).fans[at];
      || (at in n.fans && f == n.fans[at])
      || (e.Inbound? && at.conversation == e.env.conversation && at.index == |ListOf(n.log, at.conversation)|
          && IsMember(n, e.env.sender, at.conversation) && f == Fan(ListOf(n.members, at.conversation), "", []))
      || (e.Lookup? && at == e.at && f.todo == n.fans[at].todo[1..]
          && (f.snapshot == [] || (f.member == n.fans[at].todo[0] && f.snapshot == ConnsOf(n.conns, f.member))))
      || (e.SendNext? && at == e.at && f == n.fans[at].(snapshot := n.fans[at].snapshot[1..]))
  {
    if e.Inbound? { InboundFans(n, e, at); }
  }

  lemma FanCarries(n: Node, m: Node, at: Position)
    requires OwnersKept(n) && Grown(n, m) && at in n.fans && FanSound(n, at) && at in m.fans
    requires var was, f := n.fans[at], m.fans[at];
      || f == was
      || (was.todo != [] && f.todo == was.todo[1..]
          && (f.snapshot == [] || (f.member == was.todo[0] && f.snapshot == ConnsOf(n.conns, f.member))))
      || (was.snapshot != [] && f == was.(snapshot := was.snapshot[1..]))
    ensures FanSound(m, at)
  {
    var was, f := n.fans[at], m.fans[at];
    assert Log(m, at) == Log(n, at);
    assert forall u <- f.todo :: u in was.todo;
    if was.todo != [] && f.todo == was.todo[1..] && f.member == was.todo[0]
        && f.snapshot == ConnsOf(n.conns, f.member) {
      assert was.todo[0] in was.todo && IsMember(m, f.member, at.conversation);
    } else if f.snapshot != [] {
      assert f.member == was.member && forall k <- f.snapshot :: k in was.snapshot;
    }
  }

  lemma FanStep(n: Node, e: Event, at: Position)
    requires OwnersKept(n) && LogSound(n) && (forall p <- n.fans :: FanSound(n, p))
    requires Enabled(n, e) && at in Next(n, e).fans
    ensures FanSound(Next(n, e), at)
  {
    WhatFansBecome(n, e, at);
    if at in n.fans && at.index < |ListOf(n.log, at.conversation)| {
      StepGrows(n, e);
      FanCarries(n, Next(n, e), at);
    } else {
      assert at in n.fans ==> FanSound(n, at);
    }
  }

  /** What a step puts on a connection, if anything, has a source. */
  lemma NewlyPut(n: Node, e: Event, k: ConnId, env: Envelope)
    requires Sound(n) && Enabled(n, e) && k in n.links && env in Next(n, e).links[k].put && env !in n.links[k].put
    ensures Sourced(n, env, n.links[k].owner)
  {
    WhatIsPut(n, e, k, env);
    if env.kind == "message" {
      if e.SendNext? {
        assert FanSound(n, e.at);
        LoggedIsSourced(n, e.at, n.links[k].owner);
      } else if e.ReplayNext? {
        assert ReplaySound(n, k);
        var queued := n.links[k].replay.batch[0];
        var i :| 0 <= i < |ListOf(n.log, queued.conversation)| && ListOf(n.log, queued.conversation)[i] == queued;
        LoggedIsSourced(n, Position(queued.conversation, i), n.links[k].owner);
      }
    }
  }

  lemma PutStep(n: Node, e: Event, k: ConnId)
    requires Sound(n) && Enabled(n, e) && k in Next(n, e).links
    ensures PutSound(Next(n, e), k)
  {
    OwnersStand(n, e);
    forall env | env in Next(n, e).links[k].put
      ensures Sourced(Next(n, e), env, Next(n, e).links[k].owner)
    {
      assert PutSound(n, k);
      if env !in n.links[k].put {
        NewlyPut(n, e, k, env);
      }
      SourcedGrows(n, e, env, n.links[k].owner);
    }
  }

  /** A replay is new, moved on, or untouched. */
  lemma WhatReplaysBecome(n: Node, e: Event, k: ConnId)
    requires Enabled(n, e) && k in Next(n, e).links
    ensures var r := Next(n, e).links[k].replay;
      || (e.Register? && k == e.k && k !in n.links && r == Replay(e.conversations, [])
          && Next(n, e).links[k].owner == e.user)
      || (k in n.links && r == n.links[k].replay)
      || (k in n.links && e.ReadQueue? && e.k == k
          && r == Replay(n.links[k].replay.conversations[1..], ListOf(n.lists, n.links[k].replay.conversations[0])))
      || (k in n.links && e.ReplayNext? && e.k == k && r == n.links[k].replay.(batch := n.links[k].replay.batch[1..]))
  {
  }

  /** The queue holds messages of its conversation. */
  lemma QueuedIsLogged(n: Node, c: string, env: Envelope)
    requires QueuesKept(n) && LogSound(n) && env in ListOf(n.lists, c)
    ensures env.conversation == c && env in ListOf(n.log, c)
  {
    assert ListOf(n.lists, c) == Tail(ListOf(n.log, c));
    var i :| 0 <= i < |ListOf(n.log, c)| && ListOf(n.log, c)[i] == env;
    assert Log(n, Position(c, i)).conversation == c;
  }

  lemma ReplayCarries(n: Node, m: Node, k: ConnId)
    requires QueuesKept(n) && LogSound(n) && Grown(n, m) && k in n.links && ReplaySound(n, k)
    requires var was, r := n.links[k].replay, m.links[k].replay;
      || r == was
      || (was.conversations != [] && r == Replay(was.conversations[1..], ListOf(n.lists, was.conversations[0])))
      || (was.batch != [] && r == was.(batch := was.batch[1..]))
    ensures ReplaySound(m, k)
  {
    assert forall c <- m.links[k].replay.conversations :: c in n.links[k].replay.conversations;
    assert m.links[k].owner == n.links[k].owner;
    forall env | env in m.links[k].replay.batch
      ensures env in ListOf(m.log, env.conversation) && IsMember(m, m.links[k].owner, env.conversation)
    {
      if env !in n.links[k].replay.batch {
        assert n.links[k].replay.conversations[0] in n.links[k].replay.conversations;
        QueuedIsLogged(n, n.links[k].replay.conversations[0], env);
      }
      var i :| 0 <= i < |ListOf(n.log, env.conversation)| && ListOf(n.log, env.conversation)[i] == env;
      assert Log(n, Position(env.conversation, i)) == Log(m, Position(env.conversation, i));
    }
  }

  lemma ReplayStep(n: Node, e: Event, k: ConnId)
    requires Sound(n) && Enabled(n, e) && k in Next(n, e).links
    ensures ReplaySound(Next(n, e), k)
  {
    WhatReplaysBecome(n, e, k);
    LogStep(n, e);
    if k in n.links {
      StepGrows(n, e);
      ReplayCarries(n, Next(n, e), k);
    }
  }

  /** What a step publishes, if anything. */
  lemma WhatIsPublished(n: Node, e: Event, env: Envelope)
    requires Enabled(n, e) && env in Next(n, e).published && env !in n.published
    ensures e.Lookup? && env == Log(n, e.at).(to := n.fans[e.at].todo[0])
  {
  }

  lemma PublishedStep(n: Node, e: Event, env: Envelope)
    requires Sound(n) && Enabled(n, e) && env in Next(n, e).published
    ensures Sourced(Next(n, e), env, env.to)
  {
    if env !in n.published {
      WhatIsPublished(n, e, env);
      assert FanSound(n, e.at);
      LoggedIsSourced(n, e.at, env.to);
    }
    SourcedGrows(n, e, env, env.to);
  }

  lemma StepSound(n: Node, e: Event)
    requires Sound(n) && Enabled(n, e)
    ensures Sound(Next(n, e))
  {
    var m := Next(n, e);
    ShapeStep(n, e);
    LogStep(n, e);
    forall at | at in m.fans ensures FanSound(m, at) { FanStep(n, e, at); }
    forall k | k in m.links ensures PutSound(m, k) && ReplaySound(m, k) { PutStep(n, e, k); ReplayStep(n, e, k); }
    forall env | env in m.published ensures Sourced(m, env, env.to) { PublishedStep(n, e, env); }
  }

  lemma {:induction false} RunSound(n: Node, es: seq<Event>)
    requires Sound(n) && Allowed(n, es)
    ensures Sound(After(n, es)) && After(n, es).members == n.members
    decreases |es|
  {
    if es != [] {
      StepSound(n, es[0]);
      LogStep(n, es[0]);
      RunSound(Next(n, es[0]), es[1..]);
    }
  }

  /** In every run a connection is sent no message but those enqueued in its user's
      conversations by a member, unaltered and addressed to its user. */
  lemma OnlyMembersAreSent(members: map<string, seq<string>>, es: seq<Event>, k: ConnId, env: Envelope)
    requires Allowed(Started(members), es)
    requires var n := After(Started(members), es);
      k in n.links && env in n.links[k].put && env.kind == "message"
    ensures var n := After(Started(members), es);
      && env.to == n.links[k].owner && env.to in ListOf(members, env.conversation)
      && env.sender in ListOf(members, env.conversation)
      && exists i: nat | i < |ListOf(n.log, env.conversation)| :: AsLogged(n, env, env.to, i)
  {
    RunSound(Started(members), es);
    var n := After(Started(members), es);
    assert PutSound(n, k) && Sourced(n, env, n.links[k].owner);
    var i: nat :| i < |ListOf(n.log, env.conversation)| && AsLogged(n, env, n.links[k].owner, i);
    assert Log(n, Position(env.conversation, i)).sender == env.sender;
  }

  // ---- Both handlers can always finish ----

  /** What stands still while handlers run to their end. */
  predicate SameSince(n: Node, m: Node, k: ConnId) {
    && m.log == n.log && m.conns == n.conns && m.members == n.members
    && k in n.links && k in m.links && m.links[k].owner == n.links[k].owner && m.links[k].since == n.links[k].since
  }

  lemma FanOutAdvances(n: Node, p: Position, k: ConnId) returns (e: Event)
    requires p in n.fans && FanSound(n, p) && n.fans[p] != Fan([], n.fans[p].member, []) && k in n.links
    ensures Enabled(n, e)
    ensures var m := Next(n, e);
      && SameSince(n, m, k) && m.links[k].replay == n.links[k].replay && p in m.fans
      && var was, now := n.fans[p], m.fans[p];
         |now.todo| < |was.todo| || (now.todo == was.todo && |now.snapshot| < |was.snapshot|)
  {
    e := if n.fans[p].snapshot == [] then Lookup(p) else SendNext(p);
  }

  lemma OneThen(n: Node, e: Event, rest: seq<Event>)
    requires Enabled(n, e) && Allowed(Next(n, e), rest)
    ensures Allowed(n, [e] + rest) && After(n, [e] + rest) == After(Next(n, e), rest)
  {
    assert ([e] + rest)[1..] == rest;
  }

  ghost predicate FanOutFinished(n: Node, p: Position, k: ConnId, m: Node)
    requires k in n.links
  {
    && SameSince(n, m, k) && m.links[k].replay == n.links[k].replay
    && p in m.fans && m.fans[p].todo == [] && m.fans[p].snapshot == []
  }

  lemma {:induction false} FanOutCanFinish(n: Node, p: Position, k: ConnId) returns (es: seq<Event>)
    requires Sound(n) && p in n.fans && k in n.links
    ensures Allowed(n, es) && Sound(After(n, es)) && FanOutFinished(n, p, k, After(n, es))
    decreases |n.fans[p].todo|, |n.fans[p].snapshot|
  {
    if n.fans[p] == Fan([], n.fans[p].member, []) {
      return [];
    }
    assert FanSound(n, p);
    var e := FanOutAdvances(n, p, k);
    StepSound(n, e);
    var rest := FanOutCanFinish(Next(n, e), p, k);
    OneThen(n, e, rest);
    es := [e] + rest;
  }

  lemma ReplayAdvances(n: Node, k: ConnId) returns (e: Event)
    requires k in n.links && n.links[k].replay != Replay([], [])
    ensures Enabled(n, e)
    ensures var m := Next(n, e);
      && SameSince(n, m, k) && m.fans == n.fans
      && var was, now := n.links[k].replay, m.links[k].replay;
         || |now.conversations| < |was.conversations|
         || (now.conversations == was.conversations && |now.batch| < |was.batch|)
  {
    e := if n.links[k].replay.batch == [] then ReadQueue(k) else ReplayNext(k);
  }

  lemma {:induction false} ReplayCanFinish(n: Node, k: ConnId) returns (es: seq<Event>)
    requires Sound(n) && k in n.links
    ensures Allowed(n, es) && Sound(After(n, es))
    ensures var m := After(n, es); SameSince(n, m, k) && m.links[k].replay == Replay([], []) && m.fans == n.fans
    decreases |n.links[k].replay.conversations|, |n.links[k].replay.batch|
  {
    if n.links[k].replay == Replay([], []) {
      return [];
    }
    var e := ReplayAdvances(n, k);
    StepSound(n, e);
    var rest := ReplayCanFinish(Next(n, e), k);
    OneThen(n, e, rest);
    es := [e] + rest;
  }

  lemma {:induction false} AfterBoth(n: Node, first: seq<Event>, second: seq<Event>)
    requires Allowed(n, first) && Allowed(After(n, first), second)
    ensures Allowed(n, first + second) && After(n, first + second) == After(After(n, first), second)
    decreases |first|
  {
    if first == [] {
      assert first + second == second;
    } else {
      AfterBoth(Next(n, first[0]), first[1..], second);
      OneThen(n, first[0], first[1..] + second);
      assert first + second == [first[0]] + (first[1..] + second);
    }
  }

  /** From any state of any run the two handlers can be run to their end, no matter where
      they stand, and then a message owed to a connection has been put on it, unless it
      found the channel full or was overtaken before the connection's replay. */
  lemma DeliveryCompletes(members: map<string, seq<string>>, es: seq<Event>, p: Position, k: ConnId)
    returns (more: seq<Event>)
    requires Allowed(Started(members), es) && Owed(After(Started(members), es), p, k)
    ensures Allowed(Started(members), es + more)
    ensures Owed(After(Started(members), es + more), p, k)
    ensures var m := After(Started(members), es + more); var l := m.links[k];
      (Put(l, Log(m, p).(to := l.owner)) || (p.index < |ListOf(l.since, p.conversation)| && Overtaken(m, p)))
  {
    var start := Started(members);
    RunSound(start, es);
    var n := After(start, es);
    var fanning := FanOutCanFinish(n, p, k);
    var m := After(n, fanning);
    var replaying := ReplayCanFinish(m, k);
    more := fanning + replaying;
    AfterBoth(n, fanning, replaying);
    AfterBoth(start, es, more);
    var end := After(start, es + more);
    assert Owed(end, p, k);
    if !(p.index < |ListOf(end.links[k].since, p.conversation)| && Overtaken(end, p)) {
      NothingFallsBetween(members, es + more, p, k);
    }
  }
}
