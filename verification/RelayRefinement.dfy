/** The relay's handler run without interruption is one of its interleavings: an `Inbound`
    step followed by all lookups and sends of its fan-out does to queues and channels what
    `HandleInbound` does. */
module RelayRefinement {
  import opened Padding
  import opened Hub
  import opened OfflineQueue
  import opened Relay
  import opened RelaySoundness
  import opened RelayHandler
  import Connections

  // ---- Channels ----

  function Encoded(envs: seq<Envelope>, marshal: Envelope -> Bytes): seq<Bytes> {
    seq(|envs|, i requires 0 <= i < |envs| => marshal(envs[i]))
  }

  /** What waits on a connection's channel. */
  function Channel(l: Link, marshal: Envelope -> Bytes): seq<Bytes>
    requires l.waiting <= |l.put|
  {
    Encoded(l.put[|l.put| - l.waiting..], marshal)
  }

  lemma SentChannel(l: Link, env: Envelope, marshal: Envelope -> Bytes)
    requires l.waiting <= |l.put|
    ensures var l' := Sent(l, env);
      && l'.waiting <= |l'.put|
      && Channel(l', marshal)
         == if |Channel(l, marshal)| < Connections.SEND_BUFFER_SIZE then Channel(l, marshal) + [marshal(env)]
            else Channel(l, marshal)
  {
    var l' := Sent(l, env);
    if l.waiting < Connections.SEND_BUFFER_SIZE {
      assert l'.put[|l'.put| - l'.waiting..] == l.put[|l.put| - l.waiting..] + [env];
    }
  }

  // ---- No connection is registered twice ----

  predicate NoRepeat(ks: seq<ConnId>) {
    forall i, j :: 0 <= i < j < |ks| ==> ks[i] != ks[j]
  }

  ghost predicate Tidy(n: Node) {
    (forall u :: NoRepeat(ConnsOf(n.conns, u))) && (forall at <- n.fans :: NoRepeat(n.fans[at].snapshot))
  }

  lemma {:induction false} RemoveFirstNoRepeat(ks: seq<ConnId>, k: ConnId)
    requires NoRepeat(ks)
    ensures NoRepeat(RemoveFirst(ks, k))
  {
    if ks != [] && ks[0] != k {
      RemoveFirstNoRepeat(ks[1..], k);
      forall x {
        RemoveFirstSubset(ks[1..], k, x);
      }
    }
  }

  lemma ConnsTidy(n: Node, e: Event, u: string)
    requires Shape(n) && Tidy(n) && Enabled(n, e)
    ensures NoRepeat(ConnsOf(Next(n, e).conns, u))
  {
    assert NoRepeat(ConnsOf(n.conns, u));
    if e.Register? {
      assert e.k !in ConnsOf(n.conns, u);
    } else if e.Unregister? {
      RemoveFirstNoRepeat(ConnsOf(n.conns, n.links[e.k].owner), e.k);
    }
  }

  lemma StepTidy(n: Node, e: Event)
    requires Shape(n) && Tidy(n) && Enabled(n, e)
    ensures Tidy(Next(n, e))
  {
    forall u ensures NoRepeat(ConnsOf(Next(n, e).conns, u)) { ConnsTidy(n, e, u); }
    forall at | at in Next(n, e).fans
      ensures NoRepeat(Next(n, e).fans[at].snapshot)
    {
      WhatFansBecome(n, e, at);
      assert at in n.fans ==> NoRepeat(n.fans[at].snapshot);
    }
  }

  lemma {:induction false} RunTidy(n: Node, es: seq<Event>)
    requires Shape(n) && Tidy(n) && Allowed(n, es)
    ensures Tidy(After(n, es))
    decreases |es|
  {
    if es != [] {
      ShapeStep(n, es[0]);
      StepTidy(n, es[0]);
      RunTidy(Next(n, es[0]), es[1..]);
    }
  }

  // ---- What a fan-out still owes a channel ----

  /** The channel of connection `k` once the fan-out has gone through its snapshot and the
      members still to be looked up. */
  function Due(view: Registry<ConnId>, f: Fan, env: Envelope, marshal: Envelope -> Bytes, k: ConnId, now: seq<Bytes>)
    : seq<Bytes>
  {
    var here := Offered(f.snapshot, marshal(env.(to := f.member)), k, now);
    Fanned(view, Without(f.todo, env.sender), env, marshal, k, here)
  }

  lemma {:induction false} WithoutFirst(users: seq<string>, user: string)
    requires users != []
    ensures Without(users, user)
         == if users[0] == user then Without(users[1..], user) else [users[0]] + Without(users[1..], user)
  {
    var last := |users| - 1;
    if last > 0 {
      WithoutFirst(users[..last], user);
      assert users[..last][1..] == users[1..][..last - 1];
      assert users[1..][|users[1..]| - 1] == users[last];
    } else {
      assert users[..0] == [] && users[1..] == [];
    }
  }

  lemma {:induction false} FannedFirst(view: Registry<ConnId>, user: string, rest: seq<string>, env: Envelope,
                                       marshal: Envelope -> Bytes, k: ConnId, was: seq<Bytes>)
    ensures Fanned(view, [user] + rest, env, marshal, k, was)
         == Fanned(view, rest, env, marshal, k, Offered(ConnsOf(view, user), marshal(env.(to := user)), k, was))
    decreases |rest|
  {
    var all := [user] + rest;
    if rest == [] {
      assert all[..0] == [];
      assert Fanned(view, all[..0], env, marshal, k, was) == was;
    } else {
      var last := |rest| - 1;
      FannedFirst(view, user, rest[..last], env, marshal, k, was);
      assert all[..|all| - 1] == [user] + rest[..last];
    }
  }

  /** A lookup moves what is due from the members to the snapshot. */
  lemma LookupDue(view: Registry<ConnId>, f: Fan, env: Envelope, marshal: Envelope -> Bytes, k: ConnId, now: seq<Bytes>)
    requires f.todo != [] && f.snapshot == []
    ensures var f' := if f.todo[0] == env.sender then f.(todo := f.todo[1..])
                      else Fan(f.todo[1..], f.todo[0], ConnsOf(view, f.todo[0]));
      Due(view, f', env, marshal, k, now) == Due(view, f, env, marshal, k, now)
  {
    WithoutFirst(f.todo, env.sender);
    if f.todo[0] != env.sender {
      FannedFirst(view, f.todo[0], Without(f.todo[1..], env.sender), env, marshal, k, now);
    }
  }

  /** A send puts on the channel what was due there. */
  lemma SendDue(view: Registry<ConnId>, f: Fan, env: Envelope, marshal: Envelope -> Bytes, k: ConnId, l: Link)
    requires f.snapshot != [] && NoRepeat(f.snapshot) && l.waiting <= |l.put|
    ensures var l' := if f.snapshot[0] == k then Sent(l, env.(to := f.member)) else l;
      && l'.waiting <= |l'.put|
      && Due(view, f.(snapshot := f.snapshot[1..]), env, marshal, k, Channel(l', marshal))
         == Due(view, f, env, marshal, k, Channel(l, marshal))
  {
    SentChannel(l, env.(to := f.member), marshal);
    assert k in f.snapshot <==> k == f.snapshot[0] || k in f.snapshot[1..];
    assert k == f.snapshot[0] ==> k !in f.snapshot[1..];
  }

  // ---- The uninterrupted fan-out ----

  /** What a step of a fan-out keeps: everything but its own channels, and what is due there. */
  ghost predicate KeepsDue(n: Node, at: Position, marshal: Envelope -> Bytes, m: Node)
    requires at in n.fans && at.index < |ListOf(n.log, at.conversation)|
  {
    && m.conns == n.conns && m.lists == n.lists && m.log == n.log && m.links.Keys == n.links.Keys && at in m.fans
    && forall k <- n.links ::
         && m.links[k].waiting <= |m.links[k].put| && n.links[k].waiting <= |n.links[k].put|
         && Due(m.conns, m.fans[at], Log(n, at), marshal, k, Channel(m.links[k], marshal))
            == Due(n.conns, n.fans[at], Log(n, at), marshal, k, Channel(n.links[k], marshal))
  }

  lemma LookupKeepsDue(n: Node, at: Position, marshal: Envelope -> Bytes)
    requires Shape(n) && Enabled(n, Lookup(at))
    ensures KeepsDue(n, at, marshal, Next(n, Lookup(at)))
    ensures |Next(n, Lookup(at)).fans[at].todo| < |n.fans[at].todo|
  {
    forall k | k in n.links
      ensures n.links[k].waiting <= |n.links[k].put|
    {
      assert BufferKept(n.links[k]);
    }
    forall k | k in n.links {
      LookupDue(n.conns, n.fans[at], Log(n, at), marshal, k, Channel(n.links[k], marshal));
    }
  }

  lemma SendKeepsDue(n: Node, at: Position, marshal: Envelope -> Bytes)
    requires Shape(n) && Enabled(n, SendNext(at)) && NoRepeat(n.fans[at].snapshot)
    ensures KeepsDue(n, at, marshal, Next(n, SendNext(at)))
    ensures var f, f' := n.fans[at], Next(n, SendNext(at)).fans[at]; f'.todo == f.todo && |f'.snapshot| < |f.snapshot|
  {
    forall k | k in n.links
      ensures n.links[k].waiting <= |n.links[k].put|
    {
      assert BufferKept(n.links[k]);
    }
    forall k | k in n.links {
      SendDue(n.conns, n.fans[at], Log(n, at), marshal, k, n.links[k]);
    }
  }

  /** One step of the fan-out leaves what is due to every connection unchanged. */
  lemma FanStepDue(n: Node, at: Position, marshal: Envelope -> Bytes) returns (e: Event)
    requires Sound(n) && Tidy(n) && at in n.fans && n.fans[at] != Fan([], n.fans[at].member, [])
    ensures at.index < |ListOf(n.log, at.conversation)|
    ensures Enabled(n, e) && KeepsDue(n, at, marshal, Next(n, e))
    ensures var f, f' := n.fans[at], Next(n, e).fans[at];
      |f'.todo| < |f.todo| || (f'.todo == f.todo && |f'.snapshot| < |f.snapshot|)
  {
    assert FanSound(n, at);
    if n.fans[at].snapshot == [] {
      e := Lookup(at);
      LookupKeepsDue(n, at, marshal);
    } else {
      e := SendNext(at);
      SendKeepsDue(n, at, marshal);
    }
  }

  /** All channels after the fan-out ran to its end. */
  ghost predicate RanOut(n: Node, at: Position, marshal: Envelope -> Bytes, m: Node)
    requires at in n.fans && at.index < |ListOf(n.log, at.conversation)|
  {
    && m.conns == n.conns && m.lists == n.lists && m.log == n.log && m.links.Keys == n.links.Keys
    && at in m.fans && m.fans[at].todo == [] && m.fans[at].snapshot == []
    && forall k <- n.links ::
         && m.links[k].waiting <= |m.links[k].put| && n.links[k].waiting <= |n.links[k].put|
         && Channel(m.links[k], marshal)
            == Due(n.conns, n.fans[at], Log(n, at), marshal, k, Channel(n.links[k], marshal))
  }

  lemma {:induction false} FanOutRunsOut(n: Node, at: Position, marshal: Envelope -> Bytes) returns (es: seq<Event>)
    requires Sound(n) && Tidy(n) && at in n.fans
    ensures at.index < |ListOf(n.log, at.conversation)|
    ensures Allowed(n, es) && RanOut(n, at, marshal, After(n, es))
    decreases |n.fans[at].todo|, |n.fans[at].snapshot|
  {
    assert FanSound(n, at);
    if n.fans[at] == Fan([], n.fans[at].member, []) {
      return [];
    }
    var e := FanStepDue(n, at, marshal);
    StepSound(n, e);
    StepTidy(n, e);
    var rest := FanOutRunsOut(Next(n, e), at, marshal);
    OneThen(n, e, rest);
    es := [e] + rest;
  }

  /** What the handler's contract says of a node: every channel and every queue. */
  ghost predicate HandledAs(n: Node, env: Envelope, queued: Envelope, marshal: Envelope -> Bytes, m: Node) {
    var works := Works(true, true, true);
    && m.links.Keys == n.links.Keys
    && (forall k <- n.links ::
          && n.links[k].waiting <= |n.links[k].put| && m.links[k].waiting <= |m.links[k].put|
          && Channel(m.links[k], marshal)
             == Fanned(n.conns, Reached(n.members, env, works), queued, marshal, k, Channel(n.links[k], marshal)))
    && (forall c :: ListOf(m.lists, c)
          == if IsMember(n, env.sender, env.conversation) && c == env.conversation
             then Pushed(ListOf(n.lists, c), queued) else ListOf(n.lists, c))
  }

  /** The envelope of a stranger changes nothing. */
  lemma StrangerHandled(n: Node, env: Envelope, queued: Envelope, marshal: Envelope -> Bytes)
    requires Shape(n) && env.kind == "message" && !IsMember(n, env.sender, env.conversation)
    ensures HandledAs(n, env, queued, marshal, n)
  {
    assert forall k <- n.links :: BufferKept(n.links[k]);
    assert Reached(n.members, env, Works(true, true, true)) == [];
  }

  /** What is due when a member's message has just been queued. */
  lemma InboundDue(n: Node, env: Envelope, generated: string)
    requires Enabled(n, Inbound(env, generated)) && IsMember(n, env.sender, env.conversation)
    ensures
      var m, at := Next(n, Inbound(env, generated)), Position(env.conversation, |ListOf(n.log, env.conversation)|);
      && m.links == n.links && m.conns == n.conns && at in m.fans
      && at.index < |ListOf(m.log, at.conversation)| && Log(m, at) == WithId(env, generated)
      && m.fans[at] == Fan(ListOf(n.members, env.conversation), "", [])
      && forall c :: ListOf(m.lists, c)
           == if c == env.conversation then Pushed(ListOf(n.lists, c), WithId(env, generated)) else ListOf(n.lists, c)
  {
  }

  lemma ReachedByMember(n: Node, env: Envelope)
    requires env.kind == "message" && IsMember(n, env.sender, env.conversation)
    ensures Reached(n.members, env, Works(true, true, true)) == Without(ListOf(n.members, env.conversation), env.sender)
  {
  }

  lemma DueAtFirst(view: Registry<ConnId>, todo: seq<string>, env: Envelope, marshal: Envelope -> Bytes, k: ConnId,
                   now: seq<Bytes>)
    ensures Due(view, Fan(todo, "", []), env, marshal, k, now)
         == Fanned(view, Without(todo, env.sender), env, marshal, k, now)
  {
  }

  lemma MemberHandled(n: Node, env: Envelope, generated: string, at: Position, marshal: Envelope -> Bytes,
                      n1: Node, m: Node)
    requires Shape(n) && env.kind == "message" && IsMember(n, env.sender, env.conversation)
    requires n1.links == n.links && n1.conns == n.conns && at in n1.fans && at.index < |ListOf(n1.log, at.conversation)|
    requires Log(n1, at) == WithId(env, generated) && n1.fans[at] == Fan(ListOf(n.members, env.conversation), "", [])
    requires forall c ::
      ListOf(n1.lists, c)
      == if c == env.conversation then Pushed(ListOf(n.lists, c), WithId(env, generated)) else ListOf(n.lists, c)
    requires RanOut(n1, at, marshal, m)
    ensures HandledAs(n, env, WithId(env, generated), marshal, m)
  {
    ReachedByMember(n, env);
    forall k | k in n.links {
      DueAtFirst(n.conns, ListOf(n.members, env.conversation), WithId(env, generated), marshal, k,
                 Channel(n.links[k], marshal));
    }
  }

  /** The refinement: from any state of any run, an inbound message followed by its fan-out
      without interruption leaves the queues and every channel as the handler's contract
      says, for the node's registry and with every call working. */
  lemma HandlerIsARun(members: map<string, seq<string>>, before: seq<Event>, env: Envelope, generated: string,
                      marshal: Envelope -> Bytes) returns (es: seq<Event>)
    requires Allowed(Started(members), before)
    requires Enabled(After(Started(members), before), Inbound(env, generated))
    ensures var n := After(Started(members), before);
      && n.members == members
      && Allowed(n, [Inbound(env, generated)] + es)
      && HandledAs(n, env, WithId(env, generated), marshal, After(n, [Inbound(env, generated)] + es))
  {
    RunSound(Started(members), before);
    RunTidy(Started(members), before);
    es := HandlerFrom(After(Started(members), before), env, generated, marshal);
  }

  lemma HandlerFrom(n: Node, env: Envelope, generated: string, marshal: Envelope -> Bytes) returns (es: seq<Event>)
    requires Sound(n) && Tidy(n) && Enabled(n, Inbound(env, generated))
    ensures Allowed(n, [Inbound(env, generated)] + es)
    ensures HandledAs(n, env, WithId(env, generated), marshal, After(n, [Inbound(env, generated)] + es))
  {
    var e := Inbound(env, generated);
    if !IsMember(n, env.sender, env.conversation) {
      es := [];
      StrangerHandled(n, env, WithId(env, generated), marshal);
    } else {
      var at := Position(env.conversation, |ListOf(n.log, env.conversation)|);
      StepSound(n, e);
      StepTidy(n, e);
      InboundDue(n, env, generated);
      es := FanOutRunsOut(Next(n, e), at, marshal);
      MemberHandled(n, env, generated, at, marshal, Next(n, e), After(Next(n, e), es));
    }
    OneThen(n, e, es);
  }

  // ---- The uninterrupted replay ----

  /** The relay's own lists as entries of the queue. */
  ghost predicate Stores(lists: map<string, seq<Payload>>, n: Node) {
    forall c :: Readable(ListOf(lists, c)) == ListOf(n.lists, c)
  }

  /** What is still to be replayed. */
  function Pending(lists: map<string, seq<Payload>>, r: Replay): seq<Envelope> {
    r.batch + Queued(lists, r.conversations)
  }

  lemma {:induction false} QueuedFirst(lists: map<string, seq<Payload>>, conversations: seq<string>)
    requires conversations != []
    ensures Queued(lists, conversations)
         == Readable(ListOf(lists, conversations[0])) + Queued(lists, conversations[1..])
  {
    var last := |conversations| - 1;
    if last > 0 {
      QueuedFirst(lists, conversations[..last]);
      var mid := conversations[1..][..last - 1];
      assert conversations[..last][1..] == mid && conversations[1..][last - 1] == conversations[last];
      AppendRegrouped(Readable(ListOf(lists, conversations[0])), Queued(lists, mid),
                      Readable(ListOf(lists, conversations[last])));
    } else {
      assert conversations[..0] == [] && conversations[1..] == [];
      assert Queued(lists, conversations) == Readable(ListOf(lists, conversations[0]));
    }
  }

  /** The channel of a connection once its replay is over. */
  function Awaited(l: Link, lists: map<string, seq<Payload>>, marshal: Envelope -> Bytes): seq<Bytes>
    requires l.waiting <= |l.put|
  {
    Filled(Channel(l, marshal), Marshalled(Pending(lists, l.replay), l.owner, marshal))
  }

  lemma FilledFirst(was: seq<Bytes>, x: Bytes, rest: seq<Bytes>)
    ensures Filled(was, [x] + rest) == Filled(if |was| < Connections.SEND_BUFFER_SIZE then was + [x] else was, rest)
  {
    assert was + ([x] + rest) == was + [x] + rest;
  }

  lemma MarshalledFirst(envs: seq<Envelope>, user: string, marshal: Envelope -> Bytes)
    requires envs != []
    ensures Marshalled(envs, user, marshal) == [marshal(envs[0].(to := user))] + Marshalled(envs[1..], user, marshal)
  {
  }

  /** Reading a queue brings nothing but its entries, in their order. */
  lemma ReadAwaits(l: Link, lists: map<string, seq<Payload>>, marshal: Envelope -> Bytes)
    requires l.waiting <= |l.put| && l.replay.batch == [] && l.replay.conversations != []
    ensures var r := Replay(l.replay.conversations[1..], Readable(ListOf(lists, l.replay.conversations[0])));
      Awaited(l.(replay := r), lists, marshal) == Awaited(l, lists, marshal)
  {
    var r := Replay(l.replay.conversations[1..], Readable(ListOf(lists, l.replay.conversations[0])));
    QueuedFirst(lists, l.replay.conversations);
    assert Pending(lists, r) == Pending(lists, l.replay);
  }

  /** Sending the next entry puts on the channel what was awaited there. */
  lemma SentAwaits(l: Link, lists: map<string, seq<Payload>>, marshal: Envelope -> Bytes)
    requires l.waiting <= |l.put| && l.replay.batch != []
    ensures var l' := Sent(l, l.replay.batch[0].(to := l.owner)).(replay := l.replay.(batch := l.replay.batch[1..]));
      l'.waiting <= |l'.put| && Awaited(l', lists, marshal) == Awaited(l, lists, marshal)
  {
    var env, rest := l.replay.batch[0].(to := l.owner), l.replay.(batch := l.replay.batch[1..]);
    SentChannel(l, env, marshal);
    FirstPending(l, lists, marshal);
    FilledFirst(Channel(l, marshal), marshal(env), Marshalled(Pending(lists, rest), l.owner, marshal));
    SameChannel(Sent(l, env), rest, marshal);
  }

  lemma FirstPending(l: Link, lists: map<string, seq<Payload>>, marshal: Envelope -> Bytes)
    requires l.replay.batch != []
    ensures Marshalled(Pending(lists, l.replay), l.owner, marshal)
         == [marshal(l.replay.batch[0].(to := l.owner))]
            + Marshalled(Pending(lists, l.replay.(batch := l.replay.batch[1..])), l.owner, marshal)
  {
    MarshalledFirst(Pending(lists, l.replay), l.owner, marshal);
    assert Pending(lists, l.replay)[1..] == Pending(lists, l.replay.(batch := l.replay.batch[1..]));
  }

  lemma SameChannel(l: Link, r: Replay, marshal: Envelope -> Bytes)
    requires l.waiting <= |l.put|
    ensures Channel(l.(replay := r), marshal) == Channel(l, marshal)
  {
  }

  /** Everything but this connection stands still. */
  predicate OthersStand(n: Node, k: ConnId, m: Node)
    requires k in n.links
  {
    && m.conns == n.conns && m.lists == n.lists && m.log == n.log && m.fans == n.fans && m.links.Keys == n.links.Keys
    && m.links[k].owner == n.links[k].owner && forall o <- n.links :: o != k ==> m.links[o] == n.links[o]
  }

  /** What a step of the replay keeps: all else, and what the channel is to hold at the end. */
  ghost predicate KeepsAwaited(n: Node, k: ConnId, lists: map<string, seq<Payload>>, marshal: Envelope -> Bytes,
                              m: Node)
    requires k in n.links
  {
    && OthersStand(n, k, m) && n.links[k].waiting <= |n.links[k].put| && m.links[k].waiting <= |m.links[k].put|
    && Awaited(m.links[k], lists, marshal) == Awaited(n.links[k], lists, marshal)
  }

  lemma ReadStep(n: Node, k: ConnId, lists: map<string, seq<Payload>>, marshal: Envelope -> Bytes)
    requires Shape(n) && Stores(lists, n) && Enabled(n, ReadQueue(k))
    ensures KeepsAwaited(n, k, lists, marshal, Next(n, ReadQueue(k)))
    ensures |Next(n, ReadQueue(k)).links[k].replay.conversations| < |n.links[k].replay.conversations|
  {
    assert BufferKept(n.links[k]);
    ReadAwaits(n.links[k], lists, marshal);
  }

  lemma ReplayNextStep(n: Node, k: ConnId, lists: map<string, seq<Payload>>, marshal: Envelope -> Bytes)
    requires Shape(n) && Enabled(n, ReplayNext(k))
    ensures KeepsAwaited(n, k, lists, marshal, Next(n, ReplayNext(k)))
    ensures var was, now := n.links[k].replay, Next(n, ReplayNext(k)).links[k].replay;
      now.conversations == was.conversations && |now.batch| < |was.batch|
  {
    assert BufferKept(n.links[k]);
    SentAwaits(n.links[k], lists, marshal);
  }

  lemma NothingAwaited(l: Link, lists: map<string, seq<Payload>>, marshal: Envelope -> Bytes)
    requires l.waiting <= |l.put| && l.replay == Replay([], [])
    ensures Awaited(l, lists, marshal) == Channel(l, marshal)
  {
    assert Pending(lists, l.replay) == [] && Channel(l, marshal) + [] == Channel(l, marshal);
  }

  lemma {:induction false} ReplayRunsOut(n: Node, k: ConnId, lists: map<string, seq<Payload>>,
                                         marshal: Envelope -> Bytes) returns (es: seq<Event>)
    requires Sound(n) && k in n.links && Stores(lists, n)
    ensures Allowed(n, es) && KeepsAwaited(n, k, lists, marshal, After(n, es))
    ensures After(n, es).links[k].replay == Replay([], [])
    decreases |n.links[k].replay.conversations|, |n.links[k].replay.batch|
  {
    if n.links[k].replay == Replay([], []) {
      assert BufferKept(n.links[k]);
      return [];
    }
    var e := ReplayStep(n, k, lists, marshal);
    var rest := ReplayRunsOut(Next(n, e), k, lists, marshal);
    OneThen(n, e, rest);
    AwaitedBoth(n, k, lists, marshal, Next(n, e), After(Next(n, e), rest));
    es := [e] + rest;
  }

  /** One step of the replay, with all a run of such steps needs. */
  lemma ReplayStep(n: Node, k: ConnId, lists: map<string, seq<Payload>>, marshal: Envelope -> Bytes) returns (e: Event)
    requires Sound(n) && k in n.links && Stores(lists, n) && n.links[k].replay != Replay([], [])
    ensures Enabled(n, e) && Sound(Next(n, e)) && Stores(lists, Next(n, e))
    ensures KeepsAwaited(n, k, lists, marshal, Next(n, e))
    ensures var was, now := n.links[k].replay, Next(n, e).links[k].replay;
      || |now.conversations| < |was.conversations|
      || (now.conversations == was.conversations && |now.batch| < |was.batch|)
  {
    if n.links[k].replay.batch == [] {
      e := ReadQueue(k);
      ReadStep(n, k, lists, marshal);
    } else {
      e := ReplayNext(k);
      ReplayNextStep(n, k, lists, marshal);
    }
    StepSound(n, e);
  }

  lemma AwaitedBoth(n: Node, k: ConnId, lists: map<string, seq<Payload>>, marshal: Envelope -> Bytes, m: Node, m': Node)
    requires k in n.links && k in m.links
    requires KeepsAwaited(n, k, lists, marshal, m) && KeepsAwaited(m, k, lists, marshal, m')
    ensures KeepsAwaited(n, k, lists, marshal, m')
  {
  }

  /** The refinement of the replay: from any state of any run, the rest of a connection's
      replay without interruption does to its channel what `DeliverOffline` does when every
      call works, and nothing to anything else. */
  lemma ReplayIsARun(members: map<string, seq<string>>, before: seq<Event>, k: ConnId,
                     lists: map<string, seq<Payload>>, marshal: Envelope -> Bytes) returns (es: seq<Event>)
    requires Allowed(Started(members), before)
    requires var n := After(Started(members), before);
      k in n.links && n.links[k].replay.batch == [] && Stores(lists, n)
    ensures var n := After(Started(members), before);
      && n.links[k].waiting <= |n.links[k].put| && Allowed(n, es)
      && var m := After(n, es);
         && OthersStand(n, k, m) && m.links[k].waiting <= |m.links[k].put| && m.links[k].replay == Replay([], [])
         && Channel(m.links[k], marshal)
            == Filled(Channel(n.links[k], marshal),
                      Marshalled(Queued(lists, n.links[k].replay.conversations), n.links[k].owner, marshal))
  {
    RunSound(Started(members), before);
    var n := After(Started(members), before);
    assert Pending(lists, n.links[k].replay) == Queued(lists, n.links[k].replay.conversations);
    es := ReplayRunsOut(n, k, lists, marshal);
    NothingAwaited(After(n, es).links[k], lists, marshal);
  }
}
