/** The relay of one node (backend/internal/relay/relay.go) as interleaved steps.  A sender's
    goroutine enqueues and then fans out; a connecting device's goroutine registers and then
    replays the queues; write pumps and the subscription run beside them. */
module Relay {
  import opened OfflineQueue
  import opened Hub
  import Connections

  type ConnId = nat

  /** A place in a conversation's history. */
  datatype Position = Position(conversation: string, index: nat)

  /** A fan-out under way: the members still to be looked up, and the connections of the
      present member still to be sent to. */
  datatype Fan = Fan(todo: seq<string>, member: string, snapshot: seq<ConnId>)

  /** A replay under way: the conversations still to be read, and the rest of the last read. */
  datatype Replay = Replay(conversations: seq<string>, batch: seq<Envelope>)

  /** A connection: what was put on its channel so far, how much of it the pump has not taken,
      what did not fit, and the histories at the moment it registered. */
  datatype Link = Link(owner: string, put: seq<Envelope>, waiting: nat, dropped: seq<Envelope>,
                       replay: Replay, since: map<string, seq<Envelope>>)

  /** `log` is everything ever enqueued; `lists` is what the queue still holds. */
  datatype Node = Node(
    members: map<string, seq<string>>,
    log: map<string, seq<Envelope>>,
    lists: map<string, seq<Envelope>>,
    fans: map<Position, Fan>,
    conns: Registry<ConnId>,
    links: map<ConnId, Link>,
    published: seq<Envelope>)

  function Started(members: map<string, seq<string>>): Node {
    Node(members, map[], map[], map[], map[], map[], [])
  }

  function Log(n: Node, p: Position): Envelope
    requires p.index < |ListOf(n.log, p.conversation)|
  {
    ListOf(n.log, p.conversation)[p.index]
  }

  predicate IsMember(n: Node, user: string, conversation: string) {
    user in ListOf(n.members, conversation)
  }

  predicate Connected(n: Node, k: ConnId) {
    k in n.links && k in ConnsOf(n.conns, n.links[k].owner)
  }

  // ---- The steps ----

  datatype Event =
    | Inbound(env: Envelope, generated: string)                     // membership check, enqueue
    | Lookup(at: Position)                                          // next member: skip, take a snapshot, or publish
    | SendNext(at: Position)                                        // put on the next connection of the snapshot
    | Register(user: string, k: ConnId, conversations: seq<string>) // and the user's conversations
    | ReadQueue(k: ConnId)
    | ReplayNext(k: ConnId)
    | Unregister(k: ConnId)
    | Drain(k: ConnId)                                              // the write pump takes one
    | Relayed(j: nat, k: ConnId)                                    // a published envelope comes back
    | Signal(env: Envelope, k: ConnId)                              // direct envelopes, call signals, avatars

  /** Generated ids are new; an id the sender chose need not be. */
  ghost predicate NewId(n: Node, id: string) {
    id != "" && forall p: Position :: p.index < |ListOf(n.log, p.conversation)| ==> Log(n, p).id != id
  }

  function WithId(env: Envelope, generated: string): Envelope {
    if env.id == "" then env.(id := generated) else env
  }

  ghost predicate Enabled(n: Node, e: Event) {
    match e
    case Inbound(env, generated) => env.kind == "message" && NewId(n, generated)
    case Lookup(at) =>
      at in n.fans && at.index < |ListOf(n.log, at.conversation)| && n.fans[at].todo != [] && n.fans[at].snapshot == []
    case SendNext(at) =>
      && at in n.fans && at.index < |ListOf(n.log, at.conversation)|
      && n.fans[at].snapshot != [] && n.fans[at].snapshot[0] in n.links
    case Register(user, k, conversations) => k !in n.links && forall c :: c in conversations <==> IsMember(n, user, c)
    case ReadQueue(k) => k in n.links && n.links[k].replay.batch == [] && n.links[k].replay.conversations != []
    case ReplayNext(k) => k in n.links && n.links[k].replay.batch != []
    case Unregister(k) => k in n.links && n.links[k].replay == Replay([], [])
    case Drain(k) => k in n.links && n.links[k].waiting > 0
    case Relayed(j, k) => j < |n.published| && k in n.links && n.links[k].owner == n.published[j].to
    case Signal(env, k) => env.kind != "message" && k in n.links
  }

  /** The channel's buffer takes the envelope or it is dropped. */
  function Sent(l: Link, env: Envelope): Link {
    if l.waiting < Connections.SEND_BUFFER_SIZE then l.(put := l.put + [env], waiting := l.waiting + 1)
    else l.(dropped := l.dropped + [env])
  }

  function Next(n: Node, e: Event): Node
    requires Enabled(n, e)
  {
    match e
    case Inbound(env, generated) =>
      var c := env.conversation;
      if !IsMember(n, env.sender, c) then n
      else
        var queued := WithId(env, generated);
        n.(log := n.log[c := ListOf(n.log, c) + [queued]],
           lists := n.lists[c := Pushed(ListOf(n.lists, c), queued)],
           fans := n.fans[Position(c, |ListOf(n.log, c)|) := Fan(ListOf(n.members, c), "", [])])
    case Lookup(at) =>
      var fan, env := n.fans[at], Log(n, at);
      var member := fan.todo[0];
      if member == env.sender then n.(fans := n.fans[at := fan.(todo := fan.todo[1..])])
      else
        var snapshot := ConnsOf(n.conns, member);
        n.(fans := n.fans[at := Fan(fan.todo[1..], member, snapshot)],
           published := if snapshot == [] then n.published + [env.(to := member)] else n.published)
    case SendNext(at) =>
      var fan := n.fans[at];
      var k := fan.snapshot[0];
      n.(fans := n.fans[at := fan.(snapshot := fan.snapshot[1..])],
         links := n.links[k := Sent(n.links[k], Log(n, at).(to := fan.member))])
    case Register(user, k, conversations) =>
      n.(conns := Registered(n.conns, user, k),
         links := n.links[k := Link(user, [], 0, [], Replay(conversations, []), n.log)])
    case ReadQueue(k) =>
      var l := n.links[k];
      n.(links := n.links[k := l.(replay := Replay(l.replay.conversations[1..],
          ListOf(n.lists, l.replay.conversations[0])))])
    case ReplayNext(k) =>
      var l := n.links[k];
      var rest := l.replay.(batch := l.replay.batch[1..]);
      n.(links := n.links[k := Sent(l, l.replay.batch[0].(to := l.owner)).(replay := rest)])
    case Unregister(k) => n.(conns := Unregistered(n.conns, n.links[k].owner, k))
    case Drain(k) => n.(links := n.links[k := n.links[k].(waiting := n.links[k].waiting - 1)])
    case Relayed(j, k) => n.(links := n.links[k := Sent(n.links[k], n.published[j])])
    case Signal(env, k) => n.(links := n.links[k := Sent(n.links[k], env)])
  }

  ghost predicate Allowed(n: Node, es: seq<Event>)
    decreases |es|
  {
    es == [] || (Enabled(n, es[0]) && Allowed(Next(n, es[0]), es[1..]))
  }

  function After(n: Node, es: seq<Event>): Node
    requires Allowed(n, es)
    decreases |es|
  {
    if es == [] then n else After(Next(n, es[0]), es[1..])
  }

  // ---- What every step keeps ----

  predicate Put(l: Link, env: Envelope) {
    env in l.put || env in l.dropped
  }

  /** The fan-out of this position will still reach connection `k` of `user`. */
  predicate FanReaches(f: Fan, user: string, k: ConnId) {
    user in f.todo || (f.member == user && k in f.snapshot)
  }

  /** The replay will still reach a message that was there before the connection. */
  predicate ReplayReaches(n: Node, p: Position, l: Link)
    requires p.index < |ListOf(n.log, p.conversation)|
  {
    && p.index < |ListOf(l.since, p.conversation)|
    && (p.conversation in l.replay.conversations || Log(n, p) in l.replay.batch || Overtaken(n, p))
  }

  /** 500 or more messages were enqueued after this one. */
  predicate Overtaken(n: Node, p: Position) {
    |ListOf(n.log, p.conversation)| > p.index + 500
  }

  predicate Covered(n: Node, p: Position, k: ConnId)
    requires p.index < |ListOf(n.log, p.conversation)| && p in n.fans && k in n.links
  {
    var l := n.links[k];
    Put(l, Log(n, p).(to := l.owner)) || FanReaches(n.fans[p], l.owner, k) || ReplayReaches(n, p, l)
  }

  /** Connection `k` has to get the message: its user is another member. */
  predicate Owed(n: Node, p: Position, k: ConnId) {
    && p.index < |ListOf(n.log, p.conversation)|
    && Connected(n, k)
    && IsMember(n, n.links[k].owner, p.conversation)
    && n.links[k].owner != Log(n, p).sender
  }

  ghost predicate QueuesKept(n: Node) {
    forall c :: ListOf(n.lists, c) == Tail(ListOf(n.log, c))
  }

  ghost predicate FansKept(n: Node) {
    forall p: Position :: p.index < |ListOf(n.log, p.conversation)| ==> p in n.fans
  }

  ghost predicate OwnersKept(n: Node) {
    forall u, k :: k in ConnsOf(n.conns, u) ==> k in n.links && n.links[k].owner == u
  }

  /** Nothing is dropped before the channel once held 4096 envelopes. */
  predicate BufferKept(l: Link) {
    l.waiting <= |l.put| && (l.dropped != [] ==> |l.put| >= 4096)
  }

  ghost predicate Shape(n: Node) {
    QueuesKept(n) && FansKept(n) && OwnersKept(n) && forall k <- n.links :: BufferKept(n.links[k])
  }

  ghost predicate Coverage(n: Node) {
    && Shape(n)
    && forall p, k :: Owed(n, p, k) ==> Covered(n, p, k)
  }

  lemma {:induction false} RemoveFirstSubset<C>(s: seq<C>, c: C, x: C)
    ensures x in RemoveFirst(s, c) ==> x in s
  {
    if s != [] {
      RemoveFirstSubset(s[1..], c, x);
    }
  }

  /** Only an inbound message is enqueued. */
  lemma LogStands(n: Node, e: Event)
    requires Enabled(n, e) && !e.Inbound?
    ensures Next(n, e).log == n.log && Next(n, e).lists == n.lists && Next(n, e).members == n.members
    ensures n.fans.Keys <= Next(n, e).fans.Keys
  {
    match e
    case Lookup(at) =>
    case SendNext(at) =>
    case Register(user, k, conversations) =>
    case Unregister(k) =>
    case _ =>
  }

  lemma LogGrows(n: Node, e: Event, p: Position)
    requires Enabled(n, e) && e.Inbound? && p.index < |ListOf(Next(n, e).log, p.conversation)|
    ensures if p.index < |ListOf(n.log, p.conversation)| then Log(Next(n, e), p) == Log(n, p)
            else
              && p == Position(e.env.conversation, |ListOf(n.log, e.env.conversation)|)
              && Log(Next(n, e), p) == WithId(e.env, e.generated) && p in Next(n, e).fans
    ensures n.fans.Keys <= Next(n, e).fans.Keys
  {
  }

  lemma QueuesStep(n: Node, e: Event)
    requires QueuesKept(n) && Enabled(n, e)
    ensures QueuesKept(Next(n, e))
  {
    if e.Inbound? {
      var m, c := Next(n, e), e.env.conversation;
      PushedTail(ListOf(n.log, c), WithId(e.env, e.generated));
      assert ListOf(n.lists, c) == Tail(ListOf(n.log, c));
      assert forall d :: d != c ==> ListOf(m.lists, d) == ListOf(n.lists, d) && ListOf(m.log, d) == ListOf(n.log, d);
    } else {
      LogStands(n, e);
    }
  }

  lemma FansStep(n: Node, e: Event)
    requires FansKept(n) && Enabled(n, e)
    ensures FansKept(Next(n, e))
  {
    if e.Inbound? {
      forall p: Position | p.index < |ListOf(Next(n, e).log, p.conversation)|
        ensures p in Next(n, e).fans
      {
        LogGrows(n, e, p);
      }
    } else {
      LogStands(n, e);
    }
  }

  lemma OwnersStand(n: Node, e: Event)
    requires Enabled(n, e)
    ensures forall k <- n.links :: k in Next(n, e).links && Next(n, e).links[k].owner == n.links[k].owner
    ensures forall k <- Next(n, e).links :: k in n.links || Next(n, e).links[k].put == []
  {
  }

  lemma ConnsStep(n: Node, e: Event, u: string, k: ConnId)
    requires Enabled(n, e) && k in ConnsOf(Next(n, e).conns, u)
    ensures k in ConnsOf(n.conns, u) || (e.Register? && k == e.k && u == e.user)
  {
    if e.Unregister? {
      RemoveFirstSubset(ConnsOf(n.conns, n.links[e.k].owner), e.k, k);
    }
  }

  lemma OwnersStep(n: Node, e: Event)
    requires OwnersKept(n) && Enabled(n, e)
    ensures OwnersKept(Next(n, e))
  {
    var m := Next(n, e);
    OwnersStand(n, e);
    forall u, k | k in ConnsOf(m.conns, u)
      ensures k in m.links && m.links[k].owner == u
    {
      ConnsStep(n, e, u, k);
    }
  }

  lemma BuffersStep(n: Node, e: Event)
    requires Enabled(n, e) && forall k <- n.links :: BufferKept(n.links[k])
    ensures forall k <- Next(n, e).links :: BufferKept(Next(n, e).links[k])
  {
  }

  lemma ShapeStep(n: Node, e: Event)
    requires Shape(n) && Enabled(n, e)
    ensures Shape(Next(n, e))
  {
    QueuesStep(n, e);
    FansStep(n, e);
    OwnersStep(n, e);
    BuffersStep(n, e);
  }

  /** The steps of the fan-outs. */
  lemma FanStepCovers(n: Node, e: Event, p: Position, k: ConnId)
    requires Shape(n) && Enabled(n, e) && (e.Lookup? || e.SendNext?)
    requires Owed(n, p, k) && Covered(n, p, k)
    ensures Covered(Next(n, e), p, k)
  {
    var l, m := n.links[k], Next(n, e);
    assert m.log == n.log;
    if e.SendNext? && n.fans[e.at].snapshot[0] == k {
      assert Put(m.links[k], Log(n, e.at).(to := n.fans[e.at].member));
      assert forall env :: Put(l, env) ==> Put(m.links[k], env);
    } else {
      assert m.links[k] == l;
    }
    if e.at == p {
      assert FanReaches(n.fans[p], l.owner, k) ==>
        FanReaches(m.fans[p], l.owner, k) || Put(m.links[k], Log(n, p).(to := l.owner));
    }
  }

  /** The steps of the replays. */
  lemma ReplayStepCovers(n: Node, e: Event, p: Position, k: ConnId)
    requires Shape(n) && Enabled(n, e) && (e.ReadQueue? || e.ReplayNext?)
    requires Owed(n, p, k) && Covered(n, p, k)
    ensures Covered(Next(n, e), p, k)
  {
    var l, m := n.links[k], Next(n, e);
    assert m.log == n.log && m.fans == n.fans;
    if e.k == k {
      assert forall env :: Put(l, env) ==> Put(m.links[k], env);
      if e.ReadQueue? && p.conversation == l.replay.conversations[0] && !Overtaken(n, p) {
        InTail(ListOf(n.log, p.conversation), p.index);
      }
    } else {
      assert m.links[k] == l;
    }
  }

  /** The steps of pumps, signals and the subscription leave fan-outs and replays alone. */
  lemma OtherStepCovers(n: Node, e: Event, p: Position, k: ConnId)
    requires Shape(n) && Enabled(n, e) && (e.Drain? || e.Relayed? || e.Signal?)
    requires Owed(n, p, k) && Covered(n, p, k)
    ensures Covered(Next(n, e), p, k)
  {
    var l, m := n.links[k], Next(n, e);
    assert m.log == n.log && m.fans == n.fans && m.links[k].replay == l.replay && m.links[k].since == l.since;
    assert forall env :: Put(l, env) ==> Put(m.links[k], env);
  }

  lemma InboundCovers(n: Node, e: Event, p: Position, k: ConnId)
    requires Coverage(n) && Enabled(n, e) && e.Inbound? && Owed(Next(n, e), p, k) && p in Next(n, e).fans
    ensures Covered(Next(n, e), p, k)
  {
    if p.index < |ListOf(n.log, p.conversation)| {
      assert Owed(n, p, k) && Covered(n, p, k);
      assert Next(n, e).fans[p] == n.fans[p] && Log(Next(n, e), p) == Log(n, p);
    } else {
      assert FanReaches(Next(n, e).fans[p], n.links[k].owner, k);
    }
  }

  /** Connecting and disconnecting. */
  lemma RegistryStepCovers(n: Node, e: Event, p: Position, k: ConnId)
    requires Coverage(n) && Enabled(n, e) && (e.Register? || e.Unregister?) && Owed(Next(n, e), p, k)
    ensures Covered(Next(n, e), p, k)
  {
    var m := Next(n, e);
    assert m.log == n.log && m.fans == n.fans;
    if e.Register? && k == e.k {
      assert ReplayReaches(m, p, m.links[k]);
    } else {
      if e.Unregister? {
        RemoveFirstSubset(ConnsOf(n.conns, n.links[e.k].owner), e.k, k);
      }
      assert m.links[k] == n.links[k];
      assert Owed(n, p, k) && Covered(n, p, k);
    }
  }

  lemma StepCovers(n: Node, e: Event, p: Position, k: ConnId)
    requires Coverage(n) && Enabled(n, e) && Owed(Next(n, e), p, k) && p in Next(n, e).fans
    ensures Covered(Next(n, e), p, k)
  {
    if e.Inbound? {
      InboundCovers(n, e, p, k);
    } else if e.Register? || e.Unregister? {
      RegistryStepCovers(n, e, p, k);
    } else {
      assert Owed(n, p, k) && Covered(n, p, k);
      if e.Lookup? || e.SendNext? {
        FanStepCovers(n, e, p, k);
      } else if e.ReadQueue? || e.ReplayNext? {
        ReplayStepCovers(n, e, p, k);
      } else {
        OtherStepCovers(n, e, p, k);
      }
    }
  }

  lemma StepKeeps(n: Node, e: Event)
    requires Coverage(n) && Enabled(n, e)
    ensures Coverage(Next(n, e))
  {
    ShapeStep(n, e);
    forall p, k | Owed(Next(n, e), p, k)
      ensures Covered(Next(n, e), p, k)
    {
      StepCovers(n, e, p, k);
    }
  }

  lemma {:induction false} RunKeeps(n: Node, es: seq<Event>)
    requires Coverage(n) && Allowed(n, es)
    ensures Coverage(After(n, es))
    decreases |es|
  {
    if es != [] {
      StepKeeps(n, es[0]);
      RunKeeps(Next(n, es[0]), es[1..]);
    }
  }

  /** Where senders leave the choice of ids to the relay. */
  predicate LeavesIds(es: seq<Event>) {
    forall e <- es :: e.Inbound? ==> e.env.id == ""
  }

  ghost predicate IdsDistinct(n: Node) {
    forall p: Position, q: Position ::
      p != q && p.index < |ListOf(n.log, p.conversation)| && q.index < |ListOf(n.log, q.conversation)|
      ==> Log(n, p).id != Log(n, q).id
  }

  lemma StepIds(n: Node, e: Event)
    requires IdsDistinct(n) && Enabled(n, e) && (e.Inbound? ==> e.env.id == "")
    ensures IdsDistinct(Next(n, e))
  {
    var m := Next(n, e);
    if e.Inbound? {
      forall p: Position, q: Position |
        p != q && p.index < |ListOf(m.log, p.conversation)| && q.index < |ListOf(m.log, q.conversation)|
        ensures Log(m, p).id != Log(m, q).id
      {
        LogGrows(n, e, p);
        LogGrows(n, e, q);
      }
    } else {
      LogStands(n, e);
    }
  }

  /** Then no two messages of a run are equal, so that having put one is not having put
      another. */
  lemma {:induction false} IdsUnique(n: Node, es: seq<Event>)
    requires IdsDistinct(n) && Allowed(n, es) && LeavesIds(es)
    ensures IdsDistinct(After(n, es))
    decreases |es|
  {
    if es != [] {
      StepIds(n, es[0]);
      IdsUnique(Next(n, es[0]), es[1..]);
    }
  }

  /** No message falls between live and replay.  However sends, connections, replays, pumps
      and disconnections interleave: once the fan-out of a message and the replay of a still
      registered connection of another member are over, the message was put on it.  The only
      exceptions are a message that was there before the connection and has 500 others
      behind it, and one that found the channel's 4096 places taken. */
  lemma NothingFallsBetween(members: map<string, seq<string>>, es: seq<Event>, p: Position, k: ConnId)
    requires Allowed(Started(members), es)
    requires var n := After(Started(members), es);
      && Owed(n, p, k)
      && p in n.fans && n.fans[p].todo == [] && n.fans[p].snapshot == []
      && n.links[k].replay == Replay([], [])
      && (p.index < |ListOf(n.links[k].since, p.conversation)| ==> !Overtaken(n, p))
    ensures var n := After(Started(members), es); var l := n.links[k]; var env := Log(n, p).(to := l.owner);
      env in l.put || (env in l.dropped && |l.put| >= 4096)
  {
    RunKeeps(Started(members), es);
    var n := After(Started(members), es);
    assert Covered(n, p, k);
  }
}
