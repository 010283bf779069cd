/** The relay's handlers (backend/internal/relay/relay.go) run without interruption, over
    connections, hub and queue objects.  Marshalling is a parameter. */
module RelayHandler {
  import opened Padding
  import opened Connections
  import opened Hub
  import opened OfflineQueue

  function Without(users: seq<string>, user: string): seq<string> {
    if users == [] then []
    else Without(users[..|users| - 1], user) + if users[|users| - 1] == user then [] else [users[|users| - 1]]
  }

  /** Whom an envelope goes to: anyone for a direct one, fellow members otherwise. */
  function Recipients(members: map<string, seq<string>>, env: Envelope): seq<string> {
    var isMember := env.sender in ListOf(members, env.conversation);
    match env.kind
    case "direct" => if env.to == "" then [] else [env.to]
    case "call_signal" => if env.to == "" || !isMember then [] else [env.to]
    case "avatar" => if env.to == "" || !isMember then [] else [env.to]
    case "message" => if !isMember then [] else Without(ListOf(members, env.conversation), env.sender)
    case _ => []
  }

  /** Which of the calls to the database and to Redis work out. */
  datatype Works = Works(membership: bool, enqueue: bool, members: bool)

  /** Whom an envelope goes to when calls may fail: a message only after it was queued. */
  function Reached(members: map<string, seq<string>>, env: Envelope, works: Works): seq<string> {
    if env.kind == "direct" then Recipients(members, env)
    else if !works.membership || (env.kind == "message" && !(works.enqueue && works.members)) then []
    else Recipients(members, env)
  }

  /** The channel of connection `c` once the envelope went out to all these users. */
  function Fanned<C(==)>(view: Registry<C>, users: seq<string>, env: Envelope, marshal: Envelope -> Bytes,
                         c: C, was: seq<Bytes>): seq<Bytes>
    decreases |users|
  {
    if users == [] then was
    else
      var user := users[|users| - 1];
      Offered(ConnsOf(view, user), marshal(env.(to := user)), c,
          Fanned(view, users[..|users| - 1], env, marshal, c, was))
  }

  lemma FannedOneMore(view: Registry<Conn?>, users: seq<string>, i: nat, env: Envelope, marshal: Envelope -> Bytes,
                      c: Conn, was: seq<Bytes>)
    requires i < |users|
    ensures Fanned(view, users[..i + 1], env, marshal, c, was)
         == Offered(ConnsOf(view, users[i]), marshal(env.(to := users[i])), c,
             Fanned(view, users[..i], env, marshal, c, was))
  {
    assert users[..i + 1][..i] == users[..i];
  }

  predicate Distinct(users: seq<string>) {
    forall i, j :: 0 <= i < j < |users| ==> users[i] != users[j]
  }

  lemma {:induction false} WithoutMembers(users: seq<string>, user: string)
    ensures forall u :: u in Without(users, user) <==> u in users && u != user
    ensures Distinct(users) ==> Distinct(Without(users, user))
  {
    if users != [] {
      WithoutMembers(users[..|users| - 1], user);
      assert users == users[..|users| - 1] + [users[|users| - 1]];
      assert Distinct(users) ==> users[|users| - 1] !in users[..|users| - 1];
    }
  }

  lemma {:induction false} FannedTo(view: Registry<Conn?>, users: seq<string>, env: Envelope,
                                    marshal: Envelope -> Bytes,
                                    c: Conn, was: seq<Bytes>, owner: string)
    requires Distinct(users)
    requires forall u :: c in ConnsOf(view, u) ==> u == owner
    ensures Fanned(view, users, env, marshal, c, was)
         == if owner in users && c in ConnsOf(view, owner) && |was| < SEND_BUFFER_SIZE
            then was + [marshal(env.(to := owner))] else was
  {
    if users != [] {
      FannedTo(view, users[..|users| - 1], env, marshal, c, was, owner);
      assert users == users[..|users| - 1] + [users[|users| - 1]];
    }
  }

  /** A message reaches each connection of each other member once, under that member's
      name, and no connection of the sender or of a stranger; when a call fails, nobody. */
  lemma MessageReachesOthersOnce(members: map<string, seq<string>>, view: Registry<Conn?>, env: Envelope, works: Works,
                                 marshal: Envelope -> Bytes, c: Conn, was: seq<Bytes>, owner: string)
    requires env.kind == "message" && Distinct(ListOf(members, env.conversation))
    requires c in ConnsOf(view, owner) && forall u :: c in ConnsOf(view, u) ==> u == owner
    ensures var fellows := ListOf(members, env.conversation);
      var goesOut := works == Works(true, true, true) && env.sender in fellows && owner in fellows
          && owner != env.sender;
      Fanned(view, Reached(members, env, works), env, marshal, c, was)
      == if goesOut && |was| < SEND_BUFFER_SIZE then was + [marshal(env.(to := owner))] else was
  {
    var others := Without(ListOf(members, env.conversation), env.sender);
    assert Reached(members, env, works)
        == if works == Works(true, true, true) && env.sender in ListOf(members, env.conversation) then others else [];
    WithoutMembers(ListOf(members, env.conversation), env.sender);
    FannedTo(view, Reached(members, env, works), env, marshal, c, was, owner);
  }

  /** What goes to the other nodes: the envelope for each of these users without a connection
      here. */
  function PublishedTo(view: Registry<Conn?>, users: seq<string>, env: Envelope): seq<Envelope> {
    if users == [] then []
    else
      var user := users[|users| - 1];
      PublishedTo(view, users[..|users| - 1], env) + if ConnsOf(view, user) == [] then [env.(to := user)] else []
  }

  lemma {:induction false} PublishedMember(view: Registry<Conn?>, users: seq<string>, env: Envelope, e: Envelope)
    ensures e in PublishedTo(view, users, env)
       <==> e.to in users && ConnsOf(view, e.to) == [] && e == env.(to := e.to)
    ensures Distinct(users) ==> multiset(PublishedTo(view, users, env))[e] <= 1
  {
    if users != [] {
      var before, user := users[..|users| - 1], users[|users| - 1];
      assert users == before + [user];
      PublishedMember(view, before, env, e);
      assert e in multiset(PublishedTo(view, before, env)) <==> e in PublishedTo(view, before, env);
      assert e.to in users <==> e.to in before || e.to == user;
      if Distinct(users) {
        assert Distinct(before) && user !in before;
      }
    }
  }

  /** A message is published once for each other member without a connection here, and for
      nobody else; when a call fails, for nobody. */
  lemma MessagePublishedOnce(members: map<string, seq<string>>, view: Registry<Conn?>, env: Envelope, works: Works,
                             queued: Envelope, e: Envelope)
    requires env.kind == "message" && Distinct(ListOf(members, env.conversation))
    ensures var fellows := ListOf(members, env.conversation);
      var goesOut := works == Works(true, true, true) && env.sender in fellows && e.to in fellows
          && e.to != env.sender;
      multiset(PublishedTo(view, Reached(members, env, works), queued))[e]
      == if goesOut && ConnsOf(view, e.to) == [] && e == queued.(to := e.to) then 1 else 0
  {
    var users := Reached(members, env, works);
    assert users == if works == Works(true, true, true) && env.sender in ListOf(members, env.conversation)
                    then Without(ListOf(members, env.conversation), env.sender) else [];
    WithoutMembers(ListOf(members, env.conversation), env.sender);
    PublishedMember(view, users, queued, e);
    assert e in multiset(PublishedTo(view, users, queued)) <==> e in PublishedTo(view, users, queued);
  }

  /** A channel that was offered all these and is read by no one meanwhile. */
  function Filled(was: seq<Bytes>, offered: seq<Bytes>): seq<Bytes> {
    if |was| >= SEND_BUFFER_SIZE then was
    else if |was| + |offered| <= SEND_BUFFER_SIZE then was + offered
    else (was + offered)[..SEND_BUFFER_SIZE]
  }

  function Marshalled(envs: seq<Envelope>, user: string, marshal: Envelope -> Bytes): seq<Bytes> {
    seq(|envs|, i requires 0 <= i < |envs| => marshal(envs[i].(to := user)))
  }

  /** Everything readable in the queues of these conversations, in order. */
  function Queued(lists: map<string, seq<Payload>>, conversations: seq<string>): seq<Envelope> {
    if conversations == [] then []
    else
      var last := |conversations| - 1;
      Queued(lists, conversations[..last]) + Readable(ListOf(lists, conversations[last]))
  }

  /** The conversations among these whose queue can be read. */
  function Answering(conversations: seq<string>, readable: set<string>): seq<string> {
    if conversations == [] then []
    else
      var last := |conversations| - 1;
      Answering(conversations[..last], readable) + if conversations[last] in readable then [conversations[last]] else []
  }

  /** Failing reads leave out their conversations and no others. */
  lemma {:induction false} AnsweringAppends(a: seq<string>, b: seq<string>, readable: set<string>)
    ensures Answering(a + b, readable) == Answering(a, readable) + Answering(b, readable)
  {
    if b == [] {
      assert a + b == a;
    } else {
      var last := |b| - 1;
      AnsweringAppends(a, b[..last], readable);
      assert (a + b)[..|a| + last] == a + b[..last] && (a + b)[|a| + last] == b[last];
      AppendRegrouped(Answering(a, readable), Answering(b[..last], readable),
                      if b[last] in readable then [b[last]] else []);
    }
  }

  lemma AppendRegrouped<T>(a: seq<T>, b: seq<T>, c: seq<T>)
    ensures a + b + c == a + (b + c)
  {
  }

  lemma AnsweringOne(c: string, readable: set<string>)
    ensures Answering([c], readable) == if c in readable then [c] else []
  {
    assert [c][..0] == [];
  }

  lemma AnsweringOneMore(lists: map<string, seq<Payload>>, conversations: seq<string>, i: nat, readable: set<string>)
    requires i < |conversations|
    ensures var sofar := Queued(lists, Answering(conversations[..i], readable));
      Queued(lists, Answering(conversations[..i + 1], readable))
      == if conversations[i] in readable then sofar + Readable(ListOf(lists, conversations[i])) else sofar
  {
    assert conversations[..i + 1][..i] == conversations[..i];
    var before := Answering(conversations[..i], readable);
    if conversations[i] in readable {
      assert (before + [conversations[i]])[..|before|] == before;
    } else {
      assert before + [] == before;
    }
  }

  lemma FilledOneMore(was: seq<Bytes>, offered: seq<Bytes>, raw: Bytes)
    ensures Filled(was, offered + [raw])
         == if |Filled(was, offered)| < SEND_BUFFER_SIZE then Filled(was, offered) + [raw] else Filled(was, offered)
  {
    assert was + (offered + [raw]) == (was + offered) + [raw];
  }

  class Handler {
    const hub: ConnHub<Conn?>
    const offline: OfflineQueue
    const members: map<string, seq<string>>
    const marshal: Envelope -> Bytes

    constructor (hub: ConnHub<Conn?>, offline: OfflineQueue, members: map<string, seq<string>>,
        marshal: Envelope -> Bytes)
      ensures this.hub == hub && this.offline == offline && this.members == members && this.marshal == marshal
    {
      this.hub, this.offline, this.members, this.marshal := hub, offline, members, marshal;
    }

    /** Every registered connection is one of `local`, once per user. */
    static ghost predicate Ready(view: Registry<Conn?>, local: set<Conn>) {
      forall u :: NoRepeats(ConnsOf(view, u)) && forall c <- ConnsOf(view, u) :: c != null && c in local
    }

    /** Delivers to each user in turn. */
    method FanOut(users: seq<string>, env: Envelope, ghost view: Registry<Conn?>, ghost local: set<Conn>)
      returns (published: seq<Envelope>)
      requires hub.Valid() && hub.View() == view && Ready(view, local)
      modifies local`send
      ensures hub.Valid() && hub.View() == view
      ensures forall c <- local :: c.send == Fanned(view, users, env, marshal, c, old(c.send))
      ensures published == PublishedTo(view, users, env)
    {
      published := [];
      var i := 0;
      while i < |users|
        invariant i <= |users| && hub.Valid() && hub.View() == view
        invariant forall c <- local :: c.send == Fanned(view, users[..i], env, marshal, c, old(c.send))
        invariant published == PublishedTo(view, users[..i], env)
      {
        var raw := marshal(env.(to := users[i]));
        label before:
        var elsewhere := Deliver(hub, users[i], raw, local);
        forall c | c in local
          ensures c.send == Fanned(view, users[..i + 1], env, marshal, c, old(c.send))
        {
          assert c.send == Offered(ConnsOf(view, users[i]), raw, c, old@before(c.send));
          FannedOneMore(view, users, i, env, marshal, c, old(c.send));
        }
        assert users[..i + 1][..i] == users[..i];
        if elsewhere { published := published + [env.(to := users[i])]; }
        i := i + 1;
      }
      assert users[..i] == users;
    }

    /** Delivers to the user the envelope names. */
    method DeliverNamed(env: Envelope, ghost view: Registry<Conn?>, ghost local: set<Conn>)
      returns (published: seq<Envelope>)
      requires hub.Valid() && hub.View() == view && Ready(view, local)
      modifies local`send
      ensures hub.Valid() && hub.View() == view
      ensures published == if ConnsOf(view, env.to) == [] then [env] else []
      ensures forall c <- local ::
        c.send == if c in ConnsOf(view, env.to) && |old(c.send)| < 4096 then old(c.send) + [marshal(env)]
                  else old(c.send)
      ensures published == PublishedTo(view, [env.to], env)
      ensures forall c <- local :: c.send == Fanned(view, [env.to], env, marshal, c, old(c.send))
    {
      var elsewhere := Deliver(hub, env.to, marshal(env), local);
      published := if elsewhere then [env] else [];
      assert env.(to := env.to) == env && [env.to][..0] == [];
      assert forall c <- local ::
        Fanned(view, [env.to][..0], env, marshal, c, old(c.send)) == old(c.send);
    }

    /** Direct envelopes, call signals and avatars go to every connection of the one user they
        name; messages are queued and go to the other members. */
    method HandleInbound(env: Envelope, generated: string, works: Works, ghost view: Registry<Conn?>,
                         ghost local: set<Conn>)
      returns (published: seq<Envelope>)
      requires hub.Valid() && hub.View() == view && Ready(view, local)
      modifies offline, local`send
      ensures hub.Valid() && hub.View() == view
      ensures env.kind in {"direct", "call_signal", "avatar"} ==>
        var isMember := works.membership && env.sender in ListOf(members, env.conversation);
        var goesOut := env.to != "" && (env.kind == "direct" || isMember);
        && (forall c <- local ::
              c.send == if goesOut && c in ConnsOf(view, env.to) && |old(c.send)| < 4096
                        then old(c.send) + [marshal(env)] else old(c.send))
        && published == (if goesOut && ConnsOf(view, env.to) == [] then [env] else [])
        && offline.lists == old(offline.lists)
      ensures env.kind !in {"direct", "call_signal", "avatar", "message"} ==>
        published == [] && offline.lists == old(offline.lists) && forall c <- local :: c.send == old(c.send)
      ensures
        var isMember := works.membership && env.sender in ListOf(members, env.conversation);
        var enqueued := env.kind == "message" && isMember && works.enqueue;
        var id := if enqueued && env.id == "" then generated else env.id;
        && (forall c <- local :: c.send == Fanned(view, Reached(members, env, works), env.(id := id), marshal, c,
            old(c.send)))
        && published == PublishedTo(view, Reached(members, env, works), env.(id := id))
        && (forall conv :: ListOf(offline.lists, conv)
              == if enqueued && conv == env.conversation
                 then Pushed(ListOf(old(offline.lists), conv), Json(env.(id := id)))
                 else ListOf(old(offline.lists), conv))
    {
      published := [];
      if env.kind == "direct" {
        if env.to == "" { return; }
        published := DeliverNamed(env, view, local);
        return;
      }
      if env.kind == "call_signal" || env.kind == "avatar" {
        if env.to == "" { return; }
        if !works.membership || env.sender !in ListOf(members, env.conversation) { return; }
        published := DeliverNamed(env, view, local);
        return;
      }
      if env.kind != "message" { return; }
      if !works.membership || env.sender !in ListOf(members, env.conversation) { return; }
      if !works.enqueue { return; }
      published := HandleMessage(env, generated, works.members, view, local);
    }

    /** A member's message is queued, and then goes out if its recipients can be listed. */
    method HandleMessage(env: Envelope, generated: string, listed: bool, ghost view: Registry<Conn?>,
                         ghost local: set<Conn>)
      returns (published: seq<Envelope>)
      requires hub.Valid() && hub.View() == view && Ready(view, local)
      modifies offline, local`send
      ensures hub.Valid() && hub.View() == view
      ensures var queued := env.(id := if env.id == "" then generated else env.id);
        var to := if listed then Without(ListOf(members, env.conversation), env.sender) else [];
        && (forall c <- local :: c.send == Fanned(view, to, queued, marshal, c, old(c.send)))
        && published == PublishedTo(view, to, queued)
        && (forall conv :: ListOf(offline.lists, conv)
              == if conv == env.conversation then Pushed(ListOf(old(offline.lists), conv), Json(queued))
                 else ListOf(old(offline.lists), conv))
    {
      var id := offline.Enqueue(env, generated);
      if !listed { return []; }
      published := FanOut(Without(ListOf(members, env.conversation), env.sender), env.(id := id), view, local);
    }

    /** Puts one conversation's queue on a channel that was already offered `sofar`. */
    method SendBatch(envs: seq<Envelope>, user: string, conn: Conn, ghost was: seq<Bytes>, ghost sofar: seq<Envelope>)
      requires conn.send == Filled(was, Marshalled(sofar, user, marshal))
      modifies conn`send
      ensures conn.send == Filled(was, Marshalled(sofar + envs, user, marshal))
    {
      assert sofar + envs[..0] == sofar;
      var j := 0;
      while j < |envs|
        invariant j <= |envs| && conn.send == Filled(was, Marshalled(sofar + envs[..j], user, marshal))
      {
        var raw := marshal(envs[j].(to := user));
        FilledOneMore(was, Marshalled(sofar + envs[..j], user, marshal), raw);
        assert Marshalled(sofar + envs[..j + 1], user, marshal) == Marshalled(sofar + envs[..j], user, marshal) + [raw];
        var queued := conn.Send(raw);
        j := j + 1;
      }
      assert envs[..j] == envs;
    }

    /** Replays every queue of the user's conversations that can be read, the user's own
        messages included, if the conversations can be listed at all. */
    method DeliverOffline(user: string, conversations: seq<string>, conn: Conn, listed: bool, readable: set<string>)
      modifies conn`send
      ensures var answering := if listed then Answering(conversations, readable) else [];
        conn.send == Filled(old(conn.send), Marshalled(Queued(offline.lists, answering), user, marshal))
    {
      ghost var was, lists := conn.send, offline.lists;
      assert Marshalled([], user, marshal) == [] && Filled(was, []) == was;
      if !listed { return; }
      var i := 0;
      while i < |conversations|
        invariant i <= |conversations| && offline.lists == lists
        invariant var sofar := Queued(lists, Answering(conversations[..i], readable));
          conn.send == Filled(was, Marshalled(sofar, user, marshal))
      {
        AnsweringOneMore(lists, conversations, i, readable);
        if conversations[i] in readable {
          var envs := offline.ForConversation(conversations[i]);
          SendBatch(envs, user, conn, was, Queued(lists, Answering(conversations[..i], readable)));
        }
        i := i + 1;
      }
      assert conversations[..i] == conversations;
    }
  }
}
