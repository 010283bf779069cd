/** A conversation through both layers: what a device's inbox stores of a run of two ratchet
    sessions (client/lib/core/messaging/message_inbox.dart and double_ratchet.dart). */
module InboxAgreement {
  import opened Wrappers
  import opened SymbolicCrypto
  import opened RatchetAgreement
  import opened ChatHistory
  import opened MessageInbox

  /** The conversation as the relay labels it: its id, the peer's user id, and the message
      id given to each message of the peer. */
  datatype Line = Line(conversation: string, peer: string, ids: Place -> string)

  ghost predicate OwnIds(line: Line) {
    forall p, q :: line.ids(p) == line.ids(q) ==> p == q
  }

  function EnvelopeOf(line: Line, log: Log, place: Place): RelayEnvelope
    requires IsPlace(log, place)
  {
    var m := At(log, place).message;
    RelayEnvelope("message", line.conversation, line.peer, Some(line.ids(place)), Some(m.header), Some(m.ciphertext))
  }

  /** The record a message of the peer should become; only texts do. */
  predicate RecordsMessage(m: MessageRecord, line: Line, log: Log, place: Place)
    requires IsPlace(log, place)
  {
    && m.id == line.ids(place) && m.conversationId == line.conversation
    && m.senderId == line.peer && !m.isMine && Text(m.text) == At(log, place).plaintext
  }

  // ---- One delivery ----

  /** What decrypting the message at this place gives the inbox. */
  function Seen(w: World, me: Side, place: Place, ephemeral: PublicKey): Option<string>
    requires IsPlace(w.Of(me.Other()).log, place)
  {
    var outcome := Outcome(w, me, place, ephemeral);
    if outcome.Ok? then Utf8(outcome.value) else None
  }

  /** Handling an allowed delivery of a text: the history then has exactly one record under its
      id, with the text the peer encrypted and the peer as sender, and the session is that of
      the run. */
  method HandleFromPeer(inbox: MessageInbox, line: Line, ephemeral: PublicKey, uuid: string, now: int,
                        ghost bootstrap: Key, ghost identityA: PublicKey, ghost identityB: PublicKey,
                        ghost events: seq<Event>, w: World, me: Side, place: Place)
    requires inbox.crypto.Valid() && identityA != identityB
    requires Reaches(Start(bootstrap, identityA, identityB), events, w)
    requires Allowed(w, Deliver(me, place, ephemeral)) && At(w.Of(me.Other()).log, place).plaintext.Text?
    requires inbox.crypto.Loaded(line.conversation) == Some(w.Of(me).session)
    requires WellKept(inbox.store.box) && !HasId(MessagesFor(inbox.store.box, line.conversation), line.ids(place))
    modifies inbox, inbox.store, inbox.crypto, inbox.crypto.sessions.Values
    ensures inbox.crypto.Valid() && WellKept(inbox.store.box)
    ensures inbox.crypto.Loaded(line.conversation) == Some(Step(w, Deliver(me, place, ephemeral)).Of(me).session)
    ensures var records, log := MessagesFor(inbox.store.box, line.conversation), w.Of(me.Other()).log;
      exists i :: 0 <= i < |records| && RecordsMessage(records[i], line, log, place) && records[i].timestampMs == now
               && forall n :: 0 <= n < |records| && records[n].id == line.ids(place) ==> n == i
    ensures forall c :: c != line.conversation ==>
      MessagesFor(inbox.store.box, c) == MessagesFor(old(inbox.store.box), c)
    ensures inbox.updates == old(inbox.updates) + [line.conversation]
  {
    var env := EnvelopeOf(line, w.Of(me.Other()).log, place);
    ghost var d := Delivery(env, true, Seen(w, me, place, ephemeral), uuid, now);
    Agreement(bootstrap, identityA, identityB, events, w, me, place, ephemeral);
    assert inbox.Plaintext(env, ephemeral) == d.plaintext;
    inbox.Handle(env, ephemeral, uuid, now);
    RecordOnce(old(inbox.store.box), d, inbox.store.box);
  }

  /** A readable message with an id that is new has one record afterwards. */
  lemma RecordOnce(before: Box, d: Delivery, after: Box)
    requires Handled(before, d, after) && WellKept(before)
    requires d.env.kind == "message" && d.env.header.Some? && d.env.ciphertext.Some? && d.hasSession
    requires d.plaintext.Some? && d.env.messageId.Some?
    requires !HasId(MessagesFor(before, d.env.conversationId), d.env.messageId.value)
    ensures WellKept(after)
    ensures var records, env := MessagesFor(after, d.env.conversationId), d.env;
      exists i :: 0 <= i < |records|
        && records[i] == MessageRecord(env.messageId.value, env.conversationId, env.fromUserId, d.plaintext.value,
                                       false, d.now)
        && forall n :: 0 <= n < |records| && records[n].id == env.messageId.value ==> n == i
  {
    var c := d.env.conversationId;
    HandleKeeps(before, d, after);
    HandledExactly(before, d, after);
    HasIdContent(MessagesFor(before, c), d.env.messageId.value);
    var m := MessageRecord(d.env.messageId.value, c, d.env.fromUserId, d.plaintext.value, false, d.now);
    assert m in Content(MessagesFor(after, c));
    var records := MessagesFor(after, c);
    var i :| 0 <= i < |records| && records[i] == m;
  }

  // ---- Whole conversations ----

  function DeliveryOf(w: World, me: Side, place: Place, ephemeral: PublicKey, line: Line, uuid: string, now: int)
    : Delivery
    requires IsPlace(w.Of(me.Other()).log, place)
  {
    Delivery(EnvelopeOf(line, w.Of(me.Other()).log, place), true, Seen(w, me, place, ephemeral), uuid, now)
  }

  /** A step of the pair, or the relay sends a text once more that has been received. */
  datatype ChatEvent = Happens(event: Event) | Again(place: Place, ephemeral: PublicKey)

  predicate Offers(w: World, e: ChatEvent, me: Side) {
    match e
    case Happens(event) => Allowed(w, event)
    case Again(place, ephemeral) =>
      && IsPlace(w.Of(me.Other()).log, place) && place in w.Of(me).received
      && At(w.Of(me.Other()).log, place).plaintext.Text? && ephemeral !in w.used
  }

  /** The inbox takes what is delivered to its side, and nothing else happens to the history. */
  ghost predicate Taken(w: World, box: Box, e: ChatEvent, me: Side, line: Line, next: Box)
    requires Offers(w, e, me)
  {
    if e.Again? then
      exists uuid, now :: Handled(box, DeliveryOf(w, me, e.place, e.ephemeral, line, uuid, now), next)
    else if e.event.Deliver? && e.event.to == me then
      exists uuid, now :: Handled(box, DeliveryOf(w, me, e.event.place, e.event.ephemeral, line, uuid, now), next)
    else next == box
  }

  /** The two sessions afterwards: a message sent again reaches the ratchet only when the
      inbox attempts to decrypt it. */
  function After(w: World, box: Box, e: ChatEvent, me: Side, line: Line): World
    requires Offers(w, e, me)
  {
    match e
    case Happens(event) => Step(w, event)
    case Again(place, ephemeral) =>
      if Attempts(box, DeliveryOf(w, me, place, ephemeral, line, "", 0)) then
        w.With(me, Hears(w.Of(me), At(w.Of(me.Other()).log, place).message, ephemeral), ephemeral)
      else w
  }

  /** A run of the pair together with the history of one side. */
  ghost predicate Chats(w: World, box: Box, events: seq<ChatEvent>, me: Side, line: Line, w': World, box': Box)
    decreases |events|
  {
    if events == [] then w' == w && box' == box
    else
      && Offers(w, events[0], me)
      && exists next :: Taken(w, box, events[0], me, line, next)
                     && Chats(After(w, box, events[0], me, line), next, events[1..], me, line, w', box')
  }

  /** The history holds one record for each text received, and nothing else. */
  ghost predicate Mirrors(log: Log, received: set<Place>, records: Records, line: Line) {
    && UniqueIds(records)
    && (forall p <- received :: IsPlace(log, p))
    && (forall p <- received :: At(log, p).plaintext.Text? ==> Recorded(log, p, records, line))
    && (forall m <- records :: exists p :: p in received && RecordsMessage(m, line, log, p))
  }

  ghost predicate Recorded(log: Log, p: Place, records: Records, line: Line)
    requires IsPlace(log, p)
  {
    exists m :: m in records && RecordsMessage(m, line, log, p)
  }

  /** Logs only grow. */
  ghost predicate Extends(log: Log, log': Log) {
    forall p :: IsPlace(log, p) ==> IsPlace(log', p) && At(log', p) == At(log, p)
  }

  lemma StepExtends(w: World, e: Event, side: Side)
    requires Allowed(w, e)
    ensures Extends(w.Of(side).log, Step(w, e).Of(side).log)
  {
  }

  lemma MirrorsLonger(log: Log, log': Log, received: set<Place>, records: Records, line: Line)
    requires Mirrors(log, received, records, line) && Extends(log, log')
    ensures Mirrors(log', received, records, line)
  {
    forall p | p in received && At(log', p).plaintext.Text?
      ensures Recorded(log', p, records, line)
    {
      assert Recorded(log, p, records, line);
      var m :| m in records && RecordsMessage(m, line, log, p);
      assert RecordsMessage(m, line, log', p);
    }
    forall m | m in records
      ensures exists p :: p in received && RecordsMessage(m, line, log', p)
    {
      var p :| p in received && RecordsMessage(m, line, log, p);
      assert RecordsMessage(m, line, log', p);
    }
  }

  /** One more message received and handled. */
  lemma MirrorsOneMore(log: Log, received: set<Place>, before: Box, line: Line, place: Place, d: Delivery, after: Box)
    requires Mirrors(log, received, MessagesFor(before, line.conversation), line) && OwnIds(line) && WellKept(before)
    requires IsPlace(log, place) && place !in received
    requires Handled(before, d, after) && d.env == EnvelopeOf(line, log, place) && d.hasSession
    requires d.plaintext == Utf8(At(log, place).plaintext)
    ensures Mirrors(log, received + {place}, MessagesFor(after, line.conversation), line) && WellKept(after)
  {
    var records, records' := MessagesFor(before, line.conversation), MessagesFor(after, line.conversation);
    HandleKeeps(before, d, after);
    HandledExactly(before, d, after);
    forall m | m in records
      ensures m.id != line.ids(place)
    {
      var p :| p in received && RecordsMessage(m, line, log, p);
    }
    var new_ := MessageRecord(line.ids(place), line.conversation, line.peer,
                              if d.plaintext.Some? then d.plaintext.value else "", false, d.now);
    assert Content(records') == Content(records) + if d.plaintext.Some? then {new_} else {};
    forall p | p in received + {place} && At(log, p).plaintext.Text?
      ensures Recorded(log, p, records', line)
    {
      if p == place {
        assert new_ in Content(records') && RecordsMessage(new_, line, log, place);
      } else {
        assert Recorded(log, p, records, line);
        var m :| m in records && RecordsMessage(m, line, log, p);
        assert m in Content(records');
      }
    }
    forall m | m in records'
      ensures exists p :: p in received + {place} && RecordsMessage(m, line, log, p)
    {
      assert m in Content(records');
      if m in records {
        var p :| p in received && RecordsMessage(m, line, log, p);
        assert p in received + {place};
      } else {
        assert RecordsMessage(m, line, log, place);
      }
    }
  }

  /** What is sent again is neither decrypted nor stored. */
  lemma AgainIsIgnored(w: World, box: Box, place: Place, ephemeral: PublicKey, me: Side, line: Line, next: Box)
    requires Offers(w, Again(place, ephemeral), me) && Taken(w, box, Again(place, ephemeral), me, line, next)
    requires Mirrors(w.Of(me.Other()).log, w.Of(me).received, MessagesFor(box, line.conversation), line)
    ensures After(w, box, Again(place, ephemeral), me, line) == w
    ensures forall c :: MessagesFor(next, c) == MessagesFor(box, c)
  {
    var records := MessagesFor(box, line.conversation);
    assert Recorded(w.Of(me.Other()).log, place, records, line);
    HasIdContent(records, line.ids(place));
  }

  lemma ChatStep(w: World, box: Box, e: Event, me: Side, line: Line, next: Box)
    requires Synced(w) && Allowed(w, e) && OwnIds(line) && WellKept(box) && Taken(w, box, Happens(e), me, line, next)
    requires Mirrors(w.Of(me.Other()).log, w.Of(me).received, MessagesFor(box, line.conversation), line)
    ensures var w' := Step(w, e);
      Mirrors(w'.Of(me.Other()).log, w'.Of(me).received, MessagesFor(next, line.conversation), line) && WellKept(next)
  {
    var log, received := w.Of(me.Other()).log, w.Of(me).received;
    StepExtends(w, e, me.Other());
    if e.Deliver? && e.to == me {
      DeliverKeeps(w, me, e.place, e.ephemeral);
      var uuid, now :| Handled(box, DeliveryOf(w, me, e.place, e.ephemeral, line, uuid, now), next);
      MirrorsOneMore(log, received, box, line, e.place, DeliveryOf(w, me, e.place, e.ephemeral, line, uuid, now), next);
      MirrorsLonger(log, Step(w, e).Of(me.Other()).log, received + {e.place}, MessagesFor(next, line.conversation),
                    line);
    } else {
      MirrorsLonger(log, Step(w, e).Of(me.Other()).log, received, MessagesFor(next, line.conversation), line);
    }
  }

  /** What every run of a conversation keeps. */
  ghost predicate InStep(w: World, box: Box, me: Side, line: Line) {
    && Synced(w) && WellKept(box)
    && Mirrors(w.Of(me.Other()).log, w.Of(me).received, MessagesFor(box, line.conversation), line)
  }

  lemma ChatEventStep(w: World, box: Box, e: ChatEvent, me: Side, line: Line, next: Box)
    requires InStep(w, box, me, line) && Offers(w, e, me) && OwnIds(line) && Taken(w, box, e, me, line, next)
    ensures InStep(After(w, box, e, me, line), next, me, line)
    ensures e.Again? ==> After(w, box, e, me, line) == w
  {
    match e
    case Happens(event) =>
      ChatStep(w, box, event, me, line, next);
      StepKeeps(w, event);
    case Again(place, ephemeral) =>
      AgainIsIgnored(w, box, place, ephemeral, me, line, next);
  }

  /** The steps of the pair alone. */
  function Steps(events: seq<ChatEvent>): seq<Event>
    decreases |events|
  {
    if events == [] then []
    else if events[0].Again? then Steps(events[1..])
    else [events[0].event] + Steps(events[1..])
  }

  lemma {:induction false} ChatRun(w: World, box: Box, events: seq<ChatEvent>, me: Side, line: Line, w': World,
                                   box': Box)
    requires InStep(w, box, me, line) && OwnIds(line) && Chats(w, box, events, me, line, w', box')
    ensures InStep(w', box', me, line) && Reaches(w, Steps(events), w')
    decreases |events|
  {
    if events != [] {
      var e := events[0];
      var next :| Taken(w, box, e, me, line, next)
               && Chats(After(w, box, e, me, line), next, events[1..], me, line, w', box');
      ChatEventStep(w, box, e, me, line, next);
      ChatRun(After(w, box, e, me, line), next, events[1..], me, line, w', box');
      if e.Happens? {
        assert Steps(events)[0] == e.event && Steps(events)[1..] == Steps(events[1..]);
      }
    }
  }

  /** End to end.  In every run of the pair, with losses, reordering and messages sent again,
      what the inbox of one side has stored of the other is exactly the texts received: one
      record for each, with the text encrypted and the peer as sender.  And the two sessions
      are where they would be if nothing had been sent again. */
  lemma HistoryIsWhatArrived(bootstrap: Key, identityA: PublicKey, identityB: PublicKey, events: seq<ChatEvent>,
                             w: World, me: Side, line: Line, box: Box)
    requires identityA != identityB && OwnIds(line)
    requires Chats(Start(bootstrap, identityA, identityB), map[], events, me, line, w, box)
    ensures Mirrors(w.Of(me.Other()).log, w.Of(me).received, MessagesFor(box, line.conversation), line)
    ensures Reaches(Start(bootstrap, identityA, identityB), Steps(events), w)
  {
    StartSynced(bootstrap, identityA, identityB);
    ChatRun(Start(bootstrap, identityA, identityB), map[], events, me, line, w, box);
  }
}
