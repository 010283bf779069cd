/** Incoming messages (client/lib/core/messaging/message_inbox.dart): skipped when already
    stored, decrypted otherwise, and appended to the history. */
module MessageInbox {
  import opened Wrappers
  import opened SymbolicCrypto
  import opened ChatHistory
  import Ratchet
  import SessionManager

  datatype RelayEnvelope = RelayEnvelope(
    kind: string, conversationId: string, fromUserId: string, messageId: Option<string>,
    header: Option<Header>, ciphertext: Option<Blob>)

  /** One delivery and everything the handler gets from outside: whether a session exists,
      what decryption gave, a generated id and the time. */
  datatype Delivery = Delivery(env: RelayEnvelope, hasSession: bool, plaintext: Option<string>, uuid: string, now: int)

  /** An envelope carries text when its plaintext is valid UTF-8. */
  function Utf8(plaintext: Blob): Option<string> {
    if plaintext.Text? then Some(plaintext.text) else None
  }

  predicate AlreadyStored(box: Box, env: RelayEnvelope) {
    env.messageId.Some? && HasId(MessagesFor(box, env.conversationId), env.messageId.value)
  }

  /** The handler calls decrypt. */
  predicate Attempts(box: Box, d: Delivery) {
    && d.env.kind == "message"
    && d.env.header.Some? && d.env.ciphertext.Some?
    && !AlreadyStored(box, d.env)
    && d.hasSession
  }

  function RecordOf(d: Delivery): MessageRecord
    requires d.plaintext.Some?
  {
    MessageRecord(if d.env.messageId.Some? then d.env.messageId.value else d.uuid,
                  d.env.conversationId, d.env.fromUserId, d.plaintext.value, false, d.now)
  }

  ghost predicate Handled(before: Box, d: Delivery, after: Box) {
    var c := d.env.conversationId;
    if Attempts(before, d) && d.plaintext.Some? then
      && Appended(MessagesFor(before, c), RecordOf(d), MessagesFor(after, c))
      && forall o :: o != c ==> MessagesFor(after, o) == MessagesFor(before, o)
    else forall o :: MessagesFor(after, o) == MessagesFor(before, o)
  }

  /** What one delivery does to the history, exactly.  The id is the envelope's, and is not
      in the history yet, or a generated one, which is new. */
  lemma HandledExactly(before: Box, d: Delivery, after: Box)
    requires Handled(before, d, after)
    ensures var c, env := d.env.conversationId, d.env;
      var id := if env.messageId.Some? then env.messageId.value else d.uuid;
      var readable := && env.kind == "message" && env.header.Some? && env.ciphertext.Some? && d.hasSession
                      && d.plaintext.Some?;
      && Content(MessagesFor(after, c))
         == Content(MessagesFor(before, c))
            + (if readable && !(exists m :: m in MessagesFor(before, c) && m.id == id)
               then {MessageRecord(id := id, conversationId := c, senderId := env.fromUserId,
                                   text := d.plaintext.value, isMine := false, timestampMs := d.now)}
               else {})
      && forall o :: o != c ==> MessagesFor(after, o) == MessagesFor(before, o)
  {
    var c := d.env.conversationId;
    var id := if d.env.messageId.Some? then d.env.messageId.value else d.uuid;
    HasIdContent(MessagesFor(before, c), id);
    if Attempts(before, d) && d.plaintext.Some? && !HasId(MessagesFor(before, c), id) {
      SameElements(MessagesFor(after, c), MessagesFor(before, c) + [RecordOf(d)]);
    }
  }

  // ---- Any sequence of deliveries ----

  ghost predicate Run(boxes: seq<Box>, deliveries: seq<Delivery>) {
    |boxes| == |deliveries| + 1 && forall k :: 0 <= k < |deliveries| ==> Handled(boxes[k], deliveries[k], boxes[k + 1])
  }

  ghost predicate WellKept(box: Box) {
    forall c :: UniqueIds(MessagesFor(box, c)) && Sorted(MessagesFor(box, c))
  }

  ghost predicate Grows(before: Box, after: Box) {
    forall c :: Content(MessagesFor(before, c)) <= Content(MessagesFor(after, c))
  }

  lemma HandleKeeps(before: Box, d: Delivery, after: Box)
    requires WellKept(before) && Handled(before, d, after)
    ensures WellKept(after) && Grows(before, after)
    ensures Attempts(before, d) && d.plaintext.Some? && d.env.messageId.Some? ==> AlreadyStored(after, d.env)
  {
    if Attempts(before, d) && d.plaintext.Some? {
      var c := d.env.conversationId;
      AppendAddsOne(MessagesFor(before, c), RecordOf(d), MessagesFor(after, c));
    }
  }

  lemma {:induction false} RunKeeps(boxes: seq<Box>, deliveries: seq<Delivery>, j: nat, k: nat)
    requires Run(boxes, deliveries) && WellKept(boxes[0])
    requires j <= k < |boxes|
    ensures WellKept(boxes[j]) && WellKept(boxes[k]) && Grows(boxes[j], boxes[k])
    decreases k
  {
    if j < k {
      RunKeeps(boxes, deliveries, j, k - 1);
      HandleKeeps(boxes[k - 1], deliveries[k - 1], boxes[k]);
    } else if k > 0 {
      RunKeeps(boxes, deliveries, k - 1, k - 1);
      HandleKeeps(boxes[k - 1], deliveries[k - 1], boxes[k]);
    }
  }

  /** At most once: however live deliveries, replays and reconnects mix, at every moment
      each id occurs once in the history, the history is sorted and nothing is lost. */
  lemma AtMostOnce(boxes: seq<Box>, deliveries: seq<Delivery>, j: nat, k: nat)
    requires Run(boxes, deliveries) && WellKept(boxes[0])
    requires j <= k < |boxes|
    ensures WellKept(boxes[k]) && Grows(boxes[j], boxes[k])
  {
    RunKeeps(boxes, deliveries, j, k);
  }

  /** An id is decrypted successfully at most once, and never again after it is stored. */
  lemma DecryptedAtMostOnce(boxes: seq<Box>, deliveries: seq<Delivery>, j: nat, k: nat)
    requires Run(boxes, deliveries) && WellKept(boxes[0])
    requires j < k < |deliveries|
    requires var d, e := deliveries[j].env, deliveries[k].env;
      d.messageId.Some? && d.messageId == e.messageId && d.conversationId == e.conversationId
    requires AlreadyStored(boxes[j], deliveries[j].env)
        || (Attempts(boxes[j], deliveries[j]) && deliveries[j].plaintext.Some?)
    ensures !Attempts(boxes[k], deliveries[k])
  {
    RunKeeps(boxes, deliveries, j, j);
    RunKeeps(boxes, deliveries, j + 1, k);
    HandleKeeps(boxes[j], deliveries[j], boxes[j + 1]);
    var c, id := deliveries[j].env.conversationId, deliveries[j].env.messageId.value;
    HasIdContent(MessagesFor(boxes[j + 1], c), id);
    HasIdContent(MessagesFor(boxes[k], c), id);
    if AlreadyStored(boxes[j], deliveries[j].env) {
      HasIdContent(MessagesFor(boxes[j], c), id);
      var m :| m in MessagesFor(boxes[j], c) && m.id == id;
      assert m in Content(MessagesFor(boxes[j + 1], c));
    }
    var m :| m in MessagesFor(boxes[j + 1], c) && m.id == id;
    assert m in Content(MessagesFor(boxes[k], c));
  }

  /** Exactly once: a message that was delivered once with everything needed to read it, or
      was there already, has one record at every later moment, whatever else arrives. */
  lemma ExactlyOnce(boxes: seq<Box>, deliveries: seq<Delivery>, j: nat, k: nat)
    requires Run(boxes, deliveries) && WellKept(boxes[0])
    requires j < |deliveries| && j < k < |boxes| && deliveries[j].env.messageId.Some?
    requires var d := deliveries[j]; AlreadyStored(boxes[j], d.env) || (Attempts(boxes[j], d) && d.plaintext.Some?)
    ensures var env := deliveries[j].env; var records := MessagesFor(boxes[k], env.conversationId);
      exists i :: 0 <= i < |records| && records[i].id == env.messageId.value
               && forall n :: 0 <= n < |records| && records[n].id == env.messageId.value ==> n == i
  {
    RunKeeps(boxes, deliveries, j, j);
    RunKeeps(boxes, deliveries, j + 1, k);
    HandleKeeps(boxes[j], deliveries[j], boxes[j + 1]);
    var c, id := deliveries[j].env.conversationId, deliveries[j].env.messageId.value;
    var was: MessageRecord;
    if AlreadyStored(boxes[j], deliveries[j].env) {
      HasIdContent(MessagesFor(boxes[j], c), id);
      was :| was in MessagesFor(boxes[j], c) && was.id == id;
      assert was in Content(MessagesFor(boxes[j + 1], c));
    } else {
      HasIdContent(MessagesFor(boxes[j + 1], c), id);
      was :| was in MessagesFor(boxes[j + 1], c) && was.id == id;
    }
    assert was in Content(MessagesFor(boxes[k], c));
    var i :| 0 <= i < |MessagesFor(boxes[k], c)| && MessagesFor(boxes[k], c)[i] == was;
  }

  // ---- The handler ----

  class MessageInbox {
    const crypto: SessionManager.CryptoSessionManager
    const store: ChatHistoryStore
    var updates: seq<string>

    constructor (crypto: SessionManager.CryptoSessionManager, store: ChatHistoryStore)
      ensures this.crypto == crypto && this.store == store && updates == []
    {
      this.crypto := crypto;
      this.store := store;
      updates := [];
    }

    /** What decrypting this envelope would give now. */
    ghost function Plaintext(env: RelayEnvelope, ephemeral: PublicKey): Option<string>
      reads crypto, crypto.sessions.Values
    {
      var s := crypto.Loaded(env.conversationId);
      if s.None? || env.header.None? || env.ciphertext.None? then None
      else
        var r := Ratchet.Decrypted(s.value, Ratchet.Message(env.header.value, env.ciphertext.value), ephemeral).1;
        if r.Err? then None else Utf8(r.value)
    }

    /** Decrypts an envelope that has everything; a failure of any kind gives none. */
    method TextOf(env: RelayEnvelope, ephemeral: PublicKey) returns (text: Option<string>)
      requires crypto.Valid() && crypto.Loaded(env.conversationId).Some? && env.header.Some? && env.ciphertext.Some?
      modifies crypto, crypto.sessions.Values
      ensures crypto.Valid() && text == old(Plaintext(env, ephemeral))
      ensures crypto.Loaded(env.conversationId)
           == Some(Ratchet.Decrypted(old(crypto.Loaded(env.conversationId)).value,
                                     Ratchet.Message(env.header.value, env.ciphertext.value), ephemeral).0)
    {
      var r := crypto.Decrypt(env.conversationId, Ratchet.Message(env.header.value, env.ciphertext.value), ephemeral);
      if r.Err? { return None; }
      return Utf8(r.value);
    }

    method Handle(env: RelayEnvelope, ephemeral: PublicKey, uuid: string, now: int)
      requires crypto.Valid()
      modifies this, store, crypto, crypto.sessions.Values
      ensures crypto.Valid()
      ensures var d := Delivery(env, old(crypto.Loaded(env.conversationId)).Some?, old(Plaintext(env, ephemeral)),
          uuid, now);
        && Handled(old(store.box), d, store.box)
        && (if Attempts(old(store.box), d) then
              crypto.Loaded(env.conversationId)
                == Some(Ratchet.Decrypted(old(crypto.Loaded(env.conversationId)).value,
                                          Ratchet.Message(env.header.value, env.ciphertext.value), ephemeral).0)
            else forall c :: crypto.Loaded(c) == old(crypto.Loaded(c)))
        && updates == old(updates) + if Attempts(old(store.box), d) && d.plaintext.Some?
            then [env.conversationId] else []
    {
      if env.kind != "message" { return; }
      if env.header.None? || env.ciphertext.None? { return; }
      if env.messageId.Some? && HasId(MessagesFor(store.box, env.conversationId), env.messageId.value) { return; }
      if env.conversationId !in crypto.sessions && env.conversationId !in crypto.store { return; }
      var text := TextOf(env, ephemeral);
      if text.None? { return; }
      Keep(env, text.value, uuid, now);
    }

    /** Appends what was read and tells the listeners. */
    method Keep(env: RelayEnvelope, text: string, uuid: string, now: int)
      modifies this`updates, store
      ensures var c := env.conversationId; var m := RecordOf(Delivery(env, true, Some(text), uuid, now));
        && Appended(MessagesFor(old(store.box), c), m, MessagesFor(store.box, c))
        && forall o :: o != c ==> MessagesFor(store.box, o) == MessagesFor(old(store.box), o)
      ensures updates == old(updates) + [env.conversationId]
    {
      var id := if env.messageId.Some? then env.messageId.value else uuid;
      store.Append(MessageRecord(id, env.conversationId, env.fromUserId, text, false, now));
      updates := updates + [env.conversationId];
    }
  }
}
