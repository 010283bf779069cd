/** A user's own messages coming back: the relay replays them under ids the sender has not
    stored (client/lib/features/dm/dm_chat_screen.dart), so the inbox tries to decrypt them. */
module OwnReplay {
  import opened Wrappers
  import opened SymbolicCrypto
  import opened Ratchet
  import opened RatchetAgreement
  import opened RatchetDivergence
  import RatchetExactness
  import opened ChatHistory
  import opened MessageInbox

  /** The envelope carries the message at a place of this log. */
  predicate Carries(env: RelayEnvelope, log: Log, place: Place) {
    && env.kind == "message" && IsPlace(log, place)
    && env.header == Some(At(log, place).message.header)
    && env.ciphertext == Some(At(log, place).message.ciphertext)
  }

  lemma OwnReplayed(bootstrap: Key, identityA: PublicKey, identityB: PublicKey, events: seq<Event>, w: World,
                    to: Side, place: Place, ephemeral: PublicKey)
    requires identityA != identityB
    requires Reaches(Start(bootstrap, identityA, identityB), events, w) && ephemeral !in w.used
    requires IsPlace(w.Of(to).log, place)
    ensures var s, r, m := w.Of(to.Other()), w.Of(to), At(w.Of(to).log, place).message;
      && Decrypted(r.session, m, ephemeral).1.Err?
      && (!TooFar(r.session, m.header.pn) ==>
            Parted(s, Hears(r, m, ephemeral), w.used + {m.header.dh}, |s.log|, |r.log|))
  {
    var s, r, m := w.Of(to.Other()), w.Of(to), At(w.Of(to).log, place).message;
    RatchetExactness.OwnNeverDecrypts(bootstrap, identityA, identityB, events, w, to, place, ephemeral);
    if !TooFar(r.session, m.header.pn) {
      ReachesSettled(bootstrap, identityA, identityB, events, w);
      ForbiddenForks(w, to, to, place);
      SingleDeliveryExactly(bootstrap, identityA, identityB, events, w, to, m, ephemeral);
    }
  }

  /** Handling an own message that is not stored under its relay id leaves the history as it
      was and the session parted from the peer's, unless the message's skip is refused. */
  method HandleOwn(inbox: MessageInbox, env: RelayEnvelope, ephemeral: PublicKey, uuid: string, now: int,
                   ghost bootstrap: Key, ghost identityA: PublicKey, ghost identityB: PublicKey,
                   ghost events: seq<Event>, ghost w: World, ghost to: Side, ghost place: Place)
    requires inbox.crypto.Valid() && identityA != identityB
    requires Reaches(Start(bootstrap, identityA, identityB), events, w) && ephemeral !in w.used
    requires Carries(env, w.Of(to).log, place) && !AlreadyStored(inbox.store.box, env)
    requires inbox.crypto.Loaded(env.conversationId) == Some(w.Of(to).session)
    modifies inbox, inbox.store, inbox.crypto, inbox.crypto.sessions.Values
    ensures inbox.crypto.Valid() && inbox.updates == old(inbox.updates)
    ensures forall c :: MessagesFor(inbox.store.box, c) == MessagesFor(old(inbox.store.box), c)
    ensures var s, r, m := w.Of(to.Other()), w.Of(to), At(w.Of(to).log, place).message;
      && inbox.crypto.Loaded(env.conversationId) == Some(Hears(r, m, ephemeral).session)
      && (!TooFar(r.session, m.header.pn) ==>
            Parted(s, Hears(r, m, ephemeral), w.used + {m.header.dh}, |s.log|, |r.log|))
  {
    OwnReplayed(bootstrap, identityA, identityB, events, w, to, place, ephemeral);
    assert inbox.Plaintext(env, ephemeral) == None;
    inbox.Handle(env, ephemeral, uuid, now);
  }
}
