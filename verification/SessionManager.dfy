/** Sessions behind the blob store (client/lib/core/crypto/session_manager.dart): every
    operation loads a session from memory or disk and writes it back before it returns. */
module SessionManager {
  import opened Wrappers
  import opened SymbolicCrypto
  import opened Ratchet

  datatype ManagerError = NoSession | NoKeyBundle | IdentityChanged | Ratchet(error: RatchetError)

  class CryptoSessionManager {
    /** The identity keys pinned on first use (client/lib/core/crypto/security/peer_identity_store.dart). */
    var pins: map<string, PublicKey>
    var sessions: map<string, RatchetSession>
    var store: map<string, StoredSession>

    /** No two conversations share a session object. */
    ghost predicate Valid()
      reads this
    {
      forall c, d :: c in sessions && d in sessions && c != d ==> sessions[c] != sessions[d]
    }

    /** The session the next operation on a conversation works on. */
    ghost function Loaded(conversation: string): Option<Session>
      reads this, sessions.Values
    {
      if conversation in sessions then Some(sessions[conversation].State())
      else if conversation in store then Some(FromJson(store[conversation]))
      else None
    }

    /** Nothing changes for the other conversations. */
    twostate predicate OthersKept(conversation: string)
      reads this, sessions.Values
    {
      forall d :: d != conversation ==>
        && Loaded(d) == old(Loaded(d))
        && (d in store <==> d in old(store)) && (d in store ==> store[d] == old(store[d]))
    }

    constructor ()
      ensures Valid() && sessions == map[] && store == map[] && pins == map[]
    {
      pins := map[];
      sessions := map[];
      store := map[];
    }

    /** Starts over with a peer whose key bundle was fetched, if it was, and whose identity
        key is the pinned one; a first key is pinned. */
    method EstablishSession(conversation: string, user: string, bootstrap: Key, mine: PublicKey,
                            bundle: Option<PublicKey>)
      returns (r: Result<RatchetSession, ManagerError>)
      requires Valid()
      modifies this
      ensures Valid() && OthersKept(conversation)
      ensures bundle == None <==> r == Err(NoKeyBundle)
      ensures bundle.Some? && user in old(pins) && old(pins)[user] != bundle.value <==> r == Err(IdentityChanged)
      ensures pins == if bundle.Some? && user !in old(pins) then old(pins)[user := bundle.value] else old(pins)
      ensures r.Err? ==> r.error in {NoKeyBundle, IdentityChanged} && sessions == old(sessions) && store == old(store)
      ensures r.Ok? ==>
        && Loaded(conversation) == Some(InitSession(bootstrap, mine, bundle.value))
        && conversation in sessions && sessions[conversation] == r.value
        && conversation in store && Some(FromJson(store[conversation])) == Loaded(conversation)
    {
      if bundle.None? { return Err(NoKeyBundle); }
      var peer := bundle.value;
      if user !in pins {
        pins := pins[user := peer];
      } else if pins[user] != peer {
        return Err(IdentityChanged);
      }
      var session := new RatchetSession.Init(bootstrap, mine, peer);
      sessions := sessions[conversation := session];
      store := store[conversation := ToJson(session.State())];
      return Ok(session);
    }

    method LoadOrThrow(conversation: string) returns (session: RatchetSession?)
      requires Valid()
      modifies this`sessions
      ensures Valid() && OthersKept(conversation)
      ensures Loaded(conversation) == old(Loaded(conversation))
      ensures session == null <==> old(Loaded(conversation)) == None
      ensures session != null ==> conversation in sessions && sessions[conversation] == session
      ensures session != null ==>
        fresh(session) || (conversation in old(sessions) && session == old(sessions[conversation]))
      ensures forall d :: d in sessions && d != conversation ==> d in old(sessions) && sessions[d] == old(sessions[d])
    {
      if conversation in sessions { return sessions[conversation]; }
      if conversation !in store { return null; }
      var s := new RatchetSession.FromStored(store[conversation]);
      sessions := sessions[conversation := s];
      return s;
    }

    /** The message is returned only once the advanced session is on disk. */
    method Encrypt(conversation: string, plaintext: Blob) returns (r: Result<Message, ManagerError>)
      requires Valid()
      modifies this, sessions.Values
      ensures Valid() && OthersKept(conversation) && pins == old(pins)
      ensures match old(Loaded(conversation))
        case None => r == Err(NoSession) && Loaded(conversation) == None
        case Some(s) =>
          && r == Ok(Encrypted(s, plaintext))
          && Loaded(conversation) == Some(AfterEncrypt(s))
          && conversation in sessions
          && conversation in store && store[conversation] == ToJson(AfterEncrypt(s))
    {
      var session := LoadOrThrow(conversation);
      if session == null { return Err(NoSession); }
      var m := session.Encrypt(plaintext);
      store := store[conversation := ToJson(session.State())];
      return Ok(m);
    }

    /** Only a successful decryption reaches the disk; a failed one has changed memory. */
    method Decrypt(conversation: string, m: Message, ephemeral: PublicKey) returns (r: Result<Blob, ManagerError>)
      requires Valid()
      modifies this, sessions.Values
      ensures Valid() && OthersKept(conversation) && pins == old(pins)
      ensures match old(Loaded(conversation))
        case None => r == Err(NoSession) && Loaded(conversation) == None
        case Some(s) =>
          var (s', outcome) := Decrypted(s, m, ephemeral);
          && Loaded(conversation) == Some(s') && conversation in sessions
          && (outcome.Ok? ==> r == Ok(outcome.value) && conversation in store && store[conversation] == ToJson(s'))
          && (outcome.Err? ==> r == Err(Ratchet(outcome.error)) && store == old(store))
    {
      var session := LoadOrThrow(conversation);
      if session == null { return Err(NoSession); }
      var outcome := session.Decrypt(m, ephemeral);
      if outcome.Err? { return Err(Ratchet(outcome.error)); }
      store := store[conversation := ToJson(session.State())];
      return Ok(outcome.value);
    }

    method ResetSession(conversation: string)
      requires Valid()
      modifies this
      ensures Valid() && OthersKept(conversation) && pins == old(pins)
      ensures Loaded(conversation) == None
    {
      sessions := sessions - {conversation};
      store := store - {conversation};
    }
  }
}
