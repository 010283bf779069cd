/** Group sessions (client/lib/core/crypto/group_session_manager.dart): sender keys are
    handed out through a pairwise ratchet session with every other member. */
module GroupSessions {
  import opened Wrappers
  import opened SymbolicCrypto
  import opened Ratchet
  import opened SenderKeys
  import RatchetAgreement

  type UserId = nat

  /** A key-exchange session is shared by an unordered pair of members of a group. */
  datatype KxId = KxId(group: string, low: UserId, high: UserId)

  function KxOf(group: string, a: UserId, b: UserId): KxId {
    if a <= b then KxId(group, a, b) else KxId(group, b, a)
  }

  lemma KxOfShared(group: string, a: UserId, b: UserId, c: UserId)
    ensures KxOf(group, a, b) == KxOf(group, b, a)
    ensures KxOf(group, a, b) == KxOf(group, a, c) <==> b == c
  {
  }

  /** What establishing a missing session needs from outside: the own identity key, the
      bootstrap secrets derived from the passphrase and a session's id, and the key bundles
      that can be fetched. */
  datatype Directory = Directory(mine: PublicKey, secret: KxId -> Key, bundles: map<UserId, PublicKey>)

  type Sessions = map<KxId, Session>

  /** The pairwise sessions in memory and in storage, and the identity key every peer had at
      first contact. */
  datatype Keyring = Keyring(cached: Sessions, stored: map<KxId, StoredSession>, pins: map<UserId, PublicKey>) {
    predicate Has(id: KxId) {
      id in cached || id in stored
    }

    /** The cached session, the stored one otherwise. */
    function SessionOf(id: KxId): Session
      requires Has(id)
    {
      if id in cached then cached[id] else FromJson(stored[id])
    }
  }

  datatype GroupError =
    | NoKeyBundle | IdentityChanged | NoKxSession | NoOwnKey | Ratchet(error: RatchetError) | Malformed

  /** Why the session of a pair can be neither found nor established, if so. */
  function Obstacle(k: Keyring, id: KxId, other: UserId, dir: Directory): Option<GroupError> {
    if k.Has(id) then None
    else if other !in dir.bundles then Some(NoKeyBundle)
    else if other in k.pins && k.pins[other] != dir.bundles[other] then Some(IdentityChanged)
    else None
  }

  predicate Reachable(k: Keyring, id: KxId, other: UserId, dir: Directory) {
    Obstacle(k, id, other, dir).None?
  }

  function Ensured(k: Keyring, id: KxId, other: UserId, dir: Directory): Session
    requires Reachable(k, id, other, dir)
  {
    if k.Has(id) then k.SessionOf(id) else InitSession(dir.secret(id), dir.mine, dir.bundles[other])
  }

  /** The session in memory becomes `s`, and the one in storage, too, when it is written. */
  function Put(k: Keyring, id: KxId, s: Session, written: bool): Keyring {
    Keyring(k.cached[id := s], if written then k.stored[id := ToJson(s)] else k.stored, k.pins)
  }

  /** The pair's session is in memory; establishing it has pinned a first identity key and
      written the session. */
  function Found(k: Keyring, id: KxId, other: UserId, dir: Directory): (r: Keyring)
    requires Reachable(k, id, other, dir)
    ensures id in r.cached && r.Has(id)
  {
    var s := Ensured(k, id, other, dir);
    if k.Has(id) then Put(k, id, s, false)
    else Put(k.(pins := if other in k.pins then k.pins else k.pins[other := dir.bundles[other]]), id, s, true)
  }

  /** The keyring after the payload was encrypted to `other`. */
  function SentTo(k: Keyring, id: KxId, other: UserId, dir: Directory): Keyring
    requires Reachable(k, id, other, dir)
  {
    Put(Found(k, id, other, dir), id, AfterEncrypt(Ensured(k, id, other, dir)), true)
  }

  /** The payload encrypted to one member after the other, up to the first whose session can
      be neither found nor established. */
  function Distribute(k: Keyring, group: string, me: UserId, others: seq<UserId>, dir: Directory, payload: Blob)
    : (r: (Keyring, seq<Message>))
    ensures |r.1| <= |others|
    decreases |others|
  {
    if others == [] || !Reachable(k, KxOf(group, me, others[0]), others[0], dir) then (k, [])
    else
      var id := KxOf(group, me, others[0]);
      var (later, messages) := Distribute(SentTo(k, id, others[0], dir), group, me, others[1..], dir, payload);
      (later, [Encrypted(Ensured(k, id, others[0], dir), payload)] + messages)
  }

  lemma DistributeFrom(k: Keyring, group: string, me: UserId, others: seq<UserId>, i: nat, dir: Directory,
                       payload: Blob)
    requires i < |others|
    ensures var id := KxOf(group, me, others[i]);
      Distribute(k, group, me, others[i..], dir, payload)
      == if !Reachable(k, id, others[i], dir) then (k, [])
         else
           var rest := Distribute(SentTo(k, id, others[i], dir), group, me, others[i + 1..], dir, payload);
           (rest.0, [Encrypted(Ensured(k, id, others[i], dir), payload)] + rest.1)
  {
    assert others[i..][0] == others[i] && others[i..][1..] == others[i + 1..];
  }

  /** The outcome of a distribution of which some messages are already made. */
  function Preceded(messages: seq<Message>, rest: (Keyring, seq<Message>)): (Keyring, seq<Message>) {
    (rest.0, messages + rest.1)
  }

  lemma PrecededByOne(messages: seq<Message>, m: Message, rest: (Keyring, seq<Message>))
    ensures Preceded(messages + [m], rest) == Preceded(messages, (rest.0, [m] + rest.1))
  {
    assert messages + [m] + rest.1 == messages + ([m] + rest.1);
  }

  lemma PrecededEnds(messages: seq<Message>, k: Keyring)
    ensures Preceded(messages, (k, [])) == (k, messages)
    ensures Preceded([], (k, messages)) == (k, messages)
  {
    assert messages + [] == messages && [] + messages == messages;
  }

  /** One round of a distribution of which some messages are already made. */
  lemma PrecededFrom(messages: seq<Message>, k: Keyring, group: string, me: UserId, others: seq<UserId>, i: nat,
                     dir: Directory, payload: Blob)
    requires i < |others|
    ensures var id := KxOf(group, me, others[i]);
      Preceded(messages, Distribute(k, group, me, others[i..], dir, payload))
      == if !Reachable(k, id, others[i], dir) then (k, messages)
         else
           Preceded(messages + [Encrypted(Ensured(k, id, others[i], dir), payload)],
                    Distribute(SentTo(k, id, others[i], dir), group, me, others[i + 1..], dir, payload))
  {
    DistributeFrom(k, group, me, others, i, dir, payload);
    var id := KxOf(group, me, others[i]);
    if Reachable(k, id, others[i], dir) {
      PrecededByOne(messages, Encrypted(Ensured(k, id, others[i], dir), payload),
                    Distribute(SentTo(k, id, others[i], dir), group, me, others[i + 1..], dir, payload));
    } else {
      PrecededEnds(messages, k);
    }
  }

  /** Sessions with anybody else are left alone. */
  lemma {:induction false} DistributeOthers(k: Keyring, group: string, me: UserId, others: seq<UserId>, dir: Directory,
                                            payload: Blob, id: KxId)
    requires forall o <- others :: KxOf(group, me, o) != id
    ensures var later := Distribute(k, group, me, others, dir, payload).0;
      && (id in later.cached <==> id in k.cached) && (id in later.cached ==> later.cached[id] == k.cached[id])
      && (id in later.stored <==> id in k.stored) && (id in later.stored ==> later.stored[id] == k.stored[id])
    decreases |others|
  {
    var kx := if others == [] then id else KxOf(group, me, others[0]);
    if others != [] && Reachable(k, kx, others[0], dir) {
      DistributeOthers(SentTo(k, kx, others[0], dir), group, me, others[1..], dir, payload, id);
    }
  }

  /** What is in storage is what is in memory. */
  predicate Durable(k: Keyring, id: KxId) {
    id in k.cached && id in k.stored && k.stored[id] == ToJson(k.cached[id])
  }

  lemma SentToDurable(k: Keyring, id: KxId, other: UserId, dir: Directory, x: KxId)
    requires Reachable(k, id, other, dir)
    ensures x == id || Durable(k, x) ==> Durable(SentTo(k, id, other, dir), x)
  {
  }

  /** The session with every member reached is in storage as it is in memory. */
  lemma {:induction false} DistributePersists(k: Keyring, group: string, me: UserId, others: seq<UserId>,
                                              dir: Directory, payload: Blob, id: KxId)
    requires Durable(k, id)
      || exists i :: 0 <= i < |Distribute(k, group, me, others, dir, payload).1| && KxOf(group, me, others[i]) == id
    ensures Durable(Distribute(k, group, me, others, dir, payload).0, id)
    decreases |others|
  {
    var kx := if others == [] then id else KxOf(group, me, others[0]);
    if others != [] && Reachable(k, kx, others[0], dir) {
      var next := SentTo(k, kx, others[0], dir);
      SentToDurable(k, kx, others[0], dir, id);
      if kx != id && !Durable(k, id) {
        var i :| 0 <= i < |Distribute(k, group, me, others, dir, payload).1| && KxOf(group, me, others[i]) == id;
        assert others[1..][i - 1] == others[i];
      }
      DistributePersists(next, group, me, others[1..], dir, payload, id);
    }
  }

  /** Trust on first use: a pinned key stays, and who is established during a distribution is
      established under the key pinned for it. */
  lemma {:induction false} DistributeKeepsPins(k: Keyring, group: string, me: UserId, others: seq<UserId>,
                                               dir: Directory, payload: Blob, o: UserId)
    ensures PinsKept(k, Distribute(k, group, me, others, dir, payload).0, KxOf(group, me, o), others, dir, o)
    decreases |others|
  {
    var kx := if others == [] then KxOf(group, me, o) else KxOf(group, me, others[0]);
    if others != [] && Reachable(k, kx, others[0], dir) {
      var next := SentTo(k, kx, others[0], dir);
      KxOfShared(group, me, o, others[0]);
      SentToPins(k, kx, others[0], dir, KxOf(group, me, o), o);
      assert others[..1] == [others[0]];
      DistributeKeepsPins(next, group, me, others[1..], dir, payload, o);
      var later := Distribute(next, group, me, others[1..], dir, payload).0;
      PinsKeptBoth(k, next, later, KxOf(group, me, o), others, dir, o);
    }
  }

  /** From `k` to `later`, for user `o` and its session `id`. */
  predicate PinsKept(k: Keyring, later: Keyring, id: KxId, others: seq<UserId>, dir: Directory, o: UserId) {
    && (o in k.pins ==> o in later.pins && later.pins[o] == k.pins[o])
    && (o in later.pins && o !in k.pins ==> o in others && o in dir.bundles && later.pins[o] == dir.bundles[o])
    && (k.Has(id) ==> later.Has(id))
    && (later.Has(id) && !k.Has(id) ==> o in later.pins && o in dir.bundles && later.pins[o] == dir.bundles[o])
  }

  lemma SentToPins(k: Keyring, id: KxId, other: UserId, dir: Directory, x: KxId, o: UserId)
    requires Reachable(k, id, other, dir) && (x == id <==> o == other)
    ensures PinsKept(k, SentTo(k, id, other, dir), x, [other], dir, o)
  {
  }

  lemma PinsKeptBoth(k: Keyring, next: Keyring, later: Keyring, id: KxId, others: seq<UserId>, dir: Directory,
                     o: UserId)
    requires others != []
    requires PinsKept(k, next, id, others[..1], dir, o) && PinsKept(next, later, id, others[1..], dir, o)
    ensures PinsKept(k, later, id, others, dir, o)
  {
  }

  /** Sending to one member brings nobody else within reach or out of it. */
  lemma ReachSteady(k: Keyring, group: string, me: UserId, first: UserId, dir: Directory, o: UserId)
    requires Reachable(k, KxOf(group, me, first), first, dir)
    ensures Reachable(SentTo(k, KxOf(group, me, first), first, dir), KxOf(group, me, o), o, dir)
       <==> Reachable(k, KxOf(group, me, o), o, dir)
  {
    KxOfShared(group, me, o, first);
  }

  /** The distribution goes exactly up to the first member out of reach at the start. */
  lemma {:induction false} DistributeStopsAt(k: Keyring, group: string, me: UserId, others: seq<UserId>, dir: Directory,
                                             payload: Blob)
    ensures var n := |Distribute(k, group, me, others, dir, payload).1|;
      && (forall i :: 0 <= i < n ==> Reachable(k, KxOf(group, me, others[i]), others[i], dir))
      && (n < |others| ==> !Reachable(k, KxOf(group, me, others[n]), others[n], dir))
    decreases |others|
  {
    if others != [] && Reachable(k, KxOf(group, me, others[0]), others[0], dir) {
      var next := SentTo(k, KxOf(group, me, others[0]), others[0], dir);
      DistributeStopsAt(next, group, me, others[1..], dir, payload);
      forall o: UserId
        ensures Reachable(next, KxOf(group, me, o), o, dir) <==> Reachable(k, KxOf(group, me, o), o, dir)
      {
        ReachSteady(k, group, me, others[0], dir, o);
      }
    }
  }

  /** Every member reached, listed once, is sent the payload under its own session, which
      moves on by exactly that message, in memory and in storage. */
  lemma {:induction false} DistributeReachesEach(k: Keyring, group: string, me: UserId, others: seq<UserId>,
                                                 dir: Directory, payload: Blob, i: nat)
    requires forall j, n :: 0 <= j < n < |others| ==> others[j] != others[n]
    requires i < |Distribute(k, group, me, others, dir, payload).1|
    ensures var (later, messages) := Distribute(k, group, me, others, dir, payload);
      Reaches(k, later, messages[i], KxOf(group, me, others[i]), others[i], dir, payload)
    decreases |others|
  {
    var kx := KxOf(group, me, others[0]);
    var next := SentTo(k, kx, others[0], dir);
    forall n | 0 < n < |others|
      ensures KxOf(group, me, others[n]) != kx
    {
      KxOfShared(group, me, others[n], others[0]);
    }
    if i == 0 {
      DistributeOthers(next, group, me, others[1..], dir, payload, kx);
    } else {
      DistributeReachesEach(next, group, me, others[1..], dir, payload, i - 1);
      var (later, messages) := Distribute(next, group, me, others[1..], dir, payload);
      ReachesSteady(k, later, messages[i - 1], kx, others[0], KxOf(group, me, others[i]), others[i], dir, payload);
    }
  }

  /** `other` was sent the payload under its own session, which is left one step further in
      memory and in storage. */
  predicate Reaches(k: Keyring, later: Keyring, m: Message, id: KxId, other: UserId, dir: Directory, payload: Blob) {
    && Reachable(k, id, other, dir)
    && var s := Ensured(k, id, other, dir);
       && m == Encrypted(s, payload)
       && id in later.cached && later.cached[id] == AfterEncrypt(s)
       && id in later.stored && later.stored[id] == ToJson(AfterEncrypt(s))
  }

  lemma ReachesSteady(k: Keyring, later: Keyring, m: Message, first: KxId, o: UserId, id: KxId, other: UserId,
                      dir: Directory, payload: Blob)
    requires Reachable(k, first, o, dir) && id != first && other != o
    requires Reaches(SentTo(k, first, o, dir), later, m, id, other, dir, payload)
    ensures Reaches(k, later, m, id, other, dir, payload)
  {
  }

  lemma PutTwice(k: Keyring, id: KxId, s: Session, t: Session, written: bool)
    ensures Put(Put(k, id, s, false), id, t, written) == Put(k, id, t, written)
  {
  }

  /** What a decrypted distribution installs. */
  function Installed(plaintext: Blob): Option<SenderState> {
    if plaintext.Distribution? then Some(SenderState(plaintext.chainKey, plaintext.iteration)) else None
  }

  /** What decrypting under a pair's session leaves of the keyring, and its result. */
  function Received(k: Keyring, id: KxId, m: Message, ephemeral: PublicKey): (Keyring, Result<Blob, GroupError>)
    requires k.Has(id)
  {
    var (s, r) := Decrypted(k.SessionOf(id), m, ephemeral);
    (Put(k, id, s, r.Ok?), if r.Ok? then Ok(r.value) else Err(Ratchet(r.error)))
  }

  /** A failed decryption leaves storage alone; a successful one is in storage. */
  lemma ReceivedStored(k: Keyring, id: KxId, m: Message, ephemeral: PublicKey)
    requires k.Has(id)
    ensures var (later, outcome) := Received(k, id, m, ephemeral);
      && later.pins == k.pins && id in later.cached
      && (outcome.Err? ==> later.stored == k.stored)
      && (outcome.Ok? ==> Durable(later, id))
      && forall x :: x != id ==>
           && (x in later.cached <==> x in k.cached) && (x in k.cached ==> later.cached[x] == k.cached[x])
           && (x in later.stored <==> x in k.stored) && (x in k.stored ==> later.stored[x] == k.stored[x])
  {
  }

  /** Whether the session was in memory or in storage makes no difference. */
  lemma ReceivedLoaded(k: Keyring, id: KxId, m: Message, ephemeral: PublicKey)
    requires k.Has(id)
    ensures Received(Put(k, id, k.SessionOf(id), false), id, m, ephemeral) == Received(k, id, m, ephemeral)
  {
    var (s, r) := Decrypted(k.SessionOf(id), m, ephemeral);
    PutTwice(k, id, k.SessionOf(id), s, r.Ok?);
  }

  class GroupSessionManager {
    var ownKeys: map<string, SenderState>
    var peerKeys: map<(string, UserId), SenderState>
    var kxSessions: Sessions
    var ownStore: map<string, SenderState>
    var peerStore: map<(string, UserId), SenderState>
    var kxStore: map<KxId, StoredSession>
    var pins: map<UserId, PublicKey>

    function Ring(): Keyring
      reads this`kxSessions, this`kxStore, this`pins
    {
      Keyring(kxSessions, kxStore, pins)
    }

    constructor ()
      ensures ownKeys == map[] && peerKeys == map[] && Ring() == Keyring(map[], map[], map[])
    {
      ownKeys, peerKeys, kxSessions := map[], map[], map[];
      ownStore, peerStore, kxStore, pins := map[], map[], map[], map[];
    }

    /** The session of a pair, loaded or established, and cached; a first identity key is
        pinned and a changed one refused. */
    method EnsureKx(id: KxId, other: UserId, dir: Directory) returns (r: Result<Session, GroupError>)
      modifies this`kxSessions, this`kxStore, this`pins
      ensures match Obstacle(old(Ring()), id, other, dir)
        case Some(e) => r == Err(e) && Ring() == old(Ring())
        case None => r == Ok(Ensured(old(Ring()), id, other, dir)) && Ring() == Found(old(Ring()), id, other, dir)
    {
      var existing := LoadExistingKx(id);
      if existing.Some? { return Ok(existing.value); }
      if other !in dir.bundles { return Err(NoKeyBundle); }
      var peer := dir.bundles[other];
      if other !in pins {
        pins := pins[other := peer];
      } else if pins[other] != peer {
        return Err(IdentityChanged);
      }
      var s := InitSession(dir.secret(id), dir.mine, peer);
      PersistKx(id, s);
      return Ok(s);
    }

    /** Memory first, then storage. */
    method LoadExistingKx(id: KxId) returns (session: Option<Session>)
      modifies this`kxSessions
      ensures session == if old(Ring()).Has(id) then Some(old(Ring()).SessionOf(id)) else None
      ensures Ring() == if session.Some? then Put(old(Ring()), id, session.value, false) else old(Ring())
    {
      if id in kxSessions {
        assert kxSessions[id := kxSessions[id]] == kxSessions;
        return Some(kxSessions[id]);
      }
      if id !in kxStore { return None; }
      kxSessions := kxSessions[id := FromJson(kxStore[id])];
      return Some(kxSessions[id]);
    }

    method PersistKx(id: KxId, session: Session)
      modifies this`kxSessions, this`kxStore
      ensures Ring() == Put(old(Ring()), id, session, true)
    {
      kxSessions := kxSessions[id := session];
      kxStore := kxStore[id := ToJson(session)];
    }

    /** A new generation; `seed` is the randomly generated chain key.  The own key is new even
        when the distribution breaks off at a member out of reach. */
    method RekeyAndDistribute(group: string, me: UserId, others: seq<UserId>, dir: Directory, seed: Key)
      returns (messages: seq<Message>, complete: bool)
      modifies this
      ensures ownKeys == old(ownKeys)[group := SenderState(seed, 0)]
          && ownStore == old(ownStore)[group := SenderState(seed, 0)]
      ensures peerKeys == old(peerKeys) && peerStore == old(peerStore)
      ensures (Ring(), messages) == Distribute(old(Ring()), group, me, others, dir, Distribution(group, seed, 0))
      ensures complete <==> |messages| == |others|
      ensures forall i :: 0 <= i < |messages| ==> Durable(Ring(), KxOf(group, me, others[i]))
    {
      var state := SenderState(seed, 0);
      ownKeys := ownKeys[group := state];
      ownStore := ownStore[group := state];
      messages := DistributeAll(group, me, others, dir, Distribution(group, state.chainKey, state.iteration));
      complete := |messages| == |others|;
      forall i | 0 <= i < |messages|
        ensures Durable(Ring(), KxOf(group, me, others[i]))
      {
        var id := KxOf(group, me, others[i]);
        DistributePersists(old(Ring()), group, me, others, dir, Distribution(group, seed, 0), id);
      }
    }

    method DistributeAll(group: string, me: UserId, others: seq<UserId>, dir: Directory, payload: Blob)
      returns (messages: seq<Message>)
      modifies this`kxSessions, this`kxStore, this`pins
      ensures (Ring(), messages) == Distribute(old(Ring()), group, me, others, dir, payload)
    {
      messages := [];
      assert others[0..] == others;
      ghost var all := Distribute(Ring(), group, me, others, dir, payload);
      PrecededEnds(all.1, all.0);
      var i := 0;
      while i < |others|
        invariant i <= |others|
        invariant all == Preceded(messages, Distribute(Ring(), group, me, others[i..], dir, payload))
      {
        PrecededFrom(messages, Ring(), group, me, others, i, dir, payload);
        var message := SendPayload(KxOf(group, me, others[i]), others[i], dir, payload);
        if message.None? { return; }
        messages := messages + [message.value];
        i := i + 1;
      }
      assert others[i..] == [];
      PrecededEnds(messages, Ring());
    }

    method SendPayload(id: KxId, other: UserId, dir: Directory, payload: Blob) returns (message: Option<Message>)
      modifies this`kxSessions, this`kxStore, this`pins
      ensures message.Some? <==> Reachable(old(Ring()), id, other, dir)
      ensures message.None? ==> Ring() == old(Ring())
      ensures message.Some? ==>
        && message.value == Encrypted(Ensured(old(Ring()), id, other, dir), payload)
        && Ring() == SentTo(old(Ring()), id, other, dir)
    {
      var session := EnsureKx(id, other, dir);
      if session.Err? { return None; }
      PersistKx(id, AfterEncrypt(session.value));
      return Some(Encrypted(session.value, payload));
    }

    /** Decrypts through a session in memory; the state is stored on success only. */
    method DecryptKx(id: KxId, m: Message, ephemeral: PublicKey) returns (outcome: Result<Blob, GroupError>)
      requires id in kxSessions
      modifies this`kxSessions, this`kxStore
      ensures (Ring(), outcome) == Received(old(Ring()), id, m, ephemeral)
    {
      var result := Decrypted(kxSessions[id], m, ephemeral);
      kxSessions := kxSessions[id := result.0];
      if result.1.Err? { return Err(Ratchet(result.1.error)); }
      assert kxSessions[id := result.0] == kxSessions;
      PersistKx(id, result.0);
      return Ok(result.1.value);
    }

    /** Call signals go through the same sessions, which must exist already. */
    method EncryptForCall(id: KxId, plaintext: Blob) returns (r: Result<Message, GroupError>)
      modifies this`kxSessions, this`kxStore
      ensures if !old(Ring()).Has(id) then r == Err(NoKxSession) && Ring() == old(Ring())
              else
                var s := old(Ring()).SessionOf(id);
                r == Ok(Encrypted(s, plaintext)) && Ring() == Put(old(Ring()), id, AfterEncrypt(s), true)
    {
      var session := LoadExistingKx(id);
      if session.None? { return Err(NoKxSession); }
      PersistKx(id, AfterEncrypt(session.value));
      return Ok(Encrypted(session.value, plaintext));
    }

    method DecryptForCall(id: KxId, m: Message, ephemeral: PublicKey) returns (r: Result<Blob, GroupError>)
      modifies this`kxSessions, this`kxStore
      ensures if !old(Ring()).Has(id) then r == Err(NoKxSession) && Ring() == old(Ring())
              else (Ring(), r) == Received(old(Ring()), id, m, ephemeral)
    {
      var session := LoadExistingKx(id);
      if session.None? { return Err(NoKxSession); }
      ReceivedLoaded(old(Ring()), id, m, ephemeral);
      r := DecryptKx(id, m, ephemeral);
    }

    /** Decrypts a distribution and installs the state in it. */
    method HandleDistribution(group: string, from: UserId, me: UserId, m: Message, dir: Directory, ephemeral: PublicKey)
      returns (r: Result<SenderState, GroupError>)
      modifies this
      ensures var id := KxOf(group, me, from);
        match Obstacle(old(Ring()), id, from, dir)
        case Some(e) => r == Err(e) && Ring() == old(Ring())
        case None =>
          var (ring, outcome) := Received(Found(old(Ring()), id, from, dir), id, m, ephemeral);
          && Ring() == ring
          && (outcome.Err? ==> r == Err(outcome.error))
          && (outcome.Ok? && Installed(outcome.value).None? ==> r == Err(Malformed))
          && (outcome.Ok? && Installed(outcome.value).Some? ==> r == Ok(Installed(outcome.value).value))
      ensures ownKeys == old(ownKeys) && ownStore == old(ownStore)
      ensures peerKeys == (if r.Ok? then old(peerKeys)[(group, from) := r.value] else old(peerKeys))
      ensures peerStore == (if r.Ok? then old(peerStore)[(group, from) := r.value] else old(peerStore))
    {
      var id := KxOf(group, me, from);
      var session := EnsureKx(id, from, dir);
      if session.Err? { return Err(session.error); }
      var outcome := DecryptKx(id, m, ephemeral);
      if outcome.Err? { return Err(outcome.error); }
      var state := Installed(outcome.value);
      if state.None? { return Err(Malformed); }
      peerKeys := peerKeys[(group, from) := state.value];
      peerStore := peerStore[(group, from) := state.value];
      return Ok(state.value);
    }

    /** The process is killed and started again. */
    method Restart()
      modifies this`ownKeys, this`peerKeys, this`kxSessions
      ensures ownKeys == map[] && peerKeys == map[] && Ring() == old(Ring()).(cached := map[])
    {
      ownKeys, peerKeys, kxSessions := map[], map[], map[];
    }

    /** Reads the keys of a group back from storage. */
    method Restore(group: string, members: seq<UserId>)
      modifies this`ownKeys, this`peerKeys
      ensures ownKeys == if group in ownStore then old(ownKeys)[group := ownStore[group]] else old(ownKeys)
      ensures forall p: (string, UserId) ::
        var stored := p.0 == group && p.1 in members && p in peerStore;
        && (p in peerKeys <==> stored || p in old(peerKeys))
        && (p in peerKeys ==> peerKeys[p] == if stored then peerStore[p] else old(peerKeys)[p])
    {
      if group in ownStore { ownKeys := ownKeys[group := ownStore[group]]; }
      for i := 0 to |members|
        invariant ownKeys == if group in ownStore then old(ownKeys)[group := ownStore[group]] else old(ownKeys)
        invariant forall p: (string, UserId) ::
          var stored := p.0 == group && p.1 in members[..i] && p in peerStore;
          && (p in peerKeys <==> stored || p in old(peerKeys))
          && (p in peerKeys ==> peerKeys[p] == if stored then peerStore[p] else old(peerKeys)[p])
      {
        assert members[..i + 1] == members[..i] + [members[i]];
        var p := (group, members[i]);
        if p in peerStore { peerKeys := peerKeys[p := peerStore[p]]; }
      }
      assert members[..|members|] == members;
    }

    /** The stepped state is stored before the ciphertext is returned. */
    method Encrypt(group: string, plaintext: Blob) returns (r: Result<GroupCiphertext, GroupError>)
      modifies this`ownKeys, this`ownStore
      ensures group !in old(ownKeys) ==> r == Err(NoOwnKey) && ownKeys == old(ownKeys) && ownStore == old(ownStore)
      ensures group in old(ownKeys) ==> var s := old(ownKeys)[group];
        && r == Ok(GroupEncrypted(s, plaintext))
        && ownKeys == old(ownKeys)[group := Stepped(s)] && ownStore == old(ownStore)[group := Stepped(s)]
    {
      if group !in ownKeys { return Err(NoOwnKey); }
      var state := new SenderKeyState(ownKeys[group].chainKey, ownKeys[group].iteration);
      var m := EncryptWith(state, plaintext);
      ownKeys := ownKeys[group := state.State()];
      ownStore := ownStore[group := state.State()];
      return Ok(m);
    }

    /** A failed decryption has stepped the state in memory, but not on disk. */
    method Decrypt(group: string, sender: UserId, m: GroupCiphertext) returns (r: Option<Blob>)
      modifies this`peerKeys, this`peerStore
      ensures (group, sender) !in old(peerKeys) ==>
        r == None && peerKeys == old(peerKeys) && peerStore == old(peerStore)
      ensures (group, sender) in old(peerKeys) ==>
        var (s, plaintext) := GroupDecrypted(old(peerKeys)[(group, sender)], m);
        && r == plaintext && peerKeys == old(peerKeys)[(group, sender) := s]
        && peerStore == if plaintext.Some? then old(peerStore)[(group, sender) := s] else old(peerStore)
    {
      if (group, sender) !in peerKeys { return None; }
      var s := peerKeys[(group, sender)];
      var state := new SenderKeyState(s.chainKey, s.iteration);
      r := DecryptWith(state, m.iteration, m.ciphertext);
      peerKeys := peerKeys[(group, sender) := state.State()];
      if r.Some? { peerStore := peerStore[(group, sender) := state.State()]; }
    }
  }

  // ---- From distribution to messages ----

  /** Whatever a sender encrypts stays on its generation's chain. */
  lemma SenderStaysOnChain(s: SenderState, seed: Key, plaintext: Blob)
    requires OnChain(s, seed)
    ensures Genuine(GroupEncrypted(s, plaintext), seed, plaintext) && OnChain(Stepped(s), seed)
  {
  }

  /** Group agreement through the pairwise ratchet: after any run of a pair's key-exchange
      session, an allowed delivery of a distribution installs exactly the sender's state,
      and from then on genuine messages of that generation all decrypt if and only if they
      arrive in strictly increasing order, none of them older than that state. */
  lemma DistributedGroupAgreement(bootstrap: Key, identityA: PublicKey, identityB: PublicKey,
                                  events: seq<RatchetAgreement.Event>, w: RatchetAgreement.World,
                                  to: RatchetAgreement.Side, place: RatchetAgreement.Place, ephemeral: PublicKey,
                                  group: string, seed: Key, s: SenderState, delivered: seq<Sent>)
    requires identityA != identityB
    requires RatchetAgreement.Reaches(RatchetAgreement.Start(bootstrap, identityA, identityB), events, w)
    requires RatchetAgreement.Allowed(w, RatchetAgreement.Deliver(to, place, ephemeral))
    requires RatchetAgreement.At(w.Of(to.Other()).log, place).plaintext == Distribution(group, s.chainKey, s.iteration)
    requires OnChain(s, seed) && AllGenuine(delivered, seed)
    ensures var outcome := RatchetAgreement.Outcome(w, to, place, ephemeral);
      && outcome.Ok? && Installed(outcome.value) == Some(s)
      && (AllDecrypt(Installed(outcome.value).value, delivered) <==> InOrderFrom(delivered, s.iteration))
  {
    RatchetAgreement.Agreement(bootstrap, identityA, identityB, events, w, to, place, ephemeral);
    GroupAgreement(s, seed, delivered);
  }
}
