/** The group manager (client/lib/core/crypto/group_session_manager.dart) over its whole life,
    with restarts that lose what is only in memory. */
module GroupRestarts {
  import opened SymbolicCrypto
  import opened Ratchet
  import RatchetDivergence
  import opened CrashSafety
  import opened SenderKeys
  import opened GroupSessions

  /** What uses the pairwise sessions, and restarts. */
  datatype Operation =
    | Rekeys(group: string, me: UserId, others: seq<UserId>, dir: Directory, seed: Key)
    | Handles(group: string, from: UserId, me: UserId, m: Message, dir: Directory, ephemeral: PublicKey)
    | CallsOut(id: KxId, plaintext: Blob)
    | CallsIn(id: KxId, m: Message, ephemeral: PublicKey)
    | Restarts

  /** The keyring after an operation, and the pairwise messages it returned. */
  function Operate(k: Keyring, op: Operation): (Keyring, seq<Message>) {
    match op
    case Rekeys(group, me, others, dir, seed) => Distribute(k, group, me, others, dir, Distribution(group, seed, 0))
    case Handles(group, from, me, m, dir, ephemeral) =>
      var id := KxOf(group, me, from);
      (if Reachable(k, id, from, dir) then Received(Found(k, id, from, dir), id, m, ephemeral).0 else k, [])
    case CallsOut(id, plaintext) =>
      if k.Has(id) then (Put(k, id, AfterEncrypt(k.SessionOf(id)), true), [Encrypted(k.SessionOf(id), plaintext)])
      else (k, [])
    case CallsIn(id, m, ephemeral) => (if k.Has(id) then Received(k, id, m, ephemeral).0 else k, [])
    case Restarts => (k.(cached := map[]), [])
  }

  /** The manager does these things. */
  method Perform(manager: GroupSessionManager, op: Operation) returns (messages: seq<Message>)
    modifies manager
    ensures (manager.Ring(), messages) == Operate(old(manager.Ring()), op)
  {
    messages := [];
    match op
    case Rekeys(group, me, others, dir, seed) =>
      var complete;
      messages, complete := manager.RekeyAndDistribute(group, me, others, dir, seed);
    case Handles(group, from, me, m, dir, ephemeral) =>
      var state := manager.HandleDistribution(group, from, me, m, dir, ephemeral);
    case CallsOut(id, plaintext) =>
      var m := manager.EncryptForCall(id, plaintext);
      if m.Ok? { messages := [m.value]; }
    case CallsIn(id, m, ephemeral) =>
      var plaintext := manager.DecryptForCall(id, m, ephemeral);
    case Restarts =>
      manager.Restart();
  }

  /** `issued` is every pairwise message returned, `used` every key pair seen so far. */
  datatype Life = Life(ring: Keyring, issued: seq<Message>, used: set<PublicKey>)

  const NEW := Life(Keyring(map[], map[], map[]), [], {})

  function KeysIn(op: Operation): set<PublicKey> {
    match op
    case Rekeys(_, _, _, dir, _) => {dir.mine} + dir.bundles.Values
    case Handles(_, _, _, m, dir, _) => {dir.mine, m.header.dh} + dir.bundles.Values
    case CallsOut(_, _) => {}
    case CallsIn(_, m, _) => {m.header.dh}
    case Restarts => {}
  }

  function Generated(op: Operation): set<PublicKey> {
    if op.Handles? || op.CallsIn? then {op.ephemeral} else {}
  }

  function Lived(w: Life, op: Operation): Life {
    var (ring, messages) := Operate(w.ring, op);
    Life(ring, w.issued + messages, w.used + KeysIn(op) + Generated(op))
  }

  /** A secret derived from a passphrase and a session's id is nobody else's. */
  ghost predicate OwnSecrets(dir: Directory, owner: Key -> KxId) {
    forall id :: dir.secret(id).Bootstrap? && owner(dir.secret(id)) == id
  }

  /** Generated keys are new, and secrets belong to one session. */
  ghost predicate Possible(w: Life, op: Operation, owner: Key -> KxId) {
    && Generated(op) !! w.used + KeysIn(op)
    && (op.Rekeys? || op.Handles? ==> OwnSecrets(op.dir, owner))
  }

  ghost predicate Lives(w: Life, ops: seq<Operation>, owner: Key -> KxId, w': Life)
    decreases |ops|
  {
    if ops == [] then w' == w else Possible(w, ops[0], owner) && Lives(Lived(w, ops[0]), ops[1..], owner, w')
  }

  // ---- Whose chain a key is on ----

  /** The secret a key was derived from. */
  function Base(k: Key): Key {
    match k
    case Root(p, _) => Base(p)
    case Chain(p, _) => Base(p)
    case ChainB(p, _) => Base(p)
    case Next(c) => Base(c)
    case _ => k
  }

  lemma {:induction false} BaseOfOrigin(k: Key)
    ensures Base(Origin(k)) == Base(k)
  {
    if k.Next? { BaseOfOrigin(k.chain); }
  }

  predicate Belongs(s: Session, id: KxId, owner: Key -> KxId) {
    owner(Base(s.rootKey)) == id && owner(Base(s.sendingChainKey)) == id
  }

  lemma DecryptBelongs(s: Session, m: Message, ephemeral: PublicKey, id: KxId, owner: Key -> KxId)
    requires Belongs(s, id, owner)
    ensures Belongs(Decrypted(s, m, ephemeral).0, id, owner)
  {
    RatchetDivergence.ReceiveSendingHalf(s, m, ephemeral);
  }

  // ---- No message keys are ever used twice ----

  /** What may be sent from under this id, now or after a restart. */
  predicate LiveAt(k: Keyring, id: KxId, s: Session) {
    (id in k.stored && s == FromJson(k.stored[id])) || (id in k.cached && s == k.cached[id])
  }

  /** No session, in memory or in storage, can send under a key of the ledger again; a session
      that was ever used is in storage. */
  ghost predicate RingSafe(k: Keyring, ledger: seq<Key>, used: set<PublicKey>, owner: Key -> KxId) {
    && k.cached.Keys <= k.stored.Keys
    && (forall key <- ledger :: owner(Base(key)) in k.stored)
    && (forall id, s :: LiveAt(k, id, s) ==> Ahead(s, ledger, used) && Belongs(s, id, owner))
  }

  ghost predicate Safe(w: Life, ledger: seq<Key>, owner: Key -> KxId) {
    LedgerSafe(w.issued, ledger, w.used) && RingSafe(w.ring, ledger, w.used, owner)
  }

  lemma SafeGrows(w: Life, ledger: seq<Key>, owner: Key -> KxId, used: set<PublicKey>)
    requires Safe(w, ledger, owner) && w.used <= used
    ensures Safe(w.(used := used), ledger, owner)
  {
  }

  /** Replacing one session by one that is ahead. */
  lemma PutSafe(k: Keyring, id: KxId, s: Session, written: bool, ledger: seq<Key>, used: set<PublicKey>,
                owner: Key -> KxId)
    requires RingSafe(k, ledger, used, owner) && Ahead(s, ledger, used) && Belongs(s, id, owner)
    requires written || id in k.stored
    ensures RingSafe(Put(k, id, s, written), ledger, used, owner)
  {
    forall x, t | LiveAt(Put(k, id, s, written), x, t)
      ensures LiveAt(k, x, t) || (x == id && t == s)
    {
    }
  }

  /** A new session starts on a chain nothing was sent on. */
  lemma EstablishedAhead(k: Keyring, id: KxId, secret: Key, mine: PublicKey, peer: PublicKey, ledger: seq<Key>,
                         used: set<PublicKey>, owner: Key -> KxId)
    requires RingSafe(k, ledger, used, owner) && id !in k.stored && secret.Bootstrap? && owner(secret) == id
    requires mine in used && peer in used
    ensures var s := InitSession(secret, mine, peer); Ahead(s, ledger, used) && Belongs(s, id, owner)
  {
    var s := InitSession(secret, mine, peer);
    forall key | key in ledger
      ensures Origin(key) != Origin(s.sendingChainKey)
    {
      BaseOfOrigin(key);
      BaseOfOrigin(s.sendingChainKey);
    }
  }

  lemma FoundSafe(k: Keyring, id: KxId, other: UserId, dir: Directory, ledger: seq<Key>, used: set<PublicKey>,
                  owner: Key -> KxId)
    requires RingSafe(k, ledger, used, owner) && Reachable(k, id, other, dir) && OwnSecrets(dir, owner)
    requires dir.mine in used && dir.bundles.Values <= used
    ensures RingSafe(Found(k, id, other, dir), ledger, used, owner)
  {
    var s := Ensured(k, id, other, dir);
    if k.Has(id) {
      assert LiveAt(k, id, s);
      PutSafe(k, id, s, false, ledger, used, owner);
    } else {
      EstablishedAhead(k, id, dir.secret(id), dir.mine, dir.bundles[other], ledger, used, owner);
      var pinned := k.(pins := if other in k.pins then k.pins else k.pins[other := dir.bundles[other]]);
      assert forall x, t :: LiveAt(pinned, x, t) <==> LiveAt(k, x, t);
      PutSafe(pinned, id, s, true, ledger, used, owner);
    }
  }

  /** Sending under one session uses a key no other session is on. */
  lemma SendSafe(k: Keyring, id: KxId, ledger: seq<Key>, used: set<PublicKey>, owner: Key -> KxId)
    requires RingSafe(k, ledger, used, owner) && k.Has(id)
    ensures var s := k.SessionOf(id);
      && RingSafe(Put(k, id, AfterEncrypt(s), true), ledger + [s.sendingChainKey], used, owner)
      && s.sendingChainKey !in ledger && Known(Origin(s.sendingChainKey), used)
  {
    var s := k.SessionOf(id);
    var k', ledger' := Put(k, id, AfterEncrypt(s), true), ledger + [s.sendingChainKey];
    assert LiveAt(k, id, s);
    EncryptAhead(s, ledger, used);
    forall x, t | LiveAt(k', x, t)
      ensures Ahead(t, ledger', used) && Belongs(t, x, owner)
    {
      if x != id {
        assert LiveAt(k, x, t);
        BaseOfOrigin(s.sendingChainKey);
        BaseOfOrigin(t.sendingChainKey);
      } else {
        assert t == AfterEncrypt(s);
      }
    }
  }

  lemma ReceiveSafe(k: Keyring, id: KxId, m: Message, ephemeral: PublicKey, ledger: seq<Key>, used: set<PublicKey>,
                    used': set<PublicKey>, owner: Key -> KxId)
    requires RingSafe(k, ledger, used, owner) && k.Has(id) && ephemeral !in used
    requires forall key <- ledger :: Known(Origin(key), used)
    requires used + {ephemeral, m.header.dh} <= used'
    ensures RingSafe(Received(k, id, m, ephemeral).0, ledger, used', owner)
  {
    var s := k.SessionOf(id);
    var (t, r) := Decrypted(s, m, ephemeral);
    assert LiveAt(k, id, s);
    DecryptAhead(s, m, ephemeral, ledger, used);
    DecryptBelongs(s, m, ephemeral, id, owner);
    assert RingSafe(k, ledger, used', owner);
    PutSafe(k, id, t, r.Ok?, ledger, used', owner);
  }

  /** One more message, sealed under a key not used before. */
  lemma LedgerGrows(issued: seq<Message>, ledger: seq<Key>, used: set<PublicKey>, s: Session, plaintext: Blob)
    requires LedgerSafe(issued, ledger, used)
    requires s.sendingChainKey !in ledger && Known(Origin(s.sendingChainKey), used)
    ensures LedgerSafe(issued + [Encrypted(s, plaintext)], ledger + [s.sendingChainKey], used)
  {
    assert SealedUnder(Encrypted(s, plaintext), s.sendingChainKey);
  }

  lemma {:induction false} DistributeSafe(k: Keyring, group: string, me: UserId, others: seq<UserId>, dir: Directory,
                                          payload: Blob, issued: seq<Message>, ledger: seq<Key>, used: set<PublicKey>,
                                          owner: Key -> KxId)
    returns (ledger': seq<Key>)
    requires RingSafe(k, ledger, used, owner) && LedgerSafe(issued, ledger, used) && OwnSecrets(dir, owner)
    requires dir.mine in used && dir.bundles.Values <= used
    ensures var (later, messages) := Preceded(issued, Distribute(k, group, me, others, dir, payload));
      RingSafe(later, ledger', used, owner) && LedgerSafe(messages, ledger', used)
    decreases |others|
  {
    var id := if others == [] then KxOf(group, me, me) else KxOf(group, me, others[0]);
    if others == [] || !Reachable(k, id, others[0], dir) {
      PrecededEnds(issued, k);
      return ledger;
    }
    var m, next := Encrypted(Ensured(k, id, others[0], dir), payload), SentTo(k, id, others[0], dir);
    ledger' := SentToSafe(k, id, others[0], dir, payload, issued, ledger, used, owner);
    ledger' := DistributeSafe(next, group, me, others[1..], dir, payload, issued + [m], ledger', used, owner);
    PrecededByOne(issued, m, Distribute(next, group, me, others[1..], dir, payload));
  }

  lemma SentToSafe(k: Keyring, id: KxId, other: UserId, dir: Directory, payload: Blob, issued: seq<Message>,
                   ledger: seq<Key>, used: set<PublicKey>, owner: Key -> KxId)
    returns (ledger': seq<Key>)
    requires RingSafe(k, ledger, used, owner) && LedgerSafe(issued, ledger, used) && OwnSecrets(dir, owner)
    requires dir.mine in used && dir.bundles.Values <= used && Reachable(k, id, other, dir)
    ensures RingSafe(SentTo(k, id, other, dir), ledger', used, owner)
    ensures LedgerSafe(issued + [Encrypted(Ensured(k, id, other, dir), payload)], ledger', used)
  {
    var found, s := Found(k, id, other, dir), Ensured(k, id, other, dir);
    FoundSafe(k, id, other, dir, ledger, used, owner);
    assert found.SessionOf(id) == s;
    SendSafe(found, id, ledger, used, owner);
    LedgerGrows(issued, ledger, used, s, payload);
    ledger' := ledger + [s.sendingChainKey];
  }

  lemma RestartSafe(k: Keyring, ledger: seq<Key>, used: set<PublicKey>, owner: Key -> KxId)
    requires RingSafe(k, ledger, used, owner)
    ensures RingSafe(k.(cached := map[]), ledger, used, owner)
  {
    forall id, s | LiveAt(k.(cached := map[]), id, s)
      ensures LiveAt(k, id, s)
    {
    }
  }

  lemma OperateSafe(w: Life, op: Operation, ledger: seq<Key>, owner: Key -> KxId) returns (ledger': seq<Key>)
    requires Safe(w, ledger, owner) && Possible(w, op, owner)
    ensures Safe(Lived(w, op), ledger', owner)
  {
    var used, used' := w.used + KeysIn(op), w.used + KeysIn(op) + Generated(op);
    SafeGrows(w, ledger, owner, used);
    SafeGrows(w, ledger, owner, used');
    ledger' := ledger;
    assert w.issued + [] == w.issued;
    match op {
      case Rekeys(group, me, others, dir, seed) =>
        ledger' := DistributeSafe(w.ring, group, me, others, dir, Distribution(group, seed, 0), w.issued, ledger, used',
                                  owner);
      case Handles(group, from, me, m, dir, ephemeral) =>
        var id := KxOf(group, me, from);
        if Reachable(w.ring, id, from, dir) {
          FoundSafe(w.ring, id, from, dir, ledger, used, owner);
          ReceiveSafe(Found(w.ring, id, from, dir), id, m, ephemeral, ledger, used, used', owner);
        }
      case CallsOut(id, plaintext) =>
        if w.ring.Has(id) {
          SendSafe(w.ring, id, ledger, used', owner);
          LedgerGrows(w.issued, ledger, used', w.ring.SessionOf(id), plaintext);
          ledger' := ledger + [w.ring.SessionOf(id).sendingChainKey];
        }
      case CallsIn(id, m, ephemeral) =>
        if w.ring.Has(id) { ReceiveSafe(w.ring, id, m, ephemeral, ledger, used, used', owner); }
      case Restarts =>
        RestartSafe(w.ring, ledger, used', owner);
    }
    assert RingSafe(Operate(w.ring, op).0, ledger', used', owner);
  }

  lemma {:induction false} LifeSafe(w: Life, ops: seq<Operation>, w': Life, ledger: seq<Key>, owner: Key -> KxId)
    returns (ledger': seq<Key>)
    requires Safe(w, ledger, owner) && Lives(w, ops, owner, w')
    ensures Safe(w', ledger', owner)
    decreases |ops|
  {
    if ops == [] {
      ledger' := ledger;
    } else {
      ledger' := OperateSafe(w, ops[0], ledger, owner);
      ledger' := LifeSafe(Lived(w, ops[0]), ops[1..], w', ledger', owner);
    }
  }

  /** Whatever the manager does, in any groups, with restarts anywhere between operations and
      whatever it receives, no two pairwise messages it ever returns are sealed under the
      same key, in either layer of the cascade. */
  lemma PairwiseKeysUnique(ops: seq<Operation>, w: Life, owner: Key -> KxId, i: nat, j: nat)
    requires Lives(NEW, ops, owner, w) && i < j < |w.issued|
    ensures var m, n := w.issued[i].ciphertext, w.issued[j].ciphertext;
      && m.Box? && m.body.Box? && n.Box? && n.body.Box?
      && m.key != n.key && m.body.key != n.body.key
  {
    var ledger := LifeSafe(NEW, ops, w, [], owner);
    assert SealedUnder(w.issued[i], ledger[i]) && SealedUnder(w.issued[j], ledger[j]);
  }

  // ---- The same of sender keys ----

  datatype SenderOperation =
    | Renews(group: string, seed: Key)
    | Sends(group: string, plaintext: Blob)
    | Forgets
    | Restores(group: string)

  /** The own sender keys in memory and in storage, every group message returned, and every
      chain key generated. */
  datatype Senders = Senders(own: map<string, SenderState>, stored: map<string, SenderState>,
                             issued: seq<GroupCiphertext>, seeds: set<Key>)

  const NO_KEYS := Senders(map[], map[], [], {})

  function SenderStep(w: Senders, op: SenderOperation): Senders {
    match op
    case Renews(group, seed) =>
      var s := SenderState(seed, 0);
      w.(own := w.own[group := s], stored := w.stored[group := s], seeds := w.seeds + {seed})
    case Sends(group, plaintext) =>
      if group !in w.own then w
      else
        var s := w.own[group];
        w.(own := w.own[group := Stepped(s)], stored := w.stored[group := Stepped(s)],
           issued := w.issued + [GroupEncrypted(s, plaintext)])
    case Forgets => w.(own := map[])
    case Restores(group) => if group in w.stored then w.(own := w.own[group := w.stored[group]]) else w
  }

  /** A new sender key is random and new. */
  predicate Renewable(w: Senders, op: SenderOperation) {
    op.Renews? ==> op.seed.Random? && op.seed !in w.seeds
  }

  ghost predicate SendersReach(w: Senders, ops: seq<SenderOperation>, w': Senders)
    decreases |ops|
  {
    if ops == [] then w' == w else Renewable(w, ops[0]) && SendersReach(SenderStep(w, ops[0]), ops[1..], w')
  }

  /** What the manager's methods do to its own sender keys. */
  method PerformSender(manager: GroupSessionManager, op: SenderOperation, ghost w: Senders, me: UserId,
                       others: seq<UserId>, dir: Directory)
    returns (messages: seq<GroupCiphertext>)
    requires w.own == manager.ownKeys && w.stored == manager.ownStore
    modifies manager
    ensures var w' := SenderStep(w, op);
      w'.own == manager.ownKeys && w'.stored == manager.ownStore && w'.issued == w.issued + messages
  {
    messages := [];
    match op
    case Renews(group, seed) =>
      var kx, complete := manager.RekeyAndDistribute(group, me, others, dir, seed);
    case Sends(group, plaintext) =>
      var m := manager.Encrypt(group, plaintext);
      if m.Ok? { messages := [m.value]; }
    case Forgets =>
      manager.Restart();
    case Restores(group) =>
      manager.Restore(group, others);
  }

  predicate GroupSealed(m: GroupCiphertext, k: Key) {
    m.ciphertext.Box? && m.ciphertext.body.Box? && KeysOf(k) == MessageKeys(m.ciphertext.body.key, m.ciphertext.key)
  }

  /** Every state stands past everything sent on its chain, and groups have their own chains. */
  ghost predicate SendersSafe(w: Senders, ledger: seq<Key>) {
    && |ledger| == |w.issued|
    && (forall i :: 0 <= i < |ledger| ==> GroupSealed(w.issued[i], ledger[i]))
    && (forall i, j :: 0 <= i < j < |ledger| ==> ledger[i] != ledger[j])
    && (forall k <- ledger :: Origin(k) in w.seeds)
    && (forall g <- w.own :: g in w.stored && w.own[g] == w.stored[g])
    && (forall g <- w.stored :: Origin(w.stored[g].chainKey) in w.seeds)
    && (forall g, k :: g in w.stored && k in ledger && Origin(k) == Origin(w.stored[g].chainKey) ==>
          Distance(k) < Distance(w.stored[g].chainKey))
    && (forall g, h :: g in w.stored && h in w.stored && g != h ==>
          Origin(w.stored[g].chainKey) != Origin(w.stored[h].chainKey))
  }

  lemma RenewSafe(w: Senders, group: string, seed: Key, ledger: seq<Key>)
    requires SendersSafe(w, ledger) && seed.Random? && seed !in w.seeds
    ensures SendersSafe(SenderStep(w, Renews(group, seed)), ledger)
  {
  }

  lemma SendsSafe(w: Senders, group: string, plaintext: Blob, ledger: seq<Key>)
    requires SendersSafe(w, ledger) && group in w.own
    ensures SendersSafe(SenderStep(w, Sends(group, plaintext)), ledger + [w.own[group].chainKey])
  {
    var key, w' := w.own[group].chainKey, SenderStep(w, Sends(group, plaintext));
    assert key !in ledger;
    assert GroupSealed(w'.issued[|ledger|], key);
    assert forall k <- ledger + [key] :: k in ledger || k == key;
  }

  lemma SenderStepSafe(w: Senders, op: SenderOperation, ledger: seq<Key>) returns (ledger': seq<Key>)
    requires SendersSafe(w, ledger) && Renewable(w, op)
    ensures SendersSafe(SenderStep(w, op), ledger')
  {
    ledger' := ledger;
    match op {
      case Renews(group, seed) => RenewSafe(w, group, seed, ledger);
      case Sends(group, plaintext) =>
        if group in w.own {
          SendsSafe(w, group, plaintext, ledger);
          ledger' := ledger + [w.own[group].chainKey];
        }
      case Forgets =>
      case Restores(group) =>
    }
  }

  lemma {:induction false} SendersRunSafe(w: Senders, ops: seq<SenderOperation>, w': Senders, ledger: seq<Key>)
    returns (ledger': seq<Key>)
    requires SendersSafe(w, ledger) && SendersReach(w, ops, w')
    ensures SendersSafe(w', ledger')
    decreases |ops|
  {
    if ops == [] {
      ledger' := ledger;
    } else {
      ledger' := SenderStepSafe(w, ops[0], ledger);
      ledger' := SendersRunSafe(SenderStep(w, ops[0]), ops[1..], w', ledger');
    }
  }

  /** In every run of renewals, sends, restarts and restores no two group messages a member
      ever returns are sealed under the same key, in either layer. */
  lemma GroupKeysUnique(ops: seq<SenderOperation>, w: Senders, i: nat, j: nat)
    requires SendersReach(NO_KEYS, ops, w) && i < j < |w.issued|
    ensures var m, n := w.issued[i].ciphertext, w.issued[j].ciphertext;
      && m.Box? && m.body.Box? && n.Box? && n.body.Box?
      && m.key != n.key && m.body.key != n.body.key
  {
    var ledger := SendersRunSafe(NO_KEYS, ops, w, []);
    assert GroupSealed(w.issued[i], ledger[i]) && GroupSealed(w.issued[j], ledger[j]);
  }
}
