/** The Double Ratchet session (client/lib/core/crypto/double_ratchet.dart): the state of
    one session as a value, each operation as a function on that value, and the mutable
    class whose methods compute exactly those functions. */
module Ratchet {
  import opened Wrappers
  import opened SymbolicCrypto

  const MAX_SKIP := 1000

  /** Key of the skipped-key map: a sender key and a message number. */
  datatype SkipId = SkipId(dh: PublicKey, n: int)

  datatype Session = Session(
    rootKey: Key,
    dhSelf: PublicKey,
    dhRemote: PublicKey,
    sendingChainKey: Key,
    receivingChainKey: Key,
    ns: nat,
    nr: nat,
    pn: nat,
    dhSelfIsIdentity: bool,
    skippedKeys: map<SkipId, MessageKeys>)

  datatype Message = Message(header: Header, ciphertext: Blob)

  datatype RatchetError = TooManySkipped | AuthenticationFailed

  // ---- Operations on session values ----

  /** Symmetric bootstrap: both sides run this with their own key and the other's. */
  function InitSession(bootstrap: Key, mine: PublicKey, peer: PublicKey): Session {
    var dh := Agree(mine, peer);
    var chainA, chainB := Chain(bootstrap, dh), ChainB(bootstrap, dh);
    var amFirst := mine < peer;
    Session(Root(bootstrap, dh), mine, peer,
            if amFirst then chainA else chainB,
            if amFirst then chainB else chainA,
            0, 0, 0, true, map[])
  }

  function HeaderOf(s: Session): Header {
    Header(s.dhSelf, s.pn, s.ns)
  }

  function Encrypted(s: Session, plaintext: Blob): Message {
    Message(HeaderOf(s), Seal(KeysOf(s.sendingChainKey), Some(HeaderOf(s)), plaintext))
  }

  function AfterEncrypt(s: Session): Session {
    s.(sendingChainKey := Next(s.sendingChainKey), ns := s.ns + 1)
  }

  predicate TooFar(s: Session, until: int) {
    s.nr + MAX_SKIP < until
  }

  /** One step of the skip loop. */
  function SkipOne(s: Session): Session {
    s.(receivingChainKey := Next(s.receivingChainKey),
       skippedKeys := s.skippedKeys[SkipId(s.dhRemote, s.nr) := KeysOf(s.receivingChainKey)],
       nr := s.nr + 1)
  }

  /** Keys of messages passed over are stored until the message turns up. */
  function SkipTo(s: Session, until: int): Session
    decreases until - s.nr
  {
    if until <= s.nr then s else SkipTo(SkipOne(s), until)
  }

  /** One-off move away from the identity key; `ephemeral` is the generated key pair. */
  function Rotated(s: Session, ephemeral: PublicKey): Session {
    var dh := Agree(ephemeral, s.dhRemote);
    s.(dhSelfIsIdentity := false, dhSelf := ephemeral,
       rootKey := Root(s.rootKey, dh), sendingChainKey := Chain(s.rootKey, dh),
       pn := s.ns, ns := 0)
  }

  function RatchetStep(s: Session, remote: PublicKey, ephemeral: PublicKey): Session {
    var dh1, dh2 := Agree(s.dhSelf, remote), Agree(ephemeral, remote);
    var root1 := Root(s.rootKey, dh1);
    s.(dhSelfIsIdentity := false, pn := s.ns, ns := 0, nr := 0, dhRemote := remote,
       receivingChainKey := Chain(s.rootKey, dh1),
       dhSelf := ephemeral,
       rootKey := Root(root1, dh2), sendingChainKey := Chain(root1, dh2))
  }

  /** What the sender key of an incoming header does to the session.  An exception leaves
      the session as it was at that point. */
  function Turned(s: Session, h: Header, ephemeral: PublicKey): (r: Result<Session, Session>) {
    if s.dhRemote != h.dh then
      if TooFar(s, h.pn) then Err(s) else Ok(RatchetStep(SkipTo(s, h.pn), h.dh, ephemeral))
    else if s.dhSelfIsIdentity then Ok(Rotated(s, ephemeral))
    else Ok(s)
  }

  function Opened(keys: MessageKeys, h: Header, ciphertext: Blob): Result<Blob, RatchetError> {
    var p := Open(keys, Some(h), ciphertext);
    if p.None? then Err(AuthenticationFailed) else Ok(p.value)
  }

  /** The message keys of a header are taken from the map or from the receiving chain. */
  function Consumed(s: Session, h: Header, ciphertext: Blob): (Session, Result<Blob, RatchetError>) {
    var id := SkipId(h.dh, h.n);
    if id in s.skippedKeys then
      (s.(skippedKeys := s.skippedKeys - {id}), Opened(s.skippedKeys[id], h, ciphertext))
    else if TooFar(s, h.n) then
      (s, Err(TooManySkipped))
    else
      var t := SkipTo(s, h.n);
      (t.(receivingChainKey := Next(t.receivingChainKey), nr := t.nr + 1),
       Opened(KeysOf(t.receivingChainKey), h, ciphertext))
  }

  /** The state left behind by `decrypt`, and what it returned or threw. */
  function Decrypted(s: Session, m: Message, ephemeral: PublicKey): (Session, Result<Blob, RatchetError>) {
    var t := Turned(s, m.header, ephemeral);
    if t.Err? then (t.error, Err(TooManySkipped)) else Consumed(t.value, m.header, m.ciphertext)
  }

  // ---- The stored form ----

  /** The stored form; older blobs lack the last two fields. */
  datatype StoredSession = StoredSession(
    rootKey: Key, dhSelf: PublicKey, dhRemote: PublicKey, sendingChainKey: Key, receivingChainKey: Key,
    ns: nat, nr: nat, pn: nat, dhSelfIsIdentity: Option<bool>, skipped: Option<map<SkipId, MessageKeys>>)

  function ToJson(s: Session): StoredSession {
    StoredSession(s.rootKey, s.dhSelf, s.dhRemote, s.sendingChainKey, s.receivingChainKey,
                  s.ns, s.nr, s.pn, Some(s.dhSelfIsIdentity), Some(s.skippedKeys))
  }

  function FromJson(j: StoredSession): Session {
    Session(j.rootKey, j.dhSelf, j.dhRemote, j.sendingChainKey, j.receivingChainKey, j.ns, j.nr, j.pn,
            if j.dhSelfIsIdentity.Some? then j.dhSelfIsIdentity.value else false,
            if j.skipped.Some? then j.skipped.value else map[])
  }

  // ---- Laws of skipping ----

  /** Skipping moves the receiving chain to `until` and touches nothing but the map. */
  lemma {:induction false} SkipMovesChain(s: Session, until: int)
    requires s.nr <= until
    ensures SkipTo(s, until) == s.(receivingChainKey := Advance(s.receivingChainKey, until - s.nr), nr := until,
                                   skippedKeys := SkipTo(s, until).skippedKeys)
    decreases until - s.nr
  {
    if s.nr < until {
      SkipMovesChain(SkipOne(s), until);
      AdvanceAdds(s.receivingChainKey, 1, until - s.nr - 1);
      assert Advance(s.receivingChainKey, 1) == Next(Advance(s.receivingChainKey, 0));
    }
  }

  /** What one entry of the map is after skipping: every position passed over is stored
      under the current sender key, every other entry is untouched. */
  lemma {:induction false} SkipStores(s: Session, until: int, id: SkipId)
    requires s.nr <= until
    ensures var skipped := SkipTo(s, until).skippedKeys;
      if id.dh == s.dhRemote && s.nr <= id.n < until then
        id in skipped && skipped[id] == KeysOf(Advance(s.receivingChainKey, id.n - s.nr))
      else
        (id in skipped <==> id in s.skippedKeys) && (id in skipped ==> skipped[id] == s.skippedKeys[id])
    decreases until - s.nr
  {
    if s.nr < until {
      SkipStores(SkipOne(s), until, id);
      if id.dh == s.dhRemote && s.nr < id.n < until {
        AdvanceAdds(s.receivingChainKey, 1, id.n - s.nr - 1);
        assert Advance(s.receivingChainKey, 1) == Next(Advance(s.receivingChainKey, 0));
      }
    }
  }

  /** Skipping stores one key a step at most. */
  lemma {:induction false} SkipGrowth(s: Session, until: int)
    ensures |SkipTo(s, until).skippedKeys| <= |s.skippedKeys| + if until > s.nr then until - s.nr else 0
    ensures SkipTo(s, until).nr == if until > s.nr then until else s.nr
    decreases until - s.nr
  {
    if s.nr < until {
      SkipGrowth(SkipOne(s), until);
    }
  }

  /** However the header was made, one call stores at most 2000 keys. */
  lemma DecryptStoresAtMostTwoThousandKeys(s: Session, m: Message, ephemeral: PublicKey)
    ensures |Decrypted(s, m, ephemeral).0.skippedKeys| <= |s.skippedKeys| + 2000
  {
    SkipGrowth(s, m.header.pn);
    var t := Turned(s, m.header, ephemeral);
    if t.Ok? {
      SkipGrowth(t.value, m.header.n);
      RemovalShrinks(t.value.skippedKeys, {SkipId(m.header.dh, m.header.n)});
    }
  }

  lemma RemovalShrinks<T, U>(m: map<T, U>, gone: set<T>)
    ensures |m - gone| <= |m|
  {
    var a, b := (m - gone).Keys, m.Keys;
    assert b == a + (b - a);
    assert |m - gone| == |a| && |m| == |b|;
  }

  // ---- The mutable session ----

  class RatchetSession {
    var rootKey: Key
    var dhSelf: PublicKey
    var dhRemote: PublicKey
    var sendingChainKey: Key
    var receivingChainKey: Key
    var ns: nat
    var nr: nat
    var pn: nat
    var dhSelfIsIdentity: bool
    var skippedKeys: map<SkipId, MessageKeys>

    function State(): Session
      reads this
    {
      Session(rootKey, dhSelf, dhRemote, sendingChainKey, receivingChainKey, ns, nr, pn, dhSelfIsIdentity, skippedKeys)
    }

    constructor Init(bootstrap: Key, mine: PublicKey, peer: PublicKey)
      ensures State() == InitSession(bootstrap, mine, peer)
    {
      var dhOut := Agree(mine, peer);
      var chainA, chainB := Chain(bootstrap, dhOut), ChainB(bootstrap, dhOut);
      var amFirst := mine < peer;
      rootKey := Root(bootstrap, dhOut);
      dhSelf := mine;
      sendingChainKey := if amFirst then chainA else chainB;
      receivingChainKey := if amFirst then chainB else chainA;
      dhRemote := peer;
      ns, nr, pn := 0, 0, 0;
      dhSelfIsIdentity := true;
      skippedKeys := map[];
    }

    /** Rebuilds a session from its stored form, whatever the session that was stored. */
    constructor FromStored(j: StoredSession)
      ensures State() == FromJson(j)
      ensures forall s: Session :: j == ToJson(s) ==> State() == s
      ensures State() == Session(j.rootKey, j.dhSelf, j.dhRemote, j.sendingChainKey, j.receivingChainKey,
                                 j.ns, j.nr, j.pn, j.dhSelfIsIdentity == Some(true), State().skippedKeys)
      ensures j.skipped == Some(State().skippedKeys) || (j.skipped == None && State().skippedKeys == map[])
    {
      var s := FromJson(j);
      rootKey := s.rootKey;
      dhSelf := s.dhSelf;
      dhRemote := s.dhRemote;
      sendingChainKey := s.sendingChainKey;
      receivingChainKey := s.receivingChainKey;
      ns, nr, pn := s.ns, s.nr, s.pn;
      dhSelfIsIdentity := s.dhSelfIsIdentity;
      skippedKeys := s.skippedKeys;
    }

    method Encrypt(plaintext: Blob) returns (m: Message)
      modifies this
      ensures m == Encrypted(old(State()), plaintext)
      ensures State() == AfterEncrypt(old(State()))
    {
      var keys := KeysOf(sendingChainKey);
      sendingChainKey := Next(sendingChainKey);
      var header := Header(dhSelf, pn, ns);
      var innerBox := Box(AesGcm, keys.a, Some(header), plaintext);
      var outerBox := Box(ChaCha20, keys.b, Some(header), innerBox);
      ns := ns + 1;
      m := Message(header, outerBox);
    }

    method Decrypt(m: Message, ephemeral: PublicKey) returns (r: Result<Blob, RatchetError>)
      modifies this
      ensures (State(), r) == Decrypted(old(State()), m, ephemeral)
    {
      var header := m.header;
      if dhRemote != header.dh {
        var ok := SkipMessageKeys(header.pn);
        if !ok { return Err(TooManySkipped); }
        DhRatchetStep(header.dh, ephemeral);
      } else if dhSelfIsIdentity {
        RotateOwnSendingChain(ephemeral);
      }
      var id := SkipId(header.dh, header.n);
      var keys;
      if id in skippedKeys {
        keys := skippedKeys[id];
        skippedKeys := skippedKeys - {id};
      } else {
        var ok := SkipMessageKeys(header.n);
        if !ok { return Err(TooManySkipped); }
        keys := KeysOf(receivingChainKey);
        receivingChainKey := Next(receivingChainKey);
        nr := nr + 1;
      }
      var inner := OpenBox(ChaCha20, keys.b, Some(header), m.ciphertext);
      if inner.None? { return Err(AuthenticationFailed); }
      var plaintext := OpenBox(AesGcm, keys.a, Some(header), inner.value);
      if plaintext.None? { return Err(AuthenticationFailed); }
      return Ok(plaintext.value);
    }

    method SkipMessageKeys(until: int) returns (ok: bool)
      modifies this`receivingChainKey, this`skippedKeys, this`nr
      ensures ok <==> !TooFar(old(State()), until)
      ensures State() == if ok then SkipTo(old(State()), until) else old(State())
    {
      if nr + MAX_SKIP < until { return false; }
      while nr < until
        invariant SkipTo(State(), until) == SkipTo(old(State()), until)
        invariant dhRemote == old(dhRemote)
      {
        var keys := KeysOf(receivingChainKey);
        receivingChainKey := Next(receivingChainKey);
        skippedKeys := skippedKeys[SkipId(dhRemote, nr) := keys];
        nr := nr + 1;
      }
      return true;
    }

    method RotateOwnSendingChain(ephemeral: PublicKey)
      modifies this
      ensures State() == Rotated(old(State()), ephemeral)
    {
      dhSelfIsIdentity := false;
      dhSelf := ephemeral;
      var dhOut := Agree(dhSelf, dhRemote);
      rootKey, sendingChainKey := Root(rootKey, dhOut), Chain(rootKey, dhOut);
      pn := ns;
      ns := 0;
    }

    method DhRatchetStep(newRemote: PublicKey, ephemeral: PublicKey)
      modifies this
      ensures State() == RatchetStep(old(State()), newRemote, ephemeral)
    {
      dhSelfIsIdentity := false;
      pn := ns;
      ns := 0;
      nr := 0;
      dhRemote := newRemote;
      var dhOut1 := Agree(dhSelf, newRemote);
      rootKey, receivingChainKey := Root(rootKey, dhOut1), Chain(rootKey, dhOut1);
      dhSelf := ephemeral;
      var dhOut2 := Agree(dhSelf, newRemote);
      rootKey, sendingChainKey := Root(rootKey, dhOut2), Chain(rootKey, dhOut2);
    }
  }
}
