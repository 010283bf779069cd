/** Two devices that talk through the session manager and may crash at any point.  Incoming
    messages are arbitrary, decryptions may fail, and a failed one changes memory only. */
module CrashSafety {
  import opened Wrappers
  import opened SymbolicCrypto
  import opened Ratchet
  import opened RatchetDivergence
  import opened SessionManager

  /** One device's session of the conversation: the cached object, if any, and the blob. */
  datatype Device = Device(memory: Option<Session>, disk: StoredSession) {
    function Loaded(): Session { if memory.Some? then memory.value else FromJson(disk) }
  }

  /** Where an operation was cut off, if it was. */
  datatype Fate = Completed | CrashedBeforeWrite | CrashedAfterWrite

  datatype Event =
    | Encrypt(first: bool, plaintext: Blob, fate: Fate)
    | Decrypt(first: bool, message: Message, ephemeral: PublicKey, fate: Fate)
    | Crash(first: bool)

  /** `used` collects every key pair seen so far, `issued` every message returned. */
  datatype World = World(a: Device, b: Device, used: set<PublicKey>, issued: seq<Message>) {
    function Of(first: bool): Device { if first then a else b }

    function With(first: bool, d: Device): World { if first then this.(a := d) else this.(b := d) }
  }

  function Established(bootstrap: Key, mine: PublicKey, peer: PublicKey): Device {
    var s := InitSession(bootstrap, mine, peer);
    Device(Some(s), ToJson(s))
  }

  function Start(bootstrap: Key, identityA: PublicKey, identityB: PublicKey): World {
    World(Established(bootstrap, identityA, identityB), Established(bootstrap, identityB, identityA),
        {identityA, identityB}, [])
  }

  /** What is left of a device when session `s` was computed and then this happened. */
  function Outcome(d: Device, s: Session, fate: Fate, persists: bool): Device {
    if fate == CrashedBeforeWrite then Device(None, d.disk)
    else
      var disk := if persists then ToJson(s) else d.disk;
      Device(if fate == CrashedAfterWrite then None else Some(s), disk)
  }

  /** A manager's conversation as a device. */
  ghost function DeviceOf(manager: CryptoSessionManager, conversation: string): Device
    requires conversation in manager.store
    reads manager, manager.sessions.Values
  {
    Device(if conversation in manager.sessions then Some(manager.sessions[conversation].State()) else None,
           manager.store[conversation])
  }

  /** What a manager's operation does to the device when it is not cut off: the outcome with
      fate `Completed`. */
  method CompletedEncrypt(manager: CryptoSessionManager, conversation: string, plaintext: Blob) returns (m: Message)
    requires manager.Valid() && conversation in manager.store
    modifies manager, manager.sessions.Values
    ensures manager.Valid() && conversation in manager.store
    ensures var d := old(DeviceOf(manager, conversation));
      && m == Encrypted(d.Loaded(), plaintext)
      && DeviceOf(manager, conversation) == Outcome(d, AfterEncrypt(d.Loaded()), Completed, true)
  {
    assert manager.Loaded(conversation) == Some(DeviceOf(manager, conversation).Loaded());
    var r := manager.Encrypt(conversation, plaintext);
    return r.value;
  }

  method CompletedDecrypt(manager: CryptoSessionManager, conversation: string, m: Message, ephemeral: PublicKey)
    returns (r: Result<Blob, ManagerError>)
    requires manager.Valid() && conversation in manager.store
    modifies manager, manager.sessions.Values
    ensures manager.Valid() && conversation in manager.store
    ensures var d := old(DeviceOf(manager, conversation)); var (s, outcome) := Decrypted(d.Loaded(), m, ephemeral);
      && r == (if outcome.Ok? then Ok(outcome.value) else Err(ManagerError.Ratchet(outcome.error)))
      && DeviceOf(manager, conversation) == Outcome(d, s, Completed, outcome.Ok?)
  {
    assert manager.Loaded(conversation) == Some(DeviceOf(manager, conversation).Loaded());
    r := manager.Decrypt(conversation, m, ephemeral);
  }

  predicate Possible(w: World, e: Event) {
    e.Decrypt? ==> e.ephemeral !in w.used
  }

  function Step(w: World, e: Event): World {
    var d := w.Of(e.first);
    var s := d.Loaded();
    match e
    case Encrypt(first, plaintext, fate) =>
      var w' := w.With(first, Outcome(d, AfterEncrypt(s), fate, true));
      if fate == Completed then w'.(issued := w.issued + [Encrypted(s, plaintext)]) else w'
    case Decrypt(first, m, ephemeral, fate) =>
      var (s', r) := Decrypted(s, m, ephemeral);
      w.With(first, Outcome(d, s', fate, r.Ok?)).(used := w.used + {ephemeral, m.header.dh})
    case Crash(first) => w.With(first, Device(None, d.disk))
  }

  ghost predicate Reaches(w: World, events: seq<Event>, w': World)
    decreases |events|
  {
    if events == [] then w' == w
    else Possible(w, events[0]) && Reaches(Step(w, events[0]), events[1..], w')
  }

  // ---- No message keys are ever used twice ----

  ghost predicate SealedUnder(m: Message, k: Key) {
    exists p: Blob :: m.ciphertext == Seal(KeysOf(k), Some(m.header), p)
  }

  /** A sending chain starts from a Diffie-Hellman value of known keys. */
  predicate Known(origin: Key, used: set<PublicKey>) {
    (origin.Chain? || origin.ChainB?) && origin.dh.low in used && origin.dh.high in used
  }

  /** A session from which no key of the ledger can be sent again. */
  ghost predicate Ahead(s: Session, ledger: seq<Key>, used: set<PublicKey>) {
    && Known(Origin(s.sendingChainKey), used) && s.dhSelf in used && s.dhRemote in used
    && (forall k <- ledger :: Origin(k) == Origin(s.sendingChainKey) ==> Distance(k) < Distance(s.sendingChainKey))
  }

  /** The sessions a device may still send from: the blob, and the cached object. */
  ghost predicate Live(d: Device, s: Session) {
    s == FromJson(d.disk) || d.memory == Some(s)
  }

  /** The two devices send on different chains, whatever they reload. */
  predicate Apart(x: Session, y: Session) {
    Origin(x.sendingChainKey) != Origin(y.sendingChainKey)
  }

  ghost predicate PairSafe(d: Device, other: Device, ledger: seq<Key>, used: set<PublicKey>) {
    && (forall s :: Live(d, s) || Live(other, s) ==> Ahead(s, ledger, used))
    && (forall x, y :: Live(d, x) && Live(other, y) ==> Apart(x, y))
  }

  ghost predicate LedgerSafe(issued: seq<Message>, ledger: seq<Key>, used: set<PublicKey>) {
    && |ledger| == |issued|
    && (forall i :: 0 <= i < |ledger| ==> SealedUnder(issued[i], ledger[i]))
    && (forall k <- ledger :: Known(Origin(k), used))
    && (forall i, j :: 0 <= i < j < |ledger| ==> ledger[i] != ledger[j])
  }

  ghost predicate Safe(w: World, ledger: seq<Key>) {
    LedgerSafe(w.issued, ledger, w.used) && PairSafe(w.a, w.b, ledger, w.used)
  }

  lemma StartSafe(bootstrap: Key, identityA: PublicKey, identityB: PublicKey)
    requires identityA != identityB
    ensures Safe(Start(bootstrap, identityA, identityB), [])
  {
  }

  /** Receiving leaves the sending chain alone or starts one from a new key. */
  lemma DecryptAhead(s: Session, m: Message, ephemeral: PublicKey, ledger: seq<Key>, used: set<PublicKey>)
    requires Ahead(s, ledger, used) && ephemeral !in used
    requires forall k <- ledger :: Known(Origin(k), used)
    ensures var t := Decrypted(s, m, ephemeral).0;
      && Ahead(t, ledger, used + {ephemeral, m.header.dh})
      && (Origin(t.sendingChainKey) == Origin(s.sendingChainKey) || !Known(Origin(t.sendingChainKey), used))
  {
    ReceiveSendingHalf(s, m, ephemeral);
  }

  lemma EncryptAhead(s: Session, ledger: seq<Key>, used: set<PublicKey>)
    requires Ahead(s, ledger, used)
    ensures Ahead(AfterEncrypt(s), ledger + [s.sendingChainKey], used)
    ensures Ahead(AfterEncrypt(s), ledger, used)
    ensures s.sendingChainKey !in ledger
  {
  }

  /** However the operation was cut off, nothing but the session it computed is new. */
  lemma OutcomeLive(d: Device, s: Session, fate: Fate, persists: bool, x: Session)
    requires Live(Outcome(d, s, fate, persists), x)
    ensures Live(d, x) || x == s
  {
  }

  lemma PairCommutes(d: Device, other: Device, ledger: seq<Key>, used: set<PublicKey>)
    requires PairSafe(d, other, ledger, used)
    ensures PairSafe(other, d, ledger, used)
  {
  }

  lemma DecryptPair(d: Device, other: Device, ledger: seq<Key>, used: set<PublicKey>, m: Message, ephemeral: PublicKey,
                    fate: Fate, persists: bool)
    requires PairSafe(d, other, ledger, used) && ephemeral !in used
    requires forall k <- ledger :: Known(Origin(k), used)
    ensures PairSafe(Outcome(d, Decrypted(d.Loaded(), m, ephemeral).0, fate, persists), other, ledger,
                     used + {ephemeral, m.header.dh})
  {
    assert Live(d, d.Loaded());
    DecryptAhead(d.Loaded(), m, ephemeral, ledger, used);
    var s := Decrypted(d.Loaded(), m, ephemeral).0;
    var d' := Outcome(d, s, fate, persists);
    forall x | Live(d', x)
      ensures Live(d, x) || x == s
    {
      OutcomeLive(d, s, fate, persists, x);
    }
  }

  lemma EncryptPair(d: Device, other: Device, ledger: seq<Key>, used: set<PublicKey>, fate: Fate)
    requires PairSafe(d, other, ledger, used)
    ensures var s := d.Loaded();
      PairSafe(Outcome(d, AfterEncrypt(s), fate, true), other,
               if fate == Completed then ledger + [s.sendingChainKey] else ledger, used)
  {
    assert Live(d, d.Loaded());
    EncryptAhead(d.Loaded(), ledger, used);
  }

  lemma StepSafe(w: World, e: Event, ledger: seq<Key>) returns (ledger': seq<Key>)
    requires Safe(w, ledger) && Possible(w, e)
    ensures Safe(Step(w, e), ledger')
  {
    var d, other := w.Of(e.first), w.Of(!e.first);
    var s, w' := d.Loaded(), Step(w, e);
    PairCommutes(w.a, w.b, ledger, w.used);
    ledger' := ledger;
    match e {
      case Crash(first) =>
      case Encrypt(first, plaintext, fate) =>
        EncryptPair(d, other, ledger, w.used, fate);
        if fate == Completed {
          ledger' := ledger + [s.sendingChainKey];
          assert Live(d, s);
          EncryptAhead(s, ledger, w.used);
          assert SealedUnder(w'.issued[|ledger|], s.sendingChainKey);
        }
      case Decrypt(first, m, ephemeral, fate) =>
        DecryptPair(d, other, ledger, w.used, m, ephemeral, fate, Decrypted(s, m, ephemeral).1.Ok?);
    }
    var d', other' := w'.Of(e.first), w'.Of(!e.first);
    assert PairSafe(d', other', ledger', w'.used);
    PairCommutes(d', other', ledger', w'.used);
  }

  lemma {:induction false} RunSafe(w: World, events: seq<Event>, w': World, ledger: seq<Key>)
    returns (ledger': seq<Key>)
    requires Safe(w, ledger) && Reaches(w, events, w')
    ensures Safe(w', ledger')
    decreases |events|
  {
    if events == [] {
      ledger' := ledger;
    } else {
      ledger' := StepSafe(w, events[0], ledger);
      ledger' := RunSafe(Step(w, events[0]), events[1..], w', ledger');
    }
  }

  /** Message-key uniqueness across crashes: in every run from one pair of initialised
      sessions, with arbitrary incoming messages, no two messages either device ever
      returned were sealed under the same key, in either layer of the cascade. */
  lemma MessageKeysUnique(bootstrap: Key, identityA: PublicKey, identityB: PublicKey, events: seq<Event>, w: World,
                          i: nat, j: nat)
    requires identityA != identityB
    requires Reaches(Start(bootstrap, identityA, identityB), events, w)
    requires i < j < |w.issued|
    ensures var m, n := w.issued[i].ciphertext, w.issued[j].ciphertext;
      && m.Box? && m.body.Box? && n.Box? && n.body.Box?
      && m.key != n.key && m.body.key != n.body.key
  {
    StartSafe(bootstrap, identityA, identityB);
    var ledger := RunSafe(Start(bootstrap, identityA, identityB), events, w, []);
    assert SealedUnder(w.issued[i], ledger[i]) && SealedUnder(w.issued[j], ledger[j]);
  }

  // ---- Restarts after completed operations are invisible ----

  datatype Operation =
    | Encrypts(plaintext: Blob)
    | Decrypts(message: Message, ephemeral: PublicKey)
    | Restarts

  /** One device: the manager's state, and what a session that never restarts would be. */
  function Operate(d: Device, op: Operation): Device {
    var s := d.Loaded();
    match op
    case Encrypts(_) => Outcome(d, AfterEncrypt(s), Completed, true)
    case Decrypts(m, ephemeral) =>
      var (s', r) := Decrypted(s, m, ephemeral);
      Outcome(d, s', Completed, r.Ok?)
    case Restarts => Device(None, d.disk)
  }

  function Continue(s: Session, op: Operation): Session {
    match op
    case Encrypts(_) => AfterEncrypt(s)
    case Decrypts(m, ephemeral) => Decrypted(s, m, ephemeral).0
    case Restarts => s
  }

  function ContinueAll(s: Session, ops: seq<Operation>): Session
    decreases |ops|
  {
    if ops == [] then s else ContinueAll(Continue(s, ops[0]), ops[1..])
  }

  function OperateAll(d: Device, ops: seq<Operation>): Device
    decreases |ops|
  {
    if ops == [] then d else OperateAll(Operate(d, ops[0]), ops[1..])
  }

  predicate AllDecrypt(s: Session, ops: seq<Operation>)
    decreases |ops|
  {
    ops != [] ==>
      && (ops[0].Decrypts? ==> Decrypted(s, ops[0].message, ops[0].ephemeral).1.Ok?)
      && AllDecrypt(Continue(s, ops[0]), ops[1..])
  }

  /** While every decryption succeeds, a device that reloads its session from the blob
      store between operations behaves like a session that was never stored. */
  lemma {:induction false} RestartsInvisible(d: Device, ops: seq<Operation>)
    requires d.Loaded() == FromJson(d.disk)
    requires AllDecrypt(d.Loaded(), ops)
    ensures OperateAll(d, ops).Loaded() == ContinueAll(d.Loaded(), ops)
    ensures FromJson(OperateAll(d, ops).disk) == ContinueAll(d.Loaded(), ops)
    decreases |ops|
  {
    if ops != [] {
      RestartsInvisible(Operate(d, ops[0]), ops[1..]);
    }
  }
}
