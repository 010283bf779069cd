/** Group sender keys (client/lib/core/crypto/sender_keys.dart): a hash chain that is
    advanced in place, one step a message. */
module SenderKeys {
  import opened Wrappers
  import opened SymbolicCrypto

  datatype SenderState = SenderState(chainKey: Key, iteration: int)

  datatype GroupCiphertext = GroupCiphertext(iteration: int, ciphertext: Blob)

  function Stepped(s: SenderState): SenderState {
    SenderState(Next(s.chainKey), s.iteration + 1)
  }

  function SteppedTo(s: SenderState, iteration: int): SenderState
    decreases iteration - s.iteration
  {
    if s.iteration < iteration then SteppedTo(Stepped(s), iteration) else s
  }

  function GroupEncrypted(s: SenderState, plaintext: Blob): GroupCiphertext {
    GroupCiphertext(s.iteration, Seal(KeysOf(s.chainKey), None, plaintext))
  }

  /** Decryption steps once even when the message is older than the state. */
  function GroupDecrypted(s: SenderState, m: GroupCiphertext): (SenderState, Option<Blob>) {
    var t := SteppedTo(s, m.iteration);
    (Stepped(t), Open(KeysOf(t.chainKey), None, m.ciphertext))
  }

  /** The state is its generation's chain advanced `iteration` times. */
  predicate OnChain(s: SenderState, seed: Key) {
    s.iteration >= 0 && s.chainKey == Advance(seed, s.iteration)
  }

  /** A message its generation's sender made at the iteration it carries. */
  predicate Genuine(m: GroupCiphertext, seed: Key, plaintext: Blob) {
    m.iteration >= 0 && m == GroupEncrypted(SenderState(Advance(seed, m.iteration), m.iteration), plaintext)
  }

  function Max(x: int, y: int): int { if x > y then x else y }

  lemma {:induction false} SteppedToLaw(s: SenderState, iteration: int, seed: Key)
    requires OnChain(s, seed)
    ensures var t := SteppedTo(s, iteration); OnChain(t, seed) && t.iteration == Max(s.iteration, iteration)
    decreases iteration - s.iteration
  {
    if s.iteration < iteration { SteppedToLaw(Stepped(s), iteration, seed); }
  }

  /** One delivery, exactly: whatever the message claims, the state stays on its chain;
      a genuine message decrypts if and only if it is not older than the state. */
  lemma GroupDeliveryExactly(s: SenderState, seed: Key, m: GroupCiphertext, plaintext: Blob)
    requires OnChain(s, seed)
    ensures var (s', r) := GroupDecrypted(s, m);
      && OnChain(s', seed) && s'.iteration == Max(s.iteration, m.iteration) + 1
      && (Genuine(m, seed, plaintext) ==> r == if m.iteration >= s.iteration then Some(plaintext) else None)
  {
    SteppedToLaw(s, m.iteration, seed);
    if Genuine(m, seed, plaintext) && m.iteration < s.iteration {
      AdvanceInjective(seed, m.iteration, s.iteration);
    }
  }

  /** A message of another generation never decrypts. */
  lemma OtherGenerationFails(s: SenderState, seed: Key, m: GroupCiphertext, seed': Key, plaintext: Blob)
    requires OnChain(s, seed) && Genuine(m, seed', plaintext)
    requires seed.Random? && seed'.Random? && seed != seed'
    ensures GroupDecrypted(s, m).1 == None
  {
    SteppedToLaw(s, m.iteration, seed);
    var t := SteppedTo(s, m.iteration);
    AdvanceLaws(seed, t.iteration);
    AdvanceLaws(seed', m.iteration);
  }

  // ---- Whole deliveries ----

  datatype Sent = Sent(message: GroupCiphertext, plaintext: Blob)

  function AfterAll(s: SenderState, delivered: seq<Sent>): SenderState {
    if delivered == [] then s
    else
      var last := |delivered| - 1;
      GroupDecrypted(AfterAll(s, delivered[..last]), delivered[last].message).0
  }

  /** Message `k` of the delivery order decrypts to what was sent. */
  predicate Decrypts(s: SenderState, delivered: seq<Sent>, k: nat)
    requires k < |delivered|
  {
    GroupDecrypted(AfterAll(s, delivered[..k]), delivered[k].message).1 == Some(delivered[k].plaintext)
  }

  ghost predicate AllGenuine(delivered: seq<Sent>, seed: Key) {
    forall d <- delivered :: Genuine(d.message, seed, d.plaintext)
  }

  ghost predicate StrictlyIncreasing(delivered: seq<Sent>) {
    forall j, k :: 0 <= j < k < |delivered| ==> delivered[j].message.iteration < delivered[k].message.iteration
  }

  /** After any delivery the state is past everything delivered and still on its chain. */
  lemma {:induction false} AfterAllOnChain(s: SenderState, seed: Key, delivered: seq<Sent>)
    requires OnChain(s, seed)
    ensures var t := AfterAll(s, delivered);
      && OnChain(t, seed) && t.iteration >= s.iteration
      && forall j :: 0 <= j < |delivered| ==> delivered[j].message.iteration < t.iteration
  {
    if delivered != [] {
      var last := |delivered| - 1;
      AfterAllOnChain(s, seed, delivered[..last]);
      GroupDeliveryExactly(AfterAll(s, delivered[..last]), seed, delivered[last].message, delivered[last].plaintext);
      forall j | 0 <= j < last
        ensures delivered[j].message.iteration < AfterAll(s, delivered).iteration
      {
        assert delivered[..last][j] == delivered[j];
      }
    }
  }

  /** In strictly increasing order the state stands right after the last message. */
  lemma {:induction false} AfterIncreasing(s: SenderState, seed: Key, delivered: seq<Sent>)
    requires OnChain(s, seed) && StrictlyIncreasing(delivered)
    requires forall d <- delivered :: d.message.iteration >= s.iteration
    ensures AfterAll(s, delivered).iteration
         == if delivered == [] then s.iteration else delivered[|delivered| - 1].message.iteration + 1
  {
    if delivered != [] {
      var last := |delivered| - 1;
      var before := delivered[..last];
      AfterIncreasing(s, seed, before);
      AfterAllOnChain(s, seed, before);
      GroupDeliveryExactly(AfterAll(s, before), seed, delivered[last].message, delivered[last].plaintext);
      if before != [] { assert before[last - 1] == delivered[last - 1]; }
    }
  }

  lemma DecryptsWhenNotOlder(s: SenderState, seed: Key, delivered: seq<Sent>, k: nat)
    requires OnChain(s, seed) && AllGenuine(delivered, seed) && k < |delivered|
    ensures Decrypts(s, delivered, k) <==> delivered[k].message.iteration >= AfterAll(s, delivered[..k]).iteration
  {
    AfterAllOnChain(s, seed, delivered[..k]);
    GroupDeliveryExactly(AfterAll(s, delivered[..k]), seed, delivered[k].message, delivered[k].plaintext);
  }

  ghost predicate AllDecrypt(s: SenderState, delivered: seq<Sent>) {
    forall k: nat :: k < |delivered| ==> Decrypts(s, delivered, k)
  }

  ghost predicate InOrderFrom(delivered: seq<Sent>, iteration: int) {
    StrictlyIncreasing(delivered) && forall d <- delivered :: d.message.iteration >= iteration
  }

  lemma AllDecryptInOrder(s: SenderState, seed: Key, delivered: seq<Sent>)
    requires OnChain(s, seed) && AllGenuine(delivered, seed) && AllDecrypt(s, delivered)
    ensures InOrderFrom(delivered, s.iteration)
  {
    forall k: nat | k < |delivered|
      ensures delivered[k].message.iteration >= s.iteration
      ensures forall j :: 0 <= j < k ==> delivered[j].message.iteration < delivered[k].message.iteration
    {
      assert Decrypts(s, delivered, k);
      DecryptsWhenNotOlder(s, seed, delivered, k);
      AfterAllOnChain(s, seed, delivered[..k]);
      assert forall j :: 0 <= j < k ==> delivered[..k][j] == delivered[j];
    }
  }

  lemma InOrderAllDecrypt(s: SenderState, seed: Key, delivered: seq<Sent>)
    requires OnChain(s, seed) && AllGenuine(delivered, seed) && InOrderFrom(delivered, s.iteration)
    ensures AllDecrypt(s, delivered)
  {
    forall k: nat | k < |delivered|
      ensures Decrypts(s, delivered, k)
    {
      AfterIncreasing(s, seed, delivered[..k]);
      DecryptsWhenNotOlder(s, seed, delivered, k);
    }
  }

  /** Group agreement, exactly: from a state with iteration `i`, genuine messages all
      decrypt to what was sent if and only if they are delivered in strictly increasing
      order of iteration, from `i` on.  Gaps do no harm; a duplicate or an overtaken
      message fails. */
  lemma GroupAgreement(s: SenderState, seed: Key, delivered: seq<Sent>)
    requires OnChain(s, seed) && AllGenuine(delivered, seed)
    ensures AllDecrypt(s, delivered) <==> InOrderFrom(delivered, s.iteration)
  {
    if AllDecrypt(s, delivered) { AllDecryptInOrder(s, seed, delivered); }
    if InOrderFrom(delivered, s.iteration) { InOrderAllDecrypt(s, seed, delivered); }
  }

  // ---- The mutable state ----

  class SenderKeyState {
    var chainKey: Key
    var iteration: int

    function State(): SenderState
      reads this
    {
      SenderState(chainKey, iteration)
    }

    constructor (chainKey: Key, iteration: int)
      ensures State() == SenderState(chainKey, iteration)
    {
      this.chainKey := chainKey;
      this.iteration := iteration;
    }

    method StepAndGetMessageKeys() returns (keys: MessageKeys)
      modifies this
      ensures keys == KeysOf(old(chainKey)) && State() == Stepped(old(State()))
    {
      keys := MessageKeys(MessageA(chainKey), MessageB(chainKey));
      chainKey := Next(chainKey);
      iteration := iteration + 1;
    }
  }

  method EncryptWith(state: SenderKeyState, plaintext: Blob) returns (m: GroupCiphertext)
    modifies state
    ensures m == GroupEncrypted(old(state.State()), plaintext)
    ensures state.State() == Stepped(old(state.State()))
  {
    var iteration := state.iteration;
    var keys := state.StepAndGetMessageKeys();
    var innerBox := Box(AesGcm, keys.a, None, plaintext);
    m := GroupCiphertext(iteration, Box(ChaCha20, keys.b, None, innerBox));
  }

  method DecryptWith(state: SenderKeyState, iteration: int, ciphertext: Blob) returns (plaintext: Option<Blob>)
    modifies state
    ensures (state.State(), plaintext) == GroupDecrypted(old(state.State()), GroupCiphertext(iteration, ciphertext))
  {
    while state.iteration < iteration
      invariant SteppedTo(state.State(), iteration) == SteppedTo(old(state.State()), iteration)
      decreases iteration - state.iteration
    {
      var skipped := state.StepAndGetMessageKeys();
    }
    var keys := state.StepAndGetMessageKeys();
    var inner := OpenBox(ChaCha20, keys.b, None, ciphertext);
    if inner.None? { return None; }
    plaintext := OpenBox(AesGcm, keys.a, None, inner.value);
  }
}
