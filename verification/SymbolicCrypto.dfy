// Cryptography as terms.  Every primitive is a free constructor, so two outputs are
// equal exactly when they were computed by the same primitive from the same inputs.

/** Results of operations that the program aborts with an exception. */
module Wrappers {
  datatype Option<+T> = None | Some(value: T)

  datatype Result<+T, +E> = Ok(value: T) | Err(error: E)
}

module SymbolicCrypto {
  import opened Wrappers

  /** X25519 public keys are all 32 bytes, so comparing them byte by byte is comparing
      the numbers they spell.  A key pair is named by its public key. */
  type PublicKey = nat

  /** A Diffie-Hellman value: the unordered pair of the two keys, kept in order. */
  datatype SharedSecret = SharedSecret(low: PublicKey, high: PublicKey)

  function Agree(mine: PublicKey, theirs: PublicKey): SharedSecret {
    if mine <= theirs then SharedSecret(mine, theirs) else SharedSecret(theirs, mine)
  }

  /** Symmetric key material.  `Root`, `Chain` and `ChainB` are bytes 0-31, 32-63 and
      64-95 of one HKDF output: both HKDF calls of the program use the same info string,
      and HKDF output of length 64 is a prefix of the output of length 96. */
  datatype Key =
    | Bootstrap(passphrase: nat)
    | Random(id: nat)
    | Root(parent: Key, dh: SharedSecret)
    | Chain(parent: Key, dh: SharedSecret)
    | ChainB(parent: Key, dh: SharedSecret)
    | Next(chain: Key)
    | MessageA(chain: Key)
    | MessageB(chain: Key)

  /** The two keys of one message, one for each layer of the cipher cascade. */
  datatype MessageKeys = MessageKeys(a: Key, b: Key)

  function KeysOf(chain: Key): MessageKeys {
    MessageKeys(MessageA(chain), MessageB(chain))
  }

  /** A chain key stepped `n` times. */
  function Advance(chain: Key, n: nat): Key {
    if n == 0 then chain else Next(Advance(chain, n - 1))
  }

  /** The chain a key was stepped from, and how many steps away it is. */
  function Origin(k: Key): Key {
    if k.Next? then Origin(k.chain) else k
  }

  function Distance(k: Key): nat {
    if k.Next? then 1 + Distance(k.chain) else 0
  }

  lemma {:induction false} AdvanceLaws(chain: Key, n: nat)
    ensures Origin(Advance(chain, n)) == Origin(chain)
    ensures Distance(Advance(chain, n)) == Distance(chain) + n
  {
    if n > 0 { AdvanceLaws(chain, n - 1); }
  }

  lemma {:induction false} AdvanceAdds(chain: Key, m: nat, n: nat)
    ensures Advance(Advance(chain, m), n) == Advance(chain, m + n)
  {
    if n > 0 { AdvanceAdds(chain, m, n - 1); }
  }

  /** One chain never gives the same message keys at two positions. */
  lemma AdvanceInjective(chain: Key, m: nat, n: nat)
    ensures KeysOf(Advance(chain, m)) == KeysOf(Advance(chain, n)) <==> m == n
  {
    AdvanceLaws(chain, m);
    AdvanceLaws(chain, n);
  }

  datatype Header = Header(dh: PublicKey, pn: int, n: int)

  datatype Cipher = AesGcm | ChaCha20

  /** Byte strings that pass through the ciphers. */
  datatype Blob =
    | Text(text: string)
    | Distribution(group: string, chainKey: Key, iteration: int)
    | Junk(id: nat)
    | Box(cipher: Cipher, key: Key, aad: Option<Header>, body: Blob)

  /** Authenticated decryption: opens only under the sealing key and associated data. */
  function OpenBox(cipher: Cipher, key: Key, aad: Option<Header>, box: Blob): Option<Blob> {
    if box.Box? && box.cipher == cipher && box.key == key && box.aad == aad then Some(box.body) else None
  }

  /** The cascade: AES-GCM inside, ChaCha20-Poly1305 outside. */
  function Seal(keys: MessageKeys, aad: Option<Header>, plaintext: Blob): Blob {
    Box(ChaCha20, keys.b, aad, Box(AesGcm, keys.a, aad, plaintext))
  }

  function Open(keys: MessageKeys, aad: Option<Header>, box: Blob): Option<Blob> {
    var inner := OpenBox(ChaCha20, keys.b, aad, box);
    if inner.None? then None else OpenBox(AesGcm, keys.a, aad, inner.value)
  }

  /** A sealed box opens under exactly the keys and associated data it was sealed with. */
  lemma SealOpens(keys: MessageKeys, aad: Option<Header>, plaintext: Blob, keys': MessageKeys, aad': Option<Header>)
    ensures Open(keys', aad', Seal(keys, aad, plaintext))
         == if keys' == keys && aad' == aad then Some(plaintext) else None
  {
  }
}
